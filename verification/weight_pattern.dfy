/**
 * The weight pattern `(\d+(?:\.\d+)?)\s*(oz|lb|kg|g|ml|l)\b` searched with Python's `re.search`,
 * over ASCII text. The matcher below follows the backtracking engine step by step: quantifiers are
 * greedy and give back one character at a time, the optional group is tried before its absence, the
 * unit alternatives are tried in the order written, and the search takes the leftmost start that matches.
 */
module WeightPattern {
  import opened Wrappers
  import opened PyText

  /** The unit alternatives, in the order the pattern lists them (the extension test uses the same list). */
  const Units: seq<string> := ["oz", "lb", "kg", "g", "ml", "l"]

  /** A character `\w` matches, in ASCII. */
  predicate IsWordChar(c: char) {
    'a' <= c <= 'z' || 'A' <= c <= 'Z' || IsDigit(c) || c == '_'
  }

  /** `\b` at position k: a word character on exactly one side. */
  predicate AtBoundary(s: string, k: nat)
    requires k <= |s|
  {
    (k > 0 && IsWordChar(s[k - 1])) != (k < |s| && IsWordChar(s[k]))
  }

  /** The first alternative that succeeds, as backtracking would find it. */
  function FirstOf(a: Option<nat>, b: Option<nat>): Option<nat> {
    if a.Some? then a else b
  }

  /** `(oz|lb|kg|g|ml|l)\b` at k, trying the alternatives from index u on; the end of the match. */
  function UnitFrom(s: string, k: nat, u: nat): (r: Option<nat>)
    requires k <= |s|
    ensures r.Some? ==> k < r.value <= |s|
    decreases |Units| - u
  {
    if u >= |Units| then None
    else
      var e := k + |Units[u]|;
      if e <= |s| && s[k..e] == Units[u] && AtBoundary(s, e) then Some(e)
      else UnitFrom(s, k, u + 1)
  }

  /** `\s*` at k followed by the units: one more whitespace character first, stopping here after. */
  function Spaces(s: string, k: nat): (r: Option<nat>)
    requires k <= |s|
    ensures r.Some? ==> k < r.value <= |s|
    decreases |s| - k
  {
    if k < |s| && IsSpace(s[k]) then FirstOf(Spaces(s, k + 1), UnitFrom(s, k, 0))
    else UnitFrom(s, k, 0)
  }

  /** The digits of `\.\d+` after its first one, then the rest of the pattern. */
  function FractionDigits(s: string, k: nat): (r: Option<nat>)
    requires k <= |s|
    ensures r.Some? ==> k < r.value <= |s|
    decreases |s| - k
  {
    if k < |s| && IsDigit(s[k]) then FirstOf(FractionDigits(s, k + 1), Spaces(s, k))
    else Spaces(s, k)
  }

  /** `(?:\.\d+)?` at j: the group first, its absence after. */
  function OptionalFraction(s: string, j: nat): (r: Option<nat>)
    requires j <= |s|
    ensures r.Some? ==> j < r.value <= |s|
  {
    if j + 1 < |s| && s[j] == '.' && IsDigit(s[j + 1]) then FirstOf(FractionDigits(s, j + 2), Spaces(s, j))
    else Spaces(s, j)
  }

  /** The digits of `\d+` after its first one, then the rest of the pattern. */
  function IntegerDigits(s: string, j: nat): (r: Option<nat>)
    requires j <= |s|
    ensures r.Some? ==> j < r.value <= |s|
    decreases |s| - j
  {
    if j < |s| && IsDigit(s[j]) then FirstOf(IntegerDigits(s, j + 1), OptionalFraction(s, j))
    else OptionalFraction(s, j)
  }

  /** The pattern anchored at i: the end of the first match the engine finds there, if any. */
  function MatchAt(s: string, i: nat): (r: Option<nat>)
    requires i <= |s|
    ensures r.Some? ==> i < r.value <= |s|
  {
    if i < |s| && IsDigit(s[i]) then IntegerDigits(s, i + 1) else None
  }

  /** `re.search` from position i: the leftmost start that matches, and where that match ends. */
  function SearchFrom(s: string, i: nat): (r: Option<(nat, nat)>)
    requires i <= |s|
    ensures r.Some? ==> i <= r.value.0 < r.value.1 <= |s| && MatchAt(s, r.value.0) == Some(r.value.1)
    ensures forall p :: i <= p <= |s| && (r.None? || p < r.value.0) ==> MatchAt(s, p).None?
    decreases |s| - i
  {
    match MatchAt(s, i)
    case Some(e) => Some((i, e))
    case None => if i == |s| then None else SearchFrom(s, i + 1)
  }

  /** `m = re.search(pattern, s)` followed by `m.group(0)`. */
  function Search(s: string): (r: Option<string>)
    ensures r.Some? ==> exists i, e :: && 0 <= i < e <= |s| && r.value == s[i..e] && MatchAt(s, i) == Some(e)
                                        && forall p :: 0 <= p < i ==> MatchAt(s, p).None?
    ensures r.None? ==> forall p :: 0 <= p <= |s| ==> MatchAt(s, p).None?
  {
    match SearchFrom(s, 0)
    case Some((i, e)) => Some(s[i..e])
    case None => None
  }

  // ---------------------------------------------------------------------------------------------
  // What the backtracking amounts to for this pattern: every quantifier takes the longest run.

  /** The end of the run of digits that starts at j. */
  function DigitRunEnd(s: string, j: nat): (e: nat)
    requires j <= |s|
    ensures j <= e <= |s|
    ensures forall k :: j <= k < e ==> IsDigit(s[k])
    ensures e == |s| || !IsDigit(s[e])
    decreases |s| - j
  {
    if j < |s| && IsDigit(s[j]) then DigitRunEnd(s, j + 1) else j
  }

  /** The end of the run of whitespace that starts at k. */
  function SpaceRunEnd(s: string, k: nat): (e: nat)
    requires k <= |s|
    ensures k <= e <= |s|
    ensures forall m :: k <= m < e ==> IsSpace(s[m])
    ensures e == |s| || !IsSpace(s[e])
    decreases |s| - k
  {
    if k < |s| && IsSpace(s[k]) then SpaceRunEnd(s, k + 1) else k
  }

  /** Where `(?:\.\d+)?` ends when taken greedily at j: past the fraction if a dot and a digit follow. */
  function FractionEnd(s: string, j: nat): (e: nat)
    requires j <= |s|
    ensures j <= e <= |s|
  {
    if j + 1 < |s| && s[j] == '.' && IsDigit(s[j + 1]) then DigitRunEnd(s, j + 1) else j
  }

  /** The match at i read without backtracking: all the digits, the fraction when a dot and a digit follow,
      all the whitespace, then the first unit that ends on a word boundary. */
  function GreedyMatchAt(s: string, i: nat): Option<nat>
    requires i <= |s|
  {
    if i < |s| && IsDigit(s[i]) then UnitFrom(s, SpaceRunEnd(s, FractionEnd(s, DigitRunEnd(s, i))), 0)
    else None
  }

  lemma {:induction false} UnitsStartWithLetter(u: nat)
    requires u < |Units|
    ensures |Units[u]| > 0 && 'a' <= Units[u][0] <= 'z'
  {
  }

  /** Every unit begins with a lower-case letter, so none can match anywhere else. */
  lemma {:induction false} UnitNeedsLetter(s: string, k: nat, u: nat)
    requires k <= |s|
    requires k == |s| || !('a' <= s[k] <= 'z')
    ensures UnitFrom(s, k, u) == None
    decreases |Units| - u
  {
    if u < |Units| {
      UnitsStartWithLetter(u);
      var e := k + |Units[u]|;
      if e <= |s| {
        assert s[k..e][0] == s[k] != Units[u][0];
      }
      UnitNeedsLetter(s, k, u + 1);
    }
  }

  lemma {:induction false} SpacesGreedy(s: string, k: nat)
    requires k <= |s|
    ensures Spaces(s, k) == UnitFrom(s, SpaceRunEnd(s, k), 0)
    decreases |s| - k
  {
    if k < |s| && IsSpace(s[k]) {
      UnitNeedsLetter(s, k, 0);
      SpacesGreedy(s, k + 1);
    }
  }

  lemma {:induction false} FractionDigitsGreedy(s: string, k: nat)
    requires k <= |s|
    ensures FractionDigits(s, k) == Spaces(s, DigitRunEnd(s, k))
    decreases |s| - k
  {
    if k < |s| && IsDigit(s[k]) {
      UnitNeedsLetter(s, k, 0);
      FractionDigitsGreedy(s, k + 1);
    }
  }

  /** With a dot and a digit at j the group is taken: skipping it would leave the dot, where no unit begins. */
  lemma {:induction false} OptionalFractionGreedy(s: string, j: nat)
    requires j <= |s|
    ensures OptionalFraction(s, j) == Spaces(s, FractionEnd(s, j))
  {
    if j + 1 < |s| && s[j] == '.' && IsDigit(s[j + 1]) {
      UnitNeedsLetter(s, j, 0);
      assert FractionEnd(s, j) == DigitRunEnd(s, j + 2);
      FractionDigitsGreedy(s, j + 2);
    }
  }

  lemma {:induction false} IntegerDigitsGreedy(s: string, j: nat)
    requires j <= |s|
    ensures IntegerDigits(s, j) == OptionalFraction(s, DigitRunEnd(s, j))
    decreases |s| - j
  {
    if j < |s| && IsDigit(s[j]) {
      UnitNeedsLetter(s, j, 0);
      IntegerDigitsGreedy(s, j + 1);
    }
  }

  /** Backtracking never pays off for this pattern: the engine's match is the longest-run reading. */
  lemma {:induction false} MatchAtIsGreedy(s: string, i: nat)
    requires i <= |s|
    ensures MatchAt(s, i) == GreedyMatchAt(s, i)
  {
    if i < |s| && IsDigit(s[i]) {
      var j := DigitRunEnd(s, i + 1);
      assert DigitRunEnd(s, i) == j;
      IntegerDigitsGreedy(s, i + 1);
      OptionalFractionGreedy(s, j);
      SpacesGreedy(s, FractionEnd(s, j));
    }
  }

  lemma MatchStartsWithDigit(s: string, i: nat)
    requires i <= |s| && MatchAt(s, i).Some?
    ensures i < |s| && IsDigit(s[i])
  {
  }

  /** A match at k with no digit between i and k is the one the search from i finds: the pattern begins with a digit. */
  lemma SearchFindsFirstDigitMatch(s: string, i: nat, k: nat)
    requires i <= k <= |s| && MatchAt(s, k).Some?
    requires forall p :: i <= p < k ==> !IsDigit(s[p])
    ensures SearchFrom(s, i) == Some((k, MatchAt(s, k).value))
  {
    var r := SearchFrom(s, i);
    assert r.Some? && r.value.0 <= k;
    MatchStartsWithDigit(s, r.value.0);
  }

  /** The text ends in "16 oz" after 18 characters without a digit, as a typical lower-cased title does. */
  predicate SixteenOuncesAt18(t: string) {
    && |t| == 23
    && (forall p :: 0 <= p < 18 ==> !IsDigit(t[p]))
    && t[18] == '1' && t[19] == '6' && t[20] == ' ' && t[21] == 'o' && t[22] == 'z'
  }

  /** The pattern at the "16" matches "16 oz". */
  lemma SixteenOuncesMatch(t: string)
    requires SixteenOuncesAt18(t)
    ensures MatchAt(t, 18) == Some(23)
  {
    MatchAtIsGreedy(t, 18);
    assert DigitRunEnd(t, 20) == 20;
    assert DigitRunEnd(t, 19) == 20;
    assert DigitRunEnd(t, 18) == 20;
    assert FractionEnd(t, 20) == 20;
    assert SpaceRunEnd(t, 21) == 21;
    assert SpaceRunEnd(t, 20) == 21;
    assert t[21..23] == "oz";
  }

  /** The weight found in such a text is "16 oz": the number, the space and the unit. */
  lemma WeightExample(t: string)
    requires SixteenOuncesAt18(t)
    ensures Search(t) == Some("16 oz")
  {
    SixteenOuncesMatch(t);
    SearchFindsFirstDigitMatch(t, 0, 18);
    assert t[18..23] == "16 oz";
  }

  /** In "jif peanut butter 16 oz" the weight found is "16 oz". */
  lemma JifWeightExample(t: string)
    requires t == "jif peanut butter 16 oz"
    ensures Search(t) == Some("16 oz")
  {
    WeightExample(t);
  }
}
