/**
 * The few pieces of Python's `str` and `int` the service relies on, restricted to ASCII:
 * `str.lower()`, `str.strip()`, the first field of `str.split(" ")`, the `in` substring test,
 * slicing a list with `xs[:n]`, `int(text)` and `str(n)`.
 */
module PyText {
  import opened Wrappers

  /** `c.isspace()` for an ASCII character: space, \t \n \v \f \r, and the separators 0x1C to 0x1F. */
  predicate IsSpace(c: char) {
    c == ' ' || 9 <= c as int <= 13 || 28 <= c as int <= 31
  }

  /** The whitespace `int(text)` skips around an ASCII numeral: space and \t \n \v \f \r, but not 0x1C to 0x1F. */
  predicate IsIntSpace(c: char) {
    c == ' ' || 9 <= c as int <= 13
  }

  predicate IsDigit(c: char) {
    '0' <= c <= '9'
  }

  /** Every character of `s` is one of `ws`. */
  predicate AllIn(ws: char -> bool, s: string) {
    forall k :: 0 <= k < |s| ==> ws(s[k])
  }

  predicate AllSpace(s: string) {
    AllIn(IsSpace, s)
  }

  function LowerChar(c: char): char {
    if 'A' <= c <= 'Z' then (c as int + 32) as char else c
  }

  /** `s.lower()` */
  function Lower(s: string): string {
    if s == [] then [] else [LowerChar(s[0])] + Lower(s[1..])
  }

  /** The leading characters of `s` that `ws` accepts, removed. */
  function LStripWith(ws: char -> bool, s: string): string {
    if s != [] && ws(s[0]) then LStripWith(ws, s[1..]) else s
  }

  /** The trailing characters of `s` that `ws` accepts, removed. */
  function RStripWith(ws: char -> bool, s: string): string {
    if s != [] && ws(s[|s| - 1]) then RStripWith(ws, s[..|s| - 1]) else s
  }

  /** Both ends of `s` trimmed of the characters `ws` accepts. */
  function StripWith(ws: char -> bool, s: string): string {
    RStripWith(ws, LStripWith(ws, s))
  }

  /** `s.strip()` */
  function Strip(s: string): string {
    StripWith(IsSpace, s)
  }

  /** `u in s` for strings: `u` occurs somewhere in `s` as a contiguous run. */
  predicate Contains(s: string, u: string) {
    |u| <= |s| && (s[..|u|] == u || Contains(s[1..], u))
  }

  /** `s.split(" ")[0]`: everything before the first single space, or all of `s` when it has none. */
  function FirstField(s: string): (t: string)
    ensures t <= s
    ensures ' ' !in t
    ensures |t| < |s| ==> s[|t|] == ' '
  {
    if s == [] || s[0] == ' ' then [] else [s[0]] + FirstField(s[1..])
  }

  /** The first field ends at the first space. */
  lemma {:induction false} FirstFieldEndsAtSpace(s: string, k: nat)
    requires k < |s| && s[k] == ' ' && ' ' !in s[..k]
    ensures FirstField(s) == s[..k]
  {
    if k > 0 {
      assert s[0] in s[..k];
      assert s[1..][..k - 1] == s[1..k];
      assert ' ' !in s[1..][..k - 1] by { assert forall c :: c in s[1..k] ==> c in s[..k]; }
      FirstFieldEndsAtSpace(s[1..], k - 1);
      assert s[..k] == [s[0]] + s[1..k];
    }
  }

  /** `xs[:n]` with Python's slice rules: a negative `n` counts from the end, and an `n` past the end stops there. */
  function Take<T>(xs: seq<T>, n: int): (r: seq<T>)
    ensures r <= xs
    ensures n >= 0 ==> |r| == if n < |xs| then n else |xs|
    ensures n < 0 ==> |r| == if |xs| + n < 0 then 0 else |xs| + n
  {
    if n >= |xs| then xs
    else if n >= 0 then xs[..n]
    else if |xs| + n < 0 then []
    else xs[..|xs| + n]
  }

  // ---------------------------------------------------------------------------------------------
  // int(text) and str(n), base 10

  function DigitValue(c: char): nat
    requires IsDigit(c)
  {
    c as int - '0' as int
  }

  function DigitChar(d: nat): (c: char)
    requires d < 10
    ensures IsDigit(c) && DigitValue(c) == d
  {
    ('0' as int + d) as char
  }

  /**
   * The digits Python's `int()` accepts after the sign: at least one digit, and single underscores
   * allowed only between two digits ("1_000"). Read from the right, as its value is.
   */
  predicate Numeral(s: string) {
    && |s| > 0
    && IsDigit(s[|s| - 1])
    && (|| |s| == 1
        || Numeral(s[..|s| - 1])
        || (|s| >= 3 && s[|s| - 2] == '_' && Numeral(s[..|s| - 2])))
  }

  /** The value of a numeral, underscores skipped. */
  function NumeralValue(s: string): nat {
    if s == [] then 0
    else if IsDigit(s[|s| - 1]) then NumeralValue(s[..|s| - 1]) * 10 + DigitValue(s[|s| - 1])
    else NumeralValue(s[..|s| - 1])
  }

  /** The number of digits in a numeral, underscores not counted. */
  function DigitCount(s: string): nat {
    if s == [] then 0 else DigitCount(s[..|s| - 1]) + if IsDigit(s[|s| - 1]) then 1 else 0
  }

  /** CPython's default limit on the digits `int(text)` reads and `str(n)` writes in base 10 (`sys.int_info.default_max_str_digits`). */
  const MaxStrDigits: nat := 4300

  /**
   * `int(text)`: surrounding whitespace, an optional sign and a numeral of at most `MaxStrDigits`
   * digits; None where Python raises ValueError.
   */
  function ParseInt(text: string): Option<int> {
    var t := StripWith(IsIntSpace, text);
    var signed := |t| > 0 && (t[0] == '+' || t[0] == '-');
    var body := if signed then t[1..] else t;
    if !Numeral(body) || DigitCount(body) > MaxStrDigits then None
    else if signed && t[0] == '-' then Some(-(NumeralValue(body) as int))
    else Some(NumeralValue(body))
  }

  /** `str(n)` for a non-negative integer. */
  function NatToString(n: nat): (s: string)
    ensures |s| > 0 && IsDigit(s[0]) && IsDigit(s[|s| - 1])
  {
    if n < 10 then [DigitChar(n)] else NatToString(n / 10) + [DigitChar(n % 10)]
  }

  /** `str(i)` */
  function IntToString(i: int): string {
    if i < 0 then "-" + NatToString(-i) else NatToString(i)
  }

  // ---------------------------------------------------------------------------------------------
  // Lemmas

  /** Lower-casing maps each character on its own. */
  lemma {:induction false} LowerChars(s: string)
    ensures |Lower(s)| == |s|
    ensures forall i :: 0 <= i < |s| ==> Lower(s)[i] == LowerChar(s[i])
  {
    if s != [] {
      LowerChars(s[1..]);
    }
  }

  /** What stripping the left leaves is a suffix that does not begin with a stripped character. */
  lemma {:induction false} LStripIsSuffix(ws: char -> bool, s: string)
    ensures |LStripWith(ws, s)| <= |s| && LStripWith(ws, s) == s[|s| - |LStripWith(ws, s)|..]
    ensures LStripWith(ws, s) == [] || !ws(LStripWith(ws, s)[0])
  {
    if s != [] && ws(s[0]) {
      LStripIsSuffix(ws, s[1..]);
    }
  }

  /** What stripping the right leaves is a prefix that does not end with a stripped character. */
  lemma {:induction false} RStripIsPrefix(ws: char -> bool, s: string)
    ensures RStripWith(ws, s) <= s
    ensures RStripWith(ws, s) == [] || !ws(RStripWith(ws, s)[|RStripWith(ws, s)| - 1])
  {
    if s != [] && ws(s[|s| - 1]) {
      RStripIsPrefix(ws, s[..|s| - 1]);
    }
  }

  /** Stripping the left only looks past the leading stripped characters: what follows is kept. */
  lemma {:induction false} LStripConcat(ws: char -> bool, s: string, t: string)
    ensures LStripWith(ws, s + t) == if LStripWith(ws, s) == [] then LStripWith(ws, t) else LStripWith(ws, s) + t
  {
    if s == [] {
      assert s + t == t;
    } else if ws(s[0]) {
      assert (s + t)[1..] == s[1..] + t;
      LStripConcat(ws, s[1..], t);
    } else {
      assert (s + t)[0] == s[0];
    }
  }

  lemma {:induction false} RStripOfPaddingSuffix(ws: char -> bool, s: string, b: string)
    requires AllIn(ws, b)
    ensures RStripWith(ws, s + b) == RStripWith(ws, s)
  {
    if b != [] {
      assert (s + b)[..|s + b| - 1] == s + b[..|b| - 1];
      RStripOfPaddingSuffix(ws, s, b[..|b| - 1]);
    } else {
      assert s + b == s;
    }
  }

  lemma {:induction false} LStripOfPaddingPrefix(ws: char -> bool, a: string, s: string)
    requires AllIn(ws, a)
    ensures LStripWith(ws, a + s) == LStripWith(ws, s)
  {
    if a != [] {
      assert (a + s)[1..] == a[1..] + s;
      LStripOfPaddingPrefix(ws, a[1..], s);
    } else {
      assert a + s == s;
    }
  }

  /** Padding made of stripped characters on either side does not change what stripping gives:
      `(a + s + b).strip() == s.strip()`, and likewise for `int()`'s trimming. */
  lemma StripIgnoresPadding(ws: char -> bool, a: string, s: string, b: string)
    requires AllIn(ws, a) && AllIn(ws, b)
    ensures StripWith(ws, a + s + b) == StripWith(ws, s)
  {
    assert a + s + b == a + (s + b);
    LStripOfPaddingPrefix(ws, a, s + b);
    LStripConcat(ws, s, b);
    if LStripWith(ws, s) == [] {
      LStripOfPaddingPrefix(ws, b, []);
      assert b + [] == b;
      assert LStripWith(ws, b) == LStripWith(ws, []) == [];
    } else {
      RStripOfPaddingSuffix(ws, LStripWith(ws, s), b);
    }
  }

  /** Stripping twice is stripping once. */
  lemma StripIdempotent(ws: char -> bool, s: string)
    ensures StripWith(ws, StripWith(ws, s)) == StripWith(ws, s)
  {
    var y := LStripWith(ws, s);
    var r := RStripWith(ws, y);
    LStripIsSuffix(ws, s);
    RStripIsPrefix(ws, y);
    assert r == [] || r[0] == y[0];
    assert LStripWith(ws, r) == r;
  }

  /** A whitespace character is not a letter, so lower-casing keeps it and makes no new one. */
  lemma LowerKeepsSpace(c: char)
    ensures IsSpace(LowerChar(c)) <==> IsSpace(c)
  {
  }

  /** Whitespace has no case. */
  lemma {:induction false} LowerOfSpace(s: string)
    requires AllSpace(s)
    ensures Lower(s) == s
  {
    if s != [] {
      LowerOfSpace(s[1..]);
    }
  }

  lemma {:induction false} LowerLStrip(s: string)
    ensures Lower(LStripWith(IsSpace, s)) == LStripWith(IsSpace, Lower(s))
  {
    if s != [] {
      LowerKeepsSpace(s[0]);
      if IsSpace(s[0]) {
        LowerLStrip(s[1..]);
      }
    }
  }

  lemma {:induction false} LowerRStrip(s: string)
    ensures Lower(RStripWith(IsSpace, s)) == RStripWith(IsSpace, Lower(s))
  {
    if s != [] {
      var init := s[..|s| - 1];
      assert s == init + [s[|s| - 1]];
      LowerConcat(init, [s[|s| - 1]]);
      LowerChars(s);
      LowerKeepsSpace(s[|s| - 1]);
      if IsSpace(s[|s| - 1]) {
        assert Lower(s)[..|s| - 1] == Lower(init);
        LowerRStrip(init);
      }
    }
  }

  /** Lower-casing and stripping commute, since case mapping never creates or removes whitespace. */
  lemma LowerStrip(s: string)
    ensures Lower(Strip(s)) == Strip(Lower(s))
  {
    LowerRStrip(LStripWith(IsSpace, s));
    LowerLStrip(s);
  }

  /** Lower-casing twice is lower-casing once. */
  lemma {:induction false} LowerIdempotent(s: string)
    ensures Lower(Lower(s)) == Lower(s)
  {
    if s != [] {
      LowerIdempotent(s[1..]);
    }
  }

  /** Lower-casing a concatenation lower-cases each part. */
  lemma {:induction false} LowerConcat(a: string, b: string)
    ensures Lower(a + b) == Lower(a) + Lower(b)
  {
    if a == [] {
      assert a + b == b;
    } else {
      assert (a + b)[1..] == a[1..] + b;
      LowerConcat(a[1..], b);
    }
  }

  /** A text whose first and last characters are not stripped has nothing to strip. */
  lemma StripNoPadding(ws: char -> bool, s: string)
    requires |s| > 0 && !ws(s[0]) && !ws(s[|s| - 1])
    ensures StripWith(ws, s) == s
  {
  }

  lemma {:induction false} NatToStringIsNumeral(n: nat)
    ensures Numeral(NatToString(n))
    ensures NumeralValue(NatToString(n)) == n
    ensures DigitCount(NatToString(n)) == |NatToString(n)|
  {
    var s := NatToString(n);
    if n >= 10 {
      NatToStringIsNumeral(n / 10);
      assert s[..|s| - 1] == NatToString(n / 10);
    }
  }

  /** `int(str(i)) == i` whenever `i` has at most `MaxStrDigits` digits; past that `int()` refuses it. */
  lemma ParseIntOfIntToString(i: int)
    ensures ParseInt(IntToString(i)) == if |NatToString(if i < 0 then -i else i)| <= MaxStrDigits then Some(i) else None
  {
    var s := IntToString(i);
    var digits := NatToString(if i < 0 then -i else i);
    NatToStringIsNumeral(if i < 0 then -i else i);
    StripNoPadding(IsIntSpace, s);
    if i < 0 {
      assert s[1..] == digits;
    } else {
      assert s[0] != '+' && s[0] != '-';
    }
  }
}
