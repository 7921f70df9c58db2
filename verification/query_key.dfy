/**
 * `SerpAPIClient._generate_query_hash`: the cache key of a query is the SHA-256 digest of its
 * lower-cased, stripped text. The digest itself is a parameter: any function of the normalised text.
 */
module QueryKey {
  import opened PyText

  /** `query.lower().strip()` */
  function NormalizeQuery(query: string): string {
    Strip(Lower(query))
  }

  /** `sha256(query.lower().strip().encode()).hexdigest()`, with the digest supplied by the caller. */
  function QueryHash(digest: string -> string, query: string): string {
    digest(NormalizeQuery(query))
  }

  /** Normalising a normalised query changes nothing, so a key computed from a stored query is its own key. */
  lemma NormalizeIdempotent(query: string)
    ensures NormalizeQuery(NormalizeQuery(query)) == NormalizeQuery(query)
  {
    LowerStrip(Lower(query));
    LowerIdempotent(query);
    StripIdempotent(IsSpace, Lower(query));
  }

  /** Queries that differ only in letter case and surrounding whitespace share one cache key, whatever the digest. */
  lemma SameKeyModuloCaseAndPadding(digest: string -> string, a: string, x: string, b: string, y: string)
    requires AllSpace(a) && AllSpace(b)
    requires Lower(x) == Lower(y)
    ensures QueryHash(digest, a + x + b) == QueryHash(digest, y)
  {
    LowerConcat(a + x, b);
    LowerConcat(a, x);
    LowerOfSpace(a);
    LowerOfSpace(b);
    StripIgnoresPadding(IsSpace, a, Lower(x), b);
  }

  /** The key depends on nothing but the normalised text. */
  lemma KeyOfNormalizedQuery(digest: string -> string, query: string)
    ensures QueryHash(digest, NormalizeQuery(query)) == QueryHash(digest, query)
  {
    NormalizeIdempotent(query);
  }

  /** Texts that agree character by character up to case lower-case alike. */
  lemma LowerAgrees(x: string, y: string)
    requires |x| == |y| && forall i :: 0 <= i < |x| ==> LowerChar(x[i]) == LowerChar(y[i])
    ensures Lower(x) == Lower(y)
  {
    LowerChars(x);
    LowerChars(y);
  }

  /** "Peanut Butter", " peanut butter " and "PEANUT BUTTER" share one cache key. */
  lemma PeanutButterExample(digest: string -> string, title: string, lower: string, shout: string)
    requires title == "Peanut Butter" && lower == "peanut butter" && shout == "PEANUT BUTTER"
    ensures QueryHash(digest, " " + lower + " ") == QueryHash(digest, title)
    ensures QueryHash(digest, shout) == QueryHash(digest, title)
  {
    LowerAgrees(lower, title);
    LowerAgrees(shout, title);
    SameKeyModuloCaseAndPadding(digest, " ", lower, " ", title);
    SameKeyModuloCaseAndPadding(digest, [], shout, [], title);
    assert [] + shout + [] == shout;
  }
}
