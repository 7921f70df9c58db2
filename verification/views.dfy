/**
 * `ProductSearchView.get` and `_search_products`: the query and limit parameters are validated, the
 * search service is called, and its result or its error becomes the HTTP response.
 */
module Views {
  import opened Wrappers
  import opened PyText
  import opened Extractor
  import opened Services

  /** The body of a response. */
  datatype Body =
    | QueryRequired(error: string, message: string, example: string)
    | Failed(error: string, message: string, query: string, results: seq<ProductRecord>, count: nat,
             cached: bool, responseTimeMs: nat)
    | Found(result: SearchResult, apiVersion: string, service: string, queryProcessed: string, limit: int)

  datatype Response = Response(status: int, body: Body)

  /** What the call to the search service can raise: a SerpApiError, or anything else. */
  datatype ServiceFailure = Serp(error: SerpApiError) | Internal

  /** The 400 response to a missing or blank query. */
  const BadRequest := Response(400, QueryRequired(
    "Query parameter \"q\" is required",
    "Please provide a product name to search for",
    "/api/products/search/?q=365+WholeFoods+Peanut+Butter"))

  /** `int(request.GET.get("limit", 20))`, then 20 for anything below 1 and 100 for anything above 100;
      20 as well when the text is not an integer. */
  function EffectiveLimit(limit: Option<string>): (n: int)
    ensures 1 <= n <= 100
    ensures n != 20 ==>
              && limit.Some? && ParseInt(limit.value).Some?
              && (n == ParseInt(limit.value).value || (n == 100 && ParseInt(limit.value).value > 100))
  {
    match limit
    case None => 20
    case Some(text) =>
      match ParseInt(text)
      case None => 20
      case Some(v) => if v < 1 then 20 else if v > 100 then 100 else v
  }

  /** `_search_products`: the service's result with the API metadata added. */
  function Decorate(result: SearchResult, query: string, limit: int): (body: Body)
    ensures body.Found? && body.result == result
    ensures body.queryProcessed == query && body.limit == limit
  {
    Found(result, "1.0.0", "Smart Shopping Assistant", query, limit)
  }

  /** The response to a non-blank query, given what the search came to. */
  function Respond(query: string, limit: int, outcome: Result<SearchResult, ServiceFailure>): (resp: Response)
    ensures resp.status == 200 <==> outcome.Success?
    ensures resp.status == 503 <==> outcome.Failure? && outcome.error.Serp?
    ensures resp.status == 500 <==> outcome.Failure? && outcome.error.Internal?
    ensures outcome.Success? ==> resp.body == Decorate(outcome.value, query, limit)
    ensures outcome.Failure? ==>
              && resp.body.Failed? && resp.body.query == query && resp.body.results == []
              && resp.body.count == 0 && !resp.body.cached && resp.body.responseTimeMs == 0
    ensures outcome.Failure? && outcome.error.Serp? ==> resp.body.message == outcome.error.error.message
  {
    match outcome
    case Success(result) => Response(200, Decorate(result, query, limit))
    case Failure(Serp(e)) =>
      Response(503, Failed("Search service temporarily unavailable", e.message, query, [], 0, false, 0))
    case Failure(Internal) =>
      Response(500, Failed("Internal server error", "An unexpected error occurred while processing your request",
                           query, [], 0, false, 0))
  }

  /** What the view's `try` block sees of the search: its result, or the SerpApiError it raised. */
  function AsServiceOutcome(r: Result<SearchResult, SerpApiError>): (o: Result<SearchResult, ServiceFailure>)
    ensures o.Success? <==> r.Success?
    ensures r.Success? ==> o.value == r.value
    ensures r.Failure? ==> o.error == Serp(r.error)
  {
    match r
    case Success(v) => Success(v)
    case Failure(e) => Failure(Serp(e))
  }

  /**
   * `ProductSearchView.get`. A blank query is refused before the service is touched; otherwise the
   * stripped query is searched with the clamped limit, and the result or the SerpApiError is answered.
   * `searched` is what the search returned, None when there was no search.
   */
  method HandleGet(client: SerpApiClient, q: Option<string>, limit: Option<string>, now: int, elapsedMs: nat,
                   fetch: UpstreamRequest -> UpstreamOutcome)
    returns (resp: Response, searched: Option<Result<SearchResult, SerpApiError>>)
    requires client.Valid()
    modifies client
    ensures client.Valid()
    ensures Strip(q.GetOr("")) == [] ==> resp == BadRequest && searched.None? && unchanged(client)
    ensures Strip(q.GetOr("")) != [] ==>
              && searched.Some?
              && client.SearchedAs(Strip(q.GetOr("")), EffectiveLimit(limit), now, elapsedMs, fetch, searched.value)
              && resp == Respond(Strip(q.GetOr("")), EffectiveLimit(limit), AsServiceOutcome(searched.value))
    ensures Strip(q.GetOr("")) != [] ==> resp.status == 200 || resp.status == 503
    ensures resp.status == 200 ==>
              && resp.body.Found? && resp.body.queryProcessed == Strip(q.GetOr(""))
              && resp.body.limit == EffectiveLimit(limit) && |resp.body.result.results| <= resp.body.limit
              && resp.body.result.count == |resp.body.result.results|
    ensures resp.status == 503 ==> resp.body.Failed? && resp.body.query == Strip(q.GetOr("")) && resp.body.results == []
  {
    var query := Strip(q.GetOr(""));
    if query == [] {
      return BadRequest, None;
    }
    var n := EffectiveLimit(limit);
    var result := client.SearchProducts(query, n, now, elapsedMs, fetch);
    searched := Some(result);
    resp := Respond(query, n, AsServiceOutcome(result));
  }

  // ---------------------------------------------------------------------------------------------
  // Lemmas

  /** A number below 1000 is written with at most three digits. */
  lemma ShortNumeral(n: nat)
    requires n < 1000
    ensures |NatToString(n)| <= 3
  {
    if n >= 10 {
      assert |NatToString(n / 10)| <= 2 by {
        if n / 10 >= 10 {
          assert |NatToString(n / 100)| == 1;
        }
      }
    }
  }

  /** A limit written as an integer from 1 to 100 is taken as it is. */
  lemma LimitInRangeKept(n: int)
    requires 1 <= n <= 100
    ensures EffectiveLimit(Some(IntToString(n))) == n
  {
    ParseIntOfIntToString(n);
    ShortNumeral(n);
  }

  /** A limit below 1 falls back to the default 20, not to 1, and so does one too long for `int()`. */
  lemma LimitBelowOneIsDefault(n: int)
    requires n < 1
    ensures EffectiveLimit(Some(IntToString(n))) == 20
  {
    ParseIntOfIntToString(n);
  }

  /** A limit above 100 is capped at 100, unless it has more digits than `int()` reads, which gives the default 20. */
  lemma LimitAboveMaxIsCapped(n: int)
    requires n > 100
    ensures EffectiveLimit(Some(IntToString(n))) == if |NatToString(n)| <= MaxStrDigits then 100 else 20
  {
    ParseIntOfIntToString(n);
  }

  /** Space and \t \n \v \f \r around the limit are ignored, as `int()` ignores them. */
  lemma LimitIgnoresPadding(a: string, text: string, b: string)
    requires AllIn(IsIntSpace, a) && AllIn(IsIntSpace, b)
    ensures EffectiveLimit(Some(a + text + b)) == EffectiveLimit(Some(text))
  {
    StripIgnoresPadding(IsIntSpace, a, text, b);
  }

  /** The separators 0x1C to 0x1F are whitespace to `strip()` but not to `int()`: "\x1c50" is no integer, so the limit is 20. */
  lemma SeparatorBeforeLimitIsRefused(text: string)
    requires text == [28 as char, '5', '0']
    ensures EffectiveLimit(Some(text)) == 20
  {
    assert !IsIntSpace(text[0]) && !IsIntSpace(text[2]);
    StripNoPadding(IsIntSpace, text);
    assert text[..2][..1] == text[..1] && !Numeral(text[..1]);
    assert !Numeral(text[..2]);
    assert !Numeral(text);
  }
}
