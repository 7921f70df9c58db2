/**
 * `SerpAPIClient`, the cache-aside search pipeline: a lookup in the product cache, and on a miss one
 * call to the upstream shopping search, whose raw results are extracted, cached in full, limited for
 * the caller and counted in the query and daily statistics. The three database tables are maps keyed
 * by their unique column; the clock, the elapsed time, the digest and the upstream call are inputs.
 */
module Services {
  import opened Wrappers
  import opened PyText
  import opened Json
  import opened Extractor
  import opened QueryKey
  import opened Models

  /** The parameters of the upstream request (the API key is left out). */
  datatype UpstreamRequest = UpstreamRequest(engine: string, q: string, num: int, gl: string, hl: string)

  /** What the upstream call comes to. */
  datatype UpstreamOutcome =
    | Ok(rawResults: seq<Json>)  // a payload without "error": its `shopping_results` list, [] when absent
    | Timeout                    // httpx.TimeoutException
    | HttpStatus(code: int)      // `raise_for_status` on an error status
    | Reported(error: string)    // a payload with an "error" member, as `str` renders it
    | Other(message: string)     // any other exception while calling or decoding, as `str` renders it

  /** `SerpAPIError`, carrying its message. */
  datatype SerpApiError = SerpApiError(message: string)

  /** The dictionary `search_products` returns; a cache hit has no "query" member. */
  datatype SearchResult = SearchResult(
    query: Option<string>,
    results: seq<ProductRecord>,
    count: nat,
    cached: bool,
    responseTimeMs: nat,
    cacheHit: bool)

  /** The row stored under a key, if any. */
  function Row<K, V>(table: map<K, V>, key: K): (r: Option<V>)
    ensures r.Some? <==> key in table
    ensures r.Some? ==> r.value == table[key]
  {
    if key in table then Some(table[key]) else None
  }

  /** The error each failed upstream call is reported as; anything but a timeout or an HTTP status goes
      through the generic handler, which prefixes "Unexpected error: " (a reported error included). */
  function ErrorFor(outcome: UpstreamOutcome): SerpApiError
    requires !outcome.Ok?
  {
    match outcome
    case Timeout => SerpApiError("Request timeout")
    case HttpStatus(code) => SerpApiError("HTTP error: " + IntToString(code))
    case Reported(error) => SerpApiError("Unexpected error: " + "SerpAPI error: " + error)
    case Other(message) => SerpApiError("Unexpected error: " + message)
  }

  /** The request a miss sends upstream: at most 100 results, US English. */
  function RequestFor(query: string, numResults: int): (req: UpstreamRequest)
    ensures req.num <= 100 && req.num <= numResults
    ensures req.num == numResults || req.num == 100
  {
    UpstreamRequest("google_shopping", query, if numResults < 100 then numResults else 100, "us", "en")
  }

  /** The loop over the raw results: each one that extracts is appended, each one that raises is skipped. */
  method ProcessResults(raws: seq<Json>) returns (processed: seq<ProductRecord>)
    ensures processed == ExtractAll(raws)
  {
    processed := [];
    var i := 0;
    while i < |raws|
      invariant 0 <= i <= |raws|
      invariant processed == ExtractAll(raws[..i])
    {
      assert raws[..i + 1][..i] == raws[..i];
      match ExtractProductData(raws[i]) {
        case Success(p) => processed := processed + [p];
        case Failure(_) =>
      }
      i := i + 1;
    }
    assert raws[..i] == raws;
  }

  class SerpApiClient {
    const digest: string -> string
    const cacheTtl: nat
    var productCache: map<string, CacheEntry>
    var searchQueries: map<string, QueryStats>
    var apiUsage: map<int, DailyStats>

    /** Every row sits under the key of its own query, a cache entry's count is its length,
        a query has been searched at least once, and each day's requests add up. */
    ghost predicate Valid()
      reads this
    {
      && (forall k :: k in productCache ==>
            k == QueryHash(digest, productCache[k].query) && productCache[k].resultsCount == |productCache[k].results|)
      && (forall k :: k in searchQueries ==>
            k == QueryHash(digest, searchQueries[k].query) && searchQueries[k].searchCount >= 1)
      && (forall d :: d in apiUsage ==> RequestsAddUp(apiUsage[d]))
    }

    constructor(digest: string -> string, cacheTtl: nat)
      ensures Valid()
      ensures this.digest == digest && this.cacheTtl == cacheTtl
      ensures productCache == map[] && searchQueries == map[] && apiUsage == map[]
    {
      this.digest := digest;
      this.cacheTtl := cacheTtl;
      productCache := map[];
      searchQueries := map[];
      apiUsage := map[];
    }

    /** `ProductCache.increment_hit_count`: one more hit on the entry; nothing else of it changes. */
    method IncrementHitCount(queryHash: string)
      requires Valid() && queryHash in productCache
      modifies this
      ensures Valid()
      ensures productCache == old(productCache)[queryHash := old(productCache)[queryHash].(hitCount := old(productCache)[queryHash].hitCount + 1)]
      ensures searchQueries == old(searchQueries) && apiUsage == old(apiUsage)
    {
      var entry := productCache[queryHash];
      entry := entry.(hitCount := entry.hitCount + 1);
      productCache := productCache[queryHash := entry];
    }

    /** `_check_cache`: a live entry is a hit and counted; an expired one is deleted; a missing one is a miss. */
    method CheckCache(queryHash: string, now: int) returns (r: Option<SearchResult>)
      requires Valid()
      modifies this
      ensures Valid()
      ensures queryHash in old(productCache) && !IsExpired(old(productCache)[queryHash], now) ==>
        var e := old(productCache)[queryHash];
        && r == Some(SearchResult(None, e.results, e.resultsCount, true, e.responseTimeMs, true))
        && productCache == old(productCache)[queryHash := e.(hitCount := e.hitCount + 1)]
      ensures queryHash in old(productCache) && IsExpired(old(productCache)[queryHash], now) ==>
        r.None? && productCache == old(productCache) - {queryHash}
      ensures queryHash !in old(productCache) ==> r.None? && productCache == old(productCache)
      ensures r.None? ==> productCache == old(productCache) - {queryHash}
      ensures searchQueries == old(searchQueries) && apiUsage == old(apiUsage)
    {
      if queryHash !in productCache {
        assert productCache == productCache - {queryHash};
        return None;
      }
      var entry := productCache[queryHash];
      if !IsExpired(entry, now) {
        IncrementHitCount(queryHash);
        r := Some(SearchResult(None, entry.results, entry.resultsCount, true, entry.responseTimeMs, true));
      } else {
        productCache := productCache - {queryHash};
        r := None;
      }
    }

    /** `_cache_results`: the entry for the query is created or overwritten; every other entry stays. */
    method CacheResults(query: string, queryHash: string, results: seq<ProductRecord>, responseTimeMs: nat, now: int)
      requires Valid() && queryHash == QueryHash(digest, query)
      modifies this
      ensures Valid()
      ensures productCache == old(productCache)[queryHash :=
        StoreEntry(Row(old(productCache), queryHash), query, results, responseTimeMs, now, cacheTtl)]
      ensures searchQueries == old(searchQueries) && apiUsage == old(apiUsage)
    {
      var cachedAt := if queryHash in productCache then productCache[queryHash].cachedAt else now;
      var entry := CacheEntry(
        query := query,
        results := results,
        resultsCount := |results|,
        responseTimeMs := responseTimeMs,
        cachedAt := cachedAt,
        expiresAt := now + cacheTtl,
        hitCount := 0);
      assert entry == StoreEntry(Row(productCache, queryHash), query, results, responseTimeMs, now, cacheTtl);
      productCache := productCache[queryHash := entry];
    }

    /** `_update_search_query_stats`: the query's row is created, or counted once more with the latest figures. */
    method UpdateSearchQueryStats(query: string, queryHash: string, responseTimeMs: nat, resultsCount: nat, now: int)
      requires Valid() && queryHash == QueryHash(digest, query)
      modifies this
      ensures Valid()
      ensures searchQueries == old(searchQueries)[queryHash :=
        RecordSearch(Row(old(searchQueries), queryHash), query, responseTimeMs, resultsCount, now)]
      ensures productCache == old(productCache) && apiUsage == old(apiUsage)
    {
      if queryHash !in searchQueries {
        searchQueries := searchQueries[queryHash := QueryStats(query, 1, now, now, responseTimeMs, resultsCount)];
      } else {
        var found := searchQueries[queryHash];
        var stats := found.(searchCount := found.searchCount + 1);
        stats := stats.(responseTimeMs := responseTimeMs);
        stats := stats.(resultsCount := resultsCount);
        stats := stats.(lastSearched := now);
        assert stats == RecordSearch(Some(found), query, responseTimeMs, resultsCount, now);
        searchQueries := searchQueries[queryHash := stats];
      }
    }

    /** `_update_api_usage_stats`: today's row is created from this request, or updated field by field. */
    method UpdateApiUsageStats(cached: bool, responseTimeMs: nat, resultsCount: nat, error: bool, now: int)
      requires Valid()
      modifies this
      ensures Valid()
      ensures apiUsage == old(apiUsage)[Day(now) :=
        Tally(Row(old(apiUsage), Day(now)), cached, responseTimeMs, resultsCount, error)]
      ensures productCache == old(productCache) && searchQueries == old(searchQueries)
    {
      var today := Day(now);
      if today !in apiUsage {
        apiUsage := apiUsage[today := DailyStats(
          totalRequests := 1,
          cachedRequests := if cached then 1 else 0,
          apiRequests := if cached then 0 else 1,
          avgResponseTimeMs := Some(responseTimeMs),
          totalProductsReturned := resultsCount,
          errorCount := if error then 1 else 0,
          timeoutCount := 0)];
      } else {
        var prev := apiUsage[today];
        var stats := prev;
        stats := stats.(totalRequests := stats.totalRequests + 1);
        if cached {
          stats := stats.(cachedRequests := stats.cachedRequests + 1);
        } else {
          stats := stats.(apiRequests := stats.apiRequests + 1);
        }
        // `total_time / total_requests`, with `total_time` rebuilt from the previous average
        var average := RunningAverage(stats.avgResponseTimeMs.GetOr(0), stats.totalRequests - 1, responseTimeMs);
        stats := stats.(avgResponseTimeMs := Some(average));
        stats := stats.(totalProductsReturned := stats.totalProductsReturned + resultsCount);
        if error {
          stats := stats.(errorCount := stats.errorCount + 1);
        }
        apiUsage := apiUsage[today := stats];
      }
    }

    /**
     * The `try` block of `search_products` after a miss: one upstream call; on success every raw result
     * that extracts is cached, the first `numResults` of them are returned, and both statistics count what
     * was returned; on failure nothing is cached, an error is counted for the day, and a SerpApiError is raised.
     */
    method SearchUpstream(query: string, queryHash: string, numResults: int, now: int, elapsedMs: nat,
                          fetch: UpstreamRequest -> UpstreamOutcome)
      returns (r: Result<SearchResult, SerpApiError>)
      requires Valid() && queryHash == QueryHash(digest, query)
      modifies this
      ensures Valid()
      ensures fetch(RequestFor(query, numResults)).Ok? ==>
        var all := ExtractAll(fetch(RequestFor(query, numResults)).rawResults);
        var limited := Take(all, numResults);
        && r == Success(SearchResult(Some(query), limited, |limited|, false, elapsedMs, false))
        && productCache == old(productCache)[queryHash :=
             StoreEntry(Row(old(productCache), queryHash), query, all, elapsedMs, now, cacheTtl)]
        && searchQueries == old(searchQueries)[queryHash :=
             RecordSearch(Row(old(searchQueries), queryHash), query, elapsedMs, |limited|, now)]
        && apiUsage == old(apiUsage)[Day(now) := Tally(Row(old(apiUsage), Day(now)), false, elapsedMs, |limited|, false)]
      ensures !fetch(RequestFor(query, numResults)).Ok? ==>
        && r == Failure(ErrorFor(fetch(RequestFor(query, numResults))))
        && productCache == old(productCache)
        && searchQueries == old(searchQueries)
        && apiUsage == old(apiUsage)[Day(now) := Tally(Row(old(apiUsage), Day(now)), false, 0, 0, true)]
    {
      var outcome := fetch(RequestFor(query, numResults));
      if outcome.Ok? {
        var allProcessed := ProcessResults(outcome.rawResults);
        var limited := if |allProcessed| > numResults then Take(allProcessed, numResults) else allProcessed;
        CacheResults(query, queryHash, allProcessed, elapsedMs, now);
        UpdateSearchQueryStats(query, queryHash, elapsedMs, |limited|, now);
        UpdateApiUsageStats(false, elapsedMs, |limited|, false, now);
        r := Success(SearchResult(Some(query), limited, |limited|, false, elapsedMs, false));
      } else {
        UpdateApiUsageStats(false, 0, 0, true, now);
        r := Failure(ErrorFor(outcome));
      }
    }

    /** The cache-hit branch of `search_products`: the cached answer cut to `numResults`, counted as a cached request. */
    method AnswerFromCache(cachedResult: SearchResult, numResults: int, now: int) returns (r: Result<SearchResult, SerpApiError>)
      requires Valid() && cachedResult.count == |cachedResult.results|
      modifies this
      ensures Valid()
      ensures var served := Take(cachedResult.results, numResults);
        && r == Success(cachedResult.(results := served, count := |served|))
        && apiUsage == old(apiUsage)[Day(now) := Tally(Row(old(apiUsage), Day(now)), true, cachedResult.responseTimeMs, |served|, false)]
      ensures productCache == old(productCache) && searchQueries == old(searchQueries)
    {
      var hit := cachedResult;
      if |hit.results| > numResults {
        hit := hit.(results := Take(hit.results, numResults));
        hit := hit.(count := |hit.results|);
      }
      UpdateApiUsageStats(true, hit.responseTimeMs, hit.count, false, now);
      r := Success(hit);
    }

    /**
     * What `search_products` does to the three tables and what it returns, between the state before
     * the call and the state after it, in its three cases: a live entry for the query's key, a miss the
     * upstream answers, and a miss the upstream fails.
     */
    twostate predicate SearchedAs(query: string, numResults: int, now: int, elapsedMs: nat,
                                  fetch: UpstreamRequest -> UpstreamOutcome, new r: Result<SearchResult, SerpApiError>)
      reads this
    {
      var key := QueryHash(digest, query);
      var live := key in old(productCache) && !IsExpired(old(productCache)[key], now);
      var outcome := fetch(RequestFor(query, numResults));
      // a hit
      && (live ==>
            var e := old(productCache)[key];
            var served := Take(e.results, numResults);
            && r == Success(SearchResult(None, served, |served|, true, e.responseTimeMs, true))
            && productCache == old(productCache)[key := e.(hitCount := e.hitCount + 1)]
            && searchQueries == old(searchQueries)
            && apiUsage == old(apiUsage)[Day(now) := Tally(Row(old(apiUsage), Day(now)), true, e.responseTimeMs, |served|, false)])
      // a miss answered upstream
      && (!live && outcome.Ok? ==>
            var all := ExtractAll(outcome.rawResults);
            var limited := Take(all, numResults);
            && r == Success(SearchResult(Some(query), limited, |limited|, false, elapsedMs, false))
            && productCache == (old(productCache) - {key})[key := StoreEntry(None, query, all, elapsedMs, now, cacheTtl)]
            && searchQueries == old(searchQueries)[key := RecordSearch(Row(old(searchQueries), key), query, elapsedMs, |limited|, now)]
            && apiUsage == old(apiUsage)[Day(now) := Tally(Row(old(apiUsage), Day(now)), false, elapsedMs, |limited|, false)])
      // a miss the upstream failed
      && (!live && !outcome.Ok? ==>
            && r == Failure(ErrorFor(outcome))
            && productCache == old(productCache) - {key}
            && searchQueries == old(searchQueries)
            && apiUsage == old(apiUsage)[Day(now) := Tally(Row(old(apiUsage), Day(now)), false, 0, 0, true)])
    }

    /**
     * `search_products`. A live cache entry answers the query, limited to `numResults`, and is counted
     * as a cached request with its stored latency. Otherwise (an expired entry deleted first) the
     * upstream is asked for at most 100 results, as `SearchUpstream` describes.
     */
    method SearchProducts(query: string, numResults: int, now: int, elapsedMs: nat, fetch: UpstreamRequest -> UpstreamOutcome)
      returns (r: Result<SearchResult, SerpApiError>)
      requires Valid()
      modifies this
      ensures Valid()
      ensures numResults >= 0 && r.Success? ==> |r.value.results| <= numResults
      ensures r.Success? ==> r.value.count == |r.value.results| && r.value.cached == r.value.cacheHit
      ensures SearchedAs(query, numResults, now, elapsedMs, fetch, r)
    {
      var queryHash := QueryHash(digest, query);
      var cachedResult := CheckCache(queryHash, now);
      if cachedResult.Some? {
        r := AnswerFromCache(cachedResult.value, numResults, now);
        return;
      }
      assert productCache == old(productCache) - {queryHash};
      assert Row(productCache, queryHash) == None;
      r := SearchUpstream(query, queryHash, numResults, now, elapsedMs, fetch);
    }
  }

  /**
   * A repeat of a search within the cache lifetime is a hit: the same records come back, marked as
   * cached, whatever the upstream would answer by then, and the upstream was asked once.
   */
  method RepeatSearchIsCached(digest: string -> string, cacheTtl: nat, query: string, numResults: int,
                              now: int, later: int, elapsedMs: nat,
                              fetch: UpstreamRequest -> UpstreamOutcome, fetchLater: UpstreamRequest -> UpstreamOutcome)
    returns (first: Result<SearchResult, SerpApiError>, second: Result<SearchResult, SerpApiError>)
    requires fetch(RequestFor(query, numResults)).Ok? && now <= later <= now + cacheTtl
    ensures first.Success? && !first.value.cached
    ensures second.Success? && second.value.cached && second.value.cacheHit
    ensures second.value.results == first.value.results && second.value.responseTimeMs == elapsedMs
  {
    var client := new SerpApiClient(digest, cacheTtl);
    first := client.SearchProducts(query, numResults, now, elapsedMs, fetch);
    second := client.SearchProducts(query, numResults, later, 0, fetchLater);
  }

  /**
   * A first search that times out fails with "Request timeout", caches nothing, records no query
   * statistics, and is counted for the day as one upstream request that failed.
   */
  method TimeoutIsCountedAsError(digest: string -> string, cacheTtl: nat, query: string, numResults: int,
                                 now: int, elapsedMs: nat, fetch: UpstreamRequest -> UpstreamOutcome)
    returns (r: Result<SearchResult, SerpApiError>, cachedQueries: set<string>, searchedQueries: set<string>,
             day: DailyStats)
    requires fetch(RequestFor(query, numResults)) == Timeout
    ensures r == Failure(SerpApiError("Request timeout"))
    ensures cachedQueries == {} && searchedQueries == {}
    ensures day.totalRequests == 1 && day.apiRequests == 1 && day.cachedRequests == 0
    ensures day.errorCount == 1 && day.totalProductsReturned == 0
  {
    var client := new SerpApiClient(digest, cacheTtl);
    r := client.SearchProducts(query, numResults, now, elapsedMs, fetch);
    cachedQueries := client.productCache.Keys;
    searchedQueries := client.searchQueries.Keys;
    day := client.apiUsage[Day(now)];
  }
}
