/**
 * The rows of the three tables the search pipeline writes (`ProductCache`, `SearchQuery`,
 * `APIUsageStats`), their field defaults, and the per-row rules: when a cache entry has expired,
 * how a stored entry, a query's statistics and a day's statistics are (re)computed, and the
 * cache hit rate. The tables themselves are maps in the service client, keyed by their unique column.
 * Times are whole seconds on one clock; a date is a day number.
 */
module Models {
  import opened Wrappers
  import opened Extractor

  /** A `ProductCache` row (its key, `query_hash`, is the map key). */
  datatype CacheEntry = CacheEntry(
    query: string,
    results: seq<ProductRecord>,
    resultsCount: nat,
    responseTimeMs: nat,
    cachedAt: int,
    expiresAt: int,
    hitCount: nat)

  /** A `SearchQuery` row (its key, `query_hash`, is the map key). */
  datatype QueryStats = QueryStats(
    query: string,
    searchCount: nat,
    lastSearched: int,
    createdAt: int,
    responseTimeMs: nat,
    resultsCount: nat)

  /** An `APIUsageStats` row (its key, `date`, is the map key). */
  datatype DailyStats = DailyStats(
    totalRequests: nat,
    cachedRequests: nat,
    apiRequests: nat,
    avgResponseTimeMs: Option<nat>,
    totalProductsReturned: nat,
    errorCount: nat,
    timeoutCount: nat)

  /** The field defaults of an `APIUsageStats` row: every counter 0, no average yet. */
  const DefaultDailyStats := DailyStats(0, 0, 0, None, 0, 0, 0)

  /** The day number of a time, as `timezone.now().date()` gives it in UTC. */
  function Day(now: int): int {
    now / 86400
  }

  /** `ProductCache.is_expired`: strictly past the expiry time. */
  predicate IsExpired(e: CacheEntry, now: int) {
    now > e.expiresAt
  }

  /**
   * The row `_cache_results` leaves for a query: `update_or_create` overwrites every field it is given
   * and resets the hit count; `cached_at` is set only when the row is created.
   */
  function StoreEntry(prev: Option<CacheEntry>, query: string, results: seq<ProductRecord>, responseTimeMs: nat,
                      now: int, ttl: nat): (e: CacheEntry)
    ensures e.query == query && e.results == results && e.resultsCount == |results|
    ensures e.hitCount == 0 && e.responseTimeMs == responseTimeMs
    ensures e.cachedAt == if prev.Some? then prev.value.cachedAt else now
    ensures forall t :: !IsExpired(e, t) <==> t <= now + ttl
  {
    CacheEntry(query, results, |results|, responseTimeMs,
               if prev.Some? then prev.value.cachedAt else now, now + ttl, 0)
  }

  /**
   * The row `_update_search_query_stats` leaves: `get_or_create` makes a row counted once, or the
   * existing row is counted once more with the latest time and count, keeping its query text.
   */
  function RecordSearch(prev: Option<QueryStats>, query: string, responseTimeMs: nat, resultsCount: nat,
                        now: int): (s: QueryStats)
    ensures s.searchCount == (if prev.Some? then prev.value.searchCount else 0) + 1
    ensures s.query == if prev.Some? then prev.value.query else query
    ensures s.responseTimeMs == responseTimeMs && s.resultsCount == resultsCount && s.lastSearched == now
  {
    match prev
    case None => QueryStats(query, 1, now, now, responseTimeMs, resultsCount)
    case Some(q) => q.(searchCount := q.searchCount + 1, responseTimeMs := responseTimeMs,
                      resultsCount := resultsCount, lastSearched := now)
  }

  /** The update of an existing day's row: the counters, then the running average with `int(total / n)`. */
  function Bump(s: DailyStats, cached: bool, responseTimeMs: nat, resultsCount: nat, error: bool): DailyStats {
    s.(totalRequests := s.totalRequests + 1,
       cachedRequests := if cached then s.cachedRequests + 1 else s.cachedRequests,
       apiRequests := if cached then s.apiRequests else s.apiRequests + 1,
       avgResponseTimeMs := Some(RunningAverage(s.avgResponseTimeMs.GetOr(0), s.totalRequests, responseTimeMs)),
       totalProductsReturned := s.totalProductsReturned + resultsCount,
       errorCount := if error then s.errorCount + 1 else s.errorCount)
  }

  /** `int((avg * n + t) / (n + 1))`: the average after one more time t, rounded down. */
  function RunningAverage(avg: nat, n: nat, t: nat): nat {
    (avg * n + t) / (n + 1)
  }

  /** The row `_update_api_usage_stats` leaves for the day: created from the request's values, or bumped. */
  function Tally(prev: Option<DailyStats>, cached: bool, responseTimeMs: nat, resultsCount: nat, error: bool): DailyStats {
    match prev
    case None =>
      DailyStats(
        totalRequests := 1,
        cachedRequests := if cached then 1 else 0,
        apiRequests := if cached then 0 else 1,
        avgResponseTimeMs := Some(responseTimeMs),
        totalProductsReturned := resultsCount,
        errorCount := if error then 1 else 0,
        timeoutCount := 0)
    case Some(s) => Bump(s, cached, responseTimeMs, resultsCount, error)
  }

  /** `APIUsageStats.cache_hit_rate`, over the rationals: the percentage of the day's requests served from the cache. */
  function CacheHitRate(s: DailyStats): (rate: real)
    ensures s.totalRequests == 0 ==> rate == 0.0
    ensures s.cachedRequests <= s.totalRequests ==> 0.0 <= rate <= 100.0
    ensures s.totalRequests > 0 ==> (rate == 100.0 <==> s.cachedRequests == s.totalRequests)
  {
    if s.totalRequests == 0 then 0.0
    else
      PercentOf(s.cachedRequests, s.totalRequests);
      (s.cachedRequests as real / s.totalRequests as real) * 100.0
  }

  /** What every day's row satisfies: each request is counted once, as cached or as an upstream call,
      timeouts are never counted separately, and an average exists. */
  predicate RequestsAddUp(s: DailyStats) {
    && s.cachedRequests + s.apiRequests == s.totalRequests
    && s.timeoutCount == 0
    && s.avgResponseTimeMs.Some?
  }

  /** Besides, errors happen only on upstream calls, as the search reports them. */
  predicate StatsConsistent(s: DailyStats) {
    RequestsAddUp(s) && s.errorCount <= s.apiRequests
  }

  // ---------------------------------------------------------------------------------------------
  // Lemmas

  /** A share of a positive whole, as a percentage, is within 0 to 100 when the part is at most the whole,
      and 100 exactly when the part is the whole. */
  lemma PercentOf(part: nat, whole: nat)
    requires whole > 0
    ensures part <= whole ==> 0.0 <= (part as real / whole as real) * 100.0 <= 100.0
    ensures (part as real / whole as real) * 100.0 == 100.0 <==> part == whole
  {
    var x := part as real / whole as real;
    assert x * whole as real == part as real;
    if x * 100.0 == 100.0 {
      assert x == 1.0;
    }
  }

  /** Creating a day's row with `defaults` gives the same row as bumping a row that holds the field defaults. */
  lemma CreationMatchesDefaultRow(cached: bool, responseTimeMs: nat, resultsCount: nat, error: bool)
    ensures Tally(None, cached, responseTimeMs, resultsCount, error)
         == Bump(DefaultDailyStats, cached, responseTimeMs, resultsCount, error)
  {
  }

  /** One request adds one to the total, one to exactly one of cached and upstream, one to the errors
      exactly when it failed, and its result count to the products returned. */
  lemma TallyCounts(prev: Option<DailyStats>, cached: bool, responseTimeMs: nat, resultsCount: nat, error: bool)
    ensures var base := prev.GetOr(DefaultDailyStats);
      var s := Tally(prev, cached, responseTimeMs, resultsCount, error);
      && s.totalRequests == base.totalRequests + 1
      && s.cachedRequests == base.cachedRequests + (if cached then 1 else 0)
      && s.apiRequests == base.apiRequests + (if cached then 0 else 1)
      && s.errorCount == base.errorCount + (if error then 1 else 0)
      && s.totalProductsReturned == base.totalProductsReturned + resultsCount
      && s.timeoutCount == base.timeoutCount
  {
    CreationMatchesDefaultRow(cached, responseTimeMs, resultsCount, error);
  }

  /** The service only reports errors for upstream calls, so every day's row stays consistent. */
  lemma TallyKeepsConsistent(prev: Option<DailyStats>, cached: bool, responseTimeMs: nat, resultsCount: nat, error: bool)
    requires prev.Some? ==> StatsConsistent(prev.value)
    requires error ==> !cached
    ensures StatsConsistent(Tally(prev, cached, responseTimeMs, resultsCount, error))
  {
  }

  /** A bumped average stays between the smallest and the largest time seen, in spite of the rounding down. */
  lemma {:induction false} BumpAverageWithin(s: DailyStats, cached: bool, responseTimeMs: nat, resultsCount: nat,
                                             error: bool, lo: nat, hi: nat)
    requires s.totalRequests == 0 || (s.avgResponseTimeMs.Some? && lo <= s.avgResponseTimeMs.value <= hi)
    requires lo <= responseTimeMs <= hi
    ensures var a := Bump(s, cached, responseTimeMs, resultsCount, error).avgResponseTimeMs;
      a.Some? && lo <= a.value <= hi
  {
    AverageStep(s.avgResponseTimeMs.GetOr(0), s.totalRequests, responseTimeMs, lo, hi);
  }

  lemma AverageStep(avg: nat, n: nat, t: nat, lo: nat, hi: nat)
    requires n == 0 || lo <= avg <= hi
    requires lo <= t <= hi
    ensures lo <= RunningAverage(avg, n, t) <= hi
  {
    if n > 0 {
      MulMonotone(lo, avg, n);
      MulMonotone(avg, hi, n);
    }
    assert lo * (n + 1) == lo * n + lo && hi * (n + 1) == hi * n + hi;
    DivBetween(avg * n + t, n + 1, lo, hi);
  }

  lemma MulMonotone(x: nat, y: nat, n: nat)
    requires x <= y
    ensures x * n <= y * n
  {
  }

  lemma MulCancel(x: nat, y: nat, d: nat)
    requires d > 0 && x * d <= y * d
    ensures x <= y
  {
  }

  lemma DivBetween(t: nat, d: nat, lo: nat, hi: nat)
    requires d > 0 && lo * d <= t <= hi * d
    ensures lo <= t / d <= hi
  {
    var q := t / d;
    assert q * d <= t < (q + 1) * d;
    MulCancel(lo, q + 1, d);
    MulCancel(q, hi, d);
  }

  lemma RunningAverageRoundsDown(avg: nat, n: nat, t: nat)
    ensures RunningAverage(avg, n, t) * (n + 1) <= avg * n + t
  {
  }

  /** Two upstream calls of 100 ms and 300 ms on a fresh day average 200 ms. */
  lemma AverageExample()
    ensures Tally(Some(Tally(None, false, 100, 0, false)), false, 300, 0, false).avgResponseTimeMs == Some(200)
  {
  }

  /** The row left by a sequence of requests (cached?, time, count, error?) on a fresh day. */
  function Replay(requests: seq<(bool, nat, nat, bool)>): (s: DailyStats)
    ensures s.totalRequests == |requests|
  {
    if requests == [] then DefaultDailyStats
    else
      var last := requests[|requests| - 1];
      var prev := Replay(requests[..|requests| - 1]);
      Tally(if prev.totalRequests == 0 then None else Some(prev), last.0, last.1, last.2, last.3)
  }

  function TotalTime(requests: seq<(bool, nat, nat, bool)>): nat {
    if requests == [] then 0 else TotalTime(requests[..|requests| - 1]) + requests[|requests| - 1].1
  }

  /** Rounding down at every step can only lose time: the stored average never overstates the true mean. */
  lemma {:induction false} ReplayAverageNeverOverstates(requests: seq<(bool, nat, nat, bool)>)
    requires requests != []
    ensures Replay(requests).avgResponseTimeMs.Some?
    ensures Replay(requests).avgResponseTimeMs.value * |requests| <= TotalTime(requests)
  {
    var init := requests[..|requests| - 1];
    var prev := Replay(init);
    var n := |init|;
    if init != [] {
      ReplayAverageNeverOverstates(init);
      var a := prev.avgResponseTimeMs.value;
      var x := requests[|requests| - 1].1;
      assert a * n + x <= TotalTime(requests);
      RunningAverageRoundsDown(a, n, x);
    }
  }

  /** An entry stored at `now` is served up to and including `now + ttl`, and expired after. */
  lemma StoredEntryLifetime(prev: Option<CacheEntry>, query: string, results: seq<ProductRecord>, responseTimeMs: nat,
                            now: int, ttl: nat, t: int)
    ensures IsExpired(StoreEntry(prev, query, results, responseTimeMs, now, ttl), t) <==> t > now + ttl
  {
  }
}
