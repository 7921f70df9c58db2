# smart_shopper search pipeline, modelled in Dafny

This project models the product-search core of smart_shopper, a Django service in front of the
SerpAPI Google Shopping engine. The model follows the request path:

- `GET /api/products/search/?q=...&limit=...` (`ProductSearchView.get`) strips the query and refuses
  a blank one. It clamps the limit and calls `SerpAPIClient.search_products`. The result, or the
  `SerpAPIError` it raises, becomes the response.
- `search_products` hashes the lower-cased, stripped query into a cache key. It then looks the key up
  in the `ProductCache` table:
  - a live entry answers the query, cut to the limit;
  - an expired entry is deleted;
  - on a miss, the upstream is asked for at most 100 results. Each raw result is extracted into a
    product record, with a brand and a weight guessed from its title and extensions. Records that
    fail extraction are skipped.
- After a miss, all extracted records are cached and the caller gets them cut to the limit. The
  per-query statistics (`SearchQuery`) and the per-day statistics (`APIUsageStats`) are updated.
- A failed upstream call counts as an error for the day and becomes a `SerpAPIError`.

Modules, one file each:

- `wrappers.dfy`: `Option` and `Result`.
- `pytext.dfy`: the Python string operations the code relies on, over ASCII: `str.lower`,
  `str.strip`, `split(" ")[0]`, the substring test, `s[:n]`, `int()` and `str()`.
- `json.dfy`: JSON values, with `dict.get` and `for x in v`.
- `weight_pattern.dfy`: the weight regular expression `(\d+(?:\.\d+)?)\s*(oz|lb|kg|g|ml|l)\b` under
  `re.search`. It is a backtracking matcher, proved equal to a greedy longest-run reading.
- `extractor.dfy`: `_extract_product_data` and the loop that skips failing records.
- `query_key.dfy`: `_generate_query_hash`. The digest is a parameter.
- `models.dfy`: the rows of the three tables, and how `_check_cache`, `_cache_results` and the two
  statistics writers (re)compute a row. Also `is_expired` and `cache_hit_rate`.
- `services.dfy`: the class `SerpApiClient`. The three tables are `map` fields keyed by their
  unique column, and the service methods update them in place.
- `views.dfy`: the limit validation, the `_search_products` metadata, and the 200/400/503/500
  responses.

Some inputs are passed in as parameters:

- the time of the request (`now`, in seconds);
- the measured elapsed time (`elapsedMs`);
- the SHA-256 hex digest (`digest`);
- the upstream HTTP call (`fetch`, from the request parameters to what the call came to).

Where the code and its written description differ, the model follows the code:

- The brand is the first `" "`-separated field of the title, not the first whitespace-delimited
  word. A title that starts with a space has no brand.
- Missing `title`, `product_id`, `price`, `source` and `product_link` become `""`, not absent.
  A missing `multiple_sources` becomes `false`.
- After an upstream answer, the query and daily statistics count the results returned to the caller
  (the limited list), not every extracted record. The cache stores every extracted record.
- An error reported inside the upstream payload is wrapped a second time, as
  `"Unexpected error: SerpAPI error: ..."`. Like every other upstream failure it is still a
  `SerpAPIError`, so the view answers 503.

## Model

| member | source | states |
|---|---|---|
| PyText.FirstField | shopping_api/services.py:65-68 | the first `split(" ")` field is a prefix of the text without a space, ending at the end or at a space |
| PyText.FirstFieldEndsAtSpace | shopping_api/services.py:65-68 | the first field is exactly the text before the first space |
| PyText.Take | shopping_api/services.py:311-315 | `s[:n]` keeps the first n elements (all of them when n is at least the length), with Python's reading of a negative n |
| PyText.StripIgnoresPadding | shopping_api/views.py:34 | whitespace around a text does not change what `strip()` gives |
| PyText.StripIdempotent | shopping_api/services.py:54 | stripping twice is stripping once |
| PyText.LowerStrip | shopping_api/services.py:54 | lower-casing and stripping commute |
| PyText.LowerIdempotent | shopping_api/services.py:54 | lower-casing twice is lower-casing once |
| PyText.ParseIntOfIntToString | shopping_api/views.py:47 | `int(str(n)) == n` for every integer n of at most 4300 digits; `int()` refuses a longer one |
| WeightPattern.SearchFrom | shopping_api/services.py:84-88 | the search returns the leftmost start where the pattern matches, and no earlier start matches |
| WeightPattern.Search | shopping_api/services.py:84-88 | `group(0)` is the slice the pattern matches at the leftmost start where it matches at all; no match exactly when it matches at no start |
| WeightPattern.MatchAtIsGreedy | shopping_api/services.py:85 | the backtracking match equals all the digits, then the fraction when a dot and a digit follow, then all the whitespace, then the first unit ending on a word boundary |
| WeightPattern.MatchStartsWithDigit | shopping_api/services.py:85 | a match can only start at a digit |
| WeightPattern.SearchFindsFirstDigitMatch | shopping_api/services.py:84-88 | a match at k with no digit before it (from the search start) is the match the search returns |
| WeightPattern.WeightExample | shopping_api/services.py:84-88 | a text with no digit in its first 18 characters, then "16 oz", gives the weight "16 oz" |
| WeightPattern.JifWeightExample | shopping_api/services.py:84-88 | in "jif peanut butter 16 oz" the weight found is "16 oz" |
| Extractor.Brand | shopping_api/services.py:61-70 | a brand exists iff the first field is longer than two characters, and it is that field |
| Extractor.LeadingSpaceHasNoBrand | shopping_api/services.py:65-70 | a title that starts with a space yields no brand |
| Extractor.BrandExample | shopping_api/services.py:65-70 | the brand of "Jif Peanut Butter 16 oz" is "Jif" |
| Extractor.WeightFromExtensions | shopping_api/services.py:73-78 | the first extension that mentions a unit is the weight, every extension before it is a string without a unit; no weight iff all are such strings; a failure iff a non-string comes first |
| Extractor.ExtensionsTakePriority | shopping_api/services.py:72-88 | a weight found in the extensions is never replaced by the title's |
| Extractor.TitleIsTheFallback | shopping_api/services.py:80-88 | with no extension mentioning a unit, the weight is the pattern search in the lower-cased title |
| Extractor.MissingFieldDefaults | shopping_api/services.py:90-114 | each missing field takes the code's default: "" for title, product id, price, source and product link, false for the multi-source flag, an empty list for the extensions, None for every other field of the record and of `additional_data` |
| Extractor.PresentFieldsPassThrough | shopping_api/services.py:90-114 | each field the raw result has is copied unchanged into the record or its `additional_data`; the title is that string |
| Extractor.ExtractionFailures | shopping_api/services.py:56-114 | extraction fails iff the result is not an object, the title is not a string, the extensions cannot be iterated, or a non-string extension is met before a unit |
| Extractor.TitleDrivesExtraction | shopping_api/services.py:56-114 | with a text title and a weight guess that succeeds, the record carries that title, its brand and that weight |
| Extractor.JifExample | shopping_api/services.py:56-114 | a result holding only the title "Jif Peanut Butter 16 oz" gives brand "Jif" and weight "16 oz" |
| Extractor.ExtractAll | shopping_api/services.py:299-308 | the kept records are no more than the raw ones, each is the extraction of some raw result, and every raw result that extracts is kept |
| Extractor.KeepSuccessesBounds | shopping_api/services.py:299-308 | a loop that appends each success and skips each failure keeps only successes, and keeps every one |
| Extractor.KeepSuccessesConcat | shopping_api/services.py:299-308 | running that loop over two parts and joining the results is running it over the whole |
| Extractor.ExtractAllSkipsFailure | shopping_api/services.py:301-308 | a raw result that fails is skipped and the loop goes on: the batch keeps what the part before it and the part after it keep |
| Extractor.ExtractAllKeepsOrder | shopping_api/services.py:299-308 | the records kept from a prefix of the batch are a prefix of those kept from the whole |
| Extractor.ExtractAllKeepsGoodRecords | shopping_api/services.py:299-308 | when every raw result extracts, all are kept, in order |
| Extractor.KeepSuccessesOfTotal | shopping_api/services.py:299-308 | when every step succeeds, the loop keeps every value in place |
| QueryKey.NormalizeIdempotent | shopping_api/services.py:52-54 | normalising a normalised query changes nothing |
| QueryKey.SameKeyModuloCaseAndPadding | shopping_api/services.py:52-54 | queries differing only in letter case and surrounding whitespace share one cache key |
| QueryKey.KeyOfNormalizedQuery | shopping_api/services.py:52-54 | a query and its normalised form share one cache key |
| QueryKey.PeanutButterExample | shopping_api/services.py:52-54 | "Peanut Butter", " peanut butter " and "PEANUT BUTTER" share one cache key |
| Models.StoreEntry | shopping_api/services.py:145-162 | the stored entry holds the query, all results and their count, the latency, hit count 0, the creation time of an existing row, and stays live exactly until now plus the TTL |
| Models.StoredEntryLifetime | shopping_api/models.py:131-133 | a stored entry is expired exactly when the time is past now plus the TTL |
| Models.RecordSearch | shopping_api/services.py:168-195 | the query row is counted once more (or created with count 1), keeps its first query text, and takes the latest latency, result count and search time |
| Models.CacheHitRate | shopping_api/models.py:171-176 | 0 with no requests; otherwise between 0 and 100 when cached requests do not exceed the total; 100 exactly when every request was cached |
| Models.CreationMatchesDefaultRow | shopping_api/services.py:211-221 | creating a day's row equals bumping a row of the model's field defaults |
| Models.TallyCounts | shopping_api/services.py:200-241 | one request adds one to the total, one to exactly one of cached and upstream, one to the errors when it failed, and its result count to the products returned |
| Models.TallyKeepsConsistent | shopping_api/services.py:200-241 | a day's cached and upstream requests keep adding up to its total, and its errors never exceed its upstream requests |
| Models.BumpAverageWithin | shopping_api/services.py:230-234 | the new average stays between the smaller and the larger of the old average and the new latency |
| Models.AverageExample | shopping_api/services.py:230-234 | latencies 100 then 300 average to 200 |
| Models.ReplayAverageNeverOverstates | shopping_api/services.py:230-234 | over any sequence of requests, the truncating running average never exceeds the true mean |
| Services.RequestFor | shopping_api/services.py:279-286 | the upstream is asked for the requested number of results, capped at 100 |
| Services.ProcessResults | shopping_api/services.py:299-308 | the loop over raw results keeps exactly what `ExtractAll` keeps |
| Services.SerpApiClient.constructor | shopping_api/services.py:35-39 | a new client has empty tables and the given digest and TTL |
| Services.SerpApiClient.IncrementHitCount | shopping_api/models.py:135-138 | only the entry's hit count changes, by one |
| Services.SerpApiClient.CheckCache | shopping_api/services.py:116-143 | a live entry is a hit carrying its stored results and is counted; an expired entry is removed; a missing one is a miss; nothing else changes |
| Services.SerpApiClient.CacheResults | shopping_api/services.py:145-166 | the query's entry is replaced by `StoreEntry`, and every other entry stays |
| Services.SerpApiClient.UpdateSearchQueryStats | shopping_api/services.py:168-198 | the query's row becomes `RecordSearch` of its old row |
| Services.SerpApiClient.UpdateApiUsageStats | shopping_api/services.py:200-244 | today's row becomes `Tally` of its old row |
| Services.SerpApiClient.AnswerFromCache | shopping_api/services.py:264-275 | the cached answer is cut to the limit with its count adjusted, and it is counted as a cached request with its stored latency |
| Services.SerpApiClient.SearchUpstream | shopping_api/services.py:277-367 | on an answer: all records cached, the limited list returned and counted in both statistics; on a failure: the matching error, nothing cached, one failed request counted |
| Services.SerpApiClient.SearchProducts | shopping_api/services.py:246-367 | never more results than asked for, count equal to the number of results; the full new state of the three tables for a hit, a miss answered upstream, and a miss the upstream failed |
| Services.RepeatSearchIsCached | shopping_api/services.py:246-275 | a repeat of a search within the TTL is a hit with the same results and the first latency, whatever the upstream would now answer |
| Services.TimeoutIsCountedAsError | shopping_api/services.py:348-353 | a first search that times out fails with "Request timeout", caches nothing, records no query, and counts one failed upstream request for the day |
| Views.EffectiveLimit | shopping_api/views.py:45-53 | the limit is between 1 and 100; anything but 20 was given as text `int()` accepts and is that integer, or 100 for a larger one |
| Views.LimitInRangeKept | shopping_api/views.py:46-51 | an integer from 1 to 100 is kept |
| Views.LimitBelowOneIsDefault | shopping_api/views.py:46-53 | an integer below 1 gives the default 20 |
| Views.LimitAboveMaxIsCapped | shopping_api/views.py:46-53 | an integer above 100 gives 100, or the default 20 when it has more than 4300 digits and `int()` raises |
| Views.LimitIgnoresPadding | shopping_api/views.py:47 | space, tab, newline, vertical tab, form feed and carriage return around the limit text are ignored, as `int()` ignores them |
| Views.SeparatorBeforeLimitIsRefused | shopping_api/views.py:46-53 | a file separator (0x1C) before "50" is not whitespace to `int()`, so the limit falls back to 20 |
| Views.Decorate | shopping_api/views.py:90-107 | the service's result is returned with the API version, the service name, the processed query and the limit |
| Views.Respond | shopping_api/views.py:55-88 | 200 exactly for a result, 503 exactly for a `SerpAPIError` (its message passed on), 500 exactly for anything else; failures carry the query and an empty result list |
| Views.AsServiceOutcome | shopping_api/views.py:55-73 | the view sees the search's result as it is, and a `SerpAPIError` as the failure it catches first |
| Views.HandleGet | shopping_api/views.py:31-88 | a blank query gets the 400 body and touches nothing; otherwise the stripped query is searched with the clamped limit, the client's tables change exactly as `SearchProducts` states, and the response is `Respond` of that search's outcome: 200 carrying its result, or 503 carrying its error |

## Left out

- The HTTP client: its connection pool, API key, base URL, timeout and headers, and the
  module-level client singleton (`get_serp_client`, `close_serp_client`). The upstream call is the
  `fetch` parameter, which states what each request came to.
- `async` and concurrency: each request runs to completion on one client, so concurrent requests
  racing on the same row are not modelled.
- SHA-256 itself. The cache key is `digest(normalised query)` for any digest, so the key-sharing
  lemmas hold for SHA-256 in particular.
- Clocks. `now` and `elapsedMs` are inputs, and the date is the UTC day number of `now`.
- Database failures. `_cache_results` and the two statistics writers log and swallow them.
  `_check_cache` catches only a missing row, and it runs before the `try` of `search_products`, so a
  failing lookup, hit-count save or delete of a cache row reaches the view's 500 branch
  (shopping_api/views.py:75-88). The model's tables never fail, so `HandleGet` produces 200, 400 or
  503; the 500 response itself is modelled by `Respond`.
- Logging.
- The health and statistics views, the URL configuration and the `Product` model, which the search
  path does not use.
- An upstream payload that is not an object, or whose `shopping_results` is not a list. The `Ok`
  outcome carries a list.
- Unicode. Lower-casing and whitespace are ASCII. `strip()` removes space, 9-13 and 28-31; `int()`
  skips only space and 9-13 around its digits, so the separators 28-31 make it raise.
- Floating point. `int(total / n)` is exact floor division on non-negative integers.
  `cache_hit_rate` and JSON numbers are rationals.
- Column widths (`max_length`) and the 32-bit range of the integer columns.
- Json.Iterate: iterating over an object with a repeated key visits that key once per occurrence,
  where a Python dict has it once.
- ParseInt: follows the default limit of current CPython (3.11 and the security releases of older
  versions), which refuses a decimal text of more than 4300 digits. Older interpreters have no limit;
  `sys.set_int_max_str_digits` and the `PYTHONINTMAXSTRDIGITS` setting are not modelled.
- ParseIntOfIntToString: states the round trip only up to 4300 digits, because `int()` raises beyond.
- LimitAboveMaxIsCapped: gives 20 for an integer of more than 4300 digits, because `int()` raises on it.
- IntToString: `str()` has no digit limit here. It only writes HTTP status codes, which are short.
