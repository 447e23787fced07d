# Rick and Morty API fetch-and-normalise pipeline, in Dafny

This project models the core of `rickandmorty`. That program downloads every character and
every location of the public Rick and Morty API and normalises them into two record types,
`Character` and `Location`. It then computes statistics, filters, cross-links characters with
their locations, and lays the records out as CSV rows. It has four clients:

- a first-generation REST client, with a `while page < total_pages` loop;
- a second-generation REST client built on a shared progress paginator;
- two GraphQL clients, one with a combined-query "ultra-optimised" full fetch;
- a stand-alone script (`main.py`) that follows `info.next` cursors and has its own retry loop.

The model keeps the clients' control flow and error behaviour and leaves out the network:

- Transports are parameters. The REST clients get a function
  `(Request, attempt) -> Outcome`: a response, a timeout, a connection error or another
  request exception.
- The script gets `(url, attempt) -> Outcome`.
- The GraphQL clients get `Query -> Result<GqlData, string>`.
- Sleeps are recorded as a list of durations; they are not performed.
- Python exceptions are the `Err` side of a `Result`: `APIError`, `KeyError`, `ValueError`,
  `ZeroDivisionError` and the script's `sys.exit(1)`.

One Dafny module per core source file:

| module | file | source |
|---|---|---|
| `Models` | `models.dfy` | `src/shared/models.py` |
| `Utils` | `utils.dfy` | `src/shared/utils.py` |
| `BaseClient` | `base_client.dfy` | `src/shared/base_client.py` |
| `RestRequest`, `RestV1`, `PageLoop` | `rest_request.dfy`, `rest_client.dfy`, `page_loop.dfy` | `src/rest/rest_client.py` |
| `RestV2` | `rest_client_v2.dfy` | `src/rest/rest_client_v2.py` |
| `Graphql`, `GraphqlV1`, `GraphqlOptimizer` | `graphql.dfy`, `graphql_client.dfy`, `graphql_optimizer.dfy` | `src/graphql/graphql_client.py` |
| `GraphqlV2` | `graphql_client_v2.dfy` | `src/graphql/graphql_client_v2.py` |
| `MainClient` | `main_client.dfy` | `main.py` |
| `DataProcessor` | `data_processor.dfy` | `src/shared/data_processor.py` |
| `RestDataProcessor` | `rest_data_processor.dfy` | `src/rest/rest_data_processor.py` |
| `EnhancedCsvExporter` | `enhanced_csv_exporter.dfy` | `src/shared/enhanced_csv_exporter.py` |
| `ArgumentParser` | `argument_parser.dfy` | `src/shared/argument_parser.py` |

Supporting modules:

- `Wrappers` holds `Option` and `Result`.
- `Config` holds the configured constants: the base URLs, 3 retries, delay 1, backoff 2, the
  CSV headers and a chunk size of 100.
- `Text` models the Python string built-ins the core relies on: `int()`, `str()`,
  `split(sep)[-1]`, `rstrip`, `lower()` and `in`.
- `Tally` models ordered dicts, `Counter`, `most_common`, a stable `sorted(..., reverse=True)`
  and dict comprehensions.

Where the two GraphQL clients share text, it is modelled once: the parse helpers and the
ultra-optimised fetch are the same in both files.

Imperative code is modelled as methods with loop invariants, each proved against a
specification function. The paginators, the retry loops, the counting and mapping loops and
the CSV row loops are of this kind. Pure code is modelled as functions. The client objects are
classes whose `close` clears a `sessionOpen` field.

## Model

| member | source | states |
|---|---|---|
| Models.CharacterFromDictComplete | src/shared/models.py:71-92 | `Character.from_dict` reads back every field of a complete object unchanged |
| Models.LocationFromDictComplete | src/shared/models.py:24-34 | `Location.from_dict` reads back every field of a complete object unchanged |
| Models.CharacterFromDict | src/shared/models.py:71-92 | `from_dict({})` gives id 0, empty strings, an empty origin and location dict and no episodes |
| Models.LocationFromDict | src/shared/models.py:24-34 | `from_dict({})` gives id 0, empty strings and no residents |
| Models.GetLocationId | src/shared/models.py:94-103 | agrees with `extract_id_from_url(url, "location")` when the location dict has a `url`, and is None otherwise |
| Models.GetLocationIdOfApiUrl | src/shared/models.py:94-103 | the API's URL for location `id` maps back to `id` |
| Models.GetLocationIdTrailingSlash | src/shared/models.py:94-103 | a trailing `/` on the location URL gives None |
| Models.GetLocationIdExamples | src/shared/models.py:94-103 | `…/api/location/3` gives 3 and an empty dict gives None |
| Models.IdField | src/shared/models.py:125 | `str(x) if x else ''` reads back as `x` for a truthy id and is empty otherwise |
| Models.CharacterToCsvRow | src/shared/models.py:105-129 | one field per configured header; the id fields read back as the character and location ids; truthy details replace the location columns |
| Models.LocationToCsvRow | src/shared/models.py:36-52 | one field per header; id and resident count read back as integers, the count being the number of resident URLs; names joined with `'; '` |
| Models.CharacterToDict | src/shared/models.py:131-143 | the episode count is the number of episode URLs; the location id is what `get_location_id` extracts |
| Utils.RetryWithBackoff | src/shared/utils.py:27-57 | the decorator's loop computes the retry specification: the result, the runs and the sleeps |
| Utils.RetryFromCalls | src/shared/utils.py:36-55 | the runs from `attempt` on, and which run the result comes from |
| Utils.RetryFromWaits | src/shared/utils.py:36-55 | one sleep after each run but the last, each growing by `backoff` |
| Utils.RetryContract | src/shared/utils.py:27-57 | at most `max_retries` runs; every run but the last failed with a retried exception; the result is the last run's value or its re-raised exception |
| Utils.RetryNonRetryableFirst | src/shared/utils.py:36-55 | a non-retried exception on the first run propagates with no retry and no sleep |
| Utils.RetryDefaultsAllFail | src/shared/utils.py:27-57 | with 3 runs, delay 1 and backoff 2, an always-failing body runs 3 times, sleeps 1 then 2, and re-raises the third error |
| Utils.ExtractIdFromUrl | src/shared/utils.py:59-70 | None for an empty URL, a missing marker or a non-integer tail; otherwise the integer after the last marker |
| Utils.SplitLastAfterFirst | src/shared/utils.py:66 | `split(sep)[-1]` of `p + sep + d` is `d` when `d` holds no `sep` and this `sep` is its first occurrence |
| Utils.NoSlashNoMarker | src/shared/utils.py:59-70 | a string without `/` holds no `/<resource>/` marker |
| Utils.BaseMarkerFirst | src/shared/utils.py:59-70 | in `REST_BASE_URL + "/<resource>/"` the marker is first found right after the base |
| Utils.ExtractIdFromRestUrl | src/shared/utils.py:59-70 | extraction inverts URL building: the id rendered after the base and marker is extracted unchanged |
| Utils.ExtractIdFromLocationUrl | src/shared/utils.py:59-70 | the location, character and episode URLs of the API all round-trip their id |
| Utils.ExtractIdTrailingSlash | src/shared/utils.py:59-70 | a URL with a trailing `/` never yields an id |
| Utils.HandleApiError | src/shared/utils.py:127-139 | raises exactly for statuses from 400 up, carrying that status, with "Resource not found" for 404, "Rate limit exceeded" for 429, "Server error" from 500 up and "Client error: " and the body text otherwise |
| Utils.Key | main.py:79-94 | `data[key]`: a present key gives its value, an absent one KeyError naming the key |
| Utils.ChunksOf | src/shared/utils.py:83-86 | the slices `lst[i:i+n]`: non-empty, of length `n` except the last, concatenating to `lst` |
| Utils.Chunks | src/shared/utils.py:83-86 | a zero step raises ValueError, a negative one yields nothing, a positive one partitions `lst` in order |
| BaseClient.Range | src/shared/base_client.py:119 | `range(lo, hi)`: consecutive integers from `lo`, `hi - lo` of them |
| BaseClient.ParseItems | src/shared/base_client.py:111-113 | every item parsed in order, or the first item's failure |
| BaseClient.AppendParsed | src/shared/base_client.py:124-126 | the append loop computes `ParseItems` over the page's items |
| BaseClient.PaginateWithProgress | src/shared/base_client.py:81-138 | the paginator's loop computes the paginator specification |
| BaseClient.PagesFromStep | src/shared/base_client.py:119-133 | one pass of the loop: the next page and the rest |
| BaseClient.PaginateContract | src/shared/base_client.py:81-138 | a page-1 failure propagates unwrapped after one request; otherwise pages `1..max(1, pages)` are requested in order, items concatenated, and a later failure is wrapped as `Failed to fetch … page N` after page N |
| PageLoop.FetchWhileBelowTotal | src/rest/rest_client.py:86-112 | the page loop computes the page-loop specification |
| PageLoop.RemainingPagesOk | src/rest/rest_client.py:103-110 | the remaining pages succeed exactly when each does, with all their items |
| PageLoop.RemainingPagesErr | src/rest/rest_client.py:103-110 | a failure stops at the first failing page, with that page's error |
| PageLoop.FetchUpToTotalContract | src/rest/rest_client.py:86-112 | a page-1 failure propagates; a total of 0 raises ZeroDivisionError; otherwise pages `1..max(1, total)` are requested in order |
| RestRequest.RequestUrlSlashes | src/rest/rest_client.py:31 | trailing slashes on the base and leading slashes on the endpoint do not change the URL |
| RestRequest.RequestUrlSingleSlash | src/rest/rest_client.py:31 | exactly one `/` joins base and endpoint |
| RestRequest.RequestUrlJoin | src/rest/rest_client.py:31 | a clean base and endpoint are joined as they are |
| RestRequest.RequestUrlConfigured | src/rest/rest_client.py:31 | `resource/id` is requested at `<base>/resource/id` |
| RestRequest.RequestOnce | src/rest/rest_client.py:27-51 | a timeout is APIError 408, other transport failures are APIErrors without status, error statuses go through `handle_api_error`, and a response succeeds exactly when it validates |
| RestRequest.MakeRequest | src/rest/rest_client.py:27-51 | the decorated request's result is its single attempt's |
| RestRequest.MakeRequestSingleAttempt | src/rest/rest_client.py:27-51 | every failure is an APIError, which is not retried: exactly one attempt and no sleep |
| BaseClient.JsonGet | src/rest/rest_client.py:58-59 | `d.get(key)` is the value when present and None for an absent key or `null` |
| RestV1.ParsePaginationInfo | src/rest/rest_client.py:53-60 | present count and pages are read back, absent ones are 0; next and prev are the link when present and None when absent or `null` |
| RestV1.RestClient.constructor | src/rest/rest_client.py:19-26 | a new client is open and keeps its base URL |
| RestV1.RestClient.Close | src/rest/rest_client.py:183-185 | the session is closed |
| RestV1.RestClient.FetchCharactersPage | src/rest/rest_client.py:73-84 | one request to `/character?page=N`; the characters keep the length and order of `results` |
| RestV1.RestClient.FetchLocationsPage | src/rest/rest_client.py:114-125 | the same for `/location?page=N` |
| RestV1.RestClient.FetchAllCharacters | src/rest/rest_client.py:86-112 | the page loop over `fetch_characters_page` |
| RestV1.RestClient.FetchAllLocations | src/rest/rest_client.py:127-153 | the page loop over `fetch_locations_page` |
| RestV1.RestClient.FetchCharacterById | src/rest/rest_client.py:155-158 | one request for `character/N`, parsed by `from_dict` |
| RestV1.RestClient.FetchLocationById | src/rest/rest_client.py:160-163 | one request for `location/N`, parsed by `from_dict` |
| RestV1.RestClient.FetchCharacterWithLocation | src/rest/rest_client.py:165-181 | a failed character request fails the lookup; the location is requested only for a truthy id; its failure leaves it None |
| RestV1.FetchAllWithoutPageCount | src/rest/rest_client.py:86-112 | a first page without a page count ends in ZeroDivisionError after one request |
| RestV1.PageRequestUrl | src/rest/rest_client.py:73-84 | pages are requested at `<base>/character` despite the endpoint's leading `/` |
| RestV2.RestClient.constructor | src/rest/rest_client_v2.py:22-37 | a new client is open and keeps its base URL |
| RestV2.RestClient.Close | src/rest/rest_client_v2.py:120-124 | the session is closed |
| RestV2.RestClient.FetchAllCharacters | src/rest/rest_client_v2.py:39-58 | the paginator over the `character` endpoint, parsing with `from_dict` |
| RestV2.RestClient.FetchAllLocations | src/rest/rest_client_v2.py:60-79 | the paginator over the `location` endpoint |
| RestV2.RestClient.FetchCharacterWithLocation | src/rest/rest_client_v2.py:81-118 | the character is requested first |
| RestV2.FetchCharacterWithLocationFacts | src/rest/rest_client_v2.py:81-118 | the lookup fails exactly when the character request fails; the location is requested second and only for a truthy id; its failure leaves it None |
| RestV2.LocationRequestRoundTrip | src/rest/rest_client_v2.py:81-118 | the location request's URL names the character's location id again |
| Graphql.ExecuteQuery | src/graphql/graphql_client_v2.py:423-440 | any exception of `execute` is re-raised as an APIError without status quoting it |
| Graphql.IntOf | src/graphql/graphql_client_v2.py:455 | `int(text)` gives the parsed integer or a ValueError |
| Graphql.RefUrls | src/graphql/graphql_client_v2.py:452 | one REST URL per reference in order, or KeyError('id') for the first without an id |
| Graphql.LocationWithUrl | src/graphql/graphql_client_v2.py:442-468 | the location dict gains `url` exactly when its id is truthy |
| Graphql.ParseCharacter | src/graphql/graphql_client_v2.py:442-468 | the required fields in order; the ids become REST URLs |
| Graphql.ParseLocation | src/graphql/graphql_client_v2.py:470-485 | resident ids become character URLs; `id`, `name`, `type`, `dimension` are required; no URL |
| Graphql.ParsedLocationId | src/graphql/graphql_client_v2.py:442-468 | a nested location id `n` round-trips to the character's location id `n` |
| Graphql.ParsedLocationIdFalsy | src/graphql/graphql_client_v2.py:442-468 | a missing or empty nested id gives no location id |
| Graphql.ParsedEpisodeIds | src/graphql/graphql_client_v2.py:452 | episode `k`'s URL names episode id `n` again |
| Graphql.ParsedResidentIds | src/graphql/graphql_client_v2.py:474 | resident `k`'s URL names character id `n` again |
| Graphql.ParseCharacterDefaults | src/graphql/graphql_client_v2.py:442-468 | fields the all-data query omits parse as empty strings and no episodes |
| Graphql.ParsedPrefix | src/graphql/graphql_client_v2.py:336-342 | the items parsed before the first failure |
| Graphql.FirstFailure | src/graphql/graphql_client_v2.py:336-342 | the exception that stops the append loop, if any |
| Graphql.ParsedPrefixStops | src/graphql/graphql_client_v2.py:336-342 | the append loop stops exactly where parsing the whole list fails, with the same exception |
| Graphql.ExtendParsed | src/graphql/graphql_client_v2.py:365-367 | the append loop extends the list by the parsed prefix and reports the first failure |
| GraphqlV1.FetchAllCharacters | src/graphql/graphql_client.py:182-217 | the page loop over the characters query |
| GraphqlV1.FetchAllLocations | src/graphql/graphql_client.py:219-254 | the page loop over the locations query |
| GraphqlV1.MissingPageCountDivides | src/graphql/graphql_client.py:182-217 | a first page without a page count ends in ZeroDivisionError |
| GraphqlV1.FailedPageQueryPropagates | src/graphql/graphql_client.py:203-215 | a failed page query ends the fetch with that failure |
| GraphqlV1.FetchCharacterWithLocation | src/graphql/graphql_client.py:256-274 | one query; a null or empty character is the 404; the location is parsed only from a nested object with a truthy id |
| GraphqlV1.LocationMatchesCharacter | src/graphql/graphql_client.py:256-274 | the character's location id and the returned location's id are the nested id |
| GraphqlV2.TopLevelPage | src/graphql/graphql_client_v2.py:204-206 | the page the paginator sees has neither `info` nor `results` |
| GraphqlV2.FetchAllCharacters | src/graphql/graphql_client_v2.py:195-217 | the shared paginator over the characters query |
| GraphqlV2.FetchAllLocations | src/graphql/graphql_client_v2.py:219-241 | the shared paginator over the locations query |
| GraphqlV2.FetchAllCharactersFindsNothing | src/graphql/graphql_client_v2.py:195-217 | only page 1 is requested and no character is returned, or the query's failure |
| GraphqlV2.FetchAllLocationsFindsNothing | src/graphql/graphql_client_v2.py:219-241 | only page 1 is requested and no location is returned, or the query's failure |
| GraphqlV2.Rewrap | src/graphql/graphql_client_v2.py:284-287 | a message containing "not found" in any case becomes the 404; anything else an APIError quoting it |
| GraphqlV2.LocationToFetch | src/graphql/graphql_client_v2.py:268-270 | the location id the lookup follows, only when truthy |
| GraphqlV2.Lookup | src/graphql/graphql_client_v2.py:257-282 | the character query, its parse, then for a truthy id the location query, whose APIError leaves the location None |
| GraphqlV2.FetchCharacterWithLocation | src/graphql/graphql_client_v2.py:243-287 | the lookup with every exception rewrapped: failures are always APIErrors |
| GraphqlV2.NotFoundMentionsNotFound | src/graphql/graphql_client_v2.py:263-287 | rewrapping the 404 gives it back unchanged |
| GraphqlV2.MissingCharacterIs404 | src/graphql/graphql_client_v2.py:259-263 | a null or empty character is the 404 after one query |
| GraphqlV2.FailedQueryRewrapped | src/graphql/graphql_client_v2.py:284-287 | a failed character query mentioning "not found" becomes the 404; any other becomes "Failed to fetch character N" |
| GraphqlV2.LocationQueryFollowsNestedId | src/graphql/graphql_client_v2.py:267-278 | the second query asks for the nested location id; its failure still returns the character |
| GraphqlV2.NoNestedIdSingleQuery | src/graphql/graphql_client_v2.py:267-282 | without a nested id the lookup is one query with no location |
| GraphqlOptimizer.FetchAllDataOptimized | src/graphql/graphql_client_v2.py:296-317 | exactly the items of the one response in order; fails exactly when the query or an item's parse fails |
| GraphqlOptimizer.UltraSpecShape | src/graphql/graphql_client_v2.py:326-348 | the fetch stops after the all-data query or continues into the loop |
| GraphqlOptimizer.FallbackQueries | src/graphql/graphql_client_v2.py:374-390 | the fallback's queries and appends, as specified |
| GraphqlOptimizer.CombinedQuery | src/graphql/graphql_client_v2.py:356-390 | the combined-query branch, as specified |
| GraphqlOptimizer.CharacterQuery | src/graphql/graphql_client_v2.py:391-400 | the character-only branch, as specified; a failure is logged and skipped |
| GraphqlOptimizer.FetchAllDataUltraOptimized | src/graphql/graphql_client_v2.py:319-419 | the whole fetch computes the ultra-optimised specification |
| GraphqlOptimizer.IndexLoop | src/graphql/graphql_client_v2.py:351-402 | the index loop computes the loop specification from index 0 |
| GraphqlOptimizer.FallbackShape | src/graphql/graphql_client_v2.py:374-390 | the queries a fallback sends, and its counter step on success |
| GraphqlOptimizer.CombinedShape | src/graphql/graphql_client_v2.py:356-390 | a combined step sends the combined query, then possibly the fallback's |
| GraphqlOptimizer.CombinedShapesWithin | src/graphql/graphql_client_v2.py:356-390 | a combined step's queries stay within the page counts |
| GraphqlOptimizer.LoopFromFirstWithin | src/graphql/graphql_client_v2.py:345-402 | the loop's queries stay within the reported page counts |
| GraphqlOptimizer.UltraQueriesWithin | src/graphql/graphql_client_v2.py:319-402 | every query after the first stays within the reported counts (42 and 7 by default); no location page beyond the character count is fetched |
| GraphqlOptimizer.CountOk | src/graphql/graphql_client_v2.py:348-395 | the number of answered queries |
| GraphqlOptimizer.UltraLoopSteps | src/graphql/graphql_client_v2.py:351-402 | the loop is a sequence of steps up to the longer page list |
| GraphqlOptimizer.StepsCount | src/graphql/graphql_client_v2.py:351-402 | a loop whose every step counts its answered queries counts all of them |
| GraphqlOptimizer.CountsAfter | src/graphql/graphql_client_v2.py:351-402 | the counter over a step and the rest adds up |
| GraphqlOptimizer.UltraCounterCountsAnswers | src/graphql/graphql_client_v2.py:348-395 | `api_calls` counts exactly the answered queries, whether or not their items parsed |
| GraphqlOptimizer.UltraNoFailures | src/graphql/graphql_client_v2.py:319-402 | with no failure: the all-data query, then one query per character page 2..Pc in order, combined while a location page of that index exists |
| GraphqlOptimizer.UltraDefaultPages | src/graphql/graphql_client_v2.py:327-328 | without page counts: 42 queries, pages 2..7 combined and 8..42 alone |
| MainClient.RateLimitWait | main.py:32-38 | the wait is the Retry-After header as an integer, else `2 ** attempt`; a non-integer header raises ValueError |
| MainClient.AttemptStep | main.py:27-57 | one attempt: success, a retried 429 or request error with its sleep, or the final failure |
| MainClient.Get | main.py:25-57 | the attempt loop computes the `_get` specification |
| MainClient.GetFromFacts | main.py:27-57 | at most `max_retries + 1` attempts with one sleep between consecutive ones, each as the attempt before asked |
| MainClient.GetContract | main.py:25-57 | the attempt and sleep bounds; a failing `_get` exits with status 1 or raises ValueError |
| MainClient.GetGivesUp | main.py:25-57 | a silent server: 4 tries, sleeps 1, 2, 4, then exit 1 |
| MainClient.GetRateLimited | main.py:32-38 | `Retry-After: 5` sleeps 5; a non-integer header raises ValueError at once |
| MainClient.ExtractLocationId | main.py:59-67 | None for an empty URL; else the integer after the last `/` once trailing slashes are stripped |
| MainClient.LastSegment | main.py:65 | splitting on `/` keeps the segment after the last `/` |
| MainClient.ExtractLocationIdOfUrl | main.py:59-67 | the id at the end of any URL is read, with or without trailing slashes |
| MainClient.ExtractorsDisagreeOnTrailingSlash | main.py:59-67 | with a trailing `/`, `extract_location_id` finds the id where `get_location_id` finds none |
| MainClient.MapKey | main.py:81-94 | a present key gives its value, a missing one KeyError |
| MainClient.ProjectCharacter | main.py:81-94 | the fields read in order, with origin and location ids from their URLs |
| MainClient.ProjectLocation | main.py:118-123 | id, name, type and dimension, each required |
| MainClient.ProjectedLocationId | main.py:81-94 | the API's URL for location `n` projects to location id `n` |
| MainClient.NextTruthy | main.py:97 | an absent `next` raises KeyError; `null` and `""` are falsy, any other link truthy |
| MainClient.PageRecords | main.py:76-101 | the page's records projected in order (first failure raises) and whether `next` is truthy; an absent `info` or `next` raises KeyError |
| MainClient.CursorContinues | main.py:74-104 | one page of a fetch that continues past it |
| MainClient.CursorEnds | main.py:74-104 | one page of a fetch that ends on it |
| MainClient.FollowNext | main.py:69-104 | the cursor loop computes the cursor specification |
| MainClient.FollowPages | main.py:69-104 | the cursor loop's body, page by page |
| MainClient.CursorFacts | main.py:69-104 | consecutive pages, every one but the last with a truthy `next`, ending on a failure or a falsy `next` |
| MainClient.CursorRequested | main.py:69-104 | the pages requested are consecutive and end where the fetch stopped |
| MainClient.CursorNextTruthy | main.py:69-104 | every page moved on from had a truthy `next` |
| MainClient.CursorStopsAt | main.py:69-104 | pages `page..last` are requested and their records returned in page order |
| MainClient.FetchAllCharacters | main.py:69-104 | the cursor loop over `character` with the character projection |
| MainClient.FetchAllLocations | main.py:106-133 | the cursor loop over `location` with the location projection |
| MainClient.CharacterDetails | main.py:135-146 | the character, then the location for a truthy extracted id; either failure propagates |
| MainClient.DetailsFetchLocation | main.py:135-146 | the API's URL for location `n`, even with a trailing slash, fetches location `n` second |
| MainClient.DetailsWithoutLocation | main.py:135-146 | an empty location URL: one request and no location |
| MainClient.CharacterCsvRow | main.py:166-177 | one row in `fieldnames` order; falsy ids become empty strings |
| MainClient.LocationCsvRow | main.py:189-195 | the record's four fields in `fieldnames` order |
| MainClient.CsvLocationColumn | main.py:166-177 | the API's URL for location `n` ends up as `n` in the `location.id` column |
| DataProcessor.FilterSeqFacts | src/shared/data_processor.py:73-82 | a comprehension keeps exactly the passing elements, in order |
| DataProcessor.FilterFilter | src/shared/data_processor.py:73-82 | two comprehensions in a row keep what passes both |
| DataProcessor.FilterAll | src/shared/data_processor.py:113-115 | a condition that always holds keeps everything |
| DataProcessor.MapSeqAppend | src/shared/data_processor.py:146-154 | mapping a concatenation maps each part |
| DataProcessor.CountWhere | src/shared/data_processor.py:195-219 | the number of elements that pass, at most the length |
| DataProcessor.FilterBy | src/shared/data_processor.py:72-82 | a case-insensitive equality filter, applied only for a truthy criterion |
| DataProcessor.FilterCharacters | src/shared/data_processor.py:50-85 | the order-preserving subsequence matching every truthy criterion |
| DataProcessor.FilterCharactersChain | src/shared/data_processor.py:50-85 | the four comprehensions in a row are one comprehension over all criteria |
| DataProcessor.FilterByResidents | src/shared/data_processor.py:113-115 | the minimum-resident filter, applied when given |
| DataProcessor.FilterLocations | src/shared/data_processor.py:87-117 | the order-preserving subsequence matching type, dimension and minimum residents |
| DataProcessor.FilterLocationsKeepsAll | src/shared/data_processor.py:87-117 | `min_residents=0` and no criteria keep every location |
| DataProcessor.MostPopulated | src/shared/data_processor.py:144-158 | one entry per location, a permutation of the entries, by descending resident count, and for every count the entries with that count in location order (the sort is stable) |
| DataProcessor.SortDescKeepsTies | src/shared/data_processor.py:157 | `list.sort(key=..., reverse=True)` is stable: for every key, the elements with that key come out in input order |
| DataProcessor.SortDescMap | src/rest/rest_data_processor.py:96-100 | sorting locations by resident count and then building their entries equals building the entries and then sorting them |
| DataProcessor.AnalyzeLocationMapping | src/shared/data_processor.py:160-193 | the mapping loop computes the mapping report |
| DataProcessor.MappingStep | src/shared/data_processor.py:168-185 | the loop over a prefix one character longer |
| DataProcessor.MappingCounts | src/shared/data_processor.py:160-193 | valid mappings and issues are disjoint kinds of characters with a named location |
| DataProcessor.MappingBounds | src/shared/data_processor.py:160-193 | valid mappings have location names, at most 5 issues are kept, the rate is a percentage (0 with no characters) |
| DataProcessor.KnownLocationIsValid | src/shared/data_processor.py:168-185 | a character whose location is known is a valid mapping, not an issue |
| DataProcessor.AssessCharacters | src/shared/data_processor.py:195-219 | each character issue count is at most the number of characters |
| DataProcessor.AssessLocations | src/shared/data_processor.py:195-219 | each location issue count is at most the number of locations |
| DataProcessor.DivAtMostOne | src/shared/data_processor.py:221-242 | a part over a positive whole lies in [0, 1] |
| DataProcessor.ShareBounded | src/shared/data_processor.py:221-242 | a share of present fields lies in [0, 1], and is 1 with no issues |
| DataProcessor.MeanBounded | src/shared/data_processor.py:221-242 | a weighted mean of two shares is a share, and of two full shares is full |
| DataProcessor.ScaledAtMost | src/shared/data_processor.py:221-242 | a share of a non-negative amount lies between 0 and that amount |
| DataProcessor.CompletenessRange | src/shared/data_processor.py:221-242 | the score is in [0, 100]: 0 with no records, 100 with records and no issues |
| DataProcessor.CompletenessBounds | src/shared/data_processor.py:195-219 | the report's score is a percentage, 0 with no records and 100 with no issues |
| DataProcessor.GetStatistics | src/shared/data_processor.py:22-48 | totals are the input lengths; each of the five distributions is the `most_common()` ranking of its field's values (`RankedCounts`); the most populated list is `MostPopulated` of all locations (a stable descending sort); mapping and data quality are those of the same records |
| RestDataProcessor.ProcessCharacters | src/rest/rest_data_processor.py:14-25 | one `to_dict()` per character in order; none is dropped |
| RestDataProcessor.Processed | src/rest/rest_data_processor.py:31-40 | the entry for one location, with its own resident count |
| RestDataProcessor.ProcessLocations | src/rest/rest_data_processor.py:28-46 | one entry per location in order |
| RestDataProcessor.EnrichCharactersWithLocations | src/rest/rest_data_processor.py:49-74 | one enriched summary per character in order |
| DataProcessor.LocationOf | src/rest/rest_data_processor.py:55-63 | `location_map[location_id]` for a truthy id found in the map: present exactly then, and a location carrying that id |
| DataProcessor.LocationOfLast | src/rest/rest_data_processor.py:55 | the location found is the last one in the list with that id |
| RestDataProcessor.LocationDetailsOf | src/rest/rest_data_processor.py:59-70 | details exactly when the location id is truthy and a location has it |
| RestDataProcessor.DetailsFromLastLocation | src/rest/rest_data_processor.py:55-70 | the details are those of the last location carrying that id |
| RestDataProcessor.CountStep | src/rest/rest_data_processor.py:83-93 | one more counting step is one more `d[k] = d.get(k, 0) + 1` |
| RestDataProcessor.GetStatistics | src/rest/rest_data_processor.py:77-126 | the counting loops, then the ranked views |
| RestDataProcessor.CharacterTallies | src/rest/rest_data_processor.py:83-85 | the loop tallies every status and species |
| RestDataProcessor.LocationTallies | src/rest/rest_data_processor.py:91-93 | the loop tallies every type and dimension |
| RestDataProcessor.StatisticsFacts | src/rest/rest_data_processor.py:77-126 | status and type dicts tally all records; species and dimension dicts are the ten most common values, each once, ties in first-appearance order; the most populated locations are the first ten of `DataProcessor.MostPopulated` and the ten largest as `MostPopulatedFacts` states |
| RestDataProcessor.MostPopulatedFacts | src/rest/rest_data_processor.py:96-100 | the list is the first ten of `DataProcessor.MostPopulated`; as many entries as locations up to ten, by descending resident count, no entry kept more often than the locations produce it, every occurrence left out no larger than any kept, and of each count the first locations of that count in list order |
| RestDataProcessor.MostPopulatedAgree | src/rest/rest_data_processor.py:96-100 | the ten kept are the first ten of the stable sort `_get_most_populated_locations` makes |
| RestDataProcessor.FilterByPart | src/rest/rest_data_processor.py:144-145 | a case-insensitive substring filter, applied only for a truthy criterion |
| RestDataProcessor.FilterCharacters | src/rest/rest_data_processor.py:129-147 | the order-preserving subsequence matching every truthy criterion |
| RestDataProcessor.FilterLocations | src/rest/rest_data_processor.py:150-168 | the order-preserving subsequence matching every given criterion |
| RestDataProcessor.EqualDimensionPasses | src/rest/rest_data_processor.py:162-163 | a dimension equal to the criterion always passes |
| EnhancedCsvExporter.EnhancedCharacterRows | src/shared/enhanced_csv_exporter.py:17-60 | the header, then one row per character in input order, chunk by chunk |
| EnhancedCsvExporter.CharacterRowLocation | src/shared/enhanced_csv_exporter.py:38-50 | details exactly when the id is truthy and known; then the last such location's name, type and dimension |
| EnhancedCsvExporter.ResidentNames | src/shared/enhanced_csv_exporter.py:86-90 | the names collected, in resident-URL order |
| EnhancedCsvExporter.CollectResidentNames | src/shared/enhanced_csv_exporter.py:86-90 | the resident loop computes those names |
| EnhancedCsvExporter.ResidentNamesFrom | src/shared/enhanced_csv_exporter.py:86-90 | every name collected belongs to a character whose id a resident URL carries |
| EnhancedCsvExporter.TruncateNames | src/shared/enhanced_csv_exporter.py:92-94 | more than 20 names become 20 and a `... and K more` marker |
| EnhancedCsvExporter.TruncateNamesFacts | src/shared/enhanced_csv_exporter.py:92-94 | up to 20 names are kept whole; otherwise the first 20 and a marker whose number is the count left out |
| EnhancedCsvExporter.EnhancedLocationRows | src/shared/enhanced_csv_exporter.py:63-106 | the header, then one row per location in input order, chunk by chunk |
| EnhancedCsvExporter.LocationRowNames | src/shared/enhanced_csv_exporter.py:84-96 | the names column is empty without known residents and the `'; '`-joined names for 1 to 20 |
| EnhancedCsvExporter.SummariseResidents | src/shared/enhanced_csv_exporter.py:157-174 | the inner loop counts resident ids and collects known names |
| EnhancedCsvExporter.BuildCharLocationMap | src/shared/enhanced_csv_exporter.py:148-152 | the first loop builds the character-to-location dict |
| EnhancedCsvExporter.BuildLocationResidents | src/shared/enhanced_csv_exporter.py:156-174 | the second loop builds the location-resident dict |
| EnhancedCsvExporter.CreateRelationshipSummary | src/shared/enhanced_csv_exporter.py:137-183 | the two loops, then the counts and the five-item samples |
| EnhancedCsvExporter.DistinctFilterCard | src/shared/enhanced_csv_exporter.py:180 | as many items pass as there are distinct passing keys |
| EnhancedCsvExporter.RelationshipFacts | src/shared/enhanced_csv_exporter.py:176-183 | distinct characters with a truthy location id; distinct locations whose last entry has a resident |
| EnhancedCsvExporter.ResidentSummaryBounds | src/shared/enhanced_csv_exporter.py:157-173 | never more names than residents counted, and at most five sampled |
| ArgumentParser.DetermineMode | src/shared/argument_parser.py:249-260 | a truthy character id wins, then statistics, characters, locations; nothing selected is a full export |
| ArgumentParser.ValidateArguments | src/shared/argument_parser.py:263-299 | the first failing check raises its ValueError; succeeds exactly when every check passes |
| ArgumentParser.ParseAndValidate | src/shared/argument_parser.py:209-246 | the mode, the validation, then the arguments with defaults |
| ArgumentParser.DefaultsGiveFullExport | src/shared/argument_parser.py:209-246 | no options select the full export |
| ArgumentParser.CharacterIdOverridesFlag | src/shared/argument_parser.py:249-260 | a positive id with one exclusive flag is accepted as the single-character lookup |
| ArgumentParser.NonPositiveCharacterIdRejected | src/shared/argument_parser.py:263-299 | an id of 0 or below is rejected by validation |
| ArgumentParser.TwoFlagsRejected | src/shared/argument_parser.py:263-299 | any two exclusive flags are rejected before other checks |
| Tally.Bump | src/rest/rest_data_processor.py:83-93 | `d[k] = d.get(k, 0) + 1` on an ordered dict: an existing key in place, a new one appended |
| Tally.BumpCounts | src/rest/rest_data_processor.py:83-93 | bumping adds one to `k`'s count and leaves the others alone |
| Tally.CountAll | src/shared/data_processor.py:119-142 | `Counter(xs)`: the counts sum to `|xs|` |
| Tally.CountAllFacts | src/shared/data_processor.py:119-142 | one entry per distinct value, in first-appearance order, with its number of occurrences |
| Tally.SortDesc | src/rest/rest_data_processor.py:96-100 | `sorted(..., reverse=True)`: a stable descending sort, a permutation |
| Tally.SortDescNonIncreasing | src/rest/rest_data_processor.py:96-100 | the result is non-increasing by key |
| Tally.SortDescStable | src/rest/rest_data_processor.py:96-100 | ties keep input order |
| Tally.SumCountsSort | src/rest/rest_data_processor.py:106-116 | sorting a tally keeps its total |
| Tally.MostCommonEntries | src/shared/data_processor.py:119-142 | `most_common()` entries are exactly the tally's |
| Tally.MostCommonFacts | src/shared/data_processor.py:119-142 | every distinct value once with its count, by descending count, ties in first-appearance order |
| Tally.MostCommonRanked | src/shared/data_processor.py:119-142 | `most_common()` has every distinct value exactly once with its count, by descending count, ties in first-appearance order, counts summing to the input length |
| Tally.MostCommonNFacts | src/rest/rest_data_processor.py:106-116 | at most `n` entries, each value once with its exact count, by descending count, none left out more frequent than one kept, all values when fewer than `n`, equal counts (kept or left out) in first-appearance order |
| Tally.PrefixOfCounts | src/rest/rest_data_processor.py:106-116 | a prefix of the complete tally holds true counts, descending, and dominates what it leaves out |
| Tally.PrefixTies | src/rest/rest_data_processor.py:106-116 | a prefix of the complete tally has distinct keys and ranks equal counts, kept or left out, by first appearance |
| Tally.LastWithKey | src/rest/rest_data_processor.py:55 | `{key(x): x for x in s}.get(k)` finds the last element with key `k` |
| Tally.LastWithKeyAt | src/rest/rest_data_processor.py:55 | the element found is the last one with that key |
| Tally.FirstWithKey | src/shared/enhanced_csv_exporter.py:165 | `next(...)` finds the first element with key `k` |
| Tally.Put | src/shared/enhanced_csv_exporter.py:151 | `d[k] = v`: an existing key keeps its place, a new one goes at the end |
| Tally.PutValues | src/shared/enhanced_csv_exporter.py:151 | the other entries stay and `k` gets `v` |
| Tally.PutAllFacts | src/shared/enhanced_csv_exporter.py:148-152 | each key once, no other key, the value of the last element with that key |
| Tally.DistinctKeysCard | src/shared/enhanced_csv_exporter.py:179 | a dict has as many items as distinct keys |
| Text.ParseInt | src/shared/utils.py:66 | `int(s)`: a value exactly for an optional sign and at least one digit, else ValueError; the digits' value, negated after `-` |
| Text.IntToString | src/shared/models.py:46 | `str(i)` |
| Text.IntToStringRoundTrip | src/shared/models.py:46 | `int(str(i)) == i` |
| Text.FindFromFirst | src/shared/utils.py:66 | the first occurrence of `sep` is found |
| Text.RStrip | main.py:65 | `s.rstrip(c)` leaves no trailing `c` |
| Text.Lower | src/shared/data_processor.py:73 | `s.lower()` on ASCII letters |
| Text.LowerEndsWith | src/rest/rest_data_processor.py:145 | a string ending in a lower-case word still contains it once lowered |

## Left out

- The network, sessions, time, logging and `print` are not modelled. Transports are
  parameters, sleeps are recorded durations, and the timing fields (`total_time`) are omitted.
- Floating point: the mapping rate and the completeness score are exact `real`s, and
  `round(…, 2)` is not modelled. `optimization_percentage` is omitted.
- `ProgressTracker` is modelled only by the ZeroDivisionError of `update` when the total is 0.
  Its percentages and its `finish` output are left out.
- JSON values of the wrong type are not modelled. JSON `null` is modelled for the looked-up
  character and location and for the `next` and `prev` links of a list page's `info`.
  Elsewhere records are datatypes whose fields are present or absent.
- Text.ParseInt: Python `int()` also accepts surrounding whitespace, underscores and non-ASCII
  digits; only an optional sign followed by ASCII digits is modelled.
- Text.Lower: only ASCII letters are case-folded.
- `urljoin` in the second REST client and the first client's joining of base and endpoint are
  both modelled as stripping slashes and concatenating. URL resolution in general is not.
- `_get_page_number_from_url` in the first REST client is never called by the core, so it is
  not modelled.
- GraphQL `close` only logs; it is modelled as a no-op. `RestV1.RestClient.Close` and
  `RestV2.RestClient.Close` clear a `sessionOpen` flag.
- `_parse_character` adds `url` to the location dict in place. Here the dict comes back as a
  new value (`Graphql.LocationWithUrl`).
- File output is left out: the CSV writers, `write_enhanced_data`, `os.makedirs` and the
  exporter's exception logging. Only the rows each writer produces are modelled.
- `display_character_details` and `main()` in `main.py` only print and dispatch, so they are
  left out.
- `get_implementation_info` and the `_supports_*`, `_estimate_api_calls` and
  `_get_performance_characteristics` descriptors are not modelled. They are constant
  descriptions with no behaviour.
- MainClient.FollowNext: the script's `while True` loop is bounded by a page budget
  (`maxPages`). A server whose `next` never runs out is covered only up to that budget.
- MainClient.Get: `max_retries` is a natural number, so a negative value, which makes zero
  attempts in Python, is not covered.
- DataProcessor.MostPopulated: `list.sort` sorts in place. It is modelled as a sorted copy,
  since the list is local.
- `location_char_counts` in `create_relationship_summary` is built but never read, so it is
  left out.
- The argument parser's `create_parser`, `_add_*_arguments` and `_get_examples` only build an
  `argparse` parser and help text. The parsed namespace is modelled as a record of the options
  the core reads.
- RestDataProcessor.ProcessCharacters and RestDataProcessor.ProcessLocations: the
  `except Exception` branch is not modelled. `to_dict` and the location entry are total
  functions on a normalised record, so that branch has nothing to catch.
- Utils.RetryWithBackoff: the delay and backoff are natural numbers (the configured 1 and 2).
  Fractional delays are not covered.
- Utils.ExtractIdFromUrl: the contract states when the result is None and what a Some holds,
  but not that every integer tail yields Some. That converse is proved only for the API's own
  URLs (`Utils.ExtractIdFromRestUrl`).
