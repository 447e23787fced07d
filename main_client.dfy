/**
 * The standalone client `RickAndMortyClient` and its CSV row projection: a GET with its own
 * retry loop (429 handling, exponential waits, process exit on the last failure), an id
 * extractor that tolerates a trailing slash, list fetches that follow `info.next` page by
 * page, and a character lookup.
 */
module MainClient {
  import opened Wrappers
  import opened Text
  import opened Utils
  import opened Models
  import opened BaseClient
  import Config

  const BaseUrl: string := "https://rickandmortyapi.com/api"
  const DefaultMaxRetries: nat := 3

  /** `f"{self.base_url}/{endpoint}"`. */
  function EndpointUrl(endpoint: string): string { BaseUrl + "/" + endpoint }

  // ---------------------------------------------------------------------------------------
  // _get

  /** `raise_for_status` raises for client and server errors. */
  predicate IsErrorStatus(status: int) { 400 <= status < 600 }

  /** What one attempt leads to: a decoded body, a sleep before the next attempt, or an exception. */
  datatype Step<+B> = Done(body: Body<B>) | Retry(wait: nat) | Fail(error: Error)

  /** `time.sleep(int(retry_after))`, where `retry_after` is the header or `2 ** attempt`. */
  function RateLimitWait(retryAfter: Option<string>, attempt: nat): (s: Step<nat>)
    ensures s.Retry? || s.Fail?
    ensures retryAfter.None? ==> s == Retry(Pow(2, attempt))
    ensures retryAfter.Some? && ParseInt(retryAfter.value).Some? && ParseInt(retryAfter.value).value >= 0
            ==> s == Retry(ParseInt(retryAfter.value).value)
    ensures s.Fail? ==> s.error.ValueError?
  {
    if retryAfter.None? then Retry(Pow(2, attempt))
    else
      var n := ParseInt(retryAfter.value);
      if n.None? then Fail(ValueError("invalid literal for int() with base 10: '" + retryAfter.value + "'"))
      else if n.value < 0 then Fail(ValueError("sleep length must be non-negative"))
      else Retry(n.value)
  }

  /**
   * One pass of the attempt loop.  A 429 before the last attempt sleeps for the retry-after
   * header (or `2 ** attempt`); a request exception (an error status, a failed transport, a
   * body that is not JSON) sleeps `2 ** attempt` before the last attempt and exits the process
   * with status 1 on it; anything else returns the decoded body.
   */
  function AttemptStep<B>(outcome: Outcome<B>, attempt: nat, maxRetries: nat): (s: Step<B>)
    requires attempt <= maxRetries
    ensures s.Retry? ==> attempt < maxRetries
    ensures s.Fail? ==> (s.error == SystemExit(1) && attempt == maxRetries) || s.error.ValueError?
    ensures s.Done? ==> outcome.Responded? && !IsErrorStatus(outcome.response.status)
                        && !outcome.response.body.NotJson? && s.body == outcome.response.body
  {
    var failed := outcome.Raised?
                  || IsErrorStatus(outcome.response.status)
                  || outcome.response.body.NotJson?;
    if outcome.Responded? && outcome.response.status == 429 && attempt < maxRetries then
      var w := RateLimitWait(outcome.response.retryAfter, attempt);
      if w.Retry? then Retry(w.wait) else Fail(w.error)
    else if failed then
      if attempt < maxRetries then Retry(Pow(2, attempt)) else Fail(SystemExit(1))
    else Done(outcome.response.body)
  }

  /** The run of one `_get`: its outcome, the attempts it made, the sleeps between them. */
  datatype GetRun<+B> = GetRun(result: Result<Body<B>, Error>, attempts: nat, waits: seq<nat>)

  /** The attempt loop from `attempt` on; attempt `k` sees `transport(url, k)`. */
  function GetFrom<B>(transport: (string, nat) -> Outcome<B>, url: string, maxRetries: nat, attempt: nat): GetRun<B>
    requires attempt <= maxRetries
    decreases maxRetries - attempt
  {
    match AttemptStep(transport(url, attempt), attempt, maxRetries)
    case Done(body) => GetRun(Ok(body), attempt + 1, [])
    case Fail(e) => GetRun(Err(e), attempt + 1, [])
    case Retry(w) =>
      var rest := GetFrom(transport, url, maxRetries, attempt + 1);
      GetRun(rest.result, rest.attempts, [w] + rest.waits)
  }

  /** `_get(endpoint, max_retries)`. */
  function GetSpec<B>(transport: (string, nat) -> Outcome<B>, endpoint: string, maxRetries: nat): GetRun<B> {
    GetFrom(transport, EndpointUrl(endpoint), maxRetries, 0)
  }

  /** `_get`: the `for attempt in range(max_retries + 1)` loop. */
  method Get<B>(transport: (string, nat) -> Outcome<B>, endpoint: string, maxRetries: nat)
    returns (result: Result<Body<B>, Error>, attempts: nat, waits: seq<nat>)
    ensures GetRun(result, attempts, waits) == GetSpec(transport, endpoint, maxRetries)
  {
    var url := EndpointUrl(endpoint);
    waits := [];
    var attempt: nat := 0;
    while true
      invariant attempt <= maxRetries
      invariant GetSpec(transport, endpoint, maxRetries)
             == var rest := GetFrom(transport, url, maxRetries, attempt);
                GetRun(rest.result, rest.attempts, waits + rest.waits)
      decreases maxRetries - attempt
    {
      var step := AttemptStep(transport(url, attempt), attempt, maxRetries);
      if step.Done? {
        assert waits + [] == waits;
        return Ok(step.body), attempt + 1, waits;
      } else if step.Fail? {
        assert waits + [] == waits;
        return Err(step.error), attempt + 1, waits;
      }
      assert waits + ([step.wait] + GetFrom(transport, url, maxRetries, attempt + 1).waits)
          == (waits + [step.wait]) + GetFrom(transport, url, maxRetries, attempt + 1).waits;
      waits := waits + [step.wait];
      attempt := attempt + 1;
    }
  }

  /**
   * The loop from `attempt` on makes at most `max_retries + 1` attempts in all and sleeps once
   * between consecutive attempts; the sleep after attempt `k` is the retry-after header when
   * attempt `k` was rate-limited and `2 ** k` otherwise; it fails only by exiting the process
   * after the last attempt or by a bad retry-after header.
   */
  lemma {:induction false} GetFromFacts<B>(transport: (string, nat) -> Outcome<B>, url: string, maxRetries: nat,
                                           attempt: nat)
    requires attempt <= maxRetries
    ensures var run := GetFrom(transport, url, maxRetries, attempt);
      && attempt < run.attempts <= maxRetries + 1
      && |run.waits| == run.attempts - attempt - 1
      && (run.result.Err? ==> (run.result.error == SystemExit(1) && run.attempts == maxRetries + 1)
                              || run.result.error.ValueError?)
      && (forall k :: 0 <= k < |run.waits| ==>
            AttemptStep(transport(url, attempt + k), attempt + k, maxRetries) == Retry(run.waits[k]))
    decreases maxRetries - attempt
  {
    var step := AttemptStep(transport(url, attempt), attempt, maxRetries);
    if step.Retry? {
      GetFromFacts(transport, url, maxRetries, attempt + 1);
      var rest := GetFrom(transport, url, maxRetries, attempt + 1);
      var run := GetFrom(transport, url, maxRetries, attempt);
      assert run.waits == [step.wait] + rest.waits;
      forall k | 0 <= k < |run.waits|
        ensures AttemptStep(transport(url, attempt + k), attempt + k, maxRetries) == Retry(run.waits[k])
      {
        if k > 0 {
          assert run.waits[k] == rest.waits[k - 1];
        }
      }
    }
  }

  /**
   * `_get` makes at most `max_retries + 1` attempts and sleeps once between consecutive ones,
   * each sleep being what the attempt before it asked for; a failing `_get` either exits the
   * process with status 1 after its last attempt or raises the ValueError of a bad header.
   */
  lemma GetContract<B>(transport: (string, nat) -> Outcome<B>, endpoint: string, maxRetries: nat)
    ensures var run := GetSpec(transport, endpoint, maxRetries);
      && 1 <= run.attempts <= maxRetries + 1
      && |run.waits| == run.attempts - 1
      && (run.result.Err? ==> (run.result.error == SystemExit(1) && run.attempts == maxRetries + 1)
                              || run.result.error.ValueError?)
      && (forall k :: 0 <= k < |run.waits| ==>
            AttemptStep(transport(EndpointUrl(endpoint), k), k, maxRetries) == Retry(run.waits[k]))
  {
    GetFromFacts(transport, EndpointUrl(endpoint), maxRetries, 0);
  }

  /**
   * With the default of 3 retries, a server that never answers makes `_get` try 4 times,
   * sleeping 1, 2 and 4 seconds in between, and then exit the process with status 1.
   */
  lemma GetGivesUp<B>(transport: (string, nat) -> Outcome<B>, endpoint: string)
    requires forall k :: transport(EndpointUrl(endpoint), k).Raised?
    ensures GetSpec(transport, endpoint, DefaultMaxRetries) == GetRun(Err(SystemExit(1)), 4, [1, 2, 4])
  {
    var url := EndpointUrl(endpoint);
    assert transport(url, 0).Raised? && transport(url, 1).Raised?;
    assert transport(url, 2).Raised? && transport(url, 3).Raised?;
    assert Pow(2, 2) == 4;
  }

  /**
   * A rate-limited first attempt with `Retry-After: 5` sleeps 5 seconds; one whose header is
   * not an integer raises ValueError at once, which is not retried.
   */
  lemma GetRateLimited<B>(transport: (string, nat) -> Outcome<B>, endpoint: string, header: string)
    requires var o := transport(EndpointUrl(endpoint), 0);
      o.Responded? && o.response.status == 429 && o.response.retryAfter == Some(header)
    ensures var run := GetSpec(transport, endpoint, DefaultMaxRetries);
      && (header == "5" ==> run.attempts >= 2 && run.waits[0] == 5)
      && (ParseInt(header).None? ==> run.attempts == 1 && run.result.Err? && run.result.error.ValueError?)
  {
    assert ParseInt("5") == Some(5) by { assert AllDigits("5"); }
    GetContract(transport, endpoint, DefaultMaxRetries);
  }

  // ---------------------------------------------------------------------------------------
  // extract_location_id

  /**
   * `extract_location_id(url)`: None for an empty URL; otherwise the integer after the last
   * `/` once trailing slashes are stripped, or None when that segment is not an integer.
   */
  function ExtractLocationId(url: string): (r: Option<int>)
    ensures url == "" ==> r.None?
    ensures url != "" ==> r == ParseInt(SplitLast(RStrip(url, '/'), "/"))
  {
    if url == "" then None else ParseInt(SplitLast(RStrip(url, '/'), "/"))
  }

  /** Splitting on `/` keeps the segment after the last `/` when that segment holds none. */
  lemma {:induction false} LastSegment(p: string, d: string)
    requires forall k :: 0 <= k < |d| ==> d[k] != '/'
    ensures SplitLast(p + "/" + d, "/") == d
    decreases |p|
  {
    var s := p + "/" + d;
    assert OccursAt(s, "/", |p|) by { assert s[|p|..|p| + 1] == "/"; }
    var i := FindFrom(s, "/", 0).value;
    if i < |p| {
      assert s[i + 1..] == p[i + 1..] + "/" + d;
      LastSegment(p[i + 1..], d);
    } else {
      assert s[i + 1..] == d;
      NoSlashNoMarker(d, "/");
      assert FindFrom(d, "/", 0).None?;
    }
  }

  /**
   * The extractor reads the id at the end of any URL, with or without trailing slashes, and
   * whatever resource the URL names.
   */
  lemma ExtractLocationIdOfUrl(prefix: string, id: int, slashes: nat)
    ensures ExtractLocationId(prefix + "/" + IntToString(id) + seq(slashes, _ => '/')) == Some(id)
  {
    var d := IntToString(id);
    var core := prefix + "/" + d;
    var url := core + seq(slashes, _ => '/');
    RStripSlashes(core, slashes);
    assert forall k :: 0 <= k < |d| ==> d[k] != '/';
    LastSegment(prefix, d);
    IntToStringRoundTrip(id);
  }

  lemma {:induction false} RStripSlashes(core: string, slashes: nat)
    requires |core| > 0 && core[|core| - 1] != '/'
    ensures RStrip(core + seq(slashes, _ => '/'), '/') == core
  {
    if slashes > 0 {
      var u := core + seq(slashes, _ => '/');
      assert u[..|u| - 1] == core + seq(slashes - 1, _ => '/');
      RStripSlashes(core, slashes - 1);
    } else {
      assert core + seq(0, _ => '/') == core;
    }
  }

  /**
   * The two extractors disagree on a trailing slash: for the API's own location URL with a
   * `/` appended, `extract_location_id` still finds the id while `get_location_id` finds none.
   */
  lemma ExtractorsDisagreeOnTrailingSlash(c: Character, id: int)
    requires "url" in c.location && c.location["url"] == Config.RestBaseUrl + "/location/" + IntToString(id) + "/"
    ensures ExtractLocationId(c.location["url"]) == Some(id)
    ensures GetLocationId(c).None?
  {
    var prefix := Config.RestBaseUrl + "/location";
    assert c.location["url"] == prefix + "/" + IntToString(id) + seq(1, _ => '/');
    ExtractLocationIdOfUrl(prefix, id, 1);
    ExtractIdTrailingSlash(Config.RestBaseUrl + "/location/" + IntToString(id), "location");
  }

  // ---------------------------------------------------------------------------------------
  // The character and location projections of fetch_all_characters / fetch_all_locations

  /** A character as `fetch_all_characters` keeps it. */
  datatype CharacterRecord = CharacterRecord(
    id: int, name: string, status: string, species: string, type_: string, gender: string,
    originId: Option<int>, originName: string, locationId: Option<int>, locationName: string)

  /** A location as `fetch_all_locations` keeps it. */
  datatype LocationRecord = LocationRecord(id: int, name: string, type_: string, dimension: string)

  /** `d[key]` on a string-valued dict. */
  function MapKey(d: map<string, string>, key: string): (r: Result<string, Error>)
    ensures r.Ok? <==> key in d
    ensures r.Ok? ==> r.value == d[key]
    ensures r.Err? ==> r.error == KeyError(key)
  {
    if key in d then Ok(d[key]) else Err(KeyError(key))
  }

  /**
   * The `character_data` dict: the fields read in order (a missing one raises KeyError), with
   * the origin and location ids taken from their URLs by `extract_location_id`.
   */
  function ProjectCharacter(c: RawCharacter): (r: Result<CharacterRecord, Error>)
    ensures r.Ok? <==> (&& c.id.Some? && c.name.Some? && c.status.Some? && c.species.Some?
                        && c.type_.Some? && c.gender.Some?
                        && c.origin.Some? && c.origin.value.url.Some? && c.origin.value.name.Some?
                        && c.location.Some? && "url" in c.location.value && "name" in c.location.value)
    ensures r.Err? ==> r.error.KeyError?
    ensures r.Ok? ==> && r.value.id == c.id.value && r.value.name == c.name.value
                      && r.value.status == c.status.value && r.value.species == c.species.value
                      && r.value.type_ == c.type_.value && r.value.gender == c.gender.value
                      && r.value.originName == c.origin.value.name.value
                      && r.value.locationName == c.location.value["name"]
    ensures r.Ok? ==> r.value.originId == ExtractLocationId(c.origin.value.url.value)
                      && r.value.locationId == ExtractLocationId(c.location.value["url"])
  {
    var id :- Key(c.id, "id");
    var name :- Key(c.name, "name");
    var status :- Key(c.status, "status");
    var species :- Key(c.species, "species");
    var type_ :- Key(c.type_, "type");
    var gender :- Key(c.gender, "gender");
    var origin :- Key(c.origin, "origin");
    var originUrl :- Key(origin.url, "url");
    var originName :- Key(origin.name, "name");
    var location :- Key(c.location, "location");
    var locationUrl :- MapKey(location, "url");
    var locationName :- MapKey(location, "name");
    Ok(CharacterRecord(id, name, status, species, type_, gender, ExtractLocationId(originUrl), originName,
                       ExtractLocationId(locationUrl), locationName))
  }

  /** The `location_data` dict: id, name, type and dimension, each required. */
  function ProjectLocation(l: RawLocation): (r: Result<LocationRecord, Error>)
    ensures r.Ok? <==> l.id.Some? && l.name.Some? && l.type_.Some? && l.dimension.Some?
    ensures r.Err? ==> r.error.KeyError?
    ensures r.Ok? ==> r.value == LocationRecord(l.id.value, l.name.value, l.type_.value, l.dimension.value)
  {
    var id :- Key(l.id, "id");
    var name :- Key(l.name, "name");
    var type_ :- Key(l.type_, "type");
    var dimension :- Key(l.dimension, "dimension");
    Ok(LocationRecord(id, name, type_, dimension))
  }

  /** A character whose location URL is the API's URL for location `n` is projected with location id `n`. */
  lemma ProjectedLocationId(c: RawCharacter, n: int)
    requires ProjectCharacter(c).Ok?
    requires c.location.value["url"] == Config.RestBaseUrl + "/location/" + IntToString(n)
    ensures ProjectCharacter(c).value.locationId == Some(n)
  {
    var prefix := Config.RestBaseUrl + "/location";
    assert c.location.value["url"] == prefix + "/" + IntToString(n) + seq(0, _ => '/');
    ExtractLocationIdOfUrl(prefix, n, 0);
  }

  // ---------------------------------------------------------------------------------------
  // The cursor-driven list fetches

  const NotIndexable: Error := TypeError("the response is not a JSON object")

  /**
   * `if data['info']['next']:`: a missing `next` key raises KeyError; `null` (the last page)
   * and the empty string are falsy, any other link truthy.
   */
  function NextTruthy(next: JsonField<string>): (r: Result<bool, Error>)
    ensures r.Err? <==> next.Missing?
    ensures r.Err? ==> r.error == KeyError("next")
    ensures r == Ok(true) <==> next.Present? && next.value != ""
  {
    match next
    case Missing => Err(KeyError("next"))
    case Null => Ok(false)
    case Present(link) => Ok(link != "")
  }

  /**
   * One page of a cursor fetch: the records of `data['results']`, projected in order (the
   * first failure raises), and whether `data['info']['next']` is truthy.
   */
  function PageRecords<B, T>(body: Body<Page<B>>, project: B -> Result<T, Error>): (r: Result<(seq<T>, bool), Error>)
    ensures r.Ok? ==> body.JsonObject? && body.value.results.Some? && body.value.info.Some?
                      && !body.value.info.value.next.Missing?
    ensures r.Ok? ==> ParseItems(body.value.results.value, project) == Ok(r.value.0)
                      && r.value.1 == (body.value.info.value.next.Present? && body.value.info.value.next.value != "")
    ensures body.JsonObject? && body.value.results.None? ==> r == Err(KeyError("results"))
    ensures && body.JsonObject? && body.value.results.Some?
            && ParseItems(body.value.results.value, project).Ok?
            && (body.value.info.None? || body.value.info.value.next.Missing?)
            ==> r.Err? && r.error.KeyError? && r.error.key in {"info", "next"}
  {
    if !body.JsonObject? then Err(NotIndexable)
    else
      var results :- Key(body.value.results, "results");
      var records :- ParseItems(results, project);
      var info :- Key(body.value.info, "info");
      var more :- NextTruthy(info.next);
      Ok((records, more))
  }

  /** The endpoint of page `page` of a list resource: `character?page=N`, `location?page=N`. */
  function PageEndpoint(resource: string, page: int): string { resource + "?page=" + IntToString(page) }

  /** `_get` of a list page followed by the page's records and its `next` flag. */
  function PageAt<B, T>(transport: (string, nat) -> Outcome<Page<B>>, resource: string,
                        project: B -> Result<T, Error>, page: int): Result<(seq<T>, bool), Error>
  {
    var g := GetSpec(transport, PageEndpoint(resource, page), DefaultMaxRetries);
    if g.result.Err? then Err(g.result.error) else PageRecords(g.result.value, project)
  }

  /** Every page of one resource, as the cursor fetch requests them. */
  function PagesOf<B, T>(transport: (string, nat) -> Outcome<Page<B>>, resource: string,
                         project: B -> Result<T, Error>): PageFn<T>
  {
    p => PageAt(transport, resource, project, p)
  }

  /** One page of a cursor fetch: its records and whether its `next` was truthy, or the error it raised. */
  type PageFn<!T> = int -> Result<(seq<T>, bool), Error>

  /**
   * A cursor fetch: its outcome, or None when it had not met a last page within the pages
   * the model lets it request, and the pages requested, in order.
   */
  datatype CursorRun<+T> = CursorRun(result: Option<Result<seq<T>, Error>>, requested: seq<int>)

  /** `while True: …; if data['info']['next']: page += 1 else: break`, from `page` on. */
  function CursorFrom<T>(pageAt: PageFn<T>, page: int, fuel: nat): CursorRun<T>
    decreases fuel
  {
    if fuel == 0 then CursorRun(None, [])
    else
      var r := pageAt(page);
      if r.Err? then CursorRun(Some(Err(r.error)), [page])
      else if !r.value.1 then CursorRun(Some(Ok(r.value.0)), [page])
      else
        var rest := CursorFrom(pageAt, page + 1, fuel - 1);
        CursorRun(if rest.result.Some? then Some(Prepend(r.value.0, rest.result.value)) else None,
                  [page] + rest.requested)
  }

  /** The cursor fetch of a list resource, from page 1. */
  function CursorSpec<B, T>(transport: (string, nat) -> Outcome<Page<B>>, resource: string,
                            project: B -> Result<T, Error>, maxPages: nat): CursorRun<T>
  {
    CursorFrom(PagesOf(transport, resource, project), 1, maxPages)
  }

  /** Prefixes the records already kept and the pages already requested to the rest of a fetch. */
  function AfterPages<T>(all: seq<T>, requested: seq<int>, run: CursorRun<T>): CursorRun<T> {
    CursorRun(if run.result.Some? then Some(Prepend(all, run.result.value)) else None, requested + run.requested)
  }

  lemma AfterNothing<T>(run: CursorRun<T>)
    ensures AfterPages([], [], run) == run
  {
    assert [] + run.requested == run.requested;
    if run.result.Some? && run.result.value.Ok? {
      assert [] + run.result.value.value == run.result.value.value;
    }
  }

  /** Unfolds one page of a cursor fetch that continues past it. */
  lemma CursorContinues<T>(pageAt: PageFn<T>, page: int, fuel: nat, all: seq<T>, requested: seq<int>, records: seq<T>)
    requires fuel > 0 && pageAt(page) == Ok((records, true))
    ensures AfterPages(all, requested, CursorFrom(pageAt, page, fuel))
         == AfterPages(all + records, requested + [page], CursorFrom(pageAt, page + 1, fuel - 1))
  {
    var rest := CursorFrom(pageAt, page + 1, fuel - 1);
    assert requested + ([page] + rest.requested) == (requested + [page]) + rest.requested;
    if rest.result.Some? {
      PrependPrepend(all, records, rest.result.value);
    }
  }

  /** Unfolds one page of a cursor fetch that ends on it. */
  lemma CursorEnds<T>(pageAt: PageFn<T>, page: int, fuel: nat, all: seq<T>, requested: seq<int>)
    requires fuel > 0 && !(pageAt(page).Ok? && pageAt(page).value.1)
    ensures (var r := pageAt(page);
             AfterPages(all, requested, CursorFrom(pageAt, page, fuel))
             == CursorRun(Some(if r.Ok? then Ok(all + r.value.0) else Err(r.error)), requested + [page]))
  {
  }

  /**
   * The cursor loop, requesting at most `maxPages` pages; `pageAt(page)` is one pass's
   * `self._get(f"{resource}?page={page}")` with the records it keeps.
   */
  method FollowNext<B, T>(transport: (string, nat) -> Outcome<Page<B>>, resource: string,
                          project: B -> Result<T, Error>, maxPages: nat)
    returns (result: Option<Result<seq<T>, Error>>, requested: seq<int>)
    ensures CursorRun(result, requested) == CursorSpec(transport, resource, project, maxPages)
  {
    result, requested := FollowPages(PagesOf(transport, resource, project), maxPages);
  }

  method FollowPages<T>(pageAt: PageFn<T>, maxPages: nat)
    returns (result: Option<Result<seq<T>, Error>>, requested: seq<int>)
    ensures CursorRun(result, requested) == CursorFrom(pageAt, 1, maxPages)
  {
    var all: seq<T> := [];
    requested := [];
    var page := 1;
    var fuel := maxPages;
    ghost var run := CursorFrom(pageAt, 1, maxPages);
    AfterNothing(run);
    while fuel > 0
      invariant run == AfterPages(all, requested, CursorFrom(pageAt, page, fuel))
      decreases fuel
    {
      var records := pageAt(page);
      if records.Err? || !records.value.1 {
        CursorEnds(pageAt, page, fuel, all, requested);
        requested := requested + [page];
        if records.Err? {
          return Some(Err(records.error)), requested;
        }
        return Some(Ok(all + records.value.0)), requested;
      }
      CursorContinues(pageAt, page, fuel, all, requested, records.value.0);
      requested := requested + [page];
      all := all + records.value.0;
      page := page + 1;
      fuel := fuel - 1;
    }
    assert requested + [] == requested;
    return None, requested;
  }

  /** Page `page` was fetched and its `next` was truthy. */
  predicate Continues<T>(pageAt: PageFn<T>, page: int) {
    pageAt(page).Ok? && pageAt(page).value.1
  }

  /** The records of pages `lo` up to `hi`, in page order. */
  function CollectRecords<T>(pageAt: PageFn<T>, lo: int, hi: int): seq<T>
    decreases hi - lo
  {
    if hi <= lo then []
    else (if pageAt(lo).Ok? then pageAt(lo).value.0 else []) + CollectRecords(pageAt, lo + 1, hi)
  }

  /**
   * The shape of every cursor fetch: consecutive pages from `page`, at most `fuel` of them;
   * every page but the last had a truthy `next`; the fetch ends on a page that failed or had
   * no `next`, or runs out of pages having seen only truthy ones.
   */
  lemma CursorFacts<T>(pageAt: PageFn<T>, page: int, fuel: nat)
    ensures var run := CursorFrom(pageAt, page, fuel);
      && run.requested == Range(page, page + |run.requested|)
      && |run.requested| <= fuel
      && (fuel > 0 ==> |run.requested| >= 1)
      && (forall k :: 0 <= k < |run.requested| - 1 ==> Continues(pageAt, run.requested[k]))
      && (run.result.None? ==>
            |run.requested| == fuel && forall k :: 0 <= k < |run.requested| ==> Continues(pageAt, run.requested[k]))
      && (run.result.Some? ==>
            |run.requested| >= 1 && !Continues(pageAt, page + |run.requested| - 1))
  {
    CursorRequested(pageAt, page, fuel);
    CursorNextTruthy(pageAt, page, fuel);
    var run := CursorFrom(pageAt, page, fuel);
    assert forall k :: 0 <= k < |run.requested| ==> run.requested[k] == page + k;
  }

  /** The pages a cursor fetch requests: consecutive from `page`, at most `fuel`, ending where it stopped. */
  lemma {:induction false} CursorRequested<T>(pageAt: PageFn<T>, page: int, fuel: nat)
    ensures var run := CursorFrom(pageAt, page, fuel);
      && run.requested == Range(page, page + |run.requested|)
      && |run.requested| <= fuel
      && (fuel > 0 ==> |run.requested| >= 1)
      && (run.result.None? ==> |run.requested| == fuel)
      && (run.result.Some? ==> |run.requested| >= 1 && !Continues(pageAt, page + |run.requested| - 1))
    decreases fuel
  {
    if fuel > 0 && Continues(pageAt, page) {
      var rest := CursorFrom(pageAt, page + 1, fuel - 1);
      CursorRequested(pageAt, page + 1, fuel - 1);
      assert [page] + Range(page + 1, page + 1 + |rest.requested|) == Range(page, page + 1 + |rest.requested|);
    }
  }

  /** Every page a cursor fetch moved on from had a truthy `next`; all of them did when it ran out. */
  lemma {:induction false} CursorNextTruthy<T>(pageAt: PageFn<T>, page: int, fuel: nat)
    ensures var run := CursorFrom(pageAt, page, fuel);
      && (forall q :: page <= q < page + |run.requested| - 1 ==> Continues(pageAt, q))
      && (run.result.None? ==> forall q :: page <= q < page + |run.requested| ==> Continues(pageAt, q))
    decreases fuel
  {
    if fuel > 0 && Continues(pageAt, page) {
      CursorNextTruthy(pageAt, page + 1, fuel - 1);
    }
  }

  /**
   * A cursor fetch whose pages before `last` all have a truthy `next` and whose page `last`
   * does not (or fails), with enough pages allowed, requests exactly pages `page..last` and
   * returns their records in page order, or page `last`'s error.
   */
  lemma {:induction false} CursorStopsAt<T>(pageAt: PageFn<T>, page: int, last: int, fuel: nat)
    requires page <= last && last - page < fuel
    requires forall q :: page <= q < last ==> Continues(pageAt, q)
    requires !Continues(pageAt, last)
    ensures var run := CursorFrom(pageAt, page, fuel);
      && run.requested == Range(page, last + 1)
      && run.result == Some(if pageAt(last).Ok? then Ok(CollectRecords(pageAt, page, last + 1)) else Err(pageAt(last).error))
    decreases last - page
  {
    if page < last {
      assert Continues(pageAt, page);
      CursorStopsAt(pageAt, page + 1, last, fuel - 1);
    } else {
      assert CollectRecords(pageAt, page + 1, last + 1) == [];
      if pageAt(last).Ok? {
        assert pageAt(last).value.0 + [] == pageAt(last).value.0;
      }
    }
  }

  /** `fetch_all_characters`. */
  method FetchAllCharacters(transport: (string, nat) -> Outcome<Page<RawCharacter>>, maxPages: nat)
    returns (result: Option<Result<seq<CharacterRecord>, Error>>, requested: seq<int>)
    ensures CursorRun(result, requested) == CursorSpec(transport, "character", ProjectCharacter, maxPages)
  {
    result, requested := FollowNext(transport, "character", ProjectCharacter, maxPages);
  }

  /** `fetch_all_locations`. */
  method FetchAllLocations(transport: (string, nat) -> Outcome<Page<RawLocation>>, maxPages: nat)
    returns (result: Option<Result<seq<LocationRecord>, Error>>, requested: seq<int>)
    ensures CursorRun(result, requested) == CursorSpec(transport, "location", ProjectLocation, maxPages)
  {
    result, requested := FollowNext(transport, "location", ProjectLocation, maxPages);
  }

  // ---------------------------------------------------------------------------------------
  // get_character_details

  /** A character as the API sent it, and its location's response when one was fetched. */
  datatype Details = Details(character: RawCharacter, location: Option<Body<RawLocation>>)

  /** The outcome of `get_character_details` and the endpoints it requested, in order. */
  datatype DetailsRun = DetailsRun(result: Result<Details, Error>, requested: seq<string>)

  function CharacterEndpoint(characterId: int): string { "character/" + IntToString(characterId) }

  function LocationEndpoint(locationId: int): string { "location/" + IntToString(locationId) }

  /**
   * `get_character_details`: the character, then, when `extract_location_id` gives a truthy id
   * for its location URL, that location; a failure of either request propagates.
   */
  function CharacterDetails(characters: (string, nat) -> Outcome<RawCharacter>,
                            locations: (string, nat) -> Outcome<RawLocation>, characterId: int): (r: DetailsRun)
    ensures |r.requested| in {1, 2} && r.requested[0] == CharacterEndpoint(characterId)
    ensures var c := GetSpec(characters, CharacterEndpoint(characterId), DefaultMaxRetries).result;
      && (c.Err? ==> r == DetailsRun(Err(c.error), [CharacterEndpoint(characterId)]))
      && (c.Ok? && !c.value.JsonObject? ==> r.result.Err? && |r.requested| == 1)
      && (c.Ok? && c.value.JsonObject? ==>
            var raw := c.value.value;
            && (raw.location.None? ==> r.result == Err(KeyError("location")))
            && (raw.location.Some? && "url" !in raw.location.value ==> r.result == Err(KeyError("url")))
            && (raw.location.Some? && "url" in raw.location.value ==>
                  var id := ExtractLocationId(raw.location.value["url"]);
                  && (|r.requested| == 2 <==> TruthyId(id))
                  && (TruthyId(id) ==> r.requested[1] == LocationEndpoint(id.value))
                  && (r.result.Ok? ==> r.result.value.character == raw
                                       && (r.result.value.location.Some? <==> TruthyId(id)))))
  {
    var first := [CharacterEndpoint(characterId)];
    var c := GetSpec(characters, CharacterEndpoint(characterId), DefaultMaxRetries).result;
    if c.Err? then DetailsRun(Err(c.error), first)
    else if !c.value.JsonObject? then DetailsRun(Err(NotIndexable), first)
    else
      var raw := c.value.value;
      if raw.location.None? then DetailsRun(Err(KeyError("location")), first)
      else if "url" !in raw.location.value then DetailsRun(Err(KeyError("url")), first)
      else
        var id := ExtractLocationId(raw.location.value["url"]);
        if !TruthyId(id) then DetailsRun(Ok(Details(raw, None)), first)
        else
          var l := GetSpec(locations, LocationEndpoint(id.value), DefaultMaxRetries).result;
          DetailsRun(if l.Ok? then Ok(Details(raw, Some(l.value))) else Err(l.error),
                     first + [LocationEndpoint(id.value)])
  }

  /**
   * A character whose location URL is the API's URL for location `n` (n != 0), even with a
   * trailing slash, has location `n` fetched as its second request.
   */
  lemma DetailsFetchLocation(characters: (string, nat) -> Outcome<RawCharacter>,
                             locations: (string, nat) -> Outcome<RawLocation>, characterId: int,
                             n: int, slashes: nat)
    requires n != 0
    requires var c := GetSpec(characters, CharacterEndpoint(characterId), DefaultMaxRetries).result;
      && c.Ok? && c.value.JsonObject? && c.value.value.location.Some?
      && "url" in c.value.value.location.value
      && c.value.value.location.value["url"] == Config.RestBaseUrl + "/location/" + IntToString(n) + seq(slashes, _ => '/')
    ensures CharacterDetails(characters, locations, characterId).requested
         == [CharacterEndpoint(characterId), LocationEndpoint(n)]
  {
    var url := Config.RestBaseUrl + "/location/" + IntToString(n) + seq(slashes, _ => '/');
    assert url == (Config.RestBaseUrl + "/location") + "/" + IntToString(n) + seq(slashes, _ => '/');
    ExtractLocationIdOfUrl(Config.RestBaseUrl + "/location", n, slashes);
  }

  /** A character with an empty location URL is fetched alone and reported with no location. */
  lemma DetailsWithoutLocation(characters: (string, nat) -> Outcome<RawCharacter>,
                               locations: (string, nat) -> Outcome<RawLocation>, characterId: int)
    requires var c := GetSpec(characters, CharacterEndpoint(characterId), DefaultMaxRetries).result;
      && c.Ok? && c.value.JsonObject? && c.value.value.location.Some?
      && "url" in c.value.value.location.value && c.value.value.location.value["url"] == ""
    ensures var r := CharacterDetails(characters, locations, characterId);
      r.requested == [CharacterEndpoint(characterId)] && r.result.Ok? && r.result.value.location.None?
  {
  }

  // ---------------------------------------------------------------------------------------
  // write_characters_csv / write_locations_csv

  const CharacterCsvFields: seq<string> :=
    ["id", "name", "status", "species", "type", "gender", "origin.name", "origin.id", "location.name", "location.id"]

  const LocationCsvFields: seq<string> := ["id", "name", "type", "dimension"]

  /**
   * One `characters.csv` row, in `fieldnames` order; a falsy origin or location id is written
   * as the empty string.
   */
  function CharacterCsvRow(c: CharacterRecord): (row: seq<string>)
    ensures |row| == |CharacterCsvFields|
    ensures ParseInt(row[0]) == Some(c.id)
    ensures row[1..7] == [c.name, c.status, c.species, c.type_, c.gender, c.originName] && row[8] == c.locationName
    ensures row[7] == "" <==> !TruthyId(c.originId)
    ensures row[7] != "" ==> ParseInt(row[7]) == c.originId
    ensures row[9] == "" <==> !TruthyId(c.locationId)
    ensures row[9] != "" ==> ParseInt(row[9]) == c.locationId
  {
    IntToStringRoundTrip(c.id);
    [IntToString(c.id), c.name, c.status, c.species, c.type_, c.gender,
     c.originName, IdField(c.originId), c.locationName, IdField(c.locationId)]
  }

  /** One `locations.csv` row: the record's four fields in `fieldnames` order. */
  function LocationCsvRow(l: LocationRecord): (row: seq<string>)
    ensures |row| == |LocationCsvFields|
    ensures ParseInt(row[0]) == Some(l.id)
    ensures row[1..] == [l.name, l.type_, l.dimension]
  {
    IntToStringRoundTrip(l.id);
    [IntToString(l.id), l.name, l.type_, l.dimension]
  }

  /**
   * From the API to the file: a character whose location URL is the API's URL for location
   * `n` (n != 0) has `n` in its `location.id` column.
   */
  lemma CsvLocationColumn(c: RawCharacter, n: int)
    requires n != 0 && ProjectCharacter(c).Ok?
    requires c.location.value["url"] == Config.RestBaseUrl + "/location/" + IntToString(n)
    ensures ParseInt(CharacterCsvRow(ProjectCharacter(c).value)[9]) == Some(n)
  {
    ProjectedLocationId(c, n);
  }
}
