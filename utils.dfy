/**
 * Shared helpers: the retry decorator, URL id extraction, response validation, HTTP error
 * classification and list chunking.
 */
module Utils {
  import opened Wrappers
  import opened Text
  import Config

  /** How a transport call can fail before a response arrives (the `requests` exception family). */
  datatype TransportFailure =
    | Timeout(detail: string)
    | ConnectionFailure(detail: string)
    | OtherFailure(detail: string)

  /**
   * The exceptions the pipeline raises or lets through. `ApiError` is the application's own
   * `APIError(message, status_code)`; `HttpError` is what `raise_for_status` raises.
   */
  datatype Error =
    | ApiError(message: string, status: Option<int>)
    | RequestException(failure: TransportFailure)
    | HttpError(code: int, detail: string)
    | KeyError(key: string)
    | ValueError(message: string)
    | TypeError(message: string)
    | ZeroDivisionError
    | SystemExit(exitCode: int)

  /** Python's `str(e)` for each kind of exception. */
  function Message(e: Error): string {
    match e
    case ApiError(m, _) => m
    case RequestException(f) => f.detail
    case HttpError(_, d) => d
    case KeyError(k) => "'" + k + "'"
    case ValueError(m) => m
    case TypeError(m) => m
    case ZeroDivisionError => "division by zero"
    case SystemExit(c) => IntToString(c)
  }

  /** `data[key]` on a decoded JSON object, where None stands for an absent key. */
  function Key<T>(o: Option<T>, key: string): (r: Result<T, Error>)
    ensures r.Ok? <==> o.Some?
    ensures r.Ok? ==> r.value == o.value
    ensures r.Err? ==> r.error == KeyError(key)
  {
    if o.Some? then Ok(o.value) else Err(KeyError(key))
  }

  /** `isinstance(e, (RequestException, Timeout, ConnectionError))`: the decorator's default tuple. */
  predicate IsRequestException(e: Error) {
    e.RequestException? || e.HttpError?
  }

  /** The decoded body of a response: `response.json()` fails, yields a non-dict, or yields a dict. */
  datatype Body<+B> = NotJson | JsonNonObject | JsonObject(value: B)

  datatype HttpResponse<+B> = HttpResponse(status: int, body: Body<B>, text: string, retryAfter: Option<string>)

  /** What one transport call produces: a response, or a raised transport exception. */
  datatype Outcome<+B> = Responded(response: HttpResponse<B>) | Raised(failure: TransportFailure)

  function Pow(b: nat, e: nat): nat {
    if e == 0 then 1 else b * Pow(b, e - 1)
  }

  // ---------------------------------------------------------------------------------------
  // retry_with_backoff

  /** What a decorated call does: its final result, how many times it ran the body, the sleeps. */
  datatype RetryRun<+T> = RetryRun(result: Result<T, Error>, calls: nat, waits: seq<nat>)

  /** Raising `None` (the `last_exception` of a loop that never ran) is itself a TypeError. */
  const RaiseNone: Error := TypeError("exceptions must derive from BaseException")

  /**
   * The decorator's loop from attempt `attempt` on, with `last` the last caught exception.
   * Attempt `k` runs `call(k)`: the body sees a possibly different world on each attempt.
   */
  function RetryFrom<T>(call: nat -> Result<T, Error>, maxRetries: int, delay: nat, backoff: nat,
                        retryable: Error -> bool, attempt: nat, last: Option<Error>): RetryRun<T>
    decreases maxRetries - attempt
  {
    if attempt >= maxRetries then
      RetryRun(if last.Some? then Err(last.value) else Err(RaiseNone), attempt, [])
    else
      var outcome := call(attempt);
      if outcome.Ok? || !retryable(outcome.error) then RetryRun(outcome, attempt + 1, [])
      else
        var rest := RetryFrom(call, maxRetries, delay, backoff, retryable, attempt + 1, Some(outcome.error));
        if attempt < maxRetries - 1 then rest.(waits := [delay * Pow(backoff, attempt)] + rest.waits)
        else rest
  }

  /** `retry_with_backoff(max_retries, delay, backoff, exceptions)(func)()`. */
  function RetrySpec<T>(call: nat -> Result<T, Error>, maxRetries: int, delay: nat, backoff: nat,
                        retryable: Error -> bool): RetryRun<T>
  {
    RetryFrom(call, maxRetries, delay, backoff, retryable, 0, None)
  }

  /** Prefixes the sleeps already taken to the run of the remaining attempts. */
  function AfterWaits<T>(waits: seq<nat>, run: RetryRun<T>): RetryRun<T> {
    run.(waits := waits + run.waits)
  }

  /** The decorator's wrapper, as the loop it runs. */
  method RetryWithBackoff<T>(call: nat -> Result<T, Error>, maxRetries: int, delay: nat, backoff: nat,
                             retryable: Error -> bool)
    returns (result: Result<T, Error>, calls: nat, waits: seq<nat>)
    ensures RetryRun(result, calls, waits) == RetrySpec(call, maxRetries, delay, backoff, retryable)
  {
    var last: Option<Error> := None;
    waits := [];
    var attempt: nat := 0;
    while attempt < maxRetries
      invariant attempt <= if maxRetries < 0 then 0 else maxRetries
      invariant RetrySpec(call, maxRetries, delay, backoff, retryable)
             == AfterWaits(waits, RetryFrom(call, maxRetries, delay, backoff, retryable, attempt, last))
    {
      var outcome := call(attempt);
      if outcome.Ok? || !retryable(outcome.error) {
        return outcome, attempt + 1, waits;
      }
      last := Some(outcome.error);
      if attempt < maxRetries - 1 {
        waits := waits + [delay * Pow(backoff, attempt)];
      }
      attempt := attempt + 1;
    }
    result := if last.Some? then Err(last.value) else Err(RaiseNone);
    calls := attempt;
  }

  lemma RetryFromFacts<T>(call: nat -> Result<T, Error>, maxRetries: int, delay: nat, backoff: nat,
                          retryable: Error -> bool, attempt: nat, last: Option<Error>)
    requires attempt > 0 ==> call(attempt - 1).Err? && last == Some(call(attempt - 1).error)
    requires attempt <= maxRetries || attempt == 0
    ensures var run := RetryFrom(call, maxRetries, delay, backoff, retryable, attempt, last);
      && attempt <= run.calls
      && (run.calls <= maxRetries || run.calls == 0)
      && (forall k :: attempt <= k < run.calls - 1 ==> call(k).Err? && retryable(call(k).error))
      && (run.calls >= 1 ==> run.result == call(run.calls - 1))
      && (run.calls == 0 ==> run.result == if last.Some? then Err(last.value) else Err(RaiseNone))
      && (run.calls < maxRetries ==>
            run.calls >= 1 && (call(run.calls - 1).Ok? || !retryable(call(run.calls - 1).error)))
      && |run.waits| == (if run.calls <= attempt then 0 else run.calls - 1 - attempt)
      && (forall k :: 0 <= k < |run.waits| ==> run.waits[k] == delay * Pow(backoff, k + attempt))
  {
    RetryFromCalls(call, maxRetries, delay, backoff, retryable, attempt, last);
    RetryFromWaits(call, maxRetries, delay, backoff, retryable, attempt, last);
  }

  /** The runs of the body from `attempt` on, and which of them the result comes from. */
  lemma {:induction false} RetryFromCalls<T>(call: nat -> Result<T, Error>, maxRetries: int, delay: nat,
                                             backoff: nat, retryable: Error -> bool, attempt: nat,
                                             last: Option<Error>)
    requires attempt > 0 ==> call(attempt - 1).Err? && last == Some(call(attempt - 1).error)
    requires attempt <= maxRetries || attempt == 0
    ensures var run := RetryFrom(call, maxRetries, delay, backoff, retryable, attempt, last);
      && attempt <= run.calls
      && (run.calls <= maxRetries || run.calls == 0)
      && (forall k :: attempt <= k < run.calls - 1 ==> call(k).Err? && retryable(call(k).error))
      && (run.calls >= 1 ==> run.result == call(run.calls - 1))
      && (run.calls == 0 ==> run.result == if last.Some? then Err(last.value) else Err(RaiseNone))
      && (run.calls < maxRetries ==>
            run.calls >= 1 && (call(run.calls - 1).Ok? || !retryable(call(run.calls - 1).error)))
    decreases maxRetries - attempt
  {
    if attempt < maxRetries {
      var outcome := call(attempt);
      if outcome.Err? && retryable(outcome.error) {
        RetryFromCalls(call, maxRetries, delay, backoff, retryable, attempt + 1, Some(outcome.error));
      }
    }
  }

  /** The sleeps from `attempt` on: one after each run but the last, growing by `backoff`. */
  lemma {:induction false} RetryFromWaits<T>(call: nat -> Result<T, Error>, maxRetries: int, delay: nat,
                                             backoff: nat, retryable: Error -> bool, attempt: nat,
                                             last: Option<Error>)
    requires attempt <= maxRetries || attempt == 0
    ensures var run := RetryFrom(call, maxRetries, delay, backoff, retryable, attempt, last);
      && attempt <= run.calls
      && (run.calls <= maxRetries || run.calls == 0)
      && |run.waits| == (if run.calls <= attempt then 0 else run.calls - 1 - attempt)
      && (forall k :: 0 <= k < |run.waits| ==> run.waits[k] == delay * Pow(backoff, k + attempt))
    decreases maxRetries - attempt
  {
    if attempt < maxRetries {
      var outcome := call(attempt);
      if outcome.Err? && retryable(outcome.error) {
        RetryFromWaits(call, maxRetries, delay, backoff, retryable, attempt + 1, Some(outcome.error));
      }
    }
  }

  /**
   * What the decorator promises: at most `max_retries` runs of the body; every run but the
   * last failed with a retried exception; the result is the last run's (its return value
   * unchanged, or its exception re-raised); it stops before `max_retries` only on success or on
   * an exception outside the tuple; after run `k` it sleeps `delay * backoff^k`, except after
   * the last run.  With `max_retries <= 0` the body never runs and raising `None` fails.
   */
  lemma RetryContract<T>(call: nat -> Result<T, Error>, maxRetries: int, delay: nat, backoff: nat,
                         retryable: Error -> bool)
    ensures var run := RetrySpec(call, maxRetries, delay, backoff, retryable);
      && (maxRetries <= 0 ==> run == RetryRun(Err(RaiseNone), 0, []))
      && (maxRetries > 0 ==> 1 <= run.calls <= maxRetries && run.result == call(run.calls - 1))
      && (forall k :: 0 <= k < run.calls - 1 ==> call(k).Err? && retryable(call(k).error))
      && (0 < run.calls < maxRetries ==> call(run.calls - 1).Ok? || !retryable(call(run.calls - 1).error))
      && |run.waits| == (if run.calls == 0 then 0 else run.calls - 1)
      && (forall k :: 0 <= k < |run.waits| ==> run.waits[k] == delay * Pow(backoff, k))
  {
    RetryFromFacts(call, maxRetries, delay, backoff, retryable, 0, None);
  }

  /** An exception outside the retried tuple on the first run propagates with no retry and no sleep. */
  lemma RetryNonRetryableFirst<T>(call: nat -> Result<T, Error>, maxRetries: int, delay: nat,
                                  backoff: nat, retryable: Error -> bool)
    requires maxRetries >= 1 && call(0).Err? && !retryable(call(0).error)
    ensures RetrySpec(call, maxRetries, delay, backoff, retryable) == RetryRun(call(0), 1, [])
  {
  }

  /**
   * With the configured defaults (3 runs, delay 1, backoff 2) a body that always raises a
   * request exception runs three times, sleeps 1 then 2 seconds, and re-raises the third error.
   */
  lemma RetryDefaultsAllFail<T>(call: nat -> Result<T, Error>)
    requires forall k :: 0 <= k < Config.MaxRetries ==> call(k).Err? && IsRequestException(call(k).error)
    ensures RetrySpec(call, Config.MaxRetries, Config.RetryDelay, Config.RetryBackoff, IsRequestException)
         == RetryRun(call(2), 3, [1, 2])
  {
    assert call(0).Err? && call(1).Err? && call(2).Err?;
  }

  // ---------------------------------------------------------------------------------------
  // extract_id_from_url

  /** `"/" + resource_type + "/"`, the marker that precedes an id in a resource URL. */
  function Marker(resourceType: string): (m: string)
    ensures |m| == |resourceType| + 2 && m[0] == '/' && m[|m| - 1] == '/'
  {
    "/" + resourceType + "/"
  }

  /**
   * `extract_id_from_url(url, resource_type)`: the integer after the marker at the end of the
   * URL, or None when the URL is empty, the marker is absent or the tail is not an integer.
   */
  function ExtractIdFromUrl(url: string, resourceType: string): (r: Option<int>)
    ensures url == [] ==> r.None?
    ensures !Contains(url, Marker(resourceType)) ==> r.None?
    ensures r.Some? ==> exists tail :: IsMarkedTail(url, Marker(resourceType), tail) && ParseInt(tail) == r
  {
    if url == [] then None
    else if Contains(url, Marker(resourceType)) then
      var tail := SplitLast(url, Marker(resourceType));
      SplitLastMarked(url, Marker(resourceType));
      ParseInt(tail)
    else None
  }

  /** `tail` ends `url`, directly follows an occurrence of `sep`, and holds no `sep` itself. */
  ghost predicate IsMarkedTail(url: string, sep: string, tail: string) {
    |tail| + |sep| <= |url| && url == url[..|url| - |tail| - |sep|] + sep + tail
    && forall j :: !OccursAt(tail, sep, j)
  }

  lemma {:induction false} SplitLastMarked(s: string, sep: string)
    requires |sep| > 0 && Contains(s, sep)
    ensures IsMarkedTail(s, sep, SplitLast(s, sep))
    decreases |s|
  {
    FindFromContains(s, sep);
    var i := FindFrom(s, sep, 0).value;
    var rest := s[i + |sep|..];
    assert SplitLast(s, sep) == SplitLast(rest, sep);
    FindFromContains(rest, sep);
    if Contains(rest, sep) {
      SplitLastMarked(rest, sep);
      MarkedTailExtends(s, sep, i, rest, SplitLast(rest, sep));
    } else {
      NoMarkerTail(rest, sep);
      FirstMarkedTail(s, sep, i, rest);
    }
  }

  lemma NoMarkerTail(s: string, sep: string)
    requires |sep| > 0 && FindFrom(s, sep, 0).None?
    ensures SplitLast(s, sep) == s
    ensures forall j :: !OccursAt(s, sep, j)
  {
  }

  lemma FirstMarkedTail(s: string, sep: string, i: nat, rest: string)
    requires OccursAt(s, sep, i) && rest == s[i + |sep|..] && forall j :: !OccursAt(rest, sep, j)
    ensures IsMarkedTail(s, sep, rest)
  {
    assert s == s[..i] + sep + rest;
    assert s[..|s| - |rest| - |sep|] == s[..i];
  }

  lemma MarkedTailExtends(s: string, sep: string, i: nat, rest: string, t: string)
    requires OccursAt(s, sep, i) && rest == s[i + |sep|..]
    requires IsMarkedTail(rest, sep, t)
    ensures IsMarkedTail(s, sep, t)
  {
    var p := rest[..|rest| - |t| - |sep|];
    assert s == (s[..i] + sep + p) + sep + t;
    assert s[..|s| - |t| - |sep|] == s[..i] + sep + p;
  }

  /**
   * Splitting `p + sep + d` on `sep` yields `d` when the first occurrence of `sep` is the one
   * right after `p` and `d` holds no `sep`.
   */
  lemma SplitLastAfterFirst(p: string, sep: string, d: string)
    requires |sep| > 0
    requires forall j :: 0 <= j < |p| ==> !OccursAt(p + sep, sep, j)
    requires forall j :: !OccursAt(d, sep, j)
    ensures SplitLast(p + sep + d, sep) == d
  {
    var s := p + sep + d;
    forall j | 0 <= j < |p| ensures !OccursAt(s, sep, j) {
      assert !OccursAt(p + sep, sep, j);
      assert s[j..j + |sep|] == (p + sep)[j..j + |sep|];
    }
    assert s[|p|..|p| + |sep|] == sep;
    FindFromFirst(s, sep, |p|);
    assert s[|p| + |sep|..] == d;
    NoMarkerTail(d, sep);
  }

  /** A string without `/` holds no marker, since every marker starts with `/`. */
  lemma NoSlashNoMarker(d: string, sep: string)
    requires |sep| > 0 && sep[0] == '/'
    requires forall k :: 0 <= k < |d| ==> d[k] != '/'
    ensures forall j :: !OccursAt(d, sep, j)
  {
    forall j | 0 <= j && j + |sep| <= |d| ensures !OccursAt(d, sep, j) {
      assert d[j..j + |sep|][0] == d[j];
    }
  }

  /**
   * In `REST_BASE_URL + "/<resource>/"` the marker is first found right after the base, for
   * every resource name whose first letter cannot continue one of the base's own slashes.
   */
  lemma BaseMarkerFirst(resourceType: string)
    requires |resourceType| > 0 && resourceType[0] !in {'/', 'r', 'a'}
    ensures forall j :: 0 <= j < |Config.RestBaseUrl|
              ==> !OccursAt(Config.RestBaseUrl + Marker(resourceType), Marker(resourceType), j)
  {
    var s := Config.RestBaseUrl + Marker(resourceType);
    var sep := Marker(resourceType);
    forall j | 0 <= j < |Config.RestBaseUrl| ensures !OccursAt(s, sep, j) {
      if j + |sep| <= |s| {
        assert s[j..j + |sep|][0] == s[j] && s[j..j + |sep|][1] == s[j + 1];
      }
    }
  }

  /**
   * `extract_id_from_url` inverts the URL the API builds: the id rendered after the REST base
   * and the resource marker is extracted unchanged.
   */
  lemma ExtractIdFromRestUrl(resourceType: string, id: int)
    requires |resourceType| > 0 && resourceType[0] !in {'/', 'r', 'a'}
    ensures ExtractIdFromUrl(Config.RestBaseUrl + Marker(resourceType) + IntToString(id), resourceType) == Some(id)
  {
    var sep := Marker(resourceType);
    var d := IntToString(id);
    var url := Config.RestBaseUrl + sep + d;
    BaseMarkerFirst(resourceType);
    NoSlashNoMarker(d, sep);
    SplitLastAfterFirst(Config.RestBaseUrl, sep, d);
    assert OccursAt(url, sep, |Config.RestBaseUrl|) by {
      assert url[|Config.RestBaseUrl|..|Config.RestBaseUrl| + |sep|] == sep;
    }
    IntToStringRoundTrip(id);
  }

  /** The location, character and episode markers all satisfy `BaseMarkerFirst`. */
  lemma ExtractIdFromLocationUrl(id: int)
    ensures ExtractIdFromUrl(Config.RestBaseUrl + "/location/" + IntToString(id), "location") == Some(id)
  {
    var m := Marker("location");
    assert m == "/location/";
    ExtractIdFromRestUrl("location", id);
  }

  /** A URL with a trailing `/` never yields an id: the tail after the marker ends in `/` or is empty. */
  lemma ExtractIdTrailingSlash(url: string, resourceType: string)
    ensures ExtractIdFromUrl(url + "/", resourceType).None?
  {
    var u := url + "/";
    var sep := Marker(resourceType);
    if Contains(u, sep) {
      SplitLastMarked(u, sep);
      var tail := SplitLast(u, sep);
      if |tail| > 0 {
        assert tail[|tail| - 1] == u[|u| - 1];
      }
    }
  }

  // ---------------------------------------------------------------------------------------
  // validate_response, handle_api_error

  /** `validate_response`: status 200 and a JSON body that decodes to a dict. */
  predicate ValidateResponse<B>(response: HttpResponse<B>) {
    response.status == 200 && response.body.JsonObject?
  }

  /**
   * `handle_api_error`: the APIError raised for an error status, or None when it returns
   * normally.  Every status from 400 up raises, carrying that status; nothing below 400 does.
   */
  function HandleApiError(status: int, text: string): (r: Option<Error>)
    ensures r.Some? <==> status >= 400
    ensures r.Some? ==> r.value.ApiError? && r.value.status == Some(status)
    ensures status == 404 ==> r == Some(ApiError("Resource not found", Some(404)))
    ensures status == 429 ==> r == Some(ApiError("Rate limit exceeded", Some(429)))
    ensures status >= 500 ==> r == Some(ApiError("Server error", Some(status)))
    ensures 400 <= status < 500 && status != 404 && status != 429
            ==> r == Some(ApiError("Client error: " + text, Some(status)))
  {
    if status == 404 then Some(ApiError("Resource not found", Some(404)))
    else if status == 429 then Some(ApiError("Rate limit exceeded", Some(429)))
    else if status >= 500 then Some(ApiError("Server error", Some(status)))
    else if status >= 400 then Some(ApiError("Client error: " + text, Some(status)))
    else None
  }

  // ---------------------------------------------------------------------------------------
  // chunks

  function Flatten<T>(xss: seq<seq<T>>): seq<T> {
    if xss == [] then [] else xss[0] + Flatten(xss[1..])
  }

  lemma {:induction false} FlattenSnoc<T>(xss: seq<seq<T>>, xs: seq<T>)
    ensures Flatten(xss + [xs]) == Flatten(xss) + xs
    decreases |xss|
  {
    if xss != [] {
      assert (xss + [xs])[1..] == xss[1..] + [xs];
      FlattenSnoc(xss[1..], xs);
    }
  }

  /** The slices `lst[i:i+n]` for `i` in `range(0, len(lst), n)`, for a positive `n`. */
  function ChunksOf<T>(lst: seq<T>, n: nat): (r: seq<seq<T>>)
    requires n > 0
    ensures Flatten(r) == lst
    ensures forall i :: 0 <= i < |r| ==> 0 < |r[i]| <= n
    ensures forall i :: 0 <= i < |r| - 1 ==> |r[i]| == n
    decreases |lst|
  {
    if lst == [] then []
    else if |lst| <= n then [lst]
    else
      var rest := ChunksOf(lst[n..], n);
      assert ([lst[..n]] + rest)[1..] == rest;
      [lst[..n]] + rest
  }

  /**
   * `chunks(lst, n)`: a zero step makes `range` raise ValueError and a negative step yields
   * nothing; otherwise non-empty consecutive slices of length `n` (the last possibly shorter)
   * whose concatenation is `lst`.
   */
  function Chunks<T>(lst: seq<T>, n: int): (r: Result<seq<seq<T>>, Error>)
    ensures r.Err? <==> n == 0
    ensures n < 0 ==> r == Ok([])
    ensures n > 0 ==> r.Ok? && Flatten(r.value) == lst
                      && (forall i :: 0 <= i < |r.value| ==> 0 < |r.value[i]| <= n)
                      && (forall i :: 0 <= i < |r.value| - 1 ==> |r.value[i]| == n)
  {
    if n == 0 then Err(ValueError("range() arg 3 must not be zero"))
    else if n < 0 then Ok([])
    else Ok(ChunksOf(lst, n))
  }
}
