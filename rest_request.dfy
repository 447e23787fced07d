/**
 * `_make_request` of the two REST clients: URL normalisation, one transport call under the
 * retry decorator, and the mapping of every failure to an APIError.  The two clients differ
 * only in the message prefix of a generic request failure.
 */
module RestRequest {
  import opened Wrappers
  import opened Text
  import opened Utils
  import Config

  /** A GET request: the URL and the optional `page` query parameter. */
  datatype Request = Request(url: string, page: Option<int>)

  /** A lookup's outcome and the requests it issued, in order. */
  datatype LookupRun<+T> = LookupRun(result: Result<T, Error>, requested: seq<Request>)

  /**
   * `urljoin(base.rstrip('/') + '/', endpoint.lstrip('/'))`.  With the base ending in `/` and
   * a relative endpoint, `urljoin` appends the endpoint, so the URL is the two joined by one `/`.
   */
  function RequestUrl(base: string, endpoint: string): string {
    RStrip(base, '/') + "/" + LStrip(endpoint, '/')
  }

  /** Trailing slashes on the base and leading slashes on the endpoint do not change the URL. */
  lemma RequestUrlSlashes(base: string, endpoint: string)
    ensures RequestUrl(base + "/", endpoint) == RequestUrl(base, endpoint)
    ensures RequestUrl(base, "/" + endpoint) == RequestUrl(base, endpoint)
  {
    assert (base + "/")[..|base + "/"| - 1] == base;
    assert ("/" + endpoint)[1..] == endpoint;
  }

  /** Exactly one `/` joins the two parts: the base keeps no trailing one, the endpoint no leading one. */
  lemma RequestUrlSingleSlash(base: string, endpoint: string)
    ensures var b := RStrip(base, '/'); var e := LStrip(endpoint, '/');
      (|b| == 0 || b[|b| - 1] != '/') && (|e| == 0 || e[0] != '/')
  {
  }

  /** A base without a trailing `/` and an endpoint without a leading one are joined as they are. */
  lemma RequestUrlJoin(base: string, endpoint: string)
    requires |base| > 0 && base[|base| - 1] != '/'
    requires |endpoint| == 0 || endpoint[0] != '/'
    ensures RequestUrl(base, endpoint) == base + "/" + endpoint
  {
  }

  /** With the configured base, `resource/id` is requested at `<base>/resource/id`. */
  lemma RequestUrlConfigured(resource: string, id: int)
    requires |resource| > 0 && resource[0] != '/'
    ensures RequestUrl(Config.RestBaseUrl, resource + "/" + IntToString(id))
         == Config.RestBaseUrl + "/" + resource + "/" + IntToString(id)
  {
    var base := Config.RestBaseUrl;
    assert base[|base| - 1] == 'i';
    var endpoint := resource + "/" + IntToString(id);
    assert endpoint[0] == resource[0];
    RequestUrlJoin(base, endpoint);
  }

  /**
   * One attempt of `_make_request` given what the transport did: a timeout becomes APIError 408,
   * a connection error or any other request exception an APIError without status; a response
   * with an error status raises through `handle_api_error`; any other non-200 or non-dict
   * response is "Invalid response format"; a valid response yields its JSON object.
   */
  function RequestOnce<B>(failurePrefix: string, outcome: Outcome<B>): (r: Result<B, Error>)
    ensures r.Err? ==> r.error.ApiError?
    ensures outcome.Raised? ==> r.Err? && (r.error.status == Some(408) <==> outcome.failure.Timeout?)
    ensures outcome.Raised? && !outcome.failure.Timeout? ==> r.error.status.None?
    ensures outcome.Responded? ==> (r.Ok? <==> ValidateResponse(outcome.response))
    ensures outcome.Responded? && r.Ok? ==> r.value == outcome.response.body.value
    ensures outcome.Responded? && outcome.response.status >= 400 ==> r.Err? && r.error.status == Some(outcome.response.status)
    ensures (outcome.Responded? && outcome.response.status < 400 && r.Err?)
              ==> r.error == ApiError("Invalid response format", None)
  {
    match outcome
    case Raised(Timeout(_)) => Err(ApiError("Request timeout", Some(408)))
    case Raised(ConnectionFailure(_)) => Err(ApiError("Connection error", None))
    case Raised(OtherFailure(detail)) => Err(ApiError(failurePrefix + detail, None))
    case Responded(response) =>
      var raised := if response.status != 200 then HandleApiError(response.status, response.text) else None;
      if raised.Some? then Err(raised.value)
      else if !ValidateResponse(response) then Err(ApiError("Invalid response format", None))
      else Ok(response.body.value)
  }

  /** The decorated `_make_request`: attempt `k` sees what the transport does on its `k`-th try. */
  function MakeRequestRun<B>(failurePrefix: string, request: Request, transport: (Request, nat) -> Outcome<B>)
    : RetryRun<B>
  {
    RetrySpec(k => RequestOnce(failurePrefix, transport(request, k)),
              Config.MaxRetries, Config.RetryDelay, Config.RetryBackoff, IsRequestException)
  }

  /** The decorated `_make_request`'s result: that of its one attempt (see `MakeRequestSingleAttempt`). */
  function MakeRequest<B>(failurePrefix: string, request: Request, transport: (Request, nat) -> Outcome<B>)
    : (r: Result<B, Error>)
    ensures r == RequestOnce(failurePrefix, transport(request, 0))
  {
    MakeRequestSingleAttempt(failurePrefix, request, transport);
    MakeRequestRun(failurePrefix, request, transport).result
  }

  /**
   * The decorator never retries `_make_request`: every failure leaves it as an APIError, which
   * is outside the retried exception types, so each call makes exactly one attempt and no sleep.
   */
  lemma MakeRequestSingleAttempt<B>(failurePrefix: string, request: Request, transport: (Request, nat) -> Outcome<B>)
    ensures MakeRequestRun(failurePrefix, request, transport)
         == RetryRun(RequestOnce(failurePrefix, transport(request, 0)), 1, [])
  {
  }
}
