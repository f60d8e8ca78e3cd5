/**
 * internal/service: the HTTP client shared by the newer chat package. It
 * builds requests (JSON content type, bearer authorization, per-request
 * options) and classifies responses (2xx is success, an empty body is fine).
 */
module Service {
  import opened Wrappers
  import opened Errors
  import opened LastWins
  import opened Http

  /** A Client: base URL and default API key (its Doer is the `doerResult` oracle of Do). */
  datatype Client = Client(baseURL: string, key: string)

  /** RequestOpt: the only option the package offers, WithAPIKey. */
  datatype RequestOpt = WithAPIKey(key: string)

  /** The option changes the request: its key is non-empty. */
  predicate HasKey(o: RequestOpt) { o.key != "" }

  /**
   * WithAPIKey: an empty key leaves the request as it is; a non-empty key sets
   * the Authorization header to "Bearer <key>" and touches nothing else.
   */
  function ApplyRequestOpt<B>(req: HttpRequest<B>, o: RequestOpt): (r: HttpRequest<B>)
    ensures !HasKey(o) ==> r == req
    ensures HasKey(o) ==> AuthorizationHeader in r.header && r.header[AuthorizationHeader] == Bearer(o.key)
    ensures r.verb == req.verb && r.target == req.target && r.body == req.body
    ensures r.header.Keys == req.header.Keys + (if HasKey(o) then {AuthorizationHeader} else {})
    ensures forall h :: h in req.header && h != AuthorizationHeader ==> r.header[h] == req.header[h]
  {
    if o.key != "" then req.(header := req.header[AuthorizationHeader := Bearer(o.key)]) else req
  }

  function ApplyRequestOpts<B>(req: HttpRequest<B>, opts: seq<RequestOpt>): (req': HttpRequest<B>)
    decreases |opts|
  {
    if |opts| == 0 then req else ApplyRequestOpt(ApplyRequestOpts(req, opts[..|opts| - 1]), opts[|opts| - 1])
  }

  /**
   * Options only ever rewrite Authorization: every other header, the method,
   * target and body are kept, and Authorization ends as the last non-empty
   * key's bearer value, or as it was when every key is empty.
   */
  lemma {:induction false} RequestOptsAuthorization<B>(req: HttpRequest<B>, opts: seq<RequestOpt>)
    requires AuthorizationHeader in req.header
    ensures var r := ApplyRequestOpts(req, opts);
      && r.verb == req.verb && r.target == req.target && r.body == req.body
      && r.header.Keys == req.header.Keys
      && (forall h :: h in req.header && h != AuthorizationHeader ==> r.header[h] == req.header[h])
      && (NoneSatisfy(opts, HasKey) ==> r.header[AuthorizationHeader] == req.header[AuthorizationHeader])
      && (forall k :: IsLast(opts, k, HasKey) ==> r.header[AuthorizationHeader] == Bearer(opts[k].key))
    decreases |opts|
  {
    if |opts| > 0 {
      RequestOptsAuthorization(req, opts[..|opts| - 1]);
      if HasKey(opts[|opts| - 1]) { LastIsFinal(opts, HasKey); } else { LastInPrefix(opts, HasKey); }
    }
  }

  /** The request before the options run: Content-Type for a body, then the client's bearer key. */
  function InitialRequest<B>(c: Client, verb: string, path: string, body: Option<B>): (req: HttpRequest<B>) {
    var header := if body.Some? then map[ContentTypeHeader := JsonContentType] else map[];
    HttpRequest(verb, Joined(c.baseURL, path), header[AuthorizationHeader := Bearer(c.key)], body)
  }

  /**
   * NewRequestWithContext: a body that the JSON encoder rejects (`encodeError`,
   * what json.Encoder.Encode reports) fails as "failed to encode body" and no
   * request is built. Otherwise Content-Type is set exactly when there is a
   * body; Authorization is first the client key's bearer value, then the
   * options run, so the last non-empty per-request key overrides the client key.
   */
  method NewRequestWithContext<B>(c: Client, verb: string, path: string, body: Option<B>, encodeError: Option<Error>,
                                  opts: seq<RequestOpt>)
    returns (r: Result<HttpRequest<B>, Error>)
    ensures r.Failure? <==> body.Some? && encodeError.Some?
    ensures r.Failure? ==> r.error == Wrapped("failed to encode body", encodeError.value)
    ensures r.Success? ==> r.value == ApplyRequestOpts(InitialRequest(c, verb, path, body), opts)
    ensures r.Success? ==> r.value.verb == verb && r.value.target == Joined(c.baseURL, path) && r.value.body == body
    ensures r.Success? ==>
      r.value.header.Keys == if body.Some? then {ContentTypeHeader, AuthorizationHeader} else {AuthorizationHeader}
    ensures r.Success? && body.Some? ==> r.value.header[ContentTypeHeader] == JsonContentType
    ensures r.Success? && NoneSatisfy(opts, HasKey) ==> r.value.header[AuthorizationHeader] == Bearer(c.key)
    ensures r.Success? ==> forall k :: IsLast(opts, k, HasKey) ==> r.value.header[AuthorizationHeader] == Bearer(opts[k].key)
  {
    if body.Some? && encodeError.Some? {
      return Failure(Wrapped("failed to encode body", encodeError.value));
    }
    var header: map<string, string> := map[];
    if body.Some? {
      header := header[ContentTypeHeader := JsonContentType];
    }
    header := header[AuthorizationHeader := Bearer(c.key)];
    var req := HttpRequest(verb, Joined(c.baseURL, path), header, body);
    ghost var initial := req;
    assert initial == InitialRequest(c, verb, path, body);
    for i := 0 to |opts|
      invariant req == ApplyRequestOpts(initial, opts[..i])
    {
      assert opts[..i + 1][..i] == opts[..i];
      req := ApplyRequestOpt(req, opts[i]);
    }
    assert opts[..|opts|] == opts;
    RequestOptsAuthorization(initial, opts);
    r := Success(req);
  }

  /** The status range Do accepts. */
  predicate IsSuccessStatus(code: int) {
    200 <= code <= 299
  }

  /** What Do writes the response body into: nothing, an io.Writer, or a value decoded as JSON. */
  datatype Sink<T> =
    | Discard                              // v == nil
    | CopyTo(copyError: Option<Error>)     // v is an io.Writer; io.Copy's outcome
    | DecodeInto(outcome: DecodeOutcome<T>) // any other v; the json.Decoder's outcome

  /** Do's `(resp, err)`, with `written` the value decoded into `v` when decoding succeeded. */
  datatype DoResult<T> = DoResult(resp: Option<HttpResponse>, err: Option<Error>, written: Option<T>)

  /** The sink accepts the body: nothing to do, a copy without error, a decode that succeeded or met io.EOF. */
  predicate SinkAccepts<T>(sink: Sink<T>) {
    match sink
    case Discard => true
    case CopyTo(e) => e.None?
    case DecodeInto(o) => o.BodyDecoded? || Is(o.cause, IoEOF)
  }

  /**
   * Do: a doer failure is wrapped and no response returned; otherwise the
   * response is always returned, a status outside 200..299 is an
   * UnexpectedStatusCodeError{200, status}, and a 2xx body goes to the sink,
   * where an empty body (io.EOF from the decoder) counts as success.
   */
  function Do<T>(doerResult: Result<HttpResponse, Error>, sink: Sink<T>): (r: DoResult<T>)
    ensures doerResult.Failure? ==> r == DoResult(None, Some(Wrapped("failed to perform request", doerResult.error)), None)
    ensures doerResult.Success? ==> r.resp == Some(doerResult.value)
    ensures doerResult.Success? && !IsSuccessStatus(doerResult.value.statusCode) ==>
      r.err == Some(UnexpectedStatusCode(StatusOK, doerResult.value.statusCode)) && r.written.None?
    ensures doerResult.Success? && IsSuccessStatus(doerResult.value.statusCode) ==> (r.err.None? <==> SinkAccepts(sink))
    ensures r.written.Some? <==>
      doerResult.Success? && IsSuccessStatus(doerResult.value.statusCode) && sink.DecodeInto? && sink.outcome.BodyDecoded?
    ensures r.written.Some? ==> r.written.value == sink.outcome.value && r.err.None?
    ensures r.err.Some? && doerResult.Success? && IsSuccessStatus(doerResult.value.statusCode) ==>
      (sink.CopyTo? && r.err == sink.copyError) || (sink.DecodeInto? && r.err == Some(sink.outcome.cause))
  {
    match doerResult
    case Failure(e) => DoResult(None, Some(Wrapped("failed to perform request", e)), None)
    case Success(resp) =>
      if !(200 <= resp.statusCode && resp.statusCode <= 299) then
        DoResult(Some(resp), Some(UnexpectedStatusCode(StatusOK, resp.statusCode)), None)
      else
        match sink
        case Discard => DoResult(Some(resp), None, None)
        case CopyTo(e) => DoResult(Some(resp), e, None)
        case DecodeInto(BodyDecoded(v)) => DoResult(Some(resp), None, Some(v))
        case DecodeInto(BodyDecodeError(e)) =>
          if Is(e, IoEOF) then DoResult(Some(resp), None, None) else DoResult(Some(resp), Some(e), None)
  }

  /** Error() of UnexpectedStatusCodeError reports both codes, so distinct errors print distinctly. */
  lemma StatusErrorTextNamesCodes(e: Error, e': Error)
    requires e.UnexpectedStatusCode? && e'.UnexpectedStatusCode?
    requires UnexpectedStatusText(e.expected, e.actual) == UnexpectedStatusText(e'.expected, e'.actual)
    ensures e == e'
  {
    UnexpectedStatusTextInjective(e.expected, e.actual, e'.expected, e'.actual);
  }
}
