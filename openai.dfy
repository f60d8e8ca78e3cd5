/**
 * openai.go: the first client generation. Responses give checked access to
 * their choices (negative indices are rejected), the function-call setting
 * has a string-or-object JSON codec, DoChatCompletion accepts only status
 * 200, and the streaming Next reports both the end of the source and the
 * [DONE] marker as (nil, nil).
 */
module OpenAI {
  import opened Wrappers
  import opened Errors
  import opened Json
  import opened LastWins
  import opened ApiTypes
  import opened Sse
  import opened Http

  // ----- responses -----

  /** ChatCompletionResponse with its three accessors. */
  datatype ChatCompletionResponse = ChatCompletionResponse(
    id: string, objectType: string, created: int, model: string, choices: seq<Choice>, usage: Usage)
  {
    /** GetChoiceAt: the choice and true exactly for 0 <= index < len(Choices); otherwise the zero choice and false. */
    function GetChoiceAt(index: int): (res: (Choice, bool))
      ensures res.1 <==> 0 <= index < |choices|
      ensures res.0 == if res.1 then choices[index] else ZeroChoice
    {
      if index < 0 || index >= |choices| then (ZeroChoice, false) else (choices[index], true)
    }

    /** GetContentAt: succeeds exactly for an in-range choice whose message has content, and returns that content. */
    function GetContentAt(index: int): (res: (string, bool))
      ensures res.1 <==> 0 <= index < |choices| && choices[index].message.content.Some?
      ensures res.0 == if res.1 then choices[index].message.content.value else ""
    {
      var (choice, ok) := GetChoiceAt(index);
      if !ok then ("", false)
      else if choice.message.content.None? then ("", false)
      else (choice.message.content.value, true)
    }

    /** GetFunctionCallAt: succeeds exactly for an in-range choice whose message has a function call, and returns it. */
    function GetFunctionCallAt(index: int): (res: (FunctionCall, bool))
      ensures res.1 <==> 0 <= index < |choices| && choices[index].message.functionCall.Some?
      ensures res.0 == if res.1 then choices[index].message.functionCall.value else ZeroFunctionCall
    {
      var (choice, ok) := GetChoiceAt(index);
      if !ok then (ZeroFunctionCall, false)
      else if choice.message.functionCall.None? then (ZeroFunctionCall, false)
      else (choice.message.functionCall.value, true)
    }
  }

  /**
   * For a choice whose message NewMessage built, content is readable exactly
   * when some option set it and a function call exactly when some option set
   * one: a content-only message has no function call, and vice versa.
   */
  lemma BuiltMessageAccessors(r: ChatCompletionResponse, index: int, role: string, opts: seq<MessageOpt>)
    requires 0 <= index < |r.choices|
    requires r.choices[index].message == ApplyMessageOpts(BaseMessage(role), opts)
    ensures r.GetContentAt(index).1 <==> !NoneSatisfy(opts, SetsContent)
    ensures r.GetFunctionCallAt(index).1 <==> !NoneSatisfy(opts, SetsFunctionCall)
  {
    MessageContentLastWins(BaseMessage(role), opts);
    MessageFunctionCallLastWins(BaseMessage(role), opts);
    if !NoneSatisfy(opts, SetsContent) {
      var k := LastSatisfying(opts, SetsContent);
      assert IsLast(opts, k, SetsContent);
    }
    if !NoneSatisfy(opts, SetsFunctionCall) {
      var k := LastSatisfying(opts, SetsFunctionCall);
      assert IsLast(opts, k, SetsFunctionCall);
    }
  }

  // ----- functionCallSetting codec -----

  const MarshalSettingError := New("function call setting must have a value or a name")
  const UnmarshalSettingError := New("function call setting must be a string or a map with a \"name\" key and string value")

  /**
   * MarshalJSON: a non-empty Value is encoded as a JSON string (even when Name
   * is set too); otherwise a non-empty Name as {"name": Name}; otherwise an error.
   */
  function MarshalFunctionCallSetting(f: FunctionCallSetting): (r: Result<Json, Error>)
    ensures r.Success? <==> f.value != "" || f.name != ""
    ensures f.value != "" ==> r == Success(JString(f.value))
    ensures f.value == "" && f.name != "" ==> r == Success(JObject(map["name" := JString(f.name)]))
    ensures r.Failure? ==> r.error == MarshalSettingError
  {
    if f.value != "" then Success(JString(f.value))
    else if f.name != "" then Success(JObject(map["name" := JString(f.name)]))
    else Failure(MarshalSettingError)
  }

  /**
   * UnmarshalJSON into receiver `f`: a string (or null) replaces Value only; an
   * object of strings replaces Name only, with its "name" member (empty when
   * absent); anything else fails and leaves the receiver alone.
   */
  function UnmarshalFunctionCallSetting(f: FunctionCallSetting, j: Json): (r: Result<FunctionCallSetting, Error>)
    ensures r.Success? <==> DecodeString(j).Some? || DecodeStringMap(j).Some?
    ensures IsStringOrNull(j) ==> r == Success(f.(value := StringOrEmpty(j)))
    ensures j.JObject? && r.Success? ==> r == Success(f.(name := Lookup(DecodeStringMap(j).value, "name")))
    ensures r.Failure? ==> r.error == UnmarshalSettingError
  {
    match DecodeString(j)
    case Some(v) => Success(f.(value := v))
    case None =>
      match DecodeStringMap(j)
      case Some(obj) => Success(f.(name := Lookup(obj, "name")))
      case None => Failure(UnmarshalSettingError)
  }

  /**
   * Decoding what MarshalJSON produced restores the field it encoded: the
   * Value when it was non-empty (Name is then lost), else the Name.
   */
  lemma SettingRoundTrip(f: FunctionCallSetting, into: FunctionCallSetting)
    requires MarshalFunctionCallSetting(f).Success?
    ensures f.value != "" ==> UnmarshalFunctionCallSetting(into, MarshalFunctionCallSetting(f).value) == Success(into.(value := f.value))
    ensures f.value == "" ==> UnmarshalFunctionCallSetting(into, MarshalFunctionCallSetting(f).value) == Success(into.(name := f.name))
    ensures UnmarshalFunctionCallSetting(ZeroSetting, MarshalFunctionCallSetting(f).value)
      == Success(if f.value != "" then FunctionCallSetting(f.value, "") else f)
  {
    if f.value == "" {
      var obj := map["name" := JString(f.name)];
      assert "name" in obj && IsStringOrNull(obj["name"]);
      assert forall k :: k in obj ==> IsStringOrNull(obj[k]);
      var d := DecodeStringMap(JObject(obj));
      assert d.Some? && d.value["name"] == f.name;
    }
  }

  // ----- streaming -----

  /** StreamingChatCompletionDelta; its FunctionCall is a plain struct, not a pointer. */
  datatype StreamingDelta = StreamingDelta(role: string, content: Option<string>, functionCall: FunctionCall)

  datatype StreamingChoice = StreamingChoice(index: int, delta: StreamingDelta, finishReason: Option<string>)

  const UnmarshalObjectContext := "error unmarshaling streaming chat completion object"
  const ReadObjectContext := "error reading next object from stream"

  /** StreamingChatCompletionObject, one chunk of the stream. */
  datatype StreamingObject = StreamingObject(
    id: string, objectType: string, created: int, model: string, choices: seq<StreamingChoice>)
  {
    /**
     * UnmarshalSSEValue: the [DONE] sentinel is reported as the done signal
     * before any JSON decode and leaves the receiver alone; any other value is
     * decoded, and a decode failure is wrapped and leaves the receiver alone.
     */
    function UnmarshalSSEValue(v: string, unmarshal: string -> PayloadDecode<StreamingObject>): (r: (StreamingObject, Option<Error>))
      ensures v == DoneSentinel ==> r == (this, Some(StreamDone))
      ensures r.1.None? <==> v != DoneSentinel && unmarshal(v).Decoded?
      ensures r.1.None? ==> r.0 == unmarshal(v).value
      ensures r.1.Some? ==> r.0 == this
      ensures r.1.Some? ==> (Is(r.1.value, StreamDone) <==> v == DoneSentinel) && !Is(r.1.value, StreamEOF)
      ensures r.1.Some? && v != DoneSentinel ==> r.1 == Some(Wrapped(UnmarshalObjectContext, JsonError(unmarshal(v).reason)))
    {
      if v == DoneSentinel then (this, Some(StreamDone))
      else match unmarshal(v)
        case Decoded(o) => (o, None)
        case Malformed(why) => (this, Some(Wrapped(UnmarshalObjectContext, JsonError(why))))
    }
  }

  const ZeroStreamingObject := StreamingObject("", "", 0, "", [])

  /** The scanner's UnmarshalNext into a fresh event: the decoded data and the error it reports. */
  function UnmarshalNext(step: ScanStep, unmarshal: string -> PayloadDecode<StreamingObject>): (out: (StreamingObject, Option<Error>)) {
    match step
    case Frame(data) => ZeroStreamingObject.UnmarshalSSEValue(data, unmarshal)
    case EndOfStream => (ZeroStreamingObject, Some(StreamEOF))
    case ReadFailure(t) => (ZeroStreamingObject, Some(Transport(t)))
  }

  /**
   * Next: the end of the source and the [DONE] marker both give (nil, nil),
   * so the two are indistinguishable; a decoded frame gives its object; every
   * other scanner error is wrapped.
   */
  function NextOutcome(step: ScanStep, unmarshal: string -> PayloadDecode<StreamingObject>): (r: NextResult<StreamingObject>)
    ensures (r.obj.None? && r.err.None?) <==> step == EndOfStream || step == Frame(DoneSentinel)
    ensures r.obj.Some? <==> step.Frame? && step.data != DoneSentinel && unmarshal(step.data).Decoded?
    ensures r.obj.Some? ==> r.obj.value == unmarshal(step.data).value && r.err.None?
    ensures step.ReadFailure? ==> r == NextResult(None, Some(Wrapped(ReadObjectContext, Transport(step.text))))
    ensures step.Frame? && step.data != DoneSentinel && unmarshal(step.data).Malformed? ==>
      r == NextResult(None, Some(Wrapped(ReadObjectContext, Wrapped(UnmarshalObjectContext, JsonError(unmarshal(step.data).reason)))))
  {
    var (data, err) := UnmarshalNext(step, unmarshal);
    if err.Some? then
      if Is(err.value, StreamEOF) then NextResult(None, None)
      else if Is(err.value, StreamDone) then NextResult(None, None)
      else NextResult(None, Some(Wrapped(ReadObjectContext, err.value)))
    else NextResult(Some(data), None)
  }

  /** Next as a function of the step the scanner meets. */
  function NextOf(unmarshal: string -> PayloadDecode<StreamingObject>): (next: ScanStep -> NextResult<StreamingObject>) {
    s => NextOutcome(s, unmarshal)
  }

  /**
   * Completion is idempotent here: when [DONE] is the last frame, or once
   * the source is exhausted, every pull returns (nil, nil). Frames after a
   * [DONE] are still delivered, since the scanner keeps no memory of it.
   */
  lemma CompletionIsIdempotent(n: nat, unmarshal: string -> PayloadDecode<StreamingObject>)
    ensures forall i :: 0 <= i < n ==> Pulls([], n, NextOf(unmarshal))[i] == NextResult(None, None)
    ensures forall i :: 0 <= i < n ==> Pulls([Frame(DoneSentinel)], n, NextOf(unmarshal))[i] == NextResult(None, None)
  {
    var next := NextOf(unmarshal);
    PullsOfExhausted(n, next);
    if n > 0 {
      PullsOfExhausted(n - 1, next);
      assert Pulls([Frame(DoneSentinel)], n, next) == [next(Frame(DoneSentinel))] + Pulls([], n - 1, next);
    }
  }

  /** StreamingChatCompletionResponse: the scanner over a response body, pulled one event at a time. */
  class StreamingChatCompletionResponse {
    /** What the scanner will meet on the coming pulls. */
    var steps: seq<ScanStep>
    /** The JSON decoder applied to frame payloads. */
    const unmarshal: string -> PayloadDecode<StreamingObject>

    constructor (body: seq<ScanStep>, unmarshal: string -> PayloadDecode<StreamingObject>)
      ensures steps == body && this.unmarshal == unmarshal
    {
      steps := body;
      this.unmarshal := unmarshal;
    }

    /** Next: consumes one scanner step and maps it as NextOutcome says. */
    method Next() returns (r: NextResult<StreamingObject>)
      modifies this
      ensures steps == Advance(old(steps))
      ensures r == NextOutcome(Upcoming(old(steps)), unmarshal)
    {
      r := NextOutcome(Upcoming(steps), unmarshal);
      steps := Advance(steps);
    }
  }

  // ----- the HTTP client -----

  /** An HTTPDoer: the default client or some caller-supplied one. */
  datatype Doer = DefaultClient | CustomDoer(id: nat)

  /** HTTPClient: the API key and the doer. */
  datatype HTTPClient = HTTPClient(key: string, http: Doer)

  datatype ClientOpt = WithKey(key: string) | WithHTTPDoer(doer: Doer)

  predicate SetsKey(o: ClientOpt) { o.WithKey? }
  predicate SetsDoer(o: ClientOpt) { o.WithHTTPDoer? }

  function ApplyClientOpt(c: HTTPClient, o: ClientOpt): (r: HTTPClient)
    ensures r.key == if SetsKey(o) then o.key else c.key
    ensures r.http == if SetsDoer(o) then o.doer else c.http
  {
    match o
    case WithKey(k) => c.(key := k)
    case WithHTTPDoer(d) => c.(http := d)
  }

  function ApplyClientOpts(c: HTTPClient, opts: seq<ClientOpt>): (c': HTTPClient)
    decreases |opts|
  {
    if |opts| == 0 then c else ApplyClientOpt(ApplyClientOpts(c, opts[..|opts| - 1]), opts[|opts| - 1])
  }

  /** The last WithKey decides the client's key; with none the base key stays. */
  lemma {:induction false} ClientKeyLastWins(c: HTTPClient, opts: seq<ClientOpt>)
    ensures NoneSatisfy(opts, SetsKey) ==> ApplyClientOpts(c, opts).key == c.key
    ensures forall k :: IsLast(opts, k, SetsKey) ==> ApplyClientOpts(c, opts).key == opts[k].key
    decreases |opts|
  {
    if |opts| > 0 {
      ClientKeyLastWins(c, opts[..|opts| - 1]);
      if SetsKey(opts[|opts| - 1]) { LastIsFinal(opts, SetsKey); } else { LastInPrefix(opts, SetsKey); }
    }
  }

  /** The last WithHTTPDoer decides the client's doer; with none the base doer stays. */
  lemma {:induction false} ClientDoerLastWins(c: HTTPClient, opts: seq<ClientOpt>)
    ensures NoneSatisfy(opts, SetsDoer) ==> ApplyClientOpts(c, opts).http == c.http
    ensures forall k :: IsLast(opts, k, SetsDoer) ==> ApplyClientOpts(c, opts).http == opts[k].doer
    decreases |opts|
  {
    if |opts| > 0 {
      ClientDoerLastWins(c, opts[..|opts| - 1]);
      if SetsDoer(opts[|opts| - 1]) { LastIsFinal(opts, SetsDoer); } else { LastInPrefix(opts, SetsDoer); }
    }
  }

  /** NewHTTPClient: the default doer and no key, then the options in order. */
  method NewHTTPClient(opts: seq<ClientOpt>) returns (c: HTTPClient)
    ensures c == ApplyClientOpts(HTTPClient("", DefaultClient), opts)
    ensures NoneSatisfy(opts, SetsKey) ==> c.key == ""
    ensures forall k :: IsLast(opts, k, SetsKey) ==> c.key == opts[k].key
    ensures NoneSatisfy(opts, SetsDoer) ==> c.http == DefaultClient
    ensures forall k :: IsLast(opts, k, SetsDoer) ==> c.http == opts[k].doer
  {
    c := HTTPClient("", DefaultClient);
    for i := 0 to |opts|
      invariant c == ApplyClientOpts(HTTPClient("", DefaultClient), opts[..i])
    {
      assert opts[..i + 1][..i] == opts[..i];
      c := ApplyClientOpt(c, opts[i]);
    }
    assert opts[..|opts|] == opts;
    ClientKeyLastWins(HTTPClient("", DefaultClient), opts);
    ClientDoerLastWins(HTTPClient("", DefaultClient), opts);
  }

  const ChatCompletionsURL := "https://api.openai.com/v1/chat/completions"

  /** The status DoChatCompletion accepts: exactly 200. */
  predicate AcceptsStatus(code: int) {
    code == StatusOK
  }

  const MarshalRequestContext := "error marshaling chat completion request"
  const PerformRequestContext := "error performing HTTP request"

  /** The key DoChatCompletion sends: the request's own when non-empty, else the client's. */
  function SelectAPIKey(requestKey: string, clientKey: string): (key: string)
    ensures requestKey != "" ==> key == requestKey
    ensures requestKey == "" ==> key == clientKey
  {
    if requestKey != "" then requestKey else clientKey
  }

  /** The request DoChatCompletion sends for an already built completion request. */
  function ChatCompletionHttpRequest(h: HTTPClient, req: Request): (httpReq: HttpRequest<Request>) {
    HttpRequest(MethodPost, Absolute(ChatCompletionsURL),
      map[AuthorizationHeader := Bearer(SelectAPIKey(req.apiKey, h.key)), ContentTypeHeader := JsonContentType],
      Some(req))
  }

  /** json.MarshalerError's context when the setting's MarshalJSON fails inside json.Marshal. */
  const SettingMarshalerContext := "json: error calling MarshalJSON for type *openai.functionCallSetting"

  /**
   * What json.Marshal reports for a request: only a present function-call
   * setting with neither a value nor a name makes it fail.
   */
  function RequestEncodeError(req: Request): (e: Option<Error>)
    ensures e.Some? <==> req.functionCall.Some? && !SettingEncodable(req.functionCall.value)
    ensures e.Some? ==> Is(e.value, MarshalSettingError)
  {
    if req.functionCall.Some? then
      match MarshalFunctionCallSetting(req.functionCall.value)
      case Success(_) => None
      case Failure(err) => Some(Wrapped(SettingMarshalerContext, err))
    else None
  }

  /**
   * DoChatCompletion: builds the request from the options; a request that does
   * not marshal fails before anything is sent. Otherwise it is sent with the
   * per-request key (or the client key) as bearer token, and the response is
   * returned only for status 200; any other status is an
   * ErrUnexpectedStatusCode{200, status} with no response.
   */
  method DoChatCompletion(h: HTTPClient, model: string, messages: seq<Message>, opts: seq<RequestOpt>,
                          doerResult: Result<HttpResponse, Error>)
    returns (sent: Option<HttpRequest<Request>>, resp: Option<HttpResponse>, err: Option<Error>)
    ensures var req := ApplyRequestOpts(BaseRequest(model, messages), opts);
      RequestEncodeError(req).Some? ==>
        sent.None? && resp.None? && err == Some(Wrapped(MarshalRequestContext, RequestEncodeError(req).value))
    ensures var req := ApplyRequestOpts(BaseRequest(model, messages), opts);
      RequestEncodeError(req).None? ==> sent == Some(ChatCompletionHttpRequest(h, req))
    ensures sent.Some? ==> sent.value.header[AuthorizationHeader] == Bearer(SelectAPIKey(sent.value.body.value.apiKey, h.key))
    ensures sent.Some? && NoneSatisfy(opts, SetsAPIKey) ==> sent.value.header[AuthorizationHeader] == Bearer(h.key)
    ensures resp.Some? <==> err.None?
    ensures err.None? <==> sent.Some? && doerResult.Success? && AcceptsStatus(doerResult.value.statusCode)
    ensures resp.Some? ==> resp.value == doerResult.value
    ensures sent.Some? && doerResult.Failure? ==> err == Some(Wrapped(PerformRequestContext, doerResult.error))
    ensures sent.Some? && doerResult.Success? && !AcceptsStatus(doerResult.value.statusCode) ==>
      err == Some(UnexpectedStatusCode(StatusOK, doerResult.value.statusCode))
  {
    var req := BuildRequest(model, messages, opts);
    var encodeError := RequestEncodeError(req);
    if encodeError.Some? {
      return None, None, Some(Wrapped(MarshalRequestContext, encodeError.value));
    }
    var apiKey: string;
    if req.apiKey != "" {
      apiKey := req.apiKey;
    } else {
      apiKey := h.key;
    }
    var header: map<string, string> := map[];
    header := header[AuthorizationHeader := Bearer(apiKey)];
    header := header[ContentTypeHeader := JsonContentType];
    sent := Some(HttpRequest(MethodPost, Absolute(ChatCompletionsURL), header, Some(req)));
    match doerResult
    case Failure(e) =>
      resp, err := None, Some(Wrapped(PerformRequestContext, e));
    case Success(httpResp) =>
      if !AcceptsStatus(httpResp.statusCode) {
        resp, err := None, Some(UnexpectedStatusCode(StatusOK, httpResp.statusCode));
      } else {
        resp, err := Some(httpResp), None;
      }
  }

  /**
   * CreateStreamingChatCompletion: DoChatCompletion with WithStream(true)
   * appended, so the request always streams; its errors are passed on
   * unchanged, and on success the body becomes a fresh stream.
   */
  method CreateStreamingChatCompletion(h: HTTPClient, model: string, messages: seq<Message>, opts: seq<RequestOpt>,
                                       doerResult: Result<HttpResponse, Error>,
                                       unmarshal: string -> PayloadDecode<StreamingObject>)
    returns (sent: Option<HttpRequest<Request>>, stream: StreamingChatCompletionResponse?, err: Option<Error>)
    ensures var req := ApplyRequestOpts(BaseRequest(model, messages), opts + [WithStream(true)]);
      RequestEncodeError(req).Some? ==> sent.None? && err == Some(Wrapped(MarshalRequestContext, RequestEncodeError(req).value))
    ensures var req := ApplyRequestOpts(BaseRequest(model, messages), opts + [WithStream(true)]);
      RequestEncodeError(req).None? ==> sent == Some(ChatCompletionHttpRequest(h, req))
    ensures sent.Some? ==> sent.value.body == Some(ApplyRequestOpts(BaseRequest(model, messages), opts).(stream := Some(true)))
    ensures sent.Some? ==> sent.value.body.value.stream == Some(true)
    ensures err.None? <==> sent.Some? && doerResult.Success? && AcceptsStatus(doerResult.value.statusCode)
    ensures sent.Some? && doerResult.Failure? ==> err == Some(Wrapped(PerformRequestContext, doerResult.error))
    ensures sent.Some? && doerResult.Success? && !AcceptsStatus(doerResult.value.statusCode) ==>
      err == Some(UnexpectedStatusCode(StatusOK, doerResult.value.statusCode))
    ensures err.None? ==> stream != null && fresh(stream) && stream.steps == doerResult.value.events
    ensures err.None? ==> stream.unmarshal == unmarshal
    ensures err.Some? ==> stream == null
  {
    var resp: Option<HttpResponse>;
    sent, resp, err := DoChatCompletion(h, model, messages, opts + [WithStream(true)], doerResult);
    StreamForcedLast(BaseRequest(model, messages), opts);
    if err.Some? {
      stream := null;
    } else {
      stream := new StreamingChatCompletionResponse(resp.value.events, unmarshal);
    }
  }

  /**
   * CreateChatCompletion: DoChatCompletion, whose errors are passed on
   * unchanged, then the body decoded as a response; any decode error, an
   * empty body included, fails. A failing
   * Close after a successful decode turns the result into an error while the
   * decoded response is still returned.
   */
  method CreateChatCompletion(h: HTTPClient, model: string, messages: seq<Message>, opts: seq<RequestOpt>,
                              doerResult: Result<HttpResponse, Error>,
                              body: DecodeOutcome<ChatCompletionResponse>, closeError: Option<Error>)
    returns (sent: Option<HttpRequest<Request>>, resp: Option<ChatCompletionResponse>, err: Option<Error>)
    ensures var req := ApplyRequestOpts(BaseRequest(model, messages), opts);
      RequestEncodeError(req).Some? ==> sent.None? && err == Some(Wrapped(MarshalRequestContext, RequestEncodeError(req).value))
    ensures var req := ApplyRequestOpts(BaseRequest(model, messages), opts);
      RequestEncodeError(req).None? ==> sent == Some(ChatCompletionHttpRequest(h, req))
    ensures sent.Some? && doerResult.Failure? ==> err == Some(Wrapped(PerformRequestContext, doerResult.error))
    ensures sent.Some? && doerResult.Success? && !AcceptsStatus(doerResult.value.statusCode) ==>
      err == Some(UnexpectedStatusCode(StatusOK, doerResult.value.statusCode))
    ensures resp.Some? <==> sent.Some? && doerResult.Success? && AcceptsStatus(doerResult.value.statusCode) && body.BodyDecoded?
    ensures resp.Some? ==> resp.value == body.value
    ensures err.None? <==> resp.Some? && closeError.None?
    ensures resp.Some? && closeError.Some? ==> err == Some(Wrapped("error closing HTTP response body", closeError.value))
    ensures sent.Some? && doerResult.Success? && AcceptsStatus(doerResult.value.statusCode) && body.BodyDecodeError? ==>
      err == Some(Wrapped("error decoding chat completion response", body.cause))
  {
    var httpResp: Option<HttpResponse>;
    sent, httpResp, err := DoChatCompletion(h, model, messages, opts, doerResult);
    if err.Some? {
      resp := None;
      return;
    }
    match body
    case BodyDecodeError(e) =>
      resp, err := None, Some(Wrapped("error decoding chat completion response", e));
    case BodyDecoded(v) =>
      resp := Some(v);
      if closeError.Some? {
        err := Some(Wrapped("error closing HTTP response body", closeError.value));
      }
  }
}
