/**
 * pkg/chat/chat.go: the newer client generation. It builds its HTTP traffic
 * through internal/service (any 2xx status succeeds, an empty body decodes to
 * the zero response), its accessors only check the upper bound (a negative
 * index panics, so callers must not pass one), its function-call codec fails
 * with the exported ErrInvalidFunctionCallSetting, and its streaming Next
 * tells the [DONE] marker (ErrStreamDone) apart from an early end of stream.
 */
module Chat {
  import opened Wrappers
  import opened Errors
  import opened Json
  import opened LastWins
  import opened ApiTypes
  import opened Sse
  import opened Http
  import Service

  // ----- responses -----

  /** CompletionResponse with its three accessors. */
  datatype CompletionResponse = CompletionResponse(
    id: string, objectType: string, created: int, model: string, choices: seq<Choice>, usage: Usage)
  {
    /** GetChoiceAt: the choice and true exactly when index < len(Choices); otherwise the zero choice and false. */
    function GetChoiceAt(index: int): (res: (Choice, bool))
      requires index >= 0
      ensures res.1 <==> index < |choices|
      ensures res.0 == if res.1 then choices[index] else ZeroChoice
    {
      if index >= |choices| then (ZeroChoice, false) else (choices[index], true)
    }

    /** GetContentAt: succeeds exactly for an in-range choice whose message has content, and returns that content. */
    function GetContentAt(index: int): (res: (string, bool))
      requires index >= 0
      ensures res.1 <==> index < |choices| && choices[index].message.content.Some?
      ensures res.0 == if res.1 then choices[index].message.content.value else ""
    {
      var (choice, ok) := GetChoiceAt(index);
      if !ok then ("", false)
      else if choice.message.content.None? then ("", false)
      else (choice.message.content.value, true)
    }

    /** GetFunctionCallAt: succeeds exactly for an in-range choice whose message has a function call, and returns it. */
    function GetFunctionCallAt(index: int): (res: (FunctionCall, bool))
      requires index >= 0
      ensures res.1 <==> index < |choices| && choices[index].message.functionCall.Some?
      ensures res.0 == if res.1 then choices[index].message.functionCall.value else ZeroFunctionCall
    {
      var (choice, ok) := GetChoiceAt(index);
      if !ok then (ZeroFunctionCall, false)
      else if choice.message.functionCall.None? then (ZeroFunctionCall, false)
      else (choice.message.functionCall.value, true)
    }
  }

  const ZeroCompletionResponse := CompletionResponse("", "", 0, "", [], Usage(0, 0, 0))

  /**
   * A choice whose message NewMessage built: its content can be read exactly
   * when some option set content, and its function call exactly when some
   * option set one; a content-only message has no function call and vice versa.
   */
  lemma BuiltMessageAccessors(r: CompletionResponse, index: int, role: string, opts: seq<MessageOpt>)
    requires 0 <= index < |r.choices|
    requires r.choices[index].message == ApplyMessageOpts(BaseMessage(role), opts)
    ensures r.GetContentAt(index).1 <==> !NoneSatisfy(opts, SetsContent)
    ensures r.GetFunctionCallAt(index).1 <==> !NoneSatisfy(opts, SetsFunctionCall)
  {
    MessageContentLastWins(BaseMessage(role), opts);
    MessageFunctionCallLastWins(BaseMessage(role), opts);
    if !NoneSatisfy(opts, SetsContent) {
      var k := LastSatisfying(opts, SetsContent);
      assert IsLast(opts, k, SetsContent);
    }
    if !NoneSatisfy(opts, SetsFunctionCall) {
      var k := LastSatisfying(opts, SetsFunctionCall);
      assert IsLast(opts, k, SetsFunctionCall);
    }
  }

  // ----- functionCallSetting codec -----

  /**
   * MarshalJSON: a non-empty Value is encoded as a JSON string (even when Name
   * is set too); otherwise a non-empty Name as {"name": Name}; otherwise
   * ErrInvalidFunctionCallSetting.
   */
  function MarshalFunctionCallSetting(f: FunctionCallSetting): (r: Result<Json, Error>)
    ensures r.Success? <==> SettingEncodable(f)
    ensures f.value != "" ==> r == Success(JString(f.value))
    ensures f.value == "" && f.name != "" ==> r == Success(JObject(map["name" := JString(f.name)]))
    ensures r.Failure? ==> r.error == InvalidFunctionCallSetting
  {
    if f.value != "" then Success(JString(f.value))
    else if f.name != "" then Success(JObject(map["name" := JString(f.name)]))
    else Failure(InvalidFunctionCallSetting)
  }

  /**
   * UnmarshalJSON into receiver `f`: a string (or null) replaces Value only; an
   * object of strings replaces Name only, with its "name" member (empty when
   * absent); anything else is ErrInvalidFunctionCallSetting.
   */
  function UnmarshalFunctionCallSetting(f: FunctionCallSetting, j: Json): (r: Result<FunctionCallSetting, Error>)
    ensures r.Success? <==> DecodeString(j).Some? || DecodeStringMap(j).Some?
    ensures IsStringOrNull(j) ==> r == Success(f.(value := StringOrEmpty(j)))
    ensures j.JObject? && r.Success? ==> r == Success(f.(name := Lookup(DecodeStringMap(j).value, "name")))
    ensures r.Failure? ==> r.error == InvalidFunctionCallSetting
  {
    match DecodeString(j)
    case Some(v) => Success(f.(value := v))
    case None =>
      match DecodeStringMap(j)
      case Some(obj) => Success(f.(name := Lookup(obj, "name")))
      case None => Failure(InvalidFunctionCallSetting)
  }

  /**
   * Decoding what MarshalJSON produced restores the field it encoded: the
   * Value when it was non-empty (Name is then lost), else the Name; the
   * settings the request options install survive the round trip whole.
   */
  lemma SettingRoundTrip(f: FunctionCallSetting, into: FunctionCallSetting)
    requires MarshalFunctionCallSetting(f).Success?
    ensures f.value != "" ==> UnmarshalFunctionCallSetting(into, MarshalFunctionCallSetting(f).value) == Success(into.(value := f.value))
    ensures f.value == "" ==> UnmarshalFunctionCallSetting(into, MarshalFunctionCallSetting(f).value) == Success(into.(name := f.name))
    ensures f.value == "" || f.name == "" ==> UnmarshalFunctionCallSetting(ZeroSetting, MarshalFunctionCallSetting(f).value) == Success(f)
  {
    if f.value == "" {
      var obj := map["name" := JString(f.name)];
      assert "name" in obj && IsStringOrNull(obj["name"]);
      assert forall k :: k in obj ==> IsStringOrNull(obj[k]);
      var d := DecodeStringMap(JObject(obj));
      assert d.Some? && d.value["name"] == f.name;
    }
  }

  /** json.MarshalerError's context when the setting's MarshalJSON fails inside the body encoder. */
  const SettingMarshalerContext := "json: error calling MarshalJSON for type *chat.functionCallSetting"

  /** What the JSON encoder reports for a request: only an unencodable function-call setting fails. */
  function RequestEncodeError(req: Request): (e: Option<Error>)
    ensures e.Some? <==> req.functionCall.Some? && !SettingEncodable(req.functionCall.value)
    ensures e.Some? ==> Is(e.value, InvalidFunctionCallSetting)
  {
    if req.functionCall.Some? then
      match MarshalFunctionCallSetting(req.functionCall.value)
      case Success(_) => None
      case Failure(err) => Some(Wrapped(SettingMarshalerContext, err))
    else None
  }

  // ----- streaming -----

  /** StreamingCompletionDelta; its FunctionCall is a pointer, absent in most chunks. */
  datatype StreamingDelta = StreamingDelta(role: string, content: Option<string>, functionCall: Option<FunctionCall>)

  datatype StreamingChoice = StreamingChoice(index: int, delta: StreamingDelta, finishReason: Option<string>)

  const ZeroStreamingChoice := StreamingChoice(0, StreamingDelta("", None, None), None)

  const UnmarshalObjectContext := "error unmarshaling streaming completion object"
  const ReadObjectContext := "error reading next object from stream"
  const EarlyEndContext := "stream ended before [DONE]"

  /** StreamingCompletionObject, one chunk of the stream, with accessors on its deltas. */
  datatype StreamingObject = StreamingObject(
    id: string, objectType: string, created: int, model: string, choices: seq<StreamingChoice>)
  {
    /** GetChoiceAt: the choice and true exactly when index < len(Choices). */
    function GetChoiceAt(index: int): (res: (StreamingChoice, bool))
      requires index >= 0
      ensures res.1 <==> index < |choices|
      ensures res.0 == if res.1 then choices[index] else ZeroStreamingChoice
    {
      if index >= |choices| then (ZeroStreamingChoice, false) else (choices[index], true)
    }

    /** GetContentAt: succeeds exactly for an in-range choice whose delta has content. */
    function GetContentAt(index: int): (res: (string, bool))
      requires index >= 0
      ensures res.1 <==> index < |choices| && choices[index].delta.content.Some?
      ensures res.0 == if res.1 then choices[index].delta.content.value else ""
    {
      var (choice, ok) := GetChoiceAt(index);
      if !ok then ("", false)
      else if choice.delta.content.None? then ("", false)
      else (choice.delta.content.value, true)
    }

    /** GetFunctionCallAt: succeeds exactly for an in-range choice whose delta has a function call. */
    function GetFunctionCallAt(index: int): (res: (FunctionCall, bool))
      requires index >= 0
      ensures res.1 <==> index < |choices| && choices[index].delta.functionCall.Some?
      ensures res.0 == if res.1 then choices[index].delta.functionCall.value else ZeroFunctionCall
    {
      var (choice, ok) := GetChoiceAt(index);
      if !ok then (ZeroFunctionCall, false)
      else if choice.delta.functionCall.None? then (ZeroFunctionCall, false)
      else (choice.delta.functionCall.value, true)
    }

    /**
     * UnmarshalSSEValue: the [DONE] sentinel is ErrStreamDone itself, before
     * any JSON decode; any other value is decoded, and a decode failure is
     * wrapped. The receiver is kept whenever an error is reported.
     */
    function UnmarshalSSEValue(v: string, unmarshal: string -> PayloadDecode<StreamingObject>): (r: (StreamingObject, Option<Error>))
      ensures v == DoneSentinel ==> r == (this, Some(StreamDone))
      ensures r.1.None? <==> v != DoneSentinel && unmarshal(v).Decoded?
      ensures r.1.None? ==> r.0 == unmarshal(v).value
      ensures r.1.Some? ==> r.0 == this
      ensures r.1.Some? ==> (Is(r.1.value, StreamDone) <==> v == DoneSentinel) && !Is(r.1.value, StreamEOF)
      ensures r.1.Some? && v != DoneSentinel ==> r.1 == Some(Wrapped(UnmarshalObjectContext, JsonError(unmarshal(v).reason)))
    {
      if v == DoneSentinel then (this, Some(StreamDone))
      else match unmarshal(v)
        case Decoded(o) => (o, None)
        case Malformed(why) => (this, Some(Wrapped(UnmarshalObjectContext, JsonError(why))))
    }
  }

  const ZeroStreamingObject := StreamingObject("", "", 0, "", [])

  /** The scanner's UnmarshalNext into a fresh event: the decoded data and the error it reports. */
  function UnmarshalNext(step: ScanStep, unmarshal: string -> PayloadDecode<StreamingObject>): (out: (StreamingObject, Option<Error>)) {
    match step
    case Frame(data) => ZeroStreamingObject.UnmarshalSSEValue(data, unmarshal)
    case EndOfStream => (ZeroStreamingObject, Some(StreamEOF))
    case ReadFailure(t) => (ZeroStreamingObject, Some(Transport(t)))
  }

  /**
   * Next: [DONE] gives exactly ErrStreamDone; the end of the source without
   * it is an error wrapping ErrStreamEOF; a decoded frame gives its object;
   * every other error is wrapped. No outcome is (nil, nil).
   */
  function NextOutcome(step: ScanStep, unmarshal: string -> PayloadDecode<StreamingObject>): (r: NextResult<StreamingObject>)
    ensures r.obj.Some? <==> r.err.None?
    ensures r.err == Some(StreamDone) <==> step == Frame(DoneSentinel)
    ensures (r.err.Some? && Is(r.err.value, StreamDone)) <==> step == Frame(DoneSentinel)
    ensures (r.err.Some? && Is(r.err.value, StreamEOF)) <==> step == EndOfStream
    ensures step == EndOfStream ==> r.err == Some(Wrapped(EarlyEndContext, StreamEOF))
    ensures r.obj.Some? <==> step.Frame? && step.data != DoneSentinel && unmarshal(step.data).Decoded?
    ensures r.obj.Some? ==> r.obj.value == unmarshal(step.data).value
    ensures step.ReadFailure? ==> r == NextResult(None, Some(Wrapped(ReadObjectContext, Transport(step.text))))
    ensures step.Frame? && step.data != DoneSentinel && unmarshal(step.data).Malformed? ==>
      r == NextResult(None, Some(Wrapped(ReadObjectContext, Wrapped(UnmarshalObjectContext, JsonError(unmarshal(step.data).reason)))))
  {
    var (data, err) := UnmarshalNext(step, unmarshal);
    if err.Some? then
      if Is(err.value, StreamEOF) then NextResult(None, Some(Wrapped(EarlyEndContext, err.value)))
      else if Is(err.value, StreamDone) then NextResult(None, Some(StreamDone))
      else NextResult(None, Some(Wrapped(ReadObjectContext, err.value)))
    else NextResult(Some(data), None)
  }

  /** Next as a function of the step the scanner meets. */
  function NextOf(unmarshal: string -> PayloadDecode<StreamingObject>): (next: ScanStep -> NextResult<StreamingObject>) {
    s => NextOutcome(s, unmarshal)
  }

  /**
   * A chunk followed by [DONE] yields the chunk, then ErrStreamDone; a chunk
   * followed by the end of the source yields the chunk, then the early-end
   * error. The scanner keeps no memory of [DONE], so a pull after
   * ErrStreamDone meets the end of the source and reports the early-end error.
   */
  lemma StreamScenarios(chunk: string, obj: StreamingObject, unmarshal: string -> PayloadDecode<StreamingObject>)
    requires chunk != DoneSentinel && unmarshal(chunk) == Decoded(obj)
    ensures Pulls([Frame(chunk), Frame(DoneSentinel)], 3, NextOf(unmarshal)) ==
      [NextResult(Some(obj), None), NextResult(None, Some(StreamDone)), NextResult(None, Some(Wrapped(EarlyEndContext, StreamEOF)))]
    ensures Pulls([Frame(chunk)], 2, NextOf(unmarshal)) ==
      [NextResult(Some(obj), None), NextResult(None, Some(Wrapped(EarlyEndContext, StreamEOF)))]
  {
    assert Advance([Frame(chunk), Frame(DoneSentinel)]) == [Frame(DoneSentinel)];
    assert Advance([Frame(DoneSentinel)]) == [];
    assert Advance([Frame(chunk)]) == [];
  }

  /**
   * A malformed frame does not stop the stream: its pull reports the wrapped
   * decode error, and the next pull still yields the following good frame.
   */
  lemma MalformedFrameThenChunk(bad: string, chunk: string, obj: StreamingObject, unmarshal: string -> PayloadDecode<StreamingObject>)
    requires bad != DoneSentinel && unmarshal(bad).Malformed?
    requires chunk != DoneSentinel && unmarshal(chunk) == Decoded(obj)
    ensures Pulls([Frame(bad), Frame(chunk)], 2, NextOf(unmarshal)) ==
      [NextResult(None, Some(Wrapped(ReadObjectContext, Wrapped(UnmarshalObjectContext, JsonError(unmarshal(bad).reason))))),
       NextResult(Some(obj), None)]
  {
    assert Advance([Frame(bad), Frame(chunk)]) == [Frame(chunk)];
    assert Advance([Frame(chunk)]) == [];
  }

  /** After the stream is exhausted, every further pull is the early-end error, never a clean completion. */
  lemma PullsAfterExhaustion(n: nat, unmarshal: string -> PayloadDecode<StreamingObject>)
    ensures forall i :: 0 <= i < n ==>
      Pulls([], n, NextOf(unmarshal))[i] == NextResult(None, Some(Wrapped(EarlyEndContext, StreamEOF)))
  {
    PullsOfExhausted(n, NextOf(unmarshal));
  }

  /** StreamingCompletionResponse: the scanner over a response body, pulled one event at a time. */
  class StreamingCompletionResponse {
    /** What the scanner will meet on the coming pulls. */
    var steps: seq<ScanStep>
    /** The JSON decoder applied to frame payloads. */
    const unmarshal: string -> PayloadDecode<StreamingObject>

    constructor (body: seq<ScanStep>, unmarshal: string -> PayloadDecode<StreamingObject>)
      ensures steps == body && this.unmarshal == unmarshal
    {
      steps := body;
      this.unmarshal := unmarshal;
    }

    /** Next: consumes one scanner step and maps it as NextOutcome says. */
    method Next() returns (r: NextResult<StreamingObject>)
      modifies this
      ensures steps == Advance(old(steps))
      ensures r == NextOutcome(Upcoming(old(steps)), unmarshal)
    {
      r := NextOutcome(Upcoming(steps), unmarshal);
      steps := Advance(steps);
    }
  }

  // ----- the service -----

  /** Service: the chat completions service over a service.Client. */
  datatype ChatService = ChatService(client: Service.Client)

  const CompletionsPath := "/chat/completions"

  /** The request the service sends for a built completion request, the client key overridden by a non-empty request key. */
  function CompletionHttpRequest(s: ChatService, req: Request): (httpReq: HttpRequest<Request>) {
    Service.ApplyRequestOpts(Service.InitialRequest(s.client, MethodPost, CompletionsPath, Some(req)), [Service.WithAPIKey(req.apiKey)])
  }

  /**
   * The completion request is a POST of `req` to the client's base URL joined
   * with /chat/completions, as JSON, and the bearer token sent is the
   * request's key when non-empty, else the client's.
   */
  lemma CompletionAuthorization(s: ChatService, req: Request)
    ensures CompletionHttpRequest(s, req).verb == MethodPost
    ensures CompletionHttpRequest(s, req).target == Joined(s.client.baseURL, CompletionsPath)
    ensures CompletionHttpRequest(s, req).body == Some(req)
    ensures CompletionHttpRequest(s, req).header.Keys == {AuthorizationHeader, ContentTypeHeader}
    ensures CompletionHttpRequest(s, req).header[AuthorizationHeader] ==
      Bearer(if req.apiKey != "" then req.apiKey else s.client.key)
    ensures CompletionHttpRequest(s, req).header[ContentTypeHeader] == JsonContentType
  {
    var opts := [Service.WithAPIKey(req.apiKey)];
    Service.RequestOptsAuthorization(Service.InitialRequest(s.client, MethodPost, CompletionsPath, Some(req)), opts);
    if req.apiKey != "" {
      assert IsLast(opts, 0, Service.HasKey);
    } else {
      assert NoneSatisfy(opts, Service.HasKey);
    }
  }

  /**
   * CreateCompletion: the options build the request; the service client
   * encodes it (an unencodable setting fails as "error creating HTTP
   * request"), sends it and decodes the body into a zero CompletionResponse,
   * so an empty body gives the zero response. Every Do failure, a non-2xx
   * status included, is wrapped and no response is returned.
   */
  method CreateCompletion(s: ChatService, model: string, messages: seq<Message>, opts: seq<RequestOpt>,
                          doerResult: Result<HttpResponse, Error>, body: DecodeOutcome<CompletionResponse>)
    returns (sent: Option<HttpRequest<Request>>, resp: Option<CompletionResponse>, err: Option<Error>)
    ensures var req := ApplyRequestOpts(BaseRequest(model, messages), opts);
      RequestEncodeError(req).Some? ==> (sent.None? && resp.None? &&
        err == Some(Wrapped("error creating HTTP request", Wrapped("failed to encode body", RequestEncodeError(req).value))))
    ensures var req := ApplyRequestOpts(BaseRequest(model, messages), opts);
      RequestEncodeError(req).None? ==> sent == Some(CompletionHttpRequest(s, req))
    ensures resp.Some? <==> err.None?
    ensures err.None? <==> sent.Some? && doerResult.Success? && Service.IsSuccessStatus(doerResult.value.statusCode)
                           && (body.BodyDecoded? || Is(body.cause, IoEOF))
    ensures resp.Some? ==> resp.value == if body.BodyDecoded? then body.value else ZeroCompletionResponse
    ensures sent.Some? && err.Some? ==>
      err == Some(Wrapped("error performing HTTP request", Service.Do(doerResult, Service.DecodeInto(body)).err.value))
  {
    var req := BuildRequest(model, messages, opts);
    var httpReq := Service.NewRequestWithContext(s.client, MethodPost, CompletionsPath, Some(req), RequestEncodeError(req),
                                                 [Service.WithAPIKey(req.apiKey)]);
    if httpReq.Failure? {
      return None, None, Some(Wrapped("error creating HTTP request", httpReq.error));
    }
    sent := Some(httpReq.value);
    var done := Service.Do(doerResult, Service.DecodeInto(body));
    if done.err.Some? {
      return sent, None, Some(Wrapped("error performing HTTP request", done.err.value));
    }
    resp, err := Some(done.written.GetOr(ZeroCompletionResponse)), None;
  }

  /**
   * CreateStreamingCompletion: WithStream(true) is appended to the options, so
   * the request always streams; Do leaves the body alone and, on success, the
   * body becomes a fresh stream.
   */
  method CreateStreamingCompletion(s: ChatService, model: string, messages: seq<Message>, opts: seq<RequestOpt>,
                                   doerResult: Result<HttpResponse, Error>,
                                   unmarshal: string -> PayloadDecode<StreamingObject>)
    returns (sent: Option<HttpRequest<Request>>, stream: StreamingCompletionResponse?, err: Option<Error>)
    ensures var req := ApplyRequestOpts(BaseRequest(model, messages), opts).(stream := Some(true));
      RequestEncodeError(req).Some? ==> (sent.None? &&
        err == Some(Wrapped("error creating HTTP request", Wrapped("failed to encode body", RequestEncodeError(req).value))))
    ensures var req := ApplyRequestOpts(BaseRequest(model, messages), opts).(stream := Some(true));
      RequestEncodeError(req).None? ==> sent == Some(CompletionHttpRequest(s, req))
    ensures sent.Some? ==> sent.value.body.Some? && sent.value.body.value.stream == Some(true)
    ensures err.None? <==> sent.Some? && doerResult.Success? && Service.IsSuccessStatus(doerResult.value.statusCode)
    ensures sent.Some? && doerResult.Success? && !Service.IsSuccessStatus(doerResult.value.statusCode) ==>
      err == Some(Wrapped("error performing HTTP request", UnexpectedStatusCode(StatusOK, doerResult.value.statusCode)))
    ensures sent.Some? && doerResult.Failure? ==>
      err == Some(Wrapped("error performing HTTP request", Wrapped("failed to perform request", doerResult.error)))
    ensures sent.Some? && err.Some? ==>
      err == Some(Wrapped("error performing HTTP request", Service.Do<CompletionResponse>(doerResult, Service.Discard).err.value))
    ensures err.None? ==> stream != null && fresh(stream) && stream.steps == doerResult.value.events
    ensures err.None? ==> stream.unmarshal == unmarshal
    ensures err.Some? ==> stream == null
  {
    StreamForcedLast(BaseRequest(model, messages), opts);
    var req := BuildRequest(model, messages, opts + [WithStream(true)]);
    var httpReq := Service.NewRequestWithContext(s.client, MethodPost, CompletionsPath, Some(req), RequestEncodeError(req),
                                                 [Service.WithAPIKey(req.apiKey)]);
    if httpReq.Failure? {
      return None, null, Some(Wrapped("error creating HTTP request", httpReq.error));
    }
    sent := Some(httpReq.value);
    CompletionAuthorization(s, req);
    var done := Service.Do<CompletionResponse>(doerResult, Service.Discard);
    if done.err.Some? {
      return sent, null, Some(Wrapped("error performing HTTP request", done.err.value));
    }
    stream := new StreamingCompletionResponse(done.resp.value.events, unmarshal);
    err := None;
  }
}
