/**
 * The request-side values of the chat API and their functional options.
 * openai.go and pkg/chat/chat.go declare identical copies of these types and
 * options (Message, FunctionCall, FunctionDefinition, functionCallSetting and
 * the completion request); they are declared once here and used by both.
 *
 * A Go option is a closure that writes one field of the record it is given;
 * here each option is a tag, `Apply...Opt` is that closure's effect, and
 * `Apply...Opts` applies a whole option list in order, as the source's
 * `for _, opt := range opts { opt(&x) }` loops do.
 */
module ApiTypes {
  import opened Wrappers
  import opened Json
  import opened LastWins

  newtype byte = x: int | 0 <= x < 256

  /** Go's float64 request fields; they are only carried, never computed with. */
  type Float = real

  // ----- messages -----

  /** A request to call a function; `arguments` is the raw JSON text. */
  datatype FunctionCall = FunctionCall(name: string, arguments: seq<byte>)

  /** A chat message; the optional fields are Go pointers that may be nil. */
  datatype Message = Message(role: string, content: Option<string>, name: Option<string>, functionCall: Option<FunctionCall>)

  datatype MessageOpt =
    | WithMessageContent(content: string)
    | WithMessageName(name: string)
    | WithMessageFunctionCall(call: FunctionCall)

  predicate SetsContent(o: MessageOpt) { o.WithMessageContent? }
  predicate SetsName(o: MessageOpt) { o.WithMessageName? }
  predicate SetsFunctionCall(o: MessageOpt) { o.WithMessageFunctionCall? }

  const ZeroFunctionCall := FunctionCall("", [])
  const ZeroMessage := Message("", None, None, None)

  /** The message `Message{Role: role}` that NewMessage starts from. */
  function BaseMessage(role: string): (m: Message) {
    Message(role, None, None, None)
  }

  /** One message option: it sets its own field and no other. */
  function ApplyMessageOpt(m: Message, o: MessageOpt): (r: Message)
    ensures r.role == m.role
    ensures r.content == if SetsContent(o) then Some(o.content) else m.content
    ensures r.name == if SetsName(o) then Some(o.name) else m.name
    ensures r.functionCall == if SetsFunctionCall(o) then Some(o.call) else m.functionCall
  {
    match o
    case WithMessageContent(c) => m.(content := Some(c))
    case WithMessageName(n) => m.(name := Some(n))
    case WithMessageFunctionCall(fc) => m.(functionCall := Some(fc))
  }

  /** The options applied in order. */
  function ApplyMessageOpts(m: Message, opts: seq<MessageOpt>): (m': Message)
    decreases |opts|
  {
    if |opts| == 0 then m else ApplyMessageOpt(ApplyMessageOpts(m, opts[..|opts| - 1]), opts[|opts| - 1])
  }

  /** Applying options never changes the role. */
  lemma {:induction false} MessageOptsKeepRole(m: Message, opts: seq<MessageOpt>)
    ensures ApplyMessageOpts(m, opts).role == m.role
    decreases |opts|
  {
    if |opts| > 0 { MessageOptsKeepRole(m, opts[..|opts| - 1]); }
  }

  /** The last content option decides the content; without one it is unchanged. */
  lemma {:induction false} MessageContentLastWins(m: Message, opts: seq<MessageOpt>)
    ensures NoneSatisfy(opts, SetsContent) ==> ApplyMessageOpts(m, opts).content == m.content
    ensures forall k :: IsLast(opts, k, SetsContent) ==> ApplyMessageOpts(m, opts).content == Some(opts[k].content)
    decreases |opts|
  {
    if |opts| > 0 {
      MessageContentLastWins(m, opts[..|opts| - 1]);
      if SetsContent(opts[|opts| - 1]) { LastIsFinal(opts, SetsContent); } else { LastInPrefix(opts, SetsContent); }
    }
  }

  /** The last name option decides the name; without one it is unchanged. */
  lemma {:induction false} MessageNameLastWins(m: Message, opts: seq<MessageOpt>)
    ensures NoneSatisfy(opts, SetsName) ==> ApplyMessageOpts(m, opts).name == m.name
    ensures forall k :: IsLast(opts, k, SetsName) ==> ApplyMessageOpts(m, opts).name == Some(opts[k].name)
    decreases |opts|
  {
    if |opts| > 0 {
      MessageNameLastWins(m, opts[..|opts| - 1]);
      if SetsName(opts[|opts| - 1]) { LastIsFinal(opts, SetsName); } else { LastInPrefix(opts, SetsName); }
    }
  }

  /** The last function-call option decides the function call; without one it is unchanged. */
  lemma {:induction false} MessageFunctionCallLastWins(m: Message, opts: seq<MessageOpt>)
    ensures NoneSatisfy(opts, SetsFunctionCall) ==> ApplyMessageOpts(m, opts).functionCall == m.functionCall
    ensures forall k :: IsLast(opts, k, SetsFunctionCall) ==> ApplyMessageOpts(m, opts).functionCall == Some(opts[k].call)
    decreases |opts|
  {
    if |opts| > 0 {
      MessageFunctionCallLastWins(m, opts[..|opts| - 1]);
      if SetsFunctionCall(opts[|opts| - 1]) {
        LastIsFinal(opts, SetsFunctionCall);
      } else {
        LastInPrefix(opts, SetsFunctionCall);
      }
    }
  }

  /** NewMessage: `Message{Role: role}` with the options applied in order. */
  method NewMessage(role: string, opts: seq<MessageOpt>) returns (m: Message)
    ensures m == ApplyMessageOpts(BaseMessage(role), opts)
    ensures m.role == role
    ensures NoneSatisfy(opts, SetsContent) ==> m.content.None?
    ensures forall k :: IsLast(opts, k, SetsContent) ==> m.content == Some(opts[k].content)
    ensures NoneSatisfy(opts, SetsName) ==> m.name.None?
    ensures forall k :: IsLast(opts, k, SetsName) ==> m.name == Some(opts[k].name)
    ensures NoneSatisfy(opts, SetsFunctionCall) ==> m.functionCall.None?
    ensures forall k :: IsLast(opts, k, SetsFunctionCall) ==> m.functionCall == Some(opts[k].call)
  {
    m := BaseMessage(role);
    for i := 0 to |opts|
      invariant m == ApplyMessageOpts(BaseMessage(role), opts[..i])
    {
      assert opts[..i + 1][..i] == opts[..i];
      m := ApplyMessageOpt(m, opts[i]);
    }
    assert opts[..|opts|] == opts;
    MessageOptsKeepRole(BaseMessage(role), opts);
    MessageContentLastWins(BaseMessage(role), opts);
    MessageNameLastWins(BaseMessage(role), opts);
    MessageFunctionCallLastWins(BaseMessage(role), opts);
  }

  // ----- function definitions -----

  /** A function the model may call; `parameters` is any JSON-encodable value. */
  datatype FunctionDefinition = FunctionDefinition(name: string, description: Option<string>, parameters: Json)

  datatype FunctionDefinitionOpt = WithFunctionDescription(description: string)

  function ApplyFunctionDefinitionOpt(f: FunctionDefinition, o: FunctionDefinitionOpt): (r: FunctionDefinition)
    ensures r.name == f.name && r.parameters == f.parameters && r.description == Some(o.description)
  {
    f.(description := Some(o.description))
  }

  /** NewFunctionDefinition: name and parameters as given; the last description option wins. */
  method NewFunctionDefinition(name: string, parameters: Json, opts: seq<FunctionDefinitionOpt>) returns (f: FunctionDefinition)
    ensures f.name == name && f.parameters == parameters
    ensures f.description == if |opts| == 0 then None else Some(opts[|opts| - 1].description)
  {
    f := FunctionDefinition(name, None, parameters);
    for i := 0 to |opts|
      invariant f.name == name && f.parameters == parameters
      invariant f.description == if i == 0 then None else Some(opts[i - 1].description)
    {
      f := ApplyFunctionDefinitionOpt(f, opts[i]);
    }
  }

  // ----- the completion request -----

  /** functionCallSetting: a predefined value ("none", "auto") or the name of a function. */
  datatype FunctionCallSetting = FunctionCallSetting(value: string, name: string)

  const ZeroSetting := FunctionCallSetting("", "")

  /** chatCompletionRequest / completionRequest; `apiKey` is never serialised. */
  datatype Request = Request(
    apiKey: string,
    model: string,
    messages: seq<Message>,
    functions: seq<FunctionDefinition>,
    functionCall: Option<FunctionCallSetting>,
    temperature: Option<Float>,
    topP: Option<Float>,
    n: Option<int>,
    stream: Option<bool>,
    stop: seq<string>,
    maxTokens: Option<int>,
    presencePenalty: Option<Float>,
    frequencyPenalty: Option<Float>,
    logitBias: map<string, Float>,
    user: Option<string>)

  /** The request `{Model: model, Messages: messages}` that options are applied to. */
  function BaseRequest(model: string, messages: seq<Message>): (r: Request) {
    Request("", model, messages, [], None, None, None, None, None, [], None, None, None, map[], None)
  }

  datatype RequestOpt =
    | WithFunctions(functions: seq<FunctionDefinition>)
    | WithFunctionCallBySetting(settingValue: string)
    | WithFunctionCallByName(functionName: string)
    | WithTemperature(temperature: Float)
    | WithTopP(topP: Float)
    | WithN(n: int)
    | WithStream(stream: bool)
    | WithStop(stop: seq<string>)
    | WithMaxTokens(maxTokens: int)
    | WithPresencePenalty(presencePenalty: Float)
    | WithFrequencyPenalty(frequencyPenalty: Float)
    | WithLogitBias(logitBias: map<string, Float>)
    | WithUser(user: string)
    | WithAPIKey(apiKey: string)

  predicate SetsAPIKey(o: RequestOpt) { o.WithAPIKey? }
  predicate SetsStream(o: RequestOpt) { o.WithStream? }
  predicate SetsFunctionCallSetting(o: RequestOpt) { o.WithFunctionCallBySetting? || o.WithFunctionCallByName? }

  /** MarshalJSON of a setting succeeds: it has a value or a name. */
  predicate SettingEncodable(f: FunctionCallSetting) {
    f.value != "" || f.name != ""
  }

  /** The argument a function-call option was given. */
  function SettingArgument(o: RequestOpt): (arg: string)
    requires SetsFunctionCallSetting(o)
  {
    if o.WithFunctionCallBySetting? then o.settingValue else o.functionName
  }

  /** The setting a function-call option installs: a fresh struct with only one field set. */
  function SettingOf(o: RequestOpt): (s: FunctionCallSetting)
    requires SetsFunctionCallSetting(o)
  {
    if o.WithFunctionCallBySetting? then FunctionCallSetting(o.settingValue, "") else FunctionCallSetting("", o.functionName)
  }

  /** One request option: model and messages are never touched, and every other field changes only by its own option. */
  function ApplyRequestOpt(r: Request, o: RequestOpt): (r': Request)
    ensures r'.model == r.model && r'.messages == r.messages
    ensures r'.apiKey == if SetsAPIKey(o) then o.apiKey else r.apiKey
    ensures r'.stream == if SetsStream(o) then Some(o.stream) else r.stream
    ensures r'.functionCall == if SetsFunctionCallSetting(o) then Some(SettingOf(o)) else r.functionCall
    ensures r'.functions == if o.WithFunctions? then o.functions else r.functions
    ensures r'.temperature == if o.WithTemperature? then Some(o.temperature) else r.temperature
    ensures r'.topP == if o.WithTopP? then Some(o.topP) else r.topP
    ensures r'.n == if o.WithN? then Some(o.n) else r.n
    ensures r'.stop == if o.WithStop? then o.stop else r.stop
    ensures r'.maxTokens == if o.WithMaxTokens? then Some(o.maxTokens) else r.maxTokens
    ensures r'.presencePenalty == if o.WithPresencePenalty? then Some(o.presencePenalty) else r.presencePenalty
    ensures r'.frequencyPenalty == if o.WithFrequencyPenalty? then Some(o.frequencyPenalty) else r.frequencyPenalty
    ensures r'.logitBias == if o.WithLogitBias? then o.logitBias else r.logitBias
    ensures r'.user == if o.WithUser? then Some(o.user) else r.user
  {
    match o
    case WithFunctions(fs) => r.(functions := fs)
    case WithFunctionCallBySetting(v) => r.(functionCall := Some(FunctionCallSetting(v, "")))
    case WithFunctionCallByName(nm) => r.(functionCall := Some(FunctionCallSetting("", nm)))
    case WithTemperature(t) => r.(temperature := Some(t))
    case WithTopP(p) => r.(topP := Some(p))
    case WithN(k) => r.(n := Some(k))
    case WithStream(b) => r.(stream := Some(b))
    case WithStop(s) => r.(stop := s)
    case WithMaxTokens(k) => r.(maxTokens := Some(k))
    case WithPresencePenalty(p) => r.(presencePenalty := Some(p))
    case WithFrequencyPenalty(p) => r.(frequencyPenalty := Some(p))
    case WithLogitBias(b) => r.(logitBias := b)
    case WithUser(u) => r.(user := Some(u))
    case WithAPIKey(k) => r.(apiKey := k)
  }

  /** The options applied in order. */
  function ApplyRequestOpts(r: Request, opts: seq<RequestOpt>): (r': Request)
    decreases |opts|
  {
    if |opts| == 0 then r else ApplyRequestOpt(ApplyRequestOpts(r, opts[..|opts| - 1]), opts[|opts| - 1])
  }

  /** Model and messages survive every option list. */
  lemma {:induction false} RequestOptsKeepModel(r: Request, opts: seq<RequestOpt>)
    ensures ApplyRequestOpts(r, opts).model == r.model && ApplyRequestOpts(r, opts).messages == r.messages
    decreases |opts|
  {
    if |opts| > 0 { RequestOptsKeepModel(r, opts[..|opts| - 1]); }
  }

  /** The last WithAPIKey decides the request's key (even an empty one); without one it is unchanged. */
  lemma {:induction false} APIKeyLastWins(r: Request, opts: seq<RequestOpt>)
    ensures NoneSatisfy(opts, SetsAPIKey) ==> ApplyRequestOpts(r, opts).apiKey == r.apiKey
    ensures forall k :: IsLast(opts, k, SetsAPIKey) ==> ApplyRequestOpts(r, opts).apiKey == opts[k].apiKey
    decreases |opts|
  {
    if |opts| > 0 {
      APIKeyLastWins(r, opts[..|opts| - 1]);
      if SetsAPIKey(opts[|opts| - 1]) { LastIsFinal(opts, SetsAPIKey); } else { LastInPrefix(opts, SetsAPIKey); }
    }
  }

  /** The last WithStream decides the stream flag; without one it is unchanged. */
  lemma {:induction false} StreamLastWins(r: Request, opts: seq<RequestOpt>)
    ensures NoneSatisfy(opts, SetsStream) ==> ApplyRequestOpts(r, opts).stream == r.stream
    ensures forall k :: IsLast(opts, k, SetsStream) ==> ApplyRequestOpts(r, opts).stream == Some(opts[k].stream)
    decreases |opts|
  {
    if |opts| > 0 {
      StreamLastWins(r, opts[..|opts| - 1]);
      if SetsStream(opts[|opts| - 1]) { LastIsFinal(opts, SetsStream); } else { LastInPrefix(opts, SetsStream); }
    }
  }

  /** The last function-call option installs its setting whole, discarding any earlier one. */
  lemma {:induction false} FunctionCallSettingLastWins(r: Request, opts: seq<RequestOpt>)
    ensures NoneSatisfy(opts, SetsFunctionCallSetting) ==> ApplyRequestOpts(r, opts).functionCall == r.functionCall
    ensures forall k :: IsLast(opts, k, SetsFunctionCallSetting) ==> ApplyRequestOpts(r, opts).functionCall == Some(SettingOf(opts[k]))
    decreases |opts|
  {
    if |opts| > 0 {
      FunctionCallSettingLastWins(r, opts[..|opts| - 1]);
      if SetsFunctionCallSetting(opts[|opts| - 1]) {
        LastIsFinal(opts, SetsFunctionCallSetting);
      } else {
        LastInPrefix(opts, SetsFunctionCallSetting);
      }
    }
  }

  /**
   * The request carries a setting its encoder rejects exactly when the last
   * function-call option was given the empty string.
   */
  lemma UnencodableSettingFromOptions(r: Request, opts: seq<RequestOpt>)
    requires r.functionCall.None?
    ensures var f := ApplyRequestOpts(r, opts).functionCall;
      (f.Some? && !SettingEncodable(f.value)) <==>
      (exists k :: IsLast(opts, k, SetsFunctionCallSetting) && SettingArgument(opts[k]) == "")
  {
    FunctionCallSettingLastWins(r, opts);
    if !NoneSatisfy(opts, SetsFunctionCallSetting) {
      var k := LastSatisfying(opts, SetsFunctionCallSetting);
      forall k' | IsLast(opts, k', SetsFunctionCallSetting) ensures k' == k { LastIsUnique(opts, k, k', SetsFunctionCallSetting); }
    }
  }

  /** Appending WithStream(true) after the caller's options forces streaming on and changes nothing else. */
  lemma StreamForcedLast(r: Request, opts: seq<RequestOpt>)
    ensures ApplyRequestOpts(r, opts + [WithStream(true)]) == ApplyRequestOpts(r, opts).(stream := Some(true))
  {
    assert (opts + [WithStream(true)])[..|opts|] == opts;
  }

  /** The request loop shared by DoChatCompletion and CreateCompletion: the base request with the options applied in order. */
  method BuildRequest(model: string, messages: seq<Message>, opts: seq<RequestOpt>) returns (req: Request)
    ensures req == ApplyRequestOpts(BaseRequest(model, messages), opts)
    ensures req.model == model && req.messages == messages
    ensures NoneSatisfy(opts, SetsAPIKey) ==> req.apiKey == ""
    ensures forall k :: IsLast(opts, k, SetsAPIKey) ==> req.apiKey == opts[k].apiKey
    ensures NoneSatisfy(opts, SetsStream) ==> req.stream.None?
    ensures forall k :: IsLast(opts, k, SetsStream) ==> req.stream == Some(opts[k].stream)
    ensures NoneSatisfy(opts, SetsFunctionCallSetting) ==> req.functionCall.None?
    ensures forall k :: IsLast(opts, k, SetsFunctionCallSetting) ==> req.functionCall == Some(SettingOf(opts[k]))
  {
    req := BaseRequest(model, messages);
    for i := 0 to |opts|
      invariant req == ApplyRequestOpts(BaseRequest(model, messages), opts[..i])
    {
      assert opts[..i + 1][..i] == opts[..i];
      req := ApplyRequestOpt(req, opts[i]);
    }
    assert opts[..|opts|] == opts;
    RequestOptsKeepModel(BaseRequest(model, messages), opts);
    APIKeyLastWins(BaseRequest(model, messages), opts);
    StreamLastWins(BaseRequest(model, messages), opts);
    FunctionCallSettingLastWins(BaseRequest(model, messages), opts);
  }

  // ----- responses -----

  /** Token usage statistics. */
  datatype Usage = Usage(promptTokens: int, completionTokens: int, totalTokens: int)

  /** ChatCompletionChoice / CompletionChoice. */
  datatype Choice = Choice(index: int, message: Message, finishReason: string)

  const ZeroChoice := Choice(0, ZeroMessage, "")
}
