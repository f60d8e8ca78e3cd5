# openai-go chat client, modelled in Dafny

This project models the chat-completion core of `github.com/jclem/openai-go`,
in both of its generations:

- the first client in `openai.go` (`HTTPClient`, `DoChatCompletion`,
  `CreateChatCompletion`, `CreateStreamingChatCompletion`);
- the newer `pkg/chat` service, which builds and sends its requests
  through `internal/service`.

The model covers:

- the functional options that build messages, function definitions,
  completion requests and clients;
- the string-or-object JSON codec of the function-call setting;
- the response accessors `GetChoiceAt`, `GetContentAt` and
  `GetFunctionCallAt`;
- the mapping from what the event-stream scanner reports to what
  `Next()` returns;
- the service client's rules:
  - the `Authorization` header is first the client key, then overridden
    by a non-empty per-request key;
  - any 2xx status is success;
  - an empty body (`io.EOF` from the decoder) is not an error.

Modules, one per file:

- `Wrappers`: Option and Result.
- `LastWins`: "the last option that sets a field".
- `Json`: a parsed JSON value, and how `encoding/json` decodes one into a
  `string` or a `map[string]string`.
- `Decimal`: the `%d` verb.
- `Errors`: Go error values, `%w` wrapping and `errors.Is`.
- `Sse`: the scanner as a sequence of outcomes.
- `Http`: request and response values.
- `ApiTypes`: the request-side types and options. The two generations
  declare identical copies of these; the model declares them once.
- `Service`, `OpenAI`, `Chat`: the three source files.
- `Generations`: lemmas relating the two generations.

Modelling conventions:

- Each Go option closure is a tag. `Apply…Opt` is its effect, and
  `Apply…Opts` applies a list in order, as the source's
  `for _, opt := range opts` loops do.
- The loops themselves are methods proved equal to that fold. Lemmas then
  state, field by field, that the last option setting a field decides it.
- The scanner (`github.com/jclem/sseparser`) is not part of this model.
  Each pull is represented by what it reports:
  - a frame's `data`;
  - the end of the source;
  - a read failure.
- The JSON decoder for frame payloads is the parameter `unmarshal`.
- The HTTP doer's result, the response body's decode outcome, `io.Copy`'s
  outcome and `Close`'s error are parameters of the operations that
  consume them.
- A streaming response handle is a class. Its field `steps` holds what
  the scanner will meet, and each `Next()` consumes one step.

## Model

| member | source | states |
|---|---|---|
| ApiTypes.ApplyMessageOpt | openai.go:45-64 | each message option sets its own field to the given value and leaves the role and the other fields alone |
| ApiTypes.MessageOptsKeepRole | openai.go:66-75 | no list of message options changes the role NewMessage started from |
| ApiTypes.MessageContentLastWins | openai.go:45-50 | the last WithMessageContent decides the content; without one the content is unchanged |
| ApiTypes.MessageNameLastWins | openai.go:52-57 | the last WithMessageName decides the name; without one the name is unchanged |
| ApiTypes.MessageFunctionCallLastWins | openai.go:59-64 | the last WithMessageFunctionCall decides the function call; without one it is unchanged |
| ApiTypes.NewMessage | pkg/chat/chat.go:48-57 | the message is `Message{Role: role}` with the options applied in order: role kept, each optional field nil unless set, else the last setting option's value |
| ApiTypes.ApplyFunctionDefinitionOpt | openai.go:112-117 | WithFunctionDescription sets the description and keeps name and parameters |
| ApiTypes.NewFunctionDefinition | pkg/chat/chat.go:101-110 | name and parameters as given; description nil without options, else the last option's description |
| ApiTypes.ApplyRequestOpt | openai.go:238-338 | no request option touches model or messages; each of the other fields (key, functions, function call, temperature, top-p, n, stream, stop, max tokens, penalties, logit bias, user) is set by its own option and by no other |
| ApiTypes.RequestOptsKeepModel | pkg/chat/chat.go:343-347 | model and messages survive every list of request options |
| ApiTypes.APIKeyLastWins | pkg/chat/chat.go:324-329 | the last WithAPIKey decides the request key, even an empty one; without one the key is unchanged |
| ApiTypes.StreamLastWins | openai.go:284-289 | the last WithStream decides the stream flag; without one it is unchanged |
| ApiTypes.FunctionCallSettingLastWins | openai.go:245-261 | the last WithFunctionCallBySetting/ByName installs a fresh setting with only its own field set, discarding earlier ones |
| ApiTypes.UnencodableSettingFromOptions | pkg/chat/chat.go:236-252 | the built request carries a setting that cannot be marshalled exactly when the last function-call option was given the empty string |
| ApiTypes.StreamForcedLast | openai.go:433-434 | appending WithStream(true) to any options forces streaming on and changes nothing else |
| ApiTypes.BuildRequest | openai.go:369-373 | the request loop yields the base request folded with the options: model and messages kept; key, stream and function call from the last option that sets each |
| OpenAI.ChatCompletionResponse.GetChoiceAt | openai.go:185-191 | succeeds exactly for 0 <= index < len(Choices) and returns that choice; otherwise the zero choice and false, negative indices included |
| OpenAI.ChatCompletionResponse.GetContentAt | openai.go:194-205 | succeeds exactly for an in-range choice whose message content is non-nil, returning it; else "" and false |
| OpenAI.ChatCompletionResponse.GetFunctionCallAt | openai.go:208-219 | succeeds exactly for an in-range choice whose message has a function call, returning it; else the zero call and false |
| OpenAI.BuiltMessageAccessors | openai.go:194-219 | for a message NewMessage built, content is readable exactly when some option set it, and a function call exactly when some option set one |
| OpenAI.MarshalFunctionCallSetting | openai.go:135-156 | a non-empty Value encodes as a JSON string, else a non-empty Name as {"name": Name}, else the "must have a value or a name" error |
| OpenAI.UnmarshalFunctionCallSetting | openai.go:158-172 | a JSON string or null replaces Value only; an object of strings replaces Name only with its "name" member (empty when absent); anything else fails |
| OpenAI.SettingRoundTrip | openai.go:135-172 | decoding the encoding restores the Value when it was non-empty (Name is then dropped), else the Name |
| OpenAI.StreamingObject.UnmarshalSSEValue | openai.go:461-471 | the [DONE] payload is the done signal before any JSON decode; other payloads decode, and a decode failure is wrapped and is never the done or EOF signal |
| OpenAI.NextOutcome | openai.go:502-518 | (nil, nil) exactly for the end of the source or [DONE]; an object exactly for a decoded non-sentinel frame; read and decode failures wrapped "error reading next object from stream" |
| OpenAI.CompletionIsIdempotent | openai.go:502-518 | when [DONE] is the last frame, or once the source is exhausted, every pull returns (nil, nil) |
| OpenAI.StreamingChatCompletionResponse.Next | openai.go:502-518 | one pull consumes one scanner step and returns NextOutcome of it |
| OpenAI.ApplyClientOpt | openai.go:541-553 | WithKey sets only the key, WithHTTPDoer only the doer |
| OpenAI.ClientKeyLastWins | openai.go:541-546 | the last WithKey decides the client key; without one it stays empty |
| OpenAI.ClientDoerLastWins | openai.go:548-553 | the last WithHTTPDoer decides the doer; without one it stays the default client |
| OpenAI.NewHTTPClient | openai.go:525-536 | the default doer and no key, folded with the options; key and doer come from the last option setting each |
| OpenAI.SelectAPIKey | openai.go:385-390 | the per-request key when non-empty, else the client key |
| OpenAI.RequestEncodeError | openai.go:375-378 | marshalling a request fails exactly when it carries a function-call setting with neither value nor name, and the error wraps the setting's own error |
| OpenAI.DoChatCompletion | openai.go:361-405 | unmarshallable requests fail before sending; otherwise a POST to the chat completions URL with bearer key and JSON content type; doer errors wrapped; only status 200 returns the response, any other is ErrUnexpectedStatusCode{200, status} |
| OpenAI.CreateStreamingChatCompletion | openai.go:429-441 | the request with stream=true on top of the caller's options is sent exactly when it marshals; marshal, doer and non-200 errors are DoChatCompletion's, unchanged; success exactly for status 200, giving a fresh stream over the body |
| OpenAI.CreateChatCompletion | openai.go:407-427 | the request is sent exactly when it marshals; marshal, doer and non-200 errors are DoChatCompletion's, unchanged; a response exactly when status is 200 and the body decodes; decode errors, the empty body included, are wrapped; a Close error after a good decode is reported beside the response |
| Chat.CompletionResponse.GetChoiceAt | pkg/chat/chat.go:172-182 | for non-negative indices: succeeds exactly when index < len(Choices), returning that choice, else the zero choice |
| Chat.CompletionResponse.GetContentAt | pkg/chat/chat.go:184-196 | succeeds exactly for an in-range choice with non-nil content, returning it |
| Chat.CompletionResponse.GetFunctionCallAt | pkg/chat/chat.go:198-210 | succeeds exactly for an in-range choice whose message has a function call, returning it |
| Chat.BuiltMessageAccessors | pkg/chat/chat.go:185-210 | for a message NewMessage built, content is readable exactly when some option set it, and a function call exactly when some option set one (the content-only and call-only messages of pkg/chat/chat_test.go:50-58 and 80-88) |
| Chat.StreamingObject.GetChoiceAt | pkg/chat/chat.go:409-416 | succeeds exactly when index < len(Choices), returning that streaming choice |
| Chat.StreamingObject.GetContentAt | pkg/chat/chat.go:418-430 | succeeds exactly for an in-range choice whose delta has content, returning it |
| Chat.StreamingObject.GetFunctionCallAt | pkg/chat/chat.go:432-444 | succeeds exactly for an in-range choice whose delta has a function call, returning it |
| Chat.MarshalFunctionCallSetting | pkg/chat/chat.go:117-142 | Value as a JSON string when non-empty, else {"name": Name} when non-empty, else ErrInvalidFunctionCallSetting |
| Chat.UnmarshalFunctionCallSetting | pkg/chat/chat.go:144-160 | a string or null replaces Value only; a string map replaces Name only; anything else is ErrInvalidFunctionCallSetting |
| Chat.SettingRoundTrip | pkg/chat/chat.go:120-160 | decoding the encoding restores the encoded field, and the settings the options install come back whole |
| Chat.RequestEncodeError | internal/service/service.go:53-60 | encoding a request fails exactly for a present setting with neither value nor name, and errors.Is finds ErrInvalidFunctionCallSetting in the error |
| Chat.StreamingObject.UnmarshalSSEValue | pkg/chat/chat.go:451-462 | [DONE] is ErrStreamDone itself, checked before decoding; a decode failure is wrapped "error unmarshaling streaming completion object" |
| Chat.NextOutcome | pkg/chat/chat.go:490-510 | exactly ErrStreamDone for [DONE]; an error wrapping ErrStreamEOF exactly for the end of the source; an object exactly when there is no error; never (nil, nil) |
| Chat.StreamScenarios | pkg/chat/chat.go:490-510 | a chunk then [DONE] yields the chunk, then ErrStreamDone, then the early-end error; a chunk then the end of the source yields the chunk, then the early-end error |
| Chat.MalformedFrameThenChunk | pkg/chat/chat.go:452-510 | a malformed frame yields the wrapped decode error and does not stop the stream: the next pull still yields the following good frame |
| Chat.PullsAfterExhaustion | pkg/chat/chat.go:497-500 | once the source is exhausted, every pull reports "stream ended before [DONE]" |
| Chat.StreamingCompletionResponse.Next | pkg/chat/chat.go:493-510 | one pull consumes one scanner step and returns NextOutcome of it |
| Chat.CompletionAuthorization | pkg/chat/chat.go:349-350 | the completion request is a JSON POST to base URL + /chat/completions whose bearer token is the request key when non-empty, else the client key |
| Chat.CreateCompletion | pkg/chat/chat.go:334-361 | unencodable requests fail as "error creating HTTP request"; otherwise a response exactly for a 2xx status whose body decodes or is empty (zero response); other failures wrapped "error performing HTTP request" |
| Chat.CreateStreamingCompletion | pkg/chat/chat.go:363-393 | stream=true is forced; unencodable requests fail as "error creating HTTP request"; success exactly for a 2xx status, giving a fresh stream over the body; a doer failure or non-2xx status is Do's error wrapped "error performing HTTP request" |
| Service.ApplyRequestOpt | internal/service/service.go:123-133 | an empty key leaves the request unchanged; a non-empty one sets Authorization to "Bearer key" and touches nothing else |
| Service.RequestOptsAuthorization | internal/service/service.go:74-76 | options keep method, target, body and every other header; Authorization ends as the last non-empty key's bearer value, or as it was |
| Service.NewRequestWithContext | internal/service/service.go:42-79 | an encode failure is "failed to encode body"; otherwise Content-Type exactly when there is a body; Authorization from the client key, then overridden by the last non-empty option key |
| Service.Do | internal/service/service.go:81-118 | doer errors are wrapped with no response; the response is otherwise always returned; non-2xx is UnexpectedStatusCodeError{200, status}; a 2xx body succeeds exactly when the sink accepts it, an empty JSON body included |
| Service.StatusErrorTextNamesCodes | internal/service/service.go:30-33 | two unexpected-status errors with the same message have the same expected and actual codes |
| Errors.UnexpectedStatusText | internal/service/service.go:31-33 | the message is "unexpected status code " + %d of the actual code + " (expected " + %d of the expected code + ")", the same text as openai.go:351-353; the actual code's digits read back as the actual code |
| Errors.UnexpectedStatusTextInjective | openai.go:350-353 | the message "unexpected status code A (expected E)" determines both A and E |
| Decimal.NatRoundTrip | internal/service/service.go:32 | reading back the digits `%d` prints for a natural number gives that number |
| Decimal.IntRoundTrip | internal/service/service.go:32 | reading back `%d` of any integer, negatives included, gives that integer |
| Json.DecodeString | pkg/chat/chat.go:145-146 | decoding into a string succeeds exactly for a JSON string or null, giving the string or "" |
| Json.DecodeStringMap | pkg/chat/chat.go:152-153 | decoding into map[string]string succeeds for null (empty map) or an object whose members are all strings or null, keeping its keys |
| Http.Bearer | internal/service/service.go:72 | the Authorization value is "Bearer " followed by exactly the key |
| Sse.PullsOfExhausted | pkg/chat/chat.go:496 | pulls on an exhausted source all meet its end |
| Generations.StreamEndsDistinguished | openai.go:502-518 | the first generation returns (nil, nil) for both [DONE] and a cut-off stream; the newer one reports ErrStreamDone and an early-end error, which differ |
| Generations.NextAgreesOnFrames | pkg/chat/chat.go:493-510 | on frames both decoders treat alike, both generations agree on whether Next yields an object; on read failures they report the same error |
| Generations.SuccessStatusWidened | internal/service/service.go:94-100 | whenever the first generation accepts a status (exactly 200, openai.go:400) Do accepts it too and leaves the outcome to the body sink; every other 2xx status is rejected by the first generation and accepted by Do; outside 2xx both reject with UnexpectedStatusCode{200, status} |
| Generations.AccessorsAgree | pkg/chat/chat.go:176-210 | for non-negative indices the accessors of the two generations return the same results |
| Generations.SameAuthorization | openai.go:385-393 | given the same client key, both generations send the same header fields, the same bearer token included |
| Generations.CodecsAgree | pkg/chat/chat.go:120-160 | the two function-call codecs encode and decode alike, and differ only in their error values |

## Left out

- The event-stream wire format: frame splitting, field parsing and
  buffering. These live in `github.com/jclem/sseparser`, which is not part
  of this model; the scanner is represented by its outcomes.
- General JSON text encoding and decoding. Payload decoding is the
  `unmarshal` parameter, and response bodies are decoded by the
  `DecodeOutcome` parameter. Only the function-call codec is modelled, on
  parsed JSON values.
- Request encoding failures other than an empty function-call setting:
  - NaN or infinite float64 fields;
  - invalid raw JSON in a function call's `Arguments`;
  - parameters that cannot be encoded.
  Floats are carried as `real` and never computed with.
- `json.MarshalerError`'s exact text: it is modelled as one wrapping
  layer. Its type name and the "error marshaling function call setting …"
  branches are left out, because `json.Marshal` of a string or a string
  map cannot fail.
- `http.NewRequestWithContext` failures ("error creating HTTP request" /
  "failed to create request"). The method is always POST. The first
  generation's URL is a constant (openai.go:380), but the newer one joins
  a caller-supplied base URL (internal/service/service.go:50) whose
  re-parse at internal/service/service.go:63 can fail; a base URL that
  fails to parse there is not modelled.
- `url.URL.JoinPath` normalisation: the target is kept as (base, path).
- `context.Context` cancellation, goroutines, response-body buffering and
  partial reads.
- Closing streams (`StreamingChatCompletionResponse.Close`,
  `StreamingCompletionResponse.Close`) and the deferred `resp.Body.Close()`
  in `Service.Do`. Their I/O is external, and the newer stream's own
  "error closing stream" error (pkg/chat/chat.go:513-519) is not modelled.
  Among the modelled operations, only the old `CreateChatCompletion`
  reports a Close error, and that is modelled as a parameter.
- The `Response` pointer carried inside the unexpected-status errors. The
  model doesn't carry it; the response is returned separately where the
  source returns it.
- Decoding into a non-zero value: decode outcomes deliver a whole value,
  so a JSON decode that fails after partially filling its target is not
  represented.
- OpenAI.CreateChatCompletion: a body of literal JSON `null` makes the
  source return a nil response with no error. The model does not
  represent that case.
- Chat.CompletionResponse.GetChoiceAt, Chat.StreamingObject.GetChoiceAt
  (and the content and function-call accessors built on them): they
  require a non-negative index, because the source panics on a negative
  one. For `CompletionResponse.GetChoiceAt` its doc comment says so
  (pkg/chat/chat.go:173-175); `StreamingCompletionObject.GetChoiceAt`
  (pkg/chat/chat.go:409-416) has no such comment and panics only because
  it indexes `o.Choices[index]` after checking the upper bound alone.
- The embeddings package (`pkg/embeddings`) and the test helpers, which
  are outside the chat core.

### Where the code and the expected or documented behaviour differ

The model follows the code in each case.

- Newer generation: a caller would reasonably expect the stream handle to
  keep reporting "complete" after the first completion (no source comment
  promises it either way). In the code, the pull after
  `ErrStreamDone` meets the end of the source and reports "stream ended
  before [DONE]" (`Chat.StreamScenarios`, `Chat.PullsAfterExhaustion`).
  When `[DONE]` is the last frame, the first generation does keep returning
  `(nil, nil)` (`OpenAI.CompletionIsIdempotent`), but it cannot tell a cut-off stream
  from a finished one (`Generations.StreamEndsDistinguished`).
- Newer generation: the doc comment on `Next` (pkg/chat/chat.go:490-492)
  says it returns `nil, nil` when the stream is complete. The code returns
  `ErrStreamDone` for `[DONE]` (lines 502-503), and `Chat.NextOutcome`
  proves that no outcome is `(nil, nil)`.
- A caller might expect a malformed-frame error to carry the frame's
  original text for diagnostics; no source comment promises it. In both
  generations the error wraps only the JSON decoder's error, so the model
  carries only the decoder's reason.

