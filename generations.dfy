/**
 * How the two client generations relate. They share the request options and
 * the function-call codec's encoding, but the newer one accepts every 2xx
 * status, lets an empty body stand for the zero response, and tells the end
 * of a stream apart from its [DONE] marker.
 */
module Generations {
  import opened Wrappers
  import opened Errors
  import opened Json
  import opened ApiTypes
  import opened Sse
  import opened Http
  import Service
  import OpenAI
  import Chat

  /**
   * The first generation's Next cannot tell a stream that ended with [DONE]
   * from one that was cut off; the newer one reports the two differently, and
   * only a cut-off stream's error wraps ErrStreamEOF.
   */
  lemma StreamEndsDistinguished(uOld: string -> PayloadDecode<OpenAI.StreamingObject>,
                                uNew: string -> PayloadDecode<Chat.StreamingObject>)
    ensures OpenAI.NextOutcome(EndOfStream, uOld) == OpenAI.NextOutcome(Frame(DoneSentinel), uOld) == NextResult(None, None)
    ensures Chat.NextOutcome(Frame(DoneSentinel), uNew).err == Some(StreamDone)
    ensures Chat.NextOutcome(EndOfStream, uNew).err == Some(Wrapped(Chat.EarlyEndContext, StreamEOF))
    ensures Chat.NextOutcome(EndOfStream, uNew) != Chat.NextOutcome(Frame(DoneSentinel), uNew)
  {
  }

  /**
   * On a frame both generations' decoders accept or reject alike, the two
   * Next calls agree on whether an object is produced, and on a read failure
   * they report the same wrapped error.
   */
  lemma NextAgreesOnFrames(step: ScanStep, uOld: string -> PayloadDecode<OpenAI.StreamingObject>,
                           uNew: string -> PayloadDecode<Chat.StreamingObject>)
    requires step.Frame? ==> (uOld(step.data).Decoded? <==> uNew(step.data).Decoded?)
    ensures step != EndOfStream && step != Frame(DoneSentinel) ==>
      (OpenAI.NextOutcome(step, uOld).obj.Some? <==> Chat.NextOutcome(step, uNew).obj.Some?)
    ensures step.ReadFailure? ==> OpenAI.NextOutcome(step, uOld).err == Chat.NextOutcome(step, uNew).err
  {
  }

  /**
   * Status acceptance: whatever the first generation's DoChatCompletion
   * accepts (OpenAI.AcceptsStatus, exactly 200), the service's Do accepts as
   * well, leaving the outcome to the body sink; every other 2xx status is
   * rejected by the first generation and accepted by the newer one; and a
   * status outside 2xx is rejected by both with the same error value.
   */
  lemma SuccessStatusWidened<T>(doerResult: Result<HttpResponse, Error>, sink: Service.Sink<T>)
    requires doerResult.Success?
    ensures OpenAI.AcceptsStatus(doerResult.value.statusCode) ==>
      (Service.Do(doerResult, sink).err.None? <==> Service.SinkAccepts(sink))
    ensures OpenAI.AcceptsStatus(doerResult.value.statusCode) ==> Service.Do<T>(doerResult, Service.Discard).err.None?
    ensures 200 <= doerResult.value.statusCode < 300 && doerResult.value.statusCode != StatusOK ==>
      !OpenAI.AcceptsStatus(doerResult.value.statusCode) && Service.Do<T>(doerResult, Service.Discard).err.None?
    ensures !Service.IsSuccessStatus(doerResult.value.statusCode) ==>
      !OpenAI.AcceptsStatus(doerResult.value.statusCode) &&
      Service.Do(doerResult, sink).err == Some(UnexpectedStatusCode(StatusOK, doerResult.value.statusCode))
  {
  }

  /** For non-negative indices the accessors of the two generations' responses agree. */
  lemma AccessorsAgree(r: OpenAI.ChatCompletionResponse, r': Chat.CompletionResponse, index: int)
    requires r.choices == r'.choices
    requires index >= 0
    ensures r.GetChoiceAt(index) == r'.GetChoiceAt(index)
    ensures r.GetContentAt(index) == r'.GetContentAt(index)
    ensures r.GetFunctionCallAt(index) == r'.GetFunctionCallAt(index)
  {
  }

  /**
   * Both generations send the same bearer token: the per-request key when it
   * is non-empty, else the client's key; both send the body as JSON.
   */
  lemma SameAuthorization(h: OpenAI.HTTPClient, s: Chat.ChatService, req: Request)
    requires h.key == s.client.key
    ensures AuthorizationHeader in Chat.CompletionHttpRequest(s, req).header
    ensures OpenAI.ChatCompletionHttpRequest(h, req).header[AuthorizationHeader]
         == Chat.CompletionHttpRequest(s, req).header[AuthorizationHeader]
    ensures OpenAI.ChatCompletionHttpRequest(h, req).header == Chat.CompletionHttpRequest(s, req).header
  {
    Chat.CompletionAuthorization(s, req);
  }

  /**
   * The two codecs encode alike and decode alike; they differ only in the
   * error value they fail with.
   */
  lemma CodecsAgree(f: FunctionCallSetting, j: Json)
    ensures OpenAI.MarshalFunctionCallSetting(f).Success? <==> Chat.MarshalFunctionCallSetting(f).Success?
    ensures OpenAI.MarshalFunctionCallSetting(f).Success? ==>
      OpenAI.MarshalFunctionCallSetting(f).value == Chat.MarshalFunctionCallSetting(f).value
    ensures OpenAI.UnmarshalFunctionCallSetting(f, j).Success? ==>
      OpenAI.UnmarshalFunctionCallSetting(f, j) == Chat.UnmarshalFunctionCallSetting(f, j)
    ensures OpenAI.UnmarshalFunctionCallSetting(f, j).Success? <==> Chat.UnmarshalFunctionCallSetting(f, j).Success?
  {
  }
}
