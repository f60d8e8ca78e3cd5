/** The values of net/http that the core builds and inspects. */
module Http {
  import opened Wrappers
  import opened Errors
  import opened Sse

  /** Where a request goes: an absolute URL, or a base URL joined (url.URL.JoinPath) with a path. */
  datatype Target = Absolute(url: string) | Joined(base: string, path: string)

  /** An outgoing request: its method (verb), target, header fields (Header.Set replaces) and the value encoded as the JSON body. */
  datatype HttpRequest<B> = HttpRequest(verb: string, target: Target, header: map<string, string>, body: Option<B>)

  /** A response: its status code, and its body as the event-stream scanner would read it. */
  datatype HttpResponse = HttpResponse(statusCode: int, events: seq<ScanStep>)

  /** What a json.Decoder reading a response body into a `T` reports. */
  datatype DecodeOutcome<T> = BodyDecoded(value: T) | BodyDecodeError(cause: Error)

  const StatusOK := 200
  const MethodPost := "POST"
  const AuthorizationHeader := "Authorization"
  const ContentTypeHeader := "Content-Type"
  const JsonContentType := "application/json"

  /** The Authorization value `fmt.Sprintf("Bearer %s", key)`. */
  function Bearer(key: string): (v: string)
    ensures |v| == 7 + |key| && v[..7] == "Bearer " && v[7..] == key
  {
    "Bearer " + key
  }
}
