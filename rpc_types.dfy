/**
 * The request, reply and error shapes of the RPC client, with the JSON-RPC 2.0
 * envelopes it exchanges and an abstract view of an HTTP response.
 */
module RpcTypes {
  import opened Wrappers
  import opened JsValues

  // ---- DID requests and replies ----

  datatype DidRpcMethod = Create | Resolve

  /** The JSON-RPC method name each DID operation is sent as. */
  function MethodName(m: DidRpcMethod): string
  {
    match m
    case Create => "did.create"
    case Resolve => "did.resolve"
  }

  datatype RpcStatus = RpcStatus(code: int, message: string)

  datatype DidRpcRequest = DidRpcRequest(data: string, rpcMethod: DidRpcMethod, url: string)

  datatype DidRpcResponse = DidRpcResponse(data: Option<string>, ok: bool, status: RpcStatus)

  // ---- DWN requests and replies ----

  /** A DWN message; its JSON serialisation is left to the abstract stringifier. */
  datatype DwnMessage = DwnMessage(id: nat)

  /** `data` is `Undefined` when the caller gives none. */
  datatype DwnRpcRequest = DwnRpcRequest(data: JsValue, dwnUrl: string, message: DwnMessage, targetDid: string)

  /** A response body left unread: the `ReadableStream` the client hands on. */
  datatype StreamToken = StreamToken(id: nat)

  /** What a record's `data` property holds: a parsed JSON value or an attached stream. */
  datatype RecordData = Parsed(value: JsValue) | Streamed(stream: StreamToken)

  /** The `record` object of a reply: its `data` property and every other property. */
  datatype DwnRecord = DwnRecord(data: Option<RecordData>, rest: map<string, JsValue>)

  /** A DWN reply: its optional `record` property and every other property. */
  datatype DwnRpcResponse = DwnRpcResponse(record: Option<DwnRecord>, rest: map<string, JsValue>)

  // ---- JSON-RPC envelopes ----

  datatype JsonRpcParams =
    | DwnParams(target: string, message: DwnMessage)
    | DidParams(data: string)

  /** What `createJsonRpcRequest(id, method, params)` builds. */
  datatype JsonRpcRequest = JsonRpcRequest(id: string, rpcMethod: string, params: JsonRpcParams)

  /** The error object of section 5.1 of the JSON-RPC 2.0 specification. */
  datatype JsonRpcError = JsonRpcError(code: int, message: string)

  /** A parsed response envelope; `R` is the shape of its `result` member. */
  datatype JsonRpcResponse<R> = JsonRpcResponse(error: Option<JsonRpcError>, result: Option<R>)

  /** The `result` member of a DWN reply envelope: `{ reply }`. */
  datatype DwnResult = DwnResult(reply: Option<DwnRpcResponse>)

  // ---- HTTP responses ----

  /** The `dwn-response` header: absent, present but `parseJson` gave null, or parsed. */
  datatype ResponseHeader<R> =
    | HeaderAbsent
    | HeaderUnparsable
    | HeaderParsed(envelope: JsonRpcResponse<R>)

  /** The body read as text and parsed as JSON: a SyntaxError, or an envelope. */
  datatype BodyText<R> = Malformed(syntaxError: string) | WellFormed(envelope: JsonRpcResponse<R>)

  /**
   * A response of `fetch` as the clients observe it. `body` is `resp.body`
   * (null when the response has none); `bodyText` is what reading and parsing the
   * body would give, consulted only by the paths that read it.
   */
  datatype HttpResponse<R> = HttpResponse(
    ok: bool,
    status: int,
    statusText: string,
    dwnResponseHeader: ResponseHeader<R>,
    body: Option<StreamToken>,
    bodyText: BodyText<R>)

  /** A `fetch` call either rejects (the Fetch Standard's network error) or yields a response. */
  datatype FetchOutcome<R> = Rejected(reason: string) | Received(response: HttpResponse<R>)

  // ---- errors ----

  /** Every error the router and the HTTP clients throw. */
  datatype RpcError =
    | InvalidUrl(url: string)                               // `new URL(...)` threw
    | NoTransportClient(protocol: string)                   // no client for the scheme
    | UnparsableResponseHeader(dwnUrl: string)              // `dwn-response` parsed to null
    | MalformedJson(syntaxError: string)                    // the body was not JSON
    | DestructureUndefined(property: string, expression: string) // `const { property } = undefined`
    | ReadOfUndefined(property: string)                     // `undefined.property`
    | WriteOfUndefined(property: string)                    // `undefined.property = ...`
    | DwnJsonRpcFailure(code: int, message: string)         // DWN envelope with `error`
    | DidJsonRpcFailure(code: int, message: string)         // DID envelope with `error`
    | HttpFailure(status: int, statusText: string)          // DID response not ok
    | FetchRejected(reason: string)                         // network error
    | RequestRejected(reason: string)                       // `new Request(...)` threw
    | ResponseProcessingFailed(url: string, cause: RpcError) // DID path re-throw

  type DidOutcome = Result<Option<DidRpcResponse>, RpcError>

  type DwnOutcome = Result<Option<DwnRpcResponse>, RpcError>

  /** The `name` property of the thrown error. */
  function Name(e: RpcError): string
  {
    match e
    case NoTransportClient(_) => "NO_TRANSPORT_CLIENT"
    case InvalidUrl(_) => "TypeError"
    case DestructureUndefined(_, _) => "TypeError"
    case ReadOfUndefined(_) => "TypeError"
    case WriteOfUndefined(_) => "TypeError"
    case FetchRejected(_) => "TypeError"
    case RequestRejected(_) => "TypeError"
    case MalformedJson(_) => "SyntaxError"
    case _ => "Error"
  }

  /** The `message` property of the thrown error (V8 wording for the runtime's own errors). */
  function Message(e: RpcError): string
  {
    match e
    case InvalidUrl(_) => "Invalid URL"
    case NoTransportClient(p) => "no " + p + " transport client available"
    case UnparsableResponseHeader(u) => "failed to parse json rpc response. dwn url: " + u
    case MalformedJson(m) => m
    case DestructureUndefined(p, x) => "Cannot destructure property '" + p + "' of '" + x + "' as it is undefined."
    case ReadOfUndefined(p) => "Cannot read properties of undefined (reading '" + p + "')"
    case WriteOfUndefined(p) => "Cannot set properties of undefined (setting '" + p + "')"
    case DwnJsonRpcFailure(c, m) => "(" + NumberToString(c) + ") - " + m
    case DidJsonRpcFailure(c, m) => "JSON RPC (" + NumberToString(c) + ") - " + m
    case HttpFailure(s, t) => "HTTP (" + NumberToString(s) + ") - " + t
    case FetchRejected(m) => m
    case RequestRejected(m) => m
    case ResponseProcessingFailed(u, cause) =>
      "Error encountered while processing response from " + u + ": " + Message(cause)
  }

  /** The code of a JSON-RPC error and the status of an HTTP failure can be read back from the message. */
  lemma CodeReadableFromMessage(e: RpcError)
    requires e.DwnJsonRpcFailure? || e.DidJsonRpcFailure? || e.HttpFailure?
    ensures var n := if e.HttpFailure? then e.status else e.code;
            var start := if e.DwnJsonRpcFailure? then 1 else if e.DidJsonRpcFailure? then 10 else 6;
            var digits := NumberToString(n);
            start + |digits| <= |Message(e)| &&
            ParseNumber(Message(e)[start..start + |digits|]) == n
  {
    var n := if e.HttpFailure? then e.status else e.code;
    var digits := NumberToString(n);
    var start := if e.DwnJsonRpcFailure? then 1 else if e.DidJsonRpcFailure? then 10 else 6;
    var tail := if e.DwnJsonRpcFailure? then ") - " + e.message
                else if e.DidJsonRpcFailure? then ") - " + e.message
                else ") - " + e.statusText;
    var head := if e.DwnJsonRpcFailure? then "(" else if e.DidJsonRpcFailure? then "JSON RPC (" else "HTTP (";
    assert |head| == start;
    assert Message(e) == head + digits + tail;
    assert Message(e)[start..start + |digits|] == digits;
    NumberToStringRoundTrip(n);
  }

  /** A re-thrown error names the URL first and keeps the cause's message whole at its end. */
  lemma WrappedMessageKeepsCause(url: string, cause: RpcError)
    ensures var m := Message(ResponseProcessingFailed(url, cause));
            var prefix := "Error encountered while processing response from " + url + ": ";
            |prefix| <= |m| && m[..|prefix|] == prefix && m[|prefix|..] == Message(cause)
  {
  }
}
