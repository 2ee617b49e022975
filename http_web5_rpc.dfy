/**
 * The built-in HTTP transport for DID requests (the client that also serves
 * DWN requests as the DWN HTTP transport does): framing of the POST and the
 * interpretation of its response, every failure re-thrown naming the URL.
 */
module HttpWeb5Rpc {
  import opened Wrappers
  import opened RpcTypes

  /** The `Request` object handed to `fetch`. */
  datatype HttpRequest = HttpRequest(url: string, httpMethod: string, headers: map<string, string>, body: string)

  /**
   * Frames a DID request: a JSON POST to `request.url` whose body is the stringified
   * envelope with the DID method name and params `{ data }`.
   */
  function FrameDidRequest(request: DidRpcRequest, requestId: string, stringify: JsonRpcRequest -> string): (req: HttpRequest)
    ensures req.url == request.url && req.httpMethod == "POST"
    ensures req.headers == map["Content-Type" := "application/json"]
    ensures req.body == stringify(JsonRpcRequest(requestId, MethodName(request.rpcMethod), DidParams(request.data)))
    ensures request.rpcMethod == Create ==> req.body == stringify(JsonRpcRequest(requestId, "did.create", DidParams(request.data)))
    ensures request.rpcMethod == Resolve ==> req.body == stringify(JsonRpcRequest(requestId, "did.resolve", DidParams(request.data)))
  {
    HttpRequest(request.url, "POST", map["Content-Type" := "application/json"],
                stringify(JsonRpcRequest(requestId, MethodName(request.rpcMethod), DidParams(request.data))))
  }

  /** The inner `try` block: what it returns, or the error it throws before re-wrapping. */
  function TryBlock(fetched: FetchOutcome<DidRpcResponse>): DidOutcome
  {
    match fetched
    case Rejected(reason) => Failure(FetchRejected(reason))
    case Received(resp) =>
      if !resp.ok then Failure(HttpFailure(resp.status, resp.statusText))
      else
        match resp.bodyText
        case Malformed(e) => Failure(MalformedJson(e))
        case WellFormed(envelope) =>
          match envelope.error
          case Some(err) => Failure(DidJsonRpcFailure(err.code, err.message))
          case None => Success(envelope.result)
  }

  /**
   * Interprets the outcome of fetching a DID request sent to `url`: a non-ok
   * status, a body that is not JSON, an error envelope and a rejected fetch all
   * fail, re-thrown with a message naming `url`; otherwise the result is the
   * envelope's `result`.
   */
  function InterpretDidResponse(url: string, fetched: FetchOutcome<DidRpcResponse>): (r: DidOutcome)
    ensures r.Failure? ==> r.error.ResponseProcessingFailed? && r.error.url == url
    ensures r.Success? <==> fetched.Received? && fetched.response.ok && fetched.response.bodyText.WellFormed? &&
                            fetched.response.bodyText.envelope.error.None?
    ensures r.Success? ==> r.value == fetched.response.bodyText.envelope.result
    ensures fetched.Rejected? ==> r == Failure(ResponseProcessingFailed(url, FetchRejected(fetched.reason)))
    ensures fetched.Received? && !fetched.response.ok ==>
              r == Failure(ResponseProcessingFailed(url, HttpFailure(fetched.response.status, fetched.response.statusText)))
    ensures forall env, err ::
              (fetched.Received? && fetched.response.ok && fetched.response.bodyText == WellFormed(env) &&
               env.error == Some(err)) ==>
              r == Failure(ResponseProcessingFailed(url, DidJsonRpcFailure(err.code, err.message)))
    ensures fetched.Received? && fetched.response.ok && fetched.response.bodyText.Malformed? ==>
              r == Failure(ResponseProcessingFailed(url, MalformedJson(fetched.response.bodyText.syntaxError)))
  {
    match TryBlock(fetched)
    case Success(result) => Success(result)
    case Failure(e) => Failure(ResponseProcessingFailed(url, e))
  }

  /**
   * `sendDidRequest` of the HTTP client: frames the request, fetches it and
   * interprets the outcome. `requestId` stands for the random UUID.
   * `requestCheck` stands for the URL checks of the `Request` constructor: the
   * TypeError message it throws, if any. That constructor runs before the
   * `try`, so its error reaches the caller unwrapped and nothing is fetched.
   */
  function SendDidRequest(request: DidRpcRequest, requestId: string, stringify: JsonRpcRequest -> string,
                          requestCheck: string -> Option<string>,
                          fetch: HttpRequest -> FetchOutcome<DidRpcResponse>): (r: DidOutcome)
    ensures requestCheck(request.url).Some? ==> r == Failure(RequestRejected(requestCheck(request.url).value))
    // once the `Request` is built, the fetch outcome decides the result exactly as `InterpretDidResponse` does
    ensures requestCheck(request.url).None? ==>
              r == InterpretDidResponse(request.url, fetch(FrameDidRequest(request, requestId, stringify)))
    ensures requestCheck(request.url).None? && r.Failure? ==>
              r.error.ResponseProcessingFailed? && r.error.url == request.url
    ensures r.Success? ==> requestCheck(request.url).None?
    ensures r.Success? ==>
              exists resp :: fetch(FrameDidRequest(request, requestId, stringify)) == Received(resp) && resp.ok
  {
    match requestCheck(request.url)
    case Some(reason) => Failure(RequestRejected(reason))
    case None => InterpretDidResponse(request.url, fetch(FrameDidRequest(request, requestId, stringify)))
  }

  /** An ok response whose envelope has no error returns the envelope's `result` as it is. */
  lemma ResultEnvelopeIsReturned(request: DidRpcRequest, requestId: string, stringify: JsonRpcRequest -> string,
                                 requestCheck: string -> Option<string>, fetch: HttpRequest -> FetchOutcome<DidRpcResponse>, resp: HttpResponse<DidRpcResponse>,
                                 result: Option<DidRpcResponse>)
    requires requestCheck(request.url).None?
    requires fetch(FrameDidRequest(request, requestId, stringify)) == Received(resp)
    requires resp.ok && resp.bodyText == WellFormed(JsonRpcResponse(None, result))
    ensures SendDidRequest(request, requestId, stringify, requestCheck, fetch) == Success(result)
  {
  }

  /** A non-ok status fails before the body is read: its text does not matter. */
  lemma NonOkNeverReadsBody(url: string, resp: HttpResponse<DidRpcResponse>, text: BodyText<DidRpcResponse>)
    requires !resp.ok
    ensures InterpretDidResponse(url, Received(resp)) == InterpretDidResponse(url, Received(resp.(bodyText := text)))
  {
  }

  /** The DID path never looks at the `dwn-response` header or the body stream. */
  lemma DidPathIgnoresDwnHeader(url: string, resp: HttpResponse<DidRpcResponse>, header: ResponseHeader<DidRpcResponse>,
                                body: Option<StreamToken>)
    ensures InterpretDidResponse(url, Received(resp))
         == InterpretDidResponse(url, Received(resp.(dwnResponseHeader := header, body := body)))
  {
  }

  /** Every failure's message begins by naming the URL and ends with the cause's own message. */
  lemma FailureMessageNamesUrl(url: string, fetched: FetchOutcome<DidRpcResponse>)
    requires InterpretDidResponse(url, fetched).Failure?
    ensures var e := InterpretDidResponse(url, fetched).error;
            var prefix := "Error encountered while processing response from " + url + ": ";
            |prefix| <= |Message(e)| && Message(e)[..|prefix|] == prefix &&
            Message(e)[|prefix|..] == Message(e.cause) && !e.cause.ResponseProcessingFailed?
  {
    var e := InterpretDidResponse(url, fetched).error;
    WrappedMessageKeepsCause(url, e.cause);
  }
}
