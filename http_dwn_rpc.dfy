/**
 * The built-in HTTP transport for DWN requests: how a request is framed for
 * `fetch`, and how the response is turned into a reply or an error.
 */
module HttpDwnRpc {
  import opened Wrappers
  import opened JsValues
  import opened RpcTypes

  /** The schemes the HTTP client serves. */
  const TransportProtocols: seq<string> := ["http:", "https:"]

  const ProcessMessage: string := "dwn.processMessage"

  /** The options object given to `fetch`. */
  datatype FetchOptions = FetchOptions(httpMethod: string, headers: map<string, string>, body: Option<JsValue>)

  /** The JSON-RPC envelope a DWN request is sent as. */
  function DwnEnvelope(request: DwnRpcRequest, requestId: string): JsonRpcRequest
  {
    JsonRpcRequest(requestId, ProcessMessage, DwnParams(request.targetDid, request.message))
  }

  /**
   * Frames a DWN request. The envelope always travels in the `dwn-request`
   * header; the payload, when truthy, is the raw body, labelled as octet stream.
   * `stringify` stands for `JSON.stringify`.
   */
  function FrameDwnRequest(request: DwnRpcRequest, requestId: string, stringify: JsonRpcRequest -> string): (opts: FetchOptions)
    ensures opts.httpMethod == "POST"
    ensures "dwn-request" in opts.headers
    ensures opts.headers["dwn-request"] == stringify(JsonRpcRequest(requestId, "dwn.processMessage", DwnParams(request.targetDid, request.message)))
    ensures "content-type" in opts.headers <==> Truthy(request.data)
    ensures "content-type" in opts.headers ==> opts.headers["content-type"] == "application/octet-stream"
    ensures opts.body.Some? <==> Truthy(request.data)
    ensures opts.body.Some? ==> opts.body.value == request.data
    ensures opts.headers.Keys <= {"dwn-request", "content-type"}
  {
    var headers := map["dwn-request" := stringify(DwnEnvelope(request, requestId))];
    if Truthy(request.data) then
      FetchOptions("POST", headers["content-type" := "application/octet-stream"], Some(request.data))
    else
      FetchOptions("POST", headers, None)
  }

  /** A falsy payload is never sent: framing is the same as with no payload at all. */
  lemma FalsyDataIsNotSent(request: DwnRpcRequest, requestId: string, stringify: JsonRpcRequest -> string)
    requires !Truthy(request.data)
    ensures FrameDwnRequest(request, requestId, stringify)
         == FrameDwnRequest(request.(data := Undefined), requestId, stringify)
    ensures FrameDwnRequest(request, requestId, stringify).headers.Keys == {"dwn-request"}
  {
  }

  /** The `dwn-request` header depends on the target and the message only, never on the payload or URL. */
  lemma EnvelopeHeaderIgnoresPayload(r1: DwnRpcRequest, r2: DwnRpcRequest, requestId: string, stringify: JsonRpcRequest -> string)
    requires r1.targetDid == r2.targetDid && r1.message == r2.message
    ensures FrameDwnRequest(r1, requestId, stringify).headers["dwn-request"]
         == FrameDwnRequest(r2, requestId, stringify).headers["dwn-request"]
  {
  }

  /** `reply['record']['data'] = stream`: overwrites the record's data, or throws a TypeError. */
  function AttachStream(reply: Option<DwnRpcResponse>, stream: StreamToken): DwnOutcome
  {
    match reply
    case None => Failure(ReadOfUndefined("record"))
    case Some(rep) =>
      match rep.record
      case None => Failure(WriteOfUndefined("data"))
      case Some(rec) => Success(Some(rep.(record := Some(rec.(data := Some(Streamed(stream)))))))
  }

  /** The steps after an envelope has been chosen: the error check, then `result.reply`. */
  function TakeReply(envelope: JsonRpcResponse<DwnResult>, stream: Option<StreamToken>): DwnOutcome
  {
    match envelope.error
    case Some(err) => Failure(DwnJsonRpcFailure(err.code, err.message))
    case None =>
      match envelope.result
      case None => Failure(DestructureUndefined("reply", "dwnRpcResponse.result"))
      case Some(res) =>
        match stream
        case None => Success(res.reply)
        case Some(s) => AttachStream(res.reply, s)
  }

  /**
   * Interprets the response to a DWN request. A `dwn-response` header, when
   * present, holds the envelope and the body is the record's data stream;
   * otherwise the body text is the envelope.
   */
  function InterpretDwnResponse(dwnUrl: string, resp: HttpResponse<DwnResult>): (r: DwnOutcome)
    ensures resp.dwnResponseHeader.HeaderUnparsable? ==> r == Failure(UnparsableResponseHeader(dwnUrl))
    ensures resp.dwnResponseHeader.HeaderAbsent? && resp.bodyText.Malformed? ==>
              r == Failure(MalformedJson(resp.bodyText.syntaxError))
    ensures forall env, err :: SelectedEnvelope(resp) == Some(env) && env.error == Some(err) ==>
              r == Failure(DwnJsonRpcFailure(err.code, err.message))
    ensures forall env :: SelectedEnvelope(resp) == Some(env) && env.error.None? && env.result.None? ==>
              r == Failure(DestructureUndefined("reply", "dwnRpcResponse.result"))
    // without the header the reply is `result.reply` untouched
    ensures forall env, res ::
              (resp.dwnResponseHeader == HeaderAbsent && resp.bodyText == WellFormed(env) &&
               env.error.None? && env.result == Some(res)) ==> r == Success(res.reply)
    // with the header and no body stream the reply is also untouched
    ensures forall env, res ::
              (resp.dwnResponseHeader == HeaderParsed(env) && resp.body.None? &&
               env.error.None? && env.result == Some(res)) ==> r == Success(res.reply)
    // with the header and a body stream, the stream replaces `record.data` and nothing else
    ensures forall env, res, rep, rec, s ::
              (resp.dwnResponseHeader == HeaderParsed(env) && resp.body == Some(s) &&
               env.error.None? && env.result == Some(res) && res.reply == Some(rep) && rep.record == Some(rec)) ==>
              r == Success(Some(DwnRpcResponse(Some(DwnRecord(Some(Streamed(s)), rec.rest)), rep.rest)))
    ensures forall env, res ::
              (resp.dwnResponseHeader == HeaderParsed(env) && resp.body.Some? &&
               env.error.None? && env.result == Some(res) && res.reply.None?) ==>
              r == Failure(ReadOfUndefined("record"))
    ensures forall env, res ::
              (resp.dwnResponseHeader == HeaderParsed(env) && resp.body.Some? &&
               env.error.None? && env.result == Some(res) && res.reply.Some? && res.reply.value.record.None?) ==>
              r == Failure(WriteOfUndefined("data"))
    // a reply is returned only when an envelope was read and carried no error
    ensures r.Success? ==> exists env :: SelectedEnvelope(resp) == Some(env) && env.error.None? && env.result.Some?
  {
    match resp.dwnResponseHeader
    case HeaderUnparsable => Failure(UnparsableResponseHeader(dwnUrl))
    case HeaderParsed(envelope) => TakeReply(envelope, resp.body)
    case HeaderAbsent =>
      match resp.bodyText
      case Malformed(e) => Failure(MalformedJson(e))
      case WellFormed(envelope) => TakeReply(envelope, None)
  }

  /**
   * `sendDwnRequest` of the HTTP client: frames the request, fetches
   * `request.dwnUrl` and interprets the response. Nothing here catches: a
   * rejected fetch propagates as it is. `requestId` stands for the random UUID.
   */
  function SendDwnRequest(request: DwnRpcRequest, requestId: string, stringify: JsonRpcRequest -> string,
                          fetch: (string, FetchOptions) -> FetchOutcome<DwnResult>): (r: DwnOutcome)
    ensures fetch(request.dwnUrl, FrameDwnRequest(request, requestId, stringify)).Rejected? ==>
              r == Failure(FetchRejected(fetch(request.dwnUrl, FrameDwnRequest(request, requestId, stringify)).reason))
    // a received response decides the outcome exactly as `InterpretDwnResponse` does
    ensures fetch(request.dwnUrl, FrameDwnRequest(request, requestId, stringify)).Received? ==>
              r == InterpretDwnResponse(request.dwnUrl, fetch(request.dwnUrl, FrameDwnRequest(request, requestId, stringify)).response)
    ensures r.Failure? ==> !r.error.ResponseProcessingFailed? && !r.error.HttpFailure?
    ensures r.Failure? && r.error.UnparsableResponseHeader? ==> r.error.dwnUrl == request.dwnUrl
  {
    match fetch(request.dwnUrl, FrameDwnRequest(request, requestId, stringify))
    case Rejected(reason) => Failure(FetchRejected(reason))
    case Received(resp) => InterpretDwnResponse(request.dwnUrl, resp)
  }

  /** The envelope the DWN path reads: the header's when present, otherwise the body's. */
  function SelectedEnvelope(resp: HttpResponse<DwnResult>): Option<JsonRpcResponse<DwnResult>>
  {
    match resp.dwnResponseHeader
    case HeaderUnparsable => None
    case HeaderParsed(envelope) => Some(envelope)
    case HeaderAbsent => if resp.bodyText.WellFormed? then Some(resp.bodyText.envelope) else None
  }

  /** With the header present, the body is a stream and its text is never read. */
  lemma HeaderPathNeverReadsBodyText(dwnUrl: string, resp: HttpResponse<DwnResult>, text: BodyText<DwnResult>)
    requires !resp.dwnResponseHeader.HeaderAbsent?
    ensures InterpretDwnResponse(dwnUrl, resp) == InterpretDwnResponse(dwnUrl, resp.(bodyText := text))
  {
  }

  /** Without the header, no stream is ever attached: the body stream does not matter. */
  lemma BodyPathNeverAttachesStream(dwnUrl: string, resp: HttpResponse<DwnResult>, body: Option<StreamToken>)
    requires resp.dwnResponseHeader.HeaderAbsent?
    ensures InterpretDwnResponse(dwnUrl, resp) == InterpretDwnResponse(dwnUrl, resp.(body := body))
  {
  }

  /** The DWN path never inspects the HTTP status: an error status is judged by its envelope alone. */
  lemma DwnPathIgnoresStatus(dwnUrl: string, resp: HttpResponse<DwnResult>, ok: bool, status: int, statusText: string)
    ensures InterpretDwnResponse(dwnUrl, resp)
         == InterpretDwnResponse(dwnUrl, resp.(ok := ok, status := status, statusText := statusText))
  {
  }

  /** An attached stream overwrites whatever `record.data` held: the data the server put there is irrelevant. */
  lemma StreamOverwritesRecordData(dwnUrl: string, resp: HttpResponse<DwnResult>, rep: DwnRpcResponse,
                                   rec: DwnRecord, d1: Option<RecordData>, d2: Option<RecordData>)
    requires resp.dwnResponseHeader.HeaderParsed? && resp.body.Some?
    requires resp.dwnResponseHeader.envelope.error.None?
    requires resp.dwnResponseHeader.envelope.result == Some(DwnResult(Some(rep.(record := Some(rec.(data := d1))))))
    ensures  InterpretDwnResponse(dwnUrl, resp)
          == InterpretDwnResponse(dwnUrl, resp.(dwnResponseHeader := HeaderParsed(
               JsonRpcResponse(None, Some(DwnResult(Some(rep.(record := Some(rec.(data := d2))))))))))
    ensures  InterpretDwnResponse(dwnUrl, resp).Success?
  {
  }

  /** An error envelope is decisive: whatever `result` it also carries, no reply comes back. */
  lemma ErrorEnvelopeYieldsNoReply(dwnUrl: string, resp: HttpResponse<DwnResult>, env: JsonRpcResponse<DwnResult>,
                                   result: Option<DwnResult>)
    requires SelectedEnvelope(resp) == Some(env) && env.error.Some?
    ensures InterpretDwnResponse(dwnUrl, resp).Failure?
    ensures Message(InterpretDwnResponse(dwnUrl, resp).error)
         == "(" + NumberToString(env.error.value.code) + ") - " + env.error.value.message
    ensures resp.dwnResponseHeader.HeaderParsed? ==>
              (InterpretDwnResponse(dwnUrl, resp)
               == InterpretDwnResponse(dwnUrl, resp.(dwnResponseHeader := HeaderParsed(env.(result := result)))))
  {
  }
}
