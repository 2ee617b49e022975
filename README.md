# Web5 RPC client: transport routing and HTTP framing

This project models the RPC client of the Web5 agent (`packages/agent/src/rpc-client.ts`)
and proves properties of the model. The client is a router, `Web5RpcClient`. It keeps a
registry from URL scheme (`http:`, `https:`, ...) to transport client. The built-in HTTP
client is always registered first, and clients supplied by the caller may override it. The
router forwards DID requests (`did.create`, `did.resolve`) and DWN requests
(`dwn.processMessage`) to the client registered for the protocol of the request's URL.

The built-in HTTP client frames each request as a JSON-RPC 2.0 envelope. On the DWN path
the envelope goes in the `dwn-request` header and any payload is the raw body. A
`dwn-response` header, when the server sends one, holds the reply envelope, and the body is
then a stream that is attached at `reply.record.data`. On the DID path the envelope is a
JSON body. Every failure after the `Request` object has been built is re-thrown with a
message that names the URL; a URL that the `Request` constructor itself rejects throws its
`TypeError` unwrapped.

Modules, one per component:

- `Wrappers`: `Option` and `Result`. A thrown error is a `Failure`.
- `JsValues`: JavaScript truthiness, and how a number is rendered in a template literal.
- `RpcTypes`: requests, replies, the JSON-RPC envelopes, an abstract HTTP response, and the
  errors with their `name` and `message`.
- `HttpDwnRpc`: `HttpDwnRpcClient`, i.e. its schemes, the framing of a DWN request, and the
  interpretation of a DWN response.
- `HttpWeb5Rpc`: `HttpWeb5RpcClient`'s DID path, i.e. framing, status and error
  interpretation, and re-wrapping.
- `TransportRegistry`: the constructor's walk as a pure value. `Put` is
  `Map.prototype.set`: an existing key keeps its place, and a new key goes last.
- `RpcClient`: the class `Web5RpcClient`. Its constructor runs the nested loop over clients
  and schemes and updates the `transportClients` map and its key order in place. It also has
  the `transportProtocols` getter and the two dispatch methods.

These are parameters of the model rather than code in it:

- the URL parser's protocol getter (`protocolOf: string -> Option<string>`, where `None`
  means `new URL` threw);
- `JSON.stringify` of a request envelope;
- `fetch`, given as a function from the framed request to a `FetchOutcome`;
- the random request id;
- the behaviour of each transport client's own send operation.

The dispatch methods have no `modifies` clause, so dispatch provably leaves the registry
unchanged.

Some details of the code are easy to misread, and the model follows the code in each of them:

- On the DWN path, a body that is not JSON makes `JSON.parse` throw a `SyntaxError`, and
  that error propagates unwrapped. Only a `dwn-response` header that `parseJson` turns into
  null produces the "failed to parse json rpc response" error.
- No DWN error is re-wrapped with the URL, and the DWN path never looks at the HTTP status.
- On the DID path, an HTTP failure is not a separate error kind for the caller. It is
  re-thrown inside "Error encountered while processing response from <url>: HTTP (<status>)
  - <statusText>".
- `transportProtocols` is the key array of the JavaScript `Map`, so its order is
  first-insertion order, not an unordered set.
- The code does not check for a missing `result`, `reply` or `record`. A missing `result`
  always throws the `TypeError` of `const { reply } = dwnRpcResponse.result`
  (`DestructureUndefined`). A missing `reply` throws only when a stream is attached
  (`ReadOfUndefined`), and a missing `record` likewise (`WriteOfUndefined`). Without a
  stream, `dataStream` is undefined, nothing is attached, and a missing `reply` is returned
  as `undefined` (`Success(None)`).
- The router's `sendDwnRequest` (line 129) is not `async`, unlike its `sendDidRequest`
  (line 114). An invalid DWN URL or a missing DWN transport client is therefore thrown
  synchronously by the call itself rather than delivered as a rejected promise. The model
  returns a `Failure` in both cases.
- On the DID path the `Request` object is built (lines 217-223) before the `try` (line 227).
  A `TypeError` from its constructor, for instance for a URL with credentials that the URL
  parser accepts, escapes the re-wrapping. `HttpWeb5Rpc.SendDidRequest` takes the
  constructor's verdict as the parameter `requestCheck` and returns that error unwrapped.

The method `RpcClient.ResolveThroughDefaultClient` is an example client of the model, not a
member of the source. It takes a router built with no caller clients and a server that
answers a DID resolve for an `https:` URL with a `result` envelope, and shows that the
caller gets exactly that result.

## Model

| member | source | states |
|---|---|---|
| `TransportRegistry.RegistryLastWins` | packages/agent/src/rpc-client.ts:96-108 | after registering `[default, ...clients]`, every declared scheme maps to the last client in that list that declares it, and a scheme no client declares is absent |
| `TransportRegistry.PutEachEntries` | packages/agent/src/rpc-client.ts:104-106 | the inner loop maps every scheme of one client to that client and leaves every other entry as it was |
| `TransportRegistry.RegistryTracksDeclared` | packages/agent/src/rpc-client.ts:103-112 | the key order holds each declared scheme exactly once, and exactly the registry's keys, in the order the walk first met them, even when several clients declare the same scheme |
| `TransportRegistry.PutEachTracks` | packages/agent/src/rpc-client.ts:104-106 | walking one client's schemes keeps the keys and their first-insertion order in step with the schemes met so far |
| `TransportRegistry.PutTracks` | packages/agent/src/rpc-client.ts:105 | one `Map.set` keeps the key order a duplicate-free, first-occurrence listing of the keys set so far |
| `TransportRegistry.DefaultRegistry` | packages/agent/src/rpc-client.ts:99-101 | with no caller clients, the registry is exactly `http:` and `https:`, both mapped to the built-in client, in that order |
| `TransportRegistry.OverrideHttpOnly` | packages/agent/src/rpc-client.ts:99-107 | a caller client that declares `http:` but not `https:` takes `http:` only; `https:` stays with the built-in client and the first two keys stay `http:`, `https:` |
| `TransportRegistry.LastDeclarerExists` | packages/agent/src/rpc-client.ts:103-107 | every scheme declared by some client has a last declaring client |
| `TransportRegistry.PutEachOrderPrefix` | packages/agent/src/rpc-client.ts:104-106 | setting keys never reorders or drops the keys already registered |
| `RpcClient.Web5RpcClient.constructor` | packages/agent/src/rpc-client.ts:96-108 | the nested loop leaves the map and its key order equal to registering the built-in client and then `clients`, so last declarer wins, only declared schemes appear, and the keys are in first-insertion order |
| `RpcClient.Web5RpcClient.TransportProtocols` | packages/agent/src/rpc-client.ts:110-112 | the result holds exactly the registry's keys, with no duplicates, in first-insertion order over the declared schemes |
| `RpcClient.Web5RpcClient.SendDidRequest` | packages/agent/src/rpc-client.ts:114-127 | an unparsable URL fails before any lookup; an unregistered protocol fails with `NoTransportClient(protocol)`, whose `name` is `NO_TRANSPORT_CLIENT`; in both cases no client is invoked; otherwise the registered client (the last declarer of the protocol) receives the identical request and its result is returned unchanged |
| `RpcClient.Web5RpcClient.SendDwnRequest` | packages/agent/src/rpc-client.ts:129-142 | the same as `SendDidRequest`, keyed on `dwnUrl` and forwarding to the client's DWN send |
| `RpcClient.Web5RpcClient.Lookup` | packages/agent/src/rpc-client.ts:118-119 | a client is found iff some registered client declares the protocol, and the client found is the last such declarer |
| `RpcTypes.CodeReadableFromMessage` | packages/agent/src/rpc-client.ts:196-198 | the code of a DWN or DID JSON-RPC error, and the status of an HTTP failure, can be parsed back from the fixed position in its message |
| `RpcTypes.WrappedMessageKeepsCause` | packages/agent/src/rpc-client.ts:241-243 | a re-thrown DID error's message starts with "Error encountered while processing response from <url>: " and ends with the cause's whole message |
| `JsValues.NatToString` | packages/agent/src/rpc-client.ts:198 | a natural number renders as a non-empty run of decimal digits with no leading zero, which is the template-literal form below 10^21 |
| `JsValues.NatToStringRoundTrip` | packages/agent/src/rpc-client.ts:198 | reading the rendered digits back gives the number |
| `JsValues.NumberToStringRoundTrip` | packages/agent/src/rpc-client.ts:236 | a rendered integer, sign included, parses back to itself |
| `JsValues.NumberToStringInjective` | packages/agent/src/rpc-client.ts:239 | distinct codes and statuses give distinct renderings |
| `HttpDwnRpc.FrameDwnRequest` | packages/agent/src/rpc-client.ts:153-172 | a POST whose `dwn-request` header always holds the stringified `dwn.processMessage` envelope with params `{target, message}`; `content-type: application/octet-stream` and the body are present iff `request.data` is truthy, and the body is then `request.data`; there are no other headers |
| `HttpDwnRpc.FalsyDataIsNotSent` | packages/agent/src/rpc-client.ts:167-172 | a falsy payload frames exactly like no payload, with only the `dwn-request` header |
| `HttpDwnRpc.EnvelopeHeaderIgnoresPayload` | packages/agent/src/rpc-client.ts:155-165 | the `dwn-request` header depends only on the target DID and the message |
| `HttpDwnRpc.InterpretDwnResponse` | packages/agent/src/rpc-client.ts:175-206 | a header that parses to null fails naming the DWN URL; without the header, unparsable body text is a `SyntaxError`; an envelope with `error` fails with `(code) - message`; a missing `result` fails; without the header the reply is `result.reply` unchanged; with the header and a body stream, `record.data` becomes the stream and nothing else changes; with no record it throws; with the header and a body stream but no reply, reading `record` throws; a missing `result` throws the destructuring `TypeError`; a reply is returned only from an error-free envelope |
| `HttpDwnRpc.SendDwnRequest` | packages/agent/src/rpc-client.ts:153-206 | a rejected fetch propagates unwrapped; a received response gives exactly the outcome `InterpretDwnResponse` assigns it; no DWN failure is re-wrapped or an HTTP-status error; a header parse failure names `request.dwnUrl` |
| `HttpDwnRpc.HeaderPathNeverReadsBodyText` | packages/agent/src/rpc-client.ts:180-194 | when the `dwn-response` header is present, the body text plays no part in the outcome |
| `HttpDwnRpc.BodyPathNeverAttachesStream` | packages/agent/src/rpc-client.ts:190-204 | when the header is absent, the body stream plays no part in the outcome |
| `HttpDwnRpc.DwnPathIgnoresStatus` | packages/agent/src/rpc-client.ts:174-206 | the DWN outcome does not depend on `ok`, the status or the status text |
| `HttpDwnRpc.StreamOverwritesRecordData` | packages/agent/src/rpc-client.ts:201-204 | an attached stream overwrites `record.data`: whatever the server put there, the outcome is the same and is a success |
| `HttpDwnRpc.ErrorEnvelopeYieldsNoReply` | packages/agent/src/rpc-client.ts:196-199 | an envelope with `error` always fails, with message `(code) - message`, whatever `result` it also carries |
| `HttpWeb5Rpc.FrameDidRequest` | packages/agent/src/rpc-client.ts:211-223 | a POST to `request.url` with `Content-Type: application/json` whose body is the stringified envelope with `did.create` or `did.resolve` and params `{data}` |
| `HttpWeb5Rpc.InterpretDidResponse` | packages/agent/src/rpc-client.ts:225-245 | every failure is re-wrapped naming the URL; success iff the response is ok, its body parses, and the envelope has no error; success returns `result` as it is; a non-ok status gives `HTTP (status) - statusText`; an error envelope gives `JSON RPC (code) - message`; a rejected fetch and unparsable JSON are wrapped too |
| `HttpWeb5Rpc.SendDidRequest` | packages/agent/src/rpc-client.ts:211-246 | a URL the `Request` constructor rejects fails with its `TypeError`, unwrapped, and nothing is fetched; otherwise the outcome of fetching the framed request gives exactly the result `InterpretDidResponse` assigns it, so every failure names `request.url` and wraps its HTTP, JSON RPC, syntax or fetch cause; a success comes only from an ok response |
| `HttpWeb5Rpc.ResultEnvelopeIsReturned` | packages/agent/src/rpc-client.ts:230-245 | an ok response with an error-free envelope returns that envelope's `result` unchanged |
| `HttpWeb5Rpc.NonOkNeverReadsBody` | packages/agent/src/rpc-client.ts:230-240 | with a non-ok status the body is never parsed: its content plays no part in the outcome |
| `HttpWeb5Rpc.DidPathIgnoresDwnHeader` | packages/agent/src/rpc-client.ts:225-245 | the DID outcome does not depend on a `dwn-response` header or the body stream |
| `HttpWeb5Rpc.FailureMessageNamesUrl` | packages/agent/src/rpc-client.ts:241-243 | every DID failure message starts by naming the URL and ends with the message of the cause, which is itself not a wrapped error |

## Left out

- `fetch`, `Request` and `Response` objects, `resp.text()`/`resp.json()` and `ReadableStream` are network I/O. The response is an abstract value (status, headers, body stream, and what parsing the body text gives); a stream is an opaque token. A rejection of `resp.text()` itself is not modelled.
- `cryptoUtils.randomUuid()` is foreign randomness: the request id is a parameter.
- `createJsonRpcRequest`, `parseJson`, `JSON.stringify` and `JSON.parse` come from `json-rpc.js` and the runtime, which are not part of this model. A request envelope is the datatype `JsonRpcRequest` (the `jsonrpc: "2.0"` member the helper adds is omitted). The stringifier is a function parameter. Parse results are given in the abstract response.
- WHATWG URL parsing is a function parameter returning the protocol or nothing. The `Request` constructor's own URL checks on the DID path are a function parameter too (`requestCheck`). On the DWN path, a URL that `fetch` refuses is a rejected fetch, which the abstract `fetch` parameter covers.
- `async`/`Promise` behaviour: each call is one request-response step, and a thrown error is a `Failure`.
- DWN message and reply schemas (`UnionMessageReply`, `RecordsReadReply`, `toJSON`) are external types. A reply is an optional `record` plus opaque properties, and a record is an optional `data` plus opaque properties.
- `reply['record']['data'] = dataStream` mutates the freshly parsed reply in place. The model returns the updated reply as a new value; no other reference to the parsed object exists, so aliasing cannot be observed.
- JavaScript values are simplified. Numbers are unbounded integers, so NaN, fractions and `-0` are not modelled in truthiness or in the rendering of codes. The IEEE double width is not modelled either: integers above 2^53 are not exact in JavaScript, and a code or status of magnitude 10^21 or more renders in exponent form (`1e+21`), while `NumberToString` always gives plain digits. A JSON-RPC `error` member is either absent or an object, so falsy non-object `error` values are not modelled, and neither is a body that parses to a non-object such as `null`.
- Client identity: a caller-supplied client is the value `CustomClient(id, protocols)`. Two distinct objects with equal ids and schemes are not told apart. A client's `transportProtocols` getter is assumed to return the same list each time it is read.
- The messages of runtime errors (`Invalid URL`, `Cannot destructure property ...`, `Cannot read properties of undefined ...`, `Cannot set properties of undefined ...`) are V8's wording, which is not part of the source. The TypeError message of the `Request` constructor and the reason of a rejected fetch are given from outside.
- HTTP header names are case-insensitive at run time; the model keeps them as the source spells them.
- A response's `ok` flag is a field of its own. The Fetch Standard makes it true exactly when the status is 200 to 299; the model does not tie the two, so it also admits responses no server can produce. No proved property relies on either field matching the other.
