/**
 * The router: it registers transport clients by URL scheme once, at
 * construction, then forwards each DID or DWN request to the client registered
 * for the scheme of its URL.
 */
module RpcClient {
  import opened Wrappers
  import opened RpcTypes
  import opened TransportRegistry
  import HttpWeb5Rpc

  class Web5RpcClient {
    /** The scheme-to-client `Map`: its entries, and its keys in insertion order. */
    var transportClients: map<string, TransportClient>
    var keyOrder: seq<string>

    /** The clients registered, the built-in HTTP client first. */
    ghost const registered: seq<TransportClient>

    ghost predicate Valid()
      reads this
    {
      && |registered| > 0 && registered[0] == HttpWeb5Client
      && Registry(transportClients, keyOrder) == RegisterAll(registered)
    }

    /**
     * Registers the built-in HTTP client and then `clients`, walking each
     * client's schemes in order; a later client overwrites an earlier one.
     */
    constructor (clients: seq<TransportClient>)
      ensures Valid() && registered == WithDefault(clients)
      ensures forall s, i :: LastDeclarer(registered, s, i) ==> s in transportClients && transportClients[s] == registered[i]
      ensures forall s :: s in transportClients ==> exists i :: 0 <= i < |registered| && s in Protocols(registered[i])
      ensures InsertionOrdered(keyOrder, Declared(registered))
    {
      registered := WithDefault(clients);
      transportClients := map[];
      keyOrder := [];
      new;
      var all := [HttpWeb5Client] + clients;
      var i := 0;
      while i < |all|
        invariant 0 <= i <= |all|
        invariant Registry(transportClients, keyOrder) == RegisterAll(all[..i])
      {
        var client := all[i];
        var schemes := Protocols(client);
        var j := 0;
        while j < |schemes|
          invariant 0 <= j <= |schemes|
          invariant Registry(transportClients, keyOrder) == PutEach(RegisterAll(all[..i]), schemes[..j], client)
        {
          var scheme := schemes[j];
          // Map.prototype.set: a new key goes to the end of the key order
          if scheme !in transportClients {
            keyOrder := keyOrder + [scheme];
          }
          transportClients := transportClients[scheme := client];
          assert schemes[..j + 1][..j] == schemes[..j];
          j := j + 1;
        }
        assert schemes[..j] == schemes;
        assert all[..i + 1][..i] == all[..i];
        i := i + 1;
      }
      assert all[..i] == registered;
      RegistryLastWins(registered);
      RegistryTracksDeclared(registered);
    }

    /** The registered schemes: each once, in the order they were first registered. */
    function TransportProtocols(): (protocols: seq<string>)
      reads this
      requires Valid()
      ensures NoDuplicates(protocols)
      ensures forall s :: s in protocols <==> s in transportClients
      ensures InsertionOrdered(protocols, Declared(registered))
    {
      RegistryTracksDeclared(registered);
      keyOrder
    }

    /**
     * Sends a DID request: fails when the URL does not parse or no client serves
     * its protocol, and otherwise forwards the request unchanged to the client
     * registered for that protocol and returns its result unchanged.
     * `protocolOf` is the URL parser's protocol getter; `send` is each client's
     * `sendDidRequest`; `invoked` reports the client the request went to.
     */
    method SendDidRequest(request: DidRpcRequest, protocolOf: string -> Option<string>,
                          send: (TransportClient, DidRpcRequest) -> DidOutcome)
      returns (r: DidOutcome, invoked: Option<TransportClient>)
      requires Valid()
      ensures protocolOf(request.url).None? ==> r == Failure(InvalidUrl(request.url)) && invoked.None?
      ensures forall p :: protocolOf(request.url) == Some(p) && p !in transportClients ==>
                r == Failure(NoTransportClient(p)) && Name(r.error) == "NO_TRANSPORT_CLIENT" && invoked.None?
      ensures forall p :: protocolOf(request.url) == Some(p) && p in transportClients ==>
                invoked == Some(transportClients[p]) && r == send(transportClients[p], request)
      ensures invoked.Some? ==>
                (exists p, i :: protocolOf(request.url) == Some(p) && LastDeclarer(registered, p, i) && invoked.value == registered[i])
    {
      var protocol := protocolOf(request.url);
      if protocol.None? {
        return Failure(InvalidUrl(request.url)), None;
      }
      var client := Lookup(protocol.value);
      if client.None? {
        return Failure(NoTransportClient(protocol.value)), None;
      }
      r := send(client.value, request);
      invoked := client;
    }

    /** The same routing, keyed on `request.dwnUrl`, forwarding to a client's `sendDwnRequest`. */
    method SendDwnRequest(request: DwnRpcRequest, protocolOf: string -> Option<string>,
                          send: (TransportClient, DwnRpcRequest) -> DwnOutcome)
      returns (r: DwnOutcome, invoked: Option<TransportClient>)
      requires Valid()
      ensures protocolOf(request.dwnUrl).None? ==> r == Failure(InvalidUrl(request.dwnUrl)) && invoked.None?
      ensures forall p :: protocolOf(request.dwnUrl) == Some(p) && p !in transportClients ==>
                r == Failure(NoTransportClient(p)) && Name(r.error) == "NO_TRANSPORT_CLIENT" && invoked.None?
      ensures forall p :: protocolOf(request.dwnUrl) == Some(p) && p in transportClients ==>
                invoked == Some(transportClients[p]) && r == send(transportClients[p], request)
      ensures invoked.Some? ==>
                (exists p, i :: protocolOf(request.dwnUrl) == Some(p) && LastDeclarer(registered, p, i) && invoked.value == registered[i])
    {
      var protocol := protocolOf(request.dwnUrl);
      if protocol.None? {
        return Failure(InvalidUrl(request.dwnUrl)), None;
      }
      var client := Lookup(protocol.value);
      if client.None? {
        return Failure(NoTransportClient(protocol.value)), None;
      }
      r := send(client.value, request);
      invoked := client;
    }

    /**
     * `Map.prototype.get`: the client registered for `protocol`, which is the
     * last registered client declaring it; absent when no client declares it.
     */
    method Lookup(protocol: string) returns (client: Option<TransportClient>)
      requires Valid()
      ensures client.Some? <==> protocol in transportClients
      ensures client.Some? ==> client.value == transportClients[protocol]
      ensures client.Some? ==> exists i :: LastDeclarer(registered, protocol, i) && client.value == registered[i]
      ensures client.None? <==> forall i :: 0 <= i < |registered| ==> protocol !in Protocols(registered[i])
    {
      RegistryLastWins(registered);
      if protocol in transportClients {
        client := Some(transportClients[protocol]);
        ghost var i :| 0 <= i < |registered| && protocol in Protocols(registered[i]);
        LastDeclarerExists(registered, protocol, i);
      } else {
        client := None;
        forall i | 0 <= i < |registered| ensures protocol !in Protocols(registered[i]) {
          if protocol in Protocols(registered[i]) {
            LastDeclarerExists(registered, protocol, i);
          }
        }
      }
    }
  }

  /**
   * A router built with no caller clients sends a DID resolve for an `https:` URL
   * to the built-in HTTP client, and a server answering with a `result`
   * envelope yields exactly that result.
   */
  method ResolveThroughDefaultClient(router: Web5RpcClient, stringify: JsonRpcRequest -> string)
    requires router.Valid() && router.registered == WithDefault([])
  {
    DefaultRegistry();
    var url := "https://example.test/did";
    var request := DidRpcRequest("did:example:123", Resolve, url);
    var expected := DidRpcResponse(None, true, RpcStatus(200, "OK"));
    var answer := Received(HttpResponse(true, 200, "OK", HeaderAbsent, None,
                                        WellFormed(JsonRpcResponse(None, Some(expected)))));
    var fetch := (req: HttpWeb5Rpc.HttpRequest) => answer;
    var requestCheck := (u: string) => None;
    // only the built-in client is registered, so the other branch is never taken
    var send := (c: TransportClient, req: DidRpcRequest) =>
      if c == HttpWeb5Client then HttpWeb5Rpc.SendDidRequest(req, "request-1", stringify, requestCheck, fetch)
      else Failure(FetchRejected("not reached"));
    var protocolOf := (u: string) => if u == url then Some("https:") else None;
    assert router.transportClients == map["http:" := HttpWeb5Client, "https:" := HttpWeb5Client];
    HttpWeb5Rpc.ResultEnvelopeIsReturned(request, "request-1", stringify, requestCheck, fetch, answer.response, Some(expected));
    assert send(HttpWeb5Client, request) == Success(Some(expected));
    var r, invoked := router.SendDidRequest(request, protocolOf, send);
    assert invoked == Some(HttpWeb5Client);
    assert r == Success(Some(expected));
  }
}
