/**
 * The registry the router builds: a JavaScript `Map` from URL scheme to
 * transport client, as a value. `Put` is `Map.prototype.set`: it overwrites the
 * value of a known key in place and appends a new key at the end of the key
 * order. `RegisterAll` is the constructor's walk over clients and their schemes.
 */
module TransportRegistry {
  import HttpDwnRpc

  /** A transport client: the built-in HTTP client, or one the caller supplies. */
  datatype TransportClient = HttpWeb5Client | CustomClient(id: nat, protocols: seq<string>)

  /** The client's `transportProtocols`. */
  function Protocols(c: TransportClient): seq<string>
  {
    match c
    case HttpWeb5Client => HttpDwnRpc.TransportProtocols
    case CustomClient(_, ps) => ps
  }

  /** The clients the router registers: the built-in one first, then the caller's. */
  function WithDefault(clients: seq<TransportClient>): seq<TransportClient>
  {
    [HttpWeb5Client] + clients
  }

  /** A `Map<string, client>`: its entries and its keys in insertion order. */
  datatype Registry = Registry(clients: map<string, TransportClient>, order: seq<string>)

  function Put(r: Registry, scheme: string, client: TransportClient): Registry
  {
    Registry(r.clients[scheme := client], if scheme in r.clients then r.order else r.order + [scheme])
  }

  /** The inner loop: every scheme of one client, in order. */
  function PutEach(r: Registry, schemes: seq<string>, client: TransportClient): Registry
  {
    if schemes == [] then r
    else Put(PutEach(r, schemes[..|schemes| - 1], client), schemes[|schemes| - 1], client)
  }

  /** The outer loop: every client, in order. */
  function RegisterAll(cs: seq<TransportClient>): Registry
  {
    if cs == [] then Registry(map[], [])
    else var last := cs[|cs| - 1]; PutEach(RegisterAll(cs[..|cs| - 1]), Protocols(last), last)
  }

  /** Every scheme declared, in the order the walk meets them (repeats included). */
  function Declared(cs: seq<TransportClient>): seq<string>
  {
    if cs == [] then [] else Declared(cs[..|cs| - 1]) + Protocols(cs[|cs| - 1])
  }

  predicate NoDuplicates(s: seq<string>)
  {
    forall i, j :: 0 <= i < j < |s| ==> s[i] != s[j]
  }

  /** Position of the first occurrence of `x` in `s`. */
  function FirstIndex(s: seq<string>, x: string): (k: nat)
    requires x in s
    ensures k < |s| && s[k] == x && x !in s[..k]
  {
    if s[0] == x then 0
    else
      var k := 1 + FirstIndex(s[1..], x);
      assert s[..k] == [s[0]] + s[1..][..k - 1];
      k
  }

  /**
   * `order` lists the distinct elements of `declared`, each once, in the order
   * of their first occurrence.
   */
  ghost predicate InsertionOrdered(order: seq<string>, declared: seq<string>)
  {
    && NoDuplicates(order)
    && (forall x :: x in order <==> x in declared)
    && (forall i, j :: 0 <= i < j < |order| ==> FirstIndex(declared, order[i]) < FirstIndex(declared, order[j]))
  }

  /** The registry is what walking `declared` through `Put` gives: its keys and their order. */
  ghost predicate Tracks(r: Registry, declared: seq<string>)
  {
    && (forall x :: x in r.clients <==> x in declared)
    && InsertionOrdered(r.order, declared)
  }

  /** `i` is the last position in `cs` whose client declares `scheme`. */
  predicate LastDeclarer(cs: seq<TransportClient>, scheme: string, i: int)
  {
    && 0 <= i < |cs|
    && scheme in Protocols(cs[i])
    && (forall j :: i < j < |cs| ==> scheme !in Protocols(cs[j]))
  }

  lemma FirstIndexUnique(s: seq<string>, x: string, k: nat)
    requires k < |s| && s[k] == x && x !in s[..k]
    ensures FirstIndex(s, x) == k
  {
  }

  lemma FirstIndexAppend(d: seq<string>, y: string, x: string)
    requires x in d
    ensures FirstIndex(d + [y], x) == FirstIndex(d, x)
  {
    var k := FirstIndex(d, x);
    assert (d + [y])[..k] == d[..k];
    FirstIndexUnique(d + [y], x, k);
  }

  lemma FirstIndexOfNew(d: seq<string>, x: string)
    requires x !in d
    ensures FirstIndex(d + [x], x) == |d|
  {
    assert (d + [x])[..|d|] == d;
    FirstIndexUnique(d + [x], x, |d|);
  }

  /** `Map.prototype.set` keeps the key order a first-occurrence listing of the keys set so far. */
  lemma PutTracks(r: Registry, d: seq<string>, s: string, c: TransportClient)
    requires Tracks(r, d)
    ensures Tracks(Put(r, s, c), d + [s])
  {
    if s in d {
      PutKnownTracks(r, d, s, c);
    } else {
      PutNewTracks(r, d, s, c);
    }
  }

  /** Setting a key already present changes neither the keys nor their order. */
  lemma PutKnownTracks(r: Registry, d: seq<string>, s: string, c: TransportClient)
    requires Tracks(r, d) && s in d
    ensures Tracks(Put(r, s, c), d + [s])
  {
    var d' := d + [s];
    assert Put(r, s, c).order == r.order;
    forall x | x in d
      ensures FirstIndex(d', x) == FirstIndex(d, x)
    {
      FirstIndexAppend(d, s, x);
    }
    assert forall x :: x in d' <==> x in d;
  }

  /** Setting a new key appends it after every key already present. */
  lemma PutNewTracks(r: Registry, d: seq<string>, s: string, c: TransportClient)
    requires Tracks(r, d) && s !in d
    ensures Tracks(Put(r, s, c), d + [s])
  {
    var d' := d + [s];
    var o := r.order;
    var o' := Put(r, s, c).order;
    assert o' == o + [s];
    forall x | x in d
      ensures FirstIndex(d', x) == FirstIndex(d, x)
    {
      FirstIndexAppend(d, s, x);
    }
    FirstIndexOfNew(d, s);
    assert NoDuplicates(o') by {
      assert s !in o;
    }
    forall i, j | 0 <= i < j < |o'|
      ensures FirstIndex(d', o'[i]) < FirstIndex(d', o'[j])
    {
      assert o'[i] == o[i] && o[i] in d;
      if j < |o| {
        assert o'[j] == o[j] && o[j] in d;
      }
    }
  }

  lemma {:induction false} PutEachTracks(r: Registry, d: seq<string>, schemes: seq<string>, c: TransportClient)
    requires Tracks(r, d)
    ensures Tracks(PutEach(r, schemes, c), d + schemes)
    decreases |schemes|
  {
    if schemes != [] {
      var init := schemes[..|schemes| - 1];
      var last := schemes[|schemes| - 1];
      PutEachTracks(r, d, init, c);
      PutTracks(PutEach(r, init, c), d + init, last, c);
      assert PutEach(r, schemes, c) == Put(PutEach(r, init, c), last, c);
      assert d + init + [last] == d + schemes;
    } else {
      assert d + schemes == d;
    }
  }

  /**
   * The registry's key order lists every declared scheme exactly once, in the
   * order the constructor first met it, however many clients declare it.
   */
  lemma {:induction false} RegistryTracksDeclared(cs: seq<TransportClient>)
    ensures Tracks(RegisterAll(cs), Declared(cs))
    decreases |cs|
  {
    if cs != [] {
      var init := cs[..|cs| - 1];
      RegistryTracksDeclared(init);
      PutEachTracks(RegisterAll(init), Declared(init), Protocols(cs[|cs| - 1]), cs[|cs| - 1]);
    }
  }

  /** One client's schemes all map to it; every other entry is left as it was. */
  lemma {:induction false} PutEachEntries(r: Registry, schemes: seq<string>, c: TransportClient)
    ensures forall x :: x in PutEach(r, schemes, c).clients <==> x in r.clients || x in schemes
    ensures forall x :: x in schemes ==> PutEach(r, schemes, c).clients[x] == c
    ensures forall x :: x !in schemes && x in r.clients ==> PutEach(r, schemes, c).clients[x] == r.clients[x]
    decreases |schemes|
  {
    if schemes != [] {
      var init := schemes[..|schemes| - 1];
      PutEachEntries(r, init, c);
      assert forall x :: x in schemes <==> x in init || x == schemes[|schemes| - 1];
    }
  }

  /**
   * Last registration wins: each declared scheme maps to the last client in the
   * list that declares it, and only declared schemes are registered.
   */
  lemma {:induction false} RegistryLastWins(cs: seq<TransportClient>)
    ensures forall s, i :: LastDeclarer(cs, s, i) ==> s in RegisterAll(cs).clients && RegisterAll(cs).clients[s] == cs[i]
    ensures forall s :: s in RegisterAll(cs).clients ==> exists i :: 0 <= i < |cs| && s in Protocols(cs[i])
    decreases |cs|
  {
    if cs != [] {
      var n := |cs| - 1;
      var init := cs[..n];
      RegistryLastWins(init);
      PutEachEntries(RegisterAll(init), Protocols(cs[n]), cs[n]);
      var m := RegisterAll(cs).clients;
      forall s, i | LastDeclarer(cs, s, i)
        ensures s in m && m[s] == cs[i]
      {
        if i < n {
          assert s !in Protocols(cs[n]);
          assert LastDeclarer(init, s, i);
        }
      }
      forall s | s in m
        ensures exists i :: 0 <= i < |cs| && s in Protocols(cs[i])
      {
        if s !in Protocols(cs[n]) {
          var i :| 0 <= i < |init| && s in Protocols(init[i]);
          assert cs[i] == init[i];
        }
      }
    }
  }

  /** Every declared scheme has a last declarer. */
  lemma LastDeclarerExists(cs: seq<TransportClient>, s: string, i: int)
    requires 0 <= i < |cs| && s in Protocols(cs[i])
    ensures exists k :: LastDeclarer(cs, s, k)
    decreases |cs| - i
  {
    if !LastDeclarer(cs, s, i) {
      var j :| i < j < |cs| && s in Protocols(cs[j]);
      LastDeclarerExists(cs, s, j);
    }
  }

  /** With no caller clients the registry is exactly `http:` and `https:`, both the built-in client. */
  lemma DefaultRegistry()
    ensures RegisterAll(WithDefault([])) ==
            Registry(map["http:" := HttpWeb5Client, "https:" := HttpWeb5Client], ["http:", "https:"])
  {
    var ps := HttpDwnRpc.TransportProtocols;
    assert WithDefault([])[..0] == [];
    assert ps[..1][..0] == [] && ps[..2][..1] == ps[..1];
    assert PutEach(Registry(map[], []), ps[..1], HttpWeb5Client) == Registry(map["http:" := HttpWeb5Client], ["http:"]);
  }

  /**
   * A caller client that declares `http:` but not `https:` takes over `http:`
   * only; `https:` stays with the built-in client and the key order is unchanged.
   */
  lemma OverrideHttpOnly(c: TransportClient)
    requires "http:" in Protocols(c) && "https:" !in Protocols(c)
    ensures "http:" in RegisterAll(WithDefault([c])).clients && RegisterAll(WithDefault([c])).clients["http:"] == c
    ensures "https:" in RegisterAll(WithDefault([c])).clients && RegisterAll(WithDefault([c])).clients["https:"] == HttpWeb5Client
    ensures |RegisterAll(WithDefault([c])).order| >= 2 && RegisterAll(WithDefault([c])).order[..2] == ["http:", "https:"]
  {
    var cs := WithDefault([c]);
    RegistryLastWins(cs);
    assert LastDeclarer(cs, "http:", 1);
    assert LastDeclarer(cs, "https:", 0);
    assert cs[..1] == WithDefault([]);
    DefaultRegistry();
    var ps := Protocols(c);
    PutEachOrderPrefix(RegisterAll(WithDefault([])), ps, c);
  }

  /** Putting keys never reorders or drops the keys already there. */
  lemma {:induction false} PutEachOrderPrefix(r: Registry, schemes: seq<string>, c: TransportClient)
    ensures |r.order| <= |PutEach(r, schemes, c).order|
    ensures PutEach(r, schemes, c).order[..|r.order|] == r.order
    decreases |schemes|
  {
    if schemes != [] {
      var init := schemes[..|schemes| - 1];
      PutEachOrderPrefix(r, init, c);
      var o := PutEach(r, init, c).order;
      assert (o + [schemes[|schemes| - 1]])[..|r.order|] == o[..|r.order|];
    }
  }
}
