/**
 The validator and response store of the AMCOM transactions (src/amcom_transactions.h).

 The deserializer is not part of this model: it delivers an arbitrary sequence of packets
 to the handler.
 */
module Responses {
  import opened Basics

  type Payload = seq<nat>

  datatype Delivered = Delivered(kind: nat, payload: Payload)

  /** Some delivered packet carries the response type. */
  predicate Accepts(kind: nat, ds: seq<Delivered>) {
    exists n :: 0 <= n < |ds| && ds[n].kind == kind
  }

  /** The payload of the first delivered packet that carries the response type. */
  function FirstAccepted(kind: nat, ds: seq<Delivered>): (r: Option<Payload>)
    ensures r.Some? <==> Accepts(kind, ds)
  {
    if ds == [] then None
    else
      var before := ds[..|ds| - 1];
      var last := ds[|ds| - 1];
      if FirstAccepted(kind, before).Some? then
        FirstAccepted(kind, before)
      else if last.kind == kind then
        Some(last.payload)
      else
        None
  }

  /** `std::map::emplace`: an entry that is already there stays. */
  function Emplace<K, V>(m: map<K, V>, k: K, v: Option<V>): map<K, V> {
    if k in m || v.None? then m else m[k := v.value]
  }

  class AmcomTransaction {
    const responseType: nat
    var responses: map<nat, Payload>

    constructor (responseType: nat)
      ensures this.responseType == responseType && responses == map[]
    {
      this.responseType := responseType;
      responses := map[];
    }

    method SaveResponse(clientId: nat, payload: Payload)
      modifies this`responses
      ensures responses == Emplace(old(responses), clientId, Some(payload))
    {
      if clientId !in responses {
        responses := responses[clientId := payload];
      }
    }

    method PacketHandler(packet: Delivered, context: Context)
      requires context.transaction == this
      modifies this`responses, context`accepted
      ensures context.accepted == (old(context.accepted) || packet.kind == responseType)
      ensures responses == if packet.kind == responseType
                           then Emplace(old(responses), context.clientId, Some(packet.payload))
                           else old(responses)
    {
      if packet.kind == responseType {
        context.accepted := true;
        SaveResponse(context.clientId, packet.payload);
      }
    }

    /** The validator: accepts exactly when the response type was delivered, and stores its first payload. */
    method Validate(clientId: nat, ds: seq<Delivered>) returns (ok: bool)
      modifies this`responses
      ensures ok <==> Accepts(responseType, ds)
      ensures responses == Emplace(old(responses), clientId, FirstAccepted(responseType, ds))
    {
      var context := new Context(this, clientId);
      for n := 0 to |ds|
        invariant context.accepted <==> Accepts(responseType, ds[..n])
        invariant responses == Emplace(old(responses), clientId, FirstAccepted(responseType, ds[..n]))
      {
        assert ds[..n + 1][..n] == ds[..n];
        PacketHandler(ds[n], context);
      }
      assert ds[..|ds|] == ds;
      ok := context.accepted;
    }
  }

  /** What the deserializer hands back to the handler. */
  class Context {
    const transaction: AmcomTransaction
    const clientId: nat
    var accepted: bool

    constructor (t: AmcomTransaction, id: nat)
      ensures transaction == t && clientId == id && !accepted
    {
      transaction, clientId, accepted := t, id, false;
    }
  }

  // ---------- many workers validating at once ----------

  /** One packet reaching the handler on behalf of one client; the store is locked for just this long. */
  datatype Arrival = Arrival(clientId: nat, packet: Delivered)

  function Arrive(kind: nat, store: map<nat, Payload>, a: Arrival): map<nat, Payload> {
    Emplace(store, a.clientId, if a.packet.kind == kind then Some(a.packet.payload) else None)
  }

  function ArriveAll(kind: nat, store: map<nat, Payload>, arrivals: seq<Arrival>): map<nat, Payload> {
    if arrivals == [] then store
    else Arrive(kind, ArriveAll(kind, store, arrivals[..|arrivals| - 1]), arrivals[|arrivals| - 1])
  }

  /** What was delivered to one client, in order. */
  function DeliveredTo(id: nat, arrivals: seq<Arrival>): seq<Delivered> {
    if arrivals == [] then []
    else
      var n := |arrivals| - 1;
      DeliveredTo(id, arrivals[..n]) + if arrivals[n].clientId == id then [arrivals[n].packet] else []
  }

  lemma AcceptsLast(kind: nat, ds: seq<Delivered>)
    requires ds != []
    ensures Accepts(kind, ds) <==> Accepts(kind, ds[..|ds| - 1]) || ds[|ds| - 1].kind == kind
  {
    assert FirstAccepted(kind, ds).Some? <==> Accepts(kind, ds);
    assert FirstAccepted(kind, ds[..|ds| - 1]).Some? <==> Accepts(kind, ds[..|ds| - 1]);
  }

  /**
   However the workers' packets interleave, each client's entry is decided by that client's
   own packets: it is there exactly when it was before or one of them has the response type,
   an entry that was there never changes, and a new one is the first accepted payload.
   */
  lemma {:induction false} StoreByClient(kind: nat, store: map<nat, Payload>, arrivals: seq<Arrival>, id: nat)
    ensures id in ArriveAll(kind, store, arrivals) <==> id in store || Accepts(kind, DeliveredTo(id, arrivals))
    ensures id in store ==> ArriveAll(kind, store, arrivals)[id] == store[id]
    ensures id in ArriveAll(kind, store, arrivals) && id !in store ==>
              FirstAccepted(kind, DeliveredTo(id, arrivals)) == Some(ArriveAll(kind, store, arrivals)[id])
    decreases arrivals
  {
    if arrivals != [] {
      var n := |arrivals| - 1;
      StoreByClient(kind, store, arrivals[..n], id);
      if arrivals[n].clientId == id {
        var ds := DeliveredTo(id, arrivals);
        assert ds[..|ds| - 1] == DeliveredTo(id, arrivals[..n]);
        AcceptsLast(kind, ds);
      } else {
        assert DeliveredTo(id, arrivals) == DeliveredTo(id, arrivals[..n]);
      }
    }
  }

  /** So the interleaving does not matter at all. */
  lemma InterleavingIrrelevant(kind: nat, store: map<nat, Payload>, a: seq<Arrival>, b: seq<Arrival>)
    requires forall id :: DeliveredTo(id, a) == DeliveredTo(id, b)
    ensures ArriveAll(kind, store, a) == ArriveAll(kind, store, b)
  {
    var s, t := ArriveAll(kind, store, a), ArriveAll(kind, store, b);
    forall id: nat ensures (id in s <==> id in t) && (id in s ==> s[id] == t[id]) {
      StoreByClient(kind, store, a, id);
      StoreByClient(kind, store, b, id);
      assert DeliveredTo(id, a) == DeliveredTo(id, b);
    }
  }
}
