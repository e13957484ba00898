/**
 * The browser's link to the game server (src/server.ts): every command it sends carries a fresh
 * packet id, the promise of that command waits under the id, and an incoming message either
 * settles the promise waiting under its id or goes to every event listener.
 */
module ClientLink {
  import opened Wrappers

  /** A packet sent over the socket: the command's own fields (kept opaque) and its request id. */
  datatype Packet = Packet(data: string, packetId: int)

  /** A message from the server; `packetId` is absent on broadcasts such as `setChunk`. */
  datatype Incoming = Incoming(packetId: Option<int>, data: string)

  /** Who got a message: the callback waiting for request `id`, or the event listener `listener`. */
  datatype Receipt = Resolved(id: int, message: Incoming) | Heard(listener: nat, message: Incoming)

  /** Every listener, in registration order, hears `m`. */
  function ToListeners(listeners: seq<nat>, m: Incoming): seq<Receipt>
  {
    seq(|listeners|, i requires 0 <= i < |listeners| => Heard(listeners[i], m))
  }

  /** Whether `m` settles a waiting callback: its id is a key of the callback table. */
  predicate Settles(pending: set<int>, m: Incoming)
  {
    m.packetId.Some? && m.packetId.value in pending
  }

  /**
   * What `onmessage` does with `m`: the waiting callback of its id runs and is deleted, or else
   * every listener hears it. The result is the new callback table and who received the message.
   */
  function Route(pending: set<int>, listeners: seq<nat>, m: Incoming): (r: (set<int>, seq<Receipt>))
    ensures Settles(pending, m) ==> r.0 == pending - {m.packetId.value} && r.1 == [Resolved(m.packetId.value, m)]
    ensures !Settles(pending, m) ==> r.0 == pending && |r.1| == |listeners|
    ensures !Settles(pending, m) ==> forall i :: 0 <= i < |listeners| ==> r.1[i] == Heard(listeners[i], m)
    ensures r.0 <= pending
  {
    if Settles(pending, m) then (pending - {m.packetId.value}, [Resolved(m.packetId.value, m)])
    else (pending, ToListeners(listeners, m))
  }

  /** Once a reply has settled its callback, a second message with the same id goes to the listeners. */
  lemma SecondReplyGoesToListeners(pending: set<int>, listeners: seq<nat>, m: Incoming)
    requires Settles(pending, m)
    ensures var (after, _) := Route(pending, listeners, m);
      Route(after, listeners, m) == (after, ToListeners(listeners, m))
  {
  }

  /** A sequence of messages delivered one after another. */
  function RouteAll(pending: set<int>, listeners: seq<nat>, ms: seq<Incoming>): (set<int>, seq<Receipt>)
    decreases |ms|
  {
    if ms == [] then (pending, [])
    else
      var (p, rs) := Route(pending, listeners, ms[0]);
      var (q, rest) := RouteAll(p, listeners, ms[1..]);
      (q, rs + rest)
  }

  /** How many times the callback of request `id` runs in `rs`. */
  function Settlements(rs: seq<Receipt>, id: int): nat
  {
    if rs == [] then 0
    else (if rs[0].Resolved? && rs[0].id == id then 1 else 0) + Settlements(rs[1..], id)
  }

  lemma {:induction false} SettlementsConcat(a: seq<Receipt>, b: seq<Receipt>, id: int)
    ensures Settlements(a + b, id) == Settlements(a, id) + Settlements(b, id)
    decreases |a|
  {
    if a == [] {
      assert a + b == b;
    } else {
      assert (a + b)[1..] == a[1..] + b;
      SettlementsConcat(a[1..], b, id);
    }
  }

  lemma ListenersSettleNothing(listeners: seq<nat>, m: Incoming, id: int)
    ensures Settlements(ToListeners(listeners, m), id) == 0
    decreases |listeners|
  {
    if listeners != [] {
      assert ToListeners(listeners, m)[1..] == ToListeners(listeners[1..], m);
      ListenersSettleNothing(listeners[1..], m, id);
    }
  }

  /**
   * Whatever messages arrive, the callback of a request runs at most once, and only if it was
   * waiting to begin with; the callbacks still waiting at the end are among those waiting at the start.
   */
  lemma {:induction false} CallbackRunsAtMostOnce(pending: set<int>, listeners: seq<nat>, ms: seq<Incoming>, id: int)
    ensures Settlements(RouteAll(pending, listeners, ms).1, id) <= (if id in pending then 1 else 0)
    ensures RouteAll(pending, listeners, ms).0 <= pending
    decreases |ms|
  {
    if ms != [] {
      var (p, rs) := Route(pending, listeners, ms[0]);
      CallbackRunsAtMostOnce(p, listeners, ms[1..], id);
      var (q, rest) := RouteAll(p, listeners, ms[1..]);
      SettlementsConcat(rs, rest, id);
      if !Settles(pending, ms[0]) {
        ListenersSettleNothing(listeners, ms[0], id);
      }
    }
  }

  /** The ids of the packets sent so far are exactly 1, 2, 3, ... */
  ghost predicate NumberedFromOne(out: seq<Packet>)
  {
    forall i :: 0 <= i < |out| ==> out[i].packetId == i + 1
  }

  /** Numbered packets carry strictly increasing, hence pairwise distinct, ids. */
  lemma IdsIncrease(out: seq<Packet>, i: nat, j: nat)
    requires NumberedFromOne(out) && i < j < |out|
    ensures out[i].packetId < out[j].packetId
  {
  }

  /**
   * The client's `Server` object. `remote` is whether it was built with an address (a socket
   * exists); `pending` are the keys of the callback table; `outbox` records `ws.send`;
   * `received` records who got each incoming message.
   */
  class Server {
    const remote: bool
    var packetId: int
    var pending: set<int>
    var listeners: seq<nat>
    var outbox: seq<Packet>
    var received: seq<Receipt>

    /** Every waiting id was issued, and over a socket every issued id was sent, in order. */
    ghost predicate Valid()
      reads this
    {
      && packetId >= 0
      && (forall k :: k in pending ==> 1 <= k <= packetId)
      && (remote ==> |outbox| == packetId && NumberedFromOne(outbox))
      && (!remote ==> outbox == [])
    }

    constructor(remote: bool)
      ensures Valid()
      ensures this.remote == remote && packetId == 0 && pending == {}
      ensures listeners == [] && outbox == [] && received == []
    {
      this.remote := remote;
      packetId := 0;
      pending := {};
      listeners := [];
      outbox := [];
      received := [];
    }

    /** `addEventListener`: listeners are kept in registration order. */
    method AddEventListener(listener: nat)
      modifies this
      ensures listeners == old(listeners) + [listener]
      ensures packetId == old(packetId) && pending == old(pending)
      ensures outbox == old(outbox) && received == old(received)
    {
      listeners := listeners + [listener];
    }

    /**
     * `runCommand`: the counter is advanced first, the callback waits under the new id, and the
     * packet (when there is a socket) carries that same id. The id was not waiting before.
     */
    method RunCommand(data: string) returns (id: int)
      requires Valid()
      modifies this
      ensures Valid()
      ensures id == old(packetId) + 1 && packetId == id && id !in old(pending)
      ensures pending == old(pending) + {id}
      ensures outbox == old(outbox) + (if remote then [Packet(data, id)] else [])
      ensures listeners == old(listeners) && received == old(received)
    {
      packetId := packetId + 1;
      id := packetId;
      pending := pending + {id};
      if remote {
        outbox := outbox + [Packet(data, id)];
      }
    }

    /** Every listener hears `m`, in registration order (also how local world events are forwarded). */
    method Forward(m: Incoming)
      modifies this
      ensures received == old(received) + ToListeners(listeners, m)
      ensures listeners == old(listeners) && packetId == old(packetId)
      ensures pending == old(pending) && outbox == old(outbox)
    {
      for i := 0 to |listeners|
        invariant listeners == old(listeners) && packetId == old(packetId)
        invariant received == old(received) + ToListeners(listeners[..i], m)
        invariant pending == old(pending) && outbox == old(outbox)
      {
        assert ToListeners(listeners[..i + 1], m) == ToListeners(listeners[..i], m) + [Heard(listeners[i], m)];
        received := received + [Heard(listeners[i], m)];
      }
      assert listeners[..|listeners|] == listeners;
    }

    /** `ws.onmessage`: settles the waiting callback of the message's id, or forwards to every listener. */
    method OnMessage(m: Incoming)
      requires Valid()
      modifies this
      ensures Valid()
      ensures pending == Route(old(pending), listeners, m).0
      ensures received == old(received) + Route(old(pending), listeners, m).1
      ensures listeners == old(listeners) && packetId == old(packetId) && outbox == old(outbox)
    {
      if m.packetId.Some? && m.packetId.value in pending {
        received := received + [Resolved(m.packetId.value, m)];
        pending := pending - {m.packetId.value};
      } else {
        Forward(m);
      }
    }
  }
}
