/**
 * The server entry point: the `Server` facade over the authoritative world, and the connection
 * endpoint that keeps the list of sockets, relays world events to the open ones and dispatches
 * each parsed request to the facade, replying to the sender and broadcasting block changes.
 */
module ServerMain {
  import opened Wrappers
  import opened Addressing
  import opened Chunks
  import opened Biomes
  import opened ServerWorld

  /**
   * The names `buildMesh(chunkName)` asks for, in its order: the name itself, then the names built
   * from its three numbers with x + 1, x - 1, y + 1, y - 1, z + 1 and z - 1.
   */
  function MeshNames(name: string): (names: seq<string>)
    ensures |names| == 7 && names[0] == name
  {
    var (cx, cy, cz) := ChunkPosition(name);
    [name,
     CreateChunkName(AddNum(cx, 1), cy, cz), CreateChunkName(AddNum(cx, -1), cy, cz),
     CreateChunkName(cx, AddNum(cy, 1), cz), CreateChunkName(cx, AddNum(cy, -1), cz),
     CreateChunkName(cx, cy, AddNum(cz, 1)), CreateChunkName(cx, cy, AddNum(cz, -1))]
  }

  /** For a canonical name, the names are those of the chunk and of its six face neighbours. */
  lemma MeshNamesOfChunk(c: Coord)
    ensures MeshNames(ChunkName(c)) ==
      [ChunkName(c),
       ChunkName(Coord(c.x + 1, c.y, c.z)), ChunkName(Coord(c.x - 1, c.y, c.z)),
       ChunkName(Coord(c.x, c.y + 1, c.z)), ChunkName(Coord(c.x, c.y - 1, c.z)),
       ChunkName(Coord(c.x, c.y, c.z + 1)), ChunkName(Coord(c.x, c.y, c.z - 1))]
  {
    ParseChunkNameOfName(c);
  }

  /** The record after `generateTerrain` of each name in turn. */
  function WithChunks(chunks: ChunkMap, t: Terrain, names: seq<string>): ChunkMap
    decreases |names|
  {
    if names == [] then chunks else WithChunks(WithChunk(chunks, t, names[0]), t, names[1..])
  }

  /** Gathering adds exactly the names and replaces no stored chunk. */
  lemma {:induction false} WithChunksKeys(chunks: ChunkMap, t: Terrain, names: seq<string>)
    ensures WithChunks(chunks, t, names).Keys == chunks.Keys + set i | 0 <= i < |names| :: names[i]
    ensures forall n :: n in chunks ==> WithChunks(chunks, t, names)[n] == chunks[n]
    decreases |names|
  {
    if names != [] {
      WithChunksKeys(WithChunk(chunks, t, names[0]), t, names[1..]);
      assert forall i :: 1 <= i < |names| ==> names[i] == names[1..][i - 1];
      assert (set i | 0 <= i < |names| :: names[i]) == {names[0]} + set i | 0 <= i < |names[1..]| :: names[1..][i];
    }
  }

  /** A record that already holds every name is left as it is: gathering twice generates nothing new. */
  lemma {:induction false} WithChunksPresent(chunks: ChunkMap, t: Terrain, names: seq<string>)
    requires forall i :: 0 <= i < |names| ==> names[i] in chunks
    ensures WithChunks(chunks, t, names) == chunks
    decreases |names|
  {
    if names != [] {
      assert WithChunk(chunks, t, names[0]) == chunks;
      WithChunksPresent(chunks, t, names[1..]);
    }
  }

  /** Generating the k-th name is one step of the gathering. */
  lemma WithChunksStep(chunks: ChunkMap, t: Terrain, names: seq<string>, k: nat)
    requires k < |names|
    ensures WithChunks(chunks, t, names[k..]) == WithChunks(WithChunk(chunks, t, names[k]), t, names[k + 1..])
  {
    assert names[k..][1..] == names[k + 1..];
  }

  /** Seven records that each add the next name end at the gathering of the seven names. */
  lemma SevenGenerations(c0: ChunkMap, c1: ChunkMap, c2: ChunkMap, c3: ChunkMap, c4: ChunkMap,
                         c5: ChunkMap, c6: ChunkMap, c7: ChunkMap, t: Terrain, names: seq<string>)
    requires |names| == 7
    requires c1 == WithChunk(c0, t, names[0]) && c2 == WithChunk(c1, t, names[1])
    requires c3 == WithChunk(c2, t, names[2]) && c4 == WithChunk(c3, t, names[3])
    requires c5 == WithChunk(c4, t, names[4]) && c6 == WithChunk(c5, t, names[5])
    requires c7 == WithChunk(c6, t, names[6])
    ensures c7 == WithChunks(c0, t, names)
    ensures forall i :: 0 <= i < 7 ==> names[i] in c7
  {
    assert names[0..] == names && names[7..] == [];
    WithChunksStep(c0, t, names, 0);
    WithChunksStep(c1, t, names, 1);
    WithChunksStep(c2, t, names, 2);
    WithChunksStep(c3, t, names, 3);
    WithChunksStep(c4, t, names, 4);
    WithChunksStep(c5, t, names, 5);
    WithChunksStep(c6, t, names, 6);
    WithChunksKeys(c0, t, names);
  }

  /** The record `buildMesh` replies with: each of the names mapped to its stored chunk. */
  function MeshOf(chunks: ChunkMap, names: seq<string>): (r: map<string, Chunk>)
    requires forall i :: 0 <= i < |names| ==> names[i] in chunks
    ensures r.Keys == set i | 0 <= i < |names| :: names[i]
    ensures forall n :: n in r ==> r[n] == chunks[n]
  {
    map n | n in names :: chunks[n]
  }

  /** Adding one more name to the gathered record. */
  lemma MeshOfSnoc(chunks: ChunkMap, names: seq<string>, i: nat)
    requires i < |names| && forall j :: 0 <= j < |names| ==> names[j] in chunks
    ensures MeshOf(chunks, names[..i + 1]) == MeshOf(chunks, names[..i])[names[i] := chunks[names[i]]]
  {
    assert names[..i + 1] == names[..i] + [names[i]];
  }

  /** The facade the endpoint calls: every request goes to the one world. */
  class Server {
    const world: World

    constructor(terrain: Terrain)
      ensures fresh(world) && world.terrain == terrain
      ensures world.chunks == map[] && world.listeners == [] && world.delivered == []
    {
      world := new World(terrain);
    }

    /**
     * `buildMesh(chunkName)`: generate the chunk and its six face neighbours, then gather the seven
     * stored chunks into a fresh record.
     */
    method BuildMesh(name: string) returns (chunks: map<string, Chunk>)
      modifies world
      ensures world.chunks == WithChunks(old(world.chunks), world.terrain, MeshNames(name))
      ensures forall i :: 0 <= i < 7 ==> MeshNames(name)[i] in world.chunks
      ensures chunks == MeshOf(world.chunks, MeshNames(name))
      ensures world.listeners == old(world.listeners) && world.delivered == old(world.delivered)
    {
      var names := MeshNames(name);
      ghost var c0 := world.chunks;
      var _ := world.GenerateTerrain(names[0]);
      ghost var c1 := world.chunks;
      var _ := world.GenerateTerrain(names[1]);
      ghost var c2 := world.chunks;
      var _ := world.GenerateTerrain(names[2]);
      ghost var c3 := world.chunks;
      var _ := world.GenerateTerrain(names[3]);
      ghost var c4 := world.chunks;
      var _ := world.GenerateTerrain(names[4]);
      ghost var c5 := world.chunks;
      var _ := world.GenerateTerrain(names[5]);
      ghost var c6 := world.chunks;
      var _ := world.GenerateTerrain(names[6]);
      ghost var c7 := world.chunks;
      SevenGenerations(c0, c1, c2, c3, c4, c5, c6, c7, world.terrain, names);
      // generateTerrain returns the name it was given, so the names gathered are `names`
      chunks := Gather(names);
    }

    /** The `forEach` of `buildMesh`: each name mapped to the world's stored chunk. */
    method Gather(names: seq<string>) returns (chunks: map<string, Chunk>)
      requires forall i :: 0 <= i < |names| ==> names[i] in world.chunks
      ensures chunks == MeshOf(world.chunks, names)
    {
      chunks := map[];
      for i := 0 to |names|
        invariant chunks == MeshOf(world.chunks, names[..i])
      {
        MeshOfSnoc(world.chunks, names, i);
        chunks := chunks[names[i] := world.chunks[names[i]]];
      }
      assert names[..|names|] == names;
    }

    /** `getChunk(chunkName)`: the stored chunk, names first if it is missing. */
    method GetChunk(name: string) returns (chunk: Chunk)
      modifies world
      ensures world.chunks == WithChunk(old(world.chunks), world.terrain, name)
      ensures chunk == world.chunks[name]
      ensures world.listeners == old(world.listeners) && world.delivered == old(world.delivered)
    {
      var _ := world.GenerateTerrain(name);
      chunk := world.chunks[name];
    }

    /** `breakBlock(x, y, z)`: `removeBlock`, returning the chunk of the position. */
    method BreakBlock(p: Coord) returns (chunk: Chunk)
      modifies world
      ensures world.chunks == AfterSet(old(world.chunks), world.terrain, p, "").0
      ensures world.delivered == old(world.delivered) +
        FanOut(AfterSet(old(world.chunks), world.terrain, p, "").1, world.listeners, world.chunks)
      ensures ChunkNameOf(p) in world.chunks && chunk == world.chunks[ChunkNameOf(p)]
      ensures world.listeners == old(world.listeners)
    {
      chunk := world.RemoveBlock(p);
    }

    /** `placeBlock(x, y, z, block)`: `setBlock`, returning the chunk of the position. */
    method PlaceBlock(p: Coord, b: string) returns (chunk: Chunk)
      modifies world
      ensures world.chunks == AfterSet(old(world.chunks), world.terrain, p, b).0
      ensures world.delivered == old(world.delivered) +
        FanOut(AfterSet(old(world.chunks), world.terrain, p, b).1, world.listeners, world.chunks)
      ensures ChunkNameOf(p) in world.chunks && chunk == world.chunks[ChunkNameOf(p)]
      ensures world.listeners == old(world.listeners)
    {
      chunk := world.SetBlock(p, b);
    }
  }

  /** What the server writes to a socket, after `JSON.stringify`. */
  datatype Message =
    | WorldEvent(event: Event)                                               // a world event, relayed as it is
    | MeshReply(packetId: int, chunkName: string, chunks: map<string, Chunk>) // the `buildMesh` reply
    | ChunkReply(command: string, packetId: int, chunk: Chunk)              // `getChunk`, `breakBlock`, `placeBlock`
    | SetChunkBroadcast(chunkName: string, chunk: Chunk)                    // the `setChunk` command of a block change

  /** One `ws.send`: the socket written to and the message. */
  datatype Sent = Sent(socket: nat, message: Message)

  /** An incoming message as `JSON.parse` and the `switch` on its `command` see it. */
  datatype Request =
    | BuildMeshRequest(packetId: int, chunkName: string)
    | GetChunkRequest(packetId: int, chunkName: string)
    | BreakBlockRequest(packetId: int, pos: Coord)
    | PlaceBlockRequest(packetId: int, pos: Coord, block: string)
    | UnknownCommand(command: string)
    | Malformed                                                             // `JSON.parse` threw

  /** The command names of the protocol. */
  const BuildMeshCommand: string := "buildMesh"
  const GetChunkCommand: string := "getChunk"
  const BreakBlockCommand: string := "breakBlock"
  const PlaceBlockCommand: string := "placeBlock"
  const SetChunkCommand: string := "setChunk"

  /** The id under which the endpoint registers its relay listener with the world. */
  const Relay: nat := 0

  /** The `command` field of a message, if it has one (a relayed world event carries `type` instead). */
  function CommandOf(m: Message): Option<string>
  {
    match m
    case WorldEvent(_) => None
    case MeshReply(_, _, _) => Some(BuildMeshCommand)
    case ChunkReply(command, _, _) => Some(command)
    case SetChunkBroadcast(_, _) => Some(SetChunkCommand)
  }

  /** The `packetId` field of a message, if it has one. */
  function PacketIdOf(m: Message): Option<int>
  {
    match m
    case MeshReply(id, _, _) => Some(id)
    case ChunkReply(_, id, _) => Some(id)
    case _ => None
  }

  /** `connections.forEach(ws => { if (ws.readyState !== ws.OPEN) return; ws.send(m) })`. */
  function ToOpen(conns: seq<nat>, open: set<nat>, m: Message): seq<Sent>
    decreases |conns|
  {
    if conns == [] then []
    else
      var s := conns[|conns| - 1];
      ToOpen(conns[..|conns| - 1], open, m) + (if s in open then [Sent(s, m)] else [])
  }

  /** `connections.forEach(ws => ws.send(m))`. */
  function ToAll(conns: seq<nat>, m: Message): (r: seq<Sent>)
    ensures |r| == |conns|
    ensures forall i :: 0 <= i < |conns| ==> r[i] == Sent(conns[i], m)
  {
    seq(|conns|, i requires 0 <= i < |conns| => Sent(conns[i], m))
  }

  /** The relay listener's sends: each world event in turn, to every open connection. */
  function Relayed(ds: seq<Delivery>, conns: seq<nat>, open: set<nat>): seq<Sent>
    decreases |ds|
  {
    if ds == [] then []
    else Relayed(ds[..|ds| - 1], conns, open) + ToOpen(conns, open, WorldEvent(ds[|ds| - 1].event))
  }

  /** Exactly the open connections receive a message sent to the open ones, and it is that message. */
  lemma {:induction false} ToOpenReaches(conns: seq<nat>, open: set<nat>, m: Message, x: Sent)
    ensures x in ToOpen(conns, open, m) <==> x.socket in conns && x.socket in open && x.message == m
    decreases |conns|
  {
    if conns != [] {
      var init := conns[..|conns| - 1];
      ToOpenReaches(init, open, m, x);
      assert conns == init + [conns[|conns| - 1]];
    }
  }

  /** When every connection is open, sending to the open ones is sending to all. */
  lemma {:induction false} ToOpenAllOpen(conns: seq<nat>, open: set<nat>, m: Message)
    requires forall i :: 0 <= i < |conns| ==> conns[i] in open
    ensures ToOpen(conns, open, m) == ToAll(conns, m)
    decreases |conns|
  {
    if conns != [] {
      var init := conns[..|conns| - 1];
      ToOpenAllOpen(init, open, m);
      assert ToAll(conns, m) == ToAll(init, m) + [Sent(conns[|conns| - 1], m)];
    }
  }

  /** Relayed world events reach only open connections, and each is one of the world's events. */
  lemma {:induction false} RelayedReaches(ds: seq<Delivery>, conns: seq<nat>, open: set<nat>, x: Sent)
    ensures x in Relayed(ds, conns, open) <==>
      x.socket in conns && x.socket in open && x.message.WorldEvent? &&
      exists i :: 0 <= i < |ds| && ds[i].event == x.message.event
    decreases |ds|
  {
    if ds != [] {
      var init := ds[..|ds| - 1];
      var last := ds[|ds| - 1];
      RelayedReaches(init, conns, open, x);
      ToOpenReaches(conns, open, WorldEvent(last.event), x);
      if x.message.WorldEvent? && (exists i :: 0 <= i < |ds| && ds[i].event == x.message.event) {
        var i :| 0 <= i < |ds| && ds[i].event == x.message.event;
        if i < |ds| - 1 {
          assert init[i] == ds[i];
        }
      }
      if x.message.WorldEvent? && exists i :: 0 <= i < |init| && init[i].event == x.message.event {
        var i :| 0 <= i < |init| && init[i].event == x.message.event;
        assert ds[i] == init[i];
      }
    }
  }

  /** The messages that carry a `packetId`: the replies. */
  function Replies(out: seq<Sent>): seq<Sent>
    decreases |out|
  {
    if out == [] then []
    else Replies(out[..|out| - 1]) + (if PacketIdOf(out[|out| - 1].message).Some? then [out[|out| - 1]] else [])
  }

  lemma {:induction false} RepliesConcat(a: seq<Sent>, b: seq<Sent>)
    ensures Replies(a + b) == Replies(a) + Replies(b)
    decreases |b|
  {
    if b == [] {
      assert a + b == a;
    } else {
      var init := b[..|b| - 1];
      RepliesConcat(a, init);
      assert (a + b)[..|a + b| - 1] == a + init;
    }
  }

  /** Neither a broadcast nor a relayed world event is a reply. */
  lemma {:induction false} NoRepliesToOpen(conns: seq<nat>, open: set<nat>, m: Message)
    requires PacketIdOf(m).None?
    ensures Replies(ToOpen(conns, open, m)) == []
    decreases |conns|
  {
    if conns != [] {
      var init := conns[..|conns| - 1];
      var s := conns[|conns| - 1];
      NoRepliesToOpen(init, open, m);
      RepliesConcat(ToOpen(init, open, m), if s in open then [Sent(s, m)] else []);
      assert Replies([Sent(s, m)]) == Replies([]) + [];
    }
  }

  lemma {:induction false} NoRepliesToAll(conns: seq<nat>, m: Message)
    requires PacketIdOf(m).None?
    ensures Replies(ToAll(conns, m)) == []
    decreases |conns|
  {
    if conns != [] {
      var init := conns[..|conns| - 1];
      NoRepliesToAll(init, m);
      assert ToAll(conns, m)[..|conns| - 1] == ToAll(init, m);
    }
  }

  lemma {:induction false} NoRepliesRelayed(ds: seq<Delivery>, conns: seq<nat>, open: set<nat>)
    ensures Replies(Relayed(ds, conns, open)) == []
    decreases |ds|
  {
    if ds != [] {
      var init := ds[..|ds| - 1];
      NoRepliesRelayed(init, conns, open);
      NoRepliesToOpen(conns, open, WorldEvent(ds[|ds| - 1].event));
      RepliesConcat(Relayed(init, conns, open), ToOpen(conns, open, WorldEvent(ds[|ds| - 1].event)));
    }
  }

  /** The `command` a request was sent with. */
  function CommandName(req: Request): string
  {
    match req
    case BuildMeshRequest(_, _) => BuildMeshCommand
    case GetChunkRequest(_, _) => GetChunkCommand
    case BreakBlockRequest(_, _) => BreakBlockCommand
    case PlaceBlockRequest(_, _, _) => PlaceBlockCommand
    case UnknownCommand(command) => command
    case Malformed => ""
  }

  /** What the facade hands back to the handler: the gathered record, a chunk, or a change with its world events. */
  datatype Effect =
    | Gathered(chunks: map<string, Chunk>)
    | Fetched(chunk: Chunk)
    | Changed(events: seq<Delivery>, chunk: Chunk)
    | Ignored

  /** The world side of a request: the new record and what the facade returns. */
  function Perform(t: Terrain, chunks: ChunkMap, req: Request): (r: (ChunkMap, Effect))
    ensures Matches(req, r.1)
  {
    match req
    case BuildMeshRequest(_, name) =>
      var names := MeshNames(name);
      var c := WithChunks(chunks, t, names);
      WithChunksKeys(chunks, t, names);
      (c, Gathered(MeshOf(c, names)))
    case GetChunkRequest(_, name) =>
      var c := WithChunk(chunks, t, name);
      (c, Fetched(c[name]))
    case BreakBlockRequest(_, p) =>
      var (c, dirty) := AfterSet(chunks, t, p, "");
      (c, Changed(FanOut(dirty, [Relay], c), c[ChunkNameOf(p)]))
    case PlaceBlockRequest(_, p, b) =>
      var (c, dirty) := AfterSet(chunks, t, p, b);
      (c, Changed(FanOut(dirty, [Relay], c), c[ChunkNameOf(p)]))
    case UnknownCommand(_) => (chunks, Ignored)
    case Malformed => (chunks, Ignored)
  }

  /** The facade's answer has the shape the request calls for. */
  predicate Matches(req: Request, e: Effect)
  {
    match req
    case BuildMeshRequest(_, _) => e.Gathered?
    case GetChunkRequest(_, _) => e.Fetched?
    case BreakBlockRequest(_, _) => e.Changed?
    case PlaceBlockRequest(_, _, _) => e.Changed?
    case UnknownCommand(_) => e.Ignored?
    case Malformed => e.Ignored?
  }

  /** The reply to a recognised command: its command and packet id echoed, with what the facade returned. */
  function Reply(req: Request, e: Effect): (m: Message)
    requires Matches(req, e) && !req.UnknownCommand? && !req.Malformed?
    ensures PacketIdOf(m) == Some(req.packetId) && CommandOf(m) == Some(CommandName(req))
  {
    match req
    case BuildMeshRequest(id, name) => MeshReply(id, name, e.chunks)
    case GetChunkRequest(id, _) => ChunkReply(GetChunkCommand, id, e.chunk)
    case BreakBlockRequest(id, _) => ChunkReply(BreakBlockCommand, id, e.chunk)
    case PlaceBlockRequest(id, _, _) => ChunkReply(PlaceBlockCommand, id, e.chunk)
  }

  /**
   * The socket side of a request: for a block change, the world events are relayed to the open
   * connections as they happen, then the reply goes to the sender, then the `setChunk` broadcast
   * goes out (`breakBlock` to the open connections, `placeBlock` to every connection); the other
   * commands only reply; an unknown command or a malformed message is caught and sends nothing.
   */
  function Respond(req: Request, e: Effect, conns: seq<nat>, open: set<nat>, sender: nat): (out: seq<Sent>)
    requires Matches(req, e)
    ensures out == [] <==> req.UnknownCommand? || req.Malformed?
  {
    match req
    case BuildMeshRequest(_, _) => [Sent(sender, Reply(req, e))]
    case GetChunkRequest(_, _) => [Sent(sender, Reply(req, e))]
    case BreakBlockRequest(_, p) =>
      Relayed(e.events, conns, open) + [Sent(sender, Reply(req, e))] + ToOpen(conns, open, Broadcast(p, e))
    case PlaceBlockRequest(_, p, _) =>
      Relayed(e.events, conns, open) + [Sent(sender, Reply(req, e))] + ToAll(conns, Broadcast(p, e))
    case UnknownCommand(_) => []
    case Malformed => []
  }

  /** The world events a facade call produced. */
  function EventsOf(e: Effect): seq<Delivery>
  {
    if e.Changed? then e.events else []
  }

  /** The `setChunk` command broadcast after a block change at `p`. */
  function Broadcast(p: Coord, e: Effect): (m: Message)
    requires e.Changed?
    ensures PacketIdOf(m).None?
  {
    SetChunkBroadcast(ChunkNameOf(p), e.chunk)
  }

  /** Every recognised command gets exactly one reply, and it goes to its sender. */
  lemma ReplyEchoes(req: Request, e: Effect, conns: seq<nat>, open: set<nat>, sender: nat)
    requires Matches(req, e) && !req.UnknownCommand? && !req.Malformed?
    ensures Replies(Respond(req, e, conns, open, sender)) == [Sent(sender, Reply(req, e))]
  {
    var out := Respond(req, e, conns, open, sender);
    var reply := Sent(sender, Reply(req, e));
    match req
    case BuildMeshRequest(_, _) =>
      OneReply([], reply, []);
      assert out == [] + [reply] + [];
    case GetChunkRequest(_, _) =>
      OneReply([], reply, []);
      assert out == [] + [reply] + [];
    case BreakBlockRequest(_, p) =>
      NoRepliesRelayed(e.events, conns, open);
      NoRepliesToOpen(conns, open, Broadcast(p, e));
      OneReply(Relayed(e.events, conns, open), reply, ToOpen(conns, open, Broadcast(p, e)));
    case PlaceBlockRequest(_, p, _) =>
      NoRepliesRelayed(e.events, conns, open);
      NoRepliesToAll(conns, Broadcast(p, e));
      OneReply(Relayed(e.events, conns, open), reply, ToAll(conns, Broadcast(p, e)));
  }

  /** A reply between sends that are not replies is the only reply. */
  lemma OneReply(before: seq<Sent>, reply: Sent, after: seq<Sent>)
    requires Replies(before) == [] && Replies(after) == [] && PacketIdOf(reply.message).Some?
    ensures Replies(before + [reply] + after) == [reply]
  {
    RepliesConcat(before, [reply]);
    RepliesConcat(before + [reply], after);
    assert Replies([reply]) == Replies([]) + [reply];
  }

  /**
   * The `setChunk` broadcast of a block change reaches a socket exactly when it is a connection and,
   * for `breakBlock`, open; for `placeBlock` the socket's state does not matter.
   */
  lemma BroadcastReaches(req: Request, e: Effect, conns: seq<nat>, open: set<nat>, sender: nat, s: nat)
    requires Matches(req, e) && (req.BreakBlockRequest? || req.PlaceBlockRequest?)
    ensures var out := Respond(req, e, conns, open, sender);
      Sent(s, Broadcast(req.pos, e)) in out <==>
        s in conns && (req.BreakBlockRequest? ==> s in open)
  {
    var m := Broadcast(req.pos, e);
    var x := Sent(s, m);
    RelayedReaches(e.events, conns, open, x);
    ToOpenReaches(conns, open, m, x);
    var all := ToAll(conns, m);
    if x in all {
      var i :| 0 <= i < |all| && all[i] == x;
      assert conns[i] == s;
    }
    if s in conns {
      var i :| 0 <= i < |conns| && conns[i] == s;
      assert all[i] == x;
    }
  }

  /** Relayed world events go only to open connections; replies and broadcasts are never world events. */
  lemma EventsReachOpen(req: Request, e: Effect, conns: seq<nat>, open: set<nat>, sender: nat, x: Sent)
    requires Matches(req, e)
    requires x in Respond(req, e, conns, open, sender) && x.message.WorldEvent?
    ensures req.BreakBlockRequest? || req.PlaceBlockRequest?
    ensures x.socket in conns && x.socket in open
    ensures exists i :: 0 <= i < |e.events| && e.events[i].event == x.message.event
  {
    match req
    case BreakBlockRequest(_, p) =>
      RelayedReaches(e.events, conns, open, x);
      ToOpenReaches(conns, open, Broadcast(p, e), x);
    case PlaceBlockRequest(_, p, _) =>
      RelayedReaches(e.events, conns, open, x);
  }

  /** `getChunk` twice: the second call generates nothing and returns the same stored chunk. */
  lemma GetChunkTwice(t: Terrain, chunks: ChunkMap, id1: int, id2: int, name: string)
    ensures var first := Perform(t, chunks, GetChunkRequest(id1, name));
      var second := Perform(t, first.0, GetChunkRequest(id2, name));
      second == first
  {
    GenerateOnce(chunks, t, name, name);
  }

  /** `buildMesh` twice: the second call generates nothing and returns the same record. */
  lemma BuildMeshTwice(t: Terrain, chunks: ChunkMap, id1: int, id2: int, name: string)
    ensures var first := Perform(t, chunks, BuildMeshRequest(id1, name));
      var second := Perform(t, first.0, BuildMeshRequest(id2, name));
      second == first
  {
    var names := MeshNames(name);
    WithChunksKeys(chunks, t, names);
    WithChunksPresent(WithChunks(chunks, t, names), t, names);
  }

  /** `connections.indexOf(ws)`: the first index holding the socket, or -1. */
  function IndexOf(conns: seq<nat>, s: nat): (i: int)
    ensures -1 <= i < |conns|
    ensures i == -1 <==> s !in conns
    ensures i >= 0 ==> conns[i] == s && s !in conns[..i]
    decreases |conns|
  {
    if conns == [] then -1
    else if conns[0] == s then 0
    else
      var j := IndexOf(conns[1..], s);
      assert j >= 0 ==> conns[..j + 1] == [conns[0]] + conns[1..][..j];
      if j == -1 then -1 else j + 1
  }

  /** `connections.splice(start, 1)`: a negative start counts back from the end (at least 0); a start past the end removes nothing. */
  function SpliceOne(conns: seq<nat>, start: int): seq<nat>
  {
    var k := if start < 0 then (if |conns| + start < 0 then 0 else |conns| + start) else start;
    if k < |conns| then conns[..k] + conns[k + 1..] else conns
  }

  /** `onClose` as written: `connections.splice(connections.indexOf(ws), 1)`. */
  function RemoveAsWritten(conns: seq<nat>, s: nat): seq<nat>
  {
    SpliceOne(conns, IndexOf(conns, s))
  }

  /** Closing a socket that is not in the list (its `onopen` never ran) drops the last connection instead. */
  lemma CloseOfUnlistedSocketDropsAnother(conns: seq<nat>, s: nat)
    requires s !in conns && conns != []
    ensures RemoveAsWritten(conns, s) == conns[..|conns| - 1]
  {
  }

  /** A concrete instance: player 7 is connected, a socket 8 that never opened closes, and 7 is dropped. */
  lemma CloseOfUnlistedSocketExample()
    ensures RemoveAsWritten([7], 8) == []
  {
    CloseOfUnlistedSocketDropsAnother([7], 8);
  }

  /** The intended `onClose`: the socket's entry is removed if it is there, and nothing else changes. */
  function Remove(conns: seq<nat>, s: nat): (r: seq<nat>)
    ensures s !in conns ==> r == conns
    ensures s in conns ==> multiset(r) == multiset(conns) - multiset{s}
    ensures s in conns ==> r == RemoveAsWritten(conns, s)
  {
    if s in conns then
      var i := IndexOf(conns, s);
      assert conns == conns[..i] + [s] + conns[i + 1..];
      SpliceOne(conns, i)
    else conns
  }

  /** Removing keeps every other connection, in order of membership. */
  lemma RemoveKeepsOthers(conns: seq<nat>, s: nat, other: nat)
    requires other != s
    ensures other in Remove(conns, s) <==> other in conns
  {
    assert other in multiset(Remove(conns, s)) <==> other in multiset(conns);
  }

  /**
   * The socket handling of the server: the list of connections, every `ws.send` made so far, and the
   * relay listener it registers with the world, which sends each world event to the open connections.
   */
  class Endpoint {
    const server: Server
    var connections: seq<nat>
    /** Every `ws.send` so far, in order. */
    var sent: seq<Sent>

    /** The relay is the world's only listener. */
    ghost predicate Valid()
      reads server.world
    {
      server.world.listeners == [Relay]
    }

    constructor(terrain: Terrain)
      ensures Valid() && fresh(server) && fresh(server.world)
      ensures server.world.terrain == terrain && server.world.chunks == map[] && server.world.delivered == []
      ensures connections == [] && sent == []
    {
      server := new Server(terrain);
      connections := [];
      sent := [];
      new;
      server.world.AddEventListener(Relay);
    }

    /** `ws.onopen`: the socket joins the list. */
    method OnOpen(s: nat)
      modifies this
      ensures connections == old(connections) + [s] && sent == old(sent)
    {
      connections := connections + [s];
    }

    /** `onClose`, corrected: the socket leaves the list if it is in it. */
    method OnClose(s: nat)
      modifies this
      ensures connections == Remove(old(connections), s) && sent == old(sent)
    {
      if s in connections {
        connections := SpliceOne(connections, IndexOf(connections, s));
      }
    }

    /** `ws.send(m)` on every open connection, in list order. */
    method SendToOpen(open: set<nat>, m: Message)
      modifies this
      ensures connections == old(connections)
      ensures sent == old(sent) + ToOpen(connections, open, m)
    {
      for i := 0 to |connections|
        invariant connections == old(connections)
        invariant sent == old(sent) + ToOpen(connections[..i], open, m)
      {
        assert connections[..i + 1][..i] == connections[..i];
        if connections[i] in open {
          sent := sent + [Sent(connections[i], m)];
        }
      }
      assert connections[..|connections|] == connections;
    }

    /** `ws.send(m)` on every connection, whatever its state. */
    method SendToAll(m: Message)
      modifies this
      ensures connections == old(connections)
      ensures sent == old(sent) + ToAll(connections, m)
    {
      for i := 0 to |connections|
        invariant connections == old(connections)
        invariant sent == old(sent) + ToAll(connections[..i], m)
      {
        assert ToAll(connections[..i + 1], m) == ToAll(connections[..i], m) + [Sent(connections[i], m)];
        sent := sent + [Sent(connections[i], m)];
      }
      assert connections[..|connections|] == connections;
    }

    /** The relay listener, once per world event in the order the world produced them. */
    method RelayEvents(ds: seq<Delivery>, open: set<nat>)
      modifies this
      ensures connections == old(connections)
      ensures sent == old(sent) + Relayed(ds, connections, open)
    {
      for d := 0 to |ds|
        invariant connections == old(connections)
        invariant sent == old(sent) + Relayed(ds[..d], connections, open)
      {
        assert ds[..d + 1][..d] == ds[..d];
        SendToOpen(open, WorldEvent(ds[d].event));
      }
      assert ds[..|ds|] == ds;
    }

    /**
     * `ws.onmessage` for a message from `sender`, with `open` the sockets whose state is OPEN: the
     * world changes as the facade call does, and the sends are those of `Respond`.
     */
    method OnMessage(sender: nat, open: set<nat>, req: Request)
      requires Valid()
      modifies this, server.world
      ensures Valid() && connections == old(connections)
      ensures Perform(server.world.terrain, old(server.world.chunks), req).0 == server.world.chunks
      ensures var e := Perform(server.world.terrain, old(server.world.chunks), req).1;
        server.world.delivered == old(server.world.delivered) + EventsOf(e) &&
        sent == old(sent) + Respond(req, e, connections, open, sender)
    {
      match req
      case BuildMeshRequest(id, name) => OnBuildMesh(sender, id, name);
      case GetChunkRequest(id, name) => OnGetChunk(sender, id, name);
      case BreakBlockRequest(id, p) => OnBreakBlock(sender, open, id, p);
      case PlaceBlockRequest(id, p, b) => OnPlaceBlock(sender, open, id, p, b);
      case UnknownCommand(_) =>
      case Malformed =>
    }

    /** The `buildMesh` case: gather, then reply with the record. */
    method OnBuildMesh(sender: nat, id: int, name: string)
      requires Valid()
      modifies this, server.world
      ensures Valid() && connections == old(connections)
      ensures var r := Perform(server.world.terrain, old(server.world.chunks), BuildMeshRequest(id, name));
        server.world.chunks == r.0 && server.world.delivered == old(server.world.delivered) &&
        sent == old(sent) + Respond(BuildMeshRequest(id, name), r.1, connections, {}, sender)
    {
      var chunks := server.BuildMesh(name);
      sent := sent + [Sent(sender, MeshReply(id, name, chunks))];
    }

    /** The `getChunk` case: fetch, then reply with the chunk. */
    method OnGetChunk(sender: nat, id: int, name: string)
      requires Valid()
      modifies this, server.world
      ensures Valid() && connections == old(connections)
      ensures var r := Perform(server.world.terrain, old(server.world.chunks), GetChunkRequest(id, name));
        server.world.chunks == r.0 && server.world.delivered == old(server.world.delivered) &&
        sent == old(sent) + Respond(GetChunkRequest(id, name), r.1, connections, {}, sender)
    {
      var chunk := server.GetChunk(name);
      sent := sent + [Sent(sender, ChunkReply(GetChunkCommand, id, chunk))];
    }

    /** The `breakBlock` case: remove, then relay, reply and broadcast to the open connections. */
    method OnBreakBlock(sender: nat, open: set<nat>, id: int, p: Coord)
      requires Valid()
      modifies this, server.world
      ensures Valid() && connections == old(connections)
      ensures var r := Perform(server.world.terrain, old(server.world.chunks), BreakBlockRequest(id, p));
        server.world.chunks == r.0 && server.world.delivered == old(server.world.delivered) + r.1.events &&
        sent == old(sent) + Respond(BreakBlockRequest(id, p), r.1, connections, open, sender)
    {
      var start := |server.world.delivered|;
      var chunk := server.BreakBlock(p);
      AnnounceChange(sender, open, BreakBlockRequest(id, p), server.world.delivered[start..], chunk);
    }

    /** The `placeBlock` case: set, then relay, reply and broadcast to every connection. */
    method OnPlaceBlock(sender: nat, open: set<nat>, id: int, p: Coord, b: string)
      requires Valid()
      modifies this, server.world
      ensures Valid() && connections == old(connections)
      ensures var r := Perform(server.world.terrain, old(server.world.chunks), PlaceBlockRequest(id, p, b));
        server.world.chunks == r.0 && server.world.delivered == old(server.world.delivered) + r.1.events &&
        sent == old(sent) + Respond(PlaceBlockRequest(id, p, b), r.1, connections, open, sender)
    {
      var start := |server.world.delivered|;
      var chunk := server.PlaceBlock(p, b);
      AnnounceChange(sender, open, PlaceBlockRequest(id, p, b), server.world.delivered[start..], chunk);
    }

    /**
     * The sends of a block change once the world has applied it: the world events relayed as the
     * listener makes them, the reply, then the `setChunk` broadcast.
     */
    method AnnounceChange(sender: nat, open: set<nat>, req: Request, events: seq<Delivery>, chunk: Chunk)
      requires req.BreakBlockRequest? || req.PlaceBlockRequest?
      modifies this
      ensures connections == old(connections)
      ensures sent == old(sent) + Respond(req, Changed(events, chunk), connections, open, sender)
    {
      var e := Changed(events, chunk);
      var reply := Sent(sender, Reply(req, e));
      ghost var before := sent;
      RelayEvents(events, open);
      ghost var relayed := Relayed(events, connections, open);
      sent := sent + [reply];
      if req.BreakBlockRequest? {
        SendToOpen(open, Broadcast(req.pos, e));
        SeqAssoc(before, relayed, [reply]);
        SeqAssoc(before, relayed + [reply], ToOpen(connections, open, Broadcast(req.pos, e)));
      } else {
        SendToAll(Broadcast(req.pos, e));
        SeqAssoc(before, relayed, [reply]);
        SeqAssoc(before, relayed + [reply], ToAll(connections, Broadcast(req.pos, e)));
      }
    }
  }
}
