/**
 * The authoritative chunk store of the server: chunks are generated once, on first use; a block
 * change is followed by the support check at the changed cell and its six face neighbours; every
 * chunk that check dirtied is announced to every registered listener.
 */
module ServerWorld {
  import opened Wrappers
  import opened Addressing
  import opened Chunks
  import opened Blocks
  import opened Biomes

  /** The event a listener receives: `{ type: "setChunk", chunkName, chunk }`. */
  datatype Event = SetChunk(chunkName: string, chunk: Chunk)

  /** One invocation of a listener, identified by the id it was registered under. */
  datatype Delivery = Delivery(listener: nat, event: Event)

  /** The record after `generateTerrain(name)`: the name's generated chunk is added if it was missing. */
  function WithChunk(chunks: ChunkMap, t: Terrain, name: string): (r: ChunkMap)
    ensures name in r && r.Keys == chunks.Keys + {name}
    ensures forall n :: n in chunks ==> r[n] == chunks[n]
    ensures name !in chunks ==> r[name] == Generated(t, name)
  {
    if name in chunks then chunks else chunks[name := Generated(t, name)]
  }

  /** Generating is idempotent: a chunk is generated at most once and never replaced. */
  lemma GenerateOnce(chunks: ChunkMap, t: Terrain, name: string, other: string)
    ensures WithChunk(WithChunk(chunks, t, name), t, name) == WithChunk(chunks, t, name)
    ensures name in chunks ==> WithChunk(chunks, t, name) == chunks
    ensures WithChunk(WithChunk(chunks, t, name), t, other) == WithChunk(WithChunk(chunks, t, other), t, name)
  {
  }

  /**
   * The positions `doBlockUpdate` visits, in its order: the cell, its x+1, x-1 and y+1 neighbours,
   * the cell below, then its z+1 and z-1 neighbours.
   */
  function Neighbourhood(p: Coord): (r: seq<Coord>)
    ensures |r| == 7 && r[0] == p
    ensures forall q :: q in r <==> q == p || FaceAdjacent(q, p)
  {
    [p] + Neighbours(p)
  }

  /** Two cells share a face. */
  predicate FaceAdjacent(a: Coord, b: Coord)
  {
    Abs(a.x - b.x) + Abs(a.y - b.y) + Abs(a.z - b.z) == 1
  }

  function Neighbours(p: Coord): seq<Coord>
  {
    UpperSides(p) + ([Below(p)] + DepthSides(p))
  }

  /** None of the six face neighbours is the cell itself. */
  lemma NeighboursAreOthers(p: Coord)
    ensures forall i :: 0 <= i < |Neighbours(p)| ==> Neighbours(p)[i] != p
  {
  }

  function UpperSides(p: Coord): seq<Coord>
  {
    [Coord(p.x + 1, p.y, p.z), Coord(p.x - 1, p.y, p.z), Coord(p.x, p.y + 1, p.z)]
  }

  function DepthSides(p: Coord): seq<Coord>
  {
    [Coord(p.x, p.y, p.z + 1), Coord(p.x, p.y, p.z - 1)]
  }

  /** The record and dirty list after `setBlock(p, b)`: generate, write, then the update pass. */
  function AfterSet(chunks: ChunkMap, t: Terrain, p: Coord, b: string): (r: (ChunkMap, seq<string>))
    ensures r.0.Keys == chunks.Keys + {ChunkNameOf(p)}
    ensures forall i :: 0 <= i < |r.1| ==> r.1[i] in r.0
  {
    UpdatePass(Neighbourhood(p), Put(WithChunk(chunks, t, ChunkNameOf(p)), p, b))
  }

  /**
   * `setBlock(p, b)` as written: the same steps over the update pass as written, which throws when
   * a neighbour lies in a chunk that was never generated. The error drops the record; the source
   * keeps the writes made before the throw.
   */
  function AfterSetAsWritten(chunks: ChunkMap, t: Terrain, p: Coord, b: string): (r: Result<(ChunkMap, seq<string>)>)
    ensures r.Ok? ==> r.value.0.Keys == chunks.Keys + {ChunkNameOf(p)}
  {
    UpdatePassAsWritten(Neighbourhood(p), Put(WithChunk(chunks, t, ChunkNameOf(p)), p, b))
  }

  /** When the six neighbours' chunks exist, `setBlock` as written succeeds and agrees with the model. */
  lemma SetAgreesWhenNeighboursExist(chunks: ChunkMap, t: Terrain, p: Coord, b: string)
    requires forall q :: FaceAdjacent(q, p) ==> ChunkNameOf(q) in chunks
    ensures AfterSetAsWritten(chunks, t, p, b) == Ok(AfterSet(chunks, t, p, b))
  {
    var c0 := Put(WithChunk(chunks, t, ChunkNameOf(p)), p, b);
    var ps := Neighbourhood(p);
    assert forall i :: 0 <= i < |ps| ==> ps[i] in ps;
    PassesAgree(ps, c0);
  }

  /**
   * `setBlock` as written throws at the top layer of a chunk whose upper neighbour chunk was never
   * generated: the cell above lies in that chunk, and the pass reaches it fourth.
   */
  lemma SetThrowsUnderMissingChunk(chunks: ChunkMap, t: Terrain, p: Coord, b: string)
    requires LocalOf(p).y == ChunkSize - 1 && ChunkNameOf(Above(p)) !in chunks
    ensures AfterSetAsWritten(chunks, t, p, b).Err?
  {
    RoundTrip(p.y);
    SplitOfJoin(ChunkCoord(p.y) + 1, 0);
    ChunkNameInjective(ChunkOf(p), ChunkOf(Above(p)));
    var c0 := Put(WithChunk(chunks, t, ChunkNameOf(p)), p, b);
    assert Neighbourhood(p)[3] == Above(p);
    PassThrowsOnMissingChunk(Neighbourhood(p), c0, 3);
  }

  /** One `setChunk` event per listener, in registration order. */
  function Notify(name: string, listeners: seq<nat>, chunks: ChunkMap): seq<Delivery>
    requires name in chunks
  {
    seq(|listeners|, i requires 0 <= i < |listeners| => Delivery(listeners[i], SetChunk(name, chunks[name])))
  }

  /** The events of a dirty list: for each entry in turn, one to each listener. */
  function FanOut(dirty: seq<string>, listeners: seq<nat>, chunks: ChunkMap): (r: seq<Delivery>)
    requires forall i :: 0 <= i < |dirty| ==> dirty[i] in chunks
    ensures forall k :: 0 <= k < |r| ==> r[k].listener in listeners && r[k].event.chunkName in dirty
    ensures forall k :: 0 <= k < |r| ==> r[k].event.chunkName in chunks && r[k].event.chunk == chunks[r[k].event.chunkName]
    decreases |dirty|
  {
    if dirty == [] then []
    else FanOut(dirty[..|dirty| - 1], listeners, chunks) + Notify(dirty[|dirty| - 1], listeners, chunks)
  }

  /** Every dirty entry yields one event per listener. */
  lemma {:induction false} FanOutLength(dirty: seq<string>, listeners: seq<nat>, chunks: ChunkMap)
    requires forall i :: 0 <= i < |dirty| ==> dirty[i] in chunks
    ensures |FanOut(dirty, listeners, chunks)| == |dirty| * |listeners|
    decreases |dirty|
  {
    if dirty != [] {
      var m := |dirty| - 1;
      FanOutLength(dirty[..m], listeners, chunks);
      assert (m + 1) * |listeners| == m * |listeners| + |listeners|;
    }
  }

  /**
   * Listener j hears about dirty entry i at position i * |listeners| + j: each listener gets one
   * event per entry, duplicates included, and the listeners of an entry come in registration order.
   */
  lemma {:induction false} FanOutAt(dirty: seq<string>, listeners: seq<nat>, chunks: ChunkMap, i: nat, j: nat)
    requires forall k :: 0 <= k < |dirty| ==> dirty[k] in chunks
    requires i < |dirty| && j < |listeners|
    ensures i * |listeners| + j < |FanOut(dirty, listeners, chunks)|
    ensures FanOut(dirty, listeners, chunks)[i * |listeners| + j] == Delivery(listeners[j], SetChunk(dirty[i], chunks[dirty[i]]))
    decreases |dirty|
  {
    var m := |dirty| - 1;
    var pre := FanOut(dirty[..m], listeners, chunks);
    assert FanOut(dirty, listeners, chunks) == pre + Notify(dirty[m], listeners, chunks);
    FanOutLength(dirty[..m], listeners, chunks);
    if i < m {
      FanOutAt(dirty[..m], listeners, chunks, i, j);
      assert dirty[..m][i] == dirty[i];
    }
  }

  /**
   * After `setBlock(p, b)`, the cell holds b, except that short grass or cactus placed on air is
   * removed at once; the chunk stays generated.
   */
  lemma SetThenGet(chunks: ChunkMap, t: Terrain, p: Coord, b: string)
    ensures ChunkNameOf(p) in AfterSet(chunks, t, p, b).0
    ensures BlockAt(AfterSet(chunks, t, p, b).0, p) ==
      if NeedsSupport(b) && BlockAt(WithChunk(chunks, t, ChunkNameOf(p)), Below(p)) == "" then "" else b
  {
    var w := WithChunk(chunks, t, ChunkNameOf(p));
    var c0 := Put(w, p, b);
    assert BlockAt(c0, p) == b && BlockAt(c0, Below(p)) == BlockAt(w, Below(p));
    var h := BlockUpdate(p, c0).0;
    assert BlockAt(h, p) == if NeedsSupport(b) && BlockAt(w, Below(p)) == "" then "" else b;
    PassCons(p, Neighbours(p), c0);
    NeighboursAreOthers(p);
    PassLocal(Neighbours(p), h, p);
  }

  /** A set or remove changes no cell outside the target and its six face neighbours. */
  lemma SetIsLocal(chunks: ChunkMap, t: Terrain, p: Coord, b: string, q: Coord)
    requires q !in Neighbourhood(p)
    ensures BlockAt(AfterSet(chunks, t, p, b).0, q) == BlockAt(WithChunk(chunks, t, ChunkNameOf(p)), q)
  {
    PassLocal(Neighbourhood(p), Put(WithChunk(chunks, t, ChunkNameOf(p)), p, b), q);
  }

  /** The pass over a concatenation runs the second list on the record the first one leaves. */
  lemma {:induction false} PassConcat(a: seq<Coord>, b: seq<Coord>, chunks: ChunkMap)
    ensures UpdatePass(a + b, chunks).0 == UpdatePass(b, UpdatePass(a, chunks).0).0
    decreases |a|
  {
    if a != [] {
      var h := BlockUpdate(a[0], chunks).0;
      assert (a + b)[0] == a[0];
      assert (a + b)[1..] == a[1..] + b;
      assert UpdatePass(a + b, chunks).0 == UpdatePass(a[1..] + b, h).0;
      assert UpdatePass(a, chunks).0 == UpdatePass(a[1..], h).0;
      PassConcat(a[1..], b, h);
    } else {
      assert a + b == b;
    }
  }

  /** The pass over a list that starts with q: the update at q, then the pass over the rest. */
  lemma PassCons(q: Coord, rest: seq<Coord>, chunks: ChunkMap)
    ensures UpdatePass([q] + rest, chunks).0 == UpdatePass(rest, BlockUpdate(q, chunks).0).0
  {
    assert ([q] + rest)[0] == q;
    assert ([q] + rest)[1..] == rest;
  }

  /**
   * The first pass of the scenario below: the new short grass stands on short grass, so it stays;
   * the grass under it stands on air and is removed.
   */
  lemma FirstPassLeavesFloatingGrass(c0: ChunkMap, p: Coord)
    requires BlockAt(c0, p) == "short_grass"
    requires BlockAt(c0, Below(p)) == "short_grass" && BlockAt(c0, Below(Below(p))) == ""
    ensures BlockAt(UpdatePass(Neighbourhood(p), c0).0, p) == "short_grass"
    ensures BlockAt(UpdatePass(Neighbourhood(p), c0).0, Below(p)) == ""
  {
    var c1 := UpdatePass(UpperSides(p), c0).0;
    var c2 := BlockUpdate(Below(p), c1).0;
    assert BlockUpdate(p, c0).0 == c0;
    PassSplitsAtBelow(c0, p);
    assert BlockAt(c2, p) == "short_grass" && BlockAt(c2, Below(p)) == "" by {
      SidesKeepColumn(c0, p);
    }
    DepthSidesKeepColumn(c2, p);
  }

  /** The z neighbours are neither the cell nor the cell below. */
  lemma DepthSidesKeepColumn(c: ChunkMap, p: Coord)
    ensures BlockAt(UpdatePass(DepthSides(p), c).0, p) == BlockAt(c, p)
    ensures BlockAt(UpdatePass(DepthSides(p), c).0, Below(p)) == BlockAt(c, Below(p))
  {
    PassLocal(DepthSides(p), c, p);
    PassLocal(DepthSides(p), c, Below(p));
  }

  /** When the cell itself is supported, the pass is the side pass, the update below, then the z pass. */
  lemma PassSplitsAtBelow(c0: ChunkMap, p: Coord)
    requires BlockUpdate(p, c0).0 == c0
    ensures UpdatePass(Neighbourhood(p), c0).0 ==
      UpdatePass(DepthSides(p), BlockUpdate(Below(p), UpdatePass(UpperSides(p), c0).0).0).0
  {
    var rest := [Below(p)] + DepthSides(p);
    PassCons(p, Neighbours(p), c0);
    PassConcat(UpperSides(p), rest, c0);
    PassCons(Below(p), DepthSides(p), UpdatePass(UpperSides(p), c0).0);
  }

  /** The x and y+1 neighbours are neither the cell, the cell below, nor the one below that. */
  lemma SidesKeepColumn(c0: ChunkMap, p: Coord)
    ensures var c1 := UpdatePass(UpperSides(p), c0).0;
      BlockAt(c1, p) == BlockAt(c0, p) && BlockAt(c1, Below(p)) == BlockAt(c0, Below(p)) &&
      BlockAt(c1, Below(Below(p))) == BlockAt(c0, Below(Below(p)))
  {
    PassLocal(UpperSides(p), c0, p);
    PassLocal(UpperSides(p), c0, Below(p));
    PassLocal(UpperSides(p), c0, Below(Below(p)));
  }

  /**
   * Setting the same block twice need not give the same world: short grass put on short grass that
   * stands on air survives the first pass, which removes only the grass below it, and the second
   * call then finds air below and removes it as well.
   */
  lemma SetBlockTwiceDiffers(chunks: ChunkMap, t: Terrain, p: Coord)
    requires ChunkNameOf(p) in chunks
    requires BlockAt(chunks, Below(p)) == "short_grass" && BlockAt(chunks, Below(Below(p))) == ""
    ensures BlockAt(AfterSet(chunks, t, p, "short_grass").0, p) == "short_grass"
    ensures BlockAt(AfterSet(chunks, t, p, "short_grass").0, Below(p)) == ""
    ensures BlockAt(AfterSet(AfterSet(chunks, t, p, "short_grass").0, t, p, "short_grass").0, p) == ""
  {
    var c0 := Put(chunks, p, "short_grass");
    assert WithChunk(chunks, t, ChunkNameOf(p)) == chunks;
    FirstPassLeavesFloatingGrass(c0, p);
    var once := AfterSet(chunks, t, p, "short_grass").0;
    SetThenGet(once, t, p, "short_grass");
  }

  /**
   * One step of the pass: if the pass over ps[i..] from c, appended to dirty, gives final, so does
   * the pass over ps[i + 1..] from the record the update at ps[i] leaves, appended to its dirty list.
   */
  lemma PassStep(ps: seq<Coord>, i: nat, c: ChunkMap, dirty: seq<string>, final: (ChunkMap, seq<string>))
    requires i < |ps|
    requires UpdatePass(ps[i..], c).0 == final.0 && dirty + UpdatePass(ps[i..], c).1 == final.1
    ensures var h := BlockUpdate(ps[i], c);
      UpdatePass(ps[i + 1..], h.0).0 == final.0 && (dirty + h.1) + UpdatePass(ps[i + 1..], h.0).1 == final.1
  {
    var qs := ps[i..];
    assert qs[0] == ps[i] && qs[1..] == ps[i + 1..];
    var h := BlockUpdate(qs[0], c);
    var t := UpdatePass(qs[1..], h.0);
    assert UpdatePass(qs, c) == (t.0, h.1 + t.1);
    SeqAssoc(dirty, h.1, t.1);
  }

  /** Sequence concatenation is associative; shared by the dirty-list and outbox proofs. */
  lemma SeqAssoc<T>(a: seq<T>, b: seq<T>, c: seq<T>)
    ensures a + (b + c) == (a + b) + c
  {
  }

  /** The fan-out of one more dirty entry appends that entry's notifications. */
  lemma FanOutSnoc(dirty: seq<string>, d: nat, listeners: seq<nat>, chunks: ChunkMap)
    requires forall i :: 0 <= i < |dirty| ==> dirty[i] in chunks
    requires d < |dirty|
    ensures FanOut(dirty[..d + 1], listeners, chunks) == FanOut(dirty[..d], listeners, chunks) + Notify(dirty[d], listeners, chunks)
  {
    assert dirty[..d + 1][..d] == dirty[..d];
    assert dirty[..d + 1][d] == dirty[d];
  }

  /** Notifying one more listener appends its delivery. */
  lemma NotifySnoc(name: string, listeners: seq<nat>, j: nat, chunks: ChunkMap)
    requires name in chunks && j < |listeners|
    ensures Notify(name, listeners[..j + 1], chunks) ==
      Notify(name, listeners[..j], chunks) + [Delivery(listeners[j], SetChunk(name, chunks[name]))]
  {
  }

  class World {
    var chunks: ChunkMap
    var listeners: seq<nat>
    /** Every listener invocation so far, in order. */
    var delivered: seq<Delivery>
    /** The noise, heights and streams of the world's seed. */
    const terrain: Terrain

    constructor(terrain: Terrain)
      ensures chunks == map[] && listeners == [] && delivered == [] && this.terrain == terrain
    {
      this.terrain := terrain;
      chunks := map[];
      listeners := [];
      delivered := [];
    }

    /** `generateTerrain(chunkName)`: generate the chunk unless it exists; returns the name. */
    method GenerateTerrain(name: string) returns (r: string)
      modifies this
      ensures r == name
      ensures chunks == WithChunk(old(chunks), terrain, name)
      ensures listeners == old(listeners) && delivered == old(delivered)
    {
      if name in chunks { return name; }
      var chunk := GetChunk(terrain, name);
      chunks := chunks[name := chunk];
      return name;
    }

    /** `getBlock(x, y, z)`: the cell of the containing chunk, generated if needed. */
    method GetBlock(p: Coord) returns (b: string)
      modifies this
      ensures chunks == WithChunk(old(chunks), terrain, ChunkNameOf(p))
      ensures b == BlockAt(chunks, p)
      ensures listeners == old(listeners) && delivered == old(delivered)
    {
      var name := ChunkNameOf(p);
      var local := LocalOf(p);
      var _ := GenerateTerrain(name);
      b := chunks[name][local.x][local.y][local.z];
    }

    /** `setBlock(x, y, z, block)`: returns the chunk holding the position. */
    method SetBlock(p: Coord, b: string) returns (chunk: Chunk)
      modifies this
      ensures chunks == AfterSet(old(chunks), terrain, p, b).0
      ensures delivered == old(delivered) + FanOut(AfterSet(old(chunks), terrain, p, b).1, listeners, chunks)
      ensures ChunkNameOf(p) in chunks && chunk == chunks[ChunkNameOf(p)]
      ensures listeners == old(listeners)
    {
      var name := ChunkNameOf(p);
      var _ := GenerateTerrain(name);
      chunks := Put(chunks, p, b);
      ghost var c0 := chunks;
      DoBlockUpdate(p);
      assert chunks == UpdatePass(Neighbourhood(p), c0).0;
      chunk := chunks[name];
    }

    /** `removeBlock(x, y, z)`: exactly `setBlock(x, y, z, "")`. */
    method RemoveBlock(p: Coord) returns (chunk: Chunk)
      modifies this
      ensures chunks == AfterSet(old(chunks), terrain, p, "").0
      ensures delivered == old(delivered) + FanOut(AfterSet(old(chunks), terrain, p, "").1, listeners, chunks)
      ensures ChunkNameOf(p) in chunks && chunk == chunks[ChunkNameOf(p)]
      ensures listeners == old(listeners)
    {
      var name := ChunkNameOf(p);
      var _ := GenerateTerrain(name);
      chunks := Put(chunks, p, "");
      ghost var c0 := chunks;
      DoBlockUpdate(p);
      assert chunks == UpdatePass(Neighbourhood(p), c0).0;
      chunk := chunks[name];
    }

    /** `doBlockUpdate(x, y, z)`: the support check over the neighbourhood, then the fan-out. */
    method DoBlockUpdate(p: Coord)
      modifies this
      ensures chunks == UpdatePass(Neighbourhood(p), old(chunks)).0
      ensures delivered == old(delivered) + FanOut(UpdatePass(Neighbourhood(p), old(chunks)).1, listeners, chunks)
      ensures listeners == old(listeners)
    {
      var dirty := CheckSupport(Neighbourhood(p));
      Announce(dirty);
    }

    /** The first half of `doBlockUpdate`: `blockUpdate` at each position in turn, collecting dirty chunks. */
    method CheckSupport(positions: seq<Coord>) returns (dirty: seq<string>)
      modifies this
      ensures (chunks, dirty) == UpdatePass(positions, old(chunks))
      ensures listeners == old(listeners) && delivered == old(delivered)
    {
      var c := chunks;
      ghost var final := UpdatePass(positions, c);
      dirty := [];
      assert positions[0..] == positions;
      assert final.1 == dirty + final.1;
      for i := 0 to |positions|
        invariant chunks == old(chunks) && listeners == old(listeners) && delivered == old(delivered)
        invariant UpdatePass(positions[i..], c).0 == final.0
        invariant dirty + UpdatePass(positions[i..], c).1 == final.1
      {
        PassStep(positions, i, c, dirty, final);
        var r := BlockUpdate(positions[i], c);
        c := r.0;
        dirty := dirty + r.1;
      }
      assert positions[|positions|..] == [];
      assert dirty + [] == dirty;
      assert (c, dirty) == final;
      chunks := c;
    }

    /** The second half of `doBlockUpdate`: every dirty chunk, in order, to every listener. */
    method Announce(dirty: seq<string>)
      requires forall i :: 0 <= i < |dirty| ==> dirty[i] in chunks
      modifies this
      ensures chunks == old(chunks) && listeners == old(listeners)
      ensures delivered == old(delivered) + FanOut(dirty, listeners, chunks)
    {
      var out, ls, cs := delivered, listeners, chunks;
      for d := 0 to |dirty|
        invariant chunks == cs && listeners == ls
        invariant out == old(delivered) + FanOut(dirty[..d], ls, cs)
      {
        FanOutSnoc(dirty, d, ls, cs);
        for j := 0 to |ls|
          invariant chunks == cs && listeners == ls
          invariant out == old(delivered) + FanOut(dirty[..d], ls, cs) + Notify(dirty[d], ls[..j], cs)
        {
          NotifySnoc(dirty[d], ls, j, cs);
          out := out + [Delivery(ls[j], SetChunk(dirty[d], cs[dirty[d]]))];
        }
        assert ls[..|ls|] == ls;
      }
      assert dirty[..|dirty|] == dirty;
      delivered := out;
    }

    /** `addEventListener(callback)`: listeners are kept in registration order. */
    method AddEventListener(listener: nat)
      modifies this
      ensures listeners == old(listeners) + [listener]
      ensures chunks == old(chunks) && delivered == old(delivered)
    {
      listeners := listeners + [listener];
    }
  }
}
