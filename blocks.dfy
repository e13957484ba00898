/**
 * Block rules of the server: the random tick that turns covered grass into dirt, and the support
 * check that removes short grass or cactus standing on air. The source mutates the shared chunk
 * record in place; here each rule takes the record and gives back the record it leaves, together
 * with the list of chunk names it dirtied.
 */
module Blocks {
  import opened Wrappers
  import opened Addressing
  import opened Chunks

  function Above(p: Coord): Coord { Coord(p.x, p.y + 1, p.z) }

  function Below(p: Coord): Coord { Coord(p.x, p.y - 1, p.z) }

  /** Blocks that need a non-air block underneath them. */
  predicate NeedsSupport(b: string)
  {
    b == "short_grass" || b == "short_cactus"
  }

  /** The twelve cells a dirt block looks at for grass: four sides on its own level, below and above. */
  function SpreadBlocks(chunks: ChunkMap, p: Coord): seq<string>
  {
    [BlockAt(chunks, Coord(p.x - 1, p.y, p.z)), BlockAt(chunks, Coord(p.x + 1, p.y, p.z)),
     BlockAt(chunks, Coord(p.x, p.y, p.z - 1)), BlockAt(chunks, Coord(p.x, p.y, p.z + 1)),
     BlockAt(chunks, Coord(p.x - 1, p.y - 1, p.z)), BlockAt(chunks, Coord(p.x + 1, p.y - 1, p.z)),
     BlockAt(chunks, Coord(p.x, p.y - 1, p.z - 1)), BlockAt(chunks, Coord(p.x, p.y - 1, p.z + 1)),
     BlockAt(chunks, Coord(p.x - 1, p.y + 1, p.z)), BlockAt(chunks, Coord(p.x + 1, p.y + 1, p.z)),
     BlockAt(chunks, Coord(p.x, p.y + 1, p.z - 1)), BlockAt(chunks, Coord(p.x, p.y + 1, p.z + 1))]
  }

  /**
   * `chunks[chunkName][x][y][z] = b` with the GLOBAL coordinates, as the random tick writes:
   * indexing a missing row throws, and only a position inside 0..15 on every axis reaches a cell.
   * A z outside 0..15 leaves every cell 0..15 as it was, which is what the result records: a
   * negative z sets a stray property, and a z of 16 or more lengthens the row, which a `Chunk`
   * cannot hold.
   */
  function WriteGlobalIndex(chunks: ChunkMap, name: string, p: Coord, b: string): (r: Result<ChunkMap>)
    ensures r.Ok? <==> name in chunks && 0 <= p.x < ChunkSize && 0 <= p.y < ChunkSize
    ensures r.Ok? && !(0 <= p.z < ChunkSize) ==> r.value == chunks
  {
    if name !in chunks || !(0 <= p.x < ChunkSize) || !(0 <= p.y < ChunkSize) then
      Err("TypeError: cannot set properties of undefined")
    else if !(0 <= p.z < ChunkSize) then Ok(chunks)
    else Ok(chunks[name := SetCell(chunks[name], p, b)])
  }

  /**
   * `randomBlockTick` as written, with `Math.random()` given as `roll`. The dirt case re-reads the
   * cell itself where the cell above is meant, and the grass case writes with global coordinates.
   */
  function RandomBlockTickAsWritten(p: Coord, roll: real, chunks: ChunkMap): (r: Result<(ChunkMap, seq<string>)>)
    ensures r.Err? ==> BlockAt(chunks, p) == "grass" && BlockAt(chunks, Above(p)) != ""
    ensures r.Ok? ==> r.value.0.Keys == chunks.Keys
    ensures r.Ok? ==> r.value.1 == [] || r.value.1 == [ChunkNameOf(p)]
  {
    var name := ChunkNameOf(p);
    var block := BlockAt(chunks, p);
    if block == "dirt" then
      if roll > 0.01 || BlockAt(chunks, p) != "" then Ok((chunks, []))
      else if "grass" in SpreadBlocks(chunks, p) then
        match WriteGlobalIndex(chunks, name, p, "grass")
        case Ok(c) => Ok((c, [name]))
        case Err(e) => Err(e)
      else Ok((chunks, []))
    else if block == "grass" then
      if BlockAt(chunks, Above(p)) != "" then
        match WriteGlobalIndex(chunks, name, p, "dirt")
        case Ok(c) => Ok((c, [name]))
        case Err(e) => Err(e)
      else Ok((chunks, []))
    else Ok((chunks, []))
  }

  /**
   * The random tick as intended: with probability 1% (roll <= 0.01) uncovered dirt next to grass
   * becomes grass, and covered grass always becomes dirt; the cell is addressed through its chunk.
   */
  function RandomBlockTick(p: Coord, roll: real, chunks: ChunkMap): (r: (ChunkMap, seq<string>))
    ensures r.0.Keys == chunks.Keys
    ensures r.1 == [] || r.1 == [ChunkNameOf(p)]
    ensures r.1 == [] <==> r.0 == chunks
    ensures forall q {:trigger BlockAt(r.0, q)} :: q != p ==> BlockAt(r.0, q) == BlockAt(chunks, q)
    ensures r.1 != [] <==>
      (BlockAt(chunks, p) == "grass" && BlockAt(chunks, Above(p)) != "") ||
      (BlockAt(chunks, p) == "dirt" && roll <= 0.01 && BlockAt(chunks, Above(p)) == "" &&
       "grass" in SpreadBlocks(chunks, p))
    ensures r.1 != [] ==> BlockAt(r.0, p) == (if BlockAt(chunks, p) == "grass" then "dirt" else "grass")
  {
    var name := ChunkNameOf(p);
    var block := BlockAt(chunks, p);
    if block == "dirt" && roll <= 0.01 && BlockAt(chunks, Above(p)) == "" && "grass" in SpreadBlocks(chunks, p) then
      (Put(chunks, p, "grass"), [name])
    else if block == "grass" && BlockAt(chunks, Above(p)) != "" then
      (Put(chunks, p, "dirt"), [name])
    else (chunks, [])
  }

  /** As written, a dirt block is never changed: the re-read cell is the dirt itself. */
  lemma DirtNeverSpreads(p: Coord, roll: real, chunks: ChunkMap)
    requires BlockAt(chunks, p) == "dirt"
    ensures RandomBlockTickAsWritten(p, roll, chunks) == Ok((chunks, []))
  {
  }

  /**
   * The intended rule does spread: uncovered dirt beside grass becomes grass on a low roll, where the
   * tick as written leaves it.
   */
  lemma DirtSpreadsWhenCorrected(p: Coord, roll: real, chunks: ChunkMap)
    requires BlockAt(chunks, p) == "dirt" && BlockAt(chunks, Above(p)) == ""
    requires "grass" in SpreadBlocks(chunks, p) && roll <= 0.01
    ensures BlockAt(RandomBlockTick(p, roll, chunks).0, p) == "grass"
    ensures RandomBlockTickAsWritten(p, roll, chunks) == Ok((chunks, []))
  {
    DirtNeverSpreads(p, roll, chunks);
  }

  /**
   * As written, covered grass outside the x and y range 0..15 makes the tick throw, where the
   * intended rule turns it into dirt.
   */
  lemma GrassTickThrowsAsWritten(p: Coord, roll: real, chunks: ChunkMap)
    requires BlockAt(chunks, p) == "grass" && BlockAt(chunks, Above(p)) != ""
    requires !(0 <= p.x < ChunkSize) || !(0 <= p.y < ChunkSize)
    ensures RandomBlockTickAsWritten(p, roll, chunks).Err?
    ensures BlockAt(RandomBlockTick(p, roll, chunks).0, p) == "dirt"
  {
  }

  /**
   * As written, covered grass in the x and y range 0..15 but with z outside it reports its chunk
   * dirty and changes nothing, where the intended rule turns it into dirt.
   */
  lemma GrassTickStrayAsWritten(p: Coord, roll: real, chunks: ChunkMap)
    requires BlockAt(chunks, p) == "grass" && BlockAt(chunks, Above(p)) != ""
    requires 0 <= p.x < ChunkSize && 0 <= p.y < ChunkSize && !(0 <= p.z < ChunkSize)
    ensures RandomBlockTickAsWritten(p, roll, chunks) == Ok((chunks, [ChunkNameOf(p)]))
    ensures BlockAt(chunks, p) == "grass" != BlockAt(RandomBlockTick(p, roll, chunks).0, p)
  {
  }

  /** Inside chunk 0|0|0, where global and local coordinates coincide, the grass case is right as written. */
  lemma GrassTickInOrigin(p: Coord, roll: real, chunks: ChunkMap)
    requires BlockAt(chunks, p) == "grass"
    requires InChunk(p)
    ensures RandomBlockTickAsWritten(p, roll, chunks) == Ok(RandomBlockTick(p, roll, chunks))
  {
    ModOfSmall(p.x, ChunkSize); ModOfSmall(p.y, ChunkSize); ModOfSmall(p.z, ChunkSize);
    assert LocalOf(p) == p;
  }

  /**
   * `blockUpdate` as written: it indexes the position's chunk directly, so a position whose chunk was
   * never generated throws.
   */
  function BlockUpdateAsWritten(p: Coord, chunks: ChunkMap): (r: Result<(ChunkMap, seq<string>)>)
    ensures r.Err? <==> ChunkNameOf(p) !in chunks
  {
    if ChunkNameOf(p) !in chunks then Err("TypeError: cannot read properties of undefined")
    else Ok(BlockUpdate(p, chunks))
  }

  /**
   * `blockUpdate`, reading a missing chunk as air: short grass or cactus with air below is removed and
   * its chunk reported dirty; nothing else happens.
   */
  function BlockUpdate(p: Coord, chunks: ChunkMap): (r: (ChunkMap, seq<string>))
    ensures r.0.Keys == chunks.Keys
    ensures r.1 == [] || r.1 == [ChunkNameOf(p)]
    ensures r.1 != [] <==> NeedsSupport(BlockAt(chunks, p)) && BlockAt(chunks, Below(p)) == ""
    ensures r.1 == [] ==> r.0 == chunks
    ensures BlockAt(r.0, p) == if r.1 == [] then BlockAt(chunks, p) else ""
    ensures forall q {:trigger BlockAt(r.0, q)} :: q != p ==> BlockAt(r.0, q) == BlockAt(chunks, q)
  {
    var name := ChunkNameOf(p);
    if name in chunks && NeedsSupport(Cell(chunks[name], LocalOf(p))) && BlockAt(chunks, Below(p)) == "" then
      (Put(chunks, p, ""), [name])
    else (chunks, [])
  }

  /** A block that needs no support is never touched by the support check. */
  lemma UpdateIgnoresOthers(p: Coord, chunks: ChunkMap)
    requires !NeedsSupport(BlockAt(chunks, p))
    ensures BlockUpdate(p, chunks) == (chunks, [])
  {
  }

  /**
   * The update pass over a list of positions as written: each position is checked against the record
   * left by the previous ones, the dirty lists are concatenated, and the first missing chunk throws.
   */
  function UpdatePassAsWritten(ps: seq<Coord>, chunks: ChunkMap): (r: Result<(ChunkMap, seq<string>)>)
    ensures r.Ok? ==> r.value.0.Keys == chunks.Keys
    ensures r.Ok? ==> forall i :: 0 <= i < |r.value.1| ==> r.value.1[i] in chunks
    decreases |ps|
  {
    if ps == [] then Ok((chunks, []))
    else
      match BlockUpdateAsWritten(ps[0], chunks)
      case Err(e) => Err(e)
      case Ok(r) =>
        match UpdatePassAsWritten(ps[1..], r.0)
        case Err(e) => Err(e)
        case Ok(s) => Ok((s.0, r.1 + s.1))
  }

  /** The same pass with the missing-chunk-as-air update. */
  function UpdatePass(ps: seq<Coord>, chunks: ChunkMap): (r: (ChunkMap, seq<string>))
    ensures r.0.Keys == chunks.Keys
    ensures forall i :: 0 <= i < |r.1| ==> r.1[i] in chunks
    decreases |ps|
  {
    if ps == [] then (chunks, [])
    else
      var h := BlockUpdate(ps[0], chunks);
      var t := UpdatePass(ps[1..], h.0);
      (t.0, h.1 + t.1)
  }

  /** Whenever every chunk the pass visits exists, the pass as written succeeds and agrees with the pass. */
  lemma {:induction false} PassesAgree(ps: seq<Coord>, chunks: ChunkMap)
    requires forall i :: 0 <= i < |ps| ==> ChunkNameOf(ps[i]) in chunks
    ensures UpdatePassAsWritten(ps, chunks) == Ok(UpdatePass(ps, chunks))
    decreases |ps|
  {
    if ps != [] {
      var h := BlockUpdate(ps[0], chunks);
      assert forall i :: 0 <= i < |ps[1..]| ==> ps[1..][i] == ps[i + 1];
      PassesAgree(ps[1..], h.0);
    }
  }

  /**
   * The pass as written throws whenever one of its positions lies in a chunk that was never
   * generated: the positions before it keep the chunk names, so that chunk is still missing when
   * the pass reaches it.
   */
  lemma {:induction false} PassThrowsOnMissingChunk(ps: seq<Coord>, chunks: ChunkMap, i: nat)
    requires i < |ps| && ChunkNameOf(ps[i]) !in chunks
    ensures UpdatePassAsWritten(ps, chunks).Err?
    decreases i
  {
    if ChunkNameOf(ps[0]) in chunks {
      PassThrowsStep(ps, chunks, i);
      PassThrowsOnMissingChunk(ps[1..], BlockUpdate(ps[0], chunks).0, i - 1);
      PassThrowsAfter(ps, chunks);
    }
  }

  /** After a position whose chunk exists, the later missing chunk is still missing. */
  lemma PassThrowsStep(ps: seq<Coord>, chunks: ChunkMap, i: nat)
    requires i < |ps| && ChunkNameOf(ps[i]) !in chunks && ChunkNameOf(ps[0]) in chunks
    ensures 0 < i && ChunkNameOf(ps[1..][i - 1]) !in BlockUpdate(ps[0], chunks).0
  {
    assert ps[1..][i - 1] == ps[i];
  }

  /** A throw later in the pass is a throw of the whole pass. */
  lemma PassThrowsAfter(ps: seq<Coord>, chunks: ChunkMap)
    requires ps != [] && ChunkNameOf(ps[0]) in chunks
    requires UpdatePassAsWritten(ps[1..], BlockUpdate(ps[0], chunks).0).Err?
    ensures UpdatePassAsWritten(ps, chunks).Err?
  {
    assert BlockUpdateAsWritten(ps[0], chunks) == Ok(BlockUpdate(ps[0], chunks));
  }

  /** The pass changes no position outside the list. */
  lemma {:induction false} PassLocal(ps: seq<Coord>, chunks: ChunkMap, q: Coord)
    requires forall i :: 0 <= i < |ps| ==> ps[i] != q
    ensures BlockAt(UpdatePass(ps, chunks).0, q) == BlockAt(chunks, q)
    decreases |ps|
  {
    if ps != [] {
      PassLocal(ps[1..], BlockUpdate(ps[0], chunks).0, q);
    }
  }
}
