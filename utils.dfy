/**
 * `getBlockFromChunk` of src/server/utils.ts: a lookup relative to a chunk that steps into the
 * neighbouring chunk when a coordinate is -1 or 16 and reads "" when that chunk is missing.
 */
module ServerUtils {
  import opened Wrappers
  import opened Addressing
  import opened Chunks

  predicate NearChunk(v: int) { -1 <= v <= ChunkSize }

  /** The chunk step made for one coordinate: -1 at -1, +1 at 16, none otherwise. */
  function Carry(v: int): int { if v == -1 then -1 else if v == ChunkSize then 1 else 0 }

  /** The coordinate after the step: 15 for -1, 0 for 16, unchanged otherwise; always an index of the chunk. */
  function Wrap(v: int): (w: int)
    requires NearChunk(v)
    ensures 0 <= w < ChunkSize
    ensures v == -1 || v == ChunkSize || w == v
  {
    if v == -1 then ChunkSize - 1 else if v == ChunkSize then 0 else v
  }

  /** `chunk[i] -= 1` / `chunk[i] += 1` when the coordinate steps over a face; untouched otherwise. */
  function Shift(v: JsNum, d: int): JsNum
  {
    if d == 0 then v else AddNum(v, d)
  }

  /** Stepping the chunk and wrapping the coordinate keep the global coordinate. */
  lemma AxisStep(cv: int, v: int)
    requires NearChunk(v)
    ensures (cv + Carry(v)) * ChunkSize + Wrap(v) == cv * ChunkSize + v
  {
    assert (cv + Carry(v)) * ChunkSize == cv * ChunkSize + Carry(v) * ChunkSize;
  }

  /** For a name that parses, the adjusted name and coordinates address the same global position. */
  lemma Adjusted(name: string, x: int, y: int, z: int)
    requires NearChunk(x) && NearChunk(y) && NearChunk(z)
    requires ParseChunkName(name).Some?
    ensures var c := ParseChunkName(name).value;
      var p := Global(c, Coord(x, y, z));
      var (cx, cy, cz) := ChunkPosition(name);
      && CreateChunkName(Shift(cx, Carry(x)), Shift(cy, Carry(y)), Shift(cz, Carry(z))) == ChunkNameOf(p)
      && Coord(Wrap(x), Wrap(y), Wrap(z)) == LocalOf(p)
  {
    var c := ParseChunkName(name).value;
    var target := Coord(c.x + Carry(x), c.y + Carry(y), c.z + Carry(z));
    var local := Coord(Wrap(x), Wrap(y), Wrap(z));
    var (cx, cy, cz) := ChunkPosition(name);
    assert Shift(cx, Carry(x)) == Num(target.x) && Shift(cy, Carry(y)) == Num(target.y) && Shift(cz, Carry(z)) == Num(target.z);
    assert CreateChunkName(Num(target.x), Num(target.y), Num(target.z)) == ChunkName(target);
    assert Global(c, Coord(x, y, z)) == Global(target, local) by {
      AxisStep(c.x, x);
      AxisStep(c.y, y);
      AxisStep(c.z, z);
    }
    AddressOfGlobal(target, local);
  }

  /**
   * `getBlockFromChunk(chunkName, x, y, z, chunks)`: the name is split into three numbers, each
   * coordinate at -1 or 16 moves its number one chunk and wraps, the name is rebuilt and looked
   * up; a missing chunk reads "". Coordinates outside -1..16 make the source index past its
   * arrays, so callers keep to -1..16.
   */
  function GetBlockFromChunk(name: string, x: int, y: int, z: int, chunks: ChunkMap): (r: string)
    requires NearChunk(x) && NearChunk(y) && NearChunk(z)
    ensures ParseChunkName(name).Some? ==> r == BlockAt(chunks, Global(ParseChunkName(name).value, Coord(x, y, z)))
  {
    var (cx, cy, cz) := ChunkPosition(name);
    var adjusted := CreateChunkName(Shift(cx, Carry(x)), Shift(cy, Carry(y)), Shift(cz, Carry(z)));
    var local := Coord(Wrap(x), Wrap(y), Wrap(z));
    if ParseChunkName(name).Some? then Adjusted(name, x, y, z); (if adjusted !in chunks then "" else Cell(chunks[adjusted], local))
    else if adjusted !in chunks then "" else Cell(chunks[adjusted], local)
  }

  /** Inside the chunk, with the chunk present, the result is that chunk's cell. */
  lemma InsideChunk(c: Coord, l: Coord, chunks: ChunkMap)
    requires InChunk(l) && ChunkName(c) in chunks
    ensures GetBlockFromChunk(ChunkName(c), l.x, l.y, l.z, chunks) == Cell(chunks[ChunkName(c)], l)
  {
    ParseChunkNameOfName(c);
    AddressOfGlobal(c, l);
  }

  /** Both lookups name the same global position, so they read the same cell. */
  lemma SameGlobal(c: Coord, x: int, y: int, z: int, d: Coord, x': int, y': int, z': int, chunks: ChunkMap)
    requires NearChunk(x) && NearChunk(y) && NearChunk(z) && NearChunk(x') && NearChunk(y') && NearChunk(z')
    requires Global(c, Coord(x, y, z)) == Global(d, Coord(x', y', z'))
    ensures GetBlockFromChunk(ChunkName(c), x, y, z, chunks) == GetBlockFromChunk(ChunkName(d), x', y', z', chunks)
  {
    ParseChunkNameOfName(c);
    ParseChunkNameOfName(d);
  }

  /** Stepping over an x face reads the adjacent chunk at the opposite face. */
  lemma EdgeCrossingX(c: Coord, x: int, y: int, z: int, chunks: ChunkMap)
    requires NearChunk(x) && NearChunk(y) && NearChunk(z)
    ensures x == -1 ==> GetBlockFromChunk(ChunkName(c), x, y, z, chunks) == GetBlockFromChunk(ChunkName(Coord(c.x - 1, c.y, c.z)), 15, y, z, chunks)
    ensures x == 16 ==> GetBlockFromChunk(ChunkName(c), x, y, z, chunks) == GetBlockFromChunk(ChunkName(Coord(c.x + 1, c.y, c.z)), 0, y, z, chunks)
  {
    if x == -1 { SameGlobal(c, x, y, z, Coord(c.x - 1, c.y, c.z), 15, y, z, chunks); }
    if x == 16 { SameGlobal(c, x, y, z, Coord(c.x + 1, c.y, c.z), 0, y, z, chunks); }
  }

  /** Stepping over a y face reads the adjacent chunk at the opposite face. */
  lemma EdgeCrossingY(c: Coord, x: int, y: int, z: int, chunks: ChunkMap)
    requires NearChunk(x) && NearChunk(y) && NearChunk(z)
    ensures y == -1 ==> GetBlockFromChunk(ChunkName(c), x, y, z, chunks) == GetBlockFromChunk(ChunkName(Coord(c.x, c.y - 1, c.z)), x, 15, z, chunks)
    ensures y == 16 ==> GetBlockFromChunk(ChunkName(c), x, y, z, chunks) == GetBlockFromChunk(ChunkName(Coord(c.x, c.y + 1, c.z)), x, 0, z, chunks)
  {
    if y == -1 { SameGlobal(c, x, y, z, Coord(c.x, c.y - 1, c.z), x, 15, z, chunks); }
    if y == 16 { SameGlobal(c, x, y, z, Coord(c.x, c.y + 1, c.z), x, 0, z, chunks); }
  }

  /** Stepping over a z face reads the adjacent chunk at the opposite face. */
  lemma EdgeCrossingZ(c: Coord, x: int, y: int, z: int, chunks: ChunkMap)
    requires NearChunk(x) && NearChunk(y) && NearChunk(z)
    ensures z == -1 ==> GetBlockFromChunk(ChunkName(c), x, y, z, chunks) == GetBlockFromChunk(ChunkName(Coord(c.x, c.y, c.z - 1)), x, y, 15, chunks)
    ensures z == 16 ==> GetBlockFromChunk(ChunkName(c), x, y, z, chunks) == GetBlockFromChunk(ChunkName(Coord(c.x, c.y, c.z + 1)), x, y, 0, chunks)
  {
    if z == -1 { SameGlobal(c, x, y, z, Coord(c.x, c.y, c.z - 1), x, y, 15, chunks); }
    if z == 16 { SameGlobal(c, x, y, z, Coord(c.x, c.y, c.z + 1), x, y, 0, chunks); }
  }

  /** A missing neighbour reads as air instead of raising. */
  lemma MissingChunkReadsAir(c: Coord, x: int, y: int, z: int, chunks: ChunkMap)
    requires NearChunk(x) && NearChunk(y) && NearChunk(z)
    requires ChunkName(Coord(c.x + Carry(x), c.y + Carry(y), c.z + Carry(z))) !in chunks
    ensures GetBlockFromChunk(ChunkName(c), x, y, z, chunks) == ""
  {
    ParseChunkNameOfName(c);
    var target := Coord(c.x + Carry(x), c.y + Carry(y), c.z + Carry(z));
    var local := Coord(Wrap(x), Wrap(y), Wrap(z));
    assert Global(c, Coord(x, y, z)) == Global(target, local) by {
      AxisStep(c.x, x);
      AxisStep(c.y, y);
      AxisStep(c.z, z);
    }
    AddressOfGlobal(target, local);
  }
}
