/**
 * Chunk data: a 16x16x16 grid of block ids indexed [x][y][z], "" being air, and the
 * record of chunks keyed by canonical chunk name (`Record<string, string[][][]>`).
 */
module Chunks {
  import opened Addressing

  ghost predicate IsChunk(c: seq<seq<seq<string>>>)
  {
    |c| == ChunkSize &&
    forall x :: 0 <= x < ChunkSize ==>
      |c[x]| == ChunkSize && forall y :: 0 <= y < ChunkSize ==> |c[x][y]| == ChunkSize
  }

  function AirChunk(): (c: seq<seq<seq<string>>>)
    ensures IsChunk(c)
    ensures forall x, y, z :: 0 <= x < ChunkSize && 0 <= y < ChunkSize && 0 <= z < ChunkSize ==> c[x][y][z] == ""
  {
    seq(ChunkSize, x => seq(ChunkSize, y => seq(ChunkSize, z => "")))
  }

  type Chunk = c: seq<seq<seq<string>>> | IsChunk(c) witness AirChunk()

  type ChunkMap = map<string, Chunk>

  predicate InChunk(l: Coord)
  {
    0 <= l.x < ChunkSize && 0 <= l.y < ChunkSize && 0 <= l.z < ChunkSize
  }

  function Cell(c: Chunk, l: Coord): string
    requires InChunk(l)
  {
    c[l.x][l.y][l.z]
  }

  /** The chunk with one cell replaced. */
  function SetCell(c: Chunk, l: Coord, b: string): (r: Chunk)
    requires InChunk(l)
    ensures Cell(r, l) == b
    ensures forall m :: InChunk(m) && m != l ==> Cell(r, m) == Cell(c, m)
  {
    c[l.x := c[l.x][l.y := c[l.x][l.y][l.z := b]]]
  }

  /**
   * `getBlockFromChunks(x, y, z, chunks)`: the block at a global position, "" when its chunk has
   * not been generated.
   */
  function BlockAt(chunks: ChunkMap, p: Coord): (b: string)
    ensures ChunkNameOf(p) !in chunks ==> b == ""
  {
    var name := ChunkNameOf(p);
    if name in chunks then Cell(chunks[name], LocalOf(p)) else ""
  }

  /** The record after `chunks[getChunkFromPosition(p)][local] = b`. */
  function Put(chunks: ChunkMap, p: Coord, b: string): (r: ChunkMap)
    requires ChunkNameOf(p) in chunks
    ensures r.Keys == chunks.Keys
    ensures BlockAt(r, p) == b
    ensures forall q {:trigger BlockAt(r, q)} :: q != p ==> BlockAt(r, q) == BlockAt(chunks, q)
  {
    var name := ChunkNameOf(p);
    var r := chunks[name := SetCell(chunks[name], LocalOf(p), b)];
    forall q | q != p ensures BlockAt(r, q) == BlockAt(chunks, q) {
      SlotsDistinct(p, q);
    }
    r
  }

  /** Position of a local cell in the x / y / z loop order. */
  function Index(p: Coord): int
  {
    p.x * 256 + p.y * 16 + p.z
  }

  /** The local cell visited n-th. */
  function LocalAt(n: int): Coord
  {
    Coord(n / 256, (n / 16) % 16, n % 16)
  }

  /** Quotient and remainder by 16 are determined by any decomposition with a remainder in range. */
  lemma DivMod16(n: int, q: int, r: int)
    requires 0 <= r < 16 && n == q * 16 + r
    ensures n / 16 == q && n % 16 == r
  {
  }

  lemma DivMod256(n: int, q: int, r: int)
    requires 0 <= r < 256 && n == q * 256 + r
    ensures n / 256 == q && n % 256 == r
  {
  }

  lemma IndexOfLocal(p: Coord)
    requires InChunk(p)
    ensures 0 <= Index(p) < 4096 && LocalAt(Index(p)) == p
  {
    var n := Index(p);
    DivMod256(n, p.x, p.y * 16 + p.z);
    DivMod16(n, p.x * 16 + p.y, p.z);
    DivMod16(p.x * 16 + p.y, p.x, p.y);
  }

  lemma LocalOfIndex(n: int)
    requires 0 <= n < 4096
    ensures InChunk(LocalAt(n)) && Index(LocalAt(n)) == n
  {
    var x, m := n / 256, n % 256;
    var y, z := m / 16, m % 16;
    DivMod16(n, x * 16 + y, z);
    DivMod16(x * 16 + y, x, y);
  }

  /** The cells before the (n+1)-th visit are those before the n-th and the n-th itself. */
  lemma IndexSplit(q: Coord, n: int)
    requires InChunk(q) && 0 <= n < 4096
    ensures Index(q) < n + 1 <==> Index(q) < n || q == LocalAt(n)
  {
    IndexOfLocal(q);
    LocalOfIndex(n);
  }

  /** Two chunks that agree on every cell are the same chunk. */
  lemma ChunkExt(c: Chunk, d: Chunk)
    requires forall i, j, l :: 0 <= i < ChunkSize && 0 <= j < ChunkSize && 0 <= l < ChunkSize ==> c[i][j][l] == d[i][j][l]
    ensures c == d
  {
    forall i | 0 <= i < ChunkSize ensures c[i] == d[i] {
      forall j | 0 <= j < ChunkSize ensures c[i][j] == d[i][j] {
        assert |c[i][j]| == |d[i][j]| == ChunkSize;
      }
      assert |c[i]| == |d[i]| == ChunkSize;
    }
  }
}
