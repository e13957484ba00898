/**
 * The browser's own world (src/world.ts): it generates chunks from two noise functions, builds
 * an instanced mesh per block type for each chunk near the player, and registers a physics
 * collider at every block that has an air face neighbour.
 */
module ClientWorld {
  import opened Wrappers
  import opened Addressing
  import opened Chunks

  /** The two simplex noise functions the world samples (`createNoise3D`, `createNoise2D`). */
  datatype Noise = Noise(noise3d: (real, real, real) -> real, noise2d: (real, real) -> real)

  /** `Math.round`: the nearest integer, halves rounded up. */
  function Round(r: real): (n: int)
    ensures n as real - 0.5 <= r < n as real + 0.5
  {
    (r + 0.5).Floor
  }

  /** The surface height of column (gx, gz): three octaves of 2D noise around 64. */
  function Height(noise: Noise, gx: int, gz: int): int
  {
    var x, z := gx as real, gz as real;
    Round(noise.noise2d(x / 100.0, z / 100.0) * 8.0) + 64
      + Round(noise.noise2d(x / 50.0, z / 50.0) * 4.0)
      + Round(noise.noise2d(x / 25.0, z / 25.0) * 2.0)
  }

  /** The density at a global position; caves are carved where it is at least 0.5. */
  function Density(noise: Noise, g: Coord): real
  {
    noise.noise3d(g.x as real / 100.0, g.y as real / 100.0, g.z as real / 100.0)
  }

  const Grass := "grass"
  const Dirt := "dirt"
  const Rock := "rock"

  /** The block `generateTerrain` puts at global position g. */
  function Tile(noise: Noise, g: Coord): (b: string)
    ensures b in {"", Grass, Dirt, Rock}
    ensures b != "" ==> g.y < Height(noise, g.x, g.z)
  {
    var height := Height(noise, g.x, g.z);
    if Density(noise, g) < 0.5 && g.y < height then
      if g.y + 1 >= height then Grass
      else if g.y + 4 >= height then Dirt
      else Rock
    else ""
  }

  /**
   * Below a solid surface of height h the column is one grass block at h - 1, three dirt blocks
   * under it and rock further down; at and above h it is air, and so is every cave cell.
   */
  lemma SurfaceLayers(noise: Noise, g: Coord)
    ensures var h := Height(noise, g.x, g.z);
      && (Tile(noise, g) == "" <==> Density(noise, g) >= 0.5 || g.y >= h)
      && (Tile(noise, g) == Grass <==> Density(noise, g) < 0.5 && g.y == h - 1)
      && (Tile(noise, g) == Dirt <==> Density(noise, g) < 0.5 && h - 4 <= g.y <= h - 2)
      && (Tile(noise, g) == Rock <==> Density(noise, g) < 0.5 && g.y < h - 4)
  {
  }

  /** With simplex noise in [-1, 1], every surface lies between heights 50 and 78. */
  lemma HeightRange(noise: Noise, gx: int, gz: int)
    requires forall a, b :: -1.0 <= noise.noise2d(a, b) <= 1.0
    ensures 50 <= Height(noise, gx, gz) <= 78
  {
  }

  /** The chunk `generateTerrain` builds: every cell holds the tile of its global position. */
  function TerrainChunk(noise: Noise, c: Coord): (r: Chunk)
    ensures forall l {:trigger Cell(r, l)} :: InChunk(l) ==> Cell(r, l) == Tile(noise, Global(c, l))
  {
    seq(ChunkSize, x => seq(ChunkSize, y => seq(ChunkSize, z => Tile(noise, Global(c, Coord(x, y, z))))))
  }

  // ---------------------------------------------------------------------------
  // Counting (first pass of buildMesh)
  // ---------------------------------------------------------------------------

  /** The cell visited n-th by the x / y / z loops. */
  function CellAt(chunk: Chunk, n: int): string
    requires 0 <= n < 4096
  {
    LocalOfIndex(n);
    Cell(chunk, LocalAt(n))
  }

  /** The cells of a chunk in loop order. */
  function Cells(chunk: Chunk): seq<string>
  {
    seq(4096, n requires 0 <= n < 4096 => CellAt(chunk, n))
  }

  /** The `count` record after visiting the cells of `s` in order: air is skipped, others bumped. */
  function Tally(s: seq<string>): map<string, nat>
  {
    if s == [] then map[]
    else
      var count := Tally(s[..|s| - 1]);
      var block := s[|s| - 1];
      if block == "" then count
      else count[block := if block in count then count[block] + 1 else 1]
  }

  /** Visiting one more cell bumps the count of its block type, unless it is air. */
  lemma TallyStep(s: seq<string>, k: int)
    requires 0 <= k < |s|
    ensures Tally(s[..k + 1]) ==
      if s[k] == "" then Tally(s[..k])
      else Tally(s[..k])[s[k] := if s[k] in Tally(s[..k]) then Tally(s[..k])[s[k]] + 1 else 1]
  {
    assert s[..k + 1][..k] == s[..k];
  }

  /** The cell of local position l is the Index(l)-th in loop order. */
  lemma CellsIndex(chunk: Chunk, l: Coord)
    requires InChunk(l)
    ensures 0 <= Index(l) < 4096 && Cells(chunk)[Index(l)] == Cell(chunk, l)
  {
    IndexOfLocal(l);
  }

  /** The count holds exactly the non-air block types present, each with its number of cells. */
  lemma {:induction false} TallyCounts(s: seq<string>)
    ensures forall b :: b in Tally(s) <==> b != "" && b in multiset(s)
    ensures forall b :: b in Tally(s) ==> Tally(s)[b] == multiset(s)[b]
    decreases |s|
  {
    if s != [] {
      var init := s[..|s| - 1];
      assert s == init + [s[|s| - 1]];
      TallyCounts(init);
    }
  }

  // ---------------------------------------------------------------------------
  // Visibility (second pass of buildMesh)
  // ---------------------------------------------------------------------------

  /** The six face offsets, in the order `buildMesh` tries them. */
  const Faces: seq<Coord> := [Coord(1, 0, 0), Coord(-1, 0, 0), Coord(0, 1, 0), Coord(0, -1, 0), Coord(0, 0, 1), Coord(0, 0, -1)]

  lemma FacesAreUnitSteps()
    ensures forall i :: 0 <= i < 6 ==> -1 <= Faces[i].x <= 1 && -1 <= Faces[i].y <= 1 && -1 <= Faces[i].z <= 1
  {
  }

  function Shift(g: Coord, d: Coord): Coord
  {
    Coord(g.x + d.x, g.y + d.y, g.z + d.z)
  }

  /** Stepping a local position steps its global position by the same offset. */
  lemma ShiftGlobal(c: Coord, l: Coord, d: Coord)
    ensures Global(c, Shift(l, d)) == Shift(Global(c, l), d)
  {
  }

  /** The `reduce` of `buildMesh` over the first i faces: `prev && block !== ""`, starting from true. */
  predicate SolidFaces(noise: Noise, g: Coord, i: int)
    requires 0 <= i <= 6
  {
    if i == 0 then true else SolidFaces(noise, g, i - 1) && Tile(noise, Shift(g, Faces[i - 1])) != ""
  }

  /** All six face neighbours of g are solid. */
  predicate Enclosed(noise: Noise, g: Coord)
  {
    SolidFaces(noise, g, 6)
  }

  /** A solid block with at least one air face neighbour: it gets an instance and a collider. */
  predicate Visible(noise: Noise, g: Coord)
  {
    Tile(noise, g) != "" && !Enclosed(noise, g)
  }

  /** The visible blocks among the first k cells of chunk c in loop order. */
  ghost function ExposedUpTo(noise: Noise, c: Coord, k: int): set<Coord>
  {
    set n | 0 <= n < k && Visible(noise, Global(c, LocalAt(n))) :: Global(c, LocalAt(n))
  }

  /** The visible blocks of chunk c. */
  ghost function Exposed(noise: Noise, c: Coord): set<Coord>
  {
    ExposedUpTo(noise, c, 4096)
  }

  /** The global positions among the first k cells of chunk c in loop order. */
  ghost function CellsUpTo(c: Coord, k: int): set<Coord>
  {
    set n | 0 <= n < k :: Global(c, LocalAt(n))
  }

  /** Every global position of a chunk is its n-th cell for one n. */
  lemma GlobalOfIndex(c: Coord, g: Coord)
    requires ChunkOf(g) == c
    ensures 0 <= Index(LocalOf(g)) < 4096 && Global(c, LocalAt(Index(LocalOf(g)))) == g
  {
    IndexOfLocal(LocalOf(g));
    RoundTrip(g.x);
    RoundTrip(g.y);
    RoundTrip(g.z);
  }

  /** The cells of a chunk are exactly the positions that chunk contains. */
  lemma CellsMember(c: Coord, g: Coord)
    ensures g in CellsUpTo(c, 4096) <==> ChunkOf(g) == c
  {
    if g in CellsUpTo(c, 4096) {
      var n :| 0 <= n < 4096 && g == Global(c, LocalAt(n));
      LocalOfIndex(n);
      AddressOfGlobal(c, LocalAt(n));
    }
    if ChunkOf(g) == c {
      GlobalOfIndex(c, g);
    }
  }

  /** The exposed blocks of a chunk are exactly its visible blocks. */
  lemma ExposedMember(noise: Noise, c: Coord, g: Coord)
    ensures g in Exposed(noise, c) <==> ChunkOf(g) == c && Visible(noise, g)
  {
    if g in Exposed(noise, c) {
      var n :| 0 <= n < 4096 && Visible(noise, Global(c, LocalAt(n))) && g == Global(c, LocalAt(n));
      LocalOfIndex(n);
      AddressOfGlobal(c, LocalAt(n));
    }
    if ChunkOf(g) == c && Visible(noise, g) {
      GlobalOfIndex(c, g);
    }
  }

  /** One instanced mesh: its capacity (`count` of the first pass) and the positions placed in it. */
  datatype Mesh = Mesh(capacity: nat, instances: seq<Coord>)

  /**
   * The meshes `buildMesh` makes for chunk c: one per block type present, sized by that type's
   * count, holding exactly the visible blocks of that type.
   */
  ghost predicate MeshesFor(noise: Noise, c: Coord, meshes: map<string, Mesh>)
  {
    var count := Tally(Cells(TerrainChunk(noise, c)));
    && meshes.Keys == count.Keys
    && forall b :: b in meshes ==>
         && meshes[b].capacity == count[b]
         && forall g {:trigger g in meshes[b].instances} {:trigger g in Exposed(noise, c)} :: g in meshes[b].instances <==> g in Exposed(noise, c) && Tile(noise, g) == b
  }

  /** Chunk c and its neighbours up to one step on each axis. */
  function Offset(c: Coord, dx: int, dy: int, dz: int): Coord
  {
    Coord(c.x + dx, c.y + dy, c.z + dz)
  }

  /** Whether chunk c is in the load window [-3, 2]^3 around the player's chunk p. */
  predicate InWindow(p: Coord, c: Coord)
  {
    -3 <= c.x - p.x < 3 && -3 <= c.y - p.y < 3 && -3 <= c.z - p.z < 3
  }

  /** Whether chunk c is kept by the unload pass: no axis is more than 3 chunks away. */
  predicate Near(p: Coord, c: Coord)
  {
    Abs(p.x - c.x) <= 3 && Abs(p.y - c.y) <= 3 && Abs(p.z - c.z) <= 3
  }

  /** The cells below k together with the k-th one. */
  lemma CellsStep(c: Coord, k: int)
    requires 0 <= k
    ensures CellsUpTo(c, k + 1) == CellsUpTo(c, k) + {Global(c, LocalAt(k))}
  {
  }

  /** The visible cells below k together with the k-th one when it is visible. */
  lemma ExposedStep(noise: Noise, c: Coord, k: int)
    requires 0 <= k
    ensures ExposedUpTo(noise, c, k + 1)
      == ExposedUpTo(noise, c, k) + (if Visible(noise, Global(c, LocalAt(k))) then {Global(c, LocalAt(k))} else {})
  {
  }

  /**
   * The meshes after the first k cells of the second pass of `buildMesh`: one per counted type,
   * of the counted capacity, holding the visible blocks of that type seen so far.
   */
  ghost predicate PlacedUpTo(noise: Noise, c: Coord, count: map<string, nat>, meshes: map<string, Mesh>, k: int)
  {
    && meshes.Keys == count.Keys
    && forall b :: b in meshes ==>
         && meshes[b].capacity == count[b]
         && forall g {:trigger g in meshes[b].instances} {:trigger g in ExposedUpTo(noise, c, k)} :: g in meshes[b].instances <==> g in ExposedUpTo(noise, c, k) && Tile(noise, g) == b
  }

  /**
   * The first step of `getBlockFromChunk` for a coordinate just outside chunk c, tried in the
   * order x = -1, x = 16, y = -1, y = 16, z = -1, z = 16: the face neighbour and the position
   * there, which is the same global position with one fewer coordinate outside.
   */
  function Across(c: Coord, x: int, y: int, z: int): (r: (Coord, Coord))
    requires -1 <= x <= 16 && -1 <= y <= 16 && -1 <= z <= 16 && Edges(x, y, z) > 0
    ensures var (d, l) := r;
      && -1 <= l.x <= 16 && -1 <= l.y <= 16 && -1 <= l.z <= 16
      && Edges(l.x, l.y, l.z) < Edges(x, y, z)
      && Global(d, l) == Global(c, Coord(x, y, z))
  {
    if x == -1 then (Coord(c.x - 1, c.y, c.z), Coord(15, y, z))
    else if x == 16 then (Coord(c.x + 1, c.y, c.z), Coord(0, y, z))
    else if y == -1 then (Coord(c.x, c.y - 1, c.z), Coord(x, 15, z))
    else if y == 16 then (Coord(c.x, c.y + 1, c.z), Coord(x, 0, z))
    else if z == -1 then (Coord(c.x, c.y, c.z - 1), Coord(x, y, 15))
    else (Coord(c.x, c.y, c.z + 1), Coord(x, y, 0))
  }

  /**
   * One more cell of the second pass, the cell at local position l = LocalAt(k): the colliders
   * and the meshes stay in step with the visible blocks seen.
   */
  lemma PlacedStep(noise: Noise, c: Coord, count: map<string, nat>, k: int, l: Coord,
                   base: set<Coord>, before: set<Coord>, after: set<Coord>, ms: map<string, Mesh>, ms': map<string, Mesh>)
    requires 0 <= k && l == LocalAt(k)
    requires before == base + ExposedUpTo(noise, c, k) && PlacedUpTo(noise, c, count, ms, k)
    requires var g := Global(c, l);
      if Visible(noise, g) then
        && after == before + {g}
        && Tile(noise, g) in ms
        && ms' == ms[Tile(noise, g) := Mesh(ms[Tile(noise, g)].capacity, ms[Tile(noise, g)].instances + [g])]
      else after == before && ms' == ms
    ensures after == base + ExposedUpTo(noise, c, k + 1) && PlacedUpTo(noise, c, count, ms', k + 1)
  {
    ExposedStep(noise, c, k);
    var g0 := Global(c, l);
    var added := if Visible(noise, g0) then {g0} else {};
    assert after == base + (ExposedUpTo(noise, c, k) + added);
    if Visible(noise, g0) {
      var t := Tile(noise, g0);
      forall b | b in ms'
        ensures ms'[b].capacity == count[b]
        ensures forall g :: g in ms'[b].instances <==> g in ExposedUpTo(noise, c, k + 1) && Tile(noise, g) == b
      {
        if b == t {
          assert ms'[b].instances == ms[b].instances + [g0];
        } else {
          assert ms'[b] == ms[b];
        }
      }
    }
  }

  /** Every chunk stored under the name of a coordinate holds the terrain generated for that coordinate. */
  ghost predicate AllGenerated(noise: Noise, chunks: ChunkMap)
  {
    forall d {:trigger ChunkName(d) in chunks} :: ChunkName(d) in chunks ==> chunks[ChunkName(d)] == TerrainChunk(noise, d)
  }

  /** The colliders are exactly the visible blocks of the drawn chunks. */
  ghost predicate CollidersMatch(noise: Noise, meshes: map<string, map<string, Mesh>>, colliders: set<Coord>)
  {
    forall g {:trigger g in colliders} :: g in colliders <==> ChunkNameOf(g) in meshes && Visible(noise, g)
  }

  /** Every solid block type of chunk c has an entry in `count`. */
  ghost predicate Covers(noise: Noise, c: Coord, count: map<string, nat>)
  {
    forall l {:trigger Tile(noise, Global(c, l))} :: InChunk(l) && Tile(noise, Global(c, l)) != "" ==> Tile(noise, Global(c, l)) in count
  }

  /** The first pass counts every solid block type of the chunk. */
  lemma TallyCovers(noise: Noise, c: Coord)
    ensures Covers(noise, c, Tally(Cells(TerrainChunk(noise, c))))
  {
    var cells := Cells(TerrainChunk(noise, c));
    TallyCounts(cells);
    forall l | InChunk(l) && Tile(noise, Global(c, l)) != ""
      ensures Tile(noise, Global(c, l)) in Tally(cells)
    {
      IndexOfLocal(l);
      assert cells[Index(l)] == Tile(noise, Global(c, l));
    }
  }

  /** Generating chunk c keeps every chunk generated, and changes nothing when it is already there. */
  lemma GeneratedAdd(noise: Noise, chunks: ChunkMap, c: Coord)
    requires AllGenerated(noise, chunks)
    ensures AllGenerated(noise, chunks[ChunkName(c) := TerrainChunk(noise, c)])
    ensures ChunkName(c) in chunks ==> chunks[ChunkName(c) := TerrainChunk(noise, c)] == chunks
  {
    forall d | ChunkName(d) == ChunkName(c)
      ensures d == c
    {
      ChunkNameInjective(d, c);
    }
  }

  /** Unloading chunk c drops exactly its colliders and keeps the rest matched. */
  lemma UnloadMatch(noise: Noise, c: Coord, meshes: map<string, map<string, Mesh>>, colliders: set<Coord>, colliders': set<Coord>)
    requires CollidersMatch(noise, meshes, colliders)
    requires colliders' == colliders - CellsUpTo(c, 4096)
    ensures forall g {:trigger g in colliders'} {:trigger g in colliders} :: g in colliders' <==> g in colliders && ChunkOf(g) != c
    ensures CollidersMatch(noise, meshes - {ChunkName(c)}, colliders')
  {
    forall g
      ensures g in colliders' <==> g in colliders && ChunkOf(g) != c
    {
      CellsMember(c, g);
    }
    forall g
      ensures g in colliders' <==> ChunkNameOf(g) in meshes - {ChunkName(c)} && Visible(noise, g)
    {
      ChunkNameInjective(ChunkOf(g), c);
    }
  }

  /** Every chunk named in `names` is kept by the unload pass around p. */
  ghost predicate AllNear(p: Coord, names: set<string>)
  {
    forall d {:trigger ChunkName(d) in names} :: ChunkName(d) in names ==> Near(p, d)
  }

  /** Adding the name of a chunk near p keeps every name near. */
  lemma NearAdd(p: Coord, names: set<string>, c: Coord)
    requires AllNear(p, names) && Near(p, c)
    ensures AllNear(p, names + {ChunkName(c)})
  {
    forall d | ChunkName(d) in names + {ChunkName(c)}
      ensures Near(p, d)
    {
      ChunkNameInjective(d, c);
    }
  }

  /** After the whole second pass, the meshes are exactly the ones `buildMesh` promises. */
  lemma PlacedAll(noise: Noise, c: Coord, ms: map<string, Mesh>)
    requires PlacedUpTo(noise, c, Tally(Cells(TerrainChunk(noise, c))), ms, 4096)
    ensures MeshesFor(noise, c, ms)
  {
  }

  /**
   * Drawing chunk c, which was not drawn, adds exactly its visible blocks to the colliders and
   * keeps them matched with the drawn chunks.
   */
  lemma BuildMatch(noise: Noise, c: Coord, meshes: map<string, map<string, Mesh>>, ms: map<string, Mesh>,
                   colliders: set<Coord>, colliders': set<Coord>)
    requires CollidersMatch(noise, meshes, colliders) && ChunkName(c) !in meshes
    requires colliders' == colliders + Exposed(noise, c)
    ensures CollidersMatch(noise, meshes[ChunkName(c) := ms], colliders')
    ensures forall g {:trigger g in colliders'} :: g in colliders' <==> if ChunkOf(g) == c then Visible(noise, g) else g in colliders
  {
    forall g
      ensures g in colliders' <==> if ChunkOf(g) == c then Visible(noise, g) else g in colliders
      ensures g in colliders' <==> ChunkNameOf(g) in meshes[ChunkName(c) := ms] && Visible(noise, g)
    {
      ExposedMember(noise, c, g);
      ChunkNameInjective(ChunkOf(g), c);
    }
  }

  /** Drawing a chunk again after unloading it replaces its entry. */
  lemma RemoveThenPut(meshes: map<string, map<string, Mesh>>, name: string, ms: map<string, Mesh>)
    ensures (meshes - {name})[name := ms] == meshes[name := ms]
  {
  }

  /** The number of coordinates just outside the chunk that `getBlockFromChunk` must resolve. */
  function Edges(x: int, y: int, z: int): nat
  {
    (if x == -1 || x == 16 then 1 else 0) + (if y == -1 || y == 16 then 1 else 0) + (if z == -1 || z == 16 then 1 else 0)
  }

  /**
   * The client `World`. `chunks` are the generated chunks, `meshes` the `chunkMeshes` record of
   * the chunks that are drawn, and `colliders` the positions of the boxes registered with the
   * physics engine (keyed by position there, so a set here).
   */
  class World {
    const noise: Noise
    var chunks: ChunkMap
    var meshes: map<string, map<string, Mesh>>
    var colliders: set<Coord>

    /** Every stored chunk is the terrain generated for the coordinate its name spells. */
    ghost predicate ChunksGenerated()
      reads this`chunks
    {
      AllGenerated(noise, chunks)
    }

    /**
     * The world invariant: chunks are generated terrain, every drawn chunk is generated, and the
     * colliders are exactly the visible blocks of the drawn chunks.
     */
    ghost predicate Valid()
      reads this
    {
      && AllGenerated(noise, chunks)
      && meshes.Keys <= chunks.Keys
      && CollidersMatch(noise, meshes, colliders)
    }

    constructor(noise: Noise)
      ensures Valid()
      ensures this.noise == noise && chunks == map[] && meshes == map[] && colliders == {}
    {
      this.noise := noise;
      chunks := map[];
      meshes := map[];
      colliders := {};
    }

    /**
     * `generateTerrain`: returns the chunk's name; the chunk is generated unless it already
     * exists, in which case nothing changes.
     */
    method GenerateTerrain(c: Coord) returns (name: string)
      requires ChunksGenerated()
      modifies this`chunks
      ensures ChunksGenerated()
      ensures name == ChunkName(c)
      ensures chunks == old(chunks)[name := TerrainChunk(noise, c)]
      ensures name in old(chunks) ==> chunks == old(chunks)
    {
      name := ChunkName(c);
      GeneratedAdd(noise, chunks, c);
      if name in chunks {
        return;
      }
      var chunk := FillChunk(c);
      chunks := chunks[name := chunk];
    }

    /** The x / y / z loops of `generateTerrain`, pushing one tile per cell. */
    method FillChunk(c: Coord) returns (chunk: Chunk)
      ensures chunk == TerrainChunk(noise, c)
    {
      ghost var target := TerrainChunk(noise, c);
      var xs: seq<seq<seq<string>>> := [];
      for x := 0 to 16
        invariant xs == target[..x]
      {
        var ys: seq<seq<string>> := [];
        for y := 0 to 16
          invariant ys == target[x][..y]
        {
          var zs: seq<string> := [];
          for z := 0 to 16
            invariant zs == target[x][y][..z]
          {
            var g := Global(c, Coord(x, y, z));
            var density := Density(noise, g);
            var height := Height(noise, g.x, g.z);
            var tile := "";
            if density < 0.5 {
              if g.y < height {
                if g.y + 1 >= height {
                  tile := Grass;
                } else if g.y + 4 >= height {
                  tile := Dirt;
                } else {
                  tile := Rock;
                }
              }
            }
            zs := zs + [tile];
          }
          assert zs == target[x][y];
          ys := ys + [zs];
        }
        assert ys == target[x];
        xs := xs + [ys];
      }
      assert xs == target;
      chunk := xs;
    }

    /**
     * `getBlockFromChunk`: a coordinate of -1 or 16 is resolved in the face neighbour (at 15 or 0),
     * generating that chunk first. The block returned is the tile at the global position. The
     * name is always one `generateTerrain` returned, the name of the chunk coordinate `at`.
     */
    method GetBlockFromChunk(name: string, ghost at: Coord, x: int, y: int, z: int) returns (b: string)
      requires ChunksGenerated() && name in chunks && name == ChunkName(at)
      requires -1 <= x <= 16 && -1 <= y <= 16 && -1 <= z <= 16
      modifies this`chunks
      ensures ChunksGenerated() && old(chunks).Keys <= chunks.Keys
      ensures b == Tile(noise, Global(at, Coord(x, y, z)))
      decreases Edges(x, y, z)
    {
      ParseChunkNameOfName(at);
      var c := ParseChunkName(name).value;
      if Edges(x, y, z) > 0 {
        var (d, l) := Across(c, x, y, z);
        var next := GenerateTerrain(d);
        b := GetBlockFromChunk(next, d, l.x, l.y, l.z);
      } else {
        b := chunks[name][x][y][z];
        AddressOfGlobal(c, Coord(x, y, z));
      }
    }
  
    /** `unloadChunk`: a drawn chunk loses its colliders and its meshes; otherwise nothing happens. */
    method UnloadChunk(c: Coord)
      requires Valid()
      modifies this`meshes, this`colliders
      ensures Valid()
      ensures meshes == old(meshes) - {ChunkName(c)}
      ensures ChunkName(c) !in old(meshes) ==> meshes == old(meshes) && colliders == old(colliders)
      ensures forall g {:trigger g in colliders} {:trigger g in old(colliders)} :: g in colliders <==> g in old(colliders) && !(ChunkName(c) in old(meshes) && ChunkOf(g) == c)
    {
      var name := ChunkName(c);
      if name in meshes {
        RemoveColliders(c);
        UnloadMatch(noise, c, meshes, old(colliders), colliders);
        meshes := meshes - {name};
      } else {
        assert meshes - {name} == meshes;
      }
    }

    /**
     * `buildMesh`: the chunk is unloaded first; a chunk that was never generated is an error and
     * changes nothing; otherwise the chunk is drawn with the meshes `MeshesFor` describes, and the
     * colliders of the chunk become exactly its visible blocks.
     */
    method BuildMesh(c: Coord) returns (r: Result<()>)
      requires Valid()
      modifies this`chunks, this`meshes, this`colliders
      ensures Valid()
      ensures r.Err? <==> ChunkName(c) !in old(chunks)
      ensures r.Err? ==> chunks == old(chunks) && meshes == old(meshes) && colliders == old(colliders)
      ensures old(chunks).Keys <= chunks.Keys
      ensures r.Ok? ==> && ChunkName(c) in meshes
                        && meshes == old(meshes)[ChunkName(c) := meshes[ChunkName(c)]]
                        && MeshesFor(noise, c, meshes[ChunkName(c)])
      ensures r.Ok? ==> forall g {:trigger g in colliders} :: g in colliders <==> if ChunkOf(g) == c then Visible(noise, g) else g in old(colliders)
    {
      var name := ChunkName(c);
      UnloadChunk(c);
      if name !in chunks {
        return Err("Tried to build mesh before chunk was generated");
      }
      Draw(c, name);
      RemoveThenPut(old(meshes), name, meshes[name]);
      r := Ok(());
    }

    /** The drawing part of `buildMesh`, for a generated chunk c that is not drawn. */
    method Draw(c: Coord, name: string)
      requires Valid() && name == ChunkName(c)
      requires name in chunks && name !in meshes
      modifies this`chunks, this`meshes, this`colliders
      ensures Valid() && old(chunks).Keys <= chunks.Keys
      ensures name in meshes && meshes == old(meshes)[name := meshes[name]]
      ensures MeshesFor(noise, c, meshes[name])
      ensures forall g {:trigger g in colliders} :: g in colliders <==> if ChunkOf(g) == c then Visible(noise, g) else g in old(colliders)
    {
      var count := CountBlocks(chunks[name]);
      TallyCovers(noise, c);
      var ms := PlaceBlocks(c, name, count);
      PlacedAll(noise, c, ms);
      BuildMatch(noise, c, meshes, ms, old(colliders), colliders);
      meshes := meshes[name := ms];
    }

    /**
     * `update`: p is the chunk the player is in. Drawn chunks more than 3 chunks away on some axis
     * are unloaded, then every chunk of the window [-3, 2]^3 around p is generated and drawn.
     */
    method Update(p: Coord)
      requires Valid()
      modifies this`chunks, this`meshes, this`colliders
      ensures Valid()
      ensures forall d :: InWindow(p, d) ==> ChunkName(d) in meshes
      ensures AllNear(p, meshes.Keys)
    {
      UnloadFar(p);
      for dx := -3 to 3
        invariant Valid() && AllNear(p, meshes.Keys)
        invariant forall e, f, g :: -3 <= e < dx && -3 <= f < 3 && -3 <= g < 3 ==> ChunkName(Offset(p, e, f, g)) in meshes
      {
        ghost var before := meshes.Keys;
        LoadSlab(p, dx);
        forall e, f, g | -3 <= e < dx + 1 && -3 <= f < 3 && -3 <= g < 3
          ensures ChunkName(Offset(p, e, f, g)) in meshes
        {
          if e < dx {
            assert ChunkName(Offset(p, e, f, g)) in before;
          }
        }
      }
      forall d | InWindow(p, d)
        ensures ChunkName(d) in meshes
      {
        assert d == Offset(p, d.x - p.x, d.y - p.y, d.z - p.z);
      }
    }

    /** The unload pass of `update`, over the names drawn when it starts. */
    method UnloadFar(p: Coord)
      requires Valid()
      modifies this`meshes, this`colliders
      ensures Valid() && AllNear(p, meshes.Keys)
    {
      var names := meshes.Keys;
      while names != {}
        invariant Valid()
        invariant AllNear(p, meshes.Keys - names)
        decreases names
      {
        var name :| name in names;
        ghost var before, kept := meshes.Keys, meshes.Keys - names;
        var parsed := ParseChunkName(name);
        if parsed.Some? {
          UnloadIfFar(p, parsed.value);
        }
        names := names - {name};
        forall e | ChunkName(e) in meshes.Keys - names
          ensures Near(p, e)
        {
          ParseChunkNameOfName(e);
          if parsed != Some(e) {
            assert ChunkName(e) != name && ChunkName(e) in before;
            assert ChunkName(e) in kept;
          }
        }
      }
      assert meshes.Keys - names == meshes.Keys;
    }

    /**
     * The callback of the unload pass for a drawn name that spells chunk d: the chunk is unloaded
     * when more than 3 chunks away on some axis. (A name that does not parse gives NaN, every
     * comparison with NaN is false, and nothing happens.)
     */
    method UnloadIfFar(p: Coord, d: Coord)
      requires Valid()
      modifies this`meshes, this`colliders
      ensures Valid()
      ensures Near(p, d) ==> meshes == old(meshes)
      ensures !Near(p, d) ==> meshes == old(meshes) - {ChunkName(d)}
    {
      UnloadWhen(Abs(p.x - d.x) > 3, d);
      UnloadWhen(Abs(p.y - d.y) > 3, d);
      UnloadWhen(Abs(p.z - d.z) > 3, d);
    }

    /** One test of the unload pass: chunk c is unloaded when `far` holds; unloading it again changes nothing. */
    method UnloadWhen(far: bool, c: Coord)
      requires Valid()
      modifies this`meshes, this`colliders
      ensures Valid()
      ensures far && ChunkName(c) in old(meshes) ==> meshes == old(meshes) - {ChunkName(c)}
      ensures !(far && ChunkName(c) in old(meshes)) ==> meshes == old(meshes)
    {
      if far {
        UnloadChunk(c);
      }
    }

    /** The y / z loops of the load pass of `update`, for one x offset. */
    method LoadSlab(p: Coord, dx: int)
      requires Valid() && AllNear(p, meshes.Keys) && -3 <= dx < 3
      modifies this`chunks, this`meshes, this`colliders
      ensures Valid() && AllNear(p, meshes.Keys) && old(meshes).Keys <= meshes.Keys
      ensures forall f, g :: -3 <= f < 3 && -3 <= g < 3 ==> ChunkName(Offset(p, dx, f, g)) in meshes
    {
      for dy := -3 to 3
        invariant Valid() && AllNear(p, meshes.Keys) && old(meshes).Keys <= meshes.Keys
        invariant forall f, g :: -3 <= f < dy && -3 <= g < 3 ==> ChunkName(Offset(p, dx, f, g)) in meshes
      {
        ghost var before := meshes.Keys;
        LoadRow(p, dx, dy);
        forall f, g | -3 <= f < dy + 1 && -3 <= g < 3
          ensures ChunkName(Offset(p, dx, f, g)) in meshes
        {
          if f < dy {
            assert ChunkName(Offset(p, dx, f, g)) in before;
          }
        }
      }
    }

    /** The z loop of the load pass of `update`, for one x and y offset. */
    method LoadRow(p: Coord, dx: int, dy: int)
      requires Valid() && AllNear(p, meshes.Keys) && -3 <= dx < 3 && -3 <= dy < 3
      modifies this`chunks, this`meshes, this`colliders
      ensures Valid() && AllNear(p, meshes.Keys) && old(meshes).Keys <= meshes.Keys
      ensures forall g :: -3 <= g < 3 ==> ChunkName(Offset(p, dx, dy, g)) in meshes
    {
      for dz := -3 to 3
        invariant Valid() && AllNear(p, meshes.Keys) && old(meshes).Keys <= meshes.Keys
        invariant forall g :: -3 <= g < dz ==> ChunkName(Offset(p, dx, dy, g)) in meshes
      {
        ghost var before := meshes.Keys;
        LoadChunk(p, Offset(p, dx, dy, dz));
        forall g | -3 <= g < dz + 1
          ensures ChunkName(Offset(p, dx, dy, g)) in meshes
        {
          if g < dz {
            assert ChunkName(Offset(p, dx, dy, g)) in before;
          }
        }
      }
    }

    /** One chunk of the load pass: generated, then drawn unless it already is. */
    method LoadChunk(p: Coord, c: Coord)
      requires Valid() && AllNear(p, meshes.Keys) && Near(p, c)
      modifies this`chunks, this`meshes, this`colliders
      ensures Valid() && AllNear(p, meshes.Keys)
      ensures ChunkName(c) in meshes && old(meshes).Keys <= meshes.Keys
    {
      var name := GenerateTerrain(c);
      if name in meshes {
        return;
      }
      ghost var before := meshes.Keys;
      var r := BuildMesh(c);
      assert meshes.Keys == before + {name};
      NearAdd(p, before, c);
    }

    /** The x / y / z loops of `unloadChunk`: `physics.removeBlock` at every position of the chunk. */
    method RemoveColliders(c: Coord)
      modifies this`colliders
      ensures colliders == old(colliders) - CellsUpTo(c, 4096)
    {
      ghost var k := 0;
      for x := 0 to 16
        invariant k == 256 * x
        invariant colliders == old(colliders) - CellsUpTo(c, k)
      {
        for y := 0 to 16
          invariant k == 256 * x + 16 * y
          invariant colliders == old(colliders) - CellsUpTo(c, k)
        {
          for z := 0 to 16
            invariant k == 256 * x + 16 * y + z
            invariant colliders == old(colliders) - CellsUpTo(c, k)
          {
            IndexOfLocal(Coord(x, y, z));
            CellsStep(c, k);
            colliders := colliders - {Global(c, Coord(x, y, z))};
            k := k + 1;
          }
        }
      }
    }

    /** The first pass of `buildMesh`: the number of cells of each non-air block type. */
    method CountBlocks(chunk: Chunk) returns (count: map<string, nat>)
      ensures count == Tally(Cells(chunk))
    {
      count := map[];
      ghost var k := 0;
      for x := 0 to 16
        invariant k == 256 * x && count == Tally(Cells(chunk)[..k])
      {
        count := CountSlab(chunk, count, x, k);
        k := k + 256;
      }
      assert Cells(chunk)[..4096] == Cells(chunk);
    }

    /** The y loop of the first pass, for one x; k counts the cells visited before it. */
    method CountSlab(chunk: Chunk, count: map<string, nat>, x: int, ghost k: int) returns (count': map<string, nat>)
      requires 0 <= x < 16 && k == 256 * x && count == Tally(Cells(chunk)[..k])
      ensures count' == Tally(Cells(chunk)[..k + 256])
    {
      count' := count;
      ghost var j := k;
      for y := 0 to 16
        invariant j == k + 16 * y && count' == Tally(Cells(chunk)[..j])
      {
        count' := CountRow(chunk, count', x, y, j);
        j := j + 16;
      }
    }

    /** The z loop of the first pass, for one x and y; k counts the cells visited before it. */
    method CountRow(chunk: Chunk, count: map<string, nat>, x: int, y: int, ghost k: int) returns (count': map<string, nat>)
      requires 0 <= x < 16 && 0 <= y < 16 && k == 256 * x + 16 * y && count == Tally(Cells(chunk)[..k])
      ensures count' == Tally(Cells(chunk)[..k + 16])
    {
      count' := count;
      ghost var j := k;
      for z := 0 to 16
        invariant j == k + z && count' == Tally(Cells(chunk)[..j])
      {
        var block := chunk[x][y][z];
        CellsIndex(chunk, Coord(x, y, z));
        assert Index(Coord(x, y, z)) == j;
        TallyStep(Cells(chunk), j);
        if block != "" {
          count' := count'[block := if block in count' then count'[block] + 1 else 1];
        }
        j := j + 1;
      }
    }

    /**
     * The neighbour test of `buildMesh`: `prev && block !== ""` over the six faces, which stops
     * looking (and generating neighbours) at the first air face.
     */
    method Surrounded(c: Coord, name: string, x: int, y: int, z: int) returns (s: bool)
      requires ChunksGenerated() && name in chunks && name == ChunkName(c)
      requires 0 <= x < 16 && 0 <= y < 16 && 0 <= z < 16
      modifies this`chunks
      ensures ChunksGenerated() && old(chunks).Keys <= chunks.Keys
      ensures s == Enclosed(noise, Global(c, Coord(x, y, z)))
    {
      ghost var g := Global(c, Coord(x, y, z));
      s := true;
      for i := 0 to 6
        invariant ChunksGenerated() && old(chunks).Keys <= chunks.Keys
        invariant s == SolidFaces(noise, g, i)
      {
        if s {
          s := SolidFace(c, name, x, y, z, i);
        }
      }
    }

    /** Whether the i-th face neighbour of local cell (x, y, z) of chunk c holds a block. */
    method SolidFace(c: Coord, name: string, x: int, y: int, z: int, i: int) returns (solid: bool)
      requires ChunksGenerated() && name in chunks && name == ChunkName(c)
      requires 0 <= x < 16 && 0 <= y < 16 && 0 <= z < 16 && 0 <= i < 6
      modifies this`chunks
      ensures ChunksGenerated() && old(chunks).Keys <= chunks.Keys
      ensures solid == (Tile(noise, Shift(Global(c, Coord(x, y, z)), Faces[i])) != "")
    {
      FacesAreUnitSteps();
      var f := Faces[i];
      var l := Shift(Coord(x, y, z), f);
      var b := GetBlockFromChunk(name, c, l.x, l.y, l.z);
      ShiftGlobal(c, Coord(x, y, z), f);
      solid := b != "";
    }

    /**
     * One cell of the second pass of `buildMesh`: a visible block gets a collider and an instance
     * appended to the mesh of its type (`setMatrixAt(count[block], ...)` then `count[block]++`).
     */
    method PlaceCell(c: Coord, name: string, count: map<string, nat>, ms: map<string, Mesh>, x: int, y: int, z: int)
      returns (ms': map<string, Mesh>)
      requires ChunksGenerated() && name in chunks && name == ChunkName(c)
      requires 0 <= x < 16 && 0 <= y < 16 && 0 <= z < 16
      requires Covers(noise, c, count)
      requires ms.Keys == count.Keys
      modifies this`chunks, this`colliders
      ensures ChunksGenerated() && old(chunks).Keys <= chunks.Keys
      ensures var g := Global(c, Coord(x, y, z));
        if Visible(noise, g) then
          && colliders == old(colliders) + {g}
          && Tile(noise, g) in ms
          && ms' == ms[Tile(noise, g) := Mesh(ms[Tile(noise, g)].capacity, ms[Tile(noise, g)].instances + [g])]
        else colliders == old(colliders) && ms' == ms
    {
      ms' := ms;
      var g := Global(c, Coord(x, y, z));
      var block := GetBlockFromChunk(name, c, x, y, z);
      assert block == Tile(noise, g);
      if block != "" {
        assert block in ms;
        var surrounded := Surrounded(c, name, x, y, z);
        if !surrounded {
          colliders := colliders + {g};
          ms' := ms[block := Mesh(ms[block].capacity, ms[block].instances + [g])];
        }
      }
    }

    /**
     * The second pass of `buildMesh`: each visible block gets a collider and an instance in the
     * mesh of its type.
     */
    method PlaceBlocks(c: Coord, name: string, count: map<string, nat>) returns (ms: map<string, Mesh>)
      requires ChunksGenerated() && name in chunks && name == ChunkName(c)
      requires Covers(noise, c, count)
      modifies this`chunks, this`colliders
      ensures ChunksGenerated() && old(chunks).Keys <= chunks.Keys
      ensures colliders == old(colliders) + Exposed(noise, c)
      ensures PlacedUpTo(noise, c, count, ms, 4096)
    {
      ms := map b | b in count :: Mesh(count[b], []);
      ghost var k := 0;
      for x := 0 to 16
        invariant k == 256 * x
        invariant ChunksGenerated() && name in chunks && old(chunks).Keys <= chunks.Keys
        invariant colliders == old(colliders) + ExposedUpTo(noise, c, k)
        invariant PlacedUpTo(noise, c, count, ms, k)
      {
        ms := PlaceSlab(c, name, count, ms, x, old(colliders), k);
        k := k + 256;
      }
    }

    /** The y loop of the second pass, for one x; k counts the cells visited before it. */
    method PlaceSlab(c: Coord, name: string, count: map<string, nat>, ms: map<string, Mesh>, x: int,
                     ghost base: set<Coord>, ghost k: int)
      returns (ms': map<string, Mesh>)
      requires ChunksGenerated() && name in chunks && name == ChunkName(c)
      requires Covers(noise, c, count) && 0 <= x < 16 && k == 256 * x
      requires colliders == base + ExposedUpTo(noise, c, k)
      requires PlacedUpTo(noise, c, count, ms, k)
      modifies this`chunks, this`colliders
      ensures ChunksGenerated() && old(chunks).Keys <= chunks.Keys
      ensures colliders == base + ExposedUpTo(noise, c, k + 256)
      ensures PlacedUpTo(noise, c, count, ms', k + 256)
    {
      ms' := ms;
      ghost var j := k;
      for y := 0 to 16
        invariant j == k + 16 * y
        invariant ChunksGenerated() && name in chunks && old(chunks).Keys <= chunks.Keys
        invariant colliders == base + ExposedUpTo(noise, c, j)
        invariant PlacedUpTo(noise, c, count, ms', j)
      {
        ms' := PlaceRow(c, name, count, ms', x, y, base, j);
        j := j + 16;
      }
    }

    /** The z loop of the second pass, for one x and y; k counts the cells visited before it. */
    method PlaceRow(c: Coord, name: string, count: map<string, nat>, ms: map<string, Mesh>, x: int, y: int,
                    ghost base: set<Coord>, ghost k: int)
      returns (ms': map<string, Mesh>)
      requires ChunksGenerated() && name in chunks && name == ChunkName(c)
      requires Covers(noise, c, count) && 0 <= x < 16 && 0 <= y < 16 && k == 256 * x + 16 * y
      requires colliders == base + ExposedUpTo(noise, c, k)
      requires PlacedUpTo(noise, c, count, ms, k)
      modifies this`chunks, this`colliders
      ensures ChunksGenerated() && old(chunks).Keys <= chunks.Keys
      ensures colliders == base + ExposedUpTo(noise, c, k + 16)
      ensures PlacedUpTo(noise, c, count, ms', k + 16)
    {
      ms' := ms;
      ghost var j := k;
      for z := 0 to 16
        invariant j == k + z
        invariant ChunksGenerated() && name in chunks && old(chunks).Keys <= chunks.Keys
        invariant colliders == base + ExposedUpTo(noise, c, j)
        invariant PlacedUpTo(noise, c, count, ms', j)
      {
        ms' := PlaceStep(c, name, count, ms', x, y, z, base, j);
        j := j + 1;
      }
    }

    /** The cell (x, y, z) of the second pass, the k-th visited: one more cell kept in step. */
    method PlaceStep(c: Coord, name: string, count: map<string, nat>, ms: map<string, Mesh>, x: int, y: int, z: int,
                     ghost base: set<Coord>, ghost k: int)
      returns (ms': map<string, Mesh>)
      requires ChunksGenerated() && name in chunks && name == ChunkName(c)
      requires Covers(noise, c, count) && 0 <= x < 16 && 0 <= y < 16 && 0 <= z < 16 && k == 256 * x + 16 * y + z
      requires colliders == base + ExposedUpTo(noise, c, k)
      requires PlacedUpTo(noise, c, count, ms, k)
      modifies this`chunks, this`colliders
      ensures ChunksGenerated() && old(chunks).Keys <= chunks.Keys
      ensures colliders == base + ExposedUpTo(noise, c, k + 1)
      ensures PlacedUpTo(noise, c, count, ms', k + 1)
    {
      assert Index(Coord(x, y, z)) == k;
      IndexOfLocal(Coord(x, y, z));
      ms' := PlaceCell(c, name, count, ms, x, y, z);
      PlacedStep(noise, c, count, k, Coord(x, y, z), base, old(colliders), colliders, ms, ms');
    }
  }
}
