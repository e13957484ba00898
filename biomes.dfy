/**
 * Terrain generation of the server: a chunk is filled with air, then a first pass over its cells
 * lays down the biome's layers under the surface, and a second pass stamps at most one feature on
 * each air cell. The biome choice, the rounded terrain height, the cave test and the per-chunk
 * random stream come from noise and a seeded generator; they are the inputs of a `Terrain`.
 */
module Biomes {
  import opened Wrappers
  import opened Addressing
  import opened Chunks
  import opened Features

  /** A layer rule: `block` is laid at cells passing every present test. */
  datatype Layer = Layer(block: string, belowRelative: Option<int>, aboveRelative: Option<int>,
                         aboveAbsolute: Option<int>, aboveRandom: Option<real>)

  /** A feature rule: the named feature is stamped at the first cell-rule that passes. */
  datatype FeatureRule = FeatureRule(name: string, belowAbsolute: Option<int>, aboveAbsolute: Option<int>,
                                     aboveRandom: Option<real>, atSurface: Option<bool>, config: Config)

  datatype Biome = Biome(name: string, height: int, smoothness: int, jaggedness: int, base: int,
                         layers: seq<Layer>, features: seq<FeatureRule>)

  function Lay(block: string, belowRelative: int): Layer
  {
    Layer(block, Some(belowRelative), None, None, None)
  }

  function Surface(name: string, aboveRandom: real, config: Config): FeatureRule
  {
    FeatureRule(name, None, None, Some(aboveRandom), Some(true), config)
  }

  function BlockConfig(block: string): Config
  {
    Config(Some(block), None, None, None)
  }

  function SphereConfig(block: string, radius: int, replace: string): Config
  {
    Config(Some(block), Some(radius), Some(ReplaceBlock(replace)), Some(true))
  }

  /** The biome table, in its key order: desert, plains, mountain. */
  const BiomeTable: seq<Biome> := [
    Biome("desert", 20, 100, 1, 0,
      [Lay("sand", 0), Lay("sandstone", 3)],
      [Surface("temple", 0.9999, NoConfig), Surface("speckle", 0.995, BlockConfig("short_cactus"))]),
    Biome("plains", 4, 100, 1, 0,
      [Lay("grass", 0), Lay("dirt", 1), Lay("rock", 4)],
      [Surface("tree", 0.99, NoConfig),
       Surface("patch", 0.99, SphereConfig("dirt", 3, "grass")),
       FeatureRule("patch", None, None, Some(0.999), None, SphereConfig("copium", 1, "rock")),
       Surface("speckle", 0.95, BlockConfig("short_grass"))]),
    Biome("mountain", 100, 100, 4, 30,
      [Lay("rock", 0),
       Layer("copium", Some(0), None, None, Some(0.99)),
       Layer("snow", Some(0), None, Some(35), None),
       Layer("snow", Some(0), None, Some(30), Some(0.1)),
       Layer("snow", Some(0), None, Some(25), Some(0.2)),
       Layer("snow", Some(0), None, Some(20), Some(0.4))],
      [FeatureRule("patch", None, None, Some(0.995), None, SphereConfig("copium", 1, "rock"))])
  ]

  /**
   * The table's shape: three biomes in key order, each with its surface layer first (laid from
   * depth 0), and every feature rule naming a feature the stamper knows.
   */
  lemma BiomeTableShape()
    ensures |BiomeTable| == 3
    ensures BiomeTable[0].name == "desert" && BiomeTable[1].name == "plains" && BiomeTable[2].name == "mountain"
    ensures forall i :: 0 <= i < 3 ==> |BiomeTable[i].layers| > 0 && BiomeTable[i].layers[0].belowRelative == Some(0)
    ensures forall i, j :: 0 <= i < 3 && 0 <= j < |BiomeTable[i].features| ==>
      BiomeTable[i].features[j].name in {"temple", "speckle", "tree", "patch"}
  {
  }

  type BiomeIndex = i: nat | i < 3

  /**
   * What noise and the seeded generators give: the biome at a column (None when no weight is
   * positive), the rounded height there, whether a cell is carved out as cave, and the random
   * stream of each chunk name.
   */
  datatype Terrain = Terrain(biome: (int, int) -> Option<BiomeIndex>, height: (int, int) -> int,
                             cave: (int, int, int) -> bool, stream: string -> Stream)

  function BiomeAt(t: Terrain, p: Coord): Option<Biome>
  {
    match t.biome(p.x, p.z)
    case None => None
    case Some(i) => Some(BiomeTable[i])
  }

  // --- runPass -------------------------------------------------------------------

  /** One callback of a pass: the local cell and its absolute position. */
  datatype Visit = Visit(local: Coord, abs: Coord)

  function VisitAt(c: Coord, n: int): Visit
  {
    Visit(LocalAt(n), Global(c, LocalAt(n)))
  }

  /**
   * `runPass`: the callbacks of a pass over chunk c, in order; the n-th visits the n-th cell of the
   * x / y / z loops with absolute position local + 16 * chunk.
   */
  method RunPass(c: Coord) returns (visits: seq<Visit>)
    ensures |visits| == 4096
    ensures forall n :: 0 <= n < 4096 ==> visits[n] == VisitAt(c, n)
  {
    visits := [];
    for x := 0 to ChunkSize
      invariant |visits| == x * 256
      invariant forall n :: 0 <= n < |visits| ==> visits[n] == VisitAt(c, n)
    {
      for y := 0 to ChunkSize
        invariant |visits| == x * 256 + y * 16
        invariant forall n :: 0 <= n < |visits| ==> visits[n] == VisitAt(c, n)
      {
        for z := 0 to ChunkSize
          invariant |visits| == x * 256 + y * 16 + z
          invariant forall n :: 0 <= n < |visits| ==> visits[n] == VisitAt(c, n)
        {
          IndexOfLocal(Coord(x, y, z));
          visits := visits + [Visit(Coord(x, y, z), Coord(x + c.x * 16, y + c.y * 16, z + c.z * 16))];
        }
      }
    }
  }

  /**
   * A pass visits every local cell exactly once, and the absolute position it passes is the local
   * one plus 16 times the chunk position.
   */
  lemma EachCellOnce(c: Coord)
    ensures forall p :: InChunk(p) ==> 0 <= Index(p) < 4096 && VisitAt(c, Index(p)).local == p
    ensures forall n, m :: 0 <= n < m < 4096 ==> VisitAt(c, n).local != VisitAt(c, m).local
    ensures forall n :: 0 <= n < 4096 ==>
      InChunk(VisitAt(c, n).local) && VisitAt(c, n).abs == Global(c, VisitAt(c, n).local)
  {
    forall p | InChunk(p) ensures 0 <= Index(p) < 4096 && VisitAt(c, Index(p)).local == p {
      IndexOfLocal(p);
    }
    forall n, m | 0 <= n < m < 4096 ensures VisitAt(c, n).local != VisitAt(c, m).local {
      LocalOfIndex(n);
      LocalOfIndex(m);
    }
    forall n | 0 <= n < 4096 ensures InChunk(VisitAt(c, n).local) {
      LocalOfIndex(n);
    }
  }

  // --- the air fill ----------------------------------------------------------------

  /** The fill loops: every cell of the fresh buffer becomes air. */
  method FillAir(a: array3<string>)
    requires IsBuffer(a)
    modifies a
    ensures Contents(a) == AirChunk()
  {
    for x := 0 to ChunkSize
      invariant forall i, j, l :: 0 <= i < x && 0 <= j < ChunkSize && 0 <= l < ChunkSize ==> a[i, j, l] == ""
    {
      for y := 0 to ChunkSize
        invariant forall i, j, l :: 0 <= i < ChunkSize && 0 <= j < ChunkSize && 0 <= l < ChunkSize ==>
          (i < x || (i == x && j < y)) ==> a[i, j, l] == ""
      {
        for z := 0 to ChunkSize
          invariant forall i, j, l :: 0 <= i < ChunkSize && 0 <= j < ChunkSize && 0 <= l < ChunkSize ==>
            (i < x || (i == x && j < y) || (i == x && j == y && l < z)) ==> a[i, j, l] == ""
        {
          a[x, y, z] := "";
        }
      }
    }
    ChunkExt(Contents(a), AirChunk());
  }

  // --- the layer pass --------------------------------------------------------------

  /** The tests made before any draw, with dy = height - aY. */
  predicate LayerEligible(l: Layer, aY: int, dy: int)
  {
    && !(l.aboveRelative.Some? && dy >= l.aboveRelative.value)
    && !(l.belowRelative.Some? && dy <= l.belowRelative.value)
    && !(l.aboveAbsolute.Some? && aY < l.aboveAbsolute.value)
  }

  /**
   * One layer applied to (block so far, cursor): an eligible layer with `aboveRandom` takes a draw and
   * is skipped when the threshold exceeds it; a cave cell is then skipped; otherwise the layer's block
   * replaces the one so far.
   */
  function LayerStep(l: Layer, aY: int, dy: int, cave: bool, s: Stream, st: (string, nat)): (string, nat)
  {
    if !LayerEligible(l, aY, dy) then st
    else
      var k := st.1;
      var k' := if l.aboveRandom.Some? then k + 1 else k;
      if (l.aboveRandom.Some? && l.aboveRandom.value > s(k)) || cave then (st.0, k')
      else (l.block, k')
  }

  /** The walk over a biome's layers, in order and without `break`. */
  function LayerWalk(ls: seq<Layer>, aY: int, dy: int, cave: bool, s: Stream, st: (string, nat)): (string, nat)
    decreases |ls|
  {
    if ls == [] then st else LayerWalk(ls[1..], aY, dy, cave, s, LayerStep(ls[0], aY, dy, cave, s, st))
  }

  /** Every matching layer assigns, so a later layer overrides the walk before it. */
  lemma {:induction false} LayerWalkAppend(ls: seq<Layer>, l: Layer, aY: int, dy: int, cave: bool, s: Stream, st: (string, nat))
    ensures LayerWalk(ls + [l], aY, dy, cave, s, st) == LayerStep(l, aY, dy, cave, s, LayerWalk(ls, aY, dy, cave, s, st))
    decreases |ls|
  {
    if ls != [] {
      assert (ls + [l])[1..] == ls[1..] + [l];
      LayerWalkAppend(ls[1..], l, aY, dy, cave, s, LayerStep(ls[0], aY, dy, cave, s, st));
    }
  }

  /** The number of draws the walk takes: one per eligible layer carrying `aboveRandom`. */
  function RandomLayers(ls: seq<Layer>, aY: int, dy: int): nat
    decreases |ls|
  {
    if ls == [] then 0
    else (if LayerEligible(ls[0], aY, dy) && ls[0].aboveRandom.Some? then 1 else 0) + RandomLayers(ls[1..], aY, dy)
  }

  /**
   * The walk draws exactly once per eligible random layer, whatever the stream holds, and a cave cell
   * keeps the block it had.
   */
  lemma {:induction false} LayerWalkDraws(ls: seq<Layer>, aY: int, dy: int, cave: bool, s: Stream, st: (string, nat))
    ensures LayerWalk(ls, aY, dy, cave, s, st).1 == st.1 + RandomLayers(ls, aY, dy)
    ensures cave ==> LayerWalk(ls, aY, dy, cave, s, st).0 == st.0
    decreases |ls|
  {
    if ls != [] {
      LayerWalkDraws(ls[1..], aY, dy, cave, s, LayerStep(ls[0], aY, dy, cave, s, st));
    }
  }

  /**
   * The layer callback at one cell holding `cur` before it runs, from cursor k: a non-air cell, a
   * column without biome and a cell at or above the height are left as they are.
   */
  function LayerCell(t: Terrain, s: Stream, k: nat, v: Visit, cur: string): (string, nat)
  {
    if cur != "" then (cur, k)
    else
      match BiomeAt(t, v.abs)
      case None => (cur, k)
      case Some(b) =>
        var h := t.height(v.abs.x, v.abs.z);
        if v.abs.y < h then
          LayerWalk(b.layers, v.abs.y, h - v.abs.y, t.cave(v.abs.x, v.abs.y, v.abs.z), s, (cur, k))
        else (cur, k)
  }

  /** The layer callback never overwrites a non-empty cell and leaves cells at or above the height alone. */
  lemma LayerCellKeeps(t: Terrain, s: Stream, k: nat, v: Visit, cur: string)
    ensures cur != "" ==> LayerCell(t, s, k, v, cur) == (cur, k)
    ensures v.abs.y >= t.height(v.abs.x, v.abs.z) ==> LayerCell(t, s, k, v, cur) == (cur, k)
    ensures BiomeAt(t, v.abs).None? ==> LayerCell(t, s, k, v, cur) == (cur, k)
  {
  }

  /**
   * `runPass` callback of the layer pass, on the buffer. The block the matching layers settle on is
   * kept in a local and stored once; nothing reads the cell in between, so this is the same as
   * storing it at every matching layer.
   */
  method LayerCallback(a: array3<string>, t: Terrain, v: Visit, s: Stream, k: nat) returns (k': nat)
    requires IsBuffer(a) && InChunk(v.local)
    modifies a
    ensures forall i, j, l :: 0 <= i < ChunkSize && 0 <= j < ChunkSize && 0 <= l < ChunkSize && Coord(i, j, l) != v.local ==>
      a[i, j, l] == old(a[i, j, l])
    ensures (a[v.local.x, v.local.y, v.local.z], k') == LayerCell(t, s, k, v, old(a[v.local.x, v.local.y, v.local.z]))
  {
    var x, y, z := v.local.x, v.local.y, v.local.z;
    var aX, aY, aZ := v.abs.x, v.abs.y, v.abs.z;
    k' := k;
    if a[x, y, z] != "" { return; }
    var biome := BiomeAt(t, v.abs);
    if biome.None? { return; }
    var height := t.height(aX, aZ);
    if aY < height {
      var dy := height - aY;
      var layers := biome.value.layers;
      ghost var cave := t.cave(aX, aY, aZ);
      var block := "";
      for i := 0 to |layers|
        invariant LayerWalk(layers[i..], aY, dy, cave, s, (block, k')) == LayerWalk(layers, aY, dy, cave, s, ("", k))
      {
        var layer := layers[i];
        assert layers[i..][1..] == layers[i + 1..];
        match layer.aboveRelative {
          case Some(bound) => if dy >= bound { continue; }
          case None =>
        }
        match layer.belowRelative {
          case Some(bound) => if dy <= bound { continue; }
          case None =>
        }
        match layer.aboveAbsolute {
          case Some(bound) => if aY < bound { continue; }
          case None =>
        }
        match layer.aboveRandom {
          case Some(threshold) =>
            var draw := s(k');
            k' := k' + 1;
            if threshold > draw { continue; }
          case None =>
        }
        if t.cave(aX, aY, aZ) { continue; }
        block := layer.block;
      }
      assert layers[|layers|..] == [];
      a[x, y, z] := block;
    }
  }

  /** The stream cursor before the n-th callback of the layer pass over a chunk that held ch0. */
  function LayerCursor(t: Terrain, c: Coord, s: Stream, ch0: Chunk, k0: nat, n: nat): nat
    requires n <= 4096
  {
    if n == 0 then k0
    else
      LocalOfIndex(n - 1);
      LayerCell(t, s, LayerCursor(t, c, s, ch0, k0, n - 1), VisitAt(c, n - 1), Cell(ch0, LocalAt(n - 1))).1
  }

  /** The block the layer pass leaves at local cell p: its callback's, from the cursor at its turn. */
  function LayerTarget(t: Terrain, c: Coord, s: Stream, ch0: Chunk, k0: nat, p: Coord): string
    requires InChunk(p)
  {
    IndexOfLocal(p);
    LayerCell(t, s, LayerCursor(t, c, s, ch0, k0, Index(p)), VisitAt(c, Index(p)), Cell(ch0, p)).0
  }

  /** The chunk the layer pass leaves. */
  function LayerChunk(t: Terrain, c: Coord, s: Stream, ch0: Chunk, k0: nat): (r: Chunk)
    ensures forall i, j, l :: 0 <= i < ChunkSize && 0 <= j < ChunkSize && 0 <= l < ChunkSize ==>
      r[i][j][l] == LayerTarget(t, c, s, ch0, k0, Coord(i, j, l))
  {
    seq(ChunkSize, i requires 0 <= i < ChunkSize =>
      seq(ChunkSize, j requires 0 <= j < ChunkSize =>
        seq(ChunkSize, l requires 0 <= l < ChunkSize => LayerTarget(t, c, s, ch0, k0, Coord(i, j, l)))))
  }

  /** The chunk that holds `target` at the cells visited before the n-th and `before` at the others. */
  function Blend(target: Chunk, before: Chunk, n: int): (r: Chunk)
    ensures forall i, j, l :: 0 <= i < ChunkSize && 0 <= j < ChunkSize && 0 <= l < ChunkSize ==>
      r[i][j][l] == if Index(Coord(i, j, l)) < n then target[i][j][l] else before[i][j][l]
  {
    seq(ChunkSize, i requires 0 <= i < ChunkSize =>
      seq(ChunkSize, j requires 0 <= j < ChunkSize =>
        seq(ChunkSize, l requires 0 <= l < ChunkSize =>
          if Index(Coord(i, j, l)) < n then target[i][j][l] else before[i][j][l])))
  }

  lemma BlendStep(target: Chunk, before: Chunk, n: int)
    requires 0 <= n < 4096
    ensures InChunk(LocalAt(n))
    ensures Blend(target, before, n + 1) == SetCell(Blend(target, before, n), LocalAt(n), Cell(target, LocalAt(n)))
  {
    LocalOfIndex(n);
    var r := SetCell(Blend(target, before, n), LocalAt(n), Cell(target, LocalAt(n)));
    forall i, j, l | 0 <= i < ChunkSize && 0 <= j < ChunkSize && 0 <= l < ChunkSize
      ensures Blend(target, before, n + 1)[i][j][l] == r[i][j][l]
    {
      IndexSplit(Coord(i, j, l), n);
    }
    ChunkExt(Blend(target, before, n + 1), r);
  }

  lemma BlendEnds(target: Chunk, before: Chunk)
    ensures Blend(target, before, 0) == before && Blend(target, before, 4096) == target
  {
    forall i, j, l | 0 <= i < ChunkSize && 0 <= j < ChunkSize && 0 <= l < ChunkSize
      ensures Blend(target, before, 4096)[i][j][l] == target[i][j][l]
      ensures Blend(target, before, 0)[i][j][l] == before[i][j][l]
    {
      IndexOfLocal(Coord(i, j, l));
    }
    ChunkExt(Blend(target, before, 0), before);
    ChunkExt(Blend(target, before, 4096), target);
  }

  /** A buffer that differs from a chunk value at most at p holds that value with p replaced. */
  lemma OneCellChanged(a: array3<string>, prev: Chunk, p: Coord)
    requires IsBuffer(a) && InChunk(p)
    requires forall i, j, l :: 0 <= i < ChunkSize && 0 <= j < ChunkSize && 0 <= l < ChunkSize && Coord(i, j, l) != p ==>
      a[i, j, l] == prev[i][j][l]
    ensures Contents(a) == SetCell(prev, p, a[p.x, p.y, p.z])
  {
    ChunkExt(Contents(a), SetCell(prev, p, a[p.x, p.y, p.z]));
  }

  /** The first pass of `getChunk`: the layer callback at every cell, in `runPass` order. */
  method LayerPass(a: array3<string>, t: Terrain, c: Coord, s: Stream, k0: nat) returns (k: nat)
    requires IsBuffer(a)
    modifies a
    ensures Contents(a) == LayerChunk(t, c, s, old(Contents(a)), k0)
    ensures k == LayerCursor(t, c, s, old(Contents(a)), k0, 4096)
  {
    var visits := RunPass(c);
    ghost var before := Contents(a);
    ghost var target := LayerChunk(t, c, s, before, k0);
    BlendEnds(target, before);
    k := k0;
    for n := 0 to 4096
      invariant k == LayerCursor(t, c, s, before, k0, n)
      invariant Contents(a) == Blend(target, before, n)
    {
      LocalOfIndex(n);
      var v := visits[n];
      ghost var p := v.local;
      ghost var prev := Contents(a);
      ghost var cur := a[p.x, p.y, p.z];
      assert cur == Cell(before, p);
      k := LayerCallback(a, t, v, s, k);
      OneCellChanged(a, prev, p);
      assert a[p.x, p.y, p.z] == Cell(target, p);
      BlendStep(target, before, n);
    }
  }

  /** Starting from air, the layer pass leaves every cell at or above its column's height as air. */
  lemma LayersStayBelowSurface(t: Terrain, c: Coord, s: Stream, k0: nat, p: Coord)
    requires InChunk(p)
    requires Global(c, p).y >= t.height(Global(c, p).x, Global(c, p).z)
    ensures Cell(LayerChunk(t, c, s, AirChunk(), k0), p) == ""
  {
    IndexOfLocal(p);
    var n := Index(p);
    LayerCellKeeps(t, s, LayerCursor(t, c, s, AirChunk(), k0, n), VisitAt(c, n), "");
  }

  // --- the feature pass ------------------------------------------------------------

  /** The tests of a feature rule made before any draw. */
  predicate FeatureEligible(f: FeatureRule, aY: int, height: int)
  {
    && !(f.atSurface == Some(true) && aY != height)
    && !(f.aboveAbsolute.Some? && aY > f.aboveAbsolute.value)
    && !(f.belowAbsolute.Some? && aY < f.belowAbsolute.value)
  }

  /**
   * The walk over a biome's feature rules: the first eligible rule whose draw (if any) reaches its
   * threshold is chosen and the walk stops there; the cursor has moved past every draw taken.
   */
  function FeatureWalk(fs: seq<FeatureRule>, aY: int, height: int, s: Stream, k: nat): (Option<FeatureRule>, nat)
    decreases |fs|
  {
    if fs == [] then (None, k)
    else
      var f := fs[0];
      if !FeatureEligible(f, aY, height) then FeatureWalk(fs[1..], aY, height, s, k)
      else if f.aboveRandom.None? then (Some(f), k)
      else if f.aboveRandom.value > s(k) then FeatureWalk(fs[1..], aY, height, s, k + 1)
      else (Some(f), k + 1)
  }

  /** Draws of eligible random rules, counted over a whole list. */
  function RandomFeatures(fs: seq<FeatureRule>, aY: int, height: int): nat
    decreases |fs|
  {
    if fs == [] then 0
    else (if FeatureEligible(fs[0], aY, height) && fs[0].aboveRandom.Some? then 1 else 0) + RandomFeatures(fs[1..], aY, height)
  }

  /**
   * The chosen rule is one of the biome's, passes its tests (so a surface rule is chosen only at the
   * surface height); draws are taken only for eligible random rules, all of them when none is chosen.
   */
  lemma {:induction false} FeatureWalkChoice(fs: seq<FeatureRule>, aY: int, height: int, s: Stream, k: nat)
    ensures var (f, k') := FeatureWalk(fs, aY, height, s, k);
      && k <= k' <= k + RandomFeatures(fs, aY, height)
      && (f.None? ==> k' == k + RandomFeatures(fs, aY, height))
      && (f.Some? ==> f.value in fs && FeatureEligible(f.value, aY, height))
      && (f.Some? && f.value.atSurface == Some(true) ==> aY == height)
    decreases |fs|
  {
    if fs != [] {
      FeatureWalkChoice(fs[1..], aY, height, s, if FeatureEligible(fs[0], aY, height) && fs[0].aboveRandom.Some? then k + 1 else k);
    }
  }

  /**
   * The feature callback at one cell, on the chunk left by the callbacks before it: only an air cell
   * with a biome gets a feature, the first rule the walk chooses, stamped with the draws after it.
   */
  function FeatureStep(t: Terrain, s: Stream, st: (Chunk, nat), v: Visit): (Chunk, nat)
    requires InChunk(v.local)
  {
    var (ch, k) := st;
    if Cell(ch, v.local) != "" then st
    else
      match BiomeAt(t, v.abs)
      case None => st
      case Some(b) =>
        var (rule, k1) := FeatureWalk(b.features, v.abs.y, t.height(v.abs.x, v.abs.z), s, k);
        match rule
        case None => (ch, k1)
        case Some(f) =>
          (StampChunk(f.name, f.config, v.local, s, k1, ch), k1 + Draws(f.name, v.local, BelowIn(ch, v.local)))
  }

  /** The feature pass leaves a non-air cell's callback without effect: features start only at air. */
  lemma FeaturesStartAtAir(t: Terrain, s: Stream, st: (Chunk, nat), v: Visit)
    requires InChunk(v.local) && Cell(st.0, v.local) != ""
    ensures FeatureStep(t, s, st, v) == st
  {
  }

  /**
   * The loop of the feature callback up to its `break`: the first rule passing its tests, and the
   * cursor after the draws taken on the way.
   */
  method ChooseFeature(fs: seq<FeatureRule>, aY: int, height: int, s: Stream, k: nat) returns (rule: Option<FeatureRule>, k': nat)
    ensures (rule, k') == FeatureWalk(fs, aY, height, s, k)
  {
    k' := k;
    for i := 0 to |fs|
      invariant FeatureWalk(fs[i..], aY, height, s, k') == FeatureWalk(fs, aY, height, s, k)
    {
      var f := fs[i];
      assert fs[i..][1..] == fs[i + 1..];
      if f.atSurface == Some(true) && aY != height { continue; }
      match f.aboveAbsolute {
        case Some(bound) => if aY > bound { continue; }
        case None =>
      }
      match f.belowAbsolute {
        case Some(bound) => if aY < bound { continue; }
        case None =>
      }
      match f.aboveRandom {
        case Some(threshold) =>
          var draw := s(k');
          k' := k' + 1;
          if threshold > draw { continue; }
        case None =>
      }
      return Some(f), k';
    }
    return None, k';
  }

  /** `runPass` callback of the feature pass, on the buffer: the chosen rule's feature is stamped. */
  method FeatureCallback(a: array3<string>, t: Terrain, v: Visit, s: Stream, k: nat) returns (k': nat)
    requires IsBuffer(a) && InChunk(v.local)
    modifies a
    ensures (Contents(a), k') == FeatureStep(t, s, (old(Contents(a)), k), v)
  {
    ghost var before := Contents(a);
    var x, y, z := v.local.x, v.local.y, v.local.z;
    k' := k;
    if a[x, y, z] != "" { return; }
    assert Cell(before, v.local) == "";
    match BiomeAt(t, v.abs) {
      case None =>
      case Some(biome) =>
        var height := t.height(v.abs.x, v.abs.z);
        var rule, k1 := ChooseFeature(biome.features, v.abs.y, height, s, k);
        k' := k1;
        match rule {
          case None =>
          case Some(f) =>
            assert BelowOf(a, v.local) == BelowIn(before, v.local);
            k' := GenerateFeature(f.name, a, v.local, f.config, s, k1);
            assert FeatureStep(t, s, (before, k), v) ==
              (StampChunk(f.name, f.config, v.local, s, k1, before), k1 + Draws(f.name, v.local, BelowIn(before, v.local)));
        }
    }
  }

  /** The state after the first n callbacks of the feature pass over chunk c. */
  function FeatureFold(t: Terrain, c: Coord, s: Stream, st: (Chunk, nat), n: nat): (Chunk, nat)
    requires n <= 4096
  {
    if n == 0 then st
    else
      LocalOfIndex(n - 1);
      FeatureStep(t, s, FeatureFold(t, c, s, st, n - 1), VisitAt(c, n - 1))
  }

  /** The second pass of `getChunk`: the feature callback at every cell, in `runPass` order. */
  method FeaturePass(a: array3<string>, t: Terrain, c: Coord, s: Stream, k0: nat) returns (k: nat)
    requires IsBuffer(a)
    modifies a
    ensures (Contents(a), k) == FeatureFold(t, c, s, (old(Contents(a)), k0), 4096)
  {
    var visits := RunPass(c);
    ghost var before := Contents(a);
    k := k0;
    for n := 0 to 4096
      invariant (Contents(a), k) == FeatureFold(t, c, s, (before, k0), n)
    {
      LocalOfIndex(n);
      k := FeatureCallback(a, t, visits[n], s, k);
    }
  }

  // --- getChunk --------------------------------------------------------------------

  /**
   * The chunk generated for a name: air, then layers, then features, all drawing from the name's
   * stream from its start. A name that does not parse into three integers stays air.
   */
  function Generated(t: Terrain, name: string): Chunk
  {
    match ParseChunkName(name)
    case None => AirChunk()
    case Some(c) =>
      var s := t.stream(name);
      var layered := LayerChunk(t, c, s, AirChunk(), 0);
      FeatureFold(t, c, s, (layered, LayerCursor(t, c, s, AirChunk(), 0, 4096)), 4096).0
  }

  /** `Biomes.getChunk(chunkName)`. */
  method GetChunk(t: Terrain, name: string) returns (ch: Chunk)
    ensures ch == Generated(t, name)
  {
    var a := new string[ChunkSize, ChunkSize, ChunkSize];
    FillAir(a);
    match ParseChunkName(name)
    case None =>
      ch := Contents(a);
    case Some(c) =>
      var s := t.stream(name);
      var k := LayerPass(a, t, c, s, 0);
      k := FeaturePass(a, t, c, s, k);
      ch := Contents(a);
  }
}
