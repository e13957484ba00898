/**
 * Feature stamping of src/server/features.ts: trees, temples, speckles and cube/sphere
 * patches written in place into a 16x16x16 chunk buffer. Every stamp checks its origin
 * against the buffer and silently does nothing when the footprint would leave it.
 *
 * `prng()` is modelled as a stream of draws in [0, 1) and a cursor: draw k is the k-th
 * call, and each operation returns the cursor after the draws it made.
 */
module Features {
  import opened Wrappers
  import opened Addressing
  import opened Chunks

  type Stream = nat -> real

  /** The `replace` option as it may appear in a feature's config: a boolean or a block id. */
  datatype ReplaceValue = ReplaceFlag(flag: bool) | ReplaceBlock(block: string)

  /** A feature's optional `config` object; absent fields are None (`config?.field` is undefined). */
  datatype Config = Config(block: Option<string>, radius: Option<int>, replace: Option<ReplaceValue>, sphere: Option<bool>)

  const NoConfig: Config := Config(None, None, None, None)

  /** Which cells a patch may overwrite. */
  datatype Replace = NonEmpty | Exactly(block: string)

  predicate IsBuffer(a: array3<string>)
  {
    a.Length0 == ChunkSize && a.Length1 == ChunkSize && a.Length2 == ChunkSize
  }

  // --- JavaScript `||` defaults of the config fields -------------------------

  /** `config?.block || dflt`: an absent or empty block falls back to the default. */
  function BlockOr(c: Config, dflt: string): string
  {
    if c.block.Some? && c.block.value != "" then c.block.value else dflt
  }

  function SphereOn(c: Config): bool
  {
    c.sphere == Some(true)
  }

  /** `config?.radius || 3`, plus one when `sphere` is set. */
  function PatchRadius(c: Config): int
  {
    var r := if c.radius.Some? && c.radius.value != 0 then c.radius.value else 3;
    if SphereOn(c) then r + 1 else r
  }

  /** `config?.replace || true`: a non-empty block id keeps its meaning, every falsy value becomes `true`. */
  function ReplaceRule(c: Config): Replace
  {
    match c.replace
    case Some(ReplaceBlock(s)) => if s != "" then Exactly(s) else NonEmpty
    case _ => NonEmpty
  }

  /** `true` overwrites only non-empty cells; a block id overwrites only cells holding exactly it. */
  predicate ReplaceAllows(rule: Replace, v: string)
  {
    match rule
    case NonEmpty => v != ""
    case Exactly(s) => v == s
  }

  // --- specification of each stamp, cell by cell ------------------------------

  function Offset(p: Coord, b: Coord): Coord
  {
    Coord(p.x - b.x, p.y - b.y, p.z - b.z)
  }

  /** The guard shared by tree and temple: x, z in 1..14 and y in 1..10. */
  predicate StructureGuard(b: Coord)
  {
    1 <= b.x <= 14 && 1 <= b.y <= 10 && 1 <= b.z <= 14
  }

  /** The cell under the origin, "" when it lies outside the buffer. */
  function BelowOf(a: array3<string>, b: Coord): string
    requires IsBuffer(a)
    reads a
  {
    if InChunk(Coord(b.x, b.y - 1, b.z)) then a[b.x, b.y - 1, b.z] else ""
  }

  /** Draw index (relative to the cursor) that gates each optional corner leaf at height y + 2. */
  function CornerDraw(d: Coord): nat
    requires Abs(d.x) == 1 && Abs(d.z) == 1
  {
    if d.x == -1 then (if d.z == 1 then 0 else 1) else (if d.z == 1 then 2 else 3)
  }

  /**
   * A placed tree: a wood trunk of four cells, a ring of leaves at y + 2 whose four corners
   * each need a draw below 0.5, a full 3x3 layer of leaves around the trunk top at y + 3 and a
   * plus of five leaves at y + 4.
   */
  function TreeCell(b: Coord, s: Stream, k: nat, p: Coord, v: string): string
  {
    var d := Offset(p, b);
    if d.x == 0 && d.z == 0 && 0 <= d.y <= 3 then "wood"
    else if d.y == 2 && Abs(d.x) == 1 && Abs(d.z) == 1 then (if s(k + CornerDraw(d)) < 0.5 then "leaves" else v)
    else if d.y == 2 && Abs(d.x) + Abs(d.z) == 1 then "leaves"
    else if d.y == 3 && Abs(d.x) <= 1 && Abs(d.z) <= 1 then "leaves"
    else if d.y == 4 && Abs(d.x) + Abs(d.z) <= 1 then "leaves"
    else v
  }

  predicate TreePlaced(b: Coord, below: string)
  {
    StructureGuard(b) && below != ""
  }

  function TreeStamp(b: Coord, below: string, s: Stream, k: nat, p: Coord, v: string): string
  {
    if TreePlaced(b, below) then TreeCell(b, s, k, p, v) else v
  }

  /** The temple frame: four sandstone corner pillars from y - 1 to y + 2 and the four edge cells of its top. */
  function TempleCell(b: Coord, p: Coord, v: string): string
  {
    var d := Offset(p, b);
    if Abs(d.x) == 1 && Abs(d.z) == 1 && -1 <= d.y <= 2 then "sandstone"
    else if d.y == 2 && Abs(d.x) + Abs(d.z) == 1 then "sandstone"
    else v
  }

  function TempleStamp(b: Coord, p: Coord, v: string): string
  {
    if StructureGuard(b) then TempleCell(b, p, v) else v
  }

  predicate SpecklePlaced(b: Coord, below: string)
  {
    b.y >= 1 && below != ""
  }

  function SpeckleStamp(b: Coord, below: string, c: Config, p: Coord, v: string): string
  {
    if SpecklePlaced(b, below) && p == b then BlockOr(c, "short_grass") else v
  }

  /** The origin leaves room for the radius on every axis: r <= b <= 14 - r. */
  predicate PatchGuard(b: Coord, r: int)
  {
    r <= b.x <= 14 - r && r <= b.y <= 14 - r && r <= b.z <= 14 - r
  }

  /** Offsets the patch loops visit: [-r, r) on each axis. */
  predicate InPatchBox(d: Coord, r: int)
  {
    -r <= d.x < r && -r <= d.y < r && -r <= d.z < r
  }

  /** A visited cell is written when the replace rule admits its old value and, for a sphere, x^2+y^2+z^2 <= r^2. */
  predicate PatchWrites(c: Config, d: Coord, v: string)
  {
    var r := PatchRadius(c);
    ReplaceAllows(ReplaceRule(c), v) && (!SphereOn(c) || d.x * d.x + d.y * d.y + d.z * d.z <= r * r)
  }

  function PatchStamp(b: Coord, c: Config, p: Coord, v: string): string
  {
    var d := Offset(p, b);
    if PatchGuard(b, PatchRadius(c)) && InPatchBox(d, PatchRadius(c)) && PatchWrites(c, d, v)
    then BlockOr(c, "stone") else v
  }

  /** The new value of cell p for each feature name; an unknown name changes nothing. */
  function Stamp(name: string, c: Config, b: Coord, below: string, s: Stream, k: nat, p: Coord, v: string): string
  {
    match name
    case "tree" => TreeStamp(b, below, s, k, p, v)
    case "temple" => TempleStamp(b, p, v)
    case "speckle" => SpeckleStamp(b, below, c, p, v)
    case "patch" => PatchStamp(b, c, p, v)
    case _ => v
  }

  /** Draws a feature consumes: four for a placed tree, none otherwise. */
  function Draws(name: string, b: Coord, below: string): nat
  {
    if name == "tree" && TreePlaced(b, below) then 4 else 0
  }

  /** Every cell of the buffer holds the stamp of its old value. */
  ghost predicate Stamped(a: array3<string>, old_a: seq<seq<seq<string>>>, f: (Coord, string) -> string)
    requires IsBuffer(a)
    reads a
  {
    IsChunk(old_a) &&
    forall i, j, l :: 0 <= i < ChunkSize && 0 <= j < ChunkSize && 0 <= l < ChunkSize ==>
      a[i, j, l] == f(Coord(i, j, l), old_a[i][j][l])
  }

  /** The buffer as nested sequences. */
  function Contents(a: array3<string>): (c: Chunk)
    requires IsBuffer(a)
    reads a
    ensures forall i, j, l :: 0 <= i < ChunkSize && 0 <= j < ChunkSize && 0 <= l < ChunkSize ==> c[i][j][l] == a[i, j, l]
  {
    seq(ChunkSize, i requires 0 <= i < ChunkSize reads a =>
      seq(ChunkSize, j requires 0 <= j < ChunkSize reads a =>
        seq(ChunkSize, l requires 0 <= l < ChunkSize reads a => a[i, j, l])))
  }

  // --- the stamps -------------------------------------------------------------

  // The tree is written in five groups; each group's cells are disjoint from the others'.

  function TrunkCell(b: Coord, p: Coord, v: string): string
  {
    var d := Offset(p, b);
    if d.x == 0 && d.z == 0 && 0 <= d.y <= 3 then "wood" else v
  }

  function CornerCell(b: Coord, s: Stream, k: nat, p: Coord, v: string): string
  {
    var d := Offset(p, b);
    if d.y == 2 && Abs(d.x) == 1 && Abs(d.z) == 1 && s(k + CornerDraw(d)) < 0.5 then "leaves" else v
  }

  function RingCell(b: Coord, p: Coord, v: string): string
  {
    var d := Offset(p, b);
    if d.y == 2 && Abs(d.x) + Abs(d.z) == 1 then "leaves" else v
  }

  function CrownCell(b: Coord, p: Coord, v: string): string
  {
    var d := Offset(p, b);
    if d.y == 3 && Abs(d.x) <= 1 && Abs(d.z) <= 1 && !(d.x == 0 && d.z == 0) then "leaves" else v
  }

  function TopCell(b: Coord, p: Coord, v: string): string
  {
    var d := Offset(p, b);
    if d.y == 4 && Abs(d.x) + Abs(d.z) <= 1 then "leaves" else v
  }

  /** The five groups written one after the other give the tree's cell rule. */
  lemma TreeGroups(b: Coord, s: Stream, k: nat, p: Coord, v: string)
    ensures TopCell(b, p, CrownCell(b, p, RingCell(b, p, CornerCell(b, s, k, p, TrunkCell(b, p, v)))))
            == TreeCell(b, s, k, p, v)
  {
  }

  method Trunk(a: array3<string>, b: Coord)
    requires IsBuffer(a) && StructureGuard(b)
    modifies a
    ensures forall i, j, l :: 0 <= i < ChunkSize && 0 <= j < ChunkSize && 0 <= l < ChunkSize ==>
      a[i, j, l] == TrunkCell(b, Coord(i, j, l), old(a[i, j, l]))
  {
    var x, y, z := b.x, b.y, b.z;
    a[x, y, z] := "wood";
    a[x, y + 1, z] := "wood";
    a[x, y + 2, z] := "wood";
    a[x, y + 3, z] := "wood";
  }

  method Corners(a: array3<string>, b: Coord, s: Stream, k: nat)
    requires IsBuffer(a) && StructureGuard(b)
    modifies a
    ensures forall i, j, l :: 0 <= i < ChunkSize && 0 <= j < ChunkSize && 0 <= l < ChunkSize ==>
      a[i, j, l] == CornerCell(b, s, k, Coord(i, j, l), old(a[i, j, l]))
  {
    var x, y, z := b.x, b.y, b.z;
    if s(k) < 0.5 { a[x - 1, y + 2, z + 1] := "leaves"; }
    if s(k + 1) < 0.5 { a[x - 1, y + 2, z - 1] := "leaves"; }
    if s(k + 2) < 0.5 { a[x + 1, y + 2, z + 1] := "leaves"; }
    if s(k + 3) < 0.5 { a[x + 1, y + 2, z - 1] := "leaves"; }
  }

  method Ring(a: array3<string>, b: Coord)
    requires IsBuffer(a) && StructureGuard(b)
    modifies a
    ensures forall i, j, l :: 0 <= i < ChunkSize && 0 <= j < ChunkSize && 0 <= l < ChunkSize ==>
      a[i, j, l] == RingCell(b, Coord(i, j, l), old(a[i, j, l]))
  {
    var x, y, z := b.x, b.y, b.z;
    a[x + 1, y + 2, z] := "leaves";
    a[x - 1, y + 2, z] := "leaves";
    a[x, y + 2, z + 1] := "leaves";
    a[x, y + 2, z - 1] := "leaves";
  }

  method Crown(a: array3<string>, b: Coord)
    requires IsBuffer(a) && StructureGuard(b)
    modifies a
    ensures forall i, j, l :: 0 <= i < ChunkSize && 0 <= j < ChunkSize && 0 <= l < ChunkSize ==>
      a[i, j, l] == CrownCell(b, Coord(i, j, l), old(a[i, j, l]))
  {
    CrownSide(a, b, 1);
    CrownSide(a, b, -1);
    var x, y, z := b.x, b.y, b.z;
    a[x, y + 3, z + 1] := "leaves";
    a[x, y + 3, z - 1] := "leaves";
  }

  /** Three leaves of the crown in the column x + sx. */
  method CrownSide(a: array3<string>, b: Coord, sx: int)
    requires IsBuffer(a) && StructureGuard(b) && Abs(sx) == 1
    modifies a
    ensures forall i, j, l :: 0 <= i < ChunkSize && 0 <= j < ChunkSize && 0 <= l < ChunkSize ==>
      a[i, j, l] == (if i == b.x + sx && j == b.y + 3 && b.z - 1 <= l <= b.z + 1 then "leaves" else old(a[i, j, l]))
  {
    var x, y, z := b.x + sx, b.y, b.z;
    a[x, y + 3, z] := "leaves";
    a[x, y + 3, z + 1] := "leaves";
    a[x, y + 3, z - 1] := "leaves";
  }

  method Top(a: array3<string>, b: Coord)
    requires IsBuffer(a) && StructureGuard(b)
    modifies a
    ensures forall i, j, l :: 0 <= i < ChunkSize && 0 <= j < ChunkSize && 0 <= l < ChunkSize ==>
      a[i, j, l] == TopCell(b, Coord(i, j, l), old(a[i, j, l]))
  {
    var x, y, z := b.x, b.y, b.z;
    a[x + 1, y + 4, z] := "leaves";
    a[x - 1, y + 4, z] := "leaves";
    a[x, y + 4, z + 1] := "leaves";
    a[x, y + 4, z - 1] := "leaves";
    a[x, y + 4, z] := "leaves";
  }

  /** The "tree" case: guards, then trunk, optional corners (four draws), ring, crown and top. */
  method Tree(a: array3<string>, b: Coord, s: Stream, k: nat) returns (k': nat)
    requires IsBuffer(a)
    modifies a
    ensures forall i, j, l :: 0 <= i < ChunkSize && 0 <= j < ChunkSize && 0 <= l < ChunkSize ==>
      a[i, j, l] == TreeStamp(b, old(BelowOf(a, b)), s, k, Coord(i, j, l), old(a[i, j, l]))
    ensures k' == k + Draws("tree", b, old(BelowOf(a, b)))
  {
    k' := k;
    if b.x < 1 || b.x > 14 { return; }
    if b.y < 1 || b.y > 10 { return; }
    if b.z < 1 || b.z > 14 { return; }
    if a[b.x, b.y - 1, b.z] == "" { return; }
    ghost var a0 := Contents(a);
    Trunk(a, b);
    Corners(a, b, s, k);
    Ring(a, b);
    Crown(a, b);
    Top(a, b);
    k' := k + 4;
    forall i, j, l | 0 <= i < ChunkSize && 0 <= j < ChunkSize && 0 <= l < ChunkSize
      ensures a[i, j, l] == TreeCell(b, s, k, Coord(i, j, l), a0[i][j][l])
    {
      TreeGroups(b, s, k, Coord(i, j, l), a0[i][j][l]);
    }
  }

  /** The "temple" case: the guard, then the sixteen pillar cells and the four top edges. */
  method Temple(a: array3<string>, b: Coord)
    requires IsBuffer(a)
    modifies a
    ensures forall i, j, l :: 0 <= i < ChunkSize && 0 <= j < ChunkSize && 0 <= l < ChunkSize ==>
      a[i, j, l] == TempleStamp(b, Coord(i, j, l), old(a[i, j, l]))
  {
    if b.x < 1 || b.x > 14 { return; }
    if b.y < 1 || b.y > 10 { return; }
    if b.z < 1 || b.z > 14 { return; }
    Pillar(a, b, 1, 1);
    Pillar(a, b, 1, -1);
    Pillar(a, b, -1, 1);
    Pillar(a, b, -1, -1);
    var x, y, z := b.x, b.y, b.z;
    a[x + 1, y + 2, z] := "sandstone";
    a[x - 1, y + 2, z] := "sandstone";
    a[x, y + 2, z + 1] := "sandstone";
    a[x, y + 2, z - 1] := "sandstone";
  }

  /** One corner pillar of the temple, four cells from y - 1 to y + 2 at offset (sx, sz). */
  method Pillar(a: array3<string>, b: Coord, sx: int, sz: int)
    requires IsBuffer(a) && StructureGuard(b)
    requires Abs(sx) == 1 && Abs(sz) == 1
    modifies a
    ensures forall i, j, l :: 0 <= i < ChunkSize && 0 <= j < ChunkSize && 0 <= l < ChunkSize ==>
      a[i, j, l] == (if i == b.x + sx && l == b.z + sz && b.y - 1 <= j <= b.y + 2 then "sandstone" else old(a[i, j, l]))
  {
    var x, y, z := b.x + sx, b.y, b.z + sz;
    a[x, y - 1, z] := "sandstone";
    a[x, y, z] := "sandstone";
    a[x, y + 1, z] := "sandstone";
    a[x, y + 2, z] := "sandstone";
  }

  /** The "speckle" case: one block on a non-empty cell; the source indexes the buffer unguarded in x and z. */
  method Speckle(a: array3<string>, b: Coord, c: Config)
    requires IsBuffer(a)
    requires b.y >= 1 ==> InChunk(b)
    modifies a
    ensures forall i, j, l :: 0 <= i < ChunkSize && 0 <= j < ChunkSize && 0 <= l < ChunkSize ==>
      a[i, j, l] == SpeckleStamp(b, old(BelowOf(a, b)), c, Coord(i, j, l), old(a[i, j, l]))
  {
    if b.y < 1 { return; }
    if a[b.x, b.y - 1, b.z] == "" { return; }
    a[b.x, b.y, b.z] := BlockOr(c, "short_grass");
  }

  /** One iteration of the innermost loop: the cell at offset (x, y, z). */
  method PatchCell(a: array3<string>, b: Coord, c: Config, x: int, y: int, z: int)
    requires IsBuffer(a) && PatchGuard(b, PatchRadius(c))
    requires InPatchBox(Coord(x, y, z), PatchRadius(c))
    modifies a
    ensures forall i, j, l :: 0 <= i < ChunkSize && 0 <= j < ChunkSize && 0 <= l < ChunkSize ==>
      a[i, j, l] == (if Coord(i, j, l) == Coord(x + b.x, y + b.y, z + b.z) && PatchWrites(c, Coord(x, y, z), old(a[i, j, l]))
                     then BlockOr(c, "stone") else old(a[i, j, l]))
  {
    var radius := PatchRadius(c);
    var rule := ReplaceRule(c);
    var rX, rY, rZ := x + b.x, y + b.y, z + b.z;
    var skip := if rule.NonEmpty? then a[rX, rY, rZ] == "" else a[rX, rY, rZ] != rule.block;
    if !skip && !(SphereOn(c) && x * x + y * y + z * z > radius * radius) {
      a[rX, rY, rZ] := BlockOr(c, "stone");
    }
  }

  /** The innermost loop of the patch: offsets (x, y, -r) .. (x, y, r - 1). */
  method PatchRow(a: array3<string>, b: Coord, c: Config, x: int, y: int)
    requires IsBuffer(a) && PatchGuard(b, PatchRadius(c))
    requires -PatchRadius(c) <= x < PatchRadius(c) && -PatchRadius(c) <= y < PatchRadius(c)
    modifies a
    ensures forall i, j, l :: 0 <= i < ChunkSize && 0 <= j < ChunkSize && 0 <= l < ChunkSize ==>
      a[i, j, l] == (if i == x + b.x && j == y + b.y && -PatchRadius(c) <= l - b.z < PatchRadius(c)
                        && PatchWrites(c, Offset(Coord(i, j, l), b), old(a[i, j, l]))
                     then BlockOr(c, "stone") else old(a[i, j, l]))
  {
    var radius := PatchRadius(c);
    var z := -radius;
    while z < radius
      invariant -radius <= z <= radius
      invariant forall i, j, l :: 0 <= i < ChunkSize && 0 <= j < ChunkSize && 0 <= l < ChunkSize ==>
        a[i, j, l] == (if i == x + b.x && j == y + b.y && -radius <= l - b.z < z
                          && PatchWrites(c, Offset(Coord(i, j, l), b), old(a[i, j, l]))
                       then BlockOr(c, "stone") else old(a[i, j, l]))
    {
      PatchCell(a, b, c, x, y, z);
      z := z + 1;
    }
  }

  /** The middle loop of the patch: rows y = -r .. r - 1 at a fixed x. */
  method PatchSlab(a: array3<string>, b: Coord, c: Config, x: int)
    requires IsBuffer(a) && PatchGuard(b, PatchRadius(c))
    requires -PatchRadius(c) <= x < PatchRadius(c)
    modifies a
    ensures forall i, j, l :: 0 <= i < ChunkSize && 0 <= j < ChunkSize && 0 <= l < ChunkSize ==>
      a[i, j, l] == (if i == x + b.x && -PatchRadius(c) <= j - b.y < PatchRadius(c) && -PatchRadius(c) <= l - b.z < PatchRadius(c)
                        && PatchWrites(c, Offset(Coord(i, j, l), b), old(a[i, j, l]))
                     then BlockOr(c, "stone") else old(a[i, j, l]))
  {
    var radius := PatchRadius(c);
    var y := -radius;
    while y < radius
      invariant -radius <= y <= radius
      invariant forall i, j, l :: 0 <= i < ChunkSize && 0 <= j < ChunkSize && 0 <= l < ChunkSize ==>
        a[i, j, l] == (if i == x + b.x && -radius <= j - b.y < y && -radius <= l - b.z < radius
                          && PatchWrites(c, Offset(Coord(i, j, l), b), old(a[i, j, l]))
                       then BlockOr(c, "stone") else old(a[i, j, l]))
    {
      PatchRow(a, b, c, x, y);
      y := y + 1;
    }
  }

  /** The "patch" case: the defaults, the guard, then every offset of [-r, r)^3 in x, y, z order. */
  method Patch(a: array3<string>, b: Coord, c: Config)
    requires IsBuffer(a)
    modifies a
    ensures forall i, j, l :: 0 <= i < ChunkSize && 0 <= j < ChunkSize && 0 <= l < ChunkSize ==>
      a[i, j, l] == PatchStamp(b, c, Coord(i, j, l), old(a[i, j, l]))
  {
    var radius := PatchRadius(c);
    if b.x < radius || b.x > 14 - radius { return; }
    if b.y < radius || b.y > 14 - radius { return; }
    if b.z < radius || b.z > 14 - radius { return; }
    var x := -radius;
    while x < radius
      invariant x == -radius || -radius <= x <= radius
      invariant forall i, j, l :: 0 <= i < ChunkSize && 0 <= j < ChunkSize && 0 <= l < ChunkSize ==>
        a[i, j, l] == (if -radius <= i - b.x < x && -radius <= j - b.y < radius && -radius <= l - b.z < radius
                          && PatchWrites(c, Offset(Coord(i, j, l), b), old(a[i, j, l]))
                       then BlockOr(c, "stone") else old(a[i, j, l]))
    {
      PatchSlab(a, b, c, x);
      x := x + 1;
    }
  }

  // --- the dispatch -----------------------------------------------------------

  /**
   * `generateFeature(feature, chunk, basePosition, config, prng)`: the stamp of the named feature,
   * and the draws it took from the stream; an unrecognised name changes nothing.
   */
  method GenerateFeature(name: string, a: array3<string>, b: Coord, c: Config, s: Stream, k: nat) returns (k': nat)
    requires IsBuffer(a)
    requires name == "speckle" && b.y >= 1 ==> InChunk(b)
    modifies a
    ensures forall i, j, l :: 0 <= i < ChunkSize && 0 <= j < ChunkSize && 0 <= l < ChunkSize ==>
      a[i, j, l] == Stamp(name, c, b, old(BelowOf(a, b)), s, k, Coord(i, j, l), old(a[i, j, l]))
    ensures k' == k + Draws(name, b, old(BelowOf(a, b)))
    ensures Contents(a) == StampChunk(name, c, b, s, k, old(Contents(a)))
  {
    ghost var before := Contents(a);
    assert BelowOf(a, b) == BelowIn(before, b);
    k' := k;
    match name {
      case "tree" => k' := Tree(a, b, s, k);
      case "temple" => Temple(a, b);
      case "speckle" => Speckle(a, b, c);
      case "patch" => Patch(a, b, c);
      case _ =>
    }
    StampedContents(a, before, name, c, b, s, k);
  }

  /** The cell under the origin in a chunk value, "" when it lies outside the chunk. */
  function BelowIn(ch: Chunk, b: Coord): string
  {
    if InChunk(Coord(b.x, b.y - 1, b.z)) then ch[b.x][b.y - 1][b.z] else ""
  }

  /** `generateFeature` on a chunk value: every cell becomes the stamp of its old value. */
  function StampChunk(name: string, c: Config, b: Coord, s: Stream, k: nat, ch: Chunk): (r: Chunk)
    ensures forall i, j, l :: 0 <= i < ChunkSize && 0 <= j < ChunkSize && 0 <= l < ChunkSize ==>
      r[i][j][l] == Stamp(name, c, b, BelowIn(ch, b), s, k, Coord(i, j, l), ch[i][j][l])
  {
    var below := BelowIn(ch, b);
    seq(ChunkSize, i requires 0 <= i < ChunkSize =>
      seq(ChunkSize, j requires 0 <= j < ChunkSize =>
        seq(ChunkSize, l requires 0 <= l < ChunkSize => Stamp(name, c, b, below, s, k, Coord(i, j, l), ch[i][j][l]))))
  }

  /** The dispatch on the buffer is the stamp of the chunk value it held. */
  lemma StampedContents(a: array3<string>, before: Chunk, name: string, c: Config, b: Coord, s: Stream, k: nat)
    requires IsBuffer(a)
    requires forall i, j, l :: 0 <= i < ChunkSize && 0 <= j < ChunkSize && 0 <= l < ChunkSize ==>
      a[i, j, l] == Stamp(name, c, b, BelowIn(before, b), s, k, Coord(i, j, l), before[i][j][l])
    ensures Contents(a) == StampChunk(name, c, b, s, k, before)
  {
    ChunkExt(Contents(a), StampChunk(name, c, b, s, k, before));
  }

  // --- what each stamp may write ------------------------------------------------

  predicate InBox(p: Coord, lo: Coord, hi: Coord)
  {
    lo.x <= p.x <= hi.x && lo.y <= p.y <= hi.y && lo.z <= p.z <= hi.z
  }

  /**
   * A tree changes only cells of [x-1, x+1] x [y, y+4] x [z-1, z+1], all inside the buffer; a
   * placed tree has a wood trunk from y to y+3 and leaves at y+4 on the trunk's column; a
   * rejected tree changes nothing.
   */
  lemma TreeFootprint(b: Coord, below: string, s: Stream, k: nat, p: Coord, v: string)
    ensures TreeStamp(b, below, s, k, p, v) != v ==>
      TreePlaced(b, below) && InChunk(p) && InBox(p, Coord(b.x - 1, b.y, b.z - 1), Coord(b.x + 1, b.y + 4, b.z + 1))
    ensures TreePlaced(b, below) && p.x == b.x && p.z == b.z && b.y <= p.y <= b.y + 3 ==> TreeStamp(b, below, s, k, p, v) == "wood"
    ensures TreePlaced(b, below) && p == Coord(b.x, b.y + 4, b.z) ==> TreeStamp(b, below, s, k, p, v) == "leaves"
    ensures TreeStamp(b, below, s, k, p, v) in {v, "wood", "leaves"}
  {
  }

  /**
   * A temple writes only sandstone, only in [x-1, x+1] x [y-1, y+2] x [z-1, z+1] inside the
   * buffer, and never on the centre column (x, _, z).
   */
  lemma TempleFootprint(b: Coord, p: Coord, v: string)
    ensures TempleStamp(b, p, v) != v ==>
      StructureGuard(b) && InChunk(p) && InBox(p, Coord(b.x - 1, b.y - 1, b.z - 1), Coord(b.x + 1, b.y + 2, b.z + 1))
      && (p.x != b.x || p.z != b.z) && TempleStamp(b, p, v) == "sandstone"
  {
  }

  /** A speckle changes at most the origin cell, to the configured block or short grass. */
  lemma SpeckleFootprint(b: Coord, below: string, c: Config, p: Coord, v: string)
    ensures SpeckleStamp(b, below, c, p, v) != v ==> p == b && b.y >= 1 && below != ""
    ensures SpecklePlaced(b, below) ==> SpeckleStamp(b, below, c, b, v) == BlockOr(c, "short_grass")
  {
  }

  /**
   * A patch changes only cells of [b-r, b+r) on each axis, r the radius (plus one for a sphere);
   * the guard keeps every such cell in 0..13; only cells the replace rule admits change, and a
   * sphere leaves the cells with x^2+y^2+z^2 > r^2 alone.
   */
  lemma PatchFootprint(b: Coord, c: Config, p: Coord, v: string)
    ensures var r := PatchRadius(c); var d := Offset(p, b);
      PatchStamp(b, c, p, v) != v ==>
        && InPatchBox(d, r)
        && 0 <= p.x <= 13 && 0 <= p.y <= 13 && 0 <= p.z <= 13
        && (ReplaceRule(c).NonEmpty? ==> v != "")
        && (ReplaceRule(c).Exactly? ==> v == ReplaceRule(c).block)
        && (SphereOn(c) ==> d.x * d.x + d.y * d.y + d.z * d.z <= r * r)
        && PatchStamp(b, c, p, v) == BlockOr(c, "stone")
  {
  }

  /** A name that is none of the four cases changes nothing and draws nothing. */
  lemma UnknownFeature(name: string, c: Config, b: Coord, below: string, s: Stream, k: nat, p: Coord, v: string)
    requires name !in {"tree", "temple", "speckle", "patch"}
    ensures Stamp(name, c, b, below, s, k, p, v) == v && Draws(name, b, below) == 0
  {
  }
}
