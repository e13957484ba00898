/**
 * The older feature stamping of src/features.ts: the same dispatch without a random stream and
 * without a "speckle" case. Its tree is smaller (trunk, four leaves around the trunk top and one
 * above it); its temple and patch cases are the same code as the newer ones and are shared with
 * the Features module.
 */
module OldFeatures {
  import opened Addressing
  import opened Chunks
  import opened Features

  /** The older tree: a wood trunk of four cells, four leaves around its top at y + 3 and one at y + 4. */
  function OldTreeCell(b: Coord, p: Coord, v: string): string
  {
    var d := Offset(p, b);
    if d.x == 0 && d.z == 0 && 0 <= d.y <= 3 then "wood"
    else if d.y == 3 && Abs(d.x) + Abs(d.z) == 1 then "leaves"
    else if d.y == 4 && d.x == 0 && d.z == 0 then "leaves"
    else v
  }

  function OldTreeStamp(b: Coord, below: string, p: Coord, v: string): string
  {
    if TreePlaced(b, below) then OldTreeCell(b, p, v) else v
  }

  /** The five cells the older tree turns into leaves. */
  function OldLeaves(b: Coord): set<Coord>
  {
    {Coord(b.x + 1, b.y + 3, b.z), Coord(b.x - 1, b.y + 3, b.z), Coord(b.x, b.y + 3, b.z + 1),
     Coord(b.x, b.y + 3, b.z - 1), Coord(b.x, b.y + 4, b.z)}
  }

  /** The new value of cell p for each feature name of the older dispatch. */
  function OldStamp(name: string, c: Config, b: Coord, below: string, p: Coord, v: string): string
  {
    match name
    case "tree" => OldTreeStamp(b, below, p, v)
    case "temple" => TempleStamp(b, p, v)
    case "patch" => PatchStamp(b, c, p, v)
    case _ => v
  }

  /** The "tree" case: the guards, four wood cells, then five leaves. */
  method OldTree(a: array3<string>, b: Coord)
    requires IsBuffer(a)
    modifies a
    ensures forall i, j, l :: 0 <= i < ChunkSize && 0 <= j < ChunkSize && 0 <= l < ChunkSize ==>
      a[i, j, l] == OldTreeStamp(b, old(BelowOf(a, b)), Coord(i, j, l), old(a[i, j, l]))
  {
    if b.x < 1 || b.x > 14 { return; }
    if b.y < 1 || b.y > 10 { return; }
    if b.z < 1 || b.z > 14 { return; }
    if a[b.x, b.y - 1, b.z] == "" { return; }
    ghost var a0 := Contents(a);
    Trunk(a, b);
    OldCrown(a, b);
    forall i, j, l | 0 <= i < ChunkSize && 0 <= j < ChunkSize && 0 <= l < ChunkSize
      ensures a[i, j, l] == OldTreeCell(b, Coord(i, j, l), a0[i][j][l])
    {
      OldTreeGroups(b, Coord(i, j, l), a0[i][j][l]);
    }
  }

  /** The five leaves of the older tree. */
  method OldCrown(a: array3<string>, b: Coord)
    requires IsBuffer(a) && StructureGuard(b)
    modifies a
    ensures forall i, j, l :: 0 <= i < ChunkSize && 0 <= j < ChunkSize && 0 <= l < ChunkSize ==>
      a[i, j, l] == if Coord(i, j, l) in OldLeaves(b) then "leaves" else old(a[i, j, l])
  {
    var x, y, z := b.x, b.y, b.z;
    a[x + 1, y + 3, z] := "leaves";
    a[x - 1, y + 3, z] := "leaves";
    a[x, y + 3, z + 1] := "leaves";
    a[x, y + 3, z - 1] := "leaves";
    a[x, y + 4, z] := "leaves";
  }

  /** The older tree is the trunk followed by the five leaves, which lie off the trunk. */
  lemma OldTreeGroups(b: Coord, p: Coord, v: string)
    ensures OldTreeCell(b, p, v) == if p in OldLeaves(b) then "leaves" else TrunkCell(b, p, v)
  {
  }

  /** `generateFeature(feature, chunk, basePosition, config)` of the older file: no stream is consumed. */
  method GenerateFeature(name: string, a: array3<string>, b: Coord, c: Config)
    requires IsBuffer(a)
    modifies a
    ensures forall i, j, l :: 0 <= i < ChunkSize && 0 <= j < ChunkSize && 0 <= l < ChunkSize ==>
      a[i, j, l] == OldStamp(name, c, b, old(BelowOf(a, b)), Coord(i, j, l), old(a[i, j, l]))
  {
    match name
    case "tree" => OldTree(a, b);
    case "temple" => Temple(a, b);
    case "patch" => Patch(a, b, c);
    case _ =>
  }

  /**
   * The older tree changes only cells of [x-1, x+1] x [y, y+4] x [z-1, z+1] inside the buffer: the
   * trunk becomes wood and the five cells of OldLeaves, and no others, become leaves, and nothing changes when it is rejected.
   */
  lemma OldTreeFootprint(b: Coord, below: string, p: Coord, v: string)
    ensures OldTreeStamp(b, below, p, v) != v ==>
      TreePlaced(b, below) && InChunk(p) && InBox(p, Coord(b.x - 1, b.y, b.z - 1), Coord(b.x + 1, b.y + 4, b.z + 1))
    ensures TreePlaced(b, below) && p.x == b.x && p.z == b.z && b.y <= p.y <= b.y + 3 ==> OldTreeStamp(b, below, p, v) == "wood"
    ensures TreePlaced(b, below) && p in OldLeaves(b) ==> OldTreeStamp(b, below, p, v) == "leaves"
    ensures OldTreeStamp(b, below, p, v) != v && !(p.x == b.x && p.z == b.z && b.y <= p.y <= b.y + 3) ==> p in OldLeaves(b)
  {
  }

  /** The older dispatch agrees with the newer one on temples and patches, and has no speckle. */
  lemma SameAsNewer(c: Config, b: Coord, below: string, s: Stream, k: nat, p: Coord, v: string)
    ensures OldStamp("temple", c, b, below, p, v) == Stamp("temple", c, b, below, s, k, p, v)
    ensures OldStamp("patch", c, b, below, p, v) == Stamp("patch", c, b, below, s, k, p, v)
    ensures OldStamp("speckle", c, b, below, p, v) == v
  {
  }
}
