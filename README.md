# afterthought: the block-data layer, in Dafny

afterthought is a voxel sandbox game. Its world is made of chunks of 16 x 16 x 16 cells. Each
cell holds a block id (a string, `""` for air), and each chunk is stored under the canonical name
`"cx|cy|cz"`. This project models that block-data layer and proves properties about it:

- **Addressing** (`addressing.dfy`, module `Addressing`).
  - `mod` is modelled on JavaScript's truncating `%`.
  - The global ↔ chunk/local split is proved to be a round trip.
  - Chunk names are built with `|`, parsed back with `split` and `parseInt`, and proved to round-trip.
- **Chunk values** (`chunks.dfy`, module `Chunks`): a 16³ chunk as nested sequences, plus the `x`/`y`/`z` visiting order of the three nested loops.
- **Neighbour lookup across chunk edges** (`utils.dfy`, module `ServerUtils`): `getBlockFromChunk` on the server. A missing chunk reads as air.
- **Feature stamping** (`features.dfy`, module `Features`; `oldfeatures.dfy`, module `OldFeatures`).
  - Trees, temples, speckles and cube/sphere patches are written in place into a 16³ buffer (`array3<string>`).
  - The tree's random leaves draw from an abstract random stream.
  - The older client copy has no stream and no speckle.
- **Block rules** (`blocks.dfy`, module `Blocks`): the random grass/dirt tick and the support check that removes floating short grass and short cactus.
- **Authoritative chunk store** (`serverworld.dfy`, module `ServerWorld`): class `World`.
  - Chunks are generated lazily and at most once.
  - get / set / remove a block, followed by the seven-position support pass.
  - The `setChunk` fan-out to listeners.
- **Terrain generation skeleton** (`biomes.dfy`, module `Biomes`).
  - The air fill, the `runPass` iteration, the layer walk and the first-feature-wins walk.
  - Noise, heights, cave tests and random draws are abstract inputs.
- **Older client world** (`clientworld.dfy`, module `ClientWorld`): class `World`.
  - The tile-by-depth rule.
  - The recursive edge lookup that generates neighbour chunks on demand.
  - The mesher's per-type count and its choice of visible blocks.
  - Unloading a chunk, and the load/unload window around the player.
- **Server entry point** (`servermain.dfy`, module `ServerMain`).
  - The `Server` facade, including the seven-chunk `buildMesh` gather.
  - The socket endpoint: the connection list, command dispatch, replies and broadcasts.
- **Client link** (`client.dfy`, module `ClientLink`): packet ids, the callback table, and routing of each incoming message to a callback or to the event listeners.

`wrappers.dfy` holds the `Option`/`Result` datatypes.

Helpers that the code imports from `constants.ts` but that are absent from it are defined here as
assumptions:

- `getChunkFromPosition` = floor(g / 16) on each axis;
- `getLocalPosition` = `mod(g, 16)`;
- `createChunkName` joins with `|`;
- `getChunkPosition` = `split("|")` followed by `parseInt`;
- `getBlockFromChunks` reads `""` for a chunk that was never generated.

## Model

| member | source | states |
|---|---|---|
| `Addressing.JsRem` | src/constants.ts:6 | JavaScript `%`: the remainder has the sign of the dividend, its magnitude is below \|m\|, and n = trunc(n/m)·m + r |
| `Addressing.Mod` | src/constants.ts:5-7 | `((n % m) + m) % m` lies in [0, m) for m > 0 and in (m, 0] for m < 0 |
| `Addressing.ModIsEuclidean` | src/constants.ts:5-7 | for m > 0, `mod(n, m)` is the Euclidean remainder of n by m, negative n included |
| `Addressing.ModNegated` | src/constants.ts:5-7 | for m < 0, mod(n, m) == −mod(−n, −m): the result takes the sign of m |
| `Addressing.NegativeModulusDiffers` | src/constants.ts:5-7 | for a negative modulus `mod` is not the Euclidean remainder: mod(5, −3) = −1 while 5 % −3 = 2 |
| `Addressing.ModDifferenceDivisible` | src/constants.ts:5-7 | n − mod(n, m) is a multiple of m, for every m ≠ 0 |
| `Addressing.ModOfSmall` | src/constants.ts:5-7 | mod(n, m) == n when 0 ≤ n < m |
| `Addressing.ModIdempotent` | src/constants.ts:5-7 | mod(mod(n, m), m) == mod(n, m), for every m ≠ 0 |
| `Addressing.ModPeriodic` | src/constants.ts:5-7 | mod(n + k·m, m) == mod(n, m), for every m ≠ 0 |
| `Addressing.ChunkCoord` | src/server/world.ts:30 | the chunk coordinate c of a global g satisfies 16c ≤ g < 16c + 16 (floor division) |
| `Addressing.LocalCoord` | src/server/world.ts:31 | the local coordinate `mod(g, 16)` lies in 0..15 |
| `Addressing.RoundTrip` | src/constants.ts:5-7 | floor(g/16)·16 + mod(g, 16) == g for every integer g, including negative g |
| `Addressing.SplitOfJoin` | src/constants.ts:5-7 | a chunk coordinate and a local coordinate in 0..15 are recovered from the global they make |
| `Addressing.NatToString` | src/server/utils.ts:35 | a natural number prints as a non-empty run of decimal digits |
| `Addressing.IntToString` | src/server/utils.ts:35 | an integer prints as a non-empty string without `\|`, so it is safe between separators |
| `Addressing.DigitPrefix` | src/server/utils.ts:8 | what `parseInt` reads is a prefix of the text made only of digits of its radix |
| `Addressing.TrimStart` | src/server/utils.ts:8 | `parseInt` drops leading white space and never lengthens the text |
| `Addressing.ParseInt` | src/server/utils.ts:8 | `parseInt` of blank text is NaN, and a negative result needs a `-` as the first character after the white space |
| `Addressing.NatToStringValue` | src/server/utils.ts:8-35 | the printed digits of n have decimal value n |
| `Addressing.DigitPrefixOfDigits` | src/server/utils.ts:8 | on an all-digit string the digit prefix is the whole string |
| `Addressing.UnsignedDigits` | src/server/utils.ts:8 | a non-empty digit string parses to its decimal value |
| `Addressing.NoLeadingSpace` | src/server/utils.ts:8 | a string starting with a digit or `-` is not trimmed |
| `Addressing.ParseIntOfNat` | src/server/utils.ts:8-35 | `parseInt` of a printed natural gives it back |
| `Addressing.ParseIntOfNegative` | src/server/utils.ts:8-35 | `parseInt` of `-` plus printed digits gives the negative number back |
| `Addressing.ParseIntOfString` | src/server/utils.ts:8-35 | `parseInt(String(i)) == i` for every mathematical integer i; in the source only below 2^53 in magnitude (see Left out) |
| `Addressing.Split` | src/server/utils.ts:8 | `split` returns at least one part |
| `Addressing.SplitNoSep` | src/server/utils.ts:8 | a string without the separator splits into itself alone |
| `Addressing.SplitJoin` | src/server/utils.ts:8 | `split(a + sep + b)` is `a` followed by the parts of b, when a has no separator |
| `Addressing.ParseChunkName` | src/server/utils.ts:8 | a name parses to a coordinate exactly when all three parts are numbers, and then to those numbers |
| `Addressing.ParseChunkNameOfName` | src/server/utils.ts:8-35 | parsing the name built from a coordinate gives that coordinate back, for mathematical integers (see Left out) |
| `Addressing.ChunkNameInjective` | src/world.ts:22 | two coordinates have the same `"cx\|cy\|cz"` name if and only if they are equal |
| `Addressing.LocalOf` | src/server/world.ts:31 | every local position lies in 0..15 on each axis |
| `Addressing.SlotsDistinct` | src/server/world.ts:30-31 | two global positions are equal if and only if they have the same chunk name and the same local position |
| `Addressing.AddressOfGlobal` | src/server/biomes.ts:297-299 | the global of (chunk c, local l in 0..15) lies in chunk c at local l |
| `Chunks.AirChunk` | src/server/biomes.ts:148-159 | a fresh chunk is 16 x 16 x 16 with every cell `""` |
| `Chunks.SetCell` | src/server/world.ts:57 | a chunk write sets the named cell and keeps every other cell |
| `Chunks.BlockAt` | src/server/blocks.ts:17-34 | `getBlockFromChunks`: a position whose chunk was never generated reads as air |
| `Chunks.Put` | src/server/world.ts:57 | writing a global position changes only the block read at that position and keeps the chunk names |
| `Chunks.IndexOfLocal` | src/server/biomes.ts:290-292 | the loop index of a local cell lies in 0..4095 and gives the cell back |
| `Chunks.LocalOfIndex` | src/server/biomes.ts:290-292 | each loop index 0..4095 names a local cell whose index is itself |
| `ServerUtils.Wrap` | src/server/utils.ts:10-33 | an adjusted coordinate is always a valid index 0..15, and only −1 and 16 are changed |
| `ServerUtils.AxisStep` | src/server/utils.ts:10-17 | one axis adjustment (chunk ± 1, coordinate to 15 or 0) keeps the global position |
| `ServerUtils.Adjusted` | src/server/utils.ts:10-35 | the rebuilt name and the adjusted coordinates are the chunk and local position of the global cell; axes are adjusted independently, so edge and corner neighbours are reached |
| `ServerUtils.GetBlockFromChunk` | src/server/utils.ts:1-42 | for a well-formed name, the result is the block at the global position the name and offsets denote, or `""` when that chunk is absent; the argument record is a value, so it is never modified |
| `ServerUtils.InsideChunk` | src/server/utils.ts:35-41 | with x, y, z in 0..15 and the chunk present, the result is that chunk's cell [x][y][z] |
| `ServerUtils.SameGlobal` | src/server/utils.ts:10-41 | two (name, offset) pairs that denote the same global position read the same block |
| `ServerUtils.EdgeCrossingX` | src/server/utils.ts:10-17 | x = −1 reads x = 15 of chunk cx − 1; x = 16 reads x = 0 of chunk cx + 1 |
| `ServerUtils.EdgeCrossingY` | src/server/utils.ts:18-25 | y = −1 reads y = 15 of chunk cy − 1; y = 16 reads y = 0 of chunk cy + 1 |
| `ServerUtils.EdgeCrossingZ` | src/server/utils.ts:26-33 | z = −1 reads z = 15 of chunk cz − 1; z = 16 reads z = 0 of chunk cz + 1 |
| `ServerUtils.MissingChunkReadsAir` | src/server/utils.ts:37-39 | when the resolved chunk is absent the result is `""`, with no error |
| `Features.Contents` | src/server/features.ts:1-7 | the buffer read as nested sequences holds the buffer's cells |
| `Features.TreeGroups` | src/server/features.ts:18-47 | the tree's five write groups, applied in source order, give the tree's cell rule |
| `Features.Trunk` | src/server/features.ts:18-21 | the four trunk cells (x, y..y+3, z) become wood and nothing else changes |
| `Features.Corners` | src/server/features.ts:24-27 | each corner leaf at y + 2 is written exactly when its draw is below 0.5 |
| `Features.Ring` | src/server/features.ts:29-32 | the four edge leaves at y + 2 are written |
| `Features.Crown` | src/server/features.ts:34-41 | the eight leaves around the trunk top at y + 3 are written |
| `Features.CrownSide` | src/server/features.ts:34-39 | the crown's three leaves in one side column are written |
| `Features.Top` | src/server/features.ts:43-47 | the plus of five leaves at y + 4 is written |
| `Features.Tree` | src/server/features.ts:9-50 | the buffer becomes the tree stamp of its old contents (unchanged when the guards or the empty cell below reject it), and exactly four draws are taken when placed, none otherwise |
| `Features.Temple` | src/server/features.ts:51-84 | the buffer becomes the temple stamp of its old contents under the same guards as the tree |
| `Features.Pillar` | src/server/features.ts:58-76 | one corner pillar's four cells from y − 1 to y + 2 become sandstone |
| `Features.Speckle` | src/server/features.ts:86-98 | the origin cell becomes the configured block or short grass when y ≥ 1 and the cell below is not air; otherwise nothing changes |
| `Features.PatchCell` | src/server/features.ts:117-130 | one visited cell is overwritten exactly when the replace rule admits its old value and, for a sphere, it lies within the radius |
| `Features.PatchRow` | src/server/features.ts:116-131 | the innermost loop applies the cell rule to the offsets (x, y, −r..r−1) |
| `Features.PatchSlab` | src/server/features.ts:115-132 | the middle loop applies the cell rule to every offset (x, −r..r−1, −r..r−1) |
| `Features.Patch` | src/server/features.ts:100-136 | the buffer becomes the patch stamp of its old contents: defaults, radius + 1 for a sphere, the guard, and the cube [−r, r)³ |
| `Features.GenerateFeature` | src/server/features.ts:1-138 | the buffer becomes the named feature's stamp of its old contents, with the draws that feature takes; an unknown name changes nothing |
| `Features.StampChunk` | src/server/features.ts:1-138 | on a chunk value, each cell becomes the named feature's stamp of its old value |
| `Features.StampedContents` | src/server/features.ts:1-138 | a buffer stamped cell by cell holds the stamp of the chunk value it held before |
| `Features.TreeFootprint` | src/server/features.ts:10-47 | a tree changes only cells of [x−1,x+1]×[y,y+4]×[z−1,z+1], all inside 16³, and only when placed; the trunk becomes wood, the cell above it leaves, and no other block is written |
| `Features.TempleFootprint` | src/server/features.ts:52-81 | a temple writes only sandstone, only within [x−1,x+1]×[y−1,y+2]×[z−1,z+1] inside 16³, and never on the centre column |
| `Features.SpeckleFootprint` | src/server/features.ts:87-95 | a speckle changes at most the origin cell, only when y ≥ 1 and the cell below is not air, and then to the configured block or short grass |
| `Features.PatchFootprint` | src/server/features.ts:101-130 | a patch changes only cells within [b−r, b+r) on each axis, all in 0..13; a string replace overwrites only that block, the default overwrites only non-air cells, and a sphere skips x²+y²+z² > r² |
| `Features.UnknownFeature` | src/server/features.ts:8-137 | an unrecognised feature name changes nothing and takes no draw |
| `OldFeatures.OldTree` | src/features.ts:3-24 | the buffer becomes the older tree stamp: same guards, a wood trunk, and five fixed leaves |
| `OldFeatures.OldCrown` | src/features.ts:17-21 | exactly the five fixed leaf cells become leaves |
| `OldFeatures.OldTreeGroups` | src/features.ts:12-21 | the older tree is the trunk followed by the five leaves |
| `OldFeatures.GenerateFeature` | src/features.ts:1-92 | the buffer becomes the older stamp of the named feature; deterministic, with no random stream |
| `OldFeatures.OldTreeFootprint` | src/features.ts:4-21 | the older tree writes only inside the buffer, only when placed, wood on the trunk and leaves on the five fixed cells |
| `OldFeatures.SameAsNewer` | src/features.ts:25-90 | the older temple and patch equal the server versions cell for cell, and `"speckle"` changes nothing |
| `Blocks.WriteGlobalIndex` | src/server/blocks.ts:42 | indexing a chunk with global coordinates fails unless the chunk exists and x, y lie in 0..15; a z out of range leaves every cell 0..15 as it was (see Left out for what it does to the row) |
| `Blocks.RandomBlockTickAsWritten` | src/server/blocks.ts:10-60 | as written, the tick throws only on covered grass; otherwise it keeps the chunk names and returns `[]` or `[chunkName]` |
| `Blocks.RandomBlockTick` | src/server/blocks.ts:10-60 | covered grass becomes dirt; on a roll ≤ 0.01, uncovered dirt next to grass becomes grass; exactly then `[chunkName]` is returned, no other cell changes, and otherwise nothing changes and `[]` is returned |
| `Blocks.DirtNeverSpreads` | src/server/blocks.ts:20-24 | as written, the dirt case re-reads its own (non-empty) cell, so dirt is never changed and `[]` is returned |
| `Blocks.DirtSpreadsWhenCorrected` | src/server/blocks.ts:20-46 | uncovered dirt beside grass on a low roll becomes grass in the corrected tick, while the tick as written leaves it |
| `Blocks.GrassTickThrowsAsWritten` | src/server/blocks.ts:48-54 | as written, covered grass whose global x or y lies outside 0..15 makes the tick throw; the corrected tick turns it into dirt |
| `Blocks.GrassTickStrayAsWritten` | src/server/blocks.ts:48-54 | as written, covered grass with global x, y in 0..15 but z outside changes no cell 0..15 and still reports its chunk dirty |
| `Blocks.GrassTickInOrigin` | src/server/blocks.ts:48-54 | inside chunk 0\|0\|0, where global and local coordinates agree, the grass case as written equals the corrected tick |
| `Blocks.BlockUpdateAsWritten` | src/server/blocks.ts:62-69 | as written, `blockUpdate` throws exactly when the position's chunk was never generated |
| `Blocks.BlockUpdate` | src/server/blocks.ts:62-95 | short grass or short cactus with air below becomes air and `[chunkName]` is returned, exactly then; otherwise nothing changes and `[]` is returned; no other cell ever changes |
| `Blocks.UpdateIgnoresOthers` | src/server/blocks.ts:71-94 | a block other than short grass or short cactus is never touched |
| `Blocks.UpdatePassAsWritten` | src/server/world.ts:115-123 | when the pass as written completes, it keeps the chunk names and every dirty entry names an existing chunk |
| `Blocks.UpdatePass` | src/server/world.ts:115-123 | the support pass with a missing chunk read as air keeps the chunk names, and every dirty entry names an existing chunk |
| `Blocks.PassesAgree` | src/server/world.ts:115-123 | when every visited chunk exists, the pass as written succeeds and equals the corrected pass |
| `Blocks.PassThrowsOnMissingChunk` | src/server/world.ts:115-123 | as written, the pass throws when any of its positions lies in a chunk that was never generated, because the positions before it add no chunk |
| `Blocks.PassLocal` | src/server/blocks.ts:76-88 | the pass changes no position outside its list |
| `ServerWorld.WithChunk` | src/server/world.ts:21-27 | after `generateTerrain` the name is present, existing chunks are kept, and a new name holds the generated chunk |
| `ServerWorld.GenerateOnce` | src/server/world.ts:21-27 | generation is idempotent, a no-op on a present name, and commutes between names, so each chunk is generated at most once |
| `ServerWorld.Neighbourhood` | src/server/world.ts:105-113 | the seven positions are the target first, then exactly the cells sharing a face with it |
| `ServerWorld.NeighboursAreOthers` | src/server/world.ts:105-113 | the six positions after the first are the face neighbours, none equal to the target |
| `ServerWorld.AfterSet` | src/server/world.ts:51-62 | after `setBlock`, with a missing chunk read as air, the store has the target's chunk added to the old names, and every dirty entry names a stored chunk |
| `ServerWorld.AfterSetAsWritten` | src/server/world.ts:51-62 | when `setBlock` as written completes, the store has the target's chunk added to the old names |
| `ServerWorld.SetAgreesWhenNeighboursExist` | src/server/world.ts:51-62 | when the chunks of all six face neighbours exist, `setBlock` as written succeeds and equals the model |
| `ServerWorld.SetThrowsUnderMissingChunk` | src/server/world.ts:51-62 | as written, `setBlock` at local y = 15 throws when the chunk above was never generated |
| `ServerWorld.FanOut` | src/server/world.ts:125-133 | every delivered event goes to a registered listener, names a dirty chunk and carries that chunk's stored contents |
| `ServerWorld.FanOutLength` | src/server/world.ts:125-133 | listeners receive one event per dirty entry each, duplicates included |
| `ServerWorld.FanOutAt` | src/server/world.ts:125-133 | the event for dirty entry i and listener j sits at position i·L + j and carries that chunk: entries in order, listeners in registration order |
| `ServerWorld.SetThenGet` | src/server/world.ts:51-62 | after `setBlock(p, b)` the block at p is b, or air when b needs support and the block below is air |
| `ServerWorld.SetIsLocal` | src/server/world.ts:105-123 | a set changes no position other than the target and its six face neighbours |
| `ServerWorld.PassConcat` | src/server/world.ts:115-123 | the pass over two lists is the second pass on the result of the first |
| `ServerWorld.FirstPassLeavesFloatingGrass` | src/server/world.ts:105-123 | short grass on short grass over air survives one pass: only the lower one is removed |
| `ServerWorld.SetBlockTwiceDiffers` | src/server/world.ts:51-62 | setting the same block twice need not equal setting it once, so `setBlock` is not idempotent |
| `ServerWorld.World.constructor` | src/server/world.ts:9-19 | a new world has no chunks, no listeners and no delivered events |
| `ServerWorld.World.GenerateTerrain` | src/server/world.ts:21-27 | returns the name; the store gains the chunk only if it was absent |
| `ServerWorld.World.GetBlock` | src/server/world.ts:42-49 | returns the block at the position, and changes nothing beyond generating its chunk |
| `ServerWorld.World.SetBlock` | src/server/world.ts:51-62 | writes the block, runs the seven-position pass with a missing chunk read as air, fans out the dirty list, and returns the target's chunk |
| `ServerWorld.World.RemoveBlock` | src/server/world.ts:29-40 | behaves exactly like `setBlock` with `""` |
| `ServerWorld.World.DoBlockUpdate` | src/server/world.ts:103-134 | the store becomes the pass over target and neighbours, and each listener gets one `setChunk` per dirty entry |
| `ServerWorld.World.CheckSupport` | src/server/world.ts:115-123 | the loop leaves the store and dirty list of the support pass |
| `ServerWorld.World.Announce` | src/server/world.ts:125-133 | the nested loops deliver the fan-out of the dirty list and change nothing else |
| `ServerWorld.World.AddEventListener` | src/server/world.ts:136-138 | listeners are appended in registration order |
| `Biomes.RunPass` | src/server/biomes.ts:277-304 | the pass makes 4096 callbacks, the n-th at the n-th cell of the x/y/z loops |
| `Biomes.EachCellOnce` | src/server/biomes.ts:290-302 | every local cell is visited exactly once, with absolute position local + 16·chunk |
| `Biomes.BiomeTableShape` | src/server/biomes.ts:16-108 | the table holds desert, plains and mountain in key order, each with its surface layer first, and every feature rule names a known feature |
| `Biomes.FillAir` | src/server/biomes.ts:150-159 | the fresh buffer is all air |
| `Biomes.LayerWalkAppend` | src/server/biomes.ts:189-214 | every matching layer assigns with no `break`, so the last matching layer wins |
| `Biomes.LayerWalkDraws` | src/server/biomes.ts:198-205 | a draw is taken exactly for each layer that passes its earlier tests and has `aboveRandom`; a cave cell keeps its block |
| `Biomes.LayerCellKeeps` | src/server/biomes.ts:164-187 | the layer callback never overwrites a non-empty cell, and leaves a cell with aY ≥ height or no biome as it is |
| `Biomes.LayerCallback` | src/server/biomes.ts:163-216 | the callback changes only its own cell, to the block the layer walk settles on, and advances the stream by the walk's draws |
| `Biomes.LayerChunk` | src/server/biomes.ts:162-220 | the chunk after the layer pass holds, in each cell, that cell's callback result at its turn |
| `Biomes.Blend` | src/server/biomes.ts:290-302 | the partial chunk holds the target at cells already visited and the old value elsewhere |
| `Biomes.LayerPass` | src/server/biomes.ts:162-220 | the buffer becomes the layer pass's chunk, and the stream cursor advances by every draw of the pass |
| `Biomes.LayersStayBelowSurface` | src/server/biomes.ts:164-187 | starting from air, every cell at or above its column's height stays air |
| `Biomes.FeatureWalkChoice` | src/server/biomes.ts:248-267 | the chosen rule is one of the biome's and passes its tests (surface rules only at aY = height); draws are taken only for eligible random rules, all of them when none is chosen |
| `Biomes.FeaturesStartAtAir` | src/server/biomes.ts:225 | the feature callback at a non-air cell does nothing |
| `Biomes.ChooseFeature` | src/server/biomes.ts:248-267 | the loop with its `break` returns the first-winning rule and the cursor of the walk |
| `Biomes.FeatureCallback` | src/server/biomes.ts:224-268 | the callback stamps at most one feature, the chosen one, from the cursor after the walk |
| `Biomes.FeaturePass` | src/server/biomes.ts:223-272 | the buffer and cursor become the fold of the feature callback over the visiting order |
| `Biomes.GetChunk` | src/server/biomes.ts:141-275 | the chunk of a name is air, then layers, then features, drawing from that name's stream |
| `ClientWorld.Round` | src/world.ts:34-36 | `Math.round` gives the integer within one half below and less than one half above |
| `ClientWorld.Tile` | src/world.ts:38-50 | a tile is air, grass, dirt or rock, and solid only below the column's height |
| `ClientWorld.SurfaceLayers` | src/world.ts:38-50 | a cell is air when density ≥ 0.5 or aY ≥ height, grass at aY = height − 1, dirt from height − 4 to height − 2, rock below, each case if and only if |
| `ClientWorld.HeightRange` | src/world.ts:34-36 | when the 2D noise lies in [−1, 1], the height lies in 50..78 |
| `ClientWorld.TerrainChunk` | src/world.ts:21-58 | each cell of a generated chunk holds the tile of its global position |
| `ClientWorld.TallyCounts` | src/world.ts:70-83 | the count has a key exactly for each non-air block present, with its number of cells |
| `ClientWorld.FacesAreUnitSteps` | src/world.ts:102-109 | the six neighbour offsets are unit steps, so offsets stay in −1..16 |
| `ClientWorld.ExposedMember` | src/world.ts:96-129 | the placed set is exactly the visible blocks of the chunk |
| `ClientWorld.Across` | src/world.ts:198-221 | each recursive step moves to the neighbour chunk with the same global cell and fewer out-of-range coordinates |
| `ClientWorld.TallyCovers` | src/world.ts:70-91 | every solid block type of the chunk gets a mesh |
| `ClientWorld.UnloadMatch` | src/world.ts:137-157 | dropping the chunk's mesh and its cells' colliders keeps colliders = visible blocks of drawn chunks |
| `ClientWorld.NearAdd` | src/world.ts:182-192 | loading a chunk inside the window keeps every mesh within the window |
| `ClientWorld.PlacedAll` | src/world.ts:96-129 | after the placement loop each mesh holds exactly the visible blocks of its type, sized by the first count |
| `ClientWorld.BuildMatch` | src/world.ts:96-134 | storing the new meshes keeps colliders = visible blocks of drawn chunks |
| `ClientWorld.World.constructor` | src/world.ts:7-19 | a new world has no chunks, no meshes and no colliders |
| `ClientWorld.World.GenerateTerrain` | src/world.ts:21-58 | returns `"cx\|cy\|cz"`, stores the generated chunk, and is a no-op when the chunk exists |
| `ClientWorld.World.FillChunk` | src/world.ts:26-55 | the three nested loops build the generated chunk cell by cell |
| `ClientWorld.World.GetBlockFromChunk` | src/world.ts:195-224 | returns the tile at the global position the name and offsets denote, generating neighbour chunks as needed and dropping none |
| `ClientWorld.World.UnloadChunk` | src/world.ts:137-157 | the chunk's mesh entry and its cells' colliders are gone, and it is a no-op if the chunk is not loaded |
| `ClientWorld.World.BuildMesh` | src/world.ts:60-135 | fails exactly when the chunk was not generated, changing nothing then; otherwise it stores meshes sized by the counts, holding exactly the visible blocks, and the colliders of that chunk become its visible blocks |
| `ClientWorld.World.Draw` | src/world.ts:66-134 | counting, placing and storing meshes for a generated chunk whose old mesh was unloaded |
| `ClientWorld.World.Update` | src/world.ts:159-193 | afterwards every chunk at an offset in [−3,2]³ from the player chunk has a mesh, and no mesh is more than 3 chunks away on any axis |
| `ClientWorld.World.UnloadFar` | src/world.ts:167-179 | after the unload pass every remaining mesh is within 3 chunks of the player on each axis |
| `ClientWorld.World.UnloadIfFar` | src/world.ts:169-178 | one name's three axis tests unload it exactly when it is far on some axis |
| `ClientWorld.World.UnloadWhen` | src/world.ts:170-172 | one axis test unloads the chunk when the test holds and changes nothing otherwise |
| `ClientWorld.World.LoadSlab` | src/world.ts:183-191 | one x offset of the load loop gives every (y, z) offset in [−3,2]² a mesh |
| `ClientWorld.World.LoadRow` | src/world.ts:184-190 | one (x, y) offset of the load loop gives every z offset in [−3,2] a mesh |
| `ClientWorld.World.LoadChunk` | src/world.ts:185-189 | generates the chunk and builds its mesh unless one exists; meshes only grow |
| `ClientWorld.World.RemoveColliders` | src/world.ts:142-148 | every cell of the chunk loses its collider; an absent collider is a no-op |
| `ClientWorld.World.CountBlocks` | src/world.ts:70-83 | the first pass computes the per-type count of the chunk |
| `ClientWorld.World.CountSlab` | src/world.ts:71-82 | one x slab extends the count by its 256 cells |
| `ClientWorld.World.CountRow` | src/world.ts:72-81 | one row extends the count by its 16 cells |
| `ClientWorld.World.Surrounded` | src/world.ts:111-113 | the reduce is true exactly when all six face neighbours are non-air |
| `ClientWorld.World.SolidFace` | src/world.ts:112 | one neighbour test reads the tile across the face |
| `ClientWorld.World.PlaceCell` | src/world.ts:99-126 | a visible cell becomes a collider and an instance of its type's mesh; an air or enclosed cell changes nothing |
| `ClientWorld.World.PlaceBlocks` | src/world.ts:96-129 | the placement loops add exactly the chunk's visible blocks as colliders and instances |
| `ClientWorld.World.PlaceSlab` | src/world.ts:97-128 | one x slab places the visible blocks among its 256 cells |
| `ClientWorld.World.PlaceRow` | src/world.ts:98-127 | one row places the visible blocks among its 16 cells |
| `ClientWorld.World.PlaceStep` | src/world.ts:99-126 | one cell of the placement loop, in visiting order |
| `ServerMain.MeshNames` | src/server/main.ts:27-38 | seven names, the requested one first |
| `ServerMain.MeshNamesOfChunk` | src/server/main.ts:30-38 | for a canonical name they are the chunk and its six face neighbours, in source order |
| `ServerMain.WithChunksKeys` | src/server/main.ts:30-38 | generating a list adds exactly its names and keeps existing chunks |
| `ServerMain.WithChunksPresent` | src/server/main.ts:30-38 | generating names already present changes nothing |
| `ServerMain.SevenGenerations` | src/server/main.ts:30-38 | seven `generateTerrain` calls in a row equal generating the list, and all seven names are present |
| `ServerMain.MeshOf` | src/server/main.ts:40-42 | the returned record has exactly the listed names as keys, each with the stored chunk |
| `ServerMain.Server.constructor` | src/server/main.ts:13-20 | a new server owns a new, empty world |
| `ServerMain.Server.BuildMesh` | src/server/main.ts:26-45 | the chunk and its six neighbours are generated, and the result maps exactly those seven names to their chunks |
| `ServerMain.Server.Gather` | src/server/main.ts:40-42 | the forEach copies each listed chunk into the result |
| `ServerMain.Server.GetChunk` | src/server/main.ts:53-57 | generates the chunk at most once and returns the stored chunk |
| `ServerMain.Server.BreakBlock` | src/server/main.ts:47-51 | delegates to `removeBlock` and returns the resulting chunk |
| `ServerMain.Server.PlaceBlock` | src/server/main.ts:59-63 | delegates to `setBlock` and returns the resulting chunk |
| `ServerMain.ToAll` | src/server/main.ts:182-188 | one message to each connection, in connection order, regardless of state |
| `ServerMain.ToOpenReaches` | src/server/main.ts:153-161 | a connection gets the message if and only if it is listed and open |
| `ServerMain.ToOpenAllOpen` | src/server/main.ts:153-161 | with every connection open, sending to open sockets equals sending to all |
| `ServerMain.RelayedReaches` | src/server/main.ts:70-76 | a world event reaches a connection if and only if the connection is listed and open and the world emitted that event |
| `ServerMain.Perform` | src/server/main.ts:107-199 | each command's effect has its kind: a gathered record for `buildMesh`, a fetched chunk for `getChunk`, a changed chunk with events for `breakBlock` and `placeBlock`, and nothing for unknown or malformed input |
| `ServerMain.Reply` | src/server/main.ts:117-180 | every reply echoes the request's command and packet id |
| `ServerMain.Respond` | src/server/main.ts:107-199 | an unknown command or malformed input sends nothing, and every known command sends something |
| `ServerMain.Broadcast` | src/server/main.ts:156-160 | a `setChunk` broadcast carries no packet id |
| `ServerMain.ReplyEchoes` | src/server/main.ts:117-180 | exactly one reply is sent per known command, to the sender, echoing command and id |
| `ServerMain.BroadcastReaches` | src/server/main.ts:153-188 | `breakBlock` broadcasts `setChunk` to open connections only, `placeBlock` to every connection |
| `ServerMain.EventsReachOpen` | src/server/main.ts:70-76 | a relayed world event comes from a write command and reaches only open connections |
| `ServerMain.GetChunkTwice` | src/server/main.ts:53-57 | a second `getChunk` of the same name changes nothing and returns the same chunk |
| `ServerMain.BuildMeshTwice` | src/server/main.ts:26-45 | a second `buildMesh` of the same name changes nothing and returns the same record |
| `ServerMain.IndexOf` | src/server/main.ts:86 | `indexOf` is −1 exactly for an unlisted socket, else the first position holding it |
| `ServerMain.CloseOfUnlistedSocketDropsAnother` | src/server/main.ts:86 | as written, closing an unlisted socket removes the last connection |
| `ServerMain.CloseOfUnlistedSocketExample` | src/server/main.ts:86 | with connections [7], closing socket 8 leaves no connection |
| `ServerMain.Remove` | src/server/main.ts:86 | the corrected removal drops one occurrence of a listed socket (as the source does) and leaves the list unchanged otherwise |
| `ServerMain.RemoveKeepsOthers` | src/server/main.ts:86 | closing one socket keeps every other connection |
| `ServerMain.Endpoint.constructor` | src/server/main.ts:66-76 | a fresh endpoint has no connections and has sent nothing |
| `ServerMain.Endpoint.OnOpen` | src/server/main.ts:89-92 | the socket is appended to the connections |
| `ServerMain.Endpoint.OnClose` | src/server/main.ts:84-87 | the connections become the corrected removal of the socket |
| `ServerMain.Endpoint.SendToOpen` | src/server/main.ts:153-161 | the loop sends to each open connection, in order |
| `ServerMain.Endpoint.SendToAll` | src/server/main.ts:182-188 | the loop sends to every connection, in order |
| `ServerMain.Endpoint.RelayEvents` | src/server/main.ts:70-76 | the world listener relays each event to the open connections |
| `ServerMain.Endpoint.OnMessage` | src/server/main.ts:107-199 | the world changes as the command prescribes, its events are relayed, and exactly the command's response is sent |
| `ServerMain.Endpoint.OnBuildMesh` | src/server/main.ts:112-125 | `buildMesh` replies with the seven-chunk record and emits no event |
| `ServerMain.Endpoint.OnGetChunk` | src/server/main.ts:127-139 | `getChunk` replies with the stored chunk and emits no event |
| `ServerMain.Endpoint.OnBreakBlock` | src/server/main.ts:141-163 | `breakBlock` replies, then broadcasts to open connections |
| `ServerMain.Endpoint.OnPlaceBlock` | src/server/main.ts:165-190 | `placeBlock` replies, then broadcasts to every connection |
| `ServerMain.Endpoint.AnnounceChange` | src/server/main.ts:147-188 | the reply and the broadcast of a write command, in that order |
| `ClientLink.Route` | src/server.ts:17-29 | a message whose id has a waiting callback settles only that callback, which is removed; any other message goes to every listener in order |
| `ClientLink.SecondReplyGoesToListeners` | src/server.ts:20-23 | a second message with an already settled id goes to the listeners |
| `ClientLink.CallbackRunsAtMostOnce` | src/server.ts:17-29 | over any message sequence, a callback runs at most once and only if it was waiting, and no callback appears |
| `ClientLink.IdsIncrease` | src/server.ts:7 | packet ids sent are 1, 2, 3, … hence strictly increasing |
| `ClientLink.Server.constructor` | src/server.ts:11-40 | a new client has packet id 0, no callbacks, no listeners and no traffic |
| `ClientLink.Server.AddEventListener` | src/server.ts:60-62 | listeners are appended in registration order |
| `ClientLink.Server.RunCommand` | src/server.ts:64-79 | the id is incremented first, the callback waits under the new (fresh) id, and the packet sent carries that same id |
| `ClientLink.Server.Forward` | src/server.ts:24-38 | every listener hears the message in registration order (also local-mode world events) |
| `ClientLink.Server.OnMessage` | src/server.ts:17-29 | the callback table and deliveries change as routing prescribes, keeping every waiting id issued |

## Left out

- I/O: JSON parsing and serialisation, `Deno.serve`, WebSocket upgrade, `console.log`, `async`/`await`. A parsed request is an input datatype (`ServerMain.Request`), with `Malformed` and `UnknownCommand` cases for the catch-all.
- Socket ready state is an input (the set of open sockets) and is not tracked. The `setInterval` poll in src/server/main.ts:93-100 is not modelled: its condition `CLOSED && CLOSING` can never hold.
- Aliasing: chunks in the stores are values (`seq`). A chunk returned by `setBlock` or `getChunk` does not see later writes, as a JavaScript array reference would. Feature stamping and generation do work in place on an `array3`, as the source does.
- Server `World.update` (src/server/world.ts:64-101) is not modelled. It draws positions from `Math.random`, and it calls `randomBlockTick` with arguments that do not match the function's parameters. `randomBlockTick` itself is modelled with the roll as an input.
- The random world seed (src/server/world.ts:17), simplex noise, Alea and `getHeight`/`map`/biome weights (src/server/biomes.ts:6-14, 119-139, 166-183) and the cave test (206-211) are inputs: `Biomes.Terrain` gives the biome, height and cave test per cell, and a random stream per chunk name. On the client, the noise is `ClientWorld.Noise`.
- The client's local-mode facade (src/server.ts:85-168) and `connection()` (src/server.ts:42-58) are not part of this model. Local-mode event forwarding is `ClientLink.Server.Forward`.
- Rendering: THREE meshes are modelled by their capacity and their list of instance positions. Geometry, textures, matrices and `scene.add` are left out. Physics is a set of collider positions.
- The player's position comes in as a chunk coordinate. The `Math.floor(position/16)` of floats is not modelled.
- `ClientWorld.World.UnloadFar`: the order in which names are visited is a free choice (`:|`), not the key order of `Object.keys`. A key that does not parse is left alone, as the NaN comparisons leave it in the source.
- `ClientWorld.World.GetBlockFromChunk`: does not state which neighbour chunks were generated, only that none are removed and every generated one holds its generated contents.
- `ClientWorld.World.Update`: chunk keys are not tracked as canonical names. The window statements speak of names of coordinates (`ChunkName(d)`), which covers every name the client itself creates.
- `ServerWorld.SetBlockTwiceDiffers`: `setBlock` is not idempotent in the code, though one might expect it to be. The single ordered seven-position pass removes the lower of two stacked short grasses but not the upper one. A second identical call then removes the upper one.
- `Features.Tree`: the random stream is an abstract function of a cursor. The four corner draws are compared with 0.5 as reals, and the Alea generator is not modelled.
- `Addressing.ParseIntOfString`: integers here are unbounded. JavaScript numbers are doubles, so in the source `String(i)` switches to exponent form from 10^21 on, and `parseInt` then reads only the leading digits; integers of magnitude 2^53 or more are not all representable. In the source the round trip holds for \|i\| < 2^53.
- `Addressing.ParseChunkNameOfName`: the same bound applies to each coordinate of the chunk; the model proves the round trip for every integer coordinate.
- `Blocks.WriteGlobalIndex`: a `Chunk` is a fixed 16³ value and cannot hold what a stray z does in the source. A z of 16 or more lengthens the row to z + 1 entries, and a negative z adds a named property that no read or JSON output sees. The model records only that no cell 0..15 changes.
- `Blocks.GrassTickStrayAsWritten`: inherits the previous line; the lengthened row is not represented.
- `Blocks.UpdatePass`: a position whose chunk was never generated reads as air. In the source `blockUpdate` throws a TypeError there (src/server/blocks.ts:69), after the earlier positions' writes. `Blocks.UpdatePassAsWritten` models the throw, and `ServerWorld.SetThrowsUnderMissingChunk` gives an input that reaches it.
- `ServerWorld.World.SetBlock`: built on `Blocks.UpdatePass`, so with a neighbour in a never-generated chunk it completes, fans out and returns the chunk. The source throws after writing the target cell and the earlier pass positions, fires no listener, and returns nothing. `ServerWorld.AfterSetAsWritten` is that as-written result, without the partial writes, which the error drops.
- `ServerWorld.World.RemoveBlock`: the same difference as `setBlock`, with `""` written.
- `ServerWorld.World.DoBlockUpdate`: the same difference: with a missing chunk in the neighbourhood, the source stops at that position and notifies no listener.
- `ServerWorld.World.CheckSupport`: the same difference: the loop reads a missing chunk as air where the source throws.
- `ServerMain.Server.BreakBlock`: the same difference, through `removeBlock`.
- `ServerMain.Server.PlaceBlock`: the same difference, through `setBlock`.
- `ServerMain.Perform`: for `breakBlock` and `placeBlock` next to a never-generated chunk, the source's throw is caught at src/server/main.ts:196-198. The catch logs and sends nothing, while the target cell and the earlier pass writes stay in the store. The model instead reports the changed chunk.
- `ServerMain.Respond`: "every known command sends something" holds only when the neighbours' chunks exist; otherwise the source sends nothing for `breakBlock` or `placeBlock`.
- `ServerMain.ReplyEchoes`: "exactly one reply per known command" has the same exception.
- `ServerMain.Endpoint.OnMessage`: the same exception; then the source sends no reply and no broadcast.
- `ServerMain.Endpoint.OnBreakBlock`: the same exception; then the source sends no reply and no broadcast.
- `ServerMain.Endpoint.OnPlaceBlock`: the same exception; then the source sends no reply and no broadcast.
- `ClientWorld.PlacedAll`: states which positions a mesh holds, not that they are distinct or that their number stays within the capacity set by the first count.
- `ClientWorld.World.PlaceBlocks`: the same omission as the previous line.
- The mesher in src/workers/generateMesh.ts is not part of this model.

## Findings

| source | as written | input that shows it | evidently intended | confidence | as-written member | corrected member |
|---|---|---|---|---|---|---|
| src/server/blocks.ts:22 | the dirt case re-reads the cell itself (`x, y, z`), which holds `"dirt"`, so it always breaks | any dirt cell with air above and grass beside it, roll 0.0 | test the cell above (`y + 1`) for air, so dirt next to grass turns to grass | high, not executed | `Blocks.DirtNeverSpreads` | `Blocks.DirtSpreadsWhenCorrected` |
| src/server/blocks.ts:42, 52 | the write indexes the chunk with the global `x, y, z` instead of the local position | covered grass at global (20, 5, 3): TypeError; at (3, 5, 20): chunk reported dirty, no cell 0..15 changed, the row lengthened to 21 entries | index with `getLocalPosition(x, y, z)`, as `blockUpdate` does | high, not executed | `Blocks.GrassTickThrowsAsWritten`, `Blocks.GrassTickStrayAsWritten` | `Blocks.RandomBlockTick` |
| src/server/blocks.ts:69 | `chunks[chunkName][…]` on a chunk that was never generated throws a TypeError | `setBlock` at the top layer (y = 15) of a chunk whose upper neighbour chunk was never generated: the neighbour (x, 16, z) throws | a missing chunk reads as air, as in `getBlockFromChunks` | medium, not executed | `Blocks.BlockUpdateAsWritten`, `Blocks.PassThrowsOnMissingChunk`, `ServerWorld.SetThrowsUnderMissingChunk` | `Blocks.BlockUpdate` |
| src/server/main.ts:86 | `connections.splice(connections.indexOf(ws), 1)` with `indexOf` = −1 removes the last connection | connections [7], close of socket 8, which is not listed: connections [] | remove only a listed socket | high, not executed | `ServerMain.CloseOfUnlistedSocketDropsAnother` | `ServerMain.Remove` |
