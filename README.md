# SimplerMiner core in Dafny

A model of the integer- and bit-level core of SimplerMiner, a voxel game
in C++. The world is made of chunks of 16 x 16 x 128 blocks. The model
covers:

- **Blocks.** Each block is a type byte plus a flag byte. The flag byte
  packs the light level and the sky, lighting-dirty and opaque bits.
- **Block definitions.** A static registry gives each block type its
  light, toughness, solidity and opacity.
- **Coordinates.** The conversions between a block index, local, chunk
  and global coordinates are done with masks and shifts.
- **Block cursors.** A `BlockInfo` steps between cells and crosses into
  neighbouring chunks through neighbour pointers.
- **Chunks.** Terrain generation from noise heights, pond building,
  block breaking and placing, face culling, selection highlighting, and
  the run-length save format with its loader.
- **The world.** The active-chunk map, wiring and unwiring of neighbour
  pointers when a chunk is created or flushed, and the lighting engine.
  The lighting engine keeps a queue of dirty blocks and relaxes each one
  to its ideal light. It runs sky-column descents when a block is placed
  or broken, and initialises lighting for a new chunk.

## Layout

| File | Module | Contents |
|---|---|---|
| `option.dfy` | `Optional` | `Option` |
| `bits.dfy` | `Bits` | unsigned AND, OR and shifts on `nat`, and their arithmetic meaning |
| `intvectors.dfy` | `IntVectors` | the engine's `IntVector2` and `IntVector3` |
| `mathutils.dfy` | `MathUtils` | `ClampInt` and the integer `WrapNumberWithinCircularRange` |
| `gamecommon.dfy` | `GameCommon` | constants, enumerations, coordinate conversions |
| `blockdefinitions.dfy` | `BlockDefinitions` | the block-definition registry |
| `blocks.dfy` | `Blocks` | the `Block` cell and its flag setters |
| `rle.dfy` | `Rle` | the run-length save format |
| `terrain.dfy` | `Terrain` | column layering, noise heights and the pond area |
| `chunks.dfy` | `Chunks` | `BlockInfo` steps, the face logic and the `Chunk` class |
| `lighting.dfy` | `Lighting` | the lighting algorithms as functions on a value view of the world |
| `world.dfy` | `Worlds` | the `World` class, whose methods are proved to compute those functions |

The key modelling choices:

- **Blocks are values.** Blocks sit by value in each chunk's `array<Block>`.
  Each `Block` setter is a function from the old cell to the new one, and
  the chunk and world methods write the result back into the array.
- **The cursor is a value.** `BlockInfo` is copied by value in the game,
  so it is a datatype. Its steps are functions that return whether they
  moved and the new cursor.
- **Lighting has a specification.** `Lighting` states what each
  lighting algorithm computes, on a map from chunk coordinates to block
  sequences plus the dirty queue. Each `World` lighting method ensures
  that its new `State()` is that function of the old one.

## Model

| member | source | states |
|---|---|---|
| IntVectors.Less | Engine/Code/Engine/Math/IntVector2.hpp:68-73 | `a < b` exactly when a.x < b.x, or the x are equal and a.y < b.y |
| IntVectors.Equal2 | Engine/Code/Engine/Math/IntVector2.hpp:77-80 | `==` holds exactly when both components agree |
| IntVectors.NotEqual2 | Engine/Code/Engine/Math/IntVector2.hpp:84-87 | `!=` holds exactly when the vectors differ |
| IntVectors.Equal3 | Engine/Code/Engine/Math/IntVector3.hpp:76-79 | `==` holds exactly when all three components agree |
| IntVectors.DefaultIntVector3 | Engine/Code/Engine/Math/IntVector3.hpp:29-33 | the default constructor zeroes x and y and leaves z as it finds it |
| IntVectors.DefaultIntVector3Unspecified | Engine/Code/Engine/Math/IntVector3.hpp:29-33 | two default-constructed vectors need not compare equal |
| IntVectors.LessIsStrictTotalOrder | Engine/Code/Engine/Math/IntVector2.hpp:68-73 | `<` is irreflexive, asymmetric, transitive and total up to `==`, as the active-chunk map needs |
| IntVectors.LessTranslationInvariant | Engine/Code/Engine/Math/IntVector2.hpp:61-73 | subtracting one vector from both sides keeps their order |
| IntVectors.Sub2ZeroIffEqual | Engine/Code/Engine/Math/IntVector2.hpp:61-80 | the difference is zero exactly when the vectors are equal |
| IntVectors.AddSub3Inverse | Engine/Code/Engine/Math/IntVector3.hpp:55-65 | `-` undoes `+` both ways, and `+` commutes |
| MathUtils.ClampInt | Engine/Code/Engine/Math/MathUtils.cpp:138-147 | the result is between the smaller and the larger bound; in range it is the input, below it the lower bound, above it the upper bound |
| MathUtils.ClampIntIdempotent | Engine/Code/Engine/Math/MathUtils.cpp:138-147 | clamping twice is clamping once, and reversed bounds give the same result |
| MathUtils.WrapNumberWithinCircularRange | Engine/Code/Engine/Math/MathUtils.cpp:178-187 | given min < max, the two loops end with the value in [min, max); it is min + (in - min) mod (max - min), and an input already in range is unchanged |
| GameCommon.LightConstantValues | SD2/SimpleMiner/Code/Game/GameCommon.hpp:143-146 | the derived constants are MAX 15, NIGHT 6 and GLOWSTONE 12 |
| GameCommon.ChunkExtentsFromBits | SD2/SimpleMiner/Code/Game/GameCommon.hpp:164-174 | the extents are 2 to the power of the bit widths: 16, 16 and 128, with 256 columns and 32768 blocks |
| GameCommon.GetLocalBlockCoordsFromLocalBlockIndex | SD2/SimpleMiner/Code/Game/GameCommon.hpp:237-253 | every index below 32768 gives coordinates inside the chunk, which are the asserts the function makes |
| GameCommon.CoordsFromIndexArithmetic | SD2/SimpleMiner/Code/Game/GameCommon.hpp:242-246 | the masks and shifts compute lbi mod 16, (lbi / 16) mod 16 and lbi / 256 |
| GameCommon.IndexFromCoordsArithmetic | SD2/SimpleMiner/Code/Game/GameCommon.hpp:257-260 | inside the chunk, `x \| y << 4 \| z << 8` is x + 16y + 256z and is below 32768; this is `GameCommon.GetLocalBlockIndexFromLocalBlockCoords`, whose non-negative precondition is under Left out |
| GameCommon.IndexCoordsRoundTrip | SD2/SimpleMiner/Code/Game/GameCommon.hpp:237-260 | index to coordinates to index is the identity |
| GameCommon.CoordsIndexRoundTrip | SD2/SimpleMiner/Code/Game/GameCommon.hpp:237-260 | coordinates to index to coordinates is the identity inside the chunk |
| GameCommon.IndexFromCoordsUnchecked | SD2/SimpleMiner/Code/Game/GameCommon.hpp:257-260 | with no range check, x = 16 gives the same index as the cell (0, 1, 0) |
| GameCommon.NoBitMathAgrees | SD2/SimpleMiner/Code/Game/GameCommon.cpp:83-109 | the division and multiplication variants `GetLocalBlockCoordsFromLocalBlockIndexNoBitMath` and `GetLocalBlockIndexFromLocalBlockCoordsNoBitMath` agree with the bit versions in both directions, for every index and every in-chunk coordinate |
| GameCommon.GetChunkCoordsFromWorldCoordsXY | SD2/SimpleMiner/Code/Game/GameCommon.cpp:113-135 | for every 32-bit floored coordinate, the chunk found satisfies 16 cc <= wc < 16 (cc + 1) on each axis |
| GameCommon.ChunkCoordIsFloor | SD2/SimpleMiner/Code/Game/GameCommon.cpp:121-132 | the truncating division plus the negative correction is floor division by 16 |
| GameCommon.ChunkCoordExamples | SD2/SimpleMiner/Code/Game/GameCommon.cpp:113-135 | -1 and -16 lie in chunk -1, -17 in chunk -2, 15 in chunk 0 and 16 in chunk 1 |
| GameCommon.GlobalBlockCoordsAsWrittenMisplaces | SD2/SimpleMiner/Code/Game/GameCommon.cpp:68-79 | as written, `GetGlobalBlockCoordsFromChunkAndLocalBlockCoords` multiplies the chunk corner by the local coordinates: every block of chunk (0, 0) maps to x = y = 0, and local x 3 of chunk (1, 0) maps to 48 instead of 19; `GetGlobalBlockCoordsFromChunkAndLocalBlockIndex`, which delegates to it, maps index 3 of chunk (1, 0) to 48 as well |
| GameCommon.GlobalBlockCoordsInverse | SD2/SimpleMiner/Code/Game/GameCommon.cpp:58-79 | the corrected conversion adds the corner; its result lies in the block's own chunk, and subtracting the corner gives back the local coordinates |
| GameCommon.GetDimensionAsString | SD2/SimpleMiner/Code/Game/GameCommon.cpp:139-147 | each dimension has its own name, each as an if-and-only-if |
| BlockDefinitions.Registry | SD2/SimpleMiner/Code/Game/BlockDefinition.cpp:9-403 | every registered type emits a light level in [0, 15] |
| BlockDefinitions.GetLightLevel | SD2/SimpleMiner/Code/Game/BlockDefinition.hpp:30 | the emitted level is a light level in [0, 15] |
| BlockDefinitions.AirDefinition | SD2/SimpleMiner/Code/Game/BlockDefinition.cpp:9-42 | AIR is not solid, not opaque, emits nothing and breaks at once |
| BlockDefinitions.FluidAndPortalDefinitions | SD2/SimpleMiner/Code/Game/BlockDefinition.cpp:43-72 | WATER, LAVA and PORTAL are opaque but not solid; LAVA and PORTAL glow at the glowstone level |
| BlockDefinitions.SeeThroughDefinitions | SD2/SimpleMiner/Code/Game/BlockDefinition.cpp:73-397 | GRASS and STAIRS are solid but not opaque; LADDER is neither |
| BlockDefinitions.OpacityAndSolidity | SD2/SimpleMiner/Code/Game/BlockDefinition.cpp:9-403 | exactly AIR, GRASS, STAIRS and LADDER are see-through, and exactly AIR, WATER, LAVA, PORTAL and LADDER are not solid |
| BlockDefinitions.Emitters | SD2/SimpleMiner/Code/Game/BlockDefinition.cpp:9-403 | the emission of each type, 0 for all but seven; every emitter is opaque |
| BlockDefinitions.Toughness | SD2/SimpleMiner/Code/Game/BlockDefinition.cpp:9-403 | the types that break at once, those that take 15 s and those that take 7.5 s, each as an if-and-only-if |
| Blocks.FlagMasks | SD2/SimpleMiner/Code/Game/GameCommon.hpp:230-234 | the light mask is MAX_LIGHTING_LEVEL and shares bit 3 with the orientation mask; the sky, dirty and opaque bits are disjoint from everything |
| Blocks.NewBlock | SD2/SimpleMiner/Code/Game/Block.hpp:14-18 | a new block has the given type, light 0, and no sky, dirty or opaque flag |
| Blocks.GetLightLevel | SD2/SimpleMiner/Code/Game/Block.hpp:50-53 | the light read from the flags is in [0, 15] |
| Blocks.SameExceptFlags | SD2/SimpleMiner/Code/Game/Block.hpp:50-155 | blocks that agree outside a mask agree on every accessor the mask does not cover |
| Blocks.SetLightLevel | SD2/SimpleMiner/Code/Game/Block.hpp:57-71 | given a level in [0, 15], the new light is that level, and nothing outside the light mask changes |
| Blocks.SetLightLevelClobbersOrientation | SD2/SimpleMiner/Code/Game/Block.hpp:57-71 | setting the light can change an orientation bit, since bit 3 is in both masks |
| Blocks.SetBlockToBeSky | SD2/SimpleMiner/Code/Game/Block.hpp:82-85 | the sky bit is set and nothing else changes |
| Blocks.SetBlockToNotBeSky | SD2/SimpleMiner/Code/Game/Block.hpp:89-99 | the sky bit is clear and nothing else changes |
| Blocks.SetLightingDirty | SD2/SimpleMiner/Code/Game/Block.hpp:110-113 | the dirty bit is set and nothing else changes |
| Blocks.SetLightingNotDirty | SD2/SimpleMiner/Code/Game/Block.hpp:117-127 | the dirty bit is clear and nothing else changes |
| Blocks.SetBlockToBeOpaque | SD2/SimpleMiner/Code/Game/Block.hpp:138-141 | the opaque bit is set and nothing else changes |
| Blocks.SetBlockToNotBeOpaque | SD2/SimpleMiner/Code/Game/Block.hpp:145-155 | the opaque bit is clear and nothing else changes |
| Blocks.SetBlockType | SD2/SimpleMiner/Code/Game/Block.cpp:4-12 | the new type is given; the opaque bit is the registry's opacity of that type; all other flag bits are kept |
| Blocks.SetLightLevelIdempotent | SD2/SimpleMiner/Code/Game/Block.hpp:57-71 | writing the same light twice is writing it once |
| Blocks.SettersIdempotent | SD2/SimpleMiner/Code/Game/Block.hpp:82-155 | each flag setter and clearer is idempotent |
| Blocks.SetBlockTypeIdempotent | SD2/SimpleMiner/Code/Game/Block.cpp:4-12 | setting the same type twice is setting it once |
| Blocks.SetBlockTypeOverwrites | SD2/SimpleMiner/Code/Game/Block.cpp:4-12 | a second `SetBlockType` erases every trace of the first |
| Blocks.OpacityAfterSetBlockType | SD2/SimpleMiner/Code/Game/Chunk.cpp:1114-1115 | re-applying the registry opacity after `SetBlockType`, as placing does, changes nothing |
| Blocks.SettersRoundTrip | SD2/SimpleMiner/Code/Game/Block.hpp:82-155 | clearing and then setting a bit that was set restores the block, and setting and then clearing a bit that was clear does too |
| Rle.Repeat | SD2/SimpleMiner/Code/Game/Chunk.cpp:599-620 | a run of n blocks of one type has length n and holds only that type |
| Rle.Flatten | SD2/SimpleMiner/Code/Game/Chunk.cpp:1242-1243 | each run becomes one (type, count) byte pair, so there are twice as many bytes as runs |
| Rle.RunsOfLast | SD2/SimpleMiner/Code/Game/Chunk.cpp:1233-1248 | there is a run exactly when there is a block, and the last run holds the last block's type |
| Rle.RunsOfCountsFit | SD2/SimpleMiner/Code/Game/Chunk.cpp:1239 | every run the encoder counts has between 1 and 255 blocks, so its count fits the byte |
| Rle.RunsOfMaximal | SD2/SimpleMiner/Code/Game/Chunk.cpp:1239-1246 | neighbouring runs differ in type unless the earlier one is full at 255 |
| Rle.RunsOfFacts | SD2/SimpleMiner/Code/Game/Chunk.cpp:1233-1248 | the run decomposition has the four properties above at once |
| Rle.FlattenValid | SD2/SimpleMiner/Code/Game/Chunk.cpp:1242-1243 | every emitted type byte names a registered type, and every count byte is in [1, 255] |
| Rle.ExpandRunsOf | SD2/SimpleMiner/Code/Game/Chunk.cpp:1233-1248 | the runs stand for exactly the blocks they were counted from |
| Rle.DecodeAppend | SD2/SimpleMiner/Code/Game/Chunk.cpp:599-620 | decoding two byte strings of whole pairs, one after the other, decodes each in turn |
| Rle.DecodeFlatten | SD2/SimpleMiner/Code/Game/Chunk.cpp:599-620 | decoding the pairs of some runs gives back the blocks of those runs |
| Rle.EncodeFlushedRoundTrip | SD2/SimpleMiner/Code/Game/Chunk.cpp:599-620 | with the final run flushed, decoding the encoding gives back every block, and a chunk's encoding is a well-formed save string |
| Rle.EncodeAsWrittenDecodesPrefix | SD2/SimpleMiner/Code/Game/Chunk.cpp:1233-1248 | as written, the encoding decodes to every block except the final run, and that run is made of blocks of the last block's type |
| Rle.LastRun | SD2/SimpleMiner/Code/Game/Chunk.cpp:1235-1236 | the run still counted when the loop ends has a count that fits a byte and the last block's type |
| Rle.EncodeFirstBlock | SD2/SimpleMiner/Code/Game/Chunk.cpp:1235-1236 | before the loop nothing is emitted, and one block of the first type is being counted |
| Rle.EncodeAsWrittenStep | SD2/SimpleMiner/Code/Game/Chunk.cpp:1239-1247 | one loop turn: a block of the counted type below 255 extends the run, and any other block emits the run's pair and starts a run of one |
| Rle.EncodeFlushedAppendsLastRun | SD2/SimpleMiner/Code/Game/Chunk.cpp:1233-1248 | the flushed encoding is the as-written encoding plus the pair of the last run |
| Rle.TypeBytesValidSuffix | SD2/SimpleMiner/Code/Game/Chunk.cpp:604-619 | the rest of a valid string from any pair boundary is valid too |
| Rle.Overlay | SD2/SimpleMiner/Code/Game/Chunk.cpp:599-620 | loading keeps the chunk's size; which type each loaded cell holds is stated by `Chunks.LoadedTypes` |
| Rle.AsWrittenReloadIffLastAir | SD2/SimpleMiner/Code/Game/Chunk.cpp:1233-1248 | a chunk saved as written and loaded into a fresh all-AIR chunk comes back unchanged exactly when its last block is AIR |
| Rle.AsWrittenLosesStoneTop | SD2/SimpleMiner/Code/Game/Chunk.cpp:1233-1248 | a chunk of solid STONE does not survive saving and reloading as written |
| Terrain.OverworldColumnLayers | SD2/SimpleMiner/Code/Game/Chunk.cpp:92-117 | an overworld column is solid exactly up to its ground. The top is SAND at or below sea level and GRASS above it; six layers below the top are DIRT (the SAND written first is overwritten); STONE lies exactly from six below the ground down; WATER lies exactly between the ground and sea level |
| Terrain.NetherColumnLayers | SD2/SimpleMiner/Code/Game/Chunk.cpp:121-172 | a nether column is solid exactly at and below its ground and from its ceiling up. Between them there is LAVA below 32 and AIR above it; the ceiling is GLOWSTONE at even heights; LAVA appears only below 32 |
| Terrain.GroundHeightFromNoise | SD2/SimpleMiner/Code/Game/Chunk.cpp:488-516 | the ground is never below 0; otherwise it is the scaled noise plus 64, or plus 32 in the nether |
| Terrain.CeilingHeightFromNoise | SD2/SimpleMiner/Code/Game/Chunk.cpp:520-540 | the ceiling is never above the top layer 127; otherwise it is the scaled noise plus 100 |
| Terrain.GeneratedSolidity | SD2/SimpleMiner/Code/Game/Chunk.cpp:59-72 | whole-chunk generation depends only on the global column and height, and is solid exactly where that dimension's column layers say; a chunk of neither dimension is left untouched |
| Terrain.ColumnGroundHeight | SD2/SimpleMiner/Code/Game/Chunk.cpp:488-516 | each column's ground height is non-negative |
| Terrain.MaxGroundHeightInRowIsMax | SD2/SimpleMiner/Code/Game/Chunk.cpp:460-467 | the inner loop's maximum bounds every column of the row and is reached by one of them; it is -1 exactly for an empty row |
| Terrain.MaxGroundHeightInRowsIsMax | SD2/SimpleMiner/Code/Game/Chunk.cpp:458-468 | the same holds for a band of rows |
| Terrain.MaxGroundHeightInAreaIsMax | SD2/SimpleMiner/Code/Game/Chunk.cpp:454-470 | the area's maximum bounds every column in it and is reached by one of them; it is -1 exactly when the area is empty |
| Terrain.PondIsClosed | SD2/SimpleMiner/Code/Game/Chunk.cpp:414-450 | every fluid cell of a pond has a written cell on each horizontal side and below it, unless it is on the bottom layer; the fluid lies strictly inside the rim and from ten below the top up to the top |
| Terrain.PondCoversAreaUpToTop | SD2/SimpleMiner/Code/Game/Chunk.cpp:424-446 | in the pond's area every cell at or below the top gets a type, nothing above the top does, and everything below the pond bottom is wall |
| Terrain.PortalShrineTopLeavesChunk | SD2/SimpleMiner/Code/Game/Chunk.cpp:236-260 | a shrine whose highest ground is 98 or more has pillars reaching z 128 or beyond, and ground 98 comes from a scaled noise of 34 |
| Chunks.OppositeSide | SD2/SimpleMiner/Code/Game/World.cpp:1082-1131 | the side that faces back differs from the side, and stepping to a side and then to its opposite returns to the start |
| Chunks.WithSide | SD2/SimpleMiner/Code/Game/World.cpp:1082-1131 | setting one neighbour pointer changes that pointer and keeps the other three |
| Chunks.Coords | SD2/SimpleMiner/Code/Game/GameCommon.hpp:237-253 | the coordinates of an index below 32768 lie inside the chunk |
| Chunks.CoordsAgree | SD2/SimpleMiner/Code/Game/GameCommon.hpp:237-253 | the remainder and quotient coordinates are the mask-and-shift ones |
| Chunks.IndexOfAgrees | SD2/SimpleMiner/Code/Game/GameCommon.hpp:257-260 | when x and y fit in four bits, the OR-and-shift packing is x + 16y + 256z for any z |
| Chunks.CellAt | SD2/SimpleMiner/Code/Game/GameCommon.hpp:237-260 | the index of in-chunk coordinates is below 32768 and converts back to them |
| Chunks.IndexDecomposition | SD2/SimpleMiner/Code/Game/GameCommon.hpp:237-260 | every index is x + 16y + 256z of its own coordinates |
| Chunks.CoordsInjective | SD2/SimpleMiner/Code/Game/GameCommon.hpp:237-253 | different indices have different coordinates |
| Chunks.StepSouth | SD2/SimpleMiner/Code/Game/BlockInfo.cpp:16-33 | the cursor stays a valid cell, and a failed step leaves it unchanged |
| Chunks.StepNorth | SD2/SimpleMiner/Code/Game/BlockInfo.cpp:37-54 | the cursor stays a valid cell, and a failed step leaves it unchanged |
| Chunks.StepEast | SD2/SimpleMiner/Code/Game/BlockInfo.cpp:58-75 | the cursor stays a valid cell, and a failed step leaves it unchanged |
| Chunks.StepWest | SD2/SimpleMiner/Code/Game/BlockInfo.cpp:79-96 | the cursor stays a valid cell, and a failed step leaves it unchanged |
| Chunks.StepUp | SD2/SimpleMiner/Code/Game/BlockInfo.cpp:100-111 | the cursor stays a valid cell, and a failed step leaves it unchanged |
| Chunks.StepDown | SD2/SimpleMiner/Code/Game/BlockInfo.cpp:115-126 | the cursor stays a valid cell, and a failed step leaves it unchanged |
| Chunks.StepBy | SD2/SimpleMiner/Code/Game/BlockInfo.cpp:16-126 | whichever of the six steps is taken, the cursor stays a valid cell, and a failed step leaves it unchanged |
| Chunks.StepGeometry | SD2/SimpleMiner/Code/Game/BlockInfo.cpp:16-126 | a step succeeds exactly when it does not leave the chunk, or leaves it with a neighbour on that side (never up or down). It stays in the chunk off the edge and enters the neighbour on the edge. It lands on the adjacent coordinates, wrapped into the entered chunk, and inside the chunk it moves the index by 1, 16 or 256 |
| Chunks.StepNorthGeometry | SD2/SimpleMiner/Code/Game/BlockInfo.cpp:37-54 | the geometry above, for +y across into the west neighbour |
| Chunks.StepSouthGeometry | SD2/SimpleMiner/Code/Game/BlockInfo.cpp:16-33 | the geometry above, for -y across into the east neighbour |
| Chunks.StepEastGeometry | SD2/SimpleMiner/Code/Game/BlockInfo.cpp:58-75 | the geometry above, for +x across into the north neighbour |
| Chunks.StepWestGeometry | SD2/SimpleMiner/Code/Game/BlockInfo.cpp:79-96 | the geometry above, for -x across into the south neighbour |
| Chunks.StepUpGeometry | SD2/SimpleMiner/Code/Game/BlockInfo.cpp:100-111 | the geometry above, for +z, which fails on the top layer |
| Chunks.StepDownGeometry | SD2/SimpleMiner/Code/Game/BlockInfo.cpp:115-126 | the geometry above, for -z, which fails on the bottom layer |
| Chunks.StepThereAndBack | SD2/SimpleMiner/Code/Game/BlockInfo.cpp:16-126 | the opposite step undoes a successful step, provided that an entered neighbour points back at the starting chunk |
| Chunks.WrapBack | SD2/SimpleMiner/Code/Game/BlockInfo.cpp:16-126 | one cell there and back, with horizontal wrapping, is the identity, and the cell reached lies on the opposite edge exactly when the start lay on the edge crossed |
| Chunks.WrapInside | SD2/SimpleMiner/Code/Game/BlockInfo.cpp:30-93 | off the edge a step needs no wrapping |
| Chunks.FacesAreSteps | SD2/SimpleMiner/Code/Game/Chunk.cpp:692-721 | the six faces and the six steps correspond one to one, and opposite faces are opposite steps (`Chunks.FaceStep` names the step of each face) |
| Chunks.SelectedFaceAxis | SD2/SimpleMiner/Code/Game/Chunk.cpp:1032-1040 | on the z and y axes the selected face steps against the direction, and on the x axis along it |
| Chunks.SelectionInvertible | SD2/SimpleMiner/Code/Game/Chunk.cpp:1032-1040 | each of the six axis vectors selects its own face, and any other vector keeps the current face |
| Chunks.PlacementTarget | SD2/SimpleMiner/Code/Game/Chunk.cpp:1121-1204 | a placement target is a valid cell of the hit chunk or of one of its neighbours |
| Chunks.PlacementTargetCell | SD2/SimpleMiner/Code/Game/Chunk.cpp:1121-1204 | the target is the adjacent cell across the face, wrapped into the neighbour at a vertical face; there is none where the step leaves the world |
| Chunks.PlacementLandingAgrees | SD2/SimpleMiner/Code/Game/Chunk.cpp:1122-1197 | the coordinate switch of `PlaceBlock` writes where one step across the face lands, in this chunk or in the neighbour, and writes nothing exactly when that step fails |
| Chunks.LandingBelowOrAbove | SD2/SimpleMiner/Code/Game/Chunk.cpp:1126-1137 | the same, for the BOTTOM and TOP cases |
| Chunks.LandingLeft | SD2/SimpleMiner/Code/Game/Chunk.cpp:1138-1151 | the same, for LEFT into the west neighbour |
| Chunks.LandingRight | SD2/SimpleMiner/Code/Game/Chunk.cpp:1152-1165 | the same, for RIGHT into the east neighbour |
| Chunks.LandingFront | SD2/SimpleMiner/Code/Game/Chunk.cpp:1166-1179 | the same, for FRONT into the south neighbour |
| Chunks.LandingBack | SD2/SimpleMiner/Code/Game/Chunk.cpp:1180-1193 | the same, for BACK into the north neighbour |
| Chunks.TypesOf | SD2/SimpleMiner/Code/Game/Block.hpp:35 | there is one type per cell; the types a load or a save yields are stated by `Chunks.LoadedTypes` and `Chunks.SaveLoadRoundTrip` |
| Chunks.LocalCellOf | SD2/SimpleMiner/Code/Game/Chunk.cpp:473-484 | a global block's cell, if it has one, is a valid index |
| Chunks.LocalCellOfGlobal | SD2/SimpleMiner/Code/Game/Chunk.cpp:1017-1028 | a global block lies in cell k exactly when it is the world position of k, which makes the two conversions inverse |
| Chunks.IndexGuardAsWrittenAdmitsEnd | SD2/SimpleMiner/Code/Game/Chunk.cpp:1216-1220 | the guard as written passes exactly the valid indices plus 32768, one past the last cell |
| Chunks.CoordsGuardAsWrittenAdmitsOutside | SD2/SimpleMiner/Code/Game/Chunk.cpp:1224-1229 | the guard as written passes every cell, but also x = 16, which aliases (0, 1, 0); z = 128, which packs to 32768; and z = -1 |
| Chunks.LocalWriteAsWrittenLeavesChunk | SD2/SimpleMiner/Code/Game/Chunk.cpp:473-484 | as written, a block at height 128 over chunk (0, 0), which a shrine on ground 98 asks for, is written at index 32768, outside the chunk; the corrected lookup finds no cell |
| Chunks.GetLocalColumnCoordsFromChunkColumnIndex | SD2/SimpleMiner/Code/Game/Chunk.cpp:1005-1013 | the masks give cci mod 16 and (cci / 16) mod 16, and for a column of the chunk x + 16y gives back cci |
| Chunks.ColumnCell | SD2/SimpleMiner/Code/Game/Chunk.cpp:97-99 | the cell at height z of column cci is a valid index whose column is cci and whose height is z |
| Chunks.ColumnFillStep | SD2/SimpleMiner/Code/Game/Chunk.cpp:95-116 | one loop turn of a column fill extends the filled part by the cell at that height |
| Chunks.ColumnFilledToTop | SD2/SimpleMiner/Code/Game/Chunk.cpp:95-116 | a finished column fill retypes exactly that column |
| Chunks.ColumnOfCell | SD2/SimpleMiner/Code/Game/Chunk.cpp:97-99 | a cell's column is k mod 256 and its height k / 256 |
| Chunks.ColumnGeneratedStep | SD2/SimpleMiner/Code/Game/Chunk.cpp:61-71 | generating one more column extends the generated part by that column |
| Chunks.WriteIfLocal | SD2/SimpleMiner/Code/Game/Chunk.cpp:473-484 | a conditional write keeps the chunk's size; which cells the pond writes is stated by the ensures of `Chunks.Chunk.BuildPond` |
| Chunks.PondStep | SD2/SimpleMiner/Code/Game/Chunk.cpp:424-447 | one turn of the pond's z loop moves the built part past that cell |
| Chunks.PondNextColumn | SD2/SimpleMiner/Code/Game/Chunk.cpp:422-448 | finishing a column starts the next one |
| Chunks.PondNextRow | SD2/SimpleMiner/Code/Game/Chunk.cpp:420-449 | finishing a row starts the next one |
| Chunks.PondBounds | SD2/SimpleMiner/Code/Game/Chunk.cpp:414-450 | before the first row nothing is built, and after the last row every cell holds its pond layout type |
| Chunks.LoadedCells | SD2/SimpleMiner/Code/Game/Chunk.cpp:599-620 | loading keeps the chunk's size; the types of the loaded cells are stated by `Chunks.LoadedTypes` |
| Chunks.GeneratedCells | SD2/SimpleMiner/Code/Game/Chunk.cpp:59-72 | generation keeps the chunk's size; the type of each generated cell is stated by the ensures of `Chunks.Chunk.PopulateChunkWithPerlinNoise` |
| Chunks.LoadedTypes | SD2/SimpleMiner/Code/Game/Chunk.cpp:599-620 | after loading, the decoded types lie over the front of the chunk and the old types lie beyond them |
| Chunks.SaveLoadRoundTrip | SD2/SimpleMiner/Code/Game/Chunk.cpp:599-620 | saving any chunk with the final run flushed and loading the bytes into any chunk restores every block type |
| Chunks.AsWrittenSaveLoad | SD2/SimpleMiner/Code/Game/Chunk.cpp:1233-1248 | saving with the encoder as written and loading into a new chunk restores the types exactly when the last block is AIR |
| Chunks.DecodedStep | SD2/SimpleMiner/Code/Game/Chunk.cpp:609-617 | one turn of the loader's inner loop extends the loaded part by one cell |
| Chunks.FaceCullingIsMutual | SD2/SimpleMiner/Code/Game/Chunk.cpp:692-721 | `ShouldFaceRender` is symmetric: across a face whose step succeeds, a cell's face is drawn exactly when the facing cell's opposite face is drawn, given that the neighbour points back; a face whose step fails is always drawn |
| Chunks.Chunk.constructor | SD2/SimpleMiner/Code/Game/Chunk.cpp:16-35 | a new chunk is all default AIR cells with a dirty mesh and full sky light, at the given position and dimension; its four neighbour pointers are null, the selected index is 99999 and the selected face is NONE, so `IsHighlighting` holds (see Left out) |
| Chunks.Chunk.MarkVertexArrayDirty | SD2/SimpleMiner/Code/Game/Chunk.hpp:44 | the mesh is dirty afterwards |
| Chunks.Chunk.RebuildVertexArray | SD2/SimpleMiner/Code/Game/Chunk.cpp:624-633 | the mesh is clean afterwards |
| Chunks.Chunk.SetCurrentSkyLightLevel | SD2/SimpleMiner/Code/Game/Chunk.cpp:1078-1082 | given a level in [0, 15], the sky level is that level |
| Chunks.Chunk.Unhighlight | SD2/SimpleMiner/Code/Game/Chunk.hpp:57-58 | the index becomes 99999 and the face NONE, and the chunk then reports that it is highlighting, because `IsHighlighting` holds whenever no face is selected |
| Chunks.Chunk.SetSelectedFace | SD2/SimpleMiner/Code/Game/Chunk.cpp:1032-1040 | the face is the one the direction selects, or the old one for any other vector |
| Chunks.Chunk.HighlightBlock | SD2/SimpleMiner/Code/Game/Chunk.cpp:1208-1212 | the index and face are set, and highlighting an index of the chunk makes it highlighting |
| Chunks.Chunk.BreakBlock | SD2/SimpleMiner/Code/Game/Chunk.cpp:1093-1098 | exactly the broken cell changes, to AIR with its light, sky and dirty bits kept, and it is not opaque; the mesh is dirty |
| Chunks.Chunk.PlaceBlock | SD2/SimpleMiner/Code/Game/Chunk.cpp:1102-1204 | with the zero direction exactly the given cell gets the type, the result names it and the mesh is dirty. Otherwise the face is selected first and the write goes to the placement target: that cell gets the type, its chunk's mesh is dirty, nothing else changes anywhere, and the cursor names the target. Where the step leaves the world nothing is written and the cursor comes back as passed. Neighbour pointers, sky levels and selected blocks are kept |
| Chunks.Chunk.PlaceOnFace | SD2/SimpleMiner/Code/Game/Chunk.cpp:1122-1204 | the switch on the selected face has the outcome above for the given face |
| Chunks.Chunk.PlaceAtCell | SD2/SimpleMiner/Code/Game/Chunk.cpp:1104-1119 | the zero-direction branch writes exactly that cell and its second opacity write changes nothing; the result names the cell and the mesh is dirty |
| Chunks.Chunk.PlaceInside | SD2/SimpleMiner/Code/Game/Chunk.cpp:1195-1203 | the in-chunk write has the outcome above for its cell |
| Chunks.Chunk.PlaceInNeighbour | SD2/SimpleMiner/Code/Game/Chunk.cpp:1141-1148 | the edge-crossing write, a zero-direction call on the neighbour, has the outcome above for the neighbour's cell |
| Chunks.Chunk.GetGlobalColumnCoordsFromChunkColumnIndex | SD2/SimpleMiner/Code/Game/Chunk.cpp:992-1001 | the column's global coordinates are the corrected global coordinates of its cell, and they lie in this chunk's square |
| Chunks.Chunk.GetWorldCoordsFromLocalBlockIndex | SD2/SimpleMiner/Code/Game/Chunk.cpp:1017-1028 | the world position of a cell is its global block, and that global block lies in exactly this cell |
| Chunks.Chunk.GetBlockFromLocalBlockIndex | SD2/SimpleMiner/Code/Game/Chunk.cpp:1216-1220 | corrected: there is a cell exactly for 0 <= lbi < 32768, and it is the cell at lbi |
| Chunks.Chunk.GetBlockFromLocalBlockCoords | SD2/SimpleMiner/Code/Game/Chunk.cpp:1224-1229 | corrected: there is a cell exactly for coordinates inside the chunk, and it is the cell at their index |
| Chunks.Chunk.SetBlockTypeIfLocal | SD2/SimpleMiner/Code/Game/Chunk.cpp:473-484 | corrected with a height check: a block lying in this chunk has its cell retyped and nothing else changes; any other block changes nothing |
| Chunks.Chunk.PopulateColumnWithOverworldBlocksWithPerlinNoise | SD2/SimpleMiner/Code/Game/Chunk.cpp:92-117 | every cell of the column is retyped to the overworld type for its height, so the layering of `OverworldColumnLayers` holds; no other cell changes |
| Chunks.Chunk.PopulateColumnWithNetherBlocksWithPerlinNoise | SD2/SimpleMiner/Code/Game/Chunk.cpp:121-172 | the ceiling comes from the noise, and every cell of the column is retyped to the nether type for its height; no other cell changes |
| Chunks.Chunk.PopulateChunkWithPerlinNoise | SD2/SimpleMiner/Code/Game/Chunk.cpp:59-72 | every cell holds the type that generation assigns to its global block, so generation agrees across chunk borders |
| Chunks.Chunk.GetMaxColumnGroundHeightForArea | SD2/SimpleMiner/Code/Game/Chunk.cpp:454-470 | the two loops compute the area's highest ground, which `MaxGroundHeightInAreaIsMax` characterises |
| Chunks.Chunk.BuildPond | SD2/SimpleMiner/Code/Game/Chunk.cpp:414-450 | the pond's top is the area's highest ground; each cell of this chunk gets its pond layout type where there is one and stays as it was elsewhere |
| Chunks.Chunk.EncodeRuns | SD2/SimpleMiner/Code/Game/Chunk.cpp:1235-1248 | the loop appends the pairs of every run but the last, and hands back the last run it is still counting |
| Chunks.Chunk.GetRleString | SD2/SimpleMiner/Code/Game/Chunk.cpp:1233-1249 | as written, the buffer gains the encoding without its final run |
| Chunks.Chunk.GetRleStringFlushed | SD2/SimpleMiner/Code/Game/Chunk.cpp:1233-1249 | corrected: the buffer gains the full encoding, which `SaveLoadRoundTrip` reloads |
| Chunks.Chunk.PopulateChunkWithRleString | SD2/SimpleMiner/Code/Game/Chunk.cpp:599-620 | pair by pair, the cells from 0 upward take the decoded types, with the opaque bit from the registry; cells past the decoded blocks keep what they held |
| Lighting.MarkKeepsQueue | SD2/SimpleMiner/Code/Game/World.cpp:1899-1907 | marking a block keeps the dirty-iff-queued invariant; afterwards the block is dirty and queued; the queue gains it exactly when it was not queued already; no other cell changes (this is `Lighting.Mark`) |
| Lighting.MarkEachNotSkyFacts | SD2/SimpleMiner/Code/Game/World.cpp:1633-1663 | marking a list of cells keeps the invariant and sets dirty bits only; every non-sky cell of the list ends dirty; cells outside the list are untouched |
| Lighting.StepReachesAdjacentBlock | SD2/SimpleMiner/Code/Game/BlockInfo.cpp:16-126 | a cursor step fails exactly when it would leave the world (top, bottom, or toward an inactive chunk); otherwise it lands on the global block one unit away, across chunk borders too |
| Lighting.NeighbourhoodInDirections | SD2/SimpleMiner/Code/Game/World.cpp:1633-1663 | the neighbours are visited east, west, north, south, then up and down when vertical neighbours are asked for |
| Lighting.DirtyNonSkyNeighboursFacts | SD2/SimpleMiner/Code/Game/World.cpp:1633-1663 | after dirtying the neighbours, every non-sky neighbour in each requested direction is dirty and queued; only dirty bits changed; cells that are no neighbour are untouched; the invariant holds (this is `Lighting.DirtyNonSkyNeighbours`) |
| Lighting.IdealLight | SD2/SimpleMiner/Code/Game/World.cpp:1667-1708 | the ideal light is within [0, 15] |
| Lighting.IdealLightIsLeastBound | SD2/SimpleMiner/Code/Game/World.cpp:1667-1708 | for a non-opaque block, the ideal light is the least value that is at least each neighbour's light minus one, the sky factor and the block's own emission: it bounds all of them and equals one of them |
| Lighting.IdealLightOfOpaque | SD2/SimpleMiner/Code/Game/World.cpp:1667-1708 | an opaque block's ideal light is its own emission, whatever surrounds it |
| Lighting.PoppedKeepsQueue | SD2/SimpleMiner/Code/Game/World.cpp:1614-1619 | taking the front block off the queue clears its dirty bit, drops it from the queue and keeps the invariant; nothing else changes (this is `Lighting.Popped`) |
| Lighting.RelaxFacts | SD2/SimpleMiner/Code/Game/World.cpp:1610-1629 | one pass keeps the invariant and every cell's type, sky bit and opacity; the popped block ends at its ideal light and no other light changes; when the light was already ideal only the pop happens; otherwise every non-sky neighbour ends dirty (this is `Lighting.Relax`) |
| Lighting.Relight | SD2/SimpleMiner/Code/Game/World.cpp:1610-1629 | the lighting loop keeps the dirty-iff-queued invariant; what it reaches when it drains the queue is stated by `Lighting.DrainedRelightIsIdeal` |
| Lighting.RelightKeepsShape | SD2/SimpleMiner/Code/Game/World.cpp:1610-1629 | relighting never changes a block's type, sky bit or opacity, nor a chunk's sky level |
| Lighting.RelightDone | SD2/SimpleMiner/Code/Game/World.cpp:1612 | with an empty queue the loop does nothing |
| Lighting.RelaxKeeps | SD2/SimpleMiner/Code/Game/World.cpp:1621-1623 | a pass whose block already holds its ideal light only pops it and marks no mesh |
| Lighting.RelaxChanges | SD2/SimpleMiner/Code/Game/World.cpp:1625-1627 | a pass whose block is off its ideal light stores that light, marks the non-sky neighbours and marks the block's own chunk's mesh |
| Lighting.RelitChunksActive | SD2/SimpleMiner/Code/Game/World.cpp:1610-1629 | the passes mark the meshes of active chunks only |
| Lighting.RelitChunksCoverChanges | SD2/SimpleMiner/Code/Game/World.cpp:1625-1627 | every block whose light the passes change lies in a chunk whose mesh they mark |
| Lighting.IdealLightKept | SD2/SimpleMiner/Code/Game/World.cpp:1667-1708 | a block's ideal light depends only on its own shape, its chunk's sky level and the light of the blocks its six steps reach |
| Lighting.StepBack | SD2/SimpleMiner/Code/Game/BlockInfo.cpp:16-126 | a step that succeeds is undone by the opposite step |
| Lighting.StepLandsBack | SD2/SimpleMiner/Code/Game/BlockInfo.cpp:16-126 | a step that lands elsewhere than its start can be walked back by the opposite step |
| Lighting.PopSettles | SD2/SimpleMiner/Code/Game/World.cpp:1614-1623 | when the popped block already holds its ideal light, a settled world stays settled (settled: every clean block of an active chunk holds its ideal light, sky blocks aside) |
| Lighting.ChangeSettles | SD2/SimpleMiner/Code/Game/World.cpp:1625-1627 | when the popped block gets a new light and every neighbour whose ideal light may change is left dirty, the world stays settled |
| Lighting.RelaxKeepsSettled | SD2/SimpleMiner/Code/Game/World.cpp:1610-1663 | a pass keeps the invariant and keeps every clean non-sky block at its ideal light |
| Lighting.RelightKeepsSettled | SD2/SimpleMiner/Code/Game/World.cpp:1610-1663 | the passes keep every clean non-sky block at its ideal light |
| Lighting.DrainedRelightIsIdeal | SD2/SimpleMiner/Code/Game/World.cpp:1610-1663 | starting settled, once the loop has drained the queue every non-sky block of every active chunk holds its ideal light |
| Lighting.SkySwitchSettles | SD2/SimpleMiner/Code/Game/World.cpp:1712-1727 | when the day-night switch changes the sky level of every active chunk, every cell is marked, so the world is settled; a run of the loop that then drains the queue leaves every non-sky block at its ideal light |
| Lighting.GlowstoneAtNightSettled | SD2/SimpleMiner/Code/Game/World.cpp:1610-1663 | the night world of the counterexample is settled, sky blocks included, and keeps the invariant |
| Lighting.GlowstoneAtNightRelit | SD2/SimpleMiner/Code/Game/World.cpp:1610-1663 | one pass over an interior glowstone at night lights it to 12, marks no neighbour and empties the queue |
| Lighting.GlowstoneLitNeighbour | SD2/SimpleMiner/Code/Game/World.cpp:1667-1708 | afterwards the sky block east of the glowstone holds the night level 6 while its ideal light is 11 |
| Lighting.MiddleIsInterior | SD2/SimpleMiner/Code/Game/GameCommon.hpp:257-260 | index 16520 is (8, 8, 64), from which no step leaves the chunk |
| Lighting.SkyNeighbourStaysDark | SD2/SimpleMiner/Code/Game/World.cpp:1633-1663 | as written, the loop can drain the queue from a world settled everywhere and leave a sky block off its ideal light |
| Lighting.DirtyNeighboursFacts | SD2/SimpleMiner/Code/Game/World.cpp:1633-1663 | marking all six neighbours, sky blocks included, keeps the invariant, sets dirty bits only and leaves every neighbour dirty |
| Lighting.RelaxRequeuingSkyKeepsQueue | SD2/SimpleMiner/Code/Game/World.cpp:1610-1663 | the corrected pass, which marks sky neighbours too, keeps the invariant |
| Lighting.RelaxRequeuingSkyKeepsSettled | SD2/SimpleMiner/Code/Game/World.cpp:1610-1663 | the corrected pass keeps every clean block, sky blocks included, at its ideal light |
| Lighting.RelightRequeuingSkyKeepsSettled | SD2/SimpleMiner/Code/Game/World.cpp:1610-1663 | the corrected passes keep every clean block at its ideal light |
| Lighting.DrainedRequeuingRelightIsIdeal | SD2/SimpleMiner/Code/Game/World.cpp:1610-1663 | with sky neighbours re-marked, a settled world relit until the queue is empty has every block, sky blocks included, at its ideal light |
| Lighting.StepDownIsBelow | SD2/SimpleMiner/Code/Game/BlockInfo.cpp:115-126 | stepping down moves one layer down, or stays put on the bottom layer |
| Lighting.StepUpIsAbove | SD2/SimpleMiner/Code/Game/BlockInfo.cpp:100-111 | stepping up moves one layer up, or stays put on the top layer |
| Lighting.ClearSkyDownFacts | SD2/SimpleMiner/Code/Game/World.cpp:1731-1757 | the placement descent clears the sky bit of exactly the cells from the placed block down to just above the highest opaque block below it, and marks them; every other cell is kept; opacity and the invariant hold |
| Lighting.SetSkyDownFacts | SD2/SimpleMiner/Code/Game/World.cpp:1761-1791 | the breaking descent sets the sky bit of exactly the cells from its start down to the first opaque block, that block included, and marks them; every other cell is kept; the invariant holds |
| Lighting.BlockPlacedRelightFacts | SD2/SimpleMiner/Code/Game/World.cpp:1731-1757 | after placing a block, it is dirty and queued; under a former sky block the column down to the next opaque block has lost its sky bit and is dirty; otherwise only the placed block was marked (this is `Lighting.BlockPlacedRelight`) |
| Lighting.BrokenStartIsBrokenCell | SD2/SimpleMiner/Code/Game/World.cpp:1765-1773 | the step up then down lands on the broken block itself, except on the top layer, where it lands one layer lower |
| Lighting.BlockBrokenRelightFacts | SD2/SimpleMiner/Code/Game/World.cpp:1761-1791 | after breaking a block, it is dirty and queued; when the block above is sky, the column from the descent's start down to the first opaque block becomes sky and dirty; every other cell is kept (this is `Lighting.BlockBrokenRelight`) |
| Lighting.SkyColumnsFromFacts | SD2/SimpleMiner/Code/Game/World.cpp:1551-1574 | the sky pass makes sky and fully lit exactly the cells of the chunk that are open to the sky, and changes no dirty bit |
| Lighting.BleedColumnsFromFacts | SD2/SimpleMiner/Code/Game/World.cpp:1576-1594 | the bleed pass marks the non-sky horizontal neighbours of every cell open to the sky, and sets dirty bits only |
| Lighting.EmittersFromFacts | SD2/SimpleMiner/Code/Game/World.cpp:1596-1605 | the emitter pass leaves every light-emitting non-sky block of the chunk dirty, and sets dirty bits only |
| Lighting.InitializeLightingCells | SD2/SimpleMiner/Code/Game/World.cpp:1548-1606 | after initialisation the invariant holds and types and opacity are kept; the chunk's cells open to the sky are sky at full light; every other cell keeps its sky bit and its light (this is `Lighting.InitializeLighting`) |
| Lighting.InitializeLightingMarksEmitters | SD2/SimpleMiner/Code/Game/World.cpp:1596-1605 | after initialisation, every emitter of the chunk is dirty |
| Lighting.InitializeLightingMarksNeighbours | SD2/SimpleMiner/Code/Game/World.cpp:1576-1594 | after initialisation, every non-sky horizontal neighbour of each cell open to the sky is dirty |
| Lighting.InitializeLightingKeepsTypes | SD2/SimpleMiner/Code/Game/World.cpp:1548-1606 | initialisation keeps the block types the chunk was populated with |
| Lighting.MarkCellsFromFacts | SD2/SimpleMiner/Code/Game/World.cpp:1795-1800 | marking a chunk leaves every one of its cells dirty and queued, and sets dirty bits only (this is `Lighting.MarkCellsFrom`) |
| Lighting.WithSkyLevel | SD2/SimpleMiner/Code/Game/Chunk.cpp:1078-1082 | the chunk gets the new sky level; its cells, every other chunk and the queue are kept |
| Lighting.UpdateSkyLevelsFacts | SD2/SimpleMiner/Code/Game/World.cpp:1712-1727 | each visited chunk ends at the level and the others keep theirs; every cell of a chunk whose level changed is dirty; only dirty bits changed; the queue only grew; the invariant holds (this is `Lighting.UpdateSkyLevels`) |
| Lighting.Arrive | SD2/SimpleMiner/Code/Game/Chunk.cpp:16-35 | a new chunk joins the world; the queue and the other chunks are kept |
| Lighting.Remove | SD2/SimpleMiner/Code/Game/World.cpp:977-994 | the flushed chunk leaves the world; the queue is kept |
| Lighting.MarkNeighbourChunksFacts | SD2/SimpleMiner/Code/Game/World.cpp:1082-1131 | marking the chunks beside a new chunk keeps the invariant and dirties only; afterwards every cell of each active chunk beside it is dirty and queued |
| Lighting.CreatedFacts | SD2/SimpleMiner/Code/Game/World.cpp:1050-1078 | creating a chunk keeps the invariant; the chunk holds the populated types; every cell of each active chunk beside it is dirty; removing it again gives back the world before, up to dirty bits (this is `Lighting.Created`) |
| Worlds.StepAgrees | SD2/SimpleMiner/Code/Game/BlockInfo.cpp:16-126 | with every chunk's pointers naming the chunks at its neighbouring coordinates, a cursor step through pointers is the coordinate step of the lighting model |
| Worlds.PopulatedCells | SD2/SimpleMiner/Code/Game/World.cpp:1063-1071 | a new chunk is filled with one clean cell per block, from the save file when one was read and from the generator otherwise |
| Worlds.FlushedChunkLoads | SD2/SimpleMiner/Code/Game/World.cpp:977-994 | what flushing saves, with the encoder as written, is a well-formed save file; a chunk loaded from it gets the flushed chunk's types back exactly when the flushed chunk's last block is AIR |
| Worlds.CorrectedFlushedChunkLoads | SD2/SimpleMiner/Code/Game/World.cpp:1063-1071 | with the final run flushed, what is saved is well-formed and a chunk loaded from it holds every type of the flushed chunk |
| Worlds.WiringLinks | SD2/SimpleMiner/Code/Game/World.cpp:1082-1131 | wiring the four sides of a new chunk links every active chunk with its neighbours |
| Worlds.UnwiringLinks | SD2/SimpleMiner/Code/Game/World.cpp:1135-1172 | unwiring a chunk's four sides and dropping it leaves the chunks that stay linked |
| Worlds.UnwiringUndoesWiring | SD2/SimpleMiner/Code/Game/World.cpp:1082-1172 | flushing a chunk just created gives the chunks that stay the pointers they held before it arrived |
| Worlds.StepToward | SD2/SimpleMiner/Code/Game/World.cpp:1438-1484 | the direction reported for a step selects the hit block's face that points back along the step |
| Worlds.FindDirectionReports | SD2/SimpleMiner/Code/Game/World.cpp:1438-1484 | a direction is reported only when its step happened and reached the hit block's coordinate on its axis (this is `Worlds.FindDirectionBetweenBlocks`) |
| Worlds.DirectionOfAdjacentBlock | SD2/SimpleMiner/Code/Game/World.cpp:1438-1484 | for a hit block one step from the previous block, that step's direction is reported, and selecting by it picks the face toward the previous block |
| Worlds.AsWrittenAgreesWhenStepsHappen | SD2/SimpleMiner/Code/Game/World.cpp:1438-1484 | where no step fails, the function as written and the corrected one agree (the one as written is `Worlds.FindDirectionBetweenBlocksAsWritten`) |
| Worlds.AsWrittenFailedStepMisreads | SD2/SimpleMiner/Code/Game/World.cpp:1443-1444 | as written, from a block on the bottom layer, the block east of it is reported as lying below |
| Worlds.RadiiAgreeMeans | SD2/SimpleMiner/Code/Game/World.cpp:31-32 | the constructor's two radius checks hold exactly when the flush radius exceeds the active one by a positive multiple of 16; the initial radii pass |
| Worlds.World.constructor | SD2/SimpleMiner/Code/Game/World.cpp:20-38 | initial radii, which pass the checks; the overworld; no active chunks; an empty lighting queue |
| Worlds.World.MarkBlockLightingDirty | SD2/SimpleMiner/Code/Game/World.cpp:1899-1907 | the world ends as `Lighting.Mark` says; an index past the chunk changes nothing |
| Worlds.World.DirtyNonSkyNeighborsForBlock | SD2/SimpleMiner/Code/Game/World.cpp:1633-1663 | the world ends as `Lighting.DirtyNonSkyNeighbours` says |
| Worlds.World.GetIdealLightForBlock | SD2/SimpleMiner/Code/Game/World.cpp:1667-1708 | the result is `Lighting.IdealLight` of the cursor's cell |
| Worlds.World.UpdateLighting | SD2/SimpleMiner/Code/Game/World.cpp:1610-1629 | the world ends as `Lighting.Relight` says, for the given number of passes; exactly the meshes of the chunks `Lighting.RelitChunks` collects become dirty, and every other chunk's mesh flag is kept |
| Worlds.World.RelaxDirtyBlock | SD2/SimpleMiner/Code/Game/World.cpp:1614-1627 | one pass: the world ends as `Lighting.Relax` says; the mesh of the chunk whose light changed becomes dirty and every other flag is kept |
| Worlds.World.PopDirtyBlock | SD2/SimpleMiner/Code/Game/World.cpp:1614-1619 | the front cursor is returned and the world ends as `Lighting.Popped` says; no mesh flag changes |
| Worlds.World.RelaxPopped | SD2/SimpleMiner/Code/Game/World.cpp:1621-1627 | after the pop, the world ends as `Lighting.Relax` says and only the relaxed chunk's mesh becomes dirty |
| Worlds.World.RelaxWith | SD2/SimpleMiner/Code/Game/World.cpp:1621-1627 | with the ideal light computed for the popped block, the world ends as `Lighting.Relax` of the world before the pop says, and the block's chunk's mesh becomes dirty exactly when its light changes; every other flag is kept |
| Worlds.World.StoreIdealLight | SD2/SimpleMiner/Code/Game/World.cpp:1625-1626 | the block takes the new light and its non-sky neighbours are marked, as `Lighting.DirtyNonSkyNeighbours` says; no mesh flag changes |
| Worlds.World.ApplyIdealLight | SD2/SimpleMiner/Code/Game/World.cpp:1625-1627 | as `StoreIdealLight`, and the block's own chunk's mesh becomes dirty while every other flag is kept |
| Worlds.World.UpdateLightingForBlockPlaced | SD2/SimpleMiner/Code/Game/World.cpp:1731-1757 | the world ends as `Lighting.BlockPlacedRelight` says; an index past the chunk changes nothing |
| Worlds.World.UpdateLightingForBlockBroken | SD2/SimpleMiner/Code/Game/World.cpp:1761-1791 | the world ends as `Lighting.BlockBrokenRelight` says |
| Worlds.World.MarkChunkLightingDirty | SD2/SimpleMiner/Code/Game/World.cpp:1795-1800 | the world ends as `Lighting.MarkCellsFrom` from index 0 says; no chunk's own fields change |
| Worlds.World.UpdateChunks | SD2/SimpleMiner/Code/Game/World.cpp:1712-1727 | the level is night light or full light as the flag says; the world ends as `Lighting.UpdateSkyLevels` says over the active map's key order |
| Worlds.World.InitializeLightingForChunk | SD2/SimpleMiner/Code/Game/World.cpp:1548-1606 | the world ends as `Lighting.InitializeLighting` says |
| Worlds.World.UpdateNeighborPointers | SD2/SimpleMiner/Code/Game/World.cpp:1082-1131 | the new chunk is linked both ways with each active chunk beside it; those chunks' meshes and cells are marked dirty |
| Worlds.World.CreateOrLoadChunk | SD2/SimpleMiner/Code/Game/World.cpp:1050-1078 | the chunk becomes active, linked, populated, lit and meshed; the lighting ends as `Lighting.Created` says |
| Worlds.World.NullifyNeighborPointers | SD2/SimpleMiner/Code/Game/World.cpp:1135-1172 | each chunk beside the obsolete one stops pointing at it and has its mesh marked; lighting is unchanged |
| Worlds.World.FlushChunk | SD2/SimpleMiner/Code/Game/World.cpp:977-994 | the chunk is unlinked and leaves the map; its neighbours' meshes are marked; unless saving is disabled, the save file holds the as-written run-length encoding of its types, whose final run is missing (see Findings) |

## Left out

- File I/O is not modelled: loading a chunk file, writing the save file, and the player file. `CreateOrLoadChunk` takes the bytes read, if any, as a parameter. `FlushChunk` returns the bytes it would write.
- The sound calls are not modelled: the block-definition sound pickers, the HUD sound and the walking and digging sounds. They are random picks and float timers.
- `delete` of a flushed chunk is not modelled. The chunk only leaves the map.
- Rendering is not modelled: mesh emission, vertex buffers and `GetLightColorForLightLevel`, which produces float colours. `RebuildVertexArray` models only the mesh-dirty flag it clears.
- Streaming selection by camera distance is not modelled. The coordinate to create or flush is a parameter.
- Raycasting, block selection by ray, physics, movement, digging progress and the camera are float arithmetic, so they are not modelled.
- Perlin noise and the village-centre search are not modelled. The scaled ground and ceiling heights are function parameters.
- Villages, roads, the flat-structure pass and the shrine structures are not modelled. Only `BuildPond` and `GetMaxColumnGroundHeightForArea` are. Of `BuildPortalShrine`, only the pillar height is modelled, in `Terrain.PortalShrineTop`.
- Of the game's map of maps, only the active dimension's map is modelled. Switching dimensions is left out.
- Integers are unbounded. Where 32-bit range matters (the chunk lookup and the global-coordinate lemmas), it is a precondition written with `GameCommon.IsInt32`.
- `BlockInfo::GetBlock` is not a member of its own. Each cursor read is the chunk's `GetBlockFromLocalBlockIndex`, which every model of a cursor read calls.
- `BlockInfo` steps and the `Block` setters are functions that return the new cursor or cell. The game copies both by value. The chunk and world methods write each cell back into the chunk's array, which is where the state changes in place.
- BlockDefinitions.GetLightLevel: `BlockDefinition::GetLightLevel` is declared at BlockDefinition.hpp:30 and has no body in BlockDefinition.cpp, although World.cpp:1601 calls it. It is taken to return the entry's `m_emittedLightLevel`, the table's emitted light level, which lies in [0, 15]. This is an assumption.
- `InitializeBlockDefinitions` is modelled as the finished table, not entry by entry. Textures are left out.
- `IntVectors.DefaultIntVector3`: the default `IntVector3` leaves z unspecified. The model takes z as a parameter.
- MathUtils.WrapNumberWithinCircularRange requires max > min. The game loops forever otherwise.
- Chunks.Chunk.IsBlockSolid has no contract beyond its body, which is a registry lookup.
- GameCommon.TruncatingRemainder is C++'s `%` on ints. It is a helper without a contract of its own; `Worlds.RadiiAgreeMeans` states what the radius check means.
- Chunks.Chunk.PopulateChunkWithRleString requires a well-formed save: an even length, type bytes below 18, and counts that sum to at most 32768. The game does not check the bytes, and would write past the array or read an unregistered type otherwise.
- Chunks.Chunk.SetBlockTypeIfLocal is modelled with the height check it lacks; the as-written write is `Chunks.LocalWriteIndexAsWritten` (see Findings).
- Chunks.Chunk.GetBlockFromLocalBlockIndex and `Chunks.Chunk.GetBlockFromLocalBlockCoords` are modelled with the guards they evidently intend; the as-written guards are predicates (see Findings).
- Chunks.Chunk.Unhighlight follows the code: the chunk reports that it is highlighting right after it.
- Worlds.FindDirectionBetweenBlocksAsWritten rejects index 32768 with the other bad indices. The game's `>` guards let it through to a read past the array.
- Worlds.World.UpdateLighting runs at most a given number of passes, because termination of the game's loop is not evident. Its result is `Lighting.Relight` for that many passes, and every pass keeps the dirty-iff-queued invariant. The loop as written does not reach ideal light everywhere, even when it drains the queue. `Lighting.DrainedRelightIsIdeal` proves only that every non-sky block ends at its ideal light, given a settled start. Sky blocks beside a changed light are never re-marked, so they can stay off (see Findings).
- Lighting.Relight ensures only the invariant, and `Lighting.RelightKeepsShape` the kept shape. What a run that drains the queue reaches is the separate lemma `Lighting.DrainedRelightIsIdeal`. When the passes run out first, nothing is claimed about the cells still queued.
- Worlds.World.UpdateLightingForBlockPlaced requires a cursor with a chunk. When `PlaceBlock` did nothing, `SelectBlock` passes the null cursor and the game dereferences null. It also requires that an opaque block ends the descent, since the game loops forever otherwise. `Worlds.World.UpdateLightingForBlockBroken` has the same descent precondition.
- Worlds.World.FlushChunk requires that no queued block lies in the flushed chunk, since the game would keep a dangling cursor in the queue. It saves with `Chunks.Chunk.GetRleString` as written, so the save file lacks the final run (see Findings); `Worlds.CorrectedFlushedChunkLoads` states the reload with the final run flushed.
- Chunks.Chunk.constructor starts the four neighbour pointers at null, the selected index at 99999 and the selected face at NONE. The game leaves them uninitialised (Chunk.cpp:15-35, Chunk.hpp:66-72). `UpdateNeighborPointers` writes all four pointers (World.cpp:1082-1131) before anything reads them. `UnhighlightSelectedBlock` does read `IsHighlighting` (World.cpp:1494). So does `SetSelectedFace`, which keeps the old face for a direction off the six axes. On a chunk never highlighted, both would see indeterminate values in the game, and see NONE in the model.
- GameCommon.GetLocalBlockIndexFromLocalBlockCoords and GameCommon.GetLocalBlockIndexFromLocalBlockCoordsNoBitMath require non-negative components. The source takes any `int`. The bit operations of `Bits` are defined on `nat`; a negative component would need a two's-complement OR on 32-bit words, which is not modelled. The game's callers pass in-chunk coordinates, except through the as-written coordinate guard, whose z = -1 case `Chunks.CoordsGuardAsWrittenAdmitsOutside` records (see Findings).
- Worlds.World.constructor leaves out `InitializeBlockDefinitions`, which the table function stands for, the player file and the sound.
- Worlds.World.CreateOrLoadChunk leaves out the coordinate-to-file-name formatting of the save path.

## Findings

`FlushChunk` saves a chunk with `GetRleString` (World.cpp:986), and `CreateOrLoadChunk` reloads that file with `PopulateChunkWithRleString` (World.cpp:1067-1070). A reload should therefore restore the chunk. The encoder as written does not deliver this: `Worlds.FlushedChunkLoads` shows the types come back only when the last block is AIR. The model follows the code in `Chunks.Chunk.GetRleString` and `Worlds.World.FlushChunk`. It proves the round trip for the corrected encoder in `Chunks.SaveLoadRoundTrip` and `Worlds.CorrectedFlushedChunkLoads`.

| source | as written | input that shows it | evidently intended | confidence | as-written member | corrected member |
|---|---|---|---|---|---|---|
| SD2/SimpleMiner/Code/Game/Chunk.cpp:1237-1248 | the loop emits a run only when the type changes or the count reaches 255, and the final run is never emitted | a chunk whose cells are all STONE saves 128 full pairs and drops the last 128 blocks; reloaded into a fresh chunk, they come back as AIR | emit the final pair after the loop, so that loading a save restores every type | high; not executed | Chunks.AsWrittenSaveLoad | Chunks.SaveLoadRoundTrip |
| SD2/SimpleMiner/Code/Game/GameCommon.cpp:74-75 | global x and y are the chunk's minimum corner times the local coordinate | local (3, 0, 0) in chunk (1, 0) maps to global x 48, not 19; every block of chunk (0, 0) maps to x = y = 0 | add the corner, as `Chunk::GetWorldCoordsFromLocalBlockIndex` does at Chunk.cpp:1023-1025 | high; not executed | GameCommon.GlobalBlockCoordsAsWrittenMisplaces | GameCommon.GlobalBlockCoordsInverse |
| SD2/SimpleMiner/Code/Game/Chunk.cpp:1218 | the guard rejects indices `> NUM_BLOCKS_PER_CHUNK` | index 32768 passes and addresses one past the last cell | reject indices `>= NUM_BLOCKS_PER_CHUNK` | high; not executed | Chunks.IndexGuardAsWrittenAdmitsEnd | Chunks.Chunk.GetBlockFromLocalBlockIndex |
| SD2/SimpleMiner/Code/Game/Chunk.cpp:1226-1227 | y is compared with 0 twice and z never, and the upper bounds use `>` | (16, 0, 0) passes and names cell (0, 1, 0); (0, 0, 128) passes and names index 32768; (0, 0, -1) passes | compare x, y and z with 0 and with `>=` against the extents | high; not executed | Chunks.CoordsGuardAsWrittenAdmitsOutside | Chunks.Chunk.GetBlockFromLocalBlockCoords |
| SD2/SimpleMiner/Code/Game/Chunk.cpp:481-483 | z is written unchecked, and the portal shrine's pillars reach ground + 30 (Chunk.cpp:255-260) | a shrine whose area's ground reaches 98 writes height 128 of chunk (0, 0), which is index 32768 | skip heights outside [0, 128) | medium; not executed | Chunks.LocalWriteAsWrittenLeavesChunk | Chunks.Chunk.SetBlockTypeIfLocal |
| SD2/SimpleMiner/Code/Game/World.cpp:1443-1444 | a failed step leaves the cursor in place, and its coordinates are compared all the same | from a block on the bottom layer, the hit block east of it is reported as lying below (`WORLD_DOWN`) | skip a direction whose step fails | high; not executed | Worlds.AsWrittenFailedStepMisreads | Worlds.DirectionOfAdjacentBlock |
| SD2/SimpleMiner/Code/Game/World.cpp:1633-1663 | after a block's light changes, only its non-sky neighbours are marked dirty, yet a sky block's ideal light also depends on its neighbours (World.cpp:1667-1708) | at night (sky level 6), a GLOWSTONE at index 16520 of a chunk of sky AIR is lit to 12 and the queue empties; the sky block east of it keeps 6 while its ideal light is 11 | mark every neighbour whose ideal light may change, sky blocks included | medium; not executed | Lighting.SkyNeighbourStaysDark | Lighting.DrainedRequeuingRelightIsIdeal |
