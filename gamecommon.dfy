/**
 * Shared constants and coordinate conversions of the game: chunk extents
 * derived from bit widths, the light constants, the block-type and face
 * enumerations, and the conversions between a local block index, local
 * block coordinates, chunk coordinates and global block coordinates.
 */
module GameCommon {

  import opened Bits
  import opened IntVectors
  import opened MathUtils

  // Lighting.
  const NUM_BITS_FOR_LIGHT_LEVEL: nat := 4
  const MAX_LIGHTING_LEVEL: int := Pow2(NUM_BITS_FOR_LIGHT_LEVEL) - 1
  const NIGHT_LIGHTING_LEVEL: int := Max(0, MAX_LIGHTING_LEVEL / 2 - 1)
  const GLOWSTONE_LIGHT_LEVEL: int := Max(0, (3 * MAX_LIGHTING_LEVEL) / 4 + 1)

  type LightLevel = n: int | 0 <= n <= 15

  // Chunk extents.
  const CHUNK_BITS_X: nat := 4
  const CHUNK_BITS_Y: nat := 4
  const CHUNK_BITS_Z: nat := 7
  const CHUNK_X_LENGTH_IN_BLOCKS: nat := 16
  const CHUNK_Y_WIDTH_IN_BLOCKS: nat := 16
  const CHUNK_Z_HEIGHT_IN_BLOCKS: nat := 128
  const NUM_COLUMNS_PER_CHUNK: nat := CHUNK_X_LENGTH_IN_BLOCKS * CHUNK_Y_WIDTH_IN_BLOCKS
  const NUM_BLOCKS_PER_CHUNK: nat := NUM_COLUMNS_PER_CHUNK * CHUNK_Z_HEIGHT_IN_BLOCKS
  const BITS_PER_XY_LAYER: nat := CHUNK_BITS_X + CHUNK_BITS_Y
  const LOCAL_X_BITMASK: nat := CHUNK_X_LENGTH_IN_BLOCKS - 1
  const LOCAL_Y_BITMASK: nat := CHUNK_Y_WIDTH_IN_BLOCKS - 1

  // Streaming radii, in world units.
  const INITIAL_ACTIVE_RADIUS: int := 128
  const INITIAL_FLUSH_RADIUS: int := 144

  // Terrain.
  const GROUND_HEIGHT_MINIMUM: int := 64
  const CEILING_HEIGHT_OFFSET: int := 100
  const NUM_DIRT_LAYERS: int := 6
  const SEA_LEVEL_HEIGHT_LIMIT: int := CHUNK_Z_HEIGHT_IN_BLOCKS / 2
  const NETHER_LAVA_HEIGHT_LIMIT: int := CHUNK_Z_HEIGHT_IN_BLOCKS / 4

  /** The `BlockType` enumeration (an unsigned char); every value below NUM_BLOCK_TYPES is registered. */
  const NUM_BLOCK_TYPES: int := 18
  type BlockType = t: int | 0 <= t < NUM_BLOCK_TYPES

  const AIR: BlockType := 0
  const WATER: BlockType := 1
  const DIRT: BlockType := 2
  const GRASS: BlockType := 3
  const SAND: BlockType := 4
  const STONE: BlockType := 5
  const COBBLESTONE: BlockType := 6
  const GLOWSTONE: BlockType := 7
  const STAIRS: BlockType := 8
  const LADDER: BlockType := 9
  const LAVA: BlockType := 10
  const RED_SAND: BlockType := 11
  const MYCELIUM: BlockType := 12
  const NETHERRACK: BlockType := 13
  const BROWNSTONE: BlockType := 14
  const PORTAL: BlockType := 15
  const GOLD_BRICK: BlockType := 16
  const GRAVEL: BlockType := 17

  datatype BlockFace = NONE | BOTTOM | TOP | LEFT | RIGHT | FRONT | BACK

  datatype Dimension = DIM_OVERWORLD | DIM_NETHER | NUM_DIMENSIONS

  type LocalBlockCoords = IntVector3
  type GlobalBlockCoords = IntVector3
  type ChunkCoords = IntVector2
  type LocalColumnCoords = IntVector2
  type LocalBlockIndex = nat
  type ChunkColumnIndex = nat

  /** Local block coordinates that name a cell of a chunk. */
  predicate InChunk(lbc: LocalBlockCoords)
  {
    0 <= lbc.x < CHUNK_X_LENGTH_IN_BLOCKS && 0 <= lbc.y < CHUNK_Y_WIDTH_IN_BLOCKS
    && 0 <= lbc.z < CHUNK_Z_HEIGHT_IN_BLOCKS
  }

  /** The three light constants evaluate to 15, 6 and 12. */
  lemma LightConstantValues()
    ensures MAX_LIGHTING_LEVEL == 15
    ensures NIGHT_LIGHTING_LEVEL == 6
    ensures GLOWSTONE_LIGHT_LEVEL == 12
  {
  }

  /** Each extent is 2 to the power of its bit width. */
  lemma ChunkExtentsFromBits()
    ensures CHUNK_X_LENGTH_IN_BLOCKS == Pow2(CHUNK_BITS_X)
    ensures CHUNK_Y_WIDTH_IN_BLOCKS == Pow2(CHUNK_BITS_Y)
    ensures CHUNK_Z_HEIGHT_IN_BLOCKS == Pow2(CHUNK_BITS_Z)
    ensures NUM_COLUMNS_PER_CHUNK == 256 == Pow2(BITS_PER_XY_LAYER)
    ensures NUM_BLOCKS_PER_CHUNK == 32768
  {
  }

  /** `GetLocalBlockCoordsFromLocalBlockIndex`: masks and shifts over 4/4/7 bits. */
  function GetLocalBlockCoordsFromLocalBlockIndex(lbi: LocalBlockIndex): (lbc: LocalBlockCoords)
    requires lbi < NUM_BLOCKS_PER_CHUNK
    ensures InChunk(lbc)
  {
    CoordsFromIndexArithmetic(lbi);
    IntVector3(BitAnd(lbi, LOCAL_X_BITMASK),
               BitAnd(ShiftRight(lbi, CHUNK_BITS_X), LOCAL_Y_BITMASK),
               ShiftRight(lbi, BITS_PER_XY_LAYER))
  }

  /**
   * `GetLocalBlockIndexFromLocalBlockCoords`: `x | y << 4 | z << 8`, with no
   * range check.  Negative components would become huge unsigned values,
   * so they are excluded.
   */
  function GetLocalBlockIndexFromLocalBlockCoords(lbc: LocalBlockCoords): LocalBlockIndex
    requires lbc.x >= 0 && lbc.y >= 0 && lbc.z >= 0
  {
    BitOr(BitOr(lbc.x, ShiftLeft(lbc.y, CHUNK_BITS_X)), ShiftLeft(lbc.z, BITS_PER_XY_LAYER))
  }

  /** The masks and shifts compute remainder and quotient by 16 and 256. */
  lemma CoordsFromIndexArithmetic(lbi: LocalBlockIndex)
    ensures BitAnd(lbi, LOCAL_X_BITMASK) == lbi % 16
    ensures BitAnd(ShiftRight(lbi, CHUNK_BITS_X), LOCAL_Y_BITMASK) == (lbi / 16) % 16
    ensures ShiftRight(lbi, BITS_PER_XY_LAYER) == lbi / 256
  {
    assert Pow2(4) == 16 && Pow2(8) == 256;
    ShiftRightDivides(lbi, 4);
    ShiftRightDivides(lbi, 8);
    AndLowMask(lbi, 4);
    AndLowMask(lbi / 16, 4);
  }

  /** For coordinates inside the chunk, the ORs are additions and the index is below 32768. */
  lemma IndexFromCoordsArithmetic(lbc: LocalBlockCoords)
    requires InChunk(lbc)
    ensures GetLocalBlockIndexFromLocalBlockCoords(lbc) == lbc.x + 16 * lbc.y + 256 * lbc.z
    ensures GetLocalBlockIndexFromLocalBlockCoords(lbc) < NUM_BLOCKS_PER_CHUNK
  {
    assert Pow2(4) == 16 && Pow2(8) == 256;
    assert ShiftLeft(lbc.y, 4) == 16 * lbc.y && ShiftLeft(lbc.z, 8) == 256 * lbc.z;
    OrDisjoint(lbc.y, lbc.x, 4);
    OrDisjoint(lbc.z, lbc.x + 16 * lbc.y, 8);
  }

  /** Index to coordinates and back is the identity on every index of the chunk. */
  lemma IndexCoordsRoundTrip(lbi: LocalBlockIndex)
    requires lbi < NUM_BLOCKS_PER_CHUNK
    ensures GetLocalBlockIndexFromLocalBlockCoords(GetLocalBlockCoordsFromLocalBlockIndex(lbi)) == lbi
  {
    var lbc := GetLocalBlockCoordsFromLocalBlockIndex(lbi);
    CoordsFromIndexArithmetic(lbi);
    IndexFromCoordsArithmetic(lbc);
    var q := lbi / 16;
    assert lbi == 16 * q + lbi % 16;
    assert q == 16 * (q / 16) + q % 16;
    DivDiv(lbi, 16, 16);
    assert lbc == IntVector3(lbi % 16, q % 16, q / 16);
  }

  /** Coordinates to index and back is the identity on every cell of the chunk. */
  lemma CoordsIndexRoundTrip(lbc: LocalBlockCoords)
    requires InChunk(lbc)
    ensures GetLocalBlockIndexFromLocalBlockCoords(lbc) < NUM_BLOCKS_PER_CHUNK
    ensures GetLocalBlockCoordsFromLocalBlockIndex(GetLocalBlockIndexFromLocalBlockCoords(lbc)) == lbc
  {
    IndexFromCoordsArithmetic(lbc);
    var lbi := lbc.x + 16 * lbc.y + 256 * lbc.z;
    CoordsFromIndexArithmetic(lbi);
    DivModUnique(lbi, 16, lbc.y + 16 * lbc.z, lbc.x);
    DivModUnique(lbc.y + 16 * lbc.z, 16, lbc.z, lbc.y);
    DivModUnique(lbi, 256, lbc.z, lbc.x + 16 * lbc.y);
  }

  /** Without a range check an out-of-range x aliases a cell of the next row. */
  lemma IndexFromCoordsUnchecked()
    ensures GetLocalBlockIndexFromLocalBlockCoords(IntVector3(16, 0, 0))
         == GetLocalBlockIndexFromLocalBlockCoords(IntVector3(0, 1, 0))
  {
    OrDisjoint(1, 0, 4);
    OrDisjoint(0, 16, 8);
    OrDisjoint(0, 0, 8);
    BitOrZero(16);
  }

  /** `GetLocalBlockIndexFromLocalBlockCoordsNoBitMath`: z*256 + y*16 + x, no range check. */
  function GetLocalBlockIndexFromLocalBlockCoordsNoBitMath(lbc: LocalBlockCoords): LocalBlockIndex
    requires lbc.x >= 0 && lbc.y >= 0 && lbc.z >= 0
  {
    var z := lbc.z * NUM_COLUMNS_PER_CHUNK;
    var y := lbc.y * CHUNK_X_LENGTH_IN_BLOCKS;
    var x := lbc.x * 1;
    x + y + z
  }

  /** `GetLocalBlockCoordsFromLocalBlockIndexNoBitMath`: remainders and quotients. */
  function GetLocalBlockCoordsFromLocalBlockIndexNoBitMath(lbi: LocalBlockIndex): LocalBlockCoords
    requires lbi < NUM_BLOCKS_PER_CHUNK
  {
    IntVector3(lbi % CHUNK_X_LENGTH_IN_BLOCKS,
               (lbi / CHUNK_X_LENGTH_IN_BLOCKS) % CHUNK_Y_WIDTH_IN_BLOCKS,
               lbi / NUM_COLUMNS_PER_CHUNK)
  }

  /** The plain-division conversions agree with the bit versions, in both directions. */
  lemma NoBitMathAgrees(lbi: LocalBlockIndex, lbc: LocalBlockCoords)
    requires lbi < NUM_BLOCKS_PER_CHUNK
    requires InChunk(lbc)
    ensures GetLocalBlockCoordsFromLocalBlockIndexNoBitMath(lbi) == GetLocalBlockCoordsFromLocalBlockIndex(lbi)
    ensures GetLocalBlockIndexFromLocalBlockCoordsNoBitMath(lbc) == GetLocalBlockIndexFromLocalBlockCoords(lbc)
  {
    CoordsFromIndexArithmetic(lbi);
    IndexFromCoordsArithmetic(lbc);
  }

  /** The range a C++ `int` can hold. */
  predicate IsInt32(v: int)
  {
    -0x8000_0000 <= v < 0x8000_0000
  }

  /** C++ integer division, which truncates toward zero. */
  function TruncatingDivision(a: int, b: int): int
    requires b > 0
  {
    if a >= 0 then a / b else -((-a) / b)
  }

  /** C++ `%` on integers: the remainder of the truncating division, which takes the sign of a. */
  function TruncatingRemainder(a: int, b: int): int
    requires b > 0
  {
    if a >= 0 then a % b else -((-a) % b)
  }

  /** `v & mask` on a 32-bit two's-complement `int`. */
  function TwosComplementAnd(v: int, mask: nat): nat
    requires IsInt32(v)
  {
    BitAnd(v % 0x1_0000_0000, mask)
  }

  /**
   * One axis of `GetChunkCoordsFromWorldCoordsXY`: truncating division by
   * 16, moved down by one for a negative coordinate that is not a
   * multiple of 16.
   */
  function ChunkCoordFromWorldCoord(wc: int): int
    requires IsInt32(wc)
  {
    var isMultipleOfSixteen := TwosComplementAnd(wc, CHUNK_X_LENGTH_IN_BLOCKS - 1) == 0;
    var cc := TruncatingDivision(wc, CHUNK_X_LENGTH_IN_BLOCKS);
    if wc < 0 && !isMultipleOfSixteen then cc - 1 else cc
  }

  /**
   * `GetChunkCoordsFromWorldCoordsXY` applied to the floored world
   * coordinates: both axes by the same rule, each independently.
   */
  function GetChunkCoordsFromWorldCoordsXY(flooredWc: IntVector2): (cc: ChunkCoords)
    requires IsInt32(flooredWc.x) && IsInt32(flooredWc.y)
    ensures 16 * cc.x <= flooredWc.x < 16 * (cc.x + 1)
    ensures 16 * cc.y <= flooredWc.y < 16 * (cc.y + 1)
  {
    ChunkCoordIsFloor(flooredWc.x);
    ChunkCoordIsFloor(flooredWc.y);
    IntVector2(ChunkCoordFromWorldCoord(flooredWc.x), ChunkCoordFromWorldCoord(flooredWc.y))
  }

  /** The corrected truncating division is floor division, negative coordinates included. */
  lemma ChunkCoordIsFloor(wc: int)
    requires IsInt32(wc)
    ensures ChunkCoordFromWorldCoord(wc) == wc / 16
    ensures 16 * ChunkCoordFromWorldCoord(wc) <= wc < 16 * (ChunkCoordFromWorldCoord(wc) + 1)
  {
    var u := wc % 0x1_0000_0000;
    AndLowMask(u, 4);
    assert u % 16 == wc % 16 by {
      DivModUnique(wc, 0x1_0000_0000, wc / 0x1_0000_0000, u);
      DivModUnique(u, 16, u / 16, u % 16);
      DivModUnique(wc, 16, 0x1000_0000 * (wc / 0x1_0000_0000) + u / 16, u % 16);
    }
    if wc < 0 {
      var n := -wc;
      DivModUnique(n, 16, n / 16, n % 16);
      if n % 16 == 0 {
        DivModUnique(wc, 16, -(n / 16), 0);
      } else {
        DivModUnique(wc, 16, -(n / 16) - 1, 16 - n % 16);
      }
    }
  }

  /** Concrete values: -1 and -16 lie in chunk -1, -17 in chunk -2, 15 in chunk 0. */
  lemma ChunkCoordExamples()
    ensures ChunkCoordFromWorldCoord(-1) == -1
    ensures ChunkCoordFromWorldCoord(-16) == -1
    ensures ChunkCoordFromWorldCoord(-17) == -2
    ensures ChunkCoordFromWorldCoord(15) == 0 && ChunkCoordFromWorldCoord(16) == 1
  {
    ChunkCoordIsFloor(-1);
    ChunkCoordIsFloor(-16);
    ChunkCoordIsFloor(-17);
    ChunkCoordIsFloor(15);
    ChunkCoordIsFloor(16);
  }

  /** `Chunk::GetChunkMinsInWorldUnits` for a chunk at the given coordinates. */
  function ChunkMinsInWorldUnits(chunkPosition: ChunkCoords): IntVector2
  {
    IntVector2(chunkPosition.x * CHUNK_X_LENGTH_IN_BLOCKS, chunkPosition.y * CHUNK_Y_WIDTH_IN_BLOCKS)
  }

  /**
   * `GetGlobalBlockCoordsFromChunkAndLocalBlockCoords` as written: the
   * chunk's minimum corner is MULTIPLIED by the local coordinates.
   */
  function GetGlobalBlockCoordsFromChunkAndLocalBlockCoords(chunkPosition: ChunkCoords, lbcX: int, lbcY: int, lbcZ: int): GlobalBlockCoords
  {
    var chunkPos := ChunkMinsInWorldUnits(chunkPosition);
    IntVector3(chunkPos.x * lbcX, chunkPos.y * lbcY, lbcZ)
  }

  /** `GetGlobalBlockCoordsFromChunkAndLocalBlockIndex`, which delegates to the above. */
  function GetGlobalBlockCoordsFromChunkAndLocalBlockIndex(chunkPosition: ChunkCoords, lbi: LocalBlockIndex): GlobalBlockCoords
    requires lbi < NUM_BLOCKS_PER_CHUNK
  {
    var lbc := GetLocalBlockCoordsFromLocalBlockIndex(lbi);
    GetGlobalBlockCoordsFromChunkAndLocalBlockCoords(chunkPosition, lbc.x, lbc.y, lbc.z)
  }

  /**
   * The product maps every block of chunk (0,0) to x = y = 0 and places
   * local x = 3 of chunk (1,0) at global x = 48 instead of 19.
   */
  lemma GlobalBlockCoordsAsWrittenMisplaces()
    ensures GetGlobalBlockCoordsFromChunkAndLocalBlockCoords(IntVector2(0, 0), 5, 7, 9) == IntVector3(0, 0, 9)
    ensures GetGlobalBlockCoordsFromChunkAndLocalBlockCoords(IntVector2(1, 0), 3, 0, 0) == IntVector3(48, 0, 0)
    ensures GlobalBlockCoordsFromChunkAndLocalBlockCoords(IntVector2(1, 0), 3, 0, 0) == IntVector3(19, 0, 0)
    ensures GetGlobalBlockCoordsFromChunkAndLocalBlockIndex(IntVector2(1, 0), 3) == IntVector3(48, 0, 0)
  {
    CoordsFromIndexArithmetic(3);
  }

  /**
   * The evidently intended conversion, which adds the chunk's minimum
   * corner as `Chunk::GetWorldCoordsFromLocalBlockIndex` does.
   */
  function GlobalBlockCoordsFromChunkAndLocalBlockCoords(chunkPosition: ChunkCoords, lbcX: int, lbcY: int, lbcZ: int): GlobalBlockCoords
  {
    var chunkPos := ChunkMinsInWorldUnits(chunkPosition);
    IntVector3(chunkPos.x + lbcX, chunkPos.y + lbcY, lbcZ)
  }

  /**
   * The corrected conversion is inverted by the chunk lookup: the global
   * coordinates of a cell lie in its own chunk, and subtracting the
   * chunk's corner gives back the local coordinates.
   */
  lemma GlobalBlockCoordsInverse(chunkPosition: ChunkCoords, lbc: LocalBlockCoords)
    requires InChunk(lbc)
    requires IsInt32(16 * chunkPosition.x) && IsInt32(16 * chunkPosition.x + 15)
    requires IsInt32(16 * chunkPosition.y) && IsInt32(16 * chunkPosition.y + 15)
    ensures var g := GlobalBlockCoordsFromChunkAndLocalBlockCoords(chunkPosition, lbc.x, lbc.y, lbc.z);
            GetChunkCoordsFromWorldCoordsXY(IntVector2(g.x, g.y)) == chunkPosition
            && Sub3(g, IntVector3(16 * chunkPosition.x, 16 * chunkPosition.y, 0)) == lbc
  {
    var g := GlobalBlockCoordsFromChunkAndLocalBlockCoords(chunkPosition, lbc.x, lbc.y, lbc.z);
    ChunkCoordIsFloor(g.x);
    ChunkCoordIsFloor(g.y);
    DivModUnique(g.x, 16, chunkPosition.x, lbc.x);
    DivModUnique(g.y, 16, chunkPosition.y, lbc.y);
  }

  /** `GetDimensionAsString`. */
  function GetDimensionAsString(dimension: Dimension): (s: string)
    ensures dimension == DIM_OVERWORLD <==> s == "Overworld"
    ensures dimension == DIM_NETHER <==> s == "Nether"
    ensures dimension == NUM_DIMENSIONS <==> s == "UnnamedDimension"
  {
    match dimension
    case DIM_OVERWORLD => "Overworld"
    case DIM_NETHER => "Nether"
    case _ => "UnnamedDimension"
  }
}
