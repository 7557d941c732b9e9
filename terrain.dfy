/**
 * Terrain generation rules that do not touch a chunk: the block type each
 * column-fill routine leaves at a height, the ground and ceiling heights
 * derived from a scaled noise value, the pond layout of a village and the
 * height of its portal shrine.  The Perlin noise itself is not modelled;
 * wherever the game samples it, these functions take the already scaled
 * and truncated noise term as an argument.
 */
module Terrain {

  import opened GameCommon
  import opened IntVectors
  import opened Optional
  import BlockDefinitions
  import MathUtils

  const VILLAGE_RADIUS_X_BLOCKS: int := 9
  const VILLAGE_RADIUS_Y_BLOCKS: int := 9
  const VILLAGE_POND_HEIGHT: int := 10
  const VILLAGE_PORTAL_SHRINE_HEIGHT: int := 30
  const VILLAGE_TREASURE_SHRINE_HEIGHT: int := 10
  const VILLAGE_BLOCKS_FROM_CENTER_TO_CONSTRUCT_INCLUDING_CENTER: int := 3

  /**
   * The type `PopulateColumnWithOverworldBlocksWithPerlinNoise` leaves at
   * height z of a column whose ground height is g.  In the dirt band the
   * loop first writes SAND below sea level and then DIRT over it, so DIRT
   * is what remains.
   */
  function OverworldBlockTypeAt(z: int, groundHeight: int): BlockType
  {
    if z > groundHeight then (if z < SEA_LEVEL_HEIGHT_LIMIT then WATER else AIR)
    else if z == groundHeight then (if z <= SEA_LEVEL_HEIGHT_LIMIT then SAND else GRASS)
    else if z > groundHeight - NUM_DIRT_LAYERS then DIRT
    else STONE
  }

  /** The same for `PopulateColumnWithNetherBlocksWithPerlinNoise`, whose column also has a ceiling. */
  function NetherBlockTypeAt(z: int, groundHeight: int, ceilingHeight: int): BlockType
  {
    if z < groundHeight - NUM_DIRT_LAYERS then BROWNSTONE
    else if z < groundHeight then NETHERRACK
    else if z == groundHeight then (if z <= NETHER_LAVA_HEIGHT_LIMIT then RED_SAND else MYCELIUM)
    else if z > groundHeight && z < ceilingHeight then (if z < NETHER_LAVA_HEIGHT_LIMIT then LAVA else AIR)
    else if z == ceilingHeight then (if z % 2 == 0 then GLOWSTONE else NETHERRACK)
    else if z >= ceilingHeight && z < ceilingHeight + NUM_DIRT_LAYERS then NETHERRACK
    else BROWNSTONE
  }

  /**
   * An overworld column is solid exactly up to its ground height: below
   * it there is stone under six layers of dirt and a sand or grass top,
   * above it water up to sea level and air beyond.
   */
  lemma OverworldColumnLayers(z: int, g: int)
    ensures BlockDefinitions.IsSolid(OverworldBlockTypeAt(z, g)) <==> z <= g
    ensures z == g ==> OverworldBlockTypeAt(z, g) == (if g <= 64 then SAND else GRASS)
    ensures g - 6 < z < g ==> OverworldBlockTypeAt(z, g) == DIRT
    ensures OverworldBlockTypeAt(z, g) == STONE <==> z <= g - 6
    ensures OverworldBlockTypeAt(z, g) == WATER <==> g < z < 64
  {
    BlockDefinitions.OpacityAndSolidity(OverworldBlockTypeAt(z, g));
  }

  /**
   * A nether column is solid below and at its ground and from its ceiling
   * upward; between them there is lava under height 32 and air above.
   * Even ceiling heights are lit by glowstone.
   */
  lemma NetherColumnLayers(z: int, g: int, c: int)
    ensures BlockDefinitions.IsSolid(NetherBlockTypeAt(z, g, c)) <==> z <= g || z >= c
    ensures g < z < c ==> NetherBlockTypeAt(z, g, c) == (if z < 32 then LAVA else AIR)
    ensures g < c && z == c ==> NetherBlockTypeAt(z, g, c) == (if c % 2 == 0 then GLOWSTONE else NETHERRACK)
    ensures NetherBlockTypeAt(z, g, c) == LAVA ==> g < z < 32
  {
    BlockDefinitions.OpacityAndSolidity(NetherBlockTypeAt(z, g, c));
  }

  /**
   * `GetGroundHeightWithPerlinNoiseForColumn` after the noise sample: the
   * scaled noise plus a minimum of 64, halved by a shift in the nether,
   * and never below 0.
   */
  function GroundHeightFromNoise(dimension: Dimension, scaledNoise: int): (g: int)
    ensures g >= 0
    ensures scaledNoise + (if dimension == DIM_NETHER then 32 else 64) >= 0 ==>
              g == scaledNoise + (if dimension == DIM_NETHER then 32 else 64)
  {
    var minimumGroundHeight := if dimension == DIM_NETHER then GROUND_HEIGHT_MINIMUM / 2 else GROUND_HEIGHT_MINIMUM;
    var groundHeight := scaledNoise + minimumGroundHeight;
    if groundHeight < 0 then 0 else groundHeight
  }

  /** `GetCeilingHeightWithPerlinNoiseForColumn` after the noise sample: offset by 100 and capped at the top layer. */
  function CeilingHeightFromNoise(scaledNoise: int): (c: int)
    ensures c <= CHUNK_Z_HEIGHT_IN_BLOCKS - 1
    ensures scaledNoise + CEILING_HEIGHT_OFFSET < CHUNK_Z_HEIGHT_IN_BLOCKS ==> c == scaledNoise + CEILING_HEIGHT_OFFSET
  {
    var ceilingHeight := scaledNoise + CEILING_HEIGHT_OFFSET;
    if ceilingHeight >= CHUNK_Z_HEIGHT_IN_BLOCKS then CHUNK_Z_HEIGHT_IN_BLOCKS - 1 else ceilingHeight
  }

  /**
   * The type whole-chunk generation leaves at global cell p of a chunk of
   * the given dimension, from the scaled ground and ceiling noise of p's
   * column.  A chunk of neither dimension is left as it was.
   */
  function GeneratedBlockTypeAt(dimension: Dimension, scaledGroundNoise: IntVector2 -> int,
                                scaledCeilingNoise: IntVector2 -> int, p: GlobalBlockCoords): Option<BlockType>
  {
    var column := IntVector2(p.x, p.y);
    var groundHeight := GroundHeightFromNoise(dimension, scaledGroundNoise(column));
    match dimension
    case DIM_OVERWORLD => Some(OverworldBlockTypeAt(p.z, groundHeight))
    case DIM_NETHER => Some(NetherBlockTypeAt(p.z, groundHeight, CeilingHeightFromNoise(scaledCeilingNoise(column))))
    case NUM_DIMENSIONS => None
  }

  /**
   * Generation depends on the global column and height alone: in both
   * dimensions a cell is solid exactly where its column's layers say so,
   * whichever chunk holds it.
   */
  lemma GeneratedSolidity(dimension: Dimension, scaledGroundNoise: IntVector2 -> int,
                          scaledCeilingNoise: IntVector2 -> int, p: GlobalBlockCoords)
    ensures var g := GroundHeightFromNoise(dimension, scaledGroundNoise(IntVector2(p.x, p.y)));
      match GeneratedBlockTypeAt(dimension, scaledGroundNoise, scaledCeilingNoise, p)
      case Some(t) =>
        if dimension == DIM_OVERWORLD then (BlockDefinitions.IsSolid(t) <==> p.z <= g)
        else (BlockDefinitions.IsSolid(t) <==> p.z <= g || p.z >= CeilingHeightFromNoise(scaledCeilingNoise(IntVector2(p.x, p.y))))
      case None => dimension == NUM_DIMENSIONS
  {
    var g := GroundHeightFromNoise(dimension, scaledGroundNoise(IntVector2(p.x, p.y)));
    OverworldColumnLayers(p.z, g);
    NetherColumnLayers(p.z, g, CeilingHeightFromNoise(scaledCeilingNoise(IntVector2(p.x, p.y))));
  }

  /** The ground height of global column (x, y), as `GetGroundHeightWithPerlinNoiseForColumn` computes it. */
  function ColumnGroundHeight(dimension: Dimension, scaledGroundNoise: IntVector2 -> int, x: int, y: int): (g: int)
    ensures g >= 0
  {
    GroundHeightFromNoise(dimension, scaledGroundNoise(IntVector2(x, y)))
  }

  /** The highest ground of columns x in [xLo, xHi) of row y, or -1 for an empty range. */
  function MaxGroundHeightInRow(dimension: Dimension, scaledGroundNoise: IntVector2 -> int, y: int, xLo: int, xHi: int): int
    decreases xHi - xLo
  {
    if xHi <= xLo then -1
    else MathUtils.Max(MaxGroundHeightInRow(dimension, scaledGroundNoise, y, xLo, xHi - 1), ColumnGroundHeight(dimension, scaledGroundNoise, xHi - 1, y))
  }

  /** The highest ground of rows y in [yLo, yHi) over columns [xLo, xHi), or -1 when there is none. */
  function MaxGroundHeightInRows(dimension: Dimension, scaledGroundNoise: IntVector2 -> int,
                                 xLo: int, xHi: int, yLo: int, yHi: int): int
    decreases yHi - yLo
  {
    if yHi <= yLo then -1
    else MathUtils.Max(MaxGroundHeightInRows(dimension, scaledGroundNoise, xLo, xHi, yLo, yHi - 1),
             MaxGroundHeightInRow(dimension, scaledGroundNoise, yHi - 1, xLo, xHi))
  }

  /** The highest ground of the columns of the rectangle [mins, maxs], or -1 when it is empty. */
  function MaxGroundHeightInArea(dimension: Dimension, scaledGroundNoise: IntVector2 -> int,
                                 mins: GlobalBlockCoords, maxs: GlobalBlockCoords): int
  {
    MaxGroundHeightInRows(dimension, scaledGroundNoise, mins.x, maxs.x + 1, mins.y, maxs.y + 1)
  }

  /** A row's maximum bounds every column of the row, is attained by one of them, and is -1 only for an empty row. */
  lemma {:induction false} MaxGroundHeightInRowIsMax(dimension: Dimension, scaledGroundNoise: IntVector2 -> int, y: int, xLo: int, xHi: int)
    ensures var m := MaxGroundHeightInRow(dimension, scaledGroundNoise, y, xLo, xHi);
      && (forall x :: xLo <= x < xHi ==> ColumnGroundHeight(dimension, scaledGroundNoise, x, y) <= m)
      && (m == -1 <==> xHi <= xLo)
      && (xLo < xHi ==> exists x :: xLo <= x < xHi && ColumnGroundHeight(dimension, scaledGroundNoise, x, y) == m)
    decreases xHi - xLo
  {
    if xLo < xHi {
      MaxGroundHeightInRowIsMax(dimension, scaledGroundNoise, y, xLo, xHi - 1);
      var m' := MaxGroundHeightInRow(dimension, scaledGroundNoise, y, xLo, xHi - 1);
      if m' > ColumnGroundHeight(dimension, scaledGroundNoise, xHi - 1, y) {
        var x :| xLo <= x < xHi - 1 && ColumnGroundHeight(dimension, scaledGroundNoise, x, y) == m';
      }
    }
  }

  /** The same for a band of rows. */
  lemma {:induction false} MaxGroundHeightInRowsIsMax(dimension: Dimension, scaledGroundNoise: IntVector2 -> int,
                                                     xLo: int, xHi: int, yLo: int, yHi: int)
    ensures var m := MaxGroundHeightInRows(dimension, scaledGroundNoise, xLo, xHi, yLo, yHi);
      && (forall x, y :: xLo <= x < xHi && yLo <= y < yHi ==> ColumnGroundHeight(dimension, scaledGroundNoise, x, y) <= m)
      && (m == -1 <==> xHi <= xLo || yHi <= yLo)
      && (xLo < xHi && yLo < yHi ==>
            exists x, y :: xLo <= x < xHi && yLo <= y < yHi && ColumnGroundHeight(dimension, scaledGroundNoise, x, y) == m)
    decreases yHi - yLo
  {
    if yLo < yHi {
      MaxGroundHeightInRowsIsMax(dimension, scaledGroundNoise, xLo, xHi, yLo, yHi - 1);
      MaxGroundHeightInRowIsMax(dimension, scaledGroundNoise, yHi - 1, xLo, xHi);
      var above := MaxGroundHeightInRows(dimension, scaledGroundNoise, xLo, xHi, yLo, yHi - 1);
      var row := MaxGroundHeightInRow(dimension, scaledGroundNoise, yHi - 1, xLo, xHi);
      if xLo < xHi {
        if above > row {
          var x, y :| xLo <= x < xHi && yLo <= y < yHi - 1 && ColumnGroundHeight(dimension, scaledGroundNoise, x, y) == above;
          assert yLo <= y < yHi;
        } else {
          var x :| xLo <= x < xHi && ColumnGroundHeight(dimension, scaledGroundNoise, x, yHi - 1) == row;
          assert yLo <= yHi - 1 < yHi;
        }
      }
    }
  }

  /**
   * `GetMaxColumnGroundHeightForArea`'s result: the highest ground of the
   * area's columns, reached by one of them; -1 exactly when the area is
   * empty, since ground heights are never negative.
   */
  lemma MaxGroundHeightInAreaIsMax(dimension: Dimension, scaledGroundNoise: IntVector2 -> int,
                                   mins: GlobalBlockCoords, maxs: GlobalBlockCoords)
    ensures var m := MaxGroundHeightInArea(dimension, scaledGroundNoise, mins, maxs);
      && (forall x, y :: InArea(mins, maxs, x, y) ==> ColumnGroundHeight(dimension, scaledGroundNoise, x, y) <= m)
      && (m == -1 <==> mins.x > maxs.x || mins.y > maxs.y)
      && (m >= 0 ==> exists x, y :: InArea(mins, maxs, x, y) && ColumnGroundHeight(dimension, scaledGroundNoise, x, y) == m)
  {
    MaxGroundHeightInRowsIsMax(dimension, scaledGroundNoise, mins.x, maxs.x + 1, mins.y, maxs.y + 1);
  }

  /** Global block coordinates inside the horizontal rectangle [mins, maxs]. */
  predicate InArea(mins: GlobalBlockCoords, maxs: GlobalBlockCoords, x: int, y: int)
  {
    mins.x <= x <= maxs.x && mins.y <= y <= maxs.y
  }

  /** The wall type of ponds: cobblestone in the overworld, netherrack in the nether. */
  function PondWallType(dimension: Dimension): BlockType
  {
    if dimension == DIM_NETHER then NETHERRACK else COBBLESTONE
  }

  /** The content of ponds: water in the overworld, lava in the nether. */
  function PondContentType(dimension: Dimension): BlockType
  {
    if dimension == DIM_NETHER then LAVA else WATER
  }

  /**
   * What `BuildPond` writes at global cell p, for a pond whose top is the
   * highest ground of its area: nothing above the top or outside the area,
   * the wall type below the pond bottom and on the rim, the content inside.
   */
  function PondBlockTypeAt(dimension: Dimension, mins: GlobalBlockCoords, maxs: GlobalBlockCoords,
                           topOfPond: int, p: GlobalBlockCoords): Option<BlockType>
  {
    var bottomOfPond := topOfPond - VILLAGE_POND_HEIGHT;
    if !InArea(mins, maxs, p.x, p.y) || p.z < 0 || p.z >= CHUNK_Z_HEIGHT_IN_BLOCKS then None
    else if p.z > topOfPond then None
    else if p.z < bottomOfPond then Some(PondWallType(dimension))
    else if p.x == mins.x || p.x == maxs.x || p.y == mins.y || p.y == maxs.y then Some(PondWallType(dimension))
    else Some(PondContentType(dimension))
  }

  /**
   * The pond holds its contents: every cell of pond fluid has a written
   * cell on each horizontal side and below it (or is on the bottom layer),
   * and the fluid fills exactly the interior of the area from ten below the
   * top up to the top.
   */
  lemma PondIsClosed(dimension: Dimension, mins: GlobalBlockCoords, maxs: GlobalBlockCoords, top: int, p: GlobalBlockCoords)
    requires PondBlockTypeAt(dimension, mins, maxs, top, p) == Some(PondContentType(dimension))
    ensures PondBlockTypeAt(dimension, mins, maxs, top, Add3(p, IntVector3(1, 0, 0))).Some?
    ensures PondBlockTypeAt(dimension, mins, maxs, top, Sub3(p, IntVector3(1, 0, 0))).Some?
    ensures PondBlockTypeAt(dimension, mins, maxs, top, Add3(p, IntVector3(0, 1, 0))).Some?
    ensures PondBlockTypeAt(dimension, mins, maxs, top, Sub3(p, IntVector3(0, 1, 0))).Some?
    ensures p.z > 0 ==> PondBlockTypeAt(dimension, mins, maxs, top, Sub3(p, IntVector3(0, 0, 1))).Some?
    ensures mins.x < p.x < maxs.x && mins.y < p.y < maxs.y && top - VILLAGE_POND_HEIGHT <= p.z <= top
  {
  }

  /** Cells of the pond's area at or below its top get a type (within the chunk's height), those above stay as they were. */
  lemma PondCoversAreaUpToTop(dimension: Dimension, mins: GlobalBlockCoords, maxs: GlobalBlockCoords, top: int, p: GlobalBlockCoords)
    requires InArea(mins, maxs, p.x, p.y) && 0 <= p.z < CHUNK_Z_HEIGHT_IN_BLOCKS
    ensures PondBlockTypeAt(dimension, mins, maxs, top, p).Some? <==> p.z <= top
    ensures p.z < top - VILLAGE_POND_HEIGHT ==> PondBlockTypeAt(dimension, mins, maxs, top, p) == Some(PondWallType(dimension))
  {
  }

  /** `BuildPortalShrine`: the shrine's pillars reach 30 blocks above the highest ground of its area. */
  function PortalShrineTop(bottomOfShrine: int): int
  {
    bottomOfShrine + VILLAGE_PORTAL_SHRINE_HEIGHT
  }

  /**
   * Ground heights reach 64 plus the scaled noise, so a shrine area whose
   * highest ground is 98 or more has pillars taller than the chunk: the
   * pillar loop then asks for cells at z = 128 and above.
   */
  lemma PortalShrineTopLeavesChunk(bottomOfShrine: int)
    requires bottomOfShrine >= CHUNK_Z_HEIGHT_IN_BLOCKS - VILLAGE_PORTAL_SHRINE_HEIGHT
    ensures PortalShrineTop(bottomOfShrine) >= CHUNK_Z_HEIGHT_IN_BLOCKS
    ensures GroundHeightFromNoise(DIM_OVERWORLD, 34) == 98 && PortalShrineTop(98) == CHUNK_Z_HEIGHT_IN_BLOCKS
  {
  }
}
