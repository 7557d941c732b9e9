/**
 * Chunks and the block cursors that walk between them.
 *
 * A `Chunk` owns a 16 x 16 x 128 array of block cells and four pointers to
 * the chunks beside it; a `BlockInfo` names one cell as a (chunk, index)
 * pair and steps to the six cells around it, crossing into a neighbour at
 * the chunk's vertical faces.  The naming of the horizontal directions is
 * the game's own: north is +x, south -x, west +y and east -y.
 */
module Chunks {

  import opened GameCommon
  import opened IntVectors
  import opened Optional
  import opened Blocks
  import opened Bits
  import BlockDefinitions
  import Rle
  import Terrain
  import MathUtils

  /**
   * The `Vector3` arguments of the selection and placement code: the zero
   * vector, one of the six world axis vectors, or any other vector.
   */
  datatype Direction = ZeroDirection | WorldUp | WorldDown | WorldLeft | WorldRight | WorldForward | WorldBackward | OtherDirection

  /** `BlockInfo`: a chunk pointer and an index into its block array. */
  datatype BlockInfo = BlockInfo(chunk: Chunk?, index: LocalBlockIndex)

  /** The selection index of a chunk with nothing highlighted. */
  const BLOCK_UNHIGHLIGHTED: LocalBlockIndex := 99999

  /** The default-constructed `BlockInfo`. */
  const NULL_BLOCK_INFO: BlockInfo := BlockInfo(null, 0)

  /** The four neighbour pointers of a chunk, read at one moment. */
  datatype Neighbours = Neighbours(north: Chunk?, east: Chunk?, west: Chunk?, south: Chunk?)

  const NO_NEIGHBOURS: Neighbours := Neighbours(null, null, null, null)

  /** The four neighbour pointers, named by side. */
  datatype Side = NorthSide | SouthSide | WestSide | EastSide

  /** The chunk on side s of the chunk at p: north at (x+1, y), south at (x-1, y), west at (x, y+1), east at (x, y-1). */
  function SideCoords(p: ChunkCoords, s: Side): ChunkCoords
  {
    match s
    case NorthSide => IntVector2(p.x + 1, p.y)
    case SouthSide => IntVector2(p.x - 1, p.y)
    case WestSide => IntVector2(p.x, p.y + 1)
    case EastSide => IntVector2(p.x, p.y - 1)
  }

  /** The side of the neighbour that faces back; the chunk on that side of the neighbour is the chunk itself. */
  function OppositeSide(s: Side): (o: Side)
    ensures o != s && forall p :: SideCoords(SideCoords(p, s), o) == p
  {
    match s
    case NorthSide => SouthSide
    case SouthSide => NorthSide
    case WestSide => EastSide
    case EastSide => WestSide
  }

  function SideOf(nb: Neighbours, s: Side): Chunk?
  {
    match s
    case NorthSide => nb.north
    case SouthSide => nb.south
    case WestSide => nb.west
    case EastSide => nb.east
  }

  /** The pointers with side s set to c and the other three kept. */
  function WithSide(nb: Neighbours, s: Side, c: Chunk?): (r: Neighbours)
    ensures SideOf(r, s) == c && forall s' :: s' != s ==> SideOf(r, s') == SideOf(nb, s')
  {
    match s
    case NorthSide => nb.(north := c)
    case SouthSide => nb.(south := c)
    case WestSide => nb.(west := c)
    case EastSide => nb.(east := c)
  }

  /** The six `BlockInfo::Step…` operations. */
  datatype StepDirection = North | South | East | West | Up | Down

  /** Whether a step happened, and the cursor after it. */
  datatype StepResult = StepResult(stepped: bool, cursor: BlockInfo)

  /**
   * The coordinates of a block index, by remainders and quotients; the
   * game's mask-and-shift conversion computes the same (`CoordsAgree`).
   */
  function Coords(lbi: LocalBlockIndex): (lbc: LocalBlockCoords)
    requires lbi < NUM_BLOCKS_PER_CHUNK
    ensures InChunk(lbc)
  {
    IntVector3(lbi % 16, (lbi / 16) % 16, lbi / 256)
  }

  /** The index of some coordinates, x + 16 y + 256 z; the game's OR-and-shift packing computes the same (`IndexOfAgrees`). */
  function IndexOf(x: int, y: int, z: int): LocalBlockIndex
    requires x >= 0 && y >= 0 && z >= 0
  {
    x + 16 * y + 256 * z
  }

  lemma CoordsAgree(lbi: LocalBlockIndex)
    requires lbi < NUM_BLOCKS_PER_CHUNK
    ensures Coords(lbi) == GetLocalBlockCoordsFromLocalBlockIndex(lbi)
  {
    CoordsFromIndexArithmetic(lbi);
  }

  /** The packing agrees with the sum whenever x and y fit their four bits, whatever z is. */
  lemma IndexOfAgrees(lbc: LocalBlockCoords)
    requires 0 <= lbc.x < 16 && 0 <= lbc.y < 16 && lbc.z >= 0
    ensures IndexOf(lbc.x, lbc.y, lbc.z) == GetLocalBlockIndexFromLocalBlockCoords(lbc)
  {
    assert Pow2(4) == 16 && Pow2(8) == 256;
    assert ShiftLeft(lbc.y, 4) == 16 * lbc.y && ShiftLeft(lbc.z, 8) == 256 * lbc.z;
    OrDisjoint(lbc.y, lbc.x, 4);
    OrDisjoint(lbc.z, lbc.x + 16 * lbc.y, 8);
  }

  /** The in-chunk cell of some coordinates: its index is in range and converts back to them. */
  lemma CellAt(lbc: LocalBlockCoords)
    requires InChunk(lbc)
    ensures IndexOf(lbc.x, lbc.y, lbc.z) < NUM_BLOCKS_PER_CHUNK
    ensures Coords(IndexOf(lbc.x, lbc.y, lbc.z)) == lbc
  {
    var lbi := IndexOf(lbc.x, lbc.y, lbc.z);
    DivModUnique(lbi, 16, lbc.y + 16 * lbc.z, lbc.x);
    DivModUnique(lbc.y + 16 * lbc.z, 16, lbc.z, lbc.y);
    DivModUnique(lbi, 256, lbc.z, lbc.x + 16 * lbc.y);
  }

  /** An index is x + 16 y + 256 z of its own coordinates. */
  lemma IndexDecomposition(lbi: LocalBlockIndex)
    requires lbi < NUM_BLOCKS_PER_CHUNK
    ensures lbi == IndexOf(Coords(lbi).x, Coords(lbi).y, Coords(lbi).z)
  {
    DivDiv(lbi, 16, 16);
  }

  /** Two indices with the same coordinates are the same index. */
  lemma CoordsInjective(i: LocalBlockIndex, j: LocalBlockIndex)
    requires i < NUM_BLOCKS_PER_CHUNK && j < NUM_BLOCKS_PER_CHUNK
    requires Coords(i) == Coords(j)
    ensures i == j
  {
    IndexDecomposition(i);
    IndexDecomposition(j);
  }

  /** `StepSouth` (-y): at y = 0 it moves into the east neighbour's y = 15 layer, or fails without one. */
  function StepSouth(bi: BlockInfo, nb: Neighbours): (r: StepResult)
    requires bi.index < NUM_BLOCKS_PER_CHUNK
    ensures r.cursor.index < NUM_BLOCKS_PER_CHUNK && (!r.stepped ==> r.cursor == bi)
  {
    var lbc := Coords(bi.index);
    if lbc.y == 0 then
      if nb.east == null then StepResult(false, bi)
      else CellAt(IntVector3(lbc.x, CHUNK_Y_WIDTH_IN_BLOCKS - 1, lbc.z));
           StepResult(true, BlockInfo(nb.east, IndexOf(lbc.x, CHUNK_Y_WIDTH_IN_BLOCKS - 1, lbc.z)))
    else IndexDecomposition(bi.index);
         StepResult(true, BlockInfo(bi.chunk, bi.index - CHUNK_Y_WIDTH_IN_BLOCKS))
  }

  /** `StepNorth` (+y): at y = 15 it moves into the west neighbour's y = 0 layer, or fails without one. */
  function StepNorth(bi: BlockInfo, nb: Neighbours): (r: StepResult)
    requires bi.index < NUM_BLOCKS_PER_CHUNK
    ensures r.cursor.index < NUM_BLOCKS_PER_CHUNK && (!r.stepped ==> r.cursor == bi)
  {
    var lbc := Coords(bi.index);
    if lbc.y == CHUNK_Y_WIDTH_IN_BLOCKS - 1 then
      if nb.west == null then StepResult(false, bi)
      else CellAt(IntVector3(lbc.x, 0, lbc.z));
           StepResult(true, BlockInfo(nb.west, IndexOf(lbc.x, 0, lbc.z)))
    else IndexDecomposition(bi.index);
         StepResult(true, BlockInfo(bi.chunk, bi.index + CHUNK_Y_WIDTH_IN_BLOCKS))
  }

  /** `StepEast` (+x): at x = 15 it moves into the north neighbour's x = 0 layer, or fails without one. */
  function StepEast(bi: BlockInfo, nb: Neighbours): (r: StepResult)
    requires bi.index < NUM_BLOCKS_PER_CHUNK
    ensures r.cursor.index < NUM_BLOCKS_PER_CHUNK && (!r.stepped ==> r.cursor == bi)
  {
    var lbc := Coords(bi.index);
    if lbc.x == CHUNK_X_LENGTH_IN_BLOCKS - 1 then
      if nb.north == null then StepResult(false, bi)
      else CellAt(IntVector3(0, lbc.y, lbc.z));
           StepResult(true, BlockInfo(nb.north, IndexOf(0, lbc.y, lbc.z)))
    else IndexDecomposition(bi.index);
         StepResult(true, BlockInfo(bi.chunk, bi.index + 1))
  }

  /** `StepWest` (-x): at x = 0 it moves into the south neighbour's x = 15 layer, or fails without one. */
  function StepWest(bi: BlockInfo, nb: Neighbours): (r: StepResult)
    requires bi.index < NUM_BLOCKS_PER_CHUNK
    ensures r.cursor.index < NUM_BLOCKS_PER_CHUNK && (!r.stepped ==> r.cursor == bi)
  {
    var lbc := Coords(bi.index);
    if lbc.x == 0 then
      if nb.south == null then StepResult(false, bi)
      else CellAt(IntVector3(CHUNK_X_LENGTH_IN_BLOCKS - 1, lbc.y, lbc.z));
           StepResult(true, BlockInfo(nb.south, IndexOf(CHUNK_X_LENGTH_IN_BLOCKS - 1, lbc.y, lbc.z)))
    else IndexDecomposition(bi.index);
         StepResult(true, BlockInfo(bi.chunk, bi.index - 1))
  }

  /** `StepUp` (+z): fails on the top layer; chunks have no vertical neighbours. */
  function StepUp(bi: BlockInfo): (r: StepResult)
    requires bi.index < NUM_BLOCKS_PER_CHUNK
    ensures r.cursor.index < NUM_BLOCKS_PER_CHUNK && (!r.stepped ==> r.cursor == bi)
  {
    var lbc := Coords(bi.index);
    if lbc.z == CHUNK_Z_HEIGHT_IN_BLOCKS - 1 then StepResult(false, bi)
    else IndexDecomposition(bi.index);
         StepResult(true, BlockInfo(bi.chunk, bi.index + NUM_COLUMNS_PER_CHUNK))
  }

  /** `StepDown` (-z): fails on the bottom layer. */
  function StepDown(bi: BlockInfo): (r: StepResult)
    requires bi.index < NUM_BLOCKS_PER_CHUNK
    ensures r.cursor.index < NUM_BLOCKS_PER_CHUNK && (!r.stepped ==> r.cursor == bi)
  {
    var lbc := Coords(bi.index);
    if lbc.z == 0 then StepResult(false, bi)
    else IndexDecomposition(bi.index);
         StepResult(true, BlockInfo(bi.chunk, bi.index - NUM_COLUMNS_PER_CHUNK))
  }

  /** One step in the given direction, given the neighbours of the cursor's chunk. */
  function StepBy(d: StepDirection, bi: BlockInfo, nb: Neighbours): (r: StepResult)
    requires bi.index < NUM_BLOCKS_PER_CHUNK
    ensures r.cursor.index < NUM_BLOCKS_PER_CHUNK && (!r.stepped ==> r.cursor == bi)
  {
    match d
    case North => StepNorth(bi, nb)
    case South => StepSouth(bi, nb)
    case East => StepEast(bi, nb)
    case West => StepWest(bi, nb)
    case Up => StepUp(bi)
    case Down => StepDown(bi)
  }

  /** The unit vector of each step direction in local coordinates. */
  function Offset(d: StepDirection): IntVector3
  {
    match d
    case North => IntVector3(0, 1, 0)
    case South => IntVector3(0, -1, 0)
    case East => IntVector3(1, 0, 0)
    case West => IntVector3(-1, 0, 0)
    case Up => IntVector3(0, 0, 1)
    case Down => IntVector3(0, 0, -1)
  }

  /** The change of the block index of an interior step: 16 per y, 1 per x, 256 per z. */
  function IndexOffset(d: StepDirection): int
  {
    match d
    case North => 16
    case South => -16
    case East => 1
    case West => -1
    case Up => 256
    case Down => -256
  }

  function Opposite(d: StepDirection): StepDirection
  {
    match d
    case North => South
    case South => North
    case East => West
    case West => East
    case Up => Down
    case Down => Up
  }

  /** The cell lies on the chunk face the step would leave through. */
  predicate AtEdge(d: StepDirection, lbc: LocalBlockCoords)
  {
    match d
    case North => lbc.y == CHUNK_Y_WIDTH_IN_BLOCKS - 1
    case South => lbc.y == 0
    case East => lbc.x == CHUNK_X_LENGTH_IN_BLOCKS - 1
    case West => lbc.x == 0
    case Up => lbc.z == CHUNK_Z_HEIGHT_IN_BLOCKS - 1
    case Down => lbc.z == 0
  }

  /** The neighbour a step enters when it leaves its chunk; there is none above or below. */
  function NeighbourFor(d: StepDirection, nb: Neighbours): Chunk?
  {
    match d
    case North => nb.west
    case South => nb.east
    case East => nb.north
    case West => nb.south
    case Up => null
    case Down => null
  }

  /** Horizontal coordinates taken modulo the chunk extents: the cell a step lands on in whichever chunk it enters. */
  function Wrapped(v: IntVector3): IntVector3
  {
    IntVector3(v.x % CHUNK_X_LENGTH_IN_BLOCKS, v.y % CHUNK_Y_WIDTH_IN_BLOCKS, v.z)
  }

  /** The facts `StepGeometry` states about the result r of one step. */
  predicate StepFacts(d: StepDirection, bi: BlockInfo, nb: Neighbours, r: StepResult)
    requires bi.index < NUM_BLOCKS_PER_CHUNK && r.cursor.index < NUM_BLOCKS_PER_CHUNK
  {
    var c := Coords(bi.index);
    && (r.stepped <==> !AtEdge(d, c) || NeighbourFor(d, nb) != null)
    && (r.stepped ==> r.cursor.chunk == (if AtEdge(d, c) then NeighbourFor(d, nb) else bi.chunk))
    && (r.stepped ==> Coords(r.cursor.index) == Wrapped(Add3(c, Offset(d))))
    && (r.stepped && !AtEdge(d, c) ==> r.cursor.index == bi.index + IndexOffset(d))
  }

  /**
   * What a step does: it succeeds unless it would leave the chunk where
   * there is no neighbour (always, above and below); it stays in the chunk
   * off the edge and enters the neighbour on the edge; it lands on the
   * adjacent coordinates, wrapped into the entered chunk; and off the edge
   * it moves the index by 1, 16 or 256.
   */
  lemma StepGeometry(d: StepDirection, bi: BlockInfo, nb: Neighbours)
    requires bi.index < NUM_BLOCKS_PER_CHUNK
    ensures StepFacts(d, bi, nb, StepBy(d, bi, nb))
  {
    match d
    case North => StepNorthGeometry(bi, nb);
    case South => StepSouthGeometry(bi, nb);
    case East => StepEastGeometry(bi, nb);
    case West => StepWestGeometry(bi, nb);
    case Up => StepUpGeometry(bi, nb);
    case Down => StepDownGeometry(bi, nb);
  }

  lemma StepNorthGeometry(bi: BlockInfo, nb: Neighbours)
    requires bi.index < NUM_BLOCKS_PER_CHUNK
    ensures StepFacts(North, bi, nb, StepNorth(bi, nb))
  {
    var c := Coords(bi.index);
    IndexDecomposition(bi.index);
    if c.y == CHUNK_Y_WIDTH_IN_BLOCKS - 1 {
      CellAt(IntVector3(c.x, 0, c.z));
    } else {
      var v := IntVector3(c.x, c.y + 1, c.z);
      CellAt(v);
      assert IndexOf(v.x, v.y, v.z) == bi.index + 16;
      assert Wrapped(Add3(c, Offset(North))) == v;
    }
  }

  lemma StepSouthGeometry(bi: BlockInfo, nb: Neighbours)
    requires bi.index < NUM_BLOCKS_PER_CHUNK
    ensures StepFacts(South, bi, nb, StepSouth(bi, nb))
  {
    var c := Coords(bi.index);
    IndexDecomposition(bi.index);
    if c.y == 0 {
      CellAt(IntVector3(c.x, CHUNK_Y_WIDTH_IN_BLOCKS - 1, c.z));
    } else {
      CellAt(IntVector3(c.x, c.y - 1, c.z));
    }
  }

  lemma StepEastGeometry(bi: BlockInfo, nb: Neighbours)
    requires bi.index < NUM_BLOCKS_PER_CHUNK
    ensures StepFacts(East, bi, nb, StepEast(bi, nb))
  {
    var c := Coords(bi.index);
    IndexDecomposition(bi.index);
    if c.x == CHUNK_X_LENGTH_IN_BLOCKS - 1 {
      CellAt(IntVector3(0, c.y, c.z));
      assert Wrapped(Add3(c, Offset(East))) == IntVector3(0, c.y, c.z);
    } else {
      var e := IntVector3(c.x + 1, c.y, c.z);
      CellAt(e);
      assert bi.index + 1 == IndexOf(e.x, e.y, e.z);
      assert Wrapped(Add3(c, Offset(East))) == e;
    }
  }

  lemma StepWestGeometry(bi: BlockInfo, nb: Neighbours)
    requires bi.index < NUM_BLOCKS_PER_CHUNK
    ensures StepFacts(West, bi, nb, StepWest(bi, nb))
  {
    var c := Coords(bi.index);
    IndexDecomposition(bi.index);
    if c.x == 0 {
      CellAt(IntVector3(CHUNK_X_LENGTH_IN_BLOCKS - 1, c.y, c.z));
    } else {
      CellAt(IntVector3(c.x - 1, c.y, c.z));
    }
  }

  lemma StepUpGeometry(bi: BlockInfo, nb: Neighbours)
    requires bi.index < NUM_BLOCKS_PER_CHUNK
    ensures StepFacts(Up, bi, nb, StepUp(bi))
  {
    var c := Coords(bi.index);
    IndexDecomposition(bi.index);
    if c.z < CHUNK_Z_HEIGHT_IN_BLOCKS - 1 {
      CellAt(IntVector3(c.x, c.y, c.z + 1));
    }
  }

  lemma StepDownGeometry(bi: BlockInfo, nb: Neighbours)
    requires bi.index < NUM_BLOCKS_PER_CHUNK
    ensures StepFacts(Down, bi, nb, StepDown(bi))
  {
    var c := Coords(bi.index);
    IndexDecomposition(bi.index);
    if c.z > 0 {
      CellAt(IntVector3(c.x, c.y, c.z - 1));
    }
  }

  /**
   * A step can be undone: stepping back the opposite way from where a
   * step landed returns to the starting cell, provided that after a
   * crossing the entered chunk names the starting chunk as its neighbour
   * on the way back.
   */
  lemma StepThereAndBack(d: StepDirection, bi: BlockInfo, nb: Neighbours, nbBack: Neighbours)
    requires bi.chunk != null && bi.index < NUM_BLOCKS_PER_CHUNK
    requires StepBy(d, bi, nb).stepped
    requires AtEdge(d, Coords(bi.index)) ==> NeighbourFor(Opposite(d), nbBack) == bi.chunk
    ensures StepBy(Opposite(d), StepBy(d, bi, nb).cursor, nbBack) == StepResult(true, bi)
  {
    var r := StepBy(d, bi, nb);
    var c := Coords(bi.index);
    StepGeometry(d, bi, nb);
    StepGeometry(Opposite(d), r.cursor, nbBack);
    WrapBack(d, c);
    var back := StepBy(Opposite(d), r.cursor, nbBack);
    CoordsInjective(back.cursor.index, bi.index);
  }

  /** Moving one cell and back, with horizontal wrapping, is the identity; the move leaves the edge it reaches. */
  lemma WrapBack(d: StepDirection, c: LocalBlockCoords)
    requires InChunk(c)
    requires d == Up ==> c.z < CHUNK_Z_HEIGHT_IN_BLOCKS - 1
    requires d == Down ==> c.z > 0
    ensures var v := Wrapped(Add3(c, Offset(d)));
      InChunk(v) && Wrapped(Add3(v, Offset(Opposite(d)))) == c && (AtEdge(Opposite(d), v) <==> AtEdge(d, c))
  {
  }

  /** Off the edge a step needs no wrapping. */
  lemma WrapInside(d: StepDirection, c: LocalBlockCoords)
    requires InChunk(c) && !AtEdge(d, c)
    ensures Wrapped(Add3(c, Offset(d))) == Add3(c, Offset(d))
  {
  }

  /** The step `ShouldFaceRender` and `PlaceBlock` take across each face. */
  function FaceStep(face: BlockFace): StepDirection
    requires face != NONE
  {
    match face
    case BOTTOM => Down
    case TOP => Up
    case LEFT => North
    case RIGHT => South
    case FRONT => West
    case BACK => East
  }

  function OppositeFace(face: BlockFace): BlockFace
  {
    match face
    case NONE => NONE
    case BOTTOM => TOP
    case TOP => BOTTOM
    case LEFT => RIGHT
    case RIGHT => LEFT
    case FRONT => BACK
    case BACK => FRONT
  }

  /** The six faces are the six step directions, and opposite faces are opposite steps. */
  lemma FacesAreSteps(face: BlockFace, d: StepDirection)
    requires face != NONE
    ensures OppositeFace(face) != NONE && FaceStep(OppositeFace(face)) == Opposite(FaceStep(face))
    ensures OppositeFace(OppositeFace(face)) == face
    ensures exists f :: f != NONE && FaceStep(f) == d
    ensures forall f :: f != NONE && FaceStep(f) == FaceStep(face) ==> f == face
  {
    var f := match d
      case Down => BOTTOM case Up => TOP case North => LEFT
      case South => RIGHT case West => FRONT case East => BACK;
    assert FaceStep(f) == d;
  }

  /**
   * `SetSelectedFace`: the face the given direction points away from —
   * BOTTOM for up, TOP for down, RIGHT for left, LEFT for right, BACK for
   * forward, FRONT for backward; any other vector keeps the current face.
   */
  function FaceAfterSelecting(current: BlockFace, directionOppositeFace: Direction): BlockFace
  {
    match directionOppositeFace
    case WorldUp => BOTTOM
    case WorldDown => TOP
    case WorldLeft => RIGHT
    case WorldRight => LEFT
    case WorldForward => BACK
    case WorldBackward => FRONT
    case _ => current
  }

  /** The world vector each direction stands for. */
  function WorldVector(dir: Direction): IntVector3
  {
    match dir
    case WorldUp => IntVector3(0, 0, 1)
    case WorldDown => IntVector3(0, 0, -1)
    case WorldLeft => IntVector3(0, 1, 0)
    case WorldRight => IntVector3(0, -1, 0)
    case WorldForward => IntVector3(1, 0, 0)
    case WorldBackward => IntVector3(-1, 0, 0)
    case _ => IntVector3(0, 0, 0)
  }

  /** The axis direction that selects each face. */
  function SelectingDirection(face: BlockFace): Direction
  {
    match face
    case NONE => ZeroDirection
    case BOTTOM => WorldUp
    case TOP => WorldDown
    case RIGHT => WorldLeft
    case LEFT => WorldRight
    case BACK => WorldForward
    case FRONT => WorldBackward
  }

  /**
   * Selecting a face from an axis direction: on the z and y axes the face
   * steps against the direction, on the x axis with it (the game treats
   * +x as the view axis, so FRONT faces -x).
   */
  lemma SelectedFaceAxis(current: BlockFace)
    ensures StepsAgainst(FaceAfterSelecting(current, WorldUp), WorldVector(WorldUp))
    ensures StepsAgainst(FaceAfterSelecting(current, WorldDown), WorldVector(WorldDown))
    ensures StepsAgainst(FaceAfterSelecting(current, WorldLeft), WorldVector(WorldLeft))
    ensures StepsAgainst(FaceAfterSelecting(current, WorldRight), WorldVector(WorldRight))
    ensures StepsAlong(FaceAfterSelecting(current, WorldForward), WorldVector(WorldForward))
    ensures StepsAlong(FaceAfterSelecting(current, WorldBackward), WorldVector(WorldBackward))
  {
  }

  /** The face is one of the six and its step is the vector v. */
  predicate StepsAlong(face: BlockFace, v: IntVector3)
  {
    face != NONE && Offset(FaceStep(face)) == v
  }

  /** The face is one of the six and the step opposite to it is the vector v. */
  predicate StepsAgainst(face: BlockFace, v: IntVector3)
  {
    face != NONE && Offset(Opposite(FaceStep(face))) == v
  }

  /** Selection is invertible on the six axis vectors, so each selects a different face; the other vectors keep the current face. */
  lemma SelectionInvertible(current: BlockFace, dir: Direction)
    ensures !(dir.ZeroDirection? || dir.OtherDirection?) ==> SelectingDirection(FaceAfterSelecting(current, dir)) == dir
    ensures (dir.ZeroDirection? || dir.OtherDirection?) ==> FaceAfterSelecting(current, dir) == current
  {
  }

  /** The face `PlaceBlock` works with: the zero direction skips its `SetSelectedFace` call. */
  function FaceForPlacement(current: BlockFace, directionOppositeFace: Direction): BlockFace
  {
    if directionOppositeFace == ZeroDirection then current else FaceAfterSelecting(current, directionOppositeFace)
  }

  /** The non-null neighbours. */
  function NeighbourChunks(nb: Neighbours): set<Chunk>
  {
    (if nb.north != null then {nb.north} else {}) + (if nb.east != null then {nb.east} else {})
    + (if nb.west != null then {nb.west} else {}) + (if nb.south != null then {nb.south} else {})
  }

  /**
   * The cell a non-zero `PlaceBlock` writes, given the face it selected:
   * the hit cell itself for no face, otherwise the cell one
   * step across the face, and nothing when that step leaves the world
   * (above, below, or into a missing neighbour).
   */
  function PlacementTarget(face: BlockFace, hit: BlockInfo, nb: Neighbours): (t: Option<BlockInfo>)
    requires hit.index < NUM_BLOCKS_PER_CHUNK
    ensures t.Some? ==> t.value.index < NUM_BLOCKS_PER_CHUNK
    ensures t.Some? ==> t.value.chunk == hit.chunk || t.value.chunk in NeighbourChunks(nb)
  {
    if face == NONE then Some(hit)
    else
      var r := StepBy(FaceStep(face), hit, nb);
      StepGeometry(FaceStep(face), hit, nb);
      if r.stepped then Some(r.cursor) else None
  }

  /**
   * The placement target spelled out: one step across the face lands on the
   * adjacent coordinates, wrapped into the neighbour at a vertical face of
   * the chunk, and there is no target where the step leaves the world.
   */
  lemma PlacementTargetCell(face: BlockFace, hit: BlockInfo, nb: Neighbours)
    requires hit.index < NUM_BLOCKS_PER_CHUNK && face != NONE
    ensures var c := Coords(hit.index);
            var d := FaceStep(face);
            var w := Wrapped(Add3(c, Offset(d)));
            PlacementTarget(face, hit, nb) ==
                 if AtEdge(d, c) && NeighbourFor(d, nb) == null then None
                 else Some(BlockInfo(if AtEdge(d, c) then NeighbourFor(d, nb) else hit.chunk, IndexOf(w.x, w.y, w.z)))
  {
    var c := Coords(hit.index);
    var d := FaceStep(face);
    var w := Wrapped(Add3(c, Offset(d)));
    var r := StepBy(d, hit, nb);
    StepGeometry(d, hit, nb);
    if r.stepped {
      CellAt(w);
      CoordsInjective(r.cursor.index, IndexOf(w.x, w.y, w.z));
    }
  }

  /** The block arrays of the non-null neighbours. */
  function NeighbourArrays(nb: Neighbours): set<array<Block>>
  {
    (if nb.north != null then {nb.north.blocks} else {}) + (if nb.east != null then {nb.east.blocks} else {})
    + (if nb.west != null then {nb.west.blocks} else {}) + (if nb.south != null then {nb.south.blocks} else {})
  }

  /** Neither the cells nor the mesh flag of chunk c changed. */
  twostate predicate Untouched(c: Chunk)
    reads c.blocks, c`isVertexArrayDirty
  {
    c.blocks[..] == old(c.blocks[..]) && c.isVertexArrayDirty == old(c.isVertexArrayDirty)
  }

  /** Chunk c kept its mesh flag unless it is the target chunk, and its cells unless it shares the target's array. */
  twostate predicate UntouchedBeside(c: Chunk, target: Chunk)
    reads c.blocks, c`isVertexArrayDirty
  {
    && (c != target ==> c.isVertexArrayDirty == old(c.isVertexArrayDirty))
    && (c.blocks != target.blocks ==> c.blocks[..] == old(c.blocks[..]))
  }

  /** Chunk c kept its neighbour pointers, sky level, selected block and selected face. */
  twostate predicate KeptAndSelected(c: Chunk?)
    reads c
  {
    c != null ==> c.Kept() && c.selectedFace == old(c.selectedFace)
  }

  /** Every neighbour kept its neighbour pointers, sky level and selection. */
  twostate predicate NeighboursKept(nb: Neighbours)
    reads NeighbourChunks(nb)
  {
    KeptAndSelected(nb.north) && KeptAndSelected(nb.east) && KeptAndSelected(nb.west) && KeptAndSelected(nb.south)
  }

  /** Where the face switch of `PlaceBlock` sends the write. */
  datatype Landing = Outside | Inside(lbc: LocalBlockCoords) | InNeighbour(n: Chunk, lbc: LocalBlockCoords)

  /**
   * The face switch of `PlaceBlock` (Chunk.cpp 1122-1197) on the hit
   * cell's coordinates: below and on top it moves z and gives up outside
   * [0, 127]; on the four vertical faces it moves y or x and, past the
   * chunk's edge, wraps the coordinate to the far side of the neighbour
   * on that side, giving up when there is none; no face keeps the cell.
   */
  function PlacementLanding(face: BlockFace, hitBlockLbc: LocalBlockCoords, nb: Neighbours): Landing
  {
    var c := hitBlockLbc;
    match face
    case BOTTOM => if c.z - 1 < 0 then Outside else Inside(c.(z := c.z - 1))
    case TOP => if c.z + 1 > CHUNK_Z_HEIGHT_IN_BLOCKS - 1 then Outside else Inside(c.(z := c.z + 1))
    case LEFT =>
      if c.y + 1 > CHUNK_Y_WIDTH_IN_BLOCKS - 1 then (if nb.west == null then Outside else InNeighbour(nb.west, c.(y := 0)))
      else Inside(c.(y := c.y + 1))
    case RIGHT =>
      if c.y - 1 < 0 then (if nb.east == null then Outside else InNeighbour(nb.east, c.(y := CHUNK_Y_WIDTH_IN_BLOCKS - 1)))
      else Inside(c.(y := c.y - 1))
    case FRONT =>
      if c.x - 1 < 0 then (if nb.south == null then Outside else InNeighbour(nb.south, c.(x := CHUNK_X_LENGTH_IN_BLOCKS - 1)))
      else Inside(c.(x := c.x - 1))
    case BACK =>
      if c.x + 1 > CHUNK_X_LENGTH_IN_BLOCKS - 1 then (if nb.north == null then Outside else InNeighbour(nb.north, c.(x := 0)))
      else Inside(c.(x := c.x + 1))
    case NONE => Inside(c)
  }

  /** The landing of the face switch names the placement target (none when it lands outside). */
  predicate LandingNamesTarget(face: BlockFace, hit: BlockInfo, nb: Neighbours)
    requires hit.index < NUM_BLOCKS_PER_CHUNK
  {
    match PlacementLanding(face, Coords(hit.index), nb)
    case Outside => PlacementTarget(face, hit, nb) == None
    case Inside(l) => InChunk(l) && PlacementTarget(face, hit, nb) == Some(BlockInfo(hit.chunk, IndexOf(l.x, l.y, l.z)))
    case InNeighbour(n, l) =>
      InChunk(l) && n in NeighbourChunks(nb) && PlacementTarget(face, hit, nb) == Some(BlockInfo(n, IndexOf(l.x, l.y, l.z)))
  }

  /**
   * The face switch agrees with the step functions: it writes where one
   * step across the face lands, in this chunk or in the neighbour, and
   * nowhere exactly when that step fails.
   */
  lemma PlacementLandingAgrees(face: BlockFace, hit: BlockInfo, nb: Neighbours)
    requires hit.index < NUM_BLOCKS_PER_CHUNK
    ensures LandingNamesTarget(face, hit, nb)
  {
    if face == NONE {
      IndexDecomposition(hit.index);
    } else {
      match face
      case BOTTOM => LandingBelowOrAbove(face, hit, nb);
      case TOP => LandingBelowOrAbove(face, hit, nb);
      case LEFT => LandingLeft(hit, nb);
      case RIGHT => LandingRight(hit, nb);
      case FRONT => LandingFront(hit, nb);
      case BACK => LandingBack(hit, nb);
    }
  }

  lemma LandingBelowOrAbove(face: BlockFace, hit: BlockInfo, nb: Neighbours)
    requires hit.index < NUM_BLOCKS_PER_CHUNK && (face == BOTTOM || face == TOP)
    ensures LandingNamesTarget(face, hit, nb)
  {
    var c := Coords(hit.index);
    var d := FaceStep(face);
    PlacementTargetCell(face, hit, nb);
    if !AtEdge(d, c) {
      WrapInside(d, c);
    }
  }

  lemma LandingLeft(hit: BlockInfo, nb: Neighbours)
    requires hit.index < NUM_BLOCKS_PER_CHUNK
    ensures LandingNamesTarget(LEFT, hit, nb)
  {
    var c := Coords(hit.index);
    PlacementTargetCell(LEFT, hit, nb);
    if c.y < CHUNK_Y_WIDTH_IN_BLOCKS - 1 {
      WrapInside(North, c);
    }
  }

  lemma LandingRight(hit: BlockInfo, nb: Neighbours)
    requires hit.index < NUM_BLOCKS_PER_CHUNK
    ensures LandingNamesTarget(RIGHT, hit, nb)
  {
    var c := Coords(hit.index);
    PlacementTargetCell(RIGHT, hit, nb);
    if c.y > 0 {
      WrapInside(South, c);
    }
  }

  lemma LandingFront(hit: BlockInfo, nb: Neighbours)
    requires hit.index < NUM_BLOCKS_PER_CHUNK
    ensures LandingNamesTarget(FRONT, hit, nb)
  {
    var c := Coords(hit.index);
    PlacementTargetCell(FRONT, hit, nb);
    if c.x > 0 {
      WrapInside(West, c);
    }
  }

  lemma LandingBack(hit: BlockInfo, nb: Neighbours)
    requires hit.index < NUM_BLOCKS_PER_CHUNK
    ensures LandingNamesTarget(BACK, hit, nb)
  {
    var c := Coords(hit.index);
    PlacementTargetCell(BACK, hit, nb);
    if c.x < CHUNK_X_LENGTH_IN_BLOCKS - 1 {
      WrapInside(East, c);
    }
  }

  /**
   * The outcome of a placement whose target cell is t, seen from chunk
   * self and its neighbours nb: with no target nothing changes and the
   * cursor comes back as it was passed; otherwise the target cell gets the
   * placed type through `SetBlockType`, the target chunk's mesh is dirty,
   * the result points at the target, and no other chunk or array changes.
   */
  twostate predicate Placed(t: Option<BlockInfo>, self: Chunk, nb: Neighbours, typeToPlace: BlockType, blockPlaced: BlockInfo, new out: BlockInfo)
    reads self.blocks, self`isVertexArrayDirty, NeighbourChunks(nb), NeighbourArrays(nb)
  {
    match t
    case None =>
      && out == blockPlaced
      && Untouched(self)
      && (nb.north != null ==> Untouched(nb.north)) && (nb.east != null ==> Untouched(nb.east))
      && (nb.west != null ==> Untouched(nb.west)) && (nb.south != null ==> Untouched(nb.south))
    case Some(target) =>
      && out == target
      && (target.chunk == self || target.chunk in NeighbourChunks(nb))
      && target.index < target.chunk.blocks.Length
      && target.chunk.blocks[..] == old(target.chunk.blocks[..])[target.index := SetBlockType(old(target.chunk.blocks[target.index]), typeToPlace)]
      && target.chunk.isVertexArrayDirty
      && UntouchedBeside(self, target.chunk)
      && (nb.north != null ==> UntouchedBeside(nb.north, target.chunk)) && (nb.east != null ==> UntouchedBeside(nb.east, target.chunk))
      && (nb.west != null ==> UntouchedBeside(nb.west, target.chunk)) && (nb.south != null ==> UntouchedBeside(nb.south, target.chunk))
  }

  /** The block types of some cells. */
  function TypesOf(cells: seq<Block>): (ts: seq<BlockType>)
    ensures |ts| == |cells|
  {
    seq(|cells|, k requires 0 <= k < |cells| => cells[k].blockType)
  }

  /**
   * The cell of the chunk at chunkPosition that holds the global block g:
   * g less the chunk's corner, when that lies inside the chunk.
   */
  function LocalCellOf(chunkPosition: ChunkCoords, g: GlobalBlockCoords): (r: Option<LocalBlockIndex>)
    ensures r.Some? ==> r.value < NUM_BLOCKS_PER_CHUNK
  {
    var lbc := IntVector3(g.x - CHUNK_X_LENGTH_IN_BLOCKS * chunkPosition.x, g.y - CHUNK_Y_WIDTH_IN_BLOCKS * chunkPosition.y, g.z);
    if InChunk(lbc) then CellAt(lbc); Some(IndexOf(lbc.x, lbc.y, lbc.z)) else None
  }

  /** The global block of cell k of the chunk at chunkPosition. */
  function GlobalOfCell(chunkPosition: ChunkCoords, k: LocalBlockIndex): GlobalBlockCoords
    requires k < NUM_BLOCKS_PER_CHUNK
  {
    var lbc := Coords(k);
    GlobalBlockCoordsFromChunkAndLocalBlockCoords(chunkPosition, lbc.x, lbc.y, lbc.z)
  }

  /** `LocalCellOf` and `GlobalOfCell` are inverse: a global block lies in cell k exactly when it is the global block of k. */
  lemma LocalCellOfGlobal(chunkPosition: ChunkCoords, g: GlobalBlockCoords, k: LocalBlockIndex)
    requires k < NUM_BLOCKS_PER_CHUNK
    ensures LocalCellOf(chunkPosition, g) == Some(k) <==> g == GlobalOfCell(chunkPosition, k)
  {
    var c := Coords(k);
    IndexDecomposition(k);
    var lbc := IntVector3(g.x - CHUNK_X_LENGTH_IN_BLOCKS * chunkPosition.x, g.y - CHUNK_Y_WIDTH_IN_BLOCKS * chunkPosition.y, g.z);
    if LocalCellOf(chunkPosition, g) == Some(k) {
      CellAt(lbc);
      assert Coords(k) == lbc;
    }
    if g == GlobalOfCell(chunkPosition, k) {
      assert lbc == c;
    }
  }

  /** The bound check of `GetBlockFromLocalBlockIndex` as written: it rejects negative indices and those above 32768. */
  predicate IndexGuardPassesAsWritten(lbi: int)
  {
    !(lbi < 0 || lbi > NUM_BLOCKS_PER_CHUNK)
  }

  /** The check lets one index too many through: 32768, one past the last cell. */
  lemma IndexGuardAsWrittenAdmitsEnd(lbi: int)
    ensures IndexGuardPassesAsWritten(lbi) <==> 0 <= lbi < NUM_BLOCKS_PER_CHUNK || lbi == NUM_BLOCKS_PER_CHUNK
  {
  }

  /** The bound check of `GetBlockFromLocalBlockCoords` as written: y is compared with 0 twice, z never, and the upper bounds use `>`. */
  predicate CoordsGuardPassesAsWritten(lbc: LocalBlockCoords)
  {
    !(lbc.x < 0 || lbc.y < 0 || lbc.y < 0 || lbc.x > CHUNK_X_LENGTH_IN_BLOCKS
      || lbc.y > CHUNK_Y_WIDTH_IN_BLOCKS || lbc.z > CHUNK_Z_HEIGHT_IN_BLOCKS)
  }

  /**
   * The check admits every cell of the chunk, and also coordinates
   * outside it: x = 16 packs into the y bits and names the cell (0, 1, 0),
   * z = 128 packs to 32768, one past the last cell, and z = -1 passes.
   */
  lemma CoordsGuardAsWrittenAdmitsOutside(lbc: LocalBlockCoords)
    ensures InChunk(lbc) ==> CoordsGuardPassesAsWritten(lbc)
    ensures CoordsGuardPassesAsWritten(IntVector3(16, 0, 0)) && !InChunk(IntVector3(16, 0, 0))
    ensures GetLocalBlockIndexFromLocalBlockCoords(IntVector3(16, 0, 0)) == GetLocalBlockIndexFromLocalBlockCoords(IntVector3(0, 1, 0))
    ensures CoordsGuardPassesAsWritten(IntVector3(0, 0, 128)) && GetLocalBlockIndexFromLocalBlockCoords(IntVector3(0, 0, 128)) == NUM_BLOCKS_PER_CHUNK
    ensures CoordsGuardPassesAsWritten(IntVector3(0, 0, -1)) && !InChunk(IntVector3(0, 0, -1))
  {
    BitOrZero(16);
    IndexOfAgrees(IntVector3(0, 1, 0));
    IndexOfAgrees(IntVector3(0, 0, 128));
  }

  /**
   * The index `SetBlockTypeIfLocal` as written writes for global block g
   * when g's column lies in the chunk at chunkPosition: z is used unchecked.
   */
  function LocalWriteIndexAsWritten(chunkPosition: ChunkCoords, g: GlobalBlockCoords): Option<int>
    requires IsInt32(g.x) && IsInt32(g.y) && g.z >= 0
  {
    if GetChunkCoordsFromWorldCoordsXY(IntVector2(g.x, g.y)) != chunkPosition then None
    else
      var lbc := IntVector3(g.x - CHUNK_X_LENGTH_IN_BLOCKS * chunkPosition.x, g.y - CHUNK_Y_WIDTH_IN_BLOCKS * chunkPosition.y, g.z);
      Some(GetLocalBlockIndexFromLocalBlockCoords(lbc))
  }

  /**
   * A block at height 128 above chunk (0, 0), which the portal shrine's
   * pillar loop asks for once its area's ground reaches 98, is written at
   * index 32768, one past the chunk's last cell.
   */
  lemma LocalWriteAsWrittenLeavesChunk()
    ensures LocalWriteIndexAsWritten(IntVector2(0, 0), IntVector3(0, 0, 128)) == Some(NUM_BLOCKS_PER_CHUNK)
    ensures Terrain.PortalShrineTop(98) == 128
    ensures LocalCellOf(IntVector2(0, 0), IntVector3(0, 0, 128)) == None
  {
    ChunkCoordIsFloor(0);
    IndexOfAgrees(IntVector3(0, 0, 128));
  }

  /** `GetLocalColumnCoordsFromChunkColumnIndex`: the low four bits are x, the next four y. */
  function GetLocalColumnCoordsFromChunkColumnIndex(cci: ChunkColumnIndex): (lcc: LocalColumnCoords)
    ensures lcc == IntVector2(cci % CHUNK_X_LENGTH_IN_BLOCKS, (cci / CHUNK_X_LENGTH_IN_BLOCKS) % CHUNK_Y_WIDTH_IN_BLOCKS)
    ensures cci < NUM_COLUMNS_PER_CHUNK ==> lcc.x + CHUNK_X_LENGTH_IN_BLOCKS * lcc.y == cci
  {
    assert Pow2(4) == 16;
    ShiftRightDivides(cci, 4);
    AndLowMask(cci, 4);
    AndLowMask(cci / 16, 4);
    assert cci < NUM_COLUMNS_PER_CHUNK ==> (cci / 16) % 16 == cci / 16 by {
      if cci < NUM_COLUMNS_PER_CHUNK {
        DivModUnique(cci / 16, 16, 0, cci / 16);
      }
    }
    IntVector2(BitAnd(cci, CHUNK_X_LENGTH_IN_BLOCKS - 1), BitAnd(ShiftRight(cci, CHUNK_BITS_X), CHUNK_Y_WIDTH_IN_BLOCKS - 1))
  }

  /**
   * The cell at height z of column cci, through the column's local
   * coordinates as the fill loops compute it: index cci + 256 z.
   */
  function ColumnCell(cci: ChunkColumnIndex, z: int): (lbi: LocalBlockIndex)
    requires cci < NUM_COLUMNS_PER_CHUNK && 0 <= z < CHUNK_Z_HEIGHT_IN_BLOCKS
    ensures lbi < NUM_BLOCKS_PER_CHUNK
    ensures lbi % NUM_COLUMNS_PER_CHUNK == cci && lbi / NUM_COLUMNS_PER_CHUNK == z
  {
    var lcc := GetLocalColumnCoordsFromChunkColumnIndex(cci);
    var lbc := IntVector3(lcc.x, lcc.y, z);
    IndexOfAgrees(lbc);
    DivModUnique(cci + 256 * z, 256, z, cci);
    GetLocalBlockIndexFromLocalBlockCoords(lbc)
  }

  /**
   * Cells [0, z) of column cci hold the column's types written over the
   * original cells by `SetBlockType`; every other cell is original.
   */
  ghost predicate ColumnFilledBelow(cur: seq<Block>, orig: seq<Block>, cci: ChunkColumnIndex, types: int -> BlockType, z: int)
    requires |cur| == NUM_BLOCKS_PER_CHUNK && |orig| == NUM_BLOCKS_PER_CHUNK
  {
    forall k :: 0 <= k < NUM_BLOCKS_PER_CHUNK ==>
      cur[k] == if k % NUM_COLUMNS_PER_CHUNK == cci && k / NUM_COLUMNS_PER_CHUNK < z
                then SetBlockType(orig[k], types(k / NUM_COLUMNS_PER_CHUNK)) else orig[k]
  }

  /** Writing the type of height z into the column's cell at z extends the filled part by one. */
  lemma ColumnFillStep(cur: seq<Block>, orig: seq<Block>, cci: ChunkColumnIndex, types: int -> BlockType, z: int)
    requires |cur| == NUM_BLOCKS_PER_CHUNK && |orig| == NUM_BLOCKS_PER_CHUNK
    requires cci < NUM_COLUMNS_PER_CHUNK && 0 <= z < CHUNK_Z_HEIGHT_IN_BLOCKS
    requires ColumnFilledBelow(cur, orig, cci, types, z)
    ensures var lbi := ColumnCell(cci, z);
      ColumnFilledBelow(cur[lbi := SetBlockType(cur[lbi], types(z))], orig, cci, types, z + 1)
  {
    var lbi := ColumnCell(cci, z);
    var next := cur[lbi := SetBlockType(cur[lbi], types(z))];
    forall k | 0 <= k < NUM_BLOCKS_PER_CHUNK
      ensures next[k] == if k % NUM_COLUMNS_PER_CHUNK == cci && k / NUM_COLUMNS_PER_CHUNK < z + 1
                         then SetBlockType(orig[k], types(k / NUM_COLUMNS_PER_CHUNK)) else orig[k]
    {
      if k != lbi {
        assert k == 256 * (k / 256) + k % 256 && lbi == 256 * (lbi / 256) + lbi % 256;
        assert next[k] == cur[k];
      }
    }
  }

  /** A column filled to the top: column cci has its types, the rest is original. */
  lemma ColumnFilledToTop(cur: seq<Block>, orig: seq<Block>, cci: ChunkColumnIndex, types: int -> BlockType)
    requires |cur| == NUM_BLOCKS_PER_CHUNK && |orig| == NUM_BLOCKS_PER_CHUNK
    requires ColumnFilledBelow(cur, orig, cci, types, CHUNK_Z_HEIGHT_IN_BLOCKS)
    ensures forall k :: 0 <= k < NUM_BLOCKS_PER_CHUNK ==>
      cur[k] == if k % NUM_COLUMNS_PER_CHUNK == cci then SetBlockType(orig[k], types(k / NUM_COLUMNS_PER_CHUNK)) else orig[k]
  {
  }

  /** A cell after a write that may not happen: the type is set when there is one. */
  function WithType(b: Block, t: Option<BlockType>): Block
  {
    match t
    case Some(bt) => SetBlockType(b, bt)
    case None => b
  }

  /** The column of cell k is k % 256 and its height k / 256. */
  lemma ColumnOfCell(k: LocalBlockIndex)
    requires k < NUM_BLOCKS_PER_CHUNK
    ensures Coords(k % NUM_COLUMNS_PER_CHUNK) == IntVector3(Coords(k).x, Coords(k).y, 0)
    ensures Coords(k).z == k / NUM_COLUMNS_PER_CHUNK
  {
    var r := k % 256;
    var z := k / 256;
    DivModUnique(k, 16, 16 * z + r / 16, r % 16);
    DivModUnique(16 * z + r / 16, 16, z, r / 16);
    DivModUnique(r / 16, 16, 0, r / 16);
  }

  /** Columns [0, c) hold their generated types written over the original cells; the other cells are original. */
  ghost predicate ColumnsGeneratedBelow(cur: seq<Block>, orig: seq<Block>, dimension: Dimension, chunkPosition: ChunkCoords,
                                        scaledGroundNoise: IntVector2 -> int, scaledCeilingNoise: IntVector2 -> int, c: int)
    requires |cur| == NUM_BLOCKS_PER_CHUNK && |orig| == NUM_BLOCKS_PER_CHUNK
  {
    forall k :: 0 <= k < NUM_BLOCKS_PER_CHUNK ==>
      cur[k] == if k % NUM_COLUMNS_PER_CHUNK < c
                then WithType(orig[k], Terrain.GeneratedBlockTypeAt(dimension, scaledGroundNoise, scaledCeilingNoise, GlobalOfCell(chunkPosition, k)))
                else orig[k]
  }

  /** Generating column c, whose global coordinates are gcc, extends the generated part by one column. */
  lemma ColumnGeneratedStep(cur: seq<Block>, next: seq<Block>, orig: seq<Block>, dimension: Dimension, chunkPosition: ChunkCoords,
                            scaledGroundNoise: IntVector2 -> int, scaledCeilingNoise: IntVector2 -> int, c: ChunkColumnIndex, gcc: IntVector2)
    requires |cur| == NUM_BLOCKS_PER_CHUNK && |next| == NUM_BLOCKS_PER_CHUNK && |orig| == NUM_BLOCKS_PER_CHUNK
    requires c < NUM_COLUMNS_PER_CHUNK && gcc == IntVector2(GlobalOfCell(chunkPosition, c).x, GlobalOfCell(chunkPosition, c).y)
    requires ColumnsGeneratedBelow(cur, orig, dimension, chunkPosition, scaledGroundNoise, scaledCeilingNoise, c)
    requires forall k :: 0 <= k < NUM_BLOCKS_PER_CHUNK ==>
      next[k] == if k % NUM_COLUMNS_PER_CHUNK == c
                 then WithType(cur[k], Terrain.GeneratedBlockTypeAt(dimension, scaledGroundNoise, scaledCeilingNoise,
                                                                    IntVector3(gcc.x, gcc.y, k / NUM_COLUMNS_PER_CHUNK)))
                 else cur[k]
    ensures ColumnsGeneratedBelow(next, orig, dimension, chunkPosition, scaledGroundNoise, scaledCeilingNoise, c + 1)
  {
    forall k | 0 <= k < NUM_BLOCKS_PER_CHUNK && k % NUM_COLUMNS_PER_CHUNK == c
      ensures GlobalOfCell(chunkPosition, k) == IntVector3(gcc.x, gcc.y, k / NUM_COLUMNS_PER_CHUNK)
    {
      ColumnOfCell(k);
    }
  }

  /** Global cell p comes before the pond loops' position (y, x, z): rows by y, then columns by x, then heights. */
  predicate PondOrderBefore(p: GlobalBlockCoords, y: int, x: int, z: int)
  {
    p.y < y || (p.y == y && (p.x < x || (p.x == x && p.z < z)))
  }

  /** The cells after a `SetBlockTypeIfLocal`-style write of t at global cell p: the local cell of p, if any, gets t. */
  function WriteIfLocal(cells: seq<Block>, chunkPosition: ChunkCoords, p: GlobalBlockCoords, t: Option<BlockType>): (r: seq<Block>)
    requires |cells| == NUM_BLOCKS_PER_CHUNK
    ensures |r| == NUM_BLOCKS_PER_CHUNK
  {
    match LocalCellOf(chunkPosition, p)
    case Some(k) => cells[k := WithType(cells[k], t)]
    case None => cells
  }

  /** Every cell whose global coordinates come before (y, x, z) holds its pond type; the rest are original. */
  ghost predicate PondBuiltBefore(cur: seq<Block>, orig: seq<Block>, chunkPosition: ChunkCoords, dimension: Dimension,
                                  mins: GlobalBlockCoords, maxs: GlobalBlockCoords, top: int, y: int, x: int, z: int)
    requires |cur| == NUM_BLOCKS_PER_CHUNK && |orig| == NUM_BLOCKS_PER_CHUNK
  {
    forall k :: 0 <= k < NUM_BLOCKS_PER_CHUNK ==>
      cur[k] == if PondOrderBefore(GlobalOfCell(chunkPosition, k), y, x, z)
                then WithType(orig[k], Terrain.PondBlockTypeAt(dimension, mins, maxs, top, GlobalOfCell(chunkPosition, k)))
                else orig[k]
  }

  /** Writing the pond type of (x, y, z) moves the built part past that cell. */
  lemma PondStep(cur: seq<Block>, orig: seq<Block>, chunkPosition: ChunkCoords, dimension: Dimension,
                 mins: GlobalBlockCoords, maxs: GlobalBlockCoords, top: int, y: int, x: int, z: int)
    requires |cur| == NUM_BLOCKS_PER_CHUNK && |orig| == NUM_BLOCKS_PER_CHUNK
    requires PondBuiltBefore(cur, orig, chunkPosition, dimension, mins, maxs, top, y, x, z)
    ensures var p := IntVector3(x, y, z);
      PondBuiltBefore(WriteIfLocal(cur, chunkPosition, p, Terrain.PondBlockTypeAt(dimension, mins, maxs, top, p)),
                      orig, chunkPosition, dimension, mins, maxs, top, y, x, z + 1)
  {
    var p := IntVector3(x, y, z);
    forall k | 0 <= k < NUM_BLOCKS_PER_CHUNK {
      LocalCellOfGlobal(chunkPosition, p, k);
    }
  }

  /** Past the top of the chunk a column has no more cells: (y, x, 128) is (y, x + 1, 0). */
  lemma PondNextColumn(cur: seq<Block>, orig: seq<Block>, chunkPosition: ChunkCoords, dimension: Dimension,
                       mins: GlobalBlockCoords, maxs: GlobalBlockCoords, top: int, y: int, x: int)
    requires |cur| == NUM_BLOCKS_PER_CHUNK && |orig| == NUM_BLOCKS_PER_CHUNK
    requires PondBuiltBefore(cur, orig, chunkPosition, dimension, mins, maxs, top, y, x, CHUNK_Z_HEIGHT_IN_BLOCKS)
    ensures PondBuiltBefore(cur, orig, chunkPosition, dimension, mins, maxs, top, y, x + 1, 0)
  {
  }

  /** Past the area's last column, a row has no more pond cells: (y, x, 0) with x > maxs.x is (y + 1, x', 0) for any x'. */
  lemma PondNextRow(cur: seq<Block>, orig: seq<Block>, chunkPosition: ChunkCoords, dimension: Dimension,
                    mins: GlobalBlockCoords, maxs: GlobalBlockCoords, top: int, y: int, x: int, x': int)
    requires |cur| == NUM_BLOCKS_PER_CHUNK && |orig| == NUM_BLOCKS_PER_CHUNK
    requires x > maxs.x && x' <= mins.x
    requires PondBuiltBefore(cur, orig, chunkPosition, dimension, mins, maxs, top, y, x, 0)
    ensures PondBuiltBefore(cur, orig, chunkPosition, dimension, mins, maxs, top, y + 1, x', 0)
  {
  }

  /** Before the area's first row nothing is written; after its last row, everything is. */
  lemma PondBounds(cur: seq<Block>, orig: seq<Block>, chunkPosition: ChunkCoords, dimension: Dimension,
                   mins: GlobalBlockCoords, maxs: GlobalBlockCoords, top: int, y: int)
    requires |cur| == NUM_BLOCKS_PER_CHUNK && |orig| == NUM_BLOCKS_PER_CHUNK
    ensures cur == orig ==> PondBuiltBefore(cur, orig, chunkPosition, dimension, mins, maxs, top, mins.y, mins.x, 0)
    ensures y > maxs.y && PondBuiltBefore(cur, orig, chunkPosition, dimension, mins, maxs, top, y, mins.x, 0) ==>
      forall k :: 0 <= k < NUM_BLOCKS_PER_CHUNK ==>
        cur[k] == WithType(orig[k], Terrain.PondBlockTypeAt(dimension, mins, maxs, top, GlobalOfCell(chunkPosition, k)))
  {
  }

  /** The cells after loading decoded types d from cell 0 upward over the cells under. */
  function LoadedCells(under: seq<Block>, d: seq<BlockType>): (r: seq<Block>)
    requires |d| <= |under|
    ensures |r| == |under|
  {
    seq(|under|, k requires 0 <= k < |under| => if k < |d| then SetBlockType(under[k], d[k]) else under[k])
  }

  /**
   * The cells `PopulateChunkWithPerlinNoise` leaves in the chunk at p over
   * the cells under: each retyped to the terrain generated at its global
   * block, where the generator names a type.
   */
  function GeneratedCells(under: seq<Block>, p: ChunkCoords, dimension: Dimension,
                          scaledGroundNoise: IntVector2 -> int, scaledCeilingNoise: IntVector2 -> int): (r: seq<Block>)
    requires |under| == NUM_BLOCKS_PER_CHUNK
    ensures |r| == NUM_BLOCKS_PER_CHUNK
  {
    seq(NUM_BLOCKS_PER_CHUNK, k requires 0 <= k < NUM_BLOCKS_PER_CHUNK =>
      WithType(under[k], Terrain.GeneratedBlockTypeAt(dimension, scaledGroundNoise, scaledCeilingNoise, GlobalOfCell(p, k))))
  }

  /** Loading sets exactly the overlaid types: the decoded ones first, the old ones beyond. */
  lemma LoadedTypes(under: seq<Block>, d: seq<BlockType>)
    requires |d| <= |under|
    ensures TypesOf(LoadedCells(under, d)) == Rle.Overlay(d, TypesOf(under))
  {
  }

  /**
   * Saving a chunk with the flushed encoder and loading the bytes into any
   * chunk gives back every block type of the saved chunk.
   */
  lemma SaveLoadRoundTrip(saved: seq<Block>, under: seq<Block>)
    requires |saved| == |under|
    ensures Rle.TypeBytesValid(Rle.EncodeFlushed(TypesOf(saved)))
    ensures |Rle.DecodeTypes(Rle.EncodeFlushed(TypesOf(saved)))| == |under|
    ensures TypesOf(LoadedCells(under, Rle.DecodeTypes(Rle.EncodeFlushed(TypesOf(saved))))) == TypesOf(saved)
  {
    Rle.EncodeFlushedRoundTrip(TypesOf(saved));
    LoadedTypes(under, TypesOf(saved));
  }

  /**
   * Saving a chunk with the encoder as written and loading the bytes into a
   * freshly constructed chunk gives back its block types exactly when its
   * last block is AIR.
   */
  lemma AsWrittenSaveLoad(saved: seq<Block>)
    requires |saved| == NUM_BLOCKS_PER_CHUNK
    ensures Rle.TypeBytesValid(Rle.EncodeAsWritten(TypesOf(saved)))
    ensures |Rle.DecodeTypes(Rle.EncodeAsWritten(TypesOf(saved)))| <= NUM_BLOCKS_PER_CHUNK
    ensures var newChunk := DefaultCells(NUM_BLOCKS_PER_CHUNK);
      TypesOf(LoadedCells(newChunk, Rle.DecodeTypes(Rle.EncodeAsWritten(TypesOf(saved))))) == TypesOf(saved)
      <==> saved[NUM_BLOCKS_PER_CHUNK - 1].blockType == AIR
  {
    var newChunk := DefaultCells(NUM_BLOCKS_PER_CHUNK);
    Rle.AsWrittenReloadIffLastAir(TypesOf(saved));
    LoadedTypes(newChunk, Rle.DecodeTypes(Rle.EncodeAsWritten(TypesOf(saved))));
    assert TypesOf(newChunk) == Rle.Repeat(AIR, NUM_BLOCKS_PER_CHUNK);
  }

  /** Cells [0, m) hold the decoded types d written over the original cells; the rest are original. */
  ghost predicate DecodedBelow(cur: seq<Block>, orig: seq<Block>, d: seq<BlockType>, m: int)
    requires |cur| == NUM_BLOCKS_PER_CHUNK && |orig| == NUM_BLOCKS_PER_CHUNK && 0 <= m <= |d| <= NUM_BLOCKS_PER_CHUNK
  {
    forall k :: 0 <= k < NUM_BLOCKS_PER_CHUNK ==> cur[k] == if k < m then SetBlockType(orig[k], d[k]) else orig[k]
  }

  /** Loading decoded type m into cell m extends the loaded part by one. */
  lemma DecodedStep(cur: seq<Block>, orig: seq<Block>, d: seq<BlockType>, m: int)
    requires |cur| == NUM_BLOCKS_PER_CHUNK && |orig| == NUM_BLOCKS_PER_CHUNK && 0 <= m < |d| <= NUM_BLOCKS_PER_CHUNK
    requires DecodedBelow(cur, orig, d, m)
    ensures DecodedBelow(cur[m := SetBlockType(cur[m], d[m])], orig, d, m + 1)
  {
  }

  class Chunk {
    const blocks: array<Block>
    const chunkPosition: ChunkCoords
    const chunkDimension: Dimension
    var northNeighbor: Chunk?
    var eastNeighbor: Chunk?
    var westNeighbor: Chunk?
    var southNeighbor: Chunk?
    var selectedBlock: LocalBlockIndex
    var selectedFace: BlockFace
    var isVertexArrayDirty: bool
    var currentSkyLightLevel: int

    /** The block array has one cell per block of the chunk. */
    predicate Wf()
    {
      blocks.Length == NUM_BLOCKS_PER_CHUNK
    }

    function GetNeighbours(): Neighbours
      reads this`northNeighbor, this`eastNeighbor, this`westNeighbor, this`southNeighbor
    {
      Neighbours(northNeighbor, eastNeighbor, westNeighbor, southNeighbor)
    }

    /** This chunk and its non-null neighbours. */
    function Reach(): set<Chunk>
      reads this`northNeighbor, this`eastNeighbor, this`westNeighbor, this`southNeighbor
    {
      {this} + NeighbourChunks(GetNeighbours())
    }

    /** The block arrays of the reach. */
    function ReachArrays(): set<array<Block>>
      reads this`northNeighbor, this`eastNeighbor, this`westNeighbor, this`southNeighbor
    {
      {blocks} + NeighbourArrays(GetNeighbours())
    }

    /** The neighbours are well formed, and distinct chunks of the reach have distinct arrays. */
    predicate NeighboursWf()
      reads this`northNeighbor, this`eastNeighbor, this`westNeighbor, this`southNeighbor
    {
      && this !in NeighbourChunks(GetNeighbours())
      && (forall c :: c in NeighbourChunks(GetNeighbours()) ==> c.Wf())
      && (forall a, b :: a in Reach() && b in Reach() && a != b ==> a.blocks != b.blocks)
    }

    /** The neighbour pointers, the sky level and the selected block are those of the previous state. */
    twostate predicate Kept()
      reads this
    {
      && northNeighbor == old(northNeighbor) && eastNeighbor == old(eastNeighbor)
      && westNeighbor == old(westNeighbor) && southNeighbor == old(southNeighbor)
      && currentSkyLightLevel == old(currentSkyLightLevel) && selectedBlock == old(selectedBlock)
    }

    /**
     * A new chunk: every cell AIR with clear flags, a dirty mesh and full
     * sky light.  The game leaves the neighbour pointers and the selection
     * uninitialised until the world links the chunk; here the pointers
     * start null, the selected index at 99999 and the face at NONE, so
     * `IsHighlighting` holds.
     */
    constructor (chunkPosition: ChunkCoords, chunkDimension: Dimension)
      ensures Wf() && fresh(blocks)
      ensures blocks[..] == DefaultCells(NUM_BLOCKS_PER_CHUNK)
      ensures this.chunkPosition == chunkPosition && this.chunkDimension == chunkDimension
      ensures GetNeighbours() == NO_NEIGHBOURS
      ensures isVertexArrayDirty && currentSkyLightLevel == MAX_LIGHTING_LEVEL
      ensures selectedBlock == BLOCK_UNHIGHLIGHTED && selectedFace == NONE
    {
      blocks := new Block[NUM_BLOCKS_PER_CHUNK](_ => DEFAULT_BLOCK);
      this.chunkPosition := chunkPosition;
      this.chunkDimension := chunkDimension;
      northNeighbor := null;
      eastNeighbor := null;
      westNeighbor := null;
      southNeighbor := null;
      selectedBlock := BLOCK_UNHIGHLIGHTED;
      selectedFace := NONE;
      isVertexArrayDirty := true;
      currentSkyLightLevel := MAX_LIGHTING_LEVEL;
    }

    method MarkVertexArrayDirty()
      modifies this`isVertexArrayDirty
      ensures isVertexArrayDirty
    {
      isVertexArrayDirty := true;
    }

    /** `RebuildVertexArray`: the mesh itself is not modelled, only that it is clean afterwards. */
    method RebuildVertexArray()
      modifies this`isVertexArrayDirty
      ensures !isVertexArrayDirty
    {
      isVertexArrayDirty := false;
    }

    /** `SetCurrentSkyLightLevel`, which dies on a level outside [0, 15]. */
    method SetCurrentSkyLightLevel(clampedNewLightLevel: int)
      requires 0 <= clampedNewLightLevel <= MAX_LIGHTING_LEVEL
      modifies this`currentSkyLightLevel
      ensures currentSkyLightLevel == clampedNewLightLevel
    {
      currentSkyLightLevel := clampedNewLightLevel;
    }

    function IsBlockSolid(lbi: LocalBlockIndex): bool
      requires Wf() && lbi < NUM_BLOCKS_PER_CHUNK
      reads blocks
    {
      BlockDefinitions.IsSolid(blocks[lbi].blockType)
    }

    /** `IsHighlighting`: true with no face selected, or with a selected index inside the chunk. */
    predicate IsHighlighting()
      reads this
    {
      selectedFace == NONE || selectedBlock < NUM_BLOCKS_PER_CHUNK
    }

    /**
     * `Unhighlight`.  It clears the face as well as the index, and
     * `IsHighlighting` is true with no face selected, so a chunk reports
     * itself highlighting right after being unhighlighted.
     */
    method Unhighlight()
      modifies this`selectedBlock, this`selectedFace
      ensures selectedBlock == BLOCK_UNHIGHLIGHTED && selectedFace == NONE
      ensures IsHighlighting()
    {
      selectedBlock := BLOCK_UNHIGHLIGHTED;
      selectedFace := NONE;
    }

    method SetSelectedFace(directionOppositeFace: Direction)
      modifies this`selectedFace
      ensures selectedFace == FaceAfterSelecting(old(selectedFace), directionOppositeFace)
    {
      if directionOppositeFace == WorldUp { selectedFace := BOTTOM; }
      else if directionOppositeFace == WorldDown { selectedFace := TOP; }
      else if directionOppositeFace == WorldLeft { selectedFace := RIGHT; }
      else if directionOppositeFace == WorldRight { selectedFace := LEFT; }
      else if directionOppositeFace == WorldForward { selectedFace := BACK; }
      else if directionOppositeFace == WorldBackward { selectedFace := FRONT; }
    }

    method HighlightBlock(lbi: LocalBlockIndex, directionOppositeFace: Direction)
      modifies this`selectedBlock, this`selectedFace
      ensures selectedBlock == lbi && selectedFace == FaceAfterSelecting(old(selectedFace), directionOppositeFace)
      ensures lbi < NUM_BLOCKS_PER_CHUNK ==> IsHighlighting()
    {
      selectedBlock := lbi;
      SetSelectedFace(directionOppositeFace);
    }

    /**
     * `ShouldFaceRender`: a face is drawn when the step across it fails
     * (no face, the top or bottom of the world, a missing neighbour), when
     * the cell across it is not opaque, or when that cell has a different
     * type.
     */
    function ShouldFaceRender(face: BlockFace, thisBlockIndex: LocalBlockIndex): bool
      requires Wf() && NeighboursWf() && thisBlockIndex < NUM_BLOCKS_PER_CHUNK
      reads this, ReachArrays()
    {
      if face == NONE then true
      else
        var r := StepBy(FaceStep(face), BlockInfo(this, thisBlockIndex), GetNeighbours());
        StepGeometry(FaceStep(face), BlockInfo(this, thisBlockIndex), GetNeighbours());
        if !r.stepped then true
        else
          assert r.cursor.chunk in Reach();
          var myBlockType := blocks[thisBlockIndex].blockType;
          var neighborBlockType := r.cursor.chunk.blocks[r.cursor.index].blockType;
          if !BlockDefinitions.IsOpaque(neighborBlockType) then true
          else myBlockType != neighborBlockType
    }

    /**
     * `BreakBlock`: the cell becomes AIR (which is not opaque), keeping its
     * light, sky and dirty flags; this is the effect of placing AIR at it.
     */
    method BreakBlock(lbi: LocalBlockIndex)
      requires Wf() && lbi < NUM_BLOCKS_PER_CHUNK
      modifies this`isVertexArrayDirty, blocks
      ensures blocks[..] == old(blocks[..])[lbi := SetBlockType(old(blocks[lbi]), AIR)]
      ensures blocks[lbi].blockType == AIR && !IsOpaque(blocks[lbi])
      ensures isVertexArrayDirty
    {
      OpacityAfterSetBlockType(blocks[lbi], AIR);
      blocks[lbi] := SetBlockType(blocks[lbi], AIR);
      blocks[lbi] := SetBlockToNotBeOpaque(blocks[lbi]);
      isVertexArrayDirty := true;
    }

    /** The chunks and arrays `PlaceBlock` may write: its own, and its neighbours' when it is not told where to write. */
    function PlacementFrame(directionOppositeFace: Direction): set<object>
      reads this`northNeighbor, this`eastNeighbor, this`westNeighbor, this`southNeighbor
    {
      if directionOppositeFace == ZeroDirection then {this, blocks}
      else Reach() + ReachArrays()
    }

    /**
     * `PlaceBlock`.  With the zero direction it writes the type at the
     * given cell.  Otherwise it first selects the face opposite the
     * direction and writes one step across that face, which inside the
     * chunk means the adjacent index and at a vertical face the
     * neighbour's cell, written by a zero-direction call to the neighbour;
     * when the step would leave the world nothing is written and the cursor
     * argument comes back unchanged.  The written chunk's mesh becomes dirty.
     */
    method PlaceBlock(lbi: LocalBlockIndex, directionOppositeFace: Direction, typeToPlace: BlockType, blockPlaced: BlockInfo)
      returns (blockPlacedOut: BlockInfo)
      requires Wf() && lbi < NUM_BLOCKS_PER_CHUNK
      requires directionOppositeFace != ZeroDirection ==> NeighboursWf()
      modifies PlacementFrame(directionOppositeFace)
      ensures selectedFace == FaceForPlacement(old(selectedFace), directionOppositeFace)
      ensures Kept()
      ensures directionOppositeFace == ZeroDirection ==>
        && blockPlacedOut == BlockInfo(this, lbi)
        && blocks[..] == old(blocks[..])[lbi := SetBlockType(old(blocks[lbi]), typeToPlace)]
        && isVertexArrayDirty
      ensures directionOppositeFace != ZeroDirection ==>
        NeighboursKept(old(GetNeighbours()))
      ensures directionOppositeFace != ZeroDirection ==>
        Placed(PlacementTarget(selectedFace, BlockInfo(this, lbi), old(GetNeighbours())), this, old(GetNeighbours()), typeToPlace, blockPlaced, blockPlacedOut)
      decreases if directionOppositeFace == ZeroDirection then 0 else 3
    {
      if directionOppositeFace == ZeroDirection {
        blockPlacedOut := PlaceAtCell(lbi, typeToPlace);
        return;
      }

      // `SetSelectedFace` comes first in the game; the writes below neither
      // read nor write this chunk's selected face, so it is recorded last.
      var face := FaceAfterSelecting(selectedFace, directionOppositeFace);
      blockPlacedOut := PlaceOnFace(lbi, face, typeToPlace, blockPlaced);
      selectedFace := face;
    }

    /** The face switch of `PlaceBlock`: the write one step across the given face. */
    method PlaceOnFace(lbi: LocalBlockIndex, face: BlockFace, typeToPlace: BlockType, blockPlaced: BlockInfo)
      returns (blockPlacedOut: BlockInfo)
      requires Wf() && NeighboursWf() && lbi < NUM_BLOCKS_PER_CHUNK
      modifies this`isVertexArrayDirty, blocks, NeighbourChunks(GetNeighbours()), NeighbourArrays(GetNeighbours())
      ensures Kept() && NeighboursKept(old(GetNeighbours()))
      ensures Placed(PlacementTarget(face, BlockInfo(this, lbi), old(GetNeighbours())), this, old(GetNeighbours()), typeToPlace, blockPlaced, blockPlacedOut)
      decreases 2
    {
      PlacementLandingAgrees(face, BlockInfo(this, lbi), GetNeighbours());
      match PlacementLanding(face, Coords(lbi), GetNeighbours()) {
        case Outside =>
          blockPlacedOut := blockPlaced;
        case Inside(lbc) =>
          blockPlacedOut := PlaceInside(lbc, typeToPlace, blockPlaced);
        case InNeighbour(n, lbc) =>
          blockPlacedOut := PlaceInNeighbour(n, lbc, typeToPlace, blockPlaced);
      }
    }

    /**
     * The zero-direction branch of `PlaceBlock`: the type goes into the
     * cell, the opaque bit is set once more from the registry (which
     * changes nothing) and the mesh becomes dirty.
     */
    method PlaceAtCell(lbi: LocalBlockIndex, typeToPlace: BlockType) returns (blockPlacedOut: BlockInfo)
      requires Wf() && lbi < NUM_BLOCKS_PER_CHUNK
      modifies this`isVertexArrayDirty, blocks
      ensures blockPlacedOut == BlockInfo(this, lbi)
      ensures blocks[..] == old(blocks[..])[lbi := SetBlockType(old(blocks[lbi]), typeToPlace)]
      ensures isVertexArrayDirty
    {
      blocks[lbi] := SetBlockType(blocks[lbi], typeToPlace);
      blockPlacedOut := BlockInfo(this, lbi);
      OpacityAfterSetBlockType(old(blocks[lbi]), typeToPlace);
      if BlockDefinitions.IsOpaque(blocks[lbi].blockType) {
        blocks[lbi] := SetBlockToBeOpaque(blocks[lbi]);
      } else {
        blocks[lbi] := SetBlockToNotBeOpaque(blocks[lbi]);
      }
      isVertexArrayDirty := true;
    }

    /** The in-chunk end of `PlaceBlock`: the type goes into this chunk's cell at lbc and the mesh becomes dirty. */
    method PlaceInside(lbc: LocalBlockCoords, typeToPlace: BlockType, blockPlaced: BlockInfo) returns (blockPlacedOut: BlockInfo)
      requires Wf() && NeighboursWf() && InChunk(lbc)
      modifies this`isVertexArrayDirty, blocks
      ensures NeighboursKept(old(GetNeighbours()))
      ensures Placed(Some(BlockInfo(this, IndexOf(lbc.x, lbc.y, lbc.z))), this, old(GetNeighbours()), typeToPlace, blockPlaced, blockPlacedOut)
    {
      CellAt(lbc);
      var newBlockLbi := IndexOf(lbc.x, lbc.y, lbc.z);
      blocks[newBlockLbi] := SetBlockType(blocks[newBlockLbi], typeToPlace);
      blockPlacedOut := BlockInfo(this, newBlockLbi);
      isVertexArrayDirty := true;
    }

    /** The edge-crossing end of `PlaceBlock`: a zero-direction placement at lbc in neighbour n. */
    method PlaceInNeighbour(n: Chunk, lbc: LocalBlockCoords, typeToPlace: BlockType, blockPlaced: BlockInfo) returns (blockPlacedOut: BlockInfo)
      requires Wf() && NeighboursWf() && InChunk(lbc) && n in NeighbourChunks(GetNeighbours())
      modifies n, n.blocks
      ensures Kept() && NeighboursKept(old(GetNeighbours()))
      ensures Placed(Some(BlockInfo(n, IndexOf(lbc.x, lbc.y, lbc.z))), this, old(GetNeighbours()), typeToPlace, blockPlaced, blockPlacedOut)
      decreases 1
    {
      CellAt(lbc);
      var nb := GetNeighbours();
      var lbiInNeighborChunk := IndexOf(lbc.x, lbc.y, lbc.z);
      blockPlacedOut := n.PlaceBlock(lbiInNeighborChunk, ZeroDirection, typeToPlace, blockPlaced);
      assert forall m: Chunk :: m in NeighbourChunks(nb) && m != n ==> KeptAndSelected(m);
    }

    /**
     * `GetGlobalColumnCoordsFromChunkColumnIndex` (whose float components
     * hold these integers exactly): the column's global coordinates, which
     * lie in this chunk's 16 x 16 square.
     */
    function GetGlobalColumnCoordsFromChunkColumnIndex(cci: ChunkColumnIndex): (gcc: IntVector2)
      requires cci < NUM_COLUMNS_PER_CHUNK
      ensures var g := GlobalOfCell(chunkPosition, cci); gcc == IntVector2(g.x, g.y)
      ensures gcc.x / CHUNK_X_LENGTH_IN_BLOCKS == chunkPosition.x && gcc.y / CHUNK_Y_WIDTH_IN_BLOCKS == chunkPosition.y
    {
      var lcc := GetLocalColumnCoordsFromChunkColumnIndex(cci);
      var gcc := IntVector2(lcc.x + chunkPosition.x * CHUNK_X_LENGTH_IN_BLOCKS, lcc.y + chunkPosition.y * CHUNK_Y_WIDTH_IN_BLOCKS);
      DivModUnique(gcc.x, 16, chunkPosition.x, lcc.x);
      DivModUnique(gcc.y, 16, chunkPosition.y, lcc.y);
      gcc
    }

    /**
     * `GetWorldCoordsFromLocalBlockIndex` (again exact in floats): the
     * global block of the cell, with the chunk's corner added as intended.
     */
    function GetWorldCoordsFromLocalBlockIndex(lbi: LocalBlockIndex): (wc: IntVector3)
      requires lbi < NUM_BLOCKS_PER_CHUNK
      ensures wc == GlobalOfCell(chunkPosition, lbi)
      ensures LocalCellOf(chunkPosition, wc) == Some(lbi)
    {
      var lbc := GetLocalBlockCoordsFromLocalBlockIndex(lbi);
      CoordsAgree(lbi);
      LocalCellOfGlobal(chunkPosition, GlobalOfCell(chunkPosition, lbi), lbi);
      IntVector3(lbc.x + chunkPosition.x * CHUNK_X_LENGTH_IN_BLOCKS, lbc.y + chunkPosition.y * CHUNK_Y_WIDTH_IN_BLOCKS, lbc.z)
    }

    /**
     * `GetBlockFromLocalBlockIndex` with the bound check it evidently
     * intends: the cell for an index inside the array, nothing otherwise.
     */
    function GetBlockFromLocalBlockIndex(lbi: int): (b: Option<Block>)
      requires Wf()
      reads blocks
      ensures b.Some? <==> 0 <= lbi < blocks.Length
      ensures b.Some? ==> b.value == blocks[lbi]
    {
      if lbi < 0 || lbi >= NUM_BLOCKS_PER_CHUNK then None else Some(blocks[lbi])
    }

    /**
     * `GetBlockFromLocalBlockCoords` with the bound check it evidently
     * intends: the cell at the coordinates when they lie in the chunk.
     */
    function GetBlockFromLocalBlockCoords(lbc: LocalBlockCoords): (b: Option<Block>)
      requires Wf()
      reads blocks
      ensures b.Some? <==> InChunk(lbc)
      ensures b.Some? ==> b == GetBlockFromLocalBlockIndex(IndexOf(lbc.x, lbc.y, lbc.z)) && Coords(IndexOf(lbc.x, lbc.y, lbc.z)) == lbc
    {
      if lbc.x < 0 || lbc.y < 0 || lbc.z < 0 || lbc.x >= CHUNK_X_LENGTH_IN_BLOCKS
         || lbc.y >= CHUNK_Y_WIDTH_IN_BLOCKS || lbc.z >= CHUNK_Z_HEIGHT_IN_BLOCKS then None
      else
        IndexOfAgrees(lbc);
        CellAt(lbc);
        Some(blocks[GetLocalBlockIndexFromLocalBlockCoords(lbc)])
    }

    /**
     * `SetBlockTypeIfLocal`, with the height check the village builders
     * need: the global block's cell gets the type when the block lies in
     * this chunk, and nothing changes otherwise.
     */
    method SetBlockTypeIfLocal(blockGlobalMins: GlobalBlockCoords, newType: BlockType)
      requires Wf() && IsInt32(blockGlobalMins.x) && IsInt32(blockGlobalMins.y)
      modifies blocks
      ensures match LocalCellOf(chunkPosition, blockGlobalMins)
        case Some(k) => blocks[..] == old(blocks[..])[k := SetBlockType(old(blocks[k]), newType)]
        case None => blocks[..] == old(blocks[..])
    {
      var coordsForChunkContainingWorldPosOfBlock := GetChunkCoordsFromWorldCoordsXY(IntVector2(blockGlobalMins.x, blockGlobalMins.y));
      if coordsForChunkContainingWorldPosOfBlock != chunkPosition {
        return;
      }
      if blockGlobalMins.z < 0 || blockGlobalMins.z >= CHUNK_Z_HEIGHT_IN_BLOCKS {
        return;
      }
      var chunkWorldMins := ChunkMinsInWorldUnits(chunkPosition);
      var lbc := IntVector3(blockGlobalMins.x - chunkWorldMins.x, blockGlobalMins.y - chunkWorldMins.y, blockGlobalMins.z);
      IndexOfAgrees(lbc);
      var lbi := GetLocalBlockIndexFromLocalBlockCoords(lbc);
      blocks[lbi] := SetBlockType(blocks[lbi], newType);
    }

    /**
     * `PopulateColumnWithOverworldBlocksWithPerlinNoise`: each cell of the
     * column, bottom to top, gets the overworld type for its height; the
     * rest of the chunk is untouched.
     */
    method PopulateColumnWithOverworldBlocksWithPerlinNoise(columnIndex: ChunkColumnIndex, groundHeight: int)
      requires Wf() && columnIndex < NUM_COLUMNS_PER_CHUNK
      modifies blocks
      ensures forall k :: 0 <= k < NUM_BLOCKS_PER_CHUNK ==>
        blocks[k] == if k % NUM_COLUMNS_PER_CHUNK == columnIndex
                     then SetBlockType(old(blocks[k]), Terrain.OverworldBlockTypeAt(k / NUM_COLUMNS_PER_CHUNK, groundHeight))
                     else old(blocks[k])
    {
      ghost var types := h => Terrain.OverworldBlockTypeAt(h, groundHeight);
      var blockHeight := 0;
      while blockHeight < CHUNK_Z_HEIGHT_IN_BLOCKS
        invariant 0 <= blockHeight <= CHUNK_Z_HEIGHT_IN_BLOCKS
        invariant ColumnFilledBelow(blocks[..], old(blocks[..]), columnIndex, types, blockHeight)
      {
        var lbi := ColumnCell(columnIndex, blockHeight);
        ghost var cur := blocks[..];
        ghost var before := blocks[lbi];
        if blockHeight > groundHeight {
          if blockHeight < SEA_LEVEL_HEIGHT_LIMIT { blocks[lbi] := SetBlockType(blocks[lbi], WATER); }
          else { blocks[lbi] := SetBlockType(blocks[lbi], AIR); }
        } else if blockHeight == groundHeight {
          if blockHeight <= SEA_LEVEL_HEIGHT_LIMIT { blocks[lbi] := SetBlockType(blocks[lbi], SAND); }
          else { blocks[lbi] := SetBlockType(blocks[lbi], GRASS); }
        } else if blockHeight > groundHeight - NUM_DIRT_LAYERS {
          if blockHeight <= SEA_LEVEL_HEIGHT_LIMIT { blocks[lbi] := SetBlockType(blocks[lbi], SAND); }
          SetBlockTypeOverwrites(before, SAND, DIRT);
          blocks[lbi] := SetBlockType(blocks[lbi], DIRT);
        } else {
          blocks[lbi] := SetBlockType(blocks[lbi], STONE);
        }
        assert blocks[..] == cur[lbi := SetBlockType(cur[lbi], types(blockHeight))];
        ColumnFillStep(cur, old(blocks[..]), columnIndex, types, blockHeight);
        blockHeight := blockHeight + 1;
      }
      ColumnFilledToTop(blocks[..], old(blocks[..]), columnIndex, types);
    }

    /**
     * `PopulateColumnWithNetherBlocksWithPerlinNoise`: the ceiling comes
     * from the column's scaled ceiling noise, then each cell of the column
     * gets the nether type for its height.
     */
    method PopulateColumnWithNetherBlocksWithPerlinNoise(globalColumnCoords: IntVector2, columnIndex: ChunkColumnIndex,
                                                         groundHeight: int, scaledCeilingNoise: IntVector2 -> int)
      requires Wf() && columnIndex < NUM_COLUMNS_PER_CHUNK
      modifies blocks
      ensures var ceilingHeight := Terrain.CeilingHeightFromNoise(scaledCeilingNoise(globalColumnCoords));
        forall k :: 0 <= k < NUM_BLOCKS_PER_CHUNK ==>
          blocks[k] == if k % NUM_COLUMNS_PER_CHUNK == columnIndex
                       then SetBlockType(old(blocks[k]), Terrain.NetherBlockTypeAt(k / NUM_COLUMNS_PER_CHUNK, groundHeight, ceilingHeight))
                       else old(blocks[k])
    {
      var ceilingHeight := Terrain.CeilingHeightFromNoise(scaledCeilingNoise(globalColumnCoords));
      ghost var types := h => Terrain.NetherBlockTypeAt(h, groundHeight, ceilingHeight);
      var blockHeight := 0;
      while blockHeight < CHUNK_Z_HEIGHT_IN_BLOCKS
        invariant 0 <= blockHeight <= CHUNK_Z_HEIGHT_IN_BLOCKS
        invariant ColumnFilledBelow(blocks[..], old(blocks[..]), columnIndex, types, blockHeight)
      {
        var lbi := ColumnCell(columnIndex, blockHeight);
        ghost var cur := blocks[..];
        ghost var before := blocks[lbi];
        if blockHeight < groundHeight - NUM_DIRT_LAYERS {
          blocks[lbi] := SetBlockType(blocks[lbi], BROWNSTONE);
        } else if blockHeight < groundHeight {
          blocks[lbi] := SetBlockType(blocks[lbi], NETHERRACK);
        } else if blockHeight == groundHeight {
          if blockHeight <= NETHER_LAVA_HEIGHT_LIMIT { blocks[lbi] := SetBlockType(blocks[lbi], RED_SAND); }
          else { blocks[lbi] := SetBlockType(blocks[lbi], MYCELIUM); }
        } else if blockHeight > groundHeight && blockHeight < ceilingHeight {
          if blockHeight < NETHER_LAVA_HEIGHT_LIMIT { blocks[lbi] := SetBlockType(blocks[lbi], LAVA); }
          else { blocks[lbi] := SetBlockType(blocks[lbi], AIR); }
        } else if blockHeight == ceilingHeight {
          assert Pow2(1) == 2;
          AndLowMask(blockHeight, 1);
          if BitAnd(blockHeight, 1) == 0 { blocks[lbi] := SetBlockType(blocks[lbi], GLOWSTONE); }
          else { blocks[lbi] := SetBlockType(blocks[lbi], NETHERRACK); }
        } else if blockHeight >= ceilingHeight && blockHeight < ceilingHeight + NUM_DIRT_LAYERS {
          if blockHeight <= NETHER_LAVA_HEIGHT_LIMIT { blocks[lbi] := SetBlockType(blocks[lbi], RED_SAND); }
          SetBlockTypeOverwrites(before, RED_SAND, NETHERRACK);
          blocks[lbi] := SetBlockType(blocks[lbi], NETHERRACK);
        } else {
          blocks[lbi] := SetBlockType(blocks[lbi], BROWNSTONE);
        }
        assert blocks[..] == cur[lbi := SetBlockType(cur[lbi], types(blockHeight))];
        ColumnFillStep(cur, old(blocks[..]), columnIndex, types, blockHeight);
        blockHeight := blockHeight + 1;
      }
      ColumnFilledToTop(blocks[..], old(blocks[..]), columnIndex, types);
    }

    /**
     * `PopulateChunkWithPerlinNoise`, column by column: each column's ground
     * height comes from its scaled ground noise, and the column is filled
     * for the chunk's dimension.  Afterwards every cell holds the type
     * generation assigns to its global coordinates.
     */
    method PopulateChunkWithPerlinNoise(scaledGroundNoise: IntVector2 -> int, scaledCeilingNoise: IntVector2 -> int)
      requires Wf()
      modifies blocks
      ensures forall k :: 0 <= k < NUM_BLOCKS_PER_CHUNK ==>
        blocks[k] == WithType(old(blocks[k]), Terrain.GeneratedBlockTypeAt(chunkDimension, scaledGroundNoise, scaledCeilingNoise,
                                                                           GlobalOfCell(chunkPosition, k)))
    {
      var columnIndex := 0;
      while columnIndex < NUM_COLUMNS_PER_CHUNK
        invariant 0 <= columnIndex <= NUM_COLUMNS_PER_CHUNK
        invariant ColumnsGeneratedBelow(blocks[..], old(blocks[..]), chunkDimension, chunkPosition,
                                        scaledGroundNoise, scaledCeilingNoise, columnIndex)
      {
        ghost var cur := blocks[..];
        var globalColumnCoords := GetGlobalColumnCoordsFromChunkColumnIndex(columnIndex);
        var columnGroundHeight := Terrain.GroundHeightFromNoise(chunkDimension, scaledGroundNoise(globalColumnCoords));
        if chunkDimension == DIM_OVERWORLD {
          PopulateColumnWithOverworldBlocksWithPerlinNoise(columnIndex, columnGroundHeight);
        } else if chunkDimension == DIM_NETHER {
          PopulateColumnWithNetherBlocksWithPerlinNoise(globalColumnCoords, columnIndex, columnGroundHeight, scaledCeilingNoise);
        }
        ColumnGeneratedStep(cur, blocks[..], old(blocks[..]), chunkDimension, chunkPosition,
                            scaledGroundNoise, scaledCeilingNoise, columnIndex, globalColumnCoords);
        columnIndex := columnIndex + 1;
      }
    }

    /**
     * `GetMaxColumnGroundHeightForArea`: scans the area row by row from -1
     * upward and keeps the highest column ground height it meets.
     */
    method GetMaxColumnGroundHeightForArea(areaMins: GlobalBlockCoords, areaMaxs: GlobalBlockCoords, scaledGroundNoise: IntVector2 -> int)
      returns (currentMaxColumnGroundHeight: int)
      ensures currentMaxColumnGroundHeight == Terrain.MaxGroundHeightInArea(chunkDimension, scaledGroundNoise, areaMins, areaMaxs)
    {
      currentMaxColumnGroundHeight := -1;
      var y := areaMins.y;
      while y <= areaMaxs.y
        invariant areaMins.y <= y && (y <= areaMaxs.y + 1 || y == areaMins.y)
        invariant currentMaxColumnGroundHeight
                  == Terrain.MaxGroundHeightInRows(chunkDimension, scaledGroundNoise, areaMins.x, areaMaxs.x + 1, areaMins.y, y)
      {
        ghost var rowsBefore := currentMaxColumnGroundHeight;
        var x := areaMins.x;
        while x <= areaMaxs.x
          invariant areaMins.x <= x && (x <= areaMaxs.x + 1 || x == areaMins.x)
          invariant currentMaxColumnGroundHeight
                    == MathUtils.Max(rowsBefore, Terrain.MaxGroundHeightInRow(chunkDimension, scaledGroundNoise, y, areaMins.x, x))
        {
          var currentColumnGroundHeight := Terrain.ColumnGroundHeight(chunkDimension, scaledGroundNoise, x, y);
          if currentMaxColumnGroundHeight < currentColumnGroundHeight {
            currentMaxColumnGroundHeight := currentColumnGroundHeight;
          }
          x := x + 1;
        }
        y := y + 1;
      }
    }

    /**
     * `BuildPond`: the pond's top is the highest ground of its area; every
     * cell of the area up to the top that lies in this chunk is walled or
     * filled as the pond layout says, and every other cell is untouched.
     */
    method BuildPond(pondWorldMins: GlobalBlockCoords, pondWorldMaxs: GlobalBlockCoords, scaledGroundNoise: IntVector2 -> int)
      requires Wf()
      requires IsInt32(pondWorldMins.x) && IsInt32(pondWorldMins.y) && IsInt32(pondWorldMaxs.x) && IsInt32(pondWorldMaxs.y)
      modifies blocks
      ensures var top := Terrain.MaxGroundHeightInArea(chunkDimension, scaledGroundNoise, pondWorldMins, pondWorldMaxs);
        forall k :: 0 <= k < NUM_BLOCKS_PER_CHUNK ==>
          blocks[k] == WithType(old(blocks[k]), Terrain.PondBlockTypeAt(chunkDimension, pondWorldMins, pondWorldMaxs, top,
                                                                         GlobalOfCell(chunkPosition, k)))
    {
      var topOfPond := GetMaxColumnGroundHeightForArea(pondWorldMins, pondWorldMaxs, scaledGroundNoise);
      var bottomOfPond := topOfPond - Terrain.VILLAGE_POND_HEIGHT;
      PondBounds(blocks[..], old(blocks[..]), chunkPosition, chunkDimension, pondWorldMins, pondWorldMaxs, topOfPond, pondWorldMins.y);
      var y := pondWorldMins.y;
      while y <= pondWorldMaxs.y
        invariant pondWorldMins.y <= y && (y <= pondWorldMaxs.y + 1 || y == pondWorldMins.y)
        invariant PondBuiltBefore(blocks[..], old(blocks[..]), chunkPosition, chunkDimension,
                                  pondWorldMins, pondWorldMaxs, topOfPond, y, pondWorldMins.x, 0)
      {
        var x := pondWorldMins.x;
        while x <= pondWorldMaxs.x
          invariant pondWorldMins.x <= x && (x <= pondWorldMaxs.x + 1 || x == pondWorldMins.x)
          invariant PondBuiltBefore(blocks[..], old(blocks[..]), chunkPosition, chunkDimension,
                                    pondWorldMins, pondWorldMaxs, topOfPond, y, x, 0)
        {
          var z := 0;
          while z < CHUNK_Z_HEIGHT_IN_BLOCKS
            invariant 0 <= z <= CHUNK_Z_HEIGHT_IN_BLOCKS
            invariant PondBuiltBefore(blocks[..], old(blocks[..]), chunkPosition, chunkDimension,
                                      pondWorldMins, pondWorldMaxs, topOfPond, y, x, z)
          {
            var currentBlockWorldMins := IntVector3(x, y, z);
            var wallType := if chunkDimension == DIM_NETHER then NETHERRACK else COBBLESTONE;
            ghost var cur := blocks[..];
            if z > topOfPond {
            } else if z < bottomOfPond {
              SetBlockTypeIfLocal(currentBlockWorldMins, wallType);
            } else if x == pondWorldMins.x || x == pondWorldMaxs.x || y == pondWorldMins.y || y == pondWorldMaxs.y {
              SetBlockTypeIfLocal(currentBlockWorldMins, wallType);
            } else {
              var pondContent := if chunkDimension == DIM_NETHER then LAVA else WATER;
              SetBlockTypeIfLocal(currentBlockWorldMins, pondContent);
            }
            assert blocks[..] == WriteIfLocal(cur, chunkPosition, currentBlockWorldMins,
              Terrain.PondBlockTypeAt(chunkDimension, pondWorldMins, pondWorldMaxs, topOfPond, currentBlockWorldMins));
            PondStep(cur, old(blocks[..]), chunkPosition, chunkDimension, pondWorldMins, pondWorldMaxs, topOfPond, y, x, z);
            z := z + 1;
          }
          PondNextColumn(blocks[..], old(blocks[..]), chunkPosition, chunkDimension, pondWorldMins, pondWorldMaxs, topOfPond, y, x);
          x := x + 1;
        }
        PondNextRow(blocks[..], old(blocks[..]), chunkPosition, chunkDimension, pondWorldMins, pondWorldMaxs, topOfPond, y, x, pondWorldMins.x);
        y := y + 1;
      }
      PondBounds(blocks[..], old(blocks[..]), chunkPosition, chunkDimension, pondWorldMins, pondWorldMaxs, topOfPond, y);
    }

    /**
     * The loop of `GetRleString`: appends the pair of every run of the
     * chunk's block types except the last, which it hands back as the
     * type and count it was still counting.
     */
    method EncodeRuns(outBuffer: seq<Rle.Byte>) returns (out: seq<Rle.Byte>, currentType: BlockType, numOfTypeSeen: nat)
      requires Wf()
      ensures out == outBuffer + Rle.EncodeAsWritten(TypesOf(blocks[..]))
      ensures Rle.LastRun(TypesOf(blocks[..])) == Rle.Run(currentType, numOfTypeSeen)
    {
      ghost var s := TypesOf(blocks[..]);
      out := outBuffer;
      currentType := blocks[0].blockType;
      numOfTypeSeen := 1;
      assert s[..1] == [currentType];
      Rle.EncodeFirstBlock(currentType);
      var blockIndex := 1;
      while blockIndex < NUM_BLOCKS_PER_CHUNK
        invariant 1 <= blockIndex <= NUM_BLOCKS_PER_CHUNK
        invariant out == outBuffer + Rle.EncodeAsWritten(s[..blockIndex])
        invariant Rle.LastRun(s[..blockIndex]) == Rle.Run(currentType, numOfTypeSeen)
      {
        Rle.EncodeAsWrittenStep(s[..blockIndex], blocks[blockIndex].blockType);
        assert s[..blockIndex] + [blocks[blockIndex].blockType] == s[..blockIndex + 1];
        if currentType == blocks[blockIndex].blockType && numOfTypeSeen < Rle.MAX_RUN_LENGTH {
          numOfTypeSeen := numOfTypeSeen + 1;
        } else {
          out := out + [currentType as Rle.Byte];
          out := out + [numOfTypeSeen as Rle.Byte];
          currentType := blocks[blockIndex].blockType;
          numOfTypeSeen := 1;
        }
        blockIndex := blockIndex + 1;
      }
      assert s[..NUM_BLOCKS_PER_CHUNK] == s;
    }

    /** `GetRleString` as written: the final run is never appended. */
    method GetRleString(outBuffer: seq<Rle.Byte>) returns (out: seq<Rle.Byte>)
      requires Wf()
      ensures out == outBuffer + Rle.EncodeAsWritten(TypesOf(blocks[..]))
    {
      var currentType, numOfTypeSeen;
      out, currentType, numOfTypeSeen := EncodeRuns(outBuffer);
    }

    /** `GetRleString` with the final run appended after the loop, as a round trip needs. */
    method GetRleStringFlushed(outBuffer: seq<Rle.Byte>) returns (out: seq<Rle.Byte>)
      requires Wf()
      ensures out == outBuffer + Rle.EncodeFlushed(TypesOf(blocks[..]))
    {
      var currentType, numOfTypeSeen;
      out, currentType, numOfTypeSeen := EncodeRuns(outBuffer);
      Rle.EncodeFlushedAppendsLastRun(TypesOf(blocks[..]));
      out := out + [currentType as Rle.Byte];
      out := out + [numOfTypeSeen as Rle.Byte];
    }

    /**
     * `PopulateChunkWithRleString`: pair by pair, sets the next count of
     * cells to the pair's type, re-deriving each cell's opaque bit.  Cells
     * past the decoded blocks keep what they held.
     */
    method PopulateChunkWithRleString(rleString: seq<Rle.Byte>)
      requires Wf() && Rle.WellFormedRle(rleString)
      modifies blocks
      ensures blocks[..] == LoadedCells(old(blocks[..]), Rle.DecodeTypes(rleString))
    {
      ghost var d := Rle.DecodeTypes(rleString);
      var currentBlockIndex := 0;
      var byteIndex := 0;
      while byteIndex < |rleString|
        invariant 0 <= byteIndex <= |rleString| && byteIndex % 2 == 0
        invariant Rle.TypeBytesValid(rleString[byteIndex..])
        invariant 0 <= currentBlockIndex <= |d| && d[currentBlockIndex..] == Rle.DecodeTypes(rleString[byteIndex..])
        invariant DecodedBelow(blocks[..], old(blocks[..]), d, currentBlockIndex)
      {
        var currentType := rleString[byteIndex] as BlockType;
        var numOfType := rleString[byteIndex + 1];
        assert rleString[byteIndex..][2..] == rleString[byteIndex + 2..];
        assert d[currentBlockIndex..] == Rle.Repeat(currentType, numOfType) + Rle.DecodeTypes(rleString[byteIndex + 2..]);
        var blockIndex := 0;
        while blockIndex < numOfType
          invariant 0 <= blockIndex <= numOfType
          invariant DecodedBelow(blocks[..], old(blocks[..]), d, currentBlockIndex + blockIndex)
        {
          var i := currentBlockIndex + blockIndex;
          assert d[i] == d[currentBlockIndex..][blockIndex] == currentType;
          ghost var cur := blocks[..];
          blocks[i] := SetBlockType(blocks[i], currentType);
          OpacityAfterSetBlockType(cur[i], currentType);
          if BlockDefinitions.IsOpaque(currentType) {
            blocks[i] := SetBlockToBeOpaque(blocks[i]);
          } else {
            blocks[i] := SetBlockToNotBeOpaque(blocks[i]);
          }
          DecodedStep(cur, old(blocks[..]), d, i);
          blockIndex := blockIndex + 1;
        }
        assert d[currentBlockIndex + numOfType..] == Rle.DecodeTypes(rleString[byteIndex + 2..]);
        Rle.TypeBytesValidSuffix(rleString, byteIndex + 2);
        currentBlockIndex := currentBlockIndex + numOfType;
        byteIndex := byteIndex + 2;
      }
    }
  }

  /**
   * Face culling is mutual: across a face whose step succeeds, this cell's
   * face is drawn exactly when the facing cell's opposite face is drawn,
   * provided a crossing chunk names this chunk as its neighbour back; a
   * face whose step fails is always drawn.
   */
  lemma FaceCullingIsMutual(c: Chunk, face: BlockFace, i: LocalBlockIndex)
    requires c.Wf() && c.NeighboursWf() && i < NUM_BLOCKS_PER_CHUNK && face != NONE
    requires var r := StepBy(FaceStep(face), BlockInfo(c, i), c.GetNeighbours());
      r.stepped && r.cursor.chunk != null ==>
        && r.cursor.chunk.Wf() && r.cursor.chunk.NeighboursWf()
        && (AtEdge(FaceStep(face), Coords(i)) ==> NeighbourFor(Opposite(FaceStep(face)), r.cursor.chunk.GetNeighbours()) == c)
    ensures var r := StepBy(FaceStep(face), BlockInfo(c, i), c.GetNeighbours());
      && (!r.stepped ==> c.ShouldFaceRender(face, i))
      && (r.stepped ==> r.cursor.chunk != null)
      && (r.stepped && r.cursor.chunk != null ==>
            (c.ShouldFaceRender(face, i) <==> r.cursor.chunk.ShouldFaceRender(OppositeFace(face), r.cursor.index)))
  {
    var d := FaceStep(face);
    var bi := BlockInfo(c, i);
    var r := StepBy(d, bi, c.GetNeighbours());
    StepGeometry(d, bi, c.GetNeighbours());
    FacesAreSteps(face, d);
    if r.stepped {
      StepThereAndBack(d, bi, c.GetNeighbours(), r.cursor.chunk.GetNeighbours());
    }
  }
}
