/**
 * The world's lighting, on values.  The active chunks of the current
 * dimension are a map from chunk coordinates to each chunk's cells and sky
 * light level; a `Cell` names one block by chunk coordinates and index; the
 * queue is the world's deque of lighting-dirty blocks.  Every lighting
 * operation of the world is a function here, and the `World` class proves
 * that its methods, which work through chunk pointers and `BlockInfo`
 * cursors, compute these functions.
 *
 * The central invariant is `DirtyIffQueued`: a cell's lighting-dirty bit is
 * set exactly when the cell is in the queue, and no cell is queued twice.
 */
module Lighting {

  import opened GameCommon
  import opened IntVectors
  import opened Blocks
  import opened Chunks
  import BlockDefinitions
  import MathUtils
  import Bits

  datatype Cell = Cell(chunk: ChunkCoords, index: LocalBlockIndex)

  datatype ChunkLight = ChunkLight(blocks: seq<Block>, skyLightLevel: int)

  datatype LightWorld = LightWorld(chunks: map<ChunkCoords, ChunkLight>, queue: seq<Cell>)

  /** Every chunk has one cell per block and a sky level in [0, 15]. */
  predicate Wf(w: LightWorld)
  {
    forall p :: p in w.chunks ==>
      |w.chunks[p].blocks| == NUM_BLOCKS_PER_CHUNK && 0 <= w.chunks[p].skyLightLevel <= MAX_LIGHTING_LEVEL
  }

  /** The cell lies in an active chunk. */
  predicate Holds(w: LightWorld, c: Cell)
  {
    c.chunk in w.chunks && c.index < NUM_BLOCKS_PER_CHUNK
  }

  function At(w: LightWorld, c: Cell): Block
    requires Wf(w) && Holds(w, c)
  {
    w.chunks[c.chunk].blocks[c.index]
  }

  function LightAt(w: LightWorld, c: Cell): int
    requires Wf(w) && Holds(w, c)
  {
    GetLightLevel(At(w, c))
  }

  /** The world with cell c holding b; chunks, sky levels and queue are kept. */
  function Put(w: LightWorld, c: Cell, b: Block): (r: LightWorld)
    requires Wf(w) && Holds(w, c)
    ensures Wf(r) && r.chunks.Keys == w.chunks.Keys && r.queue == w.queue
    ensures At(r, c) == b
    ensures forall c' :: Holds(w, c') && c' != c ==> At(r, c') == At(w, c')
    ensures forall p :: p in w.chunks ==> r.chunks[p].skyLightLevel == w.chunks[p].skyLightLevel
  {
    var ch := w.chunks[c.chunk];
    w.(chunks := w.chunks[c.chunk := ch.(blocks := ch.blocks[c.index := b])])
  }

  /**
   * The queue holds active cells whose dirty bit is set, each once, and
   * every dirty cell is queued.
   */
  ghost predicate DirtyIffQueued(w: LightWorld)
  {
    && Wf(w)
    && (forall i :: 0 <= i < |w.queue| ==> Holds(w, w.queue[i]) && IsLightingDirty(At(w, w.queue[i])))
    && (forall i, j :: 0 <= i < j < |w.queue| ==> w.queue[i] != w.queue[j])
    && (forall c :: Holds(w, c) && IsLightingDirty(At(w, c)) ==> c in w.queue)
  }

  /**
   * r is w with some dirty bits set and cells appended to the queue:
   * same chunks, same sky levels, every cell as before or as before with
   * its dirty bit set.
   */
  ghost predicate OnlyDirtied(w: LightWorld, r: LightWorld)
  {
    && Wf(w) && Wf(r) && r.chunks.Keys == w.chunks.Keys
    && (forall p :: p in w.chunks ==> r.chunks[p].skyLightLevel == w.chunks[p].skyLightLevel)
    && (forall c :: Holds(w, c) ==> At(r, c) == At(w, c) || At(r, c) == SetLightingDirty(At(w, c)))
    && w.queue <= r.queue
  }

  lemma OnlyDirtiedTransitive(u: LightWorld, v: LightWorld, w: LightWorld)
    requires OnlyDirtied(u, v) && OnlyDirtied(v, w)
    ensures OnlyDirtied(u, w)
  {
    forall c | Holds(u, c)
      ensures At(w, c) == At(u, c) || At(w, c) == SetLightingDirty(At(u, c))
    {
      SettersIdempotent(At(u, c));
    }
  }

  /** Setting dirty bits keeps every other part of every cell, and keeps dirty cells dirty. */
  lemma OnlyDirtiedKeeps(w: LightWorld, r: LightWorld, c: Cell)
    requires OnlyDirtied(w, r) && Holds(w, c)
    ensures At(r, c).blockType == At(w, c).blockType
    ensures LightAt(r, c) == LightAt(w, c)
    ensures IsSky(At(r, c)) == IsSky(At(w, c)) && IsOpaque(At(r, c)) == IsOpaque(At(w, c))
    ensures IsLightingDirty(At(w, c)) ==> IsLightingDirty(At(r, c))
  {
    SameExceptFlags(SetLightingDirty(At(w, c)), At(w, c), BLOCKFLAGS_IS_LIGHTING_DIRTY_BITMASK);
  }

  // ---------------------------------------------------------------- marking

  /**
   * `World::MarkBlockLightingDirty`: a clean cell gets its dirty bit and
   * joins the back of the queue; a cell already dirty is left alone, which
   * keeps the queue free of duplicates.
   */
  function Mark(w: LightWorld, c: Cell): (r: LightWorld)
    requires Wf(w) && Holds(w, c)
    ensures Wf(r) && r.chunks.Keys == w.chunks.Keys
  {
    var b := At(w, c);
    if IsLightingDirty(b) then w else Put(w, c, SetLightingDirty(b)).(queue := w.queue + [c])
  }

  /**
   * Marking keeps the invariant: afterwards the cell is dirty and queued,
   * the queue gained it exactly when it was not queued before, and nothing
   * else changed.
   */
  lemma MarkKeepsQueue(w: LightWorld, c: Cell)
    requires DirtyIffQueued(w) && Holds(w, c)
    ensures var r := Mark(w, c);
      && DirtyIffQueued(r) && OnlyDirtied(w, r)
      && IsLightingDirty(At(r, c)) && c in r.queue
      && r.queue == (if c in w.queue then w.queue else w.queue + [c])
      && (forall c' :: Holds(w, c') && c' != c ==> At(r, c') == At(w, c'))
  {
    var r := Mark(w, c);
    if !IsLightingDirty(At(w, c)) {
      assert c !in w.queue;
      forall c' | Holds(r, c') && IsLightingDirty(At(r, c'))
        ensures c' in r.queue
      {
        if c' != c {
          assert c' in w.queue;
        }
      }
      assert forall i :: 0 <= i < |w.queue| ==> r.queue[i] == w.queue[i];
    }
  }

  function MarkIfNotSky(w: LightWorld, c: Cell): (r: LightWorld)
    requires Wf(w) && Holds(w, c)
    ensures Wf(r) && r.chunks.Keys == w.chunks.Keys
  {
    if IsSky(At(w, c)) then w else Mark(w, c)
  }

  /** Marks the non-sky cells of cs, first to last. */
  function MarkEachNotSky(w: LightWorld, cs: seq<Cell>): (r: LightWorld)
    requires Wf(w) && forall i :: 0 <= i < |cs| ==> Holds(w, cs[i])
    ensures Wf(r) && r.chunks.Keys == w.chunks.Keys
    decreases |cs|
  {
    if cs == [] then w else MarkEachNotSky(MarkIfNotSky(w, cs[0]), cs[1..])
  }

  /**
   * Marking a list of cells keeps the invariant, sets only dirty bits,
   * leaves the cells outside the list alone, and leaves every non-sky
   * cell of the list dirty.
   */
  lemma {:induction false} MarkEachNotSkyFacts(w: LightWorld, cs: seq<Cell>)
    requires DirtyIffQueued(w) && forall i :: 0 <= i < |cs| ==> Holds(w, cs[i])
    ensures var r := MarkEachNotSky(w, cs);
      && DirtyIffQueued(r) && OnlyDirtied(w, r)
      && (forall i :: 0 <= i < |cs| && !IsSky(At(w, cs[i])) ==> IsLightingDirty(At(r, cs[i])))
      && (forall c :: Holds(w, c) && c !in cs ==> At(r, c) == At(w, c))
    decreases |cs|
  {
    if cs != [] {
      var w1 := MarkIfNotSky(w, cs[0]);
      if !IsSky(At(w, cs[0])) {
        MarkKeepsQueue(w, cs[0]);
      }
      assert OnlyDirtied(w, w1);
      MarkEachNotSkyFacts(w1, cs[1..]);
      var r := MarkEachNotSky(w1, cs[1..]);
      OnlyDirtiedTransitive(w, w1, r);
      forall i | 0 <= i < |cs| && !IsSky(At(w, cs[i]))
        ensures IsLightingDirty(At(r, cs[i]))
      {
        if i == 0 {
          OnlyDirtiedKeeps(w1, r, cs[0]);
        } else {
          OnlyDirtiedKeeps(w, w1, cs[i]);
          assert cs[1..][i - 1] == cs[i];
        }
      }
      forall c | Holds(w, c) && c !in cs
        ensures At(r, c) == At(w, c)
      {
        assert c != cs[0];
        assert c !in cs[1..];
      }
    }
  }

  // ---------------------------------------------------------------- stepping

  /** The chunk a horizontal step enters from the chunk at p; steps up and down never leave it. */
  function Across(p: ChunkCoords, d: StepDirection): ChunkCoords
  {
    match d
    case North => IntVector2(p.x, p.y + 1)
    case South => IntVector2(p.x, p.y - 1)
    case East => IntVector2(p.x + 1, p.y)
    case West => IntVector2(p.x - 1, p.y)
    case Up => p
    case Down => p
  }

  /** The step fails: it would leave the chunk, upwards, downwards or towards an inactive chunk. */
  predicate Blocked(keys: set<ChunkCoords>, d: StepDirection, c: Cell)
    requires c.index < NUM_BLOCKS_PER_CHUNK
  {
    AtEdge(d, Coords(c.index)) && (d == Up || d == Down || Across(c.chunk, d) !in keys)
  }

  /**
   * A `BlockInfo` step in a world whose neighbour pointers are those of the
   * active chunks with coordinates keys: the adjacent cell, wrapped into
   * the entered chunk, or the cell itself when the step fails.
   */
  function Step(keys: set<ChunkCoords>, d: StepDirection, c: Cell): (r: Cell)
    requires c.index < NUM_BLOCKS_PER_CHUNK
    ensures r.index < NUM_BLOCKS_PER_CHUNK
    ensures c.chunk in keys ==> r.chunk in keys
  {
    var lbc := Coords(c.index);
    if Blocked(keys, d, c) then c
    else
      var v := Wrapped(Add3(lbc, Offset(d)));
      WrapBack(d, lbc);
      CellAt(v);
      Cell(if AtEdge(d, lbc) then Across(c.chunk, d) else c.chunk, IndexOf(v.x, v.y, v.z))
  }

  /** The global coordinates of a cell. */
  function GlobalOf(c: Cell): GlobalBlockCoords
    requires c.index < NUM_BLOCKS_PER_CHUNK
  {
    GlobalOfCell(c.chunk, c.index)
  }

  /**
   * Steps walk the global grid: a step fails exactly when it is blocked,
   * and otherwise it reaches the global block one unit away in its
   * direction, across chunk borders too.
   */
  lemma StepReachesAdjacentBlock(keys: set<ChunkCoords>, d: StepDirection, c: Cell)
    requires c.index < NUM_BLOCKS_PER_CHUNK
    ensures Step(keys, d, c) == c <==> Blocked(keys, d, c)
    ensures !Blocked(keys, d, c) ==> GlobalOf(Step(keys, d, c)) == Add3(GlobalOf(c), Offset(d))
  {
    var lbc := Coords(c.index);
    if !Blocked(keys, d, c) {
      var v := Wrapped(Add3(lbc, Offset(d)));
      WrapBack(d, lbc);
      CellAt(v);
      var r := Step(keys, d, c);
      assert Coords(r.index) == v;
      if !AtEdge(d, lbc) {
        WrapInside(d, lbc);
        assert Coords(r.index) != Coords(c.index);
      }
    }
  }

  /** The four horizontal neighbours in `DirtyNonSkyNeighborsForBlock`'s order, then up and down when asked for. */
  function Neighbourhood(keys: set<ChunkCoords>, c: Cell, includeVerticalNeighbors: bool): (ns: seq<Cell>)
    requires c.index < NUM_BLOCKS_PER_CHUNK
    ensures c.chunk in keys ==> forall i :: 0 <= i < |ns| ==> ns[i].chunk in keys && ns[i].index < NUM_BLOCKS_PER_CHUNK
  {
    [Step(keys, East, c), Step(keys, West, c), Step(keys, North, c), Step(keys, South, c)]
      + (if includeVerticalNeighbors then [Step(keys, Up, c), Step(keys, Down, c)] else [])
  }

  /** The directions `DirtyNonSkyNeighborsForBlock` steps in, in its order. */
  function Directions(includeVerticalNeighbors: bool): seq<StepDirection>
  {
    [East, West, North, South] + (if includeVerticalNeighbors then [Up, Down] else [])
  }

  /** Marks the non-sky neighbours of c in the directions ds, first to last. */
  function MarkNeighboursNotSky(w: LightWorld, c: Cell, ds: seq<StepDirection>): (r: LightWorld)
    requires Wf(w) && Holds(w, c)
    ensures Wf(r) && r.chunks.Keys == w.chunks.Keys
    decreases |ds|
  {
    if ds == [] then w else MarkNeighboursNotSky(MarkIfNotSky(w, Step(w.chunks.Keys, ds[0], c)), c, ds[1..])
  }

  /** The cells one step from c in the directions ds, in order. */
  function StepsFrom(keys: set<ChunkCoords>, c: Cell, ds: seq<StepDirection>): (ns: seq<Cell>)
    requires c.index < NUM_BLOCKS_PER_CHUNK
    ensures |ns| == |ds| && forall i :: 0 <= i < |ds| ==> ns[i] == Step(keys, ds[i], c)
    decreases |ds|
  {
    if ds == [] then [] else [Step(keys, ds[0], c)] + StepsFrom(keys, c, ds[1..])
  }

  /** Marking neighbour by neighbour is marking the list of the neighbours. */
  lemma {:induction false} MarkNeighboursIsMarkEach(w: LightWorld, c: Cell, ds: seq<StepDirection>)
    requires Wf(w) && Holds(w, c)
    ensures MarkNeighboursNotSky(w, c, ds) == MarkEachNotSky(w, StepsFrom(w.chunks.Keys, c, ds))
    decreases |ds|
  {
    if ds != [] {
      var w' := MarkIfNotSky(w, Step(w.chunks.Keys, ds[0], c));
      MarkNeighboursIsMarkEach(w', c, ds[1..]);
      assert StepsFrom(w.chunks.Keys, c, ds)[1..] == StepsFrom(w'.chunks.Keys, c, ds[1..]);
    }
  }

  /**
   * `World::DirtyNonSkyNeighborsForBlock`: each neighbour that is not a
   * sky block is marked; a failed step names the cell itself, which is then
   * marked in the missing neighbour's place.
   */
  function DirtyNonSkyNeighbours(w: LightWorld, c: Cell, includeVerticalNeighbors: bool): (r: LightWorld)
    requires Wf(w) && Holds(w, c)
    ensures Wf(r) && r.chunks.Keys == w.chunks.Keys
  {
    MarkNeighboursNotSky(w, c, Directions(includeVerticalNeighbors))
  }

  /** `DirtyNonSkyNeighbours` marks the cells of `Neighbourhood`, first to last. */
  lemma DirtyNonSkyNeighboursMarksNeighbourhood(w: LightWorld, c: Cell, includeVerticalNeighbors: bool)
    requires Wf(w) && Holds(w, c)
    ensures DirtyNonSkyNeighbours(w, c, includeVerticalNeighbors) == MarkEachNotSky(w, Neighbourhood(w.chunks.Keys, c, includeVerticalNeighbors))
  {
    MarkNeighboursIsMarkEach(w, c, Directions(includeVerticalNeighbors));
    NeighbourhoodInDirections(w.chunks.Keys, c, includeVerticalNeighbors);
  }

  /** The neighbourhood lists the steps in the directions, in their order. */
  lemma NeighbourhoodInDirections(keys: set<ChunkCoords>, c: Cell, includeVerticalNeighbors: bool)
    requires c.index < NUM_BLOCKS_PER_CHUNK
    ensures Neighbourhood(keys, c, includeVerticalNeighbors) == StepsFrom(keys, c, Directions(includeVerticalNeighbors))
  {
    var ds := Directions(includeVerticalNeighbors);
    var ns := Neighbourhood(keys, c, includeVerticalNeighbors);
    var ms := StepsFrom(keys, c, ds);
    assert ds[0] == East && ds[1] == West && ds[2] == North && ds[3] == South;
    assert includeVerticalNeighbors ==> ds[4] == Up && ds[5] == Down;
    forall i | 0 <= i < |ds|
      ensures ns[i] == ms[i]
    {
    }
  }

  /**
   * After `DirtyNonSkyNeighborsForBlock` every non-sky neighbour is dirty
   * and queued, only dirty bits changed, cells that are no neighbour are
   * untouched, and the invariant holds.
   */
  lemma DirtyNonSkyNeighboursFacts(w: LightWorld, c: Cell, includeVerticalNeighbors: bool, d: StepDirection)
    requires DirtyIffQueued(w) && Holds(w, c)
    requires includeVerticalNeighbors || (d != Up && d != Down)
    ensures var r := DirtyNonSkyNeighbours(w, c, includeVerticalNeighbors);
      var n := Step(w.chunks.Keys, d, c);
      && DirtyIffQueued(r) && OnlyDirtied(w, r)
      && (!IsSky(At(w, n)) ==> IsLightingDirty(At(r, n)) && n in r.queue)
      && (forall c' :: Holds(w, c') && c' !in Neighbourhood(w.chunks.Keys, c, includeVerticalNeighbors) ==> At(r, c') == At(w, c'))
  {
    var ns := Neighbourhood(w.chunks.Keys, c, includeVerticalNeighbors);
    DirtyNonSkyNeighboursMarksNeighbourhood(w, c, includeVerticalNeighbors);
    MarkEachNotSkyFacts(w, ns);
    var n := Step(w.chunks.Keys, d, c);
    var i := match d
      case East => 0 case West => 1 case North => 2 case South => 3 case Up => 4 case Down => 5;
    assert ns[i] == n;
  }

  // ---------------------------------------------------------------- ideal light

  /** The light of the neighbour in direction d, which is the cell's own light when the step fails. */
  function NeighbourLight(w: LightWorld, d: StepDirection, c: Cell): int
    requires Wf(w) && Holds(w, c)
  {
    LightAt(w, Step(w.chunks.Keys, d, c))
  }

  /** The chunk's sky level for a sky block, 0 otherwise. */
  function SkyFactor(w: LightWorld, c: Cell): int
    requires Wf(w) && Holds(w, c)
  {
    if IsSky(At(w, c)) then w.chunks[c.chunk].skyLightLevel else 0
  }

  /**
   * `World::GetIdealLightForBlock`: an opaque type gets its own emission;
   * any other block the largest of its brightest neighbour's light less
   * one, its sky factor and its emission.
   */
  function IdealLight(w: LightWorld, c: Cell): (n: int)
    requires Wf(w) && Holds(w, c)
    ensures 0 <= n <= MAX_LIGHTING_LEVEL
  {
    var t := At(w, c).blockType;
    if BlockDefinitions.IsOpaque(t) then BlockDefinitions.GetLightLevel(t)
    else
      var currentBlockLight := BlockDefinitions.GetLightLevel(t);
      var skyFactor := SkyFactor(w, c);
      var highestNeighborLight := 0;
      var highestNeighborLight := MathUtils.Max(highestNeighborLight, NeighbourLight(w, East, c));
      var highestNeighborLight := MathUtils.Max(highestNeighborLight, NeighbourLight(w, West, c));
      var highestNeighborLight := MathUtils.Max(highestNeighborLight, NeighbourLight(w, North, c));
      var highestNeighborLight := MathUtils.Max(highestNeighborLight, NeighbourLight(w, South, c));
      var highestNeighborLight := MathUtils.Max(highestNeighborLight, NeighbourLight(w, Up, c));
      var highestNeighborLight := MathUtils.Max(highestNeighborLight, NeighbourLight(w, Down, c));
      MathUtils.Max(highestNeighborLight - 1, MathUtils.Max(skyFactor, currentBlockLight))
  }

  /**
   * The ideal light of a non-opaque block is the least value that is at
   * least every neighbour's light less one, its sky factor and its
   * emission: it bounds all of them and equals one of them.
   */
  lemma IdealLightIsLeastBound(w: LightWorld, c: Cell)
    requires Wf(w) && Holds(w, c) && !BlockDefinitions.IsOpaque(At(w, c).blockType)
    ensures var n := IdealLight(w, c);
      && (forall d :: n >= NeighbourLight(w, d, c) - 1)
      && n >= SkyFactor(w, c) && n >= BlockDefinitions.GetLightLevel(At(w, c).blockType)
      && (n == SkyFactor(w, c) || n == BlockDefinitions.GetLightLevel(At(w, c).blockType)
          || exists d :: n == NeighbourLight(w, d, c) - 1)
  {
    var n := IdealLight(w, c);
    forall d
      ensures n >= NeighbourLight(w, d, c) - 1
    {
      match d
      case East => case West => case North => case South => case Up => case Down =>
    }
    if n != SkyFactor(w, c) && n != BlockDefinitions.GetLightLevel(At(w, c).blockType) {
      if n == NeighbourLight(w, East, c) - 1 {
      } else if n == NeighbourLight(w, West, c) - 1 {
      } else if n == NeighbourLight(w, North, c) - 1 {
      } else if n == NeighbourLight(w, South, c) - 1 {
      } else if n == NeighbourLight(w, Up, c) - 1 {
      } else {
        assert n == NeighbourLight(w, Down, c) - 1;
      }
    }
  }

  /** An opaque type's ideal light is its emission, whatever surrounds it. */
  lemma IdealLightOfOpaque(w: LightWorld, c: Cell)
    requires Wf(w) && Holds(w, c) && BlockDefinitions.IsOpaque(At(w, c).blockType)
    ensures IdealLight(w, c) == BlockDefinitions.GetLightLevel(At(w, c).blockType)
  {
  }

  // ---------------------------------------------------------------- relaxation

  /** Writing a cell without touching its dirty bit keeps the invariant. */
  lemma PutKeepsQueue(w: LightWorld, c: Cell, b: Block)
    requires DirtyIffQueued(w) && Holds(w, c) && IsLightingDirty(b) == IsLightingDirty(At(w, c))
    ensures DirtyIffQueued(Put(w, c, b))
  {
    var r := Put(w, c, b);
    forall c' | Holds(r, c') && IsLightingDirty(At(r, c'))
      ensures c' in r.queue
    {
      assert IsLightingDirty(At(w, c'));
    }
  }

  /** The types, sky bits and opaque bits of all cells agree, and so do the chunks and their sky levels. */
  ghost predicate SameShape(w: LightWorld, r: LightWorld)
  {
    && Wf(w) && Wf(r) && r.chunks.Keys == w.chunks.Keys
    && (forall p :: p in w.chunks ==> r.chunks[p].skyLightLevel == w.chunks[p].skyLightLevel)
    && (forall c :: Holds(w, c) ==>
          At(r, c).blockType == At(w, c).blockType && IsSky(At(r, c)) == IsSky(At(w, c)) && IsOpaque(At(r, c)) == IsOpaque(At(w, c)))
  }

  lemma OnlyDirtiedSameShape(w: LightWorld, r: LightWorld)
    requires OnlyDirtied(w, r)
    ensures SameShape(w, r)
  {
    forall c | Holds(w, c)
      ensures At(r, c).blockType == At(w, c).blockType && IsSky(At(r, c)) == IsSky(At(w, c)) && IsOpaque(At(r, c)) == IsOpaque(At(w, c))
    {
      OnlyDirtiedKeeps(w, r, c);
    }
  }

  /** The front cell leaves the queue and its dirty bit is cleared. */
  function Popped(w: LightWorld): (r: LightWorld)
    requires Wf(w) && |w.queue| > 0 && Holds(w, w.queue[0])
    ensures Wf(r) && r.chunks.Keys == w.chunks.Keys
  {
    var c := w.queue[0];
    Put(w, c, SetLightingNotDirty(At(w, c))).(queue := w.queue[1..])
  }

  /** Popping keeps the invariant; the popped cell is clean and no longer queued, and only its dirty bit changed. */
  lemma PoppedKeepsQueue(w: LightWorld)
    requires DirtyIffQueued(w) && |w.queue| > 0
    ensures var p := Popped(w); var c := w.queue[0];
      && DirtyIffQueued(p) && !IsLightingDirty(At(p, c)) && c !in p.queue
      && SameShape(w, p) && LightAt(p, c) == LightAt(w, c)
      && (forall c' :: Holds(w, c') && c' != c ==> At(p, c') == At(w, c'))
  {
    var p := Popped(w);
    var c := w.queue[0];
    assert forall i :: 0 <= i < |p.queue| ==> p.queue[i] == w.queue[i + 1];
    forall c' | Holds(p, c') && IsLightingDirty(At(p, c'))
      ensures c' in p.queue
    {
      assert c' != c && At(p, c') == At(w, c');
      assert c' in w.queue;
      var i :| 0 <= i < |w.queue| && w.queue[i] == c';
      assert p.queue[i - 1] == c';
    }
    SameExceptFlags(SetLightingNotDirty(At(w, c)), At(w, c), BLOCKFLAGS_IS_LIGHTING_DIRTY_BITMASK);
  }

  /**
   * One pass of `UpdateLighting`'s loop: pop the front cell and clear its
   * dirty bit; when its light differs from its ideal light, store the
   * ideal and mark its non-sky neighbours, all six.
   */
  function Relax(w: LightWorld): (r: LightWorld)
    requires Wf(w) && |w.queue| > 0 && Holds(w, w.queue[0])
    ensures Wf(r) && r.chunks.Keys == w.chunks.Keys
  {
    var c := w.queue[0];
    var p := Popped(w);
    var idealLight := IdealLight(p, c);
    if idealLight == LightAt(p, c) then p
    else DirtyNonSkyNeighbours(Put(p, c, SetLightLevel(At(p, c), idealLight)), c, true)
  }

  /** The two outcomes of a pass, for a caller that computed the ideal light itself. */
  lemma RelaxOutcome(w: LightWorld, n: int)
    requires Wf(w) && |w.queue| > 0 && Holds(w, w.queue[0])
    requires n == IdealLight(Popped(w), w.queue[0])
    ensures var c := w.queue[0]; var p := Popped(w);
      Relax(w) == if n == LightAt(p, c) then p else DirtyNonSkyNeighbours(Put(p, c, SetLightLevel(At(p, c), n)), c, true)
  {
  }

  /** A pass whose cell already holds its ideal light changes nothing past the pop and marks no mesh. */
  lemma RelaxKeeps(w: LightWorld, n: int)
    requires Wf(w) && |w.queue| > 0 && Holds(w, w.queue[0])
    requires n == IdealLight(Popped(w), w.queue[0]) && n == LightAt(Popped(w), w.queue[0])
    ensures Relax(w) == Popped(w) && RelaxedChunks(w) == {}
  {
  }

  /** A pass whose cell is off its ideal light stores it, marks the neighbours and marks the cell's mesh. */
  lemma RelaxChanges(w: LightWorld, n: int)
    requires Wf(w) && |w.queue| > 0 && Holds(w, w.queue[0])
    requires n == IdealLight(Popped(w), w.queue[0]) && n != LightAt(Popped(w), w.queue[0])
    ensures var c := w.queue[0]; var p := Popped(w);
      && Relax(w) == DirtyNonSkyNeighbours(Put(p, c, SetLightLevel(At(p, c), n)), c, true)
      && RelaxedChunks(w) == {c.chunk}
  {
  }

  /**
   * A pass keeps the invariant and the shape of every cell.  The popped
   * cell ends with the ideal light computed after popping; no other
   * cell's light changes.  When the light was already ideal nothing but
   * the pop happens; otherwise every non-sky neighbour is left dirty.
   */
  lemma RelaxFacts(w: LightWorld, d: StepDirection)
    requires DirtyIffQueued(w) && |w.queue| > 0
    ensures var r := Relax(w); var c := w.queue[0]; var p := Popped(w);
      && DirtyIffQueued(r) && SameShape(w, r)
      && LightAt(r, c) == IdealLight(p, c)
      && (forall c' :: Holds(w, c') && c' != c ==> LightAt(r, c') == LightAt(w, c'))
      && (IdealLight(p, c) == LightAt(w, c) ==> r == p)
      && (IdealLight(p, c) != LightAt(w, c) && !IsSky(At(w, Step(w.chunks.Keys, d, c))) ==>
            IsLightingDirty(At(r, Step(w.chunks.Keys, d, c))))
  {
    var c := w.queue[0];
    var p := Popped(w);
    PoppedKeepsQueue(w);
    var idealLight := IdealLight(p, c);
    if idealLight != LightAt(p, c) {
      var b := SetLightLevel(At(p, c), idealLight);
      var q := Put(p, c, b);
      PutKeepsQueue(p, c, b);
      DirtyNonSkyNeighboursFacts(q, c, true, d);
      var r := Relax(w);
      OnlyDirtiedSameShape(q, r);
      forall c' | Holds(w, c')
        ensures At(r, c').blockType == At(w, c').blockType && IsSky(At(r, c')) == IsSky(At(w, c')) && IsOpaque(At(r, c')) == IsOpaque(At(w, c'))
        ensures LightAt(r, c') == if c' == c then idealLight else LightAt(w, c')
      {
        OnlyDirtiedKeeps(q, r, c');
      }
      var n := Step(w.chunks.Keys, d, c);
      assert IsSky(At(q, n)) == IsSky(At(w, n));
    }
  }

  /** A pass keeps the invariant and the shape of every cell. */
  lemma RelaxKeepsQueue(w: LightWorld)
    requires DirtyIffQueued(w) && |w.queue| > 0
    ensures DirtyIffQueued(Relax(w)) && SameShape(w, Relax(w))
  {
    RelaxFacts(w, Up);
  }

  /**
   * `UpdateLighting`, bounded: at most fuel passes, stopping early when the
   * queue runs empty.  It keeps the invariant.
   */
  function Relight(w: LightWorld, fuel: nat): (r: LightWorld)
    requires DirtyIffQueued(w)
    ensures DirtyIffQueued(r)
    decreases fuel
  {
    if fuel == 0 || |w.queue| == 0 then w
    else
      RelaxKeepsQueue(w);
      Relight(Relax(w), fuel - 1)
  }

  /** The passes keep the shape of every cell: types, sky bits, opacity and sky levels. */
  lemma {:induction false} RelightKeepsShape(w: LightWorld, fuel: nat)
    requires DirtyIffQueued(w)
    ensures SameShape(w, Relight(w, fuel))
    decreases fuel
  {
    if fuel == 0 || |w.queue| == 0 {
      OnlyDirtiedReflexive(w);
      OnlyDirtiedSameShape(w, w);
    } else {
      var rest := fuel - 1;
      RelightStep(w, fuel, rest);
      var v := Relax(w);
      RelaxKeepsQueue(w);
      RelightKeepsShape(v, rest);
      SameShapeTransitive(w, v, Relight(v, rest));
    }
  }

  /** A pass with fuel left and a non-empty queue hands the rest to the remaining passes. */
  lemma RelightStep(w: LightWorld, fuel: nat, rest: nat)
    requires DirtyIffQueued(w) && |w.queue| > 0 && rest + 1 == fuel
    ensures DirtyIffQueued(Relax(w)) && Relight(w, fuel) == Relight(Relax(w), rest)
  {
    RelightUnfolds(w, fuel);
    RelightSameFuel(Relax(w), fuel - 1, rest);
  }

  lemma RelightSameFuel(v: LightWorld, a: nat, b: nat)
    requires DirtyIffQueued(v) && a == b
    ensures Relight(v, a) == Relight(v, b)
  {
  }

  lemma RelightUnfolds(w: LightWorld, fuel: nat)
    requires DirtyIffQueued(w) && |w.queue| > 0 && fuel > 0
    ensures DirtyIffQueued(Relax(w)) && Relight(w, fuel) == Relight(Relax(w), fuel - 1)
  {
    RelaxKeepsQueue(w);
  }

  /** With no fuel or an empty queue nothing changes. */
  lemma RelightDone(w: LightWorld, fuel: nat)
    requires DirtyIffQueued(w) && (fuel == 0 || |w.queue| == 0)
    ensures Relight(w, fuel) == w
  {
  }

  /** The chunk whose mesh a pass marks: the popped cell's when its light changes, none otherwise. */
  function RelaxedChunks(w: LightWorld): (s: set<ChunkCoords>)
    requires Wf(w) && |w.queue| > 0 && Holds(w, w.queue[0])
    ensures s <= w.chunks.Keys
  {
    var c := w.queue[0];
    var p := Popped(w);
    if IdealLight(p, c) == LightAt(p, c) then {} else {c.chunk}
  }

  /** The chunks whose meshes the passes of `Relight` mark. */
  function RelitChunks(w: LightWorld, fuel: nat): (s: set<ChunkCoords>)
    requires DirtyIffQueued(w)
    decreases fuel
  {
    if fuel == 0 || |w.queue| == 0 then {}
    else
      RelaxKeepsQueue(w);
      RelaxedChunks(w) + RelitChunks(Relax(w), fuel - 1)
  }

  lemma RelitChunksUnfolds(w: LightWorld, fuel: nat)
    requires DirtyIffQueued(w) && |w.queue| > 0 && fuel > 0
    ensures DirtyIffQueued(Relax(w)) && RelitChunks(w, fuel) == RelaxedChunks(w) + RelitChunks(Relax(w), fuel - 1)
  {
    RelaxKeepsQueue(w);
  }

  /** A pass with fuel left marks its own chunk, if any, and hands the rest to the remaining passes. */
  lemma RelitChunksStep(w: LightWorld, fuel: nat, rest: nat)
    requires DirtyIffQueued(w) && |w.queue| > 0 && rest + 1 == fuel
    ensures DirtyIffQueued(Relax(w)) && RelitChunks(w, fuel) == RelaxedChunks(w) + RelitChunks(Relax(w), rest)
  {
    RelitChunksUnfolds(w, fuel);
    RelitChunksSameFuel(Relax(w), fuel - 1, rest);
  }

  lemma RelitChunksSameFuel(v: LightWorld, a: nat, b: nat)
    requires DirtyIffQueued(v) && a == b
    ensures RelitChunks(v, a) == RelitChunks(v, b)
  {
  }

  /** The passes mark the meshes of active chunks only. */
  lemma {:induction false} RelitChunksActive(w: LightWorld, fuel: nat)
    requires DirtyIffQueued(w)
    ensures RelitChunks(w, fuel) <= w.chunks.Keys
    decreases fuel
  {
    if fuel > 0 && |w.queue| > 0 {
      var rest := fuel - 1;
      RelitChunksStep(w, fuel, rest);
      RelaxFacts(w, Up);
      RelitChunksActive(Relax(w), rest);
    }
  }

  /**
   * Every cell whose light the passes change lies in a chunk whose mesh
   * they mark (`RelightKeepsShape` says every cell of w is still held).
   */
  lemma {:induction false} RelitChunksCoverChanges(w: LightWorld, fuel: nat)
    requires DirtyIffQueued(w)
    ensures forall c :: Holds(w, c) && Holds(Relight(w, fuel), c) && LightAt(Relight(w, fuel), c) != LightAt(w, c) ==> c.chunk in RelitChunks(w, fuel)
    decreases fuel
  {
    if fuel > 0 && |w.queue| > 0 {
      var rest := fuel - 1;
      RelightStep(w, fuel, rest);
      RelitChunksStep(w, fuel, rest);
      var v := Relax(w);
      RelitChunksCoverChanges(v, rest);
      forall c | Holds(w, c) && Holds(Relight(w, fuel), c) && LightAt(Relight(w, fuel), c) != LightAt(w, c)
        ensures c.chunk in RelitChunks(w, fuel)
      {
        RelaxFacts(w, Up);
        RelightKeepsShape(v, rest);
        if LightAt(v, c) == LightAt(w, c) {
          assert c.chunk in RelitChunks(v, rest);
        } else {
          assert c.chunk in RelaxedChunks(w);
        }
      }
    }
  }

  lemma SameShapeTransitive(u: LightWorld, v: LightWorld, w: LightWorld)
    requires SameShape(u, v) && SameShape(v, w)
    ensures SameShape(u, w)
  {
    forall c | Holds(u, c)
      ensures At(w, c).blockType == At(u, c).blockType && IsSky(At(w, c)) == IsSky(At(u, c)) && IsOpaque(At(w, c)) == IsOpaque(At(u, c))
    {
      assert Holds(v, c);
    }
  }

  // ---------------------------------------------------------------- settling

  /**
   * Every clean cell of an active chunk holds its ideal light; sky cells
   * count only when all is set.  A dirty cell is queued and may be off.
   */
  ghost predicate SettledOn(w: LightWorld, all: bool)
  {
    Wf(w) && forall c {:trigger CellSettled(w, c, all)} :: Holds(w, c) ==> CellSettled(w, c, all)
  }

  /** The cell is dirty, or a sky cell that does not count, or it holds its ideal light. */
  predicate CellSettled(w: LightWorld, c: Cell, all: bool)
    requires Wf(w) && Holds(w, c)
  {
    IsLightingDirty(At(w, c)) || (!all && IsSky(At(w, c))) || LightAt(w, c) == IdealLight(w, c)
  }

  /** Every clean non-sky cell of an active chunk holds its ideal light. */
  ghost predicate Settled(w: LightWorld)
  {
    SettledOn(w, false)
  }

  /** A cell's ideal light depends only on its shape, its sky level and the light of the cells its steps reach. */
  lemma IdealLightKept(w: LightWorld, r: LightWorld, c: Cell)
    requires SameShape(w, r) && Holds(w, c)
    requires forall d :: LightAt(r, Step(w.chunks.Keys, d, c)) == LightAt(w, Step(w.chunks.Keys, d, c))
    ensures IdealLight(r, c) == IdealLight(w, c)
  {
    forall d
      ensures NeighbourLight(r, d, c) == NeighbourLight(w, d, c)
    {
    }
  }

  /** When only the light of x differs, a cell none of whose steps reaches x keeps its ideal light. */
  lemma IdealLightAwayFrom(w: LightWorld, r: LightWorld, x: Cell, c: Cell)
    requires SameShape(w, r) && Holds(w, c)
    requires forall c' :: Holds(w, c') && c' != x ==> LightAt(r, c') == LightAt(w, c')
    requires forall d :: Step(w.chunks.Keys, d, c) != x
    ensures IdealLight(r, c) == IdealLight(w, c)
  {
    IdealLightKept(w, r, c);
  }

  lemma AcrossBack(p: ChunkCoords, d: StepDirection)
    ensures Across(Across(p, d), Opposite(d)) == p
  {
  }

  /** A step that succeeds is undone by the opposite step. */
  lemma StepBack(keys: set<ChunkCoords>, d: StepDirection, a: Cell)
    requires a.index < NUM_BLOCKS_PER_CHUNK && a.chunk in keys && !Blocked(keys, d, a)
    ensures Step(keys, Opposite(d), Step(keys, d, a)) == a
  {
    var lbc := Coords(a.index);
    var v := Wrapped(Add3(lbc, Offset(d)));
    WrapBack(d, lbc);
    CellAt(v);
    var b := Step(keys, d, a);
    assert Coords(b.index) == v;
    AcrossBack(a.chunk, d);
    assert !Blocked(keys, Opposite(d), b);
    var back := Step(keys, Opposite(d), b);
    CellAt(lbc);
    CoordsInjective(back.index, a.index);
  }

  /** A step that lands elsewhere than its start can be walked back. */
  lemma StepLandsBack(keys: set<ChunkCoords>, d: StepDirection, a: Cell)
    requires a.index < NUM_BLOCKS_PER_CHUNK && a.chunk in keys
    ensures Step(keys, d, a) != a ==> Step(keys, Opposite(d), Step(keys, d, a)) == a
  {
    StepReachesAdjacentBlock(keys, d, a);
    if !Blocked(keys, d, a) {
      StepBack(keys, d, a);
    }
  }

  /** A pass whose light is already ideal only pops, and the popped world is settled too. */
  lemma PopSettles(w: LightWorld, all: bool)
    requires DirtyIffQueued(w) && SettledOn(w, all) && |w.queue| > 0
    requires IdealLight(Popped(w), w.queue[0]) == LightAt(w, w.queue[0])
    ensures SettledOn(Popped(w), all)
  {
    var c := w.queue[0];
    var p := Popped(w);
    PoppedKeepsQueue(w);
    forall c' | Holds(p, c')
      ensures CellSettled(p, c', all)
    {
      assert CellSettled(w, c', all);
      forall d
        ensures LightAt(p, Step(w.chunks.Keys, d, c')) == LightAt(w, Step(w.chunks.Keys, d, c'))
      {
      }
      IdealLightKept(w, p, c');
    }
  }

  /**
   * A pass that stores a new light in the popped cell c keeps the world
   * settled, provided what follows only sets dirty bits and leaves every
   * cell c's steps reach dirty (the sky ones too when all is set).  A
   * clean cell none of whose steps reaches c keeps its ideal light; a
   * clean cell whose step reaches c was itself reached from c, so none is
   * left; and c itself ends clean only when none of its steps fails.
   */
  lemma ChangeSettles(w: LightWorld, all: bool, r: LightWorld)
    requires DirtyIffQueued(w) && SettledOn(w, all) && |w.queue| > 0
    requires IdealLight(Popped(w), w.queue[0]) != LightAt(w, w.queue[0])
    requires var c := w.queue[0]; var p := Popped(w);
      var q := Put(p, c, SetLightLevel(At(p, c), IdealLight(p, c)));
      && OnlyDirtied(q, r)
      && forall d :: (all || !IsSky(At(q, Step(w.chunks.Keys, d, c)))) ==> IsLightingDirty(At(r, Step(w.chunks.Keys, d, c)))
    ensures SettledOn(r, all)
  {
    var keys := w.chunks.Keys;
    var c := w.queue[0];
    var p := Popped(w);
    var n := IdealLight(p, c);
    var q := Put(p, c, SetLightLevel(At(p, c), n));
    PoppedKeepsQueue(w);
    OnlyDirtiedSameShape(q, r);
    assert SameShape(p, q);
    SameShapeTransitive(p, q, r);
    forall x | Holds(w, x)
      ensures LightAt(r, x) == if x == c then n else LightAt(w, x)
    {
      OnlyDirtiedKeeps(q, r, x);
    }
    forall c' | Holds(r, c')
      ensures CellSettled(r, c', all)
    {
      OnlyDirtiedKeeps(q, r, c');
      if !IsLightingDirty(At(r, c')) && (all || !IsSky(At(r, c'))) {
        if c' == c {
          forall d
            ensures Step(keys, d, c) != c
          {
          }
          IdealLightAwayFrom(p, r, c, c);
        } else {
          forall d
            ensures Step(keys, d, c') != c
          {
            StepLandsBack(keys, d, c');
          }
          assert CellSettled(w, c', all);
          SameShapeTransitive(w, p, r);
          IdealLightAwayFrom(w, r, c, c');
        }
      }
    }
  }

  /** A pass of the loop keeps every clean non-sky cell at its ideal light. */
  lemma RelaxKeepsSettled(w: LightWorld)
    requires DirtyIffQueued(w) && Settled(w) && |w.queue| > 0
    ensures DirtyIffQueued(Relax(w)) && Settled(Relax(w))
  {
    RelaxKeepsQueue(w);
    var c := w.queue[0];
    var p := Popped(w);
    PoppedKeepsQueue(w);
    var n := IdealLight(p, c);
    if n == LightAt(w, c) {
      PopSettles(w, false);
    } else {
      var b := SetLightLevel(At(p, c), n);
      var q := Put(p, c, b);
      PutKeepsQueue(p, c, b);
      forall d
        ensures !IsSky(At(q, Step(w.chunks.Keys, d, c))) ==> IsLightingDirty(At(Relax(w), Step(w.chunks.Keys, d, c)))
      {
        DirtyNonSkyNeighboursFacts(q, c, true, d);
      }
      DirtyNonSkyNeighboursFacts(q, c, true, Up);
      ChangeSettles(w, false, Relax(w));
    }
  }

  /** The passes keep every clean non-sky cell at its ideal light. */
  lemma {:induction false} RelightKeepsSettled(w: LightWorld, fuel: nat)
    requires DirtyIffQueued(w) && Settled(w)
    ensures Settled(Relight(w, fuel))
    decreases fuel
  {
    if fuel > 0 && |w.queue| > 0 {
      var rest := fuel - 1;
      RelightStep(w, fuel, rest);
      var v := Relax(w);
      RelaxKeepsSettled(w);
      RelightKeepsSettled(v, rest);
    }
  }

  /**
   * What the loop reaches once the queue is empty: starting settled,
   * every non-sky cell of every active chunk holds its ideal light.
   */
  lemma DrainedRelightIsIdeal(w: LightWorld, fuel: nat)
    requires DirtyIffQueued(w) && Settled(w) && |Relight(w, fuel).queue| == 0
    ensures var r := Relight(w, fuel);
      forall c :: Holds(r, c) && !IsSky(At(r, c)) ==> LightAt(r, c) == IdealLight(r, c)
  {
    var r := Relight(w, fuel);
    RelightKeepsSettled(w, fuel);
    forall c | Holds(r, c) && !IsSky(At(r, c))
      ensures LightAt(r, c) == IdealLight(r, c)
    {
      assert CellSettled(r, c, false);
    }
  }

  /**
   * The switch `World::UpdateChunks` makes between day and night: when
   * every active chunk is listed and has a sky level other than the new
   * one, every cell ends dirty, so the world is settled and a run of the
   * loop that drains the queue leaves every non-sky block at its ideal
   * light.
   */
  lemma SkySwitchSettles(w: LightWorld, ps: seq<ChunkCoords>, level: int, fuel: nat)
    requires DirtyIffQueued(w) && 0 <= level <= MAX_LIGHTING_LEVEL && forall i :: 0 <= i < |ps| ==> ps[i] in w.chunks
    requires forall p :: p in w.chunks ==> p in ps && w.chunks[p].skyLightLevel != level
    ensures var r := UpdateSkyLevels(w, ps, level);
      && DirtyIffQueued(r) && SettledOn(r, true)
      && (|Relight(r, fuel).queue| == 0 ==>
            forall c :: Holds(Relight(r, fuel), c) && !IsSky(At(Relight(r, fuel), c)) ==> LightAt(Relight(r, fuel), c) == IdealLight(Relight(r, fuel), c))
  {
    UpdateSkyLevelsFacts(w, ps, level);
    var r := UpdateSkyLevels(w, ps, level);
    forall c | Holds(r, c)
      ensures CellSettled(r, c, true)
    {
      assert Holds(w, c);
    }
    if |Relight(r, fuel).queue| == 0 {
      DrainedRelightIsIdeal(r, fuel);
    }
  }

  /** Marks every cell of cs, first to last. */
  function MarkEach(w: LightWorld, cs: seq<Cell>): (r: LightWorld)
    requires Wf(w) && forall i :: 0 <= i < |cs| ==> Holds(w, cs[i])
    ensures Wf(r) && r.chunks.Keys == w.chunks.Keys
    decreases |cs|
  {
    if cs == [] then w else MarkEach(Mark(w, cs[0]), cs[1..])
  }

  /** Marking every cell of a list keeps the invariant, sets only dirty bits and leaves every listed cell dirty. */
  lemma {:induction false} MarkEachFacts(w: LightWorld, cs: seq<Cell>)
    requires DirtyIffQueued(w) && forall i :: 0 <= i < |cs| ==> Holds(w, cs[i])
    ensures var r := MarkEach(w, cs);
      && DirtyIffQueued(r) && OnlyDirtied(w, r)
      && (forall i :: 0 <= i < |cs| ==> IsLightingDirty(At(r, cs[i])))
    decreases |cs|
  {
    if cs != [] {
      var w1 := Mark(w, cs[0]);
      MarkKeepsQueue(w, cs[0]);
      MarkEachFacts(w1, cs[1..]);
      var r := MarkEach(w1, cs[1..]);
      OnlyDirtiedTransitive(w, w1, r);
      forall i | 0 <= i < |cs|
        ensures IsLightingDirty(At(r, cs[i]))
      {
        if i == 0 {
          OnlyDirtiedKeeps(w1, r, cs[0]);
        } else {
          assert cs[1..][i - 1] == cs[i];
        }
      }
    }
  }

  /** Marks all six neighbours of c, sky blocks included. */
  function DirtyNeighbours(w: LightWorld, c: Cell): (r: LightWorld)
    requires Wf(w) && Holds(w, c)
    ensures Wf(r) && r.chunks.Keys == w.chunks.Keys
  {
    MarkEach(w, Neighbourhood(w.chunks.Keys, c, true))
  }

  /** Afterwards every neighbour is dirty and queued, only dirty bits changed, and the invariant holds. */
  lemma DirtyNeighboursFacts(w: LightWorld, c: Cell)
    requires DirtyIffQueued(w) && Holds(w, c)
    ensures var r := DirtyNeighbours(w, c);
      && DirtyIffQueued(r) && OnlyDirtied(w, r)
      && forall d :: IsLightingDirty(At(r, Step(w.chunks.Keys, d, c)))
  {
    var ns := Neighbourhood(w.chunks.Keys, c, true);
    MarkEachFacts(w, ns);
    var r := DirtyNeighbours(w, c);
    forall d
      ensures IsLightingDirty(At(r, Step(w.chunks.Keys, d, c)))
    {
      var i := match d
        case East => 0 case West => 1 case North => 2 case South => 3 case Up => 4 case Down => 5;
      assert ns[i] == Step(w.chunks.Keys, d, c);
    }
  }

  /**
   * A pass as evidently intended: as `Relax`, except that a changed light
   * marks all six neighbours, sky blocks included, since `IdealLight`
   * lets a sky block take light from its neighbours.
   */
  function RelaxRequeuingSky(w: LightWorld): (r: LightWorld)
    requires Wf(w) && |w.queue| > 0 && Holds(w, w.queue[0])
    ensures Wf(r) && r.chunks.Keys == w.chunks.Keys
  {
    var c := w.queue[0];
    var p := Popped(w);
    var idealLight := IdealLight(p, c);
    if idealLight == LightAt(p, c) then p
    else DirtyNeighbours(Put(p, c, SetLightLevel(At(p, c), idealLight)), c)
  }

  /** The corrected pass keeps the invariant. */
  lemma RelaxRequeuingSkyKeepsQueue(w: LightWorld)
    requires DirtyIffQueued(w) && |w.queue| > 0
    ensures DirtyIffQueued(RelaxRequeuingSky(w))
  {
    var c := w.queue[0];
    var p := Popped(w);
    PoppedKeepsQueue(w);
    var n := IdealLight(p, c);
    if n != LightAt(w, c) {
      var b := SetLightLevel(At(p, c), n);
      PutKeepsQueue(p, c, b);
      DirtyNeighboursFacts(Put(p, c, b), c);
    }
  }

  /** The corrected pass keeps every clean cell, sky cells too, at its ideal light. */
  lemma RelaxRequeuingSkyKeepsSettled(w: LightWorld)
    requires DirtyIffQueued(w) && SettledOn(w, true) && |w.queue| > 0
    ensures SettledOn(RelaxRequeuingSky(w), true)
  {
    var c := w.queue[0];
    var p := Popped(w);
    PoppedKeepsQueue(w);
    var n := IdealLight(p, c);
    if n == LightAt(w, c) {
      PopSettles(w, true);
    } else {
      var b := SetLightLevel(At(p, c), n);
      PutKeepsQueue(p, c, b);
      DirtyNeighboursFacts(Put(p, c, b), c);
      ChangeSettles(w, true, RelaxRequeuingSky(w));
    }
  }

  /** The corrected loop, bounded by fuel as `Relight` is. */
  function RelightRequeuingSky(w: LightWorld, fuel: nat): (r: LightWorld)
    requires DirtyIffQueued(w)
    ensures DirtyIffQueued(r)
    decreases fuel
  {
    if fuel == 0 || |w.queue| == 0 then w
    else
      RelaxRequeuingSkyKeepsQueue(w);
      RelightRequeuingSky(RelaxRequeuingSky(w), fuel - 1)
  }

  lemma RelightRequeuingSkyStep(w: LightWorld, fuel: nat, rest: nat)
    requires DirtyIffQueued(w) && |w.queue| > 0 && rest + 1 == fuel
    ensures DirtyIffQueued(RelaxRequeuingSky(w)) && RelightRequeuingSky(w, fuel) == RelightRequeuingSky(RelaxRequeuingSky(w), rest)
  {
    RelightRequeuingSkyUnfolds(w, fuel);
    RelightRequeuingSkySameFuel(RelaxRequeuingSky(w), fuel - 1, rest);
  }

  lemma RelightRequeuingSkySameFuel(v: LightWorld, a: nat, b: nat)
    requires DirtyIffQueued(v) && a == b
    ensures RelightRequeuingSky(v, a) == RelightRequeuingSky(v, b)
  {
  }

  lemma RelightRequeuingSkyUnfolds(w: LightWorld, fuel: nat)
    requires DirtyIffQueued(w) && |w.queue| > 0 && fuel > 0
    ensures DirtyIffQueued(RelaxRequeuingSky(w)) && RelightRequeuingSky(w, fuel) == RelightRequeuingSky(RelaxRequeuingSky(w), fuel - 1)
  {
    RelaxRequeuingSkyKeepsQueue(w);
  }

  /** The corrected passes keep every clean cell at its ideal light. */
  lemma {:induction false} RelightRequeuingSkyKeepsSettled(w: LightWorld, fuel: nat)
    requires DirtyIffQueued(w) && SettledOn(w, true)
    ensures SettledOn(RelightRequeuingSky(w, fuel), true)
    decreases fuel
  {
    if fuel > 0 && |w.queue| > 0 {
      var rest := fuel - 1;
      RelightRequeuingSkyStep(w, fuel, rest);
      var v := RelaxRequeuingSky(w);
      RelaxRequeuingSkyKeepsSettled(w);
      RelightRequeuingSkyKeepsSettled(v, rest);
    }
  }

  /** With sky blocks requeued, a settled world relit until the queue is empty has every cell at its ideal light. */
  lemma DrainedRequeuingRelightIsIdeal(w: LightWorld, fuel: nat)
    requires DirtyIffQueued(w) && SettledOn(w, true) && |RelightRequeuingSky(w, fuel).queue| == 0
    ensures var r := RelightRequeuingSky(w, fuel);
      forall c :: Holds(r, c) ==> LightAt(r, c) == IdealLight(r, c)
  {
    var r := RelightRequeuingSky(w, fuel);
    RelightRequeuingSkyKeepsSettled(w, fuel);
    forall c | Holds(r, c)
      ensures LightAt(r, c) == IdealLight(r, c)
    {
      assert CellSettled(r, c, true);
    }
  }

  /** One chunk at night: sky air at the night level everywhere except a glowstone at index g, dirty, queued and not lit yet. */
  function GlowstoneAtNight(g: LocalBlockIndex): (w: LightWorld)
  {
    LightWorld(map[IntVector2(0, 0) := ChunkLight(seq(NUM_BLOCKS_PER_CHUNK, k => if k == g then Block(GLOWSTONE, 0x60) else Block(AIR, 0x86)),
                                                  NIGHT_LIGHTING_LEVEL)],
               [Cell(IntVector2(0, 0), g)])
  }

  /** The night world is settled, with every light at most the night level. */
  lemma GlowstoneAtNightSettled(g: LocalBlockIndex)
    requires g < NUM_BLOCKS_PER_CHUNK
    ensures var w := GlowstoneAtNight(g); DirtyIffQueued(w) && SettledOn(w, true)
  {
    var w := GlowstoneAtNight(g);
    assert forall x :: Holds(w, x) ==> At(w, x) == if x.index == g then Block(GLOWSTONE, 0x60) else Block(AIR, 0x86);
    assert forall x :: Holds(w, x) ==> LightAt(w, x) <= NIGHT_LIGHTING_LEVEL;
    forall x | Holds(w, x)
      ensures CellSettled(w, x, true)
    {
      if x.index != g {
        IdealLightIsLeastBound(w, x);
      }
    }
  }

  /** With every other cell untouched, a glowstone with no edge beside it is left alone by the neighbour marking. */
  lemma {:induction false} MarkNeighboursAllSky(w: LightWorld, c: Cell, ds: seq<StepDirection>)
    requires Wf(w) && Holds(w, c)
    requires forall i :: 0 <= i < |ds| ==> IsSky(At(w, Step(w.chunks.Keys, ds[i], c)))
    ensures MarkNeighboursNotSky(w, c, ds) == w
    decreases |ds|
  {
    if ds != [] {
      assert IsSky(At(w, Step(w.chunks.Keys, ds[0], c)));
      MarkNeighboursAllSky(w, c, ds[1..]);
    }
  }

  /** No step from the cell at index g leaves its chunk. */
  predicate Interior(g: LocalBlockIndex)
    requires g < NUM_BLOCKS_PER_CHUNK
  {
    forall d :: !AtEdge(d, Coords(g))
  }

  /** The night world after the glowstone is lit: light 12, clean, and nothing queued. */
  function GlowstoneLitAtNight(g: LocalBlockIndex): (w: LightWorld)
  {
    LightWorld(map[IntVector2(0, 0) := ChunkLight(seq(NUM_BLOCKS_PER_CHUNK, k => if k == g then Block(GLOWSTONE, 0x2C) else Block(AIR, 0x86)),
                                                  NIGHT_LIGHTING_LEVEL)],
               [])
  }

  /** One pass over an interior glowstone lights it and marks nothing, since all its neighbours are sky blocks. */
  lemma GlowstoneAtNightRelit(g: LocalBlockIndex)
    requires g < NUM_BLOCKS_PER_CHUNK && Interior(g)
    ensures DirtyIffQueued(GlowstoneAtNight(g)) && Relight(GlowstoneAtNight(g), 1) == GlowstoneLitAtNight(g)
  {
    var w := GlowstoneAtNight(g);
    GlowstoneAtNightSettled(g);
    RelightUnfolds(w, 1);
    GlowstonePass(g);
    GlowstoneStored(g);
  }

  /** The glowstone's pass stores light 12 and marks no neighbour. */
  lemma GlowstonePass(g: LocalBlockIndex)
    requires g < NUM_BLOCKS_PER_CHUNK && Interior(g)
    ensures var w := GlowstoneAtNight(g); var gc := Cell(IntVector2(0, 0), g); var p := Popped(w);
      Relax(w) == Put(p, gc, SetLightLevel(At(p, gc), GLOWSTONE_LIGHT_LEVEL))
  {
    var gc := Cell(IntVector2(0, 0), g);
    var w := GlowstoneAtNight(g);
    var keys := w.chunks.Keys;
    assert forall x :: Holds(w, x) ==> At(w, x) == if x.index == g then Block(GLOWSTONE, 0x60) else Block(AIR, 0x86);
    var p := Popped(w);
    var q := Put(p, gc, SetLightLevel(At(p, gc), GLOWSTONE_LIGHT_LEVEL));
    var ds := Directions(true);
    forall i | 0 <= i < |ds|
      ensures IsSky(At(q, Step(keys, ds[i], gc)))
    {
      var n := Step(keys, ds[i], gc);
      StepReachesAdjacentBlock(keys, ds[i], gc);
      assert n != gc;
    }
    MarkNeighboursAllSky(q, gc, ds);
    GlowstoneBits();
    BlockDefinitions.Emitters(GLOWSTONE);
    IdealLightOfOpaque(p, gc);
    RelaxOutcome(w, GLOWSTONE_LIGHT_LEVEL);
  }

  /** Storing light 12 in the popped glowstone gives the lit night world. */
  lemma GlowstoneStored(g: LocalBlockIndex)
    requires g < NUM_BLOCKS_PER_CHUNK
    ensures var w := GlowstoneAtNight(g); var gc := Cell(IntVector2(0, 0), g); var p := Popped(w);
      Put(p, gc, SetLightLevel(At(p, gc), GLOWSTONE_LIGHT_LEVEL)) == GlowstoneLitAtNight(g)
  {
    var gc := Cell(IntVector2(0, 0), g);
    var w := GlowstoneAtNight(g);
    var p := Popped(w);
    var q := Put(p, gc, SetLightLevel(At(p, gc), GLOWSTONE_LIGHT_LEVEL));
    GlowstoneBits();
    var lit := GlowstoneLitAtNight(g);
    var qs := q.chunks[IntVector2(0, 0)].blocks;
    var ls := lit.chunks[IntVector2(0, 0)].blocks;
    forall k | 0 <= k < NUM_BLOCKS_PER_CHUNK
      ensures qs[k] == ls[k]
    {
      if k != g {
        assert At(q, Cell(IntVector2(0, 0), k)) == At(w, Cell(IntVector2(0, 0), k));
      }
    }
    assert qs == ls;
  }

  /** Popping and lighting the glowstone's flag byte. */
  lemma GlowstoneBits()
    ensures SetLightingNotDirty(Block(GLOWSTONE, 0x60)) == Block(GLOWSTONE, 0x20)
    ensures SetLightLevel(Block(GLOWSTONE, 0x20), GLOWSTONE_LIGHT_LEVEL) == Block(GLOWSTONE, 0x2C)
    ensures GetLightLevel(Block(GLOWSTONE, 0x20)) == 0
  {
  }

  /** In the lit night world the sky block east of the glowstone holds the night level, and its ideal light is 11. */
  lemma GlowstoneLitNeighbour(g: LocalBlockIndex)
    requires g < NUM_BLOCKS_PER_CHUNK && Interior(g)
    ensures var w := GlowstoneLitAtNight(g); var s := Step(w.chunks.Keys, East, Cell(IntVector2(0, 0), g));
      && Wf(w) && Holds(w, s) && IsSky(At(w, s))
      && LightAt(w, s) == NIGHT_LIGHTING_LEVEL && IdealLight(w, s) == GLOWSTONE_LIGHT_LEVEL - 1
  {
    var gc := Cell(IntVector2(0, 0), g);
    var w := GlowstoneLitAtNight(g);
    var keys := w.chunks.Keys;
    GlowstoneLitCells(g);
    var s := Step(keys, East, gc);
    StepReachesAdjacentBlock(keys, East, gc);
    assert s != gc;
    StepBack(keys, East, gc);
    IdealLightBesideGlowstone(w, s, West);
  }

  /**
   * A sky air block at the night level beside a light of 12, where no
   * light exceeds 12, has ideal light 11.
   */
  lemma IdealLightBesideGlowstone(w: LightWorld, s: Cell, d: StepDirection)
    requires Wf(w) && Holds(w, s) && At(w, s).blockType == AIR && IsSky(At(w, s))
    requires w.chunks[s.chunk].skyLightLevel == NIGHT_LIGHTING_LEVEL
    requires forall x :: Holds(w, x) ==> LightAt(w, x) <= GLOWSTONE_LIGHT_LEVEL
    requires NeighbourLight(w, d, s) == GLOWSTONE_LIGHT_LEVEL
    ensures IdealLight(w, s) == GLOWSTONE_LIGHT_LEVEL - 1
  {
    BlockDefinitions.Emitters(AIR);
    IdealLightIsLeastBound(w, s);
  }

  /** The cells of the lit night world: the glowstone at light 12, sky air at 6 elsewhere. */
  lemma GlowstoneLitCells(g: LocalBlockIndex)
    requires g < NUM_BLOCKS_PER_CHUNK
    ensures var w := GlowstoneLitAtNight(g);
      && Wf(w) && w.chunks.Keys == {IntVector2(0, 0)} && w.chunks[IntVector2(0, 0)].skyLightLevel == NIGHT_LIGHTING_LEVEL
      && (forall x :: Holds(w, x) && x.index != g ==> At(w, x) == Block(AIR, 0x86))
      && (forall x :: Holds(w, x) ==> LightAt(w, x) <= GLOWSTONE_LIGHT_LEVEL)
      && LightAt(w, Cell(IntVector2(0, 0), g)) == GLOWSTONE_LIGHT_LEVEL
  {
    var w := GlowstoneLitAtNight(g);
    assert forall x :: Holds(w, x) ==> At(w, x) == if x.index == g then Block(GLOWSTONE, 0x2C) else Block(AIR, 0x86);
  }

  /** The glowstone of the counterexample sits in the middle of the chunk. */
  lemma MiddleIsInterior()
    ensures Interior(16520)
  {
    assert Coords(16520) == IntVector3(8, 8, 64);
  }

  /**
   * The loop as written can drain the queue with a sky block off its
   * ideal light.  At night, one pass over a glowstone in the middle of
   * the chunk lights it to 12 and empties the queue, and the world stays
   * settled; yet the sky block east of it keeps the night level 6 while
   * its ideal light is 11, because only non-sky neighbours are marked.
   */
  lemma SkyNeighbourStaysDark(g: LocalBlockIndex)
    requires g < NUM_BLOCKS_PER_CHUNK && Interior(g)
    ensures DirtyIffQueued(GlowstoneAtNight(g)) && SettledOn(GlowstoneAtNight(g), true)
    ensures var r := Relight(GlowstoneAtNight(g), 1);
      var s := Step(r.chunks.Keys, East, Cell(IntVector2(0, 0), g));
      && |r.queue| == 0 && Settled(r) && Holds(r, s) && IsSky(At(r, s))
      && LightAt(r, s) == NIGHT_LIGHTING_LEVEL && IdealLight(r, s) == GLOWSTONE_LIGHT_LEVEL - 1
  {
    GlowstoneAtNightSettled(g);
    GlowstoneAtNightRelit(g);
    RelightKeepsSettled(GlowstoneAtNight(g), 1);
    GlowstoneLitNeighbour(g);
  }

  // ---------------------------------------------------------------- sky columns

  /** The cell one layer down. */
  function Below(c: Cell): (r: Cell)
    requires NUM_COLUMNS_PER_CHUNK <= c.index < NUM_BLOCKS_PER_CHUNK
    ensures r.index < NUM_BLOCKS_PER_CHUNK
  {
    Cell(c.chunk, c.index - NUM_COLUMNS_PER_CHUNK)
  }

  /** Stepping down is going one layer down, or staying put on the bottom layer. */
  lemma StepDownIsBelow(keys: set<ChunkCoords>, c: Cell)
    requires c.index < NUM_BLOCKS_PER_CHUNK
    ensures Step(keys, Down, c) == if c.index < NUM_COLUMNS_PER_CHUNK then c else Below(c)
  {
    IndexDecomposition(c.index);
    if c.index >= NUM_COLUMNS_PER_CHUNK {
      var lbc := Coords(c.index);
      CellAt(IntVector3(lbc.x, lbc.y, lbc.z - 1));
    }
  }

  /** Stepping up is going one layer up, or staying put on the top layer. */
  lemma StepUpIsAbove(keys: set<ChunkCoords>, c: Cell)
    requires c.index < NUM_BLOCKS_PER_CHUNK
    ensures Step(keys, Up, c) == if c.index >= NUM_BLOCKS_PER_CHUNK - NUM_COLUMNS_PER_CHUNK then c else Cell(c.chunk, c.index + NUM_COLUMNS_PER_CHUNK)
  {
    IndexDecomposition(c.index);
    if c.index < NUM_BLOCKS_PER_CHUNK - NUM_COLUMNS_PER_CHUNK {
      var lbc := Coords(c.index);
      CellAt(IntVector3(lbc.x, lbc.y, lbc.z + 1));
    }
  }

  /** The cell lies in c's column at a height in [lo, hi]. */
  predicate InColumn(c': Cell, c: Cell, lo: int, hi: int)
  {
    && c'.chunk == c.chunk && c'.index % NUM_COLUMNS_PER_CHUNK == c.index % NUM_COLUMNS_PER_CHUNK
    && lo <= c'.index / NUM_COLUMNS_PER_CHUNK <= hi
  }

  /** The height of the highest opaque-bit cell at or below height z of column col in chunk p, or -1 when there is none. */
  function HighestOpaque(w: LightWorld, p: ChunkCoords, col: ChunkColumnIndex, z: int): (f: int)
    requires Wf(w) && p in w.chunks && col < NUM_COLUMNS_PER_CHUNK && z < CHUNK_Z_HEIGHT_IN_BLOCKS
    ensures f == -1 || (0 <= f <= z && IsOpaque(At(w, Cell(p, ColumnCell(col, f)))))
    decreases if z < 0 then 0 else z + 1
  {
    if z < 0 then -1
    else if IsOpaque(At(w, Cell(p, ColumnCell(col, z)))) then z
    else HighestOpaque(w, p, col, z - 1)
  }

  /** No cell of the column between the highest opaque cell and z is opaque. */
  lemma {:induction false} HighestOpaqueIsHighest(w: LightWorld, p: ChunkCoords, col: ChunkColumnIndex, z: int, z': int)
    requires Wf(w) && p in w.chunks && col < NUM_COLUMNS_PER_CHUNK && z < CHUNK_Z_HEIGHT_IN_BLOCKS
    requires HighestOpaque(w, p, col, z) < z' <= z
    ensures !IsOpaque(At(w, Cell(p, ColumnCell(col, z'))))
    decreases if z < 0 then 0 else z + 1
  {
    if z' < z {
      HighestOpaqueIsHighest(w, p, col, z - 1, z');
    }
  }

  /** The opaque bits of all cells agree. */
  ghost predicate SameOpacity(w: LightWorld, r: LightWorld)
  {
    Wf(w) && Wf(r) && r.chunks.Keys == w.chunks.Keys
    && forall c :: Holds(w, c) ==> IsOpaque(At(r, c)) == IsOpaque(At(w, c))
  }

  lemma {:induction false} HighestOpaqueSameOpacity(w: LightWorld, r: LightWorld, p: ChunkCoords, col: ChunkColumnIndex, z: int)
    requires SameOpacity(w, r) && p in w.chunks && col < NUM_COLUMNS_PER_CHUNK && z < CHUNK_Z_HEIGHT_IN_BLOCKS
    ensures HighestOpaque(r, p, col, z) == HighestOpaque(w, p, col, z)
    decreases if z < 0 then 0 else z + 1
  {
    if z >= 0 {
      assert Holds(w, Cell(p, ColumnCell(col, z)));
      HighestOpaqueSameOpacity(w, r, p, col, z - 1);
    }
  }

  /** A cell is the cell of its own column at its own height. */
  lemma CellIsColumnCell(c: Cell)
    requires c.index < NUM_BLOCKS_PER_CHUNK
    ensures ColumnCell(c.index % NUM_COLUMNS_PER_CHUNK, c.index / NUM_COLUMNS_PER_CHUNK) == c.index
  {
    var k := ColumnCell(c.index % NUM_COLUMNS_PER_CHUNK, c.index / NUM_COLUMNS_PER_CHUNK);
    assert k == 256 * (k / 256) + k % 256 && c.index == 256 * (c.index / 256) + c.index % 256;
  }

  /** Column and height determine the index. */
  lemma SameColumnAndHeight(a: Cell, b: Cell)
    requires a.index % NUM_COLUMNS_PER_CHUNK == b.index % NUM_COLUMNS_PER_CHUNK
    requires a.index / NUM_COLUMNS_PER_CHUNK == b.index / NUM_COLUMNS_PER_CHUNK
    ensures a.index == b.index
  {
    assert a.index == 256 * (a.index / 256) + a.index % 256 && b.index == 256 * (b.index / 256) + b.index % 256;
  }

  /** The height of the highest opaque cell strictly below c in its column, or -1. */
  function FloorBelow(w: LightWorld, c: Cell): int
    requires Wf(w) && Holds(w, c)
  {
    HighestOpaque(w, c.chunk, c.index % NUM_COLUMNS_PER_CHUNK, c.index / NUM_COLUMNS_PER_CHUNK - 1)
  }

  /** Nothing lies below the bottom layer. */
  lemma NoFloorOnBottom(w: LightWorld, c: Cell)
    requires Wf(w) && Holds(w, c) && c.index < NUM_COLUMNS_PER_CHUNK
    ensures FloorBelow(w, c) == -1 && c.index / NUM_COLUMNS_PER_CHUNK == 0
  {
  }

  /**
   * The floor one layer down is the floor here when the cell one layer
   * down is not opaque.
   */
  lemma FloorBelowStep(w: LightWorld, c: Cell)
    requires Wf(w) && Holds(w, c) && c.index >= NUM_COLUMNS_PER_CHUNK
    ensures FloorBelow(w, c) == if IsOpaque(At(w, Below(c))) then c.index / NUM_COLUMNS_PER_CHUNK - 1 else FloorBelow(w, Below(c))
  {
    var b := Below(c);
    CellIsColumnCell(b);
    BelowColumn(c);
  }

  /** One layer down is the same column, one height lower. */
  lemma BelowColumn(c: Cell)
    requires NUM_COLUMNS_PER_CHUNK <= c.index < NUM_BLOCKS_PER_CHUNK
    ensures Below(c).index % NUM_COLUMNS_PER_CHUNK == c.index % NUM_COLUMNS_PER_CHUNK
    ensures Below(c).index / NUM_COLUMNS_PER_CHUNK == c.index / NUM_COLUMNS_PER_CHUNK - 1
  {
    assert c.index == 256 * (c.index / 256) + c.index % 256;
  }

  /**
   * The `do`/`while` of `UpdateLightingForBlockPlaced` from c down:
   * clear the sky bit and mark, step down, and go on while the new cell
   * is not opaque.  On the bottom layer the step fails and the loop
   * re-reads the same cell, so the game loops forever unless some opaque
   * cell lies below, or the bottom cell itself is opaque; that is the
   * precondition.
   */
  predicate PlacedDescentEnds(w: LightWorld, c: Cell)
    requires Wf(w) && Holds(w, c)
  {
    FloorBelow(w, c) >= 0 || (c.index < NUM_COLUMNS_PER_CHUNK && IsOpaque(At(w, c)))
  }

  /** One pass of the placed descent's loop body: clear the sky bit, then mark. */
  function ClearSkyAndMark(w: LightWorld, c: Cell): (r: LightWorld)
    requires Wf(w) && Holds(w, c)
    ensures SameOpacity(w, r)
  {
    Mark(Put(w, c, SetBlockToNotBeSky(At(w, c))), c)
  }

  /** One pass of the broken descent's loop body: set the sky bit, then mark. */
  function SetSkyAndMark(w: LightWorld, c: Cell): (r: LightWorld)
    requires Wf(w) && Holds(w, c)
    ensures SameOpacity(w, r)
  {
    Mark(Put(w, c, SetBlockToBeSky(At(w, c))), c)
  }

  function ClearSkyDown(w: LightWorld, c: Cell): (r: LightWorld)
    requires Wf(w) && Holds(w, c) && PlacedDescentEnds(w, c)
    ensures Wf(r) && r.chunks.Keys == w.chunks.Keys
    decreases c.index
  {
    var w1 := ClearSkyAndMark(w, c);
    if c.index < NUM_COLUMNS_PER_CHUNK then w1
    else if IsOpaque(At(w1, Below(c))) then w1
    else
      ClearSkyDownStep(w, c);
      ClearSkyDown(w1, Below(c))
  }

  /** The placed descent still ends after one more pass. */
  lemma ClearSkyDownStep(w: LightWorld, c: Cell)
    requires Wf(w) && Holds(w, c) && PlacedDescentEnds(w, c) && c.index >= NUM_COLUMNS_PER_CHUNK
    requires !IsOpaque(At(ClearSkyAndMark(w, c), Below(c)))
    ensures PlacedDescentEnds(ClearSkyAndMark(w, c), Below(c))
    ensures FloorBelow(ClearSkyAndMark(w, c), Below(c)) == FloorBelow(w, c)
  {
    PlacedDescentEndsKept(w, ClearSkyAndMark(w, c), c);
  }

  /** The same for any world r with the opacity of w. */
  lemma PlacedDescentEndsKept(w: LightWorld, r: LightWorld, c: Cell)
    requires SameOpacity(w, r) && Holds(w, c) && PlacedDescentEnds(w, c) && c.index >= NUM_COLUMNS_PER_CHUNK
    requires !IsOpaque(At(r, Below(c)))
    ensures PlacedDescentEnds(r, Below(c)) && FloorBelow(r, Below(c)) == FloorBelow(w, c)
  {
    var b := Below(c);
    assert Holds(w, b) && IsOpaque(At(w, b)) == IsOpaque(At(r, b));
    FloorBelowStep(w, c);
    FloorBelowSameOpacity(w, r, b);
  }

  /** Worlds with the same opacity have the same floor under every cell. */
  lemma FloorBelowSameOpacity(w: LightWorld, r: LightWorld, c: Cell)
    requires SameOpacity(w, r) && Holds(w, c)
    ensures FloorBelow(r, c) == FloorBelow(w, c)
  {
    HighestOpaqueSameOpacity(w, r, c.chunk, c.index % NUM_COLUMNS_PER_CHUNK, c.index / NUM_COLUMNS_PER_CHUNK - 1);
  }

  /**
   * A pass of the placed descent keeps the invariant; the cell loses its
   * sky bit and ends dirty, and every other cell is kept.
   */
  lemma ClearSkyAndMarkFacts(w: LightWorld, c: Cell)
    requires DirtyIffQueued(w) && Holds(w, c)
    ensures var r := ClearSkyAndMark(w, c);
      && DirtyIffQueued(r) && w.queue <= r.queue
      && At(r, c) == SetLightingDirty(SetBlockToNotBeSky(At(w, c)))
      && (forall c' :: Holds(w, c') && c' != c ==> At(r, c') == At(w, c'))
  {
    var b := SetBlockToNotBeSky(At(w, c));
    PutKeepsQueue(w, c, b);
    MarkKeepsQueue(Put(w, c, b), c);
  }

  /** The same for the broken descent, which sets the sky bit instead. */
  lemma SetSkyAndMarkFacts(w: LightWorld, c: Cell)
    requires DirtyIffQueued(w) && Holds(w, c)
    ensures var r := SetSkyAndMark(w, c);
      && DirtyIffQueued(r) && w.queue <= r.queue
      && At(r, c) == SetLightingDirty(SetBlockToBeSky(At(w, c)))
      && (forall c' :: Holds(w, c') && c' != c ==> At(r, c') == At(w, c'))
  {
    var b := SetBlockToBeSky(At(w, c));
    PutKeepsQueue(w, c, b);
    MarkKeepsQueue(Put(w, c, b), c);
  }

  /** A cell handled by the placed descent: not sky, and dirty. */
  function Cleared(b: Block): Block
  {
    SetLightingDirty(SetBlockToNotBeSky(b))
  }

  /** A cell handled by the broken descent: sky, and dirty. */
  function SkyMarked(b: Block): Block
  {
    SetLightingDirty(SetBlockToBeSky(b))
  }

  /** r is w with exactly the cells of c's column at heights [lo, hi] rewritten by f. */
  ghost predicate ColumnRewritten(w: LightWorld, r: LightWorld, c: Cell, lo: int, hi: int, f: Block -> Block)
  {
    && Wf(w) && Wf(r) && r.chunks.Keys == w.chunks.Keys
    && forall c' :: Holds(w, c') ==> At(r, c') == if InColumn(c', c, lo, hi) then f(At(w, c')) else At(w, c')
  }

  /** Rewriting one cell is rewriting its column at its own height. */
  lemma ColumnRewrittenOne(w: LightWorld, r: LightWorld, c: Cell, f: Block -> Block)
    requires Wf(w) && Wf(r) && r.chunks.Keys == w.chunks.Keys && Holds(w, c)
    requires At(r, c) == f(At(w, c)) && forall c' :: Holds(w, c') && c' != c ==> At(r, c') == At(w, c')
    ensures ColumnRewritten(w, r, c, c.index / NUM_COLUMNS_PER_CHUNK, c.index / NUM_COLUMNS_PER_CHUNK, f)
  {
    var z := c.index / NUM_COLUMNS_PER_CHUNK;
    forall c' | Holds(w, c') && InColumn(c', c, z, z)
      ensures c' == c
    {
      SameColumnAndHeight(c', c);
    }
  }

  /** Rewriting a cell and then its column below it down to lo is rewriting the column from the cell down to lo. */
  lemma ColumnRewrittenExtend(w: LightWorld, w1: LightWorld, r: LightWorld, c: Cell, lo: int, f: Block -> Block)
    requires Wf(w) && Wf(w1) && w1.chunks.Keys == w.chunks.Keys && Holds(w, c) && c.index >= NUM_COLUMNS_PER_CHUNK
    requires At(w1, c) == f(At(w, c)) && forall c' :: Holds(w, c') && c' != c ==> At(w1, c') == At(w, c')
    requires lo <= c.index / NUM_COLUMNS_PER_CHUNK && ColumnRewritten(w1, r, Below(c), lo, c.index / NUM_COLUMNS_PER_CHUNK - 1, f)
    ensures ColumnRewritten(w, r, c, lo, c.index / NUM_COLUMNS_PER_CHUNK, f)
  {
    var z := c.index / NUM_COLUMNS_PER_CHUNK;
    var b := Below(c);
    BelowColumn(c);
    forall c' | Holds(w, c')
      ensures At(r, c') == if InColumn(c', c, lo, z) then f(At(w, c')) else At(w, c')
    {
      if c' == c {
        assert !InColumn(c', b, lo, z - 1);
      } else {
        assert InColumn(c', c, lo, z) <==> InColumn(c', b, lo, z - 1) by {
          if InColumn(c', c, lo, z) && c'.index / 256 == z {
            SameColumnAndHeight(c', c);
          }
        }
      }
    }
  }

  /** The placed descent handles c alone when it stops after c. */
  lemma ClearSkyDownStops(w: LightWorld, c: Cell)
    requires DirtyIffQueued(w) && Holds(w, c) && PlacedDescentEnds(w, c)
    requires c.index < NUM_COLUMNS_PER_CHUNK || IsOpaque(At(ClearSkyAndMark(w, c), Below(c)))
    ensures var r := ClearSkyDown(w, c);
      && r == ClearSkyAndMark(w, c) && FloorBelow(w, c) + 1 == c.index / NUM_COLUMNS_PER_CHUNK
      && DirtyIffQueued(r) && w.queue <= r.queue
      && ColumnRewritten(w, r, c, FloorBelow(w, c) + 1, c.index / NUM_COLUMNS_PER_CHUNK, Cleared)
  {
    var w1 := ClearSkyAndMark(w, c);
    ClearSkyAndMarkFacts(w, c);
    if c.index >= NUM_COLUMNS_PER_CHUNK {
      FloorBelowStep(w, c);
    } else {
      NoFloorOnBottom(w, c);
    }
    ColumnRewrittenOne(w, w1, c, Cleared);
  }

  /**
   * The placed descent clears the sky bit of, and marks, exactly the cells
   * of c's column from c down to just above the highest opaque cell below
   * it (c alone when c is on the bottom layer); every other cell is kept,
   * and the invariant holds.
   */
  lemma {:induction false} ClearSkyDownFacts(w: LightWorld, c: Cell)
    requires DirtyIffQueued(w) && Holds(w, c) && PlacedDescentEnds(w, c)
    ensures var r := ClearSkyDown(w, c);
      && DirtyIffQueued(r) && SameOpacity(w, r) && w.queue <= r.queue
      && ColumnRewritten(w, r, c, FloorBelow(w, c) + 1, c.index / NUM_COLUMNS_PER_CHUNK, Cleared)
    decreases c.index
  {
    var w1 := ClearSkyAndMark(w, c);
    if c.index < NUM_COLUMNS_PER_CHUNK || IsOpaque(At(w1, Below(c))) {
      ClearSkyDownStops(w, c);
    } else {
      ClearSkyAndMarkFacts(w, c);
      ClearSkyDownStep(w, c);
      BelowColumn(c);
      var b := Below(c);
      ClearSkyDownFacts(w1, b);
      var r := ClearSkyDown(w1, b);
      assert ClearSkyDown(w, c) == r;
      ColumnRewrittenExtend(w, w1, r, c, FloorBelow(w, c) + 1, Cleared);
      SameOpacityTransitive(w, w1, r);
    }
  }

  /**
   * The `while` of `UpdateLightingForBlockBroken` from c down: set the sky
   * bit and mark, step down, and go on while the cell just handled is not
   * opaque, so the first opaque cell is handled too.  On the bottom layer
   * the step fails and the loop handles that cell forever unless it is
   * opaque; the precondition is that an opaque cell ends the descent.
   */
  predicate BrokenDescentEnds(w: LightWorld, c: Cell)
    requires Wf(w) && Holds(w, c)
  {
    IsOpaque(At(w, c)) || FloorBelow(w, c) >= 0
  }

  function SetSkyDown(w: LightWorld, c: Cell): (r: LightWorld)
    requires Wf(w) && Holds(w, c) && BrokenDescentEnds(w, c)
    ensures Wf(r) && r.chunks.Keys == w.chunks.Keys
    decreases c.index
  {
    var w1 := SetSkyAndMark(w, c);
    if IsOpaque(At(w, c)) then w1
    else
      SetSkyDownStep(w, c);
      SetSkyDown(w1, Below(c))
  }

  /** The broken descent still ends after one more pass. */
  lemma SetSkyDownStep(w: LightWorld, c: Cell)
    requires Wf(w) && Holds(w, c) && BrokenDescentEnds(w, c) && !IsOpaque(At(w, c))
    ensures c.index >= NUM_COLUMNS_PER_CHUNK
    ensures BrokenDescentEnds(SetSkyAndMark(w, c), Below(c))
    ensures BrokenFloor(SetSkyAndMark(w, c), Below(c)) == FloorBelow(w, c)
  {
    var w1 := SetSkyAndMark(w, c);
    assert c.index / NUM_COLUMNS_PER_CHUNK >= 1;
    assert c.index == 256 * (c.index / 256) + c.index % 256;
    var b := Below(c);
    assert Holds(w, b);
    FloorBelowStep(w, c);
    HighestOpaqueSameOpacity(w, w1, b.chunk, b.index % NUM_COLUMNS_PER_CHUNK, b.index / NUM_COLUMNS_PER_CHUNK - 1);
  }

  /** Where the broken descent stops: c's own height when c is opaque, else the highest opaque cell below c. */
  function BrokenFloor(w: LightWorld, c: Cell): int
    requires Wf(w) && Holds(w, c)
  {
    if IsOpaque(At(w, c)) then c.index / NUM_COLUMNS_PER_CHUNK else FloorBelow(w, c)
  }

  /**
   * The broken descent sets the sky bit of, and marks, exactly the cells
   * of c's column from c down to the highest opaque cell at or below it,
   * that one included; every other cell is kept, and the invariant holds.
   */
  lemma {:induction false} SetSkyDownFacts(w: LightWorld, c: Cell)
    requires DirtyIffQueued(w) && Holds(w, c) && BrokenDescentEnds(w, c)
    ensures var r := SetSkyDown(w, c);
      && DirtyIffQueued(r) && SameOpacity(w, r) && w.queue <= r.queue
      && ColumnRewritten(w, r, c, BrokenFloor(w, c), c.index / NUM_COLUMNS_PER_CHUNK, SkyMarked)
    decreases c.index
  {
    var w1 := SetSkyAndMark(w, c);
    SetSkyAndMarkFacts(w, c);
    if IsOpaque(At(w, c)) {
      ColumnRewrittenOne(w, w1, c, SkyMarked);
    } else {
      SetSkyDownStep(w, c);
      BelowColumn(c);
      SetSkyDownFacts(w1, Below(c));
      ColumnRewrittenExtend(w, w1, SetSkyDown(w1, Below(c)), c, FloorBelow(w, c), SkyMarked);
    }
  }

  // ---------------------------------------------------------------- placing and breaking

  /** When the placed block is a sky block, the placed descent from it ends. */
  predicate PlacedRelightEnds(w: LightWorld, c: Cell)
    requires Wf(w) && Holds(w, c)
  {
    IsSky(At(w, c)) ==> PlacedDescentEnds(w, c)
  }

  /**
   * `World::UpdateLightingForBlockPlaced`: a block placed into a sky cell
   * shades its column, so the placed descent runs from it; then the cell
   * itself is marked.
   */
  function BlockPlacedRelight(w: LightWorld, c: Cell): (r: LightWorld)
    requires Wf(w) && Holds(w, c) && PlacedRelightEnds(w, c)
    ensures Wf(r) && r.chunks.Keys == w.chunks.Keys
  {
    Mark(if IsSky(At(w, c)) then ClearSkyDown(w, c) else w, c)
  }

  /**
   * After placing, the cell is dirty and queued and the invariant holds;
   * under a former sky cell the column down to the next opaque cell has
   * lost its sky bit and is dirty, and otherwise only the cell was marked.
   */
  lemma BlockPlacedRelightFacts(w: LightWorld, c: Cell)
    requires DirtyIffQueued(w) && Holds(w, c) && PlacedRelightEnds(w, c)
    ensures var r := BlockPlacedRelight(w, c);
      && DirtyIffQueued(r) && SameOpacity(w, r) && IsLightingDirty(At(r, c)) && c in r.queue
      && (IsSky(At(w, c)) ==> ColumnRewritten(w, r, c, FloorBelow(w, c) + 1, c.index / NUM_COLUMNS_PER_CHUNK, Cleared))
      && (!IsSky(At(w, c)) ==> r == Mark(w, c))
  {
    if IsSky(At(w, c)) {
      ClearSkyDownFacts(w, c);
      var w1 := ClearSkyDown(w, c);
      assert InColumn(c, c, FloorBelow(w, c) + 1, c.index / NUM_COLUMNS_PER_CHUNK);
      assert IsLightingDirty(At(w1, c));
      MarkKeepsQueue(w1, c);
    } else {
      MarkKeepsQueue(w, c);
    }
  }

  /**
   * Where the broken descent starts: one step up and one step down, which
   * is the broken cell itself except on the top layer, where the step up
   * fails and the step down lands one layer lower.
   */
  function BrokenStart(keys: set<ChunkCoords>, c: Cell): (s: Cell)
    requires c.index < NUM_BLOCKS_PER_CHUNK
    ensures s.index < NUM_BLOCKS_PER_CHUNK && s.chunk == c.chunk
  {
    StepUpIsAbove(keys, c);
    Step(keys, Down, Step(keys, Up, c))
  }

  lemma BrokenStartIsBrokenCell(keys: set<ChunkCoords>, c: Cell)
    requires c.index < NUM_BLOCKS_PER_CHUNK
    ensures c.index < NUM_BLOCKS_PER_CHUNK - NUM_COLUMNS_PER_CHUNK ==> BrokenStart(keys, c) == c
    ensures c.index >= NUM_BLOCKS_PER_CHUNK - NUM_COLUMNS_PER_CHUNK ==> BrokenStart(keys, c) == Below(c)
  {
    StepUpIsAbove(keys, c);
    StepDownIsBelow(keys, Step(keys, Up, c));
  }

  /** The broken descent runs when the block above is sky and its start is not opaque. */
  predicate BrokenDescentRuns(w: LightWorld, c: Cell)
    requires Wf(w) && Holds(w, c)
  {
    IsSky(At(w, Step(w.chunks.Keys, Up, c))) && !IsOpaque(At(w, BrokenStart(w.chunks.Keys, c)))
  }

  /** When the broken descent runs, it ends. */
  predicate BrokenRelightEnds(w: LightWorld, c: Cell)
    requires Wf(w) && Holds(w, c)
  {
    BrokenDescentRuns(w, c) ==> FloorBelow(w, BrokenStart(w.chunks.Keys, c)) >= 0
  }

  /**
   * `World::UpdateLightingForBlockBroken`: when the block above the broken
   * cell is sky, the broken descent runs from the broken cell (from one
   * layer down on the top layer) unless that cell is opaque; then the
   * broken cell is marked.
   */
  function BlockBrokenRelight(w: LightWorld, c: Cell): (r: LightWorld)
    requires Wf(w) && Holds(w, c) && BrokenRelightEnds(w, c)
    ensures Wf(r) && r.chunks.Keys == w.chunks.Keys
  {
    var start := BrokenStart(w.chunks.Keys, c);
    Mark(if BrokenDescentRuns(w, c) then SetSkyDown(w, start) else w, c)
  }

  /**
   * After breaking, the cell is dirty and queued and the invariant holds;
   * when the descent runs, the start's column down to the first opaque
   * cell, that one included, is sky and dirty, and every other cell but
   * the broken one is kept.
   */
  lemma BlockBrokenRelightFacts(w: LightWorld, c: Cell)
    requires DirtyIffQueued(w) && Holds(w, c) && BrokenRelightEnds(w, c)
    ensures var r := BlockBrokenRelight(w, c); var s := BrokenStart(w.chunks.Keys, c);
      && DirtyIffQueued(r) && SameOpacity(w, r) && IsLightingDirty(At(r, c)) && c in r.queue
      && (BrokenDescentRuns(w, c) ==>
            forall c' :: Holds(w, c') && c' != c && InColumn(c', s, FloorBelow(w, s), s.index / NUM_COLUMNS_PER_CHUNK) ==>
              At(r, c') == SkyMarked(At(w, c')))
      && (forall c' :: Holds(w, c') && c' != c && !(BrokenDescentRuns(w, c) && InColumn(c', s, FloorBelow(w, s), s.index / NUM_COLUMNS_PER_CHUNK)) ==>
            At(r, c') == At(w, c'))
  {
    if BrokenDescentRuns(w, c) {
      BrokenRelightWhenRuns(w, c);
    } else {
      MarkKeepsQueue(w, c);
    }
  }

  /** `BlockBrokenRelightFacts` when the descent runs. */
  lemma BrokenRelightWhenRuns(w: LightWorld, c: Cell)
    requires DirtyIffQueued(w) && Holds(w, c) && BrokenRelightEnds(w, c) && BrokenDescentRuns(w, c)
    ensures var r := BlockBrokenRelight(w, c); var s := BrokenStart(w.chunks.Keys, c);
      && DirtyIffQueued(r) && SameOpacity(w, r) && IsLightingDirty(At(r, c)) && c in r.queue
      && (forall c' :: Holds(w, c') && c' != c && InColumn(c', s, FloorBelow(w, s), s.index / NUM_COLUMNS_PER_CHUNK) ==>
            At(r, c') == SkyMarked(At(w, c')))
      && (forall c' :: Holds(w, c') && c' != c && !InColumn(c', s, FloorBelow(w, s), s.index / NUM_COLUMNS_PER_CHUNK) ==>
            At(r, c') == At(w, c'))
  {
    var s := BrokenStart(w.chunks.Keys, c);
    var w1 := SetSkyDown(w, s);
    SetSkyDownFacts(w, s);
    assert BrokenFloor(w, s) == FloorBelow(w, s);
    MarkKeepsQueue(w1, c);
    var r := Mark(w1, c);
    assert r == BlockBrokenRelight(w, c);
    OnlyDirtiedSameShape(w1, r);
    assert SameOpacity(w1, r);
    SameOpacityTransitive(w, w1, r);
  }

  // ---------------------------------------------------------------- chunk initialisation

  /** The cell has no opaque cell at or above it in its column. */
  predicate OpenToSky(w: LightWorld, c: Cell)
    requires Wf(w) && Holds(w, c)
  {
    c.index / NUM_COLUMNS_PER_CHUNK > HighestOpaque(w, c.chunk, c.index % NUM_COLUMNS_PER_CHUNK, CHUNK_Z_HEIGHT_IN_BLOCKS - 1)
  }

  /** Open to the sky means exactly that no cell from it up to the top of its column is opaque. */
  lemma OpenToSkyMeansNothingAbove(w: LightWorld, c: Cell, h: int)
    requires Wf(w) && Holds(w, c) && c.index / NUM_COLUMNS_PER_CHUNK <= h < CHUNK_Z_HEIGHT_IN_BLOCKS
    ensures OpenToSky(w, c) ==> !IsOpaque(At(w, Cell(c.chunk, ColumnCell(c.index % NUM_COLUMNS_PER_CHUNK, h))))
    ensures !OpenToSky(w, c) ==> exists h' :: c.index / NUM_COLUMNS_PER_CHUNK <= h' < CHUNK_Z_HEIGHT_IN_BLOCKS
                                   && IsOpaque(At(w, Cell(c.chunk, ColumnCell(c.index % NUM_COLUMNS_PER_CHUNK, h'))))
  {
    var col := c.index % NUM_COLUMNS_PER_CHUNK;
    if OpenToSky(w, c) {
      HighestOpaqueIsHighest(w, c.chunk, col, CHUNK_Z_HEIGHT_IN_BLOCKS - 1, h);
    } else {
      var f := HighestOpaque(w, c.chunk, col, CHUNK_Z_HEIGHT_IN_BLOCKS - 1);
      assert IsOpaque(At(w, Cell(c.chunk, ColumnCell(col, f))));
    }
  }

  /** Pass 1's block update: sky, at full light. */
  function SkyLit(b: Block): (r: Block)
    ensures IsSky(r) && GetLightLevel(r) == MAX_LIGHTING_LEVEL
    ensures r.blockType == b.blockType && IsOpaque(r) == IsOpaque(b) && IsLightingDirty(r) == IsLightingDirty(b)
  {
    SetLightLevel(SetBlockToBeSky(b), MAX_LIGHTING_LEVEL)
  }

  /** Pass 1 of `World::InitializeLightingForChunk` in one column, from height z down to the first opaque cell. */
  function SkyDownFrom(w: LightWorld, p: ChunkCoords, col: ChunkColumnIndex, z: int): (r: LightWorld)
    requires Wf(w) && p in w.chunks && col < NUM_COLUMNS_PER_CHUNK && z < CHUNK_Z_HEIGHT_IN_BLOCKS
    ensures Wf(r) && r.chunks.Keys == w.chunks.Keys && r.queue == w.queue
    decreases if z < 0 then 0 else z + 1
  {
    if z < 0 then w
    else
      var c := Cell(p, ColumnCell(col, z));
      if IsOpaque(At(w, c)) then w else SkyDownFrom(Put(w, c, SkyLit(At(w, c))), p, col, z - 1)
  }

  /** The cell at height z of column col lies in that column at that height. */
  lemma ColumnCellInColumn(p: ChunkCoords, col: ChunkColumnIndex, z: int)
    requires col < NUM_COLUMNS_PER_CHUNK && 0 <= z < CHUNK_Z_HEIGHT_IN_BLOCKS
    ensures InColumn(Cell(p, ColumnCell(col, z)), Cell(p, col), z, z)
  {
    Bits.DivModUnique(col, NUM_COLUMNS_PER_CHUNK, 0, col);
  }

  /** Rewriting one cell of a column and then the column below it is rewriting the column down from that cell. */
  lemma ColumnRewrittenAdd(w: LightWorld, w1: LightWorld, r: LightWorld, a: Cell, c: Cell, lo: int, f: Block -> Block)
    requires Wf(w) && Wf(w1) && w1.chunks.Keys == w.chunks.Keys && Holds(w, c)
    requires c.chunk == a.chunk && c.index % NUM_COLUMNS_PER_CHUNK == a.index % NUM_COLUMNS_PER_CHUNK
    requires At(w1, c) == f(At(w, c)) && forall c' :: Holds(w, c') && c' != c ==> At(w1, c') == At(w, c')
    requires lo <= c.index / NUM_COLUMNS_PER_CHUNK && ColumnRewritten(w1, r, a, lo, c.index / NUM_COLUMNS_PER_CHUNK - 1, f)
    ensures ColumnRewritten(w, r, a, lo, c.index / NUM_COLUMNS_PER_CHUNK, f)
  {
    var z := c.index / NUM_COLUMNS_PER_CHUNK;
    forall c' | Holds(w, c')
      ensures At(r, c') == if InColumn(c', a, lo, z) then f(At(w, c')) else At(w, c')
    {
      if c' != c && InColumn(c', a, lo, z) && c'.index / 256 == z {
        SameColumnAndHeight(c', c);
      }
    }
  }

  /** Nothing was rewritten: a column range that is empty. */
  lemma ColumnRewrittenNone(w: LightWorld, a: Cell, lo: int, hi: int, f: Block -> Block)
    requires Wf(w) && hi < lo
    ensures ColumnRewritten(w, w, a, lo, hi, f)
  {
  }

  /**
   * Pass 1 in one column makes sky and fully lit exactly the cells of the
   * column from height z down to just above the highest opaque cell at or
   * below z; it changes no dirty bit, so the invariant holds.
   */
  lemma {:induction false} SkyDownFromFacts(w: LightWorld, p: ChunkCoords, col: ChunkColumnIndex, z: int)
    requires Wf(w) && p in w.chunks && col < NUM_COLUMNS_PER_CHUNK && z < CHUNK_Z_HEIGHT_IN_BLOCKS
    ensures var r := SkyDownFrom(w, p, col, z);
      && SameOpacity(w, r)
      && ColumnRewritten(w, r, Cell(p, col), HighestOpaque(w, p, col, z) + 1, z, SkyLit)
      && (DirtyIffQueued(w) ==> DirtyIffQueued(r))
    decreases if z < 0 then 0 else z + 1
  {
    if z < 0 || IsOpaque(At(w, Cell(p, ColumnCell(col, z)))) {
      ColumnRewrittenNone(w, Cell(p, col), HighestOpaque(w, p, col, z) + 1, z, SkyLit);
    } else {
      var c := Cell(p, ColumnCell(col, z));
      var w1 := Put(w, c, SkyLit(At(w, c)));
      SkyDownFromStep(w, p, col, z);
      SkyDownFromFacts(w1, p, col, z - 1);
      ColumnCellInColumn(p, col, z);
      ColumnRewrittenAdd(w, w1, SkyDownFrom(w1, p, col, z - 1), Cell(p, col), c, HighestOpaque(w, p, col, z) + 1, SkyLit);
    }
  }

  /** One cell of pass 1 keeps opacity, the invariant and the floor of the rest of the column. */
  lemma SkyDownFromStep(w: LightWorld, p: ChunkCoords, col: ChunkColumnIndex, z: int)
    requires Wf(w) && p in w.chunks && col < NUM_COLUMNS_PER_CHUNK && 0 <= z < CHUNK_Z_HEIGHT_IN_BLOCKS
    requires !IsOpaque(At(w, Cell(p, ColumnCell(col, z))))
    ensures var c := Cell(p, ColumnCell(col, z)); var w1 := Put(w, c, SkyLit(At(w, c)));
      && SameOpacity(w, w1) && (DirtyIffQueued(w) ==> DirtyIffQueued(w1))
      && HighestOpaque(w1, p, col, z - 1) == HighestOpaque(w, p, col, z)
      && SkyDownFrom(w, p, col, z) == SkyDownFrom(w1, p, col, z - 1)
  {
    var c := Cell(p, ColumnCell(col, z));
    var w1 := Put(w, c, SkyLit(At(w, c)));
    if DirtyIffQueued(w) {
      PutKeepsQueue(w, c, SkyLit(At(w, c)));
    }
    HighestOpaqueSameOpacity(w, w1, p, col, z - 1);
  }

  /** One step of `SkyDownFrom` at a cell that is not opaque, with the next height passed in. */
  lemma SkyDownFromUnfolds(w: LightWorld, p: ChunkCoords, col: ChunkColumnIndex, z: int, next: int)
    requires Wf(w) && p in w.chunks && col < NUM_COLUMNS_PER_CHUNK && 0 <= z < CHUNK_Z_HEIGHT_IN_BLOCKS && next == z - 1
    requires !IsOpaque(At(w, Cell(p, ColumnCell(col, z))))
    ensures var c := Cell(p, ColumnCell(col, z));
      SkyDownFrom(w, p, col, z) == SkyDownFrom(Put(w, c, SkyLit(At(w, c))), p, col, next)
  {
  }

  /** One step of `SkyColumnsFrom`, with the next column passed in. */
  lemma SkyColumnsFromUnfolds(w: LightWorld, p: ChunkCoords, col: nat, next: nat)
    requires Wf(w) && p in w.chunks && col < NUM_COLUMNS_PER_CHUNK && next == col + 1
    ensures SkyColumnsFrom(w, p, col) == SkyColumnsFrom(SkyDownFrom(w, p, col, CHUNK_Z_HEIGHT_IN_BLOCKS - 1), p, next)
  {
  }

  /** Pass 1 over the columns from col on. */
  function SkyColumnsFrom(w: LightWorld, p: ChunkCoords, col: nat): (r: LightWorld)
    requires Wf(w) && p in w.chunks
    ensures Wf(r) && r.chunks.Keys == w.chunks.Keys && r.queue == w.queue
    decreases NUM_COLUMNS_PER_CHUNK - col
  {
    if col >= NUM_COLUMNS_PER_CHUNK then w
    else SkyColumnsFrom(SkyDownFrom(w, p, col, CHUNK_Z_HEIGHT_IN_BLOCKS - 1), p, col + 1)
  }

  /** A cell of chunk p in a column from col on. */
  predicate FromColumn(c: Cell, p: ChunkCoords, col: int)
  {
    c.chunk == p && c.index % NUM_COLUMNS_PER_CHUNK >= col
  }

  /** r is w with exactly the cells of chunk p's columns from col on that are open to the sky made sky and fully lit. */
  ghost predicate SkyLitWhereOpen(w: LightWorld, r: LightWorld, p: ChunkCoords, col: int)
  {
    && Wf(w) && Wf(r) && r.chunks.Keys == w.chunks.Keys
    && forall c :: Holds(w, c) ==> At(r, c) == if FromColumn(c, p, col) && OpenToSky(w, c) then SkyLit(At(w, c)) else At(w, c)
  }

  /**
   * Pass 1 over the columns from col on makes sky and fully lit exactly
   * the cells of those columns that are open to the sky; it changes no
   * dirty bit, so the invariant holds.
   */
  lemma {:induction false} SkyColumnsFromFacts(w: LightWorld, p: ChunkCoords, col: nat)
    requires Wf(w) && p in w.chunks
    ensures var r := SkyColumnsFrom(w, p, col);
      && SameOpacity(w, r) && SkyLitWhereOpen(w, r, p, col)
      && (DirtyIffQueued(w) ==> DirtyIffQueued(r))
    decreases NUM_COLUMNS_PER_CHUNK - col
  {
    if col >= NUM_COLUMNS_PER_CHUNK {
      SkyColumnsFromNone(w, p, col);
    } else {
      var w1 := SkyDownFrom(w, p, col, CHUNK_Z_HEIGHT_IN_BLOCKS - 1);
      SkyDownFromFacts(w, p, col, CHUNK_Z_HEIGHT_IN_BLOCKS - 1);
      SkyColumnsFromFacts(w1, p, col + 1);
      var r := SkyColumnsFrom(w1, p, col + 1);
      SkyColumnsCombine(w, w1, r, p, col);
      SameOpacityTransitive(w, w1, r);
    }
  }

  lemma SkyColumnsFromNone(w: LightWorld, p: ChunkCoords, col: nat)
    requires Wf(w) && p in w.chunks && col >= NUM_COLUMNS_PER_CHUNK
    ensures SkyColumnsFrom(w, p, col) == w && SameOpacity(w, w) && SkyLitWhereOpen(w, w, p, col)
  {
  }

  lemma SameOpacityTransitive(u: LightWorld, v: LightWorld, w: LightWorld)
    requires SameOpacity(u, v) && SameOpacity(v, w)
    ensures SameOpacity(u, w)
  {
    forall c | Holds(u, c)
      ensures IsOpaque(At(w, c)) == IsOpaque(At(u, c))
    {
      assert Holds(v, c);
    }
  }

  /** Pass 1 on column col and then on the columns after it is pass 1 on the columns from col on. */
  lemma SkyColumnsCombine(w: LightWorld, w1: LightWorld, r: LightWorld, p: ChunkCoords, col: ChunkColumnIndex)
    requires p in w.chunks && col < NUM_COLUMNS_PER_CHUNK && SameOpacity(w, w1)
    requires ColumnRewritten(w, w1, Cell(p, col), HighestOpaque(w, p, col, CHUNK_Z_HEIGHT_IN_BLOCKS - 1) + 1, CHUNK_Z_HEIGHT_IN_BLOCKS - 1, SkyLit)
    requires SkyLitWhereOpen(w1, r, p, col + 1)
    ensures SkyLitWhereOpen(w, r, p, col)
  {
    Bits.DivModUnique(col, NUM_COLUMNS_PER_CHUNK, 0, col);
    forall c | Holds(w, c)
      ensures At(r, c) == if FromColumn(c, p, col) && OpenToSky(w, c) then SkyLit(At(w, c)) else At(w, c)
    {
      HighestOpaqueSameOpacity(w, w1, c.chunk, c.index % NUM_COLUMNS_PER_CHUNK, CHUNK_Z_HEIGHT_IN_BLOCKS - 1);
      HeightBound(c);
      if c.chunk == p && c.index % NUM_COLUMNS_PER_CHUNK == col {
        assert !FromColumn(c, p, col + 1);
        assert At(r, c) == At(w1, c);
        assert InColumn(c, Cell(p, col), HighestOpaque(w, p, col, CHUNK_Z_HEIGHT_IN_BLOCKS - 1) + 1, CHUNK_Z_HEIGHT_IN_BLOCKS - 1) <==> OpenToSky(w, c);
      } else {
        assert At(w1, c) == At(w, c);
        assert FromColumn(c, p, col + 1) == FromColumn(c, p, col);
      }
    }
  }

  lemma HeightBound(c: Cell)
    requires c.index < NUM_BLOCKS_PER_CHUNK
    ensures c.index / NUM_COLUMNS_PER_CHUNK < CHUNK_Z_HEIGHT_IN_BLOCKS
  {
  }

  /** A horizontal direction. */
  predicate Horizontal(d: StepDirection)
  {
    d != Up && d != Down
  }

  /** Every horizontal neighbour of c that is not sky in w is dirty in r. */
  ghost predicate HorizontalNeighboursDirty(w: LightWorld, r: LightWorld, c: Cell)
    requires Wf(w) && Wf(r) && r.chunks.Keys == w.chunks.Keys && Holds(w, c)
  {
    forall d :: Horizontal(d) && !IsSky(At(w, Step(w.chunks.Keys, d, c))) ==> IsLightingDirty(At(r, Step(w.chunks.Keys, d, c)))
  }

  /** Marking the horizontal neighbours leaves them dirty. */
  lemma DirtyNonSkyHorizontal(w: LightWorld, c: Cell)
    requires DirtyIffQueued(w) && Holds(w, c)
    ensures var r := DirtyNonSkyNeighbours(w, c, false);
      DirtyIffQueued(r) && OnlyDirtied(w, r) && HorizontalNeighboursDirty(w, r, c)
  {
    var r := DirtyNonSkyNeighbours(w, c, false);
    DirtyNonSkyNeighboursFacts(w, c, false, East);
    forall d | Horizontal(d) && !IsSky(At(w, Step(w.chunks.Keys, d, c)))
      ensures IsLightingDirty(At(r, Step(w.chunks.Keys, d, c)))
    {
      DirtyNonSkyNeighboursFacts(w, c, false, d);
    }
  }

  /** Setting more dirty bits keeps dirty neighbours dirty, and the sky bits they are judged by do not change. */
  lemma HorizontalNeighboursDirtyKept(u: LightWorld, w: LightWorld, r: LightWorld, r2: LightWorld, c: Cell)
    requires SameShape(u, w) && OnlyDirtied(r, r2) && r.chunks.Keys == w.chunks.Keys && Holds(w, c)
    requires HorizontalNeighboursDirty(w, r, c)
    ensures HorizontalNeighboursDirty(u, r2, c)
  {
    forall d | Horizontal(d) && !IsSky(At(u, Step(u.chunks.Keys, d, c)))
      ensures IsLightingDirty(At(r2, Step(u.chunks.Keys, d, c)))
    {
      var n := Step(u.chunks.Keys, d, c);
      OnlyDirtiedKeeps(r, r2, n);
    }
  }

  lemma OnlyDirtiedReflexive(w: LightWorld)
    requires Wf(w)
    ensures OnlyDirtied(w, w)
  {
  }

  /** Pass 2 of `World::InitializeLightingForChunk` in one column, from height z down to the first opaque cell. */
  function BleedDownFrom(w: LightWorld, p: ChunkCoords, col: ChunkColumnIndex, z: int): (r: LightWorld)
    requires Wf(w) && p in w.chunks && col < NUM_COLUMNS_PER_CHUNK && z < CHUNK_Z_HEIGHT_IN_BLOCKS
    ensures Wf(r) && r.chunks.Keys == w.chunks.Keys
    decreases if z < 0 then 0 else z + 1
  {
    if z < 0 then w
    else
      var c := Cell(p, ColumnCell(col, z));
      if IsOpaque(At(w, c)) then w else BleedDownFrom(DirtyNonSkyNeighbours(w, c, false), p, col, z - 1)
  }

  /** Every cell of a's column at heights [lo, hi] has its non-sky horizontal neighbours (judged in w) dirty in r. */
  ghost predicate BledOver(w: LightWorld, r: LightWorld, a: Cell, lo: int, hi: int)
  {
    && Wf(w) && Wf(r) && r.chunks.Keys == w.chunks.Keys
    && forall c :: Holds(w, c) && InColumn(c, a, lo, hi) ==> HorizontalNeighboursDirty(w, r, c)
  }

  /**
   * Pass 2 in one column marks the non-sky horizontal neighbours of every
   * cell from height z down to just above the highest opaque cell at or
   * below z, sets dirty bits only, and keeps the invariant.
   */
  lemma {:induction false} BleedDownFromFacts(w: LightWorld, p: ChunkCoords, col: ChunkColumnIndex, z: int)
    requires DirtyIffQueued(w) && p in w.chunks && col < NUM_COLUMNS_PER_CHUNK && z < CHUNK_Z_HEIGHT_IN_BLOCKS
    ensures var r := BleedDownFrom(w, p, col, z);
      && DirtyIffQueued(r) && OnlyDirtied(w, r)
      && BledOver(w, r, Cell(p, col), HighestOpaque(w, p, col, z) + 1, z)
    decreases if z < 0 then 0 else z + 1
  {
    if z < 0 || IsOpaque(At(w, Cell(p, ColumnCell(col, z)))) {
      OnlyDirtiedReflexive(w);
    } else {
      var c := Cell(p, ColumnCell(col, z));
      var w1 := DirtyNonSkyNeighbours(w, c, false);
      BleedDownFromStep(w, p, col, z);
      BleedDownFromFacts(w1, p, col, z - 1);
      var r := BleedDownFrom(w1, p, col, z - 1);
      OnlyDirtiedTransitive(w, w1, r);
      ColumnCellInColumn(p, col, z);
      BledOverAdd(w, w1, r, Cell(p, col), c, HighestOpaque(w, p, col, z) + 1);
    }
  }

  /** One cell of pass 2 keeps the invariant, dirties its neighbours and keeps the floor of the rest of the column. */
  lemma BleedDownFromStep(w: LightWorld, p: ChunkCoords, col: ChunkColumnIndex, z: int)
    requires DirtyIffQueued(w) && p in w.chunks && col < NUM_COLUMNS_PER_CHUNK && 0 <= z < CHUNK_Z_HEIGHT_IN_BLOCKS
    requires !IsOpaque(At(w, Cell(p, ColumnCell(col, z))))
    ensures var c := Cell(p, ColumnCell(col, z)); var w1 := DirtyNonSkyNeighbours(w, c, false);
      && DirtyIffQueued(w1) && OnlyDirtied(w, w1) && HorizontalNeighboursDirty(w, w1, c)
      && HighestOpaque(w1, p, col, z - 1) == HighestOpaque(w, p, col, z)
      && BleedDownFrom(w, p, col, z) == BleedDownFrom(w1, p, col, z - 1)
  {
    var c := Cell(p, ColumnCell(col, z));
    var w1 := DirtyNonSkyNeighbours(w, c, false);
    DirtyNonSkyHorizontal(w, c);
    OnlyDirtiedSameShape(w, w1);
    assert SameOpacity(w, w1);
    HighestOpaqueSameOpacity(w, w1, p, col, z - 1);
  }

  /** One step of `BleedDownFrom` at a cell that is not opaque, with the next height passed in. */
  lemma BleedDownFromUnfolds(w: LightWorld, p: ChunkCoords, col: ChunkColumnIndex, z: int, next: int)
    requires Wf(w) && p in w.chunks && col < NUM_COLUMNS_PER_CHUNK && 0 <= z < CHUNK_Z_HEIGHT_IN_BLOCKS && next == z - 1
    requires !IsOpaque(At(w, Cell(p, ColumnCell(col, z))))
    ensures BleedDownFrom(w, p, col, z) == BleedDownFrom(DirtyNonSkyNeighbours(w, Cell(p, ColumnCell(col, z)), false), p, col, next)
  {
  }

  /** One step of `BleedColumnsFrom`, with the next column passed in. */
  lemma BleedColumnsFromUnfolds(w: LightWorld, p: ChunkCoords, col: nat, next: nat)
    requires Wf(w) && p in w.chunks && col < NUM_COLUMNS_PER_CHUNK && next == col + 1
    ensures BleedColumnsFrom(w, p, col) == BleedColumnsFrom(BleedDownFrom(w, p, col, CHUNK_Z_HEIGHT_IN_BLOCKS - 1), p, next)
  {
  }

  /** Bleeding from one cell, then from the column below it, is bleeding from the column down from that cell. */
  lemma BledOverAdd(w: LightWorld, w1: LightWorld, r: LightWorld, a: Cell, c: Cell, lo: int)
    requires OnlyDirtied(w, w1) && OnlyDirtied(w1, r) && Holds(w, c)
    requires c.chunk == a.chunk && c.index % NUM_COLUMNS_PER_CHUNK == a.index % NUM_COLUMNS_PER_CHUNK
    requires HorizontalNeighboursDirty(w, w1, c)
    requires BledOver(w1, r, a, lo, c.index / NUM_COLUMNS_PER_CHUNK - 1)
    ensures BledOver(w, r, a, lo, c.index / NUM_COLUMNS_PER_CHUNK)
  {
    var z := c.index / NUM_COLUMNS_PER_CHUNK;
    OnlyDirtiedReflexive(w);
    OnlyDirtiedSameShape(w, w);
    OnlyDirtiedSameShape(w, w1);
    forall c' | Holds(w, c') && InColumn(c', a, lo, z)
      ensures HorizontalNeighboursDirty(w, r, c')
    {
      if c' == c {
        HorizontalNeighboursDirtyKept(w, w, w1, r, c);
      } else {
        if c'.index / 256 == z {
          SameColumnAndHeight(c', c);
        }
        HorizontalNeighboursDirtyKept(w, w1, r, r, c');
      }
    }
  }

  /** Pass 2 over the columns from col on. */
  function BleedColumnsFrom(w: LightWorld, p: ChunkCoords, col: nat): (r: LightWorld)
    requires Wf(w) && p in w.chunks
    ensures Wf(r) && r.chunks.Keys == w.chunks.Keys
    decreases NUM_COLUMNS_PER_CHUNK - col
  {
    if col >= NUM_COLUMNS_PER_CHUNK then w
    else BleedColumnsFrom(BleedDownFrom(w, p, col, CHUNK_Z_HEIGHT_IN_BLOCKS - 1), p, col + 1)
  }

  /** Every cell of chunk p's columns from col on that is open to the sky has its non-sky horizontal neighbours dirty in r. */
  ghost predicate BledWhereOpen(w: LightWorld, r: LightWorld, p: ChunkCoords, col: int)
  {
    && Wf(w) && Wf(r) && r.chunks.Keys == w.chunks.Keys
    && forall c :: Holds(w, c) && FromColumn(c, p, col) && OpenToSky(w, c) ==> HorizontalNeighboursDirty(w, r, c)
  }

  /**
   * Pass 2 over the columns from col on marks the non-sky horizontal
   * neighbours of every cell open to the sky, sets dirty bits only, and
   * keeps the invariant.
   */
  lemma {:induction false} BleedColumnsFromFacts(w: LightWorld, p: ChunkCoords, col: nat)
    requires DirtyIffQueued(w) && p in w.chunks
    ensures var r := BleedColumnsFrom(w, p, col);
      DirtyIffQueued(r) && OnlyDirtied(w, r) && BledWhereOpen(w, r, p, col)
    decreases NUM_COLUMNS_PER_CHUNK - col
  {
    if col >= NUM_COLUMNS_PER_CHUNK {
      OnlyDirtiedReflexive(w);
    } else {
      var w1 := BleedDownFrom(w, p, col, CHUNK_Z_HEIGHT_IN_BLOCKS - 1);
      BleedDownFromFacts(w, p, col, CHUNK_Z_HEIGHT_IN_BLOCKS - 1);
      BleedColumnsFromFacts(w1, p, col + 1);
      var r := BleedColumnsFrom(w1, p, col + 1);
      OnlyDirtiedTransitive(w, w1, r);
      BleedColumnsCombine(w, w1, r, p, col);
    }
  }

  lemma BleedColumnsCombine(w: LightWorld, w1: LightWorld, r: LightWorld, p: ChunkCoords, col: ChunkColumnIndex)
    requires p in w.chunks && col < NUM_COLUMNS_PER_CHUNK && OnlyDirtied(w, w1) && OnlyDirtied(w1, r)
    requires BledOver(w, w1, Cell(p, col), HighestOpaque(w, p, col, CHUNK_Z_HEIGHT_IN_BLOCKS - 1) + 1, CHUNK_Z_HEIGHT_IN_BLOCKS - 1)
    requires BledWhereOpen(w1, r, p, col + 1)
    ensures BledWhereOpen(w, r, p, col)
  {
    Bits.DivModUnique(col, NUM_COLUMNS_PER_CHUNK, 0, col);
    OnlyDirtiedReflexive(r);
    OnlyDirtiedReflexive(w);
    OnlyDirtiedSameShape(w, w);
    OnlyDirtiedSameShape(w, w1);
    forall c | Holds(w, c) && FromColumn(c, p, col) && OpenToSky(w, c)
      ensures HorizontalNeighboursDirty(w, r, c)
    {
      HighestOpaqueSameOpacity(w, w1, c.chunk, c.index % NUM_COLUMNS_PER_CHUNK, CHUNK_Z_HEIGHT_IN_BLOCKS - 1);
      HeightBound(c);
      if c.index % NUM_COLUMNS_PER_CHUNK == col {
        assert InColumn(c, Cell(p, col), HighestOpaque(w, p, col, CHUNK_Z_HEIGHT_IN_BLOCKS - 1) + 1, CHUNK_Z_HEIGHT_IN_BLOCKS - 1);
        HorizontalNeighboursDirtyKept(w, w, w1, r, c);
      } else {
        assert FromColumn(c, p, col + 1) && OpenToSky(w1, c);
        HorizontalNeighboursDirtyKept(w, w1, r, r, c);
      }
    }
  }

  /** A non-sky block whose type emits light. */
  predicate Emits(b: Block)
  {
    !IsSky(b) && BlockDefinitions.GetLightLevel(b.blockType) > 0
  }

  /** Pass 3 of `World::InitializeLightingForChunk` over the cells of chunk p from index k on: mark every emitter. */
  function EmittersFrom(w: LightWorld, p: ChunkCoords, k: nat): (r: LightWorld)
    requires Wf(w) && p in w.chunks
    ensures Wf(r) && r.chunks.Keys == w.chunks.Keys
    decreases NUM_BLOCKS_PER_CHUNK - k
  {
    if k >= NUM_BLOCKS_PER_CHUNK then w
    else
      var c := Cell(p, k);
      EmittersFrom(if Emits(At(w, c)) then Mark(w, c) else w, p, k + 1)
  }

  /** One step of `EmittersFrom`, with the next index passed in. */
  lemma EmittersFromUnfolds(w: LightWorld, p: ChunkCoords, k: nat, next: nat)
    requires Wf(w) && p in w.chunks && k < NUM_BLOCKS_PER_CHUNK && next == k + 1
    ensures EmittersFrom(w, p, k) == EmittersFrom(if Emits(At(w, Cell(p, k))) then Mark(w, Cell(p, k)) else w, p, next)
  {
  }

  /** Pass 3 leaves every emitter of chunk p from index k on dirty, sets dirty bits only and keeps the invariant. */
  lemma {:induction false} EmittersFromFacts(w: LightWorld, p: ChunkCoords, k: nat)
    requires DirtyIffQueued(w) && p in w.chunks
    ensures var r := EmittersFrom(w, p, k);
      && DirtyIffQueued(r) && OnlyDirtied(w, r)
      && forall c :: Holds(w, c) && c.chunk == p && c.index >= k && Emits(At(w, c)) ==> IsLightingDirty(At(r, c))
    decreases NUM_BLOCKS_PER_CHUNK - k
  {
    if k >= NUM_BLOCKS_PER_CHUNK {
      OnlyDirtiedReflexive(w);
    } else {
      var c := Cell(p, k);
      var next := k + 1;
      var w1 := if Emits(At(w, c)) then Mark(w, c) else w;
      EmittersFromUnfolds(w, p, k, next);
      EmitterMarkFacts(w, c);
      EmittersFromFacts(w1, p, next);
      EmittersFromCombine(w, w1, EmittersFrom(w1, p, next), p, k);
    }
  }

  /** The cell at index k is marked when it emits; only dirty bits change. */
  lemma EmitterMarkFacts(w: LightWorld, c: Cell)
    requires DirtyIffQueued(w) && Holds(w, c)
    ensures var w1 := if Emits(At(w, c)) then Mark(w, c) else w;
      && DirtyIffQueued(w1) && OnlyDirtied(w, w1)
      && (Emits(At(w, c)) ==> IsLightingDirty(At(w1, c)))
  {
    if Emits(At(w, c)) {
      MarkKeepsQueue(w, c);
    } else {
      OnlyDirtiedReflexive(w);
    }
  }

  /** The cell at k, then the cells from k + 1: every emitter from k on ends dirty. */
  lemma EmittersFromCombine(w: LightWorld, w1: LightWorld, r: LightWorld, p: ChunkCoords, k: nat)
    requires OnlyDirtied(w, w1) && OnlyDirtied(w1, r) && p in w.chunks && k < NUM_BLOCKS_PER_CHUNK
    requires Emits(At(w, Cell(p, k))) ==> IsLightingDirty(At(w1, Cell(p, k)))
    requires forall c :: Holds(w1, c) && c.chunk == p && c.index >= k + 1 && Emits(At(w1, c)) ==> IsLightingDirty(At(r, c))
    ensures OnlyDirtied(w, r)
    ensures forall c :: Holds(w, c) && c.chunk == p && c.index >= k && Emits(At(w, c)) ==> IsLightingDirty(At(r, c))
  {
    OnlyDirtiedTransitive(w, w1, r);
    forall c' | Holds(w, c') && c'.chunk == p && c'.index >= k && Emits(At(w, c'))
      ensures IsLightingDirty(At(r, c'))
    {
      OnlyDirtiedKeeps(w, w1, c');
      OnlyDirtiedKeeps(w1, r, c');
      assert Emits(At(w1, c'));
    }
  }

  /** `World::InitializeLightingForChunk`: pass 1 (sky), pass 2 (bleed into neighbours), pass 3 (emitters). */
  function InitializeLighting(w: LightWorld, p: ChunkCoords): (r: LightWorld)
    requires Wf(w) && p in w.chunks
    ensures Wf(r) && r.chunks.Keys == w.chunks.Keys
  {
    EmittersFrom(BleedColumnsFrom(SkyColumnsFrom(w, p, 0), p, 0), p, 0)
  }

  /**
   * After initialisation the invariant holds, opacity and types are kept,
   * and the initialised chunk's cells open to the sky are sky at full
   * light; every other cell keeps its sky bit and its light.
   */
  lemma InitializeLightingCells(w: LightWorld, p: ChunkCoords)
    requires DirtyIffQueued(w) && p in w.chunks
    ensures var r := InitializeLighting(w, p);
      && DirtyIffQueued(r) && SameOpacity(w, r)
      && (forall c :: Holds(w, c) ==> At(r, c).blockType == At(w, c).blockType)
      && (forall c :: Holds(w, c) && c.chunk == p && OpenToSky(w, c) ==> IsSky(At(r, c)) && LightAt(r, c) == MAX_LIGHTING_LEVEL)
      && (forall c :: Holds(w, c) && !(c.chunk == p && OpenToSky(w, c)) ==>
            IsSky(At(r, c)) == IsSky(At(w, c)) && LightAt(r, c) == LightAt(w, c))
  {
    var w1 := SkyColumnsFrom(w, p, 0);
    var w2 := BleedColumnsFrom(w1, p, 0);
    var r := EmittersFrom(w2, p, 0);
    InitializeLightingPasses(w, p);
    forall c | Holds(w, c)
      ensures IsOpaque(At(r, c)) == IsOpaque(At(w, c)) && At(r, c).blockType == At(w, c).blockType
      ensures c.chunk == p && OpenToSky(w, c) ==> IsSky(At(r, c)) && LightAt(r, c) == MAX_LIGHTING_LEVEL
      ensures !(c.chunk == p && OpenToSky(w, c)) ==> IsSky(At(r, c)) == IsSky(At(w, c)) && LightAt(r, c) == LightAt(w, c)
    {
      InitializedCell(w, w1, r, p, c);
    }
  }

  lemma InitializedCell(w: LightWorld, w1: LightWorld, r: LightWorld, p: ChunkCoords, c: Cell)
    requires SkyLitWhereOpen(w, w1, p, 0) && OnlyDirtied(w1, r) && Holds(w, c)
    ensures IsOpaque(At(r, c)) == IsOpaque(At(w, c)) && At(r, c).blockType == At(w, c).blockType
    ensures c.chunk == p && OpenToSky(w, c) ==> IsSky(At(r, c)) && LightAt(r, c) == MAX_LIGHTING_LEVEL
    ensures !(c.chunk == p && OpenToSky(w, c)) ==> IsSky(At(r, c)) == IsSky(At(w, c)) && LightAt(r, c) == LightAt(w, c)
  {
    assert FromColumn(c, p, 0) <==> c.chunk == p;
    OnlyDirtiedKeeps(w1, r, c);
  }

  /** The facts of the three passes, in one place. */
  lemma InitializeLightingPasses(w: LightWorld, p: ChunkCoords)
    requires DirtyIffQueued(w) && p in w.chunks
    ensures var w1 := SkyColumnsFrom(w, p, 0); var w2 := BleedColumnsFrom(w1, p, 0); var r := EmittersFrom(w2, p, 0);
      && r == InitializeLighting(w, p)
      && DirtyIffQueued(w1) && SameOpacity(w, w1) && SkyLitWhereOpen(w, w1, p, 0)
      && DirtyIffQueued(w2) && OnlyDirtied(w1, w2) && BledWhereOpen(w1, w2, p, 0)
      && DirtyIffQueued(r) && OnlyDirtied(w2, r) && OnlyDirtied(w1, r)
      && (forall c :: Holds(w2, c) && c.chunk == p && Emits(At(w2, c)) ==> IsLightingDirty(At(r, c)))
  {
    var w1 := SkyColumnsFrom(w, p, 0);
    SkyColumnsFromFacts(w, p, 0);
    var w2 := BleedColumnsFrom(w1, p, 0);
    BleedColumnsFromFacts(w1, p, 0);
    EmittersFromFacts(w2, p, 0);
    OnlyDirtiedTransitive(w1, w2, EmittersFrom(w2, p, 0));
  }

  /** After initialisation every emitter of the chunk is dirty. */
  lemma InitializeLightingMarksEmitters(w: LightWorld, p: ChunkCoords)
    requires DirtyIffQueued(w) && p in w.chunks
    ensures var r := InitializeLighting(w, p);
      forall c :: Holds(w, c) && c.chunk == p && Emits(At(r, c)) ==> IsLightingDirty(At(r, c))
  {
    var w1 := SkyColumnsFrom(w, p, 0);
    var w2 := BleedColumnsFrom(w1, p, 0);
    var r := EmittersFrom(w2, p, 0);
    InitializeLightingPasses(w, p);
    forall c | Holds(w, c) && c.chunk == p && Emits(At(r, c))
      ensures IsLightingDirty(At(r, c))
    {
      MarkedEmitter(w2, r, p, c);
    }
  }

  /**
   * After initialisation every non-sky horizontal neighbour of each of
   * the chunk's cells open to the sky is dirty.
   */
  lemma InitializeLightingMarksNeighbours(w: LightWorld, p: ChunkCoords)
    requires DirtyIffQueued(w) && p in w.chunks
    ensures var r := InitializeLighting(w, p);
      forall c :: Holds(w, c) && c.chunk == p && OpenToSky(w, c) ==> HorizontalNeighboursDirty(r, r, c)
  {
    var w1 := SkyColumnsFrom(w, p, 0);
    var w2 := BleedColumnsFrom(w1, p, 0);
    var r := EmittersFrom(w2, p, 0);
    InitializeLightingPasses(w, p);
    MarkedAllNeighbours(w, w1, w2, r, p);
  }

  lemma MarkedAllNeighbours(w: LightWorld, w1: LightWorld, w2: LightWorld, r: LightWorld, p: ChunkCoords)
    requires SameOpacity(w, w1) && BledWhereOpen(w1, w2, p, 0) && OnlyDirtied(w1, r) && OnlyDirtied(w2, r)
    ensures forall c :: Holds(w, c) && c.chunk == p && OpenToSky(w, c) ==> HorizontalNeighboursDirty(r, r, c)
  {
    forall c | Holds(w, c) && c.chunk == p && OpenToSky(w, c)
      ensures HorizontalNeighboursDirty(r, r, c)
    {
      MarkedNeighbours(w, w1, w2, r, p, c);
    }
  }

  lemma MarkedEmitter(w2: LightWorld, r: LightWorld, p: ChunkCoords, c: Cell)
    requires OnlyDirtied(w2, r) && Holds(w2, c) && c.chunk == p && Emits(At(r, c))
    requires forall c :: Holds(w2, c) && c.chunk == p && Emits(At(w2, c)) ==> IsLightingDirty(At(r, c))
    ensures IsLightingDirty(At(r, c))
  {
    OnlyDirtiedKeeps(w2, r, c);
  }

  lemma MarkedNeighbours(w: LightWorld, w1: LightWorld, w2: LightWorld, r: LightWorld, p: ChunkCoords, c: Cell)
    requires SameOpacity(w, w1) && BledWhereOpen(w1, w2, p, 0) && OnlyDirtied(w1, r) && OnlyDirtied(w2, r)
    requires Holds(w, c) && c.chunk == p && OpenToSky(w, c)
    ensures HorizontalNeighboursDirty(r, r, c)
  {
    OnlyDirtiedReflexive(r);
    OnlyDirtiedSameShape(w1, r);
    SameShapeSymmetric(w1, r);
    HighestOpaqueSameOpacity(w, w1, c.chunk, c.index % NUM_COLUMNS_PER_CHUNK, CHUNK_Z_HEIGHT_IN_BLOCKS - 1);
    assert FromColumn(c, p, 0) && OpenToSky(w1, c);
    HorizontalNeighboursDirtyKept(r, w1, w2, r, c);
  }

  lemma SameShapeSymmetric(w: LightWorld, r: LightWorld)
    requires SameShape(w, r)
    ensures SameShape(r, w)
  {
  }

  // ---------------------------------------------------------------- whole chunks

  /** `World::MarkChunkLightingDirty` from index k on: mark every cell of chunk p, in index order. */
  function MarkCellsFrom(w: LightWorld, p: ChunkCoords, k: nat): (r: LightWorld)
    requires Wf(w) && p in w.chunks
    ensures Wf(r) && r.chunks.Keys == w.chunks.Keys
    decreases NUM_BLOCKS_PER_CHUNK - k
  {
    if k >= NUM_BLOCKS_PER_CHUNK then w else MarkCellsFrom(Mark(w, Cell(p, k)), p, k + 1)
  }

  /** One step of `MarkCellsFrom`, with the next index passed in. */
  lemma MarkCellsFromStep(w: LightWorld, p: ChunkCoords, k: nat, next: nat)
    requires Wf(w) && p in w.chunks && k < NUM_BLOCKS_PER_CHUNK && next == k + 1
    ensures MarkCellsFrom(w, p, k) == MarkCellsFrom(Mark(w, Cell(p, k)), p, next)
  {
  }

  /** Afterwards every cell of chunk p from index k on is dirty and queued; only dirty bits changed. */
  lemma {:induction false} MarkCellsFromFacts(w: LightWorld, p: ChunkCoords, k: nat)
    requires DirtyIffQueued(w) && p in w.chunks
    ensures var r := MarkCellsFrom(w, p, k);
      && DirtyIffQueued(r) && OnlyDirtied(w, r)
      && forall c :: Holds(w, c) && c.chunk == p && c.index >= k ==> IsLightingDirty(At(r, c)) && c in r.queue
    decreases NUM_BLOCKS_PER_CHUNK - k
  {
    if k >= NUM_BLOCKS_PER_CHUNK {
      OnlyDirtiedReflexive(w);
    } else {
      var next := k + 1;
      var w1 := Mark(w, Cell(p, k));
      MarkCellsFromStep(w, p, k, next);
      MarkKeepsQueue(w, Cell(p, k));
      MarkCellsFromFacts(w1, p, next);
      MarkCellsFromCombine(w, w1, MarkCellsFrom(w1, p, next), p, k);
    }
  }

  /** The cell at k, then the cells from k + 1: every cell from k on ends dirty and queued. */
  lemma MarkCellsFromCombine(w: LightWorld, w1: LightWorld, r: LightWorld, p: ChunkCoords, k: nat)
    requires OnlyDirtied(w, w1) && OnlyDirtied(w1, r) && p in w.chunks && k < NUM_BLOCKS_PER_CHUNK
    requires IsLightingDirty(At(w1, Cell(p, k))) && Cell(p, k) in w1.queue
    requires forall c :: Holds(w1, c) && c.chunk == p && c.index >= k + 1 ==> IsLightingDirty(At(r, c)) && c in r.queue
    ensures OnlyDirtied(w, r)
    ensures forall c :: Holds(w, c) && c.chunk == p && c.index >= k ==> IsLightingDirty(At(r, c)) && c in r.queue
  {
    OnlyDirtiedTransitive(w, w1, r);
    forall c | Holds(w, c) && c.chunk == p && c.index >= k
      ensures IsLightingDirty(At(r, c)) && c in r.queue
    {
      if c.index == k {
        OnlyDirtiedKeeps(w1, r, c);
      }
    }
  }

  /** `Chunk::SetCurrentSkyLightLevel` on chunk p. */
  function WithSkyLevel(w: LightWorld, p: ChunkCoords, level: int): (r: LightWorld)
    requires Wf(w) && p in w.chunks && 0 <= level <= MAX_LIGHTING_LEVEL
    ensures Wf(r) && r.chunks.Keys == w.chunks.Keys && r.queue == w.queue
    ensures r.chunks[p].skyLightLevel == level
    ensures forall q :: q in w.chunks && q != p ==> r.chunks[q] == w.chunks[q]
    ensures r.chunks[p].blocks == w.chunks[p].blocks
  {
    w.(chunks := w.chunks[p := w.chunks[p].(skyLightLevel := level)])
  }

  /** One chunk of `World::UpdateChunks`: when its sky level differs from level, it gets the level and all its cells are marked. */
  function SkyStep(w: LightWorld, p: ChunkCoords, level: int): (r: LightWorld)
    requires Wf(w) && p in w.chunks && 0 <= level <= MAX_LIGHTING_LEVEL
    ensures Wf(r) && r.chunks.Keys == w.chunks.Keys
  {
    if w.chunks[p].skyLightLevel != level then MarkCellsFrom(WithSkyLevel(w, p, level), p, 0) else w
  }

  /**
   * The body of `World::UpdateChunks` for the chunks ps, in that order:
   * a chunk whose sky level differs from level gets it and has all its
   * cells marked.
   */
  function UpdateSkyLevels(w: LightWorld, ps: seq<ChunkCoords>, level: int): (r: LightWorld)
    requires Wf(w) && 0 <= level <= MAX_LIGHTING_LEVEL && forall i :: 0 <= i < |ps| ==> ps[i] in w.chunks
    ensures Wf(r) && r.chunks.Keys == w.chunks.Keys
    decreases |ps|
  {
    if ps == [] then w
    else
      UpdateSkyLevels(SkyStep(w, ps[0], level), ps[1..], level)
  }

  /**
   * r is w after updating the chunks ps to level: cells changed by dirty
   * bits only, the queue only grew, each listed chunk is at the level,
   * the other chunks keep theirs, and every cell of a listed chunk whose
   * level changed is dirty.
   */
  ghost predicate SkyLevelsUpdated(w: LightWorld, r: LightWorld, ps: seq<ChunkCoords>, level: int)
  {
    && Wf(w) && Wf(r) && r.chunks.Keys == w.chunks.Keys && w.queue <= r.queue
    && (forall i :: 0 <= i < |ps| ==> ps[i] in w.chunks)
    && (forall c :: Holds(w, c) ==> At(r, c) == At(w, c) || At(r, c) == SetLightingDirty(At(w, c)))
    && (forall p :: p in ps ==> r.chunks[p].skyLightLevel == level)
    && (forall p :: p in w.chunks && p !in ps ==> r.chunks[p].skyLightLevel == w.chunks[p].skyLightLevel)
    && (forall c :: Holds(w, c) && c.chunk in ps && w.chunks[c.chunk].skyLightLevel != level ==> IsLightingDirty(At(r, c)))
  }

  /** Updating sky levels keeps the invariant and does what `SkyLevelsUpdated` says. */
  lemma {:induction false} UpdateSkyLevelsFacts(w: LightWorld, ps: seq<ChunkCoords>, level: int)
    requires DirtyIffQueued(w) && 0 <= level <= MAX_LIGHTING_LEVEL && forall i :: 0 <= i < |ps| ==> ps[i] in w.chunks
    ensures var r := UpdateSkyLevels(w, ps, level);
      DirtyIffQueued(r) && SkyLevelsUpdated(w, r, ps, level)
    decreases |ps|
  {
    if ps == [] {
      UpdateSkyLevelsNone(w, level);
    } else {
      var rest := ps[1..];
      var w1 := SkyStep(w, ps[0], level);
      UpdateSkyLevelsUnfolds(w, ps, level, rest);
      UpdateSkyLevelsStep(w, ps[0], level);
      UpdateSkyLevelsFacts(w1, rest, level);
      UpdateSkyLevelsCombine(w, w1, UpdateSkyLevels(w1, rest, level), ps, level);
    }
  }

  /** One step of `UpdateSkyLevels`, with the rest of the list passed in. */
  lemma UpdateSkyLevelsUnfolds(w: LightWorld, ps: seq<ChunkCoords>, level: int, rest: seq<ChunkCoords>)
    requires Wf(w) && 0 <= level <= MAX_LIGHTING_LEVEL && forall i :: 0 <= i < |ps| ==> ps[i] in w.chunks
    requires |ps| > 0 && rest == ps[1..]
    ensures forall i :: 0 <= i < |rest| ==> rest[i] in SkyStep(w, ps[0], level).chunks
    ensures UpdateSkyLevels(w, ps, level) == UpdateSkyLevels(SkyStep(w, ps[0], level), rest, level)
  {
    assert forall i :: 0 <= i < |rest| ==> rest[i] == ps[i + 1];
  }

  lemma UpdateSkyLevelsNone(w: LightWorld, level: int)
    requires DirtyIffQueued(w) && 0 <= level <= MAX_LIGHTING_LEVEL
    ensures UpdateSkyLevels(w, [], level) == w && SkyLevelsUpdated(w, w, [], level)
  {
  }

  /** One chunk of `UpdateChunks`. */
  lemma UpdateSkyLevelsStep(w: LightWorld, p: ChunkCoords, level: int)
    requires DirtyIffQueued(w) && 0 <= level <= MAX_LIGHTING_LEVEL && p in w.chunks
    ensures var w1 := SkyStep(w, p, level);
      DirtyIffQueued(w1) && SkyLevelsUpdated(w, w1, [p], level)
  {
    var w1 := SkyStep(w, p, level);
    if w.chunks[p].skyLightLevel != level {
      var v := WithSkyLevel(w, p, level);
      WithSkyLevelKeepsQueue(w, p, level);
      MarkCellsFromFacts(v, p, 0);
      UpdateSkyLevelsOne(w, v, w1, p, level);
    } else {
      assert forall q :: q in [p] <==> q == p;
    }
  }

  lemma WithSkyLevelKeepsQueue(w: LightWorld, p: ChunkCoords, level: int)
    requires DirtyIffQueued(w) && p in w.chunks && 0 <= level <= MAX_LIGHTING_LEVEL
    ensures DirtyIffQueued(WithSkyLevel(w, p, level))
  {
    var v := WithSkyLevel(w, p, level);
    assert forall c :: Holds(w, c) ==> At(v, c) == At(w, c);
  }

  lemma UpdateSkyLevelsOne(w: LightWorld, v: LightWorld, w1: LightWorld, p: ChunkCoords, level: int)
    requires Wf(w) && p in w.chunks && 0 <= level <= MAX_LIGHTING_LEVEL && v == WithSkyLevel(w, p, level)
    requires OnlyDirtied(v, w1) && forall c :: Holds(v, c) && c.chunk == p && c.index >= 0 ==> IsLightingDirty(At(w1, c))
    ensures SkyLevelsUpdated(w, w1, [p], level)
  {
    assert forall q :: q in [p] <==> q == p;
    assert forall c :: Holds(w, c) ==> At(v, c) == At(w, c);
  }

  lemma UpdateSkyLevelsCombine(w: LightWorld, w1: LightWorld, r: LightWorld, ps: seq<ChunkCoords>, level: int)
    requires |ps| > 0 && SkyLevelsUpdated(w, w1, [ps[0]], level) && SkyLevelsUpdated(w1, r, ps[1..], level)
    ensures SkyLevelsUpdated(w, r, ps, level)
  {
    assert forall q :: q in ps <==> q == ps[0] || q in ps[1..] by {
      assert ps == [ps[0]] + ps[1..];
    }
    forall i | 0 <= i < |ps|
      ensures ps[i] in w.chunks
    {
      if i > 0 {
        assert ps[1..][i - 1] == ps[i];
      } else {
        assert [ps[0]][0] == ps[0];
      }
    }
    forall c | Holds(w, c)
      ensures At(r, c) == At(w, c) || At(r, c) == SetLightingDirty(At(w, c))
      ensures c.chunk in ps && w.chunks[c.chunk].skyLightLevel != level ==> IsLightingDirty(At(r, c))
    {
      SettersIdempotent(At(w, c));
      if c.chunk in ps && w.chunks[c.chunk].skyLightLevel != level && c.chunk != ps[0] {
        assert c.chunk in ps[1..];
      }
    }
  }

  // ---------------------------------------------------------------- chunk lifecycle

  /** A chunk constructed at p joins the world: default cells, sky at full light; nothing else changes. */
  function Arrive(w: LightWorld, p: ChunkCoords): (r: LightWorld)
    requires Wf(w)
    ensures Wf(r) && r.chunks.Keys == w.chunks.Keys + {p} && r.queue == w.queue
  {
    w.(chunks := w.chunks[p := ChunkLight(DefaultCells(NUM_BLOCKS_PER_CHUNK), MAX_LIGHTING_LEVEL)])
  }

  /** Chunk p populated with cells; its sky level, the other chunks and the queue are kept. */
  function WithCells(w: LightWorld, p: ChunkCoords, cells: seq<Block>): (r: LightWorld)
    requires Wf(w) && p in w.chunks && |cells| == NUM_BLOCKS_PER_CHUNK
    ensures Wf(r) && r.chunks.Keys == w.chunks.Keys && r.queue == w.queue
  {
    w.(chunks := w.chunks[p := w.chunks[p].(blocks := cells)])
  }

  /** `World::MarkChunkLightingDirty` on the chunk at q, when that is active. */
  function MarkIfActive(w: LightWorld, q: ChunkCoords): (r: LightWorld)
    requires Wf(w)
    ensures Wf(r) && r.chunks.Keys == w.chunks.Keys
  {
    if q in w.chunks then MarkCellsFrom(w, q, 0) else w
  }

  /**
   * The marking `World::UpdateNeighborPointers` does: every cell of each
   * active chunk beside p, on the north, south, west and east sides in turn.
   */
  function MarkNeighbourChunks(w: LightWorld, p: ChunkCoords): (r: LightWorld)
    requires Wf(w)
    ensures Wf(r) && r.chunks.Keys == w.chunks.Keys
  {
    var w1 := MarkIfActive(w, SideCoords(p, NorthSide));
    var w2 := MarkIfActive(w1, SideCoords(p, SouthSide));
    var w3 := MarkIfActive(w2, SideCoords(p, WestSide));
    MarkIfActive(w3, SideCoords(p, EastSide))
  }

  /**
   * The lighting of `World::CreateOrLoadChunk`: a chunk arrives at p, the
   * chunks beside it are marked, it is populated with cells, and its
   * lighting is initialised.
   */
  function Created(w: LightWorld, p: ChunkCoords, cells: seq<Block>): (r: LightWorld)
    requires Wf(w) && |cells| == NUM_BLOCKS_PER_CHUNK
    ensures Wf(r) && r.chunks.Keys == w.chunks.Keys + {p}
  {
    InitializeLighting(WithCells(MarkNeighbourChunks(Arrive(w, p), p), p, cells), p)
  }

  /** The lighting side of `World::FlushChunk`: the chunk at p leaves the world. */
  function Remove(w: LightWorld, p: ChunkCoords): (r: LightWorld)
    requires Wf(w)
    ensures Wf(r) && r.chunks.Keys == w.chunks.Keys - {p} && r.queue == w.queue
  {
    w.(chunks := w.chunks - {p})
  }

  /** No queued cell lies in chunk p. */
  ghost predicate QueueAvoids(w: LightWorld, p: ChunkCoords)
  {
    forall i :: 0 <= i < |w.queue| ==> w.queue[i].chunk != p
  }

  /** Every cell of chunk q is dirty and queued. */
  ghost predicate ChunkDirty(w: LightWorld, q: ChunkCoords)
  {
    Wf(w) && forall c :: Holds(w, c) && c.chunk == q ==> IsLightingDirty(At(w, c)) && c in w.queue
  }

  /** r is w except inside chunk p: same chunks, sky levels and queue, and every cell elsewhere kept. */
  ghost predicate SameOutside(w: LightWorld, r: LightWorld, p: ChunkCoords)
  {
    && Wf(w) && Wf(r) && r.chunks.Keys == w.chunks.Keys && r.queue == w.queue
    && (forall q :: q in w.chunks ==> r.chunks[q].skyLightLevel == w.chunks[q].skyLightLevel)
    && (forall c :: Holds(w, c) && c.chunk != p ==> At(r, c) == At(w, c))
  }

  /** A new chunk holds no dirty cell and no queued one, so the invariant holds with it. */
  lemma ArriveKeepsQueue(w: LightWorld, p: ChunkCoords)
    requires DirtyIffQueued(w) && p !in w.chunks
    ensures DirtyIffQueued(Arrive(w, p)) && QueueAvoids(Arrive(w, p), p)
  {
    var r := Arrive(w, p);
    assert forall c :: Holds(w, c) ==> At(r, c) == At(w, c);
  }

  /** Removing a chunk none of whose cells is queued keeps the invariant; removing a chunk just arrived gives back the world. */
  lemma RemoveKeepsQueue(w: LightWorld, p: ChunkCoords)
    requires DirtyIffQueued(w) && QueueAvoids(w, p)
    ensures DirtyIffQueued(Remove(w, p))
    ensures p !in w.chunks ==> Remove(Arrive(w, p), p) == w
  {
    var r := Remove(w, p);
    assert forall c :: Holds(r, c) ==> At(r, c) == At(w, c);
    if p !in w.chunks {
      assert Arrive(w, p).chunks - {p} == w.chunks;
    }
  }

  /** Populating a chunk with clean cells, when none of its cells is queued, keeps the invariant and changes nothing outside it. */
  lemma WithCellsKeepsQueue(w: LightWorld, p: ChunkCoords, cells: seq<Block>)
    requires DirtyIffQueued(w) && p in w.chunks && |cells| == NUM_BLOCKS_PER_CHUNK && QueueAvoids(w, p)
    requires forall k :: 0 <= k < NUM_BLOCKS_PER_CHUNK ==> !IsLightingDirty(cells[k])
    ensures DirtyIffQueued(WithCells(w, p, cells)) && SameOutside(w, WithCells(w, p, cells), p)
  {
    var r := WithCells(w, p, cells);
    assert forall c :: Holds(w, c) && c.chunk != p ==> At(r, c) == At(w, c);
    forall i | 0 <= i < |r.queue|
      ensures Holds(r, r.queue[i]) && IsLightingDirty(At(r, r.queue[i]))
    {
      assert r.queue[i].chunk != p;
    }
  }

  /** Marking a chunk other than p keeps every queued cell out of p. */
  lemma {:induction false} MarkCellsFromAvoids(w: LightWorld, q: ChunkCoords, k: nat, p: ChunkCoords)
    requires Wf(w) && q in w.chunks && q != p && QueueAvoids(w, p)
    ensures QueueAvoids(MarkCellsFrom(w, q, k), p)
    decreases NUM_BLOCKS_PER_CHUNK - k
  {
    if k < NUM_BLOCKS_PER_CHUNK {
      var w1 := Mark(w, Cell(q, k));
      assert QueueAvoids(w1, p) by {
        assert w1.queue == w.queue || w1.queue == w.queue + [Cell(q, k)];
      }
      MarkCellsFromAvoids(w1, q, k + 1, p);
    }
  }

  /** `MarkIfActive` keeps the invariant, dirties only, and leaves the chunk at q dirty; queued cells stay out of any other chunk. */
  lemma MarkIfActiveFacts(w: LightWorld, q: ChunkCoords, p: ChunkCoords)
    requires DirtyIffQueued(w)
    ensures var r := MarkIfActive(w, q);
      && DirtyIffQueued(r) && OnlyDirtied(w, r)
      && (q in w.chunks ==> ChunkDirty(r, q))
      && (q != p && QueueAvoids(w, p) ==> QueueAvoids(r, p))
  {
    if q in w.chunks {
      MarkCellsFromFacts(w, q, 0);
      if q != p && QueueAvoids(w, p) {
        MarkCellsFromAvoids(w, q, 0, p);
      }
    } else {
      OnlyDirtiedReflexive(w);
    }
  }

  /** Marking the cells of chunk q leaves every other chunk as it was. */
  lemma {:induction false} MarkCellsFromKeepsOthers(w: LightWorld, q: ChunkCoords, k: nat, p: ChunkCoords)
    requires Wf(w) && q in w.chunks && p in w.chunks && q != p
    ensures MarkCellsFrom(w, q, k).chunks[p] == w.chunks[p]
    decreases NUM_BLOCKS_PER_CHUNK - k
  {
    if k < NUM_BLOCKS_PER_CHUNK {
      var w1 := Mark(w, Cell(q, k));
      assert w1.chunks[p] == w.chunks[p];
      MarkCellsFromKeepsOthers(w1, q, k + 1, p);
    }
  }

  /** Marking the chunks beside p leaves the chunk at p as it was. */
  lemma MarkNeighbourChunksKeeps(w: LightWorld, p: ChunkCoords)
    requires Wf(w) && p in w.chunks
    ensures MarkNeighbourChunks(w, p).chunks[p] == w.chunks[p]
  {
    var w1 := MarkIfActive(w, SideCoords(p, NorthSide));
    var w2 := MarkIfActive(w1, SideCoords(p, SouthSide));
    var w3 := MarkIfActive(w2, SideCoords(p, WestSide));
    MarkIfActiveKeepsOthers(w, SideCoords(p, NorthSide), p);
    MarkIfActiveKeepsOthers(w1, SideCoords(p, SouthSide), p);
    MarkIfActiveKeepsOthers(w2, SideCoords(p, WestSide), p);
    MarkIfActiveKeepsOthers(w3, SideCoords(p, EastSide), p);
  }

  lemma MarkIfActiveKeepsOthers(w: LightWorld, q: ChunkCoords, p: ChunkCoords)
    requires Wf(w) && p in w.chunks && q != p
    ensures MarkIfActive(w, q).chunks[p] == w.chunks[p]
  {
    if q in w.chunks {
      MarkCellsFromKeepsOthers(w, q, 0, p);
    }
  }

  /** A chunk all of whose cells are dirty stays so when only dirty bits are set and the invariant holds. */
  lemma ChunkDirtyKept(w: LightWorld, r: LightWorld, q: ChunkCoords)
    requires ChunkDirty(w, q) && OnlyDirtied(w, r) && DirtyIffQueued(r)
    ensures ChunkDirty(r, q)
  {
    forall c | Holds(r, c) && c.chunk == q
      ensures IsLightingDirty(At(r, c)) && c in r.queue
    {
      OnlyDirtiedKeeps(w, r, c);
    }
  }

  /** r is w with chunks other than p marked: the invariant holds, only dirty bits were set, and queued cells stay out of p. */
  ghost predicate MarkedApartFrom(w: LightWorld, r: LightWorld, p: ChunkCoords)
  {
    DirtyIffQueued(r) && OnlyDirtied(w, r) && QueueAvoids(r, p)
  }

  lemma MarkedApartFromTransitive(u: LightWorld, v: LightWorld, w: LightWorld, p: ChunkCoords)
    requires MarkedApartFrom(u, v, p) && MarkedApartFrom(v, w, p)
    ensures MarkedApartFrom(u, w, p)
  {
    OnlyDirtiedTransitive(u, v, w);
  }

  lemma MarkOneSide(w: LightWorld, p: ChunkCoords, a: ChunkCoords)
    requires DirtyIffQueued(w) && QueueAvoids(w, p) && a != p
    ensures MarkedApartFrom(w, MarkIfActive(w, a), p) && (a in w.chunks ==> ChunkDirty(MarkIfActive(w, a), a))
  {
    MarkIfActiveFacts(w, a, p);
  }

  /** Marking the chunks at a, then b, both other than p. */
  lemma MarkTwoSides(w: LightWorld, p: ChunkCoords, a: ChunkCoords, b: ChunkCoords)
    requires DirtyIffQueued(w) && QueueAvoids(w, p) && a != p && b != p
    ensures var r := MarkIfActive(MarkIfActive(w, a), b);
      MarkedApartFrom(w, r, p) && (a in w.chunks ==> ChunkDirty(r, a)) && (b in w.chunks ==> ChunkDirty(r, b))
  {
    var w1 := MarkIfActive(w, a);
    MarkOneSide(w, p, a);
    var r := MarkIfActive(w1, b);
    MarkOneSide(w1, p, b);
    MarkedApartFromTransitive(w, w1, r, p);
    if a in w.chunks {
      ChunkDirtyKept(w1, r, a);
    }
  }

  /**
   * Marking the chunks beside p keeps the invariant and dirties only;
   * afterwards every cell of each active chunk beside p is dirty and
   * queued, and queued cells stay out of p.
   */
  lemma MarkNeighbourChunksFacts(w: LightWorld, p: ChunkCoords)
    requires DirtyIffQueued(w) && QueueAvoids(w, p)
    ensures var r := MarkNeighbourChunks(w, p);
      MarkedApartFrom(w, r, p) && forall s :: SideCoords(p, s) in w.chunks ==> ChunkDirty(r, SideCoords(p, s))
  {
    var n, so, we, ea := SideCoords(p, NorthSide), SideCoords(p, SouthSide), SideCoords(p, WestSide), SideCoords(p, EastSide);
    var w2 := MarkIfActive(MarkIfActive(w, n), so);
    MarkTwoSides(w, p, n, so);
    var r := MarkIfActive(MarkIfActive(w2, we), ea);
    assert r == MarkNeighbourChunks(w, p);
    MarkTwoSides(w2, p, we, ea);
    MarkedApartFromTransitive(w, w2, r, p);
    if n in w.chunks {
      ChunkDirtyKept(w2, r, n);
    }
    if so in w.chunks {
      ChunkDirtyKept(w2, r, so);
    }
    forall s | SideCoords(p, s) in w.chunks
      ensures ChunkDirty(r, SideCoords(p, s))
    {
      match s {
        case NorthSide =>
        case SouthSide =>
        case WestSide =>
        case EastSide =>
      }
    }
  }

  /** The same chunks at the same sky levels. */
  ghost predicate SameSkyLevels(w: LightWorld, r: LightWorld)
  {
    r.chunks.Keys == w.chunks.Keys && forall q :: q in w.chunks ==> r.chunks[q].skyLightLevel == w.chunks[q].skyLightLevel
  }

  /** Pass 1 in one column keeps every sky level. */
  lemma {:induction false} SkyDownFromKeepsLevels(w: LightWorld, p: ChunkCoords, col: ChunkColumnIndex, z: int)
    requires Wf(w) && p in w.chunks && col < NUM_COLUMNS_PER_CHUNK && z < CHUNK_Z_HEIGHT_IN_BLOCKS
    ensures SameSkyLevels(w, SkyDownFrom(w, p, col, z))
    decreases if z < 0 then 0 else z + 1
  {
    if z >= 0 {
      var c := Cell(p, ColumnCell(col, z));
      if !IsOpaque(At(w, c)) {
        var w1 := Put(w, c, SkyLit(At(w, c)));
        SkyDownFromKeepsLevels(w1, p, col, z - 1);
        assert SameSkyLevels(w, w1);
      }
    }
  }

  /** Pass 1 over the columns from col on keeps every sky level. */
  lemma {:induction false} SkyColumnsFromKeepsLevels(w: LightWorld, p: ChunkCoords, col: nat)
    requires Wf(w) && p in w.chunks
    ensures SameSkyLevels(w, SkyColumnsFrom(w, p, col))
    decreases NUM_COLUMNS_PER_CHUNK - col
  {
    if col < NUM_COLUMNS_PER_CHUNK {
      var next := col + 1;
      var w1 := SkyDownFrom(w, p, col, CHUNK_Z_HEIGHT_IN_BLOCKS - 1);
      SkyColumnsFromUnfolds(w, p, col, next);
      SkyDownFromKeepsLevels(w, p, col, CHUNK_Z_HEIGHT_IN_BLOCKS - 1);
      SkyColumnsFromKeepsLevels(w1, p, next);
    }
  }

  /** Initialising chunk p changes the other chunks by dirty bits only. */
  lemma InitializeLightingOutside(w: LightWorld, p: ChunkCoords)
    requires DirtyIffQueued(w) && p in w.chunks
    ensures var r := InitializeLighting(w, p);
      && DirtyIffQueued(r) && OnlyDirtied(Remove(w, p), Remove(r, p))
      && forall q :: q in w.chunks && q != p && ChunkDirty(w, q) ==> ChunkDirty(r, q)
  {
    var w1 := SkyColumnsFrom(w, p, 0);
    InitializeLightingPasses(w, p);
    SkyColumnsSameOutside(w, p, 0);
    OutsideThenDirtied(w, w1, InitializeLighting(w, p), p);
  }

  /** Pass 1 of the initialisation touches chunk p only. */
  lemma SkyColumnsSameOutside(w: LightWorld, p: ChunkCoords, col: nat)
    requires DirtyIffQueued(w) && p in w.chunks
    ensures SameOutside(w, SkyColumnsFrom(w, p, col), p)
  {
    var w1 := SkyColumnsFrom(w, p, col);
    SkyColumnsFromFacts(w, p, col);
    SkyColumnsFromKeepsLevels(w, p, col);
    forall c | Holds(w, c) && c.chunk != p
      ensures At(w1, c) == At(w, c)
    {
      assert !FromColumn(c, p, col);
    }
  }

  /** A change inside chunk p followed by dirty bits changes the other chunks by dirty bits only. */
  lemma OutsideThenDirtied(w: LightWorld, w1: LightWorld, r: LightWorld, p: ChunkCoords)
    requires SameOutside(w, w1, p) && OnlyDirtied(w1, r) && DirtyIffQueued(r)
    ensures OnlyDirtied(Remove(w, p), Remove(r, p))
    ensures forall q :: q in w.chunks && q != p && ChunkDirty(w, q) ==> ChunkDirty(r, q)
  {
    SameOutsideRemove(w, w1, p);
    OnlyDirtiedRemove(w1, r, p);
    OnlyDirtiedTransitive(Remove(w, p), Remove(w1, p), Remove(r, p));
    forall q | q in w.chunks && q != p && ChunkDirty(w, q)
      ensures ChunkDirty(r, q)
    {
      SameOutsideChunkDirty(w, w1, p, q);
      ChunkDirtyKept(w1, r, q);
    }
  }

  lemma SameOutsideRemove(w: LightWorld, r: LightWorld, p: ChunkCoords)
    requires SameOutside(w, r, p)
    ensures OnlyDirtied(Remove(w, p), Remove(r, p))
  {
    forall c | Holds(Remove(w, p), c)
      ensures At(Remove(r, p), c) == At(Remove(w, p), c)
    {
      assert c.chunk != p && Holds(w, c);
    }
  }

  lemma OnlyDirtiedRemove(w: LightWorld, r: LightWorld, p: ChunkCoords)
    requires OnlyDirtied(w, r)
    ensures OnlyDirtied(Remove(w, p), Remove(r, p))
  {
    forall c | Holds(Remove(w, p), c)
      ensures At(Remove(r, p), c) == At(r, c) && At(Remove(w, p), c) == At(w, c)
    {
      assert Holds(w, c);
    }
  }

  lemma SameOutsideChunkDirty(w: LightWorld, r: LightWorld, p: ChunkCoords, q: ChunkCoords)
    requires SameOutside(w, r, p) && q != p && ChunkDirty(w, q)
    ensures ChunkDirty(r, q)
  {
    forall c | Holds(r, c) && c.chunk == q
      ensures IsLightingDirty(At(r, c)) && c in r.queue
    {
      assert At(r, c) == At(w, c);
    }
  }

  /**
   * Creating a chunk at p with clean cells keeps the invariant; afterwards
   * the chunk holds those cells' types, every cell of each active chunk
   * beside it is dirty and queued, and the rest of the world has changed
   * by dirty bits and a longer queue only: removing the chunk again gives
   * back the world before up to dirty bits.
   */
  lemma CreatedFacts(w: LightWorld, p: ChunkCoords, cells: seq<Block>)
    requires DirtyIffQueued(w) && p !in w.chunks && |cells| == NUM_BLOCKS_PER_CHUNK
    requires forall k :: 0 <= k < NUM_BLOCKS_PER_CHUNK ==> !IsLightingDirty(cells[k])
    ensures var r := Created(w, p, cells);
      && DirtyIffQueued(r) && OnlyDirtied(w, Remove(r, p))
      && (forall k :: 0 <= k < NUM_BLOCKS_PER_CHUNK ==> r.chunks[p].blocks[k].blockType == cells[k].blockType)
      && forall s :: SideCoords(p, s) in w.chunks ==> ChunkDirty(r, SideCoords(p, s))
  {
    var w1 := MarkNeighbourChunks(Arrive(w, p), p);
    CreatedStart(w, p);
    CreatedFinish(w, w1, p, cells);
    WithCellsKeepsQueue(w1, p, cells);
    InitializeLightingKeepsTypes(WithCells(w1, p, cells), p);
  }

  /** After arrival and marking the chunks beside it, chunk p still holds default cells and none of them is queued. */
  lemma LinkedArrivalFacts(w: LightWorld, p: ChunkCoords)
    requires DirtyIffQueued(w) && p !in w.chunks
    ensures var w1 := MarkNeighbourChunks(Arrive(w, p), p);
      QueueAvoids(w1, p) && w1.chunks[p].blocks == DefaultCells(NUM_BLOCKS_PER_CHUNK)
  {
    ArriveKeepsQueue(w, p);
    MarkNeighbourChunksFacts(Arrive(w, p), p);
    MarkNeighbourChunksKeeps(Arrive(w, p), p);
  }

  /** Arrival and marking the chunks beside it: the world outside p changed by dirty bits only. */
  lemma CreatedStart(w: LightWorld, p: ChunkCoords)
    requires DirtyIffQueued(w) && p !in w.chunks
    ensures var w1 := MarkNeighbourChunks(Arrive(w, p), p);
      && MarkedApartFrom(Arrive(w, p), w1, p) && OnlyDirtied(w, Remove(w1, p))
      && forall s :: SideCoords(p, s) in w.chunks ==> ChunkDirty(w1, SideCoords(p, s))
  {
    var w0 := Arrive(w, p);
    ArriveKeepsQueue(w, p);
    MarkNeighbourChunksFacts(w0, p);
    RemoveKeepsQueue(w, p);
    OnlyDirtiedRemove(w0, MarkNeighbourChunks(w0, p), p);
  }

  /** Populating and initialising chunk p: the world outside p changes by dirty bits only, and fully dirty chunks stay so. */
  lemma CreatedFinish(w: LightWorld, w1: LightWorld, p: ChunkCoords, cells: seq<Block>)
    requires DirtyIffQueued(w1) && QueueAvoids(w1, p) && p in w1.chunks && OnlyDirtied(w, Remove(w1, p))
    requires |cells| == NUM_BLOCKS_PER_CHUNK && forall k :: 0 <= k < NUM_BLOCKS_PER_CHUNK ==> !IsLightingDirty(cells[k])
    ensures var r := InitializeLighting(WithCells(w1, p, cells), p);
      && DirtyIffQueued(r) && OnlyDirtied(w, Remove(r, p))
      && forall q :: q in w1.chunks && q != p && ChunkDirty(w1, q) ==> ChunkDirty(r, q)
  {
    var w2 := WithCells(w1, p, cells);
    WithCellsKeepsQueue(w1, p, cells);
    var r := InitializeLighting(w2, p);
    InitializeLightingOutside(w2, p);
    SameOutsideRemove(w1, w2, p);
    OnlyDirtiedTransitive(w, Remove(w1, p), Remove(w2, p));
    OnlyDirtiedTransitive(w, Remove(w2, p), Remove(r, p));
    forall q | q in w1.chunks && q != p && ChunkDirty(w1, q)
      ensures ChunkDirty(r, q)
    {
      SameOutsideChunkDirty(w1, w2, p, q);
    }
  }

  /** Initialising a chunk's lighting keeps the types it was populated with. */
  lemma InitializeLightingKeepsTypes(w: LightWorld, p: ChunkCoords)
    requires DirtyIffQueued(w) && p in w.chunks
    ensures var r := InitializeLighting(w, p);
      forall k :: 0 <= k < NUM_BLOCKS_PER_CHUNK ==> r.chunks[p].blocks[k].blockType == w.chunks[p].blocks[k].blockType
  {
    var r := InitializeLighting(w, p);
    InitializeLightingCells(w, p);
    forall k | 0 <= k < NUM_BLOCKS_PER_CHUNK
      ensures r.chunks[p].blocks[k].blockType == w.chunks[p].blocks[k].blockType
    {
      var c := Cell(p, k);
      assert Holds(w, c);
      assert At(r, c).blockType == At(w, c).blockType;
    }
  }
}
