/**
 * The world of active chunks: a map from chunk coordinates to chunks,
 * the neighbour pointers that tie adjacent chunks together, and the
 * deque of lighting-dirty blocks.  `State()` reads the chunks and the
 * deque as a `Lighting.LightWorld`; each lighting method of `World` is
 * proved to leave `State()` equal to the matching function of module
 * `Lighting` applied to the state before the call.
 */
module Worlds {

  import opened GameCommon
  import opened IntVectors
  import opened Blocks
  import opened Chunks
  import opened Optional
  import Lighting
  import BlockDefinitions
  import Rle
  import Bits

  /** The lighting model's name for the block a cursor points at. */
  function CellOf(bi: BlockInfo): Lighting.Cell
    requires bi.chunk != null
  {
    Lighting.Cell(bi.chunk.chunkPosition, bi.index)
  }

  function CellsOf(q: seq<BlockInfo>): (cs: seq<Lighting.Cell>)
    requires forall i :: 0 <= i < |q| ==> q[i].chunk != null
    ensures |cs| == |q| && forall i :: 0 <= i < |q| ==> cs[i] == CellOf(q[i])
  {
    seq(|q|, i requires 0 <= i < |q| && q[i].chunk != null => CellOf(q[i]))
  }

  /** The active chunk at q, or null. */
  function Lookup(m: map<ChunkCoords, Chunk>, q: ChunkCoords): (c: Chunk?)
    ensures c != null <==> q in m
    ensures q in m ==> c == m[q]
  {
    if q in m then m[q] else null
  }

  /** The neighbours a chunk at p links to: north at +x, east at -y, west at +y, south at -x. */
  function NeighboursIn(m: map<ChunkCoords, Chunk>, p: ChunkCoords): Neighbours
  {
    Neighbours(Lookup(m, IntVector2(p.x + 1, p.y)), Lookup(m, IntVector2(p.x, p.y - 1)),
               Lookup(m, IntVector2(p.x, p.y + 1)), Lookup(m, IntVector2(p.x - 1, p.y)))
  }

  /** Every chunk of the map sits at its own key. */
  ghost predicate Positioned(m: map<ChunkCoords, Chunk>)
  {
    forall q :: q in m ==> m[q].chunkPosition == q
  }

  /** The cursor names a cell of an active chunk. */
  ghost predicate ActiveIn(m: map<ChunkCoords, Chunk>, bi: BlockInfo)
  {
    bi.chunk != null && bi.chunk.chunkPosition in m && m[bi.chunk.chunkPosition] == bi.chunk && bi.index < NUM_BLOCKS_PER_CHUNK
  }

  /** A step leaving the chunk follows the pointer to the chunk `Lighting.Across` names. */
  lemma NeighbourIsAcross(m: map<ChunkCoords, Chunk>, p: ChunkCoords, d: StepDirection)
    ensures d != Up && d != Down ==> NeighbourFor(d, NeighboursIn(m, p)) == Lookup(m, Lighting.Across(p, d))
    ensures d == Up || d == Down ==> NeighbourFor(d, NeighboursIn(m, p)) == null
  {
  }

  /**
   * With every chunk linked to the chunks at its neighbouring coordinates,
   * a `BlockInfo` step is the lighting model's step on coordinates: it
   * lands on an active chunk, on the cell `Lighting.Step` names.
   */
  lemma StepAgrees(m: map<ChunkCoords, Chunk>, d: StepDirection, bi: BlockInfo)
    requires Positioned(m) && ActiveIn(m, bi)
    ensures var r := StepBy(d, bi, NeighboursIn(m, bi.chunk.chunkPosition));
      ActiveIn(m, r.cursor) && CellOf(r.cursor) == Lighting.Step(m.Keys, d, CellOf(bi))
  {
    var p := bi.chunk.chunkPosition;
    var nb := NeighboursIn(m, p);
    var r := StepBy(d, bi, nb);
    var c := CellOf(bi);
    var lbc := Coords(bi.index);
    StepGeometry(d, bi, nb);
    NeighbourIsAcross(m, p, d);
    if !Lighting.Blocked(m.Keys, d, c) {
      var v := Wrapped(Add3(lbc, Offset(d)));
      WrapBack(d, lbc);
      CellAt(v);
      var s := Lighting.Step(m.Keys, d, c);
      assert r.stepped;
      assert Coords(r.cursor.index) == v == Coords(s.index);
      CoordsInjective(r.cursor.index, s.index);
    }
  }

  function ArraysOf(m: map<ChunkCoords, Chunk>): set<array<Block>>
  {
    set c | c in m.Values :: c.blocks
  }

  /** Each chunk's cells and sky level. */
  ghost function LightChunks(m: map<ChunkCoords, Chunk>): (r: map<ChunkCoords, Lighting.ChunkLight>)
    reads m.Values`currentSkyLightLevel, ArraysOf(m)
    ensures r.Keys == m.Keys
  {
    map p | p in m :: Lighting.ChunkLight(m[p].blocks[..], m[p].currentSkyLightLevel)
  }

  /**
   * Each chunk is well formed, sits at its key in the given dimension with
   * a sky level in [0, 15], and owns its block array.
   */
  ghost predicate ChunksWf(m: map<ChunkCoords, Chunk>, dimension: Dimension)
    reads m.Values`currentSkyLightLevel
  {
    && Positioned(m)
    && (forall p :: p in m ==>
          m[p].Wf() && m[p].chunkDimension == dimension && 0 <= m[p].currentSkyLightLevel <= MAX_LIGHTING_LEVEL)
    && (forall p, q :: p in m && q in m && p != q ==> m[p].blocks != m[q].blocks)
  }

  /** Every queued cursor points into an active chunk. */
  ghost predicate QueueIn(m: map<ChunkCoords, Chunk>, q: seq<BlockInfo>)
  {
    forall i :: 0 <= i < |q| ==> ActiveIn(m, q[i])
  }

  /** Every neighbour pointer is the chunk at the neighbouring coordinates when that is active, and null otherwise. */
  ghost predicate LinkedIn(m: map<ChunkCoords, Chunk>)
    reads m.Values`northNeighbor, m.Values`eastNeighbor, m.Values`westNeighbor, m.Values`southNeighbor
  {
    forall p {:trigger m[p].GetNeighbours()} :: p in m ==> m[p].GetNeighbours() == NeighboursIn(m, p)
  }

  lemma CellsOfSnoc(q: seq<BlockInfo>, bi: BlockInfo)
    requires forall i :: 0 <= i < |q| ==> q[i].chunk != null
    requires bi.chunk != null
    ensures CellsOf(q + [bi]) == CellsOf(q) + [CellOf(bi)]
  {
  }

  lemma MarkedKeepsQueue(w: Lighting.LightWorld, c: Lighting.Cell)
    requires Lighting.DirtyIffQueued(w) && Lighting.Holds(w, c)
    ensures Lighting.DirtyIffQueued(Lighting.Mark(w, c))
  {
    Lighting.MarkKeepsQueue(w, c);
  }

  /** `StepDown` on an active cursor is the lighting model's step down. */
  lemma StepDownAgrees(m: map<ChunkCoords, Chunk>, bi: BlockInfo)
    requires Positioned(m) && ActiveIn(m, bi)
    ensures ActiveIn(m, StepDown(bi).cursor)
    ensures CellOf(StepDown(bi).cursor) == if bi.index < NUM_COLUMNS_PER_CHUNK then CellOf(bi) else Lighting.Below(CellOf(bi))
  {
    StepAgrees(m, Down, bi);
    Lighting.StepDownIsBelow(m.Keys, CellOf(bi));
  }

  /** `StepUp` on an active cursor is the lighting model's step up. */
  lemma StepUpAgrees(m: map<ChunkCoords, Chunk>, bi: BlockInfo)
    requires Positioned(m) && ActiveIn(m, bi)
    ensures ActiveIn(m, StepUp(bi).cursor) && CellOf(StepUp(bi).cursor) == Lighting.Step(m.Keys, Up, CellOf(bi))
  {
    StepAgrees(m, Up, bi);
  }

  /** order lists every key of keys once, in ascending `IntVector2::operator<` order: how a `std::map` walks its keys. */
  ghost predicate InKeyOrder(keys: set<ChunkCoords>, order: seq<ChunkCoords>)
  {
    && (forall j :: 0 <= j < |order| ==> order[j] in keys)
    && (forall q :: q in keys ==> q in order)
    && (forall j, k :: 0 <= j < k < |order| ==> IntVectors.Less(order[j], order[k]))
  }

  /** `chunk->m_<side>Neighbor = v`. */
  method Wire(c: Chunk, s: Side, v: Chunk?)
    modifies c`northNeighbor, c`eastNeighbor, c`westNeighbor, c`southNeighbor
    ensures c.GetNeighbours() == WithSide(old(c.GetNeighbours()), s, v)
  {
    match s
    case NorthSide => c.northNeighbor := v;
    case SouthSide => c.southNeighbor := v;
    case WestSide => c.westNeighbor := v;
    case EastSide => c.eastNeighbor := v;
  }

  /** The neighbour pointers of every active chunk. */
  ghost function LinksOf(m: map<ChunkCoords, Chunk>): (links: map<ChunkCoords, Neighbours>)
    reads m.Values`northNeighbor, m.Values`eastNeighbor, m.Values`westNeighbor, m.Values`southNeighbor
    ensures links.Keys == m.Keys
  {
    map q | q in m :: m[q].GetNeighbours()
  }

  /** Whether each active chunk's mesh is dirty. */
  ghost function MeshesOf(m: map<ChunkCoords, Chunk>): (meshes: map<ChunkCoords, bool>)
    reads m.Values`isVertexArrayDirty
    ensures meshes.Keys == m.Keys
  {
    map q | q in m :: m[q].isVertexArrayDirty
  }

  /** A step that changes no chunk object keeps the pointers and the mesh flags. */
  twostate lemma ChunkFieldsKept(m: map<ChunkCoords, Chunk>)
    requires old(allocated(m)) && unchanged(m.Values)
    ensures LinksOf(m) == old(LinksOf(m)) && MeshesOf(m) == old(MeshesOf(m))
  {
    forall q | q in m
      ensures LinksOf(m)[q] == old(LinksOf(m))[q] && MeshesOf(m)[q] == old(MeshesOf(m))[q]
    {
      assert m[q] in m.Values;
    }
  }

  /** A step that changes no chunk object and no block array keeps every chunk's cells and sky level. */
  twostate lemma LightChunksKept(m: map<ChunkCoords, Chunk>)
    requires old(allocated(m)) && unchanged(m.Values) && unchanged(ArraysOf(m))
    ensures LightChunks(m) == old(LightChunks(m))
  {
    forall q | q in m
      ensures LightChunks(m)[q] == old(LightChunks(m))[q]
    {
      assert m[q] in m.Values && m[q].blocks in ArraysOf(m);
    }
  }

  /** The pointers `LinkedIn` asks for: each chunk points at the active chunks beside it. */
  function LinkedLinks(m: map<ChunkCoords, Chunk>): (links: map<ChunkCoords, Neighbours>)
    ensures links.Keys == m.Keys
  {
    map q | q in m :: NeighboursIn(m, q)
  }

  /**
   * The pointers just after a chunk has been inserted at p: it points
   * nowhere yet, and every other chunk is linked as if p were not active.
   */
  function LinksBeforeWiring(m: map<ChunkCoords, Chunk>, p: ChunkCoords): (links: map<ChunkCoords, Neighbours>)
    ensures links.Keys == m.Keys
  {
    map q | q in m :: if q == p then NO_NEIGHBOURS else NeighboursIn(m - {p}, q)
  }

  /**
   * One side of `UpdateNeighborPointers` on the pointers: the chunk at p
   * points on side s at the chunk there, or at null when none is active
   * there, and that chunk points back at it.
   */
  function LinkSideOf(links: map<ChunkCoords, Neighbours>, m: map<ChunkCoords, Chunk>, p: ChunkCoords, s: Side): (r: map<ChunkCoords, Neighbours>)
    requires p in links && links.Keys == m.Keys
    ensures r.Keys == links.Keys
  {
    var t := SideCoords(p, s);
    var l1 := links[p := WithSide(links[p], s, Lookup(m, t))];
    if t in m then l1[t := WithSide(l1[t], OppositeSide(s), m[p])] else l1
  }

  /** One side of `NullifyNeighborPointers`: the chunk on side s of p, when active, stops pointing back at p. */
  function UnlinkSideOf(links: map<ChunkCoords, Neighbours>, m: map<ChunkCoords, Chunk>, p: ChunkCoords, s: Side): (r: map<ChunkCoords, Neighbours>)
    requires links.Keys == m.Keys
    ensures r.Keys == links.Keys
  {
    var t := SideCoords(p, s);
    if t in m then links[t := WithSide(links[t], OppositeSide(s), null)] else links
  }

  /** The four sides of `UpdateNeighborPointers`, in its order: north, south, west, east. */
  function LinkAllSides(links: map<ChunkCoords, Neighbours>, m: map<ChunkCoords, Chunk>, p: ChunkCoords): (r: map<ChunkCoords, Neighbours>)
    requires p in links && links.Keys == m.Keys
    ensures r.Keys == links.Keys
  {
    var l1 := LinkSideOf(links, m, p, NorthSide);
    var l2 := LinkSideOf(l1, m, p, SouthSide);
    var l3 := LinkSideOf(l2, m, p, WestSide);
    LinkSideOf(l3, m, p, EastSide)
  }

  /** The four sides of `NullifyNeighborPointers`, in the same order. */
  function UnlinkAllSides(links: map<ChunkCoords, Neighbours>, m: map<ChunkCoords, Chunk>, p: ChunkCoords): (r: map<ChunkCoords, Neighbours>)
    requires links.Keys == m.Keys
    ensures r.Keys == links.Keys
  {
    var l1 := UnlinkSideOf(links, m, p, NorthSide);
    var l2 := UnlinkSideOf(l1, m, p, SouthSide);
    var l3 := UnlinkSideOf(l2, m, p, WestSide);
    UnlinkSideOf(l3, m, p, EastSide)
  }

  lemma SideOfNeighboursIn(m: map<ChunkCoords, Chunk>, q: ChunkCoords, s: Side)
    ensures SideOf(NeighboursIn(m, q), s) == Lookup(m, SideCoords(q, s))
  {
  }

  /** Pointers agreeing on every side are equal. */
  lemma NeighboursBySides(a: Neighbours, b: Neighbours)
    requires forall s :: SideOf(a, s) == SideOf(b, s)
    ensures a == b
  {
    assert SideOf(a, NorthSide) == SideOf(b, NorthSide) && SideOf(a, SouthSide) == SideOf(b, SouthSide);
    assert SideOf(a, WestSide) == SideOf(b, WestSide) && SideOf(a, EastSide) == SideOf(b, EastSide);
  }

  /** The chunk at q is on side s' of p exactly when p is on the opposite side of q. */
  lemma FacingSides(p: ChunkCoords, s: Side, q: ChunkCoords, s': Side)
    ensures (q == SideCoords(p, s) && s' == OppositeSide(s)) <==> (SideCoords(q, s') == p && s == OppositeSide(s'))
  {
  }

  /** Side s' of chunk q after wiring side s of p. */
  lemma LinkSideOfAt(links: map<ChunkCoords, Neighbours>, m: map<ChunkCoords, Chunk>, p: ChunkCoords, s: Side, q: ChunkCoords, s': Side)
    requires p in links && links.Keys == m.Keys && q in links
    ensures SideOf(LinkSideOf(links, m, p, s)[q], s') ==
      if q == p && s' == s then Lookup(m, SideCoords(p, s))
      else if SideCoords(q, s') == p && s == OppositeSide(s') then m[p]
      else SideOf(links[q], s')
  {
    FacingSides(p, s, q, s');
    assert SideCoords(p, s) != p;
  }

  /** Side s' of chunk q after unwiring side s of p. */
  lemma UnlinkSideOfAt(links: map<ChunkCoords, Neighbours>, m: map<ChunkCoords, Chunk>, p: ChunkCoords, s: Side, q: ChunkCoords, s': Side)
    requires links.Keys == m.Keys && q in links
    ensures SideOf(UnlinkSideOf(links, m, p, s)[q], s') ==
      if SideCoords(q, s') == p && s == OppositeSide(s') then null else SideOf(links[q], s')
  {
    FacingSides(p, s, q, s');
  }

  /** The north and south coordinates as `UpdateNeighborPointers` computes them. */
  lemma CoordsBeside(p: ChunkCoords, north: ChunkCoords, south: ChunkCoords)
    requires north == IntVector2(p.x + 1, p.y) && south == north.(x := north.x - 2)
    ensures north == SideCoords(p, NorthSide) && south == SideCoords(p, SouthSide)
  {
  }

  /** The west and east coordinates as `UpdateNeighborPointers` steps to them from the south one. */
  lemma CoordsAround(p: ChunkCoords, west: ChunkCoords, east: ChunkCoords)
    requires west == IntVector2(p.x - 1, p.y).(x := p.x - 1 + 1, y := p.y + 1) && east == west.(y := west.y - 2)
    ensures west == SideCoords(p, WestSide) && east == SideCoords(p, EastSide)
  {
  }

  /** Wiring the four sides of a chunk just inserted at p links every active chunk. */
  lemma WiringLinks(m: map<ChunkCoords, Chunk>, p: ChunkCoords)
    requires p in m
    ensures LinkAllSides(LinksBeforeWiring(m, p), m, p) == LinkedLinks(m)
  {
    forall q | q in m
      ensures LinkAllSides(LinksBeforeWiring(m, p), m, p)[q] == NeighboursIn(m, q)
    {
      WiredChunk(m, p, q);
    }
  }

  /** Chunk q once the chunk at p has been wired: it points at the active chunks beside it. */
  lemma WiredChunk(m: map<ChunkCoords, Chunk>, p: ChunkCoords, q: ChunkCoords)
    requires p in m && q in m
    ensures LinkAllSides(LinksBeforeWiring(m, p), m, p)[q] == NeighboursIn(m, q)
  {
    var n := LinkAllSides(LinksBeforeWiring(m, p), m, p)[q];
    forall s' | true
      ensures SideOf(n, s') == SideOf(NeighboursIn(m, q), s')
    {
      WiredSide(m, p, q, s');
    }
    NeighboursBySides(n, NeighboursIn(m, q));
  }

  /** Side s' of chunk q once the chunk at p has been wired: the active chunk there, or null. */
  lemma WiredSide(m: map<ChunkCoords, Chunk>, p: ChunkCoords, q: ChunkCoords, s': Side)
    requires p in m && q in m
    ensures SideOf(LinkAllSides(LinksBeforeWiring(m, p), m, p)[q], s') == Lookup(m, SideCoords(q, s'))
  {
    if q == p {
      WiredSideOfNew(m, p, s');
    } else if SideCoords(q, s') == p {
      WiredSideFacing(m, p, q, s');
    } else {
      WiredSideElsewhere(m, p, q, s');
    }
  }

  lemma WiredSideOfNew(m: map<ChunkCoords, Chunk>, p: ChunkCoords, s': Side)
    requires p in m
    ensures SideOf(LinkAllSides(LinksBeforeWiring(m, p), m, p)[p], s') == Lookup(m, SideCoords(p, s'))
  {
    var l0 := LinksBeforeWiring(m, p);
    var l1 := LinkSideOf(l0, m, p, NorthSide);
    var l2 := LinkSideOf(l1, m, p, SouthSide);
    var l3 := LinkSideOf(l2, m, p, WestSide);
    LinkSideOfAt(l0, m, p, NorthSide, p, s');
    LinkSideOfAt(l1, m, p, SouthSide, p, s');
    LinkSideOfAt(l2, m, p, WestSide, p, s');
    LinkSideOfAt(l3, m, p, EastSide, p, s');
    assert SideOf(l0[p], s') == null;
    assert SideCoords(p, s') != p;
  }

  lemma WiredSideFacing(m: map<ChunkCoords, Chunk>, p: ChunkCoords, q: ChunkCoords, s': Side)
    requires p in m && q in m && q != p && SideCoords(q, s') == p
    ensures SideOf(LinkAllSides(LinksBeforeWiring(m, p), m, p)[q], s') == m[p]
  {
    var l0 := LinksBeforeWiring(m, p);
    var l1 := LinkSideOf(l0, m, p, NorthSide);
    var l2 := LinkSideOf(l1, m, p, SouthSide);
    var l3 := LinkSideOf(l2, m, p, WestSide);
    LinkSideOfAt(l0, m, p, NorthSide, q, s');
    LinkSideOfAt(l1, m, p, SouthSide, q, s');
    LinkSideOfAt(l2, m, p, WestSide, q, s');
    LinkSideOfAt(l3, m, p, EastSide, q, s');
    match s'
    case NorthSide =>
    case SouthSide =>
    case WestSide =>
    case EastSide =>
  }

  lemma WiredSideElsewhere(m: map<ChunkCoords, Chunk>, p: ChunkCoords, q: ChunkCoords, s': Side)
    requires p in m && q in m && q != p && SideCoords(q, s') != p
    ensures SideOf(LinkAllSides(LinksBeforeWiring(m, p), m, p)[q], s') == Lookup(m, SideCoords(q, s'))
  {
    var l0 := LinksBeforeWiring(m, p);
    var l1 := LinkSideOf(l0, m, p, NorthSide);
    var l2 := LinkSideOf(l1, m, p, SouthSide);
    var l3 := LinkSideOf(l2, m, p, WestSide);
    LinkSideOfKeeps(l0, m, p, NorthSide, q, s');
    LinkSideOfKeeps(l1, m, p, SouthSide, q, s');
    LinkSideOfKeeps(l2, m, p, WestSide, q, s');
    LinkSideOfKeeps(l3, m, p, EastSide, q, s');
    SideOfNeighboursIn(m - {p}, q, s');
  }

  /** Wiring side s of p leaves the sides of other chunks that do not face p. */
  lemma LinkSideOfKeeps(links: map<ChunkCoords, Neighbours>, m: map<ChunkCoords, Chunk>, p: ChunkCoords, s: Side, q: ChunkCoords, s': Side)
    requires p in links && links.Keys == m.Keys && q in links && q != p && SideCoords(q, s') != p
    ensures SideOf(LinkSideOf(links, m, p, s)[q], s') == SideOf(links[q], s')
  {
    LinkSideOfAt(links, m, p, s, q, s');
  }

  /** Unwiring the four sides of the chunk at p and dropping it links the chunks that stay. */
  lemma UnwiringLinks(m: map<ChunkCoords, Chunk>, p: ChunkCoords)
    ensures UnlinkAllSides(LinkedLinks(m), m, p) - {p} == LinkedLinks(m - {p})
  {
    var l0 := LinkedLinks(m);
    var l1 := UnlinkSideOf(l0, m, p, NorthSide);
    var l2 := UnlinkSideOf(l1, m, p, SouthSide);
    var l3 := UnlinkSideOf(l2, m, p, WestSide);
    var l4 := UnlinkSideOf(l3, m, p, EastSide);
    forall q | q in m && q != p
      ensures l4[q] == NeighboursIn(m - {p}, q)
    {
      forall s' | true
        ensures SideOf(l4[q], s') == SideOf(NeighboursIn(m - {p}, q), s')
      {
        UnlinkSideOfAt(l0, m, p, NorthSide, q, s');
        UnlinkSideOfAt(l1, m, p, SouthSide, q, s');
        UnlinkSideOfAt(l2, m, p, WestSide, q, s');
        UnlinkSideOfAt(l3, m, p, EastSide, q, s');
        SideOfNeighboursIn(m, q, s');
        SideOfNeighboursIn(m - {p}, q, s');
      }
      NeighboursBySides(l4[q], NeighboursIn(m - {p}, q));
    }
    assert (l4 - {p}).Keys == (m - {p}).Keys;
  }

  /**
   * Flushing a chunk just created undoes its wiring: the chunks that stay
   * hold the pointers they held before it arrived.
   */
  lemma UnwiringUndoesWiring(m: map<ChunkCoords, Chunk>, p: ChunkCoords)
    requires p in m
    ensures UnlinkAllSides(LinkAllSides(LinksBeforeWiring(m, p), m, p), m, p) - {p} == LinksBeforeWiring(m, p) - {p}
  {
    WiringLinks(m, p);
    UnwiringLinks(m, p);
    BeforeWiringWithout(m, p);
  }

  /** Leaving out the chunk just inserted, the pointers before wiring are the linked ones of the other chunks. */
  lemma BeforeWiringWithout(m: map<ChunkCoords, Chunk>, p: ChunkCoords)
    ensures LinksBeforeWiring(m, p) - {p} == LinkedLinks(m - {p})
  {
    var a := LinksBeforeWiring(m, p) - {p};
    var b := LinkedLinks(m - {p});
    assert a.Keys == b.Keys;
    forall q | q in a
      ensures a[q] == b[q]
    {
    }
  }

  /** `MarkVertexArrayDirty` on the chunk at q, when that is active. */
  function MeshDirtied(meshes: map<ChunkCoords, bool>, q: ChunkCoords): (r: map<ChunkCoords, bool>)
    ensures r.Keys == meshes.Keys
  {
    if q in meshes then meshes[q := true] else meshes
  }

  /** Regrouping a union: the chunks marked so far, this pass's and the rest's. */
  lemma UnionShift<T>(a: set<T>, b: set<T>, c: set<T>, g: set<T>)
    requires a + (b + c) == g
    ensures (a + b) + c == g
  {
  }

  /** The meshes `UpdateNeighborPointers` marks: the chunk on each side of p, north, south, west and east. */
  function MeshesBesideDirtied(meshes: map<ChunkCoords, bool>, p: ChunkCoords): (r: map<ChunkCoords, bool>)
    ensures r.Keys == meshes.Keys
  {
    var m1 := MeshDirtied(meshes, SideCoords(p, NorthSide));
    var m2 := MeshDirtied(m1, SideCoords(p, SouthSide));
    var m3 := MeshDirtied(m2, SideCoords(p, WestSide));
    MeshDirtied(m3, SideCoords(p, EastSide))
  }

  /** q is one of the four chunks beside p. */
  predicate Beside(p: ChunkCoords, q: ChunkCoords)
  {
    q == SideCoords(p, NorthSide) || q == SideCoords(p, SouthSide) || q == SideCoords(p, WestSide) || q == SideCoords(p, EastSide)
  }

  /** Linking a chunk at p leaves the mesh of each chunk beside it dirty and every other mesh as it was. */
  lemma MeshesBesideDirtiedAt(meshes: map<ChunkCoords, bool>, p: ChunkCoords, q: ChunkCoords)
    requires q in meshes
    ensures MeshesBesideDirtied(meshes, p)[q] == (meshes[q] || Beside(p, q))
  {
  }

  /** The new chunk's own mesh flag, set when it is built, does not change which other meshes linking it marks. */
  lemma MeshesOfCreated(meshes: map<ChunkCoords, bool>, p: ChunkCoords)
    requires p !in meshes
    ensures MeshesBesideDirtied(meshes[p := true], p)[p := false] == MeshesBesideDirtied(meshes, p)[p := false]
  {
    var l, r := MeshesBesideDirtied(meshes[p := true], p)[p := false], MeshesBesideDirtied(meshes, p)[p := false];
    forall q | q in l
      ensures l[q] == r[q]
    {
      if q != p {
        MeshesBesideDirtiedAt(meshes[p := true], p, q);
        MeshesBesideDirtiedAt(meshes, p, q);
      }
    }
  }

  /**
   * The cells `CreateOrLoadChunk` fills a new chunk with: the types a save
   * file holds decoded over fresh cells when one was read, and otherwise
   * the generated terrain.
   */
  function PopulatedCells(p: ChunkCoords, dimension: Dimension, savedChunk: Option<seq<Rle.Byte>>,
                          scaledGroundNoise: IntVector2 -> int, scaledCeilingNoise: IntVector2 -> int): (cells: seq<Block>)
    requires savedChunk.Some? ==> Rle.WellFormedRle(savedChunk.value)
    ensures |cells| == NUM_BLOCKS_PER_CHUNK
    ensures forall k :: 0 <= k < NUM_BLOCKS_PER_CHUNK ==> !IsLightingDirty(cells[k])
  {
    var cleared := DefaultCells(NUM_BLOCKS_PER_CHUNK);
    match savedChunk
    case Some(rle) => LoadedCells(cleared, Rle.DecodeTypes(rle))
    case None => GeneratedCells(cleared, p, dimension, scaledGroundNoise, scaledCeilingNoise)
  }

  /**
   * What `FlushChunk` saves, read back by `CreateOrLoadChunk`: the bytes
   * are a well-formed save, and a chunk created from them holds the
   * flushed chunk's types exactly when its last block is AIR.
   */
  lemma FlushedChunkLoads(saved: seq<Block>, p: ChunkCoords, dimension: Dimension,
                          scaledGroundNoise: IntVector2 -> int, scaledCeilingNoise: IntVector2 -> int)
    requires |saved| == NUM_BLOCKS_PER_CHUNK
    ensures Rle.WellFormedRle(Rle.EncodeAsWritten(TypesOf(saved)))
    ensures TypesOf(PopulatedCells(p, dimension, Some(Rle.EncodeAsWritten(TypesOf(saved))), scaledGroundNoise, scaledCeilingNoise)) == TypesOf(saved)
      <==> saved[NUM_BLOCKS_PER_CHUNK - 1].blockType == AIR
  {
    AsWrittenSaveLoad(saved);
  }

  /**
   * With the encoder that appends the final run, every flushed chunk
   * loads back: the bytes are a well-formed save, and a chunk created
   * from them holds the flushed chunk's types.
   */
  lemma CorrectedFlushedChunkLoads(saved: seq<Block>, p: ChunkCoords, dimension: Dimension,
                                   scaledGroundNoise: IntVector2 -> int, scaledCeilingNoise: IntVector2 -> int)
    requires |saved| == NUM_BLOCKS_PER_CHUNK
    ensures Rle.WellFormedRle(Rle.EncodeFlushed(TypesOf(saved)))
    ensures TypesOf(PopulatedCells(p, dimension, Some(Rle.EncodeFlushed(TypesOf(saved))), scaledGroundNoise, scaledCeilingNoise)) == TypesOf(saved)
  {
    SaveLoadRoundTrip(saved, DefaultCells(NUM_BLOCKS_PER_CHUNK));
  }

  /** Storing a chunk at a free position p keeps every chunk's entry and adds the new one's. */
  lemma InsertKeepsOthers(m: map<ChunkCoords, Chunk>, dimension: Dimension, q: seq<BlockInfo>, p: ChunkCoords, c: Chunk)
    requires ChunksWf(m, dimension) && QueueIn(m, q) && p !in m && c.blocks !in ArraysOf(m)
    requires c.Wf() && c.chunkPosition == p && c.chunkDimension == dimension && 0 <= c.currentSkyLightLevel <= MAX_LIGHTING_LEVEL
    ensures ChunksWf(m[p := c], dimension) && QueueIn(m[p := c], q)
    ensures LightChunks(m[p := c]) == LightChunks(m)[p := Lighting.ChunkLight(c.blocks[..], c.currentSkyLightLevel)]
  {
    var m' := m[p := c];
    assert LightChunks(m') == LightChunks(m)[p := Lighting.ChunkLight(c.blocks[..], c.currentSkyLightLevel)];
    forall i | 0 <= i < |q|
      ensures ActiveIn(m', q[i])
    {
      assert ActiveIn(m, q[i]);
    }
    forall r, r' | r in m' && r' in m' && r != r'
      ensures m'[r].blocks != m'[r'].blocks
    {
      if r == p {
        assert m[r'] in m.Values;
      } else if r' == p {
        assert m[r] in m.Values;
      }
    }
  }

  /** Storing a chunk adds at most its own block array to the map's arrays. */
  lemma ArraysOfInsert(m: map<ChunkCoords, Chunk>, p: ChunkCoords, c: Chunk)
    ensures ArraysOf(m[p := c]) <= ArraysOf(m) + {c.blocks}
  {
    forall a | a in ArraysOf(m[p := c])
      ensures a in ArraysOf(m) + {c.blocks}
    {
      var q :| q in m[p := c] && m[p := c][q].blocks == a;
      if q != p {
        assert m[q] in m.Values;
      }
    }
  }

  /** A linked map with a chunk that points nowhere stored at a free position p: the pointers are as just before wiring p. */
  lemma InsertBeforeWiring(m: map<ChunkCoords, Chunk>, p: ChunkCoords, c: Chunk)
    requires LinkedIn(m) && p !in m && c.GetNeighbours() == NO_NEIGHBOURS
    ensures LinksOf(m[p := c]) == LinksBeforeWiring(m[p := c], p)
  {
    assert m[p := c] - {p} == m;
  }

  /** Dropping the chunk at p, which no queued cursor points into, keeps every other chunk's entry. */
  lemma EraseKeepsOthers(m: map<ChunkCoords, Chunk>, dimension: Dimension, q: seq<BlockInfo>, p: ChunkCoords)
    requires ChunksWf(m, dimension) && QueueIn(m, q)
    requires forall i :: 0 <= i < |q| ==> CellOf(q[i]).chunk != p
    ensures ChunksWf(m - {p}, dimension) && QueueIn(m - {p}, q)
    ensures LightChunks(m - {p}) == LightChunks(m) - {p}
    ensures MeshesOf(m - {p}) == MeshesOf(m) - {p} && LinksOf(m - {p}) == LinksOf(m) - {p}
  {
    var m' := m - {p};
    forall i | 0 <= i < |q|
      ensures ActiveIn(m', q[i])
    {
      assert ActiveIn(m, q[i]);
    }
  }

  /**
   * The population step of `CreateOrLoadChunk` on a chunk just built: its
   * cells are read from the save file when one was loaded, and generated
   * from the terrain noise otherwise.
   */
  method PopulateCells(newChunk: Chunk, savedChunk: Option<seq<Rle.Byte>>,
                       scaledGroundNoise: IntVector2 -> int, scaledCeilingNoise: IntVector2 -> int)
    requires newChunk.Wf() && newChunk.blocks[..] == DefaultCells(NUM_BLOCKS_PER_CHUNK)
    requires savedChunk.Some? ==> Rle.WellFormedRle(savedChunk.value)
    modifies newChunk.blocks
    ensures newChunk.blocks[..] == PopulatedCells(newChunk.chunkPosition, newChunk.chunkDimension, savedChunk, scaledGroundNoise, scaledCeilingNoise)
  {
    match savedChunk
    case Some(rleString) =>
      newChunk.PopulateChunkWithRleString(rleString);
    case None =>
      newChunk.PopulateChunkWithPerlinNoise(scaledGroundNoise, scaledCeilingNoise);
      assert newChunk.blocks[..] == GeneratedCells(old(newChunk.blocks[..]), newChunk.chunkPosition, newChunk.chunkDimension, scaledGroundNoise, scaledCeilingNoise);
  }

  /**
   * The direction `FindDirectionBetweenBlocks` reports for a hit block one
   * step d from the block before it: the world vector whose
   * `SetSelectedFace` selects the hit block's face toward that block.
   */
  function StepToward(d: StepDirection): (dir: Direction)
    ensures FaceAfterSelecting(NONE, dir) != NONE && FaceStep(FaceAfterSelecting(NONE, dir)) == Opposite(d)
  {
    match d
    case Down => WorldDown
    case Up => WorldUp
    case South => WorldRight
    case North => WorldLeft
    case East => WorldBackward
    case West => WorldForward
  }

  /** The coordinate a step in direction d changes. */
  function AxisCoord(d: StepDirection, lbc: LocalBlockCoords): int
  {
    match d
    case Down => lbc.z
    case Up => lbc.z
    case South => lbc.y
    case North => lbc.y
    case East => lbc.x
    case West => lbc.x
  }

  /**
   * One comparison of `FindDirectionBetweenBlocks` as written: the cursor after
   * the step d, moved or not, has the hit block's coordinate on d's axis.
   */
  predicate AxisMatchesAsWritten(d: StepDirection, lastBlockHit: BlockInfo, hitCoords: LocalBlockCoords, nb: Neighbours)
    requires lastBlockHit.index < NUM_BLOCKS_PER_CHUNK
  {
    AxisCoord(d, Coords(StepBy(d, lastBlockHit, nb).cursor.index)) == AxisCoord(d, hitCoords)
  }

  /** The same comparison, passed only by a step that happened. */
  predicate AxisMatches(d: StepDirection, lastBlockHit: BlockInfo, hitCoords: LocalBlockCoords, nb: Neighbours)
    requires lastBlockHit.index < NUM_BLOCKS_PER_CHUNK
  {
    var r := StepBy(d, lastBlockHit, nb);
    r.stepped && AxisCoord(d, Coords(r.cursor.index)) == AxisCoord(d, hitCoords)
  }

  /**
   * `FindDirectionBetweenBlocks` as written: nb holds the neighbour
   * pointers of lastBlockHit's chunk.  It tries the steps down, up, south,
   * north, east and west in turn and reports the first one after which
   * the cursor shares the hit block's coordinate on that step's axis.  A
   * step that fails leaves the cursor where it was, and it is compared
   * all the same.
   */
  function FindDirectionBetweenBlocksAsWritten(lastBlockHit: BlockInfo, hitBlockInfo: BlockInfo, nb: Neighbours): Direction
  {
    if lastBlockHit.chunk == null then ZeroDirection
    else if hitBlockInfo.index >= NUM_BLOCKS_PER_CHUNK || lastBlockHit.index >= NUM_BLOCKS_PER_CHUNK then ZeroDirection
    else
      var hitCoords := Coords(hitBlockInfo.index);
      if AxisMatchesAsWritten(Down, lastBlockHit, hitCoords, nb) then WorldDown
      else if AxisMatchesAsWritten(Up, lastBlockHit, hitCoords, nb) then WorldUp
      else if AxisMatchesAsWritten(South, lastBlockHit, hitCoords, nb) then WorldRight
      else if AxisMatchesAsWritten(North, lastBlockHit, hitCoords, nb) then WorldLeft
      else if AxisMatchesAsWritten(East, lastBlockHit, hitCoords, nb) then WorldBackward
      else if AxisMatchesAsWritten(West, lastBlockHit, hitCoords, nb) then WorldForward
      else ZeroDirection
  }

  /** `FindDirectionBetweenBlocks` with a failed step skipped instead of compared. */
  function FindDirectionBetweenBlocks(lastBlockHit: BlockInfo, hitBlockInfo: BlockInfo, nb: Neighbours): Direction
  {
    if lastBlockHit.chunk == null then ZeroDirection
    else if hitBlockInfo.index >= NUM_BLOCKS_PER_CHUNK || lastBlockHit.index >= NUM_BLOCKS_PER_CHUNK then ZeroDirection
    else
      var hitCoords := Coords(hitBlockInfo.index);
      if AxisMatches(Down, lastBlockHit, hitCoords, nb) then WorldDown
      else if AxisMatches(Up, lastBlockHit, hitCoords, nb) then WorldUp
      else if AxisMatches(South, lastBlockHit, hitCoords, nb) then WorldRight
      else if AxisMatches(North, lastBlockHit, hitCoords, nb) then WorldLeft
      else if AxisMatches(East, lastBlockHit, hitCoords, nb) then WorldBackward
      else if AxisMatches(West, lastBlockHit, hitCoords, nb) then WorldForward
      else ZeroDirection
  }

  /** A step d' other than d, from where d lands on the hit block, does not reach the hit block's coordinate on its axis. */
  lemma OtherStepMisses(d: StepDirection, d': StepDirection, lastBlockHit: BlockInfo, hitBlockInfo: BlockInfo, nb: Neighbours)
    requires lastBlockHit.index < NUM_BLOCKS_PER_CHUNK && d' != d
    requires StepBy(d, lastBlockHit, nb) == StepResult(true, hitBlockInfo)
    ensures !AxisMatches(d', lastBlockHit, Coords(hitBlockInfo.index), nb)
  {
    StepGeometry(d, lastBlockHit, nb);
    StepGeometry(d', lastBlockHit, nb);
    AxisMoves(d', d, Coords(lastBlockHit.index));
  }

  /** A step changes the coordinate on its own axis to one that no other step reaches. */
  lemma AxisMoves(d': StepDirection, d: StepDirection, c: LocalBlockCoords)
    requires InChunk(c) && d' != d
    ensures AxisCoord(d', Wrapped(Add3(c, Offset(d')))) != AxisCoord(d', Wrapped(Add3(c, Offset(d))))
  {
    match d'
    case Down =>
    case Up =>
    case South => assert (c.y - 1) % 16 != c.y && (c.y - 1) % 16 != (c.y + 1) % 16;
    case North => assert (c.y + 1) % 16 != c.y && (c.y + 1) % 16 != (c.y - 1) % 16;
    case East => assert (c.x + 1) % 16 != c.x && (c.x + 1) % 16 != (c.x - 1) % 16;
    case West => assert (c.x - 1) % 16 != c.x && (c.x - 1) % 16 != (c.x + 1) % 16;
  }

  /** The reported direction is one of the six exactly when its step happened and reached the hit block's coordinate on its axis. */
  lemma FindDirectionReports(lastBlockHit: BlockInfo, hitBlockInfo: BlockInfo, nb: Neighbours, d: StepDirection)
    requires FindDirectionBetweenBlocks(lastBlockHit, hitBlockInfo, nb) == StepToward(d)
    ensures lastBlockHit.index < NUM_BLOCKS_PER_CHUNK && hitBlockInfo.index < NUM_BLOCKS_PER_CHUNK
    ensures AxisMatches(d, lastBlockHit, Coords(hitBlockInfo.index), nb)
  {
  }

  /**
   * For a hit block one step d from the block before it, the corrected
   * `FindDirectionBetweenBlocks` reports d, and selecting by its result
   * picks the hit block's face toward the block before it.
   */
  lemma {:induction false} DirectionOfAdjacentBlock(lastBlockHit: BlockInfo, hitBlockInfo: BlockInfo, nb: Neighbours, d: StepDirection)
    requires lastBlockHit.chunk != null && lastBlockHit.index < NUM_BLOCKS_PER_CHUNK
    requires StepBy(d, lastBlockHit, nb) == StepResult(true, hitBlockInfo)
    ensures FindDirectionBetweenBlocks(lastBlockHit, hitBlockInfo, nb) == StepToward(d)
    ensures FaceStep(FaceAfterSelecting(NONE, FindDirectionBetweenBlocks(lastBlockHit, hitBlockInfo, nb))) == Opposite(d)
  {
    StepGeometry(d, lastBlockHit, nb);
    forall d' | d' != d
      ensures !AxisMatches(d', lastBlockHit, Coords(hitBlockInfo.index), nb)
    {
      OtherStepMisses(d, d', lastBlockHit, hitBlockInfo, nb);
    }
  }

  /** When all six steps from lastBlockHit happen, the code as written and the corrected one agree. */
  lemma AsWrittenAgreesWhenStepsHappen(lastBlockHit: BlockInfo, hitBlockInfo: BlockInfo, nb: Neighbours)
    requires lastBlockHit.index < NUM_BLOCKS_PER_CHUNK
    requires forall d :: StepBy(d, lastBlockHit, nb).stepped
    ensures FindDirectionBetweenBlocksAsWritten(lastBlockHit, hitBlockInfo, nb) == FindDirectionBetweenBlocks(lastBlockHit, hitBlockInfo, nb)
  {
    assert StepBy(Down, lastBlockHit, nb).stepped && StepBy(Up, lastBlockHit, nb).stepped;
    assert StepBy(South, lastBlockHit, nb).stepped && StepBy(North, lastBlockHit, nb).stepped;
    assert StepBy(East, lastBlockHit, nb).stepped && StepBy(West, lastBlockHit, nb).stepped;
  }

  /**
   * The failed step as written: from a block on the bottom layer, the
   * block east of it is reported as below it, since the failed step down
   * leaves the cursor on the same layer as the hit block.
   */
  lemma AsWrittenFailedStepMisreads(lastBlockHit: BlockInfo, nb: Neighbours)
    requires lastBlockHit.chunk != null && lastBlockHit.index < NUM_BLOCKS_PER_CHUNK
    requires Coords(lastBlockHit.index).z == 0 && Coords(lastBlockHit.index).x < CHUNK_X_LENGTH_IN_BLOCKS - 1
    ensures StepEast(lastBlockHit, nb) == StepResult(true, BlockInfo(lastBlockHit.chunk, lastBlockHit.index + 1))
    ensures FindDirectionBetweenBlocksAsWritten(lastBlockHit, BlockInfo(lastBlockHit.chunk, lastBlockHit.index + 1), nb) == WorldDown
    ensures FindDirectionBetweenBlocks(lastBlockHit, BlockInfo(lastBlockHit.chunk, lastBlockHit.index + 1), nb) == StepToward(East)
  {
    var hit := BlockInfo(lastBlockHit.chunk, lastBlockHit.index + 1);
    StepGeometry(East, lastBlockHit, nb);
    DirectionOfAdjacentBlock(lastBlockHit, hit, nb, East);
  }

  /** The constructor's checks on the radii: the active radius is below the flush radius and a whole number of chunks from it. */
  predicate RadiiAgree(activeRadius: int, flushRadius: int)
  {
    activeRadius < flushRadius && TruncatingRemainder(activeRadius - flushRadius, CHUNK_X_LENGTH_IN_BLOCKS) == 0
  }

  /** The checks hold exactly when the flush radius exceeds the active one by a positive multiple of 16; the initial radii pass. */
  lemma RadiiAgreeMeans(activeRadius: int, flushRadius: int)
    ensures RadiiAgree(activeRadius, flushRadius) <==>
      exists k :: k > 0 && flushRadius - activeRadius == CHUNK_X_LENGTH_IN_BLOCKS * k
    ensures RadiiAgree(INITIAL_ACTIVE_RADIUS, INITIAL_FLUSH_RADIUS)
  {
    var gap := flushRadius - activeRadius;
    if RadiiAgree(activeRadius, flushRadius) {
      assert (activeRadius - flushRadius) % CHUNK_X_LENGTH_IN_BLOCKS == 0;
      assert gap == CHUNK_X_LENGTH_IN_BLOCKS * (gap / CHUNK_X_LENGTH_IN_BLOCKS);
    }
    if k :| k > 0 && gap == CHUNK_X_LENGTH_IN_BLOCKS * k {
      assert activeRadius - flushRadius == CHUNK_X_LENGTH_IN_BLOCKS * -k;
      Bits.DivModUnique(activeRadius - flushRadius, CHUNK_X_LENGTH_IN_BLOCKS, -k, 0);
    }
    assert INITIAL_FLUSH_RADIUS - INITIAL_ACTIVE_RADIUS == CHUNK_X_LENGTH_IN_BLOCKS * 1;
  }

  class World {
    var activeChunks: map<ChunkCoords, Chunk>
    var dirtyBlocks: seq<BlockInfo>
    const activeRadius: int
    const flushRadius: int
    const activeDimension: Dimension

    /**
     * The constructor: the initial radii, which its checks accept, the
     * overworld, no active chunks and an empty lighting queue.
     */
    constructor ()
      ensures activeRadius == INITIAL_ACTIVE_RADIUS && flushRadius == INITIAL_FLUSH_RADIUS && RadiiAgree(activeRadius, flushRadius)
      ensures activeDimension == DIM_OVERWORLD && activeChunks == map[] && dirtyBlocks == []
      ensures Valid() && State() == Lighting.LightWorld(map[], [])
    {
      activeRadius := INITIAL_ACTIVE_RADIUS;
      flushRadius := INITIAL_FLUSH_RADIUS;
      activeDimension := DIM_OVERWORLD;
      activeChunks := map[];
      dirtyBlocks := [];
      new;
      RadiiAgreeMeans(activeRadius, flushRadius);
    }

    function Chunks(): set<Chunk>
      reads this`activeChunks
    {
      activeChunks.Values
    }

    function Arrays(): set<array<Block>>
      reads this`activeChunks
    {
      ArraysOf(activeChunks)
    }

    ghost predicate Structure()
      reads this, Chunks()`currentSkyLightLevel
    {
      ChunksWf(activeChunks, activeDimension) && QueueIn(activeChunks, dirtyBlocks)
    }

    ghost predicate Linked()
      reads this`activeChunks, Chunks()`northNeighbor, Chunks()`eastNeighbor, Chunks()`westNeighbor, Chunks()`southNeighbor
    {
      LinkedIn(activeChunks)
    }

    /** The chunks' cells and sky levels, and the queue, as the lighting model sees them. */
    ghost function State(): (w: Lighting.LightWorld)
      requires Structure()
      reads this, Chunks()`currentSkyLightLevel, Arrays()
      ensures Lighting.Wf(w) && w.chunks.Keys == activeChunks.Keys
    {
      Lighting.LightWorld(LightChunks(activeChunks), CellsOf(dirtyBlocks))
    }

    ghost predicate Valid()
      reads this, Chunks()`currentSkyLightLevel, Chunks()`northNeighbor, Chunks()`eastNeighbor, Chunks()`westNeighbor, Chunks()`southNeighbor, Arrays()
    {
      Structure() && Linked() && Lighting.DirtyIffQueued(State())
    }

    /** The structure holds and a cell is dirty exactly when it is queued; the neighbour links may be mid-update. */
    ghost predicate Queued()
      reads this, Chunks()`currentSkyLightLevel, Arrays()
    {
      Structure() && Lighting.DirtyIffQueued(State())
    }

    ghost predicate Active(bi: BlockInfo)
      reads this
    {
      ActiveIn(activeChunks, bi)
    }

    /** Writes one cell through a cursor. */
    method WriteCell(bi: BlockInfo, b: Block)
      requires Structure() && Active(bi)
      modifies bi.chunk.blocks
      ensures Structure() && (old(Linked()) ==> Linked())
      ensures State() == Lighting.Put(old(State()), CellOf(bi), b)
    {
      ghost var w := State();
      bi.chunk.blocks[bi.index] := b;
      ghost var r := Lighting.Put(w, CellOf(bi), b);
      forall q | q in activeChunks
        ensures State().chunks[q] == r.chunks[q]
      {
        if q != bi.chunk.chunkPosition {
          assert activeChunks[q].blocks != bi.chunk.blocks;
        }
      }
    }

    /** Appends a cursor to the back of the queue. */
    method Enqueue(bi: BlockInfo)
      requires Structure() && Active(bi)
      modifies this`dirtyBlocks
      ensures Structure() && (old(Linked()) ==> Linked()) && dirtyBlocks == old(dirtyBlocks) + [bi]
      ensures State() == old(State()).(queue := old(State()).queue + [CellOf(bi)])
    {
      dirtyBlocks := dirtyBlocks + [bi];
      CellsOfSnoc(old(dirtyBlocks), bi);
    }

    /** Drops the front of the queue. */
    method Dequeue()
      requires Structure() && |dirtyBlocks| > 0
      modifies this`dirtyBlocks
      ensures Structure() && (old(Linked()) ==> Linked()) && dirtyBlocks == old(dirtyBlocks)[1..]
      ensures State() == old(State()).(queue := old(State()).queue[1..])
    {
      dirtyBlocks := dirtyBlocks[1..];
    }

    /**
     * `MarkBlockLightingDirty`: a cell of an active chunk that is not
     * dirty yet gets its dirty bit and joins the back of the queue; a dirty
     * cell, or an index past the chunk, is left alone.
     */
    method MarkBlockLightingDirty(bi: BlockInfo)
      requires Queued() && bi.chunk != null && bi.chunk.chunkPosition in activeChunks && activeChunks[bi.chunk.chunkPosition] == bi.chunk
      modifies this`dirtyBlocks, Arrays()
      ensures Queued() && (old(Linked()) ==> Linked())
      ensures bi.index < NUM_BLOCKS_PER_CHUNK ==> State() == Lighting.Mark(old(State()), CellOf(bi))
      ensures bi.index >= NUM_BLOCKS_PER_CHUNK ==> State() == old(State())
    {
      var blockToDirty := bi.chunk.GetBlockFromLocalBlockIndex(bi.index);
      if blockToDirty.None? {
        return;
      }
      assert Active(bi);
      if IsLightingDirty(blockToDirty.value) {
        return;
      }
      ghost var w := State();
      assert Lighting.At(w, CellOf(bi)) == blockToDirty.value;
      WriteCell(bi, SetLightingDirty(blockToDirty.value));
      Enqueue(bi);
      assert State() == Lighting.Mark(w, CellOf(bi));
      MarkedKeepsQueue(w, CellOf(bi));
    }
    /**
     * One block of `DirtyNonSkyNeighborsForBlock`: step a copy of the cursor
     * in direction ds[0] and mark the cell it lands on unless that is a sky
     * block.  goal is what marking the neighbours in the directions ds
     * leads to; after the block, marking those of ds[1..] leads there.
     */
    method MarkNonSkyNeighbour(bi: BlockInfo, d: StepDirection, ghost ds: seq<StepDirection>, ghost goal: Lighting.LightWorld)
      requires Valid() && Active(bi)
      requires |ds| > 0 && ds[0] == d && Lighting.MarkNeighboursNotSky(State(), CellOf(bi), ds) == goal
      modifies this`dirtyBlocks, Arrays()
      ensures Valid()
      ensures Lighting.MarkNeighboursNotSky(State(), CellOf(bi), ds[1..]) == goal
    {
      assert activeChunks[bi.chunk.chunkPosition].GetNeighbours() == NeighboursIn(activeChunks, bi.chunk.chunkPosition);
      var neighbor := StepBy(d, bi, bi.chunk.GetNeighbours()).cursor;
      StepAgrees(activeChunks, d, bi);
      var block := neighbor.chunk.GetBlockFromLocalBlockIndex(neighbor.index);
      if !IsSky(block.value) {
        MarkBlockLightingDirty(neighbor);
      }
    }

    /** Two blocks of `DirtyNonSkyNeighborsForBlock`, in directions ds[0] and ds[1]. */
    method MarkNonSkyNeighbours(bi: BlockInfo, d: StepDirection, d': StepDirection, ghost ds: seq<StepDirection>, ghost goal: Lighting.LightWorld)
      requires Valid() && Active(bi)
      requires |ds| > 1 && ds[0] == d && ds[1] == d' && Lighting.MarkNeighboursNotSky(State(), CellOf(bi), ds) == goal
      modifies this`dirtyBlocks, Arrays()
      ensures Valid()
      ensures Lighting.MarkNeighboursNotSky(State(), CellOf(bi), ds[2..]) == goal
    {
      MarkNonSkyNeighbour(bi, d, ds, goal);
      assert ds[1..][1..] == ds[2..];
      MarkNonSkyNeighbour(bi, d', ds[1..], goal);
    }

    /** The four horizontal blocks of `DirtyNonSkyNeighborsForBlock`, named by ds[0..4]. */
    method MarkNonSkyHorizontalNeighbours(bi: BlockInfo, ghost ds: seq<StepDirection>, ghost goal: Lighting.LightWorld)
      requires Valid() && Active(bi) && Lighting.MarkNeighboursNotSky(State(), CellOf(bi), ds) == goal
      requires |ds| >= 4 && ds[0] == East && ds[1] == West && ds[2] == North && ds[3] == South
      modifies this`dirtyBlocks, Arrays()
      ensures Valid() && Lighting.MarkNeighboursNotSky(State(), CellOf(bi), ds[4..]) == goal
    {
      MarkNonSkyNeighbours(bi, East, West, ds, goal);
      assert ds[2..][2..] == ds[4..];
      MarkNonSkyNeighbours(bi, North, South, ds[2..], goal);
    }

    /** The up and down blocks of `DirtyNonSkyNeighborsForBlock` when asked for, named by ds. */
    method MarkNonSkyVerticalNeighbours(bi: BlockInfo, includeVerticalNeighbors: bool, ghost ds: seq<StepDirection>, ghost goal: Lighting.LightWorld)
      requires Valid() && Active(bi) && Lighting.MarkNeighboursNotSky(State(), CellOf(bi), ds) == goal
      requires ds == if includeVerticalNeighbors then [Up, Down] else []
      modifies this`dirtyBlocks, Arrays()
      ensures Valid() && State() == goal
    {
      if includeVerticalNeighbors {
        MarkNonSkyNeighbours(bi, Up, Down, ds, goal);
        assert ds[2..] == [];
      }
    }

    /**
     * The blocks of `DirtyNonSkyNeighborsForBlock`, for a list ds of the
     * directions east, west, north, south and, when asked for, up and down.
     */
    method MarkNonSkyNeighboursInTurn(bi: BlockInfo, includeVerticalNeighbors: bool, ghost ds: seq<StepDirection>, ghost goal: Lighting.LightWorld)
      requires Valid() && Active(bi) && Lighting.MarkNeighboursNotSky(State(), CellOf(bi), ds) == goal
      requires |ds| >= 4 && ds[0] == East && ds[1] == West && ds[2] == North && ds[3] == South
      requires ds[4..] == if includeVerticalNeighbors then [Up, Down] else []
      modifies this`dirtyBlocks, Arrays()
      ensures Valid() && State() == goal
    {
      MarkNonSkyHorizontalNeighbours(bi, ds, goal);
      MarkNonSkyVerticalNeighbours(bi, includeVerticalNeighbors, ds[4..], goal);
    }

    /**
     * `DirtyNonSkyNeighborsForBlock`: marks the non-sky cells among the
     * four horizontal neighbours, then up and down when asked for, in the
     * order of `Lighting.Directions`.
     */
    method DirtyNonSkyNeighborsForBlock(bi: BlockInfo, includeVerticalNeighbors: bool)
      requires Valid() && Active(bi)
      modifies this`dirtyBlocks, Arrays()
      ensures Valid()
      ensures State() == Lighting.DirtyNonSkyNeighbours(old(State()), CellOf(bi), includeVerticalNeighbors)
    {
      MarkNonSkyNeighboursInTurn(bi, includeVerticalNeighbors, Lighting.Directions(includeVerticalNeighbors), Lighting.MarkNeighboursNotSky(State(), CellOf(bi), Lighting.Directions(includeVerticalNeighbors)));
    }

    /** The light of the neighbour in direction d: step a copy of the cursor and read the cell it lands on. */
    function GetNeighbourLight(bi: BlockInfo, d: StepDirection): (n: int)
      requires Structure() && Linked() && Active(bi)
      reads this, Chunks()`currentSkyLightLevel, Chunks()`northNeighbor, Chunks()`eastNeighbor, Chunks()`westNeighbor, Chunks()`southNeighbor, Arrays()
      ensures n == Lighting.NeighbourLight(State(), d, CellOf(bi))
    {
      assert activeChunks[bi.chunk.chunkPosition].GetNeighbours() == NeighboursIn(activeChunks, bi.chunk.chunkPosition);
      var neighbor := StepBy(d, bi, bi.chunk.GetNeighbours()).cursor;
      StepAgrees(activeChunks, d, bi);
      GetLightLevel(neighbor.chunk.GetBlockFromLocalBlockIndex(neighbor.index).value)
    }

    /**
     * `GetIdealLightForBlock`: an opaque type's emission, or the largest of
     * the brightest neighbour's light less one, the sky factor and the
     * emission; `Lighting.IdealLightIsLeastBound` says what that value is.
     */
    method GetIdealLightForBlock(bi: BlockInfo) returns (idealLight: int)
      requires Structure() && Linked() && Active(bi)
      ensures idealLight == Lighting.IdealLight(State(), CellOf(bi))
    {
      var block := bi.chunk.GetBlockFromLocalBlockIndex(bi.index).value;
      var currentBlockType := block.blockType;
      if BlockDefinitions.IsOpaque(currentBlockType) {
        return BlockDefinitions.GetLightLevel(currentBlockType);
      }
      var currentBlockLight := BlockDefinitions.GetLightLevel(block.blockType);
      var skyFactor := if IsSky(block) then bi.chunk.currentSkyLightLevel else 0;
      var highestNeighborLight := 0;
      highestNeighborLight := MathUtils.Max(highestNeighborLight, GetNeighbourLight(bi, East));
      highestNeighborLight := MathUtils.Max(highestNeighborLight, GetNeighbourLight(bi, West));
      highestNeighborLight := MathUtils.Max(highestNeighborLight, GetNeighbourLight(bi, North));
      highestNeighborLight := MathUtils.Max(highestNeighborLight, GetNeighbourLight(bi, South));
      highestNeighborLight := MathUtils.Max(highestNeighborLight, GetNeighbourLight(bi, Up));
      highestNeighborLight := MathUtils.Max(highestNeighborLight, GetNeighbourLight(bi, Down));
      idealLight := MathUtils.Max(highestNeighborLight - 1, MathUtils.Max(skyFactor, currentBlockLight));
    }

    /** The head of `UpdateLighting`'s loop body: pop the front cursor and clear its dirty bit. */
    method PopDirtyBlock() returns (bi: BlockInfo)
      requires Valid() && |dirtyBlocks| > 0
      modifies this`dirtyBlocks, Arrays()
      ensures Valid() && Active(bi) && bi == old(dirtyBlocks[0])
      ensures State() == Lighting.Popped(old(State()))
      ensures forall q :: q in activeChunks ==> activeChunks[q].isVertexArrayDirty == old(activeChunks[q].isVertexArrayDirty)
    {
      ghost var w := State();
      bi := dirtyBlocks[0];
      assert Active(bi) && CellOf(bi) == w.queue[0];
      Dequeue();
      var currentBlock := bi.chunk.GetBlockFromLocalBlockIndex(bi.index).value;
      WriteCell(bi, SetLightingNotDirty(currentBlock));
      Lighting.PoppedKeepsQueue(w);
    }

    /** The tail of `UpdateLighting`'s loop body: store the ideal light and mark the non-sky neighbours, all six. */
    method StoreIdealLight(bi: BlockInfo, idealLight: int)
      requires Valid() && Active(bi) && 0 <= idealLight <= MAX_LIGHTING_LEVEL
      modifies this`dirtyBlocks, Arrays()
      ensures Valid()
      ensures State() == Lighting.DirtyNonSkyNeighbours(
        Lighting.Put(old(State()), CellOf(bi), SetLightLevel(Lighting.At(old(State()), CellOf(bi)), idealLight)), CellOf(bi), true)
      ensures forall q :: q in activeChunks ==> activeChunks[q].isVertexArrayDirty == old(activeChunks[q].isVertexArrayDirty)
    {
      ghost var p := State();
      var currentBlock := bi.chunk.GetBlockFromLocalBlockIndex(bi.index).value;
      WriteCell(bi, SetLightLevel(currentBlock, idealLight));
      Lighting.PutKeepsQueue(p, CellOf(bi), SetLightLevel(currentBlock, idealLight));
      DirtyNonSkyNeighborsForBlock(bi, true);
    }

    /** `MarkVertexArrayDirty` on an active chunk, which the lighting model does not see. */
    method MarkMeshDirty(chunk: Chunk)
      requires Valid() && chunk.chunkPosition in activeChunks && activeChunks[chunk.chunkPosition] == chunk
      modifies chunk`isVertexArrayDirty
      ensures Valid() && State() == old(State())
      ensures forall q :: q in activeChunks ==>
        activeChunks[q].isVertexArrayDirty == (old(activeChunks[q].isVertexArrayDirty) || q == chunk.chunkPosition)
    {
      chunk.MarkVertexArrayDirty();
      assert Positioned(activeChunks);
    }

    /** `StoreIdealLight`, then `MarkVertexArrayDirty` on the cursor's chunk. */
    method ApplyIdealLight(bi: BlockInfo, idealLight: int)
      requires Valid() && Active(bi) && 0 <= idealLight <= MAX_LIGHTING_LEVEL
      modifies this`dirtyBlocks, Arrays(), Chunks()`isVertexArrayDirty
      ensures Valid()
      ensures State() == Lighting.DirtyNonSkyNeighbours(
        Lighting.Put(old(State()), CellOf(bi), SetLightLevel(Lighting.At(old(State()), CellOf(bi)), idealLight)), CellOf(bi), true)
      ensures forall q :: q in activeChunks ==>
        activeChunks[q].isVertexArrayDirty == (old(activeChunks[q].isVertexArrayDirty) || q == CellOf(bi).chunk)
    {
      StoreIdealLight(bi, idealLight);
      MarkMeshDirty(bi.chunk);
    }

    /**
     * The rest of a pass of `UpdateLighting`'s loop once bi has been
     * popped from the world w: compute the ideal light, then relax to it.
     */
    method RelaxPopped(bi: BlockInfo, ghost w: Lighting.LightWorld)
      requires Valid() && Active(bi)
      requires Lighting.Wf(w) && |w.queue| > 0 && Lighting.Holds(w, w.queue[0]) && CellOf(bi) == w.queue[0]
      requires State() == Lighting.Popped(w)
      modifies this`dirtyBlocks, Arrays(), Chunks()`isVertexArrayDirty
      ensures Valid() && State() == Lighting.Relax(w)
      ensures forall q :: q in activeChunks ==>
        activeChunks[q].isVertexArrayDirty == (old(activeChunks[q].isVertexArrayDirty) || q in Lighting.RelaxedChunks(w))
    {
      var idealLight := GetIdealLightForBlock(bi);
      RelaxWith(bi, idealLight, w);
    }

    /**
     * Compare the stored light of the popped cursor bi with its ideal
     * light, and on a difference store the ideal and mark the neighbours.
     */
    method RelaxWith(bi: BlockInfo, idealLight: int, ghost w: Lighting.LightWorld)
      requires Valid() && Active(bi)
      requires Lighting.Wf(w) && |w.queue| > 0 && Lighting.Holds(w, w.queue[0]) && CellOf(bi) == w.queue[0]
      requires State() == Lighting.Popped(w) && idealLight == Lighting.IdealLight(Lighting.Popped(w), w.queue[0])
      modifies this`dirtyBlocks, Arrays(), Chunks()`isVertexArrayDirty
      ensures Valid() && State() == Lighting.Relax(w)
      ensures forall q :: q in activeChunks ==>
        activeChunks[q].isVertexArrayDirty == (old(activeChunks[q].isVertexArrayDirty) || q in Lighting.RelaxedChunks(w))
    {
      var currentLight := GetLightLevel(bi.chunk.GetBlockFromLocalBlockIndex(bi.index).value);
      assert currentLight == Lighting.LightAt(State(), CellOf(bi));
      if idealLight == currentLight {
        Lighting.RelaxKeeps(w, idealLight);
        return;
      }
      Lighting.RelaxChanges(w, idealLight);
      ApplyIdealLight(bi, idealLight);
    }

    /** One pass of `UpdateLighting`'s loop; the mesh of the chunk it relights is marked, every other flag is kept. */
    method RelaxDirtyBlock()
      requires Valid() && |dirtyBlocks| > 0
      modifies this`dirtyBlocks, Arrays(), Chunks()`isVertexArrayDirty
      ensures Valid() && State() == Lighting.Relax(old(State()))
      ensures forall q :: q in activeChunks ==>
        activeChunks[q].isVertexArrayDirty == (old(activeChunks[q].isVertexArrayDirty) || q in Lighting.RelaxedChunks(old(State())))
    {
      ghost var w := State();
      var bi := PopDirtyBlock();
      RelaxPopped(bi, w);
    }

    /**
     * With fuel passes to go, the lighting state heads for goal; the mesh
     * flags are those of start with the chunks of marked set, and marked
     * grows to goalMarks with the chunks the remaining passes relight.
     */
    ghost predicate Heading(fuel: nat, goal: Lighting.LightWorld, start: map<ChunkCoords, bool>, marked: set<ChunkCoords>, goalMarks: set<ChunkCoords>)
      reads this, Chunks()`currentSkyLightLevel, Chunks()`northNeighbor, Chunks()`eastNeighbor, Chunks()`westNeighbor, Chunks()`southNeighbor
      reads Chunks()`isVertexArrayDirty, Arrays()
    {
      && Valid() && Lighting.Relight(State(), fuel) == goal && marked + Lighting.RelitChunks(State(), fuel) == goalMarks
      && start.Keys == activeChunks.Keys
      && forall q :: q in activeChunks ==> activeChunks[q].isVertexArrayDirty == (start[q] || q in marked)
    }

    /** Once no pass is left to run, the lighting state has reached its goal and every chunk to mark is marked. */
    lemma HeadingDone(fuel: nat, goal: Lighting.LightWorld, start: map<ChunkCoords, bool>, marked: set<ChunkCoords>, goalMarks: set<ChunkCoords>)
      requires Heading(fuel, goal, start, marked, goalMarks) && (fuel == 0 || |dirtyBlocks| == 0)
      ensures State() == goal && marked == goalMarks
    {
      Lighting.RelightDone(State(), fuel);
    }

    /**
     * A pass of `UpdateLighting`'s loop, as seen from the end: with fuel
     * passes to go toward goal before it, fuel - 1 are left after it.
     */
    method RelaxToward(fuel: nat, ghost goal: Lighting.LightWorld, ghost start: map<ChunkCoords, bool>, ghost marked: set<ChunkCoords>, ghost goalMarks: set<ChunkCoords>)
      returns (rest: nat, ghost marked': set<ChunkCoords>)
      requires |dirtyBlocks| > 0 && fuel > 0 && Heading(fuel, goal, start, marked, goalMarks)
      modifies this`dirtyBlocks, Arrays(), Chunks()`isVertexArrayDirty
      ensures rest == fuel - 1 && Heading(rest, goal, start, marked', goalMarks)
    {
      rest := fuel - 1;
      ghost var w := State();
      Lighting.RelightStep(w, fuel, rest);
      Lighting.RelitChunksStep(w, fuel, rest);
      marked' := marked + Lighting.RelaxedChunks(w);
      UnionShift(marked, Lighting.RelaxedChunks(w), Lighting.RelitChunks(Lighting.Relax(w), rest), goalMarks);
      RelaxDirtyBlock();
      assert forall q :: q in activeChunks ==> activeChunks[q].isVertexArrayDirty == (start[q] || q in marked');
    }

    /**
     * `UpdateLighting`, bounded by maxPasses passes of its loop (the
     * source runs until the queue is empty): the world ends as
     * `Lighting.Relight` says, and the meshes marked are exactly those of
     * the chunks `Lighting.RelitChunks` collects.
     */
    method UpdateLighting(maxPasses: nat)
      requires Valid()
      modifies this`dirtyBlocks, Arrays(), Chunks()`isVertexArrayDirty
      ensures Valid() && State() == Lighting.Relight(old(State()), maxPasses)
      ensures forall q :: q in activeChunks ==>
        activeChunks[q].isVertexArrayDirty == (old(activeChunks[q].isVertexArrayDirty) || q in Lighting.RelitChunks(old(State()), maxPasses))
    {
      ghost var goal := Lighting.Relight(State(), maxPasses);
      ghost var start := Meshes();
      RelaxPasses(maxPasses, goal, start, Lighting.RelitChunks(State(), maxPasses));
    }

    /** The loop of `UpdateLighting`: at most maxPasses passes, each popping one cursor, until the queue is empty. */
    method RelaxPasses(maxPasses: nat, ghost goal: Lighting.LightWorld, ghost start: map<ChunkCoords, bool>, ghost goalMarks: set<ChunkCoords>)
      requires Heading(maxPasses, goal, start, {}, goalMarks)
      modifies this`dirtyBlocks, Arrays(), Chunks()`isVertexArrayDirty
      ensures Valid() && State() == goal && start.Keys == activeChunks.Keys
      ensures forall q :: q in activeChunks ==> activeChunks[q].isVertexArrayDirty == (start[q] || q in goalMarks)
    {
      var remaining := maxPasses;
      ghost var marked := {};
      while remaining > 0 && |dirtyBlocks| > 0
        invariant Heading(remaining, goal, start, marked, goalMarks)
      {
        remaining, marked := RelaxToward(remaining, goal, start, marked, goalMarks);
      }
      HeadingDone(remaining, goal, start, marked, goalMarks);
    }

    /** One pass of the placed descent's loop body: clear the sky bit through the block pointer, then mark the cursor. */
    method ClearSkyAndMarkCell(bi: BlockInfo)
      requires Valid() && Active(bi)
      modifies this`dirtyBlocks, Arrays()
      ensures Valid() && State() == Lighting.ClearSkyAndMark(old(State()), CellOf(bi))
    {
      ghost var w := State();
      var currentBlock := bi.chunk.GetBlockFromLocalBlockIndex(bi.index).value;
      WriteCell(bi, SetBlockToNotBeSky(currentBlock));
      Lighting.PutKeepsQueue(w, CellOf(bi), SetBlockToNotBeSky(currentBlock));
      MarkBlockLightingDirty(bi);
    }

    /**
     * One pass of the `do`/`while` of `UpdateLightingForBlockPlaced`: clear
     * and mark the cell, step down and read the block there.  The loop goes
     * on while that block is not opaque; goal is where the descent ends.
     */
    method ClearSkyAndStepDown(bi: BlockInfo, ghost goal: Lighting.LightWorld) returns (next: BlockInfo, going: bool)
      requires Valid() && Active(bi) && Lighting.PlacedDescentEnds(State(), CellOf(bi))
      requires Lighting.ClearSkyDown(State(), CellOf(bi)) == goal
      modifies this`dirtyBlocks, Arrays()
      ensures Valid() && Active(next)
      ensures going ==> next.chunk == bi.chunk && next.index < bi.index
      ensures going ==> Lighting.PlacedDescentEnds(State(), CellOf(next)) && Lighting.ClearSkyDown(State(), CellOf(next)) == goal
      ensures !going ==> State() == goal
    {
      ghost var w := State();
      ghost var c := CellOf(bi);
      ClearSkyAndMarkCell(bi);
      next := StepDown(bi).cursor;
      StepDownAgrees(activeChunks, bi);
      var currentBlock := next.chunk.GetBlockFromLocalBlockIndex(next.index);
      going := currentBlock.Some? && !IsOpaque(currentBlock.value);
      if c.index < NUM_COLUMNS_PER_CHUNK {
        Lighting.NoFloorOnBottom(w, c);
      } else if going {
        Lighting.ClearSkyDownStep(w, c);
      }
    }

    /**
     * The `do`/`while` of `UpdateLightingForBlockPlaced` from bi down: the
     * world ends as `Lighting.ClearSkyDown` says.
     */
    method ClearSkyDownFrom(bi: BlockInfo)
      requires Valid() && Active(bi) && Lighting.PlacedDescentEnds(State(), CellOf(bi))
      modifies this`dirtyBlocks, Arrays()
      ensures Valid() && State() == Lighting.ClearSkyDown(old(State()), CellOf(bi))
    {
      ghost var goal := Lighting.ClearSkyDown(State(), CellOf(bi));
      var blockPlacedInto := bi;
      var going := true;
      while going
        invariant Valid() && Active(blockPlacedInto)
        invariant going ==> Lighting.PlacedDescentEnds(State(), CellOf(blockPlacedInto))
        invariant going ==> Lighting.ClearSkyDown(State(), CellOf(blockPlacedInto)) == goal
        invariant !going ==> State() == goal
        decreases if going then blockPlacedInto.index + 1 else 0
      {
        blockPlacedInto, going := ClearSkyAndStepDown(blockPlacedInto, goal);
      }
    }

    /**
     * `UpdateLightingForBlockPlaced`, called once the block is in place: a
     * cursor past the chunk's cells changes nothing, and otherwise the world
     * ends as `Lighting.BlockPlacedRelight` says.  The game dies on a cursor
     * without a chunk.
     */
    method UpdateLightingForBlockPlaced(blockPlacedInto: BlockInfo)
      requires Valid() && blockPlacedInto.chunk != null && blockPlacedInto.chunk.chunkPosition in activeChunks
      requires activeChunks[blockPlacedInto.chunk.chunkPosition] == blockPlacedInto.chunk
      requires blockPlacedInto.index < NUM_BLOCKS_PER_CHUNK ==> Lighting.PlacedRelightEnds(State(), CellOf(blockPlacedInto))
      modifies this`dirtyBlocks, Arrays()
      ensures Valid()
      ensures blockPlacedInto.index < NUM_BLOCKS_PER_CHUNK ==> State() == Lighting.BlockPlacedRelight(old(State()), CellOf(blockPlacedInto))
      ensures blockPlacedInto.index >= NUM_BLOCKS_PER_CHUNK ==> State() == old(State())
    {
      var originalBlock := blockPlacedInto;
      var currentBlock := blockPlacedInto.chunk.GetBlockFromLocalBlockIndex(blockPlacedInto.index);
      if currentBlock.None? {
        return;
      }
      if IsSky(currentBlock.value) {
        ClearSkyDownFrom(blockPlacedInto);
      }
      MarkBlockLightingDirty(originalBlock);
    }

    /** One pass of the broken descent's loop body: set the sky bit through the block pointer, then mark the cursor. */
    method SetSkyAndMarkCell(bi: BlockInfo)
      requires Valid() && Active(bi)
      modifies this`dirtyBlocks, Arrays()
      ensures Valid() && State() == Lighting.SetSkyAndMark(old(State()), CellOf(bi))
    {
      ghost var w := State();
      var currentBlock := bi.chunk.GetBlockFromLocalBlockIndex(bi.index).value;
      WriteCell(bi, SetBlockToBeSky(currentBlock));
      Lighting.PutKeepsQueue(w, CellOf(bi), SetBlockToBeSky(currentBlock));
      MarkBlockLightingDirty(bi);
    }

    /**
     * One pass of the `while` of `UpdateLightingForBlockBroken`: read the
     * block, set its sky bit, mark it and step down.  The loop goes on
     * while the block just handled is not opaque; goal is where the
     * descent ends.
     */
    method SetSkyAndStepDown(bi: BlockInfo, ghost goal: Lighting.LightWorld) returns (next: BlockInfo, currentBlock: Block)
      requires Valid() && Active(bi) && Lighting.BrokenDescentEnds(State(), CellOf(bi))
      requires Lighting.SetSkyDown(State(), CellOf(bi)) == goal
      modifies this`dirtyBlocks, Arrays()
      ensures Valid() && Active(next)
      ensures !IsOpaque(currentBlock) ==> next.chunk == bi.chunk && next.index < bi.index
      ensures !IsOpaque(currentBlock) ==> Lighting.BrokenDescentEnds(State(), CellOf(next)) && Lighting.SetSkyDown(State(), CellOf(next)) == goal
      ensures IsOpaque(currentBlock) ==> State() == goal
    {
      ghost var w := State();
      ghost var c := CellOf(bi);
      currentBlock := bi.chunk.GetBlockFromLocalBlockIndex(bi.index).value;
      SetSkyAndMarkCell(bi);
      next := StepDown(bi).cursor;
      StepDownAgrees(activeChunks, bi);
      if !IsOpaque(currentBlock) {
        Lighting.SetSkyDownStep(w, c);
      }
    }

    /**
     * The `while` of `UpdateLightingForBlockBroken` from bi down: nothing
     * when bi is opaque, and otherwise the world ends as
     * `Lighting.SetSkyDown` says.
     */
    method SetSkyDownFrom(bi: BlockInfo)
      requires Valid() && Active(bi) && Lighting.BrokenDescentEnds(State(), CellOf(bi))
      modifies this`dirtyBlocks, Arrays()
      ensures Valid()
      ensures State() == if IsOpaque(Lighting.At(old(State()), CellOf(bi))) then old(State()) else Lighting.SetSkyDown(old(State()), CellOf(bi))
    {
      ghost var goal := if IsOpaque(Lighting.At(State(), CellOf(bi))) then State() else Lighting.SetSkyDown(State(), CellOf(bi));
      var blockBroken := bi;
      var currentBlock := blockBroken.chunk.GetBlockFromLocalBlockIndex(blockBroken.index).value;
      while !IsOpaque(currentBlock)
        invariant Valid() && Active(blockBroken)
        invariant !IsOpaque(currentBlock) ==> Lighting.BrokenDescentEnds(State(), CellOf(blockBroken))
        invariant !IsOpaque(currentBlock) ==> Lighting.SetSkyDown(State(), CellOf(blockBroken)) == goal
        invariant IsOpaque(currentBlock) ==> State() == goal
        decreases if IsOpaque(currentBlock) then 0 else blockBroken.index + 1
      {
        blockBroken, currentBlock := SetSkyAndStepDown(blockBroken, goal);
      }
    }

    /**
     * `UpdateLightingForBlockBroken`, called once the cell is air: when the
     * block above is sky, the broken descent runs from one step up and one
     * step down; then the broken cell is marked.  The world ends as
     * `Lighting.BlockBrokenRelight` says.
     */
    method UpdateLightingForBlockBroken(blockBroken: BlockInfo)
      requires Valid() && Active(blockBroken) && Lighting.BrokenRelightEnds(State(), CellOf(blockBroken))
      modifies this`dirtyBlocks, Arrays()
      ensures Valid() && State() == Lighting.BlockBrokenRelight(old(State()), CellOf(blockBroken))
    {
      var originalBlock := blockBroken;
      var above := StepUp(blockBroken).cursor;
      StepUpAgrees(activeChunks, blockBroken);
      var blockAboveBrokenBlock := above.chunk.GetBlockFromLocalBlockIndex(above.index).value;
      if IsSky(blockAboveBrokenBlock) {
        var start := StepDown(above).cursor;
        StepAgrees(activeChunks, Down, above);
        SetSkyDownFrom(start);
      }
      MarkBlockLightingDirty(originalBlock);
    }

    /** One pass of `MarkChunkLightingDirty`'s loop: with cell k next toward goal, cell k + 1 is next after it. */
    method MarkCellToward(chunk: Chunk, blockIndex: int, ghost goal: Lighting.LightWorld) returns (next: int)
      requires Queued() && chunk.chunkPosition in activeChunks && activeChunks[chunk.chunkPosition] == chunk
      requires 0 <= blockIndex < NUM_BLOCKS_PER_CHUNK && Lighting.MarkCellsFrom(State(), chunk.chunkPosition, blockIndex) == goal
      modifies this`dirtyBlocks, Arrays()
      ensures next == blockIndex + 1 && Queued() && Lighting.MarkCellsFrom(State(), chunk.chunkPosition, next) == goal
    {
      next := blockIndex + 1;
      Lighting.MarkCellsFromStep(State(), chunk.chunkPosition, blockIndex, next);
      MarkBlockLightingDirty(BlockInfo(chunk, blockIndex));
    }

    /** The loop of `MarkChunkLightingDirty` from cell first on: marks every cell of an active chunk, in index order. */
    method MarkChunkCells(chunk: Chunk, first: nat)
      requires Queued() && chunk.chunkPosition in activeChunks && activeChunks[chunk.chunkPosition] == chunk
      requires first <= NUM_BLOCKS_PER_CHUNK
      modifies this`dirtyBlocks, Arrays()
      ensures activeChunks == old(activeChunks)
      ensures Queued() && State() == Lighting.MarkCellsFrom(old(State()), chunk.chunkPosition, first)
    {
      ghost var goal := Lighting.MarkCellsFrom(State(), chunk.chunkPosition, first);
      var blockIndex := first;
      while blockIndex < NUM_BLOCKS_PER_CHUNK
        invariant first <= blockIndex <= NUM_BLOCKS_PER_CHUNK
        invariant Queued() && Lighting.MarkCellsFrom(State(), chunk.chunkPosition, blockIndex) == goal
      {
        blockIndex := MarkCellToward(chunk, blockIndex, goal);
      }
    }

    /**
     * `MarkChunkLightingDirty`: marks every cell of an active chunk, in
     * index order; no chunk's own fields change.
     */
    method MarkChunkLightingDirty(chunk: Chunk)
      requires Queued() && chunk.chunkPosition in activeChunks && activeChunks[chunk.chunkPosition] == chunk
      modifies this`dirtyBlocks, Arrays()
      ensures activeChunks == old(activeChunks)
      ensures Queued() && unchanged(Chunks())
      ensures State() == Lighting.MarkCellsFrom(old(State()), chunk.chunkPosition, 0)
    {
      MarkChunkCells(chunk, 0);
    }

    /** `SetCurrentSkyLightLevel` on an active chunk. */
    method SetSkyLevel(chunk: Chunk, level: int)
      requires Valid() && chunk.chunkPosition in activeChunks && activeChunks[chunk.chunkPosition] == chunk
      requires 0 <= level <= MAX_LIGHTING_LEVEL
      modifies chunk`currentSkyLightLevel
      ensures Valid() && State() == Lighting.WithSkyLevel(old(State()), chunk.chunkPosition, level)
    {
      ghost var w := State();
      chunk.SetCurrentSkyLightLevel(level);
      ghost var r := Lighting.WithSkyLevel(w, chunk.chunkPosition, level);
      forall q | q in activeChunks
        ensures State().chunks[q] == r.chunks[q]
      {
        if q != chunk.chunkPosition {
          assert activeChunks[q].blocks != chunk.blocks;
        }
      }
      Lighting.WithSkyLevelKeepsQueue(w, chunk.chunkPosition, level);
    }

    /**
     * One pass of `UpdateChunks`' loop: a chunk whose sky level is not
     * level gets the level and has all its cells marked.
     */
    method UpdateChunkSkyLevel(chunk: Chunk, level: int)
      requires Valid() && chunk.chunkPosition in activeChunks && activeChunks[chunk.chunkPosition] == chunk
      requires 0 <= level <= MAX_LIGHTING_LEVEL
      modifies this`dirtyBlocks, Arrays(), chunk`currentSkyLightLevel
      ensures Valid() && State() == Lighting.SkyStep(old(State()), chunk.chunkPosition, level)
    {
      if chunk.currentSkyLightLevel != level {
        SetSkyLevel(chunk, level);
        MarkChunkLightingDirty(chunk);
      }
    }

    /** The pass of `UpdateChunks`' loop over the chunk at order[i]: with order[i..] to go toward goal, order[i + 1..] are left. */
    method UpdateChunkAt(order: seq<ChunkCoords>, i: int, level: int, ghost goal: Lighting.LightWorld)
      requires Valid() && 0 <= i < |order| && forall j :: 0 <= j < |order| ==> order[j] in activeChunks
      requires 0 <= level <= MAX_LIGHTING_LEVEL && Lighting.UpdateSkyLevels(State(), order[i..], level) == goal
      modifies this`dirtyBlocks, Arrays(), Chunks()`currentSkyLightLevel
      ensures Valid() && Lighting.UpdateSkyLevels(State(), order[i + 1..], level) == goal
    {
      var currentChunk := activeChunks[order[i]];
      Lighting.UpdateSkyLevelsUnfolds(State(), order[i..], level, order[i + 1..]);
      UpdateChunkSkyLevel(currentChunk, level);
    }

    /** The loop of `UpdateChunks` over the chunks at order, all active, in turn. */
    method UpdateChunksInOrder(order: seq<ChunkCoords>, chunkLightLevel: int)
      requires Valid() && 0 <= chunkLightLevel <= MAX_LIGHTING_LEVEL && forall j :: 0 <= j < |order| ==> order[j] in activeChunks
      modifies this`dirtyBlocks, Arrays(), Chunks()`currentSkyLightLevel
      ensures Valid() && State() == Lighting.UpdateSkyLevels(old(State()), order, chunkLightLevel)
    {
      ghost var goal := Lighting.UpdateSkyLevels(State(), order, chunkLightLevel);
      var i := 0;
      while i < |order|
        invariant 0 <= i <= |order| && Valid()
        invariant Lighting.UpdateSkyLevels(State(), order[i..], chunkLightLevel) == goal
      {
        UpdateChunkAt(order, i, chunkLightLevel, goal);
        i := i + 1;
      }
      assert order[i..] == [];
    }

    /**
     * `UpdateChunks`: the level is night light when useNightLightLevel is
     * set and full light otherwise, and the chunks are visited in the key
     * order of the active map; the world ends as `Lighting.UpdateSkyLevels`
     * says.
     */
    method UpdateChunks(useNightLightLevel: bool, order: seq<ChunkCoords>)
      requires Valid() && InKeyOrder(activeChunks.Keys, order)
      modifies this`dirtyBlocks, Arrays(), Chunks()`currentSkyLightLevel
      ensures Valid()
      ensures State() == Lighting.UpdateSkyLevels(old(State()), order, if useNightLightLevel then NIGHT_LIGHTING_LEVEL else MAX_LIGHTING_LEVEL)
    {
      LightConstantValues();
      var chunkLightLevel := if useNightLightLevel then NIGHT_LIGHTING_LEVEL else MAX_LIGHTING_LEVEL;
      UpdateChunksInOrder(order, chunkLightLevel);
    }

    /** Pass 1's block update: the block becomes sky at full light, through the block pointer. */
    method SkyLightCell(chunk: Chunk, lbi: LocalBlockIndex)
      requires Valid() && chunk.chunkPosition in activeChunks && activeChunks[chunk.chunkPosition] == chunk
      requires lbi < NUM_BLOCKS_PER_CHUNK
      modifies chunk.blocks
      ensures Valid()
      ensures State() == Lighting.Put(old(State()), Lighting.Cell(chunk.chunkPosition, lbi),
                                      Lighting.SkyLit(Lighting.At(old(State()), Lighting.Cell(chunk.chunkPosition, lbi))))
    {
      ghost var w := State();
      var bi := BlockInfo(chunk, lbi);
      var currentBlock := chunk.GetBlockFromLocalBlockIndex(lbi).value;
      WriteCell(bi, Lighting.SkyLit(currentBlock));
      Lighting.PutKeepsQueue(w, CellOf(bi), Lighting.SkyLit(currentBlock));
    }

    /** One pass of pass 1's inner loop, at a cell that is not opaque: with height z next toward goal, z - 1 is next after it. */
    method SkyLightToward(chunk: Chunk, columnIndex: ChunkColumnIndex, blockHeight: int, ghost goal: Lighting.LightWorld)
      requires Valid() && chunk.chunkPosition in activeChunks && activeChunks[chunk.chunkPosition] == chunk
      requires columnIndex < NUM_COLUMNS_PER_CHUNK && 0 <= blockHeight < CHUNK_Z_HEIGHT_IN_BLOCKS
      requires !IsOpaque(Lighting.At(State(), Lighting.Cell(chunk.chunkPosition, ColumnCell(columnIndex, blockHeight))))
      requires Lighting.SkyDownFrom(State(), chunk.chunkPosition, columnIndex, blockHeight) == goal
      modifies chunk.blocks
      ensures Valid() && Lighting.SkyDownFrom(State(), chunk.chunkPosition, columnIndex, blockHeight - 1) == goal
    {
      Lighting.SkyDownFromUnfolds(State(), chunk.chunkPosition, columnIndex, blockHeight, blockHeight - 1);
      SkyLightCell(chunk, ColumnCell(columnIndex, blockHeight));
    }

    /** Pass 1 of `InitializeLightingForChunk` in one column: from the top down to the first opaque cell, make each cell sky at full light. */
    method SkyLightColumn(chunk: Chunk, columnIndex: ChunkColumnIndex)
      requires Valid() && chunk.chunkPosition in activeChunks && activeChunks[chunk.chunkPosition] == chunk
      requires columnIndex < NUM_COLUMNS_PER_CHUNK
      modifies chunk.blocks
      ensures Valid() && State() == Lighting.SkyDownFrom(old(State()), chunk.chunkPosition, columnIndex, CHUNK_Z_HEIGHT_IN_BLOCKS - 1)
    {
      ghost var goal := Lighting.SkyDownFrom(State(), chunk.chunkPosition, columnIndex, CHUNK_Z_HEIGHT_IN_BLOCKS - 1);
      var blockHeight := CHUNK_Z_HEIGHT_IN_BLOCKS - 1;
      while blockHeight >= 0
        invariant -1 <= blockHeight < CHUNK_Z_HEIGHT_IN_BLOCKS && Valid()
        invariant Lighting.SkyDownFrom(State(), chunk.chunkPosition, columnIndex, blockHeight) == goal
      {
        var lcc := GetLocalColumnCoordsFromChunkColumnIndex(columnIndex);
        var lbc := IntVector3(lcc.x, lcc.y, blockHeight);
        var currentBlock := chunk.GetBlockFromLocalBlockCoords(lbc).value;
        if IsOpaque(currentBlock) {
          break;
        }
        SkyLightToward(chunk, columnIndex, blockHeight, goal);
        blockHeight := blockHeight - 1;
      }
    }

    /** One pass of pass 1's outer loop: with column col next toward goal, col + 1 is next after it. */
    method SkyLightColumnToward(chunk: Chunk, columnIndex: ChunkColumnIndex, ghost goal: Lighting.LightWorld) returns (next: int)
      requires Valid() && chunk.chunkPosition in activeChunks && activeChunks[chunk.chunkPosition] == chunk
      requires columnIndex < NUM_COLUMNS_PER_CHUNK && Lighting.SkyColumnsFrom(State(), chunk.chunkPosition, columnIndex) == goal
      modifies chunk.blocks
      ensures next == columnIndex + 1 && Valid() && Lighting.SkyColumnsFrom(State(), chunk.chunkPosition, next) == goal
    {
      next := columnIndex + 1;
      Lighting.SkyColumnsFromUnfolds(State(), chunk.chunkPosition, columnIndex, next);
      SkyLightColumn(chunk, columnIndex);
    }

    /** Pass 1 of `InitializeLightingForChunk`, column by column. */
    method SkyLightPass(chunk: Chunk, first: nat)
      requires Valid() && chunk.chunkPosition in activeChunks && activeChunks[chunk.chunkPosition] == chunk
      requires first <= NUM_COLUMNS_PER_CHUNK
      modifies chunk.blocks
      ensures activeChunks == old(activeChunks) && unchanged(Chunks())
      ensures Valid() && State() == Lighting.SkyColumnsFrom(old(State()), chunk.chunkPosition, first)
    {
      ghost var goal := Lighting.SkyColumnsFrom(State(), chunk.chunkPosition, first);
      var columnIndex := first;
      while columnIndex < NUM_COLUMNS_PER_CHUNK
        invariant first <= columnIndex <= NUM_COLUMNS_PER_CHUNK && Valid()
        invariant Lighting.SkyColumnsFrom(State(), chunk.chunkPosition, columnIndex) == goal
      {
        columnIndex := SkyLightColumnToward(chunk, columnIndex, goal);
      }
    }

    /** One pass of pass 2's inner loop, at a cell that is not opaque: with height z next toward goal, z - 1 is next after it. */
    method BleedToward(chunk: Chunk, columnIndex: ChunkColumnIndex, blockHeight: int, ghost goal: Lighting.LightWorld)
      requires Valid() && chunk.chunkPosition in activeChunks && activeChunks[chunk.chunkPosition] == chunk
      requires columnIndex < NUM_COLUMNS_PER_CHUNK && 0 <= blockHeight < CHUNK_Z_HEIGHT_IN_BLOCKS
      requires !IsOpaque(Lighting.At(State(), Lighting.Cell(chunk.chunkPosition, ColumnCell(columnIndex, blockHeight))))
      requires Lighting.BleedDownFrom(State(), chunk.chunkPosition, columnIndex, blockHeight) == goal
      modifies this`dirtyBlocks, Arrays()
      ensures Valid() && Lighting.BleedDownFrom(State(), chunk.chunkPosition, columnIndex, blockHeight - 1) == goal
    {
      Lighting.BleedDownFromUnfolds(State(), chunk.chunkPosition, columnIndex, blockHeight, blockHeight - 1);
      DirtyNonSkyNeighborsForBlock(BlockInfo(chunk, ColumnCell(columnIndex, blockHeight)), false);
    }

    /** Pass 2 of `InitializeLightingForChunk` in one column: from the top down to the first opaque cell, mark the non-sky horizontal neighbours. */
    method BleedColumn(chunk: Chunk, columnIndex: ChunkColumnIndex)
      requires Valid() && chunk.chunkPosition in activeChunks && activeChunks[chunk.chunkPosition] == chunk
      requires columnIndex < NUM_COLUMNS_PER_CHUNK
      modifies this`dirtyBlocks, Arrays()
      ensures Valid() && State() == Lighting.BleedDownFrom(old(State()), chunk.chunkPosition, columnIndex, CHUNK_Z_HEIGHT_IN_BLOCKS - 1)
    {
      ghost var goal := Lighting.BleedDownFrom(State(), chunk.chunkPosition, columnIndex, CHUNK_Z_HEIGHT_IN_BLOCKS - 1);
      var blockHeight := CHUNK_Z_HEIGHT_IN_BLOCKS - 1;
      while blockHeight >= 0
        invariant -1 <= blockHeight < CHUNK_Z_HEIGHT_IN_BLOCKS && Valid()
        invariant Lighting.BleedDownFrom(State(), chunk.chunkPosition, columnIndex, blockHeight) == goal
      {
        var lcc := GetLocalColumnCoordsFromChunkColumnIndex(columnIndex);
        var lbc := IntVector3(lcc.x, lcc.y, blockHeight);
        var lbi := GetLocalBlockIndexFromLocalBlockCoords(lbc);
        var currentBlock := chunk.GetBlockFromLocalBlockIndex(lbi).value;
        if IsOpaque(currentBlock) {
          break;
        }
        BleedToward(chunk, columnIndex, blockHeight, goal);
        blockHeight := blockHeight - 1;
      }
    }

    /** One pass of pass 2's outer loop: with column col next toward goal, col + 1 is next after it. */
    method BleedColumnToward(chunk: Chunk, columnIndex: ChunkColumnIndex, ghost goal: Lighting.LightWorld) returns (next: int)
      requires Valid() && chunk.chunkPosition in activeChunks && activeChunks[chunk.chunkPosition] == chunk
      requires columnIndex < NUM_COLUMNS_PER_CHUNK && Lighting.BleedColumnsFrom(State(), chunk.chunkPosition, columnIndex) == goal
      modifies this`dirtyBlocks, Arrays()
      ensures next == columnIndex + 1 && Valid() && Lighting.BleedColumnsFrom(State(), chunk.chunkPosition, next) == goal
    {
      next := columnIndex + 1;
      Lighting.BleedColumnsFromUnfolds(State(), chunk.chunkPosition, columnIndex, next);
      BleedColumn(chunk, columnIndex);
    }

    /** Pass 2 of `InitializeLightingForChunk`, column by column. */
    method BleedPass(chunk: Chunk, first: nat)
      requires Valid() && chunk.chunkPosition in activeChunks && activeChunks[chunk.chunkPosition] == chunk
      requires first <= NUM_COLUMNS_PER_CHUNK
      modifies this`dirtyBlocks, Arrays()
      ensures activeChunks == old(activeChunks) && unchanged(Chunks())
      ensures Valid() && State() == Lighting.BleedColumnsFrom(old(State()), chunk.chunkPosition, first)
    {
      ghost var goal := Lighting.BleedColumnsFrom(State(), chunk.chunkPosition, first);
      var columnIndex := first;
      while columnIndex < NUM_COLUMNS_PER_CHUNK
        invariant first <= columnIndex <= NUM_COLUMNS_PER_CHUNK && Valid()
        invariant Lighting.BleedColumnsFrom(State(), chunk.chunkPosition, columnIndex) == goal
      {
        columnIndex := BleedColumnToward(chunk, columnIndex, goal);
      }
    }

    /** One pass of pass 3's loop: a non-sky cell whose type emits light is marked; with cell k next toward goal, k + 1 is next after it. */
    method MarkEmitterToward(chunk: Chunk, blockIndex: int, ghost goal: Lighting.LightWorld) returns (next: int)
      requires Valid() && chunk.chunkPosition in activeChunks && activeChunks[chunk.chunkPosition] == chunk
      requires 0 <= blockIndex < NUM_BLOCKS_PER_CHUNK && Lighting.EmittersFrom(State(), chunk.chunkPosition, blockIndex) == goal
      modifies this`dirtyBlocks, Arrays()
      ensures next == blockIndex + 1 && Valid() && Lighting.EmittersFrom(State(), chunk.chunkPosition, next) == goal
    {
      next := blockIndex + 1;
      Lighting.EmittersFromUnfolds(State(), chunk.chunkPosition, blockIndex, next);
      var currentBlock := chunk.GetBlockFromLocalBlockIndex(blockIndex).value;
      if !IsSky(currentBlock) && BlockDefinitions.GetLightLevel(currentBlock.blockType) > 0 {
        MarkBlockLightingDirty(BlockInfo(chunk, blockIndex));
      }
    }

    /** Pass 3 of `InitializeLightingForChunk`: every non-sky emitter of the chunk is marked, in index order. */
    method MarkEmittersPass(chunk: Chunk, first: nat)
      requires Valid() && chunk.chunkPosition in activeChunks && activeChunks[chunk.chunkPosition] == chunk
      requires first <= NUM_BLOCKS_PER_CHUNK
      modifies this`dirtyBlocks, Arrays()
      ensures activeChunks == old(activeChunks) && unchanged(Chunks())
      ensures Valid() && State() == Lighting.EmittersFrom(old(State()), chunk.chunkPosition, first)
    {
      ghost var goal := Lighting.EmittersFrom(State(), chunk.chunkPosition, first);
      var blockIndex := first;
      while blockIndex < NUM_BLOCKS_PER_CHUNK
        invariant first <= blockIndex <= NUM_BLOCKS_PER_CHUNK && Valid()
        invariant Lighting.EmittersFrom(State(), chunk.chunkPosition, blockIndex) == goal
      {
        blockIndex := MarkEmitterToward(chunk, blockIndex, goal);
      }
    }

    /** Passes 1 and 2 of `InitializeLightingForChunk`. */
    method SkyAndBleedPasses(chunk: Chunk)
      requires Valid() && chunk.chunkPosition in activeChunks && activeChunks[chunk.chunkPosition] == chunk
      modifies this`dirtyBlocks, Arrays()
      ensures activeChunks == old(activeChunks) && unchanged(Chunks())
      ensures Valid()
      ensures State() == Lighting.BleedColumnsFrom(Lighting.SkyColumnsFrom(old(State()), chunk.chunkPosition, 0), chunk.chunkPosition, 0)
    {
      SkyLightPass(chunk, 0);
      BleedPass(chunk, 0);
    }

    /**
     * `InitializeLightingForChunk` on an active, linked chunk: the world
     * ends as `Lighting.InitializeLighting` says.
     */
    method InitializeLightingForChunk(newChunk: Chunk)
      requires Valid() && newChunk.chunkPosition in activeChunks && activeChunks[newChunk.chunkPosition] == newChunk
      modifies this`dirtyBlocks, Arrays()
      ensures activeChunks == old(activeChunks) && unchanged(Chunks())
      ensures Valid() && State() == Lighting.InitializeLighting(old(State()), newChunk.chunkPosition)
    {
      SkyAndBleedPasses(newChunk);
      MarkEmittersPass(newChunk, 0);
    }

    /** The neighbour pointers of the active chunks. */
    ghost function Links(): (links: map<ChunkCoords, Neighbours>)
      reads this`activeChunks, Chunks()`northNeighbor, Chunks()`eastNeighbor, Chunks()`westNeighbor, Chunks()`southNeighbor
      ensures links.Keys == activeChunks.Keys
    {
      LinksOf(activeChunks)
    }

    lemma LinkedByLinks()
      requires Links() == LinkedLinks(activeChunks)
      ensures Linked()
    {
      forall q | q in activeChunks
        ensures activeChunks[q].GetNeighbours() == NeighboursIn(activeChunks, q)
      {
        assert Links()[q] == LinkedLinks(activeChunks)[q];
      }
    }

    /** Once the four sides of the chunk inserted at p are wired, every active chunk is linked. */
    lemma LinkedAfterWiring(p: ChunkCoords, links: map<ChunkCoords, Neighbours>)
      requires p in activeChunks && links == LinksBeforeWiring(activeChunks, p)
      requires Links() == LinkAllSides(links, activeChunks, p)
      ensures Linked()
    {
      WiringLinks(activeChunks, p);
      LinkedByLinks();
    }

    lemma LinksWhenLinked()
      requires Linked()
      ensures Links() == LinkedLinks(activeChunks)
    {
    }

    /** A step that leaves the world's own fields, the block arrays and the sky levels as they were keeps the lighting state. */
    twostate lemma LightKept()
      requires old(Structure()) && unchanged(this) && unchanged(old(Arrays()))
      requires forall c :: c in old(Chunks()) ==> c.currentSkyLightLevel == old(c.currentSkyLightLevel)
      ensures Structure() && State() == old(State())
    {
      assert LightChunks(activeChunks) == old(LightChunks(activeChunks));
    }

    /** A step that changes none of the world's objects, such as allocating a new chunk, keeps every view of the world. */
    twostate lemma AllKept()
      requires old(Valid()) && unchanged(this) && unchanged(old(Chunks())) && unchanged(old(Arrays()))
      ensures Valid() && State() == old(State()) && Meshes() == old(Meshes())
    {
      LightKept();
      MeshesKept();
      assert Linked() by {
        forall p | p in activeChunks
          ensures activeChunks[p].GetNeighbours() == NeighboursIn(activeChunks, p)
        {
          assert activeChunks[p] in old(Chunks());
        }
      }
    }

    /** A step that leaves the map and every mesh flag as they were keeps `Meshes()`. */
    twostate lemma MeshesKept()
      requires old(activeChunks) == activeChunks
      requires forall c :: c in old(Chunks()) ==> c.isVertexArrayDirty == old(c.isVertexArrayDirty)
      ensures Meshes() == old(Meshes())
    {
      forall q | q in activeChunks
        ensures Meshes()[q] == old(Meshes())[q]
      {
        assert activeChunks[q] in old(Chunks());
      }
    }

    /** Whether each active chunk's mesh is dirty. */
    ghost function Meshes(): (meshes: map<ChunkCoords, bool>)
      reads this`activeChunks, Chunks()`isVertexArrayDirty
      ensures meshes.Keys == activeChunks.Keys
    {
      MeshesOf(activeChunks)
    }

    /** One pointer write on an active chunk; the lighting state and the mesh flags are kept. */
    method WireChunk(c: Chunk, s: Side, v: Chunk?)
      requires Structure() && c.chunkPosition in activeChunks && activeChunks[c.chunkPosition] == c
      modifies c`northNeighbor, c`eastNeighbor, c`westNeighbor, c`southNeighbor
      ensures activeChunks == old(activeChunks)
      ensures Links() == old(Links())[c.chunkPosition := WithSide(old(Links())[c.chunkPosition], s, v)]
      ensures Structure() && State() == old(State()) && Meshes() == old(Meshes())
    {
      WirePointerLight(c, s, v);
      MeshesKept();
    }

    method WirePointerLight(c: Chunk, s: Side, v: Chunk?)
      requires Structure() && c.chunkPosition in activeChunks && activeChunks[c.chunkPosition] == c
      modifies c`northNeighbor, c`eastNeighbor, c`westNeighbor, c`southNeighbor
      ensures activeChunks == old(activeChunks)
      ensures Links() == old(Links())[c.chunkPosition := WithSide(old(Links())[c.chunkPosition], s, v)]
      ensures Structure() && State() == old(State())
    {
      WirePointer(c, s, v);
      LightKept();
    }

    method WirePointer(c: Chunk, s: Side, v: Chunk?)
      requires Positioned(activeChunks) && c.chunkPosition in activeChunks && activeChunks[c.chunkPosition] == c
      modifies c`northNeighbor, c`eastNeighbor, c`westNeighbor, c`southNeighbor
      ensures activeChunks == old(activeChunks)
      ensures Links() == old(Links())[c.chunkPosition := WithSide(old(Links())[c.chunkPosition], s, v)]
    {
      ghost var links := Links();
      Wire(c, s, v);
      forall q | q in activeChunks
        ensures Links()[q] == links[c.chunkPosition := WithSide(links[c.chunkPosition], s, v)][q]
      {
        assert activeChunks[q].chunkPosition == q;
      }
    }

    /**
     * The pointer writes of one side of `UpdateNeighborPointers`: the new
     * chunk points on side s at the active chunk at tmpCoords, which points
     * back, or at null when none is active there.
     */
    method WireSide(newChunk: Chunk, s: Side, tmpCoords: ChunkCoords)
      requires Structure() && newChunk.chunkPosition in activeChunks && activeChunks[newChunk.chunkPosition] == newChunk
      requires tmpCoords == SideCoords(newChunk.chunkPosition, s)
      modifies Chunks()`northNeighbor, Chunks()`eastNeighbor, Chunks()`westNeighbor, Chunks()`southNeighbor
      ensures activeChunks == old(activeChunks)
      ensures Links() == LinkSideOf(old(Links()), activeChunks, newChunk.chunkPosition, s)
      ensures Structure() && State() == old(State()) && Meshes() == old(Meshes())
    {
      if tmpCoords in activeChunks {
        var neighbor := activeChunks[tmpCoords];
        WireChunk(newChunk, s, neighbor);
        WireChunk(neighbor, OppositeSide(s), newChunk);
      } else {
        WireChunk(newChunk, s, null);
      }
    }

    /** A chunk just linked to: its mesh and every one of its cells becomes dirty. */
    method DirtySideChunk(neighbor: Chunk)
      requires Queued() && neighbor.chunkPosition in activeChunks && activeChunks[neighbor.chunkPosition] == neighbor
      modifies neighbor`isVertexArrayDirty, this`dirtyBlocks, Arrays()
      ensures activeChunks == old(activeChunks)
      ensures Queued() && Meshes() == MeshDirtied(old(Meshes()), neighbor.chunkPosition) && Links() == old(Links())
      ensures State() == Lighting.MarkCellsFrom(old(State()), neighbor.chunkPosition, 0)
    {
      MarkSideMesh(neighbor);
      label marked:
      MarkChunkLightingDirty(neighbor);
      ChunkFieldsKept@marked(activeChunks);
    }

    /** `MarkVertexArrayDirty` on a chunk just linked to. */
    method MarkSideMesh(neighbor: Chunk)
      requires Queued() && neighbor.chunkPosition in activeChunks && activeChunks[neighbor.chunkPosition] == neighbor
      modifies neighbor`isVertexArrayDirty
      ensures activeChunks == old(activeChunks)
      ensures Structure() && State() == old(State()) && Meshes() == MeshDirtied(old(Meshes()), neighbor.chunkPosition)
      ensures Links() == old(Links())
    {
      ghost var meshes := Meshes();
      neighbor.MarkVertexArrayDirty();
      forall q | q in activeChunks
        ensures Meshes()[q] == MeshDirtied(meshes, neighbor.chunkPosition)[q]
      {
        assert activeChunks[q].chunkPosition == q;
      }
    }

    /** One side of `UpdateNeighborPointers`: the pointer writes, then marking the chunk at tmpCoords when it is active. */
    method LinkSide(newChunk: Chunk, s: Side, tmpCoords: ChunkCoords)
      requires Queued() && newChunk.chunkPosition in activeChunks && activeChunks[newChunk.chunkPosition] == newChunk
      requires tmpCoords == SideCoords(newChunk.chunkPosition, s)
      modifies Chunks()`northNeighbor, Chunks()`eastNeighbor, Chunks()`westNeighbor, Chunks()`southNeighbor
      modifies Chunks()`isVertexArrayDirty, this`dirtyBlocks, Arrays()
      ensures activeChunks == old(activeChunks)
      ensures Queued() && Links() == LinkSideOf(old(Links()), activeChunks, newChunk.chunkPosition, s)
      ensures State() == Lighting.MarkIfActive(old(State()), tmpCoords)
      ensures Meshes() == MeshDirtied(old(Meshes()), tmpCoords)
    {
      WireSide(newChunk, s, tmpCoords);
      if tmpCoords in activeChunks {
        DirtySideChunk(activeChunks[tmpCoords]);
      }
    }

    /** Two sides of `UpdateNeighborPointers`, one after the other. */
    method LinkSidePair(newChunk: Chunk, s1: Side, t1: ChunkCoords, s2: Side, t2: ChunkCoords)
      requires Queued() && newChunk.chunkPosition in activeChunks && activeChunks[newChunk.chunkPosition] == newChunk
      requires t1 == SideCoords(newChunk.chunkPosition, s1) && t2 == SideCoords(newChunk.chunkPosition, s2)
      modifies Chunks()`northNeighbor, Chunks()`eastNeighbor, Chunks()`westNeighbor, Chunks()`southNeighbor
      modifies Chunks()`isVertexArrayDirty, this`dirtyBlocks, Arrays()
      ensures activeChunks == old(activeChunks)
      ensures Queued()
      ensures Links() == LinkSideOf(LinkSideOf(old(Links()), activeChunks, newChunk.chunkPosition, s1), activeChunks, newChunk.chunkPosition, s2)
      ensures State() == Lighting.MarkIfActive(Lighting.MarkIfActive(old(State()), t1), t2)
      ensures Meshes() == MeshDirtied(MeshDirtied(old(Meshes()), t1), t2)
    {
      LinkSide(newChunk, s1, t1);
      LinkSide(newChunk, s2, t2);
    }

    /**
     * `UpdateNeighborPointers`: links the new chunk both ways with each
     * active chunk beside it, north, south, west and east in turn, and
     * marks each of those chunks' meshes and cells dirty.  All four
     * coordinates are computed first, by the source's own steps.
     */
    method UpdateNeighborPointers(newChunk: Chunk)
      requires Queued() && newChunk.chunkPosition in activeChunks && activeChunks[newChunk.chunkPosition] == newChunk
      modifies Chunks()`northNeighbor, Chunks()`eastNeighbor, Chunks()`westNeighbor, Chunks()`southNeighbor
      modifies Chunks()`isVertexArrayDirty, this`dirtyBlocks, Arrays()
      ensures activeChunks == old(activeChunks)
      ensures Queued() && Links() == LinkAllSides(old(Links()), activeChunks, newChunk.chunkPosition)
      ensures State() == Lighting.MarkNeighbourChunks(old(State()), newChunk.chunkPosition)
      ensures Meshes() == MeshesBesideDirtied(old(Meshes()), newChunk.chunkPosition)
    {
      var newChunkPos := newChunk.chunkPosition;
      var tmpCoords := IntVector2(newChunkPos.x + 1, newChunkPos.y);
      var southCoords := tmpCoords.(x := tmpCoords.x - 2);
      var westCoords := southCoords.(x := southCoords.x + 1, y := southCoords.y + 1);
      var eastCoords := westCoords.(y := westCoords.y - 2);
      CoordsBeside(newChunkPos, tmpCoords, southCoords);
      CoordsAround(newChunkPos, westCoords, eastCoords);
      LinkSidePair(newChunk, NorthSide, tmpCoords, SouthSide, southCoords);
      LinkSidePair(newChunk, WestSide, westCoords, EastSide, eastCoords);
    }

    /**
     * The first two statements of `CreateOrLoadChunk`: a new chunk, with
     * default cells, a dirty mesh and no neighbours, is stored at pos.
     */
    method InsertChunk(pos: ChunkCoords) returns (newChunk: Chunk)
      requires Valid() && pos !in activeChunks
      modifies this`activeChunks
      ensures fresh(newChunk) && fresh(newChunk.blocks) && newChunk.chunkPosition == pos && activeChunks == old(activeChunks)[pos := newChunk]
      ensures Queued() && Links() == LinksBeforeWiring(activeChunks, pos)
      ensures State() == Lighting.Arrive(old(State()), pos) && Lighting.QueueAvoids(State(), pos)
      ensures Meshes() == old(Meshes())[pos := true]
    {
      ghost var w := State();
      ghost var meshes := Meshes();
      LinksWhenLinked();
      newChunk := new Chunk(pos, activeDimension);
      AllKept();
      StoreChunk(newChunk, w);
    }

    /** The map update of `CreateOrLoadChunk` on a chunk just built at a free position. */
    method StoreChunk(newChunk: Chunk, ghost w: Lighting.LightWorld)
      requires Valid() && State() == w && newChunk.chunkPosition !in activeChunks && newChunk.blocks !in Arrays()
      requires newChunk.Wf() && newChunk.chunkDimension == activeDimension && newChunk.GetNeighbours() == NO_NEIGHBOURS
      requires newChunk.blocks[..] == DefaultCells(NUM_BLOCKS_PER_CHUNK)
      requires newChunk.isVertexArrayDirty && newChunk.currentSkyLightLevel == MAX_LIGHTING_LEVEL
      modifies this`activeChunks
      ensures activeChunks == old(activeChunks)[newChunk.chunkPosition := newChunk]
      ensures Queued() && Links() == LinksBeforeWiring(activeChunks, newChunk.chunkPosition)
      ensures State() == Lighting.Arrive(w, newChunk.chunkPosition) && Lighting.QueueAvoids(State(), newChunk.chunkPosition)
      ensures Meshes() == old(Meshes())[newChunk.chunkPosition := true]
    {
      var pos := newChunk.chunkPosition;
      activeChunks := activeChunks[pos := newChunk];
      StoredState(newChunk);
      StoredLinks(newChunk);
    }

    /** Storing a chunk with default cells and a full sky level at a free position keeps the others' lighting state. */
    twostate lemma StoredState(c: Chunk)
      requires old(Queued()) && c.chunkPosition !in old(activeChunks) && c.blocks !in old(Arrays())
      requires c.Wf() && c.chunkDimension == activeDimension && c.currentSkyLightLevel == MAX_LIGHTING_LEVEL
      requires c.blocks[..] == DefaultCells(NUM_BLOCKS_PER_CHUNK)
      requires activeChunks == old(activeChunks)[c.chunkPosition := c] && dirtyBlocks == old(dirtyBlocks)
      requires unchanged(old(Chunks())) && unchanged(old(Arrays()))
      ensures Queued() && State() == Lighting.Arrive(old(State()), c.chunkPosition) && Lighting.QueueAvoids(State(), c.chunkPosition)
    {
      ghost var m := old(activeChunks);
      LightChunksKept(m);
      InsertKeepsOthers(m, activeDimension, dirtyBlocks, c.chunkPosition, c);
      Lighting.ArriveKeepsQueue(old(State()), c.chunkPosition);
    }

    /** Storing a chunk that points nowhere and has a dirty mesh at a free position: the pointers are as just before wiring it. */
    twostate lemma StoredLinks(c: Chunk)
      requires old(Linked()) && c.chunkPosition !in old(activeChunks)
      requires c.GetNeighbours() == NO_NEIGHBOURS && c.isVertexArrayDirty
      requires activeChunks == old(activeChunks)[c.chunkPosition := c] && unchanged(old(Chunks()))
      ensures Links() == LinksBeforeWiring(activeChunks, c.chunkPosition)
      ensures Meshes() == old(Meshes())[c.chunkPosition := true]
    {
      ghost var m := old(activeChunks);
      ChunkFieldsKept(m);
      assert LinkedIn(m);
      InsertBeforeWiring(m, c.chunkPosition, c);
      assert MeshesOf(m[c.chunkPosition := c]) == MeshesOf(m)[c.chunkPosition := true];
    }

    /** `CreateOrLoadChunk`'s population of the chunk it has just linked: only that chunk's cells change. */
    method PopulateNewChunk(newChunk: Chunk, savedChunk: Option<seq<Rle.Byte>>,
                            scaledGroundNoise: IntVector2 -> int, scaledCeilingNoise: IntVector2 -> int)
      requires Valid() && newChunk.chunkPosition in activeChunks && activeChunks[newChunk.chunkPosition] == newChunk
      requires Lighting.QueueAvoids(State(), newChunk.chunkPosition)
      requires State().chunks[newChunk.chunkPosition].blocks == DefaultCells(NUM_BLOCKS_PER_CHUNK)
      requires savedChunk.Some? ==> Rle.WellFormedRle(savedChunk.value)
      modifies newChunk.blocks
      ensures activeChunks == old(activeChunks)
      ensures Valid() && Meshes() == old(Meshes())
      ensures State() == Lighting.WithCells(old(State()), newChunk.chunkPosition,
                                            PopulatedCells(newChunk.chunkPosition, activeDimension, savedChunk, scaledGroundNoise, scaledCeilingNoise))
    {
      ghost var w := State();
      ghost var cells := PopulatedCells(newChunk.chunkPosition, activeDimension, savedChunk, scaledGroundNoise, scaledCeilingNoise);
      PopulateCells(newChunk, savedChunk, scaledGroundNoise, scaledCeilingNoise);
      CellsReplaced(newChunk);
      Lighting.WithCellsKeepsQueue(w, newChunk.chunkPosition, cells);
    }

    /** A step that changes no chunk object keeps the chunks linked. */
    twostate lemma LinkedKept()
      requires old(Linked()) && unchanged(this) && unchanged(old(Chunks()))
      ensures Linked()
    {
      forall p | p in activeChunks
        ensures activeChunks[p].GetNeighbours() == NeighboursIn(activeChunks, p)
      {
        assert activeChunks[p] in old(Chunks());
      }
    }

    /** A step that rewrites one active chunk's cells and nothing else changes the lighting state at that chunk alone. */
    twostate lemma CellsReplaced(c: Chunk)
      requires old(Valid()) && unchanged(this) && unchanged(old(Chunks()))
      requires c.chunkPosition in activeChunks && activeChunks[c.chunkPosition] == c
      requires forall a :: a in old(Arrays()) && a != c.blocks ==> unchanged(a)
      ensures Structure() && Linked() && Meshes() == old(Meshes())
      ensures State() == Lighting.WithCells(old(State()), c.chunkPosition, c.blocks[..])
    {
      MeshesKept();
      LinkedKept();
      ghost var r := Lighting.WithCells(old(State()), c.chunkPosition, c.blocks[..]);
      forall q | q in activeChunks
        ensures State().chunks[q] == r.chunks[q]
      {
        if q != c.chunkPosition {
          assert activeChunks[q].blocks != c.blocks && activeChunks[q].blocks in old(Arrays());
        }
      }
    }

    /**
     * `CreateOrLoadChunk` up to its population: the chunk is stored at pos
     * and linked both ways with the chunks beside it, which are marked.
     */
    method AddLinkedChunk(pos: ChunkCoords) returns (newChunk: Chunk)
      requires Valid() && pos !in activeChunks
      modifies this`activeChunks, Chunks()`northNeighbor, Chunks()`eastNeighbor, Chunks()`westNeighbor, Chunks()`southNeighbor
      modifies Chunks()`isVertexArrayDirty, this`dirtyBlocks, Arrays()
      ensures fresh(newChunk) && fresh(newChunk.blocks) && newChunk.chunkPosition == pos && activeChunks == old(activeChunks)[pos := newChunk]
      ensures Valid() && State() == Lighting.MarkNeighbourChunks(Lighting.Arrive(old(State()), pos), pos)
      ensures Meshes() == MeshesBesideDirtied(old(Meshes())[pos := true], pos)
    {
      newChunk := InsertChunk(pos);
      ghost var links := Links();
      UpdateNeighborPointers(newChunk);
      LinkedAfterWiring(pos, links);
    }

    /** `RebuildVertexArray` on an active chunk: its mesh is clean again, and the lighting state is kept. */
    method BuildMesh(chunk: Chunk)
      requires Valid() && chunk.chunkPosition in activeChunks && activeChunks[chunk.chunkPosition] == chunk
      modifies chunk`isVertexArrayDirty
      ensures activeChunks == old(activeChunks)
      ensures Valid() && State() == old(State()) && Meshes() == old(Meshes())[chunk.chunkPosition := false]
    {
      ghost var meshes := Meshes();
      chunk.RebuildVertexArray();
      LightKept();
      forall q | q in activeChunks
        ensures Meshes()[q] == meshes[chunk.chunkPosition := false][q]
      {
        assert activeChunks[q].chunkPosition == q;
      }
    }

    /** The last two statements of `CreateOrLoadChunk`: lighting the new chunk and building its mesh. */
    method LightAndBuild(newChunk: Chunk)
      requires Valid() && newChunk.chunkPosition in activeChunks && activeChunks[newChunk.chunkPosition] == newChunk
      modifies this`dirtyBlocks, Arrays(), newChunk`isVertexArrayDirty
      ensures activeChunks == old(activeChunks)
      ensures Valid() && State() == Lighting.InitializeLighting(old(State()), newChunk.chunkPosition)
      ensures Meshes() == old(Meshes())[newChunk.chunkPosition := false]
    {
      InitializeLightingForChunk(newChunk);
      ChunkFieldsKept(activeChunks);
      BuildMesh(newChunk);
    }

    /**
     * `CreateOrLoadChunk` after linking: population, then lighting and the
     * mesh.  The world before the chunk arrived had lighting state w and
     * mesh flags meshes.
     */
    method PopulateLightBuild(newChunk: Chunk, savedChunk: Option<seq<Rle.Byte>>,
                              scaledGroundNoise: IntVector2 -> int, scaledCeilingNoise: IntVector2 -> int,
                              ghost w: Lighting.LightWorld, ghost meshes: map<ChunkCoords, bool>, ghost arrs: set<array<Block>>)
      requires Valid() && newChunk.chunkPosition in activeChunks && activeChunks[newChunk.chunkPosition] == newChunk
      requires Arrays() <= arrs && newChunk.blocks in arrs
      requires Lighting.DirtyIffQueued(w) && newChunk.chunkPosition !in w.chunks && newChunk.chunkPosition !in meshes
      requires State() == Lighting.MarkNeighbourChunks(Lighting.Arrive(w, newChunk.chunkPosition), newChunk.chunkPosition)
      requires Meshes() == MeshesBesideDirtied(meshes[newChunk.chunkPosition := true], newChunk.chunkPosition)
      requires savedChunk.Some? ==> Rle.WellFormedRle(savedChunk.value)
      modifies this`dirtyBlocks, arrs, newChunk`isVertexArrayDirty
      ensures activeChunks == old(activeChunks)
      ensures Valid() && State() == Lighting.Created(w, newChunk.chunkPosition,
                           PopulatedCells(newChunk.chunkPosition, activeDimension, savedChunk, scaledGroundNoise, scaledCeilingNoise))
      ensures Meshes() == MeshesBesideDirtied(meshes, newChunk.chunkPosition)[newChunk.chunkPosition := false]
    {
      Lighting.LinkedArrivalFacts(w, newChunk.chunkPosition);
      MeshesOfCreated(meshes, newChunk.chunkPosition);
      PopulateNewChunk(newChunk, savedChunk, scaledGroundNoise, scaledCeilingNoise);
      LightAndBuild(newChunk);
    }

    /**
     * `CreateOrLoadChunk`: the chunk at unloadedChunkPos becomes active,
     * linked with its neighbours, which are marked for relighting, filled
     * from savedChunk (the save file's bytes, when one was read) or from
     * the terrain generator, lit, and given a clean mesh.
     */
    method CreateOrLoadChunk(unloadedChunkPos: ChunkCoords, savedChunk: Option<seq<Rle.Byte>>,
                             scaledGroundNoise: IntVector2 -> int, scaledCeilingNoise: IntVector2 -> int) returns (newChunk: Chunk)
      requires Valid() && unloadedChunkPos !in activeChunks
      requires savedChunk.Some? ==> Rle.WellFormedRle(savedChunk.value)
      modifies this`activeChunks, Chunks()`northNeighbor, Chunks()`eastNeighbor, Chunks()`westNeighbor, Chunks()`southNeighbor
      modifies Chunks()`isVertexArrayDirty, this`dirtyBlocks, Arrays()
      ensures fresh(newChunk) && newChunk.chunkPosition == unloadedChunkPos
      ensures activeChunks == old(activeChunks)[unloadedChunkPos := newChunk]
      ensures Valid() && State() == Lighting.Created(old(State()), unloadedChunkPos,
                           PopulatedCells(unloadedChunkPos, activeDimension, savedChunk, scaledGroundNoise, scaledCeilingNoise))
      ensures Meshes() == MeshesBesideDirtied(old(Meshes()), unloadedChunkPos)[unloadedChunkPos := false]
    {
      ghost var w, meshes, arrs := State(), Meshes(), Arrays();
      ghost var m := activeChunks;
      newChunk := AddLinkedChunk(unloadedChunkPos);
      ArraysOfInsert(m, unloadedChunkPos, newChunk);
      PopulateLightBuild(newChunk, savedChunk, scaledGroundNoise, scaledCeilingNoise, w, meshes, arrs + {newChunk.blocks});
    }

    /** One side of `NullifyNeighborPointers`: the active chunk at tmpCoords, if any, stops pointing back at p and its mesh is marked. */
    method UnlinkSide(p: ChunkCoords, s: Side, tmpCoords: ChunkCoords)
      requires Queued() && tmpCoords == SideCoords(p, s)
      modifies Chunks()`northNeighbor, Chunks()`eastNeighbor, Chunks()`westNeighbor, Chunks()`southNeighbor, Chunks()`isVertexArrayDirty
      ensures activeChunks == old(activeChunks)
      ensures Queued() && State() == old(State())
      ensures Links() == UnlinkSideOf(old(Links()), activeChunks, p, s)
      ensures Meshes() == MeshDirtied(old(Meshes()), tmpCoords)
    {
      if tmpCoords in activeChunks {
        var neighbor := activeChunks[tmpCoords];
        WireChunk(neighbor, OppositeSide(s), null);
        MarkSideMesh(neighbor);
      }
    }

    /** Two sides of `NullifyNeighborPointers`, one after the other. */
    method UnlinkSidePair(p: ChunkCoords, s1: Side, t1: ChunkCoords, s2: Side, t2: ChunkCoords)
      requires Queued() && t1 == SideCoords(p, s1) && t2 == SideCoords(p, s2)
      modifies Chunks()`northNeighbor, Chunks()`eastNeighbor, Chunks()`westNeighbor, Chunks()`southNeighbor, Chunks()`isVertexArrayDirty
      ensures activeChunks == old(activeChunks)
      ensures Queued() && State() == old(State())
      ensures Links() == UnlinkSideOf(UnlinkSideOf(old(Links()), activeChunks, p, s1), activeChunks, p, s2)
      ensures Meshes() == MeshDirtied(MeshDirtied(old(Meshes()), t1), t2)
    {
      UnlinkSide(p, s1, t1);
      UnlinkSide(p, s2, t2);
    }

    /**
     * `NullifyNeighborPointers`: each active chunk beside obsoleteChunk,
     * north, south, west and east in turn, stops pointing at it and has its
     * mesh marked.  The obsolete chunk's own pointers are left as they are.
     */
    method NullifyNeighborPointers(obsoleteChunk: Chunk)
      requires Queued()
      modifies Chunks()`northNeighbor, Chunks()`eastNeighbor, Chunks()`westNeighbor, Chunks()`southNeighbor, Chunks()`isVertexArrayDirty
      ensures activeChunks == old(activeChunks)
      ensures Queued() && State() == old(State())
      ensures Links() == UnlinkAllSides(old(Links()), activeChunks, obsoleteChunk.chunkPosition)
      ensures Meshes() == MeshesBesideDirtied(old(Meshes()), obsoleteChunk.chunkPosition)
    {
      var obsoleteChunkPos := obsoleteChunk.chunkPosition;
      var tmpCoords := IntVector2(obsoleteChunkPos.x + 1, obsoleteChunkPos.y);
      var southCoords := tmpCoords.(x := tmpCoords.x - 2);
      UnlinkSidePair(obsoleteChunkPos, NorthSide, tmpCoords, SouthSide, southCoords);
      tmpCoords := southCoords.(x := southCoords.x + 1, y := southCoords.y + 1);
      var eastCoords := tmpCoords.(y := tmpCoords.y - 2);
      CoordsAround(obsoleteChunkPos, tmpCoords, eastCoords);
      UnlinkSidePair(obsoleteChunkPos, WestSide, tmpCoords, EastSide, eastCoords);
    }

    /** The `erase` of `FlushChunk`, once no other chunk points at cc and no queued cursor lies in it. */
    method EraseChunk(cc: ChunkCoords)
      requires Queued() && Lighting.QueueAvoids(State(), cc)
      requires Links() - {cc} == LinkedLinks(activeChunks - {cc})
      modifies this`activeChunks
      ensures activeChunks == old(activeChunks) - {cc}
      ensures Valid() && State() == Lighting.Remove(old(State()), cc)
      ensures Meshes() == old(Meshes()) - {cc}
    {
      activeChunks := activeChunks - {cc};
      ErasedState(cc);
      ErasedLinks(cc);
    }

    /** Dropping the chunk at cc from the map, and changing nothing else, keeps the others' lighting state. */
    twostate lemma ErasedState(cc: ChunkCoords)
      requires old(Queued()) && old(Lighting.QueueAvoids(State(), cc))
      requires activeChunks == old(activeChunks) - {cc} && dirtyBlocks == old(dirtyBlocks)
      requires unchanged(old(Chunks())) && unchanged(old(Arrays()))
      ensures Queued() && State() == Lighting.Remove(old(State()), cc)
    {
      ghost var m := old(activeChunks);
      LightChunksKept(m);
      EraseKeepsOthers(m, activeDimension, dirtyBlocks, cc);
      Lighting.RemoveKeepsQueue(old(State()), cc);
    }

    /** Dropping the chunk at cc, once no other chunk points at it, keeps the others linked and their mesh flags. */
    twostate lemma ErasedLinks(cc: ChunkCoords)
      requires old(Links() - {cc} == LinkedLinks(activeChunks - {cc}))
      requires activeChunks == old(activeChunks) - {cc} && unchanged(old(Chunks()))
      ensures Linked() && Meshes() == old(Meshes()) - {cc}
    {
      ghost var m := old(activeChunks);
      ChunkFieldsKept(m);
      assert LinksOf(m - {cc}) == LinksOf(m) - {cc} && MeshesOf(m - {cc}) == MeshesOf(m) - {cc};
      LinkedByLinks();
    }

    /** The first statement of `FlushChunk`: no other chunk points at the one at cc any more. */
    method UnlinkObsolete(obsoleteChunk: Chunk)
      requires Valid()
      modifies Chunks()`northNeighbor, Chunks()`eastNeighbor, Chunks()`westNeighbor, Chunks()`southNeighbor, Chunks()`isVertexArrayDirty
      ensures activeChunks == old(activeChunks)
      ensures Queued() && State() == old(State())
      ensures Links() - {obsoleteChunk.chunkPosition} == LinkedLinks(activeChunks - {obsoleteChunk.chunkPosition})
      ensures Meshes() == MeshesBesideDirtied(old(Meshes()), obsoleteChunk.chunkPosition)
    {
      LinksWhenLinked();
      NullifyNeighborPointers(obsoleteChunk);
      UnwiringLinks(activeChunks, obsoleteChunk.chunkPosition);
    }

    /** The rest of `FlushChunk`: the save file's bytes, unless saving is disabled, then the `erase`. */
    method SaveAndErase(obsoleteChunk: Chunk, disableSaving: bool) returns (saveFile: Option<seq<Rle.Byte>>)
      requires Queued() && obsoleteChunk.chunkPosition in activeChunks && activeChunks[obsoleteChunk.chunkPosition] == obsoleteChunk
      requires Lighting.QueueAvoids(State(), obsoleteChunk.chunkPosition)
      requires Links() - {obsoleteChunk.chunkPosition} == LinkedLinks(activeChunks - {obsoleteChunk.chunkPosition})
      modifies this`activeChunks
      ensures activeChunks == old(activeChunks) - {obsoleteChunk.chunkPosition}
      ensures Valid() && State() == Lighting.Remove(old(State()), obsoleteChunk.chunkPosition)
      ensures Meshes() == old(Meshes()) - {obsoleteChunk.chunkPosition}
      ensures saveFile == if disableSaving then None
                          else Some(Rle.EncodeAsWritten(TypesOf(old(State()).chunks[obsoleteChunk.chunkPosition].blocks)))
    {
      saveFile := SaveBytes(obsoleteChunk, disableSaving);
      LightKept();
      ChunkFieldsKept(activeChunks);
      EraseChunk(obsoleteChunk.chunkPosition);
    }

    /** The save step of `FlushChunk`: the chunk's run-length encoded types, unless saving is disabled. */
    method SaveBytes(obsoleteChunk: Chunk, disableSaving: bool) returns (saveFile: Option<seq<Rle.Byte>>)
      requires obsoleteChunk.Wf()
      ensures saveFile == if disableSaving then None else Some(Rle.EncodeAsWritten(TypesOf(obsoleteChunk.blocks[..])))
    {
      if !disableSaving {
        var rleBuffer := obsoleteChunk.GetRleString([]);
        assert rleBuffer == [] + Rle.EncodeAsWritten(TypesOf(obsoleteChunk.blocks[..])) == Rle.EncodeAsWritten(TypesOf(obsoleteChunk.blocks[..]));
        saveFile := Some(rleBuffer);
      } else {
        saveFile := None;
      }
    }

    /**
     * `FlushChunk`: the chunks beside obsoleteChunk stop pointing at it and
     * have their meshes marked; unless saving is disabled, its block types
     * are run-length encoded as the bytes of its save file; then it leaves
     * the map.
     */
    method FlushChunk(obsoleteChunk: Chunk, disableSaving: bool) returns (saveFile: Option<seq<Rle.Byte>>)
      requires Valid() && obsoleteChunk.chunkPosition in activeChunks && activeChunks[obsoleteChunk.chunkPosition] == obsoleteChunk
      requires Lighting.QueueAvoids(State(), obsoleteChunk.chunkPosition)
      modifies this`activeChunks, Chunks()`northNeighbor, Chunks()`eastNeighbor, Chunks()`westNeighbor, Chunks()`southNeighbor
      modifies Chunks()`isVertexArrayDirty
      ensures activeChunks == old(activeChunks) - {obsoleteChunk.chunkPosition}
      ensures Valid() && State() == Lighting.Remove(old(State()), obsoleteChunk.chunkPosition)
      ensures Meshes() == MeshesBesideDirtied(old(Meshes()), obsoleteChunk.chunkPosition) - {obsoleteChunk.chunkPosition}
      ensures saveFile == if disableSaving then None
                          else Some(Rle.EncodeAsWritten(TypesOf(old(State()).chunks[obsoleteChunk.chunkPosition].blocks)))
    {
      UnlinkObsolete(obsoleteChunk);
      saveFile := SaveAndErase(obsoleteChunk, disableSaving);
    }
  }
}
