/**
 * A block cell: a type byte and a flag byte.  The flag byte packs the
 * light level (bits 0-3), an orientation pair (bits 3-4), the opaque bit
 * (5), the lighting-dirty bit (6) and the sky bit (7).
 *
 * Blocks live by value in their chunk's array, so each setter is a
 * function from the cell before the call to the cell after it; the chunk
 * and world code writes the result back into the array element.
 */
module Blocks {

  import opened GameCommon
  import BlockDefinitions

  const BLOCKFLAGS_LIGHT_LEVEL_BITMASK: bv8 := 0x0F
  const BLOCKFLAGS_IS_SKY_BITMASK: bv8 := 0x80
  const BLOCKFLAGS_IS_LIGHTING_DIRTY_BITMASK: bv8 := 0x40
  const BLOCKFLAGS_IS_OPAQUE_BITMASK: bv8 := 0x20
  const BLOCKFLAGS_ORIENTATION_BITMASK: bv8 := 0x18

  datatype Block = Block(blockType: BlockType, bitFlags: bv8)

  /** The light mask is MAX_LIGHTING_LEVEL, and it shares bit 3 with the orientation mask. */
  lemma FlagMasks()
    ensures BLOCKFLAGS_LIGHT_LEVEL_BITMASK as int == MAX_LIGHTING_LEVEL
    ensures BLOCKFLAGS_LIGHT_LEVEL_BITMASK & BLOCKFLAGS_ORIENTATION_BITMASK == 0x08
    ensures BLOCKFLAGS_IS_SKY_BITMASK & (BLOCKFLAGS_IS_LIGHTING_DIRTY_BITMASK | BLOCKFLAGS_IS_OPAQUE_BITMASK
                                          | BLOCKFLAGS_ORIENTATION_BITMASK | BLOCKFLAGS_LIGHT_LEVEL_BITMASK) == 0
    ensures BLOCKFLAGS_IS_LIGHTING_DIRTY_BITMASK & (BLOCKFLAGS_IS_OPAQUE_BITMASK | BLOCKFLAGS_ORIENTATION_BITMASK
                                                     | BLOCKFLAGS_LIGHT_LEVEL_BITMASK) == 0
    ensures BLOCKFLAGS_IS_OPAQUE_BITMASK & (BLOCKFLAGS_ORIENTATION_BITMASK | BLOCKFLAGS_LIGHT_LEVEL_BITMASK) == 0
  {
  }

  /** `Block(type)`: the given type with every flag clear. */
  function NewBlock(t: BlockType): (b: Block)
    ensures b.blockType == t
    ensures GetLightLevel(b) == 0 && !IsSky(b) && !IsLightingDirty(b) && !IsOpaque(b)
  {
    Block(t, 0)
  }

  /** The default constructor's type. */
  const DEFAULT_BLOCK: Block := NewBlock(AIR)

  /** n default cells, as a chunk's array holds them when it is built. */
  function DefaultCells(n: nat): (cells: seq<Block>)
    ensures |cells| == n
  {
    seq(n, _ => DEFAULT_BLOCK)
  }

  function GetLightLevel(b: Block): (n: int)
    ensures 0 <= n <= MAX_LIGHTING_LEVEL
  {
    (b.bitFlags & BLOCKFLAGS_LIGHT_LEVEL_BITMASK) as int
  }

  predicate IsSky(b: Block)
  {
    b.bitFlags & BLOCKFLAGS_IS_SKY_BITMASK != 0
  }

  predicate IsLightingDirty(b: Block)
  {
    b.bitFlags & BLOCKFLAGS_IS_LIGHTING_DIRTY_BITMASK != 0
  }

  predicate IsOpaque(b: Block)
  {
    b.bitFlags & BLOCKFLAGS_IS_OPAQUE_BITMASK != 0
  }

  /** The two blocks have the same type and agree on every flag bit outside mask. */
  predicate SameExcept(a: Block, b: Block, mask: bv8)
  {
    a.blockType == b.blockType && a.bitFlags & !mask == b.bitFlags & !mask
  }

  /** Blocks that agree outside a mask agree on every flag the mask leaves out. */
  lemma SameExceptFlags(a: Block, b: Block, mask: bv8)
    requires SameExcept(a, b, mask)
    ensures mask & BLOCKFLAGS_LIGHT_LEVEL_BITMASK == 0 ==> GetLightLevel(a) == GetLightLevel(b)
    ensures mask & BLOCKFLAGS_IS_SKY_BITMASK == 0 ==> (IsSky(a) <==> IsSky(b))
    ensures mask & BLOCKFLAGS_IS_LIGHTING_DIRTY_BITMASK == 0 ==> (IsLightingDirty(a) <==> IsLightingDirty(b))
    ensures mask & BLOCKFLAGS_IS_OPAQUE_BITMASK == 0 ==> (IsOpaque(a) <==> IsOpaque(b))
  {
  }

  /**
   * `SetLightLevel`: demands a level in [0, 15], clears the low four bits
   * and ORs the level in.  Bit 3 also belongs to the orientation pair and
   * is overwritten with it.
   */
  function SetLightLevel(b: Block, clampedNewLightLevel: int): (r: Block)
    requires 0 <= clampedNewLightLevel <= MAX_LIGHTING_LEVEL
    ensures GetLightLevel(r) == clampedNewLightLevel
    ensures SameExcept(r, b, BLOCKFLAGS_LIGHT_LEVEL_BITMASK)
    ensures IsSky(r) == IsSky(b) && IsLightingDirty(r) == IsLightingDirty(b) && IsOpaque(r) == IsOpaque(b)
  {
    Block(b.blockType, (b.bitFlags & !BLOCKFLAGS_LIGHT_LEVEL_BITMASK) | (clampedNewLightLevel as bv8))
  }

  /** Because the masks overlap, setting a light level can clear an orientation bit. */
  lemma SetLightLevelClobbersOrientation()
    ensures var b := Block(STAIRS, 0x08);
            b.bitFlags & BLOCKFLAGS_ORIENTATION_BITMASK != SetLightLevel(b, 0).bitFlags & BLOCKFLAGS_ORIENTATION_BITMASK
  {
  }

  function SetBlockToBeSky(b: Block): (r: Block)
    ensures IsSky(r) && SameExcept(r, b, BLOCKFLAGS_IS_SKY_BITMASK)
  {
    Block(b.blockType, b.bitFlags | BLOCKFLAGS_IS_SKY_BITMASK)
  }

  /** `SetBlockToNotBeSky`, through `ClearSkyBit`. */
  function SetBlockToNotBeSky(b: Block): (r: Block)
    ensures !IsSky(r) && SameExcept(r, b, BLOCKFLAGS_IS_SKY_BITMASK)
  {
    Block(b.blockType, b.bitFlags & !BLOCKFLAGS_IS_SKY_BITMASK)
  }

  function SetLightingDirty(b: Block): (r: Block)
    ensures IsLightingDirty(r) && SameExcept(r, b, BLOCKFLAGS_IS_LIGHTING_DIRTY_BITMASK)
  {
    Block(b.blockType, b.bitFlags | BLOCKFLAGS_IS_LIGHTING_DIRTY_BITMASK)
  }

  /** `SetLightingNotDirty`, through `ClearDirtyLightingBit`. */
  function SetLightingNotDirty(b: Block): (r: Block)
    ensures !IsLightingDirty(r) && SameExcept(r, b, BLOCKFLAGS_IS_LIGHTING_DIRTY_BITMASK)
  {
    Block(b.blockType, b.bitFlags & !BLOCKFLAGS_IS_LIGHTING_DIRTY_BITMASK)
  }

  function SetBlockToBeOpaque(b: Block): (r: Block)
    ensures IsOpaque(r) && SameExcept(r, b, BLOCKFLAGS_IS_OPAQUE_BITMASK)
  {
    Block(b.blockType, b.bitFlags | BLOCKFLAGS_IS_OPAQUE_BITMASK)
  }

  /** `SetBlockToNotBeOpaque`, through `ClearOpaqueBit`. */
  function SetBlockToNotBeOpaque(b: Block): (r: Block)
    ensures !IsOpaque(r) && SameExcept(r, b, BLOCKFLAGS_IS_OPAQUE_BITMASK)
  {
    Block(b.blockType, b.bitFlags & !BLOCKFLAGS_IS_OPAQUE_BITMASK)
  }

  /** `Block::SetBlockType`: assigns the type, then sets the opaque bit from the registry. */
  function SetBlockType(b: Block, t: BlockType): (r: Block)
    ensures r.blockType == t
    ensures IsOpaque(r) == BlockDefinitions.IsOpaque(t)
    ensures r.bitFlags & !BLOCKFLAGS_IS_OPAQUE_BITMASK == b.bitFlags & !BLOCKFLAGS_IS_OPAQUE_BITMASK
    ensures GetLightLevel(r) == GetLightLevel(b) && IsSky(r) == IsSky(b) && IsLightingDirty(r) == IsLightingDirty(b)
  {
    var typed := Block(t, b.bitFlags);
    if BlockDefinitions.IsOpaque(t) then SetBlockToBeOpaque(typed) else SetBlockToNotBeOpaque(typed)
  }

  /** Writing the same light level twice is writing it once. */
  lemma SetLightLevelIdempotent(b: Block, n: int)
    requires 0 <= n <= MAX_LIGHTING_LEVEL
    ensures SetLightLevel(SetLightLevel(b, n), n) == SetLightLevel(b, n)
  {
  }

  /** Every flag setter is idempotent. */
  lemma SettersIdempotent(b: Block)
    ensures SetBlockToBeSky(SetBlockToBeSky(b)) == SetBlockToBeSky(b)
    ensures SetBlockToNotBeSky(SetBlockToNotBeSky(b)) == SetBlockToNotBeSky(b)
    ensures SetLightingDirty(SetLightingDirty(b)) == SetLightingDirty(b)
    ensures SetLightingNotDirty(SetLightingNotDirty(b)) == SetLightingNotDirty(b)
    ensures SetBlockToBeOpaque(SetBlockToBeOpaque(b)) == SetBlockToBeOpaque(b)
    ensures SetBlockToNotBeOpaque(SetBlockToNotBeOpaque(b)) == SetBlockToNotBeOpaque(b)
  {
  }

  /** Setting the same type twice is setting it once. */
  lemma SetBlockTypeIdempotent(b: Block, t: BlockType)
    ensures SetBlockType(SetBlockType(b, t), t) == SetBlockType(b, t)
  {
  }

  /** A second `SetBlockType` overwrites the first one completely. */
  lemma SetBlockTypeOverwrites(b: Block, first: BlockType, second: BlockType)
    ensures SetBlockType(SetBlockType(b, first), second) == SetBlockType(b, second)
  {
  }

  /** Re-applying the opaque bit that `SetBlockType` already derived from the registry changes nothing. */
  lemma OpacityAfterSetBlockType(b: Block, t: BlockType)
    ensures var r := SetBlockType(b, t);
      (if BlockDefinitions.IsOpaque(t) then SetBlockToBeOpaque(r) else SetBlockToNotBeOpaque(r)) == r
  {
  }

  /** Restoring a bit that was set before: clearing then setting the sky bit of a sky block is the identity, and so on. */
  lemma SettersRoundTrip(b: Block)
    ensures IsSky(b) ==> SetBlockToBeSky(SetBlockToNotBeSky(b)) == b
    ensures !IsSky(b) ==> SetBlockToNotBeSky(SetBlockToBeSky(b)) == b
    ensures IsLightingDirty(b) ==> SetLightingDirty(SetLightingNotDirty(b)) == b
    ensures !IsLightingDirty(b) ==> SetLightingNotDirty(SetLightingDirty(b)) == b
    ensures IsOpaque(b) ==> SetBlockToBeOpaque(SetBlockToNotBeOpaque(b)) == b
    ensures !IsOpaque(b) ==> SetBlockToNotBeOpaque(SetBlockToBeOpaque(b)) == b
  {
  }
}
