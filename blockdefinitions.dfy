/**
 * The static block-definition registry as `InitializeBlockDefinitions`
 * leaves it: for each of the 18 block types its emitted light, its
 * toughness, whether it is solid and whether it is opaque.  Textures and
 * sounds are not modelled.  Toughness is a float number of seconds in the
 * game; every value in the table is a multiple of 0.05, so it is recorded
 * here exactly, in hundredths of a second.
 */
module BlockDefinitions {

  import opened GameCommon

  datatype BlockDefinition = BlockDefinition(
    emittedLightLevel: int,
    toughnessInHundredths: nat,
    isSolid: bool,
    isOpaque: bool)

  /** The registry entry of each type after initialisation. */
  function Registry(t: BlockType): (d: BlockDefinition)
    ensures 0 <= d.emittedLightLevel <= MAX_LIGHTING_LEVEL
  {
    if t == AIR then BlockDefinition(0, 0, false, false)
    else if t == WATER then BlockDefinition(0, 0, false, true)
    else if t == LAVA then BlockDefinition(GLOWSTONE_LIGHT_LEVEL, 0, false, true)
    else if t == GRASS then BlockDefinition(0, 150, true, false)
    else if t == MYCELIUM then BlockDefinition(6, 150, true, true)
    else if t == DIRT then BlockDefinition(0, 150, true, true)
    else if t == NETHERRACK then BlockDefinition(5, 150, true, true)
    else if t == SAND then BlockDefinition(0, 150, true, true)
    else if t == RED_SAND then BlockDefinition(0, 150, true, true)
    else if t == STONE then BlockDefinition(0, 1500, true, true)
    else if t == BROWNSTONE then BlockDefinition(5, 1500, true, true)
    else if t == COBBLESTONE then BlockDefinition(0, 1500, true, true)
    else if t == GLOWSTONE then BlockDefinition(GLOWSTONE_LIGHT_LEVEL, 75, true, true)
    else if t == GOLD_BRICK then BlockDefinition(GLOWSTONE_LIGHT_LEVEL, 75, true, true)
    else if t == GRAVEL then BlockDefinition(0, 75, true, true)
    else if t == PORTAL then BlockDefinition(GLOWSTONE_LIGHT_LEVEL, 75, false, true)
    else if t == STAIRS then BlockDefinition(0, 750, true, false)
    else /* LADDER */ BlockDefinition(0, 750, false, false)
  }

  /** `BlockDefinition::IsSolid`: things that are not solid cannot be selected or collided with. */
  function IsSolid(t: BlockType): bool
  {
    Registry(t).isSolid
  }

  /** `BlockDefinition::IsOpaque`: opaque things hide faces and end the sky-column descents. */
  function IsOpaque(t: BlockType): bool
  {
    Registry(t).isOpaque
  }

  /**
   * `BlockDefinition::GetLightLevel`, declared at BlockDefinition.hpp:30
   * and given no body in BlockDefinition.cpp, though World.cpp:1601 calls
   * it.  It is taken to return the entry's emitted light level; this is an
   * assumption.
   */
  function GetLightLevel(t: BlockType): (n: int)
    ensures 0 <= n <= MAX_LIGHTING_LEVEL
  {
    Registry(t).emittedLightLevel
  }

  /** `BlockDefinition::GetSecondsToBreak`, in hundredths of a second. */
  function GetSecondsToBreak(t: BlockType): nat
  {
    Registry(t).toughnessInHundredths
  }

  /** AIR is neither solid nor opaque, emits nothing and breaks at once. */
  lemma AirDefinition()
    ensures !IsSolid(AIR) && !IsOpaque(AIR) && GetLightLevel(AIR) == 0 && GetSecondsToBreak(AIR) == 0
  {
  }

  /** The fluids and the portal are opaque but not solid; LAVA and PORTAL glow. */
  lemma FluidAndPortalDefinitions()
    ensures !IsSolid(WATER) && IsOpaque(WATER) && GetLightLevel(WATER) == 0
    ensures !IsSolid(LAVA) && IsOpaque(LAVA) && GetLightLevel(LAVA) == GLOWSTONE_LIGHT_LEVEL
    ensures !IsSolid(PORTAL) && IsOpaque(PORTAL) && GetLightLevel(PORTAL) == GLOWSTONE_LIGHT_LEVEL
  {
  }

  /** GRASS and STAIRS are solid yet see-through; LADDER is neither solid nor opaque. */
  lemma SeeThroughDefinitions()
    ensures IsSolid(GRASS) && !IsOpaque(GRASS)
    ensures IsSolid(STAIRS) && !IsOpaque(STAIRS)
    ensures !IsSolid(LADDER) && !IsOpaque(LADDER)
  {
  }

  /** Exactly four types are non-opaque, and the non-solid ones are AIR, WATER, LAVA, PORTAL and LADDER. */
  lemma OpacityAndSolidity(t: BlockType)
    ensures !IsOpaque(t) <==> t == AIR || t == GRASS || t == STAIRS || t == LADDER
    ensures !IsSolid(t) <==> t == AIR || t == WATER || t == LAVA || t == PORTAL || t == LADDER
  {
  }

  /** The emitters and their levels; every other type emits 0. */
  lemma Emitters(t: BlockType)
    ensures GetLightLevel(t) == (
      if t == MYCELIUM then 6
      else if t == NETHERRACK || t == BROWNSTONE then 5
      else if t == GLOWSTONE || t == GOLD_BRICK || t == LAVA || t == PORTAL then GLOWSTONE_LIGHT_LEVEL
      else 0)
    ensures GetLightLevel(t) > 0 ==> IsOpaque(t)
  {
  }

  /** Toughness classes: soft earth 1.5 s, stone 15 s, bricks and lights 0.75 s, stairs and ladders 7.5 s. */
  lemma Toughness(t: BlockType)
    ensures GetSecondsToBreak(t) == 0 <==> t == AIR || t == WATER || t == LAVA
    ensures GetSecondsToBreak(t) == 1500 <==> t == STONE || t == BROWNSTONE || t == COBBLESTONE
    ensures GetSecondsToBreak(t) == 750 <==> t == STAIRS || t == LADDER
  {
  }
}
