/**
 * The host game's entities as the mod sees them: a snapshot of an NPC slot
 * of `Main.npc`, a player of `Main.player`, and the vanilla ids the mod
 * refers to by name.
 */
module Entities {
  import opened Geometry

  /** Main.maxNPCs: every NPC scan visits indices 0 .. 199. */
  const MaxNpcs := 200

  /** The length of Main.player; NPC.target indexes it. */
  const PlayerSlots := 256

  /** The length of NPC.ai (and of NPC.localAI). */
  const AiSlotCount := 4

  /** A float register array of an NPC: NPC.ai or NPC.localAI. */
  type Slots = s: seq<real> | |s| == AiSlotCount witness [0.0, 0.0, 0.0, 0.0]

  /** NPCID values. */
  const LostGirl := 195
  const SkeletonMerchant := 453
  const FairyCritterPink := 583
  const FairyCritterGreen := 584
  const FairyCritterBlue := 585

  /** NPCAIStyleID values. */
  const FaceClosestPlayer := 0
  const Mimic := 25
  const BiomeMimic := 87

  /** The fields of a Terraria NPC that the modelled code reads. */
  datatype Npc = Npc(
    whoAmI: int,
    npcType: int,
    aiStyle: int,
    ai: Slots,
    active: bool,
    position: Vec,
    velocity: Vec,
    width: int,
    height: int)
  {
    /**
     * Entity.Center: the position offset by half the hitbox, where the half
     * is C#'s integer `width / 2`, so an odd size loses its half unit.
     */
    function Center(): (c: Vec)
      ensures 0 <= width ==> position.x + width as real / 2.0 - 0.5 <= c.x <= position.x + width as real / 2.0
      ensures 0 <= height ==> position.y + height as real / 2.0 - 0.5 <= c.y <= position.y + height as real / 2.0
    {
      Vec(position.x + TDiv(width, 2) as real, position.y + TDiv(height, 2) as real)
    }
  }

  /** The fields of a Terraria Player that the modelled code reads. */
  datatype Player = Player(center: Vec, dead: bool, isGhost: bool) {
    predicate DeadOrGhost() { dead || isGhost }
  }

  /** Entity.WithinRange: squared distance at most the squared range. */
  predicate WithinRange(from: Vec, to: Vec, range: real)
  {
    DistanceSquared(from, to) <= range * range
  }
}
