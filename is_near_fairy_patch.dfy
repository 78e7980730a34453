/**
 * IsNearFairyPatch: players near a fairy get lower spawn rates, so the
 * host's `Player.isNearFairy` also counts active purple fairies within one
 * screen width. The host's own answer is a parameter.
 */
module IsNearFairyPatch {
  import opened Geometry
  import opened Entities

  /** Slot `npc` holds an active purple fairy whose centre is within `sWidth` of the player's centre. */
  predicate NearPurpleFairy(self: Player, npc: Npc, purpleFairyType: int, sWidth: int)
  {
    npc.active && npc.npcType == purpleFairyType && WithinRange(self.center, npc.Center(), sWidth as real)
  }

  /**
   * PatchMethod: keeps a true original answer; otherwise, only when the
   * host saw a purple fairy during its last active-NPC count
   * (`npcsFoundForCheckActive[purple]`), scans the NPC slots for one near
   * the player.
   */
  method PatchMethod(originalReturn: bool, self: Player, npcs: seq<Npc>, purpleFairyType: int,
                     npcsFoundForCheckActive: seq<bool>, sWidth: int) returns (r: bool)
    requires |npcs| == MaxNpcs
    requires 0 <= purpleFairyType < |npcsFoundForCheckActive|
    ensures r <==> originalReturn
                   || (npcsFoundForCheckActive[purpleFairyType]
                       && exists i :: 0 <= i < MaxNpcs && NearPurpleFairy(self, npcs[i], purpleFairyType, sWidth))
    ensures !originalReturn && !npcsFoundForCheckActive[purpleFairyType] ==> !r
  {
    if !originalReturn && npcsFoundForCheckActive[purpleFairyType] {
      var i := 0;
      while i < MaxNpcs
        invariant 0 <= i <= MaxNpcs
        invariant forall j :: 0 <= j < i ==> !NearPurpleFairy(self, npcs[j], purpleFairyType, sWidth)
      {
        if npcs[i].active && npcs[i].npcType == purpleFairyType && WithinRange(self.center, npcs[i].Center(), sWidth as real) {
          return true;
        }
        i := i + 1;
      }
    }
    return originalReturn;
  }

  /** Distance is symmetric, so "the player is within range of the fairy" and the reverse agree. */
  lemma RangeIsSymmetric(a: Vec, b: Vec, range: real)
    ensures WithinRange(a, b, range) <==> WithinRange(b, a, range)
  {
    assert DistanceSquared(a, b) == DistanceSquared(b, a);
  }
}
