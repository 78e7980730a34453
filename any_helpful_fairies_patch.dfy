/**
 * AnyHelpfulFairiesPatch: only one helpful fairy may exist at a time, so the
 * host's `NPC.AnyHelpfulFairies` also reports an active purple fairy that is
 * busy with a player. The host's own answer is a parameter.
 */
module AnyHelpfulFairiesPatch {
  import opened Wrappers
  import opened Entities
  import opened FairyStates

  /** Slot `npc` holds an active purple fairy whose IsBeingHelpful holds. */
  predicate HelpfulPurpleFairy(npc: Npc, purpleFairyType: int)
  {
    npc.active && npc.npcType == purpleFairyType && SlotsBeingHelpful(npc.ai)
  }

  /**
   * PatchMethod: keeps a true original answer; otherwise scans the NPC slots
   * in order and answers true at the first helpful purple fairy.
   */
  method PatchMethod(originalReturn: bool, npcs: seq<Npc>, purpleFairyType: int) returns (r: bool)
    requires |npcs| == MaxNpcs
    ensures r <==> originalReturn || exists i :: 0 <= i < MaxNpcs && HelpfulPurpleFairy(npcs[i], purpleFairyType)
  {
    if !originalReturn {
      var i := 0;
      while i < MaxNpcs
        invariant 0 <= i <= MaxNpcs
        invariant forall j :: 0 <= j < i ==> !HelpfulPurpleFairy(npcs[j], purpleFairyType)
      {
        if npcs[i].active && npcs[i].npcType == purpleFairyType && SlotsBeingHelpful(npcs[i].ai) {
          return true;
        }
        i := i + 1;
      }
    }
    return originalReturn;
  }

  /**
   * A purple fairy that is inactive, or whose registers say WaitForPlayer or
   * RunAway, never counts as a helpful fairy.
   */
  lemma IdleFairiesDoNotCount(npc: Npc, purpleFairyType: int)
    requires !npc.active || LoadAiState(npc.ai) == Some(WaitForPlayer) || LoadAiState(npc.ai) == Some(RunAway)
    ensures !HelpfulPurpleFairy(npc, purpleFairyType)
  {
    if npc.active {
      var v := LoadStateValue(npc.ai);
      assert StateOfValue(v).Some? && StateOfValue(v).value.Value() == v;
    }
  }

  /** A fairy whose AIState was last set to a helpful state counts, whatever its other registers hold. */
  lemma StoredHelpfulStateCounts(npc: Npc, purpleFairyType: int, s: FairyAiState)
    requires npc.active && npc.npcType == purpleFairyType
    requires IsBeingHelpful(s)
    ensures HelpfulPurpleFairy(npc.(ai := StoreAiState(npc.ai, s)), purpleFairyType)
  {
    SlotsBeingHelpfulAfterStore(npc.ai, s);
  }
}
