/**
 * FairyTorchUnlockSystem: lets modded NPCs unlock the Zoologist's fairy
 * glowstick when their bestiary entry is discovered. `CanUnlockFairyTorch`
 * is a bool set indexed by NPC type; the host's answer and its
 * `DidDiscoverBestiaryEntry` query are parameters.
 */
module FairyTorch {

  class FairyTorchUnlockSystem {
    const canUnlockFairyTorch: array<bool>

    /** `CreateBoolSet()` with no arguments: every type starts unflagged. */
    constructor (npcTypeCount: nat)
      ensures fresh(canUnlockFairyTorch) && canUnlockFairyTorch.Length == npcTypeCount
      ensures forall t :: 0 <= t < npcTypeCount ==> !canUnlockFairyTorch[t]
    {
      canUnlockFairyTorch := new bool[npcTypeCount](_ => false);
    }

    /** A content type opting in: `CanUnlockFairyTorch[npcType] = true`, nothing else changes. */
    method Allow(npcType: int)
      requires 0 <= npcType < canUnlockFairyTorch.Length
      modifies canUnlockFairyTorch
      ensures canUnlockFairyTorch[npcType]
      ensures forall t :: 0 <= t < canUnlockFairyTorch.Length && t != npcType ==> canUnlockFairyTorch[t] == old(canUnlockFairyTorch[t])
    {
      canUnlockFairyTorch[npcType] := true;
    }

    /**
     * BestiaryGirl_IsFairyTorchAvailablePatch.PatchMethod: keeps a true
     * original answer; otherwise answers true at the first flagged type whose
     * bestiary entry has been discovered.
     */
    method PatchMethod(originalReturn: bool, didDiscoverBestiaryEntry: int -> bool) returns (r: bool)
      ensures r <==> originalReturn
                     || exists i :: 0 <= i < canUnlockFairyTorch.Length && canUnlockFairyTorch[i] && didDiscoverBestiaryEntry(i)
    {
      if !originalReturn {
        var i := 0;
        while i < canUnlockFairyTorch.Length
          invariant 0 <= i <= canUnlockFairyTorch.Length
          invariant forall j :: 0 <= j < i ==> !(canUnlockFairyTorch[j] && didDiscoverBestiaryEntry(j))
        {
          if canUnlockFairyTorch[i] && didDiscoverBestiaryEntry(i) {
            return true;
          }
          i := i + 1;
        }
      }
      return originalReturn;
    }

    /**
     * Only flagged types matter: while just `npcType` is flagged, a false
     * original answer turns true exactly when that type has been discovered.
     */
    lemma OnlyFlaggedTypeUnlocks(npcType: int, didDiscoverBestiaryEntry: int -> bool)
      requires 0 <= npcType < canUnlockFairyTorch.Length
      requires forall t :: 0 <= t < canUnlockFairyTorch.Length ==> (canUnlockFairyTorch[t] <==> t == npcType)
      ensures (exists i :: 0 <= i < canUnlockFairyTorch.Length && canUnlockFairyTorch[i] && didDiscoverBestiaryEntry(i))
              <==> didDiscoverBestiaryEntry(npcType)
    {
      if didDiscoverBestiaryEntry(npcType) {
        assert canUnlockFairyTorch[npcType];
      }
    }
  }
}
