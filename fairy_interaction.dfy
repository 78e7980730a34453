/**
 * FairyInteractionAITweak: fairies that are close to each other flutter
 * around one another. `CanFlutterAround` decides whether two NPCs interact;
 * the global `AI` hook then nudges a vanilla fairy's vertical speed by 0.05
 * per partner, away from the partner's height.
 */
module FairyInteraction {
  import opened Geometry
  import opened Entities

  /** The vertical nudge one flutter partner causes. */
  const NudgeSpeed := 0.05

  /** VanillaFairies: the three vanilla fairy types (a private, never-changed set). */
  predicate IsVanillaFairy(npcType: int)
  {
    npcType == FairyCritterPink || npcType == FairyCritterGreen || npcType == FairyCritterBlue
  }

  /** The nudge `npc` gets from one partner: up (negative Y) when it is above the partner, else down. */
  function Nudge(npc: Npc, other: Npc): (r: real)
    ensures r == -NudgeSpeed <==> npc.position.y < other.position.y
    ensures r == NudgeSpeed <==> other.position.y <= npc.position.y
  {
    if npc.position.y < other.position.y then -NudgeSpeed else NudgeSpeed
  }

  /** Manhattan distance between the two NPCs' positions. */
  function ManhattanDistance(a: Npc, b: Npc): real
  {
    RAbs(a.position.x - b.position.x) + RAbs(a.position.y - b.position.y)
  }

  /** The global NPC and its `Fairies` set, indexed by NPC type. */
  class FairyInteractionAITweak {
    const fairies: array<bool>

    /** Every vanilla fairy type stays flagged in `Fairies`; the set is indexable by every vanilla id. */
    ghost predicate Valid()
      reads this, fairies
    {
      fairies.Length > FairyCritterBlue
      && forall t :: 0 <= t < fairies.Length && IsVanillaFairy(t) ==> fairies[t]
    }

    /** `CreateBoolSet(Pink, Green, Blue)` over `npcTypeCount` NPC types. */
    constructor (npcTypeCount: nat)
      requires npcTypeCount > FairyCritterBlue
      ensures fresh(fairies) && fairies.Length == npcTypeCount
      ensures forall t :: 0 <= t < npcTypeCount ==> fairies[t] == IsVanillaFairy(t)
      ensures Valid()
    {
      fairies := new bool[npcTypeCount](t => IsVanillaFairy(t));
    }

    /** A modded fairy opting in: `Fairies[npcType] = true`. */
    method RegisterFairy(npcType: int)
      requires Valid() && 0 <= npcType < fairies.Length
      modifies fairies
      ensures fairies[npcType]
      ensures forall t :: 0 <= t < fairies.Length && t != npcType ==> fairies[t] == old(fairies[t])
      ensures Valid()
    {
      fairies[npcType] := true;
    }

    predicate TypeInRange(npc: Npc)
      reads this
    {
      0 <= npc.npcType < fairies.Length
    }

    /** AppliesToEntity: the global runs only on the three vanilla fairies. */
    function AppliesToEntity(entity: Npc): (r: bool)
      reads this, fairies
      requires Valid() && TypeInRange(entity)
      ensures r <==> entity.npcType in {FairyCritterPink, FairyCritterGreen, FairyCritterBlue}
      ensures r ==> fairies[entity.npcType]
    {
      IsVanillaFairy(entity.npcType)
    }

    /**
     * CanFlutterAround: distinct slots, both active, both types in `Fairies`,
     * and the Manhattan distance of their positions below 1.5 times the
     * first NPC's width.
     */
    function CanFlutterAround(npc: Npc, other: Npc): (r: bool)
      reads this, fairies
      requires TypeInRange(npc) && TypeInRange(other)
      ensures r ==> RAbs(npc.position.x - other.position.x) < npc.width as real * 1.5
      ensures r ==> RAbs(npc.position.y - other.position.y) < npc.width as real * 1.5
      ensures r ==> RAbs(npc.position.x - other.position.x) + RAbs(npc.position.y - other.position.y) < npc.width as real * 1.5
    {
      && npc.whoAmI != other.whoAmI
      && npc.active && other.active
      && fairies[npc.npcType] && fairies[other.npcType]
      && ManhattanDistance(npc, other) < npc.width as real * 1.5
    }

    predicate AllTypesInRange(npcs: seq<Npc>)
      reads this
    {
      forall i :: 0 <= i < |npcs| ==> TypeInRange(npcs[i])
    }

    /** Whether partner `other` moves `npc`; the vanilla hook skips vanilla partners. */
    predicate Moves(npc: Npc, other: Npc, skipVanilla: bool)
      reads this, fairies
      requires TypeInRange(npc) && TypeInRange(other)
    {
      !(skipVanilla && IsVanillaFairy(other.npcType)) && CanFlutterAround(npc, other)
    }

    /** The total change to `velocity.Y` after visiting `others` in index order. */
    function FlutterShift(npc: Npc, others: seq<Npc>, skipVanilla: bool): real
      reads this, fairies
      requires TypeInRange(npc) && AllTypesInRange(others)
    {
      if others == [] then 0.0
      else
        var last := others[|others| - 1];
        FlutterShift(npc, others[..|others| - 1], skipVanilla)
          + (if Moves(npc, last, skipVanilla) then Nudge(npc, last) else 0.0)
    }

    /** The number of partners that move `npc`. */
    function PartnerCount(npc: Npc, others: seq<Npc>, skipVanilla: bool): nat
      reads this, fairies
      requires TypeInRange(npc) && AllTypesInRange(others)
    {
      if others == [] then 0
      else
        var last := others[|others| - 1];
        PartnerCount(npc, others[..|others| - 1], skipVanilla) + (if Moves(npc, last, skipVanilla) then 1 else 0)
    }

    /**
     * AI: for each slot, skip vanilla fairies; for a partner that can
     * flutter, move up when above it and down otherwise. Only velocity.Y
     * changes.
     */
    method AI(npc: Npc, npcs: seq<Npc>) returns (updated: Npc)
      requires TypeInRange(npc) && AllTypesInRange(npcs) && |npcs| == MaxNpcs
      ensures updated == npc.(velocity := Vec(npc.velocity.x, npc.velocity.y + FlutterShift(npc, npcs, true)))
    {
      updated := npc;
      var i := 0;
      while i < MaxNpcs
        invariant 0 <= i <= MaxNpcs
        invariant updated == npc.(velocity := Vec(npc.velocity.x, npc.velocity.y + FlutterShift(npc, npcs[..i], true)))
      {
        assert npcs[..i + 1][..i] == npcs[..i];
        if IsVanillaFairy(npcs[i].npcType) {
          i := i + 1;
          continue;
        }
        if CanFlutterAround(updated, npcs[i]) {
          if updated.position.y < npcs[i].position.y {
            updated := updated.(velocity := Vec(updated.velocity.x, updated.velocity.y - NudgeSpeed));
          } else {
            updated := updated.(velocity := Vec(updated.velocity.x, updated.velocity.y + NudgeSpeed));
          }
        }
        i := i + 1;
      }
      assert npcs[..MaxNpcs] == npcs;
    }

    /** Each partner moves the NPC by exactly 0.05, so the total shift is at most 0.05 per partner. */
    lemma {:induction false} ShiftBoundedByPartners(npc: Npc, others: seq<Npc>, skipVanilla: bool)
      requires TypeInRange(npc) && AllTypesInRange(others)
      ensures RAbs(FlutterShift(npc, others, skipVanilla)) <= NudgeSpeed * PartnerCount(npc, others, skipVanilla) as real
      decreases |others|
    {
      if others != [] {
        ShiftBoundedByPartners(npc, others[..|others| - 1], skipVanilla);
      }
    }

    /** With no partner in range the vertical speed is left as it was. */
    lemma {:induction false} NoPartnerNoShift(npc: Npc, others: seq<Npc>, skipVanilla: bool)
      requires TypeInRange(npc) && AllTypesInRange(others)
      requires forall i :: 0 <= i < |others| ==> !CanFlutterAround(npc, others[i])
      ensures FlutterShift(npc, others, skipVanilla) == 0.0
      ensures PartnerCount(npc, others, skipVanilla) == 0
      decreases |others|
    {
      if others != [] {
        NoPartnerNoShift(npc, others[..|others| - 1], skipVanilla);
      }
    }

    /** The shift depends on positions only, so it does not matter what velocity the NPC had. */
    lemma {:induction false} ShiftIgnoresVelocity(npc: Npc, v: Vec, others: seq<Npc>, skipVanilla: bool)
      requires TypeInRange(npc) && AllTypesInRange(others)
      ensures FlutterShift(npc.(velocity := v), others, skipVanilla) == FlutterShift(npc, others, skipVanilla)
      decreases |others|
    {
      if others != [] {
        ShiftIgnoresVelocity(npc, v, others[..|others| - 1], skipVanilla);
      }
    }

    /** An NPC never flutters around its own slot. */
    lemma NeverAroundItself(npc: Npc, other: Npc)
      requires TypeInRange(npc) && TypeInRange(other)
      requires npc.whoAmI == other.whoAmI
      ensures !CanFlutterAround(npc, other)
    {
    }

    /** An inactive NPC, or one whose type is not in `Fairies`, never takes part. */
    lemma OnlyActiveFairies(npc: Npc, other: Npc)
      requires TypeInRange(npc) && TypeInRange(other)
      requires !npc.active || !other.active || !fairies[npc.npcType] || !fairies[other.npcType]
      ensures !CanFlutterAround(npc, other) && !CanFlutterAround(other, npc)
    {
    }

    /** The rule is symmetric between NPCs of equal width. */
    lemma SymmetricForEqualWidths(a: Npc, b: Npc)
      requires TypeInRange(a) && TypeInRange(b)
      requires a.width == b.width
      ensures CanFlutterAround(a, b) <==> CanFlutterAround(b, a)
    {
      assert ManhattanDistance(a, b) == ManhattanDistance(b, a);
    }

    /**
     * The converse direction: distinct, active, flagged NPCs that lie within
     * three quarters of the first NPC's width on each axis always flutter.
     * With the ensures of CanFlutterAround this brackets the rule between an
     * inner box that always flutters and an outer box outside which nothing does.
     */
    lemma CloseFairiesFlutter(npc: Npc, other: Npc)
      requires TypeInRange(npc) && TypeInRange(other)
      requires npc.whoAmI != other.whoAmI && npc.active && other.active
      requires fairies[npc.npcType] && fairies[other.npcType]
      requires RAbs(npc.position.x - other.position.x) < npc.width as real * 0.75
      requires RAbs(npc.position.y - other.position.y) < npc.width as real * 0.75
      ensures CanFlutterAround(npc, other)
    {
      assert ManhattanDistance(npc, other) < npc.width as real * 1.5;
    }

    /** With unequal widths it is not: the wider NPC can reach a partner that cannot reach it. */
    lemma AsymmetricForUnequalWidths(a: Npc, b: Npc)
      requires TypeInRange(a) && TypeInRange(b)
      requires a.whoAmI != b.whoAmI && a.active && b.active && fairies[a.npcType] && fairies[b.npcType]
      requires a.position == Vec(0.0, 0.0) && b.position == Vec(20.0, 0.0)
      requires a.width == 18 && b.width == 10
      ensures CanFlutterAround(a, b) && !CanFlutterAround(b, a)
    {
    }
  }
}
