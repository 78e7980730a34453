/**
 * TrackableNPCSystem: which NPCs a purple fairy may lead players to. Two
 * append-only lists of predicates; an NPC is trackable when no blacklist
 * predicate holds of it and some tracking condition does.
 */
module TrackableNpcs {
  import opened Wrappers
  import opened Entities

  /** A Func<NPC, bool> that is not null. */
  type Condition = Npc -> bool

  /** True iff some predicate of `preds` holds of `npc`, scanning in registration order. */
  function AnyMatches(preds: seq<Condition>, npc: Npc): (r: bool)
    ensures r <==> exists i :: 0 <= i < |preds| && preds[i](npc)
  {
    if preds == [] then false
    else if preds[0](npc) then true
    else
      var rest := AnyMatches(preds[1..], npc);
      assert rest ==> exists i :: 1 <= i < |preds| && preds[i](npc) by {
        if rest {
          var k :| 0 <= k < |preds[1..]| && preds[1..][k](npc);
          assert preds[k + 1](npc);
        }
      }
      rest
  }

  /**
   * ValidNPCToTrack: the blacklist is consulted first and any match rejects
   * the NPC; otherwise the NPC is accepted iff some tracking condition holds.
   */
  function ValidNpcToTrack(blacklist: seq<Condition>, conditions: seq<Condition>, npc: Npc): (r: bool)
    ensures r <==> (forall i :: 0 <= i < |blacklist| ==> !blacklist[i](npc))
                   && (exists j :: 0 <= j < |conditions| && conditions[j](npc))
  {
    if AnyMatches(blacklist, npc) then false else AnyMatches(conditions, npc)
  }

  /** The predicate `(npc: Npc) => npc.npcType == npcId` that the id overloads register. */
  function TypeIs(npcId: int): Condition
  {
    (npc: Npc) => npc.npcType == npcId
  }

  /** The five tracking conditions SetStaticDefaults registers, in order. */
  function DefaultConditions(): seq<Condition>
  {
    [ (npc: Npc) => npc.aiStyle == FaceClosestPlayer,
      TypeIs(SkeletonMerchant),
      TypeIs(LostGirl),
      (npc: Npc) => npc.aiStyle == Mimic && npc.ai[0] == 0.0,
      (npc: Npc) => npc.aiStyle == BiomeMimic && npc.ai[0] == 0.0 ]
  }

  /** What the default conditions are meant to accept, stated without the list. */
  predicate TrackedByDefault(npc: Npc)
  {
    || npc.aiStyle == FaceClosestPlayer
    || npc.npcType == SkeletonMerchant
    || npc.npcType == LostGirl
    || ((npc.aiStyle == Mimic || npc.aiStyle == BiomeMimic) && npc.ai[0] == 0.0)
  }

  /** The blacklist wins: a blacklisted NPC is never trackable, whatever the conditions. */
  lemma BlacklistWins(blacklist: seq<Condition>, conditions: seq<Condition>, npc: Npc, i: int)
    requires 0 <= i < |blacklist| && blacklist[i](npc)
    ensures !ValidNpcToTrack(blacklist, conditions, npc)
  {
  }

  /** With no blacklist match the result is exactly "some condition matches". */
  lemma NotBlacklistedMeansAnyCondition(blacklist: seq<Condition>, conditions: seq<Condition>, npc: Npc)
    requires !AnyMatches(blacklist, npc)
    ensures ValidNpcToTrack(blacklist, conditions, npc) <==> AnyMatches(conditions, npc)
  {
  }

  /** Appending conditions never makes a trackable NPC untrackable. */
  lemma {:induction false} MoreConditionsKeepTracking(blacklist: seq<Condition>, conditions: seq<Condition>, extra: seq<Condition>, npc: Npc)
    requires ValidNpcToTrack(blacklist, conditions, npc)
    ensures ValidNpcToTrack(blacklist, conditions + extra, npc)
  {
    var j :| 0 <= j < |conditions| && conditions[j](npc);
    assert (conditions + extra)[j] == conditions[j];
  }

  /** Defaults: with only the default conditions, an NPC is tracked iff it is not blacklisted and TrackedByDefault holds. */
  lemma DefaultsTrack(blacklist: seq<Condition>, npc: Npc)
    ensures ValidNpcToTrack(blacklist, DefaultConditions(), npc)
            <==> !AnyMatches(blacklist, npc) && TrackedByDefault(npc)
  {
    var d := DefaultConditions();
    assert AnyMatches(d, npc) <==> TrackedByDefault(npc) by {
      if TrackedByDefault(npc) {
        if npc.aiStyle == FaceClosestPlayer { assert d[0](npc); }
        else if npc.npcType == SkeletonMerchant { assert d[1](npc); }
        else if npc.npcType == LostGirl { assert d[2](npc); }
        else if npc.aiStyle == Mimic { assert d[3](npc); }
        else { assert d[4](npc); }
      }
    }
  }

  /** After registering type `npcId`, every NPC of that type is trackable unless blacklisted. */
  lemma TypeConditionTracks(blacklist: seq<Condition>, conditions: seq<Condition>, npcId: int, npc: Npc)
    requires npc.npcType == npcId
    ensures ValidNpcToTrack(blacklist, conditions + [TypeIs(npcId)], npc) <==> !AnyMatches(blacklist, npc)
  {
    var c := conditions + [TypeIs(npcId)];
    assert c[|conditions|](npc);
  }

  /** The registry: `_trackingConditions` and `_trackingBlacklist`. */
  class TrackableNpcSystem {
    var trackingConditions: seq<Condition>
    var trackingBlacklist: seq<Condition>

    /** Both static lists start empty. */
    constructor ()
      ensures trackingConditions == [] && trackingBlacklist == []
    {
      trackingConditions := [];
      trackingBlacklist := [];
    }

    /** SetStaticDefaults: appends the five default tracking conditions. */
    method SetStaticDefaults()
      modifies this
      ensures trackingConditions == old(trackingConditions) + DefaultConditions()
      ensures trackingBlacklist == old(trackingBlacklist)
    {
      trackingConditions := trackingConditions + DefaultConditions();
    }

    /** AddTrackingCondition(int): appends `(npc: Npc) => npc.npcType == npcId`. */
    method AddTrackingConditionForType(npcId: int)
      modifies this
      ensures trackingConditions == old(trackingConditions) + [TypeIs(npcId)]
      ensures trackingBlacklist == old(trackingBlacklist)
    {
      trackingConditions := trackingConditions + [TypeIs(npcId)];
    }

    /** AddTrackingCondition(Func): throws on null, otherwise appends the predicate. */
    method AddTrackingCondition(condition: Option<Condition>) returns (r: Outcome)
      modifies this
      ensures condition.None? ==> r == Threw(ArgumentNull) && trackingConditions == old(trackingConditions)
      ensures condition.Some? ==> r == Completed && trackingConditions == old(trackingConditions) + [condition.value]
      ensures trackingBlacklist == old(trackingBlacklist)
    {
      if condition.None? {
        return Threw(ArgumentNull);
      }
      trackingConditions := trackingConditions + [condition.value];
      r := Completed;
    }

    /** AddToBlacklist(int): appends `(npc: Npc) => npc.npcType == npcId` to the blacklist. */
    method AddTypeToBlacklist(npcId: int)
      modifies this
      ensures trackingBlacklist == old(trackingBlacklist) + [TypeIs(npcId)]
      ensures trackingConditions == old(trackingConditions)
    {
      trackingBlacklist := trackingBlacklist + [TypeIs(npcId)];
    }

    /** AddToBlacklist(Func): throws on null, otherwise appends the predicate to the blacklist. */
    method AddToBlacklist(blacklistCondition: Option<Condition>) returns (r: Outcome)
      modifies this
      ensures blacklistCondition.None? ==> r == Threw(ArgumentNull) && trackingBlacklist == old(trackingBlacklist)
      ensures blacklistCondition.Some? ==> r == Completed && trackingBlacklist == old(trackingBlacklist) + [blacklistCondition.value]
      ensures trackingConditions == old(trackingConditions)
    {
      if blacklistCondition.None? {
        return Threw(ArgumentNull);
      }
      trackingBlacklist := trackingBlacklist + [blacklistCondition.value];
      r := Completed;
    }
  }
}
