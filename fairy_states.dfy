/**
 * The purple fairy's AI states and how its persistent AI data is packed into
 * the NPC's float registers: `ai[0]`, `ai[1]` hold the target position,
 * `ai[2]` the state as a float-encoded enum and `ai[3]` the general timer;
 * `localAI[0]` is the initialised flag and `localAI[1]` the despawn timer.
 */
module FairyStates {
  import opened Wrappers
  import opened Geometry
  import opened Entities

  /** FairyCritterPurple.FairyAIState, with its implicit enum values 0 .. 7. */
  datatype FairyAiState =
    | WaitForPlayer
    | RunAway
    | ChasePlayer
    | CatchAttention
    | LeadToTarget
    | FoundTarget
    | HoverAroundPlayer
    | Despawn
  {
    /** The underlying enum value. */
    function Value(): (v: int)
      ensures 0 <= v < StateCount
    {
      match this
      case WaitForPlayer => 0
      case RunAway => 1
      case ChasePlayer => 2
      case CatchAttention => 3
      case LeadToTarget => 4
      case FoundTarget => 5
      case HoverAroundPlayer => 6
      case Despawn => 7
    }
  }

  const StateCount := 8

  /** The named state with enum value `v`, if there is one. */
  function StateOfValue(v: int): (r: Option<FairyAiState>)
    ensures r.Some? <==> 0 <= v < StateCount
    ensures r.Some? ==> r.value.Value() == v
  {
    if v == 0 then Some(WaitForPlayer)
    else if v == 1 then Some(RunAway)
    else if v == 2 then Some(ChasePlayer)
    else if v == 3 then Some(CatchAttention)
    else if v == 4 then Some(LeadToTarget)
    else if v == 5 then Some(FoundTarget)
    else if v == 6 then Some(HoverAroundPlayer)
    else if v == 7 then Some(Despawn)
    else None
  }

  /** Distinct states have distinct enum values, so decoding a value recovers its state. */
  lemma ValueRoundTrip(s: FairyAiState)
    ensures StateOfValue(s.Value()) == Some(s)
  {
  }

  /** The indices of the registers the fairy uses. */
  const TargetXSlot := 0
  const TargetYSlot := 1
  const StateSlot := 2
  const TimerSlot := 3
  const InitializedSlot := 0
  const DespawnTimerSlot := 1

  /** The raw enum value the AIState getter reads: `(int)ai[2]`, truncating. */
  function LoadStateValue(ai: Slots): int
  {
    Truncate(ai[StateSlot])
  }

  /** The AIState getter, for registers that hold one of the eight named values. */
  function LoadAiState(ai: Slots): Option<FairyAiState>
  {
    StateOfValue(LoadStateValue(ai))
  }

  /** The AIState setter: `ai[2] = (float)value`; the other registers keep their values. */
  function StoreAiState(ai: Slots, s: FairyAiState): (r: Slots)
    ensures LoadAiState(r) == Some(s)
    ensures forall k :: 0 <= k < AiSlotCount && k != StateSlot ==> r[k] == ai[k]
  {
    ValueRoundTrip(s);
    ai[StateSlot := s.Value() as real]
  }

  /** The TargetPosition getter. */
  function LoadTargetPosition(ai: Slots): Vec
  {
    Vec(ai[TargetXSlot], ai[TargetYSlot])
  }

  /** The TargetPosition setter: X into `ai[0]`, Y into `ai[1]`; state and timer are untouched. */
  function StoreTargetPosition(ai: Slots, p: Vec): (r: Slots)
    ensures LoadTargetPosition(r) == p
    ensures r[StateSlot] == ai[StateSlot] && r[TimerSlot] == ai[TimerSlot]
  {
    ai[TargetXSlot := p.x][TargetYSlot := p.y]
  }

  /** The Initialized getter: any nonzero register value counts as initialised. */
  function LoadInitialized(localAi: Slots): bool
  {
    localAi[InitializedSlot] != 0.0
  }

  /** The Initialized setter: 1 for true, 0 for false; the despawn timer is untouched. */
  function StoreInitialized(localAi: Slots, b: bool): (r: Slots)
    ensures LoadInitialized(r) == b
    ensures forall k :: 0 <= k < AiSlotCount && k != InitializedSlot ==> r[k] == localAi[k]
  {
    localAi[InitializedSlot := if b then 1.0 else 0.0]
  }

  /** Storing the state and then the target position still reads back the state (the registers are disjoint). */
  lemma StoresDoNotInterfere(ai: Slots, s: FairyAiState, p: Vec)
    ensures LoadAiState(StoreTargetPosition(StoreAiState(ai, s), p)) == Some(s)
    ensures LoadTargetPosition(StoreAiState(StoreTargetPosition(ai, p), s)) == p
  {
    var a := StoreTargetPosition(ai, p);
    var b := StoreAiState(a, s);
    assert b[TargetXSlot] == a[TargetXSlot] && b[TargetYSlot] == a[TargetYSlot];
  }

  /** IsBeingHelpful on a raw enum value: anything but WaitForPlayer (0) and RunAway (1). */
  predicate HelpfulValue(v: int)
  {
    v != WaitForPlayer.Value() && v != RunAway.Value()
  }

  /** IsBeingHelpful: the fairy is neither waiting for nor running from a player. */
  predicate IsBeingHelpful(s: FairyAiState)
  {
    HelpfulValue(s.Value())
  }

  /** The helpful states, listed: the six states in which the fairy is busy with a player. */
  lemma HelpfulStates(s: FairyAiState)
    ensures IsBeingHelpful(s) <==> s in {ChasePlayer, CatchAttention, LeadToTarget, FoundTarget, HoverAroundPlayer, Despawn}
    ensures !IsBeingHelpful(s) <==> s == WaitForPlayer || s == RunAway
  {
  }

  /** IsBeingHelpful evaluated on an NPC's registers, as code outside the fairy sees it. */
  predicate SlotsBeingHelpful(ai: Slots)
  {
    HelpfulValue(LoadStateValue(ai))
  }

  /** Reading IsBeingHelpful from the registers agrees with the state stored there. */
  lemma SlotsBeingHelpfulAfterStore(ai: Slots, s: FairyAiState)
    ensures SlotsBeingHelpful(StoreAiState(ai, s)) <==> IsBeingHelpful(s)
  {
    ValueRoundTrip(s);
  }
}
