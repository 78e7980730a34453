/**
 * TrackingSystemCalls: the mod-call front end through which other mods add
 * tracking conditions or blacklist entries. Arguments arrive as a list of
 * objects; `ValidateArgs` vets them before `Call` dispatches on the message.
 */
module TrackingCalls {
  import opened Wrappers
  import opened Entities
  import opened TrackableNpcs

  /** A boxed call argument, by runtime type. */
  datatype CallArg =
    | IntArg(value: int)
    | PredicateArg(condition: Condition)   // a non-null Func<NPC, bool>
    | NullArg
    | OtherArg                             // any object of another type

  /** IModCallManager.ArgParseFailureType, as far as this handler uses it. */
  datatype ArgParseFailureType = None | ArgLength | ArgType

  /** What a call returned: always `null` here, unless it threw. */
  datatype CallResult = ReturnedNull | CallThrew(error: Exception)

  const AddTrackingConditionMessage := "AddTrackingCondition"
  const AddBlacklistMessage := "AddBlacklist"

  /** HandleableMessages, in order. */
  const HandleableMessages: seq<string> := [AddTrackingConditionMessage, AddBlacklistMessage]

  /**
   * ValidateArgs: exactly one argument, and it is an int or a Func<NPC,bool>.
   * Success comes with failure type None; a wrong count is reported as
   * ArgLength before the type is looked at, a wrong type as ArgType.
   */
  function ValidateArgs(parsedArgs: seq<CallArg>): (r: (bool, ArgParseFailureType))
    ensures r.0 <==> |parsedArgs| == 1 && (parsedArgs[0].IntArg? || parsedArgs[0].PredicateArg?)
    ensures r.0 <==> r.1 == ArgParseFailureType.None
    ensures |parsedArgs| != 1 ==> r.1 == ArgLength
    ensures |parsedArgs| == 1 && !r.0 ==> r.1 == ArgType
  {
    if |parsedArgs| != 1 then (false, ArgLength)
    else if !parsedArgs[0].IntArg? && !parsedArgs[0].PredicateArg? then (false, ArgType)
    else (true, ArgParseFailureType.None)
  }

  /** The predicate Call registers for an accepted argument: an int becomes a type test. */
  function ConditionOf(arg: CallArg): Condition
    requires arg.IntArg? || arg.PredicateArg?
  {
    if arg.IntArg? then TypeIs(arg.value) else arg.condition
  }

  /**
   * Call: the first handleable message appends to the tracking list, any
   * other message to the blacklist; the result is always null. Without prior
   * validation the C# code throws: on an empty list (indexer), on an argument
   * of another type (cast) and on a null argument (the registry's null check).
   */
  method Call(registry: TrackableNpcSystem, message: string, args: seq<CallArg>) returns (r: CallResult)
    modifies registry
    ensures ValidateArgs(args).0 ==> r == ReturnedNull
    ensures r == ReturnedNull ==> |args| > 0 && (args[0].IntArg? || args[0].PredicateArg?)
    ensures r == ReturnedNull && message == HandleableMessages[0] ==>
              registry.trackingConditions == old(registry.trackingConditions) + [ConditionOf(args[0])]
              && registry.trackingBlacklist == old(registry.trackingBlacklist)
    ensures r == ReturnedNull && message != HandleableMessages[0] ==>
              registry.trackingBlacklist == old(registry.trackingBlacklist) + [ConditionOf(args[0])]
              && registry.trackingConditions == old(registry.trackingConditions)
    ensures r.CallThrew? ==> registry.trackingConditions == old(registry.trackingConditions)
                             && registry.trackingBlacklist == old(registry.trackingBlacklist)
    ensures |args| == 0 ==> r == CallThrew(ArgumentOutOfRange)
    ensures |args| > 0 && args[0].OtherArg? ==> r == CallThrew(InvalidCast)
    ensures |args| > 0 && args[0].NullArg? ==> r == CallThrew(ArgumentNull)
  {
    if |args| == 0 {
      return CallThrew(ArgumentOutOfRange);
    }
    var condition: Option<Condition>;
    match args[0] {
      case IntArg(npcType) => condition := Some(TypeIs(npcType));
      case PredicateArg(f) => condition := Some(f);
      case NullArg => condition := Option.None;
      case OtherArg => return CallThrew(InvalidCast);
    }

    var outcome: Outcome;
    if message == HandleableMessages[0] {
      outcome := registry.AddTrackingCondition(condition);
    } else {
      outcome := registry.AddToBlacklist(condition);
    }
    r := if outcome.Threw? then CallThrew(outcome.error) else ReturnedNull;
  }
}
