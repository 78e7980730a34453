/**
 * FairyCritterPurple: the purple rescue fairy as the ModNPC the game
 * updates in place. Its fields are the NPC's, grouped as module FairyAi
 * groups them (the engine's body, the motion, the presence, the flags and
 * the fairy's own data), and its AI updates them statement by statement as
 * the C# does; every method is proved to compute the pure function of
 * FairyAi on the fairy's `Snapshot()`, where the rules of a tick are stated
 * and proved.
 */
module PurpleFairy {
  import opened Wrappers
  import opened Geometry
  import opened Entities
  import opened FairyStates
  import opened TrackableNpcs
  import opened FairyInteraction
  import opened FairyTorch
  import opened FairyAi

  class FairyCritterPurple {
    /** NPC fields the engine maintains and the AI only reads: whoAmI, type, position, collisions, oldVelocity. */
    var body: Body
    /** NPC.velocity, direction, spriteDirection and noTileCollide. */
    var motion: Motion
    /** NPC.target, active, life, netSkip, timeLeft and the despawn request. */
    var presence: Presence
    /** NPC.netUpdate, lavaImmune, dontTakeDamage and dontTakeDamageFromHostiles. */
    var flags: Flags
    /** The fairy's own data, kept in ai[] and localAI[] (see Fairy.AiSlots and Fairy.LocalAiSlots). */
    var data: Data

    /** The fields as one value, on which the AI's rules are stated. */
    function Snapshot(): Fairy
      reads this
    {
      Fairy(body, motion, presence, flags, data)
    }

    ghost predicate Valid()
      reads this
    {
      Snapshot().Valid()
    }

    /** A fresh NPC slot after SetDefaults. */
    constructor (whoAmI: int, npcType: int, position: Vec, target: int, activeTime: int)
      requires 0 <= target < PlayerSlots
      ensures Snapshot() == Spawned(whoAmI, npcType, position, target, activeTime)
      ensures Valid()
    {
      body := Body(whoAmI, npcType, position, false, false, Zero);
      motion := Motion(Zero, 1, 1, false);
      presence := Presence(target, true, FairyLifeMax, 0, activeTime, false);
      flags := Flags(false, false, false, false);
      data := Data(WaitForPlayer, Zero, 0, 0, false);
    }

    /** CanBeCaughtBy: a bug net catches the fairy only while it is not helping. */
    function CanBeCaughtBy(): (r: bool)
      reads this
      ensures r <==> data.state == WaitForPlayer || data.state == RunAway
    {
      !IsBeingHelpful(data.state)
    }

    /** CanBeHitByProjectile: projectiles hit the fairy only while it is not helping. */
    function CanBeHitByProjectile(): (r: bool)
      reads this
      ensures r <==> data.state == WaitForPlayer || data.state == RunAway
    {
      !IsBeingHelpful(data.state)
    }

    /** The two set registrations of SetStaticDefaults: `Fairies[Type]` and `CanUnlockFairyTorch[Type]`. */
    method RegisterInSets(tweak: FairyInteractionAITweak, torch: FairyTorchUnlockSystem)
      requires tweak.Valid() && 0 <= body.npcType < tweak.fairies.Length && 0 <= body.npcType < torch.canUnlockFairyTorch.Length
      requires tweak.fairies != torch.canUnlockFairyTorch
      modifies tweak.fairies, torch.canUnlockFairyTorch
      ensures tweak.Valid() && tweak.fairies[body.npcType] && torch.canUnlockFairyTorch[body.npcType]
      ensures forall t :: 0 <= t < tweak.fairies.Length && t != body.npcType ==> tweak.fairies[t] == old(tweak.fairies[t])
      ensures forall t :: 0 <= t < torch.canUnlockFairyTorch.Length && t != body.npcType ==>
                torch.canUnlockFairyTorch[t] == old(torch.canUnlockFairyTorch[t])
    {
      tweak.RegisterFairy(body.npcType);
      torch.Allow(body.npcType);
    }

    /** OnSpawn: chase the closest player, timer at 3. */
    method OnSpawn(host: Host)
      requires Valid() && host.Valid()
      modifies this
      ensures Snapshot() == AfterSpawn(old(Snapshot()), host)
    {
      data := data.(state := ChasePlayer);
      presence, motion := presence.(target := host.closestTarget), motion.(direction := host.closestDirection);
      data := data.(generalTimer := 3);
      flags := flags.(netUpdate := true);
    }

    /** CheckActive: at night a waiting fairy refreshes its `timeLeft` and tells the engine not to despawn it. */
    method CheckActive(dayTime: bool, activeTime: int) returns (r: bool)
      modifies this
      ensures (r, Snapshot()) == CheckActiveResult(old(Snapshot()), dayTime, activeTime)
    {
      var flag := false;
      if !dayTime && data.state == WaitForPlayer {
        presence := presence.(timeLeft := activeTime);
        flag := true;
      }
      return !flag;
    }

    /**
     * FindBoundNPCs: scans Main.npc for the nearest trackable NPC in the
     * search region, keeping a candidate only when strictly nearer; succeeds
     * when the result is not the sentinel (-1, -1).
     */
    method FindBoundNPCs(host: Host, npcs: seq<Npc>, registry: TrackableNpcSystem)
      returns (found: bool, targetPosition: Vec)
      requires host.Valid() && |npcs| == MaxNpcs
      ensures targetPosition == body.BoundNpc(host, npcs, registry.trackingBlacklist, registry.trackingConditions)
      ensures found <==> targetPosition != Sentinel
    {
      var region := body.CheckRegion(host.world);
      var from := body.Center();
      var blacklist, conditions := registry.trackingBlacklist, registry.trackingConditions;
      ghost var search := body.SearchFrom(host, blacklist, conditions);
      targetPosition := Sentinel;
      var closestDistanceSquared: real := -1.0;
      var i := 0;
      while i < MaxNpcs
        invariant 0 <= i <= MaxNpcs
        invariant (targetPosition, closestDistanceSquared) == search.Scan(npcs, i)
      {
        var testNpc := npcs[i];
        var distanceSquared := host.lengthSquared(from.Sub(testNpc.Center()));
        body.SearchFromSlot(host, blacklist, conditions, npcs, i);
        ScanNext(search, npcs, i, search.IsCandidate(npcs, i), distanceSquared);
        if i == body.whoAmI || !testNpc.active || !region.Contains(ToTileCoordinates(testNpc.Center()))
           || !ValidNpcToTrack(blacklist, conditions, testNpc) {
          i := i + 1;
          continue;
        }
        if closestDistanceSquared == -1.0 || distanceSquared < closestDistanceSquared {
          targetPosition := testNpc.Center();
          closestDistanceSquared := distanceSquared;
        }
        i := i + 1;
      }
      found := targetPosition != Sentinel;
    }

    /** The despawn countdown at the top of AI. */
    method AdvanceDespawnTimer(host: Host)
      requires Valid() && host.Valid()
      modifies this
      ensures Snapshot() == Countdown(old(Snapshot()), host)
    {
      if host.netMode != MultiplayerClient && IsBeingHelpful(data.state) {
        data := data.(despawnTimer := data.despawnTimer + 1);
        if data.despawnTimer >= DespawnTimeTicks {
          data := data.(state := Despawn);
          motion := motion.(direction := ToDirectionInt(host.players[presence.target].center.x < body.Center().x));
          flags := flags.(netUpdate := true);
        }
      }
    }

    /** The switch to RunAway shared by three cases. */
    method FleeFrom(point: Vec)
      modifies this
      ensures Snapshot() == Flee(old(Snapshot()), point)
    {
      data := data.(state := RunAway);
      motion := motion.(direction := Snapshot().AwayFrom(point));
      if Along(motion.velocity.x, motion.direction) < 0.0 {
        motion := motion.(velocity := motion.velocity.(x := motion.direction as real * 2.0));
      }
      data := data.(generalTimer := 0);
      flags := flags.(netUpdate := true);
    }

    /** The WaitForPlayer case of AI. */
    method WaitForPlayerStep(host: Host)
      requires Valid() && host.Valid() && data.state == WaitForPlayer
      modifies this
      ensures Snapshot() == WaitForPlayerCase(old(Snapshot()), host)
    {
      flags := flags.(lavaImmune := false);
      motion := motion.(noTileCollide := false);
      if data.targetPosition == Zero {
        data := data.(targetPosition := body.Center());
      }
      if !data.initialized {
        data := data.(initialized := true);
        motion := motion.(velocity := host.spawnImpulse.Scale(0.7));
        flags := flags.(netUpdate := true);
      }
      var toTargetPosition := data.targetPosition.Sub(body.Center());
      motion := motion.(velocity := Pull(motion.velocity, toTargetPosition, host.lengthSquared(toTargetPosition)));
      presence, motion := presence.(target := host.closestTarget), motion.(direction := host.closestDirection);
      var player := host.players[presence.target];
      if Snapshot().Notices(host, player) {
        FleeFrom(player.center);
      }
    }

    /** The RunAway case of AI, with the nested ground scan. */
    method RunAwayStep(host: Host)
      requires Valid() && data.state == RunAway
      modifies this
      ensures Snapshot() == RunAwayCase(old(Snapshot()), host)
    {
      flags := flags.(lavaImmune := false);
      motion := motion.(noTileCollide := false);
      if body.collideX {
        motion := motion.(direction := -motion.direction);
        motion := motion.(velocity := motion.velocity.(x := motion.direction as real * 2.0));
      }
      if body.collideY {
        motion := motion.(velocity := motion.velocity.(y := ToDirectionInt(body.oldVelocity.y > 0.0) as real));
      }
      motion := motion.(velocity := motion.velocity.(x := RunAwayAccelerate(motion.velocity.x, motion.direction)));
      var origin := body.ScanOrigin(motion.direction);
      var shouldMoveDown, tooCloseToGround := GroundScan(origin.x, origin.y, host.tiles, host.tileSolid);
      motion := motion.(velocity := motion.velocity.(y := HoverLift(motion.velocity.y, !shouldMoveDown, tooCloseToGround)));
    }

    /** The ChasePlayer case of AI. */
    method ChasePlayerStep(host: Host, npcs: seq<Npc>, registry: TrackableNpcSystem)
      requires Valid() && host.Valid() && |npcs| == MaxNpcs && data.state == ChasePlayer
      modifies this
      ensures Snapshot() == ChasePlayerCase(old(Snapshot()), host, npcs, registry.trackingBlacklist, registry.trackingConditions)
    {
      motion := motion.(noTileCollide := true);
      var playerDead := false;
      if host.targetData.isPlayer {
        playerDead := host.players[presence.target].dead;
      }
      if playerDead {
        FleeFrom(host.targetData.center);
        return;
      }
      if host.netMode != MultiplayerClient && host.hitboxInSearchRange {
        var found, position := FindBoundNPCs(host, npcs, registry);
        if found {
          data := data.(targetPosition := position, state := CatchAttention);
        } else {
          data := data.(state := HoverAroundPlayer);
        }
        data := data.(generalTimer := 0);
        flags := flags.(netUpdate := true);
        return;
      }
      var velocity := Snapshot().ChaseVelocity(host);
      motion := motion.(velocity := velocity);
      var centerTile := ToTileCoordinates(body.Center());
      if host.inWorld(centerTile) {
        data := data.(generalTimer := StuckTimer(data.generalTimer, host.solidTile(centerTile)));
      }
    }

    /** The CatchAttention case of AI; reports whether it steered by hand. */
    method CatchAttentionStep(host: Host) returns (manualDirectionControl: bool)
      requires Valid() && host.Valid() && data.state == CatchAttention
      modifies this
      ensures Snapshot() == CatchAttentionCase(old(Snapshot()), host)
      ensures manualDirectionControl == ManualControl(old(Snapshot()), host)
    {
      motion := motion.(noTileCollide := true);
      manualDirectionControl := false;
      if data.generalTimer <= 15 {
        motion := motion.(velocity := motion.velocity.Scale(0.9));
      } else {
        motion := motion.(spriteDirection := Snapshot().AwayFrom(host.players[presence.target].center));
        manualDirectionControl := true;
        motion := motion.(velocity := CatchCircleVelocity(host, data.generalTimer, motion.direction));
      }
      data := data.(generalTimer := data.generalTimer + 1);
      if data.generalTimer >= CatchDuration {
        data := data.(state := LeadToTarget);
        presence, motion := presence.(target := host.closestTarget), motion.(direction := host.closestDirection);
        data := data.(generalTimer := 0);
        flags := flags.(netUpdate := true);
      }
    }

    /** The HoverAroundPlayer case of AI. */
    method HoverAroundPlayerStep(host: Host, npcs: seq<Npc>, registry: TrackableNpcSystem)
      requires Valid() && host.Valid() && |npcs| == MaxNpcs && data.state == HoverAroundPlayer
      modifies this
      ensures Snapshot() == HoverAroundPlayerCase(old(Snapshot()), host, npcs, registry.trackingBlacklist, registry.trackingConditions)
    {
      motion := motion.(noTileCollide := true);
      var toPlayer := host.players[presence.target].center.Sub(body.Center());
      if host.lengthSquared(toPlayer) > 100.0 * 100.0 {
        data := data.(state := ChasePlayer);
        presence, motion := presence.(target := host.closestTarget), motion.(direction := host.closestDirection);
        data := data.(generalTimer := 0);
        flags := flags.(netUpdate := true);
        return;
      }
      if !host.solidCollision {
        motion := motion.(noTileCollide := false);
        motion := motion.(velocity := Bounce(motion.velocity, body.collideX, body.collideY));
      }
      motion := motion.(velocity := Pull(motion.velocity, toPlayer, host.lengthSquared(toPlayer)));
      if host.netMode != MultiplayerClient {
        var found, position := FindBoundNPCs(host, npcs, registry);
        if found {
          data := data.(targetPosition := position, state := CatchAttention, generalTimer := 0);
          flags := flags.(netUpdate := true);
        }
      }
    }

    /** The LeadToTarget case of AI; reports whether it steered by hand. */
    method LeadToTargetStep(host: Host) returns (manualDirectionControl: bool)
      requires Valid() && host.Valid() && data.state == LeadToTarget
      modifies this
      ensures Snapshot() == LeadToTargetCase(old(Snapshot()), host)
      ensures manualDirectionControl == ManualControl(old(Snapshot()), host)
    {
      motion := motion.(noTileCollide := true);
      manualDirectionControl := false;
      var playerDead := false;
      if host.targetData.isPlayer {
        playerDead := host.players[presence.target].dead;
      }
      if playerDead {
        FleeFrom(host.targetData.center);
        return;
      }
      if host.hitboxInTargetRange {
        data := data.(state := FoundTarget, generalTimer := 0);
        flags := flags.(netUpdate := true);
        return;
      }
      var playerDistance := host.distance(body.Center(), host.targetData.center);
      if playerDistance > 300.0 {
        if playerDistance < 400.0 && !host.solidCollision {
          motion := motion.(noTileCollide := false);
          motion := motion.(velocity := Bounce(motion.velocity, body.collideX, body.collideY));
        }
        manualDirectionControl := true;
        motion := motion.(spriteDirection := Snapshot().AwayFrom(host.players[presence.target].center));
        var velocity := Snapshot().NudgeVelocity(host, motion.velocity, playerDistance);
        motion := motion.(velocity := velocity);
        return;
      }
      var velocity := Snapshot().LeadVelocity(host);
      motion := motion.(velocity := velocity);
      data := data.(generalTimer := StuckTimer(data.generalTimer, host.solidTile(ToTileCoordinates(body.Center()))));
    }

    /** The FoundTarget case of AI; reports whether it steered by hand and the completion effect. */
    method FoundTargetStep(host: Host) returns (manualDirectionControl: bool, effect: CompletionEffect)
      requires Valid() && host.Valid() && data.state == FoundTarget
      modifies this
      ensures Snapshot() == FoundTargetCase(old(Snapshot()), host)
      ensures manualDirectionControl == ManualControl(old(Snapshot()), host)
      ensures effect == CompletionEffectOf(old(Snapshot()), host)
    {
      data := data.(despawnTimer := 0);
      motion := motion.(noTileCollide := true);
      if data.generalTimer <= 15 {
        motion := motion.(velocity := motion.velocity.Scale(0.9));
        manualDirectionControl := false;
      } else {
        manualDirectionControl := true;
        motion := motion.(velocity := FoundCircleVelocity(host, data.generalTimer, motion.direction));
        motion := motion.(spriteDirection := Snapshot().AwayFrom(host.players[presence.target].center));
      }
      data := data.(generalTimer := data.generalTimer + 1);
      effect := NoEffect;
      if host.netMode != MultiplayerClient && data.generalTimer > FoundDuration {
        presence := presence.(active := false);
        if host.netMode == SinglePlayer {
          effect := LocalEffect(body.Center());
        } else if host.netMode == Server {
          presence := presence.(netSkip := -1, life := 0);
          effect := BroadcastEffect(body.Center());
        }
      }
    }

    /** The Despawn case of AI. */
    method DespawnStep()
      requires Valid() && data.state == Despawn
      modifies this
      ensures Snapshot() == DespawnCase(old(Snapshot()))
    {
      motion := motion.(noTileCollide := true);
      motion := motion.(velocity := Vec(Clamp(motion.velocity.x + 0.05 * motion.direction as real, -10.0, 10.0),
                                        Clamp(motion.velocity.y - 0.025, -5.0, 5.0)));
      // NPC.EncourageDespawn(10)
      if presence.timeLeft > 10 {
        presence := presence.(timeLeft := 10);
      }
      presence := presence.(despawnEncouraged := true);
    }

    /** The flutter loop: 0.05 per fairy that CanFlutterAround accepts, away from its height. */
    method FlutterAroundFairies(npcs: seq<Npc>, tweak: FairyInteractionAITweak)
      requires |npcs| == MaxNpcs && 0 <= body.npcType < tweak.fairies.Length && tweak.AllTypesInRange(npcs)
      modifies this
      ensures Snapshot() == old(Snapshot()).WithVelocity(
                Vec(old(motion.velocity).x, old(motion.velocity).y + tweak.FlutterShift(old(Snapshot()).AsNpc(), npcs, false)))
    {
      var me := Snapshot().AsNpc();
      var i := 0;
      while i < MaxNpcs
        invariant 0 <= i <= MaxNpcs
        invariant Snapshot() == old(Snapshot()).WithVelocity(
                    Vec(old(motion.velocity).x, old(motion.velocity).y + tweak.FlutterShift(me, npcs[..i], false)))
      {
        assert npcs[..i + 1][..i] == npcs[..i];
        if tweak.CanFlutterAround(me, npcs[i]) {
          if body.position.y < npcs[i].position.y {
            motion := motion.(velocity := motion.velocity.(y := motion.velocity.y - NudgeSpeed));
          } else {
            motion := motion.(velocity := motion.velocity.(y := motion.velocity.y + NudgeSpeed));
          }
        }
        i := i + 1;
      }
      assert npcs[..MaxNpcs] == npcs;
    }

    /** The switch on the state of AI: runs the case for the current state. */
    method RunStateCase(host: Host, npcs: seq<Npc>, registry: TrackableNpcSystem)
      returns (manualDirectionControl: bool, effect: CompletionEffect)
      requires Valid() && host.Valid() && |npcs| == MaxNpcs
      modifies this
      ensures Snapshot() == RunCase(old(Snapshot()), host, npcs, registry.trackingBlacklist, registry.trackingConditions)
      ensures manualDirectionControl == ManualControl(old(Snapshot()), host)
      ensures effect == CompletionEffectOf(old(Snapshot()), host)
    {
      manualDirectionControl, effect := false, NoEffect;
      match data.state {
        case WaitForPlayer =>
          WaitForPlayerStep(host);
        case RunAway =>
          RunAwayStep(host);
        case ChasePlayer =>
          ChasePlayerStep(host, npcs, registry);
        case CatchAttention =>
          manualDirectionControl := CatchAttentionStep(host);
        case HoverAroundPlayer =>
          HoverAroundPlayerStep(host, npcs, registry);
        case LeadToTarget =>
          manualDirectionControl := LeadToTargetStep(host);
        case FoundTarget =>
          manualDirectionControl, effect := FoundTargetStep(host);
        case Despawn =>
          DespawnStep();
      }
    }

    /** The start of AI: lava immunity and the despawn countdown. */
    method BeginTick(host: Host)
      requires Valid() && host.Valid()
      modifies this
      ensures Snapshot() == Counted(old(Snapshot()), host)
    {
      flags := flags.(lavaImmune := true);
      AdvanceDespawnTimer(host);
    }

    /** The end of AI: damage immunity while helping, the flutter loop, and the facing unless steered by hand. */
    method EndTick(npcs: seq<Npc>, tweak: FairyInteractionAITweak, manualDirectionControl: bool)
      requires |npcs| == MaxNpcs && 0 <= body.npcType < tweak.fairies.Length && tweak.AllTypesInRange(npcs)
      modifies this
      ensures body == old(body)
      ensures Snapshot() == Settle(old(Snapshot()), tweak.FlutterShift(Snapshot().AsNpc(), npcs, false), manualDirectionControl)
    {
      var helpful := IsBeingHelpful(data.state);
      flags := flags.(dontTakeDamage := helpful, dontTakeDamageFromHostiles := helpful);
      ghost var flagged := Snapshot();
      FlutterAroundFairies(npcs, tweak);
      if !manualDirectionControl {
        motion := motion.(direction := ToDirectionInt(motion.velocity.x >= 0.0));
        motion := motion.(spriteDirection := -motion.direction);
      }
      tweak.ShiftIgnoresVelocity(flagged.AsNpc(), motion.velocity, npcs, false);
    }

    /**
     * AI: one tick, as `Tick` states it, with the flutter shift the partners
     * in `npcs` cause; the completion effect is FoundTarget's when the fairy
     * vanishes.
     */
    method Ai(host: Host, npcs: seq<Npc>, registry: TrackableNpcSystem, tweak: FairyInteractionAITweak)
      returns (effect: CompletionEffect)
      requires Valid() && host.Valid() && |npcs| == MaxNpcs
      requires 0 <= body.npcType < tweak.fairies.Length && tweak.AllTypesInRange(npcs)
      modifies this
      ensures body == old(body)
      ensures Snapshot() == Tick(old(Snapshot()), host, npcs, registry.trackingBlacklist, registry.trackingConditions,
                                 tweak.FlutterShift(Snapshot().AsNpc(), npcs, false))
      ensures effect == CompletionEffectOf(Counted(old(Snapshot()), host), host)
      ensures Valid()
    {
      BeginTick(host);
      var manualDirectionControl;
      ghost var counted := Snapshot();
      manualDirectionControl, effect := RunStateCase(host, npcs, registry);
      RunCaseLeaves(counted, host, npcs, registry.trackingBlacklist, registry.trackingConditions);
      EndTick(npcs, tweak, manualDirectionControl);
      TickKeepsValid(old(Snapshot()), host, npcs, registry.trackingBlacklist, registry.trackingConditions,
                     tweak.FlutterShift(Snapshot().AsNpc(), npcs, false));
    }
  }
}
