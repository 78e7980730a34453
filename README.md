# Rescue Fairies: the purple fairy, modelled in Dafny

This project models the core of the Terraria mod *Rescue Fairies*: the purple
"rescue fairy" NPC and the systems around it.

The purple fairy:
- waits underground for a player and runs away from one it notices;
- once it is helping, chases the player and searches the NPC array for the
  nearest trackable NPC (a bound Town NPC, the Skeleton Merchant, the Lost
  Girl, a dormant mimic, or whatever other mods register);
- catches the player's attention, leads them to the target, circles it and
  vanishes;
- leaves after 18 000 ticks of helping.

Around it:
- `TrackableNPCSystem` keeps the tracking conditions and the blacklist.
- `TrackingSystemCalls` lets other mods extend those two lists.
- `FairyInteractionAITweak` makes fairies flutter around each other.
- Three host patches make the purple fairy count as:
  - a helpful fairy (`NPC.AnyHelpfulFairies`);
  - a nearby fairy (`Player.isNearFairy`);
  - a fairy-glowstick unlock.
- `CritterCageAnimationTile` animates the fairy jar like a critter cage.

Modules:

- `Geometry`: the framework's Vector2, Point and Rectangle. It also states
  how C# truncates, since `(int)` casts and integer `/` and `%` round toward
  zero. `ToTileCoordinates` truncates to an int and then shifts right by 4,
  which rounds down, also for negative coordinates.
- `Entities`: the NPC and player records and the vanilla ids used.
- `Wrappers`: `Option` and the exception outcome of a call.
- `FairyStates`: the `FairyAIState` enum. It also models how the fairy packs
  its data into the NPC's float registers `ai[]` and `localAI[]`, with
  round-trip lemmas.
- `FairyAi`: the fairy's AI as pure functions on a `Fairy` value.
  - One function per case of the state switch.
  - `Tick` for a whole tick.
  - The nearest-target search as a `Search` scan.
  - The lemmas about a tick: the transition graph, timer resets, the forced
    despawn, the damage flags, speed limits, facing, and the target being
    the nearest trackable NPC.
- `PurpleFairy`: the `FairyCritterPurple` ModNPC as a class whose fields are
  the NPC's. Its AI updates them statement by statement, in the C# order.
  Each method is proved to compute the matching `FairyAi` function on
  `Snapshot()`:
  - every case of the switch;
  - `FindBoundNPCs`' loop;
  - the flutter loop;
  - the whole `AI`.
- `TrackableNpcs`, `TrackingCalls`, `FairyInteraction`, `CritterCages`,
  `AnyHelpfulFairiesPatch`, `IsNearFairyPatch` and `FairyTorch`: one module
  per remaining source file.

What the engine answers during a tick arrives as a `Host` value:
- the closest player and its facing;
- the target data;
- hitbox-rectangle tests and closest points;
- tile queries and the world size;
- square roots, cosines and the vanilla circling and bird-flight helpers;
- the launch impulse drawn at random.

Static arrays and lists become objects that are passed in:
- `Fairies` and `CanUnlockFairyTorch` are `array<bool>` fields.
- The tracking lists are `seq` fields of a registry object.

Behaviour of the code worth knowing when reading the model (lines of
`Content/NPCs/FairyCritterPurple.cs` unless stated):
- `OnSpawn` (186-192) puts a newly spawned fairy straight into ChasePlayer,
  with its timer at 3 and targeting the closest player. A spawned fairy
  therefore starts helping.
- WaitForPlayer notices a living player within 250 units (262). The switch to
  RunAway faces away from that player (265), as the fallback after a player's
  death does (366-368).
- RunAway (277-352) never assigns `AIState`. Once running, a fairy stays in
  RunAway.
- FoundTarget zeroes `DespawnTimer` only when its own case runs (631). On the
  tick LeadToTarget switches to FoundTarget (553), the timer keeps its counted
  value. `FairyAi.DespawnIsForced` states the exact value.
- `Entity.Center` (engine code) offsets the position by `width / 2` and
  `height / 2` in integer division, so for an odd-sized NPC the centre the
  search compares and returns (755-763) is half a unit short of the middle.
- `FindBoundNPCs` walks all `Main.maxNPCs` slots (752). It centres the search
  region on the fairy's centre tile (743), inflated by 75 and 50 tiles and
  clipped to the world's off-limits border (745-748).
- ChasePlayer queries `WorldGen.SolidTile` only inside `WorldGen.InWorld`
  (420-422). LeadToTarget queries it without that guard (622).
- `CanFlutterAround` (`Common/GlobalNPCs/FairyInteractionAITweak.cs:143-149`)
  compares the distance with the first NPC's width only. It is therefore
  symmetric only between NPCs of equal width
  (`FairyInteraction.FairyInteractionAITweak.AsymmetricForUnequalWidths`).

## Model

| member | source | states |
|---|---|---|
| FairyStates.FairyAiState.Value | Content/NPCs/FairyCritterPurple.cs:36-77 | the eight states have the implicit enum values 0 .. 7 |
| FairyStates.StateOfValue | Content/NPCs/FairyCritterPurple.cs:97-101 | a raw value names a state exactly when it lies in 0 .. 7, and then it is that state's value |
| FairyStates.ValueRoundTrip | Content/NPCs/FairyCritterPurple.cs:97-101 | decoding a state's enum value gives back the state |
| FairyStates.StoreAiState | Content/NPCs/FairyCritterPurple.cs:97-101 | the AIState setter reads back as the stored state and leaves every register but `ai[2]` alone |
| FairyStates.StoreTargetPosition | Content/NPCs/FairyCritterPurple.cs:106-114 | the TargetPosition setter reads back as the stored vector and leaves the state and timer registers alone |
| FairyStates.StoreInitialized | Content/NPCs/FairyCritterPurple.cs:119-123 | the Initialized setter reads back as the stored flag and leaves the despawn timer alone |
| FairyStates.StoresDoNotInterfere | Content/NPCs/FairyCritterPurple.cs:97-114 | storing the state and the target position in either order keeps both readable |
| FairyStates.HelpfulStates | Content/NPCs/FairyCritterPurple.cs:128 | IsBeingHelpful holds exactly for the six states other than WaitForPlayer and RunAway |
| FairyStates.SlotsBeingHelpfulAfterStore | Content/NPCs/FairyCritterPurple.cs:97-128 | IsBeingHelpful read from the registers agrees with the state last stored there |
| Geometry.Truncate | Content/NPCs/FairyCritterPurple.cs:99 | a float-to-int cast drops the fraction toward zero: same sign, magnitude within 1 below |
| Geometry.TDiv | Common/GlobalTiles/CritterCageAnimationTile.cs:59-61 | C# integer division: the quotient's magnitude is the magnitudes' quotient, and its sign follows the operands' |
| Geometry.TMod | Common/GlobalTiles/CritterCageAnimationTile.cs:61 | C# remainder: dividend = divisor * quotient + remainder, smaller than the divisor, with the dividend's sign |
| Geometry.TruncatingAgreesOnNaturals | Common/GlobalTiles/CritterCageAnimationTile.cs:59-61 | on nonnegative operands C#'s `/` and `%` equal the Euclidean ones |
| Geometry.ToTileCoordinates | Content/NPCs/FairyCritterPurple.cs:743 | Terraria's `(int)v >> 4`: the tile's 16-unit span holds the truncated coordinate, rounding down also for negative coordinates |
| Entities.Npc.Center | Content/NPCs/FairyCritterPurple.cs:755-763 | `Entity.Center` adds C#'s integer half of the width and height to the position: within half a unit below the exact middle, so an odd-sized NPC's centre lies 0.5 short of it |
| Geometry.Intersect | Content/NPCs/FairyCritterPurple.cs:748 | Rectangle.Intersect contains exactly the points both rectangles contain |
| Geometry.Clamp | Content/NPCs/FairyCritterPurple.cs:349 | Math.Clamp stays within the bounds and is the identity inside them |
| Geometry.ToDirectionInt | Content/NPCs/FairyCritterPurple.cs:223 | `ToDirectionInt` is 1 for true and -1 for false |
| TrackableNpcs.AnyMatches | Common/Systems/TrackableNPCSystem.cs:88-102 | the in-order scan answers true iff some predicate of the list holds |
| TrackableNpcs.ValidNpcToTrack | Common/Systems/TrackableNPCSystem.cs:86-105 | an NPC is trackable iff no blacklist predicate and some tracking condition holds of it |
| TrackableNpcs.BlacklistWins | Common/Systems/TrackableNPCSystem.cs:88-94 | a blacklisted NPC is never trackable, whatever the conditions |
| TrackableNpcs.NotBlacklistedMeansAnyCondition | Common/Systems/TrackableNPCSystem.cs:96-104 | without a blacklist match the answer is exactly "some condition matches" |
| TrackableNpcs.MoreConditionsKeepTracking | Common/Systems/TrackableNPCSystem.cs:96-102 | appending tracking conditions never makes a trackable NPC untrackable |
| TrackableNpcs.DefaultsTrack | Common/Systems/TrackableNPCSystem.cs:26-41 | with the default conditions an NPC is tracked iff it is not blacklisted and faces the closest player, is the Skeleton Merchant or Lost Girl, or is a dormant mimic |
| TrackableNpcs.TypeConditionTracks | Common/Systems/TrackableNPCSystem.cs:47-50 | after registering a type, every NPC of that type is trackable unless blacklisted |
| TrackableNpcs.TrackableNpcSystem.constructor | Common/Systems/TrackableNPCSystem.cs:18-24 | both lists start empty |
| TrackableNpcs.TrackableNpcSystem.SetStaticDefaults | Common/Systems/TrackableNPCSystem.cs:26-41 | appends the five default conditions and leaves the blacklist |
| TrackableNpcs.TrackableNpcSystem.AddTrackingConditionForType | Common/Systems/TrackableNPCSystem.cs:47-50 | appends the type test and leaves the blacklist |
| TrackableNpcs.TrackableNpcSystem.AddTrackingCondition | Common/Systems/TrackableNPCSystem.cs:56-60 | throws on null and changes nothing; otherwise appends the predicate |
| TrackableNpcs.TrackableNpcSystem.AddTypeToBlacklist | Common/Systems/TrackableNPCSystem.cs:66-69 | appends the type test to the blacklist and leaves the conditions |
| TrackableNpcs.TrackableNpcSystem.AddToBlacklist | Common/Systems/TrackableNPCSystem.cs:75-79 | throws on null and changes nothing; otherwise appends the predicate to the blacklist |
| TrackingCalls.ValidateArgs | Content/CallMethods/TrackingSystemCalls.cs:24-40 | accepts exactly one int or predicate argument; a wrong count reports ArgLength before the type is looked at, a wrong type ArgType, success None |
| TrackingCalls.Call | Content/CallMethods/TrackingSystemCalls.cs:42-55 | the first message appends to the conditions, any other to the blacklist, an int becoming a type test; validated calls return null; empty, mistyped and null arguments throw and change nothing |
| FairyInteraction.Nudge | Common/GlobalNPCs/FairyInteractionAITweak.cs:129-132 | a partner moves the NPC up by 0.05 when the NPC is above it, otherwise down by 0.05 |
| FairyInteraction.FairyInteractionAITweak.constructor | Common/GlobalNPCs/FairyInteractionAITweak.cs:101-108 | `Fairies` starts with exactly the three vanilla fairies flagged |
| FairyInteraction.FairyInteractionAITweak.RegisterFairy | Content/NPCs/FairyCritterPurple.cs:148 | flags one type in `Fairies` and changes no other entry |
| FairyInteraction.FairyInteractionAITweak.AppliesToEntity | Common/GlobalNPCs/FairyInteractionAITweak.cs:112-115 | the global applies exactly to the pink, green and blue fairies, all flagged in `Fairies` |
| FairyInteraction.FairyInteractionAITweak.AI | Common/GlobalNPCs/FairyInteractionAITweak.cs:117-135 | the loop changes only `velocity.Y`, by the sum of the nudges of the non-vanilla partners that can flutter around the NPC |
| FairyInteraction.FairyInteractionAITweak.CanFlutterAround | Common/GlobalNPCs/FairyInteractionAITweak.cs:143-149 | partners are within 1.5 of the first NPC's width on each axis and in the sum of both axes; `CloseFairiesFlutter` gives the converse for an inner box, and `NeverAroundItself`, `OnlyActiveFairies` and the two symmetry lemmas give the rest |
| FairyInteraction.FairyInteractionAITweak.ShiftBoundedByPartners | Common/GlobalNPCs/FairyInteractionAITweak.cs:127-133 | the total shift is at most 0.05 per partner |
| FairyInteraction.FairyInteractionAITweak.NoPartnerNoShift | Common/GlobalNPCs/FairyInteractionAITweak.cs:127-133 | with no partner in range the vertical speed is unchanged |
| FairyInteraction.FairyInteractionAITweak.ShiftIgnoresVelocity | Common/GlobalNPCs/FairyInteractionAITweak.cs:143-148 | the shift depends only on positions, not on the NPC's velocity |
| FairyInteraction.FairyInteractionAITweak.NeverAroundItself | Common/GlobalNPCs/FairyInteractionAITweak.cs:145 | an NPC never flutters around its own slot |
| FairyInteraction.FairyInteractionAITweak.OnlyActiveFairies | Common/GlobalNPCs/FairyInteractionAITweak.cs:146-147 | an inactive NPC or one outside `Fairies` takes part in neither direction |
| FairyInteraction.FairyInteractionAITweak.SymmetricForEqualWidths | Common/GlobalNPCs/FairyInteractionAITweak.cs:143-149 | between NPCs of equal width the rule is symmetric |
| FairyInteraction.FairyInteractionAITweak.CloseFairiesFlutter | Common/GlobalNPCs/FairyInteractionAITweak.cs:141-149 | distinct, active, flagged NPCs within 0.75 of the first NPC's width on each axis always flutter, the sufficient direction of the documented rule |
| FairyInteraction.FairyInteractionAITweak.AsymmetricForUnequalWidths | Common/GlobalNPCs/FairyInteractionAITweak.cs:148 | with unequal widths the wider NPC can reach a partner that cannot reach it |
| CritterCages.CageOrigin | Common/GlobalTiles/CritterCageAnimationTile.cs:59-60 | for nonnegative frame offsets the origin is the tile whose 18-pixel frame span holds the offset, up and to the left of the tile |
| CritterCages.GetCageFrame | Common/GlobalTiles/CritterCageAnimationTile.cs:57-62 | the frame is below `cageFrames` in magnitude for every cage; `FrameInRange` shows it is a valid index at nonnegative coordinates and `SameFrameAcrossCage` that all tiles of a cage agree |
| CritterCages.FrameInRange | Common/GlobalTiles/CritterCageAnimationTile.cs:57-62 | for a cage at nonnegative coordinates the frame lies in 0 .. cageFrames - 1 |
| CritterCages.FrameOffsetStep | Common/GlobalTiles/CritterCageAnimationTile.cs:59-60 | stepping whole tiles changes the frame offset by 18 per tile, which the division absorbs |
| CritterCages.SameFrameAcrossCage | Common/GlobalTiles/CritterCageAnimationTile.cs:50-61 | every tile of one cage computes the same origin and the same frame |
| CritterCages.CritterCageAnimationTile.constructor | Common/GlobalTiles/CritterCageAnimationTile.cs:18 | the dictionary starts empty |
| CritterCages.CritterCageAnimationTile.RegisterTile | Common/GlobalTiles/CritterCageAnimationTile.cs:25-30 | a null array throws; a duplicate key throws and keeps the first entry; otherwise the pair is added |
| CritterCages.CritterCageAnimationTile.ModifyTileDrawData | Common/GlobalTiles/CritterCageAnimationTile.cs:32-45 | unregistered tiles are untouched; registered ones get `tileTop` 2, `critterCage` set and `addFrY` from the frame's entry, throwing when the frame is outside the array, which a full-length array at nonnegative coordinates rules out |
| AnyHelpfulFairiesPatch.PatchMethod | Content/Patches/AnyHelpfulFairiesPatch.cs:20-37 | the answer is the original one or the existence of an active purple fairy that is being helpful |
| AnyHelpfulFairiesPatch.IdleFairiesDoNotCount | Content/Patches/AnyHelpfulFairiesPatch.cs:29 | an inactive fairy, or one in WaitForPlayer or RunAway, never counts |
| AnyHelpfulFairiesPatch.StoredHelpfulStateCounts | Content/Patches/AnyHelpfulFairiesPatch.cs:29 | an active purple fairy whose stored state is helpful counts |
| IsNearFairyPatch.PatchMethod | Content/Patches/IsNearFairyPatch.cs:20-36 | the answer is the original one or, when the host counted a purple fairy, the existence of an active one within a screen width; without that count it stays false |
| IsNearFairyPatch.RangeIsSymmetric | Content/Patches/IsNearFairyPatch.cs:30 | "within range" does not depend on which of the two points is the player |
| FairyTorch.FairyTorchUnlockSystem.constructor | Common/Systems/FairyTorchUnlockSystem.cs:51 | every NPC type starts unflagged |
| FairyTorch.FairyTorchUnlockSystem.Allow | Content/NPCs/FairyCritterPurple.cs:149 | flags one type and changes no other entry |
| FairyTorch.FairyTorchUnlockSystem.PatchMethod | Common/Systems/FairyTorchUnlockSystem.cs:28-45 | the answer is the original one or the existence of a flagged type whose bestiary entry was discovered |
| FairyTorch.FairyTorchUnlockSystem.OnlyFlaggedTypeUnlocks | Common/Systems/FairyTorchUnlockSystem.cs:35-41 | with only one type flagged, a false original answer turns true exactly when that type was discovered |
| FairyAi.IdleStaysIdle | Content/NPCs/FairyCritterPurple.cs:230-352 | from WaitForPlayer and RunAway the switch reaches only those two states |
| FairyAi.AlongIsProduct | Content/NPCs/FairyCritterPurple.cs:266 | `x * direction` for a facing of 1 or -1 is the sign flip the model uses |
| FairyAi.FleeVelocity | Content/NPCs/FairyCritterPurple.cs:265-269 | after turning to flee, the horizontal speed points along the new facing; a speed already along it is kept |
| FairyAi.RunAwayAccelerate | Content/NPCs/FairyCritterPurple.cs:293-309 | the speed along the faced direction never drops and does not pass 4.5 unless it already did |
| FairyAi.StuckTimer | Content/NPCs/FairyCritterPurple.cs:420-426 | the stuck timer stays in 0 .. 400, rising inside a solid tile and falling outside one |
| FairyAi.BirdAdjust | Content/NPCs/FairyCritterPurple.cs:408-418 | the bird-flight adjustment ends inside the clamp bounds |
| FairyAi.HoverLift | Content/NPCs/FairyCritterPurple.cs:341-349 | RunAway's vertical speed ends in [-5, 3] |
| FairyAi.GroundScan | Content/NPCs/FairyCritterPurple.cs:311-339 | the nested scan sinks iff no tile in the 21 x 8 window blocks, and is too close iff one blocks in its top five rows |
| FairyAi.ScanFindsNearest | Content/NPCs/FairyCritterPurple.cs:750-766 | after any prefix of slots the scan holds the sentinel with no candidate, otherwise the centre and distance of the nearest candidate, the earliest on ties |
| FairyAi.ScanResult | Content/NPCs/FairyCritterPurple.cs:738-769 | a finished scan is the nearest candidate's centre or the sentinel, and succeeds iff a candidate exists when no accepted NPC sits on the sentinel |
| FairyAi.SentinelOutsideBorder | Content/NPCs/FairyCritterPurple.cs:740-748 | inside a positive world border no point of the search region is the sentinel's tile |
| FairyAi.Body.CheckRegion | Content/NPCs/FairyCritterPurple.cs:742-748 | a tile is searched iff it lies within 75 tiles horizontally and 50 vertically of the fairy's centre tile and inside the world's off-limits border |
| FairyAi.Body.SearchFromSlot | Content/NPCs/FairyCritterPurple.cs:752-760 | a slot is a candidate iff the loop's inline test passes, and its distance is the loop's squared distance |
| FairyAi.Fairy.AiSlots | Content/NPCs/FairyCritterPurple.cs:87-114 | `ai[]` reads back the fairy's state, target position and general timer |
| FairyAi.Fairy.LocalAiSlots | Content/NPCs/FairyCritterPurple.cs:92-123 | `localAI[]` reads back the initialised flag and the despawn timer |
| FairyAi.Fairy.AwayFrom | Content/NPCs/FairyCritterPurple.cs:265 | the facing is 1 exactly when the point is not to the fairy's right |
| FairyAi.Fairy.ChaseVelocity | Content/NPCs/FairyCritterPurple.cs:396-418 | while the stuck timer is below 300 the vertical speed ends in [-4, 2] |
| FairyAi.Fairy.LeadVelocity | Content/NPCs/FairyCritterPurple.cs:598-620 | while the stuck timer is below 300 the vertical speed ends in [-1, 1] |
| FairyAi.Fairy.CompletionFor | Content/NPCs/FairyCritterPurple.cs:658-671 | no effect on a client; otherwise a local or broadcast effect at the fairy's centre |
| FairyAi.HelpfulAsSeenInNpcArray | Content/NPCs/FairyCritterPurple.cs:97-128 | IsBeingHelpful read from the fairy's `ai[]` in Main.npc is the fairy's own answer |
| FairyAi.SearchFindsNearest | Content/NPCs/FairyCritterPurple.cs:738-769 | FindBoundNPCs' answer is the nearest candidate's centre (earliest on ties) or the sentinel, and inside a positive border it succeeds iff a candidate exists |
| FairyAi.FoundInRegion | Content/NPCs/FairyCritterPurple.cs:742-757 | a successful search returns the centre of another slot's active, trackable NPC inside the search region |
| FairyAi.Spawned | Content/NPCs/FairyCritterPurple.cs:152-165 | a fresh fairy is active with 5 life, zero registers, waiting and uninitialised |
| FairyAi.AfterSpawn | Content/NPCs/FairyCritterPurple.cs:186-192 | OnSpawn leaves the fairy helping, in ChasePlayer with timer 3, targeting the closest player |
| FairyAi.CheckActiveResult | Content/NPCs/FairyCritterPurple.cs:199-208 | keeps the fairy (false) exactly at night in WaitForPlayer, then refreshing `timeLeft`; otherwise changes nothing |
| FairyAi.Countdown | Content/NPCs/FairyCritterPurple.cs:217-226 | off the client a helpful fairy's despawn timer rises by one and at 18 000 the state becomes Despawn; otherwise nothing changes |
| FairyAi.Flee | Content/NPCs/FairyCritterPurple.cs:264-272 | the switch to RunAway faces away from the point, flies along the facing, resets the timer and requests a sync |
| FairyAi.WaitHovering | Content/NPCs/FairyCritterPurple.cs:232-260 | the hover part of WaitForPlayer initialises the fairy, drops lava immunity, retargets the closest player and keeps state, timer and body |
| FairyAi.WaitForPlayerCase | Content/NPCs/FairyCritterPurple.cs:230-276 | WaitForPlayer switches to RunAway, with timer 0 and a sync, iff the closest player is alive and within 250; otherwise it keeps waiting |
| FairyAi.RunAwayCase | Content/NPCs/FairyCritterPurple.cs:277-352 | RunAway stays in RunAway, drops lava immunity and keeps its vertical speed in [-5, 3] |
| FairyAi.SearchOutcome | Content/NPCs/FairyCritterPurple.cs:378-394 | a found target leads to CatchAttention with that position, nothing found to HoverAroundPlayer, both with timer 0 and a sync |
| FairyAi.ChasePlayerCase | Content/NPCs/FairyCritterPurple.cs:353-429 | ChasePlayer moves along the graph, runs away iff the player is dead, catches attention only off the client at the search's answer, and clamps its hover while not stuck |
| FairyAi.CatchAttentionCase | Content/NPCs/FairyCritterPurple.cs:430-480 | CatchAttention leads exactly when the incremented timer reaches 210, retargeting with timer 0 and a sync; otherwise its timer rises by one |
| FairyAi.HoverNearPlayer | Content/NPCs/FairyCritterPurple.cs:496-524 | a found target switches to CatchAttention with that position, timer 0 and a sync; nothing found leaves the fairy's data unchanged |
| FairyAi.HoverAroundPlayerCase | Content/NPCs/FairyCritterPurple.cs:481-526 | HoverAroundPlayer chases iff the player is farther than 100, and catches attention only off the client at the search's answer |
| FairyAi.LeadToTargetCase | Content/NPCs/FairyCritterPurple.cs:527-628 | LeadToTarget runs away iff the player is dead, finds the target iff the hitbox reaches it, and clamps its hover near the player while not stuck |
| FairyAi.FoundTargetCase | Content/NPCs/FairyCritterPurple.cs:629-675 | FoundTarget stays, zeroes the despawn timer, counts its timer, and off the client deactivates after 200 ticks (a server zeroes life and skips sync) |
| FairyAi.DespawnCase | Content/NPCs/FairyCritterPurple.cs:676-683 | Despawn stays, caps the speeds at 10 and 5 and asks the engine to despawn within 10 ticks |
| FairyAi.RunCase | Content/NPCs/FairyCritterPurple.cs:228-684 | the switch keeps the fairy valid, moves along the transition graph, and resets the timer and requests a sync on every change |
| FairyAi.RunCaseLeaves | Content/NPCs/FairyCritterPurple.cs:228-684 | no case touches the body or the damage flags; lava immunity survives only a helping case; only FoundTarget deactivates the fairy or zeroes the despawn timer |
| FairyAi.CompletionEffectOf | Content/NPCs/FairyCritterPurple.cs:658-672 | an effect at the fairy's centre occurs exactly when FoundTarget vanishes |
| FairyAi.Tick | Content/NPCs/FairyCritterPurple.cs:210-731 | one AI call: lava immunity and the despawn countdown, the case for the state, then the damage flags, the flutter shift and the facing; the lemmas below state what a tick guarantees |
| FairyAi.TickKeepsValid | Content/NPCs/FairyCritterPurple.cs:210-731 | every tick keeps the target in Main.player, the facing at 1 or -1 and the timers within their bounds |
| FairyAi.TickFollowsGraph | Content/NPCs/FairyCritterPurple.cs:228-684 | a tick moves the state along the transition graph, and every change resets the general timer and requests a sync |
| FairyAi.DespawnIsForced | Content/NPCs/FairyCritterPurple.cs:217-226 | the despawn timer counts one per helpful tick off the client, and at 18 000 the fairy despawns that tick, drifting away from its target |
| FairyAi.CatchLeadsOnTime | Content/NPCs/FairyCritterPurple.cs:470-478 | CatchAttention's only exit is LeadToTarget, taken exactly when the incremented timer reaches 210 |
| FairyAi.FoundTargetVanishes | Content/NPCs/FairyCritterPurple.cs:657-672 | FoundTarget is final and vanishes with its completion effect after 200 ticks off the client; no other case deactivates the fairy or produces an effect |
| FairyAi.DamageFlagsFollowHelping | Content/NPCs/FairyCritterPurple.cs:215-686 | both damage immunities end equal to IsBeingHelpful of the new state, and lava immunity ends set exactly when the case that ran was a helping one |
| FairyAi.IdleNeverHelps | Content/NPCs/FairyCritterPurple.cs:228-686 | a fairy that is not helping never starts again and stays open to damage |
| FairyAi.SpeedLimits | Content/NPCs/FairyCritterPurple.cs:277-683 | before the flutter shift, the speed clamps of RunAway, Despawn, ChasePlayer (not stuck) and LeadToTarget (not stuck, player within 300) hold after a tick |
| FairyAi.FacesItsFlight | Content/NPCs/FairyCritterPurple.cs:703-707 | unless steered by hand, the fairy faces where it flies and its sprite the other way |
| FairyAi.EngineFieldsUnchanged | Content/NPCs/FairyCritterPurple.cs:210-731 | a tick never changes the position, slot, type or collision fields |
| FairyAi.WaitingNoticesPlayer | Content/NPCs/FairyCritterPurple.cs:260-273 | a waiting fairy runs away exactly when the closest player is alive and within 250, and otherwise keeps waiting |
| FairyAi.FollowingEnds | Content/NPCs/FairyCritterPurple.cs:531-557 | a player's death sends a chasing or leading fairy running; a leading fairy whose hitbox reaches the target finds it |
| FairyAi.NewTargetFromSearch | Content/NPCs/FairyCritterPurple.cs:375-394 | a fairy that starts catching attention does so off the client, with the position FindBoundNPCs returned |
| FairyAi.FoundIsNearest | Content/NPCs/FairyCritterPurple.cs:750-768 | a search result other than the sentinel is the centre of a nearest candidate |
| FairyAi.NewTargetIsNearest | Content/NPCs/FairyCritterPurple.cs:733-769 | the position a fairy starts catching attention with is the centre of the nearest trackable NPC in its search region |
| PurpleFairy.FairyCritterPurple.constructor | Content/NPCs/FairyCritterPurple.cs:152-165 | a new fairy is the fresh `Spawned` fairy |
| PurpleFairy.FairyCritterPurple.CanBeCaughtBy | Content/NPCs/FairyCritterPurple.cs:194-197 | a bug net catches the fairy exactly in WaitForPlayer and RunAway |
| PurpleFairy.FairyCritterPurple.CanBeHitByProjectile | Content/NPCs/FairyCritterPurple.cs:827-830 | projectiles hit the fairy exactly in WaitForPlayer and RunAway |
| PurpleFairy.FairyCritterPurple.RegisterInSets | Content/NPCs/FairyCritterPurple.cs:148-149 | flags the fairy's type in `Fairies` and `CanUnlockFairyTorch`, changing no other entry |
| PurpleFairy.FairyCritterPurple.OnSpawn | Content/NPCs/FairyCritterPurple.cs:186-192 | the fields become `AfterSpawn` of the old fairy |
| PurpleFairy.FairyCritterPurple.CheckActive | Content/NPCs/FairyCritterPurple.cs:199-208 | the answer and the new fields are `CheckActiveResult` of the old fairy |
| PurpleFairy.FairyCritterPurple.FindBoundNPCs | Content/NPCs/FairyCritterPurple.cs:738-769 | the loop returns the search's answer, the nearest trackable NPC's centre, and succeeds iff it is not the sentinel |
| PurpleFairy.FairyCritterPurple.AdvanceDespawnTimer | Content/NPCs/FairyCritterPurple.cs:217-226 | the fields become `Countdown` of the old fairy |
| PurpleFairy.FairyCritterPurple.FleeFrom | Content/NPCs/FairyCritterPurple.cs:264-272 | the fields become `Flee` of the old fairy |
| PurpleFairy.FairyCritterPurple.WaitForPlayerStep | Content/NPCs/FairyCritterPurple.cs:230-276 | the fields become `WaitForPlayerCase` of the old fairy |
| PurpleFairy.FairyCritterPurple.RunAwayStep | Content/NPCs/FairyCritterPurple.cs:277-352 | the fields become `RunAwayCase` of the old fairy, the ground scan included |
| PurpleFairy.FairyCritterPurple.ChasePlayerStep | Content/NPCs/FairyCritterPurple.cs:353-429 | the fields become `ChasePlayerCase` of the old fairy |
| PurpleFairy.FairyCritterPurple.CatchAttentionStep | Content/NPCs/FairyCritterPurple.cs:430-480 | the fields become `CatchAttentionCase` of the old fairy, and manual control is reported |
| PurpleFairy.FairyCritterPurple.HoverAroundPlayerStep | Content/NPCs/FairyCritterPurple.cs:481-526 | the fields become `HoverAroundPlayerCase` of the old fairy |
| PurpleFairy.FairyCritterPurple.LeadToTargetStep | Content/NPCs/FairyCritterPurple.cs:527-628 | the fields become `LeadToTargetCase` of the old fairy, and manual control is reported |
| PurpleFairy.FairyCritterPurple.FoundTargetStep | Content/NPCs/FairyCritterPurple.cs:629-675 | the fields become `FoundTargetCase` of the old fairy, with manual control and the completion effect |
| PurpleFairy.FairyCritterPurple.DespawnStep | Content/NPCs/FairyCritterPurple.cs:676-683 | the fields become `DespawnCase` of the old fairy |
| PurpleFairy.FairyCritterPurple.FlutterAroundFairies | Content/NPCs/FairyCritterPurple.cs:691-700 | only the vertical speed changes, by the flutter shift of the partners in Main.npc |
| PurpleFairy.FairyCritterPurple.RunStateCase | Content/NPCs/FairyCritterPurple.cs:228-684 | the fields become `RunCase` of the old fairy, with its manual control and completion effect |
| PurpleFairy.FairyCritterPurple.BeginTick | Content/NPCs/FairyCritterPurple.cs:214-226 | the fields become `Counted` of the old fairy: lava immune, despawn timer counted |
| PurpleFairy.FairyCritterPurple.EndTick | Content/NPCs/FairyCritterPurple.cs:686-707 | the fields become `Settle` of the old fairy: damage flags, flutter shift, facing |
| PurpleFairy.FairyCritterPurple.Ai | Content/NPCs/FairyCritterPurple.cs:210-731 | one call is one `Tick` of the old fairy, keeps the fairy valid and returns FoundTarget's completion effect |

## Left out

- Rendering and sound are not modelled:
  - `FindFrame`, `PreDraw`, `GetAlpha` and `HitEffect`;
  - `PurpleFairyEffects` (dust and sound; a vanishing fairy returns a `CompletionEffect` instead);
  - the dust, light and achievement at the end of `AI`;
  - every `SoundEngine.PlaySound`, and the random roll that plays one.
- Other registrations are not modelled: `SetStaticDefaults`' sets other than `Fairies` and `CanUnlockFairyTorch`, `SetDefaults` beyond the hitbox size and life, and `SetBestiary`. They only register data with the engine.
- `SpawnChance` is not modelled: it depends on the world's layer heights, the player's luck roll and the fairy-log flag, none of which the AI reads.
- The launch impulse drawn from `Main.rand` in WaitForPlayer is the `Host.spawnImpulse` input: randomness stays outside the model.
- Floats are modelled as reals, with no rounding. MathF.PI is its single-precision value 3.1415927. In the fairy's AI, square roots, lengths, squared lengths, distances, unit directions and cosines are `Host` functions, because their float results cannot be reproduced exactly. The near-fairy patch's `Entity.WithinRange` is the one call site that uses the exact real squared distance (`Entities.WithinRange`), since it needs no square root.
- Engine helpers are `Host` answers, because their code belongs to the game:
  - `TargetClosest`, `GetTargetData`;
  - hitbox intersections with `CenteredRectangle` and `ClosestPointInRect`;
  - `Collision.SolidCollision`, `WorldGen.InWorld`, `WorldGen.SolidTile`, `Main.tile`, `Main.tileSolid`;
  - `GetBirdFlightRecommendation` and `GetFairyCircleOffset`, which are called by reflection.
- Networking is reduced to flags and values: the `netUpdate` flag, `netSkip`, and the completion effect (local or broadcast). The packets and `NetMessage.SendData` are not modelled.
- `NPC.EncourageDespawn(10)` is modelled as `timeLeft` capped at 10 plus a "despawn encouraged" flag.
- The commented-out IL patch in `FairyInteractionAITweak.cs` (lines 13-94) is not modelled, because it is not compiled.
- Patch plumbing is not modelled: `ModifiedMethod`, reflection lookups and the host's original methods. Each original answer is a parameter, and so are `DidDiscoverBestiaryEntry` and `NPC.npcsFoundForCheckActive`.
- Mod-call plumbing is not modelled: how the framework parses arguments and routes `HandleableMessages` to `Call`.
- `Main.critterCage`, the tile's `TileObjectData` size and `Main.cageFrames` are parameters and results of `ModifyTileDrawData`. The draw-data arguments it does not touch are not modelled.
- Static globals become objects handed to the code that uses them: the registry's lists, `Fairies`, `VanillaFairies` (a predicate on the three vanilla ids) and `CanUnlockFairyTorch`.
- The NPC's fields are grouped into five records on the class: engine body, motion, presence, flags and the fairy's own data. The data is kept typed; `FairyAi.Fairy.AiSlots` and `FairyAi.Fairy.LocalAiSlots` give its `ai[]`/`localAI[]` layout.
- FairyInteraction.FairyInteractionAITweak.AI: returns the updated NPC rather than mutating the `Main.npc` entry in place, because NPCs are records here. Nothing else in the loop changes.
- FairyAi.Spawned: a fresh NPC faces right (direction and sprite direction 1). The engine's own initial values are not part of this model.
- CritterCages.GetCageFrame: 32-bit overflow of `left / width * (top / (height + 1))` is not modelled, because integers are unbounded.
- CritterCages.CritterCageAnimationTile.ModifyTileDrawData: 32-bit overflow of `framingArray[frame] * height * 18` is not modelled, because integers are unbounded.
- Geometry.Truncate: models the `(int)` cast for finite values only. NaN and out-of-range floats are not modelled.
- PurpleFairy.FairyCritterPurple.Ai: the flutter shift is stated as `FlutterShift` of the fairy after the tick. It equals the shift of the fairy at the loop, because the shift ignores velocity (`ShiftIgnoresVelocity`) and a tick never moves the body.
