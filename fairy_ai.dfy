/**
 * The purple rescue fairy's AI as pure functions. A recreation of the
 * vanilla fairy AI that leads players to trackable NPCs instead of treasure.
 * Each tick counts the despawn timer, runs the case of the current state,
 * sets the damage flags, flutters around nearby fairies and settles the
 * facing direction; `Tick` states that tick on a `Fairy` value, and the
 * class in module PurpleFairy is proved to compute it.
 *
 * What the game engine supplies for one tick (the closest player, target
 * data, hitbox tests, tile queries, the world's size, square roots, cosines
 * and the circling offsets of the vanilla helpers) arrives as a `Host`
 * value; the NPC array and the registry's lists are parameters.
 */
module FairyAi {
  import opened Wrappers
  import opened Geometry
  import opened Entities
  import opened FairyStates
  import opened TrackableNpcs

  /** DESPAWN_TIME_TICKS: how long a helpful fairy stays before it leaves. */
  const DespawnTimeTicks := 18000

  /** SetDefaults' hitbox size. */
  const FairyWidth := 18
  const FairyHeight := 20

  /** SetDefaults' lifeMax. */
  const FairyLifeMax := 5

  /** The single-precision value of MathF.PI. */
  const Pi: real := 3.1415927

  /** WaitForPlayer notices players within this distance. */
  const NoticeRange: real := 250.0

  /** The upper bound of the "stuck in tiles" timer in ChasePlayer and LeadToTarget. */
  const StuckLimit := 400

  /** CatchAttention switches to LeadToTarget when its incremented timer reaches this. */
  const CatchDuration := 210

  /** FoundTarget vanishes once its incremented timer exceeds this. */
  const FoundDuration := 200

  /** The RunAway ground scan: 21 columns (`left .. left + 20`), 8 rows, the top 5 "too close". */
  const ScanWidth := 20
  const ScanHeight := 8
  const CloseRows := 5

  /** The sentinel FindBoundNPCs returns when nothing is found: `-Vector2.One`. */
  const Sentinel := Vec(-1.0, -1.0)

  datatype NetMode = SinglePlayer | MultiplayerClient | Server

  /** NPC.GetTargetData(): whether the target is a player, and its centre. */
  datatype AimedTarget = AimedTarget(isPlayer: bool, center: Vec)

  /** NPC.GetBirdFlightRecommendation's two outputs. */
  datatype BirdFlight = BirdFlight(goDownwards: bool, goUpwards: bool)

  /** The parts of a world tile the ground scan reads. */
  datatype Tile = Tile(hasUnactuatedTile: bool, tileType: int, liquidAmount: int)

  /** Main.maxTilesX, Main.maxTilesY and Main.offLimitBorderTiles. */
  datatype WorldSize = WorldSize(maxTilesX: int, maxTilesY: int, offLimitBorderTiles: int)

  /** The completion effect of a fairy that found its target: none, drawn locally, or sent to clients. */
  datatype CompletionEffect = NoEffect | LocalEffect(position: Vec) | BroadcastEffect(position: Vec)

  /** Everything the game engine answers during one AI tick. */
  datatype Host = Host(
    netMode: NetMode,
    players: seq<Player>,                    // Main.player
    closestTarget: int,                      // the target NPC.TargetClosest() picks
    closestDirection: int,                   // the facing NPC.TargetClosest() sets
    targetData: AimedTarget,                 // NPC.GetTargetData()
    spawnImpulse: Vec,                       // the random burst drawn on initialisation
    hitboxInSearchRange: bool,               // hitbox meets the rectangle around the target player
    closestPointInSearchRange: Vec,          // that rectangle's closest point to the centre
    hitboxInTargetRange: bool,               // hitbox meets the 5x5 rectangle around TargetPosition
    closestPointInTargetRange: Vec,          // that rectangle's closest point to the centre
    solidCollision: bool,                    // Collision.SolidCollision on the hitbox
    birdFlight: (int, int, Point) -> BirdFlight,
    inWorld: Point -> bool,                  // WorldGen.InWorld
    solidTile: Point -> bool,                // WorldGen.SolidTile
    tiles: (int, int) -> Tile,               // Main.tile
    tileSolid: int -> bool,                  // Main.tileSolid
    world: WorldSize,
    lengthSquared: Vec -> real,              // Vector2.LengthSquared, also behind DistanceSQ and WithinRange
    directionTo: (Vec, Vec) -> Vec,          // unit vector from the first point to the second
    distance: (Vec, Vec) -> real,
    length: Vec -> real,
    cos: real -> real,
    circleOffset: (real, real, real) -> Vec) // NPC.GetFairyCircleOffset
  {
    ghost predicate Valid()
    {
      && |players| == PlayerSlots && 0 <= closestTarget < PlayerSlots
      && (closestDirection == 1 || closestDirection == -1)
      && (forall v :: lengthSquared(v) >= 0.0)
    }
  }

  // ---------------------------------------------------------------------
  // The despawn countdown and the transition graph.

  /** The despawn timer after the countdown: off the client a helpful fairy counts one tick. */
  function DespawnTick(timer: int, s: FairyAiState, netMode: NetMode): int
  {
    if netMode != MultiplayerClient && IsBeingHelpful(s) then timer + 1 else timer
  }

  /** Whether the countdown reaches DESPAWN_TIME_TICKS this tick. */
  predicate ForcesDespawn(timer: int, s: FairyAiState, netMode: NetMode)
  {
    netMode != MultiplayerClient && IsBeingHelpful(s) && timer + 1 >= DespawnTimeTicks
  }

  /** The state whose case runs this tick. */
  function StateForSwitch(timer: int, s: FairyAiState, netMode: NetMode): FairyAiState
  {
    if ForcesDespawn(timer, s, netMode) then Despawn else s
  }

  /** The transitions the state switch can take from each state (staying put included). */
  predicate Successor(from: FairyAiState, to: FairyAiState)
  {
    match from
    case WaitForPlayer => to == WaitForPlayer || to == RunAway
    case RunAway => to == RunAway
    case ChasePlayer => to == ChasePlayer || to == RunAway || to == CatchAttention || to == HoverAroundPlayer
    case CatchAttention => to == CatchAttention || to == LeadToTarget
    case HoverAroundPlayer => to == HoverAroundPlayer || to == ChasePlayer || to == CatchAttention
    case LeadToTarget => to == LeadToTarget || to == RunAway || to == FoundTarget
    case FoundTarget => to == FoundTarget
    case Despawn => to == Despawn
  }

  /** A fairy that is not helping never starts again: from WaitForPlayer and RunAway the switch reaches only those two states. */
  lemma IdleStaysIdle(from: FairyAiState, to: FairyAiState)
    requires !IsBeingHelpful(from) && Successor(from, to)
    ensures !IsBeingHelpful(to)
  {
  }

  /** Whether FoundTarget removes the fairy this tick. */
  predicate Vanishes(timer: int, netMode: NetMode)
  {
    netMode != MultiplayerClient && timer + 1 > FoundDuration
  }

  // ---------------------------------------------------------------------
  // Movement formulas shared by several cases.

  /** `x * direction` for a facing of 1 or -1, written as the sign flip it is. */
  function Along(x: real, direction: int): real
    requires direction == 1 || direction == -1
  {
    if direction < 0 then -x else x
  }

  lemma AlongIsProduct(x: real, direction: int)
    requires direction == 1 || direction == -1
    ensures Along(x, direction) == x * direction as real
  {
  }

  /**
   * The hover pull of WaitForPlayer and HoverAroundPlayer: 0.04 toward
   * `offset` on each axis when it is longer than 20 (`lengthSquared` is its
   * squared length), damping fast vertical speed.
   */
  function Pull(v: Vec, offset: Vec, lengthSquared: real): Vec
  {
    if lengthSquared > 20.0 * 20.0 then
      var pulled := v.Add(Vec(ToDirectionInt(offset.x > 0.0) as real, ToDirectionInt(offset.y > 0.0) as real).Scale(0.04));
      if RAbs(pulled.y) > 2.0 then pulled.(y := pulled.y * 0.95) else pulled
    else v
  }

  /** Reverses the components whose axis collided. */
  function Bounce(v: Vec, collideX: bool, collideY: bool): Vec
  {
    Vec(if collideX then -v.x else v.x, if collideY then -v.y else v.y)
  }

  /** On turning to run away: horizontal speed against the new direction becomes 2 along it. */
  function FleeVelocity(v: Vec, direction: int): (r: Vec)
    requires direction == 1 || direction == -1
    ensures Along(r.x, direction) >= 0.0
    ensures r.y == v.y
    ensures Along(v.x, direction) >= 0.0 ==> r == v
  {
    if Along(v.x, direction) < 0.0 then v.(x := direction as real * 2.0) else v
  }

  /** RunAway's horizontal acceleration toward a top speed of 4.5 in the faced direction. */
  function RunAwayAccelerate(vx: real, direction: int): (r: real)
    requires direction == 1 || direction == -1
    ensures Along(vx, direction) <= Along(r, direction)
    ensures Along(r, direction) <= if Along(vx, direction) < 4.5 then 4.5 else Along(vx, direction)
  {
    var maxSpeed := 4.5;
    var d := direction as real;
    if Sign(vx) != direction || RAbs(vx) < maxSpeed then
      var a := vx + d * 0.04;
      if Along(a, direction) < 0.0 then
        (if RAbs(a) > maxSpeed then a + d * 0.4 else a + d * 0.2)
      else if RAbs(a) > maxSpeed then d * maxSpeed
      else a
    else vx
  }

  /** The "stuck" counter of ChasePlayer and LeadToTarget: +2 inside a solid tile up to 400, otherwise -1 down to 0. */
  function StuckTimer(timer: int, solid: bool): (r: int)
    ensures 0 <= timer <= StuckLimit ==> 0 <= r <= StuckLimit
    ensures solid && timer < StuckLimit ==> r > timer
    ensures !solid && timer > 0 ==> r < timer
  {
    if solid then Min(timer + 2, StuckLimit) else Max(timer - 1, 0)
  }

  /** Approach a point: a base speed along `direction`, scaled up when far, blended in at 7%. */
  function Approach(v: Vec, direction: Vec, distanceSquared: real, base: real, midFactor: real, farFactor: real): Vec
  {
    var desired := direction.Scale(base);
    var scaled :=
      if distanceSquared > 150.0 * 150.0 then desired.Scale(farFactor)
      else if distanceSquared > 80.0 * 80.0 then desired.Scale(midFactor)
      else desired;
    Lerp(v, scaled, 0.07)
  }

  /** Bird-flight hovering: +0.05 when told to go down, `-up` when told to go up, then clamped. */
  function BirdAdjust(vy: real, flight: BirdFlight, up: real, lo: real, hi: real): (r: real)
    requires lo <= hi
    ensures lo <= r <= hi
  {
    var down := if flight.goDownwards then vy + 0.05 else vy;
    var moved := if flight.goUpwards then down - up else down;
    Clamp(moved, lo, hi)
  }

  /** CatchAttention's circling: loops of growing height, tilted one way, then the other, then level. */
  function CatchCircleVelocity(host: Host, timer: int, direction: int): Vec
    requires direction == 1 || direction == -1
  {
    var progress := (timer - 15) as real;
    var rotation := if progress <= 65.0 then Pi / 8.0 else if progress <= 130.0 then -Pi / 8.0 else 0.0;
    var height := if progress <= 65.0 then 14.0 else if progress <= 130.0 then 18.0 else 22.0;
    var tilt := Along(rotation, direction);
    host.circleOffset(progress / 65.0 + 0.005 * Pi, tilt, height).Sub(host.circleOffset(progress / 65.0, tilt, height))
  }

  /** FoundTarget's circling: each 50 ticks a new loop whose height and tilt follow cosines of the loop number. */
  function FoundCircleVelocity(host: Host, timer: int, direction: int): Vec
    requires direction == 1 || direction == -1
  {
    var progress := (timer - 15) as real;
    var circle := Truncate(progress / 50.0);
    var height := host.cos(circle as real * 2.0) * 10.0 + 8.0;
    var tilt := Along(host.cos(circle as real) * Pi / 8.0, direction);
    host.circleOffset(progress / 50.0 + 0.02, tilt, height).Sub(host.circleOffset(progress / 50.0, tilt, height))
  }

  /** RunAway's vertical hover: sink slowly over open ground, rise over ground or liquid, faster when close; clamped to [-5, 3]. */
  function HoverLift(vy: real, groundBelow: bool, tooCloseToGround: bool): (r: real)
    ensures -5.0 <= r <= 3.0
  {
    var moved := if groundBelow then vy - 0.2 else vy + 0.05;
    var lifted := if tooCloseToGround then moved - 0.3 else moved;
    Clamp(lifted, -5.0, 3.0)
  }

  // ---------------------------------------------------------------------
  // The RunAway ground scan.

  /** A tile that makes the fairy rise: solid and not actuated, or holding liquid. */
  predicate Blocks(tiles: (int, int) -> Tile, tileSolid: int -> bool, i: int, j: int)
  {
    var t := tiles(i, j);
    (t.hasUnactuatedTile && tileSolid(t.tileType)) || t.liquidAmount > 0
  }

  /** Some blocking tile in columns `left .. left + 20` and the first `rows` rows from `top`. */
  predicate AnyBlock(tiles: (int, int) -> Tile, tileSolid: int -> bool, left: int, top: int, rows: int)
  {
    exists i, j :: left <= i <= left + ScanWidth && top <= j < top + rows && Blocks(tiles, tileSolid, i, j)
  }

  /**
   * The nested scan of RunAway: each column is searched downward and left at
   * its first blocking tile. The fairy may sink iff nothing blocks in the
   * window, and it is too close to the ground iff some column's first hit
   * lies in the top five rows, that is, iff some tile there blocks.
   */
  method GroundScan(left: int, top: int, tiles: (int, int) -> Tile, tileSolid: int -> bool)
    returns (shouldMoveDown: bool, tooCloseToGround: bool)
    ensures shouldMoveDown <==> !AnyBlock(tiles, tileSolid, left, top, ScanHeight)
    ensures tooCloseToGround <==> AnyBlock(tiles, tileSolid, left, top, CloseRows)
  {
    shouldMoveDown := true;
    tooCloseToGround := false;
    var i := left;
    while i <= left + ScanWidth
      invariant left <= i <= left + ScanWidth + 1
      invariant shouldMoveDown <==>
        !exists c, r :: left <= c < i && top <= r < top + ScanHeight && Blocks(tiles, tileSolid, c, r)
      invariant tooCloseToGround <==>
        exists c, r :: left <= c < i && top <= r < top + CloseRows && Blocks(tiles, tileSolid, c, r)
    {
      ghost var down0, close0 := shouldMoveDown, tooCloseToGround;
      var j := top;
      while j < top + ScanHeight
        invariant top <= j <= top + ScanHeight
        invariant forall r :: top <= r < j ==> !Blocks(tiles, tileSolid, i, r)
        invariant shouldMoveDown == down0 && tooCloseToGround == close0
      {
        // Solid unactuated tiles and liquids make the fairy fly upwards.
        if Blocks(tiles, tileSolid, i, j) {
          if j < top + CloseRows {
            tooCloseToGround := true;
          }
          shouldMoveDown := false;
          break;
        }
        j := j + 1;
      }
      i := i + 1;
    }
  }

  // ---------------------------------------------------------------------
  // The nearest-target search.

  /**
   * What FindBoundNPCs searches with: the fairy's own slot, the test an
   * active NPC must pass (centred in the search region and trackable, see
   * `Accepts`), the centre distances are measured from, and the engine's
   * squared length.
   */
  datatype Search = Search(self: int, accepts: Npc -> bool, from: Vec, lengthSquared: Vec -> real)
  {
    /** The slots FindBoundNPCs considers: another slot, active, and accepted. */
    predicate IsCandidate(npcs: seq<Npc>, i: int)
      requires 0 <= i < |npcs|
    {
      i != self && npcs[i].active && accepts(npcs[i])
    }

    /** NPC.DistanceSQ: the squared distance from the search centre to `npc`'s centre. */
    function DistanceTo(npc: Npc): real
    {
      lengthSquared(from.Sub(npc.Center()))
    }

    /** Among the first `n` slots, candidate `k` is nearest, and strictly nearer than every earlier candidate. */
    predicate IsNearest(npcs: seq<Npc>, k: int, n: int)
      requires 0 <= k < n <= |npcs|
    {
      && IsCandidate(npcs, k)
      && (forall j :: 0 <= j < n && IsCandidate(npcs, j) ==> DistanceTo(npcs[k]) <= DistanceTo(npcs[j]))
      && (forall j :: 0 <= j < k && IsCandidate(npcs, j) ==> DistanceTo(npcs[k]) < DistanceTo(npcs[j]))
    }

    /**
     * The loop state of FindBoundNPCs after the first `n` slots: the centre of
     * the best candidate so far (the sentinel before any) and its squared
     * distance (-1 before any); a candidate replaces the best one only when
     * strictly nearer.
     */
    function Scan(npcs: seq<Npc>, n: int): (Vec, real)
      requires 0 <= n <= |npcs|
      decreases n
    {
      if n == 0 then (Sentinel, -1.0)
      else
        var (position, closest) := Scan(npcs, n - 1);
        if !IsCandidate(npcs, n - 1) then (position, closest)
        else
          var distanceSquared := DistanceTo(npcs[n - 1]);
          if closest == -1.0 || distanceSquared < closest then (npcs[n - 1].Center(), distanceSquared)
          else (position, closest)
    }

    /** What a finished search promises: the nearest candidate's centre, or the sentinel when there is none. */
    predicate Result(npcs: seq<Npc>, targetPosition: Vec)
    {
      && ((exists k :: 0 <= k < |npcs| && IsCandidate(npcs, k)) ==>
            exists k :: 0 <= k < |npcs| && IsNearest(npcs, k, |npcs|) && targetPosition == npcs[k].Center())
      && ((forall k :: 0 <= k < |npcs| ==> !IsCandidate(npcs, k)) ==> targetPosition == Sentinel)
    }
  }

  /**
   * The scan keeps the nearest candidate: with no candidate among the first
   * `n` slots it still holds the sentinel and -1, otherwise the centre and
   * distance of the nearest one (the earliest on ties). The -1 marker is
   * never a real distance, because squared lengths are nonnegative.
   */
  lemma {:induction false} ScanFindsNearest(s: Search, npcs: seq<Npc>, n: int)
    requires 0 <= n <= |npcs|
    requires forall v :: s.lengthSquared(v) >= 0.0
    ensures (forall j :: 0 <= j < n ==> !s.IsCandidate(npcs, j)) ==> s.Scan(npcs, n) == (Sentinel, -1.0)
    ensures (exists j :: 0 <= j < n && s.IsCandidate(npcs, j)) ==>
              exists k :: 0 <= k < n && s.IsNearest(npcs, k, n)
                          && s.Scan(npcs, n) == (npcs[k].Center(), s.DistanceTo(npcs[k]))
    decreases n
  {
    if n == 0 {
      return;
    }
    var last := n - 1;
    ScanFindsNearest(s, npcs, last);
    ScanNext(s, npcs, last, s.IsCandidate(npcs, last), s.DistanceTo(npcs[last]));
    if forall j :: 0 <= j < last ==> !s.IsCandidate(npcs, j) {
      if s.IsCandidate(npcs, last) {
        FirstCandidateIsNearest(s, npcs, n);
      } else {
        assert forall j :: 0 <= j < n ==> !s.IsCandidate(npcs, j);
      }
    } else {
      var k :| 0 <= k < last && s.IsNearest(npcs, k, last)
               && s.Scan(npcs, last) == (npcs[k].Center(), s.DistanceTo(npcs[k]));
      assert s.Scan(npcs, last).1 != -1.0;
      if s.IsCandidate(npcs, last) && s.DistanceTo(npcs[last]) < s.DistanceTo(npcs[k]) {
        NearerCandidateReplaces(s, npcs, k, n);
      } else {
        NearestStays(s, npcs, k, n);
      }
    }
  }

  /** One more slot of the scan: a candidate strictly nearer than the best so far (or the first one) replaces it. */
  lemma ScanNext(s: Search, npcs: seq<Npc>, i: int, candidate: bool, distanceSquared: real)
    requires 0 <= i < |npcs|
    requires candidate == s.IsCandidate(npcs, i) && distanceSquared == s.DistanceTo(npcs[i])
    ensures s.Scan(npcs, i + 1) ==
              (if candidate && (s.Scan(npcs, i).1 == -1.0 || distanceSquared < s.Scan(npcs, i).1)
               then (npcs[i].Center(), distanceSquared) else s.Scan(npcs, i))
  {
  }

  /** The first candidate is the nearest one so far. */
  lemma FirstCandidateIsNearest(s: Search, npcs: seq<Npc>, n: int)
    requires 0 < n <= |npcs| && s.IsCandidate(npcs, n - 1)
    requires forall j :: 0 <= j < n - 1 ==> !s.IsCandidate(npcs, j)
    ensures s.IsNearest(npcs, n - 1, n)
  {
  }

  /** A candidate strictly nearer than the best so far becomes the best. */
  lemma NearerCandidateReplaces(s: Search, npcs: seq<Npc>, k: int, n: int)
    requires 0 <= k < n - 1 && n <= |npcs| && s.IsNearest(npcs, k, n - 1)
    requires s.IsCandidate(npcs, n - 1) && s.DistanceTo(npcs[n - 1]) < s.DistanceTo(npcs[k])
    ensures s.IsNearest(npcs, n - 1, n)
  {
  }

  /** A slot that is no candidate, or is not strictly nearer, leaves the best one in place. */
  lemma NearestStays(s: Search, npcs: seq<Npc>, k: int, n: int)
    requires 0 <= k < n - 1 && n <= |npcs| && s.IsNearest(npcs, k, n - 1)
    requires !s.IsCandidate(npcs, n - 1) || s.DistanceTo(npcs[k]) <= s.DistanceTo(npcs[n - 1])
    ensures s.IsNearest(npcs, k, n)
  {
  }

  /**
   * A finished scan is the search's result: the nearest candidate's centre,
   * or the sentinel when there is none; when no accepted NPC is centred on
   * the sentinel, the scan ends off the sentinel exactly when a candidate
   * exists.
   */
  lemma ScanResult(s: Search, npcs: seq<Npc>)
    requires forall v :: s.lengthSquared(v) >= 0.0
    ensures s.Result(npcs, s.Scan(npcs, |npcs|).0)
    ensures (forall npc :: s.accepts(npc) ==> npc.Center() != Sentinel) ==>
              (s.Scan(npcs, |npcs|).0 != Sentinel <==> exists k :: 0 <= k < |npcs| && s.IsCandidate(npcs, k))
  {
    ScanFindsNearest(s, npcs, |npcs|);
  }

  /** FindBoundNPCs' test for an active NPC: its centre's tile lies in `region`, and the registry's lists make it trackable. */
  function Accepts(region: Rect, blacklist: seq<Condition>, conditions: seq<Condition>): Npc -> bool
  {
    (npc: Npc) => region.Contains(ToTileCoordinates(npc.Center())) && ValidNpcToTrack(blacklist, conditions, npc)
  }

  /** Inside the world's off-limits border the sentinel's tile (-1, -1) is never in the search region. */
  lemma SentinelOutsideBorder(region: Rect, world: WorldSize, p: Vec)
    requires world.offLimitBorderTiles > 0
    requires forall q :: region.Contains(q) ==> world.offLimitBorderTiles <= q.x
    requires region.Contains(ToTileCoordinates(p))
    ensures p != Sentinel
  {
    assert ToTileCoordinates(Sentinel) == Point(-1, -1);
  }

  // ---------------------------------------------------------------------
  // The fairy.

  /** The NPC fields the engine keeps and the AI only reads. */
  datatype Body = Body(whoAmI: int, npcType: int, position: Vec, collideX: bool, collideY: bool, oldVelocity: Vec)
  {
    /** Entity.Center. */
    function Center(): Vec
    {
      Vec(position.x + (FairyWidth / 2) as real, position.y + (FairyHeight / 2) as real)
    }

    /** Entity.Bottom: the middle of the hitbox's lower edge. */
    function Bottom(): Vec
    {
      Vec(position.x + (FairyWidth / 2) as real, position.y + FairyHeight as real)
    }

    /** The left and top tiles of the ground scan: from the tile under the fairy, 20 columns to the left when `direction` faces left. */
    function ScanOrigin(direction: int): Point
    {
      var bottom := ToTileCoordinates(Bottom());
      Point(if direction < 0 then bottom.x - ScanWidth else bottom.x, bottom.y)
    }

    /** The tile rectangle FindBoundNPCs searches: 75 tiles left and right, 50 up and down, inside the world's border. */
    function CheckRegion(world: WorldSize): (region: Rect)
      ensures forall q :: region.Contains(q) <==>
                && Abs(q.x - ToTileCoordinates(Center()).x) <= 75
                && Abs(q.y - ToTileCoordinates(Center()).y) <= 50
                && world.offLimitBorderTiles <= q.x < world.maxTilesX - world.offLimitBorderTiles
                && world.offLimitBorderTiles <= q.y < world.maxTilesY - world.offLimitBorderTiles
    {
      var c := ToTileCoordinates(Center());
      var around := Rect(c.x, c.y, 1, 1).Inflate(75, 50);
      var interior := Rect(0, 0, world.maxTilesX, world.maxTilesY).Inflate(-world.offLimitBorderTiles, -world.offLimitBorderTiles);
      Intersect(around, interior)
    }

    /** The search FindBoundNPCs runs from the fairy's centre with the registry's lists. */
    function SearchFrom(host: Host, blacklist: seq<Condition>, conditions: seq<Condition>): Search
    {
      Search(whoAmI, Accepts(CheckRegion(host.world), blacklist, conditions), Center(), host.lengthSquared)
    }

    /** Slot `i` is a candidate of the fairy's search exactly when FindBoundNPCs' inline test accepts it. */
    lemma SearchFromSlot(host: Host, blacklist: seq<Condition>, conditions: seq<Condition>, npcs: seq<Npc>, i: int)
      requires 0 <= i < |npcs|
      ensures SearchFrom(host, blacklist, conditions).IsCandidate(npcs, i) <==>
                i != whoAmI && npcs[i].active && CheckRegion(host.world).Contains(ToTileCoordinates(npcs[i].Center()))
                && ValidNpcToTrack(blacklist, conditions, npcs[i])
      ensures SearchFrom(host, blacklist, conditions).DistanceTo(npcs[i]) == host.lengthSquared(Center().Sub(npcs[i].Center()))
    {
    }

    /** FindBoundNPCs' answer: the centre of the nearest trackable NPC, or the sentinel. */
    function BoundNpc(host: Host, npcs: seq<Npc>, blacklist: seq<Condition>, conditions: seq<Condition>): Vec
    {
      SearchFrom(host, blacklist, conditions).Scan(npcs, |npcs|).0
    }
  }

  /** How the fairy moves and faces: NPC.velocity, direction, spriteDirection and noTileCollide. */
  datatype Motion = Motion(velocity: Vec, direction: int, spriteDirection: int, noTileCollide: bool)

  /** The NPC fields about the fairy's presence: its target player, whether it is alive, and its despawn countdown. */
  datatype Presence = Presence(target: int, active: bool, life: int, netSkip: int, timeLeft: int, despawnEncouraged: bool)

  /** NPC.netUpdate and the immunity flags. */
  datatype Flags = Flags(netUpdate: bool, lavaImmune: bool, dontTakeDamage: bool, dontTakeDamageFromHostiles: bool)

  /** The fairy's own data, which the game keeps in `ai[]` and `localAI[]` (see Fairy.AiSlots and Fairy.LocalAiSlots). */
  datatype Data = Data(state: FairyAiState, targetPosition: Vec, generalTimer: int, despawnTimer: int, initialized: bool)

  /** The fairy as its AI sees it. */
  datatype Fairy = Fairy(body: Body, motion: Motion, presence: Presence, flags: Flags, data: Data)
  {
    /**
     * The target indexes Main.player, the facing is left or right, the
     * timers count up from 0, the stuck timer of ChasePlayer and
     * LeadToTarget stays in [0, 400] and CatchAttention's timer below 210.
     */
    predicate Valid()
    {
      && 0 <= presence.target < PlayerSlots
      && (motion.direction == 1 || motion.direction == -1)
      && 0 <= data.generalTimer && 0 <= data.despawnTimer
      && (data.state == ChasePlayer || data.state == LeadToTarget ==> data.generalTimer <= StuckLimit)
      && (data.state == CatchAttention ==> data.generalTimer < CatchDuration)
    }

    /** The centre of the fairy's hitbox. */
    function Center(): Vec
    {
      body.Center()
    }

    /** NPC.ai as the fairy's accessors lay it out. */
    function AiSlots(): (ai: Slots)
      ensures LoadAiState(ai) == Some(data.state)
      ensures LoadTargetPosition(ai) == data.targetPosition
      ensures ai[TimerSlot] == data.generalTimer as real
    {
      var ai: Slots := [0.0, 0.0, 0.0, data.generalTimer as real];
      StoreAiState(StoreTargetPosition(ai, data.targetPosition), data.state)
    }

    /** NPC.localAI as the fairy's accessors lay it out. */
    function LocalAiSlots(): (localAi: Slots)
      ensures LoadInitialized(localAi) == data.initialized
      ensures localAi[DespawnTimerSlot] == data.despawnTimer as real
    {
      var localAi: Slots := [0.0, data.despawnTimer as real, 0.0, 0.0];
      StoreInitialized(localAi, data.initialized)
    }

    /** The fairy as other code sees it in Main.npc. */
    function AsNpc(): Npc
    {
      Npc(body.whoAmI, body.npcType, -1, AiSlots(), presence.active, body.position, motion.velocity, FairyWidth, FairyHeight)
    }

    /** The same fairy flying at `v`. */
    function WithVelocity(v: Vec): Fairy
    {
      this.(motion := motion.(velocity := v))
    }

    /** A transition of the state switch: the new state, the general timer back at 0, and a sync request. */
    function SwitchTo(s: FairyAiState): Fairy
    {
      this.(data := data.(state := s, generalTimer := 0), flags := flags.(netUpdate := true))
    }

    /** The facing that points from the fairy away from `point`'s side ("player on my left, go right"). */
    function AwayFrom(point: Vec): (d: int)
      ensures d == 1 || d == -1
      ensures d == 1 <==> point.x <= Center().x
    {
      ToDirectionInt(point.x <= Center().x)
    }

    /** Whether the player being followed is dead (only a player target can be). */
    predicate PlayerDead(host: Host)
      requires host.Valid() && 0 <= presence.target < PlayerSlots
    {
      host.targetData.isPlayer && host.players[presence.target].dead
    }

    /** Whether WaitForPlayer notices `player`: alive and within 250 of the fairy. */
    predicate Notices(host: Host, player: Player)
    {
      !player.DeadOrGhost() && host.lengthSquared(player.center.Sub(Center())) <= NoticeRange * NoticeRange
    }

    /** The velocity with which ChasePlayer approaches the player's range, hovering while not stuck. */
    function ChaseVelocity(host: Host): (v: Vec)
      ensures data.generalTimer < 300 ==> -4.0 <= v.y <= 2.0
    {
      var destination := host.closestPointInSearchRange;
      var approach := Approach(motion.velocity, host.directionTo(Center(), destination),
                               host.lengthSquared(Center().Sub(destination)), 2.0, 1.5, 2.0);
      if data.generalTimer < 300 then
        approach.(y := BirdAdjust(approach.y, host.birdFlight(6, 3, ToTileCoordinates(Center())), 0.02, -4.0, 2.0))
      else approach
    }

    /** The velocity with which LeadToTarget approaches the target position, hovering while not stuck. */
    function LeadVelocity(host: Host): (v: Vec)
      ensures data.generalTimer < 300 ==> -1.0 <= v.y <= 1.0
    {
      var destination := host.closestPointInTargetRange;
      var approach := Approach(motion.velocity, host.directionTo(Center(), destination),
                               host.lengthSquared(Center().Sub(destination)), 1.0, 2.0, 3.0);
      if data.generalTimer < 300 then
        approach.(y := BirdAdjust(approach.y, host.birdFlight(4, 2, ToTileCoordinates(Center())), 0.05, -1.0, 1.0))
      else approach
    }

    /** LeadToTarget's nudge toward a player more than 300 away: toward the player beyond 360, toward the target under 330, at most unit speed. */
    function NudgeVelocity(host: Host, v: Vec, playerDistance: real): Vec
    {
      var pushed :=
        if playerDistance > 360.0 then v.Add(host.directionTo(Center(), host.targetData.center).Scale(0.1))
        else if playerDistance < 330.0 then v.Add(host.directionTo(Center(), host.closestPointInTargetRange).Scale(0.1))
        else v;
      var speed := host.length(pushed);
      if speed > 1.0 then pushed.Scale(1.0 / speed) else pushed
    }

    /** Whether LeadToTarget takes its nudge branch, steering by hand. */
    predicate LeadNudges(host: Host)
      requires host.Valid() && 0 <= presence.target < PlayerSlots
    {
      !PlayerDead(host) && !host.hitboxInTargetRange && host.distance(Center(), host.targetData.center) > 300.0
    }

    /** The completion effect of a vanishing fairy: drawn here in single player, sent to clients by a server. */
    function CompletionFor(netMode: NetMode): (e: CompletionEffect)
      ensures e.NoEffect? <==> netMode == MultiplayerClient
      ensures !e.NoEffect? ==> e.position == Center()
    {
      match netMode
      case SinglePlayer => LocalEffect(Center())
      case Server => BroadcastEffect(Center())
      case MultiplayerClient => NoEffect
    }
  }

  /** Code reading IsBeingHelpful from Main.npc sees exactly the fairy's own answer. */
  lemma HelpfulAsSeenInNpcArray(f: Fairy)
    ensures SlotsBeingHelpful(f.AsNpc().ai) <==> IsBeingHelpful(f.data.state)
  {
    ValueRoundTrip(f.data.state);
  }

  /**
   * What FindBoundNPCs finds: the nearest trackable NPC in the region (the
   * earliest slot on ties), or nothing; inside a positive world border it
   * succeeds exactly when some candidate exists.
   */
  lemma SearchFindsNearest(f: Fairy, host: Host, npcs: seq<Npc>, blacklist: seq<Condition>, conditions: seq<Condition>)
    requires host.Valid()
    ensures f.body.SearchFrom(host, blacklist, conditions).Result(npcs, f.body.BoundNpc(host, npcs, blacklist, conditions))
    ensures host.world.offLimitBorderTiles > 0 ==>
              (f.body.BoundNpc(host, npcs, blacklist, conditions) != Sentinel
               <==> exists k :: 0 <= k < |npcs| && f.body.SearchFrom(host, blacklist, conditions).IsCandidate(npcs, k))
  {
    var search := f.body.SearchFrom(host, blacklist, conditions);
    var region := f.body.CheckRegion(host.world);
    if host.world.offLimitBorderTiles > 0 {
      forall npc | search.accepts(npc)
        ensures npc.Center() != Sentinel
      {
        SentinelOutsideBorder(region, host.world, npc.Center());
      }
    }
    ScanResult(search, npcs);
  }

  /**
   * A search that succeeds returns the centre of another slot's active,
   * trackable NPC whose centre lies in the search region: never the fairy
   * itself, never a point outside the region.
   */
  lemma FoundInRegion(b: Body, host: Host, npcs: seq<Npc>, blacklist: seq<Condition>, conditions: seq<Condition>)
    requires host.Valid()
    requires b.BoundNpc(host, npcs, blacklist, conditions) != Sentinel
    ensures exists k :: 0 <= k < |npcs| && k != b.whoAmI && npcs[k].active
                        && b.CheckRegion(host.world).Contains(ToTileCoordinates(npcs[k].Center()))
                        && ValidNpcToTrack(blacklist, conditions, npcs[k])
                        && b.BoundNpc(host, npcs, blacklist, conditions) == npcs[k].Center()
  {
    var s := b.SearchFrom(host, blacklist, conditions);
    var p := b.BoundNpc(host, npcs, blacklist, conditions);
    ScanResult(s, npcs);
    FoundIsNearest(s, npcs, p);
    var k :| 0 <= k < |npcs| && s.IsNearest(npcs, k, |npcs|) && p == npcs[k].Center();
    b.SearchFromSlot(host, blacklist, conditions, npcs, k);
  }

  // ---------------------------------------------------------------------
  // Spawning.

  /** A fresh NPC slot after SetDefaults: every register zero, full life, facing right. */
  function Spawned(whoAmI: int, npcType: int, position: Vec, target: int, activeTime: int): (f: Fairy)
    requires 0 <= target < PlayerSlots
    ensures f.Valid() && f.presence.active && f.presence.life == FairyLifeMax
    ensures f.AiSlots() == [0.0, 0.0, 0.0, 0.0] && f.LocalAiSlots() == [0.0, 0.0, 0.0, 0.0]
    ensures f.data.state == WaitForPlayer && !f.data.initialized && f.data.targetPosition == Zero
  {
    Fairy(Body(whoAmI, npcType, position, false, false, Zero),
          Motion(Zero, 1, 1, false),
          Presence(target, true, FairyLifeMax, 0, activeTime, false),
          Flags(false, false, false, false),
          Data(WaitForPlayer, Zero, 0, 0, false))
  }

  /** OnSpawn: a spawned fairy starts chasing its closest player, its timer at 3. */
  function AfterSpawn(f: Fairy, host: Host): (r: Fairy)
    requires f.Valid() && host.Valid()
    ensures r.Valid() && IsBeingHelpful(r.data.state)
    ensures r.data.state == ChasePlayer && r.data.generalTimer == 3 && r.presence.target == host.closestTarget
  {
    f.(data := f.data.(state := ChasePlayer, generalTimer := 3),
       presence := f.presence.(target := host.closestTarget),
       motion := f.motion.(direction := host.closestDirection),
       flags := f.flags.(netUpdate := true))
  }

  /** CheckActive: at night a waiting fairy asks the engine to keep it, refreshing its `timeLeft`. */
  function CheckActiveResult(f: Fairy, dayTime: bool, activeTime: int): (r: (bool, Fairy))
    ensures r.0 <==> dayTime || f.data.state != WaitForPlayer
    ensures r.1 == if r.0 then f else f.(presence := f.presence.(timeLeft := activeTime))
  {
    if !dayTime && f.data.state == WaitForPlayer then (false, f.(presence := f.presence.(timeLeft := activeTime)))
    else (true, f)
  }

  // ---------------------------------------------------------------------
  // One AI tick, case by case.

  /** The despawn countdown: off the client a helpful fairy counts a tick, and at 18 000 it leaves, facing away from its target. */
  function Countdown(f: Fairy, host: Host): (r: Fairy)
    requires f.Valid() && host.Valid()
    ensures r.Valid()
    ensures r.data.despawnTimer == DespawnTick(f.data.despawnTimer, f.data.state, host.netMode)
    ensures r.data.state == StateForSwitch(f.data.despawnTimer, f.data.state, host.netMode)
  {
    if host.netMode != MultiplayerClient && IsBeingHelpful(f.data.state) then
      var timer := f.data.despawnTimer + 1;
      if timer >= DespawnTimeTicks then
        f.(data := f.data.(despawnTimer := timer, state := Despawn),
           motion := f.motion.(direction := ToDirectionInt(host.players[f.presence.target].center.x < f.Center().x)),
           flags := f.flags.(netUpdate := true))
      else f.(data := f.data.(despawnTimer := timer))
    else f
  }

  /** The switch to RunAway of WaitForPlayer, ChasePlayer and LeadToTarget: face away from `point` and fly that way. */
  function Flee(f: Fairy, point: Vec): (r: Fairy)
    ensures r.data.state == RunAway && r.data.generalTimer == 0 && r.flags.netUpdate
    ensures r.motion.direction == f.AwayFrom(point)
    ensures Along(r.motion.velocity.x, r.motion.direction) >= 0.0
  {
    var d := f.AwayFrom(point);
    f.(motion := f.motion.(direction := d, velocity := FleeVelocity(f.motion.velocity, d))).SwitchTo(RunAway)
  }

  /**
   * WaitForPlayer before the player check: anchor at the first position,
   * burst off once on initialisation, hover toward the anchor and retarget.
   */
  function WaitHovering(f: Fairy, host: Host): (r: Fairy)
    requires f.Valid() && host.Valid()
    ensures r.Valid() && r.data.initialized && !r.flags.lavaImmune && r.presence.target == host.closestTarget
    ensures r.data.state == f.data.state && r.data.generalTimer == f.data.generalTimer && r.body == f.body
  {
    var anchor := if f.data.targetPosition == Zero then f.Center() else f.data.targetPosition;
    // The first tick bursts off at 0.7 of the spawn impulse and asks for a sync.
    var v := if f.data.initialized then f.motion.velocity else host.spawnImpulse.Scale(0.7);
    var toTargetPosition := anchor.Sub(f.Center());
    f.(flags := f.flags.(lavaImmune := false, netUpdate := f.flags.netUpdate || !f.data.initialized),
       motion := f.motion.(noTileCollide := false, direction := host.closestDirection,
                           velocity := Pull(v, toTargetPosition, host.lengthSquared(toTargetPosition))),
       presence := f.presence.(target := host.closestTarget),
       data := f.data.(targetPosition := anchor, initialized := true))
  }

  /**
   * WaitForPlayer: hover at the anchor (`WaitHovering`), and run away from
   * a living player within 250.
   */
  function WaitForPlayerCase(f: Fairy, host: Host): (r: Fairy)
    requires f.Valid() && host.Valid() && f.data.state == WaitForPlayer
    ensures r.Valid() && r.data.initialized && !r.flags.lavaImmune && r.presence.target == host.closestTarget
    ensures r.data.state == RunAway <==> f.Notices(host, host.players[host.closestTarget])
    ensures r.data.state == WaitForPlayer || r.data.state == RunAway
    ensures r.data.state == RunAway ==> r.data.generalTimer == 0 && r.flags.netUpdate
  {
    var hovering := WaitHovering(f, host);
    var player := host.players[host.closestTarget];
    if hovering.Notices(host, player) then Flee(hovering, player.center) else hovering
  }

  /**
   * RunAway: turn at walls, take the bounce speed on floors, accelerate in
   * the faced direction and hover over ground and liquids, vertical speed
   * clamped to [-5, 3].
   */
  function RunAwayCase(f: Fairy, host: Host): (r: Fairy)
    requires f.Valid() && f.data.state == RunAway
    ensures r.Valid() && r.data.state == RunAway && !r.flags.lavaImmune
    ensures -5.0 <= r.motion.velocity.y <= 3.0
  {
    var d := if f.body.collideX then -f.motion.direction else f.motion.direction;
    var turned := if f.body.collideX then f.motion.velocity.(x := d as real * 2.0) else f.motion.velocity;
    var landed := if f.body.collideY then turned.(y := ToDirectionInt(f.body.oldVelocity.y > 0.0) as real) else turned;
    var running := f.(flags := f.flags.(lavaImmune := false), motion := f.motion.(noTileCollide := false, direction := d));
    var origin := f.body.ScanOrigin(d);
    var groundBelow := AnyBlock(host.tiles, host.tileSolid, origin.x, origin.y, ScanHeight);
    var tooClose := AnyBlock(host.tiles, host.tileSolid, origin.x, origin.y, CloseRows);
    running.WithVelocity(Vec(RunAwayAccelerate(landed.x, d), HoverLift(landed.y, groundBelow, tooClose)))
  }

  /** The end of ChasePlayer's search: catch attention at `found`, or hover near the player when it is the sentinel. */
  function SearchOutcome(f: Fairy, found: Vec): (r: Fairy)
    ensures r.data.state == (if found != Sentinel then CatchAttention else HoverAroundPlayer)
    ensures r.data.generalTimer == 0 && r.flags.netUpdate
    ensures found != Sentinel ==> r.data.targetPosition == found
    ensures r.body == f.body && r.motion == f.motion && r.presence == f.presence
  {
    if found != Sentinel then f.(data := f.data.(targetPosition := found)).SwitchTo(CatchAttention)
    else f.SwitchTo(HoverAroundPlayer)
  }

  /**
   * ChasePlayer: wander off if the player died; once near the player (and
   * off the client) search for a target and catch attention or hover;
   * otherwise fly toward the player and count how long it is stuck in tiles.
   */
  function ChasePlayerCase(f: Fairy, host: Host, npcs: seq<Npc>, blacklist: seq<Condition>, conditions: seq<Condition>): (r: Fairy)
    requires f.Valid() && host.Valid() && f.data.state == ChasePlayer
    ensures r.Valid() && Successor(ChasePlayer, r.data.state)
    ensures r.data.state != ChasePlayer ==> r.data.generalTimer == 0 && r.flags.netUpdate
    ensures r.data.state == RunAway <==> f.PlayerDead(host)
    ensures r.data.state == CatchAttention ==>
              host.netMode != MultiplayerClient && r.data.targetPosition == f.body.BoundNpc(host, npcs, blacklist, conditions) != Sentinel
    ensures r.data.state == ChasePlayer && f.data.generalTimer < 300 ==> -4.0 <= r.motion.velocity.y <= 2.0
  {
    var chasing := f.(motion := f.motion.(noTileCollide := true));
    if f.PlayerDead(host) then Flee(chasing, host.targetData.center)
    else if host.netMode != MultiplayerClient && host.hitboxInSearchRange then
      SearchOutcome(chasing, f.body.BoundNpc(host, npcs, blacklist, conditions))
    else
      var centerTile := ToTileCoordinates(f.Center());
      var timer := if host.inWorld(centerTile) then StuckTimer(f.data.generalTimer, host.solidTile(centerTile)) else f.data.generalTimer;
      chasing.(motion := chasing.motion.(velocity := f.ChaseVelocity(host)), data := f.data.(generalTimer := timer))
  }

  /**
   * CatchAttention: slow down for 15 ticks, then circle in place facing the
   * player; after 210 ticks retarget and start leading.
   */
  function CatchAttentionCase(f: Fairy, host: Host): (r: Fairy)
    requires f.Valid() && host.Valid() && f.data.state == CatchAttention
    ensures r.Valid() && Successor(CatchAttention, r.data.state)
    ensures r.data.state == LeadToTarget <==> f.data.generalTimer + 1 >= CatchDuration
    ensures r.data.state == LeadToTarget ==> r.data.generalTimer == 0 && r.flags.netUpdate && r.presence.target == host.closestTarget
    ensures r.data.state == CatchAttention ==> r.data.generalTimer == f.data.generalTimer + 1
  {
    var circling :=
      if f.data.generalTimer <= 15 then f.(motion := f.motion.(noTileCollide := true, velocity := f.motion.velocity.Scale(0.9)))
      else f.(motion := f.motion.(noTileCollide := true, spriteDirection := f.AwayFrom(host.players[f.presence.target].center),
                                  velocity := CatchCircleVelocity(host, f.data.generalTimer, f.motion.direction)));
    if f.data.generalTimer + 1 >= CatchDuration then
      circling.(presence := circling.presence.(target := host.closestTarget),
                motion := circling.motion.(direction := host.closestDirection)).SwitchTo(LeadToTarget)
    else circling.(data := circling.data.(generalTimer := f.data.generalTimer + 1))
  }

  /**
   * HoverAroundPlayer near the player: bounce off tiles when free, drift
   * toward the player and catch attention when the search found `found`
   * (the sentinel when nothing was found or nothing searched).
   */
  function HoverNearPlayer(f: Fairy, host: Host, found: Vec): (r: Fairy)
    requires f.Valid() && host.Valid()
    ensures r.Valid()
    ensures r.data.state == (if found != Sentinel then CatchAttention else f.data.state)
    ensures found != Sentinel ==> r.data.targetPosition == found && r.data.generalTimer == 0 && r.flags.netUpdate
    ensures found == Sentinel ==> r.data == f.data
  {
    var toPlayer := host.players[f.presence.target].center.Sub(f.Center());
    var free := !host.solidCollision;
    var bounced := if free then Bounce(f.motion.velocity, f.body.collideX, f.body.collideY) else f.motion.velocity;
    var hovering := f.(motion := f.motion.(noTileCollide := !free, velocity := Pull(bounced, toPlayer, host.lengthSquared(toPlayer))));
    if found != Sentinel then hovering.(data := hovering.data.(targetPosition := found)).SwitchTo(CatchAttention)
    else hovering
  }

  /**
   * HoverAroundPlayer: chase a player who got farther than 100; otherwise
   * hover near the player and, off the client, keep searching for a target.
   */
  function HoverAroundPlayerCase(f: Fairy, host: Host, npcs: seq<Npc>, blacklist: seq<Condition>, conditions: seq<Condition>): (r: Fairy)
    requires f.Valid() && host.Valid() && f.data.state == HoverAroundPlayer
    ensures r.Valid() && Successor(HoverAroundPlayer, r.data.state)
    ensures r.data.state != HoverAroundPlayer ==> r.data.generalTimer == 0 && r.flags.netUpdate
    ensures r.data.state == ChasePlayer <==> host.lengthSquared(host.players[f.presence.target].center.Sub(f.Center())) > 100.0 * 100.0
    ensures r.data.state == CatchAttention ==>
              host.netMode != MultiplayerClient && r.data.targetPosition == f.body.BoundNpc(host, npcs, blacklist, conditions) != Sentinel
  {
    var toPlayer := host.players[f.presence.target].center.Sub(f.Center());
    if host.lengthSquared(toPlayer) > 100.0 * 100.0 then
      f.(motion := f.motion.(noTileCollide := true, direction := host.closestDirection),
         presence := f.presence.(target := host.closestTarget)).SwitchTo(ChasePlayer)
    else
      // A client does not search; the sentinel stands for "nothing found".
      HoverNearPlayer(f, host, if host.netMode == MultiplayerClient then Sentinel else f.body.BoundNpc(host, npcs, blacklist, conditions))
  }

  /**
   * LeadToTarget: wander off if the player died; arrive when the hitbox
   * reaches the target; wait for a player more than 300 away by nudging;
   * otherwise fly toward the target and count how long it is stuck.
   */
  function LeadToTargetCase(f: Fairy, host: Host): (r: Fairy)
    requires f.Valid() && host.Valid() && f.data.state == LeadToTarget
    ensures r.Valid() && Successor(LeadToTarget, r.data.state)
    ensures r.data.state != LeadToTarget ==> r.data.generalTimer == 0 && r.flags.netUpdate
    ensures r.data.state == RunAway <==> f.PlayerDead(host)
    ensures r.data.state == FoundTarget <==> !f.PlayerDead(host) && host.hitboxInTargetRange
    ensures (r.data.state == LeadToTarget && f.data.generalTimer < 300 && host.distance(f.Center(), host.targetData.center) <= 300.0)
              ==> -1.0 <= r.motion.velocity.y <= 1.0
  {
    var leading := f.(motion := f.motion.(noTileCollide := true));
    if f.PlayerDead(host) then Flee(leading, host.targetData.center)
    else if host.hitboxInTargetRange then leading.SwitchTo(FoundTarget)
    else
      var playerDistance := host.distance(f.Center(), host.targetData.center);
      if playerDistance > 300.0 then
        var free := playerDistance < 400.0 && !host.solidCollision;
        var v := if free then Bounce(f.motion.velocity, f.body.collideX, f.body.collideY) else f.motion.velocity;
        f.(motion := f.motion.(noTileCollide := !free, spriteDirection := f.AwayFrom(host.players[f.presence.target].center),
                               velocity := f.NudgeVelocity(host, v, playerDistance)))
      else
        var timer := StuckTimer(f.data.generalTimer, host.solidTile(ToTileCoordinates(f.Center())));
        leading.(motion := leading.motion.(velocity := f.LeadVelocity(host)), data := f.data.(generalTimer := timer))
  }

  /**
   * FoundTarget: the despawn countdown stops; slow down, then circle; off
   * the client the fairy vanishes after 200 ticks (a server also zeroes its
   * life and skips its sync).
   */
  function FoundTargetCase(f: Fairy, host: Host): (r: Fairy)
    requires f.Valid() && host.Valid() && f.data.state == FoundTarget
    ensures r.Valid() && r.data.state == FoundTarget && r.data.despawnTimer == 0 && r.data.generalTimer == f.data.generalTimer + 1
    ensures r.presence.active == (f.presence.active && !Vanishes(f.data.generalTimer, host.netMode))
    ensures Vanishes(f.data.generalTimer, host.netMode) && host.netMode == Server ==> r.presence.life == 0 && r.presence.netSkip == -1
  {
    var motion :=
      if f.data.generalTimer <= 15 then f.motion.(noTileCollide := true, velocity := f.motion.velocity.Scale(0.9))
      else f.motion.(noTileCollide := true, velocity := FoundCircleVelocity(host, f.data.generalTimer, f.motion.direction),
                     spriteDirection := f.AwayFrom(host.players[f.presence.target].center));
    var presence :=
      if !Vanishes(f.data.generalTimer, host.netMode) then f.presence
      else if host.netMode == Server then f.presence.(active := false, netSkip := -1, life := 0)
      else f.presence.(active := false);
    f.(motion := motion, presence := presence, data := f.data.(despawnTimer := 0, generalTimer := f.data.generalTimer + 1))
  }

  /** Despawn: drift off in the faced direction and upward, capped at 10 and 5, and let the engine remove the fairy soon. */
  function DespawnCase(f: Fairy): (r: Fairy)
    requires f.Valid() && f.data.state == Despawn
    ensures r.Valid() && r.data.state == Despawn && r.presence.despawnEncouraged && r.presence.timeLeft <= 10
    ensures -10.0 <= r.motion.velocity.x <= 10.0 && -5.0 <= r.motion.velocity.y <= 5.0
  {
    var v := Vec(Clamp(f.motion.velocity.x + 0.05 * f.motion.direction as real, -10.0, 10.0), Clamp(f.motion.velocity.y - 0.025, -5.0, 5.0));
    f.(motion := f.motion.(noTileCollide := true, velocity := v),
       presence := f.presence.(timeLeft := Min(f.presence.timeLeft, 10), despawnEncouraged := true))
  }

  /** The switch on the state: the case for the state the countdown left. */
  function RunCase(f: Fairy, host: Host, npcs: seq<Npc>, blacklist: seq<Condition>, conditions: seq<Condition>): (r: Fairy)
    requires f.Valid() && host.Valid()
    ensures r.Valid() && Successor(f.data.state, r.data.state)
    ensures r.data.state != f.data.state ==> r.data.generalTimer == 0 && r.flags.netUpdate
  {
    match f.data.state
    case WaitForPlayer => WaitForPlayerCase(f, host)
    case RunAway => RunAwayCase(f, host)
    case ChasePlayer => ChasePlayerCase(f, host, npcs, blacklist, conditions)
    case CatchAttention => CatchAttentionCase(f, host)
    case HoverAroundPlayer => HoverAroundPlayerCase(f, host, npcs, blacklist, conditions)
    case LeadToTarget => LeadToTargetCase(f, host)
    case FoundTarget => FoundTargetCase(f, host)
    case Despawn => DespawnCase(f)
  }

  /**
   * What every case leaves alone: the body and the damage flags; lava
   * immunity only survives a helping case; only FoundTarget deactivates the
   * fairy or zeroes its despawn timer.
   */
  lemma RunCaseLeaves(f: Fairy, host: Host, npcs: seq<Npc>, blacklist: seq<Condition>, conditions: seq<Condition>)
    requires f.Valid() && host.Valid()
    ensures var r := RunCase(f, host, npcs, blacklist, conditions);
            && r.body == f.body
            && r.flags.dontTakeDamage == f.flags.dontTakeDamage
            && r.flags.dontTakeDamageFromHostiles == f.flags.dontTakeDamageFromHostiles
            && r.flags.lavaImmune == (f.flags.lavaImmune && IsBeingHelpful(f.data.state))
            && r.presence.active == (f.presence.active && !(f.data.state == FoundTarget && Vanishes(f.data.generalTimer, host.netMode)))
            && r.data.despawnTimer == if f.data.state == FoundTarget then 0 else f.data.despawnTimer
  {
  }

  /** Whether the running case steers by hand, so the final facing update is skipped. */
  predicate ManualControl(f: Fairy, host: Host)
    requires f.Valid() && host.Valid()
  {
    || ((f.data.state == CatchAttention || f.data.state == FoundTarget) && f.data.generalTimer > 15)
    || (f.data.state == LeadToTarget && f.LeadNudges(host))
  }

  /** The completion effect of the case run on `f`: FoundTarget's, on the tick the fairy vanishes. */
  function CompletionEffectOf(f: Fairy, host: Host): (e: CompletionEffect)
    ensures !e.NoEffect? <==> f.data.state == FoundTarget && Vanishes(f.data.generalTimer, host.netMode)
    ensures !e.NoEffect? ==> e.position == f.Center()
  {
    if f.data.state == FoundTarget && Vanishes(f.data.generalTimer, host.netMode) then f.CompletionFor(host.netMode) else NoEffect
  }

  /** Unless steered by hand, the fairy faces where it flies and its sprite the other way. */
  function Face(f: Fairy, manualDirectionControl: bool): Fairy
  {
    if manualDirectionControl then f
    else
      var d := ToDirectionInt(f.motion.velocity.x >= 0.0);
      f.(motion := f.motion.(direction := d, spriteDirection := -d))
  }

  /** The fairy at the start of the switch: lava immune, despawn timer counted. */
  function Counted(f: Fairy, host: Host): (r: Fairy)
    requires f.Valid() && host.Valid()
    ensures r.Valid()
  {
    Countdown(f.(flags := f.flags.(lavaImmune := true)), host)
  }

  /** The damage flags of a fairy whose case has run: immune to all damage exactly while helping. */
  function WithDamageFlags(f: Fairy): Fairy
  {
    var helpful := IsBeingHelpful(f.data.state);
    f.(flags := f.flags.(dontTakeDamage := helpful, dontTakeDamageFromHostiles := helpful))
  }

  /**
   * The end of a tick, after the case ran: immune to damage exactly while
   * helping, the flutter shift (`flutterShift`, what the partners in
   * Main.npc add to the vertical speed), and the facing of the flight.
   */
  function Settle(f: Fairy, flutterShift: real, manualDirectionControl: bool): Fairy
  {
    var flagged := WithDamageFlags(f);
    Face(flagged.WithVelocity(Vec(flagged.motion.velocity.x, flagged.motion.velocity.y + flutterShift)), manualDirectionControl)
  }

  /** AI: one tick. Count down, run the case, then settle flags, flutter and facing. */
  function Tick(f: Fairy, host: Host, npcs: seq<Npc>, blacklist: seq<Condition>, conditions: seq<Condition>,
                flutterShift: real): Fairy
    requires f.Valid() && host.Valid()
  {
    var counted := Counted(f, host);
    Settle(RunCase(counted, host, npcs, blacklist, conditions), flutterShift, ManualControl(counted, host))
  }

  // ---------------------------------------------------------------------
  // The rules one tick keeps.

  /** Every tick keeps the invariant: target in range, facing left or right, timers within their bounds. */
  lemma TickKeepsValid(f: Fairy, host: Host, npcs: seq<Npc>, blacklist: seq<Condition>, conditions: seq<Condition>, shift: real)
    requires f.Valid() && host.Valid()
    ensures Tick(f, host, npcs, blacklist, conditions, shift).Valid()
  {
  }

  /**
   * The state moves along the transition graph, and every transition the
   * switch takes puts the general timer back at 0 and requests a sync.
   */
  lemma TickFollowsGraph(f: Fairy, host: Host, npcs: seq<Npc>, blacklist: seq<Condition>, conditions: seq<Condition>, shift: real)
    requires f.Valid() && host.Valid()
    ensures var s := StateForSwitch(f.data.despawnTimer, f.data.state, host.netMode);
            var t := Tick(f, host, npcs, blacklist, conditions, shift);
            && Successor(s, t.data.state)
            && (t.data.state != s ==> t.data.generalTimer == 0 && t.flags.netUpdate)
  {
  }

  /**
   * The despawn countdown: off the client a helpful fairy's timer rises by
   * one per tick (FoundTarget's case puts it back to 0), and on reaching
   * 18 000 the fairy despawns that very tick, drifting away from its target,
   * with its general timer untouched.
   */
  lemma DespawnIsForced(f: Fairy, host: Host, npcs: seq<Npc>, blacklist: seq<Condition>, conditions: seq<Condition>, shift: real)
    requires f.Valid() && host.Valid()
    ensures var s := StateForSwitch(f.data.despawnTimer, f.data.state, host.netMode);
            var t := Tick(f, host, npcs, blacklist, conditions, shift);
            t.data.despawnTimer == if s == FoundTarget then 0 else DespawnTick(f.data.despawnTimer, f.data.state, host.netMode)
    ensures var t := Tick(f, host, npcs, blacklist, conditions, shift);
            ForcesDespawn(f.data.despawnTimer, f.data.state, host.netMode) ==>
              && t.data.state == Despawn && t.flags.netUpdate && t.data.generalTimer == f.data.generalTimer
              && t.presence.despawnEncouraged && t.presence.timeLeft <= 10
              && t.motion.velocity.x
                 == Clamp(f.motion.velocity.x + 0.05 * ToDirectionInt(host.players[f.presence.target].center.x < f.Center().x) as real, -10.0, 10.0)
  {
    RunCaseLeaves(Counted(f, host), host, npcs, blacklist, conditions);
  }

  /** CatchAttention's only exit is LeadToTarget, taken exactly when the incremented timer reaches 210. */
  lemma CatchLeadsOnTime(f: Fairy, host: Host, npcs: seq<Npc>, blacklist: seq<Condition>, conditions: seq<Condition>, shift: real)
    requires f.Valid() && host.Valid()
    requires StateForSwitch(f.data.despawnTimer, f.data.state, host.netMode) == CatchAttention
    ensures var t := Tick(f, host, npcs, blacklist, conditions, shift);
            && (t.data.state == CatchAttention || t.data.state == LeadToTarget)
            && (t.data.state == LeadToTarget <==> f.data.generalTimer + 1 >= CatchDuration)
            && (t.data.state == CatchAttention ==> t.data.generalTimer == f.data.generalTimer + 1)
  {
  }

  /**
   * FoundTarget is final; off the client the fairy vanishes once its
   * incremented timer passes 200, with its completion effect; no other case
   * deactivates it or produces an effect.
   */
  lemma FoundTargetVanishes(f: Fairy, host: Host, npcs: seq<Npc>, blacklist: seq<Condition>, conditions: seq<Condition>, shift: real)
    requires f.Valid() && host.Valid()
    ensures var s := StateForSwitch(f.data.despawnTimer, f.data.state, host.netMode);
            var t := Tick(f, host, npcs, blacklist, conditions, shift);
            var e := CompletionEffectOf(Counted(f, host), host);
            if s == FoundTarget then
              && t.data.state == FoundTarget && t.data.generalTimer == f.data.generalTimer + 1
              && t.presence.active == (f.presence.active && !Vanishes(f.data.generalTimer, host.netMode))
              && (Vanishes(f.data.generalTimer, host.netMode) ==> e == f.CompletionFor(host.netMode))
              && (!Vanishes(f.data.generalTimer, host.netMode) ==> e == NoEffect)
            else
              t.presence.active == f.presence.active && e == NoEffect
  {
    RunCaseLeaves(Counted(f, host), host, npcs, blacklist, conditions);
  }

  /**
   * Every tick ends with both damage immunities equal to IsBeingHelpful of
   * the new state; lava immunity holds unless the case that ran was
   * WaitForPlayer or RunAway.
   */
  lemma DamageFlagsFollowHelping(f: Fairy, host: Host, npcs: seq<Npc>, blacklist: seq<Condition>, conditions: seq<Condition>, shift: real)
    requires f.Valid() && host.Valid()
    ensures var t := Tick(f, host, npcs, blacklist, conditions, shift);
            && t.flags.dontTakeDamage == IsBeingHelpful(t.data.state)
            && t.flags.dontTakeDamageFromHostiles == IsBeingHelpful(t.data.state)
            && t.flags.lavaImmune == IsBeingHelpful(StateForSwitch(f.data.despawnTimer, f.data.state, host.netMode))
  {
    RunCaseLeaves(Counted(f, host), host, npcs, blacklist, conditions);
  }

  /** A fairy that is not helping never starts again, and stays open to nets and projectiles. */
  lemma IdleNeverHelps(f: Fairy, host: Host, npcs: seq<Npc>, blacklist: seq<Condition>, conditions: seq<Condition>, shift: real)
    requires f.Valid() && host.Valid() && !IsBeingHelpful(f.data.state)
    ensures var t := Tick(f, host, npcs, blacklist, conditions, shift);
            !IsBeingHelpful(t.data.state) && !t.flags.dontTakeDamage && !t.flags.dontTakeDamageFromHostiles
  {
    RunCaseLeaves(Counted(f, host), host, npcs, blacklist, conditions);
  }

  /**
   * The speed clamps, measured before the flutter shift `shift` is added:
   * RunAway's vertical [-5, 3]; Despawn's [-10, 10] and [-5, 5]; while the
   * stuck timer is below 300, ChasePlayer's [-4, 2] and, when close to the
   * player, LeadToTarget's [-1, 1].
   */
  lemma SpeedLimits(f: Fairy, host: Host, npcs: seq<Npc>, blacklist: seq<Condition>, conditions: seq<Condition>, shift: real)
    requires f.Valid() && host.Valid()
    ensures var s := StateForSwitch(f.data.despawnTimer, f.data.state, host.netMode);
            var t := Tick(f, host, npcs, blacklist, conditions, shift);
            var vy := t.motion.velocity.y - shift;
            && (s == RunAway ==> -5.0 <= vy <= 3.0)
            && (s == Despawn ==> -10.0 <= t.motion.velocity.x <= 10.0 && -5.0 <= vy <= 5.0)
            && (s == ChasePlayer && t.data.state == ChasePlayer && f.data.generalTimer < 300 ==> -4.0 <= vy <= 2.0)
            && ((s == LeadToTarget && t.data.state == LeadToTarget && f.data.generalTimer < 300
                 && host.distance(f.Center(), host.targetData.center) <= 300.0) ==> -1.0 <= vy <= 1.0)
  {
  }

  /** Unless the case steered by hand, the fairy ends the tick facing where it flies, its sprite the other way. */
  lemma FacesItsFlight(f: Fairy, host: Host, npcs: seq<Npc>, blacklist: seq<Condition>, conditions: seq<Condition>, shift: real)
    requires f.Valid() && host.Valid()
    requires !ManualControl(Counted(f, host), host)
    ensures var t := Tick(f, host, npcs, blacklist, conditions, shift);
            t.motion.direction == ToDirectionInt(t.motion.velocity.x >= 0.0) && t.motion.spriteDirection == -t.motion.direction
  {
  }

  /** The AI never moves the fairy itself nor touches the engine's fields: only velocity changes position, later, in the engine. */
  lemma EngineFieldsUnchanged(f: Fairy, host: Host, npcs: seq<Npc>, blacklist: seq<Condition>, conditions: seq<Condition>, shift: real)
    requires f.Valid() && host.Valid()
    ensures Tick(f, host, npcs, blacklist, conditions, shift).body == f.body
  {
    RunCaseLeaves(Counted(f, host), host, npcs, blacklist, conditions);
  }

  /** A waiting fairy runs away exactly when the closest player is alive and within 250. */
  lemma WaitingNoticesPlayer(f: Fairy, host: Host, npcs: seq<Npc>, blacklist: seq<Condition>, conditions: seq<Condition>, shift: real)
    requires f.Valid() && host.Valid() && f.data.state == WaitForPlayer
    ensures var t := Tick(f, host, npcs, blacklist, conditions, shift);
            (t.data.state == RunAway <==> f.Notices(host, host.players[host.closestTarget]))
            && (t.data.state == WaitForPlayer <==> !f.Notices(host, host.players[host.closestTarget]))
  {
  }

  /**
   * A followed player's death sends a chasing or leading fairy running; a
   * leading fairy whose hitbox reaches the target range has found it.
   */
  lemma FollowingEnds(f: Fairy, host: Host, npcs: seq<Npc>, blacklist: seq<Condition>, conditions: seq<Condition>, shift: real)
    requires f.Valid() && host.Valid()
    ensures var s := StateForSwitch(f.data.despawnTimer, f.data.state, host.netMode);
            var t := Tick(f, host, npcs, blacklist, conditions, shift);
            && (s == ChasePlayer || s == LeadToTarget ==> (t.data.state == RunAway <==> f.PlayerDead(host)))
            && (s == LeadToTarget ==> (t.data.state == FoundTarget <==> !f.PlayerDead(host) && host.hitboxInTargetRange))
  {
  }

  /**
   * A fairy that starts catching attention does so off the client, with the
   * target position FindBoundNPCs returned.
   */
  lemma NewTargetFromSearch(f: Fairy, host: Host, npcs: seq<Npc>, blacklist: seq<Condition>, conditions: seq<Condition>, shift: real)
    requires f.Valid() && host.Valid()
    requires StateForSwitch(f.data.despawnTimer, f.data.state, host.netMode) != CatchAttention
    requires Tick(f, host, npcs, blacklist, conditions, shift).data.state == CatchAttention
    ensures host.netMode != MultiplayerClient
    ensures Tick(f, host, npcs, blacklist, conditions, shift).data.targetPosition == f.body.BoundNpc(host, npcs, blacklist, conditions) != Sentinel
  {
  }

  /** A search result other than the sentinel is the centre of a nearest candidate. */
  lemma FoundIsNearest(s: Search, npcs: seq<Npc>, p: Vec)
    requires s.Result(npcs, p) && p != Sentinel
    ensures exists k :: 0 <= k < |npcs| && s.IsNearest(npcs, k, |npcs|) && p == npcs[k].Center()
  {
    assert exists k :: 0 <= k < |npcs| && s.IsCandidate(npcs, k);
  }

  /** The target position a fairy starts catching attention with is the centre of the nearest trackable NPC in its search region. */
  lemma NewTargetIsNearest(f: Fairy, host: Host, npcs: seq<Npc>, blacklist: seq<Condition>, conditions: seq<Condition>, shift: real)
    requires f.Valid() && host.Valid()
    requires StateForSwitch(f.data.despawnTimer, f.data.state, host.netMode) != CatchAttention
    requires Tick(f, host, npcs, blacklist, conditions, shift).data.state == CatchAttention
    ensures exists k :: 0 <= k < |npcs| && f.body.SearchFrom(host, blacklist, conditions).IsNearest(npcs, k, |npcs|)
                        && Tick(f, host, npcs, blacklist, conditions, shift).data.targetPosition == npcs[k].Center()
  {
    NewTargetFromSearch(f, host, npcs, blacklist, conditions, shift);
    SearchFindsNearest(f, host, npcs, blacklist, conditions);
    FoundIsNearest(f.body.SearchFrom(host, blacklist, conditions), npcs, f.body.BoundNpc(host, npcs, blacklist, conditions));
  }
}
