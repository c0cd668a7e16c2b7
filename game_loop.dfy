/** The per-frame driver: `updateGameState` computes, from one snapshot of
    the state, the horizontal move, gravity, the landing scan and the floor
    clamp, and dispatches a fixed sequence of reducer commands; `gameLoop`
    decides from the frame clock whether a tick happens at all. Dispatching
    is modelled as appending to the returned command list; the state the
    React store reaches is that list folded through the reducer. */
module GameLoop {
  import opened GameTypes
  import opened Collision
  import opened Reducer

  // ---------------------------------------------------------------------
  // Constants of the tick

  /** The longest step a tick simulates, in seconds. */
  const MaxDelta: real := 0.1
  /** Frames per second the physics constants are scaled by. */
  const StepsPerSecond: real := 60.0
  /** The right edge of the playable world. */
  const WorldWidth: real := 1600.0
  /** The lowest `y` the player's bottom edge can reach. */
  const WorldFloor: real := 800.0
  /** The tick's own tutorial exit threshold. */
  const TutorialExit: real := 600.0
  /** `1000 / fps` for the default of 60 frames per second, in milliseconds. */
  const FrameInterval: real := 1000.0 / 60.0

  // ---------------------------------------------------------------------
  // Horizontal motion

  /** `Math.min(deltaTime, 0.1)`. */
  function CappedDelta(dt: real): (d: real)
    ensures d <= MaxDelta && d <= dt
    ensures d == dt || d == MaxDelta
  {
    Min(dt, MaxDelta)
  }

  /** The walking speed scaled by the element: air 1.3, earth 0.85. */
  function BaseSpeed(p: Player): (v: real)
    ensures 0.0 < v
    ensures p.currentElement == Air ==> v > WalkSpeed(p)
    ensures p.currentElement == Earth ==> v < WalkSpeed(p)
    ensures p.currentElement != Air && p.currentElement != Earth ==> v == WalkSpeed(p)
  {
    match p.currentElement
    case Air => WalkSpeed(p) * 1.3
    case Earth => WalkSpeed(p) * 0.85
    case _ => WalkSpeed(p)
  }

  /** The horizontal velocity is recomputed from the movement flags each
      tick: zero when both or neither flag is set. */
  function HorizontalVelocity(p: Player): (v: real)
    ensures p.isMovingLeft == p.isMovingRight <==> v == 0.0
    ensures p.isMovingLeft && !p.isMovingRight <==> v < 0.0
    ensures v != 0.0 ==> Abs(v) == BaseSpeed(p)
  {
    if p.isMovingLeft && !p.isMovingRight then -BaseSpeed(p)
    else if p.isMovingRight && !p.isMovingLeft then BaseSpeed(p)
    else 0.0
  }

  /** The velocity carried by the state plays no part: only the flags,
      ducking and the element do. */
  lemma HorizontalVelocityIgnoresMomentum(p: Player, vx: real)
    ensures HorizontalVelocity(p.(velocityX := vx)) == HorizontalVelocity(p)
    ensures HorizontalVelocity(p.(isDucking := false)) != 0.0 ==>
              Abs(HorizontalVelocity(p.(isDucking := true))) < Abs(HorizontalVelocity(p.(isDucking := false)))
  {
  }

  /** `Math.max(w / 2, Math.min(1600 - w / 2, x))`. */
  function ClampX(x: real, w: real): (r: real)
    ensures w / 2.0 <= r
    ensures w <= WorldWidth ==> r <= WorldWidth - w / 2.0
    ensures w / 2.0 <= x <= WorldWidth - w / 2.0 ==> r == x
    ensures x < w / 2.0 ==> r == w / 2.0
    ensures w <= WorldWidth && x > WorldWidth - w / 2.0 ==> r == WorldWidth - w / 2.0
  {
    Max(w / 2.0, Min(WorldWidth - w / 2.0, x))
  }

  // ---------------------------------------------------------------------
  // Gravity and landing

  /** `0.98 * 60 * cappedDelta`, added to the vertical velocity. */
  function Gravity(d: real): real
  {
    0.98 * StepsPerSecond * d
  }

  /** The vertical velocity after this tick's gravity. */
  function FallVelocity(p: Player, d: real): real
  {
    p.velocityY + Gravity(d)
  }

  /** The bottom edge after one step at that velocity,
      `velocityY * cappedDelta * 60` further down. */
  function FallY(p: Player, d: real): real
  {
    p.y + FallVelocity(p, d) * d * StepsPerSecond
  }

  /** The gravity block runs only for a jumping or unsupported player. */
  predicate Airborne(p: Player)
  {
    p.isJumping || !p.onPlatform
  }

  /** The test that ends the scan: standing on the platform, and either the
      platform is solid or the player is falling. */
  predicate Lands(x: real, y: real, w: real, h: real, q: Platform, vy: real)
  {
    StandingOn(x, y, w, h, q, vy) && (!q.canPassThrough || vy > 0.0)
  }

  /** What the scan over the platforms leaves: the vertical velocity and the
      platform landed on, if any. */
  datatype Scan = Scan(vy: real, landedOn: Option<Platform>)

  /** The `for … of state.platforms` loop: the first platform landed on
      stops the scan and zeroes the velocity; an underside hit on the way
      turns the velocity into `|vy / 2|`. */
  function LandScan(x: real, y: real, w: real, h: real, ps: seq<Platform>, vy: real): (r: Scan)
    ensures r.landedOn.Some? ==> r.vy == 0.0 && r.landedOn.value in ps
    ensures r.landedOn.Some? ==> StandingOn(x, y, w, h, r.landedOn.value, 0.0)
    ensures r.vy == vy || r.vy == 0.0 || r.vy == Abs(vy * 0.5)
    ensures vy < 0.0 ==> r.vy >= vy
    ensures vy >= 0.0 ==> r.vy == vy || r.landedOn.Some?
    decreases |ps|
  {
    if ps == [] then Scan(vy, None)
    else
      var q := ps[0];
      if StandingOn(x, y, w, h, q, vy) then
        if !q.canPassThrough || vy > 0.0 then Scan(0.0, Some(q))
        else LandScan(x, y, w, h, ps[1..], vy)
      else if HittingBottom(x, y, w, h, q, vy) then
        LandScan(x, y, w, h, ps[1..], Abs(vy * 0.5))
      else LandScan(x, y, w, h, ps[1..], vy)
  }

  /** A player who is falling or at rest lands on the FIRST platform in list
      order that it lands on, and on none exactly when no platform qualifies. */
  lemma {:induction false} FallingLandsOnFirstMatch(x: real, y: real, w: real, h: real, ps: seq<Platform>, vy: real)
    requires vy >= 0.0
    ensures var r := LandScan(x, y, w, h, ps, vy);
      && (r.landedOn.None? <==> forall k :: 0 <= k < |ps| ==> !Lands(x, y, w, h, ps[k], vy))
      && (r.landedOn.None? ==> r.vy == vy)
      && (r.landedOn.Some? ==> exists k :: 0 <= k < |ps| && ps[k] == r.landedOn.value
                                 && Lands(x, y, w, h, ps[k], vy)
                                 && forall j :: 0 <= j < k ==> !Lands(x, y, w, h, ps[j], vy))
    decreases |ps|
  {
    if ps != [] {
      var r := LandScan(x, y, w, h, ps, vy);
      FallingLandsOnFirstMatch(x, y, w, h, ps[1..], vy);
      var t := LandScan(x, y, w, h, ps[1..], vy);
      if Lands(x, y, w, h, ps[0], vy) {
        assert r.landedOn == Some(ps[0]);
      } else {
        assert !HittingBottom(x, y, w, h, ps[0], vy);
        assert r == t;
        if t.landedOn.Some? {
          var k :| 0 <= k < |ps[1..]| && ps[1..][k] == t.landedOn.value && Lands(x, y, w, h, ps[1..][k], vy)
                    && forall j :: 0 <= j < k ==> !Lands(x, y, w, h, ps[1..][j], vy);
          assert ps[k + 1] == ps[1..][k];
          forall j | 0 <= j < k + 1
            ensures !Lands(x, y, w, h, ps[j], vy)
          {
            if j > 0 {
              assert ps[j] == ps[1..][j - 1];
            }
          }
        } else {
          forall k | 0 <= k < |ps|
            ensures !Lands(x, y, w, h, ps[k], vy)
          {
            if k > 0 {
              assert ps[k] == ps[1..][k - 1];
            }
          }
        }
      }
    }
  }

  /** A rising player stands on nothing, so the scan passes over every
      platform up to the first whose underside it strikes; there the
      velocity becomes `|vy / 2|` and the scan goes on with the rest. With
      no such platform (`k == |ps|`) the scan ends with `vy` and no landing. */
  lemma {:induction false} RisingBouncesOnFirstUnderside(x: real, y: real, w: real, h: real, ps: seq<Platform>, vy: real, k: nat)
    requires vy < 0.0 && k <= |ps|
    requires forall j :: 0 <= j < k ==> !HittingBottom(x, y, w, h, ps[j], vy)
    requires k < |ps| ==> HittingBottom(x, y, w, h, ps[k], vy)
    ensures k == |ps| ==> LandScan(x, y, w, h, ps, vy) == Scan(vy, None)
    ensures k < |ps| ==> LandScan(x, y, w, h, ps, vy) == LandScan(x, y, w, h, ps[k + 1..], Abs(vy * 0.5))
    decreases k
  {
    if ps != [] {
      assert !StandingOn(x, y, w, h, ps[0], vy);
      if k > 0 {
        forall j | 0 <= j < k - 1
          ensures !HittingBottom(x, y, w, h, ps[1..][j], vy)
        {
          assert ps[1..][j] == ps[j + 1];
        }
        RisingBouncesOnFirstUnderside(x, y, w, h, ps[1..], vy, k - 1);
        if k < |ps| {
          assert ps[1..][k - 1 + 1..] == ps[k + 1..];
        }
      }
    }
  }

  // ---------------------------------------------------------------------
  // Energy

  /** Energy regained per tick by element. */
  function EnergyRegen(e: Element): (r: real)
    ensures 0.05 <= r <= 0.1
    ensures e == Fire <==> r == 0.1
  {
    match e
    case Fire => 0.1
    case Water => 0.075
    case Earth => 0.05
    case Air => 0.08
    case Spirit => 0.07
  }

  // ---------------------------------------------------------------------
  // The tick

  /** Everything one tick decides: whether to advance the level, the
      landing command of the gravity block, whether the floor was reached,
      and the payloads of the move and energy commands. */
  datatype TickPlan = TickPlan(
    advance: bool, landing: Option<Action>, floored: bool,
    x: real, y: real, vx: real, vy: real, energy: real)

  /** The horizontal step, `velocityX * 60 * cappedDelta`, then the clamp
      to the world's bounds. */
  function MovedX(p: Player, d: real): (x: real)
    ensures x >= p.width / 2.0
    ensures p.width <= WorldWidth ==> x <= WorldWidth - p.width / 2.0
    ensures var target := p.x + HorizontalVelocity(p) * StepsPerSecond * d;
      && (p.width / 2.0 <= target <= WorldWidth - p.width / 2.0 ==> x == target)
      && (target < p.width / 2.0 ==> x == p.width / 2.0)
      && (p.width <= WorldWidth && target > WorldWidth - p.width / 2.0 ==> x == WorldWidth - p.width / 2.0)
  {
    ClampX(p.x + HorizontalVelocity(p) * StepsPerSecond * d, p.width)
  }

  /** The outcome of the gravity block: the new bottom edge, the vertical
      velocity, and the landing command it dispatches, if it ran. */
  datatype Vertical = Vertical(y: real, vy: real, landing: Option<Action>)

  /** The gravity block for a player already moved to `x`: gravity is added
      to the velocity, one step of it to `y`, and the platforms are scanned;
      a landing puts the bottom edge on the platform's top. */
  function GravityBlock(s: GameState, x: real, d: real): (v: Vertical)
    ensures v.landing.None? <==> !Airborne(s.player)
    ensures !Airborne(s.player) ==> v.y == s.player.y && v.vy == s.player.velocityY
    ensures v.landing.Some? && v.landing.value.PlayerLand? ==> v.vy == 0.0 && v.y == v.landing.value.platformY
    ensures v.landing.Some? ==> v.landing.value.PlayerLand? || v.landing.value == SetOnPlatform(false)
  {
    if !Airborne(s.player) then Vertical(s.player.y, s.player.velocityY, None)
    else
      var scan := LandScan(x, FallY(s.player, d), s.player.width, s.player.height, s.platforms, FallVelocity(s.player, d));
      if scan.landedOn.Some? then Vertical(scan.landedOn.value.y, scan.vy, Some(PlayerLand(scan.landedOn.value.y)))
      else Vertical(FallY(s.player, d), scan.vy, Some(SetOnPlatform(false)))
  }

  /** `playerY = Math.min(800, playerY)`, and reaching 800 stops the fall. */
  function FloorClamp(v: Vertical): (r: Vertical)
    ensures r.y <= WorldFloor
    ensures r.y == WorldFloor ==> r.vy == 0.0
    ensures v.y < WorldFloor ==> r == v
    ensures v.y >= WorldFloor ==> r == v.(y := WorldFloor, vy := 0.0)
  {
    if Min(WorldFloor, v.y) >= WorldFloor then v.(y := WorldFloor, vy := 0.0) else v
  }

  /** `updateGameState(deltaTime)` as a pure computation over the snapshot
      `s`; every bound the tick enforces is stated here. */
  function Plan(s: GameState, dt: real): (t: TickPlan)
    ensures t.x >= s.player.width / 2.0
    ensures s.player.width <= WorldWidth ==> t.x <= WorldWidth - s.player.width / 2.0
    ensures t.y <= WorldFloor && (t.floored <==> t.y == WorldFloor)
    ensures t.floored ==> t.vy == 0.0
    ensures t.floored <==> GravityBlock(s, t.x, CappedDelta(dt)).y >= WorldFloor
    ensures t.advance <==> s.isTutorialLevel && t.x > TutorialExit
    ensures t.vx == HorizontalVelocity(s.player)
    ensures t.landing.None? <==> !Airborne(s.player)
    ensures t.energy <= s.player.maxEnergy
    ensures t.energy == s.player.maxEnergy || t.energy > s.player.energy
    ensures t.x == MovedX(s.player, CappedDelta(dt))
    ensures var v := GravityBlock(s, t.x, CappedDelta(dt));
      t.landing == v.landing && FloorClamp(v) == Vertical(t.y, t.vy, v.landing)
  {
    var p := s.player;
    var d := CappedDelta(dt);
    var x := MovedX(p, d);
    var v := GravityBlock(s, x, d);
    var f := FloorClamp(v);
    TickPlan(s.isTutorialLevel && x > TutorialExit, v.landing, v.y >= WorldFloor, x, f.y,
             HorizontalVelocity(p), f.vy, Min(p.maxEnergy, p.energy + EnergyRegen(p.currentElement)))
  }

  /** A grounded player who is not jumping skips gravity and the scan:
      `y` and the vertical velocity go through to the move command as they
      were, unless the player already lies on the world's floor. */
  lemma GroundedSkipsGravity(s: GameState, dt: real)
    requires !Airborne(s.player) && s.player.y < WorldFloor
    ensures Plan(s, dt).landing == None && !Plan(s, dt).floored
    ensures Plan(s, dt).y == s.player.y && Plan(s, dt).vy == s.player.velocityY
  {
  }

  /** For an airborne player the block's outcome is the scan's. */
  lemma AirborneScan(s: GameState, x: real, d: real)
    requires Airborne(s.player)
    ensures var vy, y := FallVelocity(s.player, d), FallY(s.player, d);
      var r := LandScan(x, y, s.player.width, s.player.height, s.platforms, vy);
      r.landedOn.None? ==> GravityBlock(s, x, d) == Vertical(y, r.vy, Some(SetOnPlatform(false)))
    ensures var vy, y := FallVelocity(s.player, d), FallY(s.player, d);
      var r := LandScan(x, y, s.player.width, s.player.height, s.platforms, vy);
      r.landedOn.Some? ==> GravityBlock(s, x, d) == Vertical(r.landedOn.value.y, 0.0, Some(PlayerLand(r.landedOn.value.y)))
  {
  }

  /** An airborne player that falls after gravity lands on the first
      platform in list order it lands on, at that platform's top with zero
      velocity, and `PLAYER_LAND` carries that top; with no such platform the
      block reports `SET_ON_PLATFORM(false)` and keeps falling. */
  lemma AirborneLandsOnFirstMatch(s: GameState, x: real, d: real)
    requires Airborne(s.player)
    requires FallVelocity(s.player, d) >= 0.0
    ensures var v := GravityBlock(s, x, d);
      var vy, y := FallVelocity(s.player, d), FallY(s.player, d);
      var w, h := s.player.width, s.player.height;
      && ((v.landing == Some(SetOnPlatform(false)))
            <==> (forall k :: 0 <= k < |s.platforms| ==> !Lands(x, y, w, h, s.platforms[k], vy)))
      && (v.landing == Some(SetOnPlatform(false)) ==> v.y == y && v.vy == vy)
      && (v.landing != Some(SetOnPlatform(false)) ==>
            exists k :: 0 <= k < |s.platforms|
              && Lands(x, y, w, h, s.platforms[k], vy)
              && (forall j :: 0 <= j < k ==> !Lands(x, y, w, h, s.platforms[j], vy))
              && v == Vertical(s.platforms[k].y, 0.0, Some(PlayerLand(s.platforms[k].y))))
  {
    AirborneScan(s, x, d);
    FallingLandsOnFirstMatch(x, FallY(s.player, d), s.player.width, s.player.height, s.platforms, FallVelocity(s.player, d));
  }

  /** An airborne player that still rises after gravity passes under the
      platforms up to the first whose underside it strikes (`k`, or
      `|platforms|` when there is none). With none it keeps rising and the
      block reports `SET_ON_PLATFORM(false)`; otherwise its velocity becomes
      `|vy / 2|` and the rest of the list is scanned with that velocity, a
      landing there putting it on the platform's top. */
  lemma AirborneBouncesOnFirstUnderside(s: GameState, x: real, d: real, k: nat)
    requires Airborne(s.player)
    requires FallVelocity(s.player, d) < 0.0 && k <= |s.platforms|
    requires forall j :: 0 <= j < k ==>
      !HittingBottom(x, FallY(s.player, d), s.player.width, s.player.height, s.platforms[j], FallVelocity(s.player, d))
    requires k < |s.platforms| ==>
      HittingBottom(x, FallY(s.player, d), s.player.width, s.player.height, s.platforms[k], FallVelocity(s.player, d))
    ensures var vy, y := FallVelocity(s.player, d), FallY(s.player, d);
      k == |s.platforms| ==> GravityBlock(s, x, d) == Vertical(y, vy, Some(SetOnPlatform(false)))
    ensures k < |s.platforms| ==>
      var vy, y := FallVelocity(s.player, d), FallY(s.player, d);
      var r := LandScan(x, y, s.player.width, s.player.height, s.platforms[k + 1..], Abs(vy * 0.5));
      GravityBlock(s, x, d) ==
        (if r.landedOn.Some? then Vertical(r.landedOn.value.y, 0.0, Some(PlayerLand(r.landedOn.value.y)))
         else Vertical(y, Abs(vy * 0.5), Some(SetOnPlatform(false))))
  {
    var vy, y := FallVelocity(s.player, d), FallY(s.player, d);
    AirborneScan(s, x, d);
    RisingBouncesOnFirstUnderside(x, y, s.player.width, s.player.height, s.platforms, vy, k);
    if k < |s.platforms| {
      FallingLandsOnFirstMatch(x, y, s.player.width, s.player.height, s.platforms[k + 1..], Abs(vy * 0.5));
    }
  }

  /** The commands a plan dispatches before the move: the level advance,
      the landing report and the floor report, each when it happens. */
  function Prefix(t: TickPlan): seq<Action>
  {
    (if t.advance then [AdvanceLevel] else [])
    + (if t.landing.Some? then [t.landing.value] else [])
    + (if t.floored then [SetOnPlatform(true)] else [])
  }

  /** The commands of a plan, in dispatch order. */
  function Commands(t: TickPlan): seq<Action>
  {
    Prefix(t) + [PlayerMoveWithVelocity(t.x, t.y, t.vx, t.vy), UpdateProjectiles, UpdatePlayer(t.energy)]
  }

  function TickCommands(s: GameState, dt: real): seq<Action>
  {
    Commands(Plan(s, dt))
  }

  /** Commands the tick dispatches besides `ADVANCE_LEVEL`. */
  predicate TickStep(a: Action)
  {
    a.PlayerLand? || a.SetOnPlatform? || a.PlayerMoveWithVelocity? || a.UpdateProjectiles? || a.UpdatePlayer?
  }

  /** The fixed order: an optional `ADVANCE_LEVEL` first, then at most two
      landing and floor commands, then the move, the projectile step and the
      energy update. */
  lemma CommandOrder(t: TickPlan)
    requires t.landing.Some? ==> t.landing.value.PlayerLand? || t.landing.value == SetOnPlatform(false)
    ensures var cmds := Commands(t);
      var n := |cmds|;
      && 3 <= n <= 6
      && (t.advance ==> cmds[0] == AdvanceLevel)
      && (forall i :: (if t.advance then 1 else 0) <= i < n ==> TickStep(cmds[i]))
      && cmds[n - 3] == PlayerMoveWithVelocity(t.x, t.y, t.vx, t.vy)
      && cmds[n - 2] == UpdateProjectiles && cmds[n - 1] == UpdatePlayer(t.energy)
  {
    var adv: seq<Action> := if t.advance then [AdvanceLevel] else [];
    var landing: seq<Action> := if t.landing.Some? then [t.landing.value] else [];
    var floor: seq<Action> := if t.floored then [SetOnPlatform(true)] else [];
    var tail := [PlayerMoveWithVelocity(t.x, t.y, t.vx, t.vy), UpdateProjectiles, UpdatePlayer(t.energy)];
    var rest := landing + floor + tail;
    assert Commands(t) == adv + rest;
    forall i | 0 <= i < |rest|
      ensures TickStep(rest[i])
    {
      if i < |landing| {
        assert rest[i] == t.landing.value;
      } else if i < |landing| + |floor| {
        assert rest[i] == SetOnPlatform(true);
      } else {
        assert rest[i] == tail[i - |landing| - |floor|];
      }
    }
  }

  /** `ADVANCE_LEVEL` is dispatched exactly when the plan advances, and
      `SET_ON_PLATFORM(true)` exactly when the floor was reached. */
  lemma CommandReports(t: TickPlan)
    requires t.landing.Some? ==> t.landing.value.PlayerLand? || t.landing.value == SetOnPlatform(false)
    ensures AdvanceLevel in Commands(t) <==> t.advance
    ensures SetOnPlatform(true) in Commands(t) <==> t.floored
  {
    var mid: seq<Action> := (if t.landing.Some? then [t.landing.value] else [])
                            + (if t.floored then [SetOnPlatform(true)] else []);
    var tail := [PlayerMoveWithVelocity(t.x, t.y, t.vx, t.vy), UpdateProjectiles, UpdatePlayer(t.energy)];
    assert Commands(t) == (if t.advance then [AdvanceLevel] else []) + (mid + tail);
    assert AdvanceLevel !in mid + tail;
    assert SetOnPlatform(true) in mid + tail <==> t.floored;
  }

  // ---------------------------------------------------------------------
  // The imperative tick

  /** The horizontal part of `updateGameState`: the base speed from
      ducking and the element, the velocity from the movement flags, one
      step of it, and the clamp to the world's bounds. */
  method MoveHorizontally(p: Player, cappedDelta: real) returns (playerX: real, velocityX: real)
    ensures playerX == MovedX(p, cappedDelta) && velocityX == HorizontalVelocity(p)
  {
    var playerWidth := p.width;
    playerX := p.x;
    var baseSpeed := if p.isDucking then 3.0 else 5.0;
    match p.currentElement {
      case Air => baseSpeed := baseSpeed * 1.3;
      case Earth => baseSpeed := baseSpeed * 0.85;
      case _ =>
    }
    if p.isMovingLeft && !p.isMovingRight {
      velocityX := -baseSpeed;
    } else if p.isMovingRight && !p.isMovingLeft {
      velocityX := baseSpeed;
    } else {
      velocityX := 0.0;
    }
    var moveStep := velocityX * StepsPerSecond * cappedDelta;
    playerX := playerX + moveStep;
    playerX := Max(playerWidth / 2.0, Min(WorldWidth - playerWidth / 2.0, playerX));
  }

  /** The gravity block of `updateGameState` for an airborne player at
      `playerX`: gravity, one step of fall, the platform loop with its
      `break`, and the landing command it dispatches. */
  method FallAndLand(s: GameState, playerX: real, cappedDelta: real)
      returns (playerY: real, velocityY: real, landing: Action)
    requires Airborne(s.player)
    ensures Vertical(playerY, velocityY, Some(landing)) == GravityBlock(s, playerX, cappedDelta)
  {
    var gravity := 0.98 * StepsPerSecond * cappedDelta;
    var playerWidth := s.player.width;
    var playerHeight := s.player.height;
    velocityY := s.player.velocityY + gravity;
    playerY := s.player.y + velocityY * cappedDelta * StepsPerSecond;
    assert velocityY == FallVelocity(s.player, cappedDelta) && playerY == FallY(s.player, cappedDelta);
    ghost var scan := LandScan(playerX, playerY, playerWidth, playerHeight, s.platforms, velocityY);
    ghost var fallY := playerY;
    var landed := false;
    var platformLandedOn := Ground;
    for i := 0 to |s.platforms|
      invariant !landed && playerY == fallY
      invariant LandScan(playerX, playerY, playerWidth, playerHeight, s.platforms[i..], velocityY) == scan
    {
      var platform := s.platforms[i];
      assert s.platforms[i..][1..] == s.platforms[i + 1..];
      if StandingOn(playerX, playerY, playerWidth, playerHeight, platform, velocityY) {
        if !platform.canPassThrough || velocityY > 0.0 {
          playerY := platform.y;
          velocityY := 0.0;
          landed := true;
          platformLandedOn := platform;
          break;
        }
      } else if HittingBottom(playerX, playerY, playerWidth, playerHeight, platform, velocityY) {
        velocityY := Abs(velocityY * 0.5);
      }
    }
    if landed {
      landing := PlayerLand(platformLandedOn.y);
    } else {
      landing := SetOnPlatform(false);
    }
  }

  /** `updateGameState`: local copies of the player's position and velocity
      are updated step by step, the platform loop breaks on the first
      landing, and each dispatch appends a command. */
  method UpdateGameState(s: GameState, deltaTime: real) returns (commands: seq<Action>)
    ensures commands == TickCommands(s, deltaTime)
  {
    var cappedDelta := Min(deltaTime, MaxDelta);
    var playerX, velocityX := MoveHorizontally(s.player, cappedDelta);
    var playerY := s.player.y;
    var velocityY := s.player.velocityY;

    commands := [];
    if s.isTutorialLevel && playerX > TutorialExit {
      commands := commands + [AdvanceLevel];
    }

    ghost var landing: Option<Action> := None;
    if s.player.isJumping || !s.player.onPlatform {
      var land;
      playerY, velocityY, land := FallAndLand(s, playerX, cappedDelta);
      commands := commands + [land];
      landing := Some(land);
    }
    ghost var v := GravityBlock(s, playerX, cappedDelta);
    assert Vertical(playerY, velocityY, landing) == v;

    playerY := Min(WorldFloor, playerY);
    if playerY >= WorldFloor {
      velocityY := 0.0;
      playerY := WorldFloor;
      commands := commands + [SetOnPlatform(true)];
    }
    assert Vertical(playerY, velocityY, landing) == FloorClamp(v);
    ghost var t := Plan(s, deltaTime);
    assert t.x == playerX && t.vx == velocityX && t.y == playerY && t.vy == velocityY;
    assert commands == Prefix(t);

    var energyRegen: real;
    match s.player.currentElement {
      case Fire => energyRegen := 0.1;
      case Water => energyRegen := 0.075;
      case Earth => energyRegen := 0.05;
      case Air => energyRegen := 0.08;
      case _ => energyRegen := 0.07;
    }
    assert energyRegen == EnergyRegen(s.player.currentElement);
    var newEnergy := Min(s.player.maxEnergy, s.player.energy + energyRegen);
    assert newEnergy == t.energy;
    commands := commands + [PlayerMoveWithVelocity(playerX, playerY, velocityX, velocityY),
                            UpdateProjectiles, UpdatePlayer(newEnergy)];
  }

  // ---------------------------------------------------------------------
  // The tick's effect on the store

  /** The store after one tick: the commands folded through the reducer. */
  function Tick(s: GameState, dt: real): GameState
  {
    ReduceAll(s, TickCommands(s, dt))
  }

  /** A single command folded is the reducer applied once. */
  lemma ReduceAllOne(s: GameState, a: Action)
    ensures ReduceAll(s, [a]) == Reduce(s, a)
  {
    assert [a][1..] == [];
  }

  /** The commands that follow the advance keep the level, the world, the
      player's energy, health and horizontal velocity, and the play flags:
      the move discards its `velocityX` and `UPDATE_PLAYER` has no case. */
  lemma TickStepKeeps(s: GameState, a: Action)
    requires TickStep(a)
    ensures var r := Reduce(s, a);
      && r.level == s.level && r.isTutorialLevel == s.isTutorialLevel
      && r.platforms == s.platforms && r.worldSeed == s.worldSeed
      && r.isPlaying == s.isPlaying && r.isPaused == s.isPaused && r.gameOver == s.gameOver
      && r.player.energy == s.player.energy && r.player.health == s.player.health
      && r.player.velocityX == s.player.velocityX
  {
    match a
    case PlayerLand(_) =>
    case SetOnPlatform(_) =>
    case PlayerMoveWithVelocity(_, _, _, _) =>
    case UpdateProjectiles =>
    case UpdatePlayer(_) =>
  }

  /** ... and so does any sequence of them. */
  lemma {:induction false} TickStepsKeep(s: GameState, cmds: seq<Action>)
    requires forall i :: 0 <= i < |cmds| ==> TickStep(cmds[i])
    ensures var r := ReduceAll(s, cmds);
      && r.level == s.level && r.isTutorialLevel == s.isTutorialLevel
      && r.platforms == s.platforms && r.worldSeed == s.worldSeed
      && r.isPlaying == s.isPlaying && r.isPaused == s.isPaused && r.gameOver == s.gameOver
      && r.player.energy == s.player.energy && r.player.health == s.player.health
      && r.player.velocityX == s.player.velocityX
    decreases |cmds|
  {
    if cmds != [] {
      TickStepKeeps(s, cmds[0]);
      TickStepsKeep(Reduce(s, cmds[0]), cmds[1..]);
    }
  }

  /** What `ADVANCE_LEVEL` resets, as the tick sees it. */
  lemma AdvanceResets(s: GameState)
    ensures var r := Reduce(s, AdvanceLevel);
      && r.level == s.level + 1 && !r.isTutorialLevel
      && r.player.energy == Min(s.player.maxEnergy, s.player.energy + 50.0)
      && r.player.velocityX == 0.0
      && r.isPlaying == s.isPlaying && r.isPaused == s.isPaused && r.gameOver == s.gameOver
  {
  }

  /** The gravity block only ever reports a landing or its absence. */
  lemma PlanLandingIsReport(s: GameState, dt: real)
    ensures var t := Plan(s, dt);
      t.landing.Some? ==> t.landing.value.PlayerLand? || t.landing.value == SetOnPlatform(false)
  {
  }

  /** What folding a plan's commands does to the level and to what the
      advance resets: with an advance the next level is entered; without
      one the level, the player's energy and horizontal velocity stay as
      they were. */
  lemma PlanProgress(s: GameState, t: TickPlan)
    requires t.landing.Some? ==> t.landing.value.PlayerLand? || t.landing.value == SetOnPlatform(false)
    ensures var r := ReduceAll(s, Commands(t));
      && r.level == (if t.advance then s.level + 1 else s.level)
      && r.isTutorialLevel == (s.isTutorialLevel && !t.advance)
      && r.player.energy == (if t.advance then Min(s.player.maxEnergy, s.player.energy + 50.0) else s.player.energy)
      && r.player.velocityX == (if t.advance then 0.0 else s.player.velocityX)
      && r.isPlaying == s.isPlaying && r.isPaused == s.isPaused && r.gameOver == s.gameOver
  {
    CommandOrder(t);
    var cmds := Commands(t);
    if t.advance {
      var rest := cmds[1..];
      assert cmds == [AdvanceLevel] + rest;
      assert forall i :: 0 <= i < |rest| ==> TickStep(rest[i]);
      ReduceAllCons(s, AdvanceLevel, rest);
      AdvanceResets(s);
      TickStepsKeep(Reduce(s, AdvanceLevel), rest);
    } else {
      TickStepsKeep(s, cmds);
    }
  }

  /** One tick: past 600 on the tutorial level the next level is entered;
      otherwise the level, the player's energy and horizontal velocity stay
      as they were, so the energy the tick computes for `UPDATE_PLAYER` is
      never stored. */
  lemma TickProgress(s: GameState, dt: real)
    ensures var t := Plan(s, dt);
      var r := Tick(s, dt);
      && r.level == (if t.advance then s.level + 1 else s.level)
      && r.isTutorialLevel == (s.isTutorialLevel && !t.advance)
      && r.player.energy == (if t.advance then Min(s.player.maxEnergy, s.player.energy + 50.0) else s.player.energy)
      && r.player.velocityX == (if t.advance then 0.0 else s.player.velocityX)
      && r.isPlaying == s.isPlaying && r.isPaused == s.isPaused && r.gameOver == s.gameOver
  {
    PlanLandingIsReport(s, dt);
    PlanProgress(s, Plan(s, dt));
  }

  /** Folding a command list is one reducer step followed by the rest. */
  lemma ReduceAllCons(s: GameState, a: Action, rest: seq<Action>)
    ensures ReduceAll(s, [a] + rest) == ReduceAll(Reduce(s, a), rest)
  {
    assert ([a] + rest)[1..] == rest;
  }

  /** The move command sets the position and the vertical velocity only. */
  lemma MoveSetsPosition(m: GameState, x: real, y: real, vx: real, vy: real)
    ensures Reduce(m, PlayerMoveWithVelocity(x, y, vx, vy)).player == m.player.(x := x, y := y, velocityY := vy)
  {
  }

  /** The projectile step leaves the player alone. */
  lemma ProjectilesKeepPlayer(m: GameState)
    ensures Reduce(m, UpdateProjectiles).player == m.player
  {
  }

  /** The projectile step and the ignored `UPDATE_PLAYER` leave the player
      alone. */
  lemma LastTwoKeepPlayer(m: GameState, e: real)
    ensures ReduceAll(m, [UpdateProjectiles, UpdatePlayer(e)]).player == m.player
  {
    ReduceAllCons(m, UpdateProjectiles, [UpdatePlayer(e)]);
    ProjectilesKeepPlayer(m);
    ReduceAllOne(Reduce(m, UpdateProjectiles), UpdatePlayer(e));
  }

  /** The last three commands put the player where the tick computed, keep
      the rest of the player, and ignore the energy sent by `UPDATE_PLAYER`. */
  lemma TailPlacesPlayer(m: GameState, x: real, y: real, vx: real, vy: real, e: real)
    ensures ReduceAll(m, [PlayerMoveWithVelocity(x, y, vx, vy), UpdateProjectiles, UpdatePlayer(e)]).player
         == m.player.(x := x, y := y, velocityY := vy)
  {
    ReduceAllCons(m, PlayerMoveWithVelocity(x, y, vx, vy), [UpdateProjectiles, UpdatePlayer(e)]);
    MoveSetsPosition(m, x, y, vx, vy);
    LastTwoKeepPlayer(Reduce(m, PlayerMoveWithVelocity(x, y, vx, vy)), e);
  }

  /** After a tick the player stands where the move command put it: the
      clamped `x`, and the `y` and vertical velocity of the gravity block
      after the floor clamp, whatever `PLAYER_LAND` set in between. */
  lemma PlanPlacesPlayer(s: GameState, t: TickPlan)
    ensures var r := ReduceAll(s, Commands(t)).player;
      r.x == t.x && r.y == t.y && r.velocityY == t.vy
  {
    var tail := [PlayerMoveWithVelocity(t.x, t.y, t.vx, t.vy), UpdateProjectiles, UpdatePlayer(t.energy)];
    ReduceAllAppend(s, Prefix(t), tail);
    TailPlacesPlayer(ReduceAll(s, Prefix(t)), t.x, t.y, t.vx, t.vy, t.energy);
  }

  /** After a tick the player stands where the move command put it, inside
      the world's horizontal bounds and not below its floor. */
  lemma TickPlacesPlayer(s: GameState, dt: real)
    ensures var t := Plan(s, dt);
      var r := Tick(s, dt).player;
      && r.x == t.x && r.y == t.y && r.velocityY == t.vy
      && s.player.width / 2.0 <= r.x
      && (s.player.width <= WorldWidth ==> r.x <= WorldWidth - s.player.width / 2.0)
      && r.y <= WorldFloor && (r.y == WorldFloor ==> r.velocityY == 0.0)
  {
    PlanPlacesPlayer(s, Plan(s, dt));
  }

  /** `PLAYER_LAND` puts the player's top edge on the platform (it reads
      `y` as the top), but the move command of the same tick then puts the
      bottom edge there (the tick reads `y` as the bottom): for a falling
      player landing above the floor, the stored `y` is the platform's top. */
  lemma LandingConventionsDisagree(s: GameState, dt: real, k: nat)
    requires Airborne(s.player) && FallVelocity(s.player, CappedDelta(dt)) >= 0.0
    requires k < |s.platforms| && s.platforms[k].y < WorldFloor
    requires Lands(Plan(s, dt).x, FallY(s.player, CappedDelta(dt)), s.player.width, s.player.height,
                   s.platforms[k], FallVelocity(s.player, CappedDelta(dt)))
    requires forall j :: 0 <= j < k ==> !Lands(Plan(s, dt).x, FallY(s.player, CappedDelta(dt)), s.player.width,
                                                s.player.height, s.platforms[j], FallVelocity(s.player, CappedDelta(dt)))
    ensures Plan(s, dt).landing == Some(PlayerLand(s.platforms[k].y))
    ensures Land(s, s.platforms[k].y).player.y == s.platforms[k].y - s.player.height
    ensures Tick(s, dt).player.y == s.platforms[k].y
  {
    var t := Plan(s, dt);
    var d := CappedDelta(dt);
    AirborneLandsOnFirstMatch(s, t.x, d);
    var v := GravityBlock(s, t.x, d);
    assert v.landing != Some(SetOnPlatform(false));
    var i :| 0 <= i < |s.platforms|
              && Lands(t.x, FallY(s.player, d), s.player.width, s.player.height, s.platforms[i], FallVelocity(s.player, d))
              && (forall j :: 0 <= j < i ==> !Lands(t.x, FallY(s.player, d), s.player.width, s.player.height, s.platforms[j], FallVelocity(s.player, d)))
              && v == Vertical(s.platforms[i].y, 0.0, Some(PlayerLand(s.platforms[i].y)));
    assert i == k by {
      if i < k {
        assert false;
      } else if k < i {
        assert false;
      }
    }
    TickPlacesPlayer(s, dt);
  }

  /** A tick keeps health and energy within their limits. */
  lemma TickKeepsBounded(s: GameState, dt: real)
    requires Bounded(s.player)
    ensures Bounded(Tick(s, dt).player)
  {
    ReduceAllKeepsBounded(s, TickCommands(s, dt));
  }

  /** The two tutorial exits disagree: a tick that moves a tutorial player
      to an `x` in (600, 800] advances the level, while the provider's rule,
      evaluated at that same position, does not fire. */
  lemma TutorialExitsDisagree(s: GameState, dt: real)
    requires s.isTutorialLevel && TutorialExit < Plan(s, dt).x <= 800.0
    ensures Tick(s, dt).level == s.level + 1 && !Tick(s, dt).isTutorialLevel
    ensures !AdvanceDue(s.(player := s.player.(x := Plan(s, dt).x)))
  {
    TickProgress(s, dt);
  }

  // ---------------------------------------------------------------------
  // The frame clock

  /** `a % b` of JavaScript for a non-negative `a` and a positive `b`. */
  function Remainder(a: real, b: real): (r: real)
    requires a >= 0.0 && b > 0.0
    ensures 0.0 <= r < b
    ensures a - r == b * ((a / b).Floor as real) && (a / b).Floor >= 0
  {
    var q := (a / b).Floor;
    FloorScales(a, b);
    a - b * q as real
  }

  lemma FloorScales(a: real, b: real)
    requires b > 0.0
    ensures b * ((a / b).Floor as real) <= a
    ensures a < b * ((a / b).Floor as real) + b
  {
    var x := a / b;
    var q := x.Floor as real;
    var below := x - q;
    var above := q + 1.0 - x;
    assert below >= 0.0 && above > 0.0;
    Positive(b, below);
    Positive(b, above);
    assert b * below + b * above == b;
    assert b * below == a - b * q;
    assert a < b * q + b;
  }

  /** The remainder is the one value in `[0, b)` that differs from `a` by a
      whole multiple of `b`. */
  lemma RemainderIsUnique(a: real, b: real, q: int)
    requires a >= 0.0 && b > 0.0
    requires 0.0 <= a - b * q as real < b
    ensures Remainder(a, b) == a - b * q as real
  {
    var x := a / b;
    var y := x - q as real;
    assert b * y == a - b * q as real;
    if y < 0.0 {
      Positive(b, -y);
    }
    if y >= 1.0 {
      Positive(b, y - 1.0);
    }
    assert x.Floor == q;
  }

  lemma Positive(b: real, y: real)
    requires b > 0.0
    ensures y >= 0.0 ==> b * y >= 0.0
    ensures y > 0.0 ==> b * y > 0.0
  {
  }

  /** The tick gate of `gameLoop`: a game that runs. */
  predicate Running(s: GameState)
  {
    s.isPlaying && !s.isPaused && !s.gameOver
  }

  /** The previous frame's time, the current one on the first frame. */
  function Previous(previousTime: Option<real>, time: real): real
  {
    if previousTime.Some? then previousTime.value else time
  }

  /** The commands one animation frame dispatches: a tick of the elapsed
      seconds when more than one frame interval has passed and the game
      runs, nothing otherwise. */
  function FrameCommands(previousTime: Option<real>, time: real, s: GameState): (cmds: seq<Action>)
    ensures cmds != [] <==> time - Previous(previousTime, time) > FrameInterval && Running(s)
    ensures previousTime.None? ==> cmds == []
    ensures cmds != [] ==> cmds == TickCommands(s, (time - Previous(previousTime, time)) / 1000.0)
  {
    var elapsed := time - Previous(previousTime, time);
    if elapsed > FrameInterval && Running(s) then
      CommandOrder(Plan(s, elapsed / 1000.0));
      TickCommands(s, elapsed / 1000.0)
    else []
  }

  /** `d` is a whole, non-negative number of frame intervals. */
  predicate WholeIntervals(d: real)
  {
    d >= 0.0 && (d / FrameInterval).Floor as real == d / FrameInterval
  }

  /** `previousTimeRef` after the frame: moved forward to the latest whole
      frame interval when an interval has passed, so it lags `time` by less
      than one interval. */
  function NextPrevious(previousTime: Option<real>, time: real): (p: real)
    ensures time - Previous(previousTime, time) > FrameInterval ==> time - FrameInterval < p <= time
    ensures time - Previous(previousTime, time) <= FrameInterval ==> p == Previous(previousTime, time)
    ensures WholeIntervals(p - Previous(previousTime, time))
  {
    var elapsed := time - Previous(previousTime, time);
    if elapsed > FrameInterval then time - Remainder(elapsed, FrameInterval)
    else Previous(previousTime, time)
  }

  /** `gameLoop`'s state: the time of the last frame that counted. */
  class FrameClock {
    var previousTime: Option<real>

    constructor()
      ensures previousTime == None
    {
      previousTime := None;
    }

    /** One animation frame at `time` over the snapshot `s` the loop holds. */
    method Frame(time: real, s: GameState) returns (commands: seq<Action>)
      modifies this
      ensures commands == FrameCommands(old(previousTime), time, s)
      ensures previousTime == Some(NextPrevious(old(previousTime), time))
    {
      if previousTime.None? {
        previousTime := Some(time);
      }
      var elapsed := time - previousTime.value;
      commands := [];
      if elapsed > FrameInterval {
        if s.isPlaying && !s.isPaused && !s.gameOver {
          commands := UpdateGameState(s, elapsed / 1000.0);
        }
        previousTime := Some(time - Remainder(elapsed, FrameInterval));
      }
    }
  }
}
