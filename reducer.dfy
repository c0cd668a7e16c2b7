/** `gameReducer`: the total transition function from a state and a command
    to the next state, case by case, and the level-advance rule of the
    provider's effect. No case consults `isPlaying`, `isPaused` or
    `gameOver`. */
module Reducer {
  import opened GameTypes
  import opened LevelGen
  import opened Combat

  // ---------------------------------------------------------------------
  // Lifecycle

  /** `START_GAME`: a fresh tutorial session seeded by the clock. */
  function Started(now: nat): (s: GameState)
    ensures s.isPlaying && !s.isPaused && !s.gameOver && s.score == 0.0
    ensures s.level == 1 && s.isTutorialLevel && s.worldSeed == now
    ensures s.platforms == [Ground] && s.enemies == [] && s.projectiles == []
    ensures s.player == InitialPlayer.(onPlatform := true) && Bounded(s.player)
  {
    InitialGameState(now).(
      isPlaying := true, platforms := [Ground], enemies := [], worldSeed := now,
      isTutorialLevel := true,
      player := InitialPlayer.(x := 100.0, y := 450.0, onPlatform := true))
  }

  /** `RESTART_GAME`, which also spells out score and level. */
  function Restarted(now: nat): GameState
  {
    InitialGameState(now).(
      isPlaying := true, score := 0.0, level := 1, platforms := [Ground], enemies := [],
      worldSeed := now, isTutorialLevel := true,
      player := InitialPlayer.(x := 100.0, y := 450.0, onPlatform := true))
  }

  /** Restarting and starting lead to the same state, whatever came before. */
  lemma RestartIsStart(now: nat)
    ensures Restarted(now) == Started(now)
  {
  }

  // ---------------------------------------------------------------------
  // Movement

  /** Walking speed before element modifiers. */
  function WalkSpeed(p: Player): real
  {
    if p.isDucking then 3.0 else 5.0
  }

  /** `PLAYER_MOVE_LEFT`. */
  function MoveLeft(s: GameState, moving: bool): (r: GameState)
    ensures r == s.(player := r.player)
    ensures r.player == s.player.(isMovingLeft := moving, velocityX := r.player.velocityX,
                                  facingDirection := r.player.facingDirection)
    ensures moving ==> r.player.facingDirection == Left && r.player.velocityX < 0.0
    ensures moving ==> r.player.velocityX == (if s.player.isDucking then -3.0 else -5.0)
    ensures !moving && s.player.isMovingRight ==> r.player.velocityX == (if s.player.isDucking then 3.0 else 5.0)
    ensures !moving ==> r.player == s.player.(isMovingLeft := false, velocityX := r.player.velocityX)
    ensures !moving && !s.player.isMovingRight ==> r.player.velocityX == 0.0
    ensures !moving && s.player.isMovingRight ==> r.player.velocityX > 0.0
  {
    var speed := WalkSpeed(s.player);
    var vx := if moving then -speed else if s.player.isMovingRight then speed else 0.0;
    var facing := if moving then Left else s.player.facingDirection;
    s.(player := s.player.(isMovingLeft := moving, velocityX := vx, facingDirection := facing))
  }

  /** `PLAYER_MOVE_RIGHT`. */
  function MoveRight(s: GameState, moving: bool): (r: GameState)
    ensures r == s.(player := r.player)
    ensures r.player == s.player.(isMovingRight := moving, velocityX := r.player.velocityX,
                                  facingDirection := r.player.facingDirection)
    ensures moving ==> r.player.facingDirection == Right && r.player.velocityX > 0.0
    ensures moving ==> r.player.velocityX == (if s.player.isDucking then 3.0 else 5.0)
    ensures !moving && s.player.isMovingLeft ==> r.player.velocityX == (if s.player.isDucking then -3.0 else -5.0)
    ensures !moving ==> r.player == s.player.(isMovingRight := false, velocityX := r.player.velocityX)
    ensures !moving && !s.player.isMovingLeft ==> r.player.velocityX == 0.0
    ensures !moving && s.player.isMovingLeft ==> r.player.velocityX < 0.0
  {
    var speed := WalkSpeed(s.player);
    var vx := if moving then speed else if s.player.isMovingLeft then -speed else 0.0;
    var facing := if moving then Right else s.player.facingDirection;
    s.(player := s.player.(isMovingRight := moving, velocityX := vx, facingDirection := facing))
  }

  /** Horizontal velocity while ducking: the sign kept, the speed 2. */
  function CrouchVelocity(vx: real): (v: real)
    ensures v != 0.0 ==> Abs(v) == 2.0
    ensures v > 0.0 <==> vx > 0.0
    ensures v < 0.0 <==> vx < 0.0
  {
    if vx > 0.0 then 2.0 else if vx < 0.0 then -2.0 else 0.0
  }

  /** Horizontal velocity on standing up: speed 5 from the movement flags,
      right first. */
  function StandVelocity(p: Player): (v: real)
    ensures v != 0.0 <==> p.isMovingRight || p.isMovingLeft
    ensures v != 0.0 ==> Abs(v) == 5.0
    ensures v > 0.0 <==> p.isMovingRight
  {
    if p.isMovingRight then 5.0 else if p.isMovingLeft then -5.0 else 0.0
  }

  /** `PLAYER_DUCK`: a ducking player is 30 tall, a standing one 50. */
  function Duck(s: GameState, ducking: bool): (r: GameState)
    ensures r == s.(player := r.player)
    ensures r.player == s.player.(isDucking := ducking, height := r.player.height, velocityX := r.player.velocityX)
    ensures r.player.height == if ducking then 30.0 else 50.0
    ensures r.player.velocityX == if ducking then CrouchVelocity(s.player.velocityX) else StandVelocity(s.player)
  {
    s.(player := s.player.(
      isDucking := ducking,
      height := if ducking then 30.0 else 50.0,
      velocityX := if ducking then CrouchVelocity(s.player.velocityX) else StandVelocity(s.player)))
  }

  /** Take-off velocity by element (negative is up). */
  function JumpVelocity(e: Element): (v: real)
    ensures -18.0 <= v <= -14.0
  {
    match e
    case Air => -17.0
    case Earth => -18.0
    case Fire => -16.0
    case Water => -14.0
    case Spirit => -15.0
  }

  /** `PLAYER_JUMP`: honoured only from a platform when not already jumping. */
  function Jump(s: GameState): (r: GameState)
    ensures s.player.isJumping || !s.player.onPlatform ==> r == s
    ensures !s.player.isJumping && s.player.onPlatform ==>
      r == s.(player := s.player.(isJumping := true, onPlatform := false,
                                  velocityY := JumpVelocity(s.player.currentElement)))
  {
    if s.player.isJumping || !s.player.onPlatform then s
    else s.(player := s.player.(isJumping := true, onPlatform := false,
                                velocityY := JumpVelocity(s.player.currentElement)))
  }

  /** No double jump: a second jump right after the first changes nothing. */
  lemma JumpIsIdempotent(s: GameState)
    ensures Jump(Jump(s)) == Jump(s)
    ensures Jump(s).player.isJumping ==> !Jump(s).player.onPlatform || Jump(s) == s
  {
  }

  /** `PLAYER_LAND`: the player's `y` becomes the platform's top minus the
      player's height. */
  function Land(s: GameState, platformY: real): (r: GameState)
    ensures r == s.(player := s.player.(isJumping := false, velocityY := 0.0,
                                        y := r.player.y, onPlatform := true))
    ensures r.player.y + s.player.height == platformY
  {
    s.(player := s.player.(isJumping := false, velocityY := 0.0,
                           y := platformY - s.player.height, onPlatform := true))
  }

  /** `UPDATE_AIM_DIRECTION`: a non-negative x aims right. */
  function Aim(s: GameState, x: real, y: real): (r: GameState)
    ensures r == s.(player := s.player.(aimDirectionX := x, aimDirectionY := y,
                                        facingDirection := r.player.facingDirection))
    ensures r.player.facingDirection == Right <==> x >= 0.0
  {
    s.(player := s.player.(aimDirectionX := x, aimDirectionY := y,
                           facingDirection := if x >= 0.0 then Right else Left))
  }

  // ---------------------------------------------------------------------
  // Shooting

  const ProjectileSpeed: real := 12.0
  const ShotCost: real := 10.0

  /** `aimLength > 0.1`, squared to avoid the square root. */
  predicate AimIsLong(p: Player)
  {
    p.aimDirectionX * p.aimDirectionX + p.aimDirectionY * p.aimDirectionY > 0.01
  }

  /** The projectile a successful shot spawns. `(ux, uy)` is the aim vector
      divided by its length, used only when the aim is long enough; a short
      aim shoots straight ahead in the facing direction. */
  function NewShot(p: Player, id: int, ux: real, uy: real): (q: Projectile)
    ensures q.id == id && q.active && q.element == p.currentElement
    ensures q.damage == ShotDamage(p.currentElement)
    ensures q.width == ShotSize(p.currentElement) && q.height == ShotSize(p.currentElement)
    ensures !AimIsLong(p) ==> q.velocityY == 0.0 && q.velocityX == (if p.facingDirection == Right then 12.0 else -12.0)
    ensures AimIsLong(p) ==> q.velocityX == ux * ProjectileSpeed && q.velocityY == uy * ProjectileSpeed
    ensures q.y == p.y - p.height / 2.0
    ensures AimIsLong(p) ==> q.x == p.x + ux * p.width / 2.0
    ensures !AimIsLong(p) ==> q.x == p.x + (if p.facingDirection == Right then 1.0 else -1.0) * p.width / 2.0
    ensures q.x - p.x == q.velocityX / ProjectileSpeed * (p.width / 2.0)
  {
    var nx := if AimIsLong(p) then ux else if p.facingDirection == Right then 1.0 else -1.0;
    var ny := if AimIsLong(p) then uy else 0.0;
    Projectile(id, p.x + nx * p.width / 2.0, p.y - p.height / 2.0,
               nx * ProjectileSpeed, ny * ProjectileSpeed,
               p.currentElement, ShotDamage(p.currentElement),
               ShotSize(p.currentElement), ShotSize(p.currentElement), true)
  }

  /** A shot is refused during the cooldown or below 10 energy. */
  predicate ShotRefused(p: Player, now: int)
  {
    now - p.lastShootTime < p.shootCooldown || p.energy < ShotCost
  }

  /** `PLAYER_SHOOT`. */
  function Shoot(s: GameState, now: int, ux: real, uy: real): (r: GameState)
    ensures ShotRefused(s.player, now) ==> r == s
    ensures !ShotRefused(s.player, now) ==>
      && r.projectiles == s.projectiles + [NewShot(s.player, s.nextProjectileId, ux, uy)]
      && r.nextProjectileId == s.nextProjectileId + 1
      && r.player == s.player.(lastShootTime := now, energy := s.player.energy - ShotCost)
      && r == s.(player := r.player, projectiles := r.projectiles, nextProjectileId := r.nextProjectileId)
  {
    if ShotRefused(s.player, now) then s
    else
      s.(player := s.player.(lastShootTime := now, energy := s.player.energy - ShotCost),
         projectiles := s.projectiles + [NewShot(s.player, s.nextProjectileId, ux, uy)],
         nextProjectileId := s.nextProjectileId + 1)
  }

  /** Two shots less than a cooldown apart spawn at most one projectile,
      and a successful shot keeps the energy non-negative. */
  lemma CooldownAllowsOneShot(s: GameState, t1: int, t2: int, ux: real, uy: real)
    requires t1 <= t2 < t1 + s.player.shootCooldown
    ensures |Shoot(Shoot(s, t1, ux, uy), t2, ux, uy).projectiles| <= |s.projectiles| + 1
  {
    var s1 := Shoot(s, t1, ux, uy);
    if !ShotRefused(s.player, t1) {
      assert ShotRefused(s1.player, t2);
    }
  }

  // ---------------------------------------------------------------------
  // Health, energy, score

  /** `UPDATE_HEALTH`: the payload clamped to `[0, maxHealth]`; a payload of
      0 or less ends the game, any other clears `gameOver`. */
  function SetHealth(s: GameState, v: real): (r: GameState)
    ensures r == s.(gameOver := r.gameOver, player := s.player.(health := r.player.health))
    ensures s.player.maxHealth >= 0.0 ==> 0.0 <= r.player.health <= s.player.maxHealth
    ensures 0.0 <= v <= s.player.maxHealth ==> r.player.health == v
    ensures 0.0 <= s.player.maxHealth <= v ==> r.player.health == s.player.maxHealth
    ensures v <= 0.0 ==> r.player.health == 0.0
    ensures r.gameOver <==> v <= 0.0
  {
    s.(player := s.player.(health := Max(0.0, Min(s.player.maxHealth, v))), gameOver := v <= 0.0)
  }

  /** `UPDATE_ENERGY`: the payload clamped to `[0, maxEnergy]`. */
  function SetEnergy(s: GameState, v: real): (r: GameState)
    ensures r == s.(player := s.player.(energy := r.player.energy))
    ensures s.player.maxEnergy >= 0.0 ==> 0.0 <= r.player.energy <= s.player.maxEnergy
    ensures 0.0 <= v <= s.player.maxEnergy ==> r.player.energy == v
    ensures 0.0 <= s.player.maxEnergy <= v ==> r.player.energy == s.player.maxEnergy
    ensures v <= 0.0 ==> r.player.energy == 0.0
  {
    s.(player := s.player.(energy := Max(0.0, Min(s.player.maxEnergy, v))))
  }

  // ---------------------------------------------------------------------
  // Projectiles and enemies

  const PointsPerEnemy: real := 10.0

  /** `UPDATE_PROJECTILES`: projectiles advance and the spent ones go;
      enemies already at health 0 or below are removed and scored. The
      damage a hit computes stays in the callback's local copy. */
  function ProjectileTick(s: GameState): (r: GameState)
    ensures r == s.(projectiles := r.projectiles, enemies := r.enemies, score := r.score)
    ensures r.projectiles == AdvanceProjectiles(s.projectiles, s.enemies, s.platforms)
    ensures r.score == s.score + PointsPerEnemy * Fallen(s.enemies) as real
    ensures forall e :: e in r.enemies <==> e in s.enemies && e.health > 0.0
    ensures r.enemies == Survivors(s.enemies)
  {
    var remaining := Survivors(s.enemies);
    SurvivorsCount(s.enemies);
    s.(projectiles := AdvanceProjectiles(s.projectiles, s.enemies, s.platforms),
       enemies := remaining,
       score := s.score + (|s.enemies| - |remaining|) as real * PointsPerEnemy)
  }

  /** `REMOVE_PROJECTILE`. */
  function DropProjectile(s: GameState, id: int): (r: GameState)
    ensures r == s.(projectiles := r.projectiles)
    ensures forall q :: q in r.projectiles <==> q in s.projectiles && q.id != id
    ensures r.projectiles == Without(s.projectiles, id)
  {
    s.(projectiles := Without(s.projectiles, id))
  }

  function Without(ps: seq<Projectile>, id: int): (r: seq<Projectile>)
    ensures |r| <= |ps| && multiset(r) <= multiset(ps)
    ensures forall q :: q in r <==> q in ps && q.id != id
  {
    if ps == [] then []
    else
      assert ps == [ps[0]] + ps[1..];
      (if ps[0].id != id then [ps[0]] else []) + Without(ps[1..], id)
  }

  /** The id filter keeps the order of what it keeps. */
  lemma {:induction false} WithoutAppend(xs: seq<Projectile>, ys: seq<Projectile>, id: int)
    ensures Without(xs + ys, id) == Without(xs, id) + Without(ys, id)
    decreases |xs|
  {
    if xs == [] {
      assert xs + ys == ys;
    } else {
      assert (xs + ys)[0] == xs[0];
      assert (xs + ys)[1..] == xs[1..] + ys;
      WithoutAppend(xs[1..], ys, id);
    }
  }

  /** Every enemy with the given id replaced by `e`. */
  function ReplaceById(es: seq<Enemy>, e: Enemy): (r: seq<Enemy>)
    ensures |r| == |es|
    ensures forall k :: 0 <= k < |es| ==> r[k] == if es[k].id == e.id then e else es[k]
  {
    seq(|es|, k requires 0 <= k < |es| => if es[k].id == e.id then e else es[k])
  }

  /** Every enemy with the given id loses `damage` health, floored at 0. */
  function DamageById(es: seq<Enemy>, id: int, damage: real): (r: seq<Enemy>)
    ensures |r| == |es|
    ensures forall k :: 0 <= k < |es| && es[k].id != id ==> r[k] == es[k]
    ensures forall k :: 0 <= k < |es| && es[k].id == id ==>
      r[k] == es[k].(health := Max(0.0, es[k].health - damage))
  {
    seq(|es|, k requires 0 <= k < |es| =>
      if es[k].id == id then es[k].(health := Max(0.0, es[k].health - damage)) else es[k])
  }

  function EnemiesWithout(es: seq<Enemy>, id: int): (r: seq<Enemy>)
    ensures |r| <= |es| && multiset(r) <= multiset(es)
    ensures forall e :: e in r <==> e in es && e.id != id
  {
    if es == [] then []
    else
      assert es == [es[0]] + es[1..];
      (if es[0].id != id then [es[0]] else []) + EnemiesWithout(es[1..], id)
  }

  /** The enemy id filter keeps the order of what it keeps. */
  lemma {:induction false} EnemiesWithoutAppend(xs: seq<Enemy>, ys: seq<Enemy>, id: int)
    ensures EnemiesWithout(xs + ys, id) == EnemiesWithout(xs, id) + EnemiesWithout(ys, id)
    decreases |xs|
  {
    if xs == [] {
      assert xs + ys == ys;
    } else {
      assert (xs + ys)[0] == xs[0];
      assert (xs + ys)[1..] == xs[1..] + ys;
      EnemiesWithoutAppend(xs[1..], ys, id);
    }
  }

  /** `DAMAGE_ENEMY`: damage by id, then every enemy at health 0 or below
      (not only the one hit) is removed and scored. */
  function HurtEnemy(s: GameState, id: int, damage: real): (r: GameState)
    ensures r == s.(enemies := r.enemies, score := r.score)
    ensures forall e :: e in r.enemies <==> e in DamageById(s.enemies, id, damage) && e.health > 0.0
    ensures r.enemies == Survivors(DamageById(s.enemies, id, damage))
    ensures r.score == s.score + PointsPerEnemy * Fallen(DamageById(s.enemies, id, damage)) as real
  {
    var updated := DamageById(s.enemies, id, damage);
    var remaining := Survivors(updated);
    SurvivorsCount(updated);
    s.(enemies := remaining, score := s.score + (|s.enemies| - |remaining|) as real * PointsPerEnemy)
  }

  // ---------------------------------------------------------------------
  // Levels

  /** `ADVANCE_LEVEL`: the next level is drawn from `worldSeed + level`;
      the player is put back at (100, 300) at rest with a health and energy
      bonus; projectiles are cleared. */
  function NextLevel(s: GameState): (r: GameState)
    ensures r.level == s.level + 1 && !r.isTutorialLevel && r.projectiles == [] && r.levelProgress == 0.0
    ensures Level(r.platforms, r.enemies) == DrawLevel(s.level + 1, s.worldSeed)
    ensures r.player == s.player.(x := 100.0, y := 300.0, velocityX := 0.0, velocityY := 0.0, onPlatform := true,
                                  health := r.player.health, energy := r.player.energy)
    ensures r.player.health == Min(s.player.maxHealth, s.player.health + 20.0)
    ensures r.player.energy == Min(s.player.maxEnergy, s.player.energy + 50.0)
    ensures r == s.(level := r.level, platforms := r.platforms, enemies := r.enemies, player := r.player,
                    projectiles := [], levelProgress := 0.0, isTutorialLevel := false)
  {
    var next := DrawLevel(s.level + 1, s.worldSeed);
    s.(level := s.level + 1, platforms := next.platforms, enemies := next.enemies,
       player := s.player.(x := 100.0, y := 300.0, velocityX := 0.0, velocityY := 0.0, onPlatform := true,
                           health := Min(s.player.maxHealth, s.player.health + 20.0),
                           energy := Min(s.player.maxEnergy, s.player.energy + 50.0)),
       projectiles := [], levelProgress := 0.0, isTutorialLevel := false)
  }

  /** The level `ADVANCE_LEVEL` enters, from any level but the one before
      the tutorial, has the shape of a generated level. */
  lemma NextLevelLayout(s: GameState)
    requires s.level >= 1
    ensures LevelShape(s.level + 1, Level(NextLevel(s).platforms, NextLevel(s).enemies))
  {
    var r := NextLevel(s);
    assert Level(r.platforms, r.enemies) == DrawLevel(s.level + 1, s.worldSeed);
    DrawLevelShape(s.level + 1, s.worldSeed);
  }

  /** Each enemy of the level entered stands on its own floating platform. */
  lemma NextLevelRoster(s: GameState)
    requires s.level >= 1
    ensures var r := NextLevel(s);
      exists origins :: RosterShape(s.level + 1, r.platforms, Roster(r.enemies, origins))
  {
    var r := NextLevel(s);
    var l := DrawLevel(s.level + 1, s.worldSeed);
    assert r.platforms == l.platforms && r.enemies == l.enemies;
    DrawLevelRoster(s.level + 1, s.worldSeed);
  }

  /** `GENERATE_LEVEL`: the current level drawn again from its seed. */
  function RegenerateLevel(s: GameState): (r: GameState)
    ensures r == s.(platforms := r.platforms, enemies := r.enemies)
    ensures Level(r.platforms, r.enemies) == DrawLevel(s.level, s.worldSeed)
  {
    var current := DrawLevel(s.level, s.worldSeed);
    s.(platforms := current.platforms, enemies := current.enemies)
  }

  // ---------------------------------------------------------------------
  // The reducer

  function Reduce(s: GameState, a: Action): GameState
  {
    match a
    case StartGame(now) => Started(now)
    case PauseGame => s.(isPaused := true)
    case ResumeGame => s.(isPaused := false)
    case EndGame(bootSeed) => InitialGameState(bootSeed)
    case RestartGame(now) => Restarted(now)
    case GameOver => s.(gameOver := true)
    case PlayerMove(x, y) => s.(player := s.player.(x := x, y := y))
    case PlayerMoveWithVelocity(x, y, _, vy) => s.(player := s.player.(x := x, y := y, velocityY := vy))
    case UpdateVelocityY(vy) => s.(player := s.player.(velocityY := vy))
    case PlayerMoveLeft(moving) => MoveLeft(s, moving)
    case PlayerMoveRight(moving) => MoveRight(s, moving)
    case PlayerDuck(ducking) => Duck(s, ducking)
    case PlayerJump => Jump(s)
    case PlayerLand(platformY) => Land(s, platformY)
    case SetOnPlatform(on) => s.(player := s.player.(onPlatform := on))
    case UpdateAimDirection(x, y) => Aim(s, x, y)
    case PlayerShoot(now, ux, uy) => Shoot(s, now, ux, uy)
    case UpdateProjectiles => ProjectileTick(s)
    case RemoveProjectile(id) => DropProjectile(s, id)
    case ChangeElement(e) => s.(player := s.player.(currentElement := e))
    case SetPlatforms(ps) => s.(platforms := ps)
    case UpdateHealth(v) => SetHealth(s, v)
    case UpdateEnemies(es) => s.(enemies := es)
    case UpdateEnemy(e) => s.(enemies := ReplaceById(s.enemies, e))
    case UpdateEnergy(v) => SetEnergy(s, v)
    case UpdateScore(v) => s.(score := s.score + v)
    case AdvanceLevel => NextLevel(s)
    case GenerateLevel => RegenerateLevel(s)
    case AddEnemy(e) => s.(enemies := s.enemies + [e])
    case DamageEnemy(id, damage) => HurtEnemy(s, id, damage)
    case RemoveEnemy(id) => s.(enemies := EnemiesWithout(s.enemies, id))
    case UpdatePlayer(_) => s
  }

  /** Commands applied one after another, each to the result of the last. */
  function ReduceAll(s: GameState, actions: seq<Action>): GameState
    decreases |actions|
  {
    if actions == [] then s else ReduceAll(Reduce(s, actions[0]), actions[1..])
  }

  lemma {:induction false} ReduceAllAppend(s: GameState, xs: seq<Action>, ys: seq<Action>)
    ensures ReduceAll(s, xs + ys) == ReduceAll(ReduceAll(s, xs), ys)
    decreases |xs|
  {
    if xs == [] {
      assert xs + ys == ys;
    } else {
      assert (xs + ys)[0] == xs[0];
      assert (xs + ys)[1..] == xs[1..] + ys;
      ReduceAllAppend(Reduce(s, xs[0]), xs[1..], ys);
    }
  }

  // The reducer's case analysis is large, so the facts that hold for every
  // command are proved a few commands at a time and then put together.

  /** The five lifecycle commands, the only ones that set the play flags. */
  predicate IsLifecycle(a: Action)
  {
    a.StartGame? || a.PauseGame? || a.ResumeGame? || a.EndGame? || a.RestartGame?
  }

  lemma LifecycleKeepsBounded(s: GameState, a: Action)
    requires IsLifecycle(a) && Bounded(s.player)
    ensures Bounded(Reduce(s, a).player)
  {
  }

  lemma PositionKeeps(s: GameState, a: Action)
    requires a.PlayerMove? || a.PlayerMoveWithVelocity? || a.UpdateVelocityY? || a.SetOnPlatform?
    ensures Reduce(s, a).isPlaying == s.isPlaying && Reduce(s, a).isPaused == s.isPaused
    ensures Bounded(s.player) ==> Bounded(Reduce(s, a).player)
  {
  }

  lemma WalkKeeps(s: GameState, a: Action)
    requires a.PlayerMoveLeft? || a.PlayerMoveRight? || a.PlayerDuck?
    ensures Reduce(s, a).isPlaying == s.isPlaying && Reduce(s, a).isPaused == s.isPaused
    ensures Bounded(s.player) ==> Bounded(Reduce(s, a).player)
  {
  }

  lemma StanceKeeps(s: GameState, a: Action)
    requires a.PlayerJump? || a.PlayerLand? || a.UpdateAimDirection? || a.ChangeElement?
    ensures Reduce(s, a).isPlaying == s.isPlaying && Reduce(s, a).isPaused == s.isPaused
    ensures Bounded(s.player) ==> Bounded(Reduce(s, a).player)
  {
  }

  lemma ShotKeeps(s: GameState, a: Action)
    requires a.PlayerShoot? || a.UpdateProjectiles? || a.RemoveProjectile?
    ensures Reduce(s, a).isPlaying == s.isPlaying && Reduce(s, a).isPaused == s.isPaused
    ensures Bounded(s.player) ==> Bounded(Reduce(s, a).player)
  {
  }

  lemma VitalsKeep(s: GameState, a: Action)
    requires a.UpdateHealth? || a.UpdateEnergy? || a.UpdateScore?
    ensures Reduce(s, a).isPlaying == s.isPlaying && Reduce(s, a).isPaused == s.isPaused
    ensures Bounded(s.player) ==> Bounded(Reduce(s, a).player)
  {
  }

  lemma RosterKeeps(s: GameState, a: Action)
    requires a.UpdateEnemies? || a.UpdateEnemy? || a.AddEnemy?
    ensures Reduce(s, a).isPlaying == s.isPlaying && Reduce(s, a).isPaused == s.isPaused
    ensures Bounded(s.player) ==> Bounded(Reduce(s, a).player)
  {
  }

  lemma CasualtyKeeps(s: GameState, a: Action)
    requires a.DamageEnemy? || a.RemoveEnemy?
    ensures Reduce(s, a).isPlaying == s.isPlaying && Reduce(s, a).isPaused == s.isPaused
    ensures Bounded(s.player) ==> Bounded(Reduce(s, a).player)
  {
  }

  lemma WorldKeeps(s: GameState, a: Action)
    requires a.GameOver? || a.SetPlatforms? || a.UpdatePlayer?
    ensures Reduce(s, a).isPlaying == s.isPlaying && Reduce(s, a).isPaused == s.isPaused
    ensures Bounded(s.player) ==> Bounded(Reduce(s, a).player)
  {
  }

  lemma LevelKeeps(s: GameState, a: Action)
    requires a.AdvanceLevel? || a.GenerateLevel?
    ensures Reduce(s, a).isPlaying == s.isPlaying && Reduce(s, a).isPaused == s.isPaused
    ensures Bounded(s.player) ==> Bounded(Reduce(s, a).player)
  {
  }

  /** The reducer does not gate on the play state, and only the lifecycle
      commands touch it: every other command leaves `isPlaying` and
      `isPaused` as they were, whatever they were. */
  lemma ReduceKeepsPlayState(s: GameState, a: Action)
    requires !IsLifecycle(a)
    ensures Reduce(s, a).isPlaying == s.isPlaying && Reduce(s, a).isPaused == s.isPaused
  {
    KeepsByGroup(s, a);
  }

  /** Health and energy stay within their limits under every command. */
  lemma ReduceKeepsBounded(s: GameState, a: Action)
    requires Bounded(s.player)
    ensures Bounded(Reduce(s, a).player)
  {
    if IsLifecycle(a) {
      LifecycleKeepsBounded(s, a);
    } else {
      KeepsByGroup(s, a);
    }
  }

  /** Sends a command that is not a lifecycle command to its group. */
  lemma KeepsByGroup(s: GameState, a: Action)
    requires !IsLifecycle(a)
    ensures Reduce(s, a).isPlaying == s.isPlaying && Reduce(s, a).isPaused == s.isPaused
    ensures Bounded(s.player) ==> Bounded(Reduce(s, a).player)
  {
    if a.PlayerMove? || a.PlayerMoveWithVelocity? || a.UpdateVelocityY? || a.SetOnPlatform? {
      PositionKeeps(s, a);
    } else if a.PlayerMoveLeft? || a.PlayerMoveRight? || a.PlayerDuck? {
      WalkKeeps(s, a);
    } else if a.PlayerJump? || a.PlayerLand? || a.UpdateAimDirection? || a.ChangeElement? {
      StanceKeeps(s, a);
    } else if a.PlayerShoot? || a.UpdateProjectiles? || a.RemoveProjectile? {
      ShotKeeps(s, a);
    } else if a.UpdateHealth? || a.UpdateEnergy? || a.UpdateScore? {
      VitalsKeep(s, a);
    } else if a.UpdateEnemies? || a.UpdateEnemy? || a.AddEnemy? {
      RosterKeeps(s, a);
    } else if a.DamageEnemy? || a.RemoveEnemy? {
      CasualtyKeeps(s, a);
    } else if a.GameOver? || a.SetPlatforms? || a.UpdatePlayer? {
      WorldKeeps(s, a);
    } else {
      LevelKeeps(s, a);
    }
  }

  /** ... and so under every sequence of commands. */
  lemma {:induction false} ReduceAllKeepsBounded(s: GameState, actions: seq<Action>)
    requires Bounded(s.player)
    ensures Bounded(ReduceAll(s, actions).player)
    decreases |actions|
  {
    if actions != [] {
      ReduceKeepsBounded(s, actions[0]);
      ReduceAllKeepsBounded(Reduce(s, actions[0]), actions[1..]);
    }
  }

  /** `a` acts on a state whatever its run flags are, and carries the flags
      through, except that `GAME_OVER` and `UPDATE_HEALTH` set `gameOver`
      whatever it was. */
  predicate FlagBlind(s: GameState, a: Action, playing: bool, paused: bool, over: bool)
  {
    var r := Reduce(s, a);
    Reduce(s.(isPlaying := playing, isPaused := paused, gameOver := over), a)
      == r.(isPlaying := playing, isPaused := paused,
            gameOver := if a.GameOver? || a.UpdateHealth? then r.gameOver else over)
  }

  lemma ShootIgnoresFlags(s: GameState, now: int, ux: real, uy: real, playing: bool, paused: bool, over: bool)
    ensures Shoot(s.(isPlaying := playing, isPaused := paused, gameOver := over), now, ux, uy)
         == Shoot(s, now, ux, uy).(isPlaying := playing, isPaused := paused, gameOver := over)
  {
  }

  lemma NextLevelIgnoresFlags(s: GameState, playing: bool, paused: bool, over: bool)
    ensures NextLevel(s.(isPlaying := playing, isPaused := paused, gameOver := over))
         == NextLevel(s).(isPlaying := playing, isPaused := paused, gameOver := over)
  {
  }

  lemma PositionIsBlind(s: GameState, a: Action, playing: bool, paused: bool, over: bool)
    requires a.PlayerMove? || a.PlayerMoveWithVelocity? || a.UpdateVelocityY? || a.SetOnPlatform?
    ensures FlagBlind(s, a, playing, paused, over)
  {
  }

  lemma WalkIsBlind(s: GameState, a: Action, playing: bool, paused: bool, over: bool)
    requires a.PlayerMoveLeft? || a.PlayerMoveRight? || a.PlayerDuck?
    ensures FlagBlind(s, a, playing, paused, over)
  {
  }

  lemma JumpIsBlind(s: GameState, a: Action, playing: bool, paused: bool, over: bool)
    requires a.PlayerJump? || a.PlayerLand?
    ensures FlagBlind(s, a, playing, paused, over)
  {
  }

  lemma AimIsBlind(s: GameState, a: Action, playing: bool, paused: bool, over: bool)
    requires a.UpdateAimDirection? || a.ChangeElement?
    ensures FlagBlind(s, a, playing, paused, over)
  {
  }

  lemma ShotIsBlind(s: GameState, a: Action, playing: bool, paused: bool, over: bool)
    requires a.PlayerShoot?
    ensures FlagBlind(s, a, playing, paused, over)
  {
    ShootIgnoresFlags(s, a.shotTime, a.unitAimX, a.unitAimY, playing, paused, over);
  }

  lemma ProjectilesAreBlind(s: GameState, a: Action, playing: bool, paused: bool, over: bool)
    requires a.UpdateProjectiles? || a.RemoveProjectile?
    ensures FlagBlind(s, a, playing, paused, over)
  {
  }

  lemma VitalsAreBlind(s: GameState, a: Action, playing: bool, paused: bool, over: bool)
    requires a.UpdateHealth? || a.UpdateEnergy? || a.UpdateScore?
    ensures FlagBlind(s, a, playing, paused, over)
  {
  }

  lemma RosterIsBlind(s: GameState, a: Action, playing: bool, paused: bool, over: bool)
    requires a.UpdateEnemies? || a.UpdateEnemy? || a.AddEnemy?
    ensures FlagBlind(s, a, playing, paused, over)
  {
  }

  lemma CasualtyIsBlind(s: GameState, a: Action, playing: bool, paused: bool, over: bool)
    requires a.DamageEnemy? || a.RemoveEnemy?
    ensures FlagBlind(s, a, playing, paused, over)
  {
  }

  lemma WorldIsBlind(s: GameState, a: Action, playing: bool, paused: bool, over: bool)
    requires a.GameOver? || a.SetPlatforms? || a.UpdatePlayer?
    ensures FlagBlind(s, a, playing, paused, over)
  {
  }

  lemma LevelIsBlind(s: GameState, a: Action, playing: bool, paused: bool, over: bool)
    requires a.AdvanceLevel? || a.GenerateLevel?
    ensures FlagBlind(s, a, playing, paused, over)
  {
    NextLevelIgnoresFlags(s, playing, paused, over);
  }

  /** The reducer does not gate on the play state: apart from the five
      lifecycle commands, a command acts on a stopped, paused or finished
      game exactly as on a running one. */
  lemma IgnoresRunFlags(s: GameState, a: Action, playing: bool, paused: bool, over: bool)
    requires !IsLifecycle(a)
    ensures var r := Reduce(s, a);
      Reduce(s.(isPlaying := playing, isPaused := paused, gameOver := over), a)
        == r.(isPlaying := playing, isPaused := paused,
              gameOver := if a.GameOver? || a.UpdateHealth? then r.gameOver else over)
  {
    if a.PlayerMove? || a.PlayerMoveWithVelocity? || a.UpdateVelocityY? || a.SetOnPlatform? {
      PositionIsBlind(s, a, playing, paused, over);
    } else if a.PlayerMoveLeft? || a.PlayerMoveRight? || a.PlayerDuck? {
      WalkIsBlind(s, a, playing, paused, over);
    } else if a.PlayerJump? || a.PlayerLand? {
      JumpIsBlind(s, a, playing, paused, over);
    } else if a.UpdateAimDirection? || a.ChangeElement? {
      AimIsBlind(s, a, playing, paused, over);
    } else if a.PlayerShoot? {
      ShotIsBlind(s, a, playing, paused, over);
    } else if a.UpdateProjectiles? || a.RemoveProjectile? {
      ProjectilesAreBlind(s, a, playing, paused, over);
    } else if a.UpdateHealth? || a.UpdateEnergy? || a.UpdateScore? {
      VitalsAreBlind(s, a, playing, paused, over);
    } else if a.UpdateEnemies? || a.UpdateEnemy? || a.AddEnemy? {
      RosterIsBlind(s, a, playing, paused, over);
    } else if a.DamageEnemy? || a.RemoveEnemy? {
      CasualtyIsBlind(s, a, playing, paused, over);
    } else if a.GameOver? || a.SetPlatforms? || a.UpdatePlayer? {
      WorldIsBlind(s, a, playing, paused, over);
    } else {
      LevelIsBlind(s, a, playing, paused, over);
    }
  }


  /** Pausing and resuming touch nothing but the pause flag. */
  lemma PauseResumeRoundTrip(s: GameState)
    ensures Reduce(Reduce(s, PauseGame), ResumeGame) == s.(isPaused := false)
    ensures Reduce(Reduce(s, PauseGame), PauseGame) == Reduce(s, PauseGame)
  {
  }

  /** `PLAYER_MOVE_WITH_VELOCITY` drops the horizontal velocity it carries. */
  lemma MoveWithVelocityKeepsVelocityX(s: GameState, x: real, y: real, vx: real, vy: real)
    ensures Reduce(s, PlayerMoveWithVelocity(x, y, vx, vy)).player.velocityX == s.player.velocityX
  {
  }

  /** Projectile hits never lower an enemy's health: every enemy left after
      `UPDATE_PROJECTILES` was there, unchanged, before. */
  lemma ProjectileHitsDoNotDamage(s: GameState)
    ensures forall e :: e in Reduce(s, UpdateProjectiles).enemies ==> e in s.enemies
    ensures |Reduce(s, UpdateProjectiles).enemies| <= |s.enemies|
  {
  }

  /** The provider's effect: advance once the player is past 800 on the
      tutorial level or past 1500 later, while a game runs. */
  predicate AdvanceDue(s: GameState)
  {
    s.isPlaying && !s.isPaused && !s.gameOver
    && ((s.isTutorialLevel && s.player.x > 800.0) || (!s.isTutorialLevel && s.player.x > 1500.0))
  }

  /** The effect fires once: the advanced state puts the player back at 100. */
  lemma AdvanceFiresOnce(s: GameState)
    ensures !AdvanceDue(Reduce(s, AdvanceLevel))
    ensures AdvanceDue(s) ==> Reduce(s, AdvanceLevel).level == s.level + 1
  {
  }
}
