/** Entities of the simulation: elements, platforms, enemies, projectiles, the
    player, the aggregate game state and the commands the reducer accepts.
    Numbers the source keeps as JavaScript doubles are exact `real`s here,
    world seeds are `nat` (they come from a millisecond clock), times `int`. */
module GameTypes {

  datatype Element = Spirit | Fire | Water | Earth | Air

  datatype Facing = Left | Right

  datatype Option<T> = None | Some(value: T)

  datatype Platform = Platform(
    x: real, y: real, width: real, height: real,
    element: Element, canPassThrough: bool)

  datatype Enemy = Enemy(
    id: int, x: real, y: real, width: real, height: real,
    health: real, maxHealth: real, element: Element,
    direction: Facing, speed: real)

  datatype Projectile = Projectile(
    id: int, x: real, y: real, velocityX: real, velocityY: real,
    element: Element, damage: real, width: real, height: real, active: bool)

  datatype Player = Player(
    x: real, y: real, velocityX: real, velocityY: real,
    width: real, height: real,
    isJumping: bool, isDucking: bool, isMovingLeft: bool, isMovingRight: bool,
    isShooting: bool, lastShootTime: int, shootCooldown: int,
    currentElement: Element,
    health: real, maxHealth: real, energy: real, maxEnergy: real,
    onPlatform: bool, aimDirectionX: real, aimDirectionY: real,
    facingDirection: Facing)

  datatype GameState = GameState(
    isPlaying: bool, isPaused: bool, gameOver: bool,
    score: real, level: nat,
    player: Player,
    platforms: seq<Platform>, enemies: seq<Enemy>, projectiles: seq<Projectile>,
    availableElements: seq<Element>,
    nextProjectileId: int, levelProgress: real,
    worldSeed: nat, isTutorialLevel: bool)

  /** One variant per command of the reducer. Wall-clock readings that the
      source takes inside a case (`Date.now()`) are carried by the command;
      `PlayerShoot` also carries the aim vector divided by its length, which
      the source computes with `Math.sqrt`. `UpdatePlayer` is dispatched by
      the tick but has no case in the reducer. */
  datatype Action =
    | StartGame(now: nat)
    | PauseGame
    | ResumeGame
    | EndGame(bootSeed: nat)
    | RestartGame(now: nat)
    | GameOver
    | PlayerMove(x: real, y: real)
    | PlayerMoveWithVelocity(x: real, y: real, velocityX: real, velocityY: real)
    | UpdateVelocityY(velocityY: real)
    | PlayerMoveLeft(moving: bool)
    | PlayerMoveRight(moving: bool)
    | PlayerDuck(ducking: bool)
    | PlayerJump
    | PlayerLand(platformY: real)
    | SetOnPlatform(onPlatform: bool)
    | UpdateAimDirection(x: real, y: real)
    | PlayerShoot(shotTime: int, unitAimX: real, unitAimY: real)
    | UpdateProjectiles
    | RemoveProjectile(projectileId: int)
    | ChangeElement(element: Element)
    | SetPlatforms(platforms: seq<Platform>)
    | UpdateHealth(health: real)
    | UpdateEnemies(enemies: seq<Enemy>)
    | UpdateEnemy(enemy: Enemy)
    | UpdateEnergy(energy: real)
    | UpdateScore(amount: real)
    | AdvanceLevel
    | GenerateLevel
    | AddEnemy(enemy: Enemy)
    | DamageEnemy(enemyId: int, damage: real)
    | RemoveEnemy(enemyId: int)
    | UpdatePlayer(energy: real)

  /** The full-width solid floor every layout starts with. */
  const Ground := Platform(0.0, 500.0, 2000.0, 30.0, Spirit, false)

  /** The player every session starts from. */
  const InitialPlayer := Player(
    100.0, 450.0, 0.0, 0.0, 40.0, 50.0,
    false, false, false, false, false, 0, 500,
    Spirit, 100.0, 100.0, 100.0, 100.0,
    false, 1.0, 0.0, Right)

  const AllElements: seq<Element> := [Spirit, Fire, Water, Earth, Air]

  /** The state before any command; `bootSeed` is the clock reading taken
      when the game module is loaded. */
  function InitialGameState(bootSeed: nat): (s: GameState)
    ensures !s.isPlaying && !s.isPaused && !s.gameOver
    ensures s.level == 1 && s.isTutorialLevel && s.platforms == [Ground]
    ensures s.enemies == [] && s.projectiles == [] && s.worldSeed == bootSeed
  {
    GameState(false, false, false, 0.0, 1, InitialPlayer,
      [Ground], [], [], AllElements, 1, 0.0, bootSeed, true)
  }

  function Min(a: real, b: real): real { if a <= b then a else b }

  function Max(a: real, b: real): real { if a >= b then a else b }

  function Abs(a: real): real { if a >= 0.0 then a else -a }

  /** Health and energy lie within their limits. */
  predicate Bounded(p: Player)
  {
    0.0 <= p.health <= p.maxHealth && 0.0 <= p.energy <= p.maxEnergy
  }
}
