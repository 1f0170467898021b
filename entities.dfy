/** The world records of src/utils/gameLogic.ts: the player, enemies, projectiles, items,
    particles and the whole game state that one tick transforms. Ids are fresh naturals. */
module Entities {

  import opened Wrappers
  import Constants
  import Classes
  import Records
  import Collision

  datatype Player = Player(x: real, y: real, hp: real, maxHp: real, damage: real, speed: real,
                           fireRate: real, lastShot: real, invulnerableUntil: real,
                           goldMultiplier: real, classState: Classes.PlayerClassState)

  /** `lastAttack` is an optional field; the factory sets it to 0. */
  datatype Enemy = Enemy(id: nat, kind: Constants.EnemyType, x: real, y: real, hp: real,
                         maxHp: real, speed: real, damage: real, size: real, color: string,
                         flashUntil: real, goldDrop: Constants.GoldDrop, lastAttack: Option<real>)

  /** `piercedEnemies` is an optional set of enemy ids. The fireball, boss-projectile and
      source-enemy fields are never set by any code of the game and are left out. */
  datatype Projectile = Projectile(id: nat, x: real, y: real, vx: real, vy: real, damage: real,
                                   size: real, piercing: bool,
                                   piercedEnemies: Option<set<nat>>)

  /** What an item is displayed as. */
  datatype ItemKind = GoldItem | HealthItem

  /** What `createItem` is asked for: a mega bolt is displayed as gold. */
  datatype ItemRequest = AsGold | AsHealth | AsMegaBolt

  datatype Item = Item(id: nat, kind: ItemKind, x: real, y: real, value: real,
                       collected: bool, isMegaBolt: bool)

  datatype Particle = Particle(x: real, y: real, vx: real, vy: real, life: real,
                               maxLife: real, color: string, size: real)

  datatype GameStatus = Waiting | Playing | Paused | Dead | Upgrading | UpgradingDead

  /** The whole simulation state. `upgrades` is the permanent-upgrade record the run started
      with; the boss and mega-bolt timers are carried along but no code of the game changes them. */
  datatype GameState = GameState(
    player: Player,
    enemies: seq<Enemy>,
    projectiles: seq<Projectile>,
    items: seq<Item>,
    particles: seq<Particle>,
    gold: real,
    time: real,
    score: int,
    gameStatus: GameStatus,
    lastEnemySpawn: real,
    nextDifficultyIncrease: real,
    nextEnemyHealthIncrease: real,
    difficultyMultiplier: real,
    enemyHealthMultiplier: real,
    upgrades: Records.PermanentUpgrades,
    screenShake: real,
    camera: Collision.Point,
    pendingSkillDrop: Option<Classes.PassiveSkill>,
    screenScale: real,
    enemiesKilled: nat,
    lastBossSpawn: real,
    bossPhaseActive: bool,
    megaBoltFlash: real,
    lastBossDefeat: real,
    gameStartTime: real)

  /** The five movement/pause flags of `InputState`. */
  datatype InputState = InputState(up: bool, down: bool, left: bool, right: bool, escape: bool)

  function EnemyPoint(e: Enemy): Collision.Point
  {
    Collision.Point(e.x, e.y)
  }

  function PlayerPoint(p: Player): Collision.Point
  {
    Collision.Point(p.x, p.y)
  }
}
