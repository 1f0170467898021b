/** The game balance tables (`GAME_CONFIG` and the name lists) of src/utils/constants.ts. */
module Constants {

  import opened Wrappers

  const CanvasWidth: real := 800.0
  const CanvasHeight: real := 600.0
  const Fps: int := 60

  const PlayerSize: real := 30.0
  const PlayerSpeed: real := 200.0
  const PlayerMaxHp: real := 100.0
  const PlayerDamage: real := 25.0
  const PlayerFireRate: real := 0.3
  const PlayerInvincibilityTime: real := 1000.0

  const EnemySpawnRate: real := 1200.0

  const ProjectileSpeed: real := 300.0
  const ProjectileSize: real := 6.0
  const ProjectileColor: string := "#ffd93d"

  const HealthPotionHeal: real := 25.0
  const HealthPotionDropChance: real := 0.1
  const GoldDropChance: real := 0.8

  const DifficultyIncreaseInterval: real := 15000.0
  const SpawnRateIncrease: real := 0.3
  const EnemyHealthIncreaseInterval: real := 45000.0
  const EnemyHealthIncrease: real := 0.5

  const ParticleCount: nat := 8
  const ParticleLife: real := 500.0
  const ScreenShakeDuration: real := 200.0
  const ScreenShakeIntensity: real := 5.0

  const PlayerColor: string := "#4dabf7"
  const GoldColor: string := "#ffd93d"
  const HealthPotionColor: string := "#51cf66"

  /** The enemy type tags the code uses. Only the first three have an entry in `ENEMY_TYPES`;
      `createEnemy` also produces `HEAVY_TANK` and `SPEEDER`. */
  datatype EnemyType = Grunt | Runner | Tank | HeavyTank | Speeder

  datatype GoldDrop = GoldDrop(min: real, max: real)

  datatype EnemyTemplate = EnemyTemplate(hp: real, speed: real, damage: real, size: real,
                                         color: string, goldDrop: GoldDrop)

  /** `GAME_CONFIG.ENEMY_TYPES[type]`: `undefined` for a type without an entry. */
  function EnemyTemplateOf(t: EnemyType): Option<EnemyTemplate>
  {
    match t
    case Grunt => Some(EnemyTemplate(20.0, 80.0, 20.0, 25.0, "#ff6b6b", GoldDrop(10.0, 20.0)))
    case Runner => Some(EnemyTemplate(10.0, 150.0, 12.0, 20.0, "#ff8787", GoldDrop(5.0, 15.0)))
    case Tank => Some(EnemyTemplate(50.0, 50.0, 35.0, 40.0, "#ff5252", GoldDrop(20.0, 30.0)))
    case HeavyTank => None
    case Speeder => None
  }

  const EnemyTypeNames: seq<EnemyType> := [Grunt, Runner, Tank]

  /** The keys of `GAME_CONFIG.UPGRADE_COSTS`. */
  datatype UpgradeType = Damage | Speed | Health | FireRate | GoldBonus

  const UpgradeTypeNames: seq<UpgradeType> := [Damage, Speed, Health, FireRate, GoldBonus]

  /** `GAME_CONFIG.UPGRADE_COSTS[type]`. */
  function UpgradeCosts(t: UpgradeType): seq<int>
  {
    match t
    case Damage => [50, 100, 200, 400, 800, 1600, 3200, 6400]
    case Speed => [30, 60, 120, 240, 480, 960, 1920, 3840]
    case Health => [40, 80, 160, 320, 640, 1280, 2560, 5120]
    case FireRate => [60, 120, 240, 480, 960, 1920, 3840, 7680]
    case GoldBonus => [100, 200, 400, 800, 1600, 3200, 6400, 12800]
  }

  /** Every cost row has eight positive entries, each twice the one before. */
  lemma UpgradeCostRowsDouble(t: UpgradeType)
    ensures |UpgradeCosts(t)| == 8
    ensures UpgradeCosts(t)[0] > 0
    ensures forall i :: 0 < i < 8 ==> UpgradeCosts(t)[i] == 2 * UpgradeCosts(t)[i - 1]
  {
  }

  /** The health band and the gold band together leave a no-drop band of 0.1. */
  lemma DropBandsFit()
    ensures HealthPotionDropChance + GoldDropChance == 0.9
    ensures 0.0 < HealthPotionDropChance < HealthPotionDropChance + GoldDropChance < 1.0
  {
  }

  /** Exactly the three listed names have a template, and every template is well formed. */
  lemma EnemyTemplatesMatchNames(t: EnemyType)
    ensures EnemyTemplateOf(t).Some? <==> t in EnemyTypeNames
    ensures EnemyTemplateOf(t).Some? ==>
      var c := EnemyTemplateOf(t).value;
      c.goldDrop.min <= c.goldDrop.max && c.hp > 0.0 && c.speed > 0.0 && c.size > 0.0
  {
  }

  /** `UPGRADE_TYPE_NAMES` lists every cost-table key exactly once. */
  lemma UpgradeTypeNamesComplete(t: UpgradeType)
    ensures t in UpgradeTypeNames
    ensures |UpgradeTypeNames| == 5
    ensures forall i, j :: 0 <= i < j < 5 ==> UpgradeTypeNames[i] != UpgradeTypeNames[j]
  {
  }
}
