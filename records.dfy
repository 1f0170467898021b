/** The persisted record shapes of src/types/bolter.ts and src/types/profile.ts. */
module Records {

  import Classes

  /** `PermanentUpgrades` (also `Upgrades` in the game logic): one level per upgrade. */
  datatype PermanentUpgrades = PermanentUpgrades(damage: nat, speed: nat, health: nat,
                                                 fireRate: nat, goldBonus: nat)

  /** `keyof PermanentUpgrades`. */
  datatype UpgradeField = Damage | Speed | Health | FireRate | GoldBonus

  const NoUpgrades: PermanentUpgrades := PermanentUpgrades(0, 0, 0, 0, 0)

  function Level(u: PermanentUpgrades, f: UpgradeField): nat
  {
    match f
    case Damage => u.damage
    case Speed => u.speed
    case Health => u.health
    case FireRate => u.fireRate
    case GoldBonus => u.goldBonus
  }

  /** `{ ...u, [f]: u[f] + 1 }`: exactly the named level rises by one. */
  function Incremented(u: PermanentUpgrades, f: UpgradeField): (r: PermanentUpgrades)
    ensures Level(r, f) == Level(u, f) + 1
    ensures forall g :: g != f ==> Level(r, g) == Level(u, g)
  {
    match f
    case Damage => u.(damage := u.damage + 1)
    case Speed => u.(speed := u.speed + 1)
    case Health => u.(health := u.health + 1)
    case FireRate => u.(fireRate := u.fireRate + 1)
    case GoldBonus => u.(goldBonus := u.goldBonus + 1)
  }

  datatype BolterData = BolterData(totalGold: real, totalPlayTime: real, bestSurvivalTime: real,
                                   totalEnemiesKilled: real, totalDeaths: int,
                                   permanentUpgrades: PermanentUpgrades)

  datatype AchievementType = Survival | Gold | Combat | Upgrade

  datatype Achievement = Achievement(id: string, unlockedAt: real, kind: AchievementType)

  datatype PlayerProfile = PlayerProfile(id: string, name: string,
                                         selectedClass: Classes.CharacterClass,
                                         createdAt: real, lastPlayed: real, totalGold: real,
                                         totalPlayTime: real, bestSurvivalTime: real,
                                         totalEnemiesKilled: real, totalDeaths: int,
                                         permanentUpgrades: PermanentUpgrades,
                                         achievements: seq<Achievement>)

  /** The statistics a finished run reports. */
  datatype RunStats = RunStats(goldEarned: real, enemiesKilled: real, survivalTime: real)
}
