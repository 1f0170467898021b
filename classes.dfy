/** Character classes and the passive-skill catalogue of src/types/classes.ts. */
module Classes {

  import opened Wrappers

  /** The one character class there is. */
  datatype CharacterClass = Bolter

  datatype BaseStats = BaseStats(healthModifier: real, speedModifier: real,
                                 damageModifier: real, fireRateModifier: real)

  /** `piercing`, `areaOfEffect` and `range` are optional fields of the config record. */
  datatype ProjectileConfig = ProjectileConfig(speed: real, size: real, color: string,
                                               piercing: Option<bool>, areaOfEffect: Option<real>,
                                               range: Option<real>)

  datatype ClassAbility = ClassAbility(name: string, description: string)

  datatype ClassConfig = ClassConfig(name: string, description: string, baseStats: BaseStats,
                                     primary: ClassAbility, passive: ClassAbility,
                                     projectileConfig: ProjectileConfig)

  /** `CLASS_CONFIGS[c]`. */
  function ClassConfigOf(c: CharacterClass): ClassConfig
  {
    match c
    case Bolter =>
      ClassConfig("Bolter", "Swift and precise. High mobility with piercing bolts.",
                  BaseStats(0.8, 1.2, 1.0, 0.6),
                  ClassAbility("Piercing Bolt", "Bolts pierce through multiple enemies"),
                  ClassAbility("Eagle Eye", "Increased bolt speed and range"),
                  ProjectileConfig(400.0, 4.0, "#22c55e", None, None, Some(600.0)))
  }

  datatype SkillEffectType =
    | Damage | Speed | Health | FireRate | GoldBonus
    | Piercing | Vampirism | Critical | Aoe | Magnet

  /** The effect-type tag as the source spells it (shown in tooltips). */
  function EffectTypeName(t: SkillEffectType): string
  {
    match t
    case Damage => "damage"
    case Speed => "speed"
    case Health => "health"
    case FireRate => "fireRate"
    case GoldBonus => "goldBonus"
    case Piercing => "piercing"
    case Vampirism => "vampirism"
    case Critical => "critical"
    case Aoe => "aoe"
    case Magnet => "magnet"
  }

  datatype SkillEffect = SkillEffect(kind: SkillEffectType, value: real, isPercentage: bool)

  datatype Rarity = Common | Rare | Epic | Legendary

  /** An equipped or offered skill. Ids are fresh naturals. */
  datatype PassiveSkill = PassiveSkill(id: nat, name: string, description: string,
                                       maxLevel: int, currentLevel: int, rarity: Rarity,
                                       effects: seq<SkillEffect>)

  /** A catalogue entry: a skill without its id and level. */
  datatype SkillTemplate = SkillTemplate(name: string, description: string, maxLevel: int,
                                         rarity: Rarity, effects: seq<SkillEffect>)

  /** `PlayerClassState`; the optional mana fields are never set and are left out. */
  datatype PlayerClassState = PlayerClassState(selectedClass: CharacterClass,
                                               equippedSkills: seq<PassiveSkill>,
                                               lastAbilityUse: real)

  /** `PASSIVE_SKILLS`, in the order `Object.keys` lists them. */
  const PassiveSkills: seq<SkillTemplate> := [
    SkillTemplate("Critical Strike", "Chance to deal double damage", 10, Epic,
                  [SkillEffect(Critical, 1.0, true)]),
    SkillTemplate("Gold Magnet", "Increased pickup radius for items", 10, Common,
                  [SkillEffect(Magnet, 10.0, true)]),
    SkillTemplate("Explosive Impact", "Projectiles explode on impact", 5, Legendary,
                  [SkillEffect(Aoe, 20.0, false)]),
    SkillTemplate("Battle Frenzy", "Reduces attack cooldown by 0.5% per level", 10, Rare,
                  [SkillEffect(FireRate, 0.5, false)])
  ]

  /** The bolter's documented modifiers and projectile. */
  lemma BolterConfig()
    ensures ClassConfigOf(Bolter).baseStats == BaseStats(0.8, 1.2, 1.0, 0.6)
    ensures var pc := ClassConfigOf(Bolter).projectileConfig;
      pc.speed == 400.0 && pc.size == 4.0 && pc.piercing == None
  {
  }

  /** Four catalogue skills with distinct names, each with a maximum level of 5 or 10. */
  lemma CatalogueShape()
    ensures |PassiveSkills| == 4
    ensures forall i :: 0 <= i < 4 ==>
      PassiveSkills[i].maxLevel >= 1 && PassiveSkills[i].maxLevel in {5, 10}
    ensures forall i, j :: 0 <= i < j < 4 ==> PassiveSkills[i].name != PassiveSkills[j].name
  {
  }

  /** No catalogue skill grants damage, gold or piercing; Battle Frenzy is the only fire-rate
      skill, with a flat 0.5 per level. */
  lemma CatalogueEffects()
    ensures forall i, k :: 0 <= i < 4 && 0 <= k < |PassiveSkills[i].effects| ==>
      PassiveSkills[i].effects[k].kind !in {Damage, GoldBonus, Piercing}
    ensures forall i, k ::
      (0 <= i < 4 && 0 <= k < |PassiveSkills[i].effects| && PassiveSkills[i].effects[k].kind == FireRate)
      ==> i == 3
    ensures PassiveSkills[3].effects == [SkillEffect(FireRate, 0.5, false)]
  {
  }
}
