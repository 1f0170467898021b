/** The passive-skill rules of src/utils/skillSystem.ts: instantiating a catalogue skill, the
    drop chance, the additive stat bonuses with their fire-rate floor, and the tooltip text. */
module SkillSystem {

  import opened Classes
  import opened Numbers
  import Text
  import Entities

  // ---------------------------------------------------------------------------------------
  // generateRandomSkill

  /** The catalogue index a draw selects: `Math.floor(roll * 4)`. */
  function SkillIndex(roll: real): (i: int)
    requires 0.0 <= roll < 1.0
    ensures 0 <= i < |PassiveSkills|
  {
    (roll * 4.0).Floor
  }

  /** `generateRandomSkill`: the drawn catalogue entry with a fresh id and level 1. The source
      draws twice, once for the entry and once for the id; `id` stands for the second draw. */
  function GenerateRandomSkill(roll: real, id: nat): (s: PassiveSkill)
    requires 0.0 <= roll < 1.0
  {
    var t := PassiveSkills[SkillIndex(roll)];
    PassiveSkill(id, t.name, t.description, t.maxLevel, 1, t.rarity, t.effects)
  }

  /** A generated skill is some catalogue entry unchanged, with the given id and level 1, and
      every catalogue entry is reachable by some draw. */
  lemma GeneratedSkillFromCatalogue(roll: real, id: nat)
    requires 0.0 <= roll < 1.0
    ensures var s := GenerateRandomSkill(roll, id);
      && s.id == id && s.currentLevel == 1
      && exists i :: 0 <= i < |PassiveSkills|
           && PassiveSkills[i] == SkillTemplate(s.name, s.description, s.maxLevel, s.rarity, s.effects)
    ensures forall i :: 0 <= i < |PassiveSkills| ==>
      GenerateRandomSkill((i as real) / 4.0, id).name == PassiveSkills[i].name
  {
    var s := GenerateRandomSkill(roll, id);
    var k := SkillIndex(roll);
    assert PassiveSkills[k] == SkillTemplate(s.name, s.description, s.maxLevel, s.rarity, s.effects);
    forall i | 0 <= i < |PassiveSkills|
      ensures GenerateRandomSkill((i as real) / 4.0, id).name == PassiveSkills[i].name
    {
      assert ((i as real) / 4.0 * 4.0).Floor == i;
    }
  }

  // ---------------------------------------------------------------------------------------
  // shouldDropSkill

  /** `0.15 + Math.min(0.1, kills * 0.001)`. */
  function DropThreshold(kills: int): real
  {
    0.15 + Min(0.1, (kills as real) * 0.001)
  }

  /** `shouldDropSkill`, with the draw as a parameter: a draw below 0.15 always drops once
      no kills are negative, a draw of 0.25 or more never drops, and from 100 kills on the
      chance is exactly 25%. */
  function ShouldDropSkill(kills: int, roll: real): (b: bool)
    ensures kills >= 0 && roll < 0.15 ==> b
    ensures roll >= 0.25 ==> !b
    ensures kills >= 100 ==> (b <==> roll < 0.25)
  {
    roll < DropThreshold(kills)
  }

  /** The drop chance lies between 15% and 25%, never falls as kills grow, and reaches its cap
      at 100 kills. */
  lemma DropThresholdBounds(kills: nat, more: nat)
    requires kills <= more
    ensures 0.15 <= DropThreshold(kills) <= 0.25
    ensures DropThreshold(kills) <= DropThreshold(more)
    ensures kills >= 100 ==> DropThreshold(kills) == 0.25
    ensures kills < 100 ==> DropThreshold(kills) < 0.25
  {
  }

  // ---------------------------------------------------------------------------------------
  // applySkillEffects

  /** `effect.value * skill.currentLevel`. */
  function EffectValue(e: SkillEffect, level: int): real
  {
    e.value * (level as real)
  }

  /** What one effect adds to the running total of `kind`. */
  function Contribution(e: SkillEffect, level: int, kind: SkillEffectType): real
  {
    if e.kind == kind then EffectValue(e, level) else 0.0
  }

  /** Σ value·level over the effects of one skill that have type `kind`. */
  function EffectsTotal(effects: seq<SkillEffect>, level: int, kind: SkillEffectType): real
  {
    if |effects| == 0 then 0.0
    else EffectsTotal(effects[..|effects| - 1], level, kind)
         + Contribution(effects[|effects| - 1], level, kind)
  }

  /** Σ value·level over every effect of type `kind` of every skill. */
  function EffectTotal(skills: seq<PassiveSkill>, kind: SkillEffectType): real
  {
    if |skills| == 0 then 0.0
    else EffectTotal(skills[..|skills| - 1], kind)
         + EffectsTotal(skills[|skills| - 1].effects, skills[|skills| - 1].currentLevel, kind)
  }

  /** The player after `applySkillEffects`: an empty list returns the player itself; otherwise
      damage gains the damage total, the fire-rate cooldown loses a hundredth of the fire-rate
      total but not below 0.1, and the gold multiplier gains a hundredth of the gold total. */
  function SkillAdjusted(p: Entities.Player, skills: seq<PassiveSkill>): Entities.Player
  {
    if |skills| == 0 then p
    else p.(damage := p.damage + EffectTotal(skills, Damage),
            fireRate := Max(0.1, p.fireRate - EffectTotal(skills, FireRate) / 100.0),
            goldMultiplier := p.goldMultiplier + EffectTotal(skills, GoldBonus) / 100.0)
  }

  /** `applySkillEffects`: the nested `forEach` accumulation of the three bonuses. */
  method ApplySkillEffects(player: Entities.Player, skills: seq<PassiveSkill>)
    returns (r: Entities.Player)
    ensures r == SkillAdjusted(player, skills)
  {
    if |skills| == 0 {
      return player;
    }
    var damageBonus, fireRateBonus, goldBonus := 0.0, 0.0, 0.0;
    var i := 0;
    while i < |skills|
      invariant 0 <= i <= |skills|
      invariant damageBonus == EffectTotal(skills[..i], Damage)
      invariant fireRateBonus == -EffectTotal(skills[..i], FireRate) / 100.0
      invariant goldBonus == EffectTotal(skills[..i], GoldBonus) / 100.0
    {
      var skill := skills[i];
      var j := 0;
      while j < |skill.effects|
        invariant 0 <= j <= |skill.effects|
        invariant damageBonus == EffectTotal(skills[..i], Damage)
                                 + EffectsTotal(skill.effects[..j], skill.currentLevel, Damage)
        invariant fireRateBonus == -(EffectTotal(skills[..i], FireRate)
                                     + EffectsTotal(skill.effects[..j], skill.currentLevel, FireRate)) / 100.0
        invariant goldBonus == (EffectTotal(skills[..i], GoldBonus)
                                + EffectsTotal(skill.effects[..j], skill.currentLevel, GoldBonus)) / 100.0
      {
        var effect := skill.effects[j];
        var effectValue := EffectValue(effect, skill.currentLevel);
        match effect.kind {
          case Damage => damageBonus := damageBonus + effectValue;
          case FireRate => fireRateBonus := fireRateBonus - effectValue / 100.0;
          case GoldBonus => goldBonus := goldBonus + effectValue / 100.0;
          case _ =>
        }
        assert skill.effects[..j + 1][..j] == skill.effects[..j];
        j := j + 1;
      }
      assert skill.effects[..j] == skill.effects;
      assert skills[..i + 1][..i] == skills[..i];
      i := i + 1;
    }
    assert skills[..i] == skills;
    r := player.(damage := player.damage + damageBonus,
                 fireRate := Max(0.1, player.fireRate + fireRateBonus),
                 goldMultiplier := player.goldMultiplier + goldBonus);
  }

  /** Only damage, cooldown and gold multiplier can change; with any skill equipped the cooldown
      is at least 0.1; position, health, speed, timers and class state are never touched. */
  lemma SkillAdjustedFrame(p: Entities.Player, skills: seq<PassiveSkill>)
    ensures var r := SkillAdjusted(p, skills);
      && r.x == p.x && r.y == p.y && r.hp == p.hp && r.maxHp == p.maxHp && r.speed == p.speed
      && r.lastShot == p.lastShot && r.invulnerableUntil == p.invulnerableUntil
      && r.classState == p.classState
      && (|skills| > 0 ==> r.fireRate >= 0.1)
      && (|skills| == 0 ==> r == p)
  {
  }

  /** Totals are additive over concatenated skill lists. */
  lemma {:induction false} EffectTotalAppend(a: seq<PassiveSkill>, b: seq<PassiveSkill>,
                                             kind: SkillEffectType)
    ensures EffectTotal(a + b, kind) == EffectTotal(a, kind) + EffectTotal(b, kind)
    decreases |b|
  {
    if |b| == 0 {
      assert a + b == a;
    } else {
      var b' := b[..|b| - 1];
      assert (a + b)[..|a + b| - 1] == a + b';
      EffectTotalAppend(a, b', kind);
    }
  }

  /** An effect kind no skill carries contributes nothing. */
  lemma {:induction false} EffectsTotalAbsent(effects: seq<SkillEffect>, level: int,
                                              kind: SkillEffectType)
    requires forall k :: 0 <= k < |effects| ==> effects[k].kind != kind
    ensures EffectsTotal(effects, level, kind) == 0.0
    decreases |effects|
  {
    if |effects| > 0 {
      EffectsTotalAbsent(effects[..|effects| - 1], level, kind);
    }
  }

  lemma {:induction false} EffectTotalAbsent(skills: seq<PassiveSkill>, kind: SkillEffectType)
    requires forall i, k :: 0 <= i < |skills| && 0 <= k < |skills[i].effects| ==>
      skills[i].effects[k].kind != kind
    ensures EffectTotal(skills, kind) == 0.0
    decreases |skills|
  {
    if |skills| > 0 {
      EffectTotalAbsent(skills[..|skills| - 1], kind);
      var last := skills[|skills| - 1];
      EffectsTotalAbsent(last.effects, last.currentLevel, kind);
    }
  }

  /** Speed, health, piercing, vampirism, critical, area and magnet effects are ignored: a
      non-empty list without damage, fire-rate or gold effects changes nothing but raising a
      cooldown below 0.1 up to 0.1. */
  lemma IgnoredEffectKinds(p: Entities.Player, skills: seq<PassiveSkill>)
    requires |skills| > 0
    requires forall i, k :: 0 <= i < |skills| && 0 <= k < |skills[i].effects| ==>
      skills[i].effects[k].kind !in {Damage, FireRate, GoldBonus}
    ensures SkillAdjusted(p, skills) == p.(fireRate := Max(0.1, p.fireRate))
  {
    EffectTotalAbsent(skills, Damage);
    EffectTotalAbsent(skills, FireRate);
    EffectTotalAbsent(skills, GoldBonus);
  }

  /** The bonuses applied `n` times in a row, as the tick loop does to its own output. */
  function Reapplied(p: Entities.Player, skills: seq<PassiveSkill>, n: nat): Entities.Player
  {
    if n == 0 then p else SkillAdjusted(Reapplied(p, skills, n - 1), skills)
  }

  /** Re-application drift: after `n` ticks the damage bonus and gold bonus have been added
      `n` times and the cooldown has fallen by `n` times its reduction, down to the 0.1 floor. */
  lemma {:induction false} ReappliedDrift(p: Entities.Player, skills: seq<PassiveSkill>, n: nat)
    requires |skills| > 0 && EffectTotal(skills, FireRate) >= 0.0
    ensures var r := Reapplied(p, skills, n);
      && r.damage == p.damage + Repeated(n, EffectTotal(skills, Damage))
      && r.goldMultiplier == p.goldMultiplier + Repeated(n, EffectTotal(skills, GoldBonus)) / 100.0
      && (n > 0 ==> r.fireRate == Max(0.1, p.fireRate - Repeated(n, EffectTotal(skills, FireRate)) / 100.0))
  {
    if n > 1 {
      ReappliedDrift(p, skills, n - 1);
      var f := EffectTotal(skills, FireRate);
      CooldownDrift(p.fireRate, Repeated(n - 1, f) / 100.0, f / 100.0);
    } else if n == 1 {
      assert Reapplied(p, skills, 0) == p;
    }
  }

  /** `n` times `v`, as a sum. */
  function Repeated(n: nat, v: real): (r: real)
    ensures v >= 0.0 ==> r >= 0.0
  {
    if n == 0 then 0.0 else Repeated(n - 1, v) + v
  }

  /** The sum is the product. */
  lemma {:induction false} RepeatedProduct(n: nat, v: real)
    ensures Repeated(n, v) == (n as real) * v
  {
    if n > 0 {
      RepeatedProduct(n - 1, v);
      Distribute(n, v);
    }
  }

  lemma Distribute(n: nat, v: real)
    requires n > 0
    ensures (n as real) * v == ((n - 1) as real) * v + v
  {
  }

  /** Lowering by `f` and flooring at 0.1, then lowering by `g >= 0` and flooring again, is
      lowering by `f + g` and flooring once. */
  lemma CooldownDrift(rate: real, f: real, g: real)
    requires g >= 0.0
    ensures Max(0.1, Max(0.1, rate - f) - g) == Max(0.1, rate - (f + g))
  {
  }


  /** Battle Frenzy at level 1 on the zero-upgrade bolter (cooldown 0.18): every tick takes
      another 0.005 off, and sixteen ticks reach the floor. */
  lemma BattleFrenzyDrift(p: Entities.Player, n: nat)
    requires p.fireRate == 0.18
    ensures var s := GenerateRandomSkill(0.75, 0);
      Reapplied(p, [s], n).fireRate == if n == 0 then 0.18 else Max(0.1, 0.18 - (n as real) * 0.005)
    ensures Reapplied(p, [GenerateRandomSkill(0.75, 0)], 16).fireRate == 0.1
  {
    var s := GenerateRandomSkill(0.75, 0);
    assert SkillIndex(0.75) == 3;
    assert s.effects == [SkillEffect(FireRate, 0.5, false)];
    assert [s][..0] == [];
    assert s.effects[..0] == [];
    assert EffectTotal([s], FireRate) == 0.5;
    ReappliedDrift(p, [s], n);
    ReappliedDrift(p, [s], 16);
    RepeatedProduct(n, 0.5);
    RepeatedProduct(16, 0.5);
  }

  // ---------------------------------------------------------------------------------------
  // getSkillTooltip

  /** One effect's label: `${sign}${value}${suffix} ${type}`. How a number is written is the
      parameter `show`. */
  function EffectLabel(show: real -> string, e: SkillEffect, level: int): string
  {
    (if e.kind == FireRate then "-" else "+") + show(EffectValue(e, level))
    + (if e.isPercentage then "%" else "") + " " + EffectTypeName(e.kind)
  }

  function EffectLabels(show: real -> string, effects: seq<SkillEffect>, level: int): (r: seq<string>)
    ensures |r| == |effects|
    ensures forall k :: 0 <= k < |effects| ==> r[k] == EffectLabel(show, effects[k], level)
  {
    seq(|effects|, k requires 0 <= k < |effects| => EffectLabel(show, effects[k], level))
  }

  /** `getSkillTooltip`: the description, a level line and the comma-separated effect labels. */
  function GetSkillTooltip(show: real -> string, skill: PassiveSkill): string
  {
    skill.description + TooltipHeader(skill)
    + Text.Join(EffectLabels(show, skill.effects, skill.currentLevel), ", ")
  }

  /** The level line of a tooltip and the start of its effects line. */
  function TooltipHeader(skill: PassiveSkill): string
  {
    "\nLevel " + Text.IntToString(skill.currentLevel) + "/" + Text.IntToString(skill.maxLevel)
    + "\nEffects: "
  }

  /** A tooltip reads as the description, then the line `Level n/max`, then `Effects: ` and the
      effect labels joined by ", ": nothing after the header when there are no effects,
      otherwise the first effect's label right after it and the last effect's label at the
      end. Each label carries '-' exactly for a fire-rate effect, the value times the level
      after the sign, and '%' exactly for a percentage. */
  lemma TooltipFacts(show: real -> string, skill: PassiveSkill)
    requires forall v :: '%' !in show(v)
    ensures var t := GetSkillTooltip(show, skill);
      var d := |skill.description|;
      var header := TooltipHeader(skill);
      var labels := EffectLabels(show, skill.effects, skill.currentLevel);
      var n := |skill.effects|;
      && d + |header| <= |t|
      && t[..d] == skill.description
      && t[d..d + |header|] == header
      && (n == 0 ==> |t| == d + |header|)
      && (n > 0 ==> d + |header| + |labels[0]| <= |t| && t[d + |header|..d + |header| + |labels[0]|] == labels[0])
      && (n > 0 ==> |labels[n - 1]| <= |t| && t[|t| - |labels[n - 1]|..] == labels[n - 1])
      && |labels| == n
    ensures var labels := EffectLabels(show, skill.effects, skill.currentLevel);
      forall k :: 0 <= k < |skill.effects| ==>
        var l, e := labels[k], skill.effects[k];
        var num := show(EffectValue(e, skill.currentLevel));
        && (l[0] == '-' <==> e.kind == FireRate)
        && l[1..1 + |num|] == num
        && ('%' in l <==> e.isPercentage)
  {
    TooltipHead(show, skill);
    TooltipTail(show, skill);
    TooltipLabels(show, skill);
  }

  /** The description, the header and the first label, in that order. */
  lemma TooltipHead(show: real -> string, skill: PassiveSkill)
    ensures var t := GetSkillTooltip(show, skill);
      var d := |skill.description|;
      var header := TooltipHeader(skill);
      var labels := EffectLabels(show, skill.effects, skill.currentLevel);
      var n := |skill.effects|;
      && d + |header| <= |t|
      && t[..d] == skill.description
      && t[d..d + |header|] == header
      && (n == 0 ==> |t| == d + |header|)
      && (n > 0 ==> d + |header| + |labels[0]| <= |t| && t[d + |header|..d + |header| + |labels[0]|] == labels[0])
  {
    var labels := EffectLabels(show, skill.effects, skill.currentLevel);
    var header := TooltipHeader(skill);
    var body := Text.Join(labels, ", ");
    var prefix := skill.description + header;
    assert GetSkillTooltip(show, skill) == prefix + body;
    TooltipParts(skill.description, header, body);
    if |labels| > 0 {
      Text.JoinStarts(labels, ", ");
      TooltipBodyStarts(prefix, body, labels[0]);
    }
  }

  /** The last label closes the tooltip. */
  lemma TooltipTail(show: real -> string, skill: PassiveSkill)
    ensures var t := GetSkillTooltip(show, skill);
      var d := |skill.description|;
      var header := TooltipHeader(skill);
      var labels := EffectLabels(show, skill.effects, skill.currentLevel);
      var n := |skill.effects|;
      n > 0 ==> |labels[n - 1]| <= |t| && t[|t| - |labels[n - 1]|..] == labels[n - 1]
  {
    var labels := EffectLabels(show, skill.effects, skill.currentLevel);
    var body := Text.Join(labels, ", ");
    var prefix := skill.description + TooltipHeader(skill);
    assert GetSkillTooltip(show, skill) == prefix + body;
    if |labels| > 0 {
      Text.JoinFinishes(labels, ", ");
      TooltipBodyFinishes(prefix, body, labels[|labels| - 1]);
    }
  }

  /** The three pieces of a tooltip can be cut back out of it. */
  lemma TooltipParts(description: string, header: string, body: string)
    ensures var t := description + header + body;
      && t[..|description|] == description
      && t[|description|..|description| + |header|] == header
      && |t| == |description| + |header| + |body|
  {
  }

  /** A body that starts with `first` keeps it right after a prefix. */
  lemma TooltipBodyStarts(prefix: string, body: string, first: string)
    requires |first| <= |body| && body[..|first|] == first
    ensures (prefix + body)[|prefix|..|prefix| + |first|] == first
  {
    assert (prefix + body)[|prefix|..|prefix| + |first|] == body[..|first|];
  }

  /** A body that ends with `last` keeps it at the end after a prefix. */
  lemma TooltipBodyFinishes(prefix: string, body: string, last: string)
    requires |last| <= |body| && body[|body| - |last|..] == last
    ensures var t := prefix + body; t[|t| - |last|..] == last
  {
    var t := prefix + body;
    assert t[|t| - |last|..] == body[|body| - |last|..];
  }

  /** Every label of a tooltip has the shape `EffectLabelShape` gives it. */
  lemma TooltipLabels(show: real -> string, skill: PassiveSkill)
    requires forall v :: '%' !in show(v)
    ensures var labels := EffectLabels(show, skill.effects, skill.currentLevel);
      forall k :: 0 <= k < |skill.effects| ==>
        var l, e := labels[k], skill.effects[k];
        var num := show(EffectValue(e, skill.currentLevel));
        && (l[0] == '-' <==> e.kind == FireRate)
        && l[1..1 + |num|] == num
        && ('%' in l <==> e.isPercentage)
  {
    var labels := EffectLabels(show, skill.effects, skill.currentLevel);
    forall k | 0 <= k < |skill.effects|
      ensures var l, e := labels[k], skill.effects[k];
        var num := show(EffectValue(e, skill.currentLevel));
        && (l[0] == '-' <==> e.kind == FireRate)
        && l[1..1 + |num|] == num
        && ('%' in l <==> e.isPercentage)
    {
      EffectLabelShape(show, skill.effects[k], skill.currentLevel);
    }
  }

  /** A label starts with '-' exactly for a fire-rate effect (otherwise '+'), shows the value
      times the level right after the sign, and carries a '%' exactly when the effect is a
      percentage, provided numbers are never written with a '%'. */
  lemma EffectLabelShape(show: real -> string, e: SkillEffect, level: int)
    requires forall v :: '%' !in show(v)
    ensures var l := EffectLabel(show, e, level);
      && (l[0] == '-' <==> e.kind == FireRate)
      && (l[0] == '+' <==> e.kind != FireRate)
      && l[1..1 + |show(EffectValue(e, level))|] == show(EffectValue(e, level))
      && ('%' in l <==> e.isPercentage)
  {
    EffectLabelSign(show, e, level);
    EffectLabelPercent(if e.kind == FireRate then "-" else "+", show(EffectValue(e, level)),
                       if e.isPercentage then "%" else "", " " + EffectTypeName(e.kind), e);
  }

  /** The sign and the number at the head of a label. */
  lemma EffectLabelSign(show: real -> string, e: SkillEffect, level: int)
    ensures var l := EffectLabel(show, e, level);
      && (l[0] == '-' <==> e.kind == FireRate)
      && (l[0] == '+' <==> e.kind != FireRate)
      && l[1..1 + |show(EffectValue(e, level))|] == show(EffectValue(e, level))
  {
    var num := show(EffectValue(e, level));
    var sign := if e.kind == FireRate then "-" else "+";
    var rest := (if e.isPercentage then "%" else "") + " " + EffectTypeName(e.kind);
    var l := EffectLabel(show, e, level);
    assert l == sign + (num + rest);
    assert |sign| == 1;
    assert (sign + (num + rest))[1..1 + |num|] == (num + rest)[..|num|] == num;
  }

  /** The '%' of a label can only come from its suffix. */
  lemma EffectLabelPercent(sign: string, num: string, suffix: string, tail: string, e: SkillEffect)
    requires '%' !in sign && '%' !in num && tail == " " + EffectTypeName(e.kind)
    requires suffix == if e.isPercentage then "%" else ""
    ensures '%' in sign + num + suffix + tail <==> e.isPercentage
  {
    NoPercentInName(e.kind);
    assert '%' !in tail;
    InConcat('%', sign, num);
    InConcat('%', sign + num, suffix);
    InConcat('%', sign + num + suffix, tail);
  }

  lemma NoPercentInName(kind: SkillEffectType)
    ensures '%' !in EffectTypeName(kind)
  {
    match kind
    case Damage =>
    case Speed =>
    case Health =>
    case FireRate =>
    case GoldBonus =>
    case Piercing =>
    case Vampirism =>
    case Critical =>
    case Aoe =>
    case Magnet =>
  }

  lemma InConcat(c: char, a: string, b: string)
    ensures c in a + b <==> c in a || c in b
  {
    if c in a + b {
      var k :| 0 <= k < |a + b| && (a + b)[k] == c;
      if k >= |a| {
        assert b[k - |a|] == c;
      }
    }
    if c in b {
      var k :| 0 <= k < |b| && b[k] == c;
      assert (a + b)[|a| + k] == c;
    }
  }
}
