/** The entity factories and the progression formulas of src/utils/gameLogic.ts. */
module GameLogic {

  import opened Wrappers
  import opened Numbers
  import opened Entropy
  import C = Constants
  import Classes
  import Records
  import opened Collision
  import opened Entities
  import SkillSystem

  // ---------------------------------------------------------------------------------------
  // createInitialPlayer

  /** The diminishing-returns curve `(level * rate) / (1 + level * damping)`. */
  function Curve(rate: real, damping: real, level: nat): real
    requires damping >= 0.0
  {
    (level as real) * rate / (1.0 + (level as real) * damping)
  }

  lemma FractionLess(p: real, q: real, d1: real, d2: real)
    requires d1 > 0.0 && d2 > 0.0 && p * d2 < q * d1
    ensures p / d1 < q / d2
  {
    var a, b := p / d1, q / d2;
    assert p == a * d1;
    assert q == b * d2;
    assert a * d1 * d2 < b * d2 * d1;
  }

  /** With a positive rate and a non-negative damping the curve starts at 0 and rises strictly
      with the level, and it stays below `rate / damping`. */
  lemma {:induction false} CurveMonotone(rate: real, damping: real, a: nat, b: nat)
    requires rate > 0.0 && damping > 0.0 && a < b
    ensures Curve(rate, damping, 0) == 0.0
    ensures 0.0 <= Curve(rate, damping, a) < Curve(rate, damping, b)
    ensures Curve(rate, damping, b) < rate / damping
  {
    var x, y := a as real, b as real;
    var d1, d2 := 1.0 + x * damping, 1.0 + y * damping;
    assert x * damping >= 0.0 && y * damping > 0.0;
    assert x * rate * d2 == x * rate + x * y * rate * damping;
    assert y * rate * d1 == y * rate + x * y * rate * damping;
    assert x * rate < y * rate;
    FractionLess(x * rate, y * rate, d1, d2);
    assert x * rate >= 0.0;
    assert y * rate * damping < rate * d2;
    FractionLess(y * rate, rate, d2, damping);
  }

  function DamageMultiplier(level: nat): real { 1.0 + Curve(0.15, 0.02, level) }
  function SpeedMultiplier(level: nat): real { 1.0 + Curve(0.08, 0.015, level) }
  function HealthMultiplier(level: nat): real { 1.0 + Curve(0.25, 0.02, level) }
  function GoldMultiplier(level: nat): real { 1.0 + Curve(0.25, 0.02, level) }

  /** `Math.min(0.75, ...)`: the cooldown reduction. */
  function FireRateReduction(level: nat): real
  {
    Min(0.75, Curve(0.04, 0.05, level))
  }

  /** The upgrade curves: every multiplier is 1 at level 0 and at least 1 after, and never
      falls as the level rises; the cooldown reduction lies in [0, 0.75] and never falls. */
  lemma UpgradeCurves(a: nat, b: nat)
    requires a <= b
    ensures DamageMultiplier(0) == SpeedMultiplier(0) == HealthMultiplier(0) == GoldMultiplier(0) == 1.0
    ensures FireRateReduction(0) == 0.0
    ensures 1.0 <= DamageMultiplier(a) <= DamageMultiplier(b)
    ensures 1.0 <= SpeedMultiplier(a) <= SpeedMultiplier(b)
    ensures 1.0 <= HealthMultiplier(a) <= HealthMultiplier(b)
    ensures 1.0 <= GoldMultiplier(a) <= GoldMultiplier(b)
    ensures 0.0 <= FireRateReduction(a) <= FireRateReduction(b) <= 0.75
  {
    if a < b {
      CurveMonotone(0.15, 0.02, a, b);
      CurveMonotone(0.08, 0.015, a, b);
      CurveMonotone(0.25, 0.02, a, b);
      CurveMonotone(0.04, 0.05, a, b);
    } else {
      CurveMonotone(0.15, 0.02, 0, a + 1);
      CurveMonotone(0.08, 0.015, 0, a + 1);
      CurveMonotone(0.25, 0.02, 0, a + 1);
      CurveMonotone(0.04, 0.05, 0, a + 1);
      if a > 0 {
        CurveMonotone(0.15, 0.02, 0, a);
        CurveMonotone(0.08, 0.015, 0, a);
        CurveMonotone(0.25, 0.02, 0, a);
        CurveMonotone(0.04, 0.05, 0, a);
      }
    }
  }

  function PlayerHp(healthLevel: nat, stats: Classes.BaseStats): real
  {
    (C.PlayerMaxHp * HealthMultiplier(healthLevel) * stats.healthModifier).Floor as real
  }

  function PlayerFireRate(fireRateLevel: nat, stats: Classes.BaseStats): real
  {
    Max(0.08, C.PlayerFireRate * (1.0 - FireRateReduction(fireRateLevel)) * stats.fireRateModifier)
  }

  /** The player before skills: centred, full health, and the upgraded class stats. */
  function BasePlayer(u: Records.PermanentUpgrades, cls: Classes.CharacterClass): Player
  {
    var stats := Classes.ClassConfigOf(cls).baseStats;
    var hp := PlayerHp(u.health, stats);
    Player(C.CanvasWidth / 2.0, C.CanvasHeight / 2.0, hp, hp,
           (C.PlayerDamage * DamageMultiplier(u.damage) * stats.damageModifier).Floor as real,
           C.PlayerSpeed * SpeedMultiplier(u.speed) * stats.speedModifier,
           PlayerFireRate(u.fireRate, stats), 0.0, 0.0, GoldMultiplier(u.goldBonus),
           Classes.PlayerClassState(cls, [], 0.0))
  }

  /** `createInitialPlayer`. Its last step calls `calculateFinalStats`, which the skill module
      does not export; it is read here as `applySkillEffects`, which returns a player with no
      skills unchanged. */
  function CreateInitialPlayer(u: Records.PermanentUpgrades, cls: Classes.CharacterClass): Player
  {
    var base := BasePlayer(u, cls);
    SkillSystem.SkillAdjusted(base, base.classState.equippedSkills)
  }

  /** Without upgrades the bolter starts at (400, 300) with 80 health, 25 damage, speed 240,
      a 0.18 s cooldown and gold multiplier 1; with any upgrades health, damage, speed and
      gold multiplier are at least those values and the cooldown lies in [0.08, 0.18]. */
  lemma InitialPlayerFacts(u: Records.PermanentUpgrades)
    ensures var p := CreateInitialPlayer(u, Classes.Bolter);
      && p.x == 400.0 && p.y == 300.0 && p.hp == p.maxHp
      && p.hp >= 80.0 && p.damage >= 25.0 && p.speed >= 240.0 && p.goldMultiplier >= 1.0
      && 0.08 <= p.fireRate <= 0.18
      && p.lastShot == 0.0 && p.invulnerableUntil == 0.0
      && p.classState == Classes.PlayerClassState(Classes.Bolter, [], 0.0)
    ensures CreateInitialPlayer(Records.NoUpgrades, Classes.Bolter)
      == Player(400.0, 300.0, 80.0, 80.0, 25.0, 240.0, 0.18, 0.0, 0.0, 1.0,
                Classes.PlayerClassState(Classes.Bolter, [], 0.0))
  {
    UpgradeCurves(0, u.damage);
    UpgradeCurves(0, u.speed);
    UpgradeCurves(0, u.health);
    UpgradeCurves(0, u.fireRate);
    UpgradeCurves(0, u.goldBonus);
    assert (C.PlayerMaxHp * HealthMultiplier(0) * 0.8).Floor == 80;
    assert (C.PlayerDamage * DamageMultiplier(0) * 1.0).Floor == 25;
  }

  /** More upgrades never make the starting player weaker: health, damage, speed and gold
      multiplier never fall, and the cooldown never rises. */
  lemma InitialPlayerMonotone(u: Records.PermanentUpgrades, v: Records.PermanentUpgrades)
    requires u.damage <= v.damage && u.speed <= v.speed && u.health <= v.health
    requires u.fireRate <= v.fireRate && u.goldBonus <= v.goldBonus
    ensures var p, q := CreateInitialPlayer(u, Classes.Bolter), CreateInitialPlayer(v, Classes.Bolter);
      && p.hp <= q.hp && p.damage <= q.damage && p.speed <= q.speed
      && p.goldMultiplier <= q.goldMultiplier && p.fireRate >= q.fireRate
  {
    var stats := Classes.ClassConfigOf(Classes.Bolter).baseStats;
    UpgradeCurves(u.damage, v.damage);
    UpgradeCurves(u.speed, v.speed);
    UpgradeCurves(u.health, v.health);
    UpgradeCurves(u.fireRate, v.fireRate);
    UpgradeCurves(u.goldBonus, v.goldBonus);
    ScaledFloorMonotone(C.PlayerMaxHp * 0.8, HealthMultiplier(u.health), HealthMultiplier(v.health));
    ScaledFloorMonotone(C.PlayerDamage * 1.0, DamageMultiplier(u.damage), DamageMultiplier(v.damage));
    assert C.PlayerMaxHp * HealthMultiplier(u.health) * stats.healthModifier
      == C.PlayerMaxHp * 0.8 * HealthMultiplier(u.health);
    assert C.PlayerMaxHp * HealthMultiplier(v.health) * stats.healthModifier
      == C.PlayerMaxHp * 0.8 * HealthMultiplier(v.health);
  }

  lemma ScaledFloorMonotone(k: real, a: real, b: real)
    requires k >= 0.0 && a <= b
    ensures (k * a).Floor <= (k * b).Floor
  {
    assert k * a <= k * b;
  }

  // ---------------------------------------------------------------------------------------
  // createInitialGameState

  function CreateInitialGameState(u: Records.PermanentUpgrades, cls: Classes.CharacterClass): GameState
  {
    GameState(CreateInitialPlayer(u, cls), [], [], [], [], 0.0, 0.0, 0, Playing, 0.0,
              C.DifficultyIncreaseInterval, C.EnemyHealthIncreaseInterval, 1.0, 1.0, u, 0.0,
              Point(0.0, 0.0), None, 1.0, 0, 0.0, false, 0.0, 0.0, 0.0)
  }

  /** A run starts playing, at time 0 with no gold, no entities, no pending skill, both
      multipliers 1 with their first steps at 15 s and 45 s, and the unzoomed view. */
  lemma InitialStateFacts(u: Records.PermanentUpgrades, cls: Classes.CharacterClass)
    ensures var s := CreateInitialGameState(u, cls);
      && s.gold == 0.0 && s.time == 0.0 && s.score == 0 && s.gameStatus == Playing
      && s.difficultyMultiplier == 1.0 && s.enemyHealthMultiplier == 1.0
      && s.nextDifficultyIncrease == 15000.0 && s.nextEnemyHealthIncrease == 45000.0
      && s.screenScale == 1.0 && s.pendingSkillDrop == None && s.enemiesKilled == 0
      && s.enemies == [] && s.projectiles == [] && s.items == [] && s.particles == []
      && s.upgrades == u && s.player == CreateInitialPlayer(u, cls)
  {
  }

  // ---------------------------------------------------------------------------------------
  // createEnemy

  /** Why an enemy cannot be built: its type has no entry in the template table (the source
      reads a field of `undefined` and throws). */
  datatype EnemyError = MissingTemplate(kind: C.EnemyType)

  /** The type a spawn roll selects. The normal types need a second draw. */
  function EnemyTypeOf(spawnRoll: real, typeRoll: real): (t: C.EnemyType)
    requires 0.0 <= typeRoll < 1.0
  {
    if spawnRoll < 0.05 then C.HeavyTank
    else if spawnRoll < 0.07 then C.Speeder
    else C.EnemyTypeNames[(typeRoll * 3.0).Floor]
  }

  /** How many draws the type selection takes. */
  function TypeDraws(spawnRoll: real): nat
  {
    if spawnRoll < 0.07 then 1 else 2
  }

  /** `createEnemy`: draws the type, then the spawn point on the nominal canvas (the zoom is
      not passed on), then the id. Returns the enemy, or the missing-template error, and the
      next unused draw. */
  function CreateEnemy(state: GameState, random: RandomStream, cursor: nat)
    : (r: (Result<Enemy, EnemyError>, nat))
    requires ValidRandom(random)
  {
    var spawnRoll := random(cursor);
    var kind := EnemyTypeOf(spawnRoll, random(cursor + 1));
    var (pos, afterPos) := GetRandomSpawnPosition(C.CanvasWidth, C.CanvasHeight, random,
                                                  cursor + TypeDraws(spawnRoll));
    var id := afterPos;
    match C.EnemyTemplateOf(kind)
    case None => (Failure(MissingTemplate(kind)), id + 1)
    case Some(t) =>
      var hp := t.hp * state.enemyHealthMultiplier;
      (Success(Enemy(id, kind, pos.x, pos.y, hp, hp, t.speed, t.damage, t.size, t.color, 0.0,
                     t.goldDrop, Some(0.0))), id + 1)
  }

  /** A roll below 0.05 asks for a heavy tank and one below 0.07 for a speeder, and both fail
      for want of a template; any other roll builds a grunt, runner or tank by the second
      draw, with health scaled by the current multiplier, no flash, last attack 0, a spawn point
      outside the canvas, and the fifth draw as its id. */
  lemma CreateEnemyFacts(state: GameState, random: RandomStream, cursor: nat)
    requires ValidRandom(random)
    ensures var (r, next) := CreateEnemy(state, random, cursor);
      && (r.Failure? <==> random(cursor) < 0.07)
      && (random(cursor) < 0.05 ==> r == Failure(MissingTemplate(C.HeavyTank)))
      && (0.05 <= random(cursor) < 0.07 ==> r == Failure(MissingTemplate(C.Speeder)))
      && (r.Success? ==>
            var e := r.value;
            && next == cursor + 5 && e.id == cursor + 4
            && e.kind in C.EnemyTypeNames
            && e.kind == C.EnemyTypeNames[(random(cursor + 1) * 3.0).Floor]
            && C.EnemyTemplateOf(e.kind).Some?
            && e.hp == e.maxHp == C.EnemyTemplateOf(e.kind).value.hp * state.enemyHealthMultiplier
            && e.flashUntil == 0.0 && e.lastAttack == Some(0.0)
            && e.goldDrop == C.EnemyTemplateOf(e.kind).value.goldDrop
            && !(0.0 <= e.x <= C.CanvasWidth && 0.0 <= e.y <= C.CanvasHeight))
  {
    SpawnPositionOutside(C.CanvasWidth, C.CanvasHeight, random, cursor + TypeDraws(random(cursor)));
  }

  /** The zoom level has no influence on where (or what) an enemy spawns. */
  lemma SpawnIgnoresZoom(state: GameState, scale: real, random: RandomStream, cursor: nat)
    requires ValidRandom(random)
    ensures CreateEnemy(state.(screenScale := scale), random, cursor) == CreateEnemy(state, random, cursor)
  {
  }

  // ---------------------------------------------------------------------------------------
  // createProjectile

  /** `equippedSkills.find(skill => skill.effects.some(e => e.type === 'piercing'))`. */
  function FindPiercingSkill(skills: seq<Classes.PassiveSkill>): Option<Classes.PassiveSkill>
  {
    if |skills| == 0 then None
    else if exists k :: 0 <= k < |skills[0].effects| && skills[0].effects[k].kind == Classes.Piercing
    then Some(skills[0])
    else FindPiercingSkill(skills[1..])
  }

  predicate HasPiercingEffect(s: Classes.PassiveSkill)
  {
    exists k :: 0 <= k < |s.effects| && s.effects[k].kind == Classes.Piercing
  }

  /** The search finds a skill exactly when some equipped skill has a piercing effect, and
      what it finds is the first such skill. */
  lemma {:induction false} FindPiercingSkillFacts(skills: seq<Classes.PassiveSkill>)
    ensures FindPiercingSkill(skills).Some? <==> exists i :: 0 <= i < |skills| && HasPiercingEffect(skills[i])
    ensures FindPiercingSkill(skills).Some? ==>
      exists i :: 0 <= i < |skills| && skills[i] == FindPiercingSkill(skills).value
        && HasPiercingEffect(skills[i]) && forall j :: 0 <= j < i ==> !HasPiercingEffect(skills[j])
  {
    if |skills| > 0 {
      if HasPiercingEffect(skills[0]) {
        assert skills[0] == FindPiercingSkill(skills).value;
      } else {
        FindPiercingSkillFacts(skills[1..]);
        if FindPiercingSkill(skills).Some? {
          var i :| 0 <= i < |skills[1..]| && skills[1..][i] == FindPiercingSkill(skills[1..]).value
            && HasPiercingEffect(skills[1..][i]) && forall j :: 0 <= j < i ==> !HasPiercingEffect(skills[1..][j]);
          assert forall j :: 0 <= j < i + 1 ==> !HasPiercingEffect(skills[j]) by {
            forall j | 0 <= j < i + 1
              ensures !HasPiercingEffect(skills[j])
            {
              if j > 0 {
                assert skills[j] == skills[1..][j - 1];
              }
            }
          }
          assert skills[i + 1] == skills[1..][i];
        } else {
          forall i | 0 <= i < |skills|
            ensures !HasPiercingEffect(skills[i])
          {
            if i > 0 {
              assert skills[i] == skills[1..][i - 1];
            }
          }
        }
      }
    }
  }

  /** `createProjectile`: aimed from `from` towards `to`; with a player it takes the class
      projectile's speed and size and pierces when the class or an equipped skill says so;
      without one it takes the default speed and size and never pierces. */
  function CreateProjectile(m: Maths, from: Point, to: Point, damage: real, player: Option<Player>,
                            id: nat): Projectile
  {
    var direction := Normalize(m, Point(to.x - from.x, to.y - from.y));
    var (speed, size, piercing) :=
      match player
      case None => (C.ProjectileSpeed, C.ProjectileSize, false)
      case Some(p) =>
        var pc := Classes.ClassConfigOf(p.classState.selectedClass).projectileConfig;
        (pc.speed, pc.size,
         pc.piercing == Some(true) || FindPiercingSkill(p.classState.equippedSkills).Some?);
    Projectile(id, from.x, from.y, direction.x * speed, direction.y * speed, damage, size,
               piercing, if piercing then Some({}) else None)
  }

  /** A bolter's projectile pierces exactly when an equipped skill has a piercing effect;
      its pierced-set is empty exactly when it pierces and absent otherwise; it starts at the
      shooter with size 4 and speed 400 along the unit direction to the target. */
  lemma CreateProjectileFacts(m: Maths, from: Point, to: Point, damage: real, p: Player, id: nat)
    requires ValidMaths(m) && p.classState.selectedClass == Classes.Bolter
    ensures var pr := CreateProjectile(m, from, to, damage, Some(p), id);
      && (pr.piercing <==> exists i :: 0 <= i < |p.classState.equippedSkills|
                                        && HasPiercingEffect(p.classState.equippedSkills[i]))
      && (pr.piercedEnemies == Some({}) <==> pr.piercing)
      && (pr.piercedEnemies == None <==> !pr.piercing)
      && pr.x == from.x && pr.y == from.y && pr.size == 4.0 && pr.damage == damage && pr.id == id
      && (from != to ==> Sq(pr.vx) + Sq(pr.vy) == Sq(400.0))
      && (from == to ==> pr.vx == 0.0 && pr.vy == 0.0)
  {
    FindPiercingSkillFacts(p.classState.equippedSkills);
    var pc := Classes.ClassConfigOf(Classes.Bolter).projectileConfig;
    assert pc.speed == 400.0 && pc.size == 4.0 && pc.piercing == None;
    var v := Point(to.x - from.x, to.y - from.y);
    NormalizeFacts(m, v);
    var n := Normalize(m, v);
    var pr := CreateProjectile(m, from, to, damage, Some(p), id);
    assert pr.vx == n.x * 400.0 && pr.vy == n.y * 400.0;
    if from != to {
      assert v != Point(0.0, 0.0);
      ScaledUnit(n.x, n.y, 400.0);
    }
  }

  /** A projectile without an owner uses the default speed and size and never pierces. */
  lemma UnownedProjectile(m: Maths, from: Point, to: Point, damage: real, id: nat)
    ensures var pr := CreateProjectile(m, from, to, damage, None, id);
      !pr.piercing && pr.piercedEnemies == None && pr.size == 6.0
  {
  }

  lemma ScaledUnit(nx: real, ny: real, s: real)
    requires Sq(nx) + Sq(ny) == 1.0
    ensures Sq(nx * s) + Sq(ny * s) == Sq(s)
  {
    assert Sq(nx * s) == Sq(nx) * Sq(s);
    assert Sq(ny * s) == Sq(ny) * Sq(s);
    assert Sq(nx) * Sq(s) + Sq(ny) * Sq(s) == (Sq(nx) + Sq(ny)) * Sq(s);
  }

  // ---------------------------------------------------------------------------------------
  // createItem

  /** `createItem`: a mega bolt is displayed as gold. */
  function CreateItem(request: ItemRequest, position: Point, value: real, id: nat): Item
  {
    Item(id, if request == AsHealth then HealthItem else GoldItem, position.x, position.y, value,
         false, request == AsMegaBolt)
  }

  /** A new item is uncollected, placed at the position with the value; it is a mega bolt
      exactly when one was asked for, and it shows as health exactly when health was asked for. */
  lemma CreateItemFacts(request: ItemRequest, position: Point, value: real, id: nat)
    ensures var it := CreateItem(request, position, value, id);
      && !it.collected && it.x == position.x && it.y == position.y && it.value == value
      && (it.isMegaBolt <==> request == AsMegaBolt)
      && (it.kind == HealthItem <==> request == AsHealth)
      && (it.kind == GoldItem <==> request in {AsGold, AsMegaBolt})
  {
  }

  // ---------------------------------------------------------------------------------------
  // createParticles

  /** `Math.PI`. */
  const Pi: real := 3.141592653589793

  /** The `i`-th of `count` particles: evenly spread angles, a speed and a size drawn in that
      order from draws `2i` and `2i + 1` after `cursor`. */
  function ParticleAt(m: Maths, position: Point, color: string, count: nat, i: nat,
                      random: RandomStream, cursor: nat): Particle
    requires i < count
  {
    var angle := Pi * 2.0 * (i as real) / (count as real);
    var speed := 50.0 + random(cursor + 2 * i) * 100.0;
    Particle(position.x, position.y, m.cos(angle) * speed, m.sin(angle) * speed,
             C.ParticleLife, C.ParticleLife, color, 3.0 + random(cursor + 2 * i + 1) * 3.0)
  }

  function Particles(m: Maths, position: Point, color: string, count: nat,
                     random: RandomStream, cursor: nat): seq<Particle>
  {
    seq(count, i requires 0 <= i < count => ParticleAt(m, position, color, count, i, random, cursor))
  }

  /** `createParticles`: the loop that pushes `count` particles. */
  method CreateParticles(m: Maths, position: Point, color: string, count: nat,
                         random: RandomStream, cursor: nat)
    returns (particles: seq<Particle>, next: nat)
    ensures particles == Particles(m, position, color, count, random, cursor)
    ensures next == cursor + 2 * count
  {
    particles := [];
    var i := 0;
    while i < count
      invariant 0 <= i <= count
      invariant |particles| == i
      invariant forall k :: 0 <= k < i ==>
        particles[k] == ParticleAt(m, position, color, count, k, random, cursor)
    {
      var angle := Pi * 2.0 * (i as real) / (count as real);
      var speed := 50.0 + random(cursor + 2 * i) * 100.0;
      particles := particles + [Particle(position.x, position.y, m.cos(angle) * speed,
                                         m.sin(angle) * speed, C.ParticleLife, C.ParticleLife,
                                         color, 3.0 + random(cursor + 2 * i + 1) * 3.0)];
      i := i + 1;
    }
    next := cursor + 2 * count;
  }

  /** Exactly `count` particles, all at the position in the given colour with life and maximum
      life 500, a size in [3, 6) and a speed in [50, 150) along the unit circle. */
  lemma ParticlesFacts(m: Maths, position: Point, color: string, count: nat,
                       random: RandomStream, cursor: nat)
    requires ValidRandom(random)
    ensures var ps := Particles(m, position, color, count, random, cursor);
      && |ps| == count
      && forall k :: 0 <= k < count ==>
           && ps[k].x == position.x && ps[k].y == position.y && ps[k].color == color
           && ps[k].life == ps[k].maxLife == 500.0
           && 3.0 <= ps[k].size < 6.0
  {
    var ps := Particles(m, position, color, count, random, cursor);
    forall k | 0 <= k < count
      ensures 3.0 <= ps[k].size < 6.0
    {
      var r := random(cursor + 2 * k + 1);
      assert 0.0 <= r < 1.0;
    }
  }

  // ---------------------------------------------------------------------------------------
  // findNearestEnemy

  function DistanceTo(m: Maths, p: Player, e: Enemy): real
  {
    GetDistance(m, PlayerPoint(p), EnemyPoint(e))
  }

  /** The index the scan ends on: the first enemy of least distance. */
  function NearestIndex(m: Maths, p: Player, enemies: seq<Enemy>): (k: nat)
    requires |enemies| > 0
    ensures k < |enemies|
    ensures forall j :: 0 <= j < |enemies| ==> DistanceTo(m, p, enemies[k]) <= DistanceTo(m, p, enemies[j])
    ensures forall j :: 0 <= j < k ==> DistanceTo(m, p, enemies[j]) > DistanceTo(m, p, enemies[k])
  {
    if |enemies| == 1 then 0
    else
      var k := NearestIndex(m, p, enemies[..|enemies| - 1]);
      assert forall j :: 0 <= j < |enemies| - 1 ==> enemies[..|enemies| - 1][j] == enemies[j];
      if DistanceTo(m, p, enemies[|enemies| - 1]) < DistanceTo(m, p, enemies[k])
      then |enemies| - 1 else k
  }

  /** `findNearestEnemy`: none for an empty list, else the first enemy of least distance. */
  function FindNearestEnemy(m: Maths, p: Player, enemies: seq<Enemy>): Option<Enemy>
  {
    if |enemies| == 0 then None else Some(enemies[NearestIndex(m, p, enemies)])
  }

  /** The scan itself: keeps the nearest so far and replaces it only on a strictly smaller
      distance. */
  method FindNearestEnemyScan(m: Maths, p: Player, enemies: seq<Enemy>) returns (r: Option<Enemy>)
    ensures r == FindNearestEnemy(m, p, enemies)
  {
    if |enemies| == 0 {
      return None;
    }
    var nearest := 0;
    var nearestDistance := DistanceTo(m, p, enemies[0]);
    var i := 1;
    while i < |enemies|
      invariant 1 <= i <= |enemies|
      invariant nearest == NearestIndex(m, p, enemies[..i])
      invariant nearestDistance == DistanceTo(m, p, enemies[nearest])
    {
      assert enemies[..i + 1][..i] == enemies[..i];
      var distance := DistanceTo(m, p, enemies[i]);
      if distance < nearestDistance {
        nearest := i;
        nearestDistance := distance;
      }
      i := i + 1;
    }
    assert enemies[..i] == enemies;
    r := Some(enemies[nearest]);
  }

  /** None exactly for no enemies; otherwise an enemy of the list at least distance, and no
      earlier enemy is as close. */
  lemma FindNearestEnemyFacts(m: Maths, p: Player, enemies: seq<Enemy>)
    ensures FindNearestEnemy(m, p, enemies).None? <==> |enemies| == 0
    ensures FindNearestEnemy(m, p, enemies).Some? ==>
      exists k :: 0 <= k < |enemies| && enemies[k] == FindNearestEnemy(m, p, enemies).value
        && (forall j :: 0 <= j < |enemies| ==> DistanceTo(m, p, enemies[k]) <= DistanceTo(m, p, enemies[j]))
        && (forall j :: 0 <= j < k ==> DistanceTo(m, p, enemies[j]) > DistanceTo(m, p, enemies[k]))
  {
    if |enemies| > 0 {
      var k := NearestIndex(m, p, enemies);
      assert enemies[k] == FindNearestEnemy(m, p, enemies).value;
    }
  }

  // ---------------------------------------------------------------------------------------
  // getUpgradeCost / canAffordUpgrade

  function Pow2(n: nat): (r: nat)
    ensures r >= 1
  {
    if n == 0 then 1 else 2 * Pow2(n - 1)
  }

  /** `getUpgradeCost`: the table entry while there is one, then the last entry doubled for
      every level beyond the table. */
  function GetUpgradeCost(t: C.UpgradeType, level: nat): int
  {
    var costs := C.UpgradeCosts(t);
    if level < |costs| then costs[level] else costs[|costs| - 1] * Pow2(level - |costs| + 1)
  }

  /** Every cost is positive, each level costs exactly twice the level before, so costs
      rise strictly with the level. */
  lemma UpgradeCostDoubles(t: C.UpgradeType, level: nat)
    ensures GetUpgradeCost(t, level) > 0
    ensures GetUpgradeCost(t, level + 1) == 2 * GetUpgradeCost(t, level)
    ensures GetUpgradeCost(t, level) < GetUpgradeCost(t, level + 1)
  {
    C.UpgradeCostRowsDouble(t);
    var costs := C.UpgradeCosts(t);
    if level >= 7 {
      assert Pow2(level + 1 - 7) == 2 * Pow2(level - 7);
    }
  }

  lemma {:induction false} UpgradeCostIncreasing(t: C.UpgradeType, a: nat, b: nat)
    requires a < b
    ensures GetUpgradeCost(t, a) < GetUpgradeCost(t, b)
    decreases b - a
  {
    UpgradeCostDoubles(t, a);
    if a + 1 < b {
      UpgradeCostIncreasing(t, a + 1, b);
    }
  }

  /** `canAffordUpgrade`: whoever can afford a level holds some gold and can afford the
      first level of the same upgrade. */
  function CanAffordUpgrade(gold: real, t: C.UpgradeType, level: nat): (b: bool)
    ensures b ==> gold > 0.0
    ensures b ==> gold >= GetUpgradeCost(t, 0) as real
  {
    UpgradeCostDoubles(t, 0);
    if level > 0 then
      UpgradeCostIncreasing(t, 0, level);
      gold >= GetUpgradeCost(t, level) as real
    else
      gold >= GetUpgradeCost(t, level) as real
  }

  /** Being able to afford a level means being able to afford every cheaper one, and no
      level is affordable with no gold. */
  lemma AffordabilityDownward(gold: real, t: C.UpgradeType, a: nat, b: nat)
    requires a <= b && CanAffordUpgrade(gold, t, b)
    ensures CanAffordUpgrade(gold, t, a)
    ensures !CanAffordUpgrade(0.0, t, a)
  {
    if a < b {
      UpgradeCostIncreasing(t, a, b);
    }
    UpgradeCostDoubles(t, a);
  }
}
