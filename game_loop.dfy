/** One tick of the simulation, `updateGameState` in src/hooks/useGameLoop.ts, composed from
    the phases, plus the escape-to-pause transition and repeated ticks. The specification is
    the function `Step`; `UpdateGameState` is the source's sequence of updates, proved equal
    to it. */
module GameLoop {

  import opened Wrappers
  import opened Numbers
  import opened Entropy
  import C = Constants
  import Classes
  import opened Collision
  import opened Entities
  import SkillSystem
  import GameLogic
  import opened GameLoopPhases
  import opened GameLoopEncounters

  /** What every state reached from the initial one satisfies: the zoom is 1 or 0.8 and both
      multipliers are at least 1. */
  predicate WellFormed(s: GameState)
  {
    (s.screenScale == 1.0 || s.screenScale == 0.8)
    && s.difficultyMultiplier >= 1.0 && s.enemyHealthMultiplier >= 1.0
  }

  /** The state after the first phases: skills re-applied, player and enemies moved, projectiles
      and particles integrated, and the auto-fire shot added. */
  datatype Prepared = Prepared(newTime: real, player: Player, enemies: seq<Enemy>,
                               projectiles: seq<Projectile>, particles: seq<Particle>, cursor: nat)

  function Prepare(m: Maths, state: GameState, deltaTime: real, input: InputState, cursor: nat)
    : Prepared
    requires state.screenScale > 0.0
  {
    Arm(m, state, deltaTime, Moved(state, deltaTime, input), cursor)
  }

  /** The player with the skills re-applied, moved by the keys and clamped. */
  function Moved(state: GameState, deltaTime: real, input: InputState): Player
    requires state.screenScale > 0.0
  {
    var skilled := SkillSystem.SkillAdjusted(state.player, state.player.classState.equippedSkills);
    MovePlayer(skilled, input, state.screenScale, deltaTime / 1000.0)
  }

  /** The phases after the player has moved: pursuit, integration and auto-fire. */
  function Arm(m: Maths, state: GameState, deltaTime: real, moved: Player, cursor: nat): Prepared
  {
    var dt := deltaTime / 1000.0;
    var newTime := state.time + deltaTime;
    var enemies := MoveEnemies(m, state.enemies, moved, dt, deltaTime);
    Armed(state, deltaTime, enemies, AutoFire(m, moved, enemies, newTime, cursor))
  }

  /** Assembly once the enemies have moved and the auto-fire outcome is known. */
  function Armed(state: GameState, deltaTime: real, enemies: seq<Enemy>, fire: FireOutcome): Prepared
  {
    var dt := deltaTime / 1000.0;
    Prepared(state.time + deltaTime, fire.player, enemies,
             IntegrateProjectiles(state.projectiles, dt) + (if fire.shot.Some? then [fire.shot.value] else []),
             IntegrateParticles(state.particles, dt, deltaTime), fire.cursor)
  }

  /** The early return when contact kills the player: everything but the player, the status and
      the score keeps the previous tick's value. */
  function Died(state: GameState, player: Player, newTime: real): GameState
  {
    state.(player := player, gameStatus := Dead, score := (newTime / 1000.0).Floor)
  }

  /** Whether the spawn cooldown, shortened by the difficulty multiplier, has passed. */
  predicate SpawnDue(state: GameState, newTime: real)
    requires state.difficultyMultiplier > 0.0
  {
    newTime - state.lastEnemySpawn > C.EnemySpawnRate / state.difficultyMultiplier
  }

  /** A scheduled multiplier: once `newTime` reaches the next step, multiply and move the step
      one interval on. */
  function Scheduled(multiplier: real, next: real, newTime: real, factor: real, interval: real)
    : (real, real)
  {
    if newTime >= next then (multiplier * factor, next + interval) else (multiplier, next)
  }

  /** The camera offset: two draws while the screen shakes, the origin otherwise. */
  function Camera(shake: real, random: RandomStream, cursor: nat): (Point, nat)
  {
    if shake > 0.0
    then (Point((random(cursor) - 0.5) * C.ScreenShakeIntensity,
                (random(cursor + 1) - 0.5) * C.ScreenShakeIntensity), cursor + 2)
    else (Point(0.0, 0.0), cursor)
  }

  /** The one-time zoom-out at 60 seconds. */
  function Zoom(scale: real, newTime: real): real
  {
    if newTime >= 60000.0 && scale == 1.0 then 0.8 else scale
  }

  /** The last phases after a survived contact: spawning (which fails on a type without a
      template), the two schedules, the camera and the zoom. */
  function Finish(random: RandomStream, state: GameState, newTime: real, kept: seq<Projectile>,
                  d: Deaths, ct: Contact, pk: Pickup): (Result<GameState, GameLogic.EnemyError>, nat)
    requires ValidRandom(random) && state.difficultyMultiplier > 0.0
  {
    var (spawned, afterSpawn) :=
      if SpawnDue(state, newTime) then GameLogic.CreateEnemy(state, random, pk.cursor)
      else (Failure(GameLogic.MissingTemplate(C.Grunt)), pk.cursor);
    if SpawnDue(state, newTime) && spawned.Failure? then (Failure(spawned.error), afterSpawn)
    else
      var (difficulty, nextDifficulty) :=
        Scheduled(state.difficultyMultiplier, state.nextDifficultyIncrease, newTime,
                  1.0 + C.SpawnRateIncrease, C.DifficultyIncreaseInterval);
      var (health, nextHealth) :=
        Scheduled(state.enemyHealthMultiplier, state.nextEnemyHealthIncrease, newTime,
                  1.0 + C.EnemyHealthIncrease, C.EnemyHealthIncreaseInterval);
      var (camera, next) := Camera(ct.screenShake, random, afterSpawn);
      (Success(state.(
         player := pk.player,
         enemies := if SpawnDue(state, newTime) then d.alive + [spawned.value] else d.alive,
         projectiles := kept,
         items := pk.kept,
         particles := pk.particles,
         gold := pk.gold,
         time := newTime,
         lastEnemySpawn := if SpawnDue(state, newTime) then newTime else state.lastEnemySpawn,
         nextDifficultyIncrease := nextDifficulty,
         nextEnemyHealthIncrease := nextHealth,
         difficultyMultiplier := difficulty,
         enemyHealthMultiplier := health,
         screenShake := ct.screenShake,
         camera := camera,
         pendingSkillDrop := d.pending,
         screenScale := Zoom(state.screenScale, newTime),
         enemiesKilled := state.enemiesKilled + d.killed)), next)
  }

  /** The hit phase of a tick. */
  function HitsOf(m: Maths, random: RandomStream, a: Prepared): HitPhase
  {
    HitsFrom(m, a.newTime, random, a.projectiles, HitPhase(a.enemies, [], {}, a.particles, a.cursor, []), 0)
  }

  /** The death phase of a tick. */
  function DeathsOf(m: Maths, random: RandomStream, state: GameState, a: Prepared, h: HitPhase): Deaths
    requires ValidRandom(random)
  {
    DeathsFrom(m, random, a.player.goldMultiplier, h.enemies,
               Deaths([], state.items, h.particles, state.pendingSkillDrop, 0, h.cursor), 0)
  }

  /** The contact phase of a tick. */
  function ContactOf(m: Maths, random: RandomStream, state: GameState, deltaTime: real,
                     a: Prepared, d: Deaths): Contact
  {
    ContactOutcome(m, random, a.newTime, deltaTime, a.player, d.alive, state.screenShake,
                   d.particles, d.cursor)
  }

  /** The pickup phase of a tick. */
  function PickupOf(m: Maths, random: RandomStream, state: GameState, d: Deaths, ct: Contact): Pickup
  {
    PickupsFrom(m, random, d.items, Pickup(ct.player, state.gold, [], ct.particles, ct.cursor), 0)
  }

  /** `updateGameState(state, deltaTime, input)` with the draws read from `random` at `cursor`:
      the new state (or the failure of building an enemy) and the next cursor. */
  function Step(m: Maths, random: RandomStream, cursor: nat, state: GameState, deltaTime: real,
                input: InputState): (Result<GameState, GameLogic.EnemyError>, nat)
    requires ValidRandom(random) && state.screenScale > 0.0 && state.difficultyMultiplier > 0.0
  {
    var a := Prepare(m, state, deltaTime, input, cursor);
    var h := HitsOf(m, random, a);
    var d := DeathsOf(m, random, state, a, h);
    var ct := ContactOf(m, random, state, deltaTime, a, d);
    if ct.dead then (Success(Died(state, ct.player, a.newTime)), ct.cursor)
    else Finish(random, state, a.newTime, h.kept, d, ct, PickupOf(m, random, state, d, ct))
  }

  /** The source's update, step by step on local copies. */
  method UpdateGameState(m: Maths, random: RandomStream, cursor: nat, state: GameState,
                         deltaTime: real, input: InputState)
    returns (r: Result<GameState, GameLogic.EnemyError>, next: nat)
    requires ValidRandom(random) && state.screenScale > 0.0 && state.difficultyMultiplier > 0.0
    ensures (r, next) == Step(m, random, cursor, state, deltaTime, input)
  {
    var a := PrepareTick(m, state, deltaTime, input, cursor);
    var h := ResolveHits(m, a.newTime, random, a.projectiles, a.enemies, a.particles, a.cursor);
    var d := RemoveDead(m, random, a.player.goldMultiplier, h.enemies, state.items, h.particles,
                        state.pendingSkillDrop, h.cursor);
    var ct := ResolveContact(m, random, a.newTime, deltaTime, a.player, d.alive, state.screenShake,
                             d.particles, d.cursor);
    if ct.dead {
      return Success(state.(player := ct.player, gameStatus := Dead,
                            score := (a.newTime / 1000.0).Floor)), ct.cursor;
    }
    var pk := CollectItems(m, random, d.items, ct.player, state.gold, ct.particles, ct.cursor);
    r, next := FinishTick(random, state, a.newTime, h.kept, d, ct, pk);
  }

  /** The first phases: skills, movement with the clamp, pursuit, integration, auto-fire. */
  method PrepareTick(m: Maths, state: GameState, deltaTime: real, input: InputState, cursor: nat)
    returns (a: Prepared)
    requires state.screenScale > 0.0
    ensures a == Prepare(m, state, deltaTime, input, cursor)
  {
    var player := MoveTick(state, deltaTime, input);
    a := ArmTick(m, state, deltaTime, player, cursor);
  }

  /** Skills re-applied, then the key-driven move. */
  method MoveTick(state: GameState, deltaTime: real, input: InputState) returns (player: Player)
    requires state.screenScale > 0.0
    ensures player == Moved(state, deltaTime, input)
  {
    player := SkillSystem.ApplySkillEffects(state.player, state.player.classState.equippedSkills);
    player := MovePlayerTick(player, input, state.screenScale, deltaTime / 1000.0);
  }

  /** Pursuit, integration and auto-fire, on local copies. */
  method ArmTick(m: Maths, state: GameState, deltaTime: real, player: Player, cursor: nat)
    returns (a: Prepared)
    ensures a == Arm(m, state, deltaTime, player, cursor)
  {
    var enemies := MoveEnemies(m, state.enemies, player, deltaTime / 1000.0, deltaTime);
    var fire := AutoFireTick(m, player, enemies, state.time + deltaTime, cursor);
    a := AssembleTick(state, deltaTime, enemies, fire);
  }

  /** Integration of projectiles and particles, and the shot pushed when one was fired. */
  method AssembleTick(state: GameState, deltaTime: real, enemies: seq<Enemy>, fire: FireOutcome)
    returns (a: Prepared)
    ensures a == Armed(state, deltaTime, enemies, fire)
  {
    var dt := deltaTime / 1000.0;
    var projectiles := IntegrateProjectiles(state.projectiles, dt);
    var particles := IntegrateParticles(state.particles, dt, deltaTime);
    projectiles := Launch(projectiles, fire.shot);
    a := Prepared(state.time + deltaTime, fire.player, enemies, projectiles, particles, fire.cursor);
  }

  /** `projectiles.push(projectile)` when a shot was fired. */
  method Launch(projectiles: seq<Projectile>, shot: Option<Projectile>) returns (r: seq<Projectile>)
    ensures r == projectiles + (if shot.Some? then [shot.value] else [])
  {
    r := projectiles;
    if shot.Some? {
      r := r + [shot.value];
    }
  }

  /** The key-driven move with the diagonal factor and the clamp to the zoomed field. */
  method MovePlayerTick(p: Player, input: InputState, scale: real, dt: real) returns (player: Player)
    requires scale > 0.0
    ensures player == MovePlayer(p, input, scale, dt)
  {
    var heading := HeadingTick(input);
    var dx, dy := heading.x, heading.y;
    player := p;
    player := player.(x := Displaced(player.x, dx, player.speed, dt));
    player := player.(y := Displaced(player.y, dy, player.speed, dt));
    player := player.(x := ClampAxis(player.x, C.CanvasWidth, scale),
                      y := ClampAxis(player.y, C.CanvasHeight, scale));
  }

  /** The key-driven direction, with the diagonal factor. */
  method HeadingTick(input: InputState) returns (h: Point)
    ensures h == Heading(input)
  {
    var dx, dy := 0.0, 0.0;
    if input.up { dy := dy - 1.0; }
    if input.down { dy := dy + 1.0; }
    if input.left { dx := dx - 1.0; }
    if input.right { dx := dx + 1.0; }
    if dx != 0.0 && dy != 0.0 {
      dx := dx * 0.707;
      dy := dy * 0.707;
    }
    h := Point(dx, dy);
  }

  /** The auto-attack: the nearest-enemy scan, the cooldown test, the shot. */
  method AutoFireTick(m: Maths, p: Player, enemies: seq<Enemy>, newTime: real, cursor: nat)
    returns (fire: FireOutcome)
    ensures fire == AutoFire(m, p, enemies, newTime, cursor)
  {
    var nearest := GameLogic.FindNearestEnemyScan(m, p, enemies);
    if nearest.Some? && newTime - p.lastShot > p.fireRate * 1000.0 {
      var shot := GameLogic.CreateProjectile(m, PlayerPoint(p), EnemyPoint(nearest.value), p.damage, Some(p), cursor);
      fire := FireOutcome(p.(lastShot := newTime), Some(shot), cursor + 1);
    } else {
      fire := FireOutcome(p, None, cursor);
    }
  }

  /** The last phases: spawn, schedules, camera, zoom, and the new state. */
  method FinishTick(random: RandomStream, state: GameState, newTime: real, kept: seq<Projectile>,
                    d: Deaths, ct: Contact, pk: Pickup)
    returns (r: Result<GameState, GameLogic.EnemyError>, next: nat)
    requires ValidRandom(random) && state.difficultyMultiplier > 0.0
    ensures (r, next) == Finish(random, state, newTime, kept, d, ct, pk)
  {
    var c := pk.cursor;
    var enemies := d.alive;
    var lastEnemySpawn := state.lastEnemySpawn;
    var spawnRate := C.EnemySpawnRate / state.difficultyMultiplier;
    if newTime - lastEnemySpawn > spawnRate {
      var (created, afterSpawn) := GameLogic.CreateEnemy(state, random, c);
      c := afterSpawn;
      if created.Failure? {
        return Failure(created.error), c;
      }
      enemies := enemies + [created.value];
      lastEnemySpawn := newTime;
    }
    var difficultyMultiplier, nextDifficultyIncrease := state.difficultyMultiplier, state.nextDifficultyIncrease;
    if newTime >= nextDifficultyIncrease {
      difficultyMultiplier := difficultyMultiplier * (1.0 + C.SpawnRateIncrease);
      nextDifficultyIncrease := nextDifficultyIncrease + C.DifficultyIncreaseInterval;
    }
    var enemyHealthMultiplier, nextEnemyHealthIncrease := state.enemyHealthMultiplier, state.nextEnemyHealthIncrease;
    if newTime >= nextEnemyHealthIncrease {
      enemyHealthMultiplier := enemyHealthMultiplier * (1.0 + C.EnemyHealthIncrease);
      nextEnemyHealthIncrease := nextEnemyHealthIncrease + C.EnemyHealthIncreaseInterval;
    }
    var camera := Point(0.0, 0.0);
    if ct.screenShake > 0.0 {
      camera := Point((random(c) - 0.5) * C.ScreenShakeIntensity, (random(c + 1) - 0.5) * C.ScreenShakeIntensity);
      c := c + 2;
    }
    var screenScale := state.screenScale;
    if newTime >= 60000.0 && screenScale == 1.0 {
      screenScale := 0.8;
    }
    r := Success(state.(
      player := pk.player, enemies := enemies, projectiles := kept, items := pk.kept,
      particles := pk.particles, gold := pk.gold, time := newTime, lastEnemySpawn := lastEnemySpawn,
      nextDifficultyIncrease := nextDifficultyIncrease, nextEnemyHealthIncrease := nextEnemyHealthIncrease,
      difficultyMultiplier := difficultyMultiplier, enemyHealthMultiplier := enemyHealthMultiplier,
      screenShake := ct.screenShake, camera := camera, pendingSkillDrop := d.pending,
      screenScale := screenScale, enemiesKilled := state.enemiesKilled + d.killed));
    next := c;
  }

  // ---------------------------------------------------------------------------------------
  // Properties of one tick

  /** The first phases leave the player as the skill-adjusted player moved and clamped, with
      at most the shot time changed to the new time; they keep one moved enemy per enemy and add
      at most one projectile, taking at most one draw. */
  lemma PrepareFacts(m: Maths, state: GameState, deltaTime: real, input: InputState, cursor: nat)
    requires state.screenScale > 0.0
    ensures var a := Prepare(m, state, deltaTime, input, cursor);
      var adjusted := SkillSystem.SkillAdjusted(state.player, state.player.classState.equippedSkills);
      var moved := MovePlayer(adjusted, input, state.screenScale, deltaTime / 1000.0);
      && a.newTime == state.time + deltaTime
      && (a.player == moved || a.player == moved.(lastShot := a.newTime))
      && |a.enemies| == |state.enemies|
      && |a.projectiles| <= |state.projectiles| + 1
      && cursor <= a.cursor <= cursor + 1
  {
    var skilled := SkillSystem.SkillAdjusted(state.player, state.player.classState.equippedSkills);
    var dt := deltaTime / 1000.0;
    var moved := MovePlayer(skilled, input, state.screenScale, dt);
    var enemies := MoveEnemies(m, state.enemies, moved, dt, deltaTime);
    var fire := AutoFire(m, moved, enemies, state.time + deltaTime, cursor);
    AutoFireFacts(m, moved, enemies, state.time + deltaTime, cursor);
    IntegrateProjectilesFacts(state.projectiles, dt);
    var a := Prepare(m, state, deltaTime, input, cursor);
    assert a.player == fire.player && a.cursor == fire.cursor && a.enemies == enemies;
    assert a.projectiles == IntegrateProjectiles(state.projectiles, dt)
                            + (if fire.shot.Some? then [fire.shot.value] else []);
  }

  /** When the tick gets this far: a spawn is due exactly when `lastEnemySpawn` moves to the
      new time, and then the one new enemy comes last; a failed spawn is the only failure; the
      kill count grows by this tick's kills; the player, the projectiles, the items and the
      pending offer are the ones the phases produced, and the status stays. */
  lemma FinishFacts(random: RandomStream, state: GameState, newTime: real, kept: seq<Projectile>,
                    d: Deaths, ct: Contact, pk: Pickup)
    requires ValidRandom(random) && state.difficultyMultiplier > 0.0
    ensures var (r, next) := Finish(random, state, newTime, kept, d, ct, pk);
      && (r.Failure? ==> SpawnDue(state, newTime) && random(pk.cursor) < 0.07)
      && (r.Success? ==>
            && r.value.gameStatus == state.gameStatus
            && r.value.player == pk.player && r.value.projectiles == kept && r.value.items == pk.kept
            && r.value.pendingSkillDrop == d.pending
            && r.value.enemiesKilled == state.enemiesKilled + d.killed
            && r.value.time == newTime
            && (SpawnDue(state, newTime) ==>
                  && r.value.lastEnemySpawn == newTime
                  && |r.value.enemies| == |d.alive| + 1 && r.value.enemies[..|d.alive|] == d.alive
                  && var e := r.value.enemies[|d.alive|];
                  && e.kind in C.EnemyTypeNames
                  && e.hp == C.EnemyTemplateOf(e.kind).value.hp * state.enemyHealthMultiplier)
            && (!SpawnDue(state, newTime) ==>
                  r.value.lastEnemySpawn == state.lastEnemySpawn && r.value.enemies == d.alive))
      && pk.cursor <= next
  {
    GameLogic.CreateEnemyFacts(state, random, pk.cursor);
  }

  /** The difficulty schedules: each multiplier either stays or grows by its factor (1.3 for the
      spawn rate every 15 s, 1.5 for enemy health every 45 s), and its deadline moves on by the
      interval exactly when it has been reached; the zoom goes from 1 to 0.8 as soon as a minute
      has passed, and never back. */
  lemma FinishSchedules(random: RandomStream, state: GameState, newTime: real, kept: seq<Projectile>,
                        d: Deaths, ct: Contact, pk: Pickup)
    requires ValidRandom(random) && state.difficultyMultiplier > 0.0
    ensures var (r, _) := Finish(random, state, newTime, kept, d, ct, pk);
      r.Success? ==>
        var s := r.value;
        && (newTime >= state.nextDifficultyIncrease ==>
              s.difficultyMultiplier == state.difficultyMultiplier * 1.3
              && s.nextDifficultyIncrease == state.nextDifficultyIncrease + 15000.0)
        && (newTime < state.nextDifficultyIncrease ==>
              s.difficultyMultiplier == state.difficultyMultiplier
              && s.nextDifficultyIncrease == state.nextDifficultyIncrease)
        && (newTime >= state.nextEnemyHealthIncrease ==>
              s.enemyHealthMultiplier == state.enemyHealthMultiplier * 1.5
              && s.nextEnemyHealthIncrease == state.nextEnemyHealthIncrease + 45000.0)
        && (newTime < state.nextEnemyHealthIncrease ==>
              s.enemyHealthMultiplier == state.enemyHealthMultiplier
              && s.nextEnemyHealthIncrease == state.nextEnemyHealthIncrease)
        && (s.screenScale != state.screenScale ==> state.screenScale == 1.0 && s.screenScale == 0.8
                                                    && newTime >= 60000.0)
        && (state.screenScale == 1.0 && newTime >= 60000.0 ==> s.screenScale == 0.8)
        && (state.screenScale == 0.8 ==> s.screenScale == 0.8)
  {
  }

  /** The death phase at tick level: the survivors are the hit enemies with health left, every
      other one is counted as a kill, existing items stay in front of at most one drop per kill,
      and a pending offer stays. */
  lemma DeathsOfFacts(m: Maths, random: RandomStream, state: GameState, a: Prepared, h: HitPhase)
    requires ValidRandom(random)
    ensures var d := DeathsOf(m, random, state, a, h);
      && d.alive == Filter(IsAlive, h.enemies)
      && d.killed + |d.alive| == |h.enemies|
      && d.killed == |Filter(IsDead, h.enemies)|
      && |state.items| <= |d.items| <= |state.items| + d.killed
      && d.items[..|state.items|] == state.items
      && (state.pendingSkillDrop.Some? ==> d.pending == state.pendingSkillDrop)
  {
    var start := Deaths([], state.items, h.particles, state.pendingSkillDrop, 0, h.cursor);
    var g := a.player.goldMultiplier;
    DeathsSurvivors(m, random, g, h.enemies, start, 0);
    DeathsCount(m, random, g, h.enemies, start, 0);
    DeathsDrops(m, random, g, h.enemies, start, 0);
    AliveDeadPartition(h.enemies);
    assert h.enemies[0..] == h.enemies;
    assert [] + Filter(IsAlive, h.enemies) == Filter(IsAlive, h.enemies);
  }

  /** The game ends in a tick exactly through a contact that takes health to zero or below; the
      fatal tick keeps everything of the previous state but the player, the status and the
      score (the seconds survived), so its kills, drops and moves are lost. A failure only
      comes from a due spawn. */
  lemma StepDeath(m: Maths, random: RandomStream, cursor: nat, state: GameState, deltaTime: real,
                  input: InputState)
    requires ValidRandom(random) && state.screenScale > 0.0 && state.difficultyMultiplier > 0.0
    requires state.gameStatus == Playing
    ensures var (r, _) := Step(m, random, cursor, state, deltaTime, input);
      var newTime := state.time + deltaTime;
      && (r.Failure? ==> SpawnDue(state, newTime))
      && (r.Success? ==> r.value.gameStatus in {Playing, Dead})
      && (r.Success? && r.value.gameStatus == Dead ==>
            && r.value == Died(state, r.value.player, newTime)
            && r.value.player.hp <= 0.0 && r.value.score == (newTime / 1000.0).Floor)
  {
    var a := Prepare(m, state, deltaTime, input, cursor);
    var h := HitsOf(m, random, a);
    var d := DeathsOf(m, random, state, a, h);
    var ct := ContactOf(m, random, state, deltaTime, a, d);
    assert a.newTime == state.time + deltaTime;
    ContactFacts(m, random, a.newTime, deltaTime, a.player, d.alive, state.screenShake, d.particles, d.cursor);
    var res := Step(m, random, cursor, state, deltaTime, input).0;
    if ct.dead {
      assert res == Success(Died(state, ct.player, a.newTime));
      assert ct.player.hp <= 0.0;
    } else {
      var pk := PickupOf(m, random, state, d, ct);
      assert res == Finish(random, state, a.newTime, h.kept, d, ct, pk).0;
      FinishFacts(random, state, a.newTime, h.kept, d, ct, pk);
    }
  }

  /** Every tick re-applies the equipped skills to the stored player: damage, cooldown and gold
      multiplier end the tick as one more application of the bonuses (the drift), and speed,
      maximum health and class state are kept, whether the player survives the tick or not. */
  lemma StepPlayerStats(m: Maths, random: RandomStream, cursor: nat, state: GameState,
                        deltaTime: real, input: InputState)
    requires ValidRandom(random) && state.screenScale > 0.0 && state.difficultyMultiplier > 0.0
    ensures var (r, _) := Step(m, random, cursor, state, deltaTime, input);
      var adjusted := SkillSystem.SkillAdjusted(state.player, state.player.classState.equippedSkills);
      r.Success? ==>
        var q := r.value.player;
        && q.damage == adjusted.damage && q.fireRate == adjusted.fireRate
        && q.goldMultiplier == adjusted.goldMultiplier
        && q.speed == state.player.speed && q.maxHp == state.player.maxHp
        && q.classState == state.player.classState
  {
    SkillSystem.SkillAdjustedFrame(state.player, state.player.classState.equippedSkills);
    PrepareFacts(m, state, deltaTime, input, cursor);
    var a := Prepare(m, state, deltaTime, input, cursor);
    var h := HitsOf(m, random, a);
    var d := DeathsOf(m, random, state, a, h);
    var ct := ContactOf(m, random, state, deltaTime, a, d);
    ContactFacts(m, random, a.newTime, deltaTime, a.player, d.alive, state.screenShake, d.particles, d.cursor);
    if !ct.dead {
      var pk := PickupOf(m, random, state, d, ct);
      PickupsHeal(m, random, d.items, Pickup(ct.player, state.gold, [], ct.particles, ct.cursor), 0);
      FinishFacts(random, state, a.newTime, h.kept, d, ct, pk);
    }
  }

  /** The enemies after the spawn: the survivors and, when due, one new enemy with health
      above zero; the kill count takes this tick's kills. */
  lemma FinishEnemies(random: RandomStream, state: GameState, newTime: real, kept: seq<Projectile>,
                      d: Deaths, ct: Contact, pk: Pickup)
    requires ValidRandom(random) && state.difficultyMultiplier > 0.0 && state.enemyHealthMultiplier > 0.0
    requires forall k :: 0 <= k < |d.alive| ==> d.alive[k].hp > 0.0
    ensures var (r, _) := Finish(random, state, newTime, kept, d, ct, pk);
      r.Success? ==>
        && r.value.enemiesKilled + |r.value.enemies|
           == state.enemiesKilled + d.killed + |d.alive| + (if SpawnDue(state, newTime) then 1 else 0)
        && forall k :: 0 <= k < |r.value.enemies| ==> r.value.enemies[k].hp > 0.0
  {
    FinishFacts(random, state, newTime, kept, d, ct, pk);
    var (r, _) := Finish(random, state, newTime, kept, d, ct, pk);
    if r.Success? && SpawnDue(state, newTime) {
      var e := r.value.enemies[|d.alive|];
      C.EnemyTemplatesMatchNames(e.kind);
      PositiveProduct(C.EnemyTemplateOf(e.kind).value.hp, state.enemyHealthMultiplier);
      forall k | 0 <= k < |r.value.enemies|
        ensures r.value.enemies[k].hp > 0.0
      {
        if k < |d.alive| {
          assert r.value.enemies[k] == r.value.enemies[..|d.alive|][k];
        }
      }
    }
  }

  lemma PositiveProduct(a: real, b: real)
    requires a > 0.0 && b > 0.0
    ensures a * b > 0.0
  {
  }

  /** Kills are conserved: a surviving tick moves every dead enemy from the list to the kill
      count and adds one enemy when a spawn is due; every enemy left has health above zero,
      the new one because templates have positive health and the multiplier is positive. */
  lemma StepKills(m: Maths, random: RandomStream, cursor: nat, state: GameState, deltaTime: real,
                  input: InputState)
    requires ValidRandom(random) && state.screenScale > 0.0 && state.difficultyMultiplier > 0.0
    requires state.gameStatus == Playing && state.enemyHealthMultiplier > 0.0
    ensures var (r, _) := Step(m, random, cursor, state, deltaTime, input);
      var newTime := state.time + deltaTime;
      r.Success? && r.value.gameStatus == Playing ==>
        && r.value.enemiesKilled + |r.value.enemies|
           == state.enemiesKilled + |state.enemies| + (if SpawnDue(state, newTime) then 1 else 0)
        && forall k :: 0 <= k < |r.value.enemies| ==> r.value.enemies[k].hp > 0.0
  {
    PrepareFacts(m, state, deltaTime, input, cursor);
    var a := Prepare(m, state, deltaTime, input, cursor);
    var h := HitsOf(m, random, a);
    HitsShape(m, a.newTime, random, a.projectiles, HitPhase(a.enemies, [], {}, a.particles, a.cursor, []), 0);
    var d := DeathsOf(m, random, state, a, h);
    DeathsOfFacts(m, random, state, a, h);
    assert forall k :: 0 <= k < |d.alive| ==> d.alive[k].hp > 0.0 by {
      forall k | 0 <= k < |d.alive| ensures d.alive[k].hp > 0.0 {
        assert d.alive[k] in Filter(IsAlive, h.enemies);
      }
    }
    var ct := ContactOf(m, random, state, deltaTime, a, d);
    if !ct.dead {
      FinishEnemies(random, state, a.newTime, h.kept, d, ct, PickupOf(m, random, state, d, ct));
    }
  }

  /** Ticks keep the state well formed: the zoom stays 1 or 0.8 and the multipliers never
      fall, each staying or growing by its factor. */
  lemma StepWellFormed(m: Maths, random: RandomStream, cursor: nat, state: GameState,
                       deltaTime: real, input: InputState)
    requires ValidRandom(random) && WellFormed(state)
    ensures var (r, _) := Step(m, random, cursor, state, deltaTime, input);
      r.Success? ==>
        && WellFormed(r.value)
        && r.value.difficultyMultiplier in {state.difficultyMultiplier, state.difficultyMultiplier * 1.3}
        && r.value.enemyHealthMultiplier in {state.enemyHealthMultiplier, state.enemyHealthMultiplier * 1.5}
  {
    var a := Prepare(m, state, deltaTime, input, cursor);
    var h := HitsOf(m, random, a);
    var d := DeathsOf(m, random, state, a, h);
    var ct := ContactOf(m, random, state, deltaTime, a, d);
    if !ct.dead {
      FinishSchedules(random, state, a.newTime, h.kept, d, ct, PickupOf(m, random, state, d, ct));
    }
  }

  /** The position after a tick is the one movement produced: contact and pickups never move
      the player. */
  lemma StepPosition(m: Maths, random: RandomStream, cursor: nat, state: GameState,
                     deltaTime: real, input: InputState)
    requires ValidRandom(random) && state.screenScale > 0.0 && state.difficultyMultiplier > 0.0
    ensures var (r, _) := Step(m, random, cursor, state, deltaTime, input);
      var adjusted := SkillSystem.SkillAdjusted(state.player, state.player.classState.equippedSkills);
      var moved := MovePlayer(adjusted, input, state.screenScale, deltaTime / 1000.0);
      r.Success? ==> r.value.player.x == moved.x && r.value.player.y == moved.y
  {
    PrepareFacts(m, state, deltaTime, input, cursor);
    var a := Prepare(m, state, deltaTime, input, cursor);
    var h := HitsOf(m, random, a);
    var d := DeathsOf(m, random, state, a, h);
    var ct := ContactOf(m, random, state, deltaTime, a, d);
    ContactFacts(m, random, a.newTime, deltaTime, a.player, d.alive, state.screenShake, d.particles, d.cursor);
    if !ct.dead {
      var pk := PickupOf(m, random, state, d, ct);
      PickupsHeal(m, random, d.items, Pickup(ct.player, state.gold, [], ct.particles, ct.cursor), 0);
      FinishFacts(random, state, a.newTime, h.kept, d, ct, pk);
    }
  }

  /** The player never leaves the field: at zoom 1 the centre stays in `[15, 785] x [15, 585]`,
      at zoom 0.8 in `[-85, 885] x [-60, 660]`. */
  lemma StepClamp(m: Maths, random: RandomStream, cursor: nat, state: GameState, deltaTime: real,
                  input: InputState)
    requires ValidRandom(random) && WellFormed(state)
    ensures var (r, _) := Step(m, random, cursor, state, deltaTime, input);
      r.Success? ==>
        var q := r.value.player;
        && -85.0 <= q.x <= 885.0 && -60.0 <= q.y <= 660.0
        && (state.screenScale == 1.0 ==> 15.0 <= q.x <= 785.0 && 15.0 <= q.y <= 585.0)
  {
    StepPosition(m, random, cursor, state, deltaTime, input);
    var adjusted := SkillSystem.SkillAdjusted(state.player, state.player.classState.equippedSkills);
    var hd := Heading(input);
    var dt := deltaTime / 1000.0;
    ClampAxisFields(Displaced(adjusted.x, hd.x, adjusted.speed, dt));
    ClampAxisFields(Displaced(adjusted.y, hd.y, adjusted.speed, dt));
  }

  /** A skill offer waiting for an answer survives the tick unchanged, whatever is killed. */
  lemma StepPending(m: Maths, random: RandomStream, cursor: nat, state: GameState, deltaTime: real,
                    input: InputState)
    requires ValidRandom(random) && state.screenScale > 0.0 && state.difficultyMultiplier > 0.0
    requires state.pendingSkillDrop.Some?
    ensures var (r, _) := Step(m, random, cursor, state, deltaTime, input);
      r.Success? ==> r.value.pendingSkillDrop == state.pendingSkillDrop
  {
    var a := Prepare(m, state, deltaTime, input, cursor);
    var h := HitsOf(m, random, a);
    DeathsOfFacts(m, random, state, a, h);
    var d := DeathsOf(m, random, state, a, h);
    var ct := ContactOf(m, random, state, deltaTime, a, d);
    if !ct.dead {
      FinishFacts(random, state, a.newTime, h.kept, d, ct, PickupOf(m, random, state, d, ct));
    }
  }

  // ---------------------------------------------------------------------------------------
  // Frames and repeated ticks

  /** One animation frame of `gameLoop`: while the game is not playing only the frame clock
      moves; while it plays, the tick runs with the time since the previous frame. The result
      is the new state, the next cursor and the new frame clock. */
  function Frame(m: Maths, random: RandomStream, cursor: nat, state: GameState, lastTime: real,
                 currentTime: real, input: InputState)
    : (Result<GameState, GameLogic.EnemyError>, nat, real)
    requires ValidRandom(random) && state.screenScale > 0.0 && state.difficultyMultiplier > 0.0
  {
    if state.gameStatus != Playing then (Success(state), cursor, currentTime)
    else
      var (r, next) := Step(m, random, cursor, state, currentTime - lastTime, input);
      (r, next, currentTime)
  }

  /** The escape effect: escape while playing pauses the game. */
  function PauseOnEscape(state: GameState, input: InputState): (r: GameState)
  {
    if input.escape && state.gameStatus == Playing then state.(gameStatus := Paused) else state
  }

  /** A surviving tick advances the game time by exactly the frame time. */
  lemma StepTime(m: Maths, random: RandomStream, cursor: nat, state: GameState, deltaTime: real,
                 input: InputState)
    requires ValidRandom(random) && state.screenScale > 0.0 && state.difficultyMultiplier > 0.0
    requires state.gameStatus == Playing
    ensures var (r, _) := Step(m, random, cursor, state, deltaTime, input);
      r.Success? && r.value.gameStatus == Playing ==> r.value.time == state.time + deltaTime
  {
    var a := Prepare(m, state, deltaTime, input, cursor);
    var h := HitsOf(m, random, a);
    var d := DeathsOf(m, random, state, a, h);
    var ct := ContactOf(m, random, state, deltaTime, a, d);
    if !ct.dead {
      FinishFacts(random, state, a.newTime, h.kept, d, ct, PickupOf(m, random, state, d, ct));
    }
  }

  /** The frame clock always moves to the frame's time; a frame that is not playing changes
      nothing else and draws nothing, and a surviving playing frame advances the game time by
      exactly the time since the previous frame. */
  lemma FrameFacts(m: Maths, random: RandomStream, cursor: nat, state: GameState, lastTime: real,
                   currentTime: real, input: InputState)
    requires ValidRandom(random) && state.screenScale > 0.0 && state.difficultyMultiplier > 0.0
    ensures var (r, next, clock) := Frame(m, random, cursor, state, lastTime, currentTime, input);
      && clock == currentTime
      && (state.gameStatus != Playing ==> r == Success(state) && next == cursor)
      && (state.gameStatus == Playing && r.Success? && r.value.gameStatus == Playing ==>
            r.value.time == state.time + (currentTime - lastTime))
  {
    if state.gameStatus == Playing {
      StepTime(m, random, cursor, state, currentTime - lastTime, input);
    }
  }

  /** Escape pauses exactly a playing game and changes nothing else; a paused game's frames
      leave it as it is, so no game time passes until it is resumed. */
  lemma PauseOnEscapeFacts(m: Maths, random: RandomStream, cursor: nat, state: GameState,
                           lastTime: real, currentTime: real, input: InputState)
    requires ValidRandom(random) && state.screenScale > 0.0 && state.difficultyMultiplier > 0.0
    ensures var p := PauseOnEscape(state, input);
      && (p.gameStatus == Paused <==> state.gameStatus == Paused || (input.escape && state.gameStatus == Playing))
      && p == state.(gameStatus := p.gameStatus)
      && (input.escape ==>
            Frame(m, random, cursor, p, lastTime, currentTime, input) == (Success(p), cursor, currentTime))
  {
  }

  /** `n` frames of the same length and input, stopping at the first one that is not playing
      or that fails. The re-application drift over the run: when all `n` ticks are survived
      with a non-empty skill list, damage has gained its bonus `n` times, the gold multiplier
      its bonus `n` times, and the cooldown has fallen by `n` times its reduction down to 0.1,
      the closed form of `SkillSystem.ReappliedDrift`; the equipped skills never change. */
  function Ticks(m: Maths, random: RandomStream, cursor: nat, state: GameState, deltaTime: real,
                 input: InputState, n: nat): (r: (Result<GameState, GameLogic.EnemyError>, nat))
    requires ValidRandom(random) && WellFormed(state)
    ensures var skills := state.player.classState.equippedSkills;
      && state.gameStatus == Playing && r.0.Success? && r.0.value.gameStatus == Playing
      && |skills| > 0 && SkillSystem.EffectTotal(skills, Classes.FireRate) >= 0.0
      ==> Drifted(state.player, r.0.value.player, n)
    decreases n
  {
    if n == 0 || state.gameStatus != Playing then (Success(state), cursor)
    else
      var (r, next) := Step(m, random, cursor, state, deltaTime, input);
      if r.Failure? then (r, next)
      else
        StepWellFormed(m, random, cursor, state, deltaTime, input);
        var rest := Ticks(m, random, next, r.value, deltaTime, input, n - 1);
        var skills := state.player.classState.equippedSkills;
        if rest.0.Success? && rest.0.value.gameStatus == Playing
           && |skills| > 0 && SkillSystem.EffectTotal(skills, Classes.FireRate) >= 0.0
        then
          TickDrift(m, random, cursor, state, deltaTime, input);
          DriftedCompose(state.player, r.value.player, rest.0.value.player, n);
          rest
        else rest
  }

  /** One surviving tick is one re-application, and keeps the state well formed. */
  lemma TickDrift(m: Maths, random: RandomStream, cursor: nat, state: GameState,
                  deltaTime: real, input: InputState)
    requires ValidRandom(random) && WellFormed(state)
    requires |state.player.classState.equippedSkills| > 0
    ensures var r := Step(m, random, cursor, state, deltaTime, input).0;
      r.Success? ==> WellFormed(r.value) && Drifted(state.player, r.value.player, 1)
  {
    var r := Step(m, random, cursor, state, deltaTime, input).0;
    StepWellFormed(m, random, cursor, state, deltaTime, input);
    StepPlayerStats(m, random, cursor, state, deltaTime, input);
    if r.Success? {
      var adjusted := SkillSystem.SkillAdjusted(state.player, state.player.classState.equippedSkills);
      AdjustedDrifted(state.player);
      DriftedStats(state.player, adjusted, r.value.player, 1);
    }
  }

  /** Applying the skills once is one step of drift. */
  lemma AdjustedDrifted(p: Player)
    requires |p.classState.equippedSkills| > 0
    ensures Drifted(p, SkillSystem.SkillAdjusted(p, p.classState.equippedSkills), 1)
  {
  }

  /** Drift only looks at damage, cooldown, gold multiplier and class state. */
  lemma DriftedStats(p: Player, q: Player, q': Player, n: nat)
    requires Drifted(p, q, n)
    requires q'.damage == q.damage && q'.fireRate == q.fireRate
    requires q'.goldMultiplier == q.goldMultiplier && q'.classState == q.classState
    ensures Drifted(p, q', n)
  {
  }

  /** `q` is `p` after `n` re-applications of `p`'s own skills. */
  predicate Drifted(p: Player, q: Player, n: nat)
  {
    var skills := p.classState.equippedSkills;
    && q.classState == p.classState
    && q.damage == p.damage + SkillSystem.Repeated(n, SkillSystem.EffectTotal(skills, Classes.Damage))
    && q.goldMultiplier
       == p.goldMultiplier + SkillSystem.Repeated(n, SkillSystem.EffectTotal(skills, Classes.GoldBonus)) / 100.0
    && q.fireRate
       == (if n == 0 then p.fireRate
           else Max(0.1, p.fireRate - SkillSystem.Repeated(n, SkillSystem.EffectTotal(skills, Classes.FireRate)) / 100.0))
  }

  /** One re-application followed by `n - 1` more is `n` of them. */
  lemma DriftedCompose(p: Player, q: Player, t: Player, n: nat)
    requires n > 0 && Drifted(p, q, 1) && Drifted(q, t, n - 1)
    requires SkillSystem.EffectTotal(p.classState.equippedSkills, Classes.FireRate) >= 0.0
    ensures Drifted(p, t, n)
  {
    var skills := p.classState.equippedSkills;
    var D, F, G := SkillSystem.EffectTotal(skills, Classes.Damage),
                   SkillSystem.EffectTotal(skills, Classes.FireRate),
                   SkillSystem.EffectTotal(skills, Classes.GoldBonus);
    assert SkillSystem.Repeated(1, D) == D && SkillSystem.Repeated(1, F) == F && SkillSystem.Repeated(1, G) == G;
    if n > 1 {
      SkillSystem.CooldownDrift(p.fireRate, F / 100.0, SkillSystem.Repeated(n - 1, F) / 100.0);
    }
  }
}
