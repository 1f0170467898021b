/** The phases of one tick of src/hooks/useGameLoop.ts (`updateGameState`), each as a
    specification function and, where the source loops and mutates, as a method with that loop
    proved equal to its specification. Draws of `Math.random()` come from a stream read at an
    advancing cursor. */
module GameLoopPhases {

  import opened Wrappers
  import opened Numbers
  import opened Entropy
  import C = Constants
  import Classes
  import opened Collision
  import opened Entities
  import SkillSystem
  import GameLogic

  /** `array.filter(keep)`. */
  function Filter<T>(keep: T -> bool, s: seq<T>): (r: seq<T>)
    ensures |r| <= |s|
    ensures forall x :: x in r ==> x in s && keep(x)
    ensures forall x :: x in s && keep(x) ==> x in r
  {
    if |s| == 0 then []
    else (if keep(s[0]) then [s[0]] else []) + Filter(keep, s[1..])
  }

  lemma FilterAppend<T>(keep: T -> bool, a: seq<T>, b: seq<T>)
    ensures Filter(keep, a + b) == Filter(keep, a) + Filter(keep, b)
  {
    if |a| > 0 {
      assert (a + b)[1..] == a[1..] + b;
      FilterAppend(keep, a[1..], b);
    } else {
      assert a + b == b;
    }
  }

  /** One step of a left-to-right filter that collects into `kept`. */
  lemma FilterStep<T>(keep: T -> bool, s: seq<T>, i: nat, kept: seq<T>)
    requires i < |s|
    ensures kept + Filter(keep, s[i..])
            == (if keep(s[i]) then kept + [s[i]] else kept) + Filter(keep, s[i + 1..])
  {
    assert s[i..][1..] == s[i + 1..];
    var rest := Filter(keep, s[i + 1..]);
    if keep(s[i]) {
      assert kept + ([s[i]] + rest) == kept + [s[i]] + rest;
    }
  }

  // ---------------------------------------------------------------------------------------
  // Player movement

  /** One axis of the key input: -1 for the negative key, +1 for the positive one. */
  function Axis(negative: bool, positive: bool): real
  {
    (if negative then -1.0 else 0.0) + (if positive then 1.0 else 0.0)
  }

  /** The movement direction: both axes scaled by 0.707 when moving diagonally. */
  function Heading(input: InputState): Point
  {
    var dx := Axis(input.left, input.right);
    var dy := Axis(input.up, input.down);
    if dx != 0.0 && dy != 0.0 then Point(dx * 0.707, dy * 0.707) else Point(dx, dy)
  }

  /** A coordinate moved along a direction component at a speed for `dt` seconds. */
  function Displaced(v: real, direction: real, speed: real, dt: real): real
  {
    v + direction * speed * dt
  }

  /** Keeping one coordinate on the zoomed-out field: `extent / scale` is the visible extent and
      the field is centred on the nominal canvas. */
  function ClampAxis(v: real, extent: real, scale: real): real
    requires scale > 0.0
  {
    var effective := extent / scale;
    var offset := (effective - extent) / 2.0;
    Max(C.PlayerSize / 2.0 - offset, Min(effective - C.PlayerSize / 2.0 - offset, v))
  }

  function MovePlayer(p: Player, input: InputState, scale: real, dt: real): Player
    requires scale > 0.0
  {
    var h := Heading(input);
    p.(x := ClampAxis(Displaced(p.x, h.x, p.speed, dt), C.CanvasWidth, scale),
       y := ClampAxis(Displaced(p.y, h.y, p.speed, dt), C.CanvasHeight, scale))
  }

  // ---------------------------------------------------------------------------------------
  // Enemy pursuit, projectile and particle integration

  function MoveEnemy(m: Maths, e: Enemy, target: Player, dt: real, deltaTime: real): Enemy
  {
    var direction := Normalize(m, Point(target.x - e.x, target.y - e.y));
    e.(x := Displaced(e.x, direction.x, e.speed, dt), y := Displaced(e.y, direction.y, e.speed, dt),
       flashUntil := Max(0.0, e.flashUntil - deltaTime))
  }

  function MoveEnemies(m: Maths, enemies: seq<Enemy>, target: Player, dt: real, deltaTime: real)
    : (r: seq<Enemy>)
    ensures |r| == |enemies|
    ensures forall k :: 0 <= k < |enemies| ==> r[k] == MoveEnemy(m, enemies[k], target, dt, deltaTime)
  {
    seq(|enemies|, k requires 0 <= k < |enemies| => MoveEnemy(m, enemies[k], target, dt, deltaTime))
  }

  /** Pursuit: an enemy's step lies on the line to the player, points towards the player, and
      is `speed * dt` long unless the enemy already stands on the player, where it stays put.
      Its hit flash decays towards 0, and nothing else about it changes. */
  lemma MoveEnemyFacts(m: Maths, e: Enemy, target: Player, dt: real, deltaTime: real)
    requires ValidMaths(m) && e.speed * dt >= 0.0
    ensures var r := MoveEnemy(m, e, target, dt, deltaTime);
      var dx, dy := target.x - e.x, target.y - e.y;
      var sx, sy := r.x - e.x, r.y - e.y;
      && sx * dy == sy * dx
      && sx * dx + sy * dy >= 0.0
      && (dx != 0.0 || dy != 0.0 ==> Sq(sx) + Sq(sy) == Sq(e.speed * dt))
      && (dx == 0.0 && dy == 0.0 ==> r.x == e.x && r.y == e.y)
      && r.flashUntil == Max(0.0, e.flashUntil - deltaTime)
      && r == e.(x := r.x, y := r.y, flashUntil := r.flashUntil)
  {
    var v := Point(target.x - e.x, target.y - e.y);
    var n := Normalize(m, v);
    var k := e.speed * dt;
    NormalizeFacts(m, v);
    assert n.x * e.speed * dt == n.x * k && n.y * e.speed * dt == n.y * k;
    if v != Point(0.0, 0.0) {
      StepAlong(n.x, n.y, k, m.sqrt(Sq(v.x) + Sq(v.y)), v.x, v.y);
    }
  }

  /** A unit direction scaled by `k >= 0`, for a vector of length `length` along it. */
  lemma StepAlong(nx: real, ny: real, k: real, length: real, dx: real, dy: real)
    requires length > 0.0 && k >= 0.0 && Sq(nx) + Sq(ny) == 1.0
    requires nx * length == dx && ny * length == dy
    ensures (nx * k) * dy == (ny * k) * dx
    ensures (nx * k) * dx + (ny * k) * dy >= 0.0
    ensures Sq(nx * k) + Sq(ny * k) == Sq(k)
  {
    assert (nx * k) * dy == nx * k * ny * length == (ny * k) * dx;
    assert (nx * k) * dx + (ny * k) * dy == k * length * (nx * nx + ny * ny);
    assert Sq(nx * k) + Sq(ny * k) == (nx * nx + ny * ny) * (k * k);
  }

  function MoveProjectile(p: Projectile, dt: real): Projectile
  {
    p.(x := p.x + p.vx * dt, y := p.y + p.vy * dt)
  }

  predicate OnScreen(p: Projectile)
  {
    !IsOffScreen(Point(p.x, p.y), C.CanvasWidth, C.CanvasHeight, 100.0)
  }

  function IntegrateProjectiles(ps: seq<Projectile>, dt: real): seq<Projectile>
  {
    Filter(OnScreen, seq(|ps|, k requires 0 <= k < |ps| => MoveProjectile(ps[k], dt)))
  }

  function AgeParticle(p: Particle, dt: real, deltaTime: real): Particle
  {
    p.(x := p.x + p.vx * dt, y := p.y + p.vy * dt, life := p.life - deltaTime)
  }

  predicate Alive(p: Particle)
  {
    p.life > 0.0
  }

  function IntegrateParticles(ps: seq<Particle>, dt: real, deltaTime: real): seq<Particle>
  {
    Filter(Alive, seq(|ps|, k requires 0 <= k < |ps| => AgeParticle(ps[k], dt, deltaTime)))
  }

  // ---------------------------------------------------------------------------------------
  // Auto-fire

  datatype FireOutcome = FireOutcome(player: Player, shot: Option<Projectile>, cursor: nat)

  /** Fire at the nearest enemy when there is one and the cooldown has passed; the projectile's
      id is the next draw, and the shot time becomes `newTime`. */
  function AutoFire(m: Maths, p: Player, enemies: seq<Enemy>, newTime: real, cursor: nat)
    : FireOutcome
  {
    match GameLogic.FindNearestEnemy(m, p, enemies)
    case None => FireOutcome(p, None, cursor)
    case Some(target) =>
      if newTime - p.lastShot > p.fireRate * 1000.0 then
        FireOutcome(p.(lastShot := newTime),
                    Some(GameLogic.CreateProjectile(m, PlayerPoint(p), EnemyPoint(target), p.damage,
                                                    Some(p), cursor)),
                    cursor + 1)
      else FireOutcome(p, None, cursor)
  }

  /** Straight moves use a unit step on each pressed axis; a diagonal scales both axes by
      0.707; opposite keys cancel. */
  lemma HeadingFacts(input: InputState)
    ensures var h := Heading(input);
      var dx := Axis(input.left, input.right);
      var dy := Axis(input.up, input.down);
      && dx in {-1.0, 0.0, 1.0} && dy in {-1.0, 0.0, 1.0}
      && (dx != 0.0 && dy != 0.0 ==> h.x == 0.707 * dx && h.y == 0.707 * dy)
      && (dx == 0.0 || dy == 0.0 ==> h.x == dx && h.y == dy)
      && (input.left == input.right ==> h.x == 0.0)
      && (input.up == input.down ==> h.y == 0.0)
  {
  }

  /** The clamped coordinate never leaves the zoomed field `[15 - offset, extent/scale - 15 -
      offset]` (whenever that interval is not empty), and a coordinate already inside stays. */
  lemma ClampAxisRange(v: real, extent: real, scale: real)
    requires scale > 0.0
    ensures var lo := FieldLow(extent, scale);
      var hi := FieldHigh(extent, scale);
      var r := ClampAxis(v, extent, scale);
      && lo <= r
      && (lo <= hi ==> r <= hi)
      && (lo <= v <= hi ==> r == v)
  {
  }

  /** At zoom 1 the field is the canvas, `[15, 785] x [15, 585]`; at zoom 0.8 it widens by a
      quarter on each axis, centred on the canvas. */
  lemma ClampAxisFields(v: real)
    ensures 15.0 <= ClampAxis(v, C.CanvasWidth, 1.0) <= 785.0
    ensures 15.0 <= ClampAxis(v, C.CanvasHeight, 1.0) <= 585.0
    ensures -85.0 <= ClampAxis(v, C.CanvasWidth, 0.8) <= 885.0
    ensures -60.0 <= ClampAxis(v, C.CanvasHeight, 0.8) <= 660.0
  {
    ClampAxisRange(v, C.CanvasWidth, 1.0);
    ClampAxisRange(v, C.CanvasHeight, 1.0);
    ClampAxisRange(v, C.CanvasWidth, 0.8);
    ClampAxisRange(v, C.CanvasHeight, 0.8);
  }

  /** The lower and upper edge of the zoomed field for a player's centre on one axis. */
  function FieldLow(extent: real, scale: real): real
    requires scale > 0.0
  {
    C.PlayerSize / 2.0 - (extent / scale - extent) / 2.0
  }

  function FieldHigh(extent: real, scale: real): real
    requires scale > 0.0
  {
    extent / scale - C.PlayerSize / 2.0 - (extent / scale - extent) / 2.0
  }

  /** Moving changes only the position, and the new position lies in the zoomed field. */
  lemma MovePlayerFacts(p: Player, input: InputState, scale: real, dt: real)
    requires 0.0 < scale <= 1.0
    ensures var r := MovePlayer(p, input, scale, dt);
      && r == p.(x := r.x, y := r.y)
      && FieldLow(C.CanvasWidth, scale) <= r.x <= FieldHigh(C.CanvasWidth, scale)
      && FieldLow(C.CanvasHeight, scale) <= r.y <= FieldHigh(C.CanvasHeight, scale)
  {
    var h := Heading(input);
    var vx := Displaced(p.x, h.x, p.speed, dt);
    var vy := Displaced(p.y, h.y, p.speed, dt);
    ClampAxisRange(vx, C.CanvasWidth, scale);
    ClampAxisRange(vy, C.CanvasHeight, scale);
    WideField(C.CanvasWidth, scale);
    WideField(C.CanvasHeight, scale);
  }

  /** A field at most zoomed to 1 is wider than the player. */
  lemma WideField(extent: real, scale: real)
    requires 0.0 < scale <= 1.0 && extent >= C.PlayerSize
    ensures FieldLow(extent, scale) <= FieldHigh(extent, scale)
  {
    assert extent / scale >= extent by {
      assert extent / scale * scale == extent;
    }
  }

  /** The projectiles left after integration are exactly the moved ones still on screen. */
  lemma IntegrateProjectilesFacts(ps: seq<Projectile>, dt: real)
    ensures var r := IntegrateProjectiles(ps, dt);
      && |r| <= |ps|
      && (forall q :: q in r ==> OnScreen(q) && exists k :: 0 <= k < |ps| && q == MoveProjectile(ps[k], dt))
      && (forall k :: 0 <= k < |ps| && OnScreen(MoveProjectile(ps[k], dt)) ==> MoveProjectile(ps[k], dt) in r)
  {
    var moved := seq(|ps|, k requires 0 <= k < |ps| => MoveProjectile(ps[k], dt));
    forall q | q in IntegrateProjectiles(ps, dt)
      ensures exists k :: 0 <= k < |ps| && q == MoveProjectile(ps[k], dt)
    {
      var k :| 0 <= k < |moved| && moved[k] == q;
    }
    forall k | 0 <= k < |ps| && OnScreen(MoveProjectile(ps[k], dt))
      ensures MoveProjectile(ps[k], dt) in IntegrateProjectiles(ps, dt)
    {
      assert moved[k] in moved;
    }
  }

  /** The particles left after ageing are exactly the aged ones with life left. */
  lemma IntegrateParticlesFacts(ps: seq<Particle>, dt: real, deltaTime: real)
    ensures var r := IntegrateParticles(ps, dt, deltaTime);
      && |r| <= |ps|
      && (forall q :: q in r ==> q.life > 0.0 && exists k :: 0 <= k < |ps| && q == AgeParticle(ps[k], dt, deltaTime))
      && (forall k :: 0 <= k < |ps| && ps[k].life > deltaTime ==> AgeParticle(ps[k], dt, deltaTime) in r)
  {
    var aged := seq(|ps|, k requires 0 <= k < |ps| => AgeParticle(ps[k], dt, deltaTime));
    forall q | q in IntegrateParticles(ps, dt, deltaTime)
      ensures exists k :: 0 <= k < |ps| && q == AgeParticle(ps[k], dt, deltaTime)
    {
      var k :| 0 <= k < |aged| && aged[k] == q;
    }
    forall k | 0 <= k < |ps| && ps[k].life > deltaTime
      ensures AgeParticle(ps[k], dt, deltaTime) in IntegrateParticles(ps, dt, deltaTime)
    {
      assert aged[k] in aged;
    }
  }

  /** At most one shot per tick: there is one exactly when an enemy exists and the cooldown has
      passed; it is aimed from the player at the nearest enemy with the player's damage, takes
      one draw for its id, and the shot time becomes `newTime`; otherwise nothing changes. */
  lemma AutoFireFacts(m: Maths, p: Player, enemies: seq<Enemy>, newTime: real, cursor: nat)
    ensures var f := AutoFire(m, p, enemies, newTime, cursor);
      && (f.shot.Some? <==> |enemies| > 0 && newTime - p.lastShot > p.fireRate * 1000.0)
      && (f.shot.Some? ==>
            && f.player == p.(lastShot := newTime) && f.cursor == cursor + 1
            && f.shot.value.id == cursor && f.shot.value.damage == p.damage
            && f.shot.value.x == p.x && f.shot.value.y == p.y
            && GameLogic.FindNearestEnemy(m, p, enemies).Some?
            && f.shot.value == GameLogic.CreateProjectile(m, PlayerPoint(p),
                 EnemyPoint(GameLogic.FindNearestEnemy(m, p, enemies).value), p.damage, Some(p), cursor))
      && (f.shot.None? ==> f.player == p && f.cursor == cursor)
  {
    GameLogic.FindNearestEnemyFacts(m, p, enemies);
  }

  // ---------------------------------------------------------------------------------------
  // Projectile hits

  /** A hit of an enemy: its position in the list and its id. */
  datatype Strike = Strike(index: nat, id: nat)

  /** The state of the scan of one projectile over the enemies: the (mutated) enemies, the
      projectile (its pierced-set grows), whether it is to be removed, the shared set of ids hit
      by non-piercing projectiles this tick, the particles, the draw cursor, and its strikes. */
  datatype Scan = Scan(enemies: seq<Enemy>, projectile: Projectile, removed: bool,
                       hitEnemies: set<nat>, particles: seq<Particle>, cursor: nat,
                       struck: seq<Strike>)

  /** Whether the scan passes over an enemy without testing it. */
  predicate Skipped(p: Projectile, hitEnemies: set<nat>, e: Enemy)
  {
    (!p.piercing && e.id in hitEnemies)
    || (p.piercing && p.piercedEnemies.Some? && e.id in p.piercedEnemies.value)
  }

  predicate Touches(m: Maths, p: Projectile, e: Enemy)
  {
    CircleToCircle(m, Circle(p.x, p.y, p.size), Circle(e.x, e.y, e.size))
  }

  /** The effect of one hit on the scan state. */
  function Hit(m: Maths, newTime: real, random: RandomStream, s: Scan, j: nat): Scan
    requires j < |s.enemies|
  {
    var p := s.projectile;
    var e := s.enemies[j];
    Scan(s.enemies[j := e.(hp := e.hp - p.damage, flashUntil := newTime + 200.0)],
         if p.piercing && p.piercedEnemies.Some?
         then p.(piercedEnemies := Some(p.piercedEnemies.value + {e.id})) else p,
         s.removed || !p.piercing,
         if p.piercing then s.hitEnemies else s.hitEnemies + {e.id},
         s.particles + GameLogic.Particles(m, EnemyPoint(e), e.color, 4, random, s.cursor),
         s.cursor + 8,
         s.struck + [Strike(j, e.id)])
  }

  /** The `for (const enemy of enemies)` loop from index `j` on: skip, test, hit, and stop
      after the first hit of a non-piercing projectile. */
  function ScanFrom(m: Maths, newTime: real, random: RandomStream, s: Scan, j: nat): Scan
    requires j <= |s.enemies|
    decreases |s.enemies| - j
  {
    if j == |s.enemies| then s
    else if Skipped(s.projectile, s.hitEnemies, s.enemies[j])
         || !Touches(m, s.projectile, s.enemies[j]) then
      ScanFrom(m, newTime, random, s, j + 1)
    else
      var s' := Hit(m, newTime, random, s, j);
      if s.projectile.piercing then ScanFrom(m, newTime, random, s', j + 1) else s'
  }

  /** The state of the filter over all projectiles. `log` lists the strikes of non-piercing
      projectiles in order; its ids are what `hitEnemies` collects. */
  datatype HitPhase = HitPhase(enemies: seq<Enemy>, kept: seq<Projectile>, hitEnemies: set<nat>,
                               particles: seq<Particle>, cursor: nat, log: seq<Strike>)

  function StartScan(h: HitPhase, p: Projectile): Scan
  {
    Scan(h.enemies, p, false, h.hitEnemies, h.particles, h.cursor, [])
  }

  function AfterScan(h: HitPhase, p: Projectile, s: Scan): HitPhase
  {
    HitPhase(s.enemies, if s.removed then h.kept else h.kept + [s.projectile], s.hitEnemies,
             s.particles, s.cursor, if p.piercing then h.log else h.log + s.struck)
  }

  /** `projectiles.filter(...)` from index `i` on. */
  function HitsFrom(m: Maths, newTime: real, random: RandomStream, projectiles: seq<Projectile>,
                    h: HitPhase, i: nat): HitPhase
    requires i <= |projectiles|
    decreases |projectiles| - i
  {
    if i == |projectiles| then h
    else
      var s := ScanFrom(m, newTime, random, StartScan(h, projectiles[i]), 0);
      HitsFrom(m, newTime, random, projectiles, AfterScan(h, projectiles[i], s), i + 1)
  }

  /** The body of the `filter` callback: one projectile tested against every enemy. */
  method ScanEnemies(m: Maths, newTime: real, random: RandomStream, start: Scan) returns (r: Scan)
    ensures r == ScanFrom(m, newTime, random, start, 0)
  {
    var es, projectile, shouldRemove := start.enemies, start.projectile, start.removed;
    var hitEnemies, ps, c, struck := start.hitEnemies, start.particles, start.cursor, start.struck;
    var j := 0;
    while j < |es|
      invariant 0 <= j <= |es|
      invariant ScanFrom(m, newTime, random, start, 0)
        == ScanFrom(m, newTime, random, Scan(es, projectile, shouldRemove, hitEnemies, ps, c, struck), j)
    {
      var enemy := es[j];
      if !projectile.piercing && enemy.id in hitEnemies {
        j := j + 1;
        continue;
      }
      if projectile.piercing && projectile.piercedEnemies.Some? && enemy.id in projectile.piercedEnemies.value {
        j := j + 1;
        continue;
      }
      if CircleToCircle(m, Circle(projectile.x, projectile.y, projectile.size),
                        Circle(enemy.x, enemy.y, enemy.size)) {
        ghost var at := Scan(es, projectile, shouldRemove, hitEnemies, ps, c, struck);
        if projectile.piercing {
          if projectile.piercedEnemies.Some? {
            projectile := projectile.(piercedEnemies := Some(projectile.piercedEnemies.value + {enemy.id}));
          }
        } else {
          hitEnemies := hitEnemies + {enemy.id};
          shouldRemove := true;
        }
        es := es[j := enemy.(hp := enemy.hp - projectile.damage, flashUntil := newTime + 200.0)];
        var burst, next := GameLogic.CreateParticles(m, EnemyPoint(enemy), enemy.color, 4, random, c);
        ps, c := ps + burst, next;
        struck := struck + [Strike(j, enemy.id)];
        assert Scan(es, projectile, shouldRemove, hitEnemies, ps, c, struck) == Hit(m, newTime, random, at, j);
        if !projectile.piercing {
          return Scan(es, projectile, shouldRemove, hitEnemies, ps, c, struck);
        }
      }
      j := j + 1;
    }
    r := Scan(es, projectile, shouldRemove, hitEnemies, ps, c, struck);
  }

  /** The collision pass of the tick: `projectiles.filter(...)` with a fresh `hitEnemies`. */
  method ResolveHits(m: Maths, newTime: real, random: RandomStream, projectiles: seq<Projectile>,
                     enemies: seq<Enemy>, particles: seq<Particle>, cursor: nat)
    returns (h: HitPhase)
    ensures h == HitsFrom(m, newTime, random, projectiles,
                          HitPhase(enemies, [], {}, particles, cursor, []), 0)
  {
    h := HitPhase(enemies, [], {}, particles, cursor, []);
    var i := 0;
    while i < |projectiles|
      invariant 0 <= i <= |projectiles|
      invariant HitsFrom(m, newTime, random, projectiles, HitPhase(enemies, [], {}, particles, cursor, []), 0)
        == HitsFrom(m, newTime, random, projectiles, h, i)
    {
      var s := ScanEnemies(m, newTime, random, StartScan(h, projectiles[i]));
      h := AfterScan(h, projectiles[i], s);
      i := i + 1;
    }
  }

  /** An enemy after a hit: health down by the projectile's damage and flashing for 200 ms. */
  function Damaged(e: Enemy, damage: real, newTime: real): Enemy
  {
    e.(hp := e.hp - damage, flashUntil := newTime + 200.0)
  }

  function Indices(st: seq<Strike>): set<nat>
  {
    set x | x in st :: x.index
  }

  function Ids(st: seq<Strike>): set<nat>
  {
    set x | x in st :: x.id
  }

  /** What one hit changes: the enemy at `j` is damaged, the strike is appended, eight draws
      are used, and the projectile keeps everything but its pierced-set. */
  lemma HitFacts(m: Maths, newTime: real, random: RandomStream, s: Scan, j: nat)
    requires j < |s.enemies|
    ensures var r := Hit(m, newTime, random, s, j);
      && r.enemies == s.enemies[j := Damaged(s.enemies[j], s.projectile.damage, newTime)]
      && r.struck == s.struck + [Strike(j, s.enemies[j].id)]
      && r.cursor == s.cursor + 8
      && r.projectile == s.projectile.(piercedEnemies := r.projectile.piercedEnemies)
      && r.removed == (s.removed || !s.projectile.piercing)
  {
  }

  /** The scan keeps the list length and the projectile except its pierced-set, only appends
      strikes, and uses eight draws per strike. */
  lemma {:induction false} ScanShape(m: Maths, newTime: real, random: RandomStream, s: Scan, j: nat)
    requires j <= |s.enemies|
    ensures var r := ScanFrom(m, newTime, random, s, j);
      && |r.enemies| == |s.enemies|
      && r.projectile == s.projectile.(piercedEnemies := r.projectile.piercedEnemies)
      && |s.struck| <= |r.struck| && r.struck[..|s.struck|] == s.struck
      && r.cursor == s.cursor + 8 * (|r.struck| - |s.struck|)
    decreases |s.enemies| - j
  {
    if j < |s.enemies| {
      if Skipped(s.projectile, s.hitEnemies, s.enemies[j]) || !Touches(m, s.projectile, s.enemies[j]) {
        ScanShape(m, newTime, random, s, j + 1);
      } else {
        var s' := Hit(m, newTime, random, s, j);
        HitFacts(m, newTime, random, s, j);
        if s.projectile.piercing {
          ScanShape(m, newTime, random, s', j + 1);
          var r := ScanFrom(m, newTime, random, s', j + 1);
          assert r.struck[..|s.struck|] == r.struck[..|s'.struck|][..|s.struck|];
        }
      }
    }
  }

  /** The strikes a scan adds point, in increasing order, at indices from `j` on, each with
      the id of the enemy there. */
  lemma {:induction false} ScanStrikes(m: Maths, newTime: real, random: RandomStream, s: Scan, j: nat)
    requires j <= |s.enemies|
    ensures var r := ScanFrom(m, newTime, random, s, j);
      && |s.struck| <= |r.struck|
      && (forall a :: |s.struck| <= a < |r.struck| ==>
            j <= r.struck[a].index < |s.enemies| && r.struck[a].id == s.enemies[r.struck[a].index].id)
      && (forall a, b :: |s.struck| <= a < b < |r.struck| ==> r.struck[a].index < r.struck[b].index)
    decreases |s.enemies| - j
  {
    ScanShape(m, newTime, random, s, j);
    if j < |s.enemies| {
      if Skipped(s.projectile, s.hitEnemies, s.enemies[j]) || !Touches(m, s.projectile, s.enemies[j]) {
        ScanStrikes(m, newTime, random, s, j + 1);
      } else {
        var s' := Hit(m, newTime, random, s, j);
        HitFacts(m, newTime, random, s, j);
        if s.projectile.piercing {
          ScanStrikes(m, newTime, random, s', j + 1);
          ScanShape(m, newTime, random, s', j + 1);
          var r := ScanFrom(m, newTime, random, s', j + 1);
          assert r.struck[|s.struck|] == s'.struck[|s.struck|] == Strike(j, s.enemies[j].id);
          assert forall k :: j < k < |s.enemies| ==> s'.enemies[k].id == s.enemies[k].id;
        }
      }
    }
  }

  lemma IndicesCons(x: Strike, t: seq<Strike>)
    ensures Indices([x] + t) == {x.index} + Indices(t)
  {
    assert forall y :: y in [x] + t <==> y == x || y in t;
  }

  /** The scan keeps every enemy's id. */
  lemma {:induction false} ScanKeepsIds(m: Maths, newTime: real, random: RandomStream, s: Scan, j: nat)
    requires j <= |s.enemies|
    ensures var r := ScanFrom(m, newTime, random, s, j);
      && |r.enemies| == |s.enemies|
      && forall k :: 0 <= k < |s.enemies| ==> r.enemies[k].id == s.enemies[k].id
    decreases |s.enemies| - j
  {
    if j < |s.enemies| {
      if Skipped(s.projectile, s.hitEnemies, s.enemies[j]) || !Touches(m, s.projectile, s.enemies[j]) {
        ScanKeepsIds(m, newTime, random, s, j + 1);
      } else {
        HitFacts(m, newTime, random, s, j);
        if s.projectile.piercing {
          ScanKeepsIds(m, newTime, random, Hit(m, newTime, random, s, j), j + 1);
        }
      }
    }
  }

  /** Each enemy at an index that no strike added from `s` on points at is as it was. */
  predicate UnstruckKept(s: Scan, r: Scan)
  {
    && |r.enemies| == |s.enemies| && |s.struck| <= |r.struck|
    && forall k :: 0 <= k < |s.enemies| && k !in Indices(r.struck[|s.struck|..]) ==>
         r.enemies[k] == s.enemies[k]
  }

  /** An enemy at an index the scan does not strike is left as it was. */
  lemma {:induction false} ScanUntouched(m: Maths, newTime: real, random: RandomStream, s: Scan, j: nat)
    requires j <= |s.enemies|
    ensures UnstruckKept(s, ScanFrom(m, newTime, random, s, j))
    decreases |s.enemies| - j, 1
  {
    if j == |s.enemies| {
      assert ScanFrom(m, newTime, random, s, j) == s;
    } else if Skipped(s.projectile, s.hitEnemies, s.enemies[j]) || !Touches(m, s.projectile, s.enemies[j]) {
      ScanUntouched(m, newTime, random, s, j + 1);
    } else {
      HitUntouched(m, newTime, random, s, j);
    }
  }

  /** The hit case: the enemy at `j` is struck first, and the rest follows from the scan after
      it. */
  lemma {:induction false} HitUntouched(m: Maths, newTime: real, random: RandomStream, s: Scan, j: nat)
    requires j < |s.enemies|
    requires !Skipped(s.projectile, s.hitEnemies, s.enemies[j]) && Touches(m, s.projectile, s.enemies[j])
    ensures UnstruckKept(s, ScanFrom(m, newTime, random, s, j))
    decreases |s.enemies| - j, 0
  {
    var s' := Hit(m, newTime, random, s, j);
    HitFacts(m, newTime, random, s, j);
    var x := Strike(j, s.enemies[j].id);
    if s.projectile.piercing {
      var r := ScanFrom(m, newTime, random, s', j + 1);
      assert r == ScanFrom(m, newTime, random, s, j);
      ScanUntouched(m, newTime, random, s', j + 1);
      ScanShape(m, newTime, random, s', j + 1);
      assert r.struck[|s.struck|..] == [x] + r.struck[|s'.struck|..];
      IndicesCons(x, r.struck[|s'.struck|..]);
    } else {
      assert s' == ScanFrom(m, newTime, random, s, j);
      assert s'.struck[|s.struck|..] == [x];
      IndicesCons(x, []);
    }
  }

  /** Every enemy the scan strikes has lost the projectile's damage once and flashes. */
  lemma {:induction false} ScanStruckDamaged(m: Maths, newTime: real, random: RandomStream, s: Scan, j: nat)
    requires j <= |s.enemies|
    ensures StruckDamaged(s, ScanFrom(m, newTime, random, s, j), newTime)
    decreases |s.enemies| - j, 1
  {
    ScanShape(m, newTime, random, s, j);
    ScanStrikes(m, newTime, random, s, j);
    if j < |s.enemies| {
      if Skipped(s.projectile, s.hitEnemies, s.enemies[j]) || !Touches(m, s.projectile, s.enemies[j]) {
        ScanStruckDamaged(m, newTime, random, s, j + 1);
      } else if s.projectile.piercing {
        PiercingStruckDamaged(m, newTime, random, s, j);
      } else {
        HitFacts(m, newTime, random, s, j);
      }
    }
  }

  /** Each strike a scan adds from `s` on marks an enemy damaged once by the projectile. */
  predicate StruckDamaged(s: Scan, r: Scan, newTime: real)
  {
    && |r.enemies| == |s.enemies| && |s.struck| <= |r.struck|
    && forall a :: |s.struck| <= a < |r.struck| ==>
         r.struck[a].index < |s.enemies|
         && r.enemies[r.struck[a].index] == Damaged(s.enemies[r.struck[a].index], s.projectile.damage, newTime)
  }

  /** The piercing case: the enemy struck first is not struck again later, and the later ones
      were untouched when this hit happened. */
  lemma {:induction false} PiercingStruckDamaged(m: Maths, newTime: real, random: RandomStream, s: Scan, j: nat)
    requires j < |s.enemies| && s.projectile.piercing
    requires !Skipped(s.projectile, s.hitEnemies, s.enemies[j]) && Touches(m, s.projectile, s.enemies[j])
    ensures StruckDamaged(s, ScanFrom(m, newTime, random, s, j), newTime)
    decreases |s.enemies| - j, 0
  {
    var s' := Hit(m, newTime, random, s, j);
    HitFacts(m, newTime, random, s, j);
    var r := ScanFrom(m, newTime, random, s', j + 1);
    assert r == ScanFrom(m, newTime, random, s, j);
    ScanStruckDamaged(m, newTime, random, s', j + 1);
    ScanStrikes(m, newTime, random, s', j + 1);
    ScanUntouched(m, newTime, random, s', j + 1);
    ScanShape(m, newTime, random, s', j + 1);
    assert r.struck[|s.struck|] == Strike(j, s.enemies[j].id);
    assert j !in Indices(r.struck[|s'.struck|..]);
  }

  /** Exactly the struck enemies are damaged; every other enemy is unchanged. */
  lemma ScanDamage(m: Maths, newTime: real, random: RandomStream, s: Scan)
    ensures var r := ScanFrom(m, newTime, random, s, 0);
      && |r.enemies| == |s.enemies| && |s.struck| <= |r.struck|
      && forall k :: 0 <= k < |s.enemies| ==>
           r.enemies[k] == if k in Indices(r.struck[|s.struck|..])
                           then Damaged(s.enemies[k], s.projectile.damage, newTime) else s.enemies[k]
  {
    var r := ScanFrom(m, newTime, random, s, 0);
    ScanUntouched(m, newTime, random, s, 0);
    ScanStruckDamaged(m, newTime, random, s, 0);
    forall k | 0 <= k < |s.enemies| && k in Indices(r.struck[|s.struck|..])
      ensures r.enemies[k] == Damaged(s.enemies[k], s.projectile.damage, newTime)
    {
      var x :| x in r.struck[|s.struck|..] && x.index == k;
      var a :| |s.struck| <= a < |r.struck| && r.struck[a] == x;
    }
  }

  /** A non-piercing projectile hits at most one enemy, one whose id no non-piercing projectile
      has hit this tick; it is removed exactly when it hits, and the hit id joins the shared set. */
  lemma {:induction false} ScanNonPiercing(m: Maths, newTime: real, random: RandomStream, s: Scan, j: nat)
    requires j <= |s.enemies| && !s.projectile.piercing
    ensures var r := ScanFrom(m, newTime, random, s, j);
      && |r.struck| <= |s.struck| + 1
      && r.removed == (s.removed || |r.struck| == |s.struck| + 1)
      && (|r.struck| == |s.struck| + 1 ==>
            r.struck[|s.struck|].id !in s.hitEnemies
            && r.hitEnemies == s.hitEnemies + {r.struck[|s.struck|].id})
      && (|r.struck| == |s.struck| ==> r.hitEnemies == s.hitEnemies)
      && r.projectile == s.projectile
    decreases |s.enemies| - j
  {
    if j < |s.enemies| {
      if Skipped(s.projectile, s.hitEnemies, s.enemies[j]) || !Touches(m, s.projectile, s.enemies[j]) {
        ScanNonPiercing(m, newTime, random, s, j + 1);
      }
    }
  }

  lemma IdsCons(x: Strike, t: seq<Strike>)
    ensures Ids([x] + t) == {x.id} + Ids(t)
  {
    assert forall y :: y in [x] + t <==> y == x || y in t;
  }

  /** A piercing projectile with a pierced-set never hits an enemy whose id is already in that
      set. */
  lemma {:induction false} ScanSkipsPierced(m: Maths, newTime: real, random: RandomStream, s: Scan, j: nat)
    requires j <= |s.enemies| && s.projectile.piercing && s.projectile.piercedEnemies.Some?
    ensures var r := ScanFrom(m, newTime, random, s, j);
      && |s.struck| <= |r.struck|
      && forall a :: |s.struck| <= a < |r.struck| ==> r.struck[a].id !in s.projectile.piercedEnemies.value
    decreases |s.enemies| - j
  {
    ScanShape(m, newTime, random, s, j);
    if j < |s.enemies| {
      if Skipped(s.projectile, s.hitEnemies, s.enemies[j]) || !Touches(m, s.projectile, s.enemies[j]) {
        ScanSkipsPierced(m, newTime, random, s, j + 1);
      } else {
        var s' := Hit(m, newTime, random, s, j);
        HitFacts(m, newTime, random, s, j);
        ScanSkipsPierced(m, newTime, random, s', j + 1);
        ScanShape(m, newTime, random, s', j + 1);
        assert s'.projectile.piercedEnemies == Some(s.projectile.piercedEnemies.value + {s.enemies[j].id});
      }
    }
  }

  /** Every id a piercing projectile with a pierced-set hits joins that set, and nothing else does. */
  lemma {:induction false} ScanPiercedSet(m: Maths, newTime: real, random: RandomStream, s: Scan, j: nat)
    requires j <= |s.enemies| && s.projectile.piercing && s.projectile.piercedEnemies.Some?
    ensures var r := ScanFrom(m, newTime, random, s, j);
      && |s.struck| <= |r.struck|
      && r.projectile.piercedEnemies
         == Some(s.projectile.piercedEnemies.value + Ids(r.struck[|s.struck|..]))
    decreases |s.enemies| - j, 1
  {
    var r := ScanFrom(m, newTime, random, s, j);
    var pierced := s.projectile.piercedEnemies.value;
    ScanShape(m, newTime, random, s, j);
    if j == |s.enemies| {
      assert r == s;
      assert r.struck[|s.struck|..] == [];
      assert Ids(r.struck[|s.struck|..]) == {};
      assert pierced + {} == pierced;
    } else if Skipped(s.projectile, s.hitEnemies, s.enemies[j]) || !Touches(m, s.projectile, s.enemies[j]) {
      ScanPiercedSet(m, newTime, random, s, j + 1);
    } else {
      HitPiercedSet(m, newTime, random, s, j);
    }
  }

  /** The hit case of `ScanPiercedSet`: the id hit at `j` joins the set before the rest of the scan. */
  lemma {:induction false} HitPiercedSet(m: Maths, newTime: real, random: RandomStream, s: Scan, j: nat)
    requires j < |s.enemies| && s.projectile.piercing && s.projectile.piercedEnemies.Some?
    requires !Skipped(s.projectile, s.hitEnemies, s.enemies[j]) && Touches(m, s.projectile, s.enemies[j])
    ensures var r := ScanFrom(m, newTime, random, s, j);
      && |s.struck| <= |r.struck|
      && r.projectile.piercedEnemies
         == Some(s.projectile.piercedEnemies.value + Ids(r.struck[|s.struck|..]))
    decreases |s.enemies| - j, 0
  {
    var pierced := s.projectile.piercedEnemies.value;
    var s' := Hit(m, newTime, random, s, j);
    var id := s.enemies[j].id;
    HitFacts(m, newTime, random, s, j);
    assert s'.projectile.piercedEnemies == Some(pierced + {id});
    ScanPiercedSet(m, newTime, random, s', j + 1);
    ScanShape(m, newTime, random, s', j + 1);
    var r := ScanFrom(m, newTime, random, s', j + 1);
    assert r == ScanFrom(m, newTime, random, s, j);
    var tail := r.struck[|s'.struck|..];
    assert r.struck[|s.struck|..] == [Strike(j, id)] + tail;
    IdsCons(Strike(j, id), tail);
    assert pierced + {id} + Ids(tail) == pierced + ({id} + Ids(tail));
  }

  /** A piercing projectile with a pierced-set hits each id at most once. */
  lemma {:induction false} ScanPiercingDistinct(m: Maths, newTime: real, random: RandomStream, s: Scan, j: nat)
    requires j <= |s.enemies| && s.projectile.piercing && s.projectile.piercedEnemies.Some?
    ensures var r := ScanFrom(m, newTime, random, s, j);
      && |s.struck| <= |r.struck|
      && (forall a, b :: |s.struck| <= a < b < |r.struck| ==> r.struck[a].id != r.struck[b].id)
    decreases |s.enemies| - j
  {
    ScanShape(m, newTime, random, s, j);
    if j < |s.enemies| {
      if Skipped(s.projectile, s.hitEnemies, s.enemies[j]) || !Touches(m, s.projectile, s.enemies[j]) {
        ScanPiercingDistinct(m, newTime, random, s, j + 1);
      } else {
        var s' := Hit(m, newTime, random, s, j);
        var r := ScanFrom(m, newTime, random, s', j + 1);
        HitFacts(m, newTime, random, s, j);
        ScanPiercingDistinct(m, newTime, random, s', j + 1);
        ScanSkipsPierced(m, newTime, random, s', j + 1);
        ScanShape(m, newTime, random, s', j + 1);
        assert r.struck[|s.struck|] == s'.struck[|s.struck|];
      }
    }
  }

  /** Strikes whose ids are pairwise different. */
  predicate DistinctIds(log: seq<Strike>)
  {
    forall a, b :: 0 <= a < b < |log| ==> log[a].id != log[b].id
  }

  /** Over the whole pass, the ids struck by non-piercing projectiles are pairwise different and
      are exactly the shared set, so no enemy id takes a second non-piercing hit in one tick. */
  lemma {:induction false} HitsLog(m: Maths, newTime: real, random: RandomStream,
                                   projectiles: seq<Projectile>, h: HitPhase, i: nat)
    requires i <= |projectiles|
    requires DistinctIds(h.log) && Ids(h.log) == h.hitEnemies
    ensures var r := HitsFrom(m, newTime, random, projectiles, h, i);
      DistinctIds(r.log) && Ids(r.log) == r.hitEnemies
    decreases |projectiles| - i
  {
    if i < |projectiles| {
      var p := projectiles[i];
      var s := ScanFrom(m, newTime, random, StartScan(h, p), 0);
      var h' := AfterScan(h, p, s);
      if !p.piercing {
        ScanNonPiercing(m, newTime, random, StartScan(h, p), 0);
        if |s.struck| == 1 {
          assert h'.log == h.log + [s.struck[0]];
          assert Ids(h'.log) == Ids(h.log) + {s.struck[0].id};
        } else {
          assert h'.log == h.log;
        }
      } else {
        PiercingKeepsShared(m, newTime, random, StartScan(h, p), 0);
      }
      HitsLog(m, newTime, random, projectiles, h', i + 1);
    }
  }

  /** Over the whole pass the enemy list keeps its length and ids, and at most the scanned
      projectiles are kept. */
  lemma {:induction false} HitsShape(m: Maths, newTime: real, random: RandomStream,
                                     projectiles: seq<Projectile>, h: HitPhase, i: nat)
    requires i <= |projectiles|
    ensures var r := HitsFrom(m, newTime, random, projectiles, h, i);
      && |r.enemies| == |h.enemies|
      && (forall k :: 0 <= k < |h.enemies| ==> r.enemies[k].id == h.enemies[k].id)
      && |h.kept| <= |r.kept| <= |h.kept| + |projectiles| - i
    decreases |projectiles| - i
  {
    if i < |projectiles| {
      var p := projectiles[i];
      var s := ScanFrom(m, newTime, random, StartScan(h, p), 0);
      ScanKeepsIds(m, newTime, random, StartScan(h, p), 0);
      HitsShape(m, newTime, random, projectiles, AfterScan(h, p, s), i + 1);
    }
  }

  /** A piercing projectile is never removed and leaves the shared set alone, whatever it
      hits. */
  lemma {:induction false} PiercingKeepsShared(m: Maths, newTime: real, random: RandomStream,
                                               s: Scan, j: nat)
    requires j <= |s.enemies| && s.projectile.piercing
    ensures var r := ScanFrom(m, newTime, random, s, j);
      r.removed == s.removed && r.hitEnemies == s.hitEnemies
    decreases |s.enemies| - j
  {
    if j < |s.enemies| {
      if Skipped(s.projectile, s.hitEnemies, s.enemies[j]) || !Touches(m, s.projectile, s.enemies[j]) {
        PiercingKeepsShared(m, newTime, random, s, j + 1);
      } else {
        PiercingKeepsShared(m, newTime, random, Hit(m, newTime, random, s, j), j + 1);
      }
    }
  }
}
