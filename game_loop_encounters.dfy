/** The later phases of one tick of src/hooks/useGameLoop.ts (`updateGameState`): removing dead
    enemies with their drops and the skill offer, the player's contact with enemies, and item
    pickup. Each is a specification function over the phase's running state plus the loop
    that the source runs, proved equal to it. */
module GameLoopEncounters {

  import opened Wrappers
  import opened Numbers
  import opened Entropy
  import C = Constants
  import Classes
  import opened Collision
  import opened Entities
  import SkillSystem
  import GameLogic
  import opened GameLoopPhases

  // ---------------------------------------------------------------------------------------
  // Dead enemies

  predicate IsDead(e: Enemy)
  {
    e.hp <= 0.0
  }

  predicate IsAlive(e: Enemy)
  {
    e.hp > 0.0
  }

  /** The running state of `enemies.filter(...)` that removes the dead: the survivors, the
      items, the particles, the pending skill offer, this tick's kill count and the cursor. */
  datatype Deaths = Deaths(alive: seq<Enemy>, items: seq<Item>, particles: seq<Particle>,
                           pending: Option<Classes.PassiveSkill>, killed: nat, cursor: nat)

  /** The amount of a gold drop: a point of the enemy's band, scaled and rounded down. */
  function GoldAmount(e: Enemy, goldMultiplier: real, roll: real): int
  {
    ((e.goldDrop.min + roll * (e.goldDrop.max - e.goldDrop.min)) * goldMultiplier).Floor
  }

  /** One drop roll: a health potion below 0.1, gold below 0.9 (a second draw places the amount
      in the band), nothing above. A created item takes the next draw as its id. */
  function Drop(e: Enemy, goldMultiplier: real, random: RandomStream, cursor: nat)
    : (Option<Item>, nat)
  {
    var roll := random(cursor);
    if roll < C.HealthPotionDropChance then
      (Some(GameLogic.CreateItem(AsHealth, EnemyPoint(e), C.HealthPotionHeal, cursor + 1)), cursor + 2)
    else if roll < C.GoldDropChance + C.HealthPotionDropChance then
      var amount := GoldAmount(e, goldMultiplier, random(cursor + 1));
      (Some(GameLogic.CreateItem(AsGold, EnemyPoint(e), amount as real, cursor + 2)), cursor + 3)
    else (None, cursor + 1)
  }

  /** The skill check after a kill: no draw at all while an offer is pending, otherwise one
      roll against the threshold for this tick's kill count and, on success, a catalogue draw
      and an id draw. */
  function SkillOffer(pending: Option<Classes.PassiveSkill>, killed: nat, random: RandomStream,
                      cursor: nat): (Option<Classes.PassiveSkill>, nat)
    requires ValidRandom(random)
  {
    if pending.Some? then (pending, cursor)
    else if SkillSystem.ShouldDropSkill(killed, random(cursor)) then
      (Some(SkillSystem.GenerateRandomSkill(random(cursor + 1), cursor + 2)), cursor + 3)
    else (None, cursor + 1)
  }

  /** What one dead enemy leaves: eight particles at its place and colour, at most one item,
      one more kill, and possibly a skill offer. */
  function Reap(m: Maths, random: RandomStream, goldMultiplier: real, d: Deaths, e: Enemy): Deaths
    requires ValidRandom(random)
  {
    var burst := GameLogic.Particles(m, EnemyPoint(e), e.color, 8, random, d.cursor);
    var (drop, afterDrop) := Drop(e, goldMultiplier, random, d.cursor + 16);
    var (pending, next) := SkillOffer(d.pending, d.killed + 1, random, afterDrop);
    Deaths(d.alive, d.items + (if drop.Some? then [drop.value] else []), d.particles + burst,
           pending, d.killed + 1, next)
  }

  /** The filter from index `i` on. */
  function DeathsFrom(m: Maths, random: RandomStream, goldMultiplier: real, enemies: seq<Enemy>,
                      d: Deaths, i: nat): Deaths
    requires ValidRandom(random)
    requires i <= |enemies|
    decreases |enemies| - i
  {
    if i == |enemies| then d
    else if IsDead(enemies[i]) then
      DeathsFrom(m, random, goldMultiplier, enemies, Reap(m, random, goldMultiplier, d, enemies[i]), i + 1)
    else
      DeathsFrom(m, random, goldMultiplier, enemies, d.(alive := d.alive + [enemies[i]]), i + 1)
  }

  /** The removal of dead enemies, as the source's filter callback does it. */
  method RemoveDead(m: Maths, random: RandomStream, goldMultiplier: real, enemies: seq<Enemy>,
                    items: seq<Item>, particles: seq<Particle>,
                    pending: Option<Classes.PassiveSkill>, cursor: nat)
    returns (d: Deaths)
    requires ValidRandom(random)
    ensures d == DeathsFrom(m, random, goldMultiplier, enemies,
                            Deaths([], items, particles, pending, 0, cursor), 0)
  {
    d := Deaths([], items, particles, pending, 0, cursor);
    var i := 0;
    while i < |enemies|
      invariant 0 <= i <= |enemies|
      invariant DeathsFrom(m, random, goldMultiplier, enemies,
                           Deaths([], items, particles, pending, 0, cursor), 0)
        == DeathsFrom(m, random, goldMultiplier, enemies, d, i)
    {
      var enemy := enemies[i];
      if enemy.hp <= 0.0 {
        d := ReapEnemy(m, random, goldMultiplier, d, enemy);
      } else {
        d := d.(alive := d.alive + [enemy]);
      }
      i := i + 1;
    }
  }

  /** The callback's branch for a dead enemy: count it, burst, roll the drop, check the skill. */
  method ReapEnemy(m: Maths, random: RandomStream, goldMultiplier: real, d: Deaths, enemy: Enemy)
    returns (r: Deaths)
    requires ValidRandom(random)
    ensures r == Reap(m, random, goldMultiplier, d, enemy)
  {
    var found, ps, offer, killed, c := d.items, d.particles, d.pending, d.killed, d.cursor;
    killed := killed + 1;
    var burst, next := GameLogic.CreateParticles(m, EnemyPoint(enemy), enemy.color, 8, random, c);
    ps, c := ps + burst, next;
    var drop;
    drop, c := RollDrop(enemy, goldMultiplier, random, c);
    if drop.Some? {
      found := found + [drop.value];
    }
    if offer.None? {
      offer, c := RollSkill(killed, random, c);
    }
    r := Deaths(d.alive, found, ps, offer, killed, c);
  }

  /** The drop roll of the dead-enemy branch. */
  method RollDrop(enemy: Enemy, goldMultiplier: real, random: RandomStream, cursor: nat)
    returns (drop: Option<Item>, next: nat)
    ensures (drop, next) == Drop(enemy, goldMultiplier, random, cursor)
  {
    var dropRoll := random(cursor);
    if dropRoll < C.HealthPotionDropChance {
      drop := Some(GameLogic.CreateItem(AsHealth, EnemyPoint(enemy), C.HealthPotionHeal, cursor + 1));
      next := cursor + 2;
    } else if dropRoll < C.GoldDropChance + C.HealthPotionDropChance {
      var amount := GoldAmount(enemy, goldMultiplier, random(cursor + 1));
      drop := Some(GameLogic.CreateItem(AsGold, EnemyPoint(enemy), amount as real, cursor + 2));
      next := cursor + 3;
    } else {
      drop, next := None, cursor + 1;
    }
  }

  /** The skill roll of the dead-enemy branch, taken only when no offer is pending. */
  method RollSkill(killed: nat, random: RandomStream, cursor: nat)
    returns (offer: Option<Classes.PassiveSkill>, next: nat)
    requires ValidRandom(random)
    ensures (offer, next) == SkillOffer(None, killed, random, cursor)
  {
    if SkillSystem.ShouldDropSkill(killed, random(cursor)) {
      offer := Some(SkillSystem.GenerateRandomSkill(random(cursor + 1), cursor + 2));
      next := cursor + 3;
    } else {
      offer, next := None, cursor + 1;
    }
  }

  /** A drop is a health potion of 25 below 0.1, gold with an amount from the enemy's band
      between 0.1 and 0.9, and nothing from 0.9 on: never both. */
  lemma DropFacts(e: Enemy, goldMultiplier: real, random: RandomStream, cursor: nat)
    ensures var (drop, next) := Drop(e, goldMultiplier, random, cursor);
      && (drop.Some? <==> random(cursor) < 0.9)
      && (random(cursor) < 0.1 ==>
            drop.value.kind == HealthItem && drop.value.value == 25.0 && next == cursor + 2)
      && (0.1 <= random(cursor) < 0.9 ==>
            && drop.value.kind == GoldItem && next == cursor + 3
            && drop.value.value == GoldAmount(e, goldMultiplier, random(cursor + 1)) as real)
      && (random(cursor) >= 0.9 ==> next == cursor + 1)
      && (drop.Some? ==> !drop.value.collected && !drop.value.isMegaBolt
                         && drop.value.x == e.x && drop.value.y == e.y)
  {
  }

  /** Gold amounts stay within the band scaled by the multiplier (rounded down). */
  lemma GoldAmountBounds(e: Enemy, goldMultiplier: real, roll: real)
    requires 0.0 <= roll < 1.0 && e.goldDrop.min <= e.goldDrop.max && goldMultiplier >= 0.0
    ensures (e.goldDrop.min * goldMultiplier).Floor <= GoldAmount(e, goldMultiplier, roll)
    ensures GoldAmount(e, goldMultiplier, roll) as real <= e.goldDrop.max * goldMultiplier
  {
    var span := e.goldDrop.max - e.goldDrop.min;
    assert 0.0 <= roll * span <= span by {
      RollScales(roll, span);
    }
    var point := e.goldDrop.min + roll * span;
    assert e.goldDrop.min * goldMultiplier <= point * goldMultiplier <= e.goldDrop.max * goldMultiplier by {
      ScaleMonotone(e.goldDrop.min, point, goldMultiplier);
      ScaleMonotone(point, e.goldDrop.max, goldMultiplier);
    }
  }

  lemma RollScales(roll: real, span: real)
    requires 0.0 <= roll < 1.0 && span >= 0.0
    ensures 0.0 <= roll * span <= span
  {
  }

  lemma ScaleMonotone(a: real, b: real, k: real)
    requires a <= b && k >= 0.0
    ensures a * k <= b * k
  {
  }

  /** A pending offer is never replaced and costs no draw; with none pending, a skill is
      offered exactly when the roll is below the threshold for this tick's kill count, and it
      is a fresh level-one catalogue skill. */
  lemma SkillOfferFacts(pending: Option<Classes.PassiveSkill>, killed: nat, random: RandomStream,
                        cursor: nat)
    requires ValidRandom(random)
    ensures var (offer, next) := SkillOffer(pending, killed, random, cursor);
      && (pending.Some? ==> offer == pending && next == cursor)
      && (pending.None? ==> (offer.Some? <==> random(cursor) < SkillSystem.DropThreshold(killed)))
      && (pending.None? && offer.Some? ==>
            offer.value.currentLevel == 1 && offer.value.id == cursor + 2
            && exists k :: 0 <= k < |Classes.PassiveSkills| && offer.value.name == Classes.PassiveSkills[k].name)
  {
    var (offer, next) := SkillOffer(pending, killed, random, cursor);
    if pending.None? && offer.Some? {
      SkillSystem.GeneratedSkillFromCatalogue(random(cursor + 1), cursor + 2);
    }
  }

  /** The survivors are exactly the enemies with positive health, in their order. */
  lemma {:induction false} DeathsSurvivors(m: Maths, random: RandomStream, goldMultiplier: real,
                                           enemies: seq<Enemy>, d: Deaths, i: nat)
    requires ValidRandom(random) && i <= |enemies|
    ensures DeathsFrom(m, random, goldMultiplier, enemies, d, i).alive
            == d.alive + Filter(IsAlive, enemies[i..])
    decreases |enemies| - i
  {
    if i == |enemies| {
      assert enemies[i..] == [];
    } else {
      FilterStep(IsAlive, enemies, i, d.alive);
      if IsDead(enemies[i]) {
        DeathsSurvivors(m, random, goldMultiplier, enemies, Reap(m, random, goldMultiplier, d, enemies[i]), i + 1);
      } else {
        DeathsSurvivors(m, random, goldMultiplier, enemies, d.(alive := d.alive + [enemies[i]]), i + 1);
      }
    }
  }

  /** The kill count rises by exactly the number of enemies with health at or below zero. */
  lemma {:induction false} DeathsCount(m: Maths, random: RandomStream, goldMultiplier: real,
                                       enemies: seq<Enemy>, d: Deaths, i: nat)
    requires ValidRandom(random) && i <= |enemies|
    ensures DeathsFrom(m, random, goldMultiplier, enemies, d, i).killed
            == d.killed + |Filter(IsDead, enemies[i..])|
    decreases |enemies| - i
  {
    if i == |enemies| {
      assert enemies[i..] == [];
    } else {
      assert enemies[i..][1..] == enemies[i + 1..];
      if IsDead(enemies[i]) {
        DeathsCount(m, random, goldMultiplier, enemies, Reap(m, random, goldMultiplier, d, enemies[i]), i + 1);
      } else {
        DeathsCount(m, random, goldMultiplier, enemies, d.(alive := d.alive + [enemies[i]]), i + 1);
      }
    }
  }

  /** Every enemy is either alive or dead. */
  lemma {:induction false} AliveDeadPartition(s: seq<Enemy>)
    ensures |Filter(IsAlive, s)| + |Filter(IsDead, s)| == |s|
  {
    if |s| > 0 {
      AliveDeadPartition(s[1..]);
    }
  }

  /** Dead enemies only add items, at most one each; a pending offer is kept; the cursor only
      moves forward. */
  lemma {:induction false} DeathsDrops(m: Maths, random: RandomStream, goldMultiplier: real,
                                       enemies: seq<Enemy>, d: Deaths, i: nat)
    requires ValidRandom(random) && i <= |enemies|
    ensures var r := DeathsFrom(m, random, goldMultiplier, enemies, d, i);
      && d.killed <= r.killed
      && |d.items| <= |r.items| <= |d.items| + (r.killed - d.killed)
      && r.items[..|d.items|] == d.items
      && (d.pending.Some? ==> r.pending == d.pending)
      && d.cursor <= r.cursor
    decreases |enemies| - i
  {
    if i < |enemies| {
      if IsDead(enemies[i]) {
        var d' := Reap(m, random, goldMultiplier, d, enemies[i]);
        DeathsDrops(m, random, goldMultiplier, enemies, d', i + 1);
        var r := DeathsFrom(m, random, goldMultiplier, enemies, d', i + 1);
        assert r.items[..|d.items|] == r.items[..|d'.items|][..|d.items|];
      } else {
        DeathsDrops(m, random, goldMultiplier, enemies, d.(alive := d.alive + [enemies[i]]), i + 1);
      }
    }
  }

  // ---------------------------------------------------------------------------------------
  // Player contact

  /** The player's hit circle against an enemy's. */
  predicate Contacts(m: Maths, p: Player, e: Enemy)
  {
    CircleToCircle(m, Circle(p.x, p.y, C.PlayerSize / 2.0), Circle(e.x, e.y, e.size))
  }

  /** The index of the first enemy from `k` on that touches the player. */
  function FirstContact(m: Maths, p: Player, enemies: seq<Enemy>, k: nat): (r: Option<nat>)
    requires k <= |enemies|
    ensures r.Some? ==> k <= r.value < |enemies|
    decreases |enemies| - k
  {
    if k == |enemies| then None
    else if Contacts(m, p, enemies[k]) then Some(k)
    else FirstContact(m, p, enemies, k + 1)
  }

  /** The outcome of the contact check: the player, the screen shake, the particles, the cursor,
      and whether the player died (the tick then ends early). */
  datatype Contact = Contact(player: Player, screenShake: real, particles: seq<Particle>,
                             cursor: nat, dead: bool)

  /** The shake decays by the frame time; while the player is not invulnerable, the first enemy
      touching the player deals its damage, restarts invulnerability and the shake, and bursts
      six particles at the player. */
  function ContactOutcome(m: Maths, random: RandomStream, newTime: real, deltaTime: real,
                          p: Player, alive: seq<Enemy>, screenShake: real,
                          particles: seq<Particle>, cursor: nat): Contact
  {
    var shake := Max(0.0, screenShake - deltaTime);
    if newTime > p.invulnerableUntil then
      match FirstContact(m, p, alive, 0)
      case None => Contact(p, shake, particles, cursor, false)
      case Some(k) =>
        var hurt := p.(hp := p.hp - alive[k].damage,
                       invulnerableUntil := newTime + C.PlayerInvincibilityTime);
        Contact(hurt, C.ScreenShakeDuration,
                particles + GameLogic.Particles(m, PlayerPoint(hurt), C.PlayerColor, 6, random, cursor),
                cursor + 12, hurt.hp <= 0.0)
    else Contact(p, shake, particles, cursor, false)
  }

  /** The contact loop, with its `break` after the first hit. */
  method ResolveContact(m: Maths, random: RandomStream, newTime: real, deltaTime: real,
                        p: Player, alive: seq<Enemy>, screenShake: real,
                        particles: seq<Particle>, cursor: nat)
    returns (r: Contact)
    ensures r == ContactOutcome(m, random, newTime, deltaTime, p, alive, screenShake, particles, cursor)
  {
    var player, shake, ps, c, dead := p, Max(0.0, screenShake - deltaTime), particles, cursor, false;
    if newTime > player.invulnerableUntil {
      var j := 0;
      while j < |alive|
        invariant 0 <= j <= |alive|
        invariant FirstContact(m, p, alive, 0) == FirstContact(m, p, alive, j)
      {
        var enemy := alive[j];
        if CircleToCircle(m, Circle(player.x, player.y, C.PlayerSize / 2.0),
                          Circle(enemy.x, enemy.y, enemy.size)) {
          player := player.(hp := player.hp - enemy.damage);
          player := player.(invulnerableUntil := newTime + C.PlayerInvincibilityTime);
          shake := C.ScreenShakeDuration;
          var burst, next := GameLogic.CreateParticles(m, PlayerPoint(player), C.PlayerColor, 6, random, c);
          ps, c := ps + burst, next;
          dead := player.hp <= 0.0;
          break;
        }
        j := j + 1;
      }
    }
    r := Contact(player, shake, ps, c, dead);
  }

  /** The first contact is an enemy touching the player with none touching before it, and
      there is none exactly when no enemy from `k` on touches the player. */
  lemma {:induction false} FirstContactFacts(m: Maths, p: Player, enemies: seq<Enemy>, k: nat)
    requires k <= |enemies|
    ensures var r := FirstContact(m, p, enemies, k);
      && (r.None? <==> forall j :: k <= j < |enemies| ==> !Contacts(m, p, enemies[j]))
      && (r.Some? ==> k <= r.value < |enemies| && Contacts(m, p, enemies[r.value])
                      && forall j :: k <= j < r.value ==> !Contacts(m, p, enemies[j]))
    decreases |enemies| - k
  {
    if k < |enemies| && !Contacts(m, p, enemies[k]) {
      FirstContactFacts(m, p, enemies, k + 1);
    }
  }

  /** At most one enemy hurts the player per tick, only when the player is not invulnerable;
      a hit restarts invulnerability for 1000 ms and the shake at 200 ms, and the player dies
      exactly when the hit takes health to zero or below. Nothing but health and the
      invulnerability deadline of the player changes. */
  lemma ContactFacts(m: Maths, random: RandomStream, newTime: real, deltaTime: real,
                     p: Player, alive: seq<Enemy>, screenShake: real,
                     particles: seq<Particle>, cursor: nat)
    ensures var r := ContactOutcome(m, random, newTime, deltaTime, p, alive, screenShake, particles, cursor);
      && r.player == p.(hp := r.player.hp, invulnerableUntil := r.player.invulnerableUntil)
      && (newTime <= p.invulnerableUntil ==> r.player == p && !r.dead
                                             && r.screenShake == Max(0.0, screenShake - deltaTime))
      && (r.player != p ==>
            && newTime > p.invulnerableUntil
            && (exists k :: 0 <= k < |alive| && Contacts(m, p, alive[k])
                            && r.player.hp == p.hp - alive[k].damage)
            && r.player.invulnerableUntil == newTime + 1000.0 && r.screenShake == 200.0)
      && (r.dead <==> r.player != p && r.player.hp <= 0.0)
      && r.particles[..|particles|] == particles && |r.particles| <= |particles| + 6
  {
    FirstContactFacts(m, p, alive, 0);
  }

  // ---------------------------------------------------------------------------------------
  // Item pickup

  /** The pickup radius: 40 for gold, 25 for health, plus the magnet bonus, which no code ever
      sets and so is always 0. */
  function ItemRadius(it: Item): real
  {
    (if it.kind == GoldItem then 40.0 else 25.0) + 0.0
  }

  /** Whether the player at `(x, y)` picks up the item. */
  predicate Collects(m: Maths, x: real, y: real, it: Item)
  {
    CircleToCircleWithRadius(m, Circle(x, y, C.PlayerSize / 2.0),
                             Circle(it.x, it.y, ItemRadius(it)), Some(ItemRadius(it)))
  }

  /** The items a player at `(x, y)` leaves on the ground. */
  function Missed(m: Maths, x: real, y: real): Item -> bool
  {
    it => !Collects(m, x, y, it)
  }

  /** The running state of `items.filter(...)`: the player, the gold, the items left, the
      particles and the cursor. */
  datatype Pickup = Pickup(player: Player, gold: real, kept: seq<Item>, particles: seq<Particle>,
                           cursor: nat)

  /** What picking one item up does: gold adds its value to the gold, health heals up to the
      maximum, and six particles in the item's colour burst at its place. */
  function Collect(m: Maths, random: RandomStream, pk: Pickup, it: Item): Pickup
  {
    var gold := if it.kind == GoldItem then pk.gold + it.value else pk.gold;
    var player := if it.kind == HealthItem
                  then pk.player.(hp := Min(pk.player.maxHp, pk.player.hp + it.value)) else pk.player;
    var color := if it.kind == GoldItem then C.GoldColor else C.HealthPotionColor;
    Pickup(player, gold, pk.kept,
           pk.particles + GameLogic.Particles(m, Point(it.x, it.y), color, 6, random, pk.cursor),
           pk.cursor + 12)
  }

  /** The filter from index `i` on. */
  function PickupsFrom(m: Maths, random: RandomStream, items: seq<Item>, pk: Pickup, i: nat): Pickup
    requires i <= |items|
    decreases |items| - i
  {
    if i == |items| then pk
    else if Collects(m, pk.player.x, pk.player.y, items[i]) then
      PickupsFrom(m, random, items, Collect(m, random, pk, items[i]), i + 1)
    else PickupsFrom(m, random, items, pk.(kept := pk.kept + [items[i]]), i + 1)
  }

  /** The pickup loop of the tick. */
  method CollectItems(m: Maths, random: RandomStream, items: seq<Item>, player: Player, gold: real,
                      particles: seq<Particle>, cursor: nat)
    returns (pk: Pickup)
    ensures pk == PickupsFrom(m, random, items, Pickup(player, gold, [], particles, cursor), 0)
  {
    pk := Pickup(player, gold, [], particles, cursor);
    var i := 0;
    while i < |items|
      invariant 0 <= i <= |items|
      invariant PickupsFrom(m, random, items, Pickup(player, gold, [], particles, cursor), 0)
        == PickupsFrom(m, random, items, pk, i)
    {
      var item := items[i];
      var itemRadius := if item.kind == GoldItem then 40.0 else 25.0;
      itemRadius := itemRadius + 0.0;
      if CircleToCircleWithRadius(m, Circle(pk.player.x, pk.player.y, C.PlayerSize / 2.0),
                                  Circle(item.x, item.y, itemRadius), Some(itemRadius)) {
        if item.kind == GoldItem {
          pk := pk.(gold := pk.gold + item.value);
        } else if item.kind == HealthItem {
          pk := pk.(player := pk.player.(hp := Min(pk.player.maxHp, pk.player.hp + item.value)));
        }
        var color := if item.kind == GoldItem then C.GoldColor else C.HealthPotionColor;
        var burst, next := GameLogic.CreateParticles(m, Point(item.x, item.y), color, 6, random, pk.cursor);
        pk := pk.(particles := pk.particles + burst, cursor := next);
      } else {
        pk := pk.(kept := pk.kept + [item]);
      }
      i := i + 1;
    }
  }

  /** The value of the gold items a player at `(x, y)` picks up from a list. */
  function CollectedGold(m: Maths, x: real, y: real, items: seq<Item>): real
  {
    if |items| == 0 then 0.0
    else (if items[0].kind == GoldItem && Collects(m, x, y, items[0]) then items[0].value else 0.0)
         + CollectedGold(m, x, y, items[1..])
  }

  /** Exactly the collected items leave the list, and the rest stay in order. */
  lemma {:induction false} PickupsKeepMissed(m: Maths, random: RandomStream, items: seq<Item>,
                                             pk: Pickup, i: nat)
    requires i <= |items|
    ensures PickupsFrom(m, random, items, pk, i).kept
            == pk.kept + Filter(Missed(m, pk.player.x, pk.player.y), items[i..])
    decreases |items| - i
  {
    if i == |items| {
      assert items[i..] == [];
    } else {
      var keep := Missed(m, pk.player.x, pk.player.y);
      FilterStep(keep, items, i, pk.kept);
      assert keep(items[i]) == !Collects(m, pk.player.x, pk.player.y, items[i]);
      if Collects(m, pk.player.x, pk.player.y, items[i]) {
        var pk' := Collect(m, random, pk, items[i]);
        assert pk'.player.x == pk.player.x && pk'.player.y == pk.player.y && pk'.kept == pk.kept;
        PickupsKeepMissed(m, random, items, pk', i + 1);
      } else {
        PickupsKeepMissed(m, random, items, pk.(kept := pk.kept + [items[i]]), i + 1);
      }
    }
  }

  /** The gold grows by the value of the gold items collected. */
  lemma {:induction false} PickupsGold(m: Maths, random: RandomStream, items: seq<Item>,
                                       pk: Pickup, i: nat)
    requires i <= |items|
    ensures PickupsFrom(m, random, items, pk, i).gold
            == pk.gold + CollectedGold(m, pk.player.x, pk.player.y, items[i..])
    decreases |items| - i
  {
    if i == |items| {
      assert items[i..] == [];
    } else {
      assert items[i..][1..] == items[i + 1..];
      if Collects(m, pk.player.x, pk.player.y, items[i]) {
        PickupsGold(m, random, items, Collect(m, random, pk, items[i]), i + 1);
      } else {
        PickupsGold(m, random, items, pk.(kept := pk.kept + [items[i]]), i + 1);
      }
    }
  }

  /** Healing never lifts health above the maximum: a player at or below it stays at or below
      it, and with non-negative item values health never falls; no other player field moves. */
  lemma {:induction false} PickupsHeal(m: Maths, random: RandomStream, items: seq<Item>,
                                       pk: Pickup, i: nat)
    requires i <= |items|
    ensures var r := PickupsFrom(m, random, items, pk, i);
      && r.player == pk.player.(hp := r.player.hp)
      && (pk.player.hp <= pk.player.maxHp ==> r.player.hp <= pk.player.maxHp)
      && (pk.player.hp <= pk.player.maxHp && (forall j :: i <= j < |items| ==> items[j].value >= 0.0)
          ==> pk.player.hp <= r.player.hp)
    decreases |items| - i
  {
    if i < |items| {
      if Collects(m, pk.player.x, pk.player.y, items[i]) {
        PickupsHeal(m, random, items, Collect(m, random, pk, items[i]), i + 1);
      } else {
        PickupsHeal(m, random, items, pk.(kept := pk.kept + [items[i]]), i + 1);
      }
    }
  }
}
