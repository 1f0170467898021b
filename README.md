# Wrath of the Wrappers: a model of the game core in Dafny

This project models the core of the browser game *Wrath of the Wrappers* in Dafny:

- **The per-tick update** (`updateGameState` in `src/hooks/useGameLoop.ts`). In order, one tick:
  - re-applies the equipped passive skills, then moves and clamps the player under the zoomed view;
  - moves every enemy towards the player;
  - integrates projectiles and particles;
  - auto-fires at the nearest enemy in range;
  - resolves projectile hits, including piercing and the per-projectile set of enemies already pierced;
  - removes dead enemies, with their gold/potion drops and the skill-drop offer;
  - applies enemy contact with invulnerability frames, which can end the run;
  - picks up items;
  - spawns enemies on a cooldown and applies the difficulty, enemy-health and zoom schedules.

  `GameLoop.Step` is the specification of one tick. `GameLoop.UpdateGameState` runs the source's
  sequence of loops and updates and is proved equal to it. The phase methods are proved against
  their own specification functions in `GameLoopPhases` and `GameLoopEncounters`.
- **The factories and balance tables**:
  - the player, enemy, projectile, item and particle factories and the upgrade formulas in `src/utils/gameLogic.ts`;
  - the `GAME_CONFIG` tables in `src/utils/constants.ts`;
  - the class and skill catalogue in `src/types/classes.ts`.
- **The passive-skill rules** in `src/utils/skillSystem.ts`: generating a skill, the drop chance, the additive stat bonuses with the fire-rate floor, and the tooltip text.
- **The geometry** of `src/utils/collision.ts`.
- **The session handlers of `src/components/Game.tsx`**:
  - the five-slot, oldest-out skill inventory;
  - paying for an upgrade from the run's gold first and the stored gold for the rest;
  - the status buttons;
  - the effects that save the run when the player dies or the screen unmounts.
- **The persistent stores** `useBolterSystem` and `useProfileSystem`, together with the current run's session.
- **The keyboard flags** of `useInput`.
- **The skill-offer card**: its five-second countdown and c/v shortcuts.
- **The helpers of the two upgrade screens**.
- **`formatTime`**.
- **The profile-creation form**.

Modelling conventions:

- Every `Math.random()` is a draw from an explicit stream `random: nat -> real`, read at an advancing cursor. `ValidRandom` states that every draw lies in [0, 1).
- Generated string ids are the cursor positions of their own draws, so they are fresh naturals.
- `Date.now()` is a `now` parameter.
- `Math.sqrt`, `Math.cos` and `Math.sin` are supplied as a `Maths` record. `ValidMaths` states that `sqrt` is the non-negative square root.
- React state cells are class fields. The bolter store also keeps the values its callbacks captured at the last render (`seenData`, `seenSession`). A callback reads those values, and each write replaces the cell, so the last write of a handler wins. `Render` stands for a re-render. The game screen's own cells are plain fields, because each handler reads them before it writes them.
- Numbers are mathematical reals. Integer results (`Math.floor`, `toFixed`) are written out explicitly.

## Model

| member | source | states |
|---|---|---|
| Constants.UpgradeCostRowsDouble | src/utils/constants.ts:55-61 | each of the five cost rows has eight entries, starts positive, and every entry is twice the one before it |
| Constants.DropBandsFit | src/utils/constants.ts:50-52 | the potion chance plus the gold chance is 0.9, so the bands are nested inside [0, 1) and leave a 0.1 band with no drop |
| Constants.EnemyTemplatesMatchNames | src/utils/constants.ts:17-42 | a template exists exactly for the names in `ENEMY_TYPE_NAMES`, and each has min gold ≤ max gold and positive hp, speed and size |
| Constants.UpgradeTypeNamesComplete | src/utils/constants.ts:89-92 | `UPGRADE_TYPE_NAMES` has five distinct entries and contains every cost-table key |
| Classes.BolterConfig | src/types/classes.ts:60-90 | the bolter's modifiers are 0.8 health, 1.2 speed, 1.0 damage and 0.6 fire rate; its projectile has speed 400, size 4 and no piercing flag |
| Classes.CatalogueShape | src/types/classes.ts:92-125 | the catalogue has four skills with distinct names, each with a maximum level of 5 or 10 |
| Classes.CatalogueEffects | src/types/classes.ts:92-125 | no catalogue skill has a damage, gold or piercing effect, and Battle Frenzy is the only fire-rate skill, with a flat 0.5 |
| Collision.SquaredDistance | src/utils/collision.ts:17-19 | `dx * dx + dy * dy` is never negative |
| Collision.CircleToCircleSquared | src/utils/collision.ts:16-21 | two circles overlap exactly when the sum of the radii is positive and the squared centre distance is below its square |
| Collision.CircleToCircleSymmetric | src/utils/collision.ts:16-21 | overlap does not depend on the order of the two circles |
| Collision.ConcentricCirclesOverlap | src/utils/collision.ts:16-21 | two circles with the same centre and a positive radius sum always overlap |
| Collision.CircleToCircleWithRadius | src/utils/collision.ts:23-29 | `customRadius \|\| circle2.radius`: an absent or zero custom radius gives the plain circle test, and any other custom radius replaces the second circle's radius |
| Collision.CircleToRectangleCases | src/utils/collision.ts:30-39 | a circle of positive radius whose centre is inside the rectangle collides with it; a circle at least its radius to the right of the rectangle does not |
| Collision.OffScreenIgnoresMargin | src/utils/collision.ts:41-44 | the `margin` argument never changes the result, and a point is on screen exactly when it is within 150 of the rectangle on both axes |
| Collision.SpawnPositionOutside | src/utils/collision.ts:46-62 | with draws in [0, 1) a side is always chosen and two draws are used; the point is 50 beyond one side, within [0, w) or [0, h) along it, and never inside the rectangle; a first draw below 0.25, 0.5, 0.75 or 1 picks the top, right, bottom or left side, and the second draw times the width or height places the point along it |
| Collision.DistanceFacts | src/utils/collision.ts:64-68 | distance is symmetric, zero from a point to itself, and orders points the same way as squared distance |
| Collision.NormalizeFacts | src/utils/collision.ts:70-74 | the zero vector maps to the origin; any other vector maps to a unit vector that gives back the original when scaled by its length |
| GameLogic.CurveMonotone | src/utils/gameLogic.ts:113-118 | the diminishing-returns curve `(level * rate) / (1 + level * damping)` is 0 at level 0, rises strictly with the level, and stays below `rate / damping` |
| GameLogic.UpgradeCurves | src/utils/gameLogic.ts:114-118 | every multiplier is 1 at level 0 and never falls as the level rises; the fire-rate reduction lies in [0, 0.75] and never falls |
| GameLogic.InitialPlayerFacts | src/utils/gameLogic.ts:110-140 | the un-upgraded bolter starts at (400, 300) with hp = maxHp = 80, damage 25, speed 240, cooldown 0.18 and gold multiplier 1; with any upgrades its stats are at least those and its cooldown lies in [0.08, 0.18] |
| GameLogic.InitialPlayerMonotone | src/utils/gameLogic.ts:114-127 | more upgrades never make the starting player weaker: health, damage, speed and gold multiplier never fall, and the cooldown never rises |
| GameLogic.InitialStateFacts | src/utils/gameLogic.ts:142-170 | a run starts playing at time 0 with no gold, no entities and no pending skill; both multipliers are 1, with their first steps at 15000 and 45000; the view is unzoomed |
| GameLogic.CreateEnemyFacts | src/utils/gameLogic.ts:172-207 | a roll below 0.05 (heavy tank) or below 0.07 (speeder) fails for want of a template; any other roll builds a grunt, runner or tank chosen by the second draw, with health scaled by the multiplier, no flash, last attack 0, a spawn point outside the canvas and a fresh id |
| GameLogic.SpawnIgnoresZoom | src/utils/gameLogic.ts:190 | the zoom level has no influence on the enemy created |
| GameLogic.FindPiercingSkillFacts | src/utils/gameLogic.ts:223-225 | the search finds a skill exactly when some equipped skill has a piercing effect, and it finds the first such skill |
| GameLogic.CreateProjectileFacts | src/utils/gameLogic.ts:209-242 | a bolter's projectile pierces exactly when an equipped skill has a piercing effect; its pierced-set is empty exactly when it pierces and absent otherwise; it starts at the shooter with size 4 and has speed 400 towards a distinct target |
| GameLogic.UnownedProjectile | src/utils/gameLogic.ts:212-214 | a projectile with no owner has the default size 6 and never pierces |
| GameLogic.CreateItemFacts | src/utils/gameLogic.ts:244-254 | a new item is uncollected, at the given position with the given value; it is a mega bolt exactly when one was asked for, and a mega bolt shows as gold |
| GameLogic.CreateParticles | src/utils/gameLogic.ts:256-276 | the loop produces exactly the particle sequence `Particles` describes and uses two draws per particle |
| GameLogic.ParticlesFacts | src/utils/gameLogic.ts:256-276 | exactly `count` particles, all at the position in the given colour, with life = maxLife = 500 and a size in [3, 6) |
| GameLogic.NearestIndex | src/utils/gameLogic.ts:278-293 | the chosen index has least distance, and every earlier enemy is strictly farther away |
| GameLogic.FindNearestEnemyScan | src/utils/gameLogic.ts:278-293 | the loop that replaces the nearest only on a strictly smaller distance returns `FindNearestEnemy` |
| GameLogic.FindNearestEnemyFacts | src/utils/gameLogic.ts:278-293 | null exactly for an empty list; otherwise an enemy of the list at least distance, the first such in list order |
| GameLogic.UpgradeCostDoubles | src/utils/gameLogic.ts:295-298 | every cost is positive, and each level costs exactly twice the level before, inside the table and past its end |
| GameLogic.UpgradeCostIncreasing | src/utils/gameLogic.ts:295-298 | the cost rises strictly with the level |
| GameLogic.CanAffordUpgrade | src/utils/gameLogic.ts:300-302 | a player who can afford a level holds positive gold and can also afford the first level of that upgrade |
| GameLogic.AffordabilityDownward | src/utils/gameLogic.ts:300-302 | `canAffordUpgrade` holds exactly when the gold covers the cost; affording a level means affording every lower one, and no level is affordable with no gold |
| SkillSystem.SkillIndex | src/utils/skillSystem.ts:5-6 | a draw in [0, 1) always selects an index inside the four-entry catalogue |
| SkillSystem.GeneratedSkillFromCatalogue | src/utils/skillSystem.ts:4-14 | a generated skill is a catalogue entry with its fields unchanged, the fresh id and level 1, and every catalogue entry can be drawn |
| SkillSystem.ShouldDropSkill | src/utils/skillSystem.ts:16-21 | a draw below 0.15 always drops a skill, a draw of 0.25 or more never does, and from 100 kills on a skill drops exactly for draws below 0.25 |
| SkillSystem.DropThresholdBounds | src/utils/skillSystem.ts:16-21 | the drop chance `0.15 + min(0.1, kills * 0.001)` lies in [0.15, 0.25], never falls as kills grow, and is capped from 100 kills on |
| SkillSystem.ApplySkillEffects | src/utils/skillSystem.ts:23-62 | the nested accumulation loops return `SkillAdjusted`: an empty list gives the player itself; otherwise damage gains Σ value·level over damage effects, the cooldown loses Σ value·level/100 over fire-rate effects but not below 0.1, and the gold multiplier gains Σ value·level/100 over gold effects |
| SkillSystem.SkillAdjustedFrame | src/utils/skillSystem.ts:25-61 | position, health, speed, timers and class state are never touched; with any skill the cooldown is at least 0.1; with none the player is unchanged |
| SkillSystem.EffectTotalAppend | src/utils/skillSystem.ts:35-54 | the per-type totals are additive over concatenated skill lists |
| SkillSystem.EffectTotalAbsent | src/utils/skillSystem.ts:35-54 | an effect type that no equipped skill carries contributes nothing to its total |
| SkillSystem.IgnoredEffectKinds | src/utils/skillSystem.ts:40-52 | speed, health, piercing, vampirism, critical, area and magnet effects are ignored: with only those, the player changes at most by raising its cooldown to 0.1 |
| SkillSystem.ReappliedDrift | src/utils/skillSystem.ts:57-59 | applying the bonuses n times in a row adds the damage and gold bonuses n times and lowers the cooldown by n times its reduction, down to the 0.1 floor |
| SkillSystem.RepeatedProduct | src/utils/skillSystem.ts:57-59 | the repeated bonus after n applications is n times the bonus |
| SkillSystem.BattleFrenzyDrift | src/utils/skillSystem.ts:45-58 | Battle Frenzy at level 1 on a 0.18 s cooldown takes another 0.005 off on every application and reaches the 0.1 floor after sixteen |
| SkillSystem.TooltipFacts | src/utils/skillSystem.ts:64-73 | the tooltip is the description, the line `Level n/max`, then `Effects: ` and the labels joined by ", ": empty with no effects, otherwise starting with the first effect's label and ending with the last; each label has '-' exactly for fire rate, the value times the level after the sign, and '%' exactly for a percentage |
| SkillSystem.EffectLabelShape | src/utils/skillSystem.ts:65-70 | a label starts with '-' exactly for a fire-rate effect and '+' otherwise, shows the value times the level right after the sign, and contains '%' exactly when the effect is a percentage |
| GameLoopPhases.FilterAppend | src/hooks/useGameLoop.ts:109-125 | filtering a concatenation is the concatenation of the filtered parts |
| GameLoopPhases.HeadingFacts | src/hooks/useGameLoop.ts:65-77 | each axis is -1, 0 or 1; a diagonal scales both axes by 0.707, a straight move keeps the unit step, and opposite keys cancel |
| GameLoopPhases.ClampAxisRange | src/hooks/useGameLoop.ts:82-95 | the clamped coordinate never goes below `15 - offset`, never above `extent/scale - 15 - offset` when that range is not empty, and a coordinate already inside is unchanged |
| GameLoopPhases.ClampAxisFields | src/hooks/useGameLoop.ts:82-95 | at zoom 1 the player stays in [15, 785] × [15, 585]; at zoom 0.8 in [-85, 885] × [-60, 660] |
| GameLoopPhases.MovePlayerFacts | src/hooks/useGameLoop.ts:64-95 | moving changes only the position, and the new position lies in the zoomed field |
| GameLoopPhases.MoveEnemyFacts | src/hooks/useGameLoop.ts:98-106 | each enemy steps along the line to the player and towards it, `speed * dt` long unless it stands on the player, where it stays; its hit flash decays to `max(0, flashUntil - deltaTime)`, and no other field changes |
| GameLoopPhases.IntegrateProjectilesFacts | src/hooks/useGameLoop.ts:109-115 | the projectiles kept are exactly the moved ones still on screen |
| GameLoopPhases.IntegrateParticlesFacts | src/hooks/useGameLoop.ts:118-125 | the particles kept are exactly the aged ones with life left |
| GameLoopPhases.AutoFireFacts | src/hooks/useGameLoop.ts:127-133 | a shot is fired exactly when an enemy exists and `newTime - lastShot > fireRate * 1000`; it is aimed from the player at the nearest enemy with the player's damage, and the shot time becomes `newTime`; otherwise nothing changes |
| GameLoopPhases.ScanEnemies | src/hooks/useGameLoop.ts:152-189 | the loop with its `continue` and `break` over the enemies gives the scan `ScanFrom` describes |
| GameLoopPhases.ResolveHits | src/hooks/useGameLoop.ts:149-189 | the filter over all projectiles with one shared `hitEnemies` gives the pass `HitsFrom` describes |
| GameLoopPhases.HitFacts | src/hooks/useGameLoop.ts:167-184 | one hit damages the enemy at that index, makes it flash, records the strike and removes a non-piercing projectile |
| GameLoopPhases.ScanShape | src/hooks/useGameLoop.ts:152-189 | a scan keeps the enemy count and the projectile except its pierced-set, only appends strikes, and uses eight draws per strike |
| GameLoopPhases.ScanStrikes | src/hooks/useGameLoop.ts:155-186 | the strikes a scan adds point at increasing indices from the start index on, each with the id of the enemy there |
| GameLoopPhases.ScanKeepsIds | src/hooks/useGameLoop.ts:155-186 | a scan never changes an enemy's id |
| GameLoopPhases.ScanUntouched | src/hooks/useGameLoop.ts:155-186 | an enemy at an index the scan does not strike is left as it was |
| GameLoopPhases.ScanStruckDamaged | src/hooks/useGameLoop.ts:175-176 | each enemy a scan strikes has lost the projectile's damage and flashes until `newTime + 200` |
| GameLoopPhases.ScanDamage | src/hooks/useGameLoop.ts:155-186 | exactly the struck enemies are damaged, once each; every other enemy is unchanged |
| GameLoopPhases.ScanNonPiercing | src/hooks/useGameLoop.ts:155-188 | a non-piercing projectile hits at most one enemy, one not already in `hitEnemies`; it is removed exactly when it hits, and the hit id joins `hitEnemies` |
| GameLoopPhases.ScanSkipsPierced | src/hooks/useGameLoop.ts:160 | a piercing projectile never hits an enemy whose id is already in its pierced-set |
| GameLoopPhases.ScanPiercedSet | src/hooks/useGameLoop.ts:168-169 | the pierced-set grows by exactly the ids the scan hits |
| GameLoopPhases.ScanPiercingDistinct | src/hooks/useGameLoop.ts:160-169 | a piercing projectile hits each enemy id at most once |
| GameLoopPhases.HitsLog | src/hooks/useGameLoop.ts:150-189 | over the whole pass the ids hit by non-piercing projectiles are pairwise different and are exactly `hitEnemies`, so no enemy takes a second non-piercing hit in one tick |
| GameLoopPhases.HitsShape | src/hooks/useGameLoop.ts:150-189 | the pass keeps the enemy count and ids, and keeps at most the projectiles it scanned |
| GameLoopPhases.PiercingKeepsShared | src/hooks/useGameLoop.ts:160-169 | a piercing projectile is never removed and never touches `hitEnemies` |
| GameLoopEncounters.RemoveDead | src/hooks/useGameLoop.ts:191-225 | the dead-enemy filter loop computes exactly the specification `DeathsFrom` from an empty record |
| GameLoopEncounters.ReapEnemy | src/hooks/useGameLoop.ts:196-222 | one pass of the filter callback for one enemy agrees with the specification step `Reap` |
| GameLoopEncounters.RollDrop | src/hooks/useGameLoop.ts:203-215 | the drop roll agrees with the specification `Drop` |
| GameLoopEncounters.RollSkill | src/hooks/useGameLoop.ts:217-220 | the skill roll with no offer pending agrees with the specification `SkillOffer` |
| GameLoopEncounters.DropFacts | src/hooks/useGameLoop.ts:203-215 | a drop happens exactly when the roll is below 0.9: a 25-point health potion below 0.1, gold between 0.1 and 0.9 worth the second roll's amount, nothing from 0.9 on; never both; the item lies at the enemy's place and is neither collected nor a mega bolt |
| GameLoopEncounters.GoldAmountBounds | src/hooks/useGameLoop.ts:210-213 | the gold amount lies between the floor of `min × multiplier` and `max × multiplier` |
| GameLoopEncounters.SkillOfferFacts | src/hooks/useGameLoop.ts:217-220 | a pending offer is kept without a draw; otherwise an offer appears exactly when the roll is below the drop threshold for the kill count, and it is a level-1 skill named from the catalogue |
| GameLoopEncounters.DeathsSurvivors | src/hooks/useGameLoop.ts:195-225 | the surviving enemies are exactly those with positive health, in their order |
| GameLoopEncounters.DeathsCount | src/hooks/useGameLoop.ts:196-198 | the kill count rises by exactly the number of enemies with health at or below zero |
| GameLoopEncounters.AliveDeadPartition | src/hooks/useGameLoop.ts:195-225 | every enemy is either kept or counted as a kill, never both |
| GameLoopEncounters.DeathsDrops | src/hooks/useGameLoop.ts:192-222 | each kill adds at most one item, existing items stay, a pending skill offer is never replaced, and the random cursor only moves forward |
| GameLoopEncounters.ResolveContact | src/hooks/useGameLoop.ts:227-260 | the contact loop with its `break` agrees with the specification `ContactOutcome` |
| GameLoopEncounters.FirstContactFacts | src/hooks/useGameLoop.ts:230-258 | the enemy that hurts the player is the first one touching it; none is found exactly when no enemy touches the player |
| GameLoopEncounters.ContactFacts | src/hooks/useGameLoop.ts:227-260 | while invulnerable the player is untouched and the shake decays; otherwise at most one touching enemy deals its damage, invulnerability runs 1000 ms past now and the shake restarts at 200; the player dies exactly when that hit takes health to zero or below; particles are only appended, at most six |
| GameLoopEncounters.CollectItems | src/hooks/useGameLoop.ts:262-292 | the pickup filter loop agrees with the specification `PickupsFrom` |
| GameLoopEncounters.PickupsKeepMissed | src/hooks/useGameLoop.ts:264-292 | exactly the items out of reach stay on the ground, in their order |
| GameLoopEncounters.PickupsGold | src/hooks/useGameLoop.ts:279-281 | the gold grows by the total value of the gold items collected |
| GameLoopEncounters.PickupsHeal | src/hooks/useGameLoop.ts:281-283 | healing never lifts health above the maximum, never lowers it for non-negative potions, and changes no other player field |
| GameLoop.UpdateGameState | src/hooks/useGameLoop.ts:52-349 | the source's tick, run on local copies phase by phase, computes exactly the specification `Step` (new state or enemy failure, and the next random cursor) |
| GameLoop.PrepareTick | src/hooks/useGameLoop.ts:53-133 | the first phases agree with the specification `Prepare` |
| GameLoop.MoveTick | src/hooks/useGameLoop.ts:59-95 | re-applying the skills and moving agrees with the specification `Moved` |
| GameLoop.ArmTick | src/hooks/useGameLoop.ts:97-133 | pursuit, integration and auto-fire agree with the specification `Arm` |
| GameLoop.AssembleTick | src/hooks/useGameLoop.ts:108-133 | integrating projectiles and particles and pushing the shot agree with the specification `Armed` |
| GameLoop.Launch | src/hooks/useGameLoop.ts:127-133 | the projectile list grows by the fired shot, at the end, and only when one was fired |
| GameLoop.MovePlayerTick | src/hooks/useGameLoop.ts:64-95 | the key-driven move with the clamp agrees with the specification `MovePlayer` |
| GameLoop.HeadingTick | src/hooks/useGameLoop.ts:65-77 | the key-driven direction agrees with the specification `Heading` |
| GameLoop.AutoFireTick | src/hooks/useGameLoop.ts:127-133 | the auto-attack agrees with the specification `AutoFire` |
| GameLoop.FinishTick | src/hooks/useGameLoop.ts:294-348 | spawning, schedules, camera, zoom and the returned state agree with the specification `Finish` |
| GameLoop.PrepareFacts | src/hooks/useGameLoop.ts:56-133 | time advances by the frame; the player is the skill-adjusted moved player, at most with the shot time set to now; one enemy per enemy; at most one new projectile and one draw |
| GameLoop.FinishFacts | src/hooks/useGameLoop.ts:294-348 | a spawn happens exactly when the spawn cooldown divided by the difficulty has passed; then `lastEnemySpawn` is now and one valid enemy scaled by the health multiplier comes last; the only failure is a due spawn with a missing template; kills add up; the status stays |
| GameLoop.FinishSchedules | src/hooks/useGameLoop.ts:302-327 | the spawn-rate multiplier grows by 1.3 every 15 s and enemy health by 1.5 every 45 s, each exactly when its deadline is reached; the zoom switches from 1 to 0.8 exactly at the first tick at 60 s or later and never changes otherwise |
| GameLoop.DeathsOfFacts | src/hooks/useGameLoop.ts:191-225 | survivors are the hit enemies with health left, the others become kills, existing items stay in front of at most one drop per kill, and a pending offer stays |
| GameLoop.StepDeath | src/hooks/useGameLoop.ts:249-256 | a playing tick ends playing or dead; death comes only through a contact taking health to zero or below, and then the state is the previous one with the new player, status `dead` and the seconds survived as score |
| GameLoop.StepPlayerStats | src/hooks/useGameLoop.ts:59-62 | every tick's player carries one more application of the skill bonuses to damage, cooldown and gold multiplier, and keeps speed, maximum health and class state |
| GameLoop.FinishEnemies | src/hooks/useGameLoop.ts:294-300 | the enemies left are the survivors plus the spawned one, all with health above zero, and the kill count takes this tick's kills |
| GameLoop.StepKills | src/hooks/useGameLoop.ts:191-300 | a surviving tick conserves enemies: kills plus enemies left equal the previous kills plus enemies plus the spawn, and every enemy left has positive health |
| GameLoop.StepWellFormed | src/hooks/useGameLoop.ts:302-327 | the zoom stays 1 or 0.8 and the multipliers stay or grow by exactly their factors |
| GameLoop.StepPosition | src/hooks/useGameLoop.ts:227-292 | contact and pickups never move the player: the final position is the one movement produced |
| GameLoop.StepClamp | src/hooks/useGameLoop.ts:82-95 | after every tick the player's centre lies in the zoomed field: `[15, 785] × [15, 585]` at zoom 1 and `[-85, 885] × [-60, 660]` at 0.8 |
| GameLoop.StepPending | src/hooks/useGameLoop.ts:218 | a skill offer waiting for an answer survives the tick unchanged |
| GameLoop.StepTime | src/hooks/useGameLoop.ts:52-56 | a surviving tick advances the game time by exactly the frame time |
| GameLoop.FrameFacts | src/hooks/useGameLoop.ts:17-31 | the frame clock always moves to the frame's time; a frame that is not playing changes nothing and draws nothing; a playing frame advances the time by the time since the previous frame |
| GameLoop.PauseOnEscapeFacts | src/hooks/useGameLoop.ts:45-49 | escape pauses exactly a playing game and changes nothing else, and a paused game's frames leave it unchanged |
| GameLoop.Ticks | src/hooks/useGameLoop.ts:59-62 | over `n` surviving ticks with skills equipped, damage and gold multiplier gain their bonus `n` times and the cooldown falls by `n` reductions down to 0.1 |
| GameLoop.TickDrift | src/hooks/useGameLoop.ts:59-62 | one surviving tick is one re-application of the skills and keeps the state well formed |
| GameLoop.DriftedCompose | src/utils/skillSystem.ts:23-62 | one re-application followed by `n - 1` more is `n` re-applications |
| GameScreen.IndexOfName | src/components/Game.tsx:154 | the result is the first index holding a skill of that name, or -1 exactly when no skill has it |
| GameScreen.FindIndexByName | src/components/Game.tsx:154 | the `findIndex` scan returns exactly `IndexOfName` |
| GameScreen.HandleAcceptSkill | src/components/Game.tsx:147-183 | the handler's copy, scan, level-up, push or shift-and-push computes exactly the specification `AcceptSkill` |
| GameScreen.AcceptLevelsUpExisting | src/components/Game.tsx:156-161 | taking a skill already equipped raises that skill's level by one, capped at its maximum, and keeps every other skill and the list's length |
| GameScreen.AcceptAppendsNew | src/components/Game.tsx:162-169 | a skill of a new name is appended, after dropping the oldest when five are equipped; it ends up last and the list stays within five |
| GameScreen.AcceptKeepsInventory | src/components/Game.tsx:147-183 | taking a skill keeps names distinct and the list within five, and a skill of the offered name is then equipped |
| GameScreen.AcceptRejectClearOffer | src/components/Game.tsx:147-187 | taking or refusing clears the offer; taking without an offer changes nothing; refusing leaves the player alone |
| GameScreen.WithoutSkill | src/components/Game.tsx:196 | the remaining skills are exactly those whose id differs, and the list never grows |
| GameScreen.WithoutSkillConcat | src/components/Game.tsx:196 | removal keeps the order of the rest: it distributes over concatenation |
| GameScreen.WithoutSkillIdempotent | src/components/Game.tsx:189-200 | removing the same id twice is removing it once |
| GameScreen.WithoutAbsentSkill | src/components/Game.tsx:189-200 | removing an id no skill carries changes nothing |
| GameScreen.StatusHandlerFacts | src/components/Game.tsx:202-222 | pause goes to paused, resume and close to playing, the two upgrade buttons to upgrading; only the status changes, the last press decides, and pause then resume restores a running game |
| GameScreen.UpgradePaymentFacts | src/components/Game.tsx:116-145 | a purchase goes through exactly when the run's gold and the stored gold together cover the cost; they then fall by exactly the cost, the run's gold pays first and is spent to 0 before the stored gold is touched, and neither goes negative |
| GameScreen.Screen.constructor | src/components/Game.tsx:60-67 | a new screen starts a fresh bolter run from the stored upgrades, not yet saved |
| GameScreen.Screen.Mount | src/components/Game.tsx:72-77 | mounting opens a session unless the run is saved or the render saw a session, and touches no stored data |
| GameScreen.Screen.HandleUpgrade | src/components/Game.tsx:116-145 | as written: a refused purchase changes nothing. An accepted one takes the cost as `UpgradePayment` splits it. When the run's gold covers the cost, the named level rises by one. When it does not, the second write of the render's record replaces the purchase: the stored gold is charged and the level stays |
| GameScreen.Screen.HandleUpgradeCorrected | src/components/Game.tsx:116-145 | with the level and the charge in one update, an accepted purchase raises the named level by one and takes the cost as `UpgradePayment` splits it; a refused one changes nothing |
| GameScreen.StoredGoldPurchaseLosesLevel | src/components/Game.tsx:129-140 | as written, buying the first damage level for 100 with no run gold and 100 stored gold is accepted and charges the 100, but the damage level stays 0 |
| GameScreen.Screen.DeathEffect | src/components/Game.tsx:79-92 | a dead run not yet saved is saved and marked saved: after a render, it is folded into the stored record with its gold, kills and score, and the session is cleared. Otherwise nothing changes |
| GameScreen.Screen.HandleRestart | src/components/Game.tsx:94-114 | as written: the run is saved unless it already was, and a fresh run starts from the render's upgrades. When the render saw a session and the run was unsaved, the save clears it and the start opens none, so the new run has no session |
| GameScreen.Screen.HandleRestartCorrected | src/components/Game.tsx:94-114 | with the session opened from its latest value, the run is saved the same way and the new run always has a session, a fresh one when the old run's was just closed |
| GameScreen.PauseRestartDropsNextRun | src/components/Game.tsx:94-114 | as written, after a restart with the session open, the next run dies with 25 gold and 3 kills and the stored record still holds only the first run |
| GameScreen.CorrectedRestartSavesNextRun | src/components/Game.tsx:94-114 | with the corrected restart, the same next run adds its 25 gold, 3 kills and one death to the totals the first run left |
| GameScreen.Screen.SaveEffectCleanup | src/components/Game.tsx:229-243 | the cleanup saves an unsaved run holding gold and clears the session, and otherwise changes nothing |
| GameScreen.DeathSavedOnce | src/components/Game.tsx:79-92 | running the death effect after two commits saves the run once, with the first run's time, and a saved run is never saved again |
| GameScreen.EarlySaveKeepsFirstGold | src/components/Game.tsx:229-243 | as written, a run that picks up 10 gold, kills another enemy, then picks up 15 more and dies stores only 10 gold: the cleanup of an earlier render saves it and clears the session |
| GameScreen.UnmountOnlySavesFinalRun | src/components/Game.tsx:79-92 | with the cleanup at unmount only, a run that dies with gold stores its final gold and kills and one death, once, and clears the session |
| BolterSystem.Bolter.constructor | src/hooks/useBolterSystem.ts:13-28 | the record is the stored one or the all-zero default, with no session, and the first render sees those values |
| BolterSystem.Bolter.Render | src/hooks/useBolterSystem.ts:30-59 | a render changes no cell, and its callbacks see the latest values |
| BolterSystem.Bolter.UpdateBolterData | src/hooks/useBolterSystem.ts:30-34 | the record becomes the merge of the update over the render's record; the session stays |
| BolterSystem.Bolter.PurchaseUpgrade | src/hooks/useBolterSystem.ts:36-47 | the answer is always yes; the record becomes the render's record with the named level one higher, and no gold is charged |
| BolterSystem.Bolter.StartGameSession | src/hooks/useBolterSystem.ts:49-59 | a session starting now is opened only when the render saw none |
| BolterSystem.Bolter.StartGameSessionFromLatest | src/hooks/useBolterSystem.ts:49-59 | the intended start: a session starting now is opened exactly when the latest value has none |
| BolterSystem.Bolter.SaveCurrentSessionStats | src/hooks/useBolterSystem.ts:61-104 | with no session in the render nothing is written. An empty run only clears the session. Any other run is folded into the render's record, and the session is cleared |
| BolterSystem.FreshCallbacks | src/hooks/useBolterSystem.ts:30-104 | called once per render, each callback acts on the latest values: an update merges, a purchase raises the level, a session opens only when none is on, and a save is `Folded` with the session cleared |
| BolterSystem.LastUpdateWins | src/hooks/useLocalStorage.ts:14-17 | two record writes from the same render leave only the second |
| BolterSystem.StartAfterSaveOpensNothing | src/hooks/useBolterSystem.ts:49-104 | a save followed by a start, both from a render that saw a session, leaves no session |
| BolterSystem.MergedFacts | src/hooks/useBolterSystem.ts:30-34 | a merge takes exactly the supplied fields, an empty update changes nothing, and merging twice is merging once |
| BolterSystem.PurchaseFacts | src/hooks/useBolterSystem.ts:36-47 | a purchase raises exactly the named level by one and changes nothing else, whatever the cost |
| BolterSystem.FoldedFacts | src/hooks/useBolterSystem.ts:68-103 | without a session or for a run with no gold and no kills a save changes nothing; otherwise gold, kills and play time are added, deaths rise by one, the best time is the larger one, and the upgrades stay |
| BolterSystem.FoldedMonotone | src/hooks/useBolterSystem.ts:91-97 | the best time never falls, and the totals never fall for a run with non-negative gains that ends after it started |
| BolterSystem.SecondSaveChangesNothing | src/hooks/useBolterSystem.ts:68-72 | a save clears the session, so a second save straight after changes nothing |
| ProfileSystem.Profiles.constructor | src/hooks/useProfileSystem.ts:14-16 | the profile is the stored one or a default made now, with no session |
| ProfileSystem.Profiles.UpdateProfile | src/hooks/useProfileSystem.ts:35-39 | the profile becomes the merge of the update over it, stamped with the time; the session stays |
| ProfileSystem.Profiles.PurchaseUpgrade | src/hooks/useProfileSystem.ts:41-54 | the answer is always yes; the named level rises by one, stamped with the time, and no gold is charged |
| ProfileSystem.Profiles.StartGameSession | src/hooks/useProfileSystem.ts:56-67 | a session starting now is opened only when none is open |
| ProfileSystem.Profiles.SaveCurrentSessionStats | src/hooks/useProfileSystem.ts:69-100 | the run is always folded in, with the session's length as play time, and the session is cleared |
| ProfileSystem.DefaultProfileFacts | src/hooks/useProfileSystem.ts:18-33 | the default profile plays the bolter, made and last played now, with every counter and upgrade level at zero and no achievements |
| ProfileSystem.MergedProfileFacts | src/hooks/useProfileSystem.ts:35-39 | an update takes exactly the supplied fields and always stamps `lastPlayed` with now, even when it supplies nothing |
| ProfileSystem.PurchaseFacts | src/hooks/useProfileSystem.ts:41-54 | a purchase raises exactly the named level by one and otherwise only stamps the time |
| ProfileSystem.SaveFacts | src/hooks/useProfileSystem.ts:69-100 | every save adds gold and kills, exactly one death, the session's length as play time (0 without a session), and keeps the larger best time and the upgrades |
| ProfileSystem.SecondSaveCounts | src/hooks/useProfileSystem.ts:69-100 | two saves in a row count two deaths, the second adding no play time, since nothing stops a save without a session |
| Input.WithFlag | src/hooks/useInput.ts:25-40 | exactly the named flag takes the value and the other four keep theirs |
| Input.Keyboard.constructor | src/hooks/useInput.ts:12-18 | all five flags start false |
| Input.Keyboard.KeyDown | src/hooks/useInput.ts:21-43 | a keydown leaves the record as `AfterKey` with value true |
| Input.Keyboard.KeyUp | src/hooks/useInput.ts:45-67 | a keyup leaves the record as `AfterKey` with value false |
| Input.Keyboard.Press | src/hooks/useInput.ts:22-42 | the shared switch writes the value to the matched flag, as `AfterKey` says |
| Input.AfterKeyFacts | src/hooks/useInput.ts:21-67 | a mapped key sets exactly its flag, true on keydown and false on keyup; an unmapped key changes nothing; every event changes at most one flag |
| Input.KeyFlagCaseInsensitive | src/hooks/useInput.ts:22-46 | a key and its lower-case spelling drive the same flag |
| Input.KeyTableLetters | src/hooks/useInput.ts:23-38 | `w`, `s`, `a`, `d` in either case drive up, down, left and right, and other letters nothing |
| Input.KeyTableNamed | src/hooks/useInput.ts:24-40 | the four arrow keys drive the movement flags and `Escape` the escape flag |
| Input.AfterKeyIdempotent | src/hooks/useInput.ts:21-67 | repeating an event changes nothing more, and a keyup undoes a keydown of the same key when the flag was clear |
| SkillDropNotification.Countdown.constructor | src/components/SkillDropNotification.tsx:18 | the count starts at five with no skill shown |
| SkillDropNotification.Countdown.Show | src/components/SkillDropNotification.tsx:20-36 | showing a skill restarts the count at five; with no skill the count is left alone |
| SkillDropNotification.Countdown.Tick | src/components/SkillDropNotification.tsx:25-33 | with no skill nothing happens; otherwise one tick moves the count as `TickOutcome` says and reports whether it accepted |
| SkillDropNotification.CountdownExpires | src/components/SkillDropNotification.tsx:18-33 | from five, the first four ticks count down without accepting and the fifth accepts, and every later tick accepts again |
| SkillDropNotification.TickOutcomeFacts | src/components/SkillDropNotification.tsx:26-32 | a tick keeps the count in [0, 5], never raises it, and accepts exactly when the count was at most one |
| SkillDropNotification.KeyDispatchFacts | src/components/SkillDropNotification.tsx:39-52 | `c` or `C` accepts and `v` or `V` rejects, any other key is ignored, and no key does anything while no skill is shown |
| SkillDropNotification.ProgressWidthBounds | src/components/SkillDropNotification.tsx:120 | the bar's width stays in [0, 100] percent, empty exactly at zero and full exactly at five |
| TimeFormat.JsRem | src/components/BolterMenu.tsx:15-16 | JavaScript's `%`: for a non-negative dividend the ordinary remainder, for a negative one a remainder in (-b, 0] |
| TimeFormat.DecomposeFacts | src/components/BolterMenu.tsx:12-16 | for a non-negative duration the hours, minutes and seconds add back up to the whole seconds, with minutes and seconds below 60 |
| TimeFormat.FormatTimeShape | src/components/BolterMenu.tsx:18-24 | the display has an `h` exactly when there is a whole hour and then ends in `m`; otherwise it ends in `s`, with an `m` exactly when there are whole minutes |
| TimeFormat.FormatTimeInjectiveUnderHour | src/components/BolterMenu.tsx:12-24 | under an hour, two durations that display alike have the same whole seconds |
| TimeFormat.FormatTimeDropsSeconds | src/components/BolterMenu.tsx:18-19 | from an hour on, two durations in the same whole minute display alike |
| TimeFormat.BestTimeLabelSeconds | src/components/BolterMenu.tsx:56 | the best time, kept in seconds and scaled to milliseconds, displays parts that add back up to its whole seconds |
| ProfileSelector.CreateProfileForm.constructor | src/components/ProfileSelector.tsx:24-27 | the form starts closed, with an empty name and no class chosen |
| ProfileSelector.CreateProfileForm.Open | src/components/ProfileSelector.tsx:134-137 | the create card opens the form and the class picker and keeps the name and the class |
| ProfileSelector.CreateProfileForm.EditName | src/components/ProfileSelector.tsx:180 | typing sets exactly the name |
| ProfileSelector.CreateProfileForm.SelectClass | src/components/ProfileSelector.tsx:168 | choosing or clearing the class sets exactly the class |
| ProfileSelector.CreateProfileForm.HandleCreateProfile | src/components/ProfileSelector.tsx:29-37 | the request is `CreateRequest` of the name and class; a request resets all four cells, and without one nothing changes |
| ProfileSelector.CreateProfileForm.Cancel | src/components/ProfileSelector.tsx:194-199 | cancelling closes the form and clears the name and the class |
| ProfileSelector.CreateRequestFacts | src/components/ProfileSelector.tsx:29-31 | a profile is requested exactly when the trimmed name is non-empty and a class is chosen, and it carries the trimmed name and that class |
| ProfileSelector.CreatedNameTrimmed | src/components/ProfileSelector.tsx:31 | the requested name is non-empty with no white space at either end |
| ProfileSelector.WhitespaceNameNeverCreates | src/components/ProfileSelector.tsx:29-37 | a name of white space only never creates a profile and leaves Create disabled; Create is enabled exactly when the name has a character that is not white space, and every request comes from an enabled button |
| Text.NatToStringRoundTrip | src/components/BolterMenu.tsx:19-23 | reading the decimal rendering of a number back gives the number |
| Text.NatToStringInjective | src/components/BolterMenu.tsx:19-23 | two numbers render alike exactly when they are equal |
| Text.IntToString | src/components/BolterMenu.tsx:19-23 | a rendering starts with a minus sign exactly for a negative number, followed by the digits of its magnitude |
| Text.ToLower | src/hooks/useInput.ts:22 | lower-casing keeps the length and leaves no upper-case ASCII letter; each upper-case letter becomes its lower-case partner in place and every other character is kept |
| Text.ToLowerIdempotent | src/hooks/useInput.ts:22 | lower-casing twice is lower-casing once, and leaves no upper-case ASCII letter |
| Text.TrimStart | src/components/ProfileSelector.tsx:30 | the result is a suffix of the input, the dropped prefix is white space and the result does not start with white space |
| Text.TrimEnd | src/components/ProfileSelector.tsx:30 | the result is a prefix of the input, the dropped suffix is white space and the result does not end with white space |
| Text.TrimFacts | src/components/ProfileSelector.tsx:30-31 | the trimmed name is a contiguous piece of the input with no white space at either end, empty exactly when the input is white space only |
| Text.TrimIdempotent | src/components/ProfileSelector.tsx:30-31 | trimming twice is trimming once |
| Records.Incremented | src/hooks/useBolterSystem.ts:37-40 | exactly the named upgrade level rises by one, the others stay |
| EnhancedUpgradeScreen.MappingBijective | src/components/EnhancedUpgradeScreen.tsx:35-41 | the field-to-key mapping is a bijection: each field has its own cost-table key and back |
| EnhancedUpgradeScreen.UpgradeCostAgrees | src/components/EnhancedUpgradeScreen.tsx:43-46 | the screen's own cost rule agrees with the game's `getUpgradeCost` on the mapped key, so it is positive and strictly increasing in the level |
| EnhancedUpgradeScreen.CanAffordFacts | src/components/EnhancedUpgradeScreen.tsx:115 | the button test agrees with the game's `canAffordUpgrade`; more gold never disables a button, a higher level never enables one, and nothing is affordable without gold |
| EnhancedUpgradeScreen.Pad2 | src/components/EnhancedUpgradeScreen.tsx:74 | the two digits after the point read back as the number below 100 |
| EnhancedUpgradeScreen.Fixed2ReadsBack | src/components/EnhancedUpgradeScreen.tsx:74 | a two-decimal rendering has digits, a point and two more digits, and reads back as its number of hundredths |
| EnhancedUpgradeScreen.LabelParts | src/components/EnhancedUpgradeScreen.tsx:65-80 | a label splits back into its sign, its number and its unit |
| EnhancedUpgradeScreen.ValueLabelRoundTrip | src/components/EnhancedUpgradeScreen.tsx:65-80 | every current-value label reads back as the level times the field's step (10 damage, 5 % speed, 20 HP, 0.05 s of cooldown, 20 % gold) |
| EnhancedUpgradeScreen.ValueLabelUnit | src/components/EnhancedUpgradeScreen.tsx:65-80 | every label starts with its field's sign (`-` for the fire rate only) and ends with its field's unit |
| EnhancedUpgradeScreen.NextValueFacts | src/components/EnhancedUpgradeScreen.tsx:82-84 | the next-level label reads exactly one step more than the current one, so a card's two labels always differ |
| EnhancedUpgradeScreen.CardFacts | src/components/EnhancedUpgradeScreen.tsx:112-118 | a card shows its field's level and the game's cost of that level, with the button enabled exactly when the gold covers the cost |
| EnhancedUpgradeScreen.CardsInOrder | src/components/EnhancedUpgradeScreen.tsx:112 | there are five cards, one per field, in declaration order |
| EnhancedUpgradeScreen.CardOrderCoversFields | src/components/EnhancedUpgradeScreen.tsx:19-25 | the declaration order lists every field exactly once |
| EnhancedUpgradeScreen.PurchaseRaisesPrice | src/components/EnhancedUpgradeScreen.tsx:113-115 | buying a field raises the price on its card and leaves every other card unchanged |
| UpgradeScreen.AsWrittenButtonsDisabled | src/components/UpgradeScreen.tsx:46-49 | as written, no upper-case key is found in the lower-case record, so every level is `undefined`, every price `NaN`, and no button is ever enabled |
| UpgradeScreen.AsWrittenDamageRow | src/components/UpgradeScreen.tsx:46-75 | as written, the damage row stays disabled with 100000 gold and no upgrades, although `canAffordUpgrade` accepts that level |
| UpgradeScreen.LevelOf | src/components/UpgradeScreen.tsx:47 | the corrected lookup reads the level of exactly the field the key names |
| UpgradeScreen.LevelOfFound | src/components/UpgradeScreen.tsx:47 | the corrected lookup always finds a level stored in the record |
| UpgradeScreen.ValueLabelsAgree | src/components/UpgradeScreen.tsx:103-118 | each label equals the enhanced screen's label of the mapped field, so it reads back as the level times the field's step |
| UpgradeScreen.RowsFacts | src/components/UpgradeScreen.tsx:46-49 | exactly the five keys are listed in order, each at its field's level, priced by `getUpgradeCost` and enabled exactly when the gold covers that price |
| UpgradeScreen.RowAfterPurchase | src/components/UpgradeScreen.tsx:47-75 | more gold never disables a row; buying its field raises its level by one and its price, and disables it when the gold only just covered the old price |

## Left out

- The `requestAnimationFrame` driver of `useGameLoop` is not modelled. `GameLoop.Ticks` and the per-frame delta time given to `Step` stand for it.
- Background music and its toggle in `src/components/Game.tsx` are not modelled, nor is the damage sound in `useGameLoop`. They are audio I/O.
- `EnhancedUpgradeScreen` is handed `bolterData` and `currentSessionGold` by `Game.tsx` (src/components/Game.tsx:304-309), but it destructures a `profile` prop (src/components/EnhancedUpgradeScreen.tsx:12) that is never passed. As written, the screen's first render reads `profile.name` (line 102) of `undefined` and throws, so the upgrade screen crashes. As a result, the UI never reaches `handleUpgrade` (GameScreen.Screen.HandleUpgrade). The model does not model the crash. It gives the screen's helpers the gold and levels as explicit parameters, as if the intended record were passed.
- The diagonal factor 0.707 of the player's movement is kept as the constant the source uses. The model does not relate it to 1/√2.
- `localStorage` and the JSON round trip of the bolter and profile stores are not modelled. A store's record is its state cell, and loading is the record it starts with.
- React's batching and commit scheduling are not modelled. Renders are explicit `Render` calls, and effects run on the values a caller supplies. The save effect's commit ordering is modelled only by the run of commits in `AfterCommits`.
- The profile store's callbacks read the latest values, not the render's. Each of its operations writes each cell at most once, and no modelled handler calls two of them.
- Canvas drawing, the UI, death and pause overlays, icons, colours as displayed, and skill descriptions beyond the tooltip text are not modelled: they are rendering only.
- The class-ability stubs in `src/utils/classAbilities.ts` (imported by `src/utils/gameLogic.ts`) are not modelled. `useClassAbility` always returns `null` and `regenerateMana` returns its player unchanged, so neither changes any state.
- The boss and mega-bolt timers, and the fireball and source-enemy projectile fields, are carried along or left out. No code of the game sets them.
- The magnet bonus of the pickup radius is always 0 in the source, and the model uses 0.
- `autoRejectTime` of `SkillDropNotification` is never read by the source, so it is not a parameter of the model.
- The profile list's other handlers (selecting and deleting) and the `BolterMenu` screen are not modelled beyond `formatTime`. They only forward callbacks.
- Numbers are exact reals, not IEEE doubles: rounding of sums and products is not modelled. `toFixed(2)` is rendered from a whole number of hundredths, which is exact for every value the labels show.
- `toLowerCase` on key names is modelled for ASCII letters only.
- String ids (`enemy_${Date.now()}_${Math.random()}`) are modelled as fresh naturals, not as their text.
- Aliasing is not modelled: the source shares a projectile's `piercedEnemies` set between the previous state and the new one and adds to it in place. The model keeps the set as a value inside the new projectile.
- GameLogic.CreateInitialPlayer: `src/utils/gameLogic.ts` imports two names that are not exported. It imports and calls `calculateFinalStats` (lines 5 and 139), which `src/utils/skillSystem.ts` does not export. It also imports `HEAVY_TANK_SPAWN_CHANCE` (line 2), which `src/utils/constants.ts` does not export and nothing reads. As written, the module does not link, so no game can start. The model reads the call as `applySkillEffects`, which returns a player with no skills unchanged, so the result is the base player.
- GameLoop.Step: requires a positive screen scale and difficulty multiplier, which the source divides by. Every state reached from `createInitialGameState` has both, and JavaScript would give `Infinity` for a zero divisor instead of failing.
- GameLoop.Ticks: the drift bound on the skill re-application is stated for a non-negative summed fire-rate effect only. Every fire-rate effect in the catalogue is positive.
- Collision: the distance lemmas hold under `ValidMaths` only, which requires `sqrt` to be the exact non-negative square root.

## Findings

| source | as written | input that shows it | evidently intended | confidence | as-written member | corrected member |
|---|---|---|---|---|---|---|
| src/components/UpgradeScreen.tsx:46-49 | each row reads its level as `upgrades[type]` with the upper-case cost-table key, which the lower-case record does not have, so the level is `undefined`, the price `NaN` and the button disabled | 100000 gold, no upgrades, the DAMAGE row: the button stays disabled | the row reads the field its key names and is enabled when the gold covers the price | not executed (the screen is not rendered by `Game.tsx`) | UpgradeScreen.AsWrittenButtonsDisabled | UpgradeScreen.RowsFacts |
| src/components/Game.tsx:94-114 | `handleRestart` saves the run, which clears the session, and then calls `startGameSession` from the same render, which still sees the open session and opens none | restart from the pause screen during a run with an open session; the next run then dies with 25 gold and 3 kills, and its save finds no session, so the totals keep only the first run | the restart opens a session for the new run | not executed | GameScreen.PauseRestartDropsNextRun | GameScreen.Screen.HandleRestartCorrected |
| src/components/Game.tsx:129-140 | when the run's gold is short, `handleUpgrade` calls `updateBolterData` with the stored gold after `purchaseUpgrade`, and both spread the render's record, so the second write drops the raised level | no run gold, 100 stored gold, buy the first damage level for 100: the purchase is accepted and the 100 is charged, but the damage level stays 0 | the level rises and the stored gold pays the remainder | not executed (the upgrade screen that calls it crashes first; see "Left out") | GameScreen.StoredGoldPurchaseLosesLevel | GameScreen.Screen.HandleUpgradeCorrected |
| src/components/Game.tsx:229-243 | the unmount cleanup lists score, gold and kills as dependencies, so React runs it on every change of them: with gold above zero, it saves the run and clears the session mid-run | a run that picks up 10 gold, kills another enemy, picks up 15 more and dies: only 10 gold reaches the stored total | the run is saved once, at death or unmount, with its final gold and kills | not executed | GameScreen.EarlySaveKeepsFirstGold | GameScreen.UnmountOnlySavesFinalRun |
