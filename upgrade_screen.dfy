/** The upgrade list of src/components/UpgradeScreen.tsx: one row per cost-table key, priced
    by `getUpgradeCost` and enabled by `canAffordUpgrade`, with a value label per key.

    As written, a row reads its level as `upgrades[type]` with the upper-case key
    (`'DAMAGE'`, ...), but the record's keys are the lower-case field names, so the level is
    `undefined`, the price is `NaN` and every button is disabled. `LevelAsWritten`,
    `CostAsWritten` and `EnabledAsWritten` model that chain; the rows themselves use
    `LevelOf`, which reads the field the key names. */
module UpgradeScreen {

  import opened Wrappers
  import C = Constants
  import opened Records
  import GameLogic
  import Text
  import E = EnhancedUpgradeScreen

  // ---------------------------------------------------------------------------------------
  // The level lookup as written

  /** The record `upgrades` as a JavaScript object: its own keys and their values. */
  function RecordEntries(u: PermanentUpgrades): map<string, nat>
  {
    map["damage" := u.damage, "speed" := u.speed, "health" := u.health,
        "fireRate" := u.fireRate, "goldBonus" := u.goldBonus]
  }

  /** The key strings of `UPGRADE_TYPE_NAMES`. */
  function TypeName(t: C.UpgradeType): string
  {
    match t
    case Damage => "DAMAGE"
    case Speed => "SPEED"
    case Health => "HEALTH"
    case FireRate => "FIRE_RATE"
    case GoldBonus => "GOLD_BONUS"
  }

  /** `upgrades[type]`: none stands for `undefined`. */
  function LevelAsWritten(u: PermanentUpgrades, t: C.UpgradeType): Option<nat>
  {
    var entries := RecordEntries(u);
    if TypeName(t) in entries then Some(entries[TypeName(t)]) else None
  }

  /** `getUpgradeCost(type, level)` on a level that may be `undefined`: `undefined < 8` is
      false and `Math.pow(2, undefined - 8 + 1)` is `NaN`, so the price is `NaN` (none). */
  function CostAsWritten(t: C.UpgradeType, level: Option<nat>): Option<int>
  {
    match level
    case Some(l) => Some(GameLogic.GetUpgradeCost(t, l))
    case None => None
  }

  /** `gold >= cost`, false whenever the cost is `NaN`. */
  function EnabledAsWritten(gold: real, cost: Option<int>): bool
  {
    cost.Some? && gold >= cost.value as real
  }

  /** As written, no key is found in the record, so every price is `NaN` and no button is ever
      enabled, however much gold there is. */
  lemma AsWrittenButtonsDisabled(u: PermanentUpgrades, gold: real, t: C.UpgradeType)
    ensures LevelAsWritten(u, t) == None
    ensures CostAsWritten(t, LevelAsWritten(u, t)) == None
    ensures !EnabledAsWritten(gold, CostAsWritten(t, LevelAsWritten(u, t)))
  {
    assert RecordEntries(u).Keys == {"damage", "speed", "health", "fireRate", "goldBonus"};
    match t
    case Damage => assert TypeName(t)[0] == 'D';
    case Speed => assert TypeName(t)[0] == 'S';
    case Health => assert TypeName(t)[0] == 'H';
    case FireRate => assert TypeName(t)[0] == 'F';
    case GoldBonus => assert TypeName(t)[0] == 'G';
  }

  /** A concrete case: with a hundred thousand gold and no upgrades, the damage row is still
      disabled, although `canAffordUpgrade` accepts that level. */
  lemma AsWrittenDamageRow()
    ensures !EnabledAsWritten(100000.0, CostAsWritten(C.Damage, LevelAsWritten(NoUpgrades, C.Damage)))
    ensures GameLogic.CanAffordUpgrade(100000.0, C.Damage, 0)
  {
    AsWrittenButtonsDisabled(NoUpgrades, 100000.0, C.Damage);
  }

  // ---------------------------------------------------------------------------------------
  // The corrected lookup and the rows

  /** The level of the field a key names. */
  function LevelOf(u: PermanentUpgrades, t: C.UpgradeType): (r: nat)
    ensures r == Level(u, E.FieldFor(t))
  {
    match t
    case Damage => u.damage
    case Speed => u.speed
    case Health => u.health
    case FireRate => u.fireRate
    case GoldBonus => u.goldBonus
  }

  /** The corrected lookup finds every key's level in the record, under the field the
      key is mapped to. */
  lemma LevelOfFound(u: PermanentUpgrades, t: C.UpgradeType)
    ensures var entries := RecordEntries(u);
      exists k :: k in entries && entries[k] == LevelOf(u, t)
  {
    var entries := RecordEntries(u);
    match t
    case Damage => assert "damage" in entries;
    case Speed => assert "speed" in entries;
    case Health => assert "health" in entries;
    case FireRate => assert "fireRate" in entries;
    case GoldBonus => assert "goldBonus" in entries;
  }

  /** `getCurrentUpgradeValue`. */
  function CurrentUpgradeValue(t: C.UpgradeType, level: nat): string
  {
    match t
    case Damage => "+" + Text.NatToString(level * 10)
    case Speed => "+" + Text.NatToString(level * 5) + "%"
    case Health => "+" + Text.NatToString(level * 20) + " HP"
    case FireRate => "-" + E.Fixed2(level * 5) + "s"
    case GoldBonus => "+" + Text.NatToString(level * 20) + "%"
  }

  /** The labels are the enhanced screen's labels of the mapped field, so each one reads back
      as the level times the field's step. */
  lemma ValueLabelsAgree(t: C.UpgradeType, level: nat)
    ensures CurrentUpgradeValue(t, level) == E.CurrentUpgradeValue(E.FieldFor(t), level)
    ensures E.ReadAmount(CurrentUpgradeValue(t, level), E.FieldFor(t))
            == Some(E.Step(E.FieldFor(t)) * level)
  {
    E.ValueLabelRoundTrip(E.FieldFor(t), level);
  }

  /** What one row shows and whether its button is enabled. */
  datatype UpgradeRow = UpgradeRow(kind: C.UpgradeType, level: nat, cost: int, enabled: bool,
                                   current: string)

  function Row(gold: real, u: PermanentUpgrades, t: C.UpgradeType): UpgradeRow
  {
    var level := LevelOf(u, t);
    var cost := GameLogic.GetUpgradeCost(t, level);
    UpgradeRow(t, level, cost, GameLogic.CanAffordUpgrade(gold, t, level), CurrentUpgradeValue(t, level))
  }

  /** `UPGRADE_TYPE_NAMES.map(...)`. */
  function Rows(gold: real, u: PermanentUpgrades): seq<UpgradeRow>
  {
    seq(|C.UpgradeTypeNames|, i requires 0 <= i < |C.UpgradeTypeNames| => Row(gold, u, C.UpgradeTypeNames[i]))
  }

  /** Exactly the five keys are listed, in order, each priced by `getUpgradeCost` at its
      level and enabled exactly when the gold covers that price. */
  lemma RowsFacts(gold: real, u: PermanentUpgrades)
    ensures var rows := Rows(gold, u);
      && |rows| == 5
      && (forall i :: 0 <= i < 5 ==> rows[i].kind == C.UpgradeTypeNames[i])
      && (forall i :: 0 <= i < 5 ==> rows[i].level == Level(u, E.FieldFor(rows[i].kind)))
      && (forall i :: 0 <= i < 5 ==> rows[i].cost == GameLogic.GetUpgradeCost(rows[i].kind, rows[i].level))
      && (forall i :: 0 <= i < 5 ==> (rows[i].enabled <==> gold >= rows[i].cost as real))
  {
  }

  /** A row enabled with some gold stays enabled with more; buying its field raises its price
      and disables it when the gold only covered the old one exactly. */
  lemma RowAfterPurchase(gold: real, more: real, u: PermanentUpgrades, t: C.UpgradeType)
    ensures gold <= more && Row(gold, u, t).enabled ==> Row(more, u, t).enabled
    ensures var after := Row(gold, Incremented(u, E.FieldFor(t)), t);
      after.level == Row(gold, u, t).level + 1 && after.cost > Row(gold, u, t).cost
    ensures gold == Row(gold, u, t).cost as real ==>
      !Row(gold, Incremented(u, E.FieldFor(t)), t).enabled
  {
    GameLogic.UpgradeCostDoubles(t, LevelOf(u, t));
  }
}
