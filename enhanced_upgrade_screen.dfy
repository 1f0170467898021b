/** The helpers of src/components/EnhancedUpgradeScreen.tsx: the mapping from upgrade fields
    to cost-table keys, the screen's own copy of the cost rule, the affordability test, and
    the value labels of each card. The gold and the levels the screen reads are parameters. */
module EnhancedUpgradeScreen {

  import opened Wrappers
  import Text
  import C = Constants
  import opened Records
  import GameLogic

  /** `upgradeTypeMapping`: each field to its cost-table key. */
  function TypeFor(f: UpgradeField): C.UpgradeType
  {
    match f
    case Damage => C.Damage
    case Speed => C.Speed
    case Health => C.Health
    case FireRate => C.FireRate
    case GoldBonus => C.GoldBonus
  }

  /** The field a cost-table key belongs to. */
  function FieldFor(t: C.UpgradeType): UpgradeField
  {
    match t
    case Damage => Damage
    case Speed => Speed
    case Health => Health
    case FireRate => FireRate
    case GoldBonus => GoldBonus
  }

  /** The mapping is a bijection: the two directions undo each other. */
  lemma MappingBijective(f: UpgradeField, t: C.UpgradeType)
    ensures FieldFor(TypeFor(f)) == f
    ensures TypeFor(FieldFor(t)) == t
    ensures TypeFor(f) == t <==> FieldFor(t) == f
  {
  }

  /** The screen's local `getUpgradeCost`. */
  function UpgradeCost(f: UpgradeField, level: nat): int
  {
    var costs := C.UpgradeCosts(TypeFor(f));
    if level < |costs| then costs[level] else costs[|costs| - 1] * GameLogic.Pow2(level - |costs| + 1)
  }

  /** The local cost agrees with the game's `getUpgradeCost` on the mapped key, so it is
      positive and strictly increasing in the level. */
  lemma UpgradeCostAgrees(f: UpgradeField, a: nat, b: nat)
    ensures UpgradeCost(f, a) == GameLogic.GetUpgradeCost(TypeFor(f), a)
    ensures UpgradeCost(f, a) > 0
    ensures a < b ==> UpgradeCost(f, a) < UpgradeCost(f, b)
  {
    GameLogic.UpgradeCostDoubles(TypeFor(f), a);
    if a < b {
      GameLogic.UpgradeCostIncreasing(TypeFor(f), a, b);
    }
  }

  /** `canAfford`: the stored gold covers the cost. */
  function CanAfford(totalGold: real, f: UpgradeField, level: nat): bool
  {
    totalGold >= UpgradeCost(f, level) as real
  }

  /** The button test agrees with the game's `canAffordUpgrade`; more gold never disables a
      button, a higher level never enables one, and nothing is affordable without gold. */
  lemma CanAffordFacts(gold: real, more: real, f: UpgradeField, a: nat, b: nat)
    ensures CanAfford(gold, f, a) <==> GameLogic.CanAffordUpgrade(gold, TypeFor(f), a)
    ensures gold <= more && CanAfford(gold, f, a) ==> CanAfford(more, f, a)
    ensures a <= b && CanAfford(gold, f, b) ==> CanAfford(gold, f, a)
    ensures !CanAfford(0.0, f, a)
  {
    UpgradeCostAgrees(f, a, b);
  }

  // ---------------------------------------------------------------------------------------
  // Value labels

  /** Two decimal digits, with a leading zero below ten. */
  function Pad2(n: nat): (s: string)
    requires n < 100
    ensures |s| == 2 && Text.IsDigit(s[0]) && Text.IsDigit(s[1])
    ensures Text.DigitsValue(s) == n
  {
    var s := [Text.DigitChar(n / 10), Text.DigitChar(n % 10)];
    assert s[..1] == [s[0]] && [s[0]][..0] == [];
    assert Text.DigitsValue(s[..1]) == n / 10;
    s
  }

  /** `(h / 100).toFixed(2)` for a whole number `h` of hundredths. */
  function Fixed2(hundredths: nat): string
  {
    Text.NatToString(hundredths / 100) + "." + Pad2(hundredths % 100)
  }

  /** A two-decimal rendering reads back: the digits before the point and the two after it
      make up the number of hundredths. */
  lemma Fixed2ReadsBack(h: nat)
    ensures var s := Fixed2(h);
      && |s| >= 4 && s[|s| - 3] == '.'
      && (forall i :: 0 <= i < |s| && i != |s| - 3 ==> Text.IsDigit(s[i]))
      && 100 * Text.DigitsValue(s[..|s| - 3]) + Text.DigitsValue(s[|s| - 2..]) == h
  {
    var whole := Text.NatToString(h / 100);
    var s := Fixed2(h);
    assert s[..|s| - 3] == whole;
    assert s[|s| - 2..] == Pad2(h % 100);
    Text.NatToStringRoundTrip(h / 100);
  }

  /** The sign each label starts with. */
  function Sign(f: UpgradeField): char
  {
    if f == FireRate then '-' else '+'
  }

  /** The unit each label ends with. */
  function Suffix(f: UpgradeField): string
  {
    match f
    case Damage => ""
    case Speed => "%"
    case Health => " HP"
    case FireRate => "s"
    case GoldBonus => "%"
  }

  /** What one level adds to the label's number: damage points, percent, hit points,
      hundredths of a second, percent. */
  function Step(f: UpgradeField): nat
  {
    match f
    case Damage => 10
    case Speed => 5
    case Health => 20
    case FireRate => 5
    case GoldBonus => 20
  }

  /** A label: the sign, the number and the unit. */
  function Label(sign: char, number: string, suffix: string): string
  {
    [sign] + number + suffix
  }

  /** `getCurrentUpgradeValue`. */
  function CurrentUpgradeValue(f: UpgradeField, level: nat): string
  {
    match f
    case Damage => Label('+', Text.NatToString(level * 10), "")
    case Speed => Label('+', Text.NatToString(level * 5), "%")
    case Health => Label('+', Text.NatToString(level * 20), " HP")
    case FireRate => Label('-', Fixed2(level * 5), "s")
    case GoldBonus => Label('+', Text.NatToString(level * 20), "%")
  }

  /** `getNextUpgradeValue`. */
  function NextUpgradeValue(f: UpgradeField, level: nat): string
  {
    CurrentUpgradeValue(f, level + 1)
  }

  predicate AllDigits(s: string)
  {
    forall i :: 0 <= i < |s| ==> Text.IsDigit(s[i])
  }

  /** Reads the number back from a label of the field, in the field's step unit (hundredths
      of a second for the fire rate), or none when the text has another shape. */
  function ReadAmount(shown: string, f: UpgradeField): Option<nat>
  {
    if |shown| < 1 + |Suffix(f)| || shown[0] != Sign(f) then None
    else
      var b := shown[1..|shown| - |Suffix(f)|];
      if f != FireRate then
        if AllDigits(b) then Some(Text.DigitsValue(b)) else None
      else if |b| >= 4 && b[|b| - 3] == '.' && AllDigits(b[..|b| - 3]) && AllDigits(b[|b| - 2..]) then
        Some(100 * Text.DigitsValue(b[..|b| - 3]) + Text.DigitsValue(b[|b| - 2..]))
      else None
  }

  /** Taking a label apart gives back its sign, number and unit. */
  lemma LabelParts(sign: char, number: string, suffix: string)
    ensures var s := Label(sign, number, suffix);
      && |s| == 1 + |number| + |suffix| && s[0] == sign
      && s[1..|s| - |suffix|] == number && s[|s| - |suffix|..] == suffix
  {
    var s := Label(sign, number, suffix);
    assert s[1..|s| - |suffix|] == number;
  }

  /** A label of whole digits reads back as their value. */
  lemma ReadWhole(f: UpgradeField, number: string)
    requires f != FireRate && AllDigits(number)
    ensures ReadAmount(Label(Sign(f), number, Suffix(f)), f) == Some(Text.DigitsValue(number))
  {
    LabelParts(Sign(f), number, Suffix(f));
  }

  /** A fire-rate label reads back as its number of hundredths. */
  lemma ReadHundredths(h: nat)
    ensures ReadAmount(Label('-', Fixed2(h), "s"), FireRate) == Some(h)
  {
    LabelParts('-', Fixed2(h), "s");
    Fixed2ReadsBack(h);
    var b := Fixed2(h);
    assert AllDigits(b[..|b| - 3]) && AllDigits(b[|b| - 2..]);
  }

  /** Every label reads back as the level times the field's step. */
  lemma ValueLabelRoundTrip(f: UpgradeField, level: nat)
    ensures ReadAmount(CurrentUpgradeValue(f, level), f) == Some(Step(f) * level)
  {
    var n := Step(f) * level;
    if f == FireRate {
      assert CurrentUpgradeValue(f, level) == Label('-', Fixed2(n), "s");
      ReadHundredths(n);
    } else {
      assert CurrentUpgradeValue(f, level) == Label(Sign(f), Text.NatToString(n), Suffix(f));
      ReadWhole(f, Text.NatToString(n));
      Text.NatToStringRoundTrip(n);
    }
  }

  /** Every label ends with its field's unit. */
  lemma ValueLabelUnit(f: UpgradeField, level: nat)
    ensures var s := CurrentUpgradeValue(f, level);
      |s| > |Suffix(f)| && s[0] == Sign(f) && s[|s| - |Suffix(f)|..] == Suffix(f)
  {
    var n := Step(f) * level;
    LabelParts(Sign(f), if f == FireRate then Fixed2(n) else Text.NatToString(n), Suffix(f));
  }

  lemma NextStep(k: nat, level: nat)
    requires k > 0
    ensures k * (level + 1) == k * level + k
    ensures k * (level + 1) != k * level
  {
  }

  /** The next-level label reads one step more than the current one, so the two labels of a
      card always differ. */
  lemma NextValueFacts(f: UpgradeField, level: nat)
    ensures ReadAmount(NextUpgradeValue(f, level), f) == Some(Step(f) * level + Step(f))
    ensures NextUpgradeValue(f, level) != CurrentUpgradeValue(f, level)
  {
    NextReading(f, level);
    ValueLabelRoundTrip(f, level);
    DifferentReadings(NextUpgradeValue(f, level), CurrentUpgradeValue(f, level), f,
                      Step(f) * level + Step(f), Step(f) * level);
  }

  lemma NextReading(f: UpgradeField, level: nat)
    ensures ReadAmount(NextUpgradeValue(f, level), f) == Some(Step(f) * level + Step(f))
  {
    ValueLabelRoundTrip(f, level + 1);
    NextStep(Step(f), level);
  }

  /** Labels that read differently are different. */
  lemma DifferentReadings(a: string, b: string, f: UpgradeField, x: nat, y: nat)
    requires ReadAmount(a, f) == Some(x) && ReadAmount(b, f) == Some(y) && x != y
    ensures a != b
  {
  }

  // ---------------------------------------------------------------------------------------
  // Cards

  /** What one card shows and whether its button is enabled. */
  datatype UpgradeCard = UpgradeCard(field: UpgradeField, level: nat, cost: int, canAfford: bool,
                                     current: string, next: string)

  /** `Object.keys(upgradeDisplayNames)`. */
  const CardOrder: seq<UpgradeField> := [Damage, Speed, Health, FireRate, GoldBonus]

  function Card(totalGold: real, upgrades: PermanentUpgrades, f: UpgradeField): UpgradeCard
  {
    var level := Level(upgrades, f);
    UpgradeCard(f, level, UpgradeCost(f, level), CanAfford(totalGold, f, level),
                CurrentUpgradeValue(f, level), NextUpgradeValue(f, level))
  }

  /** The cards, one per field in declaration order. */
  function Cards(totalGold: real, upgrades: PermanentUpgrades): seq<UpgradeCard>
  {
    seq(|CardOrder|, i requires 0 <= i < |CardOrder| => Card(totalGold, upgrades, CardOrder[i]))
  }

  /** A card shows its field's level and the cost of the next level, with the button enabled
      exactly when the gold covers that cost. */
  lemma CardFacts(totalGold: real, upgrades: PermanentUpgrades, f: UpgradeField)
    ensures var c := Card(totalGold, upgrades, f);
      && c.field == f && c.level == Level(upgrades, f)
      && c.cost == GameLogic.GetUpgradeCost(TypeFor(f), c.level)
      && (c.canAfford <==> totalGold >= c.cost as real)
      && c.next == CurrentUpgradeValue(f, c.level + 1)
  {
    UpgradeCostAgrees(f, Level(upgrades, f), 0);
  }

  /** There is one card per field, in declaration order. */
  lemma CardsInOrder(totalGold: real, upgrades: PermanentUpgrades)
    ensures var cards := Cards(totalGold, upgrades);
      && |cards| == 5
      && forall i :: 0 <= i < 5 ==> cards[i] == Card(totalGold, upgrades, CardOrder[i])
  {
  }

  /** The declaration order lists every field, and none twice. */
  lemma CardOrderCoversFields(f: UpgradeField)
    ensures |CardOrder| == 5
    ensures exists i :: 0 <= i < 5 && CardOrder[i] == f
    ensures forall i, j :: 0 <= i < j < 5 ==> CardOrder[i] != CardOrder[j]
  {
    match f
    case Damage => assert CardOrder[0] == f;
    case Speed => assert CardOrder[1] == f;
    case Health => assert CardOrder[2] == f;
    case FireRate => assert CardOrder[3] == f;
    case GoldBonus => assert CardOrder[4] == f;
  }

  /** Buying a field raises the price on its card and leaves every other card as it was. */
  lemma PurchaseRaisesPrice(totalGold: real, upgrades: PermanentUpgrades, f: UpgradeField,
                            g: UpgradeField)
    ensures Card(totalGold, Incremented(upgrades, f), f).cost > Card(totalGold, upgrades, f).cost
    ensures g != f ==> Card(totalGold, Incremented(upgrades, f), g) == Card(totalGold, upgrades, g)
  {
    UpgradeCostAgrees(f, Level(upgrades, f), Level(upgrades, f) + 1);
  }
}
