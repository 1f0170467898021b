/** The session handlers of src/components/Game.tsx: taking, refusing and removing skills
    with a five-slot, oldest-out inventory; paying for an upgrade from the run's gold first
    and the stored gold for the rest; the status buttons; and saving the run's statistics
    once when the player dies. The screen's state cells are fields; the bolter store's
    callbacks read the values of the last render. */
module GameScreen {

  import opened Wrappers
  import opened Numbers
  import Records
  import Classes
  import Entities
  import GameLogic
  import BolterSystem

  type PassiveSkill = Classes.PassiveSkill

  /** The most skills a player can carry. */
  const MaxEquipped: nat := 5

  // ---------------------------------------------------------------------------------------
  // Skills

  /** `findIndex(s => s.name === name)`: the first skill of that name, or -1. */
  function IndexOfName(skills: seq<PassiveSkill>, name: string): (r: int)
    ensures -1 <= r < |skills|
    ensures r >= 0 ==> skills[r].name == name
    ensures forall k :: 0 <= k < |skills| && (r < 0 || k < r) ==> skills[k].name != name
  {
    if |skills| == 0 then -1
    else if skills[0].name == name then 0
    else
      var r := IndexOfName(skills[1..], name);
      assert forall k :: 1 <= k < |skills| ==> skills[k] == skills[1..][k - 1];
      if r < 0 then -1 else r + 1
  }

  /** The scan itself. */
  method FindIndexByName(skills: seq<PassiveSkill>, name: string) returns (i: int)
    ensures i == IndexOfName(skills, name)
  {
    i := 0;
    while i < |skills| && skills[i].name != name
      invariant 0 <= i <= |skills|
      invariant forall k :: 0 <= k < i ==> skills[k].name != name
    {
      i := i + 1;
    }
    if i == |skills| {
      i := -1;
    }
  }

  /** One level more, up to the skill's maximum. */
  function Levelled(s: PassiveSkill): PassiveSkill
  {
    s.(currentLevel := MinInt(s.maxLevel, s.currentLevel + 1))
  }

  /** The inventory after taking `offered`: an equipped skill of the same name goes up a
      level and the offered one is dropped; otherwise the new one is appended, pushing out the
      oldest when five are carried already. */
  function AcceptedSkills(skills: seq<PassiveSkill>, offered: PassiveSkill): seq<PassiveSkill>
  {
    var i := IndexOfName(skills, offered.name);
    if i >= 0 then skills[i := Levelled(skills[i])]
    else if |skills| < MaxEquipped then skills + [offered]
    else skills[1..] + [offered]
  }

  function WithSkills(state: Entities.GameState, skills: seq<PassiveSkill>): Entities.GameState
  {
    state.(player := state.player.(classState := state.player.classState.(equippedSkills := skills)))
  }

  /** `handleAcceptSkill`: nothing without an offer; otherwise the offer is taken and cleared. */
  function AcceptSkill(state: Entities.GameState): Entities.GameState
  {
    match state.pendingSkillDrop
    case None => state
    case Some(offered) =>
      WithSkills(state, AcceptedSkills(state.player.classState.equippedSkills, offered))
        .(pendingSkillDrop := None)
  }

  /** The handler as written: a copy of the list, the name scan, then an in-place level-up, a
      push, or a shift and a push. */
  method HandleAcceptSkill(state: Entities.GameState) returns (r: Entities.GameState)
    ensures r == AcceptSkill(state)
  {
    if state.pendingSkillDrop.None? {
      return state;
    }
    var offered := state.pendingSkillDrop.value;
    var newSkills := state.player.classState.equippedSkills;
    var existing := FindIndexByName(newSkills, offered.name);
    if existing >= 0 {
      newSkills := newSkills[existing := Levelled(newSkills[existing])];
    } else if |newSkills| < MaxEquipped {
      newSkills := newSkills + [offered];
    } else {
      newSkills := newSkills[1..];
      newSkills := newSkills + [offered];
    }
    r := WithSkills(state, newSkills).(pendingSkillDrop := None);
  }

  /** `handleRejectSkill`. */
  function RejectSkill(state: Entities.GameState): Entities.GameState
  {
    state.(pendingSkillDrop := None)
  }

  /** `equippedSkills.filter(s => s.id !== skillId)`. */
  function WithoutSkill(skills: seq<PassiveSkill>, id: nat): (r: seq<PassiveSkill>)
    ensures |r| <= |skills|
    ensures forall s :: s in r <==> s in skills && s.id != id
  {
    if |skills| == 0 then []
    else
      var rest := WithoutSkill(skills[1..], id);
      assert forall s :: s in skills <==> s == skills[0] || s in skills[1..];
      if skills[0].id != id then [skills[0]] + rest else rest
  }

  /** `handleRemoveSkill`. */
  function RemoveSkill(state: Entities.GameState, id: nat): Entities.GameState
  {
    WithSkills(state, WithoutSkill(state.player.classState.equippedSkills, id))
  }

  predicate DistinctNames(skills: seq<PassiveSkill>)
  {
    forall a, b :: 0 <= a < b < |skills| ==> skills[a].name != skills[b].name
  }

  /** Taking a skill whose name is equipped raises that one's level to at most its maximum and
      keeps the list's length and every other entry; the offered instance is not kept. */
  lemma AcceptLevelsUpExisting(skills: seq<PassiveSkill>, offered: PassiveSkill)
    requires IndexOfName(skills, offered.name) >= 0
    ensures var i := IndexOfName(skills, offered.name); var r := AcceptedSkills(skills, offered);
      && |r| == |skills|
      && r[i].currentLevel == MinInt(skills[i].maxLevel, skills[i].currentLevel + 1)
      && r[i] == skills[i].(currentLevel := r[i].currentLevel)
      && (forall k :: 0 <= k < |skills| && k != i ==> r[k] == skills[k])
  {
  }

  /** Taking a skill of a new name appends it; with five or more equipped the oldest goes
      first. The offered skill is then the last one and the count never passes five. */
  lemma AcceptAppendsNew(skills: seq<PassiveSkill>, offered: PassiveSkill)
    requires IndexOfName(skills, offered.name) < 0
    ensures var r := AcceptedSkills(skills, offered);
      && (|skills| < MaxEquipped ==> r == skills + [offered])
      && (|skills| >= MaxEquipped ==> r == skills[1..] + [offered])
      && r[|r| - 1] == offered
      && (|skills| <= MaxEquipped ==> |r| <= MaxEquipped)
  {
  }

  /** Taking a skill keeps names distinct, keeps the list within five, and leaves a skill of
      the offered name equipped. */
  lemma AcceptKeepsInventory(skills: seq<PassiveSkill>, offered: PassiveSkill)
    requires DistinctNames(skills) && |skills| <= MaxEquipped
    ensures var r := AcceptedSkills(skills, offered);
      && DistinctNames(r) && |r| <= MaxEquipped
      && IndexOfName(r, offered.name) >= 0
  {
    var r := AcceptedSkills(skills, offered);
    var i := IndexOfName(skills, offered.name);
    if i >= 0 {
      assert forall k :: 0 <= k < |r| ==> r[k].name == skills[k].name;
      assert r[i].name == offered.name;
    } else if |skills| < MaxEquipped {
      assert forall k :: 0 <= k < |skills| ==> r[k] == skills[k];
      assert r[|r| - 1].name == offered.name;
    } else {
      assert forall k :: 0 <= k < |skills| - 1 ==> r[k] == skills[k + 1];
      assert r[|r| - 1].name == offered.name;
    }
  }

  /** After taking or refusing, no offer is pending; without an offer, taking changes nothing;
      refusing never touches the inventory. */
  lemma AcceptRejectClearOffer(state: Entities.GameState)
    ensures AcceptSkill(state).pendingSkillDrop == None
    ensures RejectSkill(state).pendingSkillDrop == None
    ensures state.pendingSkillDrop.None? ==> AcceptSkill(state) == state
    ensures RejectSkill(state).player == state.player
  {
  }

  /** Removing keeps the remaining skills in their order: it splits over concatenation. */
  lemma {:induction false} WithoutSkillConcat(a: seq<PassiveSkill>, b: seq<PassiveSkill>, id: nat)
    ensures WithoutSkill(a + b, id) == WithoutSkill(a, id) + WithoutSkill(b, id)
  {
    if |a| > 0 {
      var ab := a + b;
      assert ab[0] == a[0] && ab[1..] == a[1..] + b;
      WithoutSkillConcat(a[1..], b, id);
      var ra, rb := WithoutSkill(a[1..], id), WithoutSkill(b, id);
      if a[0].id != id {
        assert WithoutSkill(ab, id) == [a[0]] + (ra + rb);
        assert [a[0]] + (ra + rb) == ([a[0]] + ra) + rb;
      } else {
        assert WithoutSkill(ab, id) == ra + rb;
      }
    } else {
      assert a + b == b;
    }
  }

  /** A second removal of the same id changes nothing. */
  lemma {:induction false} WithoutSkillIdempotent(a: seq<PassiveSkill>, id: nat)
    ensures WithoutSkill(WithoutSkill(a, id), id) == WithoutSkill(a, id)
  {
    if |a| > 0 {
      WithoutSkillIdempotent(a[1..], id);
      var rest := WithoutSkill(a[1..], id);
      if a[0].id != id {
        assert ([a[0]] + rest)[1..] == rest;
      }
    }
  }

  /** Removing an id no skill carries changes nothing. */
  lemma {:induction false} WithoutAbsentSkill(a: seq<PassiveSkill>, id: nat)
    requires forall k :: 0 <= k < |a| ==> a[k].id != id
    ensures WithoutSkill(a, id) == a
  {
    if |a| > 0 {
      WithoutAbsentSkill(a[1..], id);
      assert [a[0]] + a[1..] == a;
    }
  }

  // ---------------------------------------------------------------------------------------
  // Status buttons

  /** The five status handlers. */
  datatype StatusHandler = Pause | Resume | ShowUpgrades | CloseUpgrades | UpgradeAndRestart

  function StatusSet(h: StatusHandler): Entities.GameStatus
  {
    match h
    case Pause => Entities.Paused
    case Resume => Entities.Playing
    case ShowUpgrades => Entities.Upgrading
    case CloseUpgrades => Entities.Playing
    case UpgradeAndRestart => Entities.Upgrading
  }

  function HandleStatus(state: Entities.GameState, h: StatusHandler): Entities.GameState
  {
    state.(gameStatus := StatusSet(h))
  }

  /** Pause goes to paused, resume and close to playing, and the two upgrade buttons to the
      upgrade screen; only the status changes, the last button pressed decides it, and pausing
      then resuming a running game gives it back unchanged. */
  lemma StatusHandlerFacts(state: Entities.GameState, h: StatusHandler, g: StatusHandler)
    ensures HandleStatus(state, Pause).gameStatus == Entities.Paused
    ensures HandleStatus(state, Resume).gameStatus == Entities.Playing
    ensures HandleStatus(state, CloseUpgrades).gameStatus == Entities.Playing
    ensures HandleStatus(state, ShowUpgrades).gameStatus == Entities.Upgrading
    ensures HandleStatus(state, UpgradeAndRestart).gameStatus == Entities.Upgrading
    ensures HandleStatus(HandleStatus(state, h), g) == HandleStatus(state, g)
    ensures state.gameStatus == Entities.Playing ==>
      HandleStatus(HandleStatus(state, Pause), Resume) == state
  {
  }

  // ---------------------------------------------------------------------------------------
  // Paying for an upgrade

  /** The split of `handleUpgrade`: none when the two purses together are short; otherwise
      the run's gold pays first and the stored gold pays the rest. The pair is the new run
      gold and the new stored gold. */
  function UpgradePayment(sessionGold: real, storedGold: real, cost: real): Option<(real, real)>
  {
    if storedGold + sessionGold < cost then None
    else if sessionGold >= cost then Some((sessionGold - cost, storedGold))
    else Some((0.0, storedGold - (cost - sessionGold)))
  }

  /** A purchase goes through exactly when the purses together cover the cost; then they drop
      by exactly the cost between them, the stored gold is only touched when the run's gold is
      short (and the run's gold is then spent to 0), and neither goes negative. */
  lemma UpgradePaymentFacts(sessionGold: real, storedGold: real, cost: real)
    ensures UpgradePayment(sessionGold, storedGold, cost).Some? <==> storedGold + sessionGold >= cost
    ensures UpgradePayment(sessionGold, storedGold, cost).Some? ==>
      var (s, p) := UpgradePayment(sessionGold, storedGold, cost).value;
      && s + p == sessionGold + storedGold - cost
      && (sessionGold >= cost ==> p == storedGold)
      && (sessionGold < cost ==> s == 0.0)
      && (sessionGold >= 0.0 && storedGold >= 0.0 ==> s >= 0.0 && p >= 0.0)
  {
  }

  // ---------------------------------------------------------------------------------------
  // The screen

  /** The statistics the handlers save: the score as survival time, the gold, the kills. */
  function FinalStats(s: Entities.GameState): Records.RunStats
  {
    Records.RunStats(s.gold, s.enemiesKilled as real, s.score as real)
  }

  /** The screen's state cells and the bolter store it is given. A handler reads the screen's
      own cells before it writes them, so they are plain fields; the store's callbacks read
      the values of the last render (see `BolterSystem`). */
  class Screen {
    var state: Entities.GameState
    var sessionEnded: bool
    const bolter: BolterSystem.Bolter

    /** A fresh run from the stored upgrades. */
    constructor(store: BolterSystem.Bolter)
      ensures bolter == store && !sessionEnded
      ensures state == GameLogic.CreateInitialGameState(store.data.permanentUpgrades, Classes.Bolter)
    {
      bolter := store;
      state := GameLogic.CreateInitialGameState(store.data.permanentUpgrades, Classes.Bolter);
      sessionEnded := false;
    }

    /** The mount effect: open a session unless the run is already saved. */
    method Mount(now: real)
      modifies bolter
      ensures bolter.Seen() == old(bolter.Seen())
      ensures bolter.Latest() == if sessionEnded then old(bolter.Latest())
                                 else BolterSystem.StartWrites(old(bolter.Latest()), old(bolter.Seen()), now)
      ensures bolter.data == old(bolter.data)
      ensures !sessionEnded && old(bolter.seenSession).None? ==>
        bolter.session == Some(BolterSystem.Session(now, 0.0, 0.0, 0.0))
    {
      if !sessionEnded {
        bolter.StartGameSession(now);
      }
    }

    /** `handleUpgrade` as written: `purchaseUpgrade`, then, when the run's gold is short, an
        `updateBolterData` of the stored gold from the same render. That second write spreads
        the record the render saw, so it replaces the raised level: the stored gold is charged
        and the level stays. */
    method HandleUpgrade(field: Records.UpgradeField, cost: real) returns (ok: bool)
      modifies this, bolter
      ensures sessionEnded == old(sessionEnded) && bolter.session == old(bolter.session)
      ensures bolter.Seen() == old(bolter.Seen())
      ensures var seen := old(bolter.seenData);
        var pay := UpgradePayment(old(state.gold), seen.totalGold, cost);
        && (ok <==> pay.Some?)
        && (pay.None? ==> state == old(state) && bolter.data == old(bolter.data))
        && (pay.Some? ==> state == old(state).(gold := pay.value.0))
        && (pay.Some? && old(state.gold) >= cost ==>
              bolter.data == seen.(permanentUpgrades := Records.Incremented(seen.permanentUpgrades, field)))
        && (pay.Some? && old(state.gold) < cost ==> bolter.data == seen.(totalGold := pay.value.1))
    {
      var totalGold := bolter.seenData.totalGold + state.gold;
      if totalGold < cost {
        return false;
      }
      var success := bolter.PurchaseUpgrade(field, cost);
      if success {
        if state.gold >= cost {
          state := state.(gold := state.gold - cost);
        } else {
          var remainingCost := cost - state.gold;
          bolter.UpdateBolterData(BolterSystem.NoUpdate.(totalGold := Some(bolter.seenData.totalGold - remainingCost)));
          state := state.(gold := 0.0);
        }
      }
      ok := success;
    }

    /** `handleUpgrade` as intended: the raised level and the charge to the stored gold go
        into one update, so the purchase both raises the level and is paid for. */
    method HandleUpgradeCorrected(field: Records.UpgradeField, cost: real) returns (ok: bool)
      modifies this, bolter
      ensures sessionEnded == old(sessionEnded) && bolter.session == old(bolter.session)
      ensures bolter.Seen() == old(bolter.Seen())
      ensures var seen := old(bolter.seenData);
        var pay := UpgradePayment(old(state.gold), seen.totalGold, cost);
        && (ok <==> pay.Some?)
        && (pay.None? ==> state == old(state) && bolter.data == old(bolter.data))
        && (pay.Some? ==>
              state == old(state).(gold := pay.value.0)
              && bolter.data == seen.(permanentUpgrades := Records.Incremented(seen.permanentUpgrades, field),
                                      totalGold := pay.value.1))
    {
      var totalGold := bolter.seenData.totalGold + state.gold;
      if totalGold < cost {
        return false;
      }
      var newUpgrades := Records.Incremented(bolter.seenData.permanentUpgrades, field);
      if state.gold >= cost {
        bolter.UpdateBolterData(BolterSystem.NoUpdate.(permanentUpgrades := Some(newUpgrades)));
        state := state.(gold := state.gold - cost);
      } else {
        var remainingCost := cost - state.gold;
        bolter.UpdateBolterData(BolterSystem.NoUpdate.(permanentUpgrades := Some(newUpgrades),
                                                       totalGold := Some(bolter.seenData.totalGold - remainingCost)));
        state := state.(gold := 0.0);
      }
      ok := true;
    }

    /** The death effect: once the run is dead and not yet saved, save it and mark it saved. */
    method DeathEffect(now: real)
      modifies this, bolter
      ensures state == old(state) && bolter.Seen() == old(bolter.Seen())
      ensures sessionEnded == (old(sessionEnded) || old(state.gameStatus) == Entities.Dead)
      ensures old(sessionEnded) || old(state.gameStatus) != Entities.Dead ==>
        bolter.Latest() == old(bolter.Latest())
      ensures !old(sessionEnded) && old(state.gameStatus) == Entities.Dead ==>
        bolter.Latest() == BolterSystem.SaveWrites(old(bolter.Latest()), old(bolter.Seen()), FinalStats(old(state)), now)
      ensures !old(sessionEnded) && old(state.gameStatus) == Entities.Dead && old(bolter.Seen()) == old(bolter.Latest()) ==>
        bolter.data == BolterSystem.Folded(old(bolter.data), old(bolter.session), FinalStats(old(state)), now)
        && bolter.session == None
    {
      if state.gameStatus == Entities.Dead && !sessionEnded {
        bolter.SaveCurrentSessionStats(FinalStats(state), now);
        sessionEnded := true;
      }
      BolterSystem.FreshCallbacks(old(bolter.Latest()), BolterSystem.NoUpdate, Records.Damage, FinalStats(state), now);
    }

    /** `handleRestart` as written: save the run unless it was saved, start over from the
        stored upgrades, and call `startGameSession` from the same render. When that render saw
        a session, the save clears it and the start, still seeing it, opens none: the new run
        has no session. */
    method HandleRestart(now: real)
      modifies this, bolter
      ensures !sessionEnded && bolter.Seen() == old(bolter.Seen())
      ensures state == GameLogic.CreateInitialGameState(old(bolter.seenData).permanentUpgrades, Classes.Bolter)
      ensures var saved := if old(sessionEnded) then old(bolter.Latest())
                           else BolterSystem.SaveWrites(old(bolter.Latest()), old(bolter.Seen()), FinalStats(old(state)), now);
        bolter.Latest() == BolterSystem.StartWrites(saved, old(bolter.Seen()), now)
      ensures old(bolter.Seen()) == old(bolter.Latest()) && !old(sessionEnded) ==>
        bolter.data == BolterSystem.Folded(old(bolter.data), old(bolter.session), FinalStats(old(state)), now)
      ensures old(bolter.seenSession).Some? && !old(sessionEnded) ==> bolter.session == None
      ensures old(bolter.seenSession).None? ==> bolter.session == Some(BolterSystem.Session(now, 0.0, 0.0, 0.0))
    {
      if !sessionEnded {
        bolter.SaveCurrentSessionStats(FinalStats(state), now);
      }
      state := GameLogic.CreateInitialGameState(bolter.seenData.permanentUpgrades, Classes.Bolter);
      sessionEnded := false;
      bolter.StartGameSession(now);
    }

    /** `handleRestart` as intended: the new session is opened from the latest session value
        (a functional state update), so the new run always has a session. */
    method HandleRestartCorrected(now: real)
      modifies this, bolter
      ensures !sessionEnded && bolter.Seen() == old(bolter.Seen())
      ensures state == GameLogic.CreateInitialGameState(old(bolter.seenData).permanentUpgrades, Classes.Bolter)
      ensures var saved := if old(sessionEnded) then old(bolter.Latest())
                           else BolterSystem.SaveWrites(old(bolter.Latest()), old(bolter.Seen()), FinalStats(old(state)), now);
        bolter.data == saved.data
      ensures old(bolter.Seen()) == old(bolter.Latest()) && !old(sessionEnded) ==>
        bolter.data == BolterSystem.Folded(old(bolter.data), old(bolter.session), FinalStats(old(state)), now)
      ensures bolter.session.Some?
      ensures old(bolter.seenSession).Some? && !old(sessionEnded) ==>
        bolter.session == Some(BolterSystem.Session(now, 0.0, 0.0, 0.0))
    {
      if !sessionEnded {
        bolter.SaveCurrentSessionStats(FinalStats(state), now);
      }
      state := GameLogic.CreateInitialGameState(bolter.seenData.permanentUpgrades, Classes.Bolter);
      sessionEnded := false;
      bolter.StartGameSessionFromLatest(now);
    }

    /** The cleanup of the save effect: unless the run was saved, save it when it holds gold. */
    method SaveEffectCleanup(now: real)
      modifies bolter
      ensures bolter.Seen() == old(bolter.Seen())
      ensures !sessionEnded && state.gold > 0.0 ==>
        bolter.Latest() == BolterSystem.SaveWrites(old(bolter.Latest()), old(bolter.Seen()), FinalStats(state), now)
      ensures sessionEnded || state.gold <= 0.0 ==> bolter.Latest() == old(bolter.Latest())
    {
      if !sessionEnded && state.gold > 0.0 {
        bolter.SaveCurrentSessionStats(FinalStats(state), now);
      }
    }
  }

  // ---------------------------------------------------------------------------------------
  // Restart and purchase across renders

  /** As written, restarting from the pause screen while the run's session is open leaves the
      next run without a session, so when that run dies with 25 gold and 3 kills, its save
      finds no session and only the first run reaches the stored totals. */
  method PauseRestartDropsNextRun(screen: Screen, now: real, later: real)
    requires screen.bolter.Seen() == screen.bolter.Latest()
    requires screen.bolter.session.Some? && !screen.sessionEnded
    modifies screen, screen.bolter
    ensures screen.bolter.data
      == BolterSystem.Folded(old(screen.bolter.data), old(screen.bolter.session), FinalStats(old(screen.state)), now)
    ensures screen.bolter.session == None && screen.sessionEnded
  {
    screen.HandleRestart(now);
    screen.bolter.Render();
    screen.state := screen.state.(gold := 25.0, enemiesKilled := 3, score := 40, gameStatus := Entities.Dead);
    screen.bolter.Render();
    screen.DeathEffect(later);
  }

  /** With the intended restart, the same next run is saved: its 25 gold and one more death
      are added to the totals the first run left. */
  method CorrectedRestartSavesNextRun(screen: Screen, now: real, later: real)
    requires screen.bolter.Seen() == screen.bolter.Latest()
    requires screen.bolter.session.Some? && !screen.sessionEnded
    modifies screen, screen.bolter
    ensures var first := BolterSystem.Folded(old(screen.bolter.data), old(screen.bolter.session),
                                             FinalStats(old(screen.state)), now);
      && screen.bolter.data.totalGold == first.totalGold + 25.0
      && screen.bolter.data.totalEnemiesKilled == first.totalEnemiesKilled + 3.0
      && screen.bolter.data.totalDeaths == first.totalDeaths + 1
    ensures screen.bolter.session == None && screen.sessionEnded
  {
    screen.HandleRestartCorrected(now);
    screen.bolter.Render();
    screen.state := screen.state.(gold := 25.0, enemiesKilled := 3, score := 40, gameStatus := Entities.Dead);
    var first := screen.bolter.data;
    var session := screen.bolter.session;
    screen.DeathEffect(later);
    BolterSystem.FoldedFacts(first, session, FinalStats(screen.state), later);
  }

  /** As written, buying the first damage level for 100 with no gold in the run and 100
      stored goes through and charges the 100, but the damage level stays 0. */
  method StoredGoldPurchaseLosesLevel(screen: Screen) returns (ok: bool)
    requires screen.bolter.Seen() == screen.bolter.Latest()
    requires screen.state.gold == 0.0 && screen.bolter.data.totalGold == 100.0
    requires screen.bolter.data.permanentUpgrades.damage == 0
    modifies screen, screen.bolter
    ensures ok && screen.bolter.data.totalGold == 0.0 && screen.bolter.data.permanentUpgrades.damage == 0
  {
    ok := screen.HandleUpgrade(Records.Damage, 100.0);
  }

  // ---------------------------------------------------------------------------------------
  // When the save effect's cleanup runs

  /** The bolter store's two cells, as values, at each commit. */
  type Cells = BolterSystem.Cells

  /** A save of the run `s` into the store. */
  function Saved(c: Cells, s: Entities.GameState, now: real): Cells
  {
    BolterSystem.Cells(BolterSystem.Folded(c.data, c.session, FinalStats(s), now), None)
  }

  /** The cleanup with the values of the render `prev`, before the run is over. */
  function CleanupSave(c: Cells, prev: Entities.GameState, now: real): Cells
  {
    if prev.gold > 0.0 then Saved(c, prev, now) else c
  }

  /** The death effect on the last state of a run. */
  function DeathSave(c: Cells, last: Entities.GameState, now: real): Cells
  {
    if last.gameStatus == Entities.Dead then Saved(c, last, now) else c
  }

  /** Whether the effect's dependencies differ between two renders. */
  predicate SaveDepsChanged(a: Entities.GameState, b: Entities.GameState)
  {
    a.score != b.score || a.gold != b.gold || a.enemiesKilled != b.enemiesKilled
  }

  /** As written: the effect lists the score, gold and kills as dependencies, so React runs the
      previous render's cleanup at every commit that changes them, not only at unmount. */
  function AfterCommits(c: Cells, states: seq<Entities.GameState>, now: real): Cells
    requires |states| >= 1
    decreases |states|
  {
    if |states| == 1 then c
    else
      var next := if SaveDepsChanged(states[0], states[1]) then CleanupSave(c, states[0], now) else c;
      AfterCommits(next, states[1..], now)
  }

  /** A run of committed states ending in death, as written. */
  function RunAsWritten(c: Cells, states: seq<Entities.GameState>, now: real): Cells
    requires |states| >= 1
  {
    DeathSave(AfterCommits(c, states, now), states[|states| - 1], now)
  }

  /** The intended behaviour: the cleanup runs only at unmount, so a run ending in death is
      saved once, by the death effect, with its final values. */
  function RunSavedAtUnmount(c: Cells, states: seq<Entities.GameState>, now: real): Cells
    requires |states| >= 1
  {
    DeathSave(c, states[|states| - 1], now)
  }

  /** As written, a run that picks up 10 gold, kills another enemy, then picks up 15 more
      and dies stores only the first 10: the commit of the kill runs the cleanup of the render
      with 10 gold, which saves the run and clears the session, so neither the later cleanup
      nor the death save finds a session. */
  lemma EarlySaveKeepsFirstGold(c: Cells, base: Entities.GameState, now: real)
    requires c.session.Some?
    ensures var first := base.(gold := 10.0, enemiesKilled := 1, score := 0, gameStatus := Entities.Playing);
      var mid := first.(enemiesKilled := 2);
      var last := mid.(gold := 25.0, score := 2, gameStatus := Entities.Dead);
      var r := RunAsWritten(c, [first, mid, last], now);
      r.data.totalGold == c.data.totalGold + 10.0 && r.session == None
  {
    var first := base.(gold := 10.0, enemiesKilled := 1, score := 0, gameStatus := Entities.Playing);
    var mid := first.(enemiesKilled := 2);
    var last := mid.(gold := 25.0, score := 2, gameStatus := Entities.Dead);
    var saved := CleanupSave(c, first, now);
    BolterSystem.FoldedFacts(c.data, c.session, FinalStats(first), now);
    assert saved.data.totalGold == c.data.totalGold + 10.0 && saved.session == None;
    assert [first, mid, last][1..] == [mid, last] && [mid, last][1..] == [last];
    assert AfterCommits(c, [first, mid, last], now) == AfterCommits(saved, [mid, last], now);
    assert CleanupSave(saved, mid, now) == saved;
    assert AfterCommits(saved, [mid, last], now) == AfterCommits(saved, [last], now) == saved;
    assert DeathSave(saved, last, now) == saved;
  }

  /** With the cleanup at unmount only, a run that dies with gold stores all of its final
      gold, kills and survival time exactly once, and clears the session. */
  lemma UnmountOnlySavesFinalRun(c: Cells, states: seq<Entities.GameState>, now: real)
    requires |states| >= 1 && c.session.Some?
    requires states[|states| - 1].gameStatus == Entities.Dead && states[|states| - 1].gold > 0.0
    ensures var last := states[|states| - 1]; var r := RunSavedAtUnmount(c, states, now);
      && r.data.totalGold == c.data.totalGold + last.gold
      && r.data.totalEnemiesKilled == c.data.totalEnemiesKilled + last.enemiesKilled as real
      && r.data.totalDeaths == c.data.totalDeaths + 1
      && r.session == None
  {
    BolterSystem.FoldedFacts(c.data, c.session, FinalStats(states[|states| - 1]), now);
  }

  /** The death save happens at most once: running the effect again, later, saves nothing more,
      so the run is folded in with the first run's time only. */
  method DeathSavedOnce(screen: Screen, now: real, later: real)
    modifies screen, screen.bolter
    ensures screen.state == old(screen.state)
    ensures old(screen.state.gameStatus) == Entities.Dead ==> screen.sessionEnded
    ensures !old(screen.sessionEnded) && old(screen.state.gameStatus) == Entities.Dead ==>
      screen.bolter.data == BolterSystem.Folded(old(screen.bolter.data), old(screen.bolter.session),
                                                FinalStats(old(screen.state)), now)
      && screen.bolter.session == None
    ensures old(screen.sessionEnded) || old(screen.state.gameStatus) != Entities.Dead ==>
      screen.bolter.data == old(screen.bolter.data) && screen.bolter.session == old(screen.bolter.session)
  {
    screen.bolter.Render();
    screen.DeathEffect(now);
    screen.bolter.Render();
    screen.DeathEffect(later);
  }
}
