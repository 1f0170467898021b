/** `useBolterSystem` (src/hooks/useBolterSystem.ts): the persistent bolter record and the
    current run's session, two state cells whose values the hook's callbacks capture at each
    render and replace by whole values. `Date.now()` is the `now` parameter; the local-storage
    round trip is left out. */
module BolterSystem {

  import opened Wrappers
  import opened Numbers
  import opened Records

  /** The session the hook keeps while a run is on. */
  datatype Session = Session(startTime: real, goldEarned: real, enemiesKilled: real,
                             survivalTime: real)

  /** `Partial<BolterData>`: the fields an update supplies. */
  datatype BolterUpdate = BolterUpdate(totalGold: Option<real>, totalPlayTime: Option<real>,
                                       bestSurvivalTime: Option<real>,
                                       totalEnemiesKilled: Option<real>,
                                       totalDeaths: Option<int>,
                                       permanentUpgrades: Option<PermanentUpgrades>)

  const NoUpdate: BolterUpdate := BolterUpdate(None, None, None, None, None, None)

  /** The record a new player starts from. */
  const DefaultBolterData: BolterData := BolterData(0.0, 0.0, 0.0, 0.0, 0, NoUpgrades)

  /** `{ ...bolterData, ...updates }`. */
  function Merged(d: BolterData, u: BolterUpdate): BolterData
  {
    BolterData(GetOr(u.totalGold, d.totalGold), GetOr(u.totalPlayTime, d.totalPlayTime),
               GetOr(u.bestSurvivalTime, d.bestSurvivalTime),
               GetOr(u.totalEnemiesKilled, d.totalEnemiesKilled),
               GetOr(u.totalDeaths, d.totalDeaths),
               GetOr(u.permanentUpgrades, d.permanentUpgrades))
  }

  /** The update `purchaseUpgrade` sends: the named level one higher, nothing else. */
  function PurchaseUpdate(d: BolterData, field: UpgradeField): BolterUpdate
  {
    NoUpdate.(permanentUpgrades := Some(Incremented(d.permanentUpgrades, field)))
  }

  /** Whether a save skips the run: no session to save, or a run that earned nothing. */
  predicate SkipsRun(session: Option<Session>, stats: RunStats)
  {
    session.None? || (stats.goldEarned == 0.0 && stats.enemiesKilled == 0.0)
  }

  /** The update `saveCurrentSessionStats` sends for a run that is not skipped. */
  function RunUpdate(d: BolterData, s: Session, stats: RunStats, now: real): BolterUpdate
  {
    BolterUpdate(Some(d.totalGold + stats.goldEarned), Some(d.totalPlayTime + (now - s.startTime)),
                 Some(Max(d.bestSurvivalTime, stats.survivalTime)),
                 Some(d.totalEnemiesKilled + stats.enemiesKilled), Some(d.totalDeaths + 1), None)
  }

  /** The record after a save. */
  function Folded(d: BolterData, session: Option<Session>, stats: RunStats, now: real): BolterData
  {
    if SkipsRun(session, stats) then d else Merged(d, RunUpdate(d, session.value, stats, now))
  }

  /** The hook's two state cells as values: the record and the session. */
  datatype Cells = Cells(data: BolterData, session: Option<Session>)

  // The hook's callbacks are created at each render and read the cells' values of that render
  // (`seen`); each write replaces a cell's value, so the last write of a handler wins. The
  // functions below give the cells after one callback, from the latest values `latest` and the
  // render's values `seen`.

  /** `updateBolterData`: the render's record with the update spread over it. */
  function UpdateWrites(latest: Cells, seen: Cells, u: BolterUpdate): Cells
  {
    latest.(data := Merged(seen.data, u))
  }

  /** `purchaseUpgrade`: the update that raises the named level of the render's record. */
  function PurchaseWrites(latest: Cells, seen: Cells, field: UpgradeField): Cells
  {
    UpdateWrites(latest, seen, PurchaseUpdate(seen.data, field))
  }

  /** `startGameSession`: a new session unless the render saw one. */
  function StartWrites(latest: Cells, seen: Cells, now: real): Cells
  {
    if seen.session.Some? then latest else latest.(session := Some(Session(now, 0.0, 0.0, 0.0)))
  }

  /** `saveCurrentSessionStats`: nothing without a session in the render; an empty run only
      clears the session; any other run is folded into the render's record. */
  function SaveWrites(latest: Cells, seen: Cells, stats: RunStats, now: real): Cells
  {
    if seen.session.None? then latest
    else if SkipsRun(seen.session, stats) then latest.(session := None)
    else Cells(Merged(seen.data, RunUpdate(seen.data, seen.session.value, stats, now)), None)
  }

  /** The hook's two state cells, and the values the callbacks of the current render read. */
  class Bolter {
    var data: BolterData
    var session: Option<Session>
    var seenData: BolterData
    var seenSession: Option<Session>

    function Latest(): Cells
      reads this
    {
      Cells(data, session)
    }

    function Seen(): Cells
      reads this
    {
      Cells(seenData, seenSession)
    }

    /** The stored record if there is one, else the default; no session yet. */
    constructor(stored: Option<BolterData>)
      ensures data == GetOr(stored, DefaultBolterData) && session == None
      ensures Seen() == Latest()
    {
      data := GetOr(stored, DefaultBolterData);
      session := None;
      seenData := GetOr(stored, DefaultBolterData);
      seenSession := None;
    }

    /** A render: the callbacks are created anew and read the cells' latest values. */
    method Render()
      modifies this
      ensures Latest() == old(Latest()) && Seen() == Latest()
    {
      seenData, seenSession := data, session;
    }

    /** `updateBolterData`. */
    method UpdateBolterData(u: BolterUpdate)
      modifies this
      ensures Latest() == UpdateWrites(old(Latest()), old(Seen()), u) && Seen() == old(Seen())
    {
      data := Merged(seenData, u);
    }

    /** `purchaseUpgrade`: the cost is not charged here, and the answer is always yes. */
    method PurchaseUpgrade(field: UpgradeField, cost: real) returns (ok: bool)
      modifies this
      ensures ok
      ensures Latest() == PurchaseWrites(old(Latest()), old(Seen()), field) && Seen() == old(Seen())
    {
      var newUpgrades := Incremented(seenData.permanentUpgrades, field);
      UpdateBolterData(NoUpdate.(permanentUpgrades := Some(newUpgrades)));
      ok := true;
    }

    /** `startGameSession`: only when the render saw no session. */
    method StartGameSession(now: real)
      modifies this
      ensures Latest() == StartWrites(old(Latest()), old(Seen()), now) && Seen() == old(Seen())
    {
      if seenSession.Some? {
        return;
      }
      session := Some(Session(now, 0.0, 0.0, 0.0));
    }

    /** `startGameSession` written with a functional state update, which sees the latest
        session rather than the render's: a session opens exactly when none is on. */
    method StartGameSessionFromLatest(now: real)
      modifies this
      ensures Latest() == StartWrites(old(Latest()), old(Latest()), now) && Seen() == old(Seen())
    {
      if session.Some? {
        return;
      }
      session := Some(Session(now, 0.0, 0.0, 0.0));
    }

    /** `saveCurrentSessionStats`: fold the run in unless it is skipped; the session is
        cleared when the render saw one. */
    method SaveCurrentSessionStats(stats: RunStats, now: real)
      modifies this
      ensures Latest() == SaveWrites(old(Latest()), old(Seen()), stats, now) && Seen() == old(Seen())
    {
      if seenSession.None? {
        return;
      }
      var sessionDuration := now - seenSession.value.startTime;
      if stats.goldEarned == 0.0 && stats.enemiesKilled == 0.0 {
        session := None;
        return;
      }
      var updated := BolterUpdate(Some(seenData.totalGold + stats.goldEarned),
                                  Some(seenData.totalPlayTime + sessionDuration),
                                  Some(Max(seenData.bestSurvivalTime, stats.survivalTime)),
                                  Some(seenData.totalEnemiesKilled + stats.enemiesKilled),
                                  Some(seenData.totalDeaths + 1), None);
      UpdateBolterData(updated);
      session := None;
    }
  }

  /** Called once per render, every callback acts on the latest values: an update merges into
      the record, a purchase raises the level, a session opens only when none is on, and a save
      folds the run in and clears the session. */
  lemma FreshCallbacks(c: Cells, u: BolterUpdate, field: UpgradeField, stats: RunStats, now: real)
    ensures UpdateWrites(c, c, u) == Cells(Merged(c.data, u), c.session)
    ensures PurchaseWrites(c, c, field) == Cells(Merged(c.data, PurchaseUpdate(c.data, field)), c.session)
    ensures StartWrites(c, c, now).data == c.data
    ensures StartWrites(c, c, now).session == if c.session.Some? then c.session else Some(Session(now, 0.0, 0.0, 0.0))
    ensures SaveWrites(c, c, stats, now) == Cells(Folded(c.data, c.session, stats, now), None)
  {
  }

  /** Two record writes from the same render: only the second survives, whatever the first. */
  lemma LastUpdateWins(latest: Cells, seen: Cells, u: BolterUpdate, v: BolterUpdate)
    ensures UpdateWrites(UpdateWrites(latest, seen, u), seen, v) == UpdateWrites(latest, seen, v)
  {
  }

  /** A save followed by a start from the same render that saw a session leaves no session:
      the save clears it and the start still sees the one the render saw. */
  lemma StartAfterSaveOpensNothing(latest: Cells, seen: Cells, stats: RunStats, now: real, later: real)
    requires seen.session.Some?
    ensures StartWrites(SaveWrites(latest, seen, stats, now), seen, later).session == None
  {
  }

  /** A merge takes exactly the supplied fields, an empty update changes nothing, and merging
      the same update twice is merging it once. */
  lemma MergedFacts(d: BolterData, u: BolterUpdate)
    ensures var r := Merged(d, u);
      && (u.totalGold.Some? ==> r.totalGold == u.totalGold.value)
      && (u.totalGold.None? ==> r.totalGold == d.totalGold)
      && (u.totalPlayTime.None? ==> r.totalPlayTime == d.totalPlayTime)
      && (u.bestSurvivalTime.None? ==> r.bestSurvivalTime == d.bestSurvivalTime)
      && (u.totalEnemiesKilled.None? ==> r.totalEnemiesKilled == d.totalEnemiesKilled)
      && (u.totalDeaths.None? ==> r.totalDeaths == d.totalDeaths)
      && (u.permanentUpgrades.Some? ==> r.permanentUpgrades == u.permanentUpgrades.value)
      && (u.permanentUpgrades.None? ==> r.permanentUpgrades == d.permanentUpgrades)
    ensures Merged(d, NoUpdate) == d
    ensures Merged(Merged(d, u), u) == Merged(d, u)
  {
  }

  /** A purchase raises exactly the named level by one and leaves the gold, the statistics
      and the other levels as they were, whatever the cost. */
  lemma PurchaseFacts(d: BolterData, field: UpgradeField)
    ensures var r := Merged(d, PurchaseUpdate(d, field));
      && Level(r.permanentUpgrades, field) == Level(d.permanentUpgrades, field) + 1
      && (forall g :: g != field ==> Level(r.permanentUpgrades, g) == Level(d.permanentUpgrades, g))
      && r == d.(permanentUpgrades := r.permanentUpgrades)
  {
  }

  /** Without a session, or for a run with no gold and no kills, a save changes nothing.
      Otherwise gold, kills and play time (by the session's duration) are added, the death
      count rises by exactly one, the best time is the larger of the two, and the upgrades
      are kept. */
  lemma FoldedFacts(d: BolterData, session: Option<Session>, stats: RunStats, now: real)
    ensures SkipsRun(session, stats) ==> Folded(d, session, stats, now) == d
    ensures !SkipsRun(session, stats) ==>
      var r := Folded(d, session, stats, now);
      && r.totalGold == d.totalGold + stats.goldEarned
      && r.totalEnemiesKilled == d.totalEnemiesKilled + stats.enemiesKilled
      && r.totalPlayTime == d.totalPlayTime + (now - session.value.startTime)
      && r.totalDeaths == d.totalDeaths + 1
      && r.bestSurvivalTime == Max(d.bestSurvivalTime, stats.survivalTime)
      && r.permanentUpgrades == d.permanentUpgrades
  {
  }

  /** The best time never decreases, and the totals never decrease for a run with
      non-negative gold and kills that ends after it started. */
  lemma FoldedMonotone(d: BolterData, session: Option<Session>, stats: RunStats, now: real)
    requires stats.goldEarned >= 0.0 && stats.enemiesKilled >= 0.0
    requires session.Some? ==> now >= session.value.startTime
    ensures var r := Folded(d, session, stats, now);
      && r.bestSurvivalTime >= d.bestSurvivalTime
      && r.totalGold >= d.totalGold && r.totalEnemiesKilled >= d.totalEnemiesKilled
      && r.totalPlayTime >= d.totalPlayTime && r.totalDeaths >= d.totalDeaths
  {
    FoldedFacts(d, session, stats, now);
  }

  /** A save clears the session, so a second save straight after it changes nothing. */
  lemma SecondSaveChangesNothing(d: BolterData, session: Option<Session>, first: RunStats,
                                 second: RunStats, now: real, later: real)
    ensures var once := Folded(d, session, first, now);
      Folded(once, None, second, later) == once
  {
  }
}
