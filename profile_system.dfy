/** `useProfileSystem` (src/hooks/useProfileSystem.ts): the persistent player profile and the
    current run's session. Unlike the bolter store, every update stamps `lastPlayed` and a
    save always folds the run in. `Date.now()` is the `now` parameter. */
module ProfileSystem {

  import opened Wrappers
  import opened Numbers
  import opened Records
  import Classes

  /** `GameSession`. */
  datatype GameSession = GameSession(startTime: real, endTime: Option<real>, goldEarned: real,
                                     enemiesKilled: real, survivalTime: real,
                                     upgradesPurchased: real)

  /** `Partial<PlayerProfile>`: the fields an update supplies. */
  datatype ProfileUpdate = ProfileUpdate(
    id: Option<string>, name: Option<string>, selectedClass: Option<Classes.CharacterClass>,
    createdAt: Option<real>, lastPlayed: Option<real>, totalGold: Option<real>,
    totalPlayTime: Option<real>, bestSurvivalTime: Option<real>,
    totalEnemiesKilled: Option<real>, totalDeaths: Option<int>,
    permanentUpgrades: Option<PermanentUpgrades>, achievements: Option<seq<Achievement>>)

  const NoUpdate: ProfileUpdate :=
    ProfileUpdate(None, None, None, None, None, None, None, None, None, None, None, None)

  /** `createDefaultProfile`. */
  function DefaultProfile(now: real): PlayerProfile
  {
    PlayerProfile("default-profile", "Player", Classes.Bolter, now, now, 0.0, 0.0, 0.0, 0.0, 0,
                  NoUpgrades, [])
  }

  /** `{ ...profile, ...updates, lastPlayed: now }`. */
  function MergedProfile(p: PlayerProfile, u: ProfileUpdate, now: real): PlayerProfile
  {
    PlayerProfile(GetOr(u.id, p.id), GetOr(u.name, p.name), GetOr(u.selectedClass, p.selectedClass),
                  GetOr(u.createdAt, p.createdAt), now, GetOr(u.totalGold, p.totalGold),
                  GetOr(u.totalPlayTime, p.totalPlayTime),
                  GetOr(u.bestSurvivalTime, p.bestSurvivalTime),
                  GetOr(u.totalEnemiesKilled, p.totalEnemiesKilled),
                  GetOr(u.totalDeaths, p.totalDeaths),
                  GetOr(u.permanentUpgrades, p.permanentUpgrades),
                  GetOr(u.achievements, p.achievements))
  }

  /** The session's length so far, or 0 without a session. */
  function SessionDuration(session: Option<GameSession>, now: real): real
  {
    if session.Some? then now - session.value.startTime else 0.0
  }

  /** The update `saveCurrentSessionStats` sends. */
  function RunUpdate(p: PlayerProfile, session: Option<GameSession>, stats: RunStats, now: real)
    : ProfileUpdate
  {
    NoUpdate.(totalGold := Some(p.totalGold + stats.goldEarned),
              totalPlayTime := Some(p.totalPlayTime + SessionDuration(session, now)),
              bestSurvivalTime := Some(Max(p.bestSurvivalTime, stats.survivalTime)),
              totalEnemiesKilled := Some(p.totalEnemiesKilled + stats.enemiesKilled),
              totalDeaths := Some(p.totalDeaths + 1))
  }

  /** The update `purchaseUpgrade` sends. */
  function PurchaseUpdate(p: PlayerProfile, field: UpgradeField): ProfileUpdate
  {
    NoUpdate.(permanentUpgrades := Some(Incremented(p.permanentUpgrades, field)))
  }

  /** The hook's two state cells. */
  class Profiles {
    var profile: PlayerProfile
    var session: Option<GameSession>

    /** The stored profile if there is one, else a default one made now; no session yet. */
    constructor(stored: Option<PlayerProfile>, now: real)
      ensures profile == GetOr(stored, DefaultProfile(now)) && session == None
    {
      profile := GetOr(stored, DefaultProfile(now));
      session := None;
    }

    /** `updateProfile`. */
    method UpdateProfile(u: ProfileUpdate, now: real)
      modifies this
      ensures profile == MergedProfile(old(profile), u, now) && session == old(session)
    {
      profile := MergedProfile(profile, u, now);
    }

    /** `purchaseUpgrade`: the cost is not charged here, and the answer is always yes. */
    method PurchaseUpgrade(field: UpgradeField, cost: real, now: real) returns (ok: bool)
      modifies this
      ensures ok
      ensures profile == MergedProfile(old(profile), PurchaseUpdate(old(profile), field), now)
      ensures session == old(session)
    {
      var newUpgrades := Incremented(profile.permanentUpgrades, field);
      UpdateProfile(NoUpdate.(permanentUpgrades := Some(newUpgrades)), now);
      ok := true;
    }

    /** `startGameSession`: only when no session is on. */
    method StartGameSession(now: real)
      modifies this
      ensures profile == old(profile)
      ensures session == if old(session).Some? then old(session)
                         else Some(GameSession(now, None, 0.0, 0.0, 0.0, 0.0))
    {
      if session.Some? {
        return;
      }
      session := Some(GameSession(now, None, 0.0, 0.0, 0.0, 0.0));
    }

    /** `saveCurrentSessionStats`: always folds the run in, then clears the session. */
    method SaveCurrentSessionStats(stats: RunStats, now: real)
      modifies this
      ensures profile == MergedProfile(old(profile), RunUpdate(old(profile), old(session), stats, now), now)
      ensures session == None
    {
      var sessionDuration := if session.Some? then now - session.value.startTime else 0.0;
      var updated := NoUpdate.(totalGold := Some(profile.totalGold + stats.goldEarned),
                               totalPlayTime := Some(profile.totalPlayTime + sessionDuration),
                               bestSurvivalTime := Some(Max(profile.bestSurvivalTime, stats.survivalTime)),
                               totalEnemiesKilled := Some(profile.totalEnemiesKilled + stats.enemiesKilled),
                               totalDeaths := Some(profile.totalDeaths + 1));
      UpdateProfile(updated, now);
      session := None;
    }
  }

  /** The default profile plays the bolter, has every counter at zero, no upgrades and no
      achievements. */
  lemma DefaultProfileFacts(now: real)
    ensures var p := DefaultProfile(now);
      && p.selectedClass == Classes.Bolter && p.totalGold == 0.0 && p.totalPlayTime == 0.0
      && p.bestSurvivalTime == 0.0 && p.totalEnemiesKilled == 0.0 && p.totalDeaths == 0
      && (forall f :: Level(p.permanentUpgrades, f) == 0) && p.achievements == []
      && p.createdAt == now && p.lastPlayed == now
  {
  }

  /** An update takes exactly the supplied fields and always stamps the time, even when it
      supplies nothing (or a `lastPlayed` of its own). */
  lemma MergedProfileFacts(p: PlayerProfile, u: ProfileUpdate, now: real)
    ensures var r := MergedProfile(p, u, now);
      && r.lastPlayed == now
      && (u.totalGold.Some? ==> r.totalGold == u.totalGold.value)
      && (u.totalGold.None? ==> r.totalGold == p.totalGold)
      && (u.name.None? ==> r.name == p.name)
      && (u.permanentUpgrades.None? ==> r.permanentUpgrades == p.permanentUpgrades)
      && (u.achievements.None? ==> r.achievements == p.achievements)
    ensures MergedProfile(p, NoUpdate, now) == p.(lastPlayed := now)
  {
  }

  /** A purchase raises exactly the named level and otherwise only stamps the time; the gold is
      not touched. */
  lemma PurchaseFacts(p: PlayerProfile, field: UpgradeField, now: real)
    ensures var r := MergedProfile(p, PurchaseUpdate(p, field), now);
      && Level(r.permanentUpgrades, field) == Level(p.permanentUpgrades, field) + 1
      && (forall g :: g != field ==> Level(r.permanentUpgrades, g) == Level(p.permanentUpgrades, g))
      && r == p.(permanentUpgrades := r.permanentUpgrades, lastPlayed := now)
  {
  }

  /** Every save counts: gold and kills are added, exactly one death, play time grows by the
      session's length (0 without a session), the best time is the larger one; an empty run
      and a save without a session are folded in too. */
  lemma SaveFacts(p: PlayerProfile, session: Option<GameSession>, stats: RunStats, now: real)
    ensures var r := MergedProfile(p, RunUpdate(p, session, stats, now), now);
      && r.totalGold == p.totalGold + stats.goldEarned
      && r.totalEnemiesKilled == p.totalEnemiesKilled + stats.enemiesKilled
      && r.totalDeaths == p.totalDeaths + 1
      && r.bestSurvivalTime == Max(p.bestSurvivalTime, stats.survivalTime)
      && r.bestSurvivalTime >= p.bestSurvivalTime
      && (session.None? ==> r.totalPlayTime == p.totalPlayTime)
      && (session.Some? ==> r.totalPlayTime == p.totalPlayTime + (now - session.value.startTime))
      && r.permanentUpgrades == p.permanentUpgrades && r.lastPlayed == now
  {
  }

  /** Two saves in a row count two deaths: unlike the bolter store, nothing stops a second
      save after the session has been cleared. */
  lemma SecondSaveCounts(p: PlayerProfile, session: Option<GameSession>, first: RunStats,
                         second: RunStats, now: real, later: real)
    ensures var once := MergedProfile(p, RunUpdate(p, session, first, now), now);
      var twice := MergedProfile(once, RunUpdate(once, None, second, later), later);
      twice.totalDeaths == p.totalDeaths + 2
      && twice.totalPlayTime == once.totalPlayTime
  {
  }
}
