/** The offer card of src/components/SkillDropNotification.tsx: a five-second countdown that
    accepts the offered skill when it runs out, and the c/v keyboard shortcuts. The
    one-second interval is modelled as calls of `Tick`; what `onAccept` does is the caller's
    business, so `Tick` reports whether it fired. */
module SkillDropNotification {

  import opened Wrappers
  import Text
  import Classes

  /** Every countdown starts at five seconds (the `autoRejectTime` prop is never read). */
  const CountdownStart: int := 5

  /** One interval tick from the previous value: at one second or less it fires `onAccept` and
      settles at zero, otherwise it counts down by one. */
  function TickOutcome(prev: int): (int, bool)
  {
    if prev <= 1 then (0, true) else (prev - 1, false)
  }

  /** What a key press asks of the card. */
  datatype KeyAction = AcceptKey | RejectKey | NoAction

  /** The keydown handler: none while no skill is shown; 'c' accepts and 'v' rejects in either
      case; every other key is ignored. */
  function KeyDispatch(skill: Option<Classes.PassiveSkill>, key: string): KeyAction
  {
    if skill.None? then NoAction
    else if Text.ToLower(key) == "c" then AcceptKey
    else if Text.ToLower(key) == "v" then RejectKey
    else NoAction
  }

  /** The width of the progress bar, in percent. */
  function ProgressWidth(timeLeft: int): real
  {
    (timeLeft as real) / 5.0 * 100.0
  }

  /** The card's state: the skill it shows and the seconds left. */
  class Countdown {
    var skill: Option<Classes.PassiveSkill>
    var timeLeft: int

    predicate Valid()
      reads this
    {
      0 <= timeLeft <= CountdownStart
    }

    /** `useState(5)` with nothing shown yet. */
    constructor()
      ensures skill == None && timeLeft == CountdownStart && Valid()
    {
      skill := None;
      timeLeft := CountdownStart;
    }

    /** The effect that runs when the shown skill changes: a shown skill restarts the count at
        five; with no skill nothing is set up and the count is left alone. */
    method Show(offered: Option<Classes.PassiveSkill>)
      requires Valid()
      modifies this
      ensures Valid() && skill == offered
      ensures timeLeft == if offered.Some? then CountdownStart else old(timeLeft)
    {
      skill := offered;
      if offered.Some? {
        timeLeft := CountdownStart;
      }
    }

    /** One interval callback. With no skill there is no interval, so nothing happens. */
    method Tick() returns (accepted: bool)
      requires Valid()
      modifies this
      ensures Valid() && skill == old(skill)
      ensures old(skill).None? ==> timeLeft == old(timeLeft) && !accepted
      ensures old(skill).Some? ==> (timeLeft, accepted) == TickOutcome(old(timeLeft))
    {
      accepted := false;
      if skill.Some? {
        if timeLeft <= 1 {
          accepted := true;
          timeLeft := 0;
        } else {
          timeLeft := timeLeft - 1;
        }
      }
    }
  }

  /** `k` ticks of the countdown from `start`: the value reached and whether any tick fired. */
  function Run(start: int, k: nat): (int, bool)
  {
    if k == 0 then (start, false)
    else
      var (t, fired) := Run(start, k - 1);
      var (t', now) := TickOutcome(t);
      (t', fired || now)
  }

  /** From a fresh count of five, the first four ticks count down without firing and the
      fifth fires, so an offer left alone is accepted after five seconds; every tick after
      that fires again. */
  lemma {:induction false} CountdownExpires(k: nat)
    ensures k < 5 ==> Run(CountdownStart, k) == (CountdownStart - k, false)
    ensures k >= 5 ==> Run(CountdownStart, k) == (0, true)
    ensures k >= 5 ==> TickOutcome(Run(CountdownStart, k).0) == (0, true)
  {
    if k > 0 {
      CountdownExpires(k - 1);
    }
  }

  /** A tick keeps the count within [0, 5] and never increases it, and it fires exactly when
      the count was at most one. */
  lemma TickOutcomeFacts(prev: int)
    requires 0 <= prev <= CountdownStart
    ensures var (t, fired) := TickOutcome(prev);
      && 0 <= t <= CountdownStart && t <= prev
      && (fired <==> prev <= 1)
      && (!fired ==> t == prev - 1)
  {
  }

  /** 'c' and 'C' accept, 'v' and 'V' reject, any other key is ignored, and nothing reacts
      while no skill is shown. */
  lemma KeyDispatchFacts(skill: Option<Classes.PassiveSkill>, key: string)
    ensures skill.None? ==> KeyDispatch(skill, key) == NoAction
    ensures skill.Some? ==> (KeyDispatch(skill, key) == AcceptKey <==> key == "c" || key == "C")
    ensures skill.Some? ==> (KeyDispatch(skill, key) == RejectKey <==> key == "v" || key == "V")
  {
    Text.ToLowerSingleLetter(key, 'c');
    Text.ToLowerSingleLetter(key, 'v');
  }

  /** The bar is empty at zero, full at five, and in between for every reachable count. */
  lemma ProgressWidthBounds(timeLeft: int)
    requires 0 <= timeLeft <= CountdownStart
    ensures 0.0 <= ProgressWidth(timeLeft) <= 100.0
    ensures ProgressWidth(timeLeft) == 0.0 <==> timeLeft == 0
    ensures ProgressWidth(timeLeft) == 100.0 <==> timeLeft == CountdownStart
  {
  }
}
