/** `formatTime` of src/components/BolterMenu.tsx and src/components/ProfileSelector.tsx (the two
    copies are identical): milliseconds shown as "Hh Mm", "Mm Ss" or "Ss". */
module TimeFormat {

  import Text

  /** JavaScript's `%` on integers: the remainder takes the sign of the dividend. */
  function JsRem(a: int, b: int): (r: int)
    requires b > 0
    ensures a >= 0 ==> 0 <= r < b && r == a % b
    ensures a < 0 ==> -b < r <= 0
  {
    if a >= 0 then a % b else -((-a) % b)
  }

  datatype Clock = Clock(hours: int, minutes: int, seconds: int)

  /** Whole seconds `Math.floor(ms / 1000)`, then whole hours, the minutes left within the hour
      and the seconds left within the minute, with `Math.floor` and JavaScript's `%`. */
  function Decompose(ms: real): Clock
  {
    var s := (ms / 1000.0).Floor;
    Clock(s / 3600, JsRem(s, 3600) / 60, JsRem(s, 60))
  }

  /** The three display shapes, chosen by hours first and minutes second. */
  function FormatTime(ms: real): string
  {
    var c := Decompose(ms);
    if c.hours > 0 then Text.IntToString(c.hours) + "h " + Text.IntToString(c.minutes) + "m"
    else if c.minutes > 0 then Text.IntToString(c.minutes) + "m " + Text.IntToString(c.seconds) + "s"
    else Text.IntToString(c.seconds) + "s"
  }

  /** For a non-negative duration the parts add back up to the whole seconds, and minutes and
      seconds stay below 60. */
  lemma DecomposeFacts(ms: real)
    requires ms >= 0.0
    ensures var c := Decompose(ms);
      && c.hours >= 0 && 0 <= c.minutes < 60 && 0 <= c.seconds < 60
      && c.hours * 3600 + c.minutes * 60 + c.seconds == (ms / 1000.0).Floor
  {
    var s := (ms / 1000.0).Floor;
    assert s >= 0;
    SplitSeconds(s);
  }

  lemma SplitSeconds(s: nat)
    ensures (s % 3600) / 60 < 60
    ensures (s / 3600) * 3600 + ((s % 3600) / 60) * 60 + s % 60 == s
  {
    var q, r := s / 3600, s % 3600;
    assert s == 3600 * q + r && 0 <= r < 3600;
    var a, b := r / 60, r % 60;
    assert r == 60 * a + b && 0 <= b < 60;
    RemainderBySixty(s, 60 * q + a, b);
  }

  /** The remainder by 60 is the one of any split into sixties and a rest below 60. */
  lemma RemainderBySixty(s: int, k: int, b: int)
    requires s == 60 * k + b && 0 <= b < 60
    ensures s % 60 == b
  {
  }

  /** A number never contains a letter: the unit letters of the display only come from the
      template. */
  lemma NoLetterInNumber(i: int, c: char)
    requires c != '-' && !Text.IsDigit(c)
    ensures c !in Text.IntToString(i)
  {
    var s := Text.IntToString(i);
    if i >= 0 {
      assert forall k :: 0 <= k < |s| ==> Text.IsDigit(s[k]);
    } else {
      assert forall k :: 1 <= k < |s| ==> s[k] == s[1..][k - 1] && Text.IsDigit(s[1..][k - 1]);
    }
  }

  /** The display has an 'h' exactly when there is a whole hour, and then ends in 'm' (the
      seconds are dropped); otherwise it ends in 's', and it has an 'm' exactly when there
      are whole minutes. */
  lemma FormatTimeShape(ms: real)
    ensures var f := FormatTime(ms); var c := Decompose(ms);
      && |f| >= 2
      && ('h' in f <==> c.hours > 0)
      && (f[|f| - 1] == 'm' <==> c.hours > 0)
      && (f[|f| - 1] == 's' <==> c.hours <= 0)
      && (c.hours <= 0 ==> ('m' in f <==> c.minutes > 0))
  {
    var c := Decompose(ms);
    NoLetterInNumber(c.hours, 'h');
    NoLetterInNumber(c.minutes, 'h');
    NoLetterInNumber(c.seconds, 'h');
    NoLetterInNumber(c.minutes, 'm');
    NoLetterInNumber(c.seconds, 'm');
    var f := FormatTime(ms);
    if c.hours > 0 {
      var a := Text.IntToString(c.hours);
      assert f == a + ['h'] + " " + Text.IntToString(c.minutes) + "m";
      assert f[|a|] == 'h';
    } else if c.minutes > 0 {
      var a := Text.IntToString(c.minutes);
      assert f == a + ['m'] + " " + Text.IntToString(c.seconds) + "s";
      assert f[|a|] == 'm';
      assert 'h' !in " " && 'h' !in "s";
    } else {
      assert 'h' !in "s" && 'm' !in "s";
    }
  }

  /** Within the first hour the display tells whole seconds apart: two non-negative durations
      under an hour that display alike have the same number of whole seconds. */
  lemma FormatTimeInjectiveUnderHour(a: real, b: real)
    requires a >= 0.0 && b >= 0.0 && Decompose(a).hours == 0 && Decompose(b).hours == 0
    requires FormatTime(a) == FormatTime(b)
    ensures (a / 1000.0).Floor == (b / 1000.0).Floor
  {
    var ca, cb := Decompose(a), Decompose(b);
    DecomposeFacts(a);
    DecomposeFacts(b);
    FormatTimeShape(a);
    FormatTimeShape(b);
    assert (ca.minutes > 0) == (cb.minutes > 0);
    var sa, sb := Text.NatToString(ca.seconds), Text.NatToString(cb.seconds);
    if ca.minutes > 0 {
      var ma, mb := Text.NatToString(ca.minutes), Text.NatToString(cb.minutes);
      var ua, ub := " " + sa + "s", " " + sb + "s";
      MinutesShape(a);
      MinutesShape(b);
      NoLetterInNumber(ca.minutes, 'm');
      NoLetterInNumber(cb.minutes, 'm');
      SplitAtMarker(ma, mb, ua, ub, 'm');
      assert sa == ua[1..|sa| + 1];
      assert sb == ub[1..|sb| + 1];
      Text.NatToStringInjective(ca.minutes, cb.minutes);
    } else {
      assert FormatTime(a) == sa + "s" && FormatTime(b) == sb + "s";
      assert sa == (sa + "s")[..|sa|];
      assert sb == (sb + "s")[..|sb|];
    }
    Text.NatToStringInjective(ca.seconds, cb.seconds);
  }

  /** Past the first hour the seconds are dropped: two durations in the same whole minute
      display alike. */
  lemma FormatTimeDropsSeconds(a: real, b: real)
    requires a >= 0.0 && b >= 0.0 && Decompose(a).hours > 0
    requires (a / 1000.0).Floor / 60 == (b / 1000.0).Floor / 60
    ensures FormatTime(a) == FormatTime(b)
  {
    var sa, sb := (a / 1000.0).Floor, (b / 1000.0).Floor;
    WholeMinutes(sa);
    WholeMinutes(sb);
  }

  /** Hours and minutes within the hour depend only on the whole minutes. */
  lemma WholeMinutes(s: nat)
    ensures s / 3600 == (s / 60) / 60
    ensures JsRem(s, 3600) / 60 == (s / 60) % 60
  {
    var q, b := s / 60, s % 60;
    var h, m := q / 60, q % 60;
    assert s == 3600 * h + (60 * m + b);
    assert 0 <= 60 * m + b < 3600;
    assert s / 3600 == h;
    assert s % 3600 == 60 * m + b;
  }

  /** The "Mm Ss" display split at its first unit letter. */
  lemma MinutesShape(ms: real)
    requires ms >= 0.0 && Decompose(ms).hours <= 0 && Decompose(ms).minutes > 0
    ensures var c := Decompose(ms);
      FormatTime(ms)
      == Text.NatToString(c.minutes) + (['m'] + (" " + Text.NatToString(c.seconds) + "s"))
  {
    DecomposeFacts(ms);
    var c := Decompose(ms);
    var m, s := Text.NatToString(c.minutes), Text.NatToString(c.seconds);
    assert FormatTime(ms) == m + "m " + s + "s";
    assert "m " + s + "s" == ['m'] + (" " + s + "s");
  }

  /** Two digit strings each followed by the same marker can only be split in one way. */
  lemma SplitAtMarker(x: string, y: string, u: string, v: string, c: char)
    requires c !in x && c !in y
    requires x + ([c] + u) == y + ([c] + v)
    ensures x == y && u == v
  {
    MarkerFirst(x, u, c);
    MarkerFirst(y, v, c);
    assert |x| == |y|;
    assert x == (x + ([c] + u))[..|x|];
    assert u == (x + ([c] + u))[|x| + 1..];
  }

  /** The marker after `x` is the first one. */
  lemma MarkerFirst(x: string, u: string, c: char)
    requires c !in x
    ensures (x + ([c] + u))[|x|] == c
    ensures forall k :: 0 <= k < |x| ==> (x + ([c] + u))[k] != c
  {
    assert forall k :: 0 <= k < |x| ==> (x + ([c] + u))[k] == x[k];
  }

  /** The best-time card: the record is kept in seconds and scaled to milliseconds before
      formatting, so the parts add back up to the recorded whole seconds. */
  function BestTimeLabel(bestSurvivalTime: real): string
  {
    FormatTime(bestSurvivalTime * 1000.0)
  }

  lemma BestTimeLabelSeconds(bestSurvivalTime: real)
    requires bestSurvivalTime >= 0.0
    ensures var c := Decompose(bestSurvivalTime * 1000.0);
      c.hours * 3600 + c.minutes * 60 + c.seconds == bestSurvivalTime.Floor
    ensures BestTimeLabel(bestSurvivalTime) == FormatTime(bestSurvivalTime * 1000.0)
  {
    DecomposeFacts(bestSurvivalTime * 1000.0);
    assert bestSurvivalTime * 1000.0 / 1000.0 == bestSurvivalTime;
  }
}
