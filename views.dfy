/** Which screen one iteration of `run` (src/main.py) draws, and the numbers and text it
    shows: the alarm, the dashboard, the countdown (`draw_countdown_view`) or the away
    screen. Pixel positions and drawing calls are not part of the model. */
module Views {
  import opened TimeFormat
  import opened Session

  /** A screen and the text it shows. */
  datatype View =
    | Alarm(inverted: bool)
    | Dashboard(awayTime: string, sits: string)
    | Countdown(timer: string, barWidth: nat)
    | Away(total: string)

  /** `"{:02d}"`: decimal text, zero-padded to two digits. */
  function Pad2(n: nat): (r: string)
    ensures AllDigits(r) && |r| >= 2 && ParseNat(r) == n
    ensures n < 100 ==> |r| == 2
  {
    ParseNatToString(n);
    if n < 10 then "0" + NatToString(n) else NatToString(n)
  }

  /** The countdown timer text "MM:SS" of `remaining` seconds. */
  function CountdownText(remaining: nat): string {
    Pad2(remaining / 60) + ":" + Pad2(remaining % 60)
  }

  /** Reads "<digits>:<two digits>" back as minutes and seconds. */
  function ParseClock(t: string): Option<(nat, nat)> {
    var i := DigitRun(t);
    if i == 0 || |t| != i + 3 || t[i] != ':' || !AllDigits(t[i + 1..]) then None
    else Some((ParseNat(t[..i]), ParseNat(t[i + 1..])))
  }

  /** `t` reads back as whole minutes and seconds 0..59 that add up to `remaining`. */
  predicate ShowsClock(t: string, remaining: nat) {
    match ParseClock(t)
    case Some((m, s)) => m * 60 + s == remaining && s < 60
    case None => false
  }

  /** The timer text reads back as the remaining time, split into minutes and seconds. */
  lemma CountdownTextReadsBack(remaining: nat)
    ensures ParseClock(CountdownText(remaining)) == Some((remaining / 60, remaining % 60))
    ensures ShowsClock(CountdownText(remaining), remaining)
  {
    var a, b := Pad2(remaining / 60), Pad2(remaining % 60);
    var t := a + ":" + b;
    assert t == a + (":" + b);
    DigitRunOfDigitsThen(a, ":" + b);
    assert t[..|a|] == a;
    assert t[|a| + 1..] == b;
  }

  /** Filled width of the 100-pixel progress bar: the whole part of
      `100 * max(0, remaining / TARGET_TIME)`. */
  function BarWidth(remaining: int): (w: nat)
    ensures w * TARGET_TIME <= 100 * (if remaining > 0 then remaining else 0) < (w + 1) * TARGET_TIME
    ensures remaining <= TARGET_TIME ==> w <= 100
  {
    if remaining <= 0 then 0 else (100 * remaining) / TARGET_TIME
  }

  /** The bar shrinks as time runs out: never wider for less remaining time. */
  lemma BarWidthMonotone(r1: int, r2: int)
    requires r1 <= r2
    ensures BarWidth(r1) <= BarWidth(r2)
  {
  }

  /** Away time as `format_time` receives it: whole seconds of the accumulated tenths. */
  function AwaySeconds(s: State): nat {
    s.awayTenths / 10
  }

  /** Flash phase of the alarm screen, `int(current_time * 2) % 2` on the whole-second
      clock: always 0, so the alarm is always drawn in its first, inverted, phase (white
      background, black text and cup) and never alternates. */
  function FlashPhase(now: int): (p: int)
    ensures p == 0
  {
    (now * 2) % 2
  }

  /** The screen drawn after the state machine has advanced to `s` at second `now`. */
  function SelectView(s: State, now: int, showDashboard: bool): View {
    if s.isSitting then
      var remaining := Remaining(s, now);
      if remaining <= 0 then Alarm(FlashPhase(now) == 0)
      else if showDashboard then Dashboard(FormatTime(AwaySeconds(s)), "Sits: " + NatToString(s.sessionCount))
      else Countdown(CountdownText(remaining), BarWidth(remaining))
    else if showDashboard then Dashboard(FormatTime(AwaySeconds(s)), "Sits: " + NatToString(s.sessionCount))
    else Away("Total: " + FormatTime(AwaySeconds(s)))
  }

  /** The alarm takes precedence over the dashboard, the dashboard over the countdown and
      away screens, and the last two follow the sitting flag. */
  lemma ViewChoice(s: State, now: int, showDashboard: bool)
    ensures SelectView(s, now, showDashboard).Alarm? <==> InAlarm(s, now)
    ensures SelectView(s, now, showDashboard).Dashboard? <==> showDashboard && !InAlarm(s, now)
    ensures SelectView(s, now, showDashboard).Countdown? <==> !showDashboard && s.isSitting && !InAlarm(s, now)
    ensures SelectView(s, now, showDashboard).Away? <==> !showDashboard && !s.isSitting
  {
  }

  /** What each screen shows: the alarm always its inverted phase, the dashboard the away time and the session count, the
      countdown the remaining minutes and seconds (always positive there) with a bar
      that is at most full once the session has started, the away screen the away time. */
  lemma ViewShows(s: State, now: int, showDashboard: bool)
    ensures match SelectView(s, now, showDashboard)
      case Alarm(inverted) => s.isSitting && Remaining(s, now) <= 0 && inverted
      case Dashboard(away, sits) =>
        ShowsDuration(away, AwaySeconds(s)) && |sits| > 6 && sits[..6] == "Sits: " &&
        AllDigits(sits[6..]) && ParseNat(sits[6..]) == s.sessionCount
      case Countdown(timer, w) =>
        var r := Remaining(s, now);
        r > 0 && ShowsClock(timer, r) && w * TARGET_TIME <= 100 * r && (now >= s.sessionStart ==> w <= 100)
      case Away(total) => |total| > 7 && total[..7] == "Total: " && ShowsDuration(total[7..], AwaySeconds(s))
  {
    var r := Remaining(s, now);
    var sits := "Sits: " + NatToString(s.sessionCount);
    assert sits[6..] == NatToString(s.sessionCount);
    ParseNatToString(s.sessionCount);
    if s.isSitting && r > 0 {
      CountdownTextReadsBack(r);
    }
    FormatTimeReadsBack(AwaySeconds(s));
    var total := "Total: " + FormatTime(AwaySeconds(s));
    assert total[7..] == FormatTime(AwaySeconds(s));
  }
}
