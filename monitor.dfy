/** The `SmartMonitor` object of src/main.py: the fields one loop iteration updates and
    the three steps of the iteration (keys, distance filter, state machine with the
    choice of screen). The hardware reads are parameters: the millisecond tick count and
    the two key levels for the keys, the outcome of the echo measurement for the filter,
    the wall-clock second for the state machine. */
module Monitor {
  import opened TimeFormat
  import opened DistanceFilter
  import opened InputHandler
  import opened Session
  import opened Views

  class SmartMonitor {
    /** The five most recent raw readings, oldest first. */
    var history: seq<real>
    /** Accumulated away time in tenths of a second. */
    var totalAwayTenths: nat
    var sessionCount: nat
    /** Wall-clock second at which the current session (or its last reset) began. */
    var currentSessionStart: int
    var isSitting: bool
    var showDashboard: bool
    /** Millisecond tick counts of the last accepted press of each key. */
    var lastKey1Press: int
    var lastKey0Press: int

    /** Every echo measurement taken so far, oldest first. */
    ghost var echoes: seq<Echo>

    /** The history is the FIFO window of the readings of all measurements so far. */
    ghost predicate Valid()
      reads this
    {
      history == Window(Readings(echoes))
    }

    /** The session fields as a state of the sitting/away state machine. */
    function Metrics(): State
      reads this
    {
      State(isSitting, sessionCount, currentSessionStart, totalAwayTenths)
    }

    constructor ()
      ensures Valid() && echoes == [] && history == INITIAL_HISTORY
      ensures Metrics() == INITIAL
      ensures !showDashboard && lastKey1Press == 0 && lastKey0Press == 0
    {
      history := INITIAL_HISTORY;
      totalAwayTenths := 0;
      sessionCount := 0;
      currentSessionStart := 0;
      isSitting := false;
      showDashboard := false;
      lastKey1Press := 0;
      lastKey0Press := 0;
      echoes := [];
    }

    /** `get_distance` without the trigger pulse: one measurement's reading is pushed into
        the history (oldest dropped) and the mean of the history is returned. */
    method FilterStep(echo: Echo) returns (dist: real)
      requires Valid()
      modifies this`history, this`echoes
      ensures Valid() && echoes == old(echoes) + [echo]
      ensures |history| == HISTORY_LEN && history == old(history)[1..] + [Reading(echo)]
      ensures dist == Mean(history)
    {
      var reading: real;
      match echo {
        case Pulse(d) => reading := if d > 0 then EchoDistance(d) else FAR;
        case ReadError => reading := FAR;
      }
      ReadingsSnoc(echoes, echo);
      WindowPush(Readings(echoes), reading);
      history := history[1..] + [reading];
      echoes := echoes + [echo];
      dist := Mean(history);
    }

    /** `handle_inputs`: key1 toggles the dashboard, key0 restarts the session timer at
        wall-clock second `nowSec`; each only on a debounced press. */
    method HandleInputs(nowMs: int, nowSec: int, key0: int, key1: int)
      modifies this`showDashboard, this`lastKey1Press, this`currentSessionStart, this`lastKey0Press
      ensures var fire1 := Fires(key1, nowMs, old(lastKey1Press));
        showDashboard == (if fire1 then !old(showDashboard) else old(showDashboard)) &&
        lastKey1Press == (if fire1 then nowMs else old(lastKey1Press))
      ensures var fire0 := Fires(key0, nowMs, old(lastKey0Press));
        Metrics() == (if fire0 then Reset(old(Metrics()), nowSec) else old(Metrics())) &&
        lastKey0Press == (if fire0 then nowMs else old(lastKey0Press))
    {
      if key1 == 0 {
        if nowMs - lastKey1Press > DEBOUNCE_MS {
          showDashboard := !showDashboard;
          lastKey1Press := nowMs;
        }
      }
      if key0 == 0 {
        if nowMs - lastKey0Press > DEBOUNCE_MS {
          currentSessionStart := nowSec;
          lastKey0Press := nowMs;
        }
      }
    }

    /** The main logic of one iteration on the filtered distance `dist` at wall-clock
        second `now`, returning the screen it draws. */
    method Tick(dist: real, now: int) returns (view: View)
      modifies this`isSitting, this`currentSessionStart, this`sessionCount, this`totalAwayTenths
      ensures Metrics() == Step(old(Metrics()), dist, now)
      ensures view == SelectView(Metrics(), now, showDashboard)
    {
      if dist < SIT_THRESHOLD {
        if !isSitting {
          isSitting := true;
          currentSessionStart := now;
          sessionCount := sessionCount + 1;
        }
        var elapsed := now - currentSessionStart;
        var remaining := TARGET_TIME - elapsed;
        if remaining <= 0 {
          view := Alarm(FlashPhase(now) == 0);
        } else if showDashboard {
          view := Dashboard(FormatTime(totalAwayTenths / 10), "Sits: " + NatToString(sessionCount));
        } else {
          view := Countdown(CountdownText(remaining), BarWidth(remaining));
        }
      } else {
        if isSitting {
          isSitting := false;
        }
        totalAwayTenths := totalAwayTenths + AWAY_TICK;
        if showDashboard {
          view := Dashboard(FormatTime(totalAwayTenths / 10), "Sits: " + NatToString(sessionCount));
        } else {
          view := Away("Total: " + FormatTime(totalAwayTenths / 10));
        }
      }
    }

    /** One pass of the main loop: keys first, then the distance filter, then the state
        machine, so a toggle or reset shows in the same frame. */
    method Iteration(nowMs: int, resetSec: int, key0: int, key1: int, echo: Echo, now: int) returns (view: View)
      requires Valid()
      modifies this
      ensures Valid() && echoes == old(echoes) + [echo]
      ensures var fire0 := Fires(key0, nowMs, old(lastKey0Press));
        var afterKeys := if fire0 then Reset(old(Metrics()), resetSec) else old(Metrics());
        Metrics() == Step(afterKeys, Mean(Window(Readings(echoes))), now) &&
        lastKey0Press == (if fire0 then nowMs else old(lastKey0Press))
      ensures var fire1 := Fires(key1, nowMs, old(lastKey1Press));
        showDashboard == (if fire1 then !old(showDashboard) else old(showDashboard)) &&
        lastKey1Press == (if fire1 then nowMs else old(lastKey1Press))
      ensures view == SelectView(Metrics(), now, showDashboard)
    {
      HandleInputs(nowMs, resetSec, key0, key1);
      var dist := FilterStep(echo);
      view := Tick(dist, now);
    }
  }

  /** The state machine's inputs when the raw readings `raw` pass through the distance
      filter from power-on, one per iteration, at the wall-clock seconds `times`: what
      `Iteration` hands to `Tick`. */
  function Filtered(raw: seq<real>, times: seq<int>): (xs: seq<Sample>)
    requires |times| == |raw|
    ensures |xs| == |raw|
    ensures forall i :: 0 <= i < |raw| ==> xs[i] == Sample(Mean(Window(raw[..i + 1])), times[i])
  {
    seq(|raw|, i requires 0 <= i < |raw| => Sample(Mean(Window(raw[..i + 1])), times[i]))
  }

  /** From power-on, 101 iterations ten to a second with a raw reading of 40 cm each time.
      The sentinels in the history keep the filtered distance at 80 cm or more for the
      first four iterations, so the monitor stays away for those and accrues four ticks
      of away time. It is seated from the fifth iteration on, with one session started at
      second 0. The alarm is on at second 10 (the 101st iteration) and not at second 9. */
  lemma FortyCentimetreScenario()
    ensures var xs := Filtered(seq(101, _ => 40.0), seq(101, i => i / 10));
      xs[0].dist == 408.0 && xs[1].dist == 316.0 && xs[2].dist == 224.0 && xs[3].dist == 132.0 &&
      (forall i :: 4 <= i < 101 ==> xs[i].dist == 40.0) &&
      (forall k :: 1 <= k <= 4 ==> !Run(INITIAL, xs[..k]).isSitting) &&
      (forall k :: 5 <= k <= 101 ==> Run(INITIAL, xs[..k]).isSitting) &&
      var s := Run(INITIAL, xs);
      s.sessionCount == 1 && s.sessionStart == 0 && s.awayTenths == 4 && InAlarm(s, 10) && !InAlarm(s, 9)
  {
    var raw := seq(101, _ => 40.0);
    var xs := Filtered(raw, seq(101, i => i / 10));
    forall i | 0 <= i < 101
      ensures xs[i].dist == (if i >= 4 then 40.0 else ((i + 1) as real * 40.0 + (4 - i) as real * FAR) / 5.0)
    {
      assert raw[..i + 1] == seq(i + 1, _ => 40.0);
      ConstantReadingsMean(i + 1, 40.0);
    }
    forall k | 1 <= k <= 101
      ensures Run(INITIAL, xs[..k]).isSitting == (k >= 5)
    {
      RunMetrics(INITIAL, xs[..k]);
    }
    RunSplit(INITIAL, xs, 4);
    StayAway(INITIAL, xs[..4]);
    var s4 := Run(INITIAL, xs[..4]);
    assert s4 == State(false, 0, 0, 4);
    SitDown(s4, xs[4..], 10);
    SitDown(s4, xs[4..], 9);
  }
}
