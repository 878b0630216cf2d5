/** The sitting/away state machine of one iteration of `run` (src/main.py) and what a
    sequence of iterations does to the session metrics. Wall-clock time is whole seconds
    (`time.time()`); away time is kept in tenths of a second, one tenth per away tick. */
module Session {

  /** Filtered distance (cm) below which the person counts as seated. */
  const SIT_THRESHOLD: real := 80.0

  /** Target sitting time in seconds before the alarm. */
  const TARGET_TIME: int := 10

  /** Away time added per away iteration, in tenths of a second (the loop sleeps 0.1 s). */
  const AWAY_TICK: nat := 1

  /** The fields the main loop updates: sitting flag, number of sittings, start of the
      current session (seconds) and accumulated away time (tenths of a second). */
  datatype State = State(isSitting: bool, sessionCount: nat, sessionStart: int, awayTenths: nat)

  const INITIAL: State := State(false, 0, 0, 0)

  /** One iteration of the main logic on the filtered distance `dist` read at `now`. */
  function Step(s: State, dist: real, now: int): (t: State)
    ensures t.isSitting == (dist < SIT_THRESHOLD)
    ensures t.sessionCount == (if t.isSitting && !s.isSitting then s.sessionCount + 1 else s.sessionCount)
    ensures t.sessionStart == (if t.isSitting && !s.isSitting then now else s.sessionStart)
    ensures t.awayTenths == (if t.isSitting then s.awayTenths else s.awayTenths + AWAY_TICK)
  {
    if dist < SIT_THRESHOLD then
      if !s.isSitting then s.(isSitting := true, sessionStart := now, sessionCount := s.sessionCount + 1)
      else s
    else
      s.(isSitting := false, awayTenths := s.awayTenths + AWAY_TICK)
  }

  /** The manual reset key: restart the session timer, nothing else. */
  function Reset(s: State, now: int): (t: State)
    ensures Remaining(t, now) == TARGET_TIME
    ensures t.isSitting == s.isSitting && t.sessionCount == s.sessionCount && t.awayTenths == s.awayTenths
  {
    s.(sessionStart := now)
  }

  /** Seconds left of the target sitting time. */
  function Remaining(s: State, now: int): (r: int)
    ensures r <= 0 <==> now - s.sessionStart >= TARGET_TIME
    ensures now >= s.sessionStart ==> r <= TARGET_TIME
  {
    TARGET_TIME - (now - s.sessionStart)
  }

  /** The alarm is a condition of the sitting state, not a state of its own. */
  predicate InAlarm(s: State, now: int) {
    s.isSitting && Remaining(s, now) <= 0
  }

  /** One iteration's inputs: the filtered distance and the wall-clock second. */
  datatype Sample = Sample(dist: real, now: int)

  /** The state after the iterations `xs`, in order. */
  function Run(s: State, xs: seq<Sample>): State
    decreases |xs|
  {
    if xs == [] then s else Run(Step(s, xs[0].dist, xs[0].now), xs[1..])
  }

  /** Number of AWAY->SITTING edges along `xs`, starting sitting or not. */
  function Arrivals(wasSitting: bool, xs: seq<Sample>): nat
    decreases |xs|
  {
    if xs == [] then 0
    else (if xs[0].dist < SIT_THRESHOLD && !wasSitting then 1 else 0) + Arrivals(xs[0].dist < SIT_THRESHOLD, xs[1..])
  }

  /** Number of iterations along `xs` on which nobody was seated. */
  function AwayTicks(xs: seq<Sample>): nat
    decreases |xs|
  {
    if xs == [] then 0 else (if xs[0].dist < SIT_THRESHOLD then 0 else 1) + AwayTicks(xs[1..])
  }

  /** Over any run, the session count grows by exactly the AWAY->SITTING edges, the away
      time by one tick per away iteration, so neither ever decreases; and the sitting
      flag reflects the last distance. */
  lemma {:induction false} RunMetrics(s: State, xs: seq<Sample>)
    ensures Run(s, xs).sessionCount == s.sessionCount + Arrivals(s.isSitting, xs)
    ensures Run(s, xs).awayTenths == s.awayTenths + AwayTicks(xs) * AWAY_TICK
    ensures xs != [] ==> Run(s, xs).isSitting == (xs[|xs| - 1].dist < SIT_THRESHOLD)
    decreases |xs|
  {
    if xs != [] {
      RunMetrics(Step(s, xs[0].dist, xs[0].now), xs[1..]);
    }
  }

  /** While someone stays seated nothing changes: no new session, no away time, the
      session start is kept. */
  lemma {:induction false} StaySeated(s: State, xs: seq<Sample>)
    requires s.isSitting
    requires forall i :: 0 <= i < |xs| ==> xs[i].dist < SIT_THRESHOLD
    ensures Run(s, xs) == s
    decreases |xs|
  {
    if xs != [] {
      StaySeated(s, xs[1..]);
    }
  }

  /** Sitting down and staying: one new session, started at the first near sample, and
      the alarm is on at second `t` exactly when the target time has elapsed. */
  lemma SitDown(s: State, xs: seq<Sample>, t: int)
    requires !s.isSitting && xs != []
    requires forall i :: 0 <= i < |xs| ==> xs[i].dist < SIT_THRESHOLD
    ensures Run(s, xs) == s.(isSitting := true, sessionStart := xs[0].now, sessionCount := s.sessionCount + 1)
    ensures InAlarm(Run(s, xs), t) <==> t - xs[0].now >= TARGET_TIME
  {
    var s1 := Step(s, xs[0].dist, xs[0].now);
    StaySeated(s1, xs[1..]);
  }

  /** Once the alarm is on it stays on while the person remains seated, time does not go
      backwards and no reset is accepted; a reset accepted at that later second turns it
      off, and the same frame shows the countdown again. */
  lemma AlarmPersists(s: State, now: int, dist: real, later: int)
    requires InAlarm(s, now)
    requires dist < SIT_THRESHOLD && later >= now
    ensures InAlarm(Step(s, dist, later), later)
    ensures !InAlarm(Step(Reset(s, later), dist, later), later)
  {
  }

  /** Running `xs` is running a prefix of it, then the rest. */
  lemma {:induction false} RunSplit(s: State, xs: seq<Sample>, k: nat)
    requires k <= |xs|
    ensures Run(s, xs) == Run(Run(s, xs[..k]), xs[k..])
    decreases k
  {
    if k > 0 {
      assert xs[..k][1..] == xs[1..][..k - 1];
      assert xs[k..] == xs[1..][k - 1..];
      RunSplit(Step(s, xs[0].dist, xs[0].now), xs[1..], k - 1);
    }
  }

  /** While nobody is seated, each iteration adds one tick of away time and nothing else
      changes. */
  lemma {:induction false} StayAway(s: State, xs: seq<Sample>)
    requires forall i :: 0 <= i < |xs| ==> xs[i].dist >= SIT_THRESHOLD
    ensures xs != [] ==> Run(s, xs) == s.(isSitting := false, awayTenths := s.awayTenths + |xs| * AWAY_TICK)
    ensures xs == [] ==> Run(s, xs) == s
    decreases |xs|
  {
    if xs != [] {
      StayAway(Step(s, xs[0].dist, xs[0].now), xs[1..]);
    }
  }

  /** A reset followed by a near reading on the same iteration: if the person was already
      seated, the countdown restarts from the reset's second (the full target when the
      reset and the state machine read the same second) and the session count is kept;
      if the person was away, sitting down starts the session at the state machine's
      second and the reset has no effect. */
  lemma ResetRestartsCountdown(s: State, resetSec: int, dist: real, now: int)
    requires dist < SIT_THRESHOLD
    ensures var t := Step(Reset(s, resetSec), dist, now);
      t.isSitting &&
      t.sessionCount == (if s.isSitting then s.sessionCount else s.sessionCount + 1) &&
      t.awayTenths == s.awayTenths &&
      Remaining(t, now) == TARGET_TIME - (now - (if s.isSitting then resetSec else now))
    ensures s.isSitting && resetSec == now ==> Remaining(Step(Reset(s, resetSec), dist, now), now) == TARGET_TIME
  {
  }
}
