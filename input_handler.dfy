/** Debounced key handling of `handle_inputs` (src/main.py). Each key is polled once per
    loop iteration; its line is active-low. The millisecond tick counter difference
    (`ticks_diff`) is taken as plain integer subtraction. */
module InputHandler {

  /** Minimum time in milliseconds between two accepted presses of one key (exclusive). */
  const DEBOUNCE_MS: int := 300

  /** A key event fires when its line reads 0 and strictly more than the debounce
      interval has passed since that key's last accepted press. */
  predicate Fires(level: int, nowMs: int, lastPress: int) {
    level == 0 && nowMs - lastPress > DEBOUNCE_MS
  }

  /** One poll of a key: the millisecond tick count and the level read from the line. */
  datatype Poll = Poll(nowMs: int, level: int)

  /** Times of the presses accepted over successive polls of one key, given the time
      of its last accepted press before the first poll: what repeated calls of
      `SmartMonitor.HandleInputs` (monitor.dfy) accept for that key, each call applying
      `Fires` to the key's level and last-press field. */
  function Accepted(last: int, polls: seq<Poll>): seq<int>
    decreases |polls|
  {
    if polls == [] then []
    else if Fires(polls[0].level, polls[0].nowMs, last) then [polls[0].nowMs] + Accepted(polls[0].nowMs, polls[1..])
    else Accepted(last, polls[1..])
  }

  /** The key's last-accepted-press field after the polls. */
  function LastPress(last: int, polls: seq<Poll>): int
    decreases |polls|
  {
    if polls == [] then last
    else if Fires(polls[0].level, polls[0].nowMs, last) then LastPress(polls[0].nowMs, polls[1..])
    else LastPress(last, polls[1..])
  }

  /** Accepted presses are more than the debounce interval apart, from the press
      before the polls and from each other; the last one is the key's new
      last-press time. */
  lemma {:induction false} AcceptedSpaced(last: int, polls: seq<Poll>)
    ensures var a := Accepted(last, polls);
      (|a| > 0 ==> a[0] - last > DEBOUNCE_MS) &&
      (forall k :: 0 <= k < |a| - 1 ==> a[k + 1] - a[k] > DEBOUNCE_MS) &&
      LastPress(last, polls) == (if |a| == 0 then last else a[|a| - 1])
    decreases |polls|
  {
    if polls != [] {
      var p := polls[0];
      if Fires(p.level, p.nowMs, last) {
        AcceptedSpaced(p.nowMs, polls[1..]);
      } else {
        AcceptedSpaced(last, polls[1..]);
      }
    }
  }

  /** Some poll read the line as pressed at time `t`. */
  predicate PressedAt(polls: seq<Poll>, t: int) {
    exists i :: 0 <= i < |polls| && polls[i].level == 0 && polls[i].nowMs == t
  }

  /** Every accepted press is a poll at which the line read 0, and there are never
      more accepted presses than polls. */
  lemma {:induction false} AcceptedArePresses(last: int, polls: seq<Poll>)
    ensures var a := Accepted(last, polls);
      |a| <= |polls| && forall k :: 0 <= k < |a| ==> PressedAt(polls, a[k])
    decreases |polls|
  {
    if polls != [] {
      var p := polls[0];
      var fires := Fires(p.level, p.nowMs, last);
      var next := if fires then p.nowMs else last;
      AcceptedArePresses(next, polls[1..]);
      var a := Accepted(last, polls);
      var tail := Accepted(next, polls[1..]);
      assert a == if fires then [p.nowMs] + tail else tail;
      forall k | 0 <= k < |a|
        ensures PressedAt(polls, a[k])
      {
        if fires && k == 0 {
          assert polls[0].level == 0 && polls[0].nowMs == a[k];
        } else {
          var j := if fires then k - 1 else k;
          assert a[k] == tail[j];
          assert PressedAt(polls[1..], tail[j]);
          var i :| 0 <= i < |polls[1..]| && polls[1..][i].level == 0 && polls[1..][i].nowMs == tail[j];
          assert polls[i + 1].level == 0 && polls[i + 1].nowMs == a[k];
        }
      }
    }
  }

  /** Two presses of one key: the second is accepted only when it comes strictly more
      than 300 ms after the first, so presses 300 ms or less apart make one event. */
  lemma TwoPresses(last: int, t1: int, t2: int)
    requires t1 - last > DEBOUNCE_MS
    ensures Accepted(last, [Poll(t1, 0), Poll(t2, 0)]) == if t2 - t1 > DEBOUNCE_MS then [t1, t2] else [t1]
  {
    assert [Poll(t1, 0), Poll(t2, 0)][1..] == [Poll(t2, 0)];
    assert [Poll(t2, 0)][1..] == [];
    if t2 - t1 > DEBOUNCE_MS {
      assert Accepted(t1, [Poll(t2, 0)]) == [t2];
    } else {
      assert Accepted(t1, [Poll(t2, 0)]) == [];
    }
  }
}
