/** The ultrasonic distance filter of `get_distance` (src/main.py): one echo reading per
    call, with a failed read replaced by a "far" sentinel, pushed into a five-slot FIFO
    history whose arithmetic mean is the distance the monitor acts on. */
module DistanceFilter {

  /** Outcome of one echo measurement: the pulse width in microseconds as the
      pulse-timing primitive reports it (a timeout comes back as a value <= 0), or a
      read that raised `OSError`. */
  datatype Echo = Pulse(us: int) | ReadError

  /** Number of raw readings averaged. */
  const HISTORY_LEN: nat := 5

  /** Sentinel distance (cm) for "nothing detected"; the history starts full of it. */
  const FAR: real := 500.0

  const INITIAL_HISTORY: seq<real> := [FAR, FAR, FAR, FAR, FAR]

  /** Distance in cm of an echo of `us` microseconds: sound covers 0.0343 cm per
      microsecond and travels to the object and back. */
  function EchoDistance(us: int): (d: real)
    ensures us > 0 ==> d > 0.0
    ensures us < 4665 ==> d < 80.0
  {
    us as real * 0.0343 / 2.0
  }

  /** The raw reading one measurement contributes to the history. */
  function Reading(e: Echo): (r: real)
    ensures r > 0.0
    ensures r < FAR ==> e.Pulse? && e.us > 0
    ensures !(e.Pulse? && e.us > 0) ==> r == FAR
    ensures e.Pulse? && e.us > 0 ==> r == EchoDistance(e.us)
  {
    match e
    case Pulse(d) => if d > 0 then EchoDistance(d) else FAR
    case ReadError => FAR
  }

  /** The raw readings of a sequence of measurements, in order. */
  function Readings(es: seq<Echo>): (rs: seq<real>)
    ensures |rs| == |es|
  {
    seq(|es|, i requires 0 <= i < |es| => Reading(es[i]))
  }

  lemma ReadingsSnoc(es: seq<Echo>, e: Echo)
    ensures Readings(es + [e]) == Readings(es) + [Reading(e)]
  {
  }

  /** The history after the raw readings `raw` have been pushed into the initial one,
      oldest first. */
  function Window(raw: seq<real>): (w: seq<real>)
    ensures |w| == HISTORY_LEN
    ensures forall k :: 0 <= k < HISTORY_LEN ==>
      w[k] == if |raw| + k >= HISTORY_LEN then raw[|raw| + k - HISTORY_LEN] else FAR
  {
    (INITIAL_HISTORY + raw)[|raw|..]
  }

  /** Pushing a reading drops the oldest slot and appends the new reading last. */
  lemma WindowPush(raw: seq<real>, x: real)
    ensures Window(raw + [x]) == Window(raw)[1..] + [x]
  {
  }

  function Sum(h: seq<real>): real {
    if h == [] then 0.0 else h[0] + Sum(h[1..])
  }

  /** `sum(history) / len(history)`. */
  function Mean(h: seq<real>): real
    requires |h| > 0
  {
    Sum(h) / |h| as real
  }

  lemma {:induction false} SumAtLeast(h: seq<real>, c: real)
    requires forall i :: 0 <= i < |h| ==> h[i] >= c
    ensures Sum(h) >= |h| as real * c
  {
    if h != [] {
      SumAtLeast(h[1..], c);
    }
  }

  lemma {:induction false} SumBelow(h: seq<real>, c: real)
    requires h != []
    requires forall i :: 0 <= i < |h| ==> h[i] < c
    ensures Sum(h) < |h| as real * c
  {
    if |h| > 1 {
      SumBelow(h[1..], c);
    }
  }

  /** The mean is below `c` only if some buffered reading is, and is below `c`
      whenever every buffered reading is. */
  lemma MeanBelow(h: seq<real>, c: real)
    requires |h| > 0
    ensures Mean(h) < c ==> exists i :: 0 <= i < |h| && h[i] < c
    ensures (forall i :: 0 <= i < |h| ==> h[i] < c) ==> Mean(h) < c
  {
    var n := |h| as real;
    if forall i :: 0 <= i < |h| ==> h[i] >= c {
      SumAtLeast(h, c);
      assert Sum(h) / n >= c;
    }
    if forall i :: 0 <= i < |h| ==> h[i] < c {
      SumBelow(h, c);
      assert Sum(h) / n < c;
    }
  }

  /** At power-on the filtered distance is the sentinel, so the monitor starts "away". */
  lemma InitialMeanIsFar()
    ensures Mean(Window([])) == FAR
  {
  }

  /** A filtered distance nearer than the sentinel needs a successful echo among the last
      five measurements: timeouts and read errors alone never bring the average in. */
  lemma NearMeanNeedsEcho(es: seq<Echo>, c: real)
    requires c <= FAR
    requires Mean(Window(Readings(es))) < c
    ensures exists i :: 0 <= i < |es| && i + HISTORY_LEN >= |es| && es[i].Pulse? && es[i].us > 0
  {
    var raw := Readings(es);
    var w := Window(raw);
    MeanBelow(w, c);
    var k :| 0 <= k < |w| && w[k] < c;
    var i := |raw| + k - HISTORY_LEN;
    assert es[i].Pulse? && es[i].us > 0;
  }

  lemma SumOfFive(a: real, b: real, c: real, d: real, e: real)
    ensures Sum([a, b, c, d, e]) == a + b + c + d + e
  {
    assert [a, b, c, d, e][1..] == [b, c, d, e];
    assert [b, c, d, e][1..] == [c, d, e];
    assert [c, d, e][1..] == [d, e];
    assert [d, e][1..] == [e];
    assert [e][1..] == [];
    assert Sum([e]) == e;
    assert Sum([d, e]) == d + e;
    assert Sum([c, d, e]) == c + d + e;
    assert Sum([b, c, d, e]) == b + c + d + e;
  }

  /** The filtered distance after `n` equal raw readings `x` from power-on: the sentinels
      still in the history pull the mean up until the fifth reading. */
  lemma ConstantReadingsMean(n: nat, x: real)
    ensures Mean(Window(seq(n, _ => x))) == (if n >= HISTORY_LEN then x else (n as real * x + (5 - n) as real * FAR) / 5.0)
  {
    var w := Window(seq(n, _ => x));
    if n >= HISTORY_LEN {
      assert w == [x, x, x, x, x];
      SumOfFive(x, x, x, x, x);
    } else if n == 4 {
      assert w == [FAR, x, x, x, x];
      SumOfFive(FAR, x, x, x, x);
    } else if n == 3 {
      assert w == [FAR, FAR, x, x, x];
      SumOfFive(FAR, FAR, x, x, x);
    } else if n == 2 {
      assert w == [FAR, FAR, FAR, x, x];
      SumOfFive(FAR, FAR, FAR, x, x);
    } else if n == 1 {
      assert w == [FAR, FAR, FAR, FAR, x];
      SumOfFive(FAR, FAR, FAR, FAR, x);
    } else {
      assert w == [FAR, FAR, FAR, FAR, FAR];
      SumOfFive(FAR, FAR, FAR, FAR, FAR);
    }
  }
}
