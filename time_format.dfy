/** Decimal text and the two-tier duration format shown on the monitor's screens
    (`format_time` in src/main.py), together with readers that recover the numbers
    from the text, so that what is displayed can be stated as a round trip. */
module TimeFormat {

  datatype Option<T> = None | Some(value: T)

  predicate IsDigit(c: char) {
    '0' <= c <= '9'
  }

  predicate AllDigits(s: string) {
    forall i :: 0 <= i < |s| ==> IsDigit(s[i])
  }

  function DigitChar(d: nat): (c: char)
    requires d < 10
    ensures IsDigit(c) && c as int - '0' as int == d
  {
    ('0' as int + d) as char
  }

  /** Decimal text of `n` as Python's f-string interpolation writes a non-negative int. */
  function NatToString(n: nat): (s: string)
    ensures |s| > 0 && AllDigits(s)
    ensures s[0] == '0' <==> n == 0
    decreases n
  {
    if n < 10 then [DigitChar(n)] else NatToString(n / 10) + [DigitChar(n % 10)]
  }

  /** The value of a string of decimal digits (most significant first). */
  function ParseNat(s: string): nat
    requires AllDigits(s)
  {
    if s == [] then 0 else ParseNat(s[..|s| - 1]) * 10 + (s[|s| - 1] as int - '0' as int)
  }

  lemma {:induction false} ParseNatToString(n: nat)
    ensures ParseNat(NatToString(n)) == n
    decreases n
  {
    if n >= 10 {
      var s := NatToString(n / 10);
      ParseNatToString(n / 10);
      assert (s + [DigitChar(n % 10)])[..|s|] == s;
    }
  }

  /** Length of the run of digits at the head of `s`. */
  function DigitRun(s: string): (k: nat)
    ensures k <= |s|
    ensures forall i :: 0 <= i < k ==> IsDigit(s[i])
    ensures k < |s| ==> !IsDigit(s[k])
  {
    if s == [] || !IsDigit(s[0]) then 0 else 1 + DigitRun(s[1..])
  }

  lemma {:induction false} DigitRunOfDigitsThen(d: string, t: string)
    requires AllDigits(d)
    requires t == [] || !IsDigit(t[0])
    ensures DigitRun(d + t) == |d|
    decreases |d|
  {
    if d != [] {
      assert (d + t)[1..] == d[1..] + t;
      DigitRunOfDigitsThen(d[1..], t);
    }
  }

  /** What a formatted duration says: whole hours and minutes, or minutes and seconds. */
  datatype Shown = HoursMinutes(hours: nat, minutes: nat) | MinutesSeconds(minutes: nat, seconds: nat)

  /** `format_time`: "{h}h {m}m" once a whole hour is reached, "{m}m {s}s" otherwise. */
  function FormatTime(seconds: nat): string
  {
    var h := seconds / 3600;
    var m := (seconds % 3600) / 60;
    var s := seconds % 60;
    if h > 0 then NatToString(h) + "h " + NatToString(m) + "m"
    else NatToString(m) + "m " + NatToString(s) + "s"
  }

  /** Reads a text of the shape "<digits>h <digits>m" or "<digits>m <digits>s". */
  function ParseTime(t: string): Option<Shown>
  {
    var i := DigitRun(t);
    if i == 0 || |t| < i + 2 || t[i + 1] != ' ' then None
    else
      var rest := t[i + 2..];
      var j := DigitRun(rest);
      if j == 0 || |rest| != j + 1 then None
      else
        var a := ParseNat(t[..i]);
        var b := ParseNat(rest[..j]);
        if t[i] == 'h' && rest[j] == 'm' then Some(HoursMinutes(a, b))
        else if t[i] == 'm' && rest[j] == 's' then Some(MinutesSeconds(a, b))
        else None
  }

  /** Reading back "<digits>h <digits>m" or "<digits>m <digits>s" gives the two digit strings' values. */
  lemma {:induction false} ParseTimeOfDigits(sa: string, u1: char, sb: string, u2: char)
    requires |sa| > 0 && AllDigits(sa) && |sb| > 0 && AllDigits(sb)
    requires (u1 == 'h' && u2 == 'm') || (u1 == 'm' && u2 == 's')
    ensures ParseTime(sa + [u1] + " " + sb + [u2])
      == Some(if u1 == 'h' then HoursMinutes(ParseNat(sa), ParseNat(sb)) else MinutesSeconds(ParseNat(sa), ParseNat(sb)))
  {
    var t := sa + [u1] + " " + sb + [u2];
    var tail := [u1] + " " + sb + [u2];
    assert t == sa + tail;
    DigitRunOfDigitsThen(sa, tail);
    var i := |sa|;
    assert t[..i] == sa;
    assert t[i] == u1 && t[i + 1] == ' ';
    var rest := t[i + 2..];
    assert rest == sb + [u2];
    DigitRunOfDigitsThen(sb, [u2]);
    assert rest[..|sb|] == sb;
    assert rest[|sb|] == u2;
  }

  /** Reading back "<a>h <b>m" or "<a>m <b>s" gives the two numbers that were written. */
  lemma ParseTimeOfFields(a: nat, u1: char, b: nat, u2: char)
    requires (u1 == 'h' && u2 == 'm') || (u1 == 'm' && u2 == 's')
    ensures ParseTime(NatToString(a) + [u1] + " " + NatToString(b) + [u2])
      == Some(if u1 == 'h' then HoursMinutes(a, b) else MinutesSeconds(a, b))
  {
    ParseTimeOfDigits(NatToString(a), u1, NatToString(b), u2);
    ParseNatToString(a);
    ParseNatToString(b);
  }

  /** Whole hours and leftover minutes of a second count, as `format_time` splits it;
      below one hour the minutes and seconds make up the count exactly. */
  lemma SplitHours(seconds: nat)
    ensures var h, m, s := seconds / 3600, (seconds % 3600) / 60, seconds % 60;
      m < 60 && s < 60 && h * 3600 + m * 60 <= seconds < h * 3600 + m * 60 + 60 &&
      (h > 0 <==> seconds >= 3600) && (h == 0 ==> m * 60 + s == seconds)
  {
  }

  /** `t` reads back as a duration of `seconds`: whole hours and minutes (the seconds
      dropped) from one hour on, exact minutes and seconds below one hour. */
  predicate ShowsDuration(t: string, seconds: nat) {
    match ParseTime(t)
    case Some(HoursMinutes(h, m)) =>
      seconds >= 3600 && h >= 1 && m < 60 && h * 3600 + m * 60 <= seconds < h * 3600 + m * 60 + 60
    case Some(MinutesSeconds(m, s)) =>
      seconds < 3600 && m < 60 && s < 60 && m * 60 + s == seconds
    case None => false
  }

  /** The formatted text reads back as the duration it was made from. */
  lemma FormatTimeReadsBack(seconds: nat)
    ensures ShowsDuration(FormatTime(seconds), seconds)
  {
    var h := seconds / 3600;
    var m := (seconds % 3600) / 60;
    var s := seconds % 60;
    SplitHours(seconds);
    var t := FormatTime(seconds);
    if h > 0 {
      assert t == NatToString(h) + ['h'] + " " + NatToString(m) + ['m'];
      ParseTimeOfFields(h, 'h', m, 'm');
      assert ParseTime(t) == Some(HoursMinutes(h, m));
    } else {
      assert t == NatToString(m) + ['m'] + " " + NatToString(s) + ['s'];
      ParseTimeOfFields(m, 'm', s, 's');
      assert ParseTime(t) == Some(MinutesSeconds(m, s));
    }
  }

  /** The worked examples of the two-tier format. */
  lemma FormatTimeExamples()
    ensures FormatTime(0) == "0m 0s"
    ensures FormatTime(59) == "0m 59s"
    ensures FormatTime(60) == "1m 0s"
    ensures FormatTime(3600) == "1h 0m"
    ensures FormatTime(3725) == "1h 2m"
  {
  }
}
