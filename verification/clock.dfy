/**
 The integer arithmetic behind the countdown text: C's truncating division and
 the hours/minutes/seconds split that the countdown display formats as " %T".
 */
module Clock {

  const SecondsPerMinute: int := 60
  const SecondsPerHour: int := 60 * 60

  /** C's `/` on `int` for a positive divisor: the quotient is truncated toward
      zero, so the remainder carries the sign of the dividend (Dafny's own `/`
      is Euclidean and never leaves a negative remainder). */
  function CDiv(a: int, b: int): (q: int)
    requires b > 0
    ensures a >= 0 ==> 0 <= a - q * b < b
    ensures a < 0 ==> -b < a - q * b <= 0
    ensures a >= 0 ==> q >= 0
    ensures a <= 0 ==> q <= 0
  {
    if a >= 0 then a / b else -((-a) / b)
  }

  /** A broken-down duration, the three fields the display reads. */
  datatype Hms = Hms(hour: int, minute: int, second: int)

  /** The number of seconds a broken-down duration stands for. */
  function Seconds(t: Hms): int
  {
    t.hour * SecondsPerHour + t.minute * SecondsPerMinute + t.second
  }

  /** A broken-down duration that a two-digit "HH:MM:SS" field can show. */
  predicate Canonical(t: Hms)
  {
    0 <= t.hour < 100 && 0 <= t.minute < 60 && 0 <= t.second < 60
  }

  /** The split of the countdown display: hours by truncating division, minutes
      from what the hours leave, seconds as whatever hours and minutes leave.
      It recomposes to its input for every integer; for a nonnegative input
      minutes and seconds are below 60, for a nonpositive one all three
      fields are nonpositive (the truncating division keeps the sign). */
  function Split(x: int): (t: Hms)
    ensures Seconds(t) == x
    ensures 0 <= x ==> 0 <= t.hour && 0 <= t.minute < 60 && 0 <= t.second < 60
    ensures x <= 0 ==> t.hour <= 0 && -60 < t.minute <= 0 && -60 < t.second <= 0
    ensures x < 100 * SecondsPerHour ==> t.hour < 100
    ensures 0 <= x < 100 * SecondsPerHour ==> Canonical(t)
  {
    var h := CDiv(x, SecondsPerHour);
    var rest := x - h * SecondsPerHour;
    var m := CDiv(rest, SecondsPerMinute);
    Hms(h, m, rest - m * SecondsPerMinute)
  }

  /** Any canonical breakdown of x is the one Split computes, so for durations
      in the display's range Split is the inverse of Seconds. */
  lemma CanonicalSplitUnique(x: int, t: Hms)
    requires Canonical(t) && Seconds(t) == x
    ensures Split(x) == t
  {
  }
}
