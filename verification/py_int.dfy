/** Integer operations whose Python 2 meaning differs from Dafny's built-ins. */
module PyInt {

  /** Seconds in one day: the modulus of `timedelta.seconds`. */
  const SecondsPerDay: int := 86400

  /** Python 2 `a / b` on two ints: floor division (rounds toward minus
      infinity), where Dafny's `/` is Euclidean. */
  function FloorDiv(a: int, b: int): (q: int)
    requires b != 0
    ensures b > 0 ==> b * q <= a < b * q + b
    ensures b < 0 ==> b * q + b < a <= b * q
  {
    if b > 0 then a / b
    else
      var q := (-a) / (-b);
      assert -a == (-b) * q + (-a) % (-b);
      q
  }

  /** `timedelta(seconds = d).seconds`: timedelta normalises a whole-second
      delta to `days * 86400 + seconds` with `0 <= seconds < 86400`, so a
      negative delta yields a large positive value. */
  function TimedeltaSeconds(d: int): (s: int)
    ensures 0 <= s < SecondsPerDay
    ensures (d - s) % SecondsPerDay == 0
  {
    d % SecondsPerDay
  }

  /** A delta inside one day keeps its value; one up to a day below zero
      wraps to the top of the day. */
  lemma TimedeltaSecondsWithinDay(d: int)
    requires -SecondsPerDay <= d < SecondsPerDay
    ensures d >= 0 ==> TimedeltaSeconds(d) == d
    ensures d < 0 ==> TimedeltaSeconds(d) == SecondsPerDay + d
  {
  }

  /** Floor division by a positive divisor is the Euclidean quotient, is
      non-negative for a non-negative dividend and never exceeds it. */
  lemma FloorDivPositive(a: int, b: int)
    requires a >= 0 && b > 0
    ensures 0 <= FloorDiv(a, b) <= a
  {
    var q := FloorDiv(a, b);
    assert b * q <= a;
    MulNonNegative(b - 1, q);
    assert (b - 1) * q == b * q - q;
  }

  lemma MulNonNegative(x: int, y: int)
    requires x >= 0 && y >= 0
    ensures x * y >= 0
  {
  }
}
