/**
 * Angle arithmetic of the dial: the slot width in degrees, Java's integer
 * remainder, and the angle at which each selection position sits.
 *
 * Angles that the view keeps in radians (mRadian, the marker angle, the
 * position angles) are written here as reals in SLOT units: one slot is
 * 2*pi/N radians, N being the selection count. No pi and no trigonometry
 * is needed in this unit, and the base rotation is exactly 9 slots.
 */
module DialGeometry {

  /** The selection count the view is built with (SELECTION_COUNT). */
  const DefaultSelectionCount: int := 12

  /** The fixed base rotation of position 0, in slots (9 * mRadian). */
  const BaseSlots: real := 9.0

  /** mRadian, one section of the dial, in slots. */
  const OneSlot: real := 1.0

  /**
   * `360 / N` with Java int division: the whole number of degrees in one
   * slot, truncated when N does not divide 360.
   */
  function SlotDegrees(n: int): (d: int)
    requires n > 0
    ensures 0 <= d
    ensures d * n <= 360 < (d + 1) * n
  {
    360 / n
  }

  /** Java's `a % b` for a positive divisor: the sign follows the dividend. */
  function JavaRem(a: int, b: int): (r: int)
    requires b > 0
    ensures 0 <= a ==> 0 <= r < b && r == a % b
    ensures a < 0 ==> -b < r <= 0
    ensures (a - r) % b == 0
  {
    if a >= 0 then
      ModUnique(a - a % b, a / b, 0, b);
      a % b
    else
      ModUnique(a + (-a) % b, -((-a) / b), 0, b);
      -((-a) % b)
  }

  /** A remainder modulo n is determined by any decomposition a = m*n + r. */
  lemma {:induction false} ModUnique(a: int, m: int, r: int, n: int)
    requires n > 0 && 0 <= r < n && a == m * n + r
    ensures a % n == r
  {
    var k := a / n - m;
    assert a == (a / n) * n + a % n;
    assert k * n == r - a % n by {
      assert (a / n) * n - m * n == k * n;
    }
    assert k >= 1 ==> k * n >= n;
    assert k <= -1 ==> k * n <= -n;
  }

  /** Adding whole multiples of n does not change a remainder modulo n. */
  lemma {:induction false} ModShift(x: int, q: int, n: int)
    requires n > 0
    ensures (x + q * n) % n == x % n
  {
    assert x == (x / n) * n + x % n;
    assert x + q * n == (x / n + q) * n + x % n;
    ModUnique(x + q * n, x / n + q, x % n, n);
  }

  /** The angle of selection position `pos`, in slots. */
  function PositionAngle(pos: int): real
  {
    BaseSlots + pos as real * OneSlot
  }

  /** Converts an angle in slots to degrees, for a dial of `n` positions. */
  function SlotsToDegrees(n: int, a: real): real
    requires n > 0
  {
    a * 360.0 / n as real
  }

  /** Position 0 sits at the base rotation. */
  lemma PositionZeroIsBase()
    ensures PositionAngle(0) == BaseSlots
  {
  }

  /** Consecutive positions are exactly one slot apart. */
  lemma PositionStep(pos: int)
    ensures PositionAngle(pos + 1) - PositionAngle(pos) == OneSlot
  {
  }

  /** Position `pos + n` is position `pos` plus one full turn of `n` slots. */
  lemma PositionFullTurn(n: int, pos: int)
    requires n > 0
    ensures PositionAngle(pos + n) == PositionAngle(pos) + n as real
  {
  }

  /**
   * Every integer position is its reduced position plus a whole number of
   * turns: positionAngle(k) and positionAngle(k mod N) name the same point.
   */
  lemma PositionModTurn(n: int, k: int)
    requires n > 0
    ensures PositionAngle(k) == PositionAngle(k % n) + ((k / n) * n) as real
  {
    assert k == (k / n) * n + k % n;
  }

  /** The N positions of one turn are distinct and lie within one turn. */
  lemma PositionsWithinTurn(n: int, i: int, j: int)
    requires 0 <= i < j < n
    ensures 0.0 < PositionAngle(j) - PositionAngle(i) < n as real
  {
  }

  /** One slot is 360/N degrees, so a full turn of N slots is 360 degrees. */
  lemma {:induction false} FullTurnIsCircle(n: int)
    requires n > 0
    ensures SlotsToDegrees(n, n as real) == 360.0
    ensures SlotDegrees(n) * n == 360 <==> 360 % n == 0
  {
    assert (n as real) * 360.0 / (n as real) == 360.0;
    assert 360 == (360 / n) * n + 360 % n;
  }

  /** When N divides 360, a whole number of slots is that many slots of 360/N degrees. */
  lemma {:induction false} SlotsToDegreesExact(n: int, j: int)
    requires n > 0 && 360 % n == 0
    ensures SlotsToDegrees(n, j as real) == (j * SlotDegrees(n)) as real
  {
    var d := SlotDegrees(n);
    assert 360 == d * n + 360 % n;
    assert (d as real) * (n as real) == 360.0;
    assert 360.0 / (n as real) == d as real;
    assert (j as real) * 360.0 / (n as real) == (j as real) * (360.0 / (n as real));
  }
}
