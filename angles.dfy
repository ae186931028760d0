/**
 * Angles of the spinning can, in fixed point.
 *
 * The game keeps its rotation in degrees as a JavaScript number and adds a
 * speed of 2.75 degrees per frame. Every value it can reach is a multiple of
 * a hundredth of a degree, so the model counts in hundredths: a full turn is
 * 36000 and the target arc reaches 25 degrees (2500) either side of the top.
 */
module Angles {

  /** One full turn, 360 degrees, in hundredths of a degree. */
  const FullTurn := 36000

  /** Half-width of the target arc: 25 degrees either side of the top. */
  const HalfArc := 2500

  /** Lower bound of the upper part of the target arc: 335 degrees. */
  const ZoneStart := FullTurn - HalfArc

  /**
   * JavaScript's `a % 360`: the remainder of a division that truncates
   * toward zero, so the result takes the sign of the dividend (Dafny's own
   * `%` is Euclidean and never negative).
   */
  function JsRem(a: int): (r: int)
    ensures -FullTurn < r < FullTurn
    ensures a >= 0 ==> r >= 0
    ensures a <= 0 ==> r <= 0
    ensures (a - r) % FullTurn == 0
  {
    if a >= 0 then
      AddTurns(0, a / FullTurn);
      a % FullTurn
    else
      AddTurns(0, -((-a) / FullTurn));
      -((-a) % FullTurn)
  }

  /**
   * The angle `((r % 360) + 360) % 360` computed with JavaScript's `%`:
   * it always lands in one full turn and names the same direction as `r`,
   * that is, it is the Euclidean remainder of `r` by a full turn.
   */
  function Normalize(r: int): (n: int)
    ensures 0 <= n < FullTurn
    ensures n == r % FullTurn
  {
    JsRem(JsRem(r) + FullTurn)
  }

  /** Whole turns added to any angle leave its remainder unchanged. */
  lemma AddTurns(y: int, q: int)
    ensures (y + q * FullTurn) % FullTurn == y % FullTurn
  {
  }

  /**
   * Distance, along the shorter way round, from the angle `r` to the top
   * of the circle (0 = 360 degrees). Independent of the bounds the game
   * tests: it is the reference against which the target arc is checked.
   */
  function DistanceToTop(r: int): (d: int)
    ensures 0 <= d <= FullTurn / 2
  {
    var n := r % FullTurn;
    if n <= FullTurn / 2 then n else FullTurn - n
  }

  /**
   * The hit test of the game: the normalised angle lies at or above 335
   * degrees or at or below 25 degrees, both bounds included. It is exactly
   * "within 25 degrees of the top, either way round".
   */
  predicate InTargetZone(r: int): (hit: bool)
    ensures hit <==> DistanceToTop(r) <= HalfArc
  {
    var n := Normalize(r);
    n >= ZoneStart || n <= HalfArc
  }

  /**
   * The target arc is symmetric about the top: mirroring an angle across
   * the vertical axis never changes whether it is a hit.
   */
  lemma ZoneIsSymmetric(r: int)
    ensures InTargetZone(r) <==> InTargetZone(-r)
    ensures DistanceToTop(r) == DistanceToTop(-r)
  {
  }

  /** Both bounds of the arc are hits, and the angles just outside them are misses. */
  lemma ZoneBoundsAreInclusive()
    ensures InTargetZone(HalfArc) && InTargetZone(ZoneStart)
    ensures !InTargetZone(HalfArc + 1) && !InTargetZone(ZoneStart - 1)
    ensures InTargetZone(0) && InTargetZone(FullTurn)
  {
  }
}
