/**
 * The parts of JavaScript's Math object the site uses (floor, round, max),
 * stated over exact reals, and a ceiling used only in proofs. IEEE-754
 * rounding of the operands is not modelled.
 */
module JsMath {

  /** Math.floor: the greatest integer not above x. */
  function Floor(x: real): (n: int)
    ensures n as real <= x < n as real + 1.0
  {
    x.Floor
  }

  /** The least integer not below x; the site never calls Math.ceil, the proofs use it for ⌈target⌉. */
  function Ceil(x: real): (n: int)
    ensures n as real - 1.0 < x <= n as real
  {
    -((-x).Floor)
  }

  /** Math.round: the nearest integer, a half rounded towards +infinity. */
  function Round(x: real): (n: int)
    ensures n as real - 0.5 <= x < n as real + 0.5
  {
    Floor(x + 0.5)
  }

  /** Math.max of two numbers. */
  function Max(a: real, b: real): (m: real)
    ensures m >= a && m >= b
    ensures m == a || m == b
  {
    if a >= b then a else b
  }

  function MaxInt(a: int, b: int): (m: int)
    ensures m >= a && m >= b
    ensures m == a || m == b
  {
    if a >= b then a else b
  }

  function Abs(x: real): (a: real)
    ensures a >= 0.0
    ensures a == x || a == -x
  {
    if x < 0.0 then -x else x
  }

  lemma MulNonNegative(a: real, b: real)
    requires a >= 0.0 && b >= 0.0
    ensures a * b >= 0.0
  {
  }

  /** Round is determined by its characterisation: there is only one nearest integer. */
  lemma RoundUnique(x: real, n: int)
    requires n as real - 0.5 <= x < n as real + 0.5
    ensures Round(x) == n
  {
    var m := Round(x);
    assert m as real - 0.5 <= x < m as real + 0.5;
  }

  lemma FloorMonotone(x: real, y: real)
    requires x <= y
    ensures Floor(x) <= Floor(y)
  {
    var a, b := Floor(x), Floor(y);
    assert a as real <= y;
    assert (b + 1) as real > y;
  }

  lemma CeilMonotone(x: real, y: real)
    requires x <= y
    ensures Ceil(x) <= Ceil(y)
  {
    var a, b := Ceil(x), Ceil(y);
    assert (a - 1) as real < y;
    assert b as real >= y;
  }

  lemma RoundMonotone(x: real, y: real)
    requires x <= y
    ensures Round(x) <= Round(y)
  {
    FloorMonotone(x + 0.5, y + 0.5);
  }

  /** A value below t floors to at most the rounding of t. */
  lemma FloorBelowRound(v: real, t: real)
    requires v < t
    ensures Floor(v) <= Round(t)
  {
    FloorMonotone(v, t + 0.5);
  }
}
