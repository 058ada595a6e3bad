/** Java's integer division, which rounds toward zero (Dafny's `/` is Euclidean). */
module Arith {

  function Abs(x: int): (a: nat)
    ensures a == x || a == -x
  {
    if x < 0 then -x else x
  }

  /** `a / b` on Java ints: the quotient of the magnitudes, with the sign of `a * b`. */
  function Div(a: int, b: int): (q: int)
    requires b != 0
    ensures a >= 0 && b > 0 ==> q == a / b
  {
    var m := Abs(a) / Abs(b);
    if (a < 0) == (b < 0) then m else -m
  }

  /** `a % b` on Java ints: what is left after `Div`, with the sign of `a`. */
  function Rem(a: int, b: int): (r: int)
    requires b != 0
    ensures a >= 0 && b > 0 ==> r == a % b
  {
    a - b * Div(a, b)
  }

  /** Truncation makes the quotient odd in the dividend: `(-a) / b == -(a / b)`. */
  lemma DivNegate(a: int, b: int)
    requires b != 0
    ensures Div(-a, b) == -Div(a, b)
  {
    var m := Abs(a) / Abs(b);
    assert Abs(-a) == Abs(a);
    if a == 0 {
      assert m == 0;
    }
  }

  /** The remainder is smaller than the divisor in magnitude and takes the sign of the dividend. */
  lemma DivBounds(a: int, b: int)
    requires b > 0
    ensures Abs(Rem(a, b)) < b
    ensures a >= 0 ==> 0 <= Rem(a, b)
    ensures a < 0 ==> Rem(a, b) <= 0
  {
    var m := Abs(a) / b;
    assert Abs(a) == b * m + Abs(a) % b;
  }
}
