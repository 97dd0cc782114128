/**
 * The two pieces of C arithmetic the game relies on that Dafny does not have
 * built in: integer division that truncates toward zero, and the integer part
 * of a square root.
 */
module CMath {

  function Abs(x: int): nat {
    if x < 0 then -x else x
  }

  lemma DivBound(x: nat, y: nat)
    requires y > 0
    ensures y * (x / y) <= x < y * (x / y) + y
  {
  }

  /** C's `a / b` on `int`: the quotient truncated toward zero. */
  function CDiv(a: int, b: int): (q: int)
    requires b != 0
    ensures a >= 0 && b > 0 ==> q == a / b
    ensures q == 0 || ((q < 0) <==> ((a < 0) != (b < 0)))
    ensures Abs(b) * Abs(q) <= Abs(a) < Abs(b) * Abs(q) + Abs(b)
  {
    var m := Abs(a) / Abs(b);
    DivBound(Abs(a), Abs(b));
    var q := if (a < 0) == (b < 0) then m else -m;
    assert Abs(q) == m;
    q
  }

  lemma MulLe(n: nat, a: int, b: int)
    requires a <= b
    ensures n * a <= n * b
  {
  }

  /** Division of naturals by a positive divisor is monotone in the dividend. */
  lemma DivMonotone(x: nat, y: nat, n: nat)
    requires x <= y && n > 0
    ensures x / n <= y / n
  {
    DivBound(x, n);
    DivBound(y, n);
    if x / n > y / n {
      MulLe(n, y / n + 1, x / n);
      assert false;
    }
  }

  /** Truncating division by a positive divisor is monotone in the dividend. */
  lemma CDivMonotone(a: int, b: int, n: int)
    requires a <= b && n > 0
    ensures CDiv(a, n) <= CDiv(b, n)
  {
    if 0 <= a {
      DivMonotone(a, b, n);
    } else if b < 0 {
      DivMonotone(-b, -a, n);
    }
  }

  /** `(int) sqrt(n)` for a non-negative `n`: the largest root whose square does not exceed `n`. */
  function ISqrt(n: nat): (r: nat)
    ensures r * r <= n < (r + 1) * (r + 1)
  {
    if n < 4 then
      (if n == 0 then 0 else 1)
    else
      var t := ISqrt(n / 4);
      RootDoubles(n, t);
      var s := 2 * t;
      if (s + 1) * (s + 1) <= n then s + 1 else s
  }

  /** The root of a quarter of `n`, doubled, is the root of `n` or one less. */
  lemma RootDoubles(n: nat, t: nat)
    requires t * t <= n / 4 < (t + 1) * (t + 1)
    ensures (2 * t) * (2 * t) <= n < (2 * t + 2) * (2 * t + 2)
  {
    var q := n / 4;
    assert 4 * q <= n < 4 * q + 4;
    assert (2 * t) * (2 * t) == 4 * (t * t);
    assert (2 * t + 2) * (2 * t + 2) == 4 * ((t + 1) * (t + 1));
    MulLe(4, t * t, q);
    MulLe(4, q + 1, (t + 1) * (t + 1));
  }
}
