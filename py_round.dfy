/** Python's built-in `round`, on exact reals. */
module PyRound {

  /** `round(x)`: the nearest integer, ties going to the even neighbour. */
  function RoundHalfEven(x: real): (r: int)
    ensures r as real - 0.5 <= x <= r as real + 0.5
    ensures x == r as real - 0.5 || x == r as real + 0.5 ==> r % 2 == 0
  {
    var f := x.Floor;
    var d := x - f as real;
    if d < 0.5 then f
    else if d > 0.5 then f + 1
    else if f % 2 == 0 then f
    else f + 1
  }

  /** `round(x, 1)`, as a whole number of tenths. */
  function RoundTenths(x: real): (r: int)
    ensures r as real - 0.5 <= 10.0 * x <= r as real + 0.5
    ensures 10.0 * x == r as real - 0.5 || 10.0 * x == r as real + 0.5 ==> r % 2 == 0
  {
    RoundHalfEven(10.0 * x)
  }

  /** Away from a tie, the result is the one integer within half of `x`. */
  lemma RoundNearest(x: real, n: int)
    requires n as real - 0.5 < x < n as real + 0.5
    ensures RoundHalfEven(x) == n
  {
  }

  /** Rounding never reverses the order of two numbers. */
  lemma RoundMonotone(x: real, y: real)
    requires x <= y
    ensures RoundHalfEven(x) <= RoundHalfEven(y)
  {
  }

  /** A whole number rounds to itself. */
  lemma {:induction false} RoundWhole(n: int)
    ensures RoundHalfEven(n as real) == n
  {
    assert (n as real).Floor == n;
  }

  /** Rounding keeps a number that lies in [lo, hi] with whole bounds in [lo, hi]. */
  lemma {:induction false} RoundWithin(x: real, lo: int, hi: int)
    requires lo as real <= x <= hi as real
    ensures lo <= RoundHalfEven(x) <= hi
  {
    RoundMonotone(lo as real, x);
    RoundMonotone(x, hi as real);
    RoundWhole(lo);
    RoundWhole(hi);
  }

  /** Scaling by a positive factor keeps the order of two reals. */
  lemma ScaleLe(a: real, b: real, c: real)
    requires c > 0.0
    ensures a <= b <==> a * c <= b * c
  {
    assert b * c - a * c == (b - a) * c;
  }

  /** Scaling by a non-zero factor keeps two reals apart. */
  lemma ScaleEq(a: real, b: real, c: real)
    requires c != 0.0
    ensures a == b <==> a * c == b * c
  {
    assert b * c - a * c == (b - a) * c;
  }

  /** A factor on the numerator comes out of the quotient. */
  lemma QuotientScale(num: real, den: real, k: real)
    requires den > 0.0
    ensures k * num / den == k * (num / den)
  {
    var t := num / den;
    assert t * den == num;
    var u := k * num / den;
    assert u * den == k * num;
    assert (k * t) * den == k * (t * den);
    ScaleEq(u, k * t, den);
  }
}
