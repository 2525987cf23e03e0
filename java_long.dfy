/** Integer division as Java performs it on `long` operands. */
module JavaLong {

  function Abs(x: int): (r: nat)
    ensures r == x || r == -x
  {
    if x < 0 then -x else x
  }

  /**
   * Java's `/` on integers rounds the quotient toward zero, so the remainder
   * `a - q * b` is smaller than the divisor in magnitude and never has the
   * opposite sign of the dividend. Dafny's own `/` is Euclidean and differs
   * from this whenever the dividend is negative.
   */
  function TruncDiv(a: int, b: int): (q: int)
    requires b != 0
    ensures Abs(a - q * b) < Abs(b)
    ensures a >= 0 ==> 0 <= a - q * b
    ensures a < 0 ==> a - q * b <= 0
    ensures 0 <= a && 0 < b ==> q == a / b
  {
    var n := Abs(a) / Abs(b);
    var q := if (a < 0) == (b < 0) then n else -n;
    TruncDivRemainder(a, b, n, q);
    q
  }

  lemma MulSigns(n: int, y: int)
    ensures (-n) * (-y) == n * y && (-n) * y == -(n * y) && n * (-y) == -(n * y)
  {
  }

  lemma TruncDivRemainder(a: int, b: int, n: int, q: int)
    requires b != 0 && n == Abs(a) / Abs(b)
    requires q == if (a < 0) == (b < 0) then n else -n
    ensures Abs(a - q * b) < Abs(b)
    ensures a >= 0 ==> 0 <= a - q * b
    ensures a < 0 ==> a - q * b <= 0
  {
    var x, y := Abs(a), Abs(b);
    var rem := x % y;
    assert x == n * y + rem && 0 <= rem < y;
    MulSigns(n, y);
    assert q * b == (if a < 0 then -(n * y) else n * y);
  }
}
