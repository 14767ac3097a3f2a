/** Products of reals behind a name, with the few laws the geometry needs; proofs elsewhere hide
    the product and use only these. */
module Reals {
  function Abs(x: real): real { if x < 0.0 then -x else x }
  function Mul(x: real, y: real): real { x * y }
  function Sq(x: real): real { Mul(x, x) }

  lemma AsProduct(x: real, y: real)
    ensures Mul(x, y) == x * y
  {}

  lemma MulCommutes(x: real, y: real)
    ensures Mul(x, y) == Mul(y, x)
  {}

  lemma MulAdds(x: real, y: real, z: real)
    ensures Mul(x, y + z) == Mul(x, y) + Mul(x, z) && Mul(x, y - z) == Mul(x, y) - Mul(x, z)
    ensures Mul(y + z, x) == Mul(y, x) + Mul(z, x) && Mul(y - z, x) == Mul(y, x) - Mul(z, x)
  {}

  lemma MulNegates(x: real, y: real)
    ensures Mul(-x, y) == -Mul(x, y) && Mul(x, -y) == -Mul(x, y) && Mul(-x, -y) == Mul(x, y)
  {}

  lemma MulUnits(x: real)
    ensures Mul(x, 1.0) == x && Mul(1.0, x) == x && Mul(x, 0.0) == 0.0 && Mul(0.0, x) == 0.0
  {}

  lemma MulAssociates(x: real, y: real, z: real)
    ensures Mul(Mul(x, y), z) == Mul(x, Mul(y, z))
  {}

  lemma MulPositive(x: real, y: real)
    requires x >= 0.0 && y >= 0.0
    ensures Mul(x, y) >= 0.0
    ensures x > 0.0 && y > 0.0 ==> Mul(x, y) > 0.0
  {}

  lemma Quotient(x: real, n: real)
    requires n > 0.0
    ensures Mul(n, x / n) == x
  {}

  lemma MulGrows(x: real, a: real, b: real)
    requires x >= 0.0 && a <= b
    ensures Mul(x, a) <= Mul(x, b)
  {
    hide Mul;
    MulPositive(x, b - a);
    MulAdds(x, b, a);
  }

  lemma MulCancels(x: real, a: real, b: real)
    requires x > 0.0 && Mul(x, a) == Mul(x, b)
    ensures a == b
  {
    hide Mul;
    MulAdds(x, a, b);
    MulAdds(x, b, a);
    if a > b { MulPositive(x, a - b); }
    if b > a { MulPositive(x, b - a); }
  }

  lemma AbsProduct(x: real, k: real)
    requires k >= 0.0
    ensures Abs(Mul(x, k)) == Mul(Abs(x), k)
  {
    hide Mul;
    MulNegates(x, k);
    if x >= 0.0 { MulPositive(x, k); } else { MulPositive(-x, k); }
  }

  lemma SquarePositive(x: real)
    ensures Sq(x) >= 0.0
    ensures x != 0.0 ==> Sq(x) > 0.0
  {
    hide Mul;
    MulNegates(x, x);
    if x >= 0.0 { MulPositive(x, x); } else { MulPositive(-x, -x); }
  }

  lemma SquareEven(x: real)
    ensures Sq(-x) == Sq(x)
  {
    MulNegates(x, x);
    hide Mul;
  }

  lemma SquareValues()
    ensures Sq(0.0) == 0.0 && Sq(1.0) == 1.0 && Sq(0.9) == 0.81
  {}

  lemma DifferenceOfSquares(k: real, x: real)
    ensures Mul(k - x, k + x) == Sq(k) - Sq(x)
  {
    hide Mul;
    MulAdds(k - x, k, x);
    MulAdds(k, k, x);
    MulAdds(x, k, x);
    MulCommutes(k, x);
  }

  lemma SquareGrows(x: real, k: real)
    requires k > 0.0
    ensures Abs(x) < k ==> Sq(x) < Sq(k)
    ensures Abs(x) == k ==> Sq(x) == Sq(k)
    ensures Abs(x) > k ==> Sq(x) > Sq(k)
  {
    hide Mul;
    var size := Abs(x);
    SquareEven(x);
    DifferenceOfSquares(k, size);
    DifferenceOfSquares(size, k);
    if size < k { MulPositive(k - size, k + size); }
    if size > k { MulPositive(size - k, size + k); }
  }
}
