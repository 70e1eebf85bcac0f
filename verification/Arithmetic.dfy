/** Facts about products and quotients of variables. */
module Arithmetic {

  lemma {:induction false} Distributes(value: nat, a: nat, b: nat)
    ensures value * (a + b) == value * a + value * b
  {
  }

  lemma {:induction false} DivExact(a: nat, b: nat)
    requires b > 0
    ensures a * b / b == a
  {
    var x := a * b;
    var q, r := x / b, x % b;
    assert x == q * b + r;
    if a > q {
      AtLeast(a - q, b);
      Splits(a, q, b);
    } else if a < q {
      AtLeast(q - a, b);
      Splits(q, a, b);
    }
  }

  lemma {:induction false} AtLeast(k: nat, b: nat)
    requires k >= 1
    ensures k * b >= b
  {
    if k > 1 {
      AtLeast(k - 1, b);
      Distributes(b, k - 1, 1);
    }
  }

  lemma {:induction false} Splits(a: nat, q: nat, b: nat)
    requires q <= a
    ensures a * b == q * b + (a - q) * b
  {
  }
}
