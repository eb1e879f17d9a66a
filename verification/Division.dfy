/**
Division and remainder by products, in steps small enough for any solver seed.
*/
module Division {

  lemma Monotone(x: nat, y: nat, z: nat)
    requires x <= y
    ensures x * z <= y * z
  {
    Distribute(y - x, x, z);
  }

  lemma Distribute(x: nat, y: nat, z: nat)
    ensures (x + y) * z == x * z + y * z
  {
  }

  lemma Associate(x: nat, y: nat, z: nat)
    ensures x * y * z == x * (z * y)
  {
  }

  /** A quotient and a remainder that fit are the quotient and the remainder. */
  lemma DivUnique(a: nat, n: nat, q: nat, r: nat)
    requires r < n && a == q * n + r
    ensures a / n == q && a % n == r
  {
    var p, s := a / n, a % n;
    assert a == p * n + s;
    if p < q {
      Monotone(p + 1, q, n);
      Distribute(p, 1, n);
    } else if q < p {
      Monotone(q + 1, p, n);
      Distribute(q, 1, n);
    }
  }

  /** Division in two steps: the remainder of a product is put together from the remainders of its factors. */
  lemma SplitRemainder(x: nat, a: nat, b: nat)
    requires a > 0 && b > 0
    ensures a * b > 0
    ensures x % (a * b) == x / a % b * a + x % a && x / (a * b) == x / a / b
  {
    var q, r := x / a, x % a;
    var p, s := q / b, q % b;
    Positive(a, b);
    Rejoin(x, a, b, q, r, p, s);
    Below(a, b, r, s);
    DivUnique(x, a * b, p, s * a + r);
  }

  lemma Positive(a: nat, b: nat)
    requires a > 0 && b > 0
    ensures a * b > 0
  {
    Monotone(1, a, b);
  }

  lemma Rejoin(x: nat, a: nat, b: nat, q: nat, r: nat, p: nat, s: nat)
    requires x == q * a + r && q == p * b + s
    ensures x == p * (a * b) + (s * a + r)
  {
    Distribute(p * b, s, a);
    Associate(p, b, a);
  }

  lemma Below(a: nat, b: nat, r: nat, s: nat)
    requires r < a && s < b
    ensures s * a + r < a * b
  {
    Monotone(s + 1, b, a);
    Distribute(s, 1, a);
    Commute(a, b);
  }

  lemma Commute(a: nat, b: nat)
    ensures a * b == b * a
  {
  }
}
