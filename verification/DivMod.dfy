/** Division by a symbolic positive number: the few facts the counting proofs use. */
module DivMod {
  lemma Distribute(a: int, p: int, q: int)
    ensures a * (p + q) == a * p + a * q && a * (p - q) == a * p - a * q
  {
  }

  lemma AtLeast(a: int, k: int)
    requires a > 0 && k >= 1
    ensures a * k >= a
  {
    Distribute(a, k - 1, 1);
  }

  /** Quotient and remainder are determined by the number. */
  lemma Same(a: int, q: int, r: int, q': int, r': int)
    requires 0 <= r < a && 0 <= r' < a && a * q + r == a * q' + r'
    ensures q == q' && r == r'
  {
    Distribute(a, q, q');
    Distribute(a, q', q);
    if q > q' {
      AtLeast(a, q - q');
    } else if q < q' {
      AtLeast(a, q' - q);
    }
  }

  lemma Unique(y: int, a: int, q: int, r: int)
    requires 0 <= r < a && y == a * q + r
    ensures y / a == q && y % a == r
  {
    Same(a, q, r, y / a, y % a);
  }

  lemma Shift(x: int, a: int, q: int)
    requires a > 0
    ensures (x + a * q) / a == x / a + q && (x + a * q) % a == x % a
  {
    var k, r := x / a, x % a;
    Distribute(a, k, q);
    Unique(x + a * q, a, k + q, r);
  }

  /** Adding one moves the quotient exactly at the last residue. */
  lemma Succ(x: int, a: int)
    requires a > 0
    ensures (x + 1) / a == x / a + (if x % a == a - 1 then 1 else 0)
    ensures (x + 1) % a == if x % a == a - 1 then 0 else x % a + 1
  {
    var k, r := x / a, x % a;
    if r == a - 1 {
      Distribute(a, k, 1);
      Unique(x + 1, a, k + 1, 0);
    } else {
      Unique(x + 1, a, k, r + 1);
    }
  }

  /** Adding `n` moves the quotient by at least nothing and at most `n`. */
  lemma {:induction false} Grows(x: int, n: nat, a: int)
    requires a > 0
    ensures 0 <= (x + n) / a - x / a <= n
  {
    if n > 0 {
      Grows(x, n - 1, a);
      Succ(x + n - 1, a);
    }
  }

  /** Division is monotone, and strictly so over a whole divisor. */
  lemma Mono(x: int, y: int, a: int)
    requires a > 0 && x <= y
    ensures x / a <= y / a
    ensures x + a <= y ==> x / a < y / a
  {
    Grows(x, y - x, a);
    if x + a <= y {
      Shift(x, a, 1);
      Grows(x + a, y - x - a, a);
    }
  }
}
