/** Bytes, and multiples and remainders of a variable divisor. */
module Arithmetic {
  type byte = x: int | 0 <= x < 256

  lemma DivMod(x: nat, n: nat)
    requires n > 0
    ensures x == x / n * n + x % n && 0 <= x / n && 0 <= x / n * n <= x && 0 <= x % n <= x && x % n < n
  {
    var q := x / n;
    assert q * n >= 0;
  }

  lemma Scale(a: int, b: int, n: nat)
    requires a <= b
    ensures a * n <= b * n && (a + 1) * n == a * n + n
  {
    assert (b - a) * n >= 0;
    assert b * n == a * n + (b - a) * n;
  }

  lemma Multiple(q: int, n: nat)
    requires n > 0
    ensures (q * n) % n == 0 && (q * n) / n == q
  {
    var d, e := (q * n) / n, (q * n) % n;
    assert q * n == d * n + e;
    assert d < q ==> (d + 1) * n <= q * n;
    assert d > q ==> (q + 1) * n <= d * n;
  }

  /** Two multiples of n are equal or at least n apart. */
  lemma MultiplesApart(a: int, b: int, n: nat)
    requires n > 0 && a % n == 0 && b % n == 0 && a < b
    ensures a + n <= b
  {
    var x, y := a / n, b / n;
    assert a == x * n && b == y * n;
    assert y <= x ==> y * n <= x * n;
    assert x + 1 <= y ==> (x + 1) * n <= y * n;
    assert (x + 1) * n == x * n + n;
  }

  lemma Shift(x: int, n: nat)
    requires n > 0 && x % n == 0
    ensures (x + n) % n == 0 && (x - n) % n == 0
  {
    var q := x / n;
    assert x == q * n;
    assert x + n == (q + 1) * n && x - n == (q - 1) * n;
    Multiple(q + 1, n);
    Multiple(q - 1, n);
  }

  /** A multiple of a multiple. */
  lemma Divides(a: nat, b: nat, c: nat)
    requires a > 0 && b > 0 && c % b == 0 && b % a == 0
    ensures c % a == 0
  {
    var x, y := c / b, b / a;
    assert c == x * b && b == y * a;
    assert c == (x * y) * a;
    Multiple(x * y, a);
  }

  /** The multiple of n at or below x. */
  lemma FloorIsMultiple(x: nat, n: nat)
    requires n > 0
    ensures x - x % n >= 0 && (x - x % n) % n == 0
  {
    DivMod(x, n);
    Multiple(x / n, n);
  }

  lemma Sum(a: nat, b: nat, n: nat)
    requires n > 0 && a % n == 0 && b % n == 0
    ensures (a + b) % n == 0
  {
    DivMod(a, n);
    DivMod(b, n);
    assert a + b == (a / n + b / n) * n;
    Multiple(a / n + b / n, n);
  }
}
