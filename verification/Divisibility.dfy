/** Quotients, remainders and greatest common divisors, as integer facts. */
module Divisibility {
  predicate Divides(d: nat, n: nat)
    requires d > 0
  {
    n % d == 0
  }

  function Gcd(a: nat, b: nat): (g: nat)
    ensures a > 0 || b > 0 ==> g > 0
    decreases b
  {
    if b == 0 then a else Gcd(b, a % b)
  }

  lemma MultiplesAddUp(d: nat, x: int, y: int)
    requires d > 0 && x % d == 0
    ensures (x + y) % d == 0 <==> y % d == 0
    ensures (y + x) % d == 0 <==> y % d == 0
  {
    var k := x / d;
    assert x == d * k;
    ModShift(d, y, k);
  }

  lemma ModShift(d: nat, y: int, k: int)
    requires d > 0
    ensures (y + d * k) % d == y % d
  {
    var q, r := y / d, y % d;
    assert y + d * k == d * (q + k) + r by {
      assert d * (q + k) == d * q + d * k;
    }
    ModUnique(d, q + k, r);
  }

  lemma {:induction false} AtLeastOneMultiple(d: nat, k: nat)
    requires k >= 1
    ensures d * k >= d
    decreases k
  {
    if k > 1 {
      AtLeastOneMultiple(d, k - 1);
      assert d * k == d * (k - 1) + d;
    }
  }

  lemma SmallMultipleIsZero(d: int, k: int)
    requires d > 0 && -d < d * k < d
    ensures k == 0
  {
    if k >= 1 {
      AtLeastOneMultiple(d, k);
    } else if k <= -1 {
      assert d * -k == -(d * k);
      AtLeastOneMultiple(d, -k);
    }
  }

  /** Quotient and remainder are unique. */
  lemma ModUnique(d: nat, q: int, r: int)
    requires d > 0 && 0 <= r < d
    ensures (d * q + r) % d == r && (d * q + r) / d == q
  {
    var n := d * q + r;
    var q', r' := n / d, n % d;
    assert d * (q' - q) == r - r' by {
      assert n == d * q' + r';
      assert d * (q' - q) == d * q' - d * q;
    }
    SmallMultipleIsZero(d, q' - q);
  }

  lemma MultipleOfMultiple(d: nat, x: nat, k: nat)
    requires d > 0 && x % d == 0
    ensures (x * k) % d == 0
  {
    var q := x / d;
    assert x * k == d * (q * k) + 0 by {
      assert x == d * q;
      assert (d * q) * k == d * (q * k);
    }
    ModUnique(d, q * k, 0);
  }

  /** The remainder of `a` by `b`, multiplied out. */
  lemma RemainderIsACombination(a: nat, b: nat)
    requires b > 0
    ensures a == b * (a / b) + a % b
  {
  }

  /** Whatever divides both numbers, each times `m`, divides their divisor times `m`, and
      the divisor divides both: it is the greatest common one. */
  lemma {:induction false} GcdIsGreatest(a: nat, b: nat, d: nat, m: nat)
    requires d > 0 && (m * a) % d == 0 && (m * b) % d == 0
    ensures (m * Gcd(a, b)) % d == 0
    decreases b
  {
    if b != 0 {
      RemainderIsACombination(a, b);
      var q := a / b;
      assert m * a == m * b * q + m * (a % b) by {
        assert m * (b * q + a % b) == m * (b * q) + m * (a % b);
        assert m * (b * q) == m * b * q;
      }
      MultipleOfMultiple(d, m * b, q);
      MultiplesAddUp(d, m * b * q, m * (a % b));
      GcdIsGreatest(b, a % b, d, m);
    }
  }

  lemma {:induction false} GcdDivides(a: nat, b: nat)
    requires a > 0 || b > 0
    ensures Gcd(a, b) > 0 && Divides(Gcd(a, b), a) && Divides(Gcd(a, b), b)
    decreases b
  {
    if b == 0 {
      ModUnique(a, 1, 0);
      ModUnique(a, 0, 0);
    } else {
      GcdDivides(b, a % b);
      RemainderIsDivided(a, b, Gcd(b, a % b));
    }
  }

  lemma RemainderIsDivided(a: nat, b: nat, g: nat)
    requires b > 0 && g > 0 && Divides(g, b) && Divides(g, a % b)
    ensures Divides(g, a)
  {
    RemainderIsACombination(a, b);
    MultipleOfMultiple(g, b, a / b);
    MultiplesAddUp(g, b * (a / b), a % b);
  }

  lemma SomeOneIsPositive(a: nat, b: nat)
    requires Gcd(a, b) > 0
    ensures a > 0 || b > 0
  {
  }

  lemma DividesOnward(d: nat, b: nat, x: nat)
    requires d > 0 && b > 0 && Divides(d, b) && Divides(b, x)
    ensures Divides(d, x)
  {
    RemainderIsACombination(x, b);
    MultipleOfMultiple(d, b, x / b);
  }

  /** A common factor can be cancelled from a divisibility. */
  lemma CancelDivisor(m: nat, g: nat, size: nat)
    requires g > 0 && size > 0 && size * g > 0 && (m * g) % (size * g) == 0
    ensures m % size == 0
  {
    var t := (m * g) / (size * g);
    RemainderIsACombination(m * g, size * g);
    assert g * (m - size * t) == 0 by {
      assert m * g == (size * g) * t;
      assert (size * g) * t == g * (size * t);
      assert g * (m - size * t) == g * m - g * (size * t);
    }
    SmallMultipleIsZero(g, m - size * t);
    ModUnique(size, t, 0);
  }

  lemma DividesEvenly(x: nat, d: nat)
    requires d > 0 && Divides(d, x)
    ensures (x / d) * d == x
    ensures x > 0 ==> x / d > 0
  {
    RemainderIsACombination(x, d);
  }
}
