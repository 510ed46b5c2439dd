/** Modular arithmetic used by the key exchange, the factorizer and the RSA padding. */
module ModArith {
  function Pow(b: nat, e: nat): nat {
    if e == 0 then 1 else b * Pow(b, e - 1)
  }

  // What bn_mod_exp computes.
  function PowMod(b: nat, e: nat, m: nat): (r: nat)
    requires m > 0
    ensures r < m
  {
    Pow(b, e) % m
  }

  lemma MultipleAtLeast(d: int, m: int)
    requires m > 0
    ensures d >= 1 ==> d * m >= m
    ensures d <= -1 ==> d * m <= -m
  {
    assert d * m == m + (d - 1) * m == -m + (d + 1) * m;
    assert d >= 1 ==> (d - 1) * m >= 0;
    assert d <= -1 ==> (-d - 1) * m >= 0;
  }

  lemma DivModUnique(x: int, m: int, q: int, r: int)
    requires m > 0 && x == q * m + r && 0 <= r < m
    ensures x / m == q && x % m == r
  {
    var q', r' := x / m, x % m;
    assert x == m * q' + r';
    assert (q - q') * m == q * m - m * q';
    MultipleAtLeast(q - q', m);
  }

  lemma ModAddMultiple(x: int, k: int, m: int)
    requires m > 0
    ensures (x + k * m) % m == x % m
  {
    DivModUnique(x + k * m, m, x / m + k, x % m);
  }

  // Equality modulo m, through an explicit multiple.
  lemma ModEqual(x: int, y: int, m: int) returns (k: int)
    requires m > 0 && x % m == y % m
    ensures x == y + k * m
  {
    k := x / m - y / m;
  }

  lemma ModMul(x: int, y: int, z: int, m: int)
    requires m > 0 && x % m == y % m
    ensures (x * z) % m == (y * z) % m
  {
    var k := ModEqual(x, y, m);
    ModAddMultiple(y * z, k * z, m);
    assert x * z == y * z + (k * z) * m;
  }

  lemma ModMulBoth(x: int, x': int, y: int, y': int, m: int)
    requires m > 0 && x % m == x' % m && y % m == y' % m
    ensures (x * y) % m == (x' * y') % m
  {
    ModMul(x, x', y, m);
    ModMul(y, y', x', m);
    assert y * x' == x' * y && y' * x' == x' * y';
  }

  lemma {:induction false} PowModBase(b: nat, e: nat, m: nat)
    requires m > 0
    ensures PowMod(b % m, e, m) == PowMod(b, e, m)
  {
    if e > 0 {
      PowModBase(b, e - 1, m);
      DivModUnique(b % m, m, 0, b % m);
      ModMulBoth(b % m, b, Pow(b % m, e - 1), Pow(b, e - 1), m);
    }
  }

  lemma {:induction false} PowAdd(b: nat, x: nat, y: nat)
    ensures Pow(b, x + y) == Pow(b, x) * Pow(b, y)
  {
    if x > 0 {
      PowAdd(b, x - 1, y);
      TimesAssoc(b, Pow(b, x - 1), Pow(b, y));
    }
  }

  lemma TimesAssoc(x: int, y: int, z: int)
    ensures x * (y * z) == (x * y) * z
  {
  }

  lemma {:induction false} PowPow(b: nat, x: nat, y: nat)
    ensures Pow(Pow(b, x), y) == Pow(b, x * y)
  {
    if y > 0 {
      PowPow(b, x, y - 1);
      PowAdd(b, x, x * (y - 1));
      assert x * y == x + x * (y - 1);
    } else {
      assert x * y == 0;
    }
  }

  // Diffie-Hellman: both orders of exponentiation give the same key.
  lemma {:induction false} SharedKey(g: nat, a: nat, b: nat, p: nat)
    requires p > 0
    ensures PowMod(PowMod(g, a, p), b, p) == PowMod(PowMod(g, b, p), a, p)
  {
    PowModBase(Pow(g, a), b, p);
    PowModBase(Pow(g, b), a, p);
    PowPow(g, a, b);
    PowPow(g, b, a);
    assert a * b == b * a;
  }
}
