/** Factoring the challenge of the handshake (src/mtproto_utils.cpp): Pollard's method
    with multiplication by doubling, on 64-bit words. */
module Factorize {
  import opened ModArith
  import opened Wrappers

  function Gcd(a: nat, b: nat): nat
    decreases b
  {
    if b == 0 then a else Gcd(b, a % b)
  }

  ghost predicate Divides(d: nat, n: nat) { exists k: nat :: Times(d, k) == n }

  function Times(d: nat, k: nat): nat { d * k }

  ghost predicate Prime(n: nat) { n > 1 && forall d: nat | Divides(d, n) :: d == 1 || d == n }

  lemma DividesBy(d: nat, k: nat, n: nat)
    requires d * k == n
    ensures Divides(d, n)
  {
    assert Times(d, k) == n;
  }

  lemma Quotient(d: nat, n: nat) returns (k: nat)
    requires Divides(d, n)
    ensures d * k == n
  {
    k :| Times(d, k) == n;
  }

  lemma DividesSum(d: nat, m: nat, n: nat)
    requires Divides(d, m) && Divides(d, n)
    ensures Divides(d, m + n)
  {
    var j := Quotient(d, m);
    var k := Quotient(d, n);
    DividesBy(d, j + k, m + n);
  }

  lemma DividesMultiple(d: nat, m: nat, k: nat)
    requires Divides(d, m)
    ensures Divides(d, m * k)
  {
    var j := Quotient(d, m);
    assert d * (j * k) == m * k;
    DividesBy(d, j * k, m * k);
  }

  // The greatest common divisor divides both numbers.
  lemma {:induction false} GcdDivides(a: nat, b: nat)
    ensures Divides(Gcd(a, b), a) && Divides(Gcd(a, b), b)
    decreases b
  {
    if b == 0 {
      DividesBy(a, 1, a);
      DividesBy(a, 0, 0);
    } else {
      GcdDivides(b, a % b);
      var g := Gcd(b, a % b);
      DividesMultiple(g, b, a / b);
      DividesSum(g, b * (a / b), a % b);
      assert b * (a / b) + a % b == a;
    }
  }

  // It is a combination of them, so nothing divides both that does not divide it.
  lemma {:induction false} Bezout(a: nat, b: nat) returns (u: int, v: int)
    ensures u * a + v * b == Gcd(a, b)
    decreases b
  {
    if b == 0 {
      u, v := 1, 0;
    } else {
      var s, t := Bezout(b, a % b);
      u, v := t, s - t * (a / b);
      BezoutStep(a, b, a / b, a % b, s, t);
    }
  }

  lemma BezoutStep(a: int, b: int, q: int, r: int, s: int, t: int)
    requires a == b * q + r
    ensures t * a + (s - t * q) * b == s * b + t * r
  {
    assert t * (b * q + r) == t * (b * q) + t * r;
    assert (s - t * q) * b == s * b - (t * q) * b;
    assert t * (b * q) == (t * q) * b;
  }

  // A prime that divides a product divides one of the factors.
  lemma {:induction false} PrimeDividesFactor(r: nat, p: nat, q: nat)
    requires Prime(r) && Divides(r, p * q)
    ensures Divides(r, p) || Divides(r, q)
  {
    GcdDivides(r, p);
    if Gcd(r, p) == 1 {
      var u, v := Bezout(r, p);
      var k := Quotient(r, p * q);
      Combine(r, p, q, u, v, k);
      NotNegative(r, u * q + v * k);
      DividesBy(r, u * q + v * k, q);
    }
  }

  lemma Combine(r: int, p: int, q: int, u: int, v: int, k: int)
    requires u * r + v * p == 1 && r * k == p * q
    ensures q == r * (u * q + v * k)
  {
    assert (u * r + v * p) * q == (u * r) * q + (v * p) * q;
    assert (u * r) * q == r * (u * q);
    assert (v * p) * q == v * (p * q) == v * (r * k) == r * (v * k);
    assert r * (u * q + v * k) == r * (u * q) + r * (v * k);
  }

  lemma NotNegative(r: int, n: int)
    requires r > 0 && r * n >= 0
    ensures n >= 0
  {
    MultipleAtLeast(n, r);
  }

  // ---- One step ----

  // x * x + c by doubling and adding.
  method MulAdd(x: nat, c0: nat, what: nat) returns (c: nat)
    requires x < what && c0 < what && 2 <= what <= 0x8000_0000_0000_0000
    ensures c == (x * x + c0) % what
  {
    var a, b := x, x;
    c := c0;
    ghost var k := 0;
    while b != 0
      invariant 0 <= a < what && 0 <= c < what && 0 <= b
      invariant Balanced(a, b, c, k, what, x * x + c0)
      decreases b
    {
      Halve(a, b, c, k, what, x * x + c0);
      if b % 2 == 1 {
        assert c + a < 0x1_0000_0000_0000_0000;
        c := c + a;
        if c >= what {
          Reduce(a + a, b / 2, c, k, what, x * x + c0);
          c := c - what;
          k := k + 1;
        }
      }
      assert a + a < 0x1_0000_0000_0000_0000;
      a := a + a;
      if a >= what {
        ReduceFactor(a, b / 2, c, k, what, x * x + c0);
        a := a - what;
        k := k + b / 2;
      }
      b := b / 2;
    }
    DivModUnique(x * x + c0, what, k, c);
  }

  // The value computed so far and what is still to be added make up total.
  ghost predicate Balanced(a: int, b: int, c: int, k: int, what: int, total: int) {
    c + a * b == total - k * what
  }

  lemma Halve(a: nat, b: nat, c: nat, k: int, what: int, total: int)
    requires Balanced(a, b, c, k, what, total)
    ensures Balanced(a + a, b / 2, if b % 2 == 1 then c + a else c, k, what, total)
  {
    DoubleStep(a, b);
  }

  lemma Reduce(a: int, b: int, c: int, k: int, what: int, total: int)
    requires Balanced(a, b, c, k, what, total)
    ensures Balanced(a, b, c - what, k + 1, what, total)
  {
    assert (k + 1) * what == k * what + what;
  }

  lemma ReduceFactor(a: int, b: int, c: int, k: int, what: int, total: int)
    requires Balanced(a, b, c, k, what, total)
    ensures Balanced(a - what, b, c, k + b, what, total)
  {
    assert (a - what) * b == a * b - what * b;
    assert (k + b) * what == k * what + what * b;
  }

  lemma DoubleStep(a: nat, b: nat)
    ensures a * b == (a + a) * (b / 2) + a * (b % 2)
  {
    assert b == 2 * (b / 2) + b % 2;
  }

  // ---- The search ----

  // 1 << (i + 18) on 32-bit words, where the shift is taken modulo 32.
  function Limit(i: nat): int {
    var s := (i + 18) % 32;
    if s == 31 then -0x8000_0000 else Pow(2, s)
  }

  // The limit of round i is 2^(i + 18), as it is meant to be, for the first thirteen
  // rounds and never again: from then on the shift leaves the word.
  lemma {:induction false} LimitLeavesTheWord(i: nat)
    ensures Limit(i) == Pow(2, i + 18) <==> i <= 12
  {
    assert Pow(2, 10) == 0x400;
    PowAdd(2, 10, 10);
    PowAdd(2, 20, 10);
    var s := (i + 18) % 32;
    if i > 12 && s < 31 {
      PowGrows(s, 30);
      PowGrows(31, i + 18);
    }
  }

  lemma {:induction false} PowGrows(m: nat, n: nat)
    requires m <= n
    ensures 0 < Pow(2, m) <= Pow(2, n)
  {
    if n > 0 {
      PowGrows(if m == n then m - 1 else m, n - 1);
    }
  }

  function OneBit(j: nat): bool { j == 1 || (j > 1 && j % 2 == 0 && OneBit(j / 2)) }

  // Walks until a step and the remembered value have a factor in common with what.
  method Walk(x0: nat, c: nat, what: nat, limit: int) returns (g: nat, steps: nat)
    requires x0 < what && c < what && 2 <= what <= 0x8000_0000_0000_0000
    ensures limit > 1 ==> Divides(g, what) && steps > 0
    ensures limit <= 1 ==> g == 0 && steps == 0
  {
    var x, y, j := x0, x0, 1;
    g, steps := 0, 0;
    while j < limit
      invariant 0 <= x < what && 0 <= y < what && 1 <= j
      invariant limit > 1 ==> 1 <= j <= limit
      invariant if steps == 0 then j == 1 && g == 0 else limit > 1 && Divides(g, what)
    {
      steps := steps + 1;
      x := MulAdd(x, c, what);
      var z := if x < y then what + x - y else x - y;
      assert what + x < 0x1_0000_0000_0000_0000;
      g := Gcd(z, what);
      GcdDivides(z, what);
      if g != 1 {
        return;
      }
      if OneBit(j) {
        y := x;
      }
      j := j + 1;
    }
  }

  // How many rounds may follow that take no step at all.
  function Empty(i: nat): nat { if i % 32 == 13 then 2 else if i % 32 == 14 then 1 else 0 }

  lemma LimitPositive(i: nat)
    ensures Limit(i) > 1 <==> Empty(i) == 0
  {
    var s := (i + 18) % 32;
    if s > 0 && s < 31 {
      PowTwo(s);
    }
  }

  lemma {:induction false} PowTwo(s: nat)
    requires s > 0
    ensures Pow(2, s) > 1
  {
    if s > 1 {
      PowTwo(s - 1);
    }
  }

  // bn_factorize; the random numbers of each round are given, None where the final
  // assertion fails.
  method Factor(what: nat, randomC: nat -> nat, randomX: nat -> nat) returns (r: Option<(nat, nat)>)
    requires 2 <= what <= 0x8000_0000_0000_0000
    ensures r.Some? ==> r.value.0 * r.value.1 == what && 1 < r.value.0 <= r.value.1 < what
    ensures forall s: nat, t: nat | Semiprime(what, s, t) :: r.Some? ==> r.value == (s, t)
    ensures Prime(what) ==> r.None?
  {
    var it, g, i := 0, 0, 0;
    while i < 3 || it < 1000
      invariant 0 <= it && 0 <= i && 0 <= g && (g == 0 || Divides(g, what))
      decreases if i < 3 then 3 - i else 0, if it < 1000 then 1000 - it else 0, Empty(i)
    {
      LimitPositive(i);
      var c := (randomC(i) % 16 + 17) % what;
      var x := randomX(i) % (what - 1) + 1;
      var limit := Limit(i);
      if limit > 1 {
        var steps;
        g, steps := Walk(x, c, what, limit);
        it := it + steps;
      }
      if 1 < g < what {
        break;
      }
      i := i + 1;
    }
    if !(1 < g < what) {
      return None;
    }
    var k := Quotient(g, what);
    CoFactor(g, k, what);
    var p1, p2 := g, what / g;
    if p1 > p2 {
      p1, p2 := p2, p1;
    }
    r := Some((p1, p2));
    NoFactorsOfPrime(what, p1, p2);
    forall s: nat, t: nat | Semiprime(what, s, t) ensures r.value == (s, t) {
      OnlyThePrimes(p1, p2, s, t);
    }
  }

  ghost predicate Semiprime(what: nat, s: nat, t: nat) { Prime(s) && Prime(t) && s <= t && s * t == what }

  lemma CoFactor(g: nat, k: nat, what: nat)
    requires g * k == what && 1 < g < what
    ensures what / g == k && 1 < k < what && k * g == what
  {
    assert k == 0 ==> g * k == 0;
    assert k == 1 ==> g * k == g;
    assert k * g == what;
    DivModUnique(what, g, k, 0);
    MultipleAtLeast(g - 1, k);
    assert (g - 1) * k == g * k - k;
  }

  // ---- What a pair of factors can be ----

  // A product of two primes has only one pair of proper factors.
  lemma {:induction false} OnlyThePrimes(p: nat, q: nat, r: nat, s: nat)
    requires Prime(r) && Prime(s) && r <= s && p * q == r * s && 1 < p <= q
    ensures p == r && q == s
  {
    DividesBy(r, s, p * q);
    PrimeDividesFactor(r, p, q);
    if Divides(r, p) {
      var t := Quotient(r, p);
      OtherFactor(r, t, q, s);
    } else {
      var t := Quotient(r, q);
      assert p * (r * t) == (r * t) * p;
      OtherFactor(r, t, p, s);
    }
  }

  lemma {:induction false} OtherFactor(r: nat, t: nat, q: nat, s: nat)
    requires Prime(s) && r > 0 && q > 1 && (r * t) * q == r * s
    ensures q == s && t == 1 && r * t == r
  {
    Cancel(r, t, q, s);
    DividesBy(q, t, s);
    OneIsLeft(t, s);
  }

  lemma Cancel(r: nat, t: nat, q: nat, s: nat)
    requires r > 0 && (r * t) * q == r * s
    ensures t * q == s && q * t == s
  {
    assert (r * t) * q == r * (t * q);
    assert r * (t * q - s) == 0;
    MultipleAtLeast(t * q - s, r);
  }

  lemma OneIsLeft(t: nat, s: nat)
    requires s > 0 && t * s == s
    ensures t == 1
  {
    assert (t - 1) * s == 0;
    MultipleAtLeast(t - 1, s);
  }

  // A prime has none, so for a prime the final assertion always fails.
  lemma {:induction false} NoFactorsOfPrime(what: nat, p: nat, q: nat)
    requires p * q == what
    ensures Prime(what) ==> !(1 < p < what)
  {
    DividesBy(p, q, what);
  }
}
