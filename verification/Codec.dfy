/** The base types of TL as bytes (src/mtproto_common.h, src/mtproto_common.cpp):
    numbers little-endian in whole words, strings and big numbers behind a length of
    one byte or four, padded to whole words. */
module Codec {
  import opened Bytes
  import opened ModArith
  import opened Wrappers

  // ---- Numbers ----

  // n as count bytes, least significant first.
  function Le(n: nat, count: nat): seq<byte> {
    if count == 0 then [] else [(n % 0x100) as byte] + Le(n / 0x100, count - 1)
  }

  function UnLe(s: seq<byte>): nat {
    if s == [] then 0 else s[0] as nat + 0x100 * UnLe(s[1..])
  }

  lemma {:induction false} LeLength(n: nat, count: nat)
    ensures |Le(n, count)| == count
  {
    if count > 0 {
      LeLength(n / 0x100, count - 1);
    }
  }

  lemma {:induction false} LeRoundTrip(n: nat, count: nat)
    requires n < Pow(0x100, count)
    ensures UnLe(Le(n, count)) == n
  {
    if count > 0 {
      var rest := Le(n / 0x100, count - 1);
      assert Le(n, count)[1..] == rest;
      assert n / 0x100 < Pow(0x100, count - 1);
      LeRoundTrip(n / 0x100, count - 1);
    }
  }

  // The byte at place i counts multiples of 0x100 to the power of i.
  lemma {:induction false} LeastFirst(n: nat, count: nat, i: nat)
    requires i < count
    ensures |Le(n, count)| == count && Pow(0x100, i) > 0 && Le(n, count)[i] as nat == n / Pow(0x100, i) % 0x100
  {
    LeLength(n, count);
    PowersPositive(i);
    if i > 0 {
      LeastFirst(n / 0x100, count - 1, i - 1);
      DivTwice(n, Pow(0x100, i - 1));
    }
  }

  lemma {:induction false} PowersPositive(i: nat)
    ensures Pow(0x100, i) > 0
  {
    if i > 0 {
      PowersPositive(i - 1);
    }
  }

  lemma {:induction false} DivTwice(n: nat, b: nat)
    requires b > 0
    ensures n / 0x100 / b == n / (0x100 * b)
  {
    var q := n / 0x100;
    Digits(q, b);
    Regrouped(q / b, b);
    var s, t := q / b, q % b;
    hide *;
    DivModUnique(n, 0x100 * b, s, 0x100 * t + n % 0x100);
  }

  lemma Digits(q: nat, b: nat)
    requires b > 0
    ensures q == (q / b) * b + q % b && 0 <= q % b < b
  {
  }

  lemma Regrouped(s: nat, b: nat)
    ensures s * (0x100 * b) == 0x100 * (s * b)
  {
  }

  // Only the lowest count bytes matter.
  lemma {:induction false} LeTruncates(n: nat, count: nat)
    ensures Le(n % PowPos(count), count) == Le(n, count)
  {
    if count > 0 {
      var p := PowPos(count - 1);
      assert PowPos(count) == 0x100 * p;
      LowByte(n, p);
      LeTruncates(n / 0x100, count - 1);
      hide PowPos;
      Split(n % PowPos(count), n / 0x100 % p, n % 0x100);
    }
  }

  lemma Split(m: nat, b: nat, r: nat)
    requires m == 0x100 * b + r && r < 0x100
    ensures m / 0x100 == b && m % 0x100 == r
  {
  }

  lemma {:induction false} LowByte(n: nat, p: nat)
    requires p > 0
    ensures n % (0x100 * p) == 0x100 * (n / 0x100 % p) + n % 0x100
  {
    var (q, r) := (n / 0x100, n % 0x100);
    var (a, b) := (q / p, q % p);
    calc {
      n;
      0x100 * (a * p + b) + r;
      a * (0x100 * p) + (0x100 * b + r);
    }
    DivModUnique(n, 0x100 * p, a, 0x100 * b + r);
  }

  // A signed number of so many bytes, in two's complement.
  function Signed(n: int, count: nat): seq<byte> { Le(n % PowPos(count), count) }

  function PowPos(count: nat): (m: nat)
    ensures m > 0 && m == Pow(0x100, count)
  {
    if count == 0 then 1 else 0x100 * PowPos(count - 1)
  }

  function UnSigned(s: seq<byte>): int {
    var n := UnLe(s);
    if 2 * n < PowPos(|s|) then n else n - PowPos(|s|)
  }

  predicate Fits(n: int, count: nat) { 0 <= 2 * n + PowPos(count) < 2 * PowPos(count) }

  lemma {:induction false} SignedRoundTrip(n: int, count: nat)
    requires Fits(n, count)
    ensures |Signed(n, count)| == count && UnSigned(Signed(n, count)) == n
  {
    var m := PowPos(count);
    LeLength(n % m, count);
    LeRoundTrip(n % m, count);
    DivModUnique(n, m, if n < 0 then -1 else 0, if n < 0 then n + m else n);
  }

  // ---- Big numbers ----

  // The fewest bytes that hold n, most significant first.
  function BigBytes(n: nat): seq<byte> {
    if n == 0 then [] else BigBytes(n / 0x100) + [(n % 0x100) as byte]
  }

  function BigOf(s: seq<byte>): nat {
    if s == [] then 0 else 0x100 * BigOf(s[..|s| - 1]) + s[|s| - 1] as nat
  }

  lemma {:induction false} BigRoundTrip(n: nat)
    ensures BigOf(BigBytes(n)) == n
  {
    if n > 0 {
      var s := BigBytes(n);
      assert s[..|s| - 1] == BigBytes(n / 0x100);
      BigRoundTrip(n / 0x100);
    }
  }

  // The last byte is the least significant one, and the first is never zero.
  lemma {:induction false} MostFirst(n: nat, i: nat)
    requires i < |BigBytes(n)|
    ensures BigBytes(n)[0] != 0
    ensures Pow(0x100, i) > 0 && BigBytes(n)[|BigBytes(n)| - 1 - i] as nat == n / Pow(0x100, i) % 0x100
  {
    PowersPositive(i);
    if i > 0 {
      MostFirst(n / 0x100, i - 1);
      DivTwice(n, Pow(0x100, i - 1));
    } else if n >= 0x100 {
      MostFirst(n / 0x100, 0);
    } else {
      assert BigBytes(n / 0x100) == [];
    }
  }

  // ---- Strings ----

  const TOO_LONG: nat := 0x100_0000

  function Zeros(n: nat): seq<byte> { seq(n, i => 0 as byte) }

  // What is missing to a whole number of words.
  function PadTo4(n: nat): nat { (4 - n % 4) % 4 }

  function StrHeader(n: nat): seq<byte> {
    if n < 0xfe then [(n % 0x100) as byte] else [0xfe as byte] + Le(n, 3)
  }

  function OutStr(s: seq<byte>): seq<byte> {
    var front := StrHeader(|s|) + s;
    front + Zeros(PadTo4(|front|))
  }

  // prefetch_strlen on the unread bytes: -1 where no whole string stands there.
  function PrefetchStrlen(s: seq<byte>): int {
    if |s| < 4 then -1
    else if s[0] < 0xfe then
      var l := s[0] as nat;
      if |s| / 4 >= l / 4 + 1 then l else -1
    else if s[0] == 0xfe then
      var l := UnLe(s[1..4]);
      if l >= 254 && |s| / 4 >= (l + 7) / 4 then l else -1
    else -1
  }

  // The bytes a string of that length takes up, length and padding included.
  function StrSpan(len: nat): nat { if len < 254 then 4 * (1 + len / 4) else 4 * ((len + 7) / 4) }

  function StrStart(len: nat): nat { if len < 254 then 1 else 4 }

  // A length that was found is one that can be fetched.
  lemma {:induction false} StrInBounds(s: seq<byte>)
    requires PrefetchStrlen(s) >= 0
    ensures var l := PrefetchStrlen(s); StrStart(l) + l <= StrSpan(l) <= |s|
  {
  }

  lemma {:induction false} StrHeaderLength(n: nat)
    ensures |StrHeader(n)| == StrStart(n)
    ensures 254 <= n < TOO_LONG ==> UnLe(StrHeader(n)[1..4]) == n && StrHeader(n)[0] == 0xfe
  {
    LeLength(n, 3);
    if 254 <= n < TOO_LONG {
      assert StrHeader(n)[1..4] == Le(n, 3);
      assert Pow(0x100, 3) == TOO_LONG;
      LeRoundTrip(n, 3);
    }
  }

  lemma {:induction false} OutStrSpan(s: seq<byte>)
    ensures |OutStr(s)| == StrSpan(|s|)
    ensures OutStr(s)[StrStart(|s|)..StrStart(|s|) + |s|] == s
  {
    StrHeaderLength(|s|);
    SpanIsRounded(|s|);
    var front := StrHeader(|s|) + s;
    assert OutStr(s)[StrStart(|s|)..StrStart(|s|) + |s|] == front[StrStart(|s|)..];
  }

  lemma SpanIsRounded(n: nat)
    ensures var m := StrStart(n) + n; m + PadTo4(m) == StrSpan(n)
  {
  }

  // Byte by byte: the length, in one byte below 254 and otherwise in three behind 254,
  // least significant first; then the string, and zeros up to a whole number of words.
  lemma {:induction false} StringLayout(s: seq<byte>)
    requires |s| < TOO_LONG
    ensures |OutStr(s)| % 4 == 0
    ensures |s| < 254 ==>
              && 1 + |s| <= |OutStr(s)| <= 4 + |s| && OutStr(s)[0] as nat == |s| && OutStr(s)[1..1 + |s|] == s
              && forall i | 1 + |s| <= i < |OutStr(s)| :: OutStr(s)[i] == 0
    ensures |s| >= 254 ==>
              && 4 + |s| <= |OutStr(s)| <= 7 + |s| && OutStr(s)[0] == 254 && OutStr(s)[4..4 + |s|] == s
              && OutStr(s)[1] as nat + 0x100 * OutStr(s)[2] as nat + 0x1_0000 * OutStr(s)[3] as nat == |s|
              && forall i | 4 + |s| <= i < |OutStr(s)| :: OutStr(s)[i] == 0
  {
    SpanSize(|s|);
    var (head, zeros) := (StrHeader(|s|), Zeros(PadTo4(|StrHeader(|s|) + s|)));
    StrHeaderLength(|s|);
    OutStrSpan(s);
    assert OutStr(s) == head + s + zeros;
    if |s| < 254 {
      assert head == [|s| as byte];
      hide *;
      Laid(head, s, zeros);
    } else {
      assert head == [254 as byte] + Le(|s|, 3);
      ThreeBytes(|s|);
      assert head[1] == Le(|s|, 3)[0] && head[2] == Le(|s|, 3)[1] && head[3] == Le(|s|, 3)[2];
      hide *;
      Laid(head, s, zeros);
    }
  }

  lemma Laid(head: seq<byte>, s: seq<byte>, zeros: seq<byte>)
    requires forall i | 0 <= i < |zeros| :: zeros[i] == 0
    ensures var w := head + s + zeros;
            && (forall i | 0 <= i < |head| :: w[i] == head[i]) && w[|head|..|head| + |s|] == s
            && forall i | |head| + |s| <= i < |w| :: w[i] == 0
  {
    var w := head + s + zeros;
    assert w[|head|..|head| + |s|] == s;
    forall i | |head| + |s| <= i < |w| ensures w[i] == 0 {
      assert w[i] == zeros[i - |head| - |s|];
    }
  }

  lemma SpanSize(n: nat)
    ensures StrSpan(n) % 4 == 0 && StrStart(n) + n <= StrSpan(n) <= StrStart(n) + n + 3
  {
  }

  lemma {:induction false} ThreeBytes(n: nat)
    requires n < TOO_LONG
    ensures var b := Le(n, 3); |b| == 3 && b[0] as nat + 0x100 * b[1] as nat + 0x1_0000 * b[2] as nat == n
  {
    var (q, x) := (n / 0x100, n / 0x100 / 0x100);
    assert Le(x, 1) == [(x % 0x100) as byte] + Le(x / 0x100, 0) == [(x % 0x100) as byte];
    assert Le(q, 2) == [(q % 0x100) as byte] + Le(x, 1);
    assert Le(n, 3) == [(n % 0x100) as byte] + Le(q, 2);
    hide Le;
    assert x % 0x100 == x;
  }

  // A string is found with its length in front of anything.
  lemma {:induction false} StrFound(s: seq<byte>, rest: seq<byte>)
    requires |s| < TOO_LONG
    ensures PrefetchStrlen(OutStr(s) + rest) == |s|
  {
    StrHeaderLength(|s|);
    OutStrSpan(s);
    var t := OutStr(s) + rest;
    assert t[..StrStart(|s|)] == StrHeader(|s|);
    if |s| >= 254 {
      assert t[1..4] == t[..4][1..4] == StrHeader(|s|)[1..4];
    }
  }

  // ---- Values ----

  datatype Kind = I32Kind | I64Kind | StrKind | BigKind

  datatype Value = I32(i: int) | I64(l: int) | Str(s: seq<byte>) | Big(n: nat)

  function KindOf(v: Value): Kind {
    match v
    case I32(i) => I32Kind
    case I64(l) => I64Kind
    case Str(s) => StrKind
    case Big(n) => BigKind
  }

  // What can be written: longer strings are refused, longer big numbers are not.
  predicate CanWrite(v: Value) {
    match v
    case I32(i) => Fits(i, 4)
    case I64(l) => Fits(l, 8)
    case Str(s) => |s| < TOO_LONG
    case Big(n) => |BigBytes(n)| < TOO_LONG
  }

  function Write(v: Value): seq<byte> {
    match v
    case I32(i) => Signed(i, 4)
    case I64(l) => Signed(l, 8)
    case Str(s) => OutStr(s)
    case Big(n) => OutStr(BigBytes(n))
  }

  datatype Fetched = Fetched(value: Value, rest: seq<byte>)

  // None where too few bytes are left or no string stands there.
  function Fetch(k: Kind, s: seq<byte>): Option<Fetched> {
    match k
    case I32Kind => if |s| < 4 then None else Some(Fetched(I32(UnSigned(s[..4])), s[4..]))
    case I64Kind => if |s| < 8 then None else Some(Fetched(I64(UnSigned(s[..8])), s[8..]))
    case StrKind =>
      var l := PrefetchStrlen(s);
      if l < 0 then None else StrInBounds(s); Some(Fetched(Str(s[StrStart(l)..StrStart(l) + l]), s[StrSpan(l)..]))
    case BigKind =>
      var l := PrefetchStrlen(s);
      if l < 0 then None else StrInBounds(s); Some(Fetched(Big(BigOf(s[StrStart(l)..StrStart(l) + l])), s[StrSpan(l)..]))
  }

  lemma {:induction false} FetchStr(s: seq<byte>, rest: seq<byte>)
    requires |s| < TOO_LONG
    ensures Fetch(StrKind, OutStr(s) + rest) == Some(Fetched(Str(s), rest))
    ensures Fetch(BigKind, OutStr(s) + rest) == Some(Fetched(Big(BigOf(s)), rest))
  {
    StrFound(s, rest);
    OutStrSpan(s);
    var t := OutStr(s) + rest;
    StrInBounds(t);
    var (a, b) := (StrStart(|s|), StrStart(|s|) + |s|);
    assert t[a..b] == OutStr(s)[a..b];
    assert t[StrSpan(|s|)..] == rest;
  }

  // What was written is fetched, and the cursor stands behind it.
  lemma {:induction false} FetchWritten(v: Value, rest: seq<byte>)
    requires CanWrite(v)
    ensures Fetch(KindOf(v), Write(v) + rest) == Some(Fetched(v, rest))
  {
    match v
    case I32(i) =>
      SignedRoundTrip(i, 4);
      assert (Write(v) + rest)[..4] == Write(v);
    case I64(l) =>
      SignedRoundTrip(l, 8);
      assert (Write(v) + rest)[..8] == Write(v);
    case Str(s) => FetchStr(s, rest);
    case Big(n) =>
      FetchStr(BigBytes(n), rest);
      BigRoundTrip(n);
  }

  function WriteAll(vs: seq<Value>): seq<byte> {
    if vs == [] then [] else WriteAll(vs[..|vs| - 1]) + Write(vs[|vs| - 1])
  }

  function FetchAll(ks: seq<Kind>, s: seq<byte>): Option<(seq<Value>, seq<byte>)> {
    if ks == [] then Some(([], s))
    else
      var f := Fetch(ks[0], s);
      if f.None? then None
      else
        var r := FetchAll(ks[1..], f.value.rest);
        if r.None? then None else Some(([f.value.value] + r.value.0, r.value.1))
  }

  function Kinds(vs: seq<Value>): seq<Kind> { seq(|vs|, i requires 0 <= i < |vs| => KindOf(vs[i])) }

  lemma {:induction false} WriteFirst(vs: seq<Value>)
    requires vs != []
    ensures WriteAll(vs) == Write(vs[0]) + WriteAll(vs[1..])
  {
    hide Write;
    if |vs| == 1 {
      assert vs[..0] == [] && vs[1..] == [];
    } else {
      var n := |vs| - 1;
      var init := vs[..n];
      WriteFirst(init);
      assert init[1..] == vs[1..][..n - 1] && WriteAll(vs[1..]) == WriteAll(init[1..]) + Write(vs[n]);
      Assoc(Write(vs[0]), WriteAll(init[1..]), Write(vs[n]));
    }
  }

  // Any list of values reads back as itself, with the cursor exactly at its end.
  lemma {:induction false} ListRoundTrip(vs: seq<Value>, rest: seq<byte>)
    requires forall v | v in vs :: CanWrite(v)
    ensures FetchAll(Kinds(vs), WriteAll(vs) + rest) == Some((vs, rest))
  {
    hide Write, Fetch, CanWrite, KindOf;
    if vs != [] {
      assert vs[0] in vs;
      WriteFirst(vs);
      assert WriteAll(vs) + rest == Write(vs[0]) + (WriteAll(vs[1..]) + rest);
      FetchWritten(vs[0], WriteAll(vs[1..]) + rest);
      assert Kinds(vs)[1..] == Kinds(vs[1..]);
      ListRoundTrip(vs[1..], rest);
      assert [vs[0]] + vs[1..] == vs;
    } else {
      assert WriteAll(vs) + rest == rest;
    }
  }

  // Everything written is a whole number of words.
  lemma {:induction false} WholeWords(v: Value)
    requires v.Big? || CanWrite(v)
    ensures |Write(v)| % 4 == 0
  {
    hide OutStr, BigBytes, Signed, Fits;
    match v
    case I32(i) => SignedRoundTrip(i, 4);
    case I64(l) => SignedRoundTrip(l, 8);
    case Str(s) => OutStrSpan(s);
    case Big(n) => OutStrSpan(BigBytes(n));
  }

  // A string below 254 bytes is never written behind a long length, and one that is
  // sent that way is not accepted.
  lemma {:induction false} ShortStringNeedsShortLength(n: nat, s: seq<byte>)
    requires |s| >= 4 && s[..4] == [0xfe as byte] + Le(n, 3)
    ensures var l := n % TOO_LONG;
            && (PrefetchStrlen(s) >= 0 <==> l >= 254 && |s| / 4 >= (l + 7) / 4)
            && (PrefetchStrlen(s) >= 0 ==> PrefetchStrlen(s) == l)
  {
    LeLength(n, 3);
    assert s[0] == s[..4][0] && s[1..4] == s[..4][1..];
    assert PowPos(3) == Pow(0x100, 3) == TOO_LONG;
    LeTruncates(n, 3);
    LeRoundTrip(n % TOO_LONG, 3);
  }
}
