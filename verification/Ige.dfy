/** Infinite garble extension chaining of a block cipher, as TGLC_aes_ige_encrypt
    runs it over a buffer and leaves the chaining values in the iv. */
module Ige {
  import opened ModArith
  import opened Wrappers

  // A block cipher over blocks of size units, and the exclusive or of two units.
  datatype Cipher<!T> = Cipher(size: nat, enc: seq<T> -> seq<T>, dec: seq<T> -> seq<T>, xor: (T, T) -> T)

  ghost predicate Lawful<T(!new)>(c: Cipher<T>) {
    && c.size > 0
    && (forall b: seq<T> {:trigger c.enc(b)} :: |b| == c.size ==> |c.enc(b)| == c.size)
    && (forall b: seq<T> {:trigger c.dec(b)} :: |b| == c.size ==> |c.dec(b)| == c.size)
    && (forall b: seq<T> {:trigger c.dec(c.enc(b))} :: |b| == c.size ==> c.dec(c.enc(b)) == b)
    && (forall x: T, y: T :: c.xor(c.xor(x, y), y) == x)
  }

  // The first half of the iv is the last ciphertext block, the second the last plaintext block.
  datatype Iv<T> = Iv(cipher: seq<T>, plain: seq<T>)

  predicate GoodIv<T>(c: Cipher<T>, iv: Iv<T>) { |iv.cipher| == c.size && |iv.plain| == c.size }

  predicate WholeBlocks<T>(c: Cipher<T>, data: seq<T>) { Whole(|data|, c.size) }

  // n is a multiple of size, said without division.
  predicate Whole(n: nat, size: nat) {
    n == 0 || (n >= size > 0 && Whole(n - size, size))
  }

  lemma {:induction false} WholeSum(m: nat, n: nat, size: nat)
    requires Whole(m, size) && Whole(n, size)
    ensures Whole(m + n, size)
  {
    if m > 0 {
      WholeSum(m - size, n, size);
      assert m + n - size == m - size + n;
    }
  }

  lemma {:induction false} WholeRest(m: nat, n: nat, size: nat)
    requires Whole(m, size) && Whole(n, size) && m <= n
    ensures Whole(n - m, size)
  {
    if m > 0 {
      WholeRest(m - size, n - size, size);
    }
  }

  // Between two multiples of size there is room for a whole size.
  lemma {:induction false} WholeGap(m: nat, n: nat, size: nat)
    requires size > 0 && Whole(m, size) && Whole(n, size) && m < n
    ensures m + size <= n
  {
    WholeRest(m, n, size);
  }

  // A multiple of a multiple.
  lemma {:induction false} WholeOfWhole(n: nat, big: nat, size: nat)
    requires Whole(n, big) && Whole(big, size)
    ensures Whole(n, size)
  {
    if n > 0 {
      WholeOfWhole(n - big, big, size);
      WholeSum(n - big, big, size);
    }
  }

  lemma {:induction false} MultipleIsWhole(n: nat, size: nat)
    requires size > 0
    ensures n % size == 0 <==> Whole(n, size)
    decreases n
  {
    if n >= size {
      MultipleIsWhole(n - size, size);
      ModAddMultiple(n - size, 1, size);
    } else {
      DivModUnique(n, size, 0, n);
    }
  }

  function Xor<T>(c: Cipher<T>, a: seq<T>, b: seq<T>): seq<T> {
    seq(|a|, i requires 0 <= i < |a| => if i < |b| then c.xor(a[i], b[i]) else a[i])
  }

  datatype Chained<T> = Chained(data: seq<T>, iv: Iv<T>)

  function EncryptBlock<T>(c: Cipher<T>, iv: Iv<T>, p: seq<T>): seq<T> {
    Xor(c, c.enc(Xor(c, p, iv.cipher)), iv.plain)
  }

  function DecryptBlock<T>(c: Cipher<T>, iv: Iv<T>, q: seq<T>): seq<T> {
    Xor(c, c.dec(Xor(c, q, iv.plain)), iv.cipher)
  }

  function Encrypt<T>(c: Cipher<T>, iv: Iv<T>, data: seq<T>): Chained<T>
    requires WholeBlocks(c, data)
    decreases |data|
  {
    if data == [] then Chained([], iv)
    else
      var p := data[..c.size];
      var q := EncryptBlock(c, iv, p);
      var rest := Encrypt(c, Iv(q, p), data[c.size..]);
      Chained(q + rest.data, rest.iv)
  }

  function Decrypt<T>(c: Cipher<T>, iv: Iv<T>, data: seq<T>): Chained<T>
    requires WholeBlocks(c, data)
    decreases |data|
  {
    if data == [] then Chained([], iv)
    else
      var q := data[..c.size];
      var p := DecryptBlock(c, iv, q);
      var rest := Decrypt(c, Iv(q, p), data[c.size..]);
      Chained(p + rest.data, rest.iv)
  }

  // The cipher keeps the length of a buffer and the shape of the iv.
  lemma {:induction false} EncryptShape<T(!new)>(c: Cipher<T>, iv: Iv<T>, data: seq<T>)
    requires Lawful(c) && GoodIv(c, iv) && WholeBlocks(c, data)
    ensures |Encrypt(c, iv, data).data| == |data| && GoodIv(c, Encrypt(c, iv, data).iv)
    decreases |data|
  {
    if data != [] {
      var p := data[..c.size];
      EncryptShape(c, Iv(EncryptBlock(c, iv, p), p), data[c.size..]);
    }
  }

  lemma {:induction false} DecryptShape<T(!new)>(c: Cipher<T>, iv: Iv<T>, data: seq<T>)
    requires Lawful(c) && GoodIv(c, iv) && WholeBlocks(c, data)
    ensures |Decrypt(c, iv, data).data| == |data| && GoodIv(c, Decrypt(c, iv, data).iv)
    decreases |data|
  {
    if data != [] {
      var q := data[..c.size];
      DecryptShape(c, Iv(q, DecryptBlock(c, iv, q)), data[c.size..]);
    }
  }

  lemma {:induction false} BlockRoundTrip<T(!new)>(c: Cipher<T>, iv: Iv<T>, p: seq<T>)
    requires Lawful(c) && GoodIv(c, iv) && |p| == c.size
    ensures DecryptBlock(c, iv, EncryptBlock(c, iv, p)) == p
  {
    var mixed := Xor(c, p, iv.cipher);
    var q := EncryptBlock(c, iv, p);
    assert Xor(c, q, iv.plain) == c.enc(mixed);
    assert Xor(c, mixed, iv.cipher) == p;
  }

  lemma {:induction false} EncryptStep<T>(c: Cipher<T>, iv: Iv<T>, p: seq<T>, rest: seq<T>)
    requires |p| == c.size > 0 && WholeBlocks(c, rest)
    ensures WholeBlocks(c, p + rest)
    ensures var q := EncryptBlock(c, iv, p);
            var r := Encrypt(c, Iv(q, p), rest);
            Encrypt(c, iv, p + rest) == Chained(q + r.data, r.iv)
  {
    assert |p + rest| - c.size == |rest|;
    assert (p + rest)[..c.size] == p && (p + rest)[c.size..] == rest;
  }

  lemma {:induction false} DecryptStep<T>(c: Cipher<T>, iv: Iv<T>, q: seq<T>, rest: seq<T>)
    requires |q| == c.size > 0 && WholeBlocks(c, rest)
    ensures WholeBlocks(c, q + rest)
    ensures var p := DecryptBlock(c, iv, q);
            var r := Decrypt(c, Iv(q, p), rest);
            Decrypt(c, iv, q + rest) == Chained(p + r.data, r.iv)
  {
    assert |q + rest| - c.size == |rest|;
    assert (q + rest)[..c.size] == q && (q + rest)[c.size..] == rest;
  }

  // Decryption undoes encryption and leaves the same chaining values.
  lemma {:induction false} RoundTrip<T(!new)>(c: Cipher<T>, iv: Iv<T>, data: seq<T>)
    requires Lawful(c) && GoodIv(c, iv) && WholeBlocks(c, data)
    ensures WholeBlocks(c, Encrypt(c, iv, data).data)
    ensures Decrypt(c, iv, Encrypt(c, iv, data).data) == Chained(data, Encrypt(c, iv, data).iv)
    decreases |data|
  {
    if data != [] {
      var p, rest := data[..c.size], data[c.size..];
      assert data == p + rest;
      var q := EncryptBlock(c, iv, p);
      BlockRoundTrip(c, iv, p);
      EncryptStep(c, iv, p, rest);
      RoundTrip(c, Iv(q, p), rest);
      DecryptStep(c, iv, q, Encrypt(c, Iv(q, p), rest).data);
    }
  }

  // ---- What the chaining is ----

  // There is a k-th block in n units.
  predicate InRange(k: nat, size: nat, n: nat) { k * size + size <= n }

  // The k-th block of s, and the one in front of it; in front of the first stands the iv.
  function BlockOf<T>(s: seq<T>, k: nat, size: nat): (b: seq<T>)
    requires InRange(k, size, |s|)
    ensures |b| == size
  {
    s[k * size..k * size + size]
  }

  function BlockBefore<T>(first: seq<T>, s: seq<T>, k: nat, size: nat): seq<T>
    requires InRange(k, size, |s|)
  {
    if k == 0 then first else OneBack(k, size, |s|); BlockOf(s, k - 1, size)
  }

  lemma OneBack(k: nat, size: nat, n: nat)
    requires k > 0 && InRange(k, size, n)
    ensures n >= size && InRange(k - 1, size, n - size) && InRange(k - 1, size, n)
    ensures (k - 1) * size + size == k * size
  {
    assert (k - 1) * size + size == k * size && (k - 1) * size >= 0;
  }

  // Every block of the ciphertext is the cipher of its plain block mixed with the
  // ciphertext block in front, mixed with the plain block in front.
  ghost predicate Garbles<T(!new)>(c: Cipher<T>, iv: Iv<T>, plain: seq<T>, secret: seq<T>, k: nat)
    requires |plain| == |secret| && InRange(k, c.size, |plain|)
  {
    var p, before, beforeSecret :=
      BlockOf(plain, k, c.size), BlockBefore(iv.plain, plain, k, c.size), BlockBefore(iv.cipher, secret, k, c.size);
    && |before| == |beforeSecret| == c.size
    && exists mixed, out | |mixed| == c.size == |out| && out == c.enc(mixed) ::
         && (forall i | 0 <= i < c.size :: mixed[i] == c.xor(p[i], beforeSecret[i]))
         && forall i | 0 <= i < c.size :: BlockOf(secret, k, c.size)[i] == c.xor(out[i], before[i])
  }

  lemma {:induction false} EncryptGarbles<T(!new)>(c: Cipher<T>, iv: Iv<T>, data: seq<T>, k: nat)
    requires Lawful(c) && GoodIv(c, iv) && WholeBlocks(c, data) && InRange(k, c.size, |data|)
    ensures |Encrypt(c, iv, data).data| == |data| && Garbles(c, iv, data, Encrypt(c, iv, data).data, k)
    decreases k
  {
    hide *;
    FirstOff(c, iv, data, k);
    var p, tail := data[..c.size], data[c.size..];
    var q := EncryptBlock(c, iv, p);
    if k > 0 {
      EncryptGarbles(c, Iv(q, p), tail, k - 1);
      LaterGarbles(c, iv, p, q, tail, Encrypt(c, Iv(q, p), tail).data, k);
    } else {
      SameFirst(c, iv, p, q, tail, Encrypt(c, Iv(q, p), tail).data);
    }
  }

  lemma {:induction false} FirstOff<T(!new)>(c: Cipher<T>, iv: Iv<T>, data: seq<T>, k: nat)
    requires Lawful(c) && GoodIv(c, iv) && WholeBlocks(c, data) && InRange(k, c.size, |data|)
    ensures c.size <= |data| && InRange(0, c.size, c.size)
    ensures var p, tail := data[..c.size], data[c.size..];
            var q := EncryptBlock(c, iv, p);
            && data == p + tail && WholeBlocks(c, tail) && |q| == c.size && GoodIv(c, Iv(q, p)) && Garbles(c, iv, p, q, 0)
            && Encrypt(c, iv, data).data == q + Encrypt(c, Iv(q, p), tail).data
            && |Encrypt(c, Iv(q, p), tail).data| == |tail| && |Encrypt(c, iv, data).data| == |data|
    ensures k > 0 ==> InRange(k - 1, c.size, |data| - c.size)
  {
    NotNegative(k, c.size);
    var p, tail := data[..c.size], data[c.size..];
    assert WholeBlocks(c, tail) && data == p + tail && c.size > 0;
    hide Encrypt, EncryptBlock, Lawful, Garbles, InRange;
    EncryptStep(c, iv, p, tail);
    FirstGarbles(c, iv, p);
    EncryptShape(c, Iv(EncryptBlock(c, iv, p), p), tail);
    if k > 0 {
      OneBack(k, c.size, |data|);
    }
  }

  lemma NotNegative(k: nat, n: nat)
    ensures k * n >= 0
  {
  }

  lemma {:induction false} FirstGarbles<T(!new)>(c: Cipher<T>, iv: Iv<T>, p: seq<T>)
    requires Lawful(c) && GoodIv(c, iv) && |p| == c.size
    ensures |EncryptBlock(c, iv, p)| == |p| && InRange(0, c.size, |p|) && Garbles(c, iv, p, EncryptBlock(c, iv, p), 0)
  {
    var mixed := Xor(c, p, iv.cipher);
    var out := c.enc(mixed);
    assert BlockOf(p, 0, c.size) == p && BlockOf(EncryptBlock(c, iv, p), 0, c.size) == EncryptBlock(c, iv, p);
    assert |mixed| == c.size == |out|;
  }

  lemma {:induction false} SameFirst<T(!new)>(c: Cipher<T>, iv: Iv<T>, p: seq<T>, q: seq<T>, tail: seq<T>, rest: seq<T>)
    requires |p| == |q| == c.size && |tail| == |rest| && InRange(0, c.size, |p|) && Garbles(c, iv, p, q, 0)
    ensures InRange(0, c.size, |p + tail|) && Garbles(c, iv, p + tail, q + rest, 0)
  {
    assert BlockOf(p + tail, 0, c.size) == p == BlockOf(p, 0, c.size);
    assert BlockOf(q + rest, 0, c.size) == q == BlockOf(q, 0, c.size);
  }

  lemma {:induction false} LaterGarbles<T(!new)>(c: Cipher<T>, iv: Iv<T>, p: seq<T>, q: seq<T>, tail: seq<T>, rest: seq<T>, k: nat)
    requires k > 0 && |p| == |q| == c.size && |tail| == |rest|
    requires InRange(k, c.size, |p + tail|) && InRange(k - 1, c.size, |tail|) && Garbles(c, Iv(q, p), tail, rest, k - 1)
    ensures Garbles(c, iv, p + tail, q + rest, k)
  {
    var n := c.size;
    ShiftedBlock(p, tail, k, n);
    ShiftedBlock(q, rest, k, n);
    if k > 1 {
      OneBack(k, n, |p + tail|);
      OneBack(k - 1, n, |tail|);
      ShiftedBlock(p, tail, k - 1, n);
      ShiftedBlock(q, rest, k - 1, n);
    } else {
      assert BlockOf(p + tail, 0, n) == p && BlockOf(q + rest, 0, n) == q;
    }
    hide BlockOf, InRange;
  }

  lemma ShiftedBlock<T>(p: seq<T>, tail: seq<T>, k: nat, n: nat)
    requires k > 0 && |p| == n && InRange(k - 1, n, |tail|)
    ensures InRange(k, n, |p + tail|) && BlockOf(p + tail, k, n) == BlockOf(tail, k - 1, n)
  {
    assert (k - 1) * n + n == k * n;
  }

  // ---- In pieces ----

  // Chunk after chunk with the carried iv is the whole in one piece.
  lemma {:induction false} EncryptInPieces<T>(c: Cipher<T>, iv: Iv<T>, a: seq<T>, b: seq<T>)
    requires WholeBlocks(c, a) && WholeBlocks(c, b)
    ensures WholeBlocks(c, a + b)
    ensures var first := Encrypt(c, iv, a);
            var second := Encrypt(c, first.iv, b);
            Encrypt(c, iv, a + b) == Chained(first.data + second.data, second.iv)
    decreases |a|, 1
  {
    if a == [] {
      assert a + b == b;
    } else {
      var p, rest := a[..c.size], a[c.size..];
      assert a == p + rest;
      Assoc(p, rest, b);
      EncryptHead(c, iv, p, rest, b);
    }
  }

  lemma {:induction false} EncryptHead<T>(c: Cipher<T>, iv: Iv<T>, p: seq<T>, rest: seq<T>, b: seq<T>)
    requires |p| == c.size > 0 && WholeBlocks(c, rest) && WholeBlocks(c, b)
    requires WholeBlocks(c, p + rest)
    ensures WholeBlocks(c, p + (rest + b))
    ensures var first := Encrypt(c, iv, p + rest);
            var second := Encrypt(c, first.iv, b);
            Encrypt(c, iv, p + (rest + b)) == Chained(first.data + second.data, second.iv)
    decreases |rest|, 2
  {
    var q := EncryptBlock(c, iv, p);
    var next := Iv(q, p);
    EncryptInPieces(c, next, rest, b);
    EncryptStep(c, iv, p, rest);
    EncryptStep(c, iv, p, rest + b);
    var f := Encrypt(c, next, rest);
    Assoc(q, f.data, Encrypt(c, f.iv, b).data);
  }

  lemma {:induction false} DecryptInPieces<T>(c: Cipher<T>, iv: Iv<T>, a: seq<T>, b: seq<T>)
    requires WholeBlocks(c, a) && WholeBlocks(c, b)
    ensures WholeBlocks(c, a + b)
    ensures var first := Decrypt(c, iv, a);
            var second := Decrypt(c, first.iv, b);
            Decrypt(c, iv, a + b) == Chained(first.data + second.data, second.iv)
    decreases |a|, 1
  {
    if a == [] {
      assert a + b == b;
    } else {
      var q, rest := a[..c.size], a[c.size..];
      assert a == q + rest;
      Assoc(q, rest, b);
      DecryptHead(c, iv, q, rest, b);
    }
  }

  lemma {:induction false} DecryptHead<T>(c: Cipher<T>, iv: Iv<T>, q: seq<T>, rest: seq<T>, b: seq<T>)
    requires |q| == c.size > 0 && WholeBlocks(c, rest) && WholeBlocks(c, b)
    requires WholeBlocks(c, q + rest)
    ensures WholeBlocks(c, q + (rest + b))
    ensures var first := Decrypt(c, iv, q + rest);
            var second := Decrypt(c, first.iv, b);
            Decrypt(c, iv, q + (rest + b)) == Chained(first.data + second.data, second.iv)
    decreases |rest|, 2
  {
    var p := DecryptBlock(c, iv, q);
    var next := Iv(q, p);
    DecryptInPieces(c, next, rest, b);
    DecryptStep(c, iv, q, rest);
    DecryptStep(c, iv, q, rest + b);
    var f := Decrypt(c, next, rest);
    Assoc(p, f.data, Decrypt(c, f.iv, b).data);
  }

  lemma {:induction false} DecryptThree<T>(c: Cipher<T>, iv: Iv<T>, a: seq<T>, b: seq<T>, z: seq<T>)
    requires WholeBlocks(c, a) && WholeBlocks(c, b) && WholeBlocks(c, z)
    ensures WholeBlocks(c, a + b) && WholeBlocks(c, (a + b) + z)
    ensures var first := Decrypt(c, iv, a);
            var second := Decrypt(c, first.iv, b);
            Decrypt(c, iv, a + b).iv == second.iv
            && Decrypt(c, iv, (a + b) + z).data == (first.data + second.data) + Decrypt(c, second.iv, z).data
  {
    DecryptInPieces(c, iv, a, b);
    DecryptInPieces(c, iv, a + b, z);
  }

  lemma Middle<T>(x: seq<T>, y: seq<T>, z: seq<T>)
    ensures ((x + y) + z)[|x|..|x| + |y|] == y
  {
  }

  // What decrypts to data decrypts to it piece by piece as well.
  lemma {:induction false} PieceOfThree<T(!new)>(c: Cipher<T>, iv: Iv<T>, a: seq<T>, b: seq<T>, z: seq<T>, data: seq<T>)
    requires Lawful(c) && GoodIv(c, iv)
    requires WholeBlocks(c, a) && WholeBlocks(c, b) && WholeBlocks(c, z) && WholeBlocks(c, (a + b) + z)
    requires Decrypt(c, iv, (a + b) + z).data == data
    requires |data| >= |a| + |b|
    ensures WholeBlocks(c, a + b)
    ensures Decrypt(c, Decrypt(c, iv, a).iv, b).data == data[|a|..|a| + |b|]
    ensures Decrypt(c, Decrypt(c, iv, a).iv, b).iv == Decrypt(c, iv, a + b).iv
  {
    DecryptThree(c, iv, a, b, z);
    var first := Decrypt(c, iv, a);
    DecryptShape(c, iv, a);
    var second := Decrypt(c, first.iv, b);
    DecryptShape(c, first.iv, b);
    Middle(first.data, second.data, Decrypt(c, second.iv, z).data);
  }
}
