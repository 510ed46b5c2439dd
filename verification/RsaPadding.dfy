/** Padding and chunkwise encryption under an RSA key (src/mtproto_common.cpp). */
module RsaPadding {
  import opened Bytes
  import opened Codec
  import opened ModArith
  import opened Wrappers

  const MAX_INPUT: nat := 2550

  // The source computes this in C, where the dividend is not negative either.
  function PadSize(len: nat): nat
    requires len <= MAX_INPUT
  {
    (255000 - len - 32) % 255 + 32
  }

  // Every input of 1 to 2550 bytes gets 32 to 286 bytes of padding and then has a
  // whole number of chunks.
  lemma {:induction false} PaddedLength(len: nat)
    requires len <= MAX_INPUT
    ensures 32 <= PadSize(len) <= 286 && (len + PadSize(len)) % 255 == 0
  {
    var m := 255000 - len - 32;
    var (q, r) := (m / 255, m % 255);
    assert len + PadSize(len) == 255 * (1000 - q);
  }

  // A key with modulus n; width is the number of bytes in a chunk.
  datatype Key = Key(n: nat, e: nat, d: nat, width: nat)

  // A modulus of 2041 to 2048 bits, and exponents that undo each other.
  ghost predicate GoodKey(k: Key) {
    && k.width == 255
    && Pow(0x100, k.width) <= k.n < Pow(0x100, k.width + 1)
    && k.n > 0
    && forall x: nat | x < k.n :: PowMod(PowMod(x, k.e, k.n), k.d, k.n) == x
  }

  // n in width bytes, with zeros in front.
  function Fixed(n: nat, width: nat): seq<byte> {
    var s := BigBytes(n);
    if |s| <= width then Zeros(width - |s|) + s else s
  }

  lemma {:induction false} BigBelow(s: seq<byte>)
    ensures BigOf(s) < Pow(0x100, |s|)
  {
    if s != [] {
      BigBelow(s[..|s| - 1]);
    }
  }

  // A number needs no more bytes than its size allows.
  lemma {:induction false} BigFits(n: nat, width: nat)
    requires n < Pow(0x100, width)
    ensures |BigBytes(n)| <= width
  {
    if n > 0 && width > 0 {
      assert n / 0x100 < Pow(0x100, width - 1);
      BigFits(n / 0x100, width - 1);
    }
  }

  lemma {:induction false} BigOfZeros(m: nat, s: seq<byte>)
    ensures BigOf(Zeros(m) + s) == BigOf(s)
    decreases m + |s|
  {
    if s == [] {
      if m > 0 {
        assert (Zeros(m) + s)[..m - 1] == Zeros(m - 1) + s;
        BigOfZeros(m - 1, s);
      } else {
        assert Zeros(m) + s == s;
      }
    } else {
      var n := |s| - 1;
      assert (Zeros(m) + s)[..m + n] == Zeros(m) + s[..n];
      BigOfZeros(m, s[..n]);
    }
  }

  // Bytes of one length are determined by their number.
  lemma {:induction false} SameBytes(s: seq<byte>, t: seq<byte>)
    requires |s| == |t| && BigOf(s) == BigOf(t)
    ensures s == t
  {
    if s != [] {
      var n := |s| - 1;
      DivModUnique(BigOf(s), 0x100, BigOf(s[..n]), s[n] as int);
      DivModUnique(BigOf(s), 0x100, BigOf(t[..n]), t[n] as int);
      SameBytes(s[..n], t[..n]);
      assert s == s[..n] + [s[n]] && t == t[..n] + [t[n]];
    }
  }

  lemma {:induction false} FixedRoundTrip(s: seq<byte>)
    ensures |BigBytes(BigOf(s))| <= |s| && Fixed(BigOf(s), |s|) == s
  {
    BigBelow(s);
    BigFits(BigOf(s), |s|);
    var t := BigBytes(BigOf(s));
    BigRoundTrip(BigOf(s));
    BigOfZeros(|s| - |t|, t);
    SameBytes(Fixed(BigOf(s), |s|), s);
  }

  lemma {:induction false} FixedNumber(n: nat, width: nat)
    requires n < Pow(0x100, width)
    ensures |Fixed(n, width)| == width && BigOf(Fixed(n, width)) == n
  {
    BigFits(n, width);
    BigRoundTrip(n);
    BigOfZeros(width - |BigBytes(n)|, BigBytes(n));
  }

  // ---- Chunks ----

  function EncryptChunk(k: Key, s: seq<byte>): seq<byte>
    requires k.n > 0
  {
    Fixed(PowMod(BigOf(s), k.e, k.n), 256)
  }

  // None where the number does not fit a chunk, which is an error.
  function DecryptChunk(k: Key, s: seq<byte>): Option<seq<byte>>
    requires k.n > 0
  {
    var y := PowMod(BigOf(s), k.d, k.n);
    if |BigBytes(y)| > 255 then None else Some(Fixed(y, 255))
  }

  function EncryptChunks(k: Key, s: seq<byte>): seq<byte>
    requires k.n > 0
  {
    if |s| < 255 then [] else EncryptChunk(k, s[..255]) + EncryptChunks(k, s[255..])
  }

  function DecryptChunks(k: Key, s: seq<byte>): Option<seq<byte>>
    requires k.n > 0
  {
    if |s| < 256 then Some([])
    else
      var first := DecryptChunk(k, s[..256]);
      var rest := DecryptChunks(k, s[256..]);
      if first.None? || rest.None? then None else Some(first.value + rest.value)
  }

  // A chunk is below every admissible modulus, so its decryption is the chunk.
  lemma {:induction false} ChunkRoundTrip(k: Key, s: seq<byte>)
    requires GoodKey(k) && |s| == k.width
    ensures BigOf(s) < k.n && |EncryptChunk(k, s)| == 256
    ensures DecryptChunk(k, EncryptChunk(k, s)) == Some(s)
  {
    BigBelow(s);
    var x := BigOf(s);
    var y := PowMod(x, k.e, k.n);
    FixedNumber(y, k.width + 1);
    FixedRoundTrip(s);
  }

  // Decrypting what was encrypted chunk by chunk gives the padded input back.
  lemma {:induction false} ChunksRoundTrip(k: Key, s: seq<byte>, count: nat)
    requires GoodKey(k) && |s| == 255 * count
    ensures |EncryptChunks(k, s)| == 256 * count
    ensures DecryptChunks(k, EncryptChunks(k, s)) == Some(s)
  {
    if count > 0 {
      var (a, b) := (s[..255], s[255..]);
      ChunkRoundTrip(k, a);
      ChunksRoundTrip(k, b, count - 1);
      var (x, y) := (EncryptChunk(k, a), EncryptChunks(k, b));
      assert (x + y)[..256] == x && (x + y)[256..] == y;
      assert s == a + b;
    }
  }

  // The i-th 256 bytes of the ciphertext are the number of the i-th 255 bytes of the
  // input to the power of the public exponent.
  lemma {:induction false} ChunkNumbers(k: Key, s: seq<byte>, count: nat, i: nat)
    requires GoodKey(k) && |s| == 255 * count && i < count
    ensures |EncryptChunks(k, s)| == 256 * count
    ensures BigOf(EncryptChunks(k, s)[256 * i..256 * i + 256]) == Pow(BigOf(s[255 * i..255 * i + 255]), k.e) % k.n
  {
    var (a, b) := (s[..255], s[255..]);
    assert k.n > 0 && EncryptChunks(k, s) == EncryptChunk(k, a) + EncryptChunks(k, b);
    hide GoodKey, EncryptChunk, EncryptChunks, BigOf, Pow;
    ChunkNumber(k, a);
    ChunksRoundTrip(k, s, count);
    ChunksRoundTrip(k, b, count - 1);
    var (x, y) := (EncryptChunk(k, a), EncryptChunks(k, b));
    if i > 0 {
      ChunkNumbers(k, b, count - 1, i - 1);
      StretchBehind(x, y, 256, 256 * (i - 1));
      StretchBehind(a, b, 255, 255 * (i - 1));
      assert s == a + b;
    } else {
      assert (x + y)[0..256] == x && s[0..255] == a;
    }
  }

  lemma StretchBehind(x: seq<byte>, y: seq<byte>, n: nat, at: nat)
    requires |x| == n && at + n <= |y|
    ensures (x + y)[n + at..n + at + n] == y[at..at + n]
  {
  }

  lemma {:induction false} ChunkNumber(k: Key, a: seq<byte>)
    requires GoodKey(k) && |a| == 255
    ensures |EncryptChunk(k, a)| == 256 && BigOf(EncryptChunk(k, a)) == Pow(BigOf(a), k.e) % k.n
  {
    FixedNumber(PowMod(BigOf(a), k.e, k.n), 256);
    hide Fixed, BigOf;
  }

  // For every input the padding completes the last chunk, and it all comes back.
  lemma {:induction false} PaddedRoundTrip(k: Key, input: seq<byte>, random: seq<byte>)
    requires GoodKey(k) && |input| <= MAX_INPUT && |random| == PadSize(|input|)
    ensures |EncryptChunks(k, input + random)| == BufferSize(|input|)
    ensures DecryptChunks(k, EncryptChunks(k, input + random)) == Some(input + random)
  {
    PaddedLength(|input|);
    hide GoodKey, EncryptChunks, DecryptChunks, PadSize;
    ChunksRoundTrip(k, input + random, |input + random| / 255);
  }

  // ---- In the buffers ----

  function BufferSize(len: nat): nat
    requires len <= MAX_INPUT
  {
    (len + PadSize(len)) / 255 * 256
  }

  // The padding is put behind the input, in the input buffer itself.
  method PadRsaEncrypt(k: Key, from: array<byte>, len: nat, random: seq<byte>, to: array<byte>) returns (written: nat)
    requires GoodKey(k) && from != to && 0 < len <= MAX_INPUT
    requires len + PadSize(len) <= from.Length && BufferSize(len) <= to.Length && |random| == PadSize(len)
    modifies from, to
    ensures written == BufferSize(len) <= to.Length
    ensures from[..len + PadSize(len)] == old(from[..len]) + random
    ensures to[..written] == EncryptChunks(k, old(from[..len]) + random)
  {
    PaddedLength(len);
    ghost var input := from[..len] + random;
    var pad := PadSize(len);
    var i := 0;
    while i < pad
      invariant 0 <= i <= pad && from[..len + i] == input[..len + i]
    {
      from[len + i] := random[i];
      i := i + 1;
    }
    var chunks := (len + pad) / 255;
    assert from[..255 * chunks] == input;
    EncryptInto(k, from, to, chunks, input);
    written := 256 * chunks;
  }

  method EncryptInto(k: Key, from: array<byte>, to: array<byte>, chunks: nat, ghost input: seq<byte>)
    requires GoodKey(k) && from != to && 255 * chunks <= from.Length && 256 * chunks <= to.Length
    requires from[..255 * chunks] == input
    modifies to
    ensures to[..256 * chunks] == EncryptChunks(k, input)
  {
    var i := 0;
    assert input[0..] == input;
    while i < chunks
      invariant 0 <= i <= chunks && from[..] == old(from[..])
      invariant EncryptChunks(k, input) == to[..256 * i] + EncryptChunks(k, input[255 * i..])
    {
      EncryptNext(k, input, i, to[..256 * i]);
      hide EncryptChunk, EncryptChunks;
      EncryptRound(k, from, to, i, input);
      i := i + 1;
    }
    assert input[255 * chunks..] == [];
  }

  method EncryptRound(k: Key, from: array<byte>, to: array<byte>, i: nat, ghost input: seq<byte>)
    requires GoodKey(k) && from != to && 255 * (i + 1) <= |input| <= from.Length && 256 * (i + 1) <= to.Length
    requires from[..|input|] == input
    modifies to
    ensures to[..256 * (i + 1)] == old(to[..256 * i]) + EncryptChunk(k, input[255 * i..255 * i + 255])
  {
    ghost var done := to[..256 * i];
    var chunk := from[255 * i..255 * i + 255];
    assert chunk == input[255 * i..255 * i + 255];
    ChunkRoundTrip(k, chunk);
    var y := EncryptChunk(k, chunk);
    hide EncryptChunk, GoodKey;
    Put(to, 256 * i, y);
    assert to[..256 * (i + 1)] == done + y;
  }

  lemma {:induction false} EncryptNext(k: Key, input: seq<byte>, i: nat, done: seq<byte>)
    requires k.n > 0 && 255 * (i + 1) <= |input|
    requires EncryptChunks(k, input) == done + EncryptChunks(k, input[255 * i..])
    ensures EncryptChunks(k, input) == (done + EncryptChunk(k, input[255 * i..255 * i + 255])) + EncryptChunks(k, input[255 * (i + 1)..])
  {
    var rest := input[255 * i..];
    assert rest[..255] == input[255 * i..255 * i + 255] && rest[255..] == input[255 * (i + 1)..];
  }

  method Put(to: array<byte>, at: nat, s: seq<byte>)
    requires at + |s| <= to.Length
    modifies to
    ensures to[..] == old(to[..at]) + s + old(to[at + |s|..])
  {
    var i := 0;
    while i < |s|
      invariant 0 <= i <= |s|
      invariant forall j | 0 <= j < to.Length :: to[j] == if at <= j < at + i then s[j - at] else old(to[j])
    {
      to[at + i] := s[i];
      i := i + 1;
    }
  }

  // The number of bytes written, or -1.
  method PadRsaDecrypt(k: Key, from: seq<byte>, to: array<byte>) returns (written: int)
    requires k.n > 0 && (|from| <= 0x1000 && |from| % 256 == 0 ==> |from| / 256 * 255 <= to.Length)
    modifies to
    ensures |from| > 0x1000 || |from| % 256 != 0 ==> written == -1
    ensures |from| <= 0x1000 && |from| % 256 == 0 ==>
              if DecryptChunks(k, from).None? then written == -1
              else 0 <= written <= to.Length && to[..written] == DecryptChunks(k, from).value
  {
    if |from| > 0x1000 || |from| % 256 != 0 {
      return -1;
    }
    var chunks := |from| / 256;
    var i := 0;
    assert from[0..] == from && to[..0] == [];
    Joined(k, from);
    while i < chunks
      invariant 0 <= i <= chunks && DecryptChunks(k, from) == Behind(to[..255 * i], DecryptChunks(k, from[256 * i..]))
    {
      ghost var done := to[..255 * i];
      var chunk := from[256 * i..256 * i + 256];
      DecryptNext(k, from, i, done);
      var y := DecryptChunk(k, chunk);
      hide DecryptChunk, DecryptChunks;
      if y.None? {
        return -1;
      }
      Put(to, 255 * i, y.value);
      assert to[..255 * (i + 1)] == done + y.value;
      i := i + 1;
    }
    assert from[256 * chunks..] == [];
    assert to[..255 * chunks] + [] == to[..255 * chunks];
    return 255 * chunks;
  }

  function Behind(done: seq<byte>, rest: Option<seq<byte>>): Option<seq<byte>> {
    if rest.None? then None else Some(done + rest.value)
  }

  lemma Joined(k: Key, from: seq<byte>)
    requires k.n > 0
    ensures DecryptChunks(k, from) == Behind([], DecryptChunks(k, from))
  {
    if DecryptChunks(k, from).Some? {
      assert [] + DecryptChunks(k, from).value == DecryptChunks(k, from).value;
    }
  }

  lemma {:induction false} DecryptNext(k: Key, from: seq<byte>, i: nat, done: seq<byte>)
    requires k.n > 0 && 256 * (i + 1) <= |from|
    requires DecryptChunks(k, from) == Behind(done, DecryptChunks(k, from[256 * i..]))
    ensures var y := DecryptChunk(k, from[256 * i..256 * i + 256]);
            && (y.Some? ==> |y.value| == 255)
            && DecryptChunks(k, from) ==
               if y.None? then None else Behind(done + y.value, DecryptChunks(k, from[256 * (i + 1)..]))
  {
    var rest := from[256 * i..];
    assert rest[..256] == from[256 * i..256 * i + 256] && rest[256..] == from[256 * (i + 1)..];
    var y := DecryptChunk(k, rest[..256]);
    var later := DecryptChunks(k, rest[256..]);
    if y.Some? && later.Some? {
      assert done + (y.value + later.value) == (done + y.value) + later.value;
    }
  }
}
