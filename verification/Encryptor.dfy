/** The encryptor of secret messages at work on a serializer, and decryption in the
    buffer of the answer (src/secret_chat_encryptor.cpp, src/secret_chat.cpp). */
module Encryptor {
  import opened Bytes
  import opened Codec
  import opened Envelope
  import opened Ige
  import opened Serializer
  import opened Wrappers

  class SecretChatEncryptor {
    const crypto: Crypto
    const key: seq<byte>
    const fingerprint: int
    const serializer: Serializer
    var base: nat

    constructor (crypto: Crypto, key: seq<byte>, fingerprint: int, serializer: Serializer)
      ensures this.crypto == crypto && this.key == key && this.fingerprint == fingerprint && this.serializer == serializer
    {
      this.crypto, this.key, this.fingerprint, this.serializer, base := crypto, key, fingerprint, serializer, 0;
    }

    // Leaves room for length, fingerprint, message key and the length of the body.
    method Start()
      requires serializer.Valid()
      modifies this, serializer
      ensures serializer.Valid() && base == old(serializer.size)
      ensures serializer.data == old(serializer.data) + Zeros(32)
    {
      base := serializer.ReserveI32s(1 + 2 + 4 + 1);
    }

    // Pads what was written behind the room and puts the envelope around it.
    method End(random: nat -> int, ghost front: seq<byte>, ghost body: seq<byte>)
      requires serializer.Valid() && GoodCrypto(crypto) && |key| == KEY_SIZE
      requires serializer.data == front + Zeros(32) + body && |front| == 4 * base && GoodBody(body)
      modifies serializer
      ensures serializer.Valid()
      ensures exists pad | GoodPad(body, pad) :: serializer.data == front + Enveloped(crypto, key, fingerprint, body, pad)
    {
      var length := serializer.size - (base + 8);
      ghost var pad := Pad(random, front + Zeros(32) + body, |body| / 4);
      assert front + Zeros(32) + body + pad == front + Zeros(32) + (body + pad);
      Patch(length, front, body, pad);
    }

    method Pad(random: nat -> int, ghost before: seq<byte>, ghost words: nat) returns (ghost pad: seq<byte>)
      requires serializer.Valid() && serializer.data == before && |before| == 4 * (base + 8 + words)
      modifies serializer
      ensures serializer.Valid() && serializer.data == before + pad && |pad| == 4 * PadWords(words)
    {
      hide PadWords, Signed;
      pad := [];
      var i := 0;
      PadTest(words, i);
      while (serializer.size - base - 3) % 4 != 0
        invariant serializer.Valid() && serializer.data == before + pad && |pad| == 4 * i && 0 <= i <= PadWords(words)
        invariant (5 + words + i) % 4 == 0 <==> i == PadWords(words)
        decreases PadWords(words) - i
      {
        WordLength(random(i));
        pad := pad + Signed(random(i), 4);
        serializer.OutI32(random(i));
        i := i + 1;
        PadTest(words, i);
      }
    }

    // Header words, message key and encryption, all in place.
    method Patch(length: nat, ghost front: seq<byte>, ghost body: seq<byte>, ghost pad: seq<byte>)
      requires serializer.Valid() && GoodCrypto(crypto) && |key| == KEY_SIZE && |front| == 4 * base
      requires serializer.data == front + Zeros(32) + (body + pad) && GoodBody(body) && GoodPad(body, pad)
      requires 4 * length == |body|
      modifies serializer
      ensures serializer.Valid()
      ensures serializer.data == front + Enveloped(crypto, key, fingerprint, body, pad)
    {
      EnvelopeShape(crypto, key, fingerprint, body, pad);
      hide Whole, Signed, GoodCrypto, GoodBody, GoodPad, PadWords, MsgKey, Encrypted, Sealed, Header, Enveloped, Region;
      WriteHeader(length, front, body + pad);
      Seal(length, front, Header(28 + |body| + |pad|, fingerprint), body, pad);
    }

    // Behind the header: message key and encryption.
    method Seal(length: nat, ghost front: seq<byte>, ghost header: seq<byte>, ghost body: seq<byte>, ghost pad: seq<byte>)
      requires serializer.Valid() && GoodCrypto(crypto) && |key| == KEY_SIZE && |front| == 4 * base && |header| == 12
      requires Whole(|Region(body, pad)|, 16) && |Signed(|body|, 4)| == 4 && |MsgKey(crypto, body)| == 16
      requires serializer.data == front + header + Zeros(16) + Signed(|body|, 4) + (body + pad)
      requires 4 * length == |body|
      modifies serializer
      ensures serializer.size == old(serializer.size)
      ensures serializer.data == front + (header + MsgKey(crypto, body) + Encrypted(crypto, key, body, pad))
    {
      hide Whole, Encrypt, Lawful, SealingKey, GoodCrypto, Signed;
      var region := serializer.data[4 * (base + 1 + 2 + 4)..];
      ghost var room := front + header + Zeros(16);
      Behind(room, Signed(|body|, 4), body, pad);
      var hash := crypto.sha1(region[..4 * (length + 1)]);
      var msgKey := Part(hash, 4, 20);
      var secret := EncryptDecryptedMessage(msgKey, region);
      assert serializer.data[..4 * (base + 3)] == front + header by {
        assert serializer.data == (front + header) + (Zeros(16) + Signed(|body|, 4) + (body + pad));
      }
      serializer.data := serializer.data[..4 * (base + 3)] + msgKey + secret;
      assert (front + header) + msgKey + secret == front + (header + msgKey + secret);
    }

    // The three header words in front of the rest.
    method WriteHeader(length: nat, ghost front: seq<byte>, ghost rest: seq<byte>)
      requires serializer.Valid() && |front| == 4 * base
      requires serializer.data == front + Zeros(32) + rest
      modifies serializer
      ensures serializer.Valid() && serializer.size == old(serializer.size)
      ensures |Header(28 + |rest|, fingerprint)| == 12
      ensures serializer.data == front + Header(28 + |rest|, fingerprint) + Zeros(16) + Signed(4 * length, 4) + rest
    {
      var total := (serializer.size - base - 1) * 4;
      HeaderWord(total);
      LeLength(total, 3);
      hide Signed, Patched, Le;
      serializer.OutI32At(base, total * 256 + 0xfe);
      serializer.OutI64At(base + 1, fingerprint);
      serializer.OutI32At(base + 1 + 2 + 4, length * 4);
      ThreePatches(front, rest, Signed(total * 256 + 0xfe, 4), Signed(fingerprint, 8), Signed(length * 4, 4));
    }

    method EncryptDecryptedMessage(msgKey: seq<byte>, region: seq<byte>) returns (secret: seq<byte>)
      requires GoodCrypto(crypto) && |key| == KEY_SIZE && |msgKey| == 16 && Whole(|region|, 16)
      ensures var aes := SealingKey(crypto, key, msgKey);
              WholeBlocks(crypto.aes(aes.key), region) && secret == Encrypt(crypto.aes(aes.key), aes.iv, region).data
    {
      var aesKey, iv := SealingBuffers(msgKey);
      ghost var aes := SealingKey(crypto, key, msgKey);
      KeyShape(crypto, key, msgKey, aes);
      secret := Encrypt(crypto.aes(aesKey[..]), Iv(iv[..16], iv[16..]), region).data;
    }

    // The cipher key and the iv, put together in buffers of their own.
    method SealingBuffers(msgKey: seq<byte>) returns (aesKey: array<byte>, iv: array<byte>)
      requires GoodCrypto(crypto) && |key| == KEY_SIZE && |msgKey| == 16
      ensures aesKey.Length == iv.Length == 32
      ensures SealingKey(crypto, key, msgKey) == AesKey(aesKey[..], Iv(iv[..16], iv[16..]))
    {
      hide GoodCrypto, SealingKey, Derived;
      var sha1a, sha1b, sha1c, sha1d := SealingDigests(msgKey);
      aesKey := new byte[32](_ => 0);
      Copy(aesKey, 0, sha1a[0..8]);
      Copy(aesKey, 8, sha1b[8..20]);
      Copy(aesKey, 20, sha1c[4..16]);
      assert aesKey[..] == sha1a[0..8] + sha1b[8..20] + sha1c[4..16];
      iv := new byte[32](_ => 0);
      Copy(iv, 0, sha1a[8..20]);
      Copy(iv, 12, sha1b[0..8]);
      Copy(iv, 20, sha1c[16..20]);
      Copy(iv, 24, sha1d[0..8]);
      assert iv[..] == sha1a[8..20] + sha1b[0..8] + sha1c[16..20] + sha1d[0..8];
      assert iv[..][..16] == iv[..16] && iv[..][16..] == iv[16..];
      Assembled(crypto, key, msgKey, aesKey[..], iv[..]);
      DerivedOnce(crypto, key, msgKey, SealingKey(crypto, key, msgKey), AesKey(aesKey[..], Iv(iv[..16], iv[16..])));
    }

    // The four digests, each over the first 48 bytes of the same buffer.
    method SealingDigests(msgKey: seq<byte>) returns (sha1a: seq<byte>, sha1b: seq<byte>, sha1c: seq<byte>, sha1d: seq<byte>)
      requires GoodCrypto(crypto) && |key| == KEY_SIZE && |msgKey| == 16
      ensures |sha1a| == |sha1b| == |sha1c| == |sha1d| == 20
      ensures sha1a == crypto.sha1(msgKey + key[0..32]) && sha1b == crypto.sha1(key[32..48] + msgKey + key[48..64])
      ensures sha1c == crypto.sha1(key[64..96] + msgKey) && sha1d == crypto.sha1(msgKey + key[96..128])
    {
      var buf := new byte[64](_ => 0);
      Copy(buf, 0, msgKey);
      Copy(buf, 16, key[0..32]);
      assert buf[..48] == msgKey + key[0..32];
      sha1a := crypto.sha1(buf[..48]);
      Copy(buf, 0, key[32..48]);
      Copy(buf, 16, msgKey);
      Copy(buf, 32, key[48..64]);
      assert buf[..48] == key[32..48] + msgKey + key[48..64];
      sha1b := crypto.sha1(buf[..48]);
      Copy(buf, 0, key[64..96]);
      Copy(buf, 32, msgKey);
      assert buf[..48] == key[64..96] + msgKey;
      sha1c := crypto.sha1(buf[..48]);
      Copy(buf, 0, msgKey);
      Copy(buf, 16, key[96..128]);
      assert buf[..48] == msgKey + key[96..128];
      sha1d := crypto.sha1(buf[..48]);
    }
  }

  lemma {:induction false} EnvelopeShape(k: Crypto, key: seq<byte>, fingerprint: int, body: seq<byte>, pad: seq<byte>)
    requires GoodCrypto(k) && |key| == KEY_SIZE && GoodBody(body) && GoodPad(body, pad)
    ensures |Signed(|body|, 4)| == 4 && Whole(|Region(body, pad)|, 16) && |pad| <= 12
    ensures |MsgKey(k, body)| == 16
    ensures Header(28 + |body| + |pad|, fingerprint) + MsgKey(k, body) + Encrypted(k, key, body, pad)
            == Enveloped(k, key, fingerprint, body, pad)
    ensures |Enveloped(k, key, fingerprint, body, pad)| == 32 + |body| + |pad|
  {
    EnvelopeGroups(k, key, fingerprint, body, pad);
    hide *;
    RegionIsWhole(body, pad);
    MsgKeySize(k, body);
    EnvelopeSize(k, key, fingerprint, body, pad);
  }

  lemma {:induction false} EnvelopeGroups(k: Crypto, key: seq<byte>, fingerprint: int, body: seq<byte>, pad: seq<byte>)
    requires |key| == KEY_SIZE
    ensures var n := |Sealed(k, key, fingerprint, body, pad)|;
            && |Enveloped(k, key, fingerprint, body, pad)| == 4 + n
            && Header(n, fingerprint) + MsgKey(k, body) + Encrypted(k, key, body, pad)
               == Enveloped(k, key, fingerprint, body, pad)
  {
    hide Encrypted, MsgKey, Signed, Le;
    var n := |Sealed(k, key, fingerprint, body, pad)|;
    LeLength(n, 3);
    Regroup([0xfe as byte] + Le(n, 3), Signed(fingerprint, 8), MsgKey(k, body), Encrypted(k, key, body, pad));
  }

  lemma MsgKeySize(k: Crypto, body: seq<byte>)
    requires GoodCrypto(k)
    ensures |MsgKey(k, body)| == 16
  {
    assert |k.sha1(Signed(|body|, 4) + body)| == 20;
  }

  lemma {:induction false} EnvelopeSize(k: Crypto, key: seq<byte>, fingerprint: int, body: seq<byte>, pad: seq<byte>)
    requires GoodCrypto(k) && |key| == KEY_SIZE && GoodBody(body) && GoodPad(body, pad)
    ensures |Sealed(k, key, fingerprint, body, pad)| == 28 + |body| + |pad|
  {
    hide *;
    RegionIsWhole(body, pad);
    RegionComesBack(k, key, body, pad);
    OpenSealed(k, key, fingerprint, body, pad);
  }

  lemma Regroup(a: seq<byte>, b: seq<byte>, m: seq<byte>, e: seq<byte>)
    ensures a + b + m + e == a + (b + m + e)
  {
  }

  lemma Behind(room: seq<byte>, len: seq<byte>, body: seq<byte>, pad: seq<byte>)
    ensures (room + len + (body + pad))[|room|..] == len + body + pad
    ensures (len + body + pad)[..|len| + |body|] == len + body
  {
  }

  lemma PatchMiddle(a: seq<byte>, z: seq<byte>, b: seq<byte>, t: seq<byte>)
    requires |z| == |t|
    ensures Patched(a + z + b, |a|, t) == a + t + b
  {
  }

  lemma ThreePatches(front: seq<byte>, rest: seq<byte>, word: seq<byte>, finger: seq<byte>, len: seq<byte>)
    requires |word| == 4 && |finger| == 8 && |len| == 4
    ensures var n := |front|;
            var s1 := Patched(front + Zeros(32) + rest, n, word);
            && |s1| == n + 32 + |rest|
            && var s2 := Patched(s1, n + 4, finger);
            && |s2| == n + 32 + |rest|
            && Patched(s2, n + 28, len) == front + (word + finger) + Zeros(16) + len + rest
  {
    PatchFirst(front, rest, word);
    PatchSecond(front + word, rest, finger);
    PatchThird(front + word + finger, rest, len);
    assert front + word + finger == front + (word + finger);
  }

  lemma PatchFirst(a: seq<byte>, rest: seq<byte>, t: seq<byte>)
    requires |t| == 4
    ensures Patched(a + Zeros(32) + rest, |a|, t) == (a + t) + Zeros(28) + rest
  {
    assert a + Zeros(32) + rest == a + Zeros(4) + (Zeros(28) + rest);
    PatchMiddle(a, Zeros(4), Zeros(28) + rest, t);
  }

  lemma PatchSecond(a: seq<byte>, rest: seq<byte>, t: seq<byte>)
    requires |t| == 8
    ensures Patched(a + Zeros(28) + rest, |a|, t) == (a + t) + Zeros(20) + rest
  {
    assert a + Zeros(28) + rest == a + Zeros(8) + (Zeros(20) + rest);
    PatchMiddle(a, Zeros(8), Zeros(20) + rest, t);
  }

  lemma PatchThird(a: seq<byte>, rest: seq<byte>, t: seq<byte>)
    requires |t| == 4
    ensures Patched(a + Zeros(20) + rest, |a| + 16, t) == a + Zeros(16) + t + rest
  {
    assert a + Zeros(20) + rest == (a + Zeros(16)) + Zeros(4) + rest;
    PatchMiddle(a + Zeros(16), Zeros(4), rest, t);
  }

  lemma WordLength(i: int)
    ensures |Signed(i, 4)| == 4
  {
    LeLength(i % PowPos(4), 4);
  }

  lemma PadTest(words: nat, i: nat)
    requires i <= PadWords(words)
    ensures (5 + words + i) % 4 == 0 <==> i == PadWords(words)
  {
  }

  // The length in its long form and the fingerprint.
  function Header(total: nat, fingerprint: int): seq<byte> { [0xfe as byte] + Le(total, 3) + Signed(fingerprint, 8) }

  lemma HeaderWord(total: nat)
    ensures Signed(total * 256 + 0xfe, 4) == [0xfe as byte] + Le(total, 3)
  {
    var n := total * 256 + 0xfe;
    LeTruncates(n, 4);
    assert n % 0x100 == 0xfe && n / 0x100 == total;
  }

  // The bytes of s are copied to their place, and nothing else changes.
  method Copy(buffer: array<byte>, at: nat, s: seq<byte>)
    requires at + |s| <= buffer.Length
    modifies buffer
    ensures forall j | 0 <= j < buffer.Length :: buffer[j] == if at <= j < at + |s| then s[j - at] else old(buffer[j])
  {
    var i := 0;
    while i < |s|
      invariant 0 <= i <= |s|
      invariant forall j | 0 <= j < buffer.Length :: buffer[j] == if at <= j < at + i then s[j - at] else old(buffer[j])
    {
      buffer[at + i] := s[i];
      i := i + 1;
    }
  }

  // The receiver's own cipher key and iv.
  method OpeningBuffers(k: Crypto, chatKey: seq<byte>, msgKey: seq<byte>) returns (key: array<byte>, iv: array<byte>)
    requires GoodCrypto(k) && |chatKey| == KEY_SIZE && |msgKey| == 16
    ensures key.Length == iv.Length == 32
    ensures OpeningKey(k, chatKey, msgKey) == AesKey(key[..], Iv(iv[..16], iv[16..]))
  {
    hide GoodCrypto, OpeningKey, Derived;
    var a, b, c, d := OpeningDigests(k, chatKey, msgKey);
    key := new byte[32](_ => 0);
    Copy(key, 0, a[0..8]);
    Copy(key, 8, b[8..20]);
    Copy(key, 20, c[4..16]);
    assert key[..] == a[0..8] + b[8..20] + c[4..16];
    iv := new byte[32](_ => 0);
    Copy(iv, 0, a[8..20]);
    Copy(iv, 12, b[0..8]);
    Copy(iv, 20, c[16..20]);
    Copy(iv, 24, d[0..8]);
    assert iv[..] == a[8..20] + b[0..8] + c[16..20] + d[0..8];
    assert iv[..][..16] == iv[..16] && iv[..][16..] == iv[16..];
    Assembled(k, chatKey, msgKey, key[..], iv[..]);
    DerivedOnce(k, chatKey, msgKey, OpeningKey(k, chatKey, msgKey), AesKey(key[..], Iv(iv[..16], iv[16..])));
  }

  // And its own four digests.
  method OpeningDigests(k: Crypto, chatKey: seq<byte>, msgKey: seq<byte>)
    returns (a: seq<byte>, b: seq<byte>, c: seq<byte>, d: seq<byte>)
    requires GoodCrypto(k) && |chatKey| == KEY_SIZE && |msgKey| == 16
    ensures |a| == |b| == |c| == |d| == 20
    ensures a == k.sha1(msgKey + chatKey[0..32]) && b == k.sha1(chatKey[32..48] + msgKey + chatKey[48..64])
    ensures c == k.sha1(chatKey[64..96] + msgKey) && d == k.sha1(msgKey + chatKey[96..128])
  {
    var buf := new byte[64](_ => 0);
    Copy(buf, 0, msgKey);
    Copy(buf, 16, chatKey[0..32]);
    assert buf[..48] == msgKey + chatKey[0..32];
    a := k.sha1(buf[..48]);
    Copy(buf, 0, chatKey[32..48]);
    Copy(buf, 16, msgKey);
    Copy(buf, 32, chatKey[48..64]);
    assert buf[..48] == chatKey[32..48] + msgKey + chatKey[48..64];
    b := k.sha1(buf[..48]);
    Copy(buf, 0, chatKey[64..96]);
    Copy(buf, 32, msgKey);
    assert buf[..48] == chatKey[64..96] + msgKey;
    c := k.sha1(buf[..48]);
    Copy(buf, 0, msgKey);
    Copy(buf, 16, chatKey[96..128]);
    assert buf[..48] == msgKey + chatKey[96..128];
    d := k.sha1(buf[..48]);
  }

  // decrypt_message behind the fingerprint: the region is decrypted where it lies.
  method DecryptMessage(k: Crypto, key: seq<byte>, buffer: array<byte>) returns (ok: bool)
    requires GoodCrypto(k) && |key| == KEY_SIZE && buffer.Length >= 28 && Whole(buffer.Length - 24, 16)
    modifies buffer
    ensures buffer[..24] == old(buffer[..24])
    ensures buffer[24..] == Decrypted(k, key, old(buffer[8..24]), old(buffer[24..]))
    ensures ok <==> Opened(k, key, old(buffer[8..24]), buffer[24..]).Some?
  {
    hide Whole, Lawful, Decrypt, OpeningKey, Derived;
    var msgKey := buffer[8..24];
    var secret := buffer[24..];
    var aesKey, iv := OpeningBuffers(k, key, msgKey);
    ghost var aes := OpeningKey(k, key, msgKey);
    KeyShape(k, key, msgKey, aes);
    DecryptShape(k.aes(aes.key), aes.iv, secret);
    var clear := Decrypt(k.aes(aesKey[..]), Iv(iv[..16], iv[16..]), secret).data;
    Copy(buffer, 24, clear);
    assert buffer[24..] == clear;
    var x := UnSigned(buffer[24..28]);
    assert buffer[24..][..4] == buffer[24..28];
    if x < 0 || x % 4 != 0 || 28 + x > buffer.Length {
      return false;
    }
    var hash := k.sha1(buffer[24..28 + x]);
    assert buffer[24..][..4 + x] == buffer[24..28 + x];
    return Part(hash, 4, 20) == msgKey;
  }

  // The envelope with its length in front.
  function Enveloped(k: Crypto, key: seq<byte>, fingerprint: int, body: seq<byte>, pad: seq<byte>): seq<byte>
    requires |key| == KEY_SIZE
  {
    var sealed := Sealed(k, key, fingerprint, body, pad);
    [0xfe as byte] + Le(|sealed|, 3) + sealed
  }
}
