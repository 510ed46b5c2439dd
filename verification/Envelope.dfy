/** The envelope of a secret message: what the encryptor writes and what decryption
    makes of it (src/secret_chat_encryptor.cpp, src/secret_chat.cpp). */
module Envelope {
  import opened Bytes
  import opened Codec
  import opened Ige
  import opened Wrappers

  // The hash and the block cipher under a key of 32 bytes.
  datatype Crypto = Crypto(sha1: seq<byte> -> seq<byte>, aes: seq<byte> -> Cipher<byte>)

  ghost predicate GoodCrypto(k: Crypto) {
    && (forall s: seq<byte> :: |k.sha1(s)| == 20)
    && forall key: seq<byte> :: Lawful(k.aes(key)) && k.aes(key).size == 16
  }

  const KEY_SIZE: nat := 256

  datatype AesKey = AesKey(key: seq<byte>, iv: Iv<byte>)

  // The cipher key and the iv of a message, byte by byte, as the protocol takes them
  // out of four digests over the message key and the key of the chat.
  ghost predicate Derived(k: Crypto, chat: seq<byte>, msgKey: seq<byte>, aes: AesKey)
    requires GoodCrypto(k) && |chat| == KEY_SIZE
  {
    var a := k.sha1(msgKey + chat[0..32]);
    var b := k.sha1(chat[32..48] + msgKey + chat[48..64]);
    var c := k.sha1(chat[64..96] + msgKey);
    var d := k.sha1(msgKey + chat[96..128]);
    var iv := aes.iv.cipher + aes.iv.plain;
    && |aes.key| == 32 && |aes.iv.cipher| == 16 && |aes.iv.plain| == 16
    && (forall i | 0 <= i < 32 :: aes.key[i] == if i < 8 then a[i] else if i < 20 then b[i] else c[i - 16])
    && forall i | 0 <= i < 32 ::
         iv[i] == if i < 12 then a[i + 8] else if i < 20 then b[i - 12] else if i < 24 then c[i - 4] else d[i - 24]
  }

  lemma {:induction false} DerivedOnce(k: Crypto, chat: seq<byte>, msgKey: seq<byte>, x: AesKey, y: AesKey)
    requires GoodCrypto(k) && |chat| == KEY_SIZE && Derived(k, chat, msgKey, x) && Derived(k, chat, msgKey, y)
    ensures x == y
  {
    var (v, w) := (x.iv.cipher + x.iv.plain, y.iv.cipher + y.iv.plain);
    assert v == w;
    assert x.iv.cipher == v[..16] && x.iv.plain == v[16..] && y.iv.cipher == w[..16] && y.iv.plain == w[16..];
    assert x.key == y.key;
  }

  lemma {:induction false} Assembled(k: Crypto, chat: seq<byte>, msgKey: seq<byte>, key: seq<byte>, iv: seq<byte>)
    requires GoodCrypto(k) && |chat| == KEY_SIZE
    requires var a, b := k.sha1(msgKey + chat[0..32]), k.sha1(chat[32..48] + msgKey + chat[48..64]);
             var c, d := k.sha1(chat[64..96] + msgKey), k.sha1(msgKey + chat[96..128]);
             && |a| == |b| == |c| == |d| == 20
             && key == a[0..8] + b[8..20] + c[4..16] && iv == a[8..20] + b[0..8] + c[16..20] + d[0..8]
    ensures Derived(k, chat, msgKey, AesKey(key, Iv(iv[..16], iv[16..])))
  {
    hide GoodCrypto;
    assert iv[..16] + iv[16..] == iv;
  }

  // What the encryptor of a message takes for its cipher.
  function SealingKey(k: Crypto, key: seq<byte>, msgKey: seq<byte>): (aes: AesKey)
    requires |key| == KEY_SIZE
    ensures GoodCrypto(k) ==> Derived(k, key, msgKey, aes)
  {
    var a := k.sha1(msgKey + key[0..32]);
    var b := k.sha1(key[32..48] + msgKey + key[48..64]);
    var c := k.sha1(key[64..96] + msgKey);
    var d := k.sha1(msgKey + key[96..128]);
    var iv := Part(a, 8, 20) + Part(b, 0, 8) + Part(c, 16, 20) + Part(d, 0, 8);
    AesKey(Part(a, 0, 8) + Part(b, 8, 20) + Part(c, 4, 16), Iv(Part(iv, 0, 16), Part(iv, 16, 32)))
  }

  // What the receiver of a message takes for its cipher, worked out on its own.
  function OpeningKey(k: Crypto, key: seq<byte>, msgKey: seq<byte>): (aes: AesKey)
    requires |key| == KEY_SIZE
    ensures GoodCrypto(k) ==> Derived(k, key, msgKey, aes)
  {
    var sha1a, sha1b := k.sha1(msgKey + key[0..32]), k.sha1(key[32..48] + msgKey + key[48..64]);
    var sha1c, sha1d := k.sha1(key[64..96] + msgKey), k.sha1(msgKey + key[96..128]);
    AesKey(Part(sha1a, 0, 8) + Part(sha1b, 8, 20) + Part(sha1c, 4, 16),
           Iv(Part(sha1a, 8, 20) + Part(sha1b, 0, 4),
              Part(sha1b, 4, 8) + Part(sha1c, 16, 20) + Part(sha1d, 0, 8)))
  }

  function Part(s: seq<byte>, a: nat, b: nat): seq<byte> { if a <= b <= |s| then s[a..b] else [] }

  // What is encrypted: the length of the body, the body and padding.
  function Region(body: seq<byte>, pad: seq<byte>): seq<byte> { Signed(|body|, 4) + body + pad }

  function MsgKey(k: Crypto, body: seq<byte>): seq<byte> { Part(k.sha1(Signed(|body|, 4) + body), 4, 20) }

  // The number of padding words that make the region a number of whole blocks.
  function PadWords(words: nat): nat { (4 - (1 + words) % 4) % 4 }

  // Whole words, with a length that fits a signed word.
  predicate GoodBody(body: seq<byte>) { |body| % 4 == 0 && |body| < 0x8000_0000 }

  predicate GoodPad(body: seq<byte>, pad: seq<byte>) { |pad| == 4 * PadWords(|body| / 4) }

  function Encrypted(k: Crypto, key: seq<byte>, body: seq<byte>, pad: seq<byte>): seq<byte>
    requires |key| == KEY_SIZE
  {
    var msgKey := MsgKey(k, body);
    var aes := SealingKey(k, key, msgKey);
    var region := Region(body, pad);
    if WholeBlocks(k.aes(aes.key), region) then Encrypt(k.aes(aes.key), aes.iv, region).data else region
  }

  // The bytes behind the length: fingerprint, message key and encrypted region.
  function Sealed(k: Crypto, key: seq<byte>, fingerprint: int, body: seq<byte>, pad: seq<byte>): seq<byte>
    requires |key| == KEY_SIZE
  {
    Signed(fingerprint, 8) + MsgKey(k, body) + Encrypted(k, key, body, pad)
  }

  // decrypt_message behind the check of the fingerprint: the body, None where the
  // length is odd or the message key differs.
  function Opened(k: Crypto, key: seq<byte>, msgKey: seq<byte>, region: seq<byte>): Option<seq<byte>>
    requires |region| >= 4
  {
    var x := UnSigned(region[..4]);
    if x < 0 || x % 4 != 0 || 4 + x > |region| then None
    else if Part(k.sha1(region[..4 + x]), 4, 20) != msgKey then None
    else Some(region[4..4 + x])
  }

  function Decrypted(k: Crypto, key: seq<byte>, msgKey: seq<byte>, secret: seq<byte>): seq<byte>
    requires |key| == KEY_SIZE
  {
    var aes := OpeningKey(k, key, msgKey);
    if WholeBlocks(k.aes(aes.key), secret) then Decrypt(k.aes(aes.key), aes.iv, secret).data else secret
  }

  function Open(k: Crypto, key: seq<byte>, fingerprint: int, bytes: seq<byte>): Option<seq<byte>>
    requires |key| == KEY_SIZE
  {
    if |bytes| < 28 || bytes[..8] != Signed(fingerprint, 8) then None
    else
      var region := Decrypted(k, key, bytes[8..24], bytes[24..]);
      if |region| < 4 then None else Opened(k, key, bytes[8..24], region)
  }

  // ---- What the encryptor writes can be opened ----

  lemma {:induction false} RegionIsWhole(body: seq<byte>, pad: seq<byte>)
    requires GoodBody(body) && GoodPad(body, pad)
    ensures |Signed(|body|, 4)| == 4 && UnSigned(Signed(|body|, 4)) == |body|
    ensures |Region(body, pad)| == 4 + |body| + |pad| && Whole(|Region(body, pad)|, 16) && |pad| <= 12
  {
    assert Fits(|body|, 4) by {
      assert PowPos(4) == 0x1_0000_0000;
    }
    SignedRoundTrip(|body|, 4);
    PaddedWords(|body| / 4);
    hide Whole, Signed, UnSigned, PadWords;
    assert |Region(body, pad)| == 4 + |body| + |pad|;
  }

  lemma {:induction false} PaddedWords(n: nat)
    ensures Whole(4 + 4 * n + 4 * PadWords(n), 16) && PadWords(n) <= 3
  {
    var k := PadCompletes(n);
    hide PadWords, Whole;
    assert 16 * k % 16 == 0;
    MultipleIsWhole(16 * k, 16);
  }

  lemma PadCompletes(n: nat) returns (k: nat)
    ensures 4 + 4 * n + 4 * PadWords(n) == 16 * k && PadWords(n) <= 3
  {
    var (q, r) := ((1 + n) / 4, (1 + n) % 4);
    k := if r == 0 then q else q + 1;
  }

  lemma KeyShape(k: Crypto, key: seq<byte>, msgKey: seq<byte>, aes: AesKey)
    requires GoodCrypto(k) && |key| == KEY_SIZE && Derived(k, key, msgKey, aes)
    ensures Lawful(k.aes(aes.key)) && k.aes(aes.key).size == 16 && GoodIv(k.aes(aes.key), aes.iv)
  {
  }

  lemma {:induction false} RegionComesBack(k: Crypto, key: seq<byte>, body: seq<byte>, pad: seq<byte>)
    requires GoodCrypto(k) && |key| == KEY_SIZE && GoodBody(body) && GoodPad(body, pad)
    ensures Decrypted(k, key, MsgKey(k, body), Encrypted(k, key, body, pad)) == Region(body, pad)
    ensures |Encrypted(k, key, body, pad)| == |Region(body, pad)|
  {
    RegionIsWhole(body, pad);
    var msgKey := MsgKey(k, body);
    hide SealingKey, OpeningKey, Derived, Whole, Encrypt, Decrypt, Lawful;
    var aes := SealingKey(k, key, msgKey);
    KeyShape(k, key, msgKey, aes);
    DerivedOnce(k, key, msgKey, aes, OpeningKey(k, key, msgKey));
    EncryptShape(k.aes(aes.key), aes.iv, Region(body, pad));
    RoundTrip(k.aes(aes.key), aes.iv, Region(body, pad));
  }

  lemma {:induction false} RegionOpens(k: Crypto, key: seq<byte>, body: seq<byte>, pad: seq<byte>)
    requires GoodBody(body) && GoodPad(body, pad)
    ensures |Region(body, pad)| >= 4 && Opened(k, key, MsgKey(k, body), Region(body, pad)) == Some(body)
  {
    RegionIsWhole(body, pad);
    var region := Region(body, pad);
    assert region[..4] == Signed(|body|, 4);
    assert region[..4 + |body|] == Signed(|body|, 4) + body;
    assert region[4..4 + |body|] == body;
  }

  // Opening what was sealed under the same key gives the body, whatever its length.
  lemma {:induction false} OpenSealed(k: Crypto, key: seq<byte>, fingerprint: int, body: seq<byte>, pad: seq<byte>)
    requires GoodCrypto(k) && |key| == KEY_SIZE && GoodBody(body) && GoodPad(body, pad)
    ensures Open(k, key, fingerprint, Sealed(k, key, fingerprint, body, pad)) == Some(body)
    ensures |Sealed(k, key, fingerprint, body, pad)| == 28 + |body| + |pad|
    ensures (|Sealed(k, key, fingerprint, body, pad)| - 24) % 16 == 0 && |pad| <= 12
  {
    RegionIsWhole(body, pad);
    RegionComesBack(k, key, body, pad);
    RegionOpens(k, key, body, pad);
    LeLength(fingerprint % PowPos(8), 8);
    MultipleIsWhole(|Region(body, pad)|, 16);
    SealedParts(Signed(fingerprint, 8), MsgKey(k, body), Encrypted(k, key, body, pad));
    hide Encrypted, Decrypted, Opened, Region, Whole;
  }

  // What stands where: the fingerprint; sixteen bytes of the digest of length and body;
  // and length, body and padding encrypted under the key and iv derived from these.
  lemma {:induction false} SealedLayout(k: Crypto, key: seq<byte>, fingerprint: int, body: seq<byte>, pad: seq<byte>)
    requires GoodCrypto(k) && |key| == KEY_SIZE && GoodBody(body) && GoodPad(body, pad)
    ensures var (s, length) := (Sealed(k, key, fingerprint, body, pad), Signed(|body|, 4));
            && |s| >= 28 && s[..8] == Signed(fingerprint, 8) && s[8..24] == k.sha1(length + body)[4..20]
            && exists aes | Derived(k, key, s[8..24], aes) ::
                 && WholeBlocks(k.aes(aes.key), length + body + pad)
                 && s[24..] == Encrypt(k.aes(aes.key), aes.iv, length + body + pad).data
  {
    RegionIsWhole(body, pad);
    RegionComesBack(k, key, body, pad);
    LeLength(fingerprint % PowPos(8), 8);
    var aes := SealingKey(k, key, MsgKey(k, body));
    KeyShape(k, key, MsgKey(k, body), aes);
    hide Derived, Encrypt, Lawful, Whole, SealingKey;
    SealedParts(Signed(fingerprint, 8), MsgKey(k, body), Encrypted(k, key, body, pad));
    assert Derived(k, key, Sealed(k, key, fingerprint, body, pad)[8..24], aes);
  }

  // What is opened, bit for bit: the bytes carry the fingerprint, and what comes out under
  // the key and iv derived from their message key starts with a length that is a whole
  // number of words within it, and its digest up to there gives the message key.
  lemma {:induction false} OpenedIff(k: Crypto, key: seq<byte>, fingerprint: int, bytes: seq<byte>, aes: AesKey)
    requires GoodCrypto(k) && |key| == KEY_SIZE && |bytes| >= 28 && Derived(k, key, bytes[8..24], aes)
    requires WholeBlocks(k.aes(aes.key), bytes[24..])
    ensures var clear := Decrypt(k.aes(aes.key), aes.iv, bytes[24..]).data;
            && |clear| >= 4
            && var x := UnSigned(clear[..4]);
            && (Open(k, key, fingerprint, bytes).Some? <==>
                  && bytes[..8] == Signed(fingerprint, 8) && x >= 0 && x % 4 == 0 && 4 + x <= |clear|
                  && k.sha1(clear[..4 + x])[4..20] == bytes[8..24])
            && (Open(k, key, fingerprint, bytes).Some? ==> Open(k, key, fingerprint, bytes).value == clear[4..4 + x])
  {
    hide Whole, Decrypt, Lawful, OpeningKey, Derived, Signed, UnSigned;
    DerivedOnce(k, key, bytes[8..24], aes, OpeningKey(k, key, bytes[8..24]));
    KeyShape(k, key, bytes[8..24], aes);
    DecryptShape(k.aes(aes.key), aes.iv, bytes[24..]);
  }

  lemma SealedParts(f: seq<byte>, m: seq<byte>, e: seq<byte>)
    requires |f| == 8 && |m| == 16
    ensures (f + m + e)[..8] == f && (f + m + e)[8..24] == m && (f + m + e)[24..] == e
  {
  }

  // The length in front is always written in its long form and cut off at 24 bits, so
  // the reader gets the envelope if and only if it has 254 to 2^24 - 1 bytes.
  lemma {:induction false} ReadableIfLong(sealed: seq<byte>)
    requires |sealed| % 4 == 0
    ensures Fetch(StrKind, [0xfe as byte] + Le(|sealed|, 3) + sealed) == Some(Fetched(Str(sealed), []))
            <==> 254 <= |sealed| < TOO_LONG
  {
    hide PrefetchStrlen, Le, Fetch;
    var n := |sealed|;
    var s := [0xfe as byte] + Le(n, 3) + sealed;
    LeLength(n, 3);
    assert s[..4] == [0xfe as byte] + Le(n, 3);
    ShortStringNeedsShortLength(n, s);
    assert |s| == 4 + n && s[4..] == sealed;
    if 254 <= n < TOO_LONG {
      LongIsRead(s, sealed);
    } else if PrefetchStrlen(s) >= 0 {
      OtherLength(s, sealed);
    } else {
      NothingRead(s);
    }
  }

  lemma NothingRead(s: seq<byte>)
    requires PrefetchStrlen(s) < 0
    ensures Fetch(StrKind, s).None?
  {
    hide PrefetchStrlen;
  }

  lemma LongIsRead(s: seq<byte>, sealed: seq<byte>)
    requires PrefetchStrlen(s) == |sealed| >= 254 && |sealed| % 4 == 0 && |s| == 4 + |sealed| && s[4..] == sealed
    ensures Fetch(StrKind, s) == Some(Fetched(Str(sealed), []))
  {
    StrInBounds(s);
    hide PrefetchStrlen;
    assert s[4..4 + |sealed|] == s[4..] && s[4 + |sealed|..] == [];
  }

  lemma OtherLength(s: seq<byte>, sealed: seq<byte>)
    requires PrefetchStrlen(s) >= 0 && PrefetchStrlen(s) != |sealed|
    ensures Fetch(StrKind, s) != Some(Fetched(Str(sealed), []))
  {
    StrInBounds(s);
    hide PrefetchStrlen;
  }

  // That is the case exactly for bodies of 224 to 2^24 - 36 bytes.
  lemma {:induction false} ReadableIffBody(k: Crypto, key: seq<byte>, fingerprint: int, body: seq<byte>, pad: seq<byte>)
    requires GoodCrypto(k) && |key| == KEY_SIZE && GoodBody(body) && GoodPad(body, pad)
    ensures var sealed := Sealed(k, key, fingerprint, body, pad);
            Fetch(StrKind, [0xfe as byte] + Le(|sealed|, 3) + sealed) == Some(Fetched(Str(sealed), []))
            <==> 224 <= |body| <= TOO_LONG - 36
  {
    hide Sealed, Open, Fetch, PrefetchStrlen, GoodCrypto, PadWords, MsgKey, Encrypted, Le;
    OpenSealed(k, key, fingerprint, body, pad);
    SealedLength(|body| / 4);
    ReadableIfLong(Sealed(k, key, fingerprint, body, pad));
  }

  lemma SealedLength(n: nat)
    ensures 254 <= 28 + 4 * n + 4 * PadWords(n) < TOO_LONG <==> 224 <= 4 * n <= TOO_LONG - 36
    ensures (28 + 4 * n + 4 * PadWords(n)) % 4 == 0
  {
  }
}
