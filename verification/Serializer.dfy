/** The serializer that grows a buffer of words and the cursor that reads one
    (src/mtproto_common.h, src/mtproto_common.cpp). */
module Serializer {
  import opened Bytes
  import opened Codec
  import opened Wrappers

  // Puts t over the bytes of s from at on.
  function Patched(s: seq<byte>, at: nat, t: seq<byte>): seq<byte>
    requires at + |t| <= |s|
  {
    s[..at] + t + s[at + |t|..]
  }

  // Lays a header, a body and zeros into a fresh buffer, as out_string and
  // tgl_serialize_bignum do through a moving pointer.
  method Fill(header: seq<byte>, body: seq<byte>, size: nat) returns (buffer: array<byte>)
    requires |header| + |body| <= size
    ensures fresh(buffer) && buffer[..] == header + body + Zeros(size - |header| - |body|)
  {
    buffer := new byte[size];
    var front := header + body;
    var dest := 0;
    while dest < |front|
      invariant 0 <= dest <= |front| && buffer[..dest] == front[..dest]
    {
      buffer[dest] := front[dest];
      dest := dest + 1;
    }
    while dest < size
      invariant |front| <= dest <= size && buffer[..|front|] == front
      invariant forall i | |front| <= i < dest :: buffer[i] == 0
    {
      buffer[dest] := 0;
      dest := dest + 1;
    }
    assert buffer[..] == buffer[..|front|] + buffer[|front|..];
  }

  // tgl_serialize_bignum: the size written, or less than 0 where max is too small.
  method SerializeBignum(n: nat, max: int) returns (length: int, buffer: seq<byte>)
    ensures var size := |OutStr(BigBytes(n))|;
            if size > max then length == -size && buffer == [] else length == size && buffer == OutStr(BigBytes(n))
  {
    var bytes := BigBytes(n);
    var required := |bytes| + (if |bytes| < 254 then 1 else 4);
    var whole := (required + 3) / 4 * 4;
    var pad := whole - required;
    StrHeaderLength(|bytes|);
    assert pad == PadTo4(required);
    if whole > max {
      return -whole, [];
    }
    var filled := Fill(StrHeader(|bytes|), bytes, whole);
    return whole, filled[..];
  }

  class Serializer {
    var data: seq<byte>
    var size: nat

    // The buffer is a vector of size words.
    ghost predicate Valid()
      reads this
    {
      |data| == 4 * size
    }

    constructor ()
      ensures Valid() && data == []
    {
      data, size := [], 0;
    }

    method ReserveI32s(count: nat) returns (at: nat)
      requires Valid()
      modifies this
      ensures Valid() && data == old(data) + Zeros(4 * count) && 4 * at == |old(data)|
    {
      at := size;
      data := data + Zeros(4 * count);
      size := size + count;
    }

    method OutI32(i: int)
      requires Valid()
      modifies this
      ensures Valid() && data == old(data) + Signed(i, 4)
    {
      LeLength(i % PowPos(4), 4);
      data := data + Signed(i, 4);
      size := size + 1;
    }

    // Positions are counted in words.
    method OutI32At(at: nat, i: int)
      requires Valid() && 4 * at + 4 <= |data|
      modifies this
      ensures Valid() && |Signed(i, 4)| == 4 && data == Patched(old(data), 4 * at, Signed(i, 4))
    {
      LeLength(i % PowPos(4), 4);
      data := Patched(data, 4 * at, Signed(i, 4));
    }

    method OutI64(i: int)
      requires Valid()
      modifies this
      ensures Valid() && data == old(data) + Signed(i, 8)
    {
      var at := ReserveI32s(2);
      OutI64At(at, i);
    }

    method OutI64At(at: nat, i: int)
      requires Valid() && 4 * at + 8 <= |data|
      modifies this
      ensures Valid() && |Signed(i, 8)| == 8 && data == Patched(old(data), 4 * at, Signed(i, 8))
    {
      LeLength(i % PowPos(8), 8);
      data := Patched(data, 4 * at, Signed(i, 8));
    }

    // False where the source throws.
    method OutString(s: seq<byte>) returns (ok: bool)
      requires Valid()
      modifies this
      ensures Valid() && (ok <==> |s| < TOO_LONG)
      ensures data == if ok then old(data) + OutStr(s) else old(data)
    {
      if |s| >= TOO_LONG {
        return false;
      }
      StrHeaderLength(|s|);
      SpanIsRounded(|s|);
      var words := if |s| < 0xfe then (1 + |s| + 3) / 4 else (4 + |s| + 3) / 4;
      var region := Fill(StrHeader(|s|), s, 4 * words);
      data := data + region[..];
      size := size + words;
      return true;
    }

    method OutBignum(n: nat)
      requires Valid()
      modifies this
      ensures Valid() && data == old(data) + OutStr(BigBytes(n))
    {
      WholeWords(Big(n));
      var required, none := SerializeBignum(n, -1);
      required := -required;
      var actual, region := SerializeBignum(n, required);
      assert required == actual;
      data := data + region;
      size := size + actual / 4;
    }

    method OutValue(v: Value) returns (ok: bool)
      requires Valid()
      modifies this
      ensures Valid() && (ok <==> !v.Str? || CanWrite(v))
      ensures data == if ok then old(data) + Write(v) else old(data)
    {
      ok := true;
      match v {
        case I32(i) => OutI32(i);
        case I64(l) => OutI64(l);
        case Str(s) => ok := OutString(s);
        case Big(n) => OutBignum(n);
      }
    }

    method OutValues(vs: seq<Value>)
      requires Valid() && forall v | v in vs :: CanWrite(v)
      modifies this
      ensures Valid() && data == old(data) + WriteAll(vs)
    {
      hide Write, CanWrite;
      var i := 0;
      assert vs[..0] == [];
      while i < |vs|
        invariant 0 <= i <= |vs| && Valid() && data == old(data) + WriteAll(vs[..i])
      {
        assert vs[..i + 1][..i] == vs[..i] && vs[i] in vs;
        var ok := OutValue(vs[i]);
        assert (old(data) + WriteAll(vs[..i])) + Write(vs[i]) == old(data) + WriteAll(vs[..i + 1]);
        i := i + 1;
      }
      assert vs[..i] == vs;
    }
  }

  lemma SliceOfRest(s: seq<byte>, k: nat, a: nat, b: nat)
    requires a <= b && k + b <= |s|
    ensures s[k..][a..b] == s[k + a..k + b]
  {
  }

  class InBuffer {
    const data: seq<byte>
    var ptr: nat

    ghost predicate Valid()
      reads this
    {
      |data| % 4 == 0 && 4 * ptr <= |data|
    }

    // What has not been read yet.
    ghost function Unread(): seq<byte>
      requires Valid()
      reads this
    {
      data[4 * ptr..]
    }

    constructor (data: seq<byte>)
      requires |data| % 4 == 0
      ensures Valid() && Unread() == data
    {
      this.data, ptr := data, 0;
    }

    // The assertion on the end of the buffer is the precondition.
    method FetchI32() returns (i: int)
      requires Valid() && |Unread()| >= 4
      modifies this
      ensures Valid() && Some(Fetched(I32(i), Unread())) == Fetch(I32Kind, old(Unread()))
    {
      i := UnSigned(data[4 * ptr..4 * ptr + 4]);
      assert data[4 * ptr..][..4] == data[4 * ptr..4 * ptr + 4];
      ptr := ptr + 1;
    }

    method FetchI64() returns (i: int)
      requires Valid() && |Unread()| >= 8
      modifies this
      ensures Valid() && Some(Fetched(I64(i), Unread())) == Fetch(I64Kind, old(Unread()))
    {
      i := UnSigned(data[4 * ptr..4 * ptr + 8]);
      assert data[4 * ptr..][..8] == data[4 * ptr..4 * ptr + 8];
      ptr := ptr + 2;
    }

    method LookAtStrlen() returns (len: int)
      requires Valid()
      ensures len == PrefetchStrlen(Unread())
    {
      var left := |data| / 4 - ptr;
      if left <= 0 {
        return -1;
      }
      var first := data[4 * ptr];
      if first < 0xfe {
        var l := first as nat;
        return if left >= l / 4 + 1 then l else -1;
      }
      if first == 0xfe {
        assert data[4 * ptr..][1..4] == data[4 * ptr + 1..4 * ptr + 4];
        var l := UnLe(data[4 * ptr + 1..4 * ptr + 4]);
        return if l >= 254 && left >= (l + 7) / 4 then l else -1;
      }
      return -1;
    }

    // Reads a string whose length was found, and stays within the buffer.
    method FetchStr(len: nat) returns (s: seq<byte>)
      requires Valid() && PrefetchStrlen(Unread()) == len
      modifies this
      ensures Valid() && Some(Fetched(Str(s), Unread())) == Fetch(StrKind, old(Unread()))
    {
      StrInBounds(Unread());
      var start := 4 * ptr + (if len < 254 then 1 else 4);
      s := data[start..start + len];
      SliceOfRest(data, 4 * ptr, StrStart(len), StrStart(len) + len);
      if len < 254 {
        ptr := ptr + 1 + len / 4;
      } else {
        ptr := ptr + (len + 7) / 4;
      }
      assert Unread() == old(Unread())[StrSpan(len)..];
    }

    method FetchSkipStr()
      requires Valid()
      modifies this
      ensures Valid()
      ensures Unread() == if Fetch(StrKind, old(Unread())).Some? then Fetch(StrKind, old(Unread())).value.rest else old(Unread())
    {
      var l := LookAtStrlen();
      if l < 0 {
        return;
      }
      var s := FetchStr(l);
    }

    method FetchBignum() returns (l: int, n: nat)
      requires Valid()
      modifies this
      ensures Valid() && l == PrefetchStrlen(old(Unread()))
      ensures if l < 0 then Unread() == old(Unread()) else Some(Fetched(Big(n), Unread())) == Fetch(BigKind, old(Unread()))
    {
      n := 0;
      l := LookAtStrlen();
      if l >= 0 {
        var s := FetchStr(l);
        n := BigOf(s);
      }
    }
  }
}
