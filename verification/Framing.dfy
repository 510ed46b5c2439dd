/** Length-prefixed packets on a byte stream: what the receiver makes of the bytes that
    have come in, however they were cut into buffers (src/mtproto_client.cpp). */
module Framing {
  import opened Bytes

  const MAX_RESPONSE_SIZE: nat := 0x100_0000

  // What stands at the front of the unread bytes: too little, an empty packet, which
  // fails an assertion, or a header and the length of the body behind it.
  datatype Front = Short | NoWords | Header(size: nat, length: nat)

  // Why the receiver stopped: for more bytes, on a refused packet, on the assertion.
  datatype Halt = Waiting | Refused | Aborted

  datatype Received = Received(packets: seq<seq<byte>>, rest: seq<byte>, halt: Halt)

  function Words(s: seq<byte>): nat
    requires |s| >= 4
  {
    s[1] as nat + 0x100 * s[2] as nat + 0x1_0000 * s[3] as nat
  }

  function FrontOf(s: seq<byte>): Front {
    if |s| < 1 then Short
    else if 1 <= s[0] <= 0x7e then
      if |s| < 1 + 4 * s[0] as nat then Short else Header(1, 4 * s[0] as nat)
    else if |s| < 4 || |s| < 4 + 4 * Words(s) then Short
    else if Words(s) == 0 then NoWords
    else Header(4, 4 * Words(s))
  }

  // try_rpc_execute over all the unread bytes; accept tells which packets the client
  // takes. A packet that is too long only loses its header.
  function Receive(accept: seq<byte> -> bool, s: seq<byte>): Received
    decreases |s|
  {
    match FrontOf(s)
    case Short => Received([], s, Waiting)
    case NoWords => Received([], s[4..], Aborted)
    case Header(size, length) =>
      if length >= MAX_RESPONSE_SIZE then Receive(accept, s[size..])
      else
        var packet := s[size..size + length];
        if !accept(packet) then Received([packet], s[size + length..], Refused)
        else
          var later := Receive(accept, s[size + length..]);
          later.(packets := [packet] + later.packets)
  }

  // The first round of receiving.
  lemma {:induction false} ReceiveByFront(accept: seq<byte> -> bool, s: seq<byte>)
    ensures FrontOf(s).Short? ==> Receive(accept, s) == Received([], s, Waiting)
    ensures FrontOf(s).NoWords? ==> |s| >= 4 && Receive(accept, s) == Received([], s[4..], Aborted)
    ensures FrontOf(s).Header? ==>
              var (size, length) := (FrontOf(s).size, FrontOf(s).length);
              && 0 < size && 0 < length && size + length <= |s|
              && var packet, later := s[size..size + length], Receive(accept, s[size + length..]);
              Receive(accept, s) == if length >= MAX_RESPONSE_SIZE then Receive(accept, s[size..])
                                    else if !accept(packet) then Received([packet], s[size + length..], Refused)
                                    else later.(packets := [packet] + later.packets)
  {
  }

  // ---- Sending ----

  // The assertion on the length of an outgoing packet.
  predicate CanSend(p: seq<byte>) { 0 < |p| < 0x400_0000 && |p| % 4 == 0 }

  function ByteOf(n: nat): byte { (n % 0x100) as byte }

  function HeaderFor(p: seq<byte>): seq<byte> {
    var words := |p| / 4;
    if words < 0x7f then [ByteOf(words)]
    else [0x7f, ByteOf(words), ByteOf(words / 0x100), ByteOf(words / 0x1_0000)]
  }

  function Frame(p: seq<byte>): seq<byte> { HeaderFor(p) + p }

  function Stream(ps: seq<seq<byte>>): seq<byte> {
    if ps == [] then [] else Frame(ps[0]) + Stream(ps[1..])
  }

  lemma BytesOf(n: nat)
    requires n < 0x100_0000
    ensures ByteOf(n) as nat + 0x100 * ByteOf(n / 0x100) as nat + 0x1_0000 * ByteOf(n / 0x1_0000) as nat == n
  {
    assert n / 0x100 / 0x100 == n / 0x1_0000;
  }

  // What stands on the wire: below 0x7f words the number of words in one byte, from there
  // on the byte 0x7f and the number in three bytes, least significant first; then the packet.
  lemma {:induction false} WireFormat(p: seq<byte>)
    requires CanSend(p)
    ensures |p| < 4 * 0x7f ==> |Frame(p)| == 1 + |p| && 4 * Frame(p)[0] as nat == |p| && Frame(p)[1..] == p
    ensures |p| >= 4 * 0x7f ==>
              && |Frame(p)| == 4 + |p| && Frame(p)[0] == 0x7f && Frame(p)[4..] == p
              && 4 * (Frame(p)[1] as nat + 0x100 * Frame(p)[2] as nat + 0x1_0000 * Frame(p)[3] as nat) == |p|
  {
    var words := |p| / 4;
    assert |p| == 4 * words;
    if words >= 0x7f {
      BytesOf(words);
    }
  }

  // A sent packet is read with the length it was sent with.
  lemma {:induction false} FrontOfFrame(p: seq<byte>, rest: seq<byte>)
    requires CanSend(p)
    ensures FrontOf(Frame(p) + rest) == Header(|HeaderFor(p)|, |p|)
    ensures (Frame(p) + rest)[|HeaderFor(p)|..] == p + rest
    ensures (Frame(p) + rest)[|HeaderFor(p)|..|HeaderFor(p)| + |p|] == p
    ensures (Frame(p) + rest)[|HeaderFor(p)| + |p|..] == rest
  {
    var words := |p| / 4;
    var s := Frame(p) + rest;
    assert s == HeaderFor(p) + (p + rest);
    assert |p| == 4 * words;
    if words >= 0x7f {
      BytesOf(words);
      assert s[..4] == HeaderFor(p);
      assert s[1] == HeaderFor(p)[1] && s[2] == HeaderFor(p)[2] && s[3] == HeaderFor(p)[3];
    }
  }

  // The first thing the receiver does with a packet below the limit is to hand it over.
  lemma {:induction false} ReceiveFrame(accept: seq<byte> -> bool, p: seq<byte>, rest: seq<byte>)
    requires CanSend(p) && |p| < MAX_RESPONSE_SIZE
    ensures Receive(accept, Frame(p) + rest) ==
            if !accept(p) then Received([p], rest, Refused)
            else Receive(accept, rest).(packets := [p] + Receive(accept, rest).packets)
  {
    FrontOfFrame(p, rest);
  }

  // A longer packet is not skipped: its body is read as if it were packets.
  lemma {:induction false} OversizeIsReadAsPackets(accept: seq<byte> -> bool, p: seq<byte>, rest: seq<byte>)
    requires CanSend(p) && |p| >= MAX_RESPONSE_SIZE
    ensures Receive(accept, Frame(p) + rest) == Receive(accept, p + rest)
  {
    FrontOfFrame(p, rest);
  }

  lemma {:induction false} PacketsBelowLimit(accept: seq<byte> -> bool, s: seq<byte>, p: seq<byte>)
    requires p in Receive(accept, s).packets
    ensures |p| < MAX_RESPONSE_SIZE
    decreases |s|
  {
    var f := FrontOf(s);
    if f.length >= MAX_RESPONSE_SIZE {
      PacketsBelowLimit(accept, s[f.size..], p);
    } else if p != s[f.size..f.size + f.length] {
      PacketsBelowLimit(accept, s[f.size + f.length..], p);
    }
  }

  // A packet that may be sent is handed over if and only if it is below the limit.
  lemma {:induction false} HandedOverIffBelowLimit(accept: seq<byte> -> bool, p: seq<byte>, rest: seq<byte>)
    requires CanSend(p)
    ensures p in Receive(accept, Frame(p) + rest).packets <==> |p| < 0x100_0000
  {
    if |p| < MAX_RESPONSE_SIZE {
      ReceiveFrame(accept, p, rest);
    } else if p in Receive(accept, Frame(p) + rest).packets {
      PacketsBelowLimit(accept, Frame(p) + rest, p);
    }
  }

  // ---- Cutting the stream ----

  // More bytes behind a complete front do not change it.
  lemma {:induction false} FrontStays(s: seq<byte>, t: seq<byte>)
    ensures !FrontOf(s).Short? ==> FrontOf(s + t) == FrontOf(s)
    ensures FrontOf(s).Header? ==> 0 < FrontOf(s).size && FrontOf(s).size + FrontOf(s).length <= |s|
    ensures FrontOf(s).NoWords? ==> |s| >= 4
  {
    assert forall i | 0 <= i < |s| :: (s + t)[i] == s[i];
  }

  // Taking the bytes in two pieces is taking them in one, whatever the bytes are.
  lemma {:induction false} ReceiveInPieces(accept: seq<byte> -> bool, s: seq<byte>, t: seq<byte>)
    requires Receive(accept, s).halt == Waiting
    ensures var first := Receive(accept, s);
            var second := Receive(accept, first.rest + t);
            Receive(accept, s + t) == second.(packets := first.packets + second.packets)
    decreases |s|
  {
    FrontStays(s, t);
    hide FrontOf;
    match FrontOf(s)
    case Short =>
      assert [] + Receive(accept, s + t).packets == Receive(accept, s + t).packets;
    case Header(size, length) =>
      var next := if length >= MAX_RESPONSE_SIZE then size else size + length;
      assert (s + t)[next..] == s[next..] + t;
      ReceiveInPieces(accept, s[next..], t);
      if length < MAX_RESPONSE_SIZE {
        var packet := s[size..size + length];
        assert (s + t)[size..size + length] == packet;
        FirstOf(packet, Receive(accept, s[next..]).packets, Receive(accept, Receive(accept, s[next..]).rest + t).packets);
      }
  }

  lemma FirstOf<T>(x: T, a: seq<T>, b: seq<T>)
    ensures [x] + (a + b) == ([x] + a) + b
  {
  }

  // The buffers of a connection, one behind the other.
  function Flat(buffers: seq<seq<byte>>): seq<byte> {
    if buffers == [] then [] else buffers[0] + Flat(buffers[1..])
  }

  // All the packets handed over while the buffers arrive one after the other.
  function ReceiveAll(accept: seq<byte> -> bool, rest: seq<byte>, buffers: seq<seq<byte>>): Received
    decreases |buffers|
  {
    var now := Receive(accept, rest);
    if buffers == [] || now.halt != Waiting then now
    else
      var later := ReceiveAll(accept, now.rest + buffers[0], buffers[1..]);
      later.(packets := now.packets + later.packets)
  }

  lemma {:induction false} AnyCut(accept: seq<byte> -> bool, rest: seq<byte>, buffers: seq<seq<byte>>)
    requires Receive(accept, rest + Flat(buffers)).halt == Waiting
    ensures ReceiveAll(accept, rest, buffers) == Receive(accept, rest + Flat(buffers))
    decreases |buffers|
  {
    if buffers == [] {
      assert rest + Flat(buffers) == rest;
    } else {
      HaltStays(accept, rest, Flat(buffers));
      ReceiveInPieces(accept, rest, Flat(buffers));
      var now := Receive(accept, rest);
      assert now.rest + Flat(buffers) == (now.rest + buffers[0]) + Flat(buffers[1..]);
      AnyCut(accept, now.rest + buffers[0], buffers[1..]);
    }
  }

  // A receiver that has stopped for good does not come to wait by more bytes.
  lemma {:induction false} HaltStays(accept: seq<byte> -> bool, s: seq<byte>, t: seq<byte>)
    requires Receive(accept, s + t).halt == Waiting
    ensures Receive(accept, s).halt == Waiting
    decreases |s|
  {
    FrontStays(s, t);
    hide FrontOf;
    match FrontOf(s)
    case Short =>
    case NoWords =>
    case Header(size, length) =>
      var next := if length >= MAX_RESPONSE_SIZE then size else size + length;
      assert (s + t)[next..] == s[next..] + t;
      assert (s + t)[size..size + length] == s[size..size + length];
      HaltStays(accept, s[next..], t);
  }

  // ---- Streams of honest packets ----

  predicate Sendable(ps: seq<seq<byte>>) {
    forall i | 0 <= i < |ps| :: CanSend(ps[i]) && |ps[i]| < MAX_RESPONSE_SIZE
  }

  // What has come of the stream of ps when only its first n bytes are there.
  function Completed(ps: seq<seq<byte>>, n: nat): nat {
    if ps == [] || n < |Frame(ps[0])| then 0 else 1 + Completed(ps[1..], n - |Frame(ps[0])|)
  }

  // Completed counts the packets that lie wholly within the first n bytes.
  lemma {:induction false} CompletedIsMost(ps: seq<seq<byte>>, n: nat)
    ensures Completed(ps, n) <= |ps| && |Stream(ps[..Completed(ps, n)])| <= n
    ensures Completed(ps, n) < |ps| ==> n < |Stream(ps[..Completed(ps, n) + 1])|
    decreases |ps|
  {
    var k := Completed(ps, n);
    if ps != [] && n < |Frame(ps[0])| {
      assert ps[..1][1..] == [];
    } else if ps != [] {
      CompletedIsMost(ps[1..], n - |Frame(ps[0])|);
      assert ps[..k][1..] == ps[1..][..k - 1];
      if k < |ps| {
        assert ps[..k + 1][1..] == ps[1..][..k];
      }
    }
  }

  // An incomplete frame is waited for.
  lemma {:induction false} PartOfFrame(p: seq<byte>, part: seq<byte>)
    requires CanSend(p) && |part| < |Frame(p)| && part == Frame(p)[..|part|]
    ensures FrontOf(part) == Short
  {
    FrontOfFrame(p, []);
    assert Frame(p) + [] == Frame(p);
    FrontStays(part, Frame(p)[|part|..]);
    assert part + Frame(p)[|part|..] == Frame(p);
  }

  // Each packet is handed over exactly when its last byte has come in, in order.
  lemma {:induction false} AsSoonAsComplete(accept: seq<byte> -> bool, ps: seq<seq<byte>>, n: nat)
    requires Sendable(ps) && n <= |Stream(ps)| && forall p :: accept(p)
    ensures var got := Receive(accept, Stream(ps)[..n]);
            && Completed(ps, n) <= |ps| && got.packets == ps[..Completed(ps, n)] && got.halt == Waiting
    decreases |ps|
  {
    var s := Stream(ps)[..n];
    if ps == [] {
    } else if n < |Frame(ps[0])| {
      assert s == Frame(ps[0])[..n];
      PartOfFrame(ps[0], s);
    } else {
      var p, m := ps[0], n - |Frame(ps[0])|;
      var later := Stream(ps[1..])[..m];
      assert s == Frame(p) + later;
      SendableRest(ps);
      hide FrontOf, HeaderFor, Receive, Frame, Sendable, CanSend;
      AsSoonAsComplete(accept, ps[1..], m);
      ReceiveFrame(accept, p, later);
      OneMore(ps, Completed(ps[1..], m));
    }
  }

  lemma SendableRest(ps: seq<seq<byte>>)
    requires ps != [] && Sendable(ps)
    ensures CanSend(ps[0]) && |ps[0]| < MAX_RESPONSE_SIZE && Sendable(ps[1..])
  {
    hide CanSend;
    assert forall i | 0 <= i < |ps[1..]| :: ps[1..][i] == ps[i + 1];
  }

  lemma OneMore<T>(s: seq<T>, n: nat)
    requires 0 < |s| && n < |s|
    ensures [s[0]] + s[1..][..n] == s[..1 + n]
  {
  }

  lemma {:induction false} CompletedAll(ps: seq<seq<byte>>)
    ensures Completed(ps, |Stream(ps)|) == |ps|
  {
    if ps != [] {
      CompletedAll(ps[1..]);
    }
  }

  // However the stream of ps is cut into buffers, the receiver hands over exactly ps.
  lemma {:induction false} PacketsSurviveAnyCut(accept: seq<byte> -> bool, ps: seq<seq<byte>>, buffers: seq<seq<byte>>)
    requires Sendable(ps) && Flat(buffers) == Stream(ps) && forall p :: accept(p)
    ensures ReceiveAll(accept, [], buffers).packets == ps
    ensures ReceiveAll(accept, [], buffers).halt == Waiting
  {
    AsSoonAsComplete(accept, ps, |Stream(ps)|);
    CompletedAll(ps);
    assert Stream(ps)[..|Stream(ps)|] == [] + Flat(buffers);
    AnyCut(accept, [], buffers);
  }
}
