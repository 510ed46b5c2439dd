/** A connection whose unread bytes lie in a queue of buffers (src/net/tgl_net_base.cpp)
    and the client that takes packets from it (src/mtproto_client.cpp). */
module NetConnection {
  import opened Bytes
  import opened Framing
  import opened Wrappers

  lemma {:induction false} FlatAppend(a: seq<seq<byte>>, b: seq<byte>)
    ensures Flat(a + [b]) == Flat(a) + b
  {
    if a == [] {
      assert [b][1..] == [];
    } else {
      assert (a + [b])[1..] == a[1..] + [b];
      FlatAppend(a[1..], b);
    }
  }

  // The low byte of the header word is the mark, the others count the words.
  lemma HeaderBytes(words: nat)
    ensures var header := words * 0x100 + 0x7f;
            && ByteOf(header) == 0x7f && header / 0x100 == words
            && header / 0x1_0000 == words / 0x100 && header / 0x100_0000 == words / 0x1_0000
  {
  }

  function AtMost(m: nat, n: nat): nat { if m < n then m else n }

  class Connection {
    var readQueue: seq<seq<byte>>
    var available: nat
    var closed: bool
    var written: seq<byte>

    ghost predicate Valid()
      reads this
    {
      available == |Flat(readQueue)| && forall i | 0 <= i < |readQueue| :: readQueue[i] != []
    }

    // The unread bytes, one behind the other.
    ghost function Unread(): seq<byte>
      reads this
    {
      Flat(readQueue)
    }

    constructor ()
      ensures Valid() && Unread() == [] && !closed && written == []
    {
      readQueue, available, closed, written := [], 0, false, [];
    }

    method Peek(len: nat) returns (data: seq<byte>)
      requires Valid()
      ensures data == Unread()[..AtMost(len, available)]
    {
      data := [];
      if len == 0 || available == 0 {
        return;
      }
      var left := AtMost(len, available);
      var i := 0;
      while true
        invariant 0 <= i < |readQueue| && 0 < left <= |Flat(readQueue[i..])|
        invariant data + Flat(readQueue[i..])[..left] == Unread()[..AtMost(len, available)]
        decreases |readQueue| - i
      {
        var buffer := readQueue[i];
        if |buffer| >= left {
          data := data + buffer[..left];
          return;
        }
        assert readQueue[i..][1..] == readQueue[i + 1..];
        assert Flat(readQueue[i..])[..left] == buffer + Flat(readQueue[i + 1..])[..left - |buffer|];
        data := data + buffer;
        left := left - |buffer|;
        i := i + 1;
      }
    }

    // The front of an empty queue may not be looked at.
    method Read(len: nat) returns (data: seq<byte>)
      requires Valid() && (len == 0 || readQueue != [])
      modifies this`readQueue, this`available
      ensures Valid()
      ensures data == old(Unread())[..AtMost(len, old(available))]
      ensures Unread() == old(Unread())[AtMost(len, old(available))..]
    {
      data := [];
      if len == 0 {
        return;
      }
      ghost var all, total := Unread(), AtMost(len, available);
      var left := AtMost(len, available);
      while left > 0
        invariant Valid() && left <= available && (left > 0 ==> readQueue != [])
        invariant 0 <= left && |data| + left == total <= |all| && data == all[..|data|] && Unread() == all[|data|..]
        decreases left
      {
        var buffer := readQueue[0];
        assert Unread() == buffer + Flat(readQueue[1..]);
        if |buffer| >= left {
          assert all[|data|..][..left] == buffer[..left];
          data := data + buffer[..left];
          TakeFront(left);
          return;
        }
        assert all[|data|..][..|buffer|] == buffer;
        data := data + buffer;
        left := left - |buffer|;
        TakeFront(|buffer|);
      }
    }

    // Drops the first n bytes of the front buffer, and the buffer once it is empty.
    method TakeFront(n: nat)
      requires Valid() && readQueue != [] && n <= |readQueue[0]|
      modifies this`readQueue, this`available
      ensures Valid() && available == old(available) - n
      ensures Unread() == old(Unread())[n..]
    {
      var buffer := readQueue[0][n..];
      if buffer == [] {
        readQueue := readQueue[1..];
      } else {
        readQueue := readQueue[0 := buffer];
        assert readQueue[1..] == old(readQueue)[1..];
      }
      available := available - n;
    }

    // Nothing that comes in after the connection was closed is kept.
    method Append(buffer: seq<byte>)
      requires Valid()
      modifies this`readQueue, this`available
      ensures Valid()
      ensures Unread() == if closed then old(Unread()) else old(Unread()) + buffer
    {
      if closed {
        return;
      }
      if |buffer| > 0 {
        FlatAppend(readQueue, buffer);
        readQueue := readQueue + [buffer];
      }
      available := available + |buffer|;
    }

    method Close()
      modifies this`readQueue, this`available, this`closed
      ensures Valid() && Unread() == [] && closed
    {
      closed := true;
      readQueue, available := [], 0;
    }

    method Write(data: seq<byte>)
      modifies this`written
      ensures written == old(written) + data
    {
      written := written + data;
    }
  }

  class Client {
    const connection: Connection
    const accept: seq<byte> -> bool
    ghost var packets: seq<seq<byte>>

    constructor (connection: Connection, accept: seq<byte> -> bool)
      ensures this.connection == connection && this.accept == accept && packets == []
    {
      this.connection, this.accept, packets := connection, accept, [];
    }

    // Takes packets as long as they are complete and accepted.
    method TryRpcExecute() returns (halt: Halt)
      requires connection.Valid()
      modifies this, connection`readQueue, connection`available
      ensures connection.Valid()
      ensures var got := Receive(accept, old(connection.Unread()));
              halt == got.halt && connection.Unread() == got.rest && packets == old(packets) + got.packets
    {
      hide Receive;
      ghost var got, first := Receive(accept, connection.Unread()), packets;
      ghost var taken := [];
      while true
        invariant connection.Valid() && packets == first + taken
        invariant got.packets == taken + Receive(accept, connection.Unread()).packets
        invariant got.halt == Receive(accept, connection.Unread()).halt
        invariant got.rest == Receive(accept, connection.Unread()).rest
        decreases connection.available
      {
        var done;
        ghost var more;
        done, halt, more := ExecuteOne();
        Assoc(first, taken, more);
        if done {
          return;
        }
        Assoc(taken, more, Receive(accept, connection.Unread()).packets);
        taken := taken + more;
      }
    }

    // One round of the loop, which takes more.
    method ExecuteOne() returns (done: bool, halt: Halt, ghost more: seq<seq<byte>>)
      requires connection.Valid()
      modifies this, connection`readQueue, connection`available
      ensures connection.Valid() && packets == old(packets) + more
      ensures var got := Receive(accept, old(connection.Unread()));
              if done then got == Received(more, connection.Unread(), halt)
              else
                var later := Receive(accept, connection.Unread());
                connection.available < old(connection.available) && got == later.(packets := more + later.packets)
    {
      ghost var s := connection.Unread();
      var front := LookAhead();
      ReceiveByFront(accept, s);
      hide FrontOf, Receive;
      more := [];
      if front == Short {
        return true, Waiting, more;
      }
      if front == NoWords {
        var header := connection.Read(4);
        return true, Aborted, more;
      }
      var ok := TakePacket(front.size, front.length);
      done, halt := !ok, Refused;
      more := if front.length >= MAX_RESPONSE_SIZE then [] else [s[front.size..front.size + front.length]];
    }

    method TakePacket(size: nat, length: nat) returns (ok: bool)
      requires connection.Valid() && 0 < size && 0 < length && size + length <= connection.available
      modifies this, connection`readQueue, connection`available
      ensures connection.Valid() && connection.available < old(connection.available)
      ensures var s := old(connection.Unread());
              if length >= MAX_RESPONSE_SIZE then ok && packets == old(packets) && connection.Unread() == s[size..]
              else
                var packet := s[size..size + length];
                ok == accept(packet) && packets == old(packets) + [packet] && connection.Unread() == s[size + length..]
    {
      ghost var s := connection.Unread();
      var header := connection.Read(size);
      ok := RpcExecute(length);
      assert s[size..][..length] == s[size..size + length];
      assert s[size..][length..] == s[size + length..];
    }

    // Looks at the header without taking it.
    method LookAhead() returns (front: Front)
      requires connection.Valid()
      ensures front == FrontOf(connection.Unread())
    {
      if connection.available < 1 {
        return Short;
      }
      var first := connection.Peek(1);
      if 1 <= first[0] <= 0x7e {
        if connection.available < 1 + 4 * first[0] as nat {
          return Short;
        }
        return Header(1, 4 * first[0] as nat);
      }
      if connection.available < 4 {
        return Short;
      }
      var four := connection.Peek(4);
      var words := Words(four);
      if connection.available < 4 + 4 * words {
        return Short;
      }
      return if words == 0 then NoWords else Header(4, 4 * words);
    }

    // A body that is too long is left unread.
    method RpcExecute(len: nat) returns (ok: bool)
      requires connection.Valid() && 0 < len <= connection.available
      modifies this, connection`readQueue, connection`available
      ensures connection.Valid()
      ensures var s := old(connection.Unread());
              if len >= MAX_RESPONSE_SIZE then ok && packets == old(packets) && connection.Unread() == s
              else ok == accept(s[..len]) && packets == old(packets) + [s[..len]] && connection.Unread() == s[len..]
    {
      if len >= MAX_RESPONSE_SIZE {
        return true;
      }
      var response := connection.Read(len);
      packets := packets + [response];
      ok := accept(response);
    }

    method DataReceived(buffer: seq<byte>) returns (halt: Halt)
      requires connection.Valid()
      modifies this, connection`readQueue, connection`available
      ensures connection.Valid()
      ensures connection.closed ==> packets == old(packets) && connection.Unread() == old(connection.Unread())
      ensures !connection.closed ==>
                var got := Receive(accept, old(connection.Unread()) + buffer);
                halt == got.halt && connection.Unread() == got.rest && packets == old(packets) + got.packets
    {
      connection.Append(buffer);
      if connection.closed {
        return Waiting;
      }
      if connection.readQueue == [] {
        return Waiting;
      }
      halt := TryRpcExecute();
    }

    // The assertion on the length is the precondition.
    method RpcSendMessage(data: seq<byte>)
      requires CanSend(data)
      modifies connection`written
      ensures connection.written == old(connection.written) + Frame(data)
    {
      var words := |data| / 4;
      if words < 0x7f {
        connection.Write([ByteOf(words)]);
      } else {
        var header := words * 0x100 + 0x7f;
        HeaderBytes(words);
        connection.Write([ByteOf(header), ByteOf(header / 0x100), ByteOf(header / 0x1_0000), ByteOf(header / 0x100_0000)]);
      }
      hide ByteOf;
      assert connection.written == old(connection.written) + HeaderFor(data);
      connection.Write(data);
      Assoc(old(connection.written), HeaderFor(data), data);
    }
  }
}
