/** Re-keying of a secret chat (src/secret_chat.cpp, "Perfect Forward Secrecy in Secret Chats").

    Each operation is a function on the exchange fields of one chat, followed by
    the object whose methods update those fields. A key's fingerprint stands for
    the key itself, and queries wait in an outbox until they are really sent. */
module KeyExchange {
  import opened ModArith

  datatype ExchangeState = NoExchange | Requested | Accepted | Committed

  datatype Action =
    | RequestKey(id: int, ga: nat)
    | AcceptKey(id: int, gb: nat)
    | CommitKey(id: int)
    | Noop
    | Text(body: string)

  // Generator and prime modulus agreed on when the chat was set up.
  datatype Group = Group(g: nat, p: nat)

  type ValidGroup = q: Group | q.p > 1 witness Group(2, 3)

  // A message and the key it was encrypted under.
  datatype Packet = Packet(key: nat, action: Action)

  // exKey holds the own exponent while requested and the new key afterwards.
  datatype Party = Party(state: ExchangeState, exId: int, exKey: nat, encKey: nat, outbox: seq<Action>)

  function Enqueue(x: Party, a: Action): Party { x.(outbox := x.outbox + [a]) }

  function Request(q: ValidGroup, x: Party, id: int, a: nat): Party {
    Enqueue(x, RequestKey(id, PowMod(q.g, a, q.p))).(state := Requested, exId := id, exKey := a)
  }

  function Accept(q: ValidGroup, x: Party, id: int, ga: nat, b: nat): Party {
    Enqueue(x, AcceptKey(id, PowMod(q.g, b, q.p))).(state := Accepted, exId := id, exKey := PowMod(ga, b, q.p))
  }

  function Commit(q: ValidGroup, x: Party, gb: nat): Party {
    Enqueue(x, CommitKey(x.exId)).(state := Committed, exKey := PowMod(gb, x.exKey, q.p))
  }

  function Confirm(x: Party, sendNoop: bool): Party {
    var y := x.(encKey := x.exKey, exKey := 0, state := NoExchange, exId := 0);
    if sendNoop then Enqueue(y, Noop) else y
  }

  // What processing a decrypted action does; b is the exponent drawn if it accepts.
  function Process(q: ValidGroup, x: Party, action: Action, b: nat): Party {
    match action
    case RequestKey(id, ga) =>
      if x.state == NoExchange || (x.state == Requested && x.exId > id) then Accept(q, x, id, ga, b) else x
    case AcceptKey(id, gb) =>
      if x.state == Requested && x.exId == id then Commit(q, x, gb) else x
    case CommitKey(id) =>
      if x.state == Accepted && x.exId == id then Confirm(x, true) else x
    case Noop => x
    case Text(_) => x
  }

  // The first message under the new key tells a committed side that it is in use.
  function BeforeDecrypt(x: Party, p: Packet): Party {
    if x.state == Committed && x.exKey == p.key then Confirm(x, false) else x
  }

  function ReadKey(x: Party): nat { if x.state == Committed then x.exKey else x.encKey }

  predicate Readable(x: Party, p: Packet) {
    var y := BeforeDecrypt(x, p);
    ReadKey(y) == p.key
  }

  function Fetch(q: ValidGroup, x: Party, p: Packet, b: nat): Party {
    if Readable(x, p) then Process(q, BeforeDecrypt(x, p), p.action, b) else BeforeDecrypt(x, p)
  }

  // Sending a query encrypts under the current key; a committed side then switches.
  function Sent(x: Party): Packet
    requires x.outbox != []
  {
    Packet(x.encKey, x.outbox[0])
  }

  function AfterSend(x: Party): Party
    requires x.outbox != []
  {
    var y := x.(outbox := x.outbox[1..]);
    if y.state == Committed then Confirm(y, false) else y
  }

  // A whole handshake, message by message: the offer of one side, the answer of a side
  // that is idle or has asked under a larger id, the commit, and the noop. Both sides
  // end under the generator to the power of both exponents.
  lemma {:induction false} HandshakeDerivesPower(q: ValidGroup, x: Party, y: Party, id: int, a: nat, b: nat, any: nat)
    requires y.state == NoExchange || (y.state == Requested && y.exId > id)
    ensures var x1 := Request(q, x, id, a);
            var y1 := Process(q, y, x1.outbox[|x1.outbox| - 1], b);
            var x2 := Process(q, x1, y1.outbox[|y1.outbox| - 1], any);
            var y2 := Process(q, y1, x2.outbox[|x2.outbox| - 1], any);
            var x3 := BeforeDecrypt(x2, Packet(y2.encKey, y2.outbox[|y2.outbox| - 1]));
            var key := Pow(q.g, a * b) % q.p;
            && y1.state == Accepted && x2.state == Committed && y1.exKey == x2.exKey == key
            && y1.encKey == y.encKey && x2.encKey == x.encKey
            && y2 == y.(state := NoExchange, exId := 0, exKey := 0, encKey := key, outbox := y1.outbox + [Noop])
            && x3 == x2.(state := NoExchange, exId := 0, exKey := 0, encKey := key)
            && |x2.outbox| == |x.outbox| + 2 && |y2.outbox| == |y.outbox| + 2
  {
    SharedKey(q.g, a, b, q.p);
    PowModBase(Pow(q.g, a), b, q.p);
    PowPow(q.g, a, b);
    hide PowMod, Pow;
  }

  // An offer is ignored once the own exchange has gone on, and for an own request under
  // the same or a smaller id; an answer and a commit are, outside their phase and for
  // another exchange.
  lemma WrongPhaseIsIgnored(q: ValidGroup, x: Party, action: Action, b: nat)
    requires
      || (action.RequestKey? && (x.state in {Accepted, Committed} || (x.state == Requested && x.exId <= action.id)))
      || (action.AcceptKey? && (x.state != Requested || x.exId != action.id))
      || (action.CommitKey? && (x.state != Accepted || x.exId != action.id))
      || action.Noop? || action.Text?
    ensures Process(q, x, action, b) == x
  {
  }

  // ---- The exchange fields of a chat object ----

  class Exchange {
    const group: ValidGroup
    var exchangeState: ExchangeState
    var exchangeId: int
    var exchangeKey: nat
    var encryptionKey: nat
    var queries: seq<Action>

    ghost function View(): Party
      reads this
    {
      Party(exchangeState, exchangeId, exchangeKey, encryptionKey, queries)
    }

    constructor (group: ValidGroup, key: nat)
      ensures this.group == group
      ensures View() == Party(NoExchange, 0, 0, key, [])
    {
      this.group := group;
      exchangeState, exchangeId, exchangeKey := NoExchange, 0, 0;
      encryptionKey, queries := key, [];
    }

    method SendAction(action: Action)
      modifies this`queries
      ensures queries == old(queries) + [action]
    {
      queries := queries + [action];
    }

    method RequestKeyExchange(id: int, a: nat)
      modifies this
      ensures View() == Request(group, old(View()), id, a)
    {
      exchangeId := id;
      SendAction(RequestKey(exchangeId, PowMod(group.g, a, group.p)));
      exchangeState := Requested;
      exchangeKey := a;
    }

    method AcceptKeyExchange(id: int, ga: nat, b: nat)
      modifies this
      ensures View() == Accept(group, old(View()), id, ga, b)
    {
      exchangeId := id;
      exchangeKey := PowMod(ga, b, group.p);
      exchangeState := Accepted;
      SendAction(AcceptKey(id, PowMod(group.g, b, group.p)));
    }

    method CommitKeyExchange(gb: nat)
      modifies this
      ensures View() == Commit(group, old(View()), gb)
    {
      exchangeKey := PowMod(gb, exchangeKey, group.p);
      exchangeState := Committed;
      SendAction(CommitKey(exchangeId));
    }

    method ConfirmKeyExchange(sendNoop: bool)
      modifies this
      ensures View() == Confirm(old(View()), sendNoop)
    {
      encryptionKey := exchangeKey;
      exchangeKey := 0;
      exchangeState := NoExchange;
      exchangeId := 0;
      if sendNoop {
        SendAction(Noop);
      }
    }

    method ProcessAction(action: Action, b: nat)
      modifies this
      ensures View() == Process(group, old(View()), action, b)
    {
      match action
      case RequestKey(id, ga) =>
        if exchangeState == NoExchange || (exchangeState == Requested && exchangeId > id) {
          AcceptKeyExchange(id, ga, b);
        }
      case AcceptKey(id, gb) =>
        if exchangeState == Requested && exchangeId == id {
          CommitKeyExchange(gb);
        }
      case CommitKey(id) =>
        if exchangeState == Accepted && exchangeId == id {
          ConfirmKeyExchange(true);
        }
      case Noop =>
      case Text(_) =>
    }

    // Returns false when the message is dropped for a foreign fingerprint.
    method FetchMessage(p: Packet, b: nat) returns (read: bool)
      modifies this
      ensures read == Readable(old(View()), p)
      ensures View() == Fetch(group, old(View()), p, b)
    {
      if exchangeState == Committed && exchangeKey == p.key {
        ConfirmKeyExchange(false);
      }
      var fingerprint := if exchangeState != Committed then encryptionKey else exchangeKey;
      if p.key != fingerprint {
        return false;
      }
      ProcessAction(p.action, b);
      read := true;
    }

    method SendFirstQuery() returns (p: Packet)
      requires queries != []
      modifies this
      ensures p == Sent(old(View()))
      ensures View() == AfterSend(old(View()))
    {
      p := Packet(encryptionKey, queries[0]);
      queries := queries[1..];
      if exchangeState == Committed {
        ConfirmKeyExchange(false);
      }
    }
  }
}
