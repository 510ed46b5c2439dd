/** Sequencing of secret-chat messages (src/secret_chat.cpp, src/secret_chat.h).

    The first half gives the meaning of every operation as a function on chat
    states; the second half is the chat object itself, whose methods update its
    fields and loop as the source does and are proved to compute those functions. */
module SecretChat {
  import opened Wrappers

  // What a decrypted message asks the receiver to do. Service stands for the
  // actions that touch neither counters, queue nor stores (key exchange, layer, ttl).
  datatype Action = Plain | Resend(first: int, last: int) | DeleteMessages(ids: seq<int>) | Service

  datatype Content = Content(id: int, action: Action, body: string)

  // A message with its raw sequence numbers, -1 for peers that do not number.
  // The content is None when only the slot of the message is kept.
  datatype SecretMessage = SecretMessage(content: Option<Content>, rawIn: int, rawOut: int)

  // What the chat does with an arriving message.
  datatype Verdict = Empty | BadAdmin | Unsent | Duplicate | Hole | InOrder | Numberless | Weird

  datatype ChatState = ChatState(
    isAdmin: bool,
    inSeq: nat,
    outSeq: nat,
    queue: map<int, SecretMessage>,      // received past a hole, by sequence number
    outIds: map<int, int>,               // unconfirmed outgoing: sequence number to message id
    outSeqs: map<int, int>,              // unconfirmed outgoing: message id to sequence number
    store: map<int, SecretMessage>,      // persistent copies of unconfirmed outgoing messages
    processed: seq<SecretMessage>,       // every message handed to processing, in order
    delivered: seq<Content>)             // contents handed to the user

  // A new state and the copies of earlier messages that go back on the wire.
  datatype Outcome = Outcome(chat: ChatState, resent: seq<SecretMessage>)

  function NewChat(isAdmin: bool): ChatState {
    ChatState(isAdmin, 0, 0, map[], map[], map[], map[], [], [])
  }

  function Numbered(m: SecretMessage): bool { m.rawIn >= 0 && m.rawOut >= 0 }

  function Nulled(m: SecretMessage): SecretMessage { m.(content := None) }

  function RawIn(c: ChatState): int { 2 * c.inSeq + (if c.isAdmin then 0 else 1) }

  function RawOut(c: ChatState): int { 2 * c.outSeq + (if c.isAdmin then 1 else 0) }

  function VerdictOf(c: ChatState, m: SecretMessage): Verdict {
    if m.content.None? then Empty
    else if Numbered(m) then
      if m.rawOut % 2 != (if c.isAdmin then 0 else 1) || m.rawIn % 2 != (if c.isAdmin then 1 else 0) then BadAdmin
      else if m.rawIn / 2 > c.outSeq then Unsent
      else if m.rawOut / 2 < c.inSeq then Duplicate
      else if m.rawOut / 2 > c.inSeq then Hole
      else InOrder
    else if m.rawIn < 0 && m.rawOut < 0 then Numberless
    else Weird
  }

  // Insertion that keeps an entry already present, as std::map::emplace does.
  function Emplace<V>(q: map<int, V>, k: int, v: V): map<int, V> {
    if k in q then q else q[k := v]
  }

  // How many consecutive numbers from n on are keys of the queue.
  function RunLength(q: map<int, SecretMessage>, n: int): (len: nat)
    ensures forall k | n <= k < n + len :: k in q
    ensures n + len !in q
    decreases |q|
  {
    if n in q then
      var rest := q - {n};
      var len := RunLength(rest, n + 1);
      assert forall k | n <= k < n + 1 + len :: k in q by {
        forall k | n <= k < n + 1 + len ensures k in q { assert k == n || k in rest; }
      }
      1 + len
    else 0
  }

  // The run of queued messages that starts at number n.
  function Drain(q: map<int, SecretMessage>, n: int): (ms: seq<SecretMessage>)
    ensures |ms| == RunLength(q, n)
    ensures forall i | 0 <= i < |ms| :: ms[i] == q[n + i]
  {
    seq(RunLength(q, n), i requires 0 <= i < RunLength(q, n) => q[n + i])
  }

  // The queue without the entries numbered n to n + count - 1.
  function WithoutRun(q: map<int, SecretMessage>, n: int, count: nat): map<int, SecretMessage> {
    map k | k in q && !(n <= k < n + count) :: q[k]
  }

  // Copies of the stored messages numbered first..last, in order.
  function StoredRange(store: map<int, SecretMessage>, first: int, last: int): seq<SecretMessage>
    decreases last - first
  {
    if last < first then []
    else StoredRange(store, first, last - 1) + (if last in store then [store[last]] else [])
  }

  function Resent(store: map<int, SecretMessage>, first: int, last: int): seq<SecretMessage> {
    if first < 0 || last < 0 || last < first then [] else StoredRange(store, first, last)
  }

  function WithId(q: map<int, SecretMessage>, id: int): set<int> {
    set k | k in q && q[k].content.Some? && q[k].content.value.id == id
  }

  // Deleting a message that is still queued empties the first slot that carries it.
  function EraseId(q: map<int, SecretMessage>, id: int): map<int, SecretMessage> {
    var hits := WithId(q, id);
    if hits == {} then q else q[Least(hits) := Nulled(q[Least(hits)])]
  }

  function EraseIds(q: map<int, SecretMessage>, ids: seq<int>): map<int, SecretMessage> {
    if ids == [] then q else EraseId(EraseIds(q, ids[..|ids| - 1]), ids[|ids| - 1])
  }

  function ProcessOne(c: ChatState, m: SecretMessage): Outcome {
    match m.content
    case None => Outcome(c, [])
    case Some(x) =>
      match x.action
      case Plain => Outcome(c.(delivered := c.delivered + [x]), [])
      case Resend(first, last) => Outcome(c, Resent(c.store, first, last))
      case DeleteMessages(ids) => Outcome(c.(queue := EraseIds(c.queue, ids)), [])
      case Service => Outcome(c, [])
  }

  function ProcessAll(c: ChatState, ms: seq<SecretMessage>): Outcome {
    if ms == [] then Outcome(c, [])
    else
      var before := ProcessAll(c, ms[..|ms| - 1]);
      var last := ProcessOne(before.chat, ms[|ms| - 1]);
      Outcome(last.chat, before.resent + last.resent)
  }

  function IdsOf(ids: map<int, int>, ks: set<int>): set<int> {
    set k | k in ks && k in ids :: ids[k]
  }

  function Below(ids: map<int, int>, bound: int): set<int> {
    set k | k in ids && k < bound
  }

  function StoredFrom(store: map<int, SecretMessage>, bound: int): map<int, SecretMessage> {
    map k | k in store && k >= bound :: store[k]
  }

  // Drops what the peer says it already has: everything below its in_seq_no.
  function Trim(c: ChatState, peerIn: int): ChatState {
    var done := Below(c.outIds, peerIn);
    c.(outSeqs := c.outSeqs - IdsOf(c.outIds, done),
       outIds := c.outIds - done,
       store := StoredFrom(c.store, peerIn))
  }

  function Finish(c: ChatState, ms: seq<SecretMessage>): ChatState
    requires ms != []
  {
    var back := ms[|ms| - 1];
    var logged := c.(processed := c.processed + ms);
    if !Numbered(back) then logged
    else
      var moved := logged.(inSeq := back.rawOut / 2 + 1);
      if back.rawIn / 2 > 0 then Trim(moved, back.rawIn / 2) else moved
  }

  function Process(c: ChatState, ms: seq<SecretMessage>): Outcome {
    if ms == [] then Outcome(c, [])
    else
      var all := ProcessAll(c, ms);
      Outcome(Finish(all.chat, ms), all.resent)
  }

  // What is kept of a message that arrives past a hole. A resend request is
  // honoured at once, so only its slot is queued.
  function QueuedForm(m: SecretMessage): SecretMessage {
    if m.content.Some? && m.content.value.action.Resend? then Nulled(m) else m
  }

  function Enqueue(c: ChatState, m: SecretMessage): ChatState {
    c.(queue := Emplace(c.queue, m.rawOut / 2, QueuedForm(m)))
  }

  function Dequeued(c: ChatState, m: SecretMessage): (ms: seq<SecretMessage>) {
    Drain(Emplace(c.queue, m.rawOut / 2, m), c.inSeq)
  }

  function AfterDequeue(c: ChatState, m: SecretMessage): ChatState {
    c.(queue := WithoutRun(Emplace(c.queue, m.rawOut / 2, m), c.inSeq, |Dequeued(c, m)|))
  }

  function Receive(c: ChatState, m: SecretMessage): Outcome {
    match VerdictOf(c, m)
    case Hole =>
      Outcome(Enqueue(c, m),
              if m.content.value.action.Resend?
              then Resent(c.store, m.content.value.action.first, m.content.value.action.last)
              else [])
    case InOrder => Process(AfterDequeue(c, m), Dequeued(c, m))
    case Numberless => Process(c, [m])
    case _ => Outcome(c, [])
  }

  // The hole in front of the queue, or (-1, -1) when nothing is queued.
  function FirstHole(c: ChatState): (int, int) {
    var start: int := c.inSeq;
    if c.queue == map[] then (-1, -1) else (start, Least(c.queue.Keys) - 1)
  }

  // The skip timer: process the first queued run as if the hole were filled.
  function SkipHole(c: ChatState): Outcome {
    if c.queue == map[] then Outcome(c, [])
    else
      var first := Least(c.queue.Keys);
      var ms := Drain(c.queue, first);
      var done := Process(c, ms);
      Outcome(done.chat.(queue := WithoutRun(done.chat.queue, first, |ms|)), done.resent)
  }

  function Stamped(c: ChatState, x: Content): SecretMessage {
    SecretMessage(Some(x), RawIn(c), RawOut(c))
  }

  // Sending new content stamps it, stores it and moves out_seq_no; content whose
  // message id is still unconfirmed and stored goes out again unchanged.
  function Send(c: ChatState, x: Content): Outcome {
    if x.id in c.outSeqs && c.outSeqs[x.id] in c.store then Outcome(c, [c.store[c.outSeqs[x.id]]])
    else
      Outcome(c.(outSeqs := Emplace(c.outSeqs, x.id, c.outSeq),
                 outIds := Emplace(c.outIds, c.outSeq, x.id),
                 store := c.store[c.outSeq := Stamped(c, x)],
                 outSeq := c.outSeq + 1),
              [Stamped(c, x)])
  }

  // ---- Facts about the specification functions ----

  lemma {:induction false} ProcessAllPrefix(c: ChatState, ms: seq<SecretMessage>, i: nat)
    requires i < |ms|
    ensures ProcessAll(c, ms[..i + 1]) ==
            (var before := ProcessAll(c, ms[..i]);
             var last := ProcessOne(before.chat, ms[i]);
             Outcome(last.chat, before.resent + last.resent))
  {
    assert ms[..i + 1][..i] == ms[..i];
  }

  lemma {:induction false} EraseIdsKeys(q: map<int, SecretMessage>, ids: seq<int>)
    ensures EraseIds(q, ids).Keys == q.Keys
    ensures forall k | k in q :: EraseIds(q, ids)[k] == q[k]
                                 || (EraseIds(q, ids)[k] == Nulled(q[k]) && q[k].content.Some? && q[k].content.value.id in ids)
  {
    if ids != [] {
      EraseIdsKeys(q, ids[..|ids| - 1]);
    }
  }

  // Processing never touches a counter or an outgoing store before it finishes,
  // and changes the queue only by emptying slots.
  lemma {:induction false} ProcessAllFrame(c: ChatState, ms: seq<SecretMessage>)
    ensures var d := ProcessAll(c, ms).chat;
            d == c.(queue := d.queue, delivered := d.delivered) && d.queue.Keys == c.queue.Keys
  {
    if ms != [] {
      ProcessAllFrame(c, ms[..|ms| - 1]);
      var before := ProcessAll(c, ms[..|ms| - 1]).chat;
      var m := ms[|ms| - 1];
      if m.content.Some? && m.content.value.action.DeleteMessages? {
        EraseIdsKeys(before.queue, m.content.value.action.ids);
      }
    }
  }

  // Every queued entry sits above in_seq_no, under its own number.
  ghost predicate WellFormed(c: ChatState) {
    forall k | k in c.queue :: k > c.inSeq && Numbered(c.queue[k]) && c.queue[k].rawOut / 2 == k
  }

  lemma {:induction false} ProcessAllWellQueued(c: ChatState, ms: seq<SecretMessage>)
    ensures forall k | k in c.queue ::
              var q := ProcessAll(c, ms).chat.queue;
              k in q && q[k].rawIn == c.queue[k].rawIn && q[k].rawOut == c.queue[k].rawOut
  {
    ProcessAllFrame(c, ms);
    if ms != [] {
      ProcessAllWellQueued(c, ms[..|ms| - 1]);
      var before := ProcessAll(c, ms[..|ms| - 1]).chat;
      var m := ms[|ms| - 1];
      if m.content.Some? && m.content.value.action.DeleteMessages? {
        EraseIdsKeys(before.queue, m.content.value.action.ids);
      }
    }
  }

  ghost predicate NumberedByKey(q: map<int, SecretMessage>) {
    forall k | k in q :: Numbered(q[k]) && q[k].rawOut / 2 == k
  }

  // Processing a run of queued messages moves in_seq_no just past it.
  lemma {:induction false} RunProcessed(c: ChatState, q: map<int, SecretMessage>, n: nat)
    requires n in q && NumberedByKey(q)
    requires NumberedByKey(c.queue)
    ensures var d := Process(c, Drain(q, n)).chat;
            d.inSeq == n + RunLength(q, n) > n
            && d.processed == c.processed + Drain(q, n)
            && d.queue.Keys == c.queue.Keys
            && NumberedByKey(d.queue)
  {
    var ms := Drain(q, n);
    assert n + |ms| !in q;
    var last := n + |ms| - 1;
    assert last in q && ms[|ms| - 1] == q[last];
    ProcessAllFrame(c, ms);
    ProcessAllWellQueued(c, ms);
  }

  // An in-order message moves in_seq_no past the whole run it completes.
  lemma {:induction false} InOrderAdvances(c: ChatState, m: SecretMessage)
    requires WellFormed(c)
    requires Numbered(m) && m.rawOut / 2 == c.inSeq
    ensures var d := Process(AfterDequeue(c, m), Dequeued(c, m)).chat;
            d.inSeq == c.inSeq + RunLength(Emplace(c.queue, m.rawOut / 2, m), c.inSeq) > c.inSeq
            && (forall k :: k in d.queue <==> k in c.queue && k > d.inSeq)
            && d.processed == c.processed + Dequeued(c, m)
            && WellFormed(d)
  {
    var q := Emplace(c.queue, m.rawOut / 2, m);
    var mid := AfterDequeue(c, m);
    RunProcessed(mid, q, c.inSeq);
    assert c.inSeq + RunLength(q, c.inSeq) !in q;
    assert forall k :: k in mid.queue <==> k in q && !(c.inSeq <= k < c.inSeq + |Dequeued(c, m)|);
  }

  // Receiving any message keeps the queue above in_seq_no.
  lemma {:induction false} ReceiveWellFormed(c: ChatState, m: SecretMessage)
    requires WellFormed(c)
    ensures WellFormed(Receive(c, m).chat)
  {
    match VerdictOf(c, m) {
      case InOrder => InOrderAdvances(c, m);
      case Numberless =>
        ProcessAllFrame(c, [m]);
        ProcessAllWellQueued(c, [m]);
      case _ =>
    }
  }

  // Skipping a hole moves in_seq_no past the first queued run.
  lemma {:induction false} SkipHoleWellFormed(c: ChatState)
    requires WellFormed(c)
    ensures WellFormed(SkipHole(c).chat)
    ensures c.queue != map[] ==>
              var first := Least(c.queue.Keys);
              var d := SkipHole(c).chat;
              d.inSeq == first + RunLength(c.queue, first) > first
              && (forall k :: k in d.queue <==> k in c.queue && k > d.inSeq)
              && d.processed == c.processed + Drain(c.queue, first)
  {
    if c.queue != map[] {
      var first := Least(c.queue.Keys);
      RunProcessed(c, c.queue, first);
      assert first + RunLength(c.queue, first) !in c.queue;
    }
  }

  // ---- The chat object ----

  class Chat {
    const isAdmin: bool
    var inSeqNo: nat
    var outSeqNo: nat
    var unconfirmedIncoming: map<int, SecretMessage>
    var unconfirmedOutgoingSeqNumbers: map<int, int>
    var unconfirmedOutgoingMessageIds: map<int, int>
    var storage: map<int, SecretMessage>
    var delivered: seq<Content>
    ghost var processed: seq<SecretMessage>

    ghost function View(): ChatState
      reads this
    {
      ChatState(isAdmin, inSeqNo, outSeqNo, unconfirmedIncoming, unconfirmedOutgoingMessageIds,
                unconfirmedOutgoingSeqNumbers, storage, processed, delivered)
    }

    constructor (isAdmin: bool)
      ensures View() == NewChat(isAdmin)
    {
      this.isAdmin := isAdmin;
      inSeqNo, outSeqNo := 0, 0;
      unconfirmedIncoming, storage := map[], map[];
      unconfirmedOutgoingSeqNumbers, unconfirmedOutgoingMessageIds := map[], map[];
      delivered, processed := [], [];
    }

    method MessageReceived(m: SecretMessage) returns (resent: seq<SecretMessage>)
      requires WellFormed(View())
      modifies this
      ensures WellFormed(View())
      ensures Outcome(View(), resent) == Receive(old(View()), m)
    {
      resent := [];
      ReceiveWellFormed(View(), m);
      if m.content.None? {
        return;
      }
      if m.rawIn >= 0 && m.rawOut >= 0 {
        if m.rawOut % 2 != (if isAdmin then 0 else 1) || m.rawIn % 2 != (if isAdmin then 1 else 0) {
          return;
        }
        if m.rawIn / 2 > outSeqNo {
          return;
        }
        if m.rawOut / 2 < inSeqNo {
          return;
        }
        if m.rawOut / 2 > inSeqNo {
          if m.content.value.action.Resend? {
            resent := ResendMessages(m.content.value.action.first, m.content.value.action.last);
            QueueUnconfirmedIncoming(Nulled(m));
          } else {
            QueueUnconfirmedIncoming(m);
          }
          return;
        }
        var messages := DequeueUnconfirmedIncoming(m);
        resent := ProcessMessages(messages);
      } else if m.rawIn < 0 && m.rawOut < 0 {
        resent := ProcessMessages([m]);
      }
    }

    method ResendMessages(first: int, last: int) returns (resent: seq<SecretMessage>)
      ensures resent == Resent(storage, first, last)
    {
      resent := [];
      if first < 0 || last < 0 || last < first {
        return;
      }
      var n := first;
      while n <= last
        invariant first <= n <= last + 1
        invariant resent == StoredRange(storage, first, n - 1)
      {
        if n in storage {
          resent := resent + [storage[n]];
        }
        n := n + 1;
      }
    }

    method QueueUnconfirmedIncoming(m: SecretMessage)
      requires m.rawOut >= 0 && m.rawOut / 2 > inSeqNo
      modifies this`unconfirmedIncoming
      ensures unconfirmedIncoming == Emplace(old(unconfirmedIncoming), m.rawOut / 2, m)
    {
      if m.rawOut / 2 !in unconfirmedIncoming {
        unconfirmedIncoming := unconfirmedIncoming[m.rawOut / 2 := m];
      }
    }

    method DequeueUnconfirmedIncoming(m: SecretMessage) returns (messages: seq<SecretMessage>)
      requires forall k | k in unconfirmedIncoming :: k > inSeqNo
      requires m.rawOut >= 0 && m.rawOut / 2 == inSeqNo
      modifies this`unconfirmedIncoming
      ensures messages == Dequeued(old(View()), m)
      ensures View() == AfterDequeue(old(View()), m)
    {
      QueueFirst(m);
      messages := PopRun(inSeqNo);
    }

    // Takes entries off the front of the queue while they are consecutive from next.
    method PopRun(start: int) returns (messages: seq<SecretMessage>)
      requires forall k | k in unconfirmedIncoming :: k >= start
      modifies this`unconfirmedIncoming
      ensures messages == Drain(old(unconfirmedIncoming), start)
      ensures unconfirmedIncoming == WithoutRun(old(unconfirmedIncoming), start, |messages|)
    {
      messages := [];
      var next := start;
      ghost var q := unconfirmedIncoming;
      while unconfirmedIncoming != map[] && Least(unconfirmedIncoming.Keys) == next
        invariant start <= next == start + |messages|
        invariant forall k | start <= k < next :: k in q
        invariant forall i | 0 <= i < |messages| :: messages[i] == q[start + i]
        invariant forall k | k in unconfirmedIncoming :: k in q && k >= next && unconfirmedIncoming[k] == q[k]
        invariant forall k | k in q && k >= next :: k in unconfirmedIncoming
        decreases |unconfirmedIncoming|
      {
        messages := messages + [unconfirmedIncoming[next]];
        unconfirmedIncoming := unconfirmedIncoming - {next};
        next := next + 1;
      }
      assert next !in q;
      RunIsMaximal(q, start, |messages|);
      assert messages == Drain(q, start);
      assert unconfirmedIncoming == WithoutRun(q, start, |messages|);
    }

    method QueueFirst(m: SecretMessage)
      modifies this`unconfirmedIncoming
      ensures unconfirmedIncoming == Emplace(old(unconfirmedIncoming), m.rawOut / 2, m)
    {
      if m.rawOut / 2 !in unconfirmedIncoming {
        unconfirmedIncoming := unconfirmedIncoming[m.rawOut / 2 := m];
      }
    }

    method ProcessMessages(messages: seq<SecretMessage>) returns (resent: seq<SecretMessage>)
      modifies this
      ensures Outcome(View(), resent) == Process(old(View()), messages)
    {
      resent := [];
      if |messages| == 0 {
        return;
      }
      for i := 0 to |messages|
        invariant Outcome(View(), resent) == ProcessAll(old(View()), messages[..i])
      {
        ProcessAllPrefix(old(View()), messages, i);
        var m := messages[i];
        if m.content.Some? {
          match m.content.value.action
          case Plain => delivered := delivered + [m.content.value];
          case Resend(first, last) =>
            var more := ResendMessages(first, last);
            resent := resent + more;
          case DeleteMessages(ids) => IncomingMessagesDeleted(ids);
          case Service =>
        }
      }
      assert messages[..|messages|] == messages;
      ProcessAllFrame(old(View()), messages);
      processed := processed + messages;
      var back := messages[|messages| - 1];
      if back.rawIn >= 0 && back.rawOut >= 0 {
        inSeqNo := back.rawOut / 2 + 1;
        if back.rawIn / 2 > 0 {
          TrimUnconfirmedOutgoing(back.rawIn / 2);
        }
      }
    }

    // Empties the queued slot, if any, of every deleted message.
    method IncomingMessagesDeleted(ids: seq<int>)
      modifies this`unconfirmedIncoming
      ensures unconfirmedIncoming == EraseIds(old(unconfirmedIncoming), ids)
    {
      for i := 0 to |ids|
        invariant unconfirmedIncoming == EraseIds(old(unconfirmedIncoming), ids[..i])
      {
        assert ids[..i + 1][..i] == ids[..i];
        EraseFirstWithId(ids[i]);
      }
      assert ids[..|ids|] == ids;
    }

    // Walks the queue in order and stops at the first match.
    method EraseFirstWithId(id: int)
      modifies this`unconfirmedIncoming
      ensures unconfirmedIncoming == EraseId(old(unconfirmedIncoming), id)
    {
      var rest := unconfirmedIncoming.Keys;
      ghost var hits := WithId(unconfirmedIncoming, id);
      while rest != {}
        invariant hits <= rest <= unconfirmedIncoming.Keys
        decreases |rest|
      {
        var k := Least(rest);
        var m := unconfirmedIncoming[k];
        if m.content.Some? && m.content.value.id == id {
          assert k in hits && k == Least(hits);
          unconfirmedIncoming := unconfirmedIncoming[k := Nulled(m)];
          return;
        }
        rest := rest - {k};
      }
    }

    // Erases every record of outgoing messages below the peer's in_seq_no.
    method TrimUnconfirmedOutgoing(peerIn: nat)
      modifies this`unconfirmedOutgoingSeqNumbers, this`unconfirmedOutgoingMessageIds, this`storage
      ensures View() == Trim(old(View()), peerIn)
    {
      var below := Below(unconfirmedOutgoingMessageIds, peerIn);
      var rest := below;
      while rest != {}
        invariant rest <= below
        invariant unconfirmedOutgoingMessageIds == old(unconfirmedOutgoingMessageIds) && storage == old(storage)
        invariant unconfirmedOutgoingSeqNumbers ==
                  old(unconfirmedOutgoingSeqNumbers) - IdsOf(unconfirmedOutgoingMessageIds, below - rest)
        decreases |rest|
      {
        var k := Least(rest);
        unconfirmedOutgoingSeqNumbers := unconfirmedOutgoingSeqNumbers - {unconfirmedOutgoingMessageIds[k]};
        assert IdsOf(unconfirmedOutgoingMessageIds, below - (rest - {k})) ==
               IdsOf(unconfirmedOutgoingMessageIds, below - rest) + {unconfirmedOutgoingMessageIds[k]} by {
          assert below - (rest - {k}) == (below - rest) + {k};
        }
        rest := rest - {k};
      }
      assert below - rest == below;
      unconfirmedOutgoingMessageIds := unconfirmedOutgoingMessageIds - below;
      storage := StoredFrom(storage, peerIn);
    }

    method FirstUnfilledHole() returns (start: int, end: int)
      requires WellFormed(View())
      ensures (start, end) == FirstHole(View())
    {
      if unconfirmedIncoming == map[] {
        return -1, -1;
      }
      start, end := inSeqNo, Least(unconfirmedIncoming.Keys) - 1;
    }

    // Body of the skip timer.
    method SkipFirstHole() returns (resent: seq<SecretMessage>)
      requires WellFormed(View())
      modifies this
      ensures WellFormed(View())
      ensures Outcome(View(), resent) == SkipHole(old(View()))
    {
      SkipHoleWellFormed(View());
      resent := [];
      if unconfirmedIncoming != map[] {
        var first := Least(unconfirmedIncoming.Keys);
        var messages := CollectRun(unconfirmedIncoming, first);
        resent := ProcessMessages(messages);
        unconfirmedIncoming := WithoutRun(unconfirmedIncoming, first, |messages|);
      }
    }

    static method CollectRun(q: map<int, SecretMessage>, first: int) returns (messages: seq<SecretMessage>)
      ensures messages == Drain(q, first)
    {
      messages := [];
      var seqNo := first;
      while seqNo in q
        invariant first <= seqNo == first + |messages|
        invariant forall k | first <= k < seqNo :: k in q
        invariant forall i | 0 <= i < |messages| :: messages[i] == q[first + i]
        decreases first + RunLength(q, first) - seqNo
      {
        RunReaches(q, first, |messages|);
        messages := messages + [q[seqNo]];
        seqNo := seqNo + 1;
      }
      RunIsMaximal(q, first, |messages|);
    }

    // Sending a query for x: stamp, store, count.
    method SendContent(x: Content) returns (wire: seq<SecretMessage>)
      modifies this
      ensures Outcome(View(), wire) == Send(old(View()), x)
    {
      if x.id in unconfirmedOutgoingSeqNumbers {
        var seqNo := unconfirmedOutgoingSeqNumbers[x.id];
        var copies := ResendStored(seqNo);
        if |copies| == 1 {
          return copies;
        }
      }
      var m := SecretMessage(Some(x), RawInSeqNo(), RawOutSeqNo());
      storage := storage[outSeqNo := m];
      if x.id !in unconfirmedOutgoingSeqNumbers {
        unconfirmedOutgoingSeqNumbers := unconfirmedOutgoingSeqNumbers[x.id := outSeqNo];
      }
      if outSeqNo !in unconfirmedOutgoingMessageIds {
        unconfirmedOutgoingMessageIds := unconfirmedOutgoingMessageIds[outSeqNo := x.id];
      }
      outSeqNo := outSeqNo + 1;
      wire := [m];
    }

    method ResendStored(seqNo: int) returns (copies: seq<SecretMessage>)
      ensures copies == if seqNo in storage then [storage[seqNo]] else []
    {
      copies := if seqNo in storage then [storage[seqNo]] else [];
    }

    function RawInSeqNo(): int
      reads this
    {
      inSeqNo * 2 + (if isAdmin then 0 else 1)
    }

    function RawOutSeqNo(): int
      reads this
    {
      outSeqNo * 2 + (if isAdmin then 1 else 0)
    }
  }

  lemma {:induction false} RunReaches(q: map<int, SecretMessage>, n: int, count: nat)
    requires forall k | n <= k <= n + count :: k in q
    ensures RunLength(q, n) > count
  {
    assert n + RunLength(q, n) !in q;
  }

  // A stretch of keys with a gap behind it is the whole run.
  lemma {:induction false} RunIsMaximal(q: map<int, SecretMessage>, n: int, count: nat)
    requires forall k | n <= k < n + count :: k in q
    requires n + count !in q
    ensures RunLength(q, n) == count
  {
    assert n + RunLength(q, n) !in q;
  }
}
