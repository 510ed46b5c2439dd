/** What becomes of a request for missing messages, in every run of two peers
    (src/secret_chat.cpp, src/secret_chat.h). Nothing here speaks of how a chat
    answers: the answers are described by the logs and the numbers in them. */
module SecretChatAnswers {
  import opened Wrappers
  import opened SecretChat
  import opened SecretChatHistory
  import opened SecretChatNetwork

  function Number(m: SecretMessage): int { m.rawOut / 2 }

  predicate Asks(m: SecretMessage) { m.content.Some? && m.content.value.action.Resend? }

  function First(m: SecretMessage): int requires Asks(m) { m.content.value.action.first }

  function Last(m: SecretMessage): int requires Asks(m) { m.content.value.action.last }

  // The run as a sees it, or as b does.
  function View(w: World, swapped: bool): World { if swapped then Swap(w) else w }

  // The entries first to last of a log of which copies are kept, each once and in order.
  ghost predicate LogEntries(ms: seq<SecretMessage>, log: seq<SecretMessage>, kept: set<int>, first: int, last: int) {
    && (forall m | m in ms :: Logged(m, log) && first <= Number(m) <= last && Number(m) in kept)
    && (forall i, j | 0 <= i < j < |ms| :: Number(ms[i]) < Number(ms[j]))
    && (forall n | first <= n <= last && n in kept && 0 <= n < |log| :: log[n] in ms)
  }

  // ---- One delivery ----

  lemma {:induction false} RangeIsLogged(s: ChatState, r: ChatState, sent: seq<SecretMessage>, first: int, last: int)
    requires TrueLog(s, sent) && Resendable(s, r, sent)
    ensures LogEntries(StoredRange(s.store, first, last), sent, s.store.Keys, first, last)
    decreases last - first
  {
    if first <= last {
      hide LogEntries, TrueLog, Resendable;
      RangeIsLogged(s, r, sent, first, last - 1);
      CopyIsEntry(s, r, sent, last);
      OneMore(StoredRange(s.store, first, last - 1), sent, s.store.Keys, first, last);
    }
  }

  lemma CopyIsEntry(s: ChatState, r: ChatState, sent: seq<SecretMessage>, n: int)
    requires TrueLog(s, sent) && Resendable(s, r, sent)
    ensures n in s.store ==> 0 <= n < |sent| && s.store[n] == sent[n] && Number(sent[n]) == n
  {
  }

  lemma {:induction false} OneMore(front: seq<SecretMessage>, log: seq<SecretMessage>, kept: set<int>, first: int, last: int)
    requires LogEntries(front, log, kept, first, last - 1) && first <= last
    requires last in kept ==> 0 <= last < |log| && Number(log[last]) == last
    ensures LogEntries(front + (if last in kept then [log[last]] else []), log, kept, first, last)
  {
    if last in kept {
      var ms := front + [log[last]];
      forall n | first <= n <= last && n in kept && 0 <= n < |log| ensures log[n] in ms {
        if n < last { assert log[n] in front; } else { assert ms[|front|] == log[n]; }
      }
      forall i, j | 0 <= i < j < |ms| ensures Number(ms[i]) < Number(ms[j]) { assert ms[i] in front; }
    } else {
      assert front + [] == front;
    }
  }

  // A batch in which only the first message can be a request.
  lemma {:induction false} OneRequestAnswered(c: ChatState, ms: seq<SecretMessage>)
    requires ms != [] && forall i | 0 < i < |ms| :: !Asks(ms[i])
    ensures ProcessAll(c, ms).resent == (if Asks(ms[0]) then Resent(c.store, First(ms[0]), Last(ms[0])) else [])
  {
    if |ms| > 1 {
      OneRequestAnswered(c, ms[..|ms| - 1]);
    } else {
      assert ms[..0] == [];
    }
  }

  // No request waits in a queue: one that arrives past a hole is answered at once.
  ghost predicate NoneWaits(q: map<int, SecretMessage>) { forall k | k in q :: !Asks(q[k]) }

  lemma {:induction false} ProcessingQueuesNone(c: ChatState, ms: seq<SecretMessage>)
    requires NoneWaits(c.queue)
    ensures NoneWaits(ProcessAll(c, ms).chat.queue)
  {
    if ms != [] {
      ProcessingQueuesNone(c, ms[..|ms| - 1]);
      var before := ProcessAll(c, ms[..|ms| - 1]).chat;
      var m := ms[|ms| - 1];
      if m.content.Some? && m.content.value.action.DeleteMessages? {
        EraseIdsKeys(before.queue, m.content.value.action.ids);
      }
    }
  }

  lemma {:induction false} ProcessQueue(c: ChatState, ms: seq<SecretMessage>)
    ensures Process(c, ms).chat.queue == ProcessAll(c, ms).chat.queue && Process(c, ms).resent == ProcessAll(c, ms).resent
  {
    hide Below, IdsOf, StoredFrom;
    if ms != [] {
      hide ProcessAll;
    }
  }

  lemma {:induction false} ReceivingQueuesNone(c: ChatState, m: SecretMessage)
    requires NoneWaits(c.queue)
    ensures NoneWaits(Receive(c, m).chat.queue)
  {
    hide ProcessAll, Process;
    match VerdictOf(c, m) {
      case InOrder =>
        assert NoneWaits(AfterDequeue(c, m).queue);
        ProcessingQueuesNone(AfterDequeue(c, m), Dequeued(c, m));
        ProcessQueue(AfterDequeue(c, m), Dequeued(c, m));
      case Numberless =>
        ProcessingQueuesNone(c, [m]);
        ProcessQueue(c, [m]);
      case _ =>
    }
  }

  lemma {:induction false} SkippingQueuesNone(c: ChatState)
    requires NoneWaits(c.queue)
    ensures NoneWaits(SkipHole(c).chat.queue) && SkipHole(c).resent == []
  {
    hide ProcessAll, Process;
    if c.queue != map[] {
      var first := Least(c.queue.Keys);
      var ms := Drain(c.queue, first);
      ProcessingQueuesNone(c, ms);
      ProcessQueue(c, ms);
      forall i | 0 <= i < |ms| ensures !Asks(ms[i]) { assert first + i in c.queue; }
      if ms != [] {
        OneRequestAnswered(c, ms);
      }
    }
  }

  // A message that is next in order is processed in front of the queued run behind it.
  lemma {:induction false} InOrderIsFirst(c: ChatState, m: SecretMessage)
    requires NoneWaits(c.queue) && WellFormed(c) && VerdictOf(c, m) == InOrder
    ensures Receive(c, m).resent == (if Asks(m) then Resent(c.store, First(m), Last(m)) else [])
  {
    var ms := Dequeued(c, m);
    var q := Emplace(c.queue, m.rawOut / 2, m);
    assert c.inSeq in q && q[c.inSeq] == m && ms[0] == m;
    forall i | 0 < i < |ms| ensures !Asks(ms[i]) {
      assert c.inSeq + i in q && ms[i] == q[c.inSeq + i];
    }
    OneRequestAnswered(AfterDequeue(c, m), ms);
  }

  lemma {:induction false} ReceiveAnswers(c: ChatState, m: SecretMessage)
    requires NoneWaits(c.queue) && WellFormed(c) && Numbered(m) && VerdictOf(c, m) in {Duplicate, Hole, InOrder}
    ensures Receive(c, m).resent
            == if Asks(m) && Number(m) >= c.inSeq then Resent(c.store, First(m), Last(m)) else []
  {
    hide Process, AfterDequeue, Dequeued, StoredRange, NoneWaits, WellFormed;
    if VerdictOf(c, m) == InOrder {
      InOrderIsFirst(c, m);
    }
  }

  // What a puts on the wire when m arrives: exactly the log entries asked for of which
  // it still has copies, in order, if m asks and was not heard before, and nothing else.
  ghost predicate Answers(w: World, m: SecretMessage, keep: bool) {
    var copies := Receive(w.a, m).resent;
    && Delivers(w, m, keep).toB == w.toB + (set c | c in copies)
    && if Asks(m) && Number(m) >= w.a.inSeq
       then LogEntries(copies, w.sentA, w.a.store.Keys, First(m), Last(m))
       else copies == []
  }

  lemma {:induction false} DeliveryAnswers(w: World, m: SecretMessage, keep: bool)
    requires Inv(w) && NoneWaits(w.a.queue) && m in w.toA
    ensures Answers(w, m, keep)
  {
    HonestNeverRejected(w, m);
    assert Logged(m, w.sentB);
    hide LogEntries, Resendable, ProcessedKept, AllKept, Receive, VerdictOf;
    if Asks(m) {
      RangeIsLogged(w.a, w.b, w.sentA, First(m), Last(m));
    }
    ReceiveAnswers(w.a, m);
  }

  // A deletion that is next in order empties the queued message it names: whatever is
  // left of the queue afterwards, the first entry with that id has lost its content.
  lemma {:induction false} ErasedIds(q: map<int, SecretMessage>, ids: seq<int>, k: int)
    requires k in q && q[k].content.Some? && q[k].content.value.id in ids
    requires forall j | j in q && q[j].content.Some? && q[j].content.value.id == q[k].content.value.id :: k <= j
    ensures k in EraseIds(q, ids) && EraseIds(q, ids)[k].content.None?
  {
    var id, front := q[k].content.value.id, ids[..|ids| - 1];
    EraseIdsKeys(q, front);
    if id in front {
      ErasedIds(q, front, k);
    }
    var q' := EraseIds(q, front);
    if ids[|ids| - 1] == id && q'[k].content.Some? {
      assert k in WithId(q', id);
      assert forall j | j in WithId(q', id) :: k <= j;
    }
  }

  lemma {:induction false} DeletionReachesTheQueue(c: ChatState, m: SecretMessage, k: int)
    requires WellFormed(c) && VerdictOf(c, m) == InOrder && m.content.value.action.DeleteMessages?
    requires k in Receive(c, m).chat.queue && k in c.queue && c.queue[k].content.Some?
    requires c.queue[k].content.value.id in m.content.value.action.ids
    requires forall j | j in Receive(c, m).chat.queue && j in c.queue && c.queue[j].content.Some?
                        && c.queue[j].content.value.id == c.queue[k].content.value.id :: k <= j
    ensures Receive(c, m).chat.queue[k].content.None?
  {
    InOrderQueue(c, m);
    hide ProcessAll, Receive, Dequeued, VerdictOf;
    FirstDeletes(AfterDequeue(c, m), Dequeued(c, m), k);
  }

  lemma {:induction false} InOrderQueue(c: ChatState, m: SecretMessage)
    requires WellFormed(c) && VerdictOf(c, m) == InOrder
    ensures var mid, ms := AfterDequeue(c, m), Dequeued(c, m);
            && ms != [] && ms[0] == m
            && Receive(c, m).chat.queue == ProcessAll(mid, ms).chat.queue
            && Receive(c, m).chat.queue.Keys == mid.queue.Keys
  {
    var q := Emplace(c.queue, m.rawOut / 2, m);
    assert c.inSeq in q && q[c.inSeq] == m;
    hide ProcessAll, Process;
    ProcessAllFrame(AfterDequeue(c, m), Dequeued(c, m));
    ProcessQueue(AfterDequeue(c, m), Dequeued(c, m));
  }

  lemma {:induction false} FirstDeletes(c: ChatState, ms: seq<SecretMessage>, k: int)
    requires ms != [] && ms[0].content.Some? && ms[0].content.value.action.DeleteMessages?
    requires k in c.queue && c.queue[k].content.Some?
    requires c.queue[k].content.value.id in ms[0].content.value.action.ids
    requires forall j | j in c.queue && c.queue[j].content.Some?
                        && c.queue[j].content.value.id == c.queue[k].content.value.id :: k <= j
    ensures var q := ProcessAll(c, ms).chat.queue; k in q && q[k].content.None?
  {
    ErasedIds(c.queue, ms[0].content.value.action.ids, k);
    assert ms[..0] == [];
    ProcessAllPrefix(c, ms, 0);
    hide EraseIds;
    StaysErased(c, ms, 1, k);
  }

  lemma {:induction false} StaysErased(c: ChatState, ms: seq<SecretMessage>, i: nat, k: int)
    requires i <= |ms|
    requires var q := ProcessAll(c, ms[..i]).chat.queue; k in q && q[k].content.None?
    ensures var q := ProcessAll(c, ms).chat.queue; k in q && q[k].content.None?
    decreases |ms|
  {
    if i == |ms| {
      assert ms[..i] == ms;
    } else {
      var front, m := ms[..|ms| - 1], ms[|ms| - 1];
      assert front[..i] == ms[..i];
      StaysErased(c, front, i, k);
      if m.content.Some? && m.content.value.action.DeleteMessages? {
        EraseIdsKeys(ProcessAll(c, front).chat.queue, m.content.value.action.ids);
      }
    }
  }

  // A message without content, with only one number, of the wrong parity, that claims to
  // have seen what was never sent, or that was received before changes nothing.
  lemma WhatIsDropped(c: ChatState, m: SecretMessage)
    requires
      || m.content.None? || (m.rawIn < 0) != (m.rawOut < 0)
      || (m.rawIn >= 0 && m.rawOut >= 0
          && (m.rawOut % 2 != (if c.isAdmin then 0 else 1) || m.rawIn % 2 != (if c.isAdmin then 1 else 0)
              || m.rawIn / 2 > c.outSeq || m.rawOut / 2 < c.inSeq))
    ensures Receive(c, m) == Outcome(c, [])
  {
  }

  // A message of a peer that does not number is processed at once and moves no counter.
  lemma {:induction false} NumberlessIsProcessed(c: ChatState, m: SecretMessage)
    requires m.content.Some? && m.rawIn < 0 && m.rawOut < 0
    ensures var (d, x) := (Receive(c, m).chat, m.content.value);
            && d == c.(queue := d.queue, processed := c.processed + [m], delivered := d.delivered)
            && d.delivered == c.delivered + (if x.action.Plain? then [x] else [])
            && (!x.action.DeleteMessages? ==> d.queue == c.queue)
  {
    var one := [m];
    assert ProcessAll(c, one[..0]) == Outcome(c, []) && one[..1] == one;
    ProcessAllPrefix(c, one, 0);
    ProcessAllFrame(c, one);
  }

  // A copy of a message that waits behind a hole changes nothing, whatever it carries.
  lemma FirstCopyIsKept(c: ChatState, m: SecretMessage)
    requires VerdictOf(c, m) == Hole && Number(m) in c.queue
    ensures Receive(c, m).chat == c
  {
  }

  // A deleted id empties one queued message at most, the first that carries it.
  lemma {:induction false} OnlyTheFirstIsErased(q: map<int, SecretMessage>, id: int, k: int)
    requires k in q
    ensures var r := EraseIds(q, [id]);
            && k in r && (r[k] == q[k] || r[k] == Nulled(q[k]))
            && (r[k] != q[k] ==>
                  && q[k].content.Some? && q[k].content.value.id == id
                  && forall j | j in q && j < k && q[j].content.Some? :: q[j].content.value.id != id)
  {
    assert [id][..0] == [] && EraseIds(q, []) == q;
    assert EraseIds(q, [id]) == EraseId(q, id);
    forall j | j in q && j < k && q[j].content.Some? && q[j].content.value.id == id ensures j in WithId(q, id) {
    }
  }

  // A range that ends before it starts, or with a negative end, asks for nothing.
  lemma {:induction false} EmptyRangeIsIgnored(c: ChatState, m: SecretMessage)
    requires Asks(m) && VerdictOf(c, m) == Hole && (First(m) < 0 || Last(m) < 0 || Last(m) < First(m))
    ensures Receive(c, m).resent == []
  {
  }

  // ---- Every run ----

  lemma {:induction false} StepQueuesNone(w: World, w': World, skipping: bool)
    requires StepA(w, w', skipping) && NoneWaits(w.a.queue)
    ensures NoneWaits(w'.a.queue) && w'.b == w.b
  {
    if m: SecretMessage, keep: bool :| m in w.toA && w' == Delivers(w, m, keep) {
      ReceivingQueuesNone(w.a, m);
    } else if w' == Skips(w) {
      SkippingQueuesNone(w.a);
    }
  }

  lemma {:induction false} RunQueuesNone(ws: seq<World>, skipping: bool, i: nat)
    requires IsRun(ws, skipping) && i < |ws|
    ensures NoneWaits(ws[i].a.queue) && NoneWaits(ws[i].b.queue)
  {
    if i > 0 {
      RunQueuesNone(ws, skipping, i - 1);
      assert StepAt(ws, i - 1, skipping);
      var w, w' := ws[i - 1], ws[i];
      hide NoneWaits, StepA;
      if StepA(w, w', skipping) {
        StepQueuesNone(w, w', skipping);
      } else {
        StepQueuesNone(Swap(w), Swap(w'), skipping);
      }
    }
  }

  lemma ViewInv(w: World, swapped: bool)
    requires Inv(w)
    ensures Inv(View(w, swapped))
  {
    InvSwaps(w);
  }

  // In every run, whichever peer hears a message: a request is answered with exactly
  // the messages it asks for that are still kept, whether it fills the next number or
  // arrives past a hole, and no other message makes a copy go out.
  lemma {:induction false} RequestsAreAnswered(ws: seq<World>, skipping: bool, swapped: bool, i: nat,
                                               m: SecretMessage, keep: bool)
    requires IsRun(ws, skipping) && i < |ws| && m in View(ws[i], swapped).toA
    ensures Answers(View(ws[i], swapped), m, keep)
  {
    RunInv(ws, skipping, i);
    RunQueuesNone(ws, skipping, i);
    ViewInv(ws[i], swapped);
    DeliveryAnswers(View(ws[i], swapped), m, keep);
  }

  // The skip timer, by contrast, never puts anything on the wire.
  lemma {:induction false} SkippingIsSilent(ws: seq<World>, skipping: bool, swapped: bool, i: nat)
    requires IsRun(ws, skipping) && i < |ws|
    ensures var w := View(ws[i], swapped); Skips(w).toB == w.toB
  {
    RunQueuesNone(ws, skipping, i);
    SkippingQueuesNone(View(ws[i], swapped).a);
  }

  // New content goes out under the next number and says how many of the peer's messages
  // have been received without a hole.
  lemma {:induction false} StampsSayWhatWasHeard(ws: seq<World>, skipping: bool, swapped: bool, i: nat, x: Content)
    requires IsRun(ws, skipping) && i < |ws|
    requires Sends(View(ws[i], swapped), x).sentA != View(ws[i], swapped).sentA
    ensures var (w, w') := (View(ws[i], swapped), Sends(View(ws[i], swapped), x));
            exists m :: w'.sentA == w.sentA + [m] && m in w'.toB && m.content == Some(x)
                        && Number(m) == |w.sentA| && m.rawIn / 2 == w.a.inSeq
  {
    RunInv(ws, skipping, i);
    ViewInv(ws[i], swapped);
    var w := View(ws[i], swapped);
    assert Sends(w, x).sentA == w.sentA + [Stamped(w.a, x)];
    assert Stamped(w.a, x) in Wire([Stamped(w.a, x)]);
  }

  // A message that is next in order confirms: exactly the copies and records below the
  // number that the last message processed with it carries are given up.
  lemma {:induction false} ConfirmedIsForgotten(ws: seq<World>, skipping: bool, swapped: bool, i: nat, m: SecretMessage, keep: bool)
    requires IsRun(ws, skipping) && i < |ws|
    requires m in View(ws[i], swapped).toA && Number(m) == View(ws[i], swapped).a.inSeq
    ensures Forgets(View(ws[i], swapped).a, Delivers(View(ws[i], swapped), m, keep).a)
  {
    hide Inv, Receive, Forgets;
    RunInv(ws, skipping, i);
    ViewInv(ws[i], swapped);
    InOrderForgets(View(ws[i], swapped), m);
  }

  // b has processed more than a, and of what a kept it keeps what the last of it asks for.
  ghost predicate Forgets(a: ChatState, b: ChatState) {
    && |b.processed| > |a.processed|
    && var peerIn := b.processed[|b.processed| - 1].rawIn / 2;
    && b.store == (map n | n in a.store && n >= peerIn :: a.store[n])
    && (forall n | n >= 0 :: n in b.outIds <==> n in a.outIds && n >= peerIn)
  }

  lemma {:induction false} InOrderForgets(w: World, m: SecretMessage)
    requires Inv(w) && m in w.toA && Number(m) == w.a.inSeq
    ensures Forgets(w.a, Receive(w.a, m).chat)
  {
    InOrderFacts(w, m);
    var (mid, ms) := (AfterDequeue(w.a, m), Dequeued(w.a, m));
    hide *;
    InOrderQueue(w.a, m);
    ProcessAllFrame(mid, ms);
    RunNumbered(w, m);
    FinishForgets(w.a, mid, ms, m);
  }

  lemma {:induction false} InOrderFacts(w: World, m: SecretMessage)
    requires Inv(w) && m in w.toA && Number(m) == w.a.inSeq
    ensures VerdictOf(w.a, m) == InOrder && WellFormed(w.a) && Numbered(m) && forall n | n in w.a.store :: n >= 0
  {
    HonestNeverRejected(w, m);
    assert Logged(m, w.sentB);
    hide AllKept, ProcessedKept, RequestsInRange;
  }

  lemma {:induction false} RunNumbered(w: World, m: SecretMessage)
    requires WellFormed(w.a) && Numbered(m) && VerdictOf(w.a, m) == InOrder
    ensures forall k | k in Dequeued(w.a, m) :: Numbered(k)
  {
    var (q, ms) := (Emplace(w.a.queue, m.rawOut / 2, m), Dequeued(w.a, m));
    forall i | 0 <= i < |ms| ensures Numbered(ms[i]) {
      assert w.a.inSeq + i in q && ms[i] == q[w.a.inSeq + i];
    }
  }

  lemma {:induction false} FinishForgets(c: ChatState, mid: ChatState, ms: seq<SecretMessage>, m: SecretMessage)
    requires ms != [] && mid == AfterDequeue(c, m) && ms == Dequeued(c, m) && VerdictOf(c, m) == InOrder
    requires Numbered(ms[|ms| - 1]) && forall n | n in c.store :: n >= 0
    requires var d := ProcessAll(mid, ms).chat; d == mid.(queue := d.queue, delivered := d.delivered)
    ensures Forgets(c, Receive(c, m).chat)
  {
    hide ProcessAll, Dequeued, Emplace, WithoutRun, IdsOf;
    var d := Receive(c, m).chat;
    assert d.processed == c.processed + ms && d.processed[|d.processed| - 1] == ms[|ms| - 1];
    assert c.store == map n | n in c.store && n >= 0 :: c.store[n];
  }

  // ---- From the request to the missing messages ----

  // Whether n belongs to the first stretch of numbers that c misses.
  ghost predicate InFirstHole(c: ChatState, n: int) {
    c.queue != map[] && c.inSeq <= n && forall k | k in c.queue :: n < k
  }

  lemma {:induction false} StepGrows(w: World, w': World, skipping: bool)
    requires StepA(w, w', skipping) && Inv(w)
    ensures w.sentA <= w'.sentA && w.sentB == w'.sentB
  {
    hide Receive, SkipHole, Inv;
  }

  // Logs are only ever added to.
  ghost predicate Grown(w: World, w': World) { w.sentA <= w'.sentA && w.sentB <= w'.sentB }

  lemma {:induction false} LogsGrow(ws: seq<World>, skipping: bool, i: nat, j: nat)
    requires IsRun(ws, skipping) && i <= j < |ws|
    ensures Grown(ws[i], ws[j])
    decreases j
  {
    hide IsRun, Inv, Step;
    if i < j {
      hide Grown;
      LogsGrow(ws, skipping, i, j - 1);
      StepOf(ws, skipping, j - 1);
      LogsGrowOn(ws[i], ws[j - 1], ws[j], skipping);
    }
  }

  lemma {:induction false} StepOf(ws: seq<World>, skipping: bool, i: nat)
    requires IsRun(ws, skipping) && i < |ws| - 1
    ensures Inv(ws[i]) && Step(ws[i], ws[i + 1], skipping)
  {
    hide Inv, Step;
    RunInv(ws, skipping, i);
    assert StepAt(ws, i, skipping);
  }

  lemma {:induction false} LogsGrowOn(v: World, w: World, w': World, skipping: bool)
    requires Grown(v, w) && Inv(w) && Step(w, w', skipping)
    ensures Grown(v, w')
  {
    hide Inv, Step;
    LogsStep(w, w', skipping);
  }

  lemma {:induction false} LogsStep(w: World, w': World, skipping: bool)
    requires Inv(w) && Step(w, w', skipping)
    ensures Grown(w, w')
  {
    InvSwaps(w);
    hide Inv, StepA;
    if StepA(w, w', skipping) {
      StepGrows(w, w', skipping);
    } else {
      StepGrows(Swap(w), Swap(w'), skipping);
    }
  }

  // b asks, at step i, for the numbers in front of its queue.
  ghost predicate AsksForHole(w: World, w': World, id: int) {
    w.b.queue != map[] && id !in w.b.outSeqs && w' == Swap(Sends(Swap(w), HoleRequest(w.b, id)))
  }

  // From a request to its answer: b asks for its first hole under a new id, the request
  // reaches a for the first time some steps later, and every number of the hole that b
  // misses even then is on its way to it, as a first sent it.
  lemma {:induction false} HolesAreResent(ws: seq<World>, skipping: bool, swapped: bool, i: nat, j: nat, id: int, keep: bool)
    requires IsRun(ws, skipping) && i < j < |ws| - 1
    requires AsksForHole(View(ws[i], swapped), View(ws[i + 1], swapped), id)
    requires var w := View(ws[j], swapped);
             var sent := View(ws[i + 1], swapped).sentB;
             && |sent| > 0 && sent[|sent| - 1] in w.toA && Number(sent[|sent| - 1]) >= w.a.inSeq
             && View(ws[j + 1], swapped) == Delivers(w, sent[|sent| - 1], keep)
    ensures var w, w' := View(ws[j], swapped), View(ws[j + 1], swapped);
            forall n | InFirstHole(View(ws[i], swapped).b, n) && n >= w.b.inSeq :: n < |w.sentA| && w.sentA[n] in w'.toB
  {
    var v, w, w' := View(ws[i], swapped), View(ws[j], swapped), View(ws[j + 1], swapped);
    var request := Stamped(v.b, HoleRequest(v.b, id));
    assert View(ws[i + 1], swapped).sentB == v.sentB + [request];
    RunInv(ws, skipping, i);
    ViewInv(ws[i], swapped);
    ViewInv(v, true);
    RequestInRange(Swap(v));
    LogsGrow(ws, skipping, i, j);
    RunInv(ws, skipping, j);
    ViewInv(ws[j], swapped);
    RequestsAreAnswered(ws, skipping, swapped, j, request, keep);
    hide *;
    HoleOnTheWire(v, w, w', request, id, keep);
  }

  lemma {:induction false} HoleOnTheWire(v: World, w: World, w': World, request: SecretMessage, id: int, keep: bool)
    requires v.b.queue != map[] && request == Stamped(v.b, HoleRequest(v.b, id))
    requires 0 <= FirstHole(v.b).0 <= FirstHole(v.b).1 < v.a.outSeq <= w.a.outSeq
    requires Inv(w) && Answers(w, request, keep) && Number(request) >= w.a.inSeq && w' == Delivers(w, request, keep)
    ensures forall n | InFirstHole(v.b, n) && n >= w.b.inSeq :: n < |w.sentA| && w.sentA[n] in w'.toB
  {
    forall n | InFirstHole(v.b, n) && n >= w.b.inSeq ensures n < |w.sentA| && w.sentA[n] in w'.toB {
      assert n <= FirstHole(v.b).1;
      assert n in w.a.store;
    }
  }

  // ---- Without the skip timer no request is passed over ----

  // a hears message n of b's log for the first time that counts.
  ghost predicate Hears(w: World, w': World, n: nat) {
    && n < |w.sentB| && w.a.inSeq <= n && w.sentB[n] in w.toA
    && exists keep: bool :: w' == Delivers(w, w.sentB[n], keep)
  }

  ghost predicate HeardAt(ws: seq<World>, swapped: bool, j: nat, n: nat) {
    j + 1 < |ws| && Hears(View(ws[j], swapped), View(ws[j + 1], swapped), n)
  }

  predicate Has(c: ChatState, n: int) { n < c.inSeq || n in c.queue }

  lemma {:induction false} OnlyHearingCounts(w: World, w': World, n: nat)
    requires Inv(w) && StepA(w, w', false) && Has(w'.a, n) && !Has(w.a, n)
    ensures Hears(w, w', n)
  {
    if m: SecretMessage, keep: bool :| m in w.toA && w' == Delivers(w, m, keep) {
      HonestNeverRejected(w, m);
      assert Logged(m, w.sentB);
      hide Receive, VerdictOf;
      NewIsItsNumber(w.a, m, n);
    }
  }

  lemma {:induction false} NewIsItsNumber(c: ChatState, m: SecretMessage, n: nat)
    requires WellFormed(c) && VerdictOf(c, m) in {Duplicate, Hole, InOrder}
    requires Has(Receive(c, m).chat, n) && !Has(c, n)
    ensures n == Number(m)
  {
    hide WellFormed;
    if VerdictOf(c, m) == InOrder {
      hide Process, AfterDequeue, Dequeued;
      InOrderAdvances(c, m);
      assert c.inSeq <= n && n in Emplace(c.queue, m.rawOut / 2, m);
    }
  }

  lemma {:induction false} HasWasHeard(ws: seq<World>, swapped: bool, i: nat, n: nat) returns (j: nat)
    requires IsRun(ws, false) && i < |ws| && Has(View(ws[i], swapped).a, n)
    ensures j < i && HeardAt(ws, swapped, j, n)
  {
    assert i > 0;
    var w, w' := View(ws[i - 1], swapped), View(ws[i], swapped);
    if Has(w.a, n) {
      j := HasWasHeard(ws, swapped, i - 1, n);
    } else {
      j := i - 1;
      RunInv(ws, false, j);
      ViewInv(ws[j], swapped);
      assert StepAt(ws, j, false);
      SideMoved(w, w', n);
      OnlyHearingCounts(w, w', n);
    }
  }

  // What b does changes nothing that a has.
  lemma {:induction false} SideMoved(w: World, w': World, n: nat)
    requires Step(w, w', false) || Step(Swap(w), Swap(w'), false)
    requires Has(w'.a, n) && !Has(w.a, n)
    ensures StepA(w, w', false)
  {
    hide StepA;
    if StepA(Swap(w), Swap(w'), false) {
      OtherSideStays(w, w');
    }
  }

  lemma OtherSideStays(w: World, w': World)
    requires StepA(Swap(w), Swap(w'), false)
    ensures w'.a == w.a
  {
  }

  // Once a is past the number of a request, the request has reached it and was answered
  // with exactly the messages it asks for of which a had copies at that time.
  lemma {:induction false} NoRequestIsPassedOver(ws: seq<World>, swapped: bool, i: nat, n: nat) returns (j: nat)
    requires IsRun(ws, false) && i < |ws|
    requires var w := View(ws[i], swapped); n < w.a.inSeq && n < |w.sentB| && Asks(w.sentB[n])
    ensures j < i
    ensures var m, w, w' := View(ws[i], swapped).sentB[n], View(ws[j], swapped), View(ws[j + 1], swapped);
            && w.a.inSeq <= n && m in w.toA
            && exists copies :: LogEntries(copies, w.sentA, w.a.store.Keys, First(m), Last(m))
                                && w'.toB == w.toB + set c | c in copies
  {
    j := HasWasHeard(ws, swapped, i, n);
    LogsGrow(ws, false, j, i);
    var m, w, w' := View(ws[i], swapped).sentB[n], View(ws[j], swapped), View(ws[j + 1], swapped);
    assert w.sentB[n] == m;
    var keep: bool :| w' == Delivers(w, w.sentB[n], keep);
    RunInv(ws, false, j);
    ViewInv(ws[j], swapped);
    assert Number(m) == n;
    RequestsAreAnswered(ws, false, swapped, j, m, keep);
  }
}
