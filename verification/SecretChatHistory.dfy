/** What a receiver knows after any history of arrivals (src/secret_chat.cpp). */
module SecretChatHistory {
  import opened Wrappers
  import opened SecretChat

  datatype Event = Arrive(m: SecretMessage) | SendNew(x: Content) | SkipTimer

  function Apply(c: ChatState, e: Event): ChatState {
    match e
    case Arrive(m) => Receive(c, m).chat
    case SendNew(x) => Send(c, x).chat
    case SkipTimer => SkipHole(c).chat
  }

  function After(c: ChatState, es: seq<Event>): ChatState {
    if es == [] then c else Apply(After(c, es[..|es| - 1]), es[|es| - 1])
  }

  ghost predicate NumbersOnly(es: seq<Event>) {
    forall e | e in es :: e.Arrive? ==> !(e.m.rawIn < 0 && e.m.rawOut < 0)
  }

  ghost predicate NoSkips(es: seq<Event>) {
    SkipTimer !in es
  }

  // The first accepted copy of every number accepted so far.
  function Copies(c: ChatState, es: seq<Event>): map<int, SecretMessage> {
    if es == [] then map[]
    else
      var before := Copies(c, es[..|es| - 1]);
      var e := es[|es| - 1];
      if e.Arrive? && VerdictOf(After(c, es[..|es| - 1]), e.m) in {Hole, InOrder}
      then Emplace(before, e.m.rawOut / 2, e.m)
      else before
  }

  ghost predicate Deletes(m: SecretMessage, id: int) {
    m.content.Some? && m.content.value.action.DeleteMessages? && id in m.content.value.action.ids
  }

  ghost predicate DeletedBy(log: seq<SecretMessage>, id: int) {
    exists j :: 0 <= j < |log| && Deletes(log[j], id)
  }

  // A copy is kept whole, unless it was a resend request honoured on arrival or
  // its id was deleted by a message processed before it.
  ghost predicate Kept(got: SecretMessage, orig: SecretMessage, log: seq<SecretMessage>) {
    got == orig
    || (got == Nulled(orig) && orig.content.Some?
        && (orig.content.value.action.Resend? || DeletedBy(log, orig.content.value.id)))
  }

  ghost predicate AllKept(q: map<int, SecretMessage>, orig: map<int, SecretMessage>, log: seq<SecretMessage>) {
    forall k | k in q :: k in orig && Kept(q[k], orig[k], log)
  }

  lemma DeletedByGrows(log: seq<SecretMessage>, more: seq<SecretMessage>, id: int)
    requires DeletedBy(log, id) || DeletedBy(more, id)
    ensures DeletedBy(log + more, id)
  {
    if DeletedBy(log, id) {
      var j :| 0 <= j < |log| && Deletes(log[j], id);
      assert (log + more)[j] == log[j];
    } else {
      var j :| 0 <= j < |more| && Deletes(more[j], id);
      assert (log + more)[|log| + j] == more[j];
    }
  }

  lemma KeptGrows(got: SecretMessage, orig: SecretMessage, log: seq<SecretMessage>, more: seq<SecretMessage>)
    requires Kept(got, orig, log)
    ensures Kept(got, orig, log + more)
  {
    if got != orig && !orig.content.value.action.Resend? {
      DeletedByGrows(log, more, orig.content.value.id);
    }
  }

  // Processing a batch empties a queued slot only when the batch deletes its id.
  lemma {:induction false} ProcessAllErases(c: ChatState, ms: seq<SecretMessage>, k: int)
    requires k in c.queue
    ensures var q := ProcessAll(c, ms).chat.queue;
            k in q && (q[k] == c.queue[k]
                       || (q[k] == Nulled(c.queue[k]) && c.queue[k].content.Some?
                           && DeletedBy(ms, c.queue[k].content.value.id)))
  {
    if ms != [] {
      var init, m := ms[..|ms| - 1], ms[|ms| - 1];
      assert ms == init + [m];
      ProcessAllErases(c, init, k);
      var before := ProcessAll(c, init).chat;
      if m.content.Some? && m.content.value.action.DeleteMessages? {
        EraseIdsKeys(before.queue, m.content.value.action.ids);
      }
      if c.queue[k].content.Some? {
        var id := c.queue[k].content.value.id;
        if Deletes(m, id) {
          assert [m][0] == m;
          DeletedByGrows(init, [m], id);
        } else if DeletedBy(init, id) {
          DeletedByGrows(init, [m], id);
        }
      }
    }
  }

  // Processing a run: the log grows by exactly the run, and what stays queued is kept.
  lemma {:induction false} RunKept(c: ChatState, q: map<int, SecretMessage>, n: nat, orig: map<int, SecretMessage>)
    requires n in q && NumberedByKey(q) && NumberedByKey(c.queue)
    requires AllKept(q, orig, c.processed) && AllKept(c.queue, orig, c.processed)
    ensures var d := Process(c, Drain(q, n)).chat;
            d.processed == c.processed + Drain(q, n) && AllKept(d.queue, orig, d.processed)
  {
    var ms := Drain(q, n);
    RunProcessed(c, q, n);
    var d := Process(c, ms).chat;
    ProcessAllFrame(c, ms);
    forall k | k in d.queue ensures k in orig && Kept(d.queue[k], orig[k], d.processed) {
      ProcessAllErases(c, ms, k);
      assert d.queue[k] == ProcessAll(c, ms).chat.queue[k];
      KeptGrows(c.queue[k], orig[k], c.processed, ms);
      if d.queue[k] != c.queue[k] {
        DeletedByGrows(c.processed, ms, c.queue[k].content.value.id);
      }
    }
  }

  // ---- Without hole skipping ----

  // in_seq_no is the least number never accepted, the queue holds exactly the
  // accepted numbers above it, and the log is the first copies 0, 1, 2, ...
  ghost predicate InStep(c: ChatState, copies: map<int, SecretMessage>) {
    && WellFormed(c)
    && NumbersExact(c, copies)
    && AllKept(c.queue, copies, c.processed)
    && |c.processed| == c.inSeq
    && LogExact(c.processed, copies)
  }

  ghost predicate NumbersExact(c: ChatState, copies: map<int, SecretMessage>) {
    && (forall k | 0 <= k < c.inSeq :: k in copies)
    && c.inSeq !in copies
    && (forall k | k in copies :: k >= 0)
    && (forall k :: k in c.queue <==> k in copies && k > c.inSeq)
  }

  ghost predicate LogExact(log: seq<SecretMessage>, copies: map<int, SecretMessage>) {
    forall i | 0 <= i < |log| ::
      i in copies && log[i].rawOut / 2 == i && Kept(log[i], copies[i], log[..i])
  }

  lemma {:induction false} HoleKeepsStep(c: ChatState, copies: map<int, SecretMessage>, m: SecretMessage)
    requires InStep(c, copies) && VerdictOf(c, m) == Hole
    ensures InStep(Receive(c, m).chat, Emplace(copies, m.rawOut / 2, m))
  {
  }

  // The log extended by the run q[n], q[n+1], ... still lists first copies in order.
  lemma {:induction false} LogExtends(log: seq<SecretMessage>, q: map<int, SecretMessage>,
                                      before: map<int, SecretMessage>, orig: map<int, SecretMessage>)
    requires AllKept(q, orig, log) && NumberedByKey(q)
    requires LogExact(log, before)
    requires forall i | 0 <= i < |log| :: i in orig && orig[i] == before[i]
    ensures LogExact(log + Drain(q, |log|), orig)
  {
    var ms := Drain(q, |log|);
    var all := log + ms;
    forall i | 0 <= i < |all|
      ensures i in orig && all[i].rawOut / 2 == i && Kept(all[i], orig[i], all[..i])
    {
      if i < |log| {
        assert all[..i] == log[..i];
      } else {
        assert i in q && all[i] == ms[i - |log|] == q[i];
        assert all[..i] == log + ms[..i - |log|];
        KeptGrows(q[i], orig[i], log, ms[..i - |log|]);
      }
    }
  }

  lemma {:induction false} InOrderKeepsStep(c: ChatState, copies: map<int, SecretMessage>, m: SecretMessage)
    requires InStep(c, copies) && VerdictOf(c, m) == InOrder
    ensures InStep(Receive(c, m).chat, Emplace(copies, m.rawOut / 2, m))
  {
    RunKeepsStep(c, copies, m, Process(AfterDequeue(c, m), Dequeued(c, m)).chat);
  }

  lemma {:induction false} RunKeepsStep(c: ChatState, copies: map<int, SecretMessage>, m: SecretMessage, d: ChatState)
    requires InStep(c, copies) && Numbered(m) && m.rawOut / 2 == c.inSeq
    requires d == Process(AfterDequeue(c, m), Dequeued(c, m)).chat
    ensures InStep(d, copies[c.inSeq := m])
  {
    InOrderNumbers(c, copies, m, d);
    InOrderQueueKept(c, copies, m, d);
    InOrderLog(c, copies, m, d.processed);
  }

  lemma {:induction false} InOrderNumbers(c: ChatState, copies: map<int, SecretMessage>, m: SecretMessage, d: ChatState)
    requires InStep(c, copies) && Numbered(m) && m.rawOut / 2 == c.inSeq
    requires d == Process(AfterDequeue(c, m), Dequeued(c, m)).chat
    ensures WellFormed(d) && NumbersExact(d, copies[c.inSeq := m])
  {
    InOrderAdvances(c, m);
    NumbersAfterRun(c, copies, m, d);
  }

  // The run that m completes, with m in it, is a run of kept first copies.
  lemma {:induction false} DequeueKept(c: ChatState, copies: map<int, SecretMessage>, m: SecretMessage)
    requires InStep(c, copies) && Numbered(m) && m.rawOut / 2 == c.inSeq
    ensures var all := copies[c.inSeq := m];
            var q := Emplace(c.queue, c.inSeq, m);
            NumberedByKey(q) && NumberedByKey(AfterDequeue(c, m).queue)
            && AllKept(q, all, c.processed) && AllKept(AfterDequeue(c, m).queue, all, c.processed)
  {
    var all := copies[c.inSeq := m];
    var q := Emplace(c.queue, c.inSeq, m);
    assert AllKept(q, all, c.processed);
    assert NumberedByKey(q);
  }

  lemma {:induction false} InOrderQueueKept(c: ChatState, copies: map<int, SecretMessage>, m: SecretMessage, d: ChatState)
    requires InStep(c, copies) && Numbered(m) && m.rawOut / 2 == c.inSeq
    requires d == Process(AfterDequeue(c, m), Dequeued(c, m)).chat
    ensures AllKept(d.queue, copies[c.inSeq := m], d.processed)
    ensures d.processed == c.processed + Drain(Emplace(c.queue, c.inSeq, m), |c.processed|)
    ensures |d.processed| == d.inSeq
  {
    var q := Emplace(c.queue, c.inSeq, m);
    DequeueKept(c, copies, m);
    RunProcessed(AfterDequeue(c, m), q, c.inSeq);
    RunKept(AfterDequeue(c, m), q, c.inSeq, copies[c.inSeq := m]);
  }

  lemma {:induction false} InOrderLog(c: ChatState, copies: map<int, SecretMessage>, m: SecretMessage, log: seq<SecretMessage>)
    requires InStep(c, copies) && Numbered(m) && m.rawOut / 2 == c.inSeq
    requires log == c.processed + Drain(Emplace(c.queue, c.inSeq, m), |c.processed|)
    ensures LogExact(log, copies[c.inSeq := m])
  {
    DequeueKept(c, copies, m);
    LogExtends(c.processed, Emplace(c.queue, c.inSeq, m), copies, copies[c.inSeq := m]);
  }

  lemma {:induction false} NumbersAfterRun(c: ChatState, copies: map<int, SecretMessage>, m: SecretMessage, d: ChatState)
    requires InStep(c, copies) && m.rawOut / 2 == c.inSeq
    requires d.inSeq == c.inSeq + RunLength(Emplace(c.queue, m.rawOut / 2, m), c.inSeq)
    requires forall k :: k in d.queue <==> k in c.queue && k > d.inSeq
    ensures NumbersExact(d, copies[c.inSeq := m])
  {
    var q := Emplace(c.queue, m.rawOut / 2, m);
    assert d.inSeq !in q;
    var all := copies[c.inSeq := m];
    forall k | 0 <= k < d.inSeq ensures k in all {
      assert k < c.inSeq || k in q;
    }
  }

  lemma {:induction false} ReceivedExactly(isAdmin: bool, es: seq<Event>)
    requires NumbersOnly(es) && NoSkips(es)
    ensures InStep(After(NewChat(isAdmin), es), Copies(NewChat(isAdmin), es))
  {
    var c0 := NewChat(isAdmin);
    if es == [] {
      assert InStep(c0, map[]);
    } else {
      var init, e := es[..|es| - 1], es[|es| - 1];
      assert e in es && forall x | x in init :: x in es;
      ReceivedExactly(isAdmin, init);
      EventKeepsStep(After(c0, init), Copies(c0, init), e);
    }
  }

  lemma {:induction false} EventKeepsStep(c: ChatState, copies: map<int, SecretMessage>, e: Event)
    requires InStep(c, copies) && !e.SkipTimer?
    requires e.Arrive? ==> !(e.m.rawIn < 0 && e.m.rawOut < 0)
    ensures InStep(Apply(c, e),
                   if e.Arrive? && VerdictOf(c, e.m) in {Hole, InOrder} then Emplace(copies, e.m.rawOut / 2, e.m) else copies)
  {
    if e.Arrive? {
      ArrivalKeepsStep(c, copies, e.m);
    }
  }

  lemma {:induction false} ArrivalKeepsStep(c: ChatState, copies: map<int, SecretMessage>, m: SecretMessage)
    requires InStep(c, copies) && !(m.rawIn < 0 && m.rawOut < 0)
    ensures InStep(Receive(c, m).chat,
                   if VerdictOf(c, m) in {Hole, InOrder} then Emplace(copies, m.rawOut / 2, m) else copies)
  {
    match VerdictOf(c, m) {
      case Hole => HoleKeepsStep(c, copies, m);
      case InOrder => InOrderKeepsStep(c, copies, m);
      case _ =>
    }
  }

  // ---- With the skip timer interleaved ----

  ghost predicate Ascending(c: ChatState) {
    && WellFormed(c)
    && (forall i | 0 <= i < |c.processed| :: 0 <= c.processed[i].rawOut / 2 < c.inSeq)
    && (forall i, j | 0 <= i < j < |c.processed| :: c.processed[i].rawOut / 2 < c.processed[j].rawOut / 2)
  }

  lemma {:induction false} RunAscends(c: ChatState, d: ChatState, q: map<int, SecretMessage>, n: nat)
    requires Ascending(c) && WellFormed(d) && NumberedByKey(q) && n in q
    requires n >= c.inSeq
    requires d.inSeq == n + RunLength(q, n)
    requires d.processed == c.processed + Drain(q, n)
    ensures Ascending(d)
  {
    var ms := Drain(q, n);
    forall i | 0 <= i < |d.processed|
      ensures 0 <= d.processed[i].rawOut / 2 < d.inSeq
      ensures i >= |c.processed| ==> d.processed[i].rawOut / 2 == n + (i - |c.processed|)
      ensures i < |c.processed| ==> d.processed[i] == c.processed[i]
    {
      if i >= |c.processed| {
        var t := i - |c.processed|;
        assert n + t in q && d.processed[i] == ms[t] == q[n + t];
      }
    }
  }

  lemma {:induction false} ArrivalAscends(c: ChatState, m: SecretMessage)
    requires Ascending(c) && !(m.rawIn < 0 && m.rawOut < 0)
    ensures Ascending(Receive(c, m).chat)
  {
    if VerdictOf(c, m) == InOrder {
      InOrderAdvances(c, m);
      RunAscends(c, Receive(c, m).chat, Emplace(c.queue, m.rawOut / 2, m), c.inSeq);
    } else {
      ReceiveWellFormed(c, m);
    }
  }

  lemma {:induction false} SkipAscends(c: ChatState)
    requires Ascending(c)
    ensures Ascending(SkipHole(c).chat)
  {
    SkipHoleWellFormed(c);
    if c.queue != map[] {
      RunAscends(c, SkipHole(c).chat, c.queue, Least(c.queue.Keys));
    }
  }

  lemma {:induction false} NumbersStrictlyIncrease(isAdmin: bool, es: seq<Event>)
    requires NumbersOnly(es)
    ensures Ascending(After(NewChat(isAdmin), es))
  {
    if es != [] {
      var init, e := es[..|es| - 1], es[|es| - 1];
      assert e in es && forall x | x in init :: x in es;
      NumbersStrictlyIncrease(isAdmin, init);
      var c := After(NewChat(isAdmin), init);
      match e {
        case Arrive(m) => ArrivalAscends(c, m);
        case SkipTimer => SkipAscends(c);
        case SendNew(x) =>
      }
    }
  }

  // ---- Holes ----

  // first_hole is the longest stretch of missing numbers that starts at in_seq_no.
  lemma {:induction false} FirstHoleIsMaximal(c: ChatState)
    requires WellFormed(c)
    ensures var (start, end) := FirstHole(c);
            if c.queue == map[] then start == -1 && end == -1
            else start == c.inSeq && start <= end && end + 1 in c.queue
                 && forall k | start <= k <= end :: k !in c.queue
  {
  }

  // Where the stretches of queued numbers begin; one hole lies before each.
  function Starts(c: ChatState): set<int> {
    set k | k in c.queue && BeginsRun(c.queue, k)
  }

  predicate BeginsRun(q: map<int, SecretMessage>, k: int) {
    k - 1 !in q
  }

  // Once every number of the first hole has been accepted, in whatever order and
  // with whatever repetitions, exactly one hole fewer is left.
  lemma {:induction false} FillingRemovesOneHole(c: ChatState, copies: map<int, SecretMessage>,
                                                 d: ChatState, copies': map<int, SecretMessage>)
    requires InStep(c, copies) && InStep(d, copies')
    requires c.queue != map[]
    requires forall k :: k in copies' <==> k in copies || FirstHole(c).0 <= k <= FirstHole(c).1
    ensures Starts(d) == Starts(c) - {FirstHole(c).1 + 1}
    ensures FirstHole(c).1 + 1 in Starts(c)
    ensures |Starts(d)| == |Starts(c)| - 1
  {
    var first := FirstHole(c).1 + 1;
    FirstHoleIsMaximal(c);
    assert first in c.queue && first - 1 !in c.queue;
    assert (forall k | 0 <= k <= first :: k in copies') && d.inSeq !in copies';
    assert d.inSeq > first;
    hide AllKept, LogExact, WellFormed;
    forall k ensures k in Starts(d) <==> k in Starts(c) && k != first {
      if k in Starts(d) {
        LaterStart(d, copies', k);
      }
      if k in Starts(c) && k != first {
        LaterStart(c, copies, k);
      }
    }
  }

  // A stretch of queued numbers begins above in_seq_no, behind a number never received.
  lemma LaterStart(c: ChatState, copies: map<int, SecretMessage>, k: int)
    requires NumbersExact(c, copies) && k in Starts(c)
    ensures k in copies && k > c.inSeq && k - 1 !in copies
  {
  }

  // A peer's log that this chat accepts: message k carries number k.
  ghost predicate Supplies(c: ChatState, sent: seq<SecretMessage>) {
    forall k | 0 <= k < |sent| ::
      && sent[k].content.Some? && Numbered(sent[k])
      && sent[k].rawOut == 2 * k + (if c.isAdmin then 0 else 1)
      && sent[k].rawIn % 2 == (if c.isAdmin then 1 else 0)
      && sent[k].rawIn / 2 <= c.outSeq
  }

  function Number(e: Event): int { if e.Arrive? then e.m.rawOut / 2 else -1 }

  ghost predicate Covers(es: seq<Event>, k: int) { exists e :: e in es && Number(e) == k }

  // Arrivals from the peer's log that cover the first hole, in any order and
  // with any repetitions, and reach no further.
  ghost predicate FillsFirstHole(c: ChatState, sent: seq<SecretMessage>, fill: seq<Event>) {
    && c.queue != map[]
    && (forall e | e in fill :: e.Arrive? && 0 <= Number(e) <= FirstHole(c).1 && Number(e) < |sent| && e.m == sent[Number(e)])
    && (forall k | FirstHole(c).0 <= k <= FirstHole(c).1 :: Covers(fill, k))
  }

  // The receiver's role and out_seq_no are untouched by arrivals.
  lemma {:induction false} ProcessFrame(c: ChatState, ms: seq<SecretMessage>)
    ensures var d := Process(c, ms).chat; d.isAdmin == c.isAdmin && d.outSeq == c.outSeq
  {
    ProcessAllFrame(c, ms);
  }

  lemma {:induction false} ReceiveFrame(c: ChatState, m: SecretMessage)
    ensures var d := Receive(c, m).chat; d.isAdmin == c.isAdmin && d.outSeq == c.outSeq
  {
    ProcessFrame(AfterDequeue(c, m), Dequeued(c, m));
    ProcessFrame(c, [m]);
  }

  // Every arrival from an acceptable log is accepted or was accepted before.
  lemma {:induction false} ArrivalsAccepted(c: ChatState, copies: map<int, SecretMessage>, sent: seq<SecretMessage>, es: seq<Event>)
      returns (copies': map<int, SecretMessage>)
    requires InStep(c, copies) && Supplies(c, sent)
    requires forall e | e in es :: e.Arrive? && 0 <= Number(e) < |sent| && e.m == sent[Number(e)]
    ensures InStep(After(c, es), copies') && Supplies(After(c, es), sent)
    ensures After(c, es).isAdmin == c.isAdmin && After(c, es).outSeq == c.outSeq
    ensures forall k :: k in copies' <==> k in copies || Covers(es, k)
  {
    copies' := copies;
    if es != [] {
      var init, last := es[..|es| - 1], es[|es| - 1];
      assert forall e :: e in es <==> e in init || e == last;
      assert forall k :: Covers(es, k) <==> Covers(init, k) || k == Number(last);
      copies' := ArrivalsAccepted(c, copies, sent, init);
      var mid := After(c, init);
      ReceiveFrame(mid, last.m);
      assert VerdictOf(mid, last.m) in {Hole, InOrder, Duplicate};
      if VerdictOf(mid, last.m) == Hole {
        HoleKeepsStep(mid, copies', last.m);
        copies' := Emplace(copies', Number(last), last.m);
      } else if VerdictOf(mid, last.m) == InOrder {
        InOrderKeepsStep(mid, copies', last.m);
        copies' := Emplace(copies', Number(last), last.m);
      }
    }
  }

  function AfterRounds(c: ChatState, fills: seq<seq<Event>>): ChatState
    decreases |fills|
  {
    if fills == [] then c else AfterRounds(After(c, fills[0]), fills[1..])
  }

  ghost predicate FillsInTurn(c: ChatState, sent: seq<SecretMessage>, fills: seq<seq<Event>>)
    decreases |fills|
  {
    fills == [] || (FillsFirstHole(c, sent, fills[0]) && FillsInTurn(After(c, fills[0]), sent, fills[1..]))
  }

  // Filling first holes one after another takes exactly one round per hole, and
  // the queue is empty precisely when as many rounds have passed as there were holes.
  lemma {:induction false} RoundsEmptyTheQueue(c: ChatState, copies: map<int, SecretMessage>, sent: seq<SecretMessage>, fills: seq<seq<Event>>)
    requires InStep(c, copies) && Supplies(c, sent)
    requires FillsInTurn(c, sent, fills)
    ensures |fills| <= |Starts(c)|
    ensures |Starts(AfterRounds(c, fills))| == |Starts(c)| - |fills|
    ensures AfterRounds(c, fills).queue == map[] <==> |fills| == |Starts(c)|
    decreases |fills|
  {
    if fills == [] {
      NoHoleNoQueue(c);
    } else {
      var copies' := ArrivalsAccepted(c, copies, sent, fills[0]);
      FirstHoleIsMaximal(c);
      forall k ensures k in copies' <==> k in copies || FirstHole(c).0 <= k <= FirstHole(c).1 {
        if 0 <= k < c.inSeq {
          assert k in copies;
        }
      }
      FillingRemovesOneHole(c, copies, After(c, fills[0]), copies');
      RoundsEmptyTheQueue(After(c, fills[0]), copies', sent, fills[1..]);
    }
  }

  // Such rounds there are: each first hole can be filled from the log, one message after
  // the other.
  lemma {:induction false} RoundsExist(c: ChatState, copies: map<int, SecretMessage>, sent: seq<SecretMessage>) returns (fills: seq<seq<Event>>)
    requires InStep(c, copies) && Supplies(c, sent) && forall k | k in c.queue :: k < |sent|
    ensures FillsInTurn(c, sent, fills) && |fills| == |Starts(c)|
    ensures forall f, e | f in fills && e in f :: e.Arrive? && c.inSeq <= Number(e) < |sent| && e.m == sent[Number(e)]
    decreases |Starts(c)|
  {
    if c.queue == map[] {
      NoHoleNoQueue(c);
      fills := [];
    } else {
      var fill := Answer(c, sent);
      AnswerFills(c, sent);
      var copies' := ArrivalsAccepted(c, copies, sent, fill);
      FirstHoleIsMaximal(c);
      forall k ensures k in copies' <==> k in copies || FirstHole(c).0 <= k <= FirstHole(c).1 {
        if 0 <= k < c.inSeq {
          assert k in copies;
        }
      }
      FillingRemovesOneHole(c, copies, After(c, fill), copies');
      var rest := RoundsExist(After(c, fill), copies', sent);
      fills := [fill] + rest;
    }
  }

  // What the peer answers to a request for the first hole.
  function Answer(c: ChatState, sent: seq<SecretMessage>): seq<Event>
    requires WellFormed(c) && c.queue != map[] && forall k | k in c.queue :: k < |sent|
  {
    FirstHoleIsMaximal(c);
    var (start, end) := FirstHole(c);
    seq(end - start + 1, i requires 0 <= i < end - start + 1 => Arrive(sent[start + i]))
  }

  lemma {:induction false} AnswerFills(c: ChatState, sent: seq<SecretMessage>)
    requires WellFormed(c) && Supplies(c, sent) && c.queue != map[] && forall k | k in c.queue :: k < |sent|
    ensures FillsFirstHole(c, sent, Answer(c, sent))
    ensures forall e | e in Answer(c, sent) :: c.inSeq <= Number(e)
  {
    FirstHoleIsMaximal(c);
    var (start, fill) := (FirstHole(c).0, Answer(c, sent));
    forall k | start <= k <= FirstHole(c).1 ensures Covers(fill, k) {
      assert fill[k - start] == Arrive(sent[k]) && Number(fill[k - start]) == k;
    }
  }

  lemma {:induction false} NoHoleNoQueue(c: ChatState)
    ensures c.queue == map[] <==> Starts(c) == {}
  {
    if c.queue != map[] {
      var first := Least(c.queue.Keys);
      assert first in Starts(c);
    }
  }

  // ---- The two outgoing maps and the store ----

  // The maps are inverse to each other and list exactly the stored messages.
  ghost predicate MapsAgree(c: ChatState) {
    && c.outIds.Keys == c.store.Keys
    && (forall n | n in c.outIds :: n < c.outSeq && c.outIds[n] in c.outSeqs && c.outSeqs[c.outIds[n]] == n)
    && (forall id | id in c.outSeqs :: c.outSeqs[id] in c.outIds && c.outIds[c.outSeqs[id]] == id)
  }

  lemma {:induction false} TrimAgrees(c: ChatState, peerIn: int)
    requires MapsAgree(c)
    ensures MapsAgree(Trim(c, peerIn))
  {
    var d := Trim(c, peerIn);
    forall id | id in d.outSeqs ensures d.outSeqs[id] in d.outIds && d.outIds[d.outSeqs[id]] == id {
      var n := c.outSeqs[id];
      assert n < peerIn ==> id in IdsOf(c.outIds, Below(c.outIds, peerIn));
    }
    forall n | n in d.outIds
      ensures n < d.outSeq && d.outIds[n] in d.outSeqs && d.outSeqs[d.outIds[n]] == n
    {
      assert c.outSeqs[c.outIds[n]] == n >= peerIn;
    }
  }

  lemma {:induction false} ProcessAgrees(c: ChatState, ms: seq<SecretMessage>)
    requires MapsAgree(c)
    ensures MapsAgree(Process(c, ms).chat)
  {
    if ms != [] {
      ProcessAllFrame(c, ms);
      var done := ProcessAll(c, ms).chat;
      var back := ms[|ms| - 1];
      if Numbered(back) {
        TrimAgrees(done.(processed := done.processed + ms, inSeq := back.rawOut / 2 + 1), back.rawIn / 2);
      }
    }
  }

  lemma {:induction false} OutgoingMapsAgree(isAdmin: bool, es: seq<Event>)
    ensures MapsAgree(After(NewChat(isAdmin), es))
  {
    if es != [] {
      OutgoingMapsAgree(isAdmin, es[..|es| - 1]);
      EventAgrees(After(NewChat(isAdmin), es[..|es| - 1]), es[|es| - 1]);
    }
  }

  lemma {:induction false} EventAgrees(c: ChatState, e: Event)
    requires MapsAgree(c)
    ensures MapsAgree(Apply(c, e))
  {
    match e {
      case Arrive(m) =>
        ProcessAgrees(AfterDequeue(c, m), Dequeued(c, m));
        ProcessAgrees(c, [m]);
      case SendNew(x) =>
      case SkipTimer =>
        if c.queue != map[] {
          ProcessAgrees(c, Drain(c.queue, Least(c.queue.Keys)));
        }
    }
  }

  // So content goes out under its first number for as long as it is unconfirmed.
  lemma {:induction false} SameIdSameNumber(isAdmin: bool, es: seq<Event>, x: Content)
    ensures var c := After(NewChat(isAdmin), es);
            if x.id in c.outSeqs then Send(c, x).chat == c && Send(c, x).resent == [c.store[c.outSeqs[x.id]]]
            else Send(c, x).chat.outSeq == c.outSeq + 1
  {
    OutgoingMapsAgree(isAdmin, es);
  }

  // ---- What the user sees ----

  function Plains(log: seq<SecretMessage>): seq<Content> {
    if log == [] then []
    else
      var m := log[|log| - 1];
      Plains(log[..|log| - 1]) +
      (if m.content.Some? && m.content.value.action.Plain? then [m.content.value] else [])
  }

  lemma {:induction false} PlainsConcat(xs: seq<SecretMessage>, ys: seq<SecretMessage>)
    ensures Plains(xs + ys) == Plains(xs) + Plains(ys)
  {
    if ys == [] {
      assert xs + ys == xs;
    } else {
      PlainsConcat(xs, ys[..|ys| - 1]);
      assert (xs + ys)[..|xs + ys| - 1] == xs + ys[..|ys| - 1];
    }
  }

  lemma {:induction false} ProcessDelivers(c: ChatState, ms: seq<SecretMessage>)
    requires c.delivered == Plains(c.processed)
    ensures var d := Process(c, ms).chat; d.delivered == Plains(d.processed)
  {
    hide ProcessAll, Plains;
    if ms != [] {
      ProcessAllDelivers(c, ms);
      ProcessAllFrame(c, ms);
      PlainsConcat(c.processed, ms);
    }
  }

  lemma {:induction false} ProcessAllDelivers(c: ChatState, ms: seq<SecretMessage>)
    ensures ProcessAll(c, ms).chat.delivered == c.delivered + Plains(ms)
  {
    if ms != [] {
      ProcessAllDelivers(c, ms[..|ms| - 1]);
    }
  }

  // The user gets exactly the plain messages of the log, in the order of the log.
  lemma {:induction false} DeliveredInLogOrder(isAdmin: bool, es: seq<Event>)
    ensures var c := After(NewChat(isAdmin), es); c.delivered == Plains(c.processed)
  {
    if es != [] {
      DeliveredInLogOrder(isAdmin, es[..|es| - 1]);
      EventDelivers(After(NewChat(isAdmin), es[..|es| - 1]), es[|es| - 1]);
    }
  }

  lemma {:induction false} EventDelivers(c: ChatState, e: Event)
    requires c.delivered == Plains(c.processed)
    ensures Apply(c, e).delivered == Plains(Apply(c, e).processed)
  {
    hide Process, Plains, Drain;
    match e {
      case Arrive(m) =>
        ProcessDelivers(AfterDequeue(c, m), Dequeued(c, m));
        ProcessDelivers(c, [m]);
      case SendNew(x) =>
      case SkipTimer =>
        if c.queue != map[] {
          ProcessDelivers(c, Drain(c.queue, Least(c.queue.Keys)));
        }
    }
  }
}
