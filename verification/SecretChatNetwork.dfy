/** Two secret-chat peers over a network that drops, repeats and reorders
    (src/secret_chat.cpp, src/query/query_messages_send_encrypted_base.cpp). */
module SecretChatNetwork {
  import opened Wrappers
  import opened SecretChat
  import opened SecretChatHistory

  // Two chats, what is in flight towards each, and the log of what each stamped.
  datatype World = World(a: ChatState, b: ChatState,
                         toA: set<SecretMessage>, toB: set<SecretMessage>,
                         sentA: seq<SecretMessage>, sentB: seq<SecretMessage>)

  function Swap(w: World): World { World(w.b, w.a, w.toB, w.toA, w.sentB, w.sentA) }

  function Start(): World { World(NewChat(true), NewChat(false), {}, {}, [], []) }

  function Wire(ms: seq<SecretMessage>): set<SecretMessage> { set m | m in ms }

  // Peer a sends content; a fresh number is logged only when one was used.
  function Sends(w: World, x: Content): World {
    var o := Send(w.a, x);
    w.(a := o.chat, toB := w.toB + Wire(o.resent),
       sentA := if o.chat.outSeq == w.a.outSeq then w.sentA else w.sentA + o.resent)
  }

  function Delivers(w: World, m: SecretMessage, keep: bool): World {
    var o := Receive(w.a, m);
    w.(a := o.chat, toA := if keep then w.toA else w.toA - {m}, toB := w.toB + Wire(o.resent))
  }

  function Skips(w: World): World {
    var o := SkipHole(w.a);
    w.(a := o.chat, toB := w.toB + Wire(o.resent))
  }

  function HoleRequest(c: ChatState, id: int): Content {
    Content(id, Resend(FirstHole(c).0, FirstHole(c).1), "")
  }

  // One step of peer a, or of the network towards it.
  ghost predicate StepA(w: World, w': World, skipping: bool) {
    || (exists x: Content :: !x.action.Resend? && w' == Sends(w, x))
    || (exists id: int :: w.a.queue != map[] && w' == Sends(w, HoleRequest(w.a, id)))
    || (exists m: SecretMessage, keep: bool :: m in w.toA && w' == Delivers(w, m, keep))
    || (exists m: SecretMessage :: w' == w.(toA := w.toA - {m}))
    || (skipping && w' == Skips(w))
  }

  ghost predicate Step(w: World, w': World, skipping: bool) {
    StepA(w, w', skipping) || StepA(Swap(w), Swap(w'), skipping)
  }

  ghost predicate IsRun(ws: seq<World>, skipping: bool) {
    && |ws| > 0 && ws[0] == Start()
    && forall i | 0 <= i < |ws| - 1 :: StepAt(ws, i, skipping)
  }

  ghost predicate StepAt(ws: seq<World>, i: nat, skipping: bool)
    requires i < |ws| - 1
  {
    Step(ws[i], ws[i + 1], skipping)
  }

  // ---- What links a sender to the peer that receives from it ----

  // The log of s: message i carries number i and a true in_seq_no of s.
  ghost predicate TrueLog(s: ChatState, sent: seq<SecretMessage>) {
    && |sent| == s.outSeq
    && forall i | 0 <= i < |sent| ::
         && sent[i].content.Some?
         && sent[i].rawOut == 2 * i + (if s.isAdmin then 1 else 0)
         && sent[i].rawIn % 2 == (if s.isAdmin then 0 else 1)
         && 0 <= sent[i].rawIn / 2 <= s.inSeq
  }

  ghost predicate Logged(m: SecretMessage, sent: seq<SecretMessage>) {
    0 <= m.rawOut / 2 < |sent| && sent[m.rawOut / 2] == m
  }

  ghost function AsMap(sent: seq<SecretMessage>): map<int, SecretMessage> {
    map i: int | 0 <= i < |sent| :: sent[i]
  }

  // Everything from the receiver's in_seq_no on can still be sent again.
  ghost predicate Resendable(s: ChatState, r: ChatState, sent: seq<SecretMessage>) {
    && (forall n | r.inSeq <= n < s.outSeq :: n in s.store)
    && (forall n | n in s.store :: 0 <= n < |sent| && s.store[n] == sent[n])
  }

  ghost predicate ProcessedKept(r: ChatState, sent: seq<SecretMessage>) {
    forall i | 0 <= i < |r.processed| ::
      var n := r.processed[i].rawOut / 2;
      0 <= n < |sent| && Kept(r.processed[i], sent[n], r.processed[..i])
  }

  // Requests of s for its missing numbers never ask beyond what r has sent.
  ghost predicate RequestsInRange(r: ChatState, sent: seq<SecretMessage>) {
    forall i | 0 <= i < |sent| && sent[i].content.Some? && sent[i].content.value.action.Resend? ::
      0 <= sent[i].content.value.action.first <= sent[i].content.value.action.last < r.outSeq
  }

  ghost predicate Link(s: ChatState, r: ChatState, sent: seq<SecretMessage>, flight: set<SecretMessage>) {
    && s.isAdmin != r.isAdmin
    && TrueLog(s, sent)
    && r.inSeq <= s.outSeq
    && (forall m | m in flight :: Logged(m, sent))
    && Ascending(r)
    && AllKept(r.queue, AsMap(sent), r.processed)
    && ProcessedKept(r, sent)
    && Resendable(s, r, sent)
    && RequestsInRange(r, sent)
  }

  ghost predicate Inv(w: World) {
    Link(w.a, w.b, w.sentA, w.toB) && Link(w.b, w.a, w.sentB, w.toA)
  }

  // ---- Steps keep the links ----

  lemma {:induction false} SendsKeep(w: World, x: Content)
    requires Inv(w)
    requires x.action.Resend? ==> 0 <= x.action.first <= x.action.last < w.b.outSeq
    ensures Inv(Sends(w, x))
  {
    if Send(w.a, x).chat.outSeq == w.a.outSeq {
      var m := w.a.store[w.a.outSeqs[x.id]];
      assert Send(w.a, x).resent == [m] && Wire([m]) == {m};
      assert w.sentA[w.a.outSeqs[x.id]] == m;
      assert Logged(m, w.sentA);
    } else {
      NewMessageForward(w, x);
      NewMessageBack(w, x);
    }
  }

  lemma {:induction false} NewMessageForward(w: World, x: Content)
    requires Inv(w) && Send(w.a, x).chat.outSeq != w.a.outSeq
    requires x.action.Resend? ==> 0 <= x.action.first <= x.action.last < w.b.outSeq
    ensures var w' := Sends(w, x); Link(w'.a, w'.b, w'.sentA, w'.toB)
  {
    var m := Stamped(w.a, x);
    SentGrows(w.b, w.sentA, m);
    NewMessageLogged(w.a, w.b, w.sentA, w.toB, x);
    assert Sends(w, x).sentA == w.sentA + [m];
    assert Sends(w, x).toB == w.toB + {m} by { assert Wire([m]) == {m}; }
  }

  lemma {:induction false} NewMessageLogged(s: ChatState, r: ChatState, sent: seq<SecretMessage>,
                                            flight: set<SecretMessage>, x: Content)
    requires Link(s, r, sent, flight) && Send(s, x).chat.outSeq != s.outSeq
    requires x.action.Resend? ==> 0 <= x.action.first <= x.action.last < r.outSeq
    ensures var s' := Send(s, x).chat;
            var sent' := sent + [Stamped(s, x)];
            TrueLog(s', sent') && Resendable(s', r, sent') && RequestsInRange(r, sent')
            && forall k | k in flight + {Stamped(s, x)} :: Logged(k, sent')
  {
    var m := Stamped(s, x);
    var sent' := sent + [m];
    assert Logged(m, sent');
    forall k | k in flight ensures Logged(k, sent') { assert Logged(k, sent); }
  }

  lemma {:induction false} NewMessageBack(w: World, x: Content)
    requires Inv(w)
    ensures var w' := Sends(w, x); Link(w'.b, w'.a, w'.sentB, w'.toA)
  {
  }

  lemma {:induction false} SentGrows(r: ChatState, sent: seq<SecretMessage>, m: SecretMessage)
    requires AllKept(r.queue, AsMap(sent), r.processed) && ProcessedKept(r, sent)
    ensures AllKept(r.queue, AsMap(sent + [m]), r.processed) && ProcessedKept(r, sent + [m])
  {
    assert forall i | 0 <= i < |sent| :: (sent + [m])[i] == sent[i];
  }

  ghost predicate FromStore(ms: seq<SecretMessage>, store: map<int, SecretMessage>) {
    forall m | m in ms :: exists k :: k in store && store[k] == m
  }

  lemma {:induction false} StoredRangeFromStore(store: map<int, SecretMessage>, first: int, last: int)
    ensures FromStore(StoredRange(store, first, last), store)
    decreases last - first
  {
    if first <= last {
      StoredRangeFromStore(store, first, last - 1);
    }
  }

  lemma {:induction false} ProcessAllResends(c: ChatState, ms: seq<SecretMessage>)
    ensures FromStore(ProcessAll(c, ms).resent, c.store)
  {
    if ms != [] {
      ProcessAllResends(c, ms[..|ms| - 1]);
      ProcessAllFrame(c, ms[..|ms| - 1]);
      var m := ms[|ms| - 1];
      if m.content.Some? && m.content.value.action.Resend? {
        StoredRangeFromStore(c.store, m.content.value.action.first, m.content.value.action.last);
      }
    }
  }

  // Processing trims the outgoing store by the last message's in_seq_no only.
  lemma {:induction false} ProcessOutgoing(c: ChatState, ms: seq<SecretMessage>)
    requires ms != []
    ensures var o := Process(c, ms);
            var peerIn := ms[|ms| - 1].rawIn / 2;
            FromStore(o.resent, c.store)
            && o.chat.isAdmin == c.isAdmin && o.chat.outSeq == c.outSeq
            && (forall n | n in o.chat.store :: n in c.store && o.chat.store[n] == c.store[n])
            && (forall n | n in c.store && n >= peerIn :: n in o.chat.store)
  {
    ProcessAllFrame(c, ms);
    ProcessAllResends(c, ms);
  }

  ghost predicate Batch(c: ChatState, mid: ChatState, q: map<int, SecretMessage>, n: nat, sent: seq<SecretMessage>) {
    && Ascending(c) && n >= c.inSeq && n in q
    && NumberedByKey(q) && NumberedByKey(mid.queue)
    && mid == c.(queue := mid.queue)
    && AllKept(q, AsMap(sent), c.processed) && AllKept(mid.queue, AsMap(sent), c.processed)
    && ProcessedKept(c, sent)
  }

  lemma {:induction false} BatchLog(c: ChatState, mid: ChatState, q: map<int, SecretMessage>, n: nat, sent: seq<SecretMessage>)
    requires Batch(c, mid, q, n, sent)
    ensures var d := Process(mid, Drain(q, n)).chat;
            AllKept(d.queue, AsMap(sent), d.processed) && ProcessedKept(d, sent)
            && d.inSeq == n + RunLength(q, n) <= |sent|
  {
    var ms := Drain(q, n);
    var d := Process(mid, ms).chat;
    RunProcessed(mid, q, n);
    RunKept(mid, q, n, AsMap(sent));
    assert n + |ms| - 1 in q;
    forall i | 0 <= i < |d.processed|
      ensures var k := d.processed[i].rawOut / 2;
              0 <= k < |sent| && Kept(d.processed[i], sent[k], d.processed[..i])
    {
      if i < |c.processed| {
        assert d.processed[..i] == c.processed[..i];
      } else {
        var t := i - |c.processed|;
        assert n + t in q && d.processed[i] == ms[t] == q[n + t];
        assert d.processed[..i] == c.processed + ms[..t];
        KeptGrows(q[n + t], sent[n + t], c.processed, ms[..t]);
      }
    }
  }

  lemma {:induction false} BatchOutgoing(c: ChatState, mid: ChatState, q: map<int, SecretMessage>, n: nat,
                                         peer: ChatState, sent: seq<SecretMessage>, mine: seq<SecretMessage>)
    requires Batch(c, mid, q, n, sent)
    requires TrueLog(peer, sent)
    requires Resendable(c, peer, mine)
    ensures var o := Process(mid, Drain(q, n));
            Resendable(o.chat, peer, mine) && FromStore(o.resent, c.store)
            && o.chat.isAdmin == c.isAdmin && o.chat.outSeq == c.outSeq
  {
    var ms := Drain(q, n);
    var last := n + |ms| - 1;
    assert n + RunLength(q, n) !in q;
    assert last in q && ms[|ms| - 1] == q[last];
    assert Kept(q[last], sent[last], c.processed);
    ProcessOutgoing(mid, ms);
  }

  // Copies taken from the store of a peer are entries of its log.
  lemma {:induction false} StoreIsLogged(s: ChatState, r: ChatState, sent: seq<SecretMessage>, ms: seq<SecretMessage>)
    requires TrueLog(s, sent) && Resendable(s, r, sent) && FromStore(ms, s.store)
    ensures forall m | m in Wire(ms) :: Logged(m, sent)
  {
    forall m | m in Wire(ms) ensures Logged(m, sent) {
      var k :| k in s.store && s.store[k] == m;
      assert sent[k] == m;
    }
  }

  // A message from the log of an honest peer is never turned away as forged or
  // impossible: it is a repeat, waits behind a hole, or is next in order.
  lemma {:induction false} HonestNeverRejected(w: World, m: SecretMessage)
    requires Inv(w) && m in w.toA
    ensures VerdictOf(w.a, m) in {Duplicate, Hole, InOrder}
  {
    assert Logged(m, w.sentB);
  }

  lemma {:induction false} DeliversKeep(w: World, m: SecretMessage, keep: bool)
    requires Inv(w) && m in w.toA
    ensures Inv(Delivers(w, m, keep))
  {
    HonestNeverRejected(w, m);
    assert Logged(m, w.sentB);
    var o := Receive(w.a, m);
    match VerdictOf(w.a, m) {
      case Duplicate => assert Wire([]) == {};
      case Hole =>
        ReceiveWellFormed(w.a, m);
        HoleResends(w.a, m);
        StoreIsLogged(w.a, w.b, w.sentA, o.resent);
        assert Kept(QueuedForm(m), w.sentB[m.rawOut / 2], w.a.processed);
      case InOrder => InOrderKeeps(w, m, keep);
    }
  }

  lemma {:induction false} InOrderKeeps(w: World, m: SecretMessage, keep: bool)
    requires Inv(w) && m in w.toA && VerdictOf(w.a, m) == InOrder
    ensures Inv(Delivers(w, m, keep))
  {
    assert Logged(m, w.sentB);
    InOrderBatch(w.a, m, w.sentB);
    ArrivalAscends(w.a, m);
    var q, mid := Emplace(w.a.queue, m.rawOut / 2, m), AfterDequeue(w.a, m);
    BatchKeeps(w, mid, q, w.a.inSeq, Delivers(w, m, keep));
  }

  // A batch processed by a leaves both links intact.
  lemma {:induction false} BatchKeeps(w: World, mid: ChatState, q: map<int, SecretMessage>, n: nat, w': World)
    requires Inv(w) && Batch(w.a, mid, q, n, w.sentB) && Ascending(w'.a)
    requires var o := Process(mid, Drain(q, n));
             && w' == w.(a := w'.a, toA := w'.toA, toB := w.toB + Wire(o.resent))
             && w'.a == o.chat.(queue := w'.a.queue) && Submap(w'.a.queue, o.chat.queue)
             && w'.toA <= w.toA
    ensures Inv(w')
  {
    BatchLog(w.a, mid, q, n, w.sentB);
    BatchOutgoing(w.a, mid, q, n, w.b, w.sentB, w.sentA);
    StoreIsLogged(w.a, w.b, w.sentA, Process(mid, Drain(q, n)).resent);
  }

  ghost predicate Submap(q: map<int, SecretMessage>, q': map<int, SecretMessage>) {
    forall k | k in q :: k in q' && q[k] == q'[k]
  }

  lemma {:induction false} InOrderBatch(c: ChatState, m: SecretMessage, sent: seq<SecretMessage>)
    requires Ascending(c) && AllKept(c.queue, AsMap(sent), c.processed) && ProcessedKept(c, sent)
    requires Logged(m, sent) && Numbered(m) && m.rawOut / 2 == c.inSeq
    ensures Batch(c, AfterDequeue(c, m), Emplace(c.queue, m.rawOut / 2, m), c.inSeq, sent)
  {
    assert Kept(m, sent[c.inSeq], c.processed);
  }

  lemma {:induction false} HoleResends(c: ChatState, m: SecretMessage)
    requires VerdictOf(c, m) == Hole
    ensures FromStore(Receive(c, m).resent, c.store)
  {
    if m.content.value.action.Resend? {
      StoredRangeFromStore(c.store, m.content.value.action.first, m.content.value.action.last);
    }
  }

  lemma {:induction false} SkipsKeep(w: World)
    requires Inv(w)
    ensures Inv(Skips(w))
  {
    var o := SkipHole(w.a);
    if w.a.queue == map[] {
      assert Wire([]) == {};
    } else {
      var first := Least(w.a.queue.Keys);
      SkipHoleWellFormed(w.a);
      RunAscends(w.a, o.chat, w.a.queue, first);
      BatchKeeps(w, w.a, w.a.queue, first, Skips(w));
    }
  }

  // The range a peer can ask for lies within what the other has sent.
  lemma {:induction false} RequestInRange(w: World)
    requires Inv(w) && w.a.queue != map[]
    ensures 0 <= FirstHole(w.a).0 <= FirstHole(w.a).1 < w.b.outSeq
  {
    FirstHoleIsMaximal(w.a);
    assert FirstHole(w.a).1 + 1 in AsMap(w.sentB);
  }

  lemma {:induction false} StepAKeeps(w: World, w': World, skipping: bool)
    requires Inv(w) && StepA(w, w', skipping)
    ensures Inv(w')
  {
    if x: Content :| !x.action.Resend? && w' == Sends(w, x) {
      SendsKeep(w, x);
    } else if id: int :| w.a.queue != map[] && w' == Sends(w, HoleRequest(w.a, id)) {
      RequestInRange(w);
      SendsKeep(w, HoleRequest(w.a, id));
    } else if m: SecretMessage, keep: bool :| m in w.toA && w' == Delivers(w, m, keep) {
      DeliversKeep(w, m, keep);
    } else if w' == Skips(w) {
      SkipsKeep(w);
    }
  }

  lemma {:induction false} RunInv(ws: seq<World>, skipping: bool, i: nat)
    requires IsRun(ws, skipping) && i < |ws|
    ensures Inv(ws[i])
  {
    hide Inv, Step, Start;
    if i > 0 {
      RunInv(ws, skipping, i - 1);
      assert StepAt(ws, i - 1, skipping);
      StepKeeps(ws[i - 1], ws[i], skipping);
    } else {
      StartInv();
    }
  }

  lemma StartInv()
    ensures Inv(Start())
  {
  }

  lemma {:induction false} StepKeeps(w: World, w': World, skipping: bool)
    requires Inv(w) && Step(w, w', skipping)
    ensures Inv(w')
  {
    InvSwaps(w);
    InvSwaps(w');
    hide Inv;
    if StepA(w, w', skipping) {
      StepAKeeps(w, w', skipping);
    } else {
      StepAKeeps(Swap(w), Swap(w'), skipping);
    }
  }

  lemma InvSwaps(w: World)
    ensures Inv(Swap(w)) <==> Inv(w)
  {
  }

  // ---- Results over every run ----

  // Every number a peer may still miss is in the other's store, unaltered; so a
  // request for its first hole is answered with exactly the missing messages.
  lemma {:induction false} HolesStayResendable(ws: seq<World>, skipping: bool, i: nat)
    requires IsRun(ws, skipping) && i < |ws|
    ensures HolesAnswered(ws[i]) && HolesAnswered(Swap(ws[i]))
  {
    RunInv(ws, skipping, i);
    HoleAnswer(ws[i]);
    HoleAnswer(Swap(ws[i]));
  }

  ghost predicate HolesAnswered(w: World) {
    && |w.sentB| == w.b.outSeq
    && (forall n | w.a.inSeq <= n < w.b.outSeq :: n in w.b.store && w.b.store[n] == w.sentB[n])
    && (w.a.queue != map[] ==>
          var (start, end) := FirstHole(w.a);
          0 <= start <= end < |w.sentB| && Resent(w.b.store, start, end) == w.sentB[start..end + 1])
  }

  lemma {:induction false} HoleAnswer(w: World)
    requires Inv(w)
    ensures HolesAnswered(w)
  {
    if w.a.queue != map[] {
      var (start, end) := FirstHole(w.a);
      RequestInRange(w);
      StoredSlice(w.b.store, w.sentB, start, end);
    }
  }

  lemma {:induction false} StoredSlice(store: map<int, SecretMessage>, sent: seq<SecretMessage>, first: int, last: int)
    requires 0 <= first <= last + 1 <= |sent|
    requires forall n | first <= n <= last :: n in store && store[n] == sent[n]
    ensures StoredRange(store, first, last) == sent[first..last + 1]
    decreases last
  {
    if first <= last {
      StoredSlice(store, sent, first, last - 1);
      var init := StoredRange(store, first, last - 1);
      assert last in store && StoredRange(store, first, last) == init + [sent[last]];
      assert last - 1 + 1 == last && sent[first..last + 1] == sent[first..last] + [sent[last]];
    } else {
      assert sent[first..last + 1] == [];
    }
  }

  // No message in flight in any run is ever dropped as forged or impossible.
  lemma {:induction false} NothingInFlightIsRejected(ws: seq<World>, skipping: bool, i: nat, m: SecretMessage)
    requires IsRun(ws, skipping) && i < |ws| && m in ws[i].toA
    ensures VerdictOf(ws[i].a, m) in {Duplicate, Hole, InOrder}
  {
    RunInv(ws, skipping, i);
    HonestNeverRejected(ws[i], m);
  }

  ghost predicate Contiguous(c: ChatState) {
    |c.processed| == c.inSeq && forall i | 0 <= i < |c.processed| :: c.processed[i].rawOut / 2 == i
  }

  lemma {:induction false} InOrderContiguous(c: ChatState, m: SecretMessage)
    requires WellFormed(c) && Contiguous(c) && VerdictOf(c, m) == InOrder
    ensures Contiguous(Receive(c, m).chat)
  {
    InOrderAdvances(c, m);
    LogContiguous(c, Emplace(c.queue, m.rawOut / 2, m), Receive(c, m).chat);
  }

  lemma {:induction false} LogContiguous(c: ChatState, q: map<int, SecretMessage>, d: ChatState)
    requires Contiguous(c) && NumberedByKey(q)
    requires d.processed == c.processed + Drain(q, c.inSeq) && d.inSeq == c.inSeq + RunLength(q, c.inSeq)
    ensures Contiguous(d)
  {
    var ms := Drain(q, c.inSeq);
    forall i | 0 <= i < |d.processed| ensures d.processed[i].rawOut / 2 == i {
      if i >= |c.processed| {
        assert i in q && d.processed[i] == ms[i - |c.processed|] == q[i];
      }
    }
  }

  lemma {:induction false} StepAContiguous(w: World, w': World)
    requires Inv(w) && StepA(w, w', false) && Contiguous(w.a)
    ensures Contiguous(w'.a)
  {
    if m: SecretMessage, keep: bool :| m in w.toA && w' == Delivers(w, m, keep) {
      HonestNeverRejected(w, m);
      if VerdictOf(w.a, m) == InOrder {
        InOrderContiguous(w.a, m);
      }
    }
  }

  lemma {:induction false} RunContiguous(ws: seq<World>, i: nat)
    requires IsRun(ws, false) && i < |ws|
    ensures Contiguous(ws[i].a) && Contiguous(ws[i].b)
  {
    if i > 0 {
      hide Inv, Step, Contiguous;
      RunContiguous(ws, i - 1);
      RunInv(ws, false, i - 1);
      assert StepAt(ws, i - 1, false);
      StepContiguous(ws[i - 1], ws[i]);
    }
  }

  lemma {:induction false} StepContiguous(w: World, w': World)
    requires Inv(w) && Step(w, w', false) && Contiguous(w.a) && Contiguous(w.b)
    ensures Contiguous(w'.a) && Contiguous(w'.b)
  {
    hide Contiguous;
    if StepA(w, w', false) {
      StepAContiguous(w, w');
      assert w'.b == w.b;
    } else {
      StepAContiguous(Swap(w), Swap(w'));
      assert w'.a == w.a;
    }
  }

  // Exactly-once, in-order delivery: without the skip timer, what a peer has
  // processed is the other's log up to its in_seq_no, message for message.
  lemma {:induction false} DeliveredInOrderOnce(ws: seq<World>, i: nat)
    requires IsRun(ws, false) && i < |ws|
    ensures IsPrefixOf(ws[i].a, ws[i].sentB) && IsPrefixOf(ws[i].b, ws[i].sentA)
  {
    RunInv(ws, false, i);
    RunContiguous(ws, i);
  }

  ghost predicate IsPrefixOf(r: ChatState, sent: seq<SecretMessage>) {
    && |r.processed| == r.inSeq <= |sent|
    && forall k | 0 <= k < r.inSeq :: Kept(r.processed[k], sent[k], r.processed[..k])
  }

  // From any state of a run without skips, closing first holes from the peer's
  // log empties the queue in exactly as many rounds as there are holes.
  lemma {:induction false} HolesCloseInRounds(ws: seq<World>, i: nat, fills: seq<seq<Event>>)
    requires IsRun(ws, false) && i < |ws|
    requires FillsInTurn(ws[i].a, ws[i].sentB, fills)
    ensures |fills| <= |Starts(ws[i].a)|
    ensures AfterRounds(ws[i].a, fills).queue == map[] <==> |fills| == |Starts(ws[i].a)|
  {
    var w := ws[i];
    RunInv(ws, false, i);
    RunContiguous(ws, i);
    var copies := map k: int | 0 <= k < |w.sentB| && (k < w.a.inSeq || k in w.a.queue) :: w.sentB[k];
    RoundsEmptyTheQueue(w.a, copies, w.sentB, fills);
  }

  // Such rounds exist from every such state: as many as there are holes, made of nothing
  // but what the peer's store holds, and the queue is empty after them.
  lemma {:induction false} ClosingRoundsExist(ws: seq<World>, i: nat) returns (fills: seq<seq<Event>>)
    requires IsRun(ws, false) && i < |ws|
    ensures FillsInTurn(ws[i].a, ws[i].sentB, fills) && |fills| == |Starts(ws[i].a)|
    ensures AfterRounds(ws[i].a, fills).queue == map[]
    ensures forall f, e | f in fills && e in f ::
              e.Arrive? && Number(e) in ws[i].b.store && e.m == ws[i].b.store[Number(e)]
  {
    var w := ws[i];
    RunInv(ws, false, i);
    RunContiguous(ws, i);
    HoleAnswer(w);
    var copies := map k: int | 0 <= k < |w.sentB| && (k < w.a.inSeq || k in w.a.queue) :: w.sentB[k];
    fills := RoundsExist(w.a, copies, w.sentB);
    RoundsEmptyTheQueue(w.a, copies, w.sentB, fills);
    hide *;
    FromTheStore(w, fills);
  }

  lemma FromTheStore(w: World, fills: seq<seq<Event>>)
    requires HolesAnswered(w)
    requires forall f, e | f in fills && e in f :: e.Arrive? && w.a.inSeq <= Number(e) < |w.sentB| && e.m == w.sentB[Number(e)]
    ensures forall f, e | f in fills && e in f :: e.Arrive? && Number(e) in w.b.store && e.m == w.b.store[Number(e)]
  {
  }
}
