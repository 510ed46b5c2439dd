/** Runs of pushed updates, lost, repeated or out of order, and the differences that
    close the gaps (src/updater.cpp, src/user_agent.cpp). */
module UpdatesRuns {
  import opened Updates
  import opened Wrappers

  // ---- Ranges without a server ----

  // The stamped updates among us cover the numbers after p up to p2, and those with a
  // qts the ones after q up to q2, each range starting where the one before ends.
  predicate Covers(us: seq<Update>, p: int, q: int, p2: int, q2: int) {
    if us == [] then p == p2 && q == q2
    else
      var u := us[0];
      && (u.stamp.Some? ==> u.stamp.value.pts - u.stamp.value.count == p)
      && (u.qts.Some? ==> u.qts.value == q + 1)
      && Covers(us[1..], if u.stamp.Some? then u.stamp.value.pts else p, if u.qts.Some? then u.qts.value else q, p2, q2)
  }

  predicate Positive(u: Update) { u.stamp.Some? ==> u.stamp.value.count > 0 }

  predicate PositivePush(m: Push) {
    match m
    case TooLong => true
    case Short(u) => Positive(u)
    case ShortMessage(id, stamp) => stamp.count > 0
    case SentMessage(u) => Positive(u)
    case Updates(b) => forall u | u in b.updates :: Positive(u)
    case Combined(b) => forall u | u in b.updates :: Positive(u)
  }

  lemma {:induction false} CoversJoin(us: seq<Update>, vs: seq<Update>, p: int, q: int, p1: int, q1: int, p2: int, q2: int)
    requires Covers(us, p, q, p1, q1) && Covers(vs, p1, q1, p2, q2)
    ensures Covers(us + vs, p, q, p2, q2)
    decreases |us|
  {
    if us == [] {
      assert us + vs == vs;
    } else {
      var u := us[0];
      assert (us + vs)[1..] == us[1..] + vs;
      CoversJoin(us[1..], vs, if u.stamp.Some? then u.stamp.value.pts else p, if u.qts.Some? then u.qts.value else q,
                 p1, q1, p2, q2);
    }
  }

  // How far one step may carry the agent: it applies more, which covers exactly the
  // numbers by which the counters move.
  predicate Advances(a: Agent, b: Agent, more: seq<Update>) {
    b.applied == a.applied + more && b.pts > 0 && Covers(more, a.pts, a.qts, b.pts, b.qts)
  }

  lemma {:induction false} WorkAdvances(a: Agent, u: Update) returns (more: seq<Update>)
    requires a.pts > 0 && Positive(u)
    ensures Advances(a, Work(a, u, true), more)
  {
    more := if Work(a, u, true).applied == a.applied then [] else [u];
    assert a.applied + [] == a.applied;
  }

  lemma {:induction false} MessageAdvances(a: Agent, u: Update) returns (more: seq<Update>)
    requires a.pts > 0 && !a.locked && Positive(u) && u.qts.None?
    ensures Advances(a, WorkMessage(a, u), more)
  {
    more := if WorkMessage(a, u).applied == a.applied then [] else [u];
    assert a.applied + [] == a.applied;
  }

  lemma {:induction false} AllAdvance(a: Agent, us: seq<Update>) returns (more: seq<Update>)
    requires a.pts > 0 && forall u | u in us :: Positive(u)
    ensures Advances(a, WorkAll(a, us, true), more)
    decreases |us|
  {
    more := [];
    if us == [] {
      assert a.applied + [] == a.applied;
    } else {
      assert us[0] in us;
      var one := WorkAdvances(a, us[0]);
      var b := Work(a, us[0], true);
      var rest := AllAdvance(b, us[1..]);
      var c := WorkAll(b, us[1..], true);
      CoversJoin(one, rest, a.pts, a.qts, b.pts, b.qts, c.pts, c.qts);
      more := one + rest;
      assert (a.applied + one) + rest == a.applied + more;
    }
  }

  // Whatever is pushed, with positive counts: the ranges applied before the next
  // difference are contiguous and disjoint, and end where the counters stand.
  lemma {:induction false} AppliedRangesAreContiguous(a: Agent, ms: seq<Push>) returns (more: seq<Update>)
    requires a.pts > 0 && forall m | m in ms :: PositivePush(m)
    ensures Advances(a, WorkPushes(a, ms), more)
    decreases |ms|
  {
    more := [];
    if ms == [] {
      assert a.applied + [] == a.applied;
    } else {
      assert ms[0] in ms;
      var one := PushAdvances(a, ms[0]);
      var b := WorkAny(a, ms[0]);
      var rest := AppliedRangesAreContiguous(b, ms[1..]);
      var c := WorkPushes(b, ms[1..]);
      CoversJoin(one, rest, a.pts, a.qts, b.pts, b.qts, c.pts, c.qts);
      more := one + rest;
      assert (a.applied + one) + rest == a.applied + more;
    }
  }

  function WorkPushes(a: Agent, ms: seq<Push>): Agent
    decreases |ms|
  {
    if ms == [] then a else WorkPushes(WorkAny(a, ms[0]), ms[1..])
  }

  lemma {:induction false} PushAdvances(a: Agent, m: Push) returns (more: seq<Update>)
    requires a.pts > 0 && PositivePush(m)
    ensures Advances(a, WorkAny(a, m), more)
  {
    more := [];
    assert a.applied + [] == a.applied;
    if !a.locked {
      match m {
        case TooLong =>
        case Short(u) => more := WorkAdvances(a, u);
        case ShortMessage(id, stamp) => more := MessageAdvances(a, Update(id, Some(stamp), None));
        case SentMessage(u) => more := MessageAdvances(a, u.(qts := None));
        case Updates(b) => more := BatchAdvances(a, b.seqNo, b);
        case Combined(b) => more := BatchAdvances(a, b.firstSeq, b);
      }
    }
  }

  lemma {:induction false} BatchAdvances(a: Agent, first: int, b: Batch) returns (more: seq<Update>)
    requires a.pts > 0 && forall u | u in b.updates :: Positive(u)
    ensures Advances(a, WorkBatch(a, first, b), more)
  {
    more := [];
    assert a.applied + [] == a.applied;
    if !a.locked && CheckSeq(a, first).ok {
      more := AllAdvance(a, b.updates);
    }
  }

  // ---- The lock ----

  lemma {:induction false} LockedWorksNothing(a: Agent, us: seq<Update>, checked: bool)
    requires a.locked
    ensures WorkAll(a, us, checked) == a
    decreases |us|
  {
    if us != [] {
      LockedWorksNothing(a, us[1..], checked);
    }
  }

  lemma {:induction false} WorkAllSplits(a: Agent, us: seq<Update>, n: nat, checked: bool)
    requires n <= |us|
    ensures WorkAll(a, us, checked) == WorkAll(WorkAll(a, us[..n], checked), us[n..], checked)
    decreases |us|
  {
    if n == 0 {
      assert us[n..] == us;
    } else {
      assert us[..n][1..] == us[1..][..n - 1] && us[1..][n - 1..] == us[n..];
      WorkAllSplits(Work(a, us[0], checked), us[1..], n - 1, checked);
    }
  }

  // A gap found at the n-th update of a batch freezes all counters for its rest.
  lemma {:induction false} GapFreezesTheBatch(a: Agent, first: int, b: Batch, n: nat)
    requires !a.locked && CheckSeq(a, first).ok && n <= |b.updates|
    requires WorkAll(a, b.updates[..n], true).locked
    ensures WorkBatch(a, first, b) == WorkAll(a, b.updates[..n], true)
  {
    WorkAllSplits(a, b.updates, n, true);
    LockedWorksNothing(WorkAll(a, b.updates[..n], true), b.updates[n..], true);
  }

  // After a difference has failed nothing is done any more: the lock stays, no query
  // is on its way, and neither updates nor new sessions change that.
  lemma {:induction false} DeafAfterFailure(a: Agent, ms: seq<Push>)
    requires a.locked
    ensures WorkPushes(OnError(a), ms) == OnError(a)
    ensures OnError(a).query == None && OnError(a).locked
    ensures AskDifference(OnError(a), false) == OnError(a)
    decreases |ms|
  {
    if ms != [] {
      DeafAfterFailure(a, ms[1..]);
    }
  }

  // ---- A qts that is too high ----

  function OnAnswers(a: Agent, answers: seq<Answer>): Agent
    decreases |answers|
  {
    if answers == [] then a else OnAnswers(OnAnswer(a, answers[0]), answers[1..])
  }

  // No answer lowers qts, so an update that the counter has passed wrongly is dropped
  // before the difference it starts and again after it, whatever the answers are and
  // however many of them there have to be.
  lemma {:induction false} HighQtsIsNotCorrected(a: Agent, u: Update, answers: seq<Answer>)
    requires !a.locked && u.stamp.None? && u.qts.Some? && u.qts.value <= a.qts
    ensures var b := Work(a, u, true);
            && b.locked && b.applied == a.applied && b.qts == a.qts
            && var c := OnAnswers(b, answers);
            c.qts >= a.qts && Work(c, u, true).applied == c.applied
  {
    AnswersKeepQts(Work(a, u, true), answers);
  }

  lemma {:induction false} AnswersKeepQts(a: Agent, answers: seq<Answer>)
    ensures OnAnswers(a, answers).qts >= a.qts
    decreases |answers|
  {
    if answers != [] {
      if answers[0].Missed? {
        UncheckedKeepsCounters(a.(locked := false, query := None), answers[0].updates);
      }
      AnswersKeepQts(OnAnswer(a, answers[0]), answers[1..]);
    }
  }

  // What a difference delivers sets qts to its own exactly if the counter was not ahead.
  lemma {:induction false} AnswerSetsQts(a: Agent, us: seq<Update>, st: Counters, more: bool)
    ensures var b := OnAnswer(a, Missed(us, st, more));
            (b.qts == st.qts <==> a.qts <= st.qts) && (a.qts > st.qts ==> b.qts == a.qts)
  {
    UncheckedKeepsCounters(a.(locked := false, query := None), us);
  }

  lemma {:induction false} UncheckedKeepsCounters(a: Agent, us: seq<Update>)
    requires !a.locked
    ensures WorkAll(a, us, false) == a.(applied := a.applied + us)
    decreases |us|
  {
    if us == [] {
      assert a.applied + us == a.applied;
    } else {
      UncheckedKeepsCounters(Work(a, us[0], false), us[1..]);
      assert (a.applied + [us[0]]) + us[1..] == a.applied + us;
    }
  }

  // ---- A server ----

  // Everything the server will ever send after the counters the client starts from:
  // events with a pts range and events with a qts.
  datatype Server = Server(pts: int, qts: int, events: seq<Update>, secrets: seq<Update>)

  function PtsAt(s: Server, k: nat): int
    requires k <= |s.events| && Stamped(s.events)
  {
    if k == 0 then s.pts else s.events[k - 1].stamp.value.pts
  }

  predicate Stamped(us: seq<Update>) { forall i | 0 <= i < |us| :: us[i].stamp.Some? && us[i].stamp.value.count > 0 }

  // Each event continues the numbering where the one before ends.
  predicate GoodServer(s: Server) {
    && s.pts > 0 && Stamped(s.events)
    && (forall i: nat | i < |s.events| :: EventFollows(s, i))
    && (forall i: nat | i < |s.secrets| :: SecretFollows(s, i))
  }

  predicate EventFollows(s: Server, i: nat)
    requires Stamped(s.events) && i < |s.events|
  {
    s.events[i].qts.None? && s.events[i].stamp.value.pts == PtsAt(s, i) + s.events[i].stamp.value.count
  }

  predicate SecretFollows(s: Server, i: nat)
    requires i < |s.secrets|
  {
    s.secrets[i].stamp.None? && s.secrets[i].qts == Some(s.qts + i + 1)
  }

  lemma {:induction false} PtsGrows(s: Server, i: nat, k: nat)
    requires GoodServer(s) && i < k <= |s.events|
    ensures PtsAt(s, i) < PtsAt(s, k)
    decreases k
  {
    assert EventFollows(s, k - 1);
    if i < k - 1 {
      PtsGrows(s, i, k - 1);
    }
  }

  // The applied updates that move pts, and those that move qts.
  function PtsPart(us: seq<Update>): seq<Update> {
    if us == [] then []
    else
      var u := us[|us| - 1];
      PtsPart(us[..|us| - 1]) + if u.stamp.Some? && u.stamp.value.count != 0 then [u] else []
  }

  function QtsPart(us: seq<Update>): seq<Update> {
    if us == [] then []
    else
      var u := us[|us| - 1];
      QtsPart(us[..|us| - 1]) + if u.qts.Some? then [u] else []
  }

  // The client has applied the first k events and the first j secrets, each once and
  // in order, and nothing else that moves a counter.
  predicate Synced(s: Server, a: Agent, k: nat, j: nat)
    requires GoodServer(s)
  {
    && k <= |s.events| && j <= |s.secrets|
    && a.pts == PtsAt(s, k) && a.qts == s.qts + j
    && PtsPart(a.applied) == s.events[..k] && QtsPart(a.applied) == s.secrets[..j]
    && (a.query.Some? && a.locked ==> a.query.value.Difference? && a.query.value.pts == a.pts && a.query.value.qts == a.qts)
  }

  // What an honest network can push: any event or secret at any time, and updates
  // that carry no counter.
  predicate Honest(s: Server, u: Update) {
    u in s.events || u in s.secrets || (u.stamp.None? && u.qts.None?)
  }

  predicate HonestPush(s: Server, m: Push) {
    match m
    case TooLong => true
    case Short(u) => Honest(s, u)
    case ShortMessage(id, stamp) => Honest(s, Update(id, Some(stamp), None))
    case SentMessage(u) => Honest(s, u) && u.qts.None?
    case Updates(b) => forall u | u in b.updates :: Honest(s, u)
    case Combined(b) => forall u | u in b.updates :: Honest(s, u)
  }

  lemma PartsOne(us: seq<Update>, u: Update)
    ensures PtsPart(us + [u]) == PtsPart(us) + if u.stamp.Some? && u.stamp.value.count != 0 then [u] else []
    ensures QtsPart(us + [u]) == QtsPart(us) + if u.qts.Some? then [u] else []
  {
    assert (us + [u])[..|us|] == us;
  }

  lemma {:induction false} PartsJoin(us: seq<Update>, vs: seq<Update>)
    ensures PtsPart(us + vs) == PtsPart(us) + PtsPart(vs)
    ensures QtsPart(us + vs) == QtsPart(us) + QtsPart(vs)
    decreases |vs|
  {
    if vs == [] {
      assert us + vs == us;
    } else {
      var n := |vs| - 1;
      assert us + vs == (us + vs[..n]) + [vs[n]] && vs == vs[..n] + [vs[n]];
      PartsJoin(us, vs[..n]);
      PartsOne(us + vs[..n], vs[n]);
      PartsOne(vs[..n], vs[n]);
    }
  }

  // An event is applied exactly when it is the next one; any later one asks for the
  // difference, any earlier one is dropped.
  lemma {:induction false} EventChecked(s: Server, a: Agent, k: nat, j: nat, i: nat)
    requires GoodServer(s) && Synced(s, a, k, j) && !a.locked && i < |s.events|
    ensures var stamp := s.events[i].stamp.value;
            && (CheckPts(a, stamp).ok <==> i == k)
            && CheckPts(a, stamp).agent == if i > k then AskDifference(a, false) else a
  {
    assert EventFollows(s, i);
    if i < k {
      PtsGrows(s, i, k);
    } else if k < i {
      PtsGrows(s, k, i);
    }
    PtsPositive(s, k);
  }

  lemma {:induction false} PtsPositive(s: Server, k: nat)
    requires GoodServer(s) && k <= |s.events|
    ensures PtsAt(s, k) > 0
  {
    if k > 0 {
      PtsGrows(s, 0, k);
    }
  }

  lemma {:induction false} AskKeepsSync(s: Server, a: Agent, k: nat, j: nat)
    requires GoodServer(s) && Synced(s, a, k, j)
    ensures Synced(s, AskDifference(a, false), k, j)
  {
    PtsPositive(s, k);
  }

  lemma {:induction false} WorkSyncs(s: Server, a: Agent, k: nat, j: nat, u: Update) returns (k2: nat, j2: nat)
    requires GoodServer(s) && Synced(s, a, k, j) && Honest(s, u)
    ensures k <= k2 && j <= j2 && Synced(s, Work(a, u, true), k2, j2)
  {
    k2, j2 := k, j;
    if !a.locked {
      if u in s.events {
        var i :| 0 <= i < |s.events| && s.events[i] == u;
        k2 := if i == k then k + 1 else k;
        hide Work, Synced;
        EventSyncs(s, a, k, j, i);
      } else if u in s.secrets {
        var i :| 0 <= i < |s.secrets| && s.secrets[i] == u;
        j2 := if i == j then j + 1 else j;
        hide Work, Synced;
        SecretSyncs(s, a, k, j, i);
      } else {
        PartsOne(a.applied, u);
        hide PtsPart, QtsPart;
      }
    }
  }

  lemma {:induction false} EventSyncs(s: Server, a: Agent, k: nat, j: nat, i: nat)
    requires GoodServer(s) && Synced(s, a, k, j) && !a.locked && i < |s.events|
    ensures Synced(s, Work(a, s.events[i], true), if i == k then k + 1 else k, j)
  {
    var u := s.events[i];
    assert EventFollows(s, i);
    EventChecked(s, a, k, j, i);
    AskKeepsSync(s, a, k, j);
    PartsOne(a.applied, u);
    hide PtsPart, QtsPart, AskDifference;
    if i == k {
      assert s.events[..k + 1] == s.events[..k] + [u];
    }
  }

  lemma {:induction false} SecretSyncs(s: Server, a: Agent, k: nat, j: nat, i: nat)
    requires GoodServer(s) && Synced(s, a, k, j) && !a.locked && i < |s.secrets|
    ensures Synced(s, Work(a, s.secrets[i], true), k, if i == j then j + 1 else j)
  {
    var u := s.secrets[i];
    assert SecretFollows(s, i);
    AskKeepsSync(s, a, k, j);
    PartsOne(a.applied, u);
    hide PtsPart, QtsPart, AskDifference;
    if i == j {
      assert s.secrets[..j + 1] == s.secrets[..j] + [u];
    }
  }

  lemma {:induction false} MessageSyncs(s: Server, a: Agent, k: nat, j: nat, u: Update) returns (k2: nat, j2: nat)
    requires GoodServer(s) && Synced(s, a, k, j) && Honest(s, u) && u.qts.None? && !a.locked
    ensures k <= k2 && j <= j2 && Synced(s, WorkMessage(a, u), k2, j2)
  {
    assert WorkMessage(a, u) == Work(a, u, true);
    k2, j2 := WorkSyncs(s, a, k, j, u);
  }

  lemma {:induction false} AllSync(s: Server, a: Agent, k: nat, j: nat, us: seq<Update>) returns (k2: nat, j2: nat)
    requires GoodServer(s) && Synced(s, a, k, j) && forall u | u in us :: Honest(s, u)
    ensures k <= k2 && j <= j2 && Synced(s, WorkAll(a, us, true), k2, j2)
    decreases |us|
  {
    if us == [] {
      k2, j2 := k, j;
    } else {
      assert us[0] in us;
      k2, j2 := WorkSyncs(s, a, k, j, us[0]);
      k2, j2 := AllSync(s, Work(a, us[0], true), k2, j2, us[1..]);
    }
  }

  lemma {:induction false} BatchSyncs(s: Server, a: Agent, k: nat, j: nat, first: int, b: Batch) returns (k2: nat, j2: nat)
    requires GoodServer(s) && Synced(s, a, k, j) && forall u | u in b.updates :: Honest(s, u)
    ensures k <= k2 && j <= j2 && Synced(s, WorkBatch(a, first, b), k2, j2)
  {
    k2, j2 := k, j;
    AskKeepsSync(s, a, k, j);
    if !a.locked && CheckSeq(a, first).ok {
      k2, j2 := AllSync(s, a, k, j, b.updates);
    }
  }

  lemma {:induction false} PushSyncs(s: Server, a: Agent, k: nat, j: nat, m: Push) returns (k2: nat, j2: nat)
    requires GoodServer(s) && Synced(s, a, k, j) && HonestPush(s, m)
    ensures k <= k2 && j <= j2 && Synced(s, WorkAny(a, m), k2, j2)
  {
    k2, j2 := k, j;
    AskKeepsSync(s, a, k, j);
    if !a.locked {
      match m {
        case TooLong =>
        case Short(u) => k2, j2 := WorkSyncs(s, a, k, j, u);
        case ShortMessage(id, stamp) => k2, j2 := MessageSyncs(s, a, k, j, Update(id, Some(stamp), None));
        case SentMessage(u) =>
          assert u.(qts := None) == u;
          k2, j2 := MessageSyncs(s, a, k, j, u);
        case Updates(b) => k2, j2 := BatchSyncs(s, a, k, j, b.seqNo, b);
        case Combined(b) => k2, j2 := BatchSyncs(s, a, k, j, b.firstSeq, b);
      }
    }
  }

  // ---- Differences ----

  // An answer delivers exactly what lies between the counters of the query and those
  // it carries.
  predicate HonestAnswer(s: Server, q: Query, answer: Answer)
    requires GoodServer(s)
  {
    q.Difference? &&
    match answer
    case Nothing(date, seqNo) => true
    case Missed(us, state, more) =>
      exists k, j, k2, j2 | 0 <= k <= k2 <= |s.events| && 0 <= j <= j2 <= |s.secrets| :: Delivers(s, q, us, state, k, j, k2, j2)
    case Current(state) => false
  }

  predicate Delivers(s: Server, q: Query, us: seq<Update>, state: Counters, k: nat, j: nat, k2: nat, j2: nat)
    requires GoodServer(s) && q.Difference? && k <= k2 <= |s.events| && j <= j2 <= |s.secrets|
  {
    && q.pts == PtsAt(s, k) && q.qts == s.qts + j && state.pts == PtsAt(s, k2) && state.qts == s.qts + j2
    && PtsPart(us) == s.events[k..k2] && QtsPart(us) == s.secrets[j..j2]
  }

  lemma {:induction false} PtsInjective(s: Server, i: nat, k: nat)
    requires GoodServer(s) && i <= |s.events| && k <= |s.events| && PtsAt(s, i) == PtsAt(s, k)
    ensures i == k
  {
    if i < k {
      PtsGrows(s, i, k);
    } else if k < i {
      PtsGrows(s, k, i);
    }
  }

  // What the agent becomes before it asks for more.
  function Caught(a: Agent, us: seq<Update>, st: Counters): Agent {
    RaiseDate(RaiseQts(RaisePts(a.(locked := false, query := None, applied := a.applied + us), st.pts, false), st.qts, false), st.date, false)
  }

  lemma {:induction false} CaughtSyncs(s: Server, a: Agent, k: nat, j: nat, us: seq<Update>, st: Counters, k2: nat, j2: nat)
    requires GoodServer(s) && Synced(s, a, k, j) && a.locked && a.query.Some?
    requires k <= k2 <= |s.events| && j <= j2 <= |s.secrets| && Delivers(s, a.query.value, us, st, k, j, k2, j2)
    ensures Synced(s, Caught(a, us, st), k2, j2) && !Caught(a, us, st).locked
  {
    PartsJoin(a.applied, us);
    assert s.events[..k] + s.events[k..k2] == s.events[..k2];
    assert s.secrets[..j] + s.secrets[j..j2] == s.secrets[..j2];
    if k < k2 {
      PtsGrows(s, k, k2);
    }
    CaughtFields(a, us, st);
    hide Caught, PtsPart, QtsPart, GoodServer;
  }

  lemma CaughtFields(a: Agent, us: seq<Update>, st: Counters)
    requires st.pts >= a.pts && st.qts >= a.qts
    ensures var b := Caught(a, us, st);
            b.pts == st.pts && b.qts == st.qts && b.applied == a.applied + us && b.query == None && !b.locked
  {
  }

  lemma {:induction false} AnswerSyncs(s: Server, a: Agent, k: nat, j: nat, answer: Answer) returns (k2: nat, j2: nat)
    requires GoodServer(s) && Synced(s, a, k, j) && a.locked && a.query.Some? && HonestAnswer(s, a.query.value, answer)
    ensures k <= k2 && j <= j2 && Synced(s, OnAnswer(a, answer), k2, j2)
    ensures answer.Missed? ==> PtsAt(s, k2) == answer.state.pts && s.qts + j2 == answer.state.qts
  {
    k2, j2 := k, j;
    if answer.Missed? {
      var (us, st) := (answer.updates, answer.state);
      var k0, j0;
      k0, j0, k2, j2 := Extent(s, a.query.value, answer);
      PtsInjective(s, k0, k);
      CaughtSyncs(s, a, k, j, us, st, k2, j2);
      UncheckedKeepsCounters(a.(locked := false, query := None), us);
      AskKeepsSync(s, Caught(a, us, st), k2, j2);
    }
  }

  lemma Extent(s: Server, q: Query, answer: Answer) returns (k: nat, j: nat, k2: nat, j2: nat)
    requires GoodServer(s) && HonestAnswer(s, q, answer) && answer.Missed?
    ensures k <= k2 <= |s.events| && j <= j2 <= |s.secrets| && Delivers(s, q, answer.updates, answer.state, k, j, k2, j2)
  {
    k, j, k2, j2 :| 0 <= k <= k2 <= |s.events| && 0 <= j <= j2 <= |s.secrets|
                    && Delivers(s, q, answer.updates, answer.state, k, j, k2, j2);
  }

  // ---- Runs ----

  datatype Event = Pushed(m: Push) | Answered(answer: Answer) | QueryFailed | NewSession

  function Step(a: Agent, e: Event): Agent {
    match e
    case Pushed(m) => WorkAny(a, m)
    case Answered(answer) => OnAnswer(a, answer)
    case QueryFailed => OnError(a)
    case NewSession => AskDifference(a, false)
  }

  predicate HonestEvent(s: Server, a: Agent, e: Event)
    requires GoodServer(s)
  {
    match e
    case Pushed(m) => HonestPush(s, m)
    case Answered(answer) => a.locked && a.query.Some? && HonestAnswer(s, a.query.value, answer)
    case QueryFailed => a.locked && a.query.Some?
    case NewSession => true
  }

  predicate IsRun(s: Server, agents: seq<Agent>, es: seq<Event>)
    requires GoodServer(s)
  {
    && |agents| == |es| + 1
    && agents[0].pts == s.pts && agents[0].qts == s.qts && agents[0].applied == []
    && agents[0].query == None && !agents[0].locked
    && forall i | 0 <= i < |es| :: HonestEvent(s, agents[i], es[i]) && agents[i + 1] == Step(agents[i], es[i])
  }

  // In every run the client has applied a prefix of the events and a prefix of the
  // secrets, each of them once and in order, and its counters tell how far it is.
  lemma {:induction false} EachEventOnce(s: Server, agents: seq<Agent>, es: seq<Event>) returns (k: nat, j: nat)
    requires GoodServer(s) && IsRun(s, agents, es)
    ensures Synced(s, agents[|es|], k, j)
    decreases |es|
  {
    if es == [] {
      k, j := 0, 0;
    } else {
      var n := |es| - 1;
      k, j := EachEventOnce(s, agents[..n + 1], es[..n]);
      var a := agents[n];
      match es[n] {
        case Pushed(m) => k, j := PushSyncs(s, a, k, j, m);
        case Answered(answer) => k, j := AnswerSyncs(s, a, k, j, answer);
        case QueryFailed =>
        case NewSession => AskKeepsSync(s, a, k, j);
      }
    }
  }

  // ---- The agent that hears nothing any more ----

  // Locked, with no query whose answer could unlock it.
  predicate Stuck(a: Agent) { a.locked && a.query.None? }

  lemma {:induction false} WorkGetsUnstuck(a: Agent, u: Update, checked: bool)
    requires !Stuck(a)
    ensures !Stuck(Work(a, u, checked))
  {
  }

  lemma {:induction false} WorkAllGetsUnstuck(a: Agent, us: seq<Update>, checked: bool)
    requires !Stuck(a)
    ensures !Stuck(WorkAll(a, us, checked))
    decreases |us|
  {
    if us != [] {
      WorkGetsUnstuck(a, us[0], checked);
      WorkAllGetsUnstuck(Work(a, us[0], checked), us[1..], checked);
    }
  }

  lemma {:induction false} OnlyFailuresStick(a: Agent, e: Event)
    requires !Stuck(a) && (e.QueryFailed? ==> a.locked)
    ensures Stuck(Step(a, e)) <==> e.QueryFailed?
  {
    match e
    case Pushed(m) => PushGetsUnstuck(a, m);
    case Answered(answer) =>
      if answer.Missed? {
        WorkAllGetsUnstuck(a.(locked := false, query := None), answer.updates, false);
      }
    case _ =>
  }

  lemma {:induction false} PushGetsUnstuck(a: Agent, m: Push)
    requires !Stuck(a)
    ensures !Stuck(WorkAny(a, m))
  {
    match m
    case Short(u) => WorkGetsUnstuck(a, u, true);
    case Updates(b) => WorkAllGetsUnstuck(CheckSeq(a, b.seqNo).agent, b.updates, true);
    case Combined(b) => WorkAllGetsUnstuck(CheckSeq(a, b.firstSeq).agent, b.updates, true);
    case _ =>
  }

  // In every run the agent is stuck if and only if the query for some difference has
  // failed, and then it stays exactly as it is.
  lemma {:induction false} StuckIffFailed(s: Server, agents: seq<Agent>, es: seq<Event>, n: nat)
    requires GoodServer(s) && IsRun(s, agents, es) && n <= |es|
    ensures Stuck(agents[n]) <==> exists i | 0 <= i < n :: es[i].QueryFailed?
    ensures n > 0 && Stuck(agents[n - 1]) ==> agents[n] == agents[n - 1]
  {
    if n > 0 {
      var (a, e) := (agents[n - 1], es[n - 1]);
      StuckIffFailed(s, agents, es, n - 1);
      assert HonestEvent(s, a, e) && agents[n - 1 + 1] == Step(a, e);
      hide HonestAnswer, HonestPush;
      if !Stuck(a) {
        OnlyFailuresStick(a, e);
      }
    }
  }

  // The query for what comes after the client's counters.
  function QueryFrom(a: Agent): Query { Difference(a.pts, if a.date == 0 then 1 else a.date, a.qts) }

  lemma {:induction false} GapIsFound(s: Server, a: Agent, k: nat, j: nat, i: nat)
    requires GoodServer(s) && Synced(s, a, k, j) && !a.locked && k < i < |s.events|
    ensures Work(a, s.events[i], true) ==
            a.(locked := true, date := if a.date == 0 then 1 else a.date, query := Some(QueryFrom(a)))
  {
    EventChecked(s, a, k, j, i);
    assert EventFollows(s, i);
    PtsPositive(s, k);
  }

  // A gap starts a difference, and the complete answer closes it: what was missed,
  // the event that showed the gap included, is then applied.
  lemma {:induction false} GapIsClosed(s: Server, a: Agent, k: nat, j: nat, i: nat, answer: Answer)
    requires GoodServer(s) && Synced(s, a, k, j) && !a.locked && k < i < |s.events|
    requires HonestAnswer(s, QueryFrom(a), answer)
    requires answer.Missed? && !answer.more && answer.state.pts >= s.events[i].stamp.value.pts
    ensures var b := Work(a, s.events[i], true);
            && b.locked && b.applied == a.applied && b.query == Some(QueryFrom(a))
            && s.events[..i + 1] <= PtsPart(OnAnswer(b, answer).applied) && !OnAnswer(b, answer).locked
  {
    GapIsFound(s, a, k, j, i);
    var b := Work(a, s.events[i], true);
    hide Work, PtsPart, QtsPart, HonestAnswer;
    var k2, j2 := AnswerSyncs(s, b, k, j, answer);
    UncheckedKeepsCounters(b.(locked := false, query := None), answer.updates);
    hide WorkAll;
    assert !OnAnswer(b, answer).locked;
    hide OnAnswer;
    GapReached(s, OnAnswer(b, answer), k2, j2, i);
  }

  lemma {:induction false} GapReached(s: Server, a: Agent, k: nat, j: nat, i: nat)
    requires GoodServer(s) && Synced(s, a, k, j) && i < |s.events| && PtsAt(s, k) >= s.events[i].stamp.value.pts
    ensures s.events[..i + 1] <= PtsPart(a.applied)
  {
    if k < i + 1 {
      PtsGrows(s, k, i + 1);
    }
    assert s.events[..k][..i + 1] == s.events[..i + 1];
  }

  // ---- Updates that count nothing ----

  lemma PositionKnown(s: Server, a: Agent, k: nat, k2: nat, j2: nat)
    requires GoodServer(s) && k <= |s.events| && PtsPart(a.applied) == s.events[..k]
    ensures Synced(s, a, k2, j2) ==> k2 == k && a.pts == PtsAt(s, k)
  {
    assert |s.events[..k]| == k;
    assert k2 <= |s.events| ==> |s.events[..k2]| == k2;
  }

  // An update with a zero pts_count passes the check whatever its pts is: the client
  // stays in step if and only if that pts is not ahead of its own.
  lemma {:induction false} ZeroCountUpdate(s: Server, a: Agent, k: nat, j: nat, u: Update)
    requires GoodServer(s) && Synced(s, a, k, j) && !a.locked
    requires u.qts.None? && u.stamp.Some? && u.stamp.value.count == 0
    ensures (exists k2, j2 :: Synced(s, Work(a, u, true), k2, j2)) <==> u.stamp.value.pts <= a.pts
  {
    var b := Work(a, u, true);
    PartsOne(a.applied, u);
    if u.stamp.value.pts <= a.pts {
      assert Synced(s, b, k, j);
    } else {
      forall k2: nat, j2: nat ensures !Synced(s, b, k2, j2) {
        PositionKnown(s, b, k, k2, j2);
      }
    }
  }
}
