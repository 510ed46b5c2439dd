/** What holds of queries and clients after any run of sends, answers, errors, timeouts
    and retries (src/query/query.cpp, src/user_agent.cpp, src/mtproto_client.cpp). */
module QueriesRuns {
  import opened Queries
  import opened QuerySteps
  import opened Wrappers

  // ---- Events ----

  // The timeout of query k runs though nothing else may happen to it.
  predicate Leftover(w: World, k: int)
    requires Known(w, k)
  {
    w.queries[k].timeout && !InPlay(w, k)
  }

  // Nothing may happen to query k any more, and nobody was called.
  predicate Untold(w: World, k: int)
    requires Known(w, k)
  {
    !InPlay(w, k) && w.queries[k].calls == []
  }

  ghost predicate After(w: World, v: World, k: int, left: bool, untold: bool) {
    && Base(v) && Frame(w, v, k) && Known(v, k) && QueryOk(v, k)
    && (Leftover(v, k) <==> left) && (Untold(v, k) <==> untold)
  }

  datatype Event =
    | Started(k: int, query: Query, env: Env)
    | Answer(id: int) | Failure(id: int, error: Error) | Restart(id: int, env: Env) | BadMessage(id: int) | Acknowledged(id: int)
    | TimedOut(k: int, env: Env) | RetryOver(k: int, env: Env) | PromptOver(k: int)
    | SendPending(c: int, envs: seq<Env>) | CleanupDue(c: int)
    | ClientChanges(c: int, client: Client) | CurrentChanges(c: int)

  predicate FreshQuery(w: World, k: int, q: Query) {
    && k !in w.queries && q.client in w.clients && q.msgId == 0 && (q.kind.override != 0 ==> q.kind.override !in w.used)
    && !q.timeout && !q.retry && !q.kept && !q.acked
    && q.asking == 0 && q.calls == [] && GoodKind(q.kind)
  }

  // Answers, errors and acknowledgements of unknown messages do nothing; a timer goes
  // off only while it runs; the flags and the session of a client change freely.
  predicate CanHappen(w: World, e: Event) {
    match e
    case Started(k, q, env) => FreshQuery(w, k, q) && GoodEnv(w, env) && (env.id.Some? ==> env.id.value != q.kind.override)
    case Answer(id) => true
    case Failure(id, error) => error.Migrate? ==> error.client in w.clients
    case Restart(id, env) => GoodEnv(w, env)
    case BadMessage(id) => true
    case Acknowledged(id) => true
    case TimedOut(k, env) => k in w.queries && w.queries[k].timeout && GoodEnv(w, env)
    case RetryOver(k, env) => k in w.queries && w.queries[k].retry && GoodEnv(w, env)
    case PromptOver(k) => k in w.queries && w.queries[k].asking > 0
    case SendPending(c, envs) => c in w.clients && |envs| == |w.clients[c].pending| && FreshEnvs(w, envs)
    case CleanupDue(c) => c in w.clients && w.clients[c].cleanup
    case ClientChanges(c, s) => c in w.clients && s.count == w.clients[c].count && s.pending == w.clients[c].pending
    case CurrentChanges(c) => c in w.clients
  }

  predicate FreshEnvs(w: World, envs: seq<Env>) {
    && (forall i | 0 <= i < |envs| :: GoodEnv(w, envs[i]))
    && forall i, j | 0 <= i < j < |envs| && envs[i].id.Some? :: envs[i].id != envs[j].id
  }

  // The query that an answer or a notice about message id concerns.
  predicate Concerns(w: World, id: int) { id in w.active && Known(w, w.active[id]) }

  function Step(w: World, e: Event): World
    requires CanHappen(w, e)
  {
    match e
    case Started(k, q, env) => Execute(w, k, q, env)
    case Answer(id) => if Concerns(w, id) then HandleResult(w, w.active[id]) else w
    case Failure(id, error) => if Concerns(w, id) then HandleError(w, w.active[id], error) else w
    case Restart(id, env) => if Concerns(w, id) then Alarm(w, w.active[id], env) else w
    case BadMessage(id) => if Concerns(w, id) then Regen(w, w.active[id]) else w
    case Acknowledged(id) => if Concerns(w, id) then Ack(w, w.active[id]) else w
    case TimedOut(k, env) => if Known(w, k) then TimeoutAlarm(w, k, env) else w
    case RetryOver(k, env) => if Known(w, k) then RetryDue(w, k, env) else w
    case PromptOver(k) => if Known(w, k) then PasswordDone(w, k) else w
    case SendPending(c, envs) =>
      var ks := w.clients[c].pending;
      if forall k | k in ks :: Known(w, k) then SendEach(w, c, ks, envs) else w
    case CleanupDue(c) => CleanupExpired(w, c)
    case ClientChanges(c, s) => SetClient(w, c, s)
    case CurrentChanges(c) => w.(current := c)
  }

  lemma {:induction false} StartInv(w: World, k: int, q: Query, env: Env)
    requires Inv(w) && FreshQuery(w, k, q) && GoodEnv(w, env) && (env.id.Some? ==> env.id.value != q.kind.override)
    ensures After(Registered(w, k, q), Execute(w, k, q, env), k, false, false)
    ensures Base(Registered(w, k, q)) && Others(w, Registered(w, k, q), k)
  {
    var v := Registered(w, k, q);
    RegisteredKeeps(w, k, q);
    hide Base, Frame, SendOrWait;
    SendOrWaitKeeps(v, k, env);
  }

  lemma {:induction false} RegisteredKeeps(w: World, k: int, q: Query)
    requires Inv(w) && FreshQuery(w, k, q)
    ensures var v := Registered(w, k, q);
            Base(v) && Others(w, v, k) && !IsActive(v, k) && !IsPending(v, k)
  {
    var v := Registered(w, k, q);
    assert KnownAll(v);
    SameEntries(w, v);
    RegisteredIds(w, k, q);
    hide IdsOk, ActiveOk, CountsOk, QueryOk;
  }

  lemma RegisteredIds(w: World, k: int, q: Query)
    requires IdsOk(w) && FreshQuery(w, k, q)
    ensures IdsOk(Registered(w, k, q))
  {
  }

  lemma {:induction false} AnswerInv(w: World, k: int)
    requires Inv(w) && k in w.queries && IsActive(w, k)
    ensures After(w, HandleResult(w, k), k, false, false)
  {
    assert Known(w, k) && QueryOk(w, k);
    hide Base, Frame, HandleResult;
    AnswerKeeps(w, k);
  }

  // An error ends a query with nobody called.
  predicate Silences(d: Kind, e: Error) {
    !Retries(d, e) && !Asks(d, e) && !e.Refused?
  }

  lemma {:induction false} FailureInv(w: World, k: int, e: Error)
    requires Inv(w) && k in w.queries && IsActive(w, k) && (e.Migrate? ==> e.client in w.clients)
    ensures After(w, HandleError(w, k, e), k, false, w.queries[k].calls == [] && Silences(w.queries[k].kind, e))
  {
    assert QueryOk(w, k);
    PendingNowhere(w, k);
    hide HandleError, Base, Frame;
    ErrorKeeps(w, k, e);
  }

  // A query that is quiet and not pending is sent, has to wait, or has failed.
  lemma {:induction false} SendInv(w: World, k: int, env: Env)
    requires Base(w) && k in w.queries && !IsActive(w, k) && !IsPending(w, k) && GoodEnv(w, env)
    requires var q := w.queries[k];
             GoodKind(q.kind) && !q.timeout && !q.retry && (q.asking > 0 ==> q.kind.signsIn) && (!q.kind.signsIn ==> q.calls == [])
    ensures After(w, SendOrWait(w, k, env), k, false, false)
  {
    hide Base, Frame, SendOrWait;
    SendOrWaitKeeps(w, k, env);
  }

  // An active query, or one whose retry timer goes off.
  lemma {:induction false} AlarmInv(w: World, k: int, env: Env)
    requires Base(w) && k in w.queries && !IsPending(w, k) && GoodEnv(w, env)
    requires var q := w.queries[k];
             GoodKind(q.kind) && (q.asking > 0 ==> q.kind.signsIn) && (!q.kind.signsIn ==> q.calls == [])
    ensures After(w, Alarm(w, k, env), k, false, false)
  {
    var u := Deactivate(ClearTimers(w, k), k);
    QuietKeeps(w, k);
    assert Alarm(w, k, env) == SendOrWait(u, k, env);
    hide Base, Frame, Deactivate, SendOrWait, Alarm, QueryOk;
    SendInv(u, k, env);
    FrameTrans(w, u, Alarm(w, k, env), k);
  }

  lemma {:induction false} RetryInv(w: World, k: int, env: Env)
    requires Inv(w) && k in w.queries && w.queries[k].retry && GoodEnv(w, env)
    ensures After(w, RetryDue(w, k, env), k, false, false)
  {
    assert QueryOk(w, k);
    var u := SetQuery(w, k, w.queries[k].(kept := false));
    UpdateKeeps(w, k, u.queries[k], u);
    hide Base, Frame, Alarm;
    AlarmInv(u, k, env);
    FrameTrans(w, u, RetryDue(w, k, env), k);
  }

  // The timeout of a query that is active, waiting, or over.
  lemma {:induction false} TimeoutInv(w: World, k: int, env: Env)
    requires Inv(w) && k in w.queries && w.queries[k].timeout && GoodEnv(w, env)
    ensures After(w, TimeoutAlarm(w, k, env), k, false, false)
  {
    assert QueryOk(w, k);
    if w.queries[k].kind.retriesTimeout {
      hide Base, Frame, Alarm;
      AlarmInv(w, k, env);
    } else {
      hide Base, Frame, TimeoutAlarm;
      TimeoutKeeps(w, k, env);
    }
  }

  lemma {:induction false} RegenInv(w: World, k: int)
    requires Inv(w) && k in w.queries && IsActive(w, k)
    ensures After(w, Regen(w, k), k, false, false)
  {
    assert QueryOk(w, k);
    UpdateKeeps(w, k, Regen(w, k).queries[k], Regen(w, k));
    hide Base, Frame;
  }

  lemma {:induction false} AckInv(w: World, k: int)
    requires Inv(w) && k in w.queries && IsActive(w, k)
    ensures After(w, Ack(w, k), k, false, false)
  {
    assert QueryOk(w, k);
    UpdateKeeps(w, k, Ack(w, k).queries[k], Ack(w, k));
    hide Base, Frame;
  }

  lemma {:induction false} PromptInv(w: World, k: int)
    requires Inv(w) && k in w.queries && w.queries[k].asking > 0
    ensures var q := w.queries[k];
            After(w, PasswordDone(w, k), k,
                  q.timeout && !IsPending(w, k) && !q.retry && (q.kept || q.kind.held),
                  Untold(w, k) && !Alive(w, k))
  {
    assert QueryOk(w, k);
    hide Base, Frame, PasswordDone;
    PromptKeeps(w, k);
  }

  // ---- Sending the pending queries ----

  // A waiting query is refused because its client logs out; its timeout goes on if its
  // object does.
  predicate RefusedWaiting(w: World, k: int)
    requires Known(w, k)
  {
    var q := w.queries[k];
    LoggingOut(w, k) && q.timeout && (q.kept || q.kind.held)
  }

  lemma {:induction false} SendOneInv(w: World, c: int, k: int, env: Env)
    requires Inv(w) && c in w.clients && k in w.clients[c].pending && k in w.queries && GoodEnv(w, env)
    ensures After(w, SendOnePending(w, c, k, env), k, RefusedWaiting(w, k), false)
    ensures PendingBut(w, SendOnePending(w, c, k, env), k) && Uses(w, SendOnePending(w, c, k, env), env)
  {
    assert QueryOk(w, k) && IsPending(w, k);
    SendOneKeeps(w, c, k, env);
    SendOneOutcome(w, c, k, env);
    hide Base, Frame, SendOnePending, PendingBut, Uses;
    SendOneOk(w, SendOnePending(w, c, k, env), k, env);
  }

  lemma {:induction false} SendOneOk(w: World, v: World, k: int, env: Env)
    requires Known(w, k) && Known(v, k) && QueryOk(w, k) && IsPending(w, k)
    requires v.queries[k] == AfterSendOne(w, w.queries[k], v.queries[k], k, env)
    requires IsPending(v, k) <==> !LoggingOut(w, k) && MustWait(w, k, env)
    requires IsActive(v, k) <==> !LoggingOut(w, k) && !MustWait(w, k, env) && CanSend(w, k, env)
    ensures QueryOk(v, k) && (Leftover(v, k) <==> RefusedWaiting(w, k)) && !Untold(v, k)
  {
    hide LoggingOut, MustWait, CanSend, IsActive, IsPending;
  }

  // What a step with query k leaves of the whole.
  lemma {:induction false} AfterInv(w: World, v: World, k: int, left: bool, untold: bool)
    requires Inv(w) && After(w, v, k, left, untold)
    ensures Inv(v)
    ensures forall j | j in w.queries && j != k ::
              j in v.queries && (Leftover(v, j) <==> Leftover(w, j)) && (Untold(v, j) <==> Untold(w, j))
  {
    assert KnownAll(w) && KnownAll(v);
    hide ActiveOk, IdsOk, CountsOk, PendingOk;
    forall j | j in v.queries && j != k ensures QueryOk(v, j) {
      assert QueryOk(w, j);
    }
  }

  // What sending the queries ks, each of them waiting, means for every query.
  ghost predicate SendsAll(w: World, v: World, ks: seq<int>) {
    && KnownAll(v) && v.queries.Keys == w.queries.Keys && v.clients.Keys == w.clients.Keys
    && forall j | j in w.queries && Known(w, j) && Known(v, j) ::
         && (Leftover(v, j) <==> if j in ks then RefusedWaiting(w, j) else Leftover(w, j))
         && (Untold(v, j) <==> j !in ks && Untold(w, j))
  }

  lemma {:induction false} SendEachInv(w: World, c: int, ks: seq<int>, envs: seq<Env>)
    requires Inv(w) && c in w.clients && |envs| == |ks| && NoDup(ks) && FreshEnvs(w, envs)
    requires forall k | k in ks :: k in w.clients[c].pending && Known(w, k)
    ensures Inv(SendEach(w, c, ks, envs)) && SendsAll(w, SendEach(w, c, ks, envs), ks)
    decreases |ks|
  {
    if ks == [] {
      assert KnownAll(w);
    } else {
      var k, v := ks[0], SendOnePending(w, c, ks[0], envs[0]);
      SendOneInv(w, c, k, envs[0]);
      AfterInv(w, v, k, RefusedWaiting(w, k), false);
      assert KnownAll(w) && KnownAll(v);
      SendsOne(w, v, k, RefusedWaiting(w, k));
      hide SendOnePending, Base, Inv, QueryOk, Leftover, Untold;
      LaterEnvs(w, envs, v);
      SendEachInv(v, c, ks[1..], envs[1..]);
      SendsRest(w, v, SendEach(v, c, ks[1..], envs[1..]), ks);
    }
  }

  lemma {:induction false} SendsOne(w: World, v: World, k: int, left: bool)
    requires Inv(w) && After(w, v, k, left, false) && PendingBut(w, v, k) && k in w.queries && left == RefusedWaiting(w, k)
    ensures SendsAll(w, v, [k])
    ensures forall j | j in w.queries && j != k && Known(w, j) && Known(v, j) :: RefusedWaiting(v, j) <==> RefusedWaiting(w, j)
  {
    AfterInv(w, v, k, left, false);
    assert KnownAll(w) && KnownAll(v);
  }

  lemma {:induction false} SendsRest(w: World, v: World, u: World, ks: seq<int>)
    requires ks != [] && NoDup(ks) && SendsAll(w, v, [ks[0]]) && SendsAll(v, u, ks[1..]) && KnownAll(w)
    requires forall j | j in w.queries && j != ks[0] && Known(w, j) && Known(v, j) :: RefusedWaiting(v, j) <==> RefusedWaiting(w, j)
    ensures SendsAll(w, u, ks)
  {
    hide Leftover, Untold, RefusedWaiting;
    assert ks[0] !in ks[1..];
    assert forall j :: j in ks <==> j == ks[0] || j in ks[1..];
    assert forall j | j in w.queries :: Known(v, j);
  }

  lemma LaterEnvs(w: World, envs: seq<Env>, v: World)
    requires envs != [] && FreshEnvs(w, envs) && Uses(w, v, envs[0])
    ensures FreshEnvs(v, envs[1..])
  {
    forall i | 0 <= i < |envs[1..]| ensures GoodEnv(v, envs[1..][i]) {
      assert GoodEnv(w, envs[i + 1]);
    }
  }

  // ---- One step ----

  // The step leaves k with nothing but its timeout: refused while it waits, or taken out
  // by its prompt while the timeout runs.
  predicate Leaves(w: World, e: Event, k: int)
    requires Known(w, k)
  {
    match e
    case SendPending(c, _) => c in w.clients && k in w.clients[c].pending && RefusedWaiting(w, k)
    case PromptOver(j) =>
      var q := w.queries[k];
      j == k && IsActive(w, k) && q.timeout && !q.retry && (q.kept || q.kind.held)
    case _ => false
  }

  // An error ends k, and nothing has been called.
  predicate Silenced(w: World, e: Event, k: int)
    requires Known(w, k)
  {
    e.Failure? && e.id in w.active && w.active[e.id] == k && w.queries[k].calls == [] && Silences(w.queries[k].kind, e.error)
  }

  predicate TimesOut(e: Event, k: int) { e.TimedOut? && e.k == k }

  predicate Prompted(w: World, e: Event, k: int)
    requires Known(w, k)
  {
    e.PromptOver? && e.k == k && Alive(w, k)
  }

  // What the step means for a query that was there before.
  predicate StepFor(w: World, e: Event, v: World, k: int)
    requires Known(w, k) && Known(v, k)
  {
    && (Leftover(v, k) <==> Leaves(w, e, k) || (Leftover(w, k) && !TimesOut(e, k)))
    && (Untold(v, k) <==> Silenced(w, e, k) || (Untold(w, k) && !Prompted(w, e, k)))
  }

  ghost predicate Transition(w: World, e: Event, v: World) {
    && KnownAll(v) && v.clients.Keys == w.clients.Keys && w.queries.Keys <= v.queries.Keys
    && (forall k | Known(w, k) && Known(v, k) :: StepFor(w, e, v, k))
    && forall k | k in v.queries && k !in w.queries && Known(v, k) :: !Leftover(v, k) && !Untold(v, k)
  }

  // A step that concerns query k alone.
  lemma {:induction false} OneTransition(w: World, e: Event, v: World, k: int, left: bool, untold: bool)
    requires Inv(w) && After(w, v, k, left, untold) && k in w.queries && !e.SendPending?
    requires e.PromptOver? || e.TimedOut? ==> e.k == k
    requires e.Failure? && e.id in w.active ==> w.active[e.id] == k
    requires left <==> Leaves(w, e, k) || (Leftover(w, k) && !TimesOut(e, k))
    requires untold <==> Silenced(w, e, k) || (Untold(w, k) && !Prompted(w, e, k))
    ensures Inv(v) && Transition(w, e, v)
  {
    AfterInv(w, v, k, left, untold);
    assert KnownAll(w) && KnownAll(v) && v.queries.Keys == w.queries.Keys && v.clients.Keys == w.clients.Keys;
    assert StepFor(w, e, v, k);
    hide Base, QueryOk, Inv, Others, After, Frame, StepFor;
    forall j | Known(w, j) && Known(v, j) ensures StepFor(w, e, v, j) {
      if j != k {
        UntouchedStep(w, e, v, j);
      }
    }
  }

  lemma UntouchedStep(w: World, e: Event, v: World, j: int)
    requires Known(w, j) && Known(v, j) && (Leftover(v, j) <==> Leftover(w, j)) && (Untold(v, j) <==> Untold(w, j))
    requires !e.SendPending? && (e.PromptOver? || e.TimedOut? ==> e.k != j)
    requires e.Failure? && e.id in w.active ==> w.active[e.id] != j
    ensures StepFor(w, e, v, j)
  {
    hide Leftover, Untold;
  }

  // Nothing but flags of clients, sessions, or the current client changes.
  lemma {:induction false} IdleTransition(w: World, e: Event, v: World)
    requires Inv(w) && Base(v) && (forall k :: Frame(w, v, k)) && v.queries == w.queries
    requires !e.SendPending? && !e.PromptOver? && !e.TimedOut? && !(e.Failure? && e.id in w.active)
    ensures Inv(v) && Transition(w, e, v)
  {
    assert KnownAll(w) && KnownAll(v) && Frame(w, v, 0);
    forall j | j in v.queries ensures QueryOk(v, j) && (Leftover(v, j) <==> Leftover(w, j)) && (Untold(v, j) <==> Untold(w, j)) {
      assert QueryOk(w, j) && Frame(w, v, j + 1) && Others(w, v, j + 1);
    }
    hide Base, QueryOk, Leftover, Untold, StepFor;
    forall j | Known(w, j) && Known(v, j) ensures StepFor(w, e, v, j) {
      UntouchedStep(w, e, v, j);
    }
  }

  lemma {:induction false} StartTransition(w: World, k: int, q: Query, env: Env)
    requires Inv(w) && CanHappen(w, Started(k, q, env))
    ensures var v := Execute(w, k, q, env); Inv(v) && Transition(w, Started(k, q, env), v)
  {
    var u, v := Registered(w, k, q), Execute(w, k, q, env);
    StartInv(w, k, q, env);
    StartOthers(w, u, v, k);
    assert v.queries.Keys == w.queries.Keys + {k} && v.clients.Keys == w.clients.Keys && !Leftover(v, k) && !Untold(v, k);
    hide Execute, Base, QueryOk, Leftover, Untold, StepFor, Others, Frame, After, Inv;
    forall j | Known(w, j) && Known(v, j) ensures StepFor(w, Started(k, q, env), v, j) {
      UntouchedStep(w, Started(k, q, env), v, j);
    }
  }

  lemma {:induction false} StartOthers(w: World, u: World, v: World, k: int)
    requires Inv(w) && Others(w, u, k) && KnownAll(u) && After(u, v, k, false, false)
    requires k !in w.queries && u.queries.Keys == w.queries.Keys + {k}
    ensures Inv(v) && KnownAll(v) && KnownAll(w)
    ensures forall j | j in w.queries && Known(w, j) ::
              Known(v, j) && (Leftover(v, j) <==> Leftover(w, j)) && (Untold(v, j) <==> Untold(w, j))
  {
    assert KnownAll(w) && KnownAll(v);
    hide ActiveOk, IdsOk, CountsOk, PendingOk;
    forall j | j in v.queries && j != k ensures QueryOk(v, j) {
      assert QueryOk(w, j);
    }
  }

  lemma {:induction false} SendPendingTransition(w: World, c: int, envs: seq<Env>)
    requires Inv(w) && CanHappen(w, SendPending(c, envs))
    ensures var v := Step(w, SendPending(c, envs)); Inv(v) && Transition(w, SendPending(c, envs), v)
  {
    var ks := w.clients[c].pending;
    assert KnownAll(w) && PendingOk(w);
    forall k | k in ks ensures Known(w, k) && !Leftover(w, k) && !Untold(w, k) {
      assert IsPending(w, k);
    }
    hide Base, QueryOk, Leftover, Untold, RefusedWaiting;
    SendEachInv(w, c, ks, envs);
  }

  lemma {:induction false} StepInv(w: World, e: Event)
    requires Inv(w) && CanHappen(w, e)
    ensures Inv(Step(w, e)) && Transition(w, e, Step(w, e))
  {
    match e
    case Started(k, q, env) => StartTransition(w, k, q, env);
    case SendPending(c, envs) => SendPendingTransition(w, c, envs);
    case CleanupDue(c) => ClientTransition(w, e, c, CleanupExpired(w, c).clients[c]);
    case ClientChanges(c, s) => ClientTransition(w, e, c, s);
    case CurrentChanges(c) => CurrentTransition(w, c);
    case TimedOut(k, env) => TimerTransition(w, e, k, env);
    case RetryOver(k, env) => TimerTransition(w, e, k, env);
    case PromptOver(k) => PromptTransition(w, k);
    case _ => MessageTransition(w, e);
  }

  lemma {:induction false} ClientTransition(w: World, e: Event, c: int, s: Client)
    requires Inv(w) && c in w.clients && s.count == w.clients[c].count && s.pending == w.clients[c].pending
    requires e.CleanupDue? || e.ClientChanges?
    ensures Inv(SetClient(w, c, s)) && Transition(w, e, SetClient(w, c, s))
  {
    ClientKeeps(w, c, s);
    hide Base, Frame;
    IdleTransition(w, e, SetClient(w, c, s));
  }

  lemma {:induction false} CurrentTransition(w: World, c: int)
    requires Inv(w)
    ensures Inv(w.(current := c)) && Transition(w, CurrentChanges(c), w.(current := c))
  {
    var v := w.(current := c);
    assert KnownAll(v);
    SameEntries(w, v);
    assert forall k :: Frame(w, v, k);
    assert Base(v);
    hide Base, Frame;
    IdleTransition(w, CurrentChanges(c), v);
  }

  lemma {:induction false} TimerTransition(w: World, e: Event, k: int, env: Env)
    requires Inv(w) && CanHappen(w, e) && ((e.TimedOut? && e.k == k && e.env == env) || (e.RetryOver? && e.k == k && e.env == env))
    ensures Inv(Step(w, e)) && Transition(w, e, Step(w, e))
  {
    assert Known(w, k) && QueryOk(w, k) by {
      assert KnownAll(w);
    }
    hide Base, TimeoutAlarm, RetryDue, After, Transition;
    if e.TimedOut? {
      TimeoutInv(w, k, env);
    } else {
      RetryInv(w, k, env);
    }
    OneTransition(w, e, Step(w, e), k, false, false);
  }

  lemma {:induction false} PromptTransition(w: World, k: int)
    requires Inv(w) && CanHappen(w, PromptOver(k))
    ensures Inv(Step(w, PromptOver(k))) && Transition(w, PromptOver(k), Step(w, PromptOver(k)))
  {
    assert Known(w, k) && QueryOk(w, k) by {
      assert KnownAll(w);
    }
    var q := w.queries[k];
    hide Base, PasswordDone, After, Transition;
    PromptInv(w, k);
    OneTransition(w, PromptOver(k), PasswordDone(w, k), k,
                  q.timeout && !IsPending(w, k) && !q.retry && (q.kept || q.kind.held), Untold(w, k) && !Alive(w, k));
  }

  // What the server sends concerns the query that is active under its id, if any.
  lemma {:induction false} MessageTransition(w: World, e: Event)
    requires Inv(w) && CanHappen(w, e)
    requires e.Answer? || e.Failure? || e.Restart? || e.BadMessage? || e.Acknowledged?
    ensures Inv(Step(w, e)) && Transition(w, e, Step(w, e))
  {
    assert KnownAll(w) && ActiveOk(w);
    if e.id in w.active {
      var k := w.active[e.id];
      assert IsActive(w, k) && Known(w, k) && QueryOk(w, k);
      hide Base, HandleResult, HandleError, Alarm, Regen, Ack, After, Transition;
      var silenced := Silenced(w, e, k);
      match e {
        case Answer(_) => AnswerInv(w, k);
        case Failure(_, error) => FailureInv(w, k, error);
        case Restart(_, env) => AlarmInv(w, k, env);
        case BadMessage(_) => RegenInv(w, k);
        case Acknowledged(_) => AckInv(w, k);
      }
      OneTransition(w, e, Step(w, e), k, false, silenced);
    } else {
      IdleTransition(w, e, w);
    }
  }

  // ---- Runs ----

  // Before the first query.
  predicate Idle(w: World) {
    w.queries == map[] && w.active == map[] && forall c | c in w.clients :: w.clients[c].count == 0 && w.clients[c].pending == []
  }

  predicate IsRun(ws: seq<World>, es: seq<Event>) {
    |ws| == |es| + 1 && Idle(ws[0]) && forall i | 0 <= i < |es| :: Happens(ws, es, i)
  }

  predicate Happens(ws: seq<World>, es: seq<Event>, i: nat)
    requires i < |es| == |ws| - 1
  {
    CanHappen(ws[i], es[i]) && ws[i + 1] == Step(ws[i], es[i])
  }

  lemma {:induction false} RunInv(ws: seq<World>, es: seq<Event>, n: nat)
    requires IsRun(ws, es) && n <= |es|
    ensures Inv(ws[n])
    ensures n > 0 ==> Inv(ws[n - 1]) && Transition(ws[n - 1], es[n - 1], ws[n])
  {
    if n == 0 {
      forall c | c in ws[0].clients ensures ws[0].clients[c].count == |Owned(ws[0], c)| {
        assert Owned(ws[0], c) == {};
      }
    } else {
      RunInv(ws, es, n - 1);
      hide Inv, Transition, Step, CanHappen;
      assert Happens(ws, es, n - 1);
      StepInv(ws[n - 1], es[n - 1]);
    }
  }

  // ---- Results ----

  // After any run the count of a client is the number of entries in the active map
  // that belong to its queries.
  lemma {:induction false} CountsAreExact(ws: seq<World>, es: seq<Event>, n: nat, c: int)
    requires IsRun(ws, es) && n <= |es| && c in ws[n].clients
    ensures ws[n].clients[c].count == |Owned(ws[n], c)|
  {
    RunInv(ws, es, n);
  }

  // No query is both active and pending. An active one has its timeout running or a
  // prompt open, a pending one no retry timer, and its timeout runs if its class wants
  // it. On its own a timeout runs only if someone keeps the object of the query. Nothing
  // is called as long as a query is in play, and one thing in the end, unless a timeout
  // left running adds a second; this goes for all queries but the one with prompts.
  lemma {:induction false} OneWayOrAnother(ws: seq<World>, es: seq<Event>, n: nat, k: int)
    requires IsRun(ws, es) && n <= |es| && k in ws[n].queries
    ensures var w := ws[n];
            && Known(w, k) && !(IsActive(w, k) && IsPending(w, k))
            && var q := w.queries[k];
            && (IsActive(w, k) ==> q.timeout || (q.asking > 0 && q.kind.signsIn))
            && (IsPending(w, k) ==> !q.retry && (q.timeout <==> q.kind.timesWaiting))
            && (Leftover(w, k) ==> q.kind.timesWaiting && (q.kept || q.kind.held))
            && (!q.kind.signsIn ==>
                  if InPlay(w, k) then q.calls == []
                  else if q.timeout then q.calls == [OnError]
                  else |q.calls| <= 1 || q.calls == [OnError, OnTimeout])
  {
    RunInv(ws, es, n);
    assert KnownAll(ws[n]) && QueryOk(ws[n], k);
  }

  lemma {:induction false} RunGrows(ws: seq<World>, es: seq<Event>, i: nat, n: nat)
    requires IsRun(ws, es) && i <= n <= |es|
    ensures ws[i].queries.Keys <= ws[n].queries.Keys
    decreases n
  {
    assert |ws| == |es| + 1;
    hide *;
    if i < n {
      RunGrows(ws, es, i, n - 1);
      RunInv(ws, es, n);
      TransitionGrows(ws[n - 1], es[n - 1], ws[n]);
    }
  }

  lemma TransitionGrows(w: World, e: Event, v: World)
    requires Transition(w, e, v)
    ensures w.queries.Keys <= v.queries.Keys
  {
  }

  // One of the first n steps has left k with nothing but its timeout, which has not
  // gone off since.
  ghost predicate WasLeft(ws: seq<World>, es: seq<Event>, n: nat, k: int)
    requires n <= |es| < |ws|
  {
    exists i | 0 <= i < n ::
      Knows(ws[i], k) && Leaves(ws[i], es[i], k) && forall j | i < j < n :: !TimesOut(es[j], k)
  }

  predicate Knows(w: World, k: int) { k in w.queries && Known(w, k) }

  // In every run a query that can neither be sent nor be answered any more has its
  // timeout running if and only if it was refused while it was waiting, or taken out by
  // its prompt, with its object kept alive, and the timeout has not gone off since.
  lemma {:induction false} TimeoutLeftRunning(ws: seq<World>, es: seq<Event>, n: nat, k: int)
    requires IsRun(ws, es) && n <= |es| && Knows(ws[n], k)
    ensures Leftover(ws[n], k) <==> WasLeft(ws, es, n, k)
  {
    assert n > 0 && |ws| == |es| + 1;
    RunInv(ws, es, n);
    RunInv(ws, es, n - 1);
    assert KnownAll(ws[n - 1]);
    hide Inv, Leftover, Untold, Leaves, Silenced, Prompted, Step, CanHappen;
    var w, e := ws[n - 1], es[n - 1];
    if k in w.queries {
      TimeoutLeftRunning(ws, es, n - 1, k);
      hide IsRun;
      WasLeftNext(ws, es, n, k);
    } else {
      forall i | 0 <= i < n ensures !Knows(ws[i], k) {
        RunGrows(ws, es, i, n - 1);
      }
    }
  }

  lemma {:induction false} WasLeftNext(ws: seq<World>, es: seq<Event>, n: nat, k: int)
    requires 0 < n <= |es| < |ws| && Knows(ws[n - 1], k)
    ensures WasLeft(ws, es, n, k) <==>
            Leaves(ws[n - 1], es[n - 1], k) || (WasLeft(ws, es, n - 1, k) && !TimesOut(es[n - 1], k))
  {
    hide Leaves;
  }

  // An error has ended k with nothing called, and no prompt has called it since.
  ghost predicate WasSilenced(ws: seq<World>, es: seq<Event>, n: nat, k: int)
    requires n <= |es| < |ws|
  {
    exists i | 0 <= i < n ::
      Knows(ws[i], k) && Silenced(ws[i], es[i], k)
      && forall j | i < j < n :: Knows(ws[j], k) ==> !Prompted(ws[j], es[j], k)
  }

  // In every run a query ends with neither answer, error nor timeout passed on, if and
  // only if an error has come that is handled without another try: a migration or a
  // recovery for a query that does not want one, or a needed password while another
  // query asks for it. Answers, timeouts and refusals never do that.
  lemma {:induction false} DroppedSilently(ws: seq<World>, es: seq<Event>, n: nat, k: int)
    requires IsRun(ws, es) && n <= |es| && Knows(ws[n], k)
    ensures Untold(ws[n], k) <==> WasSilenced(ws, es, n, k)
  {
    assert n > 0 && |ws| == |es| + 1;
    RunInv(ws, es, n);
    RunInv(ws, es, n - 1);
    assert KnownAll(ws[n - 1]);
    hide Inv, Leftover, Untold, Leaves, Silenced, Prompted, Step, CanHappen;
    var w, e := ws[n - 1], es[n - 1];
    if k in w.queries {
      DroppedSilently(ws, es, n - 1, k);
      hide IsRun;
      WasSilencedNext(ws, es, n, k);
    } else {
      forall i | 0 <= i < n ensures !Knows(ws[i], k) {
        RunGrows(ws, es, i, n - 1);
      }
    }
  }

  lemma {:induction false} WasSilencedNext(ws: seq<World>, es: seq<Event>, n: nat, k: int)
    requires 0 < n <= |es| < |ws| && Knows(ws[n - 1], k)
    ensures WasSilenced(ws, es, n, k) <==>
            Silenced(ws[n - 1], es[n - 1], k) || (WasSilenced(ws, es, n - 1, k) && !Prompted(ws[n - 1], es[n - 1], k))
  {
    hide Silenced, Prompted;
  }

  // ---- Such runs ----

  const NoEnv: Env := Env(true, None, 1)

  function OneQuery(q: Query, s: Client, active: map<int, int>, used: set<int>): World {
    World(map[0 := q], map[1 := s], active, 1, used)
  }

  // A client that is not configured yet.
  function NewClient(pending: seq<int>): Client { Client(0, pending, Some(1), false, true, false, false) }

  function TimedQuery(timeout: bool, calls: seq<Call>): Query {
    Query(Kind(0, false, false, false, true, true, false, true), 0, 1, 0, false, timeout, false, false, 0, calls)
  }

  // A query has to wait, its client logs out, the list is sent, and the timeout goes off.
  function TwiceEvents(): seq<Event> {
    [ Started(0, TimedQuery(false, []), NoEnv), ClientChanges(1, NewClient([0]).(loggingOut := true)),
      SendPending(1, [NoEnv]), TimedOut(0, NoEnv) ]
  }

  function TwiceRun(): seq<World> {
    [ World(map[], map[1 := NewClient([])], map[], 1, {}),
      OneQuery(TimedQuery(true, []), NewClient([0]), map[], {}),
      OneQuery(TimedQuery(true, []), NewClient([0]).(loggingOut := true), map[], {}),
      OneQuery(TimedQuery(true, [OnError]), NewClient([]).(loggingOut := true), map[], {}),
      OneQuery(TimedQuery(false, [OnError, OnTimeout]), NewClient([]).(loggingOut := true), map[], {}) ]
  }

  // In this run the timeout is left running after the refusal, and then it is told too.
  lemma {:induction false} ToldTwice()
    ensures IsRun(TwiceRun(), TwiceEvents())
    ensures Leftover(TwiceRun()[3], 0) && TwiceRun()[4].queries[0].calls == [OnError, OnTimeout]
  {
    var (ws, es) := (TwiceRun(), TwiceEvents());
    TwiceStarted();
    TwiceRefused();
    TwiceTimed();
    assert Leftover(ws[3], 0);
    assert |ws| == 5 && |es| == 4 && Idle(ws[0]);
    hide *;
    AllHappen(ws, es);
  }

  lemma AllHappen(ws: seq<World>, es: seq<Event>)
    requires |ws| == 5 && |es| == 4 && Idle(ws[0])
    requires Happens(ws, es, 0) && Happens(ws, es, 1) && Happens(ws, es, 2) && Happens(ws, es, 3)
    ensures IsRun(ws, es)
  {
    hide Happens, Idle;
  }

  lemma {:induction false} TwiceStarted()
    ensures Happens(TwiceRun(), TwiceEvents(), 0) && Happens(TwiceRun(), TwiceEvents(), 1)
  {
    var (w, q) := (TwiceRun()[0], TimedQuery(false, []));
    var r := Registered(w, 0, q);
    assert r == OneQuery(q, NewClient([]), map[], {}) && [] + [0] == [0];
    assert WithSession(r, 0, NoEnv) == r && MustWait(r, 0, NoEnv);
    assert SetQuery(r, 0, TimedQuery(true, [])) == OneQuery(TimedQuery(true, []), NewClient([]), map[], {});
    assert Wait(r, 0) == TwiceRun()[1];
  }

  lemma {:induction false} TwiceTimed()
    ensures Happens(TwiceRun(), TwiceEvents(), 3)
  {
    assert [OnError] + [OnTimeout] == [OnError, OnTimeout] && Without([], 0) == [];
  }

  lemma {:induction false} TwiceRefused()
    ensures Happens(TwiceRun(), TwiceEvents(), 2)
  {
    var (w, v) := (TwiceRun()[2], TwiceRun()[3]);
    assert Without([0], 0) == Without([], 0) == [] && [] + [OnError] == [OnError];
    var t := Tell(w, 0, OnError);
    assert t == OneQuery(TimedQuery(true, [OnError]), NewClient([0]).(loggingOut := true), map[], {});
    assert RemovePending(t, 1, 0) == v;
    assert SendOnePending(w, 1, 0, NoEnv) == v;
    assert SendEach(w, 1, [0], [NoEnv]) == SendEach(v, 1, [], []) == v;
  }

  function PlainQuery(msgId: int, timeout: bool, session: int): Query {
    Query(Kind(0, false, false, true, false, false, false, false), msgId, 1, session, false, timeout, false, false, 0, [])
  }

  function OpenClient(count: nat): Client { Client(count, [], Some(1), true, true, false, false) }

  // A query that wants no retry is sent and meets an internal failure.
  function SilentEvents(): seq<Event> { [Started(0, PlainQuery(0, false, 0), Env(true, Some(4), 1)), Failure(4, Internal)] }

  function SilentRun(): seq<World> {
    [ World(map[], map[1 := OpenClient(0)], map[], 1, {}),
      OneQuery(PlainQuery(4, true, 1), OpenClient(1), map[4 := 0], {4}),
      OneQuery(PlainQuery(4, false, 1), OpenClient(0), map[], {4}) ]
  }

  // In this run nobody is ever told.
  lemma {:induction false} ToldNever()
    ensures IsRun(SilentRun(), SilentEvents()) && Untold(SilentRun()[2], 0)
  {
    var (ws, es) := (SilentRun(), SilentEvents());
    assert Happens(ws, es, 0) && Happens(ws, es, 1);
  }

  // The cleanup timer takes the session of a client exactly when none of its queries
  // is active or pending.
  lemma {:induction false} CleanupSparesTheBusy(ws: seq<World>, es: seq<Event>, n: nat, c: int)
    requires IsRun(ws, es) && n <= |es| && CanHappen(ws[n], CleanupDue(c))
    ensures var (w, v) := (ws[n], Step(ws[n], CleanupDue(c)));
            && (Busy(w, c) ==> v.clients[c].session == w.clients[c].session)
            && (!Busy(w, c) ==> v.clients[c].session == None)
  {
    RunInv(ws, es, n);
    BusyCounts(ws[n], c);
  }

  lemma {:induction false} BusyCounts(w: World, c: int)
    requires Base(w) && c in w.clients
    ensures Busy(w, c) <==> w.clients[c].count > 0 || w.clients[c].pending != []
  {
    if Owned(w, c) != {} {
      var id := ElementOf(Owned(w, c));
      assert IsActive(w, w.active[id]);
    }
    if w.clients[c].pending != [] {
      assert w.clients[c].pending[0] in w.clients[c].pending;
      assert IsPending(w, w.clients[c].pending[0]);
    }
    if k :| k in w.queries && w.queries[k].client == c && IsActive(w, k) {
      assert MsgId(w.queries[k]) in Owned(w, c);
    }
  }

  ghost predicate Busy(w: World, c: int) {
    exists k | k in w.queries && Known(w, k) && w.queries[k].client == c :: IsActive(w, k) || IsPending(w, k)
  }

  // ---- A message id used twice ----

  // Should a message get an id that another query is active under, the entry is taken
  // over without counting: the counts stay exact if and only if both have one client.
  lemma {:induction false} CollidingId(w: World, k: int)
    requires KnownAll(w) && ActiveOk(w) && CountsOk(w) && k in w.queries
    requires MsgId(w.queries[k]) in w.active && w.active[MsgId(w.queries[k])] != k
    ensures CountsOk(AddActive(w, k)) <==>
            w.queries[w.active[MsgId(w.queries[k])]].client == w.queries[k].client
  {
    var id := MsgId(w.queries[k]);
    var c, d := w.queries[w.active[id]].client, w.queries[k].client;
    var v := AddActive(w, k);
    forall x ensures Owned(v, x) == (if x == d then Owned(w, x) + {id} else Owned(w, x) - {id}) {
    }
    assert id in Owned(w, c) && (c != d ==> id !in Owned(w, d));
    if c == d {
      forall x | x in v.clients ensures v.clients[x].count == |Owned(v, x)| {
        assert Owned(v, x) == Owned(w, x);
      }
    } else {
      assert |Owned(v, d)| == |Owned(w, d)| + 1;
    }
  }
}
