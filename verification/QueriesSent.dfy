/** Which queries go out and which have to wait, in every run (src/query/query.cpp,
    src/mtproto_client.cpp). The results speak of the fields of a client and its queries
    only, not of the check that the code makes. */
module QueriesSent {
  import opened Queries
  import opened QueriesRuns
  import opened QuerySteps
  import opened Wrappers

  // The client of the query has a session, is configured, and is logged in; a forced
  // query needs neither of the last two, one that logs in not the last.
  predicate ClientReady(s: Client, d: Kind) {
    s.session.Some? && (s.configured || d.force) && (s.loggedIn || d.login || d.force)
  }

  predicate ReadyFor(w: World, k: int) {
    k in w.queries && w.queries[k].client in w.clients && ClientReady(w.clients[w.queries[k].client], w.queries[k].kind)
  }

  // The environments in which an event can send a message.
  function EnvsOf(e: Event): seq<Env> {
    match e
    case Started(_, _, env) => [env]
    case Restart(_, env) => [env]
    case TimedOut(_, env) => [env]
    case RetryOver(_, env) => [env]
    case SendPending(_, envs) => envs
    case _ => []
  }

  // Message id of query k can have gone out in env.
  predicate GoesOut(v: World, k: int, id: int, env: Env) {
    ReadyFor(v, k) && env.connected && (env.id == Some(id) || v.queries[k].kind.override == id)
  }

  // ---- What a step leaves as it was ----

  // Sessions may be created, and no other flag changes; queries keep kind and client.
  ghost predicate Settled(w: World, v: World) {
    && v.clients.Keys == w.clients.Keys
    && (forall c | c in w.clients :: ClientSettled(w.clients[c], v.clients[c]))
    && forall k | k in w.queries ::
         k in v.queries && v.queries[k].kind == w.queries[k].kind && v.queries[k].client == w.queries[k].client
  }

  predicate ClientSettled(s: Client, t: Client) {
    && t.configured == s.configured && t.loggedIn == s.loggedIn && t.loggingOut == s.loggingOut
    && (s.session.Some? ==> t.session == s.session)
  }

  lemma QuerySettles(w: World, k: int, q: Query)
    requires Known(w, k) && q.kind == w.queries[k].kind && q.client == w.queries[k].client
    ensures Settled(w, SetQuery(w, k, q)) && Known(SetQuery(w, k, q), k)
  {
  }

  lemma ClientSettles(w: World, c: int, s: Client)
    requires c in w.clients && ClientSettled(w.clients[c], s)
    ensures Settled(w, SetClient(w, c, s))
  {
  }

  lemma SettledTrans(w: World, u: World, v: World)
    requires Settled(w, u) && Settled(u, v)
    ensures Settled(w, v)
  {
  }

  // Entries of the active map may have gone, and none has come.
  predicate FewerActive(w: World, v: World) { forall id | id in v.active :: id in w.active && v.active[id] == w.active[id] }

  lemma RemoveActiveSettles(w: World, k: int)
    requires Known(w, k)
    ensures var v := Deactivate(w, k); Settled(w, v) && Known(v, k) && FewerActive(w, v) && v.queries == w.queries
  {
    var c := w.queries[k].client;
    ClientSettles(w, c, Decrease(w.clients[c], w.current == c));
  }

  lemma DeactivateSettles(w: World, k: int)
    requires Known(w, k)
    ensures var v := Deactivate(ClearTimers(w, k), k); Settled(w, v) && Known(v, k) && FewerActive(w, v)
  {
    var u := ClearTimers(w, k);
    QuerySettles(w, k, u.queries[k]);
    RemoveActiveSettles(u, k);
    hide Deactivate, Settled;
    SettledTrans(w, u, Deactivate(u, k));
  }

  lemma RefusedSettles(w: World, k: int)
    requires Known(w, k)
    ensures var v := HandleError(w, k, Refused); Settled(w, v) && FewerActive(w, v)
  {
    DeactivateSettles(w, k);
    var u := Deactivate(ClearTimers(w, k), k);
    assert HandleError(w, k, Refused) == Tell(u, k, OnError);
    QuerySettles(u, k, Tell(u, k, OnError).queries[k]);
    hide Deactivate, Settled, HandleError;
    SettledTrans(w, u, Tell(u, k, OnError));
  }

  lemma {:induction false} SendSettles(w: World, k: int, env: Env)
    requires Known(w, k)
    ensures Settled(w, Send(w, k, env))
    ensures forall id | id in Send(w, k, env).active && id !in w.active ::
              Send(w, k, env).active[id] == k && CanSend(w, k, env)
              && (env.id == Some(id) || w.queries[k].kind.override == id)
  {
    if !CanSend(w, k, env) {
      var u := SetQuery(w, k, w.queries[k].(acked := false, msgId := 0));
      QuerySettles(w, k, u.queries[k]);
      RefusedSettles(u, k);
      hide HandleError, Settled;
      SettledTrans(w, u, HandleError(u, k, Refused));
    }
  }

  // A message goes out only where it may.
  lemma {:induction false} SendOrWaitSettles(w: World, k: int, env: Env)
    requires Known(w, k)
    ensures Settled(w, SendOrWait(w, k, env)) && SendsOnly(w, SendOrWait(w, k, env), k, env)
  {
    if LoggingOut(w, k) {
      QuerySettles(w, k, Tell(w, k, OnError).queries[k]);
    } else if MustWait(w, k, env) {
      WaitSettles(w, k, env);
    } else {
      assert WithSession(w, k, env) == w;
      SendSettles(w, k, env);
      hide Send;
    }
  }

  lemma WaitSettles(w: World, k: int, env: Env)
    requires Known(w, k)
    ensures var v := Wait(WithSession(w, k, env), k); Settled(w, v) && v.active == w.active
  {
    var u, q := WithSession(w, k, env), w.queries[k];
    SessionSettles(w, k, env);
    var t := SetQuery(u, k, q.(timeout := q.timeout || q.kind.timesWaiting));
    QuerySettles(u, k, t.queries[k]);
    AddPendingSettles(t, k);
    hide Settled, AddPending, WithSession;
    SettledTrans(w, u, t);
    SettledTrans(w, t, AddPending(t, k));
  }

  lemma SessionSettles(w: World, k: int, env: Env)
    requires Known(w, k)
    ensures var u := WithSession(w, k, env);
            Settled(w, u) && Known(u, k) && u.active == w.active && u.queries == w.queries
  {
    var c := w.queries[k].client;
    if w.clients[c].session.None? {
      ClientSettles(w, c, w.clients[c].(session := Some(env.session)));
    }
  }

  lemma AddPendingSettles(t: World, k: int)
    requires Known(t, k)
    ensures Settled(t, AddPending(t, k)) && AddPending(t, k).active == t.active
  {
    var c := t.queries[k].client;
    if k !in t.clients[c].pending {
      ClientSettles(t, c, t.clients[c].(pending := t.clients[c].pending + [k]));
    }
  }

  // The only message that goes out is one of query k.
  predicate SendsOnly(w: World, v: World, k: int, env: Env) {
    forall id | id in v.active && id !in w.active :: v.active[id] == k && GoesOut(v, k, id, env)
  }

  lemma {:induction false} AlarmSettles(w: World, k: int, env: Env)
    requires Known(w, k)
    ensures SendsOnly(w, Alarm(w, k, env), k, env)
  {
    DeactivateSettles(w, k);
    SendOrWaitSettles(Deactivate(ClearTimers(w, k), k), k, env);
    hide Deactivate, SendOrWait, GoesOut;
  }

  lemma {:induction false} TimeoutSettles(w: World, k: int, env: Env)
    requires Known(w, k)
    ensures SendsOnly(w, TimeoutAlarm(w, k, env), k, env)
  {
    if w.queries[k].kind.retriesTimeout {
      AlarmSettles(w, k, env);
    } else {
      DeactivateSettles(Tell(w, k, OnTimeout), k);
      TimeoutParts(w, k, env);
      hide Deactivate, TimeoutAlarm;
    }
  }

  // Without a message that goes out no id becomes active: an answer and a prompt take
  // one off, an error may put back the one it concerns.
  lemma {:induction false} OthersActivateNothing(w: World, e: Event, id: int)
    requires Inv(w) && CanHappen(w, e) && EnvsOf(e) == [] && !e.SendPending?
    requires id in Step(w, e).active
    ensures id in w.active
  {
    if e.Failure? && Concerns(w, e.id) {
      assert MsgId(w.queries[w.active[e.id]]) == e.id;
      ErrorActivates(w, w.active[e.id], e.error, id);
    }
    hide HandleError;
  }

  lemma ErrorActivates(w: World, k: int, e: Error, id: int)
    requires Known(w, k) && (e.Migrate? ==> e.client in w.clients) && id in HandleError(w, k, e).active
    ensures id in w.active || id == MsgId(w.queries[k])
  {
    DeactivateSettles(w, k);
    assert MsgId(Deactivate(ClearTimers(w, k), k).queries[k]) == MsgId(w.queries[k]);
    hide Deactivate;
  }

  // ---- Sending the list ----

  lemma {:induction false} SendOneSettles(w: World, c: int, k: int, env: Env)
    requires Known(w, k) && c in w.clients
    ensures Settled(w, SendOnePending(w, c, k, env)) && SendsOnly(w, SendOnePending(w, c, k, env), k, env)
  {
    SendOrWaitSettles(w, k, env);
    SendOrWaitKeepsKnown(w, k, env);
    hide SendOrWait, Settled, GoesOut;
    if LoggingOut(w, k) || !MustWait(w, k, env) {
      var u, v := SendOrWait(w, k, env), SendOnePending(w, c, k, env);
      TakeOffSettles(u, c, k);
      SettledTrans(w, u, v);
      forall id | id in v.active && id !in w.active ensures v.active[id] == k && GoesOut(v, k, id, env) {
        StaysReady(u, v, k, id, env);
      }
    }
  }

  lemma TakeOffSettles(u: World, c: int, k: int)
    requires Known(u, k) && c in u.clients
    ensures var v := Bury(RemovePending(u, c, k), k); Settled(u, v) && v.active == u.active
  {
    var r := RemovePending(u, c, k);
    ClientSettles(u, c, r.clients[c]);
    QuerySettles(r, k, ClearTimers(r, k).queries[k]);
    QuerySettles(r, k, r.queries[k]);
    assert r == SetQuery(r, k, r.queries[k]);
    hide Settled;
    SettledTrans(u, r, Bury(r, k));
  }

  lemma StaysReady(u: World, v: World, k: int, id: int, env: Env)
    requires Settled(u, v) && GoesOut(u, k, id, env)
    ensures GoesOut(v, k, id, env)
  {
  }

  // Everything about query j is as before.
  predicate Untouched(w: World, v: World, j: int)
    requires Known(w, j)
  {
    Known(v, j) && v.queries[j] == w.queries[j] && (IsActive(v, j) <==> IsActive(w, j)) && (IsPending(v, j) <==> IsPending(w, j))
  }

  // One round on the list, with what the rounds behind it rely on.
  lemma {:induction false} RoundKeeps(w: World, c: int, ks: seq<int>, envs: seq<Env>)
    requires Inv(w) && c in w.clients && |envs| == |ks| > 0 && NoDup(ks) && FreshEnvs(w, envs)
    requires forall k | k in ks :: k in w.clients[c].pending && Known(w, k)
    ensures var v := SendOnePending(w, c, ks[0], envs[0]);
            && Inv(v) && c in v.clients && NoDup(ks[1..]) && FreshEnvs(v, envs[1..])
            && (forall k | k in ks[1..] :: k in v.clients[c].pending && Known(v, k))
            && forall j | j in w.queries && Known(w, j) && j != ks[0] :: Untouched(w, v, j)
  {
    var k, v := ks[0], SendOnePending(w, c, ks[0], envs[0]);
    SendOneInv(w, c, k, envs[0]);
    AfterInv(w, v, k, RefusedWaiting(w, k), false);
    LaterEnvs(w, envs, v);
    assert KnownAll(v);
    hide SendOnePending, Base, Inv, QueryOk, Leftover, Untold;
  }

  lemma {:induction false} ListLeaves(w: World, c: int, ks: seq<int>, envs: seq<Env>, j: int)
    requires Inv(w) && c in w.clients && |envs| == |ks| && NoDup(ks) && FreshEnvs(w, envs)
    requires forall k | k in ks :: k in w.clients[c].pending && Known(w, k)
    requires Known(w, j)
    ensures var v := SendEach(w, c, ks, envs); Inv(v) && Settled(w, v) && (j !in ks ==> Untouched(w, v, j))
    decreases |ks|
  {
    if ks != [] {
      var u := SendOnePending(w, c, ks[0], envs[0]);
      RoundKeeps(w, c, ks, envs);
      SendOneSettles(w, c, ks[0], envs[0]);
      assert Known(u, j);
      hide SendOnePending, Inv, Settled;
      ListLeaves(u, c, ks[1..], envs[1..], j);
      SettledTrans(w, u, SendEach(u, c, ks[1..], envs[1..]));
    }
  }

  // The i-th query of the list is the one message id belongs to.
  ghost predicate SentFrom(v: World, ks: seq<int>, envs: seq<Env>, id: int) {
    |envs| == |ks| && exists i | 0 <= i < |ks| :: id in v.active && v.active[id] == ks[i] && GoesOut(v, ks[i], id, envs[i])
  }

  lemma {:induction false} ListSends(w: World, c: int, ks: seq<int>, envs: seq<Env>, id: int)
    requires Inv(w) && c in w.clients && |envs| == |ks| && NoDup(ks) && FreshEnvs(w, envs)
    requires forall k | k in ks :: k in w.clients[c].pending && Known(w, k)
    requires id in SendEach(w, c, ks, envs).active && id !in w.active
    ensures SentFrom(SendEach(w, c, ks, envs), ks, envs, id)
    decreases |ks|
  {
    var u := SendOnePending(w, c, ks[0], envs[0]);
    var v := SendEach(u, c, ks[1..], envs[1..]);
    RoundKeeps(w, c, ks, envs);
    SendOneSettles(w, c, ks[0], envs[0]);
    if id in u.active {
      assert Known(u, ks[0]) && IsActive(u, ks[0]) && MsgId(u.queries[ks[0]]) == id by {
        assert ActiveOk(u) && KnownAll(u);
      }
      assert ks[0] !in ks[1..];
      hide Inv, Settled, SendOnePending, GoesOut;
      ListLeaves(u, c, ks[1..], envs[1..], ks[0]);
      StaysReady(u, v, ks[0], id, envs[0]);
    } else {
      hide Inv, Settled, SendOnePending, GoesOut;
      ListSends(u, c, ks[1..], envs[1..], id);
      var i :| 0 <= i < |ks[1..]| && id in v.active && v.active[id] == ks[1..][i] && GoesOut(v, ks[1..][i], id, envs[1..][i]);
      assert ks[1..][i] == ks[i + 1] && envs[1..][i] == envs[i + 1];
    }
  }

  // ---- Every run ----

  lemma {:induction false} StepSends(w: World, e: Event, id: int)
    requires Inv(w) && CanHappen(w, e) && id in Step(w, e).active && id !in w.active
    ensures var v := Step(w, e); exists env | env in EnvsOf(e) :: GoesOut(v, v.active[id], id, env)
  {
    assert KnownAll(w);
    match e
    case Started(k, q, env) => SendOrWaitSettles(Registered(w, k, q), k, env);
    case Restart(i, env) => AlarmSettles(w, w.active[i], env);
    case TimedOut(k, env) => TimeoutSettles(w, k, env);
    case RetryOver(k, env) => AlarmSettles(SetQuery(w, k, w.queries[k].(kept := false)), k, env);
    case SendPending(c, envs) => ListStepSends(w, c, envs, id);
    case _ => OthersActivateNothing(w, e, id);
  }

  lemma {:induction false} ListStepSends(w: World, c: int, envs: seq<Env>, id: int)
    requires Inv(w) && CanHappen(w, SendPending(c, envs))
    requires id in Step(w, SendPending(c, envs)).active && id !in w.active
    ensures var v := Step(w, SendPending(c, envs)); exists env | env in envs :: GoesOut(v, v.active[id], id, env)
  {
    var ks := w.clients[c].pending;
    assert KnownAll(w) && PendingOk(w);
    hide Base, GoesOut;
    ListSends(w, c, ks, envs, id);
    var v := SendEach(w, c, ks, envs);
    var i :| 0 <= i < |ks| && id in v.active && v.active[id] == ks[i] && GoesOut(v, ks[i], id, envs[i]);
    assert envs[i] in envs;
  }

  // In every run: where a message id is active after a step and was not before, the step
  // had a connection for it, and the client of its query has a session, is configured
  // unless the query is forced, and is logged in unless it is forced or logs in.
  lemma {:induction false} OnlyReadyQueriesGoOut(ws: seq<World>, es: seq<Event>, n: nat, id: int)
    requires IsRun(ws, es) && n < |es| && id in ws[n + 1].active && id !in ws[n].active
    ensures var v := ws[n + 1];
            exists env | env in EnvsOf(es[n]) :: GoesOut(v, v.active[id], id, env)
  {
    RunInv(ws, es, n);
    hide Inv, Step, CanHappen, EnvsOf, GoesOut;
    assert Happens(ws, es, n);
    StepSends(ws[n], es[n], id);
  }

  // The step sends query k for the first time or once more.
  predicate Tries(w: World, e: Event, k: int, env: Env) {
    match e
    case Started(j, _, now) => j == k && now == env
    case Restart(id, now) => id in w.active && w.active[id] == k && now == env
    case TimedOut(j, now) => j == k && now == env && k in w.queries && w.queries[k].kind.retriesTimeout
    case RetryOver(j, now) => j == k && now == env
    case _ => false
  }

  predicate TurnedAway(s: Client, d: Kind) { s.loggingOut && !d.force }

  predicate Listed(w: World, k: int) { exists c | c in w.clients :: k in w.clients[c].pending }

  predicate Sent(w: World, k: int) { exists id | id in w.active :: w.active[id] == k }

  // What has become of query k, tried in env, when its client was s.
  predicate Outcome(s: Client, v: World, k: int, env: Env) {
    && k in v.queries && v.queries[k].client in v.clients
    && var d := v.queries[k].kind;
    if TurnedAway(s, d) then !Sent(v, k) && !Listed(v, k)
    else if ClientReady(s, d) && env.connected then !Listed(v, k) && (Sent(v, k) <==> env.id.Some?)
    else Listed(v, k) && !Sent(v, k) && v.clients[v.queries[k].client].session.Some?
  }

  predicate SameFlags(s: Client, t: Client) {
    t.configured == s.configured && t.loggedIn == s.loggedIn && t.loggingOut == s.loggingOut && t.session == s.session
  }

  lemma WhereItIs(v: World, k: int)
    requires Base(v) && k in v.queries
    ensures Sent(v, k) <==> IsActive(v, k)
    ensures Listed(v, k) <==> IsPending(v, k)
  {
  }

  lemma {:induction false} TriedOutcome(u: World, k: int, env: Env)
    requires Base(u) && Known(u, k) && !IsActive(u, k) && !IsPending(u, k) && GoodEnv(u, env)
    ensures Outcome(u.clients[u.queries[k].client], SendOrWait(u, k, env), k, env)
    ensures SendOrWait(u, k, env).queries[k].client == u.queries[k].client
  {
    SendOrWaitKeeps(u, k, env);
    SendOrWaitSettles(u, k, env);
    SessionMade(u, k, env);
    var v := SendOrWait(u, k, env);
    WhereItIs(v, k);
    hide SendOrWait, Base, Frame, IsActive, IsPending, Sent, Listed, AfterSend;
  }

  // A query that is not turned away finds a session, or leaves a new one behind.
  lemma {:induction false} SessionMade(u: World, k: int, env: Env)
    requires Known(u, k)
    ensures var (c, v) := (u.queries[k].client, SendOrWait(u, k, env));
            c in v.clients && (v.clients[c].session.Some? <==> u.clients[c].session.Some? || !LoggingOut(u, k))
  {
    if !LoggingOut(u, k) && !MustWait(u, k, env) {
      SendSettles(u, k, env);
      hide Send;
    }
  }

  lemma {:induction false} AlarmOutcome(w: World, k: int, env: Env)
    requires Base(w) && k in w.queries && !IsPending(w, k) && GoodEnv(w, env)
    ensures k in Alarm(w, k, env).queries && Alarm(w, k, env).queries[k].client == w.queries[k].client
    ensures Outcome(w.clients[w.queries[k].client], Alarm(w, k, env), k, env)
  {
    assert Known(w, k);
    var u := Deactivate(ClearTimers(w, k), k);
    QuietKeeps(w, k);
    assert Alarm(w, k, env) == SendOrWait(u, k, env);
    QuietFlags(w, k);
    hide Base, Frame, Deactivate, SendOrWait, Alarm;
    TriedOutcome(u, k, env);
    hide IsActive, IsPending;
    SameOutcome(w.clients[w.queries[k].client], u.clients[w.queries[k].client], SendOrWait(u, k, env), k, env);
  }

  lemma QuietFlags(w: World, k: int)
    requires Known(w, k)
    ensures var (c, u) := (w.queries[k].client, Deactivate(ClearTimers(w, k), k));
            c in u.clients && SameFlags(w.clients[c], u.clients[c])
  {
  }

  lemma SameOutcome(s: Client, t: Client, v: World, k: int, env: Env)
    requires SameFlags(s, t) && Outcome(t, v, k, env)
    ensures Outcome(s, v, k, env)
  {
  }

  lemma {:induction false} StepTries(w: World, e: Event, k: int, env: Env)
    requires Inv(w) && CanHappen(w, e) && Tries(w, e, k, env)
    ensures var v := Step(w, e);
            k in v.queries && v.queries[k].client in w.clients && Outcome(w.clients[v.queries[k].client], v, k, env)
  {
    assert KnownAll(w) && ActiveOk(w);
    if e.Started? {
      RegisteredKeeps(w, k, e.query);
      var u := Registered(w, k, e.query);
      hide Base, SendOrWait, IsActive, IsPending, Outcome;
      TriedOutcome(u, k, env);
    } else {
      assert QueryOk(w, k);
      if e.RetryOver? {
        var u := SetQuery(w, k, w.queries[k].(kept := false));
        UpdateKeeps(w, k, u.queries[k], u);
        hide Base, Frame, Alarm, Outcome;
        AlarmOutcome(u, k, env);
      } else {
        hide Base, Alarm, Outcome;
        AlarmOutcome(w, k, env);
      }
    }
  }

  // In every run, for every query that is executed, restarted, retried or sent again
  // after its timeout, and the flags of its client before the step: turned away by a
  // client that logs out it is neither sent nor on a list; while all that it needs is
  // there it is not on a list, and sent if there is an id for it; otherwise it is on a
  // list and not sent, and its client has a session from then on.
  lemma {:induction false} ReadyQueriesDoNotWait(ws: seq<World>, es: seq<Event>, n: nat, k: int, env: Env)
    requires IsRun(ws, es) && n < |es| && Tries(ws[n], es[n], k, env)
    ensures var (w, v) := (ws[n], ws[n + 1]);
            k in v.queries && v.queries[k].client in w.clients && Outcome(w.clients[v.queries[k].client], v, k, env)
  {
    RunInv(ws, es, n);
    hide Inv, Step, CanHappen, Tries, Outcome;
    assert Happens(ws, es, n);
    StepTries(ws[n], es[n], k, env);
  }

  // The client of a list has a session when the i-th query of the list is tried.
  ghost predicate SessionBy(s: Client, kinds: seq<Kind>, i: nat) {
    s.session.Some? || exists j | 0 <= j < i && j < |kinds| :: !TurnedAway(s, kinds[j])
  }

  function KindsOf(w: World, ks: seq<int>): seq<Kind>
    requires forall i | 0 <= i < |ks| :: ks[i] in w.queries
  {
    seq(|ks|, i requires 0 <= i < |ks| => w.queries[ks[i]].kind)
  }

  // What has become of query k of the list of client s.
  predicate ListOutcome(s: Client, d: Kind, session: bool, v: World, k: int, env: Env) {
    var ready := session && env.connected && (s.configured || d.force) && (s.loggedIn || d.login || d.force);
    && (Listed(v, k) <==> !TurnedAway(s, d) && !ready)
    && (Sent(v, k) <==> !TurnedAway(s, d) && ready && env.id.Some?)
  }

  lemma {:induction false} FirstOutcome(w: World, c: int, k: int, env: Env)
    requires Inv(w) && c in w.clients && k in w.clients[c].pending && k in w.queries && GoodEnv(w, env)
    ensures Known(w, k) && w.queries[k].client == c
    ensures var (s, v) := (w.clients[c], SendOnePending(w, c, k, env));
            Base(v) && ListOutcome(s, w.queries[k].kind, s.session.Some?, v, k, env)
  {
    assert QueryOk(w, k) && IsPending(w, k) by {
      assert KnownAll(w) && PendingOk(w);
    }
    hide Base, Frame, SendOnePending, AfterSendOne, PendingBut, Uses;
    SendOneKeeps(w, c, k, env);
    SendOneOutcome(w, c, k, env);
    WhereItIs(SendOnePending(w, c, k, env), k);
    hide IsActive, IsPending, Sent, Listed, QueryOk;
  }

  lemma {:induction false} FirstSession(w: World, c: int, k: int, env: Env)
    requires Known(w, k) && w.queries[k].client == c
    ensures var (s, v) := (w.clients[c], SendOnePending(w, c, k, env));
            c in v.clients && (v.clients[c].session.Some? <==> s.session.Some? || !TurnedAway(s, w.queries[k].kind))
  {
    SessionMade(w, k, env);
    SendOrWaitKeepsKnown(w, k, env);
    hide SendOrWait;
  }

  lemma {:induction false} ListTries(w: World, c: int, ks: seq<int>, envs: seq<Env>, i: nat)
    requires Inv(w) && c in w.clients && |envs| == |ks| && NoDup(ks) && FreshEnvs(w, envs) && i < |ks|
    requires forall k | k in ks :: k in w.clients[c].pending && Known(w, k)
    ensures forall j | 0 <= j < |ks| :: ks[j] in w.queries
    ensures ListOutcome(w.clients[c], w.queries[ks[i]].kind, SessionBy(w.clients[c], KindsOf(w, ks), i),
                        SendEach(w, c, ks, envs), ks[i], envs[i])
    decreases |ks|
  {
    hide Inv, SendOnePending, ListOutcome, SessionBy, FreshEnvs, Untouched;
    forall j | 0 <= j < |ks| ensures ks[j] in w.queries { assert ks[j] in ks && Known(w, ks[j]); }
    if i == 0 {
      FirstOfList(w, c, ks, envs);
    } else {
      var u := SendOnePending(w, c, ks[0], envs[0]);
      RoundKeeps(w, c, ks, envs);
      SessionAfterFirst(w, c, ks, envs);
      assert ks[i] == ks[1..][i - 1] && envs[i] == envs[1..][i - 1];
      ListTries(u, c, ks[1..], envs[1..], i - 1);
      SessionLater(w, u, c, ks, i);
      SameFlagsOutcome(w.clients[c], u.clients[c], w.queries[ks[i]].kind, SessionBy(w.clients[c], KindsOf(w, ks), i),
                       SendEach(w, c, ks, envs), ks[i], envs[i]);
    }
  }

  lemma {:induction false} SessionAfterFirst(w: World, c: int, ks: seq<int>, envs: seq<Env>)
    requires Inv(w) && c in w.clients && |envs| == |ks| > 0 && NoDup(ks) && FreshEnvs(w, envs)
    requires forall k | k in ks :: k in w.clients[c].pending && Known(w, k)
    ensures var u := SendOnePending(w, c, ks[0], envs[0]);
            && Settled(w, u)
            && (u.clients[c].session.Some? <==> w.clients[c].session.Some? || !TurnedAway(w.clients[c], w.queries[ks[0]].kind))
  {
    assert Known(w, ks[0]) && w.queries[ks[0]].client == c by {
      assert KnownAll(w) && PendingOk(w);
    }
    FirstSession(w, c, ks[0], envs[0]);
    SendOneSettles(w, c, ks[0], envs[0]);
  }

  lemma SameFlagsOutcome(s: Client, t: Client, d: Kind, session: bool, v: World, k: int, env: Env)
    requires ClientSettled(s, t) && ListOutcome(t, d, session, v, k, env)
    ensures ListOutcome(s, d, session, v, k, env)
  {
    hide Listed, Sent;
  }

  lemma {:induction false} FirstOfList(w: World, c: int, ks: seq<int>, envs: seq<Env>)
    requires Inv(w) && c in w.clients && |envs| == |ks| > 0 && NoDup(ks) && FreshEnvs(w, envs)
    requires forall k | k in ks :: k in w.clients[c].pending && Known(w, k)
    ensures forall j | 0 <= j < |ks| :: ks[j] in w.queries
    ensures ListOutcome(w.clients[c], w.queries[ks[0]].kind, SessionBy(w.clients[c], KindsOf(w, ks), 0),
                        SendEach(w, c, ks, envs), ks[0], envs[0])
  {
    hide SendOnePending, ListOutcome, Base, QueryOk, FreshEnvs, Untouched;
    forall j | 0 <= j < |ks| ensures ks[j] in w.queries { assert ks[j] in ks && Known(w, ks[j]); }
    var u := SendOnePending(w, c, ks[0], envs[0]);
    RoundKeeps(w, c, ks, envs);
    assert GoodEnv(w, envs[0]) by {
      FirstEnv(w, envs);
    }
    FirstOutcome(w, c, ks[0], envs[0]);
    SendOneSettles(w, c, ks[0], envs[0]);
    assert ks[0] !in ks[1..];
    ListLeaves(u, c, ks[1..], envs[1..], ks[0]);
    SameForQuery(w.clients[c], w.queries[ks[0]].kind, w.clients[c].session.Some?, u, SendEach(u, c, ks[1..], envs[1..]),
                 ks[0], envs[0]);
  }

  lemma FirstEnv(w: World, envs: seq<Env>)
    requires envs != [] && FreshEnvs(w, envs)
    ensures GoodEnv(w, envs[0])
  {
  }

  lemma SameForQuery(s: Client, d: Kind, session: bool, u: World, v: World, k: int, env: Env)
    requires Base(u) && Base(v) && Known(u, k) && Untouched(u, v, k) && ListOutcome(s, d, session, u, k, env)
    ensures ListOutcome(s, d, session, v, k, env)
  {
    WhereItIs(u, k);
    WhereItIs(v, k);
    hide Base, Sent, Listed, IsActive, IsPending;
  }

  lemma SessionLater(w: World, u: World, c: int, ks: seq<int>, i: nat)
    requires c in w.clients && Settled(w, u) && 0 < i < |ks| && forall j | 0 <= j < |ks| :: ks[j] in w.queries
    requires forall j | 0 <= j < |ks[1..]| :: ks[1..][j] in u.queries
    requires u.clients[c].session.Some? <==> w.clients[c].session.Some? || !TurnedAway(w.clients[c], w.queries[ks[0]].kind)
    ensures SessionBy(u.clients[c], KindsOf(u, ks[1..]), i - 1) <==> SessionBy(w.clients[c], KindsOf(w, ks), i)
  {
    var (a, b) := (KindsOf(w, ks), KindsOf(u, ks[1..]));
    forall j | 0 <= j < |b| ensures b[j] == a[j + 1] {
      assert ks[1..][j] == ks[j + 1];
    }
    if j :| 0 <= j < i && !TurnedAway(w.clients[c], a[j]) {
      if j > 0 {
        assert b[j - 1] == a[j];
      }
    }
    if j :| 0 <= j < i - 1 && !TurnedAway(u.clients[c], b[j]) {
      assert a[j + 1] == b[j];
    }
    assert a[0] == w.queries[ks[0]].kind;
  }

  // The same for the list of a client, of which each query is tried in turn: one stays on
  // it exactly if it is not turned away and something that it needs is missing at its
  // turn. A session is there if it was before, or a query in front was not turned away.
  lemma {:induction false} ListIsTriedInTurn(ws: seq<World>, es: seq<Event>, n: nat, i: nat)
    requires IsRun(ws, es) && n < |es| && es[n].SendPending? && i < |es[n].envs|
    ensures var (w, v, c) := (ws[n], ws[n + 1], es[n].c);
            && c in w.clients && |es[n].envs| == |w.clients[c].pending|
            && (forall j | 0 <= j < |w.clients[c].pending| :: w.clients[c].pending[j] in w.queries)
            && var (s, ks) := (w.clients[c], w.clients[c].pending);
            ListOutcome(s, w.queries[ks[i]].kind, SessionBy(s, KindsOf(w, ks), i), v, ks[i], es[n].envs[i])
  {
    RunInv(ws, es, n);
    assert Happens(ws, es, n);
    var (w, c, envs) := (ws[n], es[n].c, es[n].envs);
    assert KnownAll(w) && PendingOk(w);
    hide SendEach, Base, ListOutcome;
    ListTries(w, c, w.clients[c].pending, envs, i);
  }
}
