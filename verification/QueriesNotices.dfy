/** What an error, a notice about a message, an acknowledgement and an answer change in a
    query and its client, in every run (src/query/query.cpp, src/user_agent.cpp). */
module QueriesNotices {
  import opened Queries
  import opened QueriesRuns
  import opened QueriesSent
  import opened QuerySteps
  import opened Wrappers

  // The query that is active under an id, and its client.
  lemma {:induction false} ActiveIsKnown(w: World, id: int)
    requires Inv(w) && id in w.active
    ensures Concerns(w, id) && MsgId(w.queries[w.active[id]]) == id && id != 0
  {
    assert KnownAll(w) && ActiveOk(w);
    assert IsActive(w, w.active[id]);
  }

  // An error that ends or delays a query, as its fields show it. Moved to another client
  // it forgets its session, and that client becomes the current one; after an internal
  // failure it forgets the session only if it may not go on with an unconfigured client.
  lemma {:induction false} ErrorsByFields(ws: seq<World>, es: seq<Event>, n: nat)
    requires IsRun(ws, es) && n < |es| && es[n].Failure? && es[n].id in ws[n].active
    ensures var (w, v, k, e) := (ws[n], ws[n + 1], ws[n].active[es[n].id], es[n].error);
            && k in w.queries && k in v.queries && w.queries[k].client in w.clients
            && var (q, q') := (w.queries[k], v.queries[k]);
            && (e.Migrate? ==> q'.client == e.client == v.current && q'.session == 0 && !q'.acked)
            && (!e.Migrate? ==> q'.client == q.client && v.current == w.current)
            && (e.Internal? ==>
                  !q'.acked && q'.session == if w.clients[q.client].configured || q.kind.force then q.session else 0)
            && (!e.Migrate? && !e.Internal? ==> q'.session == q.session && q'.acked == q.acked)
  {
    RunInv(ws, es, n);
    hide Inv;
    assert Happens(ws, es, n);
    var (w, k, e) := (ws[n], ws[n].active[es[n].id], es[n].error);
    ActiveIsKnown(w, es[n].id);
    hide IsRun;
    ErrorFields(w, k, e);
    hide HandleError;
  }

  lemma {:induction false} ErrorFields(w: World, k: int, e: Error)
    requires Known(w, k) && (e.Migrate? ==> e.client in w.clients)
    ensures var v := HandleError(w, k, e);
            && k in v.queries && var (q, q') := (w.queries[k], v.queries[k]);
            && (e.Migrate? ==> q'.client == e.client == v.current && q'.session == 0 && !q'.acked)
            && (!e.Migrate? ==> q'.client == q.client && v.current == w.current)
            && (e.Internal? ==>
                  !q'.acked && q'.session == if w.clients[q.client].configured || q.kind.force then q.session else 0)
            && (!e.Migrate? && !e.Internal? ==> q'.session == q.session && q'.acked == q.acked)
  {
    DeactivateKeepsKnown(w, k);
    QuietFlags(w, k);
    assert Deactivate(ClearTimers(w, k), k).current == w.current;
    hide Deactivate;
  }

  // After a notice that its message was bad a query is tried again at once, and it keeps
  // its session only if that is still the one of a client it may use.
  lemma {:induction false} BadMessageByFields(ws: seq<World>, es: seq<Event>, n: nat)
    requires IsRun(ws, es) && n < |es| && es[n].BadMessage? && es[n].id in ws[n].active
    ensures var (w, v, k) := (ws[n], ws[n + 1], ws[n].active[es[n].id]);
            && k in w.queries && k in v.queries && w.queries[k].client in w.clients
            && var (q, q', s) := (w.queries[k], v.queries[k], w.clients[w.queries[k].client]);
            && q'.retry && q'.kept && !q'.acked
            && (q'.session == q.session != 0 <==>
                  q.session != 0 && s.session == Some(q.session) && (s.configured || q.kind.force))
            && (q'.session != q.session ==> q'.session == 0)
            && v.active == w.active && v.clients == w.clients
  {
    RunInv(ws, es, n);
    hide Inv;
    assert Happens(ws, es, n);
    ActiveIsKnown(ws[n], es[n].id);
    hide IsRun;
  }

  // The first acknowledgement restarts the timeout of a query, later ones do nothing.
  lemma {:induction false} FirstAckCounts(ws: seq<World>, es: seq<Event>, n: nat)
    requires IsRun(ws, es) && n < |es| && es[n].Acknowledged? && es[n].id in ws[n].active
    ensures var (w, v, k) := (ws[n], ws[n + 1], ws[n].active[es[n].id]);
            && k in w.queries
            && v == if w.queries[k].acked then w
                    else w.(queries := w.queries[k := w.queries[k].(acked := true, timeout := true)])
  {
    RunInv(ws, es, n);
    hide Inv;
    assert Happens(ws, es, n);
    ActiveIsKnown(ws[n], es[n].id);
    hide IsRun;
  }

  // The answer to the last active query of a client starts its cleanup timer, unless
  // queries wait for the client or it is the current one.
  lemma {:induction false} LastAnswerStartsCleanup(ws: seq<World>, es: seq<Event>, n: nat)
    requires IsRun(ws, es) && n < |es| && es[n].Answer? && es[n].id in ws[n].active
    ensures var (w, v, k) := (ws[n], ws[n + 1], ws[n].active[es[n].id]);
            && k in w.queries && w.queries[k].client in w.clients && w.queries[k].client in v.clients
            && var (c, s) := (w.queries[k].client, w.clients[w.queries[k].client]);
            v.clients[c].cleanup == (s.cleanup || (s.count <= 1 && s.pending == [] && w.current != c))
  {
    RunInv(ws, es, n);
    hide Inv;
    assert Happens(ws, es, n);
    ActiveIsKnown(ws[n], es[n].id);
    hide IsRun;
  }

  // ---- What a message that goes out leaves behind ----

  // The timeout of the query runs, nothing is acknowledged, and it belongs to the session
  // of its client, whose cleanup timer is stopped.
  predicate JustSent(v: World, k: int) {
    && k in v.queries && v.queries[k].client in v.clients
    && var (q, s) := (v.queries[k], v.clients[v.queries[k].client]);
    && q.timeout && !q.acked && s.session == Some(q.session) && !s.cleanup && s.count > 0
    && MsgId(q) in v.active && v.active[MsgId(q)] == k
  }

  lemma {:induction false} SendFields(u: World, k: int, env: Env)
    requires Base(u) && Known(u, k) && !IsActive(u, k) && GoodEnv(u, env) && CanSend(u, k, env)
    ensures JustSent(Send(u, k, env), k)
  {
    var q := u.queries[k];
    var id := if q.kind.override != 0 then q.kind.override else env.id.value;
    assert id !in u.active by {
      FreshId(u, k, id, env);
    }
    hide Base, GoodEnv;
  }

  lemma FreshId(u: World, k: int, id: int, env: Env)
    requires Base(u) && Known(u, k) && !IsActive(u, k) && GoodEnv(u, env) && env.id.Some?
    requires id == if u.queries[k].kind.override != 0 then u.queries[k].kind.override else env.id.value
    ensures id !in u.active
  {
    EntryId(u, id);
    hide ActiveOk, CountsOk, PendingOk;
  }

  lemma EntryId(u: World, id: int)
    requires ActiveOk(u)
    ensures id in u.active ==>
              var j := u.active[id]; j in u.queries && IsActive(u, j) && MsgId(u.queries[j]) == id != 0
  {
  }

  lemma {:induction false} TriedFields(u: World, k: int, env: Env)
    requires Base(u) && Known(u, k) && !IsActive(u, k) && GoodEnv(u, env) && Sent(SendOrWait(u, k, env), k)
    ensures JustSent(SendOrWait(u, k, env), k)
  {
    SendOrWaitKeeps(u, k, env);
    WhereItIs(SendOrWait(u, k, env), k);
    assert !LoggingOut(u, k) && !MustWait(u, k, env) && CanSend(u, k, env);
    assert WithSession(u, k, env) == u;
    SendFields(u, k, env);
    hide Send, Base, JustSent;
  }

  lemma {:induction false} StepFields(w: World, e: Event, k: int, env: Env)
    requires Inv(w) && CanHappen(w, e) && Tries(w, e, k, env) && Sent(Step(w, e), k)
    ensures JustSent(Step(w, e), k)
  {
    assert KnownAll(w) && ActiveOk(w);
    if e.Started? {
      RegisteredKeeps(w, k, e.query);
      hide Base, SendOrWait, IsActive, IsPending, JustSent, Sent;
      TriedFields(Registered(w, k, e.query), k, env);
    } else {
      assert QueryOk(w, k);
      var u := if e.RetryOver? then SetQuery(w, k, w.queries[k].(kept := false)) else w;
      if e.RetryOver? {
        UpdateKeeps(w, k, u.queries[k], u);
      }
      QuietKeeps(u, k);
      assert Step(w, e) == SendOrWait(Deactivate(ClearTimers(u, k), k), k, env);
      hide Base, Frame, Deactivate, SendOrWait, Step, JustSent, Sent, IsActive;
      TriedFields(Deactivate(ClearTimers(u, k), k), k, env);
    }
  }

  // In every run a query that is executed, restarted, retried or sent again after its
  // timeout, and is then active, has been sent just now.
  lemma {:induction false} SentByFields(ws: seq<World>, es: seq<Event>, n: nat, k: int, env: Env)
    requires IsRun(ws, es) && n < |es| && Tries(ws[n], es[n], k, env) && Sent(ws[n + 1], k)
    ensures JustSent(ws[n + 1], k)
  {
    RunInv(ws, es, n);
    hide Inv, Step, CanHappen, Tries, Sent, JustSent;
    assert Happens(ws, es, n);
    StepFields(ws[n], es[n], k, env);
  }
}
