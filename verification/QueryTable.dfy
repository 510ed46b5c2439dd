/** The tables of queries and clients, changed step by step as the handlers do
    (src/query/query.cpp, src/user_agent.cpp, src/mtproto_client.cpp). */
module QueryTable {
  import opened Queries
  import opened Wrappers

  class Table {
    var queries: map<int, Query>
    var clients: map<int, Client>
    var active: map<int, int>
    var current: int
    ghost var used: set<int>

    ghost function View(): World
      reads this
    {
      World(queries, clients, active, current, used)
    }

    constructor (clients: map<int, Client>, current: int)
      ensures View() == World(map[], clients, map[], current, {})
    {
      queries, this.clients, active, this.current, used := map[], clients, map[], current, {};
    }

    method IncreaseActiveQueries(c: int)
      requires c in clients
      modifies this`clients
      ensures clients == old(clients)[c := old(clients)[c].(count := old(clients)[c].count + 1, cleanup := false)]
    {
      var s := clients[c];
      clients := clients[c := s.(count := s.count + 1, cleanup := false)];
    }

    method DecreaseActiveQueries(c: int)
      requires c in clients
      modifies this`clients
      ensures clients == old(clients)[c := Decrease(old(clients)[c], current == c)]
    {
      var s := clients[c];
      if s.count >= 1 {
        s := s.(count := s.count - 1);
      }
      if s.count == 0 && s.pending == [] && current != c {
        s := s.(cleanup := true);
      }
      clients := clients[c := s];
    }

    method AddActiveQuery(k: int)
      requires Known(View(), k)
      modifies this`active, this`clients
      ensures View() == AddActive(old(View()), k)
    {
      var id := MsgId(queries[k]);
      if id !in active {
        active := active[id := k];
        IncreaseActiveQueries(queries[k].client);
      } else {
        active := active[id := k];
      }
    }

    method RemoveActiveQuery(k: int)
      requires Known(View(), k)
      modifies this`active, this`clients
      ensures View() == RemoveActive(old(View()), k)
    {
      var id := MsgId(queries[k]);
      if id in active {
        active := active - {id};
        DecreaseActiveQueries(queries[k].client);
      }
    }

    method AddPendingQuery(c: int, k: int)
      requires Known(View(), k) && queries[k].client == c
      modifies this`clients
      ensures View() == AddPending(old(View()), k)
    {
      if k !in clients[c].pending {
        clients := clients[c := clients[c].(pending := clients[c].pending + [k])];
      }
    }

    method RemovePendingQuery(c: int, k: int)
      requires c in clients
      modifies this`clients
      ensures View() == RemovePending(old(View()), c, k)
    {
      var kept := Removed(clients[c].pending, k);
      clients := clients[c := clients[c].(pending := kept)];
    }

    static method Removed(s: seq<int>, k: int) returns (kept: seq<int>)
      ensures kept == Without(s, k)
    {
      kept := [];
      var i := 0;
      while i < |s|
        invariant 0 <= i <= |s| && kept == Without(s[..i], k)
      {
        WithoutLast(s[..i + 1], k);
        assert s[..i + 1][..i] == s[..i];
        hide Without;
        if s[i] != k {
          kept := kept + [s[i]];
        }
        i := i + 1;
      }
      assert s[..|s|] == s;
    }

    method StopTimers(k: int)
      requires Known(View(), k)
      modifies this`queries
      ensures View() == ClearTimers(old(View()), k)
    {
      queries := queries[k := queries[k].(timeout := false, retry := false)];
    }

    method CallBack(k: int, call: Call)
      requires Known(View(), k)
      modifies this`queries
      ensures View() == Tell(old(View()), k, call)
    {
      queries := queries[k := queries[k].(calls := queries[k].calls + [call])];
    }

    // The destructor of a query stops its timers.
    method Release(k: int)
      requires Known(View(), k)
      modifies this`queries
      ensures View() == Bury(old(View()), k)
    {
      if !StillReferred(k) {
        StopTimers(k);
      }
    }

    predicate StillReferred(k: int)
      requires Known(View(), k)
      reads this
      ensures StillReferred(k) <==> Alive(View(), k)
    {
      var q := queries[k];
      var id := MsgId(q);
      (id != 0 && id in active && active[id] == k) || k in clients[q.client].pending || q.kept || q.kind.held
    }

    // What alarms and errors begin with.
    method Quiet(k: int)
      requires Known(View(), k)
      modifies this`queries, this`active, this`clients
      ensures View() == Deactivate(ClearTimers(old(View()), k), k)
    {
      StopTimers(k);
      if MsgId(queries[k]) != 0 {
        RemoveActiveQuery(k);
      }
    }

    method HandleQueryError(k: int, e: Error)
      requires Known(View(), k) && (e.Migrate? ==> e.client in clients)
      modifies this`queries, this`active, this`clients, this`current
      ensures View() == HandleError(old(View()), k, e)
    {
      Quiet(k);
      DeactivateKeepsKnown(old(View()), k);
      hide Deactivate;
      var q := queries[k];
      var shouldRetry, handled := false, false;
      match e {
        case Migrate(client) =>
          current := client;
          q := q.(acked := false, session := 0, client := client);
          shouldRetry := q.kind.retriesError || q.kind.login;
          handled := true;
        case Refused =>
        case Recovering =>
          shouldRetry := q.kind.retriesError;
          handled := true;
        case PasswordNeeded(locked) =>
          if q.kind.signsIn && !locked {
            PromptForPassword(k);
            return;
          }
          shouldRetry := !q.kind.signsIn;
          handled := true;
        case Internal =>
          q := q.(acked := false);
          shouldRetry := q.kind.retriesError;
          if !clients[q.client].configured && !q.kind.force {
            q := q.(session := 0);
          }
          handled := true;
      }
      if shouldRetry {
        q := q.(retry := true, kept := true);
      }
      if !handled {
        q := q.(calls := q.calls + [OnError]);
      }
      queries := queries[k := q];
    }

    method PromptForPassword(k: int)
      requires Known(View(), k)
      modifies this`queries, this`active, this`clients
      ensures View() == AskPassword(old(View()), k)
    {
      if MsgId(queries[k]) != 0 {
        AddActiveQuery(k);
      }
      queries := queries[k := queries[k].(asking := queries[k].asking + 1)];
    }

    // What the prompt calls when it comes back; it finds nothing of a query that is gone.
    method PromptReturned(k: int)
      requires Known(View(), k)
      modifies this`queries, this`active, this`clients
      ensures View() == PasswordDone(old(View()), k)
    {
      var alive := StillReferred(k);
      queries := queries[k := queries[k].(asking := if queries[k].asking > 0 then queries[k].asking - 1 else 0)];
      if alive {
        TakeOut(k);
      }
    }

    method TakeOut(k: int)
      requires Known(View(), k)
      modifies this`queries, this`active, this`clients
      ensures Known(Deactivate(Tell(old(View()), k, OnPrompt), k), k)
      ensures View() == Bury(Deactivate(Tell(old(View()), k, OnPrompt), k), k)
    {
      CallBack(k, OnPrompt);
      if MsgId(queries[k]) != 0 {
        RemoveActiveQuery(k);
      }
      hide RemoveActive;
      Release(k);
    }

    method SendQuery(k: int, env: Env) returns (ok: bool)
      requires Known(View(), k)
      modifies this
      ensures View() == Send(old(View()), k, env)
      ensures ok == CanSend(old(View()), k, env)
    {
      var q := queries[k];
      var session := clients[q.client].session;
      if env.id.None? || session.None? {
        SendFailed(k);
        return false;
      }
      var id := if q.kind.override != 0 then q.kind.override else env.id.value;
      queries := queries[k := q.(acked := false, msgId := id)];
      used := used + {id};
      hide HandleError, AddActive;
      NowActive(k, session.value);
      return true;
    }

    method SendFailed(k: int)
      requires Known(View(), k)
      modifies this
      ensures View() == HandleError(SetQuery(old(View()), k, old(queries)[k].(acked := false, msgId := 0)), k, Refused)
      ensures used == old(used)
    {
      hide HandleError;
      queries := queries[k := queries[k].(acked := false, msgId := 0)];
      HandleQueryError(k, Refused);
    }

    method NowActive(k: int, session: int)
      requires Known(View(), k)
      modifies this`queries, this`active, this`clients
      ensures k in AddActive(old(View()), k).queries
      ensures View() == SetQuery(AddActive(old(View()), k), k, AddActive(old(View()), k).queries[k].(session := session, timeout := true))
    {
      AddActiveQuery(k);
      queries := queries[k := queries[k].(session := session, timeout := true)];
    }

    method CheckLoggingOut(k: int) returns (ok: bool)
      requires Known(View(), k)
      modifies this`queries
      ensures ok == !LoggingOut(old(View()), k)
      ensures View() == if ok then old(View()) else Tell(old(View()), k, OnError)
    {
      var q := queries[k];
      if clients[q.client].loggingOut {
        if !q.kind.force {
          CallBack(k, OnError);
          return false;
        }
      }
      return true;
    }

    // Does nothing but for classes with a timeout of their own.
    method WillBePending(k: int)
      requires Known(View(), k)
      modifies this`queries
      ensures View() == SetQuery(old(View()), k, old(queries)[k].(timeout := old(queries)[k].timeout || old(queries)[k].kind.timesWaiting))
    {
      if queries[k].kind.timesWaiting {
        queries := queries[k := queries[k].(timeout := true)];
      } else {
        assert queries == queries[k := queries[k].(timeout := queries[k].timeout || queries[k].kind.timesWaiting)];
      }
    }

    method CheckPending(k: int, env: Env) returns (ok: bool)
      requires Known(View(), k)
      modifies this`clients, this`queries
      ensures ok == !MustWait(old(View()), k, env)
      ensures View() == if ok then old(View()) else Wait(WithSession(old(View()), k, env), k)
    {
      var q := queries[k];
      var c := q.client;
      var pending := false;
      if clients[c].session.None? {
        pending := true;
        clients := clients[c := clients[c].(session := Some(env.session))];
      }
      if !env.connected {
        pending := true;
      }
      if !clients[c].configured && !q.kind.force {
        pending := true;
      }
      if !clients[c].loggedIn && !q.kind.login && !q.kind.force {
        pending := true;
      }
      if pending {
        WillBePending(k);
        AddPendingQuery(c, k);
        return false;
      }
      return true;
    }

    // done is false exactly when the query is left pending.
    method SendUnlessPending(k: int, env: Env) returns (done: bool)
      requires Known(View(), k)
      modifies this
      ensures View() == SendOrWait(old(View()), k, env)
      ensures done == (LoggingOut(old(View()), k) || !MustWait(old(View()), k, env))
    {
      hide Send, CanSend;
      var ok := CheckLoggingOut(k);
      if !ok {
        return true;
      }
      ok := CheckPending(k, env);
      if !ok {
        return false;
      }
      ok := SendQuery(k, env);
      return true;
    }

    method ExecuteQuery(k: int, q: Query, env: Env)
      requires q.client in clients
      modifies this
      ensures View() == Execute(old(View()), k, q, env)
    {
      hide SendOrWait;
      queries := queries[k := q];
      used := used + if q.kind.override != 0 then {q.kind.override} else {};
      var done := SendUnlessPending(k, env);
    }

    method AlarmQuery(k: int, env: Env)
      requires Known(View(), k)
      modifies this
      ensures View() == Alarm(old(View()), k, env)
    {
      Quiet(k);
      hide SendOrWait;
      var done := SendUnlessPending(k, env);
    }

    method TimeoutQuery(k: int, env: Env)
      requires Known(View(), k)
      modifies this
      ensures View() == TimeoutAlarm(old(View()), k, env)
    {
      if queries[k].kind.retriesTimeout {
        AlarmQuery(k, env);
      } else {
        StopTimers(k);
        CallBack(k, OnTimeout);
        if MsgId(queries[k]) != 0 {
          RemoveActiveQuery(k);
        }
        RemovePendingQuery(queries[k].client, k);
      }
    }

    method RetryQuery(k: int, env: Env)
      requires Known(View(), k)
      modifies this
      ensures View() == RetryDue(old(View()), k, env)
    {
      hide Alarm;
      queries := queries[k := queries[k].(kept := false)];
      AlarmQuery(k, env);
    }

    method RegenQuery(k: int)
      requires Known(View(), k)
      modifies this`queries
      ensures View() == Regen(old(View()), k)
    {
      var q := queries[k];
      var s := clients[q.client];
      var same := q.session != 0 && s.session == Some(q.session);
      var lost := !same || (!s.configured && !q.kind.force);
      queries := queries[k := q.(acked := false, session := if lost then 0 else q.session, retry := true, kept := true)];
    }

    method AckQuery(k: int)
      requires Known(View(), k)
      modifies this`queries
      ensures View() == Ack(old(View()), k)
    {
      if queries[k].acked {
        return;
      }
      queries := queries[k := queries[k].(acked := true, timeout := true)];
    }

    method HandleQueryResult(k: int)
      requires Known(View(), k)
      modifies this`queries, this`active, this`clients
      ensures View() == HandleResult(old(View()), k)
    {
      CallBack(k, OnAnswer);
      StopTimers(k);
      RemoveActiveQuery(k);
    }

    // A copy of the list is walked, since queries can be put back on it.
    method SendPendingQueries(c: int, envs: seq<Env>)
      requires c in clients && |envs| == |clients[c].pending|
      requires forall k | k in clients[c].pending :: Known(View(), k)
      modifies this
      ensures View() == SendEach(old(View()), c, old(clients)[c].pending, envs)
    {
      hide SendOnePending, SendOrWait, Known;
      var ks := clients[c].pending;
      ghost var all := SendEach(View(), c, ks, envs);
      var i := 0;
      assert ks[0..] == ks && envs[0..] == envs;
      while i < |ks|
        invariant 0 <= i <= |ks| && c in clients && forall k | k in ks[i..] :: Known(View(), k)
        invariant SendEach(View(), c, ks[i..], envs[i..]) == all
      {
        SendPendingOne(c, ks[i], envs[i]);
        assert ks[i..][1..] == ks[i + 1..] && envs[i..][1..] == envs[i + 1..];
        i := i + 1;
      }
    }

    method SendPendingOne(c: int, k: int, env: Env)
      requires c in clients && Known(View(), k)
      modifies this
      ensures View() == SendOnePending(old(View()), c, k, env)
    {
      SendOrWaitKeepsKnown(View(), k, env);
      hide SendOrWait;
      var done := SendUnlessPending(k, env);
      if done {
        RemovePendingQuery(c, k);
        Release(k);
      }
    }

    method CleanupTimerExpired(c: int)
      requires c in clients
      modifies this`clients
      ensures View() == CleanupExpired(old(View()), c)
    {
      var s := clients[c].(cleanup := false);
      if s.count == 0 && s.pending == [] {
        s := s.(session := None);
      }
      clients := clients[c := s];
    }
  }
}
