/** Queries on their way to the server and the counts their clients keep of them
    (src/query/query.cpp, src/user_agent.cpp, src/mtproto_client.cpp). */
module Queries {
  import opened Wrappers

  // What a query has called: the handlers of its answer, of an error and of a timeout
  // after which it is not sent again, and the callback behind a password prompt.
  datatype Call = OnAnswer | OnError | OnTimeout | OnPrompt

  // What never changes: the class of a query and how it was executed.
  datatype Kind = Kind(
    override: int,             // a fixed message id, or 0
    force: bool, login: bool,  // execution options
    retriesTimeout: bool,      // should_retry_on_timeout
    retriesError: bool,        // should_retry_after_recover_from_error
    timesWaiting: bool,        // will_be_pending starts the timeout
    signsIn: bool,             // asks for a needed password itself
    held: bool)                // its object is referred to from outside

  datatype Query = Query(
    kind: Kind,
    msgId: int,                // of the last message sent, or 0
    client: int,
    session: int,              // the session of the last message, or 0
    acked: bool, timeout: bool, retry: bool,
    kept: bool,                // it is among the retry queries of the user agent
    asking: nat,               // its password prompts that have not come back
    calls: seq<Call>)

  datatype Client = Client(
    count: nat, pending: seq<int>, session: Option<int>,
    configured: bool, loggedIn: bool, loggingOut: bool, cleanup: bool)

  // used: every message id there has been.
  datatype World = World(
    queries: map<int, Query>, clients: map<int, Client>, active: map<int, int>,
    current: int, used: set<int>)

  // What a step finds outside: whether the connection is up, the id under which a
  // message can be sent, and the id of a session should one be created.
  datatype Env = Env(connected: bool, id: Option<int>, session: int)

  datatype Error = Migrate(client: int) | Refused | Recovering | PasswordNeeded(locked: bool) | Internal

  function MsgId(q: Query): int { if q.kind.override != 0 then q.kind.override else q.msgId }

  predicate Known(w: World, k: int) { k in w.queries && w.queries[k].client in w.clients }

  function SetQuery(w: World, k: int, q: Query): World { w.(queries := w.queries[k := q]) }

  function SetClient(w: World, c: int, s: Client): World { w.(clients := w.clients[c := s]) }

  function ClearTimers(w: World, k: int): World
    requires Known(w, k)
  {
    SetQuery(w, k, w.queries[k].(timeout := false, retry := false))
  }

  function Tell(w: World, k: int, call: Call): World
    requires Known(w, k)
  {
    SetQuery(w, k, w.queries[k].(calls := w.queries[k].calls + [call]))
  }

  predicate IsActive(w: World, k: int)
    requires k in w.queries
  {
    var id := MsgId(w.queries[k]);
    id != 0 && id in w.active && w.active[id] == k
  }

  predicate IsPending(w: World, k: int)
    requires Known(w, k)
  {
    k in w.clients[w.queries[k].client].pending
  }

  // Nobody refers to the object of query k any more, so it goes and its timers with it.
  function Bury(w: World, k: int): World
    requires Known(w, k)
  {
    if Alive(w, k) then w else ClearTimers(w, k)
  }

  predicate Alive(w: World, k: int)
    requires Known(w, k)
  {
    IsActive(w, k) || IsPending(w, k) || w.queries[k].kept || w.queries[k].kind.held
  }

  // ---- The active queries ----

  function AddActive(w: World, k: int): World
    requires Known(w, k)
  {
    var id, c := MsgId(w.queries[k]), w.queries[k].client;
    var v := w.(active := w.active[id := k]);
    if id in w.active then v
    else SetClient(v, c, w.clients[c].(count := w.clients[c].count + 1, cleanup := false))
  }

  function Decrease(s: Client, isCurrent: bool): Client {
    var t := if s.count >= 1 then s.(count := s.count - 1) else s;
    if t.count == 0 && t.pending == [] && !isCurrent then t.(cleanup := true) else t
  }

  function RemoveActive(w: World, k: int): World
    requires Known(w, k)
  {
    var id, c := MsgId(w.queries[k]), w.queries[k].client;
    if id !in w.active then w
    else SetClient(w.(active := w.active - {id}), c, Decrease(w.clients[c], w.current == c))
  }

  function Deactivate(w: World, k: int): World
    requires Known(w, k)
  {
    if MsgId(w.queries[k]) != 0 then RemoveActive(w, k) else w
  }

  // ---- The pending queries ----

  function Without(s: seq<int>, k: int): seq<int> {
    if s == [] then [] else (if s[0] == k then [] else [s[0]]) + Without(s[1..], k)
  }

  lemma {:induction false} WithoutLast(s: seq<int>, k: int)
    requires s != []
    ensures var n := |s| - 1; Without(s, k) == Without(s[..n], k) + if s[n] == k then [] else [s[n]]
  {
    var n := |s| - 1;
    if n == 0 {
      assert s[1..] == [] && s[..0] == [];
    } else {
      WithoutLast(s[1..], k);
      assert s[..n][1..] == s[1..][..n - 1];
      Assoc(if s[0] == k then [] else [s[0]], Without(s[1..][..n - 1], k), if s[n] == k then [] else [s[n]]);
    }
  }

  function AddPending(w: World, k: int): World
    requires Known(w, k)
  {
    var c := w.queries[k].client;
    var s := w.clients[c];
    if k in s.pending then w else SetClient(w, c, s.(pending := s.pending + [k]))
  }

  // Some queries start their timeout before they are put on the list.
  function Wait(w: World, k: int): World
    requires Known(w, k)
  {
    var q := w.queries[k];
    AddPending(SetQuery(w, k, q.(timeout := q.timeout || q.kind.timesWaiting)), k)
  }

  function RemovePending(w: World, c: int, k: int): World
    requires c in w.clients
  {
    SetClient(w, c, w.clients[c].(pending := Without(w.clients[c].pending, k)))
  }

  // ---- Steps of a query ----

  predicate LoggingOut(w: World, k: int)
    requires Known(w, k)
  {
    w.clients[w.queries[k].client].loggingOut && !w.queries[k].kind.force
  }

  // check_pending creates a session where there is none.
  function WithSession(w: World, k: int, env: Env): World
    requires Known(w, k)
  {
    var c := w.queries[k].client;
    if w.clients[c].session.Some? then w else SetClient(w, c, w.clients[c].(session := Some(env.session)))
  }

  predicate MustWait(w: World, k: int, env: Env)
    requires Known(w, k)
  {
    var q := w.queries[k];
    var s := w.clients[q.client];
    s.session.None? || !env.connected || (!s.configured && !q.kind.force) || (!s.loggedIn && !q.kind.login && !q.kind.force)
  }

  function AfterRetry(w: World, k: int): World
    requires Known(w, k)
  {
    SetQuery(w, k, w.queries[k].(retry := true, kept := true))
  }

  // The query goes back among the active ones, without a timer, until the prompt is over.
  function AskPassword(w: World, k: int): World
    requires Known(w, k)
  {
    var u := if MsgId(w.queries[k]) != 0 then AddActive(w, k) else w;
    SetQuery(u, k, w.queries[k].(asking := w.queries[k].asking + 1))
  }

  // The prompt refers to the query weakly.
  function PasswordDone(w: World, k: int): World
    requires Known(w, k)
  {
    var q := w.queries[k];
    var v := SetQuery(w, k, q.(asking := if q.asking > 0 then q.asking - 1 else 0));
    if Alive(w, k) then Bury(Deactivate(Tell(v, k, OnPrompt), k), k) else v
  }

  function HandleError(w: World, k: int, e: Error): World
    requires Known(w, k) && (e.Migrate? ==> e.client in w.clients)
  {
    var v := Deactivate(ClearTimers(w, k), k);
    var q := v.queries[k];
    match e
    case Refused => Tell(v, k, OnError)
    case Migrate(client) =>
      var u := SetQuery(v, k, q.(acked := false, session := 0, client := client)).(current := client);
      if q.kind.retriesError || q.kind.login then AfterRetry(u, k) else u
    case Recovering => if q.kind.retriesError then AfterRetry(v, k) else v
    case PasswordNeeded(locked) => if q.kind.signsIn then (if locked then v else AskPassword(v, k)) else AfterRetry(v, k)
    case Internal =>
      var lost := !v.clients[q.client].configured && !q.kind.force;
      var u := SetQuery(v, k, q.(acked := false, session := if lost then 0 else q.session));
      if q.kind.retriesError then AfterRetry(u, k) else u
  }

  predicate CanSend(w: World, k: int, env: Env)
    requires Known(w, k)
  {
    env.id.Some? && w.clients[w.queries[k].client].session.Some?
  }

  function Send(w: World, k: int, env: Env): World
    requires Known(w, k)
  {
    var q := w.queries[k];
    if !CanSend(w, k, env) then HandleError(SetQuery(w, k, q.(acked := false, msgId := 0)), k, Refused)
    else
      var id := if q.kind.override != 0 then q.kind.override else env.id.value;
      var v := SetQuery(w, k, q.(acked := false, msgId := id)).(used := w.used + {id});
      var u := AddActive(v, k);
      SetQuery(u, k, u.queries[k].(session := w.clients[q.client].session.value, timeout := true))
  }

  // What execute, alarm and execute_after_pending have in common.
  function SendOrWait(w: World, k: int, env: Env): World
    requires Known(w, k)
  {
    if LoggingOut(w, k) then Tell(w, k, OnError)
    else
      var v := WithSession(w, k, env);
      if MustWait(w, k, env) then Wait(v, k) else Send(v, k, env)
  }

  function Execute(w: World, k: int, q: Query, env: Env): World
    requires q.client in w.clients
  {
    SendOrWait(Registered(w, k, q), k, env)
  }

  function Registered(w: World, k: int, q: Query): World {
    SetQuery(w, k, q).(used := w.used + if q.kind.override != 0 then {q.kind.override} else {})
  }

  function Alarm(w: World, k: int, env: Env): World
    requires Known(w, k)
  {
    SendOrWait(Deactivate(ClearTimers(w, k), k), k, env)
  }

  function TimeoutAlarm(w: World, k: int, env: Env): World
    requires Known(w, k)
  {
    if w.queries[k].kind.retriesTimeout then Alarm(w, k, env)
    else
      var v := Deactivate(Tell(ClearTimers(w, k), k, OnTimeout), k);
      RemovePending(v, v.queries[k].client, k)
  }

  // The retry timer lets go of the query before it sets off the alarm.
  function RetryDue(w: World, k: int, env: Env): World
    requires Known(w, k)
  {
    Alarm(SetQuery(w, k, w.queries[k].(kept := false)), k, env)
  }

  function Regen(w: World, k: int): World
    requires Known(w, k)
  {
    var q := w.queries[k];
    var s := w.clients[q.client];
    var same := q.session != 0 && s.session == Some(q.session);
    var keep := same && (s.configured || q.kind.force);
    AfterRetry(SetQuery(w, k, q.(acked := false, session := if keep then q.session else 0)), k)
  }

  function Ack(w: World, k: int): World
    requires Known(w, k)
  {
    if w.queries[k].acked then w else SetQuery(w, k, w.queries[k].(acked := true, timeout := true))
  }

  function HandleResult(w: World, k: int): World
    requires Known(w, k)
  {
    RemoveActive(ClearTimers(Tell(w, k, OnAnswer), k), k)
  }

  // Queries and clients that are there stay there.
  ghost predicate KeepsKnown(w: World, v: World) {
    v.clients.Keys == w.clients.Keys && forall k | Known(w, k) :: Known(v, k)
  }

  lemma DeactivateKeepsKnown(w: World, k: int)
    requires Known(w, k)
    ensures KeepsKnown(w, Deactivate(ClearTimers(w, k), k))
    ensures Deactivate(ClearTimers(w, k), k).queries == ClearTimers(w, k).queries
  {
  }

  lemma ErrorKeepsKnown(w: World, k: int, e: Error)
    requires Known(w, k) && (e.Migrate? ==> e.client in w.clients)
    ensures KeepsKnown(w, HandleError(w, k, e))
  {
    DeactivateKeepsKnown(w, k);
    hide Deactivate;
  }

  lemma SendKeepsKnown(w: World, k: int, env: Env)
    requires Known(w, k)
    ensures KeepsKnown(w, Send(w, k, env))
  {
    ErrorKeepsKnown(SetQuery(w, k, w.queries[k].(acked := false, msgId := 0)), k, Refused);
    hide HandleError;
  }

  lemma SendOrWaitKeepsKnown(w: World, k: int, env: Env)
    requires Known(w, k)
    ensures KeepsKnown(w, SendOrWait(w, k, env))
  {
    SendKeepsKnown(WithSession(w, k, env), k, env);
    hide Send;
  }

  // One round of send_pending_queries.
  function SendOnePending(w: World, c: int, k: int, env: Env): (v: World)
    requires Known(w, k) && c in w.clients
    ensures KeepsKnown(w, v)
  {
    SendOrWaitKeepsKnown(w, k, env);
    hide SendOrWait;
    var v := SendOrWait(w, k, env);
    if LoggingOut(w, k) || !MustWait(w, k, env) then Bury(RemovePending(v, c, k), k) else v
  }

  function SendEach(w: World, c: int, ks: seq<int>, envs: seq<Env>): World
    requires c in w.clients && |envs| == |ks| && forall k | k in ks :: Known(w, k)
    decreases |ks|
  {
    if ks == [] then w
    else
      SendEach(SendOnePending(w, c, ks[0], envs[0]), c, ks[1..], envs[1..])
  }

  function CleanupExpired(w: World, c: int): World
    requires c in w.clients
  {
    var s := w.clients[c].(cleanup := false);
    SetClient(w, c, if s.count == 0 && s.pending == [] then s.(session := None) else s)
  }
}
