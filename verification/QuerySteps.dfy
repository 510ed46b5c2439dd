/** What every operation keeps: the active map, the counts of the clients and the pending
    lists agree with the queries, and no query but the one in hand is touched
    (src/query/query.cpp, src/user_agent.cpp, src/mtproto_client.cpp). */
module QuerySteps {
  import opened Queries
  import opened Wrappers

  // ---- The invariant ----

  ghost predicate KnownAll(w: World) { forall k | k in w.queries :: Known(w, k) }

  // Each entry of the active map is found under the id of its query.
  ghost predicate ActiveOk(w: World) {
    forall id | id in w.active :: w.active[id] in w.queries && IsActive(w, w.active[id]) && MsgId(w.queries[w.active[id]]) == id
  }

  ghost predicate IdsOk(w: World) {
    && (forall k | k in w.queries && MsgId(w.queries[k]) != 0 :: MsgId(w.queries[k]) in w.used)
    && (forall k, j | k in w.queries && j in w.queries && k != j && MsgId(w.queries[k]) != 0 ::
          MsgId(w.queries[k]) != MsgId(w.queries[j]))
  }

  // The entries of the active map that belong to queries of client c.
  ghost function Owned(w: World, c: int): set<int> {
    set id | id in w.active && w.active[id] in w.queries && w.queries[w.active[id]].client == c
  }

  ghost predicate CountsOk(w: World) {
    forall c | c in w.clients :: w.clients[c].count == |Owned(w, c)|
  }

  predicate NoDup(s: seq<int>) { forall i, j | 0 <= i < j < |s| :: s[i] != s[j] }

  ghost predicate PendingOk(w: World) {
    && (forall c, k | c in w.clients && k in w.clients[c].pending :: k in w.queries && w.queries[k].client == c)
    && forall c | c in w.clients :: NoDup(w.clients[c].pending)
  }

  ghost predicate Base(w: World) { KnownAll(w) && ActiveOk(w) && IdsOk(w) && CountsOk(w) && PendingOk(w) }

  // Queries that start their timeout while they wait are not sent again after it, and
  // the one that asks for passwords is one of them.
  predicate GoodKind(d: Kind) { (d.timesWaiting ==> !d.retriesTimeout) && (d.signsIn ==> d.timesWaiting) }

  // Something may still send a query or bring it an answer.
  predicate InPlay(w: World, k: int)
    requires Known(w, k)
  {
    IsActive(w, k) || IsPending(w, k) || w.queries[k].retry
  }

  // A query in good order: its timeout or a password prompt runs while it is active; a
  // pending one is not active, has no retry timer, and its timeout runs if its class
  // wants that; on its own a timeout runs only for an object that is kept alive.
  ghost predicate QueryOk(w: World, k: int)
    requires Known(w, k)
  {
    var q := w.queries[k];
    && GoodKind(q.kind)
    && (IsActive(w, k) ==> q.timeout || q.asking > 0)
    && (IsPending(w, k) ==> !IsActive(w, k) && !q.retry && (q.timeout <==> q.kind.timesWaiting))
    && (q.retry ==> q.kept) && (q.asking > 0 ==> q.kind.signsIn)
    && (q.timeout && !IsActive(w, k) && !IsPending(w, k) ==> q.kind.timesWaiting && (q.kept || q.kind.held))
    && ToldOk(q, InPlay(w, k))
  }

  // Nothing is called before the end, and one thing then; a timeout left running can
  // add a second call. The query that asks for passwords may be called more often.
  predicate ToldOk(q: Query, inPlay: bool) {
    && (q.timeout && !inPlay ==> q.calls != [])
    && (!q.kind.signsIn ==>
          if inPlay then q.calls == []
          else if q.timeout then q.calls == [OnError]
          else |q.calls| <= 1 || q.calls == [OnError, OnTimeout])
  }

  ghost predicate Inv(w: World) { Base(w) && forall k | k in w.queries :: QueryOk(w, k) }

  // A step has left every query but k alone.
  ghost predicate Others(w: World, v: World, k: int) {
    forall j | j in w.queries && j != k && Known(w, j) ::
      Known(v, j) && v.queries[j] == w.queries[j] && (IsActive(v, j) <==> IsActive(w, j)) && (IsPending(v, j) <==> IsPending(w, j))
  }

  // It has made no query up, and no list of pending queries has changed but for k.
  ghost predicate Frame(w: World, v: World, k: int) {
    && Others(w, v, k) && v.queries.Keys == w.queries.Keys && v.clients.Keys == w.clients.Keys
  }

  // ---- Counting ----

  lemma {:induction false} OwnedByOthers(w: World, v: World, k: int, id: int, c: int)
    requires KnownAll(w) && ActiveOk(w) && k in w.queries && v.queries == w.queries
    requires v.active == w.active[id := k] && id !in w.active
    ensures Owned(v, c) == if w.queries[k].client == c then Owned(w, c) + {id} else Owned(w, c)
  {
    forall x ensures x in Owned(v, c) <==> x in Owned(w, c) || (x == id && w.queries[k].client == c) {
    }
  }

  lemma OwnEntry(w: World, k: int)
    requires ActiveOk(w) && IdsOk(w) && k in w.queries && MsgId(w.queries[k]) != 0
    ensures MsgId(w.queries[k]) in w.active ==> IsActive(w, k)
  {
  }

  // The count goes up with a new entry.
  lemma {:induction false} AddActiveKeeps(w: World, k: int)
    requires Base(w) && k in w.queries && !IsActive(w, k) && MsgId(w.queries[k]) != 0
    ensures MsgId(w.queries[k]) !in w.active
    ensures Base(AddActive(w, k)) && Frame(w, AddActive(w, k), k) && IsActive(AddActive(w, k), k)
    ensures AddActive(w, k).queries == w.queries && AddActive(w, k).used == w.used
    ensures SameLists(w, AddActive(w, k))
  {
    assert Known(w, k);
    OwnEntry(w, k);
    AddActiveLists(w, k);
    ListsKept(w, AddActive(w, k));
    AddActiveEntries(w, k);
    AddActiveFrame(w, k);
    hide Frame, ActiveOk, CountsOk, PendingOk, AddActive, SameLists;
  }

  lemma AddActiveLists(w: World, k: int)
    requires Known(w, k) && MsgId(w.queries[k]) !in w.active
    ensures var v := AddActive(w, k); SameLists(w, v) && v.queries == w.queries && v.used == w.used
  {
  }

  lemma ListsKept(w: World, v: World)
    requires PendingOk(w) && SameLists(w, v) && v.queries == w.queries
    ensures PendingOk(v)
  {
  }

  lemma {:induction false} AddActiveEntries(w: World, k: int)
    requires Base(w) && Known(w, k) && MsgId(w.queries[k]) != 0 && MsgId(w.queries[k]) !in w.active
    ensures var v := AddActive(w, k); ActiveOk(v) && CountsOk(v) && IsActive(v, k)
  {
    hide PendingOk, IdsOk;
    var v := AddActive(w, k);
    forall d | d in v.clients ensures v.clients[d].count == |Owned(v, d)| {
      OwnedByOthers(w, v, k, MsgId(w.queries[k]), d);
    }
  }

  lemma AddActiveFrame(w: World, k: int)
    requires Known(w, k) && ActiveOk(w) && MsgId(w.queries[k]) !in w.active
    ensures Frame(w, AddActive(w, k), k)
  {
    hide ActiveOk;
  }

  predicate SameLists(w: World, v: World) {
    && v.clients.Keys == w.clients.Keys
    && forall c | c in w.clients ::
         c in v.clients && v.clients[c].pending == w.clients[c].pending && v.clients[c].loggingOut == w.clients[c].loggingOut
  }

  // It goes down with an entry that is taken out.
  lemma {:induction false} DeactivateKeeps(w: World, k: int)
    requires Base(w) && k in w.queries
    ensures Base(Deactivate(w, k)) && Frame(w, Deactivate(w, k), k) && !IsActive(Deactivate(w, k), k)
    ensures Deactivate(w, k).queries == w.queries && Deactivate(w, k).used == w.used
    ensures SameLists(w, Deactivate(w, k))
  {
    assert Known(w, k);
    DeactivateLists(w, k);
    ListsKept(w, Deactivate(w, k));
    DeactivateEntries(w, k);
    DeactivateFrame(w, k);
    hide Frame, ActiveOk, CountsOk, PendingOk, Deactivate, SameLists;
  }

  lemma DeactivateLists(w: World, k: int)
    requires Known(w, k)
    ensures var v := Deactivate(w, k); SameLists(w, v) && v.queries == w.queries && v.used == w.used
  {
  }

  lemma {:induction false} DeactivateEntries(w: World, k: int)
    requires Base(w) && Known(w, k)
    ensures var v := Deactivate(w, k); ActiveOk(v) && CountsOk(v) && !IsActive(v, k)
  {
    var id, v := MsgId(w.queries[k]), Deactivate(w, k);
    hide PendingOk, IdsOk;
    if id != 0 && id in w.active {
      assert w.active[id] == k by {
        OwnEntry(w, k);
      }
      forall d | d in v.clients ensures v.clients[d].count == |Owned(v, d)| {
        OwnedWithout(w, v, id, d);
      }
    }
  }

  lemma {:induction false} OwnedWithout(w: World, v: World, id: int, d: int)
    requires KnownAll(w) && id in w.active && v.active == w.active - {id} && v.queries == w.queries && w.active[id] in w.queries
    ensures |Owned(v, d)| == |Owned(w, d)| - if w.queries[w.active[id]].client == d then 1 else 0
  {
    forall x ensures x in Owned(v, d) <==> x in Owned(w, d) && x != id {
    }
    assert Owned(v, d) == Owned(w, d) - {id};
  }

  lemma DeactivateFrame(w: World, k: int)
    requires Known(w, k) && ActiveOk(w) && IdsOk(w)
    ensures Frame(w, Deactivate(w, k), k)
  {
    if MsgId(w.queries[k]) != 0 {
      OwnEntry(w, k);
    }
    hide ActiveOk, IdsOk;
  }

  // A step that leaves the active map, the counts, and the ids and clients of the
  // queries in the map alone.
  lemma {:induction false} SameEntries(w: World, v: World)
    requires ActiveOk(w) && CountsOk(w) && v.active == w.active
    requires forall id | id in w.active ::
               var k := w.active[id];
               k in v.queries && MsgId(v.queries[k]) == MsgId(w.queries[k]) && v.queries[k].client == w.queries[k].client
    requires forall c | c in v.clients :: c in w.clients && v.clients[c].count == w.clients[c].count
    ensures ActiveOk(v) && CountsOk(v)
  {
    forall id | id in v.active
      ensures v.active[id] in v.queries && IsActive(v, v.active[id]) && MsgId(v.queries[v.active[id]]) == id
    {
      assert IsActive(w, w.active[id]);
    }
    forall d | d in v.clients ensures v.clients[d].count == |Owned(v, d)| {
      assert Owned(v, d) == Owned(w, d);
    }
  }

  // Changing a query that is not active, or one field of it that nothing refers to.
  predicate Update(w: World, k: int, q: Query, v: World)
    requires Known(w, k)
  {
    && q.client in w.clients && v == SetQuery(w, k, q).(used := v.used, current := v.current) && w.used <= v.used
    && (q.client == w.queries[k].client || (!IsActive(w, k) && !IsPending(w, k)))
    && (MsgId(q) == MsgId(w.queries[k]) || (!IsActive(w, k) && (MsgId(q) == 0 || MsgId(q) !in w.used)))
    && (MsgId(q) != 0 ==> MsgId(q) in v.used)
  }

  lemma {:induction false} UpdateKeeps(w: World, k: int, q: Query, v: World)
    requires Base(w) && k in w.queries && Known(w, k) && Update(w, k, q, v)
    ensures Base(v) && Frame(w, v, k) && SameLists(w, v) && Known(v, k)
    ensures IsActive(v, k) <==> IsActive(w, k)
    ensures q.client == w.queries[k].client ==> (IsPending(v, k) <==> IsPending(w, k))
  {
    UpdateEntries(w, k, q, v);
    UpdateLists(w, k, q, v);
    UpdateIds(w, k, q, v);
    UpdateFrame(w, k, q, v);
    hide Frame, ActiveOk, IdsOk, CountsOk, PendingOk, KnownAll;
  }

  lemma {:induction false} UpdateEntries(w: World, k: int, q: Query, v: World)
    requires ActiveOk(w) && CountsOk(w) && Known(w, k) && Update(w, k, q, v)
    ensures ActiveOk(v) && CountsOk(v) && (IsActive(v, k) <==> IsActive(w, k))
  {
    NotUnder(w, k);
    SameEntries(w, v);
    hide CountsOk;
  }

  lemma UpdateLists(w: World, k: int, q: Query, v: World)
    requires PendingOk(w) && Known(w, k) && Update(w, k, q, v)
    ensures PendingOk(v) && SameLists(w, v)
    ensures q.client == w.queries[k].client ==> (IsPending(v, k) <==> IsPending(w, k))
  {
    hide IsActive;
  }

  lemma UpdateIds(w: World, k: int, q: Query, v: World)
    requires KnownAll(w) && IdsOk(w) && Known(w, k) && Update(w, k, q, v)
    ensures KnownAll(v) && IdsOk(v)
  {
    hide IsActive, IsPending;
  }

  lemma UpdateFrame(w: World, k: int, q: Query, v: World)
    requires ActiveOk(w) && Known(w, k) && Update(w, k, q, v)
    ensures Frame(w, v, k)
  {
    hide ActiveOk;
  }

  lemma NotUnder(w: World, k: int)
    requires ActiveOk(w) && k in w.queries
    ensures !IsActive(w, k) ==> forall id | id in w.active :: w.active[id] != k
  {
  }

  // Flags and the session of a client may change at any time.
  lemma {:induction false} ClientKeeps(w: World, c: int, s: Client)
    requires Base(w) && c in w.clients && s.count == w.clients[c].count && s.pending == w.clients[c].pending
    ensures Base(SetClient(w, c, s)) && (s.loggingOut == w.clients[c].loggingOut ==> SameLists(w, SetClient(w, c, s)))
    ensures forall k :: Frame(w, SetClient(w, c, s), k)
  {
    var v := SetClient(w, c, s);
    assert KnownAll(v) && IdsOk(v) && PendingOk(v);
    SameEntries(w, v);
    hide ActiveOk, CountsOk, IdsOk, PendingOk;
  }

  lemma {:induction false} AddPendingKeeps(w: World, k: int)
    requires Base(w) && k in w.queries
    ensures Base(AddPending(w, k)) && Frame(w, AddPending(w, k), k)
    ensures AddPending(w, k).queries == w.queries && AddPending(w, k).used == w.used
    ensures IsPending(AddPending(w, k), k) && (IsActive(AddPending(w, k), k) <==> IsActive(w, k))
    ensures PendingGrows(w, AddPending(w, k))
  {
    if !IsPending(w, k) {
      ListKeeps(w, w.queries[k].client, w.clients[w.queries[k].client].pending + [k], k);
    }
  }

  // A new list of pending queries that differs from the old one in k at most.
  lemma {:induction false} ListKeeps(w: World, c: int, list: seq<int>, k: int)
    requires Base(w) && k in w.queries && c == w.queries[k].client && NoDup(list)
    requires forall j | j != k :: j in list <==> j in w.clients[c].pending
    ensures var v := SetClient(w, c, w.clients[c].(pending := list));
            && Base(v) && Frame(w, v, k) && (IsPending(v, k) <==> k in list) && (IsActive(v, k) <==> IsActive(w, k))
  {
    var v := SetClient(w, c, w.clients[c].(pending := list));
    assert KnownAll(v) && IdsOk(v);
    SameEntries(w, v);
    hide ActiveOk, IdsOk, CountsOk;
    assert PendingOk(v);
  }

  predicate PendingGrows(w: World, v: World) {
    forall c | c in w.clients ::
      && c in v.clients && v.clients[c].loggingOut == w.clients[c].loggingOut
      && forall j | j in w.clients[c].pending :: j in v.clients[c].pending
  }

  predicate PendingBut(w: World, v: World, k: int) {
    forall c | c in w.clients ::
      && c in v.clients && v.clients[c].loggingOut == w.clients[c].loggingOut
      && forall j | j in w.clients[c].pending && j != k :: j in v.clients[c].pending
  }

  lemma {:induction false} WithoutMembers(s: seq<int>, k: int, j: int)
    ensures j in Without(s, k) <==> j in s && j != k
  {
    if s != [] {
      WithoutMembers(s[1..], k, j);
    }
  }

  lemma {:induction false} WithoutNoDup(s: seq<int>, k: int)
    requires NoDup(s)
    ensures NoDup(Without(s, k))
  {
    if s != [] {
      WithoutNoDup(s[1..], k);
      WithoutMembers(s[1..], k, s[0]);
    }
  }

  lemma {:induction false} RemovePendingKeeps(w: World, k: int)
    requires Base(w) && k in w.queries
    ensures var v := RemovePending(w, w.queries[k].client, k);
            && Base(v) && Frame(w, v, k) && v.queries == w.queries && v.used == w.used
            && !IsPending(v, k) && (IsActive(v, k) <==> IsActive(w, k))
            && PendingBut(w, v, k)
  {
    var c := w.queries[k].client;
    forall j ensures j in Without(w.clients[c].pending, k) <==> j in w.clients[c].pending && j != k {
      WithoutMembers(w.clients[c].pending, k, j);
    }
    WithoutNoDup(w.clients[c].pending, k);
    ListKeeps(w, c, Without(w.clients[c].pending, k), k);
    hide Base, Frame;
  }

  // ---- What the operations make of query k ----

  lemma {:induction false} QuietKeeps(w: World, k: int)
    requires Base(w) && k in w.queries
    ensures var v := Deactivate(ClearTimers(w, k), k);
            && Base(v) && Frame(w, v, k) && SameLists(w, v) && v.used == w.used && !IsActive(v, k)
            && v.queries[k] == w.queries[k].(timeout := false, retry := false)
  {
    var u := ClearTimers(w, k);
    UpdateKeeps(w, k, u.queries[k], u);
    DeactivateKeeps(u, k);
    FrameTrans(w, u, Deactivate(u, k), k);
    hide Base;
  }

  lemma FrameTrans(w: World, u: World, v: World, k: int)
    requires Frame(w, u, k) && Frame(u, v, k)
    ensures Frame(w, v, k)
  {
  }

  // What an error leads to: another try, a prompt, or the end.
  predicate Retries(d: Kind, e: Error) {
    match e
    case Refused => false
    case Migrate(_) => d.retriesError || d.login
    case PasswordNeeded(_) => !d.signsIn
    case _ => d.retriesError
  }

  predicate Asks(d: Kind, e: Error) { e.PasswordNeeded? && !e.locked && d.signsIn }

  function AfterError(q: Query, q': Query, e: Error): Query {
    var r := Retries(q.kind, e);
    q.(acked := q'.acked, session := q'.session, client := if e.Migrate? then e.client else q.client,
       timeout := false, retry := r, kept := q.kept || r, asking := q.asking + if Asks(q.kind, e) then 1 else 0,
       calls := q.calls + if e.Refused? then [OnError] else [])
  }

  ghost predicate NowherePending(w: World, k: int) { forall c | c in w.clients :: k !in w.clients[c].pending }

  // A query that is not pending with its own client is pending with none.
  lemma {:induction false} PendingNowhere(w: World, k: int)
    requires Base(w) && k in w.queries && !IsPending(w, k)
    ensures NowherePending(w, k)
  {
  }

  lemma {:induction false} ErrorKeeps(w: World, k: int, e: Error)
    requires Base(w) && k in w.queries && (Asks(w.queries[k].kind, e) ==> MsgId(w.queries[k]) != 0)
    requires e.Migrate? ==> e.client in w.clients && NowherePending(w, k)
    ensures var v := HandleError(w, k, e);
            && Base(v) && Frame(w, v, k) && SameLists(w, v) && v.used == w.used
            && v.queries[k] == AfterError(w.queries[k], v.queries[k], e)
            && (IsActive(v, k) <==> Asks(w.queries[k].kind, e))
  {
    assert Known(w, k);
    var u, v := Deactivate(ClearTimers(w, k), k), HandleError(w, k, e);
    QuietKeeps(w, k);
    ErrorChanges(w, k, e);
    assert e.Migrate? ==> NowherePending(u, k);
    assert IsPending(u, k) <==> IsPending(w, k);
    hide *;
    if Asks(w.queries[k].kind, e) {
      AskedKeeps(w, u, v, k, e);
    } else {
      OtherErrorKeeps(w, u, v, k, e);
    }
  }

  // u is what w has become once query k is quiet.
  predicate Quieted(w: World, u: World, k: int)
    requires Known(w, k) && Known(u, k)
  {
    && SameLists(w, u) && u.used == w.used && !IsActive(u, k)
    && u.queries[k] == w.queries[k].(timeout := false, retry := false)
  }

  lemma {:induction false} AskedKeeps(w: World, u: World, v: World, k: int, e: Error)
    requires Base(u) && Frame(w, u, k) && Known(w, k) && Known(u, k) && Quieted(w, u, k)
    requires Asks(w.queries[k].kind, e) && MsgId(w.queries[k]) != 0 && v == AskPassword(u, k)
    ensures Base(v) && Frame(w, v, k) && SameLists(w, v) && v.used == w.used && Known(v, k) && IsActive(v, k)
    ensures v.queries[k] == AfterError(w.queries[k], v.queries[k], e)
  {
    hide Base, Frame, AskPassword, AfterError;
    AskKeeps(u, k);
    AskedAfterError(w.queries[k], v.queries[k], e);
    FrameTrans(w, u, v, k);
  }

  lemma {:induction false} OtherErrorKeeps(w: World, u: World, v: World, k: int, e: Error)
    requires Base(u) && Frame(w, u, k) && Known(w, k) && Known(u, k) && Quieted(w, u, k)
    requires e.Migrate? ==> e.client in u.clients && NowherePending(u, k)
    requires k in v.queries && v == SetQuery(u, k, v.queries[k]).(current := v.current)
    requires v.queries[k] == AfterError(w.queries[k], v.queries[k], e)
    ensures Base(v) && Frame(w, v, k) && SameLists(w, v) && v.used == w.used && Known(v, k) && !IsActive(v, k)
  {
    ErrorClient(w.queries[k], v.queries[k], e);
    hide Base, Frame, AfterError;
    ErrorUpdates(u, k, v);
    FrameTrans(w, u, v, k);
  }

  lemma ErrorClient(q: Query, q': Query, e: Error)
    requires q' == AfterError(q, q', e)
    ensures q'.client == (if e.Migrate? then e.client else q.client) && MsgId(q') == MsgId(q)
  {
  }

  lemma AskedAfterError(q: Query, q': Query, e: Error)
    requires Asks(q.kind, e) && q' == q.(timeout := false, retry := false).(asking := q.asking + 1)
    ensures q' == AfterError(q, q', e)
  {
  }

  lemma {:induction false} AskKeeps(u: World, k: int)
    requires Base(u) && k in u.queries && !IsActive(u, k) && MsgId(u.queries[k]) != 0
    ensures var v := AskPassword(u, k);
            && Base(v) && Frame(u, v, k) && SameLists(u, v) && v.used == u.used && Known(v, k) && IsActive(v, k)
            && v.queries[k] == u.queries[k].(asking := u.queries[k].asking + 1)
  {
    AddActiveKeeps(u, k);
    hide AddActive, Base, Frame;
    var a, v := AddActive(u, k), AskPassword(u, k);
    ErrorUpdates(a, k, v);
    FrameTrans(u, a, v, k);
  }

  // Without a prompt an error changes nothing but the query, once that is quiet.
  lemma {:induction false} ErrorChanges(w: World, k: int, e: Error)
    requires Known(w, k) && (e.Migrate? ==> e.client in w.clients)
    ensures var u := Deactivate(ClearTimers(w, k), k);
            var v := HandleError(w, k, e);
            && k in v.queries && Known(u, k)
            && if Asks(w.queries[k].kind, e) then v == AskPassword(u, k)
               else v == SetQuery(u, k, v.queries[k]).(current := v.current)
                    && v.queries[k] == AfterError(w.queries[k], v.queries[k], e)
  {
    DeactivateKeepsKnown(w, k);
    hide Deactivate, AskPassword;
  }

  lemma {:induction false} ErrorUpdates(u: World, k: int, v: World)
    requires Base(u) && k in u.queries && k in v.queries && v.queries[k].client in u.clients
    requires v == SetQuery(u, k, v.queries[k]).(current := v.current) && MsgId(v.queries[k]) == MsgId(u.queries[k])
    requires v.queries[k].client == u.queries[k].client || (!IsActive(u, k) && NowherePending(u, k))
    ensures Base(v) && Frame(u, v, k) && SameLists(u, v) && (IsActive(v, k) <==> IsActive(u, k))
  {
    UpdateKeeps(u, k, v.queries[k], v);
  }

  // Message ids are never used twice.
  predicate GoodEnv(w: World, env: Env) { env.id.Some? ==> env.id.value != 0 && env.id.value !in w.used }

  predicate Uses(w: World, v: World, env: Env) { w.used <= v.used <= w.used + if env.id.Some? then {env.id.value} else {} }

  function AfterSend(q: Query, q': Query, ok: bool): Query {
    if ok then q.(acked := false, msgId := q'.msgId, session := q'.session, timeout := true)
    else q.(acked := false, msgId := 0, timeout := false, retry := false, calls := q.calls + [OnError])
  }

  lemma {:induction false} SendKeeps(w: World, k: int, env: Env)
    requires Base(w) && k in w.queries && !IsActive(w, k) && GoodEnv(w, env)
    ensures var v := Send(w, k, env);
            && Base(v) && Frame(w, v, k) && SameLists(w, v) && Uses(w, v, env)
            && v.queries[k] == AfterSend(w.queries[k], v.queries[k], CanSend(w, k, env))
            && (IsActive(v, k) <==> CanSend(w, k, env))
  {
    if CanSend(w, k, env) {
      SentKeeps(w, k, env);
    } else {
      var u := SetQuery(w, k, w.queries[k].(acked := false, msgId := 0));
      UpdateKeeps(w, k, u.queries[k], u);
      hide HandleError, Base;
      ErrorKeeps(u, k, Refused);
      FrameTrans(w, u, Send(w, k, env), k);
    }
  }

  lemma {:induction false} SentKeeps(w: World, k: int, env: Env)
    requires Base(w) && k in w.queries && !IsActive(w, k) && GoodEnv(w, env) && CanSend(w, k, env)
    ensures var v := Send(w, k, env);
            && Base(v) && Frame(w, v, k) && SameLists(w, v) && Uses(w, v, env) && IsActive(v, k)
            && v.queries[k] == AfterSend(w.queries[k], v.queries[k], true)
  {
    var q := w.queries[k];
    var id := if q.kind.override != 0 then q.kind.override else env.id.value;
    var p := q.(acked := false, msgId := id);
    var u := SetQuery(w, k, p).(used := w.used + {id});
    assert q.kind.override != 0 ==> MsgId(q) in w.used;
    UpdateKeeps(w, k, p, u);
    hide Base;
    AddActiveKeeps(u, k);
    hide AddActive;
    var a := AddActive(u, k);
    var v := Send(w, k, env);
    ErrorUpdates(a, k, v);
    FrameTrans(w, u, a, k);
    FrameTrans(w, a, v, k);
  }

  // Query k after SendOrWait: refused, waiting, sent, or not to be sent.
  ghost predicate SendOutcome(w: World, v: World, k: int, env: Env)
    requires Known(w, k) && Known(v, k)
  {
    var q, q' := w.queries[k], v.queries[k];
    if LoggingOut(w, k) then
      q' == q.(calls := q.calls + [OnError]) && !IsActive(v, k) && (IsPending(v, k) <==> IsPending(w, k))
    else if MustWait(w, k, env) then
      q' == q.(timeout := q.timeout || q.kind.timesWaiting) && !IsActive(v, k) && IsPending(v, k)
    else
      && q' == AfterSend(q, q', CanSend(w, k, env))
      && (IsActive(v, k) <==> CanSend(w, k, env)) && (IsPending(v, k) <==> IsPending(w, k))
  }

  lemma {:induction false} SendOrWaitKeeps(w: World, k: int, env: Env)
    requires Base(w) && k in w.queries && !IsActive(w, k) && GoodEnv(w, env)
    ensures Sends(w, SendOrWait(w, k, env), k, env)
  {
    assert Known(w, k);
    hide *;
    if LoggingOut(w, k) {
      TurnedAwayKeeps(w, k, env);
    } else if MustWait(w, k, env) {
      MadeToWaitKeeps(w, k, env);
    } else {
      SendingKeeps(w, k, env);
    }
  }

  // A step under which query k comes to what SendOutcome says.
  ghost predicate Sends(w: World, v: World, k: int, env: Env)
    requires Known(w, k)
  {
    && Base(v) && Frame(w, v, k) && PendingGrows(w, v) && Uses(w, v, env) && Known(v, k)
    && SendOutcome(w, v, k, env)
  }

  lemma {:induction false} TurnedAwayKeeps(w: World, k: int, env: Env)
    requires Base(w) && Known(w, k) && !IsActive(w, k) && LoggingOut(w, k)
    ensures Sends(w, SendOrWait(w, k, env), k, env)
  {
    var q := w.queries[k].(calls := w.queries[k].calls + [OnError]);
    hide Base, Frame;
    UpdateKeeps(w, k, q, SetQuery(w, k, q));
  }

  lemma {:induction false} MadeToWaitKeeps(w: World, k: int, env: Env)
    requires Base(w) && Known(w, k) && !IsActive(w, k) && !LoggingOut(w, k) && MustWait(w, k, env)
    ensures Sends(w, SendOrWait(w, k, env), k, env)
  {
    var u := WithSession(w, k, env);
    hide Base, Frame, Wait;
    SessionKeeps(w, k, env);
    WaitKeeps(u, k);
    FrameTrans(w, u, Wait(u, k), k);
    GrowsFrom(w, u, Wait(u, k));
  }

  lemma GrowsFrom(w: World, u: World, v: World)
    requires SameLists(w, u) && PendingGrows(u, v)
    ensures PendingGrows(w, v)
  {
  }

  lemma {:induction false} SendingKeeps(w: World, k: int, env: Env)
    requires Base(w) && Known(w, k) && !IsActive(w, k) && GoodEnv(w, env) && !LoggingOut(w, k) && !MustWait(w, k, env)
    ensures Sends(w, SendOrWait(w, k, env), k, env)
  {
    assert WithSession(w, k, env) == w;
    var v := Send(w, k, env);
    assert SendOrWait(w, k, env) == v;
    SendKeeps(w, k, env);
    hide Base, Frame, Send, SendOrWait, LoggingOut, MustWait, CanSend, AfterSend, IsActive;
  }

  lemma {:induction false} SessionKeeps(w: World, k: int, env: Env)
    requires Base(w) && k in w.queries
    ensures var u := WithSession(w, k, env);
            && Base(u) && Frame(w, u, k) && SameLists(w, u) && u.queries == w.queries && u.used == w.used
            && (IsActive(u, k) <==> IsActive(w, k))
  {
    var c := w.queries[k].client;
    ClientKeeps(w, c, w.clients[c].(session := Some(env.session)));
    hide Base;
  }

  lemma {:induction false} WaitKeeps(u: World, k: int)
    requires Base(u) && k in u.queries && !IsActive(u, k)
    ensures var (q, v) := (u.queries[k], Wait(u, k));
            && Base(v) && Frame(u, v, k) && PendingGrows(u, v) && v.used == u.used && Known(v, k)
            && v.queries[k] == q.(timeout := q.timeout || q.kind.timesWaiting) && !IsActive(v, k) && IsPending(v, k)
  {
    var q := u.queries[k];
    var t := SetQuery(u, k, q.(timeout := q.timeout || q.kind.timesWaiting));
    UpdateKeeps(u, k, t.queries[k], t);
    assert Wait(u, k) == AddPending(t, k);
    hide Base, Frame, AddPending, Wait, SameLists, PendingGrows, IsActive, IsPending;
    AddPendingKeeps(t, k);
    FrameTrans(u, t, Wait(u, k), k);
    GrowsFrom(u, t, Wait(u, k));
  }

  lemma {:induction false} AnswerKeeps(w: World, k: int)
    requires Base(w) && Known(w, k) && IsActive(w, k)
    ensures var (q, v) := (w.queries[k], HandleResult(w, k));
            && Base(v) && Frame(w, v, k) && SameLists(w, v) && Known(v, k) && !IsActive(v, k)
            && v.queries[k] == q.(timeout := false, retry := false, calls := q.calls + [OnAnswer])
  {
    var u := Tell(w, k, OnAnswer);
    UpdateKeeps(w, k, u.queries[k], u);
    assert HandleResult(w, k) == Deactivate(ClearTimers(u, k), k);
    hide Base, Frame, HandleResult, Deactivate;
    QuietKeeps(u, k);
    FrameTrans(w, u, HandleResult(w, k), k);
  }

  // A timeout that is not followed by another try, wherever the query was.
  lemma {:induction false} TimeoutKeeps(w: World, k: int, env: Env)
    requires Base(w) && k in w.queries && !w.queries[k].kind.retriesTimeout
    ensures var (q, v) := (w.queries[k], TimeoutAlarm(w, k, env));
            && Base(v) && Frame(w, v, k) && Known(v, k) && !IsActive(v, k) && !IsPending(v, k)
            && v.queries[k] == q.(timeout := false, retry := false, calls := q.calls + [OnTimeout])
  {
    var u := Tell(w, k, OnTimeout);
    UpdateKeeps(w, k, u.queries[k], u);
    var d := Deactivate(ClearTimers(u, k), k);
    TimeoutParts(w, k, env);
    hide Base, Frame, Deactivate, TimeoutAlarm, RemovePending;
    QuietKeeps(u, k);
    RemovePendingKeeps(d, k);
    FrameTrans(w, u, d, k);
    FrameTrans(w, d, TimeoutAlarm(w, k, env), k);
  }

  lemma TimeoutParts(w: World, k: int, env: Env)
    requires Known(w, k) && !w.queries[k].kind.retriesTimeout
    ensures var u := Tell(w, k, OnTimeout);
            var d := Deactivate(ClearTimers(u, k), k);
            Known(d, k) && TimeoutAlarm(w, k, env) == RemovePending(d, d.queries[k].client, k)
  {
    assert ClearTimers(Tell(w, k, OnTimeout), k) == Tell(ClearTimers(w, k), k, OnTimeout);
  }

  // The prompt takes the query out again, but leaves its timers to its object.
  lemma {:induction false} PromptKeeps(w: World, k: int)
    requires Base(w) && k in w.queries && w.queries[k].asking > 0
    ensures var (q, v) := (w.queries[k], PasswordDone(w, k));
            && Base(v) && Frame(w, v, k) && Known(v, k) && (IsPending(v, k) <==> IsPending(w, k))
            && !IsActive(v, k)
            && v.queries[k] == AfterPrompt(q, Alive(w, k), IsPending(w, k) || q.kept || q.kind.held)
  {
    if Alive(w, k) {
      ToldKeeps(w, k);
    } else {
      UpdateKeeps(w, k, w.queries[k].(asking := w.queries[k].asking - 1), PasswordDone(w, k));
    }
  }

  lemma {:induction false} ToldKeeps(w: World, k: int)
    requires Base(w) && k in w.queries && w.queries[k].asking > 0 && Alive(w, k)
    ensures var (q, v) := (w.queries[k], PasswordDone(w, k));
            && Base(v) && Frame(w, v, k) && Known(v, k) && (IsPending(v, k) <==> IsPending(w, k))
            && !IsActive(v, k)
            && v.queries[k] == AfterPrompt(q, true, IsPending(w, k) || q.kept || q.kind.held)
  {
    var u := Tell(SetQuery(w, k, w.queries[k].(asking := w.queries[k].asking - 1)), k, OnPrompt);
    assert u == SetQuery(w, k, u.queries[k]);
    UpdateKeeps(w, k, u.queries[k], u);
    PromptParts(w, k);
    var d := Deactivate(u, k);
    DeactivateKeeps(u, k);
    hide Base, Frame, Deactivate, PasswordDone;
    BuryKeeps(d, k);
    FrameTrans(w, u, d, k);
    FrameTrans(w, d, Bury(d, k), k);
  }

  lemma PromptParts(w: World, k: int)
    requires Known(w, k) && w.queries[k].asking > 0 && Alive(w, k)
    ensures var u := Tell(SetQuery(w, k, w.queries[k].(asking := w.queries[k].asking - 1)), k, OnPrompt);
            Known(Deactivate(u, k), k) && PasswordDone(w, k) == Bury(Deactivate(u, k), k)
  {
  }

  function AfterPrompt(q: Query, told: bool, stays: bool): Query {
    var p := q.(asking := if q.asking > 0 then q.asking - 1 else 0);
    if told then p.(calls := q.calls + [OnPrompt], timeout := q.timeout && stays, retry := q.retry && stays) else p
  }

  lemma {:induction false} BuryKeeps(w: World, k: int)
    requires Base(w) && k in w.queries
    ensures var (q, v) := (w.queries[k], Bury(w, k));
            && Base(v) && Frame(w, v, k) && SameLists(w, v) && v.used == w.used && Known(v, k)
            && (IsActive(v, k) <==> IsActive(w, k)) && (IsPending(v, k) <==> IsPending(w, k))
            && v.queries[k] == q.(timeout := q.timeout && Alive(w, k), retry := q.retry && Alive(w, k))
  {
    var c := ClearTimers(w, k);
    UpdateKeeps(w, k, c.queries[k], c);
  }

  // ---- Sending a pending query ----

  function AfterSendOne(w: World, q: Query, q': Query, k: int, env: Env): Query
    requires Known(w, k)
  {
    var alive := q.kept || q.kind.held;
    if LoggingOut(w, k) then q.(calls := q.calls + [OnError], timeout := q.timeout && alive, retry := q.retry && alive)
    else if MustWait(w, k, env) then q.(timeout := q.timeout || q.kind.timesWaiting)
    else AfterSend(q, q', CanSend(w, k, env))
  }

  lemma {:induction false} SendOneKeeps(w: World, c: int, k: int, env: Env)
    requires Base(w) && c in w.clients && k in w.clients[c].pending && GoodEnv(w, env) && k in w.queries && !IsActive(w, k)
    ensures var v := SendOnePending(w, c, k, env);
            && Base(v) && Frame(w, v, k) && PendingBut(w, v, k) && Uses(w, v, env) && Known(v, k)
  {
    assert c == w.queries[k].client;
    SendOrWaitKeeps(w, k, env);
    var u := SendOrWait(w, k, env);
    if LoggingOut(w, k) || !MustWait(w, k, env) {
      SameTakeOff(w, c, k, env);
      hide *;
      TakenOff(u, k);
      FrameTrans(w, u, TakeOff(u, k), k);
      PendingTrans(w, u, TakeOff(u, k), k);
      UsesTrans(w, u, TakeOff(u, k), env);
    } else {
      hide Base, Frame, SendOrWait, SendOutcome, MustWait, LoggingOut;
    }
  }

  lemma PendingTrans(w: World, u: World, v: World, k: int)
    requires PendingGrows(w, u) && PendingBut(u, v, k)
    ensures PendingBut(w, v, k)
  {
  }

  lemma UsesTrans(w: World, u: World, v: World, env: Env)
    requires Uses(w, u, env) && v.used == u.used
    ensures Uses(w, v, env)
  {
  }

  lemma {:induction false} SendOneOutcome(w: World, c: int, k: int, env: Env)
    requires Base(w) && c in w.clients && k in w.clients[c].pending && GoodEnv(w, env) && k in w.queries && !IsActive(w, k)
    ensures var v := SendOnePending(w, c, k, env);
            && Known(v, k)
            && v.queries[k] == AfterSendOne(w, w.queries[k], v.queries[k], k, env)
            && (IsPending(v, k) <==> !LoggingOut(w, k) && MustWait(w, k, env))
            && (IsActive(v, k) <==> !LoggingOut(w, k) && !MustWait(w, k, env) && CanSend(w, k, env))
  {
    assert c == w.queries[k].client;
    SendOrWaitKeeps(w, k, env);
    hide Base, Frame, SendOrWait, MustWait, LoggingOut, CanSend;
    if LoggingOut(w, k) || !MustWait(w, k, env) {
      TakenOff(SendOrWait(w, k, env), k);
    }
  }

  lemma SameTakeOff(w: World, c: int, k: int, env: Env)
    requires Known(w, k) && c == w.queries[k].client && (LoggingOut(w, k) || !MustWait(w, k, env))
    requires Known(SendOrWait(w, k, env), k) && SendOrWait(w, k, env).queries[k].client == c
    ensures SendOnePending(w, c, k, env) == TakeOff(SendOrWait(w, k, env), k)
  {
    hide SendOrWait;
  }

  function TakeOff(w: World, k: int): World
    requires Known(w, k)
  {
    Bury(RemovePending(w, w.queries[k].client, k), k)
  }

  lemma {:induction false} TakenOff(w: World, k: int)
    requires Base(w) && k in w.queries
    ensures var (q, v) := (w.queries[k], TakeOff(w, k));
            var alive := IsActive(w, k) || q.kept || q.kind.held;
            && Base(v) && Frame(w, v, k) && PendingBut(w, v, k) && v.used == w.used && Known(v, k)
            && !IsPending(v, k) && (IsActive(v, k) <==> IsActive(w, k))
            && v.queries[k] == q.(timeout := q.timeout && alive, retry := q.retry && alive)
  {
    var r := RemovePending(w, w.queries[k].client, k);
    RemovePendingKeeps(w, k);
    BuryKeeps(r, k);
    hide Base, Frame;
    FrameTrans(w, r, TakeOff(w, k), k);
  }
}
