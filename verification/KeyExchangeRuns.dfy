/** Two peers re-keying over in-order channels (src/secret_chat.cpp). */
module KeyExchangeRuns {
  import opened ModArith
  import opened KeyExchange
  import opened Wrappers

  // Both peers, the packets in flight each way, every key ever installed, every
  // exchange id ever drawn, and the actions dropped for a foreign fingerprint.
  datatype World = World(x: Party, y: Party, xy: seq<Packet>, yx: seq<Packet>,
                         installed: set<nat>, ids: set<int>, dropped: seq<Action>)

  function Swap(w: World): World { w.(x := w.y, y := w.x, xy := w.yx, yx := w.xy) }

  function Start(key: nat): World {
    World(Party(NoExchange, 0, 0, key, []), Party(NoExchange, 0, 0, key, []), [], [], {key}, {}, [])
  }

  // ---- Steps of peer x ----

  function Says(w: World, body: string): World { w.(x := Enqueue(w.x, Text(body))) }

  function Asks(q: ValidGroup, w: World, id: int, a: nat): World {
    w.(x := Request(q, w.x, id, a), ids := w.ids + {id})
  }

  function Sends(w: World): World
    requires w.x.outbox != []
  {
    w.(x := AfterSend(w.x), xy := w.xy + [Sent(w.x)], installed := w.installed + {AfterSend(w.x).encKey})
  }

  function Gets(q: ValidGroup, w: World, b: nat): World
    requires w.yx != []
  {
    var x := Fetch(q, w.x, w.yx[0], b);
    w.(x := x, yx := w.yx[1..], installed := w.installed + {x.encKey},
       dropped := if Readable(w.x, w.yx[0]) then w.dropped else w.dropped + [w.yx[0].action])
  }

  // An accepted exchange never reproduces a key that was used before.
  predicate FreshKey(w: World, w': World) {
    w.x.state != Accepted && w'.x.state == Accepted ==> w'.x.exKey !in w.installed
  }

  ghost predicate StepX(q: ValidGroup, w: World, w': World) {
    || (exists body: string :: w' == Says(w, body))
    || (exists id: int, a: nat :: w.x.state == NoExchange && id !in w.ids && w' == Asks(q, w, id, a))
    || (w.x.outbox != [] && w' == Sends(w))
    || (w.yx != [] && exists b: nat :: w' == Gets(q, w, b) && FreshKey(w, w'))
  }

  ghost predicate Step(q: ValidGroup, w: World, w': World) {
    StepX(q, w, w') || StepX(q, Swap(w), Swap(w'))
  }

  ghost predicate IsRun(q: ValidGroup, ws: seq<World>) {
    && |ws| > 0 && (exists key: nat :: ws[0] == Start(key))
    && forall i | 0 <= i < |ws| - 1 :: Step(q, ws[i], ws[i + 1])
  }

  // ---- Handshake messages on their way ----

  predicate IsHandshake(a: Action) { a.RequestKey? || a.AcceptKey? || a.CommitKey? }

  function Handshakes(s: seq<Action>): seq<Action> {
    if s == [] then []
    else (if IsHandshake(s[0]) then [s[0]] else []) + Handshakes(s[1..])
  }

  function Actions(ps: seq<Packet>): seq<Action> {
    seq(|ps|, i requires 0 <= i < |ps| => ps[i].action)
  }

  // In flight first, then still waiting to be sent.
  function OnTheWay(ps: seq<Packet>, outbox: seq<Action>): seq<Action> {
    Handshakes(Actions(ps) + outbox)
  }

  lemma {:induction false} HandshakesConcat(s: seq<Action>, t: seq<Action>)
    ensures Handshakes(s + t) == Handshakes(s) + Handshakes(t)
  {
    if s == [] {
      assert s + t == t;
    } else {
      var first := if IsHandshake(s[0]) then [s[0]] else [];
      var rest := s[1..];
      HandshakesConcat(rest, t);
      assert (s + t)[1..] == rest + t;
      assert Handshakes(s) == first + Handshakes(rest) && Handshakes(s + t) == first + Handshakes(rest + t);
      Assoc(first, Handshakes(rest), Handshakes(t));
    }
  }

  lemma {:induction false} OnTheWayEnqueue(ps: seq<Packet>, outbox: seq<Action>, a: Action)
    ensures OnTheWay(ps, outbox + [a]) == OnTheWay(ps, outbox) + (if IsHandshake(a) then [a] else [])
  {
    HandshakesConcat(Actions(ps) + outbox, [a]);
    assert Actions(ps) + (outbox + [a]) == Actions(ps) + outbox + [a];
    assert Handshakes([a]) == if IsHandshake(a) then [a] else [];
  }

  lemma {:induction false} OnTheWaySend(ps: seq<Packet>, outbox: seq<Action>, key: nat)
    requires outbox != []
    ensures OnTheWay(ps + [Packet(key, outbox[0])], outbox[1..]) == OnTheWay(ps, outbox)
    ensures Handshakes(Actions(ps + [Packet(key, outbox[0])])) ==
            Handshakes(Actions(ps)) + (if IsHandshake(outbox[0]) then [outbox[0]] else [])
  {
    assert Actions(ps + [Packet(key, outbox[0])]) == Actions(ps) + [outbox[0]];
    assert Actions(ps) + [outbox[0]] + outbox[1..] == Actions(ps) + outbox;
    HandshakesConcat(Actions(ps), [outbox[0]]);
    assert Handshakes([outbox[0]]) == if IsHandshake(outbox[0]) then [outbox[0]] else [];
  }

  lemma {:induction false} OnTheWayGet(ps: seq<Packet>, outbox: seq<Action>)
    requires ps != []
    ensures OnTheWay(ps, outbox) ==
            (if IsHandshake(ps[0].action) then [ps[0].action] else []) + OnTheWay(ps[1..], outbox)
    ensures Handshakes(Actions(ps)) ==
            (if IsHandshake(ps[0].action) then [ps[0].action] else []) + Handshakes(Actions(ps[1..]))
  {
    assert Actions(ps)[1..] == Actions(ps[1..]);
    assert (Actions(ps) + outbox)[1..] == Actions(ps[1..]) + outbox;
  }

  // Handshake packets are encrypted under the key their reader will have by then:
  // its present key, or the next one once the commit has been read.
  predicate KeysMatch(now: nat, next: nat, ps: seq<Packet>)
    decreases |ps|
  {
    ps == [] ||
    ((IsHandshake(ps[0].action) ==> ps[0].key == now)
     && KeysMatch(if ps[0].action.CommitKey? then next else now, next, ps[1..]))
  }

  lemma {:induction false} KeysMatchSend(now: nat, next: nat, ps: seq<Packet>, p: Packet)
    requires KeysMatch(now, next, ps)
    requires IsHandshake(p.action) ==> p.key == if CommitIn(ps) then next else now
    ensures KeysMatch(now, next, ps + [p])
    decreases |ps|
  {
    if ps != [] {
      assert (ps + [p])[1..] == ps[1..] + [p];
      KeysMatchSend(if ps[0].action.CommitKey? then next else now, next, ps[1..], p);
    }
  }

  predicate CommitIn(ps: seq<Packet>) {
    ps != [] && (ps[0].action.CommitKey? || CommitIn(ps[1..]))
  }

  lemma {:induction false} CommitInIsHandshake(ps: seq<Packet>)
    ensures CommitIn(ps) <==> exists a :: a in Handshakes(Actions(ps)) && a.CommitKey?
  {
    if ps != [] {
      CommitInIsHandshake(ps[1..]);
      OnTheWayGet(ps, []);
    }
  }

  lemma {:induction false} KeysMatchNoCommit(now: nat, next: nat, next': nat, ps: seq<Packet>)
    requires !CommitIn(ps)
    ensures KeysMatch(now, next, ps) == KeysMatch(now, next', ps)
    decreases |ps|
  {
    if ps != [] {
      KeysMatchNoCommit(now, next, next', ps[1..]);
    }
  }

  lemma {:induction false} KeysMatchNoHandshake(now: nat, next: nat, ps: seq<Packet>)
    requires Handshakes(Actions(ps)) == []
    ensures KeysMatch(now, next, ps)
    decreases |ps|
  {
    if ps != [] {
      OnTheWayGet(ps, []);
      KeysMatchNoHandshake(if ps[0].action.CommitKey? then next else now, next, ps[1..]);
    }
  }

  // ---- The phases of an exchange; x is the side whose request survives ----

  function Out(w: World): seq<Action> { OnTheWay(w.xy, w.x.outbox) }

  function Back(w: World): seq<Action> { OnTheWay(w.yx, w.y.outbox) }

  function MyRequest(q: ValidGroup, x: Party): Action { RequestKey(x.exId, PowMod(q.g, x.exKey, q.p)) }

  predicate Granting(q: ValidGroup, w: World, a: Action) {
    && a.AcceptKey? && a.id == w.x.exId == w.y.exId
    && PowMod(a.gb, w.x.exKey, q.p) == w.y.exKey && w.y.exKey !in w.installed
  }

  predicate Quiet(w: World) {
    && w.x.state == NoExchange && w.y.state == NoExchange
    && Out(w) == [] && Back(w) == [] && w.x.encKey == w.y.encKey
  }

  predicate Asked(q: ValidGroup, w: World) {
    && w.x.state == Requested && w.y.state == NoExchange
    && Out(w) == [MyRequest(q, w.x)] && Back(w) == [] && w.x.encKey == w.y.encKey
  }

  predicate Granted(q: ValidGroup, w: World) {
    && w.x.state == Requested && w.y.state == Accepted
    && Out(w) == [] && |Back(w)| == 1 && Granting(q, w, Back(w)[0]) && w.x.encKey == w.y.encKey
  }

  predicate Committing(w: World) {
    && w.x.state == Committed && w.y.state == Accepted
    && w.x.exId == w.y.exId && w.x.exKey == w.y.exKey && w.y.exKey !in w.installed
    && Out(w) == [CommitKey(w.x.exId)] && Handshakes(Actions(w.xy)) == []
    && w.x.outbox != [] && Back(w) == [] && w.x.encKey == w.y.encKey
  }

  // Nothing from y in flight is under x's key, nor will be for now.
  predicate Deaf(w: World) {
    w.y.encKey != w.x.encKey && forall p | p in w.yx :: p.key != w.x.encKey
  }

  predicate HandedOver(w: World) {
    && Deaf(w) && w.x.state == NoExchange && w.y.state == Accepted
    && Out(w) == [CommitKey(w.y.exId)] && CommitIn(w.xy) && Back(w) == [] && w.x.encKey == w.y.exKey
  }

  predicate HandedOverAsked(q: ValidGroup, w: World) {
    && w.x.state == Requested && w.y.state == Accepted && w.x.exId != w.y.exId
    && Out(w) == [CommitKey(w.y.exId), MyRequest(q, w.x)] && CommitIn(w.xy) && Back(w) == []
    && w.x.encKey == w.y.exKey && Deaf(w)
  }

  predicate Glare(q: ValidGroup, w: World) {
    && w.x.state == Requested && w.y.state == Requested && w.x.exId != w.y.exId
    && Out(w) == [MyRequest(q, w.x)] && Back(w) == [MyRequest(q, w.y)] && w.x.encKey == w.y.encKey
  }

  predicate GlareKept(q: ValidGroup, w: World) {
    && w.x.state == Requested && w.y.state == Requested && w.x.exId < w.y.exId
    && Out(w) == [MyRequest(q, w.x)] && Back(w) == [] && w.x.encKey == w.y.encKey
  }

  predicate GlareLost(q: ValidGroup, w: World) {
    && w.x.state == Requested && w.y.state == Accepted
    && Out(w) == [] && |Back(w)| == 2 && Back(w)[0].RequestKey? && w.x.exId < Back(w)[0].id
    && Granting(q, w, Back(w)[1]) && w.x.encKey == w.y.encKey
  }

  predicate Phase(q: ValidGroup, w: World) {
    || Quiet(w) || Asked(q, w) || Granted(q, w) || Committing(w) || HandedOver(w)
    || HandedOverAsked(q, w) || Glare(q, w) || GlareKept(q, w) || GlareLost(q, w)
  }

  // A commit that is not the next thing to be sent.
  predicate Waits(x: Party) { x.state == Committed && x.outbox != [] && !x.outbox[0].CommitKey? }

  // The commit travels under the new key: x has switched and y never will.
  predicate Lost(w: World) {
    && w.x.state in {NoExchange, Requested} && w.y.state == Accepted && w.x.encKey == w.y.exKey
    && Deaf(w) && Back(w) == []
    && (w.x.state == Requested ==> w.x.exId != w.y.exId) && w.y.exId in w.ids
    && (forall p | p in w.xy && IsHandshake(p.action) :: p.key == w.x.encKey)
    && (CommitKey(w.y.exId) in Out(w) || CommitKey(w.y.exId) in w.dropped)
  }

  ghost predicate Common(w: World) {
    && KeysMatch(w.y.encKey, w.y.exKey, w.xy) && KeysMatch(w.x.encKey, w.x.exKey, w.yx)
    && (forall p | p in w.xy :: p.key in w.installed) && (forall p | p in w.yx :: p.key in w.installed)
    && w.x.encKey in w.installed && w.y.encKey in w.installed
    && (w.x.state != NoExchange ==> w.x.exId in w.ids) && (w.y.state != NoExchange ==> w.y.exId in w.ids)
    && (forall a | a in w.dropped :: !IsHandshake(a))
  }

  ghost predicate OnTrack(q: ValidGroup, w: World) {
    Common(w) && (Phase(q, w) || Phase(q, Swap(w)))
  }

  lemma {:induction false} SaysKeeps(q: ValidGroup, w: World, body: string)
    requires OnTrack(q, w)
    ensures OnTrack(q, Says(w, body))
  {
    var w' := Says(w, body);
    OnTheWayEnqueue(w.xy, w.x.outbox, Text(body));
    if Phase(q, w) {
      PhaseSays(q, w, w');
    } else {
      PhaseUntouched(q, Swap(w), Swap(w'));
    }
  }

  lemma {:induction false} PhaseSays(q: ValidGroup, w: World, w': World)
    requires Phase(q, w) && Out(w') == Out(w)
    requires w' == w.(x := w.x.(outbox := w'.x.outbox)) && (w.x.outbox != [] ==> w'.x.outbox != [])
    ensures Phase(q, w')
  {
  }

  lemma {:induction false} NoCommitOut(w: World)
    ensures (forall a | a in Out(w) :: !a.CommitKey?) ==> !CommitIn(w.xy)
    ensures (forall a | a in Back(w) :: !a.CommitKey?) ==> !CommitIn(w.yx)
  {
    CommitInIsHandshake(w.xy);
    CommitInIsHandshake(w.yx);
    HandshakesConcat(Actions(w.xy), w.x.outbox);
    HandshakesConcat(Actions(w.yx), w.y.outbox);
  }

  lemma {:induction false} AsksKeeps(q: ValidGroup, w: World, id: int, a: nat)
    requires OnTrack(q, w) && w.x.state == NoExchange && id !in w.ids
    ensures OnTrack(q, Asks(q, w, id, a))
  {
    var w' := Asks(q, w, id, a);
    OnTheWayEnqueue(w.xy, w.x.outbox, MyRequest(q, w'.x));
    assert Out(w') == Out(w) + [MyRequest(q, w'.x)] && Back(w') == Back(w);
    AskingPhase(q, w, id);
    NoCommitOut(w);
    KeysMatchNoCommit(w.x.encKey, w.x.exKey, a, w.yx);
    assert Common(w');
  }

  // Whoever is idle is not waited for by a commit.
  lemma {:induction false} AskingPhase(q: ValidGroup, w: World, id: int)
    requires OnTrack(q, w) && w.x.state == NoExchange && id !in w.ids
    ensures Quiet(w) || (HandedOver(w) && w.y.exId != id) || (Asked(q, Swap(w)) && w.y.exId != id)
    ensures forall c | c in Back(w) :: !c.CommitKey?
  {
  }

  lemma {:induction false} CommonAfterSend(w: World, w': World)
    requires Common(w) && w.x.outbox != [] && w' == Sends(w)
    requires IsHandshake(w.x.outbox[0]) ==>
               w.x.encKey == if CommitIn(w.xy) then w.y.exKey else w.y.encKey
    requires KeysMatch(w'.x.encKey, w'.x.exKey, w.yx)
    ensures Common(w')
  {
    KeysMatchSend(w.y.encKey, w.y.exKey, w.xy, Sent(w.x));
    forall p | p in w'.xy ensures p.key in w'.installed {
      assert p in w.xy || p == Sent(w.x);
    }
  }

  lemma {:induction false} SendsPlainly(q: ValidGroup, w: World)
    requires OnTrack(q, w) && w.x.outbox != [] && w.x.state != Committed
    ensures OnTrack(q, Sends(w))
  {
    var w' := Sends(w);
    UnsentKey(q, w);
    CommonAfterSend(w, w');
    OnTheWaySend(w.xy, w.x.outbox, w.x.encKey);
    assert Out(w') == Out(w) && Back(w') == Back(w);
    CommitInIsHandshake(w.xy);
    CommitInIsHandshake(w'.xy);
    assert CommitIn(w.xy) ==> CommitIn(w'.xy);
    assert w'.x == w.x.(outbox := w'.x.outbox);
    if Phase(q, w) {
      PhaseUntouched(q, w, w');
    } else {
      PhaseUntouched(q, Swap(w), Swap(w'));
    }
  }

  // Only states, ids, keys and what is on the way decide the phase.
  lemma {:induction false} PhaseUntouched(q: ValidGroup, w: World, w': World)
    requires Phase(q, w)
    requires Out(w') == Out(w) && Back(w') == Back(w) && w'.installed == w.installed
    requires w'.x == w.x.(outbox := w'.x.outbox) && w'.y == w.y.(outbox := w'.y.outbox)
    requires CommitIn(w.xy) ==> CommitIn(w'.xy)
    requires Committing(w) ==> w'.x.outbox == w.x.outbox && Handshakes(Actions(w'.xy)) == []
    requires forall p | p in w'.yx :: p in w.yx || p.key == w.y.encKey
    ensures Phase(q, w')
  {
  }

  // A handshake message that waits goes out under the key its reader will have.
  lemma {:induction false} UnsentKey(q: ValidGroup, w: World)
    requires OnTrack(q, w) && w.x.outbox != []
    ensures IsHandshake(w.x.outbox[0]) ==>
              w.x.encKey == if CommitIn(w.xy) then w.y.exKey else w.y.encKey
  {
    if IsHandshake(w.x.outbox[0]) {
      HandshakesConcat(Actions(w.xy), w.x.outbox);
      assert w.x.outbox[0] in Out(w);
      CommitInIsHandshake(w.xy);
      OutgoingKey(q, w);
    }
  }

  lemma {:induction false} OutgoingKey(q: ValidGroup, w: World)
    requires Phase(q, w) || Phase(q, Swap(w))
    requires Out(w) != []
    requires CommitIn(w.xy) ==> !Committing(w) && exists a :: a in Out(w) && a.CommitKey?
    ensures w.x.encKey == if CommitIn(w.xy) then w.y.exKey else w.y.encKey
  {
  }

  lemma {:induction false} CommitUnsent(w: World)
    requires Committing(w)
    ensures Handshakes(w.x.outbox) == [CommitKey(w.x.exId)]
    ensures Waits(w.x) <==> !IsHandshake(w.x.outbox[0])
    ensures !Waits(w.x) ==> w.x.outbox[0] == CommitKey(w.x.exId)
  {
    HandshakesConcat(Actions(w.xy), w.x.outbox);
    if IsHandshake(w.x.outbox[0]) {
      assert Handshakes(w.x.outbox)[0] == w.x.outbox[0];
    }
  }

  // A committed side sends either its commit, under the key that its peer reads, or
  // something that was waiting before it, and then the commit is lost.
  lemma {:induction false} SendsCommit(q: ValidGroup, w: World)
    requires OnTrack(q, w) && w.x.outbox != [] && w.x.state == Committed
    ensures if Waits(w.x) then Lost(Sends(w)) else OnTrack(q, Sends(w))
  {
    assert Committing(w);
    CommitUnsent(w);
    OnTheWaySend(w.xy, w.x.outbox, w.x.encKey);
    HandshakesConcat(Actions(w.xy), w.x.outbox);
    if Waits(w.x) {
      SendsBefore(w);
    } else {
      hide Committing, Waits, Lost;
      SendsFirst(q, w);
    }
  }

  lemma {:induction false} SendsFirst(q: ValidGroup, w: World)
    requires OnTrack(q, w) && Committing(w) && w.x.outbox != [] && w.x.outbox[0] == CommitKey(w.x.exId)
    ensures OnTrack(q, Sends(w))
  {
    var w' := Sends(w);
    UnsentKey(q, w);
    HandshakesConcat(Actions(w.yx), w.y.outbox);
    OnTheWaySend(w.xy, w.x.outbox, w.x.encKey);
    KeysMatchNoHandshake(w'.x.encKey, w'.x.exKey, w.yx);
    CommonAfterSend(w, w');
    CommitInIsHandshake(w'.xy);
    assert CommitKey(w.x.exId) in Handshakes(Actions(w'.xy));
    hide Common;
    assert HandedOver(w');
  }

  lemma {:induction false} SendsBefore(w: World)
    requires Committing(w) && Common(w) && w.x.outbox != [] && !IsHandshake(w.x.outbox[0])
    requires Out(Sends(w)) == Out(w) == Handshakes(Actions(w.xy)) + Handshakes(w.x.outbox)
    ensures Lost(Sends(w))
  {
    var w' := Sends(w);
    NoneListed(w.xy);
    assert CommitKey(w.y.exId) in Out(w');
  }

  lemma {:induction false} NoneListed(ps: seq<Packet>)
    requires Handshakes(Actions(ps)) == []
    ensures forall p | p in ps :: !IsHandshake(p.action)
  {
    if ps != [] {
      OnTheWayGet(ps, []);
      NoneListed(ps[1..]);
    }
  }

  lemma {:induction false} BackHead(w: World)
    requires w.yx != [] && IsHandshake(w.yx[0].action)
    ensures Back(w) == [w.yx[0].action] + OnTheWay(w.yx[1..], w.y.outbox)
    ensures Back(w) != [] && Back(w)[0] == w.yx[0].action
    ensures Back(w)[1..] == OnTheWay(w.yx[1..], w.y.outbox)
  {
    OnTheWayGet(w.yx, w.y.outbox);
  }

  // A handshake message that reaches x is readable, whatever the phase.
  lemma {:induction false} HandshakeReadable(q: ValidGroup, w: World)
    requires OnTrack(q, w) && w.yx != [] && IsHandshake(w.yx[0].action)
    ensures Readable(w.x, w.yx[0])
  {
    OnTheWayGet(w.yx, w.y.outbox);
  }

  // Reading one packet leaves the facts common to all phases, once the new keys match.
  lemma {:induction false} CommonAfterGet(w: World, w': World, dropped: bool)
    requires Common(w) && w.yx != []
    requires w' == w.(x := w'.x, yx := w.yx[1..], installed := w.installed + {w'.x.encKey},
                      dropped := if dropped then w.dropped + [w.yx[0].action] else w.dropped)
    requires dropped ==> !IsHandshake(w.yx[0].action)
    requires KeysMatch(w'.x.encKey, w'.x.exKey, w'.yx)
    requires KeysMatch(w.y.encKey, w.y.exKey, w.xy)
    requires w'.x.state != NoExchange ==> w'.x.exId in w.ids
    ensures Common(w')
  {
  }

  lemma {:induction false} GetsChatter(q: ValidGroup, w: World, b: nat)
    requires OnTrack(q, w) && w.yx != [] && !IsHandshake(w.yx[0].action)
    ensures OnTrack(q, Gets(q, w, b))
  {
    var w' := Gets(q, w, b);
    OnTheWayGet(w.yx, w.y.outbox);
    ChatterIgnored(q, w, b);
    CommonAfterGet(w, w', !Readable(w.x, w.yx[0]));
    assert w'.installed == w.installed;
    CommitInIsHandshake(w.yx);
    CommitInIsHandshake(w'.yx);
    if Phase(q, w) {
      PhaseUntouched(q, w, w');
    } else {
      PhaseUntouched(q, Swap(w), Swap(w'));
    }
  }

  // Neither chatter nor a foreign key moves an exchange: no packet in flight
  // carries a key that is still being agreed on.
  lemma {:induction false} ChatterIgnored(q: ValidGroup, w: World, b: nat)
    requires OnTrack(q, w) && w.yx != [] && !IsHandshake(w.yx[0].action)
    ensures Gets(q, w, b).x == w.x
  {
    assert w.yx[0].key in w.installed;
  }

  lemma {:induction false} RequestMeetsRequest(q: ValidGroup, w: World)
    requires OnTrack(q, w) && w.yx != [] && w.yx[0].action.RequestKey?
    ensures w.x.state in {NoExchange, Requested}
  {
    BackHead(w);
  }

  // A request that x turns away: its own has the smaller id.
  lemma {:induction false} GetsLosingRequest(q: ValidGroup, w: World, b: nat)
    requires OnTrack(q, w) && w.yx != [] && w.yx[0].action.RequestKey?
    requires w.x.state == Requested && w.x.exId <= w.yx[0].action.id
    ensures OnTrack(q, Gets(q, w, b))
  {
    var w' := Gets(q, w, b);
    BackHead(w);
    HandshakeReadable(q, w);
    assert w'.x == w.x && Out(w') == Out(w) && Back(w) == [w.yx[0].action] + Back(w');
    CommonAfterGet(w, w', false);
    if GlareLost(q, w) {
      assert Back(w')[0] == Back(w)[1];
      assert Granted(q, w');
    } else {
      assert Glare(q, w) || Glare(q, Swap(w));
      assert GlareKept(q, w');
    }
  }

  // A request that x accepts: it had none of its own, or one with a larger id.
  lemma {:induction false} GetsWinningRequest(q: ValidGroup, w: World, b: nat)
    requires OnTrack(q, w) && w.yx != [] && w.yx[0].action.RequestKey?
    requires w.x.state == NoExchange || (w.x.state == Requested && w.x.exId > w.yx[0].action.id)
    requires FreshKey(w, Gets(q, w, b))
    ensures OnTrack(q, Gets(q, w, b))
  {
    var w' := Gets(q, w, b);
    var a := w.yx[0].action;
    BackHead(w);
    HandshakeReadable(q, w);
    OnTheWayEnqueue(w.xy, w.x.outbox, AcceptKey(a.id, PowMod(q.g, b, q.p)));
    assert w'.x == Accept(q, w.x, a.id, a.ga, b);
    assert Back(w) == [a] + Back(w');
    WinningPhase(q, w);
    SharedKey(q.g, w.y.exKey, b, q.p);
    NoCommitOut(w);
    KeysMatchNoCommit(w.x.encKey, w.x.exKey, w'.x.exKey, w'.yx);
    CommonAfterGet(w, w', false);
    if w.x.state == NoExchange || GlareKept(q, Swap(w)) {
      assert Granted(q, Swap(w'));
    } else {
      assert GlareLost(q, Swap(w'));
    }
  }

  lemma {:induction false} WinningPhase(q: ValidGroup, w: World)
    requires Phase(q, w) || Phase(q, Swap(w))
    requires Back(w) != [] && Back(w)[0].RequestKey?
    requires w.x.state == NoExchange || (w.x.state == Requested && w.x.exId > Back(w)[0].id)
    ensures Back(w) == [MyRequest(q, w.y)] && w.y.state == Requested && w.x.encKey == w.y.encKey
    ensures w.x.state == NoExchange ==> Out(w) == []
    ensures w.x.state == Requested ==> GlareKept(q, Swap(w)) || Out(w) == [MyRequest(q, w.x)]
    ensures w.x.state == Requested ==> w.y.exId < w.x.exId
    ensures forall a | a in Out(w) || a in Back(w) :: !a.CommitKey?
  {
  }

  lemma {:induction false} AcceptPhase(q: ValidGroup, w: World)
    requires Phase(q, w) || Phase(q, Swap(w))
    requires Back(w) != [] && Back(w)[0].AcceptKey?
    ensures Granted(q, w)
  {
  }

  lemma {:induction false} CommitPhase(q: ValidGroup, w: World)
    requires Phase(q, w) || Phase(q, Swap(w))
    requires Back(w) != [] && Back(w)[0].CommitKey?
    requires w.yx != [] && w.yx[0].action.CommitKey?
    ensures HandedOver(Swap(w)) || HandedOverAsked(q, Swap(w))
  {
    OnTheWayGet(w.yx, w.y.outbox);
  }

  lemma {:induction false} GetsAccept(q: ValidGroup, w: World, b: nat)
    requires OnTrack(q, w) && w.yx != [] && w.yx[0].action.AcceptKey?
    ensures OnTrack(q, Gets(q, w, b)) && (Waits(Gets(q, w, b).x) <==> w.x.outbox != [])
    ensures Gets(q, w, b).x.state == Committed && w.x.state == Requested
  {
    var w' := Gets(q, w, b);
    BackHead(w);
    HandshakeReadable(q, w);
    AcceptPhase(q, w);
    assert w'.x == Commit(q, w.x, w.yx[0].action.gb);
    OnTheWayEnqueue(w.xy, w.x.outbox, CommitKey(w.x.exId));
    HandshakesConcat(Actions(w'.yx), w.y.outbox);
    HandshakesConcat(Actions(w.xy), w.x.outbox);
    KeysMatchNoHandshake(w'.x.encKey, w'.x.exKey, w'.yx);
    CommonAfterGet(w, w', false);
    assert Committing(w');
    assert Handshakes(w.x.outbox) == [];
  }

  lemma {:induction false} GetsCommit(q: ValidGroup, w: World, b: nat)
    requires OnTrack(q, w) && w.yx != [] && w.yx[0].action.CommitKey?
    ensures OnTrack(q, Gets(q, w, b))
  {
    var w' := Gets(q, w, b);
    BackHead(w);
    HandshakesConcat(Actions(w.yx), w.y.outbox);
    HandshakesConcat(Actions(w.xy), w.x.outbox);
    HandshakeReadable(q, w);
    CommitPhase(q, w);
    OnTheWayEnqueue(w.xy, w.x.outbox, Noop);
    assert Back(w) == [w.yx[0].action] + Back(w');
    NoCommitOut(w');
    KeysMatchNoCommit(w'.x.encKey, w.x.exKey, w'.x.exKey, w'.yx);
    KeysMatchNoHandshake(w.y.encKey, w.y.exKey, w.xy);
    CommonAfterGet(w, w', false);
    assert Quiet(w') || Asked(q, Swap(w'));
  }

  // The acceptance has come while something else was waiting to be sent.
  predicate LateX(w: World, w': World) {
    w.x.state == Requested && w'.x.state == Committed && w.x.outbox != []
  }

  ghost predicate LateStep(w: World, w': World) { LateX(w, w') || LateX(Swap(w), Swap(w')) }

  lemma {:induction false} StepXKeeps(q: ValidGroup, w: World, w': World)
    requires OnTrack(q, w) && StepX(q, w, w')
    ensures (Waits(w.x) && Lost(w')) || (OnTrack(q, w') && (Waits(w'.x) <==> Waits(w.x) || LateX(w, w')))
  {
    if body: string :| w' == Says(w, body) {
      SaysKeeps(q, w, body);
      assert w.x.state == Committed ==> Committing(w);
    } else if id: int, a: nat :| w.x.state == NoExchange && id !in w.ids && w' == Asks(q, w, id, a) {
      AsksKeeps(q, w, id, a);
    } else if w.x.outbox != [] && w' == Sends(w) {
      if w.x.state == Committed {
        SendsCommit(q, w);
      } else {
        SendsPlainly(q, w);
      }
    } else {
      var b: nat :| w' == Gets(q, w, b) && FreshKey(w, w');
      GetsKeeps(q, w, b);
    }
  }

  lemma {:induction false} GetsKeeps(q: ValidGroup, w: World, b: nat)
    requires OnTrack(q, w) && w.yx != [] && FreshKey(w, Gets(q, w, b))
    ensures var w' := Gets(q, w, b);
            OnTrack(q, w') && (Waits(w'.x) <==> Waits(w.x) || LateX(w, w'))
  {
    match w.yx[0].action {
      case RequestKey(id, _) =>
        RequestMeetsRequest(q, w);
        if w.x.state == NoExchange || w.x.exId > id {
          GetsWinningRequest(q, w, b);
        } else {
          GetsLosingRequest(q, w, b);
        }
      case AcceptKey(_, _) => GetsAccept(q, w, b);
      case CommitKey(_) => GetsCommit(q, w, b);
      case _ =>
        GetsChatter(q, w, b);
        ChatterIgnored(q, w, b);
    }
  }

  // ---- A lost commit ----

  // The side that committed, x, is still waiting to send something first, or has
  // sent it and switched.
  ghost predicate Doomed(q: ValidGroup, w: World) {
    (OnTrack(q, w) && Waits(w.x)) || Lost(w)
  }

  lemma {:induction false} LostStepX(q: ValidGroup, w: World, w': World)
    requires Lost(w) && StepX(q, w, w')
    ensures Lost(w') && w'.y == w.y
  {
    if body: string :| w' == Says(w, body) {
      OnTheWayEnqueue(w.xy, w.x.outbox, Text(body));
    } else if id: int, a: nat :| w.x.state == NoExchange && id !in w.ids && w' == Asks(q, w, id, a) {
      OnTheWayEnqueue(w.xy, w.x.outbox, MyRequest(q, w'.x));
    } else if w.x.outbox != [] && w' == Sends(w) {
      OnTheWaySend(w.xy, w.x.outbox, w.x.encKey);
    } else {
      var b: nat :| w' == Gets(q, w, b);
      LostGets(q, w, b);
    }
  }

  lemma {:induction false} LostGets(q: ValidGroup, w: World, b: nat)
    requires Lost(w) && w.yx != []
    ensures Lost(Gets(q, w, b)) && Gets(q, w, b).x == w.x
  {
    OnTheWayGet(w.yx, w.y.outbox);
    assert Gets(q, w, b).dropped == w.dropped + [w.yx[0].action];
  }

  // y reads no handshake message, drops the commit once it arrives, and has none to send.
  lemma {:induction false} LostStepY(q: ValidGroup, w: World, w': World)
    requires Lost(w) && StepX(q, Swap(w), Swap(w'))
    ensures Lost(w') && w'.y == w.y.(outbox := w'.y.outbox)
  {
    if body: string :| Swap(w') == Says(Swap(w), body) {
      OnTheWayEnqueue(w.yx, w.y.outbox, Text(body));
    } else if w.y.outbox != [] && Swap(w') == Sends(Swap(w)) {
      OnTheWaySend(w.yx, w.y.outbox, w.y.encKey);
    } else {
      OnTheWayGet(w.xy, w.x.outbox);
      assert w'.y == w.y;
    }
  }

  // Once doomed, always doomed: the peer of the side that committed stays as it is.
  lemma {:induction false} DoomedStays(q: ValidGroup, w: World, w': World)
    requires Doomed(q, w) && Step(q, w, w')
    ensures Doomed(q, w') && w.y.state == Accepted && w'.y == w.y.(outbox := w'.y.outbox)
  {
    if Lost(w) {
      if StepX(q, w, w') {
        LostStepX(q, w, w');
      } else {
        LostStepY(q, w, w');
      }
    } else {
      assert Committing(w);
      if StepX(q, w, w') {
        StepXKeeps(q, w, w');
      } else {
        StepXKeeps(q, Swap(w), Swap(w'));
        PeerOfCommitted(q, w, w');
      }
    }
  }

  lemma {:induction false} PeerOfCommitted(q: ValidGroup, w: World, w': World)
    requires OnTrack(q, w) && Committing(w) && StepX(q, Swap(w), Swap(w'))
    ensures w'.y == w.y.(outbox := w'.y.outbox)
  {
    if b: nat :| w.xy != [] && Swap(w') == Gets(q, Swap(w), b) {
      NoneListed(w.xy);
      ChatterIgnored(q, Swap(w), b);
    }
  }

  // ---- Runs ----

  // Some commit before world i was queued behind another query.
  ghost predicate HadLate(ws: seq<World>, i: nat)
    requires i < |ws|
  {
    exists j | 0 <= j < i :: LateStep(ws[j], ws[j + 1])
  }

  // What holds of a world with or without such a commit behind it.
  ghost predicate Tracked(q: ValidGroup, w: World, late: bool) {
    if late then Doomed(q, w) || Doomed(q, Swap(w))
    else OnTrack(q, w) && !Waits(w.x) && !Waits(w.y)
  }

  lemma {:induction false} StepKeeps(q: ValidGroup, w: World, w': World, late: bool)
    requires Tracked(q, w, late) && Step(q, w, w')
    ensures Tracked(q, w', late || LateStep(w, w'))
  {
    if late {
      DoomedKeeps(q, w, w');
    } else if StepX(q, w, w') {
      StepXKeeps(q, w, w');
      hide OnTrack, StepX;
    } else {
      StepXKeeps(q, Swap(w), Swap(w'));
      OnTrackSwaps(q, w');
      hide OnTrack, StepX;
    }
  }

  lemma OnTrackSwaps(q: ValidGroup, w: World)
    ensures OnTrack(q, Swap(w)) <==> OnTrack(q, w)
  {
  }

  lemma {:induction false} DoomedKeeps(q: ValidGroup, w: World, w': World)
    requires (Doomed(q, w) || Doomed(q, Swap(w))) && Step(q, w, w')
    ensures Doomed(q, w') || Doomed(q, Swap(w'))
  {
    if Doomed(q, w) {
      DoomedStays(q, w, w');
    } else {
      DoomedStays(q, Swap(w), Swap(w'));
    }
  }

  lemma {:induction false} RunInv(q: ValidGroup, ws: seq<World>, i: nat)
    requires IsRun(q, ws) && i < |ws|
    ensures Tracked(q, ws[i], HadLate(ws, i))
  {
    if i > 0 {
      hide Tracked, Step, LateStep;
      RunInv(q, ws, i - 1);
      assert Step(q, ws[i - 1], ws[i - 1 + 1]);
      StepKeeps(q, ws[i - 1], ws[i], HadLate(ws, i - 1));
      HadLateNext(ws, i);
    }
  }

  lemma HadLateNext(ws: seq<World>, i: nat)
    requires 0 < i < |ws|
    ensures HadLate(ws, i) <==> HadLate(ws, i - 1) || LateStep(ws[i - 1], ws[i])
  {
    hide LateStep;
    if LateStep(ws[i - 1], ws[i]) {
      assert LateStep(ws[i - 1], ws[i - 1 + 1]);
    }
  }
  // ---- Results over every run ----

  // Nothing of a handshake is in flight or waits to be sent.
  predicate Silent(w: World) { Out(w) == [] && Back(w) == [] }

  predicate Agreed(w: World) { w.x.state == NoExchange && w.y.state == NoExchange && w.x.encKey == w.y.encKey }

  // In every run: once no handshake message is on its way, both sides are idle with
  // one key if and only if no commit was queued behind another query.
  lemma {:induction false} QuietMeansAgreed(q: ValidGroup, ws: seq<World>, i: nat)
    requires IsRun(q, ws) && i < |ws|
    ensures Silent(ws[i]) ==> (Agreed(ws[i]) <==> !HadLate(ws, i))
  {
    RunInv(q, ws, i);
  }

  // Whatever is on its way, two idle sides use one key.
  lemma {:induction false} IdleMeansAgreed(q: ValidGroup, ws: seq<World>, i: nat)
    requires IsRun(q, ws) && i < |ws|
    ensures ws[i].x.state == ws[i].y.state == NoExchange ==> ws[i].x.encKey == ws[i].y.encKey
  {
    RunInv(q, ws, i);
  }

  // A committed side's peer has accepted the same exchange with the same key; once
  // the committed side has switched, the peer still holds that key or uses it.
  lemma {:induction false} CommittedMeansAccepted(q: ValidGroup, ws: seq<World>, i: nat)
    requires IsRun(q, ws) && i < |ws|
    ensures var w := ws[i];
            && (w.x.state == Committed ==>
                  w.y.state == Accepted && w.y.exId == w.x.exId && w.y.exKey == w.x.exKey)
            && (w.y.state == Committed ==>
                  w.x.state == Accepted && w.x.exId == w.y.exId && w.x.exKey == w.y.exKey)
            && (w.x.encKey != w.y.encKey ==>
                  (w.y.state == Accepted && w.y.exKey == w.x.encKey)
                  || (w.x.state == Accepted && w.x.exKey == w.y.encKey))
  {
    RunInv(q, ws, i);
  }

  lemma {:induction false} NeverBothProceed(q: ValidGroup, ws: seq<World>, i: nat)
    requires IsRun(q, ws) && i < |ws|
    ensures !(ws[i].x.state in {Accepted, Committed} && ws[i].y.state == ws[i].x.state)
  {
    RunInv(q, ws, i);
  }

  predicate NoneDropped(w: World) { forall a | a in w.dropped :: !IsHandshake(a) }

  // As long as no commit is queued behind another query no handshake message is
  // dropped for a foreign fingerprint; otherwise one has been dropped by the time
  // none is on its way.
  lemma {:induction false} HandshakesNeverDropped(q: ValidGroup, ws: seq<World>, i: nat)
    requires IsRun(q, ws) && i < |ws|
    ensures !HadLate(ws, i) ==> NoneDropped(ws[i])
    ensures Silent(ws[i]) ==> (NoneDropped(ws[i]) <==> !HadLate(ws, i))
  {
    RunInv(q, ws, i);
    hide OnTrack, HadLate, Silent, Doomed;
    if HadLate(ws, i) {
      if Doomed(q, ws[i]) {
        DoomedDrops(q, ws[i]);
      } else {
        DoomedDrops(q, Swap(ws[i]));
      }
    } else {
      OnTrackDrops(q, ws[i]);
    }
  }

  lemma OnTrackDrops(q: ValidGroup, w: World)
    requires OnTrack(q, w)
    ensures NoneDropped(w)
  {
  }

  lemma {:induction false} DoomedDrops(q: ValidGroup, w: World)
    requires Doomed(q, w)
    ensures (Silent(w) || Silent(Swap(w))) ==> !NoneDropped(w) && !NoneDropped(Swap(w))
  {
    if Lost(w) && Silent(w) {
      assert CommitKey(w.y.exId) in w.dropped;
    }
  }

  predicate SameButOutbox(x: Party, x': Party) { x' == x.(outbox := x'.outbox) }

  // After a commit that was queued behind another query one side has accepted and
  // stays so with its old key, whatever happens: the two never agree again.
  lemma {:induction false} LateCommitIsLost(q: ValidGroup, ws: seq<World>, i: nat, j: nat)
    requires IsRun(q, ws) && i <= j < |ws| && HadLate(ws, i)
    ensures (ws[i].y.state == Accepted && SameButOutbox(ws[i].y, ws[j].y))
            || (ws[i].x.state == Accepted && SameButOutbox(ws[i].x, ws[j].x))
  {
    RunInv(q, ws, i);
    if Doomed(q, ws[i]) {
      DoomedForGood(q, ws, i, j);
    } else {
      var vs := seq(|ws|, k requires 0 <= k < |ws| => Swap(ws[k]));
      forall k | 0 <= k < |vs| - 1 ensures Step(q, vs[k], vs[k + 1]) {
        assert Step(q, ws[k], ws[k + 1]);
      }
      DoomedForGood(q, vs, i, j);
    }
  }

  lemma {:induction false} DoomedForGood(q: ValidGroup, ws: seq<World>, i: nat, j: nat)
    requires i <= j < |ws| && Doomed(q, ws[i])
    requires forall k | 0 <= k < |ws| - 1 :: Step(q, ws[k], ws[k + 1])
    ensures Doomed(q, ws[j]) && ws[i].y.state == Accepted && SameButOutbox(ws[i].y, ws[j].y)
    decreases j
  {
    hide Step, Doomed;
    if i < j {
      DoomedForGood(q, ws, i, j - 1);
      assert Step(q, ws[j - 1], ws[j - 1 + 1]);
      DoomedStays(q, ws[j - 1], ws[j]);
    } else {
      DoomedAccepted(q, ws[i]);
    }
  }

  lemma DoomedAccepted(q: ValidGroup, w: World)
    requires Doomed(q, w)
    ensures w.y.state == Accepted
  {
    assert !Lost(w) ==> Committing(w);
  }

  // From its commit on, x reads nothing that its peer has sent before switching too:
  // neither what is in flight nor what is sent next.
  lemma {:induction false} AcceptorUnheard(q: ValidGroup, ws: seq<World>, i: nat)
    requires IsRun(q, ws) && i < |ws| && ws[i].y.state == Accepted
    ensures var w := ws[i];
            var switched := w.x.state == Committed || w.x.encKey != w.y.encKey;
            && (switched ==> forall p | p in w.yx :: !Readable(w.x, p))
            && (w.y.outbox != [] ==> (Readable(w.x, Sent(w.y)) <==> !switched))
  {
    RunInv(q, ws, i);
    var w := ws[i];
    if OnTrack(q, w) && w.x.state == Committed {
      forall p | p in w.yx ensures !Readable(w.x, p) {
        assert p.key in w.installed;
      }
    }
  }

  // ---- Both sides ask at once ----

  // Both sides have asked, or the larger id has already given way.
  predicate Contest(w: World, small: int, large: int) {
    && small < large
    && w.x.state == Requested && w.x.exId == small
    && ((w.y.state == Requested && w.y.exId == large) || (w.y.state == Accepted && w.y.exId == small))
  }

  predicate Won(w: World, small: int) {
    w.x.state == Committed && w.x.exId == small && w.y.state == Accepted && w.y.exId == small
  }

  // Whatever happens next, the exchange with the smaller id goes on: the contest
  // lasts until its owner commits it, with the other side's acceptance in hand.
  lemma {:induction false} SmallerIdProceeds(q: ValidGroup, ws: seq<World>, i: nat, j: nat, small: int, large: int)
    requires IsRun(q, ws) && i <= j < |ws| && Contest(ws[i], small, large)
    ensures (exists k | i <= k <= j :: Won(ws[k], small)) || Contest(ws[j], small, large)
    decreases j
  {
    hide Tracked, OnTrack, Step, Won, Contest;
    if i < j {
      SmallerIdProceeds(q, ws, i, j - 1, small, large);
      if Contest(ws[j - 1], small, large) {
        RunInv(q, ws, j - 1);
        assert Step(q, ws[j - 1], ws[j - 1 + 1]);
        ContestOnTrack(q, ws[j - 1], HadLate(ws, j - 1), small, large);
        ContestStep(q, ws[j - 1], ws[j], small, large);
      }
    }
  }

  lemma ContestOnTrack(q: ValidGroup, w: World, late: bool, small: int, large: int)
    requires Tracked(q, w, late) && Contest(w, small, large)
    ensures OnTrack(q, w)
  {
  }

  lemma {:induction false} ContestStep(q: ValidGroup, w: World, w': World, small: int, large: int)
    requires OnTrack(q, w) && Step(q, w, w') && Contest(w, small, large)
    ensures Contest(w', small, large) || Won(w', small)
  {
    if StepX(q, w, w') {
      ContestStepX(q, w, w', small, large);
    } else {
      ContestStepY(q, w, w', small, large);
    }
  }

  lemma {:induction false} ContestStepX(q: ValidGroup, w: World, w': World, small: int, large: int)
    requires OnTrack(q, w) && StepX(q, w, w') && Contest(w, small, large)
    ensures Contest(w', small, large) || Won(w', small)
  {
    if b: nat :| w.yx != [] && w' == Gets(q, w, b) && FreshKey(w, w') {
      ContestGets(q, w, b, small, large);
    }
  }

  lemma {:induction false} ContestGets(q: ValidGroup, w: World, b: nat, small: int, large: int)
    requires OnTrack(q, w) && w.yx != [] && Contest(w, small, large)
    ensures Contest(Gets(q, w, b), small, large) || Won(Gets(q, w, b), small)
  {
    if IsHandshake(w.yx[0].action) {
      BackHead(w);
      if w.yx[0].action.AcceptKey? {
        AcceptPhase(q, w);
      }
    }
  }

  // All the larger id's owner can still hear from the other side is its request.
  lemma {:induction false} ContestMail(q: ValidGroup, w: World, small: int, large: int)
    requires Phase(q, w) || Phase(q, Swap(w))
    requires Contest(w, small, large) && Out(w) != []
    ensures w.y.state == Requested && Out(w) == [MyRequest(q, w.x)]
  {
  }

  lemma {:induction false} ContestStepY(q: ValidGroup, w: World, w': World, small: int, large: int)
    requires OnTrack(q, w) && StepX(q, Swap(w), Swap(w')) && Contest(w, small, large)
    ensures Contest(w', small, large)
  {
    var v, v' := Swap(w), Swap(w');
    if b: nat :| v.yx != [] && v' == Gets(q, v, b) && FreshKey(v, v') {
      if IsHandshake(v.yx[0].action) {
        BackHead(v);
        HandshakeReadable(q, v);
        ContestMail(q, w, small, large);
      } else {
        ChatterIgnored(q, v, b);
      }
    }
  }

  // ---- Both sides ask with one id ----

  predicate OnlyRequests(s: seq<Action>, id: int) { forall a | a in s :: a.RequestKey? && a.id == id }

  predicate Wedged(w: World, id: int) {
    && w.x.state == w.y.state == Requested && w.x.exId == w.y.exId == id
    && OnlyRequests(Out(w), id) && OnlyRequests(Back(w), id)
  }

  function BothAsk(q: ValidGroup, w: World, id: int, a: nat, b: nat): World {
    Swap(Asks(q, Swap(Asks(q, w, id, a)), id, b))
  }

  lemma {:induction false} WedgedStepX(q: ValidGroup, w: World, w': World, id: int)
    requires Wedged(w, id) && StepX(q, w, w')
    ensures Wedged(w', id) && SameButOutbox(w.x, w'.x) && w'.y == w.y
  {
    if body: string :| w' == Says(w, body) {
      OnTheWayEnqueue(w.xy, w.x.outbox, Text(body));
    } else if w.x.outbox != [] && w' == Sends(w) {
      OnTheWaySend(w.xy, w.x.outbox, w.x.encKey);
    } else {
      OnTheWayGet(w.yx, w.y.outbox);
      assert IsHandshake(w.yx[0].action) ==> w.yx[0].action in Back(w);
      assert w'.x == w.x;
    }
  }

  // With one id nobody gives way: from the moment both have asked, whatever is sent
  // and read, both stay with their requests and their old keys.
  lemma {:induction false} EqualIdsWedge(q: ValidGroup, w: World, id: int, a: nat, b: nat, ws: seq<World>, i: nat)
    requires Quiet(w) && i < |ws| && ws[0] == BothAsk(q, w, id, a, b)
    requires forall k | 0 <= k < |ws| - 1 :: Step(q, ws[k], ws[k + 1])
    ensures Wedged(ws[i], id) && SameButOutbox(ws[0].x, ws[i].x) && SameButOutbox(ws[0].y, ws[i].y)
  {
    if i == 0 {
      OnTheWayEnqueue(w.xy, w.x.outbox, RequestKey(id, PowMod(q.g, a, q.p)));
      OnTheWayEnqueue(w.yx, w.y.outbox, RequestKey(id, PowMod(q.g, b, q.p)));
    } else {
      EqualIdsWedge(q, w, id, a, b, ws, i - 1);
      assert Step(q, ws[i - 1], ws[i - 1 + 1]);
      if StepX(q, ws[i - 1], ws[i]) {
        WedgedStepX(q, ws[i - 1], ws[i], id);
      } else {
        WedgedStepX(q, Swap(ws[i - 1]), Swap(ws[i]), id);
      }
    }
  }

  // A run in which a text is waiting when the acceptance is read: x asks, y accepts.
  function LateRun(): seq<World> {
    var (idle, ask, grant) := (Party(NoExchange, 0, 0, 5, []), RequestKey(1, 2), AcceptKey(1, 2));
    var (asking, granting) := (Party(Requested, 1, 1, 5, []), Party(Accepted, 1, 2, 5, []));
    [ Start(5),
      World(asking.(outbox := [ask]), idle, [], [], {5}, {1}, []),
      World(asking, idle, [Packet(5, ask)], [], {5}, {1}, []),
      World(asking, granting.(outbox := [grant]), [], [], {5}, {1}, []),
      World(asking, granting, [], [Packet(5, grant)], {5}, {1}, []),
      World(asking.(outbox := [Text("")]), granting, [], [Packet(5, grant)], {5}, {1}, []),
      World(Party(Committed, 1, 2, 5, [Text(""), CommitKey(1)]), granting, [], [], {5}, {1}, []) ]
  }

  lemma {:induction false} LateRunHappens()
    ensures IsRun(Group(2, 3), LateRun()) && HadLate(LateRun(), 6)
  {
    var q: ValidGroup := Group(2, 3);
    var ws := LateRun();
    assert PowMod(2, 1, 3) == 2;
    assert ws[1] == Asks(q, ws[0], 1, 1);
    assert ws[2] == Sends(ws[1]);
    assert Swap(ws[3]) == Gets(q, Swap(ws[2]), 1);
    assert Swap(ws[4]) == Sends(Swap(ws[3]));
    assert ws[5] == Says(ws[4], "");
    assert ws[6] == Gets(q, ws[5], 0);
    assert LateStep(ws[5], ws[5 + 1]);
  }

  // ---- With nothing else happening ----

  function SendAll(x: Party): (Party, seq<Packet>)
    decreases |x.outbox|
  {
    if x.outbox == [] then (x, [])
    else
      var rest := SendAll(AfterSend(x));
      (rest.0, [Sent(x)] + rest.1)
  }

  function ReadAll(q: ValidGroup, y: Party, ps: seq<Packet>): Party
    decreases |ps|
  {
    if ps == [] then y else ReadAll(q, Fetch(q, y, ps[0], 0), ps[1..])
  }

  lemma {:induction false} ReadsChatter(q: ValidGroup, y: Party, ps: seq<Packet>, more: seq<Packet>)
    requires y.state == Accepted && Handshakes(Actions(ps)) == []
    ensures ReadAll(q, y, ps + more) == ReadAll(q, y, more)
    decreases |ps|
  {
    if ps == [] {
      assert ps + more == more;
    } else {
      OnTheWayGet(ps, []);
      assert (ps + more)[1..] == ps[1..] + more;
      ReadsChatter(q, y, ps[1..], more);
    }
  }

  lemma {:induction false} SendsUnder(x: Party)
    requires x.state != Committed
    ensures SendAll(x).0 == x.(outbox := [])
    ensures SendAll(x).1 == seq(|x.outbox|, i requires 0 <= i < |x.outbox| => Packet(x.encKey, x.outbox[i]))
    decreases |x.outbox|
  {
    if x.outbox != [] {
      SendsUnder(AfterSend(x));
    }
  }

  // x has just committed behind the queries in waiting; y has accepted the same key.
  lemma {:induction false} CommitBehind(q: ValidGroup, x: Party, y: Party, waiting: seq<Action>, xy: seq<Packet>)
    requires x.state == Committed && x.outbox == waiting + [CommitKey(x.exId)]
    requires y.state == Accepted && y.exId == x.exId && y.exKey == x.exKey
    requires y.encKey == x.encKey != x.exKey
    requires Handshakes(Actions(xy)) == [] && Handshakes(waiting) == []
    ensures var (x', ps) := SendAll(x);
            && x'.state == NoExchange && x'.encKey == x.exKey
            && ReadAll(q, y, xy + ps) == if waiting == [] then Confirm(y, true) else y
  {
    var ps := SendAll(x).1;
    SendsUnder(AfterSend(x));
    ReadsChatter(q, y, xy, ps);
    var n := |waiting|;
    var last := if waiting == [] then Packet(x.encKey, CommitKey(x.exId)) else Packet(x.exKey, CommitKey(x.exId));
    assert ps == [Sent(x)] + SendAll(AfterSend(x)).1 && |ps| == n + 1 && ps[n] == last;
    assert forall i | 0 <= i < n :: ps[i].action == waiting[i];
    assert Actions(ps[..n]) == waiting && ps == ps[..n] + [last];
    ReadsChatter(q, y, ps[..n], [last]);
    assert ReadAll(q, y, [last]) == Fetch(q, y, last, 0);
  }

  // Suppose x gets the acceptance while queries already wait in its outbox, then
  // everything is sent and read. The peer switches if and only if none waited:
  // otherwise the first query sent switches x, and the commit goes out under the
  // new key, which the peer cannot read.
  lemma {:induction false} SentUndisturbed(q: ValidGroup, w: World)
    requires OnTrack(q, w) && Granted(q, w) && w.yx != [] && w.yx[0].action.AcceptKey?
    ensures var x := Gets(q, w, 0).x;
            var (x', ps) := SendAll(x);
            var y' := ReadAll(q, w.y, w.xy + ps);
            && x'.state == NoExchange && x'.encKey == w.y.exKey
            && (y'.state == NoExchange && y'.encKey == x'.encKey <==> w.x.outbox == [])
            && (w.x.outbox != [] ==> y' == w.y)
  {
    BackHead(w);
    HandshakesConcat(Actions(w.xy), w.x.outbox);
    CommitBehind(q, Commit(q, w.x, w.yx[0].action.gb), w.y, w.x.outbox, w.xy);
  }
}
