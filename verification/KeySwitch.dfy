/** Sequencing and re-keying together: what becomes of holes when the committing side has
    switched to the new key (src/secret_chat.cpp). A message is decrypted on arrival, ahead
    of the sequence checks, and a copy put back on the wire is encrypted under the key its
    sender has by then. */
module KeySwitch {
  import opened SecretChat
  import opened SecretChatHistory

  // A numbered message and the key it was encrypted under.
  datatype Sealed = Sealed(key: nat, m: SecretMessage)

  // A side that has accepted an exchange: it reads under key until it has processed the
  // message that commits, which carries number commit, and under next from then on.
  datatype Listener = Listener(chat: ChatState, key: nat, next: nat, commit: int)

  function Hear(r: Listener, p: Sealed): Listener {
    if p.key != r.key then r
    else
      var c := Receive(r.chat, p.m).chat;
      r.(chat := c, key := if c.inSeq > r.commit then r.next else r.key)
  }

  function HearAll(r: Listener, ps: seq<Sealed>): Listener {
    if ps == [] then r else Hear(HearAll(r, ps[..|ps| - 1]), ps[|ps| - 1])
  }

  // What can still come from a peer that has switched: copies under the new key of
  // anything it has sent, and under the old key only what is in flight already.
  ghost predicate CanCome(r: Listener, sent: seq<SecretMessage>, inFlight: set<int>, p: Sealed) {
    var n := p.m.rawOut / 2;
    && 0 <= n < |sent| && p.m == sent[n]
    && (p.key == r.next || (p.key == r.key && n in inFlight))
  }

  ghost predicate Mail(r: Listener, sent: seq<SecretMessage>, inFlight: set<int>, ps: seq<Sealed>) {
    forall p | p in ps :: CanCome(r, sent, inFlight, p)
  }

  // Waiting for the commit, in step with the peer's log.
  ghost predicate Waits(r: Listener, copies: map<int, SecretMessage>, sent: seq<SecretMessage>) {
    && InStep(r.chat, copies) && Supplies(r.chat, sent)
    && r.key != r.next && r.chat.inSeq <= r.commit < |sent|
  }

  // The number was never received.
  predicate Missing(c: ChatState, n: int) { n >= c.inSeq && n !in c.queue }

  // Hearing one message under the old key adds its number to those received.
  lemma {:induction false} HearsOne(r: Listener, copies: map<int, SecretMessage>, sent: seq<SecretMessage>, m: SecretMessage)
      returns (copies': map<int, SecretMessage>)
    requires InStep(r.chat, copies) && Supplies(r.chat, sent) && 0 <= m.rawOut / 2 < |sent| && m == sent[m.rawOut / 2]
    ensures var c := Receive(r.chat, m).chat;
            && InStep(c, copies') && Supplies(c, sent)
            && forall k :: k in copies' <==> k in copies || k == m.rawOut / 2
  {
    var es := [Arrive(m)];
    assert es[..0] == [] && After(r.chat, []) == r.chat && After(r.chat, es) == Receive(r.chat, m).chat;
    copies' := ArrivalsAccepted(r.chat, copies, sent, es);
    assert forall k :: Covers(es, k) <==> k == m.rawOut / 2 by {
      assert Arrive(m) in es && Number(Arrive(m)) == m.rawOut / 2;
    }
  }

  // After any mail: r has switched for good, or still waits, having received nothing but
  // what was in flight under the old key.
  lemma {:induction false} HeardSoFar(r: Listener, copies: map<int, SecretMessage>, sent: seq<SecretMessage>, inFlight: set<int>,
                                      ps: seq<Sealed>) returns (copies': map<int, SecretMessage>)
    requires Waits(r, copies, sent) && Mail(r, sent, inFlight, ps)
    ensures var e := HearAll(r, ps);
            && e.next == r.next && e.commit == r.commit
            && (e.key == r.next || (e.key == r.key && Waits(e, copies', sent)))
    ensures forall k | k in copies' :: k in copies || k in inFlight
    ensures HearAll(r, ps).key == r.key ==> forall p | p in ps && p.key == r.key :: p.m.rawOut / 2 in copies'
    ensures HearAll(r, ps).key == r.key ==> forall k | k in copies :: k in copies'
  {
    copies' := copies;
    if ps != [] {
      var init, p := ps[..|ps| - 1], ps[|ps| - 1];
      assert forall q :: q in ps <==> q in init || q == p;
      copies' := HeardSoFar(r, copies, sent, inFlight, init);
      var e := HearAll(r, init);
      assert CanCome(r, sent, inFlight, p);
      if e.key == r.key && p.key == r.key {
        hide InStep, Supplies;
        copies' := HearsOne(e, copies', sent, p.m);
      }
    }
  }

  // A number up to the commit that is missing, with no copy in flight under the old key,
  // is missing for good, and the listener never switches: whatever is put back on the
  // wire comes under a key it does not have yet.
  lemma {:induction false} HoleStaysOpen(r: Listener, copies: map<int, SecretMessage>, sent: seq<SecretMessage>, inFlight: set<int>,
                                         ps: seq<Sealed>, hole: int)
    requires Waits(r, copies, sent) && Mail(r, sent, inFlight, ps)
    requires hole <= r.commit && Missing(r.chat, hole) && hole !in inFlight
    ensures var e := HearAll(r, ps); e.key == r.key && e.chat.inSeq <= hole && Missing(e.chat, hole)
    decreases |ps|
  {
    if ps != [] {
      var init, p := ps[..|ps| - 1], ps[|ps| - 1];
      assert forall q | q in init :: q in ps;
      HoleStaysOpen(r, copies, sent, inFlight, init, hole);
      var copies' := HeardSoFar(r, copies, sent, inFlight, init);
      var e := HearAll(r, init);
      assert p in ps && CanCome(r, sent, inFlight, p) && hole !in copies';
      if p.key == r.key {
        var copies'' := HearsOne(e, copies', sent, p.m);
        assert hole !in copies'';
      }
    }
  }

  // All that is in flight under the old key, up to the commit.
  function OldMail(r: Listener, sent: seq<SecretMessage>, inFlight: set<int>, n: nat): seq<Sealed>
    requires n <= |sent|
  {
    if n == 0 then []
    else OldMail(r, sent, inFlight, n - 1) + if n - 1 in inFlight then [Sealed(r.key, sent[n - 1])] else []
  }

  lemma {:induction false} OldMailCovers(r: Listener, sent: seq<SecretMessage>, inFlight: set<int>, n: nat)
    requires Supplies(r.chat, sent) && n <= |sent|
    ensures var ps := OldMail(r, sent, inFlight, n);
            && Mail(r, sent, inFlight, ps) && (forall p | p in ps :: p.key == r.key)
            && forall k | 0 <= k < n && k in inFlight :: Sealed(r.key, sent[k]) in ps
  {
    if n > 0 {
      OldMailCovers(r, sent, inFlight, n - 1);
    }
  }

  // If every missing number up to the commit is in flight under the old key, the listener
  // hears the commit and switches, and from then on it reads what is put back on the wire.
  lemma {:induction false} InFlightSuffices(r: Listener, copies: map<int, SecretMessage>, sent: seq<SecretMessage>, inFlight: set<int>)
    requires Waits(r, copies, sent) && forall n | Missing(r.chat, n) && n <= r.commit :: n in inFlight
    ensures var ps := OldMail(r, sent, inFlight, r.commit + 1);
            Mail(r, sent, inFlight, ps) && HearAll(r, ps).key == r.next
  {
    var ps := OldMail(r, sent, inFlight, r.commit + 1);
    OldMailCovers(r, sent, inFlight, r.commit + 1);
    var copies' := HeardSoFar(r, copies, sent, inFlight, ps);
    forall n | 0 <= n <= r.commit ensures HearAll(r, ps).key == r.key ==> n in copies' {
      if n !in copies {
        assert Missing(r.chat, n);
        assert Sealed(r.key, sent[n]) in ps && sent[n].rawOut / 2 == n;
      }
    }
  }

  // So a switch is survived if and only if no number up to the commit is missing for
  // which nothing is in flight under the old key.
  lemma {:induction false} SwitchSurvivedIff(r: Listener, copies: map<int, SecretMessage>, sent: seq<SecretMessage>, inFlight: set<int>)
    requires Waits(r, copies, sent)
    ensures (exists ps :: Mail(r, sent, inFlight, ps) && HearAll(r, ps).key == r.next)
            <==> forall n | Missing(r.chat, n) && n <= r.commit :: n in inFlight
  {
    if forall n | Missing(r.chat, n) && n <= r.commit :: n in inFlight {
      InFlightSuffices(r, copies, sent, inFlight);
    } else {
      var hole :| Missing(r.chat, hole) && hole <= r.commit && hole !in inFlight;
      forall ps | Mail(r, sent, inFlight, ps) ensures HearAll(r, ps).key != r.next {
        HoleStaysOpen(r, copies, sent, inFlight, ps, hole);
      }
    }
  }
}
