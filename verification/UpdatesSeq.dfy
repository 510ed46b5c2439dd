/** The numbers of pushed batches: which batch is worked, and what seq stands for after
    any run of pushes (src/updater.cpp). The checks themselves are not mentioned. */
module UpdatesSeq {
  import opened Updates
  import opened UpdatesRuns
  import opened Wrappers

  // The batch of a push, with the number that decides whether it is worked.
  function BatchOf(m: Push): Option<(int, Batch)> {
    match m
    case Updates(b) => Some((b.seqNo, b))
    case Combined(b) => Some((b.firstSeq, b))
    case _ => None
  }

  function Max(x: int, y: int): int { if x <= y then y else x }

  lemma {:induction false} WorkKeepsSeq(a: Agent, us: seq<Update>, checked: bool)
    ensures var b := WorkAll(a, us, checked); b.seqNo == a.seqNo && (b.locked || b.date == a.date)
    decreases |us|
  {
    if us != [] {
      WorkKeepsSeq(Work(a, us[0], checked), us[1..], checked);
      if Work(a, us[0], checked).locked {
        LockedWorksNothing(Work(a, us[0], checked), us[1..], checked);
      }
    }
  }

  // A batch that is worked: its updates in turn, and unless one of them found a gap,
  // its date and its last number.
  function Worked(a: Agent, b: Batch): Agent {
    var d := WorkAll(a, b.updates, true);
    if d.locked then d else d.(date := Max(a.date, b.date), seqNo := Max(a.seqNo, b.seqNo))
  }

  // What a batch does to an agent that waits for nothing. Without a number it is worked;
  // with the next number it is worked; with an earlier one, or while the agent knows no
  // number yet, it is dropped; with a later one nothing of it is applied, seq stays, and
  // a query is on its way behind the lock.
  lemma {:induction false} BatchByNumber(a: Agent, m: Push)
    requires !a.locked && BatchOf(m).Some?
    ensures var ((first, b), c) := (BatchOf(m).value, WorkAny(a, m));
            && (first == 0 || (a.seqNo != 0 && first == a.seqNo + 1) ==> c == Worked(a, b))
            && (first != 0 && (a.seqNo == 0 || first <= a.seqNo) ==> c == a)
            && (first != 0 && a.seqNo != 0 && first > a.seqNo + 1 ==>
                  c.applied == a.applied && c.seqNo == a.seqNo && c.locked && c.query.Some?)
  {
    WorkKeepsSeq(a, BatchOf(m).value.1.updates, true);
    hide WorkAll;
  }

  // A push that is too long to be sent asks for the difference.
  lemma TooLongAsks(a: Agent)
    requires !a.locked
    ensures var c := WorkAny(a, TooLong); c.locked && c.query.Some? && c.applied == a.applied && c.seqNo == a.seqNo
  {
  }

  // What a single update with a positive count does: the next one is applied, an earlier
  // one is dropped, a later one is not applied and asks for the difference.
  lemma {:induction false} UpdateByNumber(a: Agent, m: Push, u: Update)
    requires !a.locked && a.pts > 0 && u.qts.None? && u.stamp.Some? && u.stamp.value.count > 0
    requires m == Short(u) || m == SentMessage(u) || m == ShortMessage(u.id, u.stamp.value)
    ensures var (start, c) := (u.stamp.value.pts - u.stamp.value.count, WorkAny(a, m));
            && (start == a.pts ==> c == a.(pts := u.stamp.value.pts, applied := a.applied + [u]))
            && (start < a.pts ==> c == a)
            && (start > a.pts ==> c.locked && c.query.Some? && c.query.value.Difference? && c.query.value.pts == a.pts
                                  && c.applied == a.applied && c.pts == a.pts)
  {
  }

  // The numbers of the batches in ms that moved seq, each with the first of its numbers.
  function Moves(a: Agent, ms: seq<Push>): seq<(int, int)>
    decreases |ms|
  {
    if ms == [] then []
    else
      var b := WorkAny(a, ms[0]);
      (if BatchOf(ms[0]).Some? && b.seqNo != a.seqNo
       then [(BatchOf(ms[0]).value.0, BatchOf(ms[0]).value.1.seqNo)] else [])
      + Moves(b, ms[1..])
  }

  // The ranges lie end to end, from just behind n up to n2.
  predicate EndToEnd(rs: seq<(int, int)>, n: int, n2: int) {
    if rs == [] then n == n2 else rs[0].0 == n + 1 <= rs[0].1 && EndToEnd(rs[1..], rs[0].1, n2)
  }

  predicate AllNumbered(rs: seq<(int, int)>) { forall r | r in rs :: r.0 != 0 }

  lemma {:induction false} PushMoves(a: Agent, m: Push)
    requires a.seqNo >= 0
    ensures var b := WorkAny(a, m);
            b.seqNo != a.seqNo ==>
              && BatchOf(m).Some? && a.seqNo < b.seqNo == BatchOf(m).value.1.seqNo
              && BatchOf(m).value.0 in {0, a.seqNo + 1}
  {
    if !a.locked && BatchOf(m).Some? {
      BatchByNumber(a, m);
      WorkKeepsSeq(a, BatchOf(m).value.1.updates, true);
      hide WorkAny, WorkAll;
    }
  }

  // Whatever is pushed between two differences: the numbers of the batches that moved
  // seq are contiguous and disjoint and end at seq, if and only if each of these
  // batches carries a first number.
  lemma {:induction false} WorkedNumbersAreContiguous(a: Agent, ms: seq<Push>)
    requires a.seqNo >= 0
    ensures EndToEnd(Moves(a, ms), a.seqNo, WorkPushes(a, ms).seqNo) <==> AllNumbered(Moves(a, ms))
    decreases |ms|
  {
    if ms != [] {
      var b := WorkAny(a, ms[0]);
      PushMoves(a, ms[0]);
      WorkedNumbersAreContiguous(b, ms[1..]);
      hide WorkAny;
      var rest := Moves(b, ms[1..]);
      if b.seqNo == a.seqNo {
        assert Moves(a, ms) == rest;
      } else {
        var r := (BatchOf(ms[0]).value.0, BatchOf(ms[0]).value.1.seqNo);
        assert Moves(a, ms) == [r] + rest && ([r] + rest)[1..] == rest;
        assert AllNumbered([r] + rest) <==> r.0 != 0 && AllNumbered(rest) by {
          assert ([r] + rest)[0] == r;
          assert forall x | x in rest :: x in [r] + rest;
        }
      }
    }
  }

  // A combined batch without a first number moves seq however far it is.
  lemma {:induction false} UnnumberedJumps(a: Agent, b: Batch)
    requires !a.locked && b.firstSeq == 0 && b.seqNo > a.seqNo && b.updates == []
    ensures WorkAny(a, Combined(b)).seqNo == b.seqNo
  {
  }

  // The counters one by one: without force none moves back and none moves under the
  // lock; force overrides both for pts and date, and only the order for qts.
  lemma SettersByForce(a: Agent, n: int, force: bool)
    ensures RaisePts(a, n, force) == a.(pts := if force then n else if a.locked then a.pts else Max(a.pts, n))
    ensures RaiseDate(a, n, force) == a.(date := if force then n else if a.locked then a.date else Max(a.date, n))
    ensures RaiseQts(a, n, force) == a.(qts := if a.locked then a.qts else if force then n else Max(a.qts, n))
    ensures RaiseSeq(a, n) == a.(seqNo := if a.locked then a.seqNo else Max(a.seqNo, n))
  {
  }

  // Asking for everything from the start puts counters that are zero to one.
  lemma AskFromStart(a: Agent)
    requires !a.locked
    ensures var b := AskDifference(a, true);
            && b.locked && b.applied == a.applied && b.qts == a.qts && b.seqNo == a.seqNo
            && b.pts == (if a.pts == 0 then 1 else a.pts) && b.date == (if a.date == 0 then 1 else a.date)
            && b.query == Some(Difference(b.pts, b.date, b.qts))
  {
  }

  // Where the counters stand once a difference is complete: none of them moves back.
  lemma {:induction false} CompleteAnswerCounts(a: Agent, answer: Answer)
    requires answer.Missed? ==> !answer.more
    ensures var b := OnAnswer(a, answer);
            && !b.locked && b.query.None?
            && (answer.Nothing? ==> b == a.(locked := false, query := None, date := Max(a.date, answer.date),
                                           seqNo := Max(a.seqNo, answer.seqNo)))
            && (!answer.Nothing? ==>
                  && b.pts == Max(a.pts, answer.state.pts) && b.qts == Max(a.qts, answer.state.qts)
                  && b.date == Max(a.date, answer.state.date) && b.seqNo == Max(a.seqNo, answer.state.seqNo)
                  && b.applied == a.applied + if answer.Missed? then answer.updates else [])
  {
    if answer.Missed? {
      UncheckedKeepsCounters(a.(locked := false, query := None), answer.updates);
    }
  }

  // An answer that is not complete brings its updates and asks for the rest from there.
  lemma {:induction false} PartialAnswerAsksOn(a: Agent, us: seq<Update>, s: Counters)
    ensures var (b, pts, date) := (OnAnswer(a, Missed(us, s, true)), Max(a.pts, s.pts), Max(a.date, s.date));
            && b.locked && b.applied == a.applied + us && b.seqNo == a.seqNo
            && b.query == Some(if pts > 0 then Difference(pts, if date == 0 then 1 else date, Max(a.qts, s.qts)) else State)
  {
    UncheckedKeepsCounters(a.(locked := false, query := None), us);
  }
}
