/** Updates and the counters that tell whether one was missed (src/updater.cpp,
    src/user_agent.cpp, src/query/query_get_difference.cpp, src/query/query_get_state.h). */
module Updates {
  import opened Wrappers

  // The pts after an update and how many of them it covers.
  datatype Stamp = Stamp(pts: int, count: int)

  // An update, known by its id, with the counters it carries.
  datatype Update = Update(id: int, stamp: Option<Stamp>, qts: Option<int>)

  datatype Batch = Batch(firstSeq: int, seqNo: int, date: int, updates: seq<Update>)

  // What the server pushes; a combined batch is checked by its first number.
  datatype Push = TooLong | Short(update: Update) | ShortMessage(id: int, stamp: Stamp)
                | SentMessage(update: Update) | Updates(batch: Batch) | Combined(batch: Batch)

  // The query that the lock on differences waits for.
  datatype Query = Difference(pts: int, date: int, qts: int) | State

  // The counters an answer carries.
  datatype Counters = Counters(pts: int, qts: int, date: int, seqNo: int)

  // A difference, and whether more of it is to be asked for.
  datatype Answer = Nothing(date: int, seqNo: int)
                  | Missed(updates: seq<Update>, state: Counters, more: bool)
                  | Current(state: Counters)

  // applied: every update that was carried out, in order.
  datatype Agent = Agent(pts: int, qts: int, date: int, seqNo: int, locked: bool,
                         query: Option<Query>, applied: seq<Update>)

  function RaisePts(a: Agent, pts: int, force: bool): Agent {
    if (a.locked && !force) || (pts <= a.pts && !force) then a else a.(pts := pts)
  }

  // The lock stops even a forced one.
  function RaiseQts(a: Agent, qts: int, force: bool): Agent {
    if a.locked || (qts <= a.qts && !force) then a else a.(qts := qts)
  }

  function RaiseDate(a: Agent, date: int, force: bool): Agent {
    if (a.locked && !force) || (date <= a.date && !force) then a else a.(date := date)
  }

  function RaiseSeq(a: Agent, seqNo: int): Agent {
    if a.locked || seqNo <= a.seqNo then a else a.(seqNo := seqNo)
  }

  function AskDifference(a: Agent, fromStart: bool): Agent {
    if a.locked then a
    else if a.pts > 0 || fromStart then
      var b := a.(locked := true);
      var c := if b.pts == 0 then RaisePts(b, 1, true) else b;
      var d := if c.date == 0 then RaiseDate(c, 1, true) else c;
      d.(query := Some(Difference(d.pts, d.date, d.qts)))
    else a.(locked := true, query := Some(State))
  }

  // A check that may start a difference.
  datatype Check = Check(ok: bool, agent: Agent)

  function CheckPts(a: Agent, s: Stamp): Check {
    if a.pts == 0 || s.count == 0 then Check(true, a)
    else if s.pts < a.pts + s.count then Check(false, a)
    else if s.pts > a.pts + s.count then Check(false, AskDifference(a, false))
    else Check(!a.locked, a)
  }

  function CheckQts(a: Agent, qts: int): Check {
    if qts != a.qts + 1 then Check(false, AskDifference(a, false)) else Check(!a.locked, a)
  }

  function CheckSeq(a: Agent, seqNo: int): Check {
    if seqNo == 0 then Check(true, a)
    else if a.seqNo == 0 || seqNo <= a.seqNo then Check(false, a)
    else if seqNo > a.seqNo + 1 then Check(false, AskDifference(a, false))
    else Check(!a.locked, a)
  }

  // work_update; the updates of a difference are not checked.
  function Work(a: Agent, u: Update, checked: bool): Agent {
    if a.locked then a
    else
      var p := if checked && u.stamp.Some? then CheckPts(a, u.stamp.value) else Check(true, a);
      if !p.ok then p.agent
      else
        var q := if checked && u.qts.Some? then CheckQts(p.agent, u.qts.value) else Check(true, p.agent);
        if !q.ok then q.agent
        else
          var b := q.agent.(applied := q.agent.applied + [u]);
          if !checked then b
          else
            var c := if u.stamp.Some? then RaisePts(b, u.stamp.value.pts, false) else b;
            if u.qts.Some? then RaiseQts(c, u.qts.value, false) else c
  }

  function WorkAll(a: Agent, us: seq<Update>, checked: bool): Agent
    decreases |us|
  {
    if us == [] then a else WorkAll(Work(a, us[0], checked), us[1..], checked)
  }

  function WorkBatch(a: Agent, first: int, b: Batch): Agent {
    if a.locked then a
    else
      var c := CheckSeq(a, first);
      if !c.ok then c.agent
      else
        var d := WorkAll(c.agent, b.updates, true);
        RaiseSeq(RaiseDate(d, b.date, false), b.seqNo)
  }

  function WorkMessage(a: Agent, u: Update): Agent {
    var c := if u.stamp.Some? then CheckPts(a, u.stamp.value) else Check(true, a);
    if !c.ok then c.agent
    else
      var b := c.agent.(applied := c.agent.applied + [u]);
      if u.stamp.Some? then RaisePts(b, u.stamp.value.pts, false) else b
  }

  // work_any_updates
  function WorkAny(a: Agent, m: Push): Agent {
    if a.locked then a
    else
      match m
      case TooLong => AskDifference(a, false)
      case Short(u) => Work(a, u, true)
      case ShortMessage(id, stamp) => WorkMessage(a, Update(id, Some(stamp), None))
      case SentMessage(u) => WorkMessage(a, u.(qts := None))
      case Updates(b) => WorkBatch(a, b.seqNo, b)
      case Combined(b) => WorkBatch(a, b.firstSeq, b)
  }

  function SetAll(a: Agent, s: Counters): Agent {
    RaiseSeq(RaiseDate(RaiseQts(RaisePts(a, s.pts, false), s.qts, false), s.date, false), s.seqNo)
  }

  // The answer to the query for a difference, or for the current counters.
  function OnAnswer(a: Agent, answer: Answer): Agent {
    var b := a.(locked := false, query := None);
    match answer
    case Nothing(date, seqNo) => RaiseSeq(RaiseDate(b, date, false), seqNo)
    case Missed(us, s, more) =>
      var c := WorkAll(b, us, false);
      if more then AskDifference(RaiseDate(RaiseQts(RaisePts(c, s.pts, false), s.qts, false), s.date, false), false)
      else SetAll(c, s)
    case Current(s) => SetAll(b, s)
  }

  // A failed query leaves the lock as it is.
  function OnError(a: Agent): Agent { a.(query := None) }

  // ---- The objects ----

  class UserAgent {
    var pts: int
    var qts: int
    var date: int
    var seqNo: int
    var diffLocked: bool
    var query: Option<Query>
    ghost var applied: seq<Update>

    ghost function View(): Agent
      reads this
    {
      Agent(pts, qts, date, seqNo, diffLocked, query, applied)
    }

    constructor (pts: int, qts: int, date: int)
      ensures View() == Agent(pts, qts, date, 0, false, None, [])
    {
      this.pts, this.qts, this.date, seqNo := pts, qts, date, 0;
      diffLocked, query, applied := false, None, [];
    }

    method SetPts(newPts: int, force: bool)
      modifies this`pts
      ensures View() == RaisePts(old(View()), newPts, force)
    {
      if diffLocked && !force {
        return;
      }
      if newPts <= pts && !force {
        return;
      }
      pts := newPts;
    }

    method SetQts(newQts: int, force: bool)
      modifies this`qts
      ensures View() == RaiseQts(old(View()), newQts, force)
    {
      if diffLocked {
        return;
      }
      if newQts <= qts && !force {
        return;
      }
      qts := newQts;
    }

    method SetDate(newDate: int, force: bool)
      modifies this`date
      ensures View() == RaiseDate(old(View()), newDate, force)
    {
      if diffLocked && !force {
        return;
      }
      if newDate <= date && !force {
        return;
      }
      date := newDate;
    }

    method SetSeq(newSeq: int)
      modifies this`seqNo
      ensures View() == RaiseSeq(old(View()), newSeq)
    {
      if diffLocked {
        return;
      }
      if newSeq <= seqNo {
        return;
      }
      seqNo := newSeq;
    }

    method GetDifference(syncFromStart: bool)
      modifies this
      ensures View() == AskDifference(old(View()), syncFromStart)
    {
      if diffLocked {
        return;
      }
      diffLocked := true;
      if pts > 0 || syncFromStart {
        if pts == 0 {
          SetPts(1, true);
        }
        if date == 0 {
          SetDate(1, true);
        }
        query := Some(Difference(pts, date, qts));
      } else {
        query := Some(State);
      }
    }

    // The callback that carries an update out.
    method Apply(u: Update)
      modifies this`applied
      ensures View() == old(View()).(applied := old(applied) + [u])
    {
      applied := applied + [u];
    }

    method SetCounters(s: Counters, withSeq: bool)
      modifies this`pts, this`qts, this`date, this`seqNo
      ensures var a := RaiseDate(RaiseQts(RaisePts(old(View()), s.pts, false), s.qts, false), s.date, false);
              View() == if withSeq then RaiseSeq(a, s.seqNo) else a
    {
      SetPts(s.pts, false);
      SetQts(s.qts, false);
      SetDate(s.date, false);
      if withSeq {
        SetSeq(s.seqNo);
      }
    }
  }

  class Updater {
    const agent: UserAgent

    constructor (agent: UserAgent)
      ensures this.agent == agent
    {
      this.agent := agent;
    }

    method CheckPtsDiff(pts: int, count: int) returns (ok: bool)
      modifies agent
      ensures Check(ok, agent.View()) == CheckPts(old(agent.View()), Stamp(pts, count))
    {
      if agent.pts == 0 {
        return true;
      }
      if count == 0 {
        return true;
      }
      if pts < agent.pts + count {
        return false;
      }
      if pts > agent.pts + count {
        agent.GetDifference(false);
        return false;
      }
      return !agent.diffLocked;
    }

    method CheckQtsDiff(qts: int, count: int) returns (ok: bool)
      requires count == 1
      modifies agent
      ensures Check(ok, agent.View()) == CheckQts(old(agent.View()), qts)
    {
      if qts < agent.qts + count {
        agent.GetDifference(false);
        return false;
      }
      if qts > agent.qts + count {
        agent.GetDifference(false);
        return false;
      }
      return !agent.diffLocked;
    }

    method CheckSeqDiff(seqNo: int) returns (ok: bool)
      modifies agent
      ensures Check(ok, agent.View()) == CheckSeq(old(agent.View()), seqNo)
    {
      if seqNo == 0 {
        return true;
      }
      if agent.seqNo != 0 {
        if seqNo <= agent.seqNo {
          return false;
        }
        if seqNo > agent.seqNo + 1 {
          agent.GetDifference(false);
          return false;
        }
        return !agent.diffLocked;
      } else {
        return false;
      }
    }

    method WorkUpdate(u: Update, checked: bool)
      modifies agent
      ensures agent.View() == Work(old(agent.View()), u, checked)
    {
      if agent.diffLocked {
        return;
      }
      if checked && u.stamp.Some? {
        var ok := CheckPtsDiff(u.stamp.value.pts, u.stamp.value.count);
        if !ok {
          return;
        }
      }
      if checked && u.qts.Some? {
        var ok := CheckQtsDiff(u.qts.value, 1);
        if !ok {
          return;
        }
      }
      agent.Apply(u);
      if !checked {
        return;
      }
      if u.stamp.Some? {
        agent.SetPts(u.stamp.value.pts, false);
      }
      if u.qts.Some? {
        agent.SetQts(u.qts.value, false);
      }
    }

    method WorkEach(us: seq<Update>, checked: bool)
      modifies agent
      ensures agent.View() == WorkAll(old(agent.View()), us, checked)
    {
      var i := 0;
      while i < |us|
        invariant 0 <= i <= |us|
        invariant WorkAll(agent.View(), us[i..], checked) == WorkAll(old(agent.View()), us, checked)
      {
        WorkUpdate(us[i], checked);
        i := i + 1;
      }
    }

    // work_updates and work_updates_combined, which differ in the number they check.
    method WorkUpdates(first: int, batch: Batch)
      modifies agent
      ensures agent.View() == WorkBatch(old(agent.View()), first, batch)
    {
      if agent.diffLocked {
        return;
      }
      var ok := CheckSeqDiff(first);
      if !ok {
        return;
      }
      WorkEach(batch.updates, true);
      agent.SetDate(batch.date, false);
      agent.SetSeq(batch.seqNo);
    }

    method WorkShortMessage(u: Update)
      modifies agent
      ensures agent.View() == WorkMessage(old(agent.View()), u)
    {
      if u.stamp.Some? {
        var ok := CheckPtsDiff(u.stamp.value.pts, u.stamp.value.count);
        if !ok {
          return;
        }
      }
      agent.Apply(u);
      if u.stamp.Some? {
        agent.SetPts(u.stamp.value.pts, false);
      }
    }

    method WorkAnyUpdates(m: Push)
      modifies agent
      ensures agent.View() == WorkAny(old(agent.View()), m)
    {
      if agent.diffLocked {
        return;
      }
      match m {
        case TooLong => agent.GetDifference(false);
        case Short(u) => WorkUpdate(u, true);
        case ShortMessage(id, stamp) => WorkShortMessage(Update(id, Some(stamp), None));
        case SentMessage(u) => WorkShortMessage(u.(qts := None));
        case Updates(b) => WorkUpdates(b.seqNo, b);
        case Combined(b) => WorkUpdates(b.firstSeq, b);
      }
    }

    method DifferenceAnswered(answer: Answer)
      requires agent.diffLocked
      modifies agent
      ensures agent.View() == OnAnswer(old(agent.View()), answer)
    {
      agent.diffLocked := false;
      agent.query := None;
      match answer {
        case Nothing(date, seqNo) =>
          agent.SetDate(date, false);
          agent.SetSeq(seqNo);
        case Missed(us, s, more) =>
          WorkEach(us, false);
          agent.SetCounters(s, !more);
          if more {
            agent.GetDifference(false);
          }
        case Current(s) =>
          agent.SetCounters(s, true);
      }
    }

    method DifferenceFailed()
      modifies agent`query
      ensures agent.View() == OnError(old(agent.View()))
    {
      agent.query := None;
    }
  }
}
