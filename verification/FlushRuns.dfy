/**
 Whole runs of the flush machine: any interleaving of submissions, dispatches
 and completions.
 */
module FlushRuns {
  import opened FlushModel
  import opened FlushProofs

  datatype Event =
    | Submit(caps: Caps, rq: Rq, now: int)
    | Dispatch
    | FlushDone(ok: bool, now: int)
    | DataDone(id: nat, ok: bool, now: int)

  ghost predicate Enabled(s: State, e: Event) {
    match e
    case Submit(caps, rq, _) => Submittable(s, caps, rq)
    case Dispatch => s.head != []
    case FlushDone(_, _) => s.flushAtDevice
    case DataDone(id, _, _) => id in s.dataAtDevice
  }

  ghost function Step(s: State, e: Event): (t: State)
    requires Inv(s) && Enabled(s, e)
    ensures Inv(t)
  {
    match e
    case Submit(caps, rq, now) => InsertKeeps(s, caps, rq, now); Insert(s, caps, rq, now)
    case Dispatch => FetchKeeps(s); Fetch(s)
    case FlushDone(ok, now) => FlushEndKeeps(s, ok, now); FlushEnd(s, ok, now)
    case DataDone(id, ok, now) => DataEndKeeps(s, id, ok, now); DataEnd(s, id, ok, now)
  }

  /** Nothing submitted yet. */
  ghost function Idle(hz: nat): (s: State)
    ensures Inv(s)
  {
    State(0, 0, [[], []], [], [], false, {}, map[], map[], 0, hz, 0, [])
  }

  ghost predicate Possible(s: State, es: seq<Event>)
    requires Inv(s)
    decreases |es|
  {
    es != [] ==> Enabled(s, es[0]) && Possible(Step(s, es[0]), es[1..])
  }

  ghost function Run(s: State, es: seq<Event>): (t: State)
    requires Inv(s) && Possible(s, es)
    ensures Inv(t)
    decreases |es|
  {
    if es == [] then s else Run(Step(s, es[0]), es[1..])
  }

  // ---- Ordering

  /** What the p-th act of the history must find before it: data that needs a
      PREFLUSH goes out only after a flush issued since its insertion has
      succeeded, and success is reported only after the data and, where asked
      for, a flush issued after the data have succeeded. */
  ghost predicate InOrder(s: State, p: nat, id: nat)
    requires p < |s.trace|
  {
    var before := s.trace[..p];
    && (s.trace[p] == DataIssued(id) ==>
          id in s.need && (Pre in s.need[id] ==> Flushed(before, Inserted(id))))
    && (s.trace[p] == Finished(id, true) ==>
          && id in s.need
          && (Pre in s.need[id] ==> Flushed(before, Inserted(id)))
          && (Data in s.need[id] ==> Happened(before, DataEnded(id, true)))
          && (Post in s.need[id] ==> Flushed(before, DataEnded(id, true))))
  }

  lemma {:induction false} InvOrders(s: State, p: nat, id: nat)
    requires Inv(s) && p < |s.trace|
    ensures InOrder(s, p, id)
  {
    assert Justified(s.trace[..p], s.need, s.trace[p]);
  }

  /** Whatever the interleaving, the whole history is in order. */
  lemma {:induction false} CacheOrder(hz: nat, es: seq<Event>, p: nat, id: nat)
    requires Possible(Idle(hz), es) && p < |Run(Idle(hz), es).trace|
    ensures InOrder(Run(Idle(hz), es), p, id)
  {
    InvOrders(Run(Idle(hz), es), p, id);
  }

  // ---- Every request ends exactly once

  function Ends(t: seq<Act>, id: nat): nat {
    if t == [] then 0
    else Ends(t[..|t| - 1], id) + if t[|t| - 1].Finished? && t[|t| - 1].id == id then 1 else 0
  }

  lemma {:induction false} EndsSnoc(t: seq<Act>, a: Act, id: nat)
    ensures Ends(t + [a], id) == Ends(t, id) + if a.Finished? && a.id == id then 1 else 0
  {
    assert (t + [a])[..|t|] == t;
  }

  predicate EndedOnce(s: State, id: nat) {
    && (id in s.done ==> id in s.need)
    && Ends(s.trace, id) == if id in s.need && id !in s.done then 1 else 0
  }

  lemma {:induction false} AdvanceEnds(s: State, id: nat, steps: set<Step>, ok: bool, now: int, x: nat)
    requires |s.lists| == 2 && s.pendIdx < 2 && id in s.done && EndedOnce(s, x) && EndedOnce(s, id)
    ensures EndedOnce(Advance(s, id, steps, ok, now), x)
  {
    var cur := if ok then CurSeq(s.done[id] + steps) else AllDone;
    if cur.AllDone? {
      EndsSnoc(s.trace, Finished(id, ok), x);
    } else if cur.step == Data {
      EndsSnoc(s.trace, DataIssued(id), x);
    }
  }

  lemma {:induction false} CompleteEnds(s: State, id: nat, steps: set<Step>, ok: bool, now: int, x: nat)
    requires |s.lists| == 2 && s.pendIdx < 2 && id in s.done && EndedOnce(s, x) && EndedOnce(s, id)
    ensures EndedOnce(CompleteSeq(s, id, steps, ok, now), x)
  {
    AdvanceEnds(s, id, steps, ok, now, x);
    var t := Advance(s, id, steps, ok, now);
    EndsSnoc(t.trace, FlushIssued(t.flushes), x);
  }

  lemma {:induction false} PushEnds(s: State, l: seq<nat>, ok: bool, now: int, x: nat)
    requires |s.lists| == 2 && s.pendIdx < 2 && EndedOnce(s, x) && forall id :: id in s.done ==> EndedOnce(s, id)
    ensures EndedOnce(PushOn(s, l, ok, now), x)
    decreases |l|
  {
    if l != [] {
      if l[0] !in s.done || CurSeq(s.done[l[0]]).AllDone? {
        PushEnds(s, l[1..], ok, now, x);
      } else {
        var t := CompleteSeq(s, l[0], {CurSeq(s.done[l[0]]).step}, ok, now);
        CompleteEnds(s, l[0], {CurSeq(s.done[l[0]]).step}, ok, now, x);
        forall id | id in t.done
          ensures EndedOnce(t, id)
        {
          CompleteEnds(s, l[0], {CurSeq(s.done[l[0]]).step}, ok, now, id);
        }
        PushEnds(t, l[1..], ok, now, x);
      }
    }
  }

  lemma {:induction false} SubmitEnds(s: State, caps: Caps, rq: Rq, now: int, x: nat)
    requires |s.lists| == 2 && s.pendIdx < 2 && rq.id !in s.need
    requires EndedOnce(s, x) && EndedOnce(s, rq.id)
    ensures EndedOnce(Insert(s, caps, rq, now), x)
  {
    var p := Policy(caps, rq);
    if !(Data in p && Pre !in p && Post !in p) {
      var t := Joined(s, rq.id, p);
      EndsSnoc(s.trace, Inserted(rq.id), x);
      EndsSnoc(s.trace, Inserted(rq.id), rq.id);
      assert EndedOnce(t, rq.id) && EndedOnce(t, x);
      CompleteEnds(t, rq.id, {}, true, now, x);
    }
  }

  lemma {:induction false} FlushDoneEnds(s: State, ok: bool, now: int, x: nat)
    requires |s.lists| == 2 && s.pendIdx < 2 && s.runIdx < 2 && s.flushes > 0
    requires forall id :: id in s.lists[s.runIdx] ==> id in s.done
    requires forall id :: EndedOnce(s, id)
    ensures EndedOnce(FlushEnd(s, ok, now), x)
  {
    var t := FlushOff(s, ok);
    forall id
      ensures EndedOnce(t, id)
    {
      EndsSnoc(s.trace, FlushEnded(s.flushes - 1, ok), id);
      assert EndedOnce(s, id);
    }
    PushEnds(t, s.lists[s.runIdx], ok, now, x);
  }

  lemma {:induction false} DataDoneEnds(s: State, id: nat, ok: bool, now: int, x: nat)
    requires |s.lists| == 2 && s.pendIdx < 2 && id in s.done && EndedOnce(s, x) && EndedOnce(s, id)
    ensures EndedOnce(DataEnd(s, id, ok, now), x)
  {
    var t := DataOff(s, id, ok);
    EndsSnoc(s.trace, DataEnded(id, ok), x);
    EndsSnoc(s.trace, DataEnded(id, ok), id);
    assert EndedOnce(t, id) && EndedOnce(t, x);
    CompleteEnds(t, id, {Data}, ok, now, x);
  }

  lemma {:induction false} StepEnds(s: State, e: Event, x: nat)
    requires Inv(s) && Enabled(s, e) && forall id :: EndedOnce(s, id)
    ensures EndedOnce(Step(s, e), x)
  {
    assert EndedOnce(s, x);
    match e {
      case Submit(caps, rq, now) =>
        assert EndedOnce(s, rq.id);
        SubmitEnds(s, caps, rq, now, x);
      case Dispatch =>
      case FlushDone(ok, now) =>
        FlushEndKeeps(s, ok, now);
        FlushDoneEnds(s, ok, now, x);
      case DataDone(id, ok, now) =>
        DataEndKeeps(s, id, ok, now);
        assert EndedOnce(s, id);
        DataDoneEnds(s, id, ok, now, x);
    }
  }

  lemma {:induction false} RunEnds(s: State, es: seq<Event>, x: nat)
    requires Inv(s) && Possible(s, es) && forall id :: EndedOnce(s, id)
    ensures EndedOnce(Run(s, es), x)
    decreases |es|
  {
    if es != [] {
      forall id
        ensures EndedOnce(Step(s, es[0]), id)
      {
        StepEnds(s, es[0], id);
      }
      RunEnds(Step(s, es[0]), es[1..], x);
    }
  }

  // ---- Progress

  function Left(d: set<Step>): nat {
    (if Pre in d then 0 else 1) + (if Data in d then 0 else 1) + (if Post in d then 0 else 1)
  }

  /** Unfinished steps of all sequenced requests. */
  ghost function Work(done: map<nat, set<Step>>): nat
    decreases |done|
  {
    if done == map[] then 0 else var id :| id in done; Left(done[id]) + Work(done - {id})
  }

  lemma {:induction false} WorkPick(done: map<nat, set<Step>>, id: nat)
    requires id in done
    ensures Work(done) == Left(done[id]) + Work(done - {id})
    decreases |done|
  {
    var v :| v in done && Work(done) == Left(done[v]) + Work(done - {v});
    if v != id {
      WorkPick(done - {v}, id);
      WorkPick(done - {id}, v);
      assert done - {v} - {id} == done - {id} - {v};
    }
  }

  /** What is left to do, in events. */
  ghost function Potential(s: State): nat {
    3 * Work(s.done) + |s.head|
  }

  lemma {:induction false} CompleteLowers(s: State, id: nat, st: Step, ok: bool, now: int)
    requires |s.lists| == 2 && s.pendIdx < 2 && id in s.done && st !in s.done[id]
    ensures var t := CompleteSeq(s, id, {st}, ok, now);
            Potential(t) < Potential(s) && Work(t.done) < Work(s.done)
  {
    var t := CompleteSeq(s, id, {st}, ok, now);
    WorkPick(s.done, id);
    var d := s.done[id] + {st};
    if ok && CurSeq(d).At? {
      assert t.done == s.done[id := d];
      WorkPick(t.done, id);
      assert t.done - {id} == s.done - {id};
    } else {
      assert t.done == s.done - {id};
    }
  }

  lemma {:induction false} PushLowers(s: State, l: seq<nat>, ok: bool, now: int)
    requires |s.lists| == 2 && s.pendIdx < 2
    ensures var t := PushOn(s, l, ok, now);
            Potential(t) <= Potential(s) && Work(t.done) <= Work(s.done)
    ensures l != [] && l[0] in s.done && CurSeq(s.done[l[0]]).At? ==>
              var t := PushOn(s, l, ok, now);
              Potential(t) < Potential(s) && Work(t.done) < Work(s.done)
    decreases |l|
  {
    if l != [] {
      if l[0] !in s.done || CurSeq(s.done[l[0]]).AllDone? {
        PushLowers(s, l[1..], ok, now);
      } else {
        var st := CurSeq(s.done[l[0]]).step;
        CompleteLowers(s, l[0], st, ok, now);
        PushLowers(CompleteSeq(s, l[0], {st}, ok, now), l[1..], ok, now);
      }
    }
  }

  /** Everything but a submission brings the machine closer to rest, and a
      completion always finishes a step. */
  lemma {:induction false} StepLowers(s: State, e: Event)
    requires Inv(s) && Enabled(s, e) && !e.Submit?
    ensures Potential(Step(s, e)) < Potential(s)
    ensures e.Dispatch? || Work(Step(s, e).done) < Work(s.done)
  {
    match e {
      case Dispatch =>
      case FlushDone(ok, now) =>
        FlushEndKeeps(s, ok, now);
        var l := s.lists[s.runIdx];
        assert l[0] in s.done && LiveOk(s, l[0]);
        PushLowers(FlushOff(s, ok), l, ok, now);
      case DataDone(id, ok, now) =>
        DataEndKeeps(s, id, ok, now);
        CompleteLowers(DataOff(s, id, ok), id, Data, ok, now);
    }
  }

  lemma {:induction false} NoEndlessRun(s: State, es: seq<Event>)
    requires Inv(s) && Possible(s, es) && forall i :: 0 <= i < |es| ==> !es[i].Submit?
    ensures |es| + Potential(Run(s, es)) <= Potential(s)
    decreases |es|
  {
    if es != [] {
      StepLowers(s, es[0]);
      NoEndlessRun(Step(s, es[0]), es[1..]);
    }
  }

  /** As long as a request is unfinished, the driver or the device has
      something to do. */
  lemma {:induction false} NoDeadlock(s: State)
    requires Inv(s) && s.done != map[]
    ensures s.head != [] || s.flushAtDevice || s.dataAtDevice != {}
  {
    var id :| id in s.done;
    assert (Places(s) + multiset{})[id] == 1;
    if s.head == [] && !s.flushAtDevice {
      assert s.pendIdx == s.runIdx;
      if id !in s.data {
        assert s.lists[Flip(s.pendIdx)] == [];
        assert id in s.lists[s.pendIdx];
      }
      assert s.data != [];
      assert s.data[0] in multiset(s.data);
    }
  }
}
