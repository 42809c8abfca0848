/**
 What holds over whole runs of the deadline scheduler: its indexes stay in step,
 a new batch starts with an expired request if there is one, and reads cannot
 starve writes for long (block/deadline-iosched.c).
 */
module DeadlineRuns {
  import opened Deadline
  import opened DeadlineProofs

  datatype Event =
    | Add(now: int, id: nat, rq: Rq)
    | FrontMerge(now: int, id: nat, pos: nat)
    | Merge(now: int, id: nat, next: nat)
    | Dispatch(now: int)

  ghost predicate Possible(s: State, e: Event) {
    && Indexed(s)
    && match e
       case Add(_, id, _) => id !in s.info
       case FrontMerge(_, id, _) => id in s.info && id in Of(s, s.info[id].write).fifo
       case Merge(_, id, next) => Mergeable(s, id, next)
       case Dispatch(_) => true
  }

  ghost function Step(s: State, t: Tunables, e: Event): State
    requires Possible(s, e)
  {
    match e
    case Add(now, id, rq) => Added(s, t, id, rq, now)
    case FrontMerge(_, id, pos) => FrontMerged(s, id, pos)
    case Merge(_, id, next) => MergedRequests(s, id, next)
    case Dispatch(now) => Dispatched(s, t, now)
  }

  /** The clock never runs backwards. */
  ghost predicate LegalRun(s: State, t: Tunables, now: int, run: seq<Event>)
    decreases |run|
  {
    run == [] || (now <= run[0].now && Possible(s, run[0]) && LegalRun(Step(s, t, run[0]), t, run[0].now, run[1..]))
  }

  ghost function Run(s: State, t: Tunables, now: int, run: seq<Event>): State
    requires LegalRun(s, t, now, run)
    decreases |run|
  {
    if run == [] then s else Run(Step(s, t, run[0]), t, run[0].now, run[1..])
  }

  function Ends(now: int, run: seq<Event>): int { if run == [] then now else run[|run| - 1].now }

  lemma {:induction false} InvIndexed(s: State, t: Tunables, now: int)
    requires Inv(s, t, now)
    ensures Indexed(s)
  {
    assert SideInv(s, t, now, false) && SideInv(s, t, now, true);
  }

  lemma {:induction false} StepKeeps(s: State, t: Tunables, now: int, e: Event)
    requires Inv(s, t, now) && now <= e.now && Possible(s, e)
    ensures Inv(Step(s, t, e), t, e.now)
  {
    ClockRuns(s, t, now, e.now);
    match e
    case Add(_, id, rq) => AddedKeeps(s, t, e.now, id, rq);
    case FrontMerge(_, id, pos) => FrontMergedKeeps(s, t, e.now, id, pos);
    case Merge(_, id, next) => MergedRequestsKeeps(s, t, e.now, id, next);
    case Dispatch(_) => DispatchedKeeps(s, t, e.now);
  }

  /** In every run both indexes of a direction hold the same requests, ages are
      in order, at most one next request is set and it is in its tree, and
      nr_sorted is exact. */
  lemma {:induction false} EveryRunInStep(s: State, t: Tunables, now: int, run: seq<Event>)
    requires Inv(s, t, now) && LegalRun(s, t, now, run)
    ensures Inv(Run(s, t, now, run), t, Ends(now, run))
    decreases |run|
  {
    if run != [] {
      StepKeeps(s, t, now, run[0]);
      EveryRunInStep(Step(s, t, run[0]), t, run[0].now, run[1..]);
    }
  }

  // ---- Batches

  /** A batch goes on. */
  predicate GoesOn(s: State, t: Tunables) { (s.rd.next.At? || s.wr.next.At?) && s.batching < t.fifoBatch }

  /** If anything of the chosen direction has expired, a new batch starts with
      the request of that direction that expires first. */
  lemma {:induction false} NewBatchStartsEarliest(s: State, t: Tunables, now: int, x: nat)
    requires Inv(s, t, now) && !GoesOn(s, t) && Pick(s, t, now).Go?
    requires Pick(s, t, now).id in s.info
    requires var w := s.info[Pick(s, t, now).id].write;
             x in Of(s, w).fifo && x in s.info && now > s.info[x].time
    ensures var id := Pick(s, t, now).id;
            var fifo := Of(s, s.info[id].write).fifo;
            forall y :: y in fifo ==> y in s.info && s.info[id].time <= s.info[y].time
  {
    var id := Pick(s, t, now).id;
    var w := s.info[id].write;
    assert SideInv(s, t, now, false) && SideInv(s, t, now, true);
    if id in s.rd.fifo || id in s.rd.sort { SideMember(s, t, now, false, id); } else { SideMember(s, t, now, true, id); }
    var fifo := Of(s, w).fifo;
    Earliest(s, t, now, w);
    assert s.info[fifo[0]].time <= s.info[x].time;
  }

  lemma {:induction false} Earliest(s: State, t: Tunables, now: int, write: bool)
    requires SideInv(s, t, now, write) && Of(s, write).fifo != []
    ensures var fifo := Of(s, write).fifo;
            fifo[0] in s.info && forall y :: y in fifo ==> y in s.info && s.info[fifo[0]].time <= s.info[y].time
  {
    var fifo := Of(s, write).fifo;
    forall y | y in fifo ensures y in s.info && s.info[fifo[0]].time <= s.info[y].time {
      var i :| 0 <= i < |fifo| && fifo[i] == y;
    }
  }

  /** Whenever anything waits, something is dispatched. */
  lemma {:induction false} NeverIdle(s: State, t: Tunables, now: int)
    requires Inv(s, t, now)
    ensures Pick(s, t, now).Nothing? <==> s.nrSorted == 0
    ensures s.nrSorted != 0 ==> Dispatched(s, t, now).nrSorted == s.nrSorted - 1
  {
    assert SideInv(s, t, now, false) && SideInv(s, t, now, true);
    if Pick(s, t, now).Go? { PickWaits(s, t, now); }
  }

  // ---- Starvation

  function Batch(t: Tunables): nat { if t.fifoBatch == 0 then 1 else t.fifoBatch }

  /** How many more reads may be dispatched while writes wait. */
  function Patience(s: State, t: Tunables): nat {
    var batches := if s.starved < t.writesStarved then t.writesStarved - s.starved else 0;
    var left := if s.batching < t.fifoBatch then t.fifoBatch - s.batching else 0;
    batches * Batch(t) + left
  }

  lemma {:induction false} PatienceBound(s: State, t: Tunables)
    ensures Patience(s, t) <= (t.writesStarved + 1) * Batch(t)
  {
    var batches: nat := if s.starved < t.writesStarved then t.writesStarved - s.starved else 0;
    MoreBatches(batches, t.writesStarved, Batch(t));
  }

  lemma {:induction false} MoreBatches(a: nat, b: nat, n: nat)
    requires a <= b
    ensures a * n <= b * n && (b + 1) * n == b * n + n
  {
  }

  /** A dispatch picks a read although a write waits. */
  ghost predicate PassesOver(s: State, t: Tunables, now: int) {
    var c := Pick(s, t, now);
    s.wr.fifo != [] && c.Go? && c.id in s.info && !s.info[c.id].write
  }

  lemma {:induction false} PassingLowers(s: State, t: Tunables, now: int)
    requires Inv(s, t, now) && PassesOver(s, t, now)
    ensures Patience(Dispatched(s, t, now), t) < Patience(s, t)
  {
    var c := Pick(s, t, now);
    var s' := Dispatched(s, t, now);
    assert s'.batching == c.batching && s'.starved == c.starved;
    if !GoesOn(s, t) {
      assert s.starved < t.writesStarved by { PassesByTurn(s, t, now); }
      var k: nat := t.writesStarved - s.starved;
      MoreBatches(0, k - 1, Batch(t));
    }
  }

  /** A new batch of reads while writes wait uses up one turn. */
  lemma {:induction false} PassesByTurn(s: State, t: Tunables, now: int)
    requires Inv(s, t, now) && PassesOver(s, t, now) && !GoesOn(s, t)
    ensures s.starved < t.writesStarved && Pick(s, t, now).starved == s.starved + 1 && Pick(s, t, now).batching == 1
  {
    var id := Pick(s, t, now).id;
    assert SideInv(s, t, now, true);
    if !(s.rd.fifo != [] && s.starved < t.writesStarved) {
      assert id == Head(s, true, now);
      SideMember(s, t, now, true, id);
      assert false;
    }
  }

  lemma {:induction false} OthersKeepPatience(s: State, t: Tunables, e: Event)
    requires Possible(s, e) && !e.Dispatch?
    ensures Patience(Step(s, t, e), t) == Patience(s, t)
  {
    match e
    case Add(now, id, rq) => AddRbCounters(Accepted(s, t, id, rq, now), id);
    case FrontMerge(_, id, pos) => FrontCounters(s, id, pos);
    case Merge(_, id, next) =>
  }

  lemma {:induction false} AddRbCounters(s: State, id: nat)
    requires Indexed(s) && id in s.info
    ensures AddRb(s, id).batching == s.batching && AddRb(s, id).starved == s.starved
  {
  }

  lemma {:induction false} FrontCounters(s: State, id: nat, pos: nat)
    requires Indexed(s) && id in s.info
    ensures FrontMerged(s, id, pos).batching == s.batching && FrontMerged(s, id, pos).starved == s.starved
  {
    MinusMembers(Of(s, s.info[id].write).sort, id);
    MinusKnown(s.info, Of(s, s.info[id].write).sort, id, s.info[id].write);
  }

  /** Every dispatch of the run passes over a waiting write. */
  ghost predicate OnlyReads(s: State, t: Tunables, now: int, run: seq<Event>)
    requires LegalRun(s, t, now, run)
    decreases |run|
  {
    run == [] || ((run[0].Dispatch? ==> PassesOver(s, t, run[0].now))
                  && OnlyReads(Step(s, t, run[0]), t, run[0].now, run[1..]))
  }

  function Dispatches(run: seq<Event>): nat {
    if run == [] then 0 else (if run[0].Dispatch? then 1 else 0) + Dispatches(run[1..])
  }

  /** While writes wait, no more than (writes_starved + 1) * max(1, fifo_batch)
      dispatches in a row pick reads, whatever is inserted and merged meanwhile. */
  lemma {:induction false} WritesServedInTime(s: State, t: Tunables, now: int, run: seq<Event>)
    requires Inv(s, t, now) && LegalRun(s, t, now, run) && OnlyReads(s, t, now, run)
    ensures Dispatches(run) <= Patience(s, t) <= (t.writesStarved + 1) * Batch(t)
    decreases |run|
  {
    PatienceBound(s, t);
    if run != [] {
      var e := run[0];
      StepKeeps(s, t, now, e);
      WritesServedInTime(Step(s, t, e), t, e.now, run[1..]);
      if e.Dispatch? {
        ClockRuns(s, t, now, e.now);
        PassingLowers(s, t, e.now);
      } else {
        OthersKeepPatience(s, t, e);
      }
    }
  }
}
