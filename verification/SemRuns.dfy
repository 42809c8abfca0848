/**
 Whole runs of a live semaphore set: semop calls, SETVAL, SETALL, timeouts and
 signals of sleepers, and process exit, in any order.
 */
module SemRuns {
  import opened SemSpec
  import opened SemSettle
  import opened SemConfluence
  import opened SemFairness
  import SemScan

  datatype Event =
    | Semop(id: nat, sops: seq<Sop>, proc: nat, pid: int)
    | SetVal(num: int, val: int, pid: int)
    | SetAll(vals: seq<int>)
    | Interrupt(id: nat, expired: bool)
    | Exit(proc: nat, pid: int)

  datatype Answer = Returned(error: Option<Errno>) | Asleep

  datatype Result = Result(state: State, log: seq<Wake>, answer: Answer)

  /** What callers guarantee: a fresh sleeper record, a full SETALL array, and
      no process exiting while one of its calls sleeps. */
  predicate Legal(s: State, e: Event) {
    match e
    case Semop(id, _, _, _) => forall i :: 0 <= i < |s.pend| ==> s.pend[i].id != id
    case SetAll(vals) => |vals| == |s.vals| && forall i :: 0 <= i < |vals| ==> 0 <= vals[i]
    case Exit(proc, _) => forall i :: 0 <= i < |s.pend| ==> s.pend[i].un != Some(proc)
    case _ => true
  }

  function CallOf(e: Event): Waiter
    requires e.Semop?
  {
    Waiter(e.id, e.sops, if UsesUndo(e.sops) then Some(e.proc) else None, e.pid)
  }

  /** find_alloc_undo: the caller's undo row exists from here on. */
  function WithRow(s: State, e: Event): State
    requires e.Semop?
  {
    if UsesUndo(e.sops) && e.proc !in s.adj
    then s.(adj := s.adj[e.proc := seq(|s.vals|, _ => 0)])
    else s
  }

  /** Sleepers for zero queue at the head, all others at the tail. */
  function Enqueue(p: seq<Waiter>, w: Waiter): (r: seq<Waiter>)
    ensures |r| == |p| + 1
  {
    if Alters(w.sops) then p + [w] else [w] + p
  }

  function ClearAt(adj: map<nat, seq<int>>, n: nat): (r: map<nat, seq<int>>)
    ensures r.Keys == adj.Keys
  {
    map u | u in adj :: if n < |adj[u]| then adj[u][n := 0] else adj[u]
  }

  function ClearAll(adj: map<nat, seq<int>>): (r: map<nat, seq<int>>)
    ensures r.Keys == adj.Keys
  {
    map u | u in adj :: seq(|adj[u]|, _ => 0)
  }

  function Clamp(v: int): (r: int)
    ensures 0 <= r <= SEMVMX
    ensures 0 <= v <= SEMVMX ==> r == v
  {
    if v < 0 then 0 else if v > SEMVMX then SEMVMX else v
  }

  function AdjustedVals(vals: seq<int>, row: seq<int>): (r: seq<int>)
    requires |row| == |vals|
    ensures |r| == |vals|
  {
    seq(|vals|, i requires 0 <= i < |vals| => if row[i] != 0 then Clamp(vals[i] + row[i]) else vals[i])
  }

  function AdjustedPids(pids: seq<int>, row: seq<int>, pid: int): (r: seq<int>)
    requires |row| == |pids|
    ensures |r| == |pids|
  {
    seq(|pids|, i requires 0 <= i < |pids| => if row[i] != 0 then pid else pids[i])
  }

  /** exit_sem: the adjustments of one process, capped to the legal range. */
  function Adjust(s: State, row: seq<int>, pid: int): (r: State)
    requires ValsOk(s) && |row| == |s.vals|
    ensures |r.vals| == |s.vals| && |r.pids| == |s.pids|
  {
    s.(vals := AdjustedVals(s.vals, row), pids := AdjustedPids(s.pids, row, pid))
  }

  function SemopStep(s: State, e: Event, semopm: nat): (r: Result)
    requires Inv(s) && e.Semop? && Legal(s, e)
  {
    if e.sops == [] then Result(s, [], Returned(Some(EINVAL)))
    else if |e.sops| > semopm then Result(s, [], Returned(Some(E2BIG)))
    else
      var t := WithRow(s, e);
      var call := CallOf(e);
      WithRowKeepsInv(s, e);
      if !InRange(e.sops, |t.vals|) then Result(t, [], Returned(Some(EFBIG)))
      else match Try(t, call)
           case Fail(err) => Result(t, [], Returned(Some(err)))
           case Block => Result(t.(pend := Enqueue(t.pend, call)), [], Asleep)
           case Ok(_) =>
             DoneKeepsInv(t, call);
             var d := Done(t, call);
             if Alters(e.sops) then var r := Settle(d, None); Result(r.state, r.log, Returned(None))
             else Result(d, [], Returned(None))
  }

  function Touched(s: State, e: Event): (r: State)
    requires Inv(s) && Legal(s, e)
    requires (e.SetVal? && 0 <= e.num < |s.vals|) || e.SetAll? || (e.Exit? && e.proc in s.adj)
  {
    match e
    case SetVal(num, val, pid) =>
      State(s.vals[num := val], s.pids[num := pid], ClearAt(s.adj, num), s.pend)
    case SetAll(vals) => s.(vals := vals, adj := ClearAll(s.adj))
    case Exit(proc, pid) => Adjust(s.(adj := s.adj - {proc}), s.adj[proc], pid)
  }

  function Step(s: State, e: Event, semopm: nat): (r: Result)
    requires Inv(s) && Legal(s, e)
  {
    match e
    case Semop(_, _, _, _) => SemopStep(s, e, semopm)
    case SetVal(num, val, pid) =>
      if !(0 <= num < |s.vals|) then Result(s, [], Returned(Some(EINVAL)))
      else if val > SEMVMX || val < 0 then Result(s, [], Returned(Some(ERANGE)))
      else TouchedKeepsInv(s, e); var r := Settle(Touched(s, e), None); Result(r.state, r.log, Returned(None))
    case SetAll(vals) =>
      if exists i :: 0 <= i < |vals| && vals[i] > SEMVMX then Result(s, [], Returned(Some(ERANGE)))
      else TouchedKeepsInv(s, e); var r := Settle(Touched(s, e), None); Result(r.state, r.log, Returned(None))
    case Interrupt(id, expired) =>
      Result(s.(pend := DropId(s.pend, id)), [], Returned(Some(if expired then EAGAIN else EINTR)))
    case Exit(proc, pid) =>
      if proc !in s.adj then Result(s, [], Returned(None))
      else TouchedKeepsInv(s, e); var r := Settle(Touched(s, e), None); Result(r.state, r.log, Returned(None))
  }

  function DropId(p: seq<Waiter>, id: nat): seq<Waiter> {
    if p == [] then [] else if p[0].id == id then p[1..] else [p[0]] + DropId(p[1..], id)
  }

  lemma {:induction false} DropIdIsWithout(p: seq<Waiter>, id: nat) returns (w: Waiter)
    ensures (DropId(p, id) == p && forall i :: 0 <= i < |p| ==> p[i].id != id)
         || (w in p && w.id == id && DropId(p, id) == Without(p, w))
  {
    w := Waiter(id, [], None, 0);
    if p != [] {
      if p[0].id == id {
        w := p[0];
      } else {
        w := DropIdIsWithout(p[1..], id);
      }
    }
  }

  // ---- Every step keeps the invariant and leaves nobody asleep needlessly

  lemma {:induction false} WithRowKeepsInv(s: State, e: Event)
    requires Inv(s) && e.Semop?
    ensures Inv(WithRow(s, e)) && WithRow(s, e).vals == s.vals && WithRow(s, e).pend == s.pend
    ensures Quiet(s) ==> Quiet(WithRow(s, e))
  {
    var t := WithRow(s, e);
    forall i | 0 <= i < |t.pend|
      ensures WaiterOk(t, t.pend[i])
      ensures Blocks(t, t.pend[i]) == Blocks(s, s.pend[i])
    {
      assert WaiterOk(s, s.pend[i]);
      assert Row(t.adj, s.pend[i].un, |s.vals|) == Row(s.adj, s.pend[i].un, |s.vals|);
    }
  }

  lemma {:induction false} TouchedKeepsInv(s: State, e: Event)
    requires Inv(s) && Legal(s, e)
    requires (e.SetVal? && 0 <= e.num < |s.vals| && 0 <= e.val <= SEMVMX)
          || (e.SetAll? && forall i :: 0 <= i < |e.vals| ==> e.vals[i] <= SEMVMX)
          || (e.Exit? && e.proc in s.adj)
    ensures Inv(Touched(s, e))
  {
    var t := Touched(s, e);
    forall i | 0 <= i < |t.pend|
      ensures WaiterOk(t, t.pend[i])
    {
      assert WaiterOk(s, s.pend[i]);
    }
    assert RowsOk(t);
    assert ValsOk(t);
  }

  lemma {:induction false} EnqueueKeepsInv(s: State, w: Waiter)
    requires Inv(s) && WaiterOk(s, w)
    requires forall i :: 0 <= i < |s.pend| ==> s.pend[i].id != w.id
    ensures Inv(s.(pend := Enqueue(s.pend, w)))
  {
    var p := Enqueue(s.pend, w);
    var t := s.(pend := p);
    forall i | 0 <= i < |p|
      ensures WaiterOk(t, p[i])
    {
      assert p[i] == w || p[i] in s.pend;
      if p[i] != w { MemberOk(s, p[i]); }
    }
    assert Distinct(p);
    assert ZerosFirst(p);
  }

  /** A call that has to sleep with one operation is a wait for zero or a
      decrement, and did not ask to fail instead. */
  lemma {:induction false} SleeperShape(s: State, w: Waiter)
    requires Inv(s) && w.sops != [] && Blocks(s, w)
    requires UsesUndo(w.sops) ==> w.un.Some? && w.un.value in s.adj
    ensures WaiterOk(s, w)
  {
    if Simple(w) { TryOne(s, w); }
  }

  lemma {:induction false} EnqueueQuiet(s: State, w: Waiter)
    requires Quiet(s) && Blocks(s, w)
    ensures Quiet(s.(pend := Enqueue(s.pend, w)))
  {
    var t := s.(pend := Enqueue(s.pend, w));
    forall i | 0 <= i < |t.pend|
      ensures Blocks(t, t.pend[i])
    {
      assert t.pend[i] == w || t.pend[i] in s.pend;
      assert Blocks(s, t.pend[i]);
    }
  }

  lemma {:induction false} SemopKeeps(s: State, e: Event, semopm: nat)
    requires Inv(s) && Quiet(s) && e.Semop? && Legal(s, e)
    ensures var r := SemopStep(s, e, semopm);
            Inv(r.state) && Quiet(r.state) && |r.state.vals| == |s.vals|
  {
    if 0 < |e.sops| <= semopm && InRange(e.sops, |s.vals|) {
      var t := WithRow(s, e);
      var call := CallOf(e);
      WithRowKeepsInv(s, e);
      match Try(t, call) {
        case Fail(_) =>
        case Block =>
          SleeperShape(t, call);
          EnqueueKeepsInv(t, call);
          EnqueueQuiet(t, call);
        case Ok(_) => SuccessKeeps(t, call);
      }
    } else {
      WithRowKeepsInv(s, e);
    }
  }

  lemma {:induction false} SuccessKeeps(t: State, call: Waiter)
    requires Inv(t) && Quiet(t) && InRange(call.sops, |t.vals|) && Try(t, call).Ok?
    ensures Inv(Done(t, call))
    ensures Alters(call.sops) ==>
              var r := Settle(Done(t, call), None).state;
              Inv(r) && Quiet(r) && |r.vals| == |t.vals|
    ensures !Alters(call.sops) ==> Quiet(Done(t, call))
  {
    DoneKeepsInv(t, call);
    var d := Done(t, call);
    if Alters(call.sops) {
      SettleKeepsInv(d, None);
      SettleQuiets(d, None);
    } else {
      SemScan.ReadOnlyQuiet(t, call);
    }
  }

  lemma {:induction false} StepKeeps(s: State, e: Event, semopm: nat)
    requires Inv(s) && Quiet(s) && Legal(s, e)
    ensures var r := Step(s, e, semopm);
            Inv(r.state) && Quiet(r.state) && |r.state.vals| == |s.vals|
  {
    if e.Semop? {
      SemopKeeps(s, e, semopm);
    } else if e.Interrupt? {
      InterruptKeeps(s, e.id);
    } else if Step(s, e, semopm).state != s {
      TouchedKeepsInv(s, e);
      SettleKeepsInv(Touched(s, e), None);
      SettleQuiets(Touched(s, e), None);
    }
  }

  lemma {:induction false} InterruptKeeps(s: State, id: nat)
    requires Inv(s) && Quiet(s)
    ensures var t := s.(pend := DropId(s.pend, id)); Inv(t) && Quiet(t)
  {
    var w := DropIdIsWithout(s.pend, id);
    var t := s.(pend := DropId(s.pend, id));
    if t != s {
      WithoutKeepsDistinct(s.pend, w);
      WithoutKeepsZeros(s.pend, w);
      WithoutMembers(s.pend, w);
      forall i | 0 <= i < |t.pend|
        ensures WaiterOk(t, t.pend[i]) && Blocks(t, t.pend[i])
      {
        assert t.pend[i] in s.pend;
        MemberOk(s, t.pend[i]);
        assert Blocks(s, t.pend[i]);
      }
    }
  }

  // ---- Runs

  function Fresh(nsems: nat): (s: State)
    ensures Inv(s) && Quiet(s)
  {
    State(seq(nsems, _ => 0), seq(nsems, _ => 0), map[], [])
  }

  function StateAfter(s: State, e: Event, semopm: nat): (t: State)
    requires Inv(s) && Quiet(s) && Legal(s, e)
    ensures Inv(t) && Quiet(t) && |t.vals| == |s.vals|
  {
    StepKeeps(s, e, semopm);
    Step(s, e, semopm).state
  }

  predicate LegalRun(s: State, es: seq<Event>, semopm: nat)
    requires Inv(s) && Quiet(s)
    decreases |es|
  {
    es != [] ==> Legal(s, es[0]) && LegalRun(StateAfter(s, es[0], semopm), es[1..], semopm)
  }

  function Run(s: State, es: seq<Event>, semopm: nat): (t: State)
    requires Inv(s) && Quiet(s) && LegalRun(s, es, semopm)
    ensures Inv(t) && Quiet(t) && |t.vals| == |s.vals|
    decreases |es|
  {
    if es == [] then s else Run(StateAfter(s, es[0], semopm), es[1..], semopm)
  }

  /** In every reachable state values are legal and no sleeper could proceed. */
  lemma {:induction false} EveryRunIsQuiet(nsems: nat, es: seq<Event>, semopm: nat)
    requires LegalRun(Fresh(nsems), es, semopm)
    ensures var t := Run(Fresh(nsems), es, semopm);
            && (forall i :: 0 <= i < nsems ==> 0 <= t.vals[i] <= SEMVMX)
            && (forall i :: 0 <= i < |t.pend| ==> Try(t, t.pend[i]).Block?)
  {
    var t := Run(Fresh(nsems), es, semopm);
    forall i | 0 <= i < |t.pend|
      ensures Try(t, t.pend[i]).Block?
    {
      assert Blocks(t, t.pend[i]);
    }
  }

  // ---- Fairness over runs

  ghost predicate FairLog(log: seq<Wake>, a: Waiter, b: Waiter) {
    forall k :: 0 <= k < |log| && log[k] == Wake(b, None) ==> WokenBefore(log, a, k)
  }

  /** In this step, with this log, b is not granted unless a is woken first. */
  ghost predicate Fair(s: State, e: Event, semopm: nat, log: seq<Wake>, a: Waiter, b: Waiter)
    requires Inv(s) && Legal(s, e)
  {
    && !(e.Semop? && CallOf(e) == b && Step(s, e, semopm).answer == Returned(None))
    && FairLog(log, a, b)
  }

  lemma {:induction false} FairLogStep(x: Wake, l: seq<Wake>, a: Waiter, b: Waiter)
    ensures FairLog([x] + l, a, b) <==> x != Wake(b, None) && (x.who == a || FairLog(l, a, b))
  {
    var log := [x] + l;
    if x != Wake(b, None) && x.who == a {
      assert log[0].who == a;
    } else if x != Wake(b, None) && FairLog(l, a, b) {
      forall k | 0 <= k < |log| && log[k] == Wake(b, None) ensures WokenBefore(log, a, k) {
        assert l[k - 1] == log[k];
        WokenLater(x, l, a, k - 1);
      }
    }
    if FairLog(log, a, b) {
      assert log[0] == x;
      if x.who != a {
        forall k | 0 <= k < |l| && l[k] == Wake(b, None) ensures WokenBefore(l, a, k) {
          assert log[k + 1] == l[k];
          var i :| 0 <= i < k + 1 && i < |log| && log[i].who == a;
          assert l[i - 1].who == a;
        }
      }
    }
  }

  /** Whether b overtakes a can be seen on their semaphore alone. */
  lemma {:induction false} FairOn(log: seq<Wake>, n: nat, a: Waiter, b: Waiter)
    requires OnSem(a, n) && OnSem(b, n)
    ensures FairLog(log, a, b) <==> FairLog(OnLog(log, n), a, b)
  {
    if log != [] {
      var x, l := log[0], log[1..];
      assert log == [x] + l;
      FairLogStep(x, l, a, b);
      FairOn(l, n, a, b);
      FairLogStep(x, OnLog(l, n), a, b);
    }
  }

  /** So a log with the same order on every semaphore is as fair. */
  lemma {:induction false} FairTransfers(log: seq<Wake>, seen: seq<Wake>, a: Waiter, b: Waiter)
    requires SameOrder(seen, log) && NoGreedier(a, b) && FairLog(log, a, b)
    ensures FairLog(seen, a, b)
  {
    var n := a.sops[0].num;
    FairOn(log, n, a, b);
    FairOn(seen, n, a, b);
  }

  /** b is not pending, or pending behind a. */
  ghost predicate Behind(p: seq<Waiter>, a: Waiter, b: Waiter) {
    b in p ==> Before(p, a, b)
  }

  /** What was seen of a run: per step the wake-ups, in any order that keeps the
      order on each semaphore. */
  ghost predicate Seen(s: State, es: seq<Event>, semopm: nat, logs: seq<seq<Wake>>)
    requires Inv(s) && Quiet(s) && LegalRun(s, es, semopm)
    decreases |es|
  {
    && |logs| == |es|
    && (es != [] ==> && SameOrder(logs[0], Step(s, es[0], semopm).log)
                     && Seen(StateAfter(s, es[0], semopm), es[1..], semopm, logs[1..]))
  }

  /** For as long as a stays pending, every step is fair to it. */
  ghost predicate FairRun(s: State, es: seq<Event>, semopm: nat, logs: seq<seq<Wake>>, a: Waiter, b: Waiter)
    requires Inv(s) && Quiet(s) && LegalRun(s, es, semopm) && |logs| == |es|
    decreases |es|
  {
    es != [] && a in s.pend ==>
      && Fair(s, es[0], semopm, logs[0], a, b)
      && FairRun(StateAfter(s, es[0], semopm), es[1..], semopm, logs[1..], a, b)
  }

  lemma {:induction false} WithoutKeepsBehind(p: seq<Waiter>, w: Waiter, a: Waiter, b: Waiter)
    requires Distinct(p) && w in p && a in Without(p, w) && Behind(p, a, b)
    ensures Behind(Without(p, w), a, b)
  {
    WithoutKeepsDistinct(p, w);
    WithoutMembers(p, w);
    if b in Without(p, w) { BeforeSurvives(p, w, a, b); }
  }

  lemma {:induction false} SettleKeepsBehind(s: State, a: Waiter, b: Waiter)
    requires Inv(s) && Behind(s.pend, a, b)
    ensures a in Settle(s, None).state.pend ==> a in s.pend && Behind(Settle(s, None).state.pend, a, b)
    decreases |s.pend|
  {
    var f := First(s, s.pend, None);
    if f.Some? {
      CompleteKeepsInv(s, f.value);
      WithoutMembers(s.pend, f.value);
      var t := Complete(s, f.value);
      if a in t.pend {
        WithoutKeepsBehind(s.pend, f.value, a, b);
        SettleKeepsBehind(t, a, b);
      } else {
        SettleKeepsAbsent(t, a);
      }
    }
  }

  lemma {:induction false} SettleKeepsAbsent(s: State, a: Waiter)
    requires Inv(s) && a !in s.pend
    ensures a !in Settle(s, None).state.pend
    decreases |s.pend|
  {
    var f := First(s, s.pend, None);
    if f.Some? {
      CompleteKeepsInv(s, f.value);
      WithoutMembers(s.pend, f.value);
      SettleKeepsAbsent(Complete(s, f.value), a);
    }
  }

  lemma {:induction false} SettleFair(s: State, a: Waiter, b: Waiter)
    requires Inv(s) && a in s.pend && Behind(s.pend, a, b) && NoGreedier(a, b)
    ensures FairLog(Settle(s, None).log, a, b)
  {
    var log := Settle(s, None).log;
    LogMembers(s, None);
    forall k | 0 <= k < |log| && log[k] == Wake(b, None)
      ensures WokenBefore(log, a, k)
    {
      assert log[k].who in s.pend;
      NoOvertaking(s, None, a, b, k);
    }
  }

  lemma {:induction false} EnqueueKeepsBehind(p: seq<Waiter>, w: Waiter, a: Waiter, b: Waiter)
    requires a in p && Behind(p, a, b) && Alters(b.sops)
    ensures a in Enqueue(p, w) && Behind(Enqueue(p, w), a, b)
  {
    var q := Enqueue(p, w);
    var k :| 0 <= k < |p| && p[k] == a;
    if Alters(w.sops) {
      assert q[k] == a;
      if b in p {
        var i, j :| At(p, a, b, i, j);
        assert At(q, a, b, i, j);
      } else if w == b {
        assert At(q, a, b, k, |p|);
      }
    } else {
      assert q[k + 1] == a;
      if b in q {
        assert b in p;
        var i, j :| At(p, a, b, i, j);
        assert At(q, a, b, i + 1, j + 1);
      }
    }
  }

  lemma {:induction false} SemopFair(s: State, e: Event, semopm: nat, a: Waiter, b: Waiter)
    requires Inv(s) && Quiet(s) && e.Semop? && Legal(s, e)
    requires a in s.pend && Behind(s.pend, a, b) && NoGreedier(a, b)
    ensures Fair(s, e, semopm, Step(s, e, semopm).log, a, b)
    ensures a in SemopStep(s, e, semopm).state.pend ==> Behind(SemopStep(s, e, semopm).state.pend, a, b)
  {
    WithRowKeepsInv(s, e);
    assert Alters(b.sops) by { assert b.sops[0].op != 0; }
    if 0 < |e.sops| <= semopm && InRange(e.sops, |s.vals|) {
      var t := WithRow(s, e);
      var call := CallOf(e);
      if call == b { NewcomerWaits(t, a, b); }
      match Try(t, call) {
        case Fail(_) =>
        case Block => EnqueueKeepsBehind(t.pend, call, a, b);
        case Ok(_) =>
          DoneKeepsInv(t, call);
          SettleFair(Done(t, call), a, b);
          SettleKeepsBehind(Done(t, call), a, b);
      }
    }
  }

  lemma {:induction false} StepFair(s: State, e: Event, semopm: nat, a: Waiter, b: Waiter)
    requires Inv(s) && Quiet(s) && Legal(s, e)
    requires a in s.pend && Behind(s.pend, a, b) && NoGreedier(a, b)
    ensures Fair(s, e, semopm, Step(s, e, semopm).log, a, b)
    ensures a in Step(s, e, semopm).state.pend ==> Behind(Step(s, e, semopm).state.pend, a, b)
  {
    if e.Semop? {
      SemopFair(s, e, semopm, a, b);
    } else if e.Interrupt? {
      var w := DropIdIsWithout(s.pend, e.id);
      if DropId(s.pend, e.id) != s.pend && a in DropId(s.pend, e.id) { WithoutKeepsBehind(s.pend, w, a, b); }
    } else if Step(s, e, semopm).state != s {
      TouchedKeepsInv(s, e);
      SettleFair(Touched(s, e), a, b);
      SettleKeepsBehind(Touched(s, e), a, b);
    }
  }

  /** Everybody asleep is treated fairly in this step. */
  ghost predicate FairToAll(s: State, e: Event, semopm: nat, log: seq<Wake>)
    requires Inv(s) && Legal(s, e)
  {
    forall a, b :: a in s.pend && Behind(s.pend, a, b) && NoGreedier(a, b) ==> Fair(s, e, semopm, log, a, b)
  }

  lemma {:induction false} SeenFair(s: State, e: Event, semopm: nat, log: seq<Wake>)
    requires Inv(s) && Quiet(s) && Legal(s, e) && SameOrder(log, Step(s, e, semopm).log)
    ensures FairToAll(s, e, semopm, log)
  {
    forall a, b | a in s.pend && Behind(s.pend, a, b) && NoGreedier(a, b) ensures Fair(s, e, semopm, log, a, b) {
      StepFair(s, e, semopm, a, b);
      FairTransfers(Step(s, e, semopm).log, log, a, b);
    }
  }

  /** Over any run, and for any order of wake-ups that keeps the order on each
      semaphore: while a decrement sleeps, no decrement of the same or a larger
      amount on its semaphore that came later is granted before it. */
  lemma {:induction false} NeverOvertaken(s: State, es: seq<Event>, semopm: nat, logs: seq<seq<Wake>>, a: Waiter, b: Waiter)
    requires Inv(s) && Quiet(s) && LegalRun(s, es, semopm) && Seen(s, es, semopm, logs)
    requires NoGreedier(a, b) && Behind(s.pend, a, b)
    ensures FairRun(s, es, semopm, logs, a, b)
    decreases |es|
  {
    if es != [] && a in s.pend {
      StepFair(s, es[0], semopm, a, b);
      FairTransfers(Step(s, es[0], semopm).log, logs[0], a, b);
      var t := StateAfter(s, es[0], semopm);
      if a in t.pend { NeverOvertaken(t, es[1..], semopm, logs[1..], a, b); }
    }
  }
}
