/**
 What SEM_UNDO conserves.  The value of a semaphore plus everything all
 processes still owe it changes only through operations without SEM_UNDO,
 through SETVAL and SETALL, and through the clamping at process exit - exactly
 as long as no 16-bit undo entry wraps around.
 */
module SemUndo {
  import opened SemSpec
  import opened SemSettle
  import opened SemConfluence
  import opened SemRuns

  /** Sum of the operations on semaphore n with (or without) SEM_UNDO. */
  function OpSum(sops: seq<Sop>, n: nat, undo: bool): int {
    if sops == [] then 0
    else (if sops[0].num == n && sops[0].undo == undo then sops[0].op else 0) + OpSum(sops[1..], n, undo)
  }

  lemma {:induction false} OpSumLast(sops: seq<Sop>, n: nat, undo: bool)
    requires sops != []
    ensures var o := sops[|sops| - 1];
            OpSum(sops, n, undo)
            == OpSum(sops[..|sops| - 1], n, undo) + if o.num == n && o.undo == undo then o.op else 0
  {
    if |sops| > 1 {
      OpSumLast(sops[1..], n, undo);
      assert sops[1..][..|sops| - 2] == sops[..|sops| - 1][1..];
    }
  }

  lemma {:induction false} AttemptAdds(vals: seq<int>, row: seq<int>, sops: seq<Sop>, n: nat)
    requires |row| == |vals| && InRange(sops, |vals|) && n < |vals| && Attempt(vals, row, sops).Ok?
    ensures Attempt(vals, row, sops).vals[n] == vals[n] + OpSum(sops, n, true) + OpSum(sops, n, false)
    decreases |sops|
  {
    if sops != [] {
      var o := sops[0];
      AttemptAdds(vals[o.num := vals[o.num] + o.op], row, sops[1..], n);
    }
  }

  lemma {:induction false} ShortAbsorbs(x: int, y: int)
    ensures Short(Short(x) - y) == Short(x - y)
  {
  }

  lemma {:induction false} CommitSubtracts(row: seq<int>, sops: seq<Sop>, n: nat)
    requires InRange(sops, |row|) && n < |row| && InShort(row[n])
    ensures CommitRow(row, sops)[n] == Short(row[n] - OpSum(sops, n, true))
    decreases |sops|
  {
    if sops != [] {
      var o := sops[|sops| - 1];
      var rest := sops[..|sops| - 1];
      OpSumLast(sops, n, true);
      var row' := if o.undo then row[o.num := Short(row[o.num] - o.op)] else row;
      CommitSubtracts(row', rest, n);
      if o.undo && o.num == n { ShortAbsorbs(row[n] - o.op, OpSum(rest, n, true)); }
    }
  }

  // ---- What all processes owe one semaphore

  function Entry(row: seq<int>, n: nat): int {
    if n < |row| then row[n] else 0
  }

  ghost function Owed(adj: map<nat, seq<int>>, n: nat): int
    decreases |adj|
  {
    if adj == map[] then 0
    else var u :| u in adj; Entry(adj[u], n) + Owed(adj - {u}, n)
  }

  lemma {:induction false} OwedPick(adj: map<nat, seq<int>>, u: nat, n: nat)
    requires u in adj
    ensures Owed(adj, n) == Entry(adj[u], n) + Owed(adj - {u}, n)
    decreases |adj|
  {
    var v :| v in adj && Owed(adj, n) == Entry(adj[v], n) + Owed(adj - {v}, n);
    if u != v {
      OwedPick(adj - {v}, u, n);
      OwedPick(adj - {u}, v, n);
      assert adj - {v} - {u} == adj - {u} - {v};
    }
  }

  lemma {:induction false} OwedUpdate(adj: map<nat, seq<int>>, u: nat, row: seq<int>, n: nat)
    requires u in adj
    ensures Owed(adj[u := row], n) == Owed(adj, n) - Entry(adj[u], n) + Entry(row, n)
  {
    OwedPick(adj, u, n);
    OwedPick(adj[u := row], u, n);
    assert adj[u := row] - {u} == adj - {u};
  }

  lemma {:induction false} OwedNothing(adj: map<nat, seq<int>>, n: nat)
    requires forall u :: u in adj ==> Entry(adj[u], n) == 0
    ensures Owed(adj, n) == 0
    decreases |adj|
  {
    if adj != map[] {
      var u :| u in adj;
      OwedPick(adj, u, n);
      OwedNothing(adj - {u}, n);
    }
  }

  lemma {:induction false} OwedAlike(a: map<nat, seq<int>>, b: map<nat, seq<int>>, n: nat)
    requires a.Keys == b.Keys && forall u :: u in a ==> Entry(a[u], n) == Entry(b[u], n)
    ensures Owed(a, n) == Owed(b, n)
    decreases |a|
  {
    if a != map[] {
      var u :| u in a;
      OwedPick(a, u, n);
      OwedPick(b, u, n);
      assert (a - {u}).Keys == (b - {u}).Keys;
      OwedAlike(a - {u}, b - {u}, n);
    } else {
      assert b == map[];
    }
  }

  ghost function Balance(s: State, n: nat): int
    requires n < |s.vals|
  {
    s.vals[n] + Owed(s.adj, n)
  }

  // ---- One call

  predicate Registered(s: State, w: Waiter) {
    UsesUndo(w.sops) ==> w.un.Some? && w.un.value in s.adj
  }

  lemma {:induction false} NoUndoSum(sops: seq<Sop>, n: nat)
    requires !UsesUndo(sops)
    ensures OpSum(sops, n, true) == 0
  {
    if sops != [] { NoUndoSum(sops[1..], n); }
  }

  /** A granted call moves the balance by its plain operations, if and only if
      its undo operations together keep the undo entry within 16 bits. */
  lemma {:induction false} GrantConserves(s: State, w: Waiter, n: nat)
    requires Inv(s) && InRange(w.sops, |s.vals|) && Registered(s, w) && n < |s.vals| && Try(s, w).Ok?
    ensures Balance(Done(s, w), n) == Balance(s, n) + OpSum(w.sops, n, false)
       <==> InShort(Row(s.adj, w.un, |s.vals|)[n] - OpSum(w.sops, n, true))
  {
    var row := Row(s.adj, w.un, |s.vals|);
    AttemptAdds(s.vals, row, w.sops, n);
    if w.un.Some? && w.un.value in s.adj {
      CommitSubtracts(row, w.sops, n);
      OwedUpdate(s.adj, w.un.value, CommitRow(row, w.sops), n);
    } else {
      NoUndoSum(w.sops, n);
    }
  }

  /** No two SEM_UNDO operations of the call name the same semaphore. */
  predicate UndoDistinct(sops: seq<Sop>) {
    forall i, j :: 0 <= i < j < |sops| && sops[i].undo && sops[j].undo ==> sops[i].num != sops[j].num
  }

  lemma {:induction false} NoneOn(sops: seq<Sop>, n: nat)
    requires forall i :: 0 <= i < |sops| && sops[i].undo ==> sops[i].num != n
    ensures OpSum(sops, n, true) == 0
  {
    if sops != [] { NoneOn(sops[1..], n); }
  }

  /** For such calls the per-operation range check is enough. */
  lemma {:induction false} DistinctFits(vals: seq<int>, row: seq<int>, sops: seq<Sop>, n: nat)
    requires |row| == |vals| && InRange(sops, |vals|) && n < |vals| && Attempt(vals, row, sops).Ok?
    requires InShort(row[n]) && UndoDistinct(sops)
    ensures InShort(row[n] - OpSum(sops, n, true))
    decreases |sops|
  {
    if sops != [] {
      var o := sops[0];
      if o.num == n && o.undo {
        NoneOn(sops[1..], n);
      } else {
        DistinctFits(vals[o.num := vals[o.num] + o.op], row, sops[1..], n);
      }
    }
  }

  lemma {:induction false} DistinctConserves(s: State, w: Waiter, n: nat)
    requires Inv(s) && InRange(w.sops, |s.vals|) && Registered(s, w) && n < |s.vals| && Try(s, w).Ok?
    requires UndoDistinct(w.sops)
    ensures Balance(Done(s, w), n) == Balance(s, n) + OpSum(w.sops, n, false)
  {
    var row := Row(s.adj, w.un, |s.vals|);
    assert InShort(row[n]);
    DistinctFits(s.vals, row, w.sops, n);
    GrantConserves(s, w, n);
  }

  lemma {:induction false} TwoOps(vals: seq<int>, row: seq<int>, o: Sop)
    requires |vals| == |row| == 1 && o.num == 0 && o.op < 0 && o.undo
    requires 0 <= vals[0] + 2 * o.op && vals[0] <= SEMVMX && InShort(row[0] - o.op)
    ensures Attempt(vals, row, [o, o]) == Ok([vals[0] + 2 * o.op])
    ensures OpSum([o, o], 0, true) == 2 * o.op && OpSum([o, o], 0, false) == 0
  {
    assert [o, o][1..] == [o] && [o][1..] == [];
    assert Attempt(vals[0 := vals[0] + o.op], row, [o]) == Ok([vals[0] + 2 * o.op]);
    assert OpSum([o], 0, true) == o.op && OpSum([o], 0, false) == 0;
  }

  /** Two decrements of one semaphore in one call, each within range, wrap the
      entry: the process is left owing the opposite of what it took. */
  lemma {:induction false} RepeatedUndoWraps(s: State, o: Sop, w: Waiter)
    requires s.vals == [32767] && s.pids == [0] && s.adj == map[7 := [20000]] && s.pend == []
    requires o == Sop(0, -12000, false, true) && w.sops == [o, o] && w.un == Some(7)
    ensures Inv(s) && Try(s, w) == Ok([8767])
    ensures Done(s, w).adj[7] == [-21536]
    ensures Balance(Done(s, w), 0) != Balance(s, 0)
  {
    assert Inv(s);
    assert Row(s.adj, w.un, 1) == [20000];
    TwoOps([32767], [20000], o);
    assert UsesUndo(w.sops) by { assert w.sops[0].undo; }
    CommitSubtracts([20000], w.sops, 0);
    GrantConserves(s, w, 0);
  }

  // ---- A wake-up pass

  function PlainGranted(log: seq<Wake>, n: nat): int {
    if log == [] then 0
    else (if log[0].error.None? then OpSum(log[0].who.sops, n, false) else 0) + PlainGranted(log[1..], n)
  }

  predicate AllUndoDistinct(p: seq<Waiter>) {
    forall i :: 0 <= i < |p| ==> UndoDistinct(p[i].sops)
  }

  lemma {:induction false} CompleteConserves(s: State, w: Waiter, n: nat)
    requires Inv(s) && AllUndoDistinct(s.pend) && w in s.pend && n < |s.vals|
    requires First(s, s.pend, None) == Some(w)
    ensures InRange(w.sops, |s.vals|)
    ensures Balance(Complete(s, w), n)
         == Balance(s, n) + if Verdict(s, w).error.None? then OpSum(w.sops, n, false) else 0
    ensures AllUndoDistinct(Complete(s, w).pend)
  {
    MemberOk(s, w);
    if Try(s, w).Ok? {
      var i :| 0 <= i < |s.pend| && s.pend[i] == w;
      assert UndoDistinct(s.pend[i].sops);
      DistinctConserves(s, w, n);
    }
    WithoutMembers(s.pend, w);
    var q := Without(s.pend, w);
    forall i | 0 <= i < |q|
      ensures UndoDistinct(q[i].sops)
    {
      assert q[i] in s.pend;
    }
  }

  lemma {:induction false} SettleConserves(s: State, n: nat)
    requires Inv(s) && AllUndoDistinct(s.pend) && n < |s.vals|
    ensures var r := Settle(s, None);
            && |r.state.vals| == |s.vals| && AllUndoDistinct(r.state.pend)
            && Balance(r.state, n) == Balance(s, n) + PlainGranted(r.log, n)
    decreases |s.pend|
  {
    var f := First(s, s.pend, None);
    if f.Some? {
      CompleteKeepsInv(s, f.value);
      CompleteConserves(s, f.value, n);
      var t := Complete(s, f.value);
      SettleConserves(t, n);
      assert ([Verdict(s, f.value)] + Settle(t, None).log)[1..] == Settle(t, None).log;
    }
  }

  // ---- Steps and runs

  /** What a step itself (not the sleepers it wakes) does to the balance. */
  ghost function Direct(s: State, e: Event, semopm: nat, n: nat): int
    requires Inv(s) && Legal(s, e) && n < |s.vals|
  {
    if Step(s, e, semopm).answer != Returned(None) then 0
    else match e
         case Semop(_, sops, _, _) => OpSum(sops, n, false)
         case SetVal(num, val, _) => if num == n then val - Balance(s, n) else 0
         case SetAll(vals) => vals[n] - Balance(s, n)
         case Interrupt(_, _) => 0
         case Exit(proc, _) =>
           if proc in s.adj then Clamp(s.vals[n] + s.adj[proc][n]) - (s.vals[n] + s.adj[proc][n]) else 0
  }

  lemma {:induction false} TouchedBalance(s: State, e: Event, semopm: nat, n: nat)
    requires Inv(s) && Legal(s, e) && n < |s.vals| && !e.Semop? && !e.Interrupt?
    requires Step(s, e, semopm).answer == Returned(None) && (e.Exit? ==> e.proc in s.adj)
    ensures Balance(Touched(s, e), n) == Balance(s, n) + Direct(s, e, semopm, n)
  {
    var t := Touched(s, e);
    match e {
      case SetVal(num, val, _) =>
        if num == n { OwedNothing(t.adj, n); } else { OwedAlike(s.adj, t.adj, n); }
      case SetAll(_) => OwedNothing(t.adj, n);
      case Exit(proc, _) => OwedPick(s.adj, proc, n);
    }
  }

  lemma {:induction false} WithRowBalance(s: State, e: Event, n: nat)
    requires Inv(s) && e.Semop? && n < |s.vals|
    ensures Balance(WithRow(s, e), n) == Balance(s, n)
  {
    if UsesUndo(e.sops) && e.proc !in s.adj {
      var t := WithRow(s, e);
      OwedPick(t.adj, e.proc, n);
      assert t.adj - {e.proc} == s.adj;
    }
  }

  lemma {:induction false} EnqueueDistinctUndo(p: seq<Waiter>, w: Waiter)
    requires AllUndoDistinct(p) && UndoDistinct(w.sops)
    ensures AllUndoDistinct(Enqueue(p, w))
  {
    var q := Enqueue(p, w);
    forall i | 0 <= i < |q|
      ensures UndoDistinct(q[i].sops)
    {
      assert q[i] == w || q[i] in p;
    }
  }

  lemma {:induction false} SemopConserves(s: State, e: Event, semopm: nat, n: nat)
    requires Inv(s) && e.Semop? && Legal(s, e) && n < |s.vals|
    requires AllUndoDistinct(s.pend) && UndoDistinct(e.sops)
    ensures var r := SemopStep(s, e, semopm);
            && |r.state.vals| == |s.vals| && AllUndoDistinct(r.state.pend)
            && Balance(r.state, n) == Balance(s, n) + Direct(s, e, semopm, n) + PlainGranted(r.log, n)
  {
    WithRowKeepsInv(s, e);
    WithRowBalance(s, e, n);
    if 0 < |e.sops| <= semopm && InRange(e.sops, |s.vals|) {
      var t := WithRow(s, e);
      var call := CallOf(e);
      match Try(t, call) {
        case Fail(_) =>
        case Block => EnqueueDistinctUndo(t.pend, call);
        case Ok(_) =>
          DoneKeepsInv(t, call);
          DistinctConserves(t, call, n);
          if Alters(e.sops) { SettleConserves(Done(t, call), n); }
      }
    }
  }

  lemma {:induction false} StepConserves(s: State, e: Event, semopm: nat, n: nat)
    requires Inv(s) && Legal(s, e) && n < |s.vals|
    requires AllUndoDistinct(s.pend) && (e.Semop? ==> UndoDistinct(e.sops))
    ensures var r := Step(s, e, semopm);
            && |r.state.vals| == |s.vals| && AllUndoDistinct(r.state.pend)
            && Balance(r.state, n) == Balance(s, n) + Direct(s, e, semopm, n) + PlainGranted(r.log, n)
  {
    if e.Semop? {
      SemopConserves(s, e, semopm, n);
    } else if e.Interrupt? {
      DropKeepsUndo(s.pend, e.id);
    } else if Step(s, e, semopm).answer == Returned(None) && !(e.Exit? && e.proc !in s.adj) {
      TouchedKeepsInv(s, e);
      TouchedBalance(s, e, semopm, n);
      SettleConserves(Touched(s, e), n);
    }
  }

  lemma {:induction false} DropKeepsUndo(p: seq<Waiter>, id: nat)
    requires AllUndoDistinct(p)
    ensures AllUndoDistinct(DropId(p, id))
  {
    var w := DropIdIsWithout(p, id);
    var q := DropId(p, id);
    if q != p {
      WithoutMembers(p, w);
      forall i | 0 <= i < |q|
        ensures UndoDistinct(q[i].sops)
      {
        assert q[i] in p;
      }
    }
  }

  predicate UndoDistinctRun(es: seq<Event>) {
    forall i :: 0 <= i < |es| && es[i].Semop? ==> UndoDistinct(es[i].sops)
  }

  /** Everything a run does to the balance of semaphore n. */
  ghost function Ledger(s: State, es: seq<Event>, semopm: nat, n: nat): int
    requires Inv(s) && Quiet(s) && LegalRun(s, es, semopm) && n < |s.vals|
    decreases |es|
  {
    if es == [] then 0
    else Direct(s, es[0], semopm, n) + PlainGranted(Step(s, es[0], semopm).log, n)
         + Ledger(StateAfter(s, es[0], semopm), es[1..], semopm, n)
  }

  lemma {:induction false} RunConserves(s: State, es: seq<Event>, semopm: nat, n: nat)
    requires Inv(s) && Quiet(s) && LegalRun(s, es, semopm) && n < |s.vals|
    requires AllUndoDistinct(s.pend) && UndoDistinctRun(es)
    ensures Balance(Run(s, es, semopm), n) == Balance(s, n) + Ledger(s, es, semopm, n)
    decreases |es|
  {
    if es != [] {
      StepConserves(s, es[0], semopm, n);
      RunConserves(StateAfter(s, es[0], semopm), es[1..], semopm, n);
    }
  }
}
