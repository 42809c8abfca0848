/**
 The semaphore set as ipc/sem.c keeps it: values and pids updated in place, a
 global list of sleepers, one list per semaphore for single-operation sleepers,
 and a count of the others.  Every method is proved against the reference
 semantics; BUG_ON conditions appear as assertions.
 */
module SemArray {
  import opened SemSpec
  import opened SemSettle
  import opened SemConfluence
  import opened SemScan
  import opened SemRuns

  /** The effect of the first k operations, without any check. */
  ghost function Applied(vals: seq<int>, sops: seq<Sop>): (r: seq<int>)
    requires InRange(sops, |vals|)
    ensures |r| == |vals|
    decreases |sops|
  {
    if sops == [] then vals
    else
      var o := sops[|sops| - 1];
      var v := Applied(vals, sops[..|sops| - 1]);
      v[o.num := v[o.num] + o.op]
  }

  datatype Tried = Zero | Positive | Negative(error: Errno)

  class Set {
    const semval: array<int>
    const sempid: array<int>
    var semadj: map<nat, seq<int>>
    var pending: seq<Waiter>
    var simple: seq<seq<Waiter>>
    var complexCount: int

    ghost function View(): State
      reads this, semval, sempid
    {
      State(semval[..], sempid[..], semadj, pending)
    }

    /** Both kinds of lists are exact projections of the global one. */
    ghost predicate Indexed()
      reads this
    {
      && (forall n :: 0 <= n < |simple| ==> simple[n] == ListOn(pending, n))
      && complexCount == Complexes(pending)
    }

    ghost predicate Valid()
      reads this, semval, sempid
    {
      && semval != sempid && semval.Length == sempid.Length == |simple|
      && Inv(View())
      && Indexed()
    }

    constructor (nsems: nat)
      ensures Valid() && View() == Fresh(nsems)
      ensures fresh(semval) && fresh(sempid)
    {
      semval := new int[nsems](_ => 0);
      sempid := new int[nsems](_ => 0);
      semadj := map[];
      pending := [];
      simple := seq(nsems, _ => []);
      complexCount := 0;
      new;
      assert semval[..] == seq(nsems, _ => 0);
      assert sempid[..] == seq(nsems, _ => 0);
    }

    /** All of the operations or none: a failed attempt leaves no trace. */
    method TryAtomicSemop(w: Waiter) returns (r: Tried)
      requires semval != sempid && ValsOk(View()) && RowsOk(View())
      requires InRange(w.sops, semval.Length) && (UsesUndo(w.sops) ==> w.un.Some? && w.un.value in semadj)
      modifies `semadj, semval, sempid
      ensures match Try(old(View()), w)
              case Ok(_) => r == Zero && View() == Done(old(View()), w)
              case Block => r == Positive && View() == old(View())
              case Fail(e) => r == Negative(e) && View() == old(View())
    {
      ghost var v0 := semval[..];
      ghost var row := Row(semadj, w.un, semval.Length);
      var i := 0;
      var bad: Option<Tried> := None;
      while i < |w.sops|
        invariant 0 <= i <= |w.sops|
        invariant sempid[..] == old(sempid[..]) && semadj == old(semadj)
        invariant semval[..] == Applied(v0, w.sops[..i])
        invariant bad.None?
        invariant Attempt(v0, row, w.sops) == Attempt(semval[..], row, w.sops[i..])
      {
        var sop := w.sops[i];
        var result := semval[sop.num];
        assert w.sops[i..][0] == sop && w.sops[i..][1..] == w.sops[i + 1..];
        if sop.op == 0 && result != 0 {
          bad := Some(if sop.nowait then Negative(EAGAIN) else Positive);
          break;
        }
        result := result + sop.op;
        if result < 0 {
          bad := Some(if sop.nowait then Negative(EAGAIN) else Positive);
          break;
        }
        if result > SEMVMX {
          bad := Some(Negative(ERANGE));
          break;
        }
        if sop.undo {
          assert UsesUndo(w.sops);
          var undo := semadj[w.un.value][sop.num] - sop.op;
          if undo < -SEMAEM - 1 || undo > SEMAEM {
            bad := Some(Negative(ERANGE));
            break;
          }
        }
        semval[sop.num] := result;
        i := i + 1;
        assert w.sops[..i][..i - 1] == w.sops[..i - 1];
      }
      if bad.None? {
        assert w.sops[i..] == [];
        Commit(w);
        r := Zero;
      } else {
        RollBack(w.sops, i, v0);
        r := bad.value;
      }
    }

    /** The undo path: subtract what was added, newest first. */
    method RollBack(sops: seq<Sop>, k: nat, ghost v0: seq<int>)
      requires semval != sempid && k <= |sops| && |v0| == semval.Length && InRange(sops, semval.Length)
      requires semval[..] == Applied(v0, sops[..k])
      modifies semval
      ensures semval[..] == v0
    {
      var i := k;
      while i > 0
        invariant 0 <= i <= k && semval[..] == Applied(v0, sops[..i])
      {
        i := i - 1;
        assert sops[..i + 1][..i] == sops[..i];
        ghost var before := Applied(v0, sops[..i]);
        semval[sops[i].num] := semval[sops[i].num] - sops[i].op;
        assert semval[..] == before;
      }
    }

    /** The success path: pids and undo entries, last operation first. */
    method Commit(w: Waiter)
      requires semval != sempid && |semval[..]| == |sempid[..]| && RowsOk(View())
      requires InRange(w.sops, semval.Length) && (UsesUndo(w.sops) ==> w.un.Some? && w.un.value in semadj)
      modifies `semadj, sempid
      ensures sempid[..] == CommitPids(old(sempid[..]), w.sops, w.pid)
      ensures semadj == if w.un.Some? && w.un.value in old(semadj)
                        then old(semadj)[w.un.value := CommitRow(Row(old(semadj), w.un, semval.Length), w.sops)]
                        else old(semadj)
    {
      ghost var p0 := sempid[..];
      ghost var row0 := Row(semadj, w.un, semval.Length);
      ghost var has := w.un.Some? && w.un.value in semadj;
      var i := |w.sops|;
      assert w.sops[..i] == w.sops;
      while i > 0
        invariant 0 <= i <= |w.sops|
        invariant CommitPids(p0, w.sops, w.pid) == CommitPids(sempid[..], w.sops[..i], w.pid)
        invariant !has ==> semadj == old(semadj)
        invariant has ==> w.un.value in semadj && |semadj[w.un.value]| == semval.Length
        invariant has ==> semadj == old(semadj)[w.un.value := semadj[w.un.value]]
        invariant has ==> CommitRow(row0, w.sops) == CommitRow(semadj[w.un.value], w.sops[..i])
      {
        i := i - 1;
        var sop := w.sops[i];
        assert w.sops[..i + 1][i] == sop && w.sops[..i + 1][..i] == w.sops[..i];
        ghost var p1 := sempid[..];
        sempid[sop.num] := w.pid;
        assert sempid[..] == p1[sop.num := w.pid];
        if sop.undo {
          assert UsesUndo(w.sops);
          var row := semadj[w.un.value];
          semadj := semadj[w.un.value := row[sop.num := Short(row[sop.num] - sop.op)]];
        }
      }
      assert w.sops[..i] == [];
    }

    /** Take a sleeper off the lists. */
    method UnlinkQueue(q: Waiter)
      requires q in pending && q.sops != [] && InRange(q.sops, |simple|) && Indexed()
      modifies `pending, `simple, `complexCount
      ensures pending == Without(old(pending), q)
      ensures |simple| == |old(simple)| && Indexed() && complexCount <= old(complexCount)
    {
      forall n | 0 <= n < |simple|
        ensures ListOn(Without(pending, q), n)
             == if OnSem(q, n) then Without(simple[n], q) else simple[n]
      {
        ListOnWithout(pending, q, n);
      }
      ComplexesWithout(pending, q);
      pending := Without(pending, q);
      if |q.sops| == 1 {
        var n := q.sops[0].num;
        simple := simple[n := Without(simple[n], q)];
      } else {
        complexCount := complexCount - 1;
      }
    }

    /** Is a new scan needed after q completed?  If not, whoever was blocked
        before (in state s) still is. */
    method CheckRestart(q: Waiter, ghost s: State) returns (restart: bool)
      requires Valid() && Inv(s) && q in s.pend && InRange(q.sops, |s.vals|) && Try(s, q).Ok?
      requires View() == Complete(s, q)
      ensures !restart ==> forall w :: w in pending && Blocks(s, w) ==> Blocks(View(), w)
    {
      MemberOk(s, q);
      if !Alters(q.sops) {
        ZerosAreReadOnly(s, q);
        return false;
      }
      if complexCount != 0 { return true; }
      if |q.sops| > 1 { return true; }
      var n := q.sops[0].num;
      if simple[n] == [] {
        NoZeros(pending, n);
        KeepsBlocked(s, q, pending);
        return false;
      }
      if semval[n] != 0 {
        assert q.sops[0].op < 0 by { AlteringOne(q); }
        KeepsBlocked(s, q, pending);
        return false;
      }
      var h := simple[n][0];
      ListOnMembers(pending, n, h);
      assert |h.sops| == 1;
      assert h.sops[0].num == q.sops[0].num;
      if h.sops[0].op == 0 { return true; }
      NoZeros(pending, n);
      KeepsBlocked(s, q, pending);
      return false;
    }

    function Queue(sem: int): seq<Waiter>
      requires -1 <= sem < |simple|
      reads this
    {
      if sem == -1 then pending else simple[sem]
    }

    /** One entry of the scan.  Returns whether the sleeper left the list, how,
        and whether the scan must start over. */
    method ScanOne(q: Waiter) returns (left: bool, wake: Wake, restart: bool)
      requires Valid() && q in pending
      modifies this, semval, sempid
      ensures Valid() && |simple| == old(|simple|) && 0 <= complexCount <= old(complexCount)
      ensures left <==> !Blocks(old(View()), q)
      ensures !left ==> View() == old(View()) && simple == old(simple) && complexCount == old(complexCount)
      ensures left ==> InRange(q.sops, |old(View()).vals|) && View() == Complete(old(View()), q)
      ensures left ==> wake == Verdict(old(View()), q)
      ensures left && !restart ==> forall w :: w in pending && Blocks(old(View()), w) ==> Blocks(View(), w)
    {
      ghost var s := View();
      MemberOk(s, q);
      CompleteKeepsInv(s, q);
      var error := TryAtomicSemop(q);
      wake, restart := Wake(q, None), false;
      if error == Positive {
        left := false;
        return;
      }
      left := true;
      UnlinkQueue(q);
      assert View() == Complete(s, q);
      if error.Negative? {
        wake := Wake(q, Some(error.error));
      } else {
        restart := CheckRestart(q, s);
      }
    }

    ghost predicate Cursor(sem: int, walk: int)
      reads this, semval, sempid
    {
      && -1 <= sem < |simple| && (sem != -1 ==> complexCount == 0)
      && 0 <= walk <= |Queue(sem)| && PrefixBlocks(View(), Queue(sem), walk)
    }

    /** One turn of the scan loop: either the cursor moves on, or a sleeper is
        completed and the cursor stays or goes back to the head. */
    method ScanTurn(sem: int, walk: nat) returns (next: nat, wake: Option<Wake>)
      requires Valid() && Cursor(sem, walk) && walk < |Queue(sem)|
      modifies this, semval, sempid
      ensures Valid() && |simple| == old(|simple|) && Cursor(sem, next)
      ensures wake.None? ==> next == walk + 1 && View() == old(View()) && |Queue(sem)| == old(|Queue(sem)|)
      ensures wake.Some? ==> var s, q := old(View()), wake.value.who;
                             && First(s, s.pend, if sem == -1 then None else Some(sem)) == Some(q)
                             && InRange(q.sops, |s.vals|)
                             && View() == Complete(s, q) && wake.value == Verdict(s, q)
    {
      ghost var s := View();
      ghost var l := Queue(sem);
      ghost var only := if sem == -1 then None else Some(sem);
      var q := Queue(sem)[walk];
      assert q in pending by { if sem != -1 { ListOnMembers(pending, sem, q); } }
      var left, w, restart := ScanOne(q);
      next, wake := walk, None;
      if !left {
        next := walk + 1;
      } else {
        ScanFinds(s, only, l, walk);
        wake := Some(w);
        if restart {
          next := 0;
        } else {
          ScanStays(s, View(), only, l, walk);
        }
      }
    }

    /** Look for sleepers that can complete, with the shortcuts of the code:
        the result is that of the pass without any. */
    method UpdateQueue(semnum: int) returns (completed: bool, wakes: seq<Wake>)
      requires Valid() && -1 <= semnum < semval.Length
      modifies this, semval, sempid
      ensures Valid()
      ensures var only := if semnum == -1 || old(complexCount) != 0 then None else Some(semnum);
              Settle(old(View()), only) == Settled(View(), wakes)
      ensures completed <==> AnyGranted(wakes)
    {
      var sem := if complexCount != 0 then -1 else semnum;
      ghost var s0 := View();
      ghost var only := if sem == -1 then None else Some(sem);
      var walk := 0;
      completed, wakes := false, [];
      while walk < |Queue(sem)|
        invariant Valid() && Cursor(sem, walk)
        invariant Continues(s0, only, View(), wakes)
        invariant completed <==> AnyGranted(wakes)
        decreases |pending|, |Queue(sem)| - walk
      {
        if sem != -1 && semval[sem] == 0 && Alters(Queue(sem)[walk].sops) {
          RestBlocks(View(), sem, walk);
          break;
        }
        ghost var s := View();
        var next, wake := ScanTurn(sem, walk);
        walk := next;
        if wake.Some? {
          PassOn(s0, only, s, wake.value.who, wakes);
          GrantedSnoc(wakes, wake.value);
          wakes := wakes + [wake.value];
          completed := completed || wake.value.error.None?;
        }
      }
      ScanEnds(View(), only, Queue(sem), wakes);
    }

    /** After a successful altering call (`call`, from the quiet state `pre`),
        or after an arbitrary change when there are no operations to go by:
        look only where somebody can have become ready.  Nothing differs from a
        full pass but the order of wake-ups across semaphores. */
    method DoSmartUpdate(sops: Option<seq<Sop>>, ghost pre: State, ghost call: Waiter) returns (wakes: seq<Wake>)
      requires Valid()
      requires sops.Some? ==> Inv(pre) && Quiet(pre) && InRange(call.sops, |pre.vals|) && Try(pre, call).Ok?
                              && View() == Done(pre, call) && call.sops == sops.value
      modifies this, semval, sempid
      ensures Valid()
      ensures View() == Settle(old(View()), None).state
      ensures SameOrder(wakes, Settle(old(View()), None).log)
      ensures sops.None? ==> wakes == Settle(old(View()), None).log
    {
      var completed, w := false, [];
      if complexCount != 0 || sops.None? {
        completed, wakes := UpdateQueue(-1);
        return;
      }
      ghost var s0 := View();
      VisitsFirst(pre, call);
      SameAlone(Settle(s0, None).log);
      wakes := [];
      for i := 0 to |sops.value|
        invariant Valid() && AllSimple(pending) && InRange(sops.value, semval.Length)
        invariant Visits(View(), sops.value, i)
        invariant Converges(s0, View(), wakes)
      {
        var sop := sops.value[i];
        ghost var s := View();
        if sop.op > 0 || (sop.op < 0 && semval[sop.num] == 0) {
          assert complexCount == 0;
          completed, w := UpdateQueue(sop.num);
          VisitSettles(s, sops.value, i);
          Converge(s0, s, sop.num, wakes);
          wakes := wakes + w;
        } else {
          VisitSkips(s, sops.value, i);
        }
      }
      VisitsDone(View(), sops.value);
      assert wakes + [] == wakes;
    }

    /** The body of semtimedop from the lookup of the undo array to the sleep.
        First come, first served holds of the wake-ups in the order made here. */
    method SemTimedOp(id: nat, sops: seq<Sop>, proc: nat, pid: int, semopm: nat)
      returns (answer: Answer, wakes: seq<Wake>)
      requires Valid() && Quiet(View()) && Legal(View(), Semop(id, sops, proc, pid))
      modifies this, semval, sempid
      ensures Valid() && Quiet(View())
      ensures var r := Step(old(View()), Semop(id, sops, proc, pid), semopm);
              View() == r.state && answer == r.answer && SameOrder(wakes, r.log)
      ensures FairToAll(old(View()), Semop(id, sops, proc, pid), semopm, wakes)
    {
      ghost var s := View();
      answer, wakes := TryOrSleep(id, sops, proc, pid, semopm);
      SeenFair(s, Semop(id, sops, proc, pid), semopm, wakes);
    }

    method TryOrSleep(id: nat, sops: seq<Sop>, proc: nat, pid: int, semopm: nat)
      returns (answer: Answer, wakes: seq<Wake>)
      requires Valid() && Quiet(View()) && Legal(View(), Semop(id, sops, proc, pid))
      modifies this, semval, sempid
      ensures Valid() && Quiet(View())
      ensures var r := Step(old(View()), Semop(id, sops, proc, pid), semopm);
              View() == r.state && answer == r.answer && SameOrder(wakes, r.log)
    {
      ghost var e := Semop(id, sops, proc, pid);
      StepKeeps(View(), e, semopm);
      wakes := [];
      if |sops| < 1 { return Returned(Some(EINVAL)), []; }
      if |sops| > semopm { return Returned(Some(E2BIG)), []; }
      var max, undos, alter := ScanOps(sops);
      WithRowKeepsInv(View(), e);
      if undos && proc !in semadj {
        semadj := semadj[proc := seq(semval.Length, _ => 0)];
      }
      ghost var t := View();
      assert t == WithRow(old(View()), e);
      if max >= semval.Length { return Returned(Some(EFBIG)), []; }
      var call := Waiter(id, sops, if undos then Some(proc) else None, pid);
      assert call == CallOf(e);
      var error := TryAtomicSemop(call);
      if error.Zero? { DoneKeepsInv(t, call); }
      if error != Positive {
        if alter && error == Zero {
          wakes := DoSmartUpdate(Some(sops), t, call);
        }
        return Returned(if error.Negative? then Some(error.error) else None), wakes;
      }
      SleeperShape(t, call);
      EnqueueKeepsInv(t, call);
      LinkQueue(call, alter);
      answer := Asleep;
    }

    method LinkQueue(q: Waiter, alter: bool)
      requires alter == Alters(q.sops) && q.sops != [] && InRange(q.sops, |simple|) && Indexed()
      modifies `pending, `simple, `complexCount
      ensures pending == Enqueue(old(pending), q) && |simple| == old(|simple|) && Indexed()
    {
      forall n | 0 <= n < |simple|
        ensures ListOn(Enqueue(pending, q), n) == if OnSem(q, n) then Enqueue(simple[n], q) else simple[n]
      {
        ListOnAppend(pending, q, n);
      }
      ListOnAppend(pending, q, 0);
      if alter { pending := pending + [q]; } else { pending := [q] + pending; }
      if |q.sops| == 1 {
        var n := q.sops[0].num;
        simple := simple[n := if alter then simple[n] + [q] else [q] + simple[n]];
      } else {
        complexCount := complexCount + 1;
      }
    }

    /** A timeout or signal reaches a sleeper that nobody has woken yet. */
    method Interrupted(q: Waiter, expired: bool) returns (answer: Answer)
      requires Valid() && Quiet(View()) && q in pending
      modifies this
      ensures Valid() && Quiet(View())
      ensures var r := Step(old(View()), Interrupt(q.id, expired), 0);
              View() == r.state && answer == r.answer
    {
      MemberOk(View(), q);
      InterruptKeeps(View(), q.id);
      DropIsWithout(pending, q);
      UnlinkQueue(q);
      answer := Returned(Some(if expired then EAGAIN else EINTR));
    }

    method SetValue(semnum: int, val: int, pid: int) returns (answer: Answer, wakes: seq<Wake>)
      requires Valid() && Quiet(View())
      modifies this, semval, sempid
      ensures Valid() && Quiet(View())
      ensures var r := Step(old(View()), SetVal(semnum, val, pid), 0);
              View() == r.state && answer == r.answer && wakes == r.log
    {
      ghost var e := SetVal(semnum, val, pid);
      StepKeeps(View(), e, 0);
      if semnum < 0 || semnum >= semval.Length { return Returned(Some(EINVAL)), []; }
      if val > SEMVMX || val < 0 { return Returned(Some(ERANGE)), []; }
      TouchedKeepsInv(View(), e);
      semadj := ClearAt(semadj, semnum);
      semval[semnum] := val;
      sempid[semnum] := pid;
      assert View() == Touched(old(View()), e);
      wakes := DoSmartUpdate(None, View(), Waiter(0, [], None, 0));
      answer := Returned(None);
    }

    method SetValues(vals: seq<int>) returns (answer: Answer, wakes: seq<Wake>)
      requires Valid() && Quiet(View()) && Legal(View(), SetAll(vals))
      modifies this, semval, sempid
      ensures Valid() && Quiet(View())
      ensures var r := Step(old(View()), SetAll(vals), 0);
              View() == r.state && answer == r.answer && wakes == r.log
    {
      ghost var e := SetAll(vals);
      StepKeeps(View(), e, 0);
      var ok := AllFit(vals);
      if !ok { return Returned(Some(ERANGE)), []; }
      TouchedKeepsInv(View(), e);
      Store(vals);
      semadj := ClearAll(semadj);
      assert View() == Touched(old(View()), e);
      wakes := DoSmartUpdate(None, View(), Waiter(0, [], None, 0));
      answer := Returned(None);
    }

    method Store(vals: seq<int>)
      requires |vals| == semval.Length
      modifies semval
      ensures semval[..] == vals
    {
      for i := 0 to semval.Length
        invariant semval[..i] == vals[..i]
      {
        semval[i] := vals[i];
      }
      assert semval[..] == vals;
    }

    /** exit_sem for one process and this set. */
    method ExitSem(proc: nat, pid: int) returns (wakes: seq<Wake>)
      requires Valid() && Quiet(View()) && Legal(View(), Exit(proc, pid))
      modifies this, semval, sempid
      ensures Valid() && Quiet(View())
      ensures var r := Step(old(View()), Exit(proc, pid), 0);
              View() == r.state && wakes == r.log
    {
      ghost var e := Exit(proc, pid);
      StepKeeps(View(), e, 0);
      if proc !in semadj { return []; }
      TouchedKeepsInv(View(), e);
      var row := semadj[proc];
      semadj := semadj - {proc};
      AdjustAll(row, pid);
      assert View() == Touched(old(View()), e);
      wakes := DoSmartUpdate(None, View(), Waiter(0, [], None, 0));
    }

    method AdjustAll(row: seq<int>, pid: int)
      requires semval != sempid && |row| == semval.Length == sempid.Length
      requires forall i :: 0 <= i < semval.Length ==> 0 <= semval[i] <= SEMVMX
      modifies semval, sempid
      ensures semval[..] == AdjustedVals(old(semval[..]), row)
      ensures sempid[..] == AdjustedPids(old(sempid[..]), row, pid)
    {
      for i := 0 to semval.Length
        invariant forall j :: 0 <= j < i ==>
                                && semval[j] == old(if row[j] != 0 then Clamp(semval[j] + row[j]) else semval[j])
                                && sempid[j] == old(if row[j] != 0 then pid else sempid[j])
        invariant forall j :: i <= j < semval.Length ==> semval[j] == old(semval[j]) && sempid[j] == old(sempid[j])
      {
        if row[i] != 0 {
          semval[i] := semval[i] + row[i];
          if semval[i] < 0 { semval[i] := 0; }
          if semval[i] > SEMVMX { semval[i] := SEMVMX; }
          sempid[i] := pid;
        }
      }
      assert semval[..] == AdjustedVals(old(semval[..]), row);
      assert sempid[..] == AdjustedPids(old(sempid[..]), row, pid);
    }
  }

  method AllFit(vals: seq<int>) returns (ok: bool)
    ensures ok <==> forall i :: 0 <= i < |vals| ==> vals[i] <= SEMVMX
  {
    for i := 0 to |vals|
      invariant forall j :: 0 <= j < i ==> vals[j] <= SEMVMX
    {
      if vals[i] > SEMVMX { return false; }
    }
    return true;
  }

  /** The loop over the operations before the set is locked. */
  method ScanOps(sops: seq<Sop>) returns (max: nat, undos: bool, alter: bool)
    ensures undos == UsesUndo(sops) && alter == Alters(sops)
    ensures forall n: nat :: max < n ==> InRange(sops, n)
    ensures sops != [] ==> exists i :: 0 <= i < |sops| && sops[i].num == max
  {
    max, undos, alter := 0, false, false;
    for i := 0 to |sops|
      invariant undos <==> exists j :: 0 <= j < i && sops[j].undo
      invariant alter <==> exists j :: 0 <= j < i && sops[j].op != 0
      invariant forall j :: 0 <= j < i ==> sops[j].num <= max
      invariant i > 0 ==> exists j :: 0 <= j < i && sops[j].num == max
      invariant i == 0 ==> max == 0
    {
      if sops[i].num >= max { max := sops[i].num; }
      if sops[i].undo { undos := true; }
      if sops[i].op != 0 { alter := true; }
    }
  }

  lemma {:induction false} DropIsWithout(p: seq<Waiter>, q: Waiter)
    requires Distinct(p) && q in p
    ensures DropId(p, q.id) == Without(p, q)
  {
    if p[0] != q { DropIsWithout(p[1..], q); }
  }

  /** Finishing from s leads where a full pass from s0 leads. */
  ghost predicate Converges(s0: State, s: State, wakes: seq<Wake>)
    requires Inv(s0) && Inv(s)
  {
    && Settle(s, None).state == Settle(s0, None).state
    && SameOrder(wakes + Settle(s, None).log, Settle(s0, None).log)
  }

  lemma {:induction false} Converge(s0: State, s: State, n: nat, wakes: seq<Wake>)
    requires Inv(s0) && Inv(s) && AllSimple(s.pend) && Converges(s0, s, wakes)
    ensures var r := Settle(s, Some(n));
            Inv(r.state) && AllSimple(r.state.pend) && Converges(s0, r.state, wakes + r.log)
  {
    OneSemaphoreFirst(s, n);
    var r := Settle(s, Some(n));
    Regroup(wakes, r.log, Settle(r.state, None).log, Settle(s, None).log);
  }

  lemma {:induction false} Regroup(w: seq<Wake>, a: seq<Wake>, b: seq<Wake>, all: seq<Wake>)
    requires SameOrder(a + b, all)
    ensures SameOrder(w + a + b, w + all)
  {
    SameAfter(w, a + b, all);
    assert w + a + b == w + (a + b);
  }

  ghost predicate AnyGranted(wakes: seq<Wake>) {
    exists i :: 0 <= i < |wakes| && wakes[i].error.None?
  }

  lemma {:induction false} GrantedSnoc(wakes: seq<Wake>, w: Wake)
    ensures AnyGranted(wakes + [w]) <==> AnyGranted(wakes) || w.error.None?
  {
    var l := wakes + [w];
    if AnyGranted(wakes) {
      var i :| 0 <= i < |wakes| && wakes[i].error.None?;
      assert l[i].error.None?;
    }
    if w.error.None? { assert l[|wakes|].error.None?; }
  }

  ghost predicate Continues(s0: State, only: Option<nat>, s: State, wakes: seq<Wake>)
    requires Inv(s0) && Inv(s)
  {
    var rest := Settle(s, only);
    Settle(s0, only) == Settled(rest.state, wakes + rest.log)
  }

  ghost predicate PrefixBlocks(s: State, l: seq<Waiter>, k: int) {
    forall i :: 0 <= i < k && i < |l| ==> Blocks(s, l[i])
  }

  ghost predicate Scanned(s: State, only: Option<nat>, l: seq<Waiter>) {
    l == if only.Some? then ListOn(s.pend, only.value) else s.pend
  }

  lemma {:induction false} ScanFinds(s: State, only: Option<nat>, l: seq<Waiter>, k: nat)
    requires Scanned(s, only, l) && k < |l| && PrefixBlocks(s, l, k) && !Blocks(s, l[k])
    ensures First(s, s.pend, only) == Some(l[k])
  {
    FirstAt(s, l, k);
    if only.Some? { FirstOn(s, s.pend, only.value); }
  }

  lemma {:induction false} PassOn(s0: State, only: Option<nat>, s: State, q: Waiter, wakes: seq<Wake>)
    requires Inv(s0) && Inv(s) && Continues(s0, only, s, wakes) && First(s, s.pend, only) == Some(q)
    ensures InRange(q.sops, |s.vals|) && Inv(Complete(s, q))
    ensures Continues(s0, only, Complete(s, q), wakes + [Verdict(s, q)])
  {
    CompleteKeepsInv(s, q);
    InTurn(wakes, Verdict(s, q), Settle(Complete(s, q), only).log);
  }

  lemma {:induction false} InTurn(a: seq<Wake>, w: Wake, b: seq<Wake>)
    ensures a + ([w] + b) == a + [w] + b
  {
  }

  /** Without a restart the cursor keeps its place and its promise. */
  lemma {:induction false} ScanStays(s: State, t: State, only: Option<nat>, l: seq<Waiter>, k: nat)
    requires Inv(s) && Scanned(s, only, l) && k < |l| && PrefixBlocks(s, l, k)
    requires t.pend == Without(s.pend, l[k])
    requires forall w :: w in t.pend && Blocks(s, w) ==> Blocks(t, w)
    ensures var m := if only.Some? then ListOn(t.pend, only.value) else t.pend;
            k <= |m| && PrefixBlocks(t, m, k)
  {
    var q := l[k];
    assert Distinct(l) && q in s.pend by {
      if only.Some? {
        ListOnOrder(s.pend, only.value);
        ListOnMembers(s.pend, only.value, q);
      }
    }
    WithoutAt(l, q, k);
    if only.Some? {
      ListOnMembers(s.pend, only.value, q);
      ListOnWithout(s.pend, q, only.value);
    }
    var m := Without(l, q);
    forall i | 0 <= i < k
      ensures Blocks(t, m[i])
    {
      assert m[i] == l[i] && m[i] != q;
      if only.Some? { ListOnMembers(s.pend, only.value, m[i]); }
      WithoutMembers(s.pend, q);
    }
  }

  lemma {:induction false} ScanEnds(s: State, only: Option<nat>, l: seq<Waiter>, wakes: seq<Wake>)
    requires Inv(s) && Scanned(s, only, l) && PrefixBlocks(s, l, |l|)
    ensures Settle(s, only) == Settled(s, []) && wakes + [] == wakes
  {
    if only.Some? { FirstOn(s, s.pend, only.value); }
    assert First(s, l, None).None?;
  }

  /** At value zero nobody from the first altering entry on can proceed. */
  lemma {:induction false} RestBlocks(s: State, n: nat, k: nat)
    requires Inv(s) && n < |s.vals| && s.vals[n] == 0
    requires var l := ListOn(s.pend, n); k < |l| && PrefixBlocks(s, l, k) && Alters(l[k].sops)
    ensures PrefixBlocks(s, ListOn(s.pend, n), |ListOn(s.pend, n)|)
  {
    var l := ListOn(s.pend, n);
    ListOnOrder(s.pend, n);
    forall i | k <= i < |l|
      ensures Blocks(s, l[i])
    {
      ListOnMembers(s.pend, n, l[i]);
      MemberOk(s, l[i]);
      assert Alters(l[i].sops);
      AlteringOne(l[i]);
      TryOne(s, l[i]);
    }
  }

  lemma {:induction false} AlteringOne(q: Waiter)
    requires Simple(q) && Alters(q.sops)
    ensures q.sops[0].op != 0
  {
  }

  /** If the head of a semaphore's list is no waiter for zero, nobody on it is. */
  lemma {:induction false} NoZeros(p: seq<Waiter>, n: nat)
    requires Distinct(p) && ZerosFirst(p)
    requires ListOn(p, n) == [] || (|ListOn(p, n)[0].sops| == 1 && ListOn(p, n)[0].sops[0].op != 0)
    ensures forall w :: w in p && OnSem(w, n) ==> w.sops[0].op != 0
  {
    ListOnOrder(p, n);
    var l := ListOn(p, n);
    assert l != [] ==> Alters(l[0].sops);
    forall w | w in p && OnSem(w, n)
      ensures w.sops[0].op != 0
    {
      ListOnMembers(p, n, w);
      var i :| 0 <= i < |l| && l[i] == w;
      assert Alters(l[i].sops);
    }
  }

  lemma {:induction false} KeepsBlocked(s: State, q: Waiter, p: seq<Waiter>)
    requires Inv(s) && q in s.pend && InRange(q.sops, |s.vals|) && Try(s, q).Ok?
    requires Simple(q) && Alters(q.sops) && p == Complete(s, q).pend && AllSimple(p)
    requires var n := q.sops[0].num;
             Complete(s, q).vals[n] != 0 || forall w :: w in p && OnSem(w, n) ==> w.sops[0].op != 0
    ensures forall w :: w in p && Blocks(s, w) ==> Blocks(Complete(s, q), w)
  {
    WithoutMembers(s.pend, q);
    WithoutKeepsDistinct(s.pend, q);
    forall w | w in p && Blocks(s, w)
      ensures Blocks(Complete(s, q), w)
    {
      assert Simple(w);
      DecrementUnblocks(s, q, w);
    }
  }
}
