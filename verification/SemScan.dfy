/**
 Why the shortcuts of the wake-up code lose nothing: which sleepers a completed
 call can possibly unblock.
 */
module SemScan {
  import opened SemSpec
  import opened SemSettle
  import opened SemConfluence

  // ---- Derived lists: the per-semaphore lists and the count of complex sleepers

  function ListOn(p: seq<Waiter>, n: nat): seq<Waiter> {
    if p == [] then []
    else if OnSem(p[0], n) then [p[0]] + ListOn(p[1..], n)
    else ListOn(p[1..], n)
  }

  function Complexes(p: seq<Waiter>): (r: nat)
    ensures r == 0 <==> AllSimple(p)
  {
    if p == [] then 0 else (if Simple(p[0]) then 0 else 1) + Complexes(p[1..])
  }

  lemma {:induction false} ListOnMembers(p: seq<Waiter>, n: nat, w: Waiter)
    ensures w in ListOn(p, n) <==> w in p && OnSem(w, n)
  {
    if p != [] { ListOnMembers(p[1..], n, w); }
  }

  lemma {:induction false} ListOnWithout(p: seq<Waiter>, w: Waiter, n: nat)
    requires w in p
    ensures ListOn(Without(p, w), n) == if OnSem(w, n) then Without(ListOn(p, n), w) else ListOn(p, n)
  {
    if p[0] != w {
      ListOnWithout(p[1..], w, n);
      assert ([p[0]] + Without(p[1..], w))[1..] == Without(p[1..], w);
    }
  }

  lemma {:induction false} ComplexesWithout(p: seq<Waiter>, w: Waiter)
    requires w in p
    ensures Complexes(Without(p, w)) == Complexes(p) - if Simple(w) then 0 else 1
  {
    if p[0] != w {
      ComplexesWithout(p[1..], w);
      assert ([p[0]] + Without(p[1..], w))[1..] == Without(p[1..], w);
    }
  }

  lemma {:induction false} ListOnAppend(p: seq<Waiter>, w: Waiter, n: nat)
    ensures ListOn(p + [w], n) == ListOn(p, n) + if OnSem(w, n) then [w] else []
    ensures Complexes(p + [w]) == Complexes(p) + if Simple(w) then 0 else 1
  {
    if p == [] {
      assert p + [w] == [w];
    } else {
      ListOnAppend(p[1..], w, n);
      assert (p + [w])[1..] == p[1..] + [w];
    }
  }

  lemma {:induction false} ListOnOrder(p: seq<Waiter>, n: nat)
    requires Distinct(p) && ZerosFirst(p)
    ensures Distinct(ListOn(p, n)) && ZerosFirst(ListOn(p, n))
  {
    if p != [] {
      var l := ListOn(p[1..], n);
      assert ZerosFirst(p[1..]);
      ListOnOrder(p[1..], n);
      forall i | 0 <= i < |l|
        ensures l[i].id != p[0].id
        ensures Alters(p[0].sops) ==> Alters(l[i].sops)
      {
        ListOnMembers(p[1..], n, l[i]);
        var j :| 0 <= j < |p[1..]| && p[1..][j] == l[i];
        assert p[j + 1] == l[i];
      }
    }
  }

  /** The list of one semaphore finds the same next sleeper as the whole list. */
  lemma {:induction false} FirstOn(s: State, p: seq<Waiter>, n: nat)
    ensures First(s, p, Some(n)) == First(s, ListOn(p, n), None)
  {
    if p != [] {
      FirstOn(s, p[1..], n);
      if OnSem(p[0], n) { assert ListOn(p, n)[1..] == ListOn(p[1..], n); }
    }
  }

  lemma {:induction false} FirstAt(s: State, l: seq<Waiter>, k: nat)
    requires k < |l| && !Blocks(s, l[k]) && forall i :: 0 <= i < k ==> Blocks(s, l[i])
    ensures First(s, l, None) == Some(l[k])
  {
    if k > 0 { FirstAt(s, l[1..], k - 1); }
  }

  // ---- check_restart

  lemma {:induction false} ZerosChangeNothing(vals: seq<int>, row: seq<int>, sops: seq<Sop>)
    requires |row| == |vals| && InRange(sops, |vals|) && !Alters(sops)
    ensures Attempt(vals, row, sops).Ok? ==> Attempt(vals, row, sops).vals == vals
    decreases |sops|
  {
    if sops != [] && Attempt(vals, row, sops).Ok? {
      assert vals[sops[0].num := vals[sops[0].num] + sops[0].op] == vals;
      ZerosChangeNothing(vals, row, sops[1..]);
    }
  }

  lemma {:induction false} ZerosCommitNothing(row: seq<int>, sops: seq<Sop>)
    requires InRange(sops, |row|) && !Alters(sops)
    requires forall i :: 0 <= i < |row| ==> InShort(row[i])
    ensures CommitRow(row, sops) == row
    decreases |sops|
  {
    if sops != [] {
      var o := sops[|sops| - 1];
      assert o.op == 0;
      assert row[o.num := Short(row[o.num] - o.op)] == row;
      ZerosCommitNothing(row, sops[..|sops| - 1]);
    }
  }

  /** A call that only waits for zeros leaves values and undo entries alone. */
  lemma {:induction false} ZerosAreReadOnly(s: State, q: Waiter)
    requires Inv(s) && InRange(q.sops, |s.vals|) && !Alters(q.sops) && Try(s, q).Ok?
    ensures Done(s, q).vals == s.vals && Done(s, q).adj == s.adj
  {
    var row := Row(s.adj, q.un, |s.vals|);
    ZerosChangeNothing(s.vals, row, q.sops);
    if q.un.Some? && q.un.value in s.adj {
      ZerosCommitNothing(row, q.sops);
      assert row == s.adj[q.un.value];
    }
  }

  lemma {:induction false} SameBlocks(s: State, t: State, w: Waiter)
    requires s.vals == t.vals && s.adj == t.adj
    ensures Blocks(s, w) == Blocks(t, w)
  {
  }

  lemma {:induction false} ReadOnlyQuiet(s: State, call: Waiter)
    requires Inv(s) && Quiet(s) && InRange(call.sops, |s.vals|) && !Alters(call.sops) && Try(s, call).Ok?
    ensures Quiet(Done(s, call))
  {
    ZerosAreReadOnly(s, call);
    var d := Done(s, call);
    forall i | 0 <= i < |d.pend|
      ensures Blocks(d, d.pend[i])
    {
      assert Blocks(s, s.pend[i]);
      SameBlocks(s, d, s.pend[i]);
    }
  }

  /** After a granted single decrement q, a blocked single-operation sleeper
      other than a waiter for zero is still blocked, and a waiter for zero is
      unless the value is now zero. */
  lemma {:induction false} DecrementUnblocks(s: State, q: Waiter, w: Waiter)
    requires Inv(s) && q in s.pend && w in s.pend && w != q && Blocks(s, w)
    requires Simple(q) && Simple(w) && Alters(q.sops)
    requires InRange(q.sops, |s.vals|) && Try(s, q).Ok?
    requires Complete(s, q).vals[q.sops[0].num] != 0 || !OnSem(w, q.sops[0].num) || w.sops[0].op != 0
    ensures Blocks(Complete(s, q), w)
  {
    MemberOk(s, q);
    MemberOk(s, w);
    if q.sops[0].num != w.sops[0].num {
      CompleteOther(s, q, w);
    } else {
      var t := Complete(s, q);
      DoneOne(s, q);
      TryOne(s, w);
      TryOne(t, w);
    }
  }

  // ---- do_smart_update: which semaphores a completed call can have made ready

  /** The guard in the loop of do_smart_update. */
  predicate Triggers(vals: seq<int>, o: Sop) {
    o.num < |vals| && (o.op > 0 || (o.op < 0 && vals[o.num] == 0))
  }

  lemma {:induction false} OnlyDown(vals: seq<int>, row: seq<int>, sops: seq<Sop>, n: nat)
    requires |row| == |vals| && InRange(sops, |vals|) && n < |vals| && Attempt(vals, row, sops).Ok?
    requires forall i :: 0 <= i < |sops| && sops[i].num == n ==> sops[i].op <= 0
    ensures Attempt(vals, row, sops).vals[n] <= vals[n]
    ensures (forall i :: 0 <= i < |sops| && sops[i].num == n ==> sops[i].op == 0) ==>
              Attempt(vals, row, sops).vals[n] == vals[n]
    decreases |sops|
  {
    if sops != [] {
      var o := sops[0];
      OnlyDown(vals[o.num := vals[o.num] + o.op], row, sops[1..], n);
    }
  }

  ghost predicate Pending(vals: seq<int>, sops: seq<Sop>, from: nat, n: nat) {
    exists j :: from <= j < |sops| && sops[j].num == n && Triggers(vals, sops[j])
  }

  /** A sleeper made ready by a successful call sits on a semaphore for which
      some operation of that call passes the guard. */
  lemma {:induction false} ReadyIsTriggered(s: State, call: Waiter, w: Waiter)
    requires Inv(s) && Blocks(s, w) && w in s.pend && Simple(w)
    requires InRange(call.sops, |s.vals|) && Try(s, call).Ok?
    requires !Blocks(Done(s, call), w)
    ensures Pending(Done(s, call).vals, call.sops, 0, w.sops[0].num)
  {
    var t := Done(s, call);
    var n := w.sops[0].num;
    MemberOk(s, w);
    TryOne(s, w);
    TryOne(t, w);
    var row := Row(s.adj, call.un, |s.vals|);
    if !Pending(t.vals, call.sops, 0, n) {
      assert forall i :: 0 <= i < |call.sops| && call.sops[i].num == n ==> !Triggers(t.vals, call.sops[i]);
      OnlyDown(s.vals, row, call.sops, n);
      assert false;
    }
  }

  /** A pass over semaphore n is invisible to the sleepers of any other. */
  lemma {:induction false} OthersUntouched(s: State, n: nat, m: nat, w: Waiter)
    requires Inv(s) && AllSimple(s.pend) && m != n && OnSem(w, m) && m < |s.vals|
    requires w in Settle(s, Some(n)).state.pend
    ensures var t := Settle(s, Some(n)).state;
            && w in s.pend && |t.vals| == |s.vals| && t.vals[m] == s.vals[m]
            && Blocks(t, w) == Blocks(s, w)
    decreases |s.pend|
  {
    var f := First(s, s.pend, Some(n));
    if f.Some? {
      CompleteKeepsInv(s, f.value);
      CompleteStaysSimple(s, f.value);
      var t := Complete(s, f.value);
      OthersUntouched(t, n, m, w);
      WithoutMembers(s.pend, f.value);
      CompleteOther(s, f.value, w);
      if Try(s, f.value).Ok? { DoneOne(s, f.value); }
    }
  }

  /** Every sleeper that is ready waits for a semaphore the loop of
      do_smart_update has still to visit. */
  ghost predicate Visits(s: State, sops: seq<Sop>, from: nat) {
    forall w :: w in s.pend && !Blocks(s, w) ==> w.sops != [] && Pending(s.vals, sops, from, w.sops[0].num)
  }

  lemma {:induction false} VisitsFirst(s: State, call: Waiter)
    requires Inv(s) && Quiet(s) && AllSimple(s.pend) && InRange(call.sops, |s.vals|) && Try(s, call).Ok?
    ensures Visits(Done(s, call), call.sops, 0)
  {
    var t := Done(s, call);
    forall w | w in t.pend && !Blocks(t, w)
      ensures w.sops != [] && Pending(t.vals, call.sops, 0, w.sops[0].num)
    {
      assert Simple(w);
      ReadyIsTriggered(s, call, w);
    }
  }

  lemma {:induction false} VisitSkips(s: State, sops: seq<Sop>, i: nat)
    requires i < |sops| && Visits(s, sops, i) && !Triggers(s.vals, sops[i])
    ensures Visits(s, sops, i + 1)
  {
    forall w | w in s.pend && !Blocks(s, w)
      ensures w.sops != [] && Pending(s.vals, sops, i + 1, w.sops[0].num)
    {
      var j :| i <= j < |sops| && sops[j].num == w.sops[0].num && Triggers(s.vals, sops[j]);
      assert j != i;
    }
  }

  lemma {:induction false} VisitSettles(s: State, sops: seq<Sop>, i: nat)
    requires Inv(s) && AllSimple(s.pend) && i < |sops| && InRange(sops, |s.vals|) && Visits(s, sops, i)
    ensures Visits(Settle(s, Some(sops[i].num)).state, sops, i + 1)
  {
    var n := sops[i].num;
    var t := Settle(s, Some(n)).state;
    SettleKeepsInv(s, Some(n));
    SettleQuiets(s, Some(n));
    OneSemaphoreFirst(s, n);
    forall w | w in t.pend && !Blocks(t, w)
      ensures w.sops != [] && Pending(t.vals, sops, i + 1, w.sops[0].num)
    {
      assert Simple(w);
      MemberOk(t, w);
      var m := w.sops[0].num;
      assert !OnSem(w, n);
      OthersUntouched(s, n, m, w);
      var j :| i <= j < |sops| && sops[j].num == m && Triggers(s.vals, sops[j]);
      assert j != i && Triggers(t.vals, sops[j]);
    }
  }

  lemma {:induction false} VisitsDone(s: State, sops: seq<Sop>)
    requires Inv(s) && Visits(s, sops, |sops|)
    ensures Quiet(s) && Settle(s, None) == Settled(s, [])
  {
    forall i | 0 <= i < |s.pend|
      ensures Blocks(s, s.pend[i])
    {
      assert s.pend[i] in s.pend;
    }
    QuietIsSettled(s, None);
  }
}
