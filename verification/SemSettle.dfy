/**
 The reference wake-up pass `Settle`, and what it guarantees: the invariant is
 kept, every call left pending would still block, and single-operation
 decrements are served first come, first served.
 */
module SemSettle {
  import opened SemSpec

  // ---- One completion keeps the invariant

  lemma {:induction false} AttemptKeepsRange(vals: seq<int>, row: seq<int>, sops: seq<Sop>)
    requires |row| == |vals| && InRange(sops, |vals|)
    requires forall i :: 0 <= i < |vals| ==> 0 <= vals[i] <= SEMVMX
    ensures var r := Attempt(vals, row, sops);
            r.Ok? ==> forall i :: 0 <= i < |vals| ==> 0 <= r.vals[i] <= SEMVMX
    decreases |sops|
  {
    if sops != [] && Attempt(vals, row, sops).Ok? {
      var o := sops[0];
      AttemptKeepsRange(vals[o.num := vals[o.num] + o.op], row, sops[1..]);
    }
  }

  lemma {:induction false} CommitRowKeepsShort(row: seq<int>, sops: seq<Sop>)
    requires InRange(sops, |row|)
    requires forall i :: 0 <= i < |row| ==> InShort(row[i])
    ensures forall i :: 0 <= i < |row| ==> InShort(CommitRow(row, sops)[i])
    decreases |sops|
  {
    if sops != [] {
      var o := sops[|sops| - 1];
      CommitRowKeepsShort(if o.undo then row[o.num := Short(row[o.num] - o.op)] else row, sops[..|sops| - 1]);
    }
  }

  lemma {:induction false} DoneKeepsInv(s: State, w: Waiter)
    requires Inv(s) && InRange(w.sops, |s.vals|) && Try(s, w).Ok?
    ensures Inv(Done(s, w))
  {
    var row := Row(s.adj, w.un, |s.vals|);
    AttemptKeepsRange(s.vals, row, w.sops);
    CommitRowKeepsShort(row, w.sops);
    var t := Done(s, w);
    assert t.vals == Attempt(s.vals, row, w.sops).vals;
    assert t.adj.Keys == s.adj.Keys;
    assert forall i :: 0 <= i < |t.pend| ==> WaiterOk(s, t.pend[i]);
  }

  /** Removing a member keeps the order of the others. */
  lemma {:induction false} WithoutAt(p: seq<Waiter>, w: Waiter, k: nat)
    requires k < |p| && p[k] == w && w !in p[..k]
    ensures Without(p, w) == p[..k] + p[k + 1..]
  {
    if k > 0 {
      assert p[1..][..k - 1] == p[..k][1..];
      WithoutAt(p[1..], w, k - 1);
      assert p[..k] == [p[0]] + p[1..][..k - 1];
      assert p[1..][k..] == p[k + 1..];
    }
  }

  lemma {:induction false} IndexOf(p: seq<Waiter>, w: Waiter) returns (k: nat)
    requires w in p
    ensures k < |p| && p[k] == w && w !in p[..k]
  {
    if p[0] == w {
      k := 0;
    } else {
      k := IndexOf(p[1..], w);
      k := k + 1;
      assert p[..k] == [p[0]] + p[1..][..k - 1];
    }
  }

  lemma {:induction false} WithoutMembers(p: seq<Waiter>, w: Waiter)
    requires w in p
    ensures forall x :: x in Without(p, w) ==> x in p
    ensures forall x :: x in p && x != w ==> x in Without(p, w)
  {
    var k := IndexOf(p, w);
    WithoutAt(p, w, k);
    assert p == p[..k] + [w] + p[k + 1..];
  }

  /** Removal leaves the others in place: position i held p[i] or p[i + 1]. */
  lemma {:induction false} WithoutShift(p: seq<Waiter>, w: Waiter) returns (k: nat)
    requires w in p
    ensures k < |p| && p[k] == w
    ensures forall i :: 0 <= i < |p| - 1 ==> Without(p, w)[i] == p[if i < k then i else i + 1]
  {
    k := IndexOf(p, w);
    WithoutAt(p, w, k);
  }

  lemma {:induction false} WithoutKeepsDistinct(p: seq<Waiter>, w: Waiter)
    requires w in p && Distinct(p)
    ensures Distinct(Without(p, w)) && w !in Without(p, w)
  {
    var k := WithoutShift(p, w);
  }

  lemma {:induction false} WithoutKeepsZeros(p: seq<Waiter>, w: Waiter)
    requires w in p && ZerosFirst(p)
    ensures ZerosFirst(Without(p, w))
  {
    var k := WithoutShift(p, w);
    var r := Without(p, w);
    forall i, j | 0 <= i < j < |r| && Alters(r[i].sops)
      ensures Alters(r[j].sops)
    {
      assert Alters(p[if i < k then i else i + 1].sops);
    }
  }

  lemma {:induction false} CompleteKeepsInv(s: State, w: Waiter)
    requires Inv(s) && w in s.pend
    ensures InRange(w.sops, |s.vals|) && Inv(Complete(s, w))
  {
    var k := IndexOf(s.pend, w);
    assert WaiterOk(s, s.pend[k]);
    if Try(s, w).Ok? { DoneKeepsInv(s, w); }
    WithoutKeepsDistinct(s.pend, w);
    WithoutKeepsZeros(s.pend, w);
    WithoutMembers(s.pend, w);
    var t := Complete(s, w);
    forall i | 0 <= i < |t.pend|
      ensures WaiterOk(t, t.pend[i])
    {
      assert t.pend[i] in s.pend;
      var j :| 0 <= j < |s.pend| && s.pend[j] == t.pend[i];
      assert WaiterOk(s, s.pend[j]);
    }
  }

  // ---- The reference pass

  /** Complete the first eligible sleeper that need not sleep on, and start over. */
  function Settle(s: State, only: Option<nat>): (r: Settled)
    requires Inv(s)
    ensures |r.state.pend| + |r.log| == |s.pend|
    decreases |s.pend|
  {
    var f := First(s, s.pend, only);
    if f.None? then Settled(s, [])
    else
      CompleteKeepsInv(s, f.value);
      var r := Settle(Complete(s, f.value), only);
      Settled(r.state, [Verdict(s, f.value)] + r.log)
  }

  lemma {:induction false} SettleKeepsInv(s: State, only: Option<nat>)
    requires Inv(s)
    ensures Inv(Settle(s, only).state) && |Settle(s, only).state.vals| == |s.vals|
    decreases |s.pend|
  {
    var f := First(s, s.pend, only);
    if f.Some? {
      CompleteKeepsInv(s, f.value);
      SettleKeepsInv(Complete(s, f.value), only);
    }
  }

  /** Every pending call would still block if it were retried. */
  predicate Quiet(s: State) {
    forall i :: 0 <= i < |s.pend| ==> Blocks(s, s.pend[i])
  }

  predicate QuietOn(s: State, n: nat) {
    forall i :: 0 <= i < |s.pend| && OnSem(s.pend[i], n) ==> Blocks(s, s.pend[i])
  }

  lemma {:induction false} SettleQuiets(s: State, only: Option<nat>)
    requires Inv(s)
    ensures only.None? ==> Quiet(Settle(s, only).state)
    ensures only.Some? ==> QuietOn(Settle(s, only).state, only.value)
    decreases |s.pend|
  {
    var f := First(s, s.pend, only);
    if f.Some? {
      CompleteKeepsInv(s, f.value);
      SettleQuiets(Complete(s, f.value), only);
    }
  }

  /** On a quiet set the pass does nothing. */
  lemma {:induction false} QuietIsSettled(s: State, only: Option<nat>)
    requires Inv(s) && Quiet(s)
    ensures Settle(s, only) == Settled(s, [])
  {
    assert First(s, s.pend, only).None?;
  }
}
