/**
 First come, first served among single-operation decrements of one semaphore.
 */
module SemFairness {
  import opened SemSpec
  import opened SemSettle
  import opened SemConfluence

  predicate At(p: seq<Waiter>, a: Waiter, b: Waiter, i: int, j: int) {
    0 <= i < j < |p| && p[i] == a && p[j] == b
  }

  /** a is queued before b. */
  ghost predicate Before(p: seq<Waiter>, a: Waiter, b: Waiter) {
    exists i, j :: At(p, a, b, i, j)
  }

  /** Both take from the same semaphore, and a asks for no more than b. */
  predicate NoGreedier(a: Waiter, b: Waiter) {
    && Simple(a) && Simple(b)
    && a.sops[0].num == b.sops[0].num
    && b.sops[0].op <= a.sops[0].op < 0
  }

  lemma {:induction false} FirstIsEarliest(s: State, p: seq<Waiter>, only: Option<nat>, i: nat, j: nat)
    requires i < j < |p| && Distinct(p) && First(s, p, only) == Some(p[j]) && Eligible(p[i], only)
    ensures Blocks(s, p[i])
  {
    if i > 0 { FirstIsEarliest(s, p[1..], only, i - 1, j - 1); }
  }

  lemma {:induction false} LogMembers(s: State, only: Option<nat>)
    requires Inv(s)
    ensures forall k :: 0 <= k < |Settle(s, only).log| ==> Settle(s, only).log[k].who in s.pend
    decreases |s.pend|
  {
    var f := First(s, s.pend, only);
    if f.Some? {
      CompleteKeepsInv(s, f.value);
      LogMembers(Complete(s, f.value), only);
      WithoutMembers(s.pend, f.value);
    }
  }

  lemma {:induction false} BeforeSurvives(p: seq<Waiter>, w: Waiter, a: Waiter, b: Waiter)
    requires w in p && Before(p, a, b) && w != a && w != b
    ensures Before(Without(p, w), a, b)
  {
    var i, j :| At(p, a, b, i, j);
    var k := WithoutShift(p, w);
    var r := Without(p, w);
    var i', j' := if i < k then i else i - 1, if j < k then j else j - 1;
    assert r[i'] == p[i];
    assert r[j'] == p[j];
    assert At(r, a, b, i', j');
  }

  /** If b would succeed then a need not sleep. */
  lemma {:induction false} LessGreedyReady(s: State, a: Waiter, b: Waiter)
    requires NoGreedier(a, b) && InRange(a.sops, |s.vals|) && InRange(b.sops, |s.vals|) && Try(s, b).Ok?
    ensures !Blocks(s, a)
  {
    TryOne(s, a);
    TryOne(s, b);
  }

  lemma {:induction false} EarlierBlocks(s: State, only: Option<nat>, a: Waiter, b: Waiter)
    requires Inv(s) && Before(s.pend, a, b) && First(s, s.pend, only) == Some(b) && Eligible(a, only)
    ensures Blocks(s, a)
  {
    var i, j :| At(s.pend, a, b, i, j);
    FirstIsEarliest(s, s.pend, only, i, j);
  }

  /** A call completes once: it is not in the log of what follows. */
  lemma {:induction false} CompletesOnce(s: State, only: Option<nat>, w: Waiter)
    requires Inv(s) && w in s.pend
    ensures InRange(w.sops, |s.vals|) && Inv(Complete(s, w))
    ensures forall k :: 0 <= k < |Settle(Complete(s, w), only).log| ==>
                          Settle(Complete(s, w), only).log[k].who != w
  {
    CompleteKeepsInv(s, w);
    LogMembers(Complete(s, w), only);
    WithoutKeepsDistinct(s.pend, w);
  }

  lemma {:induction false} GrantRespectsOrder(s: State, only: Option<nat>, a: Waiter, b: Waiter)
    requires Inv(s) && Before(s.pend, a, b) && NoGreedier(a, b)
    requires First(s, s.pend, only) == Some(b)
    ensures InRange(b.sops, |s.vals|) && Verdict(s, b).error.Some?
  {
    var i, j :| At(s.pend, a, b, i, j);
    MemberOk(s, a);
    MemberOk(s, b);
    EarlierBlocks(s, only, a, b);
    if Try(s, b).Ok? { LessGreedyReady(s, a, b); }
  }

  ghost predicate WokenBefore(log: seq<Wake>, a: Waiter, k: int) {
    exists l :: 0 <= l < k && l < |log| && log[l].who == a
  }

  /** One step of the pass, as seen from the outside. */
  lemma {:induction false} PassStep(s: State, only: Option<nat>) returns (f: Waiter, t: State)
    requires Inv(s) && Settle(s, only).log != []
    ensures First(s, s.pend, only) == Some(f) && f in s.pend && InRange(f.sops, |s.vals|)
    ensures Inv(t) && t.pend == Without(s.pend, f) && |t.pend| < |s.pend|
    ensures Settle(s, only).log == [Verdict(s, f)] + Settle(t, only).log
    ensures forall k :: 0 <= k < |Settle(t, only).log| ==> Settle(t, only).log[k].who != f
  {
    f := First(s, s.pend, only).value;
    CompletesOnce(s, only, f);
    t := Complete(s, f);
  }

  lemma {:induction false} TailOf(x: Wake, log: seq<Wake>, k: nat)
    requires k < |log| + 1
    ensures ([x] + log)[0] == x
    ensures k > 0 ==> ([x] + log)[k] == log[k - 1]
  {
  }

  lemma {:induction false} WokenLater(x: Wake, log: seq<Wake>, a: Waiter, k: int)
    requires WokenBefore(log, a, k)
    ensures WokenBefore([x] + log, a, k + 1)
  {
    var l :| 0 <= l < k && l < |log| && log[l].who == a;
    assert ([x] + log)[l + 1].who == a;
  }

  /** Whatever else is pending, a decrement is not granted before an earlier
      one on the same semaphore that asks for the same or less. */
  lemma {:induction false} NoOvertaking(s: State, only: Option<nat>, a: Waiter, b: Waiter, k: nat)
    requires Inv(s) && Before(s.pend, a, b) && NoGreedier(a, b)
    requires k < |Settle(s, only).log| && Settle(s, only).log[k] == Wake(b, None)
    ensures WokenBefore(Settle(s, only).log, a, k)
    decreases |s.pend|
  {
    var f, t := PassStep(s, only);
    if f == b {
      GrantRespectsOrder(s, only, a, b);
    } else if f == a {
      AOnceDone(s, Settle(s, only).log, a, b, k);
    } else {
      BeforeSurvives(s.pend, f, a, b);
      TailOf(Verdict(s, f), Settle(t, only).log, k);
      NoOvertaking(t, only, a, b, k - 1);
      WokenLater(Verdict(s, f), Settle(t, only).log, a, k - 1);
    }
  }

  lemma {:induction false} AOnceDone(s: State, log: seq<Wake>, a: Waiter, b: Waiter, k: nat)
    requires Distinct(s.pend) && Before(s.pend, a, b) && k < |log| && log[0].who == a && log[k].who == b
    ensures WokenBefore(log, a, k)
  {
    var i, j :| At(s.pend, a, b, i, j);
    assert k > 0;
  }

  /** A newcomer cannot slip past a sleeping decrement either. */
  lemma {:induction false} NewcomerWaits(s: State, a: Waiter, b: Waiter)
    requires Inv(s) && Quiet(s) && a in s.pend && NoGreedier(a, b)
    requires InRange(b.sops, |s.vals|)
    ensures !Try(s, b).Ok?
  {
    if Try(s, b).Ok? {
      MemberOk(s, a);
      LessGreedyReady(s, a, b);
    }
  }
}
