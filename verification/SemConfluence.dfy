/**
 When no sleeping call has more than one operation, the wake-up passes of
 different semaphores do not interfere: settling one semaphore's own list first
 never changes where a full pass ends, nor who is woken with which result.
 */
module SemConfluence {
  import opened SemSpec
  import opened SemSettle

  predicate AllSimple(p: seq<Waiter>) {
    forall i :: 0 <= i < |p| ==> Simple(p[i])
  }

  /** What a single-operation attempt reads: its semaphore and its undo entry. */
  function OneOp(v: int, a: int, o: Sop): (r: Outcome)
  {
    if (o.op == 0 && v != 0) || v + o.op < 0 then
      if o.nowait then Fail(EAGAIN) else Block
    else if v + o.op > SEMVMX then Fail(ERANGE)
    else if o.undo && !InShort(a - o.op) then Fail(ERANGE)
    else Ok([v + o.op])
  }

  lemma {:induction false} TryOne(s: State, w: Waiter)
    requires Simple(w) && InRange(w.sops, |s.vals|)
    ensures var n := w.sops[0].num;
            var r := OneOp(s.vals[n], Row(s.adj, w.un, |s.vals|)[n], w.sops[0]);
            && Try(s, w).Block? == r.Block?
            && (r.Fail? ==> Try(s, w) == r)
            && (Try(s, w).Fail? ==> Try(s, w) == r)
            && (r.Ok? ==> Try(s, w) == Ok(s.vals[n := s.vals[n] + w.sops[0].op]))
  {
    var o := w.sops[0];
    var row := Row(s.adj, w.un, |s.vals|);
    var next := s.vals[o.num := s.vals[o.num] + o.op];
    assert w.sops[1..] == [];
    assert Attempt(next, row, w.sops[1..]) == Ok(next);
  }

  /** The undo table after one operation. */
  function Bump(adj: map<nat, seq<int>>, un: Option<nat>, o: Sop): (r: map<nat, seq<int>>)
    requires un.Some? && un.value in adj ==> o.num < |adj[un.value]|
    ensures r.Keys == adj.Keys
    ensures forall u :: u in adj ==> |r[u]| == |adj[u]|
  {
    if un.Some? && un.value in adj && o.undo
    then adj[un.value := adj[un.value][o.num := Short(adj[un.value][o.num] - o.op)]]
    else adj
  }

  lemma {:induction false} BumpsCommute(adj: map<nat, seq<int>>, u: Option<nat>, a: Sop, v: Option<nat>, b: Sop)
    requires u.Some? && u.value in adj ==> a.num < |adj[u.value]|
    requires v.Some? && v.value in adj ==> b.num < |adj[v.value]|
    requires a.num != b.num
    ensures Bump(Bump(adj, u, a), v, b) == Bump(Bump(adj, v, b), u, a)
  {
    if u == v && u.Some? && u.value in adj && a.undo && b.undo {
      var row := adj[u.value];
      var x, y := Short(row[a.num] - a.op), Short(row[b.num] - b.op);
      assert row[a.num := x][b.num := y] == row[b.num := y][a.num := x];
    }
  }

  lemma {:induction false} MemberOk(s: State, w: Waiter)
    requires Inv(s) && w in s.pend
    ensures WaiterOk(s, w)
  {
    var i :| 0 <= i < |s.pend| && s.pend[i] == w;
  }

  lemma {:induction false} DoneOne(s: State, w: Waiter)
    requires ValsOk(s) && RowsOk(s) && Simple(w) && InRange(w.sops, |s.vals|) && Try(s, w).Ok?
    ensures var o := w.sops[0];
            var t := Done(s, w);
            && t.vals == s.vals[o.num := s.vals[o.num] + o.op]
            && t.pids == s.pids[o.num := w.pid]
            && t.adj == Bump(s.adj, w.un, o)
  {
    TryOne(s, w);
    var o := w.sops[0];
    var row := Row(s.adj, w.un, |s.vals|);
    var rest := w.sops[..|w.sops| - 1];
    assert rest == [];
    assert CommitPids(s.pids[o.num := w.pid], rest, w.pid) == s.pids[o.num := w.pid];
    var row' := if o.undo then row[o.num := Short(row[o.num] - o.op)] else row;
    assert CommitRow(row', rest) == row';
  }

  /** Completing a sleeper of another semaphore is invisible to b. */
  lemma {:induction false} CompleteOther(s: State, a: Waiter, b: Waiter)
    requires Inv(s) && a in s.pend && b in s.pend && Simple(a) && Simple(b)
    requires a.sops[0].num != b.sops[0].num
    ensures InRange(a.sops, |s.vals|) && InRange(b.sops, |s.vals|)
    ensures var t := Complete(s, a);
            && b in t.pend
            && Try(t, b).Block? == Try(s, b).Block?
            && Try(t, b).Ok? == Try(s, b).Ok?
            && Verdict(t, b) == Verdict(s, b)
            && Row(t.adj, b.un, |s.vals|)[b.sops[0].num] == Row(s.adj, b.un, |s.vals|)[b.sops[0].num]
  {
    MemberOk(s, a);
    MemberOk(s, b);
    WithoutMembers(s.pend, a);
    var t := Complete(s, a);
    if Try(s, a).Ok? { DoneOne(s, a); }
    TryOne(s, b);
    TryOne(t, b);
  }

  lemma {:induction false} WithoutCommutes(p: seq<Waiter>, a: Waiter, b: Waiter)
    requires a != b
    ensures Without(Without(p, a), b) == Without(Without(p, b), a)
  {
    if p != [] && p[0] != a && p[0] != b {
      WithoutCommutes(p[1..], a, b);
    }
  }

  predicate Shaped(s: State) {
    |s.pids| == |s.vals| && forall u :: u in s.adj ==> |s.adj[u]| == |s.vals|
  }

  /** A completion, given whether the attempt succeeds. */
  function Effect(s: State, w: Waiter, ok: bool): (r: State)
    requires Shaped(s) && Simple(w) && w.sops[0].num < |s.vals|
    ensures Shaped(r) && |r.vals| == |s.vals|
  {
    var o := w.sops[0];
    if ok then State(s.vals[o.num := s.vals[o.num] + o.op], s.pids[o.num := w.pid],
                     Bump(s.adj, w.un, o), Without(s.pend, w))
    else s.(pend := Without(s.pend, w))
  }

  lemma {:induction false} CompleteIsEffect(s: State, w: Waiter)
    requires Inv(s) && Simple(w) && w in s.pend && InRange(w.sops, |s.vals|)
    ensures Complete(s, w) == Effect(s, w, Try(s, w).Ok?)
  {
    if Try(s, w).Ok? { DoneOne(s, w); }
  }

  lemma {:induction false} EffectsCommute(s: State, a: Waiter, oka: bool, b: Waiter, okb: bool)
    requires Shaped(s) && Simple(a) && Simple(b)
    requires a.sops[0].num < |s.vals| && b.sops[0].num < |s.vals| && a.sops[0].num != b.sops[0].num
    ensures Effect(Effect(s, a, oka), b, okb) == Effect(Effect(s, b, okb), a, oka)
  {
    var x, y := Effect(Effect(s, a, oka), b, okb), Effect(Effect(s, b, okb), a, oka);
    assert x.pend == y.pend by { WithoutCommutes(s.pend, a, b); }
    assert x.adj == y.adj by { BumpsCommute(s.adj, a.un, a.sops[0], b.un, b.sops[0]); }
    var m, n := a.sops[0].num, b.sops[0].num;
    assert x.vals == y.vals by {
      UpdatesCommute(s.vals, m, s.vals[m] + a.sops[0].op, n, s.vals[n] + b.sops[0].op);
    }
    assert x.pids == y.pids by { UpdatesCommute(s.pids, m, a.pid, n, b.pid); }
  }

  lemma {:induction false} UpdatesCommute(v: seq<int>, i: nat, x: int, j: nat, y: int)
    requires i < |v| && j < |v| && i != j
    ensures v[i := x][j := y] == v[j := y][i := x]
  {
  }

  lemma {:induction false} CompletionsCommute(s: State, a: Waiter, b: Waiter)
    requires Inv(s) && a in s.pend && b in s.pend && Simple(a) && Simple(b)
    requires a.sops[0].num != b.sops[0].num
    ensures InRange(a.sops, |s.vals|) && InRange(b.sops, |s.vals|)
    ensures Inv(Complete(s, a)) && Inv(Complete(s, b)) && b in Complete(s, a).pend && a in Complete(s, b).pend
    ensures Complete(Complete(s, a), b) == Complete(Complete(s, b), a)
  {
    CompleteKeepsInv(s, a);
    CompleteKeepsInv(s, b);
    CompleteOther(s, a, b);
    CompleteOther(s, b, a);
    CompleteIsEffect(s, a);
    CompleteIsEffect(s, b);
    CompleteIsEffect(Complete(s, a), b);
    CompleteIsEffect(Complete(s, b), a);
    EffectsCommute(s, a, Try(s, a).Ok?, b, Try(s, b).Ok?);
  }

  lemma {:induction false} FirstUnaffected(s: State, t: State, p: seq<Waiter>, a: Waiter, n: nat)
    requires !OnSem(a, n)
    requires forall i :: 0 <= i < |p| && OnSem(p[i], n) ==> Blocks(s, p[i]) == Blocks(t, p[i])
    ensures First(s, p, Some(n)) == First(t, Without(p, a), Some(n))
  {
    if p != [] {
      if p[0] == a {
        FirstAgrees(s, t, p[1..], n);
      } else {
        FirstUnaffected(s, t, p[1..], a, n);
        assert Without(p, a)[1..] == Without(p[1..], a);
      }
    }
  }

  lemma {:induction false} FirstAgrees(s: State, t: State, p: seq<Waiter>, n: nat)
    requires forall i :: 0 <= i < |p| && OnSem(p[i], n) ==> Blocks(s, p[i]) == Blocks(t, p[i])
    ensures First(s, p, Some(n)) == First(t, p, Some(n))
  {
    if p != [] { FirstAgrees(s, t, p[1..], n); }
  }

  /** The very first sleeper ready is also the first ready on its semaphore. */
  lemma {:induction false} FirstOverall(s: State, p: seq<Waiter>, n: nat)
    requires AllSimple(p)
    ensures var f := First(s, p, None);
            && (f.None? ==> First(s, p, Some(n)).None?)
            && (f.Some? && OnSem(f.value, n) ==> First(s, p, Some(n)) == f)
  {
    if p != [] { FirstOverall(s, p[1..], n); }
  }

  lemma {:induction false} CompleteStaysSimple(s: State, w: Waiter)
    requires Inv(s) && AllSimple(s.pend) && w in s.pend
    ensures InRange(w.sops, |s.vals|) && AllSimple(Complete(s, w).pend)
  {
    MemberOk(s, w);
    WithoutMembers(s.pend, w);
    var q := Without(s.pend, w);
    forall i | 0 <= i < |q|
      ensures Simple(q[i])
    {
      assert q[i] in s.pend;
    }
  }

  /** Two sleepers, each first on its own semaphore: either may go first. */
  lemma {:induction false} Diamond(s: State, f: Waiter, m: nat, w: Waiter, n: nat) returns (sf: State, sw: State, both: State)
    requires Inv(s) && AllSimple(s.pend) && m != n
    requires First(s, s.pend, Some(m)) == Some(f) && First(s, s.pend, Some(n)) == Some(w)
    ensures InRange(f.sops, |s.vals|) && InRange(w.sops, |s.vals|)
    ensures sf == Complete(s, f) && sw == Complete(s, w)
    ensures Inv(sf) && AllSimple(sf.pend) && First(sf, sf.pend, Some(n)) == Some(w)
    ensures Inv(sw) && AllSimple(sw.pend) && First(sw, sw.pend, Some(m)) == Some(f)
    ensures InRange(f.sops, |sw.vals|) && InRange(w.sops, |sf.vals|)
    ensures both == Complete(sf, w) == Complete(sw, f)
    ensures Verdict(sf, w) == Verdict(s, w) && Verdict(sw, f) == Verdict(s, f)
  {
    CompleteKeepsInv(s, f);
    CompleteKeepsInv(s, w);
    sf, sw := Complete(s, f), Complete(s, w);
    assert First(sf, sf.pend, Some(n)) == Some(w) by {
      OthersBlockAlike(s, f, n);
      FirstUnaffected(s, sf, s.pend, f, n);
    }
    assert First(sw, sw.pend, Some(m)) == Some(f) by {
      OthersBlockAlike(s, w, m);
      FirstUnaffected(s, sw, s.pend, w, m);
    }
    assert AllSimple(sf.pend) by { CompleteStaysSimple(s, f); }
    assert AllSimple(sw.pend) by { CompleteStaysSimple(s, w); }
    both := Complete(sf, w);
    assert both == Complete(sw, f) by { CompletionsCommute(s, f, w); }
    assert Verdict(sf, w) == Verdict(s, w) by { CompleteOther(s, f, w); }
    assert Verdict(sw, f) == Verdict(s, f) by { CompleteOther(s, w, f); }
  }

  // ---- Logs that differ only in the order across semaphores

  /** The wake-ups of the single-operation sleepers on semaphore n, in order. */
  function OnLog(log: seq<Wake>, n: nat): seq<Wake> {
    if log == [] then []
    else if OnSem(log[0].who, n) then [log[0]] + OnLog(log[1..], n)
    else OnLog(log[1..], n)
  }

  /** The same wake-ups with the same results, and on every semaphore in the
      same order. */
  ghost predicate SameOrder(a: seq<Wake>, b: seq<Wake>) {
    multiset(a) == multiset(b) && forall n: nat :: OnLog(a, n) == OnLog(b, n)
  }

  lemma {:induction false} OnLogConcat(a: seq<Wake>, b: seq<Wake>, n: nat)
    ensures OnLog(a + b, n) == OnLog(a, n) + OnLog(b, n)
  {
    if a == [] {
      assert a + b == b;
    } else {
      OnLogConcat(a[1..], b, n);
      assert (a + b)[0] == a[0] && (a + b)[1..] == a[1..] + b;
    }
  }

  lemma {:induction false} SameAfter(x: seq<Wake>, a: seq<Wake>, b: seq<Wake>)
    requires SameOrder(a, b)
    ensures SameOrder(x + a, x + b)
  {
    forall n: nat ensures OnLog(x + a, n) == OnLog(x + b, n) {
      OnLogConcat(x, a, n);
      OnLogConcat(x, b, n);
    }
  }

  lemma {:induction false} SameAlone(log: seq<Wake>)
    ensures SameOrder([] + log, log)
  {
    assert [] + log == log;
  }

  /** Neighbours on different semaphores may change places. */
  lemma {:induction false} SwapFirst(f: Wake, w: Wake, rest: seq<Wake>)
    requires forall n: nat :: !(OnSem(f.who, n) && OnSem(w.who, n))
    ensures SameOrder([f, w] + rest, [w, f] + rest)
  {
    assert [f, w] + rest == [f] + ([w] + rest) && [w, f] + rest == [w] + ([f] + rest);
    forall n: nat ensures OnLog([f, w] + rest, n) == OnLog([w, f] + rest, n) {
      OnLogConcat([f], [w] + rest, n);
      OnLogConcat([w], rest, n);
      OnLogConcat([w], [f] + rest, n);
      OnLogConcat([f], rest, n);
      assert [f][1..] == [] && [w][1..] == [];
    }
  }

  /** Taking the first ready sleeper of any semaphore out of turn is harmless. */
  lemma {:induction false} OutOfTurn(s: State, n: nat, w: Waiter)
    requires Inv(s) && AllSimple(s.pend) && First(s, s.pend, Some(n)) == Some(w)
    ensures InRange(w.sops, |s.vals|) && Inv(Complete(s, w))
    ensures Settle(s, None).state == Settle(Complete(s, w), None).state
    ensures SameOrder([Verdict(s, w)] + Settle(Complete(s, w), None).log, Settle(s, None).log)
    decreases |s.pend|
  {
    CompleteKeepsInv(s, w);
    FirstOverall(s, s.pend, n);
    var f := First(s, s.pend, None).value;
    if f != w {
      var m := f.sops[0].num;
      FirstOverall(s, s.pend, m);
      var sf, sw, both := Diamond(s, f, m, w, n);
      OutOfTurn(sf, n, w);
      OutOfTurn(sw, m, f);
      FirstIsOn(s, s.pend, n);
      SameWakes(Verdict(s, f), Verdict(s, w), Settle(s, None).log, Settle(sf, None).log,
                Settle(sw, None).log, Settle(both, None).log);
    }
  }

  lemma {:induction false} FirstIsOn(s: State, p: seq<Waiter>, n: nat)
    ensures First(s, p, Some(n)).Some? ==> OnSem(First(s, p, Some(n)).value, n)
  {
    if p != [] { FirstIsOn(s, p[1..], n); }
  }

  lemma {:induction false} SameWakes(f: Wake, w: Wake, all: seq<Wake>, lf: seq<Wake>, lw: seq<Wake>, rest: seq<Wake>)
    requires all == [f] + lf && forall n: nat :: !(OnSem(f.who, n) && OnSem(w.who, n))
    requires SameOrder([w] + rest, lf) && SameOrder([f] + rest, lw)
    ensures SameOrder([w] + lw, all)
  {
    SameAfter([f], [w] + rest, lf);
    SameAfter([w], [f] + rest, lw);
    SwapFirst(f, w, rest);
    assert [f, w] + rest == [f] + ([w] + rest) && [w, f] + rest == [w] + ([f] + rest);
  }

  lemma {:induction false} OthersBlockAlike(s: State, a: Waiter, n: nat)
    requires Inv(s) && AllSimple(s.pend) && a in s.pend && a.sops[0].num != n
    ensures InRange(a.sops, |s.vals|)
    ensures forall i :: 0 <= i < |s.pend| && OnSem(s.pend[i], n) ==>
                          Blocks(s, s.pend[i]) == Blocks(Complete(s, a), s.pend[i])
  {
    MemberOk(s, a);
    forall i | 0 <= i < |s.pend| && OnSem(s.pend[i], n)
      ensures Blocks(s, s.pend[i]) == Blocks(Complete(s, a), s.pend[i])
    {
      CompleteOther(s, a, s.pend[i]);
    }
  }

  /** A pass over one semaphore's sleepers, then a full pass: nothing differs
      from the full pass alone but the order of wake-ups across semaphores. */
  lemma {:induction false} OneSemaphoreFirst(s: State, n: nat)
    requires Inv(s) && AllSimple(s.pend)
    ensures Inv(Settle(s, Some(n)).state)
    ensures var a := Settle(s, Some(n));
            var b := Settle(a.state, None);
            var all := Settle(s, None);
            && AllSimple(a.state.pend)
            && b.state == all.state
            && SameOrder(a.log + b.log, all.log)
    decreases |s.pend|
  {
    var f := First(s, s.pend, Some(n));
    if f.Some? {
      var t := Complete(s, f.value);
      OutOfTurn(s, n, f.value);
      CompleteStaysSimple(s, f.value);
      OneSemaphoreFirst(t, n);
      var a := Settle(t, Some(n));
      OneMore(Verdict(s, f.value), a.log, Settle(a.state, None).log, Settle(t, None).log, Settle(s, None).log);
    } else {
      SameAlone(Settle(s, None).log);
    }
  }

  lemma {:induction false} OneMore(x: Wake, a: seq<Wake>, b: seq<Wake>, later: seq<Wake>, all: seq<Wake>)
    requires SameOrder(a + b, later) && SameOrder([x] + later, all)
    ensures SameOrder([x] + a + b, all)
  {
    SameAfter([x], a + b, later);
    assert [x] + a + b == [x] + (a + b);
  }
}
