/**
 Every step on a POSIX message queue keeps the invariant of MqProtocol.
 */
module MqProofs {
  import opened PrioList
  import opened MqQueue
  import opened MqProtocol

  // ---- Sums over all processes

  lemma {:induction false} HeldUpdate(tasks: seq<Task>, t: nat, x: Task, m: Msg)
    requires t < |tasks|
    ensures Held(tasks[t := x], m) == Held(tasks, m) - Holding(tasks[t], m) + Holding(x, m)
    ensures Open(tasks[t := x], m) == Open(tasks, m) - Sending(tasks[t], m) + Sending(x, m)
  {
    var r := tasks[t := x];
    if t == 0 {
      assert r[1..] == tasks[1..];
    } else {
      assert r[1..] == tasks[1..][t - 1 := x];
      HeldUpdate(tasks[1..], t - 1, x, m);
    }
  }

  /** Two tasks change: the owner of the record, then the waker. */
  lemma {:induction false} HeldAdvance(tasks: seq<Task>, w: nat, owner: Task, x: Task, m: Msg)
    requires w < |tasks| && tasks[w].pc.Handing? && tasks[w].pc.to < |tasks| && tasks[w].pc.to != w
    requires x == tasks[w].(pc := tasks[w].pc.(stage := tasks[w].pc.stage + 1))
    ensures var r, was := Advance(tasks, w, owner), tasks[tasks[w].pc.to];
            && Held(r, m) == Held(tasks, m) - Holding(was, m) + Holding(owner, m) - Holding(tasks[w], m) + Holding(x, m)
            && Open(r, m) == Open(tasks, m) - Sending(was, m) + Sending(owner, m)
  {
    var to := tasks[w].pc.to;
    HeldUpdate(tasks, to, owner, m);
    HeldUpdate(tasks[to := owner], w, x, m);
  }

  /** What one task's move means for the books of message m. */
  predicate Balanced(s: State, was: Task, x: Task, s': State, m: Msg) {
    && s'.submitted[m] + Holding(was, m) + multiset(s.queue)[m] + s.delivered[m] + s.dropped[m]
       == s.submitted[m] + Holding(x, m) + multiset(s'.queue)[m] + s'.delivered[m] + s'.dropped[m]
    && s'.submitted[m] + Sending(was, m) + s.sent[m] + s.dropped[m]
       == s.submitted[m] + Sending(x, m) + s'.sent[m] + s'.dropped[m]
  }

  ghost predicate AllBalanced(s: State, was: Task, x: Task, s': State) { forall m :: Balanced(s, was, x, s', m) }

  lemma {:induction false} BooksMove(s: State, t: nat, x: Task, s': State)
    requires Conserved(s) && t < |s.tasks| && s'.tasks == s.tasks[t := x] && AllBalanced(s, s.tasks[t], x, s')
    ensures Conserved(s')
  {
    forall m ensures BookOk(s', m) {
      assert BookOk(s, m) && Balanced(s, s.tasks[t], x, s', m);
      HeldUpdate(s.tasks, t, x, m);
    }
  }

  // ---- One task moves that does not hold the lock

  /** Process t may turn into x. */
  predicate MayBecome(tasks: seq<Task>, lock: Lock, t: nat, x: Task)
    requires t < |tasks|
  {
    var k := Stage(tasks, lock, t);
    && !tasks[t].pc.Handing? && !x.pc.Handing? && x.prio == tasks[t].prio
    && (if Sleepy(x.pc) then RecOk(k, x) else k == -1 || k == 4)
    && (0 <= k <= 3 ==> Sleepy(x.pc) && Sleepy(tasks[t].pc) && x.pc.call.Receive? == tasks[t].pc.call.Receive?)
  }

  lemma {:induction false} TaskMoves(s: State, t: nat, x: Task, s': State)
    requires Shape(s) && t < |s.tasks| && MayBecome(s.tasks, s.lock, t, x)
    requires s'.tasks == s.tasks[t := x] && s'.lock == s.lock
    ensures Shape(s') && Refilling(s') == Refilling(s)
  {
    forall u | 0 <= u < |s'.tasks| ensures TaskOk(s'.tasks, s'.lock, u) {
      assert TaskOk(s.tasks, s.lock, u);
    }
    if s.lock.By? {
      var w := s.lock.task;
      assert s'.tasks[w] == s.tasks[w];
    }
  }

  lemma {:induction false} LineStays(tasks: seq<Task>, t: nat, x: Task, l: Line, recv: bool)
    requires LineOk(tasks, l, recv) && t < |tasks| && x.prio == tasks[t].prio
    requires Stands(x, recv) == Stands(tasks[t], recv)
    ensures LineOk(tasks[t := x], l, recv)
  {
    var r := tasks[t := x];
    forall w | w in l.list ensures w.body < |r| && w == Place(r, w.body) && Stands(r[w.body], recv) {
      assert w.body < |tasks| && w == Place(tasks, w.body);
    }
    forall u | 0 <= u < |r| && Stands(r[u], recv) ensures Place(r, u) in l.list {
      assert Stands(tasks[u], recv) && Place(tasks, u) in l.list;
    }
  }

  lemma {:induction false} NotListed(tasks: seq<Task>, t: nat, l: Line, recv: bool)
    requires LineOk(tasks, l, recv) && t < |tasks| && !Stands(tasks[t], recv)
    ensures Place(tasks, t) !in l.list && Place(tasks, t) !in l.came
  {
    SortedDistinct(l.came);
  }

  lemma {:induction false} JoinedView(l: Line, w: Waiter)
    requires l.list == Sorted(l.came) && Distinct(l.came) && w !in l.came
    ensures Joined(l, w).list == Sorted(Joined(l, w).came) && Distinct(Joined(l, w).came)
  {
    SortedSnoc(l.came, w);
  }

  lemma {:induction false} JoinedMember(l: Line, w: Waiter, v: Waiter)
    ensures v in Joined(l, w).list <==> v in l.list || v == w
  {
    var p := Spot(l.list, w.key);
    assert l.list == l.list[..p] + l.list[p..];
  }

  lemma {:induction false} LineJoins(tasks: seq<Task>, t: nat, x: Task, l: Line, recv: bool)
    requires LineOk(tasks, l, recv) && t < |tasks| && x.prio == tasks[t].prio
    requires Stands(x, recv) && !Stands(tasks[t], recv)
    ensures LineOk(tasks[t := x], Joined(l, Place(tasks, t)), recv)
  {
    var r, w := tasks[t := x], Place(tasks, t);
    NotListed(tasks, t, l, recv);
    JoinedView(l, w);
    var l' := Joined(l, w);
    assert Listed(r, l'.list, recv) by {
      forall v | v in l'.list ensures v.body < |r| && v == Place(r, v.body) && Stands(r[v.body], recv) {
        JoinedMember(l, w, v);
        if v != w { assert v in l.list && v.body < |tasks| && v == Place(tasks, v.body); }
      }
    }
    assert AllListed(r, l'.list, recv) by {
      forall u | 0 <= u < |r| && Stands(r[u], recv) ensures Place(r, u) in l'.list {
        if u != t { assert Place(tasks, u) in l.list; }
        JoinedMember(l, w, Place(tasks, u));
      }
    }
  }

  /** Leaving a line keeps it the view of those who remain. */
  lemma {:induction false} LeftView(l: Line, w: Waiter)
    requires l.list == Sorted(l.came) && Distinct(l.came) && w in l.list
    ensures Left(l, w).list == Sorted(Left(l, w).came) && Distinct(Left(l, w).came)
  {
    SortedDistinct(l.came);
    LeavingCommutes(l.came, w);
    WithoutMembers(l.came, w);
  }

  lemma {:induction false} LeftMember(l: Line, w: Waiter, v: Waiter)
    requires l.list == Sorted(l.came) && Distinct(l.came)
    ensures v in Left(l, w).list <==> v in l.list && v != w
  {
    SortedDistinct(l.came);
    WithoutMembers(l.list, w);
  }

  lemma {:induction false} LineLeft(tasks: seq<Task>, t: nat, x: Task, l: Line, recv: bool)
    requires LineOk(tasks, l, recv) && t < |tasks| && x.prio == tasks[t].prio
    requires !Stands(x, recv) && Stands(tasks[t], recv)
    ensures LineOk(tasks[t := x], Left(l, Place(tasks, t)), recv)
  {
    var r, w := tasks[t := x], Place(tasks, t);
    assert w in l.list;
    LeftView(l, w);
    var l' := Left(l, w);
    assert Listed(r, l'.list, recv) by {
      forall v | v in l'.list ensures v.body < |r| && v == Place(r, v.body) && Stands(r[v.body], recv) {
        LeftMember(l, w, v);
        assert v in l.list && v.body < |tasks| && v == Place(tasks, v.body);
      }
    }
    assert AllListed(r, l'.list, recv) by {
      forall u | 0 <= u < |r| && Stands(r[u], recv) ensures Place(r, u) in l'.list {
        assert Place(tasks, u) in l.list;
        LeftMember(l, w, Place(tasks, u));
      }
    }
  }

  /** A move that changes no line. */
  lemma {:induction false} PlainMove(s: State, t: nat, x: Task, s': State)
    requires Shape(s) && Lines(s) && t < |s.tasks| && MayBecome(s.tasks, s.lock, t, x)
    requires Stands(x, true) == Stands(s.tasks[t], true) && Stands(x, false) == Stands(s.tasks[t], false)
    requires s'.tasks == s.tasks[t := x] && s'.lock == s.lock && s'.senders == s.senders && s'.receivers == s.receivers
    ensures Shape(s') && Lines(s') && Refilling(s') == Refilling(s)
  {
    TaskMoves(s, t, x, s');
    LineStays(s.tasks, t, x, s.senders, false);
    LineStays(s.tasks, t, x, s.receivers, true);
  }

  lemma {:induction false} BeginBalanced(s: State, t: nat, call: Call)
    requires t < |s.tasks| && s.tasks[t].pc.Out?
    ensures AllBalanced(s, s.tasks[t], s.tasks[t].(pc := Enter(call)), BeginStep(s, t, call))
  {
  }

  lemma {:induction false} BeginKeeps(s: State, t: nat, call: Call)
    requires Inv(s) && Enabled(s, Begin(t, call))
    ensures Inv(BeginStep(s, t, call))
  {
    var x, s' := s.tasks[t].(pc := Enter(call)), BeginStep(s, t, call);
    assert TaskOk(s.tasks, s.lock, t);
    PlainMove(s, t, x, s');
    BeginBalanced(s, t, call);
    BooksMove(s, t, x, s');
  }

  lemma {:induction false} SleepBalanced(s: State, t: nat)
    requires t < |s.tasks| && s.tasks[t].pc.Enter?
    ensures AllBalanced(s, s.tasks[t], Sleeping(s.tasks[t]), Sleep(s, t))
  {
  }

  lemma {:induction false} SleepLines(s: State, t: nat)
    requires Lines(s) && t < |s.tasks| && s.tasks[t].pc.Enter?
    ensures Lines(Sleep(s, t))
  {
    var x := Sleeping(s.tasks[t]);
    if x.pc.call.Receive? {
      LineStays(s.tasks, t, x, s.senders, false);
      LineJoins(s.tasks, t, x, s.receivers, true);
    } else {
      LineJoins(s.tasks, t, x, s.senders, false);
      LineStays(s.tasks, t, x, s.receivers, true);
    }
  }

  lemma {:induction false} SleepKeeps(s: State, t: nat)
    requires Inv(s) && t < |s.tasks| && s.lock.Free? && s.tasks[t].pc.Enter?
    requires if s.tasks[t].pc.call.Receive? then s.queue == [] else |s.queue| == s.cap
    ensures Inv(Sleep(s, t))
  {
    var x, s' := Sleeping(s.tasks[t]), Sleep(s, t);
    TaskMoves(s, t, x, s');
    SleepLines(s, t);
    SleepBalanced(s, t);
    BooksMove(s, t, x, s');
  }

  lemma {:induction false} FailBalanced(s: State, t: nat)
    requires t < |s.tasks| && s.tasks[t].pc.Enter?
    ensures AllBalanced(s, s.tasks[t], Gone(s.tasks[t]), Fail(s, t))
  {
  }

  lemma {:induction false} FailKeeps(s: State, t: nat)
    requires Inv(s) && t < |s.tasks| && s.lock.Free? && s.tasks[t].pc.Enter?
    ensures Inv(Fail(s, t))
  {
    var x, s' := Gone(s.tasks[t]), Fail(s, t);
    PlainMove(s, t, x, s');
    FailBalanced(s, t);
    BooksMove(s, t, x, s');
  }

  /** A message goes into the queue. */
  lemma {:induction false} QueueGrows(queue: seq<Msg>, arrived: seq<Msg>, m: Msg)
    requires queue == Sorted(arrived)
    ensures Insert(queue, m) == Sorted(arrived + [m]) && |Insert(queue, m)| == |queue| + 1
    ensures multiset(Insert(queue, m)) == multiset(queue) + multiset{m}
  {
    SortedAscends(arrived);
    SortedSnoc(arrived, m);
    InsertAscends(queue, m);
  }

  /** The best message comes out. */
  lemma {:induction false} QueueShrinks(queue: seq<Msg>, arrived: seq<Msg>, n: nat)
    requires queue == Sorted(arrived) && |queue| == n + 1
    ensures queue[..n] == Sorted(Served(arrived)) && queue[n] == arrived[Best(arrived)]
  {
    ServesBest(arrived);
  }

  lemma {:induction false} TakeCount(queue: seq<Msg>, n: nat, m: Msg)
    requires |queue| == n + 1
    ensures multiset(queue)[m] == multiset(queue[..n])[m] + if queue[n] == m then 1 else 0
  {
    assert queue == queue[..n] + [queue[n]];
  }

  lemma {:induction false} PutBalanced(s: State, t: nat)
    requires t < |s.tasks| && s.tasks[t].pc.Enter? && s.tasks[t].pc.call.Send? && s.queue == Sorted(s.arrived)
    requires |s.queue| != s.cap && s.receivers.list == []
    ensures AllBalanced(s, s.tasks[t], Gone(s.tasks[t]), GoSend(s, t))
  {
    QueueGrows(s.queue, s.arrived, s.tasks[t].pc.call.msg);
  }

  lemma {:induction false} PutKeeps(s: State, t: nat)
    requires Inv(s) && t < |s.tasks| && s.lock.Free? && s.tasks[t].pc.Enter? && s.tasks[t].pc.call.Send?
    requires |s.queue| != s.cap && s.receivers.list == []
    ensures Inv(GoSend(s, t))
  {
    var x, s' := Gone(s.tasks[t]), GoSend(s, t);
    QueueGrows(s.queue, s.arrived, s.tasks[t].pc.call.msg);
    PlainMove(s, t, x, s');
    PutBalanced(s, t);
    BooksMove(s, t, x, s');
  }

  lemma {:induction false} TakeBalanced(s: State, t: nat)
    requires t < |s.tasks| && s.tasks[t].pc.Enter? && s.tasks[t].pc.call.Receive?
    requires s.queue != [] && s.senders.list == []
    ensures AllBalanced(s, s.tasks[t], Gone(s.tasks[t]), GoReceive(s, t))
  {
    var n, s' := |s.queue| - 1, GoReceive(s, t);
    forall m ensures Balanced(s, s.tasks[t], Gone(s.tasks[t]), s', m) {
      TakeCount(s.queue, n, m);
    }
  }

  lemma {:induction false} TakeKeeps(s: State, t: nat)
    requires Inv(s) && t < |s.tasks| && s.lock.Free? && s.tasks[t].pc.Enter? && s.tasks[t].pc.call.Receive?
    requires s.queue != [] && s.senders.list == []
    ensures Inv(GoReceive(s, t))
  {
    var x, s' := Gone(s.tasks[t]), GoReceive(s, t);
    assert QueueOk(s') by { QueueShrinks(s.queue, s.arrived, |s.queue| - 1); }
    PlainMove(s, t, x, s');
    TakeBalanced(s, t);
    BooksMove(s, t, x, s');
  }

  // ---- The lock holder moves

  /** The end of a line is a task whose record is linked. */
  lemma {:induction false} TailStands(tasks: seq<Task>, l: Line, recv: bool)
    requires LineOk(tasks, l, recv) && l.list != []
    ensures var to := l.list[|l.list| - 1].body;
            to < |tasks| && Stands(tasks[to], recv)
  {
    assert l.list[|l.list| - 1] in l.list;
  }

  lemma {:induction false} HolderStarts(s: State, t: nat, to: nat, mine: seq<Msg>, s': State)
    requires Shape(s) && Lines(s) && s.lock.Free? && t < |s.tasks| && s.tasks[t].pc.Enter?
    requires to < |s.tasks| && Stands(s.tasks[to], s.tasks[t].pc.call.Send?)
    requires s.tasks[t].pc.call.Receive? ==> |mine| == 1
    requires s'.lock == By(t) && s'.tasks == s.tasks[t := s.tasks[t].(pc := Handing(s.tasks[t].pc.call, to, 0, mine))]
    requires s'.senders == s.senders && s'.receivers == s.receivers
    ensures Shape(s') && Lines(s')
  {
    LineStays(s.tasks, t, s'.tasks[t], s.senders, false);
    LineStays(s.tasks, t, s'.tasks[t], s.receivers, true);
    forall u | 0 <= u < |s'.tasks| ensures TaskOk(s'.tasks, s'.lock, u) {
      assert TaskOk(s.tasks, s.lock, u);
    }
  }

  lemma {:induction false} HandSendKeeps(s: State, t: nat)
    requires Inv(s) && t < |s.tasks| && s.lock.Free? && s.tasks[t].pc.Enter? && s.tasks[t].pc.call.Send?
    requires |s.queue| != s.cap && s.receivers.list != []
    ensures Inv(GoSend(s, t))
  {
    var s' := GoSend(s, t);
    var x := s'.tasks[t];
    TailStands(s.tasks, s.receivers, true);
    HolderStarts(s, t, x.pc.to, [], s');
    assert AllBalanced(s, s.tasks[t], x, s');
    BooksMove(s, t, x, s');
  }

  lemma {:induction false} HandBalanced(s: State, t: nat, x: Task)
    requires t < |s.tasks| && s.tasks[t].pc.Enter? && s.tasks[t].pc.call.Receive?
    requires s.queue != [] && s.senders.list != [] && x == GoReceive(s, t).tasks[t]
    ensures AllBalanced(s, s.tasks[t], x, GoReceive(s, t))
  {
    var n, s' := |s.queue| - 1, GoReceive(s, t);
    forall m ensures Balanced(s, s.tasks[t], x, s', m) {
      TakeCount(s.queue, n, m);
    }
  }

  lemma {:induction false} HandReceiveKeeps(s: State, t: nat)
    requires Inv(s) && t < |s.tasks| && s.lock.Free? && s.tasks[t].pc.Enter? && s.tasks[t].pc.call.Receive?
    requires s.queue != [] && s.senders.list != []
    ensures Inv(GoReceive(s, t))
  {
    var s' := GoReceive(s, t);
    var x := s'.tasks[t];
    assert QueueOk(s') by { QueueShrinks(s.queue, s.arrived, |s.queue| - 1); }
    TailStands(s.tasks, s.senders, false);
    HolderStarts(s, t, x.pc.to, x.pc.mine, s');
    HandBalanced(s, t, x);
    BooksMove(s, t, x, s');
  }

  lemma {:induction false} HolderAdvances(s: State, w: nat, k: int, owner: Task, s': State)
    requires Shape(s) && w < |s.tasks| && CanTouch(s, w, k) && 0 <= k <= 3
    requires Sleepy(owner.pc) && RecOk(k + 1, owner)
    requires owner.pc.call.Receive? == s.tasks[s.tasks[w].pc.to].pc.call.Receive?
    requires s'.lock == s.lock && s'.tasks == Advance(s.tasks, w, owner)
    ensures Shape(s') && s.lock == By(w) && !Refilling(s')
  {
    assert TaskOk(s.tasks, s.lock, w);
    forall u | 0 <= u < |s'.tasks| ensures TaskOk(s'.tasks, s'.lock, u) {
      assert TaskOk(s.tasks, s.lock, u);
    }
  }

  lemma {:induction false} TouchBooks(s: State, w: nat, k: int, owner: Task, m: Msg)
    requires w < |s.tasks| && CanTouch(s, w, k) && 1 <= k <= 3 && Sleepy(owner.pc) && BookOk(s, m)
    requires var was := s.tasks[s.tasks[w].pc.to];
             owner.pc.call == was.pc.call && owner.rec.listed == was.rec.listed && owner.rec.got == was.rec.got
    ensures BookOk(TouchStep(s, w, owner), m)
  {
    HeldAdvance(s.tasks, w, owner, TouchStep(s, w, owner).tasks[w], m);
  }

  lemma {:induction false} TouchKeeps(s: State, w: nat, k: int, owner: Task)
    requires Inv(s) && w < |s.tasks| && CanTouch(s, w, k) && 1 <= k <= 3
    requires Sleepy(owner.pc) && RecOk(k + 1, owner)
    requires var was := s.tasks[s.tasks[w].pc.to];
             owner.pc.call == was.pc.call && owner.prio == was.prio && owner.rec.listed == was.rec.listed
             && owner.rec.got == was.rec.got
    ensures Inv(TouchStep(s, w, owner))
  {
    var s' := TouchStep(s, w, owner);
    HolderAdvances(s, w, k, owner, s');
    AdvanceLines(s.tasks, w, owner, s.senders, false);
    AdvanceLines(s.tasks, w, owner, s.receivers, true);
    forall m ensures BookOk(s', m) {
      assert BookOk(s, m);
      TouchBooks(s, w, k, owner, m);
    }
  }

  lemma {:induction false} AdvanceLines(tasks: seq<Task>, w: nat, owner: Task, l: Line, recv: bool)
    requires w < |tasks| && tasks[w].pc.Handing? && tasks[w].pc.to < |tasks| && tasks[w].pc.to != w
    requires LineOk(tasks, l, recv)
    requires Stands(owner, recv) == Stands(tasks[tasks[w].pc.to], recv) && owner.prio == tasks[tasks[w].pc.to].prio
    ensures LineOk(Advance(tasks, w, owner), l, recv)
  {
    var to := tasks[w].pc.to;
    LineStays(tasks, to, owner, l, recv);
    LineStays(tasks[to := owner], w, Advance(tasks, w, owner)[w], l, recv);
  }

  lemma {:induction false} AdvanceLeft(tasks: seq<Task>, w: nat, owner: Task, l: Line, recv: bool)
    requires w < |tasks| && tasks[w].pc.Handing? && tasks[w].pc.to < |tasks| && tasks[w].pc.to != w
    requires LineOk(tasks, l, recv)
    requires !Stands(owner, recv) && Stands(tasks[tasks[w].pc.to], recv) && owner.prio == tasks[tasks[w].pc.to].prio
    ensures LineOk(Advance(tasks, w, owner), Left(l, Place(tasks, tasks[w].pc.to)), recv)
  {
    var to := tasks[w].pc.to;
    LineLeft(tasks, to, owner, l, recv);
    LineStays(tasks[to := owner], w, Advance(tasks, w, owner)[w], Left(l, Place(tasks, to)), recv);
  }

  lemma {:induction false} GrabLines(s: State, w: nat, owner: Task, s': State)
    requires Shape(s) && Lines(s) && w < |s.tasks| && CanTouch(s, w, 0)
    requires s' == GrabStep(s, w) && owner == Handed(s.tasks[s.tasks[w].pc.to], s.tasks[w].pc.call)
    ensures Lines(s')
  {
    assert TaskOk(s.tasks, s.lock, w) && TaskOk(s.tasks, s.lock, s.tasks[w].pc.to);
    if s.tasks[w].pc.call.Send? {
      AdvanceLines(s.tasks, w, owner, s.senders, false);
      AdvanceLeft(s.tasks, w, owner, s.receivers, true);
    } else {
      AdvanceLeft(s.tasks, w, owner, s.senders, false);
      AdvanceLines(s.tasks, w, owner, s.receivers, true);
    }
  }

  lemma {:induction false} GrabSendBooks(s: State, w: nat, owner: Task, s': State, m: Msg)
    requires w < |s.tasks| && CanTouch(s, w, 0) && s.tasks[w].pc.call.Send? && BookOk(s, m)
    requires s' == GrabStep(s, w) && owner == Handed(s.tasks[s.tasks[w].pc.to], s.tasks[w].pc.call)
    requires s.tasks[s.tasks[w].pc.to].rec.got == []
    ensures BookOk(s', m)
  {
    HeldAdvance(s.tasks, w, owner, s'.tasks[w], m);
  }

  lemma {:induction false} GrowCount(queue: seq<Msg>, arrived: seq<Msg>, call: Call, m: Msg)
    requires queue == Sorted(arrived) && call.Send?
    ensures multiset(Insert(queue, call.msg))[m] == multiset(queue)[m] + One(call, m)
  {
    QueueGrows(queue, arrived, call.msg);
  }

  lemma {:induction false} GrabReceiveHeld(tasks: seq<Task>, w: nat, to: nat, owner: Task, m: Msg)
    requires w < |tasks| && tasks[w].pc.Handing? && tasks[w].pc.to == to < |tasks| && to != w && tasks[w].pc.call.Receive?
    requires Sleepy(tasks[to].pc) && tasks[to].pc.call.Send? && tasks[to].rec.listed
    requires owner == Handed(tasks[to], tasks[w].pc.call)
    ensures Held(Advance(tasks, w, owner), m) + One(tasks[to].pc.call, m) == Held(tasks, m)
    ensures Open(Advance(tasks, w, owner), m) == Open(tasks, m)
  {
    HeldAdvance(tasks, w, owner, Advance(tasks, w, owner)[w], m);
  }

  lemma {:induction false} GrabReceiveBooks(s: State, w: nat, to: nat, s': State, m: Msg)
    requires w < |s.tasks| && CanTouch(s, w, 0) && s.tasks[w].pc.call.Receive? && s.queue == Sorted(s.arrived) && BookOk(s, m)
    requires s' == GrabStep(s, w) && to == s.tasks[w].pc.to && s.tasks[to].rec.listed
    ensures BookOk(s', m)
  {
    GrabReceiveHeld(s.tasks, w, to, Handed(s.tasks[to], s.tasks[w].pc.call), m);
    GrowCount(s.queue, s.arrived, s.tasks[to].pc.call, m);
  }

  lemma {:induction false} GrabKeeps(s: State, w: nat)
    requires Inv(s) && w < |s.tasks| && CanTouch(s, w, 0)
    ensures Inv(GrabStep(s, w))
  {
    var s', to := GrabStep(s, w), s.tasks[w].pc.to;
    var owner := Handed(s.tasks[to], s.tasks[w].pc.call);
    assert TaskOk(s.tasks, s.lock, w) && TaskOk(s.tasks, s.lock, to);
    GrabLines(s, w, owner, s');
    HolderAdvances(s, w, 0, owner, s');
    forall m ensures BookOk(s', m) {
      assert BookOk(s, m);
      if s.tasks[w].pc.call.Send? { GrabSendBooks(s, w, owner, s', m); } else { GrabReceiveBooks(s, w, to, s', m); }
    }
    if s.tasks[w].pc.call.Receive? {
      QueueGrows(s.queue, s.arrived, s.tasks[to].pc.call.msg);
      assert Place(s.tasks, to) in s.senders.list;
    } else {
      assert Place(s.tasks, to) in s.receivers.list;
    }
  }

  lemma {:induction false} UnlockBalanced(s: State, w: nat)
    requires w < |s.tasks| && s.tasks[w].pc.Handing? && s.tasks[w].pc.stage == 4
    ensures AllBalanced(s, s.tasks[w], Gone(s.tasks[w]), UnlockStep(s, w))
  {
  }

  lemma {:induction false} HolderEnds(s: State, w: nat, s': State)
    requires Shape(s) && w < |s.tasks| && s.lock == By(w) && s.tasks[w].pc.Handing? && s.tasks[w].pc.stage == 4
    requires s'.lock.Free? && s'.tasks == s.tasks[w := Gone(s.tasks[w])]
    ensures Shape(s')
  {
    forall u | 0 <= u < |s'.tasks| ensures TaskOk(s'.tasks, s'.lock, u) {
      assert TaskOk(s.tasks, s.lock, u);
    }
  }

  lemma {:induction false} UnlockKeeps(s: State, w: nat)
    requires Inv(s) && Enabled(s, Unlock(w))
    ensures Inv(UnlockStep(s, w))
  {
    var s', x := UnlockStep(s, w), Gone(s.tasks[w]);
    assert TaskOk(s.tasks, s.lock, w);
    assert Shape(s') by { HolderEnds(s, w, s'); }
    LineStays(s.tasks, w, x, s.senders, false);
    LineStays(s.tasks, w, x, s.receivers, true);
    UnlockBalanced(s, w);
    BooksMove(s, w, x, s');
  }

  // ---- The sleeper moves

  lemma {:induction false} LeaveBalanced(s: State, t: nat)
    requires t < |s.tasks| && Sleepy(s.tasks[t].pc) && !s.tasks[t].rec.listed
    ensures AllBalanced(s, s.tasks[t], Gone(s.tasks[t]), Leave(s, t))
  {
  }

  lemma {:induction false} ReadyMayLeave(s: State, t: nat)
    requires Shape(s) && t < |s.tasks| && Sleepy(s.tasks[t].pc) && s.tasks[t].rec.state == Ready
    ensures MayBecome(s.tasks, s.lock, t, Gone(s.tasks[t])) && !s.tasks[t].rec.listed
  {
    assert TaskOk(s.tasks, s.lock, t);
  }

  lemma {:induction false} LeaveKeeps(s: State, t: nat)
    requires Inv(s) && t < |s.tasks| && Sleepy(s.tasks[t].pc) && s.tasks[t].rec.state == Ready
    ensures Inv(Leave(s, t))
  {
    var s', x := Leave(s, t), Gone(s.tasks[t]);
    ReadyMayLeave(s, t);
    PlainMove(s, t, x, s');
    LeaveBalanced(s, t);
    BooksMove(s, t, x, s');
  }

  lemma {:induction false} GiveUpBalanced(s: State, t: nat)
    requires t < |s.tasks| && Sleepy(s.tasks[t].pc) && s.tasks[t].rec.listed
    requires s.tasks[t].pc.call.Receive? ==> s.tasks[t].rec.got == []
    ensures AllBalanced(s, s.tasks[t], Gone(s.tasks[t]), GiveUp(s, t))
  {
  }

  lemma {:induction false} GiveUpLines(s: State, t: nat)
    requires Lines(s) && t < |s.tasks| && Sleepy(s.tasks[t].pc) && s.tasks[t].rec.listed
    ensures Lines(GiveUp(s, t))
    ensures if s.tasks[t].pc.call.Receive? then s.receivers.list != [] else s.senders.list != []
  {
    var x := Gone(s.tasks[t]);
    if s.tasks[t].pc.call.Receive? {
      LineStays(s.tasks, t, x, s.senders, false);
      LineLeft(s.tasks, t, x, s.receivers, true);
      assert Place(s.tasks, t) in s.receivers.list;
    } else {
      LineLeft(s.tasks, t, x, s.senders, false);
      LineStays(s.tasks, t, x, s.receivers, true);
      assert Place(s.tasks, t) in s.senders.list;
    }
  }

  lemma {:induction false} GiveUpKeeps(s: State, t: nat)
    requires Inv(s) && t < |s.tasks| && Sleepy(s.tasks[t].pc) && s.tasks[t].rec.state != Ready && s.lock.Free?
    ensures Inv(GiveUp(s, t))
  {
    var s', x := GiveUp(s, t), Gone(s.tasks[t]);
    assert TaskOk(s.tasks, s.lock, t);
    TaskMoves(s, t, x, s');
    GiveUpLines(s, t);
    GiveUpBalanced(s, t);
    BooksMove(s, t, x, s');
  }

  lemma {:induction false} SleeperBalanced(s: State, was: Task, x: Task, s': State)
    requires Sleepy(was.pc) && Sleepy(x.pc) && x.pc.call == was.pc.call && x.rec == was.rec
    requires s' == s.(tasks := s'.tasks)
    ensures AllBalanced(s, was, x, s')
  {
  }

  lemma {:induction false} SleeperKeeps(s: State, t: nat, pc: Pc)
    requires Inv(s) && t < |s.tasks| && Sleepy(s.tasks[t].pc) && Sleepy(pc) && pc.call == s.tasks[t].pc.call
    ensures Inv(s.(tasks := s.tasks[t := s.tasks[t].(pc := pc)]))
  {
    var x := s.tasks[t].(pc := pc);
    var s' := s.(tasks := s.tasks[t := x]);
    SleeperMayMove(s, t, x);
    PlainMove(s, t, x, s');
    SleeperBalanced(s, s.tasks[t], x, s');
    BooksMove(s, t, x, s');
  }

  lemma {:induction false} SleeperMayMove(s: State, t: nat, x: Task)
    requires Shape(s) && t < |s.tasks| && Sleepy(s.tasks[t].pc) && x == s.tasks[t].(pc := x.pc)
    requires Sleepy(x.pc) && x.pc.call == s.tasks[t].pc.call
    ensures MayBecome(s.tasks, s.lock, t, x)
  {
    assert TaskOk(s.tasks, s.lock, t);
  }

  // ---- All steps

  lemma {:induction false} GoKeeps(s: State, t: nat)
    requires Inv(s) && Enabled(s, Go(t))
    ensures Inv(Step(s, Go(t)))
  {
    var call := s.tasks[t].pc.call;
    if call.Send? {
      if |s.queue| == s.cap {
        if call.block { SleepKeeps(s, t); } else { FailKeeps(s, t); }
      } else if s.receivers.list != [] {
        HandSendKeeps(s, t);
      } else {
        PutKeeps(s, t);
      }
    } else if s.queue == [] {
      if call.block { SleepKeeps(s, t); } else { FailKeeps(s, t); }
    } else if s.senders.list != [] {
      HandReceiveKeeps(s, t);
    } else {
      TakeKeeps(s, t);
    }
  }

  lemma {:induction false} WakerKeeps(s: State, e: Event)
    requires Inv(s) && Enabled(s, e) && (e.Pend? || e.Wake? || e.Publish?)
    ensures Inv(Step(s, e))
  {
    var owner := s.tasks[s.tasks[e.t].pc.to];
    assert TaskOk(s.tasks, s.lock, e.t) && TaskOk(s.tasks, s.lock, s.tasks[e.t].pc.to);
    match e
    case Pend(w) => TouchKeeps(s, w, 1, SetState(owner, Pending));
    case Wake(w) => TouchKeeps(s, w, 2, Awake(owner));
    case Publish(w) => TouchKeeps(s, w, 3, SetState(owner, Ready));
  }

  lemma {:induction false} StepKeeps(s: State, e: Event)
    requires Inv(s) && Enabled(s, e)
    ensures Inv(Step(s, e))
  {
    match e
    case Begin(t, call) => BeginKeeps(s, t, call);
    case Go(t) => GoKeeps(s, t);
    case Grab(w) => GrabKeeps(s, w);
    case Unlock(w) => UnlockKeeps(s, w);
    case Stir(t, expired) => SleeperKeeps(s, t, Polling(s.tasks[t].pc.call, expired));
    case Poll(t) =>
      if s.tasks[t].rec.state == Ready { LeaveKeeps(s, t); }
      else if s.tasks[t].rec.state == Idle { SleeperKeeps(s, t, Relocking(s.tasks[t].pc.call, s.tasks[t].pc.expired)); }
    case Relock(t, signal) =>
      if s.tasks[t].rec.state == Ready { LeaveKeeps(s, t); }
      else if signal || s.tasks[t].pc.expired { GiveUpKeeps(s, t); }
      else { SleeperKeeps(s, t, Asleep(s.tasks[t].pc.call)); }
    case _ => WakerKeeps(s, e);
  }
}
