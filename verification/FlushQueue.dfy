/**
 The request queue fields that block/blk-flush.c updates in place.  The methods
 follow the code, including the live list walked by flush_end_io and the
 BUG_ON checks (assertions here), and are proved against the state machine.
 */
module FlushQueue {
  import opened FlushModel
  import opened FlushProofs
  import FlushRuns

  class Queue {
    var pendIdx: nat
    var runIdx: nat
    var lists: seq<seq<nat>>
    var dataInFlight: seq<nat>
    var queueHead: seq<Item>
    var seqs: map<nat, set<Step>>
    var since: int
    const hz: nat
    // the driver's side and the history
    ghost var flushAtDevice: bool
    ghost var dataAtDevice: set<nat>
    ghost var need: map<nat, set<Step>>
    ghost var flushes: nat
    ghost var trace: seq<Act>

    ghost function View(): State
      reads this
    {
      State(pendIdx, runIdx, lists, dataInFlight, queueHead, flushAtDevice, dataAtDevice, seqs, need, since, hz,
            flushes, trace)
    }

    /** A queue nothing has been submitted to. */
    constructor (hz: nat)
      ensures View() == FlushRuns.Idle(hz) && Inv(View())
    {
      pendIdx, runIdx, lists, dataInFlight, queueHead := 0, 0, [[], []], [], [];
      seqs, since := map[], 0;
      this.hz := hz;
      flushAtDevice, dataAtDevice, need, flushes, trace := false, {}, map[], 0, [];
    }

    /** Every queue the methods can produce has its whole history in order. */
    lemma {:induction false} HistoryInOrder(p: nat, id: nat)
      requires Inv(View()) && p < |trace|
      ensures FlushRuns.InOrder(View(), p, id)
    {
      FlushRuns.InvOrders(View(), p, id);
    }

    /** blk_kick_flush */
    method KickFlush(now: int) returns (issued: bool)
      requires |lists| == 2 && pendIdx < 2
      modifies this
      ensures View() == Kick(old(View()), now) && issued == (View() != old(View()))
    {
      if pendIdx != runIdx || lists[pendIdx] == [] { return false; }
      if dataInFlight != [] && now < since + 5 * hz { return false; }
      pendIdx := Flip(pendIdx);
      queueHead := queueHead + [FlushRq];
      trace := trace + [FlushIssued(flushes)];
      flushes := flushes + 1;
      return true;
    }

    /** blk_flush_complete_seq, for a request already off its list: true if
        something was put on the dispatch list. */
    method CompleteSequence(id: nat, steps: set<Step>, ok: bool, now: int) returns (queued: bool)
      requires |lists| == 2 && pendIdx < 2 && id in seqs && seqs[id] !! steps
      requires DataRq(id) !in queueHead
      modifies this
      ensures View() == CompleteSeq(old(View()), id, steps, ok, now)
      ensures queued <==> |queueHead| > |old(queueHead)|
    {
      queued := false;
      var done := seqs[id] + steps;
      seqs := seqs[id := done];
      var cur := if ok then CurSeq(done) else AllDone;
      if cur.AllDone? {
        assert DataRq(id) !in queueHead;
        seqs := seqs - {id};
        trace := trace + [Finished(id, ok)];
      } else if cur.step == Data {
        dataInFlight := dataInFlight + [id];
        queueHead := [DataRq(id)] + queueHead;
        trace := trace + [DataIssued(id)];
        queued := true;
      } else {
        if lists[pendIdx] == [] { since := now; }
        lists := lists[pendIdx := lists[pendIdx] + [id]];
      }
      assert View() == Advance(old(View()), id, steps, ok, now);
      var issued := KickFlush(now);
      queued := queued || issued;
    }

    /** blk_insert_flush */
    method InsertFlush(caps: Caps, rq: Rq, now: int)
      requires Inv(View()) && Submittable(View(), caps, rq)
      modifies this
      ensures Inv(View()) && View() == Insert(old(View()), caps, rq, now)
    {
      InsertKeeps(View(), caps, rq, now);
      var policy := Policy(caps, rq);
      if Data in policy && !(Pre in policy || Post in policy) {
        queueHead := queueHead + [PlainRq(rq.id)];
        return;
      }
      ghost var s := View();
      assert rq.id !in seqs;
      NoPlace(s, rq.id);
      NotQueued(s, rq.id);
      Join(rq.id, policy);
      var _ := CompleteSequence(rq.id, {}, true, now);
    }

    method Join(id: nat, policy: set<Step>)
      modifies this
      ensures View() == Joined(old(View()), id, policy)
    {
      seqs := seqs[id := Actions - policy];
      need := need[id := policy];
      trace := trace + [Inserted(id)];
    }

    /** The driver takes the head of the dispatch list. */
    method FetchRequest() returns (item: Item)
      requires Inv(View()) && queueHead != []
      modifies this
      ensures Inv(View()) && View() == Fetch(old(View())) && item == old(queueHead[0])
    {
      FetchKeeps(View());
      item := queueHead[0];
      queueHead := queueHead[1..];
      if item == FlushRq { flushAtDevice := true; }
      if item.DataRq? { dataAtDevice := dataAtDevice + {item.id}; }
    }

    /** flush_data_end_io: true if the queue has to be run. */
    method FlushDataEndIo(id: nat, ok: bool, now: int) returns (run: bool)
      requires Inv(View()) && id in dataAtDevice
      modifies this
      ensures old(id in seqs) && Inv(View()) && View() == DataEnd(old(View()), id, ok, now)
    {
      ghost var s := View();
      DataEndKeeps(s, id, ok, now);
      AtDevice(s, id);
      TakeOffData(id, ok);
      run := CompleteSequence(id, {Data}, ok, now);
    }

    method TakeOffData(id: nat, ok: bool)
      modifies this`dataInFlight, this`dataAtDevice, this`trace
      ensures View() == DataOff(old(View()), id, ok)
    {
      dataInFlight := Remove(dataInFlight, id);
      dataAtDevice := dataAtDevice - {id};
      trace := trace + [DataEnded(id, ok)];
    }

    /** Account the end of the flush; the requests stay on their list. */
    method AccountFlush(ok: bool)
      requires flushes > 0
      modifies this
      ensures View() == Accounted(old(View()), ok)
    {
      runIdx := Flip(runIdx);
      flushAtDevice := false;
      trace := trace + [FlushEnded(flushes - 1, ok)];
    }

    method TakeFirst(r: nat) returns (rq: nat)
      requires r < |lists| && lists[r] != []
      modifies this
      ensures View() == old(View().(lists := lists[r := lists[r][1..]])) && rq == old(lists[r][0])
    {
      rq := lists[r][0];
      lists := lists[r := lists[r][1..]];
    }

    /** One turn of the walk: the first request of the running list moves on. */
    method VisitFirst(r: nat, ok: bool, now: int, ghost m: State) returns (queued: bool, ghost m': State)
      requires WalkOk(View(), m, r, ok) && m.runIdx == Flip(r) && lists[r] != []
      modifies this
      ensures WalkOk(View(), m', r, ok) && m'.runIdx == Flip(r) && lists[r] == old(lists[r])[1..]
      ensures |m.lists| == 2 && m.pendIdx < 2 && |m'.lists| == 2 && m'.pendIdx < 2
      ensures PushOn(m, old(lists[r]), ok, now) == PushOn(m', lists[r], ok, now)
    {
      m' := WalkStep(View(), m, r, ok, now);
      var rq := TakeFirst(r);
      var cur := CurSeq(seqs[rq]);
      assert cur == At(Pre) || cur == At(Post);
      queued := CompleteSequence(rq, {cur.step}, ok, now);
    }

    /** The walk over the live running list. */
    method Walk(r: nat, ok: bool, now: int, ghost m0: State) returns (queued: bool)
      requires WalkOk(View(), m0, r, ok) && m0.runIdx == Flip(r)
      modifies this
      ensures |m0.lists| == 2 && m0.pendIdx < 2 && View() == PushOn(m0, old(View().lists[r]), ok, now)
    {
      ghost var l0 := lists[r];
      ghost var m := m0;
      queued := false;
      while lists[r] != []
        invariant WalkOk(View(), m, r, ok) && m.runIdx == Flip(r)
        invariant PushOn(m, lists[r], ok, now) == PushOn(m0, l0, ok, now)
        decreases |lists[r]|
      {
        ghost var m';
        var q;
        q, m' := VisitFirst(r, ok, now, m);
        queued := queued || q;
        m := m';
      }
      WalkEnd(View(), m, r, ok);
    }

    /** flush_end_io: true if the queue has to be run. */
    method FlushEndIo(ok: bool, now: int) returns (run: bool)
      requires Inv(View()) && flushAtDevice
      modifies this
      ensures Inv(View())
      ensures var s := old(View());
              && |s.lists| == 2 && s.pendIdx < 2 && s.runIdx < 2 && s.flushes > 0
              && (forall id :: id in s.lists[s.runIdx] ==> id in s.done)
              && View() == FlushEnd(s, ok, now)
    {
      ghost var s := View();
      FlushEndKeeps(s, ok, now);
      assert pendIdx != runIdx;
      var running := runIdx;
      ghost var m := FlushOff(s, ok);
      FlushOffKeeps(s, m, ok);
      AccountFlush(ok);
      WalkStart(s, m, ok, now);
      run := Walk(running, ok, now, m);
    }
  }

  function Accounted(s: State, ok: bool): State
    requires s.flushes > 0
  {
    s.(runIdx := Flip(s.runIdx), flushAtDevice := false, trace := s.trace + [FlushEnded(s.flushes - 1, ok)])
  }

  lemma {:induction false} WalkStart(s: State, m: State, ok: bool, now: int)
    requires Inv(s) && s.flushes > 0 && s.pendIdx != s.runIdx && m == FlushOff(s, ok)
    requires InvWith(m, multiset(s.lists[s.runIdx])) && Waiting(m, s.lists[s.runIdx], ok)
    ensures WalkOk(Accounted(s, ok), m, s.runIdx, ok)
    ensures m.runIdx == Flip(s.runIdx)
  {
    assert m.lists[s.runIdx := s.lists[s.runIdx]] == s.lists;
  }

  lemma {:induction false} WalkEnd(c: State, m: State, r: nat, ok: bool)
    requires WalkOk(c, m, r, ok) && c.lists[r] == []
    ensures c == m
  {
    assert m.lists[r := []] == m.lists;
  }

  /** The queue fields, seen in the middle of the walk: as the state machine m
      has them, but with the requests not yet visited still on their list. */
  ghost predicate WalkOk(c: State, m: State, r: nat, ok: bool) {
    && |c.lists| == 2 && r < 2 && |m.lists| == 2
    && m.lists[r] == [] && c == m.(lists := m.lists[r := c.lists[r]])
    && InvWith(m, multiset(c.lists[r])) && Waiting(m, c.lists[r], ok)
  }

  lemma {:induction false} NotQueued(s: State, id: nat)
    requires |s.lists| == 2 && s.pendIdx < 2 && s.runIdx < 2 && InFlight(s) && id !in s.data
    ensures DataRq(id) !in s.head
  {
    assert id !in DataItems(s.head) + multiset(s.dataAtDevice);
    if DataRq(id) in s.head { HeadItem(s.head, id); }
  }

  lemma {:induction false} HeadItem(h: seq<Item>, id: nat)
    requires DataRq(id) in h
    ensures id in DataItems(h)
  {
    if h[0] != DataRq(id) { HeadItem(h[1..], id); }
  }

  /** A request whose data is at the device is only on the data list. */
  lemma {:induction false} AtDevice(s: State, id: nat)
    requires Inv(s) && id in s.dataAtDevice
    ensures id in s.data && id !in s.lists[0] && id !in s.lists[1] && DataRq(id) !in s.head
  {
    assert id in s.data by { assert id in DataItems(s.head) + multiset(s.dataAtDevice); }
    assert multiset(s.data)[id] <= 1 by { assert (Places(s) + multiset{})[id] <= 1; }
    assert id !in s.lists[0] && id !in s.lists[1] by {
      assert multiset(s.data)[id] >= 1;
      assert (Places(s) + multiset{})[id] <= 1;
    }
    if DataRq(id) in s.head {
      HeadItem(s.head, id);
      assert (DataItems(s.head) + multiset(s.dataAtDevice))[id] >= 2;
    }
  }

  /** A request that has just been flushed goes on to its data or to its end,
      never back to a flush list: the walk cannot meet it again. */
  lemma {:induction false} NextIsNoFlush(t: seq<Act>, need: set<Step>, id: nat, done: set<Step>)
    requires Honest(t, need, id, done) && CurSeq(done).At? && CurSeq(done).step != Data
    ensures var c := CurSeq(done + {CurSeq(done).step}); c == At(Data) || c == AllDone
  {
  }

  lemma {:induction false} WalkStep(c: State, m: State, r: nat, ok: bool, now: int) returns (m': State)
    requires WalkOk(c, m, r, ok) && c.lists[r] != [] && m.runIdx == Flip(r)
    ensures var rq := c.lists[r][0];
            && rq in m.done && CurSeq(m.done[rq]).At? && CurSeq(m.done[rq]).step != Data && DataRq(rq) !in m.head
    ensures m'.runIdx == m.runIdx && |m'.lists| == 2
    ensures var c' := c.(lists := c.lists[r := c.lists[r][1..]]);
            CompleteSeq(c', c.lists[r][0], {CurSeq(m.done[c.lists[r][0]]).step}, ok, now)
            == m'.(lists := m'.lists[r := c.lists[r][1..]])
    ensures WalkOk(m'.(lists := m'.lists[r := c.lists[r][1..]]), m', r, ok)
    ensures PushOn(m, c.lists[r], ok, now) == PushOn(m', c.lists[r][1..], ok, now)
  {
    var rq, rest := c.lists[r][0], c.lists[r][1..];
    assert c.lists[r] == [rq] + rest;
    assert c.(lists := c.lists[r := rest]) == m.(lists := m.lists[r := rest]);
    assert multiset(c.lists[r]) == multiset(rest) + multiset{rq};
    assert rq in c.lists[r];
    var st := CurSeq(m.done[rq]).step;
    assert LiveOk(m, rq);
    NotListed(m, rq, multiset(rest));
    assert DataRq(rq) !in m.head by { NotQueued(m, rq); }
    NextIsNoFlush(m.trace, m.need[rq], rq, m.done[rq]);
    SameButRest(m, r, rest, rq, st, ok, now);
    m' := CompleteSeq(m, rq, {st}, ok, now);
    assert InvWith(m', multiset(rest)) by {
      if ok { FlushHonest(m.trace, m.need[rq], rq, m.done[rq]); }
      CompleteSeqKeeps(m, rq, {st}, ok, now, multiset(rest));
    }
    assert Waiting(m', rest, ok) by {
      StepEffect(m, rq, {st}, ok, now);
      assert Waiting(m, rest, ok);
      StillWaiting(m, m', rq, rest, ok);
    }
    assert PushOn(m, c.lists[r], ok, now) == PushOn(m', rest, ok, now) by { assert c.lists[r][1..] == rest; }
  }

  /** Requests left on the list being walked do not influence the step. */
  lemma {:induction false} SameButRest(m: State, r: nat, rest: seq<nat>, rq: nat, st: Step, ok: bool, now: int)
    requires |m.lists| == 2 && r < 2 && m.pendIdx < 2 && m.runIdx == Flip(r) && rq in m.done
    requires CurSeq(m.done[rq] + {st}) == At(Data) || CurSeq(m.done[rq] + {st}) == AllDone
    ensures var m' := CompleteSeq(m, rq, {st}, ok, now);
            CompleteSeq(m.(lists := m.lists[r := rest]), rq, {st}, ok, now) == m'.(lists := m'.lists[r := rest])
    ensures CompleteSeq(m, rq, {st}, ok, now).lists == m.lists
    ensures CompleteSeq(m, rq, {st}, ok, now).runIdx == m.runIdx
  {
    var x := Advance(m, rq, {st}, ok, now);
    var y := Advance(m.(lists := m.lists[r := rest]), rq, {st}, ok, now);
    assert y == x.(lists := x.lists[r := rest]);
    assert x.pendIdx != r ==> x.lists[r := rest][x.pendIdx] == x.lists[x.pendIdx];
  }
}
