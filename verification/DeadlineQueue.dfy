/**
 deadline_data and its operations as the code performs them, proved against
 Deadline (block/deadline-iosched.c, block/elevator.c).
 */
module DeadlineQueue {
  import opened Deadline
  import opened DeadlineProofs
  import opened DeadlineRuns

  /** elv_rb_add on the requests in sector order: the one in the way, or the
      order with the new request in it. */
  method RbAdd(info: map<nat, Rq>, sort: seq<nat>, id: nat) returns (alias: Next, r: seq<nat>)
    requires id in info && Known(info, sort, info[id].write) && Ascends(info, sort, info[id].write)
    ensures alias == Find(info, sort, info[id].pos, info[id].write)
    ensures alias.NoNext? ==> r == Put(info, sort, id, info[id].pos, info[id].write)
  {
    var pos, write := info[id].pos, info[id].write;
    var i := 0;
    assert sort[0..] == sort && sort[..0] == [];
    while i < |sort| && info[sort[i]].pos < pos
      invariant 0 <= i <= |sort| && Descended(info, sort, id, pos, write, i)
    {
      Descends(info, sort, id, pos, write, i);
      i := i + 1;
    }
    if i < |sort| && info[sort[i]].pos == pos {
      assert sort[i..][0] == sort[i];
      return At(sort[i]), sort;
    }
    LaterStay(info, sort, i, pos, write);
    Lands(info, sort, id, pos, write, i);
    alias, r := NoNext, sort[..i] + [id] + sort[i..];
  }

  /** The search has passed the first i requests. */
  ghost predicate Descended(info: map<nat, Rq>, sort: seq<nat>, id: nat, pos: nat, write: bool, i: nat)
    requires Known(info, sort, write) && i <= |sort|
  {
    && Known(info, sort[i..], write)
    && Find(info, sort, pos, write) == Find(info, sort[i..], pos, write)
    && Put(info, sort, id, pos, write) == sort[..i] + Put(info, sort[i..], id, pos, write)
  }

  lemma {:induction false} Descends(info: map<nat, Rq>, sort: seq<nat>, id: nat, pos: nat, write: bool, i: nat)
    requires Known(info, sort, write) && i < |sort| && info[sort[i]].pos < pos
    requires Descended(info, sort, id, pos, write, i)
    ensures Descended(info, sort, id, pos, write, i + 1)
  {
    var rest := sort[i..];
    assert rest[0] == sort[i] && rest[1..] == sort[i + 1..];
    var p := Put(info, rest[1..], id, pos, write);
    assert sort[..i] + ([sort[i]] + p) == sort[..i + 1] + p;
  }

  lemma {:induction false} Lands(info: map<nat, Rq>, sort: seq<nat>, id: nat, pos: nat, write: bool, i: nat)
    requires Known(info, sort, write) && i <= |sort| && Descended(info, sort, id, pos, write, i)
    requires i < |sort| ==> pos < info[sort[i]].pos
    ensures Put(info, sort, id, pos, write) == sort[..i] + [id] + sort[i..]
  {
    var rest := sort[i..];
    if i < |sort| { assert rest[0] == sort[i]; }
    assert sort[..i] + ([id] + rest) == sort[..i] + [id] + rest;
  }

  lemma {:induction false} LaterStay(info: map<nat, Rq>, sort: seq<nat>, i: nat, pos: nat, write: bool)
    requires Known(info, sort, write) && Ascends(info, sort, write) && i <= |sort| && (i < |sort| ==> info[sort[i]].pos > pos)
    ensures Known(info, sort[i..], write) && Find(info, sort[i..], pos, write) == NoNext
  {
    var rest := sort[i..];
    assert forall k :: 0 <= k < |rest| ==> rest[k] == sort[i + k];
    assert forall k :: 0 <= k < |rest| ==> info[rest[k]].pos >= info[sort[i]].pos;
    FindMember(info, rest, pos, write);
  }

  class Scheduler {
    const t: Tunables
    var info: map<nat, Rq>
    var rd: Side
    var wr: Side
    var batching: nat
    var starved: nat
    var lastSector: nat
    var out: seq<nat>
    var nrSorted: int

    function View(): State
      reads this
    {
      State(info, rd, wr, batching, starved, lastSector, out, nrSorted)
    }

    ghost predicate Valid(now: int)
      reads this
    {
      Inv(View(), t, now)
    }

    constructor (t: Tunables, now: int)
      ensures Valid(now) && this.t == t && nrSorted == 0 && out == []
    {
      this.t := t;
      info, rd, wr := map[], Side([], [], NoNext), Side([], [], NoNext);
      batching, starved, lastSector, out, nrSorted := 0, 0, 0, [], 0;
    }

    function SideOf(write: bool): Side
      reads this
    {
      if write then wr else rd
    }

    method SetSide(write: bool, side: Side)
      modifies this`rd, this`wr
      ensures View() == With(old(View()), write, side)
    {
      if write { wr := side; } else { rd := side; }
    }

    /** deadline_remove_request with deadline_del_rq_rb */
    method RemoveRequest(id: nat)
      requires id in info
      modifies this`rd, this`wr
      ensures View() == With(old(View()), info[id].write, Removed(Of(old(View()), info[id].write), id))
    {
      var write := info[id].write;
      var side := SideOf(write);
      side := side.(fifo := Minus(side.fifo, id));
      if side.next == At(id) {
        side := side.(next := Latter(side.sort, id));
      }
      side := side.(sort := Minus(side.sort, id));
      SetSide(write, side);
    }

    /** Only the direction of id keeps a next request: the one after id. */
    method PointPast(id: nat)
      requires id in info
      modifies this`rd, this`wr
      ensures var was := old(View());
              var w := was.info[id].write;
              View() == With(was.(rd := was.rd.(next := NoNext), wr := was.wr.(next := NoNext)), w,
                             Of(was, w).(next := Latter(Of(was, w).sort, id)))
    {
      var write := info[id].write;
      rd := rd.(next := NoNext);
      wr := wr.(next := NoNext);
      var side := SideOf(write);
      SetSide(write, side.(next := Latter(side.sort, id)));
    }

    /** deadline_move_request with elv_dispatch_add_tail */
    method MoveRequest(id: nat)
      requires id in info && Unique(SideOf(info[id].write).sort)
      modifies this`rd, this`wr, this`lastSector, this`out, this`nrSorted
      ensures View() == Moved(old(View()), id)
    {
      LatterMember(SideOf(info[id].write).sort, id);
      PointPast(id);
      lastSector := info[id].pos + info[id].sectors;
      RemoveRequest(id);
      nrSorted := nrSorted - 1;
      out := out + [id];
    }

    /** deadline_add_rq_rb: at most one request can be in the way. */
    method AddRqRb(id: nat)
      requires id in info && Known(info, rd.sort, false) && Known(info, wr.sort, true)
      requires Ascends(info, SideOf(info[id].write).sort, info[id].write)
      modifies this`rd, this`wr, this`lastSector, this`out, this`nrSorted
      ensures View() == AddRb(old(View()), id)
    {
      ghost var was, first := View(), Find(info, SideOf(info[id].write).sort, info[id].pos, info[id].write);
      ghost var moved := false;
      var write := info[id].write;
      FindMember(info, SideOf(write).sort, info[id].pos, write);
      var alias, sort := RbAdd(info, SideOf(write).sort, id);
      while alias.At?
        invariant info == was.info && Known(info, SideOf(write).sort, write)
        invariant if moved then alias.NoNext? && first.At? && View() == Moved(was, first.id)
                  else View() == was && alias == first
        invariant alias.NoNext? ==> sort == Put(info, SideOf(write).sort, id, info[id].pos, write)
        decreases !moved
      {
        var order := SideOf(write).sort;
        AscendsUnique(info, order, write);
        MoveRequest(alias.id);
        NoSecondAlias(info, order, alias.id, write);
        MinusAscends(info, order, alias.id, write);
        FindMember(info, SideOf(write).sort, info[id].pos, write);
        alias, sort := RbAdd(info, SideOf(write).sort, id);
        moved := true;
      }
      SetSide(write, SideOf(write).(sort := sort));
    }

    method Accept(id: nat, rq: Rq, now: int)
      modifies this`info, this`nrSorted
      ensures View() == Accepted(old(View()), t, id, rq, now)
    {
      nrSorted := nrSorted + 1;
      info := info[id := rq.(time := now + Expire(t, rq.write))];
    }

    method FifoAppend(id: nat, write: bool)
      modifies this`rd, this`wr
      ensures View() == FifoPut(old(View()), id, write)
    {
      SetSide(write, SideOf(write).(fifo := SideOf(write).fifo + [id]));
    }

    /** __elv_add_request (sorted) and deadline_add_request */
    method AddRequest(id: nat, rq: Rq, now: int)
      requires Valid(now) && id !in info
      modifies this
      ensures Valid(now) && Indexed(old(View())) && View() == Added(old(View()), t, id, rq, now)
    {
      ghost var was := View();
      InvIndexed(was, t, now);
      NewIsLoose(was, t, now, id, rq, Accepted(was, t, id, rq, now));
      AddedKeeps(was, t, now, id, rq);
      Accept(id, rq, now);
      AddRqRb(id);
      FifoAppend(id, rq.write);
    }

    /** deadline_merged_request after a front merge */
    method MergedRequest(id: nat, pos: nat, now: int)
      requires Valid(now) && id in info && id in SideOf(info[id].write).fifo
      modifies this
      ensures Valid(now) && Indexed(old(View())) && View() == FrontMerged(old(View()), id, pos)
    {
      ghost var was := View();
      InvIndexed(was, t, now);
      FrontMergedKeeps(was, t, now, id, pos);
      var rq := info[id];
      var side := SideOf(rq.write);
      ghost var s0 := With(was.(info := was.info[id := rq.(pos := pos)]), rq.write, side.(sort := Minus(side.sort, id)));
      RepositionIsLoose(was, t, now, id, pos, s0);
      info := info[id := rq.(pos := pos)];
      SetSide(rq.write, side.(sort := Minus(side.sort, id)));
      AddRqRb(id);
    }

    /** elv_merge_requests and deadline_merged_requests */
    method MergedRequestsFn(id: nat, next: nat, now: int)
      requires Valid(now) && Mergeable(View(), id, next)
      modifies this
      ensures Valid(now) && View() == MergedRequests(old(View()), id, next)
    {
      MergedRequestsKeeps(View(), t, now, id, next);
      if info[next].time < info[id].time {
        TakePlace(id, next);
      }
      RemoveRequest(next);
      nrSorted := nrSorted - 1;
    }

    /** id takes the expiry of next and moves behind it. */
    method TakePlace(id: nat, next: nat)
      requires id in info && next in info && id != next
      modifies this`info, this`rd, this`wr
      ensures var was := old(View());
              var w := was.info[id].write;
              View() == With(was.(info := was.info[id := was.info[id].(time := was.info[next].time)]), w,
                             Of(was, w).(fifo := Behind(Minus(Of(was, w).fifo, id), next, id)))
    {
      var side := SideOf(info[id].write);
      SetSide(info[id].write, side.(fifo := Behind(Minus(side.fifo, id), next, id)));
      info := info[id := info[id].(time := info[next].time)];
    }

    /** deadline_check_fifo */
    method CheckFifo(write: bool, now: int) returns (expired: bool)
      requires SideOf(write).fifo != [] && SideOf(write).fifo[0] in info
      ensures expired <==> Expired(View(), write, now)
    {
      expired := now > info[SideOf(write).fifo[0]].time;
    }

    method FindRequest(write: bool, now: int) returns (id: nat)
      requires Valid(now) && SideOf(write).fifo != []
      ensures id == Head(View(), write, now)
    {
      Earliest(View(), t, now, write);
      var late := CheckFifo(write, now);
      var side := SideOf(write);
      id := if late || side.next.NoNext? then side.fifo[0] else side.next.id;
    }

    /** The choice of deadline_dispatch_requests, with its counters. */
    method Choose(now: int) returns (c: Choice)
      requires Valid(now)
      ensures c == Pick(View(), t, now)
    {
      var rq := if wr.next.At? then wr.next else rd.next;
      if rq.At? && batching < t.fifoBatch { return Go(rq.id, batching + 1, starved); }
      var tired := starved;
      if rd.fifo != [] {
        assert rd.sort != [] by { assert SideInv(View(), t, now, false) && rd.fifo[0] in rd.fifo; }
        var pass := true;
        if wr.fifo != [] {
          pass := !(tired >= t.writesStarved);
          tired := tired + 1;
        }
        if pass {
          var id := FindRequest(false, now);
          return Go(id, 1, tired);
        }
      }
      if wr.fifo != [] {
        assert wr.sort != [] by { assert SideInv(View(), t, now, true) && wr.fifo[0] in wr.fifo; }
        var id := FindRequest(true, now);
        return Go(id, 1, 0);
      }
      c := Nothing;
    }

    /** deadline_dispatch_requests */
    method DispatchRequests(now: int) returns (more: bool)
      requires Valid(now)
      modifies this
      ensures Valid(now) && View() == Dispatched(old(View()), t, now)
      ensures more <==> old(nrSorted) != 0
      ensures more ==> nrSorted == old(nrSorted) - 1
    {
      DispatchedKeeps(View(), t, now);
      NeverIdle(View(), t, now);
      var c := Choose(now);
      if c.Nothing? { return false; }
      PickWaits(View(), t, now);
      assert Unique(SideOf(info[c.id].write).sort) by {
        assert SideInv(View(), t, now, info[c.id].write);
        AscendsUnique(info, SideOf(info[c.id].write).sort, info[c.id].write);
      }
      batching, starved := c.batching, c.starved;
      MoveRequest(c.id);
      more := true;
    }

    /** elv_drain_elevator: forced dispatch empties the scheduler. */
    method DrainElevator(now: int)
      requires Valid(now)
      modifies this
      ensures Valid(now) && nrSorted == 0 && rd.fifo == [] && wr.fifo == []
      ensures multiset(out) == multiset(old(out)) + multiset(old(rd.fifo)) + multiset(old(wr.fifo))
      ensures |out| == |old(out)| + old(nrSorted)
    {
      var more := true;
      while more
        invariant Valid(now) && nrSorted >= 0 && Held(View()) == old(Held(View()))
        invariant !more ==> nrSorted == 0
        decreases nrSorted, more
      {
        ghost var was := View();
        assert was.nrSorted >= 0;
        DispatchedHolds(was, t, now);
        more := DispatchRequests(now);
      }
      assert SideInv(View(), t, now, false);
      assert |multiset(out)| == |old(out)| + old(nrSorted);
    }
  }

  /** The requests sent out and those still sorted. */
  ghost function Held(s: State): multiset<nat> {
    multiset(s.out) + multiset(s.rd.fifo) + multiset(s.wr.fifo)
  }

  /** A dispatch loses no request and sends none twice. */
  lemma {:induction false} DispatchedHolds(s: State, t: Tunables, now: int)
    requires Inv(s, t, now)
    ensures Held(Dispatched(s, t, now)) == Held(s)
  {
    var c := Pick(s, t, now);
    if c.Go? {
      PickWaits(s, t, now);
      var write := s.info[c.id].write;
      assert SideInv(s, t, now, write);
      MinusOne(Of(s, write).fifo, c.id);
    }
  }
}
