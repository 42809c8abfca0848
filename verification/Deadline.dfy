/**
 The deadline I/O scheduler (block/deadline-iosched.c, block/elevator.c): two
 indexes over one set of requests per direction, batching, and the counter that
 keeps reads from starving writes.
 */
module Deadline {

  datatype Rq = Rq(pos: nat, sectors: nat, write: bool, time: int)

  datatype Next = NoNext | At(id: nat)

  /** One direction: requests by age and by sector, and the next one in sector
      order for a batch to go on with. */
  datatype Side = Side(fifo: seq<nat>, sort: seq<nat>, next: Next)

  datatype State = State(info: map<nat, Rq>, rd: Side, wr: Side, batching: nat, starved: nat,
                         lastSector: nat, out: seq<nat>, nrSorted: int)

  datatype Tunables = Tunables(fifoBatch: nat, writesStarved: nat, readExpire: int, writeExpire: int)

  function Of(s: State, write: bool): Side { if write then s.wr else s.rd }

  function With(s: State, write: bool, side: Side): State { if write then s.(wr := side) else s.(rd := side) }

  function Expire(t: Tunables, write: bool): int { if write then t.writeExpire else t.readExpire }

  // ---- Lists

  function Minus(l: seq<nat>, x: nat): seq<nat> {
    if l == [] then [] else if l[0] == x then Minus(l[1..], x) else [l[0]] + Minus(l[1..], x)
  }

  /** The request after id in sector order. */
  function Latter(sort: seq<nat>, id: nat): Next {
    if sort == [] then NoNext
    else if sort[0] == id then if |sort| > 1 then At(sort[1]) else NoNext
    else Latter(sort[1..], id)
  }

  /** list_move of y behind x */
  function Behind(l: seq<nat>, x: nat, y: nat): seq<nat> {
    if l == [] then [] else if l[0] == x then [x, y] + l[1..] else [l[0]] + Behind(l[1..], x, y)
  }

  predicate Known(info: map<nat, Rq>, l: seq<nat>, write: bool) {
    forall i :: 0 <= i < |l| ==> l[i] in info && info[l[i]].write == write
  }

  /** The request that starts at this sector. */
  function Find(info: map<nat, Rq>, sort: seq<nat>, pos: nat, write: bool): Next
    requires Known(info, sort, write)
  {
    if sort == [] then NoNext else if info[sort[0]].pos == pos then At(sort[0]) else Find(info, sort[1..], pos, write)
  }

  /** Into sector order. */
  function Put(info: map<nat, Rq>, sort: seq<nat>, id: nat, pos: nat, write: bool): seq<nat>
    requires Known(info, sort, write)
  {
    if sort == [] || pos < info[sort[0]].pos then [id] + sort else [sort[0]] + Put(info, sort[1..], id, pos, write)
  }

  // ---- Invariant

  /** Strictly ascending start sectors. */
  predicate Ascends(info: map<nat, Rq>, l: seq<nat>, write: bool)
    requires Known(info, l, write)
  {
    forall i, j :: 0 <= i < j < |l| ==> info[l[i]].pos < info[l[j]].pos
  }

  /** Ages in order. */
  predicate Ages(info: map<nat, Rq>, l: seq<nat>, write: bool)
    requires Known(info, l, write)
  {
    forall i, j :: 0 <= i < j < |l| ==> info[l[i]].time <= info[l[j]].time
  }

  predicate Recent(info: map<nat, Rq>, l: seq<nat>, write: bool, last: int)
    requires Known(info, l, write)
  {
    forall i :: 0 <= i < |l| ==> info[l[i]].time <= last
  }

  predicate Unique(l: seq<nat>) { forall i, j :: 0 <= i < j < |l| ==> l[i] != l[j] }

  ghost predicate Same(a: seq<nat>, b: seq<nat>) { forall x :: x in a <==> x in b }

  ghost predicate SortOk(info: map<nat, Rq>, side: Side, write: bool) {
    && Known(info, side.sort, write) && Ascends(info, side.sort, write)
    && (side.next.At? ==> side.next.id in side.sort)
  }

  ghost predicate FifoOk(info: map<nat, Rq>, side: Side, write: bool, last: int) {
    && Known(info, side.fifo, write) && Unique(side.fifo)
    && Ages(info, side.fifo, write) && Recent(info, side.fifo, write, last)
  }

  /** Both indexes hold the same requests. */
  ghost predicate SideOk(info: map<nat, Rq>, side: Side, write: bool, last: int) {
    SortOk(info, side, write) && FifoOk(info, side, write, last) && Same(side.fifo, side.sort)
  }

  ghost predicate SideInv(s: State, t: Tunables, now: int, write: bool) {
    SideOk(s.info, Of(s, write), write, now + Expire(t, write))
  }

  ghost predicate Inv(s: State, t: Tunables, now: int) {
    && SideInv(s, t, now, false) && SideInv(s, t, now, true)
    && !(s.rd.next.At? && s.wr.next.At?)
    && s.nrSorted == |s.rd.fifo| + |s.wr.fifo|
  }

  // ---- Operations

  function Removed(side: Side, id: nat): Side {
    Side(Minus(side.fifo, id), Minus(side.sort, id), if side.next == At(id) then Latter(side.sort, id) else side.next)
  }

  /** deadline_move_request */
  function Moved(s: State, id: nat): State
    requires id in s.info
  {
    var rq := s.info[id];
    var side := Of(s, rq.write);
    var gone := Side(Minus(side.fifo, id), Minus(side.sort, id), Latter(side.sort, id));
    var r := if rq.write then s.(wr := gone, rd := s.rd.(next := NoNext))
             else s.(rd := gone, wr := s.wr.(next := NoNext));
    r.(lastSector := rq.pos + rq.sectors, out := s.out + [id], nrSorted := s.nrSorted - 1)
  }

  /** The sort order must know its requests. */
  ghost predicate Indexed(s: State) {
    Known(s.info, s.rd.sort, false) && Known(s.info, s.wr.sort, true)
  }

  lemma {:induction false} FindMember(info: map<nat, Rq>, sort: seq<nat>, pos: nat, write: bool)
    requires Known(info, sort, write)
    ensures var a := Find(info, sort, pos, write);
            if a.At? then a.id in sort && a.id in info && info[a.id].pos == pos && info[a.id].write == write
            else forall i :: 0 <= i < |sort| ==> info[sort[i]].pos != pos
  {
    if sort != [] && info[sort[0]].pos != pos {
      FindMember(info, sort[1..], pos, write);
      assert forall i :: 1 <= i < |sort| ==> sort[i] == sort[1..][i - 1];
    }
  }

  lemma {:induction false} MinusMembers(l: seq<nat>, x: nat)
    ensures x !in Minus(l, x) && forall y :: y in Minus(l, x) <==> y in l && y != x
  {
    if l != [] {
      MinusMembers(l[1..], x);
      assert l == [l[0]] + l[1..];
    }
  }

  lemma {:induction false} MinusKnown(info: map<nat, Rq>, l: seq<nat>, x: nat, write: bool)
    requires Known(info, l, write)
    ensures Known(info, Minus(l, x), write)
  {
    MinusMembers(l, x);
    var m := Minus(l, x);
    forall i | 0 <= i < |m| ensures m[i] in info && info[m[i]].write == write {
      assert m[i] in l;
    }
  }

  /** deadline_add_rq_rb: a request in the way is sent out first. */
  function AddRb(s: State, id: nat): State
    requires Indexed(s) && id in s.info
  {
    var rq := s.info[id];
    var side := Of(s, rq.write);
    var alias := Find(s.info, side.sort, rq.pos, rq.write);
    FindMember(s.info, side.sort, rq.pos, rq.write);
    if alias.At? then
      MinusKnown(s.info, side.sort, alias.id, rq.write);
      PutIn(Moved(s, alias.id), id)
    else PutIn(s, id)
  }

  function PutIn(s: State, id: nat): State
    requires id in s.info && Known(s.info, Of(s, s.info[id].write).sort, s.info[id].write)
  {
    var rq := s.info[id];
    var side := Of(s, rq.write);
    With(s, rq.write, side.(sort := Put(s.info, side.sort, id, rq.pos, rq.write)))
  }

  /** To the end of the fifo list. */
  function FifoPut(s: State, id: nat, write: bool): State {
    With(s, write, Of(s, write).(fifo := Of(s, write).fifo + [id]))
  }

  /** A new request with its expiry time, in no list yet. */
  function Accepted(s: State, t: Tunables, id: nat, rq: Rq, now: int): State {
    s.(info := s.info[id := rq.(time := now + Expire(t, rq.write))], nrSorted := s.nrSorted + 1)
  }

  /** Sorted insert: __elv_add_request and deadline_add_request. */
  ghost function Added(s: State, t: Tunables, id: nat, rq: Rq, now: int): State
    requires Indexed(s) && id !in s.info
  {
    FifoPut(AddRb(Accepted(s, t, id, rq, now), id), id, rq.write)
  }

  /** deadline_merged_request after a front merge moved the start to `pos`. */
  ghost function FrontMerged(s: State, id: nat, pos: nat): State
    requires Indexed(s) && id in s.info
  {
    var rq := s.info[id];
    var side := Of(s, rq.write);
    MinusMembers(side.sort, id);
    MinusKnown(s.info, side.sort, id, rq.write);
    AddRb(With(s.(info := s.info[id := rq.(pos := pos)]), rq.write, side.(sort := Minus(side.sort, id))), id)
  }

  /** elv_merge_requests and deadline_merged_requests: `next` goes away. */
  function MergedRequests(s: State, id: nat, next: nat): State
    requires id in s.info && next in s.info
  {
    var rq, nrq := s.info[id], s.info[next];
    var side := Of(s, rq.write);
    if nrq.time < rq.time then
      var fifo := Behind(Minus(side.fifo, id), next, id);
      With(s.(info := s.info[id := rq.(time := nrq.time)], nrSorted := s.nrSorted - 1), rq.write,
           Removed(side.(fifo := fifo), next))
    else With(s.(nrSorted := s.nrSorted - 1), rq.write, Removed(side, next))
  }

  /** deadline_check_fifo */
  predicate Expired(s: State, write: bool, now: int) {
    var fifo := Of(s, write).fifo;
    fifo != [] && fifo[0] in s.info && now > s.info[fifo[0]].time
  }

  /** The request a new batch starts with. */
  function Head(s: State, write: bool, now: int): nat
    requires Of(s, write).fifo != []
  {
    var side := Of(s, write);
    if Expired(s, write, now) || side.next.NoNext? then side.fifo[0] else side.next.id
  }

  datatype Choice = Nothing | Go(id: nat, batching: nat, starved: nat)

  /** Which request deadline_dispatch_requests picks, and the counters after. */
  function Pick(s: State, t: Tunables, now: int): Choice {
    var rq := if s.wr.next.At? then s.wr.next else s.rd.next;
    var waiting := s.wr.fifo != [];
    if rq.At? && s.batching < t.fifoBatch then Go(rq.id, s.batching + 1, s.starved)
    else if s.rd.fifo != [] && !(waiting && s.starved >= t.writesStarved) then
      Go(Head(s, false, now), 1, if waiting then s.starved + 1 else s.starved)
    else if waiting then Go(Head(s, true, now), 1, 0)
    else Nothing
  }

  ghost function Dispatched(s: State, t: Tunables, now: int): State {
    var c := Pick(s, t, now);
    if c.Go? && c.id in s.info then Moved(s.(batching := c.batching, starved := c.starved), c.id) else s
  }
}
