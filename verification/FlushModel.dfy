/**
 The FLUSH/FUA sequencer of the block layer as a state machine: double-buffered
 flush lists, requests whose data is executing, the dispatch list and the
 device.  `trace` records what happened, so that ordering guarantees can be
 stated without reference to the machine.
 */
module FlushModel {

  /** The optional steps of a sequence, in their fixed order. */
  datatype Step = Pre | Data | Post

  const Actions: set<Step> := {Pre, Data, Post}

  datatype Cur = At(step: Step) | AllDone

  /** A request as submitted; `data` says whether it carries sectors. */
  datatype Rq = Rq(id: nat, flush: bool, fua: bool, data: bool)

  /** What the device advertises. */
  datatype Caps = Caps(flush: bool, fua: bool)

  datatype Item = FlushRq | DataRq(id: nat) | PlainRq(id: nat)

  datatype Act =
    | Inserted(id: nat)
    | FlushIssued(n: nat)
    | FlushEnded(n: nat, ok: bool)
    | DataIssued(id: nat)
    | DataEnded(id: nat, ok: bool)
    | Finished(id: nat, ok: bool)

  datatype State = State(
    pendIdx: nat, runIdx: nat,      // flush_pending_idx, flush_running_idx
    lists: seq<seq<nat>>,           // flush_queue[2]
    data: seq<nat>,                 // flush_data_in_flight
    head: seq<Item>,                // queue_head
    flushAtDevice: bool, dataAtDevice: set<nat>,
    done: map<nat, set<Step>>,      // rq->flush.seq of the sequenced requests
    need: map<nat, set<Step>>,      // the policy each was inserted with
    since: int,                     // flush_pending_since
    hz: nat,                        // clock ticks per second
    flushes: nat,
    trace: seq<Act>)

  /** blk_flush_policy */
  function Policy(caps: Caps, rq: Rq): (p: set<Step>)
    ensures caps.flush && (rq.fua ==> rq.data) ==> (Post in p ==> Data in p)
    ensures caps.flush && (rq.flush || rq.fua) && (rq.fua ==> rq.data) ==> p != {}
  {
    if !caps.flush then {}
    else (if rq.flush then {Pre} else {}) + (if rq.data then {Data} else {})
         + (if !caps.fua && rq.fua then {Post} else {})
  }

  /** blk_flush_cur_seq: the lowest step not yet done. */
  function CurSeq(done: set<Step>): (c: Cur)
    ensures c.AllDone? <==> Actions <= done
    ensures c.At? ==> c.step !in done
    ensures c == At(Data) ==> Pre in done
    ensures c == At(Post) ==> Pre in done && Data in done
  {
    if Pre !in done then At(Pre) else if Data !in done then At(Data) else if Post !in done then At(Post) else AllDone
  }

  function Flip(i: nat): nat { if i == 0 then 1 else 0 }

  /** blk_kick_flush */
  function Kick(s: State, now: int): State
    requires |s.lists| == 2 && s.pendIdx < 2
  {
    if s.pendIdx != s.runIdx || s.lists[s.pendIdx] == [] then s
    else if s.data != [] && now < s.since + 5 * s.hz then s
    else s.(pendIdx := Flip(s.pendIdx), head := s.head + [FlushRq], flushes := s.flushes + 1,
         trace := s.trace + [FlushIssued(s.flushes)])
  }

  /** blk_flush_complete_seq without the final kick, for a request that has
      been taken off its list. */
  function Advance(s: State, id: nat, steps: set<Step>, ok: bool, now: int): State
    requires |s.lists| == 2 && s.pendIdx < 2 && id in s.done
  {
    var done := s.done[id] + steps;
    var t := s.(done := s.done[id := done]);
    match (if ok then CurSeq(done) else AllDone)
    case At(Data) => t.(data := s.data + [id], head := [DataRq(id)] + s.head, trace := s.trace + [DataIssued(id)])
    case At(_) =>
      t.(since := if s.lists[s.pendIdx] == [] then now else s.since,
      lists := s.lists[s.pendIdx := s.lists[s.pendIdx] + [id]])
    case AllDone => s.(done := s.done - {id}, trace := s.trace + [Finished(id, ok)])
  }

  function CompleteSeq(s: State, id: nat, steps: set<Step>, ok: bool, now: int): State
    requires |s.lists| == 2 && s.pendIdx < 2 && id in s.done
  {
    Kick(Advance(s, id, steps, ok, now), now)
  }

  function Remove(l: seq<nat>, id: nat): (r: seq<nat>)
    ensures multiset(r) == multiset(l) - multiset{id}
  {
    if l == [] then []
    else if l[0] == id then assert l == [l[0]] + l[1..]; l[1..]
    else assert l == [l[0]] + l[1..]; [l[0]] + Remove(l[1..], id)
  }

  // ---- What must be true of a history

  predicate Did(t: seq<Act>, a: Act, i: int) {
    0 <= i < |t| && t[i] == a
  }

  /** What has to precede the flush of a step: the insertion of the request for
      a PREFLUSH, the end of its data for a POSTFLUSH. */
  function Prior(id: nat, step: Step): Act {
    if step == Pre then Inserted(id) else DataEnded(id, true)
  }

  ghost predicate Happened(t: seq<Act>, a: Act) {
    exists i :: Did(t, a, i)
  }

  /** Flush n was issued after a. */
  ghost predicate IssuedAfter(t: seq<Act>, a: Act, n: nat) {
    exists i, j :: i < j && Did(t, a, i) && Did(t, FlushIssued(n), j)
  }

  /** A flush issued after a has succeeded. */
  ghost predicate Flushed(t: seq<Act>, a: Act) {
    exists i, j, k, n :: i < j < k && Did(t, a, i) && Did(t, FlushIssued(n), j) && Did(t, FlushEnded(n, true), k)
  }

  /** May this happen next?  Data goes out only behind the pre-flush; success
      is reported only when every step of the policy has really been made. */
  ghost predicate Justified(t: seq<Act>, need: map<nat, set<Step>>, a: Act) {
    match a
    case DataIssued(id) =>
      id in need && (Pre in need[id] ==> Flushed(t, Inserted(id)))
    case Finished(id, true) =>
      && id in need
      && (Pre in need[id] ==> Flushed(t, Inserted(id)))
      && (Data in need[id] ==> Happened(t, DataEnded(id, true)))
      && (Post in need[id] ==> Flushed(t, DataEnded(id, true)))
    case _ => true
  }

  ghost predicate Ordered(t: seq<Act>, need: map<nat, set<Step>>) {
    forall p :: 0 <= p < |t| ==> Justified(t[..p], need, t[p])
  }

  // ---- The invariant

  /** The steps marked done have been made, in order. */
  ghost predicate Honest(t: seq<Act>, need: set<Step>, id: nat, done: set<Step>) {
    && Actions - need <= done
    && (Post in need ==> Data in need)
    && (Pre !in done && Data in need ==> Data !in done)
    && (Data !in done && Post in need ==> Post !in done)
    && Happened(t, Inserted(id))
    && (Pre in need && Pre in done ==> Flushed(t, Inserted(id)))
    && (Data in need && Data in done ==> Happened(t, DataEnded(id, true)))
    && (Post in need && Post in done ==> Flushed(t, DataEnded(id, true)))
  }

  ghost predicate LiveOk(s: State, id: nat) {
    && id in s.done && id in s.need
    && CurSeq(s.done[id]).At?
    && Honest(s.trace, s.need[id], id, s.done[id])
  }

  ghost predicate AllLive(s: State) {
    forall id :: id in s.done ==> LiveOk(s, id)
  }

  function Places(s: State): multiset<nat>
    requires |s.lists| == 2
  {
    multiset(s.lists[0]) + multiset(s.lists[1]) + multiset(s.data)
  }

  /** Every sequenced request is on exactly one list (or in hand). */
  ghost predicate OnePlace(s: State, hand: multiset<nat>)
    requires |s.lists| == 2
  {
    forall id :: (Places(s) + hand)[id] == if id in s.done then 1 else 0
  }

  /** ... namely the list for its lowest unfinished step. */
  ghost predicate RightPlace(s: State)
    requires |s.lists| == 2
  {
    && (forall id :: id in s.lists[0] || id in s.lists[1] ==>
                       id in s.done && CurSeq(s.done[id]).At? && CurSeq(s.done[id]).step != Data)
    && (forall id :: id in s.data ==> id in s.done && CurSeq(s.done[id]) == At(Data))
  }

  function CountFlush(head: seq<Item>): nat {
    if head == [] then 0 else (if head[0] == FlushRq then 1 else 0) + CountFlush(head[1..])
  }

  function DataItems(head: seq<Item>): multiset<nat> {
    if head == [] then multiset{}
    else (if head[0].DataRq? then multiset{head[0].id} else multiset{}) + DataItems(head[1..])
  }

  /** At most one flush is under way, exactly while the two indexes differ, and
      then the running list is not empty; data under way is at the dispatch
      list or at the device, once. */
  ghost predicate InFlight(s: State)
    requires |s.lists| == 2 && s.pendIdx < 2 && s.runIdx < 2
  {
    && CountFlush(s.head) + (if s.flushAtDevice then 1 else 0) == (if s.pendIdx == s.runIdx then 0 else 1)
    && (s.pendIdx == s.runIdx ==> s.lists[Flip(s.pendIdx)] == [])
    && (s.pendIdx != s.runIdx ==> s.lists[s.runIdx] != [])
    && DataItems(s.head) + multiset(s.dataAtDevice) == multiset(s.data)
  }

  /** The flush under way was issued after all its requests were ready for it. */
  ghost predicate Covered(s: State)
    requires |s.lists| == 2 && s.runIdx < 2
  {
    s.pendIdx != s.runIdx ==>
      && s.flushes > 0
      && forall id :: id in s.lists[s.runIdx] && id in s.done && CurSeq(s.done[id]).At? ==>
                        IssuedAfter(s.trace, Prior(id, CurSeq(s.done[id]).step), s.flushes - 1)
  }

  ghost predicate InvWith(s: State, hand: multiset<nat>) {
    && |s.lists| == 2 && s.pendIdx < 2 && s.runIdx < 2
    && AllLive(s)
    && OnePlace(s, hand) && RightPlace(s) && InFlight(s) && Covered(s)
    && Ordered(s.trace, s.need)
  }

  /** Requests waiting for a flush are never left with nothing under way. */
  predicate NoStall(s: State)
    requires |s.lists| == 2 && s.pendIdx < 2
  {
    s.pendIdx == s.runIdx && s.lists[s.pendIdx] != [] ==> s.data != []
  }

  ghost predicate Inv(s: State) {
    InvWith(s, multiset{}) && NoStall(s)
  }

  // ---- Events

  /** blk_insert_flush */
  function Insert(s: State, caps: Caps, rq: Rq, now: int): State
    requires |s.lists| == 2 && s.pendIdx < 2
  {
    var p := Policy(caps, rq);
    if Data in p && Pre !in p && Post !in p then s.(head := s.head + [PlainRq(rq.id)])
    else CompleteSeq(Joined(s, rq.id, p), rq.id, {}, true, now)
  }

  function Joined(s: State, id: nat, p: set<Step>): State {
    s.(done := s.done[id := Actions - p], need := s.need[id := p], trace := s.trace + [Inserted(id)])
  }

  /** The driver takes the next request off the dispatch list. */
  function Fetch(s: State): State
    requires s.head != []
  {
    var t := s.(head := s.head[1..]);
    match s.head[0]
    case FlushRq => t.(flushAtDevice := true)
    case DataRq(id) => t.(dataAtDevice := s.dataAtDevice + {id})
    case PlainRq(_) => t
  }

  /** flush_data_end_io */
  function DataEnd(s: State, id: nat, ok: bool, now: int): State
    requires |s.lists| == 2 && s.pendIdx < 2 && id in s.done
  {
    CompleteSeq(DataOff(s, id, ok), id, {Data}, ok, now)
  }

  function DataOff(s: State, id: nat, ok: bool): State {
    s.(data := Remove(s.data, id), dataAtDevice := s.dataAtDevice - {id}, trace := s.trace + [DataEnded(id, ok)])
  }

  /** flush_end_io: the running list is taken off, then every request on it
      goes on to its next step. */
  function FlushEnd(s: State, ok: bool, now: int): State
    requires |s.lists| == 2 && s.pendIdx < 2 && s.runIdx < 2 && s.flushes > 0
    requires forall id :: id in s.lists[s.runIdx] ==> id in s.done
  {
    PushOn(FlushOff(s, ok), s.lists[s.runIdx], ok, now)
  }

  function FlushOff(s: State, ok: bool): State
    requires |s.lists| == 2 && s.runIdx < 2 && s.flushes > 0
  {
    s.(runIdx := Flip(s.runIdx), lists := s.lists[s.runIdx := []], flushAtDevice := false,
    trace := s.trace + [FlushEnded(s.flushes - 1, ok)])
  }

  function PushOn(s: State, l: seq<nat>, ok: bool, now: int): State
    requires |s.lists| == 2 && s.pendIdx < 2
    decreases |l|
  {
    if l == [] then s
    else if l[0] !in s.done || CurSeq(s.done[l[0]]).AllDone? then PushOn(s, l[1..], ok, now)
    else PushOn(CompleteSeq(s, l[0], {CurSeq(s.done[l[0]]).step}, ok, now), l[1..], ok, now)
  }
}
