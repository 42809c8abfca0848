/**
 Every event keeps the invariant of the flush machine.
 */
module FlushProofs {
  import opened FlushModel

  // ---- Histories only grow

  lemma {:induction false} Grows(t: seq<Act>, a: Act, x: Act)
    ensures Happened(t, x) ==> Happened(t + [a], x)
    ensures Flushed(t, x) ==> Flushed(t + [a], x)
    ensures Happened(t + [a], a)
  {
    var u := t + [a];
    assert Did(u, a, |t|);
    if Happened(t, x) {
      var i :| Did(t, x, i);
      assert Did(u, x, i);
    }
    if Flushed(t, x) {
      var i, j, k, n :| i < j < k && Did(t, x, i) && Did(t, FlushIssued(n), j) && Did(t, FlushEnded(n, true), k);
      assert Did(u, x, i) && Did(u, FlushIssued(n), j) && Did(u, FlushEnded(n, true), k);
    }
  }

  lemma {:induction false} IssuedGrows(t: seq<Act>, a: Act, x: Act, n: nat)
    requires IssuedAfter(t, x, n)
    ensures IssuedAfter(t + [a], x, n)
  {
    var i, j :| i < j && Did(t, x, i) && Did(t, FlushIssued(n), j);
    assert Did(t + [a], x, i) && Did(t + [a], FlushIssued(n), j);
  }

  lemma {:induction false} IssueAfter(t: seq<Act>, x: Act, n: nat)
    requires Happened(t, x)
    ensures IssuedAfter(t + [FlushIssued(n)], x, n)
  {
    var i :| Did(t, x, i);
    var u := t + [FlushIssued(n)];
    assert Did(u, x, i) && Did(u, FlushIssued(n), |t|);
  }

  lemma {:induction false} EndAfter(t: seq<Act>, x: Act, n: nat)
    requires IssuedAfter(t, x, n)
    ensures Flushed(t + [FlushEnded(n, true)], x)
  {
    var i, j :| i < j && Did(t, x, i) && Did(t, FlushIssued(n), j);
    var u := t + [FlushEnded(n, true)];
    assert Did(u, x, i) && Did(u, FlushIssued(n), j) && Did(u, FlushEnded(n, true), |t|);
  }

  lemma {:induction false} OrderedGrows(t: seq<Act>, need: map<nat, set<Step>>, a: Act)
    requires Ordered(t, need) && Justified(t, need, a)
    ensures Ordered(t + [a], need)
  {
    var u := t + [a];
    forall p | 0 <= p < |u|
      ensures Justified(u[..p], need, u[p])
    {
      assert p < |t| ==> u[..p] == t[..p];
      assert u[..|t|] == t;
    }
  }

  lemma {:induction false} HonestGrows(t: seq<Act>, a: Act, need: set<Step>, id: nat, done: set<Step>)
    requires Honest(t, need, id, done)
    ensures Honest(t + [a], need, id, done)
  {
    Grows(t, a, Inserted(id));
    Grows(t, a, DataEnded(id, true));
  }

  // ---- One request moves on

  /** A request in hand is on no list. */
  lemma {:induction false} NotListed(s: State, id: nat, hand: multiset<nat>)
    requires |s.lists| == 2 && s.runIdx < 2 && OnePlace(s, hand + multiset{id})
    ensures id !in s.lists[0] && id !in s.lists[1] && id !in s.data && id !in hand && id in s.done
    ensures id !in s.lists[s.runIdx]
  {
    assert (Places(s) + (hand + multiset{id}))[id] <= 1;
  }

  ghost predicate Others(s: State, t: State, id: nat) {
    forall x :: x != id ==> (x in s.done <==> x in t.done) && (x in s.done ==> s.done[x] == t.done[x])
  }

  /** The history grew and one request changed: the others are as before. */
  lemma {:induction false} OthersLive(s: State, t: State, id: nat, a: Act)
    requires AllLive(s) && (t.trace == s.trace || t.trace == s.trace + [a]) && t.need == s.need
    requires Others(s, t, id)
    requires id in t.done ==> id in t.need && CurSeq(t.done[id]).At? && Honest(s.trace, t.need[id], id, t.done[id])
    ensures AllLive(t)
  {
    forall x | x in t.done
      ensures LiveOk(t, x)
    {
      if x != id { assert LiveOk(s, x); }
      if t.trace != s.trace { HonestGrows(s.trace, a, t.need[x], x, t.done[x]); }
    }
  }

  lemma {:induction false} StillCovered(s: State, t: State, id: nat, a: Act)
    requires |s.lists| == 2 && |t.lists| == 2 && s.runIdx == t.runIdx < 2 && s.pendIdx == t.pendIdx
    requires Covered(s) && (t.trace == s.trace || t.trace == s.trace + [a]) && t.flushes == s.flushes
    requires t.lists[t.runIdx] == s.lists[s.runIdx] || s.pendIdx == s.runIdx
    requires id !in s.lists[s.runIdx]
    requires Others(s, t, id)
    ensures Covered(t)
  {
    if t.pendIdx != t.runIdx {
      forall x | x in t.lists[t.runIdx] && x in t.done && CurSeq(t.done[x]).At?
        ensures IssuedAfter(t.trace, Prior(x, CurSeq(t.done[x]).step), t.flushes - 1)
      {
        assert x in s.done && t.done[x] == s.done[x];
        if t.trace != s.trace { IssuedGrows(s.trace, a, Prior(x, CurSeq(t.done[x]).step), t.flushes - 1); }
      }
    }
  }

  lemma {:induction false} PlaceMoves(s: State, t: State, id: nat, hand: multiset<nat>)
    requires |s.lists| == 2 && |t.lists| == 2 && OnePlace(s, hand + multiset{id})
    requires Places(t) + hand == Places(s) + (hand + multiset{id}) && t.done.Keys == s.done.Keys
    ensures OnePlace(t, hand)
  {
    forall x
      ensures (Places(t) + hand)[x] == if x in t.done then 1 else 0
    {
      assert (Places(s) + (hand + multiset{id}))[x] == if x in s.done then 1 else 0;
    }
  }

  lemma {:induction false} RightStays(s: State, t: State, id: nat)
    requires |s.lists| == 2 && |t.lists| == 2 && RightPlace(s)
    requires t.lists == s.lists || (s.pendIdx < 2 && t.lists == s.lists[s.pendIdx := s.lists[s.pendIdx] + [id]])
    requires t.data == s.data || t.data == s.data + [id]
    requires id in t.lists[0] || id in t.lists[1] ==>
               id in t.done && CurSeq(t.done[id]).At? && CurSeq(t.done[id]).step != Data
    requires id in t.data ==> id in t.done && CurSeq(t.done[id]) == At(Data)
    requires Others(s, t, id)
    ensures RightPlace(t)
  {
    forall x | x in t.lists[0] || x in t.lists[1]
      ensures x in t.done && CurSeq(t.done[x]).At? && CurSeq(t.done[x]).step != Data
    {
      assert x == id || x in s.lists[0] || x in s.lists[1];
    }
  }

  lemma {:induction false} DataInFlight(s: State, t: State, id: nat)
    requires |s.lists| == 2 && s.pendIdx < 2 && s.runIdx < 2 && InFlight(s)
    requires t.lists == s.lists && t.pendIdx == s.pendIdx && t.runIdx == s.runIdx
    requires t.flushAtDevice == s.flushAtDevice && t.dataAtDevice == s.dataAtDevice
    requires t.head == [DataRq(id)] + s.head && t.data == s.data + [id]
    ensures InFlight(t)
  {
    assert t.head[1..] == s.head;
  }

  lemma {:induction false} ToData(s: State, t: State, id: nat, done: set<Step>, hand: multiset<nat>)
    requires InvWith(s, hand + multiset{id}) && id in s.need
    requires CurSeq(done) == At(Data) && Honest(s.trace, s.need[id], id, done)
    requires t == s.(done := s.done[id := done], data := s.data + [id], head := [DataRq(id)] + s.head,
                  trace := s.trace + [DataIssued(id)])
    ensures InvWith(t, hand)
  {
    NotListed(s, id, hand);
    assert Others(s, t, id);
    OthersLive(s, t, id, DataIssued(id));
    PlaceMoves(s, t, id, hand);
    DataInFlight(s, t, id);
    StillCovered(s, t, id, DataIssued(id));
    OrderedGrows(s.trace, s.need, DataIssued(id));
    RightStays(s, t, id);
  }

  lemma {:induction false} ToFlush(s: State, t: State, id: nat, done: set<Step>, hand: multiset<nat>)
    requires InvWith(s, hand + multiset{id}) && id in s.need
    requires CurSeq(done).At? && CurSeq(done).step != Data && Honest(s.trace, s.need[id], id, done)
    requires t == s.(done := s.done[id := done], since := t.since,
                  lists := s.lists[s.pendIdx := s.lists[s.pendIdx] + [id]])
    ensures InvWith(t, hand)
  {
    NotListed(s, id, hand);
    assert Others(s, t, id);
    OthersLive(s, t, id, Inserted(id));
    PlaceMoves(s, t, id, hand);
    StillCovered(s, t, id, Inserted(id));
    RightStays(s, t, id);
  }

  lemma {:induction false} ToEnd(s: State, t: State, id: nat, ok: bool, hand: multiset<nat>)
    requires InvWith(s, hand + multiset{id}) && id in s.need
    requires ok ==> Honest(s.trace, s.need[id], id, Actions)
    requires t == s.(done := s.done - {id}, trace := s.trace + [Finished(id, ok)])
    ensures InvWith(t, hand)
  {
    NotListed(s, id, hand);
    assert Others(s, t, id);
    OthersLive(s, t, id, Finished(id, ok));
    assert OnePlace(t, hand) by { PlaceEnds(s, t, id, hand); }
    StillCovered(s, t, id, Finished(id, ok));
    OrderedGrows(s.trace, s.need, Finished(id, ok));
    RightStays(s, t, id);
  }

  lemma {:induction false} PlaceEnds(s: State, t: State, id: nat, hand: multiset<nat>)
    requires |s.lists| == 2 && |t.lists| == 2 && OnePlace(s, hand + multiset{id})
    requires Places(t) == Places(s) && t.done.Keys == s.done.Keys - {id} && id !in hand && id !in Places(s)
    ensures OnePlace(t, hand)
  {
    forall x
      ensures (Places(t) + hand)[x] == if x in t.done then 1 else 0
    {
      assert (Places(s) + (hand + multiset{id}))[x] == if x in s.done then 1 else 0;
    }
  }

  lemma {:induction false} AdvanceKeeps(s: State, id: nat, steps: set<Step>, ok: bool, now: int, hand: multiset<nat>)
    requires InvWith(s, hand + multiset{id}) && id in s.done && id in s.need
    requires ok ==> Honest(s.trace, s.need[id], id, s.done[id] + steps)
    ensures InvWith(Advance(s, id, steps, ok, now), hand)
  {
    var done := s.done[id] + steps;
    var cur := if ok then CurSeq(done) else AllDone;
    var t := Advance(s, id, steps, ok, now);
    if cur.AllDone? {
      if ok { HonestAll(s.trace, s.need[id], id, done); }
      ToEnd(s, t, id, ok, hand);
    } else if cur.step == Data {
      ToData(s, t, id, done, hand);
    } else {
      ToFlush(s, t, id, done, hand);
    }
  }

  lemma {:induction false} HonestAll(t: seq<Act>, need: set<Step>, id: nat, done: set<Step>)
    requires Honest(t, need, id, done) && Actions <= done
    ensures Honest(t, need, id, Actions)
  {
  }

  /** Issuing a flush: everybody on the pending list is ready for it. */
  lemma {:induction false} KickKeeps(s: State, now: int, hand: multiset<nat>)
    requires InvWith(s, hand)
    ensures InvWith(Kick(s, now), hand) && NoStall(Kick(s, now))
  {
    var t := Kick(s, now);
    if t != s { IssueKeeps(s, t, hand); }
  }

  lemma {:induction false} IssueKeeps(s: State, t: State, hand: multiset<nat>)
    requires InvWith(s, hand) && s.pendIdx == s.runIdx && s.lists[s.pendIdx] != []
    requires t == s.(pendIdx := Flip(s.pendIdx), head := s.head + [FlushRq], flushes := s.flushes + 1,
                  trace := s.trace + [FlushIssued(s.flushes)])
    ensures InvWith(t, hand)
  {
    assert Others(s, t, 0);
    OthersLive(s, t, 0, FlushIssued(s.flushes));
    OrderedGrows(s.trace, s.need, FlushIssued(s.flushes));
    CountAppend(s.head, FlushRq);
    assert Covered(t) by { IssueCovers(s, t); }
    assert OnePlace(t, hand) by { PlaceSame(s, t, hand); }
    assert RightPlace(t);
  }

  lemma {:induction false} PlaceSame(s: State, t: State, hand: multiset<nat>)
    requires |s.lists| == 2 && OnePlace(s, hand) && t.lists == s.lists && t.data == s.data && t.done == s.done
    ensures OnePlace(t, hand)
  {
    assert Places(t) + hand == Places(s) + hand;
  }

  lemma {:induction false} IssueCovers(s: State, t: State)
    requires |s.lists| == 2 && s.pendIdx < 2 && AllLive(s) && RightPlace(s) && s.runIdx == s.pendIdx
    requires t.lists == s.lists && t.runIdx == s.runIdx && t.done == s.done && t.flushes == s.flushes + 1
    requires t.trace == s.trace + [FlushIssued(s.flushes)]
    ensures Covered(t)
  {
    forall id | id in s.lists[s.pendIdx] && id in s.done
      ensures IssuedAfter(t.trace, Prior(id, CurSeq(s.done[id]).step), s.flushes)
    {
      assert LiveOk(s, id);
      assert id in s.lists[0] || id in s.lists[1];
      IssueAfter(s.trace, Prior(id, CurSeq(s.done[id]).step), s.flushes);
    }
  }

  lemma {:induction false} CountAppend(h: seq<Item>, x: Item)
    ensures CountFlush(h + [x]) == CountFlush(h) + if x == FlushRq then 1 else 0
    ensures DataItems(h + [x]) == DataItems(h) + if x.DataRq? then multiset{x.id} else multiset{}
  {
    if h == [] {
      assert h + [x] == [x];
      assert [x][1..] == [];
    } else {
      CountAppend(h[1..], x);
      assert (h + [x])[1..] == h[1..] + [x];
    }
  }

  lemma {:induction false} CompleteSeqKeeps(s: State, id: nat, steps: set<Step>, ok: bool, now: int, hand: multiset<nat>)
    requires InvWith(s, hand + multiset{id}) && id in s.done && id in s.need
    requires ok ==> Honest(s.trace, s.need[id], id, s.done[id] + steps)
    ensures InvWith(CompleteSeq(s, id, steps, ok, now), hand) && NoStall(CompleteSeq(s, id, steps, ok, now))
  {
    AdvanceKeeps(s, id, steps, ok, now, hand);
    KickKeeps(Advance(s, id, steps, ok, now), now, hand);
  }

  // ---- Events

  lemma {:induction false} OrderedNeed(t: seq<Act>, need: map<nat, set<Step>>, id: nat, p: set<Step>)
    requires Ordered(t, need) && id !in need
    ensures Ordered(t, need[id := p])
  {
    forall i | 0 <= i < |t|
      ensures Justified(t[..i], need[id := p], t[i])
    {
      assert Justified(t[..i], need, t[i]);
    }
  }

  lemma {:induction false} JoinKeeps(s: State, t: State, id: nat, p: set<Step>)
    requires Inv(s) && id !in s.need && p != {} && (Post in p ==> Data in p)
    requires t == Joined(s, id, p)
    ensures InvWith(t, multiset{id}) && LiveOk(t, id)
  {
    var a := Inserted(id);
    assert id !in s.done;
    assert LiveOk(t, id) by {
      Grows(s.trace, a, a);
      SomethingToDo(p);
    }
    assert AllLive(t) by { JoinLive(s, t, id, p); }
    assert OnePlace(t, multiset{id}) by { PlaceJoins(s, t, id); }
    assert Ordered(t.trace, t.need) by {
      OrderedNeed(s.trace, s.need, id, p);
      OrderedGrows(s.trace, t.need, a);
    }
    assert Covered(t) by {
      NoPlace(s, id);
      assert Others(s, t, id);
      StillCovered(s, t, id, a);
    }
    assert RightPlace(t);
    assert InFlight(t);
  }

  lemma {:induction false} SomethingToDo(p: set<Step>)
    requires p != {}
    ensures CurSeq(Actions - p).At?
  {
    var st :| st in p;
    match st { case Pre => case Data => case Post => }
  }

  lemma {:induction false} NoPlace(s: State, id: nat)
    requires |s.lists| == 2 && s.runIdx < 2 && OnePlace(s, multiset{}) && id !in s.done
    ensures id !in s.lists[0] && id !in s.lists[1] && id !in s.data && id !in s.lists[s.runIdx]
  {
    assert (Places(s) + multiset{})[id] == 0;
  }

  lemma {:induction false} JoinLive(s: State, t: State, id: nat, p: set<Step>)
    requires AllLive(s) && t == Joined(s, id, p) && LiveOk(t, id) && id !in s.need
    ensures AllLive(t)
  {
    forall x | x in t.done
      ensures LiveOk(t, x)
    {
      if x != id {
        assert LiveOk(s, x);
        HonestGrows(s.trace, Inserted(id), s.need[x], x, s.done[x]);
      }
    }
  }

  lemma {:induction false} PlaceJoins(s: State, t: State, id: nat)
    requires |s.lists| == 2 && OnePlace(s, multiset{}) && id !in s.done
    requires t.lists == s.lists && t.data == s.data && t.done.Keys == s.done.Keys + {id}
    ensures OnePlace(t, multiset{id})
  {
    forall x
      ensures (Places(t) + multiset{id})[x] == if x in t.done then 1 else 0
    {
      assert (Places(s) + multiset{})[x] == if x in s.done then 1 else 0;
    }
  }

  /** What submitters guarantee: a flush or FUA request (the latter with data)
      for a device with a volatile cache, with a fresh identity. */
  predicate Submittable(s: State, caps: Caps, rq: Rq) {
    caps.flush && (rq.flush || rq.fua) && (rq.fua ==> rq.data) && rq.id !in s.need
  }

  lemma {:induction false} InsertKeeps(s: State, caps: Caps, rq: Rq, now: int)
    requires Inv(s) && Submittable(s, caps, rq)
    ensures Inv(Insert(s, caps, rq, now))
  {
    var p := Policy(caps, rq);
    if Data in p && Pre !in p && Post !in p {
      PlainKeeps(s, s.(head := s.head + [PlainRq(rq.id)]), rq.id);
    } else {
      var t := Joined(s, rq.id, p);
      JoinKeeps(s, t, rq.id, p);
      assert multiset{} + multiset{rq.id} == multiset{rq.id};
      assert t.done[rq.id] + {} == t.done[rq.id];
      CompleteSeqKeeps(t, rq.id, {}, true, now, multiset{});
    }
  }

  lemma {:induction false} PlainKeeps(s: State, t: State, id: nat)
    requires Inv(s) && t == s.(head := s.head + [PlainRq(id)])
    ensures Inv(t)
  {
    CountAppend(s.head, PlainRq(id));
    assert Others(s, t, 0);
    OthersLive(s, t, 0, Inserted(0));
    PlaceSame(s, t, multiset{});
  }

  lemma {:induction false} FetchKeeps(s: State)
    requires Inv(s) && s.head != []
    ensures Inv(Fetch(s))
  {
    var t := Fetch(s);
    assert Others(s, t, 0);
    OthersLive(s, t, 0, Inserted(0));
    PlaceSame(s, t, multiset{});
    assert InFlight(t) by { FetchInFlight(s, t); }
    assert Covered(t) by { FetchCovered(s, t); }
    assert RightPlace(t);
  }

  lemma {:induction false} FetchCovered(s: State, t: State)
    requires |s.lists| == 2 && s.runIdx < 2 && Covered(s) && s.head != [] && t == Fetch(s)
    ensures Covered(t)
  {
    if t.pendIdx != t.runIdx {
      forall id | id in t.lists[t.runIdx] && id in t.done && CurSeq(t.done[id]).At?
        ensures IssuedAfter(t.trace, Prior(id, CurSeq(t.done[id]).step), t.flushes - 1)
      {
        assert IssuedAfter(s.trace, Prior(id, CurSeq(s.done[id]).step), s.flushes - 1);
      }
    }
  }

  lemma {:induction false} FetchInFlight(s: State, t: State)
    requires |s.lists| == 2 && s.pendIdx < 2 && s.runIdx < 2 && InFlight(s) && OnePlace(s, multiset{})
    requires s.head != [] && t == Fetch(s)
    ensures InFlight(t)
  {
    if s.head[0].DataRq? {
      var id := s.head[0].id;
      assert (Places(s) + multiset{})[id] <= 1;
      assert multiset(s.data)[id] <= 1;
      assert (DataItems(s.head) + multiset(s.dataAtDevice))[id] <= 1;
      assert id !in s.dataAtDevice;
    }
  }

  lemma {:induction false} DataEndKeeps(s: State, id: nat, ok: bool, now: int)
    requires Inv(s) && id in s.dataAtDevice
    ensures id in s.done && CurSeq(s.done[id]) == At(Data) && Inv(DataEnd(s, id, ok, now))
  {
    assert id in s.data by { assert id in DataItems(s.head) + multiset(s.dataAtDevice); }
    assert LiveOk(s, id);
    var t := DataOff(s, id, ok);
    DataOffKeeps(s, t, id, ok);
    if ok { DataHonest(s.trace, s.need[id], id, s.done[id]); }
    assert multiset{} + multiset{id} == multiset{id};
    CompleteSeqKeeps(t, id, {Data}, ok, now, multiset{});
  }

  lemma {:induction false} DataHonest(t: seq<Act>, need: set<Step>, id: nat, done: set<Step>)
    requires Honest(t, need, id, done) && CurSeq(done) == At(Data)
    ensures Honest(t + [DataEnded(id, true)], need, id, done + {Data})
  {
    HonestGrows(t, DataEnded(id, true), need, id, done);
    Grows(t, DataEnded(id, true), DataEnded(id, true));
  }

  lemma {:induction false} DataOffKeeps(s: State, t: State, id: nat, ok: bool)
    requires Inv(s) && id in s.dataAtDevice && id in s.data && t == DataOff(s, id, ok)
    ensures InvWith(t, multiset{id})
  {
    var a := DataEnded(id, ok);
    assert Others(s, t, id);
    assert LiveOk(s, id);
    OthersLive(s, t, id, a);
    PlaceOff(s, t, id);
    OrderedGrows(s.trace, s.need, a);
    OffInFlight(s, t, id, ok);
    StillCovered(s, t, id, a);
  }

  lemma {:induction false} PlaceOff(s: State, t: State, id: nat)
    requires |s.lists| == 2 && s.runIdx < 2 && OnePlace(s, multiset{}) && RightPlace(s) && id in s.data
    requires t.lists == s.lists && t.done == s.done && t.data == Remove(s.data, id)
    ensures OnePlace(t, multiset{id}) && RightPlace(t)
    ensures id !in s.lists[s.runIdx]
  {
    assert (Places(s) + multiset{})[id] <= 1 && multiset(s.data)[id] >= 1;
    forall x
      ensures (Places(t) + multiset{id})[x] == if x in t.done then 1 else 0
      ensures x in t.data ==> x in s.data
    {
      PlaceOffAt(s, t, id, x);
    }
  }

  lemma {:induction false} PlaceOffAt(s: State, t: State, id: nat, x: nat)
    requires |s.lists| == 2 && s.runIdx < 2 && OnePlace(s, multiset{}) && id in s.data
    requires t.lists == s.lists && t.done == s.done && t.data == Remove(s.data, id)
    ensures (Places(t) + multiset{id})[x] == if x in t.done then 1 else 0
    ensures x in t.data ==> x in s.data
  {
    assert multiset(s.data)[id] >= 1;
    assert (Places(s) + multiset{})[x] == if x in s.done then 1 else 0;
    assert multiset(t.data)[x] == multiset(s.data)[x] - (if x == id then 1 else 0);
    assert x in t.data ==> multiset(t.data)[x] >= 1;
  }

  lemma {:induction false} OffInFlight(s: State, t: State, id: nat, ok: bool)
    requires |s.lists| == 2 && s.pendIdx < 2 && s.runIdx < 2 && InFlight(s)
    requires id in s.dataAtDevice && t == DataOff(s, id, ok)
    ensures InFlight(t)
  {
    assert multiset(s.dataAtDevice - {id}) == multiset(s.dataAtDevice) - multiset{id};
  }

  // ---- The end of a flush

  /** What is known of the requests taken off the running list. */
  ghost predicate Waiting(s: State, l: seq<nat>, ok: bool) {
    forall id :: id in l ==>
                   && id in s.done && CurSeq(s.done[id]).At? && CurSeq(s.done[id]).step != Data
                   && (ok ==> Flushed(s.trace, Prior(id, CurSeq(s.done[id]).step)))
  }

  lemma {:induction false} FlushOffKeeps(s: State, t: State, ok: bool)
    requires Inv(s) && s.flushAtDevice
    ensures s.flushes > 0 && s.pendIdx != s.runIdx && s.lists[s.runIdx] != []
    ensures t == FlushOff(s, ok) ==> InvWith(t, multiset(s.lists[s.runIdx])) && Waiting(t, s.lists[s.runIdx], ok)
  {
    var a := FlushEnded(s.flushes - 1, ok);
    var l := s.lists[s.runIdx];
    if t == FlushOff(s, ok) {
      assert Others(s, t, 0);
      OthersLive(s, t, 0, a);
      OrderedGrows(s.trace, s.need, a);
      OffPlace(s, t, l);
      assert Waiting(t, l, ok) by { OffWaiting(s, t, l, ok); }
      assert InFlight(t);
      assert Covered(t);
    }
  }

  lemma {:induction false} OffPlace(s: State, t: State, l: seq<nat>)
    requires |s.lists| == 2 && s.runIdx < 2 && OnePlace(s, multiset{}) && RightPlace(s) && l == s.lists[s.runIdx]
    requires t.lists == s.lists[s.runIdx := []] && t.data == s.data && t.done == s.done
    ensures OnePlace(t, multiset(l)) && RightPlace(t)
  {
    assert Places(t) + multiset(l) == Places(s) + multiset{};
    forall x
      ensures (Places(t) + multiset(l))[x] == if x in t.done then 1 else 0
    {
      assert (Places(s) + multiset{})[x] == if x in s.done then 1 else 0;
    }
  }

  lemma {:induction false} OffWaiting(s: State, t: State, l: seq<nat>, ok: bool)
    requires |s.lists| == 2 && s.runIdx < 2 && s.pendIdx != s.runIdx && RightPlace(s) && Covered(s)
    requires l == s.lists[s.runIdx] && t.done == s.done && t.trace == s.trace + [FlushEnded(s.flushes - 1, ok)]
    ensures Waiting(t, l, ok)
  {
    forall id | id in l
      ensures id in t.done && CurSeq(t.done[id]).At? && CurSeq(t.done[id]).step != Data
      ensures ok ==> Flushed(t.trace, Prior(id, CurSeq(t.done[id]).step))
    {
      assert id in s.lists[0] || id in s.lists[1];
      if ok { EndAfter(s.trace, Prior(id, CurSeq(s.done[id]).step), s.flushes - 1); }
    }
  }

  /** What one step of the loop does to the history and the other requests. */
  lemma {:induction false} StepEffect(s: State, id: nat, steps: set<Step>, ok: bool, now: int)
    requires |s.lists| == 2 && s.pendIdx < 2 && id in s.done
    ensures var t := CompleteSeq(s, id, steps, ok, now);
            && Others(s, t, id) && t.need == s.need && s.trace <= t.trace && |t.lists| == 2
            && |t.trace| <= |s.trace| + 2
  {
  }

  lemma {:induction false} FlushedLonger(t: seq<Act>, u: seq<Act>, x: Act)
    requires Flushed(t, x) && t <= u
    ensures Flushed(u, x)
  {
    var i, j, k, n :| i < j < k && Did(t, x, i) && Did(t, FlushIssued(n), j) && Did(t, FlushEnded(n, true), k);
    assert Did(u, x, i) && Did(u, FlushIssued(n), j) && Did(u, FlushEnded(n, true), k);
  }

  lemma {:induction false} StillWaiting(s: State, t: State, id: nat, l: seq<nat>, ok: bool)
    requires Waiting(s, l, ok) && Others(s, t, id) && s.trace <= t.trace && id !in l
    ensures Waiting(t, l, ok)
  {
    forall x | x in l
      ensures x in t.done && CurSeq(t.done[x]).At? && CurSeq(t.done[x]).step != Data
      ensures ok ==> Flushed(t.trace, Prior(x, CurSeq(t.done[x]).step))
    {
      assert x in s.done && s.done[x] == t.done[x];
      if ok { FlushedLonger(s.trace, t.trace, Prior(x, CurSeq(s.done[x]).step)); }
    }
  }

  lemma {:induction false} FlushHonest(t: seq<Act>, need: set<Step>, id: nat, done: set<Step>)
    requires Honest(t, need, id, done) && CurSeq(done).At? && CurSeq(done).step != Data
    requires Flushed(t, Prior(id, CurSeq(done).step))
    ensures Honest(t, need, id, done + {CurSeq(done).step})
  {
  }

  lemma {:induction false} PushKeeps(s: State, l: seq<nat>, ok: bool, now: int)
    requires InvWith(s, multiset(l)) && Waiting(s, l, ok)
    ensures InvWith(PushOn(s, l, ok, now), multiset{})
    ensures l != [] ==> NoStall(PushOn(s, l, ok, now))
    decreases |l|
  {
    if l == [] {
      assert multiset(l) == multiset{};
    } else {
      var id := l[0];
      var rest := l[1..];
      assert l == [id] + rest;
      assert multiset(l) == multiset(rest) + multiset{id};
      assert id in l;
      var st := CurSeq(s.done[id]).step;
      assert LiveOk(s, id);
      if ok { FlushHonest(s.trace, s.need[id], id, s.done[id]); }
      var t := CompleteSeq(s, id, {st}, ok, now);
      CompleteSeqKeeps(s, id, {st}, ok, now, multiset(rest));
      StepEffect(s, id, {st}, ok, now);
      NotListed(s, id, multiset(rest));
      StillWaiting(s, t, id, rest, ok);
      PushKeeps(t, rest, ok, now);
    }
  }

  lemma {:induction false} FlushEndKeeps(s: State, ok: bool, now: int)
    requires Inv(s) && s.flushAtDevice
    ensures s.flushes > 0 && s.pendIdx != s.runIdx && s.lists[s.runIdx] != []
    ensures forall id :: id in s.lists[s.runIdx] ==> id in s.done
    ensures Inv(FlushEnd(s, ok, now))
  {
    var t := FlushOff(s, ok);
    FlushOffKeeps(s, t, ok);
    PushKeeps(t, s.lists[s.runIdx], ok, now);
  }
}
