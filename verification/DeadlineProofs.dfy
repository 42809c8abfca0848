/**
 Every operation of the deadline scheduler keeps its two indexes in step
 (block/deadline-iosched.c).
 */
module DeadlineProofs {
  import opened Deadline

  // ---- Taking a request out

  lemma {:induction false} MinusUnique(l: seq<nat>, x: nat)
    requires Unique(l)
    ensures Unique(Minus(l, x)) && |Minus(l, x)| == |l| - (if x in l then 1 else 0)
  {
    if l != [] {
      var r := l[1..];
      assert forall i :: 0 <= i < |r| ==> r[i] == l[i + 1];
      MinusUnique(r, x);
      MinusMembers(r, x);
      assert l == [l[0]] + r && l[0] !in r;
    }
  }

  lemma {:induction false} MinusAscends(info: map<nat, Rq>, l: seq<nat>, x: nat, write: bool)
    requires Known(info, l, write) && Ascends(info, l, write)
    ensures Known(info, Minus(l, x), write) && Ascends(info, Minus(l, x), write)
  {
    MinusKnown(info, l, x, write);
    if l != [] {
      var r := l[1..];
      assert forall i :: 0 <= i < |r| ==> r[i] == l[i + 1];
      MinusAscends(info, r, x, write);
      MinusMembers(r, x);
      var m := Minus(r, x);
      forall j | 0 <= j < |m| ensures info[l[0]].pos < info[m[j]].pos { assert m[j] in r; }
    }
  }

  lemma {:induction false} MinusAges(info: map<nat, Rq>, l: seq<nat>, x: nat, write: bool)
    requires Known(info, l, write) && Ages(info, l, write)
    ensures Known(info, Minus(l, x), write) && Ages(info, Minus(l, x), write)
  {
    MinusKnown(info, l, x, write);
    if l != [] {
      var r := l[1..];
      assert forall i :: 0 <= i < |r| ==> r[i] == l[i + 1];
      MinusAges(info, r, x, write);
      MinusMembers(r, x);
      var m := Minus(r, x);
      forall j | 0 <= j < |m| ensures info[l[0]].time <= info[m[j]].time { assert m[j] in r; }
    }
  }

  lemma {:induction false} MinusRecent(info: map<nat, Rq>, l: seq<nat>, x: nat, write: bool, last: int)
    requires Known(info, l, write) && Recent(info, l, write, last)
    ensures Known(info, Minus(l, x), write) && Recent(info, Minus(l, x), write, last)
  {
    MinusKnown(info, l, x, write);
    MinusMembers(l, x);
    var m := Minus(l, x);
    forall i | 0 <= i < |m| ensures info[m[i]].time <= last { assert m[i] in l; }
  }

  lemma {:induction false} FifoMinus(info: map<nat, Rq>, side: Side, side': Side, x: nat, write: bool, last: int)
    requires FifoOk(info, side, write, last) && side'.fifo == Minus(side.fifo, x)
    ensures FifoOk(info, side', write, last)
  {
    MinusUnique(side.fifo, x);
    MinusAges(info, side.fifo, x, write);
    MinusRecent(info, side.fifo, x, write, last);
  }

  lemma {:induction false} SameMinus(a: seq<nat>, b: seq<nat>, x: nat)
    requires Same(a, b)
    ensures Same(Minus(a, x), Minus(b, x))
  {
    MinusMembers(a, x);
    MinusMembers(b, x);
  }

  lemma {:induction false} AscendsUnique(info: map<nat, Rq>, l: seq<nat>, write: bool)
    requires Known(info, l, write) && Ascends(info, l, write)
    ensures Unique(l)
  {
    forall i, j | 0 <= i < j < |l| ensures l[i] != l[j] { assert info[l[i]].pos < info[l[j]].pos; }
  }

  lemma {:induction false} LatterMember(l: seq<nat>, x: nat)
    requires Unique(l)
    ensures Latter(l, x).At? ==> Latter(l, x).id in l && Latter(l, x).id != x && Latter(l, x).id in Minus(l, x)
  {
    if l != [] {
      var r := l[1..];
      assert forall i :: 0 <= i < |r| ==> r[i] == l[i + 1];
      assert l == [l[0]] + r;
      MinusMembers(l, x);
      if l[0] == x {
        if |l| > 1 { assert l[1] in l; }
      } else {
        LatterMember(r, x);
      }
    }
  }

  /** The latter request is the one with the next larger start sector. */
  lemma {:induction false} LatterIsNext(info: map<nat, Rq>, l: seq<nat>, i: nat, write: bool)
    requires Known(info, l, write) && Ascends(info, l, write) && i < |l|
    ensures Latter(l, l[i]) == if i + 1 < |l| then At(l[i + 1]) else NoNext
    ensures forall k :: 0 <= k < |l| && info[l[k]].pos > info[l[i]].pos ==> Latter(l, l[i]).At? && i + 1 <= k
  {
    AscendsUnique(info, l, write);
    LatterAt(l, i);
    assert forall k :: 0 <= k < i ==> info[l[k]].pos < info[l[i]].pos;
  }

  lemma {:induction false} LatterAt(l: seq<nat>, i: nat)
    requires Unique(l) && i < |l|
    ensures Latter(l, l[i]) == if i + 1 < |l| then At(l[i + 1]) else NoNext
  {
    if i > 0 {
      var r := l[1..];
      assert forall j :: 0 <= j < |r| ==> r[j] == l[j + 1];
      LatterAt(r, i - 1);
    }
  }

  // ---- Putting a request in

  lemma {:induction false} PutMembers(info: map<nat, Rq>, l: seq<nat>, id: nat, pos: nat, write: bool)
    requires Known(info, l, write)
    ensures forall x :: x in Put(info, l, id, pos, write) <==> x in l || x == id
  {
    if l != [] && pos >= info[l[0]].pos {
      PutMembers(info, l[1..], id, pos, write);
      assert l == [l[0]] + l[1..];
    }
  }

  lemma {:induction false} PutAscends(info: map<nat, Rq>, l: seq<nat>, id: nat, pos: nat, write: bool)
    requires Known(info, l, write) && Ascends(info, l, write)
    requires id in info && info[id].pos == pos && info[id].write == write
    requires forall i :: 0 <= i < |l| ==> info[l[i]].pos != pos
    ensures Known(info, Put(info, l, id, pos, write), write) && Ascends(info, Put(info, l, id, pos, write), write)
  {
    if l != [] && pos > info[l[0]].pos {
      var r := l[1..];
      assert forall i :: 0 <= i < |r| ==> r[i] == l[i + 1];
      PutAscends(info, r, id, pos, write);
      PutMembers(info, r, id, pos, write);
      var p := Put(info, r, id, pos, write);
      forall j | 0 <= j < |p| ensures info[l[0]].pos < info[p[j]].pos { assert p[j] in r || p[j] == id; }
    } else if l != [] {
      forall j | 0 <= j < |l| ensures pos < info[l[j]].pos { assert j == 0 || info[l[0]].pos < info[l[j]].pos; }
    }
  }

  // ---- Sending a request out

  lemma {:induction false} SideMoved(info: map<nat, Rq>, side: Side, id: nat, write: bool, last: int)
    requires SideOk(info, side, write, last)
    ensures SideOk(info, Side(Minus(side.fifo, id), Minus(side.sort, id), Latter(side.sort, id)), write, last)
  {
    var r := Side(Minus(side.fifo, id), Minus(side.sort, id), Latter(side.sort, id));
    MinusAscends(info, side.sort, id, write);
    AscendsUnique(info, side.sort, write);
    LatterMember(side.sort, id);
    FifoMinus(info, side, r, id, write, last);
    SameMinus(side.fifo, side.sort, id);
  }

  lemma {:induction false} MovedKeeps(s: State, t: Tunables, now: int, id: nat)
    requires Inv(s, t, now) && id in s.info && id in Of(s, s.info[id].write).fifo
    ensures Inv(Moved(s, id), t, now)
  {
    var write := s.info[id].write;
    SideMoved(s.info, Of(s, write), id, write, now + Expire(t, write));
    MinusUnique(Of(s, write).fifo, id);
  }

  // ---- Sorted insert, with one request half in

  /** Everything is in step except request id: it is not in its sort list, may
      be in its fifo list, and may be the next one to dispatch. */
  ghost predicate Loose(s: State, t: Tunables, now: int, id: nat) {
    && id in s.info
    && var write := s.info[id].write;
       var side := Of(s, write);
       && Known(s.info, side.sort, write) && Ascends(s.info, side.sort, write) && id !in side.sort
       && (side.next.At? ==> side.next.id in side.sort || side.next.id == id)
       && FifoOk(s.info, side, write, now + Expire(t, write))
       && (forall x :: x != id ==> (x in side.fifo <==> x in side.sort))
       && SideInv(s, t, now, !write)
       && !(s.rd.next.At? && s.wr.next.At?)
  }

  /** Request id is in its sort list now. */
  ghost predicate Firm(s: State, t: Tunables, now: int, id: nat) {
    && id in s.info
    && var write := s.info[id].write;
       var side := Of(s, write);
       && SortOk(s.info, side, write) && id in side.sort
       && FifoOk(s.info, side, write, now + Expire(t, write))
       && (forall x :: x != id ==> (x in side.fifo <==> x in side.sort))
       && SideInv(s, t, now, !write)
       && !(s.rd.next.At? && s.wr.next.At?)
  }

  lemma {:induction false} AliasMoved(s: State, t: Tunables, now: int, id: nat, alias: nat)
    requires Loose(s, t, now, id) && alias != id && alias in s.info && s.info[alias].write == s.info[id].write
    requires alias in Of(s, s.info[id].write).sort
    ensures Loose(Moved(s, alias), t, now, id)
    ensures var w := s.info[id].write;
            |Of(Moved(s, alias), w).fifo| == |Of(s, w).fifo| - 1 && Of(Moved(s, alias), !w).fifo == Of(s, !w).fifo
  {
    var write := s.info[id].write;
    var side, side' := Of(s, write), Of(Moved(s, alias), write);
    MinusAscends(s.info, side.sort, alias, write);
    AscendsUnique(s.info, side.sort, write);
    LatterMember(side.sort, alias);
    FifoMinus(s.info, side, side', alias, write, now + Expire(t, write));
    MinusUnique(side.fifo, alias);
    MinusMembers(side.fifo, alias);
    MinusMembers(side.sort, alias);
  }

  lemma {:induction false} PutInFirm(s: State, t: Tunables, now: int, id: nat)
    requires Loose(s, t, now, id)
    requires var w := s.info[id].write;
             forall i :: 0 <= i < |Of(s, w).sort| ==> s.info[Of(s, w).sort[i]].pos != s.info[id].pos
    ensures Firm(PutIn(s, id), t, now, id)
  {
    var rq := s.info[id];
    var side := Of(s, rq.write);
    PutAscends(s.info, side.sort, id, rq.pos, rq.write);
    PutMembers(s.info, side.sort, id, rq.pos, rq.write);
  }

  /** Once the alias is gone, no other request starts there. */
  lemma {:induction false} NoSecondAlias(info: map<nat, Rq>, sort: seq<nat>, alias: nat, write: bool)
    requires Known(info, sort, write) && Ascends(info, sort, write) && alias in sort
    ensures Known(info, Minus(sort, alias), write)
    ensures forall i :: 0 <= i < |Minus(sort, alias)| ==> info[Minus(sort, alias)[i]].pos != info[alias].pos
  {
    MinusKnown(info, sort, alias, write);
    MinusMembers(sort, alias);
    var m := Minus(sort, alias);
    forall i | 0 <= i < |m| ensures info[m[i]].pos != info[alias].pos {
      assert m[i] in sort;
      var j, k :| 0 <= j < |sort| && 0 <= k < |sort| && sort[j] == m[i] && sort[k] == alias;
      assert j != k;
    }
  }

  lemma {:induction false} AddRbKeeps(s: State, t: Tunables, now: int, id: nat)
    requires Indexed(s) && Loose(s, t, now, id)
    ensures Firm(AddRb(s, id), t, now, id) && AddRb(s, id).info == s.info
    ensures var r := AddRb(s, id);
            s.nrSorted - |s.rd.fifo| - |s.wr.fifo| == r.nrSorted - |r.rd.fifo| - |r.wr.fifo|
    ensures id in Of(AddRb(s, id), s.info[id].write).fifo <==> id in Of(s, s.info[id].write).fifo
  {
    var rq := s.info[id];
    var side := Of(s, rq.write);
    var alias := Find(s.info, side.sort, rq.pos, rq.write);
    FindMember(s.info, side.sort, rq.pos, rq.write);
    if alias.At? {
      AliasMoved(s, t, now, id, alias.id);
      MinusMembers(side.fifo, alias.id);
      NoSecondAlias(s.info, side.sort, alias.id, rq.write);
      PutInFirm(Moved(s, alias.id), t, now, id);
    } else {
      PutInFirm(s, t, now, id);
    }
  }

  // ---- The operations

  /** What is known of the members of a list does not change when other
      requests do. */
  lemma {:induction false} Frame(info: map<nat, Rq>, info': map<nat, Rq>, side: Side, write: bool, last: int, last': int)
    requires last <= last' && FifoOk(info, side, write, last)
    requires Known(info, side.sort, write) && Ascends(info, side.sort, write)
    requires forall x :: x in side.fifo || x in side.sort ==> x in info' && info'[x] == info[x]
    ensures FifoOk(info', side, write, last') && Known(info', side.sort, write) && Ascends(info', side.sort, write)
  {
    assert forall i :: 0 <= i < |side.fifo| ==> side.fifo[i] in side.fifo;
    assert forall i :: 0 <= i < |side.sort| ==> side.sort[i] in side.sort;
  }

  lemma {:induction false} ClockRuns(s: State, t: Tunables, now: int, now': int)
    requires Inv(s, t, now) && now <= now'
    ensures Inv(s, t, now')
  {
    Frame(s.info, s.info, s.rd, false, now + t.readExpire, now' + t.readExpire);
    Frame(s.info, s.info, s.wr, true, now + t.writeExpire, now' + t.writeExpire);
  }

  lemma {:induction false} NewIsLoose(s: State, t: Tunables, now: int, id: nat, rq: Rq, s': State)
    requires Inv(s, t, now) && id !in s.info && s' == Accepted(s, t, id, rq, now)
    ensures Loose(s', t, now, id) && Indexed(s') && id !in Of(s', rq.write).fifo
  {
    var info' := s'.info;
    Strangers(s.info, s.rd, false, now + t.readExpire, id);
    Strangers(s.info, s.wr, true, now + t.writeExpire, id);
    Frame(s.info, info', s.rd, false, now + t.readExpire, now + t.readExpire);
    Frame(s.info, info', s.wr, true, now + t.writeExpire, now + t.writeExpire);
  }

  lemma {:induction false} Strangers(info: map<nat, Rq>, side: Side, write: bool, last: int, id: nat)
    requires SideOk(info, side, write, last) && id !in info
    ensures id !in side.fifo && id !in side.sort
    ensures forall x :: x in side.fifo || x in side.sort ==> x in info && x != id
  {
    forall x | x in side.fifo || x in side.sort ensures x in info && x != id {
      assert x in side.fifo;
      var i :| 0 <= i < |side.fifo| && side.fifo[i] == x;
    }
  }

  /** The newest request goes to the end of its fifo list. */
  lemma {:induction false} FifoGrows(info: map<nat, Rq>, side: Side, id: nat, write: bool, last: int)
    requires FifoOk(info, side, write, last) && id in info && info[id].write == write && info[id].time == last
    requires id !in side.fifo
    ensures FifoOk(info, side.(fifo := side.fifo + [id]), write, last)
  {
  }

  /** Now it is in both lists. */
  lemma {:induction false} FirmGrows(s: State, t: Tunables, now: int, id: nat, write: bool)
    requires Firm(s, t, now, id) && write == s.info[id].write && s.info[id].time == now + Expire(t, write)
    requires id !in Of(s, write).fifo
    requires s.nrSorted == |s.rd.fifo| + |s.wr.fifo| + 1
    ensures Inv(FifoPut(s, id, write), t, now) && id in Of(FifoPut(s, id, write), write).fifo
  {
    FifoGrows(s.info, Of(s, write), id, write, now + Expire(t, write));
  }

  lemma {:induction false} AddedKeeps(s: State, t: Tunables, now: int, id: nat, rq: Rq)
    requires Inv(s, t, now) && Indexed(s) && id !in s.info
    ensures Inv(Added(s, t, id, rq, now), t, now)
    ensures id in Of(Added(s, t, id, rq, now), rq.write).fifo
  {
    var s0 := Accepted(s, t, id, rq, now);
    NewIsLoose(s, t, now, id, rq, s0);
    AddRbKeeps(s0, t, now, id);
    FirmGrows(AddRb(s0, id), t, now, id, rq.write);
  }

  lemma {:induction false} RepositionIsLoose(s: State, t: Tunables, now: int, id: nat, pos: nat, s0: State)
    requires Inv(s, t, now) && id in s.info && id in Of(s, s.info[id].write).fifo
    requires s0 == With(s.(info := s.info[id := s.info[id].(pos := pos)]), s.info[id].write,
                        Of(s, s.info[id].write).(sort := Minus(Of(s, s.info[id].write).sort, id)))
    ensures Loose(s0, t, now, id) && Indexed(s0)
  {
    var write := s.info[id].write;
    OwnSideMoved(s.info, Of(s, write), id, pos, write, now + Expire(t, write));
    OtherSide(s, t, now, id);
    Frame(s.info, s0.info, Of(s, !write), !write, now + Expire(t, !write), now + Expire(t, !write));
  }

  /** Out of the sort order, the start sector of id may change. */
  lemma {:induction false} OwnSideMoved(info: map<nat, Rq>, side: Side, id: nat, pos: nat, write: bool, last: int)
    requires SideOk(info, side, write, last) && id in info
    ensures var info', m := info[id := info[id].(pos := pos)], Minus(side.sort, id);
            && Known(info', m, write) && Ascends(info', m, write) && id !in m
            && FifoOk(info', side.(sort := m), write, last)
            && (forall x :: x != id ==> (x in side.fifo <==> x in m))
  {
    var info', m := info[id := info[id].(pos := pos)], Minus(side.sort, id);
    MinusAscends(info, side.sort, id, write);
    MinusMembers(side.sort, id);
    assert forall i :: 0 <= i < |m| ==> m[i] in m;
    assert forall i :: 0 <= i < |side.fifo| ==> info'[side.fifo[i]].time == info[side.fifo[i]].time;
  }

  lemma {:induction false} OtherSide(s: State, t: Tunables, now: int, id: nat)
    requires Inv(s, t, now) && id in s.info
    ensures var other := Of(s, !s.info[id].write);
            forall x :: x in other.fifo || x in other.sort ==> x in s.info && x != id
  {
    var write := s.info[id].write;
    var other := Of(s, !write);
    assert SideInv(s, t, now, !write);
    forall x | x in other.fifo || x in other.sort ensures x in s.info && x != id {
      assert x in other.fifo;
      var i :| 0 <= i < |other.fifo| && other.fifo[i] == x;
    }
  }

  lemma {:induction false} FrontMergedKeeps(s: State, t: Tunables, now: int, id: nat, pos: nat)
    requires Inv(s, t, now) && Indexed(s) && id in s.info && id in Of(s, s.info[id].write).fifo
    ensures Inv(FrontMerged(s, id, pos), t, now)
  {
    var rq := s.info[id];
    var side := Of(s, rq.write);
    var s0 := With(s.(info := s.info[id := rq.(pos := pos)]), rq.write, side.(sort := Minus(side.sort, id)));
    RepositionIsLoose(s, t, now, id, pos, s0);
    AddRbKeeps(s0, t, now, id);
  }

  // ---- Merging two requests

  /** x's place taken by y */
  function Swap(l: seq<nat>, x: nat, y: nat): (r: seq<nat>)
    ensures |r| == |l|
  {
    if l == [] then [] else [if l[0] == x then y else l[0]] + Swap(l[1..], x, y)
  }

  lemma {:induction false} SwapAt(l: seq<nat>, x: nat, y: nat, i: nat)
    requires i < |l|
    ensures Swap(l, x, y)[i] == if l[i] == x then y else l[i]
  {
    if i > 0 { SwapAt(l[1..], x, y, i - 1); }
  }

  lemma {:induction false} MinusNone(l: seq<nat>, x: nat)
    requires x !in l
    ensures Minus(l, x) == l
  {
    if l != [] { MinusNone(l[1..], x); }
  }

  /** Moving y behind x and taking x away puts y in x's place. */
  lemma {:induction false} BehindThenMinus(l: seq<nat>, x: nat, y: nat)
    requires Unique(l) && x in l && y !in l && x != y
    ensures Minus(Behind(l, x, y), x) == Swap(l, x, y)
  {
    var r := l[1..];
    assert forall i :: 0 <= i < |r| ==> r[i] == l[i + 1];
    var b := Behind(l, x, y);
    if l[0] == x {
      assert b[1..] == [y] + r && b[1..][1..] == r;
      assert x !in r;
      MinusNone(r, x);
      SwapNone(r, x, y);
    } else {
      assert b[1..] == Behind(r, x, y);
      BehindThenMinus(r, x, y);
    }
  }

  lemma {:induction false} SwapNone(l: seq<nat>, x: nat, y: nat)
    requires x !in l
    ensures Swap(l, x, y) == l
  {
    if l != [] { SwapNone(l[1..], x, y); }
  }

  lemma {:induction false} SwapMembers(l: seq<nat>, x: nat, y: nat)
    requires x in l
    ensures forall z :: z in Swap(l, x, y) <==> (z in l && z != x) || z == y
  {
    var r := Swap(l, x, y);
    forall z ensures z in r <==> (z in l && z != x) || z == y {
      if z in r {
        var i :| 0 <= i < |r| && r[i] == z;
        SwapAt(l, x, y, i);
      }
      if (z in l && z != x) || z == y {
        var i :| 0 <= i < |l| && (if z == y && !(z in l && z != x) then l[i] == x else l[i] == z);
        SwapAt(l, x, y, i);
        assert r[i] in r;
      }
    }
  }

  /** In the place of a request with the same expiry, ages stay in order. */
  lemma {:induction false} SwapFifo(info: map<nat, Rq>, info': map<nat, Rq>, side: Side, side': Side, x: nat, y: nat, write: bool, last: int)
    requires FifoOk(info, side, write, last) && x in side.fifo && y !in side.fifo && side'.fifo == Swap(side.fifo, x, y)
    requires y in info' && x in info && info'[y].time == info[x].time && info'[y].write == write
    requires forall z :: z in info && z != y ==> z in info' && info'[z] == info[z]
    ensures FifoOk(info', side', write, last)
  {
    var l, r := side.fifo, side'.fifo;
    forall i | 0 <= i < |r| ensures r[i] == if l[i] == x then y else l[i] { SwapAt(l, x, y, i); }
    assert forall i :: 0 <= i < |l| ==> l[i] != y;
    assert forall i :: 0 <= i < |r| ==> r[i] in info' && info'[r[i]].time == info[l[i]].time && info'[r[i]].write == write;
  }

  lemma {:induction false} SortRemoved(info: map<nat, Rq>, side: Side, id: nat, write: bool)
    requires SortOk(info, side, write)
    ensures SortOk(info, Removed(side, id), write)
  {
    MinusAscends(info, side.sort, id, write);
    AscendsUnique(info, side.sort, write);
    LatterMember(side.sort, id);
    MinusMembers(side.sort, id);
  }

  lemma {:induction false} TimeChanged(info: map<nat, Rq>, side: Side, write: bool, id: nat, time: int)
    requires SortOk(info, side, write) && id in info
    ensures SortOk(info[id := info[id].(time := time)], side, write)
  {
  }

  /** The survivor takes the earlier expiry and the place that goes with it. */
  lemma {:induction false} EarlierPlace(info: map<nat, Rq>, side: Side, id: nat, next: nat, write: bool, last: int)
    requires SideOk(info, side, write, last) && id in side.fifo && next in side.fifo && id != next && id in info && next in info
    requires info[id].write == write
    ensures var info' := info[id := info[id].(time := info[next].time)];
            var side' := Removed(side.(fifo := Behind(Minus(side.fifo, id), next, id)), next);
            SideOk(info', side', write, last) && |side'.fifo| == |side.fifo| - 1
  {
    var info' := info[id := info[id].(time := info[next].time)];
    var m := Minus(side.fifo, id);
    var side' := Removed(side.(fifo := Behind(m, next, id)), next);
    var mid := side.(fifo := m);
    MinusMembers(side.fifo, id);
    MinusUnique(side.fifo, id);
    FifoMinus(info, side, mid, id, write, last);
    BehindThenMinus(m, next, id);
    assert FifoOk(info', side', write, last) by { SwapFifo(info, info', mid, side', next, id, write, last); }
    assert SortOk(info', side', write) by {
      SortRemoved(info, side, next, write);
      TimeChanged(info, Removed(side, next), write, id, info[next].time);
    }
    SwapMembers(m, next, id);
    MinusMembers(side.sort, next);
  }

  /** deadline_remove_request takes one request out of both indexes and nothing
      else; the indexes stay in step and in order. */
  lemma {:induction false} RemovedKeeps(info: map<nat, Rq>, side: Side, id: nat, write: bool, last: int)
    requires SideOk(info, side, write, last) && id in side.fifo
    ensures SideOk(info, Removed(side, id), write, last)
    ensures multiset(side.fifo) == multiset(Removed(side, id).fifo) + multiset{id}
    ensures multiset(side.sort) == multiset(Removed(side, id).sort) + multiset{id}
  {
    SortRemoved(info, side, id, write);
    FifoMinus(info, side, Removed(side, id), id, write, last);
    SameMinus(side.fifo, side.sort, id);
    AscendsUnique(info, side.sort, write);
    MinusOne(side.fifo, id);
    MinusOne(side.sort, id);
  }

  lemma {:induction false} MinusOne(l: seq<nat>, x: nat)
    requires Unique(l) && x in l
    ensures multiset(l) == multiset(Minus(l, x)) + multiset{x}
  {
    var r := l[1..];
    assert l == [l[0]] + r;
    assert forall i :: 0 <= i < |r| ==> r[i] == l[i + 1];
    if l[0] == x {
      assert x !in r;
      MinusNone(r, x);
    } else {
      MinusOne(r, x);
    }
  }

  /** Two requests that may be merged: both sorted, in one direction. */
  predicate Mergeable(s: State, id: nat, next: nat) {
    && id != next && id in s.info && next in s.info && s.info[id].write == s.info[next].write
    && id in Of(s, s.info[id].write).fifo && next in Of(s, s.info[id].write).fifo
  }

  lemma {:induction false} LatterSide(s: State, t: Tunables, now: int, write: bool, id: nat)
    requires SideInv(s, t, now, write)
    ensures Removed(Of(s, write), id).next.At? ==> Of(s, write).next.At?
  {
  }

  lemma {:induction false} MergedRequestsKeeps(s: State, t: Tunables, now: int, id: nat, next: nat)
    requires Inv(s, t, now) && Mergeable(s, id, next)
    ensures Inv(MergedRequests(s, id, next), t, now)
  {
    var write := s.info[id].write;
    var side, last, s' := Of(s, write), now + Expire(t, write), MergedRequests(s, id, next);
    assert SideInv(s, t, now, write) && SideInv(s, t, now, !write);
    LatterSide(s, t, now, write, next);
    if s.info[next].time < s.info[id].time {
      EarlierPlace(s.info, side, id, next, write, last);
      OtherSide(s, t, now, id);
      Frame(s.info, s'.info, Of(s, !write), !write, now + Expire(t, !write), now + Expire(t, !write));
      assert SideInv(s', t, now, write) && SideInv(s', t, now, !write);
    } else {
      RemovedKeeps(s.info, side, next, write, last);
      MinusUnique(side.fifo, next);
      assert SideInv(s', t, now, write) && SideInv(s', t, now, !write);
    }
  }

  // ---- Dispatch

  lemma {:induction false} SideMember(s: State, t: Tunables, now: int, write: bool, x: nat)
    requires SideInv(s, t, now, write) && (x in Of(s, write).fifo || x in Of(s, write).sort)
    ensures x in s.info && s.info[x].write == write && x in Of(s, write).fifo
  {
    assert x in Of(s, write).fifo;
    var i :| 0 <= i < |Of(s, write).fifo| && Of(s, write).fifo[i] == x;
  }

  /** The request picked is waiting in its fifo list. */
  lemma {:induction false} PickWaits(s: State, t: Tunables, now: int)
    requires Inv(s, t, now) && Pick(s, t, now).Go?
    ensures var id := Pick(s, t, now).id;
            id in s.info && id in Of(s, s.info[id].write).fifo
  {
    var id := Pick(s, t, now).id;
    assert SideInv(s, t, now, false) && SideInv(s, t, now, true);
    if id in s.rd.fifo || id in s.rd.sort {
      SideMember(s, t, now, false, id);
    } else {
      SideMember(s, t, now, true, id);
    }
  }

  lemma {:induction false} DispatchedKeeps(s: State, t: Tunables, now: int)
    requires Inv(s, t, now)
    ensures Inv(Dispatched(s, t, now), t, now)
  {
    var c := Pick(s, t, now);
    if c.Go? {
      PickWaits(s, t, now);
      MovedKeeps(s.(batching := c.batching, starved := c.starved), t, now, c.id);
    }
  }
}
