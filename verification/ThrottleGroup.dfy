/**
 A throttled group as the code keeps it (block/blk-throttle.c).  The class
 carries the history of what was asked and sent in each direction, so the rate
 bound holds of it.
 */
module ThrottleGroup {
  import opened Throttle
  import opened ThrottleRuns
  import ThrottleAge

  datatype Bio = Bio(id: nat, size: Word)

  function SizeOf(bios: seq<Bio>): nat {
    if bios == [] then 0 else SizeOf(bios[..|bios| - 1]) + bios[|bios| - 1].size
  }

  lemma {:induction false} SizeSnoc(bios: seq<Bio>, b: Bio)
    ensures SizeOf(bios + [b]) == SizeOf(bios) + b.size
  {
    assert (bios + [b])[..|bios|] == bios;
  }

  /** The bios are tried in order at one time. */
  function Sends(bios: seq<Bio>, now: nat): (es: seq<Event>)
    ensures |es| == |bios|
  {
    if bios == [] then [] else Sends(bios[..|bios| - 1], now) + [Send(now, bios[|bios| - 1].size)]
  }

  /** The bio at the head is asked about. */
  function Asks(bios: seq<Bio>, now: nat): seq<Event> { if bios == [] then [] else [Ask(now, bios[0].size)] }

  lemma {:induction false} NextSend(h: seq<Event>, all: seq<Bio>, n: nat, now: nat)
    requires n < |all|
    ensures h + Sends(all[..n + 1], now) == h + Sends(all[..n], now) + [Send(now, all[n].size)]
    ensures all[..n] + [all[n]] == all[..n + 1] && all[n..][1..] == all[n + 1..] && all[n..][0] == all[n]
  {
    assert all[..n + 1][..n] == all[..n];
  }

  lemma {:induction false} Leaves(sent: seq<Bio>, queued: seq<Bio>)
    requires queued != []
    ensures sent + [queued[0]] + queued[1..] == sent + queued
  {
  }

  const READ: nat := 0
  const WRITE: nat := 1

  /** struct throtl_grp: one entry per direction. */
  class Group {
    const limits: seq<Limits>
    var slice: seq<Slice>
    var queued: seq<seq<Bio>>
    var disptime: nat
    // what was submitted and what went out, in order; what was asked and sent; the time
    ghost var submitted: seq<seq<Bio>>
    ghost var sent: seq<seq<Bio>>
    ghost var history: seq<seq<Event>>
    ghost var clock: nat

    ghost predicate Shape()
      reads this
    {
      && |limits| == |slice| == |queued| == |sent| == |submitted| == |history| == 2
      && LimitsOk(limits[0]) && LimitsOk(limits[1])
    }

    ghost function Acc(rw: nat): Account
      reads this
      requires Shape() && rw < 2
    {
      Account(slice[rw], SizeOf(sent[rw]), |sent[rw]|)
    }

    /** Bios leave in the order they came, and the slice and totals are those of
        the history; a direction without limits never queues. */
    ghost predicate SideOk(rw: nat)
      requires Shape() && rw < 2
      reads this
    {
      && submitted[rw] == sent[rw] + queued[rw] && Clocked(history[rw], 0, clock)
      && (if Unlimited(limits[rw]) then queued[rw] == [] else Acc(rw) == Run(Zero, limits[rw], history[rw]))
    }

    ghost predicate Valid()
      reads this
    {
      Shape() && SideOk(0) && SideOk(1)
    }

    constructor (limits: seq<Limits>)
      requires |limits| == 2 && LimitsOk(limits[0]) && LimitsOk(limits[1])
      ensures Valid() && this.limits == limits && clock == 0
      ensures history == [[], []] && queued == [[], []] && sent == [[], []]
    {
      this.limits := limits;
      slice, queued, disptime := [Zero.slice, Zero.slice], [[], []], 0;
      submitted, sent, history, clock := [[], []], [[], []], [[], []], 0;
    }

    /** The rate bound holds of the bios that went out. */
    lemma {:induction false} GroupRateBound(rw: nat, t: nat)
      requires Valid() && rw < 2 && !Unlimited(limits[rw]) && history[rw] != [] && clock <= t
      ensures BytesFits(Zero, limits[rw], history[rw]) ==>
                Within(SizeOf(sent[rw]), limits[rw].bps, limits[rw], history[rw][0].now, t)
      ensures IosFits(Zero, limits[rw], history[rw]) ==>
                Within(|sent[rw]|, limits[rw].iops, limits[rw], history[rw][0].now, t)
    {
      assert SideOk(rw);
      ClockedLater(history[rw], 0, clock, t);
      RateBound(limits[rw], history[rw], t);
    }

    /** And with limits that leave room it holds whatever the history. */
    lemma {:induction false} GroupRateBoundByLimits(rw: nat, t: nat, size: nat, d: nat)
      requires Valid() && rw < 2 && !Unlimited(limits[rw]) && history[rw] != [] && clock <= t
      requires ThrottleAge.Roomy(limits[rw], size, d) && size <= U32MAX
      requires ThrottleAge.Sized(history[rw], size) && ThrottleAge.Prompt(Zero, limits[rw], history[rw], d)
      ensures Within(SizeOf(sent[rw]), limits[rw].bps, limits[rw], history[rw][0].now, t)
      ensures Within(|sent[rw]|, limits[rw].iops, limits[rw], history[rw][0].now, t)
    {
      assert SideOk(rw);
      ClockedLater(history[rw], 0, clock, t);
      ThrottleAge.RateBoundByLimits(limits[rw], history[rw], t, size, d);
    }

    /** Start a new slice, or stretch the current one. */
    method RenewSlice(rw: nat, now: nat)
      requires Shape() && rw < 2
      modifies `slice
      ensures slice == old(slice)[rw := Current(old(slice[rw]), limits[rw], now)]
    {
      var l := limits[rw];
      if SliceUsed(slice[rw], now) {
        slice := slice[rw := NewSlice(l, now)];
      } else if slice[rw].end < now + SliceLen(l) {
        slice := slice[rw := slice[rw].(end := RoundUp(now + SliceLen(l), SliceLen(l)))];
      }
    }

    /** tg_may_dispatch, step by step. */
    method TgMayDispatch(rw: nat, bio: Bio, now: nat) returns (ok: bool, wait: nat)
      requires Shape() && rw < 2 && (queued[rw] != [] ==> bio == queued[rw][0])
      modifies `slice
      ensures var v := MayDispatch(old(slice[rw]), limits[rw], now, bio.size);
              slice == old(slice)[rw := v.slice] && ok == v.ok && wait == v.wait
    {
      assert queued[rw] == [] || bio == queued[rw][0];
      var l := limits[rw];
      if l.bps == U64MAX && l.iops == U32MAX { return true, 0; }
      RenewSlice(rw, now);
      var s := slice[rw];
      var bpsWait, iopsWait := BpsWait(s, l, now, bio.size), 0;
      if U64(s.bytes + bio.size) <= BytesAllowed(s, l, now) {
        iopsWait := IopsWait(s, l, now);
        if U32(s.ios + 1) <= IosAllowed(s, l, now) { return true, 0; }
      }
      wait := if bpsWait > iopsWait then bpsWait else iopsWait;
      if s.end < now + wait {
        slice := slice[rw := s.(end := RoundUp(now + wait, SliceLen(l)))];
      }
      ok := false;
    }

    /** Charge a bio that goes out, and trim the slice. */
    method ChargeAndTrim(rw: nat, bio: Bio, now: nat)
      requires Shape() && rw < 2
      modifies `slice
      ensures slice == old(slice)[rw := Trim(Charge(old(slice[rw]), bio.size), limits[rw], now)]
    {
      slice := slice[rw := Charge(slice[rw], bio.size)];
      var s, l := slice[rw], limits[rw];
      if SliceUsed(s, now) { return; }
      var q := SliceLen(l);
      s := s.(end := RoundUp(now + q, q));
      var nr := Div(now - s.start, q);
      if nr != 0 {
        var bytesTrim := Div(U64(Times(l.bps, Times(q, nr))), l.hz);
        var iosTrim := Div(U64(Times(l.iops, Times(q, nr))), l.hz);
        if bytesTrim != 0 || iosTrim != 0 {
          s := Slice(Minus(s.bytes, bytesTrim), Minus(s.ios, iosTrim), s.start + Times(q, nr), s.end);
        }
      }
      slice := slice[rw := s];
    }

    /** The event e at time `now` is part of the history. */
    ghost method Note(rw: nat, e: Event)
      requires Shape() && rw < 2 && clock <= e.now && !Unlimited(limits[rw])
      requires Clocked(history[0], 0, clock) && Clocked(history[1], 0, clock)
      modifies `history, `clock
      ensures history == old(history)[rw := old(history[rw]) + [e]] && clock == e.now
      ensures Clocked(history[0], 0, clock) && Clocked(history[1], 0, clock)
      ensures Run(Zero, limits[rw], history[rw]) == Apply(Run(Zero, limits[rw], old(history[rw])), limits[rw], e)
    {
      RunSnoc(Zero, limits[rw], history[rw], e);
      ClockedSnoc(history[rw], 0, clock, e);
      ClockedLater(history[1 - rw], 0, clock, e.now);
      history, clock := history[rw := history[rw] + [e]], e.now;
    }

    /** Whether the bio at the head of the list may go, and if not how long to wait. */
    method AskHead(rw: nat, now: nat) returns (wait: nat)
      requires Valid() && rw < 2 && queued[rw] != [] && clock <= now
      modifies `slice, `history, `clock
      ensures Valid() && clock == now
      ensures history == old(history)[rw := old(history[rw]) + [Ask(now, queued[rw][0].size)]]
    {
      var bio, ok := queued[rw][0], false;
      ok, wait := TgMayDispatch(rw, bio, now);
      Note(rw, Ask(now, bio.size));
    }

    /** tg_update_disptime */
    method UpdateDisptime(now: nat)
      requires Valid() && clock <= now
      modifies `slice, `history, `clock, `disptime
      ensures Valid() && clock <= now
      ensures history[READ] == old(history[READ]) + Asks(queued[READ], now)
      ensures history[WRITE] == old(history[WRITE]) + Asks(queued[WRITE], now)
    {
      var readWait, writeWait := 0, 0;
      if queued[READ] != [] { readWait := AskHead(READ, now); }
      if queued[WRITE] != [] { writeWait := AskHead(WRITE, now); }
      disptime := now + if queued[READ] == [] || (queued[WRITE] != [] && writeWait < readWait) then writeWait else readWait;
    }

    /** A bio is offered and goes out if it may: the account moves on by this event. */
    method OfferBio(rw: nat, bio: Bio, now: nat) returns (ok: bool)
      requires Shape() && rw < 2 && (queued[rw] != [] ==> bio == queued[rw][0])
      modifies `slice, `sent
      ensures Shape() && Acc(rw) == Apply(old(Acc(rw)), limits[rw], Send(now, bio.size))
      ensures slice[1 - rw] == old(slice[1 - rw])
      ensures sent == if ok then old(sent)[rw := old(sent[rw]) + [bio]] else old(sent)
    {
      var wait;
      ok, wait := TgMayDispatch(rw, bio, now);
      if ok {
        SizeSnoc(sent[rw], bio);
        sent := sent[rw := sent[rw] + [bio]];
        ChargeAndTrim(rw, bio, now);
      }
    }

    /** The same, with the event in the history. */
    method OfferNoted(rw: nat, bio: Bio, now: nat) returns (ok: bool)
      requires Valid() && rw < 2 && clock <= now && !Unlimited(limits[rw]) && (queued[rw] != [] ==> bio == queued[rw][0])
      modifies `slice, `sent, `history, `clock
      ensures Shape() && clock == now && Booked(rw) && Booked(1 - rw)
      ensures history == old(history)[rw := old(history[rw]) + [Send(now, bio.size)]]
      ensures sent == if ok then old(sent)[rw := old(sent[rw]) + [bio]] else old(sent)
    {
      assert SideOk(rw) && SideOk(1 - rw);
      ok := OfferBio(rw, bio, now);
      Note(rw, Send(now, bio.size));
    }

    /** Slice and totals are those of the history. */
    ghost predicate Booked(rw: nat)
      requires Shape() && rw < 2
      reads this
    {
      Clocked(history[rw], 0, clock) && (Unlimited(limits[rw]) || Acc(rw) == Run(Zero, limits[rw], history[rw]))
    }

    lemma {:induction false} BothOk(rw: nat)
      requires Shape() && rw < 2 && Booked(rw) && Booked(1 - rw) && !Unlimited(limits[rw])
      requires Unlimited(limits[1 - rw]) ==> queued[1 - rw] == []
      requires submitted[rw] == sent[rw] + queued[rw] && submitted[1 - rw] == sent[1 - rw] + queued[1 - rw]
      ensures Valid()
    {
      assert SideOk(rw) && SideOk(1 - rw);
    }

    /** Offer the bio at the head of the list; it leaves if it is allowed to. */
    method SendHead(rw: nat, now: nat) returns (ok: bool)
      requires Valid() && rw < 2 && queued[rw] != [] && clock <= now
      modifies `slice, `queued, `sent, `history, `clock
      ensures Valid() && clock == now
      ensures history == old(history)[rw := old(history[rw]) + [Send(now, old(queued[rw][0].size))]]
      ensures !ok ==> queued == old(queued) && sent == old(sent)
      ensures ok ==> && queued == old(queued)[rw := old(queued[rw])[1..]]
                     && sent == old(sent)[rw := old(sent[rw]) + [old(queued[rw][0])]]
    {
      assert SideOk(rw) && SideOk(1 - rw);
      var bio := queued[rw][0];
      ok := OfferNoted(rw, bio, now);
      if ok {
        Leaves(old(sent[rw]), queued[rw]);
        queued := queued[rw := queued[rw][1..]];
      }
      BothOk(rw);
    }

    /** One of the two loops of throtl_dispatch_tg: bios leave in order until
        one has to wait or the quota is used up.  `tries` attempts were made. */
    method DispatchDirection(rw: nat, max: nat, now: nat) returns (n: nat, ghost tries: nat)
      requires Valid() && rw < 2 && max > 0 && clock <= now
      modifies `slice, `queued, `sent, `history, `clock
      ensures Valid() && clock <= now && n <= tries <= |old(queued[rw])| && tries <= n + 1 && n <= max
      ensures queued == old(queued)[rw := old(queued[rw])[n..]]
      ensures sent == old(sent)[rw := old(sent[rw]) + old(queued[rw])[..n]]
      ensures history == old(history)[rw := old(history[rw]) + Sends(old(queued[rw])[..tries], now)]
      ensures n == max || n == |old(queued[rw])| || n < tries
    {
      ghost var q0, s0, h0 := queued, sent, history;
      n, tries := 0, 0;
      NothingLeft(rw, now);
      while queued[rw] != []
        invariant Valid() && clock <= now && tries == n < max && Left(rw, q0, s0, h0, n, now)
        decreases |queued[rw]|
      {
        tries := n + 1;
        var ok := SendNext(rw, now, q0, s0, h0, n);
        if !ok { break; }
        n := n + 1;
        if n >= max { break; }
      }
    }

    /** Of the bios q0 the first n of this direction have left, in order. */
    ghost predicate Left(rw: nat, q0: seq<seq<Bio>>, s0: seq<seq<Bio>>, h0: seq<seq<Event>>, n: nat, now: nat)
      reads this
    {
      && rw < |q0| && rw < |s0| && rw < |h0| && n <= |q0[rw]|
      && queued == q0[rw := q0[rw][n..]] && sent == s0[rw := s0[rw] + q0[rw][..n]]
      && history == h0[rw := h0[rw] + Sends(q0[rw][..n], now)]
    }

    lemma {:induction false} NothingLeft(rw: nat, now: nat)
      requires Shape() && rw < 2
      ensures Left(rw, queued, sent, history, 0, now)
    {
      assert queued[rw][0..] == queued[rw] && queued[rw][..0] == [];
      assert sent[rw] + [] == sent[rw] && history[rw] + [] == history[rw];
    }

    method SendNext(rw: nat, now: nat, ghost q0: seq<seq<Bio>>, ghost s0: seq<seq<Bio>>, ghost h0: seq<seq<Event>>, ghost n: nat)
      returns (ok: bool)
      requires Valid() && rw < 2 && queued[rw] != [] && clock <= now && Left(rw, q0, s0, h0, n, now)
      modifies `slice, `queued, `sent, `history, `clock
      ensures Valid() && clock <= now && n < |q0[rw]|
      ensures if ok then Left(rw, q0, s0, h0, n + 1, now)
              else queued == old(queued) && sent == old(sent) && history == h0[rw := h0[rw] + Sends(q0[rw][..n + 1], now)]
    {
      NextSend(h0[rw], q0[rw], n, now);
      assert s0[rw] + (q0[rw][..n] + [q0[rw][n]]) == s0[rw] + q0[rw][..n] + [q0[rw][n]];
      ok := SendHead(rw, now);
    }

    /** throtl_dispatch_tg: at most six reads, then at most two writes. */
    method DispatchGroup(now: nat) returns (nr: nat, ghost r: nat, ghost w: nat)
      requires Valid() && clock <= now
      modifies `slice, `queued, `sent, `history, `clock
      ensures Valid() && clock <= now && nr <= 8 && r <= |old(queued[READ])| && w <= |old(queued[WRITE])|
      ensures history[READ] == old(history[READ]) + Sends(old(queued[READ])[..r], now)
      ensures history[WRITE] == old(history[WRITE]) + Sends(old(queued[WRITE])[..w], now)
      ensures old(sent[READ]) <= sent[READ] && old(sent[WRITE]) <= sent[WRITE]
    {
      var nrReads, nrWrites;
      nrReads, r := DispatchDirection(READ, 6, now);
      nrWrites, w := DispatchDirection(WRITE, 2, now);
      nr := nrReads + nrWrites;
    }

    /** The bio passes at once if it may; nothing is queued before it. */
    method TryPass(rw: nat, bio: Bio, now: nat) returns (ok: bool)
      requires Valid() && rw < 2 && clock <= now && queued[rw] == [] && !Unlimited(limits[rw])
      modifies `slice, `sent, `submitted, `history, `clock
      ensures Valid() && clock == now && history == old(history)[rw := old(history[rw]) + [Send(now, bio.size)]]
      ensures sent == if ok then old(sent)[rw := old(sent[rw]) + [bio]] else old(sent)
      ensures submitted == if ok then old(submitted)[rw := old(submitted[rw]) + [bio]] else old(submitted)
    {
      assert SideOk(rw) && SideOk(1 - rw);
      ok := OfferNoted(rw, bio, now);
      if ok {
        submitted := submitted[rw := submitted[rw] + [bio]];
        assert sent[rw] + [] == sent[rw];
      }
      BothOk(rw);
    }

    method Enqueue(rw: nat, bio: Bio)
      requires Valid() && rw < 2 && !Unlimited(limits[rw])
      modifies `queued, `submitted
      ensures Valid() && queued == old(queued)[rw := old(queued[rw]) + [bio]]
      ensures submitted == old(submitted)[rw := old(submitted[rw]) + [bio]]
    {
      assert sent[rw] + (queued[rw] + [bio]) == sent[rw] + queued[rw] + [bio];
      queued := queued[rw := queued[rw] + [bio]];
      submitted := submitted[rw := submitted[rw] + [bio]];
    }

    /** A direction without limits keeps no account. */
    method PassFree(rw: nat, bio: Bio)
      requires Valid() && rw < 2 && Unlimited(limits[rw])
      modifies `sent, `submitted
      ensures Valid() && queued[rw] == [] && sent == old(sent)[rw := old(sent[rw]) + [bio]]
      ensures submitted == old(submitted)[rw := old(submitted[rw]) + [bio]]
    {
      assert SideOk(rw) && SideOk(1 - rw);
      sent := sent[rw := sent[rw] + [bio]];
      submitted := submitted[rw := submitted[rw] + [bio]];
      assert SideOk(rw) && SideOk(1 - rw);
    }

    /** blk_throtl_bio: true if the bio passes now, false if it was queued behind
        the earlier ones; the first one to be queued sets the dispatch time. */
    method ThrotlBio(rw: nat, bio: Bio, now: nat) returns (passed: bool)
      requires Valid() && rw < 2 && clock <= now
      modifies this
      ensures Valid() && clock <= now
      ensures submitted == old(submitted)[rw := old(submitted[rw]) + [bio]]
      ensures passed ==> old(queued[rw]) == [] && queued == old(queued) && sent == old(sent)[rw := old(sent[rw]) + [bio]]
      ensures !passed ==> queued == old(queued)[rw := old(queued[rw]) + [bio]] && sent == old(sent)
      ensures passed || old(queued[rw]) != [] ==> history[1 - rw] == old(history[1 - rw])
      ensures !passed && old(queued[rw]) == [] ==>
                && history[rw] == old(history[rw]) + [Send(now, bio.size)] + [Ask(now, bio.size)]
                && history[1 - rw] == old(history[1 - rw]) + Asks(queued[1 - rw], now)
    {
      if limits[rw].bps == U64MAX && limits[rw].iops == U32MAX {
        PassFree(rw, bio);
        return true;
      }
      if queued[rw] != [] {
        Enqueue(rw, bio);
        return false;
      }
      passed := TryPass(rw, bio, now);
      if !passed { EnqueueFirst(rw, bio, now); }
    }

    /** The first bio to be queued: both directions are asked for the time of the
        next dispatch. */
    method EnqueueFirst(rw: nat, bio: Bio, now: nat)
      requires Valid() && rw < 2 && clock <= now && queued[rw] == [] && !Unlimited(limits[rw])
      modifies this
      ensures Valid() && clock <= now && sent == old(sent)
      ensures queued == old(queued)[rw := old(queued[rw]) + [bio]]
      ensures submitted == old(submitted)[rw := old(submitted[rw]) + [bio]]
      ensures history[rw] == old(history[rw]) + [Ask(now, bio.size)]
      ensures history[1 - rw] == old(history[1 - rw]) + Asks(queued[1 - rw], now)
    {
      Enqueue(rw, bio);
      UpdateDisptime(now);
      assert queued[rw] == [bio];
    }
  }
}
