/**
 How old a slice gets.  A slice ages while bios wait in it, so the products of
 rate and age are bounded by the limits, the largest bio, and how long a bio that
 may go is kept waiting for the dispatcher.  With limits that leave room for
 such ages no word ever overflows and the rate bound holds without further
 conditions.
 */
module ThrottleAge {
  import opened Throttle
  import opened ThrottleRuns

  /** No slice is longer, if bios have at most `size` bytes and a bio that may go
      is not asked about in a slice older than `d`. */
  function Reach(l: Limits, size: nat, d: nat): nat
    requires LimitsOk(l)
  {
    d + 2 * l.hz + 4 * SliceLen(l) + 4 + Div(Times(l.hz, size + 2), l.bps)
  }

  /** The limits leave room for slices that long. */
  predicate Roomy(l: Limits, size: nat, d: nat)
    requires LimitsOk(l)
  {
    && Times(l.bps, Reach(l, size, d) + SliceLen(l)) <= U64MAX
    && Times(l.iops, Reach(l, size, d) + SliceLen(l)) <= U64MAX
  }

  /** A counter holds no more than two slices' worth and one unit. */
  predicate Light(disp: nat, rate: nat, l: Limits) { l.hz * disp <= rate * (2 * SliceLen(l)) + l.hz }

  predicate Young(s: Slice, l: Limits, size: nat, d: nat)
    requires LimitsOk(l)
  {
    && s.start <= s.end <= s.start + Reach(l, size, d)
    && Light(s.bytes, l.bps, l) && Light(s.ios, l.iops, l)
  }

  // ---- Arithmetic

  lemma {:induction false} Cancel(rate: nat, x: nat, y: nat, z: nat)
    requires rate > 0 && rate * x <= rate * y + z
    ensures x <= y + Div(z, rate)
  {
    DivIsQuotient(z, rate);
    assert rate * (y + Div(z, rate) + 1) == rate * y + rate * Div(z, rate) + rate;
    if x > y + Div(z, rate) { MulLe(rate, y + Div(z, rate) + 1, x); }
  }

  lemma {:induction false} DivSmall(z: nat, rate: nat)
    requires rate > 0
    ensures Div(z, rate) <= z
  {
    DivIsQuotient(z, rate);
    MulLe(Div(z, rate), 1, rate);
  }

  lemma {:induction false} DivGrows(x: nat, y: nat, rate: nat)
    requires rate > 0 && x <= y
    ensures Div(x, rate) <= Div(y, rate)
  {
    DivIsQuotient(x, rate);
    Cancel(rate, Div(x, rate), 0, y);
  }

  // ---- The age at an event

  /** At an event the slice worked on is at most as old as the old one was long. */
  lemma {:induction false} AgeBound(s: Slice, l: Limits, now: nat, size: nat, d: nat)
    requires LimitsOk(l) && Young(s, l, size, d)
    ensures var c := Current(s, l, now);
            && now - c.start <= Reach(l, size, d) && Light(c.bytes, l.bps, l) && Light(c.ios, l.iops, l)
            && c.end <= (if c.start + Reach(l, size, d) > now + 2 * SliceLen(l) then c.start + Reach(l, size, d)
                         else now + 2 * SliceLen(l))
  {
    MulLe(l.bps, 0, 2 * SliceLen(l));
    MulLe(l.iops, 0, 2 * SliceLen(l));
  }

  lemma {:induction false} FewIos(ios: nat, l: Limits)
    requires LimitsOk(l) && Light(ios, l.iops, l)
    ensures ios < U32MAX
  {
    var q := SliceLen(l);
    assert 10 * q <= l.hz;
    MulLe(l.iops, 10 * q, l.hz);
    assert l.iops * (10 * q) == 5 * (l.iops * (2 * q));
    assert l.hz * (5 * ios) <= l.hz * (l.iops + 5);
    if 5 * ios > l.iops + 5 { MulLe(l.hz, l.iops + 6, 5 * ios); }
  }

  /** So the arithmetic of the event fits its words. */
  lemma {:induction false} YoungFits(s: Slice, l: Limits, now: nat, size: nat, d: nat)
    requires LimitsOk(l) && Roomy(l, size, d) && Young(s, l, size, d)
    ensures BytesFit(s, l, now) && IosFit(s, l, now)
  {
    var c := Current(s, l, now);
    AgeBound(s, l, now, size, d);
    MulLe(l.bps, ElapsedRounded(c, l, now), Reach(l, size, d) + SliceLen(l));
    MulLe(l.iops, ElapsedRounded(c, l, now), Reach(l, size, d) + SliceLen(l));
    FewIos(c.ios, l);
  }

  // ---- After a granted bio

  /** A trim leaves no more than two slices' worth. */
  lemma {:induction false} TrimLightens(disp: nat, rate: nat, l: Limits, rnd: nat, used: nat)
    requires LimitsOk(l) && l.hz * disp <= rate * rnd && used <= rnd <= used + 2 * SliceLen(l)
    ensures Light(Minus(disp, Div(Times(rate, used), l.hz)), rate, l)
  {
    var trim, two := Div(Times(rate, used), l.hz), 2 * SliceLen(l);
    var left := Minus(disp, trim);
    TrimOf(rate, used, l.hz);
    MulLe(rate, rnd, used + two);
    Distribute(rate, used, two);
    Distribute(l.hz, left, trim);
    MulLe(rate, 0, two);
    if disp < trim { assert left == 0; }
  }

  lemma {:induction false} Distribute(a: nat, x: nat, y: nat)
    ensures a * (x + y) == a * x + a * y
  {
  }

  /** A slice the trim did not move is not old. */
  lemma {:induction false} UnmovedIsYoung(rate: nat, used: nat, hz: nat)
    requires hz > 0 && rate > 0 && Div(Times(rate, used), hz) == 0
    ensures used < hz
  {
    TrimOf(rate, used, hz);
    MulLe(used, 1, rate);
  }

  lemma {:induction false} GrantedYoung(s: Slice, l: Limits, now: nat, bytes: nat, size: nat, d: nat)
    requires LimitsOk(l) && !Unlimited(l) && Roomy(l, size, d) && Young(s, l, size, d)
    requires bytes <= size <= U32MAX && SmallBytes(s) && MayDispatch(s, l, now, bytes).ok
    ensures Young(Offer(s, l, now, bytes).1, l, size, d) && SmallBytes(Offer(s, l, now, bytes).1)
  {
    var c := Current(s, l, now);
    var dd := Charge(c, bytes);
    var rnd, used := ElapsedRounded(c, l, now), Used(c, l, now);
    YoungFits(s, l, now, size, d);
    AllowanceSmall(c, l, now);
    UsedFits(c, l, now, l.bps);
    UsedFits(c, l, now, l.iops);
    TrimTakes(dd, l, now);
    ChargedWithin(c.bytes + bytes, l.bps, l, rnd);
    ChargedWithin(c.ios + 1, l.iops, l, rnd);
    TrimLightens(dd.bytes, l.bps, l, rnd, used);
    TrimLightens(dd.ios, l.iops, l, rnd, used);
    var t := Trim(dd, l, now);
    if t.start == c.start { if Div(Times(l.iops, used), l.hz) == 0 { UnmovedIsYoung(l.iops, used, l.hz); } }
  }

  lemma {:induction false} ChargedWithin(disp: nat, rate: nat, l: Limits, rnd: nat)
    requires LimitsOk(l)
    ensures disp <= Div(Times(rate, rnd), l.hz) ==> l.hz * disp <= rate * rnd
  {
    TrimOf(rate, rnd, l.hz);
    if disp <= Div(Times(rate, rnd), l.hz) { MulLe(l.hz, disp, Div(Times(rate, rnd), l.hz)); }
  }

  // ---- After a refused bio

  lemma {:induction false} BytesTime(hz: nat, bps: nat, two: nat, disp: nat, bytes: nat, size: nat, rnd: nat, allowed: nat, extra: nat, wait: nat)
    requires hz * disp <= bps * two + hz && bytes <= size && allowed + extra == disp + bytes
    requires bps * rnd < hz * allowed + hz && bps * wait <= hz * extra
    ensures bps * (rnd + wait) <= bps * two + hz * (size + 2)
  {
    MulLe(hz, bytes, size);
    assert hz * (allowed + extra) == hz * allowed + hz * extra;
    assert hz * (disp + bytes) == hz * disp + hz * bytes;
    assert hz * (size + 2) == hz * size + hz + hz;
    assert bps * (rnd + wait) == bps * rnd + bps * wait;
  }

  /** A bio too big for now waits no longer than its bytes take. */
  lemma {:induction false} BpsWaitBound(c: Slice, l: Limits, now: nat, bytes: nat, size: nat)
    requires LimitsOk(l) && c.start <= now && Light(c.bytes, l.bps, l) && bytes <= size <= U32MAX && SmallBytes(c)
    requires Times(l.bps, ElapsedRounded(c, l, now)) <= U64MAX
    requires U64(c.bytes + bytes) > BytesAllowed(c, l, now)
    ensures now - c.start + BpsWait(c, l, now, bytes) <= 2 * SliceLen(l) + Div(Times(l.hz, size + 2), l.bps) + 1
    ensures now - c.start <= 2 * SliceLen(l) + Div(Times(l.hz, size + 2), l.bps)
  {
    var rnd, allowed := ElapsedRounded(c, l, now), BytesAllowed(c, l, now);
    var extra: nat := c.bytes + bytes - allowed;
    BpsRest(l, c.bytes, bytes, size, rnd, allowed, extra);
  }

  lemma {:induction false} BpsRest(l: Limits, disp: nat, bytes: nat, size: nat, rnd: nat, allowed: nat, extra: nat)
    requires LimitsOk(l) && Light(disp, l.bps, l) && bytes <= size && allowed + extra == disp + bytes
    requires allowed == Div(Times(l.bps, rnd), l.hz)
    ensures rnd + Div(U64(Times(extra, l.hz)), l.bps) <= 2 * SliceLen(l) + Div(Times(l.hz, size + 2), l.bps)
  {
    var wait := Div(Times(extra, l.hz), l.bps);
    TrimOf(l.bps, rnd, l.hz);
    DivIsQuotient(Times(extra, l.hz), l.bps);
    WrapShrinks(Times(extra, l.hz));
    DivGrows(U64(Times(extra, l.hz)), Times(extra, l.hz), l.bps);
    BytesTime(l.hz, l.bps, 2 * SliceLen(l), disp, bytes, size, rnd, allowed, extra, wait);
    Cancel(l.bps, rnd + wait, 2 * SliceLen(l), Times(l.hz, size + 2));
  }

  lemma {:induction false} WrapShrinks(x: nat)
    ensures U64(x) <= x && U32(x) <= x
  {
  }

  /** One bio too many waits no longer than the counter takes. */
  lemma {:induction false} IopsWaitBound(c: Slice, l: Limits, now: nat)
    requires LimitsOk(l) && c.start <= now && Light(c.ios, l.iops, l)
    requires Times(l.iops, ElapsedRounded(c, l, now)) <= U64MAX && U32(c.ios + 1) > IosAllowed(c, l, now)
    ensures now - c.start + IopsWait(c, l, now) <= 2 * SliceLen(l) + 2 * l.hz + 1
    ensures now - c.start <= 2 * SliceLen(l) + 2 * l.hz
  {
    FewIos(c.ios, l);
    IopsAge(l, c.ios, ElapsedRounded(c, l, now));
    IopsRest(l, c.ios);
  }

  lemma {:induction false} IopsAge(l: Limits, ios: nat, rnd: nat)
    requires LimitsOk(l) && Light(ios, l.iops, l) && Div(Times(l.iops, rnd), l.hz) < ios + 1
    ensures rnd <= 2 * SliceLen(l) + 2 * l.hz
  {
    var allowed := Div(Times(l.iops, rnd), l.hz);
    TrimOf(l.iops, rnd, l.hz);
    MulLe(l.hz, allowed, ios);
    Cancel(l.iops, rnd, 2 * SliceLen(l), 2 * l.hz);
    DivSmall(2 * l.hz, l.iops);
  }

  lemma {:induction false} IopsRest(l: Limits, ios: nat)
    requires LimitsOk(l) && Light(ios, l.iops, l)
    ensures Div(U32(Times(ios + 1, l.hz)), l.iops) <= 2 * SliceLen(l) + 2 * l.hz
  {
    var x := Times(ios + 1, l.hz);
    assert x == l.hz * ios + l.hz;
    WrapShrinks(x);
    DivGrows(U32(x), x, l.iops);
    DivIsQuotient(x, l.iops);
    Cancel(l.iops, Div(x, l.iops), 2 * SliceLen(l), 2 * l.hz);
    DivSmall(2 * l.hz, l.iops);
  }

  lemma {:induction false} RefusedYoung(s: Slice, l: Limits, now: nat, bytes: nat, size: nat, d: nat)
    requires LimitsOk(l) && !Unlimited(l) && Roomy(l, size, d) && Young(s, l, size, d)
    requires bytes <= size <= U32MAX && SmallBytes(s) && !MayDispatch(s, l, now, bytes).ok
    ensures Young(MayDispatch(s, l, now, bytes).slice, l, size, d)
  {
    var c := Current(s, l, now);
    AgeBound(s, l, now, size, d);
    YoungFits(s, l, now, size, d);
    if U64(c.bytes + bytes) > BytesAllowed(c, l, now) {
      BpsWaitBound(c, l, now, bytes, size);
    } else {
      IopsWaitBound(c, l, now);
    }
  }

  lemma {:induction false} AnsweredYoung(s: Slice, l: Limits, now: nat, bytes: nat, size: nat, d: nat)
    requires LimitsOk(l) && !Unlimited(l) && Young(s, l, size, d) && MayDispatch(s, l, now, bytes).ok
    requires now - Current(s, l, now).start <= d
    ensures Young(MayDispatch(s, l, now, bytes).slice, l, size, d)
  {
    AgeBound(s, l, now, size, d);
  }

  // ---- Runs

  /** Whenever a mere question is answered yes, the slice is at most d old: a bio
      that may go is not kept waiting for longer. */
  predicate Prompt(a: Account, l: Limits, es: seq<Event>, d: nat)
    requires LimitsOk(l)
    decreases |es|
  {
    es == [] || (&& (es[0].Ask? && MayDispatch(a.slice, l, es[0].now, es[0].size).ok ==>
                       es[0].now - Current(a.slice, l, es[0].now).start <= d)
                 && Prompt(Apply(a, l, es[0]), l, es[1..], d))
  }

  predicate Sized(es: seq<Event>, size: nat) { forall i :: 0 <= i < |es| ==> es[i].size <= size }

  lemma {:induction false} StepYoung(a: Account, l: Limits, e: Event, size: nat, d: nat)
    requires LimitsOk(l) && !Unlimited(l) && Roomy(l, size, d) && Young(a.slice, l, size, d) && SmallBytes(a.slice)
    requires e.size <= size <= U32MAX && Prompt(a, l, [e], d)
    ensures Young(Apply(a, l, e).slice, l, size, d) && SmallBytes(Apply(a, l, e).slice)
  {
    if MayDispatch(a.slice, l, e.now, e.size).ok {
      if e.Send? { GrantedYoung(a.slice, l, e.now, e.size, size, d); } else { AnsweredYoung(a.slice, l, e.now, e.size, size, d); }
    } else {
      RefusedYoung(a.slice, l, e.now, e.size, size, d);
    }
  }

  /** In such runs no word ever overflows. */
  lemma {:induction false} RunFits(a: Account, l: Limits, es: seq<Event>, size: nat, d: nat)
    requires LimitsOk(l) && !Unlimited(l) && Roomy(l, size, d) && Young(a.slice, l, size, d) && SmallBytes(a.slice)
    requires size <= U32MAX && Sized(es, size) && Prompt(a, l, es, d)
    ensures BytesFits(a, l, es) && IosFits(a, l, es)
    decreases |es|
  {
    if es != [] {
      YoungFits(a.slice, l, es[0].now, size, d);
      assert [es[0]][1..] == [];
      StepYoung(a, l, es[0], size, d);
      assert forall i :: 0 <= i < |es[1..]| ==> es[1..][i] == es[i + 1];
      RunFits(Apply(a, l, es[0]), l, es[1..], size, d);
    }
  }

  /** The rate bound, for every run however long, from a condition on the limits. */
  lemma {:induction false} RateBoundByLimits(l: Limits, es: seq<Event>, t: nat, size: nat, d: nat)
    requires LimitsOk(l) && !Unlimited(l) && es != [] && Clocked(es, 0, t)
    requires Roomy(l, size, d) && size <= U32MAX && Sized(es, size) && Prompt(Zero, l, es, d)
    ensures Within(Run(Zero, l, es).bytes, l.bps, l, es[0].now, t)
    ensures Within(Run(Zero, l, es).ios, l.iops, l, es[0].now, t)
  {
    MulLe(l.bps, 0, 2 * SliceLen(l));
    MulLe(l.iops, 0, 2 * SliceLen(l));
    RunFits(Zero, l, es, size, d);
    RateBound(l, es, t);
  }

  /** Limits, bios and delays as they occur: HZ of 1000, bios of up to a megabyte,
      a dispatcher at most ten seconds late, and up to a petabyte a second. */
  lemma {:induction false} OrdinaryIsRoomy(l: Limits, size: nat, d: nat)
    requires LimitsOk(l) && l.hz == 1000 && size <= 0x10_0000 && d <= 10000 && l.bps <= 0x4_0000_0000_0000
    ensures Roomy(l, size, d)
  {
    var z := Times(l.hz, size + 2);
    var k := d + 2 * l.hz + 5 * SliceLen(l) + 4;
    DivIsQuotient(z, l.bps);
    DivSmall(z, l.bps);
    assert l.bps * (k + Div(z, l.bps)) == l.bps * k + l.bps * Div(z, l.bps);
    MulLe(l.bps, k, 12504);
    MulLe(k + Div(z, l.bps), l.iops, U32MAX);
  }
}
