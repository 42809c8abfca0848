/**
 Bio throttling: a token bucket kept in slices, with rounding up, trimming and
 extension.  64- and 32-bit arithmetic wraps as in the code; times are jiffies
 of a clock that does not wrap.
 */
module Throttle {

  const U64MAX: nat := 0xFFFF_FFFF_FFFF_FFFF
  const U32MAX: nat := 0xFFFF_FFFF

  /** bi_size */
  type Word = n: nat | n <= 0xFFFF_FFFF

  function U64(x: nat): nat { if x <= U64MAX then x else x % 0x1_0000_0000_0000_0000 }
  function U32(x: nat): nat { if x <= U32MAX then x else x % 0x1_0000_0000 }

  function Times(a: nat, b: nat): nat { a * b }

  /** Integer division. */
  function Div(a: nat, d: nat): (r: nat)
    requires d > 0
  {
    if a < d then 0 else 1 + Div(a - d, d)
  }

  lemma {:induction false} DivIsQuotient(a: nat, d: nat)
    requires d > 0
    ensures Times(d, Div(a, d)) <= a < Times(d, Div(a, d)) + d
  {
    if a >= d {
      DivIsQuotient(a - d, d);
      assert d * (1 + Div(a - d, d)) == d + d * Div(a - d, d);
    }
  }

  /** Limits of one direction of a group; all ones means unlimited. */
  datatype Limits = Limits(bps: nat, iops: nat, hz: nat)

  predicate LimitsOk(l: Limits) {
    0 < l.bps <= U64MAX && 0 < l.iops <= U32MAX && 10 <= l.hz
  }

  function SliceLen(l: Limits): nat { l.hz / 10 }

  /** Per-direction state: what was dispatched in the slice, and its bounds. */
  datatype Slice = Slice(bytes: nat, ios: nat, start: nat, end: nat)

  function RoundUp(x: nat, m: nat): (r: nat)
    requires m > 0
    ensures x <= r < x + m
  {
    (x + m - 1) / m * m
  }

  predicate SliceUsed(s: Slice, now: nat) {
    !(s.start <= now <= s.end)
  }

  function NewSlice(l: Limits, now: nat): Slice {
    Slice(0, 0, now, now + SliceLen(l))
  }

  function ElapsedRounded(s: Slice, l: Limits, now: nat): (r: nat)
    requires LimitsOk(l) && s.start <= now
    ensures now - s.start <= r <= now - s.start + SliceLen(l)
  {
    var e := now - s.start;
    RoundUpSelf(SliceLen(l));
    RoundUp(if e == 0 then SliceLen(l) else e, SliceLen(l))
  }

  lemma {:induction false} RoundUpSelf(m: nat)
    requires m > 0
    ensures RoundUp(m, m) == m
  {
    var q := (m + m - 1) / m;
    assert q == 1 by { Once(m); }
  }

  lemma {:induction false} Once(m: nat)
    requires m > 0
    ensures (m + m - 1) / m == 1
  {
    var x := m + m - 1;
    Quotient(x, m);
    if x / m >= 2 { MulLe(m, 2, x / m); }
  }

  lemma {:induction false} Quotient(x: nat, m: nat)
    requires m > 0
    ensures x / m >= 0 && m * (x / m) <= x && (x >= m ==> x / m >= 1)
  {
    assert x == (x / m) * m + x % m;
  }

  function BytesAllowed(s: Slice, l: Limits, now: nat): nat
    requires LimitsOk(l) && s.start <= now
  {
    Div(U64(Times(l.bps, ElapsedRounded(s, l, now))), l.hz)
  }

  function IosAllowed(s: Slice, l: Limits, now: nat): nat
    requires LimitsOk(l) && s.start <= now
  {
    var tmp := Div(U64(Times(l.iops, ElapsedRounded(s, l, now))), l.hz);
    if tmp > U32MAX then U32MAX else tmp
  }

  function BpsWait(s: Slice, l: Limits, now: nat, size: nat): nat
    requires LimitsOk(l) && s.start <= now
  {
    if U64(s.bytes + size) <= BytesAllowed(s, l, now) then 0
    else
      var extra := U64(s.bytes + size) - BytesAllowed(s, l, now);
      var w := Div(U64(Times(extra, l.hz)), l.bps);
      var rnd := ElapsedRounded(s, l, now);
      (if w == 0 then 1 else w) + if rnd >= now - s.start then rnd - (now - s.start) else 0
  }

  function IopsWait(s: Slice, l: Limits, now: nat): nat
    requires LimitsOk(l) && s.start <= now
  {
    if U32(s.ios + 1) <= IosAllowed(s, l, now) then 0
    else
      var w := Div(U32(Times(U32(s.ios + 1), l.hz)), l.iops) + 1;
      if w > now - s.start then w - (now - s.start) else 1
  }

  datatype Verdict = Verdict(ok: bool, wait: nat, slice: Slice)

  predicate Unlimited(l: Limits) { l.bps == U64MAX && l.iops == U32MAX }

  /** The slice tg_may_dispatch works on: a fresh one, or the current one
      stretched to reach a full slice from now. */
  function Current(s: Slice, l: Limits, now: nat): (r: Slice)
    requires LimitsOk(l)
    ensures r.start <= now && r.end >= now + SliceLen(l)
  {
    if SliceUsed(s, now) then NewSlice(l, now)
    else if s.end < now + SliceLen(l) then s.(end := RoundUp(now + SliceLen(l), SliceLen(l)))
    else s
  }

  /** tg_may_dispatch */
  function MayDispatch(s: Slice, l: Limits, now: nat, size: nat): Verdict
    requires LimitsOk(l)
  {
    if Unlimited(l) then Verdict(true, 0, s)
    else
      var c := Current(s, l, now);
      if U64(c.bytes + size) <= BytesAllowed(c, l, now) && U32(c.ios + 1) <= IosAllowed(c, l, now)
      then Verdict(true, 0, c)
      else
        // the iops test is only reached when the bps test passes
        var bw := BpsWait(c, l, now, size);
        var iw := if U64(c.bytes + size) <= BytesAllowed(c, l, now) then IopsWait(c, l, now) else 0;
        var w := if bw > iw then bw else iw;
        Verdict(false, w, if c.end < now + w then c.(end := RoundUp(now + w, SliceLen(l))) else c)
  }

  /** throtl_charge_bio */
  function Charge(s: Slice, size: nat): Slice {
    s.(bytes := U64(s.bytes + size), ios := U32(s.ios + 1))
  }

  function Minus(a: nat, b: nat): nat { if a >= b then a - b else 0 }

  /** throtl_trim_slice */
  function Trim(s: Slice, l: Limits, now: nat): Slice
    requires LimitsOk(l)
  {
    if SliceUsed(s, now) then s
    else
      var q := SliceLen(l);
      var t := s.(end := RoundUp(now + q, q));
      var nr := Div(now - s.start, q);
      var bytesTrim := Div(U64(Times(l.bps, Times(q, nr))), l.hz);
      var iosTrim := Div(U64(Times(l.iops, Times(q, nr))), l.hz);
      if nr == 0 || (bytesTrim == 0 && iosTrim == 0) then t
      else Slice(Minus(s.bytes, bytesTrim), Minus(s.ios, iosTrim), s.start + Times(q, nr), t.end)
  }

  /** What the answer of tg_may_dispatch means: the slice it leaves reaches a full
      slice ahead, a bio that may go is within the rate since the slice began,
      and one that may not go is told to wait no longer than the slice lasts. */
  lemma {:induction false} VerdictMeans(s: Slice, l: Limits, now: nat, size: Word)
    requires LimitsOk(l) && !Unlimited(l) && SmallBytes(s)
    ensures var v := MayDispatch(s, l, now, size);
            var time := now - v.slice.start + SliceLen(l);
            && v.slice.start <= now && now + SliceLen(l) <= v.slice.end
            && (v.ok && BytesFit(s, l, now) ==> l.hz * (v.slice.bytes + size) <= l.bps * time)
            && (v.ok && IosFit(s, l, now) ==> l.hz * (v.slice.ios + 1) <= l.iops * time)
            && (!v.ok ==> 0 < v.wait && now + v.wait <= v.slice.end)
  {
    var c := Current(s, l, now);
    if MayDispatch(s, l, now, size).ok {
      var rnd := ElapsedRounded(c, l, now);
      if BytesFit(s, l, now) { AllowedMeans(c.bytes + size, l.bps, l, rnd, now - c.start + SliceLen(l)); }
      if IosFit(s, l, now) { AllowedMeans(c.ios + 1, l.iops, l, rnd, now - c.start + SliceLen(l)); }
    }
  }

  lemma {:induction false} AllowedMeans(disp: nat, rate: nat, l: Limits, rnd: nat, time: nat)
    requires LimitsOk(l) && rnd <= time && disp <= Div(Times(rate, rnd), l.hz)
    ensures l.hz * disp <= rate * time
  {
    TrimOf(rate, rnd, l.hz);
    MulLe(l.hz, disp, Div(Times(rate, rnd), l.hz));
    MulLe(rate, rnd, time);
  }

  // ---- The invariant of one counter

  /** `total` units went out since s0, `disp` of them in the current slice:
      the slices before the current one paid for the rest, and the current
      slice lasts long enough to pay for all of it. */
  ghost predicate Paid(total: nat, disp: nat, s: Slice, s0: nat, rate: nat, hz: nat) {
    && s0 <= s.start <= s.end && disp <= total
    && hz * total <= rate * (s.start - s0) + hz * disp
    && hz * total <= rate * (s.end - s0)
  }

  lemma {:induction false} MulLe(a: nat, x: nat, y: nat)
    requires x <= y
    ensures a * x <= a * y
  {
  }

  /** Starting a slice after the old one ended, or stretching it. */
  lemma {:induction false} PaidCurrent(total: nat, disp: nat, s: Slice, s0: nat, rate: nat, l: Limits, now: nat)
    requires LimitsOk(l) && Paid(total, disp, s, s0, rate, l.hz) && s.start <= now
    ensures var c := Current(s, l, now);
            Paid(total, if SliceUsed(s, now) then 0 else disp, c, s0, rate, l.hz)
  {
    var c := Current(s, l, now);
    if SliceUsed(s, now) {
      MulLe(rate, s.end - s0, now - s0);
      MulLe(rate, now - s0, c.end - s0);
    } else {
      MulLe(rate, s.end - s0, c.end - s0);
    }
  }

  lemma {:induction false} PaidStretch(total: nat, disp: nat, s: Slice, t: Slice, s0: nat, rate: nat, hz: nat)
    requires Paid(total, disp, s, s0, rate, hz) && t.start == s.start && s.end <= t.end
    ensures Paid(total, disp, t, s0, rate, hz)
  {
    MulLe(rate, s.end - s0, t.end - s0);
  }

  /** One more dispatch of n units within the allowance. */
  lemma {:induction false} PaidDispatch(total: nat, disp: nat, n: nat, s: Slice, s0: nat, rate: nat, l: Limits, now: nat, rnd: nat, allowed: nat)
    requires Paid(total, disp, s, s0, rate, l.hz) && s.start <= now && now + SliceLen(l) <= s.end
    requires rnd <= now - s.start + SliceLen(l) && disp + n <= allowed && l.hz * allowed <= rate * rnd
    ensures l.hz * (total + n) <= rate * (now - s0 + SliceLen(l))
    ensures Paid(total + n, disp + n, s, s0, rate, l.hz)
  {
    var hz, q := l.hz, SliceLen(l);
    MulLe(hz, disp + n, allowed);
    MulLe(rate, rnd, now - s.start + q);
    assert rate * (s.start - s0) + rate * (now - s.start + q) == rate * (now - s0 + q);
    assert hz * (total + n) == hz * total + hz * n;
    assert hz * (disp + n) == hz * disp + hz * n;
    MulLe(rate, now - s0 + q, s.end - s0);
  }

  /** Dropping `used` jiffies of slices together with what they paid for. */
  lemma {:induction false} PaidTrim(total: nat, disp: nat, s: Slice, t: Slice, s0: nat, rate: nat, l: Limits, now: nat, used: nat, trim: nat)
    requires Paid(total, disp, s, s0, rate, l.hz) && s.start <= now
    requires l.hz * total <= rate * (now - s0 + SliceLen(l))
    requires t.end >= now + SliceLen(l) && t.start == s.start + used <= now
    requires l.hz * trim <= rate * used
    ensures Paid(total, Minus(disp, trim), t, s0, rate, l.hz)
  {
    var hz, q := l.hz, SliceLen(l);
    MulLe(rate, now - s0 + q, t.end - s0);
    assert rate * (t.start - s0) == rate * (s.start - s0) + rate * used;
    if disp >= trim {
      assert hz * (disp - trim) == hz * disp - hz * trim;
    } else {
      MulLe(hz, disp, trim);
    }
  }

  // ---- One operation on a direction

  /** The product of the rate with the age of the current slice, rounded up to
      whole slices, fits a 64-bit word. */
  predicate ProductFits(s: Slice, l: Limits, now: nat, rate: nat)
    requires LimitsOk(l)
  {
    Times(rate, ElapsedRounded(Current(s, l, now), l, now)) <= U64MAX
  }

  /** No word overflows in the bps arithmetic of this step.  The byte counter
      itself is far from wrapping, see BytesSent. */
  predicate BytesFit(s: Slice, l: Limits, now: nat)
    requires LimitsOk(l)
  {
    ProductFits(s, l, now, l.bps)
  }

  /** No word overflows in the iops arithmetic of this step. */
  predicate IosFit(s: Slice, l: Limits, now: nat)
    requires LimitsOk(l)
  {
    ProductFits(s, l, now, l.iops) && Current(s, l, now).ios < U32MAX
  }

  /** A bio is offered: if allowed, it is charged and the slice trimmed. */
  function Offer(s: Slice, l: Limits, now: nat, size: nat): (r: (bool, Slice))
    requires LimitsOk(l)
  {
    var v := MayDispatch(s, l, now, size);
    if v.ok then (true, Trim(Charge(v.slice, size), l, now)) else (false, v.slice)
  }

  /** How much time a trim drops. */
  function Used(s: Slice, l: Limits, now: nat): (used: nat)
    requires LimitsOk(l) && s.start <= now
    ensures used <= now - s.start < used + SliceLen(l)
  {
    DivIsQuotient(now - s.start, SliceLen(l));
    Times(SliceLen(l), Div(now - s.start, SliceLen(l)))
  }

  /** Whether or not the trim bothers to move the slice, it takes off each
      counter what the rate allows in the time dropped. */
  lemma {:induction false} TrimTakes(s: Slice, l: Limits, now: nat)
    requires LimitsOk(l) && s.start <= now <= s.end
    ensures var t, used := Trim(s, l, now), Used(s, l, now);
            var bytesTrim, iosTrim := Div(U64(Times(l.bps, used)), l.hz), Div(U64(Times(l.iops, used)), l.hz);
            && t.bytes == Minus(s.bytes, bytesTrim) && t.ios == Minus(s.ios, iosTrim)
            && t.end == RoundUp(now + SliceLen(l), SliceLen(l))
            && (t.start == s.start + used || (t.start == s.start && bytesTrim == 0 && iosTrim == 0))
  {
    if Div(now - s.start, SliceLen(l)) == 0 {
      assert Times(SliceLen(l), 0) == 0 && Times(l.bps, 0) == 0 && Times(l.iops, 0) == 0;
    }
  }

  lemma {:induction false} TrimOf(rate: nat, used: nat, hz: nat)
    requires hz > 0
    ensures hz * Div(Times(rate, used), hz) <= rate * used < hz * Div(Times(rate, used), hz) + hz
  {
    DivIsQuotient(Times(rate, used), hz);
  }

  /** Trimming one counter that is paid for. */
  lemma {:induction false} TrimPaid(s: Slice, t: Slice, l: Limits, s0: nat, now: nat, total: nat, disp: nat, rate: nat, used: nat, trim: nat)
    requires LimitsOk(l) && s.start <= now && used <= now - s.start && trim == Div(Times(rate, used), l.hz)
    requires Paid(total, disp, s, s0, rate, l.hz) && l.hz * total <= rate * (now - s0 + SliceLen(l))
    requires t.end >= now + SliceLen(l) && (t.start == s.start + used || (t.start == s.start && trim == 0))
    ensures Paid(total, Minus(disp, trim), t, s0, rate, l.hz)
  {
    TrimOf(rate, used, l.hz);
    if t.start == s.start + used {
      PaidTrim(total, disp, s, t, s0, rate, l, now, used, trim);
    } else {
      PaidTrim(total, disp, s, t, s0, rate, l, now, 0, 0);
    }
  }

  /** A counter paid for, and its total within the rate at time now. */
  ghost predicate InBooks(total: nat, disp: nat, s: Slice, s0: nat, rate: nat, l: Limits, now: nat) {
    && s0 <= now && s.start <= now && Paid(total, disp, s, s0, rate, l.hz)
    && l.hz * total <= rate * (now - s0 + SliceLen(l))
  }

  /** One counter through a granted dispatch of n units, charge and trim. */
  lemma {:induction false} CounterSent(s: Slice, c: Slice, d: Slice, t: Slice, l: Limits, s0: nat, now: nat,
                                       total: nat, disp: nat, n: nat, rate: nat, trim: nat)
    requires LimitsOk(l) && InBooks(total, disp, s, s0, rate, l, now) && c == Current(s, l, now)
    requires Times(rate, ElapsedRounded(c, l, now)) <= U64MAX
    requires var was := if SliceUsed(s, now) then 0 else disp;
             was + n <= Div(Times(rate, ElapsedRounded(c, l, now)), l.hz)
    requires d.start == c.start && d.end == c.end && t.end >= now + SliceLen(l)
    requires trim == Div(Times(rate, Used(c, l, now)), l.hz)
    requires t.start == c.start + Used(c, l, now) || (t.start == c.start && trim == 0)
    ensures var was := if SliceUsed(s, now) then 0 else disp;
            InBooks(total + n, Minus(was + n, trim), t, s0, rate, l, now)
  {
    var was := if SliceUsed(s, now) then 0 else disp;
    var rnd := ElapsedRounded(c, l, now);
    PaidCurrent(total, disp, s, s0, rate, l, now);
    TrimOf(rate, rnd, l.hz);
    PaidDispatch(total, was, n, c, s0, rate, l, now, rnd, Div(Times(rate, rnd), l.hz));
    TrimPaid(c, t, l, s0, now, total + n, was + n, rate, Used(c, l, now), trim);
  }

  /** The time dropped by a trim is no longer than the age rounded up. */
  lemma {:induction false} UsedFits(c: Slice, l: Limits, now: nat, rate: nat)
    requires LimitsOk(l) && c.start <= now && Times(rate, ElapsedRounded(c, l, now)) <= U64MAX
    ensures Times(rate, Used(c, l, now)) <= U64MAX
  {
    MulLe(rate, Used(c, l, now), ElapsedRounded(c, l, now));
  }

  /** The allowance of one step, and so the byte counter, is at most a tenth of
      what the word holds. */
  lemma {:induction false} AllowanceSmall(c: Slice, l: Limits, now: nat)
    requires LimitsOk(l) && c.start <= now
    ensures 10 * BytesAllowed(c, l, now) <= U64MAX
  {
    var x := U64(Times(l.bps, ElapsedRounded(c, l, now)));
    DivIsQuotient(x, l.hz);
    MulLe(BytesAllowed(c, l, now), 10, l.hz);
  }

  predicate SmallBytes(s: Slice) { 10 * s.bytes <= U64MAX }

  /** A bio within the byte limit goes out: the account stays in order. */
  lemma {:induction false} BytesSent(s: Slice, l: Limits, s0: nat, now: nat, size: Word, total: nat)
    requires LimitsOk(l) && !Unlimited(l) && BytesFit(s, l, now) && SmallBytes(s)
    requires InBooks(total, s.bytes, s, s0, l.bps, l, now) && MayDispatch(s, l, now, size).ok
    ensures var t := Offer(s, l, now, size).1;
            InBooks(total + size, t.bytes, t, s0, l.bps, l, now) && SmallBytes(t)
  {
    var c := Current(s, l, now);
    var d := Charge(c, size);
    AllowanceSmall(c, l, now);
    UsedFits(c, l, now, l.bps);
    TrimTakes(d, l, now);
    assert Used(d, l, now) == Used(c, l, now);
    CounterSent(s, c, d, Trim(d, l, now), l, s0, now, total, s.bytes, size, l.bps, Div(Times(l.bps, Used(c, l, now)), l.hz));
  }

  lemma {:induction false} IosSent(s: Slice, l: Limits, s0: nat, now: nat, size: nat, total: nat)
    requires LimitsOk(l) && !Unlimited(l) && IosFit(s, l, now)
    requires InBooks(total, s.ios, s, s0, l.iops, l, now) && MayDispatch(s, l, now, size).ok
    ensures var t := Offer(s, l, now, size).1;
            InBooks(total + 1, t.ios, t, s0, l.iops, l, now)
  {
    var c := Current(s, l, now);
    var d := Charge(c, size);
    UsedFits(c, l, now, l.iops);
    TrimTakes(d, l, now);
    assert Used(d, l, now) == Used(c, l, now);
    CounterSent(s, c, d, Trim(d, l, now), l, s0, now, total, s.ios, 1, l.iops, Div(Times(l.iops, Used(c, l, now)), l.hz));
  }

  /** A refused bio, or a mere question, only stretches or renews the slice. */
  lemma {:induction false} Asked(s: Slice, l: Limits, s0: nat, now: nat, size: nat, total: nat, disp: nat, rate: nat)
    requires LimitsOk(l) && !Unlimited(l) && InBooks(total, disp, s, s0, rate, l, now)
    ensures var t := MayDispatch(s, l, now, size).slice;
            InBooks(total, if SliceUsed(s, now) then 0 else disp, t, s0, rate, l, now)
  {
    PaidCurrent(total, disp, s, s0, rate, l, now);
    var c := Current(s, l, now);
    var t := MayDispatch(s, l, now, size).slice;
    PaidStretch(total, if SliceUsed(s, now) then 0 else disp, c, t, s0, rate, l.hz);
  }
}
