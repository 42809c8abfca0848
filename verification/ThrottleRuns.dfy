/**
 Whole runs of one direction of a throttled group, and the group as the code
 keeps it.
 */
module ThrottleRuns {
  import opened Throttle

  /** Ask: tg_may_dispatch alone.  Send: a bio that goes out if allowed. */
  datatype Event = Ask(now: nat, size: Word) | Send(now: nat, size: Word)

  datatype Account = Account(slice: Slice, bytes: nat, ios: nat)

  function Apply(a: Account, l: Limits, e: Event): Account
    requires LimitsOk(l)
  {
    match e
    case Ask(now, size) => a.(slice := MayDispatch(a.slice, l, now, size).slice)
    case Send(now, size) =>
      var r := Offer(a.slice, l, now, size);
      if r.0 then Account(r.1, a.bytes + size, a.ios + 1) else a.(slice := r.1)
  }

  function Run(a: Account, l: Limits, es: seq<Event>): Account
    requires LimitsOk(l)
    decreases |es|
  {
    if es == [] then a else Run(Apply(a, l, es[0]), l, es[1..])
  }

  /** A freshly allocated group. */
  const Zero: Account := Account(Slice(0, 0, 0, 0), 0, 0)

  predicate Clocked(es: seq<Event>, from: nat, to: nat)
    decreases |es|
  {
    if es == [] then from <= to
    else from <= es[0].now && Clocked(es[1..], es[0].now, to)
  }

  /** The event lets a bio go. */
  predicate Granted(a: Account, l: Limits, e: Event)
    requires LimitsOk(l)
  {
    e.Send? && MayDispatch(a.slice, l, e.now, e.size).ok
  }

  /** Along the run no word overflows in the bps arithmetic that lets a bio go. */
  predicate BytesFits(a: Account, l: Limits, es: seq<Event>)
    requires LimitsOk(l)
    decreases |es|
  {
    es == [] || (&& (Granted(a, l, es[0]) ==> BytesFit(a.slice, l, es[0].now))
                 && BytesFits(Apply(a, l, es[0]), l, es[1..]))
  }

  /** The same for the iops arithmetic. */
  predicate IosFits(a: Account, l: Limits, es: seq<Event>)
    requires LimitsOk(l)
    decreases |es|
  {
    es == [] || (&& (Granted(a, l, es[0]) ==> IosFit(a.slice, l, es[0].now))
                 && IosFits(Apply(a, l, es[0]), l, es[1..]))
  }

  ghost predicate BytesBooks(a: Account, l: Limits, s0: nat, now: nat) {
    InBooks(a.bytes, a.slice.bytes, a.slice, s0, l.bps, l, now) && SmallBytes(a.slice)
  }

  ghost predicate IosBooks(a: Account, l: Limits, s0: nat, now: nat) {
    InBooks(a.ios, a.slice.ios, a.slice, s0, l.iops, l, now)
  }

  lemma {:induction false} BooksLater(total: nat, disp: nat, s: Slice, s0: nat, rate: nat, l: Limits, now: nat, t: nat)
    requires InBooks(total, disp, s, s0, rate, l, now) && now <= t
    ensures InBooks(total, disp, s, s0, rate, l, t)
  {
    MulLe(rate, now - s0 + SliceLen(l), t - s0 + SliceLen(l));
  }

  lemma {:induction false} BytesStep(a: Account, l: Limits, s0: nat, e: Event)
    requires LimitsOk(l) && !Unlimited(l) && BytesBooks(a, l, s0, e.now)
    requires Granted(a, l, e) ==> BytesFit(a.slice, l, e.now)
    ensures BytesBooks(Apply(a, l, e), l, s0, e.now)
  {
    if Granted(a, l, e) {
      BytesSent(a.slice, l, s0, e.now, e.size, a.bytes);
    } else {
      Asked(a.slice, l, s0, e.now, e.size, a.bytes, a.slice.bytes, l.bps);
    }
  }

  lemma {:induction false} IosStep(a: Account, l: Limits, s0: nat, e: Event)
    requires LimitsOk(l) && !Unlimited(l) && IosBooks(a, l, s0, e.now)
    requires Granted(a, l, e) ==> IosFit(a.slice, l, e.now)
    ensures IosBooks(Apply(a, l, e), l, s0, e.now)
  {
    if Granted(a, l, e) {
      IosSent(a.slice, l, s0, e.now, e.size, a.ios);
    } else {
      Asked(a.slice, l, s0, e.now, e.size, a.ios, a.slice.ios, l.iops);
    }
  }

  /** The books of bytes stay in order over every run. */
  lemma {:induction false} RunBytes(a: Account, l: Limits, s0: nat, from: nat, es: seq<Event>, t: nat)
    requires LimitsOk(l) && !Unlimited(l) && BytesBooks(a, l, s0, from) && Clocked(es, from, t) && BytesFits(a, l, es)
    ensures BytesBooks(Run(a, l, es), l, s0, t)
    decreases |es|
  {
    var next := if es == [] then t else es[0].now;
    BooksLater(a.bytes, a.slice.bytes, a.slice, s0, l.bps, l, from, next);
    if es != [] {
      BytesStep(a, l, s0, es[0]);
      RunBytes(Apply(a, l, es[0]), l, s0, es[0].now, es[1..], t);
    }
  }

  /** And those of bios. */
  lemma {:induction false} RunIos(a: Account, l: Limits, s0: nat, from: nat, es: seq<Event>, t: nat)
    requires LimitsOk(l) && !Unlimited(l) && IosBooks(a, l, s0, from) && Clocked(es, from, t) && IosFits(a, l, es)
    ensures IosBooks(Run(a, l, es), l, s0, t)
    decreases |es|
  {
    var next := if es == [] then t else es[0].now;
    BooksLater(a.ios, a.slice.ios, a.slice, s0, l.iops, l, from, next);
    if es != [] {
      IosStep(a, l, s0, es[0]);
      RunIos(Apply(a, l, es[0]), l, s0, es[0].now, es[1..], t);
    }
  }

  /** The first event opens the first slice at its own time. */
  lemma {:induction false} FirstSlice(l: Limits, e: Event) returns (a: Account)
    requires LimitsOk(l) && !Unlimited(l)
    ensures BytesBooks(a, l, e.now, e.now) && IosBooks(a, l, e.now, e.now) && Apply(Zero, l, e) == Apply(a, l, e)
    ensures Granted(Zero, l, e) == Granted(a, l, e) && BytesFit(Zero.slice, l, e.now) == BytesFit(a.slice, l, e.now)
    ensures IosFit(Zero.slice, l, e.now) == IosFit(a.slice, l, e.now)
  {
    a := Account(Current(Zero.slice, l, e.now), 0, 0);
    CurrentTwice(Zero.slice, l, e.now);
    NothingYet(a.slice, e.now, l.bps, l);
    NothingYet(a.slice, e.now, l.iops, l);
  }

  lemma {:induction false} NothingYet(s: Slice, now: nat, rate: nat, l: Limits)
    requires s.start == now <= s.end
    ensures InBooks(0, 0, s, now, rate, l, now)
  {
    MulLe(rate, 0, s.end - now);
    MulLe(rate, 0, SliceLen(l));
  }

  lemma {:induction false} CurrentTwice(s: Slice, l: Limits, now: nat)
    requires LimitsOk(l)
    ensures Current(Current(s, l, now), l, now) == Current(s, l, now)
  {
  }

  /** What went out from s0 to t is within the rate times the time plus a slice. */
  predicate Within(total: nat, rate: nat, l: Limits, s0: nat, t: nat) {
    s0 <= t && l.hz * total <= rate * (t - s0 + SliceLen(l))
  }

  /** From the first slice to any later time, over any number of trims,
      extensions and fresh slices: the bytes dispatched never exceed the rate
      times the time plus one slice, nor do the bios, as long as no step that
      lets a bio go overflows a word. */
  lemma {:induction false} RateBound(l: Limits, es: seq<Event>, t: nat)
    requires LimitsOk(l) && !Unlimited(l) && es != [] && Clocked(es, 0, t)
    ensures BytesFits(Zero, l, es) ==> Within(Run(Zero, l, es).bytes, l.bps, l, es[0].now, t)
    ensures IosFits(Zero, l, es) ==> Within(Run(Zero, l, es).ios, l.iops, l, es[0].now, t)
  {
    var s0 := es[0].now;
    var a := FirstSlice(l, es[0]);
    if BytesFits(Zero, l, es) {
      BytesStep(a, l, s0, es[0]);
      RunBytes(Apply(a, l, es[0]), l, s0, s0, es[1..], t);
    }
    if IosFits(Zero, l, es) {
      IosStep(a, l, s0, es[0]);
      RunIos(Apply(a, l, es[0]), l, s0, s0, es[1..], t);
    }
  }

  // ---- Runs that grow at the end

  lemma {:induction false} RunSnoc(a: Account, l: Limits, es: seq<Event>, e: Event)
    requires LimitsOk(l)
    ensures Run(a, l, es + [e]) == Apply(Run(a, l, es), l, e)
    decreases |es|
  {
    if es == [] {
      assert es + [e] == [e];
      assert [e][1..] == [];
    } else {
      RunSnoc(Apply(a, l, es[0]), l, es[1..], e);
      assert (es + [e])[1..] == es[1..] + [e];
    }
  }

  lemma {:induction false} ClockedSnoc(es: seq<Event>, from: nat, to: nat, e: Event)
    requires Clocked(es, from, to) && to <= e.now
    ensures Clocked(es + [e], from, e.now)
    decreases |es|
  {
    if es == [] {
      assert es + [e] == [e];
      assert [e][1..] == [];
    } else {
      ClockedSnoc(es[1..], es[0].now, to, e);
      assert (es + [e])[1..] == es[1..] + [e];
    }
  }

  lemma {:induction false} ClockedLater(es: seq<Event>, from: nat, to: nat, later: nat)
    requires Clocked(es, from, to) && to <= later
    ensures Clocked(es, from, later)
    decreases |es|
  {
    if es != [] { ClockedLater(es[1..], es[0].now, to, later); }
  }
}
