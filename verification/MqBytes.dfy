/**
 Checked size arithmetic and the byte accounting of POSIX message queues
 (include/linux/l30_checked_math.h, ipc/mqueue.c).
 */
module MqBytes {

  /** (size_t)-1 */
  const SIZE_MAX: nat := 0xffff_ffff_ffff_ffff

  /** sizeof(struct msg_msg *) */
  const PTR_BYTES: nat := 8

  datatype Size = Overflow | Value(n: nat)

  predicate IsSize(n: nat) { n <= SIZE_MAX }

  function AddOverflow(a: nat, b: nat): Size
    requires IsSize(a) && IsSize(b)
  {
    if a > SIZE_MAX - b then Overflow else Value(a + b)
  }

  function MulOverflow(a: nat, b: nat): Size
    requires IsSize(a) && IsSize(b)
  {
    if a != 0 && b > SIZE_MAX / a then Overflow else Value(a * b)
  }

  function FlexBytes(header: nat, count: nat, element: nat): Size
    requires IsSize(header) && IsSize(count) && IsSize(element)
  {
    MulExact(count, element);
    match MulOverflow(count, element)
    case Overflow => Overflow
    case Value(payload) => AddOverflow(header, payload)
  }

  function RecordsBytes(count: nat, payload: nat, overhead: nat): Size
    requires IsSize(count) && IsSize(payload) && IsSize(overhead)
  {
    match AddOverflow(payload, overhead)
    case Overflow => Overflow
    case Value(record) => MulOverflow(count, record)
  }

  /** What an exact computation of n yields. */
  function Exactly(n: nat): Size { if IsSize(n) then Value(n) else Overflow }

  lemma {:induction false} MulExact(a: nat, b: nat)
    requires IsSize(a) && IsSize(b)
    ensures MulOverflow(a, b) == Exactly(a * b)
  {
    if a != 0 {
      var q := SIZE_MAX / a;
      assert q * a <= SIZE_MAX < (q + 1) * a by { Quotient(SIZE_MAX, a); }
      if b > q { Grows(q + 1, b, a); } else { Grows(b, q, a); }
    }
  }

  lemma {:induction false} Quotient(n: nat, a: nat)
    requires a > 0
    ensures (n / a) * a <= n < (n / a + 1) * a
  {
    assert n == (n / a) * a + n % a;
    assert (n / a + 1) * a == (n / a) * a + a;
  }

  lemma {:induction false} Grows(x: nat, y: nat, a: nat)
    requires x <= y
    ensures x * a <= y * a == a * y
  {
  }

  /** The helpers overflow exactly when the mathematical value does not fit. */
  lemma {:induction false} FlexExact(header: nat, count: nat, element: nat)
    requires IsSize(header) && IsSize(count) && IsSize(element)
    ensures FlexBytes(header, count, element) == Exactly(header + count * element)
  {
    MulExact(count, element);
  }

  /** For records this holds unless there are none and one would not fit: then
      the helper reports an overflow although the value is zero. */
  lemma {:induction false} RecordsExact(count: nat, payload: nat, overhead: nat)
    requires IsSize(count) && IsSize(payload) && IsSize(overhead)
    ensures RecordsBytes(count, payload, overhead) == Exactly(count * (payload + overhead))
            <==> count > 0 || IsSize(payload + overhead)
  {
    if IsSize(payload + overhead) {
      MulExact(count, payload + overhead);
    } else if count > 0 {
      Grows(1, count, payload + overhead);
    } else {
      assert count * (payload + overhead) == 0;
    }
  }

  /** The case set apart above: no records, and one would not fit. */
  lemma {:induction false} NoRecordsOverflow()
    ensures RecordsBytes(0, SIZE_MAX, PTR_BYTES) == Overflow && Exactly(0 * (SIZE_MAX + PTR_BYTES)) == Value(0)
  {
    assert 0 * (SIZE_MAX + PTR_BYTES) == 0;
  }

  // ---- Accounting

  datatype Attr = Attr(maxmsg: nat, msgsize: nat)

  predicate AttrOk(a: Attr) { IsSize(a.maxmsg) && IsSize(a.msgsize) }

  /** mq_calculate_sizes: the bytes of the table and of the whole queue. */
  function CalculateSizes(a: Attr): (Size, Size)
    requires AttrOk(a)
  {
    (MulOverflow(a.maxmsg, PTR_BYTES), RecordsBytes(a.maxmsg, a.msgsize, PTR_BYTES))
  }

  function Charge(a: Attr): nat { a.maxmsg * (a.msgsize + PTR_BYTES) }

  function Total(live: seq<Attr>): nat { if live == [] then 0 else Charge(live[0]) + Total(live[1..]) }

  lemma {:induction false} TotalWithout(live: seq<Attr>, i: nat)
    requires i < |live|
    ensures Total(live[..i] + live[i + 1..]) == Total(live) - Charge(live[i])
  {
    var r := live[..i] + live[i + 1..];
    if i == 0 {
      assert r == live[1..];
    } else {
      var t := live[1..];
      assert r[0] == live[0] && r[1..] == t[..i - 1] + t[i..];
      TotalWithout(t, i - 1);
    }
  }

  lemma {:induction false} TotalSnoc(live: seq<Attr>, a: Attr)
    ensures Total(live + [a]) == Total(live) + Charge(a)
  {
    if live == [] {
      assert [a][1..] == [] && live + [a] == [a];
    } else {
      assert (live + [a])[0] == live[0] && (live + [a])[1..] == live[1..] + [a];
      TotalSnoc(live[1..], a);
    }
  }

  /** A user and the queues charged to the user. */
  class User {
    var mqBytes: nat
    var live: seq<Attr>

    ghost predicate Valid()
      reads this
    {
      && IsSize(mqBytes) && mqBytes == Total(live)
      && forall i :: 0 <= i < |live| ==> AttrOk(live[i]) && CalculateSizes(live[i]).1 == Value(Charge(live[i]))
    }

    constructor ()
      ensures Valid() && live == [] && mqBytes == 0
    {
      mqBytes, live := 0, [];
    }

    /** The charging part of mqueue_get_inode: fails, changing nothing, exactly
        when the sizes or the new sum do not fit or exceed the limit. */
    method Create(a: Attr, rlimit: nat) returns (ok: bool)
      requires Valid() && AttrOk(a)
      modifies this
      ensures Valid()
      ensures ok <==> && IsSize(a.maxmsg * PTR_BYTES) && IsSize(a.msgsize + PTR_BYTES)
                      && IsSize(old(mqBytes) + Charge(a)) && old(mqBytes) + Charge(a) <= rlimit
      ensures live == if ok then old(live) + [a] else old(live)
    {
      var (table, queue) := CalculateSizes(a);
      MulExact(a.maxmsg, PTR_BYTES);
      RecordsExact(a.maxmsg, a.msgsize, PTR_BYTES);
      if a.maxmsg > 0 { Grows(1, a.maxmsg, a.msgsize + PTR_BYTES); }
      if table.Overflow? || queue.Overflow? { return false; }
      var sum := AddOverflow(mqBytes, queue.n);
      if sum.Overflow? || sum.n > rlimit { return false; }
      TotalSnoc(live, a);
      mqBytes := sum.n;
      live := live + [a];
      ok := true;
    }

    /** The refund of mqueue_evict_inode: the amount computed again is the amount
        charged, so the sum stays exact and cannot drop below zero. */
    method Evict(i: nat)
      requires Valid() && i < |live|
      modifies this
      ensures Valid() && live == old(live)[..i] + old(live)[i + 1..]
      ensures mqBytes == old(mqBytes) - Charge(old(live)[i])
    {
      var (table, queue) := CalculateSizes(live[i]);
      var bytes := if queue.Overflow? then 0 else queue.n;
      TotalWithout(live, i);
      assert bytes <= mqBytes;
      mqBytes := mqBytes - bytes;
      live := live[..i] + live[i + 1..];
    }
  }
}
