/**
 Splitting the vectors of a request into hardware segments: what a valid split
 is, that the greedy split is minimal, and what a cached segment count with
 cached outer segment sizes promises.
 */
module Segments {

  /** A bio_vec: `high` pages may be bounced and are never joined when counting. */
  datatype Vec = Vec(addr: nat, len: nat, high: bool)

  /** Queue limits; `joins` decides whether two vectors in a row may share a
      segment (physical contiguity and the segment boundary mask). */
  datatype Queue = Queue(cluster: bool, maxSize: nat, maxSegments: nat, maxSectors: nat, joins: (Vec, Vec) -> bool)

  predicate Pair(q: Queue, a: Vec, b: Vec) { q.cluster && q.joins(a, b) }

  function Bytes(s: seq<Vec>): nat { if s == [] then 0 else s[0].len + Bytes(s[1..]) }

  /** `rest` continues a segment that ends in `last` and has `size` bytes. */
  predicate Continues(q: Queue, last: Vec, size: nat, rest: seq<Vec>)
    decreases |rest|
  {
    rest != [] ==>
      && Pair(q, last, rest[0]) && size + rest[0].len <= q.maxSize
      && Continues(q, rest[0], size + rest[0].len, rest[1..])
  }

  predicate Segment(q: Queue, seg: seq<Vec>) {
    seg != [] && Continues(q, seg[0], seg[0].len, seg[1..])
  }

  predicate Split(q: Queue, p: seq<seq<Vec>>) {
    forall i :: 0 <= i < |p| ==> Segment(q, p[i])
  }

  function Flat(p: seq<seq<Vec>>): seq<Vec> { if p == [] then [] else p[0] + Flat(p[1..]) }

  // ---- The greedy split

  /** New segments the greedy rule starts for `rest`. */
  function More(q: Queue, last: Vec, size: nat, rest: seq<Vec>): nat
    decreases |rest|
  {
    if rest == [] then 0
    else if Pair(q, last, rest[0]) && size + rest[0].len <= q.maxSize
    then More(q, rest[0], size + rest[0].len, rest[1..])
    else 1 + More(q, rest[0], rest[0].len, rest[1..])
  }

  function Greedy(q: Queue, vecs: seq<Vec>): nat {
    if vecs == [] then 0 else 1 + More(q, vecs[0], vecs[0].len, vecs[1..])
  }

  /** The greedy rule stays ahead of any other split: it has started fewer
      segments (`extra`), or as many with no more in the current one. */
  lemma {:induction false} StaysAhead(q: Queue, last: Vec, size: nat, other: nat, extra: nat, seg: seq<Vec>, p: seq<seq<Vec>>)
    requires Continues(q, last, other, seg) && Split(q, p) && (extra == 0 ==> size <= other)
    ensures More(q, last, size, seg + Flat(p)) <= extra + |p|
    decreases |seg| + |Flat(p)|, |p|
  {
    if seg != [] {
      var rest := seg + Flat(p);
      var v := seg[0];
      assert rest[0] == v && rest[1..] == seg[1..] + Flat(p);
      if Pair(q, last, v) && size + v.len <= q.maxSize {
        StaysAhead(q, v, size + v.len, other + v.len, extra, seg[1..], p);
      } else {
        StaysAhead(q, v, v.len, other + v.len, extra - 1, seg[1..], p);
      }
    } else if p != [] {
      var v, tail := p[0][0], p[0][1..];
      assert Segment(q, p[0]);
      assert p[0] == [v] + tail;
      var rest := seg + Flat(p);
      assert rest == [v] + (tail + Flat(p[1..]));
      assert rest[0] == v && rest[1..] == tail + Flat(p[1..]);
      if Pair(q, last, v) && size + v.len <= q.maxSize {
        StaysAhead(q, v, size + v.len, v.len, extra + 1, tail, p[1..]);
      } else {
        StaysAhead(q, v, v.len, v.len, extra, tail, p[1..]);
      }
    } else {
      assert seg + Flat(p) == [];
    }
  }

  lemma {:induction false} GreedyIsMinimal(q: Queue, vecs: seq<Vec>, p: seq<seq<Vec>>)
    requires Split(q, p) && Flat(p) == vecs
    ensures Greedy(q, vecs) <= |p|
  {
    if p != [] {
      assert Segment(q, p[0]);
      var v, tail := p[0][0], p[0][1..];
      StaysAhead(q, v, v.len, v.len, 0, tail, p[1..]);
      assert vecs[0] == v && vecs[1..] == tail + Flat(p[1..]) by { assert p[0] == [v] + tail; }
    }
  }

  // ---- Splits grow at the end

  lemma {:induction false} FlatSnoc(p: seq<seq<Vec>>, s: seq<Vec>)
    ensures Flat(p + [s]) == Flat(p) + s
  {
    if p == [] {
      assert p + [s] == [s];
      assert Flat([s]) == s + Flat([s][1..]);
    } else {
      FlatSnoc(p[1..], s);
      assert (p + [s])[1..] == p[1..] + [s];
    }
  }

  lemma {:induction false} FlatConcat(p: seq<seq<Vec>>, r: seq<seq<Vec>>)
    ensures Flat(p + r) == Flat(p) + Flat(r)
  {
    if p == [] {
      assert p + r == r;
    } else {
      FlatConcat(p[1..], r);
      assert (p + r)[1..] == p[1..] + r;
    }
  }

  lemma {:induction false} BytesSnoc(s: seq<Vec>, v: Vec)
    ensures Bytes(s + [v]) == Bytes(s) + v.len
  {
    if s == [] {
      assert s + [v] == [v];
    } else {
      BytesSnoc(s[1..], v);
      assert (s + [v])[1..] == s[1..] + [v];
    }
  }

  lemma {:induction false} BytesConcat(s: seq<Vec>, t: seq<Vec>)
    ensures Bytes(s + t) == Bytes(s) + Bytes(t)
  {
    if s == [] {
      assert s + t == t;
    } else {
      BytesConcat(s[1..], t);
      assert (s + t)[1..] == s[1..] + t;
    }
  }

  /** Two segments in a row make one if they fit and their ends join. */
  lemma {:induction false} ContinuesConcat(q: Queue, last: Vec, size: nat, rest: seq<Vec>, t: seq<Vec>)
    requires Continues(q, last, size, rest) && Segment(q, t)
    requires Pair(q, if rest == [] then last else rest[|rest| - 1], t[0])
    requires size + Bytes(rest) + Bytes(t) <= q.maxSize
    ensures Continues(q, last, size, rest + t)
    decreases |rest|
  {
    if rest == [] {
      assert rest + t == t;
      ContinuesFrom(q, t[0], t[0].len, size + t[0].len, t[1..]);
    } else {
      assert (rest + t)[1..] == rest[1..] + t;
      ContinuesConcat(q, rest[0], size + rest[0].len, rest[1..], t);
    }
  }

  lemma {:induction false} ContinuesFrom(q: Queue, last: Vec, size: nat, more: nat, rest: seq<Vec>)
    requires Continues(q, last, size, rest) && more + Bytes(rest) <= q.maxSize
    ensures Continues(q, last, more, rest)
    decreases |rest|
  {
    if rest != [] { ContinuesFrom(q, rest[0], size + rest[0].len, more + rest[0].len, rest[1..]); }
  }

  lemma {:induction false} JoinSegments(q: Queue, s: seq<Vec>, t: seq<Vec>)
    requires Segment(q, s) && Segment(q, t) && Pair(q, s[|s| - 1], t[0]) && Bytes(s) + Bytes(t) <= q.maxSize
    ensures Segment(q, s + t)
  {
    var st := s + t;
    var v, rest := s[0], s[1..];
    assert st[0] == v;
    assert st[1..] == rest + t;
    assert s == [v] + rest;
    JoinTail(q, v, rest, s, t);
  }

  lemma {:induction false} JoinTail(q: Queue, v: Vec, rest: seq<Vec>, s: seq<Vec>, t: seq<Vec>)
    requires s == [v] + rest && Continues(q, v, v.len, rest) && Segment(q, t)
    requires Pair(q, s[|s| - 1], t[0]) && Bytes(s) + Bytes(t) <= q.maxSize
    ensures Continues(q, v, v.len, rest + t)
  {
    assert s[1..] == rest;
    ContinuesConcat(q, v, v.len, rest, t);
  }

  // ---- What a cached count promises

  ghost predicate Witness(q: Queue, vecs: seq<Vec>, nr: nat, front: nat, back: nat, p: seq<seq<Vec>>) {
    && p != [] && Split(q, p) && Flat(p) == vecs && |p| <= nr
    && Bytes(p[0]) <= front && Bytes(p[|p| - 1]) <= back
  }

  /** Some split needs no more than nr segments, its first of at most `front`
      and its last of at most `back` bytes. */
  ghost predicate Promise(q: Queue, vecs: seq<Vec>, nr: nat, front: nat, back: nat) {
    exists p :: Witness(q, vecs, nr, front, back, p)
  }

  /** Such a count bounds the entries the mapping needs. */
  lemma {:induction false} PromiseBounds(q: Queue, vecs: seq<Vec>, nr: nat, front: nat, back: nat)
    requires Promise(q, vecs, nr, front, back)
    ensures Greedy(q, vecs) <= nr
  {
    var p :| Witness(q, vecs, nr, front, back, p);
    GreedyIsMinimal(q, vecs, p);
  }

  lemma {:induction false} PromiseWeakens(q: Queue, vecs: seq<Vec>, nr: nat, front: nat, back: nat, front': nat, back': nat)
    requires Promise(q, vecs, nr, front, back) && front <= front' && back <= back'
    ensures Promise(q, vecs, nr, front', back')
  {
    var p :| Witness(q, vecs, nr, front, back, p);
    assert Witness(q, vecs, nr, front', back', p);
  }

  /** Side by side, counts add up. */
  lemma {:induction false} PromiseConcat(q: Queue, u: seq<Vec>, n: nat, f: nat, b: nat, v: seq<Vec>, m: nat, f': nat, b': nat)
    requires Promise(q, u, n, f, b) && Promise(q, v, m, f', b')
    ensures Promise(q, u + v, n + m, f, b')
  {
    var p :| Witness(q, u, n, f, b, p);
    var r :| Witness(q, v, m, f', b', r);
    FlatConcat(p, r);
    assert Witness(q, u + v, n + m, f, b', p + r);
  }

  /** With one segment, front and back speak of the same segment. */
  lemma {:induction false} PromiseSingle(q: Queue, vecs: seq<Vec>, front: nat, back: nat)
    requires Promise(q, vecs, 1, front, back)
    ensures Promise(q, vecs, 1, back, back) && Promise(q, vecs, 1, front, front)
  {
    var p :| Witness(q, vecs, 1, front, back, p);
    assert Witness(q, vecs, 1, back, back, p);
    assert Witness(q, vecs, 1, front, front, p);
  }

  /** If the outer sizes fit and the ends join, one segment is saved; the size
      of a segment that swallowed a whole request is the sum. */
  lemma {:induction false} PromiseJoin(q: Queue, u: seq<Vec>, n: nat, f: nat, b: nat, v: seq<Vec>, m: nat, f': nat, b': nat)
    requires Promise(q, u, n, f, b) && Promise(q, v, m, f', b') && u != [] && v != []
    requires Pair(q, u[|u| - 1], v[0]) && b + f' <= q.maxSize
    ensures n + m >= 2
    ensures Promise(q, u + v, n + m - 1, if n == 1 then b + f' else f, if m == 1 then b + f' else b')
  {
    var p :| Witness(q, u, n, f, b, p);
    var r :| Witness(q, v, m, f', b', r);
    var front, back := if n == 1 then b + f' else f, if m == 1 then b + f' else b';
    if |p| == n && |r| == m {
      var both := JoinSplits(q, p, r);
      assert Witness(q, u + v, n + m - 1, front, back, both);
    } else {
      FlatConcat(p, r);
      assert Witness(q, u + v, n + m - 1, front, back, p + r);
    }
  }

  lemma {:induction false} JoinSplits(q: Queue, p: seq<seq<Vec>>, r: seq<seq<Vec>>) returns (both: seq<seq<Vec>>)
    requires p != [] && r != [] && Split(q, p) && Split(q, r) && Flat(p) != [] && Flat(r) != []
    requires Pair(q, Flat(p)[|Flat(p)| - 1], Flat(r)[0]) && Bytes(p[|p| - 1]) + Bytes(r[0]) <= q.maxSize
    ensures Split(q, both) && Flat(both) == Flat(p) + Flat(r) && |both| == |p| + |r| - 1
    ensures Bytes(both[0]) == if |p| == 1 then Bytes(p[0]) + Bytes(r[0]) else Bytes(p[0])
    ensures Bytes(both[|both| - 1]) == if |r| == 1 then Bytes(p[|p| - 1]) + Bytes(r[0]) else Bytes(r[|r| - 1])
  {
    var init, s, t, tail := p[..|p| - 1], p[|p| - 1], r[0], r[1..];
    LastOf(q, p, Flat(p));
    assert Segment(q, t);
    JoinSegments(q, s, t);
    BytesConcat(s, t);
    both := init + [s + t] + tail;
    assert Flat(both) == Flat(p) + Flat(r) by {
      FlatConcat(init + [s + t], tail);
      FlatSnoc(init, s + t);
      FlatSnoc(init, s);
      assert p == init + [s];
      assert Flat(init) + (s + t) + Flat(tail) == Flat(init) + s + (t + Flat(tail));
    }
  }

  lemma {:induction false} LastOf(q: Queue, p: seq<seq<Vec>>, u: seq<Vec>)
    requires p != [] && Split(q, p) && Flat(p) == u
    ensures var s := p[|p| - 1]; Segment(q, s) && u != [] && s[|s| - 1] == u[|u| - 1]
  {
    var s := p[|p| - 1];
    assert Segment(q, s);
    FlatSnoc(p[..|p| - 1], s);
    assert p == p[..|p| - 1] + [s];
  }
}
