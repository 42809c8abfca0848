/**
 Counting, mapping and merging as block/blk-merge.c does them.  Requests are
 updated in place; the cached counts keep their promise through every merge,
 granted or refused.
 */
module SegmentOps {
  import opened Segments

  datatype Bio = Bio(vecs: seq<Vec>, sectors: nat, counted: bool, segs: nat, front: nat, back: nat)

  /** A scatterlist entry: where it starts and how long it is. */
  datatype Sg = Sg(addr: nat, length: nat)

  function AllVecs(bios: seq<Bio>): seq<Vec> {
    if bios == [] then [] else bios[0].vecs + AllVecs(bios[1..])
  }

  function Sectors(bios: seq<Bio>): nat {
    if bios == [] then 0 else bios[0].sectors + Sectors(bios[1..])
  }

  /** Same queue, but pages that may be bounced join nothing. */
  function Strict(q: Queue): Queue {
    q.(joins := (a: Vec, b: Vec) => q.joins(a, b) && !a.high && !b.high)
  }

  lemma {:induction false} ExtendSplit(q: Queue, p: seq<seq<Vec>>, v: Vec) returns (r: seq<seq<Vec>>)
    requires p != [] && Split(q, p)
    requires Bytes(p[|p| - 1]) + v.len <= q.maxSize && Segment(q, p[|p| - 1])
    requires Pair(q, p[|p| - 1][|p[|p| - 1]| - 1], v)
    ensures Split(q, r) && Flat(r) == Flat(p) + [v] && r == p[..|p| - 1] + [p[|p| - 1] + [v]]
    ensures Bytes(r[|r| - 1]) == Bytes(p[|p| - 1]) + v.len
    ensures |p| > 1 ==> r[0] == p[0]
  {
    var init, s := p[..|p| - 1], p[|p| - 1];
    assert Segment(q, [v]);
    assert Bytes([v]) == v.len;
    JoinSegments(q, s, [v]);
    BytesSnoc(s, v);
    r := init + [s + [v]];
    FlatSnoc(init, s + [v]);
    FlatSnoc(init, s);
    assert p == init + [s];
  }

  lemma {:induction false} NewInSplit(q: Queue, p: seq<seq<Vec>>, v: Vec) returns (r: seq<seq<Vec>>)
    requires Split(q, p)
    ensures Split(q, r) && r == p + [[v]] && Flat(r) == Flat(p) + [v] && Bytes(r[|r| - 1]) == v.len
  {
    r := p + [[v]];
    assert Segment(q, [v]);
    FlatSnoc(p, [v]);
    assert Bytes([v]) == v.len;
  }

  /** Each entry describes the segment at its place. */
  ghost predicate Maps(sg: seq<Sg>, p: seq<seq<Vec>>) {
    |sg| == |p| && forall i :: 0 <= i < |sg| ==> p[i] != [] && sg[i] == Sg(p[i][0].addr, Bytes(p[i]))
  }

  lemma {:induction false} MapsGrow(sg: seq<Sg>, p: seq<seq<Vec>>, v: Vec)
    requires Maps(sg, p) && p != []
    ensures var e := sg[|sg| - 1];
            Maps(sg[|sg| - 1 := Sg(e.addr, e.length + v.len)], p[..|p| - 1] + [p[|p| - 1] + [v]])
  {
    BytesSnoc(p[|p| - 1], v);
  }

  lemma {:induction false} MapsNew(sg: seq<Sg>, p: seq<seq<Vec>>, v: Vec)
    requires Maps(sg, p)
    ensures Maps(sg + [Sg(v.addr, v.len)], p + [[v]])
  {
    assert Bytes([v]) == v.len;
  }

  ghost predicate Mapping(q: Queue, vecs: seq<Vec>, i: nat, sg: seq<Sg>, p: seq<seq<Vec>>) {
    && i <= |vecs| && Split(q, p) && Flat(p) == vecs[..i] && Maps(sg, p)
    && (i == 0 <==> p == [])
    && (i == 0 ==> Greedy(q, vecs) == Greedy(q, vecs[i..]))
    && (i > 0 ==> Greedy(q, vecs) == |sg| + More(q, vecs[i - 1], sg[|sg| - 1].length, vecs[i..]))
  }

  /** One vector: it lengthens the last entry or starts a new one. */
  method MapOne(q: Queue, vecs: seq<Vec>, i: nat, sg: seq<Sg>, ghost p: seq<seq<Vec>>)
    returns (sg': seq<Sg>, ghost p': seq<seq<Vec>>)
    requires i < |vecs| && Mapping(q, vecs, i, sg, p)
    ensures Mapping(q, vecs, i + 1, sg', p')
  {
    var v := vecs[i];
    assert vecs[i..][0] == v && vecs[i..][1..] == vecs[i + 1..] && vecs[..i] + [v] == vecs[..i + 1];
    if i > 0 && q.cluster && sg[|sg| - 1].length + v.len <= q.maxSize && q.joins(vecs[i - 1], v) {
      LastOf(q, p, vecs[..i]);
      MapsGrow(sg, p, v);
      p' := ExtendSplit(q, p, v);
      sg' := sg[|sg| - 1 := Sg(sg[|sg| - 1].addr, sg[|sg| - 1].length + v.len)];
    } else {
      MapsNew(sg, p, v);
      p' := NewInSplit(q, p, v);
      sg' := sg + [Sg(v.addr, v.len)];
    }
  }

  /** blk_rq_map_sg, before padding and draining: a valid split of exactly the
      vectors given, with as few entries as any. */
  method MapSg(q: Queue, vecs: seq<Vec>) returns (sg: seq<Sg>, ghost p: seq<seq<Vec>>)
    ensures Split(q, p) && Flat(p) == vecs && Maps(sg, p)
    ensures |sg| == Greedy(q, vecs)
  {
    sg, p := [], [];
    assert vecs[0..] == vecs;
    for i := 0 to |vecs|
      invariant Mapping(q, vecs, i, sg, p)
    {
      sg, p := MapOne(q, vecs, i, sg, p);
    }
    assert vecs[..|vecs|] == vecs;
  }

  // ---- Counting

  /** The state of the counting loop after some vectors. */
  ghost predicate Counting(q: Queue, seen: seq<Vec>, nr: nat, segSize: nat, front: nat, p: seq<seq<Vec>>) {
    && Split(q, p) && Flat(p) == seen && |p| == nr && (nr == 0 <==> seen == [])
    && (nr > 0 ==> segSize == Bytes(p[|p| - 1]))
    && (nr > 1 ==> Bytes(p[0]) <= front)
  }

  ghost predicate CountSoFar(q: Queue, all: seq<Vec>, k: nat, nr: nat, segSize: nat)
  {
    && k <= |all|
    && (k == 0 ==> nr == 0)
    && (k > 0 ==> Greedy(Strict(q), all) == nr + More(Strict(q), all[k - 1], segSize, all[k..]))
  }

  /** One vector of __blk_recalc_rq_segments. */
  method CountOne(q: Queue, ghost all: seq<Vec>, ghost k: nat, v: Vec, prev: Vec, highPrv: bool,
                  nr: nat, segSize: nat, front: nat, ghost p: seq<seq<Vec>>)
    returns (highPrv': bool, nr': nat, segSize': nat, front': nat, ghost p': seq<seq<Vec>>)
    requires k < |all| && all[k] == v && (k > 0 ==> prev == all[k - 1] && highPrv == prev.high) && (k == 0 ==> highPrv)
    requires Counting(q, all[..k], nr, segSize, front, p) && CountSoFar(q, all, k, nr, segSize)
    ensures highPrv' == v.high && front <= front'
    ensures Counting(q, all[..k + 1], nr', segSize', front', p') && CountSoFar(q, all, k + 1, nr', segSize')
  {
    assert all[k..][0] == v && all[k..][1..] == all[k + 1..] && all[..k] + [v] == all[..k + 1];
    highPrv', nr', segSize', front' := highPrv, nr, segSize, front;
    var high := v.high;
    if !high && !highPrv && q.cluster && segSize + v.len <= q.maxSize && q.joins(prev, v) {
      LastOf(q, p, all[..k]);
      p' := ExtendSplit(q, p, v);
      segSize' := segSize + v.len;
    } else {
      p' := NewInSplit(q, p, v);
      if nr == 1 && segSize > front { front' := segSize; }
      nr', segSize', highPrv' := nr + 1, v.len, high;
    }
  }

  lemma {:induction false} AllVecsConcat(a: seq<Bio>, b: seq<Bio>)
    ensures AllVecs(a + b) == AllVecs(a) + AllVecs(b)
  {
    if a == [] {
      assert a + b == b;
    } else {
      AllVecsConcat(a[1..], b);
      assert (a + b)[0] == a[0] && (a + b)[1..] == a[1..] + b;
      assert a[0].vecs + (AllVecs(a[1..]) + AllVecs(b)) == a[0].vecs + AllVecs(a[1..]) + AllVecs(b);
    }
  }

  lemma {:induction false} SectorsConcat(a: seq<Bio>, b: seq<Bio>)
    ensures Sectors(a + b) == Sectors(a) + Sectors(b)
  {
    if a == [] {
      assert a + b == b;
    } else {
      SectorsConcat(a[1..], b);
      assert (a + b)[0] == a[0] && (a + b)[1..] == a[1..] + b;
    }
  }

  lemma {:induction false} One(b: Bio)
    ensures AllVecs([b]) == b.vecs && Sectors([b]) == b.sectors
  {
    assert [b][1..] == [];
    assert b.vecs + [] == b.vecs;
  }

  lemma {:induction false} VecsSnoc(a: seq<Bio>, x: Bio)
    ensures AllVecs(a + [x]) == AllVecs(a) + x.vecs
  {
    AllVecsConcat(a, [x]);
    One(x);
  }

  lemma {:induction false} VecsAround(bios: seq<Bio>, i: nat, a: seq<Bio>, ax: seq<Bio>, b: seq<Bio>)
    requires i < |bios| && a == bios[..i] && ax == bios[..i + 1] && b == bios[i + 1..]
    ensures AllVecs(bios) == AllVecs(ax) + AllVecs(b)
    ensures AllVecs(ax) == AllVecs(a) + bios[i].vecs
  {
    assert ax + b == bios;
    assert a + [bios[i]] == ax;
    AllVecsConcat(ax, b);
    VecsSnoc(a, bios[i]);
  }

  /** The same chain, up to larger cached sizes. */
  predicate Recached(old_: seq<Bio>, new_: seq<Bio>) {
    |old_| == |new_| && forall i :: 0 <= i < |old_| ==>
                                      && new_[i].vecs == old_[i].vecs && new_[i].sectors == old_[i].sectors
                                      && old_[i].front <= new_[i].front && old_[i].back <= new_[i].back
  }

  lemma {:induction false} RecachedVecs(a: seq<Bio>, b: seq<Bio>)
    requires Recached(a, b)
    ensures AllVecs(a) == AllVecs(b) && Sectors(a) == Sectors(b)
    decreases |a|
  {
    if a != [] { RecachedVecs(a[1..], b[1..]); }
  }

  /** The vectors of one bio within the count over a chain. */
  method CountBio(q: Queue, vecs: seq<Vec>, ghost all: seq<Vec>, ghost base: nat, prev: Vec, highPrv: bool,
                  nr: nat, segSize: nat, front: nat, ghost p: seq<seq<Vec>>)
    returns (prev': Vec, highPrv': bool, nr': nat, segSize': nat, front': nat, ghost p': seq<seq<Vec>>)
    requires base + |vecs| <= |all| && vecs == all[base..base + |vecs|]
    requires (base > 0 ==> prev == all[base - 1] && highPrv == prev.high) && (base == 0 ==> highPrv)
    requires Counting(q, all[..base], nr, segSize, front, p) && CountSoFar(q, all, base, nr, segSize)
    ensures var k := base + |vecs|;
            && (k > 0 ==> prev' == all[k - 1] && highPrv' == prev'.high) && (k == 0 ==> highPrv')
            && Counting(q, all[..k], nr', segSize', front', p') && CountSoFar(q, all, k, nr', segSize')
    ensures front <= front'
  {
    prev', highPrv', nr', segSize', front', p' := prev, highPrv, nr, segSize, front, p;
    for j := 0 to |vecs|
      invariant var k := base + j;
                && (k > 0 ==> prev' == all[k - 1] && highPrv' == prev'.high) && (k == 0 ==> highPrv')
                && Counting(q, all[..k], nr', segSize', front', p') && CountSoFar(q, all, k, nr', segSize')
      invariant front <= front'
    {
      assert vecs[j] == all[base + j];
      highPrv', nr', segSize', front', p' :=
        CountOne(q, all, base + j, vecs[j], prev', highPrv', nr', segSize', front', p');
      prev' := vecs[j];
    }
  }

  /** The counting loops over a chain of bios. */
  method CountChain(q: Queue, bios: seq<Bio>, front0: nat)
    returns (nr: nat, segSize: nat, front: nat, ghost p: seq<seq<Vec>>)
    ensures Counting(q, AllVecs(bios), nr, segSize, front, p) && front0 <= front
    ensures nr == Greedy(Strict(q), AllVecs(bios))
  {
    ghost var all := AllVecs(bios);
    var prev, highPrv := Vec(0, 0, true), true;
    nr, segSize, front, p := 0, 0, front0, [];
    ghost var k: nat := 0;
    assert bios[..0] == [];
    for i := 0 to |bios|
      invariant k <= |all| && all[..k] == AllVecs(bios[..i])
      invariant (k > 0 ==> prev == all[k - 1] && highPrv == prev.high) && (k == 0 ==> highPrv)
      invariant Counting(q, all[..k], nr, segSize, front, p) && CountSoFar(q, all, k, nr, segSize)
      invariant front0 <= front
    {
      VecsAround(bios, i, bios[..i], bios[..i + 1], bios[i + 1..]);
      ghost var k' := k + |bios[i].vecs|;
      assert all[..k'] == AllVecs(bios[..i + 1]);
      assert bios[i].vecs == all[k..k'];
      prev, highPrv, nr, segSize, front, p :=
        CountBio(q, bios[i].vecs, all, k, prev, highPrv, nr, segSize, front, p);
      k := k';
    }
    assert bios[..|bios|] == bios;
    assert all[..k] == all && all[k..] == [];
  }

  /** __blk_recalc_rq_segments: the count, and the outer sizes cached in the
      first and last bio of the chain. */
  method RecalcSegments(q: Queue, bios: seq<Bio>) returns (nr: nat, r: seq<Bio>)
    ensures nr == Greedy(Strict(q), AllVecs(bios)) && Recached(bios, r)
    ensures forall i :: 0 <= i < |bios| ==> r[i] == bios[i].(front := r[i].front, back := r[i].back)
    ensures AllVecs(bios) != [] ==> bios != [] && Promise(q, AllVecs(bios), nr, r[0].front, r[|r| - 1].back)
  {
    nr, r := 0, bios;
    if bios == [] { return; }
    var segSize, front;
    ghost var p;
    nr, segSize, front, p := CountChain(q, bios, bios[0].front);
    if nr == 1 && segSize > front { front := segSize; }
    var back := if segSize > bios[|bios| - 1].back then segSize else bios[|bios| - 1].back;
    if AllVecs(bios) != [] { assert Witness(q, AllVecs(bios), nr, front, back, p); }
    r := WithSizes(bios, front, back);
  }

  /** Store the outer sizes in the first and last bio (maybe the same). */
  function WithSizes(bios: seq<Bio>, front: nat, back: nat): (r: seq<Bio>)
    requires bios != [] && bios[0].front <= front && bios[|bios| - 1].back <= back
    ensures Recached(bios, r) && r[0].front == front && r[|r| - 1].back == back
    ensures forall i :: 0 <= i < |bios| ==> r[i] == bios[i].(front := r[i].front, back := r[i].back)
  {
    var f := bios[0 := bios[0].(front := front)];
    f[|f| - 1 := f[|f| - 1].(back := back)]
  }
}
