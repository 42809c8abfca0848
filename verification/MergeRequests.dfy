/**
 Requests and their merges (block/blk-merge.c, block/blk-core.c).  Whatever
 bios and requests are merged or refused, mapping a request never needs more
 scatterlist entries than its cached segment count.
 */
module MergeRequests {
  import opened Segments
  import opened SegmentOps

  /** What two requests must agree on to be merged. */
  datatype Attr = Attr(write: bool, disk: nat, discard: bool, secure: bool)

  /** A bio that says it was counted was. */
  ghost predicate BioOk(q: Queue, b: Bio) {
    b.vecs != [] && (b.counted ==> Promise(q, b.vecs, b.segs, b.front, b.back))
  }

  /** blk_recount_segments */
  method RecountSegments(q: Queue, b: Bio) returns (r: Bio)
    requires b.vecs != []
    ensures r == b.(counted := true, segs := r.segs, front := r.front, back := r.back)
    ensures b.front <= r.front && b.back <= r.back
    ensures BioOk(q, r) && r.segs == Greedy(Strict(q), b.vecs)
  {
    One(b);
    var nr, l := RecalcSegments(q, [b]);
    r := l[0].(segs := nr, counted := true);
  }

  method Counted(q: Queue, b: Bio) returns (r: Bio)
    requires BioOk(q, b)
    ensures r.counted && BioOk(q, r) && r.vecs == b.vecs && r.sectors == b.sectors
    ensures b.front <= r.front && b.back <= r.back
  {
    r := b;
    if !b.counted { r := RecountSegments(q, b); }
  }

  /** Bring the cached sizes of a bio already in a request up to date. */
  method Refreshed(q: Queue, b: Bio) returns (r: Bio)
    requires b.vecs != []
    ensures r.vecs == b.vecs && r.sectors == b.sectors && b.front <= r.front && b.back <= r.back
  {
    r := b;
    if !b.counted { r := RecountSegments(q, b); }
  }

  predicate Loaded(bios: seq<Bio>) {
    bios != [] && forall i :: 0 <= i < |bios| ==> bios[i].vecs != []
  }

  ghost predicate ChainOk(q: Queue, bios: seq<Bio>, nr: nat) {
    && Loaded(bios)
    && Promise(q, AllVecs(bios), nr, bios[0].front, bios[|bios| - 1].back)
  }

  /** Cached sizes of one member grew. */
  lemma {:induction false} ChainRecached(q: Queue, bios: seq<Bio>, nr: nat, i: nat, b: Bio)
    requires ChainOk(q, bios, nr) && i < |bios|
    requires b.vecs == bios[i].vecs && b.sectors == bios[i].sectors && bios[i].front <= b.front && bios[i].back <= b.back
    ensures ChainOk(q, bios[i := b], nr) && AllVecs(bios[i := b]) == AllVecs(bios)
    ensures Sectors(bios[i := b]) == Sectors(bios)
  {
    var r := bios[i := b];
    assert Recached(bios, r);
    RecachedVecs(bios, r);
    PromiseWeakens(q, AllVecs(bios), nr, bios[0].front, bios[|bios| - 1].back, r[0].front, r[|r| - 1].back);
  }

  lemma {:induction false} ChainAppend(q: Queue, bios: seq<Bio>, nr: nat, b: Bio)
    requires ChainOk(q, bios, nr) && BioOk(q, b) && b.counted
    ensures ChainOk(q, bios + [b], nr + b.segs) && Sectors(bios + [b]) == Sectors(bios) + b.sectors
  {
    VecsSnoc(bios, b);
    SectorsConcat(bios, [b]);
    One(b);
    PromiseConcat(q, AllVecs(bios), nr, bios[0].front, bios[|bios| - 1].back, b.vecs, b.segs, b.front, b.back);
  }

  lemma {:induction false} ChainPrepend(q: Queue, bios: seq<Bio>, nr: nat, b: Bio)
    requires ChainOk(q, bios, nr) && BioOk(q, b) && b.counted
    ensures ChainOk(q, [b] + bios, nr + b.segs) && Sectors([b] + bios) == Sectors(bios) + b.sectors
  {
    AllVecsConcat([b], bios);
    SectorsConcat([b], bios);
    One(b);
    PromiseConcat(q, b.vecs, b.segs, b.front, b.back, AllVecs(bios), nr, bios[0].front, bios[|bios| - 1].back);
  }

  class Request {
    var bios: seq<Bio>
    var nrPhysSegments: nat
    var sectors: nat
    var pos: nat
    var noMerge: bool
    var special: bool
    const attr: Attr

    /** The promise kept through every merge. */
    ghost predicate Valid(q: Queue)
      reads this
    {
      ChainOk(q, bios, nrPhysSegments) && sectors == Sectors(bios)
    }

    /** init_request_from_bio */
    constructor (q: Queue, bio: Bio, sector: nat, attr: Attr)
      requires BioOk(q, bio)
      ensures Valid(q) && |bios| == 1 && bios[0].vecs == bio.vecs && pos == sector
    {
      var b := Counted(q, bio);
      bios, nrPhysSegments, sectors := [b], b.segs, b.sectors;
      pos, noMerge, special, this.attr := sector, false, false, attr;
      One(b);
    }

    /** ll_back_merge_fn and bio_attempt_back_merge */
    method BackMerge(q: Queue, bio: Bio) returns (ok: bool, b: Bio)
      requires Valid(q) && BioOk(q, bio)
      modifies this
      ensures Valid(q) && BioOk(q, b) && b.vecs == bio.vecs && b.sectors == bio.sectors
      ensures AllVecs(bios) == if ok then old(AllVecs(bios)) + bio.vecs else old(AllVecs(bios))
      ensures ok ==> nrPhysSegments <= q.maxSegments && sectors <= q.maxSectors && pos == old(pos)
      ensures !ok ==> noMerge && nrPhysSegments == old(nrPhysSegments)
    {
      b := bio;
      if sectors + bio.sectors > q.maxSectors {
        noMerge := true;
        return false, b;
      }
      var last := |bios| - 1;
      var tail := Refreshed(q, bios[last]);
      ChainRecached(q, bios, nrPhysSegments, last, tail);
      bios := bios[last := tail];
      b := Counted(q, bio);
      if nrPhysSegments + b.segs > q.maxSegments {
        noMerge := true;
        return false, b;
      }
      ChainAppend(q, bios, nrPhysSegments, b);
      VecsSnoc(bios, b);
      nrPhysSegments := nrPhysSegments + b.segs;
      bios := bios + [b];
      sectors := sectors + b.sectors;
      ok := true;
    }

    /** ll_front_merge_fn and bio_attempt_front_merge */
    method FrontMerge(q: Queue, bio: Bio, sector: nat) returns (ok: bool, b: Bio)
      requires Valid(q) && BioOk(q, bio)
      modifies this
      ensures Valid(q) && BioOk(q, b) && b.vecs == bio.vecs && b.sectors == bio.sectors
      ensures AllVecs(bios) == if ok then bio.vecs + old(AllVecs(bios)) else old(AllVecs(bios))
      ensures ok ==> nrPhysSegments <= q.maxSegments && sectors <= q.maxSectors && pos == sector
      ensures !ok ==> noMerge && nrPhysSegments == old(nrPhysSegments) && pos == old(pos)
    {
      b := bio;
      if sectors + bio.sectors > q.maxSectors {
        noMerge := true;
        return false, b;
      }
      b := Counted(q, bio);
      var head := Refreshed(q, bios[0]);
      ChainRecached(q, bios, nrPhysSegments, 0, head);
      bios := bios[0 := head];
      if nrPhysSegments + b.segs > q.maxSegments {
        noMerge := true;
        return false, b;
      }
      ChainPrepend(q, bios, nrPhysSegments, b);
      AllVecsConcat([b], bios);
      One(b);
      nrPhysSegments := nrPhysSegments + b.segs;
      bios := [b] + bios;
      pos := sector;
      sectors := sectors + b.sectors;
      ok := true;
    }

    /** blk_rq_map_sg on a valid request: the driver's table is big enough. */
    method Map(q: Queue) returns (sg: seq<Sg>, ghost p: seq<seq<Vec>>)
      requires Valid(q)
      ensures Split(q, p) && Flat(p) == AllVecs(bios) && Maps(sg, p)
      ensures |sg| <= nrPhysSegments
    {
      sg, p := MapSg(q, AllVecs(bios));
      PromiseBounds(q, AllVecs(bios), nrPhysSegments, bios[0].front, bios[|bios| - 1].back);
    }

    /** blk_recalc_rq_segments, as after a partial completion. */
    method Recalc(q: Queue)
      requires Loaded(bios) && sectors == Sectors(bios)
      modifies `bios, `nrPhysSegments
      ensures Valid(q) && nrPhysSegments == Greedy(Strict(q), AllVecs(bios))
      ensures AllVecs(bios) == old(AllVecs(bios))
    {
      var nr, r := RecalcSegments(q, bios);
      RecachedVecs(bios, r);
      assert AllVecs(bios) != [] by { assert bios[0].vecs != []; }
      nrPhysSegments := nr;
      bios := r;
    }
  }

  // ---- Merging two requests

  /** blk_phys_contig_segment for data-carrying bios */
  predicate PhysContig(q: Queue, a: Bio, b: Bio) {
    && q.cluster && a.back + b.front <= q.maxSize
    && a.vecs != [] && b.vecs != [] && q.joins(a.vecs[|a.vecs| - 1], b.vecs[0])
  }

  lemma {:induction false} OuterVecs(bios: seq<Bio>)
    requires bios != [] && bios[0].vecs != [] && bios[|bios| - 1].vecs != []
    ensures var v := AllVecs(bios);
            var t := bios[|bios| - 1].vecs;
            v != [] && v[0] == bios[0].vecs[0] && v[|v| - 1] == t[|t| - 1]
  {
    var init := bios[..|bios| - 1];
    VecsSnoc(init, bios[|bios| - 1]);
    assert bios == init + [bios[|bios| - 1]];
  }

  /** The chain of a granted request merge. */
  lemma {:induction false} ChainsJoin(q: Queue, a: seq<Bio>, n: nat, b: seq<Bio>, m: nat)
    requires ChainOk(q, a, n) && ChainOk(q, b, m) && PhysContig(q, a[|a| - 1], b[0])
    ensures var size := a[|a| - 1].back + b[0].front;
            && n + m >= 2
            && Promise(q, AllVecs(a) + AllVecs(b), n + m - 1, if n == 1 then size else a[0].front,
                       if m == 1 then size else b[|b| - 1].back)
  {
    OuterVecs(a);
    OuterVecs(b);
    PromiseJoin(q, AllVecs(a), n, a[0].front, a[|a| - 1].back, AllVecs(b), m, b[0].front, b[|b| - 1].back);
  }

  /** A one-segment request survives having its front size overwritten by
      anything no smaller than its back size ... */
  lemma {:induction false} FrontOverwritten(q: Queue, a: seq<Bio>, size: nat)
    requires ChainOk(q, a, 1) && a[|a| - 1].back <= size
    ensures ChainOk(q, a[0 := a[0].(front := size)], 1)
    ensures AllVecs(a[0 := a[0].(front := size)]) == AllVecs(a) && Sectors(a[0 := a[0].(front := size)]) == Sectors(a)
  {
    var r := a[0 := a[0].(front := size)];
    SameVecs(a, r);
    var back := a[|a| - 1].back;
    PromiseSingle(q, AllVecs(a), a[0].front, back);
    PromiseWeakens(q, AllVecs(a), 1, back, back, size, back);
  }

  /** ... and its back size by anything no smaller than its front size. */
  lemma {:induction false} BackOverwritten(q: Queue, b: seq<Bio>, size: nat)
    requires ChainOk(q, b, 1) && b[0].front <= size
    ensures var r := b[|b| - 1 := b[|b| - 1].(back := size)];
            ChainOk(q, r, 1) && AllVecs(r) == AllVecs(b) && Sectors(r) == Sectors(b)
  {
    var r := b[|b| - 1 := b[|b| - 1].(back := size)];
    SameVecs(b, r);
    var front := b[0].front;
    PromiseSingle(q, AllVecs(b), front, b[|b| - 1].back);
    PromiseWeakens(q, AllVecs(b), 1, front, front, front, size);
  }

  lemma {:induction false} SameVecs(a: seq<Bio>, b: seq<Bio>)
    requires |a| == |b| && forall i :: 0 <= i < |a| ==> a[i].vecs == b[i].vecs && a[i].sectors == b[i].sectors
    ensures AllVecs(a) == AllVecs(b) && Sectors(a) == Sectors(b)
    decreases |a|
  {
    if a != [] { SameVecs(a[1..], b[1..]); }
  }

  lemma {:induction false} ChainsConcat(q: Queue, a: seq<Bio>, n: nat, b: seq<Bio>, m: nat)
    requires ChainOk(q, a, n) && ChainOk(q, b, m)
    ensures ChainOk(q, a + b, n + m) && AllVecs(a + b) == AllVecs(a) + AllVecs(b)
  {
    AllVecsConcat(a, b);
    PromiseConcat(q, AllVecs(a), n, a[0].front, a[|a| - 1].back, AllVecs(b), m, b[0].front, b[|b| - 1].back);
  }

  function FrontSet(a: seq<Bio>, size: nat, yes: bool): seq<Bio>
    requires a != []
  {
    if yes then a[0 := a[0].(front := size)] else a
  }

  function BackSet(b: seq<Bio>, size: nat, yes: bool): seq<Bio>
    requires b != []
  {
    if yes then b[|b| - 1 := b[|b| - 1].(back := size)] else b
  }

  /** Both requests stay in order with the sizes updated ... */
  lemma {:induction false} FrontKeeps(q: Queue, a: seq<Bio>, n: nat, size: nat, a': seq<Bio>)
    requires ChainOk(q, a, n) && a[|a| - 1].back <= size && a' == FrontSet(a, size, n == 1)
    ensures ChainOk(q, a', n) && AllVecs(a') == AllVecs(a) && Sectors(a') == Sectors(a)
    ensures a'[0].front == if n == 1 then size else a[0].front
  {
    if n == 1 { FrontOverwritten(q, a, size); }
  }

  lemma {:induction false} BackKeeps(q: Queue, b: seq<Bio>, m: nat, size: nat, b': seq<Bio>)
    requires ChainOk(q, b, m) && b[0].front <= size && b' == BackSet(b, size, m == 1)
    ensures ChainOk(q, b', m) && AllVecs(b') == AllVecs(b) && Sectors(b') == Sectors(b)
    ensures b'[|b'| - 1].back == if m == 1 then size else b[|b| - 1].back
  {
    if m == 1 { BackOverwritten(q, b, size); }
  }

  lemma {:induction false} ChainFrom(q: Queue, a: seq<Bio>, b: seq<Bio>, nr: nat, u: seq<Vec>, v: seq<Vec>, front: nat, back: nat)
    requires Loaded(a) && Loaded(b) && u == AllVecs(a) && v == AllVecs(b)
    requires front == a[0].front && back == b[|b| - 1].back && Promise(q, u + v, nr, front, back)
    ensures ChainOk(q, a + b, nr)
  {
    var c := a + b;
    AllVecsConcat(a, b);
    assert c[0] == a[0] && c[|c| - 1] == b[|b| - 1];
    assert forall i :: 0 <= i < |c| ==> c[i].vecs != [];
  }

  /** ... and so does their concatenation, with one segment less. */
  lemma {:induction false} ContigMerge(q: Queue, a: seq<Bio>, n: nat, b: seq<Bio>, m: nat, size: nat, a': seq<Bio>, b': seq<Bio>)
    requires ChainOk(q, a, n) && ChainOk(q, b, m) && PhysContig(q, a[|a| - 1], b[0])
    requires size == a[|a| - 1].back + b[0].front
    requires a' == FrontSet(a, size, n == 1) && b' == BackSet(b, size, m == 1)
    ensures n + m >= 2 && ChainOk(q, a', n) && ChainOk(q, b', m) && ChainOk(q, a' + b', n + m - 1)
    ensures AllVecs(a') == AllVecs(a) && AllVecs(b') == AllVecs(b) && Sectors(a') == Sectors(a) && Sectors(b') == Sectors(b)
  {
    FrontKeeps(q, a, n, size, a');
    BackKeeps(q, b, m, size, b');
    ChainsJoin(q, a, n, b, m);
    ChainFrom(q, a', b', n + m - 1, AllVecs(a), AllVecs(b), if n == 1 then size else a[0].front,
              if m == 1 then size else b[|b| - 1].back);
  }

  /** ll_merge_requests_fn: may update cached sizes even when it refuses. */
  method MergeRequestsFn(q: Queue, req: Request, next: Request) returns (ok: bool)
    requires req != next && req.Valid(q) && next.Valid(q)
    modifies req`bios, req`nrPhysSegments, next`bios
    ensures Loaded(req.bios) && Loaded(next.bios) && next.Valid(q) && req.sectors == Sectors(req.bios)
    ensures AllVecs(req.bios) == old(AllVecs(req.bios)) && AllVecs(next.bios) == old(AllVecs(next.bios))
    ensures !ok ==> req.Valid(q) && req.nrPhysSegments == old(req.nrPhysSegments)
    ensures ok ==> && ChainOk(q, req.bios + next.bios, req.nrPhysSegments)
                   && req.nrPhysSegments <= q.maxSegments && req.sectors + next.sectors <= q.maxSectors
  {
    var tail := req.bios[|req.bios| - 1];
    var size := tail.back + next.bios[0].front;
    if req.special || next.special { return false; }
    if req.sectors + next.sectors > q.maxSectors { return false; }
    var total := req.nrPhysSegments + next.nrPhysSegments;
    if PhysContig(q, tail, next.bios[0]) {
      ContigMerge(q, req.bios, req.nrPhysSegments, next.bios, next.nrPhysSegments, size,
                  FrontSet(req.bios, size, req.nrPhysSegments == 1),
                  BackSet(next.bios, size, next.nrPhysSegments == 1));
      req.bios := FrontSet(req.bios, size, req.nrPhysSegments == 1);
      next.bios := BackSet(next.bios, size, next.nrPhysSegments == 1);
      total := total - 1;
    } else {
      ChainsConcat(q, req.bios, req.nrPhysSegments, next.bios, next.nrPhysSegments);
    }
    if total > q.maxSegments { return false; }
    req.nrPhysSegments := total;
    ok := true;
  }

  /** attempt_merge: on success the bios of `next` belong to `req`. */
  method AttemptMerge(q: Queue, req: Request, next: Request) returns (ok: bool)
    requires req != next && req.Valid(q) && next.Valid(q)
    modifies req, next
    ensures req.Valid(q)
    ensures ok ==> AllVecs(req.bios) == old(AllVecs(req.bios)) + old(AllVecs(next.bios)) && next.bios == []
    ensures ok ==> req.nrPhysSegments <= q.maxSegments && req.sectors <= q.maxSectors
    ensures ok ==> old(req.pos + req.sectors == next.pos)
    ensures !ok ==> next.Valid(q) && AllVecs(req.bios) == old(AllVecs(req.bios))
                    && AllVecs(next.bios) == old(AllVecs(next.bios)) && req.nrPhysSegments == old(req.nrPhysSegments)
  {
    if req.noMerge || next.noMerge { return false; }
    if req.attr != next.attr { return false; }
    if req.pos + req.sectors != next.pos { return false; }
    if next.special { return false; }
    ok := MergeRequestsFn(q, req, next);
    if !ok { return; }
    AllVecsConcat(req.bios, next.bios);
    SectorsConcat(req.bios, next.bios);
    req.bios := req.bios + next.bios;
    req.sectors := req.sectors + next.sectors;
    next.bios := [];
  }
}
