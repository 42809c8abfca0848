/**
 Partial completion of a request (block/blk-core.c: blk_update_request and
 req_bio_endio).  Completing n bytes drops exactly the first n bytes of the
 request's data, ends the bios it exhausts once and in order, and completing in
 two goes leaves what completing in one leaves.
 */
module Completion {

  /** A bio_vec of a bio. */
  datatype Piece = Piece(page: nat, offset: nat, len: nat)

  /** A bio; `vecs` are its vectors from bi_idx on, `size` is bi_size. */
  datatype Bio = Bio(id: nat, size: nat, sector: nat, idx: nat, vecs: seq<Piece>, uptodate: bool)

  /** A call of bio_endio. */
  datatype Ended = Ended(id: nat, error: int)

  const EIO := 5

  function Lens(vecs: seq<Piece>): nat { if vecs == [] then 0 else vecs[0].len + Lens(vecs[1..]) }

  function Sizes(bios: seq<Bio>): nat { if bios == [] then 0 else bios[0].size + Sizes(bios[1..]) }

  /** bi_size is what the remaining vectors hold. */
  predicate BiosOk(bios: seq<Bio>) { forall i :: 0 <= i < |bios| ==> bios[i].size == Lens(bios[i].vecs) }

  // ---- What completing n bytes means

  /** The vectors left when n bytes are done: whole vectors go, the next one is
      trimmed; a vector reached with nothing left to complete stays. */
  function Trim(vecs: seq<Piece>, n: nat): seq<Piece>
    requires n < Lens(vecs)
  {
    if n == 0 then vecs
    else if vecs[0].len > n then [Piece(vecs[0].page, vecs[0].offset + n, vecs[0].len - n)] + vecs[1..]
    else Trim(vecs[1..], n - vecs[0].len)
  }

  /** How many whole vectors go. */
  function Passed(vecs: seq<Piece>, n: nat): nat
    requires n < Lens(vecs)
  {
    if n == 0 || vecs[0].len > n then 0 else 1 + Passed(vecs[1..], n - vecs[0].len)
  }

  function Cut(b: Bio, n: nat, error: int): Bio
    requires n < b.size == Lens(b.vecs)
  {
    if n == 0 then b
    else Bio(b.id, b.size - n, b.sector + n / 512, b.idx + Passed(b.vecs, n), Trim(b.vecs, n), b.uptodate && error == 0)
  }

  /** The error a bio ends with. */
  function Verdict(b: Bio, error: int): Ended {
    Ended(b.id, if error != 0 then error else if b.uptodate then 0 else -EIO)
  }

  /** The chain left when n bytes are done; a bio that leaves the chain because
      it is exhausted ends the call if nothing is left to complete. */
  function Rest(bios: seq<Bio>, n: nat, error: int): seq<Bio>
    requires BiosOk(bios)
  {
    if bios == [] then []
    else if n < bios[0].size then [Cut(bios[0], n, error)] + bios[1..]
    else if n == bios[0].size then bios[1..]
    else Rest(bios[1..], n - bios[0].size, error)
  }

  /** The bios that end, in order. */
  function Ends(bios: seq<Bio>, n: nat, error: int): seq<Ended>
    requires BiosOk(bios)
  {
    if bios == [] || n < bios[0].size then []
    else if n == bios[0].size then [Verdict(bios[0], error)]
    else [Verdict(bios[0], error)] + Ends(bios[1..], n - bios[0].size, error)
  }

  // ---- Bytes

  datatype Byte = Byte(page: nat, at: nat)

  function PieceBytes(p: Piece): (r: seq<Byte>)
    ensures |r| == p.len
  {
    seq(p.len, i requires 0 <= i => Byte(p.page, p.offset + i))
  }

  function VecBytes(vecs: seq<Piece>): (r: seq<Byte>)
    ensures |r| == Lens(vecs)
  {
    if vecs == [] then [] else PieceBytes(vecs[0]) + VecBytes(vecs[1..])
  }

  /** The data of a chain, byte by byte. */
  function Data(bios: seq<Bio>): seq<Byte> { if bios == [] then [] else VecBytes(bios[0].vecs) + Data(bios[1..]) }

  lemma {:induction false} DataSize(bios: seq<Bio>)
    requires BiosOk(bios)
    ensures |Data(bios)| == Sizes(bios)
  {
    if bios != [] { DataSize(bios[1..]); }
  }

  lemma {:induction false} TrimBytes(vecs: seq<Piece>, n: nat)
    requires n < Lens(vecs)
    ensures VecBytes(Trim(vecs, n)) == VecBytes(vecs)[n..] && Lens(Trim(vecs, n)) == Lens(vecs) - n
  {
    if n > 0 {
      var v, rest := vecs[0], vecs[1..];
      if v.len > n {
        var p := Piece(v.page, v.offset + n, v.len - n);
        var r := Trim(vecs, n);
        assert r[0] == p && r[1..] == rest;
        assert PieceBytes(p) == PieceBytes(v)[n..];
        assert VecBytes(vecs)[n..] == PieceBytes(v)[n..] + VecBytes(rest);
      } else {
        TrimBytes(rest, n - v.len);
        assert VecBytes(vecs)[n..] == VecBytes(rest)[n - v.len..];
      }
    }
  }

  /** Completing n bytes drops exactly the first n bytes of the data. */
  lemma {:induction false} RestBytes(bios: seq<Bio>, n: nat, error: int)
    requires BiosOk(bios) && n <= Sizes(bios)
    ensures BiosOk(Rest(bios, n, error)) && n <= |Data(bios)|
    ensures Data(Rest(bios, n, error)) == Data(bios)[n..]
  {
    DataSize(bios);
    if bios != [] {
      var b, tail := bios[0], bios[1..];
      assert BiosOk(tail);
      if n < b.size {
        CutBytes(bios, n, error);
      } else if n == b.size {
        assert Data(bios)[n..] == Data(tail);
      } else {
        RestBytes(tail, n - b.size, error);
        DropBytes(VecBytes(b.vecs), Data(tail), n);
      }
    }
  }

  lemma {:induction false} DropBytes(a: seq<Byte>, b: seq<Byte>, n: nat)
    requires |a| <= n <= |a| + |b|
    ensures (a + b)[n..] == b[n - |a|..]
  {
  }

  lemma {:induction false} CutBytes(bios: seq<Bio>, n: nat, error: int)
    requires BiosOk(bios) && bios != [] && n < bios[0].size
    ensures n <= |Data(bios)| && BiosOk(Rest(bios, n, error))
    ensures Data(Rest(bios, n, error)) == Data(bios)[n..]
  {
    var b, tail := bios[0], bios[1..];
    TrimBytes(b.vecs, n);
    FrontData(Cut(b, n, error), tail);
    KeepBytes(VecBytes(b.vecs), Data(tail), n);
  }

  lemma {:induction false} FrontData(b: Bio, tail: seq<Bio>)
    ensures Data([b] + tail) == VecBytes(b.vecs) + Data(tail)
  {
    assert ([b] + tail)[1..] == tail;
  }

  lemma {:induction false} KeepBytes(a: seq<Byte>, b: seq<Byte>, n: nat)
    requires n <= |a|
    ensures (a + b)[n..] == a[n..] + b
  {
  }

  /** One bio exhausted. */
  lemma {:induction false} RestFull(bios: seq<Bio>, m: nat, error: int)
    requires BiosOk(bios) && bios != [] && m >= bios[0].size
    ensures BiosOk(bios[1..])
    ensures m == bios[0].size ==> Rest(bios, m, error) == bios[1..] && Ends(bios, m, error) == [Verdict(bios[0], error)]
    ensures m > bios[0].size ==>
              && Rest(bios, m, error) == Rest(bios[1..], m - bios[0].size, error)
              && Ends(bios, m, error) == [Verdict(bios[0], error)] + Ends(bios[1..], m - bios[0].size, error)
  {
  }

  // ---- Order

  function Ids(bios: seq<Bio>): seq<nat> { if bios == [] then [] else [bios[0].id] + Ids(bios[1..]) }

  function EndedIds(ends: seq<Ended>): seq<nat> { if ends == [] then [] else [ends[0].id] + EndedIds(ends[1..]) }

  /** The bios that ended and those that remain, in this order, are the bios
      there were: each ends once, in order, and none is lost. */
  lemma {:induction false} EndsInOrder(bios: seq<Bio>, n: nat, error: int)
    requires BiosOk(bios)
    ensures EndedIds(Ends(bios, n, error)) + Ids(Rest(bios, n, error)) == Ids(bios)
  {
    if bios != [] {
      var b, tail := bios[0], bios[1..];
      var ends, rest := Ends(bios, n, error), Rest(bios, n, error);
      assert BiosOk(tail);
      if n < b.size {
        assert rest[0].id == b.id && rest[1..] == tail;
        assert EndedIds(ends) == [];
      } else if n == b.size {
        assert ends[1..] == [] && EndedIds(ends) == [b.id];
      } else {
        EndsInOrder(tail, n - b.size, error);
        assert ends[0].id == b.id && ends[1..] == Ends(tail, n - b.size, error);
        assert EndedIds(ends) == [b.id] + EndedIds(ends[1..]);
        assert [b.id] + EndedIds(ends[1..]) + Ids(rest) == [b.id] + (EndedIds(ends[1..]) + Ids(rest));
      }
    }
  }

  // ---- Two completions

  lemma {:induction false} TrimTwice(vecs: seq<Piece>, n: nat, k: nat)
    requires n + k < Lens(vecs)
    ensures k < Lens(Trim(vecs, n))
    ensures Trim(Trim(vecs, n), k) == Trim(vecs, n + k)
    ensures Passed(vecs, n) + Passed(Trim(vecs, n), k) == Passed(vecs, n + k)
  {
    TrimBytes(vecs, n);
    if n > 0 {
      var v, rest := vecs[0], vecs[1..];
      if v.len > n {
        var t := Trim(vecs, n);
        assert t[0].len == v.len - n && t[1..] == rest;
      } else {
        TrimTwice(rest, n - v.len, k);
        if n == v.len { assert Trim(rest, 0) == rest; }
      }
    }
  }

  lemma {:induction false} CutTwice(b: Bio, n: nat, k: nat, error: int)
    requires b.size == Lens(b.vecs) && n + k < b.size && n % 512 == 0
    ensures k < Cut(b, n, error).size == Lens(Cut(b, n, error).vecs)
    ensures Cut(Cut(b, n, error), k, error) == Cut(b, n + k, error)
  {
    TrimBytes(b.vecs, n);
    TrimTwice(b.vecs, n, k);
    assert n / 512 + k / 512 == (n + k) / 512;
  }

  /** Whether the next bio is one that a completion of zero bytes would end. */
  predicate EmptyHead(bios: seq<Bio>) { bios != [] && bios[0].size == 0 }

  predicate Aligned(bios: seq<Bio>) { forall i :: 0 <= i < |bios| ==> bios[i].size % 512 == 0 }

  lemma {:induction false} RestZero(bios: seq<Bio>, error: int)
    requires BiosOk(bios) && !EmptyHead(bios)
    ensures Rest(bios, 0, error) == bios && Ends(bios, 0, error) == []
  {
    if bios != [] { assert bios == [bios[0]] + bios[1..]; }
  }

  /** The chain after completing n and then k bytes is the chain after completing
      n + k bytes at once, and so are the calls of bio_endio, exactly when the
      second completion is not an empty one that meets an empty bio. */
  lemma {:induction false} CompletionsCompose(bios: seq<Bio>, n: nat, k: nat, error: int)
    requires BiosOk(bios) && n < Sizes(bios) && n % 512 == 0
    requires Aligned(bios)
    ensures BiosOk(Rest(bios, n, error))
    ensures var r := Rest(bios, n, error);
            (k > 0 || !EmptyHead(r)) <==>
              Rest(r, k, error) == Rest(bios, n + k, error) && Ends(bios, n, error) + Ends(r, k, error) == Ends(bios, n + k, error)
  {
    RestBytes(bios, n, error);
    if k > 0 || !EmptyHead(Rest(bios, n, error)) { TwoIsOne(bios, n, k, error); }
  }

  /** A chain with an empty bio in the middle: a completion of 512 bytes and then
      of none ends the empty bio as well, one completion of 512 bytes does not. */
  lemma {:induction false} EmptyBioTellsApart(p: Piece, error: int)
    requires p.len == 512
    ensures var bios := [Bio(0, 512, 0, 0, [p], true), Bio(1, 0, 1, 0, [], true), Bio(2, 512, 1, 0, [p], true)];
            && BiosOk(bios)
            && |Rest(bios, 512, error)| == 2 && Ends(bios, 512, error) == [Ended(0, error)]
            && BiosOk(Rest(bios, 512, error))
            && |Rest(Rest(bios, 512, error), 0, error)| == 1
            && Ends(Rest(bios, 512, error), 0, error) == [Ended(1, error)]
  {
    assert [p][1..] == [];
    var bios := [Bio(0, 512, 0, 0, [p], true), Bio(1, 0, 1, 0, [], true), Bio(2, 512, 1, 0, [p], true)];
    assert bios[1..][0] == bios[1];
  }

  predicate NoneEmpty(bios: seq<Bio>) { forall i :: 0 <= i < |bios| ==> bios[i].size > 0 }

  /** With no empty bio in the chain, two completions are always one. */
  lemma {:induction false} NoneEmptyComposes(bios: seq<Bio>, n: nat, k: nat, error: int)
    requires BiosOk(bios) && n < Sizes(bios) && n % 512 == 0
    requires Aligned(bios) && NoneEmpty(bios)
    ensures BiosOk(Rest(bios, n, error))
    ensures Rest(Rest(bios, n, error), k, error) == Rest(bios, n + k, error)
    ensures Ends(bios, n, error) + Ends(Rest(bios, n, error), k, error) == Ends(bios, n + k, error)
  {
    RestNoneEmpty(bios, n, error);
    TwoIsOne(bios, n, k, error);
  }

  lemma {:induction false} RestNoneEmpty(bios: seq<Bio>, n: nat, error: int)
    requires BiosOk(bios) && NoneEmpty(bios)
    ensures NoneEmpty(Rest(bios, n, error))
  {
    if bios != [] && n > bios[0].size { RestNoneEmpty(bios[1..], n - bios[0].size, error); }
  }

  lemma {:induction false} TwoIsOne(bios: seq<Bio>, n: nat, k: nat, error: int)
    requires BiosOk(bios) && n < Sizes(bios) && n % 512 == 0
    requires k > 0 || !EmptyHead(Rest(bios, n, error))
    requires Aligned(bios)
    ensures BiosOk(Rest(bios, n, error))
    ensures Rest(Rest(bios, n, error), k, error) == Rest(bios, n + k, error)
    ensures Ends(bios, n, error) + Ends(Rest(bios, n, error), k, error) == Ends(bios, n + k, error)
  {
    RestBytes(bios, n, error);
    var b, tail := bios[0], bios[1..];
    if n < b.size {
      CutFirst(bios, n, k, error);
    } else {
      RestFull(bios, n, error);
      RestFull(bios, n + k, error);
      if n == b.size {
        if k == 0 { RestZero(tail, error); }
      } else {
        assert Aligned(tail) && b.size % 512 == 0;
        Multiples(n, b.size);
        TwoIsOne(tail, n - b.size, k, error);
        SamePrefix([Verdict(b, error)], Ends(tail, n - b.size, error), Ends(Rest(tail, n - b.size, error), k, error));
      }
    }
  }

  lemma {:induction false} SamePrefix(a: seq<Ended>, b: seq<Ended>, c: seq<Ended>)
    ensures a + b + c == a + (b + c)
  {
  }

  lemma {:induction false} Multiples(a: nat, b: nat)
    requires a >= b && a % 512 == 0 && b % 512 == 0
    ensures (a - b) % 512 == 0
  {
  }

  lemma {:induction false} CutFirst(bios: seq<Bio>, n: nat, k: nat, error: int)
    requires BiosOk(bios) && bios != [] && n < bios[0].size && n % 512 == 0 && BiosOk(Rest(bios, n, error))
    ensures Rest(Rest(bios, n, error), k, error) == Rest(bios, n + k, error)
    ensures Ends(bios, n, error) + Ends(Rest(bios, n, error), k, error) == Ends(bios, n + k, error)
  {
    var b, tail := bios[0], bios[1..];
    var r := Rest(bios, n, error);
    assert r[0] == Cut(b, n, error) && r[1..] == tail;
    assert Verdict(r[0], error) == Verdict(b, error);
    if n + k < b.size {
      CutTwice(b, n, k, error);
    }
  }

  // ---- Sectors

  /** Each bio starts on disk where the one before it ends. */
  predicate Contiguous(bios: seq<Bio>) {
    forall i :: 0 <= i < |bios| - 1 ==> bios[i + 1].sector == bios[i].sector + bios[i].size / 512
  }

  /** The sector the request moves to is the sector of the bio now in front. */
  lemma {:induction false} SectorInStep(bios: seq<Bio>, n: nat, error: int)
    requires BiosOk(bios) && Aligned(bios) && Contiguous(bios) && n % 512 == 0 && Rest(bios, n, error) != []
    ensures Rest(bios, n, error)[0].sector == bios[0].sector + n / 512
    ensures Contiguous(Rest(bios, n, error)) && Aligned(Rest(bios, n, error))
  {
    var b, tail, r := bios[0], bios[1..], Rest(bios, n, error);
    assert forall i :: 0 <= i < |tail| ==> tail[i] == bios[i + 1];
    if n < b.size {
      CutInStep(b, n, error);
      FrontReplaced(bios, Cut(b, n, error));
    } else if n > b.size {
      Multiples(n, b.size);
      assert BiosOk(tail) && Aligned(tail) && Contiguous(tail);
      SectorInStep(tail, n - b.size, error);
      AddSectors(b.size, n - b.size);
    }
  }

  lemma {:induction false} FrontReplaced(bios: seq<Bio>, c: Bio)
    requires Aligned(bios) && Contiguous(bios) && bios != [] && c.size % 512 == 0
    requires c.sector + c.size / 512 == bios[0].sector + bios[0].size / 512
    ensures Contiguous([c] + bios[1..]) && Aligned([c] + bios[1..])
  {
    var r := [c] + bios[1..];
    assert forall i :: 1 <= i < |r| ==> r[i] == bios[i];
  }

  lemma {:induction false} CutInStep(b: Bio, n: nat, error: int)
    requires n < b.size == Lens(b.vecs) && n % 512 == 0 && b.size % 512 == 0
    ensures var c := Cut(b, n, error);
            c.sector == b.sector + n / 512 && c.size % 512 == 0 && c.sector + c.size / 512 == b.sector + b.size / 512
  {
    Multiples(b.size, n);
    AddSectors(n, b.size - n);
  }

  /** Sector counts add up exactly when no bytes carry over. */
  lemma {:induction false} AddSectors(a: nat, b: nat)
    ensures a / 512 + b / 512 == (a + b) / 512 <==> a % 512 + b % 512 < 512
  {
  }
}
