/**
 blk_update_request as the loop it is, proved against the meaning given in
 Completion (block/blk-core.c).
 */
module CompletionRequest {
  import opened Completion

  /** Having walked `k` vectors of `done` bytes in the front bio, with nr bytes
      still to complete, all of them inside that bio. */
  predicate Walked(vecs: seq<Piece>, k: nat, done: nat, nr: nat) {
    && k < |vecs| && Lens(vecs[k..]) == Lens(vecs) - done && done + nr < Lens(vecs)
    && (done + nr > 0 ==>
          Trim(vecs, done + nr) == Trim(vecs[k..], nr) && Passed(vecs, done + nr) == k + Passed(vecs[k..], nr))
  }

  lemma {:induction false} WalkStarts(vecs: seq<Piece>, nr: nat)
    requires nr < Lens(vecs)
    ensures Walked(vecs, 0, 0, nr)
  {
    assert vecs[0..] == vecs;
  }

  /** One whole vector further. */
  lemma {:induction false} WalkOn(vecs: seq<Piece>, k: nat, done: nat, nr: nat)
    requires Walked(vecs, k, done, nr) && vecs[k].len <= nr && nr > 0
    ensures Walked(vecs, k + 1, done + vecs[k].len, nr - vecs[k].len)
  {
    var v := vecs[k..];
    assert v[0] == vecs[k] && v[1..] == vecs[k + 1..];
    assert Lens(v[1..]) > 0;
  }

  /** The walk ends inside a vector. */
  lemma {:induction false} WalkEnds(vecs: seq<Piece>, k: nat, done: nat, nr: nat)
    requires Walked(vecs, k, done, nr) && done + nr > 0 && (vecs[k].len > nr || nr == 0)
    ensures nr <= vecs[k].len && Passed(vecs, done + nr) == k
    ensures Trim(vecs, done + nr) ==
            [Piece(vecs[k].page, vecs[k].offset + nr, vecs[k].len - nr)] + vecs[k + 1..]
  {
    var v := vecs[k..];
    assert v[0] == vecs[k] && v[1..] == vecs[k + 1..];
    if nr == 0 { assert v == [vecs[k]] + vecs[k + 1..]; }
  }

  /** A request as its caller sees it, with the calls of bio_endio so far. */
  datatype Progress = Progress(bios: seq<Bio>, dataLen: nat, sector: nat, ended: seq<Ended>)

  predicate ProgressOk(r: Progress) { BiosOk(r.bios) && r.dataLen == Sizes(r.bios) }

  /** How a request counts: with sectors (REQ_TYPE_FS or REQ_DISCARD), and
      silently (REQ_FLUSH_SEQ). */
  datatype Kind = Kind(tracksSector: bool, flushSeq: bool)

  /** Which of these ends reach bio_endio. */
  function Reported(kind: Kind, ends: seq<Ended>): seq<Ended> { if kind.flushSeq then [] else ends }

  /** The request after n bytes are done; one that is all done keeps its sector. */
  function Updated(r: Progress, n: nat, error: int, kind: Kind): (t: Progress)
    requires ProgressOk(r)
    ensures ProgressOk(t)
  {
    var rest := Rest(r.bios, n, error);
    var ended := r.ended + Reported(kind, Ends(r.bios, n, error));
    if rest == [] then Progress([], 0, r.sector, ended)
    else
      RestIsShorter(r.bios, n, error);
      Progress(rest, r.dataLen - n, r.sector + if kind.tracksSector then n / 512 else 0, ended)
  }

  /** Two completions leave the chain, the length and the reports of one exactly
      when the second is not an empty one that meets an empty bio.  Then they
      leave the sector of one exactly when it does not move, or the request is
      not all done: finishing it in one go leaves the sector where it was. */
  lemma {:induction false} UpdatesCompose(r: Progress, n: nat, k: nat, error: int, kind: Kind)
    requires ProgressOk(r) && Aligned(r.bios) && n < r.dataLen && n % 512 == 0
    ensures var one, two := Updated(r, n + k, error, kind), Updated(Updated(r, n, error, kind), k, error, kind);
            && (k > 0 || !EmptyHead(Updated(r, n, error, kind).bios) <==>
                  two.bios == one.bios && two.dataLen == one.dataLen && two.ended == one.ended)
            && (k > 0 || !EmptyHead(Updated(r, n, error, kind).bios) ==>
                  (two == one <==> one.bios != [] || !kind.tracksSector || n == 0))
  {
    var mid := Updated(r, n, error, kind);
    SomeLeft(r.bios, n, error);
    if k > 0 || !EmptyHead(mid.bios) {
      TwoIsOne(r.bios, n, k, error);
      ReportsInTurn(kind, r.ended, Ends(r.bios, n, error), Ends(mid.bios, k, error));
      assert n / 512 + k / 512 == (n + k) / 512;
    }
  }

  lemma {:induction false} SomeLeft(bios: seq<Bio>, n: nat, error: int)
    requires BiosOk(bios) && n < Sizes(bios)
    ensures Rest(bios, n, error) != []
  {
    RestBytes(bios, n, error);
    DataSize(bios);
  }

  lemma {:induction false} ReportsInTurn(kind: Kind, said: seq<Ended>, a: seq<Ended>, b: seq<Ended>)
    ensures said + Reported(kind, a) + Reported(kind, b) == said + Reported(kind, a + b)
  {
  }

  class Request {
    var bios: seq<Bio>
    var dataLen: nat
    var sector: nat
    var ended: seq<Ended>
    const kind: Kind

    ghost function View(): Progress
      reads this
    {
      Progress(bios, dataLen, sector, ended)
    }

    ghost predicate Valid()
      reads this
    {
      ProgressOk(View())
    }

    constructor (bios: seq<Bio>, sector: nat, kind: Kind)
      requires BiosOk(bios)
      ensures Valid() && this.bios == bios && this.sector == sector && this.kind == kind && ended == []
    {
      this.bios, this.sector, this.ended, this.kind := bios, sector, [], kind;
      dataLen := Sizes(bios);
    }

    /** req_bio_endio */
    method ReqBioEndio(b: Bio, nbytes: nat, error: int) returns (r: Bio)
      modifies this`ended
      ensures var n := if nbytes > b.size then b.size else nbytes;
              && r == b.(size := b.size - n, sector := b.sector + n / 512, uptodate := b.uptodate && error == 0)
              && ended == if r.size == 0 && !kind.flushSeq then old(ended) + [Verdict(b, error)] else old(ended)
    {
      r := b;
      var e, n := error, nbytes;
      if error != 0 {
        r := r.(uptodate := false);
      } else if !r.uptodate {
        e := -EIO;
      }
      if n > r.size { n := r.size; }
      r := r.(size := r.size - n, sector := r.sector + n / 512);
      if r.size == 0 && !kind.flushSeq {
        ended := ended + [Ended(r.id, e)];
      }
    }

    /** The tail of blk_update_request for a bio that is only partly done. */
    method Shorten(k: nat, done: nat, nr: nat, error: int)
      requires bios != [] && bios[0].size == Lens(bios[0].vecs) && done + nr > 0
      requires Walked(bios[0].vecs, k, done, nr) && (bios[0].vecs[k].len > nr || nr == 0)
      modifies this`bios, this`ended
      ensures bios == [Cut(old(bios)[0], done + nr, error)] + old(bios)[1..] && ended == old(ended)
    {
      var b := bios[0];
      WalkEnds(b.vecs, k, done, nr);
      var v := b.vecs[k];
      var r := ReqBioEndio(b, done + nr, error);
      r := r.(idx := r.idx + k, vecs := [Piece(v.page, v.offset + nr, v.len - nr)] + b.vecs[k + 1..]);
      bios := [r] + bios[1..];
    }

    /** The front bio is exhausted. */
    method EndFront(error: int)
      requires bios != []
      modifies this`bios, this`ended
      ensures bios == old(bios)[1..] && ended == old(ended) + Reported(kind, [Verdict(old(bios)[0], error)])
    {
      var bio := bios[0];
      bios := bios[1..];
      var _ := ReqBioEndio(bio, bio.size, error);
    }

    /** Completing m bytes of what is left leads to this chain and these ends. */
    ghost predicate Comes(goal: seq<Bio>, said: seq<Ended>, m: nat, error: int)
      reads this
    {
      BiosOk(bios) && Rest(bios, m, error) == goal && ended + Reported(kind, Ends(bios, m, error)) == said
    }

    ghost predicate Came(goal: seq<Bio>, said: seq<Ended>)
      reads this
    {
      bios == goal && ended == said
    }

    /** Nothing is left, or nothing is left to do. */
    lemma {:induction false} Settled(goal: seq<Bio>, said: seq<Ended>, m: nat, error: int)
      requires Comes(goal, said, m, error) && (bios == [] || (m == 0 && bios[0].size > 0))
      ensures Came(goal, said)
    {
      if bios != [] { RestZero(bios, error); }
      assert ended + Reported(kind, []) == ended;
    }

    /** The front bio has come k vectors and `done` bytes, nr bytes are to do. */
    ghost predicate At(goal: seq<Bio>, said: seq<Ended>, k: nat, done: nat, nr: nat, error: int)
      reads this
    {
      && Comes(goal, said, done + nr, error)
      && (done + k > 0 ==> bios != [] && nr > 0 && Walked(bios[0].vecs, k, done, nr))
    }

    /** The call ends here: with nr bytes of a vector done, or at a boundary. */
    ghost predicate Stop(goal: seq<Bio>, said: seq<Ended>, k: nat, done: nat, nr: nat, error: int)
      reads this
    {
      if done == 0 then Came(goal, said)
      else && bios != [] && nr <= done && Comes(goal, said, done, error)
           && Walked(bios[0].vecs, k, done - nr, nr) && (bios[0].vecs[k].len > nr || nr == 0)
    }

    lemma {:induction false} AtWalks(goal: seq<Bio>, said: seq<Ended>, k: nat, done: nat, nr: nat, error: int)
      requires At(goal, said, k, done, nr, error) && bios != [] && nr < bios[0].size
      ensures Walked(bios[0].vecs, k, done, nr) && bios[0].vecs[k].len <= bios[0].size
    {
      if done + k == 0 { WalkStarts(bios[0].vecs, nr); }
      assert bios[0].vecs[k..][0] == bios[0].vecs[k];
    }

    /** The vector is longer than what is left to do. */
    lemma {:induction false} StopsInside(goal: seq<Bio>, said: seq<Ended>, k: nat, done: nat, nr: nat, error: int)
      requires At(goal, said, k, done, nr, error) && bios != [] && Walked(bios[0].vecs, k, done, nr)
      requires bios[0].vecs[k].len > nr
      ensures Stop(goal, said, k, done + nr, nr, error)
    {
      if done + nr == 0 { Settled(goal, said, 0, error); }
    }

    /** The vector is done as a whole. */
    lemma {:induction false} VectorDone(goal: seq<Bio>, said: seq<Ended>, k: nat, done: nat, nr: nat, error: int)
      requires At(goal, said, k, done, nr, error) && bios != [] && Walked(bios[0].vecs, k, done, nr)
      requires bios[0].vecs[k].len <= nr
      ensures var len := bios[0].vecs[k].len;
              if len < nr then At(goal, said, k + 1, done + len, nr - len, error)
              else Stop(goal, said, k + 1, done + len, 0, error)
    {
      if nr == 0 { Settled(goal, said, 0, error); } else { WalkOn(bios[0].vecs, k, done, nr); }
    }

    lemma {:induction false} FullIsFresh(goal: seq<Bio>, said: seq<Ended>, k: nat, done: nat, nr: nat, error: int)
      requires At(goal, said, k, done, nr, error) && bios != [] && bios[0].size <= nr
      ensures done + k == 0
    {
    }

    /** One bio exhausted, with nr bytes to complete before. */
    method FullStep(error: int, nr: nat, ghost goal: seq<Bio>, ghost said: seq<Ended>)
      requires bios != [] && bios[0].size <= nr && At(goal, said, 0, 0, nr, error)
      modifies this`bios, this`ended
      ensures bios == old(bios)[1..]
      ensures nr > old(bios)[0].size || bios == [] ==> At(goal, said, 0, 0, nr - old(bios)[0].size, error)
      ensures nr == old(bios)[0].size ==> Stop(goal, said, 0, 0, 0, error)
    {
      RestFull(bios, nr, error);
      if nr > bios[0].size {
        ReportsInTurn(kind, ended, [Verdict(bios[0], error)], Ends(bios[1..], nr - bios[0].size, error));
      }
      EndFront(error);
      if bios == [] { ReportsInTurn(kind, ended, [], []); }
    }

    /** The next vector of a bio that is not exhausted. */
    method VectorStep(k: nat, done: nat, nr: nat, error: int, ghost goal: seq<Bio>, ghost said: seq<Ended>)
      returns (k': nat, done': nat, nr': nat, stop: bool)
      requires At(goal, said, k, done, nr, error) && bios != [] && nr < bios[0].size
      ensures if stop then Stop(goal, said, k', done', nr', error)
              else At(goal, said, k', done', nr', error) && k' == k + 1 < |bios[0].vecs|
    {
      AtWalks(goal, said, k, done, nr, error);
      assert k < |bios[0].vecs|;
      var nbytes := bios[0].vecs[k].len;
      assert nbytes <= bios[0].size;
      if nbytes > nr {
        StopsInside(goal, said, k, done, nr, error);
        return k, done + nr, nr, true;
      }
      VectorDone(goal, said, k, done, nr, error);
      k', done', nr', stop := k + 1, done + nbytes, nr - nbytes, nr == nbytes;
    }

    /** The loop of blk_update_request: how far the front bio has come. */
    method Advance(error: int, nrBytes: nat, ghost goal: seq<Bio>, ghost said: seq<Ended>) returns (k: nat, done: nat, nr: nat)
      requires bios != [] && At(goal, said, 0, 0, nrBytes, error)
      modifies this`bios, this`ended
      ensures Stop(goal, said, k, done, nr, error)
    {
      k, done, nr := 0, 0, nrBytes;
      while bios != []
        invariant At(goal, said, k, done, nr, error)
        decreases |bios|, if bios != [] then |bios[0].vecs| - k else 0
      {
        if nr >= bios[0].size {
          var nbytes := bios[0].size;
          FullIsFresh(goal, said, k, done, nr, error);
          FullStep(error, nr, goal, said);
          k, done, nr := 0, 0, nr - nbytes;
          if bios != [] && nr == 0 { return; }
        } else {
          var stop;
          k, done, nr, stop := VectorStep(k, done, nr, error, goal, said);
          if stop { return; }
        }
      }
      Settled(goal, said, done + nr, error);
    }

    /** The loop and the update of the bio it stopped in. */
    method UpdateChain(error: int, nrBytes: nat)
      requires BiosOk(bios) && bios != []
      modifies this`bios, this`ended
      ensures Came(Rest(old(bios), nrBytes, error), old(ended) + Reported(kind, Ends(old(bios), nrBytes, error)))
    {
      ghost var goal, said := Rest(bios, nrBytes, error), ended + Reported(kind, Ends(bios, nrBytes, error));
      var k, done, nr := Advance(error, nrBytes, goal, said);
      if done > 0 {
        CutHere(bios, done, error);
        assert ended + Reported(kind, []) == ended;
        Shorten(k, done - nr, nr, error);
      }
    }

    /** blk_update_request */
    method UpdateRequest(error: int, nrBytes: nat) returns (more: bool)
      requires Valid()
      modifies this
      ensures Valid() && (more <==> bios != [])
      ensures View() == Updated(old(View()), nrBytes, error, kind)
      ensures bios == Rest(old(bios), nrBytes, error)
      ensures ended == old(ended) + Reported(kind, Ends(old(bios), nrBytes, error))
      ensures more ==> dataLen == old(dataLen) - nrBytes
      ensures sector == old(sector) + if more && kind.tracksSector then nrBytes / 512 else 0
    {
      if bios == [] {
        assert ended + Reported(kind, []) == ended;
        return false;
      }
      ghost var all := bios;
      UpdateChain(error, nrBytes);
      if bios == [] {
        dataLen := 0;
        return false;
      }
      RestIsShorter(all, nrBytes, error);
      dataLen := dataLen - nrBytes;
      if kind.tracksSector { sector := sector + nrBytes / 512; }
      FrontFits(bios);
      assert bios[0].vecs != [] ==> dataLen >= bios[0].vecs[0].len;
      more := true;
    }
  }

  lemma {:induction false} CutHere(bios: seq<Bio>, n: nat, error: int)
    requires BiosOk(bios) && bios != [] && n < Lens(bios[0].vecs)
    ensures Rest(bios, n, error) == [Cut(bios[0], n, error)] + bios[1..] && Ends(bios, n, error) == []
  {
    assert bios[0].size == Lens(bios[0].vecs);
  }

  lemma {:induction false} FrontFits(bios: seq<Bio>)
    requires BiosOk(bios) && bios != []
    ensures bios[0].vecs != [] ==> bios[0].vecs[0].len <= Sizes(bios)
  {
    assert bios[0].size == Lens(bios[0].vecs);
  }

  lemma {:induction false} RestIsShorter(bios: seq<Bio>, n: nat, error: int)
    requires BiosOk(bios) && Rest(bios, n, error) != []
    ensures BiosOk(Rest(bios, n, error)) && n <= Sizes(bios) && Sizes(Rest(bios, n, error)) == Sizes(bios) - n
  {
    RestNeedsRoom(bios, n, error);
    RestBytes(bios, n, error);
    DataSize(bios);
    DataSize(Rest(bios, n, error));
  }

  lemma {:induction false} RestNeedsRoom(bios: seq<Bio>, n: nat, error: int)
    requires BiosOk(bios) && Rest(bios, n, error) != []
    ensures n <= Sizes(bios)
  {
    if n > bios[0].size {
      assert BiosOk(bios[1..]);
      RestNeedsRoom(bios[1..], n - bios[0].size, error);
    }
  }
}
