/**
 Messages stored in chunks of at most a page (ipc/msgutil.c): loading a byte
 string and storing any part of it back gives exactly that part.
 */
module MsgStore {

  type Bytes = seq<bv8>

  /** Room for data in the first chunk and in each later one: a page less the
      header. */
  datatype Room = Room(first: nat, later: nat)

  predicate RoomOk(r: Room) { r.first > 0 && r.later > 0 }

  function Flat(chunks: seq<Bytes>): Bytes { if chunks == [] then [] else chunks[0] + Flat(chunks[1..]) }

  /** Every chunk but the last is full, and no later chunk is empty. */
  predicate Packed(chunks: seq<Bytes>, r: Room) {
    && chunks != [] && |chunks[0]| <= r.first
    && (forall i :: 1 <= i < |chunks| ==> 0 < |chunks[i]| <= r.later)
    && (|chunks| > 1 ==> |chunks[0]| == r.first)
    && (forall i :: 1 <= i < |chunks| - 1 ==> |chunks[i]| == r.later)
  }

  lemma {:induction false} FlatSnoc(chunks: seq<Bytes>, c: Bytes)
    ensures Flat(chunks + [c]) == Flat(chunks) + c
  {
    if chunks == [] {
      assert [c][1..] == [] && chunks + [c] == [c];
    } else {
      assert (chunks + [c])[1..] == chunks[1..] + [c];
      FlatSnoc(chunks[1..], c);
      assert chunks[0] + (Flat(chunks[1..]) + c) == chunks[0] + Flat(chunks[1..]) + c;
    }
  }

  /** load_msg */
  method LoadMsg(src: Bytes, r: Room) returns (chunks: seq<Bytes>)
    requires RoomOk(r)
    ensures Packed(chunks, r) && Flat(chunks) == src
  {
    var alen := if |src| > r.first then r.first else |src|;
    chunks := [src[..alen]];
    assert chunks[1..] == [] && Flat(chunks) == src[..alen];
    var at := alen;
    while at < |src|
      invariant alen <= at <= |src| && Packed(chunks, r) && Flat(chunks) == src[..at]
      invariant at < |src| ==> |chunks[0]| == r.first && forall i :: 1 <= i < |chunks| ==> |chunks[i]| == r.later
      decreases |src| - at
    {
      var n := if |src| - at > r.later then r.later else |src| - at;
      FlatSnoc(chunks, src[at..at + n]);
      assert src[..at] + src[at..at + n] == src[..at + n];
      chunks := chunks + [src[at..at + n]];
      at := at + n;
    }
    assert src[..at] == src;
  }

  lemma {:induction false} FlatFrom(chunks: seq<Bytes>, i: nat)
    requires i < |chunks|
    ensures Flat(chunks[i..]) == chunks[i] + Flat(chunks[i + 1..])
  {
    assert chunks[i..][0] == chunks[i] && chunks[i..][1..] == chunks[i + 1..];
  }

  /** As many of the first len bytes as one chunk holds. */
  lemma {:induction false} TakesChunk(c: Bytes, rest: Bytes, len: nat)
    requires len <= |c| + |rest|
    ensures if len <= |c| then (c + rest)[..len] == c[..len] else (c + rest)[..len] == c + rest[..len - |c|]
  {
  }

  /** What is still to be copied, once chunk i has given its share. */
  lemma {:induction false} GivesShare(chunks: seq<Bytes>, i: nat, left: nat, room: nat, alen: nat)
    requires i < |chunks| && left <= |Flat(chunks[i..])| && |chunks[i]| <= room
    requires i + 1 < |chunks| ==> |chunks[i]| == room
    requires alen == if left > room then room else left
    ensures alen <= |chunks[i]| && left - alen <= |Flat(chunks[i + 1..])|
    ensures Flat(chunks[i..])[..left] == chunks[i][..alen] + Flat(chunks[i + 1..])[..left - alen]
  {
    FlatFrom(chunks, i);
    TakesChunk(chunks[i], Flat(chunks[i + 1..]), left);
    if i + 1 == |chunks| { assert chunks[i + 1..] == []; }
  }

  /** store_msg: the caller never asks for more than the message holds. */
  method StoreMsg(chunks: seq<Bytes>, r: Room, len: nat) returns (dest: Bytes)
    requires RoomOk(r) && Packed(chunks, r) && len <= |Flat(chunks)|
    ensures dest == Flat(chunks)[..len]
  {
    var alen := if len > r.first then r.first else len;
    assert chunks[0..] == chunks;
    GivesShare(chunks, 0, len, r.first, alen);
    dest := chunks[0][..alen];
    var left, seg := len - alen, 1;
    while left > 0
      invariant 1 <= seg <= |chunks| && 0 <= left <= |Flat(chunks[seg..])|
      invariant Flat(chunks)[..len] == dest + Flat(chunks[seg..])[..left]
      decreases left
    {
      assert seg < |chunks|;
      alen := if left > r.later then r.later else left;
      GivesShare(chunks, seg, left, r.later, alen);
      Appended(dest, chunks[seg][..alen], Flat(chunks[seg + 1..])[..left - alen]);
      dest := dest + chunks[seg][..alen];
      left := left - alen;
      seg := seg + 1;
    }
  }

  lemma {:induction false} Appended(a: Bytes, b: Bytes, c: Bytes)
    ensures a + (b + c) == a + b + c
  {
  }

  /** Loading a message and storing its first k bytes gives exactly those. */
  method RoundTrip(src: Bytes, r: Room, k: nat) returns (dest: Bytes)
    requires RoomOk(r) && k <= |src|
    ensures dest == src[..k]
  {
    var chunks := LoadMsg(src, r);
    dest := StoreMsg(chunks, r, k);
  }

  /** The chunking is determined by the bytes: full chunks leave no choice. */
  lemma {:induction false} PackedUnique(a: seq<Bytes>, b: seq<Bytes>, r: Room)
    requires RoomOk(r) && Packed(a, r) && Packed(b, r) && Flat(a) == Flat(b)
    ensures a == b
  {
    FirstSame(a, b, r);
    FirstSame(b, a, r);
    assert Flat(a) == a[0] + Flat(a[1..]) && Flat(b) == b[0] + Flat(b[1..]);
    assert Flat(a)[|a[0]|..] == Flat(a[1..]) && Flat(b)[|b[0]|..] == Flat(b[1..]);
    TailUnique(a[1..], b[1..], r);
    assert a == [a[0]] + a[1..] && b == [b[0]] + b[1..];
  }

  lemma {:induction false} FirstSame(a: seq<Bytes>, b: seq<Bytes>, r: Room)
    requires RoomOk(r) && Packed(a, r) && Packed(b, r) && Flat(a) == Flat(b)
    ensures |a[0]| == |b[0]| && a[0] == b[0]
  {
    assert Flat(a) == a[0] + Flat(a[1..]) && Flat(b) == b[0] + Flat(b[1..]);
    if |a| == 1 { assert a[1..] == []; } else { FlatFrom(a, 1); }
    if |b| == 1 { assert b[1..] == []; } else { FlatFrom(b, 1); }
    assert a[0] == Flat(a)[..|a[0]|] && b[0] == Flat(b)[..|b[0]|];
  }

  /** Chunks after the first. */
  predicate PackedTail(t: seq<Bytes>, r: Room) {
    && (forall i :: 0 <= i < |t| ==> 0 < |t[i]| <= r.later)
    && (forall i :: 0 <= i < |t| - 1 ==> |t[i]| == r.later)
  }

  lemma {:induction false} TailUnique(a: seq<Bytes>, b: seq<Bytes>, r: Room)
    requires RoomOk(r) && PackedTail(a, r) && PackedTail(b, r) && Flat(a) == Flat(b)
    ensures a == b
  {
    assert a != [] ==> |Flat(a)| > 0;
    assert b != [] ==> |Flat(b)| > 0;
    if a != [] && b != [] {
      HeadSame(a, b, r);
      assert Flat(a)[|a[0]|..] == Flat(a[1..]) && Flat(b)[|b[0]|..] == Flat(b[1..]);
      TailUnique(a[1..], b[1..], r);
      assert a == [a[0]] + a[1..] && b == [b[0]] + b[1..];
    }
  }

  lemma {:induction false} HeadSame(a: seq<Bytes>, b: seq<Bytes>, r: Room)
    requires RoomOk(r) && PackedTail(a, r) && PackedTail(b, r) && Flat(a) == Flat(b) && a != [] && b != []
    ensures a[0] == b[0]
  {
    if |a| == 1 { assert a[1..] == []; } else { assert |Flat(a)| > |a[0]| by { FlatFrom(a, 1); } }
    if |b| == 1 { assert b[1..] == []; } else { assert |Flat(b)| > |b[0]| by { FlatFrom(b, 1); } }
    assert a[0] == Flat(a)[..|a[0]|] && b[0] == Flat(b)[..|b[0]|];
  }
}
