/**
 Lists kept in order by inserting each newcomer before the first item of no
 smaller key, and served from the end (ipc/mqueue.c: the message array, where
 the key is the priority, and the wait lists, where it is minus static_prio).
 The list is a view of the arrival history: its last item is the oldest of the
 largest key, and removals commute with the view.
 */
module PrioList {

  datatype Item<T> = Item(key: int, body: T)

  function Spot<T>(s: seq<Item<T>>, key: int): (p: nat)
    ensures p <= |s|
  {
    if s == [] || s[0].key >= key then 0 else 1 + Spot(s[1..], key)
  }

  function Insert<T>(s: seq<Item<T>>, x: Item<T>): seq<Item<T>> {
    s[..Spot(s, x.key)] + [x] + s[Spot(s, x.key)..]
  }

  function Sorted<T>(h: seq<Item<T>>): (s: seq<Item<T>>)
    ensures |s| == |h|
  {
    if h == [] then [] else Insert(Sorted(h[..|h| - 1]), h[|h| - 1])
  }

  /** The arrival that must be served next: the oldest of the largest key. */
  function Best<T>(h: seq<Item<T>>): (b: nat)
    requires h != []
    ensures b < |h|
  {
    var last := |h| - 1;
    if last == 0 then 0
    else
      var b := Best(h[..last]);
      if h[last].key > h[b].key then last else b
  }

  lemma {:induction false} BestIsOldest<T>(h: seq<Item<T>>)
    requires h != []
    ensures forall j :: 0 <= j < |h| ==> h[j].key <= h[Best(h)].key
    ensures forall j :: 0 <= j < Best(h) ==> h[j].key < h[Best(h)].key
  {
    if |h| > 1 {
      var g := h[..|h| - 1];
      assert forall j :: 0 <= j < |g| ==> g[j] == h[j];
      BestIsOldest(g);
    }
  }

  function Dropped<T>(h: seq<Item<T>>, i: nat): seq<Item<T>>
    requires i < |h|
  {
    h[..i] + h[i + 1..]
  }

  lemma {:induction false} DroppedSnoc<T>(g: seq<Item<T>>, y: Item<T>, i: nat)
    requires i < |g|
    ensures Dropped(g + [y], i) == Dropped(g, i) + [y]
  {
    assert (g + [y])[..i] == g[..i] && (g + [y])[i + 1..] == g[i + 1..] + [y];
  }

  predicate Ascending<T>(s: seq<Item<T>>) {
    forall i, j :: 0 <= i < j < |s| ==> s[i].key <= s[j].key
  }

  // ---- Insertion

  lemma {:induction false} SpotSplits<T>(s: seq<Item<T>>, key: int)
    requires Ascending(s)
    ensures forall i :: 0 <= i < Spot(s, key) ==> s[i].key < key
    ensures forall i :: Spot(s, key) <= i < |s| ==> s[i].key >= key
  {
    if s != [] && s[0].key < key {
      var t := s[1..];
      assert forall i :: 0 <= i < |t| ==> t[i] == s[i + 1];
      SpotSplits(t, key);
      forall i | 0 <= i < Spot(s, key) ensures s[i].key < key {
        if i > 0 { assert t[i - 1].key < key; }
      }
      forall i | Spot(s, key) <= i < |s| ensures s[i].key >= key {
        assert t[i - 1].key >= key;
      }
    }
  }

  lemma {:induction false} SpotUnique<T>(s: seq<Item<T>>, key: int, p: nat)
    requires p <= |s|
    requires forall i :: 0 <= i < p ==> s[i].key < key
    requires forall i :: p <= i < |s| ==> s[i].key >= key
    ensures Spot(s, key) == p
  {
    if p > 0 {
      var t := s[1..];
      assert s[0].key < key;
      assert forall i :: 0 <= i < |t| ==> t[i] == s[i + 1];
      SpotUnique(t, key, p - 1);
    }
  }

  lemma {:induction false} InsertAscends<T>(s: seq<Item<T>>, x: Item<T>)
    requires Ascending(s)
    ensures Ascending(Insert(s, x)) && |Insert(s, x)| == |s| + 1
    ensures multiset(Insert(s, x)) == multiset(s) + multiset{x}
  {
    SpotSplits(s, x.key);
    var p := Spot(s, x.key);
    assert s == s[..p] + s[p..];
  }

  lemma {:induction false} SortedAscends<T>(h: seq<Item<T>>)
    ensures Ascending(Sorted(h)) && multiset(Sorted(h)) == multiset(h)
  {
    if h != [] {
      var g := h[..|h| - 1];
      SortedAscends(g);
      InsertAscends(Sorted(g), h[|h| - 1]);
      assert h == g + [h[|h| - 1]];
    }
  }

  lemma {:induction false} SortedSnoc<T>(h: seq<Item<T>>, x: Item<T>)
    ensures Sorted(h + [x]) == Insert(Sorted(h), x)
  {
    assert (h + [x])[..|h|] == h;
  }

  // ---- Serving

  lemma {:induction false} InsertBelowLast<T>(r: seq<Item<T>>, last: Item<T>, x: Item<T>)
    requires Ascending(r + [last]) && x.key <= last.key
    ensures Insert(r + [last], x) == Insert(r, x) + [last]
  {
    var s := r + [last];
    assert forall i, j :: 0 <= i < j < |r| ==> r[i] == s[i] && r[j] == s[j];
    SpotSplits(r, x.key);
    var p := Spot(r, x.key);
    SpotUnique(s, x.key, p);
    assert s[..p] == r[..p] && s[p..] == r[p..] + [last];
  }

  /** The end of the list is the oldest arrival of the largest key, and taking
      it away leaves the list of the remaining arrivals. */
  lemma {:induction false} ServesBest<T>(h: seq<Item<T>>)
    requires h != []
    ensures Sorted(h) == Sorted(Dropped(h, Best(h))) + [h[Best(h)]]
  {
    var n := |h| - 1;
    var g, y := h[..n], h[n];
    assert h == g + [y];
    if n == 0 {
      assert Sorted(h) == [y] && Dropped(h, 0) == [];
    } else if y.key > g[Best(g)].key {
      BestIsOldest(g);
      ServesNewest(g, y);
      assert Dropped(h, n) == g;
    } else {
      ServesBest(g);
      ServesOlder(g, y, Best(g));
      DroppedSnoc(g, y, Best(g));
    }
  }

  lemma {:induction false} ServesNewest<T>(g: seq<Item<T>>, y: Item<T>)
    requires forall j :: 0 <= j < |g| ==> g[j].key < y.key
    ensures Sorted(g + [y]) == Sorted(g) + [y]
  {
    SortedMember(g, y.key);
    SpotUnique(Sorted(g), y.key, |g|);
    SortedSnoc(g, y);
  }

  lemma {:induction false} ServesOlder<T>(g: seq<Item<T>>, y: Item<T>, b: nat)
    requires b < |g| && y.key <= g[b].key
    requires Sorted(g) == Sorted(Dropped(g, b)) + [g[b]]
    ensures Sorted(g + [y]) == Sorted(Dropped(g, b) + [y]) + [g[b]]
  {
    SortedAscends(g);
    InsertBelowLast(Sorted(Dropped(g, b)), g[b], y);
    SortedSnoc(g, y);
    SortedSnoc(Dropped(g, b), y);
  }

  lemma {:induction false} SortedMember<T>(h: seq<Item<T>>, key: int)
    requires forall j :: 0 <= j < |h| ==> h[j].key < key
    ensures forall j :: 0 <= j < |h| ==> Sorted(h)[j].key < key
  {
    SortedAscends(h);
    forall j | 0 <= j < |h| ensures Sorted(h)[j].key < key {
      assert Sorted(h)[j] in multiset(Sorted(h));
      assert Sorted(h)[j] in multiset(h);
    }
  }

  // ---- Leaving the line

  function Without<T(==)>(s: seq<Item<T>>, x: Item<T>): seq<Item<T>> {
    if s == [] then [] else if s[0] == x then s[1..] else [s[0]] + Without(s[1..], x)
  }

  lemma {:induction false} WithoutMiddle<T>(a: seq<Item<T>>, x: Item<T>, b: seq<Item<T>>)
    requires x !in a
    ensures Without(a + [x] + b, x) == a + b
  {
    var s := a + [x] + b;
    if a == [] {
      assert s[0] == x && s[1..] == b;
    } else {
      assert s[0] == a[0] && s[1..] == a[1..] + [x] + b;
      WithoutMiddle(a[1..], x, b);
    }
  }

  lemma {:induction false} WithoutInsert<T>(s: seq<Item<T>>, x: Item<T>, y: Item<T>)
    requires Ascending(s) && x != y && x in s
    ensures Without(Insert(s, y), x) == Insert(Without(s, x), y)
  {
    if s[0].key >= y.key {
      WithoutInsertFront(s, x, y);
    } else {
      var t := s[1..];
      assert forall i :: 0 <= i < |t| ==> t[i] == s[i + 1];
      InsertUnder(s, y);
      assert ([s[0]] + Insert(t, y))[1..] == Insert(t, y);
      if s[0] != x {
        WithoutInsert(t, x, y);
        InsertUnder([s[0]] + Without(t, x), y);
        assert ([s[0]] + Without(t, x))[1..] == Without(t, x);
      }
    }
  }

  lemma {:induction false} WithoutInsertFront<T>(s: seq<Item<T>>, x: Item<T>, y: Item<T>)
    requires Ascending(s) && x != y && s != [] && s[0].key >= y.key
    ensures Without(Insert(s, y), x) == Insert(Without(s, x), y)
  {
    assert Insert(s, y) == [y] + s;
    assert ([y] + s)[1..] == s;
    var w := Without(s, x);
    WithoutKeys(s, x, y.key);
    SpotUnique(w, y.key, 0);
    assert w[..0] + [y] + w[0..] == [y] + w;
  }

  lemma {:induction false} InsertUnder<T>(s: seq<Item<T>>, y: Item<T>)
    requires s != [] && s[0].key < y.key
    ensures Insert(s, y) == [s[0]] + Insert(s[1..], y)
  {
    var p := Spot(s[1..], y.key);
    assert s[..p + 1] == [s[0]] + s[1..][..p] && s[p + 1..] == s[1..][p..];
  }

  lemma {:induction false} WithoutKeys<T>(s: seq<Item<T>>, x: Item<T>, key: int)
    requires forall i :: 0 <= i < |s| ==> s[i].key >= key
    ensures forall i :: 0 <= i < |Without(s, x)| ==> Without(s, x)[i].key >= key
  {
    if s != [] && s[0] != x {
      WithoutKeys(s[1..], x, key);
    }
  }

  predicate Distinct<T(==)>(s: seq<Item<T>>) {
    forall i, j :: 0 <= i < j < |s| ==> s[i] != s[j]
  }

  /** Whoever leaves, the list stays the view of those who remain. */
  lemma {:induction false} LeavingCommutes<T>(h: seq<Item<T>>, x: Item<T>)
    requires Distinct(h) && x in h
    ensures Sorted(Without(h, x)) == Without(Sorted(h), x)
  {
    var n := |h| - 1;
    var g, y := h[..n], h[n];
    assert h == g + [y];
    if y == x {
      assert x !in g;
      NewestLeaves(g, x);
    } else {
      assert x in g && Distinct(g);
      LeavingCommutes(g, x);
      OlderLeaves(g, x, y);
    }
  }

  lemma {:induction false} NewestLeaves<T>(g: seq<Item<T>>, x: Item<T>)
    requires x !in g
    ensures Sorted(Without(g + [x], x)) == Without(Sorted(g + [x]), x)
  {
    assert g + [x] == g + [x] + [] && g + [] == g;
    WithoutMiddle(g, x, []);
    SortedHas(g, x);
    SortedSnoc(g, x);
    WithoutInserted(Sorted(g), x);
  }

  lemma {:induction false} WithoutInserted<T>(s: seq<Item<T>>, x: Item<T>)
    requires x !in s
    ensures Without(Insert(s, x), x) == s
  {
    var p := Spot(s, x.key);
    WithoutMiddle(s[..p], x, s[p..]);
    assert s == s[..p] + s[p..];
  }

  lemma {:induction false} OlderLeaves<T>(g: seq<Item<T>>, x: Item<T>, y: Item<T>)
    requires x in g && x != y && Sorted(Without(g, x)) == Without(Sorted(g), x)
    ensures Sorted(Without(g + [y], x)) == Without(Sorted(g + [y]), x)
  {
    SortedAscends(g);
    SortedHas(g, x);
    WithoutSnoc(g, x, y);
    SortedSnoc(Without(g, x), y);
    SortedSnoc(g, y);
    WithoutInsert(Sorted(g), x, y);
  }

  lemma {:induction false} WithoutSnoc<T>(g: seq<Item<T>>, x: Item<T>, y: Item<T>)
    requires x in g
    ensures Without(g + [y], x) == Without(g, x) + [y]
  {
    var s := g + [y];
    if g[0] == x {
      assert s[1..] == g[1..] + [y];
    } else {
      assert s[1..] == g[1..] + [y];
      WithoutSnoc(g[1..], x, y);
    }
  }

  lemma {:induction false} WithoutMembers<T>(s: seq<Item<T>>, x: Item<T>)
    requires Distinct(s)
    ensures Distinct(Without(s, x)) && x !in Without(s, x)
    ensures forall y :: y in Without(s, x) <==> y in s && y != x
  {
    if s != [] {
      var t := s[1..];
      assert forall i :: 0 <= i < |t| ==> t[i] == s[i + 1];
      assert s == [s[0]] + t;
      WithoutMembers(t, x);
      if s[0] != x {
        assert s[0] !in t;
      }
    }
  }

  lemma {:induction false} InsertHas<T>(s: seq<Item<T>>, x: Item<T>, v: Item<T>)
    ensures v in Insert(s, x) <==> v in s || v == x
  {
    var p := Spot(s, x.key);
    assert s == s[..p] + s[p..];
  }

  lemma {:induction false} SortedHas<T>(h: seq<Item<T>>, v: Item<T>)
    ensures v in Sorted(h) <==> v in h
  {
    if h != [] {
      var g, y := h[..|h| - 1], h[|h| - 1];
      assert h == g + [y];
      SortedHas(g, v);
      InsertHas(Sorted(g), y, v);
    }
  }

  lemma {:induction false} InsertDistinct<T>(s: seq<Item<T>>, x: Item<T>)
    requires Distinct(s) && x !in s
    ensures Distinct(Insert(s, x))
  {
  }

  lemma {:induction false} SortedDistinct<T>(h: seq<Item<T>>)
    requires Distinct(h)
    ensures Distinct(Sorted(h)) && forall x :: x in h <==> x in Sorted(h)
  {
    forall x ensures x in h <==> x in Sorted(h) { SortedHas(h, x); }
    if h != [] {
      var g, y := h[..|h| - 1], h[|h| - 1];
      assert Distinct(g) && y !in g;
      SortedDistinct(g);
      InsertDistinct(Sorted(g), y);
    }
  }
}
