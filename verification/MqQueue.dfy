/**
 The lists of one POSIX message queue as the code keeps them: the message array
 that is shifted in place, and the wait lists that are walked (ipc/mqueue.c).
 */
module MqQueue {
  import opened PrioList

  datatype Text = Text(id: nat, size: nat)

  /** A message; its key is its priority. */
  type Msg = Item<Text>

  /** A waiter; its key is minus its static_prio, its body its task. */
  type Waiter = Item<nat>

  function Bytes(s: seq<Msg>): nat {
    if s == [] then 0 else Bytes(s[..|s| - 1]) + s[|s| - 1].body.size
  }

  lemma {:induction false} BytesSplit(a: seq<Msg>, b: seq<Msg>)
    ensures Bytes(a + b) == Bytes(a) + Bytes(b)
  {
    if b == [] {
      assert a + b == a;
    } else {
      var n := |b| - 1;
      assert (a + b)[..|a| + n] == a + b[..n];
      BytesSplit(a, b[..n]);
    }
  }

  lemma {:induction false} BytesInsert(s: seq<Msg>, x: Msg)
    ensures Bytes(Insert(s, x)) == Bytes(s) + x.body.size
  {
    var p := Spot(s, x.key);
    assert s == s[..p] + s[p..];
    assert [x][..0] == [] && Bytes([x]) == x.body.size;
    BytesSplit(s[..p], s[p..]);
    BytesSplit(s[..p], [x]);
    BytesSplit(s[..p] + [x], s[p..]);
  }

  /** The walk of wq_add from the head to the first waiter whose static_prio is
      not larger; the newcomer stands before it. */
  method Stood(list: seq<Waiter>, w: Waiter) returns (r: seq<Waiter>)
    requires Ascending(list)
    ensures r == Insert(list, w) && Ascending(r)
  {
    var walk := 0;
    while walk < |list| && !(-list[walk].key <= -w.key)
      invariant 0 <= walk <= |list|
      invariant forall i :: 0 <= i < walk ==> list[i].key < w.key
    {
      walk := walk + 1;
    }
    SpotUnique(list, w.key, walk);
    InsertAscends(list, w);
    r := list[..walk] + [w] + list[walk..];
  }

  /** The loop of msg_insert: move the messages of no smaller priority up by one
      and say where the gap is. */
  method ShiftUp(a: array<Msg>, n: nat, key: int) returns (gap: nat)
    requires n < a.Length
    modifies a
    ensures gap <= n && (gap > 0 ==> a[gap - 1].key < key)
    ensures forall i :: 0 <= i < gap ==> a[i] == old(a[i])
    ensures forall i :: gap <= i < n ==> a[i + 1] == old(a[i])
    ensures forall i :: gap <= i < n ==> old(a[i]).key >= key
  {
    var k: int := n - 1;
    while k >= 0 && a[k].key >= key
      invariant -1 <= k < n
      invariant forall i :: 0 <= i <= k ==> a[i] == old(a[i])
      invariant forall i :: k < i < n ==> a[i + 1] == old(a[i])
      invariant forall i :: k < i < n ==> old(a[i]).key >= key
    {
      a[k + 1] := a[k];
      k := k - 1;
    }
    gap := k + 1;
  }

  lemma {:induction false} GapFilled(was: seq<Msg>, gap: nat, m: Msg, now: seq<Msg>)
    requires Ascending(was) && gap <= |was| && |now| == |was| + 1 && now[gap] == m
    requires forall i :: 0 <= i < gap ==> now[i] == was[i]
    requires forall i :: gap <= i < |was| ==> now[i + 1] == was[i]
    requires gap > 0 ==> was[gap - 1].key < m.key
    requires forall i :: gap <= i < |was| ==> was[i].key >= m.key
    ensures now == Insert(was, m)
  {
    SpotUnique(was, m.key, gap);
    assert now == was[..gap] + [m] + was[gap..];
  }

  method PutIn(a: array<Msg>, n: nat, m: Msg)
    requires n < a.Length && Ascending(a[..n])
    modifies a
    ensures a[..n + 1] == Insert(old(a[..n]), m)
  {
    ghost var was := a[..n];
    var gap := ShiftUp(a, n, m.key);
    a[gap] := m;
    GapFilled(was, gap, m, a[..n + 1]);
  }

  /** mqueue_inode_info as far as the lists go; one array slot per message.  The
      histories are the messages and the waiters still there, oldest first. */
  class Info {
    const messages: array<Msg>
    var curmsgs: nat
    var qsize: nat
    var waiting: seq<Waiter>
    ghost var arrived: seq<Msg>
    ghost var came: seq<Waiter>

    ghost predicate Valid()
      reads this, messages
    {
      && curmsgs <= messages.Length
      && messages[..curmsgs] == Sorted(arrived)
      && qsize == Bytes(messages[..curmsgs])
      && waiting == Sorted(came)
    }

    constructor (maxmsg: nat)
      ensures Valid() && fresh(messages) && messages.Length == maxmsg && arrived == [] && came == []
    {
      messages := new Msg[maxmsg](_ => Item(0, Text(0, 0)));
      curmsgs, qsize, waiting := 0, 0, [];
      arrived, came := [], [];
    }

    /** msg_insert: shift the messages of no smaller priority up by one. */
    method MsgInsert(m: Msg)
      requires Valid() && curmsgs < messages.Length
      modifies this`curmsgs, this`qsize, this`arrived, messages
      ensures Valid() && curmsgs == old(curmsgs) + 1 && arrived == old(arrived) + [m]
      ensures messages[..curmsgs] == Insert(old(messages[..curmsgs]), m)
    {
      ghost var was := messages[..curmsgs];
      SortedAscends(arrived);
      PutIn(messages, curmsgs, m);
      curmsgs := curmsgs + 1;
      qsize := qsize + m.body.size;
      BytesInsert(was, m);
      SortedSnoc(arrived, m);
      arrived := arrived + [m];
    }

    /** msg_get: the last message of the array is, of all that arrived and are
        still there, the oldest of the highest priority. */
    method MsgGet() returns (m: Msg)
      requires Valid() && curmsgs > 0
      modifies this`curmsgs, this`qsize, this`arrived
      ensures Valid() && curmsgs == old(curmsgs) - 1
      ensures old(arrived) != [] && m == old(arrived)[Best(old(arrived))]
      ensures arrived == Dropped(old(arrived), Best(old(arrived)))
      ensures old(messages[..curmsgs]) == messages[..curmsgs] + [m]
    {
      ghost var was := messages[..curmsgs];
      ServesBest(arrived);
      curmsgs := curmsgs - 1;
      assert was == messages[..curmsgs] + [messages[curmsgs]];
      assert was[..curmsgs] == messages[..curmsgs];
      qsize := qsize - messages[curmsgs].body.size;
      m := messages[curmsgs];
      arrived := Dropped(arrived, Best(arrived));
    }

    /** wq_add */
    method WqAdd(task: nat, staticPrio: int)
      requires Valid()
      modifies this`waiting, this`came
      ensures Valid() && came == old(came) + [Item(-staticPrio, task)]
      ensures waiting == Insert(old(waiting), Item(-staticPrio, task))
    {
      SortedAscends(came);
      waiting := Stood(waiting, Item(-staticPrio, task));
      SortedSnoc(came, Item(-staticPrio, task));
      came := came + [Item(-staticPrio, task)];
    }

    /** wq_get_first_waiter: the tail of the list is, of all who wait, the one of
        the best priority who came first. */
    method WqGetFirstWaiter() returns (task: nat, found: bool)
      requires Valid()
      ensures found <==> came != []
      ensures found ==> waiting != [] && task == waiting[|waiting| - 1].body
      ensures found ==>
                exists b :: 0 <= b < |came| && task == came[b].body
                  && (forall j :: 0 <= j < |came| ==> came[j].key <= came[b].key)
                  && (forall j :: 0 <= j < b ==> came[j].key < came[b].key)
    {
      found := waiting != [];
      task := if found then waiting[|waiting| - 1].body else 0;
      if found {
        ServesBest(came);
        BestIsOldest(came);
        assert task == came[Best(came)].body;
      }
    }
  }
}
