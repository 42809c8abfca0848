/**
 A System V message queue that senders and receivers use under its lock
 (ipc/msg.c: do_msgsnd, pipelined_send, do_msgrcv).
 */
module SysvQueue {
  import opened SysvMsg

  datatype Wakeup = TooBig(task: nat) | Handed(task: nat, msg: Msg)

  /** `sent`, `delivered` and `wakeups` record what happened; the code keeps
      none of them. */
  datatype State = State(messages: seq<Msg>, receivers: seq<Receiver>, qnum: int, cbytes: int, qbytes: int,
                         sent: seq<Msg>, delivered: seq<Msg>, wakeups: seq<Wakeup>)

  function Bytes(ms: seq<Msg>): nat { if ms == [] then 0 else Bytes(ms[..|ms| - 1]) + ms[|ms| - 1].size }

  // ---- Offering a message to the sleepers

  /** Who stays asleep, who is woken, and whether the message found a taker. */
  datatype Offered = Offered(left: seq<Receiver>, wakeups: seq<Wakeup>, taken: bool)

  /** In list order: a receiver that accepts the message but has no room for it
      is woken with an error, the first one with room gets it. */
  function Offer(rs: seq<Receiver>, m: Msg): Offered {
    if rs == [] then Offered([], [], false)
    else if !TestMsg(m, rs[0].filter) then
      var o := Offer(rs[1..], m);
      o.(left := [rs[0]] + o.left)
    else if rs[0].maxsize < m.size then
      var o := Offer(rs[1..], m);
      o.(wakeups := [TooBig(rs[0].task)] + o.wakeups)
    else Offered(rs[1..], [Handed(rs[0].task, m)], true)
  }

  /** Receiver i may take m. */
  predicate Takes(rs: seq<Receiver>, m: Msg, i: nat)
    requires i < |rs|
  {
    TestMsg(m, rs[i].filter) && rs[i].maxsize >= m.size
  }

  /** Receiver i is the first that may take m. */
  predicate FirstToTake(rs: seq<Receiver>, m: Msg, i: nat)
    requires i < |rs|
  {
    Takes(rs, m, i) && forall j :: 0 <= j < i ==> !Takes(rs, m, j)
  }

  /** The message is taken exactly when some sleeper accepts it and has room, and
      then the first such one gets it, as the last one woken. */
  lemma {:induction false} FirstFitTakes(rs: seq<Receiver>, m: Msg)
    ensures var o := Offer(rs, m);
            if o.taken then exists i :: 0 <= i < |rs| && FirstToTake(rs, m, i) && o.wakeups != []
                                        && o.wakeups[|o.wakeups| - 1] == Handed(rs[i].task, m)
            else forall i :: 0 <= i < |rs| ==> !Takes(rs, m, i)
  {
    if rs != [] && !Takes(rs, m, 0) {
      var t := rs[1..];
      FirstFitTakes(t, m);
      var o := Offer(t, m);
      if o.taken {
        var i :| 0 <= i < |t| && FirstToTake(t, m, i) && o.wakeups != []
                 && o.wakeups[|o.wakeups| - 1] == Handed(t[i].task, m);
        TailFirst(rs, m, i);
      } else {
        forall i | 0 <= i < |rs| ensures !Takes(rs, m, i) {
          if i > 0 { assert !Takes(t, m, i - 1); }
        }
      }
    } else if rs != [] {
      assert FirstToTake(rs, m, 0);
    }
  }

  lemma {:induction false} TailFirst(rs: seq<Receiver>, m: Msg, i: nat)
    requires rs != [] && !Takes(rs, m, 0) && i < |rs| - 1 && FirstToTake(rs[1..], m, i)
    ensures FirstToTake(rs, m, i + 1)
  {
    forall j | 0 <= j < i + 1 ensures !Takes(rs, m, j) {
      if j > 0 { assert !Takes(rs[1..], m, j - 1); }
    }
  }

  /** If the message is not taken, nobody left asleep accepts it. */
  lemma {:induction false} LeftAsleep(rs: seq<Receiver>, m: Msg)
    ensures forall r :: r in Offer(rs, m).left ==> r in rs
    ensures !Offer(rs, m).taken ==> forall r :: r in Offer(rs, m).left ==> !TestMsg(m, r.filter)
  {
    if rs != [] { LeftAsleep(rs[1..], m); }
  }

  // ---- Steps under the lock

  predicate Fits(s: State, m: Msg) { m.size + s.cbytes <= s.qbytes && 1 + s.qnum <= s.qbytes }

  /** The sending part of do_msgsnd once the message fits. */
  function Sent(s: State, m: Msg): State {
    var o := Offer(s.receivers, m);
    var r := s.(receivers := o.left, wakeups := s.wakeups + o.wakeups, sent := s.sent + [m]);
    if o.taken then r.(delivered := s.delivered + [m])
    else r.(messages := s.messages + [m], qnum := s.qnum + 1, cbytes := s.cbytes + m.size)
  }

  datatype Answer = Got(msg: Msg) | E2Big | NoMsg | Sleeps

  /** Which answer one pass of do_msgrcv gives. */
  function Reply(s: State, f: Filter, msgsz: nat, noerror: bool, block: bool): Answer {
    var k := Chosen(s.messages, f);
    if k == -1 then if block then Sleeps else NoMsg
    else if msgsz < s.messages[k].size && !noerror then E2Big
    else Got(s.messages[k])
  }

  function Received(s: State, task: nat, f: Filter, msgsz: nat, noerror: bool, block: bool): State {
    var k := Chosen(s.messages, f);
    match Reply(s, f, msgsz, noerror, block)
    case Got(m) =>
      s.(messages := Omitted(s.messages, k), qnum := s.qnum - 1, cbytes := s.cbytes - m.size,
         delivered := s.delivered + [m])
    case Sleeps => s.(receivers := s.receivers + [Receiver(task, f, if noerror then INT_MAX else msgsz)])
    case _ => s
  }

  function Awoken(rs: seq<Receiver>, task: nat): seq<Receiver> {
    if rs == [] then [] else if rs[0].task == task then Awoken(rs[1..], task) else [rs[0]] + Awoken(rs[1..], task)
  }

  // ---- Runs

  datatype Event =
    | Send(msg: Msg)
    | Receive(task: nat, filter: Filter, msgsz: nat, noerror: bool, block: bool)
    | WakeUp(task: nat)               // signal or spurious: leaves the list, may then receive again
    | SetBytes(qbytes: int)           // IPC_SET

  function Step(s: State, e: Event): State {
    match e
    case Send(m) => if m.kind >= 1 && Fits(s, m) then Sent(s, m) else s
    case Receive(task, f, msgsz, noerror, block) => Received(s, task, f, msgsz, noerror, block)
    case WakeUp(task) => s.(receivers := Awoken(s.receivers, task))
    case SetBytes(n) => s.(qbytes := n)
  }

  function Run(s: State, run: seq<Event>): State
    decreases |run|
  {
    if run == [] then s else Run(Step(s, run[0]), run[1..])
  }

  /** No sleeping receiver would accept a queued message. */
  predicate NobodySleepsInVain(s: State) {
    forall i, j :: 0 <= i < |s.receivers| && 0 <= j < |s.messages| ==> !TestMsg(s.messages[j], s.receivers[i].filter)
  }

  predicate KindsOk(ms: seq<Msg>) { forall i :: 0 <= i < |ms| ==> ms[i].kind >= 1 }

  predicate Counted(s: State) { s.qnum == |s.messages| && s.cbytes == Bytes(s.messages) }

  function Count(ms: seq<Msg>, m: Msg): nat {
    if ms == [] then 0 else Count(ms[..|ms| - 1], m) + if ms[|ms| - 1] == m then 1 else 0
  }

  predicate AccountedFor(s: State, m: Msg) { Count(s.sent, m) == Count(s.messages, m) + Count(s.delivered, m) }

  /** Every message sent is queued or was delivered, once. */
  ghost predicate Accounted(s: State) { forall m :: AccountedFor(s, m) }

  ghost predicate Inv(s: State) { NobodySleepsInVain(s) && KindsOk(s.messages) && Counted(s) && Accounted(s) }

  lemma {:induction false} Snoc(ms: seq<Msg>, x: Msg, m: Msg)
    ensures Bytes(ms + [x]) == Bytes(ms) + x.size
    ensures Count(ms + [x], m) == Count(ms, m) + if x == m then 1 else 0
  {
    assert (ms + [x])[..|ms|] == ms;
  }

  function Omitted(ms: seq<Msg>, k: nat): seq<Msg>
    requires k < |ms|
  {
    ms[..k] + ms[k + 1..]
  }

  lemma {:induction false} OmittedSnoc(g: seq<Msg>, x: Msg, k: nat)
    requires k < |g|
    ensures Omitted(g + [x], k) == Omitted(g, k) + [x]
  {
    assert (g + [x])[..k] == g[..k] && (g + [x])[k + 1..] == g[k + 1..] + [x];
  }

  lemma {:induction false} TakenOut(ms: seq<Msg>, k: nat, m: Msg)
    requires k < |ms|
    ensures Bytes(Omitted(ms, k)) == Bytes(ms) - ms[k].size
    ensures Count(Omitted(ms, k), m) == Count(ms, m) - if ms[k] == m then 1 else 0
  {
    var n := |ms| - 1;
    var g, x := ms[..n], ms[n];
    assert ms == g + [x];
    Snoc(g, x, m);
    if k == n {
      assert Omitted(ms, k) == g;
    } else {
      TakenOut(g, k, m);
      OmittedSnoc(g, x, k);
      Snoc(Omitted(g, k), x, m);
    }
  }

  lemma {:induction false} SentSettles(s: State, m: Msg, s': State)
    requires NobodySleepsInVain(s) && s' == Sent(s, m)
    ensures NobodySleepsInVain(s')
  {
    LeftAsleep(s.receivers, m);
    forall i, j | 0 <= i < |s'.receivers| && 0 <= j < |s'.messages| ensures !TestMsg(s'.messages[j], s'.receivers[i].filter) {
      assert s'.receivers[i] in s.receivers;
      var k :| 0 <= k < |s.receivers| && s.receivers[k] == s'.receivers[i];
      if j < |s.messages| { assert !TestMsg(s.messages[j], s.receivers[k].filter); }
    }
  }

  lemma {:induction false} SentKeeps(s: State, m: Msg)
    requires Inv(s) && m.kind >= 1
    ensures Inv(Sent(s, m))
  {
    var s' := Sent(s, m);
    SentSettles(s, m, s');
    Snoc(s.messages, m, m);
    forall x ensures AccountedFor(s', x) {
      assert AccountedFor(s, x);
      Snoc(s.sent, m, x);
      Snoc(s.messages, m, x);
      Snoc(s.delivered, m, x);
    }
  }

  lemma {:induction false} ReceivedKeeps(s: State, task: nat, f: Filter, msgsz: nat, noerror: bool, block: bool)
    requires Inv(s)
    ensures Inv(Received(s, task, f, msgsz, noerror, block))
  {
    ChosenIsChoice(s.messages, f);
    var k, s' := Chosen(s.messages, f), Received(s, task, f, msgsz, noerror, block);
    if Reply(s, f, msgsz, noerror, block).Got? {
      assert forall j :: 0 <= j < |s'.messages| ==> s'.messages[j] == s.messages[if j < k then j else j + 1];
      TakenOut(s.messages, k, s.messages[k]);
      forall x ensures AccountedFor(s', x) {
        assert AccountedFor(s, x);
        TakenOut(s.messages, k, x);
        Snoc(s.delivered, s.messages[k], x);
      }
    } else {
      forall x ensures AccountedFor(s', x) { assert AccountedFor(s, x); }
    }
  }

  lemma {:induction false} AwokenMembers(rs: seq<Receiver>, task: nat)
    ensures forall r :: r in Awoken(rs, task) <==> r in rs && r.task != task
  {
    if rs != [] {
      AwokenMembers(rs[1..], task);
      assert rs == [rs[0]] + rs[1..];
    }
  }

  lemma {:induction false} StepKeeps(s: State, e: Event)
    requires Inv(s)
    ensures Inv(Step(s, e))
  {
    match e
    case Send(m) => if m.kind >= 1 { SentKeeps(s, m); }
    case Receive(task, f, msgsz, noerror, block) => ReceivedKeeps(s, task, f, msgsz, noerror, block);
    case WakeUp(task) =>
      AwokenMembers(s.receivers, task);
      var left := Awoken(s.receivers, task);
      forall i, j | 0 <= i < |left| && 0 <= j < |s.messages| ensures !TestMsg(s.messages[j], left[i].filter) {
        assert left[i] in s.receivers;
        var k :| 0 <= k < |s.receivers| && s.receivers[k] == left[i];
      }
      forall x ensures AccountedFor(Step(s, e), x) { assert AccountedFor(s, x); }
    case SetBytes(_) =>
      forall x ensures AccountedFor(Step(s, e), x) { assert AccountedFor(s, x); }
  }

  /** In every run, no receiver sleeps while a message it would accept is queued,
      q_qnum and q_cbytes are exact, and every message sent is queued or was
      delivered once. */
  lemma {:induction false} EveryRunSettled(s: State, run: seq<Event>)
    requires Inv(s)
    ensures Inv(Run(s, run))
    decreases |run|
  {
    if run != [] {
      StepKeeps(s, run[0]);
      EveryRunSettled(Step(s, run[0]), run[1..]);
    }
  }

  /** In every run, a receiver with a negative type argument that finds anything
      takes the first message of the smallest type within its bound. */
  lemma {:induction false} SmallestTypeFirst(s: State, run: seq<Event>, msgtyp: int, except: bool, msgsz: nat, noerror: bool, block: bool)
    requires Inv(s) && IsLong(msgtyp) && LONG_MIN < msgtyp < 0
    requires Reply(Run(s, run), ConvertMode(msgtyp, except), msgsz, noerror, block).Got?
    ensures var ms := Run(s, run).messages;
            var m := Reply(Run(s, run), ConvertMode(msgtyp, except), msgsz, noerror, block).msg;
            exists k :: 0 <= k < |ms| && ms[k] == m && m.kind <= -msgtyp
                        && (forall j :: 0 <= j < |ms| && ms[j].kind <= -msgtyp ==> m.kind <= ms[j].kind)
                        && (forall j :: 0 <= j < k ==> ms[j].kind != m.kind)
  {
    var ms, f := Run(s, run).messages, ConvertMode(msgtyp, except);
    ChosenIsChoice(ms, f);
    var k := Chosen(ms, f);
    forall j | 0 <= j < |ms| && ms[j].kind <= -msgtyp ensures ms[k].kind <= ms[j].kind && (j < k ==> ms[j].kind != ms[k].kind) {
      assert TestMsg(ms[j], f);
      assert !Better(ms, f, j, k);
    }
  }

  // ---- The code

  class Queue {
    var messages: seq<Msg>
    var receivers: seq<Receiver>
    var qnum: int
    var cbytes: int
    var qbytes: int
    var sent: seq<Msg>
    var delivered: seq<Msg>
    var wakeups: seq<Wakeup>

    ghost function View(): State
      reads this
    {
      State(messages, receivers, qnum, cbytes, qbytes, sent, delivered, wakeups)
    }

    ghost predicate Valid()
      reads this
    {
      Inv(View())
    }

    constructor (qbytes: int)
      ensures Valid() && messages == [] && receivers == [] && this.qbytes == qbytes
    {
      messages, receivers, qnum, cbytes, wakeups := [], [], 0, 0, [];
      this.qbytes := qbytes;
      sent, delivered := [], [];
    }

    /** pipelined_send */
    method PipelinedSend(m: Msg) returns (taken: bool)
      modifies this`receivers, this`wakeups
      ensures var o := Offer(old(receivers), m);
              receivers == o.left && wakeups == old(wakeups) + o.wakeups && taken == o.taken
    {
      ghost var all, o, said := receivers, Offer(receivers, m), wakeups;
      var kept: seq<Receiver>, rest := [], receivers;
      while rest != []
        invariant receivers == kept + rest
        invariant o.left == kept + Offer(rest, m).left && o.taken == Offer(rest, m).taken
        invariant said + o.wakeups == wakeups + Offer(rest, m).wakeups
        decreases |rest|
      {
        var r := rest[0];
        rest := rest[1..];
        if TestMsg(m, r.filter) {
          receivers := kept + rest;
          if r.maxsize < m.size {
            wakeups := wakeups + [TooBig(r.task)];
          } else {
            wakeups := wakeups + [Handed(r.task, m)];
            return true;
          }
        } else {
          kept := kept + [r];
        }
      }
      taken := false;
    }

    /** do_msgsnd: one pass under the lock; false means the caller must wait. */
    method DoMsgsnd(m: Msg) returns (done: bool)
      requires Valid() && m.kind >= 1
      modifies this
      ensures Valid() && (done <==> Fits(old(View()), m))
      ensures View() == if done then Sent(old(View()), m) else old(View())
    {
      if !(m.size + cbytes <= qbytes && 1 + qnum <= qbytes) { return false; }
      SentKeeps(View(), m);
      sent := sent + [m];
      var taken := PipelinedSend(m);
      if taken {
        delivered := delivered + [m];
      } else {
        messages := messages + [m];
        cbytes := cbytes + m.size;
        qnum := qnum + 1;
      }
      done := true;
    }

    /** A message leaves the queue. */
    method Unlink(k: nat)
      requires k < |messages|
      modifies this`messages, this`qnum, this`cbytes, this`delivered
      ensures messages == Omitted(old(messages), k) && qnum == old(qnum) - 1
      ensures cbytes == old(cbytes) - old(messages)[k].size && delivered == old(delivered) + [old(messages)[k]]
    {
      var m := messages[k];
      messages := messages[..k] + messages[k + 1..];
      qnum := qnum - 1;
      cbytes := cbytes - m.size;
      delivered := delivered + [m];
    }

    /** The body of one pass of do_msgrcv. */
    method Pass(task: nat, f: Filter, msgsz: nat, noerror: bool, block: bool) returns (a: Answer)
      requires KindsOk(messages)
      modifies this
      ensures a == Reply(old(View()), f, msgsz, noerror, block)
      ensures View() == Received(old(View()), task, f, msgsz, noerror, block)
    {
      var k := Search(messages, f);
      if k >= 0 {
        var m := messages[k];
        if msgsz < m.size && !noerror { return E2Big; }
        Unlink(k);
        return Got(m);
      }
      if !block { return NoMsg; }
      receivers := receivers + [Receiver(task, f, if noerror then INT_MAX else msgsz)];
      a := Sleeps;
    }

    /** do_msgrcv: one pass under the lock. */
    method DoMsgrcv(task: nat, f: Filter, msgsz: nat, noerror: bool, block: bool) returns (a: Answer)
      requires Valid()
      modifies this
      ensures Valid() && a == Reply(old(View()), f, msgsz, noerror, block)
      ensures View() == Received(old(View()), task, f, msgsz, noerror, block)
    {
      ReceivedKeeps(View(), task, f, msgsz, noerror, block);
      a := Pass(task, f, msgsz, noerror, block);
    }
  }
}
