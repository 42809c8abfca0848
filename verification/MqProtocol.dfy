/**
 Sending, receiving, sleeping and waking on one POSIX message queue, one step
 at a time (ipc/mqueue.c).  A sleeper reads the state of its own wait record
 without the lock while a waker may be writing it; everything else happens
 under the lock.  `arrived` and `came` record arrival order, `submitted`,
 `sent`, `delivered` and `dropped` what became of each message; the code keeps
 none of these six.
 */
module MqProtocol {
  import opened PrioList
  import opened MqQueue

  /** STATE_NONE, STATE_PENDING, STATE_READY */
  datatype Wait = Idle | Pending | Ready

  /** ext_wait_queue: `got` is the message handed to a receiver. */
  datatype Rec = Rec(state: Wait, got: seq<Msg>, listed: bool)

  datatype Call = Send(msg: Msg, block: bool) | Receive(block: bool)

  /** Where a task stands.  Handing: holds the lock and wakes `to`; `mine` is
      what it received itself.  The last three are inside wq_sleep. */
  datatype Pc =
    | Out
    | Enter(call: Call)
    | Handing(call: Call, to: nat, stage: int, mine: seq<Msg>)
    | Asleep(call: Call)
    | Polling(call: Call, expired: bool)
    | Relocking(call: Call, expired: bool)

  datatype Task = Task(prio: int, pc: Pc, rec: Rec)

  datatype Lock = Free | By(task: nat)

  datatype Line = Line(list: seq<Waiter>, came: seq<Waiter>)

  datatype State = State(cap: nat, queue: seq<Msg>, arrived: seq<Msg>, senders: Line, receivers: Line,
                         tasks: seq<Task>, lock: Lock,
                         submitted: multiset<Msg>, sent: multiset<Msg>, delivered: multiset<Msg>, dropped: multiset<Msg>)

  /** Inside wq_sleep, with its record on the stack. */
  predicate Sleepy(pc: Pc) { pc.Asleep? || pc.Polling? || pc.Relocking? }

  function Place(tasks: seq<Task>, t: nat): Waiter
    requires t < |tasks|
  {
    Item(-tasks[t].prio, t)
  }

  // ---- Steps

  datatype Event =
    | Begin(t: nat, call: Call)
    | Go(t: nat)                       // lock, and the body of the call
    | Grab(t: nat)                     // waker: hand over the message, unlink the record
    | Pend(t: nat)                     // waker: STATE_PENDING
    | Wake(t: nat)                     // waker: wake_up_process
    | Publish(t: nat)                  // waker: STATE_READY
    | Unlock(t: nat)
    | Stir(t: nat, expired: bool)      // the sleeper runs again, for whatever reason
    | Poll(t: nat)                     // the sleeper reads its state, without the lock
    | Relock(t: nat, signal: bool)     // lock, and look again

  /** A waker's step is possible only while the owner of the record it touches
      is inside wq_sleep, in a call of the other kind. */
  predicate CanTouch(s: State, w: nat, stage: int)
    requires w < |s.tasks|
  {
    var pc := s.tasks[w].pc;
    && pc.Handing? && pc.stage == stage && pc.to < |s.tasks| && pc.to != w
    && Sleepy(s.tasks[pc.to].pc) && s.tasks[pc.to].pc.call.Receive? == pc.call.Send?
  }

  predicate Enabled(s: State, e: Event) {
    && e.t < |s.tasks|
    && var pc := s.tasks[e.t].pc;
       match e
       case Begin(_, _) => pc.Out?
       case Go(_) => pc.Enter? && s.lock.Free?
       case Grab(_) => CanTouch(s, e.t, 0)
       case Pend(_) => CanTouch(s, e.t, 1)
       case Wake(_) => CanTouch(s, e.t, 2)
       case Publish(_) => CanTouch(s, e.t, 3)
       case Unlock(_) => pc.Handing? && pc.stage == 4
       case Stir(_, _) => pc.Asleep?
       case Poll(_) => pc.Polling?
       case Relock(_, _) => pc.Relocking? && s.lock.Free?
  }

  function Joined(l: Line, w: Waiter): Line { Line(Insert(l.list, w), l.came + [w]) }

  function Left(l: Line, w: Waiter): Line { Line(Without(l.list, w), Without(l.came, w)) }

  function Served(h: seq<Msg>): seq<Msg> { if h == [] then [] else Dropped(h, Best(h)) }

  function Sleeping(task: Task): Task
    requires !task.pc.Out?
  {
    Task(task.prio, Asleep(task.pc.call), Rec(Idle, [], true))
  }

  function Gone(task: Task): Task { Task(task.prio, Out, Rec(Idle, [], false)) }

  /** wq_sleep up to the first unlock */
  function Sleep(s: State, t: nat): State
    requires t < |s.tasks| && s.tasks[t].pc.Enter?
  {
    var r := s.(tasks := s.tasks[t := Sleeping(s.tasks[t])]);
    if s.tasks[t].pc.call.Receive? then r.(receivers := Joined(s.receivers, Place(s.tasks, t)))
    else r.(senders := Joined(s.senders, Place(s.tasks, t)))
  }

  /** The call fails; a message that was not sent is freed. */
  function Fail(s: State, t: nat): State
    requires t < |s.tasks| && !s.tasks[t].pc.Out?
  {
    var r := s.(tasks := s.tasks[t := Gone(s.tasks[t])]);
    if s.tasks[t].pc.call.Send? then r.(dropped := s.dropped + multiset{s.tasks[t].pc.call.msg}) else r
  }

  function GoSend(s: State, t: nat): State
    requires t < |s.tasks| && s.tasks[t].pc.Enter? && s.tasks[t].pc.call.Send?
  {
    var call := s.tasks[t].pc.call;
    var waiting := s.receivers.list;
    if |s.queue| == s.cap then if call.block then Sleep(s, t) else Fail(s, t)
    else if waiting != [] then
      s.(lock := By(t), tasks := s.tasks[t := s.tasks[t].(pc := Handing(call, waiting[|waiting| - 1].body, 0, []))])
    else s.(queue := Insert(s.queue, call.msg), arrived := s.arrived + [call.msg],
            tasks := s.tasks[t := Gone(s.tasks[t])], sent := s.sent + multiset{call.msg})
  }

  function GoReceive(s: State, t: nat): State
    requires t < |s.tasks| && s.tasks[t].pc.Enter? && s.tasks[t].pc.call.Receive?
  {
    var call := s.tasks[t].pc.call;
    var waiting := s.senders.list;
    if s.queue == [] then if call.block then Sleep(s, t) else Fail(s, t)
    else
      var n := |s.queue| - 1;
      var r := s.(queue := s.queue[..n], arrived := Served(s.arrived));
      if waiting != [] then
        var pc := Handing(call, waiting[|waiting| - 1].body, 0, [s.queue[n]]);
        r.(lock := By(t), tasks := s.tasks[t := s.tasks[t].(pc := pc)])
      else r.(tasks := s.tasks[t := Gone(s.tasks[t])], delivered := s.delivered + multiset{s.queue[n]})
  }

  /** The owner's record with the message handed over and unlinked. */
  function Handed(owner: Task, call: Call): Task {
    owner.(rec := owner.rec.(listed := false, got := if call.Send? then [call.msg] else owner.rec.got))
  }

  function Advance(tasks: seq<Task>, w: nat, owner: Task): seq<Task>
    requires w < |tasks| && tasks[w].pc.Handing? && tasks[w].pc.to < |tasks|
  {
    tasks[tasks[w].pc.to := owner][w := tasks[w].(pc := tasks[w].pc.(stage := tasks[w].pc.stage + 1))]
  }

  /** First step of pipelined_send and pipelined_receive. */
  function GrabStep(s: State, w: nat): State
    requires w < |s.tasks| && CanTouch(s, w, 0)
  {
    var call, to := s.tasks[w].pc.call, s.tasks[w].pc.to;
    var owner := s.tasks[to];
    var r := s.(tasks := Advance(s.tasks, w, Handed(owner, call)));
    if call.Send? then r.(receivers := Left(s.receivers, Place(s.tasks, to)))
    else
      var m := owner.pc.call.msg;
      r.(senders := Left(s.senders, Place(s.tasks, to)), queue := Insert(s.queue, m), arrived := s.arrived + [m])
  }

  function SetState(owner: Task, w: Wait): Task { owner.(rec := owner.rec.(state := w)) }

  function Awake(owner: Task): Task {
    if owner.pc.Asleep? then owner.(pc := Polling(owner.pc.call, false)) else owner
  }

  /** Out of wq_sleep with success. */
  function Leave(s: State, t: nat): State
    requires t < |s.tasks| && !s.tasks[t].pc.Out?
  {
    var call := s.tasks[t].pc.call;
    var r := s.(tasks := s.tasks[t := Gone(s.tasks[t])]);
    if call.Send? then r.(sent := s.sent + multiset{call.msg})
    else r.(delivered := s.delivered + multiset(s.tasks[t].rec.got))
  }

  /** The waker's own call returns. */
  function UnlockStep(s: State, w: nat): State
    requires w < |s.tasks| && s.tasks[w].pc.Handing?
  {
    var pc := s.tasks[w].pc;
    var r := s.(lock := Free, tasks := s.tasks[w := Gone(s.tasks[w])]);
    if pc.call.Send? then r.(sent := s.sent + multiset{pc.call.msg})
    else r.(delivered := s.delivered + multiset(pc.mine))
  }

  /** list_del, and out of wq_sleep with an error. */
  function GiveUp(s: State, t: nat): State
    requires t < |s.tasks| && !s.tasks[t].pc.Out?
  {
    var r := Fail(s, t);
    if s.tasks[t].pc.call.Receive? then r.(receivers := Left(s.receivers, Place(s.tasks, t)))
    else r.(senders := Left(s.senders, Place(s.tasks, t)))
  }

  function RelockStep(s: State, t: nat, signal: bool): State
    requires t < |s.tasks| && s.tasks[t].pc.Relocking?
  {
    var task := s.tasks[t];
    if task.rec.state == Ready then Leave(s, t)
    else if signal || task.pc.expired then GiveUp(s, t)
    else s.(tasks := s.tasks[t := task.(pc := Asleep(task.pc.call))])
  }

  function PollStep(s: State, t: nat): State
    requires t < |s.tasks| && s.tasks[t].pc.Polling?
  {
    var task := s.tasks[t];
    match task.rec.state
    case Pending => s
    case Ready => Leave(s, t)
    case Idle => s.(tasks := s.tasks[t := task.(pc := Relocking(task.pc.call, task.pc.expired))])
  }

  function BeginStep(s: State, t: nat, call: Call): State
    requires t < |s.tasks|
  {
    var r := s.(tasks := s.tasks[t := s.tasks[t].(pc := Enter(call))]);
    if call.Send? then r.(submitted := s.submitted + multiset{call.msg}) else r
  }

  /** The record a waker's step writes becomes `owner`. */
  function TouchStep(s: State, w: nat, owner: Task): State
    requires w < |s.tasks| && s.tasks[w].pc.Handing? && s.tasks[w].pc.to < |s.tasks|
  {
    s.(tasks := Advance(s.tasks, w, owner))
  }

  function Step(s: State, e: Event): State
    requires Enabled(s, e)
  {
    match e
    case Begin(t, call) => BeginStep(s, t, call)
    case Go(t) => if s.tasks[t].pc.call.Send? then GoSend(s, t) else GoReceive(s, t)
    case Grab(t) => GrabStep(s, t)
    case Pend(t) => TouchStep(s, t, SetState(s.tasks[s.tasks[t].pc.to], Pending))
    case Wake(t) => TouchStep(s, t, Awake(s.tasks[s.tasks[t].pc.to]))
    case Publish(t) => TouchStep(s, t, SetState(s.tasks[s.tasks[t].pc.to], Ready))
    case Unlock(t) => UnlockStep(s, t)
    case Stir(t, expired) => s.(tasks := s.tasks[t := s.tasks[t].(pc := Polling(s.tasks[t].pc.call, expired))])
    case Poll(t) => PollStep(s, t)
    case Relock(t, signal) => RelockStep(s, t, signal)
  }

  // ---- What every reachable state satisfies

  /** How far the lock holder has come in waking t; -1 when it wakes nobody or
      somebody else. */
  function Stage(tasks: seq<Task>, lock: Lock, t: nat): int {
    if lock.By? && lock.task < |tasks| && tasks[lock.task].pc.Handing? && tasks[lock.task].pc.to == t
    then tasks[lock.task].pc.stage else -1
  }

  predicate RecOk(k: int, task: Task)
    requires Sleepy(task.pc)
  {
    && (k == -1 ==> if task.rec.listed then task.rec.state == Idle else task.rec.state == Ready)
    && (k == 0 ==> task.rec.listed && task.rec.state == Idle)
    && (k > 0 ==> !task.rec.listed)
    && (k == 1 ==> task.rec.state == Idle)
    && (2 <= k <= 3 ==> task.rec.state == Pending)
    && (k == 4 ==> task.rec.state == Ready)
    && (task.pc.call.Receive? ==> |task.rec.got| == if task.rec.listed then 0 else 1)
  }

  predicate TaskOk(tasks: seq<Task>, lock: Lock, t: nat)
    requires t < |tasks|
  {
    var k := Stage(tasks, lock, t);
    && -1 <= k <= 4
    && (tasks[t].pc.Handing? ==> lock == By(t))
    && (if Sleepy(tasks[t].pc) then RecOk(k, tasks[t]) else k == -1 || k == 4)
  }

  predicate TasksOk(tasks: seq<Task>, lock: Lock) {
    forall t :: 0 <= t < |tasks| ==> TaskOk(tasks, lock, t)
  }

  predicate Stands(task: Task, recv: bool) {
    Sleepy(task.pc) && task.pc.call.Receive? == recv && task.rec.listed
  }

  predicate Listed(tasks: seq<Task>, list: seq<Waiter>, recv: bool) {
    forall w :: w in list ==> w.body < |tasks| && w == Place(tasks, w.body) && Stands(tasks[w.body], recv)
  }

  predicate AllListed(tasks: seq<Task>, list: seq<Waiter>, recv: bool) {
    forall t :: 0 <= t < |tasks| && Stands(tasks[t], recv) ==> Place(tasks, t) in list
  }

  /** The wait list is the view of the arrival order of exactly those whose
      records are linked. */
  predicate LineOk(tasks: seq<Task>, l: Line, recv: bool) {
    && l.list == Sorted(l.came) && Distinct(l.came)
    && Listed(tasks, l.list, recv) && AllListed(tasks, l.list, recv)
  }

  predicate HolderOk(s: State) {
    s.lock.By? ==>
      && s.lock.task < |s.tasks|
      && var pc := s.tasks[s.lock.task].pc;
         && pc.Handing? && pc.to < |s.tasks| && pc.to != s.lock.task && 0 <= pc.stage <= 4
         && (pc.stage <= 3 ==> CanTouch(s, s.lock.task, pc.stage))
         && (pc.call.Receive? ==> |pc.mine| == 1)
         && (pc.stage == 0 ==> Stands(s.tasks[pc.to], pc.call.Send?))
  }

  /** A receiver has made room and is about to refill it from a sender. */
  predicate Refilling(s: State) {
    && s.lock.By? && s.lock.task < |s.tasks|
    && var pc := s.tasks[s.lock.task].pc;
       pc.Handing? && pc.call.Receive? && pc.stage == 0
  }

  /** Sleeping receivers mean an empty queue, sleeping senders a full one. */
  predicate QueueOk(s: State) {
    && s.queue == Sorted(s.arrived) && 1 <= s.cap
    && |s.queue| + (if Refilling(s) then 1 else 0) <= s.cap
    && (s.receivers.list != [] ==> s.queue == [] && !Refilling(s))
    && (s.senders.list != [] ==> |s.queue| + (if Refilling(s) then 1 else 0) == s.cap)
  }

  function One(call: Call, m: Msg): nat { if call.Send? && call.msg == m then 1 else 0 }

  /** How often a task answers for message m. */
  function Holding(task: Task, m: Msg): nat {
    match task.pc
    case Out => 0
    case Enter(call) => One(call, m)
    case Handing(call, _, stage, mine) =>
      if call.Receive? then multiset(mine)[m] else if stage == 0 then One(call, m) else 0
    case _ =>
      if task.pc.call.Receive? then multiset(task.rec.got)[m]
      else if task.rec.listed then One(task.pc.call, m) else 0
  }

  /** The message of a send that has not returned. */
  function Sending(task: Task, m: Msg): nat { if task.pc.Out? then 0 else One(task.pc.call, m) }

  function Held(tasks: seq<Task>, m: Msg): nat {
    if tasks == [] then 0 else Holding(tasks[0], m) + Held(tasks[1..], m)
  }

  function Open(tasks: seq<Task>, m: Msg): nat {
    if tasks == [] then 0 else Sending(tasks[0], m) + Open(tasks[1..], m)
  }

  /** Every copy of m is in exactly one place, and every send of m that returned
      said truly whether m was taken. */
  predicate BookOk(s: State, m: Msg) {
    && s.submitted[m] == Held(s.tasks, m) + multiset(s.queue)[m] + s.delivered[m] + s.dropped[m]
    && s.submitted[m] == Open(s.tasks, m) + s.sent[m] + s.dropped[m]
  }

  predicate Shape(s: State) { TasksOk(s.tasks, s.lock) && HolderOk(s) }

  predicate Lines(s: State) { LineOk(s.tasks, s.senders, false) && LineOk(s.tasks, s.receivers, true) }

  ghost predicate Conserved(s: State) { forall m :: BookOk(s, m) }

  ghost predicate Inv(s: State) { Shape(s) && Lines(s) && QueueOk(s) && Conserved(s) }

  predicate Fresh(s: State) {
    && s.cap >= 1 && s.queue == s.arrived == [] && s.senders == s.receivers == Line([], []) && s.lock.Free?
    && (forall t :: 0 <= t < |s.tasks| ==> s.tasks[t].pc.Out?)
    && s.submitted == s.sent == s.delivered == s.dropped == multiset{}
  }
}
