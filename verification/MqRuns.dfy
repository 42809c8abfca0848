/**
 What holds in every run of senders, receivers, timeouts and signals on a POSIX
 message queue (ipc/mqueue.c).
 */
module MqRuns {
  import opened PrioList
  import opened MqQueue
  import opened MqProtocol
  import opened MqProofs

  ghost predicate LegalRun(s: State, run: seq<Event>)
    decreases |run|
  {
    run == [] || (Enabled(s, run[0]) && LegalRun(Step(s, run[0]), run[1..]))
  }

  ghost function Run(s: State, run: seq<Event>): State
    requires LegalRun(s, run)
    decreases |run|
  {
    if run == [] then s else Run(Step(s, run[0]), run[1..])
  }

  lemma {:induction false} NothingHeld(tasks: seq<Task>, m: Msg)
    requires forall t :: 0 <= t < |tasks| ==> tasks[t].pc.Out?
    ensures Held(tasks, m) == 0 && Open(tasks, m) == 0
  {
    if tasks != [] { NothingHeld(tasks[1..], m); }
  }

  lemma {:induction false} FreshInv(s: State)
    requires Fresh(s)
    ensures Inv(s)
  {
    forall m ensures BookOk(s, m) { NothingHeld(s.tasks, m); }
    assert Sorted<Text>([]) == [] && Sorted<nat>([]) == [];
  }

  lemma {:induction false} RunKeeps(s: State, run: seq<Event>)
    requires Inv(s) && LegalRun(s, run)
    ensures Inv(Run(s, run))
    decreases |run|
  {
    if run != [] {
      StepKeeps(s, run[0]);
      RunKeeps(Step(s, run[0]), run[1..]);
    }
  }

  // ---- Wait records

  /** What the holder of the lock does next. */
  function Next(w: nat, stage: int): Event {
    if stage == 0 then Grab(w) else if stage == 1 then Pend(w) else if stage == 2 then Wake(w)
    else if stage == 3 then Publish(w) else Unlock(w)
  }

  /** Whenever a waker is about to touch a wait record, the record's owner is
      still inside wq_sleep, so the waker's next step is always possible. */
  lemma {:induction false} WakerNeverTouchesTheDead(s: State, run: seq<Event>)
    requires Fresh(s) && LegalRun(s, run) && Run(s, run).lock.By?
    ensures var r := Run(s, run);
            var w := r.lock.task;
            && w < |r.tasks| && r.tasks[w].pc.Handing?
            && Enabled(r, Next(w, r.tasks[w].pc.stage))
            && (r.tasks[w].pc.stage <= 3 ==> r.tasks[w].pc.to < |r.tasks| && Sleepy(r.tasks[r.tasks[w].pc.to].pc))
  {
    FreshInv(s);
    RunKeeps(s, run);
  }

  /** A task spins only while a waker that holds the lock is about to let it go. */
  lemma {:induction false} SpinningEnds(s: State, run: seq<Event>, t: nat)
    requires Fresh(s) && LegalRun(s, run)
    requires var r := Run(s, run);
             t < |r.tasks| && Sleepy(r.tasks[t].pc) && r.tasks[t].rec.state == Pending
    ensures var r := Run(s, run);
            && r.lock.By? && r.lock.task < |r.tasks|
            && var pc := r.tasks[r.lock.task].pc;
               pc.Handing? && pc.to == t && 2 <= pc.stage <= 3
  {
    FreshInv(s);
    RunKeeps(s, run);
    assert TaskOk(Run(s, run).tasks, Run(s, run).lock, t);
  }

  /** A task that gives up under the lock is still in the wait list it unlinks
      itself from. */
  lemma {:induction false} GivingUpIsLinked(s: State, run: seq<Event>, t: nat)
    requires Fresh(s) && LegalRun(s, run)
    requires var r := Run(s, run);
             t < |r.tasks| && r.tasks[t].pc.Relocking? && r.lock.Free? && r.tasks[t].rec.state != Ready
    ensures var r := Run(s, run);
            Place(r.tasks, t) in if r.tasks[t].pc.call.Receive? then r.receivers.list else r.senders.list
  {
    FreshInv(s);
    RunKeeps(s, run);
    var r := Run(s, run);
    assert TaskOk(r.tasks, r.lock, t);
    assert Stands(r.tasks[t], r.tasks[t].pc.call.Receive?);
  }

  // ---- Messages

  /** Every copy of a message that was ever submitted is in exactly one place:
      with a sender, in the queue, with a receiver, delivered, or freed by a
      failed send. */
  lemma {:induction false} EveryMessageInOnePlace(s: State, run: seq<Event>, m: Msg)
    requires Fresh(s) && LegalRun(s, run)
    ensures var r := Run(s, run);
            r.submitted[m] == Held(r.tasks, m) + multiset(r.queue)[m] + r.delivered[m] + r.dropped[m]
  {
    FreshInv(s);
    RunKeeps(s, run);
    assert BookOk(Run(s, run), m);
  }

  /** The message of a failed send is never delivered, and is nowhere. */
  lemma {:induction false} FailedSendNeverDelivered(s: State, run: seq<Event>, m: Msg)
    requires Fresh(s) && LegalRun(s, run)
    requires Run(s, run).submitted[m] == 1 && m in Run(s, run).dropped
    ensures var r := Run(s, run);
            m !in r.delivered && m !in r.queue && m !in r.sent && Held(r.tasks, m) == 0
  {
    FreshInv(s);
    RunKeeps(s, run);
    assert BookOk(Run(s, run), m);
  }

  lemma {:induction false} SomebodyHolds(tasks: seq<Task>, m: Msg) returns (t: nat)
    requires Held(tasks, m) > 0
    ensures t < |tasks| && Holding(tasks[t], m) > 0
  {
    if Holding(tasks[0], m) > 0 {
      t := 0;
    } else {
      t := SomebodyHolds(tasks[1..], m);
      t := t + 1;
    }
  }

  lemma {:induction false} SendingCounts(tasks: seq<Task>, m: Msg, t: nat)
    requires t < |tasks|
    ensures Sending(tasks[t], m) <= Open(tasks, m)
  {
    if t > 0 { SendingCounts(tasks[1..], m, t - 1); }
  }

  /** A message whose send returned success is queued, delivered, or in the
      hands of exactly one receiver. */
  lemma {:induction false} SentMessageIsSomewhere(s: State, run: seq<Event>, m: Msg)
    requires Fresh(s) && LegalRun(s, run)
    requires Run(s, run).submitted[m] == 1 && m in Run(s, run).sent
    ensures var r := Run(s, run);
            && m !in r.dropped && Held(r.tasks, m) + multiset(r.queue)[m] + r.delivered[m] == 1
            && (Held(r.tasks, m) > 0 ==>
                exists t :: 0 <= t < |r.tasks| && Holding(r.tasks[t], m) > 0 && !r.tasks[t].pc.Out? && r.tasks[t].pc.call.Receive?)
  {
    FreshInv(s);
    RunKeeps(s, run);
    var r := Run(s, run);
    assert BookOk(r, m);
    if Held(r.tasks, m) > 0 {
      var t := SomebodyHolds(r.tasks, m);
      SendingCounts(r.tasks, m, t);
    }
  }

  // ---- Order

  /** While the lock is free, tasks wait to send only on a full queue and wait to
      receive only on an empty one. */
  lemma {:induction false} WaitersMeanFullOrEmpty(s: State, run: seq<Event>)
    requires Fresh(s) && LegalRun(s, run) && Run(s, run).lock.Free?
    ensures var r := Run(s, run);
            (r.senders.list != [] ==> |r.queue| == r.cap) && (r.receivers.list != [] ==> r.queue == [])
  {
    FreshInv(s);
    RunKeeps(s, run);
  }

  /** Whenever a receiver finds a message, it is of the highest priority of all
      queued messages and older than the others of that priority. */
  lemma {:induction false} HighestPriorityOldestFirst(s: State, run: seq<Event>, t: nat)
    requires Fresh(s) && LegalRun(s, run)
    requires Enabled(Run(s, run), Go(t)) && Run(s, run).tasks[t].pc.call.Receive? && Run(s, run).queue != []
    ensures Run(s, run).arrived != []
    ensures var r := Run(s, run);
            var r', b := Step(r, Go(t)), Best(r.arrived);
            && (forall j :: 0 <= j < |r.arrived| ==> r.arrived[j].key <= r.arrived[b].key)
            && (forall j :: 0 <= j < b ==> r.arrived[j].key < r.arrived[b].key)
            && multiset(r.queue) == multiset(r.arrived) && r'.arrived == r.arrived[..b] + r.arrived[b + 1..]
            && (if r'.tasks[t].pc.Handing? then r'.tasks[t].pc.mine == [r.arrived[b]]
                else r'.delivered == r.delivered + multiset{r.arrived[b]})
  {
    FreshInv(s);
    RunKeeps(s, run);
    var r := Run(s, run);
    SortedAscends(r.arrived);
    QueueShrinks(r.queue, r.arrived, |r.queue| - 1);
    BestIsOldest(r.arrived);
  }

  /** Of all that came to wait, `to` has the smallest static_prio and came first
      among those. */
  predicate BestAt(tasks: seq<Task>, came: seq<Waiter>, to: nat, b: nat) {
    && b < |came| && came[b].body == to && to < |tasks| && came[b].key == -tasks[to].prio
    && (forall j :: 0 <= j < |came| ==> came[j].key <= came[b].key)
    && (forall j :: 0 <= j < b ==> came[j].key < came[b].key)
  }

  ghost predicate IsBest(tasks: seq<Task>, came: seq<Waiter>, to: nat) { exists b: nat :: BestAt(tasks, came, to, b) }

  lemma {:induction false} TailIsBest(tasks: seq<Task>, l: Line, recv: bool)
    requires LineOk(tasks, l, recv) && l.list != []
    ensures IsBest(tasks, l.came, l.list[|l.list| - 1].body)
  {
    ServesBest(l.came);
    BestIsOldest(l.came);
    var w := l.list[|l.list| - 1];
    assert w in l.list && l.came[Best(l.came)] == w;
    assert BestAt(tasks, l.came, w.body, Best(l.came));
  }

  /** Whoever is woken has the best (smallest) static_prio of all that wait, and
      has waited longest among those. */
  lemma {:induction false} BestWaiterFirst(s: State, run: seq<Event>, t: nat)
    requires Fresh(s) && LegalRun(s, run)
    requires Enabled(Run(s, run), Go(t)) && Step(Run(s, run), Go(t)).tasks[t].pc.Handing?
    ensures var r := Run(s, run);
            IsBest(r.tasks, if r.tasks[t].pc.call.Send? then r.receivers.came else r.senders.came,
                   Step(r, Go(t)).tasks[t].pc.to)
  {
    FreshInv(s);
    RunKeeps(s, run);
    var r := Run(s, run);
    var l := if r.tasks[t].pc.call.Send? then r.receivers else r.senders;
    TailIsBest(r.tasks, l, r.tasks[t].pc.call.Send?);
  }
}
