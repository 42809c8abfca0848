/**
 Reference semantics of a System V semaphore set: atomic multi-operation
 calls, and the slowest possible wake-up rule ("complete the first pending
 call that can complete, then start again from the head").  The code in
 `SemArray` is proved against this module.
 */
module SemSpec {

  const SEMVMX: int := 32767
  const SEMAEM: int := 32767

  datatype Option<+T> = None | Some(value: T)

  /** One element of the caller's operation array (struct sembuf). */
  datatype Sop = Sop(num: nat, op: int, nowait: bool, undo: bool)

  /** A sleeping call; `un` names the process undo array it uses, if any. */
  datatype Waiter = Waiter(id: nat, sops: seq<Sop>, un: Option<nat>, pid: int)

  datatype Errno = EAGAIN | ERANGE | EINVAL | EFBIG | E2BIG | EINTR

  /** What one attempt at a call yields. */
  datatype Outcome = Ok(vals: seq<int>) | Block | Fail(error: Errno)

  /** A wake-up: the sleeper and the result it is given (None is success). */
  datatype Wake = Wake(who: Waiter, error: Option<Errno>)

  datatype State = State(vals: seq<int>, pids: seq<int>, adj: map<nat, seq<int>>, pend: seq<Waiter>)

  /** Conversion of an int to a 16-bit signed short. */
  function Short(x: int): (r: int)
    ensures -32768 <= r <= 32767
    ensures -32768 <= x <= 32767 ==> r == x
    ensures (r - x) % 65536 == 0
  {
    (x + 32768) % 65536 - 32768
  }

  predicate InShort(x: int) { -SEMAEM - 1 <= x <= SEMAEM }

  predicate Alters(sops: seq<Sop>) {
    exists i :: 0 <= i < |sops| && sops[i].op != 0
  }

  predicate UsesUndo(sops: seq<Sop>) {
    exists i :: 0 <= i < |sops| && sops[i].undo
  }

  predicate InRange(sops: seq<Sop>, n: nat) {
    forall i :: 0 <= i < |sops| ==> sops[i].num < n
  }

  /** The undo row a call works on; a call without SEM_UNDO never reads it. */
  function Row(adj: map<nat, seq<int>>, un: Option<nat>, n: nat): (row: seq<int>)
    ensures |row| == n
  {
    if un.Some? && un.value in adj && |adj[un.value]| == n then adj[un.value] else seq(n, _ => 0)
  }

  /** All operations of a call, one after the other, or the first obstacle. */
  function Attempt(vals: seq<int>, row: seq<int>, sops: seq<Sop>): (r: Outcome)
    requires |row| == |vals| && InRange(sops, |vals|)
    ensures r.Ok? ==> |r.vals| == |vals|
    decreases |sops|
  {
    if sops == [] then Ok(vals)
    else
      var o := sops[0];
      var v := vals[o.num] + o.op;
      if (o.op == 0 && vals[o.num] != 0) || v < 0 then
        if o.nowait then Fail(EAGAIN) else Block
      else if v > SEMVMX then Fail(ERANGE)
      else if o.undo && !InShort(row[o.num] - o.op) then Fail(ERANGE)
      else Attempt(vals[o.num := v], row, sops[1..])
  }

  /** The undo bookkeeping of a successful call, last operation first. */
  function CommitRow(row: seq<int>, sops: seq<Sop>): (r: seq<int>)
    requires InRange(sops, |row|)
    ensures |r| == |row|
    decreases |sops|
  {
    if sops == [] then row
    else
      var o := sops[|sops| - 1];
      var rest := sops[..|sops| - 1];
      CommitRow(if o.undo then row[o.num := Short(row[o.num] - o.op)] else row, rest)
  }

  function CommitPids(pids: seq<int>, sops: seq<Sop>, pid: int): (r: seq<int>)
    requires InRange(sops, |pids|)
    ensures |r| == |pids|
    decreases |sops|
  {
    if sops == [] then pids
    else CommitPids(pids[sops[|sops| - 1].num := pid], sops[..|sops| - 1], pid)
  }

  // ---- Well-formed states

  predicate WaiterOk(s: State, w: Waiter) {
    && w.sops != []
    && InRange(w.sops, |s.vals|)
    && (UsesUndo(w.sops) ==> w.un.Some? && w.un.value in s.adj)
    && (|w.sops| == 1 ==> w.sops[0].op <= 0 && !w.sops[0].nowait)
  }

  predicate RowsOk(s: State) {
    forall u :: u in s.adj ==>
                  |s.adj[u]| == |s.vals| && forall i :: 0 <= i < |s.vals| ==> InShort(s.adj[u][i])
  }

  predicate ValsOk(s: State) {
    |s.pids| == |s.vals| && forall i :: 0 <= i < |s.vals| ==> 0 <= s.vals[i] <= SEMVMX
  }

  predicate Distinct(p: seq<Waiter>) {
    forall i, j :: 0 <= i < j < |p| ==> p[i].id != p[j].id
  }

  /** Calls that change nothing (waiting for zeros) come before all others. */
  predicate ZerosFirst(p: seq<Waiter>) {
    forall i, j :: 0 <= i < j < |p| && Alters(p[i].sops) ==> Alters(p[j].sops)
  }

  predicate Inv(s: State) {
    && ValsOk(s)
    && RowsOk(s)
    && (forall i :: 0 <= i < |s.pend| ==> WaiterOk(s, s.pend[i]))
    && Distinct(s.pend)
    && ZerosFirst(s.pend)
  }

  // ---- Attempts against a state

  function Try(s: State, w: Waiter): (r: Outcome)
    requires InRange(w.sops, |s.vals|)
    ensures r.Ok? ==> |r.vals| == |s.vals|
  {
    Attempt(s.vals, Row(s.adj, w.un, |s.vals|), w.sops)
  }

  predicate Blocks(s: State, w: Waiter) {
    InRange(w.sops, |s.vals|) && Try(s, w).Block?
  }

  /** The state after a successful attempt. */
  function Done(s: State, w: Waiter): (r: State)
    requires ValsOk(s) && InRange(w.sops, |s.vals|) && Try(s, w).Ok?
    ensures |r.vals| == |s.vals| && |r.pids| == |s.pids| && r.pend == s.pend
  {
    State(Try(s, w).vals,
          CommitPids(s.pids, w.sops, w.pid),
          if w.un.Some? && w.un.value in s.adj
          then s.adj[w.un.value := CommitRow(Row(s.adj, w.un, |s.vals|), w.sops)]
          else s.adj,
          s.pend)
  }

  // ---- The pending list

  function Without(p: seq<Waiter>, w: Waiter): (r: seq<Waiter>)
    ensures w in p ==> |r| == |p| - 1
    ensures w !in p ==> r == p
  {
    if p == [] then []
    else if p[0] == w then p[1..]
    else [p[0]] + Without(p[1..], w)
  }

  predicate Simple(w: Waiter) { |w.sops| == 1 }

  predicate OnSem(w: Waiter, n: nat) { |w.sops| == 1 && w.sops[0].num == n }

  /** Which sleepers a wake-up pass looks at: all, or the single-operation
      sleepers of one semaphore. */
  predicate Eligible(w: Waiter, only: Option<nat>) {
    only.Some? ==> OnSem(w, only.value)
  }

  function First(s: State, p: seq<Waiter>, only: Option<nat>): (r: Option<Waiter>)
    ensures r.Some? ==> r.value in p && Eligible(r.value, only) && !Blocks(s, r.value)
    ensures r.None? ==> forall i :: 0 <= i < |p| && Eligible(p[i], only) ==> Blocks(s, p[i])
  {
    if p == [] then None
    else if Eligible(p[0], only) && !Blocks(s, p[0]) then Some(p[0])
    else First(s, p[1..], only)
  }

  /** Complete one pending call: it leaves the list, with or without effect. */
  function Complete(s: State, w: Waiter): (r: State)
    requires ValsOk(s) && InRange(w.sops, |s.vals|) && w in s.pend
    ensures |r.pend| == |s.pend| - 1 && |r.vals| == |s.vals| && |r.pids| == |s.pids|
  {
    var t := if Try(s, w).Ok? then Done(s, w) else s;
    t.(pend := Without(s.pend, w))
  }

  function Verdict(s: State, w: Waiter): Wake
    requires InRange(w.sops, |s.vals|)
  {
    Wake(w, if Try(s, w).Fail? then Some(Try(s, w).error) else None)
  }

  datatype Settled = Settled(state: State, log: seq<Wake>)
}
