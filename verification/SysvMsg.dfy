/**
 System V message queues (ipc/msg.c): filtered receive, hand-over to sleeping
 receivers, and what every reachable queue satisfies.
 */
module SysvMsg {

  const LONG_MIN: int := -0x8000_0000_0000_0000
  const INT_MAX: int := 0x7fff_ffff

  datatype Msg = Msg(id: nat, kind: int, size: nat)

  datatype Mode = AnyType | Equal | NotEqual | LessEqual

  datatype Filter = Filter(mode: Mode, kind: int)

  /** A sleeping receiver. */
  datatype Receiver = Receiver(task: nat, filter: Filter, maxsize: int)

  // ---- Filters

  /** testmsg */
  predicate TestMsg(m: Msg, f: Filter) {
    match f.mode
    case AnyType => true
    case LessEqual => m.kind <= f.kind
    case Equal => m.kind == f.kind
    case NotEqual => m.kind != f.kind
  }

  /** Negation of a long: the most negative one is its own negation. */
  function Negated(x: int): int { if x == LONG_MIN then LONG_MIN else -x }

  /** convert_mode */
  function ConvertMode(msgtyp: int, except: bool): Filter {
    if msgtyp == 0 then Filter(AnyType, 0)
    else if msgtyp < 0 then Filter(LessEqual, Negated(msgtyp))
    else if except then Filter(NotEqual, msgtyp)
    else Filter(Equal, msgtyp)
  }

  /** What msgrcv() promises to accept. */
  predicate Wanted(m: Msg, msgtyp: int, except: bool) {
    if msgtyp == 0 then true
    else if msgtyp < 0 then m.kind <= -msgtyp
    else if except then m.kind != msgtyp
    else m.kind == msgtyp
  }

  predicate IsLong(x: int) { LONG_MIN <= x < -LONG_MIN }

  /** The filter accepts what msgrcv() promises for every valid message, except
      for the one message type argument that cannot be negated; then it accepts
      nothing. */
  lemma {:induction false} FilterMeansWanted(msgtyp: int, except: bool)
    requires IsLong(msgtyp)
    ensures (forall m: Msg :: 1 <= m.kind && IsLong(m.kind) ==> (TestMsg(m, ConvertMode(msgtyp, except)) <==> Wanted(m, msgtyp, except)))
            <==> msgtyp != LONG_MIN
    ensures msgtyp == LONG_MIN ==> forall m: Msg :: 1 <= m.kind ==> !TestMsg(m, ConvertMode(msgtyp, except))
  {
    if msgtyp == LONG_MIN {
      var m := Msg(0, 1, 0);
      assert Wanted(m, msgtyp, except) && !TestMsg(m, ConvertMode(msgtyp, except));
    }
  }

  // ---- Search

  /** Message j is to be preferred to message i. */
  predicate Better(ms: seq<Msg>, f: Filter, j: nat, i: nat)
    requires j < |ms| && i < |ms|
  {
    if f.mode.LessEqual? && ms[j].kind != ms[i].kind then ms[j].kind < ms[i].kind else j < i
  }

  /** i is the first accepted message, or for a bound the first one of the
      smallest accepted type. */
  ghost predicate IsChoice(ms: seq<Msg>, f: Filter, i: int) {
    if i < 0 then i == -1 && forall j :: 0 <= j < |ms| ==> !TestMsg(ms[j], f)
    else i < |ms| && TestMsg(ms[i], f) && forall j :: 0 <= j < |ms| && TestMsg(ms[j], f) ==> !Better(ms, f, j, i)
  }

  /** Best of the messages seen so far and the next one. */
  function Chosen(ms: seq<Msg>, f: Filter): (i: int)
    ensures -1 <= i < |ms|
  {
    if ms == [] then -1
    else
      var n := |ms| - 1;
      var i := Chosen(ms[..n], f);
      if TestMsg(ms[n], f) && (i == -1 || Better(ms, f, n, i)) then n else i
  }

  lemma {:induction false} ChosenIsChoice(ms: seq<Msg>, f: Filter)
    ensures IsChoice(ms, f, Chosen(ms, f))
  {
    if ms != [] {
      var n := |ms| - 1;
      var g := ms[..n];
      ChosenIsChoice(g, f);
      assert forall j :: 0 <= j < n ==> g[j] == ms[j];
      var i, k := Chosen(g, f), Chosen(ms, f);
      if k >= 0 {
        forall j | 0 <= j < |ms| && TestMsg(ms[j], f) ensures !Better(ms, f, j, k) {
          if j < n && i >= 0 { assert !Better(g, f, j, i); }
        }
      }
    }
  }

  lemma {:induction false} ChoiceUnique(ms: seq<Msg>, f: Filter, i: int)
    requires IsChoice(ms, f, i)
    ensures i == Chosen(ms, f)
  {
    ChosenIsChoice(ms, f);
    var k := Chosen(ms, f);
    if i >= 0 && k >= 0 {
      assert !Better(ms, f, i, k) && !Better(ms, f, k, i);
    }
  }

  /** The search loop of do_msgrcv: for a bound it lowers the bound below each
      message it finds, and stops at type 1. */
  method Search(ms: seq<Msg>, f: Filter) returns (found: int)
    requires forall i :: 0 <= i < |ms| ==> ms[i].kind >= 1
    ensures found == Chosen(ms, f)
  {
    found := -1;
    var bound := f.kind;
    var i := 0;
    while i < |ms|
      invariant 0 <= i <= |ms| && -1 <= found < i
      invariant IsChoice(ms[..i], f, found)
      invariant bound == if f.mode.LessEqual? && found >= 0 then ms[found].kind - 1 else f.kind
      invariant found >= 0 ==> f.mode.LessEqual? && ms[found].kind != 1 && ms[found].kind <= f.kind
    {
      ghost var seen := ms[..i];
      ghost var next := ms[..i + 1];
      assert forall j :: 0 <= j < i ==> next[j] == seen[j];
      assert next[i] == ms[i];
      if TestMsg(ms[i], Filter(f.mode, bound)) {
        NowBetter(ms, f, i, found, bound);
        found := i;
        if f.mode.LessEqual? && ms[i].kind != 1 {
          bound := ms[i].kind - 1;
        } else {
          StopsEarly(ms, f, i);
          ChoiceUnique(ms, f, i);
          return;
        }
      } else {
        StillBest(ms, f, i, found, bound);
      }
      i := i + 1;
    }
    assert ms[..i] == ms;
    ChoiceUnique(ms, f, found);
  }

  /** The narrowed bound accepts exactly what beats the best so far. */
  ghost predicate Narrowed(ms: seq<Msg>, f: Filter, i: nat, found: int, bound: int)
    requires i <= |ms|
  {
    && -1 <= found < i && IsChoice(ms[..i], f, found)
    && bound == (if f.mode.LessEqual? && found >= 0 then ms[found].kind - 1 else f.kind)
    && (found >= 0 ==> f.mode.LessEqual? && ms[found].kind <= f.kind)
  }

  lemma {:induction false} NowBetter(ms: seq<Msg>, f: Filter, i: nat, found: int, bound: int)
    requires i < |ms| && TestMsg(ms[i], Filter(f.mode, bound)) && Narrowed(ms, f, i, found, bound)
    ensures IsChoice(ms[..i + 1], f, i)
  {
    var seen, next := ms[..i], ms[..i + 1];
    assert forall j :: 0 <= j < i ==> next[j] == seen[j];
    forall j | 0 <= j < |next| && TestMsg(next[j], f) ensures !Better(next, f, j, i) {
      if j < i {
        assert TestMsg(seen[j], f);
        assert found >= 0 && !Better(seen, f, j, found);
      }
    }
  }

  lemma {:induction false} StillBest(ms: seq<Msg>, f: Filter, i: nat, found: int, bound: int)
    requires i < |ms| && !TestMsg(ms[i], Filter(f.mode, bound)) && Narrowed(ms, f, i, found, bound)
    ensures IsChoice(ms[..i + 1], f, found)
  {
    var seen, next := ms[..i], ms[..i + 1];
    assert forall j :: 0 <= j < i ==> next[j] == seen[j];
    if found >= 0 {
      forall j | 0 <= j < |next| && TestMsg(next[j], f) ensures !Better(next, f, j, found) {
        if j < i { assert !Better(seen, f, j, found); }
      }
    }
  }

  /** Nothing later can beat a first match, or a message of type 1. */
  lemma {:induction false} StopsEarly(ms: seq<Msg>, f: Filter, i: nat)
    requires forall j :: 0 <= j < |ms| ==> ms[j].kind >= 1
    requires i < |ms| && IsChoice(ms[..i + 1], f, i) && (!f.mode.LessEqual? || ms[i].kind == 1)
    ensures IsChoice(ms, f, i)
  {
    var next := ms[..i + 1];
    forall j | 0 <= j < |ms| && TestMsg(ms[j], f) ensures !Better(ms, f, j, i) {
      if j <= i { assert next[j] == ms[j] && !Better(next, f, j, i); }
    }
  }
}
