/** The handle of a spawned scan: a cancellation token and, once, a task. */
module ScanHandles {
  import opened Wrappers
  import opened Scanning

  class CancellationToken {
    var cancelled: bool

    constructor ()
      ensures !cancelled
    {
      cancelled := false;
    }

    method Cancel()
      modifies this
      ensures cancelled
    {
      cancelled := true;
    }
  }

  /** A spawned task, with a count of how often it was awaited to its end or aborted. */
  class Task {
    ghost var awaited: nat
    ghost var aborted: nat

    constructor ()
      ensures awaited == 0 && aborted == 0
    {
      awaited, aborted := 0, 0;
    }
  }

  /** How the task ended when it is awaited: with its own outcome, or without one. */
  datatype Exit = Returned(outcome: Outcome) | Vanished

  /** The handle seen from outside: the token, the task still held, and what was done to the task. */
  datatype View = View(cancelled: bool, held: bool, awaited: nat, aborted: nat)

  datatype Op =
    | Join(exit: Exit)
    | JoinDropped
    | Cancel
    | Stop(exit: Exit)
    | StopDropped
    | Drop

  function Effect(v: View, op: Op): View {
    match op
    case Join(_) => if v.held then v.(held := false, awaited := v.awaited + 1) else v
    case JoinDropped => v
    case Cancel => v.(cancelled := true)
    case Stop(_) => if v.held then View(true, false, v.awaited + 1, v.aborted) else v.(cancelled := true)
    case StopDropped => v.(cancelled := true, held := false)
    case Drop => if v.held then View(true, false, v.awaited, v.aborted + 1) else v.(cancelled := true)
  }

  class ScanHandle {
    const token: CancellationToken
    const task: Task
    var inner: Option<Task>

    ghost predicate Valid()
      reads this
    {
      inner.Some? ==> inner.value == task
    }

    ghost function Seen(): View
      reads this, token, task
    {
      View(token.cancelled, inner.Some?, task.awaited, task.aborted)
    }

    constructor (token: CancellationToken, task: Task)
      ensures Valid() && this.token == token && this.task == task
      ensures Seen() == View(token.cancelled, true, task.awaited, task.aborted)
    {
      this.token := token;
      this.task := task;
      this.inner := Some(task);
    }

    /** Await the task; the handle is cleared only once it has ended. */
    method Join(exit: Exit) returns (r: Outcome)
      requires Valid()
      modifies this, task
      ensures Valid() && Seen() == Effect(old(Seen()), Op.Join(exit))
      ensures r == if old(inner).None? then Ok else if exit.Vanished? then Err(ScanAborted) else exit.outcome
    {
      match inner {
        case None => r := Ok;
        case Some(t) =>
          t.awaited := t.awaited + 1;
          r := if exit.Vanished? then Err(ScanAborted) else exit.outcome;
          inner := None;
      }
    }

    /** Cancel without waiting. */
    method Cancel()
      requires Valid()
      modifies token
      ensures Valid() && Seen() == Effect(old(Seen()), Op.Cancel)
    {
      token.Cancel();
    }

    /** Cancel, take the task and await it; `finished` is false if the caller drops the call before the task ends. */
    method Stop(exit: Exit, finished: bool)
      requires Valid()
      modifies this, token, task
      ensures Valid() && Seen() == Effect(old(Seen()), if finished then Op.Stop(exit) else StopDropped)
    {
      token.Cancel();
      if inner.Some? {
        var taken := inner.value;
        inner := None;
        if finished {
          taken.awaited := taken.awaited + 1;
        }
      }
    }

    /** The destructor. */
    method Drop()
      requires Valid()
      modifies this, token, task
      ensures Valid() && Seen() == Effect(old(Seen()), Op.Drop)
    {
      token.Cancel();
      if inner.Some? {
        var taken := inner.value;
        inner := None;
        taken.aborted := taken.aborted + 1;
      }
    }
  }

  // ---- Sequences of operations

  function After(v: View, ops: seq<Op>): View {
    if ops == [] then v else Effect(After(v, ops[..|ops| - 1]), ops[|ops| - 1])
  }

  /** Operations that keep the task held. */
  predicate Keeps(op: Op) { op.JoinDropped? || op.Cancel? }

  predicate Cancels(op: Op) { op.Cancel? || op.Stop? || op.StopDropped? || op.Drop? }

  /** The operation at position k is the first to take the task. */
  ghost predicate TakesFirst(ops: seq<Op>, k: nat) {
    k < |ops| && !Keeps(ops[k]) && forall j :: 0 <= j < k ==> Keeps(ops[j])
  }

  /** A join or a stop that came to its end took the task first. */
  ghost predicate AwaitedFirst(ops: seq<Op>) {
    exists k: nat :: TakesFirst(ops, k) && (ops[k].Join? || ops[k].Stop?)
  }

  /** The destructor took the task first. */
  ghost predicate DropFirst(ops: seq<Op>) {
    exists k: nat :: TakesFirst(ops, k) && ops[k].Drop?
  }

  /** A stop that its caller dropped took the task first. */
  ghost predicate DroppedStopFirst(ops: seq<Op>) {
    exists k: nat :: TakesFirst(ops, k) && ops[k].StopDropped?
  }

  lemma {:induction false} OneTakesFirst(ops: seq<Op>, k: nat)
    requires TakesFirst(ops, k)
    ensures AwaitedFirst(ops) <==> ops[k].Join? || ops[k].Stop?
    ensures DropFirst(ops) <==> ops[k].Drop?
    ensures DroppedStopFirst(ops) <==> ops[k].StopDropped?
  {
    assert forall m: nat :: TakesFirst(ops, m) ==> m == k;
  }

  /** What the first operation to take the task does to it stays done, and nothing else is. */
  lemma {:induction false} TakenOnce(ops: seq<Op>)
    returns (k: nat)
    ensures k <= |ops| && (k < |ops| ==> TakesFirst(ops, k)) && forall j :: 0 <= j < k ==> Keeps(ops[j])
    ensures var v := After(View(false, true, 0, 0), ops);
            && (v.held <==> k == |ops|)
            && v.awaited == (if k < |ops| && (ops[k].Join? || ops[k].Stop?) then 1 else 0)
            && v.aborted == (if k < |ops| && ops[k].Drop? then 1 else 0)
    decreases |ops|
  {
    k := 0;
    if ops != [] {
      var init := ops[..|ops| - 1];
      k := TakenOnce(init);
      assert forall j :: 0 <= j < |init| ==> init[j] == ops[j];
      if k == |init| && Keeps(ops[k]) {
        k := |ops|;
      }
    }
  }

  lemma {:induction false} TokenStaysCancelled(ops: seq<Op>)
    ensures After(View(false, true, 0, 0), ops).cancelled <==> exists k :: 0 <= k < |ops| && Cancels(ops[k])
    decreases |ops|
  {
    if ops != [] {
      var init := ops[..|ops| - 1];
      TokenStaysCancelled(init);
      if k: nat :| k < |init| && Cancels(init[k]) {
        assert Cancels(ops[k]);
      }
      if k: nat :| k < |ops| && Cancels(ops[k]) {
        assert k < |init| ==> Cancels(init[k]);
      }
    }
  }

  /**
    A fresh handle's task is awaited to its end or aborted at most once, however
    the handle is used; it is held exactly as long as nothing but dropped joins
    and plain cancels happened; and the token is cancelled for good from the
    first stop, drop or cancel on. It was awaited exactly if a finished join or
    stop was the first operation to take it, aborted exactly if the destructor
    was, and is neither held nor awaited nor aborted exactly if a stop dropped by
    its caller was.
   */
  lemma {:induction false} HandleIsLinear(ops: seq<Op>)
    ensures var v := After(View(false, true, 0, 0), ops);
            && v.awaited + v.aborted <= 1
            && (v.held <==> forall k :: 0 <= k < |ops| ==> Keeps(ops[k]))
            && (v.held ==> v.awaited + v.aborted == 0)
            && (v.cancelled <==> exists k :: 0 <= k < |ops| && Cancels(ops[k]))
            && (v.awaited == 1 <==> AwaitedFirst(ops)) && (v.aborted == 1 <==> DropFirst(ops))
            && (v.awaited + v.aborted == 0 && !v.held <==> DroppedStopFirst(ops))
  {
    hide After, AwaitedFirst, DropFirst, DroppedStopFirst;
    TokenStaysCancelled(ops);
    var k := TakenOnce(ops);
    if k < |ops| {
      OneTakesFirst(ops, k);
    } else {
      NoneTakesFirst(ops);
    }
  }

  lemma {:induction false} NoneTakesFirst(ops: seq<Op>)
    requires forall j :: 0 <= j < |ops| ==> Keeps(ops[j])
    ensures !AwaitedFirst(ops) && !DropFirst(ops) && !DroppedStopFirst(ops)
  {
  }

  /** A join dropped midway leaves the task for a later stop, which awaits it. */
  lemma {:induction false} DroppedJoinLeavesTask(ops: seq<Op>, exit: Exit)
    requires forall k :: 0 <= k < |ops| ==> Keeps(ops[k])
    ensures var v := After(View(false, true, 0, 0), ops + [Op.Stop(exit)]);
            v.cancelled && !v.held && v.awaited == 1 && v.aborted == 0
  {
    HandleIsLinear(ops);
    assert (ops + [Op.Stop(exit)])[..|ops|] == ops;
  }
}
