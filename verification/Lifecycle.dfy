/**
  The node's lifecycle: `run`, the polling task, the shutdown task and callers
  of `shutdown` interleave freely and write one watched state.
 */
module Lifecycle {
  import opened Wrappers
  import opened Fsm

  /** Every value the watched state has had; the last one is current. */
  type Trace = t: seq<State> | |t| > 0 witness [Inactive]

  function Current(t: Trace): State {
    t[|t| - 1]
  }

  /** `send_replace` */
  function Replaced(t: Trace, s: State): Trace { t + [s] }

  /** One poll's `send_if_modified`: never out of ShuttingDown, and only on a change. */
  function Polled1(t: Trace, r: Reading): Trace {
    if Current(t).ShuttingDown? || ComputeNextState(Current(t), r) == Current(t) then t
    else t + [ComputeNextState(Current(t), r)]
  }

  // ---- The polling task as a loop

  /** What one turn of the polling task observes; a height that cannot be read is `None`. */
  datatype PollTurn =
    | Stop
    | Turn(wireReady: bool, chain: Option<U32>, node: Option<U32>, filter: Option<U32>)

  /** The readings that a sequence of turns gets to publish. */
  function Readings(turns: seq<PollTurn>): seq<Reading> {
    if turns == [] || turns[0].Stop? then []
    else
      var t := turns[0];
      var rest := Readings(turns[1..]);
      if t.chain.Some? && t.node.Some? && t.filter.Some?
      then [Reading(t.wireReady, t.node.value, t.chain.value, t.filter.value)] + rest else rest
  }

  function PolledAll(t: Trace, rs: seq<Reading>): Trace
    decreases |rs|
  {
    if rs == [] then t else PolledAll(Polled1(t, rs[0]), rs[1..])
  }

  class StateChannel {
    var value: State
    ghost var trace: Trace

    ghost predicate Valid()
      reads this
    {
      value == Current(trace)
    }

    constructor ()
      ensures Valid() && trace == [Inactive]
    {
      value := Inactive;
      trace := [Inactive];
    }

    method SendReplace(s: State)
      requires Valid()
      modifies this
      ensures Valid() && trace == Replaced(old(trace), s)
    {
      value := s;
      trace := trace + [s];
    }

    method SendIfModified(r: Reading) returns (modified: bool)
      requires Valid()
      modifies this
      ensures Valid() && trace == Polled1(old(trace), r)
      ensures modified <==> trace != old(trace)
    {
      if value.ShuttingDown? {
        return false;
      }
      var next := ComputeNextState(value, r);
      if value == next {
        return false;
      }
      value := next;
      trace := trace + [next];
      modified := true;
    }

    /** The state update task, until it stops or its turns run out. */
    method StateUpdateTask(turns: seq<PollTurn>)
      requires Valid()
      modifies this
      ensures Valid() && trace == PolledAll(old(trace), Readings(turns))
    {
      var i := 0;
      while i < |turns|
        invariant 0 <= i <= |turns| && Valid()
        invariant PolledAll(trace, Readings(turns[i..])) == PolledAll(old(trace), Readings(turns))
      {
        var turn := turns[i];
        assert turns[i..][1..] == turns[i + 1..];
        i := i + 1;
        if turn.Stop? {
          return;
        }
        if turn.chain.None? || turn.node.None? || turn.filter.None? {
          continue;
        }
        var _ := SendIfModified(Reading(turn.wireReady, turn.node.value, turn.chain.value, turn.filter.value));
      }
      assert turns[i..] == [];
    }
  }

  /** From an active state the task publishes what the stage rule says, so its last value is that of a poll run. */
  lemma {:induction false} TaskFollowsStages(t: Trace, rs: seq<Reading>)
    requires Polled(Current(t))
    ensures Current(PolledAll(t, rs)) == PollRun(Current(t), rs)
    decreases |rs|
  {
    if rs != [] {
      TaskFollowsStages(Polled1(t, rs[0]), rs[1..]);
      PollRunFirst(Current(t), rs);
    }
  }

  lemma {:induction false} PollRunFirst(s: State, rs: seq<Reading>)
    requires rs != []
    ensures PollRun(s, rs) == PollRun(ComputeNextState(s, rs[0]), rs[1..])
    decreases |rs|
  {
    if |rs| == 1 {
      assert rs[..0] == [] && rs[1..] == [];
    } else {
      var init := rs[..|rs| - 1];
      PollRunFirst(s, init);
      assert init[1..] == rs[1..][..|rs| - 2];
    }
  }

  /** Every state published on the way is kept, and stays published. */
  lemma {:induction false} PublishedStays(t: Trace, rs: seq<Reading>, n: nat)
    requires n <= |rs|
    ensures t <= PolledAll(t, rs[..n]) <= PolledAll(t, rs)
    decreases |rs|
  {
    hide ComputeNextState;
    if n > 0 {
      assert rs[..n][1..] == rs[1..][..n - 1];
      PublishedStays(Polled1(t, rs[0]), rs[1..], n - 1);
    } else if rs != [] {
      PublishedStays(Polled1(t, rs[0]), rs[1..], 0);
    }
  }

  /** Only changes are published, and nothing is once the node is shutting down or not running. */
  lemma {:induction false} OnlyChangesPublished(t: Trace, rs: seq<Reading>)
    ensures var u := PolledAll(t, rs);
            && t <= u && (forall k :: |t| <= k < |u| ==> u[k] != u[k - 1])
            && (Current(t) == ShuttingDown || Current(t) == Inactive ==> u == t)
    decreases |rs|
  {
    if rs != [] {
      hide PolledAll;
      var next := Polled1(t, rs[0]);
      assert PolledAll(t, rs) == PolledAll(next, rs[1..]) by { PollFirst(t, rs); }
      OnlyChangesPublished(next, rs[1..]);
    }
  }

  lemma {:induction false} PollFirst(t: Trace, rs: seq<Reading>)
    requires rs != []
    ensures PolledAll(t, rs) == PolledAll(Polled1(t, rs[0]), rs[1..])
  {
  }

  // ---- What the task reads

  /** All three heights of this turn could be read. */
  predicate Complete(turn: PollTurn) {
    turn.Turn? && turn.chain.Some? && turn.node.Some? && turn.filter.Some?
  }

  /** The task gets to this turn, and the turn is complete. */
  ghost predicate Counts(turns: seq<PollTurn>, k: nat) {
    k < |turns| && Complete(turns[k]) && forall j :: 0 <= j <= k ==> !turns[j].Stop?
  }

  /** The reading says of the wire and of each height what this turn observed of it. */
  predicate ReadingOf(r: Reading, turn: PollTurn) {
    && Complete(turn)
    && r.wireReady == turn.wireReady && r.chain == turn.chain.value
    && r.node == turn.node.value && r.filter == turn.filter.value
  }

  /** The complete turns from position k on, up to the first stop. */
  function CountingFrom(turns: seq<PollTurn>, k: nat): (at: seq<nat>)
    requires k <= |turns|
    ensures forall m :: 0 <= m < |at| ==> k <= at[m] < |turns|
    decreases |turns| - k
  {
    if k == |turns| || turns[k].Stop? then []
    else (if Complete(turns[k]) then [k] else []) + CountingFrom(turns, k + 1)
  }

  lemma {:induction false} CountingExactly(turns: seq<PollTurn>, k: nat)
    requires k <= |turns| && forall j :: 0 <= j < k ==> !turns[j].Stop?
    ensures var at := CountingFrom(turns, k);
            && (forall i, j :: 0 <= i < j < |at| ==> at[i] < at[j])
            && (forall n: nat :: n in at <==> k <= n && Counts(turns, n))
    decreases |turns| - k
  {
    if k == |turns| || turns[k].Stop? {
      assert forall n: nat :: Counts(turns, n) ==> n < k;
    } else {
      CountingExactly(turns, k + 1);
      assert Counts(turns, k) <==> Complete(turns[k]);
      var at, rest := CountingFrom(turns, k), CountingFrom(turns, k + 1);
      forall n: nat ensures n in at <==> k <= n && Counts(turns, n) {
        assert n in at <==> (n == k && Complete(turns[k])) || n in rest;
      }
    }
  }

  /** The reading of a complete turn. */
  function ReadTurn(turn: PollTurn): Reading
    requires Complete(turn)
  {
    Reading(turn.wireReady, turn.node.value, turn.chain.value, turn.filter.value)
  }

  lemma {:induction false} ReadingsFrom(turns: seq<PollTurn>, k: nat)
    requires k < |turns| && !turns[k].Stop?
    ensures Readings(turns[k..]) ==
            (if Complete(turns[k]) then [ReadTurn(turns[k])] else []) + Readings(turns[k + 1..])
  {
    assert turns[k..][1..] == turns[k + 1..] && turns[k..][0] == turns[k];
  }

  lemma {:induction false} ReadingsOfCounting(turns: seq<PollTurn>, k: nat)
    requires k <= |turns|
    ensures var at, rs := CountingFrom(turns, k), Readings(turns[k..]);
            |at| == |rs| && forall m :: 0 <= m < |at| ==> ReadingOf(rs[m], turns[at[m]])
    decreases |turns| - k
  {
    if k < |turns| && !turns[k].Stop? {
      hide Readings;
      ReadingsFrom(turns, k);
      ReadingsOfCounting(turns, k + 1);
      var at, rs := CountingFrom(turns, k + 1), Readings(turns[k + 1..]);
      if Complete(turns[k]) {
        assert CountingFrom(turns, k) == [k] + at && Readings(turns[k..]) == [ReadTurn(turns[k])] + rs;
      }
    }
  }

  /** The readings are those of the complete turns before the first stop, each with its own values, in order. */
  lemma {:induction false} ReadingsExactly(turns: seq<PollTurn>)
    returns (at: seq<nat>)
    ensures |at| == |Readings(turns)|
    ensures forall j, k :: 0 <= j < k < |at| ==> at[j] < at[k]
    ensures forall k :: 0 <= k < |at| ==> Counts(turns, at[k]) && ReadingOf(Readings(turns)[k], turns[at[k]])
    ensures forall k :: Counts(turns, k) ==> k in at
  {
    hide Counts, ReadingOf, Readings;
    at := CountingFrom(turns, 0);
    CountingExactly(turns, 0);
    ReadingsOfCounting(turns, 0);
    assert turns[0..] == turns;
    forall k | 0 <= k < |at| ensures Counts(turns, at[k]) {
      assert at[k] in at;
    }
  }

  /** This is the last turn that counts. */
  ghost predicate CountsLast(turns: seq<PollTurn>, k: nat) {
    Counts(turns, k) && forall j: nat :: Counts(turns, j) ==> j <= k
  }

  /** The task leaves the node in the stage of the last turn that counts. */
  lemma {:induction false} TaskEndsAt(t: Trace, turns: seq<PollTurn>, k: nat)
    returns (r: Reading)
    requires Polled(Current(t)) && CountsLast(turns, k)
    ensures ReadingOf(r, turns[k])
    ensures Current(PolledAll(t, Readings(turns))) == ComputeNextState(Active, r)
  {
    hide ComputeNextState, PolledAll;
    var at := ReadingsExactly(turns);
    var rs := Readings(turns);
    assert at[|at| - 1] == k by {
      var m :| 0 <= m < |at| && at[m] == k;
      assert Counts(turns, at[|at| - 1]);
    }
    r := rs[|rs| - 1];
    TaskFollowsStages(t, rs);
    assert [r][..0] == [];
    Memoryless(Current(t), Active, rs, [r]);
    PollOnce(r);
  }

  lemma {:induction false} PollOnce(r: Reading)
    ensures PollRun(Active, [r]) == ComputeNextState(Active, r)
  {
    assert [r][..0] == [];
  }

  /**
    So the task leaves the node operational if and only if the last turn that
    counts saw the wire ready and a positive node height, with node and filters
    at or above the chain tip; an overflowing tolerance is the one exception.
   */
  lemma {:induction false} TaskEndsOperational(t: Trace, turns: seq<PollTurn>, k: nat)
    requires Polled(Current(t)) && CountsLast(turns, k)
    ensures var turn := turns[k];
            var node, chain, filter := turn.node.value, turn.chain.value, turn.filter.value;
            Current(PolledAll(t, Readings(turns))) == Operational <==>
            && turn.wireReady && node > 0 && node >= chain && filter >= chain
            && (node + 6 >= 0x1_0000_0000 ==> node + 6 - 0x1_0000_0000 >= chain)
  {
    hide PolledAll, Readings;
    var r := TaskEndsAt(t, turns, k);
    ReadyExactly(Active, r);
  }

  // ---- The interleaving

  datatype RunStage = NotCalled | InnerTaken | PollSpawned | ShutdownSpawned | HandleStored | Returned

  datatype PollStage = NotSpawned | Running | Exited

  datatype ShutdownStage = Unspawned | Listening | Woken | Killed | Announced | ClientsTold | Joined | Finished

  datatype Sys = Sys(
    trace: Trace,
    token: bool,               // the node's token is cancelled
    kill: bool,                // the kill signal of the inner node
    run: RunStage,
    poll: PollStage,
    shut: ShutdownStage,
    handle: bool,              // the shutdown task's handle is stored
    callers: nat,              // callers of `shutdown` that wait for the lock of the handle
    awaiting: bool,            // a caller of `shutdown` holds the lock and awaits the task
    abandoned: bool,           // such a caller was dropped before the task had finished
    stopped: bool,             // a caller that got the lock after the handle was stored has returned
    early: bool)               // ShuttingDown was published before `run` published Active

  datatype Step =
    | TakeInner
    | SpawnPoll
    | SpawnShutdown
    | StoreHandle
    | PublishActive
    | Poll(reading: Reading)
    | PollExits
    | CancelToken
    | Interrupt
    | WakeUp
    | Kill
    | Announce
    | TellClients
    | JoinTasks
    | PublishInactive
    | CallShutdown
    | TakeHandle
    | ShutdownReturns
    | DropShutdown

  const BUILT := Sys([Inactive], false, false, NotCalled, NotSpawned, Unspawned, false, 0, false, false, false, false)

  /** A task that outlives its join timeout keeps polling: nothing but its own exit disables `Poll`. */
  ghost predicate Enabled(s: Sys, step: Step) {
    match step
    case TakeInner => s.run.NotCalled?
    case SpawnPoll => s.run.InnerTaken?
    case SpawnShutdown => s.run.PollSpawned?
    case StoreHandle => s.run.ShutdownSpawned?
    case PublishActive => s.run.HandleStored?
    case Poll(_) => s.poll.Running?
    case PollExits => s.poll.Running? && s.token
    case CancelToken => true
    case Interrupt => s.shut.Listening?
    case WakeUp => s.shut.Listening? && s.token
    case Kill => s.shut.Woken?
    case Announce => s.shut.Killed?
    case TellClients => s.shut.Announced?
    case JoinTasks => s.shut.ClientsTold?
    case PublishInactive => s.shut.Joined?
    case CallShutdown => true
    case TakeHandle => s.callers > 0 && !s.awaiting
    case ShutdownReturns => s.awaiting && s.shut.Finished?
    case DropShutdown => s.awaiting && !s.shut.Finished?
  }

  function Next(s: Sys, step: Step): Sys
    requires Enabled(s, step)
  {
    match step
    case TakeInner => s.(run := InnerTaken)
    case SpawnPoll => s.(run := PollSpawned, poll := Running)
    case SpawnShutdown => s.(run := ShutdownSpawned, shut := Listening)
    case StoreHandle => s.(run := HandleStored, handle := true)
    case PublishActive => s.(run := Returned, trace := Replaced(s.trace, Active))
    case Poll(r) => s.(trace := Polled1(s.trace, r))
    case PollExits => s.(poll := Exited)
    case CancelToken => s.(token := true)
    case Interrupt => s.(shut := Woken)
    case WakeUp => s.(shut := Woken)
    case Kill => s.(shut := Killed, kill := true)
    case Announce => s.(shut := Announced, trace := Replaced(s.trace, ShuttingDown), early := !s.run.Returned?)
    case TellClients => s.(shut := ClientsTold, token := true)
    case JoinTasks => s.(shut := Joined)
    case PublishInactive => s.(shut := Finished, trace := Replaced(s.trace, Inactive))
    case CallShutdown => s.(token := true, callers := s.callers + 1)
    case TakeHandle =>
      // The lock is held through the await; without a handle the caller returns at once.
      if s.handle then s.(callers := s.callers - 1, handle := false, awaiting := true)
      else s.(callers := s.callers - 1, stopped := s.stopped || s.run.HandleStored? || s.run.Returned?)
    case ShutdownReturns => s.(awaiting := false, stopped := true)
    case DropShutdown => s.(awaiting := false, abandoned := true)
  }

  ghost predicate Possible(s: Sys, steps: seq<Step>)
    decreases |steps|
  {
    steps == [] || (Enabled(s, steps[0]) && Possible(Next(s, steps[0]), steps[1..]))
  }

  function Exec(s: Sys, steps: seq<Step>): Sys
    requires Possible(s, steps)
    decreases |steps|
  {
    if steps == [] then s else Exec(Next(s, steps[0]), steps[1..])
  }

  // ---- Clean lives

  /** Inactive, then active states, then ShuttingDown, then Inactive for good. */
  ghost predicate Clean(t: Trace) {
    && t[0] == Inactive
    && forall k :: 1 <= k < |t| ==> Follows(t, k)
  }

  ghost predicate Follows(t: Trace, k: nat)
    requires 1 <= k < |t|
  {
    if k == 1 then t[k] == Active
    else if Polled(t[k - 1]) then Polled(t[k]) || t[k] == ShuttingDown
    else t[k - 1] == ShuttingDown && t[k] == Inactive
  }

  predicate Before(s: ShutdownStage) {
    s.Unspawned? || s.Listening? || s.Woken? || s.Killed?
  }

  ghost predicate Inv(s: Sys) {
    Known(s) && Ordered(s) && (!s.early ==> Clean(s.trace) && Stands(s))
  }

  ghost predicate Known(s: Sys) {
    forall k :: 0 <= k < |s.trace| ==> !s.trace[k].DnsBootstrapping? && !s.trace[k].Backfill?
  }

  /** `run` has stored the handle of the shutdown task. */
  predicate Stored(s: Sys) {
    s.run.HandleStored? || s.run.Returned?
  }

  ghost predicate Ordered(s: Sys) {
    Placed(s) && Locked(s)
  }

  /** Which tasks have been spawned, and what an early shutdown has published. */
  ghost predicate Placed(s: Sys) {
    && (s.run.NotCalled? || s.run.InnerTaken? || s.run.PollSpawned? <==> s.shut.Unspawned?)
    && (Before(s.shut) ==> !s.early)
    && (s.early ==> |s.trace| >= 2 && s.trace[1] == ShuttingDown)
  }

  /** Who holds the handle of the shutdown task, or did. */
  ghost predicate Locked(s: Sys) {
    && (s.stopped && !s.abandoned ==> s.shut.Finished?)
    && (s.handle || s.awaiting || s.abandoned ==> Stored(s))
    && (s.awaiting || s.abandoned ==> !s.handle) && (s.abandoned ==> !s.awaiting)
    && (Stored(s) && !s.handle && !s.awaiting && !s.abandoned ==> s.shut.Finished?)
  }

  /** In a clean life the current state tells how far the life has come. */
  ghost predicate Stands(s: Sys) {
    if !s.run.Returned? then Before(s.shut) && s.trace == [Inactive]
    else if Before(s.shut) then |s.trace| >= 2 && Polled(Current(s.trace))
    else if s.shut.Finished? then |s.trace| >= 4 && Current(s.trace) == Inactive
    else |s.trace| >= 3 && Current(s.trace) == ShuttingDown
  }

  lemma {:induction false} CleanSnoc(t: Trace, s: State)
    requires Clean(t) && Follows(t + [s], |t|)
    ensures Clean(t + [s])
  {
    forall k | 1 <= k < |t + [s]| ensures Follows(t + [s], k) {
      if k < |t| {
        assert Follows(t, k);
      }
    }
  }

  lemma {:induction false} StepKeepsLocked(s: Sys, step: Step)
    requires Locked(s) && Placed(s) && Enabled(s, step)
    ensures Locked(Next(s, step))
  {
    hide Polled1;
  }

  lemma {:induction false} PollKeepsPrefix(t: Trace, r: Reading)
    ensures t <= Polled1(t, r)
  {
  }

  lemma {:induction false} StepKeepsPlaced(s: Sys, step: Step)
    requires Placed(s) && Enabled(s, step) && (!s.early ==> Stands(s))
    ensures Placed(Next(s, step))
  {
    hide Polled1;
    if step.Poll? {
      PollKeepsPrefix(s.trace, step.reading);
    }
  }

  lemma {:induction false} StepKeepsOrdered(s: Sys, step: Step)
    requires Ordered(s) && Enabled(s, step) && (!s.early ==> Stands(s))
    ensures Ordered(Next(s, step))
  {
    hide Locked, Placed, Next, Enabled, Stands;
    StepKeepsLocked(s, step);
    StepKeepsPlaced(s, step);
  }

  /** A poll extends a clean life by an active state, or not at all. */
  lemma {:induction false} PollStands(t: Trace, r: Reading)
    requires Polled(Current(t)) || Current(t) == ShuttingDown || Current(t) == Inactive
    ensures Polled1(t, r) == t ||
            (Polled(Current(t)) && Polled(Current(Polled1(t, r))) && Polled1(t, r) == t + [Current(Polled1(t, r))])
  {
  }

  ghost predicate Grown(t: Trace, u: Trace) {
    u == t || (u == t + [Current(u)] && Follows(u, |t|))
  }

  lemma {:induction false} StepKeepsStanding(s: Sys, step: Step)
    requires Placed(s) && Stands(s) && !s.early && Enabled(s, step) && !Next(s, step).early
    ensures Stands(Next(s, step)) && Grown(s.trace, Next(s, step).trace)
  {
    hide Polled1, Clean;
    match step {
      case Poll(r) => PollStands(s.trace, r);
      case _ =>
    }
  }

  lemma {:induction false} StepKeepsInv(s: Sys, step: Step)
    requires Inv(s) && Enabled(s, step)
    ensures Inv(Next(s, step))
  {
    hide Clean, Stands, Follows, Placed, Locked;
    StepKeepsOrdered(s, step);
    if !Next(s, step).early {
      if s.early {
        NeverUnearly(s, step);
      }
      StepKeepsStanding(s, step);
      if Next(s, step).trace != s.trace {
        CleanSnoc(s.trace, Current(Next(s, step).trace));
      }
    }
  }

  lemma {:induction false} NeverUnearly(s: Sys, step: Step)
    requires Ordered(s) && Enabled(s, step) && s.early
    ensures Next(s, step).early
  {
  }

  lemma {:induction false} ExecKeepsInv(s: Sys, steps: seq<Step>)
    requires Inv(s) && Possible(s, steps)
    ensures Inv(Exec(s, steps))
    decreases |steps|
  {
    hide Next, Enabled, Inv;
    if steps != [] {
      StepKeepsInv(s, steps[0]);
      ExecKeepsInv(Next(s, steps[0]), steps[1..]);
    }
  }

  lemma {:induction false} BuiltInv()
    ensures Inv(BUILT)
  {
  }

  /**
    No resurrection. A life is clean exactly if the shutdown task did not
    publish ShuttingDown before `run` published Active, whatever the polling
    task does and however long it goes on.
   */
  lemma {:induction false} NoResurrection(steps: seq<Step>)
    requires Possible(BUILT, steps)
    ensures var s := Exec(BUILT, steps);
            && (Clean(s.trace) <==> !s.early)
            && (!s.early && s.shut.Finished? ==> Current(s.trace) == Inactive)
  {
    BuiltInv();
    ExecKeepsInv(BUILT, steps);
    var s := Exec(BUILT, steps);
    if s.early {
      assert !Follows(s.trace, 1);
    }
  }

  /** After a clean shutdown has finished, no step of any task changes the state again. */
  lemma {:induction false} FinishedIsFinal(before: seq<Step>, after: seq<Step>)
    requires Possible(BUILT, before) && Possible(Exec(BUILT, before), after)
    requires Exec(BUILT, before).shut.Finished? && !Exec(BUILT, before).early
    ensures Exec(Exec(BUILT, before), after).trace == Exec(BUILT, before).trace
  {
    BuiltInv();
    ExecKeepsInv(BUILT, before);
    StaysFinished(Exec(BUILT, before), after);
  }

  lemma {:induction false} StaysFinished(s: Sys, steps: seq<Step>)
    requires Inv(s) && Possible(s, steps) && s.shut.Finished? && !s.early
    ensures Exec(s, steps).trace == s.trace
    decreases |steps|
  {
    hide Next, Enabled, Inv;
    if steps != [] {
      StepKeepsInv(s, steps[0]);
      FinishedStep(s, steps[0]);
      StaysFinished(Next(s, steps[0]), steps[1..]);
    }
  }

  lemma {:induction false} FinishedStep(s: Sys, step: Step)
    requires Inv(s) && Enabled(s, step) && s.shut.Finished? && !s.early
    ensures Next(s, step).trace == s.trace && Next(s, step).shut.Finished? && !Next(s, step).early
  {
    hide Clean, Known, Polled1;
    if step.Poll? {
      PollStands(s.trace, step.reading);
    }
  }

  // ---- Signals

  /** Who has been told what: the inner node, the clients and the polling task. */
  ghost predicate Signalled(s: Sys) {
    && (s.shut.ClientsTold? || s.shut.Joined? || s.shut.Finished? ==> s.token)
    && (s.kill <==> !(s.shut.Unspawned? || s.shut.Listening? || s.shut.Woken?))
    && (s.run.NotCalled? || s.run.InnerTaken? || s.run.PollSpawned? ==> s.shut.Unspawned?)
    && (s.poll.Exited? || s.callers > 0 || s.awaiting || s.abandoned || s.stopped ==> s.token)
  }

  lemma {:induction false} ExecKeepsSignalled(s: Sys, steps: seq<Step>)
    requires Signalled(s) && Possible(s, steps)
    ensures Signalled(Exec(s, steps))
    decreases |steps|
  {
    if steps != [] {
      StepKeepsSignalled(s, steps[0]);
      ExecKeepsSignalled(Next(s, steps[0]), steps[1..]);
    }
  }

  lemma {:induction false} StepKeepsSignalled(s: Sys, step: Step)
    requires Signalled(s) && Enabled(s, step)
    ensures Signalled(Next(s, step))
  {
    hide Polled1;
  }

  /**
    However the shutdown was set off, by an interrupt or by the token: from
    ShuttingDown on the inner node has its kill signal, and once the shutdown goes
    on to wait for its tasks the token is cancelled, so that clients and the
    polling task can end.
   */
  lemma {:induction false} ShutdownTellsAll(steps: seq<Step>)
    requires Possible(BUILT, steps)
    ensures Signalled(Exec(BUILT, steps))
  {
    ExecKeepsSignalled(BUILT, steps);
  }

  /** No run ever reaches the two stages that the rule does not know how to enter. */
  lemma {:induction false} UnreachableStages(steps: seq<Step>)
    requires Possible(BUILT, steps)
    ensures forall k :: 0 <= k < |Exec(BUILT, steps).trace| ==>
              !Exec(BUILT, steps).trace[k].DnsBootstrapping? && !Exec(BUILT, steps).trace[k].Backfill?
  {
    BuiltInv();
    ExecKeepsInv(BUILT, steps);
  }

  /**
    Every caller of `shutdown` that got the lock after the handle was stored
    returns to a node that is inactive for good, the one that awaited the task
    and those that waited behind it alike, unless a caller was dropped while it
    awaited the task.
   */
  lemma {:induction false} ShutdownReturnsInactive(steps: seq<Step>)
    requires Possible(BUILT, steps)
    requires var s := Exec(BUILT, steps); s.stopped && !s.abandoned && !s.early
    ensures Exec(BUILT, steps).shut.Finished?
    ensures Current(Exec(BUILT, steps).trace) == Inactive && |Exec(BUILT, steps).trace| > 1
  {
    BuiltInv();
    ExecKeepsInv(BUILT, steps);
  }

  /**
    Exactly when a caller of `shutdown` that gets the lock returns at once to a
    node whose shutdown has not finished: if `run` has not stored the handle yet,
    or a caller was dropped while it awaited the task. Every other caller waits.
   */
  lemma {:induction false} ReturnsAtOnceExactly(steps: seq<Step>)
    requires Possible(BUILT, steps) && Enabled(Exec(BUILT, steps), TakeHandle)
    ensures var s := Exec(BUILT, steps);
            !Next(s, TakeHandle).awaiting && !s.shut.Finished? <==>
            !s.shut.Finished? && (!Stored(s) || s.abandoned)
  {
    hide Possible, Exec;
    BuiltInv();
    ExecKeepsInv(BUILT, steps);
  }

  // ---- Which shutdowns come too early

  /** Nobody has asked the node to stop yet. */
  ghost predicate Unasked(steps: seq<Step>) {
    forall k :: 0 <= k < |steps| ==> !steps[k].CancelToken? && !steps[k].CallShutdown? && !steps[k].Interrupt?
  }

  predicate Calm(s: Sys) {
    !s.token && !s.early && (s.shut.Unspawned? || s.shut.Listening?)
  }

  lemma {:induction false} UnaskedStaysCalm(s: Sys, steps: seq<Step>)
    requires Calm(s) && Possible(s, steps) && Unasked(steps)
    ensures Calm(Exec(s, steps))
    decreases |steps|
  {
    if steps != [] {
      assert !steps[0].CancelToken? && !steps[0].CallShutdown? && !steps[0].Interrupt?;
      assert Unasked(steps[1..]) by {
        assert forall k :: 0 <= k < |steps[1..]| ==> steps[1..][k] == steps[k + 1];
      }
      UnaskedStaysCalm(Next(s, steps[0]), steps[1..]);
    }
  }

  lemma {:induction false} ReturnedStaysTimely(s: Sys, steps: seq<Step>)
    requires s.run.Returned? && !s.early && Possible(s, steps)
    ensures !Exec(s, steps).early
    decreases |steps|
  {
    if steps != [] {
      ReturnedStaysTimely(Next(s, steps[0]), steps[1..]);
    }
  }

  lemma {:induction false} ExecConcat(s: Sys, a: seq<Step>, b: seq<Step>)
    requires Possible(s, a) && Possible(Exec(s, a), b)
    ensures Possible(s, a + b) && Exec(s, a + b) == Exec(Exec(s, a), b)
    decreases |a|
  {
    hide Enabled, Next;
    if a == [] {
      assert a + b == b;
    } else {
      assert (a + b)[1..] == a[1..] + b;
      ExecConcat(Next(s, a[0]), a[1..], b);
    }
  }

  /** A node that is asked to stop only after `run` has returned has a clean life. */
  lemma {:induction false} ShutdownAfterRunIsClean(before: seq<Step>, after: seq<Step>)
    requires Possible(BUILT, before) && Unasked(before) && Exec(BUILT, before).run.Returned?
    requires Possible(Exec(BUILT, before), after)
    ensures Possible(BUILT, before + after) && Clean(Exec(BUILT, before + after).trace)
  {
    hide Possible, Exec, Clean;
    UnaskedStaysCalm(BUILT, before);
    ReturnedStaysTimely(Exec(BUILT, before), after);
    ExecConcat(BUILT, before, after);
    NoResurrection(before + after);
  }

  ghost predicate Reaches(s: Sys, end: Sys) {
    exists steps :: Possible(s, steps) && Exec(s, steps) == end
  }

  lemma {:induction false} Stay(s: Sys)
    ensures Reaches(s, s)
  {
    assert Possible(s, []) && Exec(s, []) == s;
  }

  lemma {:induction false} LeadsBy(s: Sys, step: Step, next: Sys, end: Sys)
    requires Enabled(s, step) && Next(s, step) == next && Reaches(next, end)
    ensures Reaches(s, end)
  {
    hide Enabled, Next;
    var rest :| Possible(next, rest) && Exec(next, rest) == end;
    var steps := [step] + rest;
    assert steps[1..] == rest;
    assert Possible(s, steps) && Exec(s, steps) == end;
  }

  /** The shutdown is announced while `run` has not yet published Active. */
  predicate AnnouncedEarly(s: Sys) {
    && s.run.HandleStored? && s.shut.Announced? && s.poll.Running? && s.token
    && s.trace == [Inactive, ShuttingDown]
  }

  /** A shutdown that has been announced can run to its end before `run` publishes Active. */
  lemma {:induction false} ShutdownEnds(s: Sys)
    returns (end: Sys)
    requires AnnouncedEarly(s)
    ensures Reaches(s, end)
    ensures end.shut.Finished? && end.poll.Exited? && end.run.Returned?
    ensures end.trace == [Inactive, ShuttingDown, Inactive, Active]
  {
    hide Reaches, Polled1;
    var told := Next(s, TellClients);
    var joined := Next(told, JoinTasks);
    var finished := Next(joined, PublishInactive);
    var exited := Next(finished, PollExits);
    end := Next(exited, PublishActive);
    Stay(end);
    LeadsBy(exited, PublishActive, end, end);
    LeadsBy(finished, PollExits, exited, end);
    LeadsBy(joined, PublishInactive, finished, end);
    LeadsBy(told, JoinTasks, joined, end);
    LeadsBy(s, TellClients, told, end);
  }

  /** A node whose token was cancelled before `run`, with `run` about to publish Active. */
  lemma {:induction false} RunIsLate()
    returns (stored: Sys)
    ensures Reaches(BUILT, stored)
    ensures stored.run.HandleStored? && stored.shut.Listening? && stored.poll.Running? && stored.token
    ensures stored.trace == [Inactive]
  {
    hide Reaches, Polled1;
    var asked := Next(BUILT, CancelToken);
    var taken := Next(asked, TakeInner);
    var polling := Next(taken, SpawnPoll);
    var listening := Next(polling, SpawnShutdown);
    stored := Next(listening, StoreHandle);
    Stay(stored);
    LeadsBy(listening, StoreHandle, stored, stored);
    LeadsBy(polling, SpawnShutdown, listening, stored);
    LeadsBy(taken, SpawnPoll, polling, stored);
    LeadsBy(asked, TakeInner, taken, stored);
    LeadsBy(BUILT, CancelToken, asked, stored);
  }

  /** Its shutdown can be announced first. */
  lemma {:induction false} ShutdownComesEarly(stored: Sys)
    returns (s: Sys)
    requires stored.run.HandleStored? && stored.shut.Listening? && stored.poll.Running? && stored.token
    requires stored.trace == [Inactive]
    ensures AnnouncedEarly(s)
    ensures Reaches(stored, s)
  {
    hide Reaches, Polled1;
    var woken := Next(stored, WakeUp);
    var killed := Next(woken, Kill);
    s := Next(killed, Announce);
    Stay(s);
    LeadsBy(killed, Announce, s, s);
    LeadsBy(woken, Kill, killed, s);
    LeadsBy(stored, WakeUp, woken, s);
  }

  lemma {:induction false} ReachesOn(s: Sys, mid: Sys, end: Sys)
    requires Reaches(s, mid) && Reaches(mid, end)
    ensures Reaches(s, end)
  {
    hide Possible, Exec;
    var a :| Possible(s, a) && Exec(s, a) == mid;
    var b :| Possible(mid, b) && Exec(mid, b) == end;
    ExecConcat(s, a, b);
  }

  /**
    The hypothesis is needed: a token cancelled while `run` is still on its way
    lets the whole shutdown pass first, and the node ends up reporting Active
    with its polling task gone.
   */
  lemma {:induction false} EarlyCancelResurrects()
    ensures exists end ::
              && Reaches(BUILT, end)
              && end.shut.Finished? && end.poll.Exited? && end.run.Returned?
              && end.trace == [Inactive, ShuttingDown, Inactive, Active]
  {
    hide Reaches;
    var stored := RunIsLate();
    var announced := ShutdownComesEarly(stored);
    var end := ShutdownEnds(announced);
    ReachesOn(stored, announced, end);
    ReachesOn(BUILT, stored, end);
  }

  /** A node that has been started, with its shutdown task listening. */
  function Started(): Sys {
    BUILT.(run := Returned, poll := Running, shut := Listening, handle := true, trace := [Inactive, Active])
  }

  lemma {:induction false} StartedIsReachable()
    ensures Reaches(BUILT, Started())
  {
    hide Reaches, Polled1;
    var taken := BUILT.(run := InnerTaken);
    var polling := taken.(run := PollSpawned, poll := Running);
    var listening := polling.(run := ShutdownSpawned, shut := Listening);
    var stored := listening.(run := HandleStored, handle := true);
    Stay(Started());
    LeadsBy(stored, PublishActive, Started(), Started());
    LeadsBy(listening, StoreHandle, stored, Started());
    LeadsBy(polling, SpawnShutdown, listening, Started());
    LeadsBy(taken, SpawnPoll, polling, Started());
    LeadsBy(BUILT, TakeInner, taken, Started());
  }

  /** A caller of `shutdown` was dropped while it awaited the task, which is still listening. */
  predicate Abandoned(s: Sys) {
    && s.run.Returned? && s.shut.Listening? && s.abandoned && !s.handle && !s.awaiting
    && s.trace == [Inactive, Active]
  }

  lemma {:induction false} AbandonedIsReachable()
    returns (dropped: Sys)
    ensures Reaches(Started(), dropped) && Abandoned(dropped)
  {
    hide Reaches, Polled1;
    var called := Next(Started(), CallShutdown);
    var awaiting := Next(called, TakeHandle);
    dropped := Next(awaiting, DropShutdown);
    Stay(dropped);
    LeadsBy(awaiting, DropShutdown, dropped, dropped);
    LeadsBy(called, TakeHandle, awaiting, dropped);
    LeadsBy(Started(), CallShutdown, called, dropped);
  }

  lemma {:induction false} NextCallerReturns(s: Sys)
    returns (end: Sys)
    requires Abandoned(s)
    ensures Reaches(s, end)
    ensures end.stopped && end.abandoned && end.shut.Listening? && end.trace == [Inactive, Active]
  {
    hide Reaches, Polled1;
    var again := Next(s, CallShutdown);
    end := Next(again, TakeHandle);
    Stay(end);
    LeadsBy(again, TakeHandle, end, end);
    LeadsBy(s, CallShutdown, again, end);
  }

  /**
    The exception is real: once a caller is dropped while it awaits the task, the
    next one returns at once, to a running node.
   */
  lemma {:induction false} AbandonedShutdownReturnsEarly()
    ensures exists end ::
              && Reaches(BUILT, end)
              && end.stopped && end.abandoned && end.shut.Listening? && end.trace == [Inactive, Active]
  {
    hide Reaches, Started, Abandoned;
    StartedIsReachable();
    var dropped := AbandonedIsReachable();
    var end := NextCallerReturns(dropped);
    ReachesOn(Started(), dropped, end);
    ReachesOn(BUILT, Started(), end);
  }
}
