/**
  `wait_until_ready`: a client waits on the node's watched state while any
  number of writers publish to it. A watch channel is its value together with a
  version; here the version is the position in the history of published values.
 */
module Waiting {
  import opened Wrappers
  import opened Fsm
  import opened Scanning

  datatype Waiter =
    | Checking(seen: nat)                  // about to borrow the value; `seen` is the version marked as seen
    | Selecting(seen: nat, read: nat)      // borrowed version `read`; about to wait for a change
    | Parked(seen: nat)                    // waiting for a change
    | Done(result: Outcome)

  datatype Sys = Sys(
    history: seq<State>,
    cancelled: bool,
    since: nat,                            // the version at subscription
    waiter: Waiter)

  datatype Step =
    | Publish(state: State)
    | Cancel
    | Check
    | Park
    | SeeChange
    | SeeCancel

  function Version(s: Sys): nat
    requires |s.history| > 0
  {
    |s.history| - 1
  }

  function Current(s: Sys): State
    requires |s.history| > 0
  {
    s.history[Version(s)]
  }

  /** The states that end the wait, and how. */
  function Verdict(state: State): Option<Outcome> {
    match state
    case Operational => Some(Ok)
    case ShuttingDown => Some(Err(Unresponsive))
    case Inactive => Some(Err(Unresponsive))
    case _ => None
  }

  /** A subscriber starts out having seen the latest version. */
  function Subscribe(history: seq<State>, cancelled: bool): Sys
    requires |history| > 0
  {
    Sys(history, cancelled, |history| - 1, Checking(|history| - 1))
  }

  ghost predicate Enabled(s: Sys, step: Step)
    requires |s.history| > 0
  {
    match step
    case Publish(_) => true
    case Cancel => true
    case Check => s.waiter.Checking?
    case Park => s.waiter.Selecting? && s.waiter.seen == Version(s) && !s.cancelled
    case SeeChange => (s.waiter.Selecting? || s.waiter.Parked?) && s.waiter.seen != Version(s)
    case SeeCancel => (s.waiter.Selecting? || s.waiter.Parked?) && s.cancelled
  }

  function Next(s: Sys, step: Step): (t: Sys)
    requires |s.history| > 0 && Enabled(s, step)
    ensures |t.history| > 0
  {
    match step
    case Publish(state) => s.(history := s.history + [state])
    case Cancel => s.(cancelled := true)
    case Check =>
      // `borrow` reads the value without marking its version as seen
      s.(waiter := match Verdict(Current(s))
                   case Some(r) => Done(r)
                   case None => Selecting(s.waiter.seen, Version(s)))
    case Park => s.(waiter := Parked(s.waiter.seen))
    case SeeChange => s.(waiter := Checking(Version(s)))
    case SeeCancel => s.(waiter := Done(Err(ScanAborted)))
  }

  ghost predicate Possible(s: Sys, steps: seq<Step>)
    requires |s.history| > 0
    decreases |steps|
  {
    steps == [] || (Enabled(s, steps[0]) && Possible(Next(s, steps[0]), steps[1..]))
  }

  function Exec(s: Sys, steps: seq<Step>): (t: Sys)
    requires |s.history| > 0 && Possible(s, steps)
    ensures |t.history| > 0
    decreases |steps|
  {
    if steps == [] then s else Exec(Next(s, steps[0]), steps[1..])
  }

  /** Whatever the waiter rests on, it has read, and what it read did not end the wait. */
  ghost predicate Inv(s: Sys) {
    && |s.history| > 0 && s.since < |s.history|
    && (s.waiter.Checking? ==> s.waiter.seen <= Version(s))
    && (s.waiter.Selecting? ==>
          s.waiter.seen <= s.waiter.read <= Version(s) && Verdict(s.history[s.waiter.read]) == None)
    && (s.waiter.Parked? ==> s.waiter.seen <= Version(s) && Verdict(s.history[s.waiter.seen]) == None)
    && (s.waiter == Done(Ok) ==> exists v :: s.since <= v < |s.history| && s.history[v] == Operational)
    && (s.waiter == Done(Err(Unresponsive)) ==>
          exists v :: s.since <= v < |s.history| && (s.history[v] == ShuttingDown || s.history[v] == Inactive))
    && (s.waiter.Done? ==> s.waiter.result in {Ok, Err(Unresponsive), Err(ScanAborted)})
    && (s.waiter == Done(Err(ScanAborted)) ==> s.cancelled)
  }

  lemma {:induction false} StepKeepsInv(s: Sys, step: Step)
    requires Inv(s) && Enabled(s, step)
    ensures Inv(Next(s, step)) && Next(s, step).since == s.since
  {
    var t := Next(s, step);
    match step {
      case Publish(_) =>
        assert forall v :: 0 <= v < |s.history| ==> t.history[v] == s.history[v];
      case Check => assert s.history[Version(s)] == Current(s);
      case _ =>
    }
  }

  lemma {:induction false} ExecKeepsInv(s: Sys, steps: seq<Step>)
    requires Inv(s) && Possible(s, steps)
    ensures Inv(Exec(s, steps)) && Exec(s, steps).since == s.since
    decreases |steps|
  {
    hide Next, Enabled, Inv;
    assert |s.history| > 0 by { Nonempty(s); }
    if steps != [] {
      StepKeepsInv(s, steps[0]);
      ExecKeepsInv(Next(s, steps[0]), steps[1..]);
    }
  }

  lemma {:induction false} Nonempty(s: Sys)
    requires Inv(s)
    ensures |s.history| > 0
  {
  }

  /** The waiter can make no step of its own. */
  ghost predicate Stuck(s: Sys)
    requires |s.history| > 0
  {
    && !s.waiter.Done?
    && forall step: Step :: step.Check? || step.Park? || step.SeeChange? || step.SeeCancel? ==> !Enabled(s, step)
  }

  /**
    No lost wakeup. Under any interleaving of writers, a waiter that cannot move
    is parked on the latest version, and the value there does not end the wait;
    and a verdict is only ever given on a state that was really published since
    the subscription.
   */
  lemma {:induction false} NoLostWakeup(history: seq<State>, cancelled: bool, steps: seq<Step>)
    requires |history| > 0 && Possible(Subscribe(history, cancelled), steps)
    ensures var s := Exec(Subscribe(history, cancelled), steps);
            && (Stuck(s) ==>
                  s.waiter == Parked(Version(s)) && !s.cancelled
                  && Current(s) != Operational && Current(s) != ShuttingDown && Current(s) != Inactive)
            && (s.waiter == Done(Ok) ==> exists v :: |history| - 1 <= v < |s.history| && s.history[v] == Operational)
            && (s.waiter == Done(Err(Unresponsive)) ==>
                  exists v :: |history| - 1 <= v < |s.history|
                              && (s.history[v] == ShuttingDown || s.history[v] == Inactive))
            && (s.waiter == Done(Err(ScanAborted)) ==> s.cancelled)
  {
    ExecKeepsInv(Subscribe(history, cancelled), steps);
    var s := Exec(Subscribe(history, cancelled), steps);
    if Stuck(s) {
      assert !Enabled(s, Check) && !Enabled(s, Park) && !Enabled(s, SeeChange) && !Enabled(s, SeeCancel);
    }
  }

  /** The only step of its own that an uncancelled waiter can make. */
  function OwnStep(s: Sys): Option<Step>
    requires |s.history| > 0
  {
    match s.waiter
    case Checking(_) => Some(Check)
    case Selecting(seen, _) => Some(if seen == Version(s) then Park else SeeChange)
    case Parked(seen) => if seen == Version(s) then None else Some(SeeChange)
    case Done(_) => None
  }

  /** The waiter alone, for at most n steps. */
  function Settle(s: Sys, n: nat): (t: Sys)
    requires |s.history| > 0 && !s.cancelled
    ensures |t.history| > 0
    decreases n
  {
    if n == 0 || OwnStep(s).None? then s else Settle(Next(s, OwnStep(s).value), n - 1)
  }

  lemma {:induction false} OwnStepIsTheOnlyOne(s: Sys, step: Step)
    requires |s.history| > 0 && !s.cancelled
    requires step.Check? || step.Park? || step.SeeChange? || step.SeeCancel?
    ensures Enabled(s, step) <==> OwnStep(s) == Some(step)
  {
  }

  /**
    Once the writers rest on a state that ends the wait, the waiter notices within
    two steps of its own: an operational node is ready, one that shuts down or is
    not running is unresponsive. On any other state it comes to rest, parked.
   */
  lemma {:induction false} FinalStateIsNoticed(history: seq<State>, steps: seq<Step>)
    requires |history| > 0 && Possible(Subscribe(history, false), steps)
    requires var s := Exec(Subscribe(history, false), steps);
             !s.cancelled && !s.waiter.Done?
    ensures var s := Exec(Subscribe(history, false), steps);
            && (Current(s) == Operational ==> Settle(s, 2).waiter == Done(Ok))
            && (Current(s) == ShuttingDown || Current(s) == Inactive ==>
                  Settle(s, 2).waiter == Done(Err(Unresponsive)))
            && (Current(s) != Operational && Current(s) != ShuttingDown && Current(s) != Inactive ==>
                  Settle(s, 4).waiter == Parked(Version(s)))
  {
    ExecKeepsInv(Subscribe(history, false), steps);
    var s := Exec(Subscribe(history, false), steps);
    if Verdict(Current(s)).Some? {
      Notices(s);
    } else {
      Rests(s);
    }
  }

  /** A waiter that is up to date, about to look at a state that does not end the wait, comes to rest. */
  lemma {:induction false} RestsFromCheck(s: Sys, n: nat)
    requires |s.history| > 0 && !s.cancelled && s.waiter == Checking(Version(s)) && Verdict(Current(s)).None?
    requires n >= 2
    ensures Settle(s, n).waiter == Parked(Version(s))
  {
    var t := Next(s, Check);
    var u := Next(t, Park);
    assert Settle(u, n - 2) == u;
    assert Settle(t, n - 1) == Settle(u, n - 2);
  }

  lemma {:induction false} RestsFromChange(s: Sys, n: nat)
    requires Inv(s) && !s.cancelled && Verdict(Current(s)).None?
    requires (s.waiter.Selecting? || s.waiter.Parked?) && n >= 3
    ensures Settle(s, n).waiter == Parked(Version(s))
  {
    if s.waiter.seen != Version(s) {
      RestsFromCheck(Next(s, SeeChange), n - 1);
    } else if s.waiter.Selecting? {
      assert Settle(Next(s, Park), n - 1) == Next(s, Park);
    }
  }

  lemma {:induction false} Rests(s: Sys)
    requires Inv(s) && !s.cancelled && !s.waiter.Done? && Verdict(Current(s)).None?
    ensures Settle(s, 4).waiter == Parked(Version(s))
  {
    if s.waiter.Checking? {
      StepKeepsInv(s, Check);
      RestsFromChange(Next(s, Check), 3);
    } else {
      RestsFromChange(s, 4);
    }
  }

  lemma {:induction false} Notices(s: Sys)
    requires Inv(s) && !s.cancelled && !s.waiter.Done? && Verdict(Current(s)).Some?
    ensures Settle(s, 2).waiter == Done(Verdict(Current(s)).value)
  {
    if !s.waiter.Checking? {
      assert s.waiter.seen != Version(s);
      var t := Next(s, SeeChange);
      assert Settle(t, 1) == Settle(Next(t, Check), 0);
    }
  }

  /** A new waiter has seen the state it starts with: if nothing is published, it looks once and parks. */
  lemma {:induction false} FreshWaiterParks(history: seq<State>)
    requires |history| > 0 && Verdict(history[|history| - 1]).None?
    ensures Settle(Subscribe(history, false), 2).waiter == Parked(|history| - 1)
  {
    RestsFromCheck(Subscribe(history, false), 2);
  }

  /**
    Looking at a state does not mark it as seen: a state published between the
    subscription and the first look is looked at, and then wakes the waiter once
    more.
   */
  lemma {:induction false} LookingDoesNotMark(history: seq<State>, next: State)
    requires |history| > 0 && Verdict(next).None?
    ensures var s := Next(Next(Subscribe(history, false), Publish(next)), Check);
            OwnStep(s) == Some(SeeChange) && s.waiter == Selecting(|history| - 1, |history|)
  {
  }
}
