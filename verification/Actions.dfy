/**
  The node's published set of actions. Tracked calls insert their action when
  they begin and remove it when they end; a future that is dropped in between
  never removes it.
 */
module Actions {
  import opened Wrappers
  import opened Blocks
  import NodeQueries
  import Fsm

  datatype Action =
    | ConnectingToPeer(socket: nat)
    | DisconnectingFromPeer(socket: nat)
    | RemovingPeer(socket: nat)
    | Pinging
    | FetchingBlock(hash: Hash)
    | FetchingBlocks(count: nat)
    | BroadcastingTransaction(txid: Txid)
    | MatchingFilters

  class ActionTracker {
    var actions: set<Action>

    constructor ()
      ensures actions == {}
    {
      actions := {};
    }

    method TrackAction(a: Action)
      modifies this
      ensures actions == old(actions) + {a}
    {
      actions := actions + {a};
    }

    method UntrackAction(a: Action)
      modifies this
      ensures actions == old(actions) - {a}
    {
      actions := actions - {a};
    }
  }

  /** The node's calls that a scan makes, with what they do to the published set. */
  class Node {
    const tracker: ActionTracker

    constructor (tracker: ActionTracker)
      ensures this.tracker == tracker
    {
      this.tracker := tracker;
    }

    /** An illegal or unanswerable request is refused before it is tracked. */
    method MatchFilters(
      state: Fsm.State, filterTip: Result<nat, NodeQueries.NodeError>, stop: nat,
      matched: Result<seq<Hash>, NodeQueries.NodeError>)
      returns (r: Result<seq<Hash>, NodeQueries.NodeError>)
      modifies tracker
      ensures r == NodeQueries.MatchFilters(state, filterTip, stop, matched)
      ensures tracker.actions ==
              if state.Operational? && filterTip.Success? && stop <= filterTip.value
              then old(tracker.actions) - {MatchingFilters} else old(tracker.actions)
    {
      if !state.Operational? {
        return Failure(NodeQueries.IllegalAction(state));
      }
      if filterTip.Failure? {
        return Failure(filterTip.error);
      }
      if stop > filterTip.value {
        return Failure(NodeQueries.StopHeightExceedsFilterTip(stop, filterTip.value));
      }
      tracker.TrackAction(MatchingFilters);
      r := matched;
      tracker.UntrackAction(MatchingFilters);
    }

    /** `None` is a future dropped while it waits, as by a cancelled scan; its action stays published. */
    method FetchBlocks(hashes: seq<Hash>, answers: Hash -> NodeQueries.Answer, dropped: bool)
      returns (r: Option<Result<seq<Block>, NodeQueries.NodeError>>)
      modifies tracker
      ensures r == if dropped then None else Some(NodeQueries.FetchBlocks(hashes, answers))
      ensures tracker.actions ==
              if dropped then old(tracker.actions) + {FetchingBlocks(|hashes|)}
              else old(tracker.actions) - {FetchingBlocks(|hashes|)}
    {
      var action := FetchingBlocks(|hashes|);
      tracker.TrackAction(action);
      if dropped {
        return None;
      }
      var result := NodeQueries.FetchBlocks(hashes, answers);
      tracker.UntrackAction(action);
      r := Some(result);
    }
  }

  datatype Step = Begin(action: Action) | End(action: Action) | Dropped(action: Action)

  /** What is published, beside the calls that are really in flight. */
  datatype Sys = Sys(published: set<Action>, inFlight: multiset<Action>)

  ghost predicate Enabled(s: Sys, step: Step) {
    step.Begin? || step.action in s.inFlight
  }

  function Next(s: Sys, step: Step): Sys {
    match step
    case Begin(a) => Sys(s.published + {a}, s.inFlight + multiset{a})
    case End(a) => Sys(s.published - {a}, s.inFlight - multiset{a})
    case Dropped(a) => Sys(s.published, s.inFlight - multiset{a})
  }

  /** The published set is the set of actions in flight. */
  ghost predicate Faithful(s: Sys) {
    forall a :: a in s.published <==> a in s.inFlight
  }

  ghost predicate Contained(s: Sys) {
    forall a :: a in s.published ==> a in s.inFlight
  }

  ghost predicate Possible(s: Sys, steps: seq<Step>)
    decreases |steps|
  {
    steps == [] || (Enabled(s, steps[0]) && Possible(Next(s, steps[0]), steps[1..]))
  }

  function Exec(s: Sys, steps: seq<Step>): Sys
    decreases |steps|
  {
    if steps == [] then s else Exec(Next(s, steps[0]), steps[1..])
  }

  /**
    One step keeps the published set faithful, unless it ends one of several
    equal actions or drops the only one: these two are the only ways it fails.
   */
  lemma {:induction false} StepIsFaithful(s: Sys, step: Step)
    requires Faithful(s) && Enabled(s, step)
    ensures Faithful(Next(s, step)) <==>
            match step
            case Begin(_) => true
            case End(a) => s.inFlight[a] == 1
            case Dropped(a) => s.inFlight[a] > 1
  {
    var t := Next(s, step);
    match step {
      case Begin(a) =>
        assert forall x :: x in t.inFlight <==> x in s.inFlight || x == a;
      case End(a) =>
        assert forall x :: x != a ==> t.inFlight[x] == s.inFlight[x];
        assert a in t.inFlight <==> s.inFlight[a] > 1;
      case Dropped(a) =>
        assert forall x :: x != a ==> t.inFlight[x] == s.inFlight[x];
        assert a in t.inFlight <==> s.inFlight[a] > 1;
    }
  }

  ghost predicate NoDrops(steps: seq<Step>) {
    forall k :: 0 <= k < |steps| ==> !steps[k].Dropped?
  }

  /** At no moment of the run are two equal actions in flight. */
  ghost predicate Distinct(s: Sys, steps: seq<Step>)
    decreases |steps|
  {
    (forall a :: s.inFlight[a] <= 1) && (steps == [] || Distinct(Next(s, steps[0]), steps[1..]))
  }

  /**
    Calls that all run to their end never leave an action behind, and publish
    exactly what is in flight if it is distinct.
   */
  lemma {:induction false} TrackingIsSound(s: Sys, steps: seq<Step>)
    requires Contained(s) && Possible(s, steps) && NoDrops(steps)
    ensures Contained(Exec(s, steps))
    ensures Exec(s, steps).inFlight == multiset{} ==> Exec(s, steps).published == {}
    ensures Faithful(s) && Distinct(s, steps) ==> Faithful(Exec(s, steps))
    decreases |steps|
  {
    if steps != [] {
      var step, t := steps[0], Next(s, steps[0]);
      assert Contained(t) by {
        forall a | a in t.published ensures a in t.inFlight {
          assert a != step.action ==> t.inFlight[a] == s.inFlight[a];
        }
      }
      if Faithful(s) && Distinct(s, steps) {
        StepIsFaithful(s, step);
      }
      TrackingIsSound(t, steps[1..]);
    }
  }

  /** The action of a dropped call, once it is the last of its kind, stays published until an equal one ends. */
  lemma {:induction false} DroppedActionLingers(s: Sys, a: Action, steps: seq<Step>)
    requires a in s.published && Possible(s, steps)
    requires forall k :: 0 <= k < |steps| ==> steps[k] != End(a)
    ensures a in Exec(s, steps).published
    decreases |steps|
  {
    if steps != [] {
      DroppedActionLingers(Next(s, steps[0]), a, steps[1..]);
    }
  }
}
