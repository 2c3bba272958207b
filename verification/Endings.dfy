/** How scans and queue loops end, and why. */
module Endings {
  import opened Wrappers
  import opened Blocks
  import opened CheckPoints
  import opened KeychainIndex
  import opened TxGraphs
  import opened NodeQueries
  import opened Scanning
  import opened Traces
  import opened Histories

  /** The last thing that happened was a look that saw the token cancelled. */
  predicate SawCancel(log: seq<Obs>) {
    log != [] && log[|log| - 1] == Saw(true)
  }

  /** A failure other than a cancellation comes from the node or from a poisoned lock. */
  ghost predicate Excused(r: Outcome, env: ScanEnv) {
    r.Err? ==>
      r.error.ScanAborted? || r.error.Node? || (r.error.PoisonedLock? && exists j: nat :: env.send(j).Poisoned?)
  }

  lemma {:induction false} SendEnds(st: ClientState, e: ScanEvent, j: nat, env: ScanEnv)
    requires !SawCancel(st.log)
    ensures var (fin, r) := Send(st, e, env.send(j));
            !SawCancel(fin.log) && !(r.Err? && r.error.ScanAborted?) && Excused(r, env)
  {
  }

  lemma {:induction false} ScanOneEnds(st: ClientState, block: Block, j: nat, env: ScanEnv)
    requires ValidCheckPoint(st.checkpoint) && GenesisAgrees(st.checkpoint, env) && !SawCancel(st.log)
    ensures var (fin, r) := ScanOne(st, block, j, env);
            (r == Err(ScanAborted) <==> SawCancel(fin.log)) && Excused(r, env)
  {
    hide ApplyBlock, Insert, Changes, Send;
    var height := env.heightOf(j, block.hash);
    if !env.cancelledAt(j) && height.Success? {
      var seen := st.Looked(false);
      var applied := seen.WithIndexed(ApplyBlock(seen.Indexed(), block, height.value));
      var after := applied.MoveTo(BlockId(height.value, block.hash));
      SendEnds(after.Drained(), WalletUpdate(after.PendingUpdate()), j, env);
    }
  }

  lemma {:induction false} ScanBlocksEnds(st: ClientState, blocks: seq<Block>, i: nat, env: ScanEnv)
    requires i <= |blocks| && ValidCheckPoint(st.checkpoint) && GenesisAgrees(st.checkpoint, env) && !SawCancel(st.log)
    ensures var (fin, r) := ScanBlocks(st, blocks, i, env);
            (r == Err(ScanAborted) <==> SawCancel(fin.log)) && Excused(r, env)
    decreases |blocks| - i
  {
    hide ScanOne, Excused;
    if i < |blocks| {
      ScanOneEnds(st, blocks[i], i, env);
      var (next, r) := ScanOne(st, blocks[i], i, env);
      if r.Ok? {
        ScanBlocksEnds(next, blocks, i + 1, env);
      }
    } else {
      assert Excused(Ok, env) by { NoExcuseNeeded(env); }
    }
  }

  lemma {:induction false} NoExcuseNeeded(env: ScanEnv)
    ensures Excused(Ok, env)
  {
  }

  lemma {:induction false} ScanMatchedEnds(st: ClientState, hashes: seq<Hash>, stop: nat, env: ScanEnv)
    requires ValidCheckPoint(st.checkpoint) && GenesisAgrees(st.checkpoint, env) && !SawCancel(st.log)
    ensures var (fin, r) := ScanMatched(st, hashes, stop, env);
            (r == Err(ScanAborted) <==> SawCancel(fin.log)) && Excused(r, env)
  {
    hide ScanBlocks, Insert, Send, FetchBlocks;
    var (fetched, blocks) := Fetch(st, hashes, env);
    if blocks.Success? {
      ScanBlocksEnds(fetched, blocks.value, 0, env);
      var (done, r) := ScanBlocks(fetched, blocks.value, 0, env);
      if r.Ok? && TipHeight(done.checkpoint) < stop && env.stopHash.Success? {
        var moved := done.MoveTo(BlockId(stop, env.stopHash.value));
        SendEnds(moved.Drained(), WalletUpdate(moved.PendingUpdate()), |blocks.value|, env);
      }
    }
  }

  /**
    Why a scan fails, for all that it observes. It aborts if and only if its last
    look saw the token cancelled; it misses the external keychain, or finds its
    range empty, if and only if that is so; and any other failure is the node's
    or a poisoned lock.
   */
  lemma {:induction false} ScanFailsFor(st: ClientState, kind: ScanKind, env: ScanEnv)
    requires ValidCheckPoint(st.checkpoint) && GenesisAgrees(st.checkpoint, env) && !SawCancel(st.log)
    ensures var (fin, r) := ScanInner(st, kind, env);
            && (r == Err(ScanAborted) <==> SawCancel(fin.log))
            && (r == Err(NoExternal) <==> External !in st.index.descriptors)
            && (forall start: nat, stop: nat :: r == Err(InvalidRange(start, stop)) <==>
                  External in st.index.descriptors && env.filterHeight == Success(stop)
                  && StartHeight(st, kind) == start && stop < start)
            && (r.Err? && !r.error.NoExternal? && !r.error.InvalidRange? ==> Excused(r, env))
  {
    hide ScanMatched, Excused;
    if env.filterHeight.Success? {
      var spks := DeriveSpks(st.index, Lookahead(st.index, kind));
      if spks.Success? {
        var stop := env.filterHeight.value;
        var answer := env.matched(spks.value, StartHeight(st, kind), stop);
        if answer.Success? {
          ScanMatchedEnds(st.Looked(false).Looked(false), answer.value, stop, env);
        }
      }
    }
    ExcusesFor(env);
  }

  lemma {:induction false} ExcusesFor(env: ScanEnv)
    ensures Excused(Err(ScanAborted), env)
    ensures forall e :: Excused(Err(Node(e)), env)
    ensures forall start: nat, stop: nat :: !Excused(Err(InvalidRange(start, stop)), env)
    ensures !Excused(Err(NoExternal), env)
  {
  }

  // ---- What the node said

  /** The node gave this error: one of its stores, its peers or its own refusal did. */
  ghost predicate NodeSaid(env: ScanEnv, e: NodeError) {
    || env.filterHeight == Failure(e) || env.filterTip == Failure(e) || env.stopHash == Failure(e)
    || (exists spks: seq<Script>, lo: nat, stop: nat :: env.matched(spks, lo, stop) == Failure(e))
    || (exists j: nat, x: Hash :: env.heightOf(j, x) == Failure(e))
    || (e == UnresponsiveNode && exists x: Hash :: env.answers(x).NoReply?)
    || (e.MissingBlock? && env.answers(e.hash).NotFound?)
    || (e == IllegalAction(env.nodeState) && !env.nodeState.Operational?)
    || (&& e.StopHeightExceedsFilterTip? && env.filterHeight == Success(e.requested)
        && env.filterTip == Success(e.available) && e.available < e.requested)
  }

  lemma {:induction false} BlocksSaid(st: ClientState, blocks: seq<Block>, i: nat, env: ScanEnv)
    requires i <= |blocks| && ValidCheckPoint(st.checkpoint) && GenesisAgrees(st.checkpoint, env)
    ensures var r := ScanBlocks(st, blocks, i, env).1;
            r.Err? && r.error.Node? ==> exists j: nat, x: Hash :: env.heightOf(j, x) == Failure(r.error.error)
    decreases |blocks| - i
  {
    hide Insert, ApplyBlock, Changes;
    if i < |blocks| {
      BlocksSaid(ScanOne(st, blocks[i], i, env).0, blocks, i + 1, env);
    }
  }

  lemma {:induction false} MatchedSaid(st: ClientState, hashes: seq<Hash>, stop: nat, env: ScanEnv)
    requires ValidCheckPoint(st.checkpoint) && GenesisAgrees(st.checkpoint, env)
    ensures var r := ScanMatched(st, hashes, stop, env).1;
            r.Err? && r.error.Node? ==> NodeSaid(env, r.error.error)
  {
    hide ScanBlocks, Insert, FetchBlocks;
    var (fetched, blocks) := Fetch(st, hashes, env);
    if blocks.Success? {
      BlocksSaid(fetched, blocks.value, 0, env);
    }
  }

  /** A scan that fails with an error of the node passes on an error that the node gave. */
  lemma {:induction false} NodeErrorsAreTheNodes(st: ClientState, kind: ScanKind, env: ScanEnv)
    requires ValidCheckPoint(st.checkpoint) && GenesisAgrees(st.checkpoint, env)
    ensures var r := ScanInner(st, kind, env).1;
            r.Err? && r.error.Node? ==> NodeSaid(env, r.error.error)
  {
    hide ScanMatched, DeriveSpks;
    if env.filterHeight.Success? {
      var spks := DeriveSpks(st.index, Lookahead(st.index, kind));
      if spks.Success? {
        var answer := env.matched(spks.value, StartHeight(st, kind), env.filterHeight.value);
        if answer.Success? {
          MatchedSaid(st.Looked(false).Looked(false), answer.value, env.filterHeight.value, env);
        }
      }
    }
  }

  // ---- What a call returns and says

  /** An event is delivered to a live receiver and to no other; only a poisoned lock is an error. */
  lemma {:induction false} SendsOnlyToReceiver(st: ClientState, e: ScanEvent, how: SendOutcome)
    ensures var (fin, r) := Send(st, e, how);
            && fin.checkpoint == st.checkpoint && fin.index == st.index && fin.graph == st.graph
            && EventsOf(fin.log) == EventsOf(st.log) + (if how == SendOutcome.Delivered then [e] else [])
            && (r == Err(PoisonedLock) <==> how == SendOutcome.Poisoned) && (r != Err(PoisonedLock) ==> r == Ok)
  {
    EventsOfSnoc(st.log, Emitted(e));
  }

  /** The call adds some events, of which this is the last. */
  ghost predicate EndsWith(before: ClientState, after: ClientState, e: ScanEvent) {
    exists w :: EventsOf(after.log) == EventsOf(before.log) + w + [e]
  }

  /**
    What a scan returns: the error of the wait if it never got ready, with nothing
    said; else the outcome of its filter scan, which it also says last, unless the
    lock is poisoned.
   */
  lemma {:induction false} ScanReturns(st: ClientState, kind: ScanKind, env: CallEnv)
    requires st.Valid() && GenesisAgrees(st.checkpoint, env.scan)
    ensures var (fin, r) := Scan(st, kind, env);
            var inner := ScanInner(st, kind, env.scan).1;
            && (env.ready.Err? ==> r == env.ready && fin == st)
            && (env.ready.Ok? && env.closing.Poisoned? ==> r == Err(PoisonedLock))
            && (env.ready.Ok? && !env.closing.Poisoned? ==> r == inner)
            && (env.ready.Ok? && env.closing.Delivered? && r.Ok? ==> EndsWith(st, fin, Finished(false)))
            && (env.ready.Ok? && env.closing.Delivered? && r.Err? ==> EndsWith(st, fin, Error(r.error)))
  {
    hide ScanInner, EventsOf;
    if env.ready.Ok? {
      var w := ScanInnerEmitsUpdates(st, kind, env.scan);
      var (scanned, r) := ScanInner(st, kind, env.scan);
      EventsOfSnoc(scanned.log, Emitted(Finished(false)));
      if r.Err? {
        EventsOfSnoc(scanned.log, Emitted(Error(r.error)));
      }
    }
  }

  /**
    What a continuous scan returns: likewise; a failed filter scan is said and
    returned, a poisoned sink or event lock is returned, and otherwise it is the
    queue loop that goes on.
   */
  lemma {:induction false} ContinuousReturns(
    st: ClientState, kind: ScanKind, env: CallEnv, sinkPoisoned: bool, tape: seq<Selected>)
    requires st.Valid() && GenesisAgrees(st.checkpoint, env.scan)
    ensures var (fin, r) := ScanContinuous(st, kind, env, sinkPoisoned, tape);
            var (scanned, inner) := ScanInner(st, kind, env.scan);
            && (env.ready.Err? ==> r == Some(env.ready) && fin == st)
            && (env.ready.Ok? && sinkPoisoned ==> r == Some(Err(PoisonedLock)) && fin == st)
            && (env.ready.Ok? && !sinkPoisoned ==>
                  && (env.closing.Poisoned? ==> r == Some(Err(PoisonedLock)))
                  && (!env.closing.Poisoned? && inner.Err? ==> r == Some(inner))
                  && (env.closing.Delivered? && inner.Err? ==> EndsWith(st, fin, Error(inner.error)))
                  && (!env.closing.Poisoned? && inner.Ok? ==>
                        exists mid: ClientState ::
                          && mid.checkpoint == scanned.checkpoint && r == QueueLoop(mid, tape, 0).1
                          && (env.closing.Delivered? ==> EndsWith(st, mid, Finished(true)))))
  {
    hide ScanInner, QueueLoop, EventsOf;
    if env.ready.Ok? && !sinkPoisoned {
      var w := ScanInnerEmitsUpdates(st, kind, env.scan);
      var (scanned, r) := ScanInner(st, kind, env.scan);
      var e := if r.Ok? then Finished(true) else Error(r.error);
      EventsOfSnoc(scanned.log, Emitted(e));
      var mid := Send(scanned, e, env.closing).0;
      assert env.closing.Delivered? ==> EndsWith(st, mid, e);
    }
  }

  // ---- The queue loop

  /** The one way in which a turn of the queue loop ends it. */
  predicate Ends(turn: Selected, r: Outcome) {
    match turn
    case Cancelled => r == Err(ScanAborted)
    case Closed => r == Err(Unresponsive)
    case Received(_, _, how) => how.Poisoned? && r == Err(PoisonedLock)
  }

  lemma {:induction false} TurnEnds(st: ClientState, turn: Selected)
    requires ValidCheckPoint(st.checkpoint)
    ensures var r := QueueOne(st, turn).1; if r.Ok? then turn.Received? else Ends(turn, r)
  {
    hide ApplyBlock, Insert;
  }

  /** The queue loop never ends well: it goes on through received blocks until a turn gives it a reason to fail. */
  lemma {:induction false} QueueEndsFor(st: ClientState, tape: seq<Selected>, t: nat)
    requires t <= |tape| && ValidCheckPoint(st.checkpoint)
    ensures match QueueLoop(st, tape, t).1
            case None => forall k :: t <= k < |tape| ==> tape[k].Received?
            case Some(r) =>
              exists k :: t <= k < |tape| && Ends(tape[k], r) && forall j :: t <= j < k ==> tape[j].Received?
    decreases |tape| - t
  {
    hide QueueOne, Ends;
    if t < |tape| {
      TurnEnds(st, tape[t]);
      var (next, r) := QueueOne(st, tape[t]);
      if r.Ok? {
        QueueEndsFor(next, tape, t + 1);
      } else {
        assert Ends(tape[t], r);
      }
    }
  }
}
