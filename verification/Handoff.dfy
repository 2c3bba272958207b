/**
  The handoff from the filter scan to the live queue, end to end: the blocks
  that any interleaving forwards are just what a continuous scan needs, and the
  client applies each of them once.
 */
module Handoff {
  import opened Wrappers
  import opened Blocks
  import opened CheckPoints
  import opened KeychainIndex
  import opened TxGraphs
  import opened Scanning
  import opened Refinement
  import opened Resumption
  import opened Traces
  import opened Histories
  import opened Health
  import F = Forwarding

  /** The turns of the queue loop from t on that take these blocks of the chain. */
  ghost predicate Delivers(tape: seq<Selected>, t: nat, hs: seq<nat>, chain: Chain) {
    && |tape| == t + |hs| && Bounded(hs, |chain|)
    && forall k :: t <= k < |tape| ==> tape[k] == Received(chain[hs[k - t]], hs[k - t], SendOutcome.Delivered)
  }

  // ---- What the queue loop applies

  /** One update for each height, in order, which becomes its tip; it tells of nothing but that block. */
  ghost predicate Announces(w: seq<ScanEvent>, at: seq<nat>, chain: Chain)
    requires Bounded(at, |chain|)
  {
    && |w| == |at|
    && forall k :: 0 <= k < |w| ==>
         w[k].WalletUpdate? && |w[k].update.chain| > 0 && TipHeight(w[k].update.chain) == at[k]
         && Stems(w[k].update.graph, chain[at[k]], at[k])
  }

  /** From st, the client has applied the blocks at these heights, in order, each once, and has sent these events. */
  ghost predicate Applied(st: ClientState, fin: ClientState, at: seq<nat>, w: seq<ScanEvent>, chain: Chain)
    requires |st.checkpoint| > 0
  {
    && fin.Valid() && OnChain(fin.checkpoint, chain) && Bounded(at, |chain|)
    && TipHeight(fin.checkpoint) == F.Last(TipHeight(st.checkpoint), at)
    && IndexedGraph(fin.index, Told(fin)) == ApplyHeights(IndexedGraph(st.index, Told(st)), chain, at)
    && EventsOf(fin.log) == EventsOf(st.log) + w && Announces(w, at, chain)
  }

  lemma {:induction false} AppliedNothing(st: ClientState, fin: ClientState, chain: Chain)
    requires st.Valid() && OnChain(st.checkpoint, chain)
    requires fin.checkpoint == st.checkpoint && fin.index == st.index && fin.graph == st.graph
    requires EventsOf(fin.log) == EventsOf(st.log)
    ensures Applied(st, fin, [], [], chain)
  {
  }

  lemma {:induction false} AppliedThen(
    st: ClientState, mid: ClientState, fin: ClientState, h: nat, v: seq<ScanEvent>,
    rest: seq<nat>, w: seq<ScanEvent>, chain: Chain)
    requires |st.checkpoint| > 0
    requires Applied(st, mid, [h], v, chain) && Applied(mid, fin, rest, w, chain)
    ensures Applied(st, fin, [h] + rest, v + w, chain)
  {
    hide ApplyBlock, Stems, EventsOf, Told;
    var g := IndexedGraph(st.index, Told(st));
    assert [h] == [h] + [];
    ApplyHeightsCons(g, chain, h, []);
    ApplyHeightsCons(g, chain, h, rest);
  }

  lemma {:induction false} QueueOneApplies(st: ClientState, h: nat, chain: Chain)
    returns (w: seq<ScanEvent>)
    requires st.Valid() && OnChain(st.checkpoint, chain) && h < |chain|
    ensures var turn := Received(chain[h], h, SendOutcome.Delivered);
            var (fin, r) := QueueOne(st, turn);
            r.Ok? && Applied(st, fin, if Takes(TipHeight(st.checkpoint), h) then [h] else [], w, chain)
  {
    hide ApplyBlock, Advance, Stems, EventsOf, Agrees, ApplyHeights;
    EventsOfSnoc(st.log, Saw(false));
    w := [];
    if Takes(TipHeight(st.checkpoint), h) {
      var seen := st.Looked(false);
      AdvanceTells(seen, chain, h, SendOutcome.Delivered);
      var e := MoveEmits(seen, Apply(chain[h], h, SendOutcome.Delivered));
      w := [e.value];
      assert ApplyHeights(IndexedGraph(st.index, Told(st)), chain, []) == IndexedGraph(st.index, Told(st)) by {
        NoHeights(IndexedGraph(st.index, Told(st)), chain);
      }
      assert [] + [h] == [h];
      ApplyHeightsSnoc(IndexedGraph(st.index, Told(st)), chain, [], h);
    } else {
      AppliedNothing(st, st.Looked(false), chain);
    }
  }

  lemma {:induction false} NoHeights(g: IndexedGraph, chain: Chain)
    ensures ApplyHeights(g, chain, []) == g
  {
  }

  /**
    Fed with blocks of the chain, the client's queue loop applies exactly those
    that the step system's receive steps take, in order, each once: one update
    for each, and index and told graph are those of applying them.
   */
  lemma {:induction false} QueueLoopApplies(st: ClientState, tape: seq<Selected>, t: nat, hs: seq<nat>, chain: Chain)
    returns (w: seq<ScanEvent>)
    requires t <= |tape| && st.Valid() && OnChain(st.checkpoint, chain) && Delivers(tape, t, hs, chain)
    ensures QueueLoop(st, tape, t).1 == None
    ensures Applied(st, QueueLoop(st, tape, t).0, F.Taken(TipHeight(st.checkpoint), hs), w, chain)
    decreases |tape| - t
  {
    hide QueueOne, Applied, EventsOf;
    w := [];
    if t == |tape| {
      AppliedNothing(st, st, chain);
    } else {
      var h := hs[0];
      var v := QueueOneApplies(st, h, chain);
      var next := QueueOne(st, tape[t]).0;
      AppliedIsValid(st, next, if Takes(TipHeight(st.checkpoint), h) then [h] else [], v, chain);
      assert Delivers(tape, t + 1, hs[1..], chain);
      w := QueueLoopApplies(next, tape, t + 1, hs[1..], chain);
      var rest := F.Taken(TipHeight(next.checkpoint), hs[1..]);
      if Takes(TipHeight(st.checkpoint), h) {
        AppliedThen(st, next, QueueLoop(st, tape, t).0, h, v, rest, w, chain);
        w := v + w;
      } else {
        AppliedAfterSkip(st, next, QueueLoop(st, tape, t).0, v, rest, w, chain);
      }
    }
  }

  lemma {:induction false} AppliedIsValid(
    st: ClientState, fin: ClientState, at: seq<nat>, w: seq<ScanEvent>, chain: Chain)
    requires |st.checkpoint| > 0 && Applied(st, fin, at, w, chain) && |at| <= 1
    ensures fin.Valid() && OnChain(fin.checkpoint, chain)
    ensures TipHeight(fin.checkpoint) == if at == [] then TipHeight(st.checkpoint) else at[0]
  {
  }

  lemma {:induction false} AppliedAfterSkip(
    st: ClientState, mid: ClientState, fin: ClientState, v: seq<ScanEvent>,
    at: seq<nat>, w: seq<ScanEvent>, chain: Chain)
    requires |st.checkpoint| > 0 && Applied(st, mid, [], v, chain) && Applied(mid, fin, at, w, chain)
    ensures Applied(st, fin, at, w, chain)
  {
    NoHeights(IndexedGraph(st.index, Told(st)), chain);
    assert EventsOf(st.log) + [] == EventsOf(st.log);
  }

  // ---- End to end

  lemma {:induction false} RangeIsConsecutive(tape: seq<Selected>, t: nat, lo: nat, hi: nat, top: nat, chain: Chain)
    requires t <= |tape| && Delivers(tape, 0, Range(lo, hi), chain)
    requires lo + t <= top + 1
    ensures Consecutive(tape, t, top, chain)
    decreases |tape| - t
  {
    if t < |tape| {
      RangeIsConsecutive(tape, t + 1, lo, hi, Max(top, lo + t), chain);
    }
  }

  /** A continuous scan is in its queue phase, and its filter scan has covered every block that the channel misses. */
  ghost predicate Covered(validated: nat, tip: nat, steps: seq<F.Step>) {
    && F.Possible(F.Init(validated, tip), steps)
    && var s := F.Exec(F.Init(validated, tip), steps); s.phase.Queueing? && s.missed <= s.phase.stop
  }

  /** It is enough that the filter height covers what was validated before attachment. */
  lemma {:induction false} AttachmentIsEnough(validated: nat, tip: nat, steps: seq<F.Step>)
    requires F.Possible(F.Init(validated, tip), steps)
    requires F.Exec(F.Init(validated, tip), steps).phase.Queueing?
    requires F.Exec(F.Init(validated, tip), steps).attachedAt <= F.Exec(F.Init(validated, tip), steps).phase.stop
    ensures Covered(validated, tip, steps)
  {
    hide F.Possible, F.Exec;
    F.ReachableInv(validated, tip, steps);
  }

  /**
    In every interleaving, the blocks received by a queue loop whose filter scan
    covers the missed ones have no gap.
   */
  lemma {:induction false} ForwardedBlocksAreConsecutive(
    validated: nat, tip: nat, steps: seq<F.Step>, tape: seq<Selected>, chain: Chain)
    requires Covered(validated, tip, steps)
    requires Delivers(tape, 0, F.Exec(F.Init(validated, tip), steps).received, chain)
    ensures Consecutive(tape, 0, F.Exec(F.Init(validated, tip), steps).phase.stop, chain)
  {
    hide F.Possible, F.Exec, F.Shape, F.Counted, F.Heights, Range;
    F.ReachableInv(validated, tip, steps);
    var s := F.Exec(F.Init(validated, tip), steps);
    F.ReceivedInOrder(s);
    RangeIsConsecutive(tape, 0, s.missed + 1, s.missed + 1 + |s.received|, s.phase.stop, chain);
  }

  /** The call is the continuous scan of that interleaving: its filter height and its queue are those of the run. */
  ghost predicate Feeds(s: F.Sys, c: Call, chain: Chain) {
    && s.phase.Queueing? && c.Continuous?
    && c.env.scan.filterHeight == Success(s.phase.stop) && Delivers(c.tape, 0, s.received, chain)
  }

  /**
    End to end: a continuous scan fed by any covered interleaving tells the
    wallet all that the reference run contributes, up to the last block taken
    from the queue. Only the filter scan needs to see what contributes.
   */
  lemma {:induction false} ContinuousScanLosesNothing(
    validated: nat, tip: nat, steps: seq<F.Step>,
    st: ClientState, c: Call, i: Index, chain: Chain, ledger: Ledger, lo: nat)
    requires Covered(validated, tip, steps) && Feeds(F.Exec(F.Init(validated, tip), steps), c, chain)
    requires Ahead(st, i, chain, lo) && Sees(st, c.kind, c.env.scan, i, chain, ledger, lo)
    requires GenesisAgrees(st.checkpoint, c.env.scan) && Truthful(c.env.scan, chain, ledger) && Live(c.env.scan)
    ensures Ahead(RunCall(st, c), i, chain, lo)
  {
    hide F.Possible, F.Exec, RunCall, Truthful, Live, Sees, Consecutive, Ahead;
    ForwardedBlocksAreConsecutive(validated, tip, steps, c.tape, chain);
    AheadIsValid(st, i, chain, lo);
    var stop := c.env.scan.filterHeight.value;
    HigherTop(c.tape, 0, stop, Max(TipHeight(st.checkpoint), stop), chain);
    assert Fair(st, c, i, chain, ledger, lo);
    CallKeepsAhead(st, c, i, chain, ledger, lo);
  }

  lemma {:induction false} AheadIsValid(st: ClientState, i: Index, chain: Chain, lo: nat)
    requires Ahead(st, i, chain, lo)
    ensures st.Valid()
  {
  }

  /** The filter scan of this call succeeds, its range starts where it must, and the queue phase begins. */
  ghost predicate ReachesQueue(st: ClientState, c: Call)
    requires ValidCheckPoint(st.checkpoint) && GenesisAgrees(st.checkpoint, c.env.scan)
  {
    && c.Continuous? && c.env.ready.Ok? && !c.sinkPoisoned && !c.env.closing.Poisoned?
    && ScanInner(st, c.kind, c.env.scan).1.Ok?
  }

  /** The client between the two phases. */
  function AtHandoff(st: ClientState, c: Call): ClientState
    requires ValidCheckPoint(st.checkpoint) && GenesisAgrees(st.checkpoint, c.env.scan)
  {
    Send(ScanInner(st, c.kind, c.env.scan).0, Finished(true), c.env.closing).0
  }

  /** The contributions of the filter scan's own range touch a script that it derives. */
  ghost predicate FilterPartVisible(st: ClientState, c: Call, stop: nat, chain: Chain, ledger: Ledger)
    requires |st.checkpoint| > 0 && stop < |chain|
  {
    var spks := DeriveSpks(st.index, Lookahead(st.index, c.kind));
    spks.Success? && Visible(st.index, ledger, chain, StartHeight(st, c.kind), stop + 1, spks.value)
  }

  lemma {:induction false} FilterPart(st: ClientState, c: Call, stop: nat, chain: Chain, ledger: Ledger)
    requires st.Valid() && OnChain(st.checkpoint, chain)
    requires GenesisAgrees(st.checkpoint, c.env.scan) && Truthful(c.env.scan, chain, ledger) && Live(c.env.scan)
    requires c.env.scan.filterHeight == Success(stop) && stop < |chain| && ReachesQueue(st, c)
    requires TipHeight(st.checkpoint) <= stop && FilterPartVisible(st, c, stop, chain, ledger)
    ensures var mid := AtHandoff(st, c);
            && mid.Valid() && OnChain(mid.checkpoint, chain) && TipHeight(mid.checkpoint) == stop
            && StartHeight(st, c.kind) <= stop
            && IndexedGraph(mid.index, Told(mid)) ==
               Naive(IndexedGraph(st.index, Told(st)), chain, StartHeight(st, c.kind), stop + 1)
  {
    hide ScanInner, Naive, DeriveSpks, Told, FilterTruthful, Visible;
    var hits: FilterHits :| FilterTruthful(c.env.scan, chain, ledger, hits);
    ClosesRange(st, c.kind, c.env.scan);
    FilterScanRefinesNaive(st, c.kind, c.env.scan, chain, ledger, hits);
    FinishedTip(st, c.kind, c.env.scan, chain, ledger, hits);
    DrainingIsHomomorphic(st.index, Told(st), chain, StartHeight(st, c.kind), stop + 1);
    ScanStaysOnChain(st, c.kind, c.env.scan, chain, ledger, hits);
    ClosingTellsNothing(ScanInner(st, c.kind, c.env.scan).0, Finished(true), c.env.closing);
  }

  lemma {:induction false} ScanStaysOnChain(
    st: ClientState, kind: ScanKind, env: ScanEnv, chain: Chain, ledger: Ledger, hits: FilterHits)
    requires st.Valid() && OnChain(st.checkpoint, chain)
    requires GenesisAgrees(st.checkpoint, env) && NodeTruthful(env, chain) && Live(env)
    requires FilterTruthful(env, chain, ledger, hits)
    ensures ScanInner(st, kind, env).0.Valid() && OnChain(ScanInner(st, kind, env).0.checkpoint, chain)
  {
    hide ScanInner, ApplyHeights;
    var _ := ScanInnerAppliesPrefix(st, kind, env, chain, ledger, hits);
  }

  /** Applying the blocks that follow a reference run continues it. */
  lemma {:induction false} NaiveGoesOn(g: IndexedGraph, chain: Chain, lo: nat, mid: nat, hi: nat)
    requires lo <= mid <= hi <= |chain|
    ensures Bounded(Range(mid, hi), |chain|)
    ensures ApplyHeights(Naive(g, chain, lo, mid), chain, Range(mid, hi)) == Naive(g, chain, lo, hi)
    decreases hi
  {
    hide ApplyBlock;
    if mid < hi {
      NaiveGoesOn(g, chain, lo, mid, hi - 1);
      F.RangeSnoc(mid, hi - 1);
      ApplyHeightsSnoc(Naive(g, chain, lo, mid), chain, Range(mid, hi - 1), hi - 1);
    }
  }

  /**
    The exact result of a continuous scan, at any moment of any covered
    interleaving: the client stands where the step system does, has sent one
    queue update for each block the step system applied, in order, and index and
    told graph are those of applying every block from the start of the filter
    scan up to the tip to one undrained graph.
   */
  lemma {:induction false} ContinuousScanIsExact(
    validated: nat, tip: nat, steps: seq<F.Step>,
    st: ClientState, c: Call, chain: Chain, ledger: Ledger)
    returns (w: seq<ScanEvent>)
    requires Covered(validated, tip, steps) && Feeds(F.Exec(F.Init(validated, tip), steps), c, chain)
    requires st.Valid() && OnChain(st.checkpoint, chain)
    requires GenesisAgrees(st.checkpoint, c.env.scan) && Truthful(c.env.scan, chain, ledger) && Live(c.env.scan)
    requires ReachesQueue(st, c)
    requires F.Exec(F.Init(validated, tip), steps).startTip == TipHeight(st.checkpoint)
    requires var stop := F.Exec(F.Init(validated, tip), steps).phase.stop;
             TipHeight(st.checkpoint) <= stop < |chain| && FilterPartVisible(st, c, stop, chain, ledger)
    ensures var s, fin := F.Exec(F.Init(validated, tip), steps), RunCall(st, c);
            && TipHeight(fin.checkpoint) == s.tip < |chain|
            && Bounded(s.applied, |chain|) && Announces(w, s.applied, chain)
            && EventsOf(fin.log) == EventsOf(AtHandoff(st, c).log) + w
            && IndexedGraph(fin.index, Told(fin)) ==
               Naive(IndexedGraph(st.index, Told(st)), chain, StartHeight(st, c.kind), s.tip + 1)
  {
    hide F.Possible, F.Exec, F.Shape, F.Heights, F.Taken, Range;
    hide ScanInner, QueueLoop, Naive, ApplyHeights, Told, EventsOf, Truthful, Live, Announces, FilterPartVisible;
    var s := F.Exec(F.Init(validated, tip), steps);
    var stop, mid := s.phase.stop, AtHandoff(st, c);
    FilterPart(st, c, stop, chain, ledger);
    w := QueueLoopApplies(mid, c.tape, 0, s.received, chain);
    F.ReachableInv(validated, tip, steps);
    F.QueueHasNoGap(validated, tip, steps);
    NaiveGoesOn(IndexedGraph(st.index, Told(st)), chain, StartHeight(st, c.kind), stop + 1, s.tip + 1);
  }

  // ---- Such runs exist

  /** A client attaches, scans up to the stop height and then receives every block up to any height. */
  lemma {:induction false} FullRun(tip: nat, stop: nat, top: nat)
    returns (steps: seq<F.Step>)
    requires tip <= stop <= top
    ensures Covered(stop, tip, steps)
    ensures var s := F.Exec(F.Init(stop, tip), steps);
            s.startTip == tip && s.phase.stop == stop && s.received == Range(stop + 1, top + 1)
  {
    hide F.Possible, F.Exec;
    var s0 := F.Init(stop, tip);
    var s1 := F.Next(s0, F.Attach);
    var s2 := F.Next(s1, F.ReadFilterHeight(stop));
    var s3 := F.Next(s2, F.FinishFilterScan);
    var end := F.QueueReceives(s3, top);
    F.LeadsBy(s2, F.FinishFilterScan, end);
    F.LeadsBy(s1, F.ReadFilterHeight(stop), end);
    F.LeadsBy(s0, F.Attach, end);
    assert F.Reaches(s0, end);
    steps :| F.Possible(s0, steps) && F.Exec(s0, steps) == end;
  }

  /** The turns that take the blocks above the stop height up to the top. */
  function ReceiveAll(chain: Chain, stop: nat, top: nat): (tape: seq<Selected>)
    requires stop <= top < |chain|
    ensures Delivers(tape, 0, Range(stop + 1, top + 1), chain)
  {
    seq(top - stop, k requires 0 <= k < top - stop =>
      Received(chain[stop + 1 + k], stop + 1 + k, SendOutcome.Delivered))
  }

  /**
    On every chain, for every kind of scan with a range and every height above its
    stop, there is a continuous scan that succeeds and then receives all blocks up
    to that height: to it the end-to-end results apply, as far as its scripts see.
   */
  lemma {:induction false} ContinuousRunExists(
    st: ClientState, kind: ScanKind, chain: Chain, ledger: Ledger, stop: nat, top: nat)
    returns (c: Call, steps: seq<F.Step>)
    requires st.Valid() && OnChain(st.checkpoint, chain) && DistinctHashes(chain)
    requires External in st.index.descriptors && StartHeight(st, kind) <= stop <= top < |chain|
    requires TipHeight(st.checkpoint) <= stop
    ensures c.kind == kind && GenesisAgrees(st.checkpoint, c.env.scan)
    ensures Truthful(c.env.scan, chain, ledger) && Live(c.env.scan) && ReachesQueue(st, c)
    ensures Covered(stop, TipHeight(st.checkpoint), steps)
    ensures var s := F.Exec(F.Init(stop, TipHeight(st.checkpoint)), steps);
            && Feeds(s, c, chain) && s.startTip == TipHeight(st.checkpoint) && s.phase.stop == stop
            && s.received == Range(stop + 1, top + 1)
  {
    hide ScanInner, Truthful, Live, GenesisAgrees, F.Exec, F.Possible, DistinctHashes, ReceiveAll, Range;
    var env := TruthfulScanExists(st, kind, chain, ledger, stop);
    steps := FullRun(TipHeight(st.checkpoint), stop, top);
    c := Continuous(kind, CallEnv(Ok, env, SendOutcome.Delivered), false, ReceiveAll(chain, stop, top));
  }
}
