/**
  Whole histories of a client: scans and continuous scans one after the other,
  each of which may fail at any point. Nothing between the first checkpoint and
  the current tip is lost.
 */
module Resumption {
  import opened Wrappers
  import opened Blocks
  import opened CheckPoints
  import opened KeychainIndex
  import opened TxGraphs
  import opened Scanning
  import opened Refinement

  lemma {:induction false} ApplyHeightsGrows(g: IndexedGraph, chain: Chain, hs: seq<nat>)
    requires Bounded(hs, |chain|)
    ensures Dominated(g, ApplyHeights(g, chain, hs))
  {
    if hs != [] {
      var h := hs[|hs| - 1];
      ApplyHeightsGrows(g, chain, hs[..|hs| - 1]);
      ApplyBlockMonotone(g, ApplyHeights(g, chain, hs[..|hs| - 1]), chain[h], h);
    }
  }

  /** The reference run over [lo, hi) from the first index, started with an empty graph. */
  function Reference(i: Index, chain: Chain, lo: nat, hi: nat): IndexedGraph
    requires hi <= |chain|
  {
    Naive(IndexedGraph(i, EMPTY_GRAPH), chain, lo, hi)
  }

  lemma {:induction false} ReferenceStep(i: Index, chain: Chain, lo: nat, hi: nat)
    requires lo < hi <= |chain|
    ensures Reference(i, chain, lo, hi) == ApplyBlock(Reference(i, chain, lo, hi - 1), chain[hi - 1], hi - 1)
    ensures !Contributes(i, chain, lo, hi - 1) ==> Reference(i, chain, lo, hi) == Reference(i, chain, lo, hi - 1)
  {
    KeptOrUnchanged(Reference(i, chain, lo, hi - 1), BlockId(hi - 1, chain[hi - 1].hash), chain[hi - 1].txs);
  }

  /**
    A scan that starts no later than where the reference stands, and applies
    every block that contributes from there on, keeps ahead of the reference.
   */
  lemma {:induction false} KeepsAhead(
    g: IndexedGraph, i: Index, chain: Chain, lo: nat, mid: nat, hi: nat, hs: seq<nat>)
    requires lo <= mid <= hi <= |chain| && Ascending(hs) && Bounded(hs, |chain|)
    requires Dominated(Reference(i, chain, lo, mid), g)
    requires forall h :: mid <= h < hi && Contributes(i, chain, lo, h) ==> h in hs
    ensures Dominated(Reference(i, chain, lo, hi), ApplyHeights(g, chain, hs))
    decreases hi, |hs|
  {
    hide ApplyBlock, Le, Contributes, Reference;
    if mid == hi {
      ApplyHeightsGrows(g, chain, hs);
      DominatedTransitive(Reference(i, chain, lo, hi), g, ApplyHeights(g, chain, hs));
    } else if !Contributes(i, chain, lo, hi - 1) {
      ReferenceStep(i, chain, lo, hi);
      KeepsAhead(g, i, chain, lo, mid, hi - 1, hs);
    } else {
      ReferenceStep(i, chain, lo, hi);
      var last, init := hs[|hs| - 1], hs[..|hs| - 1];
      assert forall h :: h in hs && h != last ==> h in init by {
        assert hs == init + [last];
      }
      if last == hi - 1 {
        KeepsAhead(g, i, chain, lo, mid, hi - 1, init);
        ApplyBlockMonotone(Reference(i, chain, lo, hi - 1), ApplyHeights(g, chain, init), chain[last], last);
      } else {
        assert last >= hi by {
          var k :| 0 <= k < |hs| && hs[k] == hi - 1;
        }
        KeepsAhead(g, i, chain, lo, mid, hi, init);
        ApplyBlockMonotone(Reference(i, chain, lo, hi), ApplyHeights(g, chain, init), chain[last], last);
      }
    }
  }

  // ---- One call

  /** The client has told the wallet at least what the reference run from lo up to its tip contributes. */
  ghost predicate Ahead(st: ClientState, i: Index, chain: Chain, lo: nat) {
    && st.Valid() && OnChain(st.checkpoint, chain)
    && TipHeight(st.checkpoint) < |chain| && lo <= TipHeight(st.checkpoint) + 1
    && Dominated(Reference(i, chain, lo, TipHeight(st.checkpoint) + 1), IndexedGraph(st.index, Told(st)))
    && Le(i, st.index)
  }

  /**
    What a filter scan needs so as to lose nothing, at the state in which it is
    made: every block above the tip that contributes, up to the filter height,
    lies in its range and touches a script that it derives.
   */
  ghost predicate Sees(
    st: ClientState, kind: ScanKind, env: ScanEnv, i: Index, chain: Chain, ledger: Ledger, lo: nat)
    requires |st.checkpoint| > 0
  {
    var spks := DeriveSpks(st.index, Lookahead(st.index, kind));
    spks.Success? && env.filterHeight.Success? ==>
      SeesAbove(TipHeight(st.checkpoint), StartHeight(st, kind), env.filterHeight.value, spks.value,
                i, chain, ledger, lo)
  }

  /** The contributions above the tip, up to the stop height, are in range and touch one of the scripts. */
  ghost predicate SeesAbove(
    tip: nat, start: nat, stop: nat, spks: seq<Script>, i: Index, chain: Chain, ledger: Ledger, lo: nat)
  {
    forall h :: tip < h <= stop && h < |chain| && Contributes(i, chain, lo, h) ==>
      start <= h && Touches(ledger, chain[h], spks)
  }

  /** The hits that a scan got through contain all contributions between the old tip and the new. */
  lemma {:induction false} PrefixHasContributors(
    i: Index, chain: Chain, ledger: Ledger, lo: nat, spks: seq<Script>,
    tip: nat, start: nat, stop: nat, hs: seq<nat>, n: nat, after: nat)
    requires stop < |chain| && Hits(ledger, chain, spks, start, stop + 1, hs)
    requires SeesAbove(tip, start, stop, spks, i, chain, ledger, lo)
    requires after <= stop + 1 && n <= |hs| && (n < |hs| ==> after <= hs[n])
    ensures Ascending(hs[..n])
    ensures forall h :: tip < h < after && Contributes(i, chain, lo, h) ==> h in hs[..n]
  {
    hide Contributes, Touches;
    forall h | tip < h < after && Contributes(i, chain, lo, h) ensures h in hs[..n] {
      var k :| 0 <= k < |hs| && hs[k] == h;
      assert k < n;
      assert hs[..n][k] == h;
    }
  }

  lemma {:induction false} ScanInnerKeepsAhead(
    st: ClientState, kind: ScanKind, env: ScanEnv, i: Index, chain: Chain, ledger: Ledger, lo: nat)
    requires Ahead(st, i, chain, lo) && Sees(st, kind, env, i, chain, ledger, lo)
    requires GenesisAgrees(st.checkpoint, env) && Truthful(env, chain, ledger) && Live(env)
    ensures Ahead(ScanInner(st, kind, env).0, i, chain, lo)
    ensures TipHeight(st.checkpoint) <= TipHeight(ScanInner(st, kind, env).0.checkpoint)
  {
    hide ScanInner, ApplyHeights, DeriveSpks, Contributes, Reference, GenesisAgrees, SeesAbove, Live, Hits;
    var hits: FilterHits :| FilterTruthful(env, chain, ledger, hits);
    var fin := ScanInner(st, kind, env).0;
    var hs := ScanHits(st, kind, env, hits);
    var n := ScanInnerAppliesPrefix(st, kind, env, chain, ledger, hits);
    var g := IndexedGraph(st.index, Told(st));
    var tip, after := TipHeight(st.checkpoint), TipHeight(fin.checkpoint) + 1;
    ApplyHeightsGrows(g, chain, hs[..n]);
    if tip + 1 < after {
      var spks := DeriveSpks(st.index, Lookahead(st.index, kind)).value;
      var start, stop := StartHeight(st, kind), env.filterHeight.value;
      PrefixHasContributors(i, chain, ledger, lo, spks, tip, start, stop, hs, n, after);
      KeepsAhead(g, i, chain, lo, tip + 1, after, hs[..n]);
    } else {
      DominatedTransitive(Reference(i, chain, lo, tip + 1), g, ApplyHeights(g, chain, hs[..n]));
    }
  }

  /**
    A condition on the client alone: if no keychain is short when the scan is
    made, the scan sees the next block that contributes, however far the window
    has moved since the first scan.
   */
  lemma {:induction false} NextContributionIsSeen(
    st: ClientState, kind: ScanKind, i: Index, chain: Chain, ledger: Ledger, lo: nat, h: nat)
    requires Ahead(st, i, chain, lo) && Owns(i, ledger) && ChainAgrees(ledger, chain)
    requires External in st.index.descriptors && !Short(st.index, Lookahead(st.index, kind))
    requires TipHeight(st.checkpoint) < h < |chain| && Contributes(i, chain, lo, h)
    requires forall g :: TipHeight(st.checkpoint) < g < h ==> !Contributes(i, chain, lo, g)
    ensures Touches(ledger, chain[h], DeriveSpks(st.index, Lookahead(st.index, kind)).value)
  {
    hide Keeps, Short, InWindow, Touches;
    var at := Reference(i, chain, lo, h).index;
    IdleBlocksChangeNothing(i, chain, lo, TipHeight(st.checkpoint) + 1, h);
    NaiveOwns(i, chain, lo, h, ledger);
    WindowCoversWatched(st.index, Lookahead(st.index, kind));
    var spks := DeriveSpks(st.index, Lookahead(st.index, kind)).value;
    assert forall s :: Watches(at, s) ==> s in spks by {
      forall s | Watches(at, s) ensures s in spks {
        assert NextReveal(at, s.keychain) <= NextReveal(st.index, s.keychain);
        assert Watches(st.index, s);
      }
    }
    if !Touches(ledger, chain[h], spks) {
      UntouchedByAny(ledger, chain[h], spks);
      UntouchedKeepsNothing(at, chain[h].txs, spks, ledger);
    }
  }

  lemma {:induction false} UntouchedByAny(ledger: Ledger, b: Block, spks: seq<Script>)
    requires !Touches(ledger, b, spks)
    ensures forall t :: t in b.txs ==> !TxTouches(ledger, t, spks)
  {
  }

  /** Blocks that contribute nothing leave the reference run where it was. */
  lemma {:induction false} IdleBlocksChangeNothing(i: Index, chain: Chain, lo: nat, mid: nat, hi: nat)
    requires lo <= mid <= hi <= |chain|
    requires forall h :: mid <= h < hi ==> !Contributes(i, chain, lo, h)
    ensures Reference(i, chain, lo, hi) == Reference(i, chain, lo, mid)
    decreases hi
  {
    hide Contributes, Reference;
    if mid < hi {
      IdleBlocksChangeNothing(i, chain, lo, mid, hi - 1);
      ReferenceStep(i, chain, lo, hi);
    }
  }

  /** Sending an event other than an update tells the wallet nothing. */
  lemma {:induction false} ClosingTellsNothing(st: ClientState, e: ScanEvent, how: SendOutcome)
    requires !e.WalletUpdate?
    ensures Told(Send(st, e, how).0) == Told(st)
  {
    EventsOfSnoc(st.log, Emitted(e));
    MergedSnoc(EventsOf(st.log), e);
  }

  // ---- The queue

  /** Received blocks are on the chain, arrive, and never skip a height above the highest one so far. */
  ghost predicate Consecutive(tape: seq<Selected>, t: nat, top: nat, chain: Chain)
    requires t <= |tape|
    decreases |tape| - t
  {
    t < |tape| ==>
      match tape[t]
      case Received(block, height, how) =>
        && height <= top + 1 && height < |chain| && block == chain[height] && how.Delivered?
        && Consecutive(tape, t + 1, Max(top, height), chain)
      case _ => Consecutive(tape, t + 1, top, chain)
  }

  lemma {:induction false} HigherTop(tape: seq<Selected>, t: nat, low: nat, high: nat, chain: Chain)
    requires t <= |tape| && low <= high && Consecutive(tape, t, low, chain)
    ensures Consecutive(tape, t, high, chain)
    decreases |tape| - t
  {
    if t < |tape| {
      var below := if tape[t].Received? then tape[t].height else 0;
      HigherTop(tape, t + 1, Max(low, below), Max(high, below), chain);
    }
  }

  lemma {:induction false} QueueOneKeepsAhead(st: ClientState, turn: Selected, i: Index, chain: Chain, lo: nat)
    requires Ahead(st, i, chain, lo)
    requires turn.Received? ==> turn.height <= TipHeight(st.checkpoint) + 1 && turn.height < |chain|
                                && turn.block == chain[turn.height] && turn.send.Delivered?
    ensures var fin := QueueOne(st, turn).0;
            && Ahead(fin, i, chain, lo)
            && TipHeight(fin.checkpoint) ==
               if turn.Received? then Max(turn.height, TipHeight(st.checkpoint)) else TipHeight(st.checkpoint)
  {
    EventsOfSnoc(st.log, Saw(true));
    EventsOfSnoc(st.log, Saw(false));
    if turn.Received? && Takes(TipHeight(st.checkpoint), turn.height) {
      hide ApplyBlock, Insert;
      var h := turn.height;
      var seen := st.Looked(false);
      AdvanceTells(seen, chain, h, turn.send);
      NextStaysAhead(i, chain, lo, h, IndexedGraph(st.index, Told(st)));
    }
  }

  lemma {:induction false} NextStaysAhead(i: Index, chain: Chain, lo: nat, h: nat, g: IndexedGraph)
    requires lo <= h < |chain| && Dominated(Reference(i, chain, lo, h), g) && Le(i, g.index)
    ensures Dominated(Reference(i, chain, lo, h + 1), ApplyBlock(g, chain[h], h))
    ensures Le(i, ApplyBlock(g, chain[h], h).index)
  {
    ApplyBlockMonotone(Reference(i, chain, lo, h), g, chain[h], h);
  }

  lemma {:induction false} QueueLoopKeepsAhead(
    st: ClientState, tape: seq<Selected>, t: nat, i: Index, chain: Chain, lo: nat)
    requires t <= |tape| && Ahead(st, i, chain, lo)
    requires Consecutive(tape, t, TipHeight(st.checkpoint), chain)
    ensures Ahead(QueueLoop(st, tape, t).0, i, chain, lo)
    ensures TipHeight(st.checkpoint) <= TipHeight(QueueLoop(st, tape, t).0.checkpoint)
    decreases |tape| - t
  {
    hide QueueOne, Dominated, Reference, OnChain, Le;
    if t < |tape| {
      QueueOneKeepsAhead(st, tape[t], i, chain, lo);
      var (next, r) := QueueOne(st, tape[t]);
      if r.Ok? {
        QueueLoopKeepsAhead(next, tape, t + 1, i, chain, lo);
      }
    }
  }

  // ---- Sequences of calls

  /**
    Everything that this call observes is true and all that it sends arrives; its
    queue has no gap above the greater of its tip and its filter height.
   */
  ghost predicate Sound(st: ClientState, c: Call, chain: Chain, ledger: Ledger)
    requires |st.checkpoint| > 0
  {
    && GenesisAgrees(st.checkpoint, c.env.scan) && Truthful(c.env.scan, chain, ledger) && Live(c.env.scan)
    && (c.Continuous? && c.env.scan.filterHeight.Success? ==>
          Consecutive(c.tape, 0, Max(TipHeight(st.checkpoint), c.env.scan.filterHeight.value), chain))
  }

  /** The call is sound and its scan sees what it needs to. */
  ghost predicate Fair(st: ClientState, c: Call, i: Index, chain: Chain, ledger: Ledger, lo: nat)
    requires |st.checkpoint| > 0
  {
    Sound(st, c, chain, ledger) && Sees(st, c.kind, c.env.scan, i, chain, ledger, lo)
  }

  lemma {:induction false} CallKeepsAhead(
    st: ClientState, c: Call, i: Index, chain: Chain, ledger: Ledger, lo: nat)
    requires Ahead(st, i, chain, lo) && Fair(st, c, i, chain, ledger, lo)
    ensures Ahead(RunCall(st, c), i, chain, lo)
    ensures TipHeight(st.checkpoint) <= TipHeight(RunCall(st, c).checkpoint)
  {
    hide ScanInner, QueueLoop, Dominated, Reference, OnChain, Le, Truthful, Live, Sees;
    var kind, env := c.kind, c.env;
    if c.Dropped? {
      DroppedCallIsInert(st, kind, env, c.forBlocks);
      return;
    }
    ScanInnerKeepsAhead(st, kind, env.scan, i, chain, ledger, lo);
    var (scanned, r) := ScanInner(st, kind, env.scan);
    var event := if r.Err? then Error(r.error) else Finished(c.Continuous?);
    ClosingTellsNothing(scanned, event, env.closing);
    var closed := Send(scanned, event, env.closing).0;
    assert Ahead(closed, i, chain, lo);
    if c.Continuous? && r.Ok? {
      ClosesRange(st, kind, env.scan);
      HigherTop(c.tape, 0, Max(TipHeight(st.checkpoint), env.scan.filterHeight.value),
                TipHeight(closed.checkpoint), chain);
      QueueLoopKeepsAhead(closed, c.tape, 0, i, chain, lo);
    }
  }

  /** Each call is fair at the state in which it is made. */
  ghost predicate AllFair(st: ClientState, calls: seq<Call>, i: Index, chain: Chain, ledger: Ledger, lo: nat)
    requires Callable(st, calls)
    decreases |calls|
  {
    calls == [] ||
    var init, c := calls[..|calls| - 1], calls[|calls| - 1];
    AllFair(st, init, i, chain, ledger, lo) && Fair(RunCalls(st, init), c, i, chain, ledger, lo)
  }

  /**
    Nothing is lost. After any sequence of calls, each fair when it is made and
    whatever its outcome, the wallet has been told every transaction and anchor
    that the reference run contributes between the first checkpoint and the
    current tip.
   */
  lemma {:induction false} NothingLost(st: ClientState, calls: seq<Call>, chain: Chain, ledger: Ledger)
    requires st.Valid() && OnChain(st.checkpoint, chain) && Callable(st, calls)
    requires AllFair(st, calls, st.index, chain, ledger, TipHeight(st.checkpoint) + 1)
    ensures var lo, fin := TipHeight(st.checkpoint) + 1, RunCalls(st, calls);
            && Ahead(fin, st.index, chain, lo)
            && TipHeight(st.checkpoint) <= TipHeight(fin.checkpoint)
    decreases |calls|
  {
    hide RunCall, Fair;
    var lo := TipHeight(st.checkpoint) + 1;
    if calls == [] {
      assert st.checkpoint[|st.checkpoint| - 1] in st.checkpoint;
    } else {
      var init, c := calls[..|calls| - 1], calls[|calls| - 1];
      NothingLost(st, init, chain, ledger);
      CallKeepsAhead(RunCalls(st, init), c, st.index, chain, ledger, lo);
    }
  }
}
