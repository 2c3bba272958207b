/**
  Scans that start above the client's tip: when they lose a block, and which
  starts are safe on every chain.
 */
module Jumps {
  import opened Wrappers
  import opened Blocks
  import opened CheckPoints
  import opened KeychainIndex
  import opened TxGraphs
  import opened Scanning
  import opened Refinement
  import opened Resumption
  import opened Traces
  import opened Histories
  import opened Health

  /** Nothing that the wallet has been told lies above the tip. */
  ghost predicate ToldBelowTip(st: ClientState)
    requires |st.checkpoint| > 0
  {
    forall a :: a in Told(st).anchors ==> a.block.height <= TipHeight(st.checkpoint)
  }

  lemma {:induction false} MergedBelowTip(es: seq<ScanEvent>, c: CheckPoint)
    requires AllAgree(es) && Nested(es, c) && ValidCheckPoint(c)
    ensures forall a :: a in Merged(es).anchors ==> a.block.height <= TipHeight(c)
    decreases |es|
  {
    hide Extends, Agrees;
    if es != [] {
      var init, e := es[..|es| - 1], es[|es| - 1];
      MergedBelowTip(init, c);
      if e.WalletUpdate? {
        assert Agrees(e.update) && Extends(e.update.chain, c);
        AnchorsBelowTip(e.update, c);
      }
    }
  }

  lemma {:induction false} AnchorsBelowTip(u: Update, c: CheckPoint)
    requires Agrees(u) && Extends(u.chain, c) && ValidCheckPoint(c)
    ensures forall a :: a in u.graph.anchors ==> a.block.height <= TipHeight(c)
  {
  }

  /** While the node tells the truth about one chain, no history of a new client tells of a block above its tip. */
  lemma {:induction false} HistoriesTellBelowTip(st: ClientState, calls: seq<Call>, chain: Chain, ledger: Ledger)
    requires st.Valid() && Callable(st, calls) && OnChain(st.checkpoint, chain) && st.log == []
    requires forall c :: c in calls ==> CallTruthful(c, chain, ledger)
    ensures ToldBelowTip(RunCalls(st, calls))
  {
    hide CallTruthful, RunCalls, Agrees, Extends;
    EveryUpdateAgrees(st, calls);
    CheckpointsGrow(st, calls, chain, ledger);
    MergedBelowTip(EventsOf(RunCalls(st, calls).log), RunCalls(st, calls).checkpoint);
  }

  /** A scan on the chain, ended in any way, with true answers and updates that all arrive. */
  ghost predicate Observes(
    st: ClientState, env: ScanEnv, chain: Chain, ledger: Ledger, hits: FilterHits)
    requires |st.checkpoint| > 0
  {
    && GenesisAgrees(st.checkpoint, env) && NodeTruthful(env, chain) && Live(env)
    && FilterTruthful(env, chain, ledger, hits)
  }

  /** Such a scan that succeeds. */
  ghost predicate Succeeds(
    st: ClientState, kind: ScanKind, env: ScanEnv, chain: Chain, ledger: Ledger, hits: FilterHits)
    requires ValidCheckPoint(st.checkpoint)
  {
    Observes(st, env, chain, ledger, hits) && ScanInner(st, kind, env).1.Ok?
  }

  /** Every contribution between the tips is among the hits. */
  ghost predicate HitsContributions(
    i: Index, chain: Chain, lo: nat, before: nat, after: nat, hs: seq<nat>)
  {
    forall h :: before < h <= after && h < |chain| && Contributes(i, chain, lo, h) ==> h in hs
  }

  /** The hits lie on the chain, ascend and start no lower than the scan. */
  lemma {:induction false} HitsInRange(
    st: ClientState, kind: ScanKind, env: ScanEnv, chain: Chain, ledger: Ledger, hits: FilterHits)
    requires st.Valid() && Observes(st, env, chain, ledger, hits)
    ensures var hs := ScanHits(st, kind, env, hits);
            Bounded(hs, |chain|) && Ascending(hs) && forall h :: h in hs ==> StartHeight(st, kind) <= h
  {
    hide DeriveSpks;
  }

  /**
    What a scan with any ending has told is what the first n of its hits
    contribute; every anchor that it adds lies at one of them, and the tip has
    not passed the others.
   */
  lemma {:induction false} ScanTells(
    st: ClientState, kind: ScanKind, env: ScanEnv, chain: Chain, ledger: Ledger, hits: FilterHits)
    returns (n: nat)
    requires st.Valid() && OnChain(st.checkpoint, chain) && Observes(st, env, chain, ledger, hits)
    ensures var fin, hs := ScanInner(st, kind, env).0, ScanHits(st, kind, env, hits);
            && fin.Valid() && OnChain(fin.checkpoint, chain) && TipHeight(fin.checkpoint) < |chain|
            && Bounded(hs, |chain|) && n <= |hs|
            && IndexedGraph(fin.index, Told(fin)) == ApplyHeights(IndexedGraph(st.index, Told(st)), chain, hs[..n])
            && (forall a :: a in Told(fin).anchors && a !in Told(st).anchors ==> a.block.height in hs[..n])
            && TipHeight(st.checkpoint) <= TipHeight(fin.checkpoint)
            && (TipHeight(st.checkpoint) < TipHeight(fin.checkpoint) && n < |hs| ==> TipHeight(fin.checkpoint) < hs[n])
            && (ScanInner(st, kind, env).1.Ok? ==> n == |hs|)
  {
    hide ScanInner, ApplyHeights, DeriveSpks, Told;
    n := ScanInnerAppliesPrefix(st, kind, env, chain, ledger, hits);
    var hs := ScanHits(st, kind, env, hits)[..n];
    HeightsSplit(st.index, Told(st), chain, hs);
    AnchorsOfHeights(st.index, chain, hs);
    TipOnChain(ScanInner(st, kind, env).0, chain);
  }

  lemma {:induction false} TipOnChain(st: ClientState, chain: Chain)
    requires st.Valid() && OnChain(st.checkpoint, chain)
    ensures TipHeight(st.checkpoint) < |chain|
  {
    assert st.checkpoint[|st.checkpoint| - 1] in st.checkpoint;
  }

  /** Every anchor that a successful scan adds lies at one of its hits. */
  lemma {:induction false} NewAnchorsAreHits(
    st: ClientState, kind: ScanKind, env: ScanEnv, chain: Chain, ledger: Ledger, hits: FilterHits)
    requires st.Valid() && OnChain(st.checkpoint, chain) && Succeeds(st, kind, env, chain, ledger, hits)
    ensures var fin, hs := ScanInner(st, kind, env).0, ScanHits(st, kind, env, hits);
            && fin.Valid() && OnChain(fin.checkpoint, chain) && Bounded(hs, |chain|)
            && IndexedGraph(fin.index, Told(fin)) == ApplyHeights(IndexedGraph(st.index, Told(st)), chain, hs)
            && forall a :: a in Told(fin).anchors && a !in Told(st).anchors ==> a.block.height in hs
  {
    hide ScanInner, ApplyHeights, ScanHits, Told;
    var n := ScanTells(st, kind, env, chain, ledger, hits);
    var hs := ScanHits(st, kind, env, hits);
    assert hs[..n] == hs;
  }

  /** The hits of a successful scan lie in its range, and include all blocks there that touch a derived script. */
  lemma {:induction false} HitsOfScan(
    st: ClientState, kind: ScanKind, env: ScanEnv, chain: Chain, ledger: Ledger, hits: FilterHits)
    requires st.Valid() && Succeeds(st, kind, env, chain, ledger, hits)
    ensures env.filterHeight.Success? && DeriveSpks(st.index, Lookahead(st.index, kind)).Success?
    ensures StartHeight(st, kind) <= env.filterHeight.value < |chain|
    ensures Hits(ledger, chain, DeriveSpks(st.index, Lookahead(st.index, kind)).value,
                 StartHeight(st, kind), env.filterHeight.value + 1, ScanHits(st, kind, env, hits))
  {
    hide ScanInner, DeriveSpks, Hits;
    ClosesRange(st, kind, env);
  }

  lemma {:induction false} HitStaysAhead(
    st: ClientState, kind: ScanKind, env: ScanEnv, i: Index, chain: Chain, ledger: Ledger, hits: FilterHits, lo: nat)
    requires Ahead(st, i, chain, lo) && Observes(st, env, chain, ledger, hits)
    requires HitsContributions(i, chain, lo, TipHeight(st.checkpoint), TipHeight(ScanInner(st, kind, env).0.checkpoint),
                               ScanHits(st, kind, env, hits))
    ensures Ahead(ScanInner(st, kind, env).0, i, chain, lo)
  {
    hide ScanInner, ApplyHeights, Told, Contributes, ScanHits, Reference;
    hide GenesisAgrees, NodeTruthful, Live, FilterTruthful;
    var fin, hs := ScanInner(st, kind, env).0, ScanHits(st, kind, env, hits);
    var g := IndexedGraph(st.index, Told(st));
    var before, after := TipHeight(st.checkpoint), TipHeight(fin.checkpoint);
    var n := ScanTells(st, kind, env, chain, ledger, hits);
    HitsInRange(st, kind, env, chain, ledger, hits);
    ApplyHeightsGrows(g, chain, hs[..n]);
    if before < after {
      forall h | before < h < after + 1 && Contributes(i, chain, lo, h) ensures h in hs[..n] {
        HitIsApplied(hs, n, h, after);
      }
      KeepsAhead(g, i, chain, lo, before + 1, after + 1, hs[..n]);
    } else {
      DominatedTransitive(Reference(i, chain, lo, before + 1), g, ApplyHeights(g, chain, hs[..n]));
    }
  }

  lemma {:induction false} HitIsApplied(hs: seq<nat>, n: nat, h: nat, after: nat)
    requires Ascending(hs) && h in hs && n <= |hs| && h <= after && (n < |hs| ==> after < hs[n])
    ensures h in hs[..n]
  {
    var k :| 0 <= k < |hs| && hs[k] == h;
    assert k < n;
    assert hs[..n][k] == h;
  }

  lemma {:induction false} AheadWasHit(
    st: ClientState, kind: ScanKind, env: ScanEnv, i: Index, chain: Chain, ledger: Ledger, hits: FilterHits, lo: nat)
    requires Ahead(st, i, chain, lo) && ToldBelowTip(st) && Observes(st, env, chain, ledger, hits)
    requires Ahead(ScanInner(st, kind, env).0, i, chain, lo)
    ensures HitsContributions(i, chain, lo, TipHeight(st.checkpoint), TipHeight(ScanInner(st, kind, env).0.checkpoint),
                              ScanHits(st, kind, env, hits))
  {
    hide ScanInner, ApplyHeights, Told, Contributes, ScanHits;
    hide GenesisAgrees, NodeTruthful, Live, FilterTruthful;
    var fin, hs := ScanInner(st, kind, env).0, ScanHits(st, kind, env, hits);
    var before, after := TipHeight(st.checkpoint), TipHeight(fin.checkpoint);
    var n := ScanTells(st, kind, env, chain, ledger, hits);
    forall h | before < h <= after && h < |chain| && Contributes(i, chain, lo, h) ensures h in hs {
      ContributionIsAnchored(i, chain, lo, after + 1, h);
      assert h in hs[..n];
    }
  }

  /**
    Exactly when a scan of a client that was ahead of the reference run stays
    ahead of it, for any start, any filter answer and any ending: if and only if
    the answer has every block that contributes between the two tips.
   */
  lemma {:induction false} StaysAheadExactly(
    st: ClientState, kind: ScanKind, env: ScanEnv, i: Index, chain: Chain, ledger: Ledger, hits: FilterHits, lo: nat)
    requires Ahead(st, i, chain, lo) && ToldBelowTip(st) && Observes(st, env, chain, ledger, hits)
    ensures Ahead(ScanInner(st, kind, env).0, i, chain, lo) <==>
            HitsContributions(
              i, chain, lo, TipHeight(st.checkpoint), TipHeight(ScanInner(st, kind, env).0.checkpoint),
              ScanHits(st, kind, env, hits))
  {
    hide ScanInner, ScanHits, HitsContributions, Ahead, ToldBelowTip;
    AheadIsOnChain(st, i, chain, lo);
    if Ahead(ScanInner(st, kind, env).0, i, chain, lo) {
      AheadWasHit(st, kind, env, i, chain, ledger, hits, lo);
    }
    if HitsContributions(i, chain, lo, TipHeight(st.checkpoint), TipHeight(ScanInner(st, kind, env).0.checkpoint),
                         ScanHits(st, kind, env, hits)) {
      HitStaysAhead(st, kind, env, i, chain, ledger, hits, lo);
    }
  }

  /** From the start on, the contributions between the old tip and the new touch a script that the scan derives. */
  ghost predicate SeesFromStart(
    st: ClientState, kind: ScanKind, i: Index, chain: Chain, ledger: Ledger, lo: nat, after: nat)
    requires |st.checkpoint| > 0
  {
    var spks := DeriveSpks(st.index, Lookahead(st.index, kind));
    spks.Success? ==>
      var start := Max(StartHeight(st, kind), TipHeight(st.checkpoint) + 1);
      forall h :: start <= h <= after && h < |chain| && Contributes(i, chain, lo, h) ==>
        Touches(ledger, chain[h], spks.value)
  }

  /**
    A scan that moved the tip was hit by every block of its range, up to the new
    tip, that touches a derived script.
   */
  lemma {:induction false} TouchedIsHit(
    st: ClientState, kind: ScanKind, env: ScanEnv, chain: Chain, ledger: Ledger, hits: FilterHits, h: nat)
    requires st.Valid() && OnChain(st.checkpoint, chain) && Observes(st, env, chain, ledger, hits)
    requires TipHeight(st.checkpoint) < h <= TipHeight(ScanInner(st, kind, env).0.checkpoint)
    requires StartHeight(st, kind) <= h < |chain|
    ensures DeriveSpks(st.index, Lookahead(st.index, kind)).Success?
    ensures Touches(ledger, chain[h], DeriveSpks(st.index, Lookahead(st.index, kind)).value) ==>
              h in ScanHits(st, kind, env, hits)
  {
    hide ScanInner, DeriveSpks, ApplyHeights, Touches, Told, StartHeight;
    var _ := ScanInnerAppliesPrefix(st, kind, env, chain, ledger, hits);
  }

  /**
    Exactly when a jump loses something: a scan with any ending, whose scripts see
    what contributes from its start on, keeps the client ahead of the reference
    run if and only if no block strictly between the tip and the start that the
    new tip has passed contributes.
   */
  lemma {:induction false} JumpIsExact(
    st: ClientState, kind: ScanKind, env: ScanEnv, i: Index, chain: Chain, ledger: Ledger, hits: FilterHits, lo: nat)
    requires Ahead(st, i, chain, lo) && ToldBelowTip(st) && Observes(st, env, chain, ledger, hits)
    requires SeesFromStart(st, kind, i, chain, ledger, lo, TipHeight(ScanInner(st, kind, env).0.checkpoint))
    ensures Ahead(ScanInner(st, kind, env).0, i, chain, lo) <==>
            forall h :: TipHeight(st.checkpoint) < h < StartHeight(st, kind)
                        && h <= TipHeight(ScanInner(st, kind, env).0.checkpoint) && h < |chain| ==>
              !Contributes(i, chain, lo, h)
  {
    hide ScanInner, DeriveSpks, Told, Contributes, Touches, Ahead, ScanHits, StartHeight;
    hide GenesisAgrees, NodeTruthful, Live, FilterTruthful;
    AheadIsOnChain(st, i, chain, lo);
    StaysAheadExactly(st, kind, env, i, chain, ledger, hits, lo);
    HitsInRange(st, kind, env, chain, ledger, hits);
    var before, after := TipHeight(st.checkpoint), TipHeight(ScanInner(st, kind, env).0.checkpoint);
    forall h | before < h <= after && StartHeight(st, kind) <= h < |chain| && Contributes(i, chain, lo, h)
      ensures h in ScanHits(st, kind, env, hits)
    {
      TouchedIsHit(st, kind, env, chain, ledger, hits, h);
    }
  }

  lemma {:induction false} AheadIsOnChain(st: ClientState, i: Index, chain: Chain, lo: nat)
    requires Ahead(st, i, chain, lo)
    ensures st.Valid() && OnChain(st.checkpoint, chain)
  {
  }

  // ---- Safe starts

  /**
    On every chain that goes on from the base, every scan from this start with
    any ending that sees what contributes from there on keeps the client ahead.
   */
  ghost predicate SafeStart(st: ClientState, start: nat, lookahead: U32, i: Index, base: Chain, lo: nat)
    requires ValidCheckPoint(st.checkpoint)
  {
    forall chain: Chain, env: ScanEnv, ledger: Ledger, hits: FilterHits ::
      base <= chain && Observes(st, env, chain, ledger, hits)
      && SeesFromStart(st, Custom(start, lookahead), i, chain, ledger, lo,
                       TipHeight(ScanInner(st, Custom(start, lookahead), env).0.checkpoint)) ==>
        Ahead(ScanInner(st, Custom(start, lookahead), env).0, i, chain, lo)
  }

  lemma {:induction false} NaivePrefix(g: IndexedGraph, base: Chain, chain: Chain, lo: nat, hi: nat)
    requires base <= chain && hi <= |base|
    ensures Naive(g, base, lo, hi) == Naive(g, chain, lo, hi)
    decreases hi
  {
    if lo < hi {
      NaivePrefix(g, base, chain, lo, hi - 1);
    }
  }

  lemma {:induction false} StaysAheadOnLongerChain(st: ClientState, i: Index, base: Chain, chain: Chain, lo: nat)
    requires Ahead(st, i, base, lo) && base <= chain
    ensures Ahead(st, i, chain, lo)
  {
    NaivePrefix(IndexedGraph(i, EMPTY_GRAPH), base, chain, lo, TipHeight(st.checkpoint) + 1);
  }

  /** A hash above all hashes of the chain. */
  function FreshHash(chain: Chain): (x: Hash)
    ensures forall h :: 0 <= h < |chain| ==> chain[h].hash < x
  {
    if chain == [] then 0 else Max(FreshHash(chain[..|chain| - 1]), chain[|chain| - 1].hash + 1)
  }

  /** The base, then a block that pays the script, then empty blocks up to the given height. */
  function PayThenIdle(base: Chain, s: Script, top: nat): (chain: Chain)
    requires |base| <= top
    ensures base <= chain && |chain| == top + 1
    ensures chain[|base|].txs == [Tx(0, [], [s])]
    ensures forall h :: |base| < h <= top ==> chain[h].txs == []
  {
    base + seq(top + 1 - |base|, k requires 0 <= k =>
      Block(FreshHash(base) + k, if k == 0 then [Tx(0, [], [s])] else []))
  }

  lemma {:induction false} PayThenIdleDistinct(base: Chain, s: Script, top: nat)
    requires |base| <= top && DistinctHashes(base)
    ensures DistinctHashes(PayThenIdle(base, s, top))
  {
    var chain := PayThenIdle(base, s, top);
    forall g, h | 0 <= g < h < |chain| ensures chain[g].hash != chain[h].hash {
      assert |base| <= h ==> chain[h].hash == FreshHash(base) + (h - |base|);
      assert |base| <= g ==> chain[g].hash == FreshHash(base) + (g - |base|);
      assert g < |base| ==> chain[g] == base[g];
      assert h < |base| ==> chain[h] == base[h];
    }
  }

  lemma {:induction false} PaymentContributes(i: Index, chain: Chain, lo: nat, h: nat, s: Script)
    requires lo <= h < |chain| && chain[h].txs == [Tx(0, [], [s])] && Watches(i, s)
    ensures Contributes(i, chain, lo, h)
  {
    var tx := Tx(0, [], [s]);
    var at := Naive(IndexedGraph(i, EMPTY_GRAPH), chain, lo, h).index;
    assert Naive(IndexedGraph(i, EMPTY_GRAPH), chain, lo, 0).index == i by {
      assert Naive(IndexedGraph(i, EMPTY_GRAPH), chain, lo, 0) == IndexedGraph(i, EMPTY_GRAPH);
    }
    NaiveGrows(IndexedGraph(i, EMPTY_GRAPH), chain, lo, 0, h);
    assert Le(i, at);
    assert NextReveal(i, s.keychain) <= NextReveal(at, s.keychain);
    IndexOutputsGrows(at, tx, 0);
    var after := IndexTx(at, tx);
    assert NextReveal(at, s.keychain) <= NextReveal(after, s.keychain);
    assert tx.outputs[0] == s && Watches(after, s);
    assert IsRelevant(after, tx);
  }

  /**
    A losing input: whenever the start leaves out a block, a payment there to any
    script that the first index watches is lost by a successful scan with true
    answers.
   */
  lemma {:induction false} JumpLosesPayment(
    st: ClientState, start: nat, lookahead: U32, i: Index, base: Chain, ledger: Ledger, lo: nat, s: Script)
    returns (env: ScanEnv, hits: FilterHits)
    requires Ahead(st, i, base, lo) && ToldBelowTip(st) && |base| == TipHeight(st.checkpoint) + 1
    requires DistinctHashes(base) && External in st.index.descriptors && Watches(i, s)
    requires TipHeight(st.checkpoint) + 1 < start
    ensures var chain, kind := PayThenIdle(base, s, start), Custom(start, lookahead);
            && Succeeds(st, kind, env, chain, ledger, hits)
            && SeesFromStart(st, kind, i, chain, ledger, lo, start)
            && Contributes(i, chain, lo, TipHeight(st.checkpoint) + 1)
            && !Ahead(ScanInner(st, kind, env).0, i, chain, lo)
            && TipHeight(ScanInner(st, kind, env).0.checkpoint) == start
            && forall a :: a in Told(ScanInner(st, kind, env).0).anchors ==>
                 a.block.height != TipHeight(st.checkpoint) + 1
  {
    hide ScanInner, DeriveSpks, Contributes, NodeTruthful, Live, FilterTruthful, GenesisAgrees, Ahead, Told;
    var chain, kind := PayThenIdle(base, s, start), Custom(start, lookahead);
    PayThenIdleDistinct(base, s, start);
    StaysAheadOnLongerChain(st, i, base, chain, lo);
    AheadIsOnChain(st, i, chain, lo);
    AheadReaches(st, i, chain, lo);
    env := TruthfulScanExists(st, kind, chain, ledger, start);
    hits :| FilterTruthful(env, chain, ledger, hits);
    forall h | start <= h < |chain| ensures !Contributes(i, chain, lo, h) {
      IdleBlock(i, chain, lo, h);
    }
    PaymentContributes(i, chain, lo, TipHeight(st.checkpoint) + 1, s);
    FinishedTip(st, kind, env, chain, ledger, hits);
    JumpIsExact(st, kind, env, i, chain, ledger, hits, lo);
    JumpLeavesGap(st, kind, env, chain, ledger, hits);
  }

  lemma {:induction false} AheadReaches(st: ClientState, i: Index, chain: Chain, lo: nat)
    requires Ahead(st, i, chain, lo)
    ensures lo <= TipHeight(st.checkpoint) + 1
  {
  }

  lemma {:induction false} IdleBlock(i: Index, chain: Chain, lo: nat, h: nat)
    requires h < |chain| && chain[h].txs == []
    ensures !Contributes(i, chain, lo, h)
  {
  }

  /** A start is safe on every chain if and only if it lies at most one above the tip. */
  lemma {:induction false} SafeStartsExactly(
    st: ClientState, start: nat, lookahead: U32, i: Index, base: Chain, lo: nat, s: Script)
    requires Ahead(st, i, base, lo) && ToldBelowTip(st) && |base| == TipHeight(st.checkpoint) + 1
    requires DistinctHashes(base) && External in st.index.descriptors && Watches(i, s)
    ensures SafeStart(st, start, lookahead, i, base, lo) <==> start <= TipHeight(st.checkpoint) + 1
  {
    hide Ahead, ToldBelowTip, SeesFromStart, ScanInner, Contributes, DistinctHashes;
    hide GenesisAgrees, NodeTruthful, Live, FilterTruthful;
    AheadIsOnChain(st, i, base, lo);
    var kind := Custom(start, lookahead);
    if start <= TipHeight(st.checkpoint) + 1 {
      forall chain: Chain, env: ScanEnv, ledger: Ledger, hits: FilterHits
        | base <= chain && Observes(st, env, chain, ledger, hits)
          && SeesFromStart(st, kind, i, chain, ledger, lo, TipHeight(ScanInner(st, kind, env).0.checkpoint))
        ensures Ahead(ScanInner(st, kind, env).0, i, chain, lo)
      {
        StaysAheadOnLongerChain(st, i, base, chain, lo);
        JumpIsExact(st, kind, env, i, chain, ledger, hits, lo);
      }
    } else {
      var ledger: Ledger := _ => s;
      var env, hits := JumpLosesPayment(st, start, lookahead, i, base, ledger, lo, s);
      assert base <= PayThenIdle(base, s, start);
    }
  }
}
