/** Which blocks a history tells the wallet more than once. */
module Repeats {
  import opened Blocks
  import opened CheckPoints
  import opened KeychainIndex
  import opened TxGraphs
  import opened Scanning
  import opened Refinement
  import opened Resumption
  import opened Traces
  import opened Histories
  import opened Jumps
  import opened Reports

  /** The heights that a successful scan tells the wallet of: one update each, as `ScanReports` states. */
  ghost function ToldHeights(
    st: ClientState, kind: ScanKind, env: ScanEnv, chain: Chain, hits: FilterHits): (at: seq<nat>)
    requires |st.checkpoint| > 0 && Bounded(ScanHits(st, kind, env, hits), |chain|)
  {
    KeptHeights(st.index, chain, ScanHits(st, kind, env, hits))
  }

  /** An index that knows more keeps every block that a smaller one keeps. */
  lemma {:induction false} KeepsMonotone(a: Index, b: Index, txs: seq<Tx>)
    requires Le(a, b) && Keeps(a, txs)
    ensures Keeps(b, txs)
    decreases |txs|
  {
    hide Le, IsRelevant;
    RelevanceMonotone(a, b, txs[0]);
    if !IsRelevant(IndexTx(a, txs[0]), txs[0]) {
      KeepsMonotone(IndexTx(a, txs[0]), IndexTx(b, txs[0]), txs[1..]);
    }
  }

  lemma {:induction false} KeptAmong(i: Index, chain: Chain, hs: seq<nat>, h: nat)
    requires Bounded(hs, |chain|) && h in KeptHeights(i, chain, hs)
    ensures h in hs
    decreases |hs|
  {
    hide ApplyBlock, Keeps;
    if h != hs[0] {
      KeptAmong(ApplyBlock(IndexedGraph(i, EMPTY_GRAPH), chain[hs[0]], hs[0]).index, chain, hs[1..], h);
    }
  }

  /** A block that was kept at its turn would be kept again by the index that the scan ends with. */
  lemma {:induction false} KeptWouldBeKeptAgain(i: Index, chain: Chain, hs: seq<nat>, h: nat)
    requires Bounded(hs, |chain|) && h in KeptHeights(i, chain, hs)
    ensures h < |chain| && Keeps(ApplyHeights(IndexedGraph(i, EMPTY_GRAPH), chain, hs).index, chain[h].txs)
    decreases |hs|
  {
    hide ApplyBlock, Keeps, ApplyHeights, Le;
    var g, first, rest := IndexedGraph(i, EMPTY_GRAPH), hs[0], hs[1..];
    var next := ApplyBlock(g, chain[first], first);
    assert hs == [first] + rest;
    ApplyHeightsCons(g, chain, first, rest);
    HeightsSplit(next.index, next.graph, chain, rest);
    if Keeps(i, chain[first].txs) && h == first {
      ApplyHeightsGrows(g, chain, hs);
      KeepsMonotone(i, ApplyHeights(g, chain, hs).index, chain[h].txs);
    } else {
      KeptWouldBeKeptAgain(next.index, chain, rest, h);
    }
  }

  lemma {:induction false} FirstIsKept(i: Index, chain: Chain, hs: seq<nat>)
    requires Bounded(hs, |chain|) && hs != [] && Keeps(i, chain[hs[0]].txs)
    ensures hs[0] in KeptHeights(i, chain, hs)
  {
  }

  /** A successful scan tells of heights between its start and its stop only. */
  lemma {:induction false} ToldWithin(
    st: ClientState, kind: ScanKind, env: ScanEnv, chain: Chain, ledger: Ledger, hits: FilterHits)
    requires st.Valid() && OnChain(st.checkpoint, chain) && Succeeds(st, kind, env, chain, ledger, hits)
    ensures Bounded(ScanHits(st, kind, env, hits), |chain|)
    ensures forall h :: h in ToldHeights(st, kind, env, chain, hits) ==>
              h in ScanHits(st, kind, env, hits)
              && StartHeight(st, kind) <= h <= TipHeight(ScanInner(st, kind, env).0.checkpoint)
  {
    hide ScanInner, DeriveSpks, KeptHeights, ScanHits, Told;
    NewAnchorsAreHits(st, kind, env, chain, ledger, hits);
    HitsOfScan(st, kind, env, chain, ledger, hits);
    FinishedTip(st, kind, env, chain, ledger, hits);
    forall h | h in ToldHeights(st, kind, env, chain, hits) ensures h in ScanHits(st, kind, env, hits) {
      KeptAmong(st.index, chain, ScanHits(st, kind, env, hits), h);
    }
  }

  /**
    Exactly which blocks two successful scans both tell of, if the later one is a
    Sync: the block at the tip where the Sync starts, if the earlier scan told of
    it and the filters hit it again.
   */
  lemma {:induction false} RepeatedExactly(
    first: ClientState, kind: ScanKind, env: ScanEnv, hits: FilterHits,
    later: ClientState, again: ScanEnv, hits2: FilterHits, chain: Chain, ledger: Ledger, h: nat)
    requires first.Valid() && OnChain(first.checkpoint, chain) && Succeeds(first, kind, env, chain, ledger, hits)
    requires later.Valid() && OnChain(later.checkpoint, chain) && Succeeds(later, Sync, again, chain, ledger, hits2)
    requires TipHeight(ScanInner(first, kind, env).0.checkpoint) <= TipHeight(later.checkpoint)
    requires Le(ScanInner(first, kind, env).0.index, later.index)
    ensures Bounded(ScanHits(first, kind, env, hits), |chain|) && Bounded(ScanHits(later, Sync, again, hits2), |chain|)
    ensures h in ToldHeights(first, kind, env, chain, hits) && h in ToldHeights(later, Sync, again, chain, hits2) <==>
            && h == TipHeight(later.checkpoint)
            && h in ToldHeights(first, kind, env, chain, hits)
            && h in ScanHits(later, Sync, again, hits2)
  {
    hide ScanInner, DeriveSpks, KeptHeights, ScanHits, Told, Keeps, ApplyHeights, Le, Hits;
    hide GenesisAgrees, NodeTruthful, FilterTruthful, Live;
    ToldWithin(first, kind, env, chain, ledger, hits);
    ToldWithin(later, Sync, again, chain, ledger, hits2);
    var hs, hs2 := ScanHits(first, kind, env, hits), ScanHits(later, Sync, again, hits2);
    if h == TipHeight(later.checkpoint) && h in ToldHeights(first, kind, env, chain, hits) && h in hs2 {
      NewAnchorsAreHits(first, kind, env, chain, ledger, hits);
      HeightsSplit(first.index, Told(first), chain, hs);
      KeptWouldBeKeptAgain(first.index, chain, hs, h);
      KeepsMonotone(ScanInner(first, kind, env).0.index, later.index, chain[h].txs);
      SyncStartsAtTip(later, again, chain, ledger, hits2, h);
      FirstIsKept(later.index, chain, hs2);
    }
  }

  lemma {:induction false} SyncStartsAtTip(
    st: ClientState, env: ScanEnv, chain: Chain, ledger: Ledger, hits: FilterHits, h: nat)
    requires st.Valid() && Succeeds(st, Sync, env, chain, ledger, hits)
    requires h == TipHeight(st.checkpoint) && h in ScanHits(st, Sync, env, hits)
    ensures ScanHits(st, Sync, env, hits) != [] && ScanHits(st, Sync, env, hits)[0] == h
  {
    hide ScanInner, DeriveSpks, ScanHits;
    HitsOfScan(st, Sync, env, chain, ledger, hits);
    var hs := ScanHits(st, Sync, env, hits);
    var k :| 0 <= k < |hs| && hs[k] == h;
    assert hs[0] <= hs[k];
  }

  /**
    Over a whole history: whatever calls are made between a successful scan and a
    later successful Sync, the two tell of one block in common at most, the block
    at the tip where the Sync starts.
   */
  lemma {:induction false} HistoryRepeatsOnlyTip(
    first: ClientState, kind: ScanKind, env: CallEnv, hits: FilterHits, between: seq<Call>,
    again: ScanEnv, hits2: FilterHits, chain: Chain, ledger: Ledger, h: nat)
    requires first.Valid() && OnChain(first.checkpoint, chain) && Nested(EventsOf(first.log), first.checkpoint)
    requires Succeeds(first, kind, env.scan, chain, ledger, hits) && env.ready.Ok?
    requires forall c :: c in between ==> GenesisAgrees(first.checkpoint, c.env.scan) && CallTruthful(c, chain, ledger)
    ensures Callable(RunCall(first, OneScan(kind, env)), between)
    ensures var later := RunCalls(RunCall(first, OneScan(kind, env)), between);
            Succeeds(later, Sync, again, chain, ledger, hits2) ==>
              && Bounded(ScanHits(first, kind, env.scan, hits), |chain|)
              && Bounded(ScanHits(later, Sync, again, hits2), |chain|)
              && (h in ToldHeights(first, kind, env.scan, chain, hits)
                  && h in ToldHeights(later, Sync, again, chain, hits2) <==>
                  && h == TipHeight(later.checkpoint)
                  && h in ToldHeights(first, kind, env.scan, chain, hits)
                  && h in ScanHits(later, Sync, again, hits2))
  {
    hide ScanInner, DeriveSpks, ToldHeights, ScanHits, Told, Le, EventsOf, Nested, RunCalls;
    hide NodeTruthful, FilterTruthful, Live, OnTape;
    var c := OneScan(kind, env);
    var mid := RunCall(first, c);
    assert CallTruthful(c, chain, ledger);
    OneCall(first, c, chain, ledger);
    var later := RunCalls(mid, between);
    CheckpointsGrow(mid, between, chain, ledger);
    IndexGrows(mid, between);
    if Succeeds(later, Sync, again, chain, ledger, hits2) {
      RepeatedExactly(first, kind, env.scan, hits, later, again, hits2, chain, ledger, h);
    }
  }

  lemma {:induction false} OneCall(st: ClientState, c: Call, chain: Chain, ledger: Ledger)
    requires st.Valid() && OnChain(st.checkpoint, chain) && Nested(EventsOf(st.log), st.checkpoint)
    requires GenesisAgrees(st.checkpoint, c.env.scan) && CallTruthful(c, chain, ledger)
    ensures var fin := RunCall(st, c);
            fin.Valid() && OnChain(fin.checkpoint, chain) && Nested(EventsOf(fin.log), fin.checkpoint)
  {
    hide RunCall, Nested, EventsOf, CallTruthful;
    assert Callable(st, [c]);
    assert [c][..0] == [];
    assert RunCalls(st, [c]) == RunCall(st, c);
    CheckpointsGrow(st, [c], chain, ledger);
    IndexGrows(st, [c]);
  }
}
