/**
  The whole output of a successful filter scan: one update per relevant block,
  in order, and a closing one only where it is needed.
 */
module Reports {
  import opened Wrappers
  import opened Blocks
  import opened CheckPoints
  import opened KeychainIndex
  import opened TxGraphs
  import opened NodeQueries
  import opened Scanning
  import opened Refinement
  import opened Traces
  import opened Histories

  /** Of these blocks, applied in this order, the ones that contribute. */
  ghost function KeptHeights(i: Index, chain: Chain, hs: seq<nat>): (at: seq<nat>)
    requires Bounded(hs, |chain|)
    ensures Bounded(at, |chain|)
    decreases |hs|
  {
    if hs == [] then []
    else
      var rest := KeptHeights(ApplyBlock(IndexedGraph(i, EMPTY_GRAPH), chain[hs[0]], hs[0]).index, chain, hs[1..]);
      if Keeps(i, chain[hs[0]].txs) then [hs[0]] + rest else rest
  }

  /** One update for each of these heights, in order, each with some transaction of its block and nothing else. */
  ghost predicate Reported(w: seq<ScanEvent>, at: seq<nat>, chain: Chain)
    requires Bounded(at, |chain|)
  {
    && |w| == |at|
    && forall k :: 0 <= k < |w| ==>
         w[k].WalletUpdate? && w[k].update.graph.txs != {} && Stems(w[k].update.graph, chain[at[k]], at[k])
  }

  function Highest(tip: nat, at: seq<nat>): nat
    decreases |at|
  {
    if at == [] then tip else Highest(Max(at[0], tip), at[1..])
  }

  lemma {:induction false} ScanOneReports(st: ClientState, chain: Chain, h: nat, j: nat, env: ScanEnv)
    returns (w: seq<ScanEvent>)
    requires st.Valid() && OnChain(st.checkpoint, chain) && h < |chain|
    requires GenesisAgrees(st.checkpoint, env) && NodeTruthful(env, chain) && Live(env)
    requires ScanOne(st, chain[h], j, env).1.Ok?
    ensures var fin, at := ScanOne(st, chain[h], j, env).0, KeptHeights(st.index, chain, [h]);
            && fin.Valid() && OnChain(fin.checkpoint, chain)
            && fin.index == ApplyBlock(IndexedGraph(st.index, EMPTY_GRAPH), chain[h], h).index
            && EventsOf(fin.log) == EventsOf(st.log) + w && Reported(w, at, chain)
            && TipHeight(fin.checkpoint) == Highest(TipHeight(st.checkpoint), at)
  {
    hide EventsOf, ApplyBlock, Changes, Advance, Keeps, Agrees, Stems, Insert;
    var seen := st.Looked(false);
    EventsOfSnoc(st.log, Saw(false));
    ScanOneTells(st, chain, h, j, env);
    EmptyChangesMeanIrrelevant(st.index, chain[h], h);
    DrainBeforeBlock(IndexedGraph(st.index, Told(st)), chain[h], h);
    w := [];
    assert [h][1..] == [];
    if Keeps(st.index, chain[h].txs) {
      AdvanceTells(seen, chain, h, env.send(j));
      var e := MoveEmits(seen, Apply(chain[h], h, env.send(j)));
      KeptHasTx(st.index, chain[h], h);
      w := [e.value];
    }
  }

  lemma {:induction false} KeptHasTx(i: Index, block: Block, height: nat)
    requires Keeps(i, block.txs)
    ensures ApplyBlock(IndexedGraph(i, EMPTY_GRAPH), block, height).graph.txs != {}
  {
    KeptOrUnchanged(IndexedGraph(i, EMPTY_GRAPH), BlockId(height, block.hash), block.txs);
  }

  lemma {:induction false} HighestOfConcat(tip: nat, a: seq<nat>, b: seq<nat>)
    requires |a| <= 1
    ensures Highest(tip, a + b) == Highest(Highest(tip, a), b)
  {
    if a == [] {
      assert a + b == b;
    } else {
      assert a[1..] == [] && (a + b)[1..] == b;
    }
  }

  lemma {:induction false} KeptNone(i: Index, chain: Chain, tip: nat)
    ensures KeptHeights(i, chain, []) == [] && Reported([], [], chain) && Highest(tip, []) == tip
  {
  }

  lemma {:induction false} KeptCons(i: Index, chain: Chain, hs: seq<nat>, k: nat)
    requires Bounded(hs, |chain|) && k < |hs|
    ensures |KeptHeights(i, chain, [hs[k]])| <= 1
    ensures KeptHeights(i, chain, hs[k..]) ==
            KeptHeights(i, chain, [hs[k]])
            + KeptHeights(ApplyBlock(IndexedGraph(i, EMPTY_GRAPH), chain[hs[k]], hs[k]).index, chain, hs[k + 1..])
  {
    hide ApplyBlock, Keeps;
    assert hs[k..][1..] == hs[k + 1..] && [hs[k]][1..] == [];
  }

  lemma {:induction false} ReportsConcat(
    v: seq<ScanEvent>, at: seq<nat>, w: seq<ScanEvent>, after: seq<nat>, chain: Chain)
    requires Bounded(at, |chain|) && Bounded(after, |chain|) && Reported(v, at, chain) && Reported(w, after, chain)
    ensures Bounded(at + after, |chain|) && Reported(v + w, at + after, chain)
  {
  }

  lemma {:induction false} ScanBlocksReports(
    st: ClientState, blocks: seq<Block>, i: nat, env: ScanEnv, chain: Chain, hs: seq<nat>)
    returns (w: seq<ScanEvent>)
    requires i <= |blocks| && st.Valid() && OnChain(st.checkpoint, chain)
    requires GenesisAgrees(st.checkpoint, env) && NodeTruthful(env, chain) && Live(env)
    requires |blocks| == |hs| && Bounded(hs, |chain|) && forall j :: 0 <= j < |hs| ==> blocks[j] == chain[hs[j]]
    requires ScanBlocks(st, blocks, i, env).1.Ok?
    ensures var fin, at := ScanBlocks(st, blocks, i, env).0, KeptHeights(st.index, chain, hs[i..]);
            && fin.Valid() && OnChain(fin.checkpoint, chain)
            && EventsOf(fin.log) == EventsOf(st.log) + w && Reported(w, at, chain)
            && TipHeight(fin.checkpoint) == Highest(TipHeight(st.checkpoint), at)
    decreases |blocks| - i
  {
    hide ScanOne, EventsOf, ApplyBlock, KeptHeights, Stems, NodeTruthful, Live, OnChain, Highest, Reported;
    w := [];
    if i == |blocks| {
      assert hs[i..] == [];
      KeptNone(st.index, chain, TipHeight(st.checkpoint));
    } else {
      w := ScanOneReports(st, chain, hs[i], i, env);
      var next := ScanOne(st, blocks[i], i, env).0;
      var rest := ScanBlocksReports(next, blocks, i + 1, env, chain, hs);
      var at, after := KeptHeights(st.index, chain, [hs[i]]), KeptHeights(next.index, chain, hs[i + 1..]);
      KeptCons(st.index, chain, hs, i);
      HighestOfConcat(TipHeight(st.checkpoint), at, after);
      ReportsConcat(w, at, rest, after, chain);
      w := w + rest;
    }
  }

  /** The update that closes a range, if the tip has not reached its end. */
  function Closing(st: ClientState, reached: nat, stop: nat): seq<ScanEvent> {
    if reached < stop then [WalletUpdate(Update(EMPTY_GRAPH, st.index.lastUsed, st.checkpoint))] else []
  }

  lemma {:induction false} CloseRangeReports(st: ClientState, stop: nat, env: ScanEnv, sends: nat)
    requires st.Valid() && Live(env) && CloseRange(st, stop, env, sends).1.Ok?
    ensures var fin := CloseRange(st, stop, env, sends).0;
            EventsOf(fin.log) == EventsOf(st.log) + Closing(fin, TipHeight(st.checkpoint), stop)
  {
    hide EventsOf, Insert;
    if TipHeight(st.checkpoint) < stop {
      FlushEmits(st.MoveTo(BlockId(stop, env.stopHash.value)), env.send(sends));
    }
  }

  lemma {:induction false} ScanMatchedReports(
    st: ClientState, hashes: seq<Hash>, stop: nat, env: ScanEnv, chain: Chain, hs: seq<nat>)
    returns (w: seq<ScanEvent>)
    requires st.Valid() && OnChain(st.checkpoint, chain)
    requires GenesisAgrees(st.checkpoint, env) && NodeTruthful(env, chain) && Live(env)
    requires AreHashesOf(hashes, chain, hs) && ScanMatched(st, hashes, stop, env).1.Ok?
    ensures var fin, at := ScanMatched(st, hashes, stop, env).0, KeptHeights(st.index, chain, hs);
            && EventsOf(fin.log) == EventsOf(st.log) + w + Closing(fin, Highest(TipHeight(st.checkpoint), at), stop)
            && Reported(w, at, chain)
  {
    hide ScanBlocks, ApplyBlock, CloseRange, FetchBlocks, EventsOf, KeptHeights, Reported;
    EventsOfSnoc(st.log, Saw(false));
    var (fetched, blocks) := Fetch(st, hashes, env);
    assert hs[0..] == hs;
    w := ScanBlocksReports(fetched, blocks.value, 0, env, chain, hs);
    var done := ScanBlocks(fetched, blocks.value, 0, env).0;
    CloseRangeReports(done, stop, env, |blocks.value|);
  }

  /**
    The whole output of a successful filter scan: one update for each hit that
    contributes, in the order of the hits, then a closing update exactly if the
    tip is still below the stop height. False positives send nothing.
   */
  lemma {:induction false} ScanReports(
    st: ClientState, kind: ScanKind, env: ScanEnv, chain: Chain, ledger: Ledger, hits: FilterHits)
    returns (w: seq<ScanEvent>)
    requires st.Valid() && OnChain(st.checkpoint, chain)
    requires GenesisAgrees(st.checkpoint, env) && NodeTruthful(env, chain) && Live(env)
    requires FilterTruthful(env, chain, ledger, hits)
    requires ScanInner(st, kind, env).1.Ok?
    ensures env.filterHeight.Success? && Bounded(ScanHits(st, kind, env, hits), |chain|)
    ensures var fin, at := ScanInner(st, kind, env).0, KeptHeights(st.index, chain, ScanHits(st, kind, env, hits));
            && EventsOf(fin.log) ==
               EventsOf(st.log) + w + Closing(fin, Highest(TipHeight(st.checkpoint), at), env.filterHeight.value)
            && Reported(w, at, chain)
  {
    hide ScanMatched, DeriveSpks, EventsOf, KeptHeights, Reported;
    ClosesRange(st, kind, env);
    var stop := env.filterHeight.value;
    var hashes := env.matched(DeriveSpks(st.index, Lookahead(st.index, kind)).value, StartHeight(st, kind), stop).value;
    var seen := st.Looked(false).Looked(false);
    EventsOfSnoc(st.log, Saw(false));
    EventsOfSnoc(st.Looked(false).log, Saw(false));
    w := ScanMatchedReports(seen, hashes, stop, env, chain, ScanHits(st, kind, env, hits));
  }
}
