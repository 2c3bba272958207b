/**
  The wallet library's graph of relevant transactions and its `IndexedTxGraph`,
  with the law that makes draining the graph between blocks harmless.
 */
module TxGraphs {
  import opened Blocks
  import opened KeychainIndex

  datatype Anchor = Anchor(txid: Txid, block: BlockId)

  datatype TxGraph = TxGraph(txs: set<Tx>, anchors: set<Anchor>) {
    function Union(other: TxGraph): TxGraph {
      TxGraph(txs + other.txs, anchors + other.anchors)
    }
  }

  const EMPTY_GRAPH := TxGraph({}, {})

  datatype IndexedGraph = IndexedGraph(index: Index, graph: TxGraph)

  /** What applying a block changed. */
  datatype ChangeSet = ChangeSet(txs: set<Tx>, anchors: set<Anchor>, revealed: map<Keychain, nat>) {
    predicate IsEmpty() { txs == {} && anchors == {} && revealed == map[] }
  }

  function Changes(before: IndexedGraph, after: IndexedGraph): ChangeSet {
    ChangeSet(
      after.graph.txs - before.graph.txs,
      after.graph.anchors - before.graph.anchors,
      map k | k in after.index.revealed
              && (k in before.index.revealed ==> before.index.revealed[k] != after.index.revealed[k])
        :: after.index.revealed[k])
  }

  /** Index the outputs first; then keep and anchor the transaction if it is relevant. */
  function ApplyTx(g: IndexedGraph, b: BlockId, tx: Tx): IndexedGraph {
    var index := IndexTx(g.index, tx);
    IndexedGraph(index, if IsRelevant(index, tx) then g.graph.Union(TxGraph({tx}, {Anchor(tx.txid, b)})) else g.graph)
  }

  function ApplyTxs(g: IndexedGraph, b: BlockId, txs: seq<Tx>): IndexedGraph
    decreases |txs|
  {
    if txs == [] then g else ApplyTxs(ApplyTx(g, b, txs[0]), b, txs[1..])
  }

  /** `apply_block_relevant`. */
  function ApplyBlock(g: IndexedGraph, block: Block, height: nat): IndexedGraph {
    ApplyTxs(g, BlockId(height, block.hash), block.txs)
  }

  // ---- Draining

  lemma {:induction false} ApplyTxsSplits(i: Index, g: TxGraph, h: TxGraph, b: BlockId, txs: seq<Tx>)
    ensures ApplyTxs(IndexedGraph(i, g.Union(h)), b, txs) ==
            var r := ApplyTxs(IndexedGraph(i, h), b, txs);
            IndexedGraph(r.index, g.Union(r.graph))
    decreases |txs|
  {
    if txs != [] {
      var next := ApplyTx(IndexedGraph(i, h), b, txs[0]);
      ApplyTxsSplits(next.index, g, next.graph, b, txs[1..]);
      assert ApplyTx(IndexedGraph(i, g.Union(h)), b, txs[0]) == IndexedGraph(next.index, g.Union(next.graph));
    }
  }

  /**
    Draining commutes with applying: a block adds to any graph exactly what it
    adds to the empty one, so only the index has to be carried along.
   */
  lemma {:induction false} DrainBeforeBlock(g: IndexedGraph, block: Block, height: nat)
    ensures var r := ApplyBlock(IndexedGraph(g.index, EMPTY_GRAPH), block, height);
            ApplyBlock(g, block, height) == IndexedGraph(r.index, g.graph.Union(r.graph))
  {
    assert g.graph.Union(EMPTY_GRAPH) == g.graph;
    ApplyTxsSplits(g.index, g.graph, EMPTY_GRAPH, BlockId(height, block.hash), block.txs);
  }

  /** Some transaction of the block is kept. */
  ghost predicate Keeps(i: Index, txs: seq<Tx>)
    decreases |txs|
  {
    txs != [] && (IsRelevant(IndexTx(i, txs[0]), txs[0]) || Keeps(IndexTx(i, txs[0]), txs[1..]))
  }

  lemma {:induction false} ApplyTxsGrows(g: IndexedGraph, b: BlockId, txs: seq<Tx>)
    ensures var r := ApplyTxs(g, b, txs);
            && Le(g.index, r.index)
            && g.graph.txs <= r.graph.txs && g.graph.anchors <= r.graph.anchors
            && (forall a :: a in r.graph.anchors && a !in g.graph.anchors ==> a.block == b)
            && (forall t :: t in r.graph.txs && t !in g.graph.txs ==> t in txs && Anchor(t.txid, b) in r.graph.anchors)
    decreases |txs|
  {
    if txs != [] {
      IndexOutputsGrows(g.index, txs[0], 0);
      var next := ApplyTx(g, b, txs[0]);
      ApplyTxsGrows(next, b, txs[1..]);
      if IsRelevant(next.index, txs[0]) {
        assert Anchor(txs[0].txid, b) in next.graph.anchors;
      }
    }
  }

  /** Either nothing is kept and nothing changes, or the block appears as an anchor. */
  lemma {:induction false} KeptOrUnchanged(g: IndexedGraph, b: BlockId, txs: seq<Tx>)
    ensures var r := ApplyTxs(g, b, txs);
            && (!Keeps(g.index, txs) ==> r == g)
            && (Keeps(g.index, txs) ==>
                  exists t :: t in txs && t in r.graph.txs && Anchor(t.txid, b) in r.graph.anchors)
    decreases |txs|
  {
    if txs != [] {
      var next := ApplyTx(g, b, txs[0]);
      if IsRelevant(next.index, txs[0]) {
        ApplyTxsGrows(next, b, txs[1..]);
        assert txs[0] in next.graph.txs && Anchor(txs[0].txid, b) in next.graph.anchors;
      } else {
        IrrelevantLeavesIndex(g.index, txs[0]);
        KeptOrUnchanged(g, b, txs[1..]);
      }
    }
  }

  /** On a drained graph an empty change set means that no transaction was relevant, and conversely. */
  lemma {:induction false} EmptyChangesMeanIrrelevant(i: Index, block: Block, height: nat)
    ensures var before := IndexedGraph(i, EMPTY_GRAPH);
            var after := ApplyBlock(before, block, height);
            && (Changes(before, after).IsEmpty() <==> !Keeps(i, block.txs))
            && (!Keeps(i, block.txs) ==> after == before)
  {
    var before := IndexedGraph(i, EMPTY_GRAPH);
    KeptOrUnchanged(before, BlockId(height, block.hash), block.txs);
    if Keeps(i, block.txs) {
      var after := ApplyBlock(before, block, height);
      var b := BlockId(height, block.hash);
      var t :| t in block.txs && t in after.graph.txs && Anchor(t.txid, b) in after.graph.anchors;
      assert t in Changes(before, after).txs;
    }
  }

  // ---- Comparing indexes

  /** A better-informed index keeps at least as much. */
  lemma {:induction false} ApplyTxsMonotone(a: IndexedGraph, c: IndexedGraph, b: BlockId, txs: seq<Tx>)
    requires Le(a.index, c.index) && a.graph.txs <= c.graph.txs && a.graph.anchors <= c.graph.anchors
    ensures var r, s := ApplyTxs(a, b, txs), ApplyTxs(c, b, txs);
            Le(r.index, s.index) && r.graph.txs <= s.graph.txs && r.graph.anchors <= s.graph.anchors
    decreases |txs|
  {
    if txs != [] {
      RelevanceMonotone(a.index, c.index, txs[0]);
      ApplyTxsMonotone(ApplyTx(a, b, txs[0]), ApplyTx(c, b, txs[0]), b, txs[1..]);
    }
  }

  /** b holds at least what a holds. */
  ghost predicate Dominated(a: IndexedGraph, b: IndexedGraph) {
    Le(a.index, b.index) && a.graph.txs <= b.graph.txs && a.graph.anchors <= b.graph.anchors
  }

  lemma {:induction false} DominatedTransitive(a: IndexedGraph, b: IndexedGraph, c: IndexedGraph)
    requires Dominated(a, b) && Dominated(b, c)
    ensures Dominated(a, c)
  {
  }

  lemma {:induction false} ApplyBlockMonotone(a: IndexedGraph, b: IndexedGraph, block: Block, height: nat)
    requires Dominated(a, b)
    ensures Dominated(ApplyBlock(a, block, height), ApplyBlock(b, block, height))
    ensures Dominated(b, ApplyBlock(b, block, height)) && Dominated(a, ApplyBlock(b, block, height))
  {
    ApplyTxsMonotone(a, b, BlockId(height, block.hash), block.txs);
    ApplyTxsGrows(b, BlockId(height, block.hash), block.txs);
  }

  // ---- Blocks that a filter rules out

  lemma {:induction false} ApplyTxsOwns(g: IndexedGraph, b: BlockId, txs: seq<Tx>, ledger: Ledger)
    requires Owns(g.index, ledger) && forall t :: t in txs ==> TxAgrees(ledger, t)
    ensures Owns(ApplyTxs(g, b, txs).index, ledger)
    decreases |txs|
  {
    if txs != [] {
      IndexOutputsOwns(g.index, txs[0], 0, ledger);
      ApplyTxsOwns(ApplyTx(g, b, txs[0]), b, txs[1..], ledger);
    }
  }

  /** A block that touches none of the scripts keeps nothing, if the scripts include all that is watched. */
  lemma {:induction false} UntouchedKeepsNothing(i: Index, txs: seq<Tx>, spks: seq<Script>, ledger: Ledger)
    requires Owns(i, ledger)
    requires forall s :: Watches(i, s) ==> s in spks
    requires forall t :: t in txs ==> !TxTouches(ledger, t, spks)
    ensures !Keeps(i, txs)
    decreases |txs|
  {
    if txs != [] {
      var tx := txs[0];
      assert !TxTouches(ledger, tx, spks);
      forall o | o in tx.outputs ensures !Watches(i, o) {
      }
      UnwatchedOutputs(i, tx, 0);
      forall p | p in tx.inputs ensures p !in i.txouts {
        assert ledger(p) !in spks;
      }
      UntouchedKeepsNothing(i, txs[1..], spks, ledger);
    }
  }
}
