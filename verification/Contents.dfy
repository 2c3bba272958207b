/**
  Exactly what applying a block adds: to the index, to the graph and to the
  change set; and so exactly what every update tells.
 */
module Contents {
  import opened Wrappers
  import opened Blocks
  import opened CheckPoints
  import opened KeychainIndex
  import opened TxGraphs
  import opened NodeQueries
  import opened Scanning
  import opened Refinement
  import opened Traces
  import opened Histories

  // ---- The index

  datatype Output = Output(op: OutPoint, script: Script)

  /** The outputs of a transaction from position v on. */
  function OutputsOf(tx: Tx, v: nat): (outs: seq<Output>)
    requires v <= |tx.outputs|
    ensures |outs| == |tx.outputs| - v
    ensures forall k :: 0 <= k < |outs| ==> outs[k] == Output(OutPoint(tx.txid, v + k), tx.outputs[v + k])
  {
    seq(|tx.outputs| - v, k requires 0 <= k < |tx.outputs| - v =>
      Output(OutPoint(tx.txid, v + k), tx.outputs[v + k]))
  }

  /** All outputs of these transactions, in order. */
  function AllOutputs(txs: seq<Tx>): seq<Output> {
    if txs == [] then [] else AllOutputs(txs[..|txs| - 1]) + OutputsOf(txs[|txs| - 1], 0)
  }

  function IndexAll(i: Index, outs: seq<Output>): Index {
    if outs == [] then i
    else IndexTxOut(IndexAll(i, outs[..|outs| - 1]), outs[|outs| - 1].op, outs[|outs| - 1].script)
  }

  /** At its turn, the output at position k pays a script that the index watches. */
  ghost predicate PaysAt(i: Index, outs: seq<Output>, k: nat)
    requires k < |outs|
  {
    Watches(IndexAll(i, outs[..k]), outs[k].script)
  }

  /** This output pays a script that the index watches at its turn. */
  ghost predicate PaidOutput(i: Index, outs: seq<Output>, op: OutPoint) {
    exists k :: 0 <= k < |outs| && PaysAt(i, outs, k) && outs[k].op == op
  }

  /** The index n is that of some watched script of this keychain which the outputs pay. */
  ghost predicate PaidIndex(i: Index, outs: seq<Output>, k: Keychain, n: nat) {
    exists j :: 0 <= j < |outs| && PaysAt(i, outs, j) && outs[j].script == Derived(k, n)
  }

  /** After is the greatest, for each keychain, of what was before and the indices paid. */
  ghost predicate MaxPaid(
    i: Index, outs: seq<Output>, before: map<Keychain, nat>, after: map<Keychain, nat>)
  {
    forall k ::
      && (k in before ==> k in after && before[k] <= after[k])
      && (forall n :: PaidIndex(i, outs, k, n) ==> k in after && n <= after[k])
      && (k in after ==> (k in before && after[k] == before[k]) || PaidIndex(i, outs, k, after[k]))
  }

  lemma {:induction false} PaysAtPrefix(i: Index, outs: seq<Output>, o: Output, k: nat)
    requires k < |outs|
    ensures PaysAt(i, outs + [o], k) == PaysAt(i, outs, k)
  {
    assert (outs + [o])[..k] == outs[..k];
  }

  lemma {:induction false} PaidIndexSnoc(i: Index, outs: seq<Output>, o: Output, k: Keychain, n: nat)
    ensures PaidIndex(i, outs + [o], k, n) <==>
            PaidIndex(i, outs, k, n) || (Watches(IndexAll(i, outs), o.script) && o.script == Derived(k, n))
  {
    hide Watches;
    var more := outs + [o];
    assert more[..|outs|] == outs;
    forall j: nat | j < |outs| ensures PaysAt(i, more, j) == PaysAt(i, outs, j) {
      PaysAtPrefix(i, outs, o, j);
    }
    if PaidIndex(i, outs, k, n) {
      var j :| 0 <= j < |outs| && PaysAt(i, outs, j) && outs[j].script == Derived(k, n);
      assert PaysAt(i, more, j) && more[j].script == Derived(k, n);
    }
    if Watches(IndexAll(i, outs), o.script) && o.script == Derived(k, n) {
      assert PaysAt(i, more, |outs|) && more[|outs|].script == Derived(k, n);
    }
    if PaidIndex(i, more, k, n) {
      var j :| 0 <= j < |more| && PaysAt(i, more, j) && more[j].script == Derived(k, n);
      assert j < |outs| ==> PaysAt(i, outs, j) && outs[j].script == Derived(k, n);
    }
  }

  lemma {:induction false} MaxPaidSnoc(
    i: Index, outs: seq<Output>, o: Output, before: map<Keychain, nat>, after: map<Keychain, nat>)
    requires MaxPaid(i, outs, before, after)
    ensures MaxPaid(i, outs + [o], before,
                    if Watches(IndexAll(i, outs), o.script)
                    then Raise(after, o.script.keychain, o.script.index) else after)
  {
    hide PaidIndex, IndexAll;
    forall k: Keychain, n: nat {
      PaidIndexSnoc(i, outs, o, k, n);
    }
  }

  /**
    What indexing outputs does: it comes to own exactly the outputs that pay a
    watched script at their turn, and the last used and the revealed index of
    each keychain become the greatest of the old one and those paid.
   */
  lemma {:induction false} IndexAllExactly(i: Index, outs: seq<Output>)
    ensures var after := IndexAll(i, outs);
            && after.descriptors == i.descriptors && after.lookahead == i.lookahead
            && MaxPaid(i, outs, i.lastUsed, after.lastUsed) && MaxPaid(i, outs, i.revealed, after.revealed)
            && (forall op :: op in after.txouts <==>
                  op in i.txouts || PaidOutput(i, outs, op))
    decreases |outs|
  {
    hide MaxPaid, Watches, PaidOutput;
    if outs == [] {
      MaxPaidNone(i, i.lastUsed);
      MaxPaidNone(i, i.revealed);
      assert forall op :: !PaidOutput(i, [], op) by { NoneOwned(i); }
    } else {
      var init, o := outs[..|outs| - 1], outs[|outs| - 1];
      assert outs == init + [o];
      IndexAllExactly(i, init);
      var mid := IndexAll(i, init);
      MaxPaidSnoc(i, init, o, i.lastUsed, mid.lastUsed);
      MaxPaidSnoc(i, init, o, i.revealed, mid.revealed);
      forall op {
        OwnedSnoc(i, init, o, op);
      }
    }
  }

  lemma {:induction false} NoneOwned(i: Index)
    ensures forall op :: !PaidOutput(i, [], op)
  {
  }

  lemma {:induction false} MaxPaidNone(i: Index, m: map<Keychain, nat>)
    ensures MaxPaid(i, [], m, m)
  {
  }

  lemma {:induction false} OwnedSnoc(i: Index, outs: seq<Output>, o: Output, op: OutPoint)
    ensures PaidOutput(i, outs + [o], op) <==>
            PaidOutput(i, outs, op) || (Watches(IndexAll(i, outs), o.script) && o.op == op)
  {
    hide Watches;
    var more := outs + [o];
    assert more[..|outs|] == outs;
    forall j: nat | j < |outs| ensures PaysAt(i, more, j) == PaysAt(i, outs, j) {
      PaysAtPrefix(i, outs, o, j);
    }
    assert PaysAt(i, more, |outs|) == Watches(IndexAll(i, outs), o.script);
    if k: nat :| k < |outs| && PaysAt(i, outs, k) && outs[k].op == op {
      assert PaysAt(i, more, k) && more[k].op == op;
    }
    if o.op == op && Watches(IndexAll(i, outs), o.script) {
      assert PaysAt(i, more, |outs|) && more[|outs|].op == op;
    }
  }

  lemma {:induction false} IndexAllConcat(i: Index, a: seq<Output>, b: seq<Output>)
    ensures IndexAll(i, a + b) == IndexAll(IndexAll(i, a), b)
    decreases |b|
  {
    hide IndexTxOut;
    if b == [] {
      assert a + b == a;
    } else {
      assert (a + b)[..|a + b| - 1] == a + b[..|b| - 1];
      IndexAllConcat(i, a, b[..|b| - 1]);
    }
  }

  lemma {:induction false} IndexOutputsIsIndexAll(i: Index, tx: Tx, v: nat)
    requires v <= |tx.outputs|
    ensures IndexOutputs(i, tx, v) == IndexAll(i, OutputsOf(tx, v))
    decreases |tx.outputs| - v
  {
    hide IndexTxOut;
    if v < |tx.outputs| {
      var first := Output(OutPoint(tx.txid, v), tx.outputs[v]);
      IndexOutputsIsIndexAll(IndexTxOut(i, first.op, first.script), tx, v + 1);
      assert OutputsOf(tx, v) == [first] + OutputsOf(tx, v + 1);
      IndexAllConcat(i, [first], OutputsOf(tx, v + 1));
      assert [first][..0] == [] && IndexAll(i, [first]) == IndexTxOut(i, first.op, first.script);
    }
  }

  /** The index once the first n transactions are indexed. */
  function IndexAt(i: Index, txs: seq<Tx>, n: nat): Index
    requires n <= |txs|
  {
    IndexAll(i, AllOutputs(txs[..n]))
  }

  lemma {:induction false} IndexAtNext(i: Index, txs: seq<Tx>, n: nat)
    requires n < |txs|
    ensures IndexAt(i, txs, n + 1) == IndexTx(IndexAt(i, txs, n), txs[n])
  {
    hide IndexAll, IndexOutputs;
    assert txs[..n + 1][..n] == txs[..n];
    IndexAllConcat(i, AllOutputs(txs[..n]), OutputsOf(txs[n], 0));
    IndexOutputsIsIndexAll(IndexAt(i, txs, n), txs[n], 0);
  }

  // ---- The graph

  /** Once indexed, the transaction at position k spends an owned output or pays a watched script. */
  ghost predicate RelevantAt(i: Index, txs: seq<Tx>, k: nat)
    requires k < |txs|
  {
    || (exists p :: p in txs[k].inputs && p in IndexAt(i, txs, k + 1).txouts)
    || (exists o :: o in txs[k].outputs && Watches(IndexAt(i, txs, k + 1), o))
  }

  /** The graph has just the relevant ones of these transactions, each with one anchor in the block. */
  ghost predicate Tells(g: TxGraph, i: Index, b: BlockId, txs: seq<Tx>) {
    && (forall t :: t in g.txs <==> exists k :: 0 <= k < |txs| && RelevantAt(i, txs, k) && txs[k] == t)
    && (forall a :: a in g.anchors <==>
          exists k :: 0 <= k < |txs| && RelevantAt(i, txs, k) && a == Anchor(txs[k].txid, b))
  }

  lemma {:induction false} RelevantAtPrefix(i: Index, txs: seq<Tx>, n: nat, k: nat)
    requires k < n <= |txs|
    ensures RelevantAt(i, txs[..n], k) == RelevantAt(i, txs, k)
  {
    hide IndexAll, Watches;
    assert txs[..n][..k + 1] == txs[..k + 1];
  }

  /** The transactions of a block are applied from the first on. */
  lemma {:induction false} ApplyTxsSnoc(g: IndexedGraph, b: BlockId, txs: seq<Tx>, tx: Tx)
    ensures ApplyTxs(g, b, txs + [tx]) == ApplyTx(ApplyTxs(g, b, txs), b, tx)
    decreases |txs|
  {
    hide ApplyTx;
    if txs == [] {
      assert [] + [tx] == [tx] && [tx][1..] == [];
    } else {
      assert (txs + [tx])[1..] == txs[1..] + [tx];
      ApplyTxsSnoc(ApplyTx(g, b, txs[0]), b, txs[1..], tx);
    }
  }

  lemma {:induction false} TellsSnoc(g: TxGraph, i: Index, b: BlockId, txs: seq<Tx>, n: nat)
    requires n < |txs| && Tells(g, i, b, txs[..n])
    ensures var more := TxGraph(g.txs + {txs[n]}, g.anchors + {Anchor(txs[n].txid, b)});
            Tells(if RelevantAt(i, txs, n) then more else g, i, b, txs[..n + 1])
  {
    hide RelevantAt;
    var few, many := txs[..n], txs[..n + 1];
    forall k: nat | k < n ensures RelevantAt(i, few, k) == RelevantAt(i, many, k) && few[k] == many[k] {
      RelevantAtPrefix(i, txs, n, k);
      RelevantAtPrefix(i, txs, n + 1, k);
    }
    RelevantAtPrefix(i, txs, n + 1, n);
    var end := if RelevantAt(i, txs, n) then TxGraph(g.txs + {txs[n]}, g.anchors + {Anchor(txs[n].txid, b)}) else g;
    forall t ensures t in end.txs <==> exists k :: 0 <= k < |many| && RelevantAt(i, many, k) && many[k] == t {
      if k: nat :| k < n && RelevantAt(i, few, k) && few[k] == t {
        assert RelevantAt(i, many, k) && many[k] == t;
      }
      if k: nat :| k < |many| && RelevantAt(i, many, k) && many[k] == t {
        assert k < n ==> RelevantAt(i, few, k) && few[k] == t;
      }
    }
    forall a
      ensures a in end.anchors <==>
              exists k :: 0 <= k < |many| && RelevantAt(i, many, k) && a == Anchor(many[k].txid, b)
    {
      if k: nat :| k < n && RelevantAt(i, few, k) && a == Anchor(few[k].txid, b) {
        assert RelevantAt(i, many, k) && a == Anchor(many[k].txid, b);
      }
      if k: nat :| k < |many| && RelevantAt(i, many, k) && a == Anchor(many[k].txid, b) {
        assert k < n ==> RelevantAt(i, few, k) && a == Anchor(few[k].txid, b);
      }
    }
  }

  lemma {:induction false} ApplyPrefixExactly(i: Index, b: BlockId, txs: seq<Tx>, n: nat)
    requires n <= |txs|
    ensures var r := ApplyTxs(IndexedGraph(i, EMPTY_GRAPH), b, txs[..n]);
            r.index == IndexAt(i, txs, n) && Tells(r.graph, i, b, txs[..n])
    decreases n
  {
    hide Tells, IndexOutputs, IndexAll, Watches;
    if n == 0 {
      assert txs[..0] == [];
      TellsNone(i, b);
      assert IndexAt(i, txs, 0) == i by { NothingIndexed(i); }
    } else {
      var m := n - 1;
      ApplyPrefixExactly(i, b, txs, m);
      assert txs[..n] == txs[..m] + [txs[m]];
      ApplyTxsSnoc(IndexedGraph(i, EMPTY_GRAPH), b, txs[..m], txs[m]);
      IndexAtNext(i, txs, m);
      TellsSnoc(ApplyTxs(IndexedGraph(i, EMPTY_GRAPH), b, txs[..m]).graph, i, b, txs, m);
    }
  }

  lemma {:induction false} NothingIndexed(i: Index)
    ensures AllOutputs([]) == [] && IndexAll(i, []) == i
  {
  }

  lemma {:induction false} TellsNone(i: Index, b: BlockId)
    ensures Tells(EMPTY_GRAPH, i, b, [])
  {
  }

  /**
    Applying a block to a drained graph, exactly: the index is that of indexing
    all its outputs in order, and the graph has the transactions that are
    relevant at their turn, each anchored in this block, and nothing else.
   */
  lemma {:induction false} ApplyBlockExactly(i: Index, block: Block, height: nat)
    ensures var r := ApplyBlock(IndexedGraph(i, EMPTY_GRAPH), block, height);
            && r.index == IndexAll(i, AllOutputs(block.txs))
            && Tells(r.graph, i, BlockId(height, block.hash), block.txs)
  {
    hide Tells, IndexAll;
    assert block.txs[..|block.txs|] == block.txs;
    ApplyPrefixExactly(i, BlockId(height, block.hash), block.txs, |block.txs|);
  }

  /**
    The change set is just what is new: the graph before and it make the graph
    after, and it names each index revealed.
   */
  lemma {:induction false} ChangesExactly(g: IndexedGraph, block: Block, height: nat)
    ensures var after := ApplyBlock(g, block, height);
            var changes := Changes(g, after);
            && after.graph.txs == g.graph.txs + changes.txs && g.graph.txs !! changes.txs
            && after.graph.anchors == g.graph.anchors + changes.anchors && g.graph.anchors !! changes.anchors
            && (forall k :: k in changes.revealed <==> NextReveal(g.index, k) < NextReveal(after.index, k))
            && (forall k :: k in changes.revealed ==> NextReveal(after.index, k) == changes.revealed[k] + 1)
  {
    hide ApplyTxs, IndexAll;
    ApplyTxsGrows(g, BlockId(height, block.hash), block.txs);
    var after := ApplyBlock(g, block, height);
    assert forall k :: NextReveal(g.index, k) <= NextReveal(after.index, k);
  }

  // ---- Every update

  /** The update tells just the relevant part of this block, and the last used indices that the block leaves. */
  ghost predicate TellsBlock(u: Update, i: Index, chain: Chain, h: nat)
    requires h < |chain|
  {
    var b := BlockId(h, chain[h].hash);
    && b in u.chain && Tells(u.graph, i, b, chain[h].txs)
    && u.lastActive == IndexAll(i, AllOutputs(chain[h].txs)).lastUsed
  }

  /** The update tells nothing, or just one block of the chain, for an index that knows at least i. */
  ghost predicate TellsOneBlock(u: Update, i: Index, chain: Chain) {
    u.graph == EMPTY_GRAPH || exists j: Index, h: nat :: h < |chain| && Le(i, j) && TellsBlock(u, j, chain, h)
  }

  ghost predicate AllTell(es: seq<ScanEvent>, i: Index, chain: Chain) {
    forall k :: 0 <= k < |es| && es[k].WalletUpdate? ==> TellsOneBlock(es[k].update, i, chain)
  }

  lemma {:induction false} MoveTells(st: ClientState, m: Move, i: Index, chain: Chain)
    requires st.Valid() && Can(st.checkpoint[0], m) && Places(m, chain) && Le(i, st.index)
    ensures Do(st, m).Valid() && Le(i, Do(st, m).index)
    ensures AllTell(EventsOf(st.log), i, chain) ==> AllTell(EventsOf(Do(st, m).log), i, chain)
  {
    hide EventsOf, ApplyBlock, Insert, Le, Agrees, Stems, Tells, IndexAll, Do;
    MoveGrowsIndex(st, m);
    LeTransitive(i, st.index, Do(st, m).index);
    var e := MoveEmits(st, m);
    if m.Apply? && e.Some? {
      ApplyBlockExactly(st.index, m.block, m.height);
      AppliedMove(st, m);
      assert TellsBlock(e.value.update, st.index, chain, m.height);
      assert TellsOneBlock(e.value.update, i, chain);
    }
  }

  lemma {:induction false} AppliedMove(st: ClientState, m: Move)
    requires st.Valid() && Can(st.checkpoint[0], m) && m.Apply?
    ensures Do(st, m).index == ApplyBlock(IndexedGraph(st.index, EMPTY_GRAPH), m.block, m.height).index
    ensures BlockId(m.height, m.block.hash) in Do(st, m).checkpoint
  {
    hide ApplyBlock, Insert;
    InsertTip(st.checkpoint, BlockId(m.height, m.block.hash));
  }

  lemma {:induction false} MovesTell(st: ClientState, ms: seq<Move>, i: Index, chain: Chain)
    requires st.Valid() && AllCan(st.checkpoint[0], ms) && AllPlace(ms, chain)
    requires Le(i, st.index) && AllTell(EventsOf(st.log), i, chain)
    ensures var fin := DoAll(st, ms);
            fin.Valid() && Le(i, fin.index) && AllTell(EventsOf(fin.log), i, chain)
  {
    hide Do, EventsOf, Le, AllTell;
    if ms != [] {
      MovesTell(st, ms[..|ms| - 1], i, chain);
      assert Places(ms[|ms| - 1], chain);
      MoveTells(DoAll(st, ms[..|ms| - 1]), ms[|ms| - 1], i, chain);
    }
  }

  /**
    In every history: each update tells nothing, or just those transactions of
    one block of the chain that pay a watched script or spend an owned output
    when their turn comes, each anchored in that block and nowhere else, together
    with the last used indices that the block leaves.
   */
  lemma {:induction false} UpdatesTellExactly(st: ClientState, calls: seq<Call>, chain: Chain, ledger: Ledger)
    requires st.Valid() && Callable(st, calls) && st.log == []
    requires forall c :: c in calls ==> CallTruthful(c, chain, ledger)
    ensures AllTell(EventsOf(RunCalls(st, calls).log), st.index, chain)
  {
    hide Le, TellsOneBlock, RunCalls, CallTruthful;
    var ms := HistoryMoves(st, calls, chain, ledger);
    LeReflexive(st.index);
    MovesTell(st, ms, st.index, chain);
  }
}
