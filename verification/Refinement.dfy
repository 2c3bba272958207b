/**
  The filter scan against its reference: applying every block of the range, in
  order, to one graph that is never drained.
 */
module Refinement {
  import opened Wrappers
  import opened Blocks
  import opened CheckPoints
  import opened KeychainIndex
  import opened TxGraphs
  import opened NodeQueries
  import opened Scanning

  predicate Bounded(hs: seq<nat>, n: nat) {
    forall k :: 0 <= k < |hs| ==> hs[k] < n
  }

  /** Apply the blocks at the given heights. */
  function ApplyHeights(g: IndexedGraph, chain: Chain, hs: seq<nat>): IndexedGraph
    requires Bounded(hs, |chain|)
  {
    if hs == [] then g
    else ApplyBlock(ApplyHeights(g, chain, hs[..|hs| - 1]), chain[hs[|hs| - 1]], hs[|hs| - 1])
  }

  /** The reference: apply every block from lo up to but not including hi. */
  function Naive(g: IndexedGraph, chain: Chain, lo: nat, hi: nat): IndexedGraph
    requires hi <= |chain|
    decreases hi
  {
    if hi <= lo then g else ApplyBlock(Naive(g, chain, lo, hi - 1), chain[hi - 1], hi - 1)
  }

  lemma {:induction false} ApplyHeightsSnoc(g: IndexedGraph, chain: Chain, hs: seq<nat>, h: nat)
    requires Bounded(hs, |chain|)
    requires h < |chain|
    ensures ApplyHeights(g, chain, hs + [h]) == ApplyBlock(ApplyHeights(g, chain, hs), chain[h], h)
  {
    assert (hs + [h])[..|hs|] == hs;
  }

  /** The heights at the front are applied first. */
  lemma {:induction false} ApplyHeightsCons(g: IndexedGraph, chain: Chain, h: nat, hs: seq<nat>)
    requires Bounded(hs, |chain|) && h < |chain|
    ensures Bounded([h] + hs, |chain|)
    ensures ApplyHeights(g, chain, [h] + hs) == ApplyHeights(ApplyBlock(g, chain[h], h), chain, hs)
  {
    hide ApplyBlock;
    if hs == [] {
      assert [h] + hs == [] + [h];
      ApplyHeightsSnoc(g, chain, [], h);
    } else {
      var init, last := hs[..|hs| - 1], hs[|hs| - 1];
      ApplyHeightsCons(g, chain, h, init);
      ApplyHeightsSnoc(g, chain, [h] + init, last);
      assert [h] + init + [last] == [h] + hs;
    }
  }

  /** Draining before every block and merging what each contributed gives the undrained graph. */
  lemma {:induction false} DrainingIsHomomorphic(i: Index, g: TxGraph, chain: Chain, lo: nat, hi: nat)
    requires hi <= |chain|
    ensures var r := Naive(IndexedGraph(i, EMPTY_GRAPH), chain, lo, hi);
            Naive(IndexedGraph(i, g), chain, lo, hi) == IndexedGraph(r.index, g.Union(r.graph))
    decreases hi
  {
    if hi <= lo {
      assert g.Union(EMPTY_GRAPH) == g;
    } else {
      DrainingIsHomomorphic(i, g, chain, lo, hi - 1);
      DrainBeforeBlock(Naive(IndexedGraph(i, g), chain, lo, hi - 1), chain[hi - 1], hi - 1);
      DrainBeforeBlock(Naive(IndexedGraph(i, EMPTY_GRAPH), chain, lo, hi - 1), chain[hi - 1], hi - 1);
    }
  }

  // ---- Which blocks may be skipped

  /** At its turn in the reference run, the block at height h contributes a transaction. */
  ghost predicate Contributes(i: Index, chain: Chain, lo: nat, h: nat)
    requires h < |chain|
  {
    Keeps(Naive(IndexedGraph(i, EMPTY_GRAPH), chain, lo, h).index, chain[h].txs)
  }

  /** Heights of the range that a scan applied, in order. */
  ghost predicate Within(hs: seq<nat>, lo: nat, hi: nat) {
    Ascending(hs) && forall k :: 0 <= k < |hs| ==> lo <= hs[k] < hi
  }

  /** The last applied height is the top of the range, or the top was skipped. */
  lemma {:induction false} SplitTop(hs: seq<nat>, lo: nat, hi: nat)
    requires Within(hs, lo, hi) && lo < hi
    ensures hi - 1 in hs ==> hs != [] && hs[|hs| - 1] == hi - 1 && Within(hs[..|hs| - 1], lo, hi - 1)
    ensures hi - 1 !in hs ==> Within(hs, lo, hi - 1)
  {
    if hi - 1 in hs {
      var k :| 0 <= k < |hs| && hs[k] == hi - 1;
      assert hs[k] <= hs[|hs| - 1];
    }
  }

  lemma {:induction false} SkippingIdleBlocks(i: Index, chain: Chain, lo: nat, hi: nat, hs: seq<nat>)
    requires hi <= |chain| && Within(hs, lo, hi)
    requires forall h :: lo <= h < hi && Contributes(i, chain, lo, h) ==> h in hs
    ensures ApplyHeights(IndexedGraph(i, EMPTY_GRAPH), chain, hs) == Naive(IndexedGraph(i, EMPTY_GRAPH), chain, lo, hi)
    decreases hi
  {
    if hi <= lo {
      assert hs == [];
    } else {
      SplitTop(hs, lo, hi);
      if hi - 1 in hs {
        var init := hs[..|hs| - 1];
        assert hs == init + [hi - 1];
        SkippingIdleBlocks(i, chain, lo, hi - 1, init);
      } else {
        SkippingIdleBlocks(i, chain, lo, hi - 1, hs);
        var block := chain[hi - 1];
        KeptOrUnchanged(
          Naive(IndexedGraph(i, EMPTY_GRAPH), chain, lo, hi - 1), BlockId(hi - 1, block.hash), block.txs);
      }
    }
  }

  lemma {:induction false} AnchorsOfHeights(i: Index, chain: Chain, hs: seq<nat>)
    requires Bounded(hs, |chain|)
    ensures forall a :: a in ApplyHeights(IndexedGraph(i, EMPTY_GRAPH), chain, hs).graph.anchors ==>
              a.block.height in hs
  {
    if hs != [] {
      var init, h := hs[..|hs| - 1], hs[|hs| - 1];
      AnchorsOfHeights(i, chain, init);
      ApplyTxsGrows(
        ApplyHeights(IndexedGraph(i, EMPTY_GRAPH), chain, init), BlockId(h, chain[h].hash), chain[h].txs);
    }
  }

  lemma {:induction false} NaiveGrows(g: IndexedGraph, chain: Chain, lo: nat, mid: nat, hi: nat)
    requires mid <= hi <= |chain|
    ensures var a, b := Naive(g, chain, lo, mid), Naive(g, chain, lo, hi);
            Le(a.index, b.index) && a.graph.txs <= b.graph.txs && a.graph.anchors <= b.graph.anchors
    decreases hi
  {
    if mid < hi {
      NaiveGrows(g, chain, lo, mid, hi - 1);
      if lo < hi {
        ApplyTxsGrows(Naive(g, chain, lo, hi - 1), BlockId(hi - 1, chain[hi - 1].hash), chain[hi - 1].txs);
      }
    }
  }

  /** A contributing block leaves its height in the reference graph for good. */
  lemma {:induction false} ContributionIsAnchored(i: Index, chain: Chain, lo: nat, hi: nat, h: nat)
    requires lo <= h < hi <= |chain| && Contributes(i, chain, lo, h)
    ensures exists a :: a in Naive(IndexedGraph(i, EMPTY_GRAPH), chain, lo, hi).graph.anchors && a.block.height == h
  {
    var g := IndexedGraph(i, EMPTY_GRAPH);
    var b := BlockId(h, chain[h].hash);
    KeptOrUnchanged(Naive(g, chain, lo, h), b, chain[h].txs);
    var t: Tx :| Anchor(t.txid, b) in Naive(g, chain, lo, h + 1).graph.anchors;
    NaiveGrows(g, chain, lo, h + 1, hi);
    assert Anchor(t.txid, b) in Naive(g, chain, lo, hi).graph.anchors;
  }

  /**
    Applying only some blocks equals applying all of them exactly when every
    block that contributes in the reference run was applied.
   */
  lemma {:induction false} SkippingIsExact(i: Index, chain: Chain, lo: nat, hi: nat, hs: seq<nat>)
    requires hi <= |chain| && Within(hs, lo, hi)
    ensures ApplyHeights(IndexedGraph(i, EMPTY_GRAPH), chain, hs) == Naive(IndexedGraph(i, EMPTY_GRAPH), chain, lo, hi)
            <==> forall h :: lo <= h < hi && Contributes(i, chain, lo, h) ==> h in hs
  {
    if forall h :: lo <= h < hi && Contributes(i, chain, lo, h) ==> h in hs {
      SkippingIdleBlocks(i, chain, lo, hi, hs);
    } else {
      var h :| lo <= h < hi && Contributes(i, chain, lo, h) && h !in hs;
      ContributionIsAnchored(i, chain, lo, hi, h);
      AnchorsOfHeights(i, chain, hs);
    }
  }

  // ---- What filters promise

  /** Filters have no false negatives: every block that touches a script is hit. */
  ghost predicate Hits(ledger: Ledger, chain: Chain, spks: seq<Script>, lo: nat, hi: nat, hits: seq<nat>)
    requires hi <= |chain|
  {
    && Within(hits, lo, hi)
    && forall h :: lo <= h < hi && Touches(ledger, chain[h], spks) ==> h in hits
  }

  /** The answer of a perfect filter. */
  ghost function TouchedHeights(ledger: Ledger, chain: Chain, spks: seq<Script>, lo: nat, hi: nat): (hs: seq<nat>)
    requires hi <= |chain|
    ensures Within(hs, lo, hi)
    ensures forall h :: h in hs <==> lo <= h < hi && Touches(ledger, chain[h], spks)
    decreases hi
  {
    if hi <= lo then []
    else
      var rest := TouchedHeights(ledger, chain, spks, lo, hi - 1);
      if Touches(ledger, chain[hi - 1], spks) then rest + [hi - 1] else rest
  }

  /** Every block that contributes to the reference run touches one of the scripts. */
  ghost predicate Visible(i: Index, ledger: Ledger, chain: Chain, lo: nat, hi: nat, spks: seq<Script>)
    requires hi <= |chain|
  {
    forall h :: lo <= h < hi && Contributes(i, chain, lo, h) ==> Touches(ledger, chain[h], spks)
  }

  /** Every admissible filter answer gives the reference result exactly when all contributions are visible. */
  lemma {:induction false} VisibilityIsExact(
    i: Index, ledger: Ledger, chain: Chain, lo: nat, hi: nat, spks: seq<Script>)
    requires hi <= |chain|
    ensures var g := IndexedGraph(i, EMPTY_GRAPH);
            (forall hits :: Hits(ledger, chain, spks, lo, hi, hits) ==>
               ApplyHeights(g, chain, hits) == Naive(g, chain, lo, hi))
            <==> Visible(i, ledger, chain, lo, hi, spks)
  {
    var g := IndexedGraph(i, EMPTY_GRAPH);
    forall hits | Hits(ledger, chain, spks, lo, hi, hits)
      ensures ApplyHeights(g, chain, hits) == Naive(g, chain, lo, hi)
              <==> forall h :: lo <= h < hi && Contributes(i, chain, lo, h) ==> h in hits
    {
      SkippingIsExact(i, chain, lo, hi, hits);
    }
    var perfect := TouchedHeights(ledger, chain, spks, lo, hi);
    assert Hits(ledger, chain, spks, lo, hi, perfect);
  }

  lemma {:induction false} NaiveOwns(i: Index, chain: Chain, lo: nat, hi: nat, ledger: Ledger)
    requires hi <= |chain| && Owns(i, ledger) && ChainAgrees(ledger, chain)
    ensures Owns(Naive(IndexedGraph(i, EMPTY_GRAPH), chain, lo, hi).index, ledger)
    decreases hi
  {
    if lo < hi {
      NaiveOwns(i, chain, lo, hi - 1, ledger);
      var block := chain[hi - 1];
      ApplyTxsOwns(
        Naive(IndexedGraph(i, EMPTY_GRAPH), chain, lo, hi - 1), BlockId(hi - 1, block.hash), block.txs, ledger);
    }
  }

  /**
    Contributions are visible if every script that the index comes to watch
    during the reference run is among those derived.
   */
  lemma {:induction false} CoveredIsVisible(i: Index, ledger: Ledger, chain: Chain, lo: nat, hi: nat, spks: seq<Script>)
    requires hi <= |chain| && Owns(i, ledger) && ChainAgrees(ledger, chain)
    requires forall s :: Watches(Naive(IndexedGraph(i, EMPTY_GRAPH), chain, lo, hi).index, s) ==> s in spks
    ensures Visible(i, ledger, chain, lo, hi, spks)
  {
    var g := IndexedGraph(i, EMPTY_GRAPH);
    forall h | lo <= h < hi && Contributes(i, chain, lo, h) ensures Touches(ledger, chain[h], spks) {
      var at := Naive(g, chain, lo, h).index;
      NaiveOwns(i, chain, lo, h, ledger);
      NaiveGrows(g, chain, lo, h, hi);
      assert forall s :: Watches(at, s) ==> Watches(Naive(g, chain, lo, hi).index, s);
      if !Touches(ledger, chain[h], spks) {
        UntouchedKeepsNothing(at, chain[h].txs, spks, ledger);
      }
    }
  }

  // ---- Contributions that the range really makes

  /** Every owned output is locked by one of the scripts. */
  ghost predicate OwnedIn(i: Index, ledger: Ledger, spks: seq<Script>) {
    forall op :: op in i.txouts ==> ledger(op) in spks
  }

  /** Whatever the index watches of these transactions' outputs is among the scripts. */
  ghost predicate PaidIn(i: Index, txs: seq<Tx>, spks: seq<Script>) {
    forall t, o :: t in txs && o in t.outputs && Watches(i, o) ==> o in spks
  }

  lemma {:induction false} PaidInLess(a: Index, b: Index, txs: seq<Tx>, spks: seq<Script>)
    requires Le(a, b) && PaidIn(b, txs, spks)
    ensures PaidIn(a, txs, spks)
  {
    forall t, o | t in txs && o in t.outputs && Watches(a, o) ensures o in spks {
      assert NextReveal(a, o.keychain) <= NextReveal(b, o.keychain);
      assert Watches(b, o);
    }
  }

  lemma {:induction false} IndexOutputsOwnedIn(i: Index, tx: Tx, v: nat, ledger: Ledger, spks: seq<Script>)
    requires v <= |tx.outputs| && OwnedIn(i, ledger, spks) && TxAgrees(ledger, tx)
    requires PaidIn(IndexOutputs(i, tx, v), [tx], spks)
    ensures OwnedIn(IndexOutputs(i, tx, v), ledger, spks)
    decreases |tx.outputs| - v
  {
    hide Le;
    if v < |tx.outputs| {
      var next := IndexTxOut(i, OutPoint(tx.txid, v), tx.outputs[v]);
      assert PaidIn(i, [tx], spks) by {
        IndexOutputsGrows(i, tx, v);
        PaidInLess(i, IndexOutputs(i, tx, v), [tx], spks);
      }
      assert tx in [tx] && tx.outputs[v] in tx.outputs;
      IndexOutputsOwnedIn(next, tx, v + 1, ledger, spks);
    }
  }

  lemma {:induction false} ApplyTxsOwnedIn(
    g: IndexedGraph, b: BlockId, txs: seq<Tx>, ledger: Ledger, spks: seq<Script>)
    requires OwnedIn(g.index, ledger, spks) && forall t :: t in txs ==> TxAgrees(ledger, t)
    requires PaidIn(ApplyTxs(g, b, txs).index, txs, spks)
    ensures OwnedIn(ApplyTxs(g, b, txs).index, ledger, spks)
    decreases |txs|
  {
    hide OwnedIn, IsRelevant, Le;
    if txs != [] {
      var next, end := ApplyTx(g, b, txs[0]), ApplyTxs(g, b, txs);
      ApplyTxsGrows(next, b, txs[1..]);
      assert PaidIn(end.index, [txs[0]], spks) && PaidIn(end.index, txs[1..], spks) by {
        assert forall t :: t in txs[1..] ==> t in txs;
      }
      PaidInLess(next.index, end.index, [txs[0]], spks);
      IndexOutputsOwnedIn(g.index, txs[0], 0, ledger, spks);
      ApplyTxsOwnedIn(next, b, txs[1..], ledger, spks);
    }
  }

  /** Whatever the final index of the reference run watches of the range's outputs is among the scripts. */
  ghost predicate RangePaidIn(i: Index, chain: Chain, lo: nat, hi: nat, spks: seq<Script>)
    requires hi <= |chain|
  {
    forall h :: lo <= h < hi ==> PaidIn(Naive(IndexedGraph(i, EMPTY_GRAPH), chain, lo, hi).index, chain[h].txs, spks)
  }

  lemma {:induction false} NaiveOwnedIn(
    i: Index, chain: Chain, lo: nat, mid: nat, hi: nat, ledger: Ledger, spks: seq<Script>)
    requires mid <= hi <= |chain| && OwnedIn(i, ledger, spks) && ChainAgrees(ledger, chain)
    requires RangePaidIn(i, chain, lo, hi, spks)
    ensures OwnedIn(Naive(IndexedGraph(i, EMPTY_GRAPH), chain, lo, mid).index, ledger, spks)
    decreases mid
  {
    hide OwnedIn, PaidIn, Le;
    var g := IndexedGraph(i, EMPTY_GRAPH);
    if lo < mid {
      var h := mid - 1;
      NaiveOwnedIn(i, chain, lo, h, hi, ledger, spks);
      NaiveGrows(g, chain, lo, mid, hi);
      PaidInLess(Naive(g, chain, lo, mid).index, Naive(g, chain, lo, hi).index, chain[h].txs, spks);
      ApplyTxsOwnedIn(Naive(g, chain, lo, h), BlockId(h, chain[h].hash), chain[h].txs, ledger, spks);
    }
  }

  lemma {:induction false} UnpaidKeepsNothing(i: Index, txs: seq<Tx>, spks: seq<Script>, ledger: Ledger)
    requires OwnedIn(i, ledger, spks) && PaidIn(i, txs, spks)
    requires forall t :: t in txs ==> !TxTouches(ledger, t, spks)
    ensures !Keeps(i, txs)
    decreases |txs|
  {
    if txs != [] {
      var tx := txs[0];
      assert !TxTouches(ledger, tx, spks);
      assert forall o :: o in tx.outputs ==> !Watches(i, o);
      UnwatchedOutputs(i, tx, 0);
      assert forall p :: p in tx.inputs ==> p !in i.txouts;
      UnpaidKeepsNothing(i, txs[1..], spks, ledger);
    }
  }

  /**
    Contributions are visible if the scripts include those of the owned outputs
    and those that the range really pays, of all that the index comes to watch.
    What it watches and the range never pays need not be derived.
   */
  lemma {:induction false} PaidIsVisible(i: Index, ledger: Ledger, chain: Chain, lo: nat, hi: nat, spks: seq<Script>)
    requires hi <= |chain| && ChainAgrees(ledger, chain)
    requires OwnedIn(i, ledger, spks) && RangePaidIn(i, chain, lo, hi, spks)
    ensures Visible(i, ledger, chain, lo, hi, spks)
  {
    hide OwnedIn, PaidIn, Keeps, Le;
    var g := IndexedGraph(i, EMPTY_GRAPH);
    forall h | lo <= h < hi && Contributes(i, chain, lo, h) ensures Touches(ledger, chain[h], spks) {
      NaiveOwnedIn(i, chain, lo, h, hi, ledger, spks);
      NaiveGrows(g, chain, lo, h, hi);
      PaidInLess(Naive(g, chain, lo, h).index, Naive(g, chain, lo, hi).index, chain[h].txs, spks);
      if !Touches(ledger, chain[h], spks) {
        assert forall t :: t in chain[h].txs ==> !TxTouches(ledger, t, spks);
        UnpaidKeepsNothing(Naive(g, chain, lo, h).index, chain[h].txs, spks, ledger);
      }
    }
  }

  /**
    A `Sync` scan derives one script less than the index watches: whenever a
    keychain is revealed and not exhausted, a payment to its last watched script
    contributes to the reference run, yet no derived script touches the block.
   */
  lemma {:induction false} SyncMissesLastWatched(i: Index, k: Keychain, ledger: Ledger, txid: Txid, hash: Hash)
    requires External in i.descriptors && k in i.descriptors && k in i.revealed
    requires i.revealed[k] + i.lookahead < Derivable(i.descriptors[k])
    ensures var last := Derived(k, i.revealed[k] + i.lookahead);
            var chain := [Block(hash, [Tx(txid, [], [last])])];
            && Watches(i, last)
            && Contributes(i, chain, 0, 0)
            && !Touches(ledger, chain[0], DeriveSpks(i, Lookahead(i, Sync)).value)
            && !Visible(i, ledger, chain, 0, 1, DeriveSpks(i, Lookahead(i, Sync)).value)
  {
    var last := Derived(k, i.revealed[k] + i.lookahead);
    var tx := Tx(txid, [], [last]);
    var chain := [Block(hash, [tx])];
    assert !InWindow(i, i.lookahead, last);
    IndexOutputsGrows(i, tx, 0);
    assert tx.outputs[0] == last && Watches(IndexTx(i, tx), last);
    assert Contributes(i, chain, 0, 0);
  }

  lemma {:induction false} OneBlock(i: Index, block: Block)
    ensures Contributes(i, [block], 0, 0) <==> Keeps(i, block.txs)
  {
  }

  /** Some watched script beyond the window makes a payment that the window does not show. */
  lemma {:induction false} BeyondWindow(i: Index, lookahead: U32, s: Script)
    requires External in i.descriptors && Watches(i, s) && !InWindow(i, lookahead, s)
    ensures var block, ledger := Block(0, [Tx(0, [], [s])]), (_: OutPoint) => s;
            && Owns(i, ledger) && ChainAgrees(ledger, [block])
            && !Visible(i, ledger, [block], 0, 1, DeriveSpks(i, lookahead).value)
  {
    var tx := Tx(0, [], [s]);
    IndexOutputsGrows(i, tx, 0);
    assert tx.outputs[0] == s && Watches(IndexTx(i, tx), s);
    OneBlock(i, Block(0, [tx]));
  }

  /**
    When a derived window is enough: no next block can contribute unseen exactly
    if no keychain is short, a condition on the index alone.
   */
  lemma {:induction false} WindowIsExact(i: Index, lookahead: U32)
    requires External in i.descriptors
    ensures (forall ledger: Ledger, block: Block :: Owns(i, ledger) && ChainAgrees(ledger, [block]) ==>
               Visible(i, ledger, [block], 0, 1, DeriveSpks(i, lookahead).value))
            <==> !Short(i, lookahead)
  {
    hide ChainAgrees, Owns, Visible, DeriveSpks, Short, InWindow, Watches;
    WindowCoversWatched(i, lookahead);
    if Short(i, lookahead) {
      var s :| Watches(i, s) && !InWindow(i, lookahead, s);
      BeyondWindow(i, lookahead, s);
    } else {
      forall ledger: Ledger, block: Block | Owns(i, ledger) && ChainAgrees(ledger, [block])
        ensures Visible(i, ledger, [block], 0, 1, DeriveSpks(i, lookahead).value)
      {
        WatchedIsVisible(i, lookahead, ledger, block);
      }
    }
  }

  lemma {:induction false} WatchedIsVisible(i: Index, lookahead: U32, ledger: Ledger, block: Block)
    requires External in i.descriptors && Owns(i, ledger) && ChainAgrees(ledger, [block])
    requires forall s :: Watches(i, s) ==> InWindow(i, lookahead, s)
    ensures Visible(i, ledger, [block], 0, 1, DeriveSpks(i, lookahead).value)
  {
    hide Keeps, InWindow, Watches;
    OneBlock(i, block);
    var spks := DeriveSpks(i, lookahead).value;
    if !Touches(ledger, block, spks) {
      UntouchedKeepsNothing(i, block.txs, spks, ledger);
    }
  }

  /** The default window of a full scan is never short for an index that looks less far ahead. */
  lemma {:induction false} FullScanSeesNext(i: Index, ledger: Ledger, block: Block)
    requires External in i.descriptors && i.lookahead < FULL_SCAN_LOOKAHEAD
    requires Owns(i, ledger) && ChainAgrees(ledger, [block])
    ensures !Short(i, Lookahead(i, FullScan(None)))
    ensures Visible(i, ledger, [block], 0, 1, DeriveSpks(i, Lookahead(i, FullScan(None))).value)
  {
    hide DeriveSpks, Visible, ChainAgrees, Owns;
    WindowIsExact(i, FULL_SCAN_LOOKAHEAD);
  }

  // ---- The scan itself

  /** The node tells the truth about the chain; it may still fail at any point. */
  ghost predicate NodeTruthful(env: ScanEnv, chain: Chain) {
    && (forall h: nat :: h < |chain| && env.answers(chain[h].hash).Found? ==>
          env.answers(chain[h].hash).block == chain[h])
    && (forall j: nat, h: nat :: h < |chain| && env.heightOf(j, chain[h].hash).Success? ==>
          env.heightOf(j, chain[h].hash).value == h)
    && (env.filterHeight.Success? ==> env.filterHeight.value < |chain|)
    && (env.filterHeight.Success? && env.stopHash.Success? ==>
          env.stopHash.value == chain[env.filterHeight.value].hash)
  }

  /** The heights behind the hashes of each filter answer. */
  type FilterHits = (seq<Script>, nat, nat) -> seq<nat>

  ghost predicate AreHashesOf(hashes: seq<Hash>, chain: Chain, hs: seq<nat>) {
    && |hashes| == |hs| && Bounded(hs, |chain|)
    && forall j :: 0 <= j < |hs| ==> hashes[j] == chain[hs[j]].hash
  }

  /** Every filter answer lists, in height order, at least the blocks that touch a script. */
  ghost predicate FilterTruthful(env: ScanEnv, chain: Chain, ledger: Ledger, hits: FilterHits) {
    forall spks: seq<Script>, lo: nat, stop: nat :: stop < |chain| && env.matched(spks, lo, stop).Success? ==>
      && Hits(ledger, chain, spks, lo, stop + 1, hits(spks, lo, stop))
      && AreHashesOf(env.matched(spks, lo, stop).value, chain, hits(spks, lo, stop))
  }

  /** Every block of the range that pays or spends a script of the window is among the hits. */
  lemma {:induction false} WindowBlocksAreHit(
    i: Index, lookahead: U32, s: Script, env: ScanEnv, chain: Chain, ledger: Ledger, hits: FilterHits,
    lo: nat, stop: nat, h: nat)
    requires FilterTruthful(env, chain, ledger, hits) && External in i.descriptors
    requires lo <= h <= stop < |chain| && InWindow(i, lookahead, s)
    requires env.matched(DeriveSpks(i, lookahead).value, lo, stop).Success?
    requires Touches(ledger, chain[h], [s])
    ensures h in hits(DeriveSpks(i, lookahead).value, lo, stop)
    ensures chain[h].hash in env.matched(DeriveSpks(i, lookahead).value, lo, stop).value
  {
    var spks := DeriveSpks(i, lookahead).value;
    var tx :| tx in chain[h].txs && TxTouches(ledger, tx, [s]);
    assert TxTouches(ledger, tx, spks);
    assert Touches(ledger, chain[h], spks);
    var hs := hits(spks, lo, stop);
    var k :| 0 <= k < |hs| && hs[k] == h;
    assert env.matched(spks, lo, stop).value[k] == chain[h].hash;
  }

  /** A running client with a live receiver and no poisoned lock. */
  ghost predicate Live(env: ScanEnv) {
    forall j: nat :: env.send(j).Delivered?
  }

  /** Everything a scan observes is true of the chain. */
  ghost predicate Truthful(env: ScanEnv, chain: Chain, ledger: Ledger) {
    NodeTruthful(env, chain) && exists hits: FilterHits :: FilterTruthful(env, chain, ledger, hits)
  }

  /** Applying one block and sending its update tells the wallet just what the block contributes. */
  lemma {:induction false} AdvanceTells(st: ClientState, chain: Chain, h: nat, how: SendOutcome)
    requires st.Valid() && OnChain(st.checkpoint, chain) && h < |chain| && how.Delivered?
    requires h == 0 ==> chain[h].hash == st.checkpoint[0].hash
    ensures var (fin, r) := Advance(st, chain[h], h, how);
            && r.Ok? && fin.Valid() && OnChain(fin.checkpoint, chain)
            && IndexedGraph(fin.index, Told(fin)) == ApplyBlock(IndexedGraph(st.index, Told(st)), chain[h], h)
            && TipHeight(fin.checkpoint) == Max(h, TipHeight(st.checkpoint))
  {
    var b := BlockId(h, chain[h].hash);
    var moved := st.WithIndexed(ApplyBlock(st.Indexed(), chain[h], h)).MoveTo(b);
    InsertOnChain(st.checkpoint, b, chain);
    DrainBeforeBlock(IndexedGraph(st.index, Told(st)), chain[h], h);
    EventsOfSnoc(st.log, Emitted(WalletUpdate(moved.PendingUpdate())));
    MergedSnoc(EventsOf(st.log), WalletUpdate(moved.PendingUpdate()));
  }

  /** One turn applies its block in full, or fails before touching anything. */
  lemma {:induction false} ScanOneTells(st: ClientState, chain: Chain, h: nat, j: nat, env: ScanEnv)
    requires st.Valid() && OnChain(st.checkpoint, chain) && h < |chain|
    requires GenesisAgrees(st.checkpoint, env) && NodeTruthful(env, chain) && Live(env)
    ensures var (fin, r) := ScanOne(st, chain[h], j, env);
            && fin.Valid() && OnChain(fin.checkpoint, chain)
            && IndexedGraph(fin.index, Told(fin)) ==
               (if r.Ok? then ApplyBlock(IndexedGraph(st.index, Told(st)), chain[h], h)
                else IndexedGraph(st.index, Told(st)))
            && (TipHeight(fin.checkpoint) == TipHeight(st.checkpoint)
                || (r.Ok? && TipHeight(st.checkpoint) < TipHeight(fin.checkpoint) == h))
  {
    EventsOfSnoc(st.log, Saw(true));
    EventsOfSnoc(st.log, Saw(false));
    if !env.cancelledAt(j) && env.heightOf(j, chain[h].hash).Success? {
      assert env.heightOf(j, chain[h].hash).value == h;
      DrainBeforeBlock(IndexedGraph(st.index, Told(st)), chain[h], h);
      EmptyChangesMeanIrrelevant(st.index, chain[h], h);
      assert Told(st).Union(EMPTY_GRAPH) == Told(st);
      AdvanceTells(st.Looked(false), chain, h, env.send(j));
    }
  }

  /** Of the hits from position i on, those before position n were applied. */
  lemma {:induction false} ScanBlocksAppliesPrefix(
    st: ClientState, blocks: seq<Block>, i: nat, env: ScanEnv, chain: Chain, hs: seq<nat>, start: IndexedGraph)
    returns (n: nat)
    requires i <= |blocks| && st.Valid() && OnChain(st.checkpoint, chain)
    requires GenesisAgrees(st.checkpoint, env) && NodeTruthful(env, chain) && Live(env)
    requires |blocks| == |hs| && Bounded(hs, |chain|) && forall j :: 0 <= j < |hs| ==> blocks[j] == chain[hs[j]]
    requires IndexedGraph(st.index, Told(st)) == ApplyHeights(start, chain, hs[..i])
    ensures i <= n <= |hs|
    ensures var (fin, r) := ScanBlocks(st, blocks, i, env);
            && fin.Valid() && OnChain(fin.checkpoint, chain)
            && IndexedGraph(fin.index, Told(fin)) == ApplyHeights(start, chain, hs[..n])
            && (r.Ok? ==> n == |hs|)
            && TipHeight(st.checkpoint) <= TipHeight(fin.checkpoint)
            && (TipHeight(fin.checkpoint) == TipHeight(st.checkpoint)
                || exists j :: i <= j < n && hs[j] == TipHeight(fin.checkpoint))
    decreases |blocks| - i
  {
    hide ScanOne, ApplyBlock, Told, OnChain, NodeTruthful, Live;
    n := i;
    if i < |blocks| {
      ScanOneTells(st, chain, hs[i], i, env);
      var (next, r) := ScanOne(st, blocks[i], i, env);
      if r.Ok? {
        assert hs[..i + 1] == hs[..i] + [hs[i]];
        ApplyHeightsSnoc(start, chain, hs[..i], hs[i]);
        n := ScanBlocksAppliesPrefix(next, blocks, i + 1, env, chain, hs, start);
      }
    }
  }

  /** The closing checkpoint tells the wallet no new transaction. */
  lemma {:induction false} CloseRangeTells(st: ClientState, stop: nat, env: ScanEnv, sends: nat, chain: Chain)
    requires st.Valid() && OnChain(st.checkpoint, chain)
    requires NodeTruthful(env, chain) && Live(env) && env.filterHeight == Success(stop)
    ensures var (fin, r) := CloseRange(st, stop, env, sends);
            && fin.Valid() && OnChain(fin.checkpoint, chain)
            && fin.index == st.index && Told(fin) == Told(st)
            && (TipHeight(fin.checkpoint) == TipHeight(st.checkpoint)
                || (r.Ok? && TipHeight(st.checkpoint) < TipHeight(fin.checkpoint) == stop))
  {
    if TipHeight(st.checkpoint) < stop && env.stopHash.Success? {
      var b := BlockId(stop, env.stopHash.value);
      InsertOnChain(st.checkpoint, b, chain);
      var update := WalletUpdate(st.MoveTo(b).PendingUpdate());
      EventsOfSnoc(st.log, Emitted(update));
      MergedSnoc(EventsOf(st.log), update);
      assert Told(st).Union(EMPTY_GRAPH) == Told(st);
    }
  }

  /** The client has told what the first n of these heights contribute, and its tip has not passed the rest. */
  ghost predicate AppliedPrefix(st: ClientState, fin: ClientState, chain: Chain, hs: seq<nat>, n: nat, stop: nat)
    requires Bounded(hs, |chain|) && |st.checkpoint| > 0
  {
    && n <= |hs| && fin.Valid() && OnChain(fin.checkpoint, chain)
    && IndexedGraph(fin.index, Told(fin)) == ApplyHeights(IndexedGraph(st.index, Told(st)), chain, hs[..n])
    && TipHeight(st.checkpoint) <= TipHeight(fin.checkpoint)
    && (TipHeight(fin.checkpoint) != TipHeight(st.checkpoint) ==>
          TipHeight(fin.checkpoint) <= stop && (n < |hs| ==> TipHeight(fin.checkpoint) < hs[n]))
  }

  lemma {:induction false} ScanMatchedAppliesPrefix(
    st: ClientState, hashes: seq<Hash>, lo: nat, stop: nat, env: ScanEnv, chain: Chain, hs: seq<nat>)
    returns (n: nat)
    requires st.Valid() && OnChain(st.checkpoint, chain) && Within(hs, lo, stop + 1)
    requires GenesisAgrees(st.checkpoint, env) && NodeTruthful(env, chain) && Live(env)
    requires env.filterHeight == Success(stop) && AreHashesOf(hashes, chain, hs)
    ensures var (fin, r) := ScanMatched(st, hashes, stop, env);
            AppliedPrefix(st, fin, chain, hs, n, stop) && (r.Ok? ==> n == |hs|)
  {
    hide ScanBlocks, ApplyBlock, CloseRange, FetchBlocks;
    n := 0;
    assert hs[..0] == [];
    EventsOfSnoc(st.log, Saw(true));
    EventsOfSnoc(st.log, Saw(false));
    var (fetched, blocks) := Fetch(st, hashes, env);
    if blocks.Success? {
      n := ScanBlocksAppliesPrefix(fetched, blocks.value, 0, env, chain, hs, IndexedGraph(st.index, Told(st)));
      var (done, r) := ScanBlocks(fetched, blocks.value, 0, env);
      if r.Ok? {
        CloseRangeTells(done, stop, env, |blocks.value|, chain);
      }
    }
  }

  lemma {:induction false} LookingAppliesNothing(
    st: ClientState, now: ClientState, cancelled: bool, chain: Chain, hs: seq<nat>, stop: nat)
    requires st.Valid() && OnChain(st.checkpoint, chain) && Bounded(hs, |chain|)
    requires now.checkpoint == st.checkpoint && now.index == st.index && now.graph == st.graph && Told(now) == Told(st)
    ensures Told(now.Looked(cancelled)) == Told(st)
    ensures AppliedPrefix(st, st, chain, hs, 0, stop) && AppliedPrefix(st, now.Looked(cancelled), chain, hs, 0, stop)
  {
    assert hs[..0] == [];
    EventsOfSnoc(now.log, Saw(cancelled));
  }

  lemma {:induction false} AppliedSince(
    st: ClientState, now: ClientState, fin: ClientState, chain: Chain, hs: seq<nat>, n: nat, stop: nat)
    requires |st.checkpoint| > 0 && Bounded(hs, |chain|)
    requires now.checkpoint == st.checkpoint && now.index == st.index && Told(now) == Told(st)
    requires AppliedPrefix(now, fin, chain, hs, n, stop)
    ensures AppliedPrefix(st, fin, chain, hs, n, stop)
  {
  }

  /** The heights a scan of this kind is given by the filters. */
  ghost function ScanHits(st: ClientState, kind: ScanKind, env: ScanEnv, hits: FilterHits): seq<nat>
    requires |st.checkpoint| > 0
  {
    var spks := DeriveSpks(st.index, Lookahead(st.index, kind));
    if spks.Success? && env.filterHeight.Success?
       && env.matched(spks.value, StartHeight(st, kind), env.filterHeight.value).Success? then
      hits(spks.value, StartHeight(st, kind), env.filterHeight.value)
    else []
  }

  /**
    Any filter scan, ending in any way, is the application of some prefix of its
    hits: what the wallet has been told is what that prefix contributes, and no
    hit at or below the tip it moved to is left out.
   */
  lemma {:induction false} ScanInnerAppliesPrefix(
    st: ClientState, kind: ScanKind, env: ScanEnv, chain: Chain, ledger: Ledger, hits: FilterHits)
    returns (n: nat)
    requires st.Valid() && OnChain(st.checkpoint, chain)
    requires GenesisAgrees(st.checkpoint, env) && NodeTruthful(env, chain) && Live(env)
    requires FilterTruthful(env, chain, ledger, hits)
    ensures var (fin, r) := ScanInner(st, kind, env);
            var hs := ScanHits(st, kind, env, hits);
            && Bounded(hs, |chain|)
            && AppliedPrefix(st, fin, chain, hs, n, if env.filterHeight.Success? then env.filterHeight.value else 0)
            && (r.Ok? ==> n == |hs|)
            && (fin.checkpoint != st.checkpoint ==>
                  && DeriveSpks(st.index, Lookahead(st.index, kind)).Success? && env.filterHeight.Success?
                  && env.matched(DeriveSpks(st.index, Lookahead(st.index, kind)).value,
                                 StartHeight(st, kind), env.filterHeight.value).Success?)
  {
    hide ScanMatched, DeriveSpks, AppliedPrefix, Told;
    n := 0;
    var hs := ScanHits(st, kind, env, hits);
    var one := st.Looked(false);
    var top := if env.filterHeight.Success? then env.filterHeight.value else 0;
    LookingAppliesNothing(st, st, true, chain, hs, top);
    LookingAppliesNothing(st, st, false, chain, hs, top);
    LookingAppliesNothing(st, one, true, chain, hs, top);
    LookingAppliesNothing(st, one, false, chain, hs, top);
    var spks := DeriveSpks(st.index, Lookahead(st.index, kind));
    if spks.Success? && env.filterHeight.Success? {
      var lo, stop := StartHeight(st, kind), env.filterHeight.value;
      var matched := env.matched(spks.value, lo, stop);
      if && lo <= stop && !env.cancelledBeforeMatch
         && MatchFilters(env.nodeState, env.filterTip, stop, matched).Success?
         && !env.cancelledAfterMatch {
        n := ScanMatchedAppliesPrefix(one.Looked(false), matched.value, lo, stop, env, chain, hs);
        AppliedSince(st, one.Looked(false), ScanInner(st, kind, env).0, chain, hs, n, stop);
      }
    }
  }

  /** A finished scan leaves its tip at or above the stop height, whatever the node answered. */
  lemma {:induction false} ClosesRange(st: ClientState, kind: ScanKind, env: ScanEnv)
    requires ValidCheckPoint(st.checkpoint) && GenesisAgrees(st.checkpoint, env)
    requires ScanInner(st, kind, env).1.Ok?
    ensures DeriveSpks(st.index, Lookahead(st.index, kind)).Success? && env.filterHeight.Success?
    ensures env.matched(DeriveSpks(st.index, Lookahead(st.index, kind)).value,
                        StartHeight(st, kind), env.filterHeight.value).Success?
    ensures StartHeight(st, kind) <= env.filterHeight.value <= TipHeight(ScanInner(st, kind, env).0.checkpoint)
  {
    hide DeriveSpks, ScanBlocks, FetchBlocks;
    var stop := env.filterHeight.value;
    var hashes := env.matched(DeriveSpks(st.index, Lookahead(st.index, kind)).value, StartHeight(st, kind), stop).value;
    var fetched := Fetch(st.Looked(false).Looked(false), hashes, env);
    var done := ScanBlocks(fetched.0, fetched.1.value, 0, env).0;
    if TipHeight(done.checkpoint) < stop {
      InsertTip(done.checkpoint, BlockId(stop, env.stopHash.value));
    }
  }

  lemma {:induction false} HeightsSplit(i: Index, g: TxGraph, chain: Chain, hs: seq<nat>)
    requires Bounded(hs, |chain|)
    ensures var r := ApplyHeights(IndexedGraph(i, EMPTY_GRAPH), chain, hs);
            ApplyHeights(IndexedGraph(i, g), chain, hs) == IndexedGraph(r.index, g.Union(r.graph))
  {
    if hs == [] {
      assert g.Union(EMPTY_GRAPH) == g;
    } else {
      var init, h := hs[..|hs| - 1], hs[|hs| - 1];
      HeightsSplit(i, g, chain, init);
      DrainBeforeBlock(ApplyHeights(IndexedGraph(i, g), chain, init), chain[h], h);
      DrainBeforeBlock(ApplyHeights(IndexedGraph(i, EMPTY_GRAPH), chain, init), chain[h], h);
    }
  }

  /**
    The filter scan refines the naive scan. If the contributions of the range are
    visible to the scripts derived at the start, a successful scan has told the
    wallet exactly the transactions and anchors of the reference run, ends with
    its index and leaves the graph drained. For one given filter answer this
    holds exactly when the answer has every contributing block.
   */
  lemma {:induction false} FilterScanRefinesNaive(
    st: ClientState, kind: ScanKind, env: ScanEnv, chain: Chain, ledger: Ledger, hits: FilterHits)
    requires st.Valid() && OnChain(st.checkpoint, chain)
    requires GenesisAgrees(st.checkpoint, env) && NodeTruthful(env, chain) && Live(env)
    requires FilterTruthful(env, chain, ledger, hits)
    requires ScanInner(st, kind, env).1.Ok?
    ensures DeriveSpks(st.index, Lookahead(st.index, kind)).Success? && env.filterHeight.Success?
    ensures env.filterHeight.value < |chain|
    ensures var spks := DeriveSpks(st.index, Lookahead(st.index, kind)).value;
            var lo, hi := StartHeight(st, kind), env.filterHeight.value + 1;
            var fin, reference := ScanInner(st, kind, env).0, Naive(IndexedGraph(st.index, EMPTY_GRAPH), chain, lo, hi);
            && fin.graph == EMPTY_GRAPH
            && (Visible(st.index, ledger, chain, lo, hi, spks) ==>
                  fin.index == reference.index && Told(fin) == Told(st).Union(reference.graph))
            && (Told(st) == EMPTY_GRAPH ==>
                  (IndexedGraph(fin.index, Told(fin)) == reference <==>
                   forall h :: lo <= h < hi && Contributes(st.index, chain, lo, h) ==>
                     h in ScanHits(st, kind, env, hits)))
  {
    hide ScanInner, ApplyHeights, Naive, Contributes, DeriveSpks;
    ClosesRange(st, kind, env);
    var lo, hi := StartHeight(st, kind), env.filterHeight.value + 1;
    var hs := ScanHits(st, kind, env, hits);
    var n := ScanInnerAppliesPrefix(st, kind, env, chain, ledger, hits);
    assert hs[..n] == hs;
    SkippingIsExact(st.index, chain, lo, hi, hs);
    HeightsSplit(st.index, Told(st), chain, hs);
  }

  /** A full scan of a new client tells the wallet the whole chain, from genesis to the filter tip. */
  lemma {:induction false} FullScanCoversChain(
    st: ClientState, lookahead: Option<U32>, env: ScanEnv, chain: Chain, ledger: Ledger, hits: FilterHits)
    requires st.Valid() && OnChain(st.checkpoint, chain) && Told(st) == EMPTY_GRAPH
    requires GenesisAgrees(st.checkpoint, env) && NodeTruthful(env, chain) && Live(env)
    requires FilterTruthful(env, chain, ledger, hits)
    requires ScanInner(st, FullScan(lookahead), env).1.Ok?
    requires DeriveSpks(st.index, Lookahead(st.index, FullScan(lookahead))).Success?
    requires env.filterHeight.Success? && env.filterHeight.value < |chain|
    requires Visible(st.index, ledger, chain, 0, env.filterHeight.value + 1,
                     DeriveSpks(st.index, Lookahead(st.index, FullScan(lookahead))).value)
    ensures var fin := ScanInner(st, FullScan(lookahead), env).0;
            IndexedGraph(fin.index, Told(fin)) ==
            Naive(IndexedGraph(st.index, EMPTY_GRAPH), chain, 0, env.filterHeight.value + 1)
  {
    hide ScanInner, Naive, Contributes, DeriveSpks, Told;
    FilterScanRefinesNaive(st, FullScan(lookahead), env, chain, ledger, hits);
    var reference := Naive(IndexedGraph(st.index, EMPTY_GRAPH), chain, 0, env.filterHeight.value + 1);
    assert EMPTY_GRAPH.Union(reference.graph) == reference.graph;
  }

  /** On one chain a finished scan leaves exactly the greater of the old tip and the stop height. */
  lemma {:induction false} FinishedTip(
    st: ClientState, kind: ScanKind, env: ScanEnv, chain: Chain, ledger: Ledger, hits: FilterHits)
    requires st.Valid() && OnChain(st.checkpoint, chain)
    requires GenesisAgrees(st.checkpoint, env) && NodeTruthful(env, chain) && Live(env)
    requires FilterTruthful(env, chain, ledger, hits)
    requires ScanInner(st, kind, env).1.Ok?
    ensures env.filterHeight.Success?
    ensures TipHeight(ScanInner(st, kind, env).0.checkpoint) == Max(TipHeight(st.checkpoint), env.filterHeight.value)
  {
    hide ScanInner, ApplyHeights;
    ClosesRange(st, kind, env);
    var _ := ScanInnerAppliesPrefix(st, kind, env, chain, ledger, hits);
  }

  /**
    A scan that starts above the client's tip moves the tip over blocks it never
    asked for: nothing it tells the wallet lies below its start.
   */
  lemma {:induction false} JumpLeavesGap(
    st: ClientState, kind: ScanKind, env: ScanEnv, chain: Chain, ledger: Ledger, hits: FilterHits)
    requires st.Valid() && OnChain(st.checkpoint, chain) && TipHeight(st.checkpoint) < StartHeight(st, kind)
    requires GenesisAgrees(st.checkpoint, env) && NodeTruthful(env, chain) && Live(env)
    requires FilterTruthful(env, chain, ledger, hits)
    requires ScanInner(st, kind, env).1.Ok?
    ensures var fin := ScanInner(st, kind, env).0;
            && StartHeight(st, kind) <= TipHeight(fin.checkpoint)
            && forall a :: a in Told(fin).anchors && a !in Told(st).anchors ==> StartHeight(st, kind) <= a.block.height
  {
    hide ScanInner, ApplyHeights, DeriveSpks, Told;
    ClosesRange(st, kind, env);
    var n := ScanInnerAppliesPrefix(st, kind, env, chain, ledger, hits);
    var hs := ScanHits(st, kind, env, hits)[..n];
    HeightsSplit(st.index, Told(st), chain, hs);
    AnchorsOfHeights(st.index, chain, hs);
  }
}
