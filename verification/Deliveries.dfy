/**
  Block by block: a relevant transaction is told as soon as the tip has passed
  its block, whatever a history does to other blocks.
 */
module Deliveries {
  import opened Wrappers
  import opened Blocks
  import opened CheckPoints
  import opened KeychainIndex
  import opened TxGraphs
  import opened Scanning
  import opened Refinement
  import opened Resumption

  /** The graph has the transaction, anchored in the block at height h. */
  ghost predicate Has(g: TxGraph, chain: Chain, h: nat, t: Tx)
    requires h < |chain|
  {
    t in g.txs && Anchor(t.txid, BlockId(h, chain[h].hash)) in g.anchors
  }

  // ---- Applying the block

  /** What is relevant to an index is relevant to any that knows more. */
  lemma {:induction false} RelevantToMore(a: Index, b: Index, t: Tx)
    requires Le(a, b) && IsRelevant(a, t)
    ensures IsRelevant(b, t)
  {
    if o :| o in t.outputs && Watches(a, o) {
      assert NextReveal(a, o.keychain) <= NextReveal(b, o.keychain);
      assert Watches(b, o);
    } else {
      var p :| p in t.inputs && p in a.txouts;
      assert p in b.txouts;
    }
  }

  lemma {:induction false} ApplyTxsHas(g: IndexedGraph, b: BlockId, txs: seq<Tx>, i: Index, t: Tx)
    requires Le(i, g.index) && IsRelevant(i, t) && t in txs
    ensures t in ApplyTxs(g, b, txs).graph.txs && Anchor(t.txid, b) in ApplyTxs(g, b, txs).graph.anchors
    decreases |txs|
  {
    hide IsRelevant;
    IndexOutputsGrows(g.index, txs[0], 0);
    var next := ApplyTx(g, b, txs[0]);
    if txs[0] == t {
      RelevantToMore(i, next.index, t);
      assert Anchor(t.txid, b) in next.graph.anchors;
      ApplyTxsGrows(next, b, txs[1..]);
    } else {
      ApplyTxsHas(next, b, txs[1..], i, t);
    }
  }

  /** Applying the block at h among others, to an index that knows at least i, gives every transaction relevant to i. */
  lemma {:induction false} ApplyHeightsHas(g: IndexedGraph, chain: Chain, hs: seq<nat>, h: nat, i: Index, t: Tx)
    requires Bounded(hs, |chain|) && h in hs
    requires Le(i, g.index) && IsRelevant(i, t) && t in chain[h].txs
    ensures Has(ApplyHeights(g, chain, hs).graph, chain, h, t)
  {
    hide IsRelevant, ApplyBlock;
    var init, last := hs[..|hs| - 1], hs[|hs| - 1];
    assert hs == init + [last];
    ApplyHeightsGrows(g, chain, init);
    if h == last {
      assert Le(i, ApplyHeights(g, chain, init).index) by { AtLeast(i, g.index, ApplyHeights(g, chain, init).index); }
      ApplyBlockHas(ApplyHeights(g, chain, init), chain, h, i, t);
    } else {
      ApplyHeightsHas(g, chain, init, h, i, t);
      ApplyBlockMonotone(ApplyHeights(g, chain, init), ApplyHeights(g, chain, init), chain[last], last);
    }
  }

  lemma {:induction false} AtLeast(a: Index, b: Index, c: Index)
    requires Le(a, b) && Le(b, c)
    ensures Le(a, c)
  {
  }

  lemma {:induction false} ApplyBlockHas(g: IndexedGraph, chain: Chain, h: nat, i: Index, t: Tx)
    requires h < |chain| && Le(i, g.index) && IsRelevant(i, t) && t in chain[h].txs
    ensures Has(ApplyBlock(g, chain[h], h).graph, chain, h, t)
  {
    ApplyTxsHas(g, BlockId(h, chain[h].hash), chain[h].txs, i, t);
  }

  // ---- One call

  /** Once the tip has passed the block, the wallet has been told the transaction. */
  ghost predicate Delivered(st: ClientState, i: Index, chain: Chain, h: nat, t: Tx)
    requires h < |chain|
  {
    && st.Valid() && OnChain(st.checkpoint, chain) && Le(i, st.index)
    && (h <= TipHeight(st.checkpoint) ==> Has(Told(st), chain, h, t))
  }

  /**
    If the scan could move the tip past the block, the block lies in its range
    and touches a script that it derives.
   */
  ghost predicate Covers(st: ClientState, kind: ScanKind, env: ScanEnv, chain: Chain, ledger: Ledger, h: nat)
    requires |st.checkpoint| > 0 && h < |chain|
  {
    var spks := DeriveSpks(st.index, Lookahead(st.index, kind));
    spks.Success? && env.filterHeight.Success? && TipHeight(st.checkpoint) < h <= env.filterHeight.value ==>
      StartHeight(st, kind) <= h && Touches(ledger, chain[h], spks.value)
  }

  /** A covered block that the tip has passed is among the hits that were applied. */
  lemma {:induction false} CoveredIsApplied(hs: seq<nat>, lo: nat, hi: nat, n: nat, h: nat, after: nat)
    requires Within(hs, lo, hi) && h in hs && n <= |hs| && h <= after && (n < |hs| ==> after < hs[n])
    ensures h in hs[..n]
  {
    var k :| 0 <= k < |hs| && hs[k] == h;
    assert k < n;
    assert hs[..n][k] == h;
  }

  lemma {:induction false} ScanDelivers(
    st: ClientState, kind: ScanKind, env: ScanEnv, i: Index, chain: Chain, ledger: Ledger, h: nat, t: Tx)
    requires h < |chain| && t in chain[h].txs && IsRelevant(i, t) && Delivered(st, i, chain, h, t)
    requires GenesisAgrees(st.checkpoint, env) && Truthful(env, chain, ledger) && Live(env)
    requires Covers(st, kind, env, chain, ledger, h)
    ensures Delivered(ScanInner(st, kind, env).0, i, chain, h, t)
    ensures TipHeight(st.checkpoint) <= TipHeight(ScanInner(st, kind, env).0.checkpoint)
  {
    hide ScanInner, ApplyHeights, DeriveSpks, GenesisAgrees, Live, IsRelevant, Touches, Told;
    var hits: FilterHits :| FilterTruthful(env, chain, ledger, hits);
    var fin, hs := ScanInner(st, kind, env).0, ScanHits(st, kind, env, hits);
    var n := ScanInnerAppliesPrefix(st, kind, env, chain, ledger, hits);
    var g := IndexedGraph(st.index, Told(st));
    ApplyHeightsGrows(g, chain, hs[..n]);
    AtLeast(i, st.index, fin.index);
    if TipHeight(st.checkpoint) < h <= TipHeight(fin.checkpoint) {
      CoveredIsApplied(hs, StartHeight(st, kind), env.filterHeight.value + 1, n, h, TipHeight(fin.checkpoint));
      ApplyHeightsHas(g, chain, hs[..n], h, i, t);
    }
  }

  lemma {:induction false} TurnDelivers(
    st: ClientState, turn: Selected, i: Index, chain: Chain, h: nat, t: Tx)
    requires h < |chain| && t in chain[h].txs && IsRelevant(i, t) && Delivered(st, i, chain, h, t)
    requires turn.Received? ==> turn.height <= TipHeight(st.checkpoint) + 1 && turn.height < |chain|
                                && turn.block == chain[turn.height] && turn.send.Delivered?
    ensures var fin := QueueOne(st, turn).0;
            && Delivered(fin, i, chain, h, t)
            && TipHeight(fin.checkpoint) ==
               if turn.Received? then Max(turn.height, TipHeight(st.checkpoint)) else TipHeight(st.checkpoint)
  {
    hide ApplyBlock, Insert, IsRelevant, EventsOf;
    EventsOfSnoc(st.log, Saw(true));
    EventsOfSnoc(st.log, Saw(false));
    if turn.Received? && Takes(TipHeight(st.checkpoint), turn.height) {
      var seen, g := st.Looked(false), IndexedGraph(st.index, Told(st));
      AdvanceTells(seen, chain, turn.height, turn.send);
      ApplyBlockMonotone(g, g, chain[turn.height], turn.height);
      AtLeast(i, st.index, ApplyBlock(g, chain[turn.height], turn.height).index);
      if h == turn.height {
        ApplyBlockHas(g, chain, h, i, t);
      }
    }
  }

  lemma {:induction false} QueueDelivers(
    st: ClientState, tape: seq<Selected>, k: nat, i: Index, chain: Chain, h: nat, t: Tx)
    requires h < |chain| && t in chain[h].txs && IsRelevant(i, t) && Delivered(st, i, chain, h, t)
    requires k <= |tape| && Consecutive(tape, k, TipHeight(st.checkpoint), chain)
    ensures Delivered(QueueLoop(st, tape, k).0, i, chain, h, t)
    ensures TipHeight(st.checkpoint) <= TipHeight(QueueLoop(st, tape, k).0.checkpoint)
    decreases |tape| - k
  {
    hide QueueOne, IsRelevant, Le, Has, OnChain;
    if k < |tape| {
      TurnDelivers(st, tape[k], i, chain, h, t);
      var (next, r) := QueueOne(st, tape[k]);
      if r.Ok? {
        QueueDelivers(next, tape, k + 1, i, chain, h, t);
      }
    }
  }

  lemma {:induction false} CallDelivers(
    st: ClientState, c: Call, i: Index, chain: Chain, ledger: Ledger, h: nat, t: Tx)
    requires h < |chain| && t in chain[h].txs && IsRelevant(i, t) && Delivered(st, i, chain, h, t)
    requires Sound(st, c, chain, ledger) && Covers(st, c.kind, c.env.scan, chain, ledger, h)
    ensures Delivered(RunCall(st, c), i, chain, h, t)
    ensures TipHeight(st.checkpoint) <= TipHeight(RunCall(st, c).checkpoint)
  {
    hide ScanInner, QueueLoop, IsRelevant, Le, Has, OnChain, Truthful, Live, Covers;
    var kind, env := c.kind, c.env;
    if c.Dropped? {
      DroppedCallIsInert(st, kind, env, c.forBlocks);
      return;
    }
    ScanDelivers(st, kind, env.scan, i, chain, ledger, h, t);
    var (scanned, r) := ScanInner(st, kind, env.scan);
    var event := if r.Err? then Error(r.error) else Finished(c.Continuous?);
    ClosingTellsNothing(scanned, event, env.closing);
    var closed := Send(scanned, event, env.closing).0;
    assert Delivered(closed, i, chain, h, t);
    if c.Continuous? && r.Ok? {
      ClosesRange(st, kind, env.scan);
      HigherTop(c.tape, 0, Max(TipHeight(st.checkpoint), env.scan.filterHeight.value),
                TipHeight(closed.checkpoint), chain);
      QueueDelivers(closed, c.tape, 0, i, chain, h, t);
    }
  }

  // ---- Sequences of calls

  /** Each call is sound at the state in which it is made, and covers this one block. */
  ghost predicate AllCover(st: ClientState, calls: seq<Call>, chain: Chain, ledger: Ledger, h: nat)
    requires Callable(st, calls) && h < |chain|
    decreases |calls|
  {
    calls == [] ||
    var init, c := calls[..|calls| - 1], calls[|calls| - 1];
    var mid := RunCalls(st, init);
    AllCover(st, init, chain, ledger, h)
    && Sound(mid, c, chain, ledger) && Covers(mid, c.kind, c.env.scan, chain, ledger, h)
  }

  /**
    No covered block is lost. Over any sequence of calls with any outcomes that
    each cover the block at h, and whatever they do not see of other blocks: once
    the tip has passed h, the wallet has been told every transaction of the block
    that is relevant to the index of the start.
   */
  lemma {:induction false} BlockIsDelivered(
    st: ClientState, calls: seq<Call>, chain: Chain, ledger: Ledger, h: nat, t: Tx)
    requires st.Valid() && OnChain(st.checkpoint, chain) && Callable(st, calls)
    requires TipHeight(st.checkpoint) < h < |chain| && t in chain[h].txs && IsRelevant(st.index, t)
    requires AllCover(st, calls, chain, ledger, h)
    ensures Delivered(RunCalls(st, calls), st.index, chain, h, t)
    ensures TipHeight(st.checkpoint) <= TipHeight(RunCalls(st, calls).checkpoint)
    decreases |calls|
  {
    hide RunCall, Sound, Covers, IsRelevant, Has;
    if calls != [] {
      var init, c := calls[..|calls| - 1], calls[|calls| - 1];
      BlockIsDelivered(st, init, chain, ledger, h, t);
      CallDelivers(RunCalls(st, init), c, st.index, chain, ledger, h, t);
    }
  }

  // ---- Windows instead of visibility

  /** The call leaves out no block above the tip and looks at least this far ahead. */
  ghost predicate Thorough(st: ClientState, c: Call, lookahead: U32)
    requires |st.checkpoint| > 0
  {
    StartHeight(st, c.kind) <= TipHeight(st.checkpoint) + 1 && lookahead <= Lookahead(st.index, c.kind)
  }

  /** Each call is sound and thorough at the state in which it is made. */
  ghost predicate AllThorough(st: ClientState, calls: seq<Call>, lookahead: U32, chain: Chain, ledger: Ledger)
    requires Callable(st, calls)
    decreases |calls|
  {
    calls == [] ||
    var init, c := calls[..|calls| - 1], calls[|calls| - 1];
    var mid := RunCalls(st, init);
    AllThorough(st, init, lookahead, chain, ledger) && Sound(mid, c, chain, ledger) && Thorough(mid, c, lookahead)
  }

  /** The transaction pays a watched script of the window, or spends an owned output that is locked by one. */
  ghost predicate RelevantWithin(i: Index, lookahead: U32, ledger: Ledger, t: Tx) {
    || (exists o :: o in t.outputs && Watches(i, o) && InWindow(i, lookahead, o))
    || (exists p :: p in t.inputs && p in i.txouts && InWindow(i, lookahead, ledger(p)))
  }

  lemma {:induction false} WithinIsRelevant(i: Index, lookahead: U32, ledger: Ledger, t: Tx)
    requires RelevantWithin(i, lookahead, ledger, t)
    ensures IsRelevant(i, t)
  {
  }

  lemma {:induction false} WindowOnlyGrows(a: Index, b: Index, m: U32, n: U32, s: Script)
    requires Le(a, b) && m <= n && InWindow(a, m, s)
    ensures InWindow(b, n, s)
  {
    assert NextReveal(a, s.keychain) <= NextReveal(b, s.keychain);
  }

  lemma {:induction false} ThoroughCovers(
    st: ClientState, c: Call, i: Index, lookahead: U32, chain: Chain, ledger: Ledger, h: nat, t: Tx)
    requires |st.checkpoint| > 0 && h < |chain| && t in chain[h].txs
    requires Le(i, st.index) && RelevantWithin(i, lookahead, ledger, t) && Thorough(st, c, lookahead)
    ensures Covers(st, c.kind, c.env.scan, chain, ledger, h)
  {
    hide InWindow, Watches, Le;
    var ahead := Lookahead(st.index, c.kind);
    var spks := DeriveSpks(st.index, ahead);
    if spks.Success? {
      if o :| o in t.outputs && Watches(i, o) && InWindow(i, lookahead, o) {
        WindowOnlyGrows(i, st.index, lookahead, ahead, o);
        assert o in spks.value;
      } else {
        var p :| p in t.inputs && p in i.txouts && InWindow(i, lookahead, ledger(p));
        WindowOnlyGrows(i, st.index, lookahead, ahead, ledger(p));
        assert ledger(p) in spks.value;
      }
      assert TxTouches(ledger, t, spks.value);
    }
  }

  lemma {:induction false} AllThoroughCover(
    st: ClientState, calls: seq<Call>, lookahead: U32, chain: Chain, ledger: Ledger, h: nat, t: Tx)
    requires st.Valid() && OnChain(st.checkpoint, chain) && Callable(st, calls)
    requires TipHeight(st.checkpoint) < h < |chain| && t in chain[h].txs
    requires RelevantWithin(st.index, lookahead, ledger, t)
    requires AllThorough(st, calls, lookahead, chain, ledger)
    ensures AllCover(st, calls, chain, ledger, h)
    decreases |calls|
  {
    hide RunCall, Sound, Covers, RelevantWithin, Thorough, Has, IsRelevant;
    if calls != [] {
      var init, c := calls[..|calls| - 1], calls[|calls| - 1];
      AllThoroughCover(st, init, lookahead, chain, ledger, h, t);
      WithinIsRelevant(st.index, lookahead, ledger, t);
      BlockIsDelivered(st, init, chain, ledger, h, t);
      ThoroughCovers(RunCalls(st, init), c, st.index, lookahead, chain, ledger, h, t);
    }
  }

  /**
    Every relevant block is told. Take any sequence of calls with any outcomes,
    each of which starts at most one above the tip and looks at least so far
    ahead when it is made. Every transaction above the first tip, up to the last,
    that pays a watched script of the first window or spends an owned output
    locked by one has been told and anchored. Nothing is asked of what the scans
    see of other blocks.
   */
  lemma {:induction false} RelevantIsDelivered(
    st: ClientState, calls: seq<Call>, lookahead: U32, chain: Chain, ledger: Ledger, h: nat, t: Tx)
    requires st.Valid() && OnChain(st.checkpoint, chain) && Callable(st, calls)
    requires AllThorough(st, calls, lookahead, chain, ledger)
    requires TipHeight(st.checkpoint) < h <= TipHeight(RunCalls(st, calls).checkpoint)
    requires h < |chain| && t in chain[h].txs && RelevantWithin(st.index, lookahead, ledger, t)
    ensures Has(Told(RunCalls(st, calls)), chain, h, t)
  {
    hide RunCalls, AllThorough, AllCover, RelevantWithin, Has, IsRelevant, Told;
    WithinIsRelevant(st.index, lookahead, ledger, t);
    AllThoroughCover(st, calls, lookahead, chain, ledger, h, t);
    BlockIsDelivered(st, calls, chain, ledger, h, t);
  }

  lemma {:induction false} RunCallsConcat(st: ClientState, a: seq<Call>, b: seq<Call>)
    requires Callable(st, a + b)
    ensures Callable(st, a) && Callable(RunCalls(st, a), b)
    ensures RunCalls(st, a + b) == RunCalls(RunCalls(st, a), b)
    decreases |b|
  {
    hide RunCall;
    assert forall c :: c in a || c in b ==> c in a + b;
    if b == [] {
      assert a + b == a;
    } else {
      assert (a + b)[..|a + b| - 1] == a + b[..|b| - 1];
      RunCallsConcat(st, a, b[..|b| - 1]);
    }
  }

  /**
    The same from any later moment of a history on, with the window and the owned
    outputs of that moment: so a spend of an output found on the way is told too,
    and so is a payment to a script that the window has moved to.
   */
  lemma {:induction false} LaterRelevantIsDelivered(
    st: ClientState, before: seq<Call>, after: seq<Call>, lookahead: U32, chain: Chain, ledger: Ledger, h: nat, t: Tx)
    requires Callable(st, before + after) && Callable(st, before)
    requires Callable(RunCalls(st, before), after)
    requires RunCalls(st, before).Valid() && OnChain(RunCalls(st, before).checkpoint, chain)
    requires AllThorough(RunCalls(st, before), after, lookahead, chain, ledger)
    requires TipHeight(RunCalls(st, before).checkpoint) < h <= TipHeight(RunCalls(st, before + after).checkpoint)
    requires h < |chain| && t in chain[h].txs && RelevantWithin(RunCalls(st, before).index, lookahead, ledger, t)
    ensures Has(Told(RunCalls(st, before + after)), chain, h, t)
  {
    hide RunCalls, AllThorough, RelevantWithin, Has, Told;
    RunCallsConcat(st, before, after);
    RelevantIsDelivered(RunCalls(st, before), after, lookahead, chain, ledger, h, t);
  }
}
