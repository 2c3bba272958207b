/** What each kind of scan does, said with the fields of the kind itself. */
module Kinds {
  import opened Wrappers
  import opened Blocks
  import opened CheckPoints
  import opened KeychainIndex
  import opened TxGraphs
  import opened NodeQueries
  import opened Scanning
  import opened Refinement
  import opened Jumps

  /** A successful scan of these heights with this window has told just what applying all their blocks would tell. */
  ghost predicate TellsRange(
    st: ClientState, fin: ClientState, lo: nat, stop: nat, lookahead: U32, chain: Chain, ledger: Ledger)
    requires stop < |chain|
  {
    var spks := DeriveSpks(st.index, lookahead);
    var reference := Naive(IndexedGraph(st.index, EMPTY_GRAPH), chain, lo, stop + 1);
    && lo <= stop && spks.Success?
    && (Visible(st.index, ledger, chain, lo, stop + 1, spks.value) ==>
          fin.index == reference.index && Told(fin) == Told(st).Union(reference.graph))
  }

  lemma {:induction false} ScanTellsRange(
    st: ClientState, kind: ScanKind, env: ScanEnv, chain: Chain, ledger: Ledger, hits: FilterHits)
    requires st.Valid() && OnChain(st.checkpoint, chain) && Succeeds(st, kind, env, chain, ledger, hits)
    ensures env.filterHeight.Success? && env.filterHeight.value < |chain|
    ensures TellsRange(st, ScanInner(st, kind, env).0, StartHeight(st, kind), env.filterHeight.value,
                       Lookahead(st.index, kind), chain, ledger)
  {
    hide ScanInner, Naive, DeriveSpks, Told, StartHeight, Lookahead, Visible;
    FilterScanRefinesNaive(st, kind, env, chain, ledger, hits);
    ClosesRange(st, kind, env);
  }

  /** A custom scan covers the heights from its own start on, wherever the tip is, with its own lookahead. */
  lemma {:induction false} CustomScanTells(
    st: ClientState, start: nat, lookahead: U32, env: ScanEnv, chain: Chain, ledger: Ledger, hits: FilterHits)
    requires st.Valid() && OnChain(st.checkpoint, chain)
    requires Succeeds(st, Custom(start, lookahead), env, chain, ledger, hits)
    ensures env.filterHeight.Success? && env.filterHeight.value < |chain|
    ensures TellsRange(st, ScanInner(st, Custom(start, lookahead), env).0, start, env.filterHeight.value,
                       lookahead, chain, ledger)
  {
    hide ScanInner, TellsRange;
    ScanTellsRange(st, Custom(start, lookahead), env, chain, ledger, hits);
  }

  /** A sync covers the heights from the tip on, with the lookahead of the index. */
  lemma {:induction false} SyncTells(
    st: ClientState, env: ScanEnv, chain: Chain, ledger: Ledger, hits: FilterHits)
    requires st.Valid() && OnChain(st.checkpoint, chain) && Succeeds(st, Sync, env, chain, ledger, hits)
    ensures env.filterHeight.Success? && env.filterHeight.value < |chain|
    ensures TellsRange(st, ScanInner(st, Sync, env).0, TipHeight(st.checkpoint), env.filterHeight.value,
                       st.index.lookahead, chain, ledger)
  {
    hide ScanInner, TellsRange;
    ScanTellsRange(st, Sync, env, chain, ledger, hits);
  }

  /** A full scan covers everything from genesis on, with the lookahead it is given or with 1000. */
  lemma {:induction false} FullScanTells(
    st: ClientState, given: Option<U32>, env: ScanEnv, chain: Chain, ledger: Ledger, hits: FilterHits)
    requires st.Valid() && OnChain(st.checkpoint, chain) && Succeeds(st, FullScan(given), env, chain, ledger, hits)
    ensures env.filterHeight.Success? && env.filterHeight.value < |chain|
    ensures TellsRange(st, ScanInner(st, FullScan(given), env).0, 0, env.filterHeight.value,
                       if given.Some? then given.value else 1000, chain, ledger)
  {
    hide ScanInner, TellsRange;
    ScanTellsRange(st, FullScan(given), env, chain, ledger, hits);
  }

  // ---- Which ranges are refused

  /** A scan reports an empty range exactly if its own start lies above the filter height, and names both. */
  lemma {:induction false} EmptyRanges(
    st: ClientState, start: nat, lookahead: U32, given: Option<U32>, env: ScanEnv, a: nat, b: nat)
    requires ValidCheckPoint(st.checkpoint) && GenesisAgrees(st.checkpoint, env)
    requires External in st.index.descriptors
    ensures ScanInner(st, Custom(start, lookahead), env).1 == Err(InvalidRange(a, b)) <==>
            env.filterHeight == Success(b) && a == start && b < start
    ensures ScanInner(st, Sync, env).1 == Err(InvalidRange(a, b)) <==>
            env.filterHeight == Success(b) && a == TipHeight(st.checkpoint) && b < TipHeight(st.checkpoint)
    ensures ScanInner(st, FullScan(given), env).1 != Err(InvalidRange(a, b))
  {
    hide ScanInner, DeriveSpks;
    RefusedRange(st, Custom(start, lookahead), env, a, b);
    RefusedRange(st, Sync, env, a, b);
    RefusedRange(st, FullScan(given), env, a, b);
  }

  lemma {:induction false} NeverRefusedLate(
    st: ClientState, hashes: seq<Hash>, stop: nat, env: ScanEnv, a: nat, b: nat)
    requires ValidCheckPoint(st.checkpoint) && GenesisAgrees(st.checkpoint, env)
    ensures ScanMatched(st, hashes, stop, env).1 != Err(InvalidRange(a, b))
  {
    hide ScanBlocks, Insert;
    var (fetched, blocks) := Fetch(st, hashes, env);
    if blocks.Success? {
      NeverRefusedBlocks(fetched, blocks.value, 0, env, a, b);
    }
  }

  lemma {:induction false} NeverRefusedBlocks(
    st: ClientState, blocks: seq<Block>, i: nat, env: ScanEnv, a: nat, b: nat)
    requires i <= |blocks| && ValidCheckPoint(st.checkpoint) && GenesisAgrees(st.checkpoint, env)
    ensures ScanBlocks(st, blocks, i, env).1 != Err(InvalidRange(a, b))
    decreases |blocks| - i
  {
    hide Insert, ApplyBlock;
    if i < |blocks| {
      NeverRefusedBlocks(ScanOne(st, blocks[i], i, env).0, blocks, i + 1, env, a, b);
    }
  }

  lemma {:induction false} RefusedRange(st: ClientState, kind: ScanKind, env: ScanEnv, a: nat, b: nat)
    requires ValidCheckPoint(st.checkpoint) && GenesisAgrees(st.checkpoint, env)
    requires External in st.index.descriptors
    ensures ScanInner(st, kind, env).1 == Err(InvalidRange(a, b)) <==>
            env.filterHeight == Success(b) && a == StartHeight(st, kind) && b < a
  {
    hide ScanMatched;
    if env.filterHeight.Success? {
      var stop := env.filterHeight.value;
      var spks := DeriveSpks(st.index, Lookahead(st.index, kind)).value;
      var answer := env.matched(spks, StartHeight(st, kind), stop);
      if answer.Success? {
        NeverRefusedLate(st.Looked(false).Looked(false), answer.value, stop, env, a, b);
      }
    }
  }

  // ---- What the filters are asked

  /** Two runs that differ at most in how the filters answer other queries than this one. */
  ghost predicate SameAnswer(env: ScanEnv, other: ScanEnv, i: Index, lookahead: U32, start: nat) {
    && other == env.(matched := other.matched)
    && (External in i.descriptors && env.filterHeight.Success? ==>
          var spks := DeriveSpks(i, lookahead).value;
          env.matched(spks, start, env.filterHeight.value) == other.matched(spks, start, env.filterHeight.value))
  }

  /** A scan asks the filters once: for the scripts of its own window, from its own start up to the filter height. */
  lemma {:induction false} OneQuery(
    st: ClientState, start: nat, lookahead: U32, given: Option<U32>, env: ScanEnv, other: ScanEnv)
    requires ValidCheckPoint(st.checkpoint) && GenesisAgrees(st.checkpoint, env)
    requires other == env.(matched := other.matched)
    ensures GenesisAgrees(st.checkpoint, other)
    ensures SameAnswer(env, other, st.index, lookahead, start) ==>
              ScanInner(st, Custom(start, lookahead), env) == ScanInner(st, Custom(start, lookahead), other)
    ensures SameAnswer(env, other, st.index, st.index.lookahead, TipHeight(st.checkpoint)) ==>
              ScanInner(st, Sync, env) == ScanInner(st, Sync, other)
    ensures SameAnswer(env, other, st.index, if given.Some? then given.value else 1000, 0) ==>
              ScanInner(st, FullScan(given), env) == ScanInner(st, FullScan(given), other)
  {
    hide ScanInner, DeriveSpks;
    QueriedOnce(st, Custom(start, lookahead), env, other);
    QueriedOnce(st, Sync, env, other);
    QueriedOnce(st, FullScan(given), env, other);
  }

  lemma {:induction false} QueriedOnce(st: ClientState, kind: ScanKind, env: ScanEnv, other: ScanEnv)
    requires ValidCheckPoint(st.checkpoint) && GenesisAgrees(st.checkpoint, env)
    requires other == env.(matched := other.matched)
    ensures GenesisAgrees(st.checkpoint, other)
    ensures SameAnswer(env, other, st.index, Lookahead(st.index, kind), StartHeight(st, kind)) ==>
              ScanInner(st, kind, env) == ScanInner(st, kind, other)
  {
    hide ScanMatched, MatchFilters;
    if env.filterHeight.Success? {
      var spks := DeriveSpks(st.index, Lookahead(st.index, kind));
      if spks.Success? {
        var stop := env.filterHeight.value;
        var answer := env.matched(spks.value, StartHeight(st, kind), stop);
        var found := MatchFilters(env.nodeState, env.filterTip, stop, answer);
        if found.Success? {
          MatchedAlike(st.Looked(false).Looked(false), found.value, stop, env, other);
        }
      }
    }
  }

  lemma {:induction false} MatchedAlike(
    st: ClientState, hashes: seq<Hash>, stop: nat, env: ScanEnv, other: ScanEnv)
    requires ValidCheckPoint(st.checkpoint) && GenesisAgrees(st.checkpoint, env)
    requires other == env.(matched := other.matched)
    ensures GenesisAgrees(st.checkpoint, other)
    ensures ScanMatched(st, hashes, stop, env) == ScanMatched(st, hashes, stop, other)
  {
    hide ScanBlocks, Insert, FetchBlocks;
    var (fetched, blocks) := Fetch(st, hashes, env);
    if blocks.Success? {
      BlocksAlike(fetched, blocks.value, 0, env, other);
    }
  }

  lemma {:induction false} BlocksAlike(
    st: ClientState, blocks: seq<Block>, i: nat, env: ScanEnv, other: ScanEnv)
    requires i <= |blocks| && ValidCheckPoint(st.checkpoint) && GenesisAgrees(st.checkpoint, env)
    requires other == env.(matched := other.matched)
    ensures GenesisAgrees(st.checkpoint, other)
    ensures ScanBlocks(st, blocks, i, env) == ScanBlocks(st, blocks, i, other)
    decreases |blocks| - i
  {
    hide Insert, ApplyBlock, Changes;
    if i < |blocks| {
      assert ScanOne(st, blocks[i], i, env) == ScanOne(st, blocks[i], i, other);
      BlocksAlike(ScanOne(st, blocks[i], i, env).0, blocks, i + 1, env, other);
    }
  }
}
