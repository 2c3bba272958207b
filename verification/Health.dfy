/** Scans fail only for a reason, and truthful runs of every chain exist. */
module Health {
  import opened Wrappers
  import opened Blocks
  import opened CheckPoints
  import opened KeychainIndex
  import opened NodeQueries
  import opened Scanning
  import opened Refinement
  import Fsm

  /** Nothing that this scan observes gives it a reason to fail. */
  ghost predicate Healthy(st: ClientState, kind: ScanKind, env: ScanEnv)
    requires |st.checkpoint| > 0
  {
    && External in st.index.descriptors
    && env.filterHeight.Success? && StartHeight(st, kind) <= env.filterHeight.value
    && !env.cancelledBeforeMatch && !env.cancelledAfterMatch && !env.cancelledInFetch
    && env.nodeState.Operational? && env.filterTip.Success? && env.filterHeight.value <= env.filterTip.value
    && env.stopHash.Success?
    && (forall j: nat :: !env.cancelledAt(j) && !env.send(j).Poisoned?)
    && var answer := env.matched(DeriveSpks(st.index, Lookahead(st.index, kind)).value,
                                 StartHeight(st, kind), env.filterHeight.value);
       answer.Success? && forall x :: x in answer.value ==>
         env.answers(x).Found? && env.answers(x).block.hash == x && forall j: nat :: env.heightOf(j, x).Success?
  }

  lemma {:induction false} HealthyBlocks(st: ClientState, blocks: seq<Block>, i: nat, env: ScanEnv)
    requires i <= |blocks| && ValidCheckPoint(st.checkpoint) && GenesisAgrees(st.checkpoint, env)
    requires forall j: nat :: !env.cancelledAt(j) && !env.send(j).Poisoned?
    requires forall k, j: nat :: 0 <= k < |blocks| ==> env.heightOf(j, blocks[k].hash).Success?
    ensures ScanBlocks(st, blocks, i, env).1.Ok?
    decreases |blocks| - i
  {
    if i < |blocks| {
      HealthyBlocks(ScanOne(st, blocks[i], i, env).0, blocks, i + 1, env);
    }
  }

  /** A scan that fails had a reason to: the node, a cancellation, the range, the wallet or a poisoned lock. */
  lemma {:induction false} HealthyScanSucceeds(st: ClientState, kind: ScanKind, env: ScanEnv)
    requires ValidCheckPoint(st.checkpoint) && GenesisAgrees(st.checkpoint, env) && Healthy(st, kind, env)
    ensures ScanInner(st, kind, env).1.Ok?
  {
    hide ScanBlocks, DeriveSpks;
    assert DeriveSpks(st.index, Lookahead(st.index, kind)).Success?;
    var hashes := env.matched(DeriveSpks(st.index, Lookahead(st.index, kind)).value,
                              StartHeight(st, kind), env.filterHeight.value).value;
    var seen := st.Looked(false).Looked(false);
    var (fetched, blocks) := Fetch(seen, hashes, env);
    assert blocks.Success?;
    forall k, j: nat | 0 <= k < |blocks.value| ensures env.heightOf(j, blocks.value[k].hash).Success? {
      assert hashes[k] in hashes;
      assert env.answers(hashes[k]) == Found(blocks.value[k]);
    }
    HealthyBlocks(fetched, blocks.value, 0, env);
  }

  // ---- A node that answers everything

  ghost predicate DistinctHashes(chain: Chain) {
    forall g, h :: 0 <= g < h < |chain| ==> chain[g].hash != chain[h].hash
  }

  ghost function HeightOfHash(chain: Chain, x: Hash): Result<nat, NodeError> {
    if exists h :: 0 <= h < |chain| && chain[h].hash == x
    then var h :| 0 <= h < |chain| && chain[h].hash == x; Success(h)
    else Failure(MissingBlock(x))
  }

  ghost function PerfectHits(chain: Chain, ledger: Ledger): FilterHits {
    (spks: seq<Script>, lo: nat, stop: nat) =>
      if stop < |chain| then TouchedHeights(ledger, chain, spks, lo, stop + 1) else []
  }

  ghost function HashesAt(chain: Chain, hs: seq<nat>): seq<Hash> {
    seq(|hs|, k requires 0 <= k < |hs| => if hs[k] < |chain| then chain[hs[k]].hash else 0)
  }

  ghost function PerfectEnv(chain: Chain, ledger: Ledger, stop: nat): ScanEnv
    requires stop < |chain|
  {
    var hits := PerfectHits(chain, ledger);
    ScanEnv(
      Success(stop), false, Fsm.Operational, Success(stop),
      (spks: seq<Script>, lo: nat, top: nat) => Success(HashesAt(chain, hits(spks, lo, top))),
      false, false,
      (x: Hash) => if HeightOfHash(chain, x).Success? then Found(chain[HeightOfHash(chain, x).value]) else NotFound,
      (_: nat) => false,
      (_: nat, x: Hash) => HeightOfHash(chain, x),
      (_: nat) => SendOutcome.Delivered,
      Success(chain[stop].hash))
  }

  lemma {:induction false} HeightOfHashIsRight(chain: Chain, h: nat)
    requires DistinctHashes(chain) && h < |chain|
    ensures HeightOfHash(chain, chain[h].hash) == Success(h)
  {
  }

  lemma {:induction false} PerfectIsTruthful(chain: Chain, ledger: Ledger, stop: nat)
    requires DistinctHashes(chain) && stop < |chain|
    ensures var env := PerfectEnv(chain, ledger, stop); Truthful(env, chain, ledger) && Live(env)
  {
    var env := PerfectEnv(chain, ledger, stop);
    forall h: nat | h < |chain| {
      HeightOfHashIsRight(chain, h);
    }
    assert FilterTruthful(env, chain, ledger, PerfectHits(chain, ledger));
  }

  lemma {:induction false} PerfectIsHealthy(st: ClientState, kind: ScanKind, chain: Chain, ledger: Ledger, stop: nat)
    requires |st.checkpoint| > 0 && DistinctHashes(chain)
    requires External in st.index.descriptors && StartHeight(st, kind) <= stop < |chain|
    ensures Healthy(st, kind, PerfectEnv(chain, ledger, stop))
  {
    hide DeriveSpks, HeightOfHash;
    var env := PerfectEnv(chain, ledger, stop);
    assert DeriveSpks(st.index, Lookahead(st.index, kind)).Success?;
    var spks := DeriveSpks(st.index, Lookahead(st.index, kind)).value;
    var hs := PerfectHits(chain, ledger)(spks, StartHeight(st, kind), stop);
    forall x | x in HashesAt(chain, hs)
      ensures env.answers(x).Found? && env.answers(x).block.hash == x && forall j: nat :: env.heightOf(j, x).Success?
    {
      var k :| 0 <= k < |hs| && HashesAt(chain, hs)[k] == x;
      HeightOfHashIsRight(chain, hs[k]);
    }
  }

  lemma {:induction false} GenesisIsKnown(c: CheckPoint, chain: Chain, ledger: Ledger, stop: nat)
    requires ValidCheckPoint(c) && OnChain(c, chain) && DistinctHashes(chain) && stop < |chain|
    ensures GenesisAgrees(c, PerfectEnv(chain, ledger, stop))
  {
    assert c[0] in c;
  }

  /**
    On every chain, every kind of scan with a range has a truthful successful
    run: the theorems about such runs are never vacuous.
   */
  lemma {:induction false} TruthfulScanExists(
    st: ClientState, kind: ScanKind, chain: Chain, ledger: Ledger, stop: nat)
    returns (env: ScanEnv)
    requires st.Valid() && OnChain(st.checkpoint, chain) && DistinctHashes(chain)
    requires External in st.index.descriptors && StartHeight(st, kind) <= stop < |chain|
    ensures GenesisAgrees(st.checkpoint, env) && Truthful(env, chain, ledger) && Live(env)
    ensures env.filterHeight == Success(stop) && ScanInner(st, kind, env).1.Ok?
  {
    hide ScanInner, Healthy, GenesisAgrees, Truthful, Live, DistinctHashes;
    env := PerfectEnv(chain, ledger, stop);
    PerfectIsTruthful(chain, ledger, stop);
    GenesisIsKnown(st.checkpoint, chain, ledger, stop);
    PerfectIsHealthy(st, kind, chain, ledger, stop);
    HealthyScanSucceeds(st, kind, env);
  }
}
