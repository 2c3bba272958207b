/**
  What a client still sends once its token is cancelled, wherever in a history
  the cancellation falls.
 */
module Cancellation {
  import opened Wrappers
  import opened Blocks
  import opened CheckPoints
  import opened KeychainIndex
  import opened TxGraphs
  import opened NodeQueries
  import opened Scanning
  import opened Refinement
  import opened Traces
  import opened Histories
  import Fsm

  /** The wallet updates sent since the last look that saw no cancellation. */
  function SinceLive(log: seq<Obs>): nat {
    if log == [] then 0
    else
      match log[|log| - 1]
      case Saw(cancelled) => if cancelled then SinceLive(log[..|log| - 1]) else 0
      case Emitted(e) => SinceLive(log[..|log| - 1]) + if e.WalletUpdate? then 1 else 0
  }

  function CountUpdates(log: seq<Obs>): nat {
    if log == [] then 0
    else CountUpdates(log[..|log| - 1]) + if log[|log| - 1].Emitted? && log[|log| - 1].event.WalletUpdate? then 1 else 0
  }

  lemma {:induction false} SinceLiveSnoc(log: seq<Obs>, o: Obs)
    ensures SinceLive(log + [o]) ==
            match o
            case Saw(cancelled) => (if cancelled then SinceLive(log) else 0)
            case Emitted(e) => SinceLive(log) + if e.WalletUpdate? then 1 else 0
  {
    assert (log + [o])[..|log|] == log;
  }

  /** How many updates can follow the last live look, by the move just made. */
  function Budget(ms: seq<Move>): nat {
    if ms != [] && ms[|ms| - 1] == Look(false) then 0
    else if ms != [] && ms[|ms| - 1].Apply? then 1
    else 2
  }

  lemma {:induction false} MovesWithinBudget(st: ClientState, ms: seq<Move>)
    requires st.Valid() && AllCan(st.checkpoint[0], ms) && Orderly(ms) && SinceLive(st.log) <= 2
    ensures DoAll(st, ms).Valid() && SinceLive(DoAll(st, ms).log) <= Budget(ms)
  {
    if ms != [] {
      var init, m := ms[..|ms| - 1], ms[|ms| - 1];
      assert InOrder(ms, |ms| - 1);
      forall k | 0 <= k < |init| ensures InOrder(init, k) {
        assert InOrder(ms, k);
      }
      MovesWithinBudget(st, init);
      MoveSpends(DoAll(st, init), m);
    }
  }

  lemma {:induction false} MoveSpends(st: ClientState, m: Move)
    requires st.Valid() && Can(st.checkpoint[0], m)
    ensures var before, after := SinceLive(st.log), SinceLive(Do(st, m).log);
            && Do(st, m).Valid()
            && (m == Look(false) ==> after == 0)
            && (m == Look(true) || m.Say? ==> after == before)
            && (m.Apply? || m.Close? ==> after <= before + 1)
  {
    hide SinceLive, ApplyBlock, Insert;
    match m {
      case Look(b) => SinceLiveSnoc(st.log, Saw(b));
      case Say(event, _) => SinceLiveSnoc(st.log, Emitted(event));
      case Close(stop, hash, _) =>
        SinceLiveSnoc(st.log, Emitted(WalletUpdate(st.MoveTo(BlockId(stop, hash)).PendingUpdate())));
      case Apply(block, height, _) =>
        var moved := st.WithIndexed(ApplyBlock(st.Indexed(), block, height)).MoveTo(BlockId(height, block.hash));
        SinceLiveSnoc(st.log, Emitted(WalletUpdate(moved.PendingUpdate())));
    }
  }

  /** From this moment on every look sees the token cancelled. */
  ghost predicate CancelledFrom(log: seq<Obs>, t: nat)
    requires t <= |log|
  {
    forall k :: t <= k < |log| && log[k].Saw? ==> log[k].cancelled
  }

  lemma {:induction false} CountAfterCancel(log: seq<Obs>, t: nat)
    requires t <= |log| && CancelledFrom(log, t)
    ensures CountUpdates(log[t..]) <= SinceLive(log)
    decreases |log|
  {
    if t < |log| {
      var init := log[..|log| - 1];
      assert log[t..][..|log| - t - 1] == init[t..];
      assert log[t..][|log[t..]| - 1] == log[|log| - 1];
      CountAfterCancel(init, t);
    } else {
      assert log[t..] == [];
    }
  }

  /**
    Once the token is cancelled, at most two more wallet updates are ever sent:
    over any sequence of calls and wherever in it the cancellation falls.
   */
  lemma {:induction false} AtMostTwoAfterCancel(st: ClientState, calls: seq<Call>, t: nat)
    requires st.Valid() && Callable(st, calls) && SinceLive(st.log) <= 2
    requires t <= |RunCalls(st, calls).log| && CancelledFrom(RunCalls(st, calls).log, t)
    ensures CountUpdates(RunCalls(st, calls).log[t..]) <= 2
  {
    hide RunCalls, DoAll, CancelledFrom;
    var ms := HistoryMoves(st, calls, [], p => Foreign(0));
    MovesWithinBudget(st, ms);
    CountAfterCancel(RunCalls(st, calls).log, t);
  }

  /** The tail of a scan that is handed one relevant block below the stop height. */
  lemma {:induction false} TailSendsTwo(st: ClientState, block: Block, stop: nat, env: ScanEnv)
    returns (u: Update, v: Update)
    requires st.Valid() && GenesisAgrees(st.checkpoint, env) && Live(env)
    requires !env.cancelledAt(0) && env.heightOf(0, block.hash).Success? && env.stopHash.Success?
    requires TipHeight(st.checkpoint) < env.heightOf(0, block.hash).value < stop
    requires Keeps(st.index, block.txs)
    ensures var (done, r) := ScanBlocks(st, [block], 0, env);
            && r.Ok? && CloseRange(done, stop, env, 1).1.Ok?
            && CloseRange(done, stop, env, 1).0.log ==
               st.log + [Saw(false), Emitted(WalletUpdate(u)), Emitted(WalletUpdate(v))]
  {
    hide ApplyBlock, Insert, Keeps, Changes;
    var height := env.heightOf(0, block.hash).value;
    var seen := st.Looked(false);
    EmptyChangesMeanIrrelevant(st.index, block, height);
    var after := seen.WithIndexed(ApplyBlock(seen.Indexed(), block, height));
    u := after.MoveTo(BlockId(height, block.hash)).PendingUpdate();
    var next := Advance(seen, block, height, env.send(0));
    assert ScanOne(st, [block][0], 0, env) == next;
    assert ScanBlocks(next.0, [block], 1, env) == (next.0, Ok);
    AdvanceTip(seen, block, height, env.send(0));
    var done := ScanBlocks(st, [block], 0, env).0;
    v := done.MoveTo(BlockId(stop, env.stopHash.value)).PendingUpdate();
    assert done.log == st.log + [Saw(false)] + [Emitted(WalletUpdate(u))];
  }

  /** A scan whose filters hit one relevant block above the tip and below the stop height. */
  ghost predicate HitsOneBelowStop(st: ClientState, kind: ScanKind, env: ScanEnv, block: Block, stop: nat)
    requires |st.checkpoint| > 0
  {
    && DeriveSpks(st.index, Lookahead(st.index, kind)).Success?
    && env.filterHeight == Success(stop) && StartHeight(st, kind) <= stop
    && env.nodeState.Operational? && env.filterTip.Success? && stop <= env.filterTip.value
    && env.matched(DeriveSpks(st.index, Lookahead(st.index, kind)).value, StartHeight(st, kind), stop)
       == Success([block.hash])
    && env.answers(block.hash) == Found(block) && env.stopHash.Success? && Live(env)
    && env.heightOf(0, block.hash).Success?
    && TipHeight(st.checkpoint) < env.heightOf(0, block.hash).value < stop
    && Keeps(st.index, block.txs)
  }

  /**
    Two can really follow: if the token is cancelled right after the look before
    that block, the whole scan still succeeds and still sends the block's update
    and the closing one.
   */
  lemma {:induction false} TwoCanFollow(st: ClientState, kind: ScanKind, env: ScanEnv, block: Block, stop: nat)
    requires st.Valid() && GenesisAgrees(st.checkpoint, env) && HitsOneBelowStop(st, kind, env, block, stop)
    requires !env.cancelledBeforeMatch && !env.cancelledAfterMatch && !env.cancelledInFetch && !env.cancelledAt(0)
    ensures var (fin, r) := ScanInner(st, kind, env);
            && r.Ok? && |fin.log| == |st.log| + 6
            && CancelledFrom(fin.log, |st.log| + 4)
            && CountUpdates(fin.log[|st.log| + 4..]) == 2
  {
    hide ScanBlocks, CloseRange, DeriveSpks, Keeps, FetchBlocks, CountUpdates;
    var fetched := st.Looked(false).Looked(false).Looked(false);
    assert FetchBlocks([block.hash], env.answers) == Success([block]) by {
      OneFetched(block, env.answers);
    }
    var u, v := TailSendsTwo(fetched, block, stop, env);
    var fin := ScanInner(st, kind, env).0;
    assert fin.log == fetched.log + [Saw(false), Emitted(WalletUpdate(u)), Emitted(WalletUpdate(v))];
    assert fin.log[|st.log| + 4..] == [Emitted(WalletUpdate(u)), Emitted(WalletUpdate(v))];
    CountsTwo(u, v);
  }

  lemma {:induction false} OneFetched(block: Block, answers: Hash -> Answer)
    requires answers(block.hash) == Found(block)
    ensures FetchBlocks([block.hash], answers) == Success([block])
  {
    var r := FetchBlocks([block.hash], answers);
    assert answers([block.hash][0]) == Found(r.value[0]);
    assert r.value == [block];
  }

  lemma {:induction false} CountsTwo(u: Update, v: Update)
    ensures CountUpdates([Emitted(WalletUpdate(u)), Emitted(WalletUpdate(v))]) == 2
  {
    var e, f := Emitted(WalletUpdate(u)), Emitted(WalletUpdate(v));
    CountUpdatesSnoc([], e);
    CountUpdatesSnoc([e], f);
    assert [] + [e] == [e] && [e] + [f] == [e, f];
  }

  lemma {:induction false} CountUpdatesSnoc(log: seq<Obs>, o: Obs)
    ensures CountUpdates(log + [o]) ==
            CountUpdates(log) + if o.Emitted? && o.event.WalletUpdate? then 1 else 0
  {
    assert (log + [o])[..|log|] == log;
  }

  lemma {:induction false} CountUpdatesConcat(a: seq<Obs>, b: seq<Obs>)
    ensures CountUpdates(a + b) == CountUpdates(a) + CountUpdates(b)
    decreases |b|
  {
    if b == [] {
      assert a + b == a;
    } else {
      assert (a + b)[..|a + b| - 1] == a + b[..|b| - 1];
      CountUpdatesConcat(a, b[..|b| - 1]);
    }
  }

  /** A scan of a new wallet of which one block is relevant, cancelled right after the look before that block. */
  function CancelledMidway(): ScanEnv {
    var block := Block(1, [Tx(0, [], [Derived(External, 0)])]);
    ScanEnv(
      Success(2), false, Fsm.Operational, Success(2),
      (_: seq<Script>, _: nat, _: nat) => Success([1]),
      false, false,
      (_: Hash) => Found(block),
      (j: nat) => j > 0,
      (_: nat, _: Hash) => Success(1),
      (_: nat) => SendOutcome.Delivered,
      Success(2))
  }

  function NewWallet(): ClientState {
    ClientState([BlockId(0, 0)], Index(map[External := Ranged], 25, map[], map[], map[]), EMPTY_GRAPH, [])
  }

  lemma {:induction false} MidwayHitsOne()
    ensures NewWallet().Valid() && GenesisAgrees(NewWallet().checkpoint, CancelledMidway())
    ensures HitsOneBelowStop(NewWallet(), FullScan(None), CancelledMidway(),
                             Block(1, [Tx(0, [], [Derived(External, 0)])]), 2)
  {
    var i, tx := NewWallet().index, Tx(0, [], [Derived(External, 0)]);
    assert tx.outputs[0] == Derived(External, 0) && Watches(i, Derived(External, 0));
    IndexOutputsGrows(i, tx, 0);
    assert NextReveal(i, External) <= NextReveal(IndexTx(i, tx), External);
    assert Watches(IndexTx(i, tx), Derived(External, 0));
    assert Keeps(i, [tx]);
  }

  /** The scan cancelled midway. */
  function FirstCall(): Call {
    OneScan(FullScan(None), CallEnv(Ok, CancelledMidway(), SendOutcome.Delivered))
  }

  /** A scan made after the cancellation. */
  function SecondCall(): Call {
    OneScan(FullScan(None), CallEnv(Ok, CancelledMidway().(cancelledBeforeMatch := true), SendOutcome.Delivered))
  }

  lemma {:induction false} FirstCallSends()
    ensures NewWallet().Valid() && GenesisAgrees(NewWallet().checkpoint, FirstCall().env.scan)
    ensures var mid := RunCall(NewWallet(), FirstCall());
            && |mid.log| == 7 && mid.log[6] == Emitted(Finished(false))
            && CancelledFrom(mid.log, 4) && CountUpdates(mid.log[4..6]) == 2
            && External in mid.index.descriptors
  {
    hide ScanInner, CountUpdates, DeriveSpks, HitsOneBelowStop, Keeps, Insert;
    MidwayHitsOne();
    TwoCanFollow(NewWallet(), FullScan(None), CancelledMidway(), Block(1, [Tx(0, [], [Derived(External, 0)])]), 2);
    var scanned, mid := ScanInner(NewWallet(), FullScan(None), CancelledMidway()).0, RunCall(NewWallet(), FirstCall());
    assert mid.log == scanned.log + [Emitted(Finished(false))];
    assert mid.log[4..6] == scanned.log[4..];
    assert mid.index.descriptors == NewWallet().index.descriptors by { CallGrowsIndex(NewWallet(), FirstCall()); }
  }

  lemma {:induction false} SecondCallSees(mid: ClientState)
    requires ValidCheckPoint(mid.checkpoint) && External in mid.index.descriptors
    ensures GenesisAgrees(mid.checkpoint, SecondCall().env.scan)
    ensures RunCall(mid, SecondCall()).log == mid.log + [Saw(true), Emitted(Error(ScanAborted))]
  {
    hide ScanInner;
    LateScanSees(mid, SecondCall().env.scan);
  }

  /** The bound is attained: a scan cancelled midway, and a second scan whose look sees that the token is cancelled. */
  lemma {:induction false} BoundIsAttained()
    returns (calls: seq<Call>, t: nat)
    ensures NewWallet().Valid() && Callable(NewWallet(), calls)
    ensures var log := RunCalls(NewWallet(), calls).log;
            && t <= |log| && CancelledFrom(log, t) && Saw(true) in log[t..]
            && CountUpdates(log[t..]) == 2
  {
    hide RunCall, CountUpdates, NewWallet, FirstCall, SecondCall;
    FirstCallSends();
    var mid := RunCall(NewWallet(), FirstCall());
    SecondCallSees(mid);
    calls, t := [FirstCall(), SecondCall()], 4;
    var st := NewWalletHasExternal();
    SecondCallSees(st);
    TwoCalls(NewWallet(), FirstCall(), SecondCall());
    var tail := [Emitted(Finished(false)), Saw(true), Emitted(Error(ScanAborted))];
    var log := RunCall(mid, SecondCall()).log;
    assert log[t..] == mid.log[4..6] + tail;
    CountUpdatesConcat(mid.log[4..6], tail);
    CountsNone();
    assert log[t..][3] == Saw(true);
  }

  lemma {:induction false} NewWalletHasExternal()
    returns (st: ClientState)
    ensures st == NewWallet() && ValidCheckPoint(st.checkpoint) && External in st.index.descriptors
  {
    st := NewWallet();
  }

  lemma {:induction false} CountsNone()
    ensures CountUpdates([Emitted(Finished(false)), Saw(true), Emitted(Error(ScanAborted))]) == 0
  {
    var a, b, c := Emitted(Finished(false)), Saw(true), Emitted(Error(ScanAborted));
    CountUpdatesSnoc([], a);
    CountUpdatesSnoc([a], b);
    CountUpdatesSnoc([a, b], c);
    assert [] + [a] == [a] && [a] + [b] == [a, b] && [a, b] + [c] == [a, b, c];
  }

  /** A full scan that finds the token cancelled logs just that look. */
  lemma {:induction false} LateScanSees(st: ClientState, env: ScanEnv)
    requires ValidCheckPoint(st.checkpoint) && GenesisAgrees(st.checkpoint, env)
    requires External in st.index.descriptors && env.filterHeight.Success? && env.cancelledBeforeMatch
    ensures ScanInner(st, FullScan(None), env) == (st.Looked(true), Err(ScanAborted))
  {
  }

  lemma {:induction false} TwoCalls(st: ClientState, c: Call, d: Call)
    requires Callable(st, [c, d])
    ensures RunCall(st, c).checkpoint[0] == st.checkpoint[0] && GenesisAgrees(RunCall(st, c).checkpoint, d.env.scan)
    ensures RunCalls(st, [c, d]) == RunCall(RunCall(st, c), d)
  {
    hide RunCall;
    assert d in [c, d];
    assert [c, d][..1] == [c] && [c][..0] == [];
    assert RunCalls(st, [c]) == RunCall(st, c);
  }

  /** A scan that finds the token cancelled fails and changes nothing that the wallet or a later scan could see. */
  lemma {:induction false} CancelledScanIsInert(st: ClientState, kind: ScanKind, env: ScanEnv)
    requires ValidCheckPoint(st.checkpoint) && GenesisAgrees(st.checkpoint, env) && env.cancelledBeforeMatch
    ensures var (fin, r) := ScanInner(st, kind, env);
            && r.Err? && fin.checkpoint == st.checkpoint && fin.index == st.index && fin.graph == st.graph
            && EventsOf(fin.log) == EventsOf(st.log)
  {
    EventsOfSnoc(st.log, Saw(true));
  }

  /**
    So is any call made once the token is cancelled: it fails, and sends at most
    one event, an error.
   */
  lemma {:induction false} CancelledCallIsInert(st: ClientState, c: Call)
    requires ValidCheckPoint(st.checkpoint) && GenesisAgrees(st.checkpoint, c.env.scan)
    requires c.env.scan.cancelledBeforeMatch
    ensures var fin := RunCall(st, c);
            && fin.checkpoint == st.checkpoint && fin.index == st.index && fin.graph == st.graph
            && (EventsOf(fin.log) == EventsOf(st.log)
                || exists e :: EventsOf(fin.log) == EventsOf(st.log) + [Error(e)])
    ensures c.OneScan? ==> Scan(st, c.kind, c.env).1.Err?
    ensures c.Continuous? ==>
              var r := ScanContinuous(st, c.kind, c.env, c.sinkPoisoned, c.tape).1; r.Some? && r.value.Err?
  {
    hide ScanInner, QueueLoop, EventsOf;
    CancelledScanIsInert(st, c.kind, c.env.scan);
    var (scanned, r) := ScanInner(st, c.kind, c.env.scan);
    EventsOfSnoc(scanned.log, Emitted(Error(r.error)));
  }
}
