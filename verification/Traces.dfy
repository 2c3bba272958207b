/**
  Every call, and every sequence of calls, as a run of four kinds of atomic
  moves. Laws of whole histories are then proved by induction over moves.
 */
module Traces {
  import opened Wrappers
  import opened Blocks
  import opened CheckPoints
  import opened KeychainIndex
  import opened TxGraphs
  import opened NodeQueries
  import opened Scanning
  import opened Refinement

  datatype Move =
    | Look(cancelled: bool)
    | Apply(block: Block, height: nat, how: SendOutcome)
    | Close(stop: nat, hash: Hash, how: SendOutcome)
    | Say(event: ScanEvent, how: SendOutcome)

  ghost predicate Can(genesis: BlockId, m: Move) {
    match m
    case Look(_) => true
    case Apply(block, height, _) => height == 0 ==> block.hash == genesis.hash
    case Close(stop, _, _) => stop > 0
    case Say(e, _) => !e.WalletUpdate?
  }

  ghost predicate AllCan(genesis: BlockId, ms: seq<Move>) {
    forall k :: 0 <= k < |ms| ==> Can(genesis, ms[k])
  }

  function Do(st: ClientState, m: Move): (out: ClientState)
    requires ValidCheckPoint(st.checkpoint) && Can(st.checkpoint[0], m)
    ensures ValidCheckPoint(out.checkpoint) && out.checkpoint[0] == st.checkpoint[0]
  {
    match m
    case Look(b) => st.Looked(b)
    case Apply(block, height, how) => Advance(st, block, height, how).0
    case Close(stop, hash, how) => Flush(st.MoveTo(BlockId(stop, hash)), how).0
    case Say(e, how) => Send(st, e, how).0
  }

  function DoAll(st: ClientState, ms: seq<Move>): (out: ClientState)
    requires ValidCheckPoint(st.checkpoint) && AllCan(st.checkpoint[0], ms)
    ensures ValidCheckPoint(out.checkpoint) && out.checkpoint[0] == st.checkpoint[0]
  {
    if ms == [] then st else Do(DoAll(st, ms[..|ms| - 1]), ms[|ms| - 1])
  }

  lemma {:induction false} DoAllConcat(st: ClientState, a: seq<Move>, b: seq<Move>)
    requires ValidCheckPoint(st.checkpoint) && AllCan(st.checkpoint[0], a) && AllCan(st.checkpoint[0], b)
    ensures AllCan(st.checkpoint[0], a + b)
    ensures DoAll(st, a + b) == DoAll(DoAll(st, a), b)
    decreases |b|
  {
    hide Do;
    if b == [] {
      assert a + b == a;
    } else {
      var init := b[..|b| - 1];
      assert (a + b)[..|a + b| - 1] == a + init;
      DoAllConcat(st, a, init);
    }
  }

  lemma {:induction false} DoOne(st: ClientState, m: Move)
    requires ValidCheckPoint(st.checkpoint) && Can(st.checkpoint[0], m)
    ensures AllCan(st.checkpoint[0], [m]) && DoAll(st, [m]) == Do(st, m)
  {
    hide Do;
    assert [m][..0] == [];
  }

  /**
    A block is applied only right after a look that saw no cancellation, and a
    range is closed only right after such a look or an application.
   */
  ghost predicate Orderly(ms: seq<Move>) {
    forall k :: 0 <= k < |ms| ==> InOrder(ms, k)
  }

  ghost predicate InOrder(ms: seq<Move>, k: nat)
    requires k < |ms|
  {
    && (ms[k].Apply? ==> k > 0 && ms[k - 1] == Look(false))
    && (ms[k].Close? ==> k > 0 && (ms[k - 1] == Look(false) || ms[k - 1].Apply?))
  }

  lemma {:induction false} OrderlyConcat(a: seq<Move>, b: seq<Move>)
    requires Orderly(a) && Orderly(b)
    ensures Orderly(a + b)
  {
    forall k | 0 <= k < |a + b| ensures InOrder(a + b, k) {
      if k < |a| {
        assert InOrder(a, k);
      } else {
        assert InOrder(b, k - |a|);
      }
    }
  }

  ghost predicate NoSay(ms: seq<Move>) {
    forall k :: 0 <= k < |ms| ==> !ms[k].Say?
  }

  /** Only looks and applications. */
  ghost predicate Turns(ms: seq<Move>) {
    forall k :: 0 <= k < |ms| ==> ms[k].Look? || ms[k].Apply?
  }

  /** The block that a move makes a checkpoint lies on the chain. */
  ghost predicate Places(m: Move, chain: Chain) {
    && (m.Apply? ==> m.height < |chain| && chain[m.height] == m.block)
    && (m.Close? ==> m.stop < |chain| && chain[m.stop].hash == m.hash)
  }

  ghost predicate AllPlace(ms: seq<Move>, chain: Chain) {
    forall k :: 0 <= k < |ms| ==> Places(ms[k], chain)
  }

  /** The updates of these moves all arrive. */
  ghost predicate AllArrive(ms: seq<Move>) {
    forall k :: 0 <= k < |ms| ==> (ms[k].Apply? ==> ms[k].how.Delivered?) && (ms[k].Close? ==> ms[k].how.Delivered?)
  }

  /** The moves ms lead from st to fin. */
  ghost predicate Leads(st: ClientState, ms: seq<Move>, fin: ClientState) {
    ValidCheckPoint(st.checkpoint) && AllCan(st.checkpoint[0], ms) && DoAll(st, ms) == fin && fin.Valid()
  }

  lemma {:induction false} LeadsOn(st: ClientState, a: seq<Move>, mid: ClientState, b: seq<Move>, fin: ClientState)
    requires Leads(st, a, mid) && Leads(mid, b, fin)
    ensures Leads(st, a + b, fin)
  {
    hide Do;
    DoAllConcat(st, a, b);
  }

  lemma {:induction false} LeadsBy(st: ClientState, m: Move)
    requires st.Valid() && Can(st.checkpoint[0], m)
    ensures Leads(st, [m], Do(st, m))
  {
    DoOne(st, m);
  }

  // ---- The filter scan

  lemma {:induction false} LookAndApply(st: ClientState, move: Move)
    returns (ms: seq<Move>)
    requires st.Valid() && move.Apply? && Can(st.checkpoint[0], move)
    ensures ms == [Look(false), move] && Orderly(ms)
    ensures Leads(st, ms, Advance(st.Looked(false), move.block, move.height, move.how).0)
  {
    ms := [Look(false)] + [move];
    var seen := st.Looked(false);
    LeadsBy(st, Look(false));
    LeadsBy(seen, move);
    LeadsOn(st, [Look(false)], seen, [move], Do(seen, move));
  }

  lemma {:induction false} ScanOneMoves(st: ClientState, block: Block, j: nat, env: ScanEnv, chain: Chain)
    returns (ms: seq<Move>)
    requires st.Valid() && GenesisAgrees(st.checkpoint, env)
    ensures Leads(st, ms, ScanOne(st, block, j, env).0) && Orderly(ms) && Turns(ms)
    ensures ScanOne(st, block, j, env).1.Ok? ==> ms != [] && (ms[|ms| - 1].Apply? || ms[|ms| - 1] == Look(false))
    ensures NodeTruthful(env, chain) && block in chain ==> AllPlace(ms, chain)
    ensures Live(env) ==> AllArrive(ms)
  {
    hide ApplyBlock, Changes, Flush, Leads;
    LeadsBy(st, Look(env.cancelledAt(j)));
    ms := [Look(env.cancelledAt(j))];
    var height := env.heightOf(j, block.hash);
    if !env.cancelledAt(j) && height.Success? {
      EmptyChangesMeanIrrelevant(st.index, block, height.value);
      var seen := st.Looked(false);
      if !Changes(seen.Indexed(), ApplyBlock(seen.Indexed(), block, height.value)).IsEmpty() {
        ms := LookAndApply(st, Apply(block, height.value, env.send(j)));
      }
    }
  }

  lemma {:induction false} ScanBlocksMoves(st: ClientState, blocks: seq<Block>, i: nat, env: ScanEnv, chain: Chain)
    returns (ms: seq<Move>)
    requires i <= |blocks| && st.Valid() && GenesisAgrees(st.checkpoint, env)
    ensures Leads(st, ms, ScanBlocks(st, blocks, i, env).0) && Orderly(ms) && Turns(ms)
    ensures ScanBlocks(st, blocks, i, env).1.Ok? && ms != [] ==> ms[|ms| - 1].Apply? || ms[|ms| - 1] == Look(false)
    ensures NodeTruthful(env, chain) && (forall b :: b in blocks ==> b in chain) ==> AllPlace(ms, chain)
    ensures Live(env) ==> AllArrive(ms)
    decreases |blocks| - i
  {
    hide ScanOne, Do, NodeTruthful, Live;
    ms := [];
    if i < |blocks| {
      ms := ScanOneMoves(st, blocks[i], i, env, chain);
      var (next, r) := ScanOne(st, blocks[i], i, env);
      if r.Ok? {
        var rest := ScanBlocksMoves(next, blocks, i + 1, env, chain);
        LeadsOn(st, ms, next, rest, ScanBlocks(next, blocks, i + 1, env).0);
        OrderlyConcat(ms, rest);
        ms := ms + rest;
      }
    }
  }

  lemma {:induction false} CloseRangeMoves(st: ClientState, stop: nat, env: ScanEnv, sends: nat, chain: Chain)
    returns (ms: seq<Move>)
    requires st.Valid()
    ensures Leads(st, ms, CloseRange(st, stop, env, sends).0)
    ensures ms == [] || (|ms| == 1 && ms[0].Close?)
    ensures NodeTruthful(env, chain) && env.filterHeight == Success(stop) ==> AllPlace(ms, chain)
    ensures Live(env) ==> AllArrive(ms)
  {
    ms := [];
    if TipHeight(st.checkpoint) < stop && env.stopHash.Success? {
      ms := [Close(stop, env.stopHash.value, env.send(sends))];
      LeadsBy(st, ms[0]);
    }
  }

  lemma {:induction false} FetchMoves(st: ClientState, hashes: seq<Hash>, env: ScanEnv)
    returns (ms: seq<Move>)
    requires st.Valid()
    ensures Leads(st, ms, Fetch(st, hashes, env).0) && Orderly(ms) && Turns(ms)
    ensures Fetch(st, hashes, env).1.Success? ==> ms == [] || ms == [Look(false)]
    ensures forall k :: 0 <= k < |ms| ==> ms[k].Look?
  {
    ms := [];
    if hashes != [] {
      ms := [Look(env.cancelledInFetch)];
      LeadsBy(st, ms[0]);
    }
  }

  /** Fetching and applying: looks and applications only. */
  lemma {:induction false} FetchedMoves(
    st: ClientState, hashes: seq<Hash>, env: ScanEnv, chain: Chain, hs: seq<nat>)
    returns (ms: seq<Move>)
    requires st.Valid() && GenesisAgrees(st.checkpoint, env)
    ensures var (fetched, blocks) := Fetch(st, hashes, env);
            Leads(st, ms, if blocks.Success? then ScanBlocks(fetched, blocks.value, 0, env).0 else fetched)
            && Orderly(ms) && Turns(ms)
            && (blocks.Success? && ScanBlocks(fetched, blocks.value, 0, env).1.Ok? && ms != [] ==>
                  ms[|ms| - 1].Apply? || ms[|ms| - 1] == Look(false))
    ensures NodeTruthful(env, chain) && AreHashesOf(hashes, chain, hs) ==> AllPlace(ms, chain)
    ensures Live(env) ==> AllArrive(ms)
  {
    hide Fetch, ScanBlocks, Do, NodeTruthful, Leads, Orderly, AreHashesOf, Live;
    var (fetched, blocks) := Fetch(st, hashes, env);
    ms := FetchMoves(st, hashes, env);
    if blocks.Success? {
      var bs := blocks.value;
      LeadsToValid(st, ms, fetched);
      var turns := ScanBlocksMoves(fetched, bs, 0, env, chain);
      LeadsOn(st, ms, fetched, turns, ScanBlocks(fetched, bs, 0, env).0);
      OrderlyConcat(ms, turns);
      ms := ms + turns;
      if NodeTruthful(env, chain) && AreHashesOf(hashes, chain, hs) {
        FetchedFromChain(hashes, env, chain, hs);
        assert forall b :: b in bs ==> b in chain by { FetchedAre(st, hashes, env); }
      }
    }
  }

  /** The scan's moves after the two looks around filter matching. */
  lemma {:induction false} ScanMatchedMoves(
    st: ClientState, hashes: seq<Hash>, stop: nat, env: ScanEnv, chain: Chain, hs: seq<nat>)
    returns (ms: seq<Move>)
    requires st.Valid() && GenesisAgrees(st.checkpoint, env)
    ensures Leads(st, ms, ScanMatched(st, hashes, stop, env).0) && Orderly([Look(false)] + ms) && NoSay(ms)
    ensures NodeTruthful(env, chain) && AreHashesOf(hashes, chain, hs) && env.filterHeight == Success(stop) ==>
              AllPlace(ms, chain)
    ensures Live(env) ==> AllArrive(ms)
  {
    hide Fetch, ScanBlocks, CloseRange, Do, NodeTruthful, Leads, Orderly, AreHashesOf, Live;
    var look := [Look(false)];
    assert Orderly(look) by { JustLooking(); }
    var (fetched, blocks) := Fetch(st, hashes, env);
    ms := FetchedMoves(st, hashes, env, chain, hs);
    OrderlyConcat(look, ms);
    if blocks.Success? {
      var (done, r) := ScanBlocks(fetched, blocks.value, 0, env);
      if r.Ok? {
        LeadsToValid(st, ms, done);
        var close := CloseRangeMoves(done, stop, env, |blocks.value|, chain);
        LeadsOn(st, ms, done, close, CloseRange(done, stop, env, |blocks.value|).0);
        CloseInOrder(look + ms, close);
        assert look + ms + close == look + (ms + close);
        ms := ms + close;
      }
    }
  }

  lemma {:induction false} JustLooking()
    ensures Orderly([Look(false)])
  {
  }

  lemma {:induction false} LeadsToValid(st: ClientState, ms: seq<Move>, fin: ClientState)
    requires Leads(st, ms, fin)
    ensures fin.Valid() && fin.checkpoint[0] == st.checkpoint[0]
  {
  }

  lemma {:induction false} CloseInOrder(ms: seq<Move>, close: seq<Move>)
    requires Orderly(ms) && ms != [] && (ms[|ms| - 1] == Look(false) || ms[|ms| - 1].Apply?)
    requires close == [] || (|close| == 1 && close[0].Close?)
    ensures Orderly(ms + close)
  {
    forall k | 0 <= k < |ms + close| ensures InOrder(ms + close, k) {
      if k < |ms| {
        assert InOrder(ms, k);
      }
    }
  }

  lemma {:induction false} FetchedAre(st: ClientState, hashes: seq<Hash>, env: ScanEnv)
    requires Fetch(st, hashes, env).1.Success?
    ensures FetchBlocks(hashes, env.answers).Success?
    ensures Fetch(st, hashes, env).1.value == FetchBlocks(hashes, env.answers).value
  {
  }

  lemma {:induction false} LookMoves(st: ClientState, cancelled: bool)
    requires ValidCheckPoint(st.checkpoint)
    ensures Do(st, Look(cancelled)) == st.Looked(cancelled)
  {
  }

  lemma {:induction false} FetchedFromChain(hashes: seq<Hash>, env: ScanEnv, chain: Chain, hs: seq<nat>)
    requires NodeTruthful(env, chain) && AreHashesOf(hashes, chain, hs)
    ensures FetchBlocks(hashes, env.answers).Success? ==>
              forall b :: b in FetchBlocks(hashes, env.answers).value ==> b in chain
  {
    if FetchBlocks(hashes, env.answers).Failure? {
      return;
    }
    var bs := FetchBlocks(hashes, env.answers).value;
    forall b | b in bs ensures b in chain {
      var j :| 0 <= j < |bs| && bs[j] == b;
      assert hashes[j] == chain[hs[j]].hash;
      assert env.answers(chain[hs[j]].hash).block == chain[hs[j]];
    }
  }

  lemma {:induction false} ScanInnerMoves(st: ClientState, kind: ScanKind, env: ScanEnv, chain: Chain, ledger: Ledger)
    returns (ms: seq<Move>)
    requires st.Valid() && GenesisAgrees(st.checkpoint, env)
    ensures Leads(st, ms, ScanInner(st, kind, env).0) && Orderly(ms) && NoSay(ms)
    ensures Truthful(env, chain, ledger) ==> AllPlace(ms, chain)
    ensures Live(env) ==> AllArrive(ms)
  {
    hide ScanMatched, Do, DeriveSpks, NodeTruthful, Live;
    ms := [];
    var spks := DeriveSpks(st.index, Lookahead(st.index, kind));
    if spks.Success? && env.filterHeight.Success? && StartHeight(st, kind) <= env.filterHeight.value {
      var lo, stop := StartHeight(st, kind), env.filterHeight.value;
      ms := [Look(env.cancelledBeforeMatch)];
      LeadsBy(st, ms[0]);
      LookMoves(st, env.cancelledBeforeMatch);
      var answer := env.matched(spks.value, lo, stop);
      if !env.cancelledBeforeMatch && MatchFilters(env.nodeState, env.filterTip, stop, answer).Success? {
        var one := st.Looked(false);
        var again := Look(env.cancelledAfterMatch);
        LeadsBy(one, again);
        LookMoves(one, env.cancelledAfterMatch);
        LeadsOn(st, ms, one, [again], one.Looked(env.cancelledAfterMatch));
        ms := ms + [again];
        if !env.cancelledAfterMatch {
          var two := one.Looked(false);
          var hs := [];
          if Truthful(env, chain, ledger) {
            TruthfulHeight(env, chain);
            var hits: FilterHits :| FilterTruthful(env, chain, ledger, hits);
            hs := hits(spks.value, lo, stop);
          }
          var rest := ScanMatchedMoves(two, answer.value, stop, env, chain, hs);
          LeadsOn(st, ms, two, rest, ScanMatched(two, answer.value, stop, env).0);
          OrderlyConcat([Look(false)], [again] + rest);
          assert [Look(false)] + ([again] + rest) == ms + rest;
          ms := ms + rest;
        }
      }
    }
  }

  lemma {:induction false} TruthfulHeight(env: ScanEnv, chain: Chain)
    requires NodeTruthful(env, chain)
    ensures env.filterHeight.Success? ==> env.filterHeight.value < |chain|
  {
  }

  // ---- The queue

  ghost predicate OnTape(tape: seq<Selected>, chain: Chain) {
    forall t :: 0 <= t < |tape| && tape[t].Received? ==>
      tape[t].height < |chain| && tape[t].block == chain[tape[t].height]
  }

  ghost predicate TapeLive(tape: seq<Selected>) {
    forall t :: 0 <= t < |tape| && tape[t].Received? ==> tape[t].send.Delivered?
  }

  lemma {:induction false} QueueLoopMoves(st: ClientState, tape: seq<Selected>, t: nat, chain: Chain)
    returns (ms: seq<Move>)
    requires t <= |tape| && st.Valid()
    ensures Leads(st, ms, QueueLoop(st, tape, t).0) && Orderly(ms) && Turns(ms)
    ensures OnTape(tape, chain) ==> AllPlace(ms, chain)
    ensures TapeLive(tape) ==> AllArrive(ms)
    decreases |tape| - t
  {
    ms := [];
    assert Orderly(ms);
    if t < |tape| {
      hide QueueOne, Do, Orderly;
      ms := QueueOneMoves(st, tape[t], chain);
      var (next, r) := QueueOne(st, tape[t]);
      if r.Ok? {
        var rest := QueueLoopMoves(next, tape, t + 1, chain);
        LeadsOn(st, ms, next, rest, QueueLoop(next, tape, t + 1).0);
        OrderlyConcat(ms, rest);
        ms := ms + rest;
      }
    }
  }

  lemma {:induction false} QueueOneMoves(st: ClientState, turn: Selected, chain: Chain)
    returns (ms: seq<Move>)
    requires st.Valid()
    ensures Leads(st, ms, QueueOne(st, turn).0) && Orderly(ms) && Turns(ms)
    ensures (turn.Received? ==> turn.height < |chain| && turn.block == chain[turn.height]) ==> AllPlace(ms, chain)
    ensures (turn.Received? ==> turn.send.Delivered?) ==> AllArrive(ms)
  {
    hide Advance, Leads;
    ms := [Look(turn.Cancelled?)];
    LeadsBy(st, ms[0]);
    if turn.Received? && Takes(TipHeight(st.checkpoint), turn.height) {
      ms := LookAndApply(st, Apply(turn.block, turn.height, turn.send));
    }
  }

  // ---- Calls

  /** What a call observes of the chain is true. */
  ghost predicate CallTruthful(c: Call, chain: Chain, ledger: Ledger) {
    && Truthful(c.env.scan, chain, ledger)
    && (c.Continuous? ==> OnTape(c.tape, chain))
  }

  /** Every event of the call arrives. */
  ghost predicate CallLive(c: Call) {
    Live(c.env.scan) && (!c.Dropped? ==> c.env.closing.Delivered?) && (c.Continuous? ==> TapeLive(c.tape))
  }

  lemma {:induction false} ThreeLooks(st: ClientState)
    returns (ms: seq<Move>)
    requires st.Valid()
    ensures ms == [Look(false), Look(false), Look(false)] && Orderly(ms)
    ensures Leads(st, ms, st.Looked(false).Looked(false).Looked(false))
  {
    hide Do, Leads;
    var one, two := st.Looked(false), st.Looked(false).Looked(false);
    LeadsBy(st, Look(false));
    LeadsBy(one, Look(false));
    LeadsBy(two, Look(false));
    LookMoves(st, false);
    LookMoves(one, false);
    LookMoves(two, false);
    LeadsOn(st, [Look(false)], one, [Look(false)], two);
    LeadsOn(st, [Look(false)] + [Look(false)], two, [Look(false)], two.Looked(false));
    ms := [Look(false)] + [Look(false)] + [Look(false)];
  }

  lemma {:induction false} CallMoves(st: ClientState, c: Call, chain: Chain, ledger: Ledger)
    returns (ms: seq<Move>)
    requires st.Valid() && GenesisAgrees(st.checkpoint, c.env.scan)
    ensures Leads(st, ms, RunCall(st, c)) && Orderly(ms)
    ensures CallTruthful(c, chain, ledger) ==> AllPlace(ms, chain)
    ensures CallLive(c) ==> AllArrive(ms)
  {
    hide ScanInner, QueueLoop, Do, Truthful, Live;
    ms := [];
    if c.Dropped? {
      if DroppedWaiting(st, c.kind, c.env, c.forBlocks) != st {
        ms := ThreeLooks(st);
      }
    } else if c.env.ready.Ok? && (c.Continuous? ==> !c.sinkPoisoned) {
      ms := ScanInnerMoves(st, c.kind, c.env.scan, chain, ledger);
      var (scanned, r) := ScanInner(st, c.kind, c.env.scan);
      var say := Say(if r.Err? then Error(r.error) else Finished(c.Continuous?), c.env.closing);
      LeadsBy(scanned, say);
      SayMoves(scanned, say.event, say.how);
      var closed := Send(scanned, say.event, say.how).0;
      LeadsOn(st, ms, scanned, [say], closed);
      OrderlyConcat(ms, [say]);
      ms := ms + [say];
      if c.Continuous? && r.Ok? && !c.env.closing.Poisoned? {
        var turns := QueueLoopMoves(closed, c.tape, 0, chain);
        LeadsOn(st, ms, closed, turns, QueueLoop(closed, c.tape, 0).0);
        OrderlyConcat(ms, turns);
        ms := ms + turns;
      }
    }
  }

  lemma {:induction false} SayMoves(st: ClientState, e: ScanEvent, how: SendOutcome)
    requires ValidCheckPoint(st.checkpoint) && !e.WalletUpdate?
    ensures Do(st, Say(e, how)) == Send(st, e, how).0
  {
  }

  /** A whole history is one run of orderly moves; outside of a move the graph is always drained. */
  lemma {:induction false} HistoryMoves(st: ClientState, calls: seq<Call>, chain: Chain, ledger: Ledger)
    returns (ms: seq<Move>)
    requires st.Valid() && Callable(st, calls)
    ensures Leads(st, ms, RunCalls(st, calls)) && Orderly(ms)
    ensures (forall c :: c in calls ==> CallTruthful(c, chain, ledger)) ==> AllPlace(ms, chain)
    ensures (forall c :: c in calls ==> CallLive(c)) ==> AllArrive(ms)
    decreases |calls|
  {
    hide RunCall, Do, CallTruthful, CallLive;
    ms := [];
    if calls != [] {
      var init, c := calls[..|calls| - 1], calls[|calls| - 1];
      assert c in calls && Callable(st, init);
      var before := HistoryMoves(st, init, chain, ledger);
      var mid := RunCalls(st, init);
      var after := CallMoves(mid, c, chain, ledger);
      LeadsOn(st, before, mid, after, RunCall(mid, c));
      OrderlyConcat(before, after);
      ms := before + after;
    }
  }
}
