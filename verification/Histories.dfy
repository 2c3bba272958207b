/**
  Laws of everything a client ever sends, over any sequence of calls with any
  outcomes.
 */
module Histories {
  import opened Wrappers
  import opened Blocks
  import opened CheckPoints
  import opened KeychainIndex
  import opened TxGraphs
  import opened Scanning
  import opened Traces

  // ---- Checkpoints and anchors agree

  /** One block at most, that block is a checkpoint of the update, and every transaction is anchored in it. */
  ghost predicate Agrees(u: Update) {
    && ValidCheckPoint(u.chain)
    && (forall a :: a in u.graph.anchors ==> a.block in u.chain)
    && (forall a, b :: a in u.graph.anchors && b in u.graph.anchors ==> a.block == b.block)
    && (forall t :: t in u.graph.txs ==> exists a :: a in u.graph.anchors && a.txid == t.txid)
  }

  ghost predicate AllAgree(es: seq<ScanEvent>) {
    forall k :: 0 <= k < |es| && es[k].WalletUpdate? ==> Agrees(es[k].update)
  }

  /** Everything in the graph comes from this block and is anchored in it. */
  ghost predicate Stems(g: TxGraph, block: Block, height: nat) {
    && (forall t :: t in g.txs ==> t in block.txs && Anchor(t.txid, BlockId(height, block.hash)) in g.anchors)
    && (forall a :: a in g.anchors ==> a.block == BlockId(height, block.hash))
  }

  lemma {:induction false} AppliedAgrees(st: ClientState, block: Block, height: nat)
    requires st.Valid() && (height == 0 ==> block.hash == st.checkpoint[0].hash)
    ensures var after := st.WithIndexed(ApplyBlock(st.Indexed(), block, height));
            Agrees(after.MoveTo(BlockId(height, block.hash)).PendingUpdate())
    ensures Stems(ApplyBlock(st.Indexed(), block, height).graph, block, height)
  {
    var b := BlockId(height, block.hash);
    InsertTip(st.checkpoint, b);
    ApplyTxsGrows(st.Indexed(), b, block.txs);
  }

  /** What sending an update adds to the events. */
  lemma {:induction false} FlushEmits(st: ClientState, how: SendOutcome)
    requires ValidCheckPoint(st.checkpoint)
    ensures var fin := Flush(st, how).0;
            && fin.Valid() && fin.checkpoint == st.checkpoint && fin.index == st.index
            && EventsOf(fin.log) ==
               EventsOf(st.log) + if how.Delivered? then [WalletUpdate(st.PendingUpdate())] else []
  {
    EventsOfSnoc(st.log, Emitted(WalletUpdate(st.PendingUpdate())));
  }

  /** What one move adds to the events. */
  lemma {:induction false} MoveEmits(st: ClientState, m: Move)
    returns (e: Option<ScanEvent>)
    requires st.Valid() && Can(st.checkpoint[0], m)
    ensures Do(st, m).Valid()
    ensures EventsOf(Do(st, m).log) == EventsOf(st.log) + if e.Some? then [e.value] else []
    ensures m.Look? ==> e == None
    ensures m.Say? && e.Some? ==> e.value == m.event
    ensures (m.Apply? || m.Close?) && e.Some? ==>
              e.value.WalletUpdate? && e.value.update.chain == Do(st, m).checkpoint && Agrees(e.value.update)
              && e.value.update.lastActive == Do(st, m).index.lastUsed
    ensures m.Apply? && e.Some? ==> Stems(e.value.update.graph, m.block, m.height)
                                    && e.value.update.graph == ApplyBlock(st.Indexed(), m.block, m.height).graph
    ensures m.Close? && e.Some? ==> e.value.update.graph == EMPTY_GRAPH
    ensures (m.Apply? && m.how.Delivered?) || (m.Close? && m.how.Delivered?) ==> e.Some?
    ensures m.Look? || m.Say? || m.Close? ==> Do(st, m).index == st.index
  {
    hide EventsOf, ApplyBlock, Insert, Flush;
    match m {
      case Look(b) =>
        EventsOfSnoc(st.log, Saw(b));
        e := None;
      case Say(event, how) =>
        EventsOfSnoc(st.log, Emitted(event));
        e := if how.Delivered? then Some(event) else None;
      case Close(stop, hash, how) =>
        var moved := st.MoveTo(BlockId(stop, hash));
        FlushEmits(moved, how);
        e := if how.Delivered? then Some(WalletUpdate(moved.PendingUpdate())) else None;
      case Apply(block, height, how) =>
        var moved := st.WithIndexed(ApplyBlock(st.Indexed(), block, height)).MoveTo(BlockId(height, block.hash));
        FlushEmits(moved, how);
        AppliedAgrees(st, block, height);
        e := if how.Delivered? then Some(WalletUpdate(moved.PendingUpdate())) else None;
    }
  }

  lemma {:induction false} MovesAgree(st: ClientState, ms: seq<Move>)
    requires st.Valid() && AllCan(st.checkpoint[0], ms) && AllAgree(EventsOf(st.log))
    ensures DoAll(st, ms).Valid() && AllAgree(EventsOf(DoAll(st, ms).log))
  {
    hide Do, Agrees, EventsOf;
    if ms != [] {
      MovesAgree(st, ms[..|ms| - 1]);
      var _ := MoveEmits(DoAll(st, ms[..|ms| - 1]), ms[|ms| - 1]);
    }
  }

  /**
    In every update ever sent, by any calls with any answers, checkpoints and
    anchors agree; the graph ends drained.
   */
  lemma {:induction false} EveryUpdateAgrees(st: ClientState, calls: seq<Call>)
    requires st.Valid() && Callable(st, calls) && AllAgree(EventsOf(st.log))
    ensures RunCalls(st, calls).graph == EMPTY_GRAPH
    ensures AllAgree(EventsOf(RunCalls(st, calls).log))
  {
    var ms := HistoryMoves(st, calls, [], p => Foreign(0));
    MovesAgree(st, ms);
  }

  // ---- On one chain, checkpoints only grow

  ghost predicate Extends(a: CheckPoint, b: CheckPoint) {
    |a| > 0 && |b| > 0 && TipHeight(a) <= TipHeight(b) && forall x :: x in a ==> x in b
  }

  /** Each update's chain includes all earlier ones, and the client's own chain includes them all. */
  ghost predicate Nested(es: seq<ScanEvent>, c: CheckPoint) {
    && (forall k :: 0 <= k < |es| && es[k].WalletUpdate? ==> Extends(es[k].update.chain, c))
    && (forall j, k :: 0 <= j < k < |es| && es[j].WalletUpdate? && es[k].WalletUpdate? ==>
          Extends(es[j].update.chain, es[k].update.chain))
  }

  lemma {:induction false} MoveExtends(st: ClientState, m: Move, chain: Chain)
    requires st.Valid() && Can(st.checkpoint[0], m) && OnChain(st.checkpoint, chain) && Places(m, chain)
    ensures OnChain(Do(st, m).checkpoint, chain) && Extends(st.checkpoint, Do(st, m).checkpoint)
  {
    hide ApplyBlock, Insert;
    match m {
      case Apply(block, height, _) => InsertOnChain(st.checkpoint, BlockId(height, block.hash), chain);
      case Close(stop, hash, _) => InsertOnChain(st.checkpoint, BlockId(stop, hash), chain);
      case _ =>
    }
  }

  lemma {:induction false} NestedSnoc(es: seq<ScanEvent>, c: CheckPoint, d: CheckPoint, e: Option<ScanEvent>)
    requires Nested(es, c) && Extends(c, d)
    requires e.Some? && e.value.WalletUpdate? ==> e.value.update.chain == d
    ensures Nested(es + if e.Some? then [e.value] else [], d)
  {
  }

  lemma {:induction false} MovesNest(st: ClientState, ms: seq<Move>, chain: Chain)
    requires st.Valid() && AllCan(st.checkpoint[0], ms)
    requires OnChain(st.checkpoint, chain) && AllPlace(ms, chain) && Nested(EventsOf(st.log), st.checkpoint)
    ensures var fin := DoAll(st, ms);
            && fin.Valid() && OnChain(fin.checkpoint, chain) && Extends(st.checkpoint, fin.checkpoint)
            && Nested(EventsOf(fin.log), fin.checkpoint)
  {
    hide Do, Nested, EventsOf;
    if ms != [] {
      var init, m := ms[..|ms| - 1], ms[|ms| - 1];
      MovesNest(st, init, chain);
      var mid := DoAll(st, init);
      assert Places(m, chain) && Can(mid.checkpoint[0], m);
      MoveExtends(mid, m, chain);
      var e := MoveEmits(mid, m);
      NestedSnoc(EventsOf(mid.log), mid.checkpoint, Do(mid, m).checkpoint, e);
    }
  }

  /** Each update is empty or stems from one block of the chain. */
  ghost predicate AllStem(es: seq<ScanEvent>, chain: Chain) {
    forall k :: 0 <= k < |es| && es[k].WalletUpdate? ==>
      es[k].update.graph == EMPTY_GRAPH || exists h :: 0 <= h < |chain| && Stems(es[k].update.graph, chain[h], h)
  }

  lemma {:induction false} MovesStem(st: ClientState, ms: seq<Move>, chain: Chain)
    requires st.Valid() && AllCan(st.checkpoint[0], ms)
    requires AllPlace(ms, chain) && AllStem(EventsOf(st.log), chain)
    ensures DoAll(st, ms).Valid() && AllStem(EventsOf(DoAll(st, ms).log), chain)
  {
    hide Do, EventsOf, Agrees, Stems;
    if ms != [] {
      var init, m := ms[..|ms| - 1], ms[|ms| - 1];
      MovesStem(st, init, chain);
      assert Places(m, chain);
      var _ := MoveEmits(DoAll(st, init), m);
    }
  }

  /** Nothing is invented: every update tells of one block of the chain, or of none. */
  lemma {:induction false} NothingInvented(st: ClientState, calls: seq<Call>, chain: Chain, ledger: Ledger)
    requires st.Valid() && Callable(st, calls)
    requires forall c :: c in calls ==> CallTruthful(c, chain, ledger)
    requires AllStem(EventsOf(st.log), chain)
    ensures AllStem(EventsOf(RunCalls(st, calls).log), chain)
  {
    var ms := HistoryMoves(st, calls, chain, ledger);
    MovesStem(st, ms, chain);
  }

  // ---- What an index knows is never forgotten

  lemma {:induction false} MovesGrowIndex(st: ClientState, ms: seq<Move>)
    requires st.Valid() && AllCan(st.checkpoint[0], ms)
    ensures DoAll(st, ms).Valid() && Le(st.index, DoAll(st, ms).index)
  {
    hide Do, Le;
    assert Le(st.index, st.index) by { LeReflexive(st.index); }
    if ms != [] {
      var init, m := ms[..|ms| - 1], ms[|ms| - 1];
      MovesGrowIndex(st, init);
      var mid := DoAll(st, init);
      MoveGrowsIndex(mid, m);
      LeTransitive(st.index, mid.index, Do(mid, m).index);
    }
  }

  lemma {:induction false} LeReflexive(i: Index)
    ensures Le(i, i)
  {
  }

  lemma {:induction false} LeTransitive(a: Index, b: Index, c: Index)
    requires Le(a, b) && Le(b, c)
    ensures Le(a, c)
  {
  }

  lemma {:induction false} MoveGrowsIndex(st: ClientState, m: Move)
    requires st.Valid() && Can(st.checkpoint[0], m)
    ensures Do(st, m).Valid() && Le(st.index, Do(st, m).index)
  {
    hide Insert, Le;
    LeReflexive(st.index);
    if m.Apply? {
      ApplyTxsGrows(st.Indexed(), BlockId(m.height, m.block.hash), m.block.txs);
    }
  }

  lemma {:induction false} CallGrowsIndex(st: ClientState, c: Call)
    requires st.Valid() && GenesisAgrees(st.checkpoint, c.env.scan)
    ensures Le(st.index, RunCall(st, c).index)
  {
    hide Le, RunCall;
    var ms := CallMoves(st, c, [], p => Foreign(0));
    MovesGrowIndex(st, ms);
  }

  /** Whatever calls are made, the index only learns. */
  lemma {:induction false} IndexGrows(st: ClientState, calls: seq<Call>)
    requires st.Valid() && Callable(st, calls)
    ensures RunCalls(st, calls).Valid() && Le(st.index, RunCalls(st, calls).index)
  {
    hide Le, RunCalls;
    var ms := HistoryMoves(st, calls, [], p => Foreign(0));
    MovesGrowIndex(st, ms);
  }

  // ---- Last used indices

  /** The last used indices that the wallet has been told most recently. */
  function LastTold(es: seq<ScanEvent>, first: map<Keychain, nat>): map<Keychain, nat> {
    if es == [] then first
    else if es[|es| - 1].WalletUpdate? then es[|es| - 1].update.lastActive
    else LastTold(es[..|es| - 1], first)
  }

  lemma {:induction false} LastToldSnoc(es: seq<ScanEvent>, e: ScanEvent, first: map<Keychain, nat>)
    ensures LastTold(es + [e], first) == if e.WalletUpdate? then e.update.lastActive else LastTold(es, first)
  {
    assert (es + [e])[..|es|] == es;
  }

  lemma {:induction false} MovesInform(st: ClientState, ms: seq<Move>, first: map<Keychain, nat>)
    requires st.Valid() && AllCan(st.checkpoint[0], ms) && AllArrive(ms)
    requires LastTold(EventsOf(st.log), first) == st.index.lastUsed
    ensures DoAll(st, ms).Valid()
    ensures LastTold(EventsOf(DoAll(st, ms).log), first) == DoAll(st, ms).index.lastUsed
  {
    hide Do, EventsOf, Agrees, Stems, LastTold;
    if ms != [] {
      var init, m := ms[..|ms| - 1], ms[|ms| - 1];
      MovesInform(st, init, first);
      var mid := DoAll(st, init);
      var e := MoveEmits(mid, m);
      if e.Some? {
        LastToldSnoc(EventsOf(mid.log), e.value, first);
      } else {
        assert EventsOf(mid.log) + [] == EventsOf(mid.log);
      }
    }
  }

  /** The wallet's last used indices are never behind the client's, over any sequence of calls whose events arrive. */
  lemma {:induction false} WalletKnowsLastUsed(st: ClientState, calls: seq<Call>)
    requires st.Valid() && Callable(st, calls) && st.log == []
    requires forall c :: c in calls ==> CallLive(c)
    ensures var fin := RunCalls(st, calls); LastTold(EventsOf(fin.log), st.index.lastUsed) == fin.index.lastUsed
  {
    var ms := HistoryMoves(st, calls, [], p => Foreign(0));
    MovesInform(st, ms, st.index.lastUsed);
  }

  /** While the node tells the truth about one chain, no checkpoint is ever taken back and the tip never falls. */
  lemma {:induction false} CheckpointsGrow(st: ClientState, calls: seq<Call>, chain: Chain, ledger: Ledger)
    requires st.Valid() && Callable(st, calls) && OnChain(st.checkpoint, chain)
    requires forall c :: c in calls ==> CallTruthful(c, chain, ledger)
    requires Nested(EventsOf(st.log), st.checkpoint)
    ensures var fin := RunCalls(st, calls);
            && OnChain(fin.checkpoint, chain) && Extends(st.checkpoint, fin.checkpoint)
            && Nested(EventsOf(fin.log), fin.checkpoint)
  {
    var ms := HistoryMoves(st, calls, chain, ledger);
    MovesNest(st, ms, chain);
  }

  // ---- The grammar of events

  ghost predicate OnlyUpdates(es: seq<ScanEvent>) {
    forall k :: 0 <= k < |es| ==> es[k].WalletUpdate?
  }

  /** WalletUpdate* Error, or WalletUpdate* Finished(false) */
  ghost predicate ScanWord(w: seq<ScanEvent>) {
    |w| > 0 && OnlyUpdates(w[..|w| - 1]) && (w[|w| - 1] == Finished(false) || w[|w| - 1].Error?)
  }

  /** Wallet updates whose tips rise strictly, all above a given height. */
  ghost predicate Climbs(es: seq<ScanEvent>, floor: nat) {
    && OnlyUpdates(es)
    && (forall k :: 0 <= k < |es| ==> |es[k].update.chain| > 0 && floor < TipHeight(es[k].update.chain))
    && (forall j, k :: 0 <= j < k < |es| ==> TipHeight(es[j].update.chain) < TipHeight(es[k].update.chain))
  }

  /** WalletUpdate* Error, or WalletUpdate* Finished(true) WalletUpdate* with a climbing last part. */
  ghost predicate ContinuousWord(w: seq<ScanEvent>, n: nat, floor: nat) {
    && n < |w| && OnlyUpdates(w[..n])
    && ((w[n].Error? && n + 1 == |w|) || (w[n] == Finished(true) && Climbs(w[n + 1..], floor)))
  }

  lemma {:induction false} QuietMovesEmitUpdates(st: ClientState, ms: seq<Move>)
    returns (w: seq<ScanEvent>)
    requires st.Valid() && AllCan(st.checkpoint[0], ms) && NoSay(ms)
    ensures DoAll(st, ms).Valid()
    ensures EventsOf(DoAll(st, ms).log) == EventsOf(st.log) + w && OnlyUpdates(w)
  {
    hide Do, EventsOf;
    w := [];
    if ms != [] {
      w := QuietMovesEmitUpdates(st, ms[..|ms| - 1]);
      var e := MoveEmits(DoAll(st, ms[..|ms| - 1]), ms[|ms| - 1]);
      if e.Some? {
        w := w + [e.value];
      }
    }
  }

  lemma {:induction false} ScanInnerEmitsUpdates(st: ClientState, kind: ScanKind, env: ScanEnv)
    returns (w: seq<ScanEvent>)
    requires st.Valid() && GenesisAgrees(st.checkpoint, env)
    ensures ScanInner(st, kind, env).0.Valid()
    ensures EventsOf(ScanInner(st, kind, env).0.log) == EventsOf(st.log) + w && OnlyUpdates(w)
  {
    hide ScanInner, DoAll;
    var ms := ScanInnerMoves(st, kind, env, [], p => Foreign(0));
    w := QuietMovesEmitUpdates(st, ms);
  }

  /** Past readiness and with a live receiver, every scan emits one word of its grammar. */
  lemma {:induction false} ScanEmitsWord(st: ClientState, kind: ScanKind, env: CallEnv)
    returns (w: seq<ScanEvent>)
    requires st.Valid() && GenesisAgrees(st.checkpoint, env.scan)
    requires env.ready.Ok? && env.closing.Delivered?
    ensures var (fin, r) := Scan(st, kind, env);
            && fin.Valid() && EventsOf(fin.log) == EventsOf(st.log) + w && ScanWord(w)
            && (r.Ok? <==> w[|w| - 1] == Finished(false))
  {
    hide ScanInner, EventsOf;
    var us := ScanInnerEmitsUpdates(st, kind, env.scan);
    var (scanned, r) := ScanInner(st, kind, env.scan);
    var e := if r.Ok? then Finished(false) else Error(r.error);
    EventsOfSnoc(scanned.log, Emitted(e));
    w := us + [e];
    assert w[..|w| - 1] == us;
  }

  lemma {:induction false} QueueOneClimbs(st: ClientState, turn: Selected)
    returns (w: seq<ScanEvent>)
    requires st.Valid()
    ensures var fin := QueueOne(st, turn).0;
            && fin.Valid() && EventsOf(fin.log) == EventsOf(st.log) + w && |w| <= 1
            && TipHeight(st.checkpoint) <= TipHeight(fin.checkpoint) && Climbs(w, TipHeight(st.checkpoint))
            && (w != [] ==> TipHeight(w[0].update.chain) == TipHeight(fin.checkpoint))
  {
    hide EventsOf, Advance, Agrees;
    EventsOfSnoc(st.log, Saw(turn.Cancelled?));
    w := [];
    if turn.Received? && Takes(TipHeight(st.checkpoint), turn.height) {
      var seen, m := st.Looked(false), Apply(turn.block, turn.height, turn.send);
      AdvanceTip(seen, turn.block, turn.height, turn.send);
      var e := MoveEmits(seen, m);
      w := if e.Some? then [e.value] else [];
    }
  }

  lemma {:induction false} QueueLoopClimbs(st: ClientState, tape: seq<Selected>, t: nat)
    returns (w: seq<ScanEvent>)
    requires t <= |tape| && st.Valid()
    ensures var fin := QueueLoop(st, tape, t).0;
            EventsOf(fin.log) == EventsOf(st.log) + w && Climbs(w, TipHeight(st.checkpoint))
    decreases |tape| - t
  {
    hide QueueOne, EventsOf;
    w := [];
    if t < |tape| {
      w := QueueOneClimbs(st, tape[t]);
      var (next, r) := QueueOne(st, tape[t]);
      if r.Ok? {
        var rest := QueueLoopClimbs(next, tape, t + 1);
        w := w + rest;
      }
    }
  }

  /** Past readiness and with a live receiver, every continuous scan emits one word of its grammar. */
  lemma {:induction false} ContinuousEmitsWord(st: ClientState, kind: ScanKind, env: CallEnv, tape: seq<Selected>)
    returns (w: seq<ScanEvent>, n: nat)
    requires st.Valid() && GenesisAgrees(st.checkpoint, env.scan)
    requires env.ready.Ok? && env.closing.Delivered?
    ensures var (fin, r) := ScanContinuous(st, kind, env, false, tape);
            && EventsOf(fin.log) == EventsOf(st.log) + w
            && ContinuousWord(w, n, TipHeight(ScanInner(st, kind, env.scan).0.checkpoint))
            && (w[n] == Finished(true) <==> ScanInner(st, kind, env.scan).1.Ok?)
  {
    hide ScanInner, QueueLoop, EventsOf, Climbs;
    var us := ScanInnerEmitsUpdates(st, kind, env.scan);
    var (scanned, r) := ScanInner(st, kind, env.scan);
    var e := if r.Ok? then Finished(true) else Error(r.error);
    var closed := Send(scanned, e, env.closing).0;
    EventsOfSnoc(scanned.log, Emitted(e));
    n, w := |us|, us + [e];
    if r.Ok? {
      var tail := QueueLoopClimbs(closed, tape, 0);
      w := w + tail;
      assert w[n + 1..] == tail;
    }
    assert w[..n] == us;
  }

  // ---- Concatenations of words

  /**
    What a call emits: nothing, if it never gets past readiness and attachment or
    is dropped while it waits, or a word of its grammar.
   */
  ghost predicate CallWord(c: Call, w: seq<ScanEvent>) {
    if c.Dropped? || c.env.ready.Err? || (c.Continuous? && c.sinkPoisoned) then w == []
    else if c.OneScan? then ScanWord(w)
    else exists n, floor :: ContinuousWord(w, n, floor)
  }

  function Flatten(ws: seq<seq<ScanEvent>>): seq<ScanEvent> {
    if ws == [] then [] else Flatten(ws[..|ws| - 1]) + ws[|ws| - 1]
  }

  /** Any sequence of calls emits the concatenation of one word for each. */
  lemma {:induction false} HistoryEmitsWords(st: ClientState, calls: seq<Call>)
    returns (ws: seq<seq<ScanEvent>>)
    requires st.Valid() && Callable(st, calls)
    requires forall c :: c in calls ==> c.Dropped? || c.env.closing.Delivered?
    ensures RunCalls(st, calls).Valid()
    ensures |ws| == |calls| && forall k :: 0 <= k < |calls| ==> CallWord(calls[k], ws[k])
    ensures EventsOf(RunCalls(st, calls).log) == EventsOf(st.log) + Flatten(ws)
    decreases |calls|
  {
    hide RunCall, EventsOf, CallWord;
    ws := [];
    if calls != [] {
      var init, c := calls[..|calls| - 1], calls[|calls| - 1];
      assert c in calls;
      var before := HistoryEmitsWords(st, init);
      var w := CallEmitsWord(RunCalls(st, init), c);
      ws := before + [w];
      assert ws[..|ws| - 1] == before;
    }
  }

  lemma {:induction false} CallEmitsWord(st: ClientState, c: Call)
    returns (w: seq<ScanEvent>)
    requires st.Valid() && GenesisAgrees(st.checkpoint, c.env.scan)
    requires c.Dropped? || c.env.closing.Delivered?
    ensures RunCall(st, c).Valid()
    ensures EventsOf(RunCall(st, c).log) == EventsOf(st.log) + w && CallWord(c, w)
  {
    hide ScanInner, QueueLoop, EventsOf, ScanWord, ContinuousWord;
    w := [];
    if c.Dropped? {
      DroppedCallIsInert(st, c.kind, c.env, c.forBlocks);
    } else if c.env.ready.Ok? {
      match c {
        case Dropped(_, _, _) =>
        case OneScan(kind, env) => w := ScanEmitsWord(st, kind, env);
        case Continuous(kind, env, poisoned, tape) =>
          if !poisoned {
            var n: nat;
            w, n := ContinuousEmitsWord(st, kind, env, tape);
            assert ContinuousWord(w, n, TipHeight(ScanInner(st, kind, env.scan).0.checkpoint));
          }
      }
    }
    var _ := CallMoves(st, c, [], p => Foreign(0));
  }
}
