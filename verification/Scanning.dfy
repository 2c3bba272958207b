/**
  What a client's scans compute, as functions of the client's state and of
  everything the scan observes: the node's answers, the moments of
  cancellation and the fate of each event sent.
 */
module Scanning {
  import opened Wrappers
  import opened Blocks
  import opened CheckPoints
  import opened KeychainIndex
  import opened TxGraphs
  import opened NodeQueries
  import Fsm

  // ---- Events and errors

  datatype ClientError =
    | ScanAborted
    | InvalidRange(start: nat, stop: nat)
    | NoExternal
    | Unresponsive
    | PoisonedLock
    | Node(error: NodeError)

  datatype Outcome = Ok | Err(error: ClientError)

  datatype Update = Update(graph: TxGraph, lastActive: map<Keychain, nat>, chain: CheckPoint)

  datatype ScanEvent =
    | WalletUpdate(update: Update)
    | Finished(keepGoing: bool)
    | Error(error: ClientError)

  /** One entry of a client's history: a look at the cancellation token, or an event delivered. */
  datatype Obs = Saw(cancelled: bool) | Emitted(event: ScanEvent)

  /** `NoSender` covers a sender slot already taken and a receiver already dropped. */
  datatype SendOutcome = Delivered | NoSender | Poisoned

  // ---- State

  datatype ClientState = ClientState(checkpoint: CheckPoint, index: Index, graph: TxGraph, log: seq<Obs>) {
    function Looked(cancelled: bool): ClientState { this.(log := log + [Saw(cancelled)]) }

    function Indexed(): IndexedGraph { IndexedGraph(index, graph) }

    function WithIndexed(g: IndexedGraph): ClientState { this.(index := g.index, graph := g.graph) }

    function MoveTo(b: BlockId): ClientState
      requires ValidCheckPoint(checkpoint) && (b.height == 0 ==> b == checkpoint[0])
    {
      this.(checkpoint := Insert(checkpoint, b))
    }

    function PendingUpdate(): Update { Update(graph, index.lastUsed, checkpoint) }

    /** `finish_update`: the graph is drained, the index is kept. */
    function Drained(): ClientState { this.(graph := EMPTY_GRAPH) }

    ghost predicate Valid() { ValidCheckPoint(checkpoint) && graph == EMPTY_GRAPH }
  }

  /** `send_event` */
  function Send(st: ClientState, e: ScanEvent, how: SendOutcome): (ClientState, Outcome) {
    match how
    case Poisoned => (st, Err(PoisonedLock))
    case NoSender => (st, Ok)
    case Delivered => (st.(log := st.log + [Emitted(e)]), Ok)
  }

  /** Drain the graph into an update and send it. */
  function Flush(st: ClientState, how: SendOutcome): (ClientState, Outcome) {
    Send(st.Drained(), WalletUpdate(st.PendingUpdate()), how)
  }

  // ---- The filter scan

  datatype ScanKind =
    | Sync
    | FullScan(customLookahead: Option<U32>)
    | Custom(startHeight: nat, lookahead: U32)

  /**
    All that one filter scan observes. `matched` answers a filter query for
    scripts, start and stop height; `cancelledAt` and `send` take the position
    of a fetched block.
   */
  datatype ScanEnv = ScanEnv(
    filterHeight: Result<nat, NodeError>,
    cancelledBeforeMatch: bool,
    nodeState: Fsm.State,
    filterTip: Result<nat, NodeError>,
    matched: (seq<Script>, nat, nat) -> Result<seq<Hash>, NodeError>,
    cancelledAfterMatch: bool,
    cancelledInFetch: bool,
    answers: Hash -> Answer,
    cancelledAt: nat -> bool,
    heightOf: (nat, Hash) -> Result<nat, NodeError>,
    send: nat -> SendOutcome,
    stopHash: Result<Hash, NodeError>)

  /** The node knows one genesis block, the wallet's: their networks are equal. */
  ghost predicate GenesisAgrees(c: CheckPoint, env: ScanEnv)
    requires |c| > 0
  {
    forall i: nat, x: Hash :: env.heightOf(i, x) == Success(0) ==> x == c[0].hash
  }

  function StartHeight(st: ClientState, kind: ScanKind): nat
    requires |st.checkpoint| > 0
  {
    match kind
    case Sync => TipHeight(st.checkpoint)
    case FullScan(_) => 0
    case Custom(h, _) => h
  }

  function Lookahead(i: Index, kind: ScanKind): U32 {
    match kind
    case Sync => i.lookahead
    case FullScan(None) => FULL_SCAN_LOOKAHEAD
    case FullScan(Some(n)) => n
    case Custom(_, n) => n
  }

  /** Apply a block, move the checkpoint to it and send what it contributed. */
  function Advance(st: ClientState, block: Block, height: nat, how: SendOutcome): (out: (ClientState, Outcome))
    requires ValidCheckPoint(st.checkpoint)
    requires height == 0 ==> block.hash == st.checkpoint[0].hash
    ensures ValidCheckPoint(out.0.checkpoint) && out.0.checkpoint[0] == st.checkpoint[0]
  {
    var after := ApplyBlock(st.Indexed(), block, height);
    Flush(st.WithIndexed(after).MoveTo(BlockId(height, block.hash)), how)
  }

  /** Applying a block above the tip makes it the tip. */
  lemma {:induction false} AdvanceTip(st: ClientState, block: Block, height: nat, how: SendOutcome)
    requires ValidCheckPoint(st.checkpoint) && TipHeight(st.checkpoint) < height
    ensures TipHeight(Advance(st, block, height, how).0.checkpoint) == height
  {
    InsertTip(st.checkpoint, BlockId(height, block.hash));
  }

  /** One turn of the loop over the fetched blocks; a block that changes nothing is passed over. */
  function ScanOne(st: ClientState, block: Block, j: nat, env: ScanEnv): (out: (ClientState, Outcome))
    requires ValidCheckPoint(st.checkpoint) && GenesisAgrees(st.checkpoint, env)
    ensures ValidCheckPoint(out.0.checkpoint) && out.0.checkpoint[0] == st.checkpoint[0]
  {
    if env.cancelledAt(j) then (st.Looked(true), Err(ScanAborted))
    else match env.heightOf(j, block.hash)
      case Failure(e) => (st.Looked(false), Err(Node(e)))
      case Success(height) =>
        var seen := st.Looked(false);
        var after := ApplyBlock(seen.Indexed(), block, height);
        if Changes(seen.Indexed(), after).IsEmpty() then (seen.WithIndexed(after), Ok)
        else Advance(seen, block, height, env.send(j))
  }

  /** Apply the fetched blocks from position i on, one update per relevant block. */
  function ScanBlocks(st: ClientState, blocks: seq<Block>, i: nat, env: ScanEnv): (out: (ClientState, Outcome))
    requires i <= |blocks| && ValidCheckPoint(st.checkpoint) && GenesisAgrees(st.checkpoint, env)
    ensures ValidCheckPoint(out.0.checkpoint) && out.0.checkpoint[0] == st.checkpoint[0]
    decreases |blocks| - i
  {
    if i == |blocks| then (st, Ok)
    else
      var (next, r) := ScanOne(st, blocks[i], i, env);
      if r.Err? then (next, r) else ScanBlocks(next, blocks, i + 1, env)
  }

  /** Leave a checkpoint at the stop height if no relevant block did. */
  function CloseRange(st: ClientState, stop: nat, env: ScanEnv, sends: nat): (out: (ClientState, Outcome))
    requires ValidCheckPoint(st.checkpoint)
    ensures ValidCheckPoint(out.0.checkpoint) && out.0.checkpoint[0] == st.checkpoint[0]
  {
    if TipHeight(st.checkpoint) >= stop then (st, Ok)
    else match env.stopHash
      case Failure(e) => (st, Err(Node(e)))
      case Success(hash) => Flush(st.MoveTo(BlockId(stop, hash)), env.send(sends))
  }

  /** The blocks that the node fetches, once its filters have matched. */
  function Fetch(st: ClientState, hashes: seq<Hash>, env: ScanEnv)
    : (out: (ClientState, Result<seq<Block>, ClientError>))
    ensures out.0.checkpoint == st.checkpoint && out.0.index == st.index && out.0.graph == st.graph
    ensures out.1.Success? ==> |out.1.value| == |hashes|
  {
    if hashes == [] then (st, Success([]))
    else if env.cancelledInFetch then (st.Looked(true), Failure(ScanAborted))
    else match FetchBlocks(hashes, env.answers)
      case Failure(e) => (st.Looked(false), Failure(Node(e)))
      case Success(bs) => (st.Looked(false), Success(bs))
  }

  /** From the matched hashes to the end of the scan. */
  function ScanMatched(st: ClientState, hashes: seq<Hash>, stop: nat, env: ScanEnv): (out: (ClientState, Outcome))
    requires ValidCheckPoint(st.checkpoint) && GenesisAgrees(st.checkpoint, env)
    ensures ValidCheckPoint(out.0.checkpoint) && out.0.checkpoint[0] == st.checkpoint[0]
  {
    var (fetched, blocks) := Fetch(st, hashes, env);
    match blocks
    case Failure(e) => (fetched, Err(e))
    case Success(bs) =>
      var (done, r) := ScanBlocks(fetched, bs, 0, env);
      if r.Err? then (done, r) else CloseRange(done, stop, env, |bs|)
  }

  /** `scan_inner` */
  function ScanInner(st: ClientState, kind: ScanKind, env: ScanEnv): (out: (ClientState, Outcome))
    requires ValidCheckPoint(st.checkpoint) && GenesisAgrees(st.checkpoint, env)
    ensures ValidCheckPoint(out.0.checkpoint) && out.0.checkpoint[0] == st.checkpoint[0]
  {
    var start := StartHeight(st, kind);
    var spks := DeriveSpks(st.index, Lookahead(st.index, kind));
    if spks.Failure? then (st, Err(NoExternal))
    else match env.filterHeight
      case Failure(e) => (st, Err(Node(e)))
      case Success(stop) =>
        if start > stop then (st, Err(InvalidRange(start, stop)))
        else if env.cancelledBeforeMatch then (st.Looked(true), Err(ScanAborted))
        else match MatchFilters(env.nodeState, env.filterTip, stop, env.matched(spks.value, start, stop))
          case Failure(e) => (st.Looked(false), Err(Node(e)))
          case Success(hashes) =>
            if env.cancelledAfterMatch then (st.Looked(false).Looked(true), Err(ScanAborted))
            else ScanMatched(st.Looked(false).Looked(false), hashes, stop, env)
  }

  // ---- Whole calls

  /** What a call observes: how waiting for readiness ended, the scan, the fate of the closing event. */
  datatype CallEnv = CallEnv(ready: Outcome, scan: ScanEnv, closing: SendOutcome)

  /** `scan` */
  function Scan(st: ClientState, kind: ScanKind, env: CallEnv): (out: (ClientState, Outcome))
    requires ValidCheckPoint(st.checkpoint) && GenesisAgrees(st.checkpoint, env.scan)
    ensures ValidCheckPoint(out.0.checkpoint) && out.0.checkpoint[0] == st.checkpoint[0]
  {
    if env.ready.Err? then (st, env.ready)
    else
      var (scanned, r) := ScanInner(st, kind, env.scan);
      var (closed, sent) := Send(scanned, if r.Ok? then Finished(false) else Error(r.error), env.closing);
      (closed, if sent.Err? then sent else r)
  }

  /** What one turn of the queue loop selects. */
  datatype Selected =
    | Cancelled
    | Closed
    | Received(block: Block, height: nat, send: SendOutcome)

  /** The queue loop takes a block exactly if it is above the client's tip. */
  predicate Takes(tip: nat, height: nat) { height > tip }

  /** One turn of the queue loop. */
  function QueueOne(st: ClientState, turn: Selected): (out: (ClientState, Outcome))
    requires ValidCheckPoint(st.checkpoint)
    ensures ValidCheckPoint(out.0.checkpoint) && out.0.checkpoint[0] == st.checkpoint[0]
  {
    match turn
    case Cancelled => (st.Looked(true), Err(ScanAborted))
    case Closed => (st.Looked(false), Err(Unresponsive))
    case Received(block, height, how) =>
      if Takes(TipHeight(st.checkpoint), height) then Advance(st.Looked(false), block, height, how)
      else (st.Looked(false), Ok)
  }

  /** The queue loop from turn i on; `None` means that it is still waiting. */
  function QueueLoop(st: ClientState, tape: seq<Selected>, i: nat): (out: (ClientState, Option<Outcome>))
    requires i <= |tape| && ValidCheckPoint(st.checkpoint)
    ensures ValidCheckPoint(out.0.checkpoint) && out.0.checkpoint[0] == st.checkpoint[0]
    decreases |tape| - i
  {
    if i == |tape| then (st, None)
    else
      var (next, r) := QueueOne(st, tape[i]);
      if r.Err? then (next, Some(r)) else QueueLoop(next, tape, i + 1)
  }

  /** `scan_continuous`, observed up to the end of the tape. */
  function ScanContinuous(st: ClientState, kind: ScanKind, env: CallEnv, sinkPoisoned: bool, tape: seq<Selected>)
    : (out: (ClientState, Option<Outcome>))
    requires ValidCheckPoint(st.checkpoint) && GenesisAgrees(st.checkpoint, env.scan)
    ensures ValidCheckPoint(out.0.checkpoint) && out.0.checkpoint[0] == st.checkpoint[0]
  {
    if env.ready.Err? then (st, Some(env.ready))
    else if sinkPoisoned then (st, Some(Err(PoisonedLock)))
    else
      var (scanned, r) := ScanInner(st, kind, env.scan);
      var (closed, sent) := Send(scanned, if r.Ok? then Finished(true) else Error(r.error), env.closing);
      if sent.Err? then (closed, Some(sent))
      else if r.Err? then (closed, Some(r))
      else QueueLoop(closed, tape, 0)
  }

  // ---- Calls dropped while they wait

  /** A scan of this kind gets as far as waiting for the blocks that its filters hit. */
  predicate WaitsForBlocks(st: ClientState, kind: ScanKind, env: ScanEnv)
    requires |st.checkpoint| > 0
  {
    var spks := DeriveSpks(st.index, Lookahead(st.index, kind));
    && spks.Success? && env.filterHeight.Success? && StartHeight(st, kind) <= env.filterHeight.value
    && !env.cancelledBeforeMatch && !env.cancelledAfterMatch
    && var hashes := MatchFilters(env.nodeState, env.filterTip, env.filterHeight.value,
                                  env.matched(spks.value, StartHeight(st, kind), env.filterHeight.value));
       hashes.Success? && hashes.value != []
  }

  /** The client after a call whose future was dropped while it waited: for readiness, or for blocks. */
  function DroppedWaiting(st: ClientState, kind: ScanKind, env: CallEnv, forBlocks: bool): ClientState
    requires |st.checkpoint| > 0
  {
    if forBlocks && env.ready.Ok? && WaitsForBlocks(st, kind, env.scan)
    then st.Looked(false).Looked(false).Looked(false)
    else st
  }

  /**
    That is where a scan stands while it waits: cancelled there instead, its
    third look sees it and nothing else differs.
   */
  lemma {:induction false} WaitingScan(st: ClientState, kind: ScanKind, env: ScanEnv)
    requires ValidCheckPoint(st.checkpoint) && GenesisAgrees(st.checkpoint, env)
    requires env.cancelledInFetch
    ensures WaitsForBlocks(st, kind, env) <==>
            ScanInner(st, kind, env) == (st.Looked(false).Looked(false).Looked(true), Err(ScanAborted))
  {
    hide DeriveSpks, Insert, FetchBlocks;
    EndsDiffer(st);
  }

  lemma {:induction false} EndsDiffer(st: ClientState)
    ensures |st.Looked(false).Looked(false).Looked(true).log| == |st.log| + 3
    ensures |st.Looked(true).log| == |st.log| + 1 && |st.Looked(false).Looked(true).log| == |st.log| + 2
    ensures |st.Looked(false).log| == |st.log| + 1
  {
  }

  // ---- Sequences of calls

  datatype Call =
    | OneScan(kind: ScanKind, env: CallEnv)
    | Continuous(kind: ScanKind, env: CallEnv, sinkPoisoned: bool, tape: seq<Selected>)
    | Dropped(kind: ScanKind, env: CallEnv, forBlocks: bool)

  function RunCall(st: ClientState, call: Call): (out: ClientState)
    requires ValidCheckPoint(st.checkpoint) && GenesisAgrees(st.checkpoint, call.env.scan)
    ensures ValidCheckPoint(out.checkpoint) && out.checkpoint[0] == st.checkpoint[0]
  {
    match call
    case OneScan(kind, env) => Scan(st, kind, env).0
    case Continuous(kind, env, poisoned, tape) => ScanContinuous(st, kind, env, poisoned, tape).0
    case Dropped(kind, env, forBlocks) => DroppedWaiting(st, kind, env, forBlocks)
  }

  /** A call dropped while it waits has told nothing and changed nothing. */
  lemma {:induction false} DroppedCallIsInert(st: ClientState, kind: ScanKind, env: CallEnv, forBlocks: bool)
    requires |st.checkpoint| > 0
    ensures var fin := DroppedWaiting(st, kind, env, forBlocks);
            && fin.checkpoint == st.checkpoint && fin.index == st.index && fin.graph == st.graph
            && EventsOf(fin.log) == EventsOf(st.log) && Told(fin) == Told(st)
            && fin.log == st.log + if forBlocks && env.ready.Ok? && WaitsForBlocks(st, kind, env.scan)
                                   then [Saw(false), Saw(false), Saw(false)] else []
  {
    EventsOfSnoc(st.log, Saw(false));
    EventsOfSnoc(st.Looked(false).log, Saw(false));
    EventsOfSnoc(st.Looked(false).Looked(false).log, Saw(false));
  }

  ghost predicate Callable(st: ClientState, calls: seq<Call>) {
    && ValidCheckPoint(st.checkpoint)
    && forall c :: c in calls ==> GenesisAgrees(st.checkpoint, c.env.scan)
  }

  /** The client after a sequence of calls, whatever their outcomes. */
  function RunCalls(st: ClientState, calls: seq<Call>): (out: ClientState)
    requires Callable(st, calls)
    ensures ValidCheckPoint(out.checkpoint) && out.checkpoint[0] == st.checkpoint[0]
  {
    if calls == [] then st
    else
      assert calls[|calls| - 1] in calls;
      RunCall(RunCalls(st, calls[..|calls| - 1]), calls[|calls| - 1])
  }

  // ---- Reading the log

  function EventsOf(log: seq<Obs>): seq<ScanEvent> {
    if log == [] then []
    else
      var rest := EventsOf(log[..|log| - 1]);
      match log[|log| - 1]
      case Saw(_) => rest
      case Emitted(e) => rest + [e]
  }

  lemma {:induction false} EventsOfSnoc(log: seq<Obs>, o: Obs)
    ensures EventsOf(log + [o]) == if o.Emitted? then EventsOf(log) + [o.event] else EventsOf(log)
  {
    assert (log + [o])[..|log|] == log;
  }

  /** All that the updates of an event sequence tell the wallet. */
  function Merged(es: seq<ScanEvent>): TxGraph {
    if es == [] then EMPTY_GRAPH
    else
      var rest := Merged(es[..|es| - 1]);
      match es[|es| - 1]
      case WalletUpdate(u) => rest.Union(u.graph)
      case _ => rest
  }

  lemma {:induction false} MergedSnoc(es: seq<ScanEvent>, e: ScanEvent)
    ensures Merged(es + [e]) == if e.WalletUpdate? then Merged(es).Union(e.update.graph) else Merged(es)
  {
    assert (es + [e])[..|es|] == es;
  }

  /** All that the client has told the wallet so far. */
  ghost function Told(st: ClientState): TxGraph {
    Merged(EventsOf(st.log))
  }
}
