/**
  The client as an object. Every method is proved to compute, on the client's
  fields, what the functions of `Scanning` say.
 */
module Clients {
  import opened Wrappers
  import opened Blocks
  import opened CheckPoints
  import opened KeychainIndex
  import opened TxGraphs
  import opened NodeQueries
  import opened BlockSinks
  import S = Scanning

  class Client {
    const subscribers: Subscribers
    var blockSink: Option<BlockSink>
    var checkpoint: CheckPoint
    var index: Index
    var graph: TxGraph
    ghost var log: seq<S.Obs>

    ghost predicate Valid()
      reads this
    {
      ValidCheckPoint(checkpoint)
    }

    ghost function State(): S.ClientState
      reads this
    {
      S.ClientState(checkpoint, index, graph, log)
    }

    ghost predicate SinkPoisoned()
      reads this, if blockSink.Some? then {blockSink.value} else {}
    {
      blockSink.Some? && blockSink.value.poisoned
    }

    constructor (subscribers: Subscribers, index: Index, checkpoint: CheckPoint)
      requires ValidCheckPoint(checkpoint)
      ensures Valid() && this.subscribers == subscribers && blockSink == None
      ensures State() == S.ClientState(checkpoint, index, EMPTY_GRAPH, [])
    {
      this.subscribers := subscribers;
      this.blockSink := None;
      this.checkpoint := checkpoint;
      this.index := index;
      this.graph := EMPTY_GRAPH;
      this.log := [];
    }

    /** Look at the cancellation token. */
    method Look(cancelled: bool) returns (c: bool)
      modifies this`log
      ensures c == cancelled && State() == old(State()).Looked(cancelled)
    {
      log := log + [S.Saw(cancelled)];
      c := cancelled;
    }

    method SendEvent(e: S.ScanEvent, how: S.SendOutcome) returns (r: S.Outcome)
      modifies this`log
      ensures (State(), r) == S.Send(old(State()), e, how)
    {
      match how {
        case Poisoned => r := S.Err(S.PoisonedLock);
        case NoSender => r := S.Ok;
        case Delivered =>
          log := log + [S.Emitted(e)];
          r := S.Ok;
      }
    }

    /** Turn the graph into an update and start over with the same index. */
    method FinishUpdate() returns (u: S.Update)
      modifies this`graph, this`index
      ensures u == old(State()).PendingUpdate() && State() == old(State()).Drained()
    {
      var txUpdate := graph;
      var lastActive := index.lastUsed;
      var taken := index;
      index := DefaultIndex();
      index, graph := taken, EMPTY_GRAPH;
      u := S.Update(txUpdate, lastActive, checkpoint);
    }

    method ApplyBlockRelevant(block: Block, height: nat) returns (changes: ChangeSet)
      modifies this`index, this`graph
      ensures var after := ApplyBlock(old(State()).Indexed(), block, height);
              State() == old(State()).WithIndexed(after) && changes == Changes(old(State()).Indexed(), after)
    {
      var before := IndexedGraph(index, graph);
      var after := ApplyBlock(before, block, height);
      index, graph := after.index, after.graph;
      changes := Changes(before, after);
    }

    method ScanInner(kind: S.ScanKind, env: S.ScanEnv) returns (r: S.Outcome)
      requires Valid() && S.GenesisAgrees(checkpoint, env)
      modifies this`checkpoint, this`index, this`graph, this`log
      ensures Valid() && (State(), r) == S.ScanInner(old(State()), kind, env)
    {
      var startHeight := S.StartHeight(S.ClientState(checkpoint, index, graph, []), kind);
      var spks := DeriveSpks(index, S.Lookahead(index, kind));
      if spks.Failure? {
        return S.Err(S.NoExternal);
      }
      if env.filterHeight.Failure? {
        return S.Err(S.Node(env.filterHeight.error));
      }
      var stopHeight := env.filterHeight.value;
      if startHeight > stopHeight {
        return S.Err(S.InvalidRange(startHeight, stopHeight));
      }
      var aborted := Look(env.cancelledBeforeMatch);
      if aborted {
        return S.Err(S.ScanAborted);
      }
      var matches := env.matched(spks.value, startHeight, stopHeight);
      var hashes := MatchFilters(env.nodeState, env.filterTip, stopHeight, matches);
      if hashes.Failure? {
        return S.Err(S.Node(hashes.error));
      }
      aborted := Look(env.cancelledAfterMatch);
      if aborted {
        return S.Err(S.ScanAborted);
      }
      ghost var matched := State();
      assert S.ScanInner(old(State()), kind, env) == S.ScanMatched(matched, hashes.value, stopHeight, env);
      var blocks := [];
      if hashes.value != [] {
        aborted := Look(env.cancelledInFetch);
        if aborted {
          return S.Err(S.ScanAborted);
        }
        var fetched := FetchBlocks(hashes.value, env.answers);
        if fetched.Failure? {
          return S.Err(S.Node(fetched.error));
        }
        blocks := fetched.value;
      }
      r := ApplyFetched(blocks, env);
      if r.Ok? {
        r := CloseRange(stopHeight, env, |blocks|);
      }
    }

    /** The end of `scan_inner`: leave a checkpoint at the stop height. */
    method CloseRange(stopHeight: nat, env: S.ScanEnv, sends: nat) returns (r: S.Outcome)
      requires Valid()
      modifies this`checkpoint, this`index, this`graph, this`log
      ensures Valid() && (State(), r) == S.CloseRange(old(State()), stopHeight, env, sends)
    {
      if TipHeight(checkpoint) >= stopHeight {
        return S.Ok;
      }
      if env.stopHash.Failure? {
        return S.Err(S.Node(env.stopHash.error));
      }
      checkpoint := Insert(checkpoint, BlockId(stopHeight, env.stopHash.value));
      var update := FinishUpdate();
      r := SendEvent(S.WalletUpdate(update), env.send(sends));
    }

    /** One turn of the loop of `scan_inner` over the fetched blocks. */
    method ApplyFetchedBlock(block: Block, j: nat, env: S.ScanEnv) returns (r: S.Outcome)
      requires Valid() && S.GenesisAgrees(checkpoint, env)
      modifies this`checkpoint, this`index, this`graph, this`log
      ensures Valid() && (State(), r) == S.ScanOne(old(State()), block, j, env)
    {
      var aborted := Look(env.cancelledAt(j));
      if aborted {
        return S.Err(S.ScanAborted);
      }
      var hash := block.hash;
      var height := env.heightOf(j, hash);
      if height.Failure? {
        return S.Err(S.Node(height.error));
      }
      var changes := ApplyBlockRelevant(block, height.value);
      if changes.IsEmpty() {
        return S.Ok;
      }
      checkpoint := Insert(checkpoint, BlockId(height.value, hash));
      var update := FinishUpdate();
      r := SendEvent(S.WalletUpdate(update), env.send(j));
    }

    method ApplyFetched(blocks: seq<Block>, env: S.ScanEnv) returns (r: S.Outcome)
      requires Valid() && S.GenesisAgrees(checkpoint, env)
      modifies this`checkpoint, this`index, this`graph, this`log
      ensures Valid() && (State(), r) == S.ScanBlocks(old(State()), blocks, 0, env)
    {
      var i := 0;
      while i < |blocks|
        invariant 0 <= i <= |blocks| && Valid() && S.GenesisAgrees(checkpoint, env)
        invariant S.ScanBlocks(State(), blocks, i, env) == S.ScanBlocks(old(State()), blocks, 0, env)
      {
        r := ApplyFetchedBlock(blocks[i], i, env);
        if r.Err? {
          return;
        }
        i := i + 1;
      }
      r := S.Ok;
    }

    method Scan(kind: S.ScanKind, env: S.CallEnv) returns (r: S.Outcome)
      requires Valid() && S.GenesisAgrees(checkpoint, env.scan)
      modifies this`checkpoint, this`index, this`graph, this`log
      ensures Valid() && (State(), r) == S.Scan(old(State()), kind, env)
    {
      if env.ready.Err? {
        return env.ready;
      }
      r := ScanInner(kind, env.scan);
      var sent := SendEvent(if r.Ok? then S.Finished(false) else S.Error(r.error), env.closing);
      if sent.Err? {
        r := sent;
      }
    }

    /** Attach a fresh channel, registering a sink only the first time. */
    method EnableBlockForwarding() returns (r: Result<(BlockChannel, BlockFwdGuard), S.ClientError>)
      modifies this`blockSink, subscribers, if blockSink.Some? then {blockSink.value} else {}
      ensures r.Failure? <==> old(SinkPoisoned())
      ensures r.Failure? ==> r.error == S.PoisonedLock && blockSink == old(blockSink)
                             && (blockSink.Some? ==> blockSink.value.blockTx == old(blockSink.value.blockTx))
      ensures r.Success? ==>
                && blockSink.Some? && (old(blockSink).Some? ==> blockSink == old(blockSink))
                && (old(blockSink).None? ==> fresh(blockSink.value))
                && fresh(r.value.0) && r.value.0.queue == []
                && fresh(r.value.1) && r.value.1.sink == blockSink.value
                && blockSink.value.blockTx == Some(r.value.0) && !blockSink.value.poisoned
      ensures subscribers.sinks ==
              old(subscribers.sinks) + if old(blockSink).None? then [blockSink.value] else []
    {
      var channel := new BlockChannel();
      var sink: BlockSink;
      if blockSink.Some? {
        sink := blockSink.value;
        if sink.poisoned {
          return Failure(S.PoisonedLock);
        }
        sink.blockTx := Some(channel);
      } else {
        sink := new BlockSink(channel);
        subscribers.BlockSubscriber(sink);
        blockSink := Some(sink);
      }
      var guard := new BlockFwdGuard(sink);
      r := Success((channel, guard));
    }

    /** One turn of the loop of `scan_continuous` over received blocks. */
    method ReceiveBlock(turn: S.Selected) returns (r: S.Outcome)
      requires Valid()
      modifies this`checkpoint, this`index, this`graph, this`log
      ensures Valid() && (State(), r) == S.QueueOne(old(State()), turn)
    {
      var aborted := Look(turn.Cancelled?);
      if aborted {
        return S.Err(S.ScanAborted);
      }
      if turn.Closed? {
        return S.Err(S.Unresponsive);
      }
      if turn.height <= TipHeight(checkpoint) {
        return S.Ok;
      }
      var _ := ApplyBlockRelevant(turn.block, turn.height);
      checkpoint := Insert(checkpoint, BlockId(turn.height, turn.block.hash));
      var update := FinishUpdate();
      r := SendEvent(S.WalletUpdate(update), turn.send);
    }

    method ReceiveBlocks(tape: seq<S.Selected>) returns (r: Option<S.Outcome>)
      requires Valid()
      modifies this`checkpoint, this`index, this`graph, this`log
      ensures Valid() && (State(), r) == S.QueueLoop(old(State()), tape, 0)
    {
      var i := 0;
      while i < |tape|
        invariant 0 <= i <= |tape| && Valid()
        invariant S.QueueLoop(State(), tape, i) == S.QueueLoop(old(State()), tape, 0)
      {
        var turn := ReceiveBlock(tape[i]);
        if turn.Err? {
          return Some(turn);
        }
        i := i + 1;
      }
      r := None;
    }

    method ScanContinuous(kind: S.ScanKind, env: S.CallEnv, tape: seq<S.Selected>) returns (r: Option<S.Outcome>)
      requires Valid() && S.GenesisAgrees(checkpoint, env.scan)
      modifies this, subscribers, if blockSink.Some? then {blockSink.value} else {}
      ensures Valid() && (State(), r) == S.ScanContinuous(old(State()), kind, env, old(SinkPoisoned()), tape)
      // Once the call has returned past readiness, the node forwards to nobody.
      ensures env.ready.Ok? ==> blockSink.Some?
      ensures r.Some? && env.ready.Ok? && !old(SinkPoisoned()) ==> blockSink.value.blockTx == None
      ensures subscribers.sinks ==
              old(subscribers.sinks) + if old(blockSink).None? && env.ready.Ok? then [blockSink.value] else []
    {
      if env.ready.Err? {
        return Some(env.ready);
      }
      var forwarding := EnableBlockForwarding();
      if forwarding.Failure? {
        return Some(S.Err(forwarding.error));
      }
      var guard := forwarding.value.1;
      var scanned := ScanInner(kind, env.scan);
      var sent := SendEvent(if scanned.Ok? then S.Finished(true) else S.Error(scanned.error), env.closing);
      if sent.Err? {
        r := Some(sent);
      } else if scanned.Err? {
        r := Some(scanned);
      } else {
        r := ReceiveBlocks(tape);
      }
      if r.Some? {
        guard.Drop();
      }
    }
  }
}
