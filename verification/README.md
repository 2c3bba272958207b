# bdk-floresta: the scan engine and the node lifecycle, verified

This project models the two stateful components of bdk-floresta in Dafny and
proves what they promise.

* **The scan engine** (`src/client/mod.rs`). A `Client` keeps a wallet up to
  date by asking compact block filters which blocks may matter, fetching only
  those, and sending one update per relevant block. A continuous scan then goes
  on with blocks as the node validates them. The main results: the filtered scan
  tells the wallet what applying every block would tell it; the handoff to the
  live queue loses and repeats nothing; no history of scans, however they fail,
  loses a relevant transaction of a block that its scans cover; and every history
  obeys the laws of updates, events and cancellation below.
* **The node lifecycle** (`src/node/fsm.rs`, `src/node/mod.rs`). The polling
  task, the shutdown task, `run`, callers of `shutdown` and waiting clients race
  on one watched state. The main results: when a stopped node stays stopped,
  exactly when a poll says that the node is ready, and that no waiting client
  misses a final state.

`dafny verify dfyconfig.toml` checks everything.

## How the model is built

| file | what it holds |
|---|---|
| `Blocks`, `CheckPoints`, `KeychainIndex`, `TxGraphs` | blocks, and the wallet library's behaviour as small definitions |
| `NodeQueries` | the node's filter and block queries |
| `Scanning` | what every client method computes, as functions of its state and of all it observes |
| `BlockSinks`, `Client` | the client's objects; each method is proved to compute, on mutable fields, what `Scanning` says |
| `Refinement` | the filter scan against its reference, and when a derived window is enough |
| `Kinds`, `Contents` | what each kind of scan covers and asks; exactly what a block adds and an update tells |
| `Deliveries`, `Resumption` | what a history tells, block by block and against the reference run |
| `Handoff` | the exact result of a continuous scan, end to end |
| `Jumps`, `Repeats` | exactly when a start above the tip loses a block; exactly which blocks are told twice |
| `Traces`, `Histories`, `Cancellation`, `Reports` | calls as runs of atomic moves; the laws of everything ever sent |
| `Endings`, `Health` | how calls end and why; truthful runs exist on every chain |
| `Forwarding` | validation and continuous scans as a step system, in any interleaving |
| `Fsm`, `Lifecycle`, `Waiting` | the stage rule, the tasks that race on the state, the waiting client |
| `Actions`, `ScanHandles` | the published actions, the handle of a spawned scan |

Everything that a client cannot decide is a parameter: the node's answers, the
moments at which the token is seen cancelled, the fate of each event sent, and
the blocks received. A theorem about all parameters is a theorem about all
behaviours of the outside. Tasks that really run at the same time are step
systems, and a theorem about all step sequences is one about all interleavings.
A client's log has one entry for each look at the cancellation token and one for
each event delivered.

What the model takes from the libraries, each as a definition:

* `CheckPoint::insert` keeps lower blocks; it keeps higher ones unless the height
  held another hash, and then drops them. The library refuses to replace genesis.
  Hence the hypothesis `GenesisAgrees`: at height 0 the node reports the wallet's
  own genesis, which `src/client/mod.rs:235-241` checks by comparing networks.
* `KeychainTxOutIndex` recognises the indices of a keychain below the next one to
  be revealed plus its lookahead. A keychain with a wildcard derives 2^31
  scripts, one without derives one. Different indices have different scripts.
* `apply_block_relevant` goes through the transactions of a block in order. It
  indexes the outputs of each and then keeps and anchors it if it spends an owned
  output or pays a watched script.
* Filters have no false negatives, list hashes in height order, and cover the
  scripts created and spent by a block (BIP 158, sections "Golomb-Coded Sets" and
  "Contents"). False positives are allowed everywhere.
* A watch channel is its value and a version; `subscribe` marks the latest
  version as seen, `borrow` does not.

Heights in the scan engine are unbounded. The stage rule uses 32-bit numbers, and
its one addition wraps as in an optimised build (a debug build panics there).

## Where the code and its comments disagree

The model follows the code.

* `src/node/fsm.rs:16-19` says that a node a few blocks behind counts as
  `Operational`. The clamp at lines 111-117 rules that out: such a node reports a
  filter download (`Fsm.ToleranceNeverOperational`; the exact condition is
  `Fsm.ReadyExactly`).
* `src/client/mod.rs:376-378` says that the filter scan covers every block
  validated before the sink is attached. It does so exactly if the filter height
  read at line 541 has reached the last block that the channel misses, for which
  it is enough that it has reached the blocks validated before attachment
  (`Forwarding.HandoffIsExact`); otherwise a block is lost
  (`Forwarding.LaggingFilterLosesBlock`).
* `src/client/mod.rs:489-503` derives as many scripts as the last revealed index
  plus the lookahead, while the index watches one more once something is revealed.
  So `Sync` can miss a payment to the last watched script
  (`Refinement.SyncMissesLastWatched`). A window is enough for the next block
  exactly if no keychain is short (`Refinement.WindowIsExact`), and the default
  full scan never is (`Refinement.FullScanSeesNext`).
* `src/node/mod.rs:334` publishes `Active` last. A shutdown announced before that
  is overwritten, and the node ends as `Active` with no polling task
  (`Lifecycle.EarlyCancelResurrects`). That is the only way
  (`Lifecycle.NoResurrection`).
* `src/node/mod.rs:186-197` keeps actions in a set. Two equal calls in flight, or
  a `fetch_blocks` future dropped by a cancelled scan, make it disagree with the
  calls in flight, and nothing else does (`Actions.StepIsFaithful`,
  `Actions.DroppedActionLingers`).
* A `Custom` scan that starts more than one above the tip moves the tip over
  blocks it never asked for, and no later `Sync` looks at them. It
  loses nothing if and only if no block strictly between tip and start that the
  new tip has passed contributes (`Jumps.JumpIsExact`). A start is safe on every
  chain if and only if it is at most one above the tip (`Jumps.SafeStartsExactly`);
  beyond that a payment in the gap is lost (`Jumps.JumpLosesPayment`).
* `src/node/mod.rs:356-362`: a `shutdown` that its caller drops while it awaits
  the task makes later callers return at once, to a node that may still run
  (`Lifecycle.AbandonedShutdownReturnsEarly`). That and a handle not yet stored are
  the only ways (`Lifecycle.ReturnsAtOnceExactly`); every other caller waits
  (`Lifecycle.ShutdownReturnsInactive`).
* `src/client/mod.rs:132-138`: a `stop` that its caller drops leaves the task
  cancelled but neither awaited nor aborted, exactly if it was the first operation
  to take the task (`ScanHandles.HandleIsLinear`).

## Model

| member | source | states |
|---|---|---|
| `Refinement.FilterScanRefinesNaive` | src/client/mod.rs:516-627 | For every chain, range, kind of scan and admissible filter answers: if all contributions of the range are visible to the scripts derived at the start, a successful scan has told the wallet exactly the transactions and anchors that applying every block of [start, stop] in order to one undrained graph gives, ends with that run's index and leaves the graph drained. For a client that has told nothing before and one given filter answer, told graph and index equal that run if and only if the answer has every contributing block. |
| `Refinement.FullScanCoversChain` | src/client/mod.rs:526-531 | A successful full scan of a new client equals the reference run from genesis to the filter tip, if the contributions up to the filter tip are visible to the scripts it derives. |
| `Kinds.CustomScanTells` | src/client/mod.rs:534-537 | A successful Custom scan with start h and lookahead n has told, if the contributions of h up to the filter height are visible to the window of n, exactly what applying all blocks from h on tells, wherever the tip is. |
| `Kinds.SyncTells` | src/client/mod.rs:525 | The same for Sync, from the tip height on and with the lookahead of the index. |
| `Kinds.FullScanTells` | src/client/mod.rs:528-531 | The same for FullScan, from 0 on and with the lookahead given, or with 1000. |
| `Kinds.EmptyRanges` | src/client/mod.rs:544-549 | With an external keychain, a Custom scan reports an empty range, naming its own start and the filter height, if and only if the start is above it; Sync does so with the tip height; FullScan never does. |
| `Kinds.OneQuery` | src/client/mod.rs:551-559 | The only filter answer that a scan depends on is that for the scripts of its own window, from its own start up to the filter height. |
| `Refinement.CoveredIsVisible` | src/client/mod.rs:522-559 | All contributions are visible if every script that the index comes to watch during the reference run is among those derived at the start. |
| `Refinement.PaidIsVisible` | src/client/mod.rs:522-559 | All contributions are visible if the derived scripts include those of the outputs owned at the start and those that the range really pays, of all that the index comes to watch; what is watched and never paid need not be derived. |
| `Refinement.VisibilityIsExact` | src/client/mod.rs:551-606 | Every admissible filter answer gives the reference result if and only if every contributing block touches a derived script. |
| `Refinement.SkippingIsExact` | src/client/mod.rs:564-606 | Applying only some blocks of a range, in order, equals applying all of them if and only if every contributing block is among them. |
| `Refinement.DrainingIsHomomorphic` | src/client/mod.rs:454-472 | Draining the graph and carrying the index changes nothing: a run from any graph is that graph united with the run from the empty graph, and the indexes agree. |
| `Refinement.ScanInnerAppliesPrefix` | src/client/mod.rs:516-627 | A scan that ends in any way, success or failure at any point, is the application of a prefix of its hits: the wallet has been told just what that prefix contributes, and the tip has not passed a hit left out. |
| `Refinement.ClosesRange` | src/client/mod.rs:608-624 | Whatever the node answers, even after an insertion that cut the checkpoint chain, a successful scan ends with its tip at the stop height or above, and its start was not above its stop. |
| `Refinement.FinishedTip` | src/client/mod.rs:608-624 | On one chain a successful scan ends with its tip at exactly the greater of the old tip and the stop height. |
| `Refinement.JumpLeavesGap` | src/client/mod.rs:532-537 | A successful scan that starts above the tip ends with its tip at its start or above, and nothing new that it tells lies below its start. Whether that loses anything is `Jumps.JumpIsExact`. |
| `Jumps.StaysAheadExactly` | src/client/mod.rs:516-627 | For a scan of any kind with any ending, by a client that was ahead of the reference run and told nothing above its tip: it stays ahead if and only if the filter answer has every block that contributes between the old tip and the new one. |
| `Jumps.JumpIsExact` | src/client/mod.rs:532-537 | If moreover its scripts see what contributes from its start up to the new tip, it stays ahead if and only if no block h with tip < h < start that the new tip has passed contributes. |
| `Jumps.JumpLosesPayment` | src/client/mod.rs:532-537 | The losing input: for every start more than one above the tip, a chain that pays any watched script right above the tip, and true answers under which the scan succeeds and that payment is not told although the tip passes it. |
| `Jumps.SafeStartsExactly` | src/client/mod.rs:532-537 | A start keeps the client ahead on every continuation of the chain, for all true answers and every ending, if and only if it is at most tip+1. |
| `Jumps.HistoriesTellBelowTip` | src/client/mod.rs:599-622 | No history of a new client, under true answers, tells of a block above its tip. |
| `Refinement.WindowBlocksAreHit` | src/client/mod.rs:551-559 | Every block of the range that pays or spends a script of the derived window is among the matched hashes. |
| `Refinement.WindowIsExact` | src/client/mod.rs:479-507 | For any index and lookahead: no block that could come next contributes unseen if and only if no keychain is short, a condition on the index and the lookahead alone. |
| `Refinement.SyncMissesLastWatched` | src/client/mod.rs:475-477 | For every index with a keychain that is revealed and not exhausted, a payment to its last watched script contributes but touches no script that a Sync scan derives. |
| `Refinement.FullScanSeesNext` | src/client/mod.rs:526-531 | With the default lookahead of 1000, an index that looks less far ahead is never short, so its next contributing block is always seen. |
| `Deliveries.RelevantIsDelivered` | src/client/mod.rs:516-627 | Block by block, and with nothing asked of what scans see of other blocks: over any sequence of calls with any outcomes, each with a start of at most tip+1 and a lookahead of at least L when it is made, true answers, delivered events and no gap in its queue, every transaction between the first tip and the last that pays a watched script of the first window of L, or spends an owned output locked by one, has been told and anchored in its block. |
| `Deliveries.LaterRelevantIsDelivered` | src/client/mod.rs:516-627 | The same from any later moment of a history on, with the window and the owned outputs of that moment. |
| `Deliveries.BlockIsDelivered` | src/client/mod.rs:516-627 | The general form: every transaction of one block that is relevant to the first index is told once the tip has passed the block, if each call that could pass it has it in range and derives some script that it touches. |
| `Deliveries.CallDelivers` | src/client/mod.rs:335-419 | One call with any outcome, its queue included, keeps that of one block. |
| `Resumption.NothingLost` | src/client/mod.rs:516-627 | The comparison with the whole reference run, which knows more with every block: after any sequence of scans and continuous scans of any kinds, each ending in success or in any failure at any point, the wallet has been told at least every transaction and anchor that the reference run contributes between the first checkpoint and the current tip. Each call is judged at the state in which it is made: answers are true and events arrive, the blocks above the tip that contribute up to its filter height lie in its range and touch a script that it derives then, and its queue has no gap above the greater of its tip and its filter height. |
| `Resumption.ScanInnerKeepsAhead` | src/client/mod.rs:516-627 | One filter scan, ended in any way, keeps the client ahead of the reference run up to its new tip, and the tip does not fall, if the contributions between its tip and its filter height lie in its range and touch a script that it derives. |
| `Resumption.NextContributionIsSeen` | src/client/mod.rs:475-507 | A condition on the client alone: if no keychain is short when a scan is made, however far earlier scans have moved the window, the next contributing block touches a script that it derives. |
| `Resumption.QueueLoopKeepsAhead` | src/client/mod.rs:393-418 | The queue loop keeps the client ahead of the reference run for every sequence of turns that does not skip a height. |
| `Resumption.CallKeepsAhead` | src/client/mod.rs:335-419 | A whole call keeps the client ahead, including the passage from the filter scan to the queue; only the filter part needs to see what contributes, the queue sees every block. |
| `Handoff.ForwardedBlocksAreConsecutive` | src/client/mod.rs:157-169 | In every interleaving whose filter scan covers the blocks that the channel misses, the blocks received so far have no gap above the stop height. |
| `Handoff.ContinuousScanLosesNothing` | src/client/mod.rs:371-419 | End to end: a continuous scan fed by any such interleaving has told all that the reference run contributes up to the last block it took from the queue, if the contributions between its tip and its filter height lie in its range and touch a script that it derives. |
| `Handoff.ContinuousScanIsExact` | src/client/mod.rs:371-419 | End to end and exact, at any moment of any such interleaving with the starting tip at or below the stop height and the filter part visible: index and told graph are those of applying every block from the start of the scan up to the tip, in order, to one undrained graph; the tip is that of the step system; and the queue phase has sent one update for each block that the step system applied, in order. |
| `Handoff.ContinuousRunExists` | src/client/mod.rs:371-419 | On every chain with distinct hashes, for every kind of scan with a range and every height from its stop on, there is a continuous scan with true answers that reaches its queue and receives all blocks up to that height. It meets the hypotheses of the two results above except visibility, which is a matter of chain and window (`Refinement.PaidIsVisible`). |
| `Handoff.QueueLoopApplies` | src/client/mod.rs:394-418 | Fed with blocks of the chain at any heights, the client's queue loop applies exactly those that the step system's receive steps take, in order, each once: one update for each with that tip height and that block's transactions only, and index and told graph are those of applying them. |
| `Handoff.AttachmentIsEnough` | src/client/mod.rs:376-379 | A filter height that has reached the blocks validated before attachment covers all that the channel misses. |
| `Forwarding.HandoffIsExact` | src/client/mod.rs:371-419 | In every interleaving of validation with any number of scans, once the queue is empty the queue phase has applied exactly the blocks above the starting tip, the stop height and the last block the channel missed, in order, each once. For a start at or below the stop height that is stop+1 onwards if and only if the stop height covers the missed blocks, and a stop height that covers attachment does. |
| `Forwarding.QueueHasNoGap` | src/client/mod.rs:393-418 | At any moment, caught up or not, if the greater of starting tip and stop height covers the missed blocks, the queue phase has applied exactly the blocks above it up to the tip, in order, each once. |
| `Forwarding.QueueReceives` | src/client/mod.rs:157-169 | From an idle queue loop a run exists that forwards and receives the blocks up to any height. |
| `Forwarding.ForwardingInvariant` | src/client/mod.rs:157-195 | Over any interleaving with any sequence of scans, dropped ones included: at most one sink is registered; the sender slot is filled exactly while a scan runs; the queue has only blocks whose `on_block` read the slot during the current scan; and the queue cannot close while the scan runs, so the `None` exit at line 402 is unreachable. |
| `Forwarding.LaggingFilterLosesBlock` | src/client/mod.rs:376-379 | A concrete reachable run in which the filter store is one block behind at attachment and that block is applied by neither phase. |
| `Forwarding.DuplicateIsSkipped` | src/client/mod.rs:406-409 | A concrete reachable run in which a block whose `on_block` was called between two scans is received by the second although its filter scan has covered it, and is skipped. |
| `Forwarding.QueueLoopTakes` | src/client/mod.rs:394-418 | Whether or not its events arrive, the client's queue loop ends with its tip at the last height that the step system's receive steps take. What it applies is `Handoff.QueueLoopApplies`. |
| `Forwarding.StepKeepsInv` | src/client/mod.rs:303-322 | Every step keeps the inductive invariant: the current channel carries exactly the blocks after the missed ones, in order, each once, and the queue loop has applied exactly what it takes of those received. |
| `Reports.ScanReports` | src/client/mod.rs:579-624 | The whole output of a successful filter scan: one update for each hit that contributes, in the order of the hits, each with transactions of its block only and with at least one; then a closing update with an empty graph if and only if the tip is still below the stop height. False positives send nothing. |
| `Repeats.RepeatedExactly` | src/client/mod.rs:525 | Of two successful scans, the later a Sync, both tell of a block if and only if it is the block at the tip where the Sync starts, the earlier scan told of it, and the filters hit it again. |
| `Repeats.HistoryRepeatsOnlyTip` | src/client/mod.rs:335-419 | The same over a whole history, with any calls of any outcome between the two. |
| `Histories.EveryUpdateAgrees` | src/client/mod.rs:454-472 | In every update sent by any sequence of calls with any answers, the checkpoint chain rises strictly and contains the block that anchors each transaction; one block at most is anchored; every transaction is anchored; and the graph ends drained. |
| `Histories.CheckpointsGrow` | src/client/mod.rs:599-622 | While the node tells the truth about one chain, each update's checkpoint chain includes all earlier ones, the client's includes them all, and no tip ever falls. |
| `Histories.NothingInvented` | src/client/mod.rs:590-605 | Under true answers every update is empty or tells only of transactions of one block of the chain, anchored in that block. |
| `Contents.UpdatesTellExactly` | src/client/mod.rs:454-472 | In every history under true answers, each update tells nothing, or exactly those transactions of one block of the chain that pay a watched script or spend an owned output when their turn comes, each anchored in that block and nowhere else, together with the last used indices that the block leaves. |
| `Contents.ApplyBlockExactly` | src/client/mod.rs:590 | Applying a block to a drained graph: a transaction is in the graph if and only if, once the outputs up to and including its own are indexed, it pays a watched script or spends an owned output; an anchor is in the graph if and only if it anchors such a transaction in this block. |
| `Contents.IndexAllExactly` | src/client/mod.rs:459 | Indexing outputs: the index comes to own exactly those that pay a watched script at their turn, and the last used and the revealed index of each keychain become the greatest of the old one and those paid. |
| `Contents.ChangesExactly` | src/client/mod.rs:589-590 | The change set is what is new: graph before and change set are disjoint and make the graph after, and it names exactly the keychains whose revealed index rose, with the new index. |
| `Histories.WalletKnowsLastUsed` | src/client/mod.rs:458-471 | If all events arrive, the last used indices most recently told to the wallet are those of the client's index after any sequence of calls. |
| `Histories.IndexGrows` | src/client/mod.rs:461-465 | Whatever calls are made, with any answers, the index forgets no output and no revealed script. |
| `Cancellation.AtMostTwoAfterCancel` | src/client/mod.rs:394-419 | Over any sequence of calls, and wherever in it the token is cancelled, at most two more wallet updates are ever sent. |
| `Cancellation.TwoCanFollow` | src/client/mod.rs:516-627 | For any scan whose filters hit one relevant block between tip and stop height: cancelled right after the look before that block, the whole scan still succeeds and sends exactly two more updates. |
| `Cancellation.BoundIsAttained` | src/client/mod.rs:579-624 | A concrete history of two scans and a position in its log after which every look, and there is one, sees the token cancelled and exactly two updates follow. |
| `Cancellation.CancelledScanIsInert` | src/client/mod.rs:553-555 | A filter scan that finds the token cancelled fails, emits nothing and leaves checkpoint, index and graph unchanged. |
| `Cancellation.CancelledCallIsInert` | src/client/mod.rs:335-419 | Any scan or continuous scan made after cancellation fails, changes nothing, and emits at most one event, an error. |
| `Histories.ScanEmitsWord` | src/client/mod.rs:335-354 | Past readiness and with a live receiver, a scan emits WalletUpdate* followed by exactly one Finished(false) or Error, the former if and only if it succeeds. |
| `Histories.ContinuousEmitsWord` | src/client/mod.rs:371-419 | A continuous scan emits WalletUpdate* Error, or WalletUpdate* Finished(true) WalletUpdate* where the tips of the last part rise strictly and start above the tip of the filter scan. |
| `Histories.HistoryEmitsWords` | src/client/mod.rs:335-428 | Any sequence of calls emits the concatenation of one word of these grammars for each call, empty for a call that never got past readiness or attachment and for one whose future was dropped while it waited for readiness or for blocks. |
| `Scanning.DroppedCallIsInert` | src/client/mod.rs:568-576 | A call dropped while it waits for readiness or for blocks has emitted nothing and changed neither checkpoint, index nor graph; it has looked at the token three times if it waited for blocks, else not at all. |
| `Scanning.WaitingScan` | src/client/mod.rs:551-571 | A scan waits for blocks if and only if, cancelled at that point, it ends there with its third look seeing the cancellation and nothing else changed. |
| `Traces.HistoryMoves` | src/client/mod.rs:335-419 | Every history is one run of four kinds of atomic moves in which a block is applied only right after a look that saw no cancellation, and the graph is drained between moves. |
| `Endings.ScanFailsFor` | src/client/mod.rs:516-627 | For all that a scan observes: it aborts if and only if its last look saw the token cancelled; it misses the external keychain, or reports an empty range with those heights, if and only if that is so; any other failure is the node's or a poisoned lock. |
| `Endings.QueueEndsFor` | src/client/mod.rs:393-418 | The queue loop never ends in success: it goes on through received blocks until the first turn that cancels, closes or meets a poisoned lock, and fails with the error of that turn. |
| `Endings.NodeErrorsAreTheNodes` | src/client/mod.rs:541-624 | A scan that fails with an error of the node passes on an error that the node gave: one of its stores, a peer that did not answer or did not have the block, or its refusal to match, with the heights or the state it names. |
| `Endings.ScanReturns` | src/client/mod.rs:335-354 | A scan returns the error of its wait and says nothing, or returns the outcome of its filter scan and says it last, Finished(false) or the very error returned; only a poisoned lock is returned instead. |
| `Endings.ContinuousReturns` | src/client/mod.rs:371-391 | Likewise for a continuous scan: a failed filter scan is returned and said with the same error, a poisoned sink or event lock is returned, and otherwise Finished(true) is said and the queue loop decides. |
| `Endings.SendsOnlyToReceiver` | src/client/mod.rs:422-428 | Exactly a live receiver gets the event, exactly a poisoned lock is an error, and nothing else changes. |
| `Health.HealthyScanSucceeds` | src/client/mod.rs:516-627 | A scan can only fail for a listed reason: no external keychain, a node error, an empty range, a node that is not operational, a cancellation or a poisoned lock. |
| `Health.TruthfulScanExists` | src/client/mod.rs:516-627 | On every chain with distinct hashes and for every kind of scan with a range there are true answers under which the scan succeeds, so the theorems above are not vacuous. |
| `Scanning.AdvanceTip` | src/client/mod.rs:406-417 | A block applied above the tip becomes the tip, even if it conflicts with a checkpoint. |
| `Clients.Client.ScanInner` | src/client/mod.rs:516-627 | The method computes, on the client's fields, the new state and outcome given by the scan function about which the theorems speak; the range, window and query of each kind are pinned by `Kinds`. |
| `Clients.Client.ApplyFetched` | src/client/mod.rs:579-606 | The loop over the fetched blocks computes the recursive function, whatever block it stops at. |
| `Clients.Client.ApplyFetchedBlock` | src/client/mod.rs:580-605 | One turn of that loop: look, height, apply, skip a false positive, insert, drain, send. |
| `Clients.Client.CloseRange` | src/client/mod.rs:608-624 | The closing checkpoint and its update, only if the tip is below the stop height. |
| `Clients.Client.FinishUpdate` | src/client/mod.rs:454-472 | Returns the graph, the last used indices and the checkpoint chain; afterwards the graph is empty and the index is the one from before. |
| `Clients.Client.SendEvent` | src/client/mod.rs:422-428 | Delivers to a live receiver, does nothing without a sender, fails on a poisoned lock. |
| `Clients.Client.Scan` | src/client/mod.rs:335-354 | Readiness, the scan, the closing event; a poisoned lock replaces the scan's own outcome. |
| `Clients.Client.ScanContinuous` | src/client/mod.rs:371-419 | State and outcome are those of the continuous scan function; a sink is registered only by the first call that gets past readiness; once the call has returned the sender slot is empty. |
| `Clients.Client.ReceiveBlocks` | src/client/mod.rs:394-418 | The queue loop computes the recursive function up to any turn. |
| `Clients.Client.ReceiveBlock` | src/client/mod.rs:395-417 | One turn of the queue loop, with its test against the tip. |
| `Clients.Client.EnableBlockForwarding` | src/client/mod.rs:303-322 | Attaches a fresh empty channel and a guard for it; registers a sink exactly if there was none; fails exactly on a poisoned lock and then changes nothing. |
| `Clients.Client.ApplyBlockRelevant` | src/client/mod.rs:590 | Applies a block to index and graph and returns the change set; what that adds and names is `Contents.ApplyBlockExactly` and `Contents.ChangesExactly`. |
| `Clients.Client.constructor` | src/client/mod.rs:265-279 | A new client has the wallet's checkpoint and index, an empty graph and no sink. |
| `BlockSinks.BlockSink.OnBlock` | src/client/mod.rs:158-169 | Appends the block to the attached channel, if there is one and the lock is not poisoned, and leaves the slot alone. |
| `BlockSinks.BlockFwdGuard.Drop` | src/client/mod.rs:189-195 | Empties the sender slot unless the lock is poisoned. |
| `BlockSinks.Subscribers.BlockSubscriber` | src/node/mod.rs:494-496 | Adds one sink to the node's subscribers. |
| `KeychainIndex.DeriveSpks` | src/client/mod.rs:480-507 | Fails if and only if there is no external keychain; otherwise derives exactly the scripts of the window, each once, external ones first and each keychain's in order, however large the indices. |
| `KeychainIndex.WindowInNumbers` | src/client/mod.rs:488-504 | The window of a keychain: its existing scripts, 2^31 or one, with an index below the last revealed one plus the lookahead, or below the lookahead if none is revealed. |
| `KeychainIndex.WindowGrows` | src/client/mod.rs:488-504 | The window grows with what is revealed and with the lookahead, and with a lookahead of at least 1 holds every revealed script. |
| `KeychainIndex.PaymentMovesWindow` | src/client/mod.rs:488-504 | A payment to a watched script moves the window: the next scan derives every existing script below the index paid plus the lookahead. |
| `KeychainIndex.WindowCoversWatched` | src/client/mod.rs:475-507 | The window covers all that the index watches if and only if no keychain is short; with the index's own lookahead, exactly the revealed keychains that are not exhausted are short. |
| `KeychainIndex.LaterSpendIsRelevant` | src/client/mod.rs:461-465 | An output found before a drain is recognised when a later block spends it, because the index is carried along. |
| `KeychainIndex.IrrelevantLeavesIndex` | src/client/mod.rs:592-596 | A transaction that is irrelevant has not changed the index, so skipping its block forgets nothing. |
| `KeychainIndex.RelevanceMonotone` | src/client/mod.rs:589-596 | An index that knows more keeps at least as many transactions. |
| `TxGraphs.DrainBeforeBlock` | src/client/mod.rs:454-472 | A block adds to any graph exactly what it adds to the empty one. |
| `TxGraphs.EmptyChangesMeanIrrelevant` | src/client/mod.rs:589-596 | On a drained graph the change set is empty if and only if no transaction of the block is relevant, and then index and graph are unchanged. |
| `TxGraphs.UntouchedKeepsNothing` | src/client/mod.rs:551-559 | If the scripts include all that is watched, a block that touches none of them contributes nothing. |
| `TxGraphs.ApplyBlockMonotone` | src/client/mod.rs:590 | Applying a block preserves being ahead, in index, transactions and anchors. |
| `CheckPoints.InsertMembers` | src/client/mod.rs:599 | Exactly which checkpoints an insertion leaves, with and without a conflict. |
| `CheckPoints.InsertTip` | src/client/mod.rs:616-619 | The block inserted is a checkpoint, and the tip is the higher of the two unless a conflict cut the chain. |
| `CheckPoints.InsertOnChain` | src/client/mod.rs:414 | On one chain nothing is cut and the tip only rises. |
| `NodeQueries.MatchFilters` | src/node/mod.rs:507-545 | In the operational state and up to the filter tip, the answer of the filter store; else which error each refusal gives. |
| `NodeQueries.FetchBlocks` | src/node/mod.rs:581-600 | Succeeds if and only if every block is found, with the blocks in the order of their hashes; otherwise the error of some block that was not. |
| `Fsm.ReadyExactly` | src/node/fsm.rs:100-152 | For all 32-bit readings, an active state steps to Operational if and only if the wire is ready, the node height is positive and both node and filter heights reach the chain tip, except where the tolerance overflows below the tip. |
| `Fsm.StagesExactly` | src/node/fsm.rs:131-150 | For all 32-bit readings, exactly when an active state steps to Active, HeaderSync, InitialBlockDownload and CompactBlockFilterDownload, and which heights these report. |
| `Fsm.OtherStagesStay` | src/node/fsm.rs:129 | Inactive, ShuttingDown, DnsBootstrapping and Backfill are left alone. |
| `Fsm.ToleranceNeverOperational` | src/node/fsm.rs:111-143 | A node lagging by 1 to 6 blocks is never Operational; it reports a filter download at or below its own height. |
| `Fsm.StagesOnlyClimb` | src/node/fsm.rs:131-150 | Along every poll run with a ready wire, a fixed tip and heights that do not fall, the rank of the stage never drops. |
| `Fsm.OverflowFallsBack` | src/node/fsm.rs:138 | Without the no-overflow hypothesis it can drop: a concrete pair of readings. |
| `Fsm.Memoryless` | src/node/fsm.rs:119-151 | After any polls the active state depends on the last reading alone. |
| `Lifecycle.NoResurrection` | src/node/mod.rs:212-337 | In every interleaving of `run`, polls, shutdown and its callers, the trace is Inactive, active states, ShuttingDown, Inactive for good if and only if ShuttingDown was not published before `run` published Active, even if the polling task outlives its join and keeps polling. |
| `Lifecycle.ShutdownAfterRunIsClean` | src/node/mod.rs:298-336 | If nobody asks the node to stop before `run` has returned, every continuation is clean. |
| `Lifecycle.FinishedIsFinal` | src/node/mod.rs:275-286 | After a clean shutdown no step of any task, late polls included, changes the state again. |
| `Lifecycle.ShutdownTellsAll` | src/node/mod.rs:310-318 | In every reachable state: the kill signal is set if and only if the shutdown task has got past waking up; once it waits for its tasks the token is cancelled, whether an interrupt or the token set it off; and the polling task ends only on a cancelled token. |
| `Lifecycle.EarlyCancelResurrects` | src/node/mod.rs:334 | A reachable run whose trace is Inactive, ShuttingDown, Inactive, Active, with the shutdown finished and the polling task gone. |
| `Lifecycle.ShutdownReturnsInactive` | src/node/mod.rs:356-362 | In a clean life every caller of `shutdown` that gets the lock after the handle was stored returns to an inactive node, the one that awaited the task and those that waited behind it, unless a caller was dropped while it awaited the task. |
| `Lifecycle.ReturnsAtOnceExactly` | src/node/mod.rs:356-362 | In every reachable state in which a caller of `shutdown` can take the lock: it returns at once to a node whose shutdown has not finished if and only if the handle is not stored yet or a caller was dropped while it awaited the task. |
| `Lifecycle.AbandonedShutdownReturnsEarly` | src/node/mod.rs:358-360 | That exception is real: a reachable run in which such a caller is dropped and the next one returns to a running node. |
| `Lifecycle.UnreachableStages` | src/node/fsm.rs:119-129 | No run from Inactive ever reaches DnsBootstrapping or Backfill. |
| `Lifecycle.TaskFollowsStages` | src/node/mod.rs:234-290 | From an active state the polling task's last published value is the poll run of its readings. |
| `Lifecycle.StateChannel.StateUpdateTask` | src/node/mod.rs:234-290 | The loop publishes exactly what polling its readings publishes and stops on cancellation; which readings these are is `Lifecycle.ReadingsExactly`. |
| `Lifecycle.ReadingsExactly` | src/node/mod.rs:245-279 | The readings are those of the complete turns before the first cancellation, in order, each with that turn's own wire, chain, node and filter values; incomplete turns give none. |
| `Lifecycle.TaskEndsAt` | src/node/mod.rs:234-290 | From an active state the task leaves the node in the stage of the last such turn. |
| `Lifecycle.TaskEndsOperational` | src/node/mod.rs:234-290 | That stage is Operational if and only if the turn saw the wire ready, a positive node height, and node and filter heights at or above the chain tip, with the overflow of the tolerance as the one exception. |
| `Lifecycle.PublishedStays` | src/node/mod.rs:275-286 | What the task has published after any number of readings stays published, in order. |
| `Lifecycle.OnlyChangesPublished` | src/node/mod.rs:276-285 | No value is published twice in a row, and none at all from ShuttingDown or Inactive. |
| `Lifecycle.StateChannel.SendIfModified` | src/node/mod.rs:275-286 | Never out of ShuttingDown, and reports a change if and only if a value was published. |
| `Lifecycle.StateChannel.SendReplace` | src/node/mod.rs:311-327 | Publishes its value unconditionally. |
| `Lifecycle.StateChannel.constructor` | src/node/builder.rs:258 | The first state is Inactive. |
| `Waiting.NoLostWakeup` | src/client/mod.rs:431-449 | Under any interleaving of writers, a waiter that cannot move is parked on the latest version, and the state there is none of Operational, ShuttingDown and Inactive; Ok is returned only on an Operational published since the subscription, Unresponsive only on ShuttingDown or Inactive, ScanAborted only after a cancellation. |
| `Waiting.FinalStateIsNoticed` | src/client/mod.rs:434-448 | Once the writers rest, the waiter ends within two steps of its own with Ok on Operational and with Unresponsive on ShuttingDown or Inactive; on any other state it is parked on the latest version within four. |
| `Waiting.FreshWaiterParks` | src/client/mod.rs:432-448 | If nothing is published, a new waiter looks once and parks. |
| `Waiting.LookingDoesNotMark` | src/client/mod.rs:434-442 | A state published between subscription and first look is looked at and then wakes the waiter once more. |
| `Waiting.OwnStepIsTheOnlyOne` | src/client/mod.rs:440-447 | An uncancelled waiter has exactly one step that it can make, or none. |
| `Actions.StepIsFaithful` | src/node/mod.rs:186-197 | The published set stays equal to the actions in flight if and only if the step does not end one of several equal calls and does not drop the last of its kind. |
| `Actions.TrackingIsSound` | src/node/mod.rs:533-542 | Over any interleaving of calls that run to completion, the published set is contained in the actions in flight, equals it if these are distinct throughout, and is empty when nothing is in flight. |
| `Actions.DroppedActionLingers` | src/client/mod.rs:568-576 | A published action stays published until an equal call ends, so a dropped fetch leaves its action behind. |
| `Actions.ActionTracker.TrackAction` | src/node/mod.rs:186-190 | Adds the action to the set. |
| `Actions.ActionTracker.UntrackAction` | src/node/mod.rs:193-197 | Removes the action from the set. |
| `Actions.Node.MatchFilters` | src/node/mod.rs:507-545 | The answer of the query; a refused request tracks nothing, any other leaves no action of its kind behind. |
| `Actions.Node.FetchBlocks` | src/node/mod.rs:581-600 | The answer of the query; a future dropped while it waits leaves its action published. |
| `ScanHandles.HandleIsLinear` | src/client/mod.rs:102-148 | However a handle is used, its task is awaited to its end or aborted at most once: awaited if and only if a finished join or stop was the first operation to take it, aborted if and only if the destructor was, neither if and only if a dropped stop was; it stays held if and only if there were only dropped joins and plain cancels; and the token is cancelled for good from the first stop, drop or cancel on. |
| `ScanHandles.DroppedJoinLeavesTask` | src/client/mod.rs:118-125 | After any number of dropped joins a later stop still awaits the task. |
| `ScanHandles.ScanHandle.Join` | src/client/mod.rs:118-125 | Awaits a held task and clears the handle; returns the task's outcome, ScanAborted for one that vanished, Ok without a task. |
| `ScanHandles.ScanHandle.Cancel` | src/client/mod.rs:128-130 | Cancels the token and leaves the task alone. |
| `ScanHandles.ScanHandle.Stop` | src/client/mod.rs:133-138 | Cancels the token and takes the task, which is awaited unless the caller drops the call. |
| `ScanHandles.ScanHandle.Drop` | src/client/mod.rs:141-148 | Cancels the token and aborts a held task. |

## Left out

- The client's destructor and its shutdown watcher: they only cancel the token and take the sender, so they appear as the moments at which a scan sees the token cancelled and an event finds no sender.
- The network comparison in `Client::new`: it only justifies that node and wallet share one genesis block.
- Reorganisations in the queue loop: the code skips every block at or below the tip, so one chain is a hypothesis of the results that need it. Agreement of checkpoints and anchors, cancellation, the event grammar and the closing of ranges are proved without it.
- Heights near the 32-bit limit in the scan engine: the code only compares them. Derivation, where it adds, is modelled with saturation, and the stage rule with wrapping.
- Block and confirmation times: an anchor here is a transaction and a block id.
- Unconfirmed transactions in the wallet's graph: a client's graph starts out empty and only sees blocks.
- NodeQueries.FetchBlocks: of several failing requests the first in list order stands for whichever fails first, because the order of replies is up to the peers.
- Clients.Client.ScanContinuous: a call that is still waiting for blocks returns `None` and keeps its guard; that dropping such a call empties the slot is part of the step system in `Forwarding`.
- Forwarding.ForwardingInvariant: blocks are known by their heights, and validation raises the height by one each time; the lock of the sink is never poisoned.
- Resumption.NothingLost: bounds what was told from below only. That nothing else was invented is `Histories.NothingInvented`, and what was told twice is `Repeats.HistoryRepeatsOnlyTip`.
- Repeats.HistoryRepeatsOnlyTip: speaks of what filter scans tell. A queue phase takes only blocks above the tip, so it repeats nothing.
- Real time: the polling period and the timeouts are nondeterministic steps.
- The inner node task, flushing, the kill signal's effect and the start instant: they do not touch the watched state.
- Peer-to-peer and mempool methods: they appear only as tracked actions.
- Error texts, the logger, the build script, the builder's configuration and the examples.
- The internals of the wallet, node and runtime libraries: filter decoding, key derivation, hashing, scheduling.
