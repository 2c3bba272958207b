/**
  Block forwarding as a step system: the thread that validates blocks and calls
  `on_block`, interleaved in any way with a client that starts, runs, drops and
  restarts continuous scans. Blocks are known by their heights.
 */
module Forwarding {
  import opened Wrappers
  import opened CheckPoints
  import opened Scanning

  /** Where the validating thread stands within `on_block`. */
  datatype Notice =
    | Idle
    | Called(height: nat)
    | Holding(height: nat, channel: nat, duringScan: Option<nat>)

  /** The client's progress through one continuous scan. */
  datatype Phase =
    | Resting
    | Attached
    | Filtering(stop: nat)
    | Queueing(stop: nat)

  /** A queued block and the scan that ran when its `on_block` read the sender slot. */
  datatype Item = Item(height: nat, duringScan: Option<nat>)

  datatype Sys = Sys(
    validated: nat,            // highest validated block
    notice: Notice,
    registered: nat,           // sinks registered with the node
    slot: Option<nat>,         // channel whose sender sits in the sink
    channels: nat,               // channels opened so far; scan n uses channel n
    phase: Phase,
    queue: seq<Item>,          // waiting in the current scan's channel
    tip: nat,                  // height of the client's checkpoint
    startTip: nat,             // the tip when the current scan attached
    attachedAt: nat,           // blocks validated when the current scan attached
    missed: nat,               // the last block that the current channel will not carry
    received: seq<nat>,        // heights taken from the current channel
    applied: seq<nat>)         // heights applied by the current scan's queue loop

  datatype Step =
    | Validate
    | ReadSlot
    | SendBlock
    | Attach
    | ReadFilterHeight(height: nat)
    | FinishFilterScan
    | Receive
    | EndScan(tip: nat)

  function Init(validated: nat, tip: nat): Sys {
    Sys(validated, Idle, 0, None, 0, Resting, [], tip, tip, 0, 0, [], [])
  }

  ghost predicate Enabled(s: Sys, step: Step) {
    match step
    case Validate => s.notice.Idle?
    case ReadSlot => s.notice.Called?
    case SendBlock => s.notice.Holding?
    case Attach => s.phase.Resting?
    case ReadFilterHeight(_) => s.phase.Attached?
    case FinishFilterScan => s.phase.Filtering?
    case Receive => s.phase.Queueing? && s.queue != []
    case EndScan(tip) => !s.phase.Resting? && s.tip <= tip
  }

  /** The scan in progress, if any. */
  function Running(s: Sys): Option<nat> {
    if s.phase.Resting? || s.channels == 0 then None else Some(s.channels - 1)
  }

  function Next(s: Sys, step: Step): Sys
    requires Enabled(s, step)
  {
    match step
    case Validate =>
      // A registered sink is called for every block from then on.
      s.(validated := s.validated + 1, notice := if s.registered > 0 then Called(s.validated + 1) else Idle)
    case ReadSlot =>
      // `on_block` clones the sender under the lock and releases it.
      s.(notice := match s.slot
                   case None => Idle
                   case Some(c) => Holding(s.notice.height, c, Running(s)))
    case SendBlock =>
      // A send to the channel of an ended scan goes nowhere.
      s.(notice := Idle,
         queue := if !s.phase.Resting? && Running(s) == Some(s.notice.channel)
                  then s.queue + [Item(s.notice.height, s.notice.duringScan)] else s.queue)
    case Attach =>
      // `enable_block_forwarding`: a fresh channel, and a sink only the first time.
      s.(registered := if s.registered == 0 then 1 else s.registered,
         slot := Some(s.channels), channels := s.channels + 1, phase := Attached, queue := [],
         startTip := s.tip, attachedAt := s.validated,
         missed := if s.notice.Called? && s.validated > 0 then s.validated - 1 else s.validated,
         received := [], applied := [])
    case ReadFilterHeight(height) => s.(phase := Filtering(height))
    case FinishFilterScan =>
      // A finished filter scan leaves its tip at the stop height or above.
      s.(phase := Queueing(s.phase.stop), tip := Max(s.tip, s.phase.stop))
    case Receive =>
      var h := s.queue[0].height;
      var rest := s.(queue := s.queue[1..], received := s.received + [h]);
      if Takes(s.tip, h) then rest.(tip := h, applied := s.applied + [h]) else rest
    case EndScan(tip) =>
      // The guard empties the slot; the receiver goes with the scan. A filter
      // scan that failed halfway, and plain scans before the next continuous
      // one, may have raised the tip.
      s.(phase := Resting, slot := None, queue := [], tip := tip)
  }

  ghost predicate Possible(s: Sys, steps: seq<Step>)
    decreases |steps|
  {
    steps == [] || (Enabled(s, steps[0]) && Possible(Next(s, steps[0]), steps[1..]))
  }

  function Exec(s: Sys, steps: seq<Step>): Sys
    requires Possible(s, steps)
    decreases |steps|
  {
    if steps == [] then s else Exec(Next(s, steps[0]), steps[1..])
  }

  // ---- The steps of the client, as the client takes them

  lemma {:induction false} QueueOneTakes(st: ClientState, turn: Selected)
    requires ValidCheckPoint(st.checkpoint) && turn.Received? && !turn.send.Poisoned?
    ensures QueueOne(st, turn).1.Ok?
    ensures TipHeight(QueueOne(st, turn).0.checkpoint) ==
            if Takes(TipHeight(st.checkpoint), turn.height) then turn.height else TipHeight(st.checkpoint)
  {
    if Takes(TipHeight(st.checkpoint), turn.height) {
      AdvanceTip(st.Looked(false), turn.block, turn.height, turn.send);
    }
  }

  /** The queue loop of the client takes exactly the heights that the steps `Receive` take. */
  lemma {:induction false} QueueLoopTakes(st: ClientState, tape: seq<Selected>, t: nat, hs: seq<nat>)
    requires t <= |tape| && ValidCheckPoint(st.checkpoint)
    requires |hs| == |tape| - t
    requires forall k :: t <= k < |tape| ==> tape[k].Received? && !tape[k].send.Poisoned? && tape[k].height == hs[k - t]
    ensures QueueLoop(st, tape, t).1 == None
    ensures TipHeight(QueueLoop(st, tape, t).0.checkpoint) ==
            Last(TipHeight(st.checkpoint), Taken(TipHeight(st.checkpoint), hs))
    decreases |tape| - t
  {
    if t < |tape| {
      hide QueueOne;
      QueueOneTakes(st, tape[t]);
      LastOfTaken(tape[t].height, hs[1..], TipHeight(st.checkpoint));
      QueueLoopTakes(QueueOne(st, tape[t]).0, tape, t + 1, hs[1..]);
    }
  }

  // ---- What every interleaving keeps

  function Heights(items: seq<Item>): (hs: seq<nat>)
    ensures |hs| == |items| && forall k :: 0 <= k < |hs| ==> hs[k] == items[k].height
  {
    seq(|items|, k requires 0 <= k < |items| => items[k].height)
  }

  /** The block that the validating thread will still put into the current channel. */
  function InFlight(s: Sys): seq<nat> {
    match s.notice
    case Idle => []
    case Called(h) => [h]
    case Holding(h, c, _) => if Running(s) == Some(c) then [h] else []
  }

  /** The queue loop's choice among a sequence of heights. */
  function Taken(tip: nat, hs: seq<nat>): seq<nat>
    decreases |hs|
  {
    if hs == [] then []
    else if Takes(tip, hs[0]) then [hs[0]] + Taken(hs[0], hs[1..])
    else Taken(tip, hs[1..])
  }

  ghost predicate Inv(s: Sys) {
    Shape(s) && (!s.phase.Resting? ==> Carried(s)) && Counted(s)
  }

  /** One sink at most, a slot that is filled exactly while a guard lives, and a thread at the highest block. */
  ghost predicate Shape(s: Sys) {
    && s.registered <= 1 && (s.registered == 0 <==> s.channels == 0)
    && (s.phase.Resting? ==> s.slot == None && s.queue == [])
    && (!s.phase.Resting? ==> s.channels > 0 && s.slot == Some(s.channels - 1))
    && (!s.notice.Idle? ==> s.notice.height == s.validated > 0 && s.registered == 1)
    && (s.notice.Holding? ==> s.notice.channel < s.channels && s.notice.duringScan == Some(s.notice.channel))
  }

  /** The queue loop has applied exactly what it takes from what it received. */
  ghost predicate Counted(s: Sys) {
    && (s.phase.Queueing? ==> s.applied == Taken(Max(s.startTip, s.phase.stop), s.received)
                              && s.tip == Last(Max(s.startTip, s.phase.stop), s.applied))
    && (s.phase.Attached? || s.phase.Filtering? ==> s.received == [] && s.applied == [] && s.tip == s.startTip)
  }

  /** The current channel carries exactly the blocks after the missed ones, in order, each once. */
  ghost predicate Carried(s: Sys) {
    && s.missed <= s.attachedAt <= s.validated
    && s.received + Heights(s.queue) + InFlight(s) == Range(s.missed + 1, s.validated + 1)
    && forall k :: 0 <= k < |s.queue| ==> s.queue[k].duringScan == Running(s)
  }

  function Last(tip: nat, hs: seq<nat>): nat {
    if hs == [] then tip else hs[|hs| - 1]
  }

  lemma {:induction false} TakenSnoc(tip: nat, hs: seq<nat>, h: nat)
    ensures Taken(tip, hs + [h]) ==
            Taken(tip, hs) + if Takes(Last(tip, Taken(tip, hs)), h) then [h] else []
    decreases |hs|
  {
    if hs == [] {
      assert [h][1..] == [];
    } else {
      assert (hs + [h])[1..] == hs[1..] + [h];
      TakenSnoc(if Takes(tip, hs[0]) then hs[0] else tip, hs[1..], h);
      if Takes(tip, hs[0]) {
        LastOfTaken(hs[0], hs[1..], tip);
      }
    }
  }

  lemma {:induction false} LastOfTaken(h: nat, rest: seq<nat>, tip: nat)
    ensures Last(tip, [h] + Taken(h, rest)) == Last(h, Taken(h, rest))
  {
  }

  lemma {:induction false} RangeSnoc(lo: nat, hi: nat)
    requires lo <= hi
    ensures Range(lo, hi + 1) == Range(lo, hi) + [hi]
  {
  }

  lemma {:induction false} StepKeepsShape(s: Sys, step: Step)
    requires Shape(s) && Enabled(s, step)
    ensures Shape(Next(s, step))
  {
  }

  lemma {:induction false} StepKeepsCarried(s: Sys, step: Step)
    requires Shape(s) && Enabled(s, step) && (!s.phase.Resting? ==> Carried(s))
    requires !Next(s, step).phase.Resting?
    ensures Carried(Next(s, step))
  {
    hide Range, Heights;
    match step {
      case Validate => RangeSnoc(s.missed + 1, s.validated + 1);
      case SendBlock => SendKeepsCarried(s);
      case Attach => AttachCarries(s);
      case Receive => ReceiveKeepsCarried(s);
      case _ =>
    }
  }

  lemma {:induction false} SendKeepsCarried(s: Sys)
    requires Shape(s) && s.notice.Holding? && !s.phase.Resting? && Carried(s)
    ensures Carried(Next(s, SendBlock))
  {
    hide Range, Heights;
    if Running(s) == Some(s.notice.channel) {
      var t := Next(s, SendBlock);
      assert Heights(t.queue) == Heights(s.queue) + [s.notice.height];
      assert s.received + Heights(t.queue) + [] == s.received + Heights(s.queue) + [s.notice.height];
    }
  }

  lemma {:induction false} AttachCarries(s: Sys)
    requires Shape(s) && s.phase.Resting?
    ensures Carried(Next(s, Attach))
  {
    assert Heights([]) == [];
  }

  lemma {:induction false} ReceiveKeepsCarried(s: Sys)
    requires Shape(s) && s.phase.Queueing? && s.queue != [] && Carried(s)
    ensures Carried(Next(s, Receive))
  {
    hide Range, Heights;
    var t := Next(s, Receive);
    assert Heights(s.queue) == [s.queue[0].height] + Heights(t.queue);
    assert t.received + Heights(t.queue) == s.received + Heights(s.queue);
  }

  lemma {:induction false} StepKeepsCounted(s: Sys, step: Step)
    requires Enabled(s, step) && Counted(s)
    ensures Counted(Next(s, step))
  {
    if step.Receive? {
      TakenSnoc(Max(s.startTip, s.phase.stop), s.received, s.queue[0].height);
    }
  }

  lemma {:induction false} StepKeepsInv(s: Sys, step: Step)
    requires Inv(s) && Enabled(s, step)
    ensures Inv(Next(s, step))
  {
    hide Shape, Carried, Counted, Next, Enabled;
    StepKeepsShape(s, step);
    StepKeepsCounted(s, step);
    if !Next(s, step).phase.Resting? {
      StepKeepsCarried(s, step);
    }
  }

  lemma {:induction false} ExecKeepsInv(s: Sys, steps: seq<Step>)
    requires Inv(s) && Possible(s, steps)
    ensures Inv(Exec(s, steps))
    decreases |steps|
  {
    hide Inv, Next, Enabled;
    if steps != [] {
      StepKeepsInv(s, steps[0]);
      ExecKeepsInv(Next(s, steps[0]), steps[1..]);
    }
  }

  lemma {:induction false} ReachableInv(validated: nat, tip: nat, steps: seq<Step>)
    requires Possible(Init(validated, tip), steps)
    ensures Inv(Exec(Init(validated, tip), steps))
  {
    hide Possible, Exec;
    ExecKeepsInv(Init(validated, tip), steps);
  }

  // ---- Main results

  /** All senders of the current channel are gone. */
  predicate QueueClosed(s: Sys) {
    Running(s).Some? && s.slot != Running(s) && !(s.notice.Holding? && Some(s.notice.channel) == Running(s))
  }

  /**
    Over any interleaving of validation with any number of continuous scans: one
    sink is registered at most; the slot is filled exactly while a scan runs; a
    receiver sees only blocks whose `on_block` read the slot during its own
    scan; and its queue never closes while the scan runs.
   */
  lemma {:induction false} ForwardingInvariant(validated: nat, tip: nat, steps: seq<Step>)
    requires Possible(Init(validated, tip), steps)
    ensures var s := Exec(Init(validated, tip), steps);
            && s.registered <= 1
            && s.slot == Running(s) && (s.slot.Some? <==> !s.phase.Resting?)
            && (forall k :: 0 <= k < |s.queue| ==> s.queue[k].duringScan == Running(s))
            && !QueueClosed(s)
  {
    ReachableInv(validated, tip, steps);
  }

  /** Nothing more is on its way to the queue loop. */
  ghost predicate Drained(s: Sys) {
    s.phase.Queueing? && s.queue == [] && InFlight(s) == []
  }

  lemma {:induction false} TakenFromRange(tip: nat, lo: nat, hi: nat)
    requires lo <= hi
    ensures Taken(tip, Range(lo, hi)) == Range(Max(lo, tip + 1), hi)
    decreases hi - lo
  {
    if lo < hi {
      var hs := Range(lo, hi);
      assert hs[1..] == Range(lo + 1, hi);
      TakenFromRange(if Takes(tip, lo) then lo else tip, lo + 1, hi);
    }
  }

  /**
    What the queue loop has applied once it has caught up: the blocks above the
    starting tip, the stop height and the missed height, in order, each once. So,
    for a scan that started at or below its stop height, the two phases cover
    every block exactly if the filter height read covers all that the channel
    misses.
   */
  ghost predicate ExactHandoff(s: Sys)
    requires s.phase.Queueing?
  {
    && s.applied == Range(Max(s.missed, Max(s.startTip, s.phase.stop)) + 1, s.validated + 1)
    && (s.startTip <= s.phase.stop ==>
          (s.applied == Range(s.phase.stop + 1, s.validated + 1) <==> s.missed <= s.phase.stop))
    && (s.missed > s.phase.stop ==> s.phase.stop + 1 !in s.applied && s.phase.stop + 1 <= s.validated)
    && (s.attachedAt <= s.phase.stop ==> s.missed <= s.phase.stop)
  }

  lemma {:induction false} CaughtUp(s: Sys)
    requires Inv(s) && Drained(s)
    ensures ExactHandoff(s)
  {
    hide Range, Taken, Heights, Last, Takes;
    assert Heights(s.queue) == [];
    assert s.received == Range(s.missed + 1, s.validated + 1);
    TakenFromRange(Max(s.startTip, s.phase.stop), s.missed + 1, s.validated + 1);
    if s.missed > s.phase.stop {
      assert Range(s.phase.stop + 1, s.validated + 1)[0] == s.phase.stop + 1;
    }
  }

  /** The handoff is exact in every interleaving. */
  lemma {:induction false} HandoffIsExact(validated: nat, tip: nat, steps: seq<Step>)
    requires Possible(Init(validated, tip), steps)
    requires Drained(Exec(Init(validated, tip), steps))
    ensures ExactHandoff(Exec(Init(validated, tip), steps))
  {
    hide Possible, Exec;
    ReachableInv(validated, tip, steps);
    CaughtUp(Exec(Init(validated, tip), steps));
  }

  /** What a queue loop has received so far continues the missed blocks without a gap. */
  lemma {:induction false} ReceivedInOrder(s: Sys)
    requires Inv(s) && !s.phase.Resting?
    ensures s.received == Range(s.missed + 1, s.missed + 1 + |s.received|)
  {
    hide Range, Heights, Shape, Counted;
    var all := s.received + Heights(s.queue) + InFlight(s);
    assert all == Range(s.missed + 1, s.validated + 1);
    assert s.received == all[..|s.received|];
  }

  /**
    At any moment, caught up or not, what was applied starts right after the
    greater of the starting tip and the stop height and has no gap.
   */
  lemma {:induction false} QueueHasNoGap(validated: nat, tip: nat, steps: seq<Step>)
    requires Possible(Init(validated, tip), steps)
    requires var s := Exec(Init(validated, tip), steps);
             s.phase.Queueing? && s.missed <= Max(s.startTip, s.phase.stop)
    ensures var s := Exec(Init(validated, tip), steps);
            var floor := Max(s.startTip, s.phase.stop);
            s.tip >= floor && s.applied == Range(floor + 1, s.tip + 1)
  {
    hide Possible, Exec, Range, Taken, Heights, Shape, Takes;
    ReachableInv(validated, tip, steps);
    var s := Exec(Init(validated, tip), steps);
    ReceivedInOrder(s);
    TakenFromRange(Max(s.startTip, s.phase.stop), s.missed + 1, s.missed + 1 + |s.received|);
  }

  ghost predicate Reaches(s: Sys, end: Sys) {
    exists steps :: Possible(s, steps) && Exec(s, steps) == end
  }

  lemma {:induction false} Stay(s: Sys)
    ensures Reaches(s, s)
  {
    assert Possible(s, []) && Exec(s, []) == s;
  }

  lemma {:induction false} LeadsBy(s: Sys, step: Step, end: Sys)
    requires Enabled(s, step) && Reaches(Next(s, step), end)
    ensures Reaches(s, end)
  {
    hide Enabled, Next;
    var rest :| Possible(Next(s, step), rest) && Exec(Next(s, step), rest) == end;
    var steps := [step] + rest;
    assert steps[1..] == rest;
    assert Possible(s, steps) && Exec(s, steps) == end;
  }

  /** From an idle queue loop, the blocks up to any height can be validated, forwarded and received one by one. */
  lemma {:induction false} QueueReceives(s: Sys, top: nat)
    returns (end: Sys)
    requires s.phase.Queueing? && s.queue == [] && s.notice.Idle? && s.validated <= top
    requires s.registered > 0 && s.channels > 0 && s.slot == Some(s.channels - 1)
    ensures Reaches(s, end)
    ensures end.phase == s.phase && end.startTip == s.startTip && end.missed == s.missed
    ensures end.received == s.received + Range(s.validated + 1, top + 1)
    decreases top - s.validated
  {
    hide Reaches;
    if s.validated == top {
      end := s;
      Stay(s);
    } else {
      var called := Next(s, Validate);
      var held := Next(called, ReadSlot);
      var sent := Next(held, SendBlock);
      var taken := Next(sent, Receive);
      end := QueueReceives(taken, top);
      LeadsBy(sent, Receive, end);
      LeadsBy(held, SendBlock, end);
      LeadsBy(called, ReadSlot, end);
      LeadsBy(s, Validate, end);
    }
  }

  /**
    Without the hypothesis a block is lost: a filter store one block behind, and
    a block validated before attachment.
   */
  lemma {:induction false} LaggingFilterLosesBlock()
    ensures exists s ::
              && Reaches(Init(7, 5), s)
              && Drained(s) && s.startTip <= s.phase.stop && s.phase.stop == 6 && s.applied == [8]
  {
    hide Reaches;
    var s0 := Init(7, 5);
    var s1 := Next(s0, Attach);
    var s2 := Next(s1, ReadFilterHeight(6));
    var s3 := Next(s2, FinishFilterScan);
    var s4 := Next(s3, Validate);
    var s5 := Next(s4, ReadSlot);
    var s6 := Next(s5, SendBlock);
    var s7 := Next(s6, Receive);
    Stay(s7);
    LeadsBy(s6, Receive, s7);
    LeadsBy(s5, SendBlock, s7);
    LeadsBy(s4, ReadSlot, s7);
    LeadsBy(s3, Validate, s7);
    LeadsBy(s2, FinishFilterScan, s7);
    LeadsBy(s1, ReadFilterHeight(6), s7);
    LeadsBy(s0, Attach, s7);
  }

  /**
    The test against the tip is needed: a block whose `on_block` was called
    between two scans can read the slot of the next one, and is then received
    although the filter scan has covered it.
   */
  lemma {:induction false} DuplicateIsSkipped()
    ensures exists s ::
              && Reaches(Init(7, 5), s)
              && Drained(s) && s.attachedAt == 8 && s.phase.stop == 8 && s.received == [8] && s.applied == []
  {
    hide Reaches;
    var s0 := Init(7, 5);
    var s1 := Next(s0, Attach);
    var s2 := Next(s1, EndScan(5));
    var s3 := Next(s2, Validate);
    var s4 := Next(s3, Attach);
    var end := CalledBeforeAttach(s4);
    LeadsBy(s3, Attach, end);
    LeadsBy(s2, Validate, end);
    LeadsBy(s1, EndScan(5), end);
    LeadsBy(s0, Attach, end);
  }

  lemma {:induction false} CalledBeforeAttach(s: Sys)
    returns (end: Sys)
    requires s.phase.Attached? && s.notice == Called(8) && s.slot == Some(s.channels - 1) && s.channels > 0
    requires s.queue == [] && s.received == [] && s.applied == [] && s.tip <= 8
    ensures Reaches(s, end) && Drained(end) && end.phase.stop == 8
    ensures end.attachedAt == s.attachedAt && end.received == [8] && end.applied == []
  {
    hide Reaches;
    var read := Next(s, ReadSlot);
    var sent := Next(read, SendBlock);
    var filtering := Next(sent, ReadFilterHeight(8));
    var queueing := Next(filtering, FinishFilterScan);
    end := Next(queueing, Receive);
    Stay(end);
    LeadsBy(queueing, Receive, end);
    LeadsBy(filtering, FinishFilterScan, end);
    LeadsBy(sent, ReadFilterHeight(8), end);
    LeadsBy(read, SendBlock, end);
    LeadsBy(s, ReadSlot, end);
  }
}
