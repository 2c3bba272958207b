/** The node's stages and the rule that steps between them. */
module Fsm {
  import opened Wrappers

  const OPERATIONAL_TOLERANCE: nat := 6

  datatype State =
    | Inactive
    | Active
    | DnsBootstrapping
    | HeaderSync(height: U32)
    | InitialBlockDownload(chainHeight: U32, nodeHeight: U32)
    | CompactBlockFilterDownload(filterHeight: U32)
    | Backfill
    | Operational
    | ShuttingDown

  /** What one poll reads. */
  datatype Reading = Reading(wireReady: bool, node: U32, chain: U32, filter: U32)

  /** Addition of 32-bit numbers, wrapping as in an optimised build. */
  function WrappingAdd(a: U32, b: nat): U32 {
    (a + b) % 0x1_0000_0000
  }

  function ComputeNextState(current: State, r: Reading): State {
    var filter := if r.filter > r.node then r.node else r.filter;
    match current
    case ShuttingDown => current
    case Inactive => current
    case DnsBootstrapping => current
    case Backfill => current
    case _ =>
      if !r.wireReady then Active
      else if r.node == 0 && r.chain > 0 then HeaderSync(r.chain)
      else if WrappingAdd(r.node, OPERATIONAL_TOLERANCE) < r.chain then InitialBlockDownload(r.chain, r.node)
      else if filter < r.chain then CompactBlockFilterDownload(filter)
      else if r.node > 0 then Operational
      else Active
  }

  /** The stages that the polling task moves between. */
  predicate Polled(s: State) {
    s.Active? || s.HeaderSync? || s.InitialBlockDownload? || s.CompactBlockFilterDownload? || s.Operational?
  }

  predicate Overflows(r: Reading) {
    r.node + OPERATIONAL_TOLERANCE >= 0x1_0000_0000
  }

  /**
    Readiness, for all readings: both the node and its filters have reached the
    chain tip. A node height in the last six 32-bit values is the one exception.
   */
  lemma {:induction false} ReadyExactly(s: State, r: Reading)
    requires Polled(s)
    ensures ComputeNextState(s, r).Operational? <==>
            && r.wireReady && r.node > 0 && r.node >= r.chain && r.filter >= r.chain
            && !(Overflows(r) && r.node + OPERATIONAL_TOLERANCE - 0x1_0000_0000 < r.chain)
  {
    if Overflows(r) {
      assert WrappingAdd(r.node, OPERATIONAL_TOLERANCE) == r.node + OPERATIONAL_TOLERANCE - 0x1_0000_0000;
    } else {
      assert WrappingAdd(r.node, OPERATIONAL_TOLERANCE) == r.node + OPERATIONAL_TOLERANCE;
    }
  }

  /** The node lags by more than the tolerance; an overflowing tolerance wraps around. */
  predicate FarBehind(r: Reading) {
    if Overflows(r) then r.node + 6 - 0x1_0000_0000 < r.chain else r.node + 6 < r.chain
  }

  /** Every stage that a poll can give, for all readings, with the heights it reports. */
  lemma {:induction false} StagesExactly(s: State, r: Reading)
    requires Polled(s)
    ensures var next := ComputeNextState(s, r);
            && (next == Active <==> !r.wireReady || (r.node == 0 && r.chain == 0))
            && (next.HeaderSync? <==> r.wireReady && r.node == 0 && r.chain > 0)
            && (next.HeaderSync? ==> next.height == r.chain)
            && (next.InitialBlockDownload? <==> r.wireReady && r.node > 0 && FarBehind(r))
            && (next.InitialBlockDownload? ==> next.chainHeight == r.chain && next.nodeHeight == r.node)
            && (next.CompactBlockFilterDownload? <==>
                  r.wireReady && r.node > 0 && !FarBehind(r) && (r.node < r.chain || r.filter < r.chain))
            && (next.CompactBlockFilterDownload? ==> next.filterHeight == Min(r.filter, r.node))
  {
    if Overflows(r) {
      assert WrappingAdd(r.node, OPERATIONAL_TOLERANCE) == r.node + OPERATIONAL_TOLERANCE - 0x1_0000_0000;
    } else {
      assert WrappingAdd(r.node, OPERATIONAL_TOLERANCE) == r.node + OPERATIONAL_TOLERANCE;
    }
  }

  /** A poll leaves a node alone that is not in one of the polled stages. */
  lemma {:induction false} OtherStagesStay(s: State, r: Reading)
    requires s == Inactive || s == ShuttingDown || s == DnsBootstrapping || s == Backfill
    ensures ComputeNextState(s, r) == s
  {
  }

  /**
    A node lagging by at most the tolerance is never operational, whatever its
    filters: the clamp makes it report a filter download below the tip.
   */
  lemma {:induction false} ToleranceNeverOperational(s: State, r: Reading)
    requires Polled(s) && r.wireReady && 0 < r.node < r.chain <= r.node + OPERATIONAL_TOLERANCE
    ensures var next := ComputeNextState(s, r);
            && !next.Operational?
            && (!Overflows(r) ==> next.CompactBlockFilterDownload? && next.filterHeight <= r.node)
  {
    if !Overflows(r) {
      assert WrappingAdd(r.node, OPERATIONAL_TOLERANCE) == r.node + OPERATIONAL_TOLERANCE;
    }
  }

  /** The state after the polls of a run. */
  function PollRun(s: State, rs: seq<Reading>): (out: State)
    ensures !Polled(s) ==> out == s
    ensures Polled(s) ==> Polled(out)
  {
    if rs == [] then s else ComputeNextState(PollRun(s, rs[..|rs| - 1]), rs[|rs| - 1])
  }

  /** Polling forgets: only the last reading decides the stage. */
  lemma {:induction false} Memoryless(s: State, t: State, rs: seq<Reading>, qs: seq<Reading>)
    requires Polled(s) && Polled(t)
    requires rs != [] && qs != [] && rs[|rs| - 1] == qs[|qs| - 1]
    ensures PollRun(s, rs) == PollRun(t, qs)
  {
  }

  function Rank(s: State): nat {
    match s
    case Active => 0
    case HeaderSync(_) => 1
    case InitialBlockDownload(_, _) => 2
    case CompactBlockFilterDownload(_) => 3
    case Operational => 4
    case _ => 5
  }

  /** Readings of a live connection to one chain tip, with heights that only rise. */
  ghost predicate Climbing(rs: seq<Reading>) {
    && (forall i :: 0 <= i < |rs| ==> rs[i].wireReady && rs[i].chain == rs[0].chain && !Overflows(rs[i]))
    && forall i, j :: 0 <= i < j < |rs| ==> rs[i].node <= rs[j].node && rs[i].filter <= rs[j].filter
  }

  lemma {:induction false} RankOfStep(s: State, t: State, a: Reading, b: Reading)
    requires Polled(s) && Polled(t)
    requires a.wireReady && b.wireReady && a.chain == b.chain
    requires a.node <= b.node && a.filter <= b.filter && !Overflows(a) && !Overflows(b)
    ensures Rank(ComputeNextState(s, a)) <= Rank(ComputeNextState(t, b))
  {
    assert WrappingAdd(a.node, OPERATIONAL_TOLERANCE) == a.node + OPERATIONAL_TOLERANCE;
    assert WrappingAdd(b.node, OPERATIONAL_TOLERANCE) == b.node + OPERATIONAL_TOLERANCE;
  }

  /** While the heights climb, the stage never falls back. */
  lemma {:induction false} StagesOnlyClimb(s: State, rs: seq<Reading>, m: nat, n: nat)
    requires Polled(s) && Climbing(rs) && 0 < m <= n <= |rs|
    ensures Rank(PollRun(s, rs[..m])) <= Rank(PollRun(s, rs[..n]))
  {
    var a, b := rs[..m], rs[..n];
    assert a[|a| - 1] == rs[m - 1] && b[|b| - 1] == rs[n - 1];
    RankOfStep(PollRun(s, a[..m - 1]), PollRun(s, b[..n - 1]), rs[m - 1], rs[n - 1]);
  }

  /** A stage can fall back once the tolerance overflows, so the hypothesis matters. */
  lemma {:induction false} OverflowFallsBack()
    ensures var tip := 0xffff_fffa;
            var before, after := Reading(true, 0xffff_fff9, tip, tip), Reading(true, tip, tip, tip);
            Rank(ComputeNextState(Active, after)) < Rank(ComputeNextState(Active, before))
  {
    assert WrappingAdd(0xffff_fffa, OPERATIONAL_TOLERANCE) == 0;
  }
}
