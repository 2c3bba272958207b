/** The node's queries that a scan relies on, with the answers of its stores and peers as parameters. */
module NodeQueries {
  import opened Wrappers
  import opened Blocks
  import Fsm

  datatype NodeError =
    | Blockchain
    | CompactBlockFilter
    | UnresponsiveNode
    | MissingBlock(hash: Hash)
    | IllegalAction(state: Fsm.State)
    | StopHeightExceedsFilterTip(requested: nat, available: nat)

  /** What the peers answer to a request for one block. */
  datatype Answer = Found(block: Block) | NotFound | NoReply

  /**
    `Node::match_filters`: only an operational node matches, only up to its
    filter tip; `matched` is the answer of the filter store.
   */
  function MatchFilters(
    state: Fsm.State, filterTip: Result<nat, NodeError>, stop: nat, matched: Result<seq<Hash>, NodeError>)
    : (r: Result<seq<Hash>, NodeError>)
    ensures r.Success? ==> state.Operational? && filterTip.Success? && stop <= filterTip.value && r == matched
    ensures !state.Operational? ==> r == Failure(IllegalAction(state))
    ensures state.Operational? && filterTip.Failure? ==> r == Failure(filterTip.error)
    ensures state.Operational? && filterTip.Success? && stop <= filterTip.value ==> r == matched
    ensures state.Operational? && filterTip.Success? && filterTip.value < stop ==>
              r == Failure(StopHeightExceedsFilterTip(stop, filterTip.value))
  {
    if !state.Operational? then Failure(IllegalAction(state))
    else match filterTip
      case Failure(e) => Failure(e)
      case Success(tip) =>
        if stop > tip then Failure(StopHeightExceedsFilterTip(stop, tip)) else matched
  }

  /**
    `Node::fetch_blocks`: all blocks in the order of their hashes, or an error.
    Of several failing requests the first in list order stands for whichever
    fails first.
   */
  function FetchBlocks(hashes: seq<Hash>, answers: Hash -> Answer): (r: Result<seq<Block>, NodeError>)
    ensures r.Success? <==> forall x :: x in hashes ==> answers(x).Found?
    ensures r.Success? ==> |r.value| == |hashes|
                           && forall i :: 0 <= i < |hashes| ==> answers(hashes[i]) == Found(r.value[i])
    ensures r.Failure? ==> exists x :: x in hashes && !answers(x).Found?
                                       && r.error == if answers(x).NoReply? then UnresponsiveNode else MissingBlock(x)
  {
    if hashes == [] then Success([])
    else match answers(hashes[0])
      case NoReply => Failure(UnresponsiveNode)
      case NotFound => Failure(MissingBlock(hashes[0]))
      case Found(b) =>
        var rest := FetchBlocks(hashes[1..], answers);
        assert forall x :: x in hashes <==> x == hashes[0] || x in hashes[1..];
        match rest
        case Failure(e) => Failure(e)
        case Success(bs) => Success([b] + bs)
  }
}
