/** The objects that carry validated blocks from the node to a continuous scan. */
module BlockSinks {
  import opened Wrappers
  import opened Blocks

  /** An unbounded channel; its sender and its receiver are references to it. */
  class BlockChannel {
    var queue: seq<(Block, nat)>

    constructor ()
      ensures queue == []
    {
      queue := [];
    }
  }

  class BlockSink {
    var blockTx: Option<BlockChannel>
    var poisoned: bool

    constructor (tx: BlockChannel)
      ensures blockTx == Some(tx) && !poisoned
    {
      blockTx := Some(tx);
      poisoned := false;
    }

    /** Forward one validated block, if a scan is attached. */
    method OnBlock(block: Block, height: nat)
      modifies if blockTx.Some? then {blockTx.value} else {}
      ensures blockTx == old(blockTx)
      ensures blockTx.Some? ==>
                blockTx.value.queue == old(blockTx.value.queue) + if poisoned then [] else [(block, height)]
    {
      if poisoned {
        return;
      }
      match blockTx {
        case None =>
        case Some(tx) => tx.queue := tx.queue + [(block, height)];
      }
    }
  }

  /** Keeps a sink attached while it lives. */
  class BlockFwdGuard {
    const sink: BlockSink

    constructor (sink: BlockSink)
      ensures this.sink == sink
    {
      this.sink := sink;
    }

    method Drop()
      modifies sink`blockTx
      ensures sink.blockTx == if sink.poisoned then old(sink.blockTx) else None
    {
      if !sink.poisoned {
        sink.blockTx := None;
      }
    }
  }

  /** The node's list of block subscribers. */
  class Subscribers {
    var sinks: seq<BlockSink>

    constructor ()
      ensures sinks == []
    {
      sinks := [];
    }

    method BlockSubscriber(sink: BlockSink)
      modifies this
      ensures sinks == old(sinks) + [sink]
    {
      sinks := sinks + [sink];
    }
  }
}
