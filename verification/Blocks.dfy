/**
  Blocks as a wallet scan sees them. A script is identified with the keychain
  index it derives from, so derivation is injective by construction. A hash or
  a transaction id is an opaque number.
 */
module Blocks {
  type Hash = nat
  type Txid = nat

  datatype Keychain = External | Internal

  datatype Script = Derived(keychain: Keychain, index: nat) | Foreign(id: nat)

  datatype OutPoint = OutPoint(txid: Txid, vout: nat)

  datatype Tx = Tx(txid: Txid, inputs: seq<OutPoint>, outputs: seq<Script>)

  datatype Block = Block(hash: Hash, txs: seq<Tx>)

  datatype BlockId = BlockId(height: nat, hash: Hash)

  /** The best chain, indexed by height. */
  type Chain = seq<Block>

  /** The script locked by every output that exists. */
  type Ledger = OutPoint -> Script

  ghost predicate TxAgrees(ledger: Ledger, tx: Tx) {
    forall v :: 0 <= v < |tx.outputs| ==> ledger(OutPoint(tx.txid, v)) == tx.outputs[v]
  }

  ghost predicate ChainAgrees(ledger: Ledger, chain: Chain) {
    forall h, tx :: 0 <= h < |chain| && tx in chain[h].txs ==> TxAgrees(ledger, tx)
  }

  /** The transaction creates or spends an output locked by one of the scripts. */
  ghost predicate TxTouches(ledger: Ledger, tx: Tx, spks: seq<Script>) {
    || (exists o :: o in tx.outputs && o in spks)
    || (exists p :: p in tx.inputs && ledger(p) in spks)
  }

  /**
    The scripts of a block's filter are those of its outputs and of the outputs
    it spends (BIP 158, section "Contents").
   */
  ghost predicate Touches(ledger: Ledger, b: Block, spks: seq<Script>) {
    exists tx :: tx in b.txs && TxTouches(ledger, tx, spks)
  }

  ghost predicate Ascending(hs: seq<nat>) {
    forall i, j :: 0 <= i < j < |hs| ==> hs[i] < hs[j]
  }
}
