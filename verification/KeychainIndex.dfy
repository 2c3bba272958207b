/**
  The wallet's index of its own scripts (`KeychainTxOutIndex`): which scripts it
  watches, which outputs it owns and how far each keychain is revealed.
 */
module KeychainIndex {
  import opened Wrappers
  import opened Blocks

  /** A descriptor with a wildcard derives 2^31 scripts, one without derives one. */
  datatype Descriptor = Ranged | Single

  function Derivable(d: Descriptor): nat {
    if d.Ranged? then 0x8000_0000 else 1
  }

  datatype Index = Index(
    descriptors: map<Keychain, Descriptor>,
    lookahead: U32,
    revealed: map<Keychain, nat>,
    lastUsed: map<Keychain, nat>,
    txouts: map<OutPoint, Script>)

  /** The index that `mem::take` leaves behind. */
  function DefaultIndex(): Index {
    Index(map[], 25, map[], map[], map[])
  }

  /** The first index of a keychain that is not revealed yet. */
  function NextReveal(i: Index, k: Keychain): nat {
    if k in i.revealed then i.revealed[k] + 1 else 0
  }

  /** The index recognises the revealed scripts of a keychain and `lookahead` more. */
  predicate Watches(i: Index, s: Script) {
    && s.Derived?
    && s.keychain in i.descriptors
    && s.index < Derivable(i.descriptors[s.keychain])
    && s.index < NextReveal(i, s.keychain) + i.lookahead
  }

  function Raise(m: map<Keychain, nat>, k: Keychain, n: nat): map<Keychain, nat> {
    if k in m && n <= m[k] then m else m[k := n]
  }

  /** Index one output: a watched script makes it owned, used and revealed. */
  function IndexTxOut(i: Index, op: OutPoint, s: Script): Index {
    if !Watches(i, s) then i
    else i.(
      txouts := i.txouts[op := s],
      lastUsed := Raise(i.lastUsed, s.keychain, s.index),
      revealed := Raise(i.revealed, s.keychain, s.index))
  }

  /** Index the outputs of a transaction from position v on. */
  function IndexOutputs(i: Index, tx: Tx, v: nat): Index
    requires v <= |tx.outputs|
    decreases |tx.outputs| - v
  {
    if v == |tx.outputs| then i
    else IndexOutputs(IndexTxOut(i, OutPoint(tx.txid, v), tx.outputs[v]), tx, v + 1)
  }

  function IndexTx(i: Index, tx: Tx): Index {
    IndexOutputs(i, tx, 0)
  }

  /** The transaction spends an owned output or pays a watched script. */
  predicate IsRelevant(i: Index, tx: Tx) {
    || (exists p :: p in tx.inputs && p in i.txouts)
    || (exists o :: o in tx.outputs && Watches(i, o))
  }

  // ---- Order on indexes

  /** b knows at least what a knows. */
  ghost predicate Le(a: Index, b: Index) {
    && a.descriptors == b.descriptors && a.lookahead == b.lookahead
    && (forall k :: NextReveal(a, k) <= NextReveal(b, k))
    && a.txouts.Keys <= b.txouts.Keys
  }

  lemma {:induction false} IndexOutputsGrows(i: Index, tx: Tx, v: nat)
    requires v <= |tx.outputs|
    ensures Le(i, IndexOutputs(i, tx, v))
    decreases |tx.outputs| - v
  {
    if v < |tx.outputs| {
      IndexOutputsGrows(IndexTxOut(i, OutPoint(tx.txid, v), tx.outputs[v]), tx, v + 1);
    }
  }

  lemma {:induction false} IndexTxOutMonotone(a: Index, b: Index, op: OutPoint, s: Script)
    requires Le(a, b)
    ensures Le(IndexTxOut(a, op, s), IndexTxOut(b, op, s))
  {
    var x, y := IndexTxOut(a, op, s), IndexTxOut(b, op, s);
    forall k ensures NextReveal(x, k) <= NextReveal(y, k) {
      assert NextReveal(a, k) <= NextReveal(b, k);
      if s.Derived? {
        assert NextReveal(a, s.keychain) <= NextReveal(b, s.keychain);
      }
    }
    if Watches(a, s) {
      assert NextReveal(a, s.keychain) <= NextReveal(b, s.keychain);
      assert Watches(b, s);
    }
  }

  lemma {:induction false} IndexOutputsMonotone(a: Index, b: Index, tx: Tx, v: nat)
    requires v <= |tx.outputs| && Le(a, b)
    ensures Le(IndexOutputs(a, tx, v), IndexOutputs(b, tx, v))
    decreases |tx.outputs| - v
  {
    if v < |tx.outputs| {
      var op, s := OutPoint(tx.txid, v), tx.outputs[v];
      hide IndexTxOut, Le;
      IndexTxOutMonotone(a, b, op, s);
      IndexOutputsMonotone(IndexTxOut(a, op, s), IndexTxOut(b, op, s), tx, v + 1);
    }
  }

  /** Knowing more never makes a transaction irrelevant. */
  lemma {:induction false} RelevanceMonotone(a: Index, b: Index, tx: Tx)
    requires Le(a, b)
    ensures Le(IndexTx(a, tx), IndexTx(b, tx))
    ensures IsRelevant(IndexTx(a, tx), tx) ==> IsRelevant(IndexTx(b, tx), tx)
  {
    IndexOutputsMonotone(a, b, tx, 0);
  }

  lemma {:induction false} UnwatchedOutputs(i: Index, tx: Tx, v: nat)
    requires v <= |tx.outputs|
    requires forall o :: o in tx.outputs ==> !Watches(i, o)
    ensures IndexOutputs(i, tx, v) == i
    decreases |tx.outputs| - v
  {
    if v < |tx.outputs| {
      assert tx.outputs[v] in tx.outputs;
      UnwatchedOutputs(i, tx, v + 1);
    }
  }

  /** A transaction that is irrelevant once indexed has not changed the index. */
  lemma {:induction false} IrrelevantLeavesIndex(i: Index, tx: Tx)
    requires !IsRelevant(IndexTx(i, tx), tx)
    ensures IndexTx(i, tx) == i
  {
    IndexOutputsGrows(i, tx, 0);
    assert forall o :: o in tx.outputs ==> !Watches(i, o);
    UnwatchedOutputs(i, tx, 0);
  }

  // ---- Ownership

  /** Every owned output is locked by a watched script. */
  ghost predicate Owns(i: Index, ledger: Ledger) {
    forall op :: op in i.txouts ==> Watches(i, ledger(op))
  }

  lemma {:induction false} IndexOutputsOwns(i: Index, tx: Tx, v: nat, ledger: Ledger)
    requires v <= |tx.outputs| && Owns(i, ledger) && TxAgrees(ledger, tx)
    ensures Owns(IndexOutputs(i, tx, v), ledger)
    decreases |tx.outputs| - v
  {
    if v < |tx.outputs| {
      IndexOutputsOwns(IndexTxOut(i, OutPoint(tx.txid, v), tx.outputs[v]), tx, v + 1, ledger);
    }
  }

  lemma {:induction false} OwnsWatchedOutputs(i: Index, tx: Tx, v: nat, w: nat)
    requires v <= w < |tx.outputs| && Watches(i, tx.outputs[w])
    ensures OutPoint(tx.txid, w) in IndexOutputs(i, tx, v).txouts
    decreases |tx.outputs| - v
  {
    var next := IndexTxOut(i, OutPoint(tx.txid, v), tx.outputs[v]);
    if v < w {
      OwnsWatchedOutputs(next, tx, v + 1, w);
    } else {
      IndexOutputsGrows(next, tx, v + 1);
    }
  }

  /** An output found once is recognised when it is spent, by any index that has grown from there. */
  lemma {:induction false} LaterSpendIsRelevant(i: Index, tx: Tx, w: nat, later: Index, spend: Tx)
    requires w < |tx.outputs| && Watches(i, tx.outputs[w])
    requires Le(IndexTx(i, tx), later) && OutPoint(tx.txid, w) in spend.inputs
    ensures IsRelevant(IndexTx(later, spend), spend)
  {
    OwnsWatchedOutputs(i, tx, 0, w);
    IndexOutputsGrows(later, spend, 0);
  }

  // ---- Script derivation

  const FULL_SCAN_LOOKAHEAD: U32 := 1000

  datatype DeriveError = NoExternalKeychain

  function SaturatingAdd(a: nat, b: nat): (r: nat)
    ensures r < 0x1_0000_0000
  {
    if a + b < 0x1_0000_0000 then a + b else 0xffff_ffff
  }

  /** The first n scripts of a keychain, as many as there are. */
  function TakeSpks(k: Keychain, d: Descriptor, n: nat): (r: seq<Script>)
    ensures |r| == Min(n, Derivable(d))
    ensures forall j :: 0 <= j < |r| ==> r[j] == Derived(k, j)
  {
    seq(Min(n, Derivable(d)), j requires 0 <= j => Derived(k, j))
  }

  function LastRevealedOr0(i: Index, k: Keychain): nat {
    if k in i.revealed then i.revealed[k] else 0
  }

  /** A script lies in the window that a scan with this lookahead derives. */
  ghost predicate InWindow(i: Index, lookahead: U32, s: Script) {
    && s.Derived? && s.keychain in i.descriptors
    && s.index < Derivable(i.descriptors[s.keychain])
    && s.index < LastRevealedOr0(i, s.keychain) + lookahead
  }

  /**
    The window in numbers: a wildcard descriptor has 2^31 scripts and any other
    has one, and the window ends `lookahead` after the last revealed index, or
    after 0 if nothing is revealed.
   */
  lemma {:induction false} WindowInNumbers(i: Index, lookahead: U32, k: Keychain, n: nat)
    ensures InWindow(i, lookahead, Derived(k, n)) <==>
            && k in i.descriptors && (if i.descriptors[k].Ranged? then n < 2147483648 else n == 0)
            && (if k in i.revealed then n < i.revealed[k] + lookahead else n < lookahead)
  {
  }

  /** External scripts come before internal ones, and each keychain's in the order of their indices. */
  predicate Earlier(s: Script, t: Script) {
    && s.Derived? && t.Derived?
    && (if s.keychain == t.keychain then s.index < t.index else s.keychain == External)
  }

  /** External scripts first; the internal keychain is optional. */
  function DeriveSpks(i: Index, lookahead: U32): (r: Result<seq<Script>, DeriveError>)
    ensures r.Failure? <==> External !in i.descriptors
    ensures r.Success? ==> forall s :: s in r.value <==> InWindow(i, lookahead, s)
    ensures r.Success? ==> forall a, b :: 0 <= a < b < |r.value| ==> Earlier(r.value[a], r.value[b])
  {
    if External !in i.descriptors then Failure(NoExternalKeychain)
    else
      var external := TakeSpks(External, i.descriptors[External],
                               SaturatingAdd(LastRevealedOr0(i, External), lookahead));
      var internal := if Internal !in i.descriptors then []
                      else TakeSpks(Internal, i.descriptors[Internal],
                                    SaturatingAdd(LastRevealedOr0(i, Internal), lookahead));
      DerivedSpks(i, lookahead, external, internal);
      Success(external + internal)
  }

  lemma {:induction false} DerivedSpks(i: Index, lookahead: U32, external: seq<Script>, internal: seq<Script>)
    requires External in i.descriptors
    requires external == TakeSpks(External, i.descriptors[External],
                                  SaturatingAdd(LastRevealedOr0(i, External), lookahead))
    requires internal == if Internal !in i.descriptors then []
                         else TakeSpks(Internal, i.descriptors[Internal],
                                       SaturatingAdd(LastRevealedOr0(i, Internal), lookahead))
    ensures forall s :: s in external + internal <==> InWindow(i, lookahead, s)
  {
    forall s | InWindow(i, lookahead, s) ensures s in external + internal {
      if s.keychain == External {
        assert external[s.index] == s;
      } else {
        assert internal[s.index] == s;
      }
    }
  }

  /** A revealed index always exists. */
  ghost predicate RevealedExist(i: Index) {
    forall k :: k in i.revealed ==> k in i.descriptors && i.revealed[k] < Derivable(i.descriptors[k])
  }

  /** The window grows with what is revealed and with the lookahead, and holds every revealed script. */
  lemma {:induction false} WindowGrows(a: Index, b: Index, m: U32, n: U32, s: Script)
    requires Le(a, b) && m <= n && RevealedExist(a)
    ensures InWindow(a, m, s) ==> InWindow(b, n, s)
    ensures 1 <= m && s.Derived? && s.keychain in a.revealed && s.index <= a.revealed[s.keychain] ==> InWindow(a, m, s)
  {
    if s.Derived? {
      assert NextReveal(a, s.keychain) <= NextReveal(b, s.keychain);
    }
  }

  lemma {:induction false} PaidIsRevealed(i: Index, tx: Tx, v: nat, w: nat)
    requires v <= w < |tx.outputs| && Watches(i, tx.outputs[w])
    ensures tx.outputs[w].index < NextReveal(IndexOutputs(i, tx, v), tx.outputs[w].keychain)
    decreases |tx.outputs| - v
  {
    var next := IndexTxOut(i, OutPoint(tx.txid, v), tx.outputs[v]);
    if v < w {
      PaidIsRevealed(next, tx, v + 1, w);
    } else {
      IndexOutputsGrows(next, tx, v + 1);
      assert NextReveal(next, tx.outputs[w].keychain) <=
             NextReveal(IndexOutputs(next, tx, v + 1), tx.outputs[w].keychain);
    }
  }

  /** A payment moves the window: the next scan derives `lookahead` scripts from the index paid on. */
  lemma {:induction false} PaymentMovesWindow(i: Index, tx: Tx, w: nat, lookahead: U32, n: nat)
    requires w < |tx.outputs| && Watches(i, tx.outputs[w])
    requires n < tx.outputs[w].index + lookahead && n < Derivable(i.descriptors[tx.outputs[w].keychain])
    ensures InWindow(IndexTx(i, tx), lookahead, Derived(tx.outputs[w].keychain, n))
  {
    PaidIsRevealed(i, tx, 0, w);
    IndexOutputsGrows(i, tx, 0);
  }

  /** Some revealed keychain has a script one past its window. */
  ghost predicate Short(i: Index, lookahead: U32) {
    exists k :: && k in i.descriptors
                && LastRevealedOr0(i, k) + lookahead < Derivable(i.descriptors[k])
                && LastRevealedOr0(i, k) + lookahead < NextReveal(i, k) + i.lookahead
  }

  /**
    The derived window covers what the index watches exactly when no keychain is
    short. With the index's own lookahead, every keychain that is revealed but
    not exhausted is short by its last watched script.
   */
  lemma {:induction false} WindowCoversWatched(i: Index, lookahead: U32)
    ensures (forall s :: Watches(i, s) ==> InWindow(i, lookahead, s)) <==> !Short(i, lookahead)
    ensures Short(i, i.lookahead) <==>
            exists k :: k in i.descriptors && k in i.revealed
                        && i.revealed[k] + i.lookahead < Derivable(i.descriptors[k])
  {
    if Short(i, lookahead) {
      var k :| && k in i.descriptors
               && LastRevealedOr0(i, k) + lookahead < Derivable(i.descriptors[k])
               && LastRevealedOr0(i, k) + lookahead < NextReveal(i, k) + i.lookahead;
      var s := Derived(k, LastRevealedOr0(i, k) + lookahead);
      assert Watches(i, s) && !InWindow(i, lookahead, s);
    }
  }
}
