/**
  The wallet library's chain of checkpoints: a sparse chain of block ids in
  ascending height that always starts at genesis.
 */
module CheckPoints {
  import opened Blocks

  type CheckPoint = seq<BlockId>

  ghost predicate ValidCheckPoint(c: CheckPoint) {
    && |c| > 0 && c[0].height == 0
    && forall i, j :: 0 <= i < j < |c| ==> c[i].height < c[j].height
  }

  function TipHeight(c: CheckPoint): nat
    requires |c| > 0
  {
    c[|c| - 1].height
  }

  /** Every checkpoint is a block of the chain. */
  ghost predicate OnChain(c: CheckPoint, chain: Chain) {
    forall b :: b in c ==> b.height < |chain| && chain[b.height].hash == b.hash
  }

  ghost predicate Conflicts(c: CheckPoint, b: BlockId) {
    exists x :: x in c && x.height == b.height && x.hash != b.hash
  }

  /** How many checkpoints lie below height h. */
  function Below(c: CheckPoint, h: nat): (n: nat)
    requires ValidCheckPoint(c)
    ensures n <= |c|
    ensures forall i :: 0 <= i < n ==> c[i].height < h
    ensures forall i :: n <= i < |c| ==> h <= c[i].height
  {
    BelowFrom(c, h, |c|)
  }

  function BelowFrom(c: CheckPoint, h: nat, n: nat): (m: nat)
    requires ValidCheckPoint(c) && n <= |c|
    requires forall i :: n <= i < |c| ==> h <= c[i].height
    ensures m <= |c|
    ensures forall i :: 0 <= i < m ==> c[i].height < h
    ensures forall i :: m <= i < |c| ==> h <= c[i].height
  {
    if n > 0 && h <= c[n - 1].height then BelowFrom(c, h, n - 1) else n
  }

  /**
    `CheckPoint::insert`: lower blocks stay, higher blocks stay unless the
    height already held another hash. The library refuses to replace genesis.
   */
  function Insert(c: CheckPoint, b: BlockId): (r: CheckPoint)
    requires ValidCheckPoint(c)
    requires b.height == 0 ==> b == c[0]
    ensures ValidCheckPoint(r) && r[0] == c[0]
  {
    var n := Below(c, b.height);
    if n < |c| && c[n].height == b.height then
      if c[n].hash == b.hash then c else c[..n] + [b]
    else
      c[..n] + [b] + c[n..]
  }

  /** Exactly which checkpoints an insertion leaves. */
  lemma {:induction false} InsertMembers(c: CheckPoint, b: BlockId, x: BlockId)
    requires ValidCheckPoint(c)
    requires b.height == 0 ==> b == c[0]
    ensures x in Insert(c, b) <==>
            x == b || (x in c && (x.height < b.height || (x.height > b.height && !Conflicts(c, b))))
  {
    var n := Below(c, b.height);
    if n < |c| && c[n].height == b.height {
      assert c[n] in c;
      assert Conflicts(c, b) <==> c[n].hash != b.hash;
      assert forall i :: 0 <= i < n ==> c[..n][i] == c[i];
    } else {
      assert !Conflicts(c, b);
      assert c == c[..n] + c[n..];
    }
  }

  /** An insertion leaves the higher of the two tips, unless it cuts the chain. */
  lemma {:induction false} InsertTip(c: CheckPoint, b: BlockId)
    requires ValidCheckPoint(c)
    requires b.height == 0 ==> b == c[0]
    ensures b in Insert(c, b)
    ensures TipHeight(Insert(c, b)) ==
            if Conflicts(c, b) || TipHeight(c) <= b.height then b.height else TipHeight(c)
  {
    InsertMembers(c, b, b);
    var n := Below(c, b.height);
    if n < |c| && c[n].height == b.height {
      assert c[n] in c;
    }
  }

  /** On one chain nothing is ever cut, so the tip only rises. */
  lemma {:induction false} InsertOnChain(c: CheckPoint, b: BlockId, chain: Chain)
    requires ValidCheckPoint(c) && OnChain(c, chain)
    requires b.height < |chain| && chain[b.height].hash == b.hash
    requires b.height == 0 ==> b == c[0]
    ensures OnChain(Insert(c, b), chain)
    ensures forall x :: x in c ==> x in Insert(c, b)
    ensures TipHeight(Insert(c, b)) == if b.height <= TipHeight(c) then TipHeight(c) else b.height
  {
    assert !Conflicts(c, b);
    InsertTip(c, b);
    forall x {
      InsertMembers(c, b, x);
    }
  }
}
