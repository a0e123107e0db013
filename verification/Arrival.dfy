/** The arrival of an alternative block: its size is tested with the transactions that are known at that time. */
module Arrival {
  import opened ChainTypes
  import opened Rules
  import opened Ledger
  import opened Steps
  import opened Reorganisation
  import opened Switching
  import opened Conservation
  import opened Supply

  /** The transaction is in the chain or in the pool. */
  predicate Known(s: State, tx: Transaction) {
    tx in s.pool || OfTransaction(tx) in s.d.transactions
  }

  /** `getBlockCumulativeSize`: the coinbase, and those of the first `k` named transactions that are known. */
  function KnownSize(s: State, b: Block, k: nat): nat
    requires k <= |b.transactionHashes|
  {
    if k == 0 then b.baseTransaction.blobSize
    else
      var h := b.transactionHashes[k - 1];
      KnownSize(s, b, k - 1) + if h.OfTransaction? && Known(s, h.tx) then h.tx.blobSize else 0
  }

  /** The size test of `handle_alternative_block`, at the height that the coinbase claims. */
  predicate Arrives(rules: Rules, s: State, b: Block) {
    BaseHeight(b) != 0 && KnownSize(s, b, |b.transactionHashes|) <= rules.maxSize(BaseHeight(b))
  }

  /** The sizes that count: of each named transaction that is known, and nothing for the others. */
  function KnownSizes(s: State, b: Block): (r: seq<nat>)
    ensures |r| == |b.transactionHashes|
    ensures forall i | 0 <= i < |r| ::
              var h := b.transactionHashes[i];
              r[i] == if h.OfTransaction? && (h.tx in s.pool || h in s.d.transactions) then h.tx.blobSize else 0
  {
    seq(|b.transactionHashes|, i requires 0 <= i < |b.transactionHashes| =>
      var h := b.transactionHashes[i];
      if h.OfTransaction? && Known(s, h.tx) then h.tx.blobSize else 0)
  }

  lemma {:induction false} KnownSizeIs(s: State, b: Block, k: nat)
    requires k <= |b.transactionHashes|
    ensures KnownSize(s, b, k) == b.baseTransaction.blobSize + Total(KnownSizes(s, b)[..k])
  {
    if k > 0 {
      KnownSizeIs(s, b, k - 1);
      var sizes := KnownSizes(s, b);
      assert sizes[..k] == sizes[..k - 1] + [sizes[k - 1]];
      TotalAdds(sizes[..k - 1], [sizes[k - 1]]);
      assert Total([sizes[k - 1]]) == sizes[k - 1] + Total([]);
    }
  }

  /** A block arrives if and only if its coinbase claims a height other than zero and the known part of it is within the
      limit of that height. */
  lemma ArrivesIff(rules: Rules, s: State, b: Block)
    ensures Arrives(rules, s, b) <==>
              && b.baseTransaction.inputs != [] && b.baseTransaction.inputs[0].BaseInput?
              && var h := b.baseTransaction.inputs[0].blockIndex;
                 h > 0 && b.baseTransaction.blobSize + Total(KnownSizes(s, b)) <= rules.maxSize(h)
  {
    hide KnownSize, KnownSizes, Total;
    KnownSizeIs(s, b, |b.transactionHashes|);
    assert KnownSizes(s, b)[..|b.transactionHashes|] == KnownSizes(s, b);
  }

  lemma {:induction false} KnownIsExact(s: State, b: Block, k: nat)
    requires NamesTransactions(b) && k <= |b.transactionHashes|
             && forall j | 0 <= j < k :: Known(s, b.transactionHashes[j].tx)
    ensures KnownSize(s, b, k) == SizeSum(BlockTxs(b), k + 1)
  {
    if k == 0 {
      assert SizeSum(BlockTxs(b), 0) == 0;
    } else {
      KnownIsExact(s, b, k - 1);
    }
  }

  /** A block that arrives when all its transactions are known never fails for its size. */
  lemma KnownNeverFails(rules: Rules, s: State, b: Block, now: nat, t: State)
    requires Arrives(rules, s, b) && NamesTransactions(b)
    requires forall j | 0 <= j < |b.transactionHashes| :: Known(s, b.transactionHashes[j].tx)
    ensures !FailsForSize(rules, now, t, b)
  {
    hide BodyOk, SizeSum, KnownSize, Ids;
    KnownIsExact(s, b, |b.transactionHashes|);
  }

  lemma {:induction false} NamedFromIn(blocks: seq<BlockEntry>, h: nat, tx: Transaction) returns (k: nat)
    requires tx in NamedFrom(blocks, h)
    ensures h <= k < |blocks| && OfTransaction(tx) in blocks[k].bl.transactionHashes
    decreases |blocks|
  {
    var n := |blocks| - 1;
    if tx in NamedSet(blocks[n].bl) {
      k := n;
      var b := blocks[n].bl;
      var i :| 0 <= i < |b.transactionHashes| && b.transactionHashes[i].OfTransaction?
               && b.transactionHashes[i].tx == tx;
      assert b.transactionHashes[i] == OfTransaction(tx);
    } else {
      k := NamedFromIn(blocks[..n], h, tx);
    }
  }

  /** What is in the pool after the main chain is popped was known before. */
  lemma PoppedIsKnown(rules: Rules, s: State, split: nat, tx: Transaction)
    requires Good(rules, s) && split <= |s.blocks| && tx in PopTo(s, split).pool
    ensures Known(s, tx)
  {
    hide Good, Kept, PopTo, Undoable;
    PopToKeepsGood(rules, s, split);
    if tx !in s.pool {
      var k := NamedFromIn(s.blocks, split, tx);
      GoodIsKept(rules, s);
      NamedIsThere(rules, s, k, tx);
    }
  }

  /** A switch to the one block that has just arrived never fails for its size. */
  lemma OneBlockNeverFails(rules: Rules, delays: nat -> nat, s: State, b: Block, split: nat)
    requires Good(rules, s) && split <= |s.blocks| && Arrives(rules, s, b)
    ensures !FailsInTurn(rules, delays, 0, PopTo(s, split), [b])
  {
    hide Good, PopTo, PushBlock, Arrives, BodyOk, HeaderOk, SizeSum, BlockTxs, Known;
    var p := PopTo(s, split);
    if FailsForSize(rules, p.now + delays(0), p, b) {
      LoadNames(p.pool, b);
      forall j | 0 <= j < |b.transactionHashes| ensures Known(s, b.transactionHashes[j].tx) {
        PoppedIsKnown(rules, s, split, b.transactionHashes[j].tx);
      }
      KnownNeverFails(rules, s, b, p.now + delays(0), p);
    }
  }

  /** So outside the checkpoint zone such a switch is all or nothing, if and only if the block is not left by an
      exception. */
  lemma OneBlockSwitch(rules: Rules, delays: nat -> nat, s: State, b: Block, split: nat)
    requires Good(rules, s) && Proceeds(s, [b], split, true) && Arrives(rules, s, b)
    requires AllCountable([b]) && forall k | split <= k :: !rules.inZone(k)
    ensures var (s', ok) := Switch(rules, delays, s, [b], split, true);
      AllOrNothing(s, [b], split, s', ok) <==> !IsThrown(rules, s.now + delays(0), Below(s, split), b)
  {
    hide Good, PopTo, Covers, Below, Arrives, FailsInTurn, AllOrNothing, Switch, AllCountable, SwitchDefined,
         IsThrown, PushBlock;
    OneBlockNeverFails(rules, delays, s, b, split);
    GoodBelow(rules, s, split);
    SwitchOutsideZone(rules, delays, s, [b], split);
  }
}
