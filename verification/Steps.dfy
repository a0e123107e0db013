/** Each operation on the main chain keeps the invariant; popping and pushing again is the identity. */
module Steps {
  import opened ChainTypes
  import opened DerivedState
  import opened Rules
  import opened Ledger
  import opened Places

  // ---------------------------------------------------------------------------------------------
  // Explorer indexes

  lemma {:induction false} CountsAgree(blocks: seq<BlockEntry>, e: BlockEntry, k: nat)
    requires k <= |blocks|
    ensures TransactionCount(blocks + [e], k) == TransactionCount(blocks, k)
  {
    if k != 0 { CountsAgree(blocks, e, k - 1); }
  }

  /** The transaction counts per height when the running counter starts at `c`. */
  function CountsFrom(c: nat, blocks: seq<BlockEntry>): map<nat, nat> {
    map h | 0 <= h < |blocks| :: c + CountThrough(blocks, h)
  }

  lemma CountsSize(c: nat, blocks: seq<BlockEntry>)
    ensures |CountsFrom(c, blocks)| == |blocks|
  {
    MapSize(CountsFrom(c, blocks), |blocks|);
  }

  lemma TotalStep(blocks: seq<BlockEntry>, e: BlockEntry)
    ensures TransactionCount(blocks + [e], |blocks| + 1) == TransactionCount(blocks, |blocks|) + |e.bl.transactionHashes| + 1
    ensures CountThrough(blocks + [e], |blocks|) == TransactionCount(blocks + [e], |blocks| + 1)
    ensures Stamps(blocks + [e]) == Stamps(blocks) + multiset{(e.bl.timestamp as nat, OfBlock(e.bl))}
  {
    CountsAgree(blocks, e, |blocks|);
    assert (blocks + [e])[..|blocks|] == blocks;
  }

  lemma CountThroughAgrees(blocks: seq<BlockEntry>, e: BlockEntry, h: nat)
    requires h < |blocks|
    ensures CountThrough(blocks + [e], h) == CountThrough(blocks, h)
  {
    CountsAgree(blocks, e, h + 1);
  }

  lemma CountsStep(c: nat, blocks: seq<BlockEntry>, e: BlockEntry)
    ensures CountsFrom(c, blocks + [e]) == CountsFrom(c, blocks)[|blocks| := c + CountThrough(blocks + [e], |blocks|)]
  {
    hide CountThrough;
    var n, more := |blocks|, blocks + [e];
    forall h: nat | h < n ensures CountThrough(more, h) == CountThrough(blocks, h) {
      CountThroughAgrees(blocks, e, h);
    }
  }

  /** Rebuilding the counts gives the true ones if and only if the counter was zero or the chain is empty. */
  lemma FreshCounterNeeded(c: nat, blocks: seq<BlockEntry>)
    ensures CountsFrom(c, blocks) == IndexesOf(true, blocks).generated <==> c == 0 || blocks == []
  {
    hide TransactionCount;
    if c != 0 && blocks != [] {
      assert CountsFrom(c, blocks)[0] != IndexesOf(true, blocks).generated[0];
    }
  }

  /** Adding a block to the explorer indexes is the same as rebuilding them. */
  lemma IndexesExtend(indexed: bool, blocks: seq<BlockEntry>, e: BlockEntry)
    requires BaseHeight(e.bl) == |blocks|
    ensures IndexesOf(indexed, blocks + [e]) == AddIndexes(indexed, IndexesOf(indexed, blocks), e.bl)
  {
    var more := blocks + [e];
    assert more[..|blocks|] == blocks;
    assert Ids(more) == Ids(blocks) + [OfBlock(e.bl)];
    CountsAgree(blocks, e, |blocks|);
    var was := IndexesOf(indexed, blocks);
    if indexed {
      GeneratedSize(blocks);
      assert TransactionCount(more, |more|) == was.lastGenerated + |e.bl.transactionHashes| + 1;
      forall h | 0 <= h < |blocks| ensures CountThrough(more, h) == CountThrough(blocks, h) {
        CountsAgree(blocks, e, h + 1);
      }
      assert IndexesOf(indexed, more).generated == was.generated[|blocks| := CountThrough(more, |blocks|)];
    }
  }

  lemma GeneratedSize(blocks: seq<BlockEntry>)
    ensures |IndexesOf(true, blocks).generated| == |blocks|
  {
    MapSize(IndexesOf(true, blocks).generated, |blocks|);
  }

  lemma {:induction false} MapSize(m: map<nat, nat>, n: nat)
    requires forall h: nat :: h in m <==> h < n
    ensures |m| == n
    decreases n
  {
    if n != 0 {
      MapSize(m - {n - 1}, n - 1);
      assert m == (m - {n - 1})[n - 1 := m[n - 1]];
    } else {
      assert m == map[];
    }
  }

  /** Removing a block from the explorer indexes undoes adding it. */
  lemma RemoveUndoesAdd(indexed: bool, ix: Indexes, e: BlockEntry)
    requires e.height == |ix.ids|
    requires indexed ==>
      var h := |ix.generated|;
      && BaseHeight(e.bl) == h && h !in ix.generated
      && ix.lastGenerated == if h != 0 && h - 1 in ix.generated then ix.generated[h - 1] else 0
    ensures RemoveIndexes(indexed, AddIndexes(indexed, ix, e.bl), e) == ix
  {
    assert (ix.ids + [OfBlock(e.bl)])[..|ix.ids|] == ix.ids;
    if indexed {
      var h := |ix.generated|;
      var count := ix.lastGenerated + |e.bl.transactionHashes| + 1;
      var more := ix.generated[h := count];
      assert AddIndexes(indexed, ix, e.bl).generated == more;
      assert |more| == h + 1;
      assert more - {h} == ix.generated;
      assert h != 0 ==> (h - 1 in more <==> h - 1 in ix.generated);
    }
  }

  lemma IndexesShrink(indexed: bool, blocks: seq<BlockEntry>, e: BlockEntry)
    requires BaseHeight(e.bl) == e.height == |blocks|
    ensures RemoveIndexes(indexed, IndexesOf(indexed, blocks + [e]), e) == IndexesOf(indexed, blocks)
  {
    IndexesExtend(indexed, blocks, e);
    if indexed {
      GeneratedSize(blocks);
      if |blocks| > 0 {
        assert CountThrough(blocks, |blocks| - 1) == TransactionCount(blocks, |blocks|);
      }
    }
    RemoveUndoesAdd(indexed, IndexesOf(indexed, blocks), e);
  }

  // ---------------------------------------------------------------------------------------------
  // What a block records

  lemma {:induction false} AppliedGrows(d: Derived, all: seq<Transaction>, n: nat, j: nat, k: nat)
    requires j <= k <= |all|
    ensures Applied(d, all, n, j).transactions.Keys <= Applied(d, all, n, k).transactions.Keys
    ensures forall i | j <= i < k :: OfTransaction(all[i]) in Applied(d, all, n, k).transactions
    decreases k - j
  {
    hide Record;
    if j < k {
      RecordKeeps(Applied(d, all, n, k - 1), all[k - 1], TransactionIndex(n, k - 1));
      AppliedGrows(d, all, n, j, k - 1);
    }
  }

  /** The transactions of a block on which every push succeeds are distinct and were not recorded before. */
  lemma RecordedAreNew(d: Derived, all: seq<Transaction>, n: nat)
    requires AllPushable(d, all, n, |all|)
    ensures forall j | 0 <= j < |all| :: OfTransaction(all[j]) !in d.transactions
    ensures forall i, j | 0 <= i < j < |all| :: all[i] != all[j]
    ensures forall j | 0 <= j < |all| :: OfTransaction(all[j]) in Applied(d, all, n, |all|).transactions
    ensures d.transactions.Keys <= Applied(d, all, n, |all|).transactions.Keys
  {
    hide Apply, Applied;
    AppliedGrows(d, all, n, 0, |all|);
    NoneApplied(d, all, n);
    forall j | 0 <= j < |all|
      ensures OfTransaction(all[j]) !in d.transactions
      ensures forall i | 0 <= i < j :: all[i] != all[j]
    {
      AppliedGrows(d, all, n, 0, j);
      assert Pushable(Applied(d, all, n, j), all[j]);
      assert forall i | 0 <= i < j :: OfTransaction(all[i]) in Applied(d, all, n, j).transactions;
    }
  }

  // ---------------------------------------------------------------------------------------------
  // pushBlock

  /** The code handles the block: its transactions and outputs can be counted, and in the checkpoint zone the
      multisignature outputs it spends exist. */
  ghost predicate Defined(rules: Rules, s: State, b: Block) {
    NamesTransactions(b) ==> Countable(b) && ReferencesExist(rules, s.blocks, s.d, b)
  }

  lemma PushAccepted(rules: Rules, now: nat, s: State, b: Block, e: BlockEntry)
    requires Good(rules, s) && s.now <= now && Defined(rules, s, b)
    requires CanLoad(s.pool, b) && Judge(rules, now, s.blocks, s.d, b) == Accepted(e)
    ensures e.bl == b && Good(rules, Extended(s.(now := now), e))
  {
    hide Apply, Applied, Judge, Rebuild, ChainOk, AllPushable, Semantic, IndexesOf, AddIndexes, Tracked, WellFormed,
         NewTransactions, ReferencesExist, Countable;
    var all := BlockTxs(b);
    AcceptedEntry(rules, now, s.blocks, s.d, b, e);
    var s' := Extended(s.(now := now), e);
    LaterIsFine(rules, s.now, now, s.d.indexed, s.blocks);
    ChainFacts(rules, now, s.d.indexed, s.blocks);
    TrackedIsBelow(s.d, |s.blocks|);
    LoadedIsNew(rules, now, s, b);
    assert EntryOk(rules, now, s.d.indexed, s.blocks, e);
    ExtensionIsFine(rules, now, s.d.indexed, s.blocks, e);
    RebuildPushes(rules, now, s.d.indexed, s.blocks, e);
    IndexesExtend(s.d.indexed, s.blocks, e);
    AppliedIndexed(s.d, all, |s.blocks|, |all|);
    forall tx | tx in s'.pool ensures Semantic(tx) && OfTransaction(tx) !in s'.d.transactions {
      OnlyBlockAdds(s.d, all, |s.blocks|, |all|, OfTransaction(tx));
      NotOfBlock(rules, now, s.blocks, b, tx);
    }
  }

  lemma NotOfBlock(rules: Rules, now: nat, blocks: seq<BlockEntry>, b: Block, tx: Transaction)
    requires NamesTransactions(b) && HeaderOk(rules, now, blocks, b)
    requires Semantic(tx) && tx !in NamedSet(b)
    ensures forall i | 0 <= i < |BlockTxs(b)| :: BlockTxs(b)[i] != tx
  {
    forall i | 0 <= i < |BlockTxs(b)| ensures BlockTxs(b)[i] != tx {
      if i == 0 {
        assert BlockTxs(b)[0].inputs[0].BaseInput? && !tx.inputs[0].BaseInput?;
      } else {
        assert b.transactionHashes[i - 1].tx in NamedSet(b);
      }
    }
  }

  /** The pushes of a block from the pool succeed, as far as its transactions pass the checks. */
  lemma BlockIsPushable(rules: Rules, now: nat, s: State, b: Block, k: nat)
    requires Steady(s) && Defined(rules, s, b) && CanLoad(s.pool, b)
    requires HeaderOk(rules, now, s.blocks, b) && k <= |BlockTxs(b)| && BodyOk(rules, s.blocks, s.d, BlockTxs(b), k)
    ensures WellFormed(s.d) && AllPushable(s.d, BlockTxs(b), |s.blocks|, k)
    ensures !rules.inZone(|s.blocks|) ==> AllSpendable(s.d, BlockTxs(b), |s.blocks|, k)
  {
    hide Applied, IndexesOf, BodyOk, HeaderOk, Checked, HeightsBelow, WellFormed, Semantic, NewTransactions,
         ReferencesExist, Countable, AllPushable, AllSpendable;
    LoadedIsNew(rules, now, s, b);
    PassedChecks(rules, now, s.blocks, s.d, b, k);
    NewBlockIsPushable(rules, s.blocks, s.d, b, k);
    if !rules.inZone(|s.blocks|) { PushableOutside(rules, s.blocks, s.d, BlockTxs(b), k); }
  }

  lemma PushableOutside(rules: Rules, blocks: seq<BlockEntry>, d: Derived, all: seq<Transaction>, k: nat)
    requires k <= |all| && AllPushable(d, all, |blocks|, k) && !rules.inZone(|blocks|)
    requires forall j | 0 <= j < k :: Checked(rules, blocks, d, all, j)
    ensures AllSpendable(d, all, |blocks|, k)
  {
    hide Applied, Semantic;
    forall j | 0 <= j < k ensures Spendable(Applied(d, all, |blocks|, j), all[j]) {
      var dj := Applied(d, all, |blocks|, j);
      assert Pushable(dj, all[j]) && Checked(rules, blocks, d, all, j);
      forall i | 0 <= i < |all[j].inputs| ensures CanSpend(dj, all[j].inputs[i]) {
        assert j > 0 ==> InputOk(rules, blocks, dj, all[j], i);
      }
    }
  }

  /** `pushBlock` gets to the size test and fails it. */
  ghost predicate FailsForSize(rules: Rules, now: nat, s: State, b: Block) {
    && CanLoad(s.pool, b) && HeaderOk(rules, now, s.blocks, b)
    && BodyOk(rules, s.blocks, s.d, BlockTxs(b), |BlockTxs(b)|)
    && SizeSum(BlockTxs(b), |BlockTxs(b)|) > rules.maxSize(|s.blocks|)
  }

  /** The multisignature outputs spent by the transactions that `pushBlock` records before it reaches a verdict. */
  ghost function Touched(rules: Rules, now: nat, s: State, b: Block): set<(nat, nat)> {
    if !CanLoad(s.pool, b) || !HeaderOk(rules, now, s.blocks, b) then {}
    else Refs(BlockTxs(b), FirstBad(rules, s.blocks, s.d, BlockTxs(b), 1))
  }

  /** The checks of `pushBlock` get to a transaction on whose inputs they throw. */
  ghost predicate IsThrown(rules: Rules, now: nat, s: State, b: Block) {
    CanLoad(s.pool, b) && HeaderOk(rules, now, s.blocks, b) && BadThrows(rules, s.blocks, s.d, BlockTxs(b))
  }

  /** A refusal that is neither for the size nor by an exception, and touches no output that was spent before. */
  ghost predicate Harmless(rules: Rules, now: nat, s: State, b: Block) {
    !FailsForSize(rules, now, s, b) && !IsThrown(rules, now, s, b)
      && UnspentIn(s.d.multisigs, Touched(rules, now, s, b))
  }

  /** The verdict of a block that can be loaded. */
  lemma VerdictOf(rules: Rules, now: nat, s: State, b: Block)
    requires CanLoad(s.pool, b)
    ensures Judge(rules, now, s.blocks, s.d, b).Oversize? <==> FailsForSize(rules, now, s, b)
    ensures Judge(rules, now, s.blocks, s.d, b).Thrown? <==> IsThrown(rules, now, s, b)
    ensures PushBlock(rules, now, s, b).1 <==> Judge(rules, now, s.blocks, s.d, b).Accepted?
  {
    hide HeaderOk, BodyOk, SizeSum, Emission, NewEntry, FirstBad, InputsThrow, Applied, Undone, Extended;
    NoneChecked(rules, s.blocks, s.d, BlockTxs(b));
    FirstBadIsFirst(rules, s.blocks, s.d, BlockTxs(b), 1);
  }

  lemma OnlyLoaded(rules: Rules, now: nat, s: State, b: Block)
    requires !CanLoad(s.pool, b)
    ensures !FailsForSize(rules, now, s, b) && !IsThrown(rules, now, s, b) && Touched(rules, now, s, b) == {}
    ensures PushBlock(rules, now, s, b) == (s.(now := now), false)
  {
  }

  /** The block passes its checks up to input `i` of transaction `j`, and that check gets to an output of the block. */
  ghost predicate ReachesOwnAt(rules: Rules, s: State, all: seq<Transaction>, j: nat, i: nat)
    requires j < |all| && i < |all[j].inputs|
  {
    var d := Applied(s.d, all, |s.blocks|, j);
    && BodyOk(rules, s.blocks, s.d, all, j)
    && (forall l | 0 <= l < i :: InputOk(rules, s.blocks, d, all[j], l))
    && ReachesOwn(rules, s.blocks, d, all, j, all[j], i)
  }

  lemma {:induction false} InputsThrowAt(rules: Rules, blocks: seq<BlockEntry>, d: Derived, tx: Transaction, from: nat)
    requires from <= |tx.inputs|
    ensures InputsOutcome(rules, blocks, d, tx, from) == Throws <==>
              exists i | from <= i < |tx.inputs| ::
                InputOutcome(rules, blocks, d, tx, i) == Throws
                  && forall l | from <= l < i :: InputOk(rules, blocks, d, tx, l)
    decreases |tx.inputs| - from
  {
    hide InputOutcome;
    if from < |tx.inputs| { InputsThrowAt(rules, blocks, d, tx, from + 1); }
  }

  /** `pushBlock` is left by an exception if and only if its checks get to an output of the block itself. */
  lemma ThrownIffOwn(rules: Rules, now: nat, s: State, b: Block)
    requires Steady(s) && CanLoad(s.pool, b) && HeaderOk(rules, now, s.blocks, b)
    ensures IsThrown(rules, now, s, b) <==>
              exists j, i | 1 <= j < |BlockTxs(b)|
                && 0 <= i < |BlockTxs(b)[j].inputs| :: ReachesOwnAt(rules, s, BlockTxs(b), j, i)
  {
    hide Applied, HeaderOk, Placed, PlacedIn, ReachesOwn, InputOutcome, IndexesOf, WellFormed, HeightsBelow, PoolOk,
         BlockTxs;
    var all := BlockTxs(b);
    forall j | 1 <= j < |all|
      ensures (&& FirstBad(rules, s.blocks, s.d, all, 1) == j
               && InputsThrow(rules, s.blocks, Applied(s.d, all, |s.blocks|, j), all[j]))
              <==> exists i | 0 <= i < |all[j].inputs| :: ReachesOwnAt(rules, s, all, j, i)
    {
      ThrowsAt(rules, s, all, j);
    }
  }

  lemma ThrowsAt(rules: Rules, s: State, all: seq<Transaction>, j: nat)
    requires Placed(s.d, s.blocks) && 1 <= j < |all|
    ensures (&& FirstBad(rules, s.blocks, s.d, all, 1) == j
             && InputsThrow(rules, s.blocks, Applied(s.d, all, |s.blocks|, j), all[j]))
            <==> exists i | 0 <= i < |all[j].inputs| :: ReachesOwnAt(rules, s, all, j, i)
  {
    hide Applied, Placed, PlacedIn, ReachesOwn, InputOutcome, FirstBad, BodyOk;
    var d := Applied(s.d, all, |s.blocks|, j);
    NoneChecked(rules, s.blocks, s.d, all);
    FirstBadIsFirst(rules, s.blocks, s.d, all, 1);
    InputsThrowAt(rules, s.blocks, d, all[j], 0);
    AppliedPlaced(s.d, s.blocks, all, j);
    forall i | 0 <= i < |all[j].inputs|
      ensures InputOutcome(rules, s.blocks, d, all[j], i) == Throws
              <==> ReachesOwn(rules, s.blocks, d, all, j, all[j], i)
    {
      ThrowsIffReachesOwn(rules, s.blocks, d, all, j, all[j], i);
    }
    if exists i | 0 <= i < |all[j].inputs| :: ReachesOwnAt(rules, s, all, j, i) {
      var i :| 0 <= i < |all[j].inputs| && ReachesOwnAt(rules, s, all, j, i);
      assert InputOutcome(rules, s.blocks, d, all[j], i) == Throws;
      FirstBadAt(rules, s.blocks, s.d, all, 1, j);
    }
    if InputsThrow(rules, s.blocks, d, all[j]) && FirstBad(rules, s.blocks, s.d, all, 1) == j {
      var i :| 0 <= i < |all[j].inputs| && InputOutcome(rules, s.blocks, d, all[j], i) == Throws
               && forall l | 0 <= l < i :: InputOk(rules, s.blocks, d, all[j], l);
      assert ReachesOwnAt(rules, s, all, j, i);
    }
  }

  lemma {:induction false} FirstBadAt(
    rules: Rules, blocks: seq<BlockEntry>, d: Derived, all: seq<Transaction>, from: nat, j: nat)
    requires 1 <= from <= j < |all| && BodyOk(rules, blocks, d, all, j)
    requires !InputsOk(rules, blocks, Applied(d, all, |blocks|, j), all[j])
    ensures FirstBad(rules, blocks, d, all, from) == j
    decreases j - from
  {
    hide Applied, InputsOk;
    if from < j { FirstBadAt(rules, blocks, d, all, from + 1, j); }
  }

  /** A block that is refused for its size or left by an exception leaves its coinbase recorded. */
  lemma LeavesTransactions(rules: Rules, now: nat, s: State, b: Block)
    requires Steady(s) && Defined(rules, s, b)
    requires FailsForSize(rules, now, s, b) || IsThrown(rules, now, s, b)
    ensures OfTransaction(b.baseTransaction) in PushBlock(rules, now, s, b).0.d.transactions
    ensures OfTransaction(b.baseTransaction) !in s.d.transactions && !PushBlock(rules, now, s, b).1
    ensures PushBlock(rules, now, s, b).0.d.indexed == s.d.indexed
    ensures PushBlock(rules, now, s, b).0.blocks == s.blocks
  {
    hide Applied, Steady, AllPushable, AllSpendable, Emission, HeaderOk, BodyOk, SizeSum, NewEntry, WellFormed,
         Defined, CanLoad, FirstBad, InputsThrow;
    LoadNames(s.pool, b);
    VerdictOf(rules, now, s, b);
    var all, n := BlockTxs(b), |s.blocks|;
    NoneChecked(rules, s.blocks, s.d, all);
    FirstBadIsFirst(rules, s.blocks, s.d, all, 1);
    var k := FirstBad(rules, s.blocks, s.d, all, 1);
    BlockIsPushable(rules, now, s, b, k);
    FirstIsNew(s.d, all, n, k);
    AppliedIndexed(s.d, all, n, k);
    AppliedGrows(s.d, all, n, 1, k);
  }

  lemma FirstIsNew(d: Derived, all: seq<Transaction>, n: nat, k: nat)
    requires 1 <= k <= |all| && AllPushable(d, all, n, k)
    ensures OfTransaction(all[0]) !in d.transactions && OfTransaction(all[0]) in Applied(d, all, n, 1).transactions
  {
    hide Apply;
    NoneApplied(d, all, n);
    assert Pushable(Applied(d, all, n, 0), all[0]);
    RecordKeeps(d, all[0], TransactionIndex(n, 0));
  }

  lemma GoodIsSteady(rules: Rules, s: State)
    requires Good(rules, s)
    ensures Steady(s)
  {
    hide Rebuild, IndexesOf, ChainOk, Tracked, WellFormed, HeightsBelow, Placed;
    ChainFacts(rules, s.now, s.d.indexed, s.blocks);
    ChainPlaced(rules, s.now, s.d.indexed, s.blocks);
    TrackedIsBelow(s.d, |s.blocks|);
  }

  lemma LoadNames(pool: set<Transaction>, b: Block)
    requires CanLoad(pool, b)
    ensures NamesTransactions(b)
  {
  }

  lemma {:induction false} FirstBadIsFirst(
    rules: Rules, blocks: seq<BlockEntry>, d: Derived, all: seq<Transaction>, j: nat)
    requires 1 <= j <= |all| && BodyOk(rules, blocks, d, all, j)
    ensures BodyOk(rules, blocks, d, all, FirstBad(rules, blocks, d, all, j))
    ensures FirstBad(rules, blocks, d, all, j) == |all| <==> BodyOk(rules, blocks, d, all, |all|)
    decreases |all| - j
  {
    hide Applied, InputsOk;
    if j < |all| && InputsOk(rules, blocks, Applied(d, all, |blocks|, j), all[j]) {
      FirstBadIsFirst(rules, blocks, d, all, j + 1);
    }
  }

  /** What a block that is refused, neither for its size nor by an exception, leaves behind: the flags of the
      multisignature outputs that its recorded transactions spend are cleared. */
  lemma RefusedClears(rules: Rules, now: nat, s: State, b: Block)
    requires Steady(s) && Defined(rules, s, b)
    requires !PushBlock(rules, now, s, b).1 && !FailsForSize(rules, now, s, b) && !IsThrown(rules, now, s, b)
    ensures PushBlock(rules, now, s, b).0 == Cleared(s.(now := now), Touched(rules, now, s, b))
  {
    hide Applied, Unapplied, Steady, AllPushable, AllSpendable, Emission, HeaderOk, BodyOk, SizeSum, NewEntry,
         WellFormed, Defined, FirstBad, UnspentIn, Refs, Clear, Undone, InputsThrow;
    ClearNothing(s.d);
    if CanLoad(s.pool, b) {
      VerdictOf(rules, now, s, b);
      var all := BlockTxs(b);
      if HeaderOk(rules, now, s.blocks, b) {
        NoneChecked(rules, s.blocks, s.d, all);
        FirstBadIsFirst(rules, s.blocks, s.d, all, 1);
        var k := FirstBad(rules, s.blocks, s.d, all, 1);
        BlockIsPushable(rules, now, s, b, k);
        UndoneIffUnspent(s.d, all, |s.blocks|, k);
      } else {
        NothingUndone(s.d, all, |s.blocks|);
      }
    }
  }

  /** So on a good state nothing is left behind if and only if the refusal is harmless. */
  lemma RefusalUndoes(rules: Rules, now: nat, s: State, b: Block)
    requires Good(rules, s) && s.now <= now && Defined(rules, s, b) && CanLoad(s.pool, b)
    requires Judge(rules, now, s.blocks, s.d, b).Refused?
    ensures PushBlock(rules, now, s, b).0 == s.(now := now) <==> UnspentIn(s.d.multisigs, Touched(rules, now, s, b))
    ensures !FailsForSize(rules, now, s, b) && !IsThrown(rules, now, s, b)
    ensures PushBlock(rules, now, s, b).0.d.indexed == s.d.indexed
  {
    hide Good, Steady, Defined, UnspentIn, Clear, Touched, Undone, Applied, Judge, FailsForSize, IsThrown;
    VerdictOf(rules, now, s, b);
    GoodIsSteady(rules, s);
    RefusedClears(rules, now, s, b);
    ClearedIsState(s.(now := now), Touched(rules, now, s, b));
    ClearIndexed(s.d, Touched(rules, now, s, b));
  }

  /** An accepted block on a steady state, and what popping it leaves. */
  lemma AcceptedIsSteady(rules: Rules, now: nat, s: State, b: Block, refs: set<(nat, nat)>)
    requires Steady(s) && Defined(rules, s, b) && PushBlock(rules, now, s, b).1
    ensures var s' := PushBlock(rules, now, s, b).0;
      && NamesTransactions(b) && Steady(s') && s'.now == now
      && |s'.blocks| == |s.blocks| + 1 && s'.blocks[..|s.blocks|] == s.blocks && s'.blocks[|s.blocks|].bl == b
      && AllTxs(s'.blocks[|s.blocks|]) == BlockTxs(b)
      && PopBlock(Cleared(s', refs)) == Cleared(s.(now := now), refs + Refs(BlockTxs(b), |BlockTxs(b)|))
      && NewTransactions(s.d, b) && s.d.transactions.Keys <= s'.d.transactions.Keys
      && (forall tx | tx in BlockTxs(b) :: OfTransaction(tx) in s'.d.transactions)
  {
    hide Applied, Unapplied, Judge, IndexesOf, AddIndexes, RemoveIndexes, AllPushable, AllSpendable, WellFormed,
         HeightsBelow, Semantic, BlockTxs, HeaderOk, BodyOk, Clear, Refs, NamedSet, NewTransactions, ReferencesExist,
         Countable, CanLoad, Placed, PlacedIn;
    LoadNames(s.pool, b);
    var all, n, d := BlockTxs(b), |s.blocks|, s.d;
    var e := Judge(rules, now, s.blocks, d, b).entry;
    var s' := PushBlock(rules, now, s, b).0;
    AcceptedEntry(rules, now, s.blocks, d, b, e);
    BlockIsPushable(rules, now, s, b, |all|);
    LoadedIsNew(rules, now, s, b);
    UnappliedClears(d, all, n, |all|, refs);
    AppliedIndexed(d, all, n, |all|);
    ClearIndexed(s'.d, refs);
    IndexesExtend(d.indexed, s.blocks, e);
    IndexesShrink(d.indexed, s.blocks, e);
    assert s'.blocks[..n] == s.blocks;
    RecordedAreNew(d, all, n);
    HeightsGrow(rules, now, s, b);
    AppliedPlaced(d, s.blocks, all, |all|);
    AppendedPlaced(s'.d, s.blocks, e);
    PoolShrinks(rules, now, s, b);
    NamedBack(s.pool, b);
  }

  lemma NamedBack(pool: set<Transaction>, b: Block)
    requires CanLoad(pool, b)
    ensures pool - NamedSet(b) + NamedSet(b) == pool
  {
  }

  lemma HeightsGrow(rules: Rules, now: nat, s: State, b: Block)
    requires HeightsBelow(s.d, |s.blocks|) && NamesTransactions(b) && HeaderOk(rules, now, s.blocks, b)
    requires forall j | 1 <= j < |BlockTxs(b)| :: Semantic(BlockTxs(b)[j])
    ensures HeightsBelow(Applied(s.d, BlockTxs(b), |s.blocks|, |BlockTxs(b)|), |s.blocks| + 1)
  {
    hide Applied;
    var all, n := BlockTxs(b), |s.blocks|;
    forall h | h in Applied(s.d, all, n, |all|).transactions ensures HeightBelow(h, n + 1) {
      OnlyBlockAdds(s.d, all, n, |all|, h);
      if h in s.d.transactions { assert HeightBelow(h, n); }
    }
  }

  lemma PoolShrinks(rules: Rules, now: nat, s: State, b: Block)
    requires PoolOk(s) && NamesTransactions(b) && HeaderOk(rules, now, s.blocks, b)
    ensures forall tx | tx in s.pool - NamedSet(b) ::
              Semantic(tx) && OfTransaction(tx) !in Applied(s.d, BlockTxs(b), |s.blocks|, |BlockTxs(b)|).transactions
  {
    hide Applied, Semantic, HeaderOk;
    forall tx | tx in s.pool - NamedSet(b)
      ensures Semantic(tx) && OfTransaction(tx) !in Applied(s.d, BlockTxs(b), |s.blocks|, |BlockTxs(b)|).transactions
    {
      OnlyBlockAdds(s.d, BlockTxs(b), |s.blocks|, |BlockTxs(b)|, OfTransaction(tx));
      NotOfBlock(rules, now, s.blocks, b, tx);
    }
  }

  lemma ClearedIsSteady(s: State, refs: set<(nat, nat)>, now: nat)
    requires Steady(s)
    ensures Steady(Cleared(s, refs)) && Steady(s.(now := now))
  {
    hide IndexesOf, Mark, Placed;
    MarkKeepsShape(s.d.multisigs, refs, false);
    ClearedPlaced(s.d, s.blocks, refs);
  }

  lemma NoneChecked(rules: Rules, blocks: seq<BlockEntry>, d: Derived, all: seq<Transaction>)
    requires |all| >= 1
    ensures BodyOk(rules, blocks, d, all, 0) && BodyOk(rules, blocks, d, all, 1)
  {
  }

  lemma NothingUndone(d: Derived, all: seq<Transaction>, n: nat)
    ensures Undone(d, all, n, 0) == d && UnspentIn(d.multisigs, {})
  {
  }

  /** `pushBlock` on a good state: an accepted block extends the chain by its entry and the state stays good;
      a refused block leaves everything but the clock as it was if and only if the refusal is harmless. */
  lemma PushKeepsGood(rules: Rules, now: nat, s: State, b: Block)
    requires Good(rules, s) && s.now <= now && Defined(rules, s, b)
    ensures var (s', ok) := PushBlock(rules, now, s, b);
      && (ok ==> Good(rules, s') && |s'.blocks| == |s.blocks| + 1 && s'.blocks[..|s.blocks|] == s.blocks
                 && s'.blocks[|s.blocks|].bl == b && s'.pool == s.pool - NamedSet(b))
      && (!ok ==> (s' == s.(now := now) <==> Harmless(rules, now, s, b)))
      && (!ok ==> (Good(rules, s') <==> Harmless(rules, now, s, b)))
  {
    hide Judge, Rebuild, IndexesOf, ChainOk, BlockTxs, AddIndexes, Defined, FailsForSize, IsThrown, Touched,
         UnspentIn, Undone, Steady;
    LaterIsFine(rules, s.now, now, s.d.indexed, s.blocks);
    if !CanLoad(s.pool, b) {
      OnlyLoaded(rules, now, s, b);
      NothingTouched(s.d);
    } else {
      VerdictOf(rules, now, s, b);
      GoodIsSteady(rules, s);
      var verdict := Judge(rules, now, s.blocks, s.d, b);
      if verdict.Accepted? {
        PushAccepted(rules, now, s, b, verdict.entry);
      } else if verdict.Oversize? || verdict.Thrown? {
        LeavesTransactions(rules, now, s, b);
      } else {
        RefusalUndoes(rules, now, s, b);
      }
    }
  }

  /** Outside the checkpoint zone `pushBlock` touches only unspent outputs. */
  lemma TouchedOutside(rules: Rules, now: nat, s: State, b: Block)
    requires Steady(s) && Defined(rules, s, b) && !rules.inZone(|s.blocks|)
    ensures UnspentIn(s.d.multisigs, Touched(rules, now, s, b))
  {
    hide Applied, Unapplied, AllPushable, AllSpendable, BodyOk, HeaderOk, WellFormed, Defined, FirstBad, UnspentIn,
         Refs, Clear, Steady;
    NothingTouched(s.d);
    if CanLoad(s.pool, b) && HeaderOk(rules, now, s.blocks, b) {
      var all := BlockTxs(b);
      NoneChecked(rules, s.blocks, s.d, all);
      FirstBadIsFirst(rules, s.blocks, s.d, all, 1);
      var k := FirstBad(rules, s.blocks, s.d, all, 1);
      BlockIsPushable(rules, now, s, b, k);
      UndoneIffUnspent(s.d, all, |s.blocks|, k);
      UnappliedUndoesApplied(s.d, all, |s.blocks|, k);
    }
  }

  /** So there every refusal is harmless, but one for the size or by an exception. */
  lemma HarmlessOutsideZone(rules: Rules, now: nat, s: State, b: Block)
    requires Good(rules, s) && s.now <= now && Defined(rules, s, b) && !rules.inZone(|s.blocks|)
    ensures Harmless(rules, now, s, b) <==> !FailsForSize(rules, now, s, b) && !IsThrown(rules, now, s, b)
  {
    hide Good, Steady, Defined, FailsForSize, IsThrown, Touched, UnspentIn;
    GoodIsSteady(rules, s);
    TouchedOutside(rules, now, s, b);
  }

  lemma NothingTouched(d: Derived)
    ensures UnspentIn(d.multisigs, {})
  {
  }

  // ---------------------------------------------------------------------------------------------
  // popBlock

  /** The state over the first blocks of a chain, with the given pool. */
  ghost function At(indexed: bool, blocks: seq<BlockEntry>, pool: set<Transaction>, now: nat): State {
    State(blocks, Rebuild(indexed, blocks), IndexesOf(indexed, blocks), pool, now)
  }

  /** The transactions named, and the multisignature outputs spent, by the blocks from height `h` on. */
  function NamedFrom(blocks: seq<BlockEntry>, h: nat): set<Transaction> {
    if |blocks| <= h then {}
    else NamedFrom(blocks[..|blocks| - 1], h) + NamedSet(blocks[|blocks| - 1].bl)
  }

  function RefsFrom(blocks: seq<BlockEntry>, h: nat): set<(nat, nat)> {
    if |blocks| <= h then {}
    else
      var all := AllTxs(blocks[|blocks| - 1]);
      Refs(all, |all|) + RefsFrom(blocks[..|blocks| - 1], h)
  }

  /** The state rebuilt from the first `h` blocks, with the transactions of the others in the pool. */
  ghost function Below(s: State, h: nat): State
    requires h <= |s.blocks|
  {
    At(s.d.indexed, s.blocks[..h], s.pool + NamedFrom(s.blocks, h), s.now)
  }

  /** The state with the flags of these multisignature outputs cleared. */
  function Cleared(s: State, refs: set<(nat, nat)>): State {
    s.(d := Clear(s.d, refs))
  }

  lemma ClearedIsState(s: State, refs: set<(nat, nat)>)
    ensures Cleared(s, {}) == s
    ensures Cleared(s, refs) == s <==> UnspentIn(s.d.multisigs, refs)
  {
    hide Clear, UnspentIn;
    ClearNothing(s.d);
    ClearIsIdentity(s.d, refs);
  }

  /** What the invariant says of the last block: popping it is defined and its pushes had succeeded. */
  lemma LastBlock(rules: Rules, s: State)
    requires Good(rules, s) && s.blocks != []
    ensures var n := |s.blocks| - 1; var e := s.blocks[n]; var prefix := s.blocks[..n];
      && s.blocks == prefix + [e]
      && e.height == BaseHeight(e.bl) == n < |s.ix.ids| && NamesTransactions(e.bl)
      && AllTxs(e) == BlockTxs(e.bl) && Others(e) == NamedSet(e.bl)
      && ChainOk(rules, s.now, s.d.indexed, prefix)
      && EntryOk(rules, s.now, s.d.indexed, prefix, e)
      && WellFormed(Rebuild(s.d.indexed, prefix))
      && AllPushable(Rebuild(s.d.indexed, prefix), BlockTxs(e.bl), n, |BlockTxs(e.bl)|)
      && s.d == Applied(Rebuild(s.d.indexed, prefix), BlockTxs(e.bl), n, |BlockTxs(e.bl)|)
  {
    hide Applied, Judge, Rebuild, ChainOk, AllPushable, Tracked, WellFormed, BlockTxs, Semantic, NewTransactions,
         ReferencesExist, Countable;
    var n := |s.blocks| - 1;
    var e, prefix := s.blocks[n], s.blocks[..n];
    assert s.blocks == prefix + [e];
    ChainFacts'(rules, s.now, s.d.indexed, prefix, e);
    AcceptedEntry(rules, s.now, prefix, Rebuild(s.d.indexed, prefix), e.bl, e);
  }

  /** `removeLastBlock` gives the state rebuilt from the remaining blocks with the flags of the removed block
      cleared, also when other flags were cleared before. */
  lemma RemoveClears(rules: Rules, s: State, refs: set<(nat, nat)>)
    requires Good(rules, s) && s.blocks != []
    ensures var n := |s.blocks| - 1; var all := AllTxs(s.blocks[n]);
      && RemoveLastBlock(Cleared(s, refs)) == Cleared(At(s.d.indexed, s.blocks[..n], s.pool, s.now), refs + Refs(all, |all|))
      && Good(rules, At(s.d.indexed, s.blocks[..n], s.pool, s.now))
  {
    hide Applied, Unapplied, Judge, Rebuild, ChainOk, EntryOk, AllPushable, WellFormed, BlockTxs, IndexesOf,
         RemoveIndexes, Semantic, Clear;
    LastBlock(rules, s);
    var n := |s.blocks| - 1;
    var e, prefix := s.blocks[n], s.blocks[..n];
    UnappliedClears(Rebuild(s.d.indexed, prefix), BlockTxs(e.bl), n, |BlockTxs(e.bl)|, refs);
    IndexesShrink(s.d.indexed, prefix, e);
    RecordedAreNew(Rebuild(s.d.indexed, prefix), BlockTxs(e.bl), n);
    AppliedIndexed(Rebuild(s.d.indexed, prefix), BlockTxs(e.bl), n, |BlockTxs(e.bl)|);
    ClearIndexed(s.d, refs);
  }

  lemma ClearIndexed(d: Derived, refs: set<(nat, nat)>)
    ensures Clear(d, refs).indexed == d.indexed && Clear(d, refs).transactions == d.transactions
  {
  }

  /** So it gives the state rebuilt from the remaining blocks if and only if the multisignature outputs that the
      removed block spends were unspent below it. */
  lemma RemoveGivesRebuild(rules: Rules, s: State)
    requires Good(rules, s) && s.blocks != []
    ensures var n := |s.blocks| - 1; var all := AllTxs(s.blocks[n]);
      var t := At(s.d.indexed, s.blocks[..n], s.pool, s.now);
      && Good(rules, t)
      && (RemoveLastBlock(s) == t <==> UnspentIn(t.d.multisigs, Refs(all, |all|)))
      && (Good(rules, RemoveLastBlock(s)) <==> UnspentIn(t.d.multisigs, Refs(all, |all|)))
  {
    hide Rebuild, IndexesOf, ChainOk, Refs, Cleared, UnspentIn, RemoveLastBlock;
    var n := |s.blocks| - 1;
    var all := AllTxs(s.blocks[n]);
    var t := At(s.d.indexed, s.blocks[..n], s.pool, s.now);
    RemoveClears(rules, s, {});
    ClearedIsState(s, {});
    assert {} + Refs(all, |all|) == Refs(all, |all|);
    ClearedIsState(t, Refs(all, |all|));
    ClearedRebuild(rules, t, Refs(all, |all|));
  }

  /** Clearing flags is visible: only the flags differ from a rebuild. */
  lemma ClearedRebuild(rules: Rules, s: State, refs: set<(nat, nat)>)
    requires Good(rules, s)
    ensures Good(rules, Cleared(s, refs)) ==> Cleared(s, refs) == s
  {
    hide Rebuild, IndexesOf, ChainOk, Clear;
    ClearIndexed(s.d, refs);
  }

  /** `popBlock`, also when flags were cleared before. */
  lemma PopClears(rules: Rules, s: State, refs: set<(nat, nat)>)
    requires Good(rules, s) && s.blocks != []
    ensures var n := |s.blocks| - 1; var all := AllTxs(s.blocks[n]);
      && PopBlock(Cleared(s, refs)) == Cleared(Below(s, n), refs + Refs(all, |all|))
      && Good(rules, Below(s, n)) && s.pool !! NamedSet(s.blocks[n].bl)
      && NamedFrom(s.blocks, n) == NamedSet(s.blocks[n].bl)
  {
    hide Applied, Unapplied, Judge, Rebuild, ChainOk, AllPushable, WellFormed, IndexesOf, RemoveIndexes, Semantic,
         Clear, Refs, RemoveLastBlock, NewTransactions, ReferencesExist, Countable;
    var n := |s.blocks| - 1;
    var e, prefix := s.blocks[n], s.blocks[..n];
    LastBlock(rules, s);
    RecordedAreNew(Rebuild(s.d.indexed, prefix), BlockTxs(e.bl), n);
    forall tx | tx in NamedSet(e.bl)
      ensures Semantic(tx) && OfTransaction(tx) in s.d.transactions
      ensures OfTransaction(tx) !in Rebuild(s.d.indexed, prefix).transactions
    {
      var i :| 0 <= i < |e.bl.transactionHashes| && e.bl.transactionHashes[i].OfTransaction?
               && e.bl.transactionHashes[i].tx == tx;
      assert BlockTxs(e.bl)[i + 1] == tx;
    }
    RemoveClears(rules, s, refs);
    RemovePool(Cleared(s, refs), s.pool + NamedSet(e.bl));
    NamedLast(s.blocks);
  }

  lemma RemovePool(s: State, pool: set<Transaction>)
    ensures RemoveLastBlock(s.(pool := pool)) == RemoveLastBlock(s).(pool := pool)
  {
    hide Unapplied, RemoveIndexes;
  }

  lemma NamedLast(blocks: seq<BlockEntry>)
    requires blocks != []
    ensures NamedFrom(blocks, |blocks| - 1) == NamedSet(blocks[|blocks| - 1].bl)
  {
  }

  /** `popBlock` gives the state rebuilt from the remaining blocks, with the transactions back in the pool, if and
      only if the multisignature outputs that the popped block spends were unspent below it. */
  lemma PopGivesRebuild(rules: Rules, s: State)
    requires Good(rules, s) && s.blocks != []
    ensures var n := |s.blocks| - 1; var all := AllTxs(s.blocks[n]);
      && Good(rules, Below(s, n))
      && (PopBlock(s) == Below(s, n) <==> UnspentIn(Below(s, n).d.multisigs, Refs(all, |all|)))
      && (Good(rules, PopBlock(s)) <==> UnspentIn(Below(s, n).d.multisigs, Refs(all, |all|)))
  {
    hide Rebuild, IndexesOf, ChainOk, Refs, Cleared, UnspentIn, PopBlock, Below;
    var n := |s.blocks| - 1;
    var all := AllTxs(s.blocks[n]);
    PopClears(rules, s, {});
    ClearedIsState(s, {});
    assert {} + Refs(all, |all|) == Refs(all, |all|);
    ClearedIsState(Below(s, n), Refs(all, |all|));
    ClearedRebuild(rules, Below(s, n), Refs(all, |all|));
  }

  /** Pushing the last block again on the state below it, any time later, gives back the same state. */
  lemma PushUndoesPop(rules: Rules, s: State, now: nat)
    requires Good(rules, s) && s.blocks != [] && s.now <= now
    ensures PushBlock(rules, now, Below(s, |s.blocks| - 1), s.blocks[|s.blocks| - 1].bl) == (s.(now := now), true)
  {
    hide Applied, Unapplied, Judge, Rebuild, ChainOk, AllPushable, WellFormed, IndexesOf, RemoveIndexes, AddIndexes,
         Semantic, NewTransactions, ReferencesExist, Countable, Clear, Refs, NamedFrom;
    LastBlock(rules, s);
    PopClears(rules, s, {});
    var n := |s.blocks| - 1;
    var e, prefix := s.blocks[n], s.blocks[..n];
    var t := Below(s, n);
    RecordedAreNew(t.d, BlockTxs(e.bl), n);
    forall i | 0 <= i < |e.bl.transactionHashes|
      ensures e.bl.transactionHashes[i].tx in t.pool
              && e.bl.transactionHashes[i] == OfTransaction(BlockTxs(e.bl)[i + 1])
    {
      assert e.bl.transactionHashes[i].tx in NamedSet(e.bl);
    }
    assert CanLoad(t.pool, e.bl);
    LaterEntry(rules, s.now, now, s.d.indexed, prefix, e);
    IndexesExtend(s.d.indexed, prefix, e);
    AppliedIndexed(t.d, BlockTxs(e.bl), n, |BlockTxs(e.bl)|);
    assert t.pool - NamedSet(e.bl) == s.pool;
    assert Judge(rules, now, t.blocks, t.d, e.bl) == Accepted(e);
    assert Extended(t.(now := now), e) == s.(now := now);
  }
}
