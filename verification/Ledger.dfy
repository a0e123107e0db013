/** The main chain as a state machine: blocks, derived state, explorer indexes and transaction pool, and the
    proof that every operation keeps the incremental state equal to a rebuild from the blocks. */
module Ledger {
  import opened ChainTypes
  import opened DerivedState
  import opened Rules

  // ---------------------------------------------------------------------------------------------
  // Rebuilding from scratch

  function AllTxs(e: BlockEntry): seq<Transaction> {
    seq(|e.transactions|, i requires 0 <= i < |e.transactions| => e.transactions[i].tx)
  }

  /** The derived state after replaying the first `k` transactions of a block at height `n`. */
  function Replayed(d: Derived, all: seq<Transaction>, n: nat, k: nat): Derived
    requires k <= |all|
  {
    if k == 0 then d else Apply(Replayed(d, all, n, k - 1), all[k - 1], TransactionIndex(n, k - 1))
  }

  /** `rebuildCache`, and the payment-id part of `loadBlockchainIndices`. */
  function Rebuild(indexed: bool, blocks: seq<BlockEntry>): Derived {
    if blocks == [] then EmptyDerived(indexed)
    else
      var n := |blocks| - 1;
      var all := AllTxs(blocks[n]);
      Replayed(Rebuild(indexed, blocks[..n]), all, n, |all|)
  }

  /** The block index and the timestamp and transaction-count indexes. */
  datatype Indexes = Indexes(
    ids: seq<Hash>, stamps: multiset<(nat, Hash)>, generated: map<nat, nat>, lastGenerated: nat)

  function Stamps(blocks: seq<BlockEntry>): multiset<(nat, Hash)> {
    if blocks == [] then multiset{}
    else
      var bl := blocks[|blocks| - 1].bl;
      Stamps(blocks[..|blocks| - 1]) + multiset{(bl.timestamp as nat, OfBlock(bl))}
  }

  function TransactionCount(blocks: seq<BlockEntry>, k: nat): nat
    requires k <= |blocks|
  {
    if k == 0 then 0 else TransactionCount(blocks, k - 1) + |blocks[k - 1].bl.transactionHashes| + 1
  }

  /** The number of transactions up to and including height `h`. */
  function CountThrough(blocks: seq<BlockEntry>, h: nat): nat
    requires h < |blocks|
  {
    TransactionCount(blocks, h + 1)
  }

  function IndexesOf(indexed: bool, blocks: seq<BlockEntry>): Indexes {
    if indexed then
      Indexes(Ids(blocks), Stamps(blocks),
              map h | 0 <= h < |blocks| :: CountThrough(blocks, h), TransactionCount(blocks, |blocks|))
    else
      Indexes(Ids(blocks), multiset{}, map[], 0)
  }

  // ---------------------------------------------------------------------------------------------
  // Operations

  datatype State = State(blocks: seq<BlockEntry>, d: Derived, ix: Indexes, pool: set<Transaction>, now: nat)

  function BaseHeight(b: Block): nat {
    if b.baseTransaction.inputs != [] && b.baseTransaction.inputs[0].BaseInput?
    then b.baseTransaction.inputs[0].blockIndex else 0
  }

  function AddIndexes(indexed: bool, ix: Indexes, b: Block): Indexes {
    var ids := ix.ids + [OfBlock(b)];
    if !indexed then ix.(ids := ids)
    else
      var stamps := ix.stamps + multiset{(b.timestamp as nat, OfBlock(b))};
      if |ix.generated| != BaseHeight(b) then ix.(ids := ids, stamps := stamps)
      else
        var count := ix.lastGenerated + |b.transactionHashes| + 1;
        Indexes(ids, stamps, ix.generated[BaseHeight(b) := count], count)
  }

  function RemoveIndexes(indexed: bool, ix: Indexes, e: BlockEntry): Indexes {
    var ids := if ix.ids == [] then [] else ix.ids[..|ix.ids| - 1];
    if !indexed then ix.(ids := ids)
    else
      var id := if e.height < |ix.ids| then ix.ids[e.height] else NullHash;
      var stamps := ix.stamps - multiset{(e.bl.timestamp as nat, id)};
      var h := BaseHeight(e.bl);
      if h != |ix.generated| - 1 then ix.(ids := ids, stamps := stamps)
      else
        Indexes(ids, stamps, ix.generated - {h},
                if h != 0 && h - 1 in ix.generated then ix.generated[h - 1] else 0)
  }

  ghost predicate CanLoad(pool: set<Transaction>, b: Block) {
    && NamesTransactions(b)
    && (forall i | 0 <= i < |b.transactionHashes| :: b.transactionHashes[i].tx in pool)
    && (forall i, j | 0 <= i < j < |b.transactionHashes| :: b.transactionHashes[i] != b.transactionHashes[j])
  }

  function NamedSet(b: Block): set<Transaction> {
    set i | 0 <= i < |b.transactionHashes| && b.transactionHashes[i].OfTransaction? :: b.transactionHashes[i].tx
  }

  ghost function Extended(s: State, e: BlockEntry): State
    requires NamesTransactions(e.bl)
  {
    State(s.blocks + [e],
          Applied(s.d, BlockTxs(e.bl), |s.blocks|, |BlockTxs(e.bl)|),
          AddIndexes(s.d.indexed, s.ix, e.bl),
          s.pool - NamedSet(e.bl),
          s.now)
  }

  /** Recording the first `k` transactions of a block and removing them again. */
  function Undone(d: Derived, all: seq<Transaction>, n: nat, k: nat): Derived
    requires k <= |all|
  {
    Unapplied(Applied(d, all, n, k), all, k)
  }

  /** `pushBlock`, with the clock at `now`. An exception leaves what was recorded, and the transactions that were taken
      from the pool are not put back. */
  ghost function PushBlock(rules: Rules, now: nat, s: State, b: Block): (State, bool) {
    var t := s.(now := now);
    if !CanLoad(s.pool, b) then (t, false)
    else match Judge(rules, now, s.blocks, s.d, b)
      case Refused(k) => (t.(d := Undone(s.d, BlockTxs(b), |s.blocks|, k)), false)
      case Thrown(k) => (t.(d := Applied(s.d, BlockTxs(b), |s.blocks|, k), pool := s.pool - NamedSet(b)), false)
      case Oversize => (t.(d := Applied(s.d, BlockTxs(b), |s.blocks|, |BlockTxs(b)|)), false)
      case Accepted(e) => (Extended(t, e), true)
  }

  /** The recorded transactions other than the coinbase. */
  function Others(e: BlockEntry): set<Transaction> {
    set i | 1 <= i < |e.transactions| :: e.transactions[i].tx
  }

  /** `removeLastBlock`. */
  function RemoveLastBlock(s: State): State {
    if s.blocks == [] then s
    else
      var last := s.blocks[|s.blocks| - 1];
      s.(blocks := s.blocks[..|s.blocks| - 1],
         d := Unapplied(s.d, AllTxs(last), |AllTxs(last)|),
         ix := RemoveIndexes(s.d.indexed, s.ix, last))
  }

  /** `popBlock`: the transactions go back to the pool. */
  function PopBlock(s: State): State {
    if s.blocks == [] then s
    else RemoveLastBlock(s.(pool := s.pool + Others(s.blocks[|s.blocks| - 1])))
  }

  // ---------------------------------------------------------------------------------------------
  // Invariant

  /** The transactions of the block are pairwise different and none of them is recorded. */
  ghost predicate NewTransactions(d: Derived, b: Block)
    requires NamesTransactions(b)
  {
    && (forall j | 0 <= j < |BlockTxs(b)| :: OfTransaction(BlockTxs(b)[j]) !in d.transactions)
    && (forall i, j | 0 <= i < j < |BlockTxs(b)| :: BlockTxs(b)[i] != BlockTxs(b)[j])
  }

  /** The entry is what `pushBlock` records for its block on top of `prefix`. */
  ghost predicate EntryAccepted(rules: Rules, now: nat, indexed: bool, prefix: seq<BlockEntry>, e: BlockEntry) {
    && NamesTransactions(e.bl) && Countable(e.bl)
    && (forall j | 1 <= j < |BlockTxs(e.bl)| :: Semantic(BlockTxs(e.bl)[j]))
    && NewTransactions(Rebuild(indexed, prefix), e.bl)
    && Judge(rules, now, prefix, Rebuild(indexed, prefix), e.bl) == Accepted(e)
  }

  ghost predicate AcceptedChain(rules: Rules, now: nat, indexed: bool, blocks: seq<BlockEntry>) {
    forall k | 0 <= k < |blocks| :: EntryAccepted(rules, now, indexed, blocks[..k], blocks[k])
  }

  ghost predicate EntryOk(rules: Rules, now: nat, indexed: bool, prefix: seq<BlockEntry>, e: BlockEntry) {
    && EntryAccepted(rules, now, indexed, prefix, e)
    && ReferencesExist(rules, prefix, Rebuild(indexed, prefix), e.bl)
  }

  ghost predicate ChainOk(rules: Rules, now: nat, indexed: bool, blocks: seq<BlockEntry>) {
    forall k | 0 <= k < |blocks| :: EntryOk(rules, now, indexed, blocks[..k], blocks[k])
  }

  ghost predicate PoolOk(s: State) {
    forall tx | tx in s.pool :: Semantic(tx) && OfTransaction(tx) !in s.d.transactions
  }

  ghost predicate Good(rules: Rules, s: State) {
    && s.d == Rebuild(s.d.indexed, s.blocks)
    && s.ix == IndexesOf(s.d.indexed, s.blocks)
    && ChainOk(rules, s.now, s.d.indexed, s.blocks)
    && PoolOk(s)
  }

  ghost predicate HeightBelow(h: Hash, n: nat) {
    h.OfTransaction? && forall i | 0 <= i < |h.tx.inputs| && h.tx.inputs[i].BaseInput? :: h.tx.inputs[i].blockIndex < n
  }

  /** Recorded coinbases belong to heights below `n`. */
  ghost predicate HeightsBelow(d: Derived, n: nat) {
    forall h | h in d.transactions :: HeightBelow(h, n)
  }

  /** Every recorded output is in a block of the chain. */
  ghost predicate Placed(d: Derived, blocks: seq<BlockEntry>) {
    && (forall a, i | a in d.outputs && 0 <= i < |d.outputs[a]| :: Found(blocks, d.outputs[a][i].at))
    && (forall a, i | a in d.multisigs && 0 <= i < |d.multisigs[a]| :: HoldsMultisig(blocks, d.multisigs[a][i]))
  }

  /** What a push and a pop need of the state: less than the invariant, since flags may have been cleared. */
  ghost predicate Steady(s: State) {
    && s.ix == IndexesOf(s.d.indexed, s.blocks)
    && WellFormed(s.d) && HeightsBelow(s.d, |s.blocks|) && Placed(s.d, s.blocks)
    && PoolOk(s)
  }

  function Initial(indexed: bool): State {
    State([], EmptyDerived(indexed), Indexes([], multiset{}, map[], 0), {}, 0)
  }

  lemma InitialIsGood(rules: Rules, indexed: bool)
    ensures Good(rules, Initial(indexed))
  {
    assert IndexesOf(indexed, []) == Initial(indexed).ix;
  }

  // ---------------------------------------------------------------------------------------------
  // Recorded transactions are spent

  ghost predicate InputTracked(d: Derived, n: nat, input: Input) {
    IsSpent(d, input) && (input.BaseInput? ==> input.blockIndex < n)
  }

  ghost predicate EntryTracked(d: Derived, n: nat, h: Hash) {
    h.OfTransaction? && forall i | 0 <= i < |h.tx.inputs| :: InputTracked(d, n, h.tx.inputs[i])
  }

  /** Every recorded transaction has its inputs marked as spent; coinbases belong to heights below `n`. */
  ghost predicate Tracked(d: Derived, n: nat) {
    forall h | h in d.transactions :: EntryTracked(d, n, h)
  }

  lemma {:induction false} MultisigOutputsGrow(
    m: map<nat, seq<MultisigUsage>>, outs: seq<Output>, at: TransactionIndex, k: nat)
    requires k <= |outs|
    ensures forall a | a in m ::
              a in AddMultisigOutputs(m, outs, at, k) && m[a] <= AddMultisigOutputs(m, outs, at, k)[a]
  {
    if k != 0 {
      MultisigOutputsGrow(m, outs, at, k - 1);
    }
  }

  lemma SpentStaysSpent(d: Derived, tx: Transaction, at: TransactionIndex, input: Input)
    requires IsSpent(d, input)
    ensures IsSpent(Apply(d, tx, at), input)
  {
    MultisigOutputsGrow(Mark(d.multisigs, MultisigRefs(tx.inputs), true), tx.outputs, at, |tx.outputs|);
  }

  lemma ApplySpendsInputs(d: Derived, tx: Transaction, at: TransactionIndex, i: nat)
    requires i < |tx.inputs| && CanRecord(d, tx.inputs[i])
    ensures IsSpent(Apply(d, tx, at), tx.inputs[i])
  {
    var marked := Mark(d.multisigs, MultisigRefs(tx.inputs), true);
    MultisigOutputsGrow(marked, tx.outputs, at, |tx.outputs|);
    if tx.inputs[i].MultisigInput? {
      var ref := (tx.inputs[i].amount as nat, tx.inputs[i].outputIndex);
      assert ref in MultisigRefs(tx.inputs);
      assert marked[ref.0][ref.1].isUsed;
    }
  }

  lemma ApplyKeepsTracked(d: Derived, tx: Transaction, at: TransactionIndex, n: nat, n': nat)
    requires Tracked(d, n) && n <= n'
    requires forall i | 0 <= i < |tx.inputs| :: CanRecord(d, tx.inputs[i])
    requires forall i | 0 <= i < |tx.inputs| && tx.inputs[i].BaseInput? :: tx.inputs[i].blockIndex < n'
    ensures Tracked(Apply(d, tx, at), n')
  {
    var d' := Apply(d, tx, at);
    forall h | h in d'.transactions ensures EntryTracked(d', n', h) {
      assert h == OfTransaction(tx) || EntryTracked(d, n, h);
      forall i | 0 <= i < |h.tx.inputs| ensures InputTracked(d', n', h.tx.inputs[i]) {
        if h == OfTransaction(tx) {
          ApplySpendsInputs(d, tx, at, i);
        } else {
          assert InputTracked(d, n, h.tx.inputs[i]);
          SpentStaysSpent(d, tx, at, h.tx.inputs[i]);
        }
      }
    }
  }

  /** A transaction whose inputs are all unspent is not recorded yet. */
  lemma UnspentIsNew(d: Derived, n: nat, tx: Transaction)
    requires Tracked(d, n) && Semantic(tx)
    requires forall i | 0 <= i < |tx.inputs| :: CanSpend(d, tx.inputs[i])
    ensures OfTransaction(tx) !in d.transactions
  {
    assert CanSpend(d, tx.inputs[0]) && !tx.inputs[0].BaseInput?;
    assert EntryTracked(d, n, OfTransaction(tx)) ==> InputTracked(d, n, tx.inputs[0]);
  }

  lemma TrackedIsBelow(d: Derived, n: nat)
    requires Tracked(d, n)
    ensures HeightsBelow(d, n)
  {
    forall h | h in d.transactions ensures HeightBelow(h, n) {
      assert EntryTracked(d, n, h);
      forall i | 0 <= i < |h.tx.inputs| && h.tx.inputs[i].BaseInput? ensures h.tx.inputs[i].blockIndex < n {
        assert InputTracked(d, n, h.tx.inputs[i]);
      }
    }
  }

  lemma CoinbaseIsNew(d: Derived, n: nat, tx: Transaction)
    requires HeightsBelow(d, n) && CoinbaseOk(tx, n)
    ensures OfTransaction(tx) !in d.transactions
  {
    assert tx.inputs[0].BaseInput? && tx.inputs[0].blockIndex == n;
    assert !HeightBelow(OfTransaction(tx), n);
  }

  // ---------------------------------------------------------------------------------------------
  // What a block records

  lemma ApplyRecords(d: Derived, tx: Transaction, at: TransactionIndex)
    ensures Apply(d, tx, at).transactions == d.transactions[OfTransaction(tx) := at]
    ensures Apply(d, tx, at).indexed == d.indexed
  {
  }

  /** A push adds the transaction if it is not there, and keeps all others where they are. */
  lemma RecordKeeps(d: Derived, tx: Transaction, at: TransactionIndex)
    ensures Record(d, tx, at).transactions ==
            if OfTransaction(tx) in d.transactions then d.transactions else d.transactions[OfTransaction(tx) := at]
    ensures Record(d, tx, at).indexed == d.indexed
  {
  }

  lemma RecordIsApply(d: Derived, tx: Transaction, at: TransactionIndex)
    requires Pushable(d, tx)
    ensures Record(d, tx, at) == Apply(d, tx, at)
  {
    hide Apply;
  }

  lemma {:induction false} OnlyBlockAdds(d: Derived, all: seq<Transaction>, n: nat, k: nat, h: Hash)
    requires k <= |all|
    ensures h in Applied(d, all, n, k).transactions ==>
              h in d.transactions || exists i | 0 <= i < k :: h == OfTransaction(all[i])
  {
    hide Record;
    if k != 0 {
      RecordKeeps(Applied(d, all, n, k - 1), all[k - 1], TransactionIndex(n, k - 1));
      OnlyBlockAdds(d, all, n, k - 1, h);
    }
  }

  /** Pushing transactions that are not recorded yet is the same as replaying them. */
  lemma {:induction false} NewIsReplayed(d: Derived, all: seq<Transaction>, n: nat, k: nat)
    requires k <= |all|
    requires forall j | 0 <= j < k :: OfTransaction(all[j]) !in d.transactions
    requires forall i, j | 0 <= i < j < k :: all[i] != all[j]
    ensures Applied(d, all, n, k) == Replayed(d, all, n, k)
  {
    hide Apply;
    if k != 0 {
      NewIsReplayed(d, all, n, k - 1);
      OnlyBlockAdds(d, all, n, k - 1, OfTransaction(all[k - 1]));
    }
  }

  /** None of the first `k` transactions is recorded when its turn comes. */
  ghost predicate Fresh(d: Derived, all: seq<Transaction>, n: nat, k: nat)
    requires k <= |all|
  {
    forall j | 0 <= j < k :: OfTransaction(all[j]) !in Applied(d, all, n, j).transactions
  }

  lemma FreshApplies(d: Derived, all: seq<Transaction>, n: nat, k: nat)
    requires 1 <= k <= |all| && Fresh(d, all, n, k)
    ensures Applied(d, all, n, k) == Apply(Applied(d, all, n, k - 1), all[k - 1], TransactionIndex(n, k - 1))
  {
    hide Apply;
  }

  lemma NewIsFresh(d: Derived, b: Block, n: nat)
    requires NamesTransactions(b) && NewTransactions(d, b)
    ensures Fresh(d, BlockTxs(b), n, |BlockTxs(b)|)
    ensures forall k | 0 <= k <= |BlockTxs(b)| :: Applied(d, BlockTxs(b), n, k) == Replayed(d, BlockTxs(b), n, k)
  {
    hide Applied, Replayed;
    var all := BlockTxs(b);
    forall j | 0 <= j < |all| ensures OfTransaction(all[j]) !in Applied(d, all, n, j).transactions {
      OnlyBlockAdds(d, all, n, j, OfTransaction(all[j]));
    }
    forall k | 0 <= k <= |all| ensures Applied(d, all, n, k) == Replayed(d, all, n, k) {
      NewIsReplayed(d, all, n, k);
    }
  }

  ghost predicate AllPushable(d: Derived, all: seq<Transaction>, n: nat, k: nat)
    requires k <= |all|
  {
    forall j | 0 <= j < k :: Pushable(Applied(d, all, n, j), all[j])
  }

  ghost predicate AllSpendable(d: Derived, all: seq<Transaction>, n: nat, k: nat)
    requires k <= |all|
  {
    forall j | 0 <= j < k :: Spendable(Applied(d, all, n, j), all[j])
  }

  /** `popTransactions` after the pushes of a block gives the state before it with the flags of the block's
      multisignature inputs cleared; flags that were cleared in between stay cleared. */
  lemma {:induction false} UnappliedClears(d: Derived, all: seq<Transaction>, n: nat, k: nat, refs: set<(nat, nat)>)
    requires k <= |all| && WellFormed(d) && AllPushable(d, all, n, k)
    ensures WellFormed(Applied(d, all, n, k))
    ensures Unapplied(Clear(Applied(d, all, n, k), refs), all, k) == Clear(d, refs + Refs(all, k))
    decreases k
  {
    hide Record, Unapply, Pushable, WellFormed, Clear, MultisigRefs, KeyImages;
    if k == 0 {
      assert refs + {} == refs;
    } else {
      var before, own := Applied(d, all, n, k - 1), MultisigRefs(all[k - 1].inputs);
      UnappliedClears(d, all, n, k - 1, refs + own);
      assert refs + own + Refs(all, k - 1) == refs + Refs(all, k);
      PushableIsUnapplied(before, all[k - 1], TransactionIndex(n, k - 1), refs);
    }
  }

  lemma PushableIsUnapplied(d: Derived, tx: Transaction, at: TransactionIndex, refs: set<(nat, nat)>)
    requires WellFormed(d) && Pushable(d, tx)
    ensures WellFormed(Record(d, tx, at))
    ensures Unapply(Clear(Record(d, tx, at), refs), tx) == Clear(d, refs + MultisigRefs(tx.inputs))
  {
    hide Record, Apply, Unapply, WellFormed, Clear, MultisigRefs, KeyImages;
    PushableSpends(d, tx);
    RecordIsApply(d, tx, at);
    UnapplyClears(d, tx, at, refs);
  }

  /** So removing the transactions again restores the state if and only if none of the multisignature outputs they
      spend was spent before. */
  lemma UndoneIffUnspent(d: Derived, all: seq<Transaction>, n: nat, k: nat)
    requires k <= |all| && WellFormed(d) && AllPushable(d, all, n, k)
    ensures Undone(d, all, n, k) == Clear(d, Refs(all, k))
    ensures Undone(d, all, n, k) == d <==> UnspentIn(d.multisigs, Refs(all, k))
  {
    hide Applied, Unapplied, AllPushable, WellFormed, Clear, Refs, UnspentIn;
    UnappliedClears(d, all, n, k, {});
    ClearNothing(Applied(d, all, n, k));
    assert {} + Refs(all, k) == Refs(all, k);
    ClearIsIdentity(d, Refs(all, k));
  }

  /** `popTransactions` exactly inverts the pushes of a block that spends only unspent outputs. */
  lemma {:induction false} UnappliedUndoesApplied(d: Derived, all: seq<Transaction>, n: nat, k: nat)
    requires k <= |all| && WellFormed(d) && AllSpendable(d, all, n, k)
    ensures WellFormed(Applied(d, all, n, k))
    ensures Unapplied(Applied(d, all, n, k), all, k) == d
  {
    hide Record, Apply, Unapply, Spendable, WellFormed;
    if k != 0 {
      UnappliedUndoesApplied(d, all, n, k - 1);
      SpendableIsPushable(Applied(d, all, n, k - 1), all[k - 1]);
      RecordIsApply(Applied(d, all, n, k - 1), all[k - 1], TransactionIndex(n, k - 1));
      SpendableUndo(Applied(d, all, n, k - 1), all[k - 1], TransactionIndex(n, k - 1));
    }
  }

  // ---------------------------------------------------------------------------------------------
  // Pushes of a checked block succeed

  /** What `pushBlock` has established when it records transaction `j` of a block. */
  ghost predicate Checked(rules: Rules, blocks: seq<BlockEntry>, d: Derived, all: seq<Transaction>, j: nat)
    requires j < |all|
  {
    if j == 0 then CoinbaseOk(all[0], |blocks|)
    else Semantic(all[j]) && InputsOk(rules, blocks, Applied(d, all, |blocks|, j), all[j])
  }

  /** Outside the checkpoint zone no push inside `pushBlock` can fail, whatever the pool holds: a checked
      transaction is new and spends unspent outputs. */
  lemma CheckedIsSpendable(rules: Rules, blocks: seq<BlockEntry>, d: Derived, all: seq<Transaction>, j: nat)
    requires j < |all| && Checked(rules, blocks, d, all, j) && !rules.inZone(|blocks|)
    requires Tracked(Applied(d, all, |blocks|, j), |blocks| + if j == 0 then 0 else 1)
    ensures Spendable(Applied(d, all, |blocks|, j), all[j])
    ensures Tracked(Applied(d, all, |blocks|, j + 1), |blocks| + 1)
  {
    var dj := Applied(d, all, |blocks|, j);
    if j == 0 {
      TrackedIsBelow(dj, |blocks|);
      CoinbaseIsNew(dj, |blocks|, all[0]);
    } else {
      forall i | 0 <= i < |all[j].inputs| ensures CanSpend(dj, all[j].inputs[i]) {
        assert InputOk(rules, blocks, dj, all[j], i);
      }
      UnspentIsNew(dj, |blocks| + 1, all[j]);
    }
    SpendableIsPushable(dj, all[j]);
    RecordIsApply(dj, all[j], TransactionIndex(|blocks|, j));
    ApplyKeepsTracked(dj, all[j], TransactionIndex(|blocks|, j), |blocks| + if j == 0 then 0 else 1, |blocks| + 1);
  }

  lemma {:induction false} CheckedBlock(
    rules: Rules, blocks: seq<BlockEntry>, d: Derived, all: seq<Transaction>, k: nat)
    requires k <= |all| && Tracked(d, |blocks|) && !rules.inZone(|blocks|)
    requires forall j | 0 <= j < k :: Checked(rules, blocks, d, all, j)
    ensures AllSpendable(d, all, |blocks|, k)
    ensures Tracked(Applied(d, all, |blocks|, k), |blocks| + if k == 0 then 0 else 1)
  {
    hide Applied, Tracked, Checked, Spendable;
    if k == 0 {
      NoneApplied(d, all, |blocks|);
    } else {
      CheckedBlock(rules, blocks, d, all, k - 1);
      CheckedIsSpendable(rules, blocks, d, all, k - 1);
    }
  }

  /** Inside the zone too the pushes of a block of new transactions succeed, if the multisignature outputs they name
      exist. */
  lemma NewIsPushable(rules: Rules, blocks: seq<BlockEntry>, d: Derived, b: Block, j: nat)
    requires NamesTransactions(b) && j < |BlockTxs(b)|
    requires forall i | 0 <= i <= j :: Checked(rules, blocks, d, BlockTxs(b), i)
    requires NewTransactions(d, b) && ReferencesExist(rules, blocks, d, b)
    ensures Pushable(Applied(d, BlockTxs(b), |blocks|, j), BlockTxs(b)[j])
  {
    hide Applied, Semantic, BodyOk, ReferencesExist, InputsOk;
    var all := BlockTxs(b);
    var dj, tx := Applied(d, all, |blocks|, j), all[j];
    OnlyBlockAdds(d, all, |blocks|, j, OfTransaction(tx));
    CheckedIsDistinct(rules, blocks, d, all, j);
    ChecksPassed(rules, blocks, d, all, j);
    if j > 0 { CheckedCanRecord(rules, blocks, d, b, j); }
  }

  lemma CheckedCanRecord(rules: Rules, blocks: seq<BlockEntry>, d: Derived, b: Block, j: nat)
    requires NamesTransactions(b) && 1 <= j < |BlockTxs(b)| && BodyOk(rules, blocks, d, BlockTxs(b), j + 1)
    requires ReferencesExist(rules, blocks, d, b)
    ensures var dj, tx := Applied(d, BlockTxs(b), |blocks|, j), BlockTxs(b)[j];
      forall i | 0 <= i < |tx.inputs| :: CanRecord(dj, tx.inputs[i])
  {
    hide Applied;
    var dj, tx := Applied(d, BlockTxs(b), |blocks|, j), BlockTxs(b)[j];
    assert InputsOk(rules, blocks, dj, tx);
    forall i | 0 <= i < |tx.inputs| ensures CanRecord(dj, tx.inputs[i]) {
      assert InputOk(rules, blocks, dj, tx, i);
      if tx.inputs[i].MultisigInput? {
        assert (tx.inputs[i].amount as nat, tx.inputs[i].outputIndex) in MultisigRefs(tx.inputs);
      }
    }
  }

  lemma ChecksPassed(rules: Rules, blocks: seq<BlockEntry>, d: Derived, all: seq<Transaction>, j: nat)
    requires j < |all| && forall i | 0 <= i <= j :: Checked(rules, blocks, d, all, i)
    ensures BodyOk(rules, blocks, d, all, j + 1)
  {
    hide InputsOk, Applied, Semantic;
    forall i | 1 <= i < j + 1 ensures InputsOk(rules, blocks, Applied(d, all, |blocks|, i), all[i]) {
      assert Checked(rules, blocks, d, all, i);
    }
  }

  lemma CheckedIsDistinct(rules: Rules, blocks: seq<BlockEntry>, d: Derived, all: seq<Transaction>, j: nat)
    requires j < |all| && Checked(rules, blocks, d, all, j)
    ensures DistinctKeyImages(all[j].inputs) && DistinctMultisigs(all[j].inputs)
    ensures j > 0 ==> forall i | 0 <= i < |all[j].inputs| :: !all[j].inputs[i].BaseInput?
  {
    hide InputsOk, Applied;
  }

  lemma NewBlockIsPushable(rules: Rules, blocks: seq<BlockEntry>, d: Derived, b: Block, k: nat)
    requires NamesTransactions(b) && k <= |BlockTxs(b)|
    requires forall j | 0 <= j < k :: Checked(rules, blocks, d, BlockTxs(b), j)
    requires NewTransactions(d, b) && ReferencesExist(rules, blocks, d, b)
    ensures AllPushable(d, BlockTxs(b), |blocks|, k)
  {
    hide Applied, Checked, Pushable, NewTransactions, ReferencesExist;
    forall j | 0 <= j < k ensures Pushable(Applied(d, BlockTxs(b), |blocks|, j), BlockTxs(b)[j]) {
      NewIsPushable(rules, blocks, d, b, j);
    }
  }

  lemma PassedChecks(rules: Rules, now: nat, blocks: seq<BlockEntry>, d: Derived, b: Block, k: nat)
    requires NamesTransactions(b) && k <= |BlockTxs(b)|
    requires forall j | 1 <= j < |BlockTxs(b)| :: Semantic(BlockTxs(b)[j])
    requires HeaderOk(rules, now, blocks, b) && BodyOk(rules, blocks, d, BlockTxs(b), k)
    ensures forall j | 0 <= j < k :: Checked(rules, blocks, d, BlockTxs(b), j)
  {
    hide Apply, Applied, Semantic;
  }

  /** A block from the pool names new transactions. */
  lemma LoadedIsNew(rules: Rules, now: nat, s: State, b: Block)
    requires CanLoad(s.pool, b) && PoolOk(s) && HeaderOk(rules, now, s.blocks, b) && HeightsBelow(s.d, |s.blocks|)
    ensures NewTransactions(s.d, b) && forall j | 1 <= j < |BlockTxs(b)| :: Semantic(BlockTxs(b)[j])
  {
    hide HeightsBelow;
    var all := BlockTxs(b);
    forall j | 1 <= j < |all| ensures Semantic(all[j]) && OfTransaction(all[j]) !in s.d.transactions
      && all[0] != all[j] {
      assert b.transactionHashes[j - 1].tx in s.pool;
    }
    CoinbaseIsNew(s.d, |s.blocks|, all[0]);
    forall i, j | 1 <= i < j < |all| ensures all[i] != all[j] {
      assert b.transactionHashes[i - 1] != b.transactionHashes[j - 1];
    }
  }

  // ---------------------------------------------------------------------------------------------
  // The whole chain

  lemma AcceptedEntry(rules: Rules, now: nat, blocks: seq<BlockEntry>, d: Derived, b: Block, e: BlockEntry)
    requires NamesTransactions(b) && Judge(rules, now, blocks, d, b) == Accepted(e)
    ensures e.bl == b && e.height == |blocks| == BaseHeight(b) && AllTxs(e) == BlockTxs(b)
    ensures Others(e) == NamedSet(b) && e.transactions == Entries(d, BlockTxs(b), |blocks|)
    ensures HeaderOk(rules, now, blocks, b) && BodyOk(rules, blocks, d, BlockTxs(b), |BlockTxs(b)|)
  {
    hide BodyOk, Emission, SizeSum, Semantic;
    assert AllTxs(e) == BlockTxs(b);
    forall i | 1 <= i < |e.transactions| ensures e.transactions[i].tx == b.transactionHashes[i - 1].tx {
      assert AllTxs(e)[i] == BlockTxs(b)[i];
    }
    forall i | 0 <= i < |b.transactionHashes| ensures b.transactionHashes[i].tx in Others(e) {
      assert e.transactions[i + 1].tx in Others(e);
    }
  }

  lemma LaterEntry(rules: Rules, now: nat, now': nat, indexed: bool, prefix: seq<BlockEntry>, e: BlockEntry)
    requires EntryOk(rules, now, indexed, prefix, e) && now <= now'
    ensures EntryOk(rules, now', indexed, prefix, e)
  {
    hide BodyOk, Emission, NewEntry, Semantic, Rebuild, CoinbaseOk, SizeSum, NewTransactions, ReferencesExist,
         Countable;
  }

  lemma LaterIsFine(rules: Rules, now: nat, now': nat, indexed: bool, blocks: seq<BlockEntry>)
    requires ChainOk(rules, now, indexed, blocks) && now <= now'
    ensures ChainOk(rules, now', indexed, blocks)
  {
    hide EntryOk;
    forall k | 0 <= k < |blocks| ensures EntryOk(rules, now', indexed, blocks[..k], blocks[k]) {
      LaterEntry(rules, now, now', indexed, blocks[..k], blocks[k]);
    }
  }

  lemma PrefixIsFine(rules: Rules, now: nat, indexed: bool, blocks: seq<BlockEntry>, n: nat)
    requires ChainOk(rules, now, indexed, blocks) && n <= |blocks|
    ensures ChainOk(rules, now, indexed, blocks[..n])
  {
    hide EntryOk;
    forall k | 0 <= k < n ensures EntryOk(rules, now, indexed, blocks[..n][..k], blocks[..n][k]) {
      assert blocks[..n][..k] == blocks[..k];
      assert EntryOk(rules, now, indexed, blocks[..k], blocks[k]);
    }
  }

  lemma AcceptedPrefix(rules: Rules, now: nat, indexed: bool, blocks: seq<BlockEntry>, n: nat)
    requires AcceptedChain(rules, now, indexed, blocks) && n <= |blocks|
    ensures AcceptedChain(rules, now, indexed, blocks[..n])
  {
    hide EntryAccepted;
    forall k | 0 <= k < n ensures EntryAccepted(rules, now, indexed, blocks[..n][..k], blocks[..n][k]) {
      assert blocks[..n][..k] == blocks[..k];
      assert EntryAccepted(rules, now, indexed, blocks[..k], blocks[k]);
    }
  }

  lemma FineIsAccepted(rules: Rules, now: nat, indexed: bool, blocks: seq<BlockEntry>)
    requires ChainOk(rules, now, indexed, blocks)
    ensures AcceptedChain(rules, now, indexed, blocks)
  {
    hide EntryAccepted, ReferencesExist, Rebuild;
    forall k | 0 <= k < |blocks| ensures EntryAccepted(rules, now, indexed, blocks[..k], blocks[k]) {
      assert EntryOk(rules, now, indexed, blocks[..k], blocks[k]);
    }
  }

  lemma ExtensionIsFine(rules: Rules, now: nat, indexed: bool, blocks: seq<BlockEntry>, e: BlockEntry)
    requires ChainOk(rules, now, indexed, blocks) && EntryOk(rules, now, indexed, blocks, e)
    ensures ChainOk(rules, now, indexed, blocks + [e])
  {
    hide EntryOk;
    var more := blocks + [e];
    forall k | 0 <= k < |more| ensures EntryOk(rules, now, indexed, more[..k], more[k]) {
      assert more[..k] == if k < |blocks| then blocks[..k] else blocks;
      assert k < |blocks| ==> EntryOk(rules, now, indexed, blocks[..k], blocks[k]);
    }
  }

  lemma RebuildExtends(indexed: bool, prefix: seq<BlockEntry>, e: BlockEntry)
    ensures Rebuild(indexed, prefix + [e]) == Replayed(Rebuild(indexed, prefix), AllTxs(e), |prefix|, |AllTxs(e)|)
  {
    hide Replayed;
    assert (prefix + [e])[..|prefix|] == prefix;
  }

  /** Replaying an accepted block is pushing it. */
  lemma RebuildPushes(rules: Rules, now: nat, indexed: bool, prefix: seq<BlockEntry>, e: BlockEntry)
    requires EntryAccepted(rules, now, indexed, prefix, e)
    ensures AllTxs(e) == BlockTxs(e.bl)
    ensures Rebuild(indexed, prefix + [e]) ==
            Applied(Rebuild(indexed, prefix), BlockTxs(e.bl), |prefix|, |BlockTxs(e.bl)|)
  {
    hide Applied, Replayed, Rebuild, Judge, Semantic, BlockTxs, Countable;
    AcceptedEntry(rules, now, prefix, Rebuild(indexed, prefix), e.bl, e);
    RebuildExtends(indexed, prefix, e);
    NewIsReplayed(Rebuild(indexed, prefix), BlockTxs(e.bl), |prefix|, |BlockTxs(e.bl)|);
  }

  /** The state rebuilt from a valid chain keeps no empty vector and marks the inputs of every recorded transaction
      as spent. */
  lemma {:induction false} ChainFacts(rules: Rules, now: nat, indexed: bool, blocks: seq<BlockEntry>)
    requires ChainOk(rules, now, indexed, blocks)
    ensures WellFormed(Rebuild(indexed, blocks)) && Tracked(Rebuild(indexed, blocks), |blocks|)
    decreases |blocks|, 0
  {
    hide Rebuild, Apply, Applied, Tracked, WellFormed, ChainOk, EntryOk, AllPushable, BlockTxs;
    if blocks == [] {
      EmptyFacts(indexed);
    } else {
      var n := |blocks| - 1;
      assert blocks == blocks[..n] + [blocks[n]];
      ChainFacts'(rules, now, indexed, blocks[..n], blocks[n]);
    }
  }

  lemma EmptyFacts(indexed: bool)
    ensures WellFormed(Rebuild(indexed, [])) && Tracked(Rebuild(indexed, []), 0)
  {
  }

  /** Every push of a valid last block succeeded. */
  lemma {:induction false} ChainFacts'(rules: Rules, now: nat, indexed: bool, prefix: seq<BlockEntry>, e: BlockEntry)
    requires ChainOk(rules, now, indexed, prefix + [e])
    ensures ChainOk(rules, now, indexed, prefix)
    ensures EntryOk(rules, now, indexed, prefix, e) && AllTxs(e) == BlockTxs(e.bl)
    ensures WellFormed(Rebuild(indexed, prefix)) && Tracked(Rebuild(indexed, prefix), |prefix|)
    ensures AllPushable(Rebuild(indexed, prefix), BlockTxs(e.bl), |prefix|, |BlockTxs(e.bl)|)
    ensures Rebuild(indexed, prefix + [e]) == Applied(Rebuild(indexed, prefix), BlockTxs(e.bl), |prefix|, |BlockTxs(e.bl)|)
    ensures WellFormed(Rebuild(indexed, prefix + [e])) && Tracked(Rebuild(indexed, prefix + [e]), |prefix| + 1)
    decreases |prefix|, 1
  {
    hide Apply, Applied, Semantic, Tracked, WellFormed, AllPushable, Rebuild, HeaderOk, BodyOk, Judge,
         NewTransactions, ReferencesExist, Countable, Checked;
    var blocks := prefix + [e];
    PrefixIsFine(rules, now, indexed, blocks, |prefix|);
    assert blocks[..|prefix|] == prefix;
    assert EntryOk(rules, now, indexed, blocks[..|prefix|], blocks[|prefix|]);
    ChainFacts(rules, now, indexed, prefix);
    var d := Rebuild(indexed, prefix);
    AcceptedEntry(rules, now, prefix, d, e.bl, e);
    RebuildPushes(rules, now, indexed, prefix, e);
    PassedChecks(rules, now, prefix, d, e.bl, |BlockTxs(e.bl)|);
    NewBlockIsPushable(rules, prefix, d, e.bl, |BlockTxs(e.bl)|);
    UnappliedClears(d, BlockTxs(e.bl), |prefix|, |BlockTxs(e.bl)|, {});
    BlockKeepsTracked(rules, prefix, d, BlockTxs(e.bl), |BlockTxs(e.bl)|);
  }

  lemma {:induction false} BlockKeepsTracked(
    rules: Rules, blocks: seq<BlockEntry>, d: Derived, all: seq<Transaction>, k: nat)
    requires k <= |all| && Tracked(d, |blocks|) && AllPushable(d, all, |blocks|, k)
    requires forall j | 0 <= j < k :: Checked(rules, blocks, d, all, j)
    ensures Tracked(Applied(d, all, |blocks|, k), |blocks| + if k == 0 then 0 else 1)
  {
    hide Applied, Tracked, Checked, Pushable;
    if k == 0 {
      NoneApplied(d, all, |blocks|);
    } else {
      BlockKeepsTracked(rules, blocks, d, all, k - 1);
      PushKeepsTracked(rules, blocks, d, all, k - 1);
    }
  }

  lemma NoneApplied(d: Derived, all: seq<Transaction>, n: nat)
    ensures Applied(d, all, n, 0) == d
  {
  }

  lemma PushKeepsTracked(rules: Rules, blocks: seq<BlockEntry>, d: Derived, all: seq<Transaction>, j: nat)
    requires j < |all| && Checked(rules, blocks, d, all, j) && Pushable(Applied(d, all, |blocks|, j), all[j])
    requires Tracked(Applied(d, all, |blocks|, j), |blocks| + if j == 0 then 0 else 1)
    ensures Tracked(Applied(d, all, |blocks|, j + 1), |blocks| + 1)
  {
    hide Apply, Tracked, InputsOk, Semantic;
    CheckedIsDistinct(rules, blocks, d, all, j);
    RecordIsApply(Applied(d, all, |blocks|, j), all[j], TransactionIndex(|blocks|, j));
    ApplyKeepsTracked(Applied(d, all, |blocks|, j), all[j], TransactionIndex(|blocks|, j),
                      |blocks| + (if j == 0 then 0 else 1), |blocks| + 1);
  }

  lemma {:induction false} AppliedIndexed(d: Derived, all: seq<Transaction>, n: nat, k: nat)
    requires k <= |all|
    ensures Applied(d, all, n, k).indexed == d.indexed
  {
    hide Record;
    if k != 0 {
      RecordKeeps(Applied(d, all, n, k - 1), all[k - 1], TransactionIndex(n, k - 1));
      AppliedIndexed(d, all, n, k - 1);
    }
  }

  lemma {:induction false} RebuildIndexed(indexed: bool, blocks: seq<BlockEntry>)
    ensures Rebuild(indexed, blocks).indexed == indexed
    decreases |blocks|
  {
    hide Replayed;
    if blocks != [] {
      var n := |blocks| - 1;
      RebuildIndexed(indexed, blocks[..n]);
      ReplayedIndexed(Rebuild(indexed, blocks[..n]), AllTxs(blocks[n]), n, |AllTxs(blocks[n])|);
    }
  }

  lemma {:induction false} ReplayedIndexed(d: Derived, all: seq<Transaction>, n: nat, k: nat)
    requires k <= |all|
    ensures Replayed(d, all, n, k).indexed == d.indexed
  {
    hide Apply;
    if k != 0 {
      ApplyRecords(Replayed(d, all, n, k - 1), all[k - 1], TransactionIndex(n, k - 1));
      ReplayedIndexed(d, all, n, k - 1);
    }
  }
}
