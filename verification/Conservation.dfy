/** What every operation keeps on every state it can reach, whatever fails on the way: no transaction is held twice,
    the transactions of the chain are recorded, key images stay apart, and the indexes match the chain. No transaction
    is lost but those of a block that is left by an exception. */
module Conservation {
  import opened ChainTypes
  import opened DerivedState
  import opened Rules
  import opened Ledger
  import opened Steps
  import opened Reorganisation
  import opened Switching

  // ---------------------------------------------------------------------------------------------
  // The transactions of pool and chain

  /** The transactions of the chain other than coinbases, with their multiplicities. */
  function Named(blocks: seq<BlockEntry>): multiset<Hash> {
    if blocks == [] then multiset{}
    else Named(blocks[..|blocks| - 1]) + multiset(blocks[|blocks| - 1].bl.transactionHashes)
  }

  function PoolHashes(pool: set<Transaction>): set<Hash> {
    set tx | tx in pool :: OfTransaction(tx)
  }

  /** All transactions in the pool or the chain. */
  function Holdings(s: State): multiset<Hash> {
    multiset(PoolHashes(s.pool)) + Named(s.blocks)
  }

  lemma {:induction false} DistinctBag<T>(xs: seq<T>)
    requires forall i, j | 0 <= i < j < |xs| :: xs[i] != xs[j]
    ensures multiset(xs) == multiset(set x | x in xs)
  {
    if xs != [] {
      var n := |xs| - 1;
      DistinctBag(xs[..n]);
      assert xs == xs[..n] + [xs[n]];
      assert (set x | x in xs) == (set x | x in xs[..n]) + {xs[n]};
      assert xs[n] !in xs[..n];
    }
  }

  lemma {:induction false} OnceIsDistinct<T>(xs: seq<T>)
    requires forall x :: multiset(xs)[x] <= 1
    ensures forall i, j | 0 <= i < j < |xs| :: xs[i] != xs[j]
  {
    if xs != [] {
      var n := |xs| - 1;
      assert xs == xs[..n] + [xs[n]];
      forall x ensures multiset(xs[..n])[x] <= 1 { assert multiset(xs)[x] <= 1; }
      OnceIsDistinct(xs[..n]);
      assert multiset(xs)[xs[n]] <= 1;
      assert xs[n] !in multiset(xs[..n]);
    }
  }

  lemma NamedExtends(blocks: seq<BlockEntry>, e: BlockEntry)
    ensures Named(blocks + [e]) == Named(blocks) + multiset(e.bl.transactionHashes)
  {
    assert (blocks + [e])[..|blocks|] == blocks;
  }

  /** Taking the transactions of a block from the pool removes each of them once. */
  lemma TakenOnce(pool: set<Transaction>, b: Block)
    requires CanLoad(pool, b)
    ensures multiset(PoolHashes(pool)) == multiset(PoolHashes(pool - NamedSet(b))) + multiset(b.transactionHashes)
  {
    var hashes := set h | h in b.transactionHashes;
    DistinctBag(b.transactionHashes);
    forall h | h in hashes ensures h.OfTransaction? && h in PoolHashes(pool) && h.tx in NamedSet(b) {
      var i :| 0 <= i < |b.transactionHashes| && b.transactionHashes[i] == h;
    }
    forall tx | tx in NamedSet(b) ensures OfTransaction(tx) in hashes {
      var i :| 0 <= i < |b.transactionHashes| && b.transactionHashes[i].OfTransaction?
               && b.transactionHashes[i].tx == tx;
      assert b.transactionHashes[i] in b.transactionHashes;
    }
    assert PoolHashes(pool - NamedSet(b)) == PoolHashes(pool) - hashes;
    assert multiset(PoolHashes(pool)) == multiset(PoolHashes(pool) - hashes) + multiset(hashes);
  }

  /** What `pushBlock` loses: the transactions of a block that is left by an exception. */
  ghost function Lost(rules: Rules, now: nat, s: State, b: Block): multiset<Hash> {
    if IsThrown(rules, now, s, b) then multiset(b.transactionHashes) else multiset{}
  }

  /** `pushBlock` moves transactions from the pool to the chain, each once, and loses nothing else. */
  lemma PushConserves(rules: Rules, now: nat, s: State, b: Block)
    ensures Holdings(s) == Holdings(PushBlock(rules, now, s, b).0) + Lost(rules, now, s, b)
    ensures Holdings(PushBlock(rules, now, s, b).0) == Holdings(s) <==> !IsThrown(rules, now, s, b)
  {
    hide Judge, Applied, AddIndexes, BlockTxs, PoolHashes, NamedSet, Named, Undone, IsThrown;
    if CanLoad(s.pool, b) {
      VerdictOf(rules, now, s, b);
      TakenOnce(s.pool, b);
      if IsThrown(rules, now, s, b) { ThrownNames(rules, now, s, b); }
      if PushBlock(rules, now, s, b).1 {
        JudgedBlock(rules, now, s.blocks, s.d, b);
        NamedExtends(s.blocks, Judge(rules, now, s.blocks, s.d, b).entry);
      }
    } else {
      OnlyLoaded(rules, now, s, b);
    }
  }

  lemma ThrownNames(rules: Rules, now: nat, s: State, b: Block)
    requires IsThrown(rules, now, s, b)
    ensures |multiset(b.transactionHashes)| > 0
  {
    hide HeaderOk, FirstBad, InputsThrow;
  }

  lemma JudgedBlock(rules: Rules, now: nat, blocks: seq<BlockEntry>, d: Derived, b: Block)
    requires NamesTransactions(b) && Judge(rules, now, blocks, d, b).Accepted?
    ensures Judge(rules, now, blocks, d, b).entry.bl == b
  {
    hide HeaderOk, BodyOk, Emission, SizeSum, FirstBad;
  }

  // ---------------------------------------------------------------------------------------------
  // The invariant of every run

  /** The entry was accepted on some derived state. */
  ghost predicate EntryKept(rules: Rules, prefix: seq<BlockEntry>, e: BlockEntry) {
    && NamesTransactions(e.bl)
    && (forall j | 1 <= j < |BlockTxs(e.bl)| :: Semantic(BlockTxs(e.bl)[j]))
    && exists now: nat, d: Derived :: Judge(rules, now, prefix, d, e.bl) == Accepted(e)
  }

  ghost predicate KeptChain(rules: Rules, blocks: seq<BlockEntry>) {
    forall k | 0 <= k < |blocks| :: EntryKept(rules, blocks[..k], blocks[k])
  }

  ghost predicate HeldOnce(s: State) {
    forall h :: Holdings(s)[h] <= 1
  }

  /** Every transaction of the chain is in the transaction map. */
  ghost predicate ChainRecorded(blocks: seq<BlockEntry>, d: Derived) {
    forall k, tx | 0 <= k < |blocks| && tx in AllTxs(blocks[k]) :: OfTransaction(tx) in d.transactions
  }

  /** The key images of recorded transactions are spent, and no two transactions share one. */
  ghost predicate ImagesApart(d: Derived) {
    && (forall h | h in d.transactions :: h.OfTransaction? && KeyImages(h.tx.inputs) <= d.spentKeys)
    && (forall h, h' | h in d.transactions && h' in d.transactions && h != h' ::
          h.OfTransaction? && h'.OfTransaction? && KeyImages(h.tx.inputs) !! KeyImages(h'.tx.inputs))
  }

  ghost predicate Kept(rules: Rules, s: State) {
    && KeptChain(rules, s.blocks)
    && HeldOnce(s)
    && ChainRecorded(s.blocks, s.d)
    && ImagesApart(s.d)
    && (forall tx | tx in s.pool :: Semantic(tx))
    && s.ix == IndexesOf(s.d.indexed, s.blocks)
  }

  lemma KeptEntry(rules: Rules, prefix: seq<BlockEntry>, e: BlockEntry)
    requires EntryKept(rules, prefix, e)
    ensures NamesTransactions(e.bl) && AllTxs(e) == BlockTxs(e.bl) && Others(e) == NamedSet(e.bl)
    ensures e.height == BaseHeight(e.bl) == |prefix| && CoinbaseOk(e.bl.baseTransaction, |prefix|)
    ensures forall j | 1 <= j < |BlockTxs(e.bl)| :: Semantic(BlockTxs(e.bl)[j])
  {
    hide Judge, Semantic, BodyOk, BlockTxs;
    var now, d :| Judge(rules, now, prefix, d, e.bl) == Accepted(e);
    AcceptedEntry(rules, now, prefix, d, e.bl, e);
  }

  /** A transaction of the chain is a coinbase of its height, or is named by its block and has no base input. */
  lemma ChainTransaction(rules: Rules, blocks: seq<BlockEntry>, k: nat, tx: Transaction)
    requires KeptChain(rules, blocks) && k < |blocks| && tx in AllTxs(blocks[k])
    ensures tx.inputs == [BaseInput(k)] || (OfTransaction(tx) in blocks[k].bl.transactionHashes && Semantic(tx))
  {
    hide EntryKept, Semantic, AllTxs;
    assert EntryKept(rules, blocks[..k], blocks[k]);
    KeptEntry(rules, blocks[..k], blocks[k]);
    var all := BlockTxs(blocks[k].bl);
    var j :| 0 <= j < |all| && all[j] == tx;
    if j > 0 { assert blocks[k].bl.transactionHashes[j - 1] == OfTransaction(all[j]); }
  }

  lemma {:induction false} NamedIn(blocks: seq<BlockEntry>, k: nat, h: Hash)
    requires k < |blocks| && h in blocks[k].bl.transactionHashes
    ensures h in Named(blocks)
    decreases |blocks|
  {
    if k < |blocks| - 1 { NamedIn(blocks[..|blocks| - 1], k, h); }
  }

  /** What is in the pool is not in the chain, and no block repeats a transaction of an earlier one. */
  lemma PoolApart(rules: Rules, s: State, tx: Transaction)
    requires KeptChain(rules, s.blocks) && HeldOnce(s) && tx in s.pool && Semantic(tx)
    ensures forall k | 0 <= k < |s.blocks| :: tx !in AllTxs(s.blocks[k])
  {
    hide KeptChain, AllTxs, Semantic;
    var h := OfTransaction(tx);
    assert Holdings(s)[h] <= 1 && h in PoolHashes(s.pool);
    forall k | 0 <= k < |s.blocks| ensures tx !in AllTxs(s.blocks[k]) {
      if tx in AllTxs(s.blocks[k]) {
        ChainTransaction(rules, s.blocks, k, tx);
        NoBase(tx);
        NamedIn(s.blocks, k, h);
      }
    }
  }

  lemma NoBase(tx: Transaction)
    requires Semantic(tx)
    ensures forall n :: tx.inputs != [BaseInput(n)]
  {
    forall n ensures tx.inputs != [BaseInput(n)] { assert !tx.inputs[0].BaseInput?; }
  }

  lemma BlockIsDistinct(pool: set<Transaction>, b: Block, n: nat)
    requires CanLoad(pool, b) && CoinbaseOk(b.baseTransaction, n)
    requires forall j | 1 <= j < |BlockTxs(b)| :: Semantic(BlockTxs(b)[j])
    ensures forall i, j | 0 <= i < j < |BlockTxs(b)| :: BlockTxs(b)[i] != BlockTxs(b)[j]
  {
    hide Semantic;
    var all := BlockTxs(b);
    forall i, j | 0 <= i < j < |all| ensures all[i] != all[j] {
      if i == 0 {
        NoBase(all[j]);
      } else {
        assert b.transactionHashes[i - 1] != b.transactionHashes[j - 1];
      }
    }
  }

  lemma KeptParts(rules: Rules, s: State)
    requires Kept(rules, s)
    ensures KeptChain(rules, s.blocks) && HeldOnce(s) && ChainRecorded(s.blocks, s.d) && ImagesApart(s.d)
  {
    hide KeptChain, HeldOnce, ChainRecorded, ImagesApart, IndexesOf, Semantic;
  }

  lemma LastApart(rules: Rules, s: State, k: nat, tx: Transaction)
    requires KeptChain(rules, s.blocks) && HeldOnce(s) && k < |s.blocks| - 1 && tx in AllTxs(s.blocks[k])
    ensures tx !in AllTxs(s.blocks[|s.blocks| - 1])
  {
    hide KeptChain, AllTxs, Semantic;
    var n, h := |s.blocks| - 1, OfTransaction(tx);
    assert Holdings(s)[h] <= 1;
    if tx in AllTxs(s.blocks[n]) {
      ChainTransaction(rules, s.blocks, k, tx);
      ChainTransaction(rules, s.blocks, n, tx);
      if Semantic(tx) { NoBase(tx); }
      if h in s.blocks[k].bl.transactionHashes { NamedIn(s.blocks[..n], k, h); }
    }
  }

  lemma NamedIsThere(rules: Rules, s: State, k: nat, tx: Transaction)
    requires Kept(rules, s) && k < |s.blocks| && OfTransaction(tx) in s.blocks[k].bl.transactionHashes
    ensures OfTransaction(tx) in s.d.transactions
  {
    hide HeldOnce, ImagesApart, IndexesOf, Semantic, EntryKept, AllTxs;
    assert EntryKept(rules, s.blocks[..k], s.blocks[k]);
    KeptEntry(rules, s.blocks[..k], s.blocks[k]);
    var b := s.blocks[k].bl;
    var i :| 0 <= i < |b.transactionHashes| && b.transactionHashes[i] == OfTransaction(tx);
    assert BlockTxs(b)[i + 1] == tx && tx in AllTxs(s.blocks[k]);
  }

  // ---------------------------------------------------------------------------------------------
  // Key images

  lemma RecordKeepsApart(d: Derived, tx: Transaction, at: TransactionIndex)
    requires ImagesApart(d) && KeyImages(tx.inputs) !! d.spentKeys
    ensures ImagesApart(Record(d, tx, at))
  {
    hide KeyImages, Mark, AddKeyOutputs, AddMultisigOutputs, MultisigRefs;
    var d' := Record(d, tx, at);
    if OfTransaction(tx) !in d.transactions {
      forall h, h' | h in d'.transactions && h' in d'.transactions && h != h'
        ensures h.OfTransaction? && h'.OfTransaction? && KeyImages(h.tx.inputs) !! KeyImages(h'.tx.inputs)
      {
        assert h in d.transactions || h == OfTransaction(tx);
        assert h' in d.transactions || h' == OfTransaction(tx);
      }
    }
  }

  lemma UnapplyKeepsApart(d: Derived, tx: Transaction)
    requires ImagesApart(d)
    ensures ImagesApart(Unapply(d, tx))
  {
    hide KeyImages, Mark, RemoveKeyOutputs, RemoveMultisigOutputs, MultisigRefs;
  }

  lemma CheckedImagesNew(rules: Rules, blocks: seq<BlockEntry>, d: Derived, tx: Transaction)
    requires InputsOk(rules, blocks, d, tx)
    ensures KeyImages(tx.inputs) !! d.spentKeys
  {
    forall image | image in KeyImages(tx.inputs) ensures image !in d.spentKeys {
      var i :| 0 <= i < |tx.inputs| && tx.inputs[i].KeyInput? && tx.inputs[i].keyImage == image;
      assert InputOk(rules, blocks, d, tx, i);
    }
  }

  lemma CoinbaseHasNoImage(tx: Transaction, n: nat)
    requires CoinbaseOk(tx, n)
    ensures KeyImages(tx.inputs) == {}
  {
  }

  lemma {:induction false} AppliedKeepsApart(
    rules: Rules, blocks: seq<BlockEntry>, d: Derived, all: seq<Transaction>, k: nat)
    requires k <= |all| && ImagesApart(d) && BodyOk(rules, blocks, d, all, k)
             && (k > 0 ==> CoinbaseOk(all[0], |blocks|))
    ensures ImagesApart(Applied(d, all, |blocks|, k))
  {
    hide Record, ImagesApart, InputsOk, KeyImages;
    if k != 0 {
      AppliedKeepsApart(rules, blocks, d, all, k - 1);
      var before := Applied(d, all, |blocks|, k - 1);
      if k == 1 {
        CoinbaseHasNoImage(all[0], |blocks|);
      } else {
        CheckedImagesNew(rules, blocks, before, all[k - 1]);
      }
      RecordKeepsApart(before, all[k - 1], TransactionIndex(|blocks|, k - 1));
    }
  }

  lemma {:induction false} UnappliedKeepsApart(d: Derived, all: seq<Transaction>, k: nat)
    requires k <= |all| && ImagesApart(d)
    ensures ImagesApart(Unapplied(d, all, k))
    decreases k
  {
    hide Unapply, ImagesApart;
    if k != 0 {
      UnapplyKeepsApart(d, all[k - 1]);
      UnappliedKeepsApart(Unapply(d, all[k - 1]), all, k - 1);
    }
  }

  // ---------------------------------------------------------------------------------------------
  // Pushing

  /** The transactions of a block that is looked at are not in the chain. */
  lemma BlockApart(rules: Rules, now: nat, s: State, b: Block, k: nat, tx: Transaction)
    requires Kept(rules, s) && CanLoad(s.pool, b) && HeaderOk(rules, now, s.blocks, b)
    requires k < |s.blocks| && tx in AllTxs(s.blocks[k])
    ensures tx !in BlockTxs(b)
  {
    hide KeptChain, HeldOnce, ChainRecorded, ImagesApart, IndexesOf, AllTxs, Semantic;
    if tx in BlockTxs(b) {
      var j :| 0 <= j < |BlockTxs(b)| && BlockTxs(b)[j] == tx;
      if j == 0 {
        ChainTransaction(rules, s.blocks, k, tx);
        if Semantic(tx) { NoBase(tx); }
      } else {
        assert b.transactionHashes[j - 1].tx in s.pool;
        PoolApart(rules, s, tx);
      }
    }
  }

  lemma LoadedAreSemantic(rules: Rules, s: State, b: Block)
    requires Kept(rules, s) && CanLoad(s.pool, b)
    ensures forall j | 1 <= j < |BlockTxs(b)| :: Semantic(BlockTxs(b)[j])
  {
    hide KeptChain, HeldOnce, ChainRecorded, ImagesApart, IndexesOf, Semantic;
    forall j | 1 <= j < |BlockTxs(b)| ensures Semantic(BlockTxs(b)[j]) {
      assert b.transactionHashes[j - 1].tx in s.pool;
    }
  }

  /** What `pushBlock` does to the derived state keeps the transactions of the chain recorded, and images apart. */
  lemma PushKeepsRecords(rules: Rules, now: nat, s: State, b: Block)
    requires Kept(rules, s)
    ensures var d' := PushBlock(rules, now, s, b).0.d; ChainRecorded(s.blocks, d') && ImagesApart(d')
    ensures PushBlock(rules, now, s, b).0.d.indexed == s.d.indexed
  {
    hide KeptChain, HeldOnce, ImagesApart, IndexesOf, AllTxs, Semantic, Applied, Unapplied, HeaderOk, BodyOk,
         Emission, SizeSum, NewEntry, FirstBad, AddIndexes, PushBlock;
    CannotPush(rules, now, s, b);
    if CanLoad(s.pool, b) && HeaderOk(rules, now, s.blocks, b) {
      var all, n := BlockTxs(b), |s.blocks|;
      RecordedOrUndone(rules, now, s, b);
      NoneChecked(rules, s.blocks, s.d, all);
      FirstBadIsFirst(rules, s.blocks, s.d, all, 1);
      CoinbaseOfHeader(rules, now, s.blocks, b);
      var k := FirstBad(rules, s.blocks, s.d, all, 1);
      AppliedKeepsApart(rules, s.blocks, s.d, all, k);
      UnappliedKeepsApart(Applied(s.d, all, n, k), all, k);
      AppliedIndexed(s.d, all, n, k);
      UnappliedIndexed(Applied(s.d, all, n, k), all, k);
      forall i, tx | 0 <= i < n && tx in AllTxs(s.blocks[i])
        ensures OfTransaction(tx) in Applied(s.d, all, n, k).transactions
        ensures OfTransaction(tx) in Undone(s.d, all, n, k).transactions
      {
        BlockApart(rules, now, s, b, i, tx);
        AppliedKeeps(s.d, all, n, k, OfTransaction(tx));
        UnappliedKeeps(Applied(s.d, all, n, k), all, k, OfTransaction(tx));
      }
    }
  }

  /** `pushBlock` records the transactions up to the first bad one, and leaves or removes them. */
  lemma RecordedOrUndone(rules: Rules, now: nat, s: State, b: Block)
    requires CanLoad(s.pool, b) && HeaderOk(rules, now, s.blocks, b)
    ensures var all, n, d' := BlockTxs(b), |s.blocks|, PushBlock(rules, now, s, b).0.d;
      var k := FirstBad(rules, s.blocks, s.d, all, 1);
      d' == Applied(s.d, all, n, k) || d' == Undone(s.d, all, n, k)
  {
    hide Applied, Undone, HeaderOk, BodyOk, Emission, SizeSum, NewEntry, FirstBad, AddIndexes;
    NoneChecked(rules, s.blocks, s.d, BlockTxs(b));
    FirstBadIsFirst(rules, s.blocks, s.d, BlockTxs(b), 1);
    if PushBlock(rules, now, s, b).1 {
      AcceptedEntry(rules, now, s.blocks, s.d, b, Judge(rules, now, s.blocks, s.d, b).entry);
    }
  }

  lemma CannotPush(rules: Rules, now: nat, s: State, b: Block)
    ensures !CanLoad(s.pool, b) || !HeaderOk(rules, now, s.blocks, b) ==> PushBlock(rules, now, s, b).0.d == s.d
  {
    hide Applied, HeaderOk, BodyOk;
    if CanLoad(s.pool, b) { NothingUndone(s.d, BlockTxs(b), |s.blocks|); }
  }

  lemma CoinbaseOfHeader(rules: Rules, now: nat, blocks: seq<BlockEntry>, b: Block)
    requires HeaderOk(rules, now, blocks, b)
    ensures CoinbaseOk(b.baseTransaction, |blocks|)
  {
  }

  lemma UnapplyIndexed(d: Derived, tx: Transaction)
    ensures Unapply(d, tx).indexed == d.indexed
  {
  }

  lemma {:induction false} UnappliedIndexed(d: Derived, all: seq<Transaction>, k: nat)
    requires k <= |all|
    ensures Unapplied(d, all, k).indexed == d.indexed
    decreases k
  {
    hide Unapply;
    if k != 0 {
      UnapplyIndexed(d, all[k - 1]);
      UnappliedIndexed(Unapply(d, all[k - 1]), all, k - 1);
    }
  }

  /** `pushBlock`, accepted or refused for whatever reason. */
  lemma PushKeepsKept(rules: Rules, now: nat, s: State, b: Block)
    requires Kept(rules, s)
    ensures Kept(rules, PushBlock(rules, now, s, b).0)
  {
    hide KeptChain, Holdings, ChainRecorded, ImagesApart, IndexesOf, Semantic, Applied, Judge, AddIndexes, NamedSet,
         BlockTxs, Undone, Lost;
    PushConserves(rules, now, s, b);
    OnceOfPart(s, PushBlock(rules, now, s, b).0, Lost(rules, now, s, b));
    PushKeepsRecords(rules, now, s, b);
    if PushBlock(rules, now, s, b).1 {
      var e := Judge(rules, now, s.blocks, s.d, b).entry;
      LoadedAreSemantic(rules, s, b);
      AcceptedEntry(rules, now, s.blocks, s.d, b, e);
      EntryIsKept(rules, now, s.blocks, s.d, e);
      ExtensionIsKept(rules, s.blocks, e);
      IndexesExtend(s.d.indexed, s.blocks, e);
      BlockIsRecorded(s.d, s.blocks, e, PushBlock(rules, now, s, b).0.d);
    }
  }

  lemma OnceOfPart(s: State, s': State, rest: multiset<Hash>)
    requires HeldOnce(s) && Holdings(s) == Holdings(s') + rest
    ensures HeldOnce(s')
  {
    hide Holdings;
    forall h ensures Holdings(s')[h] <= 1 { assert Holdings(s)[h] <= 1; }
  }

  lemma EntryIsKept(rules: Rules, now: nat, prefix: seq<BlockEntry>, d: Derived, e: BlockEntry)
    requires NamesTransactions(e.bl) && Judge(rules, now, prefix, d, e.bl) == Accepted(e)
    requires forall j | 1 <= j < |BlockTxs(e.bl)| :: Semantic(BlockTxs(e.bl)[j])
    ensures EntryKept(rules, prefix, e)
  {
    hide Judge, Semantic, BlockTxs;
  }

  lemma ExtensionIsKept(rules: Rules, blocks: seq<BlockEntry>, e: BlockEntry)
    requires KeptChain(rules, blocks) && EntryKept(rules, blocks, e)
    ensures KeptChain(rules, blocks + [e])
  {
    hide EntryKept;
    var more := blocks + [e];
    forall k | 0 <= k < |more| ensures EntryKept(rules, more[..k], more[k]) {
      assert more[..k] == if k < |blocks| then blocks[..k] else blocks;
      assert k < |blocks| ==> EntryKept(rules, blocks[..k], blocks[k]);
    }
  }

  lemma PrefixIsKept(rules: Rules, blocks: seq<BlockEntry>, n: nat)
    requires KeptChain(rules, blocks) && n <= |blocks|
    ensures KeptChain(rules, blocks[..n])
  {
    hide EntryKept;
    forall k | 0 <= k < n ensures EntryKept(rules, blocks[..n][..k], blocks[..n][k]) {
      assert blocks[..n][..k] == blocks[..k];
      assert EntryKept(rules, blocks[..k], blocks[k]);
    }
  }

  lemma BlockIsRecorded(d: Derived, blocks: seq<BlockEntry>, e: BlockEntry, d': Derived)
    requires NamesTransactions(e.bl) && AllTxs(e) == BlockTxs(e.bl) && ChainRecorded(blocks, d')
    requires d' == Applied(d, BlockTxs(e.bl), |blocks|, |BlockTxs(e.bl)|)
    ensures ChainRecorded(blocks + [e], d')
  {
    hide Applied, AllTxs, BlockTxs;
    AppliedGrows(d, BlockTxs(e.bl), |blocks|, 0, |BlockTxs(e.bl)|);
    var more := blocks + [e];
    forall k, tx | 0 <= k < |more| && tx in AllTxs(more[k]) ensures OfTransaction(tx) in d'.transactions {
      if k < |blocks| { assert more[k] == blocks[k]; }
    }
  }

  // ---------------------------------------------------------------------------------------------
  // Popping

  lemma LastKept(rules: Rules, s: State)
    requires Kept(rules, s) && s.blocks != []
    ensures var n := |s.blocks| - 1; var e := s.blocks[n];
      && EntryKept(rules, s.blocks[..n], e) && CanLoad(s.pool + NamedSet(e.bl), e.bl)
      && s.pool !! NamedSet(e.bl) && Others(e) == NamedSet(e.bl)
  {
    hide ChainRecorded, ImagesApart, IndexesOf, Semantic, EntryKept, AllTxs, BlockTxs;
    var n := |s.blocks| - 1;
    var e := s.blocks[n];
    assert EntryKept(rules, s.blocks[..n], e);
    KeptEntry(rules, s.blocks[..n], e);
    forall h ensures multiset(e.bl.transactionHashes)[h] <= 1 { assert Holdings(s)[h] <= 1; }
    OnceIsDistinct(e.bl.transactionHashes);
    forall i | 0 <= i < |e.bl.transactionHashes| ensures e.bl.transactionHashes[i].tx in s.pool + NamedSet(e.bl) {
      assert e.bl.transactionHashes[i].tx in NamedSet(e.bl);
    }
    forall tx | tx in NamedSet(e.bl) ensures tx !in s.pool {
      var i :| 0 <= i < |e.bl.transactionHashes| && e.bl.transactionHashes[i].OfTransaction?
               && e.bl.transactionHashes[i].tx == tx;
      var h := OfTransaction(tx);
      assert h in multiset(e.bl.transactionHashes) && Holdings(s)[h] <= 1;
      assert tx in s.pool ==> h in PoolHashes(s.pool);
    }
  }

  /** Popping a block moves its transactions back to the pool, each once. */
  lemma PopConserves(rules: Rules, s: State)
    requires Kept(rules, s)
    ensures Holdings(PopBlock(s)) == Holdings(s)
  {
    hide Kept, Unapplied, RemoveIndexes, PoolHashes, NamedSet, EntryKept, CanLoad;
    if s.blocks != [] {
      LastKept(rules, s);
      var n := |s.blocks| - 1;
      var e := s.blocks[n];
      TakenOnce(s.pool + NamedSet(e.bl), e.bl);
      assert s.pool + NamedSet(e.bl) - NamedSet(e.bl) == s.pool;
    }
  }

  lemma RemoveKeepsRecords(rules: Rules, s: State)
    requires Kept(rules, s) && s.blocks != []
    ensures var s' := RemoveLastBlock(s);
      && s'.blocks == s.blocks[..|s.blocks| - 1] && KeptChain(rules, s'.blocks) && ChainRecorded(s'.blocks, s'.d)
      && ImagesApart(s'.d)
      && s'.ix == IndexesOf(s'.d.indexed, s'.blocks) && s'.pool == s.pool
  {
    hide KeptChain, Holdings, ImagesApart, IndexesOf, RemoveIndexes, Semantic, Unapplied, AllTxs, EntryKept;
    var n := |s.blocks| - 1;
    var e, prefix := s.blocks[n], s.blocks[..n];
    var all := AllTxs(e);
    LastKept(rules, s);
    KeptEntry(rules, prefix, e);
    PrefixIsKept(rules, s.blocks, n);
    UnappliedKeepsApart(s.d, all, |all|);
    UnappliedIndexed(s.d, all, |all|);
    assert s.blocks == prefix + [e];
    IndexesShrink(s.d.indexed, prefix, e);
    forall k, tx | 0 <= k < n && tx in AllTxs(prefix[k])
      ensures OfTransaction(tx) in Unapplied(s.d, all, |all|).transactions
    {
      assert prefix[k] == s.blocks[k];
      LastApart(rules, s, k, tx);
      UnappliedKeeps(s.d, all, |all|, OfTransaction(tx));
    }
  }

  lemma PopKeepsKept(rules: Rules, s: State)
    requires Kept(rules, s)
    ensures Kept(rules, PopBlock(s))
  {
    hide KeptChain, Holdings, ChainRecorded, ImagesApart, IndexesOf, Semantic, RemoveLastBlock, EntryKept, CanLoad,
         NamedSet, AllTxs, BlockTxs;
    if s.blocks != [] {
      PopConserves(rules, s);
      RemoveKeepsRecords(rules, s);
      LastKept(rules, s);
      var n := |s.blocks| - 1;
      var e := s.blocks[n];
      RemovePool(s, s.pool + Others(e));
      OthersAreSemantic(rules, s.blocks[..n], e);
    }
  }

  lemma RemovedBlocks(s: State)
    requires s.blocks != []
    ensures RemoveLastBlock(s).blocks == s.blocks[..|s.blocks| - 1] && RemoveLastBlock(s).pool == s.pool
  {
    hide Unapplied, RemoveIndexes;
  }

  lemma OthersAreSemantic(rules: Rules, prefix: seq<BlockEntry>, e: BlockEntry)
    requires EntryKept(rules, prefix, e)
    ensures forall tx | tx in Others(e) :: Semantic(tx)
  {
    hide EntryKept, Semantic;
    KeptEntry(rules, prefix, e);
    forall tx | tx in NamedSet(e.bl) ensures Semantic(tx) {
      var i :| 0 <= i < |e.bl.transactionHashes| && e.bl.transactionHashes[i].OfTransaction?
               && e.bl.transactionHashes[i].tx == tx;
      assert BlockTxs(e.bl)[i + 1] == tx;
    }
  }

  /** `removeLastBlock` drops the transactions of the block. */
  lemma RemoveKeepsKept(rules: Rules, s: State)
    requires Kept(rules, s)
    ensures Kept(rules, RemoveLastBlock(s))
  {
    hide KeptChain, ChainRecorded, ImagesApart, IndexesOf, Semantic, RemoveIndexes, Unapplied, AllTxs, PoolHashes;
    if s.blocks != [] {
      RemoveKeepsRecords(rules, s);
      forall h ensures Holdings(RemoveLastBlock(s))[h] <= 1 { assert Holdings(s)[h] <= 1; }
    }
  }

  // ---------------------------------------------------------------------------------------------
  // Many blocks, and switching

  lemma {:induction false} PopToKeepsKept(rules: Rules, s: State, h: nat)
    requires Kept(rules, s)
    ensures Kept(rules, PopTo(s, h)) && Holdings(PopTo(s, h)) == Holdings(s)
    decreases |s.blocks|
  {
    hide Kept, Holdings, PopBlock;
    PopShortens(s);
    if h < |s.blocks| {
      PopConserves(rules, s);
      PopKeepsKept(rules, s);
      PopToKeepsKept(rules, PopBlock(s), h);
    }
  }

  lemma PopShortens(s: State)
    ensures s.blocks != [] ==> |PopBlock(s).blocks| < |s.blocks| && |RemoveLastBlock(s).blocks| < |s.blocks|
  {
    hide Unapplied, RemoveIndexes;
  }

  lemma {:induction false} RemoveToKeepsKept(rules: Rules, s: State, h: nat)
    requires Kept(rules, s)
    ensures Kept(rules, RemoveTo(s, h))
    decreases |s.blocks|
  {
    hide Kept, RemoveLastBlock;
    PopShortens(s);
    if h < |s.blocks| {
      RemoveKeepsKept(rules, s);
      RemoveToKeepsKept(rules, RemoveLastBlock(s), h);
    }
  }

  /** What is lost when blocks are pushed one after the other. */
  ghost function LostInTurn(rules: Rules, delays: nat -> nat, c: nat, s: State, bs: seq<Block>): multiset<Hash>
    decreases |bs|
  {
    if bs == [] then multiset{}
    else
      var (s', ok) := PushBlock(rules, s.now + delays(c), s, bs[0]);
      Lost(rules, s.now + delays(c), s, bs[0]) + if ok then LostInTurn(rules, delays, c + 1, s', bs[1..]) else multiset{}
  }

  lemma {:induction false} PushAllKeepsKept(rules: Rules, delays: nat -> nat, c: nat, s: State, bs: seq<Block>)
    requires Kept(rules, s)
    ensures Kept(rules, PushAll(rules, delays, c, s, bs).0)
    ensures Holdings(s) == Holdings(PushAll(rules, delays, c, s, bs).0) + LostInTurn(rules, delays, c, s, bs)
    ensures LostInTurn(rules, delays, c, s, bs) == multiset{} <==> !ThrownInTurn(rules, delays, c, s, bs)
    decreases |bs|
  {
    hide Kept, Holdings, PushBlock, IsThrown, Lost;
    if bs != [] {
      var now := s.now + delays(c);
      PushConserves(rules, now, s, bs[0]);
      PushKeepsKept(rules, now, s, bs[0]);
      PushAllKeepsKept(rules, delays, c + 1, PushBlock(rules, now, s, bs[0]).0, bs[1..]);
      LostOrNot(rules, now, s, bs[0]);
    }
  }

  lemma LostOrNot(rules: Rules, now: nat, s: State, b: Block)
    ensures Lost(rules, now, s, b) == multiset{} <==> !IsThrown(rules, now, s, b)
  {
    hide IsThrown;
    if IsThrown(rules, now, s, b) { ThrownNames(rules, now, s, b); }
  }

  /** Some block is left by an exception, of the alternative chain or of the chain that is to be restored. */
  ghost predicate ThrownInSwitch(
    rules: Rules, delays: nat -> nat, s: State, alt: seq<Block>, split: nat, plausible: bool) {
    Proceeds(s, alt, split, plausible) &&
      var p := PopTo(s, split);
      var (s', ok) := PushAll(rules, delays, 0, p, alt);
      || ThrownInTurn(rules, delays, 0, p, alt)
      || (!ok && ThrownInTurn(rules, delays, |alt|, PopTo(s', split), Bodies(s.blocks[split..])))
  }

  ghost function LostInSwitch(
    rules: Rules, delays: nat -> nat, s: State, alt: seq<Block>, split: nat, plausible: bool): multiset<Hash> {
    if !Proceeds(s, alt, split, plausible) then multiset{}
    else
      var p := PopTo(s, split);
      var (s', ok) := PushAll(rules, delays, 0, p, alt);
      if ok || ThrownInTurn(rules, delays, 0, p, alt) then LostInTurn(rules, delays, 0, p, alt)
      else LostInTurn(rules, delays, |alt|, PopTo(s', split), Bodies(s.blocks[split..]))
  }

  /** A switch moves transactions between the pool and the chain without duplicating any, even when its rollback fails
      and blocks are lost; it loses exactly those of a block that is left by an exception. */
  lemma SwitchConserves(rules: Rules, delays: nat -> nat, s: State, alt: seq<Block>, split: nat, plausible: bool)
    requires Kept(rules, s)
    ensures var s' := Switch(rules, delays, s, alt, split, plausible).0;
      && Kept(rules, s')
      && Holdings(s) == Holdings(s') + LostInSwitch(rules, delays, s, alt, split, plausible)
      && (Holdings(s') == Holdings(s) <==> !ThrownInSwitch(rules, delays, s, alt, split, plausible))
  {
    hide Kept, Holdings, PopTo, PushAll, Covers, LostInTurn, ThrownInTurn;
    if Proceeds(s, alt, split, plausible) {
      var p, original := PopTo(s, split), Bodies(s.blocks[split..]);
      PopToKeepsKept(rules, s, split);
      PushAllKeepsKept(rules, delays, 0, p, alt);
      var (q, ok) := PushAll(rules, delays, 0, p, alt);
      if ok { PushAllAccepts(rules, delays, 0, p, alt); }
      PopToKeepsKept(rules, q, split);
      PushAllKeepsKept(rules, delays, |alt|, PopTo(q, split), original);
    }
    NothingLost(Holdings(s), Holdings(Switch(rules, delays, s, alt, split, plausible).0),
      LostInSwitch(rules, delays, s, alt, split, plausible));
  }

  lemma NothingLost(a: multiset<Hash>, b: multiset<Hash>, lost: multiset<Hash>)
    requires a == b + lost
    ensures b == a <==> lost == multiset{}
  {
    assert |a| == |b| + |lost|;
  }

  lemma {:induction false} PushAllAccepts(rules: Rules, delays: nat -> nat, c: nat, s: State, bs: seq<Block>)
    requires PushAll(rules, delays, c, s, bs).1
    ensures !ThrownInTurn(rules, delays, c, s, bs) && !FailsInTurn(rules, delays, c, s, bs)
    decreases |bs|
  {
    hide PushBlock, IsThrown, FailsForSize;
    if bs != [] {
      var now := s.now + delays(c);
      AcceptedNotThrown(rules, now, s, bs[0]);
      PushAllAccepts(rules, delays, c + 1, PushBlock(rules, now, s, bs[0]).0, bs[1..]);
    }
  }

  /** The invariant of the clean states is stronger. */
  lemma {:induction false} GoodIsKept(rules: Rules, s: State)
    requires Good(rules, s)
    ensures Kept(rules, s)
    decreases |s.blocks|
  {
    hide Good, Kept, Below, PushBlock;
    if s.blocks == [] {
      EmptyIsKept(rules, s);
    } else {
      var n := |s.blocks| - 1;
      GoodBelow(rules, s, n);
      GoodIsKept(rules, Below(s, n));
      PushUndoesPop(rules, s, s.now);
      PushKeepsKept(rules, s.now, Below(s, n), s.blocks[n].bl);
    }
  }

  lemma EmptyIsKept(rules: Rules, s: State)
    requires Good(rules, s) && s.blocks == []
    ensures Kept(rules, s)
  {
    hide Semantic, IndexesOf;
  }
}
