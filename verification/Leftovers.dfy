/** States with leftovers of blocks that failed for their size or by an exception. Outside the checkpoint zone the code
    stays defined on them, in pushes, pops and rollbacks, as long as no input check indexes past the transactions of a
    block. */
module Leftovers {
  import opened ChainTypes
  import opened DerivedState
  import opened Rules
  import opened Ledger
  import opened Steps
  import opened Reorganisation
  import opened Switching
  import opened Definedness
  import opened Conservation

  // ---------------------------------------------------------------------------------------------
  // Recorded transactions own what they spend

  ghost predicate AllSpent(d: Derived, tx: Transaction) {
    forall i | 0 <= i < |tx.inputs| :: IsSpent(d, tx.inputs[i])
  }

  /** The blocks that are left alone, the transactions they record, and the multisignature outputs they spend. */
  datatype Base = Base(root: seq<BlockEntry>, hashes: set<Hash>, spent: set<(nat, nat)>)

  /** The transactions that are recorded, other than those of the base, have their inputs marked as spent, no two of
      them spend the same multisignature output, and none spends one that the base spends. */
  ghost predicate Owns(d: Derived, base: Base) {
    && (forall h | h in d.transactions && h !in base.hashes ::
          h.OfTransaction? && AllSpent(d, h.tx) && MultisigRefs(h.tx.inputs) !! base.spent)
    && (forall h, h' | h in d.transactions && h !in base.hashes && h' in d.transactions && h' !in base.hashes && h != h' ::
          h.OfTransaction? && h'.OfTransaction? && MultisigRefs(h.tx.inputs) !! MultisigRefs(h'.tx.inputs))
    && (forall ref | ref in base.spent :: InRange(d.multisigs, ref) && d.multisigs[ref.0][ref.1].isUsed)
  }

  lemma SpentRefs(d: Derived, tx: Transaction, ref: (nat, nat))
    requires AllSpent(d, tx) && ref in MultisigRefs(tx.inputs)
    ensures InRange(d.multisigs, ref) && !Unused(d.multisigs, ref)
  {
    var i :| 0 <= i < |tx.inputs| && tx.inputs[i].MultisigInput?
             && ref == (tx.inputs[i].amount, tx.inputs[i].outputIndex);
    assert IsSpent(d, tx.inputs[i]);
  }

  lemma FreeRefs(d: Derived, tx: Transaction, ref: (nat, nat))
    requires (forall i | 0 <= i < |tx.inputs| :: CanSpend(d, tx.inputs[i])) && ref in MultisigRefs(tx.inputs)
    ensures Unused(d.multisigs, ref)
  {
    var i :| 0 <= i < |tx.inputs| && tx.inputs[i].MultisigInput?
             && ref == (tx.inputs[i].amount, tx.inputs[i].outputIndex);
    assert CanSpend(d, tx.inputs[i]);
  }

  lemma RecordOwns(d: Derived, base: Base, tx: Transaction, at: TransactionIndex)
    requires Owns(d, base) && forall i | 0 <= i < |tx.inputs| :: CanSpend(d, tx.inputs[i])
    ensures Owns(Record(d, tx, at), base)
  {
    hide Apply, MultisigRefs, IsSpent;
    if OfTransaction(tx) !in d.transactions {
      var d' := Apply(d, tx, at);
      ApplyRecords(d, tx, at);
      forall ref | ref in base.spent ensures InRange(d'.multisigs, ref) && d'.multisigs[ref.0][ref.1].isUsed {
        RecordKeepsUsed(d, tx, at, ref);
      }
      forall ref | ref in MultisigRefs(tx.inputs) ensures ref !in base.spent {
        FreeRefs(d, tx, ref);
      }
      forall h | h in d'.transactions && h !in base.hashes
        ensures h.OfTransaction? && AllSpent(d', h.tx) && MultisigRefs(h.tx.inputs) !! base.spent
      {
        forall i | 0 <= i < |h.tx.inputs| ensures IsSpent(d', h.tx.inputs[i]) {
          if h == OfTransaction(tx) {
            assert CanSpend(d, tx.inputs[i]);
            ApplySpendsInputs(d, tx, at, i);
          } else {
            assert AllSpent(d, h.tx);
            SpentStaysSpent(d, tx, at, h.tx.inputs[i]);
          }
        }
      }
      forall h | h in d.transactions && h !in base.hashes
        ensures h.OfTransaction? && MultisigRefs(h.tx.inputs) !! MultisigRefs(tx.inputs)
      {
        forall ref | ref in MultisigRefs(h.tx.inputs) ensures ref !in MultisigRefs(tx.inputs) {
          SpentRefs(d, h.tx, ref);
          if ref in MultisigRefs(tx.inputs) { FreeRefs(d, tx, ref); }
        }
      }
    }
  }

  /** A used output is never dropped. */
  lemma {:induction false} RemoveKeepsUsed(
    m: map<nat, seq<MultisigUsage>>, outs: seq<Output>, at: TransactionIndex, k: nat, ref: (nat, nat))
    requires k <= |outs| && InRange(m, ref) && m[ref.0][ref.1].isUsed
    ensures var m' := RemoveMultisigOutputs(m, outs, at, k); InRange(m', ref) && m'[ref.0][ref.1].isUsed
    decreases k
  {
    if k != 0 { RemoveKeepsUsed(RemoveMultisigOutput(m, outs[k - 1], at, k - 1), outs, at, k - 1, ref); }
  }

  lemma UnapplyKeepsUsed(d: Derived, tx: Transaction, ref: (nat, nat))
    requires InRange(d.multisigs, ref) && d.multisigs[ref.0][ref.1].isUsed && ref !in MultisigRefs(tx.inputs)
    ensures var m := Unapply(d, tx).multisigs; InRange(m, ref) && m[ref.0][ref.1].isUsed
  {
    hide KeyImages, MultisigRefs, RemoveKeyOutputs, RemoveMultisigOutputs, Mark;
    if OfTransaction(tx) in d.transactions {
      var at := d.transactions[OfTransaction(tx)];
      RemoveKeepsUsed(d.multisigs, tx.outputs, at, |tx.outputs|, ref);
      MarkedAt(RemoveMultisigOutputs(d.multisigs, tx.outputs, at, |tx.outputs|), MultisigRefs(tx.inputs), false, ref.0,
        ref.1);
    }
  }

  lemma UnapplyKeepsSpent(d: Derived, tx: Transaction, input: Input)
    requires IsSpent(d, input) && (input.KeyInput? ==> input.keyImage !in KeyImages(tx.inputs))
    requires input.MultisigInput? ==> (input.amount as nat, input.outputIndex) !in MultisigRefs(tx.inputs)
    ensures IsSpent(Unapply(d, tx), input)
  {
    hide KeyImages, MultisigRefs, RemoveKeyOutputs, RemoveMultisigOutputs, Mark;
    if OfTransaction(tx) in d.transactions && input.MultisigInput? {
      var ref := (input.amount as nat, input.outputIndex);
      var at := d.transactions[OfTransaction(tx)];
      RemoveKeepsUsed(d.multisigs, tx.outputs, at, |tx.outputs|, ref);
      MarkedAt(RemoveMultisigOutputs(d.multisigs, tx.outputs, at, |tx.outputs|), MultisigRefs(tx.inputs), false, ref.0,
        ref.1);
    }
  }

  /** Popping such a transaction is defined, and the others keep what they own. */
  lemma UnapplyOwns(d: Derived, base: Base, tx: Transaction)
    requires Owns(d, base) && ImagesApart(d) && OfTransaction(tx) in d.transactions && OfTransaction(tx) !in base.hashes
    ensures CanPop(d, tx) && Owns(Unapply(d, tx), base)
  {
    hide KeyImages, MultisigRefs, RemoveKeyOutputs, RemoveMultisigOutputs, Mark, IsSpent, Unapply;
    var t, at, d' := OfTransaction(tx), d.transactions[OfTransaction(tx)], Unapply(d, tx);
    forall ref | ref in MultisigRefs(tx.inputs)
      ensures InRange(RemoveMultisigOutputs(d.multisigs, tx.outputs, at, |tx.outputs|), ref)
    {
      SpentRefs(d, tx, ref);
      RemoveKeepsUsed(d.multisigs, tx.outputs, at, |tx.outputs|, ref);
    }
    forall h | h in d'.transactions ensures h in d.transactions && h != t {
      UnapplyForgets(d, tx);
      if h != t { UnapplyKeeps(d, tx, h); }
    }
    forall ref | ref in base.spent ensures InRange(d'.multisigs, ref) && d'.multisigs[ref.0][ref.1].isUsed {
      UnapplyKeepsUsed(d, tx, ref);
    }
    forall h | h in d'.transactions && h !in base.hashes ensures h.OfTransaction? && AllSpent(d', h.tx) {
      forall i | 0 <= i < |h.tx.inputs| ensures IsSpent(d', h.tx.inputs[i]) {
        SpendOf(h.tx.inputs, i);
        UnapplyKeepsSpent(d, tx, h.tx.inputs[i]);
      }
    }
  }

  lemma SpendOf(inputs: seq<Input>, i: nat)
    requires i < |inputs|
    ensures inputs[i].KeyInput? ==> inputs[i].keyImage in KeyImages(inputs)
    ensures inputs[i].MultisigInput? ==> (inputs[i].amount as nat, inputs[i].outputIndex) in MultisigRefs(inputs)
  {
  }

  lemma UnapplyForgets(d: Derived, tx: Transaction)
    ensures OfTransaction(tx) !in Unapply(d, tx).transactions
  {
  }

  // ---------------------------------------------------------------------------------------------
  // The transactions of a block

  lemma CheckedSpends(rules: Rules, blocks: seq<BlockEntry>, d: Derived, tx: Transaction)
    requires InputsOk(rules, blocks, d, tx) && !rules.inZone(|blocks|)
    ensures forall i | 0 <= i < |tx.inputs| :: CanSpend(d, tx.inputs[i])
  {
    forall i | 0 <= i < |tx.inputs| ensures CanSpend(d, tx.inputs[i]) { assert InputOk(rules, blocks, d, tx, i); }
  }

  lemma {:induction false} AppliedOwns(
    rules: Rules, blocks: seq<BlockEntry>, d: Derived, base: Base, all: seq<Transaction>, k: nat)
    requires k <= |all| && Owns(d, base) && BodyOk(rules, blocks, d, all, k) && !rules.inZone(|blocks|)
    requires k > 0 ==> CoinbaseOk(all[0], |blocks|)
    ensures Owns(Applied(d, all, |blocks|, k), base)
  {
    hide Record, Owns, InputsOk;
    if k != 0 {
      AppliedOwns(rules, blocks, d, base, all, k - 1);
      var before := Applied(d, all, |blocks|, k - 1);
      if k > 1 { CheckedSpends(rules, blocks, before, all[k - 1]); }
      RecordOwns(before, base, all[k - 1], TransactionIndex(|blocks|, k - 1));
    }
  }

  lemma {:induction false} UnappliedOwns(d: Derived, base: Base, all: seq<Transaction>, k: nat)
    requires k <= |all| && Owns(d, base) && ImagesApart(d)
    requires forall i | 0 <= i < k :: OfTransaction(all[i]) in d.transactions && OfTransaction(all[i]) !in base.hashes
    requires forall i, j | 0 <= i < j < k :: all[i] != all[j]
    ensures CanPopAll(d, all, k) && Owns(Unapplied(d, all, k), base)
    decreases k
  {
    hide Unapply, Owns, CanPop, ImagesApart;
    if k != 0 {
      var d' := Unapply(d, all[k - 1]);
      UnapplyOwns(d, base, all[k - 1]);
      UnapplyKeepsApart(d, all[k - 1]);
      forall i | 0 <= i < k - 1 ensures OfTransaction(all[i]) in d'.transactions {
        UnapplyKeeps(d, all[k - 1], OfTransaction(all[i]));
      }
      UnappliedOwns(d', base, all, k - 1);
    }
  }

  // ---------------------------------------------------------------------------------------------
  // States

  /** A reachable state on top of a base of `low` blocks: its other blocks, and its leftovers, are not of the base. */
  ghost predicate Lingering(rules: Rules, base: Base, low: nat, s: State) {
    && Kept(rules, s) && low <= |s.blocks| && |base.root| == low && base.root <= s.blocks && Owns(s.d, base)
    && base.hashes <= s.d.transactions.Keys && (forall h | h in base.hashes :: HeightBelow(h, low))
    && (forall tx | tx in s.pool :: OfTransaction(tx) !in base.hashes)
    && (forall k, tx | low <= k < |s.blocks| && tx in AllTxs(s.blocks[k]) :: OfTransaction(tx) !in base.hashes)
    && (forall k | 0 <= k < |s.blocks| :: NamesTransactions(s.blocks[k].bl) && Countable(s.blocks[k].bl))
  }

  /** The transactions of a block that is looked at are not in the base, and pairwise different. */
  lemma BlockLingers(rules: Rules, now: nat, base: Base, low: nat, s: State, b: Block)
    requires Lingering(rules, base, low, s) && CanLoad(s.pool, b) && HeaderOk(rules, now, s.blocks, b)
    ensures forall i | 0 <= i < |BlockTxs(b)| :: OfTransaction(BlockTxs(b)[i]) !in base.hashes
    ensures forall i, j | 0 <= i < j < |BlockTxs(b)| :: BlockTxs(b)[i] != BlockTxs(b)[j]
    ensures forall j | 1 <= j < |BlockTxs(b)| :: Semantic(BlockTxs(b)[j])
    ensures CoinbaseOk(b.baseTransaction, |s.blocks|)
  {
    hide Kept, Owns, AllTxs, Semantic;
    LoadedAreSemantic(rules, s, b);
    BlockIsDistinct(s.pool, b, |s.blocks|);
    var all := BlockTxs(b);
    forall i | 0 <= i < |all| ensures OfTransaction(all[i]) !in base.hashes {
      if i == 0 {
        assert all[0].inputs[0] == BaseInput(|s.blocks|);
        assert HeightBelow(OfTransaction(all[0]), low) ==> |s.blocks| < low;
      } else {
        assert b.transactionHashes[i - 1].tx in s.pool;
      }
    }
  }

  /** Outside the checkpoint zone `pushBlock` leads from such a state to one, and is defined on it if and only if its
      input checks do not index past the transactions of a block. */
  lemma PushLingers(rules: Rules, now: nat, base: Base, low: nat, s: State, b: Block)
    requires Lingering(rules, base, low, s) && !rules.inZone(|s.blocks|) && (NamesTransactions(b) ==> Countable(b))
    ensures Handled(rules, now, s, b) <==> Inside(rules, now, s, b)
    ensures Lingering(rules, base, low, PushBlock(rules, now, s, b).0)
  {
    hide Kept, Owns, AllTxs, Semantic, Applied, Unapplied, HeaderOk, BodyOk, FirstBad, Countable, CanPopAll,
         UndoDefined, PushBlock, Undone, ChecksInside;
    PushKeepsKept(rules, now, s, b);
    KeptIds(rules, s);
    CannotPush(rules, now, s, b);
    PushPool(rules, now, s, b);
    if CanLoad(s.pool, b) {
      LoadedAreSemantic(rules, s, b);
      if HeaderOk(rules, now, s.blocks, b) {
        BlockLingers(rules, now, base, low, s, b);
        BlockOwns(rules, now, base, s, b);
      }
    }
  }

  lemma BlockOwns(rules: Rules, now: nat, base: Base, s: State, b: Block)
    requires Kept(rules, s) && Owns(s.d, base) && !rules.inZone(|s.blocks|) && CanLoad(s.pool, b)
             && HeaderOk(rules, now, s.blocks, b)
    requires CoinbaseOk(b.baseTransaction, |s.blocks|)
    requires forall i | 0 <= i < |BlockTxs(b)| :: OfTransaction(BlockTxs(b)[i]) !in base.hashes
    requires forall i, j | 0 <= i < j < |BlockTxs(b)| :: BlockTxs(b)[i] != BlockTxs(b)[j]
    ensures UndoDefined(rules, now, s, b) && Owns(PushBlock(rules, now, s, b).0.d, base)
    ensures forall h | h in base.hashes && h in s.d.transactions :: h in PushBlock(rules, now, s, b).0.d.transactions
  {
    hide Kept, Owns, Semantic, Applied, Unapplied, HeaderOk, BodyOk, FirstBad, CanPopAll, PushBlock, CanLoad,
         Emission, SizeSum, NewEntry, ImagesApart, CoinbaseOk, BlockTxs;
    LoadNames(s.pool, b);
    var all, n := BlockTxs(b), |s.blocks|;
    KeptParts(rules, s);
    NoneChecked(rules, s.blocks, s.d, all);
    FirstBadIsFirst(rules, s.blocks, s.d, all, 1);
    var k := FirstBad(rules, s.blocks, s.d, all, 1);
    AppliedOwns(rules, s.blocks, s.d, base, all, k);
    AppliedKeepsApart(rules, s.blocks, s.d, all, k);
    AppliedGrows(s.d, all, n, 0, k);
    UnappliedOwns(Applied(s.d, all, n, k), base, all, k);
    RecordedOrUndone(rules, now, s, b);
    forall h | h in base.hashes && h in s.d.transactions
      ensures h in Applied(s.d, all, n, k).transactions && h in Undone(s.d, all, n, k).transactions
    {
      AppliedKeeps(s.d, all, n, k, h);
      UnappliedKeeps(Applied(s.d, all, n, k), all, k, h);
    }
  }

  lemma KeptIds(rules: Rules, s: State)
    requires Kept(rules, s)
    ensures s.ix.ids == Ids(s.blocks)
  {
    hide KeptChain, HeldOnce, ChainRecorded, ImagesApart, Semantic;
  }

  lemma PushPool(rules: Rules, now: nat, s: State, b: Block)
    ensures var (s', ok) := PushBlock(rules, now, s, b);
      && s'.pool <= s.pool
      && if ok then
           && CanLoad(s.pool, b) && HeaderOk(rules, now, s.blocks, b)
           && |s'.blocks| == |s.blocks| + 1 && s'.blocks[..|s.blocks|] == s.blocks && s'.blocks[|s.blocks|].bl == b
           && AllTxs(s'.blocks[|s.blocks|]) == BlockTxs(b)
         else s'.blocks == s.blocks
  {
    hide Applied, HeaderOk, BodyOk, Judge, AddIndexes, Undone, NamedSet, AllTxs;
    if PushBlock(rules, now, s, b).1 {
      AcceptedEntry(rules, now, s.blocks, s.d, b, Judge(rules, now, s.blocks, s.d, b).entry);
    }
  }

  /** So is popping a block that is not below `low`. */
  lemma PopLingers(rules: Rules, base: Base, low: nat, s: State)
    requires Lingering(rules, base, low, s) && low < |s.blocks|
    ensures Poppable(s) && Lingering(rules, base, low, PopBlock(s))
  {
    hide Kept, Owns, AllTxs, Semantic, Unapplied, CanPopAll, ImagesApart, RemoveIndexes, EntryKept, CanLoad, BlockTxs,
         Countable;
    PopKeepsKept(rules, s);
    KeptIds(rules, s);
    KeptParts(rules, s);
    LastKept(rules, s);
    var n := |s.blocks| - 1;
    var e := s.blocks[n];
    KeptEntry(rules, s.blocks[..n], e);
    var all := BlockTxs(e.bl);
    BlockIsDistinct(s.pool + NamedSet(e.bl), e.bl, n);
    forall i | 0 <= i < |all| ensures OfTransaction(all[i]) in s.d.transactions
      && OfTransaction(all[i]) !in base.hashes {
      assert all[i] in AllTxs(e);
    }
    UnappliedOwns(s.d, base, all, |all|);
    forall h | h in base.hashes ensures h in Unapplied(s.d, all, |all|).transactions {
      UnappliedKeeps(s.d, all, |all|, h);
    }
    forall tx | tx in Others(e) ensures OfTransaction(tx) !in base.hashes {
      OthersAreListed(e, tx);
    }
  }

  /** And removing it without returning its transactions to the pool. */
  lemma RemoveLingers(rules: Rules, base: Base, low: nat, s: State)
    requires Lingering(rules, base, low, s) && low < |s.blocks|
    ensures Poppable(s) && Lingering(rules, base, low, RemoveLastBlock(s))
  {
    hide Kept, Owns, AllTxs, Poppable, RemoveLastBlock, Countable;
    PopLingers(rules, base, low, s);
    RemoveKeepsKept(rules, s);
    var e := s.blocks[|s.blocks| - 1];
    RemovePool(s, s.pool + Others(e));
    RemovedBlocks(s);
  }

  lemma {:induction false} RemoveToLingers(rules: Rules, base: Base, low: nat, s: State, h: nat)
    requires Lingering(rules, base, low, s) && low <= h
    ensures RemovableTo(s, h) && Lingering(rules, base, low, RemoveTo(s, h))
    decreases |s.blocks|
  {
    hide Lingering, Poppable, RemoveLastBlock;
    if h < |s.blocks| {
      RemoveLingers(rules, base, low, s);
      PopShortens(s);
      RemoveToLingers(rules, base, low, RemoveLastBlock(s), h);
    }
  }

  lemma OthersAreListed(e: BlockEntry, tx: Transaction)
    requires tx in Others(e)
    ensures tx in AllTxs(e)
  {
    var i :| 1 <= i < |e.transactions| && e.transactions[i].tx == tx;
    assert AllTxs(e)[i] == tx;
  }

  lemma {:induction false} PopToLingers(rules: Rules, base: Base, low: nat, s: State, h: nat)
    requires Lingering(rules, base, low, s) && low <= h
    ensures PoppableTo(s, h) && Lingering(rules, base, low, PopTo(s, h))
    decreases |s.blocks|
  {
    hide Lingering, Poppable, PopBlock;
    if h < |s.blocks| {
      PopLingers(rules, base, low, s);
      PopShortens(s);
      PopToLingers(rules, base, low, PopBlock(s), h);
    }
  }

  lemma {:induction false} PushAllLingers(
    rules: Rules, delays: nat -> nat, c: nat, base: Base, low: nat, s: State, bs: seq<Block>)
    requires Lingering(rules, base, low, s) && AllCountable(bs) && forall k | low <= k :: !rules.inZone(k)
    ensures HandledInTurn(rules, delays, c, s, bs) <==> InsideInTurn(rules, delays, c, s, bs)
    ensures Lingering(rules, base, low, PushAll(rules, delays, c, s, bs).0)
    decreases |bs|
  {
    hide Kept, Owns, AllTxs, Handled, Inside, PushBlock, Countable;
    if bs != [] {
      var now := s.now + delays(c);
      PushLingers(rules, now, base, low, s, bs[0]);
      if PushBlock(rules, now, s, bs[0]).1 {
        PushAllLingers(rules, delays, c + 1, base, low, PushBlock(rules, now, s, bs[0]).0, bs[1..]);
      }
    }
  }

  function UsedRefs(m: map<nat, seq<MultisigUsage>>): set<(nat, nat)> {
    set a, i | a in m && 0 <= i < |m[a]| && m[a][i].isUsed :: (a, i)
  }

  ghost function BaseOf(s: State): Base {
    Base(s.blocks, s.d.transactions.Keys, UsedRefs(s.d.multisigs))
  }

  /** A good state whose blocks from `low` on are outside the zone. */
  lemma {:induction false} GoodLingers(rules: Rules, s: State, low: nat)
    requires Good(rules, s) && low <= |s.blocks| && forall k | low <= k :: !rules.inZone(k)
    ensures Lingering(rules, BaseOf(Below(s, low)), low, s)
    decreases |s.blocks|
  {
    hide Good, Lingering, Below, PushBlock, BaseOf;
    if low == |s.blocks| {
      BelowTop(rules, s);
      BaseLingers(rules, s);
    } else {
      var n := |s.blocks| - 1;
      GoodBelow(rules, s, n);
      BelowBelow(s, n, low);
      GoodLingers(rules, Below(s, n), low);
      PushUndoesPop(rules, s, s.now);
      GoodCountable(rules, s, n);
      PushLingers(rules, s.now, BaseOf(Below(s, low)), low, Below(s, n), s.blocks[n].bl);
    }
  }

  lemma GoodCountable(rules: Rules, s: State, k: nat)
    requires Good(rules, s) && k < |s.blocks|
    ensures NamesTransactions(s.blocks[k].bl) && Countable(s.blocks[k].bl)
  {
    hide Rebuild, IndexesOf, Judge, Semantic, NewTransactions, ReferencesExist, Countable;
    assert EntryOk(rules, s.now, s.d.indexed, s.blocks[..k], s.blocks[k]);
  }

  lemma BaseLingers(rules: Rules, s: State)
    requires Good(rules, s)
    ensures Lingering(rules, BaseOf(s), |s.blocks|, s)
  {
    hide Kept, Rebuild, IndexesOf, ChainOk, Semantic, WellFormed, AllTxs, Countable;
    GoodIsKept(rules, s);
    GoodIsSteady(rules, s);
    forall k | 0 <= k < |s.blocks| ensures NamesTransactions(s.blocks[k].bl) && Countable(s.blocks[k].bl) {
      GoodCountable(rules, s, k);
    }
  }

  // ---------------------------------------------------------------------------------------------
  // Switches

  lemma OriginalCountable(rules: Rules, s: State, split: nat)
    requires Good(rules, s) && split <= |s.blocks|
    ensures AllCountable(Bodies(s.blocks[split..]))
  {
    hide Good, Countable;
    var bs := Bodies(s.blocks[split..]);
    forall k | 0 <= k < |bs| ensures NamesTransactions(bs[k]) ==> Countable(bs[k]) {
      assert bs[k] == s.blocks[split + k].bl;
      GoodCountable(rules, s, split + k);
    }
  }

  /** Outside the checkpoint zone a switch leads to a state of this kind, whatever fails, and is defined, with its
      rollback, if and only if the input checks on the way do not index past the transactions of a block. */
  lemma SwitchLingers(
    rules: Rules, delays: nat -> nat, base: Base, low: nat, s: State, alt: seq<Block>, split: nat, plausible: bool)
    requires Lingering(rules, base, low, s) && low <= split && AllCountable(alt)
             && forall k | low <= k :: !rules.inZone(k)
    ensures SwitchHandled(rules, delays, s, alt, split, plausible)
            <==> SwitchInside(rules, delays, s, alt, split, plausible)
    ensures Lingering(rules, base, low, Switch(rules, delays, s, alt, split, plausible).0)
  {
    hide Lingering, PopTo, PushAll, Covers, Bodies, PoppableTo, HandledInTurn, InsideInTurn, ThrownInTurn,
         AllCountable;
    if Proceeds(s, alt, split, plausible) {
      var p := PopTo(s, split);
      PopToLingers(rules, base, low, s, split);
      PushAllLingers(rules, delays, 0, base, low, p, alt);
      var s' := PushAll(rules, delays, 0, p, alt).0;
      PopToBlocks(s, split);
      PushAllLonger(rules, delays, 0, p, alt);
      PopToLingers(rules, base, low, s', split);
      BodiesCountable(rules, base, low, s, split);
      PushAllLingers(rules, delays, |alt|, base, low, PopTo(s', split), Bodies(s.blocks[split..]));
    }
  }

  lemma {:induction false} PushAllLonger(rules: Rules, delays: nat -> nat, c: nat, s: State, bs: seq<Block>)
    ensures |s.blocks| <= |PushAll(rules, delays, c, s, bs).0.blocks|
    decreases |bs|
  {
    hide PushBlock, CanLoad, HeaderOk, AllTxs;
    if bs != [] {
      PushPool(rules, s.now + delays(c), s, bs[0]);
      PushAllLonger(rules, delays, c + 1, PushBlock(rules, s.now + delays(c), s, bs[0]).0, bs[1..]);
    }
  }

  lemma BodiesCountable(rules: Rules, base: Base, low: nat, s: State, split: nat)
    requires Lingering(rules, base, low, s) && split <= |s.blocks|
    ensures AllCountable(Bodies(s.blocks[split..]))
  {
    hide Kept, Owns, AllTxs, Countable;
    var bs := Bodies(s.blocks[split..]);
    forall k | 0 <= k < |bs| ensures NamesTransactions(bs[k]) ==> Countable(bs[k]) {
      assert bs[k] == s.blocks[split + k].bl;
    }
  }

  /** So a switch from a good state is defined outside the zone, unless an alternative block fails for its size and the
      input checks of the rollback then index past the transactions of a block. */
  lemma SwitchHandledOutside(rules: Rules, delays: nat -> nat, s: State, alt: seq<Block>, split: nat)
    requires Good(rules, s) && Proceeds(s, alt, split, true) && AllCountable(alt)
             && forall k | split <= k :: !rules.inZone(k)
    ensures SwitchHandled(rules, delays, s, alt, split, true) <==>
      var s' := PushAll(rules, delays, 0, Below(s, split), alt).0;
      (FailsInTurn(rules, delays, 0, Below(s, split), alt) ==>
         InsideInTurn(rules, delays, |alt|, PopTo(s', split), Bodies(s.blocks[split..])))
  {
    hide Good, Steady, Lingering, PopTo, PushAll, Covers, Below, Bodies, PoppableTo, HandledInTurn, InsideInTurn,
         ThrownInTurn, FailsInTurn, DefinedInTurn, AllCountable, Switch, AllOrNothing;
    var p := Below(s, split);
    SwitchOutsideZone(rules, delays, s, alt, split);
    GoodLingers(rules, s, split);
    SwitchLingers(rules, delays, BaseOf(p), split, s, alt, split, true);
    if FailsInTurn(rules, delays, 0, p, alt) {
      PoppedIsSteady(rules, s, split);
      var h, all := LeftBehind(rules, delays, 0, p, alt);
      SteadyInsideInTurn(rules, delays, 0, p, alt);
    } else {
      SwitchIsHandled(rules, delays, s, alt, split, true);
    }
  }

  lemma {:induction false} SteadyInsideInTurn(rules: Rules, delays: nat -> nat, c: nat, s: State, bs: seq<Block>)
    requires Steady(s) && DefinedInTurn(rules, delays, c, s, bs)
    ensures InsideInTurn(rules, delays, c, s, bs)
    decreases |bs|
  {
    hide Steady, PushBlock, Defined, ChecksInside;
    if bs != [] {
      var now := s.now + delays(c);
      if CanLoad(s.pool, bs[0]) { SteadyInside(rules, s, BlockTxs(bs[0])); }
      if PushBlock(rules, now, s, bs[0]).1 {
        AcceptedIsSteady(rules, now, s, bs[0], {});
        SteadyInsideInTurn(rules, delays, c + 1, PushBlock(rules, now, s, bs[0]).0, bs[1..]);
      }
    }
  }

  lemma LingersAbove(rules: Rules, base: Base, low: nat, s: State)
    requires Lingering(rules, base, low, s)
    ensures low <= |s.blocks|
  {
    hide Kept, Owns, AllTxs;
  }

  // After a failure for size the rollback cannot lead to a good state, even by losing blocks.

  lemma {:induction false} SpentStaysApplied(d: Derived, all: seq<Transaction>, n: nat, k: nat, input: Input)
    requires k <= |all| && IsSpent(d, input)
    ensures IsSpent(Applied(d, all, n, k), input)
  {
    hide Apply, IsSpent;
    if k != 0 {
      SpentStaysApplied(d, all, n, k - 1, input);
      SpentStaysSpent(Applied(d, all, n, k - 1), all[k - 1], TransactionIndex(n, k - 1), input);
    }
  }

  /** A leftover transaction is not recorded again. */
  lemma LeftoverNotTaken(
    rules: Rules, blocks: seq<BlockEntry>, d: Derived, all: seq<Transaction>, k: nat, tx: Transaction)
    requires k <= |all| && BodyOk(rules, blocks, d, all, k) && !rules.inZone(|blocks|)
    requires k > 0 ==> CoinbaseOk(all[0], |blocks|)
    requires Semantic(tx) && AllSpent(d, tx)
    ensures forall i | 0 <= i < k :: all[i] != tx
  {
    hide Applied, InputsOk;
    forall i | 0 <= i < k ensures all[i] != tx {
      if i == 0 {
        NoBase(tx);
      } else if all[i] == tx {
        var di := Applied(d, all, |blocks|, i);
        assert InputsOk(rules, blocks, di, tx);
        CheckedSpends(rules, blocks, di, tx);
        assert CanSpend(di, tx.inputs[0]) && IsSpent(d, tx.inputs[0]) && !tx.inputs[0].BaseInput?;
        SpentStaysApplied(d, all, |blocks|, i, tx.inputs[0]);
      }
    }
  }

  lemma RefusedNotGood(
    rules: Rules, now: nat, base: Base, d: Derived, low: nat, s: State, b: Block, h: nat, all: seq<Transaction>)
    requires Lingering(rules, base, low, s) && base.hashes == d.transactions.Keys && Left(rules, d, s.d, h, all)
             && !rules.inZone(|s.blocks|)
    requires !PushBlock(rules, now, s, b).1
    requires NamesTransactions(b) ==> SizeSum(BlockTxs(b), |BlockTxs(b)|) <= rules.maxSize(|s.blocks|)
    ensures !Good(rules, PushBlock(rules, now, s, b).0)
  {
    hide Good, Kept, Owns, AllTxs, Semantic, Applied, Unapplied, HeaderOk, BodyOk, FirstBad, PushBlock, SizeSum,
         HeightBelow, Undone, IsThrown, HeightsBelow;
    var s' := PushBlock(rules, now, s, b).0;
    CannotPush(rules, now, s, b);
    PushPool(rules, now, s, b);
    if IsThrown(rules, now, s, b) {
      ThrownIsHigh(rules, now, s, b);
      if Good(rules, s') { GoodIsSteady(rules, s'); }
    } else if CanLoad(s.pool, b) && HeaderOk(rules, now, s.blocks, b) {
      RefusedIsUndone(rules, now, s, b);
      if Good(rules, s') {
        UndoneKeepsLeft(rules, now, base, d, low, s, b, h, all);
        GoodHasNothingLeft(rules, s', d, h, all);
      }
    } else {
      if Good(rules, s') { GoodHasNothingLeft(rules, s', d, h, all); }
    }
  }

  lemma ThrownIsHigh(rules: Rules, now: nat, s: State, b: Block)
    requires IsThrown(rules, now, s, b)
    ensures !HeightsBelow(PushBlock(rules, now, s, b).0.d, |s.blocks|)
  {
    hide Applied, HeaderOk, BodyOk, FirstBad, InputsThrow, Judge, FailsForSize, HeightsBelow;
    VerdictOf(rules, now, s, b);
    ThrownKeepsFirst(rules, now, s, b);
    ThrownHigh(rules, now, s, b);
  }

  lemma ThrownKeepsFirst(rules: Rules, now: nat, s: State, b: Block)
    requires CanLoad(s.pool, b) && Judge(rules, now, s.blocks, s.d, b).Thrown?
    ensures OfTransaction(b.baseTransaction) in PushBlock(rules, now, s, b).0.d.transactions
  {
    hide Applied, HeaderOk, BodyOk, FirstBad, InputsThrow, Emission, SizeSum, NewEntry;
    var all, n := BlockTxs(b), |s.blocks|;
    var k := FirstBad(rules, s.blocks, s.d, all, 1);
    AppliedGrows(s.d, all, n, 0, k);
  }

  lemma RefusedIsUndone(rules: Rules, now: nat, s: State, b: Block)
    requires CanLoad(s.pool, b) && HeaderOk(rules, now, s.blocks, b) && !PushBlock(rules, now, s, b).1
             && !IsThrown(rules, now, s, b)
    requires SizeSum(BlockTxs(b), |BlockTxs(b)|) <= rules.maxSize(|s.blocks|)
    ensures var k := FirstBad(rules, s.blocks, s.d, BlockTxs(b), 1);
      PushBlock(rules, now, s, b).0.d == Undone(s.d, BlockTxs(b), |s.blocks|, k)
  {
    hide Applied, Undone, HeaderOk, BodyOk, Emission, SizeSum, NewEntry, FirstBad, BadThrows;
    NoneChecked(rules, s.blocks, s.d, BlockTxs(b));
    FirstBadIsFirst(rules, s.blocks, s.d, BlockTxs(b), 1);
  }

  lemma LeftoverStays(
    rules: Rules, now: nat, base: Base, d: Derived, low: nat, s: State, b: Block, h: nat, all: seq<Transaction>, j: nat)
    requires Lingering(rules, base, low, s) && base.hashes == d.transactions.Keys && Left(rules, d, s.d, h, all)
             && !rules.inZone(|s.blocks|)
    requires CanLoad(s.pool, b) && HeaderOk(rules, now, s.blocks, b) && j < |all|
    requires j > 0 || all[0] != b.baseTransaction
    ensures var k := FirstBad(rules, s.blocks, s.d, BlockTxs(b), 1);
      LeftAt(d, Undone(s.d, BlockTxs(b), |s.blocks|, k), h, all, j)
  {
    hide Kept, AllTxs, Semantic, Applied, Unapplied, HeaderOk, BodyOk, FirstBad, SizeSum, HeightBelow, AllSpent,
         BlockTxs, CanLoad;
    LoadNames(s.pool, b);
    var txs, n := BlockTxs(b), |s.blocks|;
    BlockLingers(rules, now, base, low, s, b);
    NoneChecked(rules, s.blocks, s.d, txs);
    FirstBadIsFirst(rules, s.blocks, s.d, txs, 1);
    var k := FirstBad(rules, s.blocks, s.d, txs, 1);
    var t := OfTransaction(all[j]);
    assert LeftAt(d, s.d, h, all, j);
    if j > 0 {
      LeftoverNotTaken(rules, s.blocks, s.d, txs, k, all[j]);
    } else {
      forall i | 0 <= i < k ensures txs[i] != all[0] {
        if i > 0 { NoBase(txs[i]); }
      }
    }
    AppliedKeeps(s.d, txs, n, k, t);
    UnappliedKeeps(Applied(s.d, txs, n, k), txs, k, t);
  }

  lemma UndoneKeepsLeft(
    rules: Rules, now: nat, base: Base, d: Derived, low: nat, s: State, b: Block, h: nat, all: seq<Transaction>)
    requires Lingering(rules, base, low, s) && base.hashes == d.transactions.Keys && Left(rules, d, s.d, h, all)
             && !rules.inZone(|s.blocks|)
    requires CanLoad(s.pool, b) && HeaderOk(rules, now, s.blocks, b)
    requires SizeSum(BlockTxs(b), |BlockTxs(b)|) <= rules.maxSize(|s.blocks|)
    requires var k := FirstBad(rules, s.blocks, s.d, BlockTxs(b), 1); var s' := PushBlock(rules, now, s, b).0;
      Good(rules, s') && s'.blocks == s.blocks && s'.d == Undone(s.d, BlockTxs(b), |s.blocks|, k)
    ensures Left(rules, d, PushBlock(rules, now, s, b).0.d, h, all)
  {
    hide Good, Lingering, Semantic, Undone, HeaderOk, FirstBad, PushBlock, CanLoad, BlockTxs;
    LoadNames(s.pool, b);
    var s' := PushBlock(rules, now, s, b).0;
    if all[0] == b.baseTransaction {
      CoinbaseOfHeader(rules, now, s.blocks, b);
      assert h == |s.blocks|;
      if |all| == 1 {
        SizeOfPart(all, BlockTxs(b), 1);
      } else {
        LeftoverStays(rules, now, base, d, low, s, b, h, all, 1);
        NotAboveTop(rules, s', d, h, all);
      }
    }
    forall j | 0 <= j < |all| ensures LeftAt(d, s'.d, h, all, j) {
      LeftoverStays(rules, now, base, d, low, s, b, h, all, j);
    }
  }

  lemma NotAboveTop(rules: Rules, s: State, d: Derived, h: nat, all: seq<Transaction>)
    requires Good(rules, s) && |all| > 1 && LeftAt(d, s.d, h, all, 1)
    ensures h < |s.blocks|
  {
    hide Rebuild, IndexesOf, ChainOk, AllTxs;
    RebuiltAt(s.d.indexed, s.blocks, OfTransaction(all[1]));
  }

  lemma {:induction false} NeverGood(
    rules: Rules, delays: nat -> nat, c: nat, base: Base, d: Derived, low: nat, s: State, bs: seq<Block>, h: nat,
    all: seq<Transaction>)
    requires Lingering(rules, base, low, s) && base.hashes == d.transactions.Keys && Left(rules, d, s.d, h, all)
    requires AllCountable(bs) && WithinLimits(rules, |s.blocks|, bs) && forall k | low <= k :: !rules.inZone(k)
    ensures !Good(rules, PushAll(rules, delays, c, s, bs).0)
    decreases |bs|
  {
    hide Good, Lingering, Left, PushBlock, Countable, SizeSum, BlockTxs, Handled, Inside, WithinLimits;
    LingersAbove(rules, base, low, s);
    if bs == [] {
      if Good(rules, s) { GoodHasNothingLeft(rules, s, d, h, all); }
    } else {
      var now := s.now + delays(c);
      FirstLimit(rules, |s.blocks|, bs);
      var (s1, ok1) := PushBlock(rules, now, s, bs[0]);
      if ok1 {
        PushLingers(rules, now, base, low, s, bs[0]);
        PushKeepsLeft(rules, now, s, bs[0], d, h, all);
        PushedState(rules, now, s, bs[0]);
        LimitsOfRest(rules, |s.blocks|, bs);
        NeverGood(rules, delays, c + 1, base, d, low, s1, bs[1..], h, all);
      } else {
        RefusedNotGood(rules, now, base, d, low, s, bs[0], h, all);
      }
    }
  }

  lemma FirstLimit(rules: Rules, h: nat, bs: seq<Block>)
    requires WithinLimits(rules, h, bs) && bs != []
    ensures NamesTransactions(bs[0]) ==> SizeSum(BlockTxs(bs[0]), |BlockTxs(bs[0])|) <= rules.maxSize(h)
  {
    hide SizeSum, BlockTxs;
  }

  lemma OriginalWithinLimits(rules: Rules, s: State, split: nat)
    requires Good(rules, s) && split <= |s.blocks|
    ensures WithinLimits(rules, split, Bodies(s.blocks[split..]))
  {
    hide Good, SizeSum, BlockTxs, AllTxs;
    var bs := Bodies(s.blocks[split..]);
    forall k | 0 <= k < |bs| && NamesTransactions(bs[k])
      ensures SizeSum(BlockTxs(bs[k]), |BlockTxs(bs[k])|) <= rules.maxSize(split + k)
    {
      assert bs[k] == s.blocks[split + k].bl;
      EntryShape(rules, s, split + k);
      GoodFits(rules, s, split + k);
    }
  }

  lemma GoodFits(rules: Rules, s: State, k: nat)
    requires Good(rules, s) && k < |s.blocks|
    ensures SizeSum(AllTxs(s.blocks[k]), |AllTxs(s.blocks[k])|) <= rules.maxSize(k)
  {
    hide Rebuild, IndexesOf, ChainOk, SizeSum, AllTxs;
    EntryFits(rules, s.now, s.d.indexed, s.blocks, k);
  }

  /** Outside the checkpoint zone a switch keeps the invariant if and only if no alternative block that gets its turn
      fails for its size or by an exception. */
  lemma SwitchGoodOutsideZone(rules: Rules, delays: nat -> nat, s: State, alt: seq<Block>, split: nat)
    requires Good(rules, s) && Proceeds(s, alt, split, true)
    requires AllCountable(alt) && forall k | split <= k :: !rules.inZone(k)
    ensures Good(rules, Switch(rules, delays, s, alt, split, true).0) <==>
      !FailsInTurn(rules, delays, 0, Below(s, split), alt) && !ThrownInTurn(rules, delays, 0, Below(s, split), alt)
  {
    hide Good, Steady, Lingering, PopTo, PushAll, Covers, Below, Bodies, AllCountable, DefinedInTurn, FailsInTurn,
         ThrownInTurn, WithinLimits, Left, AllOrNothing, Released, UnspentIn, RefsFrom, Clear;
    SwitchOutsideZone(rules, delays, s, alt, split);
    var g := Below(s, split);
    if FailsInTurn(rules, delays, 0, g, alt) {
      GoodBelow(rules, s, split);
      GoodIsSteady(rules, g);
      var h, all := LeftBehind(rules, delays, 0, g, alt);
      var s2, base := PushAll(rules, delays, 0, g, alt).0, BaseOf(g);
      GoodLingers(rules, s, split);
      PopToLingers(rules, base, split, s, split);
      PushAllLingers(rules, delays, 0, base, split, g, alt);
      PopToLingers(rules, base, split, s2, split);
      PopToBlocks(s2, split);
      OriginalCountable(rules, s, split);
      OriginalWithinLimits(rules, s, split);
      NeverGood(rules, delays, |alt|, base, g.d, split, PopTo(s2, split), Bodies(s.blocks[split..]), h, all);
    } else if ThrownInTurn(rules, delays, 0, g, alt) {
      ThrownNeverRestored(rules, delays, s, alt, split);
    } else {
      SwitchKeepsGood(rules, delays, s, alt, split);
      UnspentOutside(rules, delays, s, alt, split);
      SwitchResult(rules, delays, s, alt, split);
    }
  }

  // ---------------------------------------------------------------------------------------------
  // A switch that loses blocks

  lemma RecordKeepsKeys(d: Derived, tx: Transaction, at: TransactionIndex)
    ensures d.spentKeys <= Record(d, tx, at).spentKeys
  {
    hide Mark, AddKeyOutputs, AddMultisigOutputs, KeyImages, MultisigRefs;
  }

  lemma {:induction false} SpentGrows(d: Derived, all: seq<Transaction>, n: nat, k: nat)
    requires k <= |all|
    ensures d.spentKeys <= Applied(d, all, n, k).spentKeys
  {
    hide Record;
    if k != 0 {
      SpentGrows(d, all, n, k - 1);
      RecordKeepsKeys(Applied(d, all, n, k - 1), all[k - 1], TransactionIndex(n, k - 1));
    }
  }

  /** On any state, a block with a key image that is spent already is not accepted. */
  lemma SpentIsRefused(rules: Rules, now: nat, s: State, b: Block, tx: Transaction, i: nat)
    requires tx in NamedSet(b) && i < |tx.inputs| && tx.inputs[i].KeyInput? && tx.inputs[i].keyImage in s.d.spentKeys
    ensures !PushBlock(rules, now, s, b).1 && PushBlock(rules, now, s, b).0.blocks == s.blocks
  {
    hide Applied, Unapplied, Emission, HeaderOk, SizeSum, NewEntry, FirstBad, Undone;
    if CanLoad(s.pool, b) {
      var all := BlockTxs(b);
      var j :| 0 <= j < |b.transactionHashes| && b.transactionHashes[j].OfTransaction?
        && b.transactionHashes[j].tx == tx;
      assert all[j + 1] == tx;
      SpentGrows(s.d, all, |s.blocks|, j + 1);
      assert !InputOk(rules, s.blocks, Applied(s.d, all, |s.blocks|, j + 1), tx, i);
      assert !InputsOk(rules, s.blocks, Applied(s.d, all, |s.blocks|, j + 1), all[j + 1]);
      assert !BodyOk(rules, s.blocks, s.d, all, |all|);
    }
  }

  /** `b` fails for its size on top of `s`, and an input of one of its transactions, which `was` has too, spends a
      key image. */
  ghost predicate Collide(rules: Rules, now: nat, s: State, b: Block, was: Block, tx: Transaction, i: nat) {
    && Defined(rules, s, b) && FailsForSize(rules, now, s, b)
    && tx in NamedSet(b) && tx in NamedSet(was) && i < |tx.inputs| && tx.inputs[i].KeyInput?
  }

  /** If the first alternative block fails for its size and shares a transaction with the block it replaces, the
      rollback fails too: the key images that were left behind stand in its way, and the disconnected blocks are
      lost. */
  lemma OversizeSwitchLosesBlocks(
    rules: Rules, delays: nat -> nat, s: State, alt: seq<Block>, split: nat, tx: Transaction, i: nat)
    requires alt != [] && split < |s.blocks| && Covers(s.blocks[split..], alt)
    requires Good(rules, s) && Undoable(s, split)
    requires Collide(rules, s.now + delays(0), Below(s, split), alt[0], s.blocks[split].bl, tx, i)
    ensures !Switch(rules, delays, s, alt, split, true).1
    ensures Switch(rules, delays, s, alt, split, true).0.blocks == s.blocks[..split]
  {
    hide Good, Below, Undoable, Covers, PushBlock, NamedSet, PopTo, FailsForSize, Defined;
    var t, original := Below(s, split), Bodies(s.blocks[split..]);
    PopToKeepsGood(rules, s, split);
    var (t', ok) := PushBlock(rules, t.now + delays(0), t, alt[0]);
    OversizeKeepsKeys(rules, t.now + delays(0), t, alt[0], tx, i);
    AlreadyThere(t', split);
    assert original[0] == s.blocks[split].bl;
    SpentIsRefused(rules, t'.now + delays(|alt|), t', original[0], tx, i);
  }

  lemma AlreadyThere(s: State, h: nat)
    requires |s.blocks| <= h
    ensures PopTo(s, h) == s
  {
  }

  lemma OversizeKeepsKeys(rules: Rules, now: nat, s: State, b: Block, tx: Transaction, i: nat)
    requires Good(rules, s) && Defined(rules, s, b) && FailsForSize(rules, now, s, b)
    requires tx in NamedSet(b) && i < |tx.inputs| && tx.inputs[i].KeyInput?
    ensures var (s', ok) := PushBlock(rules, now, s, b);
      !ok && s'.blocks == s.blocks && tx.inputs[i].keyImage in s'.d.spentKeys
  {
    hide Good, Kept, Steady, Defined, FailsForSize, PushBlock, SizeSum, Semantic, KeyImages;
    GoodIsSteady(rules, s);
    OversizeLeaves(rules, now, s, b);
    GoodIsKept(rules, s);
    PushKeepsKept(rules, now, s, b);
    KeptParts(rules, PushBlock(rules, now, s, b).0);
    var all := BlockTxs(b);
    var j :| 0 <= j < |b.transactionHashes| && b.transactionHashes[j].OfTransaction? && b.transactionHashes[j].tx == tx;
    assert all[j + 1] == tx && LeftAt(s.d, PushBlock(rules, now, s, b).0.d, |s.blocks|, all, j + 1);
    SpendOf(tx.inputs, i);
  }
}
