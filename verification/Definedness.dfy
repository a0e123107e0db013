/** Where the code is defined: popping does not look for a transaction that is not recorded, no index is past the end of
    a multisignature vector or of the transactions of a block, and transactions and outputs are counted in 16 bits. The
    exception of an input check is an outcome like the others. */
module Definedness {
  import opened ChainTypes
  import opened DerivedState
  import opened Rules
  import opened Ledger
  import opened Steps
  import opened Reorganisation
  import opened Switching
  import opened Places

  /** `popTransactions` is defined. */
  ghost predicate CanPopAll(d: Derived, all: seq<Transaction>, k: nat)
    requires k <= |all|
    decreases k
  {
    k == 0 || (CanPop(d, all[k - 1]) && CanPopAll(Unapply(d, all[k - 1]), all, k - 1))
  }

  /** `popBlock` and `removeLastBlock` are defined. */
  ghost predicate Poppable(s: State) {
    s.blocks == [] ||
      var last := s.blocks[|s.blocks| - 1];
      && AllTxs(last) != [] && last.height < |s.ix.ids|
      && CanPopAll(s.d, AllTxs(last), |AllTxs(last)|)
  }

  ghost predicate PoppableTo(s: State, h: nat)
    decreases |s.blocks|
  {
    |s.blocks| <= h || (Poppable(s) && PoppableTo(PopBlock(s), h))
  }

  ghost predicate RemovableTo(s: State, h: nat)
    decreases |s.blocks|
  {
    |s.blocks| <= h || (Poppable(s) && RemovableTo(RemoveLastBlock(s), h))
  }

  /** `pushBlock` is defined, with the undoing of a refused block. */
  ghost predicate Handled(rules: Rules, now: nat, s: State, b: Block) {
    && s.ix.ids == Ids(s.blocks)
    && (CanLoad(s.pool, b) ==>
          && Countable(b) && (forall j | 1 <= j < |BlockTxs(b)| :: Semantic(BlockTxs(b)[j]))
          && (HeaderOk(rules, now, s.blocks, b) ==>
                && ReferencesExist(rules, s.blocks, s.d, b) && ChecksInside(rules, s.blocks, s.d, BlockTxs(b))
                && UndoDefined(rules, now, s, b)))
  }

  /** The input checks that are made do not index past the transactions of a block. */
  ghost predicate ChecksInside(rules: Rules, blocks: seq<BlockEntry>, d: Derived, all: seq<Transaction>) {
    forall j | 1 <= j < |all| && BodyOk(rules, blocks, d, all, j) ::
      InputsInside(rules, blocks, Applied(d, all, |blocks|, j), all[j], 0)
  }

  ghost predicate Inside(rules: Rules, now: nat, s: State, b: Block) {
    CanLoad(s.pool, b) && HeaderOk(rules, now, s.blocks, b) ==> ChecksInside(rules, s.blocks, s.d, BlockTxs(b))
  }

  ghost predicate InsideInTurn(rules: Rules, delays: nat -> nat, c: nat, s: State, bs: seq<Block>)
    decreases |bs|
  {
    bs == [] ||
      var (s', ok) := PushBlock(rules, s.now + delays(c), s, bs[0]);
      Inside(rules, s.now + delays(c), s, bs[0]) && (ok ==> InsideInTurn(rules, delays, c + 1, s', bs[1..]))
  }

  ghost predicate SwitchInside(
    rules: Rules, delays: nat -> nat, s: State, alt: seq<Block>, split: nat, plausible: bool) {
    Proceeds(s, alt, split, plausible) ==>
      var p := PopTo(s, split);
      var (s', ok) := PushAll(rules, delays, 0, p, alt);
      && InsideInTurn(rules, delays, 0, p, alt)
      && (ok || ThrownInTurn(rules, delays, 0, p, alt)
          || InsideInTurn(rules, delays, |alt|, PopTo(s', split), Bodies(s.blocks[split..])))
  }

  ghost predicate UndoDefined(rules: Rules, now: nat, s: State, b: Block)
    requires NamesTransactions(b)
  {
    match Judge(rules, now, s.blocks, s.d, b)
    case Refused(k) => k <= |BlockTxs(b)| && CanPopAll(Applied(s.d, BlockTxs(b), |s.blocks|, k), BlockTxs(b), k)
    case _ => true
  }

  ghost predicate HandledInTurn(rules: Rules, delays: nat -> nat, c: nat, s: State, bs: seq<Block>)
    decreases |bs|
  {
    bs == [] ||
      var (s', ok) := PushBlock(rules, s.now + delays(c), s, bs[0]);
      Handled(rules, s.now + delays(c), s, bs[0]) && (ok ==> HandledInTurn(rules, delays, c + 1, s', bs[1..]))
  }

  /** The whole switch is defined, with its rollback. */
  ghost predicate SwitchHandled(
    rules: Rules, delays: nat -> nat, s: State, alt: seq<Block>, split: nat, plausible: bool) {
    Proceeds(s, alt, split, plausible) ==>
      var p := PopTo(s, split);
      var (s', ok) := PushAll(rules, delays, 0, p, alt);
      && PoppableTo(s, split) && HandledInTurn(rules, delays, 0, p, alt)
      && (ok || ThrownInTurn(rules, delays, 0, p, alt)
          || (split <= |s'.blocks| && PoppableTo(s', split)
              && HandledInTurn(rules, delays, |alt|, PopTo(s', split), Bodies(s.blocks[split..]))))
  }

  // ---------------------------------------------------------------------------------------------
  // States in which at most flags were cleared

  /** A transaction that was just recorded can be popped, whatever flags were cleared in between. */
  lemma JustPushed(d: Derived, tx: Transaction, at: TransactionIndex, refs: set<(nat, nat)>)
    requires WellFormed(d) && Pushable(d, tx)
    ensures CanPop(Clear(Record(d, tx, at), refs), tx)
    ensures Unapply(Clear(Record(d, tx, at), refs), tx) == Clear(d, refs + MultisigRefs(tx.inputs))
  {
    hide Mark, MultisigRefs, KeyImages, AddKeyOutputs, RemoveKeyOutputs, AddMultisigOutputs, RemoveMultisigOutputs,
         Pushable, NoEmptyVector, Unapply;
    var own := MultisigRefs(tx.inputs);
    var marked := Mark(d.multisigs, own, true);
    var kept := Mark(marked, refs, false);
    PushableSpends(d, tx);
    RecordIsApply(d, tx, at);
    PushableIsUnapplied(d, tx, at, refs);
    MarkKeepsShape(d.multisigs, own, true);
    MarkKeepsShape(marked, refs, false);
    ClearThenAdd(marked, refs, tx.outputs, at, |tx.outputs|);
    RemoveMultisigOutputsUndoes(kept, tx.outputs, at, |tx.outputs|);
    forall ref | ref in own ensures InRange(kept, ref) {
      MarkedAt(d.multisigs, own, true, ref.0, ref.1);
      MarkedAt(marked, refs, false, ref.0, ref.1);
    }
  }

  lemma {:induction false} PushedCanPop(d: Derived, all: seq<Transaction>, n: nat, k: nat, refs: set<(nat, nat)>)
    requires k <= |all| && WellFormed(d) && AllPushable(d, all, n, k)
    ensures CanPopAll(Clear(Applied(d, all, n, k), refs), all, k)
    decreases k
  {
    hide Record, Unapply, CanPop, Pushable, WellFormed, Clear, MultisigRefs;
    if k != 0 {
      UnappliedClears(d, all, n, k - 1, {});
      JustPushed(Applied(d, all, n, k - 1), all[k - 1], TransactionIndex(n, k - 1), refs);
      PushedCanPop(d, all, n, k - 1, refs + MultisigRefs(all[k - 1].inputs));
    }
  }

  lemma SteadyIds(s: State)
    requires Steady(s)
    ensures s.ix.ids == Ids(s.blocks)
  {
    hide WellFormed, HeightsBelow;
  }

  /** On a steady state `pushBlock` is defined, input checks and undoing included. */
  lemma SteadyIsHandled(rules: Rules, now: nat, s: State, b: Block)
    requires Steady(s) && Defined(rules, s, b)
    ensures Handled(rules, now, s, b)
  {
    hide Applied, Steady, HeaderOk, BodyOk, Emission, SizeSum, NewEntry, FirstBad, Semantic, CanPopAll, AllPushable,
         AllSpendable, WellFormed, Countable, ReferencesExist, ChecksInside, Clear;
    SteadyIds(s);
    if CanLoad(s.pool, b) {
      SteadyLoads(s, b);
      if HeaderOk(rules, now, s.blocks, b) {
        var all, n := BlockTxs(b), |s.blocks|;
        NoneChecked(rules, s.blocks, s.d, all);
        FirstBadIsFirst(rules, s.blocks, s.d, all, 1);
        var k := FirstBad(rules, s.blocks, s.d, all, 1);
        BlockIsPushable(rules, now, s, b, k);
        PushedCanPop(s.d, all, n, k, {});
        ClearNothing(Applied(s.d, all, n, k));
        SteadyInside(rules, s, all);
      }
    }
  }

  lemma SteadyInside(rules: Rules, s: State, all: seq<Transaction>)
    requires Steady(s)
    ensures ChecksInside(rules, s.blocks, s.d, all)
  {
    hide Applied, Placed, PlacedIn, BodyOk, InputsInside, IndexesOf, WellFormed, HeightsBelow, PoolOk;
    forall j | 1 <= j < |all| && BodyOk(rules, s.blocks, s.d, all, j)
      ensures InputsInside(rules, s.blocks, Applied(s.d, all, |s.blocks|, j), all[j], 0)
    {
      AppliedPlaced(s.d, s.blocks, all, j);
      PlacedIsInside(rules, s.blocks, Applied(s.d, all, |s.blocks|, j), all, j, all[j], 0);
    }
  }

  lemma SteadyLoads(s: State, b: Block)
    requires Steady(s) && CanLoad(s.pool, b)
    ensures forall j | 1 <= j < |BlockTxs(b)| :: Semantic(BlockTxs(b)[j])
  {
    hide WellFormed, HeightsBelow, IndexesOf, Semantic;
    forall j | 1 <= j < |BlockTxs(b)| ensures Semantic(BlockTxs(b)[j]) {
      assert b.transactionHashes[j - 1].tx in s.pool;
    }
  }

  /** So is popping the block again. */
  lemma AcceptedCanPop(rules: Rules, now: nat, s: State, b: Block, refs: set<(nat, nat)>)
    requires Steady(s) && Defined(rules, s, b) && PushBlock(rules, now, s, b).1
    ensures Poppable(Cleared(PushBlock(rules, now, s, b).0, refs))
  {
    hide Applied, Unapplied, Judge, IndexesOf, AddIndexes, AllPushable, AllSpendable, WellFormed, Semantic, BlockTxs,
         HeaderOk, BodyOk, Clear, Refs, NamedSet, ReferencesExist, Countable, CanLoad, CanPopAll, Steady,
         NewTransactions;
    LoadNames(s.pool, b);
    var all, n := BlockTxs(b), |s.blocks|;
    var s' := PushBlock(rules, now, s, b).0;
    AcceptedIsSteady(rules, now, s, b, refs);
    AcceptedEntry(rules, now, s.blocks, s.d, b, Judge(rules, now, s.blocks, s.d, b).entry);
    BlockIsPushable(rules, now, s, b, |all|);
    PushedCanPop(s.d, all, n, |all|, refs);
    SteadyIds(s');
  }

  lemma {:induction false} SteadyInTurn(rules: Rules, delays: nat -> nat, c: nat, s: State, bs: seq<Block>)
    requires Steady(s) && DefinedInTurn(rules, delays, c, s, bs)
    ensures HandledInTurn(rules, delays, c, s, bs)
    decreases |bs|
  {
    hide Steady, PushBlock, Defined, Handled;
    if bs != [] {
      var now := s.now + delays(c);
      SteadyIsHandled(rules, now, s, bs[0]);
      var (s1, ok1) := PushBlock(rules, now, s, bs[0]);
      if ok1 {
        AcceptedIsSteady(rules, now, s, bs[0], {});
        SteadyInTurn(rules, delays, c + 1, s1, bs[1..]);
      }
    }
  }

  lemma PoppableLater(s: State, now: nat)
    requires Poppable(s)
    ensures Poppable(s.(now := now))
  {
    hide CanPopAll;
  }

  lemma {:induction false} PoppableStep(s: State, h: nat)
    requires h < |s.blocks| && PoppableTo(s, h + 1) && Poppable(PopTo(s, h + 1))
    ensures PoppableTo(s, h)
    decreases |s.blocks|
  {
    hide Poppable, Unapplied, RemoveIndexes;
    if h + 1 < |s.blocks| {
      PoppableStep(PopBlock(s), h);
    } else {
      AlreadyShort(PopBlock(s), h);
    }
  }

  lemma AlreadyShort(s: State, h: nat)
    requires |s.blocks| <= h
    ensures PoppableTo(s, h)
  {
  }

  /** Whatever was pushed without a failure for size or an exception can be popped again. */
  lemma {:induction false} PushedPoppable(
    rules: Rules, delays: nat -> nat, c: nat, s: State, bs: seq<Block>, refs: set<(nat, nat)>)
    requires Steady(s) && DefinedInTurn(rules, delays, c, s, bs)
    requires !FailsInTurn(rules, delays, c, s, bs) && !ThrownInTurn(rules, delays, c, s, bs)
    ensures PoppableTo(Cleared(PushAll(rules, delays, c, s, bs).0, refs), |s.blocks|)
    decreases |bs|
  {
    hide Steady, PushBlock, PopBlock, Defined, FailsForSize, IsThrown, Touched, Clear, Refs, Poppable;
    var n := |s.blocks|;
    var s' := PushAll(rules, delays, c, s, bs).0;
    if bs != [] {
      var now := s.now + delays(c);
      var (s1, ok1) := PushBlock(rules, now, s, bs[0]);
      if ok1 {
        AcceptedIsSteady(rules, now, s, bs[0], {});
        PushedPoppable(rules, delays, c + 1, s1, bs[1..], refs);
        PopToClearsPushAll(rules, delays, c + 1, s1, bs[1..], refs);
        var more := refs + TouchedInTurn(rules, delays, c + 1, s1, bs[1..]);
        AcceptedCanPop(rules, now, s, bs[0], more);
        PoppableLater(Cleared(s1, more), s'.now);
        PoppableStep(Cleared(s', refs), n);
      } else {
        RefusedClears(rules, now, s, bs[0]);
        AlreadyShort(Cleared(s', refs), n);
      }
    } else {
      AlreadyShort(Cleared(s', refs), n);
    }
  }

  /** From a good state every block can be popped or removed. */
  lemma {:induction false} GoodPoppable(rules: Rules, s: State, refs: set<(nat, nat)>, h: nat)
    requires Good(rules, s)
    ensures PoppableTo(Cleared(s, refs), h)
    decreases |s.blocks|
  {
    hide Good, Poppable, PopBlock, Below, Clear, Refs;
    if h < |s.blocks| {
      var n := |s.blocks| - 1;
      var all := AllTxs(s.blocks[n]);
      TopPoppable(rules, s, refs);
      PopClears(rules, s, refs);
      GoodBelow(rules, s, n);
      GoodPoppable(rules, Below(s, n), refs + Refs(all, |all|), h);
    }
  }

  lemma {:induction false} GoodRemovable(rules: Rules, s: State, refs: set<(nat, nat)>, h: nat)
    requires Good(rules, s)
    ensures RemovableTo(Cleared(s, refs), h)
    decreases |s.blocks|
  {
    hide Good, Poppable, RemoveLastBlock, At, Clear, Refs;
    if h < |s.blocks| {
      var n := |s.blocks| - 1;
      var all := AllTxs(s.blocks[n]);
      TopPoppable(rules, s, refs);
      RemoveClears(rules, s, refs);
      AtFields(s.d.indexed, s.blocks[..n], s.pool, s.now);
      GoodRemovable(rules, At(s.d.indexed, s.blocks[..n], s.pool, s.now), refs + Refs(all, |all|), h);
    }
  }

  lemma TopPoppable(rules: Rules, s: State, refs: set<(nat, nat)>)
    requires Good(rules, s)
    ensures Poppable(Cleared(s, refs))
  {
    hide Good, Rebuild, ChainOk, EntryOk, AllPushable, WellFormed, Applied, BlockTxs, Clear, CanPopAll;
    if s.blocks != [] {
      LastBlock(rules, s);
      var n := |s.blocks| - 1;
      var e := s.blocks[n];
      PushedCanPop(Rebuild(s.d.indexed, s.blocks[..n]), BlockTxs(e.bl), n, |BlockTxs(e.bl)|, refs);
    }
  }

  /** If no alternative block fails for its size, a switch from a good state is defined, inside the checkpoint zone and
      outside. */
  lemma SwitchIsHandled(rules: Rules, delays: nat -> nat, s: State, alt: seq<Block>, split: nat, plausible: bool)
    requires Good(rules, s) && SwitchDefined(rules, delays, s, alt, split, plausible)
    requires Proceeds(s, alt, split, plausible) ==> !FailsInTurn(rules, delays, 0, PopTo(s, split), alt)
    ensures SwitchHandled(rules, delays, s, alt, split, plausible)
  {
    hide Good, Steady, PopTo, PushAll, Covers, Below, Clear, DefinedInTurn, FailsInTurn, ThrownInTurn, TouchedInTurn,
         RefsFrom, Bodies, PoppableTo, HandledInTurn;
    if Proceeds(s, alt, split, plausible) {
      var p, original, spent := PopTo(s, split), Bodies(s.blocks[split..]), RefsFrom(s.blocks, split);
      ClearedIsState(s, {});
      GoodPoppable(rules, s, {}, split);
      PoppedIsSteady(rules, s, split);
      SteadyInTurn(rules, delays, 0, p, alt);
      if !ThrownInTurn(rules, delays, 0, p, alt) {
        PopToClearsPushAll(rules, delays, 0, p, alt, {});
        PushedPoppable(rules, delays, 0, p, alt, {});
        var s' := PushAll(rules, delays, 0, p, alt).0;
        ClearedIsState(s', {});
        var touched := TouchedInTurn(rules, delays, 0, p, alt);
        assert {} + touched == touched;
        ClearTwice(Below(s, split).d, spent, touched);
        GoodBelow(rules, s, split);
        RestoreInTurn(rules, delays, |alt|, s, split, s'.now, spent + touched);
      }
    }
  }

  /** Pushing the disconnected blocks again is defined also when flags were cleared. */
  lemma RestoreInTurn(rules: Rules, delays: nat -> nat, c: nat, s: State, h: nat, now: nat, refs: set<(nat, nat)>)
    requires Good(rules, s) && h <= |s.blocks| && s.now <= now
    ensures HandledInTurn(rules, delays, c, Cleared(Below(s, h).(now := now), refs), Bodies(s.blocks[h..]))
  {
    hide Good, Steady, PushAll, Below, Clear, DefinedInTurn, RefsFrom, Bodies, HandledInTurn;
    var g := Below(s, h).(now := now);
    GoodBelow(rules, s, h);
    GoodIsSteady(rules, Below(s, h));
    ClearedIsSteady(Below(s, h), {}, now);
    ClearedIsSteady(g, refs, now);
    PushAllUndoesPopTo(rules, delays, c, s, h, now);
    ClearedInTurn(rules, delays, c, g, Bodies(s.blocks[h..]), refs);
    SteadyInTurn(rules, delays, c, Cleared(g, refs), Bodies(s.blocks[h..]));
  }

  lemma {:induction false} ClearedInTurn(
    rules: Rules, delays: nat -> nat, c: nat, s: State, bs: seq<Block>, refs: set<(nat, nat)>)
    requires Steady(s) && DefinedInTurn(rules, delays, c, s, bs) && PushAll(rules, delays, c, s, bs).1
    ensures DefinedInTurn(rules, delays, c, Cleared(s, refs), bs)
    decreases |bs|
  {
    hide Steady, PushBlock, Defined, Clear, Refs, BlockTxs, CanLoad, HeaderOk;
    if bs != [] {
      var now := s.now + delays(c);
      AcceptedLoads(rules, now, s, bs[0]);
      DefinedWhenCleared(rules, now, s, bs[0], refs);
      AcceptedIsSteady(rules, now, s, bs[0], {});
      PushCleared(rules, now, s, bs[0], refs);
      ClearedInTurn(rules, delays, c + 1, PushBlock(rules, now, s, bs[0]).0, bs[1..],
        refs - Refs(BlockTxs(bs[0]), |BlockTxs(bs[0])|));
    }
  }

  lemma DefinedWhenCleared(rules: Rules, now: nat, s: State, b: Block, refs: set<(nat, nat)>)
    requires Steady(s) && Defined(rules, s, b) && PushBlock(rules, now, s, b).1
    ensures Defined(rules, Cleared(s, refs), b)
  {
    hide Applied, BodyOk, HeaderOk, Clear, Refs, WellFormed, HeightsBelow, Semantic, IndexesOf, Countable,
         MultisigRefs, Emission, SizeSum, NewEntry, FirstBad, Undone, AddIndexes;
    LoadedIsNew(rules, now, s, b);
    var all := BlockTxs(b);
    forall j, ref | rules.inZone(|s.blocks|) && 1 <= j < |all| && ref in MultisigRefs(all[j].inputs)
      ensures InRange(Applied(Clear(s.d, refs), all, |s.blocks|, j).multisigs, ref)
    {
      BodyPrefix(rules, s.blocks, s.d, all, j + 1);
      AppliedCleared(s.d, refs, all, |s.blocks|, j);
      ClearKeepsRange(Applied(s.d, all, |s.blocks|, j), refs - Refs(all, j), ref);
    }
  }

  lemma BodyPrefix(rules: Rules, blocks: seq<BlockEntry>, d: Derived, all: seq<Transaction>, k: nat)
    requires k <= |all| && BodyOk(rules, blocks, d, all, |all|)
    ensures BodyOk(rules, blocks, d, all, k)
  {
    hide Applied, InputsOk;
  }
}
