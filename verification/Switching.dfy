/** Chain switching: what `switch_to_alternative_blockchain` and its rollback leave, and exactly when a switch is all or
    nothing. */
module Switching {
  import opened ChainTypes
  import opened DerivedState
  import opened Rules
  import opened Ledger
  import opened Steps
  import opened Reorganisation
  import opened Places

  // ---------------------------------------------------------------------------------------------
  // Cleared flags do not stand in the way of an accepted block

  lemma InputsOkCleared(rules: Rules, blocks: seq<BlockEntry>, d: Derived, refs: set<(nat, nat)>, tx: Transaction)
    requires InputsOk(rules, blocks, d, tx)
    ensures InputsOk(rules, blocks, Clear(d, refs), tx)
  {
    hide Mark;
    forall i | 0 <= i < |tx.inputs| ensures InputOk(rules, blocks, Clear(d, refs), tx, i) {
      assert InputOk(rules, blocks, d, tx, i);
      if tx.inputs[i].MultisigInput? && !rules.inZone(|blocks|) {
        MarkedAt(d.multisigs, refs, false, tx.inputs[i].amount, tx.inputs[i].outputIndex);
      }
    }
  }

  lemma {:induction false} AppliedCleared(d: Derived, refs: set<(nat, nat)>, all: seq<Transaction>, n: nat, k: nat)
    requires k <= |all|
    requires forall j | 0 <= j < k :: OfTransaction(all[j]) !in d.transactions
    requires forall i, j | 0 <= i < j < k :: all[i] != all[j]
    ensures Applied(Clear(d, refs), all, n, k) == Clear(Applied(d, all, n, k), refs - Refs(all, k))
  {
    hide Record, Clear, MultisigRefs;
    if k == 0 {
      assert refs - {} == refs;
    } else {
      var before, own := Applied(d, all, n, k - 1), MultisigRefs(all[k - 1].inputs);
      AppliedCleared(d, refs, all, n, k - 1);
      OnlyBlockAdds(d, all, n, k - 1, OfTransaction(all[k - 1]));
      RecordCleared(before, refs - Refs(all, k - 1), all[k - 1], TransactionIndex(n, k - 1));
      assert refs - Refs(all, k - 1) - own == refs - Refs(all, k);
    }
  }

  lemma EntriesCleared(d: Derived, refs: set<(nat, nat)>, all: seq<Transaction>, n: nat)
    requires forall j | 0 <= j < |all| :: OfTransaction(all[j]) !in d.transactions
    requires forall i, j | 0 <= i < j < |all| :: all[i] != all[j]
    ensures Entries(Clear(d, refs), all, n) == Entries(d, all, n)
  {
    hide Applied, Clear, Refs, StoredIndexes;
    forall k | 0 <= k < |all|
      ensures StoredIndexes(Applied(Clear(d, refs), all, n, k), all[k], TransactionIndex(n, k))
           == StoredIndexes(Applied(d, all, n, k), all[k], TransactionIndex(n, k))
    {
      AppliedCleared(d, refs, all, n, k);
      OnlyBlockAdds(d, all, n, k, OfTransaction(all[k]));
      RecordCleared(Applied(d, all, n, k), refs - Refs(all, k), all[k], TransactionIndex(n, k));
    }
  }

  lemma BodyOkCleared(
    rules: Rules, blocks: seq<BlockEntry>, d: Derived, refs: set<(nat, nat)>, all: seq<Transaction>, k: nat)
    requires k <= |all| && BodyOk(rules, blocks, d, all, k)
    requires forall j | 0 <= j < k :: OfTransaction(all[j]) !in d.transactions
    requires forall i, j | 0 <= i < j < k :: all[i] != all[j]
    ensures BodyOk(rules, blocks, Clear(d, refs), all, k)
  {
    hide Applied, InputsOk, Clear, Refs;
    forall j | 1 <= j < k ensures InputsOk(rules, blocks, Applied(Clear(d, refs), all, |blocks|, j), all[j]) {
      AppliedCleared(d, refs, all, |blocks|, j);
      InputsOkCleared(rules, blocks, Applied(d, all, |blocks|, j), refs - Refs(all, j), all[j]);
    }
  }

  /** A block that is accepted is also accepted when flags were cleared; it sets its own again. */
  lemma PushCleared(rules: Rules, now: nat, s: State, b: Block, refs: set<(nat, nat)>)
    requires Steady(s) && PushBlock(rules, now, s, b).1
    ensures NamesTransactions(b)
    ensures PushBlock(rules, now, Cleared(s, refs), b)
         == (Cleared(PushBlock(rules, now, s, b).0, refs - Refs(BlockTxs(b), |BlockTxs(b)|)), true)
  {
    hide Applied, BodyOk, HeaderOk, Entries, Emission, SizeSum, FirstBad, Undone, AddIndexes, Clear, Refs, WellFormed,
         HeightsBelow, Semantic, IndexesOf;
    var all, n := BlockTxs(b), |s.blocks|;
    LoadedIsNew(rules, now, s, b);
    AppliedCleared(s.d, refs, all, n, |all|);
    EntriesCleared(s.d, refs, all, n);
    BodyOkCleared(rules, s.blocks, s.d, refs, all, |all|);
    ClearIndexed(s.d, refs);
  }

  lemma {:induction false} RefsSplit(blocks: seq<BlockEntry>, h: nat, k: nat)
    requires h <= k <= |blocks|
    ensures RefsFrom(blocks, h) == RefsFrom(blocks[..k], h) + RefsFrom(blocks, k)
    decreases |blocks|
  {
    hide Refs;
    if k == |blocks| {
      assert blocks[..k] == blocks;
    } else {
      var n := |blocks| - 1;
      RefsSplit(blocks[..n], h, k);
      assert blocks[..n][..k] == blocks[..k];
    }
  }

  /** The same for a list of blocks that are all accepted. */
  lemma {:induction false} PushAllCleared(
    rules: Rules, delays: nat -> nat, c: nat, s: State, bs: seq<Block>, refs: set<(nat, nat)>)
    requires Steady(s) && DefinedInTurn(rules, delays, c, s, bs) && PushAll(rules, delays, c, s, bs).1
    ensures var s' := PushAll(rules, delays, c, s, bs).0;
      && |s.blocks| <= |s'.blocks| && s'.blocks[..|s.blocks|] == s.blocks
      && PushAll(rules, delays, c, Cleared(s, refs), bs) == (Cleared(s', refs - RefsFrom(s'.blocks, |s.blocks|)), true)
    decreases |bs|
  {
    hide Steady, PushBlock, Defined, Clear, Refs, BlockTxs;
    var n := |s.blocks|;
    var s' := PushAll(rules, delays, c, s, bs).0;
    if bs == [] {
      assert refs - {} == refs;
    } else {
      var now := s.now + delays(c);
      var s1 := PushBlock(rules, now, s, bs[0]).0;
      AcceptedIsSteady(rules, now, s, bs[0], {});
      PushCleared(rules, now, s, bs[0], refs);
      var own := Refs(BlockTxs(bs[0]), |BlockTxs(bs[0])|);
      PushAllCleared(rules, delays, c + 1, s1, bs[1..], refs - own);
      assert s'.blocks[..n] == s'.blocks[..n + 1][..n];
      RefsSplit(s'.blocks, n, n + 1);
      RefsLast(s1.blocks);
      assert refs - own - RefsFrom(s'.blocks, n + 1) == refs - RefsFrom(s'.blocks, n);
    }
  }

  lemma RefsLast(blocks: seq<BlockEntry>)
    requires blocks != []
    ensures var all := AllTxs(blocks[|blocks| - 1]); RefsFrom(blocks, |blocks| - 1) == Refs(all, |all|)
  {
    hide Refs;
  }

  /** Pushing the disconnected blocks again restores the chain also when flags were cleared; the flags of what these
      blocks spend are set again. */
  lemma RestoresCleared(rules: Rules, delays: nat -> nat, c: nat, s: State, h: nat, now: nat, refs: set<(nat, nat)>)
    requires Good(rules, s) && h <= |s.blocks| && s.now <= now
    ensures var (s', ok) := PushAll(rules, delays, c, Cleared(Below(s, h).(now := now), refs), Bodies(s.blocks[h..]));
      ok && now <= s'.now && s' == Cleared(s.(now := s'.now), refs - RefsFrom(s.blocks, h))
  {
    hide Good, Steady, PushAll, Below, Clear, DefinedInTurn, RefsFrom, Bodies;
    GoodBelow(rules, s, h);
    GoodIsSteady(rules, Below(s, h));
    ClearedIsSteady(Below(s, h), {}, now);
    PushAllUndoesPopTo(rules, delays, c, s, h, now);
    PushAllCleared(rules, delays, c, Below(s, h).(now := now), Bodies(s.blocks[h..]), refs);
  }

  // ---------------------------------------------------------------------------------------------
  // What a switch leaves

  ghost predicate Proceeds(s: State, alt: seq<Block>, split: nat, plausible: bool) {
    alt != [] && split < |s.blocks| && plausible && Covers(s.blocks[split..], alt)
  }

  /** The code handles every alternative block that gets its turn. */
  ghost predicate SwitchDefined(
    rules: Rules, delays: nat -> nat, s: State, alt: seq<Block>, split: nat, plausible: bool) {
    Proceeds(s, alt, split, plausible) ==> DefinedInTurn(rules, delays, 0, PopTo(s, split), alt)
  }

  /** What a failing switch touches and does not set again. */
  ghost function Released(rules: Rules, delays: nat -> nat, s: State, alt: seq<Block>, split: nat): set<(nat, nat)> {
    TouchedInTurn(rules, delays, 0, PopTo(s, split), alt) - RefsFrom(s.blocks, split)
  }

  lemma PoppedIsSteady(rules: Rules, s: State, split: nat)
    requires Good(rules, s) && split <= |s.blocks|
    ensures PopTo(s, split) == Cleared(Below(s, split), RefsFrom(s.blocks, split))
    ensures Steady(PopTo(s, split)) && PopTo(s, split).blocks == s.blocks[..split] && PopTo(s, split).now == s.now
  {
    hide Good, Steady, Below, Clear, RefsFrom, PopTo;
    PopToClears(rules, s, split, {});
    ClearedIsState(s, {});
    assert {} + RefsFrom(s.blocks, split) == RefsFrom(s.blocks, split);
    GoodBelow(rules, s, split);
    GoodIsSteady(rules, Below(s, split));
    ClearedIsSteady(Below(s, split), RefsFrom(s.blocks, split), s.now);
  }

  /** If no alternative block fails for its size or by an exception, a switch succeeds with the prefix and the
      alternative blocks, or fails with the old chain, indexes and pool, and with the flags cleared of what it touched
      and did not set again. */
  lemma SwitchResult(rules: Rules, delays: nat -> nat, s: State, alt: seq<Block>, split: nat)
    requires Good(rules, s) && Proceeds(s, alt, split, true) && SwitchDefined(rules, delays, s, alt, split, true)
    requires !FailsInTurn(rules, delays, 0, PopTo(s, split), alt)
             && !ThrownInTurn(rules, delays, 0, PopTo(s, split), alt)
    ensures var (s', ok) := Switch(rules, delays, s, alt, split, true);
      && s.now <= s'.now && ok == PushAll(rules, delays, 0, PopTo(s, split), alt).1
      && (ok ==> split <= |s'.blocks| && s'.blocks[..split] == s.blocks[..split] && Bodies(s'.blocks[split..]) == alt)
      && (!ok ==> s' == Cleared(s.(now := s'.now), Released(rules, delays, s, alt, split)))
  {
    hide Good, Steady, PopTo, PushAll, Covers, Below, Clear, DefinedInTurn, FailsInTurn, ThrownInTurn, TouchedInTurn,
         RefsFrom, Bodies;
    var p, spent := PopTo(s, split), RefsFrom(s.blocks, split);
    PoppedIsSteady(rules, s, split);
    PopToClearsPushAll(rules, delays, 0, p, alt, {});
    var (s2, ok) := PushAll(rules, delays, 0, p, alt);
    ClearedIsState(s2, {});
    if !ok {
      var touched := TouchedInTurn(rules, delays, 0, p, alt);
      assert {} + touched == touched;
      ClearTwice(Below(s, split).d, spent, touched);
      RestoresCleared(rules, delays, |alt|, s, split, s2.now, spent + touched);
      assert spent + touched - spent == touched - spent;
    }
  }

  // ---------------------------------------------------------------------------------------------
  // What a failure for size leaves is never restored

  lemma {:induction false} ReplayedAt(d: Derived, all: seq<Transaction>, n: nat, k: nat, h: Hash)
    requires k <= |all| && h in Replayed(d, all, n, k).transactions
    ensures var at := Replayed(d, all, n, k).transactions[h];
      || (h in d.transactions && at == d.transactions[h])
      || (at.block == n && at.transaction < k && h == OfTransaction(all[at.transaction]))
  {
    hide Apply;
    if k != 0 {
      ApplyRecords(Replayed(d, all, n, k - 1), all[k - 1], TransactionIndex(n, k - 1));
      if h != OfTransaction(all[k - 1]) { ReplayedAt(d, all, n, k - 1, h); }
    }
  }

  /** In a rebuilt transaction map each index leads to its transaction. */
  lemma {:induction false} RebuiltAt(indexed: bool, blocks: seq<BlockEntry>, h: Hash)
    requires h in Rebuild(indexed, blocks).transactions
    ensures var at := Rebuild(indexed, blocks).transactions[h];
      at.block < |blocks| && at.transaction < |AllTxs(blocks[at.block])|
        && h == OfTransaction(AllTxs(blocks[at.block])[at.transaction])
    decreases |blocks|
  {
    hide Replayed, AllTxs;
    if blocks != [] {
      var n := |blocks| - 1;
      var d, all := Rebuild(indexed, blocks[..n]), AllTxs(blocks[n]);
      ReplayedAt(d, all, n, |all|, h);
      if h in d.transactions { RebuiltAt(indexed, blocks[..n], h); }
    }
  }

  lemma {:induction false} SizeOfPart(all: seq<Transaction>, whole: seq<Transaction>, k: nat)
    requires k <= |all| <= |whole| && forall j | 0 <= j < k :: all[j] == whole[j]
    ensures SizeSum(all, k) == SizeSum(whole, k) <= SizeSum(whole, |whole|)
    decreases k
  {
    SizeGrows(whole, k, |whole|);
    if k != 0 { SizeOfPart(all, whole, k - 1); }
  }

  lemma {:induction false} SizeGrows(all: seq<Transaction>, j: nat, k: nat)
    requires j <= k <= |all|
    ensures SizeSum(all, j) <= SizeSum(all, k)
    decreases k - j
  {
    if j < k { SizeGrows(all, j, k - 1); }
  }

  /** The blocks of a valid chain respect the size limit of their height. */
  lemma EntryFits(rules: Rules, now: nat, indexed: bool, blocks: seq<BlockEntry>, h: nat)
    requires ChainOk(rules, now, indexed, blocks) && h < |blocks|
    ensures SizeSum(AllTxs(blocks[h]), |AllTxs(blocks[h])|) <= rules.maxSize(h)
  {
    hide Rebuild, HeaderOk, BodyOk, Emission, Semantic, NewTransactions, ReferencesExist, Countable, SizeSum, AllTxs;
    var prefix, e := blocks[..h], blocks[h];
    assert EntryOk(rules, now, indexed, prefix, e);
    AcceptedEntry(rules, now, prefix, Rebuild(indexed, prefix), e.bl, e);
  }

  /** A good state holds no leftovers. */
  lemma GoodHasNothingLeft(rules: Rules, s: State, d: Derived, h: nat, all: seq<Transaction>)
    requires Good(rules, s)
    ensures !Left(rules, d, s.d, h, all)
  {
    hide Rebuild, IndexesOf, ChainOk, SizeSum, AllTxs, Semantic;
    if Left(rules, d, s.d, h, all) {
      var last := |all| - 1;
      assert LeftAt(d, s.d, h, all, last);
      RebuiltAt(s.d.indexed, s.blocks, OfTransaction(all[last]));
      var whole := AllTxs(s.blocks[h]);
      forall j | 0 <= j < |all| ensures j < |whole| && all[j] == whole[j] {
        assert LeftAt(d, s.d, h, all, j);
        RebuiltAt(s.d.indexed, s.blocks, OfTransaction(all[j]));
      }
      SizeOfPart(all, whole, |all|);
      EntryFits(rules, s.now, s.d.indexed, s.blocks, h);
    }
  }

  lemma PushKeepsLeft(rules: Rules, now: nat, s: State, b: Block, d: Derived, h: nat, all: seq<Transaction>)
    requires PushBlock(rules, now, s, b).1 && Left(rules, d, s.d, h, all)
    ensures Left(rules, d, PushBlock(rules, now, s, b).0.d, h, all)
  {
    hide Applied, Judge, AddIndexes, SizeSum, Semantic;
    var txs := BlockTxs(b);
    forall j | 0 <= j < |all| ensures LeftAt(d, Applied(s.d, txs, |s.blocks|, |txs|), h, all, j) {
      assert LeftAt(d, s.d, h, all, j);
      AppliedKeeps(s.d, txs, |s.blocks|, |txs|, OfTransaction(all[j]));
    }
    PushedState(rules, now, s, b);
  }

  lemma PushedState(rules: Rules, now: nat, s: State, b: Block)
    requires PushBlock(rules, now, s, b).1
    ensures var s' := PushBlock(rules, now, s, b).0;
      NamesTransactions(b) && |s'.blocks| == |s.blocks| + 1
        && s'.d == Applied(s.d, BlockTxs(b), |s.blocks|, |BlockTxs(b)|)
  {
    hide Applied, HeaderOk, BodyOk, Emission, SizeSum, FirstBad, Undone, AddIndexes;
  }

  lemma RefusedSameBlocks(rules: Rules, now: nat, s: State, b: Block)
    requires !PushBlock(rules, now, s, b).1
    ensures PushBlock(rules, now, s, b).0.blocks == s.blocks
  {
    hide Applied, Judge, Undone;
  }

  /** Pushing blocks reaches the full length only if all are accepted, and then what was left behind is still there. */
  lemma {:induction false} PushAllKeepsLeft(
    rules: Rules, delays: nat -> nat, c: nat, s: State, bs: seq<Block>, d: Derived, h: nat, all: seq<Transaction>)
    requires Left(rules, d, s.d, h, all)
    ensures var (s', ok) := PushAll(rules, delays, c, s, bs);
      && s.now <= s'.now && |s'.blocks| <= |s.blocks| + |bs|
      && (|s'.blocks| == |s.blocks| + |bs| ==> Left(rules, d, s'.d, h, all))
    decreases |bs|
  {
    hide PushBlock, Left;
    if bs != [] {
      var now := s.now + delays(c);
      var (s1, ok1) := PushBlock(rules, now, s, bs[0]);
      PushNow(rules, now, s, bs[0]);
      if ok1 {
        PushKeepsLeft(rules, now, s, bs[0], d, h, all);
        PushedState(rules, now, s, bs[0]);
        PushAllKeepsLeft(rules, delays, c + 1, s1, bs[1..], d, h, all);
      } else {
        RefusedSameBlocks(rules, now, s, bs[0]);
      }
    }
  }

  /** After a failure for size the switch fails, and the rollback never restores the state. */
  lemma OversizeNeverRestored(rules: Rules, delays: nat -> nat, s: State, alt: seq<Block>, split: nat)
    requires Good(rules, s) && Proceeds(s, alt, split, true) && SwitchDefined(rules, delays, s, alt, split, true)
    requires FailsInTurn(rules, delays, 0, PopTo(s, split), alt)
    ensures var (s', ok) := Switch(rules, delays, s, alt, split, true);
      !ok && s.now <= s'.now && s' != s.(now := s'.now)
  {
    hide Good, Steady, PopTo, PushAll, Covers, Below, Clear, DefinedInTurn, FailsInTurn, ThrownInTurn, RefsFrom, Left;
    var p, original := PopTo(s, split), Bodies(s.blocks[split..]);
    PoppedIsSteady(rules, s, split);
    var h, all := LeftBehind(rules, delays, 0, p, alt);
    var t := PopTo(PushAll(rules, delays, 0, p, alt).0, split);
    PopToBlocks(PushAll(rules, delays, 0, p, alt).0, split);
    PushAllKeepsLeft(rules, delays, |alt|, t, original, p.d, h, all);
    var s' := Switch(rules, delays, s, alt, split, true).0;
    if s' == s.(now := s'.now) {
      GoodHasNothingLeft(rules, s, p.d, h, all);
    }
  }

  /** After an exception the switch fails and its state is neither the old one nor a good one. */
  lemma ThrownNeverRestored(rules: Rules, delays: nat -> nat, s: State, alt: seq<Block>, split: nat)
    requires Good(rules, s) && Proceeds(s, alt, split, true) && SwitchDefined(rules, delays, s, alt, split, true)
    requires ThrownInTurn(rules, delays, 0, PopTo(s, split), alt)
    ensures var (s', ok) := Switch(rules, delays, s, alt, split, true);
      !ok && s.now <= s'.now && s' != s.(now := s'.now) && !Good(rules, s')
  {
    hide Good, Steady, PopTo, PushAll, Covers, Below, Clear, DefinedInTurn, FailsInTurn, ThrownInTurn, RefsFrom,
         HeightsBelow;
    PoppedIsSteady(rules, s, split);
    var coinbase := ThrownBehind(rules, delays, 0, PopTo(s, split), alt);
    var s' := Switch(rules, delays, s, alt, split, true).0;
    NotSteady(rules, s, s');
  }

  lemma NotSteady(rules: Rules, s: State, s': State)
    requires Good(rules, s) && !HeightsBelow(s'.d, |s'.blocks|)
    ensures s' != s.(now := s'.now) && !Good(rules, s')
  {
    hide Good, HeightsBelow;
    GoodIsSteady(rules, s);
    if Good(rules, s') { GoodIsSteady(rules, s'); }
  }

  lemma {:induction false} PopToBlocks(s: State, h: nat)
    requires h <= |s.blocks|
    ensures PopTo(s, h).blocks == s.blocks[..h] && PopTo(s, h).now == s.now
    decreases |s.blocks|
  {
    hide Unapplied, RemoveIndexes;
    if h < |s.blocks| {
      PopToBlocks(PopBlock(s), h);
      assert s.blocks[..|s.blocks| - 1][..h] == s.blocks[..h];
    } else {
      assert s.blocks[..h] == s.blocks;
    }
  }

  // ---------------------------------------------------------------------------------------------
  // All or nothing

  /** The switch succeeded with exactly the prefix and the alternative blocks, or the state is the old one but for the
      clock. */
  ghost predicate AllOrNothing(s: State, alt: seq<Block>, split: nat, s': State, ok: bool) {
    if ok then
      split <= |s.blocks| && split <= |s'.blocks| && s'.blocks[..split] == s.blocks[..split]
        && Bodies(s'.blocks[split..]) == alt
    else
      s' == s.(now := s'.now)
  }

  /** No alternative block that gets its turn fails for its size or by an exception; and if one is refused, nothing
      that the switch touched and that the old blocks do not spend was spent before. */
  ghost predicate Restores(rules: Rules, delays: nat -> nat, s: State, alt: seq<Block>, split: nat, plausible: bool) {
    Proceeds(s, alt, split, plausible) ==>
      var p := PopTo(s, split);
      && !FailsInTurn(rules, delays, 0, p, alt) && !ThrownInTurn(rules, delays, 0, p, alt)
      && (PushAll(rules, delays, 0, p, alt).1 || UnspentIn(s.d.multisigs, Released(rules, delays, s, alt, split)))
  }

  /** Exactly when a switch is all or nothing, inside the checkpoint zone and outside. */
  lemma SwitchAllOrNothing(rules: Rules, delays: nat -> nat, s: State, alt: seq<Block>, split: nat, plausible: bool)
    requires Good(rules, s) && SwitchDefined(rules, delays, s, alt, split, plausible)
    ensures var (s', ok) := Switch(rules, delays, s, alt, split, plausible);
      && s.now <= s'.now
      && (AllOrNothing(s, alt, split, s', ok) <==> Restores(rules, delays, s, alt, split, plausible))
  {
    hide Good, PopTo, PushAll, Covers, DefinedInTurn, FailsInTurn, ThrownInTurn, Released, UnspentIn, Clear, Bodies;
    if Proceeds(s, alt, split, plausible) {
      if FailsInTurn(rules, delays, 0, PopTo(s, split), alt) {
        OversizeNeverRestored(rules, delays, s, alt, split);
      } else if ThrownInTurn(rules, delays, 0, PopTo(s, split), alt) {
        ThrownNeverRestored(rules, delays, s, alt, split);
      } else {
        SwitchResult(rules, delays, s, alt, split);
        var s' := Switch(rules, delays, s, alt, split, true).0;
        ClearedIsState(s.(now := s'.now), Released(rules, delays, s, alt, split));
      }
    }
  }

  // ---------------------------------------------------------------------------------------------
  // Conditions that can be read off the blocks

  /** An output that is spent stays spent while blocks are pushed. */
  lemma {:induction false} UsedStays(d: Derived, all: seq<Transaction>, n: nat, k: nat, ref: (nat, nat))
    requires k <= |all| && InRange(d.multisigs, ref) && !Unused(d.multisigs, ref)
    ensures var m := Applied(d, all, n, k).multisigs; InRange(m, ref) && !Unused(m, ref)
  {
    hide Record;
    if k != 0 {
      UsedStays(d, all, n, k - 1, ref);
      RecordKeepsUsed(Applied(d, all, n, k - 1), all[k - 1], TransactionIndex(n, k - 1), ref);
    }
  }

  lemma RecordKeepsUsed(d: Derived, tx: Transaction, at: TransactionIndex, ref: (nat, nat))
    requires InRange(d.multisigs, ref) && !Unused(d.multisigs, ref)
    ensures var m := Record(d, tx, at).multisigs; InRange(m, ref) && !Unused(m, ref)
  {
    hide Mark, MultisigRefs;
    var marked := Mark(d.multisigs, MultisigRefs(tx.inputs), true);
    MarkedAt(d.multisigs, MultisigRefs(tx.inputs), true, ref.0, ref.1);
    MultisigOutputsGrow(marked, tx.outputs, at, |tx.outputs|);
    assert ref.0 in marked && marked[ref.0] <= AddMultisigOutputs(marked, tx.outputs, at, |tx.outputs|)[ref.0];
  }

  /** Outside the checkpoint zone only unspent outputs are touched. */
  lemma {:induction false} TouchedInTurnOutside(rules: Rules, delays: nat -> nat, c: nat, s: State, bs: seq<Block>)
    requires Steady(s) && DefinedInTurn(rules, delays, c, s, bs) && forall k | |s.blocks| <= k :: !rules.inZone(k)
    ensures UnspentIn(s.d.multisigs, TouchedInTurn(rules, delays, c, s, bs))
    decreases |bs|
  {
    hide Steady, PushBlock, Defined, Touched, Applied;
    if bs != [] {
      var now := s.now + delays(c);
      TouchedOutside(rules, now, s, bs[0]);
      var (s1, ok1) := PushBlock(rules, now, s, bs[0]);
      if ok1 {
        AcceptedIsSteady(rules, now, s, bs[0], {});
        PushedState(rules, now, s, bs[0]);
        TouchedInTurnOutside(rules, delays, c + 1, s1, bs[1..]);
        var more := TouchedInTurn(rules, delays, c + 1, s1, bs[1..]);
        forall ref | ref in more && InRange(s.d.multisigs, ref) ensures Unused(s.d.multisigs, ref) {
          if !Unused(s.d.multisigs, ref) {
            UsedStays(s.d, BlockTxs(bs[0]), |s.blocks|, |BlockTxs(bs[0])|, ref);
          }
        }
      }
    }
  }

  ghost predicate AllCountable(bs: seq<Block>) {
    forall k | 0 <= k < |bs| :: NamesTransactions(bs[k]) ==> Countable(bs[k])
  }

  lemma {:induction false} DefinedOutside(rules: Rules, delays: nat -> nat, c: nat, s: State, bs: seq<Block>)
    requires AllCountable(bs) && forall k | |s.blocks| <= k :: !rules.inZone(k)
    ensures DefinedInTurn(rules, delays, c, s, bs)
    decreases |bs|
  {
    hide PushBlock, Countable;
    if bs != [] {
      var now := s.now + delays(c);
      var (s1, ok1) := PushBlock(rules, now, s, bs[0]);
      if ok1 {
        PushedState(rules, now, s, bs[0]);
        DefinedOutside(rules, delays, c + 1, s1, bs[1..]);
      }
    }
  }

  /** Outside the checkpoint zone a switch is all or nothing if and only if no alternative block that gets its turn
      fails for its size or by an exception. */
  lemma SwitchOutsideZone(rules: Rules, delays: nat -> nat, s: State, alt: seq<Block>, split: nat)
    requires Good(rules, s) && Proceeds(s, alt, split, true)
    requires AllCountable(alt) && forall k | split <= k :: !rules.inZone(k)
    ensures SwitchDefined(rules, delays, s, alt, split, true) && PopTo(s, split) == Below(s, split)
    ensures var (s', ok) := Switch(rules, delays, s, alt, split, true);
      AllOrNothing(s, alt, split, s', ok) <==>
        !FailsInTurn(rules, delays, 0, Below(s, split), alt) && !ThrownInTurn(rules, delays, 0, Below(s, split), alt)
  {
    hide Good, Steady, PopTo, PushAll, Covers, Below, DefinedInTurn, FailsInTurn, ThrownInTurn, Released, Bodies,
         AllCountable, UnspentIn, Undoable, AllOrNothing;
    var p := PopTo(s, split);
    UndoableOutsideZone(rules, s, split);
    PoppedIsSteady(rules, s, split);
    DefinedOutside(rules, delays, 0, p, alt);
    SwitchAllOrNothing(rules, delays, s, alt, split, true);
    if !FailsInTurn(rules, delays, 0, p, alt)
      && !ThrownInTurn(rules, delays, 0, p, alt) { UnspentOutside(rules, delays, s, alt, split); }
  }

  lemma {:induction false} PushAllNow(rules: Rules, delays: nat -> nat, c: nat, s: State, bs: seq<Block>)
    ensures s.now <= PushAll(rules, delays, c, s, bs).0.now
    decreases |bs|
  {
    hide PushBlock;
    if bs != [] {
      PushNow(rules, s.now + delays(c), s, bs[0]);
      PushAllNow(rules, delays, c + 1, PushBlock(rules, s.now + delays(c), s, bs[0]).0, bs[1..]);
    }
  }

  /** Each block with its transactions respects the size limit of the height it is meant for. */
  ghost predicate WithinLimits(rules: Rules, h: nat, bs: seq<Block>) {
    forall k | 0 <= k < |bs| ::
      NamesTransactions(bs[k]) ==> SizeSum(BlockTxs(bs[k]), |BlockTxs(bs[k])|) <= rules.maxSize(h + k)
  }

  lemma LimitsOfRest(rules: Rules, h: nat, bs: seq<Block>)
    requires WithinLimits(rules, h, bs) && bs != []
    ensures WithinLimits(rules, h + 1, bs[1..])
  {
    hide SizeSum, BlockTxs;
    forall k | 0 <= k < |bs[1..]| && NamesTransactions(bs[1..][k])
      ensures SizeSum(BlockTxs(bs[1..][k]), |BlockTxs(bs[1..][k])|) <= rules.maxSize(h + 1 + k)
    {
      assert bs[1..][k] == bs[k + 1];
    }
  }

  lemma {:induction false} WithinLimitsFits(rules: Rules, delays: nat -> nat, c: nat, s: State, bs: seq<Block>)
    requires WithinLimits(rules, |s.blocks|, bs)
    ensures !FailsInTurn(rules, delays, c, s, bs)
    decreases |bs|
  {
    hide PushBlock, SizeSum, HeaderOk, BodyOk, CanLoad, BlockTxs;
    if bs != [] {
      var now := s.now + delays(c);
      var (s1, ok1) := PushBlock(rules, now, s, bs[0]);
      if CanLoad(s.pool, bs[0]) { LoadNames(s.pool, bs[0]); }
      if ok1 {
        PushedState(rules, now, s, bs[0]);
        LimitsOfRest(rules, |s.blocks|, bs);
        WithinLimitsFits(rules, delays, c + 1, s1, bs[1..]);
      }
    }
  }

  /** All multisignature outputs that the blocks name. */
  function RefsOf(bs: seq<Block>): set<(nat, nat)> {
    if bs == [] then {}
    else (if NamesTransactions(bs[0]) then Refs(BlockTxs(bs[0]), |BlockTxs(bs[0])|) else {}) + RefsOf(bs[1..])
  }

  lemma {:induction false} RefsGrow(all: seq<Transaction>, j: nat, k: nat)
    requires j <= k <= |all|
    ensures Refs(all, j) <= Refs(all, k)
    decreases k - j
  {
    if j < k { RefsGrow(all, j, k - 1); }
  }

  lemma {:induction false} TouchedIsNamed(rules: Rules, delays: nat -> nat, c: nat, s: State, bs: seq<Block>)
    ensures TouchedInTurn(rules, delays, c, s, bs) <= RefsOf(bs)
    decreases |bs|
  {
    hide PushBlock, HeaderOk, CanLoad, BlockTxs, Refs, FirstBad;
    if bs != [] {
      var now := s.now + delays(c);
      if CanLoad(s.pool, bs[0]) {
        LoadNames(s.pool, bs[0]);
        var all := BlockTxs(bs[0]);
        RefsGrow(all, FirstBad(rules, s.blocks, s.d, all, 1), |all|);
      }
      TouchedIsNamed(rules, delays, c + 1, PushBlock(rules, now, s, bs[0]).0, bs[1..]);
    }
  }

  /** Outside the checkpoint zone the blocks, meant for the heights from `h` on, name only outputs that `d` holds. */
  ghost predicate AllBackward(rules: Rules, d: Derived, h: nat, bs: seq<Block>) {
    forall k, j | 0 <= k < |bs| && NamesTransactions(bs[k]) && 1 <= j < |BlockTxs(bs[k])| ::
      rules.inZone(h + k) || Backward(d, BlockTxs(bs[k])[j])
  }

  lemma BackwardIsNotThrown(rules: Rules, now: nat, s: State, b: Block, root: seq<BlockEntry>, d: Derived)
    requires root <= s.blocks && Placed(d, root) && KeepsOutputs(d, s.d) && NamesTransactions(b)
    requires forall j | 1 <= j < |BlockTxs(b)| :: rules.inZone(|s.blocks|) || Backward(d, BlockTxs(b)[j])
    ensures !IsThrown(rules, now, s, b)
  {
    hide Placed, KeepsOutputs, Backward, Applied, BlockTxs, HeaderOk, CanLoad, FirstBad;
    var all := BlockTxs(b);
    var k := FirstBad(rules, s.blocks, s.d, all, 1);
    if k < |all| {
      AppliedKeepsOutputs(d, s.d, all, |s.blocks|, k);
      HeldInputs(rules, root, d, s.blocks, Applied(s.d, all, |s.blocks|, k), all[k], 0);
    }
  }

  lemma BackwardRest(rules: Rules, d: Derived, h: nat, bs: seq<Block>)
    requires AllBackward(rules, d, h, bs) && bs != []
    ensures AllBackward(rules, d, h + 1, bs[1..])
  {
    hide Backward, BlockTxs;
    forall k, j | 0 <= k < |bs[1..]| && NamesTransactions(bs[1..][k]) && 1 <= j < |BlockTxs(bs[1..][k])|
      ensures rules.inZone(h + 1 + k) || Backward(d, BlockTxs(bs[1..][k])[j])
    {
      assert bs[1..][k] == bs[k + 1];
    }
  }

  lemma {:induction false} BackwardNeverThrown(
    rules: Rules, delays: nat -> nat, c: nat, s: State, bs: seq<Block>, root: seq<BlockEntry>, d: Derived)
    requires root <= s.blocks && Placed(d, root) && KeepsOutputs(d, s.d) && AllBackward(rules, d, |s.blocks|, bs)
    ensures !ThrownInTurn(rules, delays, c, s, bs)
    decreases |bs|
  {
    hide PushBlock, Placed, KeepsOutputs, Backward, BlockTxs, CanLoad, Applied, Judge;
    if bs != [] {
      var now := s.now + delays(c);
      var (s1, ok1) := PushBlock(rules, now, s, bs[0]);
      if CanLoad(s.pool, bs[0]) {
        LoadNames(s.pool, bs[0]);
        BackwardIsNotThrown(rules, now, s, bs[0], root, d);
      }
      if ok1 {
        PushExtends(rules, now, s, bs[0]);
        PushedState(rules, now, s, bs[0]);
        AppliedKeepsOutputs(d, s.d, BlockTxs(bs[0]), |s.blocks|, |BlockTxs(bs[0])|);
        BackwardRest(rules, d, |s.blocks|, bs);
        assert root <= s1.blocks[..|s.blocks|];
        BackwardNeverThrown(rules, delays, c + 1, s1, bs[1..], root, d);
      }
    }
  }

  /** A condition that can be checked before the switch, inside the checkpoint zone and outside: the alternative
      blocks respect the size limits, outside the zone they name only outputs of the blocks below the split, and what
      they spend is unspent, or spent by the blocks they replace. */
  lemma SwitchWithinLimits(rules: Rules, delays: nat -> nat, s: State, alt: seq<Block>, split: nat, plausible: bool)
    requires Good(rules, s) && SwitchDefined(rules, delays, s, alt, split, plausible) && split <= |s.blocks|
    requires WithinLimits(rules, split, alt) && AllBackward(rules, Below(s, split).d, split, alt)
    requires UnspentIn(s.d.multisigs, RefsOf(alt) - RefsFrom(s.blocks, split)) || forall k | split <= k ::
             !rules.inZone(k)
    ensures var (s', ok) := Switch(rules, delays, s, alt, split, plausible); AllOrNothing(s, alt, split, s', ok)
  {
    hide Good, PopTo, PushAll, Covers, DefinedInTurn, FailsInTurn, ThrownInTurn, TouchedInTurn, RefsFrom, Bodies,
         WithinLimits, RefsOf, AllBackward, Steady, Below, Clear, KeepsOutputs, Placed;
    SwitchAllOrNothing(rules, delays, s, alt, split, plausible);
    if Proceeds(s, alt, split, plausible) {
      var p := PopTo(s, split);
      PopToBlocks(s, split);
      PoppedIsSteady(rules, s, split);
      NoneThrown(rules, delays, s, alt, split);
      WithinLimitsFits(rules, delays, 0, p, alt);
      TouchedIsNamed(rules, delays, 0, p, alt);
      if forall k | split <= k :: !rules.inZone(k) { UnspentOutside(rules, delays, s, alt, split); }
    }
  }

  lemma NoneThrown(rules: Rules, delays: nat -> nat, s: State, alt: seq<Block>, split: nat)
    requires Good(rules, s) && split <= |s.blocks| && AllBackward(rules, Below(s, split).d, split, alt)
    ensures !ThrownInTurn(rules, delays, 0, PopTo(s, split), alt)
  {
    hide Good, PopTo, ThrownInTurn, RefsFrom, AllBackward, Below, Clear, KeepsOutputs, Placed, IndexesOf, WellFormed,
         HeightsBelow, PoolOk;
    PoppedIsSteady(rules, s, split);
    GoodBelow(rules, s, split);
    GoodIsSteady(rules, Below(s, split));
    ClearKeepsOutputs(Below(s, split).d, RefsFrom(s.blocks, split));
    BackwardNeverThrown(rules, delays, 0, PopTo(s, split), alt, s.blocks[..split], Below(s, split).d);
  }

  lemma UnspentOutside(rules: Rules, delays: nat -> nat, s: State, alt: seq<Block>, split: nat)
    requires Good(rules, s) && Proceeds(s, alt, split, true) && SwitchDefined(rules, delays, s, alt, split, true)
    requires !FailsInTurn(rules, delays, 0, PopTo(s, split), alt)
             && !ThrownInTurn(rules, delays, 0, PopTo(s, split), alt)
    requires forall k | split <= k :: !rules.inZone(k)
    ensures Restores(rules, delays, s, alt, split, true)
  {
    hide Good, Steady, PopTo, PushAll, Covers, Below, DefinedInTurn, FailsInTurn, ThrownInTurn, TouchedInTurn,
         RefsFrom, Bodies, UnspentIn, Clear;
    var p := PopTo(s, split);
    UndoableOutsideZone(rules, s, split);
    PoppedIsSteady(rules, s, split);
    TouchedInTurnOutside(rules, delays, 0, p, alt);
    PopToUndoesPushAll(rules, delays, 0, p, alt);
    var (s2, ok) := PushAll(rules, delays, 0, p, alt);
    SwitchResult(rules, delays, s, alt, split);
    if !ok {
      PushAllNow(rules, delays, 0, p, alt);
      PushAllUndoesPopTo(rules, delays, |alt|, s, split, s2.now);
      var s' := Switch(rules, delays, s, alt, split, true).0;
      ClearedIsState(s.(now := s'.now), Released(rules, delays, s, alt, split));
    }
  }

  // ---------------------------------------------------------------------------------------------
  // The invariant after a switch

  /** The clock only matters for the header. */
  lemma JudgedAnyTime(rules: Rules, now: nat, now': nat, blocks: seq<BlockEntry>, d: Derived, b: Block, e: BlockEntry)
    requires NamesTransactions(b) && Judge(rules, now, blocks, d, b) == Accepted(e) && HeaderOk(rules, now', blocks, b)
    ensures Judge(rules, now', blocks, d, b) == Accepted(e)
  {
    hide HeaderOk, BodyOk, Emission, SizeSum, NewEntry, FirstBad;
  }

  lemma DefinedCleared(rules: Rules, now: nat, s: State, b: Block, refs: set<(nat, nat)>)
    requires Steady(s) && Defined(rules, Cleared(s, refs), b) && CanLoad(s.pool, b) && HeaderOk(rules, now, s.blocks, b)
    ensures Defined(rules, s, b)
  {
    hide Applied, BodyOk, HeaderOk, Clear, Refs, WellFormed, HeightsBelow, Semantic, IndexesOf, Countable,
         MultisigRefs;
    LoadedIsNew(rules, now, s, b);
    var all := BlockTxs(b);
    forall j, ref | rules.inZone(|s.blocks|) && 1 <= j < |all| && BodyOk(rules, s.blocks, s.d, all, j + 1)
      && ref in MultisigRefs(all[j].inputs)
      ensures InRange(Applied(s.d, all, |s.blocks|, j).multisigs, ref)
    {
      BodyOkCleared(rules, s.blocks, s.d, refs, all, j + 1);
      AppliedCleared(s.d, refs, all, |s.blocks|, j);
      ClearKeepsRange(Applied(s.d, all, |s.blocks|, j), refs - Refs(all, j), ref);
    }
  }

  lemma ClearKeepsRange(d: Derived, refs: set<(nat, nat)>, ref: (nat, nat))
    ensures InRange(Clear(d, refs).multisigs, ref) <==> InRange(d.multisigs, ref)
  {
    hide Mark;
    MarkedKeys(d.multisigs, refs, false);
    if ref.0 in d.multisigs { MarkedAt(d.multisigs, refs, false, ref.0, ref.1); }
  }

  lemma AcceptedLoads(rules: Rules, now: nat, s: State, b: Block)
    requires PushBlock(rules, now, s, b).1
    ensures CanLoad(s.pool, b) && HeaderOk(rules, now, s.blocks, b)
  {
    hide Applied, HeaderOk, BodyOk, Emission, SizeSum, FirstBad, Undone, AddIndexes;
  }

  /** Blocks that are accepted on a good state keep it good. */
  lemma {:induction false} PushAllKeepsGood(
    rules: Rules, delays: nat -> nat, c: nat, s: State, bs: seq<Block>, refs: set<(nat, nat)>)
    requires Good(rules, s) && DefinedInTurn(rules, delays, c, Cleared(s, refs), bs)
             && PushAll(rules, delays, c, s, bs).1
    ensures Good(rules, PushAll(rules, delays, c, s, bs).0) && DefinedInTurn(rules, delays, c, s, bs)
    decreases |bs|
  {
    hide Good, Steady, PushBlock, Defined, Clear, Refs, BlockTxs, Harmless, CanLoad, HeaderOk;
    if bs != [] {
      var now := s.now + delays(c);
      GoodIsSteady(rules, s);
      AcceptedLoads(rules, now, s, bs[0]);
      DefinedCleared(rules, now, s, bs[0], refs);
      PushKeepsGood(rules, now, s, bs[0]);
      PushCleared(rules, now, s, bs[0], refs);
      PushAllKeepsGood(rules, delays, c + 1, PushBlock(rules, now, s, bs[0]).0, bs[1..],
                       refs - Refs(BlockTxs(bs[0]), |BlockTxs(bs[0])|));
    }
  }

  lemma {:induction false} PushAllExtends(rules: Rules, delays: nat -> nat, c: nat, s: State, bs: seq<Block>)
    requires PushAll(rules, delays, c, s, bs).1
    ensures var s' := PushAll(rules, delays, c, s, bs).0;
      |s.blocks| <= |s'.blocks| && s'.blocks[..|s.blocks|] == s.blocks && s'.d.indexed == s.d.indexed
    decreases |bs|
  {
    hide PushBlock, Judge;
    if bs != [] {
      var now := s.now + delays(c);
      var s1 := PushBlock(rules, now, s, bs[0]).0;
      PushExtends(rules, now, s, bs[0]);
      PushAllExtends(rules, delays, c + 1, s1, bs[1..]);
      var s' := PushAll(rules, delays, c, s, bs).0;
      assert s'.blocks[..|s.blocks|] == s'.blocks[..|s1.blocks|][..|s.blocks|];
    }
  }

  lemma PushExtends(rules: Rules, now: nat, s: State, b: Block)
    requires PushBlock(rules, now, s, b).1
    ensures var s' := PushBlock(rules, now, s, b).0;
      && NamesTransactions(b) && s'.d.indexed == s.d.indexed && |s'.blocks| == |s.blocks| + 1
      && s'.blocks[..|s.blocks|] == s.blocks
      && Judge(rules, now, s.blocks, s.d, b) == Accepted(s'.blocks[|s.blocks|]) && s'.blocks[|s.blocks|].bl == b
  {
    hide Applied, Judge, AddIndexes;
    AppliedIndexed(s.d, BlockTxs(b), |s.blocks|, |BlockTxs(b)|);
    AcceptedEntry(rules, now, s.blocks, s.d, b, Judge(rules, now, s.blocks, s.d, b).entry);
  }

  /** If blocks pushed on cleared flags lead to a good state, they would have been accepted without the clearing. */
  lemma {:induction false} GoodAccepts(
    rules: Rules, delays: nat -> nat, c: nat, s: State, bs: seq<Block>, refs: set<(nat, nat)>)
    requires Good(rules, s) && DefinedInTurn(rules, delays, c, Cleared(s, refs), bs)
    requires PushAll(rules, delays, c, Cleared(s, refs), bs).1
             && Good(rules, PushAll(rules, delays, c, Cleared(s, refs), bs).0)
    ensures PushAll(rules, delays, c, s, bs).1
    decreases |bs|
  {
    hide Good, Steady, PushBlock, Defined, Clear, Refs, BlockTxs, Harmless, CanLoad, HeaderOk, Judge;
    if bs != [] {
      var now, u := s.now + delays(c), Cleared(s, refs);
      var t := PushAll(rules, delays, c, u, bs).0;
      var u1 := PushBlock(rules, now, u, bs[0]).0;
      PushExtends(rules, now, u, bs[0]);
      PushAllExtends(rules, delays, c + 1, u1, bs[1..]);
      AcceptedLoads(rules, now, u, bs[0]);
      GoodIsSteady(rules, s);
      ClearIndexed(s.d, refs);
      assert t.blocks[..|u1.blocks|][|s.blocks|] == t.blocks[|s.blocks|];
      assert t.blocks[..|u1.blocks|][..|s.blocks|] == t.blocks[..|s.blocks|];
      AcceptedOnRebuild(rules, now, s, t, bs[0]);
      DefinedCleared(rules, now, s, bs[0], refs);
      PushKeepsGood(rules, now, s, bs[0]);
      PushCleared(rules, now, s, bs[0], refs);
      GoodAccepts(rules, delays, c + 1, PushBlock(rules, now, s, bs[0]).0, bs[1..],
                  refs - Refs(BlockTxs(bs[0]), |BlockTxs(bs[0])|));
    }
  }

  lemma AcceptedOnRebuild(rules: Rules, now: nat, s: State, t: State, b: Block)
    requires Good(rules, s) && Good(rules, t) && |s.blocks| < |t.blocks| && t.blocks[..|s.blocks|] == s.blocks
    requires t.d.indexed == s.d.indexed && t.blocks[|s.blocks|].bl == b && CanLoad(s.pool, b)
             && HeaderOk(rules, now, s.blocks, b)
    ensures PushBlock(rules, now, s, b).1
  {
    hide Rebuild, IndexesOf, Judge, HeaderOk, Applied, AddIndexes, Semantic, NewTransactions, ReferencesExist,
         Countable, Undone;
    var n := |s.blocks|;
    assert EntryOk(rules, t.now, t.d.indexed, t.blocks[..n], t.blocks[n]);
    JudgedAnyTime(rules, t.now, now, s.blocks, s.d, b, t.blocks[n]);
  }

  // The alternative chain contains the transactions of the blocks it replaces, so it spends what they spent.

  lemma {:induction false} RefIn(all: seq<Transaction>, k: nat, ref: (nat, nat)) returns (j: nat)
    requires k <= |all| && ref in Refs(all, k)
    ensures j < k && ref in MultisigRefs(all[j].inputs)
  {
    if ref in MultisigRefs(all[k - 1].inputs) { j := k - 1; } else { j := RefIn(all, k - 1, ref); }
  }

  lemma {:induction false} RefOfTransaction(all: seq<Transaction>, k: nat, j: nat)
    requires j < k <= |all|
    ensures MultisigRefs(all[j].inputs) <= Refs(all, k)
  {
    if j < k - 1 { RefOfTransaction(all, k - 1, j); }
  }

  lemma {:induction false} RefInBlock(blocks: seq<BlockEntry>, h: nat, ref: (nat, nat)) returns (i: nat)
    requires ref in RefsFrom(blocks, h)
    ensures h <= i < |blocks| && ref in Refs(AllTxs(blocks[i]), |AllTxs(blocks[i])|)
    decreases |blocks|
  {
    hide Refs;
    var n := |blocks| - 1;
    if ref in Refs(AllTxs(blocks[n]), |AllTxs(blocks[n])|) { i := n; } else { i := RefInBlock(blocks[..n], h, ref); }
  }

  lemma {:induction false} RefOfBlock(blocks: seq<BlockEntry>, h: nat, i: nat)
    requires h <= i < |blocks|
    ensures Refs(AllTxs(blocks[i]), |AllTxs(blocks[i])|) <= RefsFrom(blocks, h)
    decreases |blocks|
  {
    hide Refs;
    var n := |blocks| - 1;
    if i < n { RefOfBlock(blocks[..n], h, i); }
  }

  lemma EntryShape(rules: Rules, s: State, i: nat)
    requires Good(rules, s) && i < |s.blocks|
    ensures var e := s.blocks[i];
      NamesTransactions(e.bl) && AllTxs(e) == BlockTxs(e.bl) && MultisigRefs(BlockTxs(e.bl)[0].inputs) == {}
  {
    hide Rebuild, IndexesOf, Judge, Semantic, NewTransactions, ReferencesExist, Countable, BodyOk, BlockTxs;
    var e := s.blocks[i];
    assert EntryOk(rules, s.now, s.d.indexed, s.blocks[..i], e);
    AcceptedEntry(rules, s.now, s.blocks[..i], Rebuild(s.d.indexed, s.blocks[..i]), e.bl, e);
  }

  lemma CoveredRefs(rules: Rules, s: State, t: State, alt: seq<Block>, split: nat)
    requires Good(rules, s) && Good(rules, t) && split <= |s.blocks| && split <= |t.blocks|
    requires Covers(s.blocks[split..], alt) && Bodies(t.blocks[split..]) == alt
    ensures RefsFrom(s.blocks, split) <= RefsFrom(t.blocks, split)
  {
    hide Good, RefsFrom, Refs, MultisigRefs, AllTxs;
    forall ref | ref in RefsFrom(s.blocks, split) ensures ref in RefsFrom(t.blocks, split) {
      var i := RefInBlock(s.blocks, split, ref);
      EntryShape(rules, s, i);
      var txs := BlockTxs(s.blocks[i].bl);
      var j := RefIn(txs, |txs|, ref);
      assert s.blocks[split..][i - split] == s.blocks[i];
      var h := s.blocks[split..][i - split].bl.transactionHashes[j - 1];
      assert Contains(alt, h);
      var k :| 0 <= k < |alt| && h in alt[k].transactionHashes;
      assert alt[k] == t.blocks[split + k].bl;
      EntryShape(rules, t, split + k);
      var m :| 0 <= m < |alt[k].transactionHashes| && alt[k].transactionHashes[m] == h;
      var alts := BlockTxs(alt[k]);
      assert alts[m + 1] == txs[j];
      RefOfTransaction(alts, |alts|, m + 1);
      RefOfBlock(t.blocks, split, split + k);
    }
  }

  /** If no alternative block fails for its size or by an exception, the invariant holds after a successful switch if
      and only if the alternative blocks would have been accepted on the rebuilt state, and after a failed one if and
      only if the old state is restored. */
  lemma SwitchKeepsGood(rules: Rules, delays: nat -> nat, s: State, alt: seq<Block>, split: nat)
    requires Good(rules, s) && Proceeds(s, alt, split, true) && SwitchDefined(rules, delays, s, alt, split, true)
    requires !FailsInTurn(rules, delays, 0, PopTo(s, split), alt)
             && !ThrownInTurn(rules, delays, 0, PopTo(s, split), alt)
    ensures var (s', ok) := Switch(rules, delays, s, alt, split, true);
      Good(rules, s') <==>
        if ok then PushAll(rules, delays, 0, Below(s, split), alt).1
        else UnspentIn(s.d.multisigs, Released(rules, delays, s, alt, split))
  {
    hide Good, Steady, PopTo, PushAll, Covers, Below, Clear, DefinedInTurn, FailsInTurn, ThrownInTurn, RefsFrom,
         Bodies, Released, UnspentIn;
    var (s', ok) := Switch(rules, delays, s, alt, split, true);
    SwitchResult(rules, delays, s, alt, split);
    if ok {
      var g, spent := Below(s, split), RefsFrom(s.blocks, split);
      PoppedIsSteady(rules, s, split);
      GoodBelow(rules, s, split);
      if Good(rules, s') {
        GoodAccepts(rules, delays, 0, g, alt, spent);
      }
      if PushAll(rules, delays, 0, g, alt).1 {
        PushAllKeepsGood(rules, delays, 0, g, alt, spent);
        GoodIsSteady(rules, g);
        PushAllCleared(rules, delays, 0, g, alt, spent);
        var t := PushAll(rules, delays, 0, g, alt).0;
        CoveredRefs(rules, s, t, alt, split);
        assert spent - RefsFrom(t.blocks, split) == {};
        ClearedIsState(t, {});
      }
    } else {
      var released := Released(rules, delays, s, alt, split);
      WaitKeepsGood(rules, s, s'.now);
      ClearedIsState(s.(now := s'.now), released);
      ClearedRebuild(rules, s.(now := s'.now), released);
    }
  }

  /** What a switch needs to keep the invariant and be all or nothing. */
  ghost predicate SwitchFits(rules: Rules, delays: nat -> nat, s: State, alt: seq<Block>, split: nat, plausible: bool) {
    Proceeds(s, alt, split, plausible) ==>
      var p := PopTo(s, split);
      && DefinedInTurn(rules, delays, 0, p, alt)
      && !FailsInTurn(rules, delays, 0, p, alt) && !ThrownInTurn(rules, delays, 0, p, alt)
      && if PushAll(rules, delays, 0, p, alt).1 then PushAll(rules, delays, 0, Below(s, split), alt).1
         else UnspentIn(s.d.multisigs, Released(rules, delays, s, alt, split))
  }

  /** And it is exactly that. */
  lemma SwitchIsExact(rules: Rules, delays: nat -> nat, s: State, alt: seq<Block>, split: nat, plausible: bool)
    requires Good(rules, s) && SwitchDefined(rules, delays, s, alt, split, plausible)
    ensures var (s', ok) := Switch(rules, delays, s, alt, split, plausible);
      && s.now <= s'.now
      && (Good(rules, s') && AllOrNothing(s, alt, split, s', ok) <==> SwitchFits(rules, delays, s, alt, split, plausible))
  {
    hide Good, PopTo, PushAll, Covers, DefinedInTurn, FailsInTurn, ThrownInTurn, Released, UnspentIn, Bodies, Below;
    SwitchAllOrNothing(rules, delays, s, alt, split, plausible);
    if Proceeds(s, alt, split, plausible)
       && !FailsInTurn(rules, delays, 0, PopTo(s, split), alt)
       && !ThrownInTurn(rules, delays, 0, PopTo(s, split), alt) {
      SwitchKeepsGood(rules, delays, s, alt, split);
      SwitchResult(rules, delays, s, alt, split);
    }
  }
}
