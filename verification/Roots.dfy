/** Runs whose transactions name only outputs of blocks that the run never removes. Whatever fails on the way, these
    outputs stay where they are, so no input check throws or indexes past the transactions of a block. */
module Roots {
  import opened ChainTypes
  import opened DerivedState
  import opened Rules
  import opened Ledger
  import opened Places
  import opened Steps
  import opened Reorganisation
  import opened Switching
  import opened Definedness
  import opened Conservation
  import opened Leftovers

  // ---------------------------------------------------------------------------------------------
  // Outputs stay where they are

  lemma {:induction false} RemoveKeyKeeps(
    m0: map<nat, seq<OutputRef>>, m: map<nat, seq<OutputRef>>, outs: seq<Output>, at: TransactionIndex, k: nat)
    requires k <= |outs| && NoEmptyVector(m0) && forall a | a in m0 :: a in m && m0[a] <= m[a]
    requires forall a, i | a in m0 && 0 <= i < |m0[a]| :: m0[a][i].at != at
    ensures var m' := RemoveKeyOutputs(m, outs, at, k); forall a | a in m0 :: a in m' && m0[a] <= m'[a]
    decreases k
  {
    if k != 0 {
      var m' := RemoveKeyOutput(m, outs[k - 1], at, k - 1);
      forall a | a in m0 ensures a in m' && m0[a] <= m'[a] {
        if a == outs[k - 1].amount && |m0[a]| == |m[a]| { assert m[a][|m[a]| - 1] == m0[a][|m[a]| - 1]; }
      }
      RemoveKeyKeeps(m0, m', outs, at, k - 1);
    }
  }

  lemma {:induction false} RemoveMultisigKeeps(
    m0: map<nat, seq<MultisigUsage>>, m: map<nat, seq<MultisigUsage>>, outs: seq<Output>, at: TransactionIndex, k: nat)
    requires k <= |outs| && NoEmptyVector(m0) && KeepsUsages(m0, m)
    requires forall a, i | a in m0 && 0 <= i < |m0[a]| :: m0[a][i].at != at
    ensures KeepsUsages(m0, RemoveMultisigOutputs(m, outs, at, k))
    decreases k
  {
    if k != 0 {
      var m' := RemoveMultisigOutput(m, outs[k - 1], at, k - 1);
      forall a | a in m0 ensures a in m' && |m0[a]| <= |m'[a]| {
        if a == outs[k - 1].amount && |m0[a]| == |m[a]| { assert SameOutput(m[a][|m[a]| - 1], m0[a][|m[a]| - 1]); }
      }
      RemoveMultisigKeeps(m0, m', outs, at, k - 1);
    }
  }

  /** The transactions that are recorded, other than those in `base`, are of heights from `low` on. */
  ghost predicate RecordedFrom(d: Derived, base: set<Hash>, low: nat) {
    forall h | h in d.transactions && h !in base :: low <= d.transactions[h].block
  }

  lemma UnapplyKeepsOutputs(root: seq<BlockEntry>, d0: Derived, d: Derived, base: set<Hash>, tx: Transaction)
    requires Placed(d0, root) && WellFormed(d0) && KeepsOutputs(d0, d) && RecordedFrom(d, base, |root|)
             && OfTransaction(tx) !in base
    ensures KeepsOutputs(d0, Unapply(d, tx)) && RecordedFrom(Unapply(d, tx), base, |root|)
  {
    hide Mark, MultisigRefs, KeyImages, RemoveKeyOutputs, RemoveMultisigOutputs;
    if OfTransaction(tx) in d.transactions {
      var at, refs := d.transactions[OfTransaction(tx)], MultisigRefs(tx.inputs);
      var n := |tx.outputs|;
      RemoveKeyKeeps(d0.outputs, d.outputs, tx.outputs, at, n);
      forall a, i | a in d0.multisigs && 0 <= i < |d0.multisigs[a]| ensures d0.multisigs[a][i].at != at {
        assert HoldsMultisig(root, d0.multisigs[a][i]);
      }
      RemoveMultisigKeeps(d0.multisigs, d.multisigs, tx.outputs, at, n);
      var m := RemoveMultisigOutputs(d.multisigs, tx.outputs, at, n);
      MarkedKeys(m, refs, false);
      var d' := Unapply(d, tx);
      forall a | a in d0.multisigs
        ensures a in d'.multisigs && |d0.multisigs[a]| <= |d'.multisigs[a]|
        ensures forall i | 0 <= i < |d0.multisigs[a]| :: SameOutput(d'.multisigs[a][i], d0.multisigs[a][i])
      {
        MarkedAt(m, refs, false, a, 0);
        forall i | 0 <= i < |d0.multisigs[a]| ensures SameOutput(d'.multisigs[a][i], d0.multisigs[a][i]) {
          assert SameOutput(m[a][i], d0.multisigs[a][i]);
          MarkedAt(m, refs, false, a, i);
        }
      }
    }
  }

  lemma {:induction false} UnappliedKeepsOutputs(
    root: seq<BlockEntry>, d0: Derived, d: Derived, base: set<Hash>, all: seq<Transaction>, k: nat)
    requires k <= |all| && Placed(d0, root) && WellFormed(d0) && KeepsOutputs(d0, d) && RecordedFrom(d, base, |root|)
    requires forall i | 0 <= i < k :: OfTransaction(all[i]) !in base
    ensures KeepsOutputs(d0, Unapplied(d, all, k)) && RecordedFrom(Unapplied(d, all, k), base, |root|)
    decreases k
  {
    hide Placed, WellFormed, KeepsOutputs, RecordedFrom, Unapply;
    if k != 0 {
      UnapplyKeepsOutputs(root, d0, d, base, all[k - 1]);
      UnappliedKeepsOutputs(root, d0, Unapply(d, all[k - 1]), base, all, k - 1);
    }
  }

  lemma {:induction false} AppliedFrom(d: Derived, base: set<Hash>, low: nat, all: seq<Transaction>, n: nat, k: nat)
    requires k <= |all| && low <= n && RecordedFrom(d, base, low)
    ensures RecordedFrom(Applied(d, all, n, k), base, low)
  {
    hide Apply;
    if k != 0 {
      AppliedFrom(d, base, low, all, n, k - 1);
      var before := Applied(d, all, n, k - 1);
      if OfTransaction(all[k - 1]) !in before.transactions { ApplyRecords(before, all[k - 1], TransactionIndex(n, k - 1)); }
    }
  }

  // ---------------------------------------------------------------------------------------------
  // States

  /** The outputs that `d0` holds, all of the blocks in `root`, are still at their indexes, and the blocks above name no
      others. */
  ghost predicate Rooted(root: seq<BlockEntry>, d0: Derived, base: set<Hash>, s: State) {
    && root <= s.blocks && WellFormed(d0) && Placed(d0, root) && KeepsOutputs(d0, s.d)
    && RecordedFrom(s.d, base, |root|)
    && forall k, tx | |root| <= k < |s.blocks| && tx in AllTxs(s.blocks[k]) :: Backward(d0, tx)
  }

  ghost predicate BlockBackward(d0: Derived, b: Block) {
    NamesTransactions(b) ==> forall j | 1 <= j < |BlockTxs(b)| :: Backward(d0, BlockTxs(b)[j])
  }

  lemma BackwardInside(rules: Rules, root: seq<BlockEntry>, d0: Derived, s: State, all: seq<Transaction>)
    requires root <= s.blocks && Placed(d0, root) && KeepsOutputs(d0, s.d)
             && forall j | 1 <= j < |all| :: Backward(d0, all[j])
    ensures ChecksInside(rules, s.blocks, s.d, all)
  {
    hide Applied, Placed, KeepsOutputs, Backward, BodyOk, InputsInside;
    forall j | 1 <= j < |all| && BodyOk(rules, s.blocks, s.d, all, j)
      ensures InputsInside(rules, s.blocks, Applied(s.d, all, |s.blocks|, j), all[j], 0)
    {
      AppliedKeepsOutputs(d0, s.d, all, |s.blocks|, j);
      HeldInputs(rules, root, d0, s.blocks, Applied(s.d, all, |s.blocks|, j), all[j], 0);
    }
  }

  /** `pushBlock` neither throws nor indexes past the transactions of a block, and keeps the outputs where they are. */
  lemma PushRooted(rules: Rules, now: nat, root: seq<BlockEntry>, d0: Derived, base: Base, s: State, b: Block)
    requires Lingering(rules, base, |root|, s) && Rooted(root, d0, base.hashes, s) && BlockBackward(d0, b)
    ensures Inside(rules, now, s, b) && !IsThrown(rules, now, s, b)
            && Rooted(root, d0, base.hashes, PushBlock(rules, now, s, b).0)
  {
    hide Lingering, WellFormed, Placed, KeepsOutputs, RecordedFrom, Backward, Applied, Unapplied, HeaderOk, FirstBad,
         PushBlock, AllTxs, ChecksInside, BadThrows, Semantic, CoinbaseOk;
    CannotPush(rules, now, s, b);
    PushPool(rules, now, s, b);
    if CanLoad(s.pool, b) {
      var all, n := BlockTxs(b), |s.blocks|;
      BackwardInside(rules, root, d0, s, all);
      BackwardIsNotThrown(rules, now, s, b, root, d0);
      if HeaderOk(rules, now, s.blocks, b) {
        BlockLingers(rules, now, base, |root|, s, b);
        RecordedOrUndone(rules, now, s, b);
        var k := FirstBad(rules, s.blocks, s.d, all, 1);
        AppliedKeepsOutputs(d0, s.d, all, n, k);
        AppliedFrom(s.d, base.hashes, |root|, all, n, k);
        UnappliedKeepsOutputs(root, d0, Applied(s.d, all, n, k), base.hashes, all, k);
        CoinbaseBackward(d0, all[0], n);
        PushedBackward(rules, now, d0, |root|, s, b);
      }
    }
  }

  lemma CoinbaseBackward(d0: Derived, tx: Transaction, n: nat)
    requires CoinbaseOk(tx, n)
    ensures Backward(d0, tx)
  {
  }

  lemma PushedBackward(rules: Rules, now: nat, d0: Derived, low: nat, s: State, b: Block)
    requires NamesTransactions(b) && forall j | 0 <= j < |BlockTxs(b)| :: Backward(d0, BlockTxs(b)[j])
    requires forall k, tx | low <= k < |s.blocks| && tx in AllTxs(s.blocks[k]) :: Backward(d0, tx)
    ensures var s' := PushBlock(rules, now, s, b).0;
      forall k, tx | low <= k < |s'.blocks| && tx in AllTxs(s'.blocks[k]) :: Backward(d0, tx)
  {
    hide Backward, PushBlock, AllTxs, BlockTxs, CanLoad, HeaderOk;
    PushPool(rules, now, s, b);
    var s' := PushBlock(rules, now, s, b).0;
    forall k, tx | low <= k < |s'.blocks| && tx in AllTxs(s'.blocks[k]) ensures Backward(d0, tx) {
      if k < |s.blocks| { assert s'.blocks[..|s.blocks|][k] == s'.blocks[k]; }
    }
  }

  lemma PopRooted(rules: Rules, root: seq<BlockEntry>, d0: Derived, base: Base, s: State)
    requires Lingering(rules, base, |root|, s) && Rooted(root, d0, base.hashes, s) && |root| < |s.blocks|
    ensures Rooted(root, d0, base.hashes, PopBlock(s)) && Rooted(root, d0, base.hashes, RemoveLastBlock(s))
  {
    hide Kept, Owns, WellFormed, Placed, KeepsOutputs, RecordedFrom, Backward, Unapplied, RemoveIndexes, AllTxs;
    var n := |s.blocks| - 1;
    var all := AllTxs(s.blocks[n]);
    forall i | 0 <= i < |all| ensures OfTransaction(all[i]) !in base.hashes { assert all[i] in AllTxs(s.blocks[n]); }
    UnappliedKeepsOutputs(root, d0, s.d, base.hashes, all, |all|);
    assert root <= s.blocks[..n];
  }

  lemma {:induction false} PopToRooted(rules: Rules, root: seq<BlockEntry>, d0: Derived, base: Base, s: State, h: nat)
    requires Lingering(rules, base, |root|, s) && Rooted(root, d0, base.hashes, s) && |root| <= h
    ensures Rooted(root, d0, base.hashes, PopTo(s, h))
    decreases |s.blocks|
  {
    hide Lingering, Rooted, Poppable, PopBlock;
    if h < |s.blocks| {
      PopLingers(rules, base, |root|, s);
      PopRooted(rules, root, d0, base, s);
      PopShortens(s);
      PopToRooted(rules, root, d0, base, PopBlock(s), h);
    }
  }

  lemma {:induction false} RemoveToRooted(
    rules: Rules, root: seq<BlockEntry>, d0: Derived, base: Base, s: State, h: nat)
    requires Lingering(rules, base, |root|, s) && Rooted(root, d0, base.hashes, s) && |root| <= h
    ensures Rooted(root, d0, base.hashes, RemoveTo(s, h))
    decreases |s.blocks|
  {
    hide Lingering, Rooted, Poppable, RemoveLastBlock;
    if h < |s.blocks| {
      RemoveLingers(rules, base, |root|, s);
      PopRooted(rules, root, d0, base, s);
      PopShortens(s);
      RemoveToRooted(rules, root, d0, base, RemoveLastBlock(s), h);
    }
  }

  lemma {:induction false} PushAllRooted(
    rules: Rules, delays: nat -> nat, c: nat, root: seq<BlockEntry>, d0: Derived, base: Base, s: State, bs: seq<Block>)
    requires Lingering(rules, base, |root|, s) && Rooted(root, d0, base.hashes, s)
    requires AllCountable(bs) && (forall k | |root| <= k :: !rules.inZone(k))
             && forall k | 0 <= k < |bs| :: BlockBackward(d0, bs[k])
    ensures InsideInTurn(rules, delays, c, s, bs) && !ThrownInTurn(rules, delays, c, s, bs)
    ensures Rooted(root, d0, base.hashes, PushAll(rules, delays, c, s, bs).0)
    decreases |bs|
  {
    hide Lingering, Rooted, BlockBackward, Inside, IsThrown, Handled, PushBlock, Countable;
    if bs != [] {
      var now := s.now + delays(c);
      LingersAbove(rules, base, |root|, s);
      PushLingers(rules, now, base, |root|, s, bs[0]);
      PushRooted(rules, now, root, d0, base, s, bs[0]);
      if PushBlock(rules, now, s, bs[0]).1 {
        PushAllRooted(rules, delays, c + 1, root, d0, base, PushBlock(rules, now, s, bs[0]).0, bs[1..]);
      }
    }
  }

  lemma BodiesBackward(rules: Rules, root: seq<BlockEntry>, d0: Derived, base: Base, s: State, split: nat)
    requires Lingering(rules, base, |root|, s) && Rooted(root, d0, base.hashes, s) && |root| <= split <= |s.blocks|
    ensures forall k | 0 <= k < |s.blocks[split..]| :: BlockBackward(d0, Bodies(s.blocks[split..])[k])
  {
    hide Owns, WellFormed, Placed, KeepsOutputs, RecordedFrom, Backward, AllTxs, BlockTxs, Countable, HeldOnce,
         ChainRecorded, ImagesApart, IndexesOf, Semantic, EntryKept;
    forall k | 0 <= k < |s.blocks[split..]| ensures BlockBackward(d0, Bodies(s.blocks[split..])[k]) {
      var e := s.blocks[split + k];
      assert Bodies(s.blocks[split..])[k] == e.bl;
      assert EntryKept(rules, s.blocks[..split + k], e);
      KeptEntry(rules, s.blocks[..split + k], e);
      forall j | 1 <= j < |BlockTxs(e.bl)|
        ensures Backward(d0, BlockTxs(e.bl)[j]) { assert BlockTxs(e.bl)[j] in AllTxs(e); }
    }
  }

  /** So with a switch, its rollback included. */
  lemma SwitchRooted(
    rules: Rules, delays: nat -> nat, root: seq<BlockEntry>, d0: Derived, base: Base, s: State, alt: seq<Block>, split: nat,
    plausible: bool)
    requires Lingering(rules, base, |root|, s) && Rooted(root, d0, base.hashes, s) && |root| <= split
    requires AllCountable(alt) && (forall k | |root| <= k :: !rules.inZone(k))
             && forall k | 0 <= k < |alt| :: BlockBackward(d0, alt[k])
    ensures SwitchInside(rules, delays, s, alt, split, plausible)
            && !ThrownInSwitch(rules, delays, s, alt, split, plausible)
    ensures Rooted(root, d0, base.hashes, Switch(rules, delays, s, alt, split, plausible).0)
  {
    hide Lingering, Rooted, BlockBackward, PopTo, PushAll, Covers, Bodies, PoppableTo, HandledInTurn, InsideInTurn,
         ThrownInTurn, AllCountable;
    if Proceeds(s, alt, split, plausible) {
      var p, low := PopTo(s, split), |root|;
      PopToLingers(rules, base, low, s, split);
      PopToRooted(rules, root, d0, base, s, split);
      PushAllLingers(rules, delays, 0, base, low, p, alt);
      PushAllRooted(rules, delays, 0, root, d0, base, p, alt);
      var s' := PushAll(rules, delays, 0, p, alt).0;
      PopToLingers(rules, base, low, s', split);
      PopToRooted(rules, root, d0, base, s', split);
      BodiesCountable(rules, base, low, s, split);
      BodiesBackward(rules, root, d0, base, s, split);
      BodiesLength(s.blocks[split..]);
      PushAllRooted(rules, delays, |alt|, root, d0, base, PopTo(s', split), Bodies(s.blocks[split..]));
    }
  }

  lemma BodiesLength(blocks: seq<BlockEntry>)
    ensures |Bodies(blocks)| == |blocks|
  {
  }

  /** A good state is rooted in its blocks below `low`, if the blocks above name only their outputs. */
  lemma GoodRooted(rules: Rules, s: State, low: nat)
    requires Good(rules, s) && low <= |s.blocks| && forall k | low <= k :: !rules.inZone(k)
    requires forall k | low <= k < |s.blocks| :: BlockBackward(Below(s, low).d, s.blocks[k].bl)
    ensures Rooted(s.blocks[..low], Below(s, low).d, Below(s, low).d.transactions.Keys, s)
    decreases |s.blocks|
  {
    hide Good, Lingering, Rooted, Below, PushBlock, BlockBackward, IsThrown, Inside;
    if low == |s.blocks| {
      BelowTop(rules, s);
      BaseRooted(rules, s);
    } else {
      var n := |s.blocks| - 1;
      GoodBelow(rules, s, n);
      BelowBelow(s, n, low);
      forall k | low <= k < n ensures BlockBackward(Below(s, low).d, Below(s, n).blocks[k].bl) {
        assert Below(s, n).blocks[k] == s.blocks[k];
      }
      GoodLingers(rules, Below(s, n), low);
      GoodRooted(rules, Below(s, n), low);
      assert Below(s, n).blocks[..low] == s.blocks[..low];
      PushUndoesPop(rules, s, s.now);
      PushRooted(rules, s.now, s.blocks[..low], Below(s, low).d, BaseOf(Below(s, low)), Below(s, n), s.blocks[n].bl);
    }
  }

  lemma BaseRooted(rules: Rules, s: State)
    requires Good(rules, s)
    ensures Rooted(s.blocks[..|s.blocks|], s.d, s.d.transactions.Keys, s)
  {
    hide Good, WellFormed, Placed, HeightsBelow, IndexesOf, PoolOk;
    GoodIsSteady(rules, s);
    assert s.blocks[..|s.blocks|] == s.blocks;
  }
}
