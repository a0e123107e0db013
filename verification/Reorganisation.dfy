/** Popping and pushing many blocks, and chain switching. */
module Reorganisation {
  import opened ChainTypes
  import opened DerivedState
  import opened Rules
  import opened Ledger
  import opened Steps

  // ---------------------------------------------------------------------------------------------
  // Operations

  /** The loop that pops blocks until `h` are left. */
  function PopTo(s: State, h: nat): State
    decreases |s.blocks|
  {
    if |s.blocks| <= h then s else PopTo(PopBlock(s), h)
  }

  /** `rollbackBlockchainTo` removes blocks without returning their transactions to the pool. */
  function RemoveTo(s: State, h: nat): State
    decreases |s.blocks|
  {
    if |s.blocks| <= h then s else RemoveTo(RemoveLastBlock(s), h)
  }

  /** Pushes blocks until one fails; `delays(c)` passes before the push number `c` reads the clock. */
  ghost function PushAll(rules: Rules, delays: nat -> nat, c: nat, s: State, bs: seq<Block>): (State, bool)
    decreases |bs|
  {
    if bs == [] then (s, true)
    else
      var (s', ok) := PushBlock(rules, s.now + delays(c), s, bs[0]);
      if ok then PushAll(rules, delays, c + 1, s', bs[1..]) else (s', false)
  }

  function Bodies(blocks: seq<BlockEntry>): seq<Block> {
    seq(|blocks|, i requires 0 <= i < |blocks| => blocks[i].bl)
  }

  ghost predicate Contains(alt: seq<Block>, h: Hash) {
    exists k | 0 <= k < |alt| :: h in alt[k].transactionHashes
  }

  /** No transaction named by the blocks to be disconnected is missing from the alternative chain. */
  ghost predicate Covers(blocks: seq<BlockEntry>, alt: seq<Block>) {
    forall i, j | 0 <= i < |blocks| && 0 <= j < |blocks[i].bl.transactionHashes| ::
      Contains(alt, blocks[i].bl.transactionHashes[j])
  }

  /** `switch_to_alternative_blockchain` up to its bookkeeping of alternative blocks, with
      `rollback_blockchain_switching` when a push fails. An exception leaves the switch where it is, without a rollback.
      `plausible` is the outcome of the Poisson check. */
  ghost function Switch(
    rules: Rules, delays: nat -> nat, s: State, alt: seq<Block>, split: nat, plausible: bool): (State, bool) {
    if alt == [] || |s.blocks| <= split || !plausible || !Covers(s.blocks[split..], alt) then (s, false)
    else
      var original := Bodies(s.blocks[split..]);
      var (s', ok) := PushAll(rules, delays, 0, PopTo(s, split), alt);
      if ok then (s', true)
      else if ThrownInTurn(rules, delays, 0, PopTo(s, split), alt) then (s', false)
      else (PushAll(rules, delays, |alt|, PopTo(s', split), original).0, false)
  }

  /** The code handles the block, and if it refuses it, it leaves nothing behind. */
  ghost predicate Fits(rules: Rules, now: nat, s: State, b: Block) {
    Defined(rules, s, b) && (!PushBlock(rules, now, s, b).1 ==> Harmless(rules, now, s, b))
  }

  // A list of blocks is pushed one after the other, until one is refused: each block up to that one gets its turn.

  /** The code handles each block that gets its turn. */
  ghost predicate DefinedInTurn(rules: Rules, delays: nat -> nat, c: nat, s: State, bs: seq<Block>)
    decreases |bs|
  {
    bs == [] ||
      var (s', ok) := PushBlock(rules, s.now + delays(c), s, bs[0]);
      Defined(rules, s, bs[0]) && (ok ==> DefinedInTurn(rules, delays, c + 1, s', bs[1..]))
  }

  /** Some block that gets its turn fails for its size. */
  ghost predicate FailsInTurn(rules: Rules, delays: nat -> nat, c: nat, s: State, bs: seq<Block>)
    decreases |bs|
  {
    bs != [] &&
      var (s', ok) := PushBlock(rules, s.now + delays(c), s, bs[0]);
      FailsForSize(rules, s.now + delays(c), s, bs[0]) || (ok && FailsInTurn(rules, delays, c + 1, s', bs[1..]))
  }

  /** Some block that gets its turn is left by an exception. */
  ghost predicate ThrownInTurn(rules: Rules, delays: nat -> nat, c: nat, s: State, bs: seq<Block>)
    decreases |bs|
  {
    bs != [] &&
      var (s', ok) := PushBlock(rules, s.now + delays(c), s, bs[0]);
      IsThrown(rules, s.now + delays(c), s, bs[0]) || (ok && ThrownInTurn(rules, delays, c + 1, s', bs[1..]))
  }

  /** The multisignature outputs spent by the transactions that are recorded on the way. */
  ghost function TouchedInTurn(rules: Rules, delays: nat -> nat, c: nat, s: State, bs: seq<Block>): set<(nat, nat)>
    decreases |bs|
  {
    if bs == [] then {}
    else
      var (s', ok) := PushBlock(rules, s.now + delays(c), s, bs[0]);
      Touched(rules, s.now + delays(c), s, bs[0]) + if ok then TouchedInTurn(rules, delays, c + 1, s', bs[1..]) else {}
  }

  /** None of the multisignature outputs that the blocks from height `h` on spend was spent below them. */
  ghost predicate Undoable(s: State, h: nat) {
    h <= |s.blocks| ==> UnspentIn(Rebuild(s.d.indexed, s.blocks[..h]).multisigs, RefsFrom(s.blocks, h))
  }

  /** Outside the checkpoint zone a block fits when it can be counted, respects the size limit and is not left by an
      exception. */
  lemma FitsOutsideZone(rules: Rules, now: nat, s: State, b: Block)
    requires Good(rules, s) && s.now <= now && !rules.inZone(|s.blocks|)
    requires NamesTransactions(b) ==> Countable(b) && SizeSum(BlockTxs(b), |BlockTxs(b)|) <= rules.maxSize(|s.blocks|)
    requires !IsThrown(rules, now, s, b)
    ensures Fits(rules, now, s, b)
  {
    hide Good, Harmless, PushBlock, SizeSum, Countable, HeaderOk, BodyOk, CanLoad, IsThrown;
    HarmlessOutsideZone(rules, now, s, b);
    if FailsForSize(rules, now, s, b) { LoadNames(s.pool, b); }
  }

  // ---------------------------------------------------------------------------------------------
  // The states below the top

  lemma WaitKeepsGood(rules: Rules, s: State, now: nat)
    requires Good(rules, s) && s.now <= now
    ensures Good(rules, s.(now := now))
  {
    hide Rebuild, IndexesOf, ChainOk;
    LaterIsFine(rules, s.now, now, s.d.indexed, s.blocks);
  }

  lemma {:induction false} NamedSplit(blocks: seq<BlockEntry>, h: nat, k: nat)
    requires h <= k <= |blocks|
    ensures NamedFrom(blocks, h) == NamedFrom(blocks[..k], h) + NamedFrom(blocks, k)
    decreases |blocks|
  {
    hide NamedSet;
    if k == |blocks| {
      assert blocks[..k] == blocks;
    } else {
      var n := |blocks| - 1;
      NamedSplit(blocks[..n], h, k);
      assert blocks[..n][..k] == blocks[..k];
    }
  }

  lemma BelowBelow(s: State, k: nat, h: nat)
    requires h <= k <= |s.blocks|
    ensures Below(Below(s, k), h) == Below(s, h)
  {
    hide Rebuild, IndexesOf, NamedFrom;
    RebuildIndexed(s.d.indexed, s.blocks[..k]);
    assert s.blocks[..k][..h] == s.blocks[..h];
    NamedSplit(s.blocks, h, k);
  }

  lemma BelowTop(rules: Rules, s: State)
    requires Good(rules, s)
    ensures Below(s, |s.blocks|) == s
  {
    hide Rebuild, IndexesOf, ChainOk;
    assert s.blocks[..|s.blocks|] == s.blocks;
  }

  lemma {:induction false} GoodBelow(rules: Rules, s: State, h: nat)
    requires Good(rules, s) && h <= |s.blocks|
    ensures Good(rules, Below(s, h)) && Below(s, h).blocks == s.blocks[..h] && Below(s, h).now == s.now
    ensures Below(s, h).d.indexed == s.d.indexed
    decreases |s.blocks| - h
  {
    hide Good, Rebuild, IndexesOf, NamedFrom, Refs, PopBlock;
    RebuildIndexed(s.d.indexed, s.blocks[..h]);
    if h == |s.blocks| {
      BelowTop(rules, s);
    } else {
      GoodBelow(rules, s, h + 1);
      PopClears(rules, Below(s, h + 1), {});
      BelowBelow(s, h + 1, h);
    }
  }

  // ---------------------------------------------------------------------------------------------
  // Popping

  /** Popping down to height `h` gives the state rebuilt from the first `h` blocks, with the transactions of the
      others back in the pool and the flags of all multisignature outputs they spend cleared. */
  lemma {:induction false} PopToClears(rules: Rules, s: State, h: nat, refs: set<(nat, nat)>)
    requires Good(rules, s) && h <= |s.blocks|
    ensures PopTo(Cleared(s, refs), h) == Cleared(Below(s, h), refs + RefsFrom(s.blocks, h))
    decreases |s.blocks|
  {
    hide Good, PopBlock, Below, Refs, Clear;
    if |s.blocks| == h {
      BelowTop(rules, s);
      assert refs + {} == refs;
    } else {
      var n := |s.blocks| - 1;
      var all := AllTxs(s.blocks[n]);
      PopClears(rules, s, refs);
      GoodBelow(rules, s, n);
      PopToClears(rules, Below(s, n), h, refs + Refs(all, |all|));
      BelowBelow(s, n, h);
      assert refs + Refs(all, |all|) + RefsFrom(s.blocks[..n], h) == refs + RefsFrom(s.blocks, h);
    }
  }

  /** So it gives exactly that state, and keeps the invariant, if and only if none of these outputs was spent
      below. */
  lemma PopToKeepsGood(rules: Rules, s: State, h: nat)
    requires Good(rules, s) && h <= |s.blocks|
    ensures Good(rules, Below(s, h)) && Below(s, h).blocks == s.blocks[..h] && Below(s, h).now == s.now
    ensures PopTo(s, h) == Below(s, h) <==> Undoable(s, h)
    ensures Good(rules, PopTo(s, h)) <==> Undoable(s, h)
    ensures PopTo(s, h).blocks == s.blocks[..h] && PopTo(s, h).pool == Below(s, h).pool
  {
    hide Good, PopTo, RefsFrom, UnspentIn, Clear;
    GoodBelow(rules, s, h);
    PopToClears(rules, s, h, {});
    ClearedIsState(s, {});
    assert {} + RefsFrom(s.blocks, h) == RefsFrom(s.blocks, h);
    ClearedIsState(Below(s, h), RefsFrom(s.blocks, h));
    ClearedRebuild(rules, Below(s, h), RefsFrom(s.blocks, h));
  }

  lemma {:induction false} RemoveToClears(rules: Rules, s: State, h: nat, refs: set<(nat, nat)>)
    requires Good(rules, s) && h <= |s.blocks|
    ensures var t := At(s.d.indexed, s.blocks[..h], s.pool, s.now);
      && RemoveTo(Cleared(s, refs), h) == Cleared(t, refs + RefsFrom(s.blocks, h))
      && Good(rules, t)
    decreases |s.blocks|
  {
    hide Good, RemoveLastBlock, At, Refs, Clear;
    SameAt(rules, s);
    if |s.blocks| == h {
      assert refs + {} == refs;
      assert s.blocks[..h] == s.blocks;
    } else {
      var n := |s.blocks| - 1;
      var all := AllTxs(s.blocks[n]);
      var t := At(s.d.indexed, s.blocks[..n], s.pool, s.now);
      RemoveClears(rules, s, refs);
      AtFields(s.d.indexed, s.blocks[..n], s.pool, s.now);
      RemoveToClears(rules, t, h, refs + Refs(all, |all|));
      assert s.blocks[..n][..h] == s.blocks[..h];
      assert refs + Refs(all, |all|) + RefsFrom(s.blocks[..n], h) == refs + RefsFrom(s.blocks, h);
    }
  }

  lemma SameAt(rules: Rules, s: State)
    requires Good(rules, s)
    ensures At(s.d.indexed, s.blocks, s.pool, s.now) == s
  {
    hide Rebuild, IndexesOf, ChainOk;
  }

  lemma AtFields(indexed: bool, blocks: seq<BlockEntry>, pool: set<Transaction>, now: nat)
    ensures var t := At(indexed, blocks, pool, now);
      t.blocks == blocks && t.pool == pool && t.now == now && t.d.indexed == indexed
  {
    hide Rebuild, IndexesOf;
    RebuildIndexed(indexed, blocks);
  }

  /** `rollbackBlockchainTo` keeps the invariant if and only if none of the multisignature outputs that the removed
      blocks spend was spent below. */
  lemma RemoveToKeepsGood(rules: Rules, s: State, h: nat)
    requires Good(rules, s) && h <= |s.blocks|
    ensures Good(rules, RemoveTo(s, h)) <==> Undoable(s, h)
    ensures RemoveTo(s, h).blocks == s.blocks[..h] && RemoveTo(s, h).pool == s.pool
    ensures Undoable(s, h) ==> RemoveTo(s, h) == At(s.d.indexed, s.blocks[..h], s.pool, s.now)
  {
    hide Good, RemoveTo, RefsFrom, UnspentIn, Clear, Rebuild, IndexesOf;
    var t := At(s.d.indexed, s.blocks[..h], s.pool, s.now);
    RemoveToClears(rules, s, h, {});
    ClearedIsState(s, {});
    assert {} + RefsFrom(s.blocks, h) == RefsFrom(s.blocks, h);
    ClearedIsState(t, RefsFrom(s.blocks, h));
    ClearedRebuild(rules, t, RefsFrom(s.blocks, h));
  }

  /** A block outside the checkpoint zone spends only outputs that were unspent below it. */
  lemma UnspentOutsideZone(rules: Rules, s: State)
    requires Good(rules, s) && s.blocks != [] && !rules.inZone(|s.blocks| - 1)
    ensures var n := |s.blocks| - 1; var all := AllTxs(s.blocks[n]);
      UnspentIn(Below(s, n).d.multisigs, Refs(all, |all|))
  {
    hide Applied, Unapplied, Judge, Rebuild, ChainOk, AllPushable, AllSpendable, WellFormed, Tracked, BlockTxs,
         Semantic, NewTransactions, ReferencesExist, Countable, Refs, Clear, UnspentIn, HeaderOk, BodyOk, Checked,
         IndexesOf, NamedFrom;
    var n := |s.blocks| - 1;
    var e, prefix := s.blocks[n], s.blocks[..n];
    LastBlock(rules, s);
    var d, all := Rebuild(s.d.indexed, prefix), BlockTxs(e.bl);
    ChainFacts(rules, s.now, s.d.indexed, prefix);
    AcceptedEntry(rules, s.now, prefix, d, e.bl, e);
    PassedChecks(rules, s.now, prefix, d, e.bl, |all|);
    CheckedBlock(rules, prefix, d, all, |all|);
    UnappliedUndoesApplied(d, all, n, |all|);
    UndoneIffUnspent(d, all, n, |all|);
  }

  /** So blocks outside the checkpoint zone can always be undone. */
  lemma {:induction false} UndoableOutsideZone(rules: Rules, s: State, h: nat)
    requires Good(rules, s) && forall k | h <= k < |s.blocks| :: !rules.inZone(k)
    ensures h <= |s.blocks| ==> PopTo(s, h) == Below(s, h)
    ensures Undoable(s, h)
    decreases |s.blocks|
  {
    hide Good, PopBlock, Below, RefsFrom, UnspentIn, Refs, Rebuild;
    if h == |s.blocks| {
      BelowTop(rules, s);
    } else if h < |s.blocks| {
      var n := |s.blocks| - 1;
      UnspentOutsideZone(rules, s);
      PopGivesRebuild(rules, s);
      GoodBelow(rules, s, n);
      UndoableOutsideZone(rules, Below(s, n), h);
      BelowBelow(s, n, h);
    }
    if h <= |s.blocks| { PopToKeepsGood(rules, s, h); }
  }

  // ---------------------------------------------------------------------------------------------
  // Pushing

  lemma PushedBelow(rules: Rules, now: nat, s: State, b: Block)
    requires Good(rules, s) && s.now <= now && Defined(rules, s, b) && PushBlock(rules, now, s, b).1
    ensures |s.blocks| <= |PushBlock(rules, now, s, b).0.blocks|
    ensures Below(PushBlock(rules, now, s, b).0, |s.blocks|) == s.(now := now)
  {
    hide Judge, Rebuild, IndexesOf, ChainOk, Applied, AddIndexes, Semantic, Defined, NamedFrom, Harmless;
    var s' := PushBlock(rules, now, s, b).0;
    PushKeepsGood(rules, now, s, b);
    NamedLast(s'.blocks);
    assert s.pool - NamedSet(b) + NamedSet(b) == s.pool by {
      forall tx | tx in NamedSet(b) ensures tx in s.pool {
        var i :| 0 <= i < |b.transactionHashes| && b.transactionHashes[i].OfTransaction?
                 && b.transactionHashes[i].tx == tx;
      }
    }
    AppliedIndexed(s.d, BlockTxs(b), |s.blocks|, |BlockTxs(b)|);
  }

  /** Popping a block right after pushing it restores the state if and only if the multisignature outputs it spends
      were unspent. */
  lemma PopUndoesPush(rules: Rules, now: nat, s: State, b: Block)
    requires Good(rules, s) && s.now <= now && Defined(rules, s, b) && PushBlock(rules, now, s, b).1
    ensures NamesTransactions(b)
    ensures PopBlock(PushBlock(rules, now, s, b).0) == s.(now := now)
            <==> UnspentIn(s.d.multisigs, Refs(BlockTxs(b), |BlockTxs(b)|))
  {
    hide Good, PopBlock, Below, UnspentIn, Refs, Judge, Harmless, Applied, AddIndexes, Defined;
    var s' := PushBlock(rules, now, s, b).0;
    PushKeepsGood(rules, now, s, b);
    PushedBelow(rules, now, s, b);
    PopGivesRebuild(rules, s');
    LastNames(rules, s');
  }

  lemma LastNames(rules: Rules, s: State)
    requires Good(rules, s) && s.blocks != []
    ensures var e := s.blocks[|s.blocks| - 1]; NamesTransactions(e.bl) && AllTxs(e) == BlockTxs(e.bl)
  {
    hide Rebuild, ChainOk, IndexesOf, EntryOk, AllPushable, WellFormed, Applied;
    LastBlock(rules, s);
  }

  /** What an accepted block touches is what its transactions spend. */
  lemma AcceptedTouches(rules: Rules, now: nat, s: State, b: Block)
    requires PushBlock(rules, now, s, b).1
    ensures NamesTransactions(b) && Touched(rules, now, s, b) == Refs(BlockTxs(b), |BlockTxs(b)|)
  {
    hide Applied, Emission, HeaderOk, BodyOk, SizeSum, NewEntry, FirstBad, Refs;
    NoneChecked(rules, s.blocks, s.d, BlockTxs(b));
    FirstBadIsFirst(rules, s.blocks, s.d, BlockTxs(b), 1);
  }

  lemma {:induction false} PopToStep(s: State, h: nat)
    requires h < |s.blocks|
    ensures |PopTo(s, h + 1).blocks| == h + 1 && PopTo(s, h) == PopBlock(PopTo(s, h + 1))
    ensures PopTo(s, h + 1).blocks == s.blocks[..h + 1]
    decreases |s.blocks|
  {
    hide Unapplied, RemoveIndexes;
    if |s.blocks| > h + 1 {
      PopToStep(PopBlock(s), h);
      assert s.blocks[..|s.blocks| - 1][..h + 1] == s.blocks[..h + 1];
    } else {
      assert s.blocks[..h + 1] == s.blocks;
    }
  }

  lemma PopLater(s: State, now: nat)
    ensures PopBlock(s.(now := now)) == PopBlock(s).(now := now)
  {
    hide Unapplied, RemoveIndexes;
  }

  /** Whatever part of a list of blocks could be pushed, if none failed for its size or by an exception, popping what
      was pushed gives the state before with the flags of everything cleared that was touched. */
  lemma {:induction false} PopToClearsPushAll(
    rules: Rules, delays: nat -> nat, c: nat, s: State, bs: seq<Block>, refs: set<(nat, nat)>)
    requires Steady(s) && DefinedInTurn(rules, delays, c, s, bs)
    requires !FailsInTurn(rules, delays, c, s, bs) && !ThrownInTurn(rules, delays, c, s, bs)
    ensures var (s', ok) := PushAll(rules, delays, c, s, bs);
      && Steady(s') && s.now <= s'.now && |s.blocks| <= |s'.blocks| && s'.blocks[..|s.blocks|] == s.blocks
      && (ok ==> Bodies(s'.blocks[|s.blocks|..]) == bs)
      && PopTo(Cleared(s', refs), |s.blocks|)
         == Cleared(s.(now := s'.now), refs + TouchedInTurn(rules, delays, c, s, bs))
    decreases |bs|
  {
    hide Steady, PushBlock, PopBlock, Defined, FailsForSize, IsThrown, Touched, Clear, Refs;
    var n := |s.blocks|;
    var (s', ok) := PushAll(rules, delays, c, s, bs);
    if bs == [] {
      assert refs + {} == refs;
    } else {
      var now := s.now + delays(c);
      var (s1, ok1) := PushBlock(rules, now, s, bs[0]);
      var own := Touched(rules, now, s, bs[0]);
      if ok1 {
        var more := TouchedInTurn(rules, delays, c + 1, s1, bs[1..]);
        AcceptedIsSteady(rules, now, s, bs[0], refs + more);
        AcceptedTouches(rules, now, s, bs[0]);
        PopToClearsPushAll(rules, delays, c + 1, s1, bs[1..], refs);
        PopToStep(Cleared(s', refs), n);
        PopLater(Cleared(s1, refs + more), s'.now);
        assert refs + more + own == refs + (own + more);
        assert s'.blocks[..n] == s'.blocks[..n + 1][..n];
        if ok {
          assert Bodies(s'.blocks[n..]) == [bs[0]] + Bodies(s'.blocks[n + 1..]) by {
            assert s'.blocks[n] == s'.blocks[..n + 1][n];
          }
        }
      } else {
        RefusedClears(rules, now, s, bs[0]);
        ClearedIsSteady(s, own, now);
        ClearedIsSteady(s.(now := now), own, now);
        ClearTwice(s.d, own, refs);
        assert own + {} == own && own + refs == refs + own;
      }
    }
  }

  /** So popping restores the state if and only if no block failed for its size or by an exception, and nothing was
      touched that was spent before. */
  lemma PopToUndoesPushAll(rules: Rules, delays: nat -> nat, c: nat, s: State, bs: seq<Block>)
    requires Steady(s) && DefinedInTurn(rules, delays, c, s, bs)
    ensures var s' := PushAll(rules, delays, c, s, bs).0;
      PopTo(s', |s.blocks|) == s.(now := s'.now) <==>
        && !FailsInTurn(rules, delays, c, s, bs) && !ThrownInTurn(rules, delays, c, s, bs)
        && UnspentIn(s.d.multisigs, TouchedInTurn(rules, delays, c, s, bs))
  {
    hide Steady, PushAll, DefinedInTurn, FailsInTurn, ThrownInTurn, TouchedInTurn, Clear, UnspentIn, PopTo,
         HeightsBelow;
    var s', touched := PushAll(rules, delays, c, s, bs).0, TouchedInTurn(rules, delays, c, s, bs);
    if FailsInTurn(rules, delays, c, s, bs) {
      var h, all := LeftBehind(rules, delays, c, s, bs);
      SomethingLeft(rules, s.d, PopTo(s', |s.blocks|).d, h, all);
    } else if ThrownInTurn(rules, delays, c, s, bs) {
      var coinbase := ThrownBehind(rules, delays, c, s, bs);
    } else {
      PopToClearsPushAll(rules, delays, c, s, bs, {});
      ClearedIsState(s', {});
      assert {} + touched == touched;
      ClearedIsState(s.(now := s'.now), touched);
    }
  }

  // ---------------------------------------------------------------------------------------------
  // What a block that fails for its size leaves behind

  /** The transactions `all`, too large for height `h`, are recorded as its block in `d'`, and were not recorded in
      `d`. */
  ghost predicate Left(rules: Rules, d: Derived, d': Derived, h: nat, all: seq<Transaction>) {
    && all != [] && SizeSum(all, |all|) > rules.maxSize(h) && all[0].inputs == [BaseInput(h)]
    && (forall j | 1 <= j < |all| :: Semantic(all[j]))
    && forall j | 0 <= j < |all| :: LeftAt(d, d', h, all, j)
  }

  ghost predicate LeftAt(d: Derived, d': Derived, h: nat, all: seq<Transaction>, j: nat)
    requires j < |all|
  {
    && OfTransaction(all[j]) !in d.transactions && OfTransaction(all[j]) in d'.transactions
    && d'.transactions[OfTransaction(all[j])] == TransactionIndex(h, j)
  }

  lemma SomethingLeft(rules: Rules, d: Derived, d': Derived, h: nat, all: seq<Transaction>)
    requires Left(rules, d, d', h, all)
    ensures d' != d
  {
    hide SizeSum, Semantic;
    assert LeftAt(d, d', h, all, 0);
  }

  lemma {:induction false} AppliedKeeps(d: Derived, all: seq<Transaction>, n: nat, k: nat, h: Hash)
    requires k <= |all| && h in d.transactions
    ensures h in Applied(d, all, n, k).transactions && Applied(d, all, n, k).transactions[h] == d.transactions[h]
  {
    hide Record;
    if k != 0 {
      RecordKeeps(Applied(d, all, n, k - 1), all[k - 1], TransactionIndex(n, k - 1));
      AppliedKeeps(d, all, n, k - 1, h);
    }
  }

  lemma {:induction false} AppliedAt(d: Derived, all: seq<Transaction>, n: nat, k: nat, j: nat)
    requires j < k <= |all|
    requires forall i | 0 <= i < k :: OfTransaction(all[i]) !in d.transactions
    requires forall i, i' | 0 <= i < i' < k :: all[i] != all[i']
    ensures var t := Applied(d, all, n, k).transactions;
      OfTransaction(all[j]) in t && t[OfTransaction(all[j])] == TransactionIndex(n, j)
  {
    hide Record;
    RecordKeeps(Applied(d, all, n, k - 1), all[k - 1], TransactionIndex(n, k - 1));
    if j < k - 1 {
      AppliedAt(d, all, n, k - 1, j);
    } else {
      OnlyBlockAdds(d, all, n, j, OfTransaction(all[j]));
    }
  }

  lemma UnapplyKeeps(d: Derived, tx: Transaction, h: Hash)
    requires h != OfTransaction(tx)
    ensures h in Unapply(d, tx).transactions <==> h in d.transactions
    ensures h in d.transactions ==> Unapply(d, tx).transactions[h] == d.transactions[h]
  {
  }

  lemma {:induction false} UnappliedKeeps(d: Derived, all: seq<Transaction>, k: nat, h: Hash)
    requires k <= |all| && forall i | 0 <= i < k :: h != OfTransaction(all[i])
    ensures h in Unapplied(d, all, k).transactions <==> h in d.transactions
    ensures h in d.transactions ==> Unapplied(d, all, k).transactions[h] == d.transactions[h]
    decreases k
  {
    hide Unapply;
    if k != 0 {
      UnapplyKeeps(d, all[k - 1], h);
      UnappliedKeeps(Unapply(d, all[k - 1]), all, k - 1, h);
    }
  }

  lemma OversizeLeaves(rules: Rules, now: nat, s: State, b: Block)
    requires Steady(s) && Defined(rules, s, b) && FailsForSize(rules, now, s, b)
    ensures var (s', ok) := PushBlock(rules, now, s, b);
      !ok && s'.blocks == s.blocks && NamesTransactions(b) && Left(rules, s.d, s'.d, |s.blocks|, BlockTxs(b))
    ensures !IsThrown(rules, now, s, b)
  {
    hide Applied, Emission, BodyOk, SizeSum, NewEntry, FirstBad, Undone, Semantic, WellFormed, HeightsBelow,
         IndexesOf, Defined, Ids;
    var all := BlockTxs(b);
    VerdictOf(rules, now, s, b);
    LoadedIsNew(rules, now, s, b);
    forall j | 0 <= j < |all| ensures LeftAt(s.d, Applied(s.d, all, |s.blocks|, |all|), |s.blocks|, all, j) {
      AppliedAt(s.d, all, |s.blocks|, |all|, j);
    }
  }

  /** After a failure for size, popping the blocks that were pushed before does not remove what was left behind. */
  lemma {:induction false} LeftBehind(rules: Rules, delays: nat -> nat, c: nat, s: State, bs: seq<Block>)
    returns (h: nat, all: seq<Transaction>)
    requires Steady(s) && DefinedInTurn(rules, delays, c, s, bs) && FailsInTurn(rules, delays, c, s, bs)
    ensures var (s', ok) := PushAll(rules, delays, c, s, bs);
      && !ok && s.now <= s'.now && |s.blocks| <= |s'.blocks| && s'.blocks[..|s.blocks|] == s.blocks
      && |s.blocks| <= h && Left(rules, s.d, PopTo(s', |s.blocks|).d, h, all)
      && !ThrownInTurn(rules, delays, c, s, bs)
    decreases |bs|
  {
    hide Steady, PushBlock, PopBlock, Defined, FailsForSize, IsThrown, Clear, Refs, Left;
    var n, now := |s.blocks|, s.now + delays(c);
    var s' := PushAll(rules, delays, c, s, bs).0;
    var (s1, ok1) := PushBlock(rules, now, s, bs[0]);
    PushNow(rules, now, s, bs[0]);
    if FailsForSize(rules, now, s, bs[0]) {
      OversizeLeaves(rules, now, s, bs[0]);
      h, all := n, BlockTxs(bs[0]);
    } else {
      AcceptedIsSteady(rules, now, s, bs[0], {});
      AcceptedNotThrown(rules, now, s, bs[0]);
      h, all := LeftBehind(rules, delays, c + 1, s1, bs[1..]);
      PopToStep(s', n);
      assert s'.blocks[..n] == s'.blocks[..n + 1][..n];
      PopKeepsLeft(rules, s.d, s1, PopTo(s', n + 1), h, all, bs[0]);
    }
  }

  lemma PopKeepsLeft(rules: Rules, d: Derived, s1: State, t: State, h: nat, all: seq<Transaction>, b: Block)
    requires Left(rules, s1.d, t.d, h, all) && t.blocks == s1.blocks != [] && NamesTransactions(b)
    requires AllTxs(t.blocks[|t.blocks| - 1]) == BlockTxs(b) && d.transactions.Keys <= s1.d.transactions.Keys
    requires forall tx | tx in BlockTxs(b) :: OfTransaction(tx) in s1.d.transactions
    ensures Left(rules, d, PopBlock(t).d, h, all)
  {
    hide SizeSum, Unapplied, RemoveIndexes, BlockTxs, Semantic;
    var txs := BlockTxs(b);
    forall j | 0 <= j < |all| ensures LeftAt(d, PopBlock(t).d, h, all, j) {
      assert LeftAt(s1.d, t.d, h, all, j);
      forall i | 0 <= i < |txs| ensures OfTransaction(all[j]) != OfTransaction(txs[i]) {
        assert txs[i] in txs;
      }
      UnappliedKeeps(t.d, txs, |txs|, OfTransaction(all[j]));
    }
  }

  lemma AcceptedNotThrown(rules: Rules, now: nat, s: State, b: Block)
    requires PushBlock(rules, now, s, b).1
    ensures !FailsForSize(rules, now, s, b) && !IsThrown(rules, now, s, b)
  {
    hide Judge, FailsForSize, IsThrown, Applied, Undone;
    if CanLoad(s.pool, b) { VerdictOf(rules, now, s, b); }
  }

  // ---------------------------------------------------------------------------------------------
  // What an exception leaves behind

  /** An exception leaves the coinbase of the next height recorded, and popping the blocks that were pushed before does
      not remove it. */
  lemma {:induction false} ThrownBehind(rules: Rules, delays: nat -> nat, c: nat, s: State, bs: seq<Block>)
    returns (coinbase: Transaction)
    requires Steady(s) && DefinedInTurn(rules, delays, c, s, bs) && ThrownInTurn(rules, delays, c, s, bs)
    ensures var (s', ok) := PushAll(rules, delays, c, s, bs);
      && !ok && s.now <= s'.now && |s.blocks| <= |s'.blocks| && s'.blocks[..|s.blocks|] == s.blocks
      && OfTransaction(coinbase) in s'.d.transactions && !HeightsBelow(s'.d, |s'.blocks|)
      && OfTransaction(coinbase) !in s.d.transactions && OfTransaction(coinbase) in PopTo(s', |s.blocks|).d.transactions
      && !FailsInTurn(rules, delays, c, s, bs)
    decreases |bs|
  {
    hide Steady, PushBlock, PopBlock, Defined, FailsForSize, IsThrown, Clear, Refs, HeightsBelow;
    var n, now := |s.blocks|, s.now + delays(c);
    var s' := PushAll(rules, delays, c, s, bs).0;
    var (s1, ok1) := PushBlock(rules, now, s, bs[0]);
    PushNow(rules, now, s, bs[0]);
    if IsThrown(rules, now, s, bs[0]) {
      LeavesTransactions(rules, now, s, bs[0]);
      ThrownHigh(rules, now, s, bs[0]);
      coinbase := bs[0].baseTransaction;
    } else {
      AcceptedIsSteady(rules, now, s, bs[0], {});
      AcceptedNotThrown(rules, now, s, bs[0]);
      coinbase := ThrownBehind(rules, delays, c + 1, s1, bs[1..]);
      PopToStep(s', n);
      assert s'.blocks[..n] == s'.blocks[..n + 1][..n];
      PopKeepsRecorded(s1, PopTo(s', n + 1), OfTransaction(coinbase), bs[0]);
    }
  }

  lemma ThrownHigh(rules: Rules, now: nat, s: State, b: Block)
    requires IsThrown(rules, now, s, b)
    requires OfTransaction(b.baseTransaction) in PushBlock(rules, now, s, b).0.d.transactions
    ensures !FailsForSize(rules, now, s, b) && !HeightsBelow(PushBlock(rules, now, s, b).0.d, |s.blocks|)
  {
    hide Judge, FailsForSize, BadThrows, Applied, Undone, Ids;
    VerdictOf(rules, now, s, b);
    assert b.baseTransaction.inputs[0] == BaseInput(|s.blocks|);
    assert !HeightBelow(OfTransaction(b.baseTransaction), |s.blocks|);
  }

  lemma PopKeepsRecorded(s1: State, t: State, h: Hash, b: Block)
    requires h !in s1.d.transactions && h in t.d.transactions && t.blocks == s1.blocks != [] && NamesTransactions(b)
    requires AllTxs(t.blocks[|t.blocks| - 1]) == BlockTxs(b)
    requires forall tx | tx in BlockTxs(b) :: OfTransaction(tx) in s1.d.transactions
    ensures h in PopBlock(t).d.transactions
  {
    hide Unapplied, RemoveIndexes, BlockTxs;
    var txs := BlockTxs(b);
    forall i | 0 <= i < |txs| ensures h != OfTransaction(txs[i]) {
      assert txs[i] in txs;
    }
    UnappliedKeeps(t.d, txs, |txs|, h);
  }

  lemma PushNow(rules: Rules, now: nat, s: State, b: Block)
    ensures PushBlock(rules, now, s, b).0.now == now
  {
    hide Judge, Applied, AddIndexes, BlockTxs, Undone;
  }

  /** Pushing the disconnected blocks again, any time later, restores the chain entry by entry. */
  lemma {:induction false} PushAllUndoesPopTo(rules: Rules, delays: nat -> nat, c: nat, s: State, h: nat, now: nat)
    requires Good(rules, s) && h <= |s.blocks| && s.now <= now
    ensures var (s', ok) := PushAll(rules, delays, c, Below(s, h).(now := now), Bodies(s.blocks[h..]));
      ok && now <= s'.now && s' == s.(now := s'.now)
    ensures DefinedInTurn(rules, delays, c, Below(s, h).(now := now), Bodies(s.blocks[h..]))
    decreases |s.blocks| - h
  {
    hide Good, PushBlock, Below, Defined, Harmless;
    var bs := Bodies(s.blocks[h..]);
    if h == |s.blocks| {
      BelowTop(rules, s);
      assert bs == [];
    } else {
      var later := now + delays(c);
      var t := Below(s, h + 1);
      GoodBelow(rules, s, h + 1);
      BelowBelow(s, h + 1, h);
      PushAgain(rules, t, now, later);
      assert t.blocks[|t.blocks| - 1].bl == bs[0];
      assert bs[1..] == Bodies(s.blocks[h + 1..]);
      PushAllUndoesPopTo(rules, delays, c + 1, s, h + 1, later);
    }
  }

  lemma PushAgain(rules: Rules, s: State, now: nat, later: nat)
    requires Good(rules, s) && s.blocks != [] && s.now <= now <= later
    ensures var t, b := Below(s, |s.blocks| - 1).(now := now), s.blocks[|s.blocks| - 1].bl;
      PushBlock(rules, later, t, b) == (s.(now := later), true) && Defined(rules, t, b)
  {
    hide Rebuild, IndexesOf, ChainOk, Judge, Applied, NamedFrom, Semantic, AddIndexes, NewTransactions,
         ReferencesExist, Countable, AllPushable, WellFormed, BlockTxs;
    PushUndoesPop(rules, s, later);
    LastBlock(rules, s);
  }
}
