/** What the header checks let in: the blocks of every chain that a run reaches are linked, numbered, distinct and not
    from the future, and a block that is not is refused without effect. */
module Headers {
  import opened ChainTypes
  import opened Rules
  import opened Ledger
  import opened Steps
  import opened Reorganisation
  import opened Switching
  import opened Conservation
  import opened Leftovers
  import Runs

  // ---------------------------------------------------------------------------------------------
  // One block

  /** A block is refused, and nothing but the clock changes, if it is known, does not follow the last block, does not
      carry the next height, is from the future, overflows its coinbase, or is not accepted. */
  lemma UnfitIsRefused(rules: Rules, now: nat, s: State, b: Block)
    requires
      || (exists k | 0 <= k < |s.blocks| :: s.blocks[k].bl == b)
      || b.previous != (if s.blocks == [] then NullHash else OfBlock(s.blocks[|s.blocks| - 1].bl))
      || b.baseTransaction.inputs != [BaseInput(|s.blocks|)]
      || b.timestamp > now + rules.futureLimit
      || OutputSum(b.baseTransaction.outputs) >= TWO64
      || !rules.accepts(s.blocks, b)
      || rules.difficulty(s.blocks, b.timestamp) == 0
    ensures PushBlock(rules, now, s, b) == (s.(now := now), false)
  {
    hide Applied, BodyOk, Undone, OutputSum;
    if k :| 0 <= k < |s.blocks| && s.blocks[k].bl == b { assert Ids(s.blocks)[k] == OfBlock(b); }
    if CanLoad(s.pool, b) { NothingUndone(s.d, BlockTxs(b), |s.blocks|); }
  }

  // ---------------------------------------------------------------------------------------------
  // Every chain

  /** The header facts of the block at height `k`. */
  ghost predicate Linked(rules: Rules, blocks: seq<BlockEntry>, k: nat)
    requires k < |blocks|
  {
    var b := blocks[k].bl;
    && b.previous == (if k == 0 then NullHash else OfBlock(blocks[k - 1].bl))
    && b.baseTransaction.inputs == [BaseInput(k)] && blocks[k].height == k
    && OutputSum(b.baseTransaction.outputs) < TWO64
    && (forall i | 0 <= i < k :: blocks[i].bl != b)
    && rules.accepts(blocks[..k], b) && rules.difficulty(blocks[..k], b.timestamp) != 0
  }

  lemma KeptIsLinked(rules: Rules, blocks: seq<BlockEntry>, k: nat)
    requires KeptChain(rules, blocks) && k < |blocks|
    ensures Linked(rules, blocks, k)
  {
    hide Judge, Semantic, BlockTxs, BodyOk, OutputSum, AllTxs;
    var prefix, e := blocks[..k], blocks[k];
    assert EntryKept(rules, prefix, e);
    KeptEntry(rules, prefix, e);
    var now, d :| Judge(rules, now, prefix, d, e.bl) == Accepted(e);
    AcceptedEntry(rules, now, prefix, d, e.bl, e);
    forall i | 0 <= i < k ensures blocks[i].bl != e.bl {
      assert Ids(prefix)[i] == OfBlock(blocks[i].bl);
    }
  }

  // ---------------------------------------------------------------------------------------------
  // Every run

  /** No block of the chain is further in the future than the limit. */
  ghost predicate Timely(rules: Rules, s: State) {
    forall k | 0 <= k < |s.blocks| :: s.blocks[k].bl.timestamp <= s.now + rules.futureLimit
  }

  lemma PushTimely(rules: Rules, now: nat, s: State, b: Block)
    requires Timely(rules, s) && s.now <= now
    ensures Timely(rules, PushBlock(rules, now, s, b).0) && PushBlock(rules, now, s, b).0.now == now
  {
    hide PushBlock, CanLoad, HeaderOk, AllTxs;
    var s' := PushBlock(rules, now, s, b).0;
    PushNow(rules, now, s, b);
    PushPool(rules, now, s, b);
    if PushBlock(rules, now, s, b).1 {
      NotFromFuture(rules, now, s, b);
      forall k | 0 <= k < |s'.blocks| ensures s'.blocks[k].bl.timestamp <= now + rules.futureLimit {
        if k < |s.blocks| { assert s'.blocks[..|s.blocks|][k] == s'.blocks[k]; }
      }
    }
  }

  lemma NotFromFuture(rules: Rules, now: nat, s: State, b: Block)
    requires PushBlock(rules, now, s, b).1
    ensures b.timestamp <= now + rules.futureLimit
  {
    hide PushBlock;
    if b.timestamp > now + rules.futureLimit { UnfitIsRefused(rules, now, s, b); }
  }

  lemma {:induction false} PushAllTimely(rules: Rules, delays: nat -> nat, c: nat, s: State, bs: seq<Block>)
    requires Timely(rules, s)
    ensures var s' := PushAll(rules, delays, c, s, bs).0; Timely(rules, s') && s.now <= s'.now
    decreases |bs|
  {
    hide PushBlock, Timely;
    if bs != [] {
      var now := s.now + delays(c);
      PushTimely(rules, now, s, bs[0]);
      PushAllTimely(rules, delays, c + 1, PushBlock(rules, now, s, bs[0]).0, bs[1..]);
    }
  }

  lemma PopToTimely(rules: Rules, s: State, h: nat)
    requires Timely(rules, s)
    ensures Timely(rules, PopTo(s, h)) && PopTo(s, h).now == s.now
  {
    hide PopBlock;
    if h < |s.blocks| { PopToBlocks(s, h); }
  }

  lemma {:induction false} RemoveToTimely(rules: Rules, s: State, h: nat)
    requires Timely(rules, s)
    ensures Timely(rules, RemoveTo(s, h)) && RemoveTo(s, h).now == s.now
    decreases |s.blocks|
  {
    hide RemoveLastBlock;
    if h < |s.blocks| {
      RemovedBlocks(s);
      RemovedNow(s);
      RemoveToTimely(rules, RemoveLastBlock(s), h);
    }
  }

  lemma RemovedNow(s: State)
    ensures RemoveLastBlock(s).now == s.now && PopBlock(s).now == s.now && PopBlock(s).blocks == RemoveLastBlock(s).blocks
  {
    hide Unapplied, RemoveIndexes;
  }

  lemma StepTimely(rules: Rules, s: State, step: Runs.Step)
    requires Timely(rules, s)
    ensures Timely(rules, Runs.Next(rules, s, step)) && s.now <= Runs.Next(rules, s, step).now
  {
    hide PushBlock, PopBlock, RemoveLastBlock, RemoveTo, PopTo, PushAll, Semantic, Covers, ThrownInTurn, Bodies;
    match step
    case Push(b, delay) => PushTimely(rules, s.now + delay, s, b);
    case Pop =>
      RemovedNow(s);
      if s.blocks != [] { RemovedBlocks(s); } else { Runs.PopNothing(s); }
    case RollbackTo(height) => RemoveToTimely(rules, s, height + 1);
    case SwitchTo(alt, split, plausible, delays) =>
      if Proceeds(s, alt, split, plausible) {
        PopToTimely(rules, s, split);
        PushAllTimely(rules, delays, 0, PopTo(s, split), alt);
        var s' := PushAll(rules, delays, 0, PopTo(s, split), alt).0;
        PopToTimely(rules, s', split);
        PushAllTimely(rules, delays, |alt|, PopTo(s', split), Bodies(s.blocks[split..]));
      }
    case _ =>
  }

  lemma {:induction false} RunTimely(rules: Rules, s: State, steps: seq<Runs.Step>)
    requires Timely(rules, s)
    ensures Timely(rules, Runs.Run(rules, s, steps)) && s.now <= Runs.Run(rules, s, steps).now
    decreases |steps|
  {
    hide Timely, Runs.Next;
    if steps != [] {
      StepTimely(rules, s, steps[0]);
      RunTimely(rules, Runs.Next(rules, s, steps[0]), steps[1..]);
    }
  }

  /** After every run, whatever fails in it: the first block follows the null hash and every other one the block below
      it, each coinbase carries its height, no block occurs twice, none was refused by the other header checks, and
      none is further in the future than the limit. */
  lemma RunIsLinked(rules: Rules, s: State, steps: seq<Runs.Step>)
    requires Kept(rules, s) && Timely(rules, s)
    ensures var t := Runs.Run(rules, s, steps);
      forall k | 0 <= k < |t.blocks| ::
        Linked(rules, t.blocks, k) && t.blocks[k].bl.timestamp <= t.now + rules.futureLimit
  {
    hide Runs.Run, Linked, KeptChain, HeldOnce, ChainRecorded, ImagesApart, IndexesOf, Semantic, Holdings;
    Runs.EveryRunIsKept(rules, s, steps);
    RunTimely(rules, s, steps);
    var t := Runs.Run(rules, s, steps);
    forall k | 0 <= k < |t.blocks| ensures Linked(rules, t.blocks, k) { KeptIsLinked(rules, t.blocks, k); }
  }

  /** The clean states are among those it starts from. */
  lemma GoodIsTimely(rules: Rules, s: State)
    requires Good(rules, s)
    ensures Timely(rules, s)
  {
    hide Rebuild, IndexesOf, Judge, Semantic, NewTransactions, ReferencesExist, Countable, BlockTxs, BodyOk;
    forall k | 0 <= k < |s.blocks| ensures s.blocks[k].bl.timestamp <= s.now + rules.futureLimit {
      var prefix, e := s.blocks[..k], s.blocks[k];
      assert EntryOk(rules, s.now, s.d.indexed, prefix, e);
      AcceptedEntry(rules, s.now, prefix, Rebuild(s.d.indexed, prefix), e.bl, e);
    }
  }
}
