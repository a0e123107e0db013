/** Coin supply: the generated coins recorded with a block account for every output and input below it. */
module Supply {
  import opened ChainTypes
  import opened Rules
  import opened Ledger
  import opened Conservation
  import opened Penalty
  import Runs

  function OutputsOf(all: seq<Transaction>, k: nat): nat
    requires k <= |all|
  {
    if k == 0 then 0 else OutputsOf(all, k - 1) + OutputSum(all[k - 1].outputs)
  }

  function InputsOf(all: seq<Transaction>, k: nat): nat
    requires k <= |all|
  {
    if k == 0 then 0 else InputsOf(all, k - 1) + InputSum(all[k - 1].inputs)
  }

  /** The sum of all output amounts of a chain. */
  function ChainOutputs(blocks: seq<BlockEntry>): nat {
    if blocks == [] then 0
    else
      var all := AllTxs(blocks[|blocks| - 1]);
      ChainOutputs(blocks[..|blocks| - 1]) + OutputsOf(all, |all|)
  }

  /** The sum of all input amounts of a chain. */
  function ChainInputs(blocks: seq<BlockEntry>): nat {
    if blocks == [] then 0
    else
      var all := AllTxs(blocks[|blocks| - 1]);
      ChainInputs(blocks[..|blocks| - 1]) + InputsOf(all, |all|)
  }

  /** The 64-bit fee total is the true difference of inputs and outputs, modulo 2^64. */
  lemma {:induction false} FeesAreDifferences(all: seq<Transaction>, k: nat)
    requires 1 <= k <= |all|
    ensures FeeSum(all, k) ==
            Wrap64(InputsOf(all, k) - InputSum(all[0].inputs) - (OutputsOf(all, k) - OutputSum(all[0].outputs)))
  {
    hide InputSum, OutputSum;
    if k == 1 {
      assert InputsOf(all, 0) == OutputsOf(all, 0) == 0;
    } else {
      FeesAreDifferences(all, k - 1);
      var ins: int, outs: int := InputSum(all[k - 1].inputs), OutputSum(all[k - 1].outputs);
      var before := InputsOf(all, k - 1) - InputSum(all[0].inputs) - (OutputsOf(all, k - 1) - OutputSum(all[0].outputs));
      WrapDifference(Wrap64(ins), outs);
      WrapSum(-outs, ins);
      WrapSum(FeeSum(all, k - 1), ins - outs);
      WrapSum(ins - outs, before);
    }
  }

  /** Whatever the size penalty is, the emission is the coinbase minus the fees, modulo 2^64. */
  lemma EmissionIsCoinbaseMinusFees(
    rules: Rules, blocks: seq<BlockEntry>, b: Block, all: seq<Transaction>, generated: int)
    requires Emission(rules, blocks, b, all).Some?
    ensures Wrap64(generated + Emission(rules, blocks, b, all).value)
         == Wrap64(generated + OutputSum(b.baseTransaction.outputs) - FeeSum(all, |all|))
  {
    hide Penalized, FeeSum, SizeSum, OutputSum;
    var base, median, size, fee := rules.baseReward(blocks, b), rules.median(blocks), SizeSum(all, |all|), FeeSum(all, |all|);
    var pb, pf := Penalized(base, median, size), Penalized(fee, median, size);
    assert Emission(rules, blocks, b, all).value == pb - (fee - pf);
    WrapSum(generated - fee, pb + pf);
    WrapSum(generated - fee, OutputSum(b.baseTransaction.outputs));
  }

  /** The emission recorded with one accepted block. */
  lemma BlockSupply(rules: Rules, now: nat, blocks: seq<BlockEntry>, d: Derived, b: Block, e: BlockEntry)
    requires NamesTransactions(b) && Judge(rules, now, blocks, d, b) == Accepted(e)
    ensures var all := BlockTxs(b);
      e.generatedCoins == Wrap64(Generated(blocks) + OutputsOf(all, |all|) - InputsOf(all, |all|))
  {
    hide BodyOk, FeeSum, SizeSum, OutputSum, Emission, Entries, OutputsOf, InputsOf, Penalized;
    var all := BlockTxs(b);
    assert InputSum(all[0].inputs) == 0 by {
      assert all[0].inputs == [BaseInput(|blocks|)];
      assert all[0].inputs[..0] == [];
    }
    EmissionIsCoinbaseMinusFees(rules, blocks, b, all, Generated(blocks));
    FeesAreDifferences(all, |all|);
    WrapDifference(Generated(blocks) + OutputSum(all[0].outputs),
                   InputsOf(all, |all|) - (OutputsOf(all, |all|) - OutputSum(all[0].outputs)));
  }

  lemma TopSupply(rules: Rules, blocks: seq<BlockEntry>)
    requires KeptChain(rules, blocks) && blocks != []
    ensures var prefix, e := blocks[..|blocks| - 1], blocks[|blocks| - 1];
      && KeptChain(rules, prefix)
      && var all := AllTxs(e);
         e.generatedCoins == Wrap64(Generated(prefix) + OutputsOf(all, |all|) - InputsOf(all, |all|))
  {
    hide Judge, OutputsOf, InputsOf, BlockTxs, Semantic, AllTxs;
    var n := |blocks| - 1;
    var prefix, e := blocks[..n], blocks[n];
    PrefixIsKept(rules, blocks, n);
    assert EntryKept(rules, prefix, e);
    var now, d :| Judge(rules, now, prefix, d, e.bl) == Accepted(e);
    AcceptedEntry(rules, now, prefix, d, e.bl, e);
    BlockSupply(rules, now, prefix, d, e.bl, e);
  }

  /** At every height the generated coins are all outputs minus all inputs of the chain, modulo 2^64; they are
      exactly that difference if and only if it is a 64-bit amount. */
  lemma {:induction false} SupplyIsConserved(rules: Rules, blocks: seq<BlockEntry>)
    requires KeptChain(rules, blocks)
    ensures Generated(blocks) == Wrap64(ChainOutputs(blocks) - ChainInputs(blocks))
    ensures Generated(blocks) == ChainOutputs(blocks) - ChainInputs(blocks)
            <==> 0 <= ChainOutputs(blocks) - ChainInputs(blocks) < TWO64
    decreases |blocks|
  {
    hide AllTxs, OutputsOf, InputsOf, KeptChain;
    if blocks != [] {
      var n := |blocks| - 1;
      var prefix, e := blocks[..n], blocks[n];
      TopSupply(rules, blocks);
      SupplyIsConserved(rules, prefix);
      var all := AllTxs(e);
      WrapSum(OutputsOf(all, |all|) - InputsOf(all, |all|), ChainOutputs(prefix) - ChainInputs(prefix));
    }
  }

  /** The sum of the difficulties of all blocks, each as it was when the block was pushed. */
  function Work(rules: Rules, blocks: seq<BlockEntry>): nat {
    if blocks == [] then 0
    else
      var prefix, last := blocks[..|blocks| - 1], blocks[|blocks| - 1];
      Work(rules, prefix) + rules.difficulty(prefix, last.bl.timestamp)
  }

  /** The cumulative difficulty of the top block is the work of the whole chain, modulo 2^64. */
  lemma {:induction false} WorkIsSummed(rules: Rules, blocks: seq<BlockEntry>)
    requires KeptChain(rules, blocks) && blocks != []
    ensures blocks[|blocks| - 1].cumulativeDifficulty == Wrap64(Work(rules, blocks))
    decreases |blocks|
  {
    hide KeptChain, Wrap64;
    var prefix, last := blocks[..|blocks| - 1], blocks[|blocks| - 1];
    LastEntry(rules, blocks);
    var difficulty := rules.difficulty(prefix, last.bl.timestamp);
    if prefix == [] {
      assert Work(rules, prefix) == 0;
    } else {
      WorkIsSummed(rules, prefix);
      WrapSum(difficulty, Work(rules, prefix));
    }
  }

  lemma LastEntry(rules: Rules, blocks: seq<BlockEntry>)
    requires KeptChain(rules, blocks) && blocks != []
    ensures var prefix, last := blocks[..|blocks| - 1], blocks[|blocks| - 1];
      && KeptChain(rules, prefix)
      && last.cumulativeDifficulty ==
         Wrap64(rules.difficulty(prefix, last.bl.timestamp) + if prefix == [] then 0 else prefix[|prefix| - 1].cumulativeDifficulty)
  {
    hide Judge, Semantic, BlockTxs, Wrap64;
    var n := |blocks| - 1;
    PrefixIsKept(rules, blocks, n);
    assert EntryKept(rules, blocks[..n], blocks[n]);
    var now, d :| Judge(rules, now, blocks[..n], d, blocks[n].bl) == Accepted(blocks[n]);
    JudgedDifficulty(rules, now, blocks[..n], d, blocks[n].bl, blocks[n]);
  }

  lemma JudgedDifficulty(rules: Rules, now: nat, prefix: seq<BlockEntry>, d: Derived, b: Block, e: BlockEntry)
    requires NamesTransactions(b) && Judge(rules, now, prefix, d, b) == Accepted(e)
    ensures e.cumulativeDifficulty ==
      Wrap64(rules.difficulty(prefix, b.timestamp) + if prefix == [] then 0 else prefix[|prefix| - 1].cumulativeDifficulty)
  {
    hide BodyOk, Emission, HeaderOk, Entries, SizeSum, BlockTxs, Wrap64;
  }

  /** What a block of a kept chain claims: its coinbase pays the share and exactly what the penalty leaves of base
      reward and fee, the fee being the inputs minus the outputs of the others; and its size is the sum of the sizes
      of its transactions, within the limit of its height and twice the median. */
  lemma BlockPays(rules: Rules, blocks: seq<BlockEntry>, k: nat)
    requires KeptChain(rules, blocks) && k < |blocks|
    ensures var prefix, e := blocks[..k], blocks[k];
      var all, fee := AllTxs(e), FeeSum(AllTxs(e), |AllTxs(e)|);
      && |all| == |e.bl.transactionHashes| + 1 && all[0] == e.bl.baseTransaction
      && e.cumulativeSize == Total(Sizes(all)) && e.cumulativeSize <= rules.maxSize(k)
      && e.cumulativeSize <= 2 * rules.median(prefix) && rules.shareOk(prefix, e.bl)
      && OutputSum(all[0].outputs)
         == AfterPenalty(rules.baseReward(prefix, e.bl), rules.median(prefix), e.cumulativeSize, fee) % TWO64
  {
    hide Judge, Semantic, BlockTxs, AllTxs, OutputSum, FeeSum, SizeSum, AfterPenalty;
    var prefix, e := blocks[..k], blocks[k];
    assert EntryKept(rules, prefix, e);
    var now, d :| Judge(rules, now, prefix, d, e.bl) == Accepted(e);
    AcceptedEntry(rules, now, prefix, d, e.bl, e);
    JudgedReward(rules, now, prefix, d, e.bl, e);
    SizesTotal(BlockTxs(e.bl), |BlockTxs(e.bl)|);
    assert BlockTxs(e.bl)[..|BlockTxs(e.bl)|] == BlockTxs(e.bl);
  }

  lemma JudgedReward(rules: Rules, now: nat, prefix: seq<BlockEntry>, d: Derived, b: Block, e: BlockEntry)
    requires NamesTransactions(b) && Judge(rules, now, prefix, d, b) == Accepted(e)
    ensures var all := BlockTxs(b); var fee := FeeSum(all, |all|);
      && e.cumulativeSize == SizeSum(all, |all|) <= rules.maxSize(|prefix|)
      && e.cumulativeSize <= 2 * rules.median(prefix) && rules.shareOk(prefix, b)
      && OutputSum(b.baseTransaction.outputs)
         == AfterPenalty(rules.baseReward(prefix, b), rules.median(prefix), e.cumulativeSize, fee) % TWO64
  {
    hide BodyOk, BlockReward, Entries, SizeSum, FeeSum, OutputSum, BlockTxs, AfterPenalty;
    var all := BlockTxs(b);
    RewardIs(rules.baseReward(prefix, b), rules.median(prefix), SizeSum(all, |all|), FeeSum(all, |all|));
    NoWrap(OutputSum(b.baseTransaction.outputs));
  }

  /** The numbers added up. */
  function Total(xs: seq<nat>): nat {
    if xs == [] then 0 else xs[0] + Total(xs[1..])
  }

  function Sizes(all: seq<Transaction>): (r: seq<nat>)
    ensures |r| == |all| && forall i | 0 <= i < |all| :: r[i] == all[i].blobSize
  {
    seq(|all|, i requires 0 <= i < |all| => all[i].blobSize)
  }

  lemma {:induction false} TotalAdds(xs: seq<nat>, ys: seq<nat>)
    ensures Total(xs + ys) == Total(xs) + Total(ys)
    decreases |xs|
  {
    if xs == [] {
      assert xs + ys == ys;
    } else {
      TotalAdds(xs[1..], ys);
      assert (xs + ys)[1..] == xs[1..] + ys;
    }
  }

  lemma {:induction false} SizesTotal(all: seq<Transaction>, k: nat)
    requires k <= |all|
    ensures SizeSum(all, k) == Total(Sizes(all[..k]))
  {
    if k > 0 {
      SizesTotal(all, k - 1);
      assert Sizes(all[..k]) == Sizes(all[..k - 1]) + [all[k - 1].blobSize];
      TotalAdds(Sizes(all[..k - 1]), [all[k - 1].blobSize]);
      assert Total([all[k - 1].blobSize]) == all[k - 1].blobSize + Total([]);
    }
  }

  function InputAmounts(inputs: seq<Input>): (r: seq<nat>)
    ensures |r| == |inputs|
    ensures forall i | 0 <= i < |inputs| :: r[i] == if inputs[i].BaseInput? then 0 else inputs[i].amount
  {
    seq(|inputs|, i requires 0 <= i < |inputs| => if inputs[i].BaseInput? then 0 else inputs[i].amount)
  }

  function OutputAmounts(outs: seq<Output>): (r: seq<nat>)
    ensures |r| == |outs| && forall i | 0 <= i < |outs| :: r[i] == outs[i].amount
  {
    seq(|outs|, i requires 0 <= i < |outs| => outs[i].amount)
  }

  /** The money of a transaction: what its key and multisignature inputs and its outputs say, added up. */
  lemma {:induction false} AmountsTotal(inputs: seq<Input>, outs: seq<Output>)
    ensures InputSum(inputs) == Total(InputAmounts(inputs)) && OutputSum(outs) == Total(OutputAmounts(outs))
    decreases |inputs| + |outs|
  {
    if inputs != [] {
      var n := |inputs| - 1;
      AmountsTotal(inputs[..n], []);
      assert InputAmounts(inputs) == InputAmounts(inputs[..n]) + [InputAmounts(inputs)[n]];
      TotalAdds(InputAmounts(inputs[..n]), [InputAmounts(inputs)[n]]);
      assert Total([InputAmounts(inputs)[n]]) == InputAmounts(inputs)[n] + Total([]);
    }
    if outs != [] {
      var n := |outs| - 1;
      AmountsTotal([], outs[..n]);
      assert OutputAmounts(outs) == OutputAmounts(outs[..n]) + [outs[n].amount];
      TotalAdds(OutputAmounts(outs[..n]), [outs[n].amount]);
      assert Total([outs[n].amount]) == outs[n].amount + Total([]);
    }
  }

  /** After every run, whatever fails in it, the generated coins are all outputs minus all inputs of the chain, modulo
      2^64, and the cumulative difficulty is the sum of the difficulties. */
  lemma RunConservesSupply(rules: Rules, s: State, steps: seq<Runs.Step>)
    requires Kept(rules, s)
    ensures var blocks := Runs.Run(rules, s, steps).blocks;
      && Generated(blocks) == Wrap64(ChainOutputs(blocks) - ChainInputs(blocks))
      && (blocks != [] ==> blocks[|blocks| - 1].cumulativeDifficulty == Wrap64(Work(rules, blocks)))
  {
    hide Runs.Run, KeptChain, HeldOnce, ChainRecorded, ImagesApart, IndexesOf, Semantic, Generated, ChainOutputs,
         ChainInputs, Work;
    Runs.EveryRunIsKept(rules, s, steps);
    var blocks := Runs.Run(rules, s, steps).blocks;
    SupplyIsConserved(rules, blocks);
    if blocks != [] { WorkIsSummed(rules, blocks); }
  }
}
