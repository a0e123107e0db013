/** What the blockchain checks before it records a block, and the entry it records. */
module Rules {
  import opened ChainTypes
  import opened DerivedState

  /** The parts of validation that are left abstract, as deterministic functions of what the code reads:
      `accepts` is block version, merge-mining tag, median timestamp, checkpoint or proof of work, coinbase
      signatures and unlock time; `inDomain` is the curve check of a key image; `unlocked` says whether an unlock
      time has passed; `ringSigned` and `multisigSigned` are the signature checks of one input against the keys of its
      ring or its multisignature output; `shareOk` is the governance share of the coinbase; `median` is the larger of
      the median block size and the full-reward zone. Block sizes are 32-bit numbers where `getPenalizedAmount` reads
      them. */
  datatype Rules = Rules(
    accepts: (seq<BlockEntry>, Block) -> bool,
    difficulty: (seq<BlockEntry>, u64) -> u64,
    inZone: nat -> bool,
    inDomain: nat -> bool,
    unlocked: (seq<BlockEntry>, nat) -> bool,
    ringSigned: (seq<nat>, Transaction, nat) -> bool,
    multisigSigned: (Target, Transaction, nat) -> bool,
    maxSize: nat -> u32,
    shareOk: (seq<BlockEntry>, Block) -> bool,
    median: seq<BlockEntry> -> u32,
    baseReward: (seq<BlockEntry>, Block) -> u64,
    futureLimit: nat)

  // ---------------------------------------------------------------------------------------------
  // Amounts

  function InputAmount(input: Input): u64 {
    match input
    case BaseInput(_) => 0
    case KeyInput(a, _, _) => a
    case MultisigInput(a, _, _) => a
  }

  function InputSum(inputs: seq<Input>): nat {
    if inputs == [] then 0 else InputSum(inputs[..|inputs| - 1]) + InputAmount(inputs[|inputs| - 1])
  }

  function OutputSum(outs: seq<Output>): nat {
    if outs == [] then 0 else OutputSum(outs[..|outs| - 1]) + outs[|outs| - 1].amount
  }

  /** The 64-bit fee of the transactions after the coinbase, among the first `k`. */
  function FeeSum(all: seq<Transaction>, k: nat): u64
    requires k <= |all|
  {
    if k <= 1 then 0
    else Wrap64(FeeSum(all, k - 1)
                + Wrap64(Wrap64(InputSum(all[k - 1].inputs)) - Wrap64(OutputSum(all[k - 1].outputs))))
  }

  function SizeSum(all: seq<Transaction>, k: nat): nat
    requires k <= |all|
  {
    if k == 0 then 0 else SizeSum(all, k - 1) + all[k - 1].blobSize
  }

  function Times(a: nat, b: nat): (r: nat)
    ensures a > 0 && b > 0 ==> r > 0
  {
    a * b
  }

  /** `getPenalizedAmount` over plain integers; module Penalty proves the 64-bit code equal to it. */
  function Penalized(amount: nat, median: nat, size: nat): nat
    requires size <= 2 * median
  {
    if amount == 0 then 0
    else if size <= median then amount
    else Times(amount, Times(2 * median - size, size)) / Times(median, median)
  }

  /** `getBlockReward` from the base reward on: the 64-bit reward and the change of the emission. */
  function BlockReward(base: u64, median: nat, size: nat, fee: u64): Option<(u64, int)> {
    if size > 2 * median then None
    else
      var penalizedBase := Penalized(base, median, size);
      var penalizedFee := Penalized(fee, median, size);
      Some((Wrap64(penalizedBase + penalizedFee), penalizedBase - (fee - penalizedFee)))
  }

  // ---------------------------------------------------------------------------------------------
  // Transactions

  /** What `check_tx_semantic` guarantees of every transaction in the pool. */
  ghost predicate Semantic(tx: Transaction) {
    && tx.inputs != []
    && (forall i | 0 <= i < |tx.inputs| :: !tx.inputs[i].BaseInput?)
    && DistinctKeyImages(tx.inputs)
    && DistinctMultisigs(tx.inputs)
    && OutputSum(tx.outputs) <= InputSum(tx.inputs) < TWO64
  }

  // ---------------------------------------------------------------------------------------------
  // Input checks

  /** A check passes, fails, or throws. */
  datatype Outcome = Passes | Fails | Throws

  /** The absolute offset of ring member `i`: a running 32-bit sum. */
  function Absolute(offsets: seq<u32>, i: nat): u32
    requires i < |offsets|
  {
    if i == 0 then offsets[0] else (Absolute(offsets, i - 1) + offsets[i]) % TWO32
  }

  /** Looking up a transaction by its index throws when there is no such block; an index past the transactions of a
      block is undefined. */
  predicate HasBlock(blocks: seq<BlockEntry>, at: TransactionIndex) {
    at.block < |blocks|
  }

  predicate Found(blocks: seq<BlockEntry>, at: TransactionIndex) {
    HasBlock(blocks, at) && at.transaction < |blocks[at.block].transactions|
  }

  function Lookup(blocks: seq<BlockEntry>, at: TransactionIndex): Transaction
    requires Found(blocks, at)
  {
    blocks[at.block].transactions[at.transaction].tx
  }

  /** The visitor accepts the ring member. */
  predicate MemberOk(rules: Rules, blocks: seq<BlockEntry>, r: OutputRef) {
    && Found(blocks, r.at) && r.output < |Lookup(blocks, r.at).outputs|
    && rules.unlocked(blocks, Lookup(blocks, r.at).unlockTime)
    && Lookup(blocks, r.at).outputs[r.output].target.KeyTarget?
  }

  /** `scanOutputKeysForIndexes` from ring member `k` on. */
  function Scan(rules: Rules, blocks: seq<BlockEntry>, outs: seq<OutputRef>, offsets: seq<u32>, k: nat): Outcome
    requires k <= |offsets|
    decreases |offsets| - k
  {
    if k == |offsets| then Passes
    else
      var a := Absolute(offsets, k);
      if a >= |outs| then Fails
      else if !HasBlock(blocks, outs[a].at) then Throws
      else if !MemberOk(rules, blocks, outs[a]) then Fails
      else Scan(rules, blocks, outs, offsets, k + 1)
  }

  /** The keys the scan collects, where it passes. */
  function RingKeys(blocks: seq<BlockEntry>, outs: seq<OutputRef>, offsets: seq<u32>, k: nat): seq<nat>
    requires k <= |offsets|
  {
    if k == 0 then []
    else
      var a := Absolute(offsets, k - 1);
      RingKeys(blocks, outs, offsets, k - 1)
      + if a < |outs| && Found(blocks, outs[a].at) && outs[a].output < |Lookup(blocks, outs[a].at).outputs|
           && Lookup(blocks, outs[a].at).outputs[outs[a].output].target.KeyTarget?
        then [Lookup(blocks, outs[a].at).outputs[outs[a].output].target.key] else []
  }

  /** `check_tx_input` for input `i`, a ring over the outputs of its amount. */
  function RingOutcome(
    rules: Rules, blocks: seq<BlockEntry>, outs: map<nat, seq<OutputRef>>, tx: Transaction, i: nat): Outcome
    requires i < |tx.inputs| && tx.inputs[i].KeyInput?
  {
    var a, offsets := tx.inputs[i].amount as nat, tx.inputs[i].outputIndexes;
    if !rules.inDomain(tx.inputs[i].keyImage) || a !in outs then Fails
    else match Scan(rules, blocks, outs[a], offsets, 0)
      case Passes => if rules.ringSigned(RingKeys(blocks, outs[a], offsets, |offsets|), tx, i) then Passes else Fails
      case o => o
  }

  /** The place that a multisignature usage names does hold a multisignature output. */
  predicate HoldsMultisig(blocks: seq<BlockEntry>, u: MultisigUsage) {
    && Found(blocks, u.at) && u.output < |Lookup(blocks, u.at).outputs|
    && Lookup(blocks, u.at).outputs[u.output].target.MultisigTarget?
  }

  /** `validateInput` for an unspent output. */
  function MultisigOutcome(rules: Rules, blocks: seq<BlockEntry>, u: MultisigUsage, tx: Transaction, i: nat): Outcome
    requires i < |tx.inputs| && tx.inputs[i].MultisigInput?
  {
    if !HasBlock(blocks, u.at) then Throws
    else if HoldsMultisig(blocks, u) && rules.unlocked(blocks, Lookup(blocks, u.at).unlockTime)
            && tx.inputs[i].signatureCount == Lookup(blocks, u.at).outputs[u.output].target.required
            && rules.multisigSigned(Lookup(blocks, u.at).outputs[u.output].target, tx, i)
    then Passes
    else Fails
  }

  /** `checkTransactionInputs` for one input on top of `d`. */
  function InputOutcome(rules: Rules, blocks: seq<BlockEntry>, d: Derived, tx: Transaction, i: nat): Outcome
    requires i < |tx.inputs|
  {
    match tx.inputs[i]
    case BaseInput(_) => Fails
    case KeyInput(_, offsets, image) =>
      if offsets == [] || image in d.spentKeys then Fails
      else if rules.inZone(|blocks|) then Passes
      else RingOutcome(rules, blocks, d.outputs, tx, i)
    case MultisigInput(a, _, o) =>
      if rules.inZone(|blocks|) then Passes
      else if !Unused(d.multisigs, (a, o)) then Fails
      else MultisigOutcome(rules, blocks, d.multisigs[a][o], tx, i)
  }

  predicate InputOk(rules: Rules, blocks: seq<BlockEntry>, d: Derived, tx: Transaction, i: nat)
    requires i < |tx.inputs|
  {
    InputOutcome(rules, blocks, d, tx, i) == Passes
  }

  predicate InputsOk(rules: Rules, blocks: seq<BlockEntry>, d: Derived, tx: Transaction) {
    forall i | 0 <= i < |tx.inputs| :: InputOk(rules, blocks, d, tx, i)
  }

  /** `checkTransactionInputs` from input `i` on: the first input that does not pass decides. */
  function InputsOutcome(rules: Rules, blocks: seq<BlockEntry>, d: Derived, tx: Transaction, i: nat): (r: Outcome)
    requires i <= |tx.inputs|
    ensures r == Passes <==> forall j | i <= j < |tx.inputs| :: InputOk(rules, blocks, d, tx, j)
    decreases |tx.inputs| - i
  {
    if i == |tx.inputs| then Passes
    else if InputOk(rules, blocks, d, tx, i) then InputsOutcome(rules, blocks, d, tx, i + 1)
    else InputOutcome(rules, blocks, d, tx, i)
  }

  predicate InputsThrow(rules: Rules, blocks: seq<BlockEntry>, d: Derived, tx: Transaction) {
    InputsOutcome(rules, blocks, d, tx, 0) == Throws
  }

  // An index past the transactions of a block is undefined: where the checks reach no such index.

  ghost predicate ScanInside(rules: Rules, blocks: seq<BlockEntry>, outs: seq<OutputRef>, offsets: seq<u32>, k: nat)
    requires k <= |offsets|
    decreases |offsets| - k
  {
    k == |offsets| ||
      var a := Absolute(offsets, k);
      || a >= |outs| || !HasBlock(blocks, outs[a].at)
      || (Found(blocks, outs[a].at) && (MemberOk(rules, blocks, outs[a]) ==> ScanInside(rules, blocks, outs, offsets, k + 1)))
  }

  ghost predicate InputInside(rules: Rules, blocks: seq<BlockEntry>, d: Derived, tx: Transaction, i: nat)
    requires i < |tx.inputs|
  {
    rules.inZone(|blocks|) ||
      match tx.inputs[i]
      case BaseInput(_) => true
      case KeyInput(a, offsets, image) =>
        || image in d.spentKeys || !rules.inDomain(image) || a as nat !in d.outputs
        || ScanInside(rules, blocks, d.outputs[a], offsets, 0)
      case MultisigInput(a, _, o) =>
        var u := Vec(d.multisigs, a);
        Unused(d.multisigs, (a, o)) && HasBlock(blocks, u[o].at) ==>
          Found(blocks, u[o].at) && (rules.unlocked(blocks, Lookup(blocks, u[o].at).unlockTime) ==> HoldsMultisig(blocks, u[o]))
  }

  ghost predicate InputsInside(rules: Rules, blocks: seq<BlockEntry>, d: Derived, tx: Transaction, i: nat)
    requires i <= |tx.inputs|
    decreases |tx.inputs| - i
  {
    i == |tx.inputs| ||
      (InputInside(rules, blocks, d, tx, i) && (InputOk(rules, blocks, d, tx, i) ==> InputsInside(rules, blocks, d, tx, i + 1)))
  }

  // ---------------------------------------------------------------------------------------------
  // Blocks

  /** The derived state after the first `k` pushes of a block at height `n`. */
  function Applied(d: Derived, all: seq<Transaction>, n: nat, k: nat): Derived
    requires k <= |all|
  {
    if k == 0 then d else Record(Applied(d, all, n, k - 1), all[k - 1], TransactionIndex(n, k - 1))
  }

  /** `popTransactions`: the last transaction first. */
  function Unapplied(d: Derived, all: seq<Transaction>, k: nat): Derived
    requires k <= |all|
    decreases k
  {
    if k == 0 then d else Unapplied(Unapply(d, all[k - 1]), all, k - 1)
  }

  /** A block names its transactions by hash; these are the ones whose hashes are of transactions. */
  predicate NamesTransactions(b: Block) {
    forall i | 0 <= i < |b.transactionHashes| :: b.transactionHashes[i].OfTransaction?
  }

  function Loaded(b: Block): seq<Transaction>
    requires NamesTransactions(b)
  {
    seq(|b.transactionHashes|, i requires 0 <= i < |b.transactionHashes| => b.transactionHashes[i].tx)
  }

  /** The coinbase and the named transactions, in the order they are recorded. */
  function BlockTxs(b: Block): (r: seq<Transaction>)
    requires NamesTransactions(b)
    ensures |r| == |b.transactionHashes| + 1 && r[0] == b.baseTransaction
    ensures forall j | 1 <= j < |r| :: b.transactionHashes[j - 1] == OfTransaction(r[j])
  {
    [b.baseTransaction] + Loaded(b)
  }

  function Tail(blocks: seq<BlockEntry>): Hash {
    if blocks == [] then NullHash else OfBlock(blocks[|blocks| - 1].bl)
  }

  function Ids(blocks: seq<BlockEntry>): seq<Hash> {
    seq(|blocks|, i requires 0 <= i < |blocks| => OfBlock(blocks[i].bl))
  }

  /** `prevalidate_miner_transaction`. */
  predicate CoinbaseOk(tx: Transaction, height: nat) {
    tx.inputs == [BaseInput(height)] && OutputSum(tx.outputs) < TWO64
  }

  /** The checks of `pushBlock` before it touches any state. */
  predicate HeaderOk(rules: Rules, now: nat, blocks: seq<BlockEntry>, b: Block) {
    && OfBlock(b) !in Ids(blocks)
    && rules.accepts(blocks, b)
    && b.previous == Tail(blocks)
    && b.timestamp <= now + rules.futureLimit
    && rules.difficulty(blocks, b.timestamp) != 0
    && CoinbaseOk(b.baseTransaction, |blocks|)
  }

  /** Transactions of a block, and outputs of a transaction, are counted in 16 bits. */
  predicate Countable(b: Block)
    requires NamesTransactions(b)
  {
    && |b.transactionHashes| < 0xFFFF
    && forall j | 0 <= j < |BlockTxs(b)| :: |BlockTxs(b)[j].outputs| < 0x1_0000
  }

  /** The multisignature outputs that the first `k` transactions spend. */
  function Refs(all: seq<Transaction>, k: nat): set<(nat, nat)>
    requires k <= |all|
  {
    if k == 0 then {} else Refs(all, k - 1) + MultisigRefs(all[k - 1].inputs)
  }

  ghost predicate BodyOk(rules: Rules, blocks: seq<BlockEntry>, d: Derived, all: seq<Transaction>, k: nat)
    requires k <= |all|
  {
    forall j | 1 <= j < k :: InputsOk(rules, blocks, Applied(d, all, |blocks|, j), all[j])
  }

  /** In the checkpoint zone multisignature inputs are not checked. Recording one is defined only if the output
      it names exists. Transactions behind the first refused one are not recorded. */
  ghost predicate ReferencesExist(rules: Rules, blocks: seq<BlockEntry>, d: Derived, b: Block)
    requires NamesTransactions(b)
  {
    rules.inZone(|blocks|) ==>
      forall j, ref | 1 <= j < |BlockTxs(b)| && BodyOk(rules, blocks, d, BlockTxs(b), j + 1)
                      && ref in MultisigRefs(BlockTxs(b)[j].inputs) ::
        InRange(Applied(d, BlockTxs(b), |blocks|, j).multisigs, ref)
  }

  function Generated(blocks: seq<BlockEntry>): u64 {
    if blocks == [] then 0 else blocks[|blocks| - 1].generatedCoins
  }

  /** `validate_miner_transaction`: the change of the emission if the coinbase pays its share and claims exactly
      the reward. */
  function Emission(rules: Rules, blocks: seq<BlockEntry>, b: Block, all: seq<Transaction>): Option<int> {
    if !rules.shareOk(blocks, b) then None else
    match BlockReward(rules.baseReward(blocks, b), rules.median(blocks), SizeSum(all, |all|), FeeSum(all, |all|))
    case None => None
    case Some((reward, change)) =>
      if Wrap64(OutputSum(b.baseTransaction.outputs)) == reward then Some(change) else None
  }

  function Entries(d: Derived, all: seq<Transaction>, n: nat): seq<TransactionEntry> {
    seq(|all|, k requires 0 <= k < |all| =>
      TransactionEntry(all[k], StoredIndexes(Applied(d, all, n, k), all[k], TransactionIndex(n, k))))
  }

  function NewEntry(rules: Rules, blocks: seq<BlockEntry>, d: Derived, b: Block, all: seq<Transaction>, change: int)
    : BlockEntry
  {
    BlockEntry(
      b, |blocks|, SizeSum(all, |all|),
      Wrap64(rules.difficulty(blocks, b.timestamp)
             + if blocks == [] then 0 else blocks[|blocks| - 1].cumulativeDifficulty),
      Wrap64(Generated(blocks) + change),
      Entries(d, all, |blocks|))
  }

  /** The first transaction from `j` on whose inputs are refused, or the number of transactions. */
  ghost function FirstBad(rules: Rules, blocks: seq<BlockEntry>, d: Derived, all: seq<Transaction>, j: nat): (r: nat)
    requires j <= |all|
    ensures j <= r <= |all|
    decreases |all| - j
  {
    if j == |all| || !InputsOk(rules, blocks, Applied(d, all, |blocks|, j), all[j]) then j
    else FirstBad(rules, blocks, d, all, j + 1)
  }

  /** The check of the first bad transaction throws. */
  ghost predicate BadThrows(rules: Rules, blocks: seq<BlockEntry>, d: Derived, all: seq<Transaction>)
    requires |all| >= 1
  {
    var k := FirstBad(rules, blocks, d, all, 1);
    k < |all| && InputsThrow(rules, blocks, Applied(d, all, |blocks|, k), all[k])
  }

  datatype Verdict = Refused(recorded: nat) | Thrown(recorded: nat) | Oversize | Accepted(entry: BlockEntry)

  /** The outcome of `pushBlock` on loaded transactions: refused after recording some of them, which are then
      removed again; left by an exception of an input check, with some of them recorded; refused for its size with all
      of them left in the derived state; or accepted. */
  ghost function Judge(rules: Rules, now: nat, blocks: seq<BlockEntry>, d: Derived, b: Block): Verdict
    requires NamesTransactions(b)
  {
    var all := BlockTxs(b);
    if !HeaderOk(rules, now, blocks, b) then Refused(0)
    else if !BodyOk(rules, blocks, d, all, |all|) then
      var k := FirstBad(rules, blocks, d, all, 1);
      if BadThrows(rules, blocks, d, all) then Thrown(k) else Refused(k)
    else if SizeSum(all, |all|) > rules.maxSize(|blocks|) then Oversize
    else match Emission(rules, blocks, b, all)
      case None => Refused(|all|)
      case Some(change) => Accepted(NewEntry(rules, blocks, d, b, all, change))
  }
}
