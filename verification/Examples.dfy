/** Concrete chains: a run that meets the premises of the theorems, and the inputs on which the code does not undo
    what it did. */
module Examples {
  import opened ChainTypes
  import opened DerivedState
  import opened Rules
  import opened Ledger
  import opened Steps
  import opened Reorganisation
  import opened Switching
  import opened Definedness
  import opened Leftovers
  import opened Runs
  import opened Arrival
  import opened Conservation
  import opened OutputOrder
  import Places

  // ---------------------------------------------------------------------------------------------
  // Easy rules and easy blocks

  /** Rules that accept every header and every signature, with one size limit and a checkpoint zone below `zone`. */
  function Lenient(zone: nat, limit: u32): Rules {
    Rules((_, _) => true, (_, _) => 1, h => h < zone, _ => true, (_, _) => true, (_, _, _) => true, (_, _, _) => true,
          _ => limit, (_, _) => true, _ => limit, (_, _) => 0, 0)
  }

  function Coinbase(height: nat, outs: seq<Output>, size: nat): Transaction {
    Transaction(0, [BaseInput(height)], outs, None, size, 0)
  }

  function Successor(previous: Hash, coinbase: Transaction, txs: seq<Transaction>): Block {
    Block(previous, 0, 0, coinbase, seq(|txs|, i requires 0 <= i < |txs| => OfTransaction(txs[i])))
  }

  lemma SuccessorTxs(previous: Hash, coinbase: Transaction, txs: seq<Transaction>)
    ensures var b := Successor(previous, coinbase, txs); NamesTransactions(b) && BlockTxs(b) == [coinbase] + txs
  {
  }

  ghost predicate PaysNoFee(tx: Transaction) {
    InputSum(tx.inputs) == OutputSum(tx.outputs)
  }

  lemma {:induction false} NoFees(all: seq<Transaction>, k: nat)
    requires k <= |all| && forall j | 1 <= j < k :: PaysNoFee(all[j])
    ensures FeeSum(all, k) == 0
  {
    hide InputSum, OutputSum;
    if k > 1 { NoFees(all, k - 1); }
  }

  /** With these rules a block on top of the chain that pays no fees and passes the input checks fails at most for
      its size. */
  lemma LenientVerdict(zone: nat, limit: u32, now: nat, blocks: seq<BlockEntry>, d: Derived, b: Block)
    requires NamesTransactions(b) && b.timestamp == 0 && b.previous == Tail(blocks) && OfBlock(b) !in Ids(blocks)
    requires b.baseTransaction.inputs == [BaseInput(|blocks|)] && OutputSum(b.baseTransaction.outputs) == 0
    requires BodyOk(Lenient(zone, limit), blocks, d, BlockTxs(b), |BlockTxs(b)|)
    requires forall j | 1 <= j < |BlockTxs(b)| :: PaysNoFee(BlockTxs(b)[j])
    ensures HeaderOk(Lenient(zone, limit), now, blocks, b)
    ensures var size := SizeSum(BlockTxs(b), |BlockTxs(b)|);
      var verdict := Judge(Lenient(zone, limit), now, blocks, d, b);
      if size > limit then verdict.Oversize? else verdict.Accepted?
  {
    hide BodyOk, SizeSum, FeeSum, OutputSum, PaysNoFee, NewEntry, FirstBad, BlockTxs;
    NoFees(BlockTxs(b), |BlockTxs(b)|);
    if SizeSum(BlockTxs(b), |BlockTxs(b)|) <= limit { LenientEmission(zone, limit, blocks, b); }
  }

  lemma LenientEmission(zone: nat, limit: u32, blocks: seq<BlockEntry>, b: Block)
    requires NamesTransactions(b) && OutputSum(b.baseTransaction.outputs) == 0
    requires FeeSum(BlockTxs(b), |BlockTxs(b)|) == 0 && SizeSum(BlockTxs(b), |BlockTxs(b)|) <= limit
    ensures Emission(Lenient(zone, limit), blocks, b, BlockTxs(b)).Some?
  {
    hide SizeSum, FeeSum, OutputSum, BlockTxs;
  }

  // ---------------------------------------------------------------------------------------------
  // A run, and a block refused for its size

  function First(): Block {
    Successor(NullHash, Coinbase(0, [], 1), [])
  }

  lemma FirstIsJudged(zone: nat, limit: u32, now: nat)
    ensures var b := First();
      && NamesTransactions(b) && Countable(b) && BlockTxs(b) == [Coinbase(0, [], 1)] && SizeSum(BlockTxs(b), 1) == 1
      && HeaderOk(Lenient(zone, limit), now, [], b)
      && BodyOk(Lenient(zone, limit), [], EmptyDerived(true), BlockTxs(b), 1)
      && var verdict := Judge(Lenient(zone, limit), now, [], EmptyDerived(true), b);
         if limit < 1 then verdict.Oversize? else verdict.Accepted?
  {
    hide Applied, Emission, NewEntry, FirstBad;
    SuccessorTxs(NullHash, Coinbase(0, [], 1), []);
    assert [Coinbase(0, [], 1)] + [] == [Coinbase(0, [], 1)];
    assert SizeSum(BlockTxs(First()), 0) == 0;
    LenientVerdict(zone, limit, now, [], EmptyDerived(true), First());
  }

  lemma FirstIsDefined(zone: nat, limit: u32)
    ensures Defined(Lenient(zone, limit), Initial(true), First()) && CanLoad({}, First())
  {
    hide Applied, Judge, HeaderOk, BodyOk;
    FirstIsJudged(zone, limit, 0);
  }

  /** The size failure does happen: a first block of one byte under a limit of zero is refused, yet its coinbase
      stays in the transaction map. */
  lemma OversizeExample()
    ensures Good(Lenient(0, 0), Initial(true))
    ensures var (s', ok) := PushBlock(Lenient(0, 0), 0, Initial(true), First());
      !ok && s' != Initial(true) && OfTransaction(First().baseTransaction) in s'.d.transactions
  {
    hide Good, Applied, HeaderOk, BodyOk, Judge, Defined, SizeSum, BlockTxs, PushBlock, Steady;
    InitialIsGood(Lenient(0, 0), true);
    FirstIsDefined(0, 0);
    FirstIsJudged(0, 0, 0);
    GoodIsSteady(Lenient(0, 0), Initial(true));
    LeavesTransactions(Lenient(0, 0), 0, Initial(true), First());
  }

  /** The premises of the theorems about runs can be met: a run pushes a first block and pops it again. */
  lemma SampleRun()
    ensures var rules, s, steps := Lenient(0, 1), Initial(true), [Push(First(), 5), Pop];
      && Good(rules, s) && RunAllowed(rules, s, steps)
      && |Next(rules, s, steps[0]).blocks| == 1 && Run(rules, s, steps) == s.(now := 5)
  {
    hide Good, Applied, HeaderOk, BodyOk, Judge, Defined, SizeSum, BlockTxs, PushBlock, Harmless, PopBlock, Undoable,
         UnspentIn, Below, Refs, CanLoad;
    var rules, s, b := Lenient(0, 1), Initial(true), First();
    InitialIsGood(rules, true);
    FirstIsDefined(0, 1);
    FirstIsAccepted();
    var t := PushBlock(rules, 5, s, b).0;
    PushKeepsGood(rules, 5, s, b);
    UndoableOutsideZone(rules, t, 0);
    ShorterByOne(t);
    PushedBelow(rules, 5, s, b);
    RunTwo(rules, s, b, t);
  }

  lemma FirstIsAccepted()
    ensures PushBlock(Lenient(0, 1), 5, Initial(true), First()).1
  {
    hide Applied, HeaderOk, BodyOk, Judge, SizeSum, BlockTxs, AddIndexes, CanLoad;
    FirstIsDefined(0, 1);
    FirstIsJudged(0, 1, 5);
  }

  lemma RunTwo(rules: Rules, s: State, b: Block, t: State)
    requires s.now == 0 && Fits(rules, 5, s, b) && t == PushBlock(rules, 5, s, b).0 && |t.blocks| == 1 && Undoable(t, 0)
    ensures var steps := [Push(b, 5), Pop];
      RunAllowed(rules, s, steps) && Run(rules, s, steps) == PopBlock(t) && Next(rules, s, steps[0]) == t
  {
    hide PushBlock, PopBlock, Fits, Undoable;
    var steps := [Push(b, 5), Pop];
    assert steps[1..] == [Pop] && [Pop][1..] == [];
    assert Run(rules, t, [Pop]) == Run(rules, PopBlock(t), []);
  }

  // ---------------------------------------------------------------------------------------------
  // A block in the checkpoint zone that spends a multisignature output again

  function Ring(): Output {
    Output(0, KeyTarget(5))
  }

  function Shared(): Output {
    Output(0, MultisigTarget([], 0))
  }

  /** Different transactions that spend the same multisignature output. */
  function Spend(k: nat): Transaction {
    Transaction(0, [MultisigInput(0, 0, 0)], [], None, 0, k)
  }

  function Zone0(): Block {
    Successor(NullHash, Coinbase(0, [Shared()], 1), [Spend(1)])
  }

  function Zone1(): Block {
    Successor(OfBlock(Zone0()), Coinbase(1, [], 1), [Spend(2)])
  }

  function ZoneStart(): State {
    Initial(false).(pool := {Spend(1), Spend(2)})
  }

  lemma SpendIsFine(k: nat)
    ensures Semantic(Spend(k)) && PaysNoFee(Spend(k)) && MultisigRefs(Spend(k).inputs) == {(0, 0)}
  {
    var inputs := Spend(k).inputs;
    assert inputs[..0] == [] && InputSum(inputs[..0]) == 0;
    assert inputs[0].MultisigInput? && (inputs[0].amount as nat, inputs[0].outputIndex) == (0, 0);
  }

  lemma CoinbaseIsFine(height: nat, outs: seq<Output>, size: nat)
    requires outs == [] || outs == [Shared()] || outs == [Ring()]
    ensures OutputSum(outs) == 0 && MultisigRefs(Coinbase(height, outs, size).inputs) == {}
  {
    if outs != [] { assert outs[..0] == []; }
  }

  /** What a coinbase adds to the multisignature outputs. */
  lemma CoinbaseAdds(d: Derived, height: nat, size: nat)
    ensures Apply(d, Coinbase(height, [], size), TransactionIndex(height, 0)).multisigs == d.multisigs
    ensures Apply(d, Coinbase(height, [Shared()], size), TransactionIndex(height, 0)).multisigs
         == Append(d.multisigs, 0, MultisigUsage(TransactionIndex(height, 0), 0, false))
  {
    hide Mark, MultisigRefs;
    CoinbaseIsFine(height, [], size);
    CoinbaseIsFine(height, [Shared()], size);
    MarkNone(d.multisigs, true);
    var outs, at := [Shared()], TransactionIndex(height, 0);
    assert AddMultisigOutputs(d.multisigs, outs, at, 0) == d.multisigs;
    assert AddMultisigOutputs(d.multisigs, outs, at, 1) == AddMultisigOutput(d.multisigs, outs[0], at, 0);
  }

  lemma SpendMarks(d: Derived, k: nat, at: TransactionIndex)
    requires InRange(d.multisigs, (0, 0))
    ensures InRange(Apply(d, Spend(k), at).multisigs, (0, 0)) && !Unused(Apply(d, Spend(k), at).multisigs, (0, 0))
  {
    hide Mark, MultisigRefs;
    SpendIsFine(k);
    MarkedAt(d.multisigs, {(0, 0)}, true, 0, 0);
  }

  /** The derived state after the first block: the output exists and is spent. */
  lemma AfterZone0(d: Derived)
    requires d == EmptyDerived(false)
    ensures NamesTransactions(Zone0()) && BlockTxs(Zone0()) == [Coinbase(0, [Shared()], 1), Spend(1)]
    ensures var all := BlockTxs(Zone0());
      && InRange(Applied(d, all, 0, 1).multisigs, (0, 0))
      && InRange(Applied(d, all, 0, 2).multisigs, (0, 0)) && !Unused(Applied(d, all, 0, 2).multisigs, (0, 0))
  {
    hide Apply;
    SuccessorTxs(NullHash, Coinbase(0, [Shared()], 1), [Spend(1)]);
    var all := BlockTxs(Zone0());
    assert all == [Coinbase(0, [Shared()], 1), Spend(1)];
    NoneApplied(d, all, 0);
    CoinbaseAdds(d, 0, 1);
    assert Applied(d, all, 0, 1) == Apply(d, all[0], TransactionIndex(0, 0));
    OnlyBlockAdds(d, all, 0, 1, OfTransaction(all[1]));
    assert all[0] != all[1] by { assert all[0].inputs[0].BaseInput? && all[1].inputs[0].MultisigInput?; }
    SpendMarks(Applied(d, all, 0, 1), 1, TransactionIndex(0, 1));
  }

  lemma AfterCoinbase1(d: Derived)
    requires InRange(d.multisigs, (0, 0))
    ensures NamesTransactions(Zone1()) && BlockTxs(Zone1()) == [Coinbase(1, [], 1), Spend(2)]
    ensures InRange(Applied(d, BlockTxs(Zone1()), 1, 1).multisigs, (0, 0))
  {
    hide Apply;
    SuccessorTxs(OfBlock(Zone0()), Coinbase(1, [], 1), [Spend(2)]);
    var all := BlockTxs(Zone1());
    assert all == [Coinbase(1, [], 1), Spend(2)];
    NoneApplied(d, all, 1);
    CoinbaseAdds(d, 1, 1);
    assert Applied(d, all, 1, 1) == Record(d, all[0], TransactionIndex(1, 0));
  }

  /** In the zone, a block of a coinbase and one such transaction is defined as soon as the output exists. */
  lemma ZoneBlockIsFine(s: State, b: Block, outs: seq<Output>, k: nat)
    requires NamesTransactions(b) && BlockTxs(b) == [Coinbase(|s.blocks|, outs, 1), Spend(k)]
    requires outs == [] || outs == [Shared()]
    requires b.timestamp == 0 && b.previous == Tail(s.blocks) && OfBlock(b) !in Ids(s.blocks)
    requires InRange(Applied(s.d, BlockTxs(b), |s.blocks|, 1).multisigs, (0, 0))
    requires Spend(k) in s.pool && |s.blocks| < 2
    ensures Defined(Lenient(2, 10), s, b) && CanLoad(s.pool, b)
    ensures Judge(Lenient(2, 10), s.now, s.blocks, s.d, b).Accepted?
    ensures PushBlock(Lenient(2, 10), s.now, s, b).1
  {
    hide Applied, NewEntry, Emission, HeaderOk, FirstBad, PaysNoFee, MultisigRefs, OutputSum, AddIndexes, SizeSum,
         Semantic;
    var rules, all := Lenient(2, 10), BlockTxs(b);
    SpendIsFine(k);
    CoinbaseIsFine(|s.blocks|, outs, 1);
    assert BodyOk(rules, s.blocks, s.d, all, |all|);
    TwoSizes(all[0], all[1]);
    LenientVerdict(2, 10, s.now, s.blocks, s.d, b);
    assert CanLoad(s.pool, b);
  }

  lemma TwoSizes(x: Transaction, y: Transaction)
    ensures SizeSum([x, y], 2) == x.blobSize + y.blobSize
  {
    var all := [x, y];
    assert SizeSum(all, 0) == 0 && SizeSum(all, 1) == x.blobSize;
  }

  lemma ZoneStartIsGood(rules: Rules)
    ensures Good(rules, ZoneStart())
  {
    hide Semantic, Rebuild, IndexesOf;
    InitialIsGood(rules, false);
    SpendIsFine(1);
    SpendIsFine(2);
  }

  /** A checkpoint zone does accept a block that spends a multisignature output again, and popping that block does not
      restore the state: the output is unspent then, although the first block still spends it. */
  lemma ZoneExample()
    ensures var rules := Lenient(2, 10);
      var (s1, ok1) := PushBlock(rules, 0, ZoneStart(), Zone0());
      var (s2, ok2) := PushBlock(rules, 0, s1, Zone1());
      && Good(rules, ZoneStart()) && ok1 && ok2 && Good(rules, s1) && Good(rules, s2)
      && PopBlock(s2) != s1 && !Good(rules, PopBlock(s2))
  {
    hide Good, Applied, HeaderOk, BodyOk, Judge, Defined, SizeSum, BlockTxs, Harmless, PopBlock, UnspentIn, Refs,
         CanLoad, PushBlock, AddIndexes, Rebuild, IndexesOf, Zone0, Zone1, Below;
    var rules, s := Lenient(2, 10), ZoneStart();
    ZoneStartIsGood(rules);
    AfterZone0(s.d);
    Zone0Fits(s);
    ZoneBlockIsFine(s, Zone0(), [Shared()], 1);
    PushKeepsGood(rules, 0, s, Zone0());
    var s1 := PushBlock(rules, 0, s, Zone0()).0;
    FirstPushed(rules, s, Zone0());
    AfterCoinbase1(s1.d);
    Zone1Fits(s1);
    ZoneBlockIsFine(s1, Zone1(), [], 2);
    PushKeepsGood(rules, 0, s1, Zone1());
    PopUndoesPush(rules, 0, s1, Zone1());
    SpentAgain(s1.d);
    PopNotGood(rules, s1, Zone1());
  }

  lemma Zone0Fits(s: State)
    requires s == ZoneStart()
    ensures Zone0().timestamp == 0 && Zone0().previous == Tail(s.blocks) && OfBlock(Zone0()) !in Ids(s.blocks)
            && Spend(1) in s.pool
  {
  }

  lemma FirstPushed(rules: Rules, s: State, b: Block)
    requires s == ZoneStart() && b == Zone0() && PushBlock(rules, 0, s, b).1
    ensures var s1 := PushBlock(rules, 0, s, b).0;
      && |s1.blocks| == 1 && s1.blocks[0].bl == b && s1.now == 0 && Spend(2) in s1.pool
      && NamesTransactions(b) && s1.d == Applied(s.d, BlockTxs(b), 0, |BlockTxs(b)|)
  {
    hide Applied, AddIndexes, HeaderOk, BodyOk, Emission, SizeSum, FirstBad, Undone;
    SuccessorTxs(NullHash, Coinbase(0, [Shared()], 1), [Spend(1)]);
    assert Spend(2) !in NamedSet(b);
  }

  lemma Zone1Fits(s: State)
    requires |s.blocks| == 1 && s.blocks[0].bl == Zone0()
    ensures Zone1().timestamp == 0 && Zone1().previous == Tail(s.blocks) && OfBlock(Zone1()) !in Ids(s.blocks)
  {
    assert Zone1().baseTransaction.inputs[0] == BaseInput(1) && Zone0().baseTransaction.inputs[0] == BaseInput(0);
  }

  lemma SpentAgain(d: Derived)
    requires InRange(d.multisigs, (0, 0)) && !Unused(d.multisigs, (0, 0))
    requires NamesTransactions(Zone1()) && BlockTxs(Zone1()) == [Coinbase(1, [], 1), Spend(2)]
    ensures !UnspentIn(d.multisigs, Refs(BlockTxs(Zone1()), |BlockTxs(Zone1())|))
  {
    hide MultisigRefs, Zone1;
    SpendIsFine(2);
    var all := BlockTxs(Zone1());
    assert Refs(all, 2) == Refs(all, 1) + MultisigRefs(all[1].inputs);
    assert (0, 0) in Refs(all, 2);
  }

  lemma PopNotGood(rules: Rules, s: State, b: Block)
    requires Good(rules, s) && Defined(rules, s, b) && PushBlock(rules, s.now, s, b).1 && NamesTransactions(b)
    requires !UnspentIn(s.d.multisigs, Refs(BlockTxs(b), |BlockTxs(b)|))
    ensures !Good(rules, PopBlock(PushBlock(rules, s.now, s, b).0))
  {
    hide Good, Defined, Harmless, PopBlock, UnspentIn, Refs, PushBlock, Below, BlockTxs;
    var s' := PushBlock(rules, s.now, s, b).0;
    PushKeepsGood(rules, s.now, s, b);
    PushedBelow(rules, s.now, s, b);
    PopGivesRebuild(rules, s');
    LastNames(rules, s');
  }

  // ---------------------------------------------------------------------------------------------
  // A block that spends an output of its own

  /** Outside the zone the check of the same first block throws: it looks for the coinbase in a block that is not in the
      chain yet. The coinbase stays in the transaction map and the transaction is lost. */
  lemma ThrowExample()
    ensures var rules, b := Lenient(0, 10), Zone0();
      var (s', ok) := PushBlock(rules, 0, ZoneStart(), b);
      && Good(rules, ZoneStart()) && IsThrown(rules, 0, ZoneStart(), b) && !ok && !Good(rules, s')
      && OfTransaction(b.baseTransaction) in s'.d.transactions && Spend(1) in ZoneStart().pool && Spend(1) !in s'.pool
  {
    hide Good, Applied, Judge, Defined, SizeSum, Harmless, UnspentIn, Touched, PushBlock, Steady, Zone0, HeaderOk,
         BadThrows, FailsForSize, BlockTxs, CanLoad;
    var rules, s, b := Lenient(0, 10), ZoneStart(), Zone0();
    ZoneStartIsGood(rules);
    GoodIsSteady(rules, s);
    Zone0Throws();
    PushKeepsGood(rules, 0, s, b);
    LeavesTransactions(rules, 0, s, b);
    LosesNamed(rules, 0, s, b, Spend(1));
  }

  lemma Zone0Throws()
    ensures var rules, s, b := Lenient(0, 10), ZoneStart(), Zone0();
      IsThrown(rules, 0, s, b) && Defined(rules, s, b) && Spend(1) in NamedSet(b)
  {
    hide Applied, SizeSum, MultisigRefs;
    var rules, s, b := Lenient(0, 10), ZoneStart(), Zone0();
    AfterZone0(s.d);
    CoinbaseIsFine(0, [Shared()], 1);
    var all, d := BlockTxs(b), Applied(s.d, BlockTxs(b), 0, 1);
    NoneApplied(s.d, all, 0);
    CoinbaseAdds(s.d, 0, 1);
    FirstApplied(s.d, all, 0);
    assert Unused(d.multisigs, (0, 0)) && d.multisigs[0][0].at == TransactionIndex(0, 0);
    assert InputOutcome(rules, [], d, Spend(1), 0) == Throws;
    assert InputsOutcome(rules, [], d, all[1], 0) == Throws;
    assert b.transactionHashes[0] == OfTransaction(Spend(1));
  }

  lemma FirstApplied(d: Derived, all: seq<Transaction>, n: nat)
    requires all != [] && OfTransaction(all[0]) !in d.transactions
    ensures Applied(d, all, n, 1) == Apply(d, all[0], TransactionIndex(n, 0))
  {
    hide Apply;
    NoneApplied(d, all, n);
  }

  lemma LosesNamed(rules: Rules, now: nat, s: State, b: Block, tx: Transaction)
    requires IsThrown(rules, now, s, b) && tx in NamedSet(b)
    ensures tx !in PushBlock(rules, now, s, b).0.pool
  {
    hide Judge, IsThrown, Applied;
    if CanLoad(s.pool, b) { VerdictOf(rules, now, s, b); } else { OnlyLoaded(rules, now, s, b); }
  }

  // ---------------------------------------------------------------------------------------------
  // A switch that loses blocks

  /** A transaction that spends one key image. */
  function Payment(): Transaction {
    Transaction(0, [KeyInput(0, [0], 7)], [], None, 0, 1)
  }

  /** One that is too large for a block, with another key image and an output. */
  function Large(): Transaction {
    Transaction(0, [KeyInput(0, [0], 8)], [Ring()], None, 50, 2)
  }

  /** The first block has the output that their rings name. */
  function Genesis(): Block {
    Successor(NullHash, Coinbase(0, [Ring()], 1), [])
  }

  function Current(): Block {
    Successor(OfBlock(Genesis()), Coinbase(1, [], 1), [Payment()])
  }

  /** The alternative chain: its first block names both transactions. */
  function Alternative1(): Block {
    Successor(OfBlock(Genesis()), Coinbase(1, [], 1), [Payment(), Large()])
  }

  function Alternative2(): Block {
    Successor(OfBlock(Alternative1()), Coinbase(2, [], 1), [])
  }

  lemma KeySpendIsFine(member: u32, image: nat, outs: seq<Output>, size: nat, k: nat)
    requires outs == [] || outs == [Ring()]
    ensures var tx := Transaction(0, [KeyInput(0, [member], image)], outs, None, size, k);
      Semantic(tx) && PaysNoFee(tx) && KeyImages(tx.inputs) == {image}
  {
    var inputs := [KeyInput(0, [member], image)];
    CoinbaseIsFine(0, outs, size);
    assert inputs[..0] == [] && InputSum(inputs[..0]) == 0;
    assert inputs[0].KeyInput? && inputs[0].keyImage == image;
  }

  lemma PaymentsAreFine()
    ensures Semantic(Payment()) && PaysNoFee(Payment()) && KeyImages(Payment().inputs) == {7}
    ensures Semantic(Large()) && PaysNoFee(Large()) && KeyImages(Large().inputs) == {8}
  {
    KeySpendIsFine(0, 7, [], 0, 1);
    KeySpendIsFine(0, 8, [Ring()], 50, 2);
  }

  lemma CoinbaseSpendsNothing(d: Derived, height: nat, outs: seq<Output>, size: nat, at: TransactionIndex)
    ensures Record(d, Coinbase(height, outs, size), at).spentKeys == d.spentKeys
  {
    assert KeyImages(Coinbase(height, outs, size).inputs) == {};
  }

  /** The output of the first block is at the front of its vector. */
  ghost predicate HasRing(blocks: seq<BlockEntry>, d: Derived) {
    && 0 in d.outputs && d.outputs[0] != [] && d.outputs[0][0] == OutputRef(TransactionIndex(0, 0), 0)
    && blocks != [] && |blocks[0].transactions| == 1 && blocks[0].transactions[0].tx == Coinbase(0, [Ring()], 1)
  }

  lemma RecordKeepsRing(blocks: seq<BlockEntry>, d: Derived, tx: Transaction, at: TransactionIndex)
    requires HasRing(blocks, d)
    ensures HasRing(blocks, Record(d, tx, at))
  {
    hide AddKeyOutputs, AddMultisigOutputs, Mark, KeyImages, MultisigRefs;
    Places.KeyOutputsGrow(d.outputs, tx.outputs, at, |tx.outputs|);
    assert d.outputs[0] <= AddKeyOutputs(d.outputs, tx.outputs, at, |tx.outputs|)[0];
  }

  /** A ring that names that output passes. */
  lemma RingPasses(blocks: seq<BlockEntry>, d: Derived, tx: Transaction)
    requires HasRing(blocks, d) && |tx.inputs| == 1 && tx.inputs[0].KeyInput? && tx.inputs[0].amount == 0
    requires tx.inputs[0].outputIndexes == [0] && tx.inputs[0].keyImage !in d.spentKeys
    ensures InputsOk(Lenient(0, 10), blocks, d, tx)
  {
    var rules, offsets := Lenient(0, 10), [0];
    assert Absolute(offsets, 0) == 0 && MemberOk(rules, blocks, d.outputs[0][0]);
    assert Scan(rules, blocks, d.outputs[0], offsets, 1) == Passes;
    assert InputOk(rules, blocks, d, tx, 0);
  }

  lemma RecordSpends(d: Derived, tx: Transaction, at: TransactionIndex)
    ensures Record(d, tx, at).spentKeys <= d.spentKeys + KeyImages(tx.inputs)
  {
  }

  /** The transactions of the block pass the checks on a state in which neither key image is spent. */
  lemma PaymentsPass(d: Derived, blocks: seq<BlockEntry>, all: seq<Transaction>, outs: seq<Output>)
    requires all != [] && all[0] == Coinbase(|blocks|, outs, 1)
    requires all[1..] == [] || (HasRing(blocks, d) && (all[1..] == [Payment()] || all[1..] == [Payment(), Large()]))
    requires 7 !in d.spentKeys && 8 !in d.spentKeys
    ensures BodyOk(Lenient(0, 10), blocks, d, all, |all|)
  {
    hide Record, KeyImages, InputsOk, HasRing;
    var n := |blocks|;
    NoneApplied(d, all, n);
    CoinbaseSpendsNothing(d, n, outs, 1, TransactionIndex(n, 0));
    PaymentsAreFine();
    var d1 := Applied(d, all, n, 1);
    assert d1 == Record(d, all[0], TransactionIndex(n, 0));
    if |all| > 1 {
      assert all[1] == all[1..][0] == Payment();
      RecordKeepsRing(blocks, d, all[0], TransactionIndex(n, 0));
      RingPasses(blocks, d1, Payment());
      RecordSpends(d1, all[1], TransactionIndex(n, 1));
      RecordKeepsRing(blocks, d1, all[1], TransactionIndex(n, 1));
      assert Applied(d, all, n, 2) == Record(d1, all[1], TransactionIndex(n, 1));
    }
    if |all| > 2 {
      assert all[2] == all[1..][1] == Large();
      RingPasses(blocks, Applied(d, all, n, 2), Large());
    }
  }

  lemma OneSize(x: Transaction)
    ensures SizeSum([x], 1) == x.blobSize
  {
    assert SizeSum([x], 0) == 0;
  }

  lemma ThreeSizes(x: Transaction, y: Transaction, z: Transaction)
    ensures SizeSum([x, y, z], 3) == x.blobSize + y.blobSize + z.blobSize
  {
    var all := [x, y, z];
    assert SizeSum(all, 0) == 0 && SizeSum(all, 1) == x.blobSize && SizeSum(all, 2) == x.blobSize + y.blobSize;
  }

  /** A block of a coinbase and these transactions fails at most for its size. */
  lemma PaymentBlock(s: State, b: Block, outs: seq<Output>, txs: seq<Transaction>)
    requires b == Successor(Tail(s.blocks), Coinbase(|s.blocks|, outs, 1), txs) && OfBlock(b) !in Ids(s.blocks)
    requires outs == [] || outs == [Ring()]
    requires txs == [] || (HasRing(s.blocks, s.d) && (txs == [Payment()] || txs == [Payment(), Large()]))
    requires (forall tx | tx in txs :: tx in s.pool) && 7 !in s.d.spentKeys && 8 !in s.d.spentKeys
    ensures Defined(Lenient(0, 10), s, b) && CanLoad(s.pool, b)
    ensures var rules := Lenient(0, 10);
      if |txs| == 2 then FailsForSize(rules, s.now, s, b)
      else Judge(rules, s.now, s.blocks, s.d, b).Accepted? && PushBlock(rules, s.now, s, b).1
  {
    hide Applied, NewEntry, Emission, HeaderOk, BodyOk, FirstBad, PaysNoFee, OutputSum, AddIndexes, SizeSum,
         Semantic, Judge, HasRing;
    var coinbase := Coinbase(|s.blocks|, outs, 1);
    SuccessorTxs(Tail(s.blocks), coinbase, txs);
    var all := BlockTxs(b);
    assert all[1..] == txs;
    PaymentsAreFine();
    CoinbaseIsFine(|s.blocks|, outs, 1);
    PaymentsPass(s.d, s.blocks, all, outs);
    assert all == [coinbase] || all == [coinbase, Payment()] || all == [coinbase, Payment(), Large()];
    OneSize(coinbase);
    TwoSizes(coinbase, Payment());
    ThreeSizes(coinbase, Payment(), Large());
    forall j | 1 <= j < |all| ensures PaysNoFee(all[j]) { assert all[j] == txs[j - 1]; }
    LenientVerdict(0, 10, s.now, s.blocks, s.d, b);
    LoadsFrom(s.pool, b, txs);
  }

  lemma LoadsFrom(pool: set<Transaction>, b: Block, txs: seq<Transaction>)
    requires b.transactionHashes == seq(|txs|, i requires 0 <= i < |txs| => OfTransaction(txs[i]))
    requires (forall tx | tx in txs :: tx in pool) && forall i, j | 0 <= i < j < |txs| :: txs[i] != txs[j]
    ensures CanLoad(pool, b)
  {
    forall i | 0 <= i < |b.transactionHashes| ensures b.transactionHashes[i].tx in pool { assert txs[i] in txs; }
  }

  // The run, state by state.

  ghost function OnBase(): State {
    Run(Lenient(0, 10), Initial(false), [Receive(Payment()), Push(Genesis(), 0)])
  }

  ghost function OnCurrent(): State {
    Next(Lenient(0, 10), OnBase(), Push(Current(), 0))
  }

  ghost function AtSwitch(): State {
    Next(Lenient(0, 10), OnCurrent(), Receive(Large()))
  }

  lemma PaymentPooled()
    ensures var s := Next(Lenient(0, 10), Initial(false), Receive(Payment()));
      Good(Lenient(0, 10), s) && s == Initial(false).(pool := {Payment()})
  {
    hide Semantic, Good, Allowed;
    InitialIsGood(Lenient(0, 10), false);
    PaymentsAreFine();
    AlwaysAllowed(Lenient(0, 10), Initial(false), Payment());
    StepKeepsGood(Lenient(0, 10), Initial(false), Receive(Payment()));
  }

  lemma AlwaysAllowed(rules: Rules, s: State, tx: Transaction)
    ensures Allowed(rules, s, Receive(tx))
  {
  }

  lemma BaseIsReached()
    ensures var s := OnBase();
      && Good(Lenient(0, 10), s) && |s.blocks| == 1 && s.blocks[0].bl == Genesis() && s.now == 0
      && s.pool == {Payment()} && s.d.spentKeys == {} && HasRing(s.blocks, s.d)
  {
    hide Good, Defined, PushBlock, CanLoad, Harmless, Next, Tail, Ids, Judge, FailsForSize, Initial, HasRing;
    var rules, s0, steps := Lenient(0, 10), Initial(false), [Receive(Payment()), Push(Genesis(), 0)];
    var s := Next(rules, s0, steps[0]);
    PaymentPooled();
    EmptyChain();
    PaymentBlock(s, Genesis(), [Ring()], []);
    PushKeepsGood(rules, 0, s, Genesis());
    PushOfEmpty(rules, s);
    RunOfTwo(rules, s0, steps[0], steps[1]);
    NextPush(rules, s, Genesis());
  }

  lemma RunOfTwo(rules: Rules, s: State, x: Step, y: Step)
    ensures Run(rules, s, [x, y]) == Next(rules, Next(rules, s, x), y)
  {
    hide Next;
    assert [x, y][1..] == [y] && [y][1..] == [];
    assert Run(rules, Next(rules, s, x), [y]) == Next(rules, Next(rules, s, x), y);
  }

  lemma NextPush(rules: Rules, s: State, b: Block)
    ensures Next(rules, s, Push(b, 0)) == PushBlock(rules, s.now, s, b).0
  {
    hide PushBlock;
  }

  lemma EmptyChain()
    ensures var s := Initial(false).(pool := {Payment()});
      && Tail(s.blocks) == NullHash && OfBlock(Genesis()) !in Ids(s.blocks) && s.blocks == [] && s.now == 0
      && 7 !in s.d.spentKeys && 8 !in s.d.spentKeys && s.pool == {Payment()}
  {
  }

  lemma PushOfEmpty(rules: Rules, s: State)
    requires s == Initial(false).(pool := {Payment()}) && PushBlock(rules, 0, s, Genesis()).1
    ensures var s1 := PushBlock(rules, 0, s, Genesis()).0;
      && |s1.blocks| == 1 && s1.blocks[0].bl == Genesis() && s1.now == 0 && s1.pool == {Payment()}
      && s1.d.spentKeys == {}
      && HasRing(s1.blocks, s1.d)
  {
    hide AddIndexes, HeaderOk, BodyOk, Emission, SizeSum, FirstBad, Undone, Record, BadThrows;
    SuccessorTxs(NullHash, Coinbase(0, [Ring()], 1), []);
    var all := BlockTxs(Genesis());
    assert all == [Coinbase(0, [Ring()], 1)];
    NoneApplied(s.d, all, 0);
    CoinbaseSpendsNothing(s.d, 0, [Ring()], 1, TransactionIndex(0, 0));
    assert Applied(s.d, all, 0, 1) == Record(s.d, all[0], TransactionIndex(0, 0));
    RingRecorded(s.d);
    assert NamedSet(Genesis()) == {};
  }

  lemma RingRecorded(d: Derived)
    requires d == EmptyDerived(false)
    ensures Record(d, Coinbase(0, [Ring()], 1), TransactionIndex(0, 0)).outputs ==
            map[0 := [OutputRef(TransactionIndex(0, 0), 0)]]
  {
    var outs, at := [Ring()], TransactionIndex(0, 0);
    assert AddKeyOutputs(d.outputs, outs, at, 0) == d.outputs;
    assert AddKeyOutputs(d.outputs, outs, at, 1) == AddKeyOutput(d.outputs, outs[0], at, 0);
    assert AddKeyOutputs(d.outputs, outs, at, 1) == Append(d.outputs, 0, OutputRef(at, 0));
    assert Vec(d.outputs, 0) + [OutputRef(at, 0)] == [OutputRef(at, 0)];
  }

  lemma OnTopOfBase(blocks: seq<BlockEntry>)
    requires |blocks| == 1 && blocks[0].bl == Genesis()
    ensures Tail(blocks) == OfBlock(Genesis()) && OfBlock(Current()) !in Ids(blocks)
            && OfBlock(Alternative1()) !in Ids(blocks)
  {
    assert Genesis().baseTransaction.inputs[0] == BaseInput(0) && Current().baseTransaction.inputs[0] == BaseInput(1);
    assert Alternative1().baseTransaction.inputs[0] == BaseInput(1);
  }

  /** What the two blocks in competition name. */
  lemma NamedPayments()
    ensures NamedSet(Current()) == {Payment()} && NamedSet(Alternative1()) == {Payment(), Large()}
    ensures Current().transactionHashes == [OfTransaction(Payment())]
    ensures Alternative1().transactionHashes == [OfTransaction(Payment()), OfTransaction(Large())]
  {
    var h, a := Current().transactionHashes, Alternative1().transactionHashes;
    assert h == [OfTransaction(Payment())] && h[0].tx == Payment();
    assert a == [OfTransaction(Payment()), OfTransaction(Large())] && a[0].tx == Payment() && a[1].tx == Large();
  }

  lemma CurrentIsReached()
    ensures var rules, s, s2 := Lenient(0, 10), OnBase(), OnCurrent();
      && Good(rules, s2) && |s2.blocks| == 2 && s2.blocks[1].bl == Current() && s2.now == 0 && s2.pool == {}
      && Below(s2, 1) == s && OfTransaction(Large()) !in s2.d.transactions
  {
    hide Good, Defined, PushBlock, CanLoad, Harmless, Next, Tail, Ids, Judge, FailsForSize, OnBase, NamedSet, Below,
         Current, HasRing;
    var rules, s := Lenient(0, 10), OnBase();
    BaseIsReached();
    OnTopOfBase(s.blocks);
    CurrentIsSuccessor(s.blocks);
    PaymentBlock(s, Current(), [], [Payment()]);
    PushKeepsGood(rules, 0, s, Current());
    PushedBelow(rules, 0, s, Current());
    NamedPayments();
    NextPush(rules, s, Current());
    PushNow(rules, 0, s, Current());
    LargeIsUnknown(rules, OnCurrent());
  }

  lemma CurrentIsSuccessor(blocks: seq<BlockEntry>)
    requires |blocks| == 1 && Tail(blocks) == OfBlock(Genesis())
    ensures Current() == Successor(Tail(blocks), Coinbase(|blocks|, [], 1), [Payment()])
    ensures Alternative1() == Successor(Tail(blocks), Coinbase(|blocks|, [], 1), [Payment(), Large()])
  {
  }

  /** A recorded transaction is in a block of the chain. */
  lemma LargeIsUnknown(rules: Rules, s: State)
    requires Good(rules, s) && |s.blocks| == 2 && s.blocks[0].bl == Genesis() && s.blocks[1].bl == Current()
    ensures OfTransaction(Large()) !in s.d.transactions
  {
    hide Good, Rebuild, AllTxs;
    GoodRebuilds(rules, s);
    EntryShape(rules, s, 0);
    EntryShape(rules, s, 1);
    SuccessorTxs(NullHash, Coinbase(0, [Ring()], 1), []);
    SuccessorTxs(OfBlock(Genesis()), Coinbase(1, [], 1), [Payment()]);
    if OfTransaction(Large()) in s.d.transactions { RebuiltAt(s.d.indexed, s.blocks, OfTransaction(Large())); }
  }

  lemma GoodRebuilds(rules: Rules, s: State)
    requires Good(rules, s)
    ensures s.d == Rebuild(s.d.indexed, s.blocks)
  {
    hide Rebuild, IndexesOf, ChainOk;
  }

  /** The large transaction arrives. */
  lemma SwitchIsReached()
    ensures Good(Lenient(0, 10), AtSwitch()) && |AtSwitch().blocks| == 2 && AtSwitch() == OnCurrent().(pool := {Large()})
    ensures Below(AtSwitch(), 1) == OnBase().(pool := {Payment(), Large()})
  {
    hide Good, OnCurrent, OnBase, Semantic, Below, Allowed;
    var rules, s2 := Lenient(0, 10), OnCurrent();
    CurrentIsReached();
    PaymentsAreFine();
    AlwaysAllowed(rules, s2, Large());
    StepKeepsGood(rules, s2, Receive(Large()));
    MorePool(s2, {Large()});
    BaseIsReached();
    assert {Large()} + {Payment()} == {Payment(), Large()};
  }

  lemma MorePool(s: State, pool: set<Transaction>)
    requires |s.blocks| == 2 && s.pool == {}
    ensures Below(s.(pool := pool), 1) == Below(s, 1).(pool := pool + Below(s, 1).pool)
  {
    hide Rebuild, IndexesOf, NamedFrom;
  }

  /** When the alternative blocks arrive, their size test passes: the large transaction is not known when the first one
      does. */
  lemma AlternativesArrive()
    ensures Arrives(Lenient(0, 10), OnCurrent(), Alternative1())
    ensures Arrives(Lenient(0, 10), AtSwitch(), Alternative2())
    ensures AllCountable([Alternative1(), Alternative2()])
  {
    hide OnCurrent, OnBase, Below, Good;
    CurrentIsReached();
    SuccessorTxs(OfBlock(Genesis()), Coinbase(1, [], 1), [Payment(), Large()]);
    SuccessorTxs(OfBlock(Alternative1()), Coinbase(2, [], 1), []);
    FirstArrives(OnCurrent());
    SecondArrives(AtSwitch());
  }

  lemma FirstArrives(s: State)
    requires !Known(s, Large())
    ensures |Alternative1().transactionHashes| == 2 && KnownSize(s, Alternative1(), 2) == 1
  {
    NamedPayments();
    var b := Alternative1();
    assert KnownSize(s, b, 0) == 1 && KnownSize(s, b, 1) == 1;
  }

  lemma SecondArrives(s: State)
    ensures |Alternative2().transactionHashes| == 0 && KnownSize(s, Alternative2(), 0) == 1
  {
  }

  /** Outside every checkpoint zone: two alternative blocks pass the size test on arrival, but the switch to them fails
      for the size of the first, its rollback fails as well, and the block that was disconnected is gone from the
      chain. */
  lemma SwitchExample(delays: nat -> nat)
    requires delays(0) == 0
    ensures var alt := [Alternative1(), Alternative2()];
      && Arrives(Lenient(0, 10), OnCurrent(), alt[0]) && Arrives(Lenient(0, 10), AtSwitch(), alt[1])
      && Good(Lenient(0, 10), AtSwitch()) && |AtSwitch().blocks| == 2
    ensures var (s', ok) := Switch(Lenient(0, 10), delays, AtSwitch(), [Alternative1(), Alternative2()], 1, true);
      !ok && |s'.blocks| == 1
  {
    hide Good, PushBlock, Below, Undoable, Switch, Covers, FailsForSize, NamedSet, OnBase, OnCurrent, AtSwitch,
         Current, Alternative1, Alternative2, Arrives, AllCountable, Defined, CanLoad, Judge, Tail, Ids, HasRing;
    var rules, s3, alt := Lenient(0, 10), AtSwitch(), [Alternative1(), Alternative2()];
    AlternativesArrive();
    CurrentIsReached();
    SwitchIsReached();
    BaseIsReached();
    var p := Below(s3, 1);
    OnTopOfBase(p.blocks);
    CurrentIsSuccessor(p.blocks);
    PaymentBlock(p, Alternative1(), [], [Payment(), Large()]);
    NamedPayments();
    CoversPayment(s3, alt);
    UndoableOutsideZone(rules, s3, 1);
    OversizeSwitchLosesBlocks(rules, delays, s3, alt, 1, Payment(), 0);
  }

  lemma CoversPayment(s: State, alt: seq<Block>)
    requires |s.blocks| == 2 && s.blocks[1].bl == Current() && alt == [Alternative1(), Alternative2()]
    ensures Covers(s.blocks[1..], alt)
  {
    NamedPayments();
    assert OfTransaction(Payment()) in alt[0].transactionHashes;
    forall i, j | 0 <= i < |s.blocks[1..]| && 0 <= j < |s.blocks[1..][i].bl.transactionHashes|
      ensures Contains(alt, s.blocks[1..][i].bl.transactionHashes[j])
    {
      assert s.blocks[1..][i].bl.transactionHashes[j] == OfTransaction(Payment());
    }
  }

  // ---------------------------------------------------------------------------------------------
  // A lookup of what was left behind

  /** A transaction whose ring names the second output of its amount. */
  function Late(): Transaction {
    Transaction(0, [KeyInput(0, [1], 9)], [], None, 0, 3)
  }

  function Plain(): Block {
    Successor(OfBlock(Genesis()), Coinbase(1, [], 2), [])
  }

  function Reaching(): Block {
    Successor(OfBlock(Plain()), Coinbase(2, [], 1), [Late()])
  }

  ghost function Waiting(): State {
    OnBase().(pool := {Payment(), Large(), Late()})
  }

  /** The block that fails for its size leaves the output of its third transaction behind. */
  lemma LargeIsLeft(s: State)
    requires |s.blocks| == 1 && s.blocks[0].bl == Genesis() && HasRing(s.blocks, s.d) && |s.d.outputs[0]| == 1
    requires OfTransaction(Large()) !in s.d.transactions && s.pool == {Payment(), Large(), Late()}
             && s.d.spentKeys == {}
    ensures var (s', ok) := PushBlock(Lenient(0, 10), s.now, s, Alternative1());
      && !ok && s'.blocks == s.blocks && s'.pool == s.pool && s'.now == s.now
      && 0 in s'.d.outputs && |s'.d.outputs[0]| == 2 && s'.d.outputs[0][1] == OutputRef(TransactionIndex(1, 2), 0)
      && 9 !in s'.d.spentKeys
  {
    hide Applied, NewEntry, Emission, HeaderOk, BodyOk, SizeSum, Judge, CanLoad, Record, Undone, Alternative1, Tail,
         Ids;
    var b := Alternative1();
    OnTopOfBase(s.blocks);
    CurrentIsSuccessor(s.blocks);
    PaymentBlock(s, b, [], [Payment(), Large()]);
    VerdictOf(Lenient(0, 10), s.now, s, b);
    SuccessorTxs(Tail(s.blocks), Coinbase(1, [], 1), [Payment(), Large()]);
    ThreeRecorded(s.d, BlockTxs(b));
  }

  lemma NoOutputs(d: Derived, tx: Transaction, at: TransactionIndex)
    requires tx.outputs == []
    ensures Record(d, tx, at).outputs == d.outputs
  {
  }

  lemma RingAdded(d: Derived, tx: Transaction, at: TransactionIndex)
    requires tx.outputs == [Ring()] && OfTransaction(tx) !in d.transactions
    ensures Record(d, tx, at).outputs == Append(d.outputs, 0, OutputRef(at, 0))
  {
    assert AddKeyOutputs(d.outputs, tx.outputs, at, 0) == d.outputs;
    assert AddKeyOutputs(d.outputs, tx.outputs, at, 1) == AddKeyOutput(d.outputs, tx.outputs[0], at, 0);
  }

  lemma ThreeRecorded(d: Derived, all: seq<Transaction>)
    requires all == [Coinbase(1, [], 1)] + [Payment(), Large()] && OfTransaction(Large()) !in d.transactions
    ensures Applied(d, all, 1, 3).outputs == Append(d.outputs, 0, OutputRef(TransactionIndex(1, 2), 0))
    ensures Applied(d, all, 1, 3).spentKeys <= d.spentKeys + {7, 8}
  {
    hide Record, KeyImages;
    PaymentsAreFine();
    CoinbaseSpendsNothing(d, 1, [], 1, TransactionIndex(1, 0));
    NoneApplied(d, all, 1);
    assert all[2] == Large();
    var d1, d2 := Applied(d, all, 1, 1), Applied(d, all, 1, 2);
    NoOutputs(d, all[0], TransactionIndex(1, 0));
    NoOutputs(d1, all[1], TransactionIndex(1, 1));
    OnlyBlockAdds(d, all, 1, 2, OfTransaction(Large()));
    RingAdded(d2, Large(), TransactionIndex(1, 2));
    RecordSpends(d1, all[1], TransactionIndex(1, 1));
    RecordSpends(d2, all[2], TransactionIndex(1, 2));
  }

  lemma GenesisOutputs()
    ensures var d := OnBase().d; 0 in d.outputs && |d.outputs[0]| == 1
  {
    hide Good, Rebuild, OnBase;
    var s := OnBase();
    BaseIsReached();
    GoodRebuilds(Lenient(0, 10), s);
    OneOutput(s);
  }

  lemma OneOutput(s: State)
    requires s.d == Rebuild(s.d.indexed, s.blocks) && |s.blocks| == 1 && HasRing(s.blocks, s.d)
    ensures |s.d.outputs[0]| == 1
  {
    hide Apply;
    var all := AllTxs(s.blocks[0]);
    assert all == [Coinbase(0, [Ring()], 1)];
    assert s.blocks[..0] == [] && Rebuild(s.d.indexed, []) == EmptyDerived(s.d.indexed);
    var d := EmptyDerived(s.d.indexed);
    assert Replayed(d, all, 0, 1) == Apply(Replayed(d, all, 0, 0), all[0], TransactionIndex(0, 0));
    NewIsRecorded(d, all[0], TransactionIndex(0, 0));
    RingAdded(d, all[0], TransactionIndex(0, 0));
    assert Vec(d.outputs, 0) == [];
  }

  /** A block of a coinbase alone is accepted; its entry has one transaction, and the key outputs do not change. */
  lemma PlainPasses(s: State)
    requires |s.blocks| == 1 && s.blocks[0].bl == Genesis()
    ensures var (s', ok) := PushBlock(Lenient(0, 10), s.now, s, Plain());
      && ok && |s'.blocks| == 2 && s'.blocks[0] == s.blocks[0] && s'.blocks[1].bl == Plain()
      && |s'.blocks[1].transactions| == 1
      && s'.pool == s.pool && s'.now == s.now && s'.d.outputs == s.d.outputs && s'.d.spentKeys == s.d.spentKeys
  {
    hide HeaderOk, Emission, SizeSum, FirstBad, AddIndexes, Record, Ids, Tail;
    var rules, b := Lenient(0, 10), Plain();
    OnTopOfBase(s.blocks);
    SuccessorTxs(OfBlock(Genesis()), Coinbase(1, [], 2), []);
    var all := BlockTxs(b);
    assert all == [Coinbase(1, [], 2)];
    PlainIsNew(s.blocks);
    OneSize(all[0]);
    CoinbaseIsFine(1, [], 2);
    LenientVerdict(0, 10, s.now, s.blocks, s.d, b);
    NoneApplied(s.d, all, 1);
    NoOutputs(s.d, all[0], TransactionIndex(1, 0));
    CoinbaseSpendsNothing(s.d, 1, [], 2, TransactionIndex(1, 0));
    assert NamedSet(b) == {};
  }

  lemma PlainIsNew(blocks: seq<BlockEntry>)
    requires |blocks| == 1 && blocks[0].bl == Genesis()
    ensures OfBlock(Plain()) !in Ids(blocks)
  {
    assert Genesis().baseTransaction.inputs[0] == BaseInput(0) && Plain().baseTransaction.inputs[0] == BaseInput(1);
  }

  /** The check of the ring then finds the block of the output that was left behind, but not its third transaction. */
  lemma ReachingIsOutside(s: State)
    requires |s.blocks| == 2 && s.blocks[0].bl == Genesis() && s.blocks[1].bl == Plain()
             && |s.blocks[1].transactions| == 1
    requires Late() in s.pool && 9 !in s.d.spentKeys
    requires 0 in s.d.outputs && |s.d.outputs[0]| == 2 && s.d.outputs[0][1] == OutputRef(TransactionIndex(1, 2), 0)
    ensures !Inside(Lenient(0, 10), s.now, s, Reaching()) && !Handled(Lenient(0, 10), s.now, s, Reaching())
  {
    hide Record, KeyImages, Countable, UndoDefined;
    var rules, b := Lenient(0, 10), Reaching();
    SuccessorTxs(OfBlock(Plain()), Coinbase(2, [], 1), [Late()]);
    var all := BlockTxs(b);
    assert all == [Coinbase(2, [], 1), Late()];
    CoinbaseIsFine(2, [], 1);
    NoneApplied(s.d, all, 2);
    NoOutputs(s.d, all[0], TransactionIndex(2, 0));
    CoinbaseSpendsNothing(s.d, 2, [], 1, TransactionIndex(2, 0));
    var d := Applied(s.d, all, 2, 1);
    assert d == Record(s.d, all[0], TransactionIndex(2, 0));
    assert Absolute([1], 0) == 1 && !ScanInside(rules, s.blocks, d.outputs[0], [1], 0);
    assert !InputInside(rules, s.blocks, d, all[1], 0);
    assert !InputsInside(rules, s.blocks, d, all[1], 0);
    ReachingFits(s);
    NoneChecked(rules, s.blocks, s.d, all);
  }

  lemma ReachingFits(s: State)
    requires |s.blocks| == 2 && s.blocks[0].bl == Genesis() && s.blocks[1].bl == Plain() && Late() in s.pool
    ensures HeaderOk(Lenient(0, 10), s.now, s.blocks, Reaching()) && CanLoad(s.pool, Reaching())
  {
    var b := Reaching();
    CoinbaseIsFine(2, [], 1);
    assert Genesis().baseTransaction.inputs[0] == BaseInput(0) && Plain().baseTransaction.inputs[0] == BaseInput(1);
    assert b.baseTransaction.inputs[0] == BaseInput(2);
    assert b.transactionHashes == [OfTransaction(Late())];
  }

  /** What a failure for size leaves behind can lead a later check past the transactions of a block: a run of three
      pushes, outside every checkpoint zone, whose last step is undefined. */
  lemma UndefinedExample()
    ensures var rules, s := Lenient(0, 10), Waiting();
      var steps := [Push(Alternative1(), 0), Push(Plain(), 0), Push(Reaching(), 0)];
      Good(rules, s) && (forall i | 0 <= i < 3 :: StepCountable(steps[i])) && !RunInside(rules, s, steps)
        && !RunHandled(rules, s, steps)
  {
    hide Good, PushBlock, OnBase, Alternative1, Plain, Reaching, Genesis, HasRing, Inside, Handled, Countable;
    var rules, s := Lenient(0, 10), Waiting();
    BaseIsReached();
    GenesisOutputs();
    WaitingIsGood();
    LargeIsLeft(s);
    var s1 := PushBlock(rules, s.now, s, Alternative1()).0;
    PlainPasses(s1);
    var s2 := PushBlock(rules, s1.now, s1, Plain()).0;
    ReachingIsOutside(s2);
    CountableThree();
    var steps := [Push(Alternative1(), 0), Push(Plain(), 0), Push(Reaching(), 0)];
    NextPush(rules, s, Alternative1());
    NextPush(rules, s1, Plain());
    assert steps[1..] == [Push(Plain(), 0), Push(Reaching(), 0)] && steps[1..][1..] == [Push(Reaching(), 0)];
    assert !RunInside(rules, s2, [Push(Reaching(), 0)]) && !RunHandled(rules, s2, [Push(Reaching(), 0)]);
    assert !RunInside(rules, s1, steps[1..]) && !RunHandled(rules, s1, steps[1..]);
  }

  lemma CountableThree()
    ensures forall b | b in [Alternative1(), Plain(), Reaching()] :: NamesTransactions(b) ==> Countable(b)
  {
    SuccessorTxs(OfBlock(Genesis()), Coinbase(1, [], 1), [Payment(), Large()]);
    SuccessorTxs(OfBlock(Genesis()), Coinbase(1, [], 2), []);
    SuccessorTxs(OfBlock(Plain()), Coinbase(2, [], 1), [Late()]);
  }

  lemma WaitingIsGood()
    ensures Good(Lenient(0, 10), Waiting()) && OfTransaction(Large()) !in OnBase().d.transactions
  {
    hide Good, OnBase, Semantic, HasRing, Rebuild, AllTxs;
    var rules, s := Lenient(0, 10), OnBase();
    BaseIsReached();
    GoodRebuilds(rules, s);
    PaymentsAreFine();
    KeySpendIsFine(1, 9, [], 0, 3);
    EntryShape(rules, s, 0);
    SuccessorTxs(NullHash, Coinbase(0, [Ring()], 1), []);
    forall tx | tx in [Payment(), Large(), Late()] ensures OfTransaction(tx) !in s.d.transactions {
      if OfTransaction(tx) in s.d.transactions { RebuiltAt(s.d.indexed, s.blocks, OfTransaction(tx)); }
    }
    assert Payment() in [Payment(), Large(), Late()] && Large() in [Payment(), Large(), Late()]
           && Late() in [Payment(), Large(), Late()];
    GoodPool(rules, s, {Payment(), Large(), Late()});
  }

  lemma GoodPool(rules: Rules, s: State, pool: set<Transaction>)
    requires Good(rules, s) && forall tx | tx in pool :: Semantic(tx) && OfTransaction(tx) !in s.d.transactions
    ensures Good(rules, s.(pool := pool))
  {
    hide Rebuild, IndexesOf, ChainOk, Semantic;
  }

  // ---------------------------------------------------------------------------------------------
  // A ring over an output of another amount

  function Filler(): Transaction {
    Transaction(0, [KeyInput(0, [0], 10)], [], None, 0, 4)
  }

  /** A transaction that moves an amount of seven; in the zone nobody looks for the output it spends. */
  function Seven(): Transaction {
    Transaction(0, [KeyInput(7, [0], 11)], [Output(7, KeyTarget(6))], None, 0, 5)
  }

  function Taking(): Block {
    Successor(OfBlock(Genesis()), Coinbase(1, [], 2), [Filler(), Seven()])
  }

  function Misled(): Block {
    Successor(OfBlock(Taking()), Coinbase(2, [], 1), [Late()])
  }

  function Prepared(): State {
    Initial(false).(pool := {Payment(), Large(), Filler(), Seven(), Late()})
  }

  lemma SevenIsFine()
    ensures Semantic(Seven()) && PaysNoFee(Seven()) && KeyImages(Seven().inputs) == {11}
  {
    var inputs, outs := Seven().inputs, Seven().outputs;
    assert inputs[..0] == [] && InputSum(inputs[..0]) == 0 && outs[..0] == [] && OutputSum(outs[..0]) == 0;
    assert inputs[0].KeyInput? && inputs[0].keyImage == 11;
  }

  lemma FillerIsFine()
    ensures Semantic(Filler()) && PaysNoFee(Filler()) && KeyImages(Filler().inputs) == {10}
    ensures Semantic(Late()) && PaysNoFee(Late()) && KeyImages(Late().inputs) == {9}
  {
    KeySpendIsFine(0, 10, [], 0, 4);
    KeySpendIsFine(1, 9, [], 0, 3);
  }

  lemma PreparedIsGood(rules: Rules)
    ensures Good(rules, Prepared())
  {
    hide Good, Semantic;
    InitialIsGood(rules, false);
    PaymentsAreFine();
    FillerIsFine();
    SevenIsFine();
    GoodPool(rules, Initial(false), Prepared().pool);
  }

  /** In the zone two transactions with one new key image each pass. */
  lemma TwoPass(blocks: seq<BlockEntry>, d: Derived, coinbase: Transaction, x: Transaction, y: Transaction)
    requires |blocks| < 2 && coinbase.inputs == [BaseInput(|blocks|)]
    requires forall tx | tx in {x, y} :: |tx.inputs| == 1 && tx.inputs[0].KeyInput? && tx.inputs[0].outputIndexes != []
    requires x.inputs[0].keyImage != y.inputs[0].keyImage
    requires x.inputs[0].keyImage !in d.spentKeys && y.inputs[0].keyImage !in d.spentKeys
    ensures BodyOk(Lenient(2, 10), blocks, d, [coinbase, x, y], 3)
  {
    hide Record;
    var all, n, rules := [coinbase, x, y], |blocks|, Lenient(2, 10);
    NoneApplied(d, all, n);
    var d1 := Applied(d, all, n, 1);
    var d2 := Applied(d, all, n, 2);
    assert d1 == Record(d, coinbase, TransactionIndex(n, 0)) && d2 == Record(d1, x, TransactionIndex(n, 1));
    CoinbaseSpendsNothing(d, n, coinbase.outputs, coinbase.blobSize, TransactionIndex(n, 0));
    RecordSpends(d, coinbase, TransactionIndex(n, 0));
    RecordSpends(d1, x, TransactionIndex(n, 1));
    OneImage(x);
    assert KeyImages(coinbase.inputs) == {};
    assert x in {x, y} && y in {x, y};
    assert InputOk(rules, blocks, d1, x, 0) && InputOk(rules, blocks, d2, y, 0);
    assert InputsOk(rules, blocks, d1, all[1]) && InputsOk(rules, blocks, d2, all[2]);
  }

  lemma OneImage(tx: Transaction)
    requires |tx.inputs| == 1 && tx.inputs[0].KeyInput?
    ensures KeyImages(tx.inputs) == {tx.inputs[0].keyImage}
  {
    assert tx.inputs[0].keyImage in KeyImages(tx.inputs);
  }

  lemma NoFeesOfTwo(coinbase: Transaction, x: Transaction, y: Transaction)
    requires PaysNoFee(x) && PaysNoFee(y)
    ensures forall j | 1 <= j < 3 :: PaysNoFee([coinbase, x, y][j])
  {
  }

  /** The first block is accepted. */
  lemma GenesisInZone()
    ensures var s := Prepared();
      var (s', ok) := PushBlock(Lenient(2, 10), 0, s, Genesis());
      && ok && |s'.blocks| == 1 && s'.blocks[0].bl == Genesis() && s'.now == 0 && s'.pool == s.pool && s'.d.spentKeys == {}
      && s'.d.transactions.Keys == {OfTransaction(Coinbase(0, [Ring()], 1))}
      && s'.d.outputs == map[0 := [OutputRef(TransactionIndex(0, 0), 0)]]
  {
    hide HeaderOk, Emission, SizeSum, FirstBad, AddIndexes, Record;
    var rules, s, b := Lenient(2, 10), Prepared(), Genesis();
    SuccessorTxs(NullHash, Coinbase(0, [Ring()], 1), []);
    var all := BlockTxs(b);
    assert all == [Coinbase(0, [Ring()], 1)];
    OneSize(all[0]);
    CoinbaseIsFine(0, [Ring()], 1);
    assert Tail(s.blocks) == NullHash && Ids(s.blocks) == [];
    LenientVerdict(2, 10, 0, [], s.d, b);
    NoneApplied(s.d, all, 0);
    CoinbaseSpendsNothing(s.d, 0, [Ring()], 1, TransactionIndex(0, 0));
    RingRecorded(s.d);
    OnlyCoinbase(s.d, all[0]);
    assert NamedSet(b) == {};
  }

  lemma OnlyCoinbase(d: Derived, tx: Transaction)
    requires d == EmptyDerived(false)
    ensures Record(d, tx, TransactionIndex(0, 0)).transactions.Keys == {OfTransaction(tx)}
  {
  }

  /** The block that fails for its size leaves the output of its third transaction behind, here in the zone. */
  lemma LeftInZone(s: State)
    requires |s.blocks| == 1 && s.blocks[0].bl == Genesis() && s.pool == Prepared().pool && s.d.spentKeys == {}
    requires s.d.transactions.Keys == {OfTransaction(Coinbase(0, [Ring()], 1))}
    requires s.d.outputs == map[0 := [OutputRef(TransactionIndex(0, 0), 0)]]
    ensures var (s', ok) := PushBlock(Lenient(2, 10), s.now, s, Alternative1());
      && !ok && s'.blocks == s.blocks && s'.pool == s.pool && s'.now == s.now && s'.d.spentKeys <= {7, 8}
      && s'.d.outputs == map[0 := [OutputRef(TransactionIndex(0, 0), 0), OutputRef(TransactionIndex(1, 2), 0)]]
      && Seven().inputs[0].keyImage !in s'.d.spentKeys && OfTransaction(Seven()) !in s'.d.transactions
  {
    hide Applied, NewEntry, Emission, HeaderOk, BodyOk, SizeSum, Judge, CanLoad, Record, Undone, Tail, Ids, PaysNoFee;
    var b, txs := Alternative1(), [Payment(), Large()];
    OnTopOfBase(s.blocks);
    SuccessorTxs(OfBlock(Genesis()), Coinbase(1, [], 1), txs);
    var all := BlockTxs(b);
    assert all == [Coinbase(1, [], 1), Payment(), Large()];
    PaymentsAreFine();
    CoinbaseIsFine(1, [], 1);
    TwoPass(s.blocks, s.d, all[0], Payment(), Large());
    ThreeSizes(all[0], Payment(), Large());
    NoFeesOfTwo(all[0], Payment(), Large());
    LenientVerdict(2, 10, s.now, s.blocks, s.d, b);
    LoadsFrom(s.pool, b, txs);
    ThreeRecorded(s.d, all);
    OnlyBlockAdds(s.d, all, 1, 3, OfTransaction(Seven()));
    AfterOversize(s, b);
    var first, left := OutputRef(TransactionIndex(0, 0), 0), OutputRef(TransactionIndex(1, 2), 0);
    assert Vec(s.d.outputs, 0) + [left] == [first, left];
    assert Append(s.d.outputs, 0, left) == map[0 := [first, left]];
  }

  lemma AfterOversize(s: State, b: Block)
    requires CanLoad(s.pool, b) && Judge(Lenient(2, 10), s.now, s.blocks, s.d, b).Oversize?
    ensures PushBlock(Lenient(2, 10), s.now, s, b)
         == (s.(d := Applied(s.d, BlockTxs(b), |s.blocks|, |BlockTxs(b)|)), false)
  {
    hide Judge, Applied;
  }

  /** Another block takes the height, and its third transaction the place. */
  lemma PlaceIsTaken(s: State)
    requires |s.blocks| == 1 && s.blocks[0].bl == Genesis() && s.pool == Prepared().pool && s.d.spentKeys <= {7, 8}
    requires s.d.outputs == map[0 := [OutputRef(TransactionIndex(0, 0), 0), OutputRef(TransactionIndex(1, 2), 0)]]
    requires OfTransaction(Seven()) !in s.d.transactions
    ensures var (s', ok) := PushBlock(Lenient(2, 10), s.now, s, Taking());
      && ok && |s'.blocks| == 2 && s'.blocks[0] == s.blocks[0] && s'.blocks[1].bl == Taking() && s'.now == s.now
      && |s'.blocks[1].transactions| == 3 && s'.blocks[1].transactions[2].tx == Seven()
      && Late() in s'.pool && s'.d.spentKeys <= {7, 8, 10, 11}
      && 0 in s'.d.outputs && s'.d.outputs[0] == s.d.outputs[0]
  {
    hide Applied, NewEntry, Emission, HeaderOk, BodyOk, SizeSum, Judge, CanLoad, Record, Undone, Tail, Ids, PaysNoFee,
      AddIndexes;
    var b, txs := Taking(), [Filler(), Seven()];
    OnTopOfBase(s.blocks);
    SuccessorTxs(OfBlock(Genesis()), Coinbase(1, [], 2), txs);
    var all := BlockTxs(b);
    assert all == [Coinbase(1, [], 2), Filler(), Seven()];
    FillerIsFine();
    SevenIsFine();
    CoinbaseIsFine(1, [], 2);
    TwoPass(s.blocks, s.d, all[0], Filler(), Seven());
    ThreeSizes(all[0], Filler(), Seven());
    NoFeesOfTwo(all[0], Filler(), Seven());
    TakingIsNew(s.blocks);
    LenientVerdict(2, 10, s.now, s.blocks, s.d, b);
    LoadsFrom(s.pool, b, txs);
    var e := Judge(Lenient(2, 10), s.now, s.blocks, s.d, b).entry;
    AcceptedEntry(Lenient(2, 10), s.now, s.blocks, s.d, b, e);
    assert AllTxs(e)[2] == Seven();
    SevenRecorded(s.d, all);
    LateStays(s.pool, b);
  }

  lemma LateStays(pool: set<Transaction>, b: Block)
    requires Late() in pool && b == Taking()
    ensures Late() in pool - NamedSet(b)
  {
    assert b.transactionHashes == [OfTransaction(Filler()), OfTransaction(Seven())];
  }

  lemma TakingIsNew(blocks: seq<BlockEntry>)
    requires |blocks| == 1 && blocks[0].bl == Genesis()
    ensures OfBlock(Taking()) !in Ids(blocks)
  {
    assert Genesis().baseTransaction.inputs[0] == BaseInput(0) && Taking().baseTransaction.inputs[0] == BaseInput(1);
  }

  lemma SevenRecorded(d: Derived, all: seq<Transaction>)
    requires all == [Coinbase(1, [], 2), Filler(), Seven()] && 0 in d.outputs && OfTransaction(Seven()) !in d.transactions
    ensures var d' := Applied(d, all, 1, 3);
      0 in d'.outputs && d'.outputs[0] == d.outputs[0] && d'.spentKeys <= d.spentKeys + {10, 11}
  {
    hide Record, KeyImages;
    NoneApplied(d, all, 1);
    FillerIsFine();
    SevenIsFine();
    CoinbaseSpendsNothing(d, 1, [], 2, TransactionIndex(1, 0));
    var d1, d2 := Applied(d, all, 1, 1), Applied(d, all, 1, 2);
    NoOutputs(d, all[0], TransactionIndex(1, 0));
    NoOutputs(d1, all[1], TransactionIndex(1, 1));
    OtherAmount(d2, all[2], TransactionIndex(1, 2));
    RecordSpends(d1, all[1], TransactionIndex(1, 1));
    RecordSpends(d2, all[2], TransactionIndex(1, 2));
  }

  lemma OtherAmount(d: Derived, tx: Transaction, at: TransactionIndex)
    requires tx.outputs == [Output(7, KeyTarget(6))] && 0 in d.outputs
    ensures var d' := Record(d, tx, at); 0 in d'.outputs && d'.outputs[0] == d.outputs[0]
  {
    assert AddKeyOutputs(d.outputs, tx.outputs, at, 0) == d.outputs;
    assert AddKeyOutputs(d.outputs, tx.outputs, at, 1) == AddKeyOutput(d.outputs, tx.outputs[0], at, 0);
  }

  /** Outside the zone the ring then passes, over the output that took the place. */
  lemma MisledPasses(s: State)
    requires |s.blocks| == 2 && s.blocks[0].bl == Genesis() && s.blocks[1].bl == Taking()
    requires |s.blocks[1].transactions| == 3 && s.blocks[1].transactions[2].tx == Seven()
    requires Late() in s.pool && s.d.spentKeys <= {7, 8, 10, 11}
    requires 0 in s.d.outputs && |s.d.outputs[0]| == 2 && s.d.outputs[0][1] == OutputRef(TransactionIndex(1, 2), 0)
    ensures var (s', ok) := PushBlock(Lenient(2, 10), s.now, s, Misled());
      ok && |s'.blocks| == 3 && s'.blocks[..2] == s.blocks && s'.blocks[2].bl == Misled() && Late() in AllTxs(s'.blocks[2])
  {
    hide NewEntry, Emission, HeaderOk, SizeSum, CanLoad, Record, Undone, PaysNoFee, AddIndexes, FirstBad, KeyImages;
    var rules, b := Lenient(2, 10), Misled();
    SuccessorTxs(OfBlock(Taking()), Coinbase(2, [], 1), [Late()]);
    var all := BlockTxs(b);
    assert all == [Coinbase(2, [], 1), Late()];
    FillerIsFine();
    CoinbaseIsFine(2, [], 1);
    NoneApplied(s.d, all, 2);
    NoOutputs(s.d, all[0], TransactionIndex(2, 0));
    CoinbaseSpendsNothing(s.d, 2, [], 1, TransactionIndex(2, 0));
    var d := Applied(s.d, all, 2, 1);
    assert d == Record(s.d, all[0], TransactionIndex(2, 0));
    LatePasses(s.blocks, d);
    assert BodyOk(rules, s.blocks, s.d, all, 2);
    TwoSizes(all[0], all[1]);
    MisledFits(s);
    LenientVerdict(2, 10, s.now, s.blocks, s.d, b);
    AcceptedEntry(rules, s.now, s.blocks, s.d, b, Judge(rules, s.now, s.blocks, s.d, b).entry);
    assert all[1] == Late();
  }

  lemma LatePasses(blocks: seq<BlockEntry>, d: Derived)
    requires |blocks| == 2 && |blocks[1].transactions| == 3 && blocks[1].transactions[2].tx == Seven() && 9 !in d.spentKeys
    requires 0 in d.outputs && |d.outputs[0]| == 2 && d.outputs[0][1] == OutputRef(TransactionIndex(1, 2), 0)
    ensures InputsOk(Lenient(2, 10), blocks, d, Late())
  {
    var rules, offsets := Lenient(2, 10), [1];
    assert Absolute(offsets, 0) == 1 && MemberOk(rules, blocks, d.outputs[0][1]);
    assert Scan(rules, blocks, d.outputs[0], offsets, 1) == Passes;
    assert InputOk(rules, blocks, d, Late(), 0);
  }

  lemma MisledFits(s: State)
    requires |s.blocks| == 2 && s.blocks[0].bl == Genesis() && s.blocks[1].bl == Taking() && Late() in s.pool
    ensures OfBlock(Misled()) !in Ids(s.blocks) && Misled().previous == Tail(s.blocks) && CanLoad(s.pool, Misled())
  {
    var b := Misled();
    assert Genesis().baseTransaction.inputs[0] == BaseInput(0) && Taking().baseTransaction.inputs[0] == BaseInput(1);
    assert b.baseTransaction.inputs[0] == BaseInput(2);
    assert b.transactionHashes == [OfTransaction(Late())];
  }

  /** What a failure for size leaves behind can mislead a ring: a run of four pushes after which a transaction outside
      the zone is in the chain whose ring, of amount zero, is over an output of amount seven. */
  lemma AmountExample()
    ensures var rules, s := Lenient(2, 10), Prepared();
      var steps := [Push(Genesis(), 0), Push(Alternative1(), 0), Push(Taking(), 0), Push(Misled(), 0)];
      var before, t := Run(rules, s, steps[..3]), Run(rules, s, steps);
      && Good(rules, s) && Kept(rules, t) && |t.blocks| == 3 && Late() in AllTxs(t.blocks[2])
      && Late().inputs == [KeyInput(0, [1], 9)]
      && 0 in before.d.outputs && |before.d.outputs[0]| == 2
      && var r := before.d.outputs[0][1];
         IsKeyOutput(t.blocks[..2], 7, r) && !IsKeyOutput(t.blocks[..2], 0, r)
  {
    hide Good, Kept, PushBlock, Genesis, Alternative1, Taking, Misled, Prepared, AllTxs, Run, Next, Lenient;
    var rules, s := Lenient(2, 10), Prepared();
    PreparedIsGood(rules);
    GoodIsKept(rules, s);
    PreparedNow();
    GenesisInZone();
    var s1 := PushBlock(rules, 0, s, Genesis()).0;
    NextPush(rules, s, Genesis());
    LeftInZone(s1);
    var s2 := PushBlock(rules, 0, s1, Alternative1()).0;
    NextPush(rules, s1, Alternative1());
    PlaceIsTaken(s2);
    var s3 := PushBlock(rules, 0, s2, Taking()).0;
    NextPush(rules, s2, Taking());
    MisledPasses(s3);
    var s4 := PushBlock(rules, 0, s3, Misled()).0;
    NextPush(rules, s3, Misled());
    var steps := [Push(Genesis(), 0), Push(Alternative1(), 0), Push(Taking(), 0), Push(Misled(), 0)];
    RunOfFour(rules, s, steps, s1, s2, s3, s4);
    RunIsKept(rules, s, steps);
    assert s4.blocks[..2] == s3.blocks;
  }

  lemma RunIsKept(rules: Rules, s: State, steps: seq<Step>)
    requires Kept(rules, s)
    ensures Kept(rules, Run(rules, s, steps))
  {
    hide Kept, Run;
    EveryRunIsKept(rules, s, steps);
  }

  lemma PreparedNow()
    ensures Prepared().now == 0
  {
  }

  lemma RunOfFour(rules: Rules, s: State, steps: seq<Step>, s1: State, s2: State, s3: State, s4: State)
    requires |steps| == 4 && Next(rules, s, steps[0]) == s1 && Next(rules, s1, steps[1]) == s2
    requires Next(rules, s2, steps[2]) == s3 && Next(rules, s3, steps[3]) == s4
    ensures Run(rules, s, steps) == s4 && Run(rules, s, steps[..3]) == s3
  {
    hide Next;
    assert steps[1..][1..][1..] == [steps[3]] && [steps[3]][1..] == [];
    assert Run(rules, s2, steps[1..][1..]) == Run(rules, s3, [steps[3]]) == Run(rules, s4, []);
    assert Run(rules, s, steps) == Run(rules, s1, steps[1..]) == Run(rules, s2, steps[1..][1..]);
    var three := steps[..3];
    assert three[1..][1..] == [steps[2]] && [steps[2]][1..] == [];
    assert Run(rules, s, three) == Run(rules, s1, three[1..]) == Run(rules, s2, three[1..][1..]);
    assert Run(rules, s2, [steps[2]]) == Run(rules, s3, []);
  }
}
