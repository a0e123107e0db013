/** The blockchain object itself: fields updated in place by loops, proved against the state machine. */
module BlockchainObject {
  import opened ChainTypes
  import opened DerivedState
  import opened Rules
  import opened Ledger
  import opened Steps
  import opened Reorganisation
  import opened Switching
  import opened Definedness
  import opened TransactionChecks
  import opened Penalty
  import opened Conservation
  import OutputOrder
  import Signatures

  // ---------------------------------------------------------------------------------------------
  // Loop steps

  lemma MarkOneInVector(v: seq<MultisigUsage>, a: nat, refs: set<(nat, nat)>, b: nat, i: nat, used: bool)
    requires a == b ==> i < |v|
    ensures MarkVector(v, a, refs + {(b, i)}, used) ==
            if a == b then MarkVector(v, a, refs, used)[i := v[i].(isUsed := used)] else MarkVector(v, a, refs, used)
  {
    forall k: nat | k < |v| ensures (a, k) in refs + {(b, i)} <==> (a, k) in refs || (a == b && k == i) {}
  }

  lemma MarkOne(m: map<nat, seq<MultisigUsage>>, refs: set<(nat, nat)>, a: nat, i: nat, used: bool)
    requires InRange(m, (a, i))
    ensures InRange(Mark(m, refs, used), (a, i))
    ensures var v := Mark(m, refs, used)[a];
      Mark(m, refs + {(a, i)}, used) == Mark(m, refs, used)[a := v[i := v[i].(isUsed := used)]]
  {
    forall b | b in m
      ensures MarkVector(m[b], b, refs + {(a, i)}, used) ==
              if b == a then MarkVector(m[b], b, refs, used)[i := m[b][i].(isUsed := used)] else MarkVector(m[b], b, refs, used)
    {
      MarkOneInVector(m[b], b, refs, a, i, used);
    }
  }

  lemma DistinctIsFresh(inputs: seq<Input>, i: nat)
    requires i < |inputs| && inputs[i].KeyInput? && DistinctKeyImages(inputs)
    ensures inputs[i].keyImage in KeyImages(inputs) && inputs[i].keyImage !in KeyImages(inputs[..i])
  {
    forall j | 0 <= j < i && inputs[..i][j].KeyInput? ensures inputs[..i][j].keyImage != inputs[i].keyImage {
      assert inputs[j] == inputs[..i][j];
    }
  }

  lemma RefOf(inputs: seq<Input>, i: nat)
    requires i < |inputs| && inputs[i].MultisigInput?
    ensures (inputs[i].amount as nat, inputs[i].outputIndex) in MultisigRefs(inputs)
  {
  }

  class Blockchain {
    const rules: Rules
    const indexed: bool

    var blocks: seq<BlockEntry>
    var transactionMap: map<Hash, TransactionIndex>
    var spentKeys: set<nat>
    var outputs: map<nat, seq<OutputRef>>
    var multisignatureOutputs: map<nat, seq<MultisigUsage>>
    var paymentIds: multiset<(nat, Hash)>
    var blockIndex: seq<Hash>
    var timestampIndex: multiset<(nat, Hash)>
    var generatedIndex: map<nat, nat>
    var lastGenerated: nat
    var pool: set<Transaction>
    var clock: nat

    function D(): Derived
      reads this
    {
      Derived(indexed, transactionMap, spentKeys, outputs, multisignatureOutputs, paymentIds)
    }

    function St(): State
      reads this
    {
      State(blocks, D(), Indexes(blockIndex, timestampIndex, generatedIndex, lastGenerated), pool, clock)
    }

    constructor (rules: Rules, indexed: bool)
      ensures this.rules == rules && this.indexed == indexed
      ensures St() == Initial(indexed) && Good(rules, St())
    {
      this.rules, this.indexed := rules, indexed;
      blocks, blockIndex := [], [];
      transactionMap, spentKeys, outputs, multisignatureOutputs := map[], {}, map[], map[];
      paymentIds, timestampIndex, generatedIndex, lastGenerated := multiset{}, multiset{}, map[], 0;
      pool, clock := {}, 0;
      new;
      InitialIsGood(rules, indexed);
    }

    // -------------------------------------------------------------------------------------------
    // pushTransaction

    /** Inserts the key images of the inputs; a clash erases the ones inserted before it, last to first, taking
        every earlier input for a key input. */
    method InsertKeyImages(inputs: seq<Input>) returns (outcome: PushOutcome)
      modifies `spentKeys
      ensures var i := FirstClash(old(spentKeys), inputs, 0);
        && outcome == (if i == |inputs| then Pushed else if AllKeyInputs(inputs[..i]) then Rejected else Threw)
        && spentKeys == old(spentKeys) + match outcome
           case Pushed => KeyImages(inputs)
           case Rejected => {}
           case Threw => KeyImages(inputs[..AfterLastOther(inputs[..i])])
    {
      hide KeyImages, DistinctKeyImages, FirstClash;
      var i := 0;
      NoneInserted(inputs);
      while i < |inputs|
        invariant 0 <= i <= |inputs|
        invariant FirstClash(old(spentKeys), inputs, 0) == FirstClash(old(spentKeys), inputs, i)
        invariant spentKeys == old(spentKeys) + KeyImages(inputs[..i])
        invariant old(spentKeys) !! KeyImages(inputs[..i]) && DistinctKeyImages(inputs[..i])
      {
        KeyImagesStep(inputs, i);
        ClashStep(old(spentKeys), inputs, i);
        if inputs[i].KeyInput? && inputs[i].keyImage in spentKeys {
          outcome := EraseKeyImages(inputs[..i], old(spentKeys));
          ghost var k := AfterLastOther(inputs[..i]);
          assert inputs[..i][..k] == inputs[..k];
          return;
        }
        ExtendDistinct(inputs, i);
        if inputs[i].KeyInput? {
          spentKeys := spentKeys + {inputs[i].keyImage};
        }
        i := i + 1;
      }
      assert inputs[..i] == inputs;
      return Pushed;
    }

    static lemma NoneInserted(inputs: seq<Input>)
      ensures KeyImages(inputs[..0]) == {} && DistinctKeyImages(inputs[..0])
    {
    }

    static lemma ClashStep(spent: set<nat>, inputs: seq<Input>, i: nat)
      requires i < |inputs|
      ensures FirstClash(spent, inputs, i) ==
        if inputs[i].KeyInput? && inputs[i].keyImage in spent + KeyImages(inputs[..i]) then i
        else FirstClash(spent, inputs, i + 1)
    {
    }

    static lemma ExtendDistinct(inputs: seq<Input>, i: nat)
      requires i < |inputs|
      requires DistinctKeyImages(inputs[..i]) && (inputs[i].KeyInput? ==> inputs[i].keyImage !in KeyImages(inputs[..i]))
      ensures DistinctKeyImages(inputs[..i + 1])
    {
      forall j | 0 <= j < i && inputs[j].KeyInput? && inputs[i].KeyInput?
        ensures inputs[j].keyImage != inputs[i].keyImage
      {
        assert inputs[..i][j] == inputs[j];
      }
      forall j, k | 0 <= j < k < i && inputs[j].KeyInput? && inputs[k].KeyInput?
        ensures inputs[j].keyImage != inputs[k].keyImage
      {
        assert inputs[..i][j] == inputs[j] && inputs[..i][k] == inputs[k];
      }
    }

    method EraseKeyImages(inputs: seq<Input>, ghost before: set<nat>) returns (outcome: PushOutcome)
      requires spentKeys == before + KeyImages(inputs)
      requires before !! KeyImages(inputs) && DistinctKeyImages(inputs)
      modifies `spentKeys
      ensures outcome == if AllKeyInputs(inputs) then Rejected else Threw
      ensures spentKeys == before + KeyImages(inputs[..AfterLastOther(inputs)])
    {
      hide KeyImages, DistinctKeyImages;
      var i := |inputs|;
      assert inputs[..i] == inputs;
      while i > 0
        invariant 0 <= i <= |inputs|
        invariant spentKeys == before + KeyImages(inputs[..i])
        invariant AfterLastOther(inputs[..i]) == AfterLastOther(inputs)
      {
        KeyImagesStep(inputs, i - 1);
        assert inputs[..i][..i - 1] == inputs[..i - 1];
        if !inputs[i - 1].KeyInput? {
          assert AfterLastOther(inputs[..i]) == i;
          return Threw;
        }
        DistinctIsFresh(inputs, i - 1);
        spentKeys := spentKeys - {inputs[i - 1].keyImage};
        i := i - 1;
      }
      assert inputs[..0] == [];
      return Rejected;
    }

    method MarkMultisigs(inputs: seq<Input>, used: bool)
      requires forall ref | ref in MultisigRefs(inputs) :: InRange(multisignatureOutputs, ref)
      modifies `multisignatureOutputs
      ensures multisignatureOutputs == Mark(old(multisignatureOutputs), MultisigRefs(inputs), used)
    {
      hide Mark, MultisigRefs;
      ghost var m := multisignatureOutputs;
      MarkNothing(m, used);
      assert inputs[..0] == [];
      var i := 0;
      while i < |inputs|
        invariant 0 <= i <= |inputs|
        invariant multisignatureOutputs == Mark(m, MultisigRefs(inputs[..i]), used)
      {
        MultisigRefsStep(inputs, i);
        if inputs[i].MultisigInput? {
          var a, o := inputs[i].amount, inputs[i].outputIndex;
          RefOf(inputs, i);
          MarkOne(m, MultisigRefs(inputs[..i]), a, o, used);
          var v := multisignatureOutputs[a];
          multisignatureOutputs := multisignatureOutputs[a := v[o := v[o].(isUsed := used)]];
        }
        i := i + 1;
      }
      assert inputs[..i] == inputs;
    }

    static lemma MarkNothing(m: map<nat, seq<MultisigUsage>>, used: bool)
      ensures Mark(m, {}, used) == m
      ensures MultisigRefs([]) == {}
    {
      MarkNone(m, used);
    }

    method AddOutputs(outs: seq<Output>, at: TransactionIndex) returns (globals: seq<nat>)
      requires |outs| < 0x1_0000
      modifies `outputs, `multisignatureOutputs
      ensures outputs == AddKeyOutputs(old(outputs), outs, at, |outs|)
      ensures multisignatureOutputs == AddMultisigOutputs(old(multisignatureOutputs), outs, at, |outs|)
      ensures |globals| == |outs|
      ensures forall o | 0 <= o < |outs| ::
                globals[o] == NextPosition(old(outputs), old(multisignatureOutputs), outs, at, o)
    {
      globals := [];
      var o: u16 := 0;
      while o < |outs|
        invariant 0 <= o <= |outs| && |globals| == o
        invariant outputs == AddKeyOutputs(old(outputs), outs, at, o)
        invariant multisignatureOutputs == AddMultisigOutputs(old(multisignatureOutputs), outs, at, o)
        invariant forall k | 0 <= k < o ::
                    globals[k] == NextPosition(old(outputs), old(multisignatureOutputs), outs, at, k)
      {
        var a := outs[o].amount;
        if outs[o].target.KeyTarget? {
          var v := if a in outputs then outputs[a] else [];
          globals := globals + [|v| % TWO32];
          outputs := outputs[a := v + [OutputRef(at, o)]];
        } else {
          var v := if a in multisignatureOutputs then multisignatureOutputs[a] else [];
          globals := globals + [|v| % TWO32];
          multisignatureOutputs := multisignatureOutputs[a := v + [MultisigUsage(at, o, false)]];
        }
        o := o + 1;
      }
    }

    /** `pushTransaction`. Indexing a multisignature vector out of range is undefined, hence the requirement; the
        output counter has 16 bits. */
    method PushTransaction(tx: Transaction, at: TransactionIndex) returns (outcome: PushOutcome, globals: seq<nat>)
      requires |tx.outputs| < 0x1_0000
      requires forall ref | ref in MultisigRefs(tx.inputs) :: InRange(multisignatureOutputs, ref)
      modifies `transactionMap, `spentKeys, `outputs, `multisignatureOutputs, `paymentIds
      ensures (D(), outcome) == DerivedState.PushTransaction(old(D()), tx, at)
      ensures globals == if outcome.Pushed? then GlobalIndexes(old(D()), tx, at) else []
    {
      globals := [];
      var h := OfTransaction(tx);
      if h in transactionMap { return Rejected, []; }
      transactionMap := transactionMap[h := at];
      var differ := CheckMultisignatureInputsDiff(tx.inputs);
      if !differ {
        transactionMap := transactionMap - {h};
        assert transactionMap == old(transactionMap);
        return Rejected, [];
      }
      outcome := InsertKeyImages(tx.inputs);
      if outcome == Rejected {
        transactionMap := transactionMap - {h};
        assert transactionMap == old(transactionMap) && spentKeys == old(spentKeys);
      }
      if outcome != Pushed { return outcome, []; }
      MarkMultisigs(tx.inputs, true);
      globals := AddOutputs(tx.outputs, at);
      forall o | 0 <= o < |tx.outputs| ensures globals[o] == GlobalIndex(old(D()), tx.outputs, at, o) {
        MarkedLengths(old(multisignatureOutputs), MultisigRefs(tx.inputs), true, tx.outputs, at, o,
          tx.outputs[o].amount);
      }
      assert globals == GlobalIndexes(old(D()), tx, at);
      if indexed && tx.paymentId.Some? {
        paymentIds := paymentIds + multiset{(tx.paymentId.value, h)};
      }
    }

    // -------------------------------------------------------------------------------------------
    // popTransaction

    method RemoveOutputs(outs: seq<Output>, at: TransactionIndex)
      modifies `outputs, `multisignatureOutputs
      ensures outputs == RemoveKeyOutputs(old(outputs), outs, at, |outs|)
      ensures multisignatureOutputs == RemoveMultisigOutputs(old(multisignatureOutputs), outs, at, |outs|)
    {
      var k := |outs|;
      while k > 0
        invariant 0 <= k <= |outs|
        invariant RemoveKeyOutputs(outputs, outs, at, k) == RemoveKeyOutputs(old(outputs), outs, at, |outs|)
        invariant RemoveMultisigOutputs(multisignatureOutputs, outs, at, k)
               == RemoveMultisigOutputs(old(multisignatureOutputs), outs, at, |outs|)
      {
        k := k - 1;
        var a := outs[k].amount;
        if outs[k].target.KeyTarget? {
          if a in outputs && outputs[a] != [] && outputs[a][|outputs[a]| - 1] == OutputRef(at, k) {
            var v := outputs[a][..|outputs[a]| - 1];
            outputs := if v == [] then outputs - {a} else outputs[a := v];
          }
        } else {
          if a in multisignatureOutputs && multisignatureOutputs[a] != [] {
            var last := multisignatureOutputs[a][|multisignatureOutputs[a]| - 1];
            if !last.isUsed && last.at == at && last.output == k {
              var v := multisignatureOutputs[a][..|multisignatureOutputs[a]| - 1];
              multisignatureOutputs := if v == [] then multisignatureOutputs - {a} else multisignatureOutputs[a := v];
            }
          }
        }
      }
    }

    method EraseSpends(inputs: seq<Input>)
      modifies `spentKeys
      ensures spentKeys == old(spentKeys) - KeyImages(inputs)
    {
      var i := 0;
      while i < |inputs|
        invariant 0 <= i <= |inputs|
        invariant spentKeys == old(spentKeys) - KeyImages(inputs[..i])
      {
        KeyImagesStep(inputs, i);
        if inputs[i].KeyInput? { spentKeys := spentKeys - {inputs[i].keyImage}; }
        i := i + 1;
      }
      assert inputs[..i] == inputs;
    }

    /** `popTransaction`. The lookup of the index throws for an unknown hash; an out-of-range multisignature index
        is undefined. */
    method PopTransaction(tx: Transaction)
      requires CanPop(D(), tx)
      modifies `transactionMap, `spentKeys, `outputs, `multisignatureOutputs, `paymentIds
      ensures D() == Unapply(old(D()), tx)
    {
      hide RemoveKeyOutputs, RemoveMultisigOutputs, Mark, KeyImages;
      var h := OfTransaction(tx);
      var at := transactionMap[h];
      RemoveOutputs(tx.outputs, at);
      EraseSpends(tx.inputs);
      MarkMultisigs(tx.inputs, false);
      if indexed && tx.paymentId.Some? {
        paymentIds := paymentIds - multiset{(tx.paymentId.value, h)};
      }
      transactionMap := transactionMap - {h};
    }

    /** `popTransactions`: the last transaction first, the coinbase at the end. */
    method PopTransactions(all: seq<Transaction>, k: nat)
      requires k <= |all| && CanPopAll(D(), all, k)
      modifies `transactionMap, `spentKeys, `outputs, `multisignatureOutputs, `paymentIds
      ensures D() == Unapplied(old(D()), all, k)
    {
      hide Unapply, CanPop, D;
      var i := k;
      while i > 0
        invariant 0 <= i <= k && CanPopAll(D(), all, i)
        invariant Unapplied(D(), all, i) == Unapplied(old(D()), all, k)
      {
        PopTransaction(all[i - 1]);
        i := i - 1;
      }
    }

    // -------------------------------------------------------------------------------------------
    // pushBlock

    /** `check_tx_input` for the ring of input `i`. */
    method CheckTxInput(tx: Transaction, i: nat) returns (outcome: Outcome)
      requires i < |tx.inputs| && tx.inputs[i].KeyInput? && tx.inputs[i].outputIndexes != []
      requires rules.inDomain(tx.inputs[i].keyImage) && tx.inputs[i].amount as nat in outputs ==>
                 ScanInside(rules, blocks, outputs[tx.inputs[i].amount], tx.inputs[i].outputIndexes, 0)
      ensures outcome == RingOutcome(rules, blocks, outputs, tx, i)
      ensures outcome == Passes <==> Signatures.SignedRing(rules, blocks, Vec(outputs, tx.inputs[i].amount), tx, i)
    {
      Signatures.RingPassesIff(rules, blocks, outputs, tx, i);
      hide Scan, ScanInside, RingKeys, OutputOrder.InVector, OutputOrder.LastIsNewest;
      var amount, offsets := tx.inputs[i].amount, tx.inputs[i].outputIndexes;
      if !rules.inDomain(tx.inputs[i].keyImage) { return Fails; }
      var scanned, keys, _ := OutputOrder.ScanOutputKeys(rules, blocks, outputs, amount, offsets, 0);
      if scanned != Passes { return scanned; }
      return if rules.ringSigned(keys, tx, i) then Passes else Fails;
    }

    /** `validateInput` for the multisignature input `i`. */
    method ValidateInput(tx: Transaction, i: nat) returns (outcome: Outcome)
      requires i < |tx.inputs| && tx.inputs[i].MultisigInput? && !rules.inZone(|blocks|)
      requires InputInside(rules, blocks, D(), tx, i)
      ensures outcome == InputOutcome(rules, blocks, D(), tx, i)
      ensures outcome == Passes <==>
                && Signatures.Unspent(D(), tx.inputs[i])
                && Signatures.SignedMultisig(rules, blocks, Vec(multisignatureOutputs, tx.inputs[i].amount), tx, i)
    {
      var a, o := tx.inputs[i].amount, tx.inputs[i].outputIndex;
      if a !in multisignatureOutputs || o >= |multisignatureOutputs[a]| { return Fails; }
      var u := multisignatureOutputs[a][o];
      if u.isUsed { return Fails; }
      if u.at.block >= |blocks| { return Throws; }
      var spent := blocks[u.at.block].transactions[u.at.transaction].tx;
      if !rules.unlocked(blocks, spent.unlockTime) { return Fails; }
      var target := spent.outputs[u.output].target;
      if tx.inputs[i].signatureCount != target.required { return Fails; }
      return if rules.multisigSigned(target, tx, i) then Passes else Fails;
    }

    /** `checkTransactionInputs`: the first input that does not pass decides. */
    method CheckTransactionInputs(tx: Transaction) returns (outcome: Outcome)
      requires InputsInside(rules, blocks, D(), tx, 0)
      ensures outcome == InputsOutcome(rules, blocks, D(), tx, 0)
    {
      hide RingOutcome, ScanInside;
      var i := 0;
      while i < |tx.inputs|
        invariant 0 <= i <= |tx.inputs| && InputsInside(rules, blocks, D(), tx, i)
        invariant InputsOutcome(rules, blocks, D(), tx, 0) == InputsOutcome(rules, blocks, D(), tx, i)
      {
        var checked := Passes;
        match tx.inputs[i] {
          case BaseInput(_) => checked := Fails;
          case KeyInput(_, offsets, image) =>
            if offsets == [] || image in spentKeys {
              checked := Fails;
            } else if !rules.inZone(|blocks|) {
              checked := CheckTxInput(tx, i);
            }
          case MultisigInput(_, _, _) =>
            if !rules.inZone(|blocks|) { checked := ValidateInput(tx, i); }
        }
        assert checked == InputOutcome(rules, blocks, D(), tx, i);
        if checked != Passes { return checked; }
        i := i + 1;
      }
      return Passes;
    }

    /** The checks of `pushBlock` before it records anything. */
    method CheckHeader(b: Block) returns (ok: bool)
      requires blockIndex == Ids(blocks)
      ensures ok <==> HeaderOk(rules, clock, blocks, b)
      ensures ok <==>
                && (forall k | 0 <= k < |blocks| :: blocks[k].bl != b) && rules.accepts(blocks, b)
                && b.previous == (if blocks == [] then NullHash else OfBlock(blocks[|blocks| - 1].bl))
                && b.timestamp <= clock + rules.futureLimit && rules.difficulty(blocks, b.timestamp) != 0
                && b.baseTransaction.inputs == [BaseInput(|blocks|)] && OutputSum(b.baseTransaction.outputs) < TWO64
    {
      assert forall k | 0 <= k < |blocks| :: blockIndex[k] == OfBlock(blocks[k].bl);
      if OfBlock(b) in blockIndex { return false; }
      if !rules.accepts(blocks, b) { return false; }
      var tail := if blocks == [] then NullHash else blockIndex[|blockIndex| - 1];
      if b.previous != tail { return false; }
      if b.timestamp > clock + rules.futureLimit { return false; }
      if rules.difficulty(blocks, b.timestamp) == 0 { return false; }
      return CoinbaseOk(b.baseTransaction, |blocks|);
    }

    /** The block can be recorded as far as its transactions pass the checks. */
    ghost predicate Recordable(b: Block)
      reads `blocks, `clock
    {
      && NamesTransactions(b) && Countable(b) && HeaderOk(rules, clock, blocks, b)
      && (forall j | 1 <= j < |BlockTxs(b)| :: Semantic(BlockTxs(b)[j]))
    }

    /** Records the transactions of a block one by one. Whether a push succeeded is not looked at: one that is refused
        because the transaction is recorded already stays unnoticed. */
    method PushTransactions(b: Block, all: seq<Transaction>)
      returns (outcome: Outcome, entries: seq<TransactionEntry>, size: nat, fee: u64)
      requires Recordable(b) && all == BlockTxs(b) && ReferencesExist(rules, blocks, D(), b)
               && ChecksInside(rules, blocks, D(), all)
      requires var k := FirstBad(rules, blocks, D(), all, 1);
        !BodyOk(rules, blocks, D(), all, |all|) && !BadThrows(rules, blocks, D(), all) ==>
          CanPopAll(Applied(D(), all, |blocks|, k), all, k)
      modifies `transactionMap, `spentKeys, `outputs, `multisignatureOutputs, `paymentIds
      ensures outcome == Passes <==> BodyOk(rules, blocks, old(D()), all, |all|)
      ensures outcome == Throws <==> BadThrows(rules, blocks, old(D()), all)
      ensures outcome == Passes ==>
                && D() == Applied(old(D()), all, |blocks|, |all|) && entries == Entries(old(D()), all, |blocks|)
                && size == SizeSum(all, |all|) && fee == FeeSum(all, |all|)
      ensures outcome == Fails ==> D() == Undone(old(D()), all, |blocks|, FirstBad(rules, blocks, old(D()), all, 1))
      ensures outcome == Throws ==> D() == Applied(old(D()), all, |blocks|, FirstBad(rules, blocks, old(D()), all, 1))
    {
      hide Record, Applied, Unapplied, HeaderOk, Semantic, BlockTxs, StoredIndexes, ReferencesExist, CanPopAll,
           InputsOk, InputsOutcome, InputsInside, InputSum, OutputSum, D, Countable, Recordable, BodyOk, FirstBad,
           SizeSum, FeeSum, Wrap64;
      ghost var d := D();
      ghost var n := |blocks|;
      NoneApplied(d, all, n);
      NoneChecked(rules, blocks, d, all);
      CountableSize(b);
      var entry := PushChecked(b, all, 0, d);
      entries, size, fee := [entry], all[0].blobSize, 0;
      var k: u16 := 1;
      NoSize(all);
      while k < |all|
        invariant 1 <= k <= |all| && BodyOk(rules, blocks, d, all, k)
        invariant FirstBad(rules, blocks, d, all, 1) == FirstBad(rules, blocks, d, all, k)
        invariant D() == Applied(d, all, n, k)
        invariant entries == Entries(d, all, n)[..k]
        invariant size == SizeSum(all, k) && fee == FeeSum(all, k)
      {
        BadStep(rules, blocks, d, all, k);
        SumsNext(all, k);
        var ins, outs := MoneyAmounts(all[k]);
        outcome := CheckTransactionInputs(all[k]);
        if outcome == Throws { return; }
        if outcome == Fails {
          PopTransactions(all, k);
          return;
        }
        entry := PushChecked(b, all, k, d);
        entries := entries + [entry];
        size := size + all[k].blobSize;
        fee := Wrap64(fee + Wrap64(ins as int - outs as int));
        k := k + 1;
      }
      NoneBad(rules, blocks, d, all);
      outcome := Passes;
    }

    static lemma NoneBad(rules: Rules, blocks: seq<BlockEntry>, d: Derived, all: seq<Transaction>)
      requires all != [] && BodyOk(rules, blocks, d, all, |all|)
      ensures !BadThrows(rules, blocks, d, all)
    {
      hide Applied, BodyOk, FirstBad, InputsThrow;
      NoneChecked(rules, blocks, d, all);
      FirstBadIsFirst(rules, blocks, d, all, 1);
    }

    lemma CountableSize(b: Block)
      requires Recordable(b)
      ensures |BlockTxs(b)| <= 0xFFFF
    {
    }

    static lemma NoSize(all: seq<Transaction>)
      requires |all| >= 1
      ensures SizeSum(all, 1) == all[0].blobSize && FeeSum(all, 1) == 0
    {
      assert SizeSum(all, 0) == 0;
    }

    static lemma SumsNext(all: seq<Transaction>, k: nat)
      requires 1 <= k < |all|
      ensures SizeSum(all, k + 1) == SizeSum(all, k) + all[k].blobSize
      ensures FeeSum(all, k + 1) ==
        Wrap64(FeeSum(all, k) + Wrap64(Wrap64(InputSum(all[k].inputs)) - Wrap64(OutputSum(all[k].outputs))))
    {
      hide Wrap64, InputSum, OutputSum;
    }

    static lemma BadStep(rules: Rules, blocks: seq<BlockEntry>, d: Derived, all: seq<Transaction>, k: nat)
      requires 1 <= k < |all| && BodyOk(rules, blocks, d, all, k)
      ensures FirstBad(rules, blocks, d, all, k) ==
        if InputsOk(rules, blocks, Applied(d, all, |blocks|, k), all[k]) then FirstBad(rules, blocks, d, all, k + 1) else k
      ensures !InputsOk(rules, blocks, Applied(d, all, |blocks|, k), all[k]) ==> !BodyOk(rules, blocks, d, all, |all|)
      ensures InputsOk(rules, blocks, Applied(d, all, |blocks|, k), all[k]) <==>
                InputsOutcome(rules, blocks, Applied(d, all, |blocks|, k), all[k], 0) == Passes
    {
      hide Applied, InputOk;
    }

    /** Records one checked transaction; the outcome of the push is ignored. */
    method PushChecked(b: Block, all: seq<Transaction>, k: nat, ghost d: Derived) returns (entry: TransactionEntry)
      requires Recordable(b) && all == BlockTxs(b) && ReferencesExist(rules, blocks, d, b)
      requires k < |all| && BodyOk(rules, blocks, d, all, k) && D() == Applied(d, all, |blocks|, k)
      requires k > 0 ==> InputsOk(rules, blocks, D(), all[k])
      modifies `transactionMap, `spentKeys, `outputs, `multisignatureOutputs, `paymentIds
      ensures BodyOk(rules, blocks, d, all, k + 1) && D() == Applied(d, all, |blocks|, k + 1)
      ensures entry == Entries(d, all, |blocks|)[k]
    {
      hide Apply, HeaderOk, Semantic, BlockTxs, GlobalIndexes, InputsOk, BodyOk, ReferencesExist,
           DerivedState.PushTransaction, MultisigRefs, Countable, KeyImages, DistinctKeyImages, DistinctMultisigs;
      OneMoreChecked(rules, blocks, d, all, k);
      MeetsPush(rules, clock, blocks, d, b, k);
      SmallOutputs(b, k);
      NewIsRecorded(D(), all[k], TransactionIndex(|blocks|, k));
      var _, globals := PushTransaction(all[k], TransactionIndex(|blocks|, k));
      entry := TransactionEntry(all[k], globals);
    }

    /** The checks give what `pushTransaction` needs not to throw. */
    static lemma MeetsPush(rules: Rules, now: nat, blocks: seq<BlockEntry>, d: Derived, b: Block, k: nat)
      requires NamesTransactions(b) && k < |BlockTxs(b)| && HeaderOk(rules, now, blocks, b)
               && ReferencesExist(rules, blocks, d, b)
      requires k > 0 ==> Semantic(BlockTxs(b)[k])
      requires BodyOk(rules, blocks, d, BlockTxs(b), k + 1)
      ensures var dk, tx := Applied(d, BlockTxs(b), |blocks|, k), BlockTxs(b)[k];
        && DistinctKeyImages(tx.inputs) && DistinctMultisigs(tx.inputs) && KeyImages(tx.inputs) !! dk.spentKeys
        && forall ref | ref in MultisigRefs(tx.inputs) :: InRange(dk.multisigs, ref)
    {
      hide Applied;
      var all := BlockTxs(b);
      var dk, tx := Applied(d, all, |blocks|, k), all[k];
      if k > 0 {
        assert InputsOk(rules, blocks, dk, tx);
        forall image | image in KeyImages(tx.inputs) ensures image !in dk.spentKeys {
          var i :| 0 <= i < |tx.inputs| && tx.inputs[i].KeyInput? && tx.inputs[i].keyImage == image;
          assert InputOk(rules, blocks, dk, tx, i);
        }
        forall ref | ref in MultisigRefs(tx.inputs) ensures InRange(dk.multisigs, ref) {
          var i :| 0 <= i < |tx.inputs| && tx.inputs[i].MultisigInput?
                   && ref == (tx.inputs[i].amount, tx.inputs[i].outputIndex);
          assert InputOk(rules, blocks, dk, tx, i);
        }
      }
    }

    static lemma OneMoreChecked(rules: Rules, blocks: seq<BlockEntry>, d: Derived, all: seq<Transaction>, k: nat)
      requires k < |all| && BodyOk(rules, blocks, d, all, k)
      requires k > 0 ==> InputsOk(rules, blocks, Applied(d, all, |blocks|, k), all[k])
      ensures BodyOk(rules, blocks, d, all, k + 1)
    {
      hide InputsOk, Applied;
    }

    lemma SmallOutputs(b: Block, k: nat)
      requires Recordable(b) && k < |BlockTxs(b)|
      ensures |BlockTxs(b)[k].outputs| < 0x1_0000
    {
      hide HeaderOk, Semantic, BlockTxs;
    }

    /** `validate_miner_transaction`, in 64-bit arithmetic with the size and the fee of the loop. */
    method ValidateMinerTransaction(
      b: Block, all: seq<Transaction>, size: u32, fee: u64) returns (ok: bool, change: int)
      requires all != [] && all[0] == b.baseTransaction && size == SizeSum(all, |all|) && fee == FeeSum(all, |all|)
      ensures ok <==>
                && rules.shareOk(blocks, b) && size <= 2 * rules.median(blocks)
                && OutputSum(b.baseTransaction.outputs) % TWO64
                   == AfterPenalty(rules.baseReward(blocks, b), rules.median(blocks), size, fee) % TWO64
      ensures ok <==> Emission(rules, blocks, b, all).Some?
      ensures ok ==> Wrap64(change) == Wrap64(Emission(rules, blocks, b, all).value)
    {
      hide SizeSum, FeeSum, OutputSum, InputSum, BlockReward, AfterPenalty;
      RewardIs(rules.baseReward(blocks, b), rules.median(blocks), size, fee);
      var _, minerReward := MoneyAmounts(b.baseTransaction);
      if !rules.shareOk(blocks, b) { return false, 0; }
      var r := GetBlockReward(rules.baseReward(blocks, b), rules.median(blocks), size, fee);
      if r.None? { return false, 0; }
      return minerReward == r.value.0, r.value.1;
    }

    /** `pushBlock(BlockEntry)`: appends the entry to the chain and the block indexes. */
    method AppendEntry(e: BlockEntry)
      modifies `blocks, `blockIndex, `timestampIndex, `generatedIndex, `lastGenerated
      ensures blocks == old(blocks) + [e]
      ensures St().ix == AddIndexes(indexed, old(St().ix), e.bl)
    {
      hide BaseHeight, D;
      blocks := blocks + [e];
      blockIndex := blockIndex + [OfBlock(e.bl)];
      if indexed {
        timestampIndex := timestampIndex + multiset{(e.bl.timestamp as nat, OfBlock(e.bl))};
        var h := BaseHeight(e.bl);
        if |generatedIndex| == h {
          generatedIndex := generatedIndex[h := lastGenerated + |e.bl.transactionHashes| + 1];
          lastGenerated := lastGenerated + |e.bl.transactionHashes| + 1;
        }
      }
    }

    /** `pushBlock` on loaded transactions. The size failure returns without removing what was recorded, and so does the
        exception of an input check. */
    method PushLoaded(b: Block, all: seq<Transaction>) returns (outcome: Outcome)
      requires NamesTransactions(b) && Countable(b) && all == BlockTxs(b) && blockIndex == Ids(blocks)
      requires forall j | 1 <= j < |all| :: Semantic(all[j])
      requires HeaderOk(rules, clock, blocks, b) ==>
                 && ReferencesExist(rules, blocks, D(), b) && ChecksInside(rules, blocks, D(), all)
                 && UndoDefined(rules, clock, St(), b)
      modifies `transactionMap, `spentKeys, `outputs, `multisignatureOutputs, `paymentIds,
               `blocks, `blockIndex, `timestampIndex, `generatedIndex, `lastGenerated
      ensures var verdict := Judge(rules, clock, old(blocks), old(D()), b);
        && (outcome == Passes <==> verdict.Accepted?) && (outcome == Throws <==> verdict.Thrown?)
        && match verdict
           case Refused(k) => k <= |all| && St() == old(St()).(d := Undone(old(D()), all, |old(blocks)|, k))
           case Thrown(k) => k <= |all| && St() == old(St()).(d := Applied(old(D()), all, |old(blocks)|, k))
           case Oversize => St() == old(St()).(d := Applied(old(D()), all, |old(blocks)|, |all|))
           case Accepted(e) => e.bl == b && St() == Extended(old(St()), e).(pool := pool)
    {
      hide Applied, Unapplied, HeaderOk, BodyOk, Semantic, BlockTxs, SizeSum, FeeSum, Entries, AddIndexes,
           ReferencesExist, Emission, FirstBad, Countable, Wrap64, CanPopAll, ChecksInside, BadThrows;
      var headerOk := CheckHeader(b);
      NothingUndone(D(), all, |blocks|);
      if !headerOk { return Fails; }
      var checked, entries, size, fee := PushTransactions(b, all);
      if checked != Passes { return checked; }
      if size > rules.maxSize(|blocks|) { return Fails; }
      var paid, change := ValidateMinerTransaction(b, all, size, fee);
      if !paid {
        PopTransactions(all, |all|);
        return Fails;
      }
      var difficulty := rules.difficulty(blocks, b.timestamp);
      AddsUp(Generated(blocks), change, Emission(rules, blocks, b, all).value);
      var e := BlockEntry(
        b, |blocks|, size,
        Wrap64(difficulty + if blocks == [] then 0 else blocks[|blocks| - 1].cumulativeDifficulty),
        Wrap64(Generated(blocks) + change), entries);
      AppendEntry(e);
      return Passes;
    }

    static lemma AddsUp(x: int, y: int, z: int)
      requires Wrap64(y) == Wrap64(z)
      ensures Wrap64(x + y) == Wrap64(x + z)
    {
      hide Wrap64;
      WrapSum(x, y);
      WrapSum(x, z);
    }

    /** `loadTransactions`: takes the transactions of a block from the pool, or puts back what it took. */
    method LoadTransactions(b: Block) returns (ok: bool, txs: seq<Transaction>)
      modifies `pool
      ensures ok <==> CanLoad(old(pool), b)
      ensures ok ==> txs == Loaded(b) && pool == old(pool) - NamedSet(b)
      ensures !ok ==> pool == old(pool)
    {
      txs := [];
      var i := 0;
      while i < |b.transactionHashes|
        invariant 0 <= i <= |b.transactionHashes| && |txs| == i
        invariant forall j | 0 <= j < i :: b.transactionHashes[j] == OfTransaction(txs[j]) && txs[j] in old(pool)
        invariant forall j, k | 0 <= j < k < i :: txs[j] != txs[k]
        invariant pool == old(pool) - set j | 0 <= j < i :: txs[j]
      {
        var h := b.transactionHashes[i];
        if !h.OfTransaction? || h.tx !in pool {
          SaveTransactions(txs);
          assert pool == old(pool);
          return false, [];
        }
        pool := pool - {h.tx};
        txs := txs + [h.tx];
        i := i + 1;
      }
      ok := true;
    }

    /** `saveTransactions`: the last transaction first. */
    method SaveTransactions(txs: seq<Transaction>)
      modifies `pool
      ensures pool == old(pool) + set j | 0 <= j < |txs| :: txs[j]
    {
      var i := |txs|;
      while i > 0
        invariant 0 <= i <= |txs|
        invariant pool == old(pool) + set j | i <= j < |txs| :: txs[j]
      {
        i := i - 1;
        pool := pool + {txs[i]};
      }
    }

    static lemma LoadedSet(b: Block)
      requires NamesTransactions(b)
      ensures (set j | 0 <= j < |Loaded(b)| :: Loaded(b)[j]) == NamedSet(b)
    {
      forall i | 0 <= i < |b.transactionHashes|
        ensures b.transactionHashes[i].tx in set j | 0 <= j < |Loaded(b)| :: Loaded(b)[j]
      {
        assert Loaded(b)[i] == b.transactionHashes[i].tx;
      }
    }

    static lemma NamedInPool(pool: set<Transaction>, b: Block)
      requires CanLoad(pool, b)
      ensures pool - NamedSet(b) + NamedSet(b) == pool
    {
    }

    /** `pushBlock`, on every state and block on which it is defined. An exception passes by the return of the
        transactions to the pool. */
    method PushBlock(b: Block, delay: nat) returns (outcome: Outcome)
      requires Handled(rules, clock + delay, St(), b)
      modifies this
      ensures (St(), outcome == Passes) == Ledger.PushBlock(rules, old(clock) + delay, old(St()), b)
      ensures outcome == Throws <==> IsThrown(rules, old(clock) + delay, old(St()), b)
    {
      hide Applied, Judge, Semantic, AddIndexes, Undone, Countable, ReferencesExist, HeaderOk, CanPopAll, Ids,
           IsThrown, ChecksInside;
      clock := clock + delay;
      Thrown(rules, clock, old(St()), b);
      var loaded, txs := LoadTransactions(b);
      if !loaded { return Fails; }
      var all := [b.baseTransaction] + txs;
      assert all == BlockTxs(b);
      outcome := PushLoaded(b, all);
      if outcome == Fails {
        LoadedSet(b);
        SaveTransactions(txs);
        assert pool == old(pool) by { NamedInPool(old(pool), b); }
      }
    }

    static lemma Thrown(rules: Rules, now: nat, s: State, b: Block)
      ensures IsThrown(rules, now, s, b) <==> CanLoad(s.pool, b) && Judge(rules, now, s.blocks, s.d, b).Thrown?
    {
      hide Judge, Applied, BadThrows, HeaderOk;
      if CanLoad(s.pool, b) { VerdictOf(rules, now, s, b); }
    }

    // -------------------------------------------------------------------------------------------
    // popBlock

    method RemoveFromIndexes(e: BlockEntry)
      requires e.height < |blockIndex|
      modifies `blockIndex, `timestampIndex, `generatedIndex, `lastGenerated
      ensures St().ix == RemoveIndexes(indexed, old(St().ix), e)
    {
      if indexed {
        timestampIndex := timestampIndex - multiset{(e.bl.timestamp as nat, blockIndex[e.height])};
        var h := BaseHeight(e.bl);
        if h == |generatedIndex| - 1 {
          lastGenerated := if h != 0 && h - 1 in generatedIndex then generatedIndex[h - 1] else 0;
          generatedIndex := generatedIndex - {h};
        }
      }
      blockIndex := blockIndex[..|blockIndex| - 1];
    }

    /** `removeLastBlock`. */
    method RemoveLastBlock()
      requires Poppable(St())
      modifies `blocks, `transactionMap, `spentKeys, `outputs, `multisignatureOutputs, `paymentIds,
               `blockIndex, `timestampIndex, `generatedIndex, `lastGenerated
      ensures St() == Ledger.RemoveLastBlock(old(St()))
    {
      hide Unapplied, RemoveIndexes, CanPopAll;
      if blocks == [] { return; }
      var n := |blocks| - 1;
      var last := blocks[n];
      var all := AllTxs(last);
      PopTransactions(all, |all|);
      RemoveFromIndexes(last);
      blocks := blocks[..n];
    }

    /** `popBlock`. */
    method PopBlock()
      requires Poppable(St())
      modifies this
      ensures St() == Ledger.PopBlock(old(St()))
    {
      hide Ledger.RemoveLastBlock, Ledger.PopBlock, CanPopAll;
      PopsOthers(St());
      if blocks == [] { return; }
      var last := blocks[|blocks| - 1];
      OthersAreRest(last);
      SaveTransactions(AllTxs(last)[1..]);
      RemoveLastBlock();
    }

    static lemma PopsOthers(s: State)
      ensures Ledger.PopBlock(s) ==
              if s.blocks == [] then s else Ledger.RemoveLastBlock(s.(pool := s.pool + Others(s.blocks[|s.blocks| - 1])))
    {
    }

    static lemma OthersAreRest(e: BlockEntry)
      requires e.transactions != []
      ensures Others(e) == set j | 0 <= j < |AllTxs(e)[1..]| :: AllTxs(e)[1..][j]
    {
      var rest := AllTxs(e)[1..];
      forall i | 1 <= i < |e.transactions| ensures e.transactions[i].tx in set j | 0 <= j < |rest| :: rest[j] {
        assert rest[i - 1] == e.transactions[i].tx;
      }
    }

    /** `rollbackBlockchainTo`. */
    method RollbackBlockchainTo(height: nat)
      requires RemovableTo(St(), height + 1)
      modifies this
      ensures St() == RemoveTo(old(St()), height + 1)
      ensures Good(rules, old(St())) ==> (Good(rules, St()) <==> Undoable(old(St()), height + 1))
    {
      hide Good, Ledger.RemoveLastBlock, Undoable, Poppable;
      if Good(rules, St()) { RollbackIsExact(rules, St(), height + 1); }
      while height + 1 < |blocks|
        invariant RemovableTo(St(), height + 1)
        invariant RemoveTo(St(), height + 1) == RemoveTo(old(St()), height + 1)
        decreases |blocks|
      {
        ghost var before := St();
        RemoveLastBlock();
        RemoveShortens(before);
      }
    }

    static lemma RollbackIsExact(rules: Rules, s: State, h: nat)
      requires Good(rules, s)
      ensures Good(rules, RemoveTo(s, h)) <==> Undoable(s, h)
    {
      hide Good;
      if h <= |s.blocks| { RemoveToKeepsGood(rules, s, h); }
    }

    static lemma RemoveShortens(s: State)
      requires s.blocks != []
      ensures |Ledger.RemoveLastBlock(s).blocks| == |s.blocks| - 1 && |Ledger.PopBlock(s).blocks| == |s.blocks| - 1
      ensures Ledger.PopBlock(s).now == s.now
    {
      hide Unapplied, RemoveIndexes;
    }

    // -------------------------------------------------------------------------------------------
    // Chain switching

    /** The comparison of the transactions of the blocks from `split` on with those of the alternative chain. */
    method LacksNothing(split: nat, alt: seq<Block>) returns (ok: bool)
      requires split <= |blocks|
      ensures ok <==> Covers(blocks[split..], alt)
    {
      var altHashes: set<Hash> := {};
      var k := 0;
      while k < |alt|
        invariant 0 <= k <= |alt|
        invariant forall h :: h in altHashes <==> Contains(alt[..k], h)
      {
        ContainsStep(alt, k);
        altHashes := altHashes + set h | h in alt[k].transactionHashes;
        k := k + 1;
      }
      assert alt[..k] == alt;
      var tail := blocks[split..];
      var i := |tail|;
      while i > 0
        invariant 0 <= i <= |tail|
        invariant forall m, j | i <= m < |tail| && 0 <= j < |tail[m].bl.transactionHashes| ::
                    tail[m].bl.transactionHashes[j] in altHashes
      {
        i := i - 1;
        var hashes := tail[i].bl.transactionHashes;
        var j := 0;
        while j < |hashes|
          invariant 0 <= j <= |hashes|
          invariant forall m | 0 <= m < j :: hashes[m] in altHashes
        {
          if hashes[j] !in altHashes {
            assert tail[i].bl.transactionHashes[j] !in altHashes;
            return false;
          }
          j := j + 1;
        }
      }
      assert Covers(tail, alt);
      return true;
    }

    static lemma ContainsStep(alt: seq<Block>, k: nat)
      requires k < |alt|
      ensures forall h :: Contains(alt[..k + 1], h) <==> Contains(alt[..k], h) || h in alt[k].transactionHashes
    {
      var less, more := alt[..k], alt[..k + 1];
      forall h ensures Contains(more, h) <==> Contains(less, h) || h in alt[k].transactionHashes {
        if Contains(less, h) {
          var j :| 0 <= j < |less| && h in less[j].transactionHashes;
          assert more[j] == less[j];
        }
        if h in alt[k].transactionHashes { assert more[k] == alt[k]; }
        if Contains(more, h) {
          var j :| 0 <= j < |more| && h in more[j].transactionHashes;
          assert j == k || less[j] == more[j];
        }
      }
    }

    /** The down-counting loops of the switch: pops blocks while the top index is at least `split`. The index is
        unsigned, so the loop ends only because `split` is at least one. */
    method Disconnect(split: nat) returns (disconnected: seq<Block>)
      requires PoppableTo(St(), split) && 1 <= split <= |blocks|
      modifies this
      ensures St() == PopTo(old(St()), split) && clock == old(clock)
      ensures Good(rules, old(St())) ==> (Good(rules, St()) <==> Undoable(old(St()), split))
      ensures disconnected == Bodies(old(blocks)[split..])
    {
      hide Good, Ledger.PopBlock, Undoable, Poppable;
      ghost var was := blocks;
      if Good(rules, St()) { PopToKeepsGood(rules, St(), split); }
      disconnected := [];
      var i := |blocks| - 1;
      while i >= split
        invariant split - 1 <= i == |blocks| - 1 < |was| && blocks == was[..i + 1]
        invariant PoppableTo(St(), split) && clock == old(clock)
        invariant PopTo(St(), split) == PopTo(old(St()), split)
        invariant disconnected == Bodies(was[i + 1..])
      {
        var b := blocks[i].bl;
        ghost var before := St();
        PopBlock();
        RemoveShortens(before);
        PopPrefix(before);
        disconnected := [b] + disconnected;
        i := i - 1;
      }
    }

    static lemma PopPrefix(s: State)
      requires s.blocks != []
      ensures Ledger.PopBlock(s).blocks == s.blocks[..|s.blocks| - 1]
    {
      hide Unapplied, RemoveIndexes;
    }

    /** Pushes blocks until one fails. */
    method Connect(bs: seq<Block>, delays: nat -> nat, c: nat) returns (outcome: Outcome)
      requires HandledInTurn(rules, delays, c, St(), bs)
      modifies this
      ensures (St(), outcome == Passes) == PushAll(rules, delays, c, old(St()), bs)
      ensures outcome == Throws <==> ThrownInTurn(rules, delays, c, old(St()), bs)
    {
      hide Ledger.PushBlock, Handled, IsThrown, D;
      var k := 0;
      while k < |bs|
        invariant 0 <= k <= |bs| && HandledInTurn(rules, delays, c + k, St(), bs[k..])
        invariant PushAll(rules, delays, c, old(St()), bs) == PushAll(rules, delays, c + k, St(), bs[k..])
        invariant ThrownInTurn(rules, delays, c, old(St()), bs) <==> ThrownInTurn(rules, delays, c + k, St(), bs[k..])
      {
        assert bs[k..][0] == bs[k] && bs[k..][1..] == bs[k + 1..];
        outcome := PushBlock(bs[k], delays(c + k));
        if outcome != Passes { return; }
        k := k + 1;
      }
      return Passes;
    }

    /** `switch_to_alternative_blockchain` with `rollback_blockchain_switching`, up to the bookkeeping of alternative
        blocks. Alternative blocks have heights of at least one. From a good state it is all or nothing exactly when
        `Restores` says so. */
    method SwitchToAlternative(
      alt: seq<Block>, split: nat, plausible: bool, delays: nat -> nat) returns (outcome: Outcome)
      requires SwitchHandled(rules, delays, St(), alt, split, plausible) && split >= 1
      modifies this
      ensures (St(), outcome == Passes) == Switch(rules, delays, old(St()), alt, split, plausible)
      ensures outcome == Throws <==> ThrownInSwitch(rules, delays, old(St()), alt, split, plausible)
      ensures Good(rules, old(St())) && SwitchDefined(rules, delays, old(St()), alt, split, plausible) ==>
                (AllOrNothing(old(St()), alt, split, St(), outcome == Passes)
                 <==> Restores(rules, delays, old(St()), alt, split, plausible))
    {
      hide Good, PopTo, PushAll, Covers, Bodies, Switch, D, PoppableTo, HandledInTurn, SwitchDefined, AllOrNothing,
           Restores, ThrownInTurn;
      SwitchCases(rules, delays, St(), alt, split, plausible);
      if Good(rules, St()) && SwitchDefined(rules, delays, St(), alt, split, plausible) {
        SwitchAllOrNothing(rules, delays, St(), alt, split, plausible);
      }
      if alt == [] || |blocks| <= split || !plausible { return Fails; }
      var covers := LacksNothing(split, alt);
      if !covers { return Fails; }
      outcome := Exchange(alt, split, delays);
    }

    /** Disconnects the old blocks, connects the new ones, and restores the old ones if that fails; an exception is not
        caught. */
    method Exchange(alt: seq<Block>, split: nat, delays: nat -> nat) returns (outcome: Outcome)
      requires 1 <= split <= |blocks|
      requires var p := PopTo(St(), split); var (s', ok) := PushAll(rules, delays, 0, p, alt);
        && PoppableTo(St(), split) && HandledInTurn(rules, delays, 0, p, alt)
        && (ok || ThrownInTurn(rules, delays, 0, p, alt)
            || (split <= |s'.blocks| && PoppableTo(s', split)
                && HandledInTurn(rules, delays, |alt|, PopTo(s', split), Bodies(blocks[split..]))))
      modifies this
      ensures var p, original := PopTo(old(St()), split), Bodies(old(blocks)[split..]);
        var r, threw := PushAll(rules, delays, 0, p, alt), ThrownInTurn(rules, delays, 0, p, alt);
        && (St(), outcome == Passes) ==
           (if r.1 || threw then r else (PushAll(rules, delays, |alt|, PopTo(r.0, split), original).0, false))
        && (outcome == Throws <==> threw || (!r.1 && ThrownInTurn(rules, delays, |alt|, PopTo(r.0, split), original)))
    {
      hide Good, PopTo, PushAll, Bodies, D, PoppableTo, HandledInTurn, ThrownInTurn;
      ghost var p := PopTo(St(), split);
      if PushAll(rules, delays, 0, p, alt).1 { PushAllAccepts(rules, delays, 0, p, alt); }
      var original := Disconnect(split);
      outcome := Connect(alt, delays, 0);
      if outcome == Fails {
        var threw := Restore(split, original, delays, |alt|);
        outcome := if threw then Throws else Fails;
      }
    }

    static lemma SwitchCases(rules: Rules, delays: nat -> nat, s: State, alt: seq<Block>, split: nat, plausible: bool)
      ensures var r := Switch(rules, delays, s, alt, split, plausible);
        if alt == [] || |s.blocks| <= split || !plausible || !Covers(s.blocks[split..], alt) then r == (s, false)
        else
          var p := PushAll(rules, delays, 0, PopTo(s, split), alt);
          r == if p.1 || ThrownInTurn(rules, delays, 0, PopTo(s, split), alt) then (p.0, p.1)
               else (PushAll(rules, delays, |alt|, PopTo(p.0, split), Bodies(s.blocks[split..])).0, false)
    {
      hide PopTo, PushAll, Covers, Bodies;
    }

    /** `rollback_blockchain_switching`, which may fail like any other push. */
    method Restore(split: nat, original: seq<Block>, delays: nat -> nat, c: nat) returns (threw: bool)
      requires 1 <= split <= |blocks| && PoppableTo(St(), split)
      requires HandledInTurn(rules, delays, c, PopTo(St(), split), original)
      modifies this
      ensures St() == PushAll(rules, delays, c, PopTo(old(St()), split), original).0
      ensures threw <==> ThrownInTurn(rules, delays, c, PopTo(old(St()), split), original)
    {
      hide Good, PopTo, PushAll, Bodies, D, PoppableTo, HandledInTurn, ThrownInTurn;
      var _ := Disconnect(split);
      var outcome := Connect(original, delays, c);
      threw := outcome == Throws;
    }

    // -------------------------------------------------------------------------------------------
    // Rebuilding

    /** The containers `rebuildCache` fills agree with `d`. */
    ghost predicate SameCache(d: Derived)
      reads this
    {
      && transactionMap == d.transactions && spentKeys == d.spentKeys
      && outputs == d.outputs && multisignatureOutputs == d.multisigs
    }

    /** The input loop of `rebuildCache`. */
    method ReplayInputs(inputs: seq<Input>)
      requires forall ref | ref in MultisigRefs(inputs) :: InRange(multisignatureOutputs, ref)
      modifies `spentKeys, `multisignatureOutputs
      ensures spentKeys == old(spentKeys) + KeyImages(inputs)
      ensures multisignatureOutputs == Mark(old(multisignatureOutputs), MultisigRefs(inputs), true)
    {
      hide Mark, MultisigRefs, KeyImages;
      ghost var m := multisignatureOutputs;
      MarkNothing(m, true);
      NoKeyImages();
      assert inputs[..0] == [];
      var i := 0;
      while i < |inputs|
        invariant 0 <= i <= |inputs|
        invariant spentKeys == old(spentKeys) + KeyImages(inputs[..i])
        invariant multisignatureOutputs == Mark(m, MultisigRefs(inputs[..i]), true)
      {
        MultisigRefsStep(inputs, i);
        KeyImagesStep(inputs, i);
        if inputs[i].KeyInput? {
          spentKeys := spentKeys + {inputs[i].keyImage};
        } else if inputs[i].MultisigInput? {
          var a, o := inputs[i].amount, inputs[i].outputIndex;
          RefOf(inputs, i);
          MarkOne(m, MultisigRefs(inputs[..i]), a, o, true);
          var v := multisignatureOutputs[a];
          multisignatureOutputs := multisignatureOutputs[a := v[o := v[o].(isUsed := true)]];
        }
        i := i + 1;
      }
      assert inputs[..i] == inputs;
    }

    static lemma NoKeyImages()
      ensures KeyImages([]) == {}
    {
    }

    method ReplayTransaction(tx: Transaction, at: TransactionIndex, ghost d: Derived)
      requires SameCache(d) && Pushable(d, tx) && |tx.outputs| < 0x1_0000
      modifies `transactionMap, `spentKeys, `outputs, `multisignatureOutputs
      ensures SameCache(Apply(d, tx, at))
    {
      hide Mark, MultisigRefs, KeyImages, AddKeyOutputs, AddMultisigOutputs;
      PushableSpends(d, tx);
      if OfTransaction(tx) !in transactionMap {
        transactionMap := transactionMap[OfTransaction(tx) := at];
      }
      ReplayInputs(tx.inputs);
      var _ := AddOutputs(tx.outputs, at);
    }

    method ReplayBlock(all: seq<Transaction>, n: nat, ghost d: Derived)
      requires SameCache(d) && AllPushable(d, all, n, |all|)
      requires |all| <= 0xFFFF && forall j | 0 <= j < |all| :: |all[j].outputs| < 0x1_0000
      modifies `transactionMap, `spentKeys, `outputs, `multisignatureOutputs
      ensures SameCache(Applied(d, all, n, |all|))
    {
      hide Apply, Applied, Pushable, SameCache;
      NoneApplied(d, all, n);
      var t: u16 := 0;
      while t < |all|
        invariant 0 <= t <= |all|
        invariant SameCache(Applied(d, all, n, t))
      {
        NextApplied(d, all, n, t);
        ReplayTransaction(all[t], TransactionIndex(n, t), Applied(d, all, n, t));
        t := t + 1;
      }
    }

    static lemma NextApplied(d: Derived, all: seq<Transaction>, n: nat, k: nat)
      requires k < |all| && Pushable(Applied(d, all, n, k), all[k])
      ensures Applied(d, all, n, k + 1) == Apply(Applied(d, all, n, k), all[k], TransactionIndex(n, k))
    {
      hide Apply, Pushable;
      RecordIsApply(Applied(d, all, n, k), all[k], TransactionIndex(n, k));
    }

    /** `rebuildCache`, on the blocks of a valid chain. */
    method RebuildCache()
      requires ChainOk(rules, clock, indexed, blocks)
      modifies `transactionMap, `spentKeys, `outputs, `multisignatureOutputs, `blockIndex
      ensures SameCache(Rebuild(indexed, blocks)) && blockIndex == Ids(blocks)
    {
      hide ChainOk, Applied, Rebuild, AllPushable, WellFormed, Tracked, EntryOk, EntryAccepted, BlockTxs;
      blockIndex, transactionMap, spentKeys, outputs, multisignatureOutputs := [], map[], {}, map[], map[];
      RebuildNothing(indexed);
      var b := 0;
      assert blocks[..0] == [];
      while b < |blocks|
        invariant 0 <= b <= |blocks|
        invariant SameCache(Rebuild(indexed, blocks[..b]))
        invariant blockIndex == Ids(blocks[..b])
      {
        PrefixIsFine(rules, clock, indexed, blocks, b + 1);
        assert blocks[..b + 1] == blocks[..b] + [blocks[b]];
        ChainFacts'(rules, clock, indexed, blocks[..b], blocks[b]);
        FineEntry(rules, clock, indexed, blocks[..b], blocks[b]);
        NewId(rules, clock, indexed, blocks[..b], blocks[b]);
        if OfBlock(blocks[b].bl) !in blockIndex { blockIndex := blockIndex + [OfBlock(blocks[b].bl)]; }
        ReplayBlock(AllTxs(blocks[b]), b, Rebuild(indexed, blocks[..b]));
        b := b + 1;
      }
      assert blocks[..b] == blocks;
    }

    static lemma RebuildNothing(indexed: bool)
      ensures Rebuild(indexed, []) == EmptyDerived(indexed)
    {
    }

    static lemma FineEntry(rules: Rules, now: nat, indexed: bool, prefix: seq<BlockEntry>, e: BlockEntry)
      requires EntryOk(rules, now, indexed, prefix, e) && AllTxs(e) == BlockTxs(e.bl)
      ensures EntryAccepted(rules, now, indexed, prefix, e)
      ensures |AllTxs(e)| <= 0xFFFF && forall j | 0 <= j < |AllTxs(e)| :: |AllTxs(e)[j].outputs| < 0x1_0000
    {
      hide Rebuild, Judge, Semantic, NewTransactions, ReferencesExist;
    }

    static lemma NewId(rules: Rules, now: nat, indexed: bool, prefix: seq<BlockEntry>, e: BlockEntry)
      requires EntryAccepted(rules, now, indexed, prefix, e)
      ensures OfBlock(e.bl) !in Ids(prefix) && BaseHeight(e.bl) == |prefix|
      ensures Ids(prefix + [e]) == Ids(prefix) + [OfBlock(e.bl)]
    {
      hide Rebuild, BodyOk, Emission, NewEntry, Semantic, SizeSum, Countable;
    }

    /** The rebuild in `loadBlockchainIndices`. Clearing the transaction-count index keeps its running counter, so the
        counts start from whatever the counter was. */
    method LoadBlockchainIndices()
      requires AcceptedChain(rules, clock, indexed, blocks)
      modifies `paymentIds, `timestampIndex, `generatedIndex, `lastGenerated
      ensures indexed ==> paymentIds == Rebuild(true, blocks).payments && timestampIndex == Stamps(blocks)
      ensures indexed ==> generatedIndex == CountsFrom(old(lastGenerated), blocks)
                          && lastGenerated == old(lastGenerated) + TransactionCount(blocks, |blocks|)
      ensures !indexed ==> unchanged(this)
    {
      hide AcceptedChain, Rebuild, Counted;
      if !indexed { return; }
      paymentIds, timestampIndex, generatedIndex := multiset{}, multiset{}, map[];
      RebuildNothing(true);
      assert blocks[..0] == [];
      NothingCounted();
      var b := 0;
      while b < |blocks|
        invariant 0 <= b <= |blocks|
        invariant paymentIds == Rebuild(true, blocks[..b]).payments
        invariant Counted(old(lastGenerated), blocks[..b])
      {
        EntryAt(rules, clock, indexed, blocks, b);
        assert blocks[..b + 1] == blocks[..b] + [blocks[b]];
        CountBlock(old(lastGenerated), blocks[..b], blocks[b]);
        AddPaymentIds(AllTxs(blocks[b]), b, Rebuild(true, blocks[..b]));
        RebuildExtends(true, blocks[..b], blocks[b]);
        b := b + 1;
      }
      assert blocks[..b] == blocks;
      CountedAll(old(lastGenerated));
    }

    /** The timestamp and count indexes cover `done`, with the counter starting at `c`. */
    ghost predicate Counted(c: nat, done: seq<BlockEntry>)
      reads `timestampIndex, `generatedIndex, `lastGenerated
    {
      && timestampIndex == Stamps(done) && generatedIndex == CountsFrom(c, done)
      && lastGenerated == c + TransactionCount(done, |done|)
    }

    lemma NothingCounted()
      requires timestampIndex == multiset{} && generatedIndex == map[]
      ensures Counted(lastGenerated, [])
    {
    }

    lemma CountedAll(c: nat)
      requires Counted(c, blocks)
      ensures timestampIndex == Stamps(blocks) && generatedIndex == CountsFrom(c, blocks)
      ensures lastGenerated == c + TransactionCount(blocks, |blocks|)
    {
    }

    method CountBlock(ghost c: nat, ghost done: seq<BlockEntry>, e: BlockEntry)
      requires Counted(c, done) && BaseHeight(e.bl) == |done|
      modifies `timestampIndex, `generatedIndex, `lastGenerated
      ensures Counted(c, done + [e])
    {
      hide Stamps, CountsFrom, TransactionCount;
      CountsSize(c, done);
      CountsStep(c, done, e);
      TotalStep(done, e);
      timestampIndex := timestampIndex + multiset{(e.bl.timestamp as nat, OfBlock(e.bl))};
      if |generatedIndex| == BaseHeight(e.bl) {
        generatedIndex := generatedIndex[BaseHeight(e.bl) := lastGenerated + |e.bl.transactionHashes| + 1];
        lastGenerated := lastGenerated + |e.bl.transactionHashes| + 1;
      }
    }

    method AddPaymentIds(all: seq<Transaction>, n: nat, ghost d: Derived)
      requires indexed && d.indexed && paymentIds == d.payments && |all| <= 0xFFFF
      modifies `paymentIds
      ensures paymentIds == Replayed(d, all, n, |all|).payments
    {
      hide Apply;
      var t: u16 := 0;
      while t < |all|
        invariant 0 <= t <= |all|
        invariant paymentIds == Replayed(d, all, n, t).payments
      {
        ReplayedIndexed(d, all, n, t);
        PaymentOf(Replayed(d, all, n, t), all[t], TransactionIndex(n, t));
        if all[t].paymentId.Some? {
          paymentIds := paymentIds + multiset{(all[t].paymentId.value, OfTransaction(all[t]))};
        }
        t := t + 1;
      }
    }

    static lemma PaymentOf(d: Derived, tx: Transaction, at: TransactionIndex)
      ensures Apply(d, tx, at).payments == AddPayment(d, tx)
    {
    }

    static lemma EntryAt(rules: Rules, now: nat, indexed: bool, blocks: seq<BlockEntry>, n: nat)
      requires AcceptedChain(rules, now, indexed, blocks) && n < |blocks|
      ensures BaseHeight(blocks[n].bl) == n && |AllTxs(blocks[n])| <= 0xFFFF
      ensures Rebuild(true, blocks[..n]).indexed
    {
      hide Rebuild, Judge, Semantic;
      assert EntryAccepted(rules, now, indexed, blocks[..n], blocks[n]);
      NewId(rules, now, indexed, blocks[..n], blocks[n]);
      AcceptedEntry(rules, now, blocks[..n], Rebuild(indexed, blocks[..n]), blocks[n].bl, blocks[n]);
      RebuildIndexed(true, blocks[..n]);
    }
  }
}
