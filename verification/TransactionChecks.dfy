/** The checks a transaction passes before it enters the pool, and what they guarantee. */
module TransactionChecks {
  import opened ChainTypes
  import opened DerivedState
  import opened Rules

  lemma {:induction false} InputSumGrows(inputs: seq<Input>, k: nat)
    requires k <= |inputs|
    ensures InputSum(inputs[..k]) <= InputSum(inputs)
    decreases |inputs|
  {
    var n := |inputs| - 1;
    if k <= n {
      InputSumGrows(inputs[..n], k);
      assert inputs[..n][..k] == inputs[..k];
    } else {
      assert inputs[..k] == inputs;
    }
  }

  lemma {:induction false} OutputSumGrows(outs: seq<Output>, k: nat)
    requires k <= |outs|
    ensures OutputSum(outs[..k]) <= OutputSum(outs)
    decreases |outs|
  {
    var n := |outs| - 1;
    if k <= n {
      OutputSumGrows(outs[..n], k);
      assert outs[..n][..k] == outs[..k];
    } else {
      assert outs[..k] == outs;
    }
  }

  lemma SumNext(inputs: seq<Input>, outs: seq<Output>, k: nat)
    ensures k < |inputs| ==> InputSum(inputs[..k + 1]) == InputSum(inputs[..k]) + InputAmount(inputs[k])
    ensures k < |outs| ==> OutputSum(outs[..k + 1]) == OutputSum(outs[..k]) + outs[k].amount
    ensures InputSum(inputs[..0]) == 0 && OutputSum(outs[..0]) == 0
  {
    if k < |inputs| { assert inputs[..k + 1][..k] == inputs[..k]; }
    if k < |outs| { assert outs[..k + 1][..k] == outs[..k]; }
  }

  /** `check_inputs_overflow`: the test on the wrapped sum is exact. */
  method CheckInputsOverflow(inputs: seq<Input>) returns (ok: bool)
    ensures ok <==> InputSum(inputs) < TWO64
  {
    hide InputSum, OutputSum;
    var money: u64 := 0;
    var i := 0;
    SumNext(inputs, [], 0);
    while i < |inputs|
      invariant 0 <= i <= |inputs| && money == InputSum(inputs[..i])
    {
      SumNext(inputs, [], i);
      var amount := InputAmount(inputs[i]);
      if money > Wrap64(amount + money) {
        InputSumGrows(inputs, i + 1);
        return false;
      }
      money := Wrap64(money + amount);
      i := i + 1;
    }
    assert inputs[..i] == inputs;
    return true;
  }

  /** `check_outs_overflow`. */
  method CheckOutsOverflow(outs: seq<Output>) returns (ok: bool)
    ensures ok <==> OutputSum(outs) < TWO64
  {
    hide InputSum, OutputSum;
    var money: u64 := 0;
    var i := 0;
    SumNext([], outs, 0);
    while i < |outs|
      invariant 0 <= i <= |outs| && money == OutputSum(outs[..i])
    {
      SumNext([], outs, i);
      if money > Wrap64(outs[i].amount + money) {
        OutputSumGrows(outs, i + 1);
        return false;
      }
      money := Wrap64(money + outs[i].amount);
      i := i + 1;
    }
    assert outs[..i] == outs;
    return true;
  }

  /** `getInputsMoneyAmount` and `getOutsMoneyAmount`, which wrap. */
  method MoneyAmounts(tx: Transaction) returns (ins: u64, outs: u64)
    ensures ins == Wrap64(InputSum(tx.inputs)) && outs == Wrap64(OutputSum(tx.outputs))
  {
    hide InputSum, OutputSum;
    ins, outs := 0, 0;
    SumNext(tx.inputs, tx.outputs, 0);
    for i := 0 to |tx.inputs|
      invariant ins == Wrap64(InputSum(tx.inputs[..i]))
    {
      SumNext(tx.inputs, [], i);
      ins := Wrap64(ins + InputAmount(tx.inputs[i]));
    }
    for i := 0 to |tx.outputs|
      invariant outs == Wrap64(OutputSum(tx.outputs[..i]))
    {
      SumNext([], tx.outputs, i);
      outs := Wrap64(outs + tx.outputs[i].amount);
    }
    assert tx.inputs[..|tx.inputs|] == tx.inputs && tx.outputs[..|tx.outputs|] == tx.outputs;
  }

  /** A ring input names outputs, its later offsets are not zero, and its image lies in the group. */
  predicate RingOk(input: Input, inDomain: nat -> bool) {
    input.KeyInput? ==>
      && input.outputIndexes != [] && inDomain(input.keyImage)
      && forall j :: 1 <= j < |input.outputIndexes| ==> input.outputIndexes[j] != 0
  }

  /** `check_tx_inputs_keyimages_diff`; `inDomain` stands for the curve computation. */
  method CheckKeyImagesDiff(inputs: seq<Input>, inDomain: nat -> bool) returns (ok: bool)
    ensures ok <==> DistinctKeyImages(inputs) && forall i :: 0 <= i < |inputs| ==> RingOk(inputs[i], inDomain)
    ensures ok <==>
              && DistinctKeyImages(inputs)
              && forall i | 0 <= i < |inputs| && inputs[i].KeyInput? ::
                   && inputs[i].outputIndexes != [] && inDomain(inputs[i].keyImage)
                   && forall j | 1 <= j < |inputs[i].outputIndexes| :: inputs[i].outputIndexes[j] != 0
  {
    hide KeyImages;
    var images: set<nat> := {};
    var i := 0;
    assert KeyImages(inputs[..0]) == {} by { NoImages(inputs); }
    while i < |inputs|
      invariant 0 <= i <= |inputs| && images == KeyImages(inputs[..i]) && DistinctKeyImages(inputs[..i])
      invariant forall k :: 0 <= k < i ==> RingOk(inputs[k], inDomain)
    {
      KeyImagesStep(inputs, i);
      OneMoreImage(inputs, i);
      if inputs[i].KeyInput? {
        if inputs[i].keyImage in images { return false; }
        images := images + {inputs[i].keyImage};
      }
      if !RingOk(inputs[i], inDomain) { return false; }
      i := i + 1;
    }
    assert inputs[..i] == inputs;
    return true;
  }

  lemma NoImages(inputs: seq<Input>)
    ensures KeyImages(inputs[..0]) == {}
  {
  }

  lemma OneMoreImage(inputs: seq<Input>, i: nat)
    requires i < |inputs| && DistinctKeyImages(inputs[..i])
    ensures DistinctKeyImages(inputs[..i + 1]) <==> !(inputs[i].KeyInput? && inputs[i].keyImage in KeyImages(inputs[..i]))
    ensures !DistinctKeyImages(inputs[..i + 1]) ==> !DistinctKeyImages(inputs)
  {
    var less, more := inputs[..i], inputs[..i + 1];
    assert more == less + [inputs[i]];
    if inputs[i].KeyInput? && inputs[i].keyImage in KeyImages(less) {
      var j :| 0 <= j < |less| && less[j].KeyInput? && less[j].keyImage == inputs[i].keyImage;
      assert more[j] == less[j] && more[i] == inputs[i];
    }
    forall j, k | 0 <= j < k < i && inputs[j].KeyInput? && inputs[k].KeyInput? ensures inputs[j].keyImage != inputs[k].keyImage {
      assert less[j] == inputs[j] && less[k] == inputs[k];
    }
  }

  /** `checkMultisignatureInputsDiff`. */
  method CheckMultisignatureInputsDiff(inputs: seq<Input>) returns (ok: bool)
    ensures ok <==> DistinctMultisigs(inputs)
  {
    var usage: set<(nat, nat)> := {};
    var i := 0;
    while i < |inputs|
      invariant 0 <= i <= |inputs|
      invariant usage == MultisigRefs(inputs[..i])
      invariant DistinctMultisigs(inputs[..i])
    {
      MultisigRefsStep(inputs, i);
      if inputs[i].MultisigInput? {
        var ref := (inputs[i].amount as nat, inputs[i].outputIndex);
        if ref in usage {
          var j :| 0 <= j < i && inputs[..i][j].MultisigInput? && (inputs[..i][j].amount as nat, inputs[..i][j].outputIndex) == ref;
          assert inputs[j] == inputs[..i][j];
          return false;
        }
        usage := usage + {ref};
        assert forall j | 0 <= j < i && inputs[j].MultisigInput? :: (inputs[j].amount as nat, inputs[j].outputIndex) != ref by {
          forall j | 0 <= j < i && inputs[j].MultisigInput? ensures (inputs[j].amount as nat, inputs[j].outputIndex) != ref {
            assert inputs[..i][j] == inputs[j];
          }
        }
      }
      i := i + 1;
    }
    assert inputs[..i] == inputs;
    return true;
  }

  /** `check_tx_semantic`, with the signature counts and the output keys taken as given: what passes satisfies
      everything the ledger relies on. */
  method CheckTxSemantic(tx: Transaction, signaturesMatch: bool, outsValid: bool, inDomain: nat -> bool) returns (ok: bool)
    ensures ok <==> signaturesMatch && outsValid && tx.inputs != []
                    && (forall i :: 0 <= i < |tx.inputs| ==> !tx.inputs[i].BaseInput?)
                    && InputSum(tx.inputs) < TWO64 && OutputSum(tx.outputs) <= InputSum(tx.inputs)
                    && DistinctKeyImages(tx.inputs) && (forall i :: 0 <= i < |tx.inputs| ==> RingOk(tx.inputs[i], inDomain))
                    && DistinctMultisigs(tx.inputs)
    ensures ok ==> Semantic(tx)
  {
    hide InputSum, OutputSum, DistinctKeyImages, DistinctMultisigs, RingOk;
    if tx.inputs == [] || !signaturesMatch { return false; }
    var i := 0;
    while i < |tx.inputs|
      invariant 0 <= i <= |tx.inputs| && forall k :: 0 <= k < i ==> !tx.inputs[k].BaseInput?
    {
      if tx.inputs[i].BaseInput? { return false; }
      i := i + 1;
    }
    if !outsValid { return false; }
    var insFit := CheckInputsOverflow(tx.inputs);
    if !insFit { return false; }
    var outsFit := CheckOutsOverflow(tx.outputs);
    if !outsFit { return false; }
    var ins, outs := MoneyAmounts(tx);
    if ins < outs { return false; }
    ok := CheckKeyImagesDiff(tx.inputs, inDomain);
    if !ok { return; }
    ok := CheckMultisignatureInputsDiff(tx.inputs);
  }
}
