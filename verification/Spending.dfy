/** No double spending: over an accepted chain every key image is spent at most once; outside the checkpoint zone no
    multisignature output is spent that was spent before; and the derived state records exactly the spends of the
    chain. */
module Spending {
  import opened ChainTypes
  import opened DerivedState
  import opened Rules
  import opened Ledger
  import opened Conservation
  import Definedness
  import Leftovers
  import Reorganisation
  import Runs
  import Steps

  /** Both inputs spend the same key image or the same multisignature output. */
  predicate SameSpend(x: Input, y: Input) {
    || (x.KeyInput? && y.KeyInput? && x.keyImage == y.keyImage)
    || (x.MultisigInput? && y.MultisigInput? && x.amount == y.amount && x.outputIndex == y.outputIndex)
  }

  ghost predicate DistinctSpends(inputs: seq<Input>) {
    forall i, j | 0 <= i < j < |inputs| :: !SameSpend(inputs[i], inputs[j])
  }

  function InputsOfTxs(all: seq<Transaction>, k: nat): seq<Input>
    requires k <= |all|
  {
    if k == 0 then [] else InputsOfTxs(all, k - 1) + all[k - 1].inputs
  }

  /** All inputs of a chain, in order. */
  function InputsOfChain(blocks: seq<BlockEntry>): seq<Input> {
    if blocks == [] then []
    else
      var all := AllTxs(blocks[|blocks| - 1]);
      InputsOfChain(blocks[..|blocks| - 1]) + InputsOfTxs(all, |all|)
  }

  // ---------------------------------------------------------------------------------------------
  // Key images

  lemma SpendsConcat(xs: seq<Input>, ys: seq<Input>)
    ensures KeyImages(xs + ys) == KeyImages(xs) + KeyImages(ys)
    ensures MultisigRefs(xs + ys) == MultisigRefs(xs) + MultisigRefs(ys)
  {
    var zs := xs + ys;
    forall k | k in KeyImages(ys) ensures k in KeyImages(zs) {
      var i :| 0 <= i < |ys| && ys[i].KeyInput? && ys[i].keyImage == k;
      assert zs[|xs| + i] == ys[i];
    }
    forall k | k in KeyImages(xs) ensures k in KeyImages(zs) {
      var i :| 0 <= i < |xs| && xs[i].KeyInput? && xs[i].keyImage == k;
      assert zs[i] == xs[i];
    }
    forall r | r in MultisigRefs(ys) ensures r in MultisigRefs(zs) {
      var i :| 0 <= i < |ys| && ys[i].MultisigInput? && (ys[i].amount as nat, ys[i].outputIndex) == r;
      assert zs[|xs| + i] == ys[i];
    }
    forall r | r in MultisigRefs(xs) ensures r in MultisigRefs(zs) {
      var i :| 0 <= i < |xs| && xs[i].MultisigInput? && (xs[i].amount as nat, xs[i].outputIndex) == r;
      assert zs[i] == xs[i];
    }
  }

  lemma DistinctConcat(xs: seq<Input>, ys: seq<Input>)
    requires DistinctKeyImages(xs) && DistinctKeyImages(ys) && KeyImages(xs) !! KeyImages(ys)
    ensures DistinctKeyImages(xs + ys)
  {
    var zs := xs + ys;
    forall i, j | 0 <= i < j < |zs| && zs[i].KeyInput? && zs[j].KeyInput? ensures zs[i].keyImage != zs[j].keyImage {
      if i < |xs| <= j {
        assert zs[i].keyImage in KeyImages(xs) && ys[j - |xs|].keyImage in KeyImages(ys);
      } else if j < |xs| {
        assert zs[i] == xs[i] && zs[j] == xs[j];
      } else {
        assert zs[i] == ys[i - |xs|] && zs[j] == ys[j - |xs|];
      }
    }
  }

  /** The transaction passed its checks, so its key images are new, in the checkpoint zone too. */
  lemma CheckedImages(rules: Rules, blocks: seq<BlockEntry>, d: Derived, all: seq<Transaction>, j: nat)
    requires j < |all| && Checked(rules, blocks, d, all, j)
    ensures DistinctKeyImages(all[j].inputs) && KeyImages(all[j].inputs) !! Applied(d, all, |blocks|, j).spentKeys
  {
    hide Applied, Semantic;
    var dj := Applied(d, all, |blocks|, j);
    CheckedIsDistinct(rules, blocks, d, all, j);
    forall image | image in KeyImages(all[j].inputs) ensures image !in dj.spentKeys {
      var i :| 0 <= i < |all[j].inputs| && all[j].inputs[i].KeyInput? && all[j].inputs[i].keyImage == image;
      assert j > 0 ==> InputOk(rules, blocks, dj, all[j], i);
    }
  }

  lemma {:induction false} BlockImages(
    rules: Rules, blocks: seq<BlockEntry>, d: Derived, xs: seq<Input>, all: seq<Transaction>, k: nat)
    requires k <= |all| && d.spentKeys == KeyImages(xs) && DistinctKeyImages(xs) && Fresh(d, all, |blocks|, k)
    requires forall j | 0 <= j < k :: Checked(rules, blocks, d, all, j)
    ensures Applied(d, all, |blocks|, k).spentKeys == KeyImages(xs + InputsOfTxs(all, k))
    ensures DistinctKeyImages(xs + InputsOfTxs(all, k))
  {
    hide KeyImages, DistinctKeyImages, Checked, Mark, AddKeyOutputs, AddMultisigOutputs, MultisigRefs, Applied;
    if k == 0 {
      NoneApplied(d, all, |blocks|);
      assert xs + [] == xs;
    } else {
      FreshApplies(d, all, |blocks|, k);
      BlockImages(rules, blocks, d, xs, all, k - 1);
      CheckedImages(rules, blocks, d, all, k - 1);
      var ys := xs + InputsOfTxs(all, k - 1);
      assert ys + all[k - 1].inputs == xs + InputsOfTxs(all, k);
      SpendsConcat(ys, all[k - 1].inputs);
      DistinctConcat(ys, all[k - 1].inputs);
    }
  }

  lemma AcceptedIsChecked(rules: Rules, now: nat, indexed: bool, blocks: seq<BlockEntry>)
    requires AcceptedChain(rules, now, indexed, blocks) && blocks != []
    ensures var n := |blocks| - 1; var prefix, e := blocks[..n], blocks[n];
      && AcceptedChain(rules, now, indexed, prefix)
      && NamesTransactions(e.bl) && AllTxs(e) == BlockTxs(e.bl)
      && (forall j | 0 <= j < |AllTxs(e)| :: Checked(rules, prefix, Rebuild(indexed, prefix), AllTxs(e), j))
      && Rebuild(indexed, blocks) == Applied(Rebuild(indexed, prefix), AllTxs(e), n, |AllTxs(e)|)
      && Fresh(Rebuild(indexed, prefix), AllTxs(e), n, |AllTxs(e)|)
  {
    hide Rebuild, Applied, Replayed, Judge, Semantic, Countable, Checked, HeaderOk, BodyOk, NewTransactions, Fresh;
    var n := |blocks| - 1;
    var prefix, e := blocks[..n], blocks[n];
    AcceptedPrefix(rules, now, indexed, blocks, n);
    assert EntryAccepted(rules, now, indexed, prefix, e);
    AcceptedEntry(rules, now, prefix, Rebuild(indexed, prefix), e.bl, e);
    PassedChecks(rules, now, prefix, Rebuild(indexed, prefix), e.bl, |AllTxs(e)|);
    RebuildPushes(rules, now, indexed, prefix, e);
    NewIsFresh(Rebuild(indexed, prefix), e.bl, n);
    assert prefix + [e] == blocks;
  }

  /** No key image is spent twice in an accepted chain, inside the checkpoint zone and outside, and the spent key
      images are exactly those of the chain. */
  lemma {:induction false} ImagesSpentOnce(rules: Rules, now: nat, indexed: bool, blocks: seq<BlockEntry>)
    requires AcceptedChain(rules, now, indexed, blocks)
    ensures DistinctKeyImages(InputsOfChain(blocks))
    ensures Rebuild(indexed, blocks).spentKeys == KeyImages(InputsOfChain(blocks))
    decreases |blocks|
  {
    hide Applied, AcceptedChain, Checked, KeyImages, DistinctKeyImages, Rebuild, Fresh;
    if blocks == [] {
      NothingSpent(indexed);
    } else {
      var n := |blocks| - 1;
      AcceptedIsChecked(rules, now, indexed, blocks);
      ImagesSpentOnce(rules, now, indexed, blocks[..n]);
      BlockImages(rules, blocks[..n], Rebuild(indexed, blocks[..n]), InputsOfChain(blocks[..n]), AllTxs(blocks[n]),
        |AllTxs(blocks[n])|);
    }
  }

  lemma NothingSpent(indexed: bool)
    ensures DistinctKeyImages([]) && Rebuild(indexed, []).spentKeys == KeyImages([])
            && RecordsMultisigs(Rebuild(indexed, []), [])
  {
  }

  // ---------------------------------------------------------------------------------------------
  // Multisignature outputs

  /** The usage flags mark exactly the outputs that `inputs` spend, and these exist. */
  ghost predicate RecordsMultisigs(d: Derived, inputs: seq<Input>) {
    && (forall ref | ref in MultisigRefs(inputs) :: InRange(d.multisigs, ref))
    && (forall a: nat, i: nat | i < |Vec(d.multisigs, a)| ::
          Vec(d.multisigs, a)[i].isUsed <==> (a, i) in MultisigRefs(inputs))
  }

  lemma {:induction false} NewMultisigsAreUnused(
    m: map<nat, seq<MultisigUsage>>, outs: seq<Output>, at: TransactionIndex, k: nat, a: nat)
    requires k <= |outs|
    ensures var v, v' := Vec(m, a), Vec(AddMultisigOutputs(m, outs, at, k), a);
      v <= v' && forall i | |v| <= i < |v'| :: !v'[i].isUsed
  {
    if k != 0 {
      NewMultisigsAreUnused(m, outs, at, k - 1, a);
    }
  }

  /** Recording a transaction whose multisignature outputs exist extends the record by its inputs. */
  lemma ApplyRecordsSpends(d: Derived, xs: seq<Input>, tx: Transaction, at: TransactionIndex)
    requires RecordsMultisigs(d, xs) && forall ref | ref in MultisigRefs(tx.inputs) :: InRange(d.multisigs, ref)
    ensures RecordsMultisigs(Apply(d, tx, at), xs + tx.inputs)
  {
    var refs := MultisigRefs(tx.inputs);
    var marked := Mark(d.multisigs, refs, true);
    var d' := Apply(d, tx, at);
    SpendsConcat(xs, tx.inputs);
    forall ref | ref in MultisigRefs(xs) + refs ensures InRange(d'.multisigs, ref) {
      NewMultisigsAreUnused(marked, tx.outputs, at, |tx.outputs|, ref.0);
      assert InRange(d.multisigs, ref);
    }
    forall a: nat, i: nat | i < |Vec(d'.multisigs, a)|
      ensures Vec(d'.multisigs, a)[i].isUsed <==> (a, i) in MultisigRefs(xs) + refs
    {
      NewMultisigsAreUnused(marked, tx.outputs, at, |tx.outputs|, a);
      assert (a, i) in MultisigRefs(xs) + refs ==> InRange(d.multisigs, (a, i));
      assert |Vec(marked, a)| == |Vec(d.multisigs, a)|;
      if i < |Vec(marked, a)| {
        assert Vec(marked, a)[i].isUsed == ((a, i) in refs || Vec(d.multisigs, a)[i].isUsed);
      }
    }
  }

  /** Each multisignature output that the first `k` transactions spend exists at its turn. */
  ghost predicate ExistAtTurn(d: Derived, all: seq<Transaction>, n: nat, k: nat)
    requires k <= |all|
  {
    forall j, ref | 0 <= j < k && ref in MultisigRefs(all[j].inputs) :: InRange(Applied(d, all, n, j).multisigs, ref)
  }

  /** Each of them is unspent at its turn. */
  ghost predicate UnspentAtTurn(d: Derived, all: seq<Transaction>, n: nat, k: nat)
    requires k <= |all|
  {
    forall j, ref | 0 <= j < k && ref in MultisigRefs(all[j].inputs) :: Unused(Applied(d, all, n, j).multisigs, ref)
  }

  /** Outside the checkpoint zone the checks ensure it. */
  lemma UnspentOutside(rules: Rules, blocks: seq<BlockEntry>, d: Derived, all: seq<Transaction>, k: nat)
    requires k <= |all| && !rules.inZone(|blocks|) && forall j | 0 <= j < k :: Checked(rules, blocks, d, all, j)
    ensures UnspentAtTurn(d, all, |blocks|, k)
  {
    hide Applied, Semantic;
    forall j, ref | 0 <= j < k && ref in MultisigRefs(all[j].inputs)
      ensures Unused(Applied(d, all, |blocks|, j).multisigs, ref)
    {
      var i :| 0 <= i < |all[j].inputs| && all[j].inputs[i].MultisigInput?
               && ref == (all[j].inputs[i].amount as nat, all[j].inputs[i].outputIndex);
      assert Checked(rules, blocks, d, all, j);
      assert j > 0 ==> InputOk(rules, blocks, Applied(d, all, |blocks|, j), all[j], i);
    }
  }

  lemma {:induction false} BlockRecords(d: Derived, xs: seq<Input>, all: seq<Transaction>, n: nat, k: nat)
    requires k <= |all| && RecordsMultisigs(d, xs) && ExistAtTurn(d, all, n, k) && Fresh(d, all, n, k)
    ensures RecordsMultisigs(Applied(d, all, n, k), xs + InputsOfTxs(all, k))
  {
    hide Apply, Applied, RecordsMultisigs, MultisigRefs;
    if k == 0 {
      NoneApplied(d, all, n);
      assert xs + [] == xs;
    } else {
      FreshApplies(d, all, n, k);
      BlockRecords(d, xs, all, n, k - 1);
      var ys := xs + InputsOfTxs(all, k - 1);
      assert ys + all[k - 1].inputs == xs + InputsOfTxs(all, k);
      ApplyRecordsSpends(Applied(d, all, n, k - 1), ys, all[k - 1], TransactionIndex(n, k - 1));
    }
  }

  /** No input of `ys` spends a multisignature output that an input in front of it spends. */
  ghost predicate NewMultisigs(xs: seq<Input>, ys: seq<Input>) {
    forall i, j | 0 <= i < j < |xs + ys| && |xs| <= j
      && (xs + ys)[i].MultisigInput? :: !SameSpend((xs + ys)[i], (xs + ys)[j])
  }

  /** The multisignature inputs of a block that spends outputs unspent at their turn are new. */
  lemma {:induction false} BlockSpends(d: Derived, xs: seq<Input>, all: seq<Transaction>, n: nat, k: nat)
    requires k <= |all| && RecordsMultisigs(d, xs) && UnspentAtTurn(d, all, n, k) && Fresh(d, all, n, k)
    requires forall j | 0 <= j < k :: DistinctMultisigs(all[j].inputs)
    ensures NewMultisigs(xs, InputsOfTxs(all, k))
    ensures RecordsMultisigs(Applied(d, all, n, k), xs + InputsOfTxs(all, k))
  {
    hide Applied, RecordsMultisigs, MultisigRefs, DistinctMultisigs;
    if k == 0 {
      NoneApplied(d, all, n);
      assert xs + [] == xs;
    } else {
      BlockSpends(d, xs, all, n, k - 1);
      BlockRecords(d, xs, all, n, k);
      NextSpends(Applied(d, all, n, k - 1), xs, InputsOfTxs(all, k - 1), all[k - 1].inputs);
    }
  }

  lemma NextSpends(d: Derived, xs: seq<Input>, ys: seq<Input>, zs: seq<Input>)
    requires NewMultisigs(xs, ys) && RecordsMultisigs(d, xs + ys) && DistinctMultisigs(zs)
    requires forall ref | ref in MultisigRefs(zs) :: Unused(d.multisigs, ref)
    ensures NewMultisigs(xs, ys + zs)
  {
    var us, vs := xs + ys, xs + (ys + zs);
    assert vs == us + zs;
    forall i, j | 0 <= i < j < |vs| && |xs| <= j && vs[i].MultisigInput? ensures !SameSpend(vs[i], vs[j]) {
      if j < |us| {
        assert vs[i] == us[i] && vs[j] == us[j];
      } else if i < |us| {
        assert vs[i] == us[i] && vs[j] == zs[j - |us|];
        var ref := (us[i].amount as nat, us[i].outputIndex);
        assert ref in MultisigRefs(us) && InRange(d.multisigs, ref) && Vec(d.multisigs, ref.0)[ref.1].isUsed;
        var z := zs[j - |us|];
        assert z.MultisigInput? ==> (z.amount as nat, z.outputIndex) in MultisigRefs(zs);
      } else {
        assert vs[i] == zs[i - |us|] && vs[j] == zs[j - |us|];
      }
    }
  }

  /** The in-zone blocks of a chain name existing multisignature outputs. */
  ghost predicate ReferencedChain(rules: Rules, indexed: bool, blocks: seq<BlockEntry>) {
    forall k | 0 <= k < |blocks| && rules.inZone(k) ::
      ExistAtTurn(Rebuild(indexed, blocks[..k]), AllTxs(blocks[k]), k, |AllTxs(blocks[k])|)
  }

  lemma ReferencedPrefix(rules: Rules, indexed: bool, blocks: seq<BlockEntry>, n: nat)
    requires ReferencedChain(rules, indexed, blocks) && n <= |blocks|
    ensures ReferencedChain(rules, indexed, blocks[..n])
  {
    hide ExistAtTurn, Rebuild;
    forall k | 0 <= k < n && rules.inZone(k)
      ensures ExistAtTurn(Rebuild(indexed, blocks[..n][..k]), AllTxs(blocks[..n][k]), k, |AllTxs(blocks[..n][k])|)
    {
      assert blocks[..n][..k] == blocks[..k];
    }
  }

  /** The blocks of a valid chain do: the code was defined when it recorded them. */
  lemma ChainIsReferenced(rules: Rules, now: nat, indexed: bool, blocks: seq<BlockEntry>)
    requires ChainOk(rules, now, indexed, blocks)
    ensures ReferencedChain(rules, indexed, blocks)
  {
    hide Rebuild, ExistAtTurn, EntryOk;
    forall k | 0 <= k < |blocks| && rules.inZone(k)
      ensures ExistAtTurn(Rebuild(indexed, blocks[..k]), AllTxs(blocks[k]), k, |AllTxs(blocks[k])|)
    {
      assert EntryOk(rules, now, indexed, blocks[..k], blocks[k]);
      EntryIsReferenced(rules, now, indexed, blocks[..k], blocks[k]);
    }
  }

  lemma EntryIsReferenced(rules: Rules, now: nat, indexed: bool, prefix: seq<BlockEntry>, e: BlockEntry)
    requires EntryOk(rules, now, indexed, prefix, e) && rules.inZone(|prefix|)
    ensures ExistAtTurn(Rebuild(indexed, prefix), AllTxs(e), |prefix|, |AllTxs(e)|)
  {
    hide Rebuild, Applied, Judge, Semantic, NewTransactions, Countable, BodyOk, BlockTxs, AllTxs, InRange;
    var d, all := Rebuild(indexed, prefix), BlockTxs(e.bl);
    AcceptedEntry(rules, now, prefix, d, e.bl, e);
    forall j, ref | 0 <= j < |all| && ref in MultisigRefs(all[j].inputs)
      ensures InRange(Applied(d, all, |prefix|, j).multisigs, ref)
    {
      Definedness.BodyPrefix(rules, prefix, d, all, j + 1);
    }
  }

  /** The usage flags mark exactly the multisignature outputs that the chain spends. */
  lemma {:induction false} FlagsAreSpends(rules: Rules, now: nat, indexed: bool, blocks: seq<BlockEntry>)
    requires AcceptedChain(rules, now, indexed, blocks) && ReferencedChain(rules, indexed, blocks)
    ensures RecordsMultisigs(Rebuild(indexed, blocks), InputsOfChain(blocks))
    decreases |blocks|
  {
    hide Applied, AcceptedChain, Checked, Rebuild, ExistAtTurn, RecordsMultisigs, Fresh;
    if blocks == [] {
      NothingSpent(indexed);
    } else {
      var n := |blocks| - 1;
      var prefix, all := blocks[..n], AllTxs(blocks[n]);
      AcceptedIsChecked(rules, now, indexed, blocks);
      ReferencedPrefix(rules, indexed, blocks, n);
      FlagsAreSpends(rules, now, indexed, prefix);
      if !rules.inZone(n) { ExistsOutside(rules, prefix, Rebuild(indexed, prefix), all); }
      BlockRecords(Rebuild(indexed, prefix), InputsOfChain(prefix), all, n, |all|);
    }
  }

  lemma ExistsOutside(rules: Rules, blocks: seq<BlockEntry>, d: Derived, all: seq<Transaction>)
    requires !rules.inZone(|blocks|) && forall j | 0 <= j < |all| :: Checked(rules, blocks, d, all, j)
    ensures ExistAtTurn(d, all, |blocks|, |all|)
  {
    hide Applied, Checked;
    UnspentOutside(rules, blocks, d, all, |all|);
  }

  /** A block outside the checkpoint zone spends no multisignature output that was spent before it or earlier in it,
      whatever the blocks in the zone spend. */
  lemma MultisigsSpentOnce(rules: Rules, now: nat, indexed: bool, blocks: seq<BlockEntry>, n: nat)
    requires AcceptedChain(rules, now, indexed, blocks) && ReferencedChain(rules, indexed, blocks)
    requires n < |blocks| && !rules.inZone(n)
    ensures NewMultisigs(InputsOfChain(blocks[..n]), InputsOfTxs(AllTxs(blocks[n]), |AllTxs(blocks[n])|))
  {
    hide Applied, AcceptedChain, ReferencedChain, Checked, Rebuild, RecordsMultisigs, NewMultisigs, Fresh;
    var prefix, all := blocks[..n], AllTxs(blocks[n]);
    AcceptedPrefix(rules, now, indexed, blocks, n + 1);
    assert blocks[..n + 1][..n] == prefix;
    AcceptedIsChecked(rules, now, indexed, blocks[..n + 1]);
    ReferencedPrefix(rules, indexed, blocks, n);
    FlagsAreSpends(rules, now, indexed, prefix);
    UnspentOutside(rules, prefix, Rebuild(indexed, prefix), all, |all|);
    forall j | 0 <= j < |all| ensures DistinctMultisigs(all[j].inputs) {
      CheckedIsDistinct(rules, prefix, Rebuild(indexed, prefix), all, j);
    }
    BlockSpends(Rebuild(indexed, prefix), InputsOfChain(prefix), all, n, |all|);
  }

  // ---------------------------------------------------------------------------------------------
  // Both

  /** If the blocks in the checkpoint zone too spend only unspent multisignature outputs, nothing at all is spent
      twice. */
  lemma {:induction false} NoDoubleSpend(rules: Rules, now: nat, indexed: bool, blocks: seq<BlockEntry>)
    requires AcceptedChain(rules, now, indexed, blocks)
    requires forall k | 0 <= k < |blocks| && rules.inZone(k) ::
               UnspentAtTurn(Rebuild(indexed, blocks[..k]), AllTxs(blocks[k]), k, |AllTxs(blocks[k])|)
    ensures DistinctSpends(InputsOfChain(blocks))
  {
    hide AcceptedChain, Rebuild, DistinctKeyImages, UnspentAtTurn, Applied;
    ImagesSpentOnce(rules, now, indexed, blocks);
    MultisigsAllOnce(rules, now, indexed, blocks);
    BothOnce(InputsOfChain(blocks));
  }

  lemma BothOnce(xs: seq<Input>)
    requires DistinctKeyImages(xs) && DistinctMultisigs(xs)
    ensures DistinctSpends(xs)
  {
  }

  lemma {:induction false} MultisigsAllOnce(rules: Rules, now: nat, indexed: bool, blocks: seq<BlockEntry>)
    requires AcceptedChain(rules, now, indexed, blocks)
    requires forall k | 0 <= k < |blocks| && rules.inZone(k) ::
               UnspentAtTurn(Rebuild(indexed, blocks[..k]), AllTxs(blocks[k]), k, |AllTxs(blocks[k])|)
    ensures DistinctMultisigs(InputsOfChain(blocks))
            && RecordsMultisigs(Rebuild(indexed, blocks), InputsOfChain(blocks))
    decreases |blocks|
  {
    hide Applied, AcceptedChain, Checked, Rebuild, RecordsMultisigs, NewMultisigs, UnspentAtTurn, DistinctMultisigs,
         Fresh;
    if blocks == [] {
      NothingSpent(indexed);
      NoneDistinct();
    } else {
      var n := |blocks| - 1;
      var prefix, all := blocks[..n], AllTxs(blocks[n]);
      AcceptedIsChecked(rules, now, indexed, blocks);
      forall k | 0 <= k < n && rules.inZone(k)
        ensures UnspentAtTurn(Rebuild(indexed, prefix[..k]), AllTxs(prefix[k]), k, |AllTxs(prefix[k])|)
      {
        assert prefix[..k] == blocks[..k];
      }
      MultisigsAllOnce(rules, now, indexed, prefix);
      if !rules.inZone(n) { UnspentOutside(rules, prefix, Rebuild(indexed, prefix), all, |all|); }
      forall j | 0 <= j < |all| ensures DistinctMultisigs(all[j].inputs) {
        CheckedIsDistinct(rules, prefix, Rebuild(indexed, prefix), all, j);
      }
      BlockSpends(Rebuild(indexed, prefix), InputsOfChain(prefix), all, n, |all|);
      NewIsDistinct(InputsOfChain(prefix), InputsOfTxs(all, |all|));
    }
  }

  lemma NoneDistinct()
    ensures DistinctMultisigs([])
  {
  }

  lemma NewIsDistinct(xs: seq<Input>, ys: seq<Input>)
    requires DistinctMultisigs(xs) && NewMultisigs(xs, ys)
    ensures DistinctMultisigs(xs + ys)
  {
    var zs := xs + ys;
    forall i, j | 0 <= i < j < |zs| && zs[i].MultisigInput? && zs[j].MultisigInput?
      ensures (zs[i].amount, zs[i].outputIndex) != (zs[j].amount, zs[j].outputIndex)
    {
      if j < |xs| { assert zs[i] == xs[i] && zs[j] == xs[j]; } else { assert !SameSpend(zs[i], zs[j]); }
    }
  }

  // ---------------------------------------------------------------------------------------------
  // Every run

  lemma {:induction false} ImageInTxs(all: seq<Transaction>, k: nat, image: nat) returns (j: nat)
    requires k <= |all| && image in KeyImages(InputsOfTxs(all, k))
    ensures j < k && image in KeyImages(all[j].inputs)
  {
    hide KeyImages, MultisigRefs;
    if k == 0 {
      NoImages(image);
    } else {
      SpendsConcat(InputsOfTxs(all, k - 1), all[k - 1].inputs);
      if image in KeyImages(all[k - 1].inputs) { j := k - 1; } else { j := ImageInTxs(all, k - 1, image); }
    }
  }

  lemma NoImages(image: nat)
    ensures image !in KeyImages([])
  {
  }

  /** The transactions are recorded, pairwise different, and each has distinct key images. */
  ghost predicate RecordedOnce(d: Derived, all: seq<Transaction>, k: nat)
    requires k <= |all|
  {
    && (forall j | 0 <= j < k :: OfTransaction(all[j]) in d.transactions && DistinctKeyImages(all[j].inputs))
    && (forall i, j | 0 <= i < j < k :: all[i] != all[j])
  }

  lemma {:induction false} BlockImagesApart(d: Derived, all: seq<Transaction>, k: nat)
    requires ImagesApart(d) && k <= |all| && RecordedOnce(d, all, k)
    ensures DistinctKeyImages(InputsOfTxs(all, k)) && KeyImages(InputsOfTxs(all, k)) <= d.spentKeys
  {
    hide KeyImages, DistinctKeyImages, MultisigRefs;
    if k == 0 {
      NoneSpent();
    } else {
      BlockImagesApart(d, all, k - 1);
      var xs, ys := InputsOfTxs(all, k - 1), all[k - 1].inputs;
      SpendsConcat(xs, ys);
      forall image | image in KeyImages(xs) ensures image !in KeyImages(ys) {
        var j := ImageInTxs(all, k - 1, image);
        assert OfTransaction(all[j]) in d.transactions && OfTransaction(all[k - 1]) in d.transactions;
      }
      DistinctConcat(xs, ys);
    }
  }

  lemma NoneSpent()
    ensures DistinctKeyImages([]) && KeyImages([]) == {}
  {
  }

  lemma {:induction false} ChainImages(blocks: seq<BlockEntry>, image: nat) returns (k: nat, tx: Transaction)
    requires image in KeyImages(InputsOfChain(blocks))
    ensures k < |blocks| && tx in AllTxs(blocks[k]) && image in KeyImages(tx.inputs)
    decreases |blocks|
  {
    hide KeyImages, MultisigRefs, AllTxs;
    if blocks == [] {
      NoImages(image);
    } else {
      var n := |blocks| - 1;
      var all := AllTxs(blocks[n]);
      SpendsConcat(InputsOfChain(blocks[..n]), InputsOfTxs(all, |all|));
      if image in KeyImages(InputsOfTxs(all, |all|)) {
        var j := ImageInTxs(all, |all|, image);
        k, tx := n, all[j];
      } else {
        k, tx := ChainImages(blocks[..n], image);
      }
    }
  }

  lemma LastIsRecordedOnce(rules: Rules, s: State)
    requires Kept(rules, s) && s.blocks != []
    ensures var all := AllTxs(s.blocks[|s.blocks| - 1]); RecordedOnce(s.d, all, |all|)
  {
    hide KeptChain, HeldOnce, ImagesApart, IndexesOf, Semantic, AllTxs, EntryKept, CanLoad;
    var n := |s.blocks| - 1;
    var e := s.blocks[n];
    LastKept(rules, s);
    KeptEntry(rules, s.blocks[..n], e);
    var all := BlockTxs(e.bl);
    forall j | 0 <= j < |all| ensures OfTransaction(all[j]) in s.d.transactions && DistinctKeyImages(all[j].inputs) {
      assert all[j] in AllTxs(e);
      if j > 0 { SemanticIsDistinct(all[j]); }
    }
    BlockIsDistinct(s.pool + NamedSet(e.bl), e.bl, n);
  }

  lemma SemanticIsDistinct(tx: Transaction)
    requires Semantic(tx)
    ensures DistinctKeyImages(tx.inputs)
  {
  }

  /** In every state that can be reached, whatever failed on the way, no key image of the chain is spent twice, and
      all of them are marked as spent. */
  lemma {:induction false} KeptSpendsOnce(rules: Rules, s: State)
    requires Kept(rules, s)
    ensures DistinctKeyImages(InputsOfChain(s.blocks)) && KeyImages(InputsOfChain(s.blocks)) <= s.d.spentKeys
    decreases |s.blocks|
  {
    hide Kept, KeyImages, DistinctKeyImages, MultisigRefs, AllTxs, ImagesApart, RemoveLastBlock;
    if s.blocks == [] {
      NoneSpent();
    } else {
      var n, t := |s.blocks| - 1, RemoveLastBlock(s);
      var all := AllTxs(s.blocks[n]);
      var xs, ys := InputsOfChain(s.blocks[..n]), InputsOfTxs(all, |all|);
      RemoveKeepsKept(rules, s);
      RemovedBlocks(s);
      KeptSpendsOnce(rules, t);
      LastIsRecordedOnce(rules, s);
      KeptParts(rules, s);
      BlockImagesApart(s.d, all, |all|);
      SpendsConcat(xs, ys);
      forall image | image in KeyImages(xs) ensures image !in KeyImages(ys) && image in s.d.spentKeys {
        EarlierImage(rules, s, image);
      }
      DistinctConcat(xs, ys);
    }
  }

  lemma EarlierImage(rules: Rules, s: State, image: nat)
    requires Kept(rules, s) && s.blocks != [] && image in KeyImages(InputsOfChain(s.blocks[..|s.blocks| - 1]))
    ensures var all := AllTxs(s.blocks[|s.blocks| - 1]);
      image !in KeyImages(InputsOfTxs(all, |all|)) && image in s.d.spentKeys
  {
    hide KeptChain, HeldOnce, IndexesOf, Semantic, AllTxs, KeyImages;
    var n := |s.blocks| - 1;
    var all := AllTxs(s.blocks[n]);
    var k, tx := ChainImages(s.blocks[..n], image);
    assert s.blocks[..n][k] == s.blocks[k] && OfTransaction(tx) in s.d.transactions;
    LastApart(rules, s, k, tx);
    forall j | 0 <= j < |all| ensures image !in KeyImages(all[j].inputs) {
      assert all[j] in all && OfTransaction(all[j]) in s.d.transactions;
    }
    if image in KeyImages(InputsOfTxs(all, |all|)) {
      var _ := ImageInTxs(all, |all|, image);
    }
  }

  /** So after every run no key image of the chain is spent twice and all of them are marked as spent. If the steps
      are allowed, no others are, the usage flags mark exactly the multisignature outputs that the chain spends, and
      no block outside the checkpoint zone spends one that was spent before it or earlier in it. */
  lemma RunSpendsOnce(rules: Rules, s: State, steps: seq<Runs.Step>)
    requires Kept(rules, s)
    ensures var t := Runs.Run(rules, s, steps);
      && DistinctKeyImages(InputsOfChain(t.blocks)) && KeyImages(InputsOfChain(t.blocks)) <= t.d.spentKeys
      && (Good(rules, s) && Runs.RunAllowed(rules, s, steps) ==>
            && t.d.spentKeys == KeyImages(InputsOfChain(t.blocks)) && RecordsMultisigs(t.d, InputsOfChain(t.blocks))
            && forall n | 0 <= n < |t.blocks| && !rules.inZone(n) ::
                 NewMultisigs(InputsOfChain(t.blocks[..n]), InputsOfTxs(AllTxs(t.blocks[n]), |AllTxs(t.blocks[n])|)))
  {
    hide Runs.RunAllowed, Runs.Run, ChainOk, Rebuild, IndexesOf, Semantic, AcceptedChain, KeyImages,
         DistinctKeyImages, KeptChain, HeldOnce, ChainRecorded, ImagesApart, RecordsMultisigs, NewMultisigs, AllTxs,
         ReferencedChain;
    var t := Runs.Run(rules, s, steps);
    Runs.EveryRunIsKept(rules, s, steps);
    KeptSpendsOnce(rules, t);
    if Good(rules, s) && Runs.RunAllowed(rules, s, steps) {
      Runs.EveryRunIsRebuilt(rules, s, steps);
      FineIsAccepted(rules, t.now, t.d.indexed, t.blocks);
      ImagesSpentOnce(rules, t.now, t.d.indexed, t.blocks);
      ChainIsReferenced(rules, t.now, t.d.indexed, t.blocks);
      FlagsAreSpends(rules, t.now, t.d.indexed, t.blocks);
      forall n | 0 <= n < |t.blocks| && !rules.inZone(n)
        ensures NewMultisigs(InputsOfChain(t.blocks[..n]), InputsOfTxs(AllTxs(t.blocks[n]), |AllTxs(t.blocks[n])|))
      {
        MultisigsSpentOnce(rules, t.now, t.d.indexed, t.blocks, n);
      }
    }
  }

  // ---------------------------------------------------------------------------------------------
  // Multisignature outputs over every run

  lemma {:induction false} RefInTxs(all: seq<Transaction>, k: nat, ref: (nat, nat)) returns (j: nat)
    requires k <= |all| && ref in MultisigRefs(InputsOfTxs(all, k))
    ensures j < k && ref in MultisigRefs(all[j].inputs)
  {
    hide KeyImages, MultisigRefs;
    if k == 0 {
      NoRefs(ref);
    } else {
      SpendsConcat(InputsOfTxs(all, k - 1), all[k - 1].inputs);
      if ref in MultisigRefs(all[k - 1].inputs) { j := k - 1; } else { j := RefInTxs(all, k - 1, ref); }
    }
  }

  lemma NoRefs(ref: (nat, nat))
    ensures ref !in MultisigRefs([])
  {
  }

  lemma {:induction false} ChainRefs(blocks: seq<BlockEntry>, ref: (nat, nat)) returns (k: nat, tx: Transaction)
    requires ref in MultisigRefs(InputsOfChain(blocks))
    ensures k < |blocks| && tx in AllTxs(blocks[k]) && ref in MultisigRefs(tx.inputs)
    decreases |blocks|
  {
    hide KeyImages, MultisigRefs, AllTxs;
    if blocks == [] {
      NoRefs(ref);
    } else {
      var n := |blocks| - 1;
      var all := AllTxs(blocks[n]);
      SpendsConcat(InputsOfChain(blocks[..n]), InputsOfTxs(all, |all|));
      if ref in MultisigRefs(InputsOfTxs(all, |all|)) {
        var j := RefInTxs(all, |all|, ref);
        k, tx := n, all[j];
      } else {
        k, tx := ChainRefs(blocks[..n], ref);
      }
    }
  }

  lemma MultisigsConcat(xs: seq<Input>, ys: seq<Input>)
    requires DistinctMultisigs(xs) && DistinctMultisigs(ys) && MultisigRefs(xs) !! MultisigRefs(ys)
    ensures DistinctMultisigs(xs + ys)
  {
    var zs := xs + ys;
    forall i, j | 0 <= i < j < |zs| && zs[i].MultisigInput? && zs[j].MultisigInput?
      ensures (zs[i].amount, zs[i].outputIndex) != (zs[j].amount, zs[j].outputIndex)
    {
      if i < |xs| <= j {
        assert (zs[i].amount as nat, zs[i].outputIndex) in MultisigRefs(xs);
        assert (ys[j - |xs|].amount as nat, ys[j - |xs|].outputIndex) in MultisigRefs(ys);
      } else if j < |xs| {
        assert zs[i] == xs[i] && zs[j] == xs[j];
      } else {
        assert zs[i] == ys[i - |xs|] && zs[j] == ys[j - |xs|];
      }
    }
  }

  /** The transactions are recorded, pairwise different, not of the base, and each spends distinct outputs. */
  ghost predicate OwnedOnce(d: Derived, hashes: set<Hash>, all: seq<Transaction>, k: nat)
    requires k <= |all|
  {
    && (forall j | 0 <= j < k :: OfTransaction(all[j]) in d.transactions && OfTransaction(all[j]) !in hashes)
    && (forall j | 0 <= j < k :: DistinctMultisigs(all[j].inputs))
    && (forall i, j | 0 <= i < j < k :: all[i] != all[j])
  }

  lemma {:induction false} BlockRefsApart(d: Derived, base: Leftovers.Base, all: seq<Transaction>, k: nat)
    requires Leftovers.Owns(d, base) && k <= |all| && OwnedOnce(d, base.hashes, all, k)
    ensures DistinctMultisigs(InputsOfTxs(all, k))
    decreases k
  {
    hide KeyImages, DistinctMultisigs, MultisigRefs;
    if k == 0 {
      NoneDistinct();
    } else {
      BlockRefsApart(d, base, all, k - 1);
      var xs, ys := InputsOfTxs(all, k - 1), all[k - 1].inputs;
      forall ref | ref in MultisigRefs(xs) ensures ref !in MultisigRefs(ys) {
        var j := RefInTxs(all, k - 1, ref);
        assert OfTransaction(all[j]) in d.transactions && OfTransaction(all[k - 1]) in d.transactions;
      }
      MultisigsConcat(xs, ys);
    }
  }

  lemma LastIsOwnedOnce(rules: Rules, base: Leftovers.Base, low: nat, s: State)
    requires Leftovers.Lingering(rules, base, low, s) && low < |s.blocks|
    ensures var all := AllTxs(s.blocks[|s.blocks| - 1]); OwnedOnce(s.d, base.hashes, all, |all|)
  {
    hide Kept, Leftovers.Owns, AllTxs, Semantic, EntryKept, CanLoad, Countable;
    var n := |s.blocks| - 1;
    var e := s.blocks[n];
    LastKept(rules, s);
    KeptEntry(rules, s.blocks[..n], e);
    LastIsRecordedOnce(rules, s);
    var all := BlockTxs(e.bl);
    forall j | 0 <= j < |all| ensures OfTransaction(all[j]) !in base.hashes && DistinctMultisigs(all[j].inputs) {
      assert all[j] in AllTxs(e);
      if j > 0 { SemanticMultisigs(all[j]); }
    }
  }

  lemma SemanticMultisigs(tx: Transaction)
    requires Semantic(tx)
    ensures DistinctMultisigs(tx.inputs)
  {
  }

  lemma ChainTail(blocks: seq<BlockEntry>, low: nat)
    requires low < |blocks|
    ensures var n := |blocks| - 1; var all := AllTxs(blocks[n]);
      InputsOfChain(blocks[low..]) == InputsOfChain(blocks[..n][low..]) + InputsOfTxs(all, |all|)
  {
    hide AllTxs, InputsOfTxs;
    var n := |blocks| - 1;
    assert blocks[low..][..n - low] == blocks[..n][low..];
  }

  lemma {:induction false} ChainParts(blocks: seq<BlockEntry>, low: nat)
    requires low <= |blocks|
    ensures InputsOfChain(blocks) == InputsOfChain(blocks[..low]) + InputsOfChain(blocks[low..])
    decreases |blocks|
  {
    hide AllTxs, InputsOfTxs;
    if low == |blocks| {
      assert blocks[..low] == blocks && blocks[low..] == [];
    } else {
      var n := |blocks| - 1;
      ChainParts(blocks[..n], low);
      ChainTail(blocks, low);
      assert blocks[..n][..low] == blocks[..low];
    }
  }

  lemma EarlierRef(rules: Rules, base: Leftovers.Base, low: nat, s: State, ref: (nat, nat))
    requires Leftovers.Lingering(rules, base, low, s) && low < |s.blocks|
    requires ref in MultisigRefs(InputsOfChain(s.blocks[..|s.blocks| - 1][low..]))
    ensures var all := AllTxs(s.blocks[|s.blocks| - 1]); ref !in MultisigRefs(InputsOfTxs(all, |all|))
  {
    hide KeptChain, HeldOnce, IndexesOf, Semantic, AllTxs, MultisigRefs, ImagesApart, Countable;
    var n := |s.blocks| - 1;
    var all := AllTxs(s.blocks[n]);
    var k, tx := ChainRefs(s.blocks[..n][low..], ref);
    assert s.blocks[..n][low..][k] == s.blocks[low + k] && OfTransaction(tx) in s.d.transactions
           && OfTransaction(tx) !in base.hashes;
    LastApart(rules, s, low + k, tx);
    forall j | 0 <= j < |all| ensures ref !in MultisigRefs(all[j].inputs) {
      assert all[j] in all && OfTransaction(all[j]) in s.d.transactions && OfTransaction(all[j]) !in base.hashes;
    }
    if ref in MultisigRefs(InputsOfTxs(all, |all|)) {
      var _ := RefInTxs(all, |all|, ref);
    }
  }

  /** On a state with leftovers, the blocks above the base spend no multisignature output twice, and none that the base
      spends. */
  lemma {:induction false} LingeringSpendsOnce(rules: Rules, base: Leftovers.Base, low: nat, s: State)
    requires Leftovers.Lingering(rules, base, low, s)
    ensures low <= |s.blocks| && s.blocks[..low] == base.root
    ensures DistinctMultisigs(InputsOfChain(s.blocks[low..]))
            && MultisigRefs(InputsOfChain(s.blocks[low..])) !! base.spent
    decreases |s.blocks|
  {
    hide Kept, Leftovers.Owns, DistinctMultisigs, KeyImages, MultisigRefs, AllTxs, RemoveLastBlock, Countable,
         InputsOfTxs;
    if low == |s.blocks| {
      assert s.blocks[low..] == [];
      NoneDistinct();
      assert MultisigRefs([]) == {} by { forall ref ensures ref !in MultisigRefs([]) { NoRefs(ref); } }
    } else {
      var n, t := |s.blocks| - 1, RemoveLastBlock(s);
      var all := AllTxs(s.blocks[n]);
      var xs, ys := InputsOfChain(s.blocks[..n][low..]), InputsOfTxs(all, |all|);
      Leftovers.RemoveLingers(rules, base, low, s);
      RemovedBlocks(s);
      LingeringSpendsOnce(rules, base, low, t);
      LastIsOwnedOnce(rules, base, low, s);
      OwnedAvoidsBase(s.d, base, all);
      BlockRefsApart(s.d, base, all, |all|);
      forall ref | ref in MultisigRefs(xs) ensures ref !in MultisigRefs(ys) {
        EarlierRef(rules, base, low, s, ref);
      }
      MultisigsConcat(xs, ys);
      SpendsConcat(xs, ys);
      ChainTail(s.blocks, low);
    }
  }

  lemma OwnedAvoidsBase(d: Derived, base: Leftovers.Base, all: seq<Transaction>)
    requires Leftovers.Owns(d, base) && OwnedOnce(d, base.hashes, all, |all|)
    ensures MultisigRefs(InputsOfTxs(all, |all|)) !! base.spent
  {
    hide MultisigRefs, DistinctMultisigs, InputsOfTxs;
    forall ref | ref in MultisigRefs(InputsOfTxs(all, |all|)) ensures ref !in base.spent {
      var j := RefInTxs(all, |all|, ref);
      assert OfTransaction(all[j]) in d.transactions;
    }
  }

  lemma ApartIsNew(xs: seq<Input>, ys: seq<Input>)
    requires DistinctMultisigs(ys) && MultisigRefs(xs) !! MultisigRefs(ys)
    ensures NewMultisigs(xs, ys)
  {
    var zs := xs + ys;
    forall i, j | 0 <= i < j < |zs| && |xs| <= j && zs[i].MultisigInput? ensures !SameSpend(zs[i], zs[j]) {
      var y := ys[j - |xs|];
      assert y.MultisigInput? ==> (y.amount as nat, y.outputIndex) in MultisigRefs(ys);
      if i < |xs| {
        assert (xs[i].amount as nat, xs[i].outputIndex) in MultisigRefs(xs);
      } else {
        assert zs[i] == ys[i - |xs|];
      }
    }
  }

  lemma BaseSpends(rules: Rules, s: State)
    requires Good(rules, s)
    ensures MultisigRefs(InputsOfChain(s.blocks)) <= Leftovers.BaseOf(s).spent
  {
    hide Rebuild, IndexesOf, ChainOk, AcceptedChain, ReferencedChain, MultisigRefs, Semantic, InputsOfChain;
    FineIsAccepted(rules, s.now, s.d.indexed, s.blocks);
    ChainIsReferenced(rules, s.now, s.d.indexed, s.blocks);
    FlagsAreSpends(rules, s.now, s.d.indexed, s.blocks);
    forall ref | ref in MultisigRefs(InputsOfChain(s.blocks)) ensures ref in Leftovers.UsedRefs(s.d.multisigs) {
      assert InRange(s.d.multisigs, ref) && Vec(s.d.multisigs, ref.0)[ref.1].isUsed;
    }
  }

  /** After every run that stays above the checkpoint zone, whatever fails in it and whatever is left behind, the
      blocks that are not in the zone spend no multisignature output that is spent before them in the chain; and where
      there is no zone, nothing at all is spent twice. */
  lemma RunSpendsMultisigsOnce(rules: Rules, s: State, low: nat, steps: seq<Runs.Step>)
    requires Good(rules, s) && low <= |s.blocks| && (forall k | low <= k :: !rules.inZone(k))
             && Runs.RunStays(rules, low, s, steps)
    requires forall i | 0 <= i < |steps| :: Runs.StepCountable(steps[i])
    ensures var t := Runs.Run(rules, s, steps);
      && low <= |t.blocks| && t.blocks[..low] == s.blocks[..low]
      && InputsOfChain(t.blocks) == InputsOfChain(t.blocks[..low]) + InputsOfChain(t.blocks[low..])
      && NewMultisigs(InputsOfChain(t.blocks[..low]), InputsOfChain(t.blocks[low..]))
      && (low == 0 ==> DistinctSpends(InputsOfChain(t.blocks)))
  {
    hide Good, Kept, Leftovers.Lingering, Runs.Run, Runs.RunStays, Runs.StepCountable, Runs.RunHandled,
         Runs.RunInside, Steps.Below, MultisigRefs, DistinctMultisigs, DistinctKeyImages, NewMultisigs,
         DistinctSpends, KeyImages, Runs.RunAllowed, Leftovers.UsedRefs;
    var g, t := Steps.Below(s, low), Runs.Run(rules, s, steps);
    var base := Leftovers.BaseOf(g);
    Reorganisation.GoodBelow(rules, s, low);
    Leftovers.GoodLingers(rules, s, low);
    Runs.RunLingers(rules, base, low, s, steps);
    LingeringSpendsOnce(rules, base, low, t);
    BaseSpends(rules, g);
    ApartIsNew(InputsOfChain(t.blocks[..low]), InputsOfChain(t.blocks[low..]));
    ChainParts(t.blocks, low);
    if low == 0 {
      assert t.blocks[0..] == t.blocks;
      GoodIsKept(rules, s);
      RunSpendsOnce(rules, s, steps);
      BothOnce(InputsOfChain(t.blocks));
    }
  }
}
