/** Where the outputs of the derived state come from: the lookups of the input checks find every output of the chain,
    and throw at exactly the outputs of the block that is being pushed. */
module Places {
  import opened ChainTypes
  import opened DerivedState
  import opened Rules
  import opened Ledger

  // ---------------------------------------------------------------------------------------------
  // One transaction

  /** The output `o` of a transaction is a key output of amount `a`. */
  predicate IsKey(outs: seq<Output>, o: nat, a: nat) {
    o < |outs| && outs[o].target.KeyTarget? && outs[o].amount == a
  }

  predicate IsMultisig(outs: seq<Output>, o: nat, a: nat) {
    o < |outs| && outs[o].target.MultisigTarget? && outs[o].amount == a
  }

  lemma {:induction false} AddedKeys(
    m: map<nat, seq<OutputRef>>, outs: seq<Output>, at: TransactionIndex, k: nat, a: nat, i: nat)
    requires k <= |outs| && a in AddKeyOutputs(m, outs, at, k) && i < |AddKeyOutputs(m, outs, at, k)[a]|
    ensures var r := AddKeyOutputs(m, outs, at, k)[a][i];
      (a in m && i < |m[a]| && r == m[a][i]) || (r.at == at && IsKey(outs, r.output, a))
  {
    if k != 0 {
      var before := AddKeyOutputs(m, outs, at, k - 1);
      if a in before && i < |before[a]| { AddedKeys(m, outs, at, k - 1, a, i); }
    }
  }

  lemma {:induction false} AddedMultisigs(
    m: map<nat, seq<MultisigUsage>>, outs: seq<Output>, at: TransactionIndex, k: nat, a: nat, i: nat)
    requires k <= |outs| && a in AddMultisigOutputs(m, outs, at, k) && i < |AddMultisigOutputs(m, outs, at, k)[a]|
    ensures var u := AddMultisigOutputs(m, outs, at, k)[a][i];
      (a in m && i < |m[a]| && u == m[a][i]) || (u.at == at && IsMultisig(outs, u.output, a))
  {
    if k != 0 {
      var before := AddMultisigOutputs(m, outs, at, k - 1);
      if a in before && i < |before[a]| { AddedMultisigs(m, outs, at, k - 1, a, i); }
    }
  }

  // ---------------------------------------------------------------------------------------------
  // A block while it is pushed

  /** A key output of amount `a` of one of the first `k` transactions of the block at height `n`. */
  predicate OwnKey(all: seq<Transaction>, n: nat, k: nat, a: nat, r: OutputRef) {
    r.at.block == n && r.at.transaction < k && r.at.transaction < |all|
      && IsKey(all[r.at.transaction].outputs, r.output, a)
  }

  predicate OwnMultisig(all: seq<Transaction>, n: nat, k: nat, a: nat, u: MultisigUsage) {
    u.at.block == n && u.at.transaction < k && u.at.transaction < |all|
      && IsMultisig(all[u.at.transaction].outputs, u.output, a)
  }

  /** Every recorded output is in a block of the chain, or is of one of the first `k` transactions of its new block. */
  ghost predicate PlacedIn(d: Derived, blocks: seq<BlockEntry>, all: seq<Transaction>, k: nat) {
    && (forall a, i | a in d.outputs && 0 <= i < |d.outputs[a]| ::
          Found(blocks, d.outputs[a][i].at) || OwnKey(all, |blocks|, k, a, d.outputs[a][i]))
    && (forall a, i | a in d.multisigs && 0 <= i < |d.multisigs[a]| ::
          HoldsMultisig(blocks, d.multisigs[a][i]) || OwnMultisig(all, |blocks|, k, a, d.multisigs[a][i]))
  }

  lemma RecordPlaced(d: Derived, blocks: seq<BlockEntry>, all: seq<Transaction>, k: nat)
    requires k < |all| && PlacedIn(d, blocks, all, k)
    ensures PlacedIn(Record(d, all[k], TransactionIndex(|blocks|, k)), blocks, all, k + 1)
  {
    hide AddKeyOutputs, AddMultisigOutputs, Mark, MultisigRefs, KeyImages, Found, HoldsMultisig;
    var tx, at := all[k], TransactionIndex(|blocks|, k);
    var d' := Record(d, tx, at);
    if OfTransaction(tx) !in d.transactions {
      var refs := MultisigRefs(tx.inputs);
      var marked := Mark(d.multisigs, refs, true);
      forall a, i | a in d'.outputs && 0 <= i < |d'.outputs[a]|
        ensures Found(blocks, d'.outputs[a][i].at) || OwnKey(all, |blocks|, k + 1, a, d'.outputs[a][i])
      {
        AddedKeys(d.outputs, tx.outputs, at, |tx.outputs|, a, i);
      }
      forall a, i | a in d'.multisigs && 0 <= i < |d'.multisigs[a]|
        ensures HoldsMultisig(blocks, d'.multisigs[a][i]) || OwnMultisig(all, |blocks|, k + 1, a, d'.multisigs[a][i])
      {
        AddedMultisigs(marked, tx.outputs, at, |tx.outputs|, a, i);
        MarkedKeys(d.multisigs, refs, true);
        if a in d.multisigs {
          MarkedAt(d.multisigs, refs, true, a, i);
          if i < |d.multisigs[a]| { SamePlace(blocks, d.multisigs[a][i], marked[a][i]); }
        }
      }
    }
  }

  lemma SamePlace(blocks: seq<BlockEntry>, u: MultisigUsage, v: MultisigUsage)
    requires u.at == v.at && u.output == v.output
    ensures HoldsMultisig(blocks, u) <==> HoldsMultisig(blocks, v)
  {
  }

  /** While a block is pushed on a state with its outputs in place, every output is in the chain or its own. */
  lemma {:induction false} AppliedPlaced(d: Derived, blocks: seq<BlockEntry>, all: seq<Transaction>, k: nat)
    requires k <= |all| && Placed(d, blocks)
    ensures PlacedIn(Applied(d, all, |blocks|, k), blocks, all, k)
  {
    hide Record, PlacedIn;
    if k == 0 {
      PlacedHere(d, blocks, all);
    } else {
      AppliedPlaced(d, blocks, all, k - 1);
      RecordPlaced(Applied(d, all, |blocks|, k - 1), blocks, all, k - 1);
    }
  }

  lemma PlacedHere(d: Derived, blocks: seq<BlockEntry>, all: seq<Transaction>)
    requires Placed(d, blocks)
    ensures PlacedIn(d, blocks, all, 0)
  {
    hide Found, HoldsMultisig;
  }

  /** Once the block is appended, its outputs are in place too. */
  lemma AppendedPlaced(d: Derived, blocks: seq<BlockEntry>, e: BlockEntry)
    requires PlacedIn(d, blocks, AllTxs(e), |AllTxs(e)|)
    ensures Placed(d, blocks + [e])
  {
    var more, all := blocks + [e], AllTxs(e);
    forall a, i | a in d.outputs && 0 <= i < |d.outputs[a]| ensures Found(more, d.outputs[a][i].at) {
      var at := d.outputs[a][i].at;
      if at.block < |blocks| { assert more[at.block] == blocks[at.block]; }
    }
    forall a, i | a in d.multisigs && 0 <= i < |d.multisigs[a]| ensures HoldsMultisig(more, d.multisigs[a][i]) {
      var u := d.multisigs[a][i];
      if u.at.block < |blocks| {
        assert more[u.at.block] == blocks[u.at.block];
      } else {
        assert all[u.at.transaction] == e.transactions[u.at.transaction].tx;
      }
    }
  }

  /** The outputs of a rebuilt chain are in place. */
  lemma {:induction false} ChainPlaced(rules: Rules, now: nat, indexed: bool, blocks: seq<BlockEntry>)
    requires ChainOk(rules, now, indexed, blocks)
    ensures Placed(Rebuild(indexed, blocks), blocks)
    decreases |blocks|
  {
    hide Rebuild, Applied, ChainOk, EntryOk, AllPushable, WellFormed, Tracked, BlockTxs, Placed, PlacedIn;
    if blocks == [] {
      NothingPlaced(indexed);
    } else {
      var n := |blocks| - 1;
      var prefix, e := blocks[..n], blocks[n];
      assert blocks == prefix + [e];
      ChainFacts'(rules, now, indexed, prefix, e);
      ChainPlaced(rules, now, indexed, prefix);
      AppliedPlaced(Rebuild(indexed, prefix), prefix, AllTxs(e), |AllTxs(e)|);
      AppendedPlaced(Rebuild(indexed, blocks), prefix, e);
    }
  }

  lemma NothingPlaced(indexed: bool)
    ensures Placed(Rebuild(indexed, []), [])
  {
  }

  lemma ClearedPlaced(d: Derived, blocks: seq<BlockEntry>, refs: set<(nat, nat)>)
    requires Placed(d, blocks)
    ensures Placed(Clear(d, refs), blocks)
  {
    hide Mark, Found, HoldsMultisig;
    MarkedKeys(d.multisigs, refs, false);
    var m := Mark(d.multisigs, refs, false);
    forall a, i | a in m && 0 <= i < |m[a]| ensures HoldsMultisig(blocks, m[a][i]) {
      MarkedAt(d.multisigs, refs, false, a, i);
      SamePlace(blocks, d.multisigs[a][i], m[a][i]);
    }
  }

  // ---------------------------------------------------------------------------------------------
  // What the input checks look up

  /** The ring members before `m` pass. */
  ghost predicate MembersOk(
    rules: Rules, blocks: seq<BlockEntry>, outs: seq<OutputRef>, offsets: seq<u32>, from: nat, m: nat)
    requires m <= |offsets|
  {
    forall l | from <= l < m :: Absolute(offsets, l) < |outs| && MemberOk(rules, blocks, outs[Absolute(offsets, l)])
  }

  /** The check of an unspent input gets to an output of one of the first `k` transactions of its own block. */
  ghost predicate ReachesOwn(
    rules: Rules, blocks: seq<BlockEntry>, d: Derived, all: seq<Transaction>, k: nat, tx: Transaction, i: nat)
    requires i < |tx.inputs|
  {
    !rules.inZone(|blocks|) &&
      match tx.inputs[i]
      case BaseInput(_) => false
      case KeyInput(a, offsets, image) =>
        && image !in d.spentKeys && rules.inDomain(image) && a as nat in d.outputs
        && exists m | 0 <= m < |offsets| ::
             && Absolute(offsets, m) < |d.outputs[a]| && OwnKey(all, |blocks|, k, a, d.outputs[a][Absolute(offsets, m)])
             && MembersOk(rules, blocks, d.outputs[a], offsets, 0, m)
      case MultisigInput(a, _, o) =>
        Unused(d.multisigs, (a, o)) && OwnMultisig(all, |blocks|, k, a, d.multisigs[a][o])
  }

  /** The block of a recorded output is missing exactly if the output is of the block that is being pushed. */
  lemma MissingIsOwn(d: Derived, blocks: seq<BlockEntry>, all: seq<Transaction>, k: nat)
    requires PlacedIn(d, blocks, all, k)
    ensures forall a, i | a in d.outputs && 0 <= i < |d.outputs[a]| ::
              !HasBlock(blocks, d.outputs[a][i].at) <==> OwnKey(all, |blocks|, k, a, d.outputs[a][i])
    ensures forall a, i | a in d.multisigs && 0 <= i < |d.multisigs[a]| ::
              !HasBlock(blocks, d.multisigs[a][i].at) <==> OwnMultisig(all, |blocks|, k, a, d.multisigs[a][i])
  {
    hide IsKey, IsMultisig;
  }

  lemma {:induction false} ScanThrows(
    rules: Rules, blocks: seq<BlockEntry>, outs: seq<OutputRef>, offsets: seq<u32>, k: nat)
    requires k <= |offsets|
    ensures Scan(rules, blocks, outs, offsets, k) == Throws <==>
              exists m | k <= m < |offsets| ::
                && Absolute(offsets, m) < |outs| && !HasBlock(blocks, outs[Absolute(offsets, m)].at)
                && MembersOk(rules, blocks, outs, offsets, k, m)
    decreases |offsets| - k
  {
    hide Absolute;
    if k < |offsets| {
      ScanThrows(rules, blocks, outs, offsets, k + 1);
      var a := Absolute(offsets, k);
      if a < |outs| && !HasBlock(blocks, outs[a].at) {
        assert MembersOk(rules, blocks, outs, offsets, k, k);
      } else if a < |outs| && MemberOk(rules, blocks, outs[a]) {
        assert forall m | k < m < |offsets| ::
                 MembersOk(rules, blocks, outs, offsets, k, m) <==> MembersOk(rules, blocks, outs, offsets, k + 1, m);
      }
    }
  }

  /** A check throws if and only if it gets to an output of its own block. */
  lemma ThrowsIffReachesOwn(
    rules: Rules, blocks: seq<BlockEntry>, d: Derived, all: seq<Transaction>, k: nat, tx: Transaction, i: nat)
    requires PlacedIn(d, blocks, all, k) && i < |tx.inputs|
    ensures InputOutcome(rules, blocks, d, tx, i) == Throws <==> ReachesOwn(rules, blocks, d, all, k, tx, i)
  {
    hide PlacedIn, Absolute, Scan, OwnKey, OwnMultisig, MembersOk;
    MissingIsOwn(d, blocks, all, k);
    match tx.inputs[i]
    case KeyInput(a, offsets, _) =>
      if a as nat in d.outputs { ScanThrows(rules, blocks, d.outputs[a], offsets, 0); }
    case _ =>
  }

  // ---------------------------------------------------------------------------------------------
  // Transactions that name only older outputs

  /** The outputs of `d0` are at the same indexes in `d`. */
  ghost predicate KeepsOutputs(d0: Derived, d: Derived) {
    && (forall a | a in d0.outputs :: a in d.outputs && d0.outputs[a] <= d.outputs[a])
    && KeepsUsages(d0.multisigs, d.multisigs)
  }

  ghost predicate KeepsUsages(m0: map<nat, seq<MultisigUsage>>, m: map<nat, seq<MultisigUsage>>) {
    && (forall a | a in m0 :: a in m && |m0[a]| <= |m[a]|)
    && (forall a, i | a in m0 && 0 <= i < |m0[a]| :: SameOutput(m[a][i], m0[a][i]))
  }

  predicate SameOutput(u: MultisigUsage, v: MultisigUsage) {
    u.at == v.at && u.output == v.output
  }

  lemma {:induction false} KeyOutputsGrow(m: map<nat, seq<OutputRef>>, outs: seq<Output>, at: TransactionIndex, k: nat)
    requires k <= |outs|
    ensures forall a | a in m :: a in AddKeyOutputs(m, outs, at, k) && m[a] <= AddKeyOutputs(m, outs, at, k)[a]
  {
    if k != 0 { KeyOutputsGrow(m, outs, at, k - 1); }
  }

  lemma RecordKeepsOutputs(d0: Derived, d: Derived, tx: Transaction, at: TransactionIndex)
    requires KeepsOutputs(d0, d)
    ensures KeepsOutputs(d0, Record(d, tx, at))
  {
    hide AddKeyOutputs, AddMultisigOutputs, Mark, MultisigRefs, KeyImages;
    if OfTransaction(tx) !in d.transactions {
      var refs := MultisigRefs(tx.inputs);
      var marked := Mark(d.multisigs, refs, true);
      KeyOutputsGrow(d.outputs, tx.outputs, at, |tx.outputs|);
      MultisigOutputsGrow(marked, tx.outputs, at, |tx.outputs|);
      MarkedKeys(d.multisigs, refs, true);
      var d' := Record(d, tx, at);
      forall a | a in d0.outputs ensures a in d'.outputs && d0.outputs[a] <= d'.outputs[a] {
        assert d.outputs[a] <= d'.outputs[a];
      }
      forall a | a in d0.multisigs
        ensures a in d'.multisigs && |d0.multisigs[a]| <= |d'.multisigs[a]|
        ensures forall i | 0 <= i < |d0.multisigs[a]| :: SameOutput(d'.multisigs[a][i], d0.multisigs[a][i])
      {
        assert marked[a] <= d'.multisigs[a];
        MarkedAt(d.multisigs, refs, true, a, 0);
        forall i | 0 <= i < |d0.multisigs[a]| ensures SameOutput(d'.multisigs[a][i], d0.multisigs[a][i]) {
          assert SameOutput(d.multisigs[a][i], d0.multisigs[a][i]);
          MarkedAt(d.multisigs, refs, true, a, i);
        }
      }
    }
  }

  lemma {:induction false} AppliedKeepsOutputs(d0: Derived, d: Derived, all: seq<Transaction>, n: nat, k: nat)
    requires k <= |all| && KeepsOutputs(d0, d)
    ensures KeepsOutputs(d0, Applied(d, all, n, k))
  {
    hide Record, KeepsOutputs;
    if k != 0 {
      AppliedKeepsOutputs(d0, d, all, n, k - 1);
      RecordKeepsOutputs(d0, Applied(d, all, n, k - 1), all[k - 1], TransactionIndex(n, k - 1));
    }
  }

  /** The transaction names only outputs that `d` holds. */
  ghost predicate Backward(d: Derived, tx: Transaction) {
    forall i | 0 <= i < |tx.inputs| :: NamesHeld(d, tx.inputs[i])
  }

  ghost predicate NamesHeld(d: Derived, input: Input) {
    match input
    case BaseInput(_) => true
    case KeyInput(a, offsets, _) =>
      a as nat in d.outputs && forall m | 0 <= m < |offsets| :: Absolute(offsets, m) < |d.outputs[a]|
    case MultisigInput(a, _, o) => InRange(d.multisigs, (a, o))
  }

  lemma ClearKeepsOutputs(d: Derived, refs: set<(nat, nat)>)
    ensures KeepsOutputs(d, Clear(d, refs))
  {
    hide Mark;
    MarkedKeys(d.multisigs, refs, false);
    forall a, i | a in d.multisigs && 0 <= i < |d.multisigs[a]|
      ensures |Mark(d.multisigs, refs, false)[a]| == |d.multisigs[a]|
      ensures SameOutput(Mark(d.multisigs, refs, false)[a][i], d.multisigs[a][i])
    {
      MarkedAt(d.multisigs, refs, false, a, i);
    }
    forall a | a in d.multisigs ensures |Mark(d.multisigs, refs, false)[a]| == |d.multisigs[a]| {
      MarkedAt(d.multisigs, refs, false, a, 0);
    }
  }

  lemma {:induction false} ScanHeld(
    rules: Rules, blocks: seq<BlockEntry>, held: seq<OutputRef>, outs: seq<OutputRef>, offsets: seq<u32>, k: nat)
    requires k <= |offsets| && held <= outs && forall i | 0 <= i < |held| :: Found(blocks, held[i].at)
    requires forall m | 0 <= m < |offsets| :: Absolute(offsets, m) < |held|
    ensures Scan(rules, blocks, outs, offsets, k) != Throws && ScanInside(rules, blocks, outs, offsets, k)
    decreases |offsets| - k
  {
    hide Absolute, MemberOk;
    if k < |offsets| {
      assert outs[Absolute(offsets, k)] == held[Absolute(offsets, k)];
      ScanHeld(rules, blocks, held, outs, offsets, k + 1);
    }
  }

  /** The check of an input that names only outputs of the blocks in `root` neither throws nor indexes past the
      transactions of a block, whatever else is recorded. */
  lemma HeldInput(
    rules: Rules, root: seq<BlockEntry>, d0: Derived, blocks: seq<BlockEntry>, d: Derived, tx: Transaction, i: nat)
    requires root <= blocks && Placed(d0, root) && KeepsOutputs(d0, d)
    requires i < |tx.inputs| && (rules.inZone(|blocks|) || NamesHeld(d0, tx.inputs[i]))
    ensures InputOutcome(rules, blocks, d, tx, i) != Throws && InputInside(rules, blocks, d, tx, i)
  {
    hide Absolute, Scan, ScanInside;
    if !rules.inZone(|blocks|) {
      match tx.inputs[i]
      case KeyInput(a, offsets, _) =>
        forall j | 0 <= j < |d0.outputs[a]| ensures Found(blocks, d0.outputs[a][j].at) {
          assert Found(root, d0.outputs[a][j].at);
        }
        ScanHeld(rules, blocks, d0.outputs[a], d.outputs[a], offsets, 0);
      case MultisigInput(a, _, o) =>
        assert HoldsMultisig(root, d0.multisigs[a][o]);
        assert SameOutput(d.multisigs[a][o], d0.multisigs[a][o]);
      case _ =>
    }
  }

  lemma {:induction false} HeldInputs(
    rules: Rules, root: seq<BlockEntry>, d0: Derived, blocks: seq<BlockEntry>, d: Derived, tx: Transaction, i: nat)
    requires root <= blocks && Placed(d0, root) && KeepsOutputs(d0, d)
    requires i <= |tx.inputs| && (rules.inZone(|blocks|) || Backward(d0, tx))
    ensures InputsOutcome(rules, blocks, d, tx, i) != Throws && InputsInside(rules, blocks, d, tx, i)
    decreases |tx.inputs| - i
  {
    hide Placed, KeepsOutputs, InputOutcome, InputInside;
    if i < |tx.inputs| {
      HeldInput(rules, root, d0, blocks, d, tx, i);
      HeldInputs(rules, root, d0, blocks, d, tx, i + 1);
    }
  }

  // ---------------------------------------------------------------------------------------------
  // Nothing undefined

  lemma {:induction false} ScanIsInside(
    rules: Rules, blocks: seq<BlockEntry>, outs: seq<OutputRef>, offsets: seq<u32>, k: nat)
    requires k <= |offsets| && forall i | 0 <= i < |outs| :: HasBlock(blocks, outs[i].at) ==> Found(blocks, outs[i].at)
    ensures ScanInside(rules, blocks, outs, offsets, k)
    decreases |offsets| - k
  {
    hide Absolute, MemberOk, Found;
    if k < |offsets| { ScanIsInside(rules, blocks, outs, offsets, k + 1); }
  }

  /** With all outputs in the chain or in the block, no check reaches past the transactions of a block. */
  lemma {:induction false} PlacedIsInside(
    rules: Rules, blocks: seq<BlockEntry>, d: Derived, all: seq<Transaction>, k: nat, tx: Transaction, i: nat)
    requires PlacedIn(d, blocks, all, k) && i <= |tx.inputs|
    ensures InputsInside(rules, blocks, d, tx, i)
    decreases |tx.inputs| - i
  {
    hide ScanInside, InputOk;
    if i < |tx.inputs| {
      PlacedIsInside(rules, blocks, d, all, k, tx, i + 1);
      if tx.inputs[i].KeyInput? && tx.inputs[i].amount as nat in d.outputs {
        ScanIsInside(rules, blocks, d.outputs[tx.inputs[i].amount], tx.inputs[i].outputIndexes, 0);
      }
    }
  }
}
