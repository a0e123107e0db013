/** What the input checks let in: outside the checkpoint zone every input of a block is signed for by outputs of the
    chain that exist, are unlocked and have the right kind, and a block with an input that is not is refused. */
module Signatures {
  import opened ChainTypes
  import opened DerivedState
  import opened Rules
  import opened Ledger
  import opened Places
  import opened Conservation
  import opened OutputOrder
  import opened MultisigOrder
  import Roots
  import Runs

  // ---------------------------------------------------------------------------------------------
  // One input

  /** `at` names a transaction of the chain. */
  predicate InChain(blocks: seq<BlockEntry>, at: TransactionIndex) {
    at.block < |blocks| && at.transaction < |blocks[at.block].transactions|
  }

  function TxAt(blocks: seq<BlockEntry>, at: TransactionIndex): Transaction
    requires InChain(blocks, at)
  {
    blocks[at.block].transactions[at.transaction].tx
  }

  /** `r` names an unlocked key output of the chain, with this key. */
  predicate UnlockedKey(rules: Rules, blocks: seq<BlockEntry>, r: OutputRef, key: nat) {
    && InChain(blocks, r.at) && r.output < |TxAt(blocks, r.at).outputs|
    && TxAt(blocks, r.at).outputs[r.output].target == KeyTarget(key)
    && rules.unlocked(blocks, TxAt(blocks, r.at).unlockTime)
  }

  /** The sum of the offsets up to number `m`, modulo 2^32. */
  function RunningSum(offsets: seq<u32>, m: nat): nat
    requires m < |offsets|
  {
    OffsetSum(offsets[..m + 1]) % TWO32
  }

  /** The running sums of the offsets, modulo 2^32, are positions of the vector, and there are the outputs with these
      keys. */
  ghost predicate RingOf(rules: Rules, blocks: seq<BlockEntry>, v: seq<OutputRef>, offsets: seq<u32>, keys: seq<nat>) {
    && |keys| == |offsets|
    && forall m | 0 <= m < |offsets| ::
         && RunningSum(offsets, m) < |v|
         && UnlockedKey(rules, blocks, v[RunningSum(offsets, m)], keys[m])
  }

  /** A ring over the vector `v` that is signed. */
  ghost predicate SignedRing(rules: Rules, blocks: seq<BlockEntry>, v: seq<OutputRef>, tx: Transaction, i: nat)
    requires i < |tx.inputs| && tx.inputs[i].KeyInput?
  {
    && tx.inputs[i].outputIndexes != [] && rules.inDomain(tx.inputs[i].keyImage)
    && exists keys: seq<nat> :: RingOf(rules, blocks, v, tx.inputs[i].outputIndexes, keys) && rules.ringSigned(keys, tx, i)
  }

  /** A multisignature input that names an unlocked multisignature output of the chain and is signed for it. */
  ghost predicate SignedMultisig(rules: Rules, blocks: seq<BlockEntry>, v: seq<MultisigUsage>, tx: Transaction, i: nat)
    requires i < |tx.inputs| && tx.inputs[i].MultisigInput?
  {
    var o := tx.inputs[i].outputIndex;
    && o < |v| && InChain(blocks, v[o].at) && v[o].output < |TxAt(blocks, v[o].at).outputs|
    && var target := TxAt(blocks, v[o].at).outputs[v[o].output].target;
       && target.MultisigTarget? && target.required == tx.inputs[i].signatureCount
       && rules.unlocked(blocks, TxAt(blocks, v[o].at).unlockTime) && rules.multisigSigned(target, tx, i)
  }

  /** What an input needs on top of `d`. */
  ghost predicate Signed(rules: Rules, blocks: seq<BlockEntry>, d: Derived, tx: Transaction, i: nat)
    requires i < |tx.inputs|
  {
    match tx.inputs[i]
    case BaseInput(_) => false
    case KeyInput(a, _, _) => SignedRing(rules, blocks, Vec(d.outputs, a), tx, i)
    case MultisigInput(a, _, _) => SignedMultisig(rules, blocks, Vec(d.multisigs, a), tx, i)
  }

  /** The input spends what is not spent. */
  ghost predicate Unspent(d: Derived, input: Input) {
    match input
    case BaseInput(_) => false
    case KeyInput(_, _, image) => image !in d.spentKeys
    case MultisigInput(a, _, o) => o < |Vec(d.multisigs, a)| && !Vec(d.multisigs, a)[o].isUsed
  }

  lemma {:induction false} AbsoluteIsSum(offsets: seq<u32>, m: nat)
    requires m < |offsets|
    ensures Absolute(offsets, m) == RunningSum(offsets, m)
  {
    assert offsets[..m + 1][..m] == offsets[..m];
    if m == 0 {
      assert offsets[..0] == [];
    } else {
      AbsoluteIsSum(offsets, m - 1);
      var x := OffsetSum(offsets[..m]);
      assert (x % TWO32 + offsets[m]) % TWO32 == (x + offsets[m]) % TWO32;
    }
  }

  lemma {:induction false} RingKeysAt(blocks: seq<BlockEntry>, v: seq<OutputRef>, offsets: seq<u32>, k: nat)
    requires k <= |offsets|
    requires forall m | 0 <= m < k ::
               && Absolute(offsets, m) < |v| && InChain(blocks, v[Absolute(offsets, m)].at)
               && var r := v[Absolute(offsets, m)];
                  r.output < |TxAt(blocks, r.at).outputs| && TxAt(blocks, r.at).outputs[r.output].target.KeyTarget?
    ensures |RingKeys(blocks, v, offsets, k)| == k
    ensures forall m | 0 <= m < k ::
              var r := v[Absolute(offsets, m)];
              TxAt(blocks, r.at).outputs[r.output].target == KeyTarget(RingKeys(blocks, v, offsets, k)[m])
  {
    hide Absolute;
    if k != 0 { RingKeysAt(blocks, v, offsets, k - 1); }
  }

  predicate MemberAt(rules: Rules, blocks: seq<BlockEntry>, v: seq<OutputRef>, p: nat) {
    p < |v| && MemberOk(rules, blocks, v[p])
  }

  ghost predicate MembersFrom(rules: Rules, blocks: seq<BlockEntry>, v: seq<OutputRef>, offsets: seq<u32>, k: nat) {
    forall m | k <= m < |offsets| :: MemberAt(rules, blocks, v, Absolute(offsets, m))
  }

  lemma MembersNext(rules: Rules, blocks: seq<BlockEntry>, v: seq<OutputRef>, offsets: seq<u32>, k: nat)
    requires k < |offsets|
    ensures MembersFrom(rules, blocks, v, offsets, k) <==>
              MemberAt(rules, blocks, v, Absolute(offsets, k)) && MembersFrom(rules, blocks, v, offsets, k + 1)
  {
    hide Absolute, MemberAt;
  }

  lemma {:induction false} ScanPassesIff(
    rules: Rules, blocks: seq<BlockEntry>, v: seq<OutputRef>, offsets: seq<u32>, k: nat)
    requires k <= |offsets|
    ensures Scan(rules, blocks, v, offsets, k) == Passes <==> MembersFrom(rules, blocks, v, offsets, k)
    decreases |offsets| - k
  {
    if k < |offsets| {
      hide Absolute, MembersFrom;
      MembersNext(rules, blocks, v, offsets, k);
      ScanPassesIff(rules, blocks, v, offsets, k + 1);
    }
  }

  /** The keys of a ring are those that the scan collects. */
  lemma RingIsScanned(rules: Rules, blocks: seq<BlockEntry>, v: seq<OutputRef>, offsets: seq<u32>, keys: seq<nat>)
    ensures RingOf(rules, blocks, v, offsets, keys) <==>
              Scan(rules, blocks, v, offsets, 0) == Passes && keys == RingKeys(blocks, v, offsets, |offsets|)
  {
    hide Absolute, Scan, RingKeys, RunningSum;
    ScanPassesIff(rules, blocks, v, offsets, 0);
    forall m | 0 <= m < |offsets| ensures Absolute(offsets, m) == RunningSum(offsets, m) {
      AbsoluteIsSum(offsets, m);
    }
    if RingOf(rules, blocks, v, offsets, keys) {
      forall m | 0 <= m < |offsets| ensures MemberAt(rules, blocks, v, Absolute(offsets, m)) {
        assert UnlockedKey(rules, blocks, v[RunningSum(offsets, m)], keys[m]);
      }
    }
    if Scan(rules, blocks, v, offsets, 0) == Passes {
      forall m | 0 <= m < |offsets|
        ensures Absolute(offsets, m) < |v| && MemberOk(rules, blocks, v[Absolute(offsets, m)])
      {
        assert MemberAt(rules, blocks, v, Absolute(offsets, m));
      }
      RingKeysAt(blocks, v, offsets, |offsets|);
      var scanned := RingKeys(blocks, v, offsets, |offsets|);
      forall m | 0 <= m < |offsets| ensures UnlockedKey(rules, blocks, v[RunningSum(offsets, m)], scanned[m]) {
        assert MemberOk(rules, blocks, v[Absolute(offsets, m)]);
      }
      if RingOf(rules, blocks, v, offsets, keys) {
        forall m | 0 <= m < |offsets| ensures keys[m] == scanned[m] {
          assert UnlockedKey(rules, blocks, v[RunningSum(offsets, m)], keys[m]);
        }
      }
    }
  }

  /** The ring check passes if and only if the ring is signed. */
  lemma RingPassesIff(rules: Rules, blocks: seq<BlockEntry>, outs: map<nat, seq<OutputRef>>, tx: Transaction, i: nat)
    requires i < |tx.inputs| && tx.inputs[i].KeyInput? && tx.inputs[i].outputIndexes != []
    ensures RingOutcome(rules, blocks, outs, tx, i) == Passes <==>
              SignedRing(rules, blocks, Vec(outs, tx.inputs[i].amount), tx, i)
  {
    hide Scan, RingKeys, RingOf;
    var a, offsets := tx.inputs[i].amount as nat, tx.inputs[i].outputIndexes;
    var v := Vec(outs, a);
    var keys := RingKeys(blocks, v, offsets, |offsets|);
    RingIsScanned(rules, blocks, v, offsets, keys);
    forall other: seq<nat> | RingOf(rules, blocks, v, offsets, other) ensures other == keys {
      RingIsScanned(rules, blocks, v, offsets, other);
    }
    if a !in outs {
      forall other: seq<nat> ensures !RingOf(rules, blocks, v, offsets, other) {
        NoRing(rules, blocks, v, offsets, other);
      }
    }
  }

  /** An input passes if and only if it is unspent and, outside the checkpoint zone, signed; in the zone a ring must
      not be empty and a multisignature input always passes. */
  lemma PassesIff(rules: Rules, blocks: seq<BlockEntry>, d: Derived, tx: Transaction, i: nat)
    requires i < |tx.inputs|
    ensures !rules.inZone(|blocks|) ==>
              (InputOk(rules, blocks, d, tx, i) <==> Unspent(d, tx.inputs[i]) && Signed(rules, blocks, d, tx, i))
    ensures rules.inZone(|blocks|) ==>
              (InputOk(rules, blocks, d, tx, i) <==>
                 || tx.inputs[i].MultisigInput?
                 || (tx.inputs[i].KeyInput? && tx.inputs[i].outputIndexes != [] && Unspent(d, tx.inputs[i])))
  {
    hide RingOutcome, SignedRing;
    if tx.inputs[i].KeyInput? {
      if tx.inputs[i].outputIndexes != [] {
        RingPassesIff(rules, blocks, d.outputs, tx, i);
      } else {
        EmptyRing(rules, blocks, d, tx, i);
      }
    }
  }

  lemma EmptyRing(rules: Rules, blocks: seq<BlockEntry>, d: Derived, tx: Transaction, i: nat)
    requires i < |tx.inputs| && tx.inputs[i].KeyInput? && tx.inputs[i].outputIndexes == []
    ensures !SignedRing(rules, blocks, Vec(d.outputs, tx.inputs[i].amount), tx, i)
  {
  }

  lemma NoRing(rules: Rules, blocks: seq<BlockEntry>, v: seq<OutputRef>, offsets: seq<u32>, keys: seq<nat>)
    requires offsets != [] && v == []
    ensures !RingOf(rules, blocks, v, offsets, keys)
  {
    hide RunningSum, UnlockedKey;
    var p := RunningSum(offsets, 0);
    assert RingOf(rules, blocks, v, offsets, keys) ==> p < |v|;
  }

  // ---------------------------------------------------------------------------------------------
  // One block

  /** Outside the zone a block with an input that is spent or not signed at its turn is not accepted. */
  lemma UnsignedIsRefused(rules: Rules, now: nat, s: State, b: Block, j: nat, i: nat)
    requires NamesTransactions(b) && 1 <= j < |BlockTxs(b)| && i < |BlockTxs(b)[j].inputs| && !rules.inZone(|s.blocks|)
    requires var d, tx := Applied(s.d, BlockTxs(b), |s.blocks|, j), BlockTxs(b)[j];
      !Unspent(d, tx.inputs[i]) || !Signed(rules, s.blocks, d, tx, i)
    ensures !PushBlock(rules, now, s, b).1 && PushBlock(rules, now, s, b).0.blocks == s.blocks
  {
    hide Applied, HeaderOk, Emission, SizeSum, FirstBad, BlockTxs, Signed, Unspent, Undone, InputOk;
    var d, tx := Applied(s.d, BlockTxs(b), |s.blocks|, j), BlockTxs(b)[j];
    PassesIff(rules, s.blocks, d, tx, i);
    assert !InputsOk(rules, s.blocks, d, tx);
  }

  // ---------------------------------------------------------------------------------------------
  // Every chain

  /** The key outputs of the chain, all unlocked, that a ring of this length is signed over. */
  ghost predicate SignedOver(rules: Rules, blocks: seq<BlockEntry>, refs: seq<OutputRef>, keys: seq<nat>, n: nat) {
    |refs| == |keys| == n && forall m | 0 <= m < n :: UnlockedKey(rules, blocks, refs[m], keys[m])
  }

  /** The input is signed for by unlocked outputs of the chain, as many as it names and of the right kind. */
  ghost predicate SignedBelow(rules: Rules, below: seq<BlockEntry>, tx: Transaction, i: nat)
    requires i < |tx.inputs|
  {
    match tx.inputs[i]
    case BaseInput(_) => false
    case KeyInput(_, offsets, image) =>
      && offsets != [] && rules.inDomain(image)
      && exists refs, keys :: SignedOver(rules, below, refs, keys, |offsets|) && rules.ringSigned(keys, tx, i)
    case MultisigInput(_, count, _) =>
      exists r: OutputRef, target: Target ::
        && InChain(below, r.at) && r.output < |TxAt(below, r.at).outputs|
        && TxAt(below, r.at).outputs[r.output].target == target
        && target.MultisigTarget? && target.required == count && rules.unlocked(below, TxAt(below, r.at).unlockTime)
        && rules.multisigSigned(target, tx, i)
  }

  /** Whatever failed on the way: outside the zone, each input of a block in the chain is signed for by unlocked
      outputs of the chain below it. */
  lemma KeptIsSigned(rules: Rules, blocks: seq<BlockEntry>, k: nat, j: nat, i: nat)
    requires KeptChain(rules, blocks) && k < |blocks| && !rules.inZone(k)
    requires 1 <= j < |AllTxs(blocks[k])| && i < |AllTxs(blocks[k])[j].inputs|
    ensures SignedBelow(rules, blocks[..k], AllTxs(blocks[k])[j], i)
  {
    hide Judge, Semantic, Applied, RingOf, UnlockedKey, RunningSum, InputOk;
    var below, e := blocks[..k], blocks[k];
    assert EntryKept(rules, below, e);
    var now, d0 :| Judge(rules, now, below, d0, e.bl) == Accepted(e);
    AcceptedEntry(rules, now, below, d0, e.bl, e);
    var tx, d := AllTxs(e)[j], Applied(d0, BlockTxs(e.bl), k, j);
    assert InputsOk(rules, below, d, tx);
    PassesIff(rules, below, d, tx, i);
    match tx.inputs[i]
    case KeyInput(a, offsets, _) =>
      var v := Vec(d.outputs, a);
      var keys :| RingOf(rules, below, v, offsets, keys) && rules.ringSigned(keys, tx, i);
      var refs := RingRefs(rules, below, v, offsets, keys);
    case MultisigInput(a, _, o) =>
      var u := Vec(d.multisigs, a)[o];
      assert InChain(below, PlaceOf(u).at);
    case _ =>
  }

  lemma RingRefs(rules: Rules, blocks: seq<BlockEntry>, v: seq<OutputRef>, offsets: seq<u32>, keys: seq<nat>)
    returns (refs: seq<OutputRef>)
    requires RingOf(rules, blocks, v, offsets, keys)
    ensures SignedOver(rules, blocks, refs, keys, |offsets|)
  {
    hide UnlockedKey, RunningSum;
    refs := seq(|offsets|, m requires 0 <= m < |offsets| => v[RunningSum(offsets, m)]);
  }

  // ---------------------------------------------------------------------------------------------
  // Valid chains

  /** While a block is pushed, what is in a vector and not of the block was there before, at the same index. */
  lemma {:induction false} OldOrOwn(d: Derived, all: seq<Transaction>, n: nat, k: nat, a: nat, p: nat)
    requires k <= |all|
    ensures var v := Vec(Applied(d, all, n, k).outputs, a);
      p < |v| ==> v[p].at.block == n || (p < |Vec(d.outputs, a)| && v[p] == Vec(d.outputs, a)[p])
    ensures var v := Vec(Applied(d, all, n, k).multisigs, a);
      p < |v| ==> v[p].at.block == n || (p < |Vec(d.multisigs, a)| && SameOutput(v[p], Vec(d.multisigs, a)[p]))
  {
    hide Record;
    if k != 0 {
      OldOrOwn(d, all, n, k - 1, a, p);
      RecordOldOrOwn(Applied(d, all, n, k - 1), all[k - 1], TransactionIndex(n, k - 1), a, p);
    }
  }

  lemma RecordOldOrOwn(d: Derived, tx: Transaction, at: TransactionIndex, a: nat, p: nat)
    ensures var v, w := Vec(Record(d, tx, at).outputs, a), Vec(d.outputs, a);
      p < |v| ==> v[p].at == at || (p < |w| && v[p] == w[p])
    ensures var v, w := Vec(Record(d, tx, at).multisigs, a), Vec(d.multisigs, a);
      p < |v| ==> v[p].at == at || (p < |w| && SameOutput(v[p], w[p]))
  {
    hide AddKeyOutputs, AddMultisigOutputs, Mark, MultisigRefs, KeyImages;
    if OfTransaction(tx) !in d.transactions {
      var d', refs := Record(d, tx, at), MultisigRefs(tx.inputs);
      var marked := Mark(d.multisigs, refs, true);
      if p < |Vec(d'.outputs, a)| { AddedKeys(d.outputs, tx.outputs, at, |tx.outputs|, a, p); }
      if p < |Vec(d'.multisigs, a)| {
        AddedMultisigs(marked, tx.outputs, at, |tx.outputs|, a, p);
        MarkedKeys(d.multisigs, refs, true);
        if a in d.multisigs { MarkedAt(d.multisigs, refs, true, a, p); }
      }
    }
  }

  /** The ring over the vector of amount `a` names key outputs of that amount. */
  ghost predicate RightAmounts(blocks: seq<BlockEntry>, v: seq<OutputRef>, offsets: seq<u32>, a: nat) {
    forall m | 0 <= m < |offsets| ::
      && RunningSum(offsets, m) < |v|
      && IsKeyOutput(blocks, a, v[RunningSum(offsets, m)])
  }

  /** The input is signed for by unlocked outputs of its own amount in the chain: those at the positions it names in the
      vectors of that chain. */
  ghost predicate SignedByAmount(rules: Rules, indexed: bool, below: seq<BlockEntry>, tx: Transaction, i: nat)
    requires i < |tx.inputs|
  {
    var d := Rebuild(indexed, below);
    match tx.inputs[i]
    case BaseInput(_) => false
    case KeyInput(a, offsets, _) =>
      SignedRing(rules, below, Vec(d.outputs, a), tx, i) && RightAmounts(below, Vec(d.outputs, a), offsets, a)
    case MultisigInput(a, _, o) =>
      && SignedMultisig(rules, below, Vec(d.multisigs, a), tx, i)
      && IsMultisigOutput(below, a, PlaceOf(Vec(d.multisigs, a)[o]))
  }

  /** In a valid chain each input outside the zone is. */
  lemma ChainIsSigned(rules: Rules, now: nat, indexed: bool, blocks: seq<BlockEntry>, k: nat, j: nat, i: nat)
    requires AcceptedChain(rules, now, indexed, blocks) && k < |blocks| && !rules.inZone(k)
    requires 1 <= j < |AllTxs(blocks[k])| && i < |AllTxs(blocks[k])[j].inputs|
    ensures SignedByAmount(rules, indexed, blocks[..k], AllTxs(blocks[k])[j], i)
  {
    hide Judge, Semantic, Applied, InputOk, Rebuild, RingOf, RightAmounts, NewTransactions, Countable, RunningSum;
    var below, e := blocks[..k], blocks[k];
    assert EntryAccepted(rules, now, indexed, below, e);
    var d0 := Rebuild(indexed, below);
    AcceptedEntry(rules, now, below, d0, e.bl, e);
    var tx, d := AllTxs(e)[j], Applied(d0, BlockTxs(e.bl), k, j);
    assert InputsOk(rules, below, d, tx);
    PassesIff(rules, below, d, tx, i);
    match tx.inputs[i]
    case KeyInput(a, offsets, _) =>
      var keys :| RingOf(rules, below, Vec(d.outputs, a), offsets, keys) && rules.ringSigned(keys, tx, i);
      OldRing(rules, below, d0, BlockTxs(e.bl), j, offsets, keys, a);
      VectorsAreOrdered(indexed, below, a);
      RingHasAmounts(rules, below, Vec(d0.outputs, a), offsets, keys, a);
    case MultisigInput(a, _, o) =>
      OldOrOwn(d0, BlockTxs(e.bl), k, j, a, o);
      MultisigsAreOrdered(indexed, below, a);
      assert Holds(Vec(d0.multisigs, a), PlaceOf(Vec(d0.multisigs, a)[o]));
    case _ =>
  }

  lemma OldRing(
    rules: Rules, below: seq<BlockEntry>, d0: Derived, all: seq<Transaction>, j: nat, offsets: seq<u32>,
    keys: seq<nat>, a: nat)
    requires j <= |all| && RingOf(rules, below, Vec(Applied(d0, all, |below|, j).outputs, a), offsets, keys)
    ensures RingOf(rules, below, Vec(d0.outputs, a), offsets, keys)
  {
    hide Applied, RunningSum;
    forall m | 0 <= m < |offsets|
      ensures RunningSum(offsets, m) < |Vec(d0.outputs, a)|
      ensures UnlockedKey(rules, below, Vec(d0.outputs, a)[RunningSum(offsets, m)], keys[m])
    {
      OldOrOwn(d0, all, |below|, j, a, RunningSum(offsets, m));
    }
  }

  lemma RingHasAmounts(
    rules: Rules, blocks: seq<BlockEntry>, v: seq<OutputRef>, offsets: seq<u32>, keys: seq<nat>, a: nat)
    requires RingOf(rules, blocks, v, offsets, keys) && forall r :: r in v <==> IsKeyOutput(blocks, a, r)
    ensures RightAmounts(blocks, v, offsets, a)
  {
    hide RunningSum, UnlockedKey, IsKeyOutput;
    forall m | 0 <= m < |offsets|
      ensures RunningSum(offsets, m) < |v|
      ensures IsKeyOutput(blocks, a, v[RunningSum(offsets, m)])
    {
      assert v[RunningSum(offsets, m)] in v;
    }
  }

  // ---------------------------------------------------------------------------------------------
  // States with leftovers

  lemma KeyStaysKey(root: seq<BlockEntry>, blocks: seq<BlockEntry>, a: nat, r: OutputRef)
    requires root <= blocks
    ensures IsKeyOutput(root, a, r) ==> IsKeyOutput(blocks, a, r)
    ensures IsMultisigOutput(root, a, r) ==> IsMultisigOutput(blocks, a, r)
  {
  }

  /** Leftovers do not mislead an input that names only outputs of blocks which stay: if its block is accepted, it is
      signed for by outputs of its own amount. */
  lemma RootedIsSigned(
    rules: Rules, now: nat, indexed: bool, root: seq<BlockEntry>, hashes: set<Hash>, s: State, b: Block, j: nat, i: nat)
    requires Roots.Rooted(root, Rebuild(indexed, root), hashes, s) && Roots.BlockBackward(Rebuild(indexed, root), b)
    requires NamesTransactions(b) && PushBlock(rules, now, s, b).1 && !rules.inZone(|s.blocks|)
    requires 1 <= j < |BlockTxs(b)| && i < |BlockTxs(b)[j].inputs|
    ensures var d0, tx := Rebuild(indexed, root), BlockTxs(b)[j];
      match tx.inputs[i]
      case BaseInput(_) => false
      case KeyInput(a, offsets, _) =>
        && SignedRing(rules, s.blocks, Vec(d0.outputs, a), tx, i)
        && RightAmounts(s.blocks, Vec(d0.outputs, a), offsets, a)
      case MultisigInput(a, _, o) =>
        && SignedMultisig(rules, s.blocks, Vec(d0.multisigs, a), tx, i)
        && IsMultisigOutput(s.blocks, a, PlaceOf(Vec(d0.multisigs, a)[o]))
  {
    hide Rebuild, Applied, WellFormed, Placed, KeepsOutputs, Roots.RecordedFrom, AllTxs, HeaderOk, Emission, SizeSum,
         FirstBad, InputOk, RingOf, RightAmounts, Undone, AddIndexes, Backward, RunningSum;
    var d0, tx := Rebuild(indexed, root), BlockTxs(b)[j];
    var d := Applied(s.d, BlockTxs(b), |s.blocks|, j);
    AppliedKeepsOutputs(d0, s.d, BlockTxs(b), |s.blocks|, j);
    assert InputsOk(rules, s.blocks, d, tx);
    PassesIff(rules, s.blocks, d, tx, i);
    HeldOf(d0, tx, i);
    match tx.inputs[i]
    case KeyInput(a, offsets, _) =>
      var keys :| RingOf(rules, s.blocks, Vec(d.outputs, a), offsets, keys) && rules.ringSigned(keys, tx, i);
      HeldRing(rules, indexed, root, s.blocks, d, offsets, keys, a);
    case MultisigInput(a, _, o) =>
      HeldUsage(d0, d, a, o);
      MultisigsAreOrdered(indexed, root, a);
      assert Holds(Vec(d0.multisigs, a), PlaceOf(Vec(d0.multisigs, a)[o]));
      KeyStaysKey(root, s.blocks, a, PlaceOf(Vec(d0.multisigs, a)[o]));
    case _ =>
  }

  lemma HeldOf(d0: Derived, tx: Transaction, i: nat)
    requires Backward(d0, tx) && i < |tx.inputs|
    ensures NamesHeld(d0, tx.inputs[i])
  {
  }

  lemma HeldUsage(d0: Derived, d: Derived, a: nat, o: nat)
    requires KeepsOutputs(d0, d) && InRange(d0.multisigs, (a, o))
    ensures o < |Vec(d0.multisigs, a)| && o < |Vec(d.multisigs, a)|
    ensures SameOutput(Vec(d.multisigs, a)[o], Vec(d0.multisigs, a)[o])
  {
  }

  lemma HeldRing(
    rules: Rules, indexed: bool, root: seq<BlockEntry>, blocks: seq<BlockEntry>, d: Derived, offsets: seq<u32>,
    keys: seq<nat>, a: nat)
    requires root <= blocks && KeepsOutputs(Rebuild(indexed, root), d)
    requires RingOf(rules, blocks, Vec(d.outputs, a), offsets, keys)
    requires forall m | 0 <= m < |offsets| :: Absolute(offsets, m) < |Vec(Rebuild(indexed, root).outputs, a)|
    ensures RingOf(rules, blocks, Vec(Rebuild(indexed, root).outputs, a), offsets, keys)
    ensures RightAmounts(blocks, Vec(Rebuild(indexed, root).outputs, a), offsets, a)
  {
    hide Rebuild, RunningSum, Absolute, UnlockedKey, IsKeyOutput, KeepsUsages;
    var v := Vec(Rebuild(indexed, root).outputs, a);
    VectorsAreOrdered(indexed, root, a);
    forall m | 0 <= m < |offsets|
      ensures RunningSum(offsets, m) < |v| && UnlockedKey(rules, blocks, v[RunningSum(offsets, m)], keys[m])
      ensures IsKeyOutput(blocks, a, v[RunningSum(offsets, m)])
    {
      AbsoluteIsSum(offsets, m);
      var p := RunningSum(offsets, m);
      assert v[p] == Vec(d.outputs, a)[p] && v[p] in v;
      KeyStaysKey(root, blocks, a, v[p]);
    }
  }

  /** After every run, whatever fails in it, the inputs of the blocks outside the zone are signed for by the chain; and
      after a run of allowed steps by outputs of their own amount. */
  lemma RunIsSigned(rules: Rules, s: State, steps: seq<Runs.Step>)
    requires Kept(rules, s)
    ensures var t := Runs.Run(rules, s, steps);
      forall k, j, i |
        && 0 <= k < |t.blocks| && !rules.inZone(k) && 1 <= j < |AllTxs(t.blocks[k])|
        && 0 <= i < |AllTxs(t.blocks[k])[j].inputs| ::
        && SignedBelow(rules, t.blocks[..k], AllTxs(t.blocks[k])[j], i)
        && (Good(rules, s) && Runs.RunAllowed(rules, s, steps) ==>
              SignedByAmount(rules, t.d.indexed, t.blocks[..k], AllTxs(t.blocks[k])[j], i))
  {
    hide Runs.Run, Runs.RunAllowed, SignedBelow, SignedByAmount, AllTxs, Kept, KeptChain, Good, AcceptedChain;
    var t := Runs.Run(rules, s, steps);
    KeptChainOf(rules, s, steps);
    if Good(rules, s) && Runs.RunAllowed(rules, s, steps) { AcceptedChainOf(rules, s, steps); }
    forall k, j, i |
      && 0 <= k < |t.blocks| && !rules.inZone(k) && 1 <= j < |AllTxs(t.blocks[k])|
      && 0 <= i < |AllTxs(t.blocks[k])[j].inputs|
      ensures SignedBelow(rules, t.blocks[..k], AllTxs(t.blocks[k])[j], i)
      ensures Good(rules, s) && Runs.RunAllowed(rules, s, steps) ==>
                SignedByAmount(rules, t.d.indexed, t.blocks[..k], AllTxs(t.blocks[k])[j], i)
    {
      KeptIsSigned(rules, t.blocks, k, j, i);
      if Good(rules, s) && Runs.RunAllowed(rules, s, steps) {
        ChainIsSigned(rules, t.now, t.d.indexed, t.blocks, k, j, i);
      }
    }
  }

  lemma KeptChainOf(rules: Rules, s: State, steps: seq<Runs.Step>)
    requires Kept(rules, s)
    ensures KeptChain(rules, Runs.Run(rules, s, steps).blocks)
  {
    hide Runs.Run, KeptChain, HeldOnce, ChainRecorded, ImagesApart, IndexesOf, Semantic, Holdings;
    Runs.EveryRunIsKept(rules, s, steps);
  }

  lemma AcceptedChainOf(rules: Rules, s: State, steps: seq<Runs.Step>)
    requires Good(rules, s) && Runs.RunAllowed(rules, s, steps)
    ensures var t := Runs.Run(rules, s, steps); AcceptedChain(rules, t.now, t.d.indexed, t.blocks)
  {
    hide Runs.Run, Runs.RunAllowed, Rebuild, IndexesOf, ChainOk, AcceptedChain;
    Runs.EveryRunIsRebuilt(rules, s, steps);
    var t := Runs.Run(rules, s, steps);
    FineIsAccepted(rules, t.now, t.d.indexed, t.blocks);
  }
}
