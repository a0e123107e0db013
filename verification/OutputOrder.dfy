/** The per-amount vectors of key outputs: chain order, global indexes, and the two scans that rely on the order. */
module OutputOrder {
  import opened ChainTypes
  import opened DerivedState
  import opened Rules
  import opened Ledger

  predicate Before(x: OutputRef, y: OutputRef) {
    || x.at.block < y.at.block
    || (x.at.block == y.at.block
        && (x.at.transaction < y.at.transaction || (x.at.transaction == y.at.transaction && x.output < y.output)))
  }

  ghost predicate Ordered(v: seq<OutputRef>) {
    forall i, j | 0 <= i < j < |v| :: Before(v[i], v[j])
  }

  ghost predicate AllBefore(v: seq<OutputRef>, limit: OutputRef) {
    forall i | 0 <= i < |v| :: Before(v[i], limit)
  }

  /** `r` names a key output of amount `a` in the chain. */
  predicate IsKeyOutput(blocks: seq<BlockEntry>, a: nat, r: OutputRef) {
    && r.at.block < |blocks|
    && r.at.transaction < |blocks[r.at.block].transactions|
    && var outs := blocks[r.at.block].transactions[r.at.transaction].tx.outputs;
       r.output < |outs| && outs[r.output].target.KeyTarget? && outs[r.output].amount == a
  }

  // ---------------------------------------------------------------------------------------------
  // Growth of one vector

  predicate IsOneOf(outs: seq<Output>, at: TransactionIndex, k: nat, a: nat, r: OutputRef) {
    r.at == at && r.output < k <= |outs| && outs[r.output].target.KeyTarget? && outs[r.output].amount == a
  }

  /** Adding the first `k` outputs of a transaction extends the vector in order, by exactly its key outputs. */
  lemma {:induction false} OutputsExtend(
    m: map<nat, seq<OutputRef>>, outs: seq<Output>, at: TransactionIndex, k: nat, a: nat)
    requires k <= |outs| && Ordered(Vec(m, a)) && AllBefore(Vec(m, a), OutputRef(at, 0))
    ensures var v, v' := Vec(m, a), Vec(AddKeyOutputs(m, outs, at, k), a);
      && v <= v' && Ordered(v') && AllBefore(v', OutputRef(at, k))
      && forall r :: r in v' <==> r in v || IsOneOf(outs, at, k, a, r)
  {
    if k != 0 {
      OutputsExtend(m, outs, at, k - 1, a);
      var v', v'' := Vec(AddKeyOutputs(m, outs, at, k - 1), a), Vec(AddKeyOutputs(m, outs, at, k), a);
      var ref := OutputRef(at, k - 1);
      assert v'' == if outs[k - 1].target.KeyTarget? && outs[k - 1].amount == a then v' + [ref] else v';
      forall r ensures r in v'' <==> r in Vec(m, a) || IsOneOf(outs, at, k, a, r) {
        assert IsOneOf(outs, at, k, a, r) <==>
               IsOneOf(outs, at, k - 1, a, r) || (r == ref && outs[k - 1].target.KeyTarget? && outs[k - 1].amount == a);
      }
    }
  }

  lemma ApplyOutputs(d: Derived, tx: Transaction, at: TransactionIndex)
    ensures Apply(d, tx, at).outputs == AddKeyOutputs(d.outputs, tx.outputs, at, |tx.outputs|)
  {
  }

  ghost predicate OfBlock'(all: seq<Transaction>, n: nat, k: nat, a: nat, r: OutputRef)
    requires k <= |all|
  {
    r.at.block == n && r.at.transaction < k
    && IsOneOf(all[r.at.transaction].outputs, r.at, |all[r.at.transaction].outputs|, a, r)
  }

  lemma {:induction false} BlockExtends(d: Derived, all: seq<Transaction>, n: nat, k: nat, a: nat)
    requires k <= |all|
    requires Ordered(Vec(d.outputs, a)) && AllBefore(Vec(d.outputs, a), OutputRef(TransactionIndex(n, 0), 0))
    ensures var v, v' := Vec(d.outputs, a), Vec(Replayed(d, all, n, k).outputs, a);
      && v <= v' && Ordered(v') && AllBefore(v', OutputRef(TransactionIndex(n, k), 0))
      && forall r :: r in v' <==> r in v || OfBlock'(all, n, k, a, r)
  {
    hide Apply, AddKeyOutputs;
    if k != 0 {
      BlockExtends(d, all, n, k - 1, a);
      var d1, at := Replayed(d, all, n, k - 1), TransactionIndex(n, k - 1);
      ApplyOutputs(d1, all[k - 1], at);
      OutputsExtend(d1.outputs, all[k - 1].outputs, at, |all[k - 1].outputs|, a);
      forall r ensures OfBlock'(all, n, k, a, r) <==>
        OfBlock'(all, n, k - 1, a, r) || IsOneOf(all[k - 1].outputs, at, |all[k - 1].outputs|, a, r) {}
    }
  }

  /** Each vector of a rebuilt chain lists exactly the key outputs of its amount, strictly in chain order. */
  lemma {:induction false} VectorsAreOrdered(indexed: bool, blocks: seq<BlockEntry>, a: nat)
    ensures var v := Vec(Rebuild(indexed, blocks).outputs, a);
      && Ordered(v)
      && AllBefore(v, OutputRef(TransactionIndex(|blocks|, 0), 0))
      && forall r :: r in v <==> IsKeyOutput(blocks, a, r)
    decreases |blocks|
  {
    hide Replayed, Rebuild, Ordered;
    if blocks == [] {
      EmptyVectors(indexed, a);
    } else {
      var n := |blocks| - 1;
      var prefix, all := blocks[..n], AllTxs(blocks[n]);
      VectorsAreOrdered(indexed, prefix, a);
      assert blocks == prefix + [blocks[n]];
      RebuildExtends(indexed, prefix, blocks[n]);
      var d := Rebuild(indexed, prefix);
      BlockExtends(d, all, n, |all|, a);
      forall r ensures IsKeyOutput(blocks, a, r) <==> IsKeyOutput(prefix, a, r) || OfBlock'(all, n, |all|, a, r) {
        assert r.at.block < n ==> blocks[r.at.block] == prefix[r.at.block];
      }
    }
  }

  lemma EmptyVectors(indexed: bool, a: nat)
    ensures Vec(Rebuild(indexed, []).outputs, a) == [] && Ordered([])
  {
  }

  // ---------------------------------------------------------------------------------------------
  // Global indexes

  lemma {:induction false} LaterTransactionsExtend(d: Derived, all: seq<Transaction>, n: nat, j: nat, k: nat, a: nat)
    requires j <= k <= |all|
    requires Ordered(Vec(d.outputs, a)) && AllBefore(Vec(d.outputs, a), OutputRef(TransactionIndex(n, 0), 0))
    ensures Vec(Replayed(d, all, n, j).outputs, a) <= Vec(Replayed(d, all, n, k).outputs, a)
    decreases k - j
  {
    hide Apply, AddKeyOutputs;
    if j < k {
      LaterTransactionsExtend(d, all, n, j, k - 1, a);
      BlockExtends(d, all, n, k - 1, a);
      var d1, at := Replayed(d, all, n, k - 1), TransactionIndex(n, k - 1);
      ApplyOutputs(d1, all[k - 1], at);
      OutputsExtend(d1.outputs, all[k - 1].outputs, at, |all[k - 1].outputs|, a);
    }
  }

  lemma {:induction false} LaterBlocksExtend(indexed: bool, blocks: seq<BlockEntry>, n: nat, a: nat)
    requires n <= |blocks|
    ensures Vec(Rebuild(indexed, blocks[..n]).outputs, a) <= Vec(Rebuild(indexed, blocks).outputs, a)
    decreases |blocks|
  {
    hide Replayed, Rebuild, Ordered;
    if n == |blocks| {
      assert blocks[..n] == blocks;
    } else {
      var m := |blocks| - 1;
      var prefix := blocks[..m];
      LaterBlocksExtend(indexed, prefix, n, a);
      assert prefix[..n] == blocks[..n] && blocks == prefix + [blocks[m]];
      RebuildExtends(indexed, prefix, blocks[m]);
      VectorsAreOrdered(indexed, prefix, a);
      BlockExtends(Rebuild(indexed, prefix), AllTxs(blocks[m]), m, |AllTxs(blocks[m])|, a);
    }
  }

  /** Where output `o` of transaction `t` goes when block `b` is recorded. */
  lemma PositionInBlock(d: Derived, all: seq<Transaction>, n: nat, t: nat, o: nat) returns (p: nat)
    requires t < |all| && o < |all[t].outputs| && all[t].outputs[o].target.KeyTarget?
    requires var a := all[t].outputs[o].amount;
      Ordered(Vec(d.outputs, a)) && AllBefore(Vec(d.outputs, a), OutputRef(TransactionIndex(n, 0), 0))
    requires Fresh(d, all, n, |all|) && forall k | 0 <= k <= |all| :: Applied(d, all, n, k) == Replayed(d, all, n, k)
    ensures var v := Vec(Replayed(d, all, n, |all|).outputs, all[t].outputs[o].amount);
      && p < |v| && v[p] == OutputRef(TransactionIndex(n, t), o)
      && Entries(d, all, n)[t].globalIndexes[o] == p % TWO32
  {
    hide Apply, Ordered, AllBefore, IsOneOf, OfBlock', Applied;
    var a, at, outs := all[t].outputs[o].amount as nat, TransactionIndex(n, t), all[t].outputs;
    var d1 := Replayed(d, all, n, t);
    BlockExtends(d, all, n, t, a);
    LaterTransactionsExtend(d, all, n, t + 1, |all|, a);
    ApplyOutputs(d1, all[t], at);
    OutputsExtend(d1.outputs, outs, at, o, a);
    AddedOutputsExtend(d1.outputs, outs, at, o + 1, |outs|, a);
    p := |Vec(AddKeyOutputs(d1.outputs, outs, at, o), a)|;
  }

  lemma {:induction false} AddedOutputsExtend(
    m: map<nat, seq<OutputRef>>, outs: seq<Output>, at: TransactionIndex, j: nat, k: nat, a: nat)
    requires j <= k <= |outs|
    ensures Vec(AddKeyOutputs(m, outs, at, j), a) <= Vec(AddKeyOutputs(m, outs, at, k), a)
    decreases k - j
  {
    if j < k { AddedOutputsExtend(m, outs, at, j, k - 1, a); }
  }

  lemma JustOrdered(indexed: bool, blocks: seq<BlockEntry>, a: nat)
    ensures Ordered(Vec(Rebuild(indexed, blocks).outputs, a))
    ensures AllBefore(Vec(Rebuild(indexed, blocks).outputs, a), OutputRef(TransactionIndex(|blocks|, 0), 0))
  {
    hide Rebuild, Ordered, AllBefore, IsKeyOutput;
    VectorsAreOrdered(indexed, blocks, a);
  }

  /** The stored global index of a key output. */
  function StoredIndex(blocks: seq<BlockEntry>, r: OutputRef): nat
    requires r.at.block < |blocks| && r.at.transaction < |blocks[r.at.block].transactions|
    requires r.output < |blocks[r.at.block].transactions[r.at.transaction].globalIndexes|
  {
    blocks[r.at.block].transactions[r.at.transaction].globalIndexes[r.output]
  }

  predicate PointsTo(v: seq<OutputRef>, g: nat, r: OutputRef) {
    g < |v| && v[g] == r
  }

  lemma StoredPosition(
    rules: Rules, now: nat, indexed: bool, blocks: seq<BlockEntry>, r: OutputRef, a: nat) returns (p: nat)
    requires AcceptedChain(rules, now, indexed, blocks) && IsKeyOutput(blocks, a, r)
    ensures r.output < |blocks[r.at.block].transactions[r.at.transaction].globalIndexes|
    ensures PointsTo(Vec(Rebuild(indexed, blocks[..r.at.block + 1]).outputs, a), p, r)
    ensures StoredIndex(blocks, r) == p % TWO32
  {
    hide Applied, Replayed, Rebuild, Ordered, AllBefore, AcceptedChain, BlockTxs, GlobalIndexes, Fresh;
    var n := r.at.block;
    var prefix, e := blocks[..n], blocks[n];
    RecordedEntries(rules, now, indexed, blocks, n);
    JustOrdered(indexed, prefix, a);
    p := PositionInBlock(Rebuild(indexed, prefix), BlockTxs(e.bl), n, r.at.transaction, r.output);
    assert blocks[..n + 1] == prefix + [e];
    RebuildExtends(indexed, prefix, e);
  }

  /** The stored global index of a key output is its position in the vector, cut to 32 bits; so looking it up in
      the vector finds the output if and only if the position fits 32 bits. */
  lemma GlobalIndexFindsOutput(
    rules: Rules, now: nat, indexed: bool, blocks: seq<BlockEntry>, r: OutputRef, a: nat) returns (p: nat)
    requires AcceptedChain(rules, now, indexed, blocks) && IsKeyOutput(blocks, a, r)
    ensures r.output < |blocks[r.at.block].transactions[r.at.transaction].globalIndexes|
    ensures PointsTo(Vec(Rebuild(indexed, blocks).outputs, a), p, r)
    ensures StoredIndex(blocks, r) == p % TWO32
    ensures PointsTo(Vec(Rebuild(indexed, blocks).outputs, a), StoredIndex(blocks, r), r) <==> p < TWO32
  {
    hide Rebuild, Ordered, AllBefore, AcceptedChain;
    p := StoredPosition(rules, now, indexed, blocks, r, a);
    LaterBlocksExtend(indexed, blocks, r.at.block + 1, a);
    JustOrdered(indexed, blocks, a);
    PositionIsUnique(Vec(Rebuild(indexed, blocks).outputs, a), p, p % TWO32);
  }

  lemma RecordedEntries(rules: Rules, now: nat, indexed: bool, blocks: seq<BlockEntry>, n: nat)
    requires AcceptedChain(rules, now, indexed, blocks) && n < |blocks|
    ensures NamesTransactions(blocks[n].bl) && AllTxs(blocks[n]) == BlockTxs(blocks[n].bl)
    ensures blocks[n].transactions == Entries(Rebuild(indexed, blocks[..n]), BlockTxs(blocks[n].bl), n)
    ensures forall t | 0 <= t < |blocks[n].transactions| ::
              |blocks[n].transactions[t].globalIndexes| == |blocks[n].transactions[t].tx.outputs|
    ensures forall t | 0 <= t < |blocks[n].transactions| :: blocks[n].transactions[t].tx == BlockTxs(blocks[n].bl)[t]
    ensures var d, all := Rebuild(indexed, blocks[..n]), BlockTxs(blocks[n].bl);
      Fresh(d, all, n, |all|) && forall k | 0 <= k <= |all| :: Applied(d, all, n, k) == Replayed(d, all, n, k)
  {
    hide Applied, Replayed, Rebuild, Judge, Semantic, BlockTxs, NewTransactions;
    assert EntryAccepted(rules, now, indexed, blocks[..n], blocks[n]);
    NewIsFresh(Rebuild(indexed, blocks[..n]), blocks[n].bl, n);
    AcceptedEntry(rules, now, blocks[..n], Rebuild(indexed, blocks[..n]), blocks[n].bl, blocks[n]);
  }

  lemma PositionIsUnique(v: seq<OutputRef>, p: nat, q: nat)
    requires Ordered(v) && p < |v| && q <= p
    ensures v[q] == v[p] <==> q == p
  {
    assert q < p ==> Before(v[q], v[p]);
  }

  // ---------------------------------------------------------------------------------------------
  // Scans

  predicate Matured(r: OutputRef, window: nat, height: nat) {
    r.at.block + window <= height
  }

  /** `find_end_of_allowed_index`: on an ordered vector, the exact end of the matured outputs. */
  method FindEndOfAllowedIndex(outs: seq<OutputRef>, window: nat, height: nat) returns (end: nat)
    ensures end <= |outs|
    ensures forall i | end <= i < |outs| :: !Matured(outs[i], window, height)
    ensures end > 0 ==> Matured(outs[end - 1], window, height)
    ensures Ordered(outs) ==> forall i | 0 <= i < |outs| :: i < end <==> outs[i].at.block + window <= height
  {
    if outs == [] { return 0; }
    var i := |outs|;
    while i != 0
      invariant 0 <= i <= |outs|
      invariant forall j | i <= j < |outs| :: !Matured(outs[j], window, height)
    {
      i := i - 1;
      if outs[i].at.block + window <= height {
        assert Ordered(outs) ==> forall j | 0 <= j < i :: Before(outs[j], outs[i]);
        return i + 1;
      }
    }
    return 0;
  }

  function OffsetSum(offsets: seq<u32>): nat {
    if offsets == [] then 0 else OffsetSum(offsets[..|offsets| - 1]) + offsets[|offsets| - 1]
  }

  /** `relative_output_offsets_to_absolute`: running 32-bit sums. */
  method RelativeToAbsolute(offsets: seq<u32>) returns (res: seq<u32>)
    ensures |res| == |offsets|
    ensures forall i | 0 <= i < |res| :: res[i] == Absolute(offsets, i)
  {
    res := offsets;
    var i := 1;
    while i < |res|
      invariant |res| == |offsets| && 1 <= i
      invariant forall j | 0 <= j < |res| :: res[j] == if j < i then Absolute(offsets, j) else offsets[j]
    {
      res := res[i := (res[i] + res[i - 1]) % TWO32];
      i := i + 1;
    }
  }

  /** As long as the offsets do not add up past 32 bits, the absolute offsets never decrease. */
  lemma {:induction false} AbsoluteGrows(offsets: seq<u32>, n: nat)
    requires 0 < n <= |offsets| && OffsetSum(offsets[..n]) < TWO32
    ensures Absolute(offsets, n - 1) == OffsetSum(offsets[..n])
    ensures forall i | 0 <= i < n :: Absolute(offsets, i) <= Absolute(offsets, n - 1)
  {
    assert offsets[..n][..n - 1] == offsets[..n - 1];
    if n > 1 {
      AbsoluteGrows(offsets, n - 1);
    } else {
      assert offsets[..0] == [];
    }
  }

  /** The last absolute offset is the largest. */
  ghost predicate LastIsLargest(offsets: seq<u32>) {
    forall i | 0 <= i < |offsets| :: Absolute(offsets, i) <= Absolute(offsets, |offsets| - 1)
  }

  ghost predicate InVector(outs: seq<OutputRef>, offsets: seq<u32>) {
    forall i | 0 <= i < |offsets| :: Absolute(offsets, i) < |outs|
  }

  ghost predicate LastIsNewest(outs: seq<OutputRef>, offsets: seq<u32>)
    requires InVector(outs, offsets)
  {
    forall i | 0 <= i < |offsets| ::
      outs[Absolute(offsets, i)].at.block <= outs[Absolute(offsets, |offsets| - 1)].at.block
  }

  /** `scanOutputKeysForIndexes`, with the visitor of `check_tx_input`, which collects the keys. The height is raised
      only at the last ring member. */
  method ScanOutputKeys(
    rules: Rules, blocks: seq<BlockEntry>, outputs: map<nat, seq<OutputRef>>, amount: nat, offsets: seq<u32>, height0: nat)
    returns (outcome: Outcome, keys: seq<nat>, height: nat)
    requires amount in outputs ==> ScanInside(rules, blocks, outputs[amount], offsets, 0)
    ensures outcome ==
            if amount !in outputs || offsets == [] then Fails else Scan(rules, blocks, outputs[amount], offsets, 0)
    ensures outcome == Passes ==>
              var outs := outputs[amount];
              && InVector(outs, offsets) && keys == RingKeys(blocks, outs, offsets, |offsets|) && |keys| == |offsets|
              && height0 <= height && (height == height0 || height == outs[Absolute(offsets, |offsets| - 1)].at.block)
              && (LastIsNewest(outs, offsets) ==>
                    forall i | 0 <= i < |offsets| :: outs[Absolute(offsets, i)].at.block <= height)
    ensures outcome != Passes ==> height == height0
  {
    hide Absolute;
    keys, height := [], height0;
    if amount !in outputs || offsets == [] { return Fails, keys, height; }
    var outs := outputs[amount];
    var absolute := RelativeToAbsolute(offsets);
    var count := 0;
    while count < |absolute|
      invariant 0 <= count <= |absolute|
      invariant ScanInside(rules, blocks, outs, offsets, count)
      invariant Scan(rules, blocks, outs, offsets, 0) == Scan(rules, blocks, outs, offsets, count)
      invariant keys == RingKeys(blocks, outs, offsets, count) && |keys| == count
      invariant forall i | 0 <= i < count :: Absolute(offsets, i) < |outs|
      invariant count < |absolute| ==> height == height0
      invariant count == |absolute| ==>
        height == if height0 < outs[Absolute(offsets, count - 1)].at.block then outs[Absolute(offsets, count - 1)].at.block else height0
    {
      var i := absolute[count];
      assert i == Absolute(offsets, count);
      if i >= |outs| { return Fails, keys, height; }
      var r := outs[i];
      if r.at.block >= |blocks| { return Throws, keys, height; }
      var tx := blocks[r.at.block].transactions[r.at.transaction].tx;
      if r.output >= |tx.outputs| { return Fails, keys, height; }
      if !rules.unlocked(blocks, tx.unlockTime) { return Fails, keys, height; }
      if !tx.outputs[r.output].target.KeyTarget? { return Fails, keys, height; }
      keys := keys + [tx.outputs[r.output].target.key];
      count := count + 1;
      if count == |absolute| && height < r.at.block {
        height := r.at.block;
      }
    }
    return Passes, keys, height;
  }

  /** The vector that holds one output per block. */
  function OnePerBlock(n: nat): (v: seq<OutputRef>)
    ensures |v| == n && forall i | 0 <= i < n :: v[i] == OutputRef(TransactionIndex(i, 0), 0)
  {
    seq(n, i requires 0 <= i < n => OutputRef(TransactionIndex(i, 0), 0))
  }

  lemma LargestIsNewest(offsets: seq<u32>, outs: seq<OutputRef>)
    requires LastIsLargest(offsets) && Ordered(outs) && InVector(outs, offsets)
    ensures LastIsNewest(outs, offsets)
  {
    var last := |offsets| - 1;
    forall i | 0 <= i < |offsets|
      ensures outs[Absolute(offsets, i)].at.block <= outs[Absolute(offsets, last)].at.block
    {
      assert Absolute(offsets, i) < Absolute(offsets, last) ==>
               Before(outs[Absolute(offsets, i)], outs[Absolute(offsets, last)]);
    }
  }

  /** Looking at the last ring member alone gives the newest block for every ordered vector if and only if the
      last absolute offset is the largest. */
  lemma LastMemberDecides(offsets: seq<u32>)
    ensures LastIsLargest(offsets) <==>
            forall outs: seq<OutputRef> | Ordered(outs) && InVector(outs, offsets) :: LastIsNewest(outs, offsets)
  {
    hide Absolute;
    if LastIsLargest(offsets) {
      forall outs: seq<OutputRef> | Ordered(outs) && InVector(outs, offsets) ensures LastIsNewest(outs, offsets) {
        LargestIsNewest(offsets, outs);
      }
    } else {
      var i :| 0 <= i < |offsets| && Absolute(offsets, i) > Absolute(offsets, |offsets| - 1);
      var outs := OnePerBlock(TWO32);
      assert Ordered(outs) && InVector(outs, offsets) && !LastIsNewest(outs, offsets);
    }
  }

  /** Offsets that do not add up past 32 bits always end with the largest; a wrapping sum need not. */
  lemma NoWrapMeansLargest(offsets: seq<u32>)
    requires offsets != []
    ensures OffsetSum(offsets) < TWO32 ==> LastIsLargest(offsets)
    ensures !LastIsLargest([5, 0xFFFF_FFFD])
  {
    assert offsets[..|offsets|] == offsets;
    if OffsetSum(offsets) < TWO32 { AbsoluteGrows(offsets, |offsets|); }
    var wrapping: seq<u32> := [5, 0xFFFF_FFFD];
    assert Absolute(wrapping, 0) == 5 && Absolute(wrapping, 1) == 2;
  }
}
