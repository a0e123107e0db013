/** The per-amount vectors of multisignature outputs: chain order and global indexes. A multisignature vector, without
    its flags, grows as a key vector does when the two kinds of output trade places, so what `OutputOrder` proves
    carries over. */
module MultisigOrder {
  import opened ChainTypes
  import opened DerivedState
  import opened Rules
  import opened Ledger
  import opened OutputOrder

  function PlaceOf(u: MultisigUsage): OutputRef {
    OutputRef(u.at, u.output)
  }

  /** `r` names a multisignature output of amount `a` in the chain. */
  predicate IsMultisigOutput(blocks: seq<BlockEntry>, a: nat, r: OutputRef) {
    && r.at.block < |blocks|
    && r.at.transaction < |blocks[r.at.block].transactions|
    && var outs := blocks[r.at.block].transactions[r.at.transaction].tx.outputs;
       r.output < |outs| && outs[r.output].target.MultisigTarget? && outs[r.output].amount == a
  }

  // ---------------------------------------------------------------------------------------------
  // The two kinds trade places

  function Spots(v: seq<MultisigUsage>): (r: seq<OutputRef>)
    ensures |r| == |v| && forall i | 0 <= i < |v| :: r[i] == PlaceOf(v[i])
  {
    seq(|v|, i requires 0 <= i < |v| => PlaceOf(v[i]))
  }

  function AllSpots(m: map<nat, seq<MultisigUsage>>): map<nat, seq<OutputRef>> {
    map a | a in m :: Spots(m[a])
  }

  function TradeOutput(out: Output): Output {
    out.(target := if out.target.KeyTarget? then MultisigTarget([], 0) else KeyTarget(0))
  }

  function TradeOutputs(outs: seq<Output>): (r: seq<Output>)
    ensures |r| == |outs| && forall i | 0 <= i < |outs| :: r[i] == TradeOutput(outs[i])
  {
    seq(|outs|, i requires 0 <= i < |outs| => TradeOutput(outs[i]))
  }

  function Trade(tx: Transaction): Transaction {
    tx.(outputs := TradeOutputs(tx.outputs))
  }

  function TradeAll(all: seq<Transaction>): (r: seq<Transaction>)
    ensures |r| == |all| && forall i | 0 <= i < |all| :: r[i] == Trade(all[i])
  {
    seq(|all|, i requires 0 <= i < |all| => Trade(all[i]))
  }

  function TradeEntry(e: BlockEntry): BlockEntry {
    e.(transactions := seq(|e.transactions|, i requires 0 <= i < |e.transactions| =>
                             e.transactions[i].(tx := Trade(e.transactions[i].tx))))
  }

  function TradeBlocks(blocks: seq<BlockEntry>): (r: seq<BlockEntry>)
    ensures |r| == |blocks| && forall i | 0 <= i < |blocks| :: r[i] == TradeEntry(blocks[i])
  {
    seq(|blocks|, i requires 0 <= i < |blocks| => TradeEntry(blocks[i]))
  }

  lemma {:induction false} AddedTraded(m: map<nat, seq<MultisigUsage>>, outs: seq<Output>, at: TransactionIndex, k: nat)
    requires k <= |outs|
    ensures AllSpots(AddMultisigOutputs(m, outs, at, k)) == AddKeyOutputs(AllSpots(m), TradeOutputs(outs), at, k)
  {
    if k != 0 {
      AddedTraded(m, outs, at, k - 1);
      var before := AddMultisigOutputs(m, outs, at, k - 1);
      var a, u := outs[k - 1].amount, MultisigUsage(at, k - 1, false);
      if outs[k - 1].target.MultisigTarget? {
        assert Spots(Vec(before, a) + [u]) == Vec(AllSpots(before), a) + [OutputRef(at, k - 1)];
      }
    }
  }

  lemma MarkedSpots(m: map<nat, seq<MultisigUsage>>, refs: set<(nat, nat)>, used: bool)
    ensures AllSpots(Mark(m, refs, used)) == AllSpots(m)
  {
    hide Mark;
    MarkedKeys(m, refs, used);
    forall a | a in m ensures Spots(Mark(m, refs, used)[a]) == Spots(m[a]) {
      MarkedAt(m, refs, used, a, 0);
      forall i | 0 <= i < |m[a]| ensures PlaceOf(Mark(m, refs, used)[a][i]) == PlaceOf(m[a][i]) {
        MarkedAt(m, refs, used, a, i);
      }
    }
  }

  /** The state whose key vectors are the multisignature vectors of `d`. */
  function TradeState(d: Derived): Derived {
    d.(outputs := AllSpots(d.multisigs))
  }

  lemma ApplyTraded(d: Derived, x: Derived, tx: Transaction, at: TransactionIndex)
    requires x.outputs == AllSpots(d.multisigs)
    ensures Apply(x, Trade(tx), at).outputs == AllSpots(Apply(d, tx, at).multisigs)
  {
    hide Mark, AddKeyOutputs, AddMultisigOutputs, AllSpots, MultisigRefs, KeyImages;
    var marked := Mark(d.multisigs, MultisigRefs(tx.inputs), true);
    MarkedSpots(d.multisigs, MultisigRefs(tx.inputs), true);
    AddedTraded(marked, tx.outputs, at, |tx.outputs|);
  }

  lemma {:induction false} ReplayTraded(d: Derived, x: Derived, all: seq<Transaction>, n: nat, k: nat)
    requires k <= |all| && x.outputs == AllSpots(d.multisigs)
    ensures Replayed(x, TradeAll(all), n, k).outputs == AllSpots(Replayed(d, all, n, k).multisigs)
  {
    hide Apply, AllSpots;
    if k != 0 {
      ReplayTraded(d, x, all, n, k - 1);
      ApplyTraded(Replayed(d, all, n, k - 1), Replayed(x, TradeAll(all), n, k - 1), all[k - 1], TransactionIndex(n, k - 1));
    }
  }

  lemma {:induction false} RebuildTraded(indexed: bool, blocks: seq<BlockEntry>)
    ensures Rebuild(indexed, TradeBlocks(blocks)).outputs == AllSpots(Rebuild(indexed, blocks).multisigs)
    decreases |blocks|
  {
    hide Replayed, Rebuild, AllSpots;
    if blocks == [] {
      assert TradeBlocks(blocks) == [];
      NothingTraded(indexed);
    } else {
      var n := |blocks| - 1;
      var prefix, e := blocks[..n], blocks[n];
      RebuildTraded(indexed, prefix);
      assert blocks == prefix + [e];
      assert TradeBlocks(blocks) == TradeBlocks(prefix) + [TradeEntry(e)];
      RebuildExtends(indexed, prefix, e);
      RebuildExtends(indexed, TradeBlocks(prefix), TradeEntry(e));
      assert AllTxs(TradeEntry(e)) == TradeAll(AllTxs(e));
      ReplayTraded(Rebuild(indexed, prefix), Rebuild(indexed, TradeBlocks(prefix)), AllTxs(e), n, |AllTxs(e)|);
    }
  }

  lemma NothingTraded(indexed: bool)
    ensures Rebuild(indexed, []).outputs == AllSpots(Rebuild(indexed, []).multisigs)
  {
  }

  // ---------------------------------------------------------------------------------------------
  // Order and content

  /** The vector holds the place `r`. */
  ghost predicate Holds(v: seq<MultisigUsage>, r: OutputRef) {
    exists i | 0 <= i < |v| :: PlaceOf(v[i]) == r
  }

  /** Each multisignature vector of a rebuilt chain lists exactly the multisignature outputs of its amount, strictly in
      chain order. */
  lemma MultisigsAreOrdered(indexed: bool, blocks: seq<BlockEntry>, a: nat)
    ensures var v := Vec(Rebuild(indexed, blocks).multisigs, a);
      && (forall i, j | 0 <= i < j < |v| :: Before(PlaceOf(v[i]), PlaceOf(v[j])))
      && forall r :: Holds(v, r) <==> IsMultisigOutput(blocks, a, r)
  {
    hide Rebuild;
    var v := Vec(Rebuild(indexed, blocks).multisigs, a);
    RebuildTraded(indexed, blocks);
    VectorsAreOrdered(indexed, TradeBlocks(blocks), a);
    assert Vec(AllSpots(Rebuild(indexed, blocks).multisigs), a) == Spots(v);
    forall r ensures Holds(v, r) <==> r in Spots(v) {
      if i :| 0 <= i < |v| && PlaceOf(v[i]) == r { assert Spots(v)[i] == r; }
    }
    forall r ensures IsKeyOutput(TradeBlocks(blocks), a, r) <==> IsMultisigOutput(blocks, a, r) {
    }
    forall i, j | 0 <= i < j < |v| ensures Before(PlaceOf(v[i]), PlaceOf(v[j])) {
      assert Before(Spots(v)[i], Spots(v)[j]);
    }
  }

  // ---------------------------------------------------------------------------------------------
  // Global indexes

  /** Where output `o` of transaction `t` goes when a block is recorded. */
  lemma MultisigInBlock(d: Derived, all: seq<Transaction>, n: nat, t: nat, o: nat) returns (p: nat)
    requires t < |all| && o < |all[t].outputs| && all[t].outputs[o].target.MultisigTarget?
    requires var v := Vec(AllSpots(d.multisigs), all[t].outputs[o].amount);
      Ordered(v) && AllBefore(v, OutputRef(TransactionIndex(n, 0), 0))
    requires Fresh(d, all, n, |all|) && forall k | 0 <= k <= |all| :: Applied(d, all, n, k) == Replayed(d, all, n, k)
    ensures var v := Vec(Replayed(d, all, n, |all|).multisigs, all[t].outputs[o].amount);
      && p < |v| && PlaceOf(v[p]) == OutputRef(TransactionIndex(n, t), o)
      && Entries(d, all, n)[t].globalIndexes[o] == p % TWO32
  {
    hide Apply, Ordered, AllBefore, IsOneOf, OfBlock', Applied, AddKeyOutputs, AddMultisigOutputs, Entries, Replayed, Fresh;
    var a, at, outs := all[t].outputs[o].amount as nat, TransactionIndex(n, t), TradeOutputs(all[t].outputs);
    var x, trade := TradeState(d), TradeAll(all);
    var x1, d1 := Replayed(x, trade, n, t), Replayed(d, all, n, t);
    ReplayTraded(d, x, all, n, t);
    ReplayTraded(d, x, all, n, |all|);
    BlockExtends(x, trade, n, t, a);
    LaterTransactionsExtend(x, trade, n, t + 1, |all|, a);
    ReplayedNext(x, trade, n, t);
    ApplyOutputs(x1, trade[t], at);
    AddedOutputsExtend(x1.outputs, outs, at, o + 1, |outs|, a);
    KeyAppended(x1.outputs, outs, at, o);
    p := |Vec(AddKeyOutputs(x1.outputs, outs, at, o), a)|;
    VecOfSpots(Replayed(d, all, n, |all|).multisigs, a);
    StoredPosition(d, all, n, t, o);
    AddedTraded(d1.multisigs, all[t].outputs, at, o);
    VecOfSpots(AddMultisigOutputs(d1.multisigs, all[t].outputs, at, o), a);
  }

  lemma ReplayedNext(d: Derived, all: seq<Transaction>, n: nat, t: nat)
    requires t < |all|
    ensures Replayed(d, all, n, t + 1) == Apply(Replayed(d, all, n, t), all[t], TransactionIndex(n, t))
  {
    hide Apply;
  }

  lemma StoredPosition(d: Derived, all: seq<Transaction>, n: nat, t: nat, o: nat)
    requires t < |all| && o < |all[t].outputs| && all[t].outputs[o].target.MultisigTarget?
    requires Fresh(d, all, n, |all|) && Applied(d, all, n, t) == Replayed(d, all, n, t)
    ensures |Entries(d, all, n)[t].globalIndexes| == |all[t].outputs|
    ensures var m := AddMultisigOutputs(Replayed(d, all, n, t).multisigs, all[t].outputs, TransactionIndex(n, t), o);
      Entries(d, all, n)[t].globalIndexes[o] == |Vec(m, all[t].outputs[o].amount)| % TWO32
  {
    hide Applied, AddMultisigOutputs, Replayed;
  }

  lemma KeyAppended(m: map<nat, seq<OutputRef>>, outs: seq<Output>, at: TransactionIndex, o: nat)
    requires o < |outs| && outs[o].target.KeyTarget?
    ensures Vec(AddKeyOutputs(m, outs, at, o + 1), outs[o].amount)
         == Vec(AddKeyOutputs(m, outs, at, o), outs[o].amount) + [OutputRef(at, o)]
  {
  }

  lemma VecOfSpots(m: map<nat, seq<MultisigUsage>>, a: nat)
    ensures Vec(AllSpots(m), a) == Spots(Vec(m, a))
  {
  }

  ghost predicate MultisigAt(v: seq<MultisigUsage>, g: nat, r: OutputRef) {
    g < |v| && PlaceOf(v[g]) == r
  }

  /** The stored global index of a multisignature output is its position in the vector, cut to 32 bits; so looking it up
      finds the output if and only if the position fits 32 bits. */
  lemma MultisigIndexFindsOutput(
    rules: Rules, now: nat, indexed: bool, blocks: seq<BlockEntry>, r: OutputRef, a: nat) returns (p: nat)
    requires AcceptedChain(rules, now, indexed, blocks) && IsMultisigOutput(blocks, a, r)
    ensures r.output < |blocks[r.at.block].transactions[r.at.transaction].globalIndexes|
    ensures MultisigAt(Vec(Rebuild(indexed, blocks).multisigs, a), p, r)
    ensures StoredIndex(blocks, r) == p % TWO32
    ensures MultisigAt(Vec(Rebuild(indexed, blocks).multisigs, a), StoredIndex(blocks, r), r) <==> p < TWO32
  {
    hide Rebuild, Ordered, AllBefore, AcceptedChain, AllSpots;
    p := StoredMultisig(rules, now, indexed, blocks, r, a);
    var m := Rebuild(indexed, blocks).multisigs;
    RebuildTraded(indexed, blocks);
    RebuildTraded(indexed, blocks[..r.at.block + 1]);
    assert TradeBlocks(blocks)[..r.at.block + 1] == TradeBlocks(blocks[..r.at.block + 1]);
    LaterBlocksExtend(indexed, TradeBlocks(blocks), r.at.block + 1, a);
    VecOfSpots(m, a);
    VecOfSpots(Rebuild(indexed, blocks[..r.at.block + 1]).multisigs, a);
    assert Spots(Vec(m, a))[p] == r;
    JustOrdered(indexed, TradeBlocks(blocks), a);
    PositionIsUnique(Spots(Vec(m, a)), p, p % TWO32);
  }

  lemma StoredMultisig(
    rules: Rules, now: nat, indexed: bool, blocks: seq<BlockEntry>, r: OutputRef, a: nat) returns (p: nat)
    requires AcceptedChain(rules, now, indexed, blocks) && IsMultisigOutput(blocks, a, r)
    ensures r.output < |blocks[r.at.block].transactions[r.at.transaction].globalIndexes|
    ensures MultisigAt(Vec(Rebuild(indexed, blocks[..r.at.block + 1]).multisigs, a), p, r)
    ensures StoredIndex(blocks, r) == p % TWO32
  {
    hide Applied, Replayed, Rebuild, Ordered, AllBefore, AcceptedChain, BlockTxs, GlobalIndexes, Fresh, AllSpots;
    var n := r.at.block;
    var prefix, e := blocks[..n], blocks[n];
    RecordedEntries(rules, now, indexed, blocks, n);
    RebuildTraded(indexed, prefix);
    JustOrdered(indexed, TradeBlocks(prefix), a);
    p := MultisigInBlock(Rebuild(indexed, prefix), BlockTxs(e.bl), n, r.at.transaction, r.output);
    assert blocks[..n + 1] == prefix + [e];
    RebuildExtends(indexed, prefix, e);
  }
}
