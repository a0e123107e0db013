/** What the transaction map and the explorer indexes of a valid chain hold, entry by entry. */
module Records {
  import opened ChainTypes
  import opened DerivedState
  import opened Rules
  import opened Ledger
  import opened Reorganisation
  import opened Switching
  import opened Spending
  import opened Supply

  /** Every transaction of the chain is in the transaction map, at its block and its place in the block; and nothing
      else is. */
  lemma {:induction false} TransactionsAreIndexed(rules: Rules, now: nat, indexed: bool, blocks: seq<BlockEntry>)
    requires AcceptedChain(rules, now, indexed, blocks)
    ensures var m := Rebuild(indexed, blocks).transactions;
      && (forall k, j | 0 <= k < |blocks| && 0 <= j < |AllTxs(blocks[k])| ::
            && OfTransaction(AllTxs(blocks[k])[j]) in m
            && m[OfTransaction(AllTxs(blocks[k])[j])] == TransactionIndex(k, j))
      && (forall h | h in m ::
            && m[h].block < |blocks| && m[h].transaction < |AllTxs(blocks[m[h].block])|
            && h == OfTransaction(AllTxs(blocks[m[h].block])[m[h].transaction]))
    decreases |blocks|
  {
    hide Rebuild, Applied, AcceptedChain, Checked, Fresh, AllTxs;
    var m := Rebuild(indexed, blocks).transactions;
    forall h | h in m
      ensures m[h].block < |blocks| && m[h].transaction < |AllTxs(blocks[m[h].block])|
      ensures h == OfTransaction(AllTxs(blocks[m[h].block])[m[h].transaction])
    {
      RebuiltAt(indexed, blocks, h);
    }
    if blocks != [] {
      var n := |blocks| - 1;
      var prefix, all := blocks[..n], AllTxs(blocks[n]);
      AcceptedIsChecked(rules, now, indexed, blocks);
      TransactionsAreIndexed(rules, now, indexed, prefix);
      NewInChain(rules, now, indexed, blocks);
      forall k, j | 0 <= k < |blocks| && 0 <= j < |AllTxs(blocks[k])|
        ensures OfTransaction(AllTxs(blocks[k])[j]) in m
        ensures m[OfTransaction(AllTxs(blocks[k])[j])] == TransactionIndex(k, j)
      {
        if k < n {
          assert prefix[k] == blocks[k];
          AppliedKeeps(Rebuild(indexed, prefix), all, n, |all|, OfTransaction(AllTxs(blocks[k])[j]));
        } else {
          AppliedAt(Rebuild(indexed, prefix), all, n, |all|, j);
        }
      }
    }
  }

  lemma NewInChain(rules: Rules, now: nat, indexed: bool, blocks: seq<BlockEntry>)
    requires AcceptedChain(rules, now, indexed, blocks) && blocks != []
    ensures var n := |blocks| - 1; var d, all := Rebuild(indexed, blocks[..n]), AllTxs(blocks[n]);
      && (forall j | 0 <= j < |all| :: OfTransaction(all[j]) !in d.transactions)
      && (forall i, j | 0 <= i < j < |all| :: all[i] != all[j])
  {
    hide Rebuild, Judge, Semantic, Countable, HeaderOk, BodyOk, BlockTxs;
    var n := |blocks| - 1;
    assert EntryAccepted(rules, now, indexed, blocks[..n], blocks[n]);
    AcceptedEntry(rules, now, blocks[..n], Rebuild(indexed, blocks[..n]), blocks[n].bl, blocks[n]);
  }

  /** Each transaction of a block gets as many global indexes as it has outputs, but none if it was recorded before. */
  lemma IndexesAreStored(d: Derived, all: seq<Transaction>, n: nat, k: nat)
    requires k < |all|
    ensures Entries(d, all, n)[k].tx == all[k]
    ensures |Entries(d, all, n)[k].globalIndexes| ==
            if OfTransaction(all[k]) in Applied(d, all, n, k).transactions then 0 else |all[k].outputs|
  {
    hide Applied, GlobalIndex;
  }

  // ---------------------------------------------------------------------------------------------
  // Payment ids

  /** Each recorded transaction with a payment id is listed under it, once, if the explorer indexes are kept. */
  ghost predicate PaymentsListed(d: Derived) {
    forall id: nat, h: Hash ::
      d.payments[(id, h)] ==
      if d.indexed && h in d.transactions && h.OfTransaction? && h.tx.paymentId == Some(id) then 1 else 0
  }

  lemma RecordLists(d: Derived, tx: Transaction, at: TransactionIndex)
    requires PaymentsListed(d)
    ensures PaymentsListed(Record(d, tx, at))
  {
    hide Mark, AddKeyOutputs, AddMultisigOutputs, KeyImages, MultisigRefs;
    var d' := Record(d, tx, at);
    forall id: nat, h: Hash
      ensures d'.payments[(id, h)] ==
        if d'.indexed && h in d'.transactions && h.OfTransaction? && h.tx.paymentId == Some(id) then 1 else 0
    {
      assert d.payments[(id, h)] ==
        if d.indexed && h in d.transactions && h.OfTransaction? && h.tx.paymentId == Some(id) then 1 else 0;
    }
  }

  lemma {:induction false} AppliedLists(d: Derived, all: seq<Transaction>, n: nat, k: nat)
    requires k <= |all| && PaymentsListed(d)
    ensures PaymentsListed(Applied(d, all, n, k))
  {
    hide Record, PaymentsListed;
    if k != 0 {
      AppliedLists(d, all, n, k - 1);
      RecordLists(Applied(d, all, n, k - 1), all[k - 1], TransactionIndex(n, k - 1));
    }
  }

  lemma {:induction false} PaymentsAreListed(rules: Rules, now: nat, indexed: bool, blocks: seq<BlockEntry>)
    requires AcceptedChain(rules, now, indexed, blocks)
    ensures PaymentsListed(Rebuild(indexed, blocks))
    decreases |blocks|
  {
    hide Rebuild, Applied, AcceptedChain, Checked, Fresh, PaymentsListed, AllTxs;
    if blocks == [] {
      NothingListed(indexed);
    } else {
      var n := |blocks| - 1;
      AcceptedIsChecked(rules, now, indexed, blocks);
      PaymentsAreListed(rules, now, indexed, blocks[..n]);
      AppliedLists(Rebuild(indexed, blocks[..n]), AllTxs(blocks[n]), n, |AllTxs(blocks[n])|);
    }
  }

  lemma NothingListed(indexed: bool)
    ensures PaymentsListed(Rebuild(indexed, []))
  {
  }

  // ---------------------------------------------------------------------------------------------
  // Timestamps and counts

  ghost predicate StampedAt(blocks: seq<BlockEntry>, k: nat, t: nat, h: Hash) {
    k < |blocks| && blocks[k].bl.timestamp as nat == t && OfBlock(blocks[k].bl) == h
  }

  /** The timestamp index lists each block once under its time, if no block occurs twice. */
  lemma {:induction false} StampsAreListed(blocks: seq<BlockEntry>, t: nat, h: Hash)
    requires forall i, j | 0 <= i < j < |blocks| :: blocks[i].bl != blocks[j].bl
    ensures Stamps(blocks)[(t, h)] == if exists k: nat :: StampedAt(blocks, k, t, h) then 1 else 0
    decreases |blocks|
  {
    if blocks != [] {
      var n := |blocks| - 1;
      var prefix := blocks[..n];
      StampsAreListed(prefix, t, h);
      assert forall k: nat :: StampedAt(prefix, k, t, h) ==> StampedAt(blocks, k, t, h) && k < n;
      assert forall k: nat :: StampedAt(blocks, k, t, h) && k < n ==> StampedAt(prefix, k, t, h);
      if StampedAt(blocks, n, t, h) {
        assert forall k: nat :: !StampedAt(prefix, k, t, h);
      }
    }
  }

  /** The numbers of transactions of the first blocks. */
  function Counts(blocks: seq<BlockEntry>): (r: seq<nat>)
    ensures |r| == |blocks| && forall i | 0 <= i < |blocks| :: r[i] == |blocks[i].bl.transactionHashes| + 1
  {
    seq(|blocks|, i requires 0 <= i < |blocks| => |blocks[i].bl.transactionHashes| + 1)
  }

  /** The index of generated transactions counts, at each height, the transactions up to and including it. */
  lemma {:induction false} CountsTotal(blocks: seq<BlockEntry>, k: nat)
    requires k <= |blocks|
    ensures TransactionCount(blocks, k) == Total(Counts(blocks[..k]))
  {
    if k > 0 {
      CountsTotal(blocks, k - 1);
      assert Counts(blocks[..k]) == Counts(blocks[..k - 1]) + [Counts(blocks)[k - 1]];
      TotalAdds(Counts(blocks[..k - 1]), [Counts(blocks)[k - 1]]);
      assert Total([Counts(blocks)[k - 1]]) == Counts(blocks)[k - 1] + Total([]);
    }
  }

  /** So the indexes of the chain say: which block is at which height, when, and after how many transactions. */
  lemma IndexesSay(blocks: seq<BlockEntry>)
    requires forall i, j | 0 <= i < j < |blocks| :: blocks[i].bl != blocks[j].bl
    ensures var ix := IndexesOf(true, blocks);
      && |ix.ids| == |blocks| && (forall k | 0 <= k < |blocks| :: ix.ids[k] == OfBlock(blocks[k].bl))
      && (forall k: nat :: k in ix.generated <==> k < |blocks|)
      && (forall k | 0 <= k < |blocks| :: ix.generated[k] == Total(Counts(blocks[..k + 1])))
      && ix.lastGenerated == Total(Counts(blocks))
      && (forall t: nat, h :: ix.stamps[(t, h)] == if exists k: nat :: StampedAt(blocks, k, t, h) then 1 else 0)
  {
    hide Stamps, TransactionCount, StampedAt, Counts, Total;
    forall k | 0 <= k < |blocks| ensures CountThrough(blocks, k) == Total(Counts(blocks[..k + 1])) {
      CountsTotal(blocks, k + 1);
    }
    CountsTotal(blocks, |blocks|);
    assert blocks[..|blocks|] == blocks;
    forall t: nat, h ensures Stamps(blocks)[(t, h)] == if exists k: nat :: StampedAt(blocks, k, t, h) then 1 else 0 {
      StampsAreListed(blocks, t, h);
    }
  }
}
