/** What adding and removing one transaction does to the derived state (Blockchain::pushTransaction and
    Blockchain::popTransaction), and the proof that the second undoes the first exactly. */
module DerivedState {
  import opened ChainTypes

  // ---------------------------------------------------------------------------------------------
  // Per-amount vectors

  function Vec<T>(m: map<nat, seq<T>>, a: nat): seq<T> {
    if a in m then m[a] else []
  }

  function Append<T>(m: map<nat, seq<T>>, a: nat, x: T): map<nat, seq<T>> {
    m[a := Vec(m, a) + [x]]
  }

  /** Drops the last element and erases the vector once it is empty. */
  function DropLast<T>(m: map<nat, seq<T>>, a: nat): map<nat, seq<T>>
    requires a in m && m[a] != []
  {
    if |m[a]| == 1 then m - {a} else m[a := m[a][..|m[a]| - 1]]
  }

  ghost predicate NoEmptyVector<T>(m: map<nat, seq<T>>) {
    forall a | a in m :: m[a] != []
  }

  lemma DropLastUndoesAppend<T>(m: map<nat, seq<T>>, a: nat, x: T)
    requires NoEmptyVector(m)
    ensures NoEmptyVector(Append(m, a, x))
    ensures DropLast(Append(m, a, x), a) == m
  {
    assert Append(m, a, x)[a][..|Vec(m, a)|] == Vec(m, a);
    if a in m {
      assert DropLast(Append(m, a, x), a) == m;
    } else {
      assert Vec(m, a) == [];
    }
  }

  // ---------------------------------------------------------------------------------------------
  // Outputs

  function AddKeyOutput(m: map<nat, seq<OutputRef>>, out: Output, at: TransactionIndex, o: nat)
    : map<nat, seq<OutputRef>>
  {
    if out.target.KeyTarget? then Append(m, out.amount, OutputRef(at, o)) else m
  }

  function AddKeyOutputs(m: map<nat, seq<OutputRef>>, outs: seq<Output>, at: TransactionIndex, k: nat)
    : map<nat, seq<OutputRef>>
    requires k <= |outs|
  {
    if k == 0 then m else AddKeyOutput(AddKeyOutputs(m, outs, at, k - 1), outs[k - 1], at, k - 1)
  }

  /** The consistency checks of `popTransaction` skip the output instead of failing. */
  function RemoveKeyOutput(m: map<nat, seq<OutputRef>>, out: Output, at: TransactionIndex, o: nat)
    : map<nat, seq<OutputRef>>
  {
    if !out.target.KeyTarget? || out.amount !in m || m[out.amount] == []
       || m[out.amount][|m[out.amount]| - 1] != OutputRef(at, o)
    then m
    else DropLast(m, out.amount)
  }

  function RemoveKeyOutputs(m: map<nat, seq<OutputRef>>, outs: seq<Output>, at: TransactionIndex, k: nat)
    : map<nat, seq<OutputRef>>
    requires k <= |outs|
  {
    if k == 0 then m else RemoveKeyOutputs(RemoveKeyOutput(m, outs[k - 1], at, k - 1), outs, at, k - 1)
  }

  function AddMultisigOutput(m: map<nat, seq<MultisigUsage>>, out: Output, at: TransactionIndex, o: nat)
    : map<nat, seq<MultisigUsage>>
  {
    if out.target.MultisigTarget? then Append(m, out.amount, MultisigUsage(at, o, false)) else m
  }

  function AddMultisigOutputs(m: map<nat, seq<MultisigUsage>>, outs: seq<Output>, at: TransactionIndex, k: nat)
    : map<nat, seq<MultisigUsage>>
    requires k <= |outs|
  {
    if k == 0 then m else AddMultisigOutput(AddMultisigOutputs(m, outs, at, k - 1), outs[k - 1], at, k - 1)
  }

  function RemoveMultisigOutput(m: map<nat, seq<MultisigUsage>>, out: Output, at: TransactionIndex, o: nat)
    : map<nat, seq<MultisigUsage>>
  {
    if !out.target.MultisigTarget? || out.amount !in m || m[out.amount] == []
       || m[out.amount][|m[out.amount]| - 1] != MultisigUsage(at, o, false)
    then m
    else DropLast(m, out.amount)
  }

  function RemoveMultisigOutputs(m: map<nat, seq<MultisigUsage>>, outs: seq<Output>, at: TransactionIndex, k: nat)
    : map<nat, seq<MultisigUsage>>
    requires k <= |outs|
  {
    if k == 0 then m else RemoveMultisigOutputs(RemoveMultisigOutput(m, outs[k - 1], at, k - 1), outs, at, k - 1)
  }

  lemma {:induction false} RemoveKeyOutputsUndoes(
    m: map<nat, seq<OutputRef>>, outs: seq<Output>, at: TransactionIndex, k: nat)
    requires k <= |outs| && NoEmptyVector(m)
    ensures NoEmptyVector(AddKeyOutputs(m, outs, at, k))
    ensures RemoveKeyOutputs(AddKeyOutputs(m, outs, at, k), outs, at, k) == m
  {
    if k != 0 {
      RemoveKeyOutputsUndoes(m, outs, at, k - 1);
      DropLastUndoesAppend(AddKeyOutputs(m, outs, at, k - 1), outs[k - 1].amount, OutputRef(at, k - 1));
    }
  }

  lemma {:induction false} RemoveMultisigOutputsUndoes(
    m: map<nat, seq<MultisigUsage>>, outs: seq<Output>, at: TransactionIndex, k: nat)
    requires k <= |outs| && NoEmptyVector(m)
    ensures NoEmptyVector(AddMultisigOutputs(m, outs, at, k))
    ensures RemoveMultisigOutputs(AddMultisigOutputs(m, outs, at, k), outs, at, k) == m
  {
    if k != 0 {
      RemoveMultisigOutputsUndoes(m, outs, at, k - 1);
      DropLastUndoesAppend(AddMultisigOutputs(m, outs, at, k - 1), outs[k - 1].amount, MultisigUsage(at, k - 1, false));
    }
  }

  // ---------------------------------------------------------------------------------------------
  // Inputs

  function KeyImages(inputs: seq<Input>): set<nat> {
    set i | 0 <= i < |inputs| && inputs[i].KeyInput? :: inputs[i].keyImage
  }

  lemma KeyImagesStep(inputs: seq<Input>, i: nat)
    requires i < |inputs|
    ensures KeyImages(inputs[..i + 1]) ==
            KeyImages(inputs[..i]) + if inputs[i].KeyInput? then {inputs[i].keyImage} else {}
  {
    var less, more := inputs[..i], inputs[..i + 1];
    assert more == less + [inputs[i]];
    forall k | k in KeyImages(less) ensures k in KeyImages(more) {
      var j :| 0 <= j < |less| && less[j].KeyInput? && less[j].keyImage == k;
      assert more[j] == less[j];
    }
    assert inputs[i].KeyInput? ==> more[i].keyImage in KeyImages(more);
  }

  /** The multisignature outputs an input list spends, as (amount, index) pairs. */
  function MultisigRefs(inputs: seq<Input>): set<(nat, nat)> {
    set i | 0 <= i < |inputs| && inputs[i].MultisigInput? :: (inputs[i].amount as nat, inputs[i].outputIndex)
  }

  lemma MultisigRefsStep(inputs: seq<Input>, i: nat)
    requires i < |inputs|
    ensures MultisigRefs(inputs[..i + 1]) ==
            if inputs[i].MultisigInput? then MultisigRefs(inputs[..i]) + {(inputs[i].amount as nat, inputs[i].outputIndex)}
            else MultisigRefs(inputs[..i])
  {
    var less, more := inputs[..i], inputs[..i + 1];
    assert more == less + [inputs[i]];
    forall r | r in MultisigRefs(less) ensures r in MultisigRefs(more) {
      var j :| 0 <= j < |less| && less[j].MultisigInput? && (less[j].amount as nat, less[j].outputIndex) == r;
      assert more[j] == less[j];
    }
    assert inputs[i].MultisigInput? ==> (more[i].amount as nat, more[i].outputIndex) in MultisigRefs(more);
  }

  function MarkVector(v: seq<MultisigUsage>, a: nat, refs: set<(nat, nat)>, used: bool): (r: seq<MultisigUsage>)
    ensures |r| == |v|
    ensures forall i | 0 <= i < |v| :: r[i] == if (a, i) in refs then v[i].(isUsed := used) else v[i]
  {
    seq(|v|, i requires 0 <= i < |v| => if (a, i) in refs then v[i].(isUsed := used) else v[i])
  }

  function Mark(m: map<nat, seq<MultisigUsage>>, refs: set<(nat, nat)>, used: bool): map<nat, seq<MultisigUsage>> {
    map a | a in m :: MarkVector(m[a], a, refs, used)
  }

  predicate InRange(m: map<nat, seq<MultisigUsage>>, ref: (nat, nat)) {
    ref.0 in m && ref.1 < |m[ref.0]|
  }

  predicate Unused(m: map<nat, seq<MultisigUsage>>, ref: (nat, nat)) {
    InRange(m, ref) && !m[ref.0][ref.1].isUsed
  }

  /** Clearing the flags restores the vectors if and only if no flag was set before: a second spend of the
      same output is forgotten when it is undone. */
  lemma UnmarkUndoesMark(m: map<nat, seq<MultisigUsage>>, refs: set<(nat, nat)>)
    requires forall ref | ref in refs :: InRange(m, ref)
    ensures Mark(Mark(m, refs, true), refs, false) == m <==> forall ref | ref in refs :: Unused(m, ref)
  {
    hide Mark;
    ClearAround(m, refs, {});
    assert {} + refs == refs;
    MarkNone(Mark(m, refs, true), false);
    ClearedIsSame(m, refs);
  }

  lemma MarkNone(m: map<nat, seq<MultisigUsage>>, used: bool)
    ensures Mark(m, {}, used) == m
  {
    hide Mark;
    MarkedKeys(m, {}, used);
    forall a | a in m ensures Mark(m, {}, used)[a] == m[a] {
      MarkedAt(m, {}, used, a, 0);
      forall i | 0 <= i < |m[a]| ensures Mark(m, {}, used)[a][i] == m[a][i] {
        MarkedAt(m, {}, used, a, i);
      }
    }
  }

  /** None of these outputs that exist is marked as spent. */
  ghost predicate UnspentIn(m: map<nat, seq<MultisigUsage>>, refs: set<(nat, nat)>) {
    forall ref | ref in refs && InRange(m, ref) :: Unused(m, ref)
  }

  lemma MarkedAt(m: map<nat, seq<MultisigUsage>>, refs: set<(nat, nat)>, used: bool, a: nat, i: nat)
    requires a in m
    ensures var m' := Mark(m, refs, used);
      && a in m' && |m'[a]| == |m[a]|
      && (i < |m[a]| ==> m'[a][i] == if (a, i) in refs then m[a][i].(isUsed := used) else m[a][i])
  {
  }

  lemma MarkedKeys(m: map<nat, seq<MultisigUsage>>, refs: set<(nat, nat)>, used: bool)
    ensures Mark(m, refs, used).Keys == m.Keys
  {
  }

  /** Clearing flags changes nothing if and only if none of them was set. */
  lemma ClearedIsSame(m: map<nat, seq<MultisigUsage>>, refs: set<(nat, nat)>)
    ensures Mark(m, refs, false) == m <==> UnspentIn(m, refs)
  {
    hide Mark;
    MarkedKeys(m, refs, false);
    var m' := Mark(m, refs, false);
    forall a | a in m ensures |m'[a]| == |m[a]| {
      MarkedAt(m, refs, false, a, 0);
    }
    if UnspentIn(m, refs) {
      forall a | a in m ensures m'[a] == m[a] {
        forall i | 0 <= i < |m[a]| ensures m'[a][i] == m[a][i] {
          MarkedAt(m, refs, false, a, i);
          assert (a, i) in refs ==> InRange(m, (a, i));
        }
      }
    } else {
      var ref :| ref in refs && InRange(m, ref) && !Unused(m, ref);
      MarkedAt(m, refs, false, ref.0, ref.1);
    }
  }

  /** Setting some flags, clearing others and then clearing the first is clearing all of them. */
  lemma ClearAround(m: map<nat, seq<MultisigUsage>>, refs: set<(nat, nat)>, more: set<(nat, nat)>)
    ensures Mark(Mark(Mark(m, refs, true), more, false), refs, false) == Mark(m, more + refs, false)
  {
    hide Mark;
    var m1 := Mark(m, refs, true);
    var m2 := Mark(m1, more, false);
    var m3, goal := Mark(m2, refs, false), Mark(m, more + refs, false);
    MarkedKeys(m, refs, true);
    MarkedKeys(m1, more, false);
    MarkedKeys(m2, refs, false);
    MarkedKeys(m, more + refs, false);
    forall a | a in m ensures m3[a] == goal[a] {
      MarkedFour(m, refs, more, a, 0);
      forall i | 0 <= i < |m[a]| ensures m3[a][i] == goal[a][i] {
        MarkedFour(m, refs, more, a, i);
      }
    }
  }

  lemma MarkedFour(m: map<nat, seq<MultisigUsage>>, refs: set<(nat, nat)>, more: set<(nat, nat)>, a: nat, i: nat)
    requires a in m
    ensures var m3, goal := Mark(Mark(Mark(m, refs, true), more, false), refs, false), Mark(m, more + refs, false);
      && a in m3 && a in goal && |m3[a]| == |m[a]| == |goal[a]| && (i < |m[a]| ==> m3[a][i] == goal[a][i])
  {
    hide Mark;
    MarkedAt(m, refs, true, a, i);
    MarkedAt(Mark(m, refs, true), more, false, a, i);
    MarkedAt(Mark(Mark(m, refs, true), more, false), refs, false, a, i);
    MarkedAt(m, more + refs, false, a, i);
  }

  lemma ClearedTwice(m: map<nat, seq<MultisigUsage>>, refs: set<(nat, nat)>, more: set<(nat, nat)>)
    ensures Mark(Mark(m, refs, false), more, false) == Mark(m, refs + more, false)
  {
    hide Mark;
    MarkedKeys(m, refs, false);
    MarkedKeys(Mark(m, refs, false), more, false);
    MarkedKeys(m, refs + more, false);
    var left, right := Mark(Mark(m, refs, false), more, false), Mark(m, refs + more, false);
    forall a | a in m ensures left[a] == right[a] {
      MarkedTwice(m, refs, more, a, 0);
      forall i | 0 <= i < |m[a]| ensures left[a][i] == right[a][i] {
        MarkedTwice(m, refs, more, a, i);
      }
    }
  }

  lemma MarkedTwice(m: map<nat, seq<MultisigUsage>>, refs: set<(nat, nat)>, more: set<(nat, nat)>, a: nat, i: nat)
    requires a in m
    ensures var left, right := Mark(Mark(m, refs, false), more, false), Mark(m, refs + more, false);
      && a in left && a in right && |left[a]| == |m[a]| == |right[a]| && (i < |m[a]| ==> left[a][i] == right[a][i])
  {
    hide Mark;
    MarkedAt(m, refs, false, a, i);
    MarkedAt(Mark(m, refs, false), more, false, a, i);
    MarkedAt(m, refs + more, false, a, i);
  }

  /** New outputs are unspent, so clearing flags commutes with adding outputs. */
  lemma {:induction false} ClearThenAdd(
    m: map<nat, seq<MultisigUsage>>, refs: set<(nat, nat)>, outs: seq<Output>, at: TransactionIndex, k: nat)
    requires k <= |outs|
    ensures Mark(AddMultisigOutputs(m, outs, at, k), refs, false) == AddMultisigOutputs(Mark(m, refs, false), outs, at, k)
  {
    hide Mark;
    if k != 0 {
      ClearThenAdd(m, refs, outs, at, k - 1);
      ClearThenAppend(AddMultisigOutputs(m, outs, at, k - 1), refs, outs[k - 1].amount,
        MultisigUsage(at, k - 1, false));
    }
  }

  lemma ClearThenAppend(m: map<nat, seq<MultisigUsage>>, refs: set<(nat, nat)>, a: nat, u: MultisigUsage)
    requires !u.isUsed
    ensures Mark(Append(m, a, u), refs, false) == Append(Mark(m, refs, false), a, u)
  {
    hide Mark;
    var more, less := Append(m, a, u), Mark(m, refs, false);
    MarkedKeys(more, refs, false);
    MarkedKeys(m, refs, false);
    forall b | b in more ensures Mark(more, refs, false)[b] == Append(less, a, u)[b] {
      MarkedAt(more, refs, false, b, 0);
      if b in m { MarkedAt(m, refs, false, b, 0); }
      forall i | 0 <= i < |more[b]| ensures Mark(more, refs, false)[b][i] == Append(less, a, u)[b][i] {
        MarkedAt(more, refs, false, b, i);
        if b in m { MarkedAt(m, refs, false, b, i); }
      }
    }
  }

  /** Setting flags after clearing others is the same as clearing, afterwards, those that were not set. */
  lemma MarkCleared(m: map<nat, seq<MultisigUsage>>, cleared: set<(nat, nat)>, refs: set<(nat, nat)>)
    ensures Mark(Mark(m, cleared, false), refs, true) == Mark(Mark(m, refs, true), cleared - refs, false)
  {
    hide Mark;
    var m1, m2 := Mark(m, cleared, false), Mark(m, refs, true);
    var left, right := Mark(m1, refs, true), Mark(m2, cleared - refs, false);
    MarkedKeys(m, cleared, false);
    MarkedKeys(m1, refs, true);
    MarkedKeys(m, refs, true);
    MarkedKeys(m2, cleared - refs, false);
    forall a | a in m ensures left[a] == right[a] {
      MarkedBoth(m, cleared, refs, a, 0);
      forall i | 0 <= i < |m[a]| ensures left[a][i] == right[a][i] {
        MarkedBoth(m, cleared, refs, a, i);
      }
    }
  }

  lemma MarkedBoth(m: map<nat, seq<MultisigUsage>>, cleared: set<(nat, nat)>, refs: set<(nat, nat)>, a: nat, i: nat)
    requires a in m
    ensures var left, right := Mark(Mark(m, cleared, false), refs, true), Mark(Mark(m, refs, true), cleared - refs, false);
      && a in left && a in right && |left[a]| == |m[a]| == |right[a]| && (i < |m[a]| ==> left[a][i] == right[a][i])
  {
    hide Mark;
    MarkedAt(m, cleared, false, a, i);
    MarkedAt(Mark(m, cleared, false), refs, true, a, i);
    MarkedAt(m, refs, true, a, i);
    MarkedAt(Mark(m, refs, true), cleared - refs, false, a, i);
  }

  /** Flags do not matter for positions. */
  lemma {:induction false} MarkedLengths(
    m: map<nat, seq<MultisigUsage>>, refs: set<(nat, nat)>, used: bool, outs: seq<Output>, at: TransactionIndex, k: nat, a: nat)
    requires k <= |outs|
    ensures |Vec(AddMultisigOutputs(Mark(m, refs, used), outs, at, k), a)| == |Vec(AddMultisigOutputs(m, outs, at, k), a)|
  {
    if k != 0 { MarkedLengths(m, refs, used, outs, at, k - 1, a); }
  }

  // ---------------------------------------------------------------------------------------------
  // One transaction

  function AddPayment(d: Derived, tx: Transaction): multiset<(nat, Hash)> {
    if d.indexed && tx.paymentId.Some? then d.payments + multiset{(tx.paymentId.value, OfTransaction(tx))} else d.payments
  }

  function RemovePayment(d: Derived, tx: Transaction): multiset<(nat, Hash)> {
    if d.indexed && tx.paymentId.Some? then d.payments - multiset{(tx.paymentId.value, OfTransaction(tx))} else d.payments
  }

  /** The effect of a transaction that is recorded: the loop body of `rebuildCache`. */
  function Apply(d: Derived, tx: Transaction, at: TransactionIndex): Derived {
    d.(transactions := d.transactions[OfTransaction(tx) := at],
       spentKeys := d.spentKeys + KeyImages(tx.inputs),
       outputs := AddKeyOutputs(d.outputs, tx.outputs, at, |tx.outputs|),
       multisigs := AddMultisigOutputs(Mark(d.multisigs, MultisigRefs(tx.inputs), true), tx.outputs, at, |tx.outputs|),
       payments := AddPayment(d, tx))
  }

  /** `pushTransaction` on a transaction whose inputs passed the checks: one that is recorded already is refused, and
      the refusal is not looked at. */
  function Record(d: Derived, tx: Transaction, at: TransactionIndex): Derived {
    if OfTransaction(tx) in d.transactions then d else Apply(d, tx, at)
  }

  /** `popTransaction`. The lookup of the index throws when the hash is absent; here the state is then kept. */
  function Unapply(d: Derived, tx: Transaction): Derived {
    if OfTransaction(tx) !in d.transactions then d else
    var at := d.transactions[OfTransaction(tx)];
    d.(transactions := d.transactions - {OfTransaction(tx)},
       spentKeys := d.spentKeys - KeyImages(tx.inputs),
       outputs := RemoveKeyOutputs(d.outputs, tx.outputs, at, |tx.outputs|),
       multisigs := Mark(RemoveMultisigOutputs(d.multisigs, tx.outputs, at, |tx.outputs|), MultisigRefs(tx.inputs), false),
       payments := RemovePayment(d, tx))
  }

  /** The position in its vector that `pushTransaction` stores for output `o`, cut to 32 bits. */
  function NextPosition(
    keys: map<nat, seq<OutputRef>>, multisigs: map<nat, seq<MultisigUsage>>, outs: seq<Output>, at: TransactionIndex,
    o: nat): nat
    requires o < |outs|
  {
    (if outs[o].target.KeyTarget?
     then |Vec(AddKeyOutputs(keys, outs, at, o), outs[o].amount)|
     else |Vec(AddMultisigOutputs(multisigs, outs, at, o), outs[o].amount)|) % TWO32
  }

  function GlobalIndex(d: Derived, outs: seq<Output>, at: TransactionIndex, o: nat): nat
    requires o < |outs|
  {
    NextPosition(d.outputs, d.multisigs, outs, at, o)
  }

  function GlobalIndexes(d: Derived, tx: Transaction, at: TransactionIndex): seq<nat> {
    seq(|tx.outputs|, o requires 0 <= o < |tx.outputs| => GlobalIndex(d, tx.outputs, at, o))
  }

  /** The global indexes that `pushTransaction` stores; a refused transaction gets none. */
  function StoredIndexes(d: Derived, tx: Transaction, at: TransactionIndex): seq<nat> {
    if OfTransaction(tx) in d.transactions then [] else GlobalIndexes(d, tx, at)
  }

  /** `popTransaction` is defined: the transaction is recorded, and the multisignature outputs it spent exist once its
      own outputs are removed. */
  ghost predicate CanPop(d: Derived, tx: Transaction) {
    && OfTransaction(tx) in d.transactions
    && var m := RemoveMultisigOutputs(d.multisigs, tx.outputs, d.transactions[OfTransaction(tx)], |tx.outputs|);
       forall ref | ref in MultisigRefs(tx.inputs) :: InRange(m, ref)
  }

  // ---------------------------------------------------------------------------------------------
  // Spending

  ghost predicate DistinctKeyImages(inputs: seq<Input>) {
    forall i, j | 0 <= i < j < |inputs| && inputs[i].KeyInput? && inputs[j].KeyInput? ::
      inputs[i].keyImage != inputs[j].keyImage
  }

  ghost predicate DistinctMultisigs(inputs: seq<Input>) {
    forall i, j | 0 <= i < j < |inputs| && inputs[i].MultisigInput? && inputs[j].MultisigInput? ::
      (inputs[i].amount, inputs[i].outputIndex) != (inputs[j].amount, inputs[j].outputIndex)
  }

  /** The input can be spent on top of `d`: its key image is new, or its multisignature output exists unspent. */
  predicate CanSpend(d: Derived, input: Input) {
    match input
    case BaseInput(_) => true
    case KeyInput(_, _, image) => image !in d.spentKeys
    case MultisigInput(a, _, i) => Unused(d.multisigs, (a, i))
  }

  predicate IsSpent(d: Derived, input: Input) {
    match input
    case BaseInput(_) => true
    case KeyInput(_, _, image) => image in d.spentKeys
    case MultisigInput(a, _, i) => InRange(d.multisigs, (a, i)) && d.multisigs[a][i].isUsed
  }

  ghost predicate Spendable(d: Derived, tx: Transaction) {
    && OfTransaction(tx) !in d.transactions
    && DistinctKeyImages(tx.inputs)
    && DistinctMultisigs(tx.inputs)
    && forall i | 0 <= i < |tx.inputs| :: CanSpend(d, tx.inputs[i])
  }

  /** The input can be recorded on top of `d`: its key image is new, or its multisignature output exists. */
  predicate CanRecord(d: Derived, input: Input) {
    match input
    case BaseInput(_) => true
    case KeyInput(_, _, image) => image !in d.spentKeys
    case MultisigInput(a, _, i) => InRange(d.multisigs, (a, i))
  }

  /** Recording the transaction succeeds, whether or not its multisignature outputs are spent already. */
  ghost predicate Pushable(d: Derived, tx: Transaction) {
    && OfTransaction(tx) !in d.transactions
    && DistinctKeyImages(tx.inputs)
    && DistinctMultisigs(tx.inputs)
    && forall i | 0 <= i < |tx.inputs| :: CanRecord(d, tx.inputs[i])
  }

  lemma SpendableIsPushable(d: Derived, tx: Transaction)
    requires Spendable(d, tx)
    ensures Pushable(d, tx) && UnspentIn(d.multisigs, MultisigRefs(tx.inputs))
  {
    forall i | 0 <= i < |tx.inputs| ensures CanRecord(d, tx.inputs[i]) {
      assert CanSpend(d, tx.inputs[i]);
    }
    forall ref | ref in MultisigRefs(tx.inputs) && InRange(d.multisigs, ref) ensures Unused(d.multisigs, ref) {
      var i :| 0 <= i < |tx.inputs| && tx.inputs[i].MultisigInput?
               && ref == (tx.inputs[i].amount, tx.inputs[i].outputIndex);
      assert CanSpend(d, tx.inputs[i]);
    }
  }

  lemma PushableSpends(d: Derived, tx: Transaction)
    requires Pushable(d, tx)
    ensures KeyImages(tx.inputs) !! d.spentKeys
    ensures forall ref | ref in MultisigRefs(tx.inputs) :: InRange(d.multisigs, ref)
  {
    forall ref | ref in MultisigRefs(tx.inputs) ensures InRange(d.multisigs, ref) {
      var i :| 0 <= i < |tx.inputs| && tx.inputs[i].MultisigInput?
               && ref == (tx.inputs[i].amount, tx.inputs[i].outputIndex);
      assert CanRecord(d, tx.inputs[i]);
    }
    forall image | image in KeyImages(tx.inputs) ensures image !in d.spentKeys {
      var i :| 0 <= i < |tx.inputs| && tx.inputs[i].KeyInput? && image == tx.inputs[i].keyImage;
      assert CanRecord(d, tx.inputs[i]);
    }
  }

  ghost predicate WellFormed(d: Derived) {
    NoEmptyVector(d.outputs) && NoEmptyVector(d.multisigs)
  }

  lemma MarkKeepsShape(m: map<nat, seq<MultisigUsage>>, refs: set<(nat, nat)>, used: bool)
    requires NoEmptyVector(m)
    ensures NoEmptyVector(Mark(m, refs, used))
  {
  }

  /** The state with the flags of `refs` cleared. */
  function Clear(d: Derived, refs: set<(nat, nat)>): Derived {
    d.(multisigs := Mark(d.multisigs, refs, false))
  }

  lemma ClearNothing(d: Derived)
    ensures Clear(d, {}) == d
  {
    MarkNone(d.multisigs, false);
  }

  lemma ClearTwice(d: Derived, refs: set<(nat, nat)>, more: set<(nat, nat)>)
    ensures Clear(Clear(d, refs), more) == Clear(d, refs + more)
  {
    hide Mark;
    ClearedTwice(d.multisigs, refs, more);
  }

  lemma ClearIsIdentity(d: Derived, refs: set<(nat, nat)>)
    ensures Clear(d, refs) == d <==> UnspentIn(d.multisigs, refs)
  {
    hide Mark, UnspentIn;
    ClearedIsSame(d.multisigs, refs);
  }

  /** Removing a transaction right after adding it gives the state before it, down to erased empty vectors, with
      the flags of its multisignature inputs cleared; flags that were cleared in between stay cleared. */
  lemma UnapplyClears(d: Derived, tx: Transaction, at: TransactionIndex, refs: set<(nat, nat)>)
    requires WellFormed(d) && OfTransaction(tx) !in d.transactions && KeyImages(tx.inputs) !! d.spentKeys
    ensures WellFormed(Apply(d, tx, at))
    ensures Unapply(Clear(Apply(d, tx, at), refs), tx) == Clear(d, refs + MultisigRefs(tx.inputs))
  {
    hide Mark, MultisigRefs, KeyImages, AddKeyOutputs, RemoveKeyOutputs, AddMultisigOutputs, RemoveMultisigOutputs,
         NoEmptyVector;
    var own := MultisigRefs(tx.inputs);
    var marked := Mark(d.multisigs, own, true);
    var kept := Mark(marked, refs, false);
    MarkKeepsShape(d.multisigs, own, true);
    MarkKeepsShape(marked, refs, false);
    RemoveKeyOutputsUndoes(d.outputs, tx.outputs, at, |tx.outputs|);
    RemoveMultisigOutputsUndoes(marked, tx.outputs, at, |tx.outputs|);
    RemoveMultisigOutputsUndoes(kept, tx.outputs, at, |tx.outputs|);
    ClearThenAdd(marked, refs, tx.outputs, at, |tx.outputs|);
    ClearAround(d.multisigs, own, refs);
    var back := Unapply(Clear(Apply(d, tx, at), refs), tx);
    assert back.transactions == d.transactions;
    assert back.spentKeys == d.spentKeys;
    assert back.payments == d.payments;
  }

  /** So it restores the derived state if and only if every multisignature output it spends was unspent. */
  lemma UnapplyUndoesApply(d: Derived, tx: Transaction, at: TransactionIndex)
    requires WellFormed(d)
    requires OfTransaction(tx) !in d.transactions
    requires KeyImages(tx.inputs) !! d.spentKeys
    requires forall ref | ref in MultisigRefs(tx.inputs) :: InRange(d.multisigs, ref)
    ensures WellFormed(Apply(d, tx, at))
    ensures Unapply(Apply(d, tx, at), tx) == d
            <==> forall ref | ref in MultisigRefs(tx.inputs) :: Unused(d.multisigs, ref)
  {
    hide Mark, MultisigRefs, KeyImages, Apply, Unapply, Clear, WellFormed;
    ClearNothing(Apply(d, tx, at));
    UnapplyClears(d, tx, at, {});
    assert {} + MultisigRefs(tx.inputs) == MultisigRefs(tx.inputs);
    ClearIsIdentity(d, MultisigRefs(tx.inputs));
  }

  lemma SpendableUndo(d: Derived, tx: Transaction, at: TransactionIndex)
    requires WellFormed(d) && Spendable(d, tx)
    ensures WellFormed(Apply(d, tx, at))
    ensures Unapply(Apply(d, tx, at), tx) == d
  {
    hide Apply, Unapply, Spendable, WellFormed, MultisigRefs, KeyImages;
    SpendableIsPushable(d, tx);
    PushableSpends(d, tx);
    UnapplyUndoesApply(d, tx, at);
  }

  /** Recording a transaction sets its flags whether or not flags were cleared before. */
  lemma RecordCleared(d: Derived, cleared: set<(nat, nat)>, tx: Transaction, at: TransactionIndex)
    requires OfTransaction(tx) !in d.transactions
    ensures Record(Clear(d, cleared), tx, at) == Clear(Record(d, tx, at), cleared - MultisigRefs(tx.inputs))
    ensures StoredIndexes(Clear(d, cleared), tx, at) == StoredIndexes(d, tx, at)
  {
    hide Mark, MultisigRefs, KeyImages, AddKeyOutputs, AddMultisigOutputs;
    var own := MultisigRefs(tx.inputs);
    MarkCleared(d.multisigs, cleared, own);
    ClearThenAdd(Mark(d.multisigs, own, true), cleared - own, tx.outputs, at, |tx.outputs|);
    forall o | 0 <= o < |tx.outputs|
      ensures GlobalIndex(Clear(d, cleared), tx.outputs, at, o) == GlobalIndex(d, tx.outputs, at, o)
    {
      MarkedLengths(d.multisigs, cleared, false, tx.outputs, at, o, tx.outputs[o].amount);
    }
  }

  // ---------------------------------------------------------------------------------------------
  // pushTransaction with its failures

  datatype PushOutcome = Pushed | Rejected | Threw

  predicate Clash(spent: set<nat>, inputs: seq<Input>, i: nat)
    requires i < |inputs|
  {
    inputs[i].KeyInput? && inputs[i].keyImage in spent + KeyImages(inputs[..i])
  }

  /** The first input from `i` on whose key image cannot be inserted, or the input count. */
  function FirstClash(spent: set<nat>, inputs: seq<Input>, i: nat): (r: nat)
    requires i <= |inputs|
    ensures i <= r <= |inputs|
    ensures r < |inputs| ==> Clash(spent, inputs, r)
    ensures forall j | i <= j < r :: !Clash(spent, inputs, j)
    decreases |inputs| - i
  {
    if i == |inputs| || Clash(spent, inputs, i) then i else FirstClash(spent, inputs, i + 1)
  }

  predicate AllKeyInputs(inputs: seq<Input>) {
    forall i | 0 <= i < |inputs| :: inputs[i].KeyInput?
  }

  /** One past the last input that is not a key input. */
  function AfterLastOther(inputs: seq<Input>): (r: nat)
    ensures r <= |inputs|
    ensures r == 0 <==> AllKeyInputs(inputs)
    ensures forall i | r <= i < |inputs| :: inputs[i].KeyInput?
    ensures r > 0 ==> !inputs[r - 1].KeyInput?
  {
    if inputs == [] then 0
    else if !inputs[|inputs| - 1].KeyInput? then |inputs|
    else AfterLastOther(inputs[..|inputs| - 1])
  }

  /** `pushTransaction`. When a key image clashes, the earlier ones are erased last to first; the erasing loop
      takes every earlier input for a key input, and throws at the first one that is not. */
  ghost function PushTransaction(d: Derived, tx: Transaction, at: TransactionIndex): (Derived, PushOutcome) {
    if OfTransaction(tx) in d.transactions || !DistinctMultisigs(tx.inputs) then
      (d, Rejected)
    else
      var i := FirstClash(d.spentKeys, tx.inputs, 0);
      if i == |tx.inputs| then
        (Apply(d, tx, at), Pushed)
      else if AllKeyInputs(tx.inputs[..i]) then
        (d, Rejected)
      else
        (d.(transactions := d.transactions[OfTransaction(tx) := at],
            spentKeys := d.spentKeys + KeyImages(tx.inputs[..AfterLastOther(tx.inputs[..i])])), Threw)
  }

  lemma PushableIsPushed(d: Derived, tx: Transaction, at: TransactionIndex)
    requires Pushable(d, tx)
    ensures PushTransaction(d, tx, at) == (Apply(d, tx, at), Pushed)
  {
    hide Apply, KeyImages;
    PushableSpends(d, tx);
    NewIsRecorded(d, tx, at);
  }

  /** On any state, a transaction with new and distinct key images and distinct multisignature inputs never makes
      `pushTransaction` throw: it is pushed, or refused because it is recorded already. */
  lemma NewIsRecorded(d: Derived, tx: Transaction, at: TransactionIndex)
    requires DistinctKeyImages(tx.inputs) && DistinctMultisigs(tx.inputs) && KeyImages(tx.inputs) !! d.spentKeys
    ensures PushTransaction(d, tx, at) ==
            (Record(d, tx, at), if OfTransaction(tx) in d.transactions then Rejected else Pushed)
  {
    hide Apply;
    forall i | 0 <= i < |tx.inputs| ensures !Clash(d.spentKeys, tx.inputs, i) {
      if tx.inputs[i].KeyInput? {
        assert tx.inputs[i].keyImage in KeyImages(tx.inputs);
        forall j | 0 <= j < i && tx.inputs[..i][j].KeyInput?
          ensures tx.inputs[..i][j].keyImage != tx.inputs[i].keyImage
        {
          assert tx.inputs[..i][j] == tx.inputs[j];
        }
      }
    }
  }

  /** A transaction that is not recorded leaves the derived state as it was if and only if no multisignature
      or base input precedes the clashing key image. */
  lemma RejectionUndoes(d: Derived, tx: Transaction, at: TransactionIndex)
    requires PushTransaction(d, tx, at).1 != Pushed
    ensures PushTransaction(d, tx, at).0 == d <==>
            (OfTransaction(tx) in d.transactions || !DistinctMultisigs(tx.inputs)
             || AllKeyInputs(tx.inputs[..FirstClash(d.spentKeys, tx.inputs, 0)]))
  {
    if PushTransaction(d, tx, at).1 == Threw {
      assert OfTransaction(tx) in PushTransaction(d, tx, at).0.transactions;
    }
  }

  /** The key input `j` is in front of the first clash, with an input of another kind between the two. */
  predicate Stuck(spent: set<nat>, inputs: seq<Input>, j: nat, image: nat) {
    && j < |inputs| && inputs[j].KeyInput? && inputs[j].keyImage == image
    && exists q | j < q < |inputs| :: !inputs[q].KeyInput? && forall c | 0 <= c <= q :: !Clash(spent, inputs, c)
  }

  /** What an exception leaves: the transaction is recorded, the key images in front of the last input of another kind
      before the clash are spent, and nothing else changed. */
  lemma ThrewLeaves(d: Derived, tx: Transaction, at: TransactionIndex)
    requires PushTransaction(d, tx, at).1 == Threw
    ensures var d' := PushTransaction(d, tx, at).0;
      && d'.transactions == d.transactions[OfTransaction(tx) := at]
      && d'.outputs == d.outputs && d'.multisigs == d.multisigs && d'.payments == d.payments && d'.indexed == d.indexed
      && forall image :: image in d'.spentKeys <==>
                           image in d.spentKeys || exists j: nat :: Stuck(d.spentKeys, tx.inputs, j, image)
  {
    var i := FirstClash(d.spentKeys, tx.inputs, 0);
    var front := tx.inputs[..i];
    var n := AfterLastOther(front);
    var kept := KeyImages(tx.inputs[..n]);
    forall image ensures image in kept <==> exists j: nat :: Stuck(d.spentKeys, tx.inputs, j, image) {
      if image in kept {
        var j :| 0 <= j < n && tx.inputs[..n][j].KeyInput? && tx.inputs[..n][j].keyImage == image;
        assert !front[n - 1].KeyInput? && j < n - 1;
        assert Stuck(d.spentKeys, tx.inputs, j, image);
      }
      if j: nat :| Stuck(d.spentKeys, tx.inputs, j, image) {
        var q :| j < q < |tx.inputs| && !tx.inputs[q].KeyInput?
                 && forall c | 0 <= c <= q :: !Clash(d.spentKeys, tx.inputs, c);
        assert q < i;
        assert front[q] == tx.inputs[q];
        assert tx.inputs[..n][j] == tx.inputs[j];
      }
    }
  }

  /** A transaction is pushed if and only if it is not recorded and spends no key image and no multisignature output
      twice, nor a key image that is spent already. */
  lemma PushedIff(d: Derived, tx: Transaction, at: TransactionIndex)
    ensures PushTransaction(d, tx, at).1 == Pushed <==>
              && OfTransaction(tx) !in d.transactions && DistinctMultisigs(tx.inputs) && DistinctKeyImages(tx.inputs)
              && KeyImages(tx.inputs) !! d.spentKeys
  {
    hide Apply;
    if OfTransaction(tx) !in d.transactions && DistinctMultisigs(tx.inputs) {
      if PushTransaction(d, tx, at).1 == Pushed {
        assert forall i | 0 <= i < |tx.inputs| :: !Clash(d.spentKeys, tx.inputs, i);
        forall image | image in KeyImages(tx.inputs) ensures image !in d.spentKeys {
          var i :| 0 <= i < |tx.inputs| && tx.inputs[i].KeyInput? && tx.inputs[i].keyImage == image;
          assert !Clash(d.spentKeys, tx.inputs, i);
        }
        forall i, j | 0 <= i < j < |tx.inputs| && tx.inputs[i].KeyInput? && tx.inputs[j].KeyInput?
          ensures tx.inputs[i].keyImage != tx.inputs[j].keyImage
        {
          assert !Clash(d.spentKeys, tx.inputs, j);
          assert tx.inputs[..j][i] == tx.inputs[i];
        }
      } else if DistinctKeyImages(tx.inputs) && KeyImages(tx.inputs) !! d.spentKeys {
        NewIsRecorded(d, tx, at);
      }
    }
  }

  /** Such a transaction exists: a multisignature input, then a key image that is already spent. */
  lemma RejectionExample(at: TransactionIndex)
    ensures var tx := Transaction(0, [MultisigInput(1, 1, 0), KeyInput(1, [0], 7)], [], None, 0, 0);
      var d := EmptyDerived(false).(spentKeys := {7});
      PushTransaction(d, tx, at).1 == Threw && PushTransaction(d, tx, at).0 != d
  {
    var tx := Transaction(0, [MultisigInput(1, 1, 0), KeyInput(1, [0], 7)], [], None, 0, 0);
    var d := EmptyDerived(false).(spentKeys := {7});
    assert Clash({7}, tx.inputs, 1) && !Clash({7}, tx.inputs, 0);
    assert FirstClash({7}, tx.inputs, 0) == 1;
    assert !tx.inputs[..1][0].KeyInput?;
  }
}
