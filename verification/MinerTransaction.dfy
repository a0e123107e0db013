/** The amounts of a miner transaction: decimal decomposition, merging and the governance share. */
module MinerTransaction {
  import opened ChainTypes

  function Power10(k: nat): (p: nat)
    ensures p >= 1
  {
    if k == 0 then 1 else 10 * Power10(k - 1)
  }

  function Sum(xs: seq<u64>): nat {
    if xs == [] then 0 else Sum(xs[..|xs| - 1]) + xs[|xs| - 1]
  }

  lemma SumAppend(xs: seq<u64>, x: u64)
    ensures Sum(xs + [x]) == Sum(xs) + x
  {
    assert (xs + [x])[..|xs|] == xs;
  }

  lemma {:induction false} SumConcat(xs: seq<u64>, ys: seq<u64>)
    ensures Sum(xs + ys) == Sum(xs) + Sum(ys)
    decreases |ys|
  {
    if ys == [] {
      assert xs + ys == xs;
    } else {
      SumConcat(xs, ys[..|ys| - 1]);
      assert xs + ys == xs + ys[..|ys| - 1] + [ys[|ys| - 1]];
      SumAppend(xs + ys[..|ys| - 1], ys[|ys| - 1]);
    }
  }

  /** `x` units of the decimal place `k`. */
  function Scaled(x: nat, k: nat): (r: nat)
  {
    MulNonNegative(x, Power10(k));
    x * Power10(k)
  }

  lemma MulNonNegative(x: nat, y: nat)
    ensures x * y >= 0
  {
  }

  lemma MulAtLeast(x: nat, y: nat)
    requires x >= 1
    ensures x * y >= y
  {
  }

  ghost predicate IsDigit(chunk: nat, k: nat) {
    exists d | 1 <= d <= 9 :: chunk == Scaled(d, k)
  }

  /** `chunks[i]` is one nonzero decimal digit at position `places[i]`; the positions grow. */
  ghost predicate Digits(chunks: seq<u64>, places: seq<nat>) {
    && |chunks| == |places|
    && (forall i, j | 0 <= i < j < |places| :: places[i] < places[j])
    && forall i | 0 <= i < |chunks| :: IsDigit(chunks[i], places[i])
  }

  /** The decomposition of an amount: at most `threshold` of low digits as dust, which cannot be extended, and the other
      digits one by one. */
  ghost predicate Decomposes(amount: nat, threshold: nat, dust: nat, chunks: seq<u64>, places: seq<nat>) {
    && Digits(chunks, places)
    && dust + Sum(chunks) == amount
    && dust <= threshold
    && (chunks != [] ==> dust < Power10(places[0]) && dust + chunks[0] > threshold)
  }

  lemma ScaleSplits(q: nat, d: nat, p: nat)
    ensures (10 * q + d) * p == d * p + q * (10 * p)
  {
    assert (10 * q) * p == q * (10 * p);
  }

  /** Splitting off the lowest digit. */
  lemma LowestDigit(rest: nat, k: nat)
    requires rest > 0
    ensures Scaled(rest, k) == Scaled(rest % 10, k) + Scaled(rest / 10, k + 1)
    ensures rest / 10 > 0 ==> Scaled(rest / 10, k + 1) >= Power10(k + 1)
    ensures rest / 10 == 0 ==> Scaled(rest / 10, k + 1) == 0
    ensures rest % 10 > 0 ==> Scaled(rest % 10, k) >= Power10(k)
    ensures rest % 10 == 0 ==> Scaled(rest % 10, k) == 0
    ensures Scaled(rest % 10, k) + Power10(k) <= Power10(k + 1)
    ensures rest % 10 > 0 ==> IsDigit(Scaled(rest % 10, k), k)
  {
    var p := Power10(k);
    ScaleSplits(rest / 10, rest % 10, p);
    assert rest == 10 * (rest / 10) + rest % 10;
    if rest / 10 > 0 { MulAtLeast(rest / 10, Power10(k + 1)); }
    if rest % 10 > 0 { MulAtLeast(rest % 10, p); }
    var d := rest % 10;
    assert d * p + p <= 10 * p by {
      MulNonNegative(9 - d, p);
      assert (9 - d) * p == 9 * p - d * p;
    }
  }

  /** What the loop knows: `rest` is still to be split at place `k`; the lower digits are in `low` and `chunks`. */
  ghost predicate Splitting(
    amount: nat, threshold: nat, rest: nat, order: nat, low: nat, chunks: seq<u64>, places: seq<nat>, k: nat)
  {
    && Scaled(rest, k) + low + Sum(chunks) == amount
    && (rest == 0 ==> Scaled(rest, k) == 0)
    && (rest != 0 ==> order == Power10(k) && Scaled(rest, k) >= Power10(k))
    && low <= threshold && low < Power10(k)
    && Digits(chunks, places)
    && (forall i | 0 <= i < |places| :: places[i] < k)
    && (chunks != [] ==>
          low < Power10(places[0]) && low + chunks[0] > threshold && low + Power10(k) > threshold)
  }

  lemma ExtendDigits(chunks: seq<u64>, places: seq<nat>, chunk: u64, k: nat)
    requires Digits(chunks, places) && (forall i | 0 <= i < |places| :: places[i] < k) && IsDigit(chunk, k)
    ensures Digits(chunks + [chunk], places + [k])
  {
  }

  /** The lowest digit times its order, in 64 bits. */
  function Chunk(rest: nat, order: nat): u64 {
    Wrap64((rest % 10) * order)
  }

  /** The lowest digit of `rest` as the code computes it. */
  lemma NextDigit(
    amount: u64, threshold: nat, rest: nat, order: nat, low: nat, chunks: seq<u64>, places: seq<nat>, k: nat)
    requires Splitting(amount, threshold, rest, order, low, chunks, places, k) && rest != 0
    ensures Chunk(rest, order) == Scaled(rest % 10, k) && low + Scaled(rest % 10, k) <= amount
    ensures Wrap64(low + Scaled(rest % 10, k)) == low + Scaled(rest % 10, k)
    ensures rest / 10 != 0 ==> Wrap64(order * 10) == Power10(k + 1)
  {
    hide Scaled, Power10, Digits, Sum, Chunk, Wrap64;
    LowestDigit(rest, k);
    assert Scaled(rest % 10, k) <= amount && low + Scaled(rest % 10, k) <= amount;
    ExactChunk(rest, order, k);
    NoWrap(low + Scaled(rest % 10, k));
    if rest / 10 != 0 {
      assert Power10(k + 1) <= amount;
      ExactOrder(order, k);
    }
  }

  lemma ExactChunk(rest: nat, order: nat, k: nat)
    requires order == Power10(k) && Scaled(rest % 10, k) < TWO64
    ensures Chunk(rest, order) == Scaled(rest % 10, k)
  {
  }

  lemma ExactOrder(order: nat, k: nat)
    requires order == Power10(k) && Power10(k + 1) < TWO64
    ensures Wrap64(order * 10) == Power10(k + 1)
  {
  }

  /** A digit that fits goes to the dust; once a chunk was emitted only zeros fit. */
  lemma DigitToDust(
    amount: u64, threshold: nat, rest: nat, order: nat, low: nat, chunks: seq<u64>, places: seq<nat>, k: nat)
    requires Splitting(amount, threshold, rest, order, low, chunks, places, k) && rest != 0
    requires low + Scaled(rest % 10, k) <= threshold
    ensures chunks != [] ==> Scaled(rest % 10, k) == 0
    ensures Splitting(amount, threshold, rest / 10, Wrap64(order * 10), low + Scaled(rest % 10, k), chunks, places, k + 1)
  {
    hide Scaled, Power10, Digits, Sum, Wrap64;
    LowestDigit(rest, k);
    NextDigit(amount, threshold, rest, order, low, chunks, places, k);
    PowersGrow(k);
  }

  lemma PowersGrow(k: nat)
    ensures Power10(k) < Power10(k + 1)
  {
  }

  lemma DigitToChunk(
    amount: u64, threshold: nat, rest: nat, order: nat, low: nat, chunks: seq<u64>, places: seq<nat>, k: nat)
    requires Splitting(amount, threshold, rest, order, low, chunks, places, k) && rest != 0
    requires low + Scaled(rest % 10, k) > threshold
    ensures 0 < Scaled(rest % 10, k) < TWO64
    ensures Splitting(
              amount, threshold, rest / 10, Wrap64(order * 10), low, chunks + [Scaled(rest % 10, k)], places + [k], k + 1)
  {
    hide Scaled, Power10, Digits, Sum, Wrap64, IsDigit;
    LowestDigit(rest, k);
    NextDigit(amount, threshold, rest, order, low, chunks, places, k);
    PowersGrow(k);
    var chunk: u64 := Scaled(rest % 10, k);
    SumAppend(chunks, chunk);
    ExtendDigits(chunks, places, chunk, k);
  }

  /** The calls of the handlers: the dust, if it was handled, then the chunks. */
  function Emitted(handled: bool, dust: nat, chunks: seq<u64>): seq<u64>
    requires dust < TWO64
  {
    (if handled then [dust as u64] else []) + chunks
  }

  /** The handlers called so far: the dust has been handled as soon as there is some and a chunk follows it. */
  ghost predicate Emitting(handled: bool, low: u64, chunks: seq<u64>, emitted: seq<u64>) {
    (handled <==> chunks != [] && low != 0) && emitted == Emitted(handled, low, chunks)
  }

  lemma EmitNothing(handled: bool, low: u64, chunks: seq<u64>, emitted: seq<u64>, more: u64)
    requires Emitting(handled, low, chunks, emitted) && low + more < TWO64 && (chunks != [] ==> more == 0)
    ensures Emitting(handled, low + more, chunks, emitted)
  {
  }

  lemma EmitChunk(handled: bool, low: u64, chunks: seq<u64>, emitted: seq<u64>, chunk: u64)
    requires Emitting(handled, low, chunks, emitted)
    ensures Emitting(handled || low != 0, low, chunks + [chunk],
                     (if !handled && low != 0 then emitted + [low] else emitted) + [chunk])
  {
  }

  lemma EmitLast(handled: bool, low: u64, chunks: seq<u64>, emitted: seq<u64>)
    requires Emitting(handled, low, chunks, emitted)
    ensures (if !handled && low != 0 then emitted + [low] else emitted) == Emitted(low != 0, low, chunks)
  {
  }

  /** `decompose_amount_into_digits`; `emitted` lists the calls of the two handlers in order. */
  method DecomposeAmount(amount: u64, threshold: u64)
    returns (emitted: seq<u64>, ghost dust: nat, ghost chunks: seq<u64>, ghost places: seq<nat>)
    ensures Decomposes(amount, threshold, dust, chunks, places)
    ensures dust < TWO64 && emitted == Emitted(dust != 0, dust, chunks)
    ensures Sum(emitted) == amount
  {
    hide Scaled, Sum, Splitting, Decomposes, Wrap64, Power10, Emitted, Chunk, Emitting;
    emitted, dust, chunks, places := [], 0, [], [];
    NothingDecomposed(threshold);
    if amount == 0 { return; }
    var handled := false;
    var low: u64 := 0;
    var order: u64 := 1;
    var rest: u64 := amount;
    ghost var k := 0;
    StartSplitting(amount, threshold);
    while rest != 0
      invariant Splitting(amount, threshold, rest, order, low, chunks, places, k)
      invariant Emitting(handled, low, chunks, emitted)
    {
      NextDigit(amount, threshold, rest, order, low, chunks, places, k);
      var chunk := Chunk(rest, order);
      if Wrap64(low + chunk) <= threshold {
        DigitToDust(amount, threshold, rest, order, low, chunks, places, k);
        EmitNothing(handled, low, chunks, emitted, chunk);
        low := Wrap64(low + chunk);
      } else {
        DigitToChunk(amount, threshold, rest, order, low, chunks, places, k);
        EmitChunk(handled, low, chunks, emitted, chunk);
        if !handled && low != 0 {
          emitted := emitted + [low];
          handled := true;
        }
        if chunk != 0 {
          emitted := emitted + [chunk];
        }
        chunks := chunks + [chunk];
        places := places + [k];
      }
      rest := rest / 10;
      order := Wrap64(order * 10);
      k := k + 1;
    }
    EmitLast(handled, low, chunks, emitted);
    if !handled && low != 0 {
      emitted := emitted + [low];
    }
    dust := low;
    DoneSplitting(amount, threshold, order, low, chunks, places, k);
    SumOfParts(low, chunks);
  }

  lemma NothingDecomposed(threshold: nat)
    ensures Decomposes(0, threshold, 0, [], []) && Sum([]) == 0
    ensures Emitted(false, 0, []) == [] && forall low: u64 :: Emitting(false, low, [], [])
  {
  }

  lemma DoneSplitting(amount: u64, threshold: nat, order: nat, low: nat, chunks: seq<u64>, places: seq<nat>, k: nat)
    requires Splitting(amount, threshold, 0, order, low, chunks, places, k)
    ensures Decomposes(amount, threshold, low, chunks, places) && low + Sum(chunks) == amount
  {
  }

  lemma SumOfParts(low: u64, chunks: seq<u64>)
    ensures Sum(Emitted(low != 0, low, chunks)) == low + Sum(chunks)
  {
    var part: seq<u64> := if low == 0 then [] else [low];
    SumConcat(part, chunks);
    SumAppend([], low);
    assert [] + [low] == [low];
  }

  lemma StartSplitting(amount: u64, threshold: nat)
    requires amount > 0
    ensures Splitting(amount, threshold, amount, 1, 0, [], [], 0)
  {
  }

  /** The merge of the last two amounts until at most `maxOuts` are left. */
  method MergeOutputs(amounts: seq<u64>, maxOuts: nat) returns (merged: seq<u64>)
    requires maxOuts >= 1 && Sum(amounts) < TWO64
    ensures Sum(merged) == Sum(amounts)
    ensures |merged| == if maxOuts < |amounts| then maxOuts else |amounts|
    ensures forall i | 0 <= i < |merged| - 1 :: merged[i] == amounts[i]
  {
    merged := amounts;
    while maxOuts < |merged|
      invariant |merged| <= |amounts| && (|amounts| > maxOuts ==> |merged| >= maxOuts)
                && (|amounts| <= maxOuts ==> merged == amounts)
      invariant Sum(merged) == Sum(amounts)
      invariant forall i | 0 <= i < |merged| - 1 :: merged[i] == amounts[i]
      decreases |merged|
    {
      var n := |merged|;
      var head := merged[..n - 2];
      assert merged[..n - 1] == head + [merged[n - 2]];
      SumAppend(head, merged[n - 2]);
      var last := Wrap64(merged[n - 2] + merged[n - 1]);
      SumAppend(head, last);
      merged := merged[n - 2 := last];
      merged := merged[..n - 1];
      assert merged == head + [last];
    }
  }

  /** What is left when the last two amounts are merged until there are at most `maxOuts`: the front, and the sum of the
      rest. */
  ghost predicate MergedFrom(merged: seq<u64>, amounts: seq<u64>, maxOuts: nat) {
    && |merged| == (if maxOuts < |amounts| then maxOuts else |amounts|) && Sum(merged) == Sum(amounts)
    && forall i | 0 <= i < |merged| - 1 :: merged[i] == amounts[i]
  }

  /** The amounts of `constructMinerTx` for a block reward, with key generation taken to succeed. `share` is the
      governance share computed from the reward. */
  method ConstructMinerAmounts(reward: u64, governance: bool, share: u64, alreadyGenerated: u64, maxOuts: nat)
    returns (r: Option<seq<u64>>)
    ensures r.None? <==> maxOuts < 1 || (governance && alreadyGenerated == 0 && share != 0)
    ensures r.Some? ==> Wrap64(Sum(r.value)) == reward
    ensures r.Some? ==> (Sum(r.value) == reward <==> !(governance && share > reward))
    ensures r.Some? ==> |r.value| <= maxOuts + if governance then 1 else 0
    ensures r.Some? && governance ==> r.value != [] && r.value[|r.value| - 1] == share
    ensures r.Some? ==>
              var miner := if governance && alreadyGenerated != 0 then (reward - share) % TWO64 else reward;
              exists digits, places :: Decomposes(miner, 0, 0, digits, places)
                && MergedFrom(if governance then r.value[..|r.value| - 1] else r.value, digits, maxOuts)
  {
    hide Sum, Decomposes, Wrap64;
    var blockReward, total := reward, reward;
    WrapAround(reward, share);
    if governance && alreadyGenerated != 0 {
      blockReward := Wrap64(blockReward - share);
      total := Wrap64(blockReward + share);
    }
    var amounts;
    ghost var dust, digits, places;
    amounts, dust, digits, places := DecomposeAmount(blockReward, 0);
    NoDust(blockReward, dust, digits, places);
    if maxOuts < 1 { return None; }
    amounts := MergeOutputs(amounts, maxOuts);
    ghost var paid := amounts;
    assert MergedFrom(paid, digits, maxOuts);
    var summary := SumAmounts(amounts);
    if governance {
      summary := Wrap64(summary + share);
      SumAppend(amounts, share);
      amounts := amounts + [share];
      assert amounts[..|amounts| - 1] == paid;
    }
    if summary != total { return None; }
    return Some(amounts);
  }

  lemma NoDust(amount: nat, dust: nat, chunks: seq<u64>, places: seq<nat>)
    requires Decomposes(amount, 0, dust, chunks, places) && dust < TWO64
    ensures dust == 0 && Emitted(dust != 0, dust, chunks) == chunks
  {
  }

  lemma WrapAround(reward: u64, share: u64)
    ensures Wrap64(reward) == reward
    ensures Wrap64(Wrap64(reward - share) + share) == reward
    ensures Wrap64(reward - share) + share == (if share > reward then reward + TWO64 else reward)
    ensures Wrap64(Wrap64(reward - share)) == Wrap64(reward - share)
    ensures Wrap64(reward + share) == reward <==> share == 0
    ensures Wrap64(reward + TWO64) == reward
  {
  }

  method SumAmounts(amounts: seq<u64>) returns (summary: u64)
    ensures summary == Wrap64(Sum(amounts))
  {
    summary := 0;
    var i := 0;
    while i < |amounts|
      invariant 0 <= i <= |amounts| && summary == Wrap64(Sum(amounts[..i]))
    {
      assert amounts[..i + 1] == amounts[..i] + [amounts[i]];
      SumAppend(amounts[..i], amounts[i]);
      summary := Wrap64(summary + amounts[i]);
      i := i + 1;
    }
    assert amounts[..i] == amounts;
  }
}
