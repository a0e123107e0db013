/** ShuffleGenerator: a Fisher-Yates shuffle whose array is kept as a sparse map of the displaced positions. */
module Shuffle {
  import opened ChainTypes

  function At(selected: map<nat, nat>, i: nat): nat {
    if i in selected then selected[i] else i
  }

  /** The array the sparse map stands for: the values not drawn yet. */
  function Dense(selected: map<nat, nat>, count: nat): (v: seq<nat>)
    ensures |v| == count && forall i | 0 <= i < count :: v[i] == At(selected, i)
  {
    seq(count, i requires 0 <= i < count => At(selected, i))
  }

  function Identity(n: nat): (v: seq<nat>)
    ensures |v| == n && forall i | 0 <= i < n :: v[i] == i
  {
    Dense(map[], n)
  }

  /** One draw of the dense algorithm: the last value takes the place of the drawn one. */
  function Removed(v: seq<nat>, choice: nat): seq<nat>
    requires choice < |v|
  {
    v[choice := v[|v| - 1]][..|v| - 1]
  }

  lemma RemovedBag(v: seq<nat>, choice: nat)
    requires choice < |v|
    ensures multiset(v) == multiset(Removed(v, choice)) + multiset{v[choice]}
  {
    var n := |v| - 1;
    var swapped := v[choice := v[n]][n := v[choice]];
    assert swapped == Removed(v, choice) + [v[choice]];
    assert multiset(swapped) == multiset(v);
  }

  /** The map after drawing position `choice` out of `count`. */
  function Displaced(selected: map<nat, nat>, count: nat, choice: nat): map<nat, nat>
    requires choice < count
  {
    selected[choice := At(selected, count - 1)]
  }

  /** The sparse draw refines the dense one. */
  lemma SparseRefinesDense(selected: map<nat, nat>, count: nat, choice: nat)
    requires choice < count
    ensures Dense(Displaced(selected, count, choice), count - 1) == Removed(Dense(selected, count), choice)
  {
  }

  class ShuffleGenerator {
    const n: nat
    var count: nat
    var selected: map<nat, nat>
    ghost var drawn: seq<nat>

    /** What was drawn and what is left are together exactly 0 to n - 1. */
    ghost predicate Valid()
      reads this
    {
      && |drawn| + count == n
      && multiset(drawn) + multiset(Dense(selected, count)) == multiset(Identity(n))
    }

    constructor (n: nat)
      ensures Valid() && this.n == n && drawn == []
    {
      this.n, count, selected, drawn := n, n, map[], [];
    }

    method Reset()
      modifies this
      ensures Valid() && drawn == []
    {
      count, selected, drawn := n, map[], [];
    }

    /** The draw, with `choice` the value of the uniform distribution; it fails at the end of the sequence. */
    method Next(choice: nat) returns (r: Option<nat>)
      requires Valid() && (count > 0 ==> choice < count)
      modifies this
      ensures Valid()
      ensures r.None? <==> old(count) == 0
      ensures r.None? ==> unchanged(this)
      ensures r.Some? ==> drawn == old(drawn) + [r.value] && r.value == old(Dense(selected, count)[choice])
      ensures r.Some? ==> Dense(selected, count) == Removed(old(Dense(selected, count)), choice)
    {
      if count == 0 { return None; }
      SparseRefinesDense(selected, count, choice);
      RemovedBag(Dense(selected, count), choice);
      count := count - 1;
      var value := choice;
      var rval := if count in selected then selected[count] else count;
      if choice in selected {
        value := selected[choice];
        selected := selected[choice := rval];
      } else {
        selected := selected[choice := rval];
      }
      drawn := drawn + [value];
      return Some(value);
    }
  }

  ghost predicate ValidChoices(n: nat, choices: seq<nat>) {
    |choices| <= n && forall i | 0 <= i < |choices| :: choices[i] < n - i
  }

  /** The values drawn by a list of choices. */
  function Draws(selected: map<nat, nat>, count: nat, choices: seq<nat>): seq<nat>
    requires |choices| <= count && forall i | 0 <= i < |choices| :: choices[i] < count - i
    decreases |choices|
  {
    if choices == [] then []
    else [At(selected, choices[0])] + Draws(Displaced(selected, count, choices[0]), count - 1, choices[1..])
  }

  lemma {:induction false} DrawsBag(selected: map<nat, nat>, count: nat, choices: seq<nat>)
    requires |choices| == count && forall i | 0 <= i < |choices| :: choices[i] < count - i
    ensures multiset(Draws(selected, count, choices)) == multiset(Dense(selected, count))
    decreases |choices|
  {
    if choices == [] {
      assert Dense(selected, count) == [];
    } else {
      DrawsBag(Displaced(selected, count, choices[0]), count - 1, choices[1..]);
      SparseRefinesDense(selected, count, choices[0]);
      RemovedBag(Dense(selected, count), choices[0]);
    }
  }

  /** For every sequence of random choices, n draws are a permutation of 0 to n - 1. */
  lemma DrawsArePermutation(n: nat, choices: seq<nat>)
    requires ValidChoices(n, choices) && |choices| == n
    ensures multiset(Draws(map[], n, choices)) == multiset(Identity(n))
  {
    DrawsBag(map[], n, choices);
  }

  /** A value still to be drawn has a position, and drawing it leaves the others. */
  lemma FindPosition(selected: map<nat, nat>, count: nat, target: seq<nat>) returns (c: nat)
    requires target != [] && multiset(target) == multiset(Dense(selected, count))
    ensures c < count && At(selected, c) == target[0]
    ensures multiset(target[1..]) == multiset(Dense(Displaced(selected, count, c), count - 1))
  {
    var v := Dense(selected, count);
    assert target[0] in multiset(target);
    assert target[0] in v;
    c :| 0 <= c < |v| && v[c] == target[0];
    SparseRefinesDense(selected, count, c);
    RemovedBag(v, c);
    assert target == [target[0]] + target[1..];
    Cancel(multiset(target[1..]), multiset(Removed(v, c)), target[0]);
  }

  lemma Cancel(x: multiset<nat>, y: multiset<nat>, e: nat)
    requires multiset{e} + x == y + multiset{e}
    ensures x == y
  {
    assert x == (multiset{e} + x) - multiset{e};
    assert y == (y + multiset{e}) - multiset{e};
  }

  /** Every order can come out: for each permutation of what is left there are choices that draw it. */
  lemma {:induction false} EveryOrderIsDrawn(
    selected: map<nat, nat>, count: nat, target: seq<nat>) returns (choices: seq<nat>)
    requires multiset(target) == multiset(Dense(selected, count))
    ensures |choices| == count && forall i | 0 <= i < |choices| :: choices[i] < count - i
    ensures Draws(selected, count, choices) == target
    decreases |target|
  {
    hide Displaced, Dense, At;
    assert |target| == |multiset(target)| == |multiset(Dense(selected, count))| == count;
    if target == [] {
      choices := [];
    } else {
      var c := FindPosition(selected, count, target);
      var rest := EveryOrderIsDrawn(Displaced(selected, count, c), count - 1, target[1..]);
      choices := [c] + rest;
      assert choices[1..] == rest;
    }
  }
}
