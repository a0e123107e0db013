/** The block index and the sparse chain used for synchronisation. */
module BlockIndexing {
  import opened ChainTypes
  import opened Positional

  ghost predicate Unique(ids: seq<Hash>) {
    forall i, j | 0 <= i < j < |ids| :: ids[i] != ids[j]
  }

  class BlockIndex {
    /** The container is at once a sequence and a set of unique hashes. */
    var container: seq<Hash>

    constructor ()
      ensures container == []
    {
      container := [];
    }

    method Push(h: Hash) returns (inserted: bool)
      requires Unique(container)
      modifies this
      ensures Unique(container)
      ensures inserted <==> h !in old(container)
      ensures container == if inserted then old(container) + [h] else old(container)
    {
      inserted := h !in container;
      if inserted { container := container + [h]; }
    }

    method Pop()
      requires Unique(container) && container != []
      modifies this
      ensures Unique(container) && container == old(container)[..|old(container)| - 1]
    {
      container := container[..|container| - 1];
    }

    method GetBlockHeight(h: Hash) returns (height: Option<nat>)
      requires Unique(container)
      ensures height.None? <==> h !in container
      ensures height.Some? ==> height.value < |container| && container[height.value] == h
    {
      var i := 0;
      while i < |container|
        invariant 0 <= i <= |container|
        invariant h !in container[..i]
      {
        if container[i] == h { return Some(i); }
        i := i + 1;
      }
      assert container[..i] == container;
      return None;
    }

    /** `getBlockIds`: at most `maxCount` hashes from `start` on. */
    method GetBlockIds(start: nat, maxCount: nat) returns (result: seq<Hash>)
      ensures result == if start >= |container| then []
                        else if maxCount < |container| - start then container[start..start + maxCount]
                        else container[start..]
    {
      result := [];
      if start >= |container| { return; }
      var count := if maxCount < |container| - start then maxCount else |container| - start;
      var i := 0;
      while i < count
        invariant 0 <= i <= count && result == container[start..start + i]
      {
        result := result + [container[start + i]];
        i := i + 1;
      }
    }

    /** `findSupplement`: the height of the first given hash that is in the index. */
    method FindSupplement(ids: seq<Hash>) returns (offset: Option<nat>)
      requires Unique(container)
      ensures offset == FirstKnown(container, ids)
      ensures offset.None? <==> forall i | 0 <= i < |ids| :: ids[i] !in container
      ensures offset.Some? ==>
                exists i | 0 <= i < |ids| ::
                  && offset.value < |container| && container[offset.value] == ids[i]
                  && forall j | 0 <= j < i :: ids[j] !in container
    {
      var i := 0;
      while i < |ids|
        invariant 0 <= i <= |ids|
        invariant FirstKnown(container, ids) == FirstKnown(container, ids[i..])
        invariant forall j | 0 <= j < i :: ids[j] !in container
      {
        assert ids[i..][1..] == ids[i + 1..];
        var height := GetBlockHeight(ids[i]);
        if height.Some? {
          HeightIsUnique(container, ids[i], height.value);
          return height;
        }
        i := i + 1;
      }
      return None;
    }

    /** `buildSparseChain`: the start block, then hashes at distances that double, then the genesis block. */
    method BuildSparseChain(startId: Hash) returns (result: seq<Hash>)
      requires Unique(container) && startId in container
      ensures result == Hashes(container, SparseHeights(HeightOf(container, startId) + 1))
    {
      hide Hashes, SparseHeights;
      var start := GetBlockHeight(startId);
      HeightIsUnique(container, startId, start.value);
      result := SparseBelow(container, start.value + 1);
    }

    static method SparseBelow(ids: seq<Hash>, end: nat) returns (result: seq<Hash>)
      requires Unique(ids) && 1 <= end <= |ids|
      ensures result == Hashes(ids, SparseHeights(end))
    {
      hide Hashes, Unique, Doubling;
      var i := 1;
      result := [];
      assert result + Hashes(ids, Doubling(end, i)) == Hashes(ids, Doubling(end, 1));
      while i <= end
        invariant 1 <= i <= 2 * end
        invariant result + Hashes(ids, Doubling(end, i)) == Hashes(ids, Doubling(end, 1))
        decreases 2 * end - i
      {
        DoublingStep(ids, end, i, result);
        result := result + [ids[end - i]];
        i := i * 2;
      }
      assert result == Hashes(ids, Doubling(end, 1));
      HashesAppend(ids, Doubling(end, 1), 0);
      LastHash(ids, Doubling(end, 1));
      if result[|result| - 1] != ids[0] {
        result := result + [ids[0]];
      }
    }
  }

  lemma HashesAppend(ids: seq<Hash>, heights: seq<nat>, h: nat)
    requires h < |ids|
    ensures Hashes(ids, heights + [h]) == Hashes(ids, heights) + [ids[h]]
  {
  }

  lemma DoublingStep(ids: seq<Hash>, end: nat, i: nat, before: seq<Hash>)
    requires 1 <= i <= end <= |ids|
    ensures before + [ids[end - i]] + Hashes(ids, Doubling(end, 2 * i)) == before + Hashes(ids, Doubling(end, i))
  {
    assert Doubling(end, i) == [end - i] + Doubling(end, 2 * i);
    assert Hashes(ids, Doubling(end, i)) == [ids[end - i]] + Hashes(ids, Doubling(end, 2 * i));
  }

  lemma LastHash(ids: seq<Hash>, heights: seq<nat>)
    requires Unique(ids) && ids != [] && heights != [] && heights[|heights| - 1] < |ids|
    ensures Hashes(ids, heights)[|heights| - 1] == ids[0] <==> heights[|heights| - 1] == 0
  {
  }

  lemma HeightIsUnique(ids: seq<Hash>, h: Hash, i: nat)
    requires Unique(ids) && i < |ids| && ids[i] == h
    ensures HeightOf(ids, h) == i
  {
  }

  /** The position of a hash that occurs in the sequence. */
  ghost function HeightOf(ids: seq<Hash>, h: Hash): (i: nat)
    requires h in ids
    ensures i < |ids| && ids[i] == h
  {
    var i :| 0 <= i < |ids| && ids[i] == h;
    i
  }

  ghost function FirstKnown(ids: seq<Hash>, asked: seq<Hash>): Option<nat> {
    if asked == [] then None
    else if asked[0] in ids then Some(HeightOf(ids, asked[0]))
    else FirstKnown(ids, asked[1..])
  }

  // ---------------------------------------------------------------------------------------------
  // Heights of a sparse chain

  /** Heights at distances `i`, 2 `i`, 4 `i`, ... below `end`, as long as they exist. */
  function Doubling(end: nat, i: nat): (r: seq<nat>)
    requires i >= 1
    ensures r == [] <==> i > end
    ensures forall k | 0 <= k < |r| :: r[k] < end
    decreases 2 * end - i
  {
    if i > end then [] else [end - i] + Doubling(end, 2 * i)
  }

  /** The heights of the sparse chain that starts below `end`. */
  function SparseHeights(end: nat): (hs: seq<nat>)
    requires end >= 1
    ensures forall k | 0 <= k < |hs| :: hs[k] < end
  {
    var r := Doubling(end, 1);
    if r[|r| - 1] != 0 then r + [0] else r
  }

  /** The hashes at the given heights. */
  function Hashes(ids: seq<Hash>, heights: seq<nat>): (r: seq<Hash>)
    ensures |r| == |heights|
  {
    seq(|heights|, i requires 0 <= i < |heights| => if heights[i] < |ids| then ids[heights[i]] else NullHash)
  }

  ghost predicate Decreasing(heights: seq<nat>) {
    forall i, j | 0 <= i < j < |heights| :: heights[i] > heights[j]
  }

  lemma {:induction false} DoublingDecreases(end: nat, i: nat)
    requires i >= 1
    ensures Decreasing(Doubling(end, i))
    ensures forall k | 0 <= k < |Doubling(end, i)| :: Doubling(end, i)[k] <= end - i
    decreases 2 * end - i
  {
    if i <= end { DoublingDecreases(end, 2 * i); }
  }

  /** The distances are the powers of two up to `end`. */
  lemma {:induction false} DoublingAt(end: nat, m: nat, k: nat)
    requires Power(2, m) >= 1
    ensures var r := Doubling(end, Power(2, m));
      && (k < |r| ==> Power(2, m + k) <= end && r[k] == end - Power(2, m + k))
      && (Power(2, m + k) <= end ==> k < |r|)
    decreases k
  {
    PowerGrows(2, m, m + k);
    assert Power(2, m + 1) == 2 * Power(2, m);
    if k > 0 && Power(2, m) <= end {
      DoublingAt(end, m + 1, k - 1);
      assert Doubling(end, Power(2, m)) == [end - Power(2, m)] + Doubling(end, Power(2, m + 1));
    }
  }

  /** A sparse chain starts at the given block, goes back by distances that double, and ends at the genesis block. */
  lemma SparseChainShape(end: nat)
    requires end >= 1
    ensures var hs := SparseHeights(end);
      && hs != [] && hs[0] == end - 1 && hs[|hs| - 1] == 0 && Decreasing(hs)
      && (forall k: nat | Power(2, k) <= end :: k < |hs| && hs[k] == end - Power(2, k))
      && (forall k | 0 <= k < |hs| - 1 :: Power(2, k) <= end)
  {
    DoublingDecreases(end, 1);
    var r := Doubling(end, 1);
    forall k: nat
      ensures Power(2, k) <= end ==> k < |r| && r[k] == end - Power(2, k)
      ensures k < |r| ==> Power(2, k) <= end
    {
      DoublingAt(end, 0, k);
    }
  }

  // ---------------------------------------------------------------------------------------------
  // Synchronisation

  /** The two chains share exactly their first `c` blocks. */
  ghost predicate DivergeAt(local: seq<Hash>, remote: seq<Hash>, c: nat) {
    && 1 <= c <= |local| && c <= |remote|
    && local[..c] == remote[..c]
    && forall k | c <= k < |remote| :: remote[k] !in local
  }

  /** The first of the heights that lies below `c`. */
  function FirstBelow(c: nat, heights: seq<nat>): Option<nat> {
    if heights == [] then None
    else if heights[0] < c then Some(heights[0])
    else FirstBelow(c, heights[1..])
  }

  lemma {:induction false} KnownIsBelow(local: seq<Hash>, remote: seq<Hash>, c: nat, heights: seq<nat>)
    requires Unique(local) && DivergeAt(local, remote, c)
    requires forall i | 0 <= i < |heights| :: heights[i] < |remote|
    ensures FirstKnown(local, Hashes(remote, heights)) == FirstBelow(c, heights)
    decreases |heights|
  {
    if heights != [] {
      KnownIsBelow(local, remote, c, heights[1..]);
      assert Hashes(remote, heights)[1..] == Hashes(remote, heights[1..]);
      var h := heights[0];
      if h < c {
        assert local[h] == local[..c][h] == remote[..c][h] == remote[h];
        HeightIsUnique(local, remote[h], h);
      }
    }
  }

  lemma {:induction false} BelowConcat(c: nat, xs: seq<nat>, ys: seq<nat>)
    ensures FirstBelow(c, xs + ys) == if FirstBelow(c, xs).Some? then FirstBelow(c, xs) else FirstBelow(c, ys)
    decreases |xs|
  {
    if xs == [] {
      assert xs + ys == ys;
    } else {
      assert (xs + ys)[1..] == xs[1..] + ys;
      BelowConcat(c, xs[1..], ys);
    }
  }

  /** If no smaller distance reached below `c`, the next one that does overshoots by less than the divergence. */
  lemma {:induction false} DoublingBound(end: nat, c: nat, i: nat)
    requires 1 <= c < end && 1 <= i <= 2 * (end - c)
    ensures match FirstBelow(c, Doubling(end, i))
      case Some(h) => c - 1 - h < end - c
      case None => c < end - c
    decreases 2 * end - i
  {
    if i <= end && end - i >= c {
      assert Doubling(end, i)[1..] == Doubling(end, 2 * i);
      DoublingBound(end, c, 2 * i);
    }
  }

  /** If the remote chain, seen from its block below `end`, has left the common part for d blocks, then
      `findSupplement` on its sparse chain finds a common block at most d blocks below the last common one. */
  lemma SyncBound(local: seq<Hash>, remote: seq<Hash>, c: nat, end: nat)
    requires Unique(local) && DivergeAt(local, remote, c) && 1 <= end <= |remote|
    ensures forall k | 0 <= k < |SparseHeights(end)| :: SparseHeights(end)[k] < |remote|
    ensures var last := (if c < end then c else end) - 1;
      var r := FirstKnown(local, Hashes(remote, SparseHeights(end)));
      r.Some? && r.value <= last && local[r.value] == remote[r.value] && last - r.value <= end - 1 - last
  {
    var hs := SparseHeights(end);
    SparseChainShape(end);
    assert forall k | 0 <= k < |hs| :: hs[k] < |remote|;
    KnownIsBelow(local, remote, c, hs);
    if c < end {
      DoublingBound(end, c, 1);
      BelowConcat(c, Doubling(end, 1), [0]);
      GenesisIsBelow(c, hs);
    }
    BelowIsBelow(c, hs);
    var r := FirstBelow(c, hs);
    assert r.Some? ==> local[r.value] == local[..c][r.value] == remote[..c][r.value];
  }

  lemma {:induction false} BelowIsBelow(c: nat, heights: seq<nat>)
    ensures FirstBelow(c, heights).Some? ==> FirstBelow(c, heights).value < c
    decreases |heights|
  {
    if heights != [] { BelowIsBelow(c, heights[1..]); }
  }

  lemma {:induction false} GenesisIsBelow(c: nat, heights: seq<nat>)
    requires c >= 1 && heights != [] && heights[|heights| - 1] == 0
    ensures FirstBelow(c, heights).Some?
    decreases |heights|
  {
    if heights[0] >= c {
      assert heights[1..][|heights| - 2] == 0;
      GenesisIsBelow(c, heights[1..]);
    }
  }
}
