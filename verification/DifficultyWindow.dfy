/** The window of blocks that decides the next difficulty, on the main chain and on an alternative chain. */
module DifficultyWindow {
  import opened ChainTypes

  function Timestamps(blocks: seq<BlockEntry>): (r: seq<u64>)
    ensures |r| == |blocks| && forall i | 0 <= i < |r| :: r[i] == blocks[i].bl.timestamp
  {
    seq(|blocks|, i requires 0 <= i < |blocks| => blocks[i].bl.timestamp)
  }

  function Difficulties(blocks: seq<BlockEntry>): (r: seq<u64>)
    ensures |r| == |blocks| && forall i | 0 <= i < |r| :: r[i] == blocks[i].cumulativeDifficulty
  {
    seq(|blocks|, i requires 0 <= i < |blocks| => blocks[i].cumulativeDifficulty)
  }

  /** The last `n` blocks of a chain, never the genesis block. */
  function Window(chain: seq<BlockEntry>, n: nat): seq<BlockEntry> {
    if |chain| <= 1 then [] else if n < |chain| - 1 then chain[|chain| - n..] else chain[1..]
  }

  /** It has `n` entries if the chain has as many besides the genesis block, else all but that one. */
  lemma WindowAt(chain: seq<BlockEntry>, n: nat)
    ensures var m := if chain == [] then 0 else if n < |chain| - 1 then n else |chain| - 1;
      |Window(chain, n)| == m && forall i | 0 <= i < m :: Window(chain, n)[i] == chain[|chain| - m + i]
  {
  }

  /** The window of `getDifficultyForNextBlock`. */
  method MainWindow(blocks: seq<BlockEntry>, n: nat) returns (timestamps: seq<u64>, difficulties: seq<u64>)
    ensures timestamps == Timestamps(Window(blocks, n)) && difficulties == Difficulties(Window(blocks, n))
    ensures var m := if blocks == [] then 0 else if n < |blocks| - 1 then n else |blocks| - 1;
      && |timestamps| == |difficulties| == m
      && forall i | 0 <= i < m ::
           && timestamps[i] == blocks[|blocks| - m + i].bl.timestamp
           && difficulties[i] == blocks[|blocks| - m + i].cumulativeDifficulty
  {
    hide Window;
    WindowAt(blocks, n);
    timestamps, difficulties := [], [];
    var offset := |blocks| - if n < |blocks| then n else |blocks|;
    if offset == 0 { offset := offset + 1; }
    var start := offset;
    while offset < |blocks|
      invariant start <= offset && (offset <= |blocks| || offset == start)
      invariant |timestamps| == |difficulties| == offset - start
      invariant forall i | 0 <= i < offset - start :: timestamps[i] == blocks[start + i].bl.timestamp
      invariant forall i | 0 <= i < offset - start :: difficulties[i] == blocks[start + i].cumulativeDifficulty
    {
      timestamps := timestamps + [blocks[offset].bl.timestamp];
      difficulties := difficulties + [blocks[offset].cumulativeDifficulty];
      offset := offset + 1;
    }
  }

  lemma TimestampsConcat(xs: seq<BlockEntry>, ys: seq<BlockEntry>)
    ensures Timestamps(xs + ys) == Timestamps(xs) + Timestamps(ys)
    ensures Difficulties(xs + ys) == Difficulties(xs) + Difficulties(ys)
  {
  }

  /** The entries of `blocks` from `start` to `stop`, appended one by one. */
  method Gather(blocks: seq<BlockEntry>, start: nat, stop: nat) returns (timestamps: seq<u64>, difficulties: seq<u64>)
    requires start <= stop <= |blocks|
    ensures timestamps == Timestamps(blocks[start..stop]) && difficulties == Difficulties(blocks[start..stop])
  {
    timestamps, difficulties := [], [];
    var offset := start;
    while offset < stop
      invariant start <= offset <= stop
      invariant |timestamps| == |difficulties| == offset - start
      invariant forall i | 0 <= i < offset - start :: timestamps[i] == blocks[start + i].bl.timestamp
      invariant forall i | 0 <= i < offset - start :: difficulties[i] == blocks[start + i].cumulativeDifficulty
    {
      timestamps := timestamps + [blocks[offset].bl.timestamp];
      difficulties := difficulties + [blocks[offset].cumulativeDifficulty];
      offset := offset + 1;
    }
  }

  /** The last `n` entries of the alternative chain, filled in from the back. */
  method GatherBackwards(alt: seq<BlockEntry>, n: nat) returns (timestamps: seq<u64>, difficulties: seq<u64>)
    requires 1 <= n <= |alt|
    ensures timestamps == Timestamps(alt[|alt| - n..]) && difficulties == Difficulties(alt[|alt| - n..])
  {
    timestamps, difficulties := seq(n, _ => 0), seq(n, _ => 0);
    var count := 0;
    while count < n
      invariant 0 <= count <= n && |timestamps| == |difficulties| == n
      invariant forall i | n - count <= i < n ::
                  timestamps[i] == alt[|alt| - n + i].bl.timestamp && difficulties[i] == alt[|alt| - n + i].cumulativeDifficulty
    {
      var e := alt[|alt| - 1 - count];
      timestamps := timestamps[n - 1 - count := e.bl.timestamp];
      difficulties := difficulties[n - 1 - count := e.cumulativeDifficulty];
      count := count + 1;
    }
  }

  /** The gathering of `get_next_difficulty_for_alternative_chain` for a block that continues `alt`, which leaves the
      main chain at height `split`. For every `n` it equals the window of the spliced chain, and the check for too
      many blocks never fires. */
  method AlternativeWindow(blocks: seq<BlockEntry>, alt: seq<BlockEntry>, split: nat, n: nat)
    returns (fine: bool, timestamps: seq<u64>, difficulties: seq<u64>)
    requires 1 <= split <= |blocks| && n >= 1
    ensures fine
    ensures timestamps == Timestamps(Window(blocks[..split] + alt, n))
    ensures difficulties == Difficulties(Window(blocks[..split] + alt, n))
  {
    SplicedWindow(blocks, alt, split, n);
    if |alt| < n {
      var count := n - |alt|;
      count := if count < split then count else split;
      var offset := split - count;
      if offset == 0 { offset := offset + 1; }
      timestamps, difficulties := Gather(blocks, offset, split);
      if |alt| + |timestamps| > n { return false, [], []; }
      var altTimestamps, altDifficulties := Gather(alt, 0, |alt|);
      assert alt[0..|alt|] == alt;
      TimestampsConcat(blocks[offset..split], alt);
      timestamps, difficulties := timestamps + altTimestamps, difficulties + altDifficulties;
    } else {
      timestamps, difficulties := GatherBackwards(alt, n);
    }
    fine := true;
  }

  /** The window of a chain spliced at `split`, in its three cases. */
  lemma SplicedWindow(blocks: seq<BlockEntry>, alt: seq<BlockEntry>, split: nat, n: nat)
    requires 1 <= split <= |blocks|
    ensures Window(blocks[..split] + alt, n) ==
            if n <= |alt| then alt[|alt| - n..]
            else if n - |alt| < split then blocks[split - (n - |alt|)..split] + alt
            else blocks[1..split] + alt
  {
    var chain := blocks[..split] + alt;
    if n <= |alt| {
      assert chain[|chain| - n..] == alt[|alt| - n..];
    } else if n - |alt| < split {
      assert chain[|chain| - n..] == blocks[split - (n - |alt|)..split] + alt;
    } else {
      assert chain[1..] == blocks[1..split] + alt;
    }
  }
}
