/** The file-backed vector: an update builds a temporary file, swaps it with the vector's file through a
    backup, and may be stopped after any change to the disk. */
module FileMappedVector {
  import opened ChainTypes
  import opened Positional
  import opened FileLayout

  type Disk = map<string, seq<byte>>

  function Bak(path: string): string { path + ".bak" }

  /** The temporary name; `unique` is its random part. */
  function Tmp(path: string, unique: string): string { path + ".tmp." + unique }

  lemma Names(path: string, unique: string)
    ensures Bak(path) != path && Tmp(path, unique) != path && Tmp(path, unique) != Bak(path)
  {
    assert |Bak(path)| == |path| + 4 && Bak(path)[|path| + 1] == 'b';
    assert |Tmp(path, unique)| >= |path| + 5;
  }

  /** What `open` finds at `path` once it has dealt with the backup. */
  function Recovered(d: Disk, path: string): Option<seq<byte>> {
    if path in d then Some(d[path]) else if Bak(path) in d then Some(d[Bak(path)]) else None
  }

  function Resized(bytes: seq<byte>, n: nat): (r: seq<byte>)
    ensures |r| == n
  {
    if n <= |bytes| then bytes[..n] else bytes + Zeros(n - |bytes|)
  }

  /** What an update makes of a vector: the elements `items` with the given room, prefix and suffix sizes. */
  function Updated(
    i: Image, items: seq<seq<byte>>, capacity: nat, prefixSize: nat, suffixSize: nat, valueSize: nat): Image
  {
    var room := Room(capacity, valueSize);
    Image(Resized(i.prefix, prefixSize), capacity, |items|, Resized(Flat(items), room), Resized(i.suffix, suffixSize))
  }

  function Concat(parts: seq<seq<seq<byte>>>): seq<seq<byte>> {
    if parts == [] then [] else Concat(parts[..|parts| - 1]) + parts[|parts| - 1]
  }

  /** Between two points of the history only the temporary file changed. */
  ghost predicate OnlyTmp(before: seq<Disk>, after: seq<Disk>, d: Disk, tmp: string) {
    before <= after && forall k :: |before| <= k < |after| ==> after[k] - {tmp} == d - {tmp}
  }

  /** Only the temporary file was written, and it now holds `bytes`. */
  ghost predicate Rewrote(d: Disk, before: seq<Disk>, d': Disk, after: seq<Disk>, tmp: string, bytes: seq<byte>) {
    d' == d[tmp := bytes] && OnlyTmp(before, after, d, tmp)
  }

  lemma RewroteTwice(d: Disk, h: seq<Disk>, d': Disk, h': seq<Disk>, d'': Disk, h'': seq<Disk>,
                     tmp: string, bytes: seq<byte>, bytes': seq<byte>)
    requires Rewrote(d, h, d', h', tmp, bytes) && Rewrote(d', h', d'', h'', tmp, bytes')
    ensures Rewrote(d, h, d'', h'', tmp, bytes')
  {
    assert d' - {tmp} == d - {tmp};
  }

  /** Only the vector's own files changed. */
  ghost predicate Untouched(d: Disk, d': Disk, path: string, unique: string) {
    d - {path, Bak(path), Tmp(path, unique)} == d' - {path, Bak(path), Tmp(path, unique)}
  }

  lemma RewroteUntouched(d: Disk, h: seq<Disk>, d': Disk, h': seq<Disk>, path: string, unique: string, bytes: seq<byte>)
    requires Rewrote(d, h, d', h', Tmp(path, unique), bytes)
    ensures Untouched(d, d', path, unique)
  {
    hide Tmp, Bak;
  }

  lemma SameUntouched(d: Disk, path: string, unique: string)
    ensures Untouched(d, d, path, unique)
  {
  }

  lemma UntouchedTwice(d: Disk, d': Disk, d'': Disk, path: string, unique: string)
    requires Untouched(d, d', path, unique) && Untouched(d', d'', path, unique)
    ensures Untouched(d, d'', path, unique)
  {
  }

  /** Stopping at any of these points, the next `open` finds `bytes`. */
  ghost predicate Recovers(h: seq<Disk>, low: nat, high: nat, path: string, bytes: seq<byte>) {
    low <= high <= |h| && forall k :: low <= k < high ==> Recovered(h[k], path) == Some(bytes)
  }

  /** Writing the temporary file changes nothing that `open` looks at. */
  lemma RewroteRecovers(h: seq<Disk>, low: nat, d: Disk, d': Disk, h': seq<Disk>, path: string, was: seq<byte>,
                        unique: string, bytes: seq<byte>)
    requires Recovers(h, low, |h|, path, was) && path in d && d[path] == was
    requires Rewrote(d, h, d', h', Tmp(path, unique), bytes)
    ensures Recovers(h', low, |h'|, path, was) && h <= h'
    ensures path in d' && d'[path] == was && (Bak(path) in d' <==> Bak(path) in d)
  {
    hide Tmp, Bak;
    Names(path, unique);
    var tmp := Tmp(path, unique);
    forall k | |h| <= k < |h'| ensures Recovered(h'[k], path) == Some(was) {
      assert path in d - {tmp} && (d - {tmp})[path] == was;
      assert h'[k] - {tmp} == d - {tmp};
    }
  }

  /** Which of the calls to the file system fail. */
  datatype Faults = Faults(create: bool, backup: bool, swap: bool, restore: bool, cleanup: bool)

  lemma PutResized(bytes: seq<byte>, n: nat)
    ensures var m := if |bytes| < n then |bytes| else n;
      Put(Zeros(n), 0, bytes[..m]) == Resized(bytes, n)
  {
  }

  lemma PutBehind(a: seq<byte>, b: seq<byte>, room: nat)
    requires |a| + |b| <= room
    ensures Put(Resized(a, room), |a|, b) == Resized(a + b, room)
  {
  }

  lemma AppendItems(done: seq<seq<byte>>, part: seq<seq<byte>>, room: nat, valueSize: nat)
    requires Sized(done, valueSize) && Sized(part, valueSize)
    requires Room(|done| + |part|, valueSize) <= room
    ensures Room(|done|, valueSize) + |Flat(part)| <= room
    ensures Put(Resized(Flat(done), room), Room(|done|, valueSize), Flat(part)) == Resized(Flat(done + part), room)
  {
    hide Room, Flat, Cut, Put, Resized;
    FlatConcat(done, part);
    CutFlat(done, [], valueSize);
    CutFlat(part, [], valueSize);
    RoomGrows(|done|, |part|, valueSize);
    PutBehind(Flat(done), Flat(part), room);
  }

  lemma {:induction false} ConcatSized(parts: seq<seq<seq<byte>>>, valueSize: nat, k: nat)
    requires Sized(Concat(parts), valueSize) && k < |parts|
    ensures Concat(parts[..k + 1]) == Concat(parts[..k]) + parts[k]
    ensures Sized(Concat(parts[..k + 1]), valueSize) && Sized(Concat(parts[..k]), valueSize)
            && Sized(parts[k], valueSize)
    ensures |Concat(parts[..k + 1])| <= |Concat(parts)|
    decreases |parts|
  {
    assert parts[..k + 1][..k] == parts[..k] && parts[..k + 1][k] == parts[k];
    var last := |parts| - 1;
    var done, part := Concat(parts[..last]), parts[last];
    assert Concat(parts) == done + part;
    assert Sized(done, valueSize) by {
      forall j | 0 <= j < |done| ensures |done[j]| == valueSize { assert done[j] == Concat(parts)[j]; }
    }
    assert Sized(part, valueSize) by {
      forall j | 0 <= j < |part| ensures |part[j]| == valueSize { assert part[j] == Concat(parts)[|done| + j]; }
    }
    if k == last {
      assert parts[..k + 1] == parts;
    } else {
      ConcatSized(parts[..last], valueSize, k);
      assert parts[..last][..k + 1] == parts[..k + 1] && parts[..last][..k] == parts[..k];
    }
  }

  datatype OpenMode = OPEN | CREATE | OPEN_OR_CREATE

  const INITIAL_CAPACITY: nat := 10

  /** A new vector. */
  function EmptyVector(prefixSize: nat, valueSize: nat): Image {
    Image(Zeros(prefixSize), INITIAL_CAPACITY, 0, Zeros(Room(INITIAL_CAPACITY, valueSize)), Zeros(0))
  }

  lemma NewVector(prefixSize: nat, valueSize: nat)
    ensures var i := EmptyVector(prefixSize, valueSize);
      && Load(Bytes(i), prefixSize, valueSize) == Some(i) && |i.suffix| == 0
      && i == Image(Zeros(prefixSize), INITIAL_CAPACITY, 0, Zeros(Room(INITIAL_CAPACITY, valueSize)), Zeros(0))
  {
    hide Load, Bytes;
    LoadBytes(EmptyVector(prefixSize, valueSize), valueSize);
  }

  /** The file is too short for a vector, or its size is zero. */
  ghost predicate NoElements(file: seq<byte>, prefixSize: nat) {
    |file| < prefixSize + METADATA_SIZE || file[prefixSize + 8..prefixSize + METADATA_SIZE] == Word(0)
  }

  lemma NoElementsYet(i: Image, prefixSize: nat)
    requires |i.prefix| == prefixSize && i.size == 0
    ensures NoElements([], prefixSize) && NoElements(Bytes(i), prefixSize)
  {
    hide Word;
  }

  /** `open` refuses such a file or finds an empty vector in it. */
  lemma NoElementsIsEmpty(file: seq<byte>, prefixSize: nat, valueSize: nat)
    requires NoElements(file, prefixSize)
    ensures var i := Load(file, prefixSize, valueSize); i.Some? ==> i.value.size == 0
  {
    hide Digits;
    ValueOfDigits(256, 8, 0);
  }

  /** Stopped before the capacity is written, a new file is taken for a vector without room: what was meant for the
      elements is its suffix. */
  lemma StoppedCreate(prefixSize: nat, room: nat, valueSize: nat)
    ensures Load(Zeros(prefixSize + METADATA_SIZE + room), prefixSize, valueSize)
         == Some(Image(Zeros(prefixSize), 0, 0, [], Zeros(room)))
  {
    hide Load, Bytes;
    NewFile(prefixSize, 0, room);
    LoadBytes(Image(Zeros(prefixSize), 0, 0, [], Zeros(room)), valueSize);
  }

  class Vector {
    const valueSize: nat
    var files: Disk
    ghost var history: seq<Disk>
    var path: string
    var mapped: string
    var prefixSize: nat
    var suffixSize: nat

    ghost predicate Valid()
      reads this
    {
      && mapped in files && Load(files[mapped], prefixSize, valueSize).Some?
      && |Load(files[mapped], prefixSize, valueSize).value.suffix| == suffixSize
    }

    /** The mapped file. */
    ghost function Contents(): Image
      reads this
      requires Valid()
    {
      Load(files[mapped], prefixSize, valueSize).value
    }

    ghost function Items(): seq<seq<byte>>
      reads this
      requires Valid()
    {
      Cut(Contents().data, valueSize, Contents().size)
    }

    method Write(name: string, bytes: seq<byte>)
      modifies `files, `history
      ensures files == old(files)[name := bytes] && history == old(history) + [files]
    {
      files := files[name := bytes];
      history := history + [files];
    }

    method Remove(name: string)
      modifies `files, `history
      ensures files == old(files) - {name} && history == old(history) + [files]
    {
      files := files - {name};
      history := history + [files];
    }

    method Rename(from: string, to: string)
      requires from in files && from != to
      modifies `files, `history
      ensures files == (old(files) - {from})[to := old(files)[from]] && history == old(history) + [files]
    {
      files := (files - {from})[to := files[from]];
      history := history + [files];
    }

    /** `create`: the file appears empty, grows, and gets its size and its capacity. Stopping it leaves no element
        behind. */
    method Create(file: string, capacity: nat, newPrefixSize: nat, newSuffixSize: nat)
      modifies `files, `history
      ensures Rewrote(old(files), old(history), files, history, file,
                      Bytes(Image(Zeros(newPrefixSize), capacity, 0, Zeros(Room(capacity, valueSize)), Zeros(newSuffixSize))))
      ensures forall k :: |old(history)| <= k < |history| ==>
        file in history[k] && NoElements(history[k][file], newPrefixSize)
    {
      hide Room, Bytes, Word, Zeros, Put, NoElements;
      var room := Room(capacity, valueSize);
      ghost var blank := Image(Zeros(newPrefixSize), 0, 0, Zeros(room), Zeros(newSuffixSize));
      NoElementsYet(blank, newPrefixSize);
      NoElementsYet(blank.(capacity := capacity), newPrefixSize);
      Write(file, []);
      NewFile(newPrefixSize, room, newSuffixSize);
      Write(file, Zeros(newPrefixSize + METADATA_SIZE + room + newSuffixSize));
      LengthOf(blank);
      PutSize(blank, 0);
      Write(file, Put(files[file], SizePtr(newPrefixSize), Word(0)));
      PutCapacity(blank, capacity);
      Write(file, Put(files[file], CapacityPtr(newPrefixSize), Word(capacity)));
    }

    /** The copied prefix, then the size. */
    method WriteHead(tmp: string, from: seq<byte>, newPrefixSize: nat, size: nat, ghost t: Image)
      requires tmp in files && files[tmp] == Bytes(t) && t.prefix == Zeros(newPrefixSize)
      modifies `files, `history
      ensures Rewrote(old(files), old(history), files, history, tmp,
                      Bytes(t.(prefix := Resized(from, newPrefixSize), size := size)))
    {
      hide Bytes, Word, Zeros, Put, Resized;
      var m := if |from| < newPrefixSize then |from| else newPrefixSize;
      LengthOf(t);
      PutPrefix(t, from[..m]);
      PutResized(from, newPrefixSize);
      NothingToCopy(from, newPrefixSize);
      if |from| != 0 && newPrefixSize != 0 {
        Write(tmp, Put(files[tmp], 0, from[..m]));
      }
      ghost var t' := t.(prefix := Resized(from, newPrefixSize));
      LengthOf(t');
      PutSize(t', size);
      Write(tmp, Put(files[tmp], SizePtr(newPrefixSize), Word(size)));
    }

    /** The elements, part by part. */
    method WriteParts(tmp: string, newPrefixSize: nat, parts: seq<seq<seq<byte>>>, ghost t: Image)
      requires tmp in files && files[tmp] == Bytes(t) && newPrefixSize == |t.prefix| && t.data == Zeros(|t.data|)
      requires Sized(Concat(parts), valueSize) && Room(|Concat(parts)|, valueSize) <= |t.data|
      modifies `files, `history
      ensures Rewrote(old(files), old(history), files, history, tmp,
                      Bytes(t.(data := Resized(Flat(Concat(parts)), |t.data|))))
    {
      hide Room, Bytes, Zeros, Put, Resized, Flat, Concat, Sized;
      ghost var room := |t.data|;
      var k, done := 0, 0;
      NoItems(parts, room);
      while k < |parts|
        invariant 0 <= k <= |parts| && done == |Concat(parts[..k])|
        invariant Rewrote(old(files), old(history), files, history, tmp,
                          Bytes(t.(data := Resized(Flat(Concat(parts[..k])), room))))
      {
        ConcatSized(parts, valueSize, k);
        RoomGrows(|Concat(parts[..k + 1])|, |Concat(parts)|, valueSize);
        AppendItems(Concat(parts[..k]), parts[k], room, valueSize);
        ghost var now := t.(data := Resized(Flat(Concat(parts[..k])), room));
        LengthOf(now);
        PutData(now, Room(done, valueSize), Flat(parts[k]));
        Write(tmp, Put(files[tmp], DataPtr(newPrefixSize) + Room(done, valueSize), Flat(parts[k])));
        done := done + |parts[k]|;
        k := k + 1;
      }
      assert parts[..k] == parts;
    }

    /** The copied suffix. */
    method WriteTail(tmp: string, from: seq<byte>, at: nat, newSuffixSize: nat, ghost t: Image)
      requires tmp in files && files[tmp] == Bytes(t) && t.suffix == Zeros(newSuffixSize)
      requires at == DataPtr(|t.prefix|) + |t.data|
      modifies `files, `history
      ensures Rewrote(old(files), old(history), files, history, tmp, Bytes(t.(suffix := Resized(from, newSuffixSize))))
    {
      hide Bytes, Zeros, Put, Resized;
      var m := if |from| < newSuffixSize then |from| else newSuffixSize;
      LengthOf(t);
      PutSuffix(t, from[..m]);
      PutResized(from, newSuffixSize);
      NothingToCopy(from, newSuffixSize);
      if |from| != 0 && newSuffixSize != 0 {
        Write(tmp, Put(files[tmp], at, from[..m]));
      }
    }

    /** The temporary file of an update, from `create` to the last copy. */
    method BuildTmp(tmp: string, capacity: nat, newPrefixSize: nat, newSuffixSize: nat, parts: seq<seq<seq<byte>>>)
      requires Valid() && tmp != mapped
      requires Sized(Concat(parts), valueSize) && |Concat(parts)| <= capacity
      modifies `files, `history
      ensures Rewrote(old(files), old(history), files, history, tmp,
                      Bytes(Updated(old(Contents()), Concat(parts), capacity, newPrefixSize, newSuffixSize, valueSize)))
    {
      hide Room, Bytes, Zeros, Resized, Flat, Concat, Load, Sized, Rewrote;
      var img := Load(files[mapped], prefixSize, valueSize).value;
      var size := |Concat(parts)|;
      RoomGrows(size, capacity, valueSize);
      ghost var d, h := files, history;
      ghost var t := Image(Zeros(newPrefixSize), capacity, 0, Zeros(Room(capacity, valueSize)), Zeros(newSuffixSize));
      Create(tmp, capacity, newPrefixSize, newSuffixSize);
      ghost var d', h' := files, history;
      TmpHolds(d, h, d', h', tmp, Bytes(t));
      ghost var t' := t.(prefix := Resized(img.prefix, newPrefixSize), size := size);
      WriteHead(tmp, img.prefix, newPrefixSize, size, t);
      RewroteTwice(d, h, d', h', files, history, tmp, Bytes(t), Bytes(t'));
      d', h', t := files, history, t';
      TmpHolds(d, h, d', h', tmp, Bytes(t));
      t' := t.(data := Resized(Flat(Concat(parts)), Room(capacity, valueSize)));
      WriteParts(tmp, newPrefixSize, parts, t);
      RewroteTwice(d, h, d', h', files, history, tmp, Bytes(t), Bytes(t'));
      d', h', t := files, history, t';
      TmpHolds(d, h, d', h', tmp, Bytes(t));
      t' := t.(suffix := Resized(img.suffix, newSuffixSize));
      WriteTail(tmp, img.suffix, SuffixPtr(newPrefixSize, capacity, valueSize), newSuffixSize, t);
      RewroteTwice(d, h, d', h', files, history, tmp, Bytes(t), Bytes(t'));
    }

    /** The first half of `atomicUpdate0`: everything up to the swap. */
    method Prepare(capacity: nat, newPrefixSize: nat, newSuffixSize: nat, parts: seq<seq<seq<byte>>>,
                   unique: string, create: bool)
      requires Valid() && mapped == path
      requires Sized(Concat(parts), valueSize) && |Concat(parts)| <= capacity
      modifies `files, `history
      ensures path in files && files[path] == old(files[path]) && Bak(path) !in files
      ensures create ==>
        && Tmp(path, unique) in files
        && files[Tmp(path, unique)] ==
           Bytes(Updated(old(Contents()), Concat(parts), capacity, newPrefixSize, newSuffixSize, valueSize))
      ensures !create ==> files == old(files) - {Bak(path)}
      ensures Untouched(old(files), files, path, unique)
      ensures old(history) <= history && Recovers(history, |old(history)|, |history|, path, old(files[path]))
    {
      hide Room, Bytes, Load, Sized, Updated, Concat, Bak, Tmp, Rewrote;
      var bak, tmp := Bak(path), Tmp(path, unique);
      Names(path, unique);
      if bak in files {
        Remove(bak);
      }
      if create {
        ghost var d, h := files, history;
        BuildTmp(tmp, capacity, newPrefixSize, newSuffixSize, parts);
        ghost var img := Updated(old(Contents()), Concat(parts), capacity, newPrefixSize, newSuffixSize, valueSize);
        TmpHolds(d, h, files, history, tmp, Bytes(img));
        RewroteRecovers(h, |old(history)|, d, files, history, path, old(files[path]), unique, Bytes(img));
        RewroteUntouched(d, h, files, history, path, unique, Bytes(img));
      }
    }

    /** The way back when the new file could not be moved in. */
    method SwapBack(unique: string, restore: bool)
      requires mapped == Bak(path) && path !in files && Bak(path) in files
      modifies `files, `history, `mapped
      ensures mapped == (if restore then Bak(path) else path) && mapped in files && files[mapped] == old(files[Bak(path)])
      ensures Tmp(path, unique) !in files && Untouched(old(files), files, path, unique)
      ensures old(history) <= history && Recovers(history, |old(history)|, |history|, path, old(files[Bak(path)]))
    {
      hide Bak, Tmp;
      Names(path, unique);
      if !restore {
        Rename(mapped, path);
        mapped := path;
      }
      Remove(Tmp(path, unique));
    }

    /** The second half: the swap through the backup, or the way back. */
    method SwapIn(unique: string, faults: Faults) returns (ok: bool, ghost swapped: nat)
      requires mapped == path && path in files && Bak(path) !in files && Tmp(path, unique) in files
      modifies `files, `history, `mapped
      ensures ok <==> !faults.backup && !faults.swap
      ensures mapped in files && files[mapped] == if ok then old(files[Tmp(path, unique)]) else old(files[path])
      ensures mapped == if !faults.backup && faults.swap && faults.restore then Bak(path) else path
      ensures Tmp(path, unique) !in files && Untouched(old(files), files, path, unique)
      ensures old(history) <= history && (ok <==> swapped < |history|)
      ensures Recovers(history, |old(history)|, swapped, path, old(files[path]))
      ensures Recovers(history, swapped, |history|, path, old(files[Tmp(path, unique)]))
    {
      hide Bak, Tmp;
      var bak, tmp := Bak(path), Tmp(path, unique);
      Names(path, unique);
      if faults.backup {
        Remove(tmp);
        return false, |history|;
      }
      Rename(path, bak);
      mapped := bak;
      if faults.swap {
        SwapBack(unique, faults.restore);
        return false, |history|;
      }
      swapped := |history|;
      Rename(tmp, path);
      mapped := path;
      if !faults.cleanup {
        Remove(bak);
      }
      ok := true;
    }

    /** `atomicUpdate` and `atomicUpdate0`, with the given calls to the file system failing. Stopped after any
        change to the disk, the vector is recovered as it was, or from `swapped` on as the update makes it. */
    method AtomicUpdate(capacity: nat, newPrefixSize: nat, newSuffixSize: nat, parts: seq<seq<seq<byte>>>,
                        unique: string, faults: Faults) returns (ok: bool, ghost swapped: nat)
      requires Valid() && Sized(Concat(parts), valueSize) && |Concat(parts)| <= capacity < TWO64
      modifies this
      ensures Valid() && path == old(path)
      ensures ok <==> old(mapped == path) && !faults.create && !faults.backup && !faults.swap
      ensures Contents() == if ok then Updated(old(Contents()), Concat(parts), capacity, newPrefixSize, newSuffixSize, valueSize)
                            else old(Contents())
      ensures old(mapped == path) ==>
        mapped == if !faults.create && !faults.backup && faults.swap && faults.restore then Bak(path) else path
      ensures Untouched(old(files), files, path, unique)
      ensures Tmp(path, unique) !in old(files) ==> Tmp(path, unique) !in files
      ensures old(mapped != path) ==> files == old(files) && history == old(history) && mapped == old(mapped)
      ensures old(history) <= history && (ok <==> swapped < |history|)
      ensures old(mapped == path) ==>
        && Recovers(history, |old(history)|, swapped, path, old(files[mapped]))
        && Recovers(history, swapped, |history|, path,
                    Bytes(Updated(old(Contents()), Concat(parts), capacity, newPrefixSize, newSuffixSize, valueSize)))
    {
      hide Room, Bytes, Load, Sized, Updated, Concat, Bak, Tmp, Recovered, Untouched;
      swapped := |history|;
      SameUntouched(files, path, unique);
      ghost var d := files;
      if mapped != path { return false, swapped; }
      ghost var img := Updated(Contents(), Concat(parts), capacity, newPrefixSize, newSuffixSize, valueSize);
      UpdatedIsProper(Contents(), Concat(parts), capacity, newPrefixSize, newSuffixSize, valueSize);
      LoadBytes(img, valueSize);
      Prepare(capacity, newPrefixSize, newSuffixSize, parts, unique, !faults.create);
      if faults.create { return false, |history|; }
      ghost var d' := files;
      ok, swapped := SwapIn(unique, faults);
      UntouchedTwice(d, d', files, path, unique);
      if ok {
        prefixSize, suffixSize := newPrefixSize, newSuffixSize;
      }
    }

    /** A vector that is not open yet. */
    constructor (size: nat, disk: Disk)
      ensures valueSize == size && files == disk && history == [disk]
    {
      valueSize, files, history := size, disk, [disk];
      path, mapped, prefixSize, suffixSize := "", "", 0, 0;
    }

    /** A new vector where there is no file. */
    method StartEmpty(name: string, prefix: nat)
      requires Recovered(files, name).None?
      modifies this
      ensures Valid() && path == mapped == name && prefixSize == prefix && Contents() == EmptyVector(prefix, valueSize)
      ensures old(history) <= history
      ensures forall k :: |old(history)| <= k < |history| ==>
        var found := Recovered(history[k], name);
        found.Some? && NoElements(found.value, prefix)
    {
      hide Bak, Load, NoElements, Bytes, EmptyVector, Zeros, Room;
      NewVector(prefix, valueSize);
      Create(name, INITIAL_CAPACITY, prefix, 0);
      path, mapped, prefixSize, suffixSize := name, name, prefix, 0;
    }

    /** `open` in each of its modes. An existing file is found as it is recovered, and stopping changes nothing; a new
        vector is empty, and stopping leaves none or an empty one. `fault` says that a file cannot be created. */
    method Open(name: string, mode: OpenMode, prefix: nat, fault: bool) returns (ok: bool)
      modifies this
      ensures var found := Recovered(old(files), name);
        && (ok <==> if mode == CREATE || (mode == OPEN_OR_CREATE && found.None?) then found.None? && !fault
                    else found.Some? && Load(found.value, prefix, valueSize).Some?)
        && (ok ==> Valid() && path == mapped == name && prefixSize == prefix)
        && (ok && found.Some? ==> Contents() == Load(found.value, prefix, valueSize).value)
        && (ok && found.None? ==>
              && Contents() == EmptyVector(prefix, valueSize) && Contents().size == 0 && Contents().capacity == 10
              && Contents().prefix == Zeros(prefix) && Contents().suffix == [])
      ensures old(history) <= history
      ensures forall k :: |old(history)| <= k < |history| ==>
        var found := Recovered(history[k], name);
        || found == Recovered(old(files), name)
        || (Recovered(old(files), name).None? && found.Some? && NoElements(found.value, prefix))
    {
      hide Bak, Load, NoElements, Bytes, EmptyVector;
      NewVector(prefix, valueSize);
      Names(name, "");
      var bak := Bak(name);
      var fileExists := true;
      if name in files {
        if bak in files { Remove(bak); }
      } else if bak in files {
        Rename(bak, name);
      } else {
        fileExists := false;
      }
      if mode == OPEN || (mode == OPEN_OR_CREATE && fileExists) {
        if name !in files || Load(files[name], prefix, valueSize).None? { return false; }
        path, mapped, prefixSize := name, name, prefix;
        suffixSize := |Load(files[name], prefix, valueSize).value.suffix|;
      } else {
        if name in files || fault { return false; }
        StartEmpty(name, prefix);
      }
      ok := true;
    }

    /** An update that keeps the prefix and the suffix. */
    method Replace(capacity: nat, parts: seq<seq<seq<byte>>>, unique: string, faults: Faults) returns (ok: bool)
      requires Valid() && Sized(Concat(parts), valueSize) && |Concat(parts)| <= capacity < TWO64
      modifies this
      ensures Valid() && path == old(path) && old(history) <= history
      ensures ok <==> old(mapped == path) && !faults.create && !faults.backup && !faults.swap
      ensures prefixSize == old(prefixSize)
      ensures ok ==> mapped == path && Contents().capacity == capacity && Items() == Concat(parts)
      ensures !ok ==> Contents() == old(Contents())
      ensures Contents().prefix == old(Contents().prefix) && Contents().suffix == old(Contents().suffix)
      ensures old(mapped == path) ==>
        AllHold(history, |old(history)|, path, prefixSize, valueSize, {old(Items()), Concat(parts)})
    {
      hide Load, Cut, Flat, Room, Updated, Recovered, Sized, Recovers, Untouched, AllHold, Bytes, Concat, Bak, Tmp;
      ghost var img, was, h := Contents(), files[mapped], history;
      ItemsOf(was, prefixSize, valueSize);
      ItemsOfUpdated(img, Concat(parts), capacity, valueSize);
      ghost var swapped;
      ok, swapped := AtomicUpdate(capacity, prefixSize, suffixSize, parts, unique, faults);
      ItemsOf(files[mapped], prefixSize, valueSize);
      if old(mapped == path) {
        UpdateHolds(history, |h|, swapped, path, was, img, Concat(parts), capacity, valueSize);
      }
    }

    /** `reserve`. */
    method Reserve(n: nat, unique: string, faults: Faults) returns (ok: bool)
      requires Valid() && n < TWO64
      modifies this
      ensures Valid() && path == old(path) && Items() == old(Items()) && old(history) <= history
      ensures Contents().prefix == old(Contents().prefix) && Contents().suffix == old(Contents().suffix)
      ensures ok <==>
                || n <= old(Contents().capacity)
                || (old(mapped == path) && !faults.create && !faults.backup && !faults.swap)
      ensures ok && n > old(Contents().capacity) ==> Contents().capacity == n
      ensures prefixSize == old(prefixSize) && (ok && old(mapped == path) ==> mapped == path)
      ensures !ok || n <= old(Contents().capacity) ==> Contents() == old(Contents())
      ensures old(mapped == path) ==>
        AllHold(history, |old(history)|, path, prefixSize, valueSize, {old(Items())})
    {
      hide Load, Cut, Sized, Concat, Bak, Tmp, Recovered;
      var img := Load(files[mapped], prefixSize, valueSize).value;
      var items := Cut(img.data, valueSize, img.size);
      ItemsOf(files[mapped], prefixSize, valueSize);
      if n <= img.capacity { return true; }
      JustOne(items);
      ok := Replace(n, [items], unique, faults);
    }

    /** `insert` of the values of a range. */
    method Insert(position: nat, values: seq<seq<byte>>, unique: string, faults: Faults) returns (ok: bool)
      requires Valid() && position <= |Items()| && Sized(values, valueSize)
      requires Grown(Contents().capacity, |Items()| + |values|) < TWO64
      modifies this
      ensures Valid() && path == old(path) && old(history) <= history
      ensures ok <==> old(mapped == path) && !faults.create && !faults.backup && !faults.swap
      ensures ok ==> Items() == old(Items())[..position] + values + old(Items())[position..]
      ensures ok ==>
                var c, n := old(Contents().capacity), |old(Items())| + |values|;
                Contents().capacity == if n <= c then c else if n <= c + c / 2 + 1 then c + c / 2 + 1 else n
      ensures !ok ==> Contents() == old(Contents())
      ensures Contents().prefix == old(Contents().prefix) && Contents().suffix == old(Contents().suffix)
      ensures old(mapped == path) ==> AllHold(history, |old(history)|, path, prefixSize, valueSize,
          {old(Items()), old(Items())[..position] + values + old(Items())[position..]})
    {
      hide Load, Cut, Sized, Concat, Bak, Tmp, Recovered;
      var img := Load(files[mapped], prefixSize, valueSize).value;
      var items := Cut(img.data, valueSize, img.size);
      ItemsOf(files[mapped], prefixSize, valueSize);
      var capacity := Grown(img.capacity, img.size + |values|);
      GrownFits(img.capacity, img.size + |values|);
      ThreeParts(items[..position], values, items[position..]);
      SizedParts(items, position, values, valueSize);
      ok := Replace(capacity, [items[..position], values, items[position..]], unique, faults);
    }

    /** `erase` of a range. */
    method Erase(first: nat, last: nat, unique: string, faults: Faults) returns (ok: bool)
      requires Valid() && first <= last <= |Items()|
      modifies this
      ensures Valid() && path == old(path) && old(history) <= history
      ensures ok <==> old(mapped == path) && !faults.create && !faults.backup && !faults.swap
      ensures ok ==> Items() == old(Items())[..first] + old(Items())[last..]
      ensures Contents().capacity == old(Contents().capacity)
      ensures !ok ==> Contents() == old(Contents())
      ensures Contents().prefix == old(Contents().prefix) && Contents().suffix == old(Contents().suffix)
      ensures old(mapped == path) ==> AllHold(history, |old(history)|, path, prefixSize, valueSize,
          {old(Items()), old(Items())[..first] + old(Items())[last..]})
    {
      hide Load, Cut, Sized, Concat, Bak, Tmp, Recovered;
      var img := Load(files[mapped], prefixSize, valueSize).value;
      var items := Cut(img.data, valueSize, img.size);
      ItemsOf(files[mapped], prefixSize, valueSize);
      ThreeParts(items[..first], items[last..], []);
      SizedRange(items, first, last, valueSize);
      ok := Replace(img.capacity, [items[..first], items[last..]], unique, faults);
    }

    /** The two writes of `push_back`, when there is room. */
    method Append(val: seq<byte>)
      requires Valid() && Contents().size < Contents().capacity && |val| == valueSize
      modifies `files, `history
      ensures Valid() && Items() == old(Items()) + [val] && old(history) <= history
      ensures Contents().capacity == old(Contents().capacity)
      ensures Contents().prefix == old(Contents().prefix) && Contents().suffix == old(Contents().suffix)
      ensures mapped == path ==>
        AllHold(history, |old(history)|, path, prefixSize, valueSize, {old(Items()), old(Items()) + [val]})
    {
      hide Load, Cut, Flat, Room, Bytes, Word, Put, Bak, Proper;
      var img := Load(files[mapped], prefixSize, valueSize).value;
      var at := Room(img.size, valueSize);
      BytesLoad(files[mapped], prefixSize, valueSize);
      AppendOne(img, val, valueSize);
      LengthOf(img);
      PutData(img, at, val);
      ghost var img' := img.(data := Put(img.data, at, val));
      Write(mapped, Put(files[mapped], DataPtr(prefixSize) + at, val));
      LengthOf(img');
      PutSize(img', img.size + 1);
      LoadBytes(img', valueSize);
      LoadBytes(img'.(size := img.size + 1), valueSize);
      Write(mapped, Put(files[mapped], SizePtr(prefixSize), Word(img.size + 1)));
    }

    /** `push_back`. */
    method PushBack(val: seq<byte>, unique: string, faults: Faults) returns (ok: bool)
      requires Valid() && |val| == valueSize && NextCapacity(Contents().capacity) < TWO64
      modifies this
      ensures Valid() && path == old(path) && old(history) <= history
      ensures ok <==>
                || |old(Items())| < old(Contents().capacity)
                || (old(mapped == path) && !faults.create && !faults.backup && !faults.swap)
      ensures Items() == if ok then old(Items()) + [val] else old(Items())
      ensures Contents().prefix == old(Contents().prefix) && Contents().suffix == old(Contents().suffix)
      ensures ok ==>
                var c := old(Contents().capacity);
                Contents().capacity == if |old(Items())| < c then c else c + c / 2 + 1
      ensures old(mapped == path) ==>
        AllHold(history, |old(history)|, path, prefixSize, valueSize, {old(Items()), old(Items()) + [val]})
    {
      hide Load, Cut, AllHold, Bak, Tmp, Sized;
      var img := Load(files[mapped], prefixSize, valueSize).value;
      ItemsOf(files[mapped], prefixSize, valueSize);
      NothingYet(history, path, prefixSize, valueSize, {Items()});
      ok := true;
      if img.capacity == img.size {
        ok := Reserve(NextCapacity(img.capacity), unique, faults);
      }
      ghost var h := history;
      ItemsOf(files[mapped], prefixSize, valueSize);
      if old(mapped == path) {
        NothingYet(h, path, prefixSize, valueSize, {old(Items()), old(Items()) + [val]});
        HoldTogether(h, h, |old(history)|, path, prefixSize, valueSize, old(Items()), old(Items()) + [val]);
      }
      if ok {
        Append(val);
        if old(mapped == path) {
          HoldTogether(h, history, |old(history)|, path, prefixSize, valueSize, old(Items()), old(Items()) + [val]);
        }
      }
    }

    /** `pop_back`. */
    method PopBack()
      requires Valid() && Items() != []
      modifies `files, `history
      ensures Valid() && Items() == old(Items())[..|old(Items())| - 1] && old(history) <= history
      ensures Contents() == old(Contents()).(size := old(Contents().size) - 1)
      ensures mapped == path ==>
        AllHold(history, |old(history)|, path, prefixSize, valueSize, {old(Items()), old(Items())[..|old(Items())| - 1]})
    {
      hide Load, Cut, Flat, Room, Bytes, Word, Put, Proper;
      var img := Load(files[mapped], prefixSize, valueSize).value;
      ItemsOf(files[mapped], prefixSize, valueSize);
      BytesLoad(files[mapped], prefixSize, valueSize);
      LengthOf(img);
      PutSize(img, img.size - 1);
      FewerItems(img, img.size - 1, valueSize);
      LoadBytes(img.(size := img.size - 1), valueSize);
      Write(mapped, Put(files[mapped], SizePtr(prefixSize), Word(img.size - 1)));
    }
  }

  lemma AppendOne(i: Image, val: seq<byte>, valueSize: nat)
    requires Proper(i, valueSize) && i.size < i.capacity && |val| == valueSize
    ensures Room(i.size, valueSize) + |val| <= |i.data|
    ensures var data := Put(i.data, Room(i.size, valueSize), val);
      && Proper(i.(data := data), valueSize) && Proper(i.(data := data, size := i.size + 1), valueSize)
      && Cut(data, valueSize, i.size) == Cut(i.data, valueSize, i.size)
      && Cut(data, valueSize, i.size + 1) == Cut(i.data, valueSize, i.size) + [val]
  {
    hide Cut, Flat, Room;
    var n := i.size;
    RoomNext(n, valueSize);
    RoomGrows(n + 1, i.capacity, valueSize);
    var items := Cut(i.data, valueSize, n);
    FlatCut(i.data, valueSize, n);
    var data, rest := Put(i.data, Room(n, valueSize), val), i.data[Room(n, valueSize) + valueSize..];
    assert data == Flat(items) + (val + rest) && data == (Flat(items) + val) + rest;
    CutFlat(items, val + rest, valueSize);
    FlatOne(items, val);
    assert Sized(items + [val], valueSize);
    CutFlat(items + [val], rest, valueSize);
  }

  lemma FlatOne(items: seq<seq<byte>>, val: seq<byte>)
    ensures Flat(items + [val]) == Flat(items) + val
  {
    FlatConcat(items, [val]);
    assert [val][1..] == [] && Flat([val]) == val + Flat([]);
  }

  lemma FewerItems(i: Image, n: nat, valueSize: nat)
    requires Proper(i, valueSize) && n <= i.size
    ensures Proper(i.(size := n), valueSize)
    ensures |Cut(i.data, valueSize, i.size)| == i.size
            && Cut(i.data, valueSize, n) == Cut(i.data, valueSize, i.size)[..n]
  {
    hide Cut, Flat, Room;
    RoomGrows(i.size, i.capacity, valueSize);
    FlatCut(i.data, valueSize, i.size);
    var items, rest := Cut(i.data, valueSize, i.size), i.data[Room(i.size, valueSize)..];
    assert items[..n] + items[n..] == items;
    FlatConcat(items[..n], items[n..]);
    assert i.data == Flat(items[..n]) + (Flat(items[n..]) + rest);
    assert Sized(items[..n], valueSize);
    CutFlat(items[..n], Flat(items[n..]) + rest, valueSize);
  }

  /** The capacity after an insertion: unchanged, half as much again, or just enough. */
  function Grown(capacity: nat, size: nat): nat {
    if size <= capacity then capacity
    else if size <= NextCapacity(capacity) then NextCapacity(capacity)
    else size
  }

  function NextCapacity(capacity: nat): nat {
    capacity + capacity / 2 + 1
  }

  lemma GrownFits(capacity: nat, size: nat)
    ensures size <= Grown(capacity, size)
  {
  }

  lemma ThreeParts(a: seq<seq<byte>>, b: seq<seq<byte>>, c: seq<seq<byte>>)
    ensures Concat([a, b, c]) == a + b + c && Concat([a, b]) == a + b
  {
    assert [a, b, c][..2] == [a, b] && [a, b][..1] == [a];
    JustOne(a);
  }

  lemma SizedParts(items: seq<seq<byte>>, position: nat, values: seq<seq<byte>>, valueSize: nat)
    requires Sized(items, valueSize) && Sized(values, valueSize) && position <= |items|
    ensures Sized(items[..position] + values + items[position..], valueSize)
  {
  }

  lemma SizedRange(items: seq<seq<byte>>, first: nat, last: nat, valueSize: nat)
    requires Sized(items, valueSize) && first <= last <= |items|
    ensures Sized(items[..first] + items[last..], valueSize)
  {
  }

  lemma UpdateHolds(h: seq<Disk>, low: nat, swapped: nat, path: string, was: seq<byte>, i: Image,
                    items: seq<seq<byte>>, capacity: nat, valueSize: nat)
    requires Load(was, |i.prefix|, valueSize) == Some(i) && Recovers(h, low, swapped, path, was)
    requires Recovers(h, swapped, |h|, path, Bytes(Updated(i, items, capacity, |i.prefix|, |i.suffix|, valueSize)))
    requires Sized(items, valueSize) && |items| <= capacity < TWO64
    ensures AllHold(h, low, path, |i.prefix|, valueSize, {ElementsOf(i, valueSize), items})
  {
    hide Load, Cut, Flat, Room, Recovered, Updated, Bytes, Sized;
    UpdatedIsProper(i, items, capacity, |i.prefix|, |i.suffix|, valueSize);
    LoadBytes(Updated(i, items, capacity, |i.prefix|, |i.suffix|, valueSize), valueSize);
    ItemsOfUpdated(i, items, capacity, valueSize);
  }

  /** Every point of the history recovers to a vector with one of these contents. */
  ghost predicate AllHold(
    h: seq<Disk>, low: nat, path: string, prefixSize: nat, valueSize: nat, choices: set<seq<seq<byte>>>) {
    forall k :: low <= k < |h| ==>
      && Recovered(h[k], path).Some?
      && Load(Recovered(h[k], path).value, prefixSize, valueSize).Some?
      && ElementsOf(Load(Recovered(h[k], path).value, prefixSize, valueSize).value, valueSize) in choices
  }

  lemma NothingYet(h: seq<Disk>, path: string, prefixSize: nat, valueSize: nat, choices: set<seq<seq<byte>>>)
    ensures AllHold(h, |h|, path, prefixSize, valueSize, choices)
  {
  }

  lemma HoldTogether(h: seq<Disk>, h': seq<Disk>, low: nat, path: string, prefixSize: nat, valueSize: nat,
                     items: seq<seq<byte>>, more: seq<seq<byte>>)
    requires h <= h' && AllHold(h, low, path, prefixSize, valueSize, {items})
    requires AllHold(h', |h|, path, prefixSize, valueSize, {items, more})
    ensures AllHold(h', low, path, prefixSize, valueSize, {items, more})
  {
    hide Load, Recovered, ElementsOf;
    forall k | low <= k < |h'| && k < |h| ensures h'[k] == h[k] {}
  }

  function ElementsOf(i: Image, valueSize: nat): seq<seq<byte>> {
    Cut(i.data, valueSize, i.size)
  }

  lemma ItemsOf(file: seq<byte>, prefixSize: nat, valueSize: nat)
    requires Load(file, prefixSize, valueSize).Some?
    ensures var i := Load(file, prefixSize, valueSize).value;
      var items := Cut(i.data, valueSize, i.size);
      && Sized(items, valueSize) && |items| == i.size <= i.capacity < TWO64 && |i.prefix| == prefixSize
      && |i.data| == Room(i.capacity, valueSize)
  {
    hide Load, Cut, Flat, Room;
    BytesLoad(file, prefixSize, valueSize);
    var i := Load(file, prefixSize, valueSize).value;
    RoomGrows(i.size, i.capacity, valueSize);
    FlatCut(i.data, valueSize, i.size);
  }

  lemma JustOne(items: seq<seq<byte>>)
    ensures Concat([items]) == items
  {
  }

  lemma ItemsOfUpdated(i: Image, items: seq<seq<byte>>, capacity: nat, valueSize: nat)
    requires Sized(items, valueSize) && |items| <= capacity
    ensures var u := Updated(i, items, capacity, |i.prefix|, |i.suffix|, valueSize);
      && Cut(u.data, valueSize, u.size) == items && u.prefix == i.prefix && u.suffix == i.suffix
      && u.capacity == capacity
  {
    hide Cut, Flat, Room;
    RoomGrows(|items|, capacity, valueSize);
    var room, flat := Room(capacity, valueSize), Flat(items);
    CutFlat(items, [], valueSize);
    assert Resized(flat, room) == flat + Zeros(room - |flat|);
    CutFlat(items, Zeros(room - |flat|), valueSize);
  }

  lemma UpdatedIsProper(
    i: Image, items: seq<seq<byte>>, capacity: nat, prefixSize: nat, suffixSize: nat, valueSize: nat)
    requires |items| <= capacity < TWO64
    ensures var u := Updated(i, items, capacity, prefixSize, suffixSize, valueSize);
      Proper(u, valueSize) && |u.prefix| == prefixSize && |u.suffix| == suffixSize
  {
  }

  lemma TmpHolds(d: Disk, h: seq<Disk>, d': Disk, h': seq<Disk>, tmp: string, bytes: seq<byte>)
    requires Rewrote(d, h, d', h', tmp, bytes)
    ensures tmp in d' && d'[tmp] == bytes
  {
  }

  lemma NothingToCopy(bytes: seq<byte>, n: nat)
    ensures |bytes| == 0 || n == 0 ==> Resized(bytes, n) == Zeros(n)
  {
  }

  lemma NoItems(parts: seq<seq<seq<byte>>>, room: nat)
    ensures Concat(parts[..0]) == [] && Resized(Flat([]), room) == Zeros(room)
  {
  }

  lemma LengthOf(i: Image)
    ensures |Bytes(i)| == |i.prefix| + METADATA_SIZE + |i.data| + |i.suffix|
  {
  }
}
