/** The disk tier of the prefix store: files, an index of them, and what a restart rebuilds. */
module DiskTier {
  import opened Common
  import opened DiskCodec
  import PrefixStores

  type Key = seq<Token>

  datatype DiskMeta = DiskMeta(nTokens: nat, file: string, bytes: nat, tick: nat)

  datatype Entry = Entry(nTokens: nat, data: Bytes)

  ghost function Sizes(index: map<Key, DiskMeta>): map<Key, nat> {
    map k | k in index :: index[k].bytes
  }

  lemma SizesInsert(index: map<Key, DiskMeta>, k: Key, m: DiskMeta)
    ensures k in index ==> index[k].bytes <= SumOf(Sizes(index))
    ensures SumOf(Sizes(index[k := m])) == SumOf(Sizes(index)) - (if k in index then index[k].bytes else 0) + m.bytes
  {
    SumWith(Sizes(index), k, m.bytes);
    assert Sizes(index[k := m]) == Sizes(index)[k := m.bytes];
    if k in index {
      SumWithout(Sizes(index), k);
    } else {
      assert Sizes(index) - {k} == Sizes(index);
    }
  }

  lemma SizesRemove(index: map<Key, DiskMeta>, k: Key)
    requires k in index
    ensures SumOf(Sizes(index)) == index[k].bytes + SumOf(Sizes(index - {k}))
  {
    SumWithout(Sizes(index), k);
    assert Sizes(index) - {k} == Sizes(index - {k});
  }

  lemma {:induction false} SubmapSum(a: map<Key, nat>, b: map<Key, nat>)
    requires forall k :: k in a ==> k in b && a[k] == b[k]
    ensures SumOf(a) <= SumOf(b)
    decreases |a|
  {
    if a != map[] {
      var k :| k in a;
      SumWithout(a, k);
      SumWithout(b, k);
      SubmapSum(a - {k}, b - {k});
    }
  }

  /** The bytes of the file an entry is kept in. */
  ghost function FileOf(fpHash: nat, key: Key, data: Bytes): Bytes {
    HeaderBytes(DiskHeader(fpHash, |key|, key, |data|)) + data
  }

  /** What the scan takes a file for. */
  predicate Accepts(fpHash: nat, f: Bytes) {
    var r := ReadHeader(f);
    r.Ok? && r.value.fpHash == fpHash && r.value.key != [] && r.value.nTokens == |r.value.key|
  }

  lemma AcceptsOwn(fpHash: nat, key: Key, data: Bytes)
    requires fpHash < 0x1_0000_0000_0000_0000 && |key| < 0x1_0000_0000 && |data| < 0x1_0000_0000_0000_0000
    ensures Accepts(fpHash, FileOf(fpHash, key, data)) <==> InLimits(key, data)
    ensures InLimits(key, data) ==> ReadHeader(FileOf(fpHash, key, data)).value == DiskHeader(fpHash, |key|, key, |data|)
    ensures ReadEntryData(FileOf(fpHash, key, data)) == if InLimits(key, data) then Ok(data) else ReadEntryData(FileOf(fpHash, key, data))
    ensures !InLimits(key, data) ==> ReadEntryData(FileOf(fpHash, key, data)).Err?
  {
    EntryRoundTrip(fpHash, key, |key|, data);
  }

  /** Oldest first: nothing kept was used before something dropped. */
  ghost predicate LruCut(before: map<Key, DiskMeta>, after: map<Key, DiskMeta>) {
    && (forall k :: k in after ==> k in before && after[k] == before[k])
    && forall d, k :: d in before && d !in after && k in after ==> before[d].tick <= after[k].tick
  }

  /** No more is dropped than the cap asks for: with the newest of the dropped entries the rest
    * would be over it. */
  ghost predicate NeededCut(before: map<Key, DiskMeta>, after: map<Key, DiskMeta>, maxBytes: nat) {
    LruCut(before, after) && (after == before || exists v :: NewestDropped(before, after, v) && SumOf(Sizes(after)) + before[v].bytes > maxBytes)
  }

  ghost predicate NewestDropped(before: map<Key, DiskMeta>, after: map<Key, DiskMeta>, v: Key) {
    v in before && v !in after && forall d :: d in before && d !in after ==> before[d].tick <= before[v].tick
  }

  /** A key this tier could answer a bind with: a stored head of the prompt, no longer than `searchLen`. */
  ghost predicate Offered(index: map<Key, DiskMeta>, prompt: Key, searchLen: nat, k: Key) {
    k in index && k <= prompt && |k| <= searchLen
  }

  /** What a scan of a directory finds. */
  ghost predicate Scanned(dir: map<string, Bytes>, fpHash: nat, index: map<Key, DiskMeta>) {
    ScannedBut(dir, fpHash, index, {})
  }

  /** The same with some files still to come. */
  ghost predicate ScannedBut(dir: map<string, Bytes>, fpHash: nat, index: map<Key, DiskMeta>, todo: set<string>) {
    && (forall k :: k in index ==> FoundIn(dir, fpHash, k, index[k]))
    && (forall f :: f in dir && f !in todo && Accepts(fpHash, dir[f]) ==> ReadHeader(dir[f]).value.key in index)
  }

  ghost predicate FoundIn(dir: map<string, Bytes>, fpHash: nat, k: Key, m: DiskMeta) {
    && m.file in dir && Accepts(fpHash, dir[m.file])
    && ReadHeader(dir[m.file]).value.key == k && m.nTokens == |k| > 0 && m.bytes == ReadHeader(dir[m.file]).value.dataLen
  }

  method Scan(dir: map<string, Bytes>, fpHash: nat) returns (index: map<Key, DiskMeta>, used: nat, tick: nat)
    ensures Scanned(dir, fpHash, index) && used == SumOf(Sizes(index))
  {
    index, used, tick := map[], 0, 0;
    var todo := dir.Keys;
    while todo != {}
      invariant todo <= dir.Keys && used == SumOf(Sizes(index)) && ScannedBut(dir, fpHash, index, todo)
      decreases todo
    {
      hide SumOf, ReadHeader, Sizes, ScannedBut;
      var f :| f in todo;
      todo := todo - {f};
      if Accepts(fpHash, dir[f]) {
        var h := ReadHeader(dir[f]).value;
        tick := tick + 1;
        var mtime: nat :| true;
        var m := DiskMeta(h.nTokens, f, h.dataLen, if mtime < tick then tick else mtime);
        ScanNext(dir, fpHash, index, todo + {f}, f, m);
        assert todo + {f} - {f} == todo;
        SizesInsert(index, h.key, m);
        if h.key in index { used := used - index[h.key].bytes; }
        index, used := index[h.key := m], used + h.dataLen;
      }
    }
  }

  lemma ScanNext(dir: map<string, Bytes>, fpHash: nat, index: map<Key, DiskMeta>, todo: set<string>, f: string, m: DiskMeta)
    requires ScannedBut(dir, fpHash, index, todo) && f in todo && f in dir
    ensures !Accepts(fpHash, dir[f]) ==> ScannedBut(dir, fpHash, index, todo - {f})
    ensures Accepts(fpHash, dir[f]) && m == DiskMeta(ReadHeader(dir[f]).value.nTokens, f, ReadHeader(dir[f]).value.dataLen, m.tick) ==>
      ScannedBut(dir, fpHash, index[ReadHeader(dir[f]).value.key := m], todo - {f})
  {
    hide ReadHeader;
  }

  ghost predicate EntryIntact(fpHash: nat, nameOf: Key -> string, files: map<string, Bytes>, k: Key, m: DiskMeta, data: Bytes) {
    && |k| < 0x1_0000_0000 && |data| < 0x1_0000_0000_0000_0000
    && m.file == nameOf(k) && m.file in files && files[m.file] == FileOf(fpHash, k, data) && m.bytes == |data|
  }

  /** No other indexed key has this key's file name. */
  ghost predicate NoClash(nameOf: Key -> string, index: map<Key, DiskMeta>, key: Key) {
    forall k :: k in index && k != key ==> nameOf(k) != nameOf(key)
  }

  /** A file of the directory that a scan would take belongs to an indexed key. */
  ghost predicate Owned(index: map<Key, DiskMeta>, f: string) {
    exists k :: k in index && index[k].file == f
  }

  /** The directory mirrors the index: every indexed key's file is intact, file names are distinct,
    * and nothing else would be scanned. */
  ghost predicate Mirrors(fpHash: nat, nameOf: Key -> string, files: map<string, Bytes>, index: map<Key, DiskMeta>, last: map<Key, Bytes>) {
    && last.Keys == index.Keys
    && (forall k :: k in index ==> EntryIntact(fpHash, nameOf, files, k, index[k], last[k]))
    && (forall k :: k in index ==> NoClash(nameOf, index, k))
    && (forall f :: f in files && Accepts(fpHash, files[f]) ==> Owned(index, f))
  }

  lemma MirrorsRemove(fpHash: nat, nameOf: Key -> string, files: map<string, Bytes>, index: map<Key, DiskMeta>, last: map<Key, Bytes>, v: Key)
    requires Mirrors(fpHash, nameOf, files, index, last) && v in index
    ensures Mirrors(fpHash, nameOf, files - {index[v].file}, index - {v}, last - {v})
  {
    hide FileOf, Accepts;
    var files', index', last' := files - {index[v].file}, index - {v}, last - {v};
    assert NoClash(nameOf, index, v);
    forall k | k in index'
      ensures EntryIntact(fpHash, nameOf, files', k, index'[k], last'[k]) && NoClash(nameOf, index', k)
    {
      assert EntryIntact(fpHash, nameOf, files, k, index[k], last[k]) && NoClash(nameOf, index, k);
      assert EntryIntact(fpHash, nameOf, files, v, index[v], last[v]);
    }
    forall f | f in files' && Accepts(fpHash, files'[f]) ensures Owned(index', f) {
      assert Owned(index, f);
      var k :| k in index && index[k].file == f;
      assert k in index';
    }
  }

  /** Storing a key over an intact directory keeps it intact exactly when no other indexed key has
    * the same file name. */
  lemma MirrorsInsert(fpHash: nat, nameOf: Key -> string, files: map<string, Bytes>, index: map<Key, DiskMeta>, last: map<Key, Bytes>,
                      key: Key, m: DiskMeta, data: Bytes)
    requires Mirrors(fpHash, nameOf, files, index, last)
    requires |key| < 0x1_0000_0000 && |data| < 0x1_0000_0000_0000_0000 && m.file == nameOf(key) && m.bytes == |data|
    ensures Mirrors(fpHash, nameOf, files[m.file := FileOf(fpHash, key, data)], index[key := m], last[key := data])
      <==> NoClash(nameOf, index, key)
  {
    hide FileOf, Accepts;
    var files', index', last' := files[m.file := FileOf(fpHash, key, data)], index[key := m], last[key := data];
    if NoClash(nameOf, index, key) {
      forall k | k in index'
        ensures EntryIntact(fpHash, nameOf, files', k, index'[k], last'[k]) && NoClash(nameOf, index', k)
      {
        if k != key { assert EntryIntact(fpHash, nameOf, files, k, index[k], last[k]) && NoClash(nameOf, index, k); }
      }
      forall f | f in files' && Accepts(fpHash, files'[f]) ensures Owned(index', f) {
        assert index'[key].file == m.file;
        if f != m.file {
          assert Owned(index, f);
          var k :| k in index && index[k].file == f;
          assert EntryIntact(fpHash, nameOf, files, k, index[k], last[k]);
          assert k != key && index'[k].file == f;
        }
      }
    } else {
      var k :| k in index && k != key && nameOf(k) == nameOf(key);
      assert !NoClash(nameOf, index', key) && key in index';
    }
  }

  /** The file an entry points to reads back as this data, with the length on record. */
  ghost predicate Reads(files: map<string, Bytes>, m: DiskMeta, data: Bytes) {
    m.file in files && ReadEntryData(files[m.file]) == Ok(data) && |data| == m.bytes
  }

  /** What another put does to an intact entry within the limits: it still reads back as it was
    * stored exactly when the two keys' files have different names, or hold the same data. */
  lemma PutKeepsReads(fpHash: nat, nameOf: Key -> string, files: map<string, Bytes>, index: map<Key, DiskMeta>, last: map<Key, Bytes>,
                      key: Key, m: DiskMeta, data: Bytes, k: Key)
    requires fpHash < 0x1_0000_0000_0000_0000 && Mirrors(fpHash, nameOf, files, index, last)
    requires k in index && k != key && InLimits(k, last[k])
    requires |key| < 0x1_0000_0000 && |data| < 0x1_0000_0000_0000_0000 && m.file == nameOf(key) && m.bytes == |data|
    ensures Reads(files[m.file := FileOf(fpHash, key, data)], index[key := m][k], last[k])
      <==> nameOf(k) != nameOf(key) || (InLimits(key, data) && data == last[k])
  {
    hide FileOf, ReadEntryData, InLimits;
    assert EntryIntact(fpHash, nameOf, files, k, index[k], last[k]);
    AcceptsOwn(fpHash, k, last[k]);
    AcceptsOwn(fpHash, key, data);
  }

  /** A restart scans the same keys, each with its length, file and size, when the mirrored
    * entries are within the format's limits; entries beyond them are not seen again. */
  lemma ScanOfMirror(fpHash: nat, nameOf: Key -> string, files: map<string, Bytes>, index: map<Key, DiskMeta>, last: map<Key, Bytes>,
                     scanned: map<Key, DiskMeta>)
    requires fpHash < 0x1_0000_0000_0000_0000
    requires Mirrors(fpHash, nameOf, files, index, last) && Scanned(files, fpHash, scanned)
    requires forall k :: k in index ==> index[k].nTokens == |k|
    ensures forall k :: k in scanned <==> k in index && InLimits(k, last[k])
    ensures forall k :: k in scanned ==> scanned[k] == index[k].(tick := scanned[k].tick)
  {
    hide FileOf, InLimits, ReadHeader;
    forall k | k in scanned
      ensures k in index && InLimits(k, last[k]) && scanned[k] == index[k].(tick := scanned[k].tick)
    {
      ScannedIsIndexed(fpHash, nameOf, files, index, last, scanned, k);
    }
    forall k | k in index && InLimits(k, last[k]) ensures k in scanned {
      assert EntryIntact(fpHash, nameOf, files, k, index[k], last[k]);
      AcceptsOwn(fpHash, k, last[k]);
      assert index[k].file in files;
    }
  }

  lemma ScannedIsIndexed(fpHash: nat, nameOf: Key -> string, files: map<string, Bytes>, index: map<Key, DiskMeta>, last: map<Key, Bytes>,
                         scanned: map<Key, DiskMeta>, k: Key)
    requires fpHash < 0x1_0000_0000_0000_0000
    requires Mirrors(fpHash, nameOf, files, index, last) && Scanned(files, fpHash, scanned) && k in scanned
    requires forall k :: k in index ==> index[k].nTokens == |k|
    ensures k in index && InLimits(k, last[k]) && scanned[k] == index[k].(tick := scanned[k].tick)
  {
    hide FileOf, InLimits, ReadHeader;
    var m := scanned[k];
    assert FoundIn(files, fpHash, k, m);
    assert Owned(index, m.file);
    var k' :| k' in index && index[k'].file == m.file;
    assert EntryIntact(fpHash, nameOf, files, k', index[k'], last[k']);
    AcceptsOwn(fpHash, k', last[k']);
  }

  ghost predicate KeysRight(index: map<Key, DiskMeta>) {
    forall k :: k in index ==> index[k].nTokens == |k| > 0
  }

  ghost predicate IsOldest(index: map<Key, DiskMeta>, v: Key) {
    v in index && forall k :: k in index ==> index[v].tick <= index[k].tick
  }

  lemma NeededNext(before: map<Key, DiskMeta>, now: map<Key, DiskMeta>, v: Key, maxBytes: nat)
    requires NeededCut(before, now, maxBytes) && IsOldest(now, v) && KeysRight(now)
    requires SumOf(Sizes(now - {v})) + now[v].bytes > maxBytes
    ensures NeededCut(before, now - {v}, maxBytes) && KeysRight(now - {v})
  {
    hide SumOf, Sizes;
    assert LruCut(before, now - {v});
    assert NewestDropped(before, now - {v}, v);
  }

  lemma LastNext(was: map<Key, Bytes>, now: map<Key, Bytes>, v: Key)
    requires LastKept(was, now)
    ensures LastKept(was, now - {v})
  {
  }

  lemma Smaller(index: map<Key, DiskMeta>, v: Key)
    requires v in index
    ensures |index - {v}| < |index|
  {
    assert (index - {v}).Keys == index.Keys - {v};
  }

  /** A freshly opened tier: everything scanned, or what of that the cap leaves. */
  ghost predicate OpenedAs(dir: map<string, Bytes>, fpHash: nat, maxBytes: nat, scanned: map<Key, DiskMeta>,
                           index: map<Key, DiskMeta>, files: map<string, Bytes>) {
    && Scanned(dir, fpHash, scanned) && NeededCut(scanned, index, maxBytes)
    && (WithinCap(scanned, maxBytes) ==> index == scanned && files == dir)
  }

  ghost predicate WithinCap(index: map<Key, DiskMeta>, maxBytes: nat) { maxBytes == 0 || SumOf(Sizes(index)) <= maxBytes }

  lemma OpenedFrom(dir: map<string, Bytes>, fpHash: nat, maxBytes: nat, scanned: map<Key, DiskMeta>,
                   index: map<Key, DiskMeta>, files: map<string, Bytes>)
    requires Scanned(dir, fpHash, scanned) && NeededCut(scanned, index, maxBytes)
    requires maxBytes == 0 || SumOf(Sizes(scanned)) <= maxBytes ==> index == scanned && files == dir
    ensures OpenedAs(dir, fpHash, maxBytes, scanned, index, files)
    ensures WithinCap(scanned, maxBytes) <==> maxBytes == 0 || SumOf(Sizes(scanned)) <= maxBytes
  {
  }

  /** Of the data known to be stored, that of the scanned keys. */
  ghost function KnownOf(scanned: map<Key, DiskMeta>, last: map<Key, Bytes>): map<Key, Bytes> {
    map k | k in scanned && k in last :: last[k]
  }

  /** Nothing but removals. */
  ghost predicate LastKept(was: map<Key, Bytes>, now: map<Key, Bytes>) {
    forall k :: k in now ==> k in was && now[k] == was[k]
  }

  class PrefixDisk {
    const fpHash: nat
    const maxBytes: nat
    const nameOf: Key -> string
    /** The `.ckpt` files of the directory. */
    var files: map<string, Bytes>
    var index: map<Key, DiskMeta>
    var usedBytes: nat
    var tick: nat
    /** The data last stored under each indexed key. */
    ghost var last: map<Key, Bytes>

    /** The byte count is the sum of the indexed sizes. */
    ghost predicate Accounts()
      reads this
    {
      && fpHash < 0x1_0000_0000_0000_0000
      && usedBytes == SumOf(Sizes(index)) && KeysRight(index)
    }

    ghost predicate Valid()
      reads this
    {
      Accounts() && (maxBytes > 0 ==> usedBytes <= maxBytes)
    }

    ghost predicate Mirrored()
      reads this
    {
      Mirrors(fpHash, nameOf, files, index, last)
    }

    /** An empty directory. */
    constructor (fpHash: nat, maxBytes: nat, nameOf: Key -> string)
      requires fpHash < 0x1_0000_0000_0000_0000
      ensures Valid() && Mirrored() && index == map[] && files == map[]
      ensures this.maxBytes == maxBytes && this.fpHash == fpHash && this.nameOf == nameOf
    {
      this.fpHash, this.maxBytes, this.nameOf := fpHash, maxBytes, nameOf;
      files, index, usedBytes, tick, last := map[], map[], 0, 0, map[];
    }

    /** `open`: the index is rebuilt from the headers of the files. */
    constructor Open(dir: map<string, Bytes>, fpHash: nat, maxBytes: nat, nameOf: Key -> string, ghost last: map<Key, Bytes>)
      requires fpHash < 0x1_0000_0000_0000_0000
      ensures Valid() && this.maxBytes == maxBytes && this.fpHash == fpHash && this.nameOf == nameOf
      ensures exists scanned :: (
        && OpenedAs(dir, fpHash, maxBytes, scanned, index, files) && LastKept(KnownOf(scanned, last), this.last)
        && (WithinCap(scanned, maxBytes) ==> this.last == KnownOf(scanned, last)))
    {
      this.fpHash, this.maxBytes, this.nameOf, this.last := fpHash, maxBytes, nameOf, map[];
      files, index, usedBytes, tick := dir, map[], 0, 0;
      new;
      Rebuild(last);
    }

    /** The scan, cut to the cap. */
    method Rebuild(ghost known: map<Key, Bytes>)
      requires fpHash < 0x1_0000_0000_0000_0000
      modifies this
      ensures Valid()
      ensures exists scanned :: (
        && OpenedAs(old(files), fpHash, maxBytes, scanned, index, files) && LastKept(KnownOf(scanned, known), last)
        && (WithinCap(scanned, maxBytes) ==> last == KnownOf(scanned, known)))
    {
      hide *;
      index, usedBytes, tick := Scan(files, fpHash);
      ghost var scanned := index;
      ScannedNonempty(files, fpHash, scanned);
      last := KnownOf(scanned, known);
      InBooks();
      EvictOverCap();
      OpenedFrom(old(files), fpHash, maxBytes, scanned, index, files);
      assert OpenedAs(old(files), fpHash, maxBytes, scanned, index, files);
    }

    method OldestKey() returns (victim: Key)
      requires index != map[]
      ensures victim in index && IsOldest(index, victim)
    {
      victim :| victim in index;
      var todo := index.Keys;
      while todo != {}
        invariant todo <= index.Keys && victim in index
        invariant forall k :: k in index && k !in todo ==> index[victim].tick <= index[k].tick
        decreases todo
      {
        var k :| k in todo;
        todo := todo - {k};
        if index[k].tick < index[victim].tick { victim := k; }
      }
    }

    /** Drops the oldest entries and their files until the cap holds. */
    method EvictOverCap()
      requires Accounts()
      modifies this`files, this`index, this`usedBytes, this`last
      ensures Valid() && NeededCut(old(index), index, maxBytes)
      ensures maxBytes == 0 || old(usedBytes) <= maxBytes ==> index == old(index) && files == old(files) && last == old(last)
      ensures old(Mirrored()) ==> Mirrored()
      ensures LastKept(old(last), last)
    {
      hide Mirrors, NeededCut, Accounts, LastKept;
      Unevicted(index, last, maxBytes);
      while maxBytes > 0 && usedBytes > maxBytes && index != map[]
        invariant Accounts() && NeededCut(old(index), index, maxBytes) && LastKept(old(last), last)
        invariant maxBytes == 0 || old(usedBytes) <= maxBytes ==>
          index == old(index) && files == old(files) && last == old(last) && usedBytes == old(usedBytes)
        invariant old(Mirrored()) ==> Mirrored()
        decreases |index|
      {
        DropOldest(old(index), old(last));
      }
      NothingUsed();
    }

    lemma NothingUsed()
      requires Accounts()
      ensures index == map[] ==> usedBytes == 0
    {
      assert index == map[] ==> Sizes(index) == map[];
    }

    method DropOldest(ghost index0: map<Key, DiskMeta>, ghost last0: map<Key, Bytes>)
      requires Accounts() && index != map[] && NeededCut(index0, index, maxBytes) && LastKept(last0, last)
      requires usedBytes > maxBytes
      modifies this`files, this`index, this`usedBytes, this`last
      ensures Accounts() && |index| < |old(index)| && NeededCut(index0, index, maxBytes) && LastKept(last0, last)
      ensures old(Mirrored()) ==> Mirrored()
    {
      hide *;
      InBooks();
      var victim := OldestKey();
      SizesRemove(index, victim);
      NeededNext(index0, index, victim, maxBytes);
      LastNext(last0, last, victim);
      Smaller(index, victim);
      var m := index[victim];
      if Mirrored() { MirrorsRemove(fpHash, nameOf, files, index, last, victim); }
      index, usedBytes, files, last := index - {victim}, usedBytes - m.bytes, files - {m.file}, last - {victim};
      InBooks();
    }

    /** What the books and the mirror amount to. */
    lemma InBooks()
      ensures Accounts() <==> fpHash < 0x1_0000_0000_0000_0000 && usedBytes == SumOf(Sizes(index)) && KeysRight(index)
      ensures Mirrored() <==> Mirrors(fpHash, nameOf, files, index, last)
      ensures Valid() ==> Accounts()
    {
    }

    /** Whether `put` writes: a key of the snapshot's length, and data. */
    predicate Writes(key: Key, nTokens: nat, data: Bytes) { key != [] && data != [] && |key| == nTokens }

    /** What is on record for a key stored now. */
    ghost function Record(key: Key, data: Bytes): DiskMeta
      reads this`tick
    {
      DiskMeta(|key|, nameOf(key), |data|, tick + 1)
    }

    /** Writes a snapshot and indexes it, if the file system is `writable`. A directory that mirrors the index
      * still does if no other indexed key has the file name, and, when nothing needs to be
      * dropped, only then. */
    method Put(key: Key, nTokens: nat, data: Bytes, writable: bool) returns (ok: bool)
      requires Valid() && nTokens < 0x1_0000_0000 && |data| < 0x1_0000_0000_0000_0000
      modifies this
      ensures Valid() && (ok <==> writable || !Writes(key, nTokens, data))
      ensures !(Writes(key, nTokens, data) && ok) ==> index == old(index) && files == old(files) && last == old(last)
      ensures Writes(key, nTokens, data) && ok ==> NeededCut(old(index)[key := old(Record(key, data))], index, maxBytes)
      ensures Writes(key, nTokens, data) && ok ==> LastKept(old(last)[key := data], last)
      ensures old(Mirrored()) && NoClash(nameOf, old(index), key) ==> Mirrored()
      ensures Writes(key, nTokens, data) && ok && Fits(old(index)[key := old(Record(key, data))]) ==>
        && index == old(index)[key := old(Record(key, data))] && last == old(last)[key := data]
        && files == old(files)[nameOf(key) := FileOf(fpHash, key, data)]
        && (old(Mirrored()) ==> (Mirrored() <==> NoClash(nameOf, old(index), key)))
    {
      hide Mirrors, NeededCut, NoClash, FileOf, Accounts, LastKept, SumOf, Sizes;
      if key == [] || data == [] || |key| != nTokens { return true; }
      var name := nameOf(key);
      var buf := WriteEntry(fpHash, key, nTokens, data);
      ok := writable;
      if !ok { return; }
      IsFileOf(fpHash, key, data, buf);
      IndexEntry(key, name, buf, data);
      InBooks();
      EvictOverCap();
    }

    /** An index within the cap. */
    ghost predicate Fits(index: map<Key, DiskMeta>) { maxBytes == 0 || SumOf(Sizes(index)) <= maxBytes }

    method IndexEntry(key: Key, name: string, buf: Bytes, data: Bytes)
      requires Accounts() && name == nameOf(key) && buf == FileOf(fpHash, key, data)
      requires 0 < |key| < 0x1_0000_0000 && |data| < 0x1_0000_0000_0000_0000
      modifies this
      ensures Accounts() && index == old(index)[key := old(Record(key, data))] && last == old(last)[key := data]
      ensures files == old(files)[nameOf(key) := FileOf(fpHash, key, data)]
      ensures old(Mirrored()) ==> (Mirrored() <==> NoClash(nameOf, old(index), key))
    {
      hide Mirrors, NoClash, FileOf, SumOf;
      tick := tick + 1;
      var m := DiskMeta(|key|, name, |data|, tick);
      SizesInsert(index, key, m);
      if Mirrored() { MirrorsInsert(fpHash, nameOf, files, index, last, key, m, data); }
      var was := if key in index then index[key].bytes else 0;
      files, index, usedBytes, last := files[name := buf], index[key := m], usedBytes - was + |data|, last[key := data];
    }

    method LongestKey(prompt: Key, searchLen: nat) returns (best: Option<Key>)
      requires Valid()
      ensures best.None? ==> forall k :: !Offered(index, prompt, searchLen, k)
      ensures best.Some? ==> Offered(index, prompt, searchLen, best.value)
      ensures best.Some? ==> forall k :: Offered(index, prompt, searchLen, k) ==> |k| <= |best.value|
    {
      best := None;
      var todo := index.Keys;
      while todo != {}
        invariant todo <= index.Keys
        invariant best.None? ==> forall k :: k !in todo ==> !Offered(index, prompt, searchLen, k)
        invariant best.Some? ==> Offered(index, prompt, searchLen, best.value)
        invariant best.Some? ==> forall k :: k !in todo && Offered(index, prompt, searchLen, k) ==> |k| <= |best.value|
        decreases todo
      {
        hide SumOf;
        var k :| k in todo;
        todo := todo - {k};
        var n := index[k].nTokens;
        if n == 0 || n > searchLen { continue; }
        var lcp := CommonPrefixLen(k, prompt);
        PrefixStores.HeadByCount(k, prompt, lcp);
        if lcp != n { continue; }
        if best.None? || |best.value| < n { best := Some(k); }
      }
    }

    /** The longest stored head of the prompt within `searchLen`, read back from its file: a hit is
      * what that file holds, and a miss means there is no such head or its file does not read back
      * at the recorded length. Shorter heads are not tried. Over a mirrored directory the head is
      * served as it was stored, if and only if it is within the limits. */
    method FindOnDisk(prompt: Key, searchLen: nat) returns (r: Option<Entry>)
      requires Valid()
      modifies this`index, this`tick
      ensures Valid() && SameEntries(old(index), index) && (old(Mirrored()) ==> Mirrored())
      ensures r.None? ==> index == old(index) && tick == old(tick)
      ensures r.None? ==> forall k, d :: IsLongest(index, prompt, searchLen, k) ==> !Reads(files, index[k], d)
      ensures r.Some? ==> r.value.nTokens <= |prompt| && tick == old(tick) + 1 && Touched(old(index), index, prompt[..r.value.nTokens], tick)
      ensures r.Some? ==> var k := prompt[..r.value.nTokens];
        IsLongest(index, prompt, searchLen, k) && Reads(files, index[k], r.value.data)
      ensures r.Some? ==> var k := prompt[..r.value.nTokens];
        StoredAs(last, k, r.value.data) <==> k in last && Reads(files, index[k], last[k])
      ensures r.Some? && old(Mirrored()) ==> var k := prompt[..r.value.nTokens];
        StoredAs(last, k, r.value.data) && InLimits(k, r.value.data)
      ensures r.None? && old(Mirrored()) ==> forall k :: IsLongest(index, prompt, searchLen, k) ==> k in last && !InLimits(k, last[k])
    {
      hide Mirrors, FileOf, ReadHeader, InLimits, SumOf, Sizes, ReadEntryData;
      var best := LongestKey(prompt, searchLen);
      if best.None? { return None; }
      var m := index[best.value];
      assert best.value == prompt[..|best.value|];
      OneLongest(index, prompt, searchLen, best.value);
      if Mirrored() { MirroredRead(fpHash, nameOf, files, index, last, best.value); }
      if m.file !in files {
        return None;
      }
      var data := ReadEntryData(files[m.file]);
      if data.Err? || |data.value| != m.bytes {
        return None;
      }
      tick := tick + 1;
      if Mirrored() { MirrorsTouch(fpHash, nameOf, files, index, last, best.value, tick); }
      SizesTouch(index, best.value, tick);
      index := index[best.value := m.(tick := tick)];
      r := Some(Entry(m.nTokens, data.value));
    }
  }

  /** Only ticks differ. */
  ghost predicate SameEntries(a: map<Key, DiskMeta>, b: map<Key, DiskMeta>) {
    a.Keys == b.Keys && forall k :: k in a ==> b[k] == a[k].(tick := b[k].tick)
  }

  ghost predicate Touched(a: map<Key, DiskMeta>, b: map<Key, DiskMeta>, k: Key, tick: nat) {
    k in a && b == a[k := a[k].(tick := tick)]
  }

  ghost predicate IsLongest(index: map<Key, DiskMeta>, prompt: Key, searchLen: nat, k: Key) {
    Offered(index, prompt, searchLen, k) && forall q :: Offered(index, prompt, searchLen, q) ==> |q| <= |k|
  }

  ghost predicate StoredAs(last: map<Key, Bytes>, k: Key, data: Bytes) { k in last && last[k] == data }

  /** Heads of one prompt are told apart by their length. */
  lemma OneLongest(index: map<Key, DiskMeta>, prompt: Key, searchLen: nat, best: Key)
    requires IsLongest(index, prompt, searchLen, best)
    ensures forall k :: IsLongest(index, prompt, searchLen, k) ==> k == best
  {
    forall k | IsLongest(index, prompt, searchLen, k) ensures k == best {
      assert k == prompt[..|k|] && best == prompt[..|best|];
    }
  }

  lemma Unevicted(index: map<Key, DiskMeta>, last: map<Key, Bytes>, maxBytes: nat)
    ensures NeededCut(index, index, maxBytes) && LastKept(last, last)
  {
  }

  lemma IsFileOf(fpHash: nat, key: Key, data: Bytes, buf: Bytes)
    requires buf == HeaderBytes(DiskHeader(fpHash, |key|, key, |data|)) + data
    ensures buf == FileOf(fpHash, key, data)
  {
  }

  lemma ScannedNonempty(dir: map<string, Bytes>, fpHash: nat, scanned: map<Key, DiskMeta>)
    requires Scanned(dir, fpHash, scanned)
    ensures KeysRight(scanned)
  {
    forall k | k in scanned ensures scanned[k].nTokens == |k| > 0 {
      assert FoundIn(dir, fpHash, k, scanned[k]);
    }
  }

  /** Reading an intact entry: its data, unless that is beyond the format's limits. */
  lemma MirroredRead(fpHash: nat, nameOf: Key -> string, files: map<string, Bytes>, index: map<Key, DiskMeta>, last: map<Key, Bytes>, k: Key)
    requires fpHash < 0x1_0000_0000_0000_0000 && Mirrors(fpHash, nameOf, files, index, last) && k in index
    ensures index[k].file in files && k in last && |last[k]| == index[k].bytes
    ensures InLimits(k, last[k]) ==> ReadEntryData(files[index[k].file]) == Ok(last[k])
    ensures !InLimits(k, last[k]) ==> ReadEntryData(files[index[k].file]).Err?
  {
    assert EntryIntact(fpHash, nameOf, files, k, index[k], last[k]);
    AcceptsOwn(fpHash, k, last[k]);
  }

  lemma MirrorsTouch(fpHash: nat, nameOf: Key -> string, files: map<string, Bytes>, index: map<Key, DiskMeta>, last: map<Key, Bytes>, k: Key, t: nat)
    requires Mirrors(fpHash, nameOf, files, index, last) && k in index
    ensures Mirrors(fpHash, nameOf, files, index[k := index[k].(tick := t)], last)
  {
    hide FileOf, Accepts;
    var index' := index[k := index[k].(tick := t)];
    forall q | q in index'
      ensures EntryIntact(fpHash, nameOf, files, q, index'[q], last[q]) && NoClash(nameOf, index', q)
    {
      assert EntryIntact(fpHash, nameOf, files, q, index[q], last[q]) && NoClash(nameOf, index, q);
    }
    forall f | f in files && Accepts(fpHash, files[f]) ensures Owned(index', f) {
      assert Owned(index, f);
      var q :| q in index && index[q].file == f;
      assert index'[q].file == f;
    }
  }

  lemma SizesTouch(index: map<Key, DiskMeta>, k: Key, t: nat)
    requires k in index
    ensures SumOf(Sizes(index[k := index[k].(tick := t)])) == SumOf(Sizes(index))
  {
    assert Sizes(index[k := index[k].(tick := t)]) == Sizes(index);
  }

  /** The directory mirrors what a restart makes of it. */
  lemma RestartMirrors(fpHash: nat, nameOf: Key -> string, files: map<string, Bytes>, index: map<Key, DiskMeta>, last: map<Key, Bytes>,
                       scanned: map<Key, DiskMeta>)
    requires fpHash < 0x1_0000_0000_0000_0000 && KeysRight(index)
    requires Mirrors(fpHash, nameOf, files, index, last) && Scanned(files, fpHash, scanned)
    ensures Mirrors(fpHash, nameOf, files, scanned, KnownOf(scanned, last))
  {
    RightLengths(index);
    hide *;
    ScanOfMirror(fpHash, nameOf, files, index, last, scanned);
    forall k | k in scanned { StillIntact(fpHash, nameOf, files, index, last, scanned, k); }
    forall f | f in files && Accepts(fpHash, files[f]) { StillOwned(fpHash, nameOf, files, index, last, scanned, f); }
    MirrorsKnown(fpHash, nameOf, files, scanned, last);
  }

  lemma RightLengths(index: map<Key, DiskMeta>)
    requires KeysRight(index)
    ensures forall k :: k in index ==> index[k].nTokens == |k|
  {
  }

  lemma MirrorsKnown(fpHash: nat, nameOf: Key -> string, files: map<string, Bytes>, scanned: map<Key, DiskMeta>, last: map<Key, Bytes>)
    requires forall k :: k in scanned ==> k in last && EntryIntact(fpHash, nameOf, files, k, scanned[k], last[k]) && NoClash(nameOf, scanned, k)
    requires forall f :: f in files && Accepts(fpHash, files[f]) ==> Owned(scanned, f)
    ensures Mirrors(fpHash, nameOf, files, scanned, KnownOf(scanned, last))
  {
    hide EntryIntact, NoClash, Owned, Accepts, FileOf;
    assert KnownOf(scanned, last).Keys == scanned.Keys;
  }

  lemma StillIntact(fpHash: nat, nameOf: Key -> string, files: map<string, Bytes>, index: map<Key, DiskMeta>, last: map<Key, Bytes>,
                    scanned: map<Key, DiskMeta>, k: Key)
    requires Mirrors(fpHash, nameOf, files, index, last)
    requires k in scanned && forall q :: q in scanned ==> q in index && scanned[q] == index[q].(tick := scanned[q].tick)
    ensures k in last && EntryIntact(fpHash, nameOf, files, k, scanned[k], last[k]) && NoClash(nameOf, scanned, k)
  {
    hide FileOf, Accepts;
    assert EntryIntact(fpHash, nameOf, files, k, index[k], last[k]) && NoClash(nameOf, index, k);
  }

  lemma StillOwned(fpHash: nat, nameOf: Key -> string, files: map<string, Bytes>, index: map<Key, DiskMeta>, last: map<Key, Bytes>,
                   scanned: map<Key, DiskMeta>, f: string)
    requires fpHash < 0x1_0000_0000_0000_0000 && Mirrors(fpHash, nameOf, files, index, last)
    requires f in files && Accepts(fpHash, files[f])
    requires forall k :: k in scanned <==> k in index && InLimits(k, last[k])
    requires forall k :: k in scanned ==> scanned[k] == index[k].(tick := scanned[k].tick)
    ensures Owned(scanned, f)
  {
    assert Owned(index, f);
    var k :| k in index && index[k].file == f;
    assert EntryIntact(fpHash, nameOf, files, k, index[k], last[k]);
    AcceptsOwn(fpHash, k, last[k]);
    hide FileOf, Accepts, InLimits, NoClash;
    assert scanned[k].file == f;
  }

  /** A restart over the same directory brings every entry within the limits back: same key,
    * length, file and size, and nothing else. The directory mirrors the new index, so what holds of
    * puts and lookups goes on over restarts. */
  method Restart(d: PrefixDisk) returns (d': PrefixDisk)
    requires d.Valid() && d.Mirrored()
    ensures fresh(d') && d'.Valid() && d'.Mirrored() && d'.files == d.files && d'.last == KnownOf(d'.index, d.last)
    ensures d'.fpHash == d.fpHash && d'.maxBytes == d.maxBytes && d'.nameOf == d.nameOf
    ensures forall k :: k in d'.index <==> k in d.index && InLimits(k, d.last[k])
    ensures forall k :: k in d'.index ==> d'.index[k] == d.index[k].(tick := d'.index[k].tick)
  {
    hide Mirrors, Scanned, InLimits, KnownOf, NeededCut;
    d' := new PrefixDisk.Open(d.files, d.fpHash, d.maxBytes, d.nameOf, d.last);
    ghost var scanned :| OpenedAs(d.files, d.fpHash, d.maxBytes, scanned, d'.index, d'.files)
      && (WithinCap(scanned, d.maxBytes) ==> d'.last == KnownOf(scanned, d.last));
    ScanOfMirror(d.fpHash, d.nameOf, d.files, d.index, d.last, scanned);
    RestartMirrors(d.fpHash, d.nameOf, d.files, d.index, d.last, scanned);
    SubmapSum(Sizes(scanned), Sizes(d.index));
  }

  // ---------------------------------------------------------------- what a lookup can get wrong

  lemma ReadsBack(fpHash: nat, key: Key, data: Bytes)
    requires fpHash < 0x1_0000_0000_0000_0000 && InLimits(key, data)
    ensures ReadEntryData(FileOf(fpHash, key, data)) == Ok(data)
  {
    hide *;
    WithinLimits(key, data);
    AcceptsOwn(fpHash, key, data);
  }

  lemma WithinLimits(key: Key, data: Bytes)
    requires InLimits(key, data)
    ensures 0 < |key| < 0x1_0000_0000 && 0 < |data| < 0x1_0000_0000_0000_0000
  {
  }

  lemma FileReads(fpHash: nat, files: map<string, Bytes>, m: DiskMeta, key: Key, data: Bytes)
    requires fpHash < 0x1_0000_0000_0000_0000 && InLimits(key, data)
    requires m.file in files && files[m.file] == FileOf(fpHash, key, data) && m.bytes == |data|
    ensures Reads(files, m, data) && forall other :: Reads(files, m, other) ==> other == data
  {
    ReadsBack(fpHash, key, data);
    hide FileOf, ReadEntryData;
  }

  /** Of two stored keys, `k` is the one a search of `n` tokens settles on. */
  lemma OnlyHead(index: map<Key, DiskMeta>, prompt: Key, n: nat, k: Key, other: Key)
    requires k in index && (forall q :: q in index ==> q == k || q == other) && k <= prompt && |k| <= n && (other <= prompt ==> |other| <= |k|)
    ensures IsLongest(index, prompt, n, k)
    ensures forall m: nat :: m <= |prompt| && IsLongest(index, prompt, n, prompt[..m]) ==> m == |k| && prompt[..m] == k
  {
    OneLongest(index, prompt, n, k);
  }

  /** Two keys stored one after the other on a fresh tier without a cap. */
  method StoreTwo(nameOf: Key -> string, k: Key, data: Bytes, other: Key, data': Bytes) returns (d: PrefixDisk)
    requires k != other && 0 < |k| < 0x1_0000_0000 && 0 < |other| < 0x1_0000_0000
    requires 0 < |data| < 0x1_0000_0000_0000_0000 && 0 < |data'| < 0x1_0000_0000_0000_0000
    ensures fresh(d) && d.Valid() && d.fpHash == 0
    ensures k in d.index && other in d.index && forall q :: q in d.index ==> q == k || q == other
    ensures k in d.index && d.index[k].file == nameOf(k) && d.index[k].bytes == |data|
    ensures nameOf(other) in d.files && d.files[nameOf(other)] == FileOf(0, other, data')
    ensures nameOf(k) != nameOf(other) ==> d.Mirrored() && k in d.last && d.last[k] == data
  {
    hide Mirrors, FileOf, SumOf, Sizes, NeededCut, LastKept, PrefixDisk.Accounts, PrefixDisk.Mirrored;
    d := new PrefixDisk(0, 0, nameOf);
    var ok := d.Put(k, |k|, data, true);
    ok := d.Put(other, |other|, data', true);
  }

  /** Two keys whose file names collide, stored one after the other with data of the same length:
    * the lookup of the first serves the data of the second. */
  method ClashIsServed(nameOf: Key -> string, k: Key, data: Bytes, other: Key, data': Bytes, prompt: Key)
    returns (served: Option<Entry>)
    requires InLimits(k, data) && InLimits(other, data') && |data| == |data'|
    requires nameOf(k) == nameOf(other) && k <= prompt && !(other <= prompt)
    ensures served == Some(Entry(|k|, data'))
  {
    hide *;
    WithinLimits(k, data);
    WithinLimits(other, data');
    var d := StoreTwo(nameOf, k, data, other, data');
    OnlyHead(d.index, prompt, |k|, k, other);
    FileReads(0, d.files, d.index[k], other, data');
    ghost var was := d.index;
    served := d.FindOnDisk(prompt, |k|);
    SameKey(was, d.index, k);
    OnlyHead(d.index, prompt, |k|, k, other);
    FileReads(0, d.files, d.index[k], other, data');
  }

  /** More tokens than a file may declare. */
  ghost predicate Oversized(key: Key) { |key| > DISK_MAX_KEY_TOKENS }

  lemma OversizedIsOut(key: Key)
    requires Oversized(key)
    ensures forall data :: !InLimits(key, data)
  {
  }

  /** A stored head within the limits could be served. */
  lemma HeadReads(fpHash: nat, nameOf: Key -> string, files: map<string, Bytes>, index: map<Key, DiskMeta>, last: map<Key, Bytes>,
                  prompt: Key, n: nat, k: Key)
    requires fpHash < 0x1_0000_0000_0000_0000 && Mirrors(fpHash, nameOf, files, index, last)
    requires k in index && k <= prompt && |k| <= n && InLimits(k, last[k])
    ensures Offered(index, prompt, n, k) && Reads(files, index[k], last[k])
  {
    hide FileOf, ReadEntryData, InLimits;
    MirroredRead(fpHash, nameOf, files, index, last, k);
  }

  /** A stored prompt beyond the key limit hides every head of it from a prompt that goes on from it:
    * the search, for all but the last token, misses, although a head within the limits reads back. */
  method SearchOversized(d: PrefixDisk, k: Key, key: Key, x: Token) returns (served: Option<Entry>)
    requires d.Valid() && d.Mirrored() && key in d.index && Oversized(key)
    requires k in d.index && k < key && InLimits(k, d.last[k])
    modifies d`index, d`tick
    ensures d.Valid() && d.Mirrored() && d.index == old(d.index) && served.None?
    ensures Offered(d.index, key + [x], |key|, k) && Reads(d.files, d.index[k], d.last[k])
  {
    hide *;
    d.InBooks();
    HeadReads(d.fpHash, d.nameOf, d.files, d.index, d.last, key + [x], |key|, k);
    OversizedIsOut(key);
    WholeIsLongest(d.index, key, x);
    ghost var was := d.index;
    served := d.FindOnDisk(key + [x], |key|);
    SameKey(was, d.index, key);
    WholeIsLongest(d.index, key, x);
  }

  lemma SameKey(a: map<Key, DiskMeta>, b: map<Key, DiskMeta>, k: Key)
    requires SameEntries(a, b) && k in a
    ensures (forall q :: q in b <==> q in a) && b[k].file == a[k].file && b[k].bytes == a[k].bytes
  {
  }

  lemma WholeIsLongest(index: map<Key, DiskMeta>, key: Key, x: Token)
    requires key in index
    ensures var prompt := key + [x];
      && IsLongest(index, prompt, |key|, key)
      && forall m: nat :: m <= |prompt| && IsLongest(index, prompt, |key|, prompt[..m]) ==> prompt[..m] == key
  {
    assert (key + [x])[..|key|] == key;
    OneLongest(index, key + [x], |key|, key);
  }

  /** And such a tier arises from two puts. */
  method OversizedHides(nameOf: Key -> string, k: Key, data: Bytes, key: Key, x: Token) returns (served: Option<Entry>)
    requires Oversized(key) && |key| < 0x1_0000_0000 && k < key && InLimits(k, data) && nameOf(k) != nameOf(key)
    ensures served.None?
  {
    WithinLimits(k, data);
    hide Oversized, InLimits, PrefixDisk.Valid, PrefixDisk.Mirrored;
    var d := StoreTwo(nameOf, k, data, key, [0]);
    served := SearchOversized(d, k, key, x);
  }
}
