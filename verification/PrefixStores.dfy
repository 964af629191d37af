/** The cross-slot RAM map of prefix snapshots: bounded, evicting, searched by longest head. */
module PrefixStores {
  import opened Common
  import opened SeqKvs

  type Key = seq<Token>

  /** Host copy of a sequence at a known length. */
  datatype SeqCheckpoint = SeqCheckpoint(nTokens: nat, data: Dump)

  datatype EntryMeta = EntryMeta(demand: bool, refs: nat)

  const STORE_STUB_MIN := 6_144
  const STORE_STUB_MAX := 16_384

  predicate IsStoreStubLen(n: nat) { STORE_STUB_MIN <= n <= STORE_STUB_MAX }

  /** Eviction score; the greatest is dropped first. */
  datatype Score = Score(unreferenced: bool, plain: bool, nTokens: nat, tick: nat) {
    /** Strictly smaller: the older tick is the greater one. */
    predicate Less(o: Score) {
      if unreferenced != o.unreferenced then o.unreferenced
      else if plain != o.plain then o.plain
      else if nTokens != o.nTokens then nTokens < o.nTokens
      else tick > o.tick
    }
  }

  /** Two entries can only tie in score if they were last used at the same tick. */
  lemma ScoreIsTotal(a: Score, b: Score)
    requires a.tick != b.tick
    ensures a.Less(b) <==> !b.Less(a)
  {
  }

  /** Ticks lie in the past and no two entries share one. */
  ghost predicate Ticks(used: map<Key, nat>, now: nat) {
    && (forall k :: k in used ==> used[k] <= now)
    && (forall k, k' :: k in used && k' in used && k != k' ==> used[k] != used[k'])
  }

  lemma TicksAdvance(used: map<Key, nat>, now: nat, k: Key)
    requires Ticks(used, now)
    ensures Ticks(used[k := now + 1], now + 1)
  {
  }

  ghost function Sizes(entries: map<Key, SeqCheckpoint>): map<Key, nat> {
    map k | k in entries :: entries[k].data.size
  }

  /** Length search of a bind: without local reuse, everything but the last prompt token. */
  function HostSearchLen(promptLen: nat, reuseLen: nat): nat {
    if reuseLen == 0 then Max(0, promptLen - 1) else reuseLen
  }

  /** Stored heads of `prompt` that a bind with `reuseLen` could restore. */
  ghost predicate Usable(entries: map<Key, SeqCheckpoint>, prompt: Key, reuseLen: nat, k: Key) {
    k in entries && k <= prompt && |k| <= reuseLen + 1
  }

  /** What eviction looks at. */
  datatype Books = Books(entries: map<Key, SeqCheckpoint>, meta: map<Key, EntryMeta>, lastUsed: map<Key, nat>)

  predicate InBooks(b: Books, k: Key) { k in b.entries && k in b.meta && k in b.lastUsed }

  function ScoreIn(b: Books, k: Key): Score
    requires InBooks(b, k)
  {
    Score(b.meta[k].refs == 0, !b.meta[k].demand, b.entries[k].nTokens, b.lastUsed[k])
  }

  /** Bookkeeping: one tick and one meta per entry, keys as long as their dumps claim, bytes
    * summed, ticks in the past and never shared. */
  ghost predicate BooksRight(b: Books, totalBytes: nat, tick: nat) {
    && b.lastUsed.Keys == b.entries.Keys == b.meta.Keys
    && (forall k :: k in b.entries ==> k != [] && |k| == b.entries[k].nTokens)
    && totalBytes == SumOf(Sizes(b.entries))
    && Ticks(b.lastUsed, tick)
  }

  class PrefixStore {
    var entries: map<Key, SeqCheckpoint>
    var totalBytes: nat
    const maxBytes: nat
    const maxEntries: nat
    var lastUsedTick: nat
    var lastUsed: map<Key, nat>
    var meta: map<Key, EntryMeta>

    ghost predicate Valid()
      reads this
    {
      BooksRight(TheBooks(), totalBytes, lastUsedTick)
    }

    /** Every dump holds the cells of exactly its key. */
    ghost predicate Faithful()
      reads this
    {
      forall k :: k in entries ==> entries[k].data.cells == k
    }

    predicate OverCap()
      reads this
    {
      Over(totalBytes, |entries|)
    }

    predicate Over(bytes: nat, count: nat) { (maxBytes > 0 && bytes > maxBytes) || (maxEntries > 0 && count > maxEntries) }

    /** `v` was dropped last, from `bytes` in all. */
    ghost predicate LastOutOf(b0: Books, v: Key, bytes: nat)
      reads this
    {
      LastOut(b0, TheBooks(), v) && v in b0.entries && totalBytes + b0.entries[v].data.size == bytes
    }

    /** Nothing was dropped without need: with the last victim back, a cap would be exceeded. */
    ghost predicate NeededOut(b0: Books)
      reads this
    {
      entries == b0.entries || exists v, bytes: nat :: LastOutOf(b0, v, bytes) && Over(bytes, |entries| + 1)
    }

    /** The same for the cap that store and chains share. */
    ghost predicate NeededOutBy(b0: Books, chainBytes: nat, cap: nat)
      reads this
    {
      entries == b0.entries || exists v, bytes: nat :: LastOutOf(b0, v, bytes) && bytes + chainBytes > cap
    }

    constructor WithLimits(maxBytes: nat, maxEntries: nat)
      ensures Valid() && Faithful() && entries == map[]
      ensures this.maxBytes == maxBytes && this.maxEntries == maxEntries
    {
      this.maxBytes, this.maxEntries := maxBytes, maxEntries;
      entries, totalBytes, lastUsedTick, lastUsed, meta := map[], 0, 0, map[], map[];
      new;
      assert Sizes(entries) == map[];
    }

    function TheBooks(): Books
      reads this
    {
      Books(entries, meta, lastUsed)
    }

    function EvictScore(k: Key): Score
      requires k in entries && k in meta && k in lastUsed
      reads this
    {
      ScoreIn(TheBooks(), k)
    }

    predicate Candidate(k: Key, skipStubs: bool)
      reads this
    {
      k in entries && (skipStubs ==> !IsStoreStubLen(entries[k].nTokens))
    }

    /** The victim beats every other candidate, in whatever order the map is walked. */
    method PickLongestVictim(skipStubs: bool) returns (victim: Option<Key>)
      requires Valid()
      ensures victim.None? ==> forall k :: !Candidate(k, skipStubs)
      ensures !skipStubs && entries != map[] ==> victim.Some?
      ensures victim.Some? ==> Candidate(victim.value, skipStubs)
      ensures victim.Some? ==>
        forall k :: Candidate(k, skipStubs) && k != victim.value ==> EvictScore(k).Less(EvictScore(victim.value))
    {
      victim := None;
      var todo := entries.Keys;
      while todo != {}
        invariant todo <= entries.Keys
        invariant victim.None? ==> forall k :: k !in todo ==> !Candidate(k, skipStubs)
        invariant !skipStubs && todo != entries.Keys ==> victim.Some?
        invariant victim.Some? ==> Candidate(victim.value, skipStubs) && victim.value !in todo
        invariant victim.Some? ==>
          forall k :: Candidate(k, skipStubs) && k !in todo && k != victim.value ==>
            EvictScore(k).Less(EvictScore(victim.value))
        decreases todo
      {
        var k :| k in todo;
        todo := todo - {k};
        if !skipStubs || !IsStoreStubLen(entries[k].nTokens) {
          if victim.None? || !EvictScore(k).Less(EvictScore(victim.value)) {
            victim := Some(k);
          }
        }
      }
    }

    method RemoveEntry(k: Key)
      requires Valid() && k in entries
      modifies this
      ensures Valid() && entries == old(entries) - {k} && totalBytes == old(totalBytes) - old(entries)[k].data.size
      ensures meta == old(meta) - {k} && lastUsed == old(lastUsed) - {k} && lastUsedTick == old(lastUsedTick)
    {
      hide BooksRight;
      BooksRemove(TheBooks(), totalBytes, lastUsedTick, k);
      totalBytes, entries, lastUsed, meta := totalBytes - entries[k].data.size, entries - {k}, lastUsed - {k}, meta - {k};
    }

    /** Drops the candidate with the greatest score. */
    method DropVictim(v: Key, skipStubs: bool, ghost b0: Books)
      requires Valid() && Evicted(b0, TheBooks(), skipStubs) && Candidate(v, skipStubs)
      requires forall k :: Candidate(k, skipStubs) && k != v ==> EvictScore(k).Less(EvictScore(v))
      modifies this
      ensures Valid() && Evicted(b0, TheBooks(), skipStubs) && lastUsedTick == old(lastUsedTick)
      ensures |entries| + 1 == |old(entries)| && LastOutOf(b0, v, old(totalBytes))
    {
      EvictStep(b0, v, skipStubs);
      assert |entries| == |entries - {v}| + 1 by {
        assert (entries - {v}).Keys == entries.Keys - {v};
      }
      hide Evicted, Ticks, SumOf, Sizes;
      RemoveEntry(v);
    }

    /** Drop entries until the store's own caps hold. */
    method EvictIfOverCap()
      requires Valid()
      modifies this
      ensures Valid() && !OverCap() && lastUsedTick == old(lastUsedTick)
      ensures Evicted(old(TheBooks()), TheBooks(), false)
      ensures !old(OverCap()) ==> entries == old(entries)
      ensures NeededOut(old(TheBooks()))
    {
      hide Evicted, LastOut, Ticks, SumOf;
      Unevicted();
      while OverCap() && entries != map[]
        invariant Valid() && Evicted(old(TheBooks()), TheBooks(), false)
        invariant lastUsedTick == old(lastUsedTick)
        invariant !old(OverCap()) ==> entries == old(entries) && totalBytes == old(totalBytes)
        invariant NeededOut(old(TheBooks()))
        decreases |entries|
      {
        var victim := PickLongestVictim(false);
        DropVictim(victim.value, false, old(TheBooks()));
      }
      NothingStored();
    }

    lemma Unevicted()
      requires Valid()
      ensures Evicted(TheBooks(), TheBooks(), false) && Evicted(TheBooks(), TheBooks(), true)
    {
    }

    lemma NothingStored()
      requires Valid()
      ensures entries == map[] ==> totalBytes == 0
    {
      if entries == map[] { assert Sizes(entries) == map[]; }
    }

    /** Drop non-stub entries until they and `chainBytes` fit `cap`, or only stubs are left. */
    method EvictGlobalOverCap(chainBytes: nat, cap: nat)
      requires Valid()
      modifies this
      ensures Valid() && lastUsedTick == old(lastUsedTick)
      ensures Evicted(old(TheBooks()), TheBooks(), true)
      ensures totalBytes <= old(totalBytes) && |entries| <= |old(entries)|
      ensures totalBytes < old(totalBytes) ==> |entries| < |old(entries)|
      ensures cap > 0 && totalBytes + chainBytes > cap ==> forall k :: !Candidate(k, true)
      ensures NeededOutBy(old(TheBooks()), chainBytes, cap)
    {
      hide Evicted, LastOut, Ticks, SumOf;
      Unevicted();
      while cap > 0 && totalBytes + chainBytes > cap
        invariant Valid() && Evicted(old(TheBooks()), TheBooks(), true)
        invariant lastUsedTick == old(lastUsedTick)
        invariant totalBytes <= old(totalBytes) && |entries| <= |old(entries)|
        invariant totalBytes < old(totalBytes) ==> |entries| < |old(entries)|
        invariant NeededOutBy(old(TheBooks()), chainBytes, cap)
        decreases |entries|
      {
        var victim := PickLongestVictim(true);
        if victim.None? { break; }
        DropVictim(victim.value, true, old(TheBooks()));
      }
    }

    /** Insert or refresh the dump of an exact prompt head; mismatched keys are ignored. A demand
      * capture upgrades an entry, a stub never demotes one. */
    method PutWith(prefix: Key, ckpt: SeqCheckpoint, demand: bool)
      requires Valid()
      modifies this
      ensures Valid()
      ensures |prefix| != ckpt.nTokens || prefix == [] ==>
        entries == old(entries) && meta == old(meta) && lastUsed == old(lastUsed)
      ensures |prefix| == ckpt.nTokens && prefix != [] ==>
        !OverCap() && Evicted(BooksPut(old(TheBooks()), prefix, ckpt, demand, old(lastUsedTick) + 1), TheBooks(), false)
      ensures |prefix| == ckpt.nTokens && prefix != [] ==>
        NeededOut(BooksPut(old(TheBooks()), prefix, ckpt, demand, old(lastUsedTick) + 1))
      ensures |prefix| == ckpt.nTokens && prefix != [] && Fits(old(entries)[prefix := ckpt]) ==>
        entries == old(entries)[prefix := ckpt]
      ensures old(Faithful()) && ckpt.data.cells == prefix ==> Faithful()
    {
      hide NeededOut, ScoreIn, MetaPut, Ticks;
      if prefix == [] || ckpt.nTokens == 0 { return; }
      if |prefix| != ckpt.nTokens { return; }
      Insert(prefix, ckpt, demand);
      EvictIfOverCap();
    }

    /** The entries respect both caps. */
    ghost predicate Fits(e: map<Key, SeqCheckpoint>)
    {
      (maxBytes > 0 ==> SumOf(Sizes(e)) <= maxBytes) && (maxEntries > 0 ==> |e| <= maxEntries)
    }

    method Insert(prefix: Key, ckpt: SeqCheckpoint, demand: bool)
      requires Valid() && prefix != [] && |prefix| == ckpt.nTokens
      modifies this
      ensures Valid()
      ensures TheBooks() == BooksPut(old(TheBooks()), prefix, ckpt, demand, old(lastUsedTick) + 1)
    {
      hide BooksRight, MetaPut;
      BooksInsert(TheBooks(), totalBytes, lastUsedTick, prefix, ckpt, demand);
      var was := if prefix in entries then entries[prefix].data.size else 0;
      var tick := lastUsedTick + 1;
      entries, totalBytes, lastUsedTick, lastUsed, meta :=
        entries[prefix := ckpt], totalBytes - was + ckpt.data.size,
        tick, lastUsed[prefix := tick], MetaPut(meta, prefix, demand);
    }

    /** Marks an entry as used now. */
    method Touch(k: Key)
      requires Valid()
      modifies this`lastUsedTick, this`lastUsed
      ensures Valid() && lastUsedTick == old(lastUsedTick) + 1
      ensures lastUsed == if k in old(lastUsed) then old(lastUsed)[k := lastUsedTick] else old(lastUsed)
    {
      lastUsedTick := lastUsedTick + 1;
      if k in lastUsed {
        lastUsed := lastUsed[k := lastUsedTick];
      }
    }

    /** The longest stored head of `prompt` within the search length, whatever order the map is
      * walked in; a miss means no stored head is usable. */
    method FindRam(prompt: Key, reuseLen: nat) returns (r: Option<SeqCheckpoint>)
      requires Valid()
      modifies this`lastUsedTick, this`lastUsed
      ensures Valid()
      ensures r.None? ==> lastUsed == old(lastUsed) && forall k :: !Usable(entries, prompt, reuseLen, k)
      ensures r.Some? ==> r.value.nTokens <= |prompt| && lastUsed == old(lastUsed)[prompt[..r.value.nTokens] := lastUsedTick]
      ensures r.Some? ==> r.value.nTokens <= |prompt| && Usable(entries, prompt, reuseLen, prompt[..r.value.nTokens])
      ensures r.Some? ==> entries[prompt[..r.value.nTokens]] == r.value
      ensures r.Some? ==> forall k :: Usable(entries, prompt, reuseLen, k) ==> |k| <= r.value.nTokens
    {
      hide Ticks, SumOf, Sizes;
      var best: Option<Key> := None;
      var todo := entries.Keys;
      while todo != {}
        invariant todo <= entries.Keys
        modifies {}
        invariant best.None? ==> forall k :: k !in todo ==> !Usable(entries, prompt, reuseLen, k)
        invariant best.Some? ==> Usable(entries, prompt, reuseLen, best.value)
        invariant best.Some? ==>
          forall k :: k !in todo && Usable(entries, prompt, reuseLen, k) ==> |k| <= |best.value|
        decreases todo
      {
        var k :| k in todo;
        todo := todo - {k};
        var n := entries[k].nTokens;
        if n == 0 || n > reuseLen + 1 { continue; }
        var lcp := CommonPrefixLen(k, prompt);
        HeadByCount(k, prompt, lcp);
        if lcp != n { continue; }
        if best.None? || |best.value| < n {
          best := Some(k);
        }
      }
      if best.None? { return None; }
      assert best.value == prompt[..|best.value|];
      r := Some(entries[best.value]);
      Touch(best.value);
    }

    method CountSessions(k: Key, live: seq<Key>) returns (count: nat)
      ensures count > 0 <==> HeadOfLive(k, live)
    {
      count := 0;
      for i := 0 to |live|
        invariant count > 0 <==> HeadOfLive(k, live[..i])
      {
        var lcp := CommonPrefixLen(k, live[i]);
        HeadByCount(k, live[i], lcp);
        HeadOfLiveSnoc(k, live[..i], live[i]);
        assert live[..i + 1] == live[..i] + [live[i]];
        if lcp == |k| { count := count + 1; }
      }
      assert live[..|live|] == live;
    }

    /** Reference counts: live session prompts that extend the entry's key. */
    method RefreshEntryRefs(live: seq<Key>)
      requires Valid()
      modifies this`meta
      ensures Valid() && meta.Keys == old(meta).Keys
      ensures forall k :: k in meta ==>
        meta[k].demand == old(meta)[k].demand && (meta[k].refs > 0 <==> HeadOfLive(k, live))
    {
      var todo := meta.Keys;
      while todo != {}
        invariant todo <= meta.Keys == old(meta).Keys
        invariant forall k :: k in meta ==> meta[k].demand == old(meta)[k].demand
        invariant forall k :: k in meta && k !in todo ==> (meta[k].refs > 0 <==> HeadOfLive(k, live))
        decreases todo
      {
        var k :| k in todo;
        todo := todo - {k};
        var count := CountSessions(k, live);
        meta := meta[k := meta[k].(refs := count)];
      }
    }

    lemma EvictStep(b0: Books, v: Key, skipStubs: bool)
      requires Valid() && Evicted(b0, TheBooks(), skipStubs) && Candidate(v, skipStubs)
      requires forall k :: Candidate(k, skipStubs) && k != v ==> EvictScore(k).Less(EvictScore(v))
      ensures Evicted(b0, Books(entries - {v}, meta - {v}, lastUsed - {v}), skipStubs)
      ensures InBooks(b0, v) && v in entries && entries[v] == b0.entries[v]
      ensures LastOut(b0, Books(entries - {v}, meta - {v}, lastUsed - {v}), v)
    {
      assert Outranked(b0, TheBooks(), v);
      var b := Books(entries - {v}, meta - {v}, lastUsed - {v});
      forall k | k in b.entries && !(skipStubs && IsStoreStubLen(b.entries[k].nTokens))
        ensures Outranked(b0, b, k)
      {
        assert Candidate(k, skipStubs) && Outranked(b0, TheBooks(), k);
        assert EvictScore(k) == ScoreIn(b0, k) && EvictScore(v) == ScoreIn(b0, v);
      }
    }
  }

  lemma BooksRemove(b: Books, totalBytes: nat, tick: nat, k: Key)
    requires BooksRight(b, totalBytes, tick) && k in b.entries
    ensures b.entries[k].data.size <= totalBytes
    ensures BooksRight(Books(b.entries - {k}, b.meta - {k}, b.lastUsed - {k}), totalBytes - b.entries[k].data.size, tick)
  {
    SumOfRemove(b.entries, k);
    TicksRemove(b.lastUsed, tick, k);
    hide Ticks, SumOf, Sizes;
  }

  lemma BooksInsert(b: Books, totalBytes: nat, tick: nat, k: Key, c: SeqCheckpoint, demand: bool)
    requires BooksRight(b, totalBytes, tick) && k != [] && |k| == c.nTokens
    ensures (if k in b.entries then b.entries[k].data.size else 0) <= totalBytes
    ensures BooksRight(BooksPut(b, k, c, demand, tick + 1),
                       totalBytes - (if k in b.entries then b.entries[k].data.size else 0) + c.data.size, tick + 1)
  {
    SumOfInsert(b.entries, k, c);
    TicksAdvance(b.lastUsed, tick, k);
    hide Ticks, SumOf, Sizes;
  }

  lemma SumOfRemove(e: map<Key, SeqCheckpoint>, k: Key)
    requires k in e
    ensures SumOf(Sizes(e)) == e[k].data.size + SumOf(Sizes(e - {k}))
  {
    SumWithout(Sizes(e), k);
    assert Sizes(e) - {k} == Sizes(e - {k});
  }

  lemma TicksRemove(used: map<Key, nat>, now: nat, k: Key)
    requires Ticks(used, now)
    ensures Ticks(used - {k}, now)
  {
  }

  lemma SumOfInsert(e: map<Key, SeqCheckpoint>, k: Key, c: SeqCheckpoint)
    ensures k in e ==> e[k].data.size <= SumOf(Sizes(e))
    ensures SumOf(Sizes(e[k := c])) == SumOf(Sizes(e)) - (if k in e then e[k].data.size else 0) + c.data.size
  {
    SumWith(Sizes(e), k, c.data.size);
    assert Sizes(e[k := c]) == Sizes(e)[k := c.data.size];
    if k in e {
      SumWithout(Sizes(e), k);
    } else {
      assert Sizes(e) - {k} == Sizes(e);
    }
  }

  /** The meta map after an insertion: references stay, the demand mark only ever goes up. */
  function MetaPut(m: map<Key, EntryMeta>, k: Key, demand: bool): map<Key, EntryMeta> {
    var was := if k in m then m[k] else EntryMeta(false, 0);
    m[k := EntryMeta(demand || was.demand, was.refs)]
  }

  /** Some live prompt starts with the key. */
  ghost predicate HeadOfLive(k: Key, live: seq<Key>) {
    exists i :: 0 <= i < |live| && k <= live[i]
  }

  lemma HeadOfLiveSnoc(k: Key, live: seq<Key>, p: Key)
    ensures HeadOfLive(k, live + [p]) <==> HeadOfLive(k, live) || k <= p
  {
    var l := live + [p];
    assert l[|live|] == p;
    if HeadOfLive(k, live) {
      var i :| 0 <= i < |live| && k <= live[i];
      assert l[i] == live[i];
    }
  }

  /** A key is a head of the prompt exactly when the common prefix is the whole key. */
  lemma HeadByCount(k: Key, prompt: Key, lcp: nat)
    requires IsCommonPrefixLen(k, prompt, lcp)
    ensures k <= prompt <==> lcp == |k|
  {
    if k <= prompt {
      CommonPrefixLenIsMaximal(k, prompt, lcp, |k|);
    }
  }

  /** The books after a put. */
  function BooksPut(b: Books, k: Key, c: SeqCheckpoint, demand: bool, tick: nat): Books {
    Books(b.entries[k := c], MetaPut(b.meta, k, demand), b.lastUsed[k := tick])
  }

  /** A put marks its own entry only: in demand if it is or was, its references kept, and used last. */
  lemma PutMarks(b0: Books, bytes: nat, now: nat, k: Key, c: SeqCheckpoint, demand: bool)
    requires BooksRight(b0, bytes, now)
    ensures var b := BooksPut(b0, k, c, demand, now + 1);
      && InBooks(b, k) && b.entries[k] == c && b.entries.Keys == b0.entries.Keys + {k}
      && (b.meta[k].demand <==> demand || (k in b0.meta && b0.meta[k].demand))
      && (b.meta[k].refs > 0 <==> k in b0.meta && b0.meta[k].refs > 0)
      && (forall o :: o in b0.entries && o != k ==>
            InBooks(b, o) && b.entries[o] == b0.entries[o] && b.meta[o] == b0.meta[o] && b.lastUsed[o] == b0.lastUsed[o] < b.lastUsed[k])
  {
    hide SumOf, Sizes;
  }

  /** Everything dropped scored higher than `k`. */
  ghost predicate Outranked(b0: Books, b: Books, k: Key) {
    InBooks(b0, k) && forall d :: d in b0.entries && d !in b.entries ==> InBooks(b0, d) && ScoreIn(b0, k).Less(ScoreIn(b0, d))
  }

  /** `v` was dropped last: everything else that went scored higher. */
  ghost predicate LastOut(b0: Books, b: Books, v: Key) {
    && InBooks(b0, v) && v !in b.entries
    && forall d :: d in b0.entries && d !in b.entries && d != v ==> InBooks(b0, d) && ScoreIn(b0, v).Less(ScoreIn(b0, d))
  }

  /** What an eviction run may leave: entries only disappear, those it must skip stay, and what
    * went scored higher than every candidate that stayed: unreferenced before referenced, plain
    * before demanded, longer before shorter, older before younger. */
  ghost predicate Evicted(b0: Books, b: Books, skipStubs: bool) {
    && b0.entries.Keys == b0.meta.Keys == b0.lastUsed.Keys && b.entries.Keys == b.meta.Keys == b.lastUsed.Keys
    && (forall k :: k in b.entries ==>
          k in b0.entries && b.entries[k] == b0.entries[k] && b.meta[k] == b0.meta[k] && b.lastUsed[k] == b0.lastUsed[k])
    && (skipStubs ==> forall k :: k in b0.entries && IsStoreStubLen(b0.entries[k].nTokens) ==> k in b.entries)
    && (forall k :: k in b.entries && !(skipStubs && IsStoreStubLen(b.entries[k].nTokens)) ==> Outranked(b0, b, k))
  }

  /** So what went is, against every candidate that stayed: referenced only if that is, then in demand
    * only if that is, then no shorter, and of one length the older. */
  lemma EvictionOrder(b0: Books, b: Books, skipStubs: bool, d: Key, k: Key)
    requires Evicted(b0, b, skipStubs) && d in b0.entries && d !in b.entries
    requires k in b.entries && !(skipStubs && IsStoreStubLen(b.entries[k].nTokens))
    ensures b0.meta[d].refs > 0 ==> b.meta[k].refs > 0
    ensures (b0.meta[d].refs > 0 <==> b.meta[k].refs > 0) ==>
      && (b0.meta[d].demand ==> b.meta[k].demand)
      && (b0.meta[d].demand == b.meta[k].demand ==>
        && b0.entries[d].nTokens >= b.entries[k].nTokens
        && (b0.entries[d].nTokens == b.entries[k].nTokens ==> b0.lastUsed[d] < b.lastUsed[k]))
  {
    assert Outranked(b0, b, k);
  }
}
