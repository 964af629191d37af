/** The global host-RAM cap over the snapshot store and every slot's anchor chain. */
module HostRam {
  import opened Common
  import opened SeqKvs
  import opened PrefixStores
  import opened AnchorChains

  /** What the enforcement sees of a slot: its chain, whether a job runs on it, how long ago an
    * idle one was retained (0 when it was not), and the prompt its session would resend. */
  datatype SlotHost = SlotHost(chain: Chain, active: bool, age: nat, livePrompt: Key)

  ghost predicate AllAscending(slots: seq<SlotHost>) {
    forall i :: 0 <= i < |slots| ==> Ascending(slots[i].chain)
  }

  function ChainBytes(slots: seq<SlotHost>): nat {
    if slots == [] then 0 else ChainBytes(slots[..|slots| - 1]) + DumpBytes(slots[|slots| - 1].chain)
  }

  ghost function Anchors(slots: seq<SlotHost>): nat {
    if slots == [] then 0 else Anchors(slots[..|slots| - 1]) + |slots[|slots| - 1].chain|
  }

  /** Live session prompts, in slot order. */
  function LivePrompts(slots: seq<SlotHost>): seq<Key> {
    if slots == [] then []
    else
      var last := slots[|slots| - 1].livePrompt;
      LivePrompts(slots[..|slots| - 1]) + (if last == [] then [] else [last])
  }

  /** Some session would resend a prompt that starts with the key. */
  ghost predicate InUse(slots: seq<SlotHost>, k: Key) {
    exists i :: 0 <= i < |slots| && slots[i].livePrompt != [] && k <= slots[i].livePrompt
  }

  lemma {:induction false} LiveHeadsAreInUse(slots: seq<SlotHost>, k: Key)
    ensures HeadOfLive(k, LivePrompts(slots)) <==> InUse(slots, k)
  {
    if slots == [] {
    } else {
      var n := |slots| - 1;
      var front := slots[..n];
      LiveHeadsAreInUse(front, k);
      if slots[n].livePrompt != [] {
        HeadOfLiveSnoc(k, LivePrompts(front), slots[n].livePrompt);
      } else {
        assert LivePrompts(slots) == LivePrompts(front);
      }
      if InUse(front, k) {
        var i :| 0 <= i < n && front[i].livePrompt != [] && k <= front[i].livePrompt;
        assert slots[i] == front[i];
      }
      if InUse(slots, k) {
        var i :| 0 <= i < |slots| && slots[i].livePrompt != [] && k <= slots[i].livePrompt;
        assert i < n ==> front[i] == slots[i];
      }
    }
  }

  /** Sacrificed earlier: idle before active, longer retained before shorter. */
  predicate Before(a: SlotHost, b: SlotHost) {
    (!a.active && b.active) || (a.active == b.active && a.age > b.age)
  }

  /** Slot `i` is sacrificed before slot `j`; equal ones by index. */
  predicate Sooner(slots: seq<SlotHost>, i: nat, j: nat)
    requires i < |slots| && j < |slots|
  {
    Before(slots[i], slots[j]) || (!Before(slots[j], slots[i]) && i < j)
  }

  /** What trimming may do to the slots: chains only lose unprotected anchors, and a slot is only
    * touched once every slot before it has nothing unprotected left. */
  ghost predicate Trimmed(a: seq<SlotHost>, b: seq<SlotHost>) {
    && |a| == |b|
    && (forall i :: 0 <= i < |a| ==> TrimOf(a[i].chain, b[i].chain) && b[i] == a[i].(chain := b[i].chain))
    && (forall i, j :: 0 <= i < |a| && 0 <= j < |a| && Sooner(a, i, j) && b[j] != a[j] ==> OnlyProtected(b[i].chain))
  }

  lemma TrimmedTransitive(a: seq<SlotHost>, b: seq<SlotHost>, c: seq<SlotHost>)
    requires Trimmed(a, b) && Trimmed(b, c)
    ensures Trimmed(a, c)
  {
    forall i | 0 <= i < |a| ensures TrimOf(a[i].chain, c[i].chain) {
      TrimTransitive(a[i].chain, b[i].chain, c[i].chain);
    }
    forall i, j | 0 <= i < |a| && 0 <= j < |a| && Sooner(a, i, j) && c[j] != a[j]
      ensures OnlyProtected(c[i].chain)
    {
      if b[j] != a[j] {
        TrimKeepsOnlyProtected(b[i].chain, c[i].chain);
      } else {
        assert Sooner(b, i, j);
      }
    }
  }

  /** `j` changed, and no slot behind it did. */
  ghost predicate LastTouched(a: seq<SlotHost>, b: seq<SlotHost>, j: nat) {
    |a| == |b| && j < |a| && b[j] != a[j] && forall i :: 0 <= i < |a| && b[i] != a[i] ==> !Sooner(a, j, i)
  }

  /** No slot was trimmed without need: with the last one's chain back, the cap would be exceeded. */
  ghost predicate ChainsNeeded(a: seq<SlotHost>, b: seq<SlotHost>, storeBytes: nat, cap: nat) {
    b == a || exists j: nat :: LastTouched(a, b, j) && ChainBytes(b[j := a[j]]) + storeBytes > cap
  }

  ghost predicate AllProtected(slots: seq<SlotHost>) {
    forall i :: 0 <= i < |slots| ==> OnlyProtected(slots[i].chain)
  }

  ghost predicate NoRepeats(order: seq<nat>) {
    forall a, b :: 0 <= a < b < |order| ==> order[a] != order[b]
  }

  /** Slot indices in the order of sacrifice, each once. */
  method SessionOrder(slots: seq<SlotHost>) returns (order: seq<nat>)
    ensures NoRepeats(order) && forall x :: x in order <==> 0 <= x < |slots|
    ensures Sorted(slots, order)
  {
    hide NoRepeats, Sorted, Before;
    order := [];
    NothingSorted(slots);
    for i := 0 to |slots|
      invariant NoRepeats(order) && forall x :: x in order <==> 0 <= x < i
      invariant Sorted(slots, order) && forall q :: 0 <= q < |order| ==> order[q] < i
    {
      var p := |order|;
      while p > 0 && Before(slots[i], slots[order[p - 1]])
        invariant 0 <= p <= |order|
        invariant forall q :: p <= q < |order| ==> Before(slots[i], slots[order[q]])
      {
        p := p - 1;
      }
      PlacedIndex(order, p, i);
      SortedPlaced(slots, order, p, i);
      order := order[..p] + [i] + order[p..];
    }
  }

  lemma NothingSorted(slots: seq<SlotHost>)
    ensures NoRepeats([]) && Sorted(slots, [])
  {
  }

  lemma SortedPlaced(slots: seq<SlotHost>, order: seq<nat>, p: nat, i: nat)
    requires Sorted(slots, order) && i < |slots| && p <= |order|
    requires forall q :: p <= q < |order| ==> Before(slots[i], slots[order[q]])
    requires p > 0 ==> !Before(slots[i], slots[order[p - 1]])
    requires forall q :: 0 <= q < |order| ==> order[q] < i
    ensures Sorted(slots, order[..p] + [i] + order[p..])
  {
    var placed := order[..p] + [i] + order[p..];
    assert forall q :: 0 <= q < |placed| ==> placed[q] == if q < p then order[q] else if q == p then i else order[q - 1];
    forall q | 0 <= q < p ensures Sooner(slots, order[q], i) {
      assert q < p - 1 ==> Sooner(slots, order[q], order[p - 1]);
    }
  }

  lemma PlacedIndex(order: seq<nat>, p: nat, i: nat)
    requires p <= |order|
    ensures forall x :: x in order[..p] + [i] + order[p..] <==> x in order || x == i
    ensures NoRepeats(order) && i !in order ==> NoRepeats(order[..p] + [i] + order[p..])
  {
    assert order == order[..p] + order[p..];
    forall x ensures x in order[..p] + [i] + order[p..] <==> x in order || x == i {
      assert x in order <==> x in order[..p] || x in order[p..];
    }
  }

  ghost predicate Sorted(slots: seq<SlotHost>, order: seq<nat>) {
    && (forall q :: 0 <= q < |order| ==> order[q] < |slots|)
    && (forall q, r :: 0 <= q < r < |order| ==> Sooner(slots, order[q], order[r]))
  }

  class HostMemory {
    const store: PrefixStore
    var slots: seq<SlotHost>

    constructor (store: PrefixStore, slots: seq<SlotHost>)
      ensures this.store == store && this.slots == slots
    {
      this.store, this.slots := store, slots;
    }

    /** `trim_chains_session_order`: trim chains one slot after the other until all fits. */
    method TrimChainsSessionOrder(cap: nat, storeBytes: nat) returns (dropped: bool)
      requires AllAscending(slots)
      modifies this`slots
      ensures AllAscending(slots) && Trimmed(old(slots), slots)
      ensures dropped ==> Anchors(slots) < Anchors(old(slots))
      ensures !dropped ==> slots == old(slots)
      ensures ChainBytes(slots) + storeBytes <= cap || AllProtected(slots)
      ensures ChainsNeeded(old(slots), slots, storeBytes, cap)
      ensures AllProtected(old(slots)) ==> slots == old(slots)
    {
      hide *;
      ghost var s0 := slots;
      var order := SessionOrder(slots);
      PartialStart(s0, order);
      dropped := false;
      var q := 0;
      while q < |order|
        invariant 0 <= q <= |order| && Partial(s0, slots, order, q) && AllAscending(slots)
        invariant dropped ==> Anchors(slots) < Anchors(s0)
        invariant !dropped ==> slots == s0
        invariant ChainsNeeded(s0, slots, storeBytes, cap)
        invariant AllProtected(s0) ==> slots == s0
        decreases |order| - q
      {
        if ChainBytes(slots) + storeBytes <= cap { break; }
        SlotInOrder(s0, slots, order, q);
        var i := order[q];
        var c := TrimPrefixChain(slots[i].chain, CHAIN_MAX_ANCHORS, 0);
        NothingLeft(c);
        ChainProtected(s0, i);
        NeedStep(s0, slots, order, q, c, storeBytes, cap);
        PartialStep(s0, slots, order, q, c);
        StepShape(slots, i, c);
        AnchorsUpdate(slots, i, c);
        if |c| < |slots[i].chain| {
          dropped := true;
        }
        slots := slots[i := slots[i].(chain := c)];
        q := q + 1;
      }
      PartialEnds(s0, slots, order, q);
    }

    lemma PartialStart(s0: seq<SlotHost>, order: seq<nat>)
      requires AllAscending(s0) && Sorted(s0, order) && NoRepeats(order)
      requires forall x :: x in order <==> 0 <= x < |s0|
      ensures Partial(s0, s0, order, 0) && forall bytes: nat, cap: nat :: ChainsNeeded(s0, s0, bytes, cap)
    {
    }

    lemma ChainProtected(s: seq<SlotHost>, i: nat)
      requires i < |s|
      ensures AllProtected(s) ==> OnlyProtected(s[i].chain)
    {
    }

    /** The next slot of the order is trimmed only while all does not fit. */
    lemma NeedStep(s0: seq<SlotHost>, s: seq<SlotHost>, order: seq<nat>, q: nat, c: Chain, storeBytes: nat, cap: nat)
      requires Partial(s0, s, order, q) && q < |order| && order[q] < |s| && ChainsNeeded(s0, s, storeBytes, cap)
      requires ChainBytes(s) + storeBytes > cap
      ensures ChainsNeeded(s0, s[order[q] := s[order[q]].(chain := c)], storeBytes, cap)
    {
      hide ChainBytes, TrimOf, OnlyProtected;
      var j := order[q];
      var s' := s[j := s[j].(chain := c)];
      NotYetTouched(s0, s, order, q);
      if s' == s {
      } else {
        assert s'[j := s0[j]] == s;
        forall i | 0 <= i < |s0| && s'[i] != s0[i] ensures !Sooner(s0, j, i) {
          if i != j {
            var r :| 0 <= r < q && order[..q][r] == i;
          }
        }
        assert LastTouched(s0, s', j);
      }
    }

    lemma NotYetTouched(s0: seq<SlotHost>, s: seq<SlotHost>, order: seq<nat>, q: nat)
      requires Partial(s0, s, order, q) && q < |order| && order[q] < |s|
      ensures s[order[q]] == s0[order[q]]
    {
      assert order[q] !in order[..q];
    }

    lemma SlotInOrder(s0: seq<SlotHost>, s: seq<SlotHost>, order: seq<nat>, q: nat)
      requires Partial(s0, s, order, q) && q < |order| && AllAscending(s)
      ensures order[q] < |s| == |s0| && Ascending(s[order[q]].chain)
    {
    }

    lemma PartialEnds(s0: seq<SlotHost>, s: seq<SlotHost>, order: seq<nat>, q: nat)
      requires Partial(s0, s, order, q)
      ensures Trimmed(s0, s)
      ensures q == |order| ==> AllProtected(s)
    {
      OrderRespected(s0, s, order, q);
      if q == |order| {
        forall i | 0 <= i < |s| ensures OnlyProtected(s[i].chain) {
          assert i in order;
        }
      }
    }

    /** State of the walk after `q` slots of the order. */
    ghost predicate Partial(s0: seq<SlotHost>, s: seq<SlotHost>, order: seq<nat>, q: nat) {
      && |s| == |s0| && q <= |order| && Sorted(s0, order) && NoRepeats(order)
      && (forall x :: x in order <==> 0 <= x < |s0|)
      && (forall i :: 0 <= i < |s0| ==> TrimOf(s0[i].chain, s[i].chain) && s[i] == s0[i].(chain := s[i].chain))
      && (forall i :: 0 <= i < |s0| && s[i] != s0[i] ==> i in order[..q])
      && (forall r :: 0 <= r < q ==> OnlyProtected(s[order[r]].chain))
    }

    lemma PartialStep(s0: seq<SlotHost>, s: seq<SlotHost>, order: seq<nat>, q: nat, c: Chain)
      requires Partial(s0, s, order, q) && q < |order|
      requires order[q] < |s| && TrimOf(s[order[q]].chain, c) && OnlyProtected(c) && AllAscending(s)
      ensures Partial(s0, s[order[q] := s[order[q]].(chain := c)], order, q + 1)
    {
      hide TrimOf, OnlyProtected, Ascending;
      TrimTransitive(s0[order[q]].chain, s[order[q]].chain, c);
      var s' := s[order[q] := s[order[q]].(chain := c)];
      forall i | 0 <= i < |s0| && s'[i] != s0[i] ensures i in order[..q + 1] {
        if i == order[q] { assert order[..q + 1][q] == i; } else { FoundEarlier(order, q, i); }
      }
    }

    lemma FoundEarlier(order: seq<nat>, q: nat, i: nat)
      requires q < |order| && i in order[..q]
      ensures i in order[..q + 1]
    {
      var r :| 0 <= r < q && order[..q][r] == i;
      assert order[..q + 1][r] == i;
    }

    lemma StepShape(s: seq<SlotHost>, i: nat, c: Chain)
      requires i < |s| && AllAscending(s) && TrimOf(s[i].chain, c)
      ensures AllAscending(s[i := s[i].(chain := c)]) && |c| <= |s[i].chain|
      ensures c == s[i].chain ==> s[i := s[i].(chain := c)] == s
    {
    }

    lemma {:induction false} AnchorsUpdate(s: seq<SlotHost>, i: nat, c: Chain)
      requires i < |s|
      ensures Anchors(s[i := s[i].(chain := c)]) == Anchors(s) - |s[i].chain| + |c|
    {
      var n := |s| - 1;
      var s' := s[i := s[i].(chain := c)];
      if i < n {
        AnchorsUpdate(s[..n], i, c);
        assert s'[..n] == s[..n][i := s[i].(chain := c)];
      } else {
        assert s'[..n] == s[..n];
      }
    }

    /** With a byte bound of zero only protected anchors survive. */
    lemma NothingLeft(c: Chain)
      requires Ascending(c) && (DumpBytes(c) <= 0 || OnlyProtected(c))
      ensures OnlyProtected(c)
    {
      if c != [] { BytesPositive(c); }
    }

    lemma OrderRespected(s0: seq<SlotHost>, s: seq<SlotHost>, order: seq<nat>, q: nat)
      requires Partial(s0, s, order, q)
      ensures forall i, j :: 0 <= i < |s0| && 0 <= j < |s0| && Sooner(s0, i, j) && s[j] != s0[j] ==> OnlyProtected(s[i].chain)
    {
      forall i, j | 0 <= i < |s0| && 0 <= j < |s0| && Sooner(s0, i, j) && s[j] != s0[j]
        ensures OnlyProtected(s[i].chain)
      {
        assert i in order;
        var b :| 0 <= b < q && order[..q][b] == j;
        var a :| 0 <= a < |order| && order[a] == i;
        assert !(b < a);
      }
    }

    /** `enforce_host_ram_cap`. Ends under the cap, or with nothing left that may be dropped:
      * only stub-length store entries, and chains cut to their newest anchor and stubs. The store
      * gives first, by the refreshed marks (`marked`) and no more than the whole chains demand; the
      * chains are touched only once the store is down to its stubs, and no further than needed. */
    method Enforce(cap: nat) returns (ghost marked: Books)
      requires store.Valid() && AllAscending(slots) && cap > 0
      modifies this`slots, store
      ensures store.Valid() && AllAscending(slots)
      ensures store.totalBytes + ChainBytes(slots) <= cap || (StubsOnly(store.entries) && AllProtected(slots))
      ensures Trimmed(old(slots), slots)
      ensures forall i :: 0 <= i < |slots| ==> LatestN(slots[i].chain) == LatestN(old(slots)[i].chain)
      ensures ChainsNeeded(old(slots), slots, store.totalBytes, cap) && (slots != old(slots) ==> StubsOnly(store.entries))
      ensures StoreCut(old(slots), old(store.entries), store.entries)
      ensures old(store.totalBytes) + ChainBytes(old(slots)) <= cap ==>
        slots == old(slots) && store.entries == old(store.entries)
      ensures old(store.totalBytes) + ChainBytes(old(slots)) > cap ==>
        && Refreshed(marked, old(store.TheBooks()), old(slots)) && EvictedFrom(marked, store.entries)
        && StoreNeeded(marked, store.entries, store.totalBytes + ChainBytes(old(slots)), cap)
    {
      hide *;
      ghost var s0, e0, b0, started := slots, store.entries, store.TheBooks(), false;
      marked := b0;
      Untouched(s0, e0, store.totalBytes, cap);
      SameBooks(b0);
      while true
        invariant store.Valid() && AllAscending(slots)
        invariant Trimmed(s0, slots) && |slots| == |s0|
        invariant forall i :: 0 <= i < |s0| ==> LatestN(slots[i].chain) == LatestN(s0[i].chain)
        invariant ChainsNeeded(s0, slots, store.totalBytes, cap) && StoreCut(s0, e0, store.entries)
        invariant !started ==> slots == s0 && store.TheBooks() == b0 && store.entries == e0 && store.totalBytes == old(store.totalBytes)
        invariant started ==> old(store.totalBytes) + ChainBytes(s0) > cap
        invariant started ==> Refreshed(marked, b0, s0) && EvictedFrom(marked, store.entries)
        invariant started ==> StoreNeeded(marked, store.entries, store.totalBytes + ChainBytes(s0), cap)
        invariant started ==> StubsOnly(store.entries) || (slots == s0 && store.totalBytes + ChainBytes(slots) <= cap)
        invariant slots == s0 || (started && (store.totalBytes + ChainBytes(slots) <= cap || AllProtected(slots)))
        decreases |store.entries| + Anchors(slots)
      {
        var chainBytes := ChainBytes(slots);
        if store.totalBytes + chainBytes <= cap { return; }
        var before := store.totalBytes;
        ghost var marks := EvictStore(chainBytes, cap);
        if !started {
          marked, started := marks, true;
          CutByMarks(s0, b0, marked, e0, store.entries);
          Untouched(s0, e0, store.totalBytes, cap);
        }
        if store.totalBytes < before { continue; }
        ghost var s1 := slots;
        var dropped := TrimChainsSessionOrder(cap, store.totalBytes);
        TrimmedTransitive(s0, s1, slots);
        TrimmedKeepsLatest(s0, slots);
        if !dropped { return; }
      }
    }

    lemma Untouched(s: seq<SlotHost>, e: map<Key, SeqCheckpoint>, storeBytes: nat, cap: nat)
      requires AllAscending(s)
      ensures Trimmed(s, s) && StoreCut(s, e, e) && ChainsNeeded(s, s, storeBytes, cap)
    {
    }

    lemma TrimmedKeepsLatest(a: seq<SlotHost>, b: seq<SlotHost>)
      requires Trimmed(a, b)
      ensures |a| == |b| && forall i :: 0 <= i < |a| ==> LatestN(b[i].chain) == LatestN(a[i].chain)
    {
    }

    /** Stage one: refresh the references, then drop non-stub store entries. */
    method EvictStore(chainBytes: nat, cap: nat) returns (ghost marked: Books)
      requires store.Valid() && cap > 0
      modifies store
      ensures store.Valid()
      ensures Refreshed(marked, old(store.TheBooks()), slots) && EvictedFrom(marked, store.entries)
      ensures StoreNeeded(marked, store.entries, store.totalBytes + chainBytes, cap)
      ensures |store.entries| <= |old(store.entries)| && store.totalBytes <= old(store.totalBytes)
      ensures store.totalBytes < old(store.totalBytes) ==> |store.entries| < |old(store.entries)|
      ensures store.totalBytes + chainBytes > cap ==> StubsOnly(store.entries)
      ensures StubsOnly(old(store.entries)) ==> store.entries == old(store.entries) && store.totalBytes == old(store.totalBytes)
    {
      hide *;
      ghost var b0 := store.TheBooks();
      SameBooks(b0);
      store.RefreshEntryRefs(LivePrompts(slots));
      marked := store.TheBooks();
      SameBooks(marked);
      MarksAreUse(b0, marked);
      store.EvictGlobalOverCap(chainBytes, cap);
      SameBooks(store.TheBooks());
      EvictedByMarks(marked, chainBytes, cap);
      StubsStay(marked, store.entries);
      if store.totalBytes + chainBytes > cap {
        OnlyStubs();
      }
    }

    lemma EvictedByMarks(b0: Books, chainBytes: nat, cap: nat)
      requires Evicted(b0, store.TheBooks(), true) && store.NeededOutBy(b0, chainBytes, cap)
      ensures EvictedFrom(b0, store.entries) && StoreNeeded(b0, store.entries, store.totalBytes + chainBytes, cap)
    {
      hide Evicted, LastOut, OutscoredBy;
      EvictedIs(b0, store.TheBooks());
      if store.entries != b0.entries {
        var v, bytes: nat :| store.LastOutOf(b0, v, bytes) && bytes + chainBytes > cap;
        LastOutIs(b0, store.TheBooks(), v);
      }
    }

    lemma SameBooks(b: Books)
      requires b == store.TheBooks()
      ensures b.entries == store.entries && b.meta == store.meta && b.lastUsed == store.lastUsed
    {
    }

    lemma OnlyStubs()
      requires forall k :: !store.Candidate(k, true)
      ensures StubsOnly(store.entries)
    {
      forall k | k in store.entries ensures IsStoreStubLen(store.entries[k].nTokens) {
        assert !store.Candidate(k, true);
      }
    }

    /** The refreshed marks say which keys head a live prompt. */
    lemma MarksAreUse(b0: Books, b: Books)
      requires b.entries == b0.entries && b.lastUsed == b0.lastUsed && b.meta.Keys == b0.meta.Keys
      requires forall k :: k in b.meta ==> b.meta[k].demand == b0.meta[k].demand && (b.meta[k].refs > 0 <==> HeadOfLive(k, LivePrompts(slots)))
      ensures Refreshed(b, b0, slots)
    {
      forall k | k in b.meta ensures b.meta[k].refs > 0 <==> InUse(slots, k) {
        LiveHeadsAreInUse(slots, k);
      }
    }

    lemma StubsStay(b: Books, e: map<Key, SeqCheckpoint>)
      requires EvictedFrom(b, e)
      ensures StubsOnly(b.entries) ==> e == b.entries
    {
      hide OutscoredBy;
      if StubsOnly(b.entries) { assert e.Keys == b.entries.Keys; }
    }

    lemma CutByMarks(s: seq<SlotHost>, b0: Books, b: Books, e0: map<Key, SeqCheckpoint>, e: map<Key, SeqCheckpoint>)
      requires Refreshed(b, b0, s) && EvictedFrom(b, e) && b0.entries == e0
      ensures StoreCut(s, e0, e)
    {
      hide InUse;
      forall d, k | d in e0 && d !in e && InUse(s, d) && k in e && !IsStoreStubLen(e[k].nTokens) ensures InUse(s, k) {
        assert OutscoredBy(b, e, k);
      }
    }
  }

  /** The books with the references counted anew: marked are the keys that head a live prompt. */
  ghost predicate Refreshed(b: Books, b0: Books, slots: seq<SlotHost>) {
    && b.entries == b0.entries && b.lastUsed == b0.lastUsed && b.meta.Keys == b0.meta.Keys
    && forall k :: k in b.meta ==> b.meta[k].demand == b0.meta[k].demand && (b.meta[k].refs > 0 <==> InUse(slots, k))
  }

  /** Everything gone from the books scored higher than `k`. */
  ghost predicate OutscoredBy(b0: Books, e: map<Key, SeqCheckpoint>, k: Key) {
    InBooks(b0, k) && forall d :: d in b0.entries && d !in e ==> InBooks(b0, d) && ScoreIn(b0, k).Less(ScoreIn(b0, d))
  }

  /** `e` is what an eviction that spares the stubs left of the books. */
  ghost predicate EvictedFrom(b0: Books, e: map<Key, SeqCheckpoint>) {
    && (forall k :: k in e ==> k in b0.entries && e[k] == b0.entries[k])
    && (forall k :: k in b0.entries && IsStoreStubLen(b0.entries[k].nTokens) ==> k in e)
    && (forall k :: k in e && !IsStoreStubLen(e[k].nTokens) ==> OutscoredBy(b0, e, k))
  }

  /** No entry went without need: with the last one back, `bytes` in all would exceed the cap. */
  ghost predicate StoreNeeded(b0: Books, e: map<Key, SeqCheckpoint>, bytes: nat, cap: nat) {
    e == b0.entries || exists v :: (
      && v in b0.entries && v !in e && OutscoredBy(b0, e[v := b0.entries[v]], v)
      && bytes + b0.entries[v].data.size > cap)
  }

  lemma EvictedIs(b0: Books, b: Books)
    requires Evicted(b0, b, true)
    ensures EvictedFrom(b0, b.entries)
  {
    hide ScoreIn, InBooks;
    forall k | k in b.entries && !IsStoreStubLen(b.entries[k].nTokens) ensures OutscoredBy(b0, b.entries, k) {
      assert Outranked(b0, b, k);
    }
  }

  lemma LastOutIs(b0: Books, b: Books, v: Key)
    requires LastOut(b0, b, v) && v in b0.entries
    ensures v !in b.entries && OutscoredBy(b0, b.entries[v := b0.entries[v]], v)
  {
    hide ScoreIn;
  }

  ghost predicate StubsOnly(e: map<Key, SeqCheckpoint>) {
    forall k :: k in e ==> IsStoreStubLen(e[k].nTokens)
  }

  /** What enforcement may do to the store: entries only disappear, stubs never, and an entry
    * that heads a live prompt only when every droppable entry left heads one too. */
  ghost predicate StoreCut(slots: seq<SlotHost>, e0: map<Key, SeqCheckpoint>, e: map<Key, SeqCheckpoint>) {
    && (forall k :: k in e ==> k in e0 && e[k] == e0[k])
    && (forall k :: k in e0 && IsStoreStubLen(e0[k].nTokens) ==> k in e)
    && (forall d, k :: d in e0 && d !in e && InUse(slots, d) && k in e && !IsStoreStubLen(e[k].nTokens) ==> InUse(slots, k))
  }
}
