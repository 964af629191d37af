/** Binding a text prompt to a slot: reuse of resident cells, anchor chain, store and disk. */
module BindPath {
  import opened Common
  import opened SeqKvs
  import opened PrefixStores
  import opened AnchorChains

  /** The bound request, as far as the bind decides it. */
  datatype BoundJob = BoundJob(
    prompt: seq<Token>, promptOffset: nat, nPast: nat, ctxCap: nat, maxTokens: nat,
    prefillStop: Option<nat>, preGenStop: Option<nat>)

  /** An anchor's dump has the length it claims, and one of dump and session heads the other. */
  predicate AnchorAgrees(a: SeqCheckpoint, session: seq<Token>) {
    |a.data.cells| == a.nTokens && Agree(a.data.cells, session)
  }

  predicate ChainAgrees(c: Chain, session: seq<Token>) {
    forall a :: a in c ==> AnchorAgrees(a, session)
  }

  /** Every dump has the length its anchor claims. */
  predicate Sized(c: Chain) { forall a :: a in c ==> |a.data.cells| == a.nTokens }

  /** `a` is the longest anchor of at most `n` tokens. */
  ghost predicate Reaches(c: Chain, n: nat, a: SeqCheckpoint) {
    a in c && 0 < a.nTokens <= n && forall b :: b in c && b.nTokens <= n ==> b.nTokens <= a.nTokens
  }

  lemma OneOfLength(c: Chain, i: nat, j: nat)
    requires Ascending(c) && i < |c| && j < |c| && c[i].nTokens == c[j].nTokens
    ensures i == j
  {
  }

  lemma OneReached(c: Chain, n: nat, a: SeqCheckpoint, b: SeqCheckpoint)
    requires Ascending(c) && Reaches(c, n, a) && Reaches(c, n, b)
    ensures a == b
  {
    var i :| 0 <= i < |c| && c[i] == a;
    var j :| 0 <= j < |c| && c[j] == b;
    OneOfLength(c, i, j);
  }

  lemma BestIsReached(c: Chain, n: nat, best: SeqCheckpoint)
    requires Ascending(c) && best in c && 0 < best.nTokens <= n
    requires forall a :: a in c && a.nTokens <= n ==> a.nTokens <= best.nTokens
    ensures Reaches(c, n, best) && forall a :: Reaches(c, n, a) ==> a == best
  {
    forall a | Reaches(c, n, a) ensures a == best { OneReached(c, n, a, best); }
  }

  /** No anchor of at most `n` tokens at all. */
  ghost predicate NoneReached(c: Chain, n: nat) {
    forall a :: a in c ==> a.nTokens == 0 || a.nTokens > n
  }

  lemma ReachedOrNot(c: Chain, n: nat)
    ensures NoneReached(c, n) ==> forall a :: !Reaches(c, n, a)
  {
  }

  lemma {:induction false} SomeReached(c: Chain, n: nat)
    ensures NoneReached(c, n) || exists a :: Reaches(c, n, a)
  {
    if c != [] && !NoneReached(c, n) {
      var d, last := c[..|c| - 1], c[|c| - 1];
      assert forall a :: a in c <==> a in d || a == last;
      SomeReached(d, n);
      if NoneReached(d, n) {
        assert Reaches(c, n, last);
      } else {
        var a :| Reaches(d, n, a);
        assert Reaches(c, n, if a.nTokens <= last.nTokens <= n then last else a);
      }
    }
  }

  /** A usable answer of the disk tier: a full-state dump of a head no longer than the search. */
  ghost predicate DiskAnswer(d: Option<SeqCheckpoint>, prompt: seq<Token>, searchLen: nat) {
    d.Some? ==> (0 < d.value.nTokens <= searchLen && d.value.nTokens <= |prompt|
                 && d.value.data.cells == prompt[..d.value.nTokens])
  }

  /** The longest stored head of the prompt within the search. */
  ghost predicate LongestUsable(entries: map<Key, SeqCheckpoint>, prompt: Key, searchLen: nat, k: Key) {
    Usable(entries, prompt, searchLen, k) && forall k' :: Usable(entries, prompt, searchLen, k') ==> |k'| <= |k|
  }

  ghost predicate NoneUsable(entries: map<Key, SeqCheckpoint>, prompt: Key, searchLen: nat) {
    forall k :: !Usable(entries, prompt, searchLen, k)
  }

  lemma SearchIsShort(promptLen: nat, reuseLen: nat)
    requires reuseLen < promptLen
    ensures HostSearchLen(promptLen, reuseLen) < promptLen
  {
  }

  lemma MinIs(a: nat, b: nat)
    ensures Min(a, b) == Min(b, a) == if a <= b then a else b
  {
  }

  lemma DiskFits(disk: Option<SeqCheckpoint>, prompt: Key, searchLen: nat)
    requires DiskAnswer(disk, prompt, searchLen)
    ensures disk.Some? ==> 0 < disk.value.nTokens <= searchLen && disk.value.nTokens <= |prompt|
    ensures disk.Some? && disk.value.nTokens <= |prompt| ==> disk.value.data.cells == prompt[..disk.value.nTokens]
  {
  }

  /** What the RAM tier finds is the longest usable head of the prompt, as long as it says. */
  method SearchRam(store: PrefixStore, prompt: Key, searchLen: nat) returns (ram: Option<SeqCheckpoint>)
    requires store.Valid() && store.Faithful()
    modifies store`lastUsedTick, store`lastUsed
    ensures store.Valid() && store.Faithful()
    ensures ram.None? ==> NoneUsable(store.entries, prompt, searchLen)
    ensures ram.Some? ==> 0 < ram.value.nTokens <= |prompt| && ram.value.data.cells == prompt[..ram.value.nTokens]
    ensures ram.Some? && ram.value.nTokens <= |prompt| ==>
      LongestUsable(store.entries, prompt, searchLen, prompt[..ram.value.nTokens])
    ensures ram.Some? && ram.value.nTokens <= |prompt| ==> store.entries[prompt[..ram.value.nTokens]] == ram.value
  {
    ram := store.FindRam(prompt, searchLen);
  }

  /** The length the host tiers bring back when every restore succeeds. The disk answers a fresh
    * sequence first, and any other when no stored head is usable; the longest usable head answers
    * else, cut to the search, which a recurrent sequence cannot do; an empty dump answers nothing. */
  ghost predicate HostBrings(entries: map<Key, SeqCheckpoint>, disk: Option<SeqCheckpoint>, prompt: Key, searchLen: nat,
                             freshSeq: bool, recurrent: bool, kept: nat)
  {
    && (disk.Some? && (freshSeq || NoneUsable(entries, prompt, searchLen)) ==>
          kept == if disk.value.data.size == 0 then 0 else disk.value.nTokens)
    && (!(disk.Some? && freshSeq) ==> forall k :: LongestUsable(entries, prompt, searchLen, k) ==>
          kept == if entries[k].data.size == 0 || (recurrent && |k| > searchLen) then 0 else Min(|k|, searchLen))
    && (disk.None? && NoneUsable(entries, prompt, searchLen) ==> kept == 0)
  }

  lemma DiskBrings(entries: map<Key, SeqCheckpoint>, d: SeqCheckpoint, prompt: Key, searchLen: nat, freshSeq: bool, recurrent: bool)
    requires freshSeq || NoneUsable(entries, prompt, searchLen)
    ensures HostBrings(entries, Some(d), prompt, searchLen, freshSeq, recurrent, if d.data.size == 0 then 0 else d.nTokens)
  {
    hide Usable;
  }

  /** Heads of one prompt with one length are one, so the longest answers. */
  lemma RamBrings(entries: map<Key, SeqCheckpoint>, disk: Option<SeqCheckpoint>, prompt: Key, searchLen: nat,
                  freshSeq: bool, recurrent: bool, k: Key)
    requires LongestUsable(entries, prompt, searchLen, k) && !(disk.Some? && freshSeq)
    ensures HostBrings(entries, disk, prompt, searchLen, freshSeq, recurrent,
                       if entries[k].data.size == 0 || (recurrent && |k| > searchLen) then 0 else Min(|k|, searchLen))
  {
    forall k' | LongestUsable(entries, prompt, searchLen, k') ensures k' == k {
      assert |k'| == |k| && k == prompt[..|k|] && k' == prompt[..|k'|];
    }
  }

  lemma NothingBrings(entries: map<Key, SeqCheckpoint>, prompt: Key, searchLen: nat, freshSeq: bool, recurrent: bool)
    requires NoneUsable(entries, prompt, searchLen)
    ensures HostBrings(entries, None, prompt, searchLen, freshSeq, recurrent, 0)
  {
    hide Usable;
  }

  /** A prompt of one token leaves nothing to search for. */
  lemma NoSearchBrings(entries: map<Key, SeqCheckpoint>, disk: Option<SeqCheckpoint>, prompt: Key, freshSeq: bool, recurrent: bool)
    requires DiskAnswer(disk, prompt, 0)
    ensures HostBrings(entries, disk, prompt, 0, freshSeq, recurrent, 0)
  {
  }

  lemma {:induction false} SomeUsable(entries: map<Key, SeqCheckpoint>, prompt: Key, searchLen: nat, n: nat)
    requires forall k :: Usable(entries, prompt, searchLen, k) ==> |k| <= n
    ensures NoneUsable(entries, prompt, searchLen) || exists k :: LongestUsable(entries, prompt, searchLen, k)
  {
    hide Usable;
    if k :| Usable(entries, prompt, searchLen, k) && |k| == n {
      assert LongestUsable(entries, prompt, searchLen, k);
    } else if n > 0 {
      SomeUsable(entries, prompt, searchLen, n - 1);
    }
  }

  /** The host tiers bring back one length. */
  lemma HostBringsOne(entries: map<Key, SeqCheckpoint>, disk: Option<SeqCheckpoint>, prompt: Key, searchLen: nat,
                      freshSeq: bool, recurrent: bool, m: nat, n: nat)
    requires HostBrings(entries, disk, prompt, searchLen, freshSeq, recurrent, m)
    requires HostBrings(entries, disk, prompt, searchLen, freshSeq, recurrent, n)
    ensures m == n
  {
    SomeUsable(entries, prompt, searchLen, searchLen + 1);
    if disk.None? || !(freshSeq || NoneUsable(entries, prompt, searchLen)) {
      if k :| LongestUsable(entries, prompt, searchLen, k) {}
    }
  }

  lemma AnchorFits(c: Chain, a: SeqCheckpoint)
    requires Ascending(c) && Sized(c) && a in c
    ensures |a.data.cells| == a.nTokens && a.data.size > 0
  {
  }

  /** Two heads of one sequence agree with everything that agrees with it up to there. */
  lemma AgreeHead<T>(a: seq<T>, b: seq<T>, n: nat)
    requires Agree(a, b) && n <= |a| && n <= |b|
    ensures a[..n] == b[..n]
  {
  }

  /** A boundary arms a prefill stop only strictly between the reused head and the prompt end. */
  function ArmedStop(demand: Option<nat>, nPast: nat, promptLen: nat): (stop: Option<nat>) {
    if demand.Some? && nPast < demand.value < promptLen then demand else None
  }

  /** What the slot can tell of an anchor of `session` against a prompt that shares `l` tokens with
    * the session: one within the session must lie within the shared head. A longer one, kept past
    * its session, needs the whole session shared and its own rest to go on like the prompt. */
  ghost predicate Shared(a: SeqCheckpoint, session: seq<Token>, prompt: seq<Token>, l: nat)
    requires |a.data.cells| == a.nTokens && l <= |session| && l <= |prompt|
  {
    if a.nTokens <= |session| then a.nTokens <= l
    else l == |session| && a.data.cells[l..] <= prompt[l..]
  }

  lemma SharedMeansHead(a: SeqCheckpoint, session: seq<Token>, prompt: seq<Token>, l: nat)
    requires AnchorAgrees(a, session) && IsCommonPrefixLen(session, prompt, l)
    ensures a.data.cells <= prompt <==> Shared(a, session, prompt, l)
  {
    var cells, k := a.data.cells, Min(a.nTokens, |session|);
    AgreeHead(cells, session, k);
    if cells <= prompt {
      assert prompt[..k] == cells[..k];
      CommonPrefixLenIsMaximal(session, prompt, l, k);
    }
    if k <= l {
      assert session[..l][..k] == session[..k] && prompt[..l][..k] == prompt[..k];
      assert cells == cells[..k] + cells[k..] && prompt == prompt[..k] + prompt[k..];
      if cells <= prompt { assert cells[k..] == prompt[k..][..|cells| - k]; }
    }
  }

  /** `left` is `chain` pruned for a reuse of `k` tokens. */
  ghost predicate PrunedTo(chain: Chain, left: Chain, k: nat) {
    forall a :: a in left <==> a in chain && a.nTokens <= k + 1
  }

  lemma PrunedAgain(c: Chain, c1: Chain, c2: Chain)
    requires (c1 == c || PrunedTo(c, c1, 0)) && PrunedTo(c1, c2, 0)
    ensures PrunedTo(c, c2, 0)
  {
  }

  /** Every anchor of the chain is a head of the prompt. */
  ghost predicate AllHead(c: Chain, prompt: seq<Token>) {
    forall a :: a in c ==> a.data.cells <= prompt
  }

  /** Whatever the reuse `k` came from, the anchors its pruning leaves head the new prompt exactly
    * when every one of them is shared; on a chain within its session, exactly when none of them is
    * longer than the common head of session and prompt. */
  lemma PrunedAnchorsHeadThePrompt(c: Chain, left: Chain, session: seq<Token>, prompt: seq<Token>, l: nat, k: nat)
    requires ChainAgrees(c, session) && IsCommonPrefixLen(session, prompt, l) && PrunedTo(c, left, k)
    ensures AllHead(left, prompt) <==> forall a :: a in left ==> Shared(a, session, prompt, l)
    ensures (forall a :: a in left ==> a.nTokens <= |session|) ==>
      (AllHead(left, prompt) <==> forall a :: a in left ==> a.nTokens <= l)
  {
    forall a | a in left ensures a.data.cells <= prompt <==> Shared(a, session, prompt, l) {
      SharedMeansHead(a, session, prompt, l);
    }
  }

  class Slot {
    const kv: SeqKv
    var cache: seq<Token>
    var prefixLen: nat
    var chain: Chain
    var job: Option<BoundJob>

    constructor (kv: SeqKv, cache: seq<Token>, chain: Chain)
      ensures this.kv == kv && this.cache == cache && this.chain == chain && job.None?
    {
      this.kv, this.cache, this.chain := kv, cache, chain;
      prefixLen, job := |cache|, None;
    }

    /** The resident cells and every anchor go along with the remembered session tokens. */
    predicate Remembers()
      reads this`cache, this`chain, kv
    {
      Ascending(chain) && Agree(kv.cells, cache) && ChainAgrees(chain, cache)
    }

    /** The reuse of a bind: the common head with the session, short of the prompt's last token and
      * of what cells and chain cover. */
    ghost function Reuse(prompt: seq<Token>): nat
      reads this`cache, this`chain, kv`cells
    {
      Min(Min(Lcp(cache, prompt), Max(0, |prompt| - 1)), Max(|kv.cells|, LatestN(chain)))
    }

    /** The cells hold `n` tokens, and may be cut to them. */
    ghost predicate CanCut(n: nat)
      reads kv`cells
    {
      n <= |kv.cells| && (!kv.recurrent || |kv.cells| - n <= kv.nRsSeq)
    }

    /** An anchor may exceed the reuse by one token, but not on a recurrent sequence. */
    function Slack(): nat { if kv.recurrent then 0 else 1 }

    /** The cells serve the reuse `n` themselves. */
    ghost predicate CellsServe(n: nat)
      reads kv`cells
    {
      kv.reliable && n > 0 && CanCut(n)
    }

    /** They do not, and this anchor is the longest within reach. */
    ghost predicate AnchorServes(n: nat, a: SeqCheckpoint)
      reads this`chain, kv`cells
    {
      kv.reliable && n > 0 && !CanCut(n) && Reaches(chain, n + Slack(), a)
    }

    /** Nothing on the slot serves the reuse `n`. */
    ghost predicate NothingNear(n: nat)
      reads this`chain, kv`cells
    {
      kv.reliable && (n == 0 || (!CanCut(n) && NoneReached(chain, n + Slack())))
    }

    lemma MemoryIs()
      ensures Remembers() <==> Ascending(chain) && Agree(kv.cells, cache) && ChainAgrees(chain, cache)
    {
    }

    /** What a bind that reuses `k` tokens must leave behind. */
    ghost predicate Holds(prompt: seq<Token>, k: nat)
      reads this`chain, kv
    {
      && k < |prompt| && kv.cells == prompt[..k] && kv.orphans == 0
      && (kv.recurrent && k > 0 ==> !kv.cutRestored)
      && Ascending(chain) && LatestN(chain) <= k + 1
    }

    /** On a reliable engine every reuse is served by the cells, by an anchor, or by the host tiers. */
    lemma SomethingServes(n: nat)
      requires kv.reliable
      ensures CellsServe(n) || NothingNear(n) || exists a :: AnchorServes(n, a)
    {
      hide Reaches, NoneReached;
      SomeReached(chain, n + Slack());
      if !CellsServe(n) && !NothingNear(n) {
        var a :| Reaches(chain, n + Slack(), a);
        assert AnchorServes(n, a);
      }
    }

    /** The next turn of a conversation reuses all that is resident of the last one. */
    lemma NextTurnReuses(prompt: seq<Token>)
      requires kv.reliable && kv.cells == cache != [] && cache < prompt
      ensures CellsServe(Reuse(prompt)) && Reuse(prompt) == |cache|
    {
      LcpIs(cache, prompt, |cache|);
    }

    /** `reuse_for_bind`: the common head, short of the last prompt token and of the cover. */
    method ReuseForBind(prompt: seq<Token>, cover: nat) returns (n: nat)
      requires prompt != []
      modifies this`cache, this`prefixLen
      ensures n < |prompt| && n <= cover
      ensures n > 0 ==> cache == old(cache) && n <= |cache| && cache[..n] == prompt[..n] && prefixLen == n
      ensures n == 0 ==> cache == [] && prefixLen == 0
      ensures forall m: nat :: m <= |old(cache)| && m < |prompt| && m <= cover && old(cache)[..m] == prompt[..m] ==> m <= n
      ensures n == Min(Min(Lcp(old(cache), prompt), |prompt| - 1), cover)
    {
      var lcp := CommonPrefixLen(cache, prompt);
      LcpIs(cache, prompt, lcp);
      hide Lcp;
      forall m: nat | m <= |cache| && m < |prompt| && cache[..m] == prompt[..m] ensures m <= lcp {
        CommonPrefixLenIsMaximal(cache, prompt, lcp, m);
      }
      n := Min(Min(lcp, |prompt| - 1), cover);
      assert cache[..n] == prompt[..n] by {
        assert cache[..lcp][..n] == cache[..n];
        assert prompt[..lcp][..n] == prompt[..n];
      }
      if n == 0 {
        cache, prefixLen := [], 0;
        return;
      }
      prefixLen := n;
    }

    /** `trim_seq_to`: exactly `n` cells remain, or the sequence is as it was. */
    method TrimSeqTo(n: nat) returns (ok: bool)
      modifies kv
      ensures ok ==> n <= |old(kv.cells)| && kv.cells == old(kv.cells)[..n] && kv.orphans == 0
      ensures !ok ==> kv.cells == old(kv.cells)
      ensures kv.restored == old(kv.restored)
      ensures kv.cutRestored ==> old(kv.cutRestored) || (kv.restored.Some? && n < kv.restored.value)
      ensures ok ==> old(CanCut(n))
      ensures kv.reliable && old(CanCut(n)) ==> ok
    {
      var gpu := kv.NPast();
      if gpu < n { return false; }
      ok := kv.RmFrom(n);
      if ok {
        gpu := kv.NPast();
        ok := gpu == n;
      }
    }

    /** `best_chain_anchor`: the longest anchor of at most `reuseLen + slack` tokens. */
    method BestChainAnchor(reuseLen: nat, slack: nat) returns (best: Option<SeqCheckpoint>)
      ensures best.Some? ==> best.value in chain && 0 < best.value.nTokens <= reuseLen + slack
      ensures best.Some? ==> forall a :: a in chain && a.nTokens <= reuseLen + slack ==> a.nTokens <= best.value.nTokens
      ensures best.None? ==> NoneReached(chain, reuseLen + slack)
    {
      best := None;
      for i := 0 to |chain|
        invariant best.Some? ==> best.value in chain && 0 < best.value.nTokens <= reuseLen + slack
        invariant best.Some? ==>
          forall j :: 0 <= j < i && chain[j].nTokens <= reuseLen + slack ==> chain[j].nTokens <= best.value.nTokens
        invariant best.None? ==> forall j :: 0 <= j < i ==> chain[j].nTokens == 0 || chain[j].nTokens > reuseLen + slack
      {
        var a := chain[i];
        if a.nTokens != 0 && a.nTokens <= reuseLen + slack && (best.None? || a.nTokens >= best.value.nTokens) {
          best := Some(a);
        }
      }
    }

    method PruneChain(reuseLen: nat)
      requires Ascending(chain)
      modifies this`chain
      ensures Ascending(chain) && LatestN(chain) <= reuseLen + 1
      ensures PrunedTo(old(chain), chain, reuseLen)
    {
      chain := Prune(chain, reuseLen);
      if chain != [] { assert chain[|chain| - 1] in chain; }
    }

    /** Give up on reuse: clear the sequence, forget the session if asked, prune the chain. */
    method FullPrefill(prompt: seq<Token>, forget: bool)
      requires Ascending(chain) && prompt != []
      modifies this`cache, this`prefixLen, this`chain, kv
      ensures Holds(prompt, 0) && Ascending(chain) && PrunedTo(old(chain), chain, 0)
      ensures cache == if forget then [] else old(cache)
    {
      kv.Clear();
      if forget { cache, prefixLen := [], 0; }
      PruneChain(0);
    }

    /** `settle_prefix_kv`: make the cells cover exactly the returned length of the prompt. */
    method Settle(reuseLen: nat, gpuN: nat, store: PrefixStore, disk: Option<SeqCheckpoint>, prompt: seq<Token>) returns (kept: nat)
      requires reuseLen < |prompt| && kv.restored.None? && !kv.cutRestored
      requires Ascending(chain) && Sized(chain) && store.Valid() && store.Faithful()
      requires reuseLen <= |cache| && (reuseLen > 0 ==> cache[..reuseLen] == prompt[..reuseLen])
      requires DiskAnswer(disk, prompt, HostSearchLen(|prompt|, reuseLen))
      modifies this`cache, this`prefixLen, this`chain, kv, store`lastUsedTick, store`lastUsed
      ensures old(Remembers()) ==> Holds(prompt, kept)
      ensures Ascending(chain) && PrunedTo(old(chain), chain, kept) && kept < |prompt|
      ensures old(CellsServe(reuseLen)) ==> kept == reuseLen && kv.cells == old(kv.cells)[..kept] && cache == old(cache)
      ensures forall a :: old(AnchorServes(reuseLen, a)) ==> kept == Min(reuseLen, a.nTokens) && kv.cells == a.data.cells[..kept]
      ensures old(NothingNear(reuseLen)) ==> HostBrings(store.entries, disk, prompt, HostSearchLen(|prompt|, reuseLen),
                                                        reuseLen == 0 || gpuN == 0, kv.recurrent, kept)
      ensures store.Valid() && store.Faithful()
    {
      hide Reaches, HostBrings, DiskAnswer, Sized, PrunedTo, BooksRight;
      if reuseLen == 0 {
        kv.Clear();
        ghost var chain0 := chain;
        var host := RestoreHostSnapshot(reuseLen, gpuN, store, disk, prompt);
        if host.Some? { return host.value; }
        ghost var chain1 := chain;
        PruneChain(0);
        PrunedAgain(chain0, chain1, chain);
        return 0;
      }
      if Remembers() { AgreeHead(kv.cells, cache, Min(reuseLen, |kv.cells|)); }
      var ok := TrimSeqTo(reuseLen);
      if ok {
        PruneChain(reuseLen);
        return reuseLen;
      }
      hide *;
      MemoryIs();
      kept := SettleUncut(reuseLen, gpuN, store, disk, prompt);
    }

    /** Behind a refused cut: the chain, then the store, then nothing. */
    method SettleUncut(reuseLen: nat, gpuN: nat, store: PrefixStore, disk: Option<SeqCheckpoint>, prompt: seq<Token>) returns (kept: nat)
      requires 0 < reuseLen < |prompt| && Ascending(chain) && Sized(chain) && store.Valid() && store.Faithful()
      requires reuseLen <= |cache| && cache[..reuseLen] == prompt[..reuseLen]
      requires DiskAnswer(disk, prompt, HostSearchLen(|prompt|, reuseLen))
      modifies this`cache, this`prefixLen, this`chain, kv, store`lastUsedTick, store`lastUsed
      ensures ChainAgrees(old(chain), old(cache)) ==> Holds(prompt, kept)
      ensures Ascending(chain) && PrunedTo(old(chain), chain, kept) && kept < |prompt|
      ensures kv.reliable ==> forall a :: Reaches(old(chain), reuseLen + Slack(), a) ==>
        kept == Min(reuseLen, a.nTokens) && kv.cells == a.data.cells[..kept]
      ensures kv.reliable && NoneReached(old(chain), reuseLen + Slack()) ==>
        HostBrings(store.entries, disk, prompt, reuseLen, gpuN == 0, kv.recurrent, kept)
      ensures store.Valid() && store.Faithful()
    {
      hide DiskAnswer, Reaches, Agree, PrunedTo, HostBrings, NoneReached, Holds, Ascending, Sized, AnchorAgrees, Usable, BooksRight;
      var slack := if kv.recurrent then 0 else 1;
      var best := BestChainAnchor(reuseLen, slack);
      ReachedOrNot(chain, reuseLen + slack);
      if best.Some? {
        BestIsReached(chain, reuseLen + slack, best.value);
        AnchorFits(chain, best.value);
        kept := RestoreAnchor(best.value, reuseLen, prompt);
        return;
      }
      ghost var chain0 := chain;
      var host := RestoreHostSnapshot(reuseLen, gpuN, store, disk, prompt);
      if host.Some? { return host.value; }
      ghost var chain1 := chain;
      FullPrefill(prompt, true);
      PrunedAgain(chain0, chain1, chain);
      return 0;
    }

    /** The chain tier of `settle_prefix_kv`. */
    method RestoreAnchor(a: SeqCheckpoint, reuseLen: nat, prompt: seq<Token>) returns (kept: nat)
      requires 0 < reuseLen < |prompt| && Ascending(chain)
      requires reuseLen <= |cache| && cache[..reuseLen] == prompt[..reuseLen]
      requires |a.data.cells| == a.nTokens && a.data.size > 0 && 0 < a.nTokens <= reuseLen + 1
      modifies this`cache, this`prefixLen, this`chain, kv
      ensures AnchorAgrees(a, old(cache)) ==> Holds(prompt, kept)
      ensures Ascending(chain) && PrunedTo(old(chain), chain, kept) && kept < |prompt|
      ensures kv.reliable && (kv.recurrent ==> a.nTokens <= reuseLen) ==>
        kept == Min(reuseLen, a.nTokens) && kv.cells == a.data.cells[..kept]
    {
      var ok := kv.StateSet(a.data);
      if !ok {
        FullPrefill(prompt, true);
        return 0;
      }
      var swept := kv.RmFrom(a.nTokens);
      kept := Min(reuseLen, a.nTokens);
      if kv.recurrent && kept < a.nTokens {
        FullPrefill(prompt, true);
        return 0;
      }
      if AnchorAgrees(a, cache) { AgreeHead(a.data.cells, cache, kept); }
      assert prompt[..reuseLen][..kept] == prompt[..kept] && cache[..reuseLen][..kept] == cache[..kept];
      assert kv.cells <= a.data.cells;
      ok := TrimSeqTo(kept);
      if ok {
        PruneChain(kept);
        return;
      }
      FullPrefill(prompt, true);
      return 0;
    }

    /** `restore_host_snapshot`: the longest matching store dump, full-state from disk on a fresh
      * sequence, partial from RAM otherwise; nothing on a miss or any refused call. */
    method RestoreHostSnapshot(reuseLen: nat, gpuN: nat, store: PrefixStore, disk: Option<SeqCheckpoint>, prompt: seq<Token>)
      returns (kept: Option<nat>)
      requires reuseLen < |prompt| && Ascending(chain) && store.Valid() && store.Faithful()
      requires DiskAnswer(disk, prompt, HostSearchLen(|prompt|, reuseLen))
      modifies this`cache, this`prefixLen, this`chain, kv, store`lastUsedTick, store`lastUsed
      ensures store.Valid() && store.Faithful()
      ensures kept.Some? ==> Holds(prompt, kept.value) && PrunedTo(old(chain), chain, kept.value)
      ensures Ascending(chain) && (kept.Some? ==> kept.value < |prompt|)
      ensures kept.None? ==> chain == old(chain) || PrunedTo(old(chain), chain, 0)
      ensures kept.None? && !unchanged(kv) ==> kv.cells == [] && kv.orphans == 0
      ensures kept.Some? ==> kept.value > 0
      ensures kv.reliable ==> HostBrings(store.entries, disk, prompt, HostSearchLen(|prompt|, reuseLen),
                                         reuseLen == 0 || gpuN == 0, kv.recurrent, if kept.Some? then kept.value else 0)
    {
      hide *;
      var searchLen := HostSearchLen(|prompt|, reuseLen);
      var freshSeq := reuseLen == 0 || gpuN == 0;
      SearchIsShort(|prompt|, reuseLen);
      DiskFits(disk, prompt, searchLen);
      if searchLen == 0 {
        NoSearchBrings(store.entries, disk, prompt, freshSeq, kv.recurrent);
        return None;
      }
      var ram := SearchRam(store, prompt, searchLen);
      if disk.Some? && (freshSeq || ram.None?) {
        DiskBrings(store.entries, disk.value, prompt, searchLen, freshSeq, kv.recurrent);
        MinIs(searchLen, disk.value.nTokens);
        kept := RestoreFull(disk.value, searchLen, prompt);
      } else if ram.Some? {
        RamBrings(store.entries, disk, prompt, searchLen, freshSeq, kv.recurrent, prompt[..ram.value.nTokens]);
        MinIs(searchLen, ram.value.nTokens);
        kept := RestorePartial(ram.value, searchLen, prompt);
      } else {
        NothingBrings(store.entries, prompt, searchLen, freshSeq, kv.recurrent);
        kept := None;
      }
    }

    method RestoreFull(d: SeqCheckpoint, searchLen: nat, prompt: seq<Token>) returns (kept: Option<nat>)
      requires Ascending(chain) && searchLen < |prompt| && 0 < d.nTokens <= |prompt| && d.data.cells == prompt[..d.nTokens]
      modifies this`cache, this`prefixLen, this`chain, kv
      ensures Ascending(chain) && (kept.Some? ==> kept.value == Min(searchLen, d.nTokens) < |prompt|)
      ensures kept.Some? ==> Holds(prompt, kept.value) && PrunedTo(old(chain), chain, kept.value)
      ensures kept.None? ==> kv.cells == [] && kv.orphans == 0 && PrunedTo(old(chain), chain, 0)
      ensures kv.reliable ==> kept == if d.data.size > 0 && d.nTokens <= searchLen then Some(d.nTokens) else None
    {
      kv.Clear();
      if d.nTokens > searchLen {
        FullPrefill(prompt, false);
        return None;
      }
      var ok := kv.FullSet(d.data);
      if !ok {
        FullPrefill(prompt, false);
        return None;
      }
      var gpu := kv.NPast();
      if gpu == 0 {
        FullPrefill(prompt, false);
        return None;
      }
      PruneChain(d.nTokens);
      return Some(d.nTokens);
    }

    method RestorePartial(d: SeqCheckpoint, searchLen: nat, prompt: seq<Token>) returns (kept: Option<nat>)
      requires Ascending(chain) && searchLen < |prompt| && 0 < d.nTokens <= |prompt| && d.data.cells == prompt[..d.nTokens]
      modifies this`cache, this`prefixLen, this`chain, kv
      ensures Ascending(chain) && (kept.Some? ==> kept.value == Min(searchLen, d.nTokens) < |prompt|)
      ensures kept.Some? ==> Holds(prompt, kept.value) && PrunedTo(old(chain), chain, kept.value)
      ensures kept.None? ==> kv.cells == [] && kv.orphans == 0 && PrunedTo(old(chain), chain, 0)
      ensures kv.reliable ==>
        kept == if d.data.size == 0 || (kv.recurrent && searchLen < d.nTokens) then None else Some(Min(searchLen, d.nTokens))
    {
      kv.Clear();
      var ok := kv.StateSet(d.data);
      if !ok {
        FullPrefill(prompt, false);
        return None;
      }
      var k := Min(searchLen, d.nTokens);
      var gpu := kv.NPast();
      if gpu == 0 {
        FullPrefill(prompt, false);
        return None;
      }
      if kv.recurrent && k < d.nTokens {
        FullPrefill(prompt, false);
        return None;
      }
      var swept := kv.RmFrom(d.nTokens);
      ok := TrimSeqTo(k);
      if ok {
        PruneChain(k);
        return Some(k);
      }
      FullPrefill(prompt, false);
      return None;
    }

    /** Reuse as far as the slot remembers, then settle the cells. */
    method ReuseAndSettle(prompt: seq<Token>, store: PrefixStore, diskFind: nat -> Option<SeqCheckpoint>) returns (kept: nat)
      requires prompt != [] && kv.restored.None? && !kv.cutRestored
      requires Ascending(chain) && Sized(chain) && store.Valid() && store.Faithful()
      requires forall n :: DiskAnswer(diskFind(n), prompt, n)
      modifies this`cache, this`prefixLen, this`chain, kv, store`lastUsedTick, store`lastUsed
      ensures old(Remembers()) ==> Holds(prompt, kept)
      ensures Ascending(chain) && PrunedTo(old(chain), chain, kept) && kept < |prompt|
      ensures old(CellsServe(Reuse(prompt))) ==> kept == old(Reuse(prompt)) && kv.cells == old(kv.cells)[..kept] && cache == old(cache)
      ensures forall a :: old(AnchorServes(Reuse(prompt), a)) ==>
        kept == Min(old(Reuse(prompt)), a.nTokens) && kv.cells == a.data.cells[..kept]
      ensures var n := old(Reuse(prompt)); old(NothingNear(n)) ==>
        HostBrings(store.entries, diskFind(HostSearchLen(|prompt|, n)), prompt, HostSearchLen(|prompt|, n),
                   n == 0 || |old(kv.cells)| == 0, kv.recurrent, kept)
      ensures store.Valid() && store.Faithful()
    {
      hide PrunedTo, Holds, Lcp, Reaches, Sized, Ascending;
      var gpuN := kv.NPast();
      var reuseLen := ReuseForBind(prompt, Max(gpuN, LatestN(chain)));
      assert forall a :: a in chain && AnchorAgrees(a, old(cache)) ==> AnchorAgrees(a, cache);
      kept := Settle(reuseLen, gpuN, store, diskFind(HostSearchLen(|prompt|, reuseLen)), prompt);
    }

    /** `bind_slot` for a text prompt. Rejected prompts touch nothing; a bound one has exactly its
      * reused head resident and at least one token left to prefill. `diskFind` answers the disk
      * lookup for a search length, `demand` is the observed reuse boundary, if any. */
    method BindText(prompt: seq<Token>, maxTokensReq: nat, ctxCap: nat, store: PrefixStore,
                    diskFind: nat -> Option<SeqCheckpoint>, demand: Option<nat>) returns (bound: bool)
      requires Ascending(chain) && Sized(chain) && store.Valid() && store.Faithful()
      requires forall n :: DiskAnswer(diskFind(n), prompt, n)
      modifies this, kv, store`lastUsedTick, store`lastUsed
      ensures store.Valid() && store.Faithful()
      ensures bound <==> 0 < |prompt| < ctxCap
      ensures !bound ==> job == old(job) && cache == old(cache) && chain == old(chain)
      ensures !bound ==> kv.cells == old(kv.cells) && kv.orphans == old(kv.orphans)
      ensures bound ==> job.Some? && job.value.prompt == prompt && job.value.ctxCap == ctxCap
      ensures bound ==> job.value.nPast == job.value.promptOffset && (old(Remembers()) ==> Holds(prompt, job.value.nPast))
      ensures bound ==> Ascending(chain) && PrunedTo(old(chain), chain, job.value.nPast)
      ensures bound && old(Remembers()) ==> (AllHead(chain, prompt) <==>
        forall a :: a in chain ==> Shared(a, old(cache), prompt, Lcp(old(cache), prompt)))
      ensures bound && old(CellsServe(Reuse(prompt))) ==>
        job.value.nPast == old(Reuse(prompt)) && kv.cells == old(kv.cells)[..job.value.nPast] && cache == old(cache)
      ensures bound ==> forall a :: old(AnchorServes(Reuse(prompt), a)) ==>
        job.value.nPast == Min(old(Reuse(prompt)), a.nTokens) && kv.cells == a.data.cells[..job.value.nPast]
      ensures var n := old(Reuse(prompt)); bound && old(NothingNear(n)) ==>
        HostBrings(store.entries, diskFind(HostSearchLen(|prompt|, n)), prompt, HostSearchLen(|prompt|, n),
                   n == 0 || |old(kv.cells)| == 0, kv.recurrent, job.value.nPast)
      ensures bound ==> job.value.maxTokens == Min(Max(maxTokensReq, 1), Max(ctxCap - |prompt|, 1))
      ensures bound ==> job.value.prefillStop == ArmedStop(demand, job.value.nPast, |prompt|)
      ensures bound ==> job.value.prefillStop == if demand.Some? && job.value.nPast < demand.value < |prompt| then demand else None
      ensures bound ==> job.value.preGenStop == if kv.recurrent then Some(|prompt| - 1) else None
    {
      hide Lcp, Shared, AllHead, PrunedTo, Reaches, Sized, Ascending, Holds, ChainAgrees, CellsServe, AnchorServes, NothingNear, HostBrings;
      kv.BeginBind();
      if prompt == [] || |prompt| >= ctxCap { return false; }
      LcpIsCommon(cache, prompt);
      var reuseLen := ReuseAndSettle(prompt, store, diskFind);
      if old(Remembers()) {
        PrunedAnchorsHeadThePrompt(old(chain), chain, old(cache), prompt, Lcp(old(cache), prompt), reuseLen);
      }
      var stop := if reuseLen + 1 < |prompt| then demand else None;
      job := Some(BoundJob(prompt, reuseLen, reuseLen, ctxCap,
        Min(Max(maxTokensReq, 1), Max(ctxCap - |prompt|, 1)),
        ArmedStop(stop, reuseLen, |prompt|),
        if kv.recurrent && |prompt| > reuseLen then Some(|prompt| - 1) else None));
      return true;
    }
  }

  // ---------------------------------------------------------------- an anchor of another session

  /** A slot that served the one token 7 and kept its snapshot binds an unrelated prompt: nothing is
    * reused, and still the snapshot stays, since pruning goes by length alone. */
  method ForeignAnchorSurvives() returns (left: Chain)
    ensures exists a :: a in left && a.nTokens == 1 && !(a.data.cells <= [5, 6, 8])
  {
    var kv := new SeqKv(Model(h => 5, t => false, t => true, g => false), true, 0, true);
    var rows := kv.DecodeAndSample(0, [7]);
    assert kv.cells == [7];
    var dump := kv.StateGet();
    var chain := Push([], 1, dump.value);
    var slot := new Slot(kv, [7], chain);
    var store := new PrefixStore.WithLimits(1000, 10);
    var bound := slot.BindText([5, 6, 8], 1, 100, store, n => None, None);
    left := slot.chain;
    var a := SeqCheckpoint(1, dump.value);
    assert a in left && a.data.cells[0] == 7;
  }
}
