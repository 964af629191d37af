/** Requests end to end: bind on a slot with any leftovers, prefill with snapshots, decode to the end. */
module Serving {
  import opened Common
  import opened SeqKvs
  import opened PrefixStores
  import opened AnchorChains
  import opened BindPath
  import P = BatchPlanner
  import R = PlanRuns
  import L = SchedulerLoop
  import S = Speculation

  /** A request, with what the disk tier would answer and the reuse boundary observed for it. */
  datatype Request = Request(prompt: seq<Token>, maxTokens: nat, ctxCap: nat, diskFind: nat -> Option<SeqCheckpoint>, demand: Option<nat>)

  ghost predicate DiskRight(r: Request) {
    forall n :: DiskAnswer(r.diskFind(n), r.prompt, n)
  }

  /** What a request must yield, whatever the slot remembers and the store holds: the tokens and the
    * reason of a plain decoder that prefills the whole prompt. */
  ghost predicate OutcomeRight(m: Model, r: Request, o: Option<S.Outcome>) {
    if r.prompt == [] || |r.prompt| >= r.ctxCap then o.None?
    else o == Some(S.Plain(m, r.prompt, [], Min(Max(r.maxTokens, 1), r.ctxCap - |r.prompt|), r.ctxCap))
  }

  ghost predicate HeadAnchor(a: SeqCheckpoint, prompt: seq<Token>) {
    |a.data.cells| == a.nTokens && a.data.cells <= prompt
  }

  /** Nothing joins a chain but anchors of the prompt. */
  ghost predicate OnlyHeadsJoin(was: Chain, now: Chain, prompt: seq<Token>) {
    forall a :: a in now ==> a in was || HeadAnchor(a, prompt)
  }

  /** The newest anchor is all of the prompt. */
  ghost predicate HoldsWhole(c: Chain, prompt: seq<Token>) {
    exists a :: a in c && a.nTokens == |prompt| && a.data.cells == prompt
  }

  /** What a snapshot does to the chain: the anchor it is asked for joins, as a tool head in the place of
    * other tool heads, and nothing goes that the bounds do not demand. */
  ghost predicate ChainTook(was: Chain, now: Chain, c: R.Capture, a: SeqCheckpoint) {
    if !c.chain then now == was
    else
      var left := if c.key.Some? && IsStoreStubLen(c.nTokens) then WithStub(was, c.nTokens) else was;
      && LatestN(now) == Max(LatestN(left), c.nTokens) && (c.nTokens == LatestN(now) || IsStoreStubLen(c.nTokens) ==> a in now)
      && exists full :: Ascending(full) && HasInserted(left, a, full) && NeededOff(full, now, CHAIN_MAX_ANCHORS, CHAIN_MAX_BYTES)
  }

  /** So with a snapshot of the whole prompt the chain holds it, whatever else stayed. */
  lemma TookWhole(was: Chain, now: Chain, c: R.Capture, a: SeqCheckpoint, prompt: seq<Token>)
    requires Ascending(was) && LatestN(was) <= |prompt| && c.nTokens <= |prompt| && ChainTook(was, now, c, a)
    requires a.nTokens == c.nTokens && a.data.cells == prompt[..c.nTokens]
    ensures LatestN(now) <= |prompt|
    ensures c.chain && c.nTokens == |prompt| ==> HoldsWhole(now, prompt)
  {
    StubChain(was, c.nTokens);
    if c.chain && c.nTokens == |prompt| { assert a in now && prompt[..c.nTokens] == prompt; }
  }

  /** What a snapshot does to the store: only a keyed one is put, and it is there if the caps allow. */
  ghost predicate StoreTook(store: PrefixStore, was: map<Key, SeqCheckpoint>, c: R.Capture, a: SeqCheckpoint)
    reads store
  {
    if c.key.None? then store.entries == was
    else c.key.value != [] && store.Fits(was[c.key.value := a]) ==> store.entries == was[c.key.value := a]
  }

  lemma StubChain(c: Chain, n: nat)
    requires Ascending(c)
    ensures Ascending(WithStub(c, n)) && LatestN(WithStub(c, n)) <= LatestN(c) && forall a :: a in WithStub(c, n) ==> a in c
  {
    WithStubAscends(c, n);
    forall a ensures a in WithStub(c, n) ==> a in c { WithStubMembers(c, n, a); }
  }

  /** The dump a capture asks for goes to the chain, to the store, or to both. */
  method TakeCapture(slot: Slot, store: PrefixStore, prompt: seq<Token>, c: R.Capture)
    requires Ascending(slot.chain) && store.Valid() && store.Faithful()
    requires c.nTokens <= |prompt| && slot.kv.cells == prompt[..c.nTokens]
    requires c.key.Some? ==> c.key.value == prompt[..c.nTokens]
    modifies slot`chain, store
    ensures Ascending(slot.chain) && store.Valid() && store.Faithful()
    ensures OnlyHeadsJoin(old(slot.chain), slot.chain, prompt)
    ensures slot.kv.reliable ==> exists a: SeqCheckpoint :: (
      && a.nTokens == c.nTokens && a.data.cells == prompt[..c.nTokens]
      && ChainTook(old(slot.chain), slot.chain, c, a) && StoreTook(store, old(store.entries), c, a))
  {
    hide Ascending, IsStoreStubLen;
    var dump := slot.kv.StateGet();
    if dump.None? || dump.value.size == 0 { return; }
    ghost var a := SeqCheckpoint(c.nTokens, dump.value);
    if c.chain {
      var chain := slot.chain;
      if c.key.Some? && IsStoreStubLen(c.nTokens) {
        StubChain(chain, c.nTokens);
        chain := WithStub(chain, c.nTokens);
      }
      slot.chain := Push(chain, c.nTokens, dump.value);
    }
    if c.key.Some? { store.PutWith(c.key.value, SeqCheckpoint(c.nTokens, dump.value), c.demand); }
    assert ChainTook(old(slot.chain), slot.chain, c, a) && StoreTook(store, old(store.entries), c, a);
  }

  /** The planner's view of a slot that prefills. */
  ghost predicate SameCursor(s: P.Slot, job: S.Job)
    reads job
  {
    s.job.Some? && s.job.value.prompt == job.prompt && s.job.value.nPast == job.nPast
    && (job.finish.None? && job.phase.Prefilling? ==> R.Midway(s))
  }

  /** One chunk of a prefill, up to the next armed stop at most, and the snapshot it calls for. */
  method PrefillOne(slot: Slot, job: S.Job, s: P.Slot, store: PrefixStore, nUbatch: nat, specNMax: nat) returns (s': P.Slot)
    requires job.kv == slot.kv && job.Tracks() && job.finish.None? && job.phase.Prefilling? && SameCursor(s, job)
    requires Ascending(slot.chain) && store.Valid() && store.Faithful()
    modifies slot`chain, slot.kv, job, store
    ensures job.Tracks() && job.DraftsFit() && job.Result() == old(job.Result()) && SameCursor(s', job)
    ensures old(job.nPast) < job.nPast <= |job.prompt|
    ensures job.finish.None? ==> job.phase.Prefilling? == (job.nPast < |job.prompt|)
    ensures job.finish.Some? ==> job.nPast == |job.prompt|
    ensures job.finish.None? && job.phase.Decoding? ==> |job.generated| < job.maxTokens
    ensures Ascending(slot.chain) && store.Valid() && store.Faithful()
    ensures OnlyHeadsJoin(old(slot.chain), slot.chain, job.prompt)
    ensures slot.kv.reliable && LatestN(old(slot.chain)) <= |job.prompt| ==>
      LatestN(slot.chain) <= |job.prompt| && (job.nPast == |job.prompt| ==> HoldsWhole(slot.chain, job.prompt))
  {
    hide S.Plain, S.Greedy, R.CaptureRight, R.Moved, R.Midway, Ascending, ChainTook, StoreTook, HoldsWhole, LatestN;
    ChunkRoom(s, job.nPast);
    var take :| 0 < take <= s.job.value.RemainingToStop();
    var c;
    s', c := R.ApplyChunk(s, take, nUbatch);
    R.StopsAreHit(s, take, nUbatch, c);
    CaptureIsHere(s, take, nUbatch, c);
    var proposal: seq<Token> := *;
    job.PrefillStep(take, proposal, specNMax);
    if c.Some? {
      ghost var was, entries := slot.chain, store.entries;
      TakeCapture(slot, store, job.prompt, c.value);
      if slot.kv.reliable && LatestN(was) <= |job.prompt| {
        ghost var a: SeqCheckpoint :| a.nTokens == c.value.nTokens && a.data.cells == job.prompt[..c.value.nTokens]
          && ChainTook(was, slot.chain, c.value, a) && StoreTook(store, entries, c.value, a);
        TookWhole(was, slot.chain, c.value, a, job.prompt);
      }
    }
  }

  /** The prefill of a bound request. */
  method Prefill(slot: Slot, job: S.Job, s0: P.Slot, store: PrefixStore, nUbatch: nat, specNMax: nat)
    requires job.kv == slot.kv && job.Tracks() && job.DraftsFit() && job.finish.None? && job.phase.Prefilling? && SameCursor(s0, job)
    requires Ascending(slot.chain) && store.Valid() && store.Faithful() && job.nPast < |job.prompt|
    requires LatestN(slot.chain) <= |job.prompt|
    modifies slot`chain, slot.kv, job, store
    ensures job.Tracks() && job.DraftsFit() && job.Result() == old(job.Result()) && job.nPast == |job.prompt|
    ensures job.finish.None? ==> job.phase.Decoding? && |job.generated| < job.maxTokens
    ensures Ascending(slot.chain) && store.Valid() && store.Faithful()
    ensures OnlyHeadsJoin(old(slot.chain), slot.chain, job.prompt)
    ensures slot.kv.reliable ==> HoldsWhole(slot.chain, job.prompt)
  {
    hide *;
    var s := s0;
    ChainKeeps(slot.chain, job.prompt);
    while job.finish.None? && job.phase.Prefilling?
      invariant job.Tracks() && job.DraftsFit() && job.Result() == old(job.Result()) && SameCursor(s, job)
      invariant job.nPast <= |job.prompt|
      invariant job.finish.None? ==> job.phase.Prefilling? == (job.nPast < |job.prompt|)
      invariant job.finish.Some? ==> job.nPast == |job.prompt|
      invariant job.finish.None? && job.phase.Decoding? ==> |job.generated| < job.maxTokens
      invariant Ascending(slot.chain) && store.Valid() && store.Faithful()
      invariant OnlyHeadsJoin(old(slot.chain), slot.chain, job.prompt)
      invariant slot.kv.reliable ==> LatestN(slot.chain) <= |job.prompt|
      invariant slot.kv.reliable && job.nPast == |job.prompt| ==> HoldsWhole(slot.chain, job.prompt)
      decreases |job.prompt| - job.nPast
    {
      ghost var chain := slot.chain;
      s := PrefillOne(slot, job, s, store, nUbatch, specNMax);
      HeadsJoinAgain(old(slot.chain), chain, slot.chain, job.prompt);
    }
  }

  lemma ChainKeeps(c: Chain, prompt: seq<Token>)
    ensures OnlyHeadsJoin(c, c, prompt)
  {
  }

  lemma HeadsJoinAgain(a: Chain, b: Chain, c: Chain, prompt: seq<Token>)
    requires OnlyHeadsJoin(a, b, prompt) && OnlyHeadsJoin(b, c, prompt)
    ensures OnlyHeadsJoin(a, c, prompt)
  {
  }

  lemma ChunkRoom(s: P.Slot, nPast: nat)
    requires R.Midway(s) && s.job.value.nPast == nPast
    ensures 0 < s.job.value.RemainingToStop() <= |s.job.value.prompt| - nPast
  {
  }

  lemma CaptureIsHere(s: P.Slot, take: nat, nUbatch: nat, c: Option<R.Capture>)
    requires R.Midway(s) && 0 < take <= s.job.value.RemainingToStop() && R.CaptureRight(s.job.value, take, nUbatch, c)
    ensures c.Some? ==> c.value.nTokens == s.job.value.nPast + take
    ensures c.Some? && c.value.key.Some? ==> c.value.key.value == s.job.value.prompt[..c.value.nTokens]
    ensures s.job.value.nPast + take == |s.job.value.prompt| ==> c.Some? && c.value.chain
    ensures var s' := R.Moved(s, take);
      && s'.job.Some? && s'.job.value.prompt == s.job.value.prompt && s'.job.value.nPast == s.job.value.nPast + take
      && (s'.job.value.nPast < |s'.job.value.prompt| ==> s'.phase.Prefilling?)
  {
  }

  /** The anchors a bind that reuses `kept` tokens leaves are all shared with the prompt. */
  ghost predicate KeptShared(c: Chain, session: seq<Token>, prompt: seq<Token>, kept: nat) {
    forall a :: a in c && a.nTokens <= kept + 1 ==> |a.data.cells| == a.nTokens && Shared(a, session, prompt, Lcp(session, prompt))
  }

  /** Prefix reuse, restores, snapshots and speculation are invisible in the outcome. And the slot is
    * ready for the next request exactly when its chain holds heads of this prompt only, which it
    * does if every anchor the bind left was shared. */
  method ServeRequest(slot: Slot, r: Request, store: PrefixStore, nUbatch: nat, specNMax: nat)
    returns (outcome: Option<S.Outcome>, ghost kept: nat)
    requires slot.kv.reliable && slot.Remembers() && store.Valid() && store.Faithful() && DiskRight(r)
    modifies slot, slot.kv, store
    ensures OutcomeRight(slot.kv.model, r, outcome)
    ensures outcome.Some? ==> Agree(slot.kv.cells, slot.cache) && r.prompt <= slot.cache <= r.prompt + outcome.value.tokens
    ensures if outcome.None? then slot.Remembers() else slot.Remembers() <==> AllHead(slot.chain, r.prompt)
    ensures KeptShared(old(slot.chain), old(slot.cache), r.prompt, kept) ==> slot.Remembers()
    ensures outcome.Some? ==> HoldsWhole(slot.chain, r.prompt)
    ensures store.Valid() && store.Faithful()
  {
    hide *;
    kept := 0;
    slot.MemoryIs();
    MemorySized(slot);
    DiskIs(r);
    RejectedIsRight(slot.kv.model, r);
    ghost var chain0, cache0 := slot.chain, slot.cache;
    var bound := slot.BindText(r.prompt, r.maxTokens, r.ctxCap, store, r.diskFind, r.demand);
    if !bound {
      slot.MemoryIs();
      return None, 0;
    }
    var b := slot.job.value;
    kept := b.nPast;
    ghost var chain := slot.chain;
    HoldsHead(slot, r.prompt, kept);
    KeptFit(chain0, chain, cache0, r.prompt, kept);
    var o := ServeBound(slot, r, b, store, nUbatch, specNMax);
    StillAgrees(chain, slot.chain, slot.cache, r.prompt);
    slot.MemoryIs();
    return Some(o), kept;
  }

  lemma DiskIs(r: Request)
    requires DiskRight(r)
    ensures forall n :: DiskAnswer(r.diskFind(n), r.prompt, n)
  {
  }

  lemma RejectedIsRight(m: Model, r: Request)
    ensures !(0 < |r.prompt| < r.ctxCap) ==> OutcomeRight(m, r, None)
  {
  }

  lemma HoldsHead(slot: Slot, prompt: seq<Token>, k: nat)
    requires slot.Holds(prompt, k)
    ensures k < |prompt|
  {
  }

  lemma FreshIsMidway(s: P.Slot)
    requires s.phase.Prefilling? && s.job.Some? && s.job.value.promptPos == 0 && !s.job.value.generating
    requires s.job.value.nPast == s.job.value.promptOffset < |s.job.value.prompt| && R.Armed(s.job.value)
    ensures R.Midway(s)
  {
  }

  /** A bound request from its prefill to its end. */
  method ServeBound(slot: Slot, r: Request, b: BoundJob, store: PrefixStore, nUbatch: nat, specNMax: nat) returns (o: S.Outcome)
    requires slot.kv.reliable && slot.Holds(r.prompt, b.nPast) && 0 < |r.prompt| < r.ctxCap && b.promptOffset == b.nPast
    requires b.prefillStop == ArmedStop(r.demand, b.nPast, |r.prompt|)
    requires b.preGenStop == if slot.kv.recurrent then Some(|r.prompt| - 1) else None
    requires store.Valid() && store.Faithful()
    modifies slot, slot.kv, store
    ensures OutcomeRight(slot.kv.model, r, Some(o))
    ensures Agree(slot.kv.cells, slot.cache) && r.prompt <= slot.cache <= r.prompt + o.tokens
    ensures Ascending(slot.chain) && OnlyHeadsJoin(old(slot.chain), slot.chain, r.prompt)
    ensures HoldsWhole(slot.chain, r.prompt)
    ensures store.Valid() && store.Faithful()
  {
    hide *;
    BoundIsAscending(slot, r.prompt, b.nPast);
    var job, s := StartJob(slot, r, b);
    Prefill(slot, job, s, store, nUbatch, specNMax);
    job.Generate(specNMax);
    var tokens := job.FinishSlot(job.finish.value);
    WholePrompt(r.prompt, job.generated, job.nPast, tokens);
    slot.cache, slot.prefixLen, slot.job := tokens, |tokens|, None;
    o := S.Outcome(job.generated, job.finish.value);
    PlainIsRight(slot.kv.model, r);
  }

  /** The job of a bound request, and the planner's view of it. */
  method StartJob(slot: Slot, r: Request, b: BoundJob) returns (job: S.Job, s: P.Slot)
    requires slot.kv.reliable && slot.Holds(r.prompt, b.nPast) && 0 < |r.prompt| < r.ctxCap && b.promptOffset == b.nPast
    requires b.prefillStop == ArmedStop(r.demand, b.nPast, |r.prompt|)
    requires b.preGenStop == if slot.kv.recurrent then Some(|r.prompt| - 1) else None
    ensures fresh(job) && job.kv == slot.kv && job.prompt == r.prompt && job.generated == [] && job.nPast < |r.prompt|
    ensures job.Tracks() && job.DraftsFit() && job.finish.None? && job.phase.Prefilling? && SameCursor(s, job)
    ensures job.Result() == S.Plain(slot.kv.model, r.prompt, [], Min(Max(r.maxTokens, 1), r.ctxCap - |r.prompt|), r.ctxCap)
  {
    hide S.Plain, S.Greedy;
    job := new S.Job(slot.kv, r.prompt, b.promptOffset, r.maxTokens, r.ctxCap);
    L.BindArmsStops(r.prompt, b.nPast, r.demand, slot.kv.recurrent);
    s := P.Slot(P.Prefilling, Some(P.PlanJob(r.prompt, b.promptOffset, 0, b.nPast, None, [], b.prefillStop, b.preGenStop, false)));
    FreshIsMidway(s);
  }

  lemma PlainIsRight(m: Model, r: Request)
    requires 0 < |r.prompt| < r.ctxCap
    ensures OutcomeRight(m, r, Some(S.Plain(m, r.prompt, [], Min(Max(r.maxTokens, 1), r.ctxCap - |r.prompt|), r.ctxCap)))
  {
    hide S.Plain;
  }

  lemma WholePrompt(prompt: seq<Token>, generated: seq<Token>, nPast: nat, tokens: seq<Token>)
    requires tokens <= prompt + generated && |tokens| == Min(nPast, |prompt + generated|) && nPast >= |prompt|
    ensures prompt <= tokens
  {
  }

  lemma BoundIsAscending(slot: Slot, prompt: seq<Token>, k: nat)
    requires slot.Holds(prompt, k)
    ensures Ascending(slot.chain) && LatestN(slot.chain) <= |prompt|
  {
  }

  /** What a bind left of a chain is no longer than the prompt, and shared if that was. */
  lemma KeptFit(c: Chain, left: Chain, session: seq<Token>, prompt: seq<Token>, kept: nat)
    requires ChainAgrees(c, session) && PrunedTo(c, left, kept) && kept < |prompt|
    requires AllHead(left, prompt) <==> forall a :: a in left ==> Shared(a, session, prompt, Lcp(session, prompt))
    ensures forall a :: a in left ==> |a.data.cells| == a.nTokens <= |prompt|
    ensures KeptShared(c, session, prompt, kept) ==> AllHead(left, prompt)
  {
  }

  /** A chain of anchors within the prompt goes along with a session that extends the prompt exactly
    * when they are heads of the prompt. */
  lemma StillAgrees(was: Chain, now: Chain, session: seq<Token>, prompt: seq<Token>)
    requires prompt <= session && OnlyHeadsJoin(was, now, prompt)
    requires forall a :: a in was ==> |a.data.cells| == a.nTokens <= |prompt|
    ensures ChainAgrees(now, session) <==> AllHead(now, prompt)
    ensures AllHead(was, prompt) ==> AllHead(now, prompt)
  {
    forall a | a in now ensures AnchorAgrees(a, session) <==> a.data.cells <= prompt {
      assert a in was || HeadAnchor(a, prompt);
      assert prompt == session[..|prompt|];
    }
  }

  /** A session of requests on one slot, up to the first bind that leaves a foreign anchor
    * (`foreign`): every outcome is the plain decoder's, and a session that never meets such an
    * anchor is served to its end. */
  method ServeSession(slot: Slot, requests: seq<Request>, store: PrefixStore, nUbatch: nat, specNMax: nat)
    returns (outcomes: seq<Option<S.Outcome>>, ghost foreign: bool)
    requires slot.kv.reliable && slot.Remembers() && store.Valid() && store.Faithful()
    requires forall k :: 0 <= k < |requests| ==> DiskRight(requests[k])
    modifies slot, slot.kv, store
    ensures |outcomes| == |requests| || (|outcomes| < |requests| && !slot.Remembers())
    ensures forall k :: 0 <= k < |outcomes| ==> OutcomeRight(slot.kv.model, requests[k], outcomes[k])
    ensures !foreign ==> |outcomes| == |requests| && slot.Remembers()
  {
    hide OutcomeRight, DiskRight, KeptShared, Lcp;
    outcomes, foreign := [], false;
    while |outcomes| < |requests| && slot.Remembers()
      invariant |outcomes| <= |requests| && store.Valid() && store.Faithful()
      invariant forall k :: 0 <= k < |outcomes| ==> OutcomeRight(slot.kv.model, requests[k], outcomes[k])
      invariant !foreign ==> slot.Remembers()
      decreases |requests| - |outcomes|
    {
      var r := requests[|outcomes|];
      ghost var chain, session := slot.chain, slot.cache;
      var o, kept := ServeRequest(slot, r, store, nUbatch, specNMax);
      foreign := foreign || !KeptShared(chain, session, r.prompt, kept);
      outcomes := outcomes + [o];
    }
  }

  // ---------------------------------------------------------------- where a foreign anchor leads

  /** A target that picks 5 and ends there. */
  const ENDS := Model(h => 5, t => true, t => true, g => false)

  /** A recurrent slot that served the token 7 and kept its snapshot. */
  method ServedSeven() returns (slot: Slot, a: SeqCheckpoint)
    ensures fresh(slot) && fresh(slot.kv) && slot.kv.recurrent && slot.kv.reliable && slot.kv.nRsSeq == 0 && slot.kv.model == ENDS
    ensures slot.Remembers() && a.nTokens == 1 && a.data.cells == [7] && forall x :: x in slot.chain <==> x == a
  {
    var kv := new SeqKv(ENDS, true, 0, true);
    var rows := kv.DecodeAndSample(0, [7]);
    assert kv.cells == [7];
    var dump := kv.StateGet();
    var chain := Push([], 1, dump.value);
    slot := new Slot(kv, [7], chain);
    a := SeqCheckpoint(1, dump.value);
  }

  /** It binds an unrelated prompt, which is cancelled once two of its tokens are resident. */
  method CancelUnrelated(slot: Slot, store: PrefixStore, a: SeqCheckpoint)
    requires slot.kv.recurrent && slot.kv.reliable && slot.Remembers() && store.Valid() && store.Faithful()
    requires a.nTokens == 1 && forall x :: x in slot.chain <==> x == a
    modifies slot, slot.kv, store
    ensures store.Valid() && store.Faithful() && Ascending(slot.chain) && forall x :: x in slot.chain <==> x == a
    ensures 2 <= |slot.cache| <= |slot.kv.cells| && slot.cache <= [5, 6, 8, 9]
  {
    hide *;
    MemorySized(slot);
    ghost var chain := slot.chain;
    var prompt: seq<Token> := [5, 6, 8, 9];
    NothingOnDisk(prompt);
    var bound := slot.BindText(prompt, 1, 100, store, n => None, None);
    HoldsCells(slot, prompt, slot.job.value.nPast);
    StaysAlone(chain, slot.chain, slot.job.value.nPast, a);
    var tokens := CancelAtTwo(slot.kv, prompt, slot.job.value.nPast);
    slot.cache, slot.prefixLen, slot.job := tokens, |tokens|, None;
  }

  lemma NothingOnDisk(prompt: seq<Token>)
    ensures forall n :: DiskAnswer(None, prompt, n)
  {
  }

  lemma HoldsCells(slot: Slot, prompt: seq<Token>, k: nat)
    requires slot.Holds(prompt, k)
    ensures k < |prompt| && slot.kv.cells == prompt[..k] && slot.kv.orphans == 0
  {
  }

  lemma StaysAlone(was: Chain, now: Chain, k: nat, a: SeqCheckpoint)
    requires PrunedTo(was, now, k) && a.nTokens == 1 && forall x :: x in was <==> x == a
    ensures forall x :: x in now <==> x == a
  {
  }

  method CancelAtTwo(kv: SeqKv, prompt: seq<Token>, k: nat) returns (tokens: seq<Token>)
    requires kv.reliable && kv.orphans == 0 && |prompt| == 4 && k < 4 && kv.cells == prompt[..k]
    modifies kv
    ensures 2 <= |tokens| <= |kv.cells| && tokens <= prompt
  {
    hide S.Plain, S.Greedy;
    var job := new S.Job(kv, prompt, k, 1, 100);
    if k < 2 { job.PrefillChunk(2 - k); }
    tokens := job.FinishSlot(S.Cancelled);
    assert tokens <= prompt + job.generated && |tokens| <= |prompt|;
  }

  lemma MemorySized(slot: Slot)
    requires slot.Remembers()
    ensures Ascending(slot.chain) && Sized(slot.chain)
  {
    slot.MemoryIs();
  }

  lemma SharesOne(session: seq<Token>)
    requires 2 <= |session| && session <= [5, 6, 8, 9]
    ensures Lcp(session, [5, 9, 9]) == 1
  {
    assert session[0] == 5 && session[1] == 6 && session[..1] == [5] == [5, 9, 9][..1];
    LcpIs(session, [5, 9, 9], 1);
  }

  /** The next prompt shares one token with what the slot then remembers. The recurrent cells cannot be
    * cut to it, so the bind falls back to the snapshot: the cells of 7 stand for the head of a prompt
    * that starts with 5. */
  method WrongBind() returns (resident: seq<Token>, prompt: seq<Token>, nPast: nat)
    ensures nPast == 1 && resident == [7] && |prompt| == 3 && prompt[..nPast] == [5]
  {
    var store := new PrefixStore.WithLimits(1000, 10);
    var slot, a := ServedSeven();
    CancelUnrelated(slot, store, a);
    prompt := [5, 9, 9];
    SevenServes(slot, a, prompt);
    hide *;
    var bound := slot.BindText(prompt, 1, 100, store, n => None, None);
    resident, nPast := slot.kv.cells, slot.job.value.nPast;
    OneCell(a.data.cells, resident, nPast);
  }

  /** The cells cannot be cut to the one shared token, and the snapshot of one token is in reach. */
  lemma SevenServes(slot: Slot, a: SeqCheckpoint, prompt: seq<Token>)
    requires slot.kv.recurrent && slot.kv.reliable && slot.kv.nRsSeq == 0 && Ascending(slot.chain)
    requires a.nTokens == 1 && |a.data.cells| == 1 && (forall x :: x in slot.chain <==> x == a)
    requires 2 <= |slot.cache| <= |slot.kv.cells| && slot.cache <= [5, 6, 8, 9] && prompt == [5, 9, 9]
    ensures slot.Reuse(prompt) == 1 && slot.AnchorServes(1, a) && Sized(slot.chain)
    ensures forall n :: DiskAnswer(None, prompt, n)
  {
    SharesOne(slot.cache);
    hide Lcp, Ascending;
  }

  lemma OneCell(cells: seq<Token>, resident: seq<Token>, nPast: nat)
    requires nPast == Min(1, 1) && cells == [7] && resident == cells[..nPast]
    ensures nPast == 1 && resident == [7]
  {
  }
}
