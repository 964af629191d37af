/** `apply_plan`: moving the slots past a decoded batch, and the snapshots that asks for. */
module PlanRuns {
  import opened Common
  import opened BatchPlanner
  import PrefixStores

  const STORE_STUB_STRIDE: nat := 2_048

  /** A snapshot of a slot's state at `nTokens`: for the chain, under a store key, on disk. */
  datatype Capture = Capture(nTokens: nat, chain: bool, key: Option<seq<Token>>, disk: Option<seq<Token>>, demand: bool)

  function SnapshotKey(prompt: seq<Token>, n: nat): Option<seq<Token>> {
    if n == 0 || n > |prompt| then None else Some(prompt[..n])
  }

  predicate IsHostStubBoundary(n: nat, nUbatch: nat) {
    n > 0 && PrefixStores.IsStoreStubLen(n) && n % (Max(nUbatch, 1) as nat) == 0 && n % STORE_STUB_STRIDE == 0
  }

  predicate IsLastHostStub(n: nat) {
    PrefixStores.IsStoreStubLen(n) && n + STORE_STUB_STRIDE > PrefixStores.STORE_STUB_MAX
  }

  /** The boundaries are the multiples of the stride within the stub window that end a micro-batch. */
  lemma HostStubBoundaries(n: nat, nUbatch: nat)
    ensures IsHostStubBoundary(n, nUbatch) <==> n in {6_144, 8_192, 10_240, 12_288, 14_336, 16_384} && n % Max(nUbatch, 1) == 0
    ensures IsHostStubBoundary(n, nUbatch) ==> (IsLastHostStub(n) <==> n == 16_384)
  {
    var q := n / STORE_STUB_STRIDE;
    if n % STORE_STUB_STRIDE == 0 { assert n == STORE_STUB_STRIDE * q; }
  }

  /** A stop is cleared once the position has reached it. */
  function Cleared(stop: Option<nat>, n: nat): Option<nat> {
    if stop.Some? && n >= stop.value then None else stop
  }

  /** The demand stop lies inside the prompt, the pre-generation stop before its last token. */
  predicate Armed(j: PlanJob) {
    && (j.prefillStop.Some? ==> j.nPast < j.prefillStop.value < |j.prompt|)
    && (j.preGenStop.Some? ==> j.nPast <= j.preGenStop.value == |j.prompt| - 1)
  }

  /** Prefilling, with prompt left, and the position is the cursor. */
  ghost predicate Midway(s: Slot) {
    PrefillReady(s) && s.job.value.nPast == s.job.value.Cursor() && !s.job.value.generating && Armed(s.job.value)
  }

  /** A slot after `take` more prompt tokens. */
  function Moved(s: Slot, take: nat): Slot
    requires s.job.Some?
  {
    var j := s.job.value;
    var j' := j.(promptPos := j.promptPos + take, nPast := j.nPast + take,
                 prefillStop := Cleared(j.prefillStop, j.nPast + take), preGenStop := Cleared(j.preGenStop, j.nPast + take));
    if j'.Remaining() == 0 then Slot(Decoding, Some(j'.(generating := true))) else Slot(s.phase, Some(j'))
  }

  /** A slot after its share of a batch was decoded. */
  function After(s: Slot, take: nat, toks: seq<BatchToken>): Slot {
    if s.job.None? then s
    else if take > 0 then Moved(s, take)
    else if toks != [] then s.(job := Some(s.job.value.(nPast := toks[|toks| - 1].pos + 1)))
    else s
  }

  predicate StopAt(stop: Option<nat>, n: nat) { stop.Some? && n >= stop.value }

  /** What a chunk that ends at `n` is snapshotted for. */
  ghost predicate CaptureRight(j: PlanJob, take: nat, nUbatch: nat, c: Option<Capture>) {
    var n := j.nPast + take;
    && (c.Some? <==> j.Remaining() == take || IsHostStubBoundary(n, nUbatch) || StopAt(j.prefillStop, n) || StopAt(j.preGenStop, n))
    && (c.Some? ==> c.value.nTokens == n && (c.value.chain || c.value.key.Some?))
    && (c.Some? && c.value.key.Some? ==> n <= |j.prompt| && c.value.key.value == j.prompt[..n])
    && (c.Some? && c.value.disk.Some? ==> n <= |j.prompt| && c.value.disk.value == j.prompt[..n])
    && (c.Some? ==> (c.value.key.Some? <==> IsHostStubBoundary(n, nUbatch) || StopAt(j.prefillStop, n)))
    && (c.Some? ==> (c.value.disk.Some? <==> c.value.key.Some? || j.Remaining() == take))
    && (c.Some? ==> (c.value.demand <==> StopAt(j.prefillStop, n)))
    && (c.Some? ==> (c.value.chain <==>
          || j.Remaining() == take
          || (!IsHostStubBoundary(n, nUbatch) && !StopAt(j.prefillStop, n))
          || (IsLastHostStub(n) && !StopAt(j.prefillStop, n))))
  }

  /** A chunk never steps over an armed stop, and the snapshot is taken at the stop itself. */
  lemma StopsAreHit(s: Slot, take: nat, nUbatch: nat, c: Option<Capture>)
    requires Midway(s) && 0 < take <= s.job.value.RemainingToStop() && CaptureRight(s.job.value, take, nUbatch, c)
    ensures forall b :: s.job.value.prefillStop == Some(b) ==> StopHit(s, take, c, b)
    ensures forall b :: s.job.value.prefillStop == Some(b) && s.job.value.nPast + take == b ==>
      c.Some? && c.value.demand && c.value.key == Some(s.job.value.prompt[..b])
    ensures forall b :: s.job.value.preGenStop == Some(b) && b > s.job.value.nPast ==> StopHit(s, take, c, b)
    ensures Moved(s, take).phase.Prefilling? ==> Midway(Moved(s, take))
    ensures Moved(s, take).phase.Decoding? ==> Moved(s, take).job.value.prefillStop == Moved(s, take).job.value.preGenStop == None
  {
  }

  /** The chunk ends at or before `b`; ending there clears the stop and snapshots length `b`. */
  ghost predicate StopHit(s: Slot, take: nat, c: Option<Capture>, b: nat)
    requires s.job.Some?
  {
    var n := s.job.value.nPast + take;
    && n <= b
    && (Cleared(Some(b), n) == None <==> n == b)
    && (n == b ==> c.Some? && c.value.nTokens == b)
  }

  /** The prefill part of `apply_plan` for one slot. */
  method ApplyChunk(s: Slot, take: nat, nUbatch: nat) returns (s': Slot, c: Option<Capture>)
    requires Midway(s) && 0 < take <= s.job.value.RemainingToStop()
    ensures s' == Moved(s, take) && CaptureRight(s.job.value, take, nUbatch, c)
  {
    var needChain, promoteKey: Option<seq<Token>>, demandBoundary, preGenCapture := false, None, false, false;
    var job := s.job.value;
    job := job.(promptPos := job.promptPos + take, nPast := job.nPast + take);
    var n := job.nPast;
    var strideStub := IsHostStubBoundary(n, nUbatch);
    if job.prefillStop.Some? && n >= job.prefillStop.value {
      job := job.(prefillStop := None);
      demandBoundary := true;
    }
    var preGenStub := job.preGenStop.Some? && n >= job.preGenStop.value;
    if preGenStub { job := job.(preGenStop := None); }
    var storeStub := strideStub || demandBoundary;
    var phase := s.phase;
    if job.Remaining() == 0 {
      phase := Decoding;
      if !job.generating {
        job := job.(generating := true);
        needChain := true;
      }
      if storeStub { promoteKey := SnapshotKey(job.prompt, n); }
    } else if storeStub {
      needChain := IsLastHostStub(n) && !demandBoundary;
      promoteKey := SnapshotKey(job.prompt, n);
    } else if preGenStub {
      needChain := true;
      preGenCapture := true;
    }
    s' := Slot(phase, Some(job));
    c := None;
    if needChain || promoteKey.Some? {
      var disk := if promoteKey.Some? then promoteKey
        else if needChain && !preGenCapture then SnapshotKey(job.prompt, n) else None;
      c := Some(Capture(n, needChain, promoteKey, disk, demandBoundary));
    }
  }

  lemma {:induction false} TakenIs(consumed: seq<(nat, nat)>, q: nat)
    requires q < |consumed| && forall a, b :: 0 <= a < b < |consumed| ==> consumed[a].0 != consumed[b].0
    ensures Taken(consumed, consumed[q].0) == consumed[q].1 && Taken(consumed[..q], consumed[q].0) == 0
    decreases |consumed|
  {
    var n := |consumed| - 1;
    if q < n {
      TakenIs(consumed[..n], q);
      assert consumed[..n][..q] == consumed[..q];
    } else {
      TakenNone(consumed[..n], consumed[n].0);
    }
  }

  lemma {:induction false} TakenNone(consumed: seq<(nat, nat)>, id: nat)
    requires forall i :: 0 <= i < |consumed| ==> consumed[i].0 != id
    ensures Taken(consumed, id) == 0
  {
    if consumed != [] { TakenNone(consumed[..|consumed| - 1], id); }
  }

  lemma TakenNext(consumed: seq<(nat, nat)>, q: nat, id: nat)
    requires q < |consumed|
    ensures Taken(consumed[..q + 1], id) == Taken(consumed[..q], id) + if consumed[q].0 == id then consumed[q].1 else 0
  {
    TakenSnoc(consumed[..q], consumed[q], id);
    assert consumed[..q + 1] == consumed[..q] + [consumed[q]];
  }

  lemma OfNext(tokens: seq<BatchToken>, q: nat, id: nat)
    requires q < |tokens|
    ensures Of(tokens[..q + 1], id) == Of(tokens[..q], id) + if tokens[q].seqId == id then [tokens[q]] else []
  {
    assert tokens[..q + 1][..q] == tokens[..q];
  }

  function Lookup(captures: map<nat, Capture>, id: nat): Option<Capture> {
    if id in captures then Some(captures[id]) else None
  }

  ghost predicate AllMidway(slots: seq<Slot>) {
    forall i :: 0 <= i < |slots| && PrefillReady(slots[i]) ==> Midway(slots[i])
  }

  /** What a valid consumed list asks of the slots. */
  ghost predicate Consumable(slots: seq<Slot>, consumed: seq<(nat, nat)>) {
    && (forall i :: 0 <= i < |consumed| ==> consumed[i].0 < |slots| && consumed[i].1 > 0)
    && (forall i, j :: 0 <= i < j < |consumed| ==> consumed[i].0 != consumed[j].0)
    && (forall i :: 0 <= i < |consumed| ==>
          Midway(slots[consumed[i].0]) && consumed[i].1 <= slots[consumed[i].0].job.value.RemainingToStop())
  }

  lemma PlanConsumable(slots: seq<Slot>, tokens: seq<BatchToken>, consumed: seq<(nat, nat)>, full: bool)
    requires PlanOwes(slots, tokens, consumed, full) && AllMidway(slots)
    ensures Consumable(slots, consumed) && WithinSlots(|slots|, tokens)
  {
    forall i | 0 <= i < |consumed|
      ensures Midway(slots[consumed[i].0]) && consumed[i].1 <= slots[consumed[i].0].job.value.RemainingToStop()
    {
      TakenIs(consumed, i);
      assert PlannedFor(slots[consumed[i].0], consumed[i].0, tokens, consumed, full);
    }
  }

  /** Slots and snapshots after the chunks in `consumed`. */
  ghost predicate ChunksApplied(was: seq<Slot>, now: seq<Slot>, consumed: seq<(nat, nat)>, captures: map<nat, Capture>, nUbatch: nat) {
    && |now| == |was|
    && (forall id :: 0 <= id < |was| ==> now[id] == After(was[id], Taken(consumed, id), []))
    && Captured(was, consumed, captures, nUbatch)
  }

  /** Every chunk asked for the right snapshot, and nothing else asked for one. */
  ghost predicate Captured(was: seq<Slot>, consumed: seq<(nat, nat)>, captures: map<nat, Capture>, nUbatch: nat) {
    && (forall id :: 0 <= id < |was| ==> CapturedAt(was[id], Taken(consumed, id), nUbatch, Lookup(captures, id)))
    && (forall id :: id in captures ==> id < |was| && Taken(consumed, id) > 0)
  }

  ghost predicate CapturedAt(s: Slot, take: nat, nUbatch: nat, c: Option<Capture>) {
    take > 0 && s.job.Some? ==> CaptureRight(s.job.value, take, nUbatch, c)
  }

  method ApplyChunks(slots: array<Slot>, consumed: seq<(nat, nat)>, nUbatch: nat) returns (captures: map<nat, Capture>)
    requires Consumable(slots[..], consumed)
    modifies slots
    ensures ChunksApplied(old(slots[..]), slots[..], consumed, captures, nUbatch)
  {
    hide Midway, Moved, CaptureRight, Taken;
    captures := map[];
    ghost var was := slots[..];
    ChunksNone(was, nUbatch);
    assert consumed[..0] == [];
    for q := 0 to |consumed|
      invariant ChunksApplied(was, slots[..], consumed[..q], captures, nUbatch)
    {
      var id, take := consumed[q].0, consumed[q].1;
      TakenIs(consumed, q);
      assert slots[..][id] == was[id];
      var s, c := ApplyChunk(slots[id], take, nUbatch);
      ghost var now, captures0 := slots[..], captures;
      slots[id] := s;
      if c.Some? { captures := captures[id := c.value]; }
      assert slots[..] == now[id := s];
      ChunksStep(was, now, consumed, q, captures0, captures, nUbatch, c);
    }
    assert consumed[..|consumed|] == consumed;
  }

  lemma ChunksNone(was: seq<Slot>, nUbatch: nat)
    ensures ChunksApplied(was, was, [], map[], nUbatch)
  {
  }

  lemma ChunksStep(was: seq<Slot>, now: seq<Slot>, consumed: seq<(nat, nat)>, q: nat,
                   captures: map<nat, Capture>, captures': map<nat, Capture>, nUbatch: nat, c: Option<Capture>)
    requires q < |consumed| && Consumable(was, consumed) && ChunksApplied(was, now, consumed[..q], captures, nUbatch)
    requires CaptureRight(was[consumed[q].0].job.value, consumed[q].1, nUbatch, c)
    requires captures' == if c.Some? then captures[consumed[q].0 := c.value] else captures
    ensures ChunksApplied(was, now[consumed[q].0 := Moved(was[consumed[q].0], consumed[q].1)], consumed[..q + 1], captures', nUbatch)
  {
    var id0, take := consumed[q].0, consumed[q].1;
    TakenIs(consumed, q);
    MovedStep(was, now, consumed, q);
    CapturedStep(was, consumed, q, captures, captures', nUbatch, c);
  }

  lemma MovedStep(was: seq<Slot>, now: seq<Slot>, consumed: seq<(nat, nat)>, q: nat)
    requires q < |consumed| && consumed[q].0 < |was| == |now| && consumed[q].1 > 0 && was[consumed[q].0].job.Some?
    requires Taken(consumed[..q], consumed[q].0) == 0
    requires forall id :: 0 <= id < |was| ==> now[id] == After(was[id], Taken(consumed[..q], id), [])
    ensures forall id :: 0 <= id < |was| ==>
      now[consumed[q].0 := Moved(was[consumed[q].0], consumed[q].1)][id] == After(was[id], Taken(consumed[..q + 1], id), [])
  {
    hide Moved, Taken;
    var now' := now[consumed[q].0 := Moved(was[consumed[q].0], consumed[q].1)];
    forall id | 0 <= id < |was| ensures now'[id] == After(was[id], Taken(consumed[..q + 1], id), []) {
      TakenNext(consumed, q, id);
    }
  }

  lemma CapturedStep(was: seq<Slot>, consumed: seq<(nat, nat)>, q: nat,
                     captures: map<nat, Capture>, captures': map<nat, Capture>, nUbatch: nat, c: Option<Capture>)
    requires q < |consumed| && consumed[q].0 < |was| && consumed[q].1 > 0 && was[consumed[q].0].job.Some?
    requires Taken(consumed[..q], consumed[q].0) == 0 && Captured(was, consumed[..q], captures, nUbatch)
    requires CaptureRight(was[consumed[q].0].job.value, consumed[q].1, nUbatch, c)
    requires captures' == if c.Some? then captures[consumed[q].0 := c.value] else captures
    ensures Captured(was, consumed[..q + 1], captures', nUbatch)
  {
    hide CaptureRight, Taken;
    forall id | 0 <= id < |was|
      ensures CapturedAt(was[id], Taken(consumed[..q + 1], id), nUbatch, Lookup(captures', id))
    {
      TakenNext(consumed, q, id);
      assert CapturedAt(was[id], Taken(consumed[..q], id), nUbatch, Lookup(captures, id));
    }
    forall id | id in captures' ensures id < |was| && Taken(consumed[..q + 1], id) > 0 {
      TakenNext(consumed, q, id);
    }
  }

  predicate ConsumesFor(consumed: seq<(nat, nat)>, id: nat) {
    exists i :: 0 <= i < |consumed| && consumed[i].0 == id
  }

  lemma ConsumesForTaken(slots: seq<Slot>, consumed: seq<(nat, nat)>, id: nat)
    requires Consumable(slots, consumed)
    ensures ConsumesFor(consumed, id) <==> Taken(consumed, id) > 0
  {
    if ConsumesFor(consumed, id) {
      var i :| 0 <= i < |consumed| && consumed[i].0 == id;
      TakenIs(consumed, i);
    } else {
      TakenNone(consumed, id);
    }
  }

  ghost predicate DecodesApplied(was: seq<Slot>, now: seq<Slot>, consumed: seq<(nat, nat)>, tokens: seq<BatchToken>) {
    |now| == |was| && forall id :: 0 <= id < |was| ==> now[id] == After(was[id], Taken(consumed, id), Of(tokens, id))
  }

  lemma DecodesStep(was: seq<Slot>, now: seq<Slot>, consumed: seq<(nat, nat)>, tokens: seq<BatchToken>, q: nat, now': seq<Slot>)
    requires q < |tokens| && tokens[q].seqId < |was| && DecodesApplied(was, now, consumed, tokens[..q])
    requires var id, s := tokens[q].seqId, now[tokens[q].seqId];
      now' == if Taken(consumed, id) > 0 || s.job.None? then now else now[id := s.(job := Some(s.job.value.(nPast := tokens[q].pos + 1)))]
    ensures DecodesApplied(was, now', consumed, tokens[..q + 1])
  {
    hide Of, Taken, Moved;
    forall id | 0 <= id < |was|
      ensures now'[id] == After(was[id], Taken(consumed, id), Of(tokens[..q + 1], id))
    {
      OfNext(tokens, q, id);
      assert Of(tokens[..q], id) + [] == Of(tokens[..q], id);
    }
  }

  /** `apply_plan` on every slot: prompt cursors move and snapshots are taken, then the slots
    * that decoded move behind their last batch position. */
  method ApplyPlan(slots: array<Slot>, plan: BatchPlan, nUbatch: nat, ghost full: bool) returns (captures: map<nat, Capture>)
    requires PlanOwes(slots[..], plan.tokens, plan.prefillConsumed, full) && AllMidway(slots[..])
    modifies slots
    ensures DecodesApplied(old(slots[..]), slots[..], plan.prefillConsumed, plan.tokens)
    ensures Captured(old(slots[..]), plan.prefillConsumed, captures, nUbatch)
  {
    hide PlanOwes, AllMidway, Consumable, WithinSlots, DecodesApplied, Captured;
    ghost var was := slots[..];
    PlanConsumable(was, plan.tokens, plan.prefillConsumed, full);
    captures := ApplyChunks(slots, plan.prefillConsumed, nUbatch);
    NothingDecodedYet(was, slots[..], plan.prefillConsumed, plan.tokens, captures, nUbatch);
    ApplyDecodes(slots, plan.tokens, plan.prefillConsumed, was);
  }

  method ApplyDecodes(slots: array<Slot>, tokens: seq<BatchToken>, consumed: seq<(nat, nat)>, ghost was: seq<Slot>)
    requires Consumable(was, consumed) && WithinSlots(slots.Length, tokens)
    requires DecodesApplied(was, slots[..], consumed, tokens[..0])
    modifies slots
    ensures DecodesApplied(was, slots[..], consumed, tokens)
  {
    hide Taken, Consumable, Of, DecodesApplied;
    for q := 0 to |tokens|
      invariant DecodesApplied(was, slots[..], consumed, tokens[..q])
    {
      var tok := tokens[q];
      ConsumesForTaken(was, consumed, tok.seqId);
      DecodesLength(was, slots[..], consumed, tokens[..q]);
      ghost var now := slots[..];
      if !ConsumesFor(consumed, tok.seqId) && slots[tok.seqId].job.Some? {
        var job := slots[tok.seqId].job.value;
        slots[tok.seqId] := slots[tok.seqId].(job := Some(job.(nPast := tok.pos + 1)));
        assert slots[..] == now[tok.seqId := slots[tok.seqId]];
      }
      DecodesStep(was, now, consumed, tokens, q, slots[..]);
    }
    assert tokens[..|tokens|] == tokens;
  }

  lemma DecodesLength(was: seq<Slot>, now: seq<Slot>, consumed: seq<(nat, nat)>, tokens: seq<BatchToken>)
    requires DecodesApplied(was, now, consumed, tokens)
    ensures |now| == |was|
  {
  }

  lemma NothingDecodedYet(was: seq<Slot>, now: seq<Slot>, consumed: seq<(nat, nat)>, tokens: seq<BatchToken>,
                          captures: map<nat, Capture>, nUbatch: nat)
    requires ChunksApplied(was, now, consumed, captures, nUbatch)
    ensures DecodesApplied(was, now, consumed, tokens[..0]) && Captured(was, consumed, captures, nUbatch)
  {
  }
}
