/** One batch for all active slots: decode tokens with their drafts, then prefill chunks. */
module BatchPlanner {
  import opened Common
  import opened Quota

  datatype SlotPhase = Empty | Prefilling | Decoding

  /** The part of a job the planner reads and `apply_plan` moves. */
  datatype PlanJob = PlanJob(
    prompt: seq<Token>, promptOffset: nat, promptPos: nat, nPast: nat,
    pending: Option<Token>, drafts: seq<Token>,
    prefillStop: Option<nat>, preGenStop: Option<nat>, generating: bool)
  {
    /** Prompt tokens accounted for: the reused prefix and this request's prefill. */
    function Cursor(): nat { promptOffset + promptPos }

    function Remaining(): nat { Max(0, |prompt| - Cursor()) }

    /** The nearer of the two armed stops. */
    function NextStop(): Option<nat> {
      if prefillStop.Some? && preGenStop.Some? then Some(Min(prefillStop.value, preGenStop.value) as nat)
      else if prefillStop.Some? then prefillStop else preGenStop
    }

    /** Tokens the next chunk may take without stepping over an armed stop. */
    function RemainingToStop(): (n: nat)
      ensures n <= Remaining()
      ensures Remaining() > 0 ==> n > 0
      ensures (prefillStop.Some? ==> prefillStop.value > nPast) && (preGenStop.Some? ==> preGenStop.value > nPast) ==>
        && (prefillStop.Some? ==> nPast + n <= prefillStop.value) && (preGenStop.Some? ==> nPast + n <= preGenStop.value)
        && (n == Remaining() || prefillStop == Some(nPast + n) || preGenStop == Some(nPast + n))
    {
      var stop := NextStop();
      if stop.Some? && stop.value > nPast then Min(Remaining(), stop.value - nPast) else Remaining()
    }
  }

  /** A slot; its id is its index. */
  datatype Slot = Slot(phase: SlotPhase, job: Option<PlanJob>)

  datatype BatchToken = BatchToken(token: Token, pos: nat, seqId: nat, logits: bool)

  datatype BatchPlan = BatchPlan(tokens: seq<BatchToken>, logitSlots: seq<nat>, prefillConsumed: seq<(nat, nat)>)

  datatype Budget = Budget(prefillMax: nat, decodeMax: nat, mixedPrefillMax: nat, yieldEvery: nat, yieldMax: nat)

  predicate DecodeReady(s: Slot) { s.phase.Decoding? && s.job.Some? && s.job.value.pending.Some? }

  predicate PrefillReady(s: Slot) { s.phase.Prefilling? && s.job.Some? && s.job.value.Remaining() > 0 }

  // ---------------------------------------------------------------- reading a plan slot by slot

  /** The tokens of one slot, in batch order. */
  function Of(tokens: seq<BatchToken>, id: nat): seq<BatchToken> {
    if tokens == [] then []
    else
      var n := |tokens| - 1;
      Of(tokens[..n], id) + (if tokens[n].seqId == id then [tokens[n]] else [])
  }

  lemma {:induction false} OfConcat(a: seq<BatchToken>, b: seq<BatchToken>, id: nat)
    ensures Of(a + b, id) == Of(a, id) + Of(b, id)
  {
    if b == [] {
      assert a + b == a;
    } else {
      var n := |b| - 1;
      OfConcat(a, b[..n], id);
      assert (a + b)[..|a + b| - 1] == a + b[..n];
    }
  }

  lemma {:induction false} OfOne(seg: seq<BatchToken>, owner: nat, id: nat)
    requires forall i :: 0 <= i < |seg| ==> seg[i].seqId == owner
    ensures Of(seg, id) == if id == owner then seg else []
  {
    if seg != [] { OfOne(seg[..|seg| - 1], owner, id); }
  }

  /** Slots of the tokens that ask for logits. */
  function LogitIds(tokens: seq<BatchToken>): seq<nat> {
    if tokens == [] then []
    else
      var n := |tokens| - 1;
      LogitIds(tokens[..n]) + (if tokens[n].logits then [tokens[n].seqId] else [])
  }

  lemma LogitSnoc(tokens: seq<BatchToken>, t: BatchToken)
    ensures LogitIds(tokens + [t]) == LogitIds(tokens) + (if t.logits then [t.seqId] else [])
  {
    assert (tokens + [t])[..|tokens|] == tokens;
  }

  /** Rows of one slot stand next to each other. */
  ghost predicate Runs(ids: seq<nat>) {
    forall a, b, c :: 0 <= a < b < c < |ids| && ids[a] == ids[c] ==> ids[b] == ids[a]
  }

  lemma {:induction false} LogitIdIsPlanned(tokens: seq<BatchToken>, id: nat)
    requires id in LogitIds(tokens)
    ensures Of(tokens, id) != []
  {
    var n := |tokens| - 1;
    if id in LogitIds(tokens[..n]) { LogitIdIsPlanned(tokens[..n], id); }
  }

  lemma {:induction false} LogitsOfOne(seg: seq<BatchToken>, owner: nat)
    requires forall i :: 0 <= i < |seg| ==> seg[i].seqId == owner
    ensures forall x :: x in LogitIds(seg) ==> x == owner
  {
    if seg != [] { LogitsOfOne(seg[..|seg| - 1], owner); }
  }

  lemma RunsConcat(a: seq<nat>, b: seq<nat>, id: nat)
    requires Runs(a) && id !in a && forall x :: x in b ==> x == id
    ensures Runs(a + b)
  {
    var ids := a + b;
    forall i | 0 <= i < |ids| ensures if i < |a| then ids[i] == a[i] && ids[i] != id else ids[i] == id {
      if i >= |a| { assert b[i - |a|] in b; } else { assert a[i] in a; }
    }
  }

  /** A slot that joins the batch joins it as one run. */
  lemma RunsGrow(tokens: seq<BatchToken>, seg: seq<BatchToken>, owner: nat)
    requires Runs(LogitIds(tokens)) && Of(tokens, owner) == [] && forall i :: 0 <= i < |seg| ==> seg[i].seqId == owner
    ensures Runs(LogitIds(tokens) + LogitIds(seg))
  {
    LogitsOfOne(seg, owner);
    if owner in LogitIds(tokens) { LogitIdIsPlanned(tokens, owner); }
    hide LogitIds, Of, Runs;
    RunsConcat(LogitIds(tokens), LogitIds(seg), owner);
  }

  /** The batch segment of a decoding slot: the pending token and its first `k` drafts, at
    * consecutive positions, every row sampled. */
  function DecodeSeg(job: PlanJob, id: nat, k: nat): (seg: seq<BatchToken>)
    requires job.pending.Some? && k <= |job.drafts|
    ensures |seg| == k + 1
    ensures forall i :: 0 <= i < |seg| ==>
      seg[i] == BatchToken(([job.pending.value] + job.drafts)[i], job.nPast + i, id, true)
  {
    if k == 0 then [BatchToken(job.pending.value, job.nPast, id, true)]
    else DecodeSeg(job, id, k - 1) + [BatchToken(job.drafts[k - 1], job.nPast + k, id, true)]
  }

  /** The batch segment of a prefilling slot: the next `take` prompt tokens, at consecutive
    * positions, with logits only on the last prompt token. */
  function PrefillSeg(job: PlanJob, id: nat, take: nat): (seg: seq<BatchToken>)
    requires take <= job.Remaining()
    ensures |seg| == take
    ensures forall i :: 0 <= i < take ==>
      seg[i] == BatchToken(job.prompt[job.Cursor() + i], job.nPast + i, id, job.Cursor() + i + 1 == |job.prompt|)
  {
    if take == 0 then []
    else
      var k := take - 1;
      PrefillSeg(job, id, k) + [BatchToken(job.prompt[job.Cursor() + k], job.nPast + k, id, job.Cursor() + k + 1 == |job.prompt|)]
  }

  /** Prompt tokens the plan consumes for a slot. */
  function Taken(consumed: seq<(nat, nat)>, id: nat): nat {
    if consumed == [] then 0
    else Taken(consumed[..|consumed| - 1], id) + (if consumed[|consumed| - 1].0 == id then consumed[|consumed| - 1].1 else 0)
  }

  lemma TakenSnoc(consumed: seq<(nat, nat)>, e: (nat, nat), id: nat)
    ensures Taken(consumed + [e], id) == Taken(consumed, id) + (if e.0 == id then e.1 else 0)
  {
    assert (consumed + [e])[..|consumed|] == consumed;
  }

  // ---------------------------------------------------------------- what a plan owes every slot

  ghost predicate Distinct(order: seq<nat>) {
    forall a, b :: 0 <= a < b < |order| ==> order[a] != order[b]
  }

  /** The decode segment of a slot; all its drafts are in it when the batch was not `full`. */
  ghost predicate DecodesFor(s: Slot, id: nat, toks: seq<BatchToken>, full: bool) {
    && DecodeReady(s)
    && exists k: nat :: k <= |s.job.value.drafts| && toks == DecodeSeg(s.job.value, id, k) && (full || k == |s.job.value.drafts|)
  }

  /** A slot's share of a plan: nothing, its decode segment, or a prefill chunk. */
  ghost predicate PlannedFor(s: Slot, id: nat, tokens: seq<BatchToken>, consumed: seq<(nat, nat)>, full: bool) {
    if PrefillReady(s) then
      Taken(consumed, id) <= s.job.value.RemainingToStop() && Of(tokens, id) == PrefillSeg(s.job.value, id, Taken(consumed, id))
    else Taken(consumed, id) == 0 && (Of(tokens, id) == [] || DecodesFor(s, id, Of(tokens, id), full))
  }

  ghost predicate PlanOwes(slots: seq<Slot>, tokens: seq<BatchToken>, consumed: seq<(nat, nat)>, full: bool) {
    && (forall id :: 0 <= id < |slots| ==> PlannedFor(slots[id], id, tokens, consumed, full))
    && (forall i :: 0 <= i < |tokens| ==> tokens[i].seqId < |slots|)
    && (forall i :: 0 <= i < |consumed| ==> consumed[i].0 < |slots| && consumed[i].1 > 0)
    && (forall i, j :: 0 <= i < j < |consumed| ==> consumed[i].0 != consumed[j].0)
  }

  // ---------------------------------------------------------------- the planner

  /** Pending token and as many drafts as the batch still has room for. */
  method DecodeSegment(job: PlanJob, id: nat, room: nat) returns (seg: seq<BatchToken>, ids: seq<nat>, ghost k: nat)
    requires job.pending.Some? && room > 0
    ensures k <= |job.drafts| && seg == DecodeSeg(job, id, k) && |seg| <= room
    ensures |seg| < room ==> k == |job.drafts|
    ensures ids == LogitIds(seg)
  {
    seg := [BatchToken(job.pending.value, job.nPast, id, true)];
    ids := [id];
    LogitSnoc([], seg[0]);
    assert [] + [seg[0]] == seg;
    k := 0;
    var i := 0;
    while i < |job.drafts| && |seg| < room
      invariant 0 <= i == k <= |job.drafts| && |seg| <= room
      invariant seg == DecodeSeg(job, id, k) && ids == LogitIds(seg)
    {
      var t := BatchToken(job.drafts[i], job.nPast + i + 1, id, true);
      LogitSnoc(seg, t);
      seg, ids := seg + [t], ids + [id];
      i, k := i + 1, k + 1;
    }
  }

  method PrefillSegment(job: PlanJob, id: nat, take: nat) returns (seg: seq<BatchToken>, ids: seq<nat>)
    requires take <= job.Remaining()
    ensures seg == PrefillSeg(job, id, take) && ids == LogitIds(seg)
  {
    seg, ids := [], [];
    for k := 0 to take
      invariant seg == PrefillSeg(job, id, k) && ids == LogitIds(seg)
    {
      var idx := job.Cursor() + k;
      var last := idx + 1 == |job.prompt|;
      var t := BatchToken(job.prompt[idx], job.nPast + k, id, last);
      LogitSnoc(seg, t);
      seg := seg + [t];
      if last { ids := ids + [id]; }
    }
  }

  lemma {:induction false} LogitConcat(a: seq<BatchToken>, b: seq<BatchToken>)
    ensures LogitIds(a + b) == LogitIds(a) + LogitIds(b)
  {
    if b == [] {
      assert a + b == a;
    } else {
      var n := |b| - 1;
      LogitConcat(a, b[..n]);
      assert a + b == a + b[..n] + [b[n]] && b == b[..n] + [b[n]];
      hide LogitIds;
      LogitSnoc(a + b[..n], b[n]);
      LogitSnoc(b[..n], b[n]);
    }
  }

  /** After a decode pass every slot has nothing or its decode segment in the batch. */
  ghost predicate DecodePart(slots: seq<Slot>, order: seq<nat>, tokens: seq<BatchToken>, full: bool) {
    && (forall id :: 0 <= id < |slots| ==> DecodeOf(slots, order, tokens, full, id))
    && WithinSlots(|slots|, tokens)
  }

  ghost predicate DecodeOf(slots: seq<Slot>, order: seq<nat>, tokens: seq<BatchToken>, full: bool, id: nat)
    requires id < |slots|
  {
    Of(tokens, id) == [] || (id in order && DecodesFor(slots[id], id, Of(tokens, id), full))
  }

  lemma DecodePartStep(slots: seq<Slot>, order: seq<nat>, q: nat, tokens: seq<BatchToken>, k: nat, full: bool)
    requires Distinct(order) && q < |order| && order[q] < |slots|
    requires DecodePart(slots, order[..q], tokens, false)
    requires DecodeReady(slots[order[q]]) && k <= |slots[order[q]].job.value.drafts|
    requires full || k == |slots[order[q]].job.value.drafts|
    ensures DecodePart(slots, order[..q + 1], tokens + DecodeSeg(slots[order[q]].job.value, order[q], k), full)
    ensures forall id :: 0 <= id < |slots| && Of(tokens, id) != [] ==> Of(tokens + DecodeSeg(slots[order[q]].job.value, order[q], k), id) != []
    ensures Of(tokens + DecodeSeg(slots[order[q]].job.value, order[q], k), order[q]) != []
  {
    var id0 := order[q];
    var seg := DecodeSeg(slots[id0].job.value, id0, k);
    DistinctSplit(order, q);
    SegmentWithin(|slots|, tokens, seg, id0);
    hide DecodeOf, WithinSlots, Distinct, DecodesFor;
    forall id | 0 <= id < |slots|
      ensures DecodeOf(slots, order[..q + 1], tokens + seg, full, id)
      ensures Of(tokens, id) != [] ==> Of(tokens + seg, id) != []
      ensures id == id0 ==> Of(tokens + seg, id) != []
    {
      DecodeOfStep(slots, order[..q], id0, tokens, k, full, id);
    }
  }

  lemma DecodeOfStep(slots: seq<Slot>, done: seq<nat>, id0: nat, tokens: seq<BatchToken>, k: nat, full: bool, id: nat)
    requires id0 < |slots| && id0 !in done && id < |slots| && DecodeOf(slots, done, tokens, false, id)
    requires DecodeReady(slots[id0]) && k <= |slots[id0].job.value.drafts| && (full || k == |slots[id0].job.value.drafts|)
    ensures DecodeOf(slots, done + [id0], tokens + DecodeSeg(slots[id0].job.value, id0, k), full, id)
    ensures Of(tokens, id) != [] ==> Of(tokens + DecodeSeg(slots[id0].job.value, id0, k), id) != []
    ensures id == id0 ==> Of(tokens + DecodeSeg(slots[id0].job.value, id0, k), id) != []
  {
    assert slots[id0].job.Some? && slots[id0].job.value.pending.Some?;
    hide Of, DecodeSeg, DecodeReady;
    var seg := DecodeSeg(slots[id0].job.value, id0, k);
    OfConcat(tokens, seg, id);
    OfOne(seg, id0, id);
    MemberSnoc(done, id0, id);
    if id != id0 { assert Of(tokens, id) + [] == Of(tokens, id); } else { assert [] + seg == seg; }
  }

  lemma NothingDecoded(slots: seq<Slot>, order: seq<nat>, full: bool)
    ensures DecodePart(slots, order, [], full) && DecodePart(slots, order, [], false) && LogitIds([]) == [] && Runs([])
    ensures DecodesAll(slots, order[..0], [], full)
  {
  }

  lemma DecodesAllDone(slots: seq<Slot>, order: seq<nat>, q: nat, tokens: seq<BatchToken>, full: bool)
    requires q <= |order| && (full || q == |order|) && DecodesAll(slots, order[..q], tokens, full)
    ensures DecodesAll(slots, order, tokens, full)
  {
    assert q == |order| ==> order[..q] == order;
  }

  lemma DecodesAllStep(slots: seq<Slot>, order: seq<nat>, q: nat, tokens: seq<BatchToken>, seg: seq<BatchToken>,
                       full: bool, full': bool)
    requires q < |order| && (full ==> full') && DecodesAll(slots, order[..q], tokens, full)
    requires forall id :: 0 <= id < |slots| && Of(tokens, id) != [] ==> Of(tokens + seg, id) != []
    requires Of(tokens + seg, order[q]) != []
    ensures DecodesAll(slots, order[..q + 1], tokens + seg, full')
  {
    hide Of, DecodeReady;
    if !full' {
      var o := order[..q + 1];
      forall i | 0 <= i < |o| ensures Decodes(slots, o[i], tokens + seg) {
        if i < q { assert Decodes(slots, order[..q][i], tokens); }
      }
    }
  }

  lemma DecodesAllSkip(slots: seq<Slot>, order: seq<nat>, q: nat, tokens: seq<BatchToken>, full: bool)
    requires q < |order| && DecodesAll(slots, order[..q], tokens, full)
    requires !(order[q] < |slots| && DecodeReady(slots[order[q]]))
    ensures DecodesAll(slots, order[..q + 1], tokens, full)
  {
    hide Of, DecodeReady;
    if !full {
      var o := order[..q + 1];
      forall i | 0 <= i < |o| ensures Decodes(slots, o[i], tokens) {
        if i < q { assert Decodes(slots, order[..q][i], tokens); }
      }
    }
  }

  /** Cells the decoding slots of an order ask for: pending tokens and all drafts. */
  function Need(slots: seq<Slot>, order: seq<nat>): nat {
    if order == [] then 0 else Need(slots, order[..|order| - 1]) + Ask(slots, order[|order| - 1])
  }

  function Ask(slots: seq<Slot>, id: nat): nat {
    if id < |slots| && DecodeReady(slots[id]) then 1 + |slots[id].job.value.drafts| else 0
  }

  /** The slot decodes its pending token and every draft. */
  ghost predicate DecodesWhole(slots: seq<Slot>, id: nat, tokens: seq<BatchToken>) {
    id < |slots| && DecodeReady(slots[id]) ==> Of(tokens, id) == DecodeSeg(slots[id].job.value, id, |slots[id].job.value.drafts|)
  }

  ghost predicate AllWhole(slots: seq<Slot>, order: seq<nat>, tokens: seq<BatchToken>) {
    forall i :: 0 <= i < |order| ==> DecodesWhole(slots, order[i], tokens)
  }

  lemma {:induction false} NeedRest(slots: seq<Slot>, order: seq<nat>, q: nat)
    requires q <= |order|
    ensures Need(slots, order[..q]) <= Need(slots, order)
    ensures q < |order| ==> Need(slots, order[..q]) + Ask(slots, order[q]) == Need(slots, order[..q + 1])
    ensures Need(slots, order[..q]) == Need(slots, order) ==> forall i :: q <= i < |order| ==> Ask(slots, order[i]) == 0
  {
    if q < |order| {
      var n := |order| - 1;
      assert order[..q + 1][..q] == order[..q];
      if q < n {
        NeedRest(slots, order[..n], q);
        assert order[..n][..q] == order[..q] && order[..n][..q + 1] == order[..q + 1];
        assert forall i :: q <= i < n ==> order[..n][i] == order[i];
      } else {
        assert order[..q] == order[..n];
      }
    } else {
      assert order[..q] == order;
    }
  }

  /** A segment for slot `id` changes nothing for the others. */
  lemma AllWholeStep(slots: seq<Slot>, order: seq<nat>, q: nat, tokens: seq<BatchToken>)
    requires Distinct(order) && q < |order| && order[q] < |slots| && DecodeReady(slots[order[q]])
    requires AllWhole(slots, order[..q], tokens) && Of(tokens, order[q]) == []
    ensures var job := slots[order[q]].job.value; AllWhole(slots, order[..q + 1], tokens + DecodeSeg(job, order[q], |job.drafts|))
  {
    hide Of, DecodeSeg, DecodesWhole;
    var id0, o := order[q], order[..q + 1];
    var job := slots[id0].job.value;
    forall i | 0 <= i < |o| ensures DecodesWhole(slots, o[i], tokens + DecodeSeg(job, id0, |job.drafts|)) {
      if i < q { assert o[i] == order[..q][i] && DecodesWhole(slots, order[..q][i], tokens); }
      WholeStep(slots, id0, tokens, o[i]);
    }
  }

  lemma WholeStep(slots: seq<Slot>, id0: nat, tokens: seq<BatchToken>, id: nat)
    requires id0 < |slots| && DecodeReady(slots[id0]) && Of(tokens, id0) == []
    requires id == id0 || DecodesWhole(slots, id, tokens)
    ensures var job := slots[id0].job.value; DecodesWhole(slots, id, tokens + DecodeSeg(job, id0, |job.drafts|))
  {
    var seg := DecodeSeg(slots[id0].job.value, id0, |slots[id0].job.value.drafts|);
    OfConcat(tokens, seg, id);
    OfOne(seg, id0, id);
    hide Of, DecodeSeg, DecodeReady;
    if id != id0 { assert Of(tokens, id) + [] == Of(tokens, id); }
  }

  lemma AllWholeSkip(slots: seq<Slot>, order: seq<nat>, q: nat, tokens: seq<BatchToken>)
    requires q < |order| && AllWhole(slots, order[..q], tokens) && Ask(slots, order[q]) == 0
    ensures AllWhole(slots, order[..q + 1], tokens)
  {
    hide Of, DecodeReady;
    var o := order[..q + 1];
    forall i | 0 <= i < |o| ensures DecodesWhole(slots, o[i], tokens) {
      if i < q { assert DecodesWhole(slots, order[..q][i], tokens); }
    }
  }

  lemma AllWholeDone(slots: seq<Slot>, order: seq<nat>, q: nat, tokens: seq<BatchToken>)
    requires q <= |order| && AllWhole(slots, order[..q], tokens) && (q == |order| || Need(slots, order[..q]) == Need(slots, order))
    ensures AllWhole(slots, order, tokens)
  {
    if q < |order| { NeedRest(slots, order, q); }
    hide Of, Need;
    forall i | 0 <= i < |order| ensures DecodesWhole(slots, order[i], tokens) {
      if i < q { assert DecodesWhole(slots, order[..q][i], tokens); } else { assert Ask(slots, order[i]) == 0; }
    }
  }

  /** Decode tokens first; `decodeMax` bounds slots, drafts ride along. */
  method DecodePass(cap: nat, slots: seq<Slot>, order: seq<nat>, decodeMax: nat)
    returns (tokens: seq<BatchToken>, ids: seq<nat>, decodeSlots: nat)
    requires Distinct(order)
    ensures |tokens| <= cap && ids == LogitIds(tokens) && Runs(ids)
    ensures DecodePart(slots, order, tokens, |tokens| >= cap)
    ensures decodeSlots == 0 <==> tokens == []
    ensures decodeMax >= |order| ==> DecodesAll(slots, order, tokens, |tokens| >= cap)
    ensures cap > 0 && decodeMax > 0 && SomeDecode(slots, order) ==> tokens != []
    ensures !SomeDecode(slots, order) ==> tokens == []
    ensures decodeMax >= |order| && Need(slots, order) <= cap ==> AllWhole(slots, order, tokens)
  {
    hide DecodePart, DecodesAll, Of, LogitIds, Distinct, Runs, Need, AllWhole;
    NothingNeeded(slots, order);
    tokens, ids, decodeSlots := [], [], 0;
    NothingDecoded(slots, order[..0], cap == 0);
    assert order[..0][..0] == order[..0];
    var q := 0;
    while q < |order| && |tokens| < cap && decodeSlots < decodeMax
      invariant 0 <= q <= |order| && |tokens| <= cap && ids == LogitIds(tokens) && Runs(ids)
      invariant DecodePart(slots, order[..q], tokens, |tokens| >= cap)
      invariant |tokens| < cap ==> DecodePart(slots, order[..q], tokens, false)
      invariant (decodeSlots == 0 <==> tokens == []) && decodeSlots <= q
      invariant DecodesAll(slots, order[..q], tokens, |tokens| >= cap)
      invariant !SomeDecode(slots, order) ==> tokens == []
      invariant tokens == [] ==> forall p :: 0 <= p < q && order[p] < |slots| ==> !DecodeReady(slots[order[p]])
      invariant Need(slots, order) <= cap ==> |tokens| == Need(slots, order[..q]) && AllWhole(slots, order[..q], tokens)
    {
      var id := order[q];
      NeedRest(slots, order, q);
      NeedRest(slots, order, q + 1);
      assert order[..q + 1] == order[..q] + [id];
      if id < |slots| && DecodeReady(slots[id]) {
        var seg, segIds;
        ghost var k;
        seg, segIds, k := DecodeSegment(slots[id].job.value, id, cap - |tokens|);
        DecodePartStep(slots, order, q, tokens, k, |tokens + seg| >= cap);
        NotYetDecoded(slots, order, q, tokens);
        RunsGrow(tokens, seg, id);
        DecodesAllStep(slots, order, q, tokens, seg, |tokens| >= cap, |tokens + seg| >= cap);
        if Need(slots, order) <= cap { AllWholeStep(slots, order, q, tokens); }
        LogitConcat(tokens, seg);
        tokens, ids := tokens + seg, ids + segIds;
        decodeSlots := decodeSlots + 1;
      } else {
        DecodePartGrows(slots, order[..q + 1], q, tokens, false);
        DecodesAllSkip(slots, order, q, tokens, |tokens| >= cap);
        if Need(slots, order) <= cap { AllWholeSkip(slots, order, q, tokens); }
      }
      q := q + 1;
    }
    NeedRest(slots, order, q);
    if decodeMax >= |order| && Need(slots, order) <= cap { AllWholeDone(slots, order, q, tokens); }
    if decodeMax >= |order| { DecodesAllDone(slots, order, q, tokens, |tokens| >= cap); }
    DecodePartGrows(slots, order, q, tokens, |tokens| >= cap);
  }

  lemma NothingNeeded(slots: seq<Slot>, order: seq<nat>)
    ensures Need(slots, order[..0]) == 0 && AllWhole(slots, order[..0], [])
  {
  }

  /** Some slot of the order has a pending token to decode. */
  ghost predicate SomeDecode(slots: seq<Slot>, order: seq<nat>) {
    exists i :: 0 <= i < |order| && order[i] < |slots| && DecodeReady(slots[order[i]])
  }

  /** Every slot with a pending token is in the batch, unless that is full. */
  ghost predicate DecodesAll(slots: seq<Slot>, order: seq<nat>, tokens: seq<BatchToken>, full: bool) {
    full || forall i :: 0 <= i < |order| ==> Decodes(slots, order[i], tokens)
  }

  ghost predicate Decodes(slots: seq<Slot>, id: nat, tokens: seq<BatchToken>) {
    id < |slots| && DecodeReady(slots[id]) ==> Of(tokens, id) != []
  }

  lemma NotYetDecoded(slots: seq<Slot>, order: seq<nat>, q: nat, tokens: seq<BatchToken>)
    requires Distinct(order) && q < |order| && order[q] < |slots| && DecodePart(slots, order[..q], tokens, false)
    ensures Of(tokens, order[q]) == []
  {
    DistinctSplit(order, q);
    assert DecodeOf(slots, order[..q], tokens, false, order[q]);
  }

  lemma DecodePartGrows(slots: seq<Slot>, order: seq<nat>, q: nat, tokens: seq<BatchToken>, full: bool)
    requires q <= |order| && DecodePart(slots, order[..q], tokens, full)
    ensures DecodePart(slots, order, tokens, full)
  {
    forall id | 0 <= id < |slots| ensures DecodeOf(slots, order, tokens, full, id) {
      assert DecodeOf(slots, order[..q], tokens, full, id);
    }
  }

  /** Slots of the order that still have prompt left. */
  method PrefillSlots(slots: seq<Slot>, order: seq<nat>) returns (pre: seq<nat>)
    requires Distinct(order)
    ensures Distinct(pre) && |pre| <= |order| && AllPrefill(slots, pre)
    ensures forall x :: x in pre <==> x in order && x < |slots| && PrefillReady(slots[x])
  {
    pre := [];
    for q := 0 to |order|
      invariant Distinct(pre) && |pre| <= q
      invariant forall x :: x in pre <==> x in order[..q] && x < |slots| && PrefillReady(slots[x])
    {
      var id := order[q];
      assert order[..q + 1] == order[..q] + [id];
      assert id !in order[..q];
      if id < |slots| && PrefillReady(slots[id]) { pre := pre + [id]; }
    }
    assert order[..|order|] == order;
    forall i | 0 <= i < |pre| ensures pre[i] < |slots| && PrefillReady(slots[pre[i]]) { assert pre[i] in pre; }
  }

  ghost predicate AllPrefill(slots: seq<Slot>, pre: seq<nat>) {
    forall i :: 0 <= i < |pre| ==> pre[i] < |slots| && PrefillReady(slots[pre[i]])
  }

  /** What the prefill slots may take before an armed stop. */
  function StopRoom(slots: seq<Slot>, pre: seq<nat>): (r: seq<nat>)
    requires AllPrefill(slots, pre)
    ensures |r| == |pre|
    ensures forall i :: 0 <= i < |pre| ==> r[i] == slots[pre[i]].job.value.RemainingToStop() > 0
  {
    seq(|pre|, i requires 0 <= i < |pre| => slots[pre[i]].job.value.RemainingToStop())
  }

  /** The prefill slots and the quota each was given. */
  ghost predicate Quotas(slots: seq<Slot>, pre: seq<nat>, quotas: seq<nat>) {
    && |pre| == |quotas| && Distinct(pre) && AllPrefill(slots, pre)
    && forall i :: 0 <= i < |pre| ==> quotas[i] <= slots[pre[i]].job.value.RemainingToStop()
  }

  /** A slot whose turn has come (`done`) has its chunk behind what was in the batch before. */
  ghost predicate ChunkFor(s: Slot, id: nat, before: seq<BatchToken>, now: seq<BatchToken>, take: nat, done: bool) {
    if done then
      PrefillReady(s) && take <= s.job.value.RemainingToStop() && now == before + PrefillSeg(s.job.value, id, take)
    else take == 0 && now == before
  }

  /** The batch after the slots in `done` were given their quota. */
  ghost predicate PrefillPart(slots: seq<Slot>, tokens0: seq<BatchToken>, done: seq<nat>,
                              tokens: seq<BatchToken>, consumed: seq<(nat, nat)>) {
    forall id :: 0 <= id < |slots| ==> ChunkOf(slots, tokens0, done, tokens, consumed, id)
  }

  ghost predicate ChunkOf(slots: seq<Slot>, tokens0: seq<BatchToken>, done: seq<nat>,
                          tokens: seq<BatchToken>, consumed: seq<(nat, nat)>, id: nat)
    requires id < |slots|
  {
    ChunkFor(slots[id], id, Of(tokens0, id), Of(tokens, id), Taken(consumed, id), id in done)
  }

  ghost predicate WithinSlots(n: nat, tokens: seq<BatchToken>) {
    forall i :: 0 <= i < |tokens| ==> tokens[i].seqId < n
  }

  /** The slots that consume are among `ids`, each once and at least one token. */
  ghost predicate ConsumedOnce(ids: seq<nat>, consumed: seq<(nat, nat)>) {
    && (forall i :: 0 <= i < |consumed| ==> consumed[i].0 in ids && consumed[i].1 > 0)
    && (forall a, b :: 0 <= a < b < |consumed| ==> consumed[a].0 != consumed[b].0)
  }

  lemma PrefillPartStep(slots: seq<Slot>, tokens0: seq<BatchToken>, done: seq<nat>, id0: nat, take: nat,
                        tokens: seq<BatchToken>, consumed: seq<(nat, nat)>, consumed': seq<(nat, nat)>)
    requires id0 < |slots| && id0 !in done && PrefillReady(slots[id0]) && take <= slots[id0].job.value.RemainingToStop()
    requires PrefillPart(slots, tokens0, done, tokens, consumed)
    requires consumed' == if take == 0 then consumed else consumed + [(id0, take)]
    ensures PrefillPart(slots, tokens0, done + [id0], tokens + PrefillSeg(slots[id0].job.value, id0, take), consumed')
  {
    hide ChunkOf;
    var seg := PrefillSeg(slots[id0].job.value, id0, take);
    forall id | 0 <= id < |slots|
      ensures ChunkOf(slots, tokens0, done + [id0], tokens + seg, consumed', id)
    {
      ChunkStep(slots, tokens0, done, id0, take, tokens, consumed, consumed', id);
    }
  }

  lemma ChunkStep(slots: seq<Slot>, tokens0: seq<BatchToken>, done: seq<nat>, id0: nat, take: nat,
                  tokens: seq<BatchToken>, consumed: seq<(nat, nat)>, consumed': seq<(nat, nat)>, id: nat)
    requires id0 < |slots| && id0 !in done && PrefillReady(slots[id0]) && take <= slots[id0].job.value.RemainingToStop()
    requires consumed' == if take == 0 then consumed else consumed + [(id0, take)]
    requires id < |slots| && ChunkOf(slots, tokens0, done, tokens, consumed, id)
    ensures ChunkOf(slots, tokens0, done + [id0], tokens + PrefillSeg(slots[id0].job.value, id0, take), consumed', id)
  {
    hide Of, Taken, PrefillSeg;
    var seg := PrefillSeg(slots[id0].job.value, id0, take);
    OfConcat(tokens, seg, id);
    OfOne(seg, id0, id);
    TakenGrows(consumed, id0, take, consumed');
    MemberSnoc(done, id0, id);
    if id != id0 { assert Of(tokens, id) + [] == Of(tokens, id); }
  }

  lemma MemberSnoc(done: seq<nat>, id0: nat, id: nat)
    ensures id in done + [id0] <==> id in done || id == id0
  {
  }

  lemma TakenGrows(consumed: seq<(nat, nat)>, id0: nat, take: nat, consumed': seq<(nat, nat)>)
    requires consumed' == if take == 0 then consumed else consumed + [(id0, take)]
    ensures forall id: nat :: Taken(consumed', id) == Taken(consumed, id) + if id == id0 then take else 0
  {
    forall id: nat ensures Taken(consumed', id) == Taken(consumed, id) + if id == id0 then take else 0 {
      TakenSnoc(consumed, (id0, take), id);
    }
  }

  /** The first `j` prefill slots took their quota. */
  ghost predicate TookQuota(pre: seq<nat>, quotas: seq<nat>, j: nat, consumed: seq<(nat, nat)>) {
    j <= |pre| == |quotas| && forall i :: 0 <= i < j ==> Taken(consumed, pre[i]) == quotas[i]
  }

  lemma TakenAbsent(ids: seq<nat>, consumed: seq<(nat, nat)>, id: nat)
    requires ConsumedOnce(ids, consumed) && id !in ids
    ensures Taken(consumed, id) == 0
    decreases |consumed|
  {
    if consumed != [] {
      var c := consumed[..|consumed| - 1];
      assert forall i :: 0 <= i < |c| ==> c[i] == consumed[i];
      TakenAbsent(ids, c, id);
    }
  }

  /** One more prefill slot: bookkeeping of the consumed list and of the token count. */
  lemma QuotaStep(pre: seq<nat>, quotas: seq<nat>, j: nat, consumed: seq<(nat, nat)>, consumed': seq<(nat, nat)>)
    requires j < |pre| == |quotas| && Distinct(pre) && TookQuota(pre, quotas, j, consumed) && ConsumedOnce(pre[..j], consumed)
    requires consumed' == if quotas[j] == 0 then consumed else consumed + [(pre[j], quotas[j])]
    requires forall i :: 0 <= i <= j ==> Taken(consumed', pre[i]) == Taken(consumed, pre[i]) + if i == j then quotas[j] else 0
    ensures TookQuota(pre, quotas, j + 1, consumed') && ConsumedOnce(pre[..j + 1], consumed')
    ensures Sum(quotas[..j + 1]) == Sum(quotas[..j]) + quotas[j]
  {
    hide Taken, ConsumedOnce, TookQuota, Distinct, Sum;
    DistinctSplit(pre, j);
    TakenAbsent(pre[..j], consumed, pre[j]);
    ConsumedOnceStep(pre[..j], pre[j], consumed, quotas[j]);
    TookQuotaStep(pre, quotas, j, consumed, consumed');
    SumSplit(quotas, j);
  }

  lemma DistinctSplit(order: seq<nat>, j: nat)
    requires Distinct(order) && j < |order|
    ensures order[..j + 1] == order[..j] + [order[j]] && order[j] !in order[..j]
  {
  }

  lemma TookQuotaStep(pre: seq<nat>, quotas: seq<nat>, j: nat, consumed: seq<(nat, nat)>, consumed': seq<(nat, nat)>)
    requires TookQuota(pre, quotas, j, consumed) && j < |pre| && Taken(consumed, pre[j]) == 0
    requires forall i :: 0 <= i <= j ==> Taken(consumed', pre[i]) == Taken(consumed, pre[i]) + if i == j then quotas[j] else 0
    ensures TookQuota(pre, quotas, j + 1, consumed')
  {
    hide Taken;
  }

  lemma ConsumedOnceStep(ids: seq<nat>, id: nat, consumed: seq<(nat, nat)>, take: nat)
    requires ConsumedOnce(ids, consumed) && id !in ids
    ensures ConsumedOnce(ids + [id], if take == 0 then consumed else consumed + [(id, take)])
  {
    forall i | 0 <= i < |consumed| ensures consumed[i].0 in ids + [id] && consumed[i].0 != id {}
  }

  /** Prefill chunks after the decode tokens, slot by slot. */
  method PrefillPass(slots: seq<Slot>, tokens0: seq<BatchToken>, ids0: seq<nat>, pre: seq<nat>, quotas: seq<nat>)
    returns (tokens: seq<BatchToken>, ids: seq<nat>, consumed: seq<(nat, nat)>)
    requires Quotas(slots, pre, quotas) && ids0 == LogitIds(tokens0) && WithinSlots(|slots|, tokens0) && Runs(ids0)
    requires forall i :: 0 <= i < |pre| ==> Of(tokens0, pre[i]) == []
    ensures Runs(ids) && ids == LogitIds(tokens) && |tokens| == |tokens0| + Sum(quotas)
    ensures PrefillPart(slots, tokens0, pre, tokens, consumed)
    ensures WithinSlots(|slots|, tokens) && ConsumedOnce(pre, consumed) && TookQuota(pre, quotas, |pre|, consumed)
  {
    hide PrefillPart, ConsumedOnce, TookQuota, WithinSlots, Runs, Of, LogitIds;
    tokens, ids, consumed := tokens0, ids0, [];
    PassStarts(slots, tokens0, pre, quotas);
    for j := 0 to |pre|
      invariant Runs(ids) && ids == LogitIds(tokens) && |tokens| == |tokens0| + Sum(quotas[..j])
      invariant PrefillPart(slots, tokens0, pre[..j], tokens, consumed)
      invariant WithinSlots(|slots|, tokens) && ConsumedOnce(pre[..j], consumed) && TookQuota(pre, quotas, j, consumed)
    {
      var id, take := pre[j], quotas[j];
      assert pre[..j + 1] == pre[..j] + [id] && id !in pre[..j];
      var seg, segIds := PrefillSegment(slots[id].job.value, id, take);
      var consumed' := if take == 0 then consumed else consumed + [(id, take)];
      PrefillPartStep(slots, tokens0, pre[..j], id, take, tokens, consumed, consumed');
      TakenGrows(consumed, id, take, consumed');
      QuotaStep(pre, quotas, j, consumed, consumed');
      SegmentWithin(|slots|, tokens, seg, id);
      NotYetPrefilled(slots, tokens0, pre[..j], tokens, consumed, id);
      RunsGrow(tokens, seg, id);
      LogitConcat(tokens, seg);
      tokens, ids, consumed := tokens + seg, ids + segIds, consumed';
    }
    assert quotas[..|pre|] == quotas && pre[..|pre|] == pre;
  }

  lemma NotYetPrefilled(slots: seq<Slot>, tokens0: seq<BatchToken>, done: seq<nat>,
                        tokens: seq<BatchToken>, consumed: seq<(nat, nat)>, id: nat)
    requires PrefillPart(slots, tokens0, done, tokens, consumed) && id < |slots| && id !in done
    ensures Of(tokens, id) == Of(tokens0, id)
  {
    assert ChunkOf(slots, tokens0, done, tokens, consumed, id);
  }

  lemma PassStarts(slots: seq<Slot>, tokens0: seq<BatchToken>, pre: seq<nat>, quotas: seq<nat>)
    requires Quotas(slots, pre, quotas)
    ensures PrefillPart(slots, tokens0, pre[..0], tokens0, [])
    ensures ConsumedOnce(pre[..0], []) && TookQuota(pre, quotas, 0, [])
  {
  }

  lemma SegmentWithin(n: nat, tokens: seq<BatchToken>, seg: seq<BatchToken>, id: nat)
    requires WithinSlots(n, tokens) && id < n && forall i :: 0 <= i < |seg| ==> seg[i].seqId == id
    ensures WithinSlots(n, tokens + seg)
  {
  }

  lemma PlanComplete(slots: seq<Slot>, order: seq<nat>, tokens0: seq<BatchToken>, pre: seq<nat>,
                     tokens: seq<BatchToken>, consumed: seq<(nat, nat)>, full: bool)
    requires DecodePart(slots, order, tokens0, full) && AllPrefill(slots, pre)
    requires PrefillPart(slots, tokens0, pre, tokens, consumed)
    requires WithinSlots(|slots|, tokens) && ConsumedOnce(pre, consumed)
    ensures PlanOwes(slots, tokens, consumed, full)
  {
    forall id | 0 <= id < |slots| ensures PlannedFor(slots[id], id, tokens, consumed, full) {
      assert ChunkOf(slots, tokens0, pre, tokens, consumed, id);
      assert DecodeOf(slots, order, tokens0, full, id);
    }
  }

  /** Prefill tokens one batch may carry behind `decodes` decode tokens. */
  function PrefillCap(cap: nat, decodes: nat, skipDecode: bool, mixedPrefillMax: nat): nat
    requires decodes <= cap
  {
    if skipDecode || decodes == 0 then cap - decodes else Min(cap - decodes, mixedPrefillMax)
  }

  /** `pre` lists every slot of the order with prompt left, once. */
  ghost predicate PrefillOrder(slots: seq<Slot>, order: seq<nat>, pre: seq<nat>) {
    && Distinct(pre) && |pre| <= |order| && AllPrefill(slots, pre)
    && forall x :: x in order && x < |slots| && PrefillReady(slots[x]) ==> x in pre
  }

  /** Behind `decodes` decode tokens the prefill slots `pre` share the rest of the batch max-min fairly. */
  ghost predicate SharesOut(slots: seq<Slot>, order: seq<nat>, cap: nat, budget: Budget, skipDecode: bool, plan: BatchPlan,
                            pre: seq<nat>, quotas: seq<nat>, decodes: nat) {
    && decodes <= cap && PrefillOrder(slots, order, pre)
    && TookQuota(pre, quotas, |pre|, plan.prefillConsumed)
    && |plan.tokens| == decodes + Sum(quotas)
    && FairSplit(PrefillCap(cap, decodes, skipDecode, budget.mixedPrefillMax), Demands(StopRoom(slots, pre), budget.prefillMax), quotas)
  }

  /** Every slot of the order with prompt left consumes at least one token. */
  ghost predicate EveryPrefillMoves(slots: seq<Slot>, order: seq<nat>, consumed: seq<(nat, nat)>) {
    forall i :: 0 <= i < |order| && order[i] < |slots| && PrefillReady(slots[order[i]]) ==> Taken(consumed, order[i]) > 0
  }

  /** No slot of the order gets more than a chunk, or than an armed stop allows, and with room left in
    * the batch (not `full`) none gets less. */
  ghost predicate Chunks(slots: seq<Slot>, order: seq<nat>, chunk: nat, consumed: seq<(nat, nat)>, full: bool) {
    forall i :: 0 <= i < |order| && order[i] < |slots| && PrefillReady(slots[order[i]]) ==>
      var most := Min(chunk, slots[order[i]].job.value.RemainingToStop());
      if full then Taken(consumed, order[i]) <= most else Taken(consumed, order[i]) == most
  }

  lemma AllChunks(slots: seq<Slot>, order: seq<nat>, cap: nat, budget: Budget, skipDecode: bool, plan: BatchPlan,
                  pre: seq<nat>, quotas: seq<nat>, decodes: nat)
    requires SharesOut(slots, order, cap, budget, skipDecode, plan, pre, quotas, decodes)
    ensures Chunks(slots, order, budget.prefillMax, plan.prefillConsumed, |plan.tokens| >= cap || (!skipDecode && decodes > 0))
  {
    var d := Demands(StopRoom(slots, pre), budget.prefillMax);
    var room := PrefillCap(cap, decodes, skipDecode, budget.mixedPrefillMax);
    forall i | 0 <= i < |order| && order[i] < |slots| && PrefillReady(slots[order[i]])
      ensures var most := Min(budget.prefillMax, slots[order[i]].job.value.RemainingToStop());
        var taken := Taken(plan.prefillConsumed, order[i]);
        taken <= most && (|plan.tokens| >= cap || (!skipDecode && decodes > 0) || taken == most)
    {
      var p :| 0 <= p < |pre| && pre[p] == order[i];
      EveryoneMet(room, d, quotas, p);
    }
  }

  lemma ChunksRelaxed(slots: seq<Slot>, order: seq<nat>, chunk: nat, consumed: seq<(nat, nat)>, full: bool, full': bool)
    requires Chunks(slots, order, chunk, consumed, full) && (full ==> full')
    ensures Chunks(slots, order, chunk, consumed, full')
  {
  }

  /** The quotas fit the batch and stop short of every armed stop. */
  lemma SplitFits(slots: seq<Slot>, pre: seq<nat>, perSlotMax: nat, room: nat, quotas: seq<nat>)
    requires Distinct(pre) && AllPrefill(slots, pre)
    requires |quotas| == |pre| && FairSplit(room, Demands(StopRoom(slots, pre), perSlotMax), quotas)
    ensures Quotas(slots, pre, quotas) && Sum(quotas) <= room
  {
  }

  lemma DecodeWithin(slots: seq<Slot>, order: seq<nat>, tokens0: seq<BatchToken>, full: bool)
    requires DecodePart(slots, order, tokens0, full)
    ensures WithinSlots(|slots|, tokens0)
  {
  }

  lemma NoneDecodes(slots: seq<Slot>, order: seq<nat>, tokens0: seq<BatchToken>, pre: seq<nat>, full: bool)
    requires DecodePart(slots, order, tokens0, full) && AllPrefill(slots, pre)
    ensures forall i :: 0 <= i < |pre| ==> Of(tokens0, pre[i]) == []
  {
    forall i | 0 <= i < |pre| ensures Of(tokens0, pre[i]) == [] {
      assert DecodeOf(slots, order, tokens0, full, pre[i]);
    }
  }

  lemma DecodeRelaxed(slots: seq<Slot>, order: seq<nat>, tokens0: seq<BatchToken>, full: bool, full': bool)
    requires DecodePart(slots, order, tokens0, full) && (full ==> full')
    ensures DecodePart(slots, order, tokens0, full')
  {
    forall id | 0 <= id < |slots| ensures DecodeOf(slots, order, tokens0, full', id) {
      assert DecodeOf(slots, order, tokens0, full, id);
    }
  }

  lemma AllMove(slots: seq<Slot>, order: seq<nat>, cap: nat, budget: Budget, skipDecode: bool, plan: BatchPlan,
                pre: seq<nat>, quotas: seq<nat>, decodes: nat)
    requires SharesOut(slots, order, cap, budget, skipDecode, plan, pre, quotas, decodes)
    requires PrefillCap(cap, decodes, skipDecode, budget.mixedPrefillMax) >= |order| && budget.prefillMax > 0
    ensures EveryPrefillMoves(slots, order, plan.prefillConsumed)
  {
    var d := Demands(StopRoom(slots, pre), budget.prefillMax);
    forall i | 0 <= i < |order| && order[i] < |slots| && PrefillReady(slots[order[i]])
      ensures Taken(plan.prefillConsumed, order[i]) > 0
    {
      var p :| 0 <= p < |pre| && pre[p] == order[i];
      EveryoneServed(PrefillCap(cap, decodes, skipDecode, budget.mixedPrefillMax), d, quotas, p);
    }
  }

  lemma NoneMove(consumed: seq<(nat, nat)>, pre: seq<nat>, quotas: seq<nat>)
    requires TookQuota(pre, quotas, |pre|, consumed) && ConsumedOnce(pre, consumed) && Sum(quotas) == 0
    ensures consumed == []
  {
    if consumed != [] {
      var e := consumed[|consumed| - 1];
      var p :| 0 <= p < |pre| && pre[p] == e.0;
      SumAtLeast(quotas, p);
    }
  }

  /** Slots that do not prefill keep what the decode pass gave them. */
  lemma OthersKeep(slots: seq<Slot>, order: seq<nat>, tokens0: seq<BatchToken>, pre: seq<nat>,
                   tokens: seq<BatchToken>, consumed: seq<(nat, nat)>, full0: bool, full: bool)
    requires AllPrefill(slots, pre) && PrefillPart(slots, tokens0, pre, tokens, consumed) && (full0 ==> full)
    ensures tokens0 == [] ==> forall id :: 0 <= id < |slots| && !PrefillReady(slots[id]) ==> Of(tokens, id) == []
    ensures DecodesAll(slots, order, tokens0, full0) ==> DecodesAll(slots, order, tokens, full)
    ensures AllWhole(slots, order, tokens0) ==> AllWhole(slots, order, tokens)
  {
    forall id | 0 <= id < |slots| && !PrefillReady(slots[id])
      ensures Of(tokens, id) == Of(tokens0, id)
    {
      assert ChunkOf(slots, tokens0, pre, tokens, consumed, id);
    }
    forall i | 0 <= i < |order| && DecodesWhole(slots, order[i], tokens0) ensures DecodesWhole(slots, order[i], tokens) {}
  }

  /** `plan_ex`: one batch. With no room for prefill, or no slot that has prompt left, every
    * quota is zero and the decode tokens are the whole plan. */
  method PlanEx(nBatch: nat, slots: seq<Slot>, order: seq<nat>, budget: Budget, skipDecode: bool) returns (plan: BatchPlan)
    requires Distinct(order)
    ensures |plan.tokens| <= Max(nBatch, 1) && plan.logitSlots == LogitIds(plan.tokens) && Runs(plan.logitSlots)
    ensures PlanOwes(slots, plan.tokens, plan.prefillConsumed, |plan.tokens| >= Max(nBatch, 1))
    ensures exists pre, quotas, decodes :: SharesOut(slots, order, Max(nBatch, 1), budget, skipDecode, plan, pre, quotas, decodes)
    ensures (skipDecode || !SomeDecode(slots, order)) && budget.prefillMax > 0 && |order| <= Max(nBatch, 1) ==>
      EveryPrefillMoves(slots, order, plan.prefillConsumed)
    ensures Chunks(slots, order, budget.prefillMax, plan.prefillConsumed,
                   |plan.tokens| >= Max(nBatch, 1) || (!skipDecode && SomeDecode(slots, order)))
    ensures skipDecode ==> forall id :: 0 <= id < |slots| && !PrefillReady(slots[id]) ==> Of(plan.tokens, id) == []
    ensures !skipDecode && budget.decodeMax >= |order| ==> DecodesAll(slots, order, plan.tokens, |plan.tokens| >= Max(nBatch, 1))
    ensures !skipDecode && budget.decodeMax >= |order| && Need(slots, order) <= Max(nBatch, 1) ==> AllWhole(slots, order, plan.tokens)
    ensures !skipDecode && SomeDecode(slots, order) && budget.decodeMax > 0 && budget.mixedPrefillMax == 0 ==>
      plan.tokens != [] && plan.prefillConsumed == []
  {
    hide PlanOwes, FairSplit, PrefillPart, DecodePart, WithinSlots, ConsumedOnce, TookQuota, Of, LogitIds, Taken, Distinct,
      DecodesAll, SomeDecode, AllPrefill, EveryPrefillMoves, Sum, Quotas, Runs, Need, AllWhole, Chunks;
    var cap := Max(nBatch, 1);
    var tokens0, ids0, decodeSlots := [], [], 0;
    NothingDecoded(slots, order, false);
    if !skipDecode {
      tokens0, ids0, decodeSlots := DecodePass(cap, slots, order, budget.decodeMax);
    }
    var pre := PrefillSlots(slots, order);
    var room := PrefillCap(cap, |tokens0|, skipDecode, budget.mixedPrefillMax);
    var quotas := SplitPrefillQuota(room, budget.prefillMax, StopRoom(slots, pre));
    SplitFits(slots, pre, budget.prefillMax, room, quotas);
    DecodeWithin(slots, order, tokens0, |tokens0| >= cap);
    NoneDecodes(slots, order, tokens0, pre, |tokens0| >= cap);
    var tokens, ids, consumed := PrefillPass(slots, tokens0, ids0, pre, quotas);
    plan := BatchPlan(tokens, ids, consumed);
    DecodeRelaxed(slots, order, tokens0, |tokens0| >= cap, |tokens| >= cap);
    PlanComplete(slots, order, tokens0, pre, tokens, consumed, |tokens| >= cap);
    assert SharesOut(slots, order, cap, budget, skipDecode, plan, pre, quotas, |tokens0|);
    AllChunks(slots, order, cap, budget, skipDecode, plan, pre, quotas, |tokens0|);
    ChunksRelaxed(slots, order, budget.prefillMax, consumed, |tokens| >= cap || (!skipDecode && |tokens0| > 0),
                  |tokens| >= cap || (!skipDecode && SomeDecode(slots, order)));
    if room >= |order| && budget.prefillMax > 0 {
      AllMove(slots, order, cap, budget, skipDecode, plan, pre, quotas, |tokens0|);
    }
    if room == 0 { NoneMove(consumed, pre, quotas); }
    OthersKeep(slots, order, tokens0, pre, tokens, consumed, |tokens0| >= cap, |tokens| >= cap);
  }
}
