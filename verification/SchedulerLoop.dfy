/** The planning loop over whole runs: every prompt token exactly once, and nobody waits forever. */
module SchedulerLoop {
  import opened Common
  import opened BatchPlanner
  import opened PlanRuns
  import BindPath

  datatype MixMode = Auto | PrefillOnly

  predicate HoldsPrompt(s: Slot) { s.phase.Prefilling? && s.job.Some? }

  /** Longest prompt remainder among the prefilling slots. */
  function MaxPrefillRemaining(slots: seq<Slot>): (m: nat)
    ensures forall i :: 0 <= i < |slots| && HoldsPrompt(slots[i]) ==> slots[i].job.value.Remaining() <= m
    ensures m > 0 ==> exists i :: 0 <= i < |slots| && PrefillReady(slots[i]) && slots[i].job.value.Remaining() == m
  {
    if slots == [] then 0
    else
      var n := |slots| - 1;
      var m := MaxPrefillRemaining(slots[..n]);
      assert m > 0 ==> exists i :: 0 <= i < n && PrefillReady(slots[..n][i]) && slots[..n][i].job.value.Remaining() == m;
      assert slots[..n] + [slots[n]] == slots;
      if HoldsPrompt(slots[n]) then Max(m, slots[n].job.value.Remaining()) else m
  }

  predicate HasPendingDecode(slots: seq<Slot>) {
    exists i :: 0 <= i < |slots| && DecodeReady(slots[i])
  }

  /** The budget for a context with `nParallel` slots. */
  function ForContext(nBatch: nat, nUbatch: nat, nParallel: nat): (b: Budget)
    ensures b.prefillMax > 0 && b.decodeMax >= nParallel && b.mixedPrefillMax == 0
    ensures nParallel > 1 ==> b.yieldEvery == 16 && 0 < b.yieldMax <= b.prefillMax == Max(nUbatch, 1) && b.yieldMax <= 256
    ensures nParallel <= 1 ==> b.yieldEvery == 0 && b.prefillMax >= nBatch && b.prefillMax >= nUbatch
  {
    var ub: nat := Max(nUbatch, 1);
    var shared := nParallel > 1;
    Budget(if shared then ub else Max(nBatch, ub), Max(nParallel, 1), 0,
           if shared then 16 else 0, if shared then Min(256, ub) else 0)
  }

  /** A budget the server was given, cut to the batch; without one, the context's own. */
  function ResolveBudget(requested: Option<Budget>, nBatch: nat, nUbatch: nat, nParallel: nat): (b: Budget)
    ensures requested.None? ==> b == ForContext(nBatch, nUbatch, nParallel)
    ensures requested.Some? ==>
      && 0 < b.prefillMax <= Max(nBatch, 1) && 0 < b.decodeMax && b.mixedPrefillMax <= nBatch && b.yieldMax <= nBatch
    ensures requested.Some? ==>
      var r := requested.value;
      && (0 < r.prefillMax <= nBatch ==> b.prefillMax == r.prefillMax) && (0 < r.decodeMax ==> b.decodeMax == r.decodeMax)
      && (r.mixedPrefillMax <= nBatch ==> b.mixedPrefillMax == r.mixedPrefillMax)
      && (r.yieldMax <= nBatch ==> b.yieldMax == r.yieldMax) && b.yieldEvery == r.yieldEvery
  {
    if requested.None? then ForContext(nBatch, nUbatch, nParallel)
    else
      var r := requested.value;
      Budget(Max(Min(r.prefillMax, nBatch), 1), Max(r.decodeMax, 1), Min(r.mixedPrefillMax, nBatch), r.yieldEvery, Min(r.yieldMax, nBatch))
  }

  function FinishThreshold(b: Budget): nat { b.prefillMax * 2 }

  function YieldChunk(b: Budget, remaining: nat): nat {
    if remaining <= FinishThreshold(b) then b.prefillMax
    else if b.yieldMax > 0 then b.yieldMax
    else b.prefillMax
  }

  function DecideMixMode(slots: seq<Slot>, b: Budget, sinceYield: nat): MixMode {
    var remaining := MaxPrefillRemaining(slots);
    if remaining == 0 || !HasPendingDecode(slots) then Auto
    else if remaining <= FinishThreshold(b) then PrefillOnly
    else if b.yieldEvery > 0 && sinceYield >= b.yieldEvery then PrefillOnly
    else Auto
  }

  // ---------------------------------------------------------------- whose turn an iteration is

  /** Somebody decodes, and two chunks finish whatever is left to prefill. */
  ghost predicate ShortRest(slots: seq<Slot>, b: Budget) {
    HasPendingDecode(slots) && 0 < MaxPrefillRemaining(slots) <= 2 * b.prefillMax
  }

  /** Somebody decodes, there is more left to prefill, and it waited its turns. */
  ghost predicate LongDue(slots: seq<Slot>, b: Budget, sinceYield: nat) {
    HasPendingDecode(slots) && MaxPrefillRemaining(slots) > 2 * b.prefillMax && 0 < b.yieldEvery <= sinceYield
  }

  /** A batch of prompt tokens alone, in chunks of `chunk`, in which every slot of the order moves. */
  ghost predicate Dedicated(slots: seq<Slot>, order: seq<nat>, cap: nat, chunk: nat, plan: BatchPlan) {
    && NobodyDecodes(slots, plan.tokens)
    && Chunks(slots, order, chunk, plan.prefillConsumed, |plan.tokens| >= cap)
    && (chunk > 0 && |order| <= cap ==> EveryPrefillMoves(slots, order, plan.prefillConsumed))
  }

  /** The batch of an iteration: a short rest goes at once and in full chunks, a long one that is due
    * in yield chunks, and else whoever decodes is served. */
  ghost predicate TurnKept(slots: seq<Slot>, order: seq<nat>, cap: nat, b: Budget, sinceYield: nat, plan: BatchPlan) {
    && (ShortRest(slots, b) ==> Dedicated(slots, order, cap, b.prefillMax, plan))
    && (LongDue(slots, b, sinceYield) ==> Dedicated(slots, order, cap, if b.yieldMax > 0 then b.yieldMax else b.prefillMax, plan))
    && (!ShortRest(slots, b) && !LongDue(slots, b, sinceYield) && b.decodeMax >= |order| ==>
          DecodesAll(slots, order, plan.tokens, |plan.tokens| >= cap)
          && (Need(slots, order) <= cap ==> AllWhole(slots, order, plan.tokens)))
  }

  lemma TurnIsMode(slots: seq<Slot>, b: Budget, sinceYield: nat)
    ensures ShortRest(slots, b) || LongDue(slots, b, sinceYield) <==> DecideMixMode(slots, b, sinceYield).PrefillOnly?
    ensures ShortRest(slots, b) ==> YieldChunk(b, MaxPrefillRemaining(slots)) == b.prefillMax
    ensures LongDue(slots, b, sinceYield) ==>
      YieldChunk(b, MaxPrefillRemaining(slots)) == (if b.yieldMax > 0 then b.yieldMax else b.prefillMax)
    ensures !(ShortRest(slots, b) && LongDue(slots, b, sinceYield))
  {
    hide MaxPrefillRemaining, HasPendingDecode;
  }

  // ---------------------------------------------------------------- one slot over a run

  /** The prefill a whole run owes a prompt bound with `offset` tokens reused, after `k` tokens:
    * each token once, in order, at its own position, with logits only on the last. */
  function Feed(prompt: seq<Token>, offset: nat, k: nat, id: nat): (f: seq<BatchToken>)
    requires offset + k <= |prompt|
    ensures |f| == k
    ensures forall i :: 0 <= i < k ==>
      f[i] == BatchToken(prompt[offset + i], offset + i, id, offset + i + 1 == |prompt|)
  {
    if k == 0 then []
    else Feed(prompt, offset, k - 1, id) + [BatchToken(prompt[offset + k - 1], offset + k - 1, id, offset + k == |prompt|)]
  }

  /** What was prefilled for the job a slot holds, from its bind to now. */
  ghost predicate SlotRight(s: Slot, id: nat, fed: seq<BatchToken>) {
    if s.phase.Empty? then s.job.None? && fed == []
    else
      && s.job.Some?
      && var j := s.job.value;
      && j.Cursor() <= |j.prompt|
      && fed == Feed(j.prompt, j.promptOffset, j.promptPos, id)
      && (s.phase.Prefilling? ==> Midway(s))
      && (s.phase.Decoding? ==> j.Remaining() == 0)
  }

  lemma FeedGrows(j: PlanJob, take: nat, id: nat)
    requires take <= j.Remaining() && j.nPast == j.Cursor() <= |j.prompt|
    ensures Feed(j.prompt, j.promptOffset, j.promptPos + take, id) == Feed(j.prompt, j.promptOffset, j.promptPos, id) + PrefillSeg(j, id, take)
  {
  }

  /** A planned and applied iteration keeps the record of a slot's prefill exact. */
  lemma SlotAdvances(s: Slot, id: nat, fed: seq<BatchToken>, tokens: seq<BatchToken>, consumed: seq<(nat, nat)>, full: bool)
    requires SlotRight(s, id, fed) && PlannedFor(s, id, tokens, consumed, full)
    ensures SlotRight(After(s, Taken(consumed, id), Of(tokens, id)), id, if PrefillReady(s) then fed + Of(tokens, id) else fed)
  {
    if PrefillReady(s) {
      FeedGrows(s.job.value, Taken(consumed, id), id);
      assert Taken(consumed, id) == 0 ==> fed + Of(tokens, id) == fed;
    }
  }

  // ---------------------------------------------------------------- snapshots over a run

  /** A stop armed at the bind: still armed ahead of the cursor, snapshotted once the cursor is there. */
  ghost predicate StopKept(j: PlanJob, stop: Option<nat>, left: Option<nat>, caught: seq<nat>) {
    stop.Some? && j.promptOffset < stop.value ==>
      stop.value <= |j.prompt| && if stop.value <= j.Cursor() then stop.value in caught else left == stop
  }

  /** The snapshots of a slot's present job, by length, under the stops its bind armed. */
  ghost predicate CaughtRight(s: Slot, armed: (Option<nat>, Option<nat>), caught: seq<nat>) {
    if s.phase.Empty? || s.job.None? then caught == []
    else
      && var j := s.job.value;
      && (forall a, b :: 0 <= a < b < |caught| ==> caught[a] < caught[b])
      && (forall a :: 0 <= a < |caught| ==> j.promptOffset < caught[a] <= j.Cursor())
      && StopKept(j, armed.0, j.prefillStop, caught) && StopKept(j, armed.1, j.preGenStop, caught)
  }

  ghost function Caught(caught: seq<nat>, c: Option<Capture>): seq<nat> {
    if c.Some? then caught + [c.value.nTokens] else caught
  }

  /** A chunk snapshots behind everything snapshotted so far, and at any stop it reaches. */
  lemma CaughtAdvances(s: Slot, id: nat, fed: seq<BatchToken>, armed: (Option<nat>, Option<nat>), caught: seq<nat>, take: nat,
                       nUbatch: nat, c: Option<Capture>, toks: seq<BatchToken>)
    requires SlotRight(s, id, fed) && CaughtRight(s, armed, caught) && CapturedAt(s, take, nUbatch, c)
    requires take > 0 ==> PrefillReady(s) && take <= s.job.value.RemainingToStop()
    requires take == 0 ==> c.None?
    ensures CaughtRight(After(s, take, toks), armed, Caught(caught, c))
  {
    var caught' := Caught(caught, c);
    assert forall a :: 0 <= a < |caught| ==> caught'[a] == caught[a];
    assert c.Some? ==> caught'[|caught|] == c.value.nTokens;
    if take > 0 {
      var j, j' := s.job.value, After(s, take, toks).job.value;
      assert Midway(s) && j'.Cursor() == j.Cursor() + take && j'.nPast == j'.Cursor();
      StopsAreHit(s, take, nUbatch, c);
      StopStays(s, take, nUbatch, c, armed.0, caught);
      StopStays(s, take, nUbatch, c, armed.1, caught);
    }
  }

  lemma StopStays(s: Slot, take: nat, nUbatch: nat, c: Option<Capture>, stop: Option<nat>, caught: seq<nat>)
    requires Midway(s) && 0 < take <= s.job.value.RemainingToStop() && CaptureRight(s.job.value, take, nUbatch, c)
    ensures StopKept(s.job.value, stop, s.job.value.prefillStop, caught) ==>
      StopKept(Moved(s, take).job.value, stop, Moved(s, take).job.value.prefillStop, Caught(caught, c))
    ensures StopKept(s.job.value, stop, s.job.value.preGenStop, caught) ==>
      StopKept(Moved(s, take).job.value, stop, Moved(s, take).job.value.preGenStop, Caught(caught, c))
  {
    assert c.Some? ==> Caught(caught, c)[|caught|] == c.value.nTokens;
    assert forall n :: n in caught ==> n in Caught(caught, c);
  }

  ghost predicate AllCaught(slots: seq<Slot>, armed: seq<(Option<nat>, Option<nat>)>, caught: seq<seq<nat>>) {
    |slots| == |armed| == |caught| && forall i :: 0 <= i < |slots| ==> CaughtRight(slots[i], armed[i], caught[i])
  }

  ghost function CaughtAll(caught: seq<seq<nat>>, captures: map<nat, Capture>): seq<seq<nat>> {
    seq(|caught|, i requires 0 <= i < |caught| => Caught(caught[i], Lookup(captures, i)))
  }

  lemma AllCaughtAdvance(was: seq<Slot>, now: seq<Slot>, fed: seq<seq<BatchToken>>, armed: seq<(Option<nat>, Option<nat>)>,
                         caught: seq<seq<nat>>, plan: BatchPlan, captures: map<nat, Capture>, nUbatch: nat, full: bool)
    requires SlotsRight(was, fed) && PlanOwes(was, plan.tokens, plan.prefillConsumed, full) && AllCaught(was, armed, caught)
    requires DecodesApplied(was, now, plan.prefillConsumed, plan.tokens) && Captured(was, plan.prefillConsumed, captures, nUbatch)
    ensures AllCaught(now, armed, CaughtAll(caught, captures))
  {
    hide SlotRight, CaughtRight, Of, Taken, After, CaptureRight;
    forall i | 0 <= i < |was| ensures CaughtRight(now[i], armed[i], CaughtAll(caught, captures)[i]) {
      assert PlannedFor(was[i], i, plan.tokens, plan.prefillConsumed, full);
      assert CapturedAt(was[i], Taken(plan.prefillConsumed, i), nUbatch, Lookup(captures, i));
      CaughtAdvances(was[i], i, fed[i], armed[i], caught[i], Taken(plan.prefillConsumed, i), nUbatch, Lookup(captures, i), Of(plan.tokens, i));
    }
  }

  /** The stops a bind armed ahead of its position are snapshotted exactly once each, at their length,
    * when the cursor gets there. */
  ghost predicate StopsCaught(j: PlanJob, armed: (Option<nat>, Option<nat>), caught: seq<nat>) {
    && (forall a, b :: 0 <= a < b < |caught| ==> caught[a] != caught[b])
    && (forall b :: (armed.0 == Some(b) || armed.1 == Some(b)) && j.promptOffset < b ==> b <= |j.prompt| && (b in caught <==> b <= j.Cursor()))
  }

  // ---------------------------------------------------------------- waiting

  /** How long a slot with prompt left has gone without a token. */
  function Idle(s: Slot, idle: nat, take: nat): nat {
    if PrefillReady(s) && take == 0 then idle + 1 else 0
  }

  /** Decode-only iterations since the last prefill-only one, while both phases were active. */
  function NextSinceYield(slots: seq<Slot>, b: Budget, sinceYield: nat): nat {
    if DecideMixMode(slots, b, sinceYield).PrefillOnly? then 0
    else if MaxPrefillRemaining(slots) > 0 && HasPendingDecode(slots) then sinceYield + 1
    else 0
  }

  /** Iterations in a row that decoded and prefilled nothing. */
  function NextDecodeRun(plan: BatchPlan, run: nat): nat {
    if plan.tokens != [] && plan.prefillConsumed == [] then run + 1 else 0
  }

  /** The order ranks every active slot once. */
  ghost predicate Covers(slots: seq<Slot>, order: seq<nat>) {
    && Distinct(order) && |order| <= |slots|
    && forall i :: 0 <= i < |slots| && !slots[i].phase.Empty? ==> i in order
  }

  /** What the loop relies on from one planned iteration. */
  ghost predicate Planned(slots: seq<Slot>, order: seq<nat>, skip: bool, plan: BatchPlan) {
    && (skip || !SomeDecode(slots, order) ==> EveryPrefillMoves(slots, order, plan.prefillConsumed))
    && (!skip && SomeDecode(slots, order) ==> plan.tokens != [] && plan.prefillConsumed == [])
  }

  lemma PendingIsRanked(slots: seq<Slot>, order: seq<nat>)
    requires Covers(slots, order)
    ensures HasPendingDecode(slots) <==> SomeDecode(slots, order)
  {
    if HasPendingDecode(slots) {
      var i :| 0 <= i < |slots| && DecodeReady(slots[i]);
      var p :| 0 <= p < |order| && order[p] == i;
    }
  }

  /** A slot that consumes nothing saw the yield counter grow, and that stops at the yield. */
  lemma NobodyOvertaken(slots: seq<Slot>, order: seq<nat>, b: Budget, sinceYield: nat, plan: BatchPlan, id: nat, idle: nat)
    requires Covers(slots, order) && id < |slots| && idle <= sinceYield <= 16
    requires |slots| > 1 ==> b.yieldEvery == 16
    requires Planned(slots, order, DecideMixMode(slots, b, sinceYield).PrefillOnly?, plan)
    ensures Idle(slots[id], idle, Taken(plan.prefillConsumed, id)) <= NextSinceYield(slots, b, sinceYield) <= 16
  {
    PendingIsRanked(slots, order);
    SharedWhenBoth(slots);
    if PrefillReady(slots[id]) {
      var p :| 0 <= p < |order| && order[p] == id;
    }
  }

  lemma SharedWhenBoth(slots: seq<Slot>)
    ensures MaxPrefillRemaining(slots) > 0 && HasPendingDecode(slots) ==> |slots| > 1
  {
  }

  lemma RunCovers(slots: seq<Slot>, order: seq<nat>, b: Budget, sinceYield: nat, plan: BatchPlan, run: nat)
    requires Covers(slots, order) && sinceYield <= run
    requires Planned(slots, order, DecideMixMode(slots, b, sinceYield).PrefillOnly?, plan)
    ensures NextSinceYield(slots, b, sinceYield) <= NextDecodeRun(plan, run)
  {
    PendingIsRanked(slots, order);
  }

  /** No decoding slot is in the batch. */
  ghost predicate NobodyDecodes(slots: seq<Slot>, tokens: seq<BatchToken>) {
    forall id :: 0 <= id < |slots| && DecodeReady(slots[id]) ==> Of(tokens, id) == []
  }

  /** With no drafts, and room in the batch for every slot, a batch never splits the decoding slots. */
  lemma {:induction false} PlainNeed(slots: seq<Slot>, order: seq<nat>)
    requires forall id :: 0 <= id < |slots| && DecodeReady(slots[id]) ==> slots[id].job.value.drafts == []
    ensures Need(slots, order) <= |order|
  {
    if order != [] { PlainNeed(slots, order[..|order| - 1]); }
  }

  /** One slot across an iteration: it consumes prompt tokens, or it waits one more turn. */
  ghost predicate StepOf(s: Slot, s': Slot, idle: nat, idle': nat) {
    PrefillReady(s) ==>
      && s'.job.Some? && s'.job.value.prompt == s.job.value.prompt && s'.job.value.promptOffset == s.job.value.promptOffset
      && !s'.phase.Empty?
      && ((s'.job.value.Remaining() < s.job.value.Remaining() && idle' == 0) || (s' == s && idle' == idle + 1))
  }

  /** One slot across an iteration that is for a short rest: prompts move, decodes wait. */
  ghost predicate ShortStep(s: Slot, s': Slot) {
    && (DecodeReady(s) ==> s' == s)
    && (PrefillReady(s) ==> s'.job.Some? && s'.job.value.Remaining() < s.job.value.Remaining())
    && (PrefillReady(s') ==> PrefillReady(s))
  }

  lemma ShortMoves(was: seq<Slot>, now: seq<Slot>, order: seq<nat>, cap: nat, chunk: nat, plan: BatchPlan, full: bool)
    requires Covers(was, order) && Dedicated(was, order, cap, chunk, plan) && 0 < chunk && |order| <= cap
    requires PlanOwes(was, plan.tokens, plan.prefillConsumed, full)
    requires DecodesApplied(was, now, plan.prefillConsumed, plan.tokens)
    ensures |now| == |was| && forall i :: 0 <= i < |was| ==> ShortStep(was[i], now[i])
  {
    hide Of, Taken, Chunks;
    forall i | 0 <= i < |was| ensures ShortStep(was[i], now[i]) {
      assert PlannedFor(was[i], i, plan.tokens, plan.prefillConsumed, full);
      if PrefillReady(was[i]) {
        var p :| 0 <= p < |order| && order[p] == i;
      }
    }
  }

  /** With every prefill moved on and none begun, the longest remainder is shorter. */
  lemma MaxFalls(was: seq<Slot>, now: seq<Slot>)
    requires |now| == |was| && forall i :: 0 <= i < |was| ==> ShortStep(was[i], now[i])
    ensures MaxPrefillRemaining(was) > 0 ==> MaxPrefillRemaining(now) < MaxPrefillRemaining(was)
  {
    if MaxPrefillRemaining(now) > 0 {
      var i :| 0 <= i < |now| && PrefillReady(now[i]) && now[i].job.value.Remaining() == MaxPrefillRemaining(now);
      assert HoldsPrompt(was[i]);
    }
  }

  /** A slot whose decode waits for short rests: it is as it was, or goes on with its job. */
  ghost predicate Waits(s: Slot, s': Slot) {
    (DecodeReady(s) ==> s' == s) && SameJob(s, s')
  }

  ghost predicate AllWait(was: seq<Slot>, now: seq<Slot>) {
    |now| == |was| && forall i :: 0 <= i < |was| ==> Waits(was[i], now[i])
  }

  lemma WaitsAtFirst(was: seq<Slot>)
    ensures AllWait(was, was)
  {
  }

  lemma SampledWaits(was: seq<Slot>, a: seq<Slot>, b: seq<Slot>)
    requires AllWait(was, a) && |b| == |was| && forall i :: 0 <= i < |was| ==> Sampled(was[i], a[i], b[i])
    ensures AllWait(was, b)
  {
    forall i | 0 <= i < |was| ensures Waits(was[i], b[i]) {
      assert Waits(was[i], a[i]);
    }
  }

  lemma ShortWaits(was: seq<Slot>, a: seq<Slot>, b: seq<Slot>)
    requires AllWait(was, a) && |b| == |was| && forall i :: 0 <= i < |was| ==> ShortStep(a[i], b[i]) && SameJob(a[i], b[i])
    ensures AllWait(was, b)
  {
    forall i | 0 <= i < |was| ensures Waits(was[i], b[i]) {
      assert Waits(was[i], a[i]);
    }
  }

  lemma StaysShort(was: seq<Slot>, now: seq<Slot>, b: Budget)
    requires ShortRest(was, b) && AllWait(was, now) && 0 < MaxPrefillRemaining(now) <= MaxPrefillRemaining(was)
    ensures ShortRest(now, b)
  {
    hide MaxPrefillRemaining;
    var i :| 0 <= i < |was| && DecodeReady(was[i]);
    assert Waits(was[i], now[i]);
  }

  /** Slots that started to decode may have had their first tokens sampled and drafts proposed. */
  ghost predicate Sampled(was: Slot, s: Slot, s': Slot) {
    s' == s || (s.phase.Decoding? && s'.phase.Decoding? && !DecodeReady(was) && SameJob(s, s'))
  }

  lemma SampledMax(was: seq<Slot>, a: seq<Slot>, b: seq<Slot>)
    requires |a| == |b| == |was| && forall i :: 0 <= i < |a| ==> Sampled(was[i], a[i], b[i])
    ensures MaxPrefillRemaining(a) == MaxPrefillRemaining(b)
  {
    if MaxPrefillRemaining(a) > 0 {
      var i :| 0 <= i < |a| && PrefillReady(a[i]) && a[i].job.value.Remaining() == MaxPrefillRemaining(a);
      assert HoldsPrompt(b[i]);
    }
    if MaxPrefillRemaining(b) > 0 {
      var i :| 0 <= i < |b| && PrefillReady(b[i]) && b[i].job.value.Remaining() == MaxPrefillRemaining(b);
      assert HoldsPrompt(a[i]);
    }
  }

  ghost predicate SlotsRight(slots: seq<Slot>, fed: seq<seq<BatchToken>>) {
    |slots| == |fed| && forall i :: 0 <= i < |slots| ==> SlotRight(slots[i], i, fed[i])
  }

  ghost predicate Patient(idle: seq<nat>, bound: nat) {
    forall i :: 0 <= i < |idle| ==> idle[i] <= bound
  }

  ghost function Fed(slots: seq<Slot>, fed: seq<seq<BatchToken>>, tokens: seq<BatchToken>): seq<seq<BatchToken>>
    requires |fed| == |slots|
  {
    seq(|fed|, i requires 0 <= i < |fed| => if PrefillReady(slots[i]) then fed[i] + Of(tokens, i) else fed[i])
  }

  ghost function Idled(slots: seq<Slot>, idle: seq<nat>, consumed: seq<(nat, nat)>): seq<nat>
    requires |idle| == |slots|
  {
    seq(|idle|, i requires 0 <= i < |idle| => Idle(slots[i], idle[i], Taken(consumed, i)))
  }

  lemma AllAdvance(was: seq<Slot>, now: seq<Slot>, fed: seq<seq<BatchToken>>, plan: BatchPlan, full: bool)
    requires SlotsRight(was, fed) && PlanOwes(was, plan.tokens, plan.prefillConsumed, full)
    requires DecodesApplied(was, now, plan.prefillConsumed, plan.tokens)
    ensures SlotsRight(now, Fed(was, fed, plan.tokens))
  {
    forall i | 0 <= i < |was| ensures SlotRight(now[i], i, Fed(was, fed, plan.tokens)[i]) {
      assert PlannedFor(was[i], i, plan.tokens, plan.prefillConsumed, full);
      SlotAdvances(was[i], i, fed[i], plan.tokens, plan.prefillConsumed, full);
    }
  }

  lemma AllStep(was: seq<Slot>, now: seq<Slot>, idle: seq<nat>, plan: BatchPlan, full: bool)
    requires |idle| == |was| && PlanOwes(was, plan.tokens, plan.prefillConsumed, full)
    requires DecodesApplied(was, now, plan.prefillConsumed, plan.tokens)
    ensures |now| == |was|
    ensures forall i :: 0 <= i < |was| ==> StepOf(was[i], now[i], idle[i], Idled(was, idle, plan.prefillConsumed)[i])
  {
    forall i | 0 <= i < |was| ensures StepOf(was[i], now[i], idle[i], Idled(was, idle, plan.prefillConsumed)[i]) {
      assert PlannedFor(was[i], i, plan.tokens, plan.prefillConsumed, full);
    }
  }

  lemma AllBounded(was: seq<Slot>, order: seq<nat>, b: Budget, sinceYield: nat, plan: BatchPlan, idle: seq<nat>)
    requires Covers(was, order) && |idle| == |was| && Patient(idle, sinceYield) && sinceYield <= 16
    requires |was| > 1 ==> b.yieldEvery == 16
    requires Planned(was, order, DecideMixMode(was, b, sinceYield).PrefillOnly?, plan)
    ensures Patient(Idled(was, idle, plan.prefillConsumed), NextSinceYield(was, b, sinceYield))
    ensures NextSinceYield(was, b, sinceYield) <= 16
  {
    PendingIsRanked(was, order);
    SharedWhenBoth(was);
    forall i | 0 <= i < |was|
      ensures Idled(was, idle, plan.prefillConsumed)[i] <= NextSinceYield(was, b, sinceYield)
    {
      NobodyOvertaken(was, order, b, sinceYield, plan, i, idle[i]);
    }
  }

  lemma FedLength(slots: seq<Slot>, fed: seq<seq<BatchToken>>)
    requires SlotsRight(slots, fed)
    ensures |fed| == |slots|
  {
  }

  lemma RightIsMidway(slots: seq<Slot>, fed: seq<seq<BatchToken>>)
    requires SlotsRight(slots, fed)
    ensures AllMidway(slots)
  {
    forall i | 0 <= i < |slots| && PrefillReady(slots[i]) ensures Midway(slots[i]) {
      assert SlotRight(slots[i], i, fed[i]);
    }
  }

  /** What a text bind arms is what the planner may rely on: the two stops never shadow each other. */
  lemma BindArmsStops(prompt: seq<Token>, reused: nat, demand: Option<nat>, recurrent: bool)
    requires reused < |prompt|
    ensures Armed(PlanJob(prompt, reused, 0, reused, None, [], BindPath.ArmedStop(demand, reused, |prompt|),
                          if recurrent then Some(|prompt| - 1) else None, false))
  {
  }

  /** The slot goes on with the job it has. */
  ghost predicate SameJob(s: Slot, s': Slot) {
    s.job.Some? && !s.phase.Empty? ==>
      s'.job.Some? && !s'.phase.Empty? && s'.job.value.prompt == s.job.value.prompt && s'.job.value.promptOffset == s.job.value.promptOffset
  }

  lemma AllGoOn(was: seq<Slot>, now: seq<Slot>, plan: BatchPlan)
    requires DecodesApplied(was, now, plan.prefillConsumed, plan.tokens)
    ensures |now| == |was| && forall i :: 0 <= i < |was| ==> SameJob(was[i], now[i])
  {
    hide Taken, Of;
    forall i | 0 <= i < |was| ensures SameJob(was[i], now[i]) {
      assert now[i] == After(was[i], Taken(plan.prefillConsumed, i), Of(plan.tokens, i));
    }
  }

  /** A job just bound has nothing fed and nothing snapshotted. */
  lemma FreshRight(job: PlanJob, id: nat)
    requires job.promptPos == 0 && job.nPast == job.promptOffset < |job.prompt| && Armed(job) && !job.generating
    ensures SlotRight(Slot(Prefilling, Some(job)), id, [])
    ensures CaughtRight(Slot(Prefilling, Some(job)), (job.prefillStop, job.preGenStop), [])
  {
  }

  /** The planning half of the scheduler loop. */
  class Loop {
    const slots: array<Slot>
    const nBatch: nat
    const nUbatch: nat
    const budget: Budget
    var sinceYield: nat
    /** Per slot: prefill tokens decoded for its present job. */
    ghost var fed: seq<seq<BatchToken>>
    /** Per slot: consecutive iterations with prompt left and no token consumed. */
    ghost var idle: seq<nat>
    ghost var decodeRun: nat
    /** Iterations so far. */
    ghost var turns: nat
    /** Per slot: the stops its bind armed, and the lengths of the snapshots taken since. */
    ghost var armed: seq<(Option<nat>, Option<nat>)>
    ghost var caught: seq<seq<nat>>

    /** What holds under any budget: every slot's prefill is on record exactly, and its snapshots. */
    ghost predicate Exact()
      reads this, slots
    {
      |idle| == slots.Length && SlotsRight(slots[..], fed) && AllCaught(slots[..], armed, caught)
    }

    /** With the context's own budget, and room for every slot in a batch, nobody waits long. */
    ghost predicate Valid()
      reads this, slots
    {
      && Exact() && budget == ForContext(nBatch, nUbatch, slots.Length) && slots.Length <= Max(nBatch, 1)
      && Patient(idle, sinceYield) && sinceYield <= 16 && sinceYield <= decodeRun
    }

    constructor (nBatch: nat, nUbatch: nat, nParallel: nat, requested: Option<Budget>)
      ensures Exact() && fresh(slots) && slots.Length == nParallel && this.nBatch == nBatch && this.nUbatch == nUbatch
      ensures budget == ResolveBudget(requested, nBatch, nUbatch, nParallel)
      ensures requested.None? && nParallel <= Max(nBatch, 1) ==> Valid()
    {
      this.nBatch, this.nUbatch, sinceYield := nBatch, nUbatch, 0;
      budget := ResolveBudget(requested, nBatch, nUbatch, nParallel);
      slots := new Slot[nParallel](_ => Slot(Empty, None));
      fed, idle, decodeRun, turns := seq(nParallel, _ => []), seq(nParallel, _ => 0), 0, 0;
      armed, caught := seq(nParallel, _ => (None, None)), seq(nParallel, _ => []);
    }

    /** `occupy`: an empty slot takes a job whose first `promptOffset` tokens are resident. */
    method Bind(i: nat, job: PlanJob)
      requires Exact() && i < slots.Length && slots[i].phase.Empty?
      requires job.promptPos == 0 && job.nPast == job.promptOffset < |job.prompt| && Armed(job) && !job.generating
      modifies this`fed, this`idle, this`armed, this`caught, slots
      ensures Exact() && (old(Valid()) ==> Valid()) && slots[i] == Slot(Prefilling, Some(job)) && fed == old(fed)[i := []]
      ensures idle == old(idle)[i := 0] && armed == old(armed)[i := (job.prefillStop, job.preGenStop)] && caught == old(caught)[i := []]
      ensures forall k :: 0 <= k < slots.Length && k != i ==> slots[k] == old(slots[k])
    {
      FreshRight(job, i);
      hide SlotRight, CaughtRight, Midway;
      slots[i] := Slot(Prefilling, Some(job));
      fed, idle, armed, caught := fed[i := []], idle[i := 0], armed[i := (job.prefillStop, job.preGenStop)], caught[i := []];
    }

    /** A job ends, whatever for. */
    method Release(i: nat)
      requires Exact() && i < slots.Length
      modifies this`fed, this`idle, this`caught, slots
      ensures Exact() && (old(Valid()) ==> Valid())
      ensures slots[i] == Slot(Empty, None) && fed == old(fed)[i := []] && idle == old(idle)[i := 0] && caught == old(caught)[i := []]
      ensures forall k :: 0 <= k < slots.Length && k != i ==> slots[k] == old(slots[k])
    {
      slots[i] := Slot(Empty, None);
      fed, idle, caught := fed[i := []], idle[i := 0], caught[i := []];
    }

    /** A decoding slot between iterations: its verification and drafter set these. */
    method Generate(i: nat, nPast: nat, pending: Option<Token>, drafts: seq<Token>)
      requires Exact() && i < slots.Length && slots[i].phase.Decoding?
      modifies slots
      ensures Exact() && (old(Valid()) ==> Valid()) && old(slots[i]).job.Some?
      ensures slots[i] == Slot(Decoding, Some(old(slots[i]).job.value.(nPast := nPast, pending := pending, drafts := drafts)))
      ensures forall k :: 0 <= k < slots.Length && k != i ==> slots[k] == old(slots[k])
    {
      var job := slots[i].job.value;
      slots[i] := Slot(Decoding, Some(job.(nPast := nPast, pending := pending, drafts := drafts)));
    }

    /** The batch of one iteration: decode-only, prefill-only, or whatever phase there is. */
    method PlanNext(order: seq<nat>) returns (mode: MixMode, plan: BatchPlan)
      requires Distinct(order)
      modifies this`sinceYield
      ensures mode == DecideMixMode(slots[..], budget, old(sinceYield))
      ensures sinceYield == NextSinceYield(slots[..], budget, old(sinceYield))
      ensures |plan.tokens| <= Max(nBatch, 1)
      ensures PlanOwes(slots[..], plan.tokens, plan.prefillConsumed, |plan.tokens| >= Max(nBatch, 1))
      ensures budget == ForContext(nBatch, nUbatch, slots.Length) && |order| <= slots.Length <= Max(nBatch, 1) ==>
        Planned(slots[..], order, mode.PrefillOnly?, plan)
      ensures mode.PrefillOnly? ==> NobodyDecodes(slots[..], plan.tokens)
      ensures TurnKept(slots[..], order, Max(nBatch, 1), budget, old(sinceYield), plan)
    {
      hide Need, AllWhole, PlanOwes, SharesOut, EveryPrefillMoves, SomeDecode, DecodesAll, DecideMixMode, Distinct, Of, LogitIds,
        HasPendingDecode, Chunks, ShortRest, LongDue, YieldChunk, MaxPrefillRemaining;
      TurnIsMode(slots[..], budget, sinceYield);
      mode := DecideMixMode(slots[..], budget, sinceYield);
      var remaining := MaxPrefillRemaining(slots[..]);
      if mode.PrefillOnly? {
        sinceYield := 0;
        plan := PlanEx(nBatch, slots[..], order, budget.(prefillMax := YieldChunk(budget, remaining)), true);
      } else {
        if remaining > 0 && HasPendingDecode(slots[..]) {
          sinceYield := sinceYield + 1;
        } else {
          sinceYield := 0;
        }
        plan := PlanEx(nBatch, slots[..], order, budget, false);
      }
    }

    /** One iteration: choose the mode, plan the batch, apply it. Under any budget every slot's
      * prefill stays exact. */
    method Advance(order: seq<nat>) returns (mode: MixMode, captures: map<nat, Capture>, ghost plan: BatchPlan)
      requires Exact() && Distinct(order)
      modifies this, slots
      ensures Exact() && sinceYield == NextSinceYield(old(slots[..]), budget, old(sinceYield))
      ensures mode == DecideMixMode(old(slots[..]), budget, old(sinceYield))
      ensures Moves(old(slots[..]), slots[..], plan, Max(nBatch, 1), captures, nUbatch)
      ensures budget == ForContext(nBatch, nUbatch, slots.Length) && |order| <= slots.Length <= Max(nBatch, 1) ==>
        Planned(old(slots[..]), order, mode.PrefillOnly?, plan)
      ensures idle == Idled(old(slots[..]), old(idle), plan.prefillConsumed) && decodeRun == NextDecodeRun(plan, old(decodeRun))
      ensures decodeRun == if plan.tokens != [] && plan.prefillConsumed == [] then old(decodeRun) + 1 else 0
      ensures forall i :: 0 <= i < slots.Length ==> SameJob(old(slots[i]), slots[i])
      ensures armed == old(armed) && caught == CaughtAll(old(caught), captures) && turns == old(turns) + 1
      ensures TurnKept(old(slots[..]), order, Max(nBatch, 1), budget, old(sinceYield), plan)
    {
      hide Need, AllWhole, NobodyDecodes, AllCaught, SlotsRight, PlanOwes, DecodesApplied, Captured, AllMidway, DecideMixMode,
        NextSinceYield, Planned, TurnKept,
        MaxPrefillRemaining, Distinct, SameJob;
      ghost var was := slots[..];
      FedLength(was, fed);
      RightIsMidway(was, fed);
      var next;
      mode, next := PlanNext(order);
      plan := next;
      captures := ApplyPlan(slots, next, nUbatch, |next.tokens| >= Max(nBatch, 1));
      AllAdvance(was, slots[..], fed, plan, |plan.tokens| >= Max(nBatch, 1));
      AllGoOn(was, slots[..], plan);
      AllCaughtAdvance(was, slots[..], fed, armed, caught, plan, captures, nUbatch, |plan.tokens| >= Max(nBatch, 1));
      caught := CaughtAll(caught, captures);
      fed, idle, decodeRun := Fed(was, fed, plan.tokens), Idled(was, idle, plan.prefillConsumed), NextDecodeRun(plan, decodeRun);
      turns := turns + 1;
    }

    /** With the context's own budget, a slot with prompt left also moves on or waits one of at most
      * sixteen turns. */
    method Iterate(order: seq<nat>) returns (mode: MixMode, captures: map<nat, Capture>)
      requires Valid() && Covers(slots[..], order)
      modifies this, slots
      ensures Valid() && armed == old(armed) && turns == old(turns) + 1
      ensures mode == DecideMixMode(old(slots[..]), budget, old(sinceYield))
      ensures exists plan :: (
        && Moves(old(slots[..]), slots[..], plan, Max(nBatch, 1), captures, nUbatch)
        && TurnKept(old(slots[..]), order, Max(nBatch, 1), budget, old(sinceYield), plan))
      ensures ShortRest(old(slots[..]), budget) ==> forall i :: 0 <= i < slots.Length ==> ShortStep(old(slots[i]), slots[i])
      ensures forall i :: 0 <= i < slots.Length ==> SameJob(old(slots[i]), slots[i])
      ensures forall i :: 0 <= i < slots.Length ==> StepOf(old(slots[i]), slots[i], old(idle)[i], idle[i])
      ensures mode.PrefillOnly? && MaxPrefillRemaining(old(slots[..])) > FinishThreshold(budget) ==> old(decodeRun) >= 16
    {
      hide SlotsRight, Patient, Covers, PlanOwes, DecodesApplied, Captured, StepOf, DecideMixMode, NextSinceYield,
        NextDecodeRun, Planned, MaxPrefillRemaining, FinishThreshold, SameJob, Distinct, ShortRest, LongDue, Dedicated, ShortStep,
        DecodesAll, AllWhole, Need;
      ghost var was, idle0, run0 := slots[..], idle, decodeRun;
      CoversOrder(was, order);
      LongYield(was, budget, sinceYield);
      ghost var plan;
      mode, captures, plan := Advance(order);
      AllStep(was, slots[..], idle0, plan, |plan.tokens| >= Max(nBatch, 1));
      AllBounded(was, order, budget, old(sinceYield), plan, idle0);
      RunCovers(was, order, budget, old(sinceYield), plan, run0);
      if ShortRest(was, budget) {
        ShortIsShared(was, budget);
        ShortMoves(was, slots[..], order, Max(nBatch, 1), budget.prefillMax, plan, |plan.tokens| >= Max(nBatch, 1));
      }
    }

    /** Between two iterations: slots that did not decode in `was` sample and draft. */
    method Samples(was: seq<Slot>)
      requires Valid() && |was| == slots.Length
      modifies slots
      ensures Valid() && forall i :: 0 <= i < slots.Length ==> Sampled(was[i], old(slots[i]), slots[i])
    {
      hide Exact;
      var events: nat :| true;
      for e := 0 to events
        invariant Valid() && forall i :: 0 <= i < slots.Length ==> Sampled(was[i], old(slots[i]), slots[i])
      {
        var k: nat :| true;
        var nPast: nat, pending, drafts :| true;
        if k < slots.Length && slots[k].phase.Decoding? && !DecodeReady(was[k]) {
          ValidIsExact();
          Generate(k, nPast, pending, drafts);
        }
      }
    }

    lemma ValidIsExact()
      requires Valid()
      ensures Exact()
    {
    }

    /** A short rest finishes with no decode in between: one iteration after the other is for prompts,
      * until none is left, and whoever decoded at the start stands where it stood. */
    method ShortRestFinishes()
      requires Valid() && ShortRest(slots[..], budget)
      modifies this, slots
      ensures Valid() && MaxPrefillRemaining(slots[..]) == 0 && turns - old(turns) <= old(MaxPrefillRemaining(slots[..]))
      ensures forall i :: 0 <= i < slots.Length ==> Waits(old(slots[i]), slots[i])
      ensures forall i :: 0 <= i < slots.Length && PrefillReady(old(slots[i])) ==> slots[i].phase.Decoding?
    {
      hide *;
      var was := slots[..];
      WaitsAtFirst(was);
      while MaxPrefillRemaining(slots[..]) > 0
        invariant Valid() && MaxPrefillRemaining(slots[..]) + (turns - old(turns)) <= MaxPrefillRemaining(was)
        invariant AllWait(was, slots[..])
        decreases MaxPrefillRemaining(slots[..])
      {
        ghost var now := slots[..];
        Samples(was);
        ghost var sampled := slots[..];
        SampledMax(was, now, sampled);
        SampledWaits(was, now, sampled);
        StaysShort(was, sampled, budget);
        var order := Ranked();
        var mode, captures := Iterate(order);
        MaxFalls(sampled, slots[..]);
        ShortWaits(was, sampled, slots[..]);
      }
      AllEnd(was);
    }

    lemma AllEnd(was: seq<Slot>)
      requires Valid() && |was| == slots.Length && MaxPrefillRemaining(slots[..]) == 0 && AllWait(was, slots[..])
      ensures forall i :: 0 <= i < slots.Length ==> Waits(was[i], slots[i])
      ensures forall i :: 0 <= i < slots.Length && PrefillReady(was[i]) ==> slots[i].phase.Decoding?
    {
      hide MaxPrefillRemaining, Valid;
      assert forall i :: 0 <= i < slots.Length ==> Waits(was[i], slots[..][i]);
      forall i | 0 <= i < slots.Length && PrefillReady(was[i]) ensures slots[i].phase.Decoding? {
        NothingLeft(slots[..], i);
        SlotEnds(i);
      }
    }

    lemma SlotEnds(i: nat)
      requires Valid() && i < slots.Length && !PrefillReady(slots[i]) && !slots[i].phase.Empty?
      ensures slots[i].phase.Decoding?
    {
      SlotKnown(i);
    }

    lemma SlotKnown(i: nat)
      requires Valid() && i < slots.Length
      ensures i < |fed| && SlotRight(slots[i], i, fed[i]) && idle[i] <= sinceYield <= 16
    {
    }

    /** The active slots by id. */
    method Ranked() returns (order: seq<nat>)
      ensures Covers(slots[..], order) && forall p :: 0 <= p < |order| ==> order[p] < slots.Length && !slots[order[p]].phase.Empty?
    {
      order := [];
      for i := 0 to slots.Length
        invariant |order| <= i && Distinct(order)
        invariant forall p :: 0 <= p < |order| ==> order[p] < i && !slots[order[p]].phase.Empty?
        invariant forall k :: 0 <= k < i && !slots[k].phase.Empty? ==> k in order
      {
        if !slots[i].phase.Empty? { order := order + [i]; }
      }
    }

    /** Anything that happens to the other slots between two iterations. */
    method Others(i: nat)
      requires Exact() && i < slots.Length
      modifies this`fed, this`idle, this`armed, this`caught, slots
      ensures Exact() && (old(Valid()) ==> Valid()) && slots[i] == old(slots[i]) && idle[i] == old(idle[i])
      ensures |armed| == |caught| == slots.Length && i < |old(armed)| == |old(caught)| && armed[i] == old(armed[i]) && caught[i] == old(caught[i])
    {
      hide SlotsRight, SlotRight, Patient, CaughtRight;
      var events: nat :| true;
      for e := 0 to events
        invariant Exact() && (old(Valid()) ==> Valid()) && slots[i] == old(slots[i]) && idle[i] == old(idle[i])
        invariant armed[i] == old(armed[i]) && caught[i] == old(caught[i])
      {
        var k: nat :| true;
        if k < slots.Length && k != i {
          var stays: bool := *;
          if slots[k].phase.Empty? {
            var job: PlanJob :| true;
            if job.promptPos == 0 && job.nPast == job.promptOffset < |job.prompt| && Armed(job) && !job.generating {
              Bind(k, job);
            }
          } else if slots[k].phase.Decoding? && stays {
            var nPast: nat, pending, drafts :| true;
            Generate(k, nPast, pending, drafts);
          } else {
            Release(k);
          }
        }
      }
    }

    /** Under any budget, over any iterations and whatever happens to the other slots: what went
      * through the engine for a slot is its prompt behind the reused prefix, each token once and in
      * order, and all of it by the time the slot decodes. */
    method PrefillStaysExact(i: nat, orders: seq<seq<nat>>)
      requires forall r :: 0 <= r < |orders| ==> Distinct(orders[r])
      requires Exact() && i < slots.Length && slots[i].phase.Prefilling? && slots[i].job.Some?
      modifies this, slots
      ensures turns == old(turns) + |orders|
      ensures Exact() && slots[i].job.Some? && slots[i].job.value.prompt == old(slots[i].job.value.prompt)
      ensures var j := slots[i].job.value;
        && i < |fed| && j.promptOffset + |fed[i]| <= |j.prompt| && fed[i] == Feed(j.prompt, j.promptOffset, |fed[i]|, i)
        && (slots[i].phase.Decoding? ==> j.promptOffset + |fed[i]| == |j.prompt|)
      ensures i < |old(armed)| && i < |caught| && StopsCaught(slots[i].job.value, old(armed[i]), caught[i])
    {
      hide SlotsRight, SlotRight, Distinct, CaughtRight, StopsCaught;
      CaughtKnown(i);
      for r := 0 to |orders|
        invariant Exact() && slots[i].job.Some? && !slots[i].phase.Empty? && turns == old(turns) + r
        invariant slots[i].job.value.prompt == old(slots[i].job.value.prompt)
        invariant |armed| == slots.Length && armed[i] == old(armed[i])
      {
        Others(i);
        var mode, captures, plan := Advance(orders[r]);
      }
      RecordKnown(i);
      CaughtKnown(i);
    }

    lemma CaughtKnown(i: nat)
      requires Exact() && i < slots.Length && slots[i].job.Some? && !slots[i].phase.Empty?
      ensures |armed| == |caught| == slots.Length && StopsCaught(slots[i].job.value, armed[i], caught[i])
    {
      assert CaughtRight(slots[i], armed[i], caught[i]);
    }

    lemma RecordKnown(i: nat)
      requires Exact() && i < slots.Length && slots[i].job.Some? && !slots[i].phase.Empty?
      ensures var j := slots[i].job.value;
        && i < |fed| && j.promptOffset + |fed[i]| <= |j.prompt| && fed[i] == Feed(j.prompt, j.promptOffset, |fed[i]|, i)
        && (slots[i].phase.Decoding? ==> j.promptOffset + |fed[i]| == |j.prompt|)
    {
      assert SlotRight(slots[i], i, fed[i]);
    }

    /** Every prefill finishes, at most seventeen iterations a token, and by then the whole
      * prompt behind the reused prefix went through the engine once. */
    method PrefillFinishes(i: nat)
      requires Valid() && i < slots.Length && slots[i].phase.Prefilling?
      modifies this, slots
      ensures Valid() && slots[i].phase.Decoding? && turns - old(turns) <= 17 * old(slots[i].job.value.Remaining())
      ensures slots[i].job.value.prompt == old(slots[i].job.value.prompt)
      ensures var j := slots[i].job.value; j.promptOffset + |fed[i]| == |j.prompt| && fed[i] == Feed(j.prompt, j.promptOffset, |fed[i]|, i)
      ensures i < |old(armed)| && i < |caught| && StopsCaught(slots[i].job.value, old(armed[i]), caught[i])
      ensures slots[i].job.value.Cursor() == |slots[i].job.value.prompt|
    {
      hide StopsCaught;
      SlotKnown(i);
      CaughtKnown(i);
      ghost var j0 := slots[i].job.value;
      while slots[i].phase.Prefilling?
        invariant Valid() && !slots[i].phase.Empty? && slots[i].job.Some?
        invariant slots[i].job.value.prompt == j0.prompt && slots[i].job.value.promptOffset == j0.promptOffset
        invariant turns - old(turns) + 17 * slots[i].job.value.Remaining() <= 17 * j0.Remaining() + idle[i]
        invariant slots[i].phase.Decoding? ==> idle[i] == 0
        invariant |armed| == slots.Length && armed[i] == old(armed[i])
        decreases slots[i].job.value.Remaining(), 16 - idle[i]
      {
        Others(i);
        SlotKnown(i);
        var order := Ranked();
        var mode, captures := Iterate(order);
      }
      SlotKnown(i);
      CaughtKnown(i);
    }
  }

  /** The slots after an iteration are those before it moved along some plan that owes every slot
    * its share, and the snapshots are the ones that plan calls for. */
  ghost predicate Moves(was: seq<Slot>, now: seq<Slot>, plan: BatchPlan, cap: nat, captures: map<nat, Capture>, nUbatch: nat) {
    && |plan.tokens| <= cap
    && PlanOwes(was, plan.tokens, plan.prefillConsumed, |plan.tokens| >= cap)
    && DecodesApplied(was, now, plan.prefillConsumed, plan.tokens)
    && Captured(was, plan.prefillConsumed, captures, nUbatch)
  }

  lemma NothingLeft(slots: seq<Slot>, i: nat)
    requires i < |slots| && MaxPrefillRemaining(slots) == 0
    ensures !PrefillReady(slots[i])
  {
  }

  lemma ShortIsShared(slots: seq<Slot>, b: Budget)
    ensures ShortRest(slots, b) ==> b.prefillMax > 0
  {
  }

  lemma CoversOrder(slots: seq<Slot>, order: seq<nat>)
    requires Covers(slots, order)
    ensures Distinct(order) && |order| <= |slots|
  {
  }

  /** A prefill-only iteration for a prompt that is still long comes at the end of the count. */
  lemma LongYield(slots: seq<Slot>, b: Budget, sinceYield: nat)
    ensures DecideMixMode(slots, b, sinceYield).PrefillOnly? && MaxPrefillRemaining(slots) > FinishThreshold(b) ==>
      b.yieldEvery > 0 && sinceYield >= b.yieldEvery
    ensures |slots| <= 1 ==> DecideMixMode(slots, b, sinceYield).Auto?
  {
    SharedWhenBoth(slots);
  }
}
