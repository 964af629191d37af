/** Speculation over planned batches: a batch that is large enough gives every replay its room. */
module PlannedRun {
  import opened Common
  import opened SeqKvs
  import P = BatchPlanner
  import S = Speculation

  /** What else a batch is planned from: the other slots, the order and the budget. */
  datatype Round = Round(slots: seq<P.Slot>, order: seq<nat>, budget: P.Budget)

  /** Slot `id` is in the order, every slot may decode, and the batch has room for all that the other
    * slots ask for beside a pending token and `most` drafts. */
  ghost predicate RoomFor(r: Round, id: nat, nBatch: nat, most: nat) {
    && P.Distinct(r.order) && id in r.order && id < |r.slots| && r.budget.decodeMax >= |r.order|
    && P.Need(r.slots[id := P.Slot(P.Empty, None)], r.order) + 1 + most <= Max(nBatch, 1)
  }

  /** The planner's view of a decoding job. */
  function View(job: S.Job): P.Slot
    reads job
  {
    P.Slot(P.Decoding, Some(P.PlanJob(job.prompt, job.promptOffset, job.promptPos, job.nPast, job.pending, job.drafts, None, None, true)))
  }

  lemma {:induction false} NeedWith(slots: seq<P.Slot>, order: seq<nat>, id: nat, s: P.Slot)
    requires P.Distinct(order) && id < |slots| && P.Ask(slots, id) == 0
    ensures P.Need(slots[id := s], order) == P.Need(slots, order) + if id in order then P.Ask(slots[id := s], id) else 0
  {
    if order != [] {
      var n := |order| - 1;
      NeedWith(slots, order[..n], id, s);
      assert order == order[..n] + [order[n]];
      assert order[n] == id ==> id !in order[..n];
    }
  }

  /** The planned batch holds the job's pending token and every draft it carries. */
  method PlanWhole(view: P.Slot, id: nat, r: Round, nBatch: nat, ghost most: nat) returns (room: nat)
    requires RoomFor(r, id, nBatch, most) && P.DecodeReady(view) && |view.job.value.drafts| <= most
    ensures room == |view.job.value.drafts|
  {
    ghost var others := r.slots[id := P.Slot(P.Empty, None)];
    NeedWith(others, r.order, id, view);
    assert others[id := view] == r.slots[id := view];
    var plan := P.PlanEx(nBatch, r.slots[id := view], r.order, r.budget, false);
    hide P.Need, P.Of, P.DecodeSeg, P.Distinct;
    ghost var i :| 0 <= i < |r.order| && r.order[i] == id;
    assert P.DecodesWhole(r.slots[id := view], r.order[i], plan.tokens);
    room := |P.Of(plan.tokens, id)| - 1;
  }

  /** The decodes of a job from batches planned beside any other slots, with any number of iterations
    * that leave it out: exactly the plain result. */
  method Generate(job: S.Job, id: nat, rounds: nat -> Round, nBatch: nat, specNMax: nat)
    requires job.Tracks() && job.DraftsFit() && !job.isReplay && |job.drafts| <= specNMax
    requires job.finish.None? ==> job.phase.Decoding? && |job.generated| < job.maxTokens
    requires forall k :: RoomFor(rounds(k), id, nBatch, specNMax)
    modifies job, job.kv
    ensures job.Tracks() && job.finish.Some? && S.Outcome(job.generated, job.finish.value) == old(job.Result())
  {
    hide S.Plain, S.Greedy, RoomFor;
    var k := 0;
    while job.finish.None?
      invariant job.Tracks() && job.maxTokens == old(job.maxTokens) && job.ctxCap == old(job.ctxCap)
      invariant job.DraftsFit() && job.Result() == old(job.Result()) && |job.drafts| <= specNMax
      invariant job.finish.None? ==> job.phase.Decoding? && |job.generated| < job.maxTokens
      invariant job.finish.None? && job.isReplay ==> job.Confirmed()
      decreases job.maxTokens - |job.generated|, job.finish.None?, if job.Confirmed() then 0 else 1
    {
      LeftOut(job, specNMax);
      var proposal: seq<Token> := *;
      var room := PlanWhole(View(job), id, rounds(k), nBatch, specNMax);
      ghost var n := job.DecodeStep(room, proposal, specNMax);
      k := k + 1;
    }
  }

  /** Iterations without the slot: a replay keeps its drafts, others are drafted anew. */
  method LeftOut(job: S.Job, specNMax: nat)
    requires job.Tracks() && job.DraftsFit() && |job.drafts| <= specNMax && (job.isReplay ==> job.Confirmed())
    modifies job`drafts
    ensures job.Tracks() && job.DraftsFit() && |job.drafts| <= specNMax && job.Result() == old(job.Result())
    ensures job.isReplay ==> job.Confirmed()
    ensures job.Confirmed() == old(job.Confirmed())
  {
    hide S.Plain, S.Greedy;
    var times: nat :| true;
    for t := 0 to times
      invariant job.Tracks() && job.DraftsFit() && |job.drafts| <= specNMax && job.Result() == old(job.Result())
      invariant (job.isReplay ==> job.Confirmed()) && job.Confirmed() == old(job.Confirmed())
    {
      var proposal: seq<Token> := *;
      job.FillDrafts(proposal, specNMax);
    }
  }

  /** Under fixed limits a job planned into batches with room for all drafts delivers exactly what the
    * plain decoder does, whatever the drafter proposes and whoever shares the batches. */
  method Run(job: S.Job, id: nat, rounds: nat -> Round, nBatch: nat, specNMax: nat)
    requires job.Tracks() && job.finish.None? && job.phase.Prefilling?
    requires forall k :: RoomFor(rounds(k), id, nBatch, specNMax)
    modifies job, job.kv
    ensures job.Tracks() && job.finish.Some?
    ensures S.Outcome(job.generated, job.finish.value) == S.Plain(job.kv.model, job.prompt, [], old(job.maxTokens), old(job.ctxCap))
  {
    hide RoomFor;
    while job.finish.None? && job.phase.Prefilling?
      invariant job.Tracks() && job.DraftsFit() && !job.isReplay && |job.drafts| <= specNMax
      invariant job.Result() == old(job.Result())
      invariant job.finish.None? && job.phase.Decoding? ==> |job.generated| < job.maxTokens
      decreases |job.prompt| - job.nPast
    {
      var take :| 0 < take <= |job.prompt| - job.nPast;
      var proposal: seq<Token> := *;
      job.PrefillStep(take, proposal, specNMax);
    }
    Generate(job, id, rounds, nBatch, specNMax);
  }
}
