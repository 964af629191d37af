/** Joins that leave too little of the pool when speculation is off. */
module Oversold {
  import opened Common
  import opened CtxCap
  import opened PoolRun

  // ---------------------------------------------------------------- a join that leaves too little

  lemma ThreeSeats(a: Seat, b: Seat, c: Seat)
    ensures UsedSum([a, b, c]) == Used(a) + Used(b) + Used(c) && StepSum([a, b, c]) == Step(a) + Step(b) + Step(c)
    ensures HeldSum([a, b, c], 0) == Held(a, 0) + Held(b, 0) + Held(c, 0)
    ensures Active([a, b, c]) == (if a.Some? then 1 else 0) + (if b.Some? then 1 else 0) + (if c.Some? then 1 else 0)
  {
    assert [a, b, c][..2] == [a, b] && [a, b][..1] == [a] && [a][..0] == [];
    assert UsedSum([a]) == Used(a) && StepSum([a]) == Step(a) && HeldSum([a], 0) == Held(a, 0);
    assert Active([a]) == if a.Some? then 1 else 0;
    assert UsedSum([a, b]) == Used(a) + Used(b) && StepSum([a, b]) == Step(a) + Step(b);
    assert HeldSum([a, b], 0) == Held(a, 0) + Held(b, 0) && Active([a, b]) == Active([a]) + if b.Some? then 1 else 0;
  }

  /** The caps of three seats in a pool of twelve cells. */
  lemma ThreeCaps(a: Seat, b: Seat, c: Seat, now: seq<Seat>)
    requires Used(a) + Used(b) + Used(c) <= U32_MAX && UsedSum([a, b, c]) <= U32_MAX && CapsRight([a, b, c], now, 12, 0, 0)
    ensures var n := (if a.Some? then 1 else 0) + (if b.Some? then 1 else 0) + (if c.Some? then 1 else 0);
      && |now| == 3
      && now[0] == (if a.None? then None else Some(Recapped(a.value, NewCap(Used(a), Used(b) + Used(c), n, 12, 0, 0))))
      && now[1] == (if b.None? then None else Some(Recapped(b.value, NewCap(Used(b), Used(a) + Used(c), n, 12, 0, 0))))
      && now[2] == (if c.None? then None else Some(Recapped(c.value, NewCap(Used(c), Used(a) + Used(b), n, 12, 0, 0))))
  {
    ThreeSeats(a, b, c);
    hide UsedSum, Active, Used, NewCap, Recapped;
    assert RecappedAt([a, b, c], 0, now[0], 12, 0, 0);
    assert RecappedAt([a, b, c], 1, now[1], 12, 0, 0);
    assert RecappedAt([a, b, c], 2, now[2], 12, 0, 0);
  }

  /** A job that still prefills its whole prompt, or has its first token out. */
  predicate Fresh(s: Seat, nPrompt: U32, req: U32, cap: U32, limit: U32) {
    && s.Some? && s.value.nPast < nPrompt == s.value.nPrompt && !s.value.decoding && s.value.drafts == s.value.generated == 0
    && s.value.maxTokensReq == req && s.value.ctxCap == cap && s.value.maxTokens == limit
  }

  predicate FirstOut(s: Seat, nPrompt: U32, req: U32) {
    && s.Some? && s.value.nPast == nPrompt == s.value.nPrompt && s.value.decoding && s.value.drafts == 0 && s.value.generated == 1
    && s.value.maxTokensReq == req
  }

  ghost predicate Twelve(p: Pool)
    reads p
  { p.pool == 12 && p.singleMax == 0 && p.specNMax == 0 && p.jobs.Length == 3
  }

  /** Two prompts of four tokens, each for two more. */
  method JoinTwo(p: Pool)
    requires Twelve(p) && p.jobs[0].None? && p.jobs[1].None? && p.jobs[2].None?
    modifies p.jobs
    ensures Fresh(p.jobs[0], 4, 2, 6, 2) && Fresh(p.jobs[1], 4, 2, 6, 2) && p.jobs[2].None?
  {
    ghost var was := p.jobs[..];
    assert was == [None, None, None];
    ThreeSeats(None, None, None);
    var o := p.Join(0, 4, 2);
    ghost var job :| Joined(job, 4, 2) && Seated(was, p.jobs[..], 0, job, 12, 0, 0);
    assert was[0 := Some(job)] == [Some(job), None, None];
    ThreeCaps(Some(job), None, None, p.jobs[..]);
    JoinSecond(p);
  }

  method JoinSecond(p: Pool)
    requires Twelve(p) && Fresh(p.jobs[0], 4, 2, 12, 2) && p.jobs[1].None? && p.jobs[2].None?
    modifies p.jobs
    ensures Fresh(p.jobs[0], 4, 2, 6, 2) && Fresh(p.jobs[1], 4, 2, 6, 2) && p.jobs[2].None?
  {
    ghost var was := p.jobs[..];
    assert was == [was[0], None, None];
    SecondAdmitted(was[0]);
    hide SlotCap, EffectiveCap, Recapped, UsedSum, Active, HeldSum, Cramped, Ready, Safe, JoinLeavesRoom, JoinKeepsReady, CapsRight;
    var o := p.Join(1, 4, 2);
    ghost var job :| Joined(job, 4, 2) && Seated(was, p.jobs[..], 1, job, 12, 0, 0);
    assert was[1 := Some(job)] == [was[0], Some(job), None];
    SecondSeated(was[0], job, p.jobs[..]);
  }

  lemma SecondAdmitted(a: Seat)
    requires Fresh(a, 4, 2, 12, 2)
    ensures UsedSum([a, None, None]) == 4 && Active([a, None, None]) == 1 && !Decision(4, 2, 4, 2, 12, 0, 0).Defer?
    ensures CapForJoin(4, 2, 12, 0, 0) == 6
  {
    ThreeSeats(a, None, None);
  }

  lemma SecondSeated(a: Seat, job: CapJob, now: seq<Seat>)
    requires Fresh(a, 4, 2, 12, 2) && Joined(job, 4, 2)
    requires UsedSum([a, Some(job), None]) <= U32_MAX && CapsRight([a, Some(job), None], now, 12, 0, 0)
    ensures |now| == 3 && Fresh(now[0], 4, 2, 6, 2) && Fresh(now[1], 4, 2, 6, 2) && now[2].None?
  {
    ThreeCaps(a, Some(job), None, now);
  }

  /** Both prompts are prefilled and put out their first tokens. */
  method PrefillTwo(p: Pool)
    requires Twelve(p) && Fresh(p.jobs[0], 4, 2, 6, 2) && Fresh(p.jobs[1], 4, 2, 6, 2) && p.jobs[2].None?
    modifies p.jobs
    ensures FirstOut(p.jobs[0], 4, 2) && FirstOut(p.jobs[1], 4, 2) && p.jobs[2].None?
  {
    ghost var was := p.jobs[..];
    assert was == [was[0], was[1], None];
    ThreeSeats(was[0], was[1], None);
    var events := [Chunk(4 - p.jobs[0].value.nPast, 0, false), Chunk(4 - p.jobs[1].value.nPast, 0, false), Idle];
    p.Iterate(events);
    ghost var now :| CapsRight(was, now, 12, 0, 0) && EventsFit(now, events, 0) && Stepped(now, p.jobs[..], events, 0);
    ThreeCaps(was[0], was[1], None, now);
    assert p.jobs[..][0] == Settled(now[0], events[0], 0) && p.jobs[..][1] == Settled(now[1], events[1], 0) && p.jobs[..][2] == now[2];
  }

  /** A prompt of two tokens for two more is admitted and bound beside them. */
  method JoinThird(p: Pool)
    requires Twelve(p) && FirstOut(p.jobs[0], 4, 2) && FirstOut(p.jobs[1], 4, 2) && p.jobs[2].None?
    modifies p.jobs
    ensures FirstOut(p.jobs[0], 4, 2) && FirstOut(p.jobs[1], 4, 2) && Fresh(p.jobs[2], 2, 2, 4, 2)
    ensures JoinLeavesRoom(old(p.jobs[..]), 2, 12, 0) && Safe(p.jobs[..], 12, 0) && OffersFit(p.jobs[..], 12, 0, 0)
  {
    ghost var was := p.jobs[..];
    assert was == [was[0], was[1], None];
    ThirdAdmitted(was[0], was[1]);
    hide SlotCap, EffectiveCap, Recapped, UsedSum, Active, HeldSum, Cramped, Ready, Safe, JoinLeavesRoom, JoinKeepsReady, CapsRight;
    var o := p.Join(2, 2, 2);
    ghost var job :| Joined(job, 2, 2) && Seated(was, p.jobs[..], 2, job, 12, 0, 0);
    assert was[2 := Some(job)] == [was[0], was[1], Some(job)];
    ThirdSeated(was[0], was[1], job, p.jobs[..]);
  }

  lemma ThirdAdmitted(a: Seat, b: Seat)
    requires FirstOut(a, 4, 2) && FirstOut(b, 4, 2)
    ensures UsedSum([a, b, None]) == 8 && Active([a, b, None]) == 2 && !Decision(8, 3, 2, 2, 12, 0, 0).Defer?
    ensures CapForJoin(8, 3, 12, 0, 0) == 4 && JoinLeavesRoom([a, b, None], 2, 12, 0) && SeatsRight([a, b, None], 0)
  {
    ThreeSeats(a, b, None);
  }

  lemma ThirdSeated(a: Seat, b: Seat, job: CapJob, now: seq<Seat>)
    requires FirstOut(a, 4, 2) && FirstOut(b, 4, 2) && Joined(job, 2, 2)
    requires UsedSum([a, b, Some(job)]) <= U32_MAX && CapsRight([a, b, Some(job)], now, 12, 0, 0)
    ensures |now| == 3 && FirstOut(now[0], 4, 2) && FirstOut(now[1], 4, 2) && Fresh(now[2], 2, 2, 4, 2)
    ensures UsedSum(now) <= U32_MAX && OffersFit(now, 12, 0, 0)
  {
    ThreeCaps(a, b, Some(job), now);
    assert now == [now[0], now[1], now[2]];
    ThreeSeats(now[0], now[1], now[2]);
    ThreeOffers(now[0], now[1], now[2], 4, 2);
  }

  lemma ThreeOffers(a: Seat, b: Seat, c: Seat, share: U32, gap: U32)
    requires a.Some? && b.Some? && c.Some?
    ensures OfferSum([a, b, c], share, gap) == Offer(Used(a), share, gap) + Offer(Used(b), share, gap) + Offer(Used(c), share, gap)
  {
    assert [a, b, c][..2] == [a, b] && [a, b][..1] == [a] && [a][..0] == [];
    assert OfferSum([a], share, gap) == Offer(Used(a), share, gap);
    assert OfferSum([a, b], share, gap) == OfferSum([a], share, gap) + Offer(Used(b), share, gap);
  }

  /** The joiner's prompt is short, so a prefill-only batch finishes it and leaves the others out. */
  method PrefillThird(p: Pool)
    requires Twelve(p) && FirstOut(p.jobs[0], 4, 2) && FirstOut(p.jobs[1], 4, 2) && Fresh(p.jobs[2], 2, 2, 4, 2)
    modifies p.jobs
    ensures FirstOut(p.jobs[0], 4, 2) && FirstOut(p.jobs[1], 4, 2) && FirstOut(p.jobs[2], 2, 2)
  {
    ghost var was := p.jobs[..];
    assert was == [was[0], was[1], was[2]];
    ThreeSeats(was[0], was[1], was[2]);
    var events := [Idle, Idle, Chunk(2 - p.jobs[2].value.nPast, 0, false)];
    p.Iterate(events);
    ghost var now :| CapsRight(was, now, 12, 0, 0) && EventsFit(now, events, 0) && Stepped(now, p.jobs[..], events, 0);
    ThreeCaps(was[0], was[1], was[2], now);
    assert p.jobs[..][0] == now[0] && p.jobs[..][1] == now[1] && p.jobs[..][2] == Settled(now[2], events[2], 0);
  }

  /** From an empty pool of twelve cells, speculation off: every join is admitted and bound, the third
    * leaves a cell for both decoding slots and its offers fit, and after a prefill-only batch that it
    * survives ten cells are resident and the next batch needs three more. */
  method JoinOversells() returns (p: Pool)
    ensures fresh(p) && fresh(p.jobs) && p.pool == 12 && p.jobs.Length == 3
    ensures forall i :: 0 <= i < 3 ==> p.jobs[i].Some? && p.jobs[i].value.decoding && p.jobs[i].value.nPast >= p.jobs[i].value.nPrompt
    ensures UsedSum(p.jobs[..]) + StepSum(p.jobs[..]) == 13
  {
    p := new Pool(3, 12, 0, 0);
    JoinTwo(p);
    PrefillTwo(p);
    JoinThird(p);
    PrefillThird(p);
    assert p.jobs[..] == [p.jobs[0], p.jobs[1], p.jobs[2]];
    ThreeSeats(p.jobs[0], p.jobs[1], p.jobs[2]);
  }

  // ---------------------------------------------------------------- one cell more is not enough

  lemma FiveSums(a: Seat, b: Seat, c: Seat, d: Seat, e: Seat, share: U32, gap: U32)
    requires a.Some? && b.Some? && c.Some? && d.Some? && e.Some?
    ensures UsedSum([a, b, c, d, e]) == Used(a) + Used(b) + Used(c) + Used(d) + Used(e)
    ensures HeldSum([a, b, c, d, e], 0) == Held(a, 0) + Held(b, 0) + Held(c, 0) + Held(d, 0) + Held(e, 0)
    ensures Active([a, b, c, d, e]) == 5
    ensures Starters([a, b, c, d, e]) == Starters([a, b, c]) + (if IsStarter(d) then 1 else 0) + if IsStarter(e) then 1 else 0
    ensures OfferSum([a, b, c, d, e], share, gap) == OfferSum([a, b, c], share, gap) + Offer(Used(d), share, gap) + Offer(Used(e), share, gap)
  {
    ThreeSeats(a, b, c);
    assert [a, b, c, d, e][..4] == [a, b, c, d] && [a, b, c, d][..3] == [a, b, c];
    assert UsedSum([a, b, c, d]) == UsedSum([a, b, c]) + Used(d) && HeldSum([a, b, c, d], 0) == HeldSum([a, b, c], 0) + Held(d, 0);
    assert Active([a, b, c, d]) == Active([a, b, c]) + 1;
    assert Starters([a, b, c, d]) == Starters([a, b, c]) + if IsStarter(d) then 1 else 0;
    assert OfferSum([a, b, c, d], share, gap) == OfferSum([a, b, c], share, gap) + Offer(Used(d), share, gap);
  }

  /** Three decoding slots at their share and two joiners of two tokens, in a pool of twenty: beside
    * what is held and resident one cell is left over, and the offers fit; but both joiners may start. */
  lemma TwoStartersNeedMore()
    ensures var d, j := Some(CapJob(4, 3, 4, 9, 1, 0, 2, true)), Some(CapJob(0, 2, 4, 2, 2, 0, 0, false));
      var s := [d, d, d, j, j];
      && Safe(s, 20, 0) && UsedSum(s) + HeldSum(s, 0) + 1 <= 20 && OffersFit(s, 20, 0, 0) && AllLimited(s)
      && !StartersFit(s, 20)
  {
    var d, j := Some(CapJob(4, 3, 4, 9, 1, 0, 2, true)), Some(CapJob(0, 2, 4, 2, 2, 0, 0, false));
    FiveSums(d, d, d, j, j, 4, 4);
    ThreeOffers(d, d, d, 4, 4);
  }
}
