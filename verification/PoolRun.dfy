/** Jobs joining, decoding and leaving over one KV pool. */
module PoolRun {
  import opened Common
  import opened CtxCap

  datatype CapJob = CapJob(nPast: U32, nPrompt: U32, ctxCap: U32, maxTokensReq: U32, maxTokens: U32,
                           drafts: nat, generated: nat, decoding: bool)

  type Seat = Option<CapJob>

  /** Cells a slot counts with: what is resident, and at least the whole prompt. */
  function Used(s: Seat): U32 { if s.Some? then MaxU(s.value.nPast, s.value.nPrompt) else 0 }

  function UsedSum(s: seq<Seat>): nat {
    if s == [] then 0 else UsedSum(s[..|s| - 1]) + Used(s[|s| - 1])
  }

  function Active(s: seq<Seat>): (n: nat)
    ensures n <= |s|
  {
    if s == [] then 0 else Active(s[..|s| - 1]) + if s[|s| - 1].Some? then 1 else 0
  }

  function CapSum(s: seq<Seat>): nat {
    if s == [] then 0 else CapSum(s[..|s| - 1]) + if s[|s| - 1].Some? then s[|s| - 1].value.ctxCap else 0
  }

  /** Cells a slot's next decode may add: the pending token and the drafts behind it. */
  function Step(s: Seat): nat {
    if s.Some? && s.value.decoding then 1 + s.value.drafts else 0
  }

  function StepSum(s: seq<Seat>): nat {
    if s == [] then 0 else StepSum(s[..|s| - 1]) + Step(s[|s| - 1])
  }

  /** Cells held back for a slot. */
  function Held(s: Seat, specNMax: U32): nat {
    if s.None? then 0 else if s.value.decoding then MaxU(SpecHeadroom(specNMax), 1) else SpecHeadroom(specNMax)
  }

  function HeldSum(s: seq<Seat>, specNMax: U32): nat {
    if s == [] then 0 else HeldSum(s[..|s| - 1], specNMax) + Held(s[|s| - 1], specNMax)
  }

  predicate SeatRight(s: Seat, specNMax: U32) {
    s.Some? ==>
      && s.value.drafts <= specNMax
      && (s.value.decoding ==> s.value.generated > 0 && s.value.nPast + 1 == s.value.nPrompt + s.value.generated)
      && (!s.value.decoding ==> s.value.generated == 0 && s.value.nPast < s.value.nPrompt)
  }

  /** The resident cells and everything held back fit the pool. */
  ghost predicate Safe(s: seq<Seat>, pool: U32, specNMax: U32) {
    && UsedSum(s) + HeldSum(s, specNMax) <= pool
    && forall i :: 0 <= i < |s| ==> SeatRight(s[i], specNMax)
  }

  lemma {:induction false} StepsHeld(s: seq<Seat>, specNMax: U32)
    requires specNMax < U32_MAX && forall i :: 0 <= i < |s| ==> SeatRight(s[i], specNMax)
    ensures StepSum(s) <= HeldSum(s, specNMax)
  {
    if s != [] { StepsHeld(s[..|s| - 1], specNMax); }
  }

  /** In a safe state the next decode, drafts and all, stays inside the pool. */
  lemma NextDecodeFits(s: seq<Seat>, pool: U32, specNMax: U32)
    requires Safe(s, pool, specNMax) && specNMax < U32_MAX
    ensures UsedSum(s) + StepSum(s) <= pool
  {
    StepsHeld(s, specNMax);
  }

  // ---------------------------------------------------------------- recomputing the caps

  lemma {:induction false} UsedAt(s: seq<Seat>, i: nat)
    requires i < |s|
    ensures UsedSum(s) == Used(s[i]) + UsedSum(s[i := None])
    ensures s[i].None? ==> UsedSum(s) == UsedSum(s[i := None])
  {
    var n := |s| - 1;
    if i < n {
      UsedAt(s[..n], i);
      assert s[i := None][..n] == s[..n][i := None];
    } else {
      assert s[i := None][..n] == s[..n];
    }
  }

  function NewCap(used: U32, others: U32, nActive: U32, pool: U32, singleMax: U32, specNMax: U32): U32 {
    EffectiveCap(SlotCap(singleMax, used, pool, nActive, specNMax), used, pool, others, specNMax, nActive)
  }

  /** A slot with a new cap, and the generation limit that goes with it. */
  function Recapped(j: CapJob, cap: U32): CapJob {
    j.(ctxCap := cap, maxTokens := MinU(j.maxTokensReq, MaxU(SatSub(cap, j.nPrompt), 1)))
  }

  ghost predicate CapsRight(was: seq<Seat>, now: seq<Seat>, pool: U32, singleMax: U32, specNMax: U32)
    requires UsedSum(was) <= U32_MAX && |was| <= U32_MAX
  {
    && |now| == |was|
    && forall i :: 0 <= i < |was| ==> RecappedAt(was, i, now[i], pool, singleMax, specNMax)
  }

  ghost predicate RecappedAt(was: seq<Seat>, i: nat, now: Seat, pool: U32, singleMax: U32, specNMax: U32)
    requires UsedSum(was) <= U32_MAX && i < |was| <= U32_MAX
  {
    if was[i].None? then now.None?
    else
      && Used(was[i]) <= UsedSum(was)
      && now == Some(Recapped(was[i].value, NewCap(Used(was[i]), UsedSum(was) - Used(was[i]), Active(was), pool, singleMax, specNMax)))
  }

  /** `recompute_slot_caps`. */
  method RecomputeSlotCaps(jobs: array<Seat>, pool: U32, singleMax: U32, specNMax: U32)
    requires UsedSum(jobs[..]) <= U32_MAX && jobs.Length <= U32_MAX
    modifies jobs
    ensures CapsRight(old(jobs[..]), jobs[..], pool, singleMax, specNMax)
  {
    ghost var was := jobs[..];
    var nActive := Active(jobs[..]);
    if nActive == 0 {
      NobodyActive(was);
      return;
    }
    var totalUsed := UsedSum(jobs[..]);
    for i := 0 to jobs.Length
      invariant forall k :: i <= k < jobs.Length ==> jobs[k] == was[k]
      invariant forall k :: 0 <= k < i ==> RecappedAt(was, k, jobs[k], pool, singleMax, specNMax)
    {
      if jobs[i].Some? {
        UsedAt(was, i);
        var used := Used(jobs[i]);
        var cap := NewCap(used, SatSub(totalUsed, used), nActive, pool, singleMax, specNMax);
        jobs[i] := Some(Recapped(jobs[i].value, cap));
      }
    }
  }

  lemma {:induction false} NobodyActive(s: seq<Seat>)
    requires Active(s) == 0
    ensures forall i :: 0 <= i < |s| ==> s[i].None?
  {
    if s != [] { NobodyActive(s[..|s| - 1]); }
  }

  // ---------------------------------------------------------------- when the caps fit

  /** The same number of cells for each of `n` slots. */
  function Times(cells: nat, n: nat): nat { cells * n }

  lemma TimesNext(cells: nat, n: nat)
    ensures Times(cells, n + 1) == Times(cells, n) + cells && Times(cells, 0) == 0
  {
  }

  function OfferSum(s: seq<Seat>, share: U32, gap: U32): nat {
    if s == [] then 0
    else OfferSum(s[..|s| - 1], share, gap) + if s[|s| - 1].Some? then Offer(Used(s[|s| - 1]), share, gap) else 0
  }

  function ShareOf(s: seq<Seat>, pool: U32, singleMax: U32, specNMax: U32): U32
    requires |s| <= U32_MAX
  {
    Share(Active(s), pool, singleMax, specNMax)
  }

  /** Cells behind the reserve that nobody holds. */
  function Gap(s: seq<Seat>, pool: U32, specNMax: U32): U32
    requires |s| <= U32_MAX && UsedSum(s) <= U32_MAX
  {
    SatSub(Usable(pool, specNMax, Active(s)), UsedSum(s))
  }

  /** The offers of all slots together fit the gap they are cut from. */
  predicate OffersFit(s: seq<Seat>, pool: U32, singleMax: U32, specNMax: U32)
    requires |s| <= U32_MAX && UsedSum(s) <= U32_MAX
  {
    OfferSum(s, ShareOf(s, pool, singleMax, specNMax), Gap(s, pool, specNMax)) <= Gap(s, pool, specNMax)
  }

  ghost predicate Offered(s: Seat, s': Seat, share: U32, gap: U32) {
    if s.None? then s'.None? else s'.Some? && s'.value.ctxCap == Used(s) + Offer(Used(s), share, gap)
  }

  /** The recomputed caps of any number of slots are what the slots hold plus their offers, so they
    * stay within the pool behind the reserve, or within what is resident, exactly when the offers
    * fit; and no cap is below what its slot holds. */
  lemma RecomputedCapsFit(was: seq<Seat>, now: seq<Seat>, pool: U32, singleMax: U32, specNMax: U32)
    requires |was| <= U32_MAX && UsedSum(was) <= U32_MAX && CapsRight(was, now, pool, singleMax, specNMax)
    ensures CapSum(now) == UsedSum(was) + OfferSum(was, ShareOf(was, pool, singleMax, specNMax), Gap(was, pool, specNMax))
    ensures CapSum(now) <= Max(Usable(pool, specNMax, Active(was)), UsedSum(was)) <==> OffersFit(was, pool, singleMax, specNMax)
    ensures forall i :: 0 <= i < |now| && now[i].Some? ==> now[i].value.ctxCap >= Used(now[i]) == Used(was[i])
  {
    var share, gap := ShareOf(was, pool, singleMax, specNMax), Gap(was, pool, specNMax);
    forall i | 0 <= i < |was|
      ensures Offered(was[i], now[i], share, gap) && (now[i].Some? ==> Used(now[i]) == Used(was[i]))
    {
      assert RecappedAt(was, i, now[i], pool, singleMax, specNMax);
      if was[i].Some? {
        CapIsUsedPlusOffer(Used(was[i]), UsedSum(was) - Used(was[i]), Active(was), pool, singleMax, specNMax);
      }
    }
    CapsAddUp(was, now, share, gap);
  }

  lemma {:induction false} CapsAddUp(was: seq<Seat>, now: seq<Seat>, share: U32, gap: U32)
    requires |now| == |was| && forall i :: 0 <= i < |was| ==> Offered(was[i], now[i], share, gap)
    ensures CapSum(now) == UsedSum(was) + OfferSum(was, share, gap)
  {
    if was != [] {
      var k := |was| - 1;
      assert Offered(was[k], now[k], share, gap);
      CapsAddUp(was[..k], now[..k], share, gap);
    }
  }

  predicate IsHungry(s: Seat, share: U32) { s.Some? && Used(s) < share }

  function HungryCount(s: seq<Seat>, share: U32): (n: nat)
    ensures n <= Active(s)
  {
    if s == [] then 0 else HungryCount(s[..|s| - 1], share) + if IsHungry(s[|s| - 1], share) then 1 else 0
  }

  /** With nobody above the fair share the offers fit. */
  lemma FairSharesFit(s: seq<Seat>, pool: U32, singleMax: U32, specNMax: U32)
    requires |s| <= U32_MAX && UsedSum(s) <= U32_MAX
    requires forall i :: 0 <= i < |s| && s[i].Some? ==> Used(s[i]) <= Fair(Usable(pool, specNMax, Active(s)), Active(s))
    ensures OffersFit(s, pool, singleMax, specNMax)
  {
    var n := Active(s);
    var usable := Usable(pool, specNMax, n);
    OffersBelow(s, ShareOf(s, pool, singleMax, specNMax), Fair(usable, n), Gap(s, pool, specNMax));
    FairSplits(usable, n);
    hide Usable, Fair, UsedSum, OfferSum, Active;
  }

  lemma FairSplits(usable: U32, n: U32)
    ensures n > 0 ==> Fair(usable, n) * n <= usable
  {
  }

  lemma {:induction false} OffersBelow(s: seq<Seat>, share: U32, fair: U32, gap: U32)
    requires share <= fair && forall i :: 0 <= i < |s| && s[i].Some? ==> Used(s[i]) <= fair
    ensures OfferSum(s, share, gap) + UsedSum(s) <= Times(fair, Active(s))
    ensures Active(s) == 0 ==> OfferSum(s, share, gap) == 0
  {
    if s != [] {
      var k := |s| - 1;
      OffersBelow(s[..k], share, fair, gap);
      assert s[k].Some? ==> Offer(Used(s[k]), share, gap) + Used(s[k]) <= fair;
      hide Offer, Used, Times;
      TimesNext(fair, Active(s[..k]));
    } else {
      TimesNext(fair, 0);
    }
  }

  /** And with no more than one slot below its share. */
  lemma OneHungryFits(s: seq<Seat>, pool: U32, singleMax: U32, specNMax: U32)
    requires |s| <= U32_MAX && UsedSum(s) <= U32_MAX
    requires HungryCount(s, ShareOf(s, pool, singleMax, specNMax)) <= 1
    ensures OffersFit(s, pool, singleMax, specNMax)
  {
    var share, gap := ShareOf(s, pool, singleMax, specNMax), Gap(s, pool, specNMax);
    OffersOfHungry(s, share, gap);
    TimesNext(gap, 0);
    hide Times, OfferSum, HungryCount, Usable, UsedSum, Active, Share;
    assert HungryCount(s, share) == 0 || HungryCount(s, share) == 1;
  }

  lemma {:induction false} OffersOfHungry(s: seq<Seat>, share: U32, gap: U32)
    ensures OfferSum(s, share, gap) <= Times(gap, HungryCount(s, share))
  {
    if s != [] {
      var k := |s| - 1;
      OffersOfHungry(s[..k], share, gap);
      assert Offer(Used(s[k]), share, gap) <= gap && (Used(s[k]) >= share ==> Offer(Used(s[k]), share, gap) == 0);
      hide Offer, Used, Times;
      TimesNext(gap, HungryCount(s[..k], share));
    }
  }

  /** So two active slots, of however many, are always within the pool. */
  lemma TwoActiveFit(s: seq<Seat>, pool: U32, singleMax: U32, specNMax: U32)
    requires |s| <= U32_MAX && UsedSum(s) <= U32_MAX && Active(s) <= 2
    ensures OffersFit(s, pool, singleMax, specNMax)
  {
    var fair := Fair(Usable(pool, specNMax, Active(s)), Active(s));
    if i :| 0 <= i < |s| && s[i].Some? && Used(s[i]) > fair {
      SatedSpares(s, i, ShareOf(s, pool, singleMax, specNMax));
      OneHungryFits(s, pool, singleMax, specNMax);
    } else {
      FairSharesFit(s, pool, singleMax, specNMax);
    }
  }

  lemma {:induction false} SatedSpares(s: seq<Seat>, i: nat, share: U32)
    requires i < |s| && s[i].Some? && !IsHungry(s[i], share)
    ensures HungryCount(s, share) < Active(s)
  {
    if i < |s| - 1 { SatedSpares(s[..|s| - 1], i, share); }
  }

  lemma {:induction false} RecapKeeps(was: seq<Seat>, now: seq<Seat>, specNMax: U32)
    requires |now| == |was|
    requires forall i :: 0 <= i < |was| ==> now[i] == was[i] || (was[i].Some? && exists c: U32 :: now[i] == Some(Recapped(was[i].value, c)))
    ensures UsedSum(now) == UsedSum(was) && HeldSum(now, specNMax) == HeldSum(was, specNMax) && Active(now) == Active(was)
    ensures forall share: U32 :: Cramped(now, share) == Cramped(was, share)
  {
    if was != [] { RecapKeeps(was[..|was| - 1], now[..|now| - 1], specNMax); }
  }

  lemma RecappedSafe(was: seq<Seat>, now: seq<Seat>, pool: U32, singleMax: U32, specNMax: U32)
    requires UsedSum(was) <= U32_MAX && |was| <= U32_MAX && CapsRight(was, now, pool, singleMax, specNMax)
    ensures Safe(was, pool, specNMax) <==> Safe(now, pool, specNMax)
    ensures UsedSum(now) == UsedSum(was) && HeldSum(now, specNMax) == HeldSum(was, specNMax) && Active(now) == Active(was)
    ensures forall share: U32 :: Cramped(now, share) == Cramped(was, share)
  {
    forall i | 0 <= i < |was|
      ensures now[i] == was[i] || (was[i].Some? && exists c: U32 :: now[i] == Some(Recapped(was[i].value, c)))
      ensures SeatRight(was[i], specNMax) <==> SeatRight(now[i], specNMax)
    {
      assert RecappedAt(was, i, now[i], pool, singleMax, specNMax);
    }
    RecapKeeps(was, now, specNMax);
  }

  // ---------------------------------------------------------------- one iteration

  /** What an iteration does to a slot. */
  datatype Event =
    | Idle                                             // not in the batch
    | Chunk(take: U32, drafts: nat, stop: bool)        // prompt tokens; behind the last one the first token is out
    | Emitted(accepted: nat, drafts: nat, stop: bool)  // pending and accepted drafts stay, one token more is out
    | Replayed(drafts: nat)                            // rejected under a dump: the position goes back

  /** The events a slot's phase and drafts allow. */
  predicate Fitting(s: Seat, e: Event, specNMax: U32) {
    match e
    case Idle => true
    case Chunk(take, drafts, _) => s.Some? && !s.value.decoding && 0 < take <= SatSub(s.value.nPrompt, s.value.nPast) && drafts <= specNMax
    case Emitted(accepted, drafts, _) => s.Some? && s.value.decoding && accepted <= s.value.drafts && drafts <= specNMax
    case Replayed(drafts) => s.Some? && s.value.decoding && 0 < drafts <= s.value.drafts
  }

  /** A job with `generated` tokens out at position `nPast`, unless that ends it. */
  function GoesOn(j: CapJob, nPast: nat, generated: nat, drafts: nat, stop: bool): Seat {
    if stop || generated >= j.maxTokens || nPast + 1 > j.ctxCap then None
    else Some(j.(nPast := nPast, generated := generated, drafts := drafts, decoding := true))
  }

  function Settled(s: Seat, e: Event, specNMax: U32): Seat
    requires Fitting(s, e, specNMax)
  {
    match e
    case Idle => s
    case Chunk(take, drafts, stop) =>
      var n := s.value.nPast + take;
      if n < s.value.nPrompt then Some(s.value.(nPast := n)) else GoesOn(s.value, n, 1, drafts, stop)
    case Emitted(accepted, drafts, stop) => GoesOn(s.value, s.value.nPast + 1 + accepted, s.value.generated + 1 + accepted, drafts, stop)
    case Replayed(drafts) => Some(s.value.(drafts := drafts))
  }

  ghost predicate EventsFit(s: seq<Seat>, events: seq<Event>, specNMax: U32) {
    |events| == |s| && forall i :: 0 <= i < |s| ==> Fitting(s[i], events[i], specNMax)
  }

  ghost predicate Stepped(now: seq<Seat>, next: seq<Seat>, events: seq<Event>, specNMax: U32)
    requires EventsFit(now, events, specNMax)
  {
    |next| == |now| && forall i :: 0 <= i < |now| ==> next[i] == Settled(now[i], events[i], specNMax)
  }

  predicate DecodingSeat(s: Seat) { s.Some? && s.value.decoding }

  /** Every decoding slot is in the batch, beside whatever prefill. */
  ghost predicate AllDecode(s: seq<Seat>, events: seq<Event>) {
    |events| == |s| && forall i :: 0 <= i < |s| && DecodingSeat(s[i]) ==> !events[i].Idle?
  }

  /** A prefill-only batch. */
  ghost predicate NoneDecodes(s: seq<Seat>, events: seq<Event>) {
    |events| == |s| && forall i :: 0 <= i < |s| && DecodingSeat(s[i]) ==> events[i].Idle?
  }

  /** The generation limit that goes with a cap. */
  ghost predicate Limited(s: Seat) {
    s.Some? ==> s.value.ctxCap >= Used(s) && s.value.maxTokens <= Max(s.value.ctxCap - s.value.nPrompt, 1)
  }

  ghost predicate AllLimited(s: seq<Seat>) { forall i :: 0 <= i < |s| ==> Limited(s[i]) }

  /** A job that goes on from an emission leaves two cells under its cap: the one its pending token
    * takes next, and one more. */
  lemma SettledLeavesTwo(s: Seat, e: Event, specNMax: U32)
    requires SeatRight(s, specNMax) && Limited(s) && Fitting(s, e, specNMax)
    ensures var s' := Settled(s, e, specNMax);
      && SeatRight(s', specNMax) && (s'.Some? ==> s.Some? && Used(s') <= s.value.ctxCap)
      && (DecodingSeat(s') && (e.Emitted? || e.Chunk?) ==> Used(s') + 2 <= s.value.ctxCap)
  {
  }

  /** A slot that goes on stays under its cap, one cell under it when speculation is off. */
  ghost predicate UnderCap(s: Seat, s': Seat, specNMax: U32) {
    s'.Some? ==>
      && s.Some?
      && Used(s') <= s.value.ctxCap
      && (specNMax == 0 && s'.value.decoding ==> Used(s') < s.value.ctxCap)
  }

  /** When the caps fit, a batch with every decoding slot in it keeps the state safe, whatever comes
    * of it; with speculation on any batch does. */
  lemma DecodeKeepsSafe(now: seq<Seat>, next: seq<Seat>, events: seq<Event>, pool: U32, specNMax: U32)
    requires |now| <= U32_MAX && specNMax < U32_MAX && Safe(now, pool, specNMax)
    requires CapSum(now) <= Max(Usable(pool, specNMax, Active(now)), UsedSum(now)) && AllLimited(now)
    requires EventsFit(now, events, specNMax) && Stepped(now, next, events, specNMax)
    requires specNMax > 0 || AllDecode(now, events)
    ensures Safe(next, pool, specNMax)
  {
    forall i | 0 <= i < |now| ensures SeatRight(next[i], specNMax) && UnderCap(now[i], next[i], specNMax) {
      SettledLeavesTwo(now[i], events[i], specNMax);
    }
    NextBound(now, next, specNMax);
    ReserveCovers(specNMax, Active(now), pool);
    if specNMax > 0 { HeldIs(now, specNMax); }
    hide Times, UsedSum, HeldSum, CapSum, Active, Usable, SpecHeadroom, Settled, Fitting, SeatRight;
  }

  /** What the slots hold next, with everything held back, is within their caps and one verify
    * step each. */
  lemma {:induction false} NextBound(now: seq<Seat>, next: seq<Seat>, specNMax: U32)
    requires |now| == |next| && specNMax < U32_MAX
    requires forall i :: 0 <= i < |now| ==> UnderCap(now[i], next[i], specNMax)
    ensures UsedSum(next) + HeldSum(next, specNMax) <= CapSum(now) + Times(SpecHeadroom(specNMax), Active(now))
  {
    if now != [] {
      var k := |now| - 1;
      NextBound(now[..k], next[..k], specNMax);
      StaysUnder(now[k], next[k], specNMax);
      hide SpecHeadroom, Used, Held, Times, UnderCap;
      TimesNext(SpecHeadroom(specNMax), Active(now[..k]));
    }
  }

  lemma StaysUnder(s: Seat, s': Seat, specNMax: U32)
    requires specNMax < U32_MAX && UnderCap(s, s', specNMax)
    ensures Used(s') + Held(s', specNMax) <= if s.Some? then s.value.ctxCap + SpecHeadroom(specNMax) else 0
  {
  }

  /** With speculation on, what is held back is one verify step for every active slot. */
  lemma {:induction false} HeldIs(s: seq<Seat>, specNMax: U32)
    requires specNMax > 0
    ensures HeldSum(s, specNMax) == Times(SpecHeadroom(specNMax), Active(s))
  {
    if s != [] {
      HeldIs(s[..|s| - 1], specNMax);
      assert forall q: Seat :: Held(q, specNMax) == if q.Some? then SpecHeadroom(specNMax) else 0;
      hide SpecHeadroom, Held, Times;
      TimesNext(SpecHeadroom(specNMax), Active(s[..|s| - 1]));
    } else {
      TimesNext(SpecHeadroom(specNMax), 0);
    }
  }

  lemma ReserveCovers(specNMax: U32, n: U32, pool: U32)
    ensures Usable(pool, specNMax, n) == 0 || Usable(pool, specNMax, n) + Times(SpecHeadroom(specNMax), n) <= pool
    ensures specNMax == 0 ==> Times(SpecHeadroom(specNMax), n) == 0
  {
    if n == 0 { assert SpecHeadroom(specNMax) * n == 0; }
  }

  // ---------------------------------------------------------------- prefill-only batches, speculation off

  /** A prefilling slot that would go on from its first token. */
  predicate IsStarter(s: Seat) {
    s.Some? && !s.value.decoding && 1 < s.value.maxTokens && s.value.nPrompt + 1 <= s.value.ctxCap
  }

  function Starters(s: seq<Seat>): nat {
    if s == [] then 0 else Starters(s[..|s| - 1]) + if IsStarter(s[|s| - 1]) then 1 else 0
  }

  /** A cell for every decoding slot, and for every slot that may come to decode. */
  predicate StartersFit(s: seq<Seat>, pool: U32) { UsedSum(s) + HeldSum(s, 0) + Starters(s) <= pool }

  lemma {:induction false} StartersBound(now: seq<Seat>, next: seq<Seat>, events: seq<Event>)
    requires EventsFit(now, events, 0) && NoneDecodes(now, events) && Stepped(now, next, events, 0) && SeatsRight(now, 0)
    ensures UsedSum(next) <= UsedSum(now) && HeldSum(next, 0) <= HeldSum(now, 0) + Starters(now) && Active(next) <= Active(now)
  {
    if now != [] {
      var k := |now| - 1;
      assert Fitting(now[k], events[k], 0) && SeatRight(now[k], 0) && (DecodingSeat(now[k]) ==> events[k].Idle?);
      StartersBound(now[..k], next[..k], events[..k]);
    }
  }

  /** The batch in which every starter finishes its prompt. */
  function StartEvent(s: Seat): Event {
    if IsStarter(s) then Chunk(SatSub(s.value.nPrompt, s.value.nPast), 0, false) else Idle
  }

  function StartedSeat(s: Seat): Seat {
    if IsStarter(s) then GoesOn(s.value, s.value.nPrompt, 1, 0, false) else s
  }

  function AllStart(s: seq<Seat>): (events: seq<Event>)
    ensures |events| == |s| && forall i :: 0 <= i < |s| ==> events[i] == StartEvent(s[i])
  {
    if s == [] then [] else AllStart(s[..|s| - 1]) + [StartEvent(s[|s| - 1])]
  }

  function Started(s: seq<Seat>): (next: seq<Seat>)
    ensures |next| == |s| && forall i :: 0 <= i < |s| ==> next[i] == StartedSeat(s[i])
  {
    if s == [] then [] else Started(s[..|s| - 1]) + [StartedSeat(s[|s| - 1])]
  }

  lemma SeatStarts(s: Seat)
    requires SeatRight(s, 0)
    ensures Fitting(s, StartEvent(s), 0) && StartedSeat(s) == Settled(s, StartEvent(s), 0)
    ensures DecodingSeat(s) ==> StartEvent(s).Idle?
    ensures Used(StartedSeat(s)) == Used(s) && Held(StartedSeat(s), 0) == Held(s, 0) + if IsStarter(s) then 1 else 0
  {
  }

  lemma {:induction false} StartedSums(s: seq<Seat>)
    requires SeatsRight(s, 0)
    ensures UsedSum(Started(s)) == UsedSum(s) && HeldSum(Started(s), 0) == HeldSum(s, 0) + Starters(s)
  {
    if s != [] {
      var k := |s| - 1;
      assert SeatRight(s[k], 0);
      StartedSums(s[..k]);
      SeatStarts(s[k]);
      assert Started(s)[..k] == Started(s[..k]) && Started(s)[k] == StartedSeat(s[k]);
      hide Started, StartedSeat, Used, Held, IsStarter, SeatRight;
    }
  }

  lemma AllStartStarts(s: seq<Seat>)
    requires SeatsRight(s, 0)
    ensures EventsFit(s, AllStart(s), 0) && NoneDecodes(s, AllStart(s)) && Stepped(s, Started(s), AllStart(s), 0)
    ensures UsedSum(Started(s)) == UsedSum(s) && HeldSum(Started(s), 0) == HeldSum(s, 0) + Starters(s)
  {
    StartedSums(s);
    hide UsedSum, HeldSum, Starters, Fitting, Settled, StartEvent, StartedSeat, DecodingSeat, AllStart, Started;
    forall i | 0 <= i < |s|
      ensures Fitting(s[i], StartEvent(s[i]), 0) && StartedSeat(s[i]) == Settled(s[i], StartEvent(s[i]), 0)
      ensures DecodingSeat(s[i]) ==> StartEvent(s[i]).Idle?
    {
      assert SeatRight(s[i], 0);
      SeatStarts(s[i]);
    }
  }

  /** Without speculation, prefill-only batches keep the state safe, whatever comes of them, if and
    * only if there is a cell for every starter too. */
  lemma StartersAreExact(now: seq<Seat>, pool: U32)
    requires Safe(now, pool, 0)
    ensures StartersFit(now, pool) <==>
      forall events, next :: EventsFit(now, events, 0) && NoneDecodes(now, events) && Stepped(now, next, events, 0) ==> Safe(next, pool, 0)
  {
    if StartersFit(now, pool) {
      forall events, next | EventsFit(now, events, 0) && NoneDecodes(now, events) && Stepped(now, next, events, 0)
        ensures Safe(next, pool, 0)
      {
        PrefillKeepsSafe(now, next, events, pool);
      }
    } else {
      AllStartStarts(now);
    }
  }

  lemma PrefillKeepsSafe(now: seq<Seat>, next: seq<Seat>, events: seq<Event>, pool: U32)
    requires Safe(now, pool, 0) && StartersFit(now, pool)
    requires EventsFit(now, events, 0) && NoneDecodes(now, events) && Stepped(now, next, events, 0)
    ensures Safe(next, pool, 0)
  {
    StartersBound(now, next, events);
    forall i | 0 <= i < |now| ensures SeatRight(next[i], 0) {
      assert SeatRight(now[i], 0) && Fitting(now[i], events[i], 0);
    }
  }

  // ---------------------------------------------------------------- what holds over a run

  /** A decoding slot whose share leaves it fewer than two cells to gain. */
  predicate IsCramped(s: Seat, share: U32) { DecodingSeat(s) && Used(s) + 2 > share }

  function Cramped(s: seq<Seat>, share: U32): nat {
    if s == [] then 0 else Cramped(s[..|s| - 1], share) + if IsCramped(s[|s| - 1], share) then 1 else 0
  }

  /** Safe, and without speculation also ready for prefill-only batches: with a cell for every active
    * slot, or with two for every cramped one, less a single cell. */
  ghost predicate Ready(s: seq<Seat>, pool: U32, singleMax: U32, specNMax: U32)
    requires |s| <= U32_MAX
  {
    && Safe(s, pool, specNMax)
    && (specNMax > 0 || UsedSum(s) + Active(s) <= pool || UsedSum(s) + 2 * Cramped(s, ShareOf(s, pool, singleMax, 0)) <= pool + 1)
  }

  /** Every slot that is not cramped, and every starter, is offered two cells. */
  lemma {:induction false} OffersOfStarters(was: seq<Seat>, now: seq<Seat>, share: U32, gap: U32)
    requires |now| == |was| && gap >= 2 && SeatsRight(was, 0)
    requires forall i :: 0 <= i < |was| ==> Offered(was[i], now[i], share, gap) && SameSeat(was[i], now[i]) && Limited(now[i])
    ensures 2 * Starters(now) + 2 * HeldSum(was, 0) <= OfferSum(was, share, gap) + 2 * Cramped(was, share)
  {
    if was != [] {
      var k := |was| - 1;
      assert SeatRight(was[k], 0) && Offered(was[k], now[k], share, gap) && SameSeat(was[k], now[k]) && Limited(now[k]);
      OffersOfStarters(was[..k], now[..k], share, gap);
    }
  }

  lemma {:induction false} StarterNeedsGap(was: seq<Seat>, now: seq<Seat>, share: U32, gap: U32)
    requires |now| == |was| && SeatsRight(was, 0)
    requires forall i :: 0 <= i < |was| ==> Offered(was[i], now[i], share, gap) && SameSeat(was[i], now[i]) && Limited(now[i])
    ensures Starters(now) > 0 ==> gap >= 2
  {
    if was != [] {
      var k := |was| - 1;
      assert SeatRight(was[k], 0) && Offered(was[k], now[k], share, gap) && SameSeat(was[k], now[k]) && Limited(now[k]);
      StarterNeedsGap(was[..k], now[..k], share, gap);
    }
  }

  /** A seat whose cap and limit alone may differ. */
  ghost predicate SameSeat(s: Seat, s': Seat) {
    if s.None? then s'.None?
    else s'.Some? && s'.value == s.value.(ctxCap := s'.value.ctxCap, maxTokens := s'.value.maxTokens)
  }

  lemma RecapDetails(was: seq<Seat>, now: seq<Seat>, pool: U32, singleMax: U32, specNMax: U32)
    requires |was| <= U32_MAX && UsedSum(was) <= U32_MAX && CapsRight(was, now, pool, singleMax, specNMax)
    ensures |now| == |was| && AllLimited(now)
    ensures forall i :: 0 <= i < |was| ==> SameSeat(was[i], now[i])
    ensures forall i :: 0 <= i < |was| ==>
      Offered(was[i], now[i], ShareOf(was, pool, singleMax, specNMax), Gap(was, pool, specNMax))
  {
    forall i | 0 <= i < |was|
      ensures SameSeat(was[i], now[i]) && Limited(now[i])
      ensures Offered(was[i], now[i], ShareOf(was, pool, singleMax, specNMax), Gap(was, pool, specNMax))
    {
      assert RecappedAt(was, i, now[i], pool, singleMax, specNMax);
      if was[i].Some? {
        CapIsUsedPlusOffer(Used(was[i]), UsedSum(was) - Used(was[i]), Active(was), pool, singleMax, specNMax);
      }
    }
  }

  /** In a ready state whose offers fit there is a cell for every starter. */
  lemma ReadyStarts(was: seq<Seat>, now: seq<Seat>, pool: U32, singleMax: U32)
    requires |was| <= U32_MAX && UsedSum(was) <= U32_MAX && CapsRight(was, now, pool, singleMax, 0)
    requires Ready(was, pool, singleMax, 0) && OffersFit(was, pool, singleMax, 0)
    ensures StartersFit(now, pool)
  {
    var share, gap := ShareOf(was, pool, singleMax, 0), Gap(was, pool, 0);
    RecapDetails(was, now, pool, singleMax, 0);
    RecappedSafe(was, now, pool, singleMax, 0);
    StarterNeedsGap(was, now, share, gap);
    StartersActive(now);
    assert gap == pool - UsedSum(was);
    if gap >= 2 { OffersOfStarters(was, now, share, gap); }
  }

  lemma {:induction false} StartersActive(s: seq<Seat>)
    ensures HeldSum(s, 0) + Starters(s) <= Active(s)
  {
    if s != [] { StartersActive(s[..|s| - 1]); }
  }

  lemma ShareGrows(n: U32, n': U32, pool: U32, singleMax: U32)
    requires n' <= n
    ensures Share(n, pool, singleMax, 0) <= Share(n', pool, singleMax, 0)
  {
    DivAntitone(pool, pool, MaxU(n', 1), MaxU(n, 1));
  }

  /** Cramped slots only go: one that decoded, or started to, has two cells to gain. */
  lemma {:induction false} CrampedFall(was: seq<Seat>, now: seq<Seat>, next: seq<Seat>, events: seq<Event>, share: U32, gap: U32, share': U32)
    requires |now| == |was| && share <= share' && SeatsRight(was, 0)
    requires forall i :: 0 <= i < |was| ==> Offered(was[i], now[i], share, gap) && SameSeat(was[i], now[i]) && Limited(now[i])
    requires EventsFit(now, events, 0) && Stepped(now, next, events, 0)
    ensures Cramped(next, share') <= Cramped(was, share)
    ensures AllDecode(now, events) ==> Cramped(next, share') == 0
    ensures Active(next) <= Active(was)
  {
    if was != [] {
      var k := |was| - 1;
      SeatCrampedFall(was[k], now[k], events[k], share, gap, share');
      assert AllDecode(now, events) ==> (DecodingSeat(now[k]) ==> !events[k].Idle?) && AllDecode(now[..k], events[..k]);
      CrampedFall(was[..k], now[..k], next[..k], events[..k], share, gap, share');
    }
  }

  lemma SeatCrampedFall(s: Seat, s1: Seat, e: Event, share: U32, gap: U32, share': U32)
    requires SeatRight(s, 0) && Offered(s, s1, share, gap) && SameSeat(s, s1) && Limited(s1) && Fitting(s1, e, 0) && share <= share'
    ensures var s' := Settled(s1, e, 0);
      && (IsCramped(s', share') ==> IsCramped(s, share) && e.Idle?)
      && (s'.Some? ==> s.Some?)
  {
    SettledLeavesTwo(s1, e, 0);
  }

  /** An iteration keeps a ready state ready if the offers fit: with speculation on whatever the batch,
    * without it if the decoding slots are all in the batch or all left out. */
  lemma ReadyKept(was: seq<Seat>, now: seq<Seat>, next: seq<Seat>, events: seq<Event>, pool: U32, singleMax: U32, specNMax: U32)
    requires |was| <= U32_MAX && specNMax < U32_MAX && UsedSum(was) <= U32_MAX && CapsRight(was, now, pool, singleMax, specNMax)
    requires Ready(was, pool, singleMax, specNMax) && OffersFit(was, pool, singleMax, specNMax)
    requires EventsFit(now, events, specNMax) && Stepped(now, next, events, specNMax)
    requires specNMax > 0 || AllDecode(now, events) || NoneDecodes(now, events)
    ensures |next| == |was| && Ready(next, pool, singleMax, specNMax)
  {
    RecapDetails(was, now, pool, singleMax, specNMax);
    RecappedSafe(was, now, pool, singleMax, specNMax);
    RecomputedCapsFit(was, now, pool, singleMax, specNMax);
    if specNMax > 0 || AllDecode(now, events) {
      DecodeKeepsSafe(now, next, events, pool, specNMax);
    } else {
      ReadyStarts(was, now, pool, singleMax);
      PrefillKeepsSafe(now, next, events, pool);
    }
    if specNMax == 0 { NextReady(was, now, next, events, pool, singleMax); }
  }

  lemma NextReady(was: seq<Seat>, now: seq<Seat>, next: seq<Seat>, events: seq<Event>, pool: U32, singleMax: U32)
    requires |was| <= U32_MAX && UsedSum(was) <= U32_MAX && CapsRight(was, now, pool, singleMax, 0)
    requires Ready(was, pool, singleMax, 0) && Safe(now, pool, 0) && Safe(next, pool, 0) && UsedSum(now) == UsedSum(was)
    requires EventsFit(now, events, 0) && Stepped(now, next, events, 0) && (AllDecode(now, events) || NoneDecodes(now, events))
    ensures |next| == |was| && Ready(next, pool, singleMax, 0)
  {
    RecapDetails(was, now, pool, singleMax, 0);
    var share, gap := ShareOf(was, pool, singleMax, 0), Gap(was, pool, 0);
    CrampedFall(was, now, next, events, share, gap, share);
    ShareGrows(Active(was), Active(next), pool, singleMax);
    CrampedFall(was, now, next, events, share, gap, ShareOf(next, pool, singleMax, 0));
    if !AllDecode(now, events) { StartersBound(now, next, events); }
  }

  /** A job as its bind leaves it. */
  predicate Joined(job: CapJob, nPrompt: U32, maxTokensReq: U32) {
    && job.nPast < job.nPrompt == nPrompt && !job.decoding && job.drafts == job.generated == 0
    && job.maxTokensReq == MaxU(maxTokensReq, 1)
  }

  /** A job sits down and everyone's cap is recomputed. */
  ghost predicate Seated(was: seq<Seat>, now: seq<Seat>, i: nat, job: CapJob, pool: U32, singleMax: U32, specNMax: U32) {
    && i < |was| <= U32_MAX && UsedSum(was[i := Some(job)]) <= U32_MAX
    && CapsRight(was[i := Some(job)], now, pool, singleMax, specNMax)
  }

  lemma FreshSeat(job: CapJob, specNMax: U32)
    requires !job.decoding && job.drafts == job.generated == 0 && job.nPast < job.nPrompt
    ensures SeatRight(Some(job), specNMax) && Used(Some(job)) == job.nPrompt && !DecodingSeat(Some(job))
  {
  }

  lemma SeatedIs(was: seq<Seat>, now: seq<Seat>, i: nat, job: CapJob, pool: U32, singleMax: U32, specNMax: U32)
    requires i < |was| == |now| <= U32_MAX && was[i].None? && UsedSum(was[i := Some(job)]) <= U32_MAX
    requires CapsRight(was[i := Some(job)], now, pool, singleMax, specNMax)
    requires forall k :: 0 <= k < |was| ==> (now[k].None? <==> was[i := Some(job)][k].None?)
    ensures Seated(was, now, i, job, pool, singleMax, specNMax) && SeatsTaken(was, now, i)
  {
  }

  lemma SitDown(was: seq<Seat>, i: nat, job: CapJob, specNMax: U32)
    requires i < |was| && was[i].None? && !job.decoding && job.drafts == job.generated == 0 && job.nPast < job.nPrompt
    ensures SeatRight(Some(job), specNMax) && Used(Some(job)) == job.nPrompt && !DecodingSeat(Some(job))
    ensures UsedSum(was[i := Some(job)]) == UsedSum(was) + job.nPrompt && Active(was[i := Some(job)]) == Active(was) + 1
  {
    FreshSeat(job, specNMax);
    JoinSums(was, i, was[i := Some(job)], specNMax);
  }

  /** What the pool is once a job sits and the caps are recomputed. */
  lemma Occupied(was: seq<Seat>, i: nat, job: CapJob, now: seq<Seat>, pool: U32, singleMax: U32, specNMax: U32)
    requires i < |was| == |now| <= U32_MAX && was[i].None? && Active(was) < U32_MAX
    requires !job.decoding && job.drafts == job.generated == 0 && job.nPast < job.nPrompt
    requires UsedSum(was) + job.nPrompt + SpecHeadroom(specNMax) * (Active(was) + 1) < pool
    requires UsedSum(was[i := Some(job)]) <= U32_MAX && CapsRight(was[i := Some(job)], now, pool, singleMax, specNMax)
    ensures UsedSum(now) == UsedSum(was) + job.nPrompt && Active(now) == Active(was) + 1
    ensures SeatsTaken(was, now, i) && Seated(was, now, i, job, pool, singleMax, specNMax)
    ensures SeatsRight(was, specNMax) ==>
      && (Safe(now, pool, specNMax) <==> JoinLeavesRoom(was, job.nPrompt, pool, specNMax))
      && (Ready(now, pool, singleMax, specNMax) <==> JoinKeepsReady(was, job.nPrompt, pool, singleMax, specNMax))
      && (specNMax > 0 || Active(was) <= 1 ==> Ready(now, pool, singleMax, specNMax))
  {
    hide *;
    var bound := was[i := Some(job)];
    SitDown(was, i, job, specNMax);
    if SeatsRight(was, specNMax) {
      JoinSafe(was, i, bound, pool, specNMax);
      JoinReady(was, i, bound, pool, singleMax, specNMax);
    }
    RecappedSafe(bound, now, pool, singleMax, specNMax);
    RecappedReady(bound, now, pool, singleMax, specNMax);
    RecappedSeats(bound, now, pool, singleMax, specNMax);
    SeatedIs(was, now, i, job, pool, singleMax, specNMax);
  }

  /** Seat `i` was taken, the others are as taken as before. */
  ghost predicate SeatsTaken(was: seq<Seat>, now: seq<Seat>, i: nat) {
    |now| == |was| && forall k :: 0 <= k < |was| ==> (now[k].None? <==> was[k].None? && k != i)
  }

  lemma RecappedSeats(was: seq<Seat>, now: seq<Seat>, pool: U32, singleMax: U32, specNMax: U32)
    requires UsedSum(was) <= U32_MAX && |was| <= U32_MAX && CapsRight(was, now, pool, singleMax, specNMax)
    ensures |now| == |was| && forall k :: 0 <= k < |was| ==> (now[k].None? <==> was[k].None?)
  {
    forall k | 0 <= k < |was| ensures now[k].None? <==> was[k].None? {
      assert RecappedAt(was, k, now[k], pool, singleMax, specNMax);
    }
  }

  /** With the joiner's prompt, the pool still holds back for every slot, the joiner included. */
  predicate JoinLeavesRoom(s: seq<Seat>, nPrompt: U32, pool: U32, specNMax: U32) {
    UsedSum(s) + nPrompt + HeldSum(s, specNMax) + SpecHeadroom(specNMax) <= pool
  }

  /** What a join must leave for the slots to stay `Ready`: room for what is held back, and without
    * speculation a cell for every active slot, or two for every slot it cramps, less a single cell. */
  predicate JoinKeepsReady(s: seq<Seat>, nPrompt: U32, pool: U32, singleMax: U32, specNMax: U32)
    requires Active(s) < U32_MAX
  {
    && JoinLeavesRoom(s, nPrompt, pool, specNMax)
    && (specNMax > 0 || UsedSum(s) + nPrompt + Active(s) + 1 <= pool
        || UsedSum(s) + nPrompt + 2 * Cramped(s, Share(Active(s) + 1, pool, singleMax, 0)) <= pool + 1)
  }

  /** The caps recomputed, then the events. */
  ghost predicate Iterated(was: seq<Seat>, next: seq<Seat>, events: seq<Event>, pool: U32, singleMax: U32, specNMax: U32)
    requires UsedSum(was) <= U32_MAX && |was| <= U32_MAX
  {
    exists now :: (
      && CapsRight(was, now, pool, singleMax, specNMax)
      && EventsFit(now, events, specNMax) && Stepped(now, next, events, specNMax))
  }

  datatype JoinOutcome = Bound | Deferred | Rejected

  class Pool {
    const jobs: array<Seat>
    const pool: U32
    const singleMax: U32
    const specNMax: U32

    constructor (nParallel: nat, pool: U32, singleMax: U32, specNMax: U32)
      ensures fresh(jobs) && jobs.Length == nParallel && Safe(jobs[..], pool, specNMax)
      ensures nParallel <= U32_MAX ==> Ready(jobs[..], pool, singleMax, specNMax)
      ensures forall i :: 0 <= i < nParallel ==> jobs[i].None?
      ensures this.pool == pool && this.singleMax == singleMax && this.specNMax == specNMax
    {
      this.pool, this.singleMax, this.specNMax := pool, singleMax, specNMax;
      jobs := new Seat[nParallel](_ => None);
      new;
      NoneUsed(jobs[..], specNMax);
    }

    /** One joiner of `join_waiting`: cap, admission, bind, new caps for everyone. */
    method Join(i: nat, nPrompt: U32, maxTokensReq: U32) returns (o: JoinOutcome)
      requires i < jobs.Length <= U32_MAX && jobs[i].None? && UsedSum(jobs[..]) <= U32_MAX && Active(jobs[..]) < U32_MAX
      modifies jobs
      ensures o.Deferred? <==> Decision(UsedSum(old(jobs[..])), Active(old(jobs[..])) + 1, nPrompt, maxTokensReq, pool, singleMax, specNMax).Defer?
      ensures !o.Bound? ==> jobs[..] == old(jobs[..])
      ensures o.Bound? <==> !o.Deferred? && 0 < nPrompt < CapForJoin(UsedSum(old(jobs[..])), Active(old(jobs[..])) + 1, pool, singleMax, specNMax)
      ensures o.Bound? ==> exists job ::
        Joined(job, nPrompt, maxTokensReq) && Seated(old(jobs[..]), jobs[..], i, job, pool, singleMax, specNMax)
      ensures o.Bound? ==>
        && UsedSum(jobs[..]) == UsedSum(old(jobs[..])) + nPrompt && Active(jobs[..]) == Active(old(jobs[..])) + 1
        && UsedSum(jobs[..]) + SpecHeadroom(specNMax) * Active(jobs[..]) < pool
      ensures o.Bound? ==> SeatsTaken(old(jobs[..]), jobs[..], i)
      ensures o.Bound? && SeatsRight(old(jobs[..]), specNMax) ==>
        && (Safe(jobs[..], pool, specNMax) <==> JoinLeavesRoom(old(jobs[..]), nPrompt, pool, specNMax))
        && (Ready(jobs[..], pool, singleMax, specNMax) <==> JoinKeepsReady(old(jobs[..]), nPrompt, pool, singleMax, specNMax))
        && (specNMax > 0 || Active(old(jobs[..])) <= 1 ==> Ready(jobs[..], pool, singleMax, specNMax))
    {
      hide SlotCap, EffectiveCap, UsedSum, Active, HeldSum, Cramped, Safe, Ready, JoinLeavesRoom, JoinKeepsReady, SeatsRight, CapsRight, SeatsTaken;
      var nActive := Active(jobs[..]) + 1;
      var others := UsedSum(jobs[..]);
      var cap := CapForJoin(others, nActive, pool, singleMax, specNMax);
      if AdmissionDecision(cap, nPrompt, maxTokensReq, pool, singleMax, specNMax).Defer? {
        return Deferred;
      }
      if nPrompt == 0 || nPrompt >= cap {
        return Rejected;
      }
      JoinFits(others, nActive, pool, singleMax, specNMax, nPrompt);
      var reuse: U32 :| reuse < nPrompt;
      var limit := MinU(MaxU(maxTokensReq, 1), MaxU(SatSub(cap, nPrompt), 1));
      ghost var was := jobs[..];
      var job := CapJob(reuse, nPrompt, cap, MaxU(maxTokensReq, 1), limit, 0, 0, false);
      Occupy(i, job);
      assert Joined(job, nPrompt, maxTokensReq) && Seated(was, jobs[..], i, job, pool, singleMax, specNMax);
      o := Bound;
    }

    method Occupy(i: nat, job: CapJob)
      requires i < jobs.Length <= U32_MAX && jobs[i].None? && !job.decoding && job.drafts == job.generated == 0 && job.nPast < job.nPrompt
      requires Active(jobs[..]) < U32_MAX
      requires UsedSum(jobs[..]) + job.nPrompt + SpecHeadroom(specNMax) * (Active(jobs[..]) + 1) < pool
      modifies jobs
      ensures UsedSum(jobs[..]) == UsedSum(old(jobs[..])) + job.nPrompt && Active(jobs[..]) == Active(old(jobs[..])) + 1
      ensures SeatsTaken(old(jobs[..]), jobs[..], i)
      ensures Seated(old(jobs[..]), jobs[..], i, job, pool, singleMax, specNMax)
      ensures SeatsRight(old(jobs[..]), specNMax) ==>
        && (Safe(jobs[..], pool, specNMax) <==> JoinLeavesRoom(old(jobs[..]), job.nPrompt, pool, specNMax))
        && (Ready(jobs[..], pool, singleMax, specNMax) <==> JoinKeepsReady(old(jobs[..]), job.nPrompt, pool, singleMax, specNMax))
        && (specNMax > 0 || Active(old(jobs[..])) <= 1 ==> Ready(jobs[..], pool, singleMax, specNMax))
    {
      hide *;
      ghost var was := jobs[..];
      SitDown(was, i, job, specNMax);
      jobs[i] := Some(job);
      assert jobs[..] == was[i := Some(job)];
      RecomputeSlotCaps(jobs, pool, singleMax, specNMax);
      Occupied(was, i, job, jobs[..], pool, singleMax, specNMax);
    }

    /** One slot after the batch. */
    method Settle(i: nat, e: Event)
      requires i < jobs.Length && Fitting(jobs[i], e, specNMax)
      modifies jobs
      ensures jobs[i] == Settled(old(jobs[i]), e, specNMax)
      ensures forall k :: 0 <= k < jobs.Length && k != i ==> jobs[k] == old(jobs[k])
    {
      if e.Idle? { return; }
      var job := jobs[i].value;
      if e.Replayed? {
        jobs[i] := Some(job.(drafts := e.drafts));
        return;
      }
      var nPast: nat, generated := job.nPast, job.generated;
      if e.Chunk? {
        nPast := nPast + e.take;
        if nPast < job.nPrompt {
          jobs[i] := Some(job.(nPast := nPast));
          return;
        }
        generated := 1;
      } else {
        nPast, generated := nPast + 1 + e.accepted, generated + 1 + e.accepted;
      }
      if e.stop || generated >= job.maxTokens || nPast + 1 > job.ctxCap {
        jobs[i] := None;
      } else {
        jobs[i] := Some(job.(nPast := nPast, generated := generated, drafts := e.drafts, decoding := true));
      }
    }

    /** A job ends between two decodes. */
    method Leave(i: nat)
      requires i < jobs.Length <= U32_MAX
      modifies jobs
      ensures jobs[..] == old(jobs[..])[i := None]
      ensures Safe(old(jobs[..]), pool, specNMax) ==> Safe(jobs[..], pool, specNMax)
      ensures Ready(old(jobs[..]), pool, singleMax, specNMax) ==> Ready(jobs[..], pool, singleMax, specNMax)
    {
      ghost var was := jobs[..];
      LeaveSums(was, i, specNMax);
      jobs[i] := None;
      assert jobs[..] == was[i := None];
      if specNMax == 0 { LeaveCramped(was, i, pool, singleMax); }
    }

    /** One iteration: new caps, a batch, and what comes of it. As long as the offers fit whenever the
      * caps are recomputed, and with two active slots they always do, `Ready` holds over any run of
      * joins that keep it (`Join` says which), iterations and departures, and so every batch fits
      * (`NextDecodeFits`). Without speculation the decoding slots are all in the batch or all left out. */
    method Iterate(events: seq<Event>)
      requires jobs.Length <= U32_MAX && UsedSum(jobs[..]) <= U32_MAX && specNMax < U32_MAX
      requires EventsFit(jobs[..], events, specNMax)
      requires specNMax > 0 || AllDecode(jobs[..], events) || NoneDecodes(jobs[..], events)
      modifies jobs
      ensures Iterated(old(jobs[..]), jobs[..], events, pool, singleMax, specNMax)
      ensures Ready(old(jobs[..]), pool, singleMax, specNMax) ==>
        Active(old(jobs[..])) <= 2 || OffersFit(old(jobs[..]), pool, singleMax, specNMax) ==>
          Ready(jobs[..], pool, singleMax, specNMax)
    {
      hide UsedSum, Active, HeldSum, Cramped, CapsRight, OffersFit, AllDecode, NoneDecodes, Settled, Fitting, Ready;
      ghost var was := jobs[..];
      RecomputeSlotCaps(jobs, pool, singleMax, specNMax);
      ghost var now := jobs[..];
      SameEvents(was, now, events, pool, singleMax, specNMax);
      if Active(was) <= 2 { TwoActiveFit(was, pool, singleMax, specNMax); }
      for i := 0 to jobs.Length
        invariant forall k :: i <= k < jobs.Length ==> jobs[k] == now[k]
        invariant forall k :: 0 <= k < i ==> Fitting(now[k], events[k], specNMax) && jobs[k] == Settled(now[k], events[k], specNMax)
      {
        Settle(i, events[i]);
      }
      assert CapsRight(was, now, pool, singleMax, specNMax) && EventsFit(now, events, specNMax) && Stepped(now, jobs[..], events, specNMax);
      if Ready(was, pool, singleMax, specNMax) && OffersFit(was, pool, singleMax, specNMax) {
        ReadyKept(was, now, jobs[..], events, pool, singleMax, specNMax);
      }
    }
  }

  /** What a batch may be does not depend on the caps. */
  lemma SameEvents(was: seq<Seat>, now: seq<Seat>, events: seq<Event>, pool: U32, singleMax: U32, specNMax: U32)
    requires |was| <= U32_MAX && UsedSum(was) <= U32_MAX && CapsRight(was, now, pool, singleMax, specNMax)
    requires EventsFit(was, events, specNMax)
    ensures |now| == |was| && EventsFit(now, events, specNMax)
    ensures AllDecode(now, events) <==> AllDecode(was, events)
    ensures NoneDecodes(now, events) <==> NoneDecodes(was, events)
  {
    RecapDetails(was, now, pool, singleMax, specNMax);
    forall i | 0 <= i < |was| ensures Fitting(now[i], events[i], specNMax) && DecodingSeat(now[i]) == DecodingSeat(was[i]) {
      assert SameSeat(was[i], now[i]) && Fitting(was[i], events[i], specNMax);
    }
  }

  lemma RecappedReady(was: seq<Seat>, now: seq<Seat>, pool: U32, singleMax: U32, specNMax: U32)
    requires UsedSum(was) <= U32_MAX && |was| == |now| <= U32_MAX && CapsRight(was, now, pool, singleMax, specNMax)
    ensures Ready(now, pool, singleMax, specNMax) <==> Ready(was, pool, singleMax, specNMax)
  {
    RecappedSafe(was, now, pool, singleMax, specNMax);
  }

  lemma {:induction false} NoneUsed(s: seq<Seat>, specNMax: U32)
    requires forall i :: 0 <= i < |s| ==> s[i].None?
    ensures UsedSum(s) == HeldSum(s, specNMax) == Active(s) == 0
  {
    if s != [] { NoneUsed(s[..|s| - 1], specNMax); }
  }

  lemma {:induction false} JoinSums(was: seq<Seat>, i: nat, now: seq<Seat>, specNMax: U32)
    requires i < |was| == |now| && was[i].None? && now == was[i := now[i]] && now[i].Some?
    ensures UsedSum(now) == UsedSum(was) + Used(now[i]) && Active(now) == Active(was) + 1
    ensures HeldSum(now, specNMax) == HeldSum(was, specNMax) + Held(now[i], specNMax)
    ensures !DecodingSeat(now[i]) ==> forall share: U32 :: Cramped(now, share) == Cramped(was, share)
  {
    var n := |was| - 1;
    if i < n {
      assert now[..n] == was[..n][i := now[i]];
      JoinSums(was[..n], i, now[..n], specNMax);
    } else {
      assert now[..n] == was[..n];
    }
  }

  lemma LeaveSums(was: seq<Seat>, i: nat, specNMax: U32)
    requires i < |was|
    ensures UsedSum(was[i := None]) <= UsedSum(was) && HeldSum(was[i := None], specNMax) <= HeldSum(was, specNMax)
  {
    var n := |was| - 1;
    if i < n {
      assert was[i := None][..n] == was[..n][i := None];
      LeaveSums(was[..n], i, specNMax);
    } else {
      assert was[i := None][..n] == was[..n];
    }
  }

  ghost predicate SeatsRight(s: seq<Seat>, specNMax: U32) {
    forall i :: 0 <= i < |s| ==> SeatRight(s[i], specNMax)
  }

  lemma {:induction false} HeldAtMost(s: seq<Seat>)
    ensures HeldSum(s, 0) <= Active(s)
  {
    if s != [] { HeldAtMost(s[..|s| - 1]); }
  }

  lemma JoinSafe(was: seq<Seat>, i: nat, now: seq<Seat>, pool: U32, specNMax: U32)
    requires |now| == |was| && i < |was| && was[i].None? && now == was[i := now[i]] && now[i].Some?
    requires SeatsRight(was, specNMax) && SeatRight(now[i], specNMax) && !now[i].value.decoding
    requires UsedSum(now) + SpecHeadroom(specNMax) * Active(now) < pool
    ensures Safe(now, pool, specNMax) <==> JoinLeavesRoom(was, Used(now[i]), pool, specNMax)
    ensures specNMax > 0 || Active(was) <= 1 ==> Safe(now, pool, specNMax)
  {
    JoinSums(was, i, now, specNMax);
    hide UsedSum, HeldSum, Active;
    if specNMax > 0 { HeldIs(now, specNMax); } else { HeldAtMost(was); }
    forall k | 0 <= k < |now| ensures SeatRight(now[k], specNMax) {
      if k != i { assert SeatRight(was[k], specNMax); }
    }
  }

  lemma CrampedAtMost(s: seq<Seat>, share: U32)
    ensures Cramped(s, share) <= HeldSum(s, 0)
  {
    if s != [] { CrampedAtMost(s[..|s| - 1], share); }
  }

  lemma JoinReady(was: seq<Seat>, i: nat, now: seq<Seat>, pool: U32, singleMax: U32, specNMax: U32)
    requires |now| == |was| <= U32_MAX && Active(was) < U32_MAX && i < |was| && was[i].None? && now == was[i := now[i]] && now[i].Some?
    requires SeatsRight(was, specNMax) && SeatRight(now[i], specNMax) && !now[i].value.decoding
    requires UsedSum(now) + SpecHeadroom(specNMax) * Active(now) < pool
    ensures Ready(now, pool, singleMax, specNMax) <==> JoinKeepsReady(was, Used(now[i]), pool, singleMax, specNMax)
    ensures specNMax > 0 || Active(was) <= 1 ==> Ready(now, pool, singleMax, specNMax)
  {
    JoinSums(was, i, now, specNMax);
    JoinSafe(was, i, now, pool, specNMax);
    CrampedAtMost(was, Share(Active(now), pool, singleMax, 0));
    HeldAtMost(was);
    assert specNMax == 0 ==> SpecHeadroom(specNMax) == 0;
    hide UsedSum, HeldSum, Active, Cramped, Safe, SeatsRight, SeatRight, Share, JoinLeavesRoom, SpecHeadroom, Used;
  }

  lemma {:induction false} LeaveCounts(was: seq<Seat>, i: nat, share: U32, share': U32)
    requires i < |was| && share <= share'
    ensures Active(was[i := None]) <= Active(was) && Cramped(was[i := None], share') <= Cramped(was, share)
  {
    var n := |was| - 1;
    if i < n {
      assert was[i := None][..n] == was[..n][i := None];
      LeaveCounts(was[..n], i, share, share');
    } else {
      assert was[i := None][..n] == was[..n];
      CrampedLess(was[..n], share, share');
    }
  }

  lemma {:induction false} CrampedLess(s: seq<Seat>, share: U32, share': U32)
    requires share <= share'
    ensures Cramped(s, share') <= Cramped(s, share)
  {
    if s != [] { CrampedLess(s[..|s| - 1], share, share'); }
  }

  lemma LeaveCramped(was: seq<Seat>, i: nat, pool: U32, singleMax: U32)
    requires i < |was| <= U32_MAX
    ensures Ready(was, pool, singleMax, 0) ==> Ready(was[i := None], pool, singleMax, 0)
  {
    var next := was[i := None];
    LeaveSums(was, i, 0);
    LeaveCounts(was, i, 0, 0);
    ShareGrows(Active(was), Active(next), pool, singleMax);
    LeaveCounts(was, i, ShareOf(was, pool, singleMax, 0), ShareOf(next, pool, singleMax, 0));
    assert SeatsRight(was, 0) ==> SeatsRight(next, 0);
  }
}
