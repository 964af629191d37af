/** Per-slot context caps over one shared KV pool, in the source's saturating 32-bit arithmetic. */
module CtxCap {
  import opened Common

  const U32_MAX: nat := 0xFFFF_FFFF

  type U32 = n: nat | n <= U32_MAX

  function SatAdd(a: U32, b: U32): U32 { if a + b <= U32_MAX then a + b else U32_MAX }

  function SatSub(a: U32, b: U32): U32 { if a < b then 0 else a - b }

  function SatMul(a: U32, b: U32): U32 { if a * b <= U32_MAX then a * b else U32_MAX }

  function MinU(a: U32, b: U32): U32 { if a < b then a else b }

  function MaxU(a: U32, b: U32): U32 { if a < b then b else a }

  /** The configured cap of a lone slot; zero means the whole pool. */
  function ResolveSingleMax(singleMax: U32, pool: U32): U32 {
    if singleMax == 0 then pool else MinU(singleMax, pool)
  }

  /** Cells one verify step may take beyond the position; zero with speculation off. */
  function SpecHeadroom(specNMax: U32): U32 {
    if specNMax == 0 then 0 else SatAdd(specNMax, 1)
  }

  function SpecReserve(specNMax: U32, nActive: U32): U32 {
    SatMul(SpecHeadroom(specNMax), MaxU(nActive, 1))
  }

  function Usable(pool: U32, specNMax: U32, nActive: U32): U32 { SatSub(pool, SpecReserve(specNMax, nActive)) }

  function SlotCap(singleMax: U32, used: U32, pool: U32, nActive: U32, specNMax: U32): U32 {
    if pool == 0 then 0
    else MinU(ResolveSingleMax(singleMax, pool), MaxU(used, Fair(Usable(pool, specNMax, nActive), nActive)))
  }

  function Fair(usable: U32, nActive: U32): U32 { usable / MaxU(nActive, 1) }

  function EffectiveCap(cap: U32, used: U32, pool: U32, othersUsed: U32, specNMax: U32, nActive: U32): U32 {
    MaxU(used, MinU(cap, SatSub(SatSub(pool, othersUsed), SpecReserve(specNMax, nActive))))
  }

  function CapForJoin(othersUsed: U32, nActiveAfter: U32, pool: U32, singleMax: U32, specNMax: U32): U32 {
    EffectiveCap(SlotCap(singleMax, 0, pool, nActiveAfter, specNMax), 0, pool, othersUsed, specNMax, nActiveAfter)
  }

  const UNLIMITED_MAX_TOKENS: U32 := U32_MAX

  datatype JoinDecision = Admit(cap: U32) | Defer | Clamp(cap: U32)

  function Need(promptLen: U32, maxTokensReq: U32): U32 { SatAdd(promptLen, MaxU(maxTokensReq, 1)) }

  function AdmissionDecision(cap: U32, promptLen: U32, maxTokensReq: U32, pool: U32, singleMax: U32, specNMax: U32): JoinDecision {
    if maxTokensReq == UNLIMITED_MAX_TOKENS then Admit(cap)
    else if cap >= Need(promptLen, maxTokensReq) then Admit(cap)
    else if Need(promptLen, maxTokensReq) > CapForJoin(0, 1, pool, singleMax, specNMax) then Clamp(cap)
    else Defer
  }

  /** The decision for a joiner at a load of `others` cells and `n` active slots with it. */
  function Decision(others: U32, n: U32, promptLen: U32, maxTokensReq: U32, pool: U32, singleMax: U32, specNMax: U32): JoinDecision {
    AdmissionDecision(CapForJoin(others, n, pool, singleMax, specNMax), promptLen, maxTokensReq, pool, singleMax, specNMax)
  }

  // ---------------------------------------------------------------- more load, less room

  lemma DivAntitone(u: nat, u': nat, n: nat, n': nat)
    requires u' <= u && 0 < n <= n'
    ensures u' / n' <= u / n
  {
    var q, q' := u / n, u' / n';
    assert q' * n' <= u';
    if q' > q {
      MulMonotone(q + 1, q', n);
      MulMonotone(n, n', q');
    }
  }

  lemma MulMonotone(a: nat, b: nat, c: nat)
    requires a <= b
    ensures a * c <= b * c && c * a <= c * b
  {
  }

  lemma ReserveMonotone(specNMax: U32, n: U32, n': U32)
    requires n <= n'
    ensures SpecReserve(specNMax, n) <= SpecReserve(specNMax, n')
  {
    MulMonotone(MaxU(n, 1), MaxU(n', 1), SpecHeadroom(specNMax));
  }

  /** A joiner's cap never grows with the others' occupancy or with their number. */
  lemma CapForJoinAntitone(others: U32, n: U32, others': U32, n': U32, pool: U32, singleMax: U32, specNMax: U32)
    requires others <= others' && n <= n'
    ensures CapForJoin(others', n', pool, singleMax, specNMax) <= CapForJoin(others, n, pool, singleMax, specNMax)
  {
    ReserveMonotone(specNMax, n, n');
    hide SpecReserve;
    DivAntitone(Usable(pool, specNMax, n), Usable(pool, specNMax, n'), MaxU(n, 1), MaxU(n', 1));
  }

  /** Waiting helps a deferred request, an admitted one needs no waiting, and only a request no
    * load could ever fit is clamped. */
  lemma AdmissionNeverStrands(others: U32, n: U32, promptLen: U32, maxTokensReq: U32, pool: U32, singleMax: U32, specNMax: U32)
    requires n > 0
    ensures Decision(others, n, promptLen, maxTokensReq, pool, singleMax, specNMax).Defer? ==>
      Decision(0, 1, promptLen, maxTokensReq, pool, singleMax, specNMax).Admit?
    ensures Decision(others, n, promptLen, maxTokensReq, pool, singleMax, specNMax).Admit? ==>
      (forall others': U32, n': U32 :: others' <= others && n' <= n ==>
        Decision(others', n', promptLen, maxTokensReq, pool, singleMax, specNMax).Admit?)
    ensures Decision(others, n, promptLen, maxTokensReq, pool, singleMax, specNMax).Clamp? ==>
      (forall others': U32, n': U32 :: n' > 0 ==>
        Decision(others', n', promptLen, maxTokensReq, pool, singleMax, specNMax).Clamp?)
  {
    hide CapForJoin;
    forall others': U32, n': U32 | others' <= others && n' <= n
      ensures CapForJoin(others, n, pool, singleMax, specNMax) <= CapForJoin(others', n', pool, singleMax, specNMax)
    {
      CapForJoinAntitone(others', n', others, n, pool, singleMax, specNMax);
    }
    forall others': U32, n': U32 | n' > 0
      ensures CapForJoin(others', n', pool, singleMax, specNMax) <= CapForJoin(0, 1, pool, singleMax, specNMax)
    {
      CapForJoinAntitone(0, 1, others', n', pool, singleMax, specNMax);
    }
  }

  /** What each verdict says about the request. */
  lemma DecisionMeans(others: U32, n: U32, promptLen: U32, maxTokensReq: U32, pool: U32, singleMax: U32, specNMax: U32)
    requires n > 0
    ensures maxTokensReq == UNLIMITED_MAX_TOKENS ==>
      Decision(others, n, promptLen, maxTokensReq, pool, singleMax, specNMax) == Admit(CapForJoin(others, n, pool, singleMax, specNMax))
    ensures maxTokensReq != UNLIMITED_MAX_TOKENS ==>
      var need, cap, solo := Min(promptLen + Max(maxTokensReq, 1), U32_MAX), CapForJoin(others, n, pool, singleMax, specNMax),
        CapForJoin(0, 1, pool, singleMax, specNMax);
      match Decision(others, n, promptLen, maxTokensReq, pool, singleMax, specNMax)
      case Admit(c) => c == cap && need <= cap
      case Defer => cap < need <= solo
      case Clamp(c) => c == cap <= solo < need
  {
    CapForJoinAntitone(0, 1, others, n, pool, singleMax, specNMax);
  }

  // ---------------------------------------------------------------- the pool is never oversold

  /** A prompt shorter than its join cap fits beside the others and every slot's verify step. */
  lemma JoinFits(others: U32, n: U32, pool: U32, singleMax: U32, specNMax: U32, nPrompt: U32)
    requires n > 0 && nPrompt < CapForJoin(others, n, pool, singleMax, specNMax)
    ensures others + nPrompt + SpecHeadroom(specNMax) * n < pool
  {
  }

  /** The caps of two active slots share out the pool behind the reserve, unless what is
    * already resident exceeds that. */
  lemma TwoCapsFit(used1: U32, used2: U32, pool: U32, singleMax: U32, specNMax: U32)
    ensures var c1 := EffectiveCap(SlotCap(singleMax, used1, pool, 2, specNMax), used1, pool, used2, specNMax, 2);
      var c2 := EffectiveCap(SlotCap(singleMax, used2, pool, 2, specNMax), used2, pool, used1, specNMax, 2);
      && c1 >= used1 && c2 >= used2
      && c1 + c2 <= Max(Usable(pool, specNMax, 2), used1 + used2)
  {
    hide SpecReserve;
    var u := Usable(pool, specNMax, 2);
    assert Fair(u, 2) * 2 <= u;
  }

  lemma SoloCapFits(used: U32, pool: U32, singleMax: U32, specNMax: U32)
    ensures var c := EffectiveCap(SlotCap(singleMax, used, pool, 1, specNMax), used, pool, 0, specNMax, 1);
      used <= c <= Max(Usable(pool, specNMax, 1), used)
  {
    hide SpecReserve;
  }

  /** A cap stays within the configured maximum and the pool, unless more is already resident. */
  lemma CapStaysWithin(used: U32, others: U32, n: U32, pool: U32, singleMax: U32, specNMax: U32)
    ensures var c := EffectiveCap(SlotCap(singleMax, used, pool, n, specNMax), used, pool, others, specNMax, n);
      && used <= c <= Max(used, pool)
      && (singleMax > 0 ==> c <= Max(used, singleMax))
  {
    hide SpecReserve;
  }

  /** A lone joiner gets the configured maximum, or all that the pool has behind the reserve. */
  lemma SoloCapIs(pool: U32, singleMax: U32, specNMax: U32)
    requires specNMax < U32_MAX
    ensures var c, free := CapForJoin(0, 1, pool, singleMax, specNMax), Max(0, pool - (if specNMax == 0 then 0 else specNMax + 1));
      c == if singleMax == 0 then free else Min(singleMax, free)
  {
  }

  /** What a slot below its share may be raised to. */
  function Share(n: U32, pool: U32, singleMax: U32, specNMax: U32): U32 {
    MinU(ResolveSingleMax(singleMax, pool), Fair(Usable(pool, specNMax, n), n))
  }

  /** What a cap offers beyond the occupancy: up to the share, and at most all of the free gap. */
  function Offer(used: U32, share: U32, gap: U32): U32 { MinU(SatSub(share, used), gap) }

  /** A cap is what the slot holds plus an offer, and every slot's offer is cut from one and the
    * same gap, the pool behind the reserve that nobody holds. */
  lemma CapIsUsedPlusOffer(used: U32, others: U32, n: U32, pool: U32, singleMax: U32, specNMax: U32)
    requires used + others <= U32_MAX
    ensures EffectiveCap(SlotCap(singleMax, used, pool, n, specNMax), used, pool, others, specNMax, n)
      == used + Offer(used, Share(n, pool, singleMax, specNMax), SatSub(Usable(pool, specNMax, n), used + others))
  {
    hide SpecReserve;
  }

  /** Three slots can be promised more cells than the pool has. */
  lemma ThreeCapsOversell()
    ensures var cap := (used: U32, others: U32) => EffectiveCap(SlotCap(0, used, 90_000, 3, 0), used, 90_000, others, 0, 3);
      && cap(50_000, 10_001) == 50_000 && cap(10_000, 50_001) == 30_000 && cap(1, 60_000) == 30_000
      && cap(50_000, 10_001) + cap(10_000, 50_001) + cap(1, 60_000) > 90_000
  {
  }
}
