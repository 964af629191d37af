/** Decoding one request: prefill chunks, speculative verify, checkpoint restore and replay. */
module Speculation {
  import opened Common
  import opened SeqKvs

  datatype FinishReason = Stop | Length | Cancelled | Timeout
  datatype Phase = Prefilling | Decoding
  datatype Outcome = Outcome(tokens: seq<Token>, reason: FinishReason)

  // ---------------------------------------------------------------- reference decoder

  /** One-token-at-a-time generation from history `prompt + gen`, under fixed limits. */
  function Plain(m: Model, prompt: seq<Token>, gen: seq<Token>, maxTokens: nat, ctxCap: nat): (o: Outcome)
    decreases maxTokens - |gen|
  {
    var t := m.target(prompt + gen);
    if m.isEog(t) || !m.decodable(t) then Outcome(gen, Stop)
    else
      var gen' := gen + [t];
      if |gen'| >= maxTokens then Outcome(gen', Length)
      else if m.stops(gen') then Outcome(gen', Stop)
      else if |prompt| + |gen| + 1 > ctxCap then Outcome(gen', Length)
      else Plain(m, prompt, gen', maxTokens, ctxCap)
  }

  /** Every token is the one the target picks after the prompt and the tokens before it. */
  ghost predicate Greedy(m: Model, prompt: seq<Token>, gen: seq<Token>) {
    forall i :: 0 <= i < |gen| ==> gen[i] == m.target(prompt + gen[..i]) && !m.isEog(gen[i])
  }

  /** The plain decoder only ever emits what the target picks, and extends what it was given. */
  lemma {:induction false} PlainIsGreedy(m: Model, prompt: seq<Token>, gen: seq<Token>, maxTokens: nat, ctxCap: nat)
    requires Greedy(m, prompt, gen)
    ensures var o := Plain(m, prompt, gen, maxTokens, ctxCap);
      gen <= o.tokens && Greedy(m, prompt, o.tokens) && !o.reason.Cancelled? && !o.reason.Timeout?
    decreases maxTokens - |gen|
  {
    var t := m.target(prompt + gen);
    if !m.isEog(t) && m.decodable(t) {
      GreedySnoc(m, prompt, gen);
      if |gen| + 1 < maxTokens && !m.stops(gen + [t]) && |prompt| + |gen| + 1 <= ctxCap {
        PlainIsGreedy(m, prompt, gen + [t], maxTokens, ctxCap);
      }
    }
  }

  /** What was generated so far and the next token of it head the plain decoder's output. */
  lemma PlainContinues(m: Model, prompt: seq<Token>, gen: seq<Token>, maxTokens: nat, ctxCap: nat)
    requires Greedy(m, prompt, gen)
    ensures gen <= Plain(m, prompt, gen, maxTokens, ctxCap).tokens
    ensures var t := m.target(prompt + gen);
      !m.isEog(t) && m.decodable(t) ==> gen + [t] <= Plain(m, prompt, gen, maxTokens, ctxCap).tokens
  {
    PlainIsGreedy(m, prompt, gen, maxTokens, ctxCap);
    var t := m.target(prompt + gen);
    if !m.isEog(t) && m.decodable(t) {
      GreedySnoc(m, prompt, gen);
      if |gen| + 1 < maxTokens && !m.stops(gen + [t]) && |prompt| + |gen| + 1 <= ctxCap {
        PlainIsGreedy(m, prompt, gen + [t], maxTokens, ctxCap);
      }
    }
  }

  lemma GreedySnoc(m: Model, prompt: seq<Token>, gen: seq<Token>)
    requires Greedy(m, prompt, gen) && !m.isEog(m.target(prompt + gen))
    ensures Greedy(m, prompt, gen + [m.target(prompt + gen)])
  {
    var gen' := gen + [m.target(prompt + gen)];
    forall i | 0 <= i < |gen'| ensures gen'[i] == m.target(prompt + gen'[..i]) && !m.isEog(gen'[i]) {
      assert gen'[..i] == gen[..i];
      if i == |gen| { assert gen[..i] == gen; }
    }
  }

  /** Two greedy generations of one prompt cannot disagree. */
  lemma {:induction false} GreedyIsUnique(m: Model, prompt: seq<Token>, a: seq<Token>, b: seq<Token>)
    requires Greedy(m, prompt, a) && Greedy(m, prompt, b) && |a| <= |b|
    ensures a <= b
  {
    if a != [] {
      var k := |a| - 1;
      assert forall i :: 0 <= i < k ==> a[..k][..i] == a[..i];
      GreedyIsUnique(m, prompt, a[..k], b);
      assert a[..k] == b[..k];
      assert a == a[..k] + [a[k]];
    }
  }

  // ---------------------------------------------------------------- accepting drafts

  /** `accept_drafts`: matching drafts, then the first mismatch or the bonus token. */
  method AcceptDrafts(samples: seq<Token>, drafts: seq<Token>) returns (accepted: seq<Token>)
    requires |samples| <= |drafts| + 1
    ensures exists m: nat :: IsCommonPrefixLen(samples, drafts, m) && accepted == samples[..Min(m + 1, |samples|)]
  {
    accepted := [];
    var i := 0;
    while i < |drafts|
      invariant 0 <= i <= |drafts| && i <= |samples|
      invariant accepted == samples[..i] == drafts[..i]
    {
      if i >= |samples| { break; }
      accepted := accepted + [samples[i]];
      if samples[i] != drafts[i] {
        assert IsCommonPrefixLen(samples, drafts, i);
        return;
      }
      i := i + 1;
    }
    assert IsCommonPrefixLen(samples, drafts, i);
    if |drafts| < |samples| {
      accepted := accepted + [samples[|drafts|]];
    }
  }

  /** If every row was sampled after the drafts before it, the accepted tokens are greedy. */
  lemma AcceptedFollowTarget(m: Model, base: seq<Token>, pending: Token, drafts: seq<Token>, n: nat, a: seq<Token>)
    requires IsCommonPrefixLen(Rows(m, base, [pending] + drafts), drafts, n)
    requires a == Rows(m, base, [pending] + drafts)[..n + 1]
    ensures a[..n] == drafts[..n]
    ensures forall i :: 0 <= i < |a| ==> a[i] == m.target(base + [pending] + a[..i])
  {
    var toks := [pending] + drafts;
    var samples := Rows(m, base, toks);
    assert a[..n] == samples[..n];
    forall i | 0 <= i < |a| ensures a[i] == m.target(base + [pending] + a[..i]) {
      assert a[..i] == drafts[..i] by {
        assert a[..i] == a[..n][..i];
        assert drafts[..i] == drafts[..n][..i];
      }
      SampleFollows(m, base, pending, drafts, i);
    }
  }

  /** Counting the matches again on the accepted tokens gives the same number. */
  lemma MatchedAgain(samples: seq<Token>, drafts: seq<Token>, m: nat, a: seq<Token>, n: nat)
    requires IsCommonPrefixLen(samples, drafts, m) && m < |samples| && a == samples[..m + 1]
    requires IsCommonPrefixLen(a, drafts, n)
    ensures n == m
  {
    assert a[..m] == samples[..m];
    CommonPrefixLenIsMaximal(a, drafts, n, m);
    assert samples[..n] == a[..n];
    CommonPrefixLenIsMaximal(samples, drafts, m, n);
  }

  lemma SampleFollows(m: Model, base: seq<Token>, pending: Token, drafts: seq<Token>, i: nat)
    requires i <= |drafts|
    ensures Rows(m, base, [pending] + drafts)[i] == m.target(base + [pending] + drafts[..i])
  {
    var toks := [pending] + drafts;
    RowAt(m, base, toks, i);
    assert toks[..i + 1] == [pending] + drafts[..i];
    assert base + toks[..i + 1] == base + [pending] + drafts[..i];
  }

  // ---------------------------------------------------------------- one job on one slot

  /** `ActiveJob` together with the sequence it decodes on. */
  class Job {
    const kv: SeqKv
    const prompt: seq<Token>
    const promptOffset: nat
    var phase: Phase
    var promptPos: nat
    var nPast: nat
    var maxTokens: nat
    var ctxCap: nat
    var pending: Option<Token>
    var drafts: seq<Token>
    var generated: seq<Token>
    var ckpt: Option<Dump>
    var ckptNPast: nat
    var isReplay: bool
    var finish: Option<FinishReason>

    // ---- what every step keeps

    /** While prefilling the cells are the consumed head of the prompt; while decoding they are
      * prompt and generation minus the pending token; `nPast` counts them. */
    ghost predicate Tracks()
      reads this, kv
    {
      && kv.reliable && kv.orphans == 0 && nPast == |kv.cells|
      && Greedy(kv.model, prompt, generated)
      && (finish.Some? ==> Agree(kv.cells, prompt + generated))
      && (finish.None? && phase.Prefilling? ==>
            && nPast == promptOffset + promptPos < |prompt|
            && kv.cells == prompt[..nPast]
            && generated == [] && pending.None? && drafts == [] && !isReplay)
      && (finish.None? && phase.Decoding? ==>
            && generated != [] && pending == Some(generated[|generated| - 1])
            && prompt + generated == kv.cells + [pending.value])
    }

    /** `Tracks` for a job past its prefill, whose generation extends `gen`. */
    ghost predicate TracksAfter(gen: seq<Token>)
      reads this, kv
    {
      Tracks() && gen <= generated && (finish.None? ==> phase.Decoding?)
    }

    /** The pending drafts are what the target would pick next, as after a checkpoint restore. */
    ghost predicate Confirmed()
      reads this, kv
    {
      && isReplay && drafts != []
      && forall i :: 0 <= i < |drafts| ==> drafts[i] == kv.model.target(prompt + generated + drafts[..i])
    }

    /** The draft budget of `take_draft_jobs`: verifying the drafts cannot touch the cap. */
    ghost predicate DraftsFit()
      reads this
    {
      drafts != [] ==> nPast + 2 + |drafts| <= ctxCap
    }

    /** The plain decoder would end with the very next pick. */
    ghost predicate EndsNext()
      reads this`generated, this`maxTokens, this`ctxCap
    {
      var t := kv.model.target(prompt + generated);
      || kv.model.isEog(t) || !kv.model.decodable(t)
      || |generated| + 1 >= maxTokens || kv.model.stops(generated + [t])
      || |prompt| + |generated| + 1 > ctxCap
    }

    /** How many of the first `k` drafts the target confirms when they are decoded over `base`. */
    ghost function Confirms(base: seq<Token>, k: nat): (m: nat)
      requires k <= |drafts| && pending.Some?
      reads this`drafts, this`pending
      ensures m <= k
    {
      Lcp(Rows(kv.model, base, [pending.value] + drafts[..k]), drafts[..k])
    }

    /** Verifying `k` drafts over `base` stays clear of the cap: they are dumped and rejected, none
      * is confirmed, the confirmed ones leave a cell free, or the job ends with the next token. */
    ghost predicate Clear(base: seq<Token>, k: nat)
      requires k <= |drafts| && pending.Some?
      reads this`drafts, this`pending, this`generated, this`maxTokens, this`ctxCap
    {
      var m := Confirms(base, k);
      (m < k && |drafts| > kv.nRsSeq) || m == 0 || |base| + 1 + m < ctxCap || EndsNext()
    }

    /** The job ended for want of room that neither limit accounts for. */
    ghost predicate CutShort()
      reads this`finish, this`generated, this`maxTokens, this`ctxCap
    {
      finish == Some(Length) && |generated| < maxTokens && |prompt| + |generated| <= ctxCap
    }

    /** What the plain decoder would deliver from here on, or what was delivered. */
    ghost function Result(): Outcome
      reads this`finish, this`generated, this`maxTokens, this`ctxCap
    {
      if finish.Some? then Outcome(generated, finish.value)
      else Plain(kv.model, prompt, generated, maxTokens, ctxCap)
    }

    // ---- steps

    /** A job as `bind_slot` leaves it: `k` prompt tokens already resident. */
    constructor (kv: SeqKv, prompt: seq<Token>, k: nat, maxTokensReq: nat, ctxCap: nat)
      requires kv.reliable && kv.orphans == 0 && k < |prompt| && kv.cells == prompt[..k]
      ensures Tracks() && phase.Prefilling? && finish.None? && generated == []
      ensures this.kv == kv && this.prompt == prompt && promptOffset == k == nPast
      ensures this.ctxCap == ctxCap && DraftsFit()
      ensures maxTokens == Min(Max(maxTokensReq, 1), Max(ctxCap - |prompt|, 1))
    {
      this.kv, this.prompt, this.promptOffset, this.ctxCap := kv, prompt, k, ctxCap;
      maxTokens := Min(Max(maxTokensReq, 1), Max(ctxCap - |prompt|, 1));
      phase, promptPos, nPast, pending, drafts, generated := Prefilling, 0, k, None, [], [];
      ckpt, ckptNPast, isReplay, finish := None, 0, false, None;
    }

    /** `push_token`: emit one sampled token and decide whether the job ends. */
    method PushToken(token: Token) returns (emitted: bool)
      modifies this`generated, this`pending, this`drafts, this`phase, this`finish
      ensures var m := kv.model;
        emitted == (!m.isEog(token) && m.decodable(token))
      ensures generated == if emitted then old(generated) + [token] else old(generated)
      ensures emitted ==> pending == Some(token) && phase == Decoding
      ensures drafts == if kv.model.isEog(token) then [] else old(drafts)
      ensures finish ==
        if !emitted then Some(Stop)
        else if |generated| >= maxTokens then Some(Length)
        else if kv.model.stops(generated) then Some(Stop)
        else if old(finish).None? && nPast + 1 > ctxCap then Some(Length)
        else old(finish)
    {
      if kv.model.isEog(token) {
        finish, pending, drafts := Some(Stop), None, [];
        return false;
      }
      if !kv.model.decodable(token) {
        finish := Some(Stop);
        return false;
      }
      generated := generated + [token];
      pending, phase := Some(token), Decoding;
      if |generated| >= maxTokens {
        finish := Some(Length);
      } else if kv.model.stops(generated) {
        finish := Some(Stop);
      }
      if nPast + 1 > ctxCap && finish.None? {
        finish := Some(Length);
      }
      return true;
    }

    /** One token the target picks next: pushing it keeps what the plain decoder would deliver
      * unless the position already counts later tokens of the batch and reaches the cap, and the
      * plain decoder would go on. */
    method EmitOne(token: Token) returns (emitted: bool)
      requires finish.None? && Greedy(kv.model, prompt, generated)
      requires token == kv.model.target(prompt + generated) && nPast >= |prompt| + |generated|
      modifies this`generated, this`pending, this`drafts, this`phase, this`finish
      ensures generated == if emitted then old(generated) + [token] else old(generated)
      ensures Greedy(kv.model, prompt, generated)
      ensures !emitted ==> finish.Some?
      ensures finish.None? ==> pending == Some(token) && phase == Decoding && |generated| < maxTokens && nPast < ctxCap
      ensures drafts == old(drafts) || (finish.Some? && drafts == [])
      ensures Result() == old(Result()) <==> !CutShort()
      ensures CutShort() <==> nPast > |prompt| + |old(generated)| && nPast >= ctxCap && !old(EndsNext())
      ensures Result().tokens <= old(Result()).tokens
    {
      PlainContinues(kv.model, prompt, generated, maxTokens, ctxCap);
      if !kv.model.isEog(token) {
        GreedySnoc(kv.model, prompt, generated);
        PlainContinues(kv.model, prompt, generated + [token], maxTokens, ctxCap);
      }
      emitted := PushToken(token);
    }

    /** Emits tokens the target agrees with, one `PushToken` each, until the job ends. */
    method EmitAll(accepted: seq<Token>) returns (ghost n: nat)
      requires finish.None? && accepted != []
      requires Greedy(kv.model, prompt, generated)
      requires forall i :: 0 <= i < |accepted| ==> accepted[i] == kv.model.target(prompt + generated + accepted[..i])
      requires nPast == |prompt| + |generated| + |accepted| - 1
      modifies this`generated, this`pending, this`drafts, this`phase, this`finish
      ensures n <= |accepted| && generated == old(generated) + accepted[..n]
      ensures Greedy(kv.model, prompt, generated)
      ensures finish.None? ==>
        n == |accepted| && pending == Some(accepted[n - 1]) && phase == Decoding && |generated| < maxTokens
      ensures drafts == old(drafts) || (finish.Some? && drafts == [])
      ensures n > 0 || finish.Some?
      ensures Result() == old(Result()) <==> !CutShort()
      ensures CutShort() <==> |accepted| > 1 && nPast >= ctxCap && !old(EndsNext())
      ensures Result().tokens <= old(Result()).tokens
      ensures nPast >= ctxCap ==> finish.Some? && n <= 1
    {
      hide Greedy, Plain, Result;
      ghost var g0 := generated;
      n := 0;
      var i := 0;
      while i < |accepted|
        invariant 0 <= i == n <= |accepted|
        invariant finish.None? && drafts == old(drafts)
        invariant generated == g0 + accepted[..i]
        invariant Greedy(kv.model, prompt, generated)
        invariant i > 0 ==> pending == Some(accepted[i - 1]) && phase == Decoding && |generated| < maxTokens && nPast < ctxCap
        invariant Result() == old(Result())
        invariant i == 0 || nPast < ctxCap
        invariant i == 0 ==> EndsNext() == old(EndsNext())
        invariant Result().tokens <= old(Result()).tokens
      {
        assert prompt + generated == prompt + g0 + accepted[..i];
        var emitted := EmitOne(accepted[i]);
        if emitted {
          assert generated == g0 + accepted[..i + 1];
          n := i + 1;
        }
        if finish.Some? { return; }
        i := i + 1;
      }
    }

    /** One prefill batch of this slot: the plan's tokens, then the first sample at the end. */
    method PrefillChunk(take: nat)
      requires Tracks() && finish.None? && phase.Prefilling? && 0 < take <= |prompt| - nPast
      modifies this, kv`cells
      ensures Tracks() && nPast == old(nPast) + take && kv.cells == prompt[..nPast]
      ensures maxTokens == old(maxTokens) && ctxCap == old(ctxCap) && drafts == [] && !isReplay
      ensures finish.None? ==> phase.Prefilling? == (nPast < |prompt|)
      ensures finish.Some? ==> nPast == |prompt|
      ensures finish.None? && phase.Decoding? ==> |generated| < maxTokens
      ensures |generated| <= 1 && Result() == old(Result()) && !CutShort()
    {
      hide Plain;
      ghost var base := kv.cells;
      var toks := prompt[nPast..nPast + take];
      var samples := kv.DecodeAndSample(nPast, toks);
      assert kv.cells == prompt[..nPast + take];
      promptPos := promptPos + take;
      nPast := nPast + take;
      if nPast == |prompt| {
        phase := Decoding;
        RowAt(kv.model, base, toks, take - 1);
        assert toks[..take] == toks && base + toks == prompt && prompt + generated == prompt;
        var t := samples[take - 1];
        assert [t][..0] == [] && prompt + generated + [] == prompt;
        ghost var n := EmitAll([t]);
        assert [t][..n] == if n == 0 then [] else [t];
        assert prompt + [] == prompt;
      }
    }

    /** `snapshot_spec_slots`: a dump is taken when the drafts outrun the roll-back window. */
    method SnapshotSpec()
      modifies this`ckpt, this`ckptNPast
      ensures drafts != [] && pending.Some? ==> ckptNPast == nPast
      ensures ckpt.Some? ==> drafts != [] && pending.Some? && |drafts| > kv.nRsSeq && ckpt.value.cells == kv.cells
      ensures kv.reliable && drafts != [] && pending.Some? && |drafts| > kv.nRsSeq ==>
        ckpt.Some? && ckpt.value.size > 0
    {
      if drafts == [] || pending.None? {
        ckpt := None;
        return;
      }
      ckptNPast := nPast;
      if |drafts| <= kv.nRsSeq {
        ckpt := None;
        return;
      }
      ckpt := kv.StateGet();
    }

    /** `restore_spec_checkpoint`: back to the dump, then sweep what the restore left behind. */
    method RestoreSpecCheckpoint()
      modifies kv
      ensures kv.reliable && ckpt.Some? && ckpt.value.size > 0 && |ckpt.value.cells| == ckptNPast ==>
        kv.cells == ckpt.value.cells && kv.orphans == 0 && kv.widest == old(kv.widest)
    {
      if ckpt.Some? {
        var ok := kv.StateSet(ckpt.value);
        if ok {
          ok := kv.RmFrom(ckptNPast);
        }
      }
    }

    /** `replay_spec_prefix`: redecode the accepted head after a refused removal. */
    method ReplaySpecPrefix(accepted: seq<Token>)
      modifies kv
    {
      if pending.Some? {
        RestoreSpecCheckpoint();
        var rows := kv.DecodeAndSample(ckptNPast, [pending.value] + accepted);
      }
    }

    /** Rejected drafts with a dump at hand: restore it and keep the accepted head as drafts. */
    method RejectToCheckpoint(accepted: seq<Token>, ghost base: seq<Token>)
      requires kv.reliable
      requires ckpt.Some? && ckpt.value.cells == base && ckptNPast == |base| && ckpt.value.size > 0
      modifies kv, this`nPast, this`drafts, this`isReplay, this`ckpt
      ensures kv.cells == base && kv.orphans == 0 && kv.widest == old(kv.widest)
      ensures nPast == |base| && drafts == accepted && isReplay && ckpt.None?
    {
      RestoreSpecCheckpoint();
      nPast := ckptNPast;
      drafts := accepted;
      isReplay := true;
      ckpt := None;
    }

    /** Rejected drafts without a dump: remove their cells in place. */
    method RollBack(keepPos: nat, accepted: seq<Token>)
      requires keepPos <= |kv.cells| && |kv.cells| - keepPos <= kv.nRsSeq
      modifies kv
      ensures kv.reliable ==> kv.cells == old(kv.cells)[..keepPos] && kv.orphans == 0
      ensures kv.reliable ==> kv.widest <= Max(old(kv.widest), kv.nRsSeq)
    {
      var tgtOk := kv.RmFrom(keepPos);
      var mtpOk := kv.SpecRmFrom(keepPos);
      if !tgtOk || !mtpOk {
        ReplaySpecPrefix(accepted);
      }
    }

    /** Confirmed drafts match the rows sampled over any head of them. */
    lemma ConfirmedMatch(base: seq<Token>, k: nat, m: nat)
      requires Confirmed() && k <= |drafts|
      requires pending.Some? && prompt + generated == base + [pending.value]
      requires IsCommonPrefixLen(Rows(kv.model, base, [pending.value] + drafts[..k]), drafts[..k], m)
      ensures m == k
    {
      SampleFollows(kv.model, base, pending.value, drafts[..k], m);
      assert drafts[..k][..m] == drafts[..m];
    }

    /** `verify_and_emit` over `k` drafts. `nPast` already counts pending and drafts. Either the
      * accepted tokens are emitted, or the checkpoint is restored and they become the drafts of
      * the next decode. */
    method VerifyAndEmit(samples: seq<Token>, k: nat, ghost base: seq<Token>) returns (ghost n: nat)
      requires kv.reliable && kv.orphans == 0 && finish.None? && phase.Decoding?
      requires Greedy(kv.model, prompt, generated)
      requires generated != [] && pending == Some(generated[|generated| - 1])
      requires 0 < k <= |drafts| && prompt + generated == base + [pending.value]
      requires kv.cells == base + [pending.value] + drafts[..k] && nPast == |kv.cells|
      requires samples == Rows(kv.model, base, [pending.value] + drafts[..k])
      requires ckpt.Some? <==> |drafts| > kv.nRsSeq
      requires ckpt.Some? ==> ckpt.value.cells == base && ckptNPast == |base| && ckpt.value.size > 0
      modifies this, kv
      ensures TracksAfter(old(generated)) && n <= k + 1 && |generated| == |old(generated)| + n
      ensures maxTokens == old(maxTokens) && ctxCap == old(ctxCap)
      ensures kv.widest <= Max(old(kv.widest), kv.nRsSeq)
      ensures n == 0 && finish.None? ==> Confirmed() && |drafts| <= k && nPast == |base|
      ensures nPast >= |base|
      ensures n > 0 && finish.None? ==> |generated| < maxTokens
      ensures finish.None? && n > 0 ==> drafts == []
      ensures isReplay ==> (n == 0 && finish.None?)
      ensures old(Confirmed()) ==> n > 0 || finish.Some?
      ensures Result() == old(Result()) <==> !CutShort()
      ensures CutShort() <==> !old(Clear(base, k))
      ensures old(Confirms(base, k)) < k && old(|drafts| > kv.nRsSeq) ==>
        n == 0 && finish.None? && isReplay && nPast == |base| && drafts == samples[..old(Confirms(base, k)) + 1]
      ensures Result().tokens <= old(Result()).tokens
      ensures old(Confirmed()) && |base| + 1 + k >= ctxCap ==> finish.Some? && n <= 1
    {
      hide Plain, Greedy, EndsNext, Confirms, Rows;
      var accepted, nMatched := JudgeDrafts(samples, k, base);
      isReplay := false;
      var keepPos := nPast - (k - nMatched);
      assert kv.cells[..keepPos] == base + [pending.value] + accepted[..|accepted| - 1];
      if nMatched < k {
        if ckpt.Some? {
          RejectToCheckpoint(accepted, base);
          return 0;
        }
        RollBack(keepPos, drafts[..nMatched]);
      }
      n := EmitAccepted(accepted, keepPos, base);
    }

    /** The accepted tokens of a verify batch, and how many drafts they confirm. */
    method JudgeDrafts(samples: seq<Token>, k: nat, ghost base: seq<Token>) returns (accepted: seq<Token>, nMatched: nat)
      requires k <= |drafts| && pending.Some? && prompt + generated == base + [pending.value]
      requires samples == Rows(kv.model, base, [pending.value] + drafts[..k])
      ensures nMatched <= k && |accepted| == nMatched + 1 && accepted[..nMatched] == drafts[..nMatched]
      ensures forall i :: 0 <= i < |accepted| ==> accepted[i] == kv.model.target(prompt + generated + accepted[..i])
      ensures Confirmed() ==> nMatched == k
      ensures nMatched == Confirms(base, k) && accepted == samples[..nMatched + 1]
    {
      var ds := drafts[..k];
      accepted := AcceptDrafts(samples, ds);
      ghost var m: nat :| IsCommonPrefixLen(samples, ds, m) && accepted == samples[..Min(m + 1, |samples|)];
      AcceptedFollowTarget(kv.model, base, pending.value, ds, m, accepted);
      nMatched := CommonPrefixLen(accepted, ds);
      MatchedAgain(samples, ds, m, accepted, nMatched);
      assert ds[..nMatched] == drafts[..nMatched];
      LcpIs(samples, ds, m);
      if Confirmed() { ConfirmedMatch(base, k, m); }
    }

    /** Emission after the cells hold exactly the accepted head. */
    method EmitAccepted(accepted: seq<Token>, keepPos: nat, ghost base: seq<Token>) returns (ghost n: nat)
      requires kv.reliable && kv.orphans == 0 && finish.None? && phase.Decoding? && !isReplay
      requires Greedy(kv.model, prompt, generated)
      requires generated != [] && pending == Some(generated[|generated| - 1])
      requires prompt + generated == base + [pending.value]
      requires accepted != [] && kv.cells == base + [pending.value] + accepted[..|accepted| - 1]
      requires keepPos == |kv.cells|
      requires forall i :: 0 <= i < |accepted| ==> accepted[i] == kv.model.target(prompt + generated + accepted[..i])
      modifies this
      ensures TracksAfter(old(generated)) && n <= |accepted| && |generated| == |old(generated)| + n
      ensures maxTokens == old(maxTokens) && ctxCap == old(ctxCap) && drafts == [] && !isReplay
      ensures (n > 0 && |generated| < maxTokens) || finish.Some?
      ensures Result() == old(Result()) <==> !CutShort()
      ensures CutShort() <==> |accepted| > 1 && keepPos >= ctxCap && !old(EndsNext())
      ensures Result().tokens <= old(Result()).tokens
      ensures keepPos >= ctxCap ==> finish.Some? && n <= 1
    {
      hide Plain, Greedy, Result, EndsNext, CutShort;
      nPast, drafts, ckpt := keepPos, [], None;
      n := EmitAll(accepted);
      assert prompt + generated == base + [old(pending).value] + accepted[..n];
      if n < |accepted| {
        assert accepted[..|accepted| - 1][..n] == accepted[..n];
        assert prompt + generated <= kv.cells;
      }
    }

    /** `emit_sampled`: verification when drafts were decoded, else the plain token. */
    method EmitSampled(samples: seq<Token>, k: nat, ghost base: seq<Token>) returns (ghost n: nat)
      requires kv.reliable && kv.orphans == 0 && finish.None? && phase.Decoding?
      requires Greedy(kv.model, prompt, generated)
      requires generated != [] && pending == Some(generated[|generated| - 1])
      requires k <= |drafts| && prompt + generated == base + [pending.value]
      requires kv.cells == base + [pending.value] + drafts[..k] && nPast == |kv.cells|
      requires samples == Rows(kv.model, base, [pending.value] + drafts[..k])
      requires ckpt.Some? <==> |drafts| > kv.nRsSeq
      requires ckpt.Some? ==> ckpt.value.cells == base && ckptNPast == |base| && ckpt.value.size > 0
      modifies this, kv
      ensures TracksAfter(old(generated)) && n <= k + 1 && |generated| == |old(generated)| + n
      ensures maxTokens == old(maxTokens) && ctxCap == old(ctxCap)
      ensures kv.widest <= Max(old(kv.widest), kv.nRsSeq)
      ensures n == 0 && finish.None? ==> Confirmed() && |drafts| <= k && nPast == |base|
      ensures nPast >= |base|
      ensures n > 0 && finish.None? ==> |generated| < maxTokens
      ensures finish.None? && n > 0 ==> drafts == [] || (k == 0 && drafts == old(drafts))
      ensures k == 0 ==> drafts == [] || drafts == old(drafts)
      ensures k == 0 && finish.None? ==> drafts == old(drafts) && isReplay == old(isReplay) && nPast == old(nPast)
      ensures isReplay ==> (n == 0 && finish.None?) || (k == 0 && old(isReplay))
      ensures old(Confirmed()) ==> n > 0 || finish.Some?
      ensures Result() == old(Result()) <==> !CutShort()
      ensures CutShort() <==> !old(Clear(base, k))
      ensures old(Confirms(base, k)) < k && old(|drafts| > kv.nRsSeq) ==>
        n == 0 && finish.None? && isReplay && nPast == |base| && drafts == samples[..old(Confirms(base, k)) + 1]
      ensures Result().tokens <= old(Result()).tokens
      ensures k > 0 && old(Confirmed()) && |base| + 1 + k >= ctxCap ==> finish.Some? && n <= 1
    {
      hide Plain, Greedy, Result, CutShort, EndsNext, Confirms;
      var nVerify := |samples| - 1;
      if nVerify > 0 && drafts != [] {
        n := VerifyAndEmit(samples, nVerify, base);
        return;
      }
      AcceptedFollowTarget(kv.model, base, pending.value, [], 0, samples[..1]);
      n := EmitAll(samples[..1]);
    }

    /** Drafts a slot may carry into its next decode: none without a pending token, else what the
      * context and the generation leave after that token and one more. */
    ghost function Budget(specNMax: nat): (n: nat)
      reads this`finish, this`pending, this`nPast, this`ctxCap, this`generated, this`maxTokens
      ensures n <= specNMax && (n > 0 ==> nPast + 2 + n <= ctxCap && |generated| + 1 + n <= maxTokens)
    {
      if finish.Some? || pending.None? then 0
      else Max(0, Min(specNMax, Min(ctxCap - nPast - 2, maxTokens - |generated| - 1)))
    }

    /** `take_draft_jobs` and the drafter: a replay keeps its drafts, anything else gets at most
      * the budget of the remaining context and generation. */
    method FillDrafts(proposal: seq<Token>, specNMax: nat)
      requires Tracks()
      modifies this`drafts
      ensures Tracks()
      ensures isReplay && old(drafts) != [] ==> drafts == old(drafts)
      ensures !(isReplay && old(drafts) != []) ==> DraftsFit() && drafts == proposal[..Min(Budget(specNMax), |proposal|)]
      ensures Result() == old(Result())
    {
      if isReplay && drafts != [] { return; }
      drafts := [];
      if finish.Some? || pending.None? { return; }
      var remainCtx := Max(0, ctxCap - (nPast + 1));
      var remainGen := Max(0, maxTokens - |generated|);
      var nMax := Max(0, Min(specNMax, Min(remainCtx - 1, remainGen - 1)));
      drafts := proposal[..Min(nMax, |proposal|)];
    }

    /** The decode call: pending token and as many drafts as have room, over a dump if needed. */
    method DecodeSegment(room: nat) returns (samples: seq<Token>)
      requires kv.reliable && kv.orphans == 0 && nPast == |kv.cells| && pending.Some?
      modifies this`ckpt, this`ckptNPast, this`nPast, kv`cells
      ensures var k := Min(room, |drafts|);
        && kv.cells == old(kv.cells) + [pending.value] + drafts[..k] && nPast == |kv.cells|
        && samples == Rows(kv.model, old(kv.cells), [pending.value] + drafts[..k])
      ensures ckpt.Some? <==> |drafts| > kv.nRsSeq
      ensures ckpt.Some? ==> ckpt.value.cells == old(kv.cells) && ckptNPast == old(nPast) && ckpt.value.size > 0
    {
      hide Rows;
      SnapshotSpec();
      var k := Min(room, |drafts|);
      samples := kv.DecodeAndSample(nPast, [pending.value] + drafts[..k]);
      assert kv.cells == old(kv.cells) + [pending.value] + drafts[..k];
      nPast := nPast + 1 + k;
    }

    lemma FittingIsClear(base: seq<Token>, k: nat)
      requires DraftsFit() && k <= |drafts| && pending.Some? && |base| == nPast
      ensures Clear(base, k)
    {
    }

    /** The batch and its verification, before anything is drafted anew. */
    method VerifyBatch(room: nat) returns (ghost n: nat)
      requires Tracks() && finish.None? && phase.Decoding?
      modifies this, kv
      ensures TracksAfter(old(generated)) && |generated| == |old(generated)| + n && n <= Min(room, |old(drafts)|) + 1
      ensures nPast >= old(nPast)
      ensures maxTokens == old(maxTokens) && ctxCap == old(ctxCap)
      ensures kv.widest <= Max(old(kv.widest), kv.nRsSeq)
      ensures n == 0 && finish.None? ==> Confirmed() && |drafts| <= Min(room, |old(drafts)|) && nPast == old(nPast)
      ensures n > 0 && finish.None? ==> |generated| < maxTokens
      ensures Min(room, |old(drafts)|) == 0 ==> drafts == [] || drafts == old(drafts)
      ensures isReplay ==> (n == 0 && finish.None?) || (Min(room, |old(drafts)|) == 0 && old(isReplay))
      ensures Min(room, |old(drafts)|) == 0 && finish.None? ==> drafts == old(drafts) && isReplay == old(isReplay) && nPast == old(nPast) + 1
      ensures old(Confirmed()) ==> n > 0 || finish.Some?
      ensures Result() == old(Result()) <==> !CutShort()
      ensures CutShort() <==> !old(Clear(kv.cells, Min(room, |drafts|)))
      ensures CutShort() ==> !old(DraftsFit())
      ensures var m := old(Confirms(kv.cells, Min(room, |drafts|)));
        m < old(Min(room, |drafts|)) && old(|drafts| > kv.nRsSeq) ==>
          && n == 0 && finish.None? && isReplay
          && drafts == old(Rows(kv.model, kv.cells, [pending.value] + drafts[..Min(room, |drafts|)]))[..m + 1]
      ensures Result().tokens <= old(Result()).tokens
      ensures old(Confirmed()) && room > 0 && old(nPast) + 1 + Min(room, |old(drafts)|) >= ctxCap ==> finish.Some? && n <= 1
    {
      hide Plain, Greedy, Rows, Result, CutShort, Clear, Confirms, EndsNext, Agree, Budget;
      ghost var base := kv.cells;
      if DraftsFit() { FittingIsClear(base, Min(room, |drafts|)); }
      var samples := DecodeSegment(room);
      n := EmitSampled(samples, Min(room, |drafts|), base);
    }

    /** One decode of this slot: snapshot, batch, verification, next drafts. `room` is how many
      * drafts the batch had space for, `proposal` what the drafter offers afterwards. */
    method DecodeStep(room: nat, proposal: seq<Token>, specNMax: nat) returns (ghost n: nat)
      requires Tracks() && finish.None? && phase.Decoding?
      modifies this, kv
      ensures TracksAfter(old(generated)) && |generated| == |old(generated)| + n && n <= Min(room, |old(drafts)|) + 1
      ensures nPast >= old(nPast)
      ensures maxTokens == old(maxTokens) && ctxCap == old(ctxCap)
      ensures kv.widest <= Max(old(kv.widest), kv.nRsSeq)
      ensures n == 0 && finish.None? ==> Confirmed()
      ensures n > 0 && finish.None? ==> |generated| < maxTokens
      ensures old(Confirmed()) ==> n > 0 || finish.Some?
      ensures Result() == old(Result()) <==> !CutShort()
      ensures CutShort() <==> !old(Clear(kv.cells, Min(room, |drafts|)))
      ensures CutShort() ==> !old(DraftsFit())
      ensures var m := old(Confirms(kv.cells, Min(room, |drafts|)));
        m < old(Min(room, |drafts|)) && old(|drafts| > kv.nRsSeq) ==>
          && n == 0 && finish.None? && isReplay && nPast == old(nPast)
          && drafts == old(Rows(kv.model, kv.cells, [pending.value] + drafts[..Min(room, |drafts|)]))[..m + 1]
      ensures Result().tokens <= old(Result()).tokens
      ensures old(Confirmed()) && room > 0 && old(nPast) + 1 + Min(room, |old(drafts)|) >= ctxCap ==> finish.Some? && n <= 1
      ensures old(DraftsFit()) && (old(isReplay) ==> room > 0) ==> DraftsFit()
      ensures old(isReplay && drafts != []) && room == 0 && finish.None? ==>
        isReplay && drafts == old(drafts) && nPast == old(nPast) + 1
      ensures isReplay && finish.None? ==> Confirmed() || (old(isReplay) && Min(room, |old(drafts)|) == 0)
      ensures |drafts| <= Max(specNMax, |old(drafts)|)
    {
      hide Plain, Greedy, Rows, Result, CutShort, Clear, Confirms, EndsNext, Agree, Budget, Tracks;
      n := VerifyBatch(room);
      FillDrafts(proposal, specNMax);
    }

    /** One prefill iteration of this slot: after the last prompt token it already carries the
      * drafter's proposal into its first decode. */
    method PrefillStep(take: nat, proposal: seq<Token>, specNMax: nat)
      requires Tracks() && finish.None? && phase.Prefilling? && 0 < take <= |prompt| - nPast
      modifies this, kv`cells
      ensures Tracks() && nPast == old(nPast) + take && kv.cells == prompt[..nPast]
      ensures maxTokens == old(maxTokens) && ctxCap == old(ctxCap) && !isReplay
      ensures DraftsFit() && drafts == proposal[..Min(Budget(specNMax), |proposal|)]
      ensures finish.None? ==> phase.Prefilling? == (nPast < |prompt|)
      ensures finish.Some? ==> nPast == |prompt|
      ensures finish.None? && phase.Decoding? ==> |generated| < maxTokens
      ensures |generated| <= 1 && Result() == old(Result()) && !CutShort()
    {
      hide Plain, Greedy, Result;
      PrefillChunk(take);
      FillDrafts(proposal, specNMax);
    }

    /** `recompute_slot_caps` seen by this job: new limits between two decodes. */
    method SetCaps(cap: nat, limit: nat)
      requires Tracks()
      modifies this`ctxCap, this`maxTokens
      ensures Tracks() && ctxCap == cap && maxTokens == limit
    {
      ctxCap, maxTokens := cap, limit;
    }

    /** `finish_slot` and `remember`: the tokens recorded for the next bind. They and the
      * resident cells are one a head of the other, at whatever point the job stops. */
    method FinishSlot(reason: FinishReason) returns (tokens: seq<Token>)
      requires Tracks()
      modifies this`finish
      ensures finish == Some(reason) && Tracks()
      ensures tokens <= prompt + generated && |tokens| == Min(nPast, |prompt + generated|)
      ensures Agree(kv.cells, tokens)
    {
      finish := Some(reason);
      tokens := (prompt + generated)[..Min(nPast, |prompt + generated|)];
    }

    // ---- whole runs

    /** The decodes behind the prefill, with room for one draft at every replay. */
    method Generate(specNMax: nat)
      requires Tracks() && DraftsFit() && (finish.None? ==> phase.Decoding? && |generated| < maxTokens)
      modifies this, kv
      ensures Tracks() && finish.Some? && Outcome(generated, finish.value) == old(Result())
      ensures nPast >= old(nPast) && kv.widest <= Max(old(kv.widest), kv.nRsSeq)
    {
      while finish.None?
        invariant Tracks() && maxTokens == old(maxTokens) && ctxCap == old(ctxCap)
        invariant nPast >= old(nPast) && kv.widest <= Max(old(kv.widest), kv.nRsSeq)
        invariant DraftsFit() && Result() == old(Result())
        invariant finish.None? ==> phase.Decoding? && |generated| < maxTokens
        decreases maxTokens - |generated|, finish.None?, if Confirmed() then 0 else 1
      {
        var extra: nat :| true;
        var room := if isReplay then extra + 1 else extra;
        var proposal: seq<Token> := *;
        ghost var n := DecodeStep(room, proposal, specNMax);
      }
    }

    /** Under fixed limits, and as long as a replaying slot gets room for one draft, a job ends
      * with exactly the tokens and the reason of the plain decoder, whatever the drafter
      * proposes and however prefill is chunked and batches are cut. It always ends. */
    method Run(specNMax: nat)
      requires Tracks() && finish.None? && phase.Prefilling?
      modifies this, kv
      ensures Tracks() && finish.Some?
      ensures Outcome(generated, finish.value) == Plain(kv.model, prompt, [], old(maxTokens), old(ctxCap))
      ensures kv.widest <= Max(old(kv.widest), kv.nRsSeq)
    {
      while finish.None? && phase.Prefilling?
        invariant Tracks() && maxTokens == old(maxTokens) && ctxCap == old(ctxCap)
        invariant kv.widest == old(kv.widest) && DraftsFit() && !isReplay
        invariant Result() == old(Result())
        invariant finish.None? && phase.Decoding? ==> |generated| < maxTokens
        decreases |prompt| - nPast
      {
        var take :| 0 < take <= |prompt| - nPast;
        var proposal: seq<Token> := *;
        PrefillStep(take, proposal, specNMax);
      }
      Generate(specNMax);
    }

    /** With any room the job still ends, with a head of the plain decoder's tokens. It delivers
      * exactly what the plain decoder does if and only if every decode was clear of the cap
      * (`blocked` is false), and what it delivered tells: a job differs exactly when it ended for
      * length short of both limits. That takes a replay that had waited without room. */
    method RunAnyRoom(specNMax: nat) returns (ghost blocked: bool, ghost waited: bool)
      requires Tracks() && finish.None? && phase.Prefilling?
      modifies this, kv
      ensures Tracks() && finish.Some?
      ensures generated <= Plain(kv.model, prompt, [], old(maxTokens), old(ctxCap)).tokens
      ensures Outcome(generated, finish.value) == Plain(kv.model, prompt, [], old(maxTokens), old(ctxCap)) <==> !blocked
      ensures blocked <==> CutShort()
      ensures blocked ==> waited
      ensures kv.widest <= Max(old(kv.widest), kv.nRsSeq)
    {
      blocked, waited := false, false;
      while finish.None?
        invariant Tracks() && maxTokens == old(maxTokens) && ctxCap == old(ctxCap)
        invariant kv.widest <= Max(old(kv.widest), kv.nRsSeq)
        invariant Result().tokens <= old(Result()).tokens
        invariant Result() == old(Result()) <==> !blocked
        invariant blocked <==> CutShort()
        invariant !waited ==> DraftsFit()
        invariant blocked ==> waited
        invariant finish.None? && phase.Decoding? ==> |generated| < maxTokens
        decreases if finish.None? && phase.Prefilling? then |prompt| + 1 - nPast else 0,
          maxTokens - |generated|, finish.None?, if Confirmed() then 0 else 1
      {
        var proposal: seq<Token> := *;
        if phase.Prefilling? {
          var take :| 0 < take <= |prompt| - nPast;
          PrefillStep(take, proposal, specNMax);
        } else {
          var room: nat :| true;
          blocked := !Clear(kv.cells, Min(room, |drafts|));
          ghost var waits := isReplay && room == 0;
          ghost var n := DecodeStep(room, proposal, specNMax);
          waited := waited || waits;
        }
      }
    }

    /** Any interleaving of prefill, decodes with any room, iterations that leave the slot out,
      * changing limits and a stop at any point: what was emitted is what the target picks, and
      * the cells match the record. */
    method Serve(steps: nat, specNMax: nat) returns (tokens: seq<Token>)
      requires Tracks() && finish.None? && phase.Prefilling?
      modifies this, kv
      ensures Tracks() && finish.Some? && Greedy(kv.model, prompt, generated)
      ensures Agree(kv.cells, tokens) && tokens <= prompt + generated
      ensures kv.widest <= Max(old(kv.widest), kv.nRsSeq)
    {
      for i := 0 to steps
        invariant Tracks() && kv.widest <= Max(old(kv.widest), kv.nRsSeq)
      {
        var cap: nat, limit: nat :| true;
        SetCaps(cap, limit);
        if finish.Some? { break; }
        var proposal: seq<Token>, planned: bool := *, *;
        if !planned {
          FillDrafts(proposal, specNMax);
        } else if phase.Prefilling? {
          var take :| 0 < take <= |prompt| - nPast;
          PrefillStep(take, proposal, specNMax);
        } else {
          var room: nat :| true;
          ghost var n := DecodeStep(room, proposal, specNMax);
        }
      }
      var cancelled: bool := *;
      tokens := FinishSlot(if finish.Some? then finish.value else if cancelled then Cancelled else Timeout);
    }
  }

  // ---------------------------------------------------------------- a replay left waiting

  /** A target that always picks token 5 and never stops. */
  const FIVES := Model(h => 5, t => false, t => true, g => false)

  lemma {:induction false} FivesRunToTheLimit(gen: seq<Token>)
    requires |gen| < 4
    ensures |Plain(FIVES, [5], gen, 4, 5).tokens| == 4
    decreases 4 - |gen|
  {
    if |gen| < 3 { FivesRunToTheLimit(gen + [5]); }
  }

  lemma OnlyFives(prompt: seq<Token>, gen: seq<Token>)
    requires Greedy(FIVES, prompt, gen)
    ensures forall i :: 0 <= i < |gen| ==> gen[i] == 5
  {
  }

  /** Of the drafts 5, 6 it confirms the first. */
  lemma FivesConfirmOne(base: seq<Token>)
    ensures Rows(FIVES, base, [5, 5, 6]) == [5, 5, 5] && Lcp([5, 5, 5], [5, 6]) == 1
  {
    var rows := Rows(FIVES, base, [5, 5, 6]);
    forall i | 0 <= i < 3 ensures rows[i] == 5 { RowAt(FIVES, base, [5, 5, 6], i); }
    assert [5, 5, 5][..1] == [5] == [5, 6][..1];
    LcpIs([5, 5, 5], [5, 6], 1);
  }

  /** A one-token request for up to 100 tokens under a cap of five cells, so a limit of four. The
    * first decode carries two drafts of which one is confirmed; the restored replay waits once
    * without room, then gets room for both of its drafts, and the job ends after at most three
    * tokens, where the plain decoder delivers four. */
  method StaleReplayEndsEarly() returns (delivered: seq<Token>)
    ensures delivered < Plain(FIVES, [5], [], 4, 5).tokens && |delivered| <= 3
  {
    hide Plain, Greedy, Rows, Lcp;
    var kv := new SeqKv(FIVES, false, 0, true);
    var job := new Job(kv, [5], 0, 100, 5);
    assert job.maxTokens == 4;
    FivesRunToTheLimit([]);
    assert |job.Result().tokens| == 4;
    job.PrefillStep(1, [5, 6], 2);
    assert job.finish.None? && job.nPast == 1 && |job.generated| == 1;
    assert job.drafts == [5, 6];
    OnlyFives([5], job.generated);
    FivesConfirmOne(job.kv.cells);
    assert job.pending == Some(5);
    assert [5] + job.drafts[..2] == [5, 5, 6] && job.drafts[..2] == [5, 6];
    assert job.Confirms(job.kv.cells, 2) == 1;
    ghost var n := job.DecodeStep(2, [], 2);
    assert job.drafts == [5, 5] && job.isReplay && |job.generated| == 1;
    n := job.DecodeStep(0, [], 2);
    assert job.finish.None?;
    assert job.Confirmed();
    n := job.DecodeStep(2, [], 2);
    delivered := job.generated;
  }
}
