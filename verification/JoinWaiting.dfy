/** Pairing waiting requests with empty slots, admission, and what becomes of the queue. */
module JoinWaiting {
  import opened Common
  import opened CtxCap
  import opened PoolRun

  /** A queued request; `tokens` is missing while it could not be encoded. */
  datatype Request = Request(id: nat, tokens: Option<seq<Token>>, maxTokens: U32)

  /** An empty slot as the policy sees it. */
  datatype EmptySlotView = EmptySlotView(id: nat, prefix: seq<Token>, prefixLen: nat, ckptN: nat) {
    /** Cells a join could discard. */
    function Resident(): nat { Max(|prefix|, Max(prefixLen, ckptN)) }

    /** Length a prompt must share to count as the same session. */
    function AffinityBar(): nat { if ckptN > 0 then ckptN else Resident() }
  }

  predicate IsPrefixAffinity(lcp: nat, bar: nat) { lcp > 0 && lcp + 1 >= bar }

  function Tokens(r: Request): seq<Token> { if r.tokens.Some? then r.tokens.value else [] }

  predicate SameSession(s: EmptySlotView, tokens: seq<Token>) { IsPrefixAffinity(Lcp(s.prefix, tokens), s.AffinityBar()) }

  /** A slot and a prompt are of one session when they share a first token and all that the bar asks
    * for but the last: of the newest anchor, if there is one, and else of all that was remembered. */
  lemma SameSessionMeans(s: EmptySlotView, tokens: seq<Token>)
    ensures var bar := if s.ckptN > 0 then s.ckptN else Max(|s.prefix|, s.prefixLen);
      SameSession(s, tokens) <==>
        && s.prefix != [] && tokens != [] && s.prefix[0] == tokens[0]
        && bar - 1 <= |s.prefix| && (bar > 1 ==> s.prefix[..bar - 1] <= tokens)
  {
    var lcp := Lcp(s.prefix, tokens);
    var bar: nat := if s.ckptN > 0 then s.ckptN else Max(|s.prefix|, s.prefixLen);
    LcpIsCommon(s.prefix, tokens);
    if 1 < bar <= lcp + 1 {
      assert s.prefix[..lcp][..bar - 1] == s.prefix[..bar - 1] && tokens[..lcp][..bar - 1] == tokens[..bar - 1];
    }
    if 1 < bar && bar - 1 <= |s.prefix| && s.prefix[..bar - 1] <= tokens {
      assert s.prefix[..bar - 1] == tokens[..bar - 1];
      CommonPrefixLenIsMaximal(s.prefix, tokens, lcp, bar - 1);
    }
  }

  /** A join of another session could discard the longest of what a slot holds. */
  lemma ResidentIsLargest(s: EmptySlotView)
    ensures |s.prefix| <= s.Resident() && s.prefixLen <= s.Resident() && s.ckptN <= s.Resident()
    ensures s.Resident() in {|s.prefix|, s.prefixLen, s.ckptN}
  {
  }

  /** Of the free slots below `n`, the same-session one with the longest common head. */
  ghost predicate BestAffinity(empty: seq<EmptySlotView>, used: seq<bool>, tokens: seq<Token>, n: nat, i: nat)
    requires |used| == |empty| && n <= |empty|
  {
    && i < n && !used[i] && SameSession(empty[i], tokens)
    && (forall j :: 0 <= j < n && !used[j] && SameSession(empty[j], tokens) ==> Lcp(empty[j].prefix, tokens) <= Lcp(empty[i].prefix, tokens))
    && (forall j :: 0 <= j < i && !used[j] && SameSession(empty[j], tokens) ==> Lcp(empty[j].prefix, tokens) < Lcp(empty[i].prefix, tokens))
  }

  /** Of the free slots below `n` of other sessions, the one with the least to lose. */
  ghost predicate BestSpare(empty: seq<EmptySlotView>, used: seq<bool>, tokens: seq<Token>, n: nat, i: nat)
    requires |used| == |empty| && n <= |empty|
  {
    && i < n && !used[i] && !SameSession(empty[i], tokens)
    && (forall j :: 0 <= j < n && !used[j] && !SameSession(empty[j], tokens) ==> empty[i].Resident() <= empty[j].Resident())
    && (forall j :: 0 <= j < i && !used[j] && !SameSession(empty[j], tokens) ==> empty[i].Resident() < empty[j].Resident())
  }

  ghost predicate NoneOfKind(empty: seq<EmptySlotView>, used: seq<bool>, tokens: seq<Token>, n: nat, affine: bool)
    requires |used| == |empty| && n <= |empty|
  {
    forall j :: 0 <= j < n && !used[j] ==> SameSession(empty[j], tokens) != affine
  }

  method PickEmptySlot(empty: seq<EmptySlotView>, used: seq<bool>, tokens: seq<Token>) returns (r: Option<nat>)
    requires |used| == |empty|
    ensures r.None? <==> forall i :: 0 <= i < |used| ==> used[i]
    ensures r.Some? ==> r.value < |empty| && !used[r.value]
    ensures r.Some? ==> BestFor(empty, used, tokens, r.value)
  {
    var bestAff: Option<(nat, nat)>, bestSpare: Option<(nat, nat)> := None, None;
    for i := 0 to |empty|
      invariant bestAff.None? ==> NoneOfKind(empty, used, tokens, i, true)
      invariant bestAff.Some? ==> BestAffinity(empty, used, tokens, i, bestAff.value.0)
      invariant bestAff.Some? ==> bestAff.value.1 == Lcp(empty[bestAff.value.0].prefix, tokens)
      invariant bestSpare.None? ==> NoneOfKind(empty, used, tokens, i, false)
      invariant bestSpare.Some? ==> BestSpare(empty, used, tokens, i, bestSpare.value.0) && bestSpare.value.1 == empty[bestSpare.value.0].Resident()
    {
      hide Lcp;
      if used[i] { continue; }
      var lcp := CommonPrefixLen(empty[i].prefix, tokens);
      LcpIs(empty[i].prefix, tokens, lcp);
      var resident := empty[i].Resident();
      if IsPrefixAffinity(lcp, empty[i].AffinityBar()) {
        if bestAff.None? || lcp > bestAff.value.1 { bestAff := Some((i, lcp)); }
      } else if bestSpare.None? || resident < bestSpare.value.1 {
        bestSpare := Some((i, resident));
      }
    }
    r := if bestAff.Some? then Some(bestAff.value.0) else if bestSpare.Some? then Some(bestSpare.value.0) else None;
  }

  ghost predicate DistinctIds(empty: seq<EmptySlotView>) {
    forall i, j :: 0 <= i < j < |empty| ==> empty[i].id != empty[j].id
  }

  /** The slots that an answer names. */
  ghost function NamedBy(empty: seq<EmptySlotView>, out: seq<(nat, nat)>): (used: seq<bool>)
    ensures |used| == |empty| && forall i :: 0 <= i < |empty| ==> (used[i] <==> NamesSlot(out, empty[i].id))
  {
    seq(|empty|, i requires 0 <= i < |empty| => NamesSlot(out, empty[i].id))
  }

  /** The `i`-th empty slot is the best for a prompt once the slots in `used` are gone. */
  ghost predicate BestFor(empty: seq<EmptySlotView>, used: seq<bool>, tokens: seq<Token>, i: nat)
    requires |used| == |empty|
  {
    if NoneOfKind(empty, used, tokens, |empty|, true) then BestSpare(empty, used, tokens, |empty|, i)
    else BestAffinity(empty, used, tokens, |empty|, i)
  }

  /** The `k`-th request gets the best slot that no earlier one got. */
  ghost predicate Picked(empty: seq<EmptySlotView>, waiting: seq<Request>, out: seq<(nat, nat)>, k: nat)
    requires k < |out| && k < |waiting|
  {
    out[k].1 == k && exists i :: 0 <= i < |empty| && empty[i].id == out[k].0 && BestFor(empty, NamedBy(empty, out[..k]), Tokens(waiting[k]), i)
  }

  /** The first requests get one slot each, in arrival order. */
  ghost predicate Paired(empty: seq<EmptySlotView>, out: seq<(nat, nat)>) {
    && (forall k :: 0 <= k < |out| ==> out[k].1 == k && exists i :: 0 <= i < |empty| && empty[i].id == out[k].0)
    && (forall k, l :: 0 <= k < l < |out| ==> out[k].0 != out[l].0)
  }

  function UsedCount(used: seq<bool>): nat {
    if used == [] then 0 else UsedCount(used[..|used| - 1]) + if used[|used| - 1] then 1 else 0
  }

  lemma {:induction false} UsedCountStep(used: seq<bool>, i: nat)
    requires i < |used| && !used[i]
    ensures UsedCount(used[i := true]) == UsedCount(used) + 1
  {
    var n := |used| - 1;
    if i < n {
      assert used[i := true][..n] == used[..n][i := true];
      UsedCountStep(used[..n], i);
    } else {
      assert used[i := true][..n] == used[..n];
    }
  }

  lemma {:induction false} UsedCountFull(used: seq<bool>)
    ensures (forall i :: 0 <= i < |used| ==> used[i]) ==> UsedCount(used) == |used|
    ensures (forall i :: 0 <= i < |used| ==> !used[i]) ==> UsedCount(used) == 0
  {
    if used != [] { UsedCountFull(used[..|used| - 1]); }
  }

  /** `prefix_aware_join`: as many pairs as there are slots and requests. */
  method PrefixAwareJoin(empty: seq<EmptySlotView>, waiting: seq<Request>) returns (out: seq<(nat, nat)>)
    requires DistinctIds(empty)
    ensures Paired(empty, out) && |out| == Min(|empty|, |waiting|)
    ensures forall k :: 0 <= k < |out| ==> Picked(empty, waiting, out, k)
  {
    hide BestFor, Picked, Paired;
    var n := Min(|empty|, |waiting|);
    var used := seq(|empty|, _ => false);
    UsedCountFull(used);
    out := [];
    NobodyPaired(empty, used);
    var w := 0;
    while w < |waiting| && |out| < n
      invariant w == |out| <= n && |used| == |empty| && UsedCount(used) == |out|
      invariant Paired(empty, out)
      invariant used == NamedBy(empty, out)
      invariant forall k :: 0 <= k < |out| ==> Picked(empty, waiting, out, k)
    {
      UsedCountFull(used);
      var slot := PickEmptySlot(empty, used, Tokens(waiting[w]));
      if slot.None? { break; }
      var i := slot.value;
      UsedCountStep(used, i);
      PairedStep(empty, used, out, i);
      PickedStep(empty, waiting, used, out, i);
      used := used[i := true];
      out := out + [(empty[i].id, w)];
      w := w + 1;
    }
  }

  lemma NobodyPaired(empty: seq<EmptySlotView>, used: seq<bool>)
    requires |used| == |empty| && forall i :: 0 <= i < |used| ==> !used[i]
    ensures Paired(empty, []) && used == NamedBy(empty, [])
  {
  }

  lemma PairedStep(empty: seq<EmptySlotView>, used: seq<bool>, out: seq<(nat, nat)>, i: nat)
    requires DistinctIds(empty) && |used| == |empty| && i < |empty| && !used[i] && Paired(empty, out) && used == NamedBy(empty, out)
    ensures Paired(empty, out + [(empty[i].id, |out|)])
    ensures used[i := true] == NamedBy(empty, out + [(empty[i].id, |out|)])
  {
    var out' := out + [(empty[i].id, |out|)];
    forall k | 0 <= k < |out| ensures out'[k].0 != empty[i].id {
      assert NamesSlot(out, out[k].0);
    }
    forall j | 0 <= j < |empty| ensures NamesSlot(out', empty[j].id) <==> NamesSlot(out, empty[j].id) || j == i {
      NamesSnoc(out, (empty[i].id, |out|), empty[j].id);
    }
  }

  lemma NamesSnoc(out: seq<(nat, nat)>, m: (nat, nat), s: nat)
    ensures NamesSlot(out + [m], s) <==> NamesSlot(out, s) || m.0 == s
  {
    assert (out + [m])[|out|] == m;
    if NamesSlot(out, s) {
      var k :| 0 <= k < |out| && out[k].0 == s;
      assert (out + [m])[k].0 == s;
    }
  }

  lemma PickedStep(empty: seq<EmptySlotView>, waiting: seq<Request>, used: seq<bool>, out: seq<(nat, nat)>, i: nat)
    requires |out| < |waiting| && forall k :: 0 <= k < |out| ==> Picked(empty, waiting, out, k)
    requires used == NamedBy(empty, out) && i < |empty| && BestFor(empty, used, Tokens(waiting[|out|]), i)
    ensures forall k :: 0 <= k <= |out| ==> Picked(empty, waiting, out + [(empty[i].id, |out|)], k)
  {
    hide BestFor, NamesSlot;
    var out' := out + [(empty[i].id, |out|)];
    forall k | 0 <= k <= |out| ensures Picked(empty, waiting, out', k) {
      if k < |out| {
        assert Picked(empty, waiting, out, k);
        assert out'[..k] == out[..k];
      } else {
        assert out'[..k] == out;
      }
    }
  }

  // ---------------------------------------------------------------- what a pass takes of an answer

  /** The first of the answer's pairs for each queued request, if it names an empty slot. */
  function Taken(matches: seq<(nat, nat)>, empty: set<nat>, n: nat): seq<(nat, nat)> {
    if matches == [] then []
    else
      var k := |matches| - 1;
      var picks := Taken(matches[..k], empty, n);
      if Takes(picks, matches[k], empty, n) then picks + [matches[k]] else picks
  }

  predicate Takes(picks: seq<(nat, nat)>, m: (nat, nat), empty: set<nat>, n: nat) {
    m.1 < n && m.0 in empty && forall k :: 0 <= k < |picks| ==> picks[k].1 != m.1
  }

  /** The filter of `join_waiting` over a policy's answer. */
  method FilterMatches(matches: seq<(nat, nat)>, empty: set<nat>, n: nat) returns (picks: seq<(nat, nat)>)
    ensures picks == Taken(matches, empty, n)
  {
    var taken := seq(n, _ => false);
    picks := [];
    assert matches[..0] == [];
    for k := 0 to |matches|
      invariant |taken| == n && picks == Taken(matches[..k], empty, n)
      invariant forall q :: 0 <= q < |picks| ==> picks[q].1 < n && taken[picks[q].1]
      invariant forall w :: 0 <= w < n && taken[w] ==> exists q :: 0 <= q < |picks| && picks[q].1 == w
    {
      assert matches[..k + 1][..k] == matches[..k];
      ghost var picks0 := picks;
      var s, w := matches[k].0, matches[k].1;
      if w < n && !taken[w] && s in empty {
        taken := taken[w := true];
        picks := picks + [matches[k]];
        assert picks[|picks0|].1 == w;
      }
      assert forall q :: 0 <= q < |picks0| ==> picks[q] == picks0[q];
    }
    assert matches[..|matches|] == matches;
  }

  /** Some pick is about request `w`. */
  ghost predicate Serves(picks: seq<(nat, nat)>, w: nat) { exists k :: 0 <= k < |picks| && picks[k].1 == w }

  /** Every request is taken at most once, and only into an empty slot; and every queued request
    * the answer gives an empty slot is taken. */
  ghost predicate TakenRight(matches: seq<(nat, nat)>, empty: set<nat>, n: nat, picks: seq<(nat, nat)>) {
    && (forall k :: 0 <= k < |picks| ==> picks[k].1 < n && picks[k].0 in empty)
    && (forall k, l :: 0 <= k < l < |picks| ==> picks[k].1 != picks[l].1)
    && (forall i :: 0 <= i < |matches| && matches[i].1 < n && matches[i].0 in empty ==> Serves(picks, matches[i].1))
  }

  lemma {:induction false} TakenOnce(matches: seq<(nat, nat)>, empty: set<nat>, n: nat)
    ensures TakenRight(matches, empty, n, Taken(matches, empty, n))
  {
    if matches != [] {
      var k := |matches| - 1;
      var picks0, picks := Taken(matches[..k], empty, n), Taken(matches, empty, n);
      TakenOnce(matches[..k], empty, n);
      hide Taken;
      forall i | 0 <= i <= k && matches[i].1 < n && matches[i].0 in empty ensures Serves(picks, matches[i].1) {
        if i < k {
          assert matches[..k][i] == matches[i];
          ServesMore(picks0, picks, matches[i].1);
        } else if Takes(picks0, matches[k], empty, n) {
          assert picks[|picks0|] == matches[k];
        }
      }
    }
  }

  lemma ServesMore(a: seq<(nat, nat)>, b: seq<(nat, nat)>, w: nat)
    requires a <= b && Serves(a, w)
    ensures Serves(b, w)
  {
    var k :| 0 <= k < |a| && a[k].1 == w;
    assert b[k] == a[k];
  }

  /** An answer that pairs the queue in order with empty slots is taken as it is. */
  lemma {:induction false} InOrderIsTaken(matches: seq<(nat, nat)>, empty: set<nat>, n: nat)
    requires |matches| <= n && forall k :: 0 <= k < |matches| ==> matches[k].1 == k && matches[k].0 in empty
    ensures Taken(matches, empty, n) == matches
  {
    if matches != [] {
      var k := |matches| - 1;
      InOrderIsTaken(matches[..k], empty, n);
      assert matches == matches[..k] + [matches[k]];
    }
  }

  /** The picks name different slots, all of them named by the answer. */
  ghost predicate OwnSlots(matches: seq<(nat, nat)>, picks: seq<(nat, nat)>) {
    && (forall k :: 0 <= k < |picks| ==> NamesSlot(matches, picks[k].0))
    && (forall k, l :: 0 <= k < l < |picks| ==> picks[k].0 != picks[l].0)
  }

  ghost predicate NamesSlot(matches: seq<(nat, nat)>, s: nat) { exists i :: 0 <= i < |matches| && matches[i].0 == s }

  /** No slot is taken twice if the answer names none twice. */
  lemma {:induction false} DistinctSlotsStay(matches: seq<(nat, nat)>, empty: set<nat>, n: nat)
    requires forall i, j :: 0 <= i < j < |matches| ==> matches[i].0 != matches[j].0
    ensures OwnSlots(matches, Taken(matches, empty, n))
  {
    if matches != [] {
      var k := |matches| - 1;
      DistinctSlotsStay(matches[..k], empty, n);
      OwnSlotsNext(matches, Taken(matches[..k], empty, n));
    }
  }

  lemma OwnSlotsNext(matches: seq<(nat, nat)>, picks: seq<(nat, nat)>)
    requires matches != [] && OwnSlots(matches[..|matches| - 1], picks)
    requires forall i, j :: 0 <= i < j < |matches| ==> matches[i].0 != matches[j].0
    ensures OwnSlots(matches, picks) && OwnSlots(matches, picks + [matches[|matches| - 1]])
  {
    var k := |matches| - 1;
    forall q | 0 <= q < |picks| ensures NamesSlot(matches, picks[q].0) && picks[q].0 != matches[k].0 {
      assert NamesSlot(matches[..k], picks[q].0);
      var i :| 0 <= i < k && matches[..k][i].0 == picks[q].0;
      assert matches[i].0 == picks[q].0;
    }
    assert NamesSlot(matches, matches[k].0);
  }

  /** Nothing filters a slot that is named twice: both requests are sent to it. */
  lemma DuplicateSlotsPass(s: nat, empty: set<nat>)
    requires s in empty
    ensures Taken([(s, 0), (s, 1)], empty, 2) == [(s, 0), (s, 1)]
  {
    InOrderIsTaken([(s, 0), (s, 1)], empty, 2);
  }

  // ---------------------------------------------------------------- the pass over the queue

  /** What a join pass made of one request. */
  datatype Fate = Stays | BoundTo(slot: nat) | Failed

  /** The requests that stay, in their old order. */
  function Kept(waiting: seq<Request>, fates: seq<Fate>): seq<Request>
    requires |fates| == |waiting|
  {
    if waiting == [] then []
    else
      var n := |waiting| - 1;
      Kept(waiting[..n], fates[..n]) + if fates[n].Stays? then [waiting[n]] else []
  }

  lemma KeptSnoc(waiting: seq<Request>, fates: seq<Fate>, r: Request, f: Fate)
    requires |fates| == |waiting|
    ensures Kept(waiting + [r], fates + [f]) == Kept(waiting, fates) + if f.Stays? then [r] else []
  {
    assert (waiting + [r])[..|waiting|] == waiting && (fates + [f])[..|fates|] == fates;
  }

  function AllStay(n: nat): (f: seq<Fate>)
    ensures |f| == n && forall i :: 0 <= i < n ==> f[i].Stays?
  {
    if n == 0 then [] else AllStay(n - 1) + [Stays]
  }

  lemma {:induction false} KeptRest(waiting: seq<Request>, fates: seq<Fate>, rest: seq<Request>)
    requires |fates| == |waiting|
    ensures Kept(waiting + rest, fates + AllStay(|rest|)) == Kept(waiting, fates) + rest
  {
    if rest == [] {
      assert waiting + rest == waiting && fates + AllStay(0) == fates;
    } else {
      var n := |rest| - 1;
      KeptRest(waiting, fates, rest[..n]);
      KeptSnoc(waiting + rest[..n], fates + AllStay(n), rest[n], Stays);
      assert waiting + rest == waiting + rest[..n] + [rest[n]];
      assert fates + AllStay(|rest|) == fates + AllStay(n) + [Stays];
    }
  }

  /** Prompt tokens, and requests, bound among the first `k`. */
  function BoundTokens(waiting: seq<Request>, fates: seq<Fate>, k: nat): nat
    requires k <= |fates| && k <= |waiting|
  {
    if k == 0 then 0 else BoundTokens(waiting, fates, k - 1) + if fates[k - 1].BoundTo? then |Tokens(waiting[k - 1])| else 0
  }

  function BoundCount(fates: seq<Fate>, k: nat): nat
    requires k <= |fates|
  {
    if k == 0 then 0 else BoundCount(fates, k - 1) + if fates[k - 1].BoundTo? then 1 else 0
  }

  lemma {:induction false} BoundSame(waiting: seq<Request>, fates: seq<Fate>, fates': seq<Fate>, k: nat)
    requires k <= |fates| <= |waiting| && fates <= fates'
    ensures BoundTokens(waiting, fates', k) == BoundTokens(waiting, fates, k) && BoundCount(fates', k) == BoundCount(fates, k)
  {
    if k > 0 { BoundSame(waiting, fates, fates', k - 1); }
  }

  /** What becomes of a request whose turn comes at a load of `used` cells on `active` slots: it
    * stays exactly if it is deferred, and is bound exactly if its prompt is below its join cap. */
  ghost predicate FateRight(p: Pool, r: Request, f: Fate, used: nat, active: nat) {
    var need := if r.tokens.Some? then |r.tokens.value| else 0;
    if need > U32_MAX then f.Failed?
    else
      && used <= U32_MAX && active < U32_MAX
      && (f.Stays? <==> Decision(used, active + 1, need, r.maxTokens, p.pool, p.singleMax, p.specNMax).Defer?)
      && (f.BoundTo? <==> !f.Stays? && 0 < need < CapForJoin(used, active + 1, p.pool, p.singleMax, p.specNMax))
  }

  lemma TooLongFails(p: Pool, r: Request, used: nat, active: nat)
    ensures |Tokens(r)| > U32_MAX ==> FateRight(p, r, Failed, used, active)
  {
  }

  lemma FateIs(p: Pool, r: Request, f: Fate, used: U32, active: U32)
    requires |Tokens(r)| <= U32_MAX && active < U32_MAX
    requires f.Stays? <==> Decision(used, active + 1, |Tokens(r)|, r.maxTokens, p.pool, p.singleMax, p.specNMax).Defer?
    requires f.BoundTo? <==> !f.Stays? && 0 < |Tokens(r)| < CapForJoin(used, active + 1, p.pool, p.singleMax, p.specNMax)
    ensures FateRight(p, r, f, used, active)
  {
    hide Decision, CapForJoin;
  }

  /** The same for the `k`-th of a queue, the earlier of which were bound on top of `used` and `active`. */
  ghost predicate Judged(p: Pool, waiting: seq<Request>, fates: seq<Fate>, k: nat, used: nat, active: nat)
    requires k < |fates| && k < |waiting|
  {
    FateRight(p, waiting[k], fates[k], used + BoundTokens(waiting, fates, k), active + BoundCount(fates, k))
  }

  lemma JudgedStays(p: Pool, waiting: seq<Request>, fates: seq<Fate>, fates': seq<Fate>, k: nat, used: nat, active: nat)
    requires k < |fates| <= |waiting| && fates <= fates'
    ensures Judged(p, waiting, fates', k, used, active) <==> Judged(p, waiting, fates, k, used, active)
  {
    BoundSame(waiting, fates, fates', k);
  }

  /** On an idle pool the first of the queue is bound if its prompt fits alone. */
  lemma IdlePoolTakesFirst(p: Pool, waiting: seq<Request>, fates: seq<Fate>)
    requires 0 < |fates| && 0 < |waiting| && Judged(p, waiting, fates, 0, 0, 0)
    requires 0 < |Tokens(waiting[0])| < CapForJoin(0, 1, p.pool, p.singleMax, p.specNMax)
    ensures fates[0].BoundTo?
  {
    hide CapForJoin;
  }

  /** The first `n` of the queue were judged one after the other and the bound ones went where they
    * were picked for; the rest stays. */
  ghost predicate PassRight(p: Pool, empty: seq<EmptySlotView>, waiting: seq<Request>, fates: seq<Fate>, picks: seq<(nat, nat)>,
                            used: nat, active: nat)
  {
    && |fates| == |waiting| && |picks| == Min(|empty|, |waiting|)
    && (forall k :: 0 <= k < |picks| ==> Picked(empty, waiting, picks, k) && Judged(p, waiting, fates, k, used, active))
    && (forall k :: 0 <= k < |picks| && fates[k].BoundTo? ==> fates[k].slot == picks[k].0)
    && (forall k :: |picks| <= k < |fates| ==> fates[k].Stays?)
  }

  /** The views of the empty slots, by id. */
  function EmptyOf(held: seq<Option<Request>>, idle: seq<EmptySlotView>): seq<EmptySlotView>
    requires |held| == |idle|
  {
    if held == [] then []
    else
      var n := |held| - 1;
      EmptyOf(held[..n], idle[..n]) + if held[n].None? then [idle[n]] else []
  }

  lemma EmptyNext(held: seq<Option<Request>>, idle: seq<EmptySlotView>, n: nat)
    requires n < |held| == |idle|
    ensures EmptyOf(held[..n + 1], idle[..n + 1]) == EmptyOf(held[..n], idle[..n]) + if held[n].None? then [idle[n]] else []
  {
    assert held[..n + 1][..n] == held[..n] && idle[..n + 1][..n] == idle[..n];
  }

  lemma NoneEmpty(held: seq<Option<Request>>, idle: seq<EmptySlotView>)
    requires |held| == |idle|
    ensures EmptyOf(held[..0], idle[..0]) == []
  {
  }

  /** Every empty slot is listed, once and nothing else. */
  lemma {:induction false} EmptyLists(held: seq<Option<Request>>, idle: seq<EmptySlotView>)
    requires |held| == |idle| && forall i :: 0 <= i < |idle| ==> idle[i].id == i
    ensures DistinctIds(EmptyOf(held, idle))
    ensures forall i :: 0 <= i < |EmptyOf(held, idle)| ==> EmptyOf(held, idle)[i].id < |held|
    ensures forall s :: 0 <= s < |held| ==> (held[s].None? <==> Lists(EmptyOf(held, idle), s))
  {
    hide DistinctIds, Lists;
    if held == [] {
      NothingLists();
    } else {
      var n := |held| - 1;
      EmptyLists(held[..n], idle[..n]);
      assert forall s :: 0 <= s < n ==> held[..n][s] == held[s];
      var empty := EmptyOf(held[..n], idle[..n]);
      ListsNext(empty, idle[n], n);
      assert EmptyOf(held, idle) == if held[n].None? then empty + [idle[n]] else empty;
    }
  }

  lemma NothingLists()
    ensures DistinctIds([]) && forall s :: !Lists([], s)
  {
  }

  lemma ListsNext(empty: seq<EmptySlotView>, e: EmptySlotView, n: nat)
    requires DistinctIds(empty) && e.id == n && forall i :: 0 <= i < |empty| ==> empty[i].id < n
    ensures DistinctIds(empty + [e]) && !Lists(empty, n)
    ensures forall s :: Lists(empty + [e], s) <==> Lists(empty, s) || s == n
  {
    forall s ensures Lists(empty + [e], s) <==> Lists(empty, s) || s == n { ListsSnoc(empty, e, s); }
  }

  ghost predicate Lists(empty: seq<EmptySlotView>, s: nat) { exists i :: 0 <= i < |empty| && empty[i].id == s }

  lemma ListsSnoc(empty: seq<EmptySlotView>, e: EmptySlotView, s: nat)
    ensures Lists(empty + [e], s) <==> Lists(empty, s) || e.id == s
  {
    assert (empty + [e])[|empty|] == e;
    if Lists(empty, s) {
      var i :| 0 <= i < |empty| && empty[i].id == s;
      assert (empty + [e])[i].id == s;
    }
  }

  /** A pass that is fair to the queue: a bound request holds a slot of its own that was empty,
    * and no other slot changed hands. */
  ghost predicate Placed(was: seq<Option<Request>>, now: seq<Option<Request>>, waiting: seq<Request>, fates: seq<Fate>) {
    && |now| == |was| && |fates| == |waiting|
    && (forall k :: 0 <= k < |fates| && fates[k].BoundTo? ==>
          fates[k].slot < |was| && was[fates[k].slot].None? && now[fates[k].slot] == Some(waiting[k]))
    && (forall k, l :: 0 <= k < l < |fates| && fates[k].BoundTo? && fates[l].BoundTo? ==> fates[k].slot != fates[l].slot)
    && (forall s :: 0 <= s < |was| && now[s] != was[s] ==> exists k :: 0 <= k < |fates| && fates[k] == BoundTo(s))
  }

  lemma PlacedStay(was: seq<Option<Request>>, now: seq<Option<Request>>, waiting: seq<Request>, fates: seq<Fate>, r: Request, f: Fate)
    requires Placed(was, now, waiting, fates) && !f.BoundTo?
    ensures Placed(was, now, waiting + [r], fates + [f])
  {
    forall s | 0 <= s < |was| && now[s] != was[s] ensures exists k :: 0 <= k < |fates + [f]| && (fates + [f])[k] == BoundTo(s) {
      var k :| 0 <= k < |fates| && fates[k] == BoundTo(s);
      assert (fates + [f])[k] == BoundTo(s);
    }
  }

  lemma PlacedBound(was: seq<Option<Request>>, now: seq<Option<Request>>, waiting: seq<Request>, fates: seq<Fate>, r: Request, s: nat)
    requires Placed(was, now, waiting, fates) && s < |now| && now[s].None? && was[s].None?
    ensures Placed(was, now[s := Some(r)], waiting + [r], fates + [BoundTo(s)])
  {
    var fates' := fates + [BoundTo(s)];
    forall q | 0 <= q < |was| && now[s := Some(r)][q] != was[q] ensures exists k :: 0 <= k < |fates'| && fates'[k] == BoundTo(q) {
      if q == s {
        assert fates'[|fates|] == BoundTo(q);
      } else {
        var k :| 0 <= k < |fates| && fates[k] == BoundTo(q);
        assert fates'[k] == BoundTo(q);
      }
    }
    forall k | 0 <= k < |fates| && fates[k].BoundTo? ensures fates[k].slot != s {
      assert now[fates[k].slot] == Some(waiting[k]);
    }
  }

  /** The scheduler's slots during a join pass: what the pool counts for them, which request
    * each runs, and what an empty one still holds of its last session. Slot ids are indices. */
  class Joiner {
    const pool: Pool
    const held: array<Option<Request>>
    const idle: array<EmptySlotView>

    ghost predicate Valid()
      reads this, pool, pool.jobs, held, idle
    {
      && held.Length == idle.Length == pool.jobs.Length < U32_MAX
      && (forall i :: 0 <= i < held.Length ==> (held[i].None? <==> pool.jobs[i].None?))
      && (forall i :: 0 <= i < idle.Length ==> idle[i].id == i)
      && UsedSum(pool.jobs[..]) <= U32_MAX && Active(pool.jobs[..]) < U32_MAX
    }

    constructor (pool: Pool)
      requires pool.jobs.Length < U32_MAX && UsedSum(pool.jobs[..]) <= U32_MAX
      requires forall i :: 0 <= i < pool.jobs.Length ==> pool.jobs[i].None?
      ensures Valid() && this.pool == pool && fresh(held) && fresh(idle)
    {
      this.pool := pool;
      held := new Option<Request>[pool.jobs.Length](_ => None);
      idle := new EmptySlotView[pool.jobs.Length](i => EmptySlotView(i, [], 0, 0));
    }

    method EmptySlots() returns (empty: seq<EmptySlotView>)
      requires Valid()
      ensures DistinctIds(empty) && empty == EmptyOf(held[..], idle[..])
      ensures forall s :: 0 <= s < held.Length ==> (held[s].None? <==> Lists(empty, s))
      ensures forall i :: 0 <= i < |empty| ==> empty[i].id < held.Length
    {
      hide EmptyOf;
      empty := [];
      NoneEmpty(held[..], idle[..]);
      for s := 0 to held.Length
        invariant empty == EmptyOf(held[..][..s], idle[..][..s])
      {
        EmptyNext(held[..], idle[..], s);
        if held[s].None? { empty := empty + [idle[s]]; }
      }
      assert held[..][..held.Length] == held[..] && idle[..][..held.Length] == idle[..];
      EmptyLists(held[..], idle[..]);
    }

    /** One pair of the policy: admission, then bind. A request that could not be encoded, or
      * does not fit its cap, fails. */
    method JoinOne(s: nat, job: Request) returns (f: Fate)
      requires Valid() && s < held.Length && held[s].None?
      modifies pool.jobs, held
      ensures Valid() && (f.BoundTo? ==> f.slot == s)
      ensures held[..] == if f.BoundTo? then old(held[..])[s := Some(job)] else old(held[..])
      ensures FateRight(pool, job, f, UsedSum(old(pool.jobs[..])), Active(old(pool.jobs[..])))
      ensures UsedSum(pool.jobs[..]) == UsedSum(old(pool.jobs[..])) + if f.BoundTo? then |Tokens(job)| else 0
      ensures Active(pool.jobs[..]) == Active(old(pool.jobs[..])) + if f.BoundTo? then 1 else 0
    {
      hide *;
      CanJoin(s);
      TooLongFails(pool, job, UsedSum(pool.jobs[..]), Active(pool.jobs[..]));
      if |Tokens(job)| > U32_MAX { return Failed; }
      ghost var was, jobs := held[..], pool.jobs[..];
      f := Admission(s, job);
      if f.BoundTo? { held[s] := Some(job); }
      StillValid(was, jobs, s, job, f.BoundTo?);
    }

    /** The pool's verdict, as a fate. */
    method Admission(s: nat, job: Request) returns (f: Fate)
      requires s < pool.jobs.Length <= U32_MAX && pool.jobs[s].None? && |Tokens(job)| <= U32_MAX
      requires UsedSum(pool.jobs[..]) <= U32_MAX && Active(pool.jobs[..]) < U32_MAX
      modifies pool.jobs
      ensures (f.BoundTo? ==> f.slot == s) && FateRight(pool, job, f, UsedSum(old(pool.jobs[..])), Active(old(pool.jobs[..])))
      ensures if f.BoundTo? then SeatsTaken(old(pool.jobs[..]), pool.jobs[..], s) else pool.jobs[..] == old(pool.jobs[..])
      ensures UsedSum(pool.jobs[..]) == UsedSum(old(pool.jobs[..])) + if f.BoundTo? then |Tokens(job)| else 0
      ensures Active(pool.jobs[..]) == Active(old(pool.jobs[..])) + if f.BoundTo? then 1 else 0
      ensures UsedSum(pool.jobs[..]) <= U32_MAX
    {
      hide *;
      ghost var was, need := pool.jobs[..], |Tokens(job)|;
      ghost var used, active := UsedSum(was), Active(was);
      var outcome := pool.Join(s, |Tokens(job)|, job.maxTokens);
      if outcome.Bound? {
        f := BoundTo(s);
        assert UsedSum(pool.jobs[..]) == used + need && UsedSum(pool.jobs[..]) < pool.pool;
      } else {
        f := if outcome.Deferred? then Stays else Failed;
        assert pool.jobs[..] == was;
      }
      FateIs(pool, job, f, used, active);
    }

    lemma CanJoin(s: nat)
      requires Valid() && s < held.Length && held[s].None?
      ensures held.Length == pool.jobs.Length < U32_MAX && pool.jobs[s].None?
      ensures UsedSum(pool.jobs[..]) <= U32_MAX && Active(pool.jobs[..]) < U32_MAX
      ensures ValidAt(held[..], pool.jobs[..])
    {
    }

    /** The slots of the scheduler and the seats of the pool are taken alike. */
    ghost predicate ValidAt(was: seq<Option<Request>>, jobs: seq<Seat>)
      reads idle
    {
      && |was| == idle.Length == |jobs| == held.Length == pool.jobs.Length < U32_MAX
      && (forall i :: 0 <= i < |was| ==> (was[i].None? <==> jobs[i].None?))
      && (forall i :: 0 <= i < idle.Length ==> idle[i].id == i)
    }

    lemma StillValid(was: seq<Option<Request>>, jobs: seq<Seat>, s: nat, job: Request, bound: bool)
      requires ValidAt(was, jobs) && s < |was| && was[s].None?
      requires held[..] == if bound then was[s := Some(job)] else was
      requires if bound then SeatsTaken(jobs, pool.jobs[..], s) else pool.jobs[..] == jobs
      requires UsedSum(pool.jobs[..]) <= U32_MAX && Active(pool.jobs[..]) < U32_MAX
      ensures Valid()
    {
    }

    /** The picks from the `k`-th on still go to empty slots. */
    ghost predicate Ahead(picks: seq<(nat, nat)>, k: nat)
      reads held
    {
      forall l :: k <= l < |picks| ==> picks[l].0 < held.Length && held[picks[l].0].None?
    }

    /** The arrival-order policy's answer, filtered. */
    method Picks(waiting: seq<Request>) returns (picks: seq<(nat, nat)>)
      requires Valid()
      ensures |picks| <= |waiting| && Ahead(picks, 0)
      ensures forall k, l :: 0 <= k < l < |picks| ==> picks[k].0 != picks[l].0
      ensures |picks| == Min(|EmptyOf(held[..], idle[..])|, |waiting|)
      ensures forall k :: 0 <= k < |picks| ==> Picked(EmptyOf(held[..], idle[..]), waiting, picks, k)
    {
      hide Picked, EmptyOf;
      var empty := EmptySlots();
      var matches := PrefixAwareJoin(empty, waiting);
      var ids := set i | 0 <= i < |empty| :: empty[i].id;
      InOrderIsTaken(matches, ids, |waiting|);
      picks := FilterMatches(matches, ids, |waiting|);
    }

    /** `join_waiting` under the arrival-order policy. As many of the queue as there are empty slots get
      * a turn (`picks`); each is bound to the best slot left for it, fails or stays by the load it finds. */
    method JoinPass(waiting: seq<Request>) returns (left: seq<Request>, fates: seq<Fate>, ghost picks: seq<(nat, nat)>)
      requires Valid()
      modifies pool.jobs, held
      ensures Valid() && |fates| == |waiting| && left == Kept(waiting, fates)
      ensures Placed(old(held[..]), held[..], waiting, fates)
      ensures PassRight(pool, EmptyOf(old(held[..]), old(idle[..])), waiting, fates, picks,
                        UsedSum(old(pool.jobs[..])), Active(old(pool.jobs[..])))
      ensures UsedSum(pool.jobs[..]) == UsedSum(old(pool.jobs[..])) + BoundTokens(waiting, fates, |waiting|)
    {
      hide *;
      SlotCount();
      ghost var empty, used, active := EmptyOf(held[..], idle[..]), UsedSum(pool.jobs[..]), Active(pool.jobs[..]);
      var turns := Picks(waiting);
      picks := turns;
      var rejected: seq<Request> := [];
      fates := [];
      ghost var was := held[..];
      NothingYet(was, waiting);
      NobodyJudged(pool, waiting, turns, used, active);
      for k := 0 to |turns|
        invariant Valid() && |fates| == k && Ahead(turns, k)
        invariant rejected == Kept(waiting[..k], fates)
        invariant Placed(was, held[..], waiting[..k], fates)
        invariant SoFar(pool, waiting, fates, turns, used, active)
        invariant UsedSum(pool.jobs[..]) == used + BoundTokens(waiting, fates, k)
        invariant Active(pool.jobs[..]) == active + BoundCount(fates, k)
      {
        var s, job := turns[k].0, waiting[k];
        assert waiting[..k + 1] == waiting[..k] + [job];
        ghost var now, fates0 := held[..], fates;
        SlotCount();
        TurnIsEmpty(turns, k, now);
        var f := JoinOne(s, job);
        KeptSnoc(waiting[..k], fates, job, f);
        PlacedNext(was, now, waiting[..k], fates, job, f, s);
        JudgedNext(pool, waiting, fates, turns, used, active, f);
        if f.Stays? { rejected := rejected + [job]; }
        fates := fates + [f];
        StillAhead(turns, k, now, f);
      }
      var n := |turns|;
      left := rejected + waiting[n..];
      KeptRest(waiting[..n], fates, waiting[n..]);
      PlacedRest(was, held[..], waiting[..n], fates, waiting[n..]);
      PassEnds(pool, empty, waiting, fates, turns, used, active);
      fates := fates + AllStay(|waiting| - n);
      assert waiting[..n] + waiting[n..] == waiting;
    }

    lemma TurnIsEmpty(picks: seq<(nat, nat)>, k: nat, now: seq<Option<Request>>)
      requires Ahead(picks, k) && k < |picks| && now == held[..]
      ensures forall l :: k <= l < |picks| ==> picks[l].0 < |now| && now[picks[l].0].None?
    {
    }

    /** Binding one pick leaves the later ones ahead. */
    lemma StillAhead(picks: seq<(nat, nat)>, k: nat, was: seq<Option<Request>>, f: Fate)
      requires k < |picks| && |was| == held.Length && (forall i, j :: 0 <= i < j < |picks| ==> picks[i].0 != picks[j].0)
      requires forall l :: k <= l < |picks| ==> picks[l].0 < held.Length && was[picks[l].0].None?
      requires f.BoundTo? ==> f.slot == picks[k].0
      requires forall i :: 0 <= i < held.Length && held[i] != was[i] ==> f == BoundTo(i)
      ensures Ahead(picks, k + 1)
    {
    }

    lemma SlotCount()
      requires Valid()
      ensures held.Length == idle.Length == pool.jobs.Length
    {
    }
  }

  lemma NothingYet(was: seq<Option<Request>>, waiting: seq<Request>)
    ensures Placed(was, was, waiting[..0], []) && Kept(waiting[..0], []) == []
  {
  }

  /** The requests that had their turn were judged at the load they found, and bound where picked. */
  ghost predicate SoFar(p: Pool, waiting: seq<Request>, fates: seq<Fate>, picks: seq<(nat, nat)>, used: nat, active: nat) {
    && |fates| <= |picks| && |fates| <= |waiting|
    && (forall k :: 0 <= k < |fates| ==> Judged(p, waiting, fates, k, used, active))
    && (forall k :: 0 <= k < |fates| && fates[k].BoundTo? ==> fates[k].slot == picks[k].0)
  }

  lemma NobodyJudged(p: Pool, waiting: seq<Request>, picks: seq<(nat, nat)>, used: nat, active: nat)
    ensures SoFar(p, waiting, [], picks, used, active) && BoundTokens(waiting, [], 0) == BoundCount([], 0) == 0
  {
  }

  lemma JudgedNext(p: Pool, waiting: seq<Request>, fates: seq<Fate>, picks: seq<(nat, nat)>, used: nat, active: nat, f: Fate)
    requires SoFar(p, waiting, fates, picks, used, active) && |fates| < |picks| <= |waiting|
    requires f.BoundTo? ==> f.slot == picks[|fates|].0
    requires FateRight(p, waiting[|fates|], f, used + BoundTokens(waiting, fates, |fates|), active + BoundCount(fates, |fates|))
    ensures SoFar(p, waiting, fates + [f], picks, used, active)
    ensures BoundTokens(waiting, fates + [f], |fates| + 1)
      == BoundTokens(waiting, fates, |fates|) + if f.BoundTo? then |Tokens(waiting[|fates|])| else 0
    ensures BoundCount(fates + [f], |fates| + 1) == BoundCount(fates, |fates|) + if f.BoundTo? then 1 else 0
  {
    hide FateRight;
    var fates' := fates + [f];
    BoundSame(waiting, fates, fates', |fates|);
    forall k | 0 <= k < |fates| ensures Judged(p, waiting, fates', k, used, active) {
      JudgedStays(p, waiting, fates, fates', k, used, active);
    }
  }

  lemma PassEnds(p: Pool, empty: seq<EmptySlotView>, waiting: seq<Request>, fates: seq<Fate>, picks: seq<(nat, nat)>, used: nat, active: nat)
    requires SoFar(p, waiting, fates, picks, used, active) && |fates| == |picks| == Min(|empty|, |waiting|)
    requires forall k :: 0 <= k < |picks| ==> Picked(empty, waiting, picks, k)
    ensures PassRight(p, empty, waiting, fates + AllStay(|waiting| - |picks|), picks, used, active)
    ensures BoundTokens(waiting, fates + AllStay(|waiting| - |picks|), |waiting|) == BoundTokens(waiting, fates, |picks|)
  {
    hide FateRight, Picked;
    var fates' := fates + AllStay(|waiting| - |picks|);
    forall k | 0 <= k < |fates| ensures Judged(p, waiting, fates', k, used, active) {
      JudgedStays(p, waiting, fates, fates', k, used, active);
    }
    BoundSame(waiting, fates, fates', |fates|);
    NoMoreBound(waiting, fates', |fates|, |waiting|);
  }

  lemma {:induction false} NoMoreBound(waiting: seq<Request>, fates: seq<Fate>, n: nat, k: nat)
    requires n <= k <= |fates| && k <= |waiting| && forall i :: n <= i < k ==> fates[i].Stays?
    ensures BoundTokens(waiting, fates, k) == BoundTokens(waiting, fates, n)
  {
    if n < k { NoMoreBound(waiting, fates, n, k - 1); }
  }

  lemma StillEmpty(was: seq<Option<Request>>, now: seq<Option<Request>>, waiting: seq<Request>, fates: seq<Fate>, s: nat)
    requires Placed(was, now, waiting, fates) && s < |now| && now[s].None?
    ensures was[s].None?
  {
    assert forall k :: 0 <= k < |fates| ==> fates[k] != BoundTo(s);
  }

  lemma PlacedNext(was: seq<Option<Request>>, now: seq<Option<Request>>, waiting: seq<Request>, fates: seq<Fate>, r: Request, f: Fate, s: nat)
    requires Placed(was, now, waiting, fates) && s < |now| && now[s].None? && (f.BoundTo? ==> f.slot == s)
    ensures Placed(was, if f.BoundTo? then now[s := Some(r)] else now, waiting + [r], fates + [f])
  {
    if f.BoundTo? {
      StillEmpty(was, now, waiting, fates, s);
      PlacedBound(was, now, waiting, fates, r, s);
    } else {
      PlacedStay(was, now, waiting, fates, r, f);
    }
  }

  lemma {:induction false} PlacedRest(was: seq<Option<Request>>, now: seq<Option<Request>>, waiting: seq<Request>,
                                      fates: seq<Fate>, rest: seq<Request>)
    requires Placed(was, now, waiting, fates)
    ensures Placed(was, now, waiting + rest, fates + AllStay(|rest|))
  {
    if rest == [] {
      assert waiting + rest == waiting && fates + AllStay(0) == fates;
    } else {
      var n := |rest| - 1;
      PlacedRest(was, now, waiting, fates, rest[..n]);
      PlacedStay(was, now, waiting + rest[..n], fates + AllStay(n), rest[n], Stays);
      assert waiting + rest == waiting + rest[..n] + [rest[n]];
      assert fates + AllStay(|rest|) == fates + AllStay(n) + [Stays];
    }
  }

  lemma SnocOneSide(all: seq<Request>, a: seq<Request>, b: seq<Request>, r: Request)
    requires multiset(all) == multiset(a) + multiset(b)
    ensures multiset(all + [r]) == multiset(a + [r]) + multiset(b) == multiset(a) + multiset(b + [r])
  {
  }

  lemma SidesNext(waiting: seq<Request>, fates: seq<Fate>, n: nat)
    requires |fates| == |waiting| == n + 1
    ensures Kept(waiting, fates) == if fates[n].Stays? then Kept(waiting[..n], fates[..n]) + [waiting[n]] else Kept(waiting[..n], fates[..n])
    ensures Gone(waiting, fates) == if fates[n].Stays? then Gone(waiting[..n], fates[..n]) else Gone(waiting[..n], fates[..n]) + [waiting[n]]
  {
  }

  /** Every request is in exactly one place: still queued, failed, or bound. */
  lemma {:induction false} NothingLost(waiting: seq<Request>, fates: seq<Fate>)
    requires |fates| == |waiting|
    ensures multiset(waiting) == multiset(Kept(waiting, fates)) + multiset(Gone(waiting, fates))
  {
    if waiting == [] {
      NobodyLost(fates);
    } else {
      var n := |waiting| - 1;
      NothingLost(waiting[..n], fates[..n]);
      SidesNext(waiting, fates, n);
      hide *;
      NextLost(waiting, waiting[..n], Kept(waiting[..n], fates[..n]), Gone(waiting[..n], fates[..n]), fates[n].Stays?);
    }
  }

  lemma NobodyLost(fates: seq<Fate>)
    requires fates == []
    ensures Kept([], fates) == [] && Gone([], fates) == []
  {
  }

  lemma NextLost(waiting: seq<Request>, front: seq<Request>, kept: seq<Request>, gone: seq<Request>, stays: bool)
    requires waiting != [] && front == waiting[..|waiting| - 1] && multiset(front) == multiset(kept) + multiset(gone)
    ensures var r := waiting[|waiting| - 1];
      multiset(waiting) == if stays then multiset(kept + [r]) + multiset(gone) else multiset(kept) + multiset(gone + [r])
  {
    var r := waiting[|waiting| - 1];
    assert waiting == front + [r];
    SnocOneSide(front, kept, gone, r);
  }

  /** The requests that were bound or failed. */
  function Gone(waiting: seq<Request>, fates: seq<Fate>): seq<Request>
    requires |fates| == |waiting|
  {
    if waiting == [] then []
    else
      var n := |waiting| - 1;
      Gone(waiting[..n], fates[..n]) + if fates[n].Stays? then [] else [waiting[n]]
  }
}
