/** Splitting the prefill tokens of one batch across hungry slots. */
module Quota {
  import opened Common

  function Sum(s: seq<nat>): nat {
    if s == [] then 0 else Sum(s[..|s| - 1]) + s[|s| - 1]
  }

  lemma {:induction false} SumUpdate(s: seq<nat>, i: nat, v: nat)
    requires i < |s|
    ensures Sum(s[i := v]) == Sum(s) - s[i] + v
  {
    var n := |s| - 1;
    if i < n {
      SumUpdate(s[..n], i, v);
      assert s[i := v][..n] == s[..n][i := v];
    } else {
      assert s[i := v][..n] == s[..n];
    }
  }

  lemma {:induction false} SumMonotone(s: seq<nat>, t: seq<nat>)
    requires |s| == |t| && forall i :: 0 <= i < |s| ==> s[i] <= t[i]
    ensures Sum(s) <= Sum(t)
  {
    if s != [] { SumMonotone(s[..|s| - 1], t[..|t| - 1]); }
  }

  lemma {:induction false} SumZeros(s: seq<nat>)
    requires forall i :: 0 <= i < |s| ==> s[i] == 0
    ensures Sum(s) == 0
  {
    if s != [] { SumZeros(s[..|s| - 1]); }
  }

  lemma SumSplit(s: seq<nat>, j: nat)
    requires j < |s|
    ensures Sum(s[..j + 1]) == Sum(s[..j]) + s[j]
  {
    assert s[..j + 1][..j] == s[..j];
  }

  lemma {:induction false} SumAtLeast(s: seq<nat>, i: nat)
    requires i < |s|
    ensures s[i] <= Sum(s)
  {
    if i < |s| - 1 { SumAtLeast(s[..|s| - 1], i); }
  }

  /** What every slot may get at most in this batch. */
  function Demands(remaining: seq<nat>, perSlotMax: nat): (d: seq<nat>)
    ensures |d| == |remaining|
    ensures forall i :: 0 <= i < |d| ==> d[i] == Min(remaining[i], perSlotMax)
  {
    if remaining == [] then []
    else Demands(remaining[..|remaining| - 1], perSlotMax) + [Min(remaining[|remaining| - 1], perSlotMax) as nat]
  }

  /** Everyone has the same level, or all they asked for. */
  ghost predicate AtLevel(d: seq<nat>, take: seq<nat>, r: nat) {
    |take| == |d| && forall i :: 0 <= i < |d| ==> take[i] == Min(d[i], r)
  }

  /** Max-min fair to within one token: a level, and one more token for some that want it. */
  ghost predicate NearLevel(d: seq<nat>, take: seq<nat>, r: nat) {
    |take| == |d| && forall i :: 0 <= i < |d| ==> take[i] == Min(d[i], r) || take[i] == Min(d[i], r + 1)
  }

  ghost predicate FairSplit(cap: nat, d: seq<nat>, take: seq<nat>) {
    && Sum(take) == Min(cap, Sum(d))
    && exists r: nat :: NearLevel(d, take, r)
  }

  /** Indices still short of their demand, ascending. */
  method Hungry(d: seq<nat>, take: seq<nat>) returns (hungry: seq<nat>)
    requires |take| == |d|
    ensures IsHungry(d, take, hungry)
  {
    hungry := [];
    for i := 0 to |d|
      invariant forall x :: x in hungry <==> 0 <= x < i && take[x] < d[x]
      invariant forall a :: 0 <= a < |hungry| ==> hungry[a] < i
      invariant forall a, b :: 0 <= a < b < |hungry| ==> hungry[a] < hungry[b]
    {
      if take[i] < d[i] { hungry := hungry + [i]; }
    }
  }

  /** The indices of the slots below their demand, ascending. */
  ghost predicate IsHungry(d: seq<nat>, take: seq<nat>, hungry: seq<nat>) {
    && |take| == |d|
    && (forall x :: x in hungry <==> 0 <= x < |d| && take[x] < d[x])
    && (forall a, b :: 0 <= a < b < |hungry| ==> hungry[a] < hungry[b])
  }

  /** A round after its first `q` hungry slots. */
  ghost predicate Served(d: seq<nat>, take0: seq<nat>, take: seq<nat>, hungry: seq<nat>, q: nat, r: nat) {
    && |take| == |d| == |take0| && q <= |hungry|
    && forall x :: 0 <= x < |d| ==> take[x] == if x in hungry[..q] then Min(d[x], r) else take0[x]
  }

  lemma NextHungry(d: seq<nat>, take0: seq<nat>, take: seq<nat>, hungry: seq<nat>, q: nat, level: nat, r: nat)
    requires AtLevel(d, take0, level) && IsHungry(d, take0, hungry)
    requires Served(d, take0, take, hungry, q, r) && q < |hungry|
    ensures hungry[q] < |d| == |take| && take[hungry[q]] == level < d[hungry[q]]
    ensures Served(d, take0, take[hungry[q] := Min(d[hungry[q]], r)], hungry, q + 1, r)
  {
    assert hungry[q] in hungry && hungry[q] !in hungry[..q];
    assert hungry[..q + 1] == hungry[..q] + [hungry[q]];
  }

  lemma RoundEnds(d: seq<nat>, take0: seq<nat>, take: seq<nat>, hungry: seq<nat>, q: nat, level: nat, share: nat)
    requires AtLevel(d, take0, level) && IsHungry(d, take0, hungry) && 0 < share
    requires Served(d, take0, take, hungry, q, level + share)
    ensures q == |hungry| ==> AtLevel(d, take, level + share) && NearLevel(d, take, level + share)
    ensures share == 1 ==> NearLevel(d, take, level)
  {
    if q == |hungry| { assert hungry[..q] == hungry; }
  }

  /** One round of the water filling: every hungry slot is offered `share`, in order, until
    * nothing is left. */
  method Round(d: seq<nat>, take0: seq<nat>, hungry: seq<nat>, left0: nat, ghost level: nat)
    returns (take: seq<nat>, left: nat, ghost level': nat)
    requires AtLevel(d, take0, level) && IsHungry(d, take0, hungry) && left0 > 0 && hungry != []
    ensures |take| == |d| && left < left0 && Sum(take) + left == Sum(take0) + left0
    ensures left > 0 ==> AtLevel(d, take, level')
    ensures NearLevel(d, take, level')
  {
    hide Served, IsHungry, AtLevel, NearLevel;
    var h := |hungry|;
    var share := Max(left0 / h, 1);
    ShareFits(left0, h, share);
    take, left := take0, left0;
    ServedNone(d, take0, hungry, level, share);
    var q := 0;
    while q < h && left > 0
      invariant 0 <= q <= h && left <= left0 && |take| == |d|
      invariant Served(d, take0, take, hungry, q, level + share)
      invariant Sum(take) + left == Sum(take0) + left0
      invariant q > 0 ==> left < left0
      invariant left0 >= h ==> left >= Shares(share, h - q)
    {
      var i := hungry[q];
      NextHungry(d, take0, take, hungry, q, level, level + share);
      var add := Min(Min(d[i] - take[i], share), left);
      SumUpdate(take, i, take[i] + add);
      take := take[i := take[i] + add];
      left := left - add;
      q := q + 1;
    }
    RoundEnds(d, take0, take, hungry, q, level, share);
    level' := if q == h then level + share else level;
  }

  lemma ServedNone(d: seq<nat>, take0: seq<nat>, hungry: seq<nat>, level: nat, share: nat)
    requires AtLevel(d, take0, level)
    ensures Served(d, take0, take0, hungry, 0, level + share) && |take0| == |d|
  {
  }

  /** `k` shares, added up. */
  ghost function Shares(share: nat, k: nat): nat {
    if k == 0 then 0 else share + Shares(share, k - 1)
  }

  lemma {:induction false} SharesIsProduct(share: nat, k: nat)
    ensures Shares(share, k) == share * k
  {
    if k > 0 { SharesIsProduct(share, k - 1); }
  }

  lemma ShareFits(left: nat, h: nat, share: nat)
    requires h > 0 && share == Max(left / h, 1)
    ensures left >= h ==> left >= Shares(share, h)
    ensures left < h ==> share == 1
  {
    SharesIsProduct(share, h);
    DivBounds(left, h);
    if left >= h { assert share == left / h; }
  }

  lemma DivBounds(left: nat, h: nat)
    requires h > 0
    ensures (left / h) * h <= left
    ensures left >= h ==> left / h >= 1
    ensures left < h ==> left / h == 0
  {
  }

  /** `split_prefill_quota`: the whole cap is used up or every demand is met, and no slot gets
    * more than one token beyond what a smaller demand would have freed for it. */
  method SplitPrefillQuota(cap: nat, perSlotMax: nat, remaining: seq<nat>) returns (take: seq<nat>)
    ensures |take| == |remaining|
    ensures FairSplit(cap, Demands(remaining, perSlotMax), take)
  {
    ghost var d0 := Demands(remaining, perSlotMax);
    take := seq(|remaining|, i => 0);
    SumZeros(take);
    if |remaining| == 0 || cap == 0 || perSlotMax == 0 {
      if perSlotMax == 0 || |remaining| == 0 { SumZeros(d0); }
      assert NearLevel(d0, take, 0);
      return;
    }
    var d := Demands(remaining, perSlotMax);
    var left := cap;
    ghost var level := 0;
    while true
      invariant |take| == |d| && Sum(take) + left == cap
      invariant left > 0 ==> AtLevel(d, take, level)
      invariant NearLevel(d, take, level)
      decreases left
    {
      var hungry := Hungry(d, take);
      if hungry == [] || left == 0 {
        SplitEnds(cap, d, take, hungry, left, level);
        return;
      }
      take, left, level := Round(d, take, hungry, left, level);
    }
  }

  lemma SplitEnds(cap: nat, d: seq<nat>, take: seq<nat>, hungry: seq<nat>, left: nat, level: nat)
    requires NearLevel(d, take, level) && IsHungry(d, take, hungry) && Sum(take) + left == cap
    requires hungry == [] || left == 0
    ensures FairSplit(cap, d, take)
  {
    SumMonotone(take, d);
    if hungry == [] {
      forall i | 0 <= i < |d| ensures take[i] == d[i] { assert i !in hungry; }
      assert take == d;
    }
  }

  lemma EveryoneMet(cap: nat, d: seq<nat>, take: seq<nat>, i: nat)
    requires FairSplit(cap, d, take) && i < |d|
    ensures take[i] <= d[i] && (Sum(take) < cap ==> take[i] == d[i])
  {
    var r: nat :| NearLevel(d, take, r);
    if take[i] < d[i] { SumStrict(take, d, i); }
  }

  /** With room for every slot nobody that wants tokens is left out. */
  lemma EveryoneServed(cap: nat, d: seq<nat>, take: seq<nat>, i: nat)
    requires FairSplit(cap, d, take) && cap >= |d| && i < |d| && d[i] > 0
    ensures 0 < take[i] <= d[i]
  {
    var r: nat :| NearLevel(d, take, r);
    if take[i] == 0 {
      forall j | 0 <= j < |d| ensures take[j] <= 1 {}
      SumOfOnes(take, i);
      if Sum(d) <= cap {
        SumStrict(take, d, i);
      }
    }
  }

  lemma {:induction false} SumOfOnes(s: seq<nat>, i: nat)
    requires i < |s| && s[i] == 0 && forall j :: 0 <= j < |s| ==> s[j] <= 1
    ensures Sum(s) < |s|
  {
    var n := |s| - 1;
    if i < n {
      SumOfOnes(s[..n], i);
    } else {
      AtMostOnes(s[..n]);
    }
  }

  lemma {:induction false} AtMostOnes(s: seq<nat>)
    requires forall j :: 0 <= j < |s| ==> s[j] <= 1
    ensures Sum(s) <= |s|
  {
    if s != [] { AtMostOnes(s[..|s| - 1]); }
  }

  lemma {:induction false} SumStrict(s: seq<nat>, t: seq<nat>, i: nat)
    requires |s| == |t| && (forall j :: 0 <= j < |s| ==> s[j] <= t[j]) && i < |s| && s[i] < t[i]
    ensures Sum(s) < Sum(t)
  {
    var n := |s| - 1;
    if i < n { SumStrict(s[..n], t[..n], i); } else { SumMonotone(s[..n], t[..n]); }
  }
}
