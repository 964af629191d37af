/** Handing the sampled rows of one batch back to the slots that planned them. */
module Sampling {
  import opened Common
  import opened BatchPlanner

  /** The samples of one slot, in row order; rows without a sample are skipped. */
  function RowsFor(ids: seq<nat>, samples: seq<Token>, id: nat): seq<Token> {
    if ids == [] then []
    else
      var n := |ids| - 1;
      RowsFor(ids[..n], samples, id) + if ids[n] == id && n < |samples| then [samples[n]] else []
  }

  /** The samples handed to one slot. */
  function GivenTo(groups: seq<(nat, seq<Token>)>, id: nat): seq<Token> {
    if groups == [] then []
    else
      var n := |groups| - 1;
      GivenTo(groups[..n], id) + if groups[n].0 == id then groups[n].1 else []
  }

  lemma {:induction false} RunRows(ids: seq<nat>, samples: seq<Token>, i: nat, j: nat, id: nat)
    requires i <= j <= |ids| && forall k :: i <= k < j ==> ids[k] == ids[i]
    ensures RowsFor(ids[..j], samples, id) ==
      RowsFor(ids[..i], samples, id) + if i < j && ids[i] == id then samples[Min(i, |samples|)..Min(j, |samples|)] else []
    decreases j - i
  {
    if i < j {
      RunRows(ids, samples, i, j - 1, id);
      assert ids[..j][..j - 1] == ids[..j - 1];
      if ids[i] == id && j <= |samples| {
        assert samples[i..j] == samples[i..j - 1] + [samples[j - 1]];
      }
    }
  }

  lemma GivenSnoc(groups: seq<(nat, seq<Token>)>, g: (nat, seq<Token>), id: nat)
    ensures GivenTo(groups + [g], id) == GivenTo(groups, id) + if g.0 == id then g.1 else []
  {
    assert (groups + [g])[..|groups|] == groups;
  }

  /** The groups cover the first `i` rows, each slot's in order. */
  ghost predicate Covered(ids: seq<nat>, samples: seq<Token>, groups: seq<(nat, seq<Token>)>, i: nat)
    requires i <= |ids|
  {
    forall id: nat :: GivenTo(groups, id) == RowsFor(ids[..i], samples, id)
  }

  lemma CoveredNext(ids: seq<nat>, samples: seq<Token>, groups: seq<(nat, seq<Token>)>, i: nat, j: nat, groups': seq<(nat, seq<Token>)>)
    requires i < j <= |ids| && Covered(ids, samples, groups, i) && forall k :: i <= k < j ==> ids[k] == ids[i]
    requires var toks := samples[Min(i, |samples|)..Min(j, |samples|)];
      groups' == if toks == [] then groups else groups + [(ids[i], toks)]
    ensures Covered(ids, samples, groups', j)
  {
    var toks := samples[Min(i, |samples|)..Min(j, |samples|)];
    forall id: nat ensures GivenTo(groups', id) == RowsFor(ids[..j], samples, id) {
      RunRows(ids, samples, i, j, id);
      GivenSnoc(groups, (ids[i], toks), id);
    }
  }

  predicate SeenBefore(ids: seq<nat>, i: nat, id: nat)
    requires i <= |ids|
  {
    exists k :: 0 <= k < i && ids[k] == id
  }

  /** Every group comes from rows before `i`, and no slot has two. */
  ghost predicate OneEach(ids: seq<nat>, groups: seq<(nat, seq<Token>)>, i: nat)
    requires i <= |ids|
  {
    && (forall g :: 0 <= g < |groups| ==> SeenBefore(ids, i, groups[g].0))
    && forall g, h :: 0 <= g < h < |groups| ==> groups[g].0 != groups[h].0
  }

  lemma OneEachNext(ids: seq<nat>, groups: seq<(nat, seq<Token>)>, i: nat, j: nat, toks: seq<Token>)
    requires i < j <= |ids| && Runs(ids) && OneEach(ids, groups, i) && (i > 0 ==> ids[i - 1] != ids[i])
    ensures OneEach(ids, if toks == [] then groups else groups + [(ids[i], toks)], j)
  {
    NewRun(ids, i);
    SeenLater(ids, i, j);
    hide SeenBefore, Runs;
  }

  lemma SeenLater(ids: seq<nat>, i: nat, j: nat)
    requires i < j <= |ids|
    ensures SeenBefore(ids, j, ids[i]) && forall id: nat :: SeenBefore(ids, i, id) ==> SeenBefore(ids, j, id)
  {
  }

  /** A slot whose run starts here was not seen before. */
  lemma NewRun(ids: seq<nat>, i: nat)
    requires i < |ids| && Runs(ids) && (i > 0 ==> ids[i - 1] != ids[i])
    ensures !SeenBefore(ids, i, ids[i])
  {
    forall k | 0 <= k < i ensures ids[k] != ids[i] { BehindItsRun(ids, k, i); }
  }

  lemma BehindItsRun(ids: seq<nat>, k: nat, i: nat)
    requires Runs(ids) && k < i < |ids| && ids[i - 1] != ids[i]
    ensures ids[k] != ids[i]
  {
  }

  /** `sample_and_emit`: runs of equal slots, each handed over with its samples. A planned batch
    * gives every slot all of its rows in one piece. */
  method GroupSamples(ids: seq<nat>, samples: seq<Token>) returns (groups: seq<(nat, seq<Token>)>)
    ensures forall id: nat :: GivenTo(groups, id) == RowsFor(ids, samples, id)
    ensures Runs(ids) ==> forall g, h :: 0 <= g < h < |groups| ==> groups[g].0 != groups[h].0
    ensures forall g :: 0 <= g < |groups| ==> groups[g].1 != []
  {
    hide Runs, OneEach, Covered;
    groups := [];
    var i := 0;
    NothingCovered(ids, samples);
    while i < |ids|
      invariant 0 <= i <= |ids| && Covered(ids, samples, groups, i)
      invariant 0 < i < |ids| ==> ids[i - 1] != ids[i]
      invariant Runs(ids) ==> OneEach(ids, groups, i)
      invariant forall g :: 0 <= g < |groups| ==> groups[g].1 != []
    {
      var id := ids[i];
      var j := i + 1;
      while j < |ids| && ids[j] == id
        invariant i < j <= |ids| && forall k :: i <= k < j ==> ids[k] == ids[i]
      {
        j := j + 1;
      }
      var toks := samples[Min(i, |samples|)..Min(j, |samples|)];
      CoveredNext(ids, samples, groups, i, j, if toks == [] then groups else groups + [(id, toks)]);
      if Runs(ids) { OneEachNext(ids, groups, i, j, toks); }
      i := j;
      if toks == [] { continue; }
      groups := groups + [(id, toks)];
    }
    AllCovered(ids, samples, groups);
  }

  lemma NothingCovered(ids: seq<nat>, samples: seq<Token>)
    ensures Covered(ids, samples, [], 0) && OneEach(ids, [], 0)
  {
  }

  lemma AllCovered(ids: seq<nat>, samples: seq<Token>, groups: seq<(nat, seq<Token>)>)
    requires Covered(ids, samples, groups, |ids|)
    ensures forall id: nat :: GivenTo(groups, id) == RowsFor(ids, samples, id)
    ensures OneEach(ids, groups, |ids|) ==> forall g, h :: 0 <= g < h < |groups| ==> groups[g].0 != groups[h].0
  {
    assert ids[..|ids|] == ids;
  }

  /** With a sample for every row, a slot is handed one for each of its own rows in the batch. */
  lemma {:induction false} RowsPerSlot(tokens: seq<BatchToken>, samples: seq<Token>, id: nat)
    requires |samples| >= |LogitIds(tokens)|
    ensures |RowsFor(LogitIds(tokens), samples, id)| == |LogitIds(Of(tokens, id))|
  {
    if tokens != [] {
      var n := |tokens| - 1;
      RowsPerSlot(tokens[..n], samples, id);
      var ids := LogitIds(tokens);
      if tokens[n].logits { assert ids[..|ids| - 1] == LogitIds(tokens[..n]); } else { assert ids == LogitIds(tokens[..n]); }
      if tokens[n].seqId == id {
        LogitSnoc(Of(tokens[..n], id), tokens[n]);
      } else {
        assert Of(tokens, id) == Of(tokens[..n], id);
      }
    }
  }
}
