/** A slot's chain of prefix snapshots, and the host-RAM cap shared by store and chains. */
module AnchorChains {
  import opened Common
  import opened SeqKvs
  import opened PrefixStores

  type Chain = seq<SeqCheckpoint>

  const CHAIN_MAX_ANCHORS: nat := 8
  const CHAIN_MAX_BYTES: nat := 2 * 1024 * 1024 * 1024

  /** Strictly ascending lengths, no empty dump. */
  predicate Ascending(c: Chain) {
    && (forall i, j :: 0 <= i < j < |c| ==> c[i].nTokens < c[j].nTokens)
    && (forall i :: 0 <= i < |c| ==> c[i].data.size > 0)
  }

  /** Newest anchor's length, 0 for an empty chain. */
  function LatestN(c: Chain): nat {
    if c == [] then 0 else c[|c| - 1].nTokens
  }

  /** On an ascending chain that is the maximum over all anchors. */
  lemma LatestIsMaximum(c: Chain)
    requires Ascending(c)
    ensures forall a :: a in c ==> a.nTokens <= LatestN(c)
    ensures c != [] ==> exists a :: a in c && a.nTokens == LatestN(c)
  {
    if c != [] { assert c[|c| - 1] in c; }
  }

  function DumpBytes(c: Chain): nat {
    if c == [] then 0 else c[0].data.size + DumpBytes(c[1..])
  }

  lemma {:induction false} BytesPositive(c: Chain)
    requires Ascending(c) && c != []
    ensures DumpBytes(c) > 0
  {
    assert c[0].data.size > 0;
  }

  /** Anchors that trimming never drops: the newest, and tool-head stubs. */
  predicate Protected(c: Chain, a: SeqCheckpoint) {
    a.nTokens == LatestN(c) || IsStoreStubLen(a.nTokens)
  }

  ghost predicate OnlyProtected(c: Chain) {
    forall a :: a in c ==> Protected(c, a)
  }

  /** `c'` drops unprotected anchors of `c` only, shortest first. */
  ghost predicate TrimOf(c: Chain, c': Chain) {
    && Ascending(c') && LatestN(c') == LatestN(c) && |c'| <= |c|
    && (forall a :: a in c' ==> a in c)
    && (forall a :: a in c && Protected(c, a) ==> a in c')
    && (forall d, k :: d in c && d !in c' && k in c' && !Protected(c, k) ==> d.nTokens < k.nTokens)
  }

  function Without(c: Chain, k: nat): Chain
    requires k < |c|
  {
    c[..k] + c[k + 1..]
  }

  lemma WithoutMembers(c: Chain, k: nat, a: SeqCheckpoint)
    requires Ascending(c) && k < |c|
    ensures a in Without(c, k) <==> a in c && a != c[k]
  {
    var c' := Without(c, k);
    if a in c && a != c[k] {
      var i :| 0 <= i < |c| && c[i] == a;
      assert a == if i < k then c'[i] else c'[i - 1];
    }
  }

  lemma WithoutAscends(c: Chain, k: nat)
    requires Ascending(c) && k < |c| && c[k].nTokens != LatestN(c)
    ensures Ascending(Without(c, k)) && LatestN(Without(c, k)) == LatestN(c)
  {
    var c' := Without(c, k);
    assert forall i :: 0 <= i < |c'| ==> c'[i] == if i < k then c[i] else c[i + 1];
  }

  lemma DropOne(c: Chain, k: nat)
    requires Ascending(c) && k < |c| && !Protected(c, c[k])
    requires forall i :: 0 <= i < k ==> Protected(c, c[i])
    ensures TrimOf(c, Without(c, k))
  {
    var c' := Without(c, k);
    WithoutAscends(c, k);
    forall a ensures a in c' <==> a in c && a != c[k] { WithoutMembers(c, k, a); }
    forall x | x in c && x != c[k] && !Protected(c, x) ensures c[k].nTokens < x.nTokens {
      var i :| 0 <= i < |c| && c[i] == x;
      assert k < i;
    }
  }

  lemma TrimTransitive(a: Chain, b: Chain, c: Chain)
    requires TrimOf(a, b) && TrimOf(b, c)
    ensures TrimOf(a, c)
  {
    forall d, k | d in a && d !in c && k in c && !Protected(a, k) ensures d.nTokens < k.nTokens {
      if d in b { assert !Protected(b, k); }
    }
  }

  lemma TrimKeepsOnlyProtected(a: Chain, b: Chain)
    requires TrimOf(a, b) && OnlyProtected(a)
    ensures OnlyProtected(b)
  {
  }

  /** `a` was dropped last: everything else that went is shorter. */
  ghost predicate DroppedLast(c0: Chain, c: Chain, a: SeqCheckpoint) {
    a in c0 && a !in c && forall d :: d in c0 && d !in c && d != a ==> d.nTokens < a.nTokens
  }

  /** Nothing was dropped without need: with the last one back, a bound would be exceeded. */
  ghost predicate NeededOff(c0: Chain, c: Chain, maxAnchors: nat, maxBytes: nat) {
    c == c0 || exists a :: DroppedLast(c0, c, a) && (|c| + 1 > maxAnchors || DumpBytes(c) + a.data.size > maxBytes)
  }

  lemma {:induction false} BytesWithout(c: Chain, k: nat)
    requires k < |c|
    ensures DumpBytes(Without(c, k)) + c[k].data.size == DumpBytes(c)
  {
    if k == 0 {
      assert Without(c, k) == c[1..];
    } else {
      BytesWithout(c[1..], k - 1);
      assert Without(c, k)[1..] == Without(c[1..], k - 1);
    }
  }

  /** The next one dropped is longer than all dropped before it. */
  lemma DropIsNeeded(c0: Chain, c: Chain, k: nat, maxAnchors: nat, maxBytes: nat)
    requires Ascending(c) && TrimOf(c0, c) && k < |c| && !Protected(c, c[k])
    requires |c| > maxAnchors || DumpBytes(c) > maxBytes
    ensures NeededOff(c0, Without(c, k), maxAnchors, maxBytes)
  {
    BytesWithout(c, k);
    forall a ensures a in Without(c, k) <==> a in c && a != c[k] { WithoutMembers(c, k, a); }
    hide DumpBytes, Ascending;
    assert DroppedLast(c0, Without(c, k), c[k]);
  }

  /** `trim_prefix_chain`: drop unprotected anchors until both bounds hold or none is left. */
  method TrimPrefixChain(c0: Chain, maxAnchors: nat, maxBytes: nat) returns (c: Chain)
    requires Ascending(c0)
    ensures TrimOf(c0, c) && Ascending(c)
    ensures (|c| <= maxAnchors && DumpBytes(c) <= maxBytes) || OnlyProtected(c)
    ensures |c| == |c0| ==> c == c0
    ensures NeededOff(c0, c, maxAnchors, maxBytes)
    ensures OnlyProtected(c0) || (|c0| <= maxAnchors && DumpBytes(c0) <= maxBytes) ==> c == c0
  {
    hide *;
    c := c0;
    NothingOff(c0, maxAnchors, maxBytes);
    while true
      invariant TrimOf(c0, c) && (|c| == |c0| ==> c == c0)
      invariant NeededOff(c0, c, maxAnchors, maxBytes)
      invariant OnlyProtected(c0) || (|c0| <= maxAnchors && DumpBytes(c0) <= maxBytes) ==> c == c0
      decreases |c|
    {
      TrimAscends(c0, c);
      if c == [] { return; }
      if |c| <= maxAnchors && DumpBytes(c) <= maxBytes { return; }
      var drop := 0;
      while drop < |c| && Protected(c, c[drop])
        invariant 0 <= drop <= |c|
        invariant forall i :: 0 <= i < drop ==> Protected(c, c[i])
      {
        drop := drop + 1;
      }
      DropOrKeep(c, drop);
      if drop == |c| { return; }
      DropOne(c, drop);
      DropIsNeeded(c0, c, drop, maxAnchors, maxBytes);
      TrimTransitive(c0, c, Without(c, drop));
      c := Without(c, drop);
    }
  }

  lemma NothingOff(c: Chain, maxAnchors: nat, maxBytes: nat)
    requires Ascending(c)
    ensures NeededOff(c, c, maxAnchors, maxBytes) && TrimOf(c, c)
    ensures c == [] ==> DumpBytes(c) == 0 && OnlyProtected(c)
  {
  }

  lemma TrimAscends(c0: Chain, c: Chain)
    requires TrimOf(c0, c)
    ensures Ascending(c) && (c == [] ==> OnlyProtected(c))
  {
  }

  lemma DropOrKeep(c: Chain, drop: nat)
    requires drop <= |c| && forall i :: 0 <= i < drop ==> Protected(c, c[i])
    ensures drop == |c| ==> OnlyProtected(c)
    ensures drop < |c| && !Protected(c, c[drop]) ==> |Without(c, drop)| == |c| - 1 && !OnlyProtected(c)
  {
    assert drop < |c| ==> c[drop] in c;
  }

  /** `prune_chain_beyond_reuse`: keep what a prompt reused up to `reuseLen` could restore. */
  method Prune(c0: Chain, reuseLen: nat) returns (c: Chain)
    requires Ascending(c0)
    ensures Ascending(c) && |c| <= |c0| && c == c0[..|c|]
    ensures forall a :: a in c <==> a in c0 && a.nTokens <= reuseLen + 1
  {
    var n := 0;
    while n < |c0| && c0[n].nTokens <= reuseLen + 1
      invariant 0 <= n <= |c0|
      invariant forall i :: 0 <= i < n ==> c0[i].nTokens <= reuseLen + 1
    {
      n := n + 1;
    }
    c := c0[..n];
  }

  /** The anchors of `c0` with `a`, which replaces one of its length. */
  ghost predicate HasInserted(c0: Chain, a: SeqCheckpoint, c: Chain) {
    forall x :: x in c <==> x == a || (x in c0 && x.nTokens != a.nTokens)
  }

  lemma {:induction false} BytesConcat(a: Chain, b: Chain)
    ensures DumpBytes(a + b) == DumpBytes(a) + DumpBytes(b)
  {
    if a == [] {
      assert a + b == b;
    } else {
      BytesConcat(a[1..], b);
      assert (a + b)[1..] == a[1..] + b;
    }
  }

  lemma PlacedBytes(c: Chain, i: nat, a: SeqCheckpoint, rest: Chain)
    requires Splits(c, i, a.nTokens, rest)
    ensures DumpBytes(c[..i] + [a] + rest) <= DumpBytes(c) + a.data.size
  {
    hide Ascending;
    var dropped := c[i..][..|c| - i - |rest|];
    assert dropped + rest == c[i..] && c[..i] + c[i..] == c;
    BytesConcat(dropped, rest);
    BytesConcat(c[..i], c[i..]);
    BytesConcat(c[..i], [a]);
    BytesConcat(c[..i] + [a], rest);
    assert DumpBytes([a]) == a.data.size;
  }

  /** `push_prefix_ckpt`: same length replaces, others are inserted in order; then the bounds. */
  method Push(c0: Chain, n: nat, data: Dump) returns (c: Chain)
    requires Ascending(c0) && data.size > 0
    ensures Ascending(c) && LatestN(c) == Max(LatestN(c0), n)
    ensures forall a :: a in c ==> a == SeqCheckpoint(n, data) || (a in c0 && a.nTokens != n)
    ensures n == LatestN(c) || IsStoreStubLen(n) ==> SeqCheckpoint(n, data) in c
    ensures forall a :: a in c0 && IsStoreStubLen(a.nTokens) && a.nTokens != n ==> a in c
    ensures (|c| <= CHAIN_MAX_ANCHORS && DumpBytes(c) <= CHAIN_MAX_BYTES) || OnlyProtected(c)
    ensures exists full :: Ascending(full) && HasInserted(c0, SeqCheckpoint(n, data), full) && NeededOff(full, c, CHAIN_MAX_ANCHORS, CHAIN_MAX_BYTES)
    ensures |c0| < CHAIN_MAX_ANCHORS && DumpBytes(c0) + data.size <= CHAIN_MAX_BYTES ==> HasInserted(c0, SeqCheckpoint(n, data), c)
  {
    hide DumpBytes, NeededOff;
    c := Insert(c0, SeqCheckpoint(n, data));
    ghost var full := c;
    c := TrimPrefixChain(c, CHAIN_MAX_ANCHORS, CHAIN_MAX_BYTES);
    assert HasInserted(c0, SeqCheckpoint(n, data), full);
  }

  /** The chain with an anchor at its place; one of the same length gives way. */
  method Insert(c0: Chain, a: SeqCheckpoint) returns (c: Chain)
    requires Ascending(c0) && a.data.size > 0
    ensures Ascending(c) && LatestN(c) == Max(LatestN(c0), a.nTokens)
    ensures HasInserted(c0, a, c) && |c| <= |c0| + 1 && DumpBytes(c) <= DumpBytes(c0) + a.data.size
  {
    var i := 0;
    while i < |c0| && c0[i].nTokens < a.nTokens
      invariant 0 <= i <= |c0|
      invariant forall j :: 0 <= j < i ==> c0[j].nTokens < a.nTokens
    {
      i := i + 1;
    }
    var rest := if i < |c0| && c0[i].nTokens == a.nTokens then c0[i + 1..] else c0[i..];
    PlacedAscends(c0, i, a, rest);
    PlacedMembers(c0, i, a, rest);
    PlacedBytes(c0, i, a, rest);
    c := c0[..i] + [a] + rest;
  }

  /** `rest` is what follows position `i` once an anchor of length `n` has been dropped there. */
  ghost predicate Splits(c: Chain, i: nat, n: nat, rest: Chain) {
    && Ascending(c) && i <= |c|
    && (forall j :: 0 <= j < i ==> c[j].nTokens < n)
    && (i < |c| ==> c[i].nTokens >= n)
    && rest == if i < |c| && c[i].nTokens == n then c[i + 1..] else c[i..]
  }

  lemma PlacedAscends(c: Chain, i: nat, a: SeqCheckpoint, rest: Chain)
    requires Splits(c, i, a.nTokens, rest) && a.data.size > 0
    ensures Ascending(c[..i] + [a] + rest)
    ensures LatestN(c[..i] + [a] + rest) == Max(LatestN(c), a.nTokens)
  {
    RestAscends(c, i, a.nTokens, rest);
    JoinAscends(c[..i], a, rest);
    assert rest != [] ==> rest[|rest| - 1] == c[|c| - 1];
    hide Ascending;
  }

  lemma JoinAscends(front: Chain, a: SeqCheckpoint, rest: Chain)
    requires Ascending(front) && Ascending(rest) && a.data.size > 0
    requires forall j :: 0 <= j < |front| ==> front[j].nTokens < a.nTokens
    requires forall j :: 0 <= j < |rest| ==> rest[j].nTokens > a.nTokens
    ensures Ascending(front + [a] + rest)
  {
    ConcatAscends(front, [a]);
    ConcatAscends(front + [a], rest);
  }

  lemma RestAscends(c: Chain, i: nat, n: nat, rest: Chain)
    requires Splits(c, i, n, rest)
    ensures Ascending(rest) && Ascending(c[..i]) && forall j :: 0 <= j < |rest| ==> rest[j].nTokens > n
    ensures rest == [] && c != [] ==> LatestN(c) <= n
  {
    var m := if i < |c| && c[i].nTokens == n then i + 1 else i;
    SuffixAscends(c, m, n);
    HeadAscends(c, i);
  }

  lemma SuffixAscends(c: Chain, m: nat, n: nat)
    requires Ascending(c) && m <= |c| && (m < |c| ==> c[m].nTokens > n)
    ensures Ascending(c[m..]) && forall j :: 0 <= j < |c[m..]| ==> c[m..][j].nTokens > n
  {
    var r := c[m..];
    assert forall j :: 0 <= j < |r| ==> r[j] == c[m + j];
    forall j | 0 <= j < |r| ensures r[j].nTokens > n { assert m < m + j || j == 0; }
  }

  lemma HeadAscends(c: Chain, m: nat)
    requires Ascending(c) && m <= |c|
    ensures Ascending(c[..m])
  {
  }

  lemma ConcatAscends(a: Chain, b: Chain)
    requires Ascending(a) && Ascending(b) && forall i, j :: 0 <= i < |a| && 0 <= j < |b| ==> a[i].nTokens < b[j].nTokens
    ensures Ascending(a + b)
  {
  }

  lemma PlacedMembers(c: Chain, i: nat, a: SeqCheckpoint, rest: Chain)
    requires Splits(c, i, a.nTokens, rest)
    ensures forall x :: x in c[..i] + [a] + rest <==> x == a || (x in c && x.nTokens != a.nTokens)
  {
    forall x ensures x in c && x.nTokens != a.nTokens <==> x in c[..i] || x in rest {
      Around(c, i, rest, a.nTokens, x);
    }
  }

  /** Dropping the anchor of length `n` from an ascending chain leaves what is on either side. */
  lemma Around(c: Chain, i: nat, rest: Chain, n: nat, x: SeqCheckpoint)
    requires Splits(c, i, n, rest)
    ensures x in c && x.nTokens != n <==> x in c[..i] || x in rest
  {
    if x in c && x.nTokens != n {
      var k :| 0 <= k < |c| && c[k] == x;
      if k < i {
        assert c[..i][k] == x;
      } else {
        assert rest[k - (|c| - |rest|)] == x;
      }
    }
  }

  // ---------------------------------------------------------------- one stub a chain

  /** `retain`: of the tool-head stubs, only the one of length `n` stays. */
  function WithStub(c: Chain, n: nat): Chain {
    if c == [] then []
    else
      var k := |c| - 1;
      WithStub(c[..k], n) + if IsStoreStubLen(c[k].nTokens) && c[k].nTokens != n then [] else [c[k]]
  }

  lemma SnocAscends(c: Chain, a: SeqCheckpoint)
    requires Ascending(c) && a.data.size > 0 && (c != [] ==> LatestN(c) < a.nTokens)
    ensures Ascending(c + [a]) && LatestN(c + [a]) == a.nTokens
  {
  }

  lemma FrontAscends(c: Chain)
    requires Ascending(c) && c != []
    ensures Ascending(c[..|c| - 1]) && c[|c| - 1].data.size > 0
    ensures |c| > 1 ==> LatestN(c[..|c| - 1]) < c[|c| - 1].nTokens
  {
  }

  lemma {:induction false} WithStubAscends(c: Chain, n: nat)
    requires Ascending(c)
    ensures Ascending(WithStub(c, n)) && (WithStub(c, n) != [] ==> c != [] && LatestN(WithStub(c, n)) <= LatestN(c))
  {
    if c != [] {
      var k := |c| - 1;
      FrontAscends(c);
      WithStubAscends(c[..k], n);
      hide Ascending;
      SnocAscends(WithStub(c[..k], n), c[k]);
    }
  }

  lemma {:induction false} WithStubMembers(c: Chain, n: nat, a: SeqCheckpoint)
    ensures a in WithStub(c, n) <==> a in c && (IsStoreStubLen(a.nTokens) ==> a.nTokens == n)
  {
    if c != [] {
      var k := |c| - 1;
      WithStubMembers(c[..k], n, a);
      assert c == c[..k] + [c[k]];
    }
  }
}
