/** Types and small sequence facts shared by every module. */
module Common {

  datatype Option<+T> = None | Some(value: T)

  /** A vocabulary id, an `i32` in the source. */
  type Token = t: int | -0x8000_0000 <= t < 0x8000_0000

  type Byte = b: int | 0 <= b < 256

  type Bytes = seq<Byte>

  function Min(a: int, b: int): int { if a < b then a else b }

  function Max(a: int, b: int): int { if a < b then b else a }

  /** One of the two is a head of the other. */
  predicate Agree<T(==)>(a: seq<T>, b: seq<T>) { a <= b || b <= a }

  /** `n` is the length of the longest common head of `a` and `b`. */
  ghost predicate IsCommonPrefixLen<T>(a: seq<T>, b: seq<T>, n: nat) {
    && n <= |a| && n <= |b|
    && a[..n] == b[..n]
    && (n < |a| && n < |b| ==> a[n] != b[n])
  }

  /** Longest common head, counted element by element. */
  method CommonPrefixLen(a: seq<Token>, b: seq<Token>) returns (i: nat)
    ensures IsCommonPrefixLen(a, b, i)
  {
    var n := Min(|a|, |b|);
    i := 0;
    while i < n && a[i] == b[i]
      invariant 0 <= i <= n
      invariant a[..i] == b[..i]
    {
      i := i + 1;
    }
  }

  /** The common head has one length, and no longer head is common. */
  lemma CommonPrefixLenIsMaximal<T>(a: seq<T>, b: seq<T>, n: nat, m: nat)
    requires IsCommonPrefixLen(a, b, n)
    requires m <= |a| && m <= |b| && a[..m] == b[..m]
    ensures m <= n
  {
    forall i | 0 <= i < m ensures a[i] == b[i] {
      assert a[..m][i] == b[..m][i];
    }
  }

  /** Length of the longest common head. */
  function Lcp(a: seq<Token>, b: seq<Token>): (n: nat)
    ensures n <= |a| && n <= |b|
  {
    if a != [] && b != [] && a[0] == b[0] then 1 + Lcp(a[1..], b[1..]) else 0
  }

  lemma {:induction false} LcpIs(a: seq<Token>, b: seq<Token>, n: nat)
    requires IsCommonPrefixLen(a, b, n)
    ensures Lcp(a, b) == n
  {
    assert n > 0 ==> a[..n][0] == a[0] && b[..n][0] == b[0];
    if n > 0 {
      assert a[1..][..n - 1] == a[..n][1..] && b[1..][..n - 1] == b[..n][1..];
      LcpIs(a[1..], b[1..], n - 1);
    }
  }

  /** The longest common head always has that length. */
  lemma {:induction false} LcpIsCommon(a: seq<Token>, b: seq<Token>)
    ensures IsCommonPrefixLen(a, b, Lcp(a, b))
  {
    if a != [] && b != [] && a[0] == b[0] {
      var n := Lcp(a[1..], b[1..]);
      LcpIsCommon(a[1..], b[1..]);
      assert a[..n + 1] == [a[0]] + a[1..][..n] && b[..n + 1] == [b[0]] + b[1..][..n];
    }
  }

  // ---------------------------------------------------------------- pieces of a stream

  function Concat<T>(pieces: seq<seq<T>>): seq<T> {
    if pieces == [] then [] else Concat(pieces[..|pieces| - 1]) + pieces[|pieces| - 1]
  }

  lemma NoPieces<T>(pieces: seq<seq<T>>)
    ensures Concat(pieces[..0]) == []
  {
  }

  lemma ConcatNext<T>(pieces: seq<seq<T>>, k: nat)
    requires k < |pieces|
    ensures Concat(pieces[..k + 1]) == Concat(pieces[..k]) + pieces[k]
  {
    assert pieces[..k + 1][..k] == pieces[..k];
  }

  // ---------------------------------------------------------------- sums over a map

  /** Sum of the values of a map, whatever order they are taken in (see `SumWithout`). */
  ghost function SumOf<K(!new)>(m: map<K, nat>): nat
  {
    if m == map[] then 0
    else
      var k :| k in m;
      m[k] + SumOf(m - {k})
  }

  lemma {:induction false} SumWithout<K(!new)>(m: map<K, nat>, k: K)
    requires k in m
    ensures SumOf(m) == m[k] + SumOf(m - {k})
    decreases |m|
  {
    var p :| p in m && SumOf(m) == m[p] + SumOf(m - {p});
    if p != k {
      SumWithout(m - {p}, k);
      SumWithout(m - {k}, p);
      assert m - {p} - {k} == m - {k} - {p};
    }
  }

  lemma SumWith<K(!new)>(m: map<K, nat>, k: K, v: nat)
    ensures SumOf(m[k := v]) == v + SumOf(m - {k})
  {
    SumWithout(m[k := v], k);
    assert m[k := v] - {k} == m - {k};
  }
}
