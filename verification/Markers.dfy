/** Searching streamed text for markers that a piece may cut anywhere. */
module Markers {
  import opened Common

  /** `m` stands in `text` at `i`. */
  predicate At(text: string, m: string, i: nat) {
    i + |m| <= |text| && text[i..i + |m|] == m
  }

  predicate AnyAt(text: string, ms: seq<string>, i: nat) {
    exists k :: 0 <= k < |ms| && At(text, ms[k], i)
  }

  /** Least position of any marker, from `i` on. */
  function FirstFrom(text: string, ms: seq<string>, i: nat): (r: Option<nat>)
    ensures r.None? ==> forall j: nat :: i <= j <= |text| ==> !AnyAt(text, ms, j)
    ensures r.Some? ==> i <= r.value <= |text| && AnyAt(text, ms, r.value)
    ensures r.Some? ==> forall j: nat :: i <= j < r.value ==> !AnyAt(text, ms, j)
    decreases |text| - i
  {
    if i > |text| then None
    else if AnyAt(text, ms, i) then Some(i)
    else FirstFrom(text, ms, i + 1)
  }

  function First(text: string, ms: seq<string>): Option<nat> { FirstFrom(text, ms, 0) }

  /** `text` ends with the first `n` characters of a marker, and not with all of it. */
  predicate EndsIn(text: string, ms: seq<string>, n: nat) {
    n <= |text| && exists k :: 0 <= k < |ms| && n < |ms[k]| && text[|text| - n..] == ms[k][..n]
  }

  ghost predicate IsKeep(text: string, ms: seq<string>, keep: nat) {
    && keep <= |text|
    && (keep > 0 ==> EndsIn(text, ms, keep))
    && forall n: nat :: keep < n <= |text| ==> !EndsIn(text, ms, n)
  }

  /** No marker can begin inside another one. */
  ghost predicate Separated(ms: seq<string>) {
    && (forall a :: 0 <= a < |ms| ==> |ms[a]| > 0)
    && forall a, b, k :: 0 <= a < |ms| && 0 <= b < |ms| && 0 < k < |ms[a]| ==> ms[a][k] != ms[b][0]
  }

  function Nonempty(s: string): Option<string> { if s == "" then None else Some(s) }

  function Text(o: Option<string>): string { if o.Some? then o.value else "" }

  // ---------------------------------------------------------------- searches

  /** First occurrence of one marker. */
  method Find(text: string, m: string) returns (r: Option<nat>)
    ensures r == First(text, [m])
  {
    var i := 0;
    while i <= |text|
      invariant 0 <= i <= |text| + 1
      invariant FirstFrom(text, [m], i) == First(text, [m])
    {
      assert AnyAt(text, [m], i) <==> At(text, [m][0], i);
      if At(text, m, i) { return Some(i); }
      i := i + 1;
    }
    r := None;
  }

  /** Longest proper head of one marker that the text ends with. */
  method SuffixThatIsTagPrefix(text: string, tag: string) returns (n: nat)
    ensures IsKeep(text, [tag], n)
  {
    n := Min(|text|, Max(0, |tag| - 1));
    while n > 0
      invariant n <= |text|
      invariant forall k: nat :: n < k <= |text| ==> !EndsIn(text, [tag], k)
    {
      if text[|text| - n..] == tag[..n] {
        assert [tag][0] == tag;
        return;
      }
      n := n - 1;
    }
  }

  lemma AnyOfOne(text: string, m: string, i: nat)
    ensures AnyAt(text, [m], i) <==> At(text, m, i)
  {
    hide At;
    assert [m][0] == m;
  }

  lemma IsFirst(text: string, ms: seq<string>, i: nat)
    requires i <= |text| && AnyAt(text, ms, i) && forall j: nat :: j < i ==> !AnyAt(text, ms, j)
    ensures First(text, ms) == Some(i)
  {
  }

  // ---------------------------------------------------------------- what more text can change

  lemma AtPoints(text: string, m: string, i: nat)
    requires At(text, m, i)
    ensures forall k :: 0 <= k < |m| ==> text[i + k] == m[k]
  {
    forall k | 0 <= k < |m| ensures text[i + k] == m[k] {
      assert text[i..i + |m|][k] == text[i + k];
    }
  }

  lemma NoOverlap(text: string, ms: seq<string>, a: nat, i: nat, b: nat, j: nat)
    requires Separated(ms) && a < |ms| && b < |ms| && At(text, ms[a], i) && At(text, ms[b], j)
    ensures j <= i || i + |ms[a]| <= j
  {
    AtPoints(text, ms[a], i);
    AtPoints(text, ms[b], j);
    assert text[j] == ms[b][0];
    assert i <= j < i + |ms[a]| ==> text[i + (j - i)] == ms[a][j - i];
  }

  /** A marker in a longer text was already there, or the shorter text ends with its head. */
  lemma AtCases(h: string, x: string, m: string, j: nat)
    requires At(h + x, m, j) && j < |h|
    ensures At(h, m, j) || (|h| - j < |m| && h[j..] == m[..|h| - j])
  {
    AtPoints(h + x, m, j);
    assert j + |m| <= |h| ==> h[j..j + |m|] == m;
    assert |h| - j < |m| ==> h[j..] == m[..|h| - j];
  }

  /** A marker that has been seen stays the first one, whatever follows. */
  lemma FirstStays(h: string, x: string, ms: seq<string>)
    requires Separated(ms) && First(h, ms).Some?
    ensures First(h + x, ms) == First(h, ms)
  {
    var i := First(h, ms).value;
    var b :| 0 <= b < |ms| && At(h, ms[b], i);
    AtGrows(h, x, ms[b], i);
    forall j: nat | j < i ensures !AnyAt(h + x, ms, j) {
      assert !AnyAt(h, ms, j);
      forall a | 0 <= a < |ms| ensures !At(h + x, ms[a], j) {
        if At(h + x, ms[a], j) {
          AtCases(h, x, ms[a], j);
          NoOverlap(h + x, ms, a, j, b, i);
        }
      }
    }
    IsFirst(h + x, ms, i);
  }

  lemma AtGrows(h: string, x: string, m: string, i: nat)
    requires At(h, m, i)
    ensures At(h + x, m, i)
  {
    assert (h + x)[i..i + |m|] == h[i..i + |m|];
  }

  /** Without a marker so far, no marker of the longer text starts before the kept suffix. */
  lemma NoneBefore(h: string, x: string, ms: seq<string>, keep: nat, j: nat)
    requires First(h, ms).None? && IsKeep(h, ms, keep) && j < |h| - keep
    ensures !AnyAt(h + x, ms, j)
  {
    var n := |h| - j;
    assert !EndsIn(h, ms, n) && !AnyAt(h, ms, j);
    forall a | 0 <= a < |ms| ensures !At(h + x, ms[a], j) {
      if At(h + x, ms[a], j) {
        AtCases(h, x, ms[a], j);
      }
    }
  }

  lemma AtShifts(e: string, y: string, m: string, j: nat)
    ensures At(e + y, m, |e| + j) <==> At(y, m, j)
  {
    if j + |m| <= |y| { assert (e + y)[|e| + j..|e| + j + |m|] == y[j..j + |m|]; }
  }

  lemma AnyAtShifts(e: string, y: string, ms: seq<string>, j: nat)
    ensures AnyAt(e + y, ms, |e| + j) <==> AnyAt(y, ms, j)
  {
    forall k | 0 <= k < |ms| ensures At(e + y, ms[k], |e| + j) <==> At(y, ms[k], j) {
      AtShifts(e, y, ms[k], j);
    }
  }

  function Shift(r: Option<nat>, d: nat): Option<nat> {
    if r.Some? then Some(r.value + d) else None
  }

  lemma FirstShifts(e: string, y: string, ms: seq<string>)
    requires forall j: nat :: j < |e| ==> !AnyAt(e + y, ms, j)
    ensures First(e + y, ms) == Shift(First(y, ms), |e|)
  {
    forall j: nat | |e| <= j <= |e + y| ensures AnyAt(e + y, ms, j) <==> AnyAt(y, ms, j - |e|) {
      AnyAtShifts(e, y, ms, j - |e|);
    }
    if First(y, ms).Some? {
      IsFirst(e + y, ms, First(y, ms).value + |e|);
    } else {
      forall j: nat | j <= |e + y| ensures !AnyAt(e + y, ms, j) {
        if j >= |e| { assert !AnyAt(y, ms, j - |e|); }
      }
    }
  }

  /** What was emitted can be forgotten: the search goes on in the kept suffix. */
  lemma FirstInKept(h: string, x: string, ms: seq<string>, keep: nat)
    requires First(h, ms).None? && IsKeep(h, ms, keep)
    ensures First(h + x, ms) == Shift(First(h[|h| - keep..] + x, ms), |h| - keep)
  {
    var cut := |h| - keep;
    assert h + x == h[..cut] + (h[cut..] + x);
    forall j: nat | j < cut ensures !AnyAt(h + x, ms, j) { NoneBefore(h, x, ms, keep, j); }
    FirstShifts(h[..cut], h[cut..] + x, ms);
  }

  /** The kept suffix is the same whether the text is scanned whole or from its own suffix. */
  lemma KeepOfKept(h: string, x: string, ms: seq<string>, keep: nat, n: nat)
    requires IsKeep(h, ms, keep) && IsKeep(h[|h| - keep..] + x, ms, n)
    ensures IsKeep(h + x, ms, n)
  {
    var cut := |h| - keep;
    var y := h[cut..] + x;
    assert h + x == h[..cut] + y;
    forall k: nat | n < k <= |h + x| ensures !EndsIn(h + x, ms, k) {
      if k <= |y| {
        assert (h + x)[|h + x| - k..] == y[|y| - k..];
        assert !EndsIn(y, ms, k);
      } else {
        assert !EndsIn(h, ms, k - |x|);
        if EndsIn(h + x, ms, k) { LongEnd(h, x, ms, k); }
      }
    }
    if n > 0 { assert (h + x)[|h + x| - n..] == y[|y| - n..]; }
  }

  lemma LongEnd(h: string, x: string, ms: seq<string>, k: nat)
    requires |x| < k && EndsIn(h + x, ms, k)
    ensures EndsIn(h, ms, k - |x|)
  {
    var a :| 0 <= a < |ms| && k < |ms[a]| && (h + x)[|h + x| - k..] == ms[a][..k];
    var d := k - |x|;
    assert h[|h| - d..] == (h + x)[|h + x| - k..][..d] == ms[a][..d];
  }

  lemma KeepIsUnique(h: string, ms: seq<string>, a: nat, b: nat)
    requires IsKeep(h, ms, a) && IsKeep(h, ms, b)
    ensures a == b
  {
  }

  // ---------------------------------------------------------------- several markers, one at a time

  function Earlier(a: Option<nat>, b: Option<nat>): Option<nat> {
    if a.None? then b else if b.None? || a.value <= b.value then a else b
  }

  lemma AnyAtUnion(text: string, ms: seq<string>, m: string, i: nat)
    ensures AnyAt(text, ms + [m], i) <==> AnyAt(text, ms, i) || At(text, m, i)
    ensures AnyAt(text, [m], i) <==> At(text, m, i)
  {
    assert (ms + [m])[|ms|] == m && [m][0] == m;
    forall k | 0 <= k < |ms| ensures (ms + [m])[k] == ms[k] {}
    if AnyAt(text, ms, i) {
      var k :| 0 <= k < |ms| && At(text, ms[k], i);
      assert At(text, (ms + [m])[k], i);
    }
  }

  lemma FirstUnion(text: string, ms: seq<string>, m: string)
    ensures First(text, ms + [m]) == Earlier(First(text, ms), First(text, [m]))
  {
    forall j: nat ensures AnyAt(text, ms + [m], j) <==> AnyAt(text, ms, j) || AnyAt(text, [m], j) {
      AnyAtUnion(text, ms, m, j);
    }
    var r := Earlier(First(text, ms), First(text, [m]));
    if r.Some? {
      IsFirst(text, ms + [m], r.value);
    }
  }

  lemma KeepUnion(text: string, ms: seq<string>, m: string, a: nat, b: nat)
    requires IsKeep(text, ms, a) && IsKeep(text, [m], b)
    ensures IsKeep(text, ms + [m], Max(a, b))
  {
    forall n: nat ensures EndsIn(text, ms + [m], n) <==> EndsIn(text, ms, n) || EndsIn(text, [m], n) {
      EndsInUnion(text, ms, m, n);
    }
  }

  lemma EndsInUnion(text: string, ms: seq<string>, m: string, n: nat)
    ensures EndsIn(text, ms + [m], n) <==> EndsIn(text, ms, n) || EndsIn(text, [m], n)
  {
    assert (ms + [m])[|ms|] == m && [m][0] == m;
    forall k | 0 <= k < |ms| ensures (ms + [m])[k] == ms[k] {}
    if EndsIn(text, ms, n) {
      var k :| 0 <= k < |ms| && n < |ms[k]| && text[|text| - n..] == ms[k][..n];
      assert n < |(ms + [m])[k]|;
    }
    if EndsIn(text, [m], n) {
      assert n < |(ms + [m])[|ms|]|;
    }
  }
}
