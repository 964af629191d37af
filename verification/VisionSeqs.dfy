/** Prompts with images flattened to cells: an image spans cells and, separately, positions. */
module VisionSeqs {
  import opened Common

  datatype ImageSpan = ImageSpan(start: nat, id: string, nTokens: nat, nPos: nat)

  /** One text token or one whole image. */
  datatype Part = Text(token: Token) | Media(id: string, nTokens: nat, nPos: nat)

  function Cells(p: Part): nat { if p.Text? then 1 else p.nTokens }

  function Positions(p: Part): nat { if p.Text? then 1 else p.nPos }

  /** Every part takes at least one cell and one position. */
  ghost predicate Solid(parts: seq<Part>) {
    forall k :: 0 <= k < |parts| ==> Cells(parts[k]) > 0 && Positions(parts[k]) > 0
  }

  function CellSum(parts: seq<Part>): nat {
    if parts == [] then 0 else CellSum(parts[..|parts| - 1]) + Cells(parts[|parts| - 1])
  }

  function PosSum(parts: seq<Part>): nat {
    if parts == [] then 0 else PosSum(parts[..|parts| - 1]) + Positions(parts[|parts| - 1])
  }

  function Zeros(n: nat): (z: seq<Token>)
    ensures |z| == n && forall i :: 0 <= i < n ==> z[i] == 0
  {
    if n == 0 then [] else Zeros(n - 1) + [0]
  }

  function PartTokens(p: Part): (t: seq<Token>)
    ensures |t| == Cells(p)
  {
    if p.Text? then [p.token] else Zeros(p.nTokens)
  }

  /** The cells of a prompt; image cells hold token 0. */
  function FlatTokens(parts: seq<Part>): (t: seq<Token>)
    ensures |t| == CellSum(parts)
  {
    if parts == [] then [] else FlatTokens(parts[..|parts| - 1]) + PartTokens(parts[|parts| - 1])
  }

  function FlatImages(parts: seq<Part>): seq<ImageSpan> {
    if parts == [] then []
    else
      var n := |parts| - 1;
      FlatImages(parts[..n]) + if parts[n].Media? then [Span(parts, n)] else []
  }

  function Span(parts: seq<Part>, k: nat): ImageSpan
    requires k < |parts| && parts[k].Media?
  {
    ImageSpan(CellSum(parts[..k]), parts[k].id, parts[k].nTokens, parts[k].nPos)
  }

  // ---------------------------------------------------------------- boundaries

  lemma SumsNext(parts: seq<Part>, k: nat)
    requires k < |parts|
    ensures CellSum(parts[..k + 1]) == CellSum(parts[..k]) + Cells(parts[k])
    ensures PosSum(parts[..k + 1]) == PosSum(parts[..k]) + Positions(parts[k])
  {
    assert parts[..k + 1][..k] == parts[..k];
  }

  lemma {:induction false} SumsGrow(parts: seq<Part>, a: nat, b: nat)
    requires Solid(parts) && a <= b <= |parts|
    ensures CellSum(parts[..a]) + (b - a) <= CellSum(parts[..b])
    ensures PosSum(parts[..a]) + (b - a) <= PosSum(parts[..b])
    decreases b - a
  {
    if a < b {
      SumsNext(parts, b - 1);
      SumsGrow(parts, a, b - 1);
    }
  }

  lemma {:induction false} ImagesAreSpans(parts: seq<Part>, im: ImageSpan)
    requires im in FlatImages(parts)
    ensures IsSpan(parts, im)
    decreases |parts|
  {
    var n := |parts| - 1;
    if im in FlatImages(parts[..n]) {
      ImagesAreSpans(parts[..n], im);
      var k :| 0 <= k < n && parts[..n][k].Media? && im == Span(parts[..n], k);
      assert parts[..n][..k] == parts[..k];
      assert im == Span(parts, k);
    } else {
      assert im == Span(parts, n);
    }
  }

  lemma {:induction false} SpansAreImages(parts: seq<Part>, k: nat)
    requires k < |parts| && parts[k].Media?
    ensures Span(parts, k) in FlatImages(parts)
    decreases |parts|
  {
    var n := |parts| - 1;
    if k < n {
      SpansAreImages(parts[..n], k);
      assert parts[..n][..k] == parts[..k];
    }
  }

  ghost predicate IsSpan(parts: seq<Part>, im: ImageSpan) {
    exists k :: 0 <= k < |parts| && parts[k].Media? && im == Span(parts, k)
  }

  /** The image that starts at a part boundary, if that part is one. */
  ghost function ImageOf(parts: seq<Part>, k: nat): Option<ImageSpan>
    requires k < |parts|
  {
    if parts[k].Media? then Some(Span(parts, k)) else None
  }

  /** The images of two prompts agree part by part: same image (by a known id) or same token. */
  predicate Matches(a: Part, b: Part) {
    if a.Media? && b.Media? then a.id != "" && a.id == b.id && a.nTokens == b.nTokens
    else a.Text? && b.Text? && a.token == b.token
  }

  ghost predicate SameHead(a: seq<Part>, b: seq<Part>, k: nat) {
    k <= |a| && k <= |b| && forall i :: 0 <= i < k ==> Matches(a[i], b[i])
  }

  lemma {:induction false} SameHeadCells(a: seq<Part>, b: seq<Part>, k: nat)
    requires SameHead(a, b, k)
    ensures CellSum(a[..k]) == CellSum(b[..k])
    decreases k
  {
    if k > 0 {
      SumsNext(a, k - 1);
      SumsNext(b, k - 1);
      SameHeadCells(a, b, k - 1);
    }
  }

  lemma FlatSnoc(parts: seq<Part>, p: Part)
    ensures FlatTokens(parts + [p]) == FlatTokens(parts) + PartTokens(p)
    ensures FlatImages(parts + [p]) ==
      FlatImages(parts) + if p.Media? then [ImageSpan(CellSum(parts), p.id, p.nTokens, p.nPos)] else []
  {
    assert (parts + [p])[..|parts|] == parts;
    hide PartTokens;
  }

  lemma TakeOfConcat(a: seq<Token>, b: seq<Token>, n: nat)
    requires n <= |a|
    ensures (a + b)[..n] == a[..n]
  {
  }

  lemma {:induction false} FlatHead(parts: seq<Part>, k: nat)
    requires k <= |parts|
    ensures CellSum(parts[..k]) <= CellSum(parts) && FlatTokens(parts)[..CellSum(parts[..k])] == FlatTokens(parts[..k])
    decreases |parts|
  {
    hide PartTokens;
    if k < |parts| {
      var n := |parts| - 1;
      FlatHead(parts[..n], k);
      assert parts[..n][..k] == parts[..k];
      TakeOfConcat(FlatTokens(parts[..n]), PartTokens(parts[n]), CellSum(parts[..k]));
    } else {
      assert parts[..k] == parts;
    }
  }

  /** A cell lies in one part only. */
  lemma SamePart(parts: seq<Part>, k: nat, q: nat, n: nat)
    requires Solid(parts) && k < |parts| && q < |parts|
    requires CellSum(parts[..k]) <= n < CellSum(parts[..k + 1])
    requires CellSum(parts[..q]) <= n < CellSum(parts[..q]) + Cells(parts[q])
    ensures k == q
  {
    SumsNext(parts, q);
    if q < k { SumsGrow(parts, q + 1, k); }
    if k < q { SumsGrow(parts, k + 1, q); }
  }

  lemma TextCell(parts: seq<Part>, k: nat)
    requires k < |parts|
    ensures CellSum(parts[..k]) + Cells(parts[k]) <= |FlatTokens(parts)|
    ensures parts[k].Text? ==> FlatTokens(parts)[CellSum(parts[..k])] == parts[k].token
  {
    FlatHead(parts, k + 1);
    SumsNext(parts, k);
    assert parts[..k + 1][..k] == parts[..k];
    if parts[k].Text? {
      assert FlatTokens(parts[..k + 1])[CellSum(parts[..k])] == parts[k].token;
    }
  }

  class VisionSeq {
    var tokens: seq<Token>
    var images: seq<ImageSpan>
    ghost var parts: seq<Part>

    ghost predicate Valid()
      reads this
    {
      Solid(parts) && tokens == FlatTokens(parts) && images == FlatImages(parts)
    }

    constructor (chunks: seq<Part>)
      requires Solid(chunks)
      ensures Valid() && parts == chunks
    {
      tokens, images, parts := [], [], [];
      new;
      for k := 0 to |chunks|
        invariant Valid() && parts == chunks[..k]
      {
        hide FlatTokens, FlatImages, PartTokens, CellSum;
        assert chunks[..k + 1] == chunks[..k] + [chunks[k]];
        var p := chunks[k];
        FlatSnoc(parts, p);
        if p.Media? { images := images + [ImageSpan(|tokens|, p.id, p.nTokens, p.nPos)]; }
        tokens := tokens + PartTokens(p);
        parts := parts + [p];
      }
      assert chunks[..|chunks|] == chunks;
    }

    method ImageAt(idx: nat) returns (r: Option<ImageSpan>)
      ensures r.Some? ==> r.value in images && r.value.start == idx
      ensures r.None? ==> forall im :: im in images ==> im.start != idx
    {
      for j := 0 to |images|
        invariant forall i :: 0 <= i < j ==> images[i].start != idx
      {
        if images[j].start == idx { return Some(images[j]); }
      }
      r := None;
    }

    method ImageCovering(idx: nat) returns (r: Option<ImageSpan>)
      ensures r.Some? ==> r.value in images && r.value.start <= idx < r.value.start + r.value.nTokens
      ensures r.None? ==> forall im :: im in images ==> !(im.start <= idx < im.start + im.nTokens)
    {
      for j := 0 to |images|
        invariant forall i :: 0 <= i < j ==> !(images[i].start <= idx < images[i].start + images[i].nTokens)
      {
        if images[j].start <= idx < images[j].start + images[j].nTokens { return Some(images[j]); }
      }
      r := None;
    }

    /** At a boundary the lookup finds the part that starts there. */
    lemma BoundaryImage(k: nat, r: Option<ImageSpan>)
      requires Valid() && k < |parts|
      requires r.Some? ==> r.value in images && r.value.start == CellSum(parts[..k])
      requires r.None? ==> forall im :: im in images ==> im.start != CellSum(parts[..k])
      ensures r == ImageOf(parts, k)
    {
      if parts[k].Media? { SpansAreImages(parts, k); }
      if r.Some? {
        ImagesAreSpans(parts, r.value);
        var q :| 0 <= q < |parts| && parts[q].Media? && r.value == Span(parts, q);
        if q < k { SumsGrow(parts, q, k); } else { SumsGrow(parts, k, q); }
        assert q == k;
      }
    }

    method PartAt(ghost k: nat, idx: nat) returns (r: Option<ImageSpan>)
      requires Valid() && k < |parts| && idx == CellSum(parts[..k])
      ensures r == ImageOf(parts, k)
    {
      r := ImageAt(idx);
      BoundaryImage(k, r);
    }

    /** The fewest whole parts with at least `n` cells. */
    ghost predicate IsCellCut(k: nat, n: nat)
      reads this
    {
      k <= |parts| && (k < |parts| ==> CellSum(parts[..k]) >= n) && forall j :: 0 <= j < k ==> CellSum(parts[..j]) < n
    }

    /** `pos_next`: the position behind the first `n` cells, images whole. */
    method PosNext(n: nat) returns (pos: nat)
      requires Valid()
      ensures exists k: nat :: IsCellCut(k, n) && pos == PosSum(parts[..k])
    {
      hide CellSum, PosSum, FlatTokens, FlatImages, Solid;
      Ends();
      var m := Min(n, |tokens|);
      var idx := 0;
      ghost var k := 0;
      pos := 0;
      while idx < m
        invariant k <= |parts| && idx == CellSum(parts[..k]) && pos == PosSum(parts[..k])
        invariant forall j :: 0 <= j < k ==> CellSum(parts[..j]) < n
        decreases |parts| - k
      {
        Unfinished(k);
        SumsNext(parts, k);
        var img := PartAt(k, idx);
        if img.Some? {
          pos := pos + img.value.nPos;
          idx := idx + img.value.nTokens;
        } else {
          pos, idx := pos + 1, idx + 1;
        }
        k := k + 1;
      }
      if k < |parts| { SumsGrow(parts, k, |parts|); Whole(); }
      assert IsCellCut(k, n);
    }

    lemma Ends()
      ensures CellSum(parts[..0]) == PosSum(parts[..0]) == 0
    {
    }

    lemma Unfinished(k: nat)
      requires Valid() && k <= |parts| && CellSum(parts[..k]) < |tokens|
      ensures k < |parts|
    {
      assert parts[..|parts|] == parts;
    }

    /** The fewest whole parts whose position is at least `p`. */
    ghost predicate IsPosCut(k: nat, p: nat)
      reads this
    {
      k <= |parts| && (k < |parts| ==> PosSum(parts[..k]) >= p) && forall j :: 0 <= j < k ==> PosSum(parts[..j]) < p
    }

    /** `size_up_to_pos`: cells up to a position, images whole. */
    method SizeUpToPos(maxPos: nat) returns (idx: nat)
      requires Valid()
      ensures exists k: nat :: IsPosCut(k, maxPos) && idx == CellSum(parts[..k])
    {
      hide CellSum, PosSum, FlatTokens, FlatImages, Solid;
      Ends();
      var pos := 0;
      ghost var k := 0;
      idx := 0;
      while idx < |tokens| && pos < maxPos
        invariant k <= |parts| && idx == CellSum(parts[..k]) && pos == PosSum(parts[..k])
        invariant forall j :: 0 <= j < k ==> PosSum(parts[..j]) < maxPos
        decreases |parts| - k
      {
        Unfinished(k);
        SumsNext(parts, k);
        var img := PartAt(k, idx);
        if img.Some? {
          pos := pos + img.value.nPos;
          idx := idx + img.value.nTokens;
        } else {
          pos, idx := pos + 1, idx + 1;
        }
        k := k + 1;
      }
      if k < |parts| { SumsGrow(parts, k, |parts|); Whole(); }
      assert IsPosCut(k, maxPos);
    }

    lemma Whole()
      requires Valid()
      ensures CellSum(parts[..|parts|]) == |tokens|
    {
      assert parts[..|parts|] == parts;
    }

    /** At part boundaries the two walks invert each other. */
    lemma WalksInvert(k: nat, kc: nat, kp: nat)
      requires Valid() && k <= |parts|
      requires IsCellCut(kc, CellSum(parts[..k])) && IsPosCut(kp, PosSum(parts[..k]))
      ensures kc == kp == k
    {
      if kc < k { SumsGrow(parts, kc, k); }
      if kp < k { SumsGrow(parts, kp, k); }
    }
  
    /** `common_prefix`: the cells of the longest head on which both agree part by part. */
    method CommonPrefix(other: VisionSeq) returns (n: nat)
      requires Valid() && other.Valid()
      ensures exists k: nat :: IsCommonHead(parts, other.parts, k) && n == CellSum(parts[..k])
    {
      hide CellSum, PosSum, FlatTokens, FlatImages, Solid;
      Ends();
      other.Ends();
      var max := Min(|tokens|, |other.tokens|);
      var i := 0;
      ghost var k := 0;
      while i < max
        invariant SameHead(parts, other.parts, k) && i == CellSum(parts[..k]) == CellSum(other.parts[..k]) <= max
        decreases |parts| - k
      {
        Unfinished(k);
        other.Unfinished(k);
        SumsNext(parts, k);
        SumsNext(other.parts, k);
        TextCell(parts, k);
        TextCell(other.parts, k);
        var a := PartAt(k, i);
        var b := other.PartAt(k, i);
        if a.Some? && b.Some? {
          if a.value.id == "" || a.value.id != b.value.id || a.value.nTokens != b.value.nTokens {
            assert IsCommonHead(parts, other.parts, k);
            return i;
          }
          i := i + a.value.nTokens;
        } else if a.None? && b.None? {
          if tokens[i] != other.tokens[i] {
            assert IsCommonHead(parts, other.parts, k);
            return i;
          }
          i := i + 1;
        } else {
          assert IsCommonHead(parts, other.parts, k);
          return i;
        }
        k := k + 1;
      }
      if k < |parts| && k < |other.parts| {
        SumsGrow(parts, k, |parts|);
        SumsGrow(other.parts, k, |other.parts|);
        Whole();
        other.Whole();
      }
      assert IsCommonHead(parts, other.parts, k);
      n := max;
    }

    /** Text cells generated behind the prompt. */
    method AppendGenerated(generated: seq<Token>)
      requires Valid()
      modifies this
      ensures Valid() && parts == old(parts) + TextParts(generated)
    {
      FlatAppend(parts, generated);
      tokens, parts := tokens + generated, parts + TextParts(generated);
    }

    /** Keeps the longest head of whole parts whose position is at most `nPos`. */
    method TruncateToPos(nPos: nat)
      requires Valid()
      modifies this
      ensures Valid() && exists k: nat :: IsPosHead(old(parts), k, nPos) && parts == old(parts)[..k]
    {
      hide CellSum, PosSum, FlatTokens, FlatImages;
      Ends();
      var idx, pos := 0, 0;
      ghost var k := 0;
      while idx < |tokens| && pos < nPos
        modifies {}
        invariant k <= |parts| && idx == CellSum(parts[..k]) && pos == PosSum(parts[..k]) <= nPos
        decreases |parts| - k
      {
        Unfinished(k);
        SumsNext(parts, k);
        var img := PartAt(k, idx);
        if img.Some? {
          if pos + img.value.nPos > nPos { break; }
          pos := pos + img.value.nPos;
          idx := idx + img.value.nTokens;
        } else {
          pos, idx := pos + 1, idx + 1;
        }
        k := k + 1;
      }
      PosHeadIs(k, idx, pos, nPos);
      Cut(k);
      RetainIs(k);
      tokens := tokens[..idx];
      images := Retain(images, idx);
      parts := parts[..k];
    }

    lemma PosHeadIs(k: nat, idx: nat, pos: nat, nPos: nat)
      requires Valid() && k <= |parts| && idx == CellSum(parts[..k]) && pos == PosSum(parts[..k]) <= nPos
      requires idx >= |tokens| || pos >= nPos || (k < |parts| && pos + Positions(parts[k]) > nPos)
      ensures IsPosHead(parts, k, nPos)
    {
      if k < |parts| {
        SumsGrow(parts, k, |parts|);
        Whole();
        SumsNext(parts, k);
      }
    }

    lemma Cut(k: nat)
      requires Valid() && k <= |parts|
      ensures CellSum(parts[..k]) <= |tokens| && tokens[..CellSum(parts[..k])] == FlatTokens(parts[..k]) && Solid(parts[..k])
    {
      FlatHead(parts, k);
    }

    lemma RetainIs(k: nat)
      requires Valid() && k <= |parts|
      ensures Retain(images, CellSum(parts[..k])) == FlatImages(parts[..k])
    {
      RetainHead(parts, k);
    }

    /** `remember_vision`: the prompt and its generated text, cut at the position the GPU holds. */
    method Remember(generated: seq<Token>, nPos: nat)
      requires Valid()
      modifies this
      ensures Valid() && exists k: nat :: IsPosHead(old(parts) + TextParts(generated), k, nPos) && parts == (old(parts) + TextParts(generated))[..k]
    {
      AppendGenerated(generated);
      TruncateToPos(nPos);
    }

    lemma NoParts()
      requires Valid() && tokens == []
      ensures parts == []
    {
      Whole();
      SumsGrow(parts, 0, |parts|);
    }

    /** The part the cell `n` lies in. */
    lemma HeadBelow(n: nat) returns (k: nat)
      requires Valid() && n < |tokens|
      ensures k < |parts| && CellSum(parts[..k]) <= n < CellSum(parts[..k + 1])
    {
      Whole();
      k := 0;
      while CellSum(parts[..k + 1]) <= n
        invariant k < |parts| && CellSum(parts[..k]) <= n
        decreases |parts| - k
      {
        if k + 1 == |parts| { Whole(); }
        k := k + 1;
      }
    }

    /** A covering image starts at the boundary below; without one the cell is a boundary. */
    lemma CoverIsPart(k: nat, n: nat, img: Option<ImageSpan>)
      requires Valid() && k < |parts| && CellSum(parts[..k]) <= n < CellSum(parts[..k + 1])
      requires img.Some? ==> img.value in images && img.value.start <= n < img.value.start + img.value.nTokens
      requires img.None? ==> forall im :: im in images ==> !(im.start <= n < im.start + im.nTokens)
      ensures (if img.Some? then img.value.start else n) == CellSum(parts[..k])
    {
      hide FlatTokens, FlatImages, CellSum, PosSum;
      SumsNext(parts, k);
      if img.Some? {
        ImagesAreSpans(parts, img.value);
        var q :| 0 <= q < |parts| && parts[q].Media? && img.value == Span(parts, q);
        SamePart(parts, k, q, n);
      } else if parts[k].Media? {
        SpansAreImages(parts, k);
      }
    }

    lemma CutAtBoundary(k: nat, kc: nat, n: nat)
      requires Valid() && k <= |parts| && n == CellSum(parts[..k]) && IsCellCut(kc, n)
      ensures kc == k
    {
      if kc < k { SumsGrow(parts, kc, k); }
    }

    lemma EmptyHead(k: nat)
      requires Valid() && k <= |parts| && CellSum(parts[..k]) == 0
      ensures k == 0
    {
      SumsGrow(parts, 0, k);
    }

    /** The longest common head that leaves a cell, cut back to the start of an image. */
    method ReuseCut(prompt: VisionSeq) returns (n: nat)
      requires Valid() && prompt.Valid() && prompt.tokens != []
      ensures exists k: nat :: IsLongestReuse(parts, prompt.parts, k) && n == CellSum(prompt.parts[..k])
    {
      hide CellSum, PosSum, FlatTokens, FlatImages, Solid, IsLongestReuse;
      prompt.Whole();
      var common := CommonPrefix(prompt);
      ghost var k0: nat :| IsCommonHead(parts, prompt.parts, k0) && common == CellSum(parts[..k0]);
      SameHeadCells(parts, prompt.parts, k0);
      n := Min(common, |prompt.tokens| - 1);
      ghost var k := prompt.HeadBelow(n);
      LongestReuse(parts, prompt.parts, k0, k, n);
      var img := prompt.ImageCovering(n);
      prompt.CoverIsPart(k, n, img);
      if img.Some? { n := img.value.start; }
    }

    /** `reuse_for_bind` against the remembered prompt: a whole-part head of `prompt` on which
      * both agree, short of its last cell, and only if the GPU covers its position. */
    method ReuseForBind(prompt: VisionSeq, gpuNPast: nat) returns (n: nat)
      requires Valid() && prompt.Valid()
      ensures n > 0 ==> exists k: nat ::
        IsLongestReuse(parts, prompt.parts, k) && n == CellSum(prompt.parts[..k]) && PosSum(prompt.parts[..k]) <= gpuNPast
      ensures n == 0 ==> forall k: nat :: IsLongestReuse(parts, prompt.parts, k) ==> k == 0 || PosSum(prompt.parts[..k]) > gpuNPast
    {
      hide CellSum, PosSum, FlatTokens, FlatImages, Solid;
      if prompt.tokens == [] {
        prompt.NoParts();
        return 0;
      }
      hide IsLongestReuse;
      n := ReuseCut(prompt);
      ghost var k: nat :| IsLongestReuse(parts, prompt.parts, k) && n == CellSum(prompt.parts[..k]);
      OneLongestReuse(parts, prompt.parts, k);
      HeadFits(parts, prompt.parts, k);
      var pos := prompt.PosNext(n);
      ghost var kc: nat :| prompt.IsCellCut(kc, n) && pos == PosSum(prompt.parts[..kc]);
      prompt.CutAtBoundary(k, kc, n);
      if n == 0 || gpuNPast < pos {
        if n == 0 { prompt.EmptyHead(k); }
        return 0;
      }
    }
  }

  /** The head of `k` parts is common and cannot be extended. */
  ghost predicate IsCommonHead(a: seq<Part>, b: seq<Part>, k: nat) {
    SameHead(a, b, k) && (k < |a| && k < |b| ==> !Matches(a[k], b[k]))
  }

  /** The longest common head of whole parts that leaves a cell of the prompt. */
  ghost predicate IsLongestReuse(a: seq<Part>, prompt: seq<Part>, k: nat) {
    && SameHead(a, prompt, k) && (k > 0 ==> CellSum(prompt[..k]) < CellSum(prompt))
    && forall j: nat :: k < j && SameHead(a, prompt, j) ==> CellSum(prompt[..j]) >= CellSum(prompt)
  }

  lemma OneLongestReuse(a: seq<Part>, prompt: seq<Part>, k: nat)
    requires IsLongestReuse(a, prompt, k)
    ensures forall j: nat :: IsLongestReuse(a, prompt, j) ==> j == k
  {
  }

  lemma HeadFits(a: seq<Part>, prompt: seq<Part>, k: nat)
    requires IsLongestReuse(a, prompt, k)
    ensures k <= |a| && k <= |prompt|
  {
  }

  lemma HeadsWithin(a: seq<Part>, b: seq<Part>, k0: nat, j: nat)
    requires IsCommonHead(a, b, k0) && SameHead(a, b, j)
    ensures j <= k0
  {
  }

  lemma LongestReuse(a: seq<Part>, prompt: seq<Part>, k0: nat, k: nat, n: nat)
    requires Solid(prompt) && IsCommonHead(a, prompt, k0) && k < |prompt| && CellSum(prompt) > 0
    requires n == Min(CellSum(prompt[..k0]), CellSum(prompt) - 1)
    requires CellSum(prompt[..k]) <= n < CellSum(prompt[..k + 1])
    ensures k <= k0 && IsLongestReuse(a, prompt, k)
  {
    if k > k0 { SumsGrow(prompt, k0, k); }
    forall j: nat | k < j && SameHead(a, prompt, j) ensures CellSum(prompt[..j]) >= CellSum(prompt) {
      HeadsWithin(a, prompt, k0, j);
      SumsGrow(prompt, k + 1, j);
      SumsGrow(prompt, j, k0);
    }
  }

  function TextParts(t: seq<Token>): (p: seq<Part>)
    ensures |p| == |t| && forall i :: 0 <= i < |t| ==> p[i] == Text(t[i])
  {
    seq(|t|, i requires 0 <= i < |t| => Text(t[i]))
  }

  /** The longest head of whole parts that ends at a position of at most `p`. */
  ghost predicate IsPosHead(parts: seq<Part>, k: nat, p: nat) {
    k <= |parts| && PosSum(parts[..k]) <= p && (k < |parts| ==> PosSum(parts[..k + 1]) > p)
  }

  /** `images.retain(start < idx)`. */
  function Retain(images: seq<ImageSpan>, idx: nat): seq<ImageSpan> {
    if images == [] then []
    else
      var n := |images| - 1;
      Retain(images[..n], idx) + if images[n].start < idx then [images[n]] else []
  }

  lemma {:induction false} RetainHead(parts: seq<Part>, k: nat)
    requires Solid(parts) && k <= |parts|
    ensures Retain(FlatImages(parts), CellSum(parts[..k])) == FlatImages(parts[..k])
    decreases |parts|
  {
    var n := |parts| - 1;
    if k < |parts| {
      RetainHead(parts[..n], k);
      assert parts[..n][..k] == parts[..k];
      SumsGrow(parts, k, n);
      if parts[n].Media? {
        var im := FlatImages(parts);
        assert im[..|im| - 1] == FlatImages(parts[..n]);
      } else {
        assert FlatImages(parts) == FlatImages(parts[..n]);
      }
    } else {
      assert parts[..k] == parts;
      RetainAll(parts, CellSum(parts));
    }
  }

  lemma {:induction false} RetainAll(parts: seq<Part>, idx: nat)
    requires Solid(parts) && idx >= CellSum(parts)
    ensures Retain(FlatImages(parts), idx) == FlatImages(parts)
  {
    if parts != [] {
      var n := |parts| - 1;
      RetainAll(parts[..n], idx);
      if parts[n].Media? {
        var im := FlatImages(parts);
        assert im[..|im| - 1] == FlatImages(parts[..n]);
        assert im[|im| - 1].start == CellSum(parts[..n]);
      } else {
        assert FlatImages(parts) == FlatImages(parts[..n]);
      }
    }
  }

  lemma {:induction false} FlatAppend(parts: seq<Part>, generated: seq<Token>)
    ensures FlatTokens(parts + TextParts(generated)) == FlatTokens(parts) + generated
    ensures FlatImages(parts + TextParts(generated)) == FlatImages(parts)
  {
    hide FlatTokens, FlatImages;
    if generated == [] {
      assert parts + TextParts(generated) == parts;
    } else {
      var n := |generated| - 1;
      FlatAppend(parts, generated[..n]);
      FlatSnocText(parts + TextParts(generated[..n]), generated[n]);
      TextPartsSnoc(parts, generated, n);
      assert FlatTokens(parts) + generated[..n] + [generated[n]] == FlatTokens(parts) + generated;
    }
  }

  lemma FlatSnocText(parts: seq<Part>, t: Token)
    ensures FlatTokens(parts + [Text(t)]) == FlatTokens(parts) + [t]
    ensures FlatImages(parts + [Text(t)]) == FlatImages(parts)
  {
    FlatSnoc(parts, Text(t));
  }

  lemma TextPartsSnoc(parts: seq<Part>, t: seq<Token>, n: nat)
    requires n + 1 == |t|
    ensures parts + TextParts(t) == parts + TextParts(t[..n]) + [Text(t[n])]
  {
    assert TextParts(t) == TextParts(t[..n]) + [Text(t[n])];
  }
}
