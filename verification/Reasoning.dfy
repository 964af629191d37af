/** Splitting `<think>` blocks out of streamed text, independently of how it is cut. */
module Reasoning {
  import opened Common
  import opened Markers

  const OPEN: string := "<think>"
  const CLOSE: string := "</think>"

  const EXTRA_THINK_ENDS: seq<string> := [
    "<\U{FF5C}DSML\U{FF5C}tool_calls>",
    "<\U{FF5C}DSML\U{FF5C}function_calls>",
    "<tool_call>",
    "<tools_call>",
    "<function=",
    "<|tool\U{2581}calls\U{2581}begin|>"
  ]

  datatype Format = Verbatim | Deepseek | DeepseekLegacy

  datatype Phase = Content | Think

  function FirstPhase(format: Format, startInThink: bool): Phase {
    if startInThink && !format.Verbatim? then Think else Content
  }

  function Tag(phase: Phase): string { if phase.Content? then OPEN else CLOSE }

  /** What ends a phase: its own tag, and in a thought also a tool call. */
  function Ends(phase: Phase): seq<string> {
    if phase.Content? then [OPEN] else [CLOSE] + EXTRA_THINK_ENDS
  }

  /** An opening bracket in front and none behind. */
  ghost predicate Bracketed(m: string) {
    |m| > 0 && m[0] == '<' && forall k :: 0 < k < |m| ==> m[k] != '<'
  }

  lemma TagsBracketed()
    ensures Bracketed(OPEN) && Bracketed(CLOSE)
  {
  }

  lemma ExtrasBracketed(a: nat)
    requires a < |EXTRA_THINK_ENDS|
    ensures Bracketed(EXTRA_THINK_ENDS[a]) && |EXTRA_THINK_ENDS[a]| > 1 && EXTRA_THINK_ENDS[a][1] != CLOSE[1]
  {
  }

  lemma EndsAreSeparated(phase: Phase)
    ensures Separated(Ends(phase))
  {
    TagsBracketed();
    forall a | 0 <= a < |Ends(phase)| ensures Bracketed(Ends(phase)[a]) {
      if a > 0 { ExtrasBracketed(a - 1); }
    }
    hide Ends;
  }

  // ---------------------------------------------------------------- the one-pass split

  datatype Parts = Parts(reasoning: string, content: string) {
    function Plus(o: Parts): Parts { Parts(reasoning + o.reasoning, content + o.content) }
  }

  function Other(phase: Phase): Phase { if phase.Content? then Think else Content }

  /** Text of a phase; the legacy format repeats thoughts in the content. */
  function Emit(format: Format, phase: Phase, s: string): Parts {
    if phase.Content? then Parts("", s) else Parts(s, if format.DeepseekLegacy? then s else "")
  }

  /** A tag that ends a phase is dropped, except by the legacy format. */
  function TagOut(format: Format, phase: Phase): Parts {
    Parts("", if format.DeepseekLegacy? then Tag(phase) else "")
  }

  lemma EndsShort(phase: Phase)
    ensures forall a :: 0 <= a < |Ends(phase)| ==> |Ends(phase)[a]| > 0
    ensures |Tag(phase)| > 0
  {
    EndsAreSeparated(phase);
  }

  lemma EndsOfContent(text: string, i: nat)
    ensures AnyAt(text, Ends(Content), i) <==> At(text, Tag(Content), i)
  {
    assert Ends(Content)[0] == OPEN;
  }

  /** What goes out with the marker at `i`, and the text behind it. */
  function Gone(format: Format, phase: Phase, text: string, i: nat): Parts
    requires i <= |text|
  {
    Emit(format, phase, text[..i]).Plus(if At(text, Tag(phase), i) then TagOut(format, phase) else Parts("", ""))
  }

  function Behind(phase: Phase, text: string, i: nat): (rest: string)
    requires i <= |text|
    ensures |rest| <= |text|
  {
    if At(text, Tag(phase), i) then text[i + |Tag(phase)|..] else text[i..]
  }

  /** Reasoning and content of a whole text that starts in `phase`. A tool call ends a thought
    * and stays in the content. */
  function Split(format: Format, phase: Phase, text: string): Parts
    decreases |text|, if phase.Think? then 1 else 0
  {
    var i := First(text, Ends(phase));
    if i.None? then Emit(format, phase, text)
    else
      EndsShort(phase);
      EndsOfContent(text, i.value);
      Gone(format, phase, text, i.value).Plus(Split(format, Other(phase), Behind(phase, text, i.value)))
  }

  /** The format that extracts nothing passes everything through. */
  function Whole(format: Format, phase: Phase, text: string): Parts {
    if format.Verbatim? then Parts("", text) else Split(format, phase, text)
  }

  /** The legacy format keeps the text in the content, character by character. */
  lemma {:induction false} LegacyKeepsEverything(phase: Phase, text: string)
    ensures Split(DeepseekLegacy, phase, text).content == text
    decreases |text|, if phase.Think? then 1 else 0
  {
    var i := First(text, Ends(phase));
    if i.Some? {
      EndsShort(phase);
      EndsOfContent(text, i.value);
      LegacyKeepsEverything(Other(phase), Behind(phase, text, i.value));
      GoneKeeps(phase, text, i.value);
    }
  }

  /** The two extracting formats agree on what a thought is. */
  lemma {:induction false} SameThoughts(phase: Phase, text: string)
    ensures Split(Deepseek, phase, text).reasoning == Split(DeepseekLegacy, phase, text).reasoning
    decreases |text|, if phase.Think? then 1 else 0
  {
    var i := First(text, Ends(phase));
    if i.Some? {
      EndsShort(phase);
      EndsOfContent(text, i.value);
      SameThoughts(Other(phase), Behind(phase, text, i.value));
    }
  }

  lemma GoneKeeps(phase: Phase, text: string, i: nat)
    requires i <= |text|
    ensures Gone(DeepseekLegacy, phase, text, i).content + Behind(phase, text, i) == text
  {
    hide Tag;
  }

  // ---------------------------------------------------------------- and the same in pieces

  /** Whether the marker found is the phase's own tag is settled once it is found. */
  lemma TagStays(h: string, x: string, phase: Phase, i: nat)
    requires First(h, Ends(phase)) == Some(i)
    ensures At(h + x, Tag(phase), i) <==> At(h, Tag(phase), i)
  {
    hide First;
    if At(h, Tag(phase), i) {
      AtGrows(h, x, Tag(phase), i);
    } else {
      FoundExtra(h, phase, i);
      var k :| 0 <= k < |EXTRA_THINK_ENDS| && At(h, EXTRA_THINK_ENDS[k], i);
      ExtraIsNoTag(h, x, i, k);
    }
  }

  lemma FoundExtra(h: string, phase: Phase, i: nat)
    requires First(h, Ends(phase)) == Some(i) && !At(h, Tag(phase), i)
    ensures phase.Think? && exists k :: 0 <= k < |EXTRA_THINK_ENDS| && At(h, EXTRA_THINK_ENDS[k], i)
  {
    assert Ends(phase)[0] == Tag(phase);
    var a :| 0 <= a < |Ends(phase)| && At(h, Ends(phase)[a], i);
    assert phase.Think? && a > 0 ==> Ends(phase)[a] == EXTRA_THINK_ENDS[a - 1];
  }

  lemma ExtraIsNoTag(h: string, x: string, i: nat, k: nat)
    requires k < |EXTRA_THINK_ENDS| && At(h, EXTRA_THINK_ENDS[k], i)
    ensures !At(h + x, CLOSE, i)
  {
    ExtrasBracketed(k);
    SecondCharacter(h, EXTRA_THINK_ENDS[k], i);
    if i + |CLOSE| <= |h + x| { assert (h + x)[i..i + |CLOSE|][1] == h[i + 1]; }
  }

  lemma SecondCharacter(h: string, m: string, i: nat)
    requires At(h, m, i) && |m| > 1
    ensures i + 1 < |h| && h[i + 1] == m[1]
  {
    assert h[i..i + |m|][1] == h[i + 1];
  }

  lemma FirstInRange(text: string, ms: seq<string>)
    ensures First(text, ms).Some? ==> First(text, ms).value <= |text|
  {
  }

  lemma SplitAt(format: Format, phase: Phase, text: string, i: nat)
    requires First(text, Ends(phase)) == Some(i) && i <= |text|
    ensures Split(format, phase, text) == Gone(format, phase, text, i).Plus(Split(format, Other(phase), Behind(phase, text, i)))
  {
  }

  lemma SplitNone(format: Format, phase: Phase, text: string)
    requires First(text, Ends(phase)).None?
    ensures Split(format, phase, text) == Emit(format, phase, text)
  {
  }

  /** A marker that is complete splits any longer text in the same way. */
  lemma MarkerStep(format: Format, phase: Phase, h: string, x: string, i: nat)
    requires First(h, Ends(phase)) == Some(i) && i <= |h|
    ensures Split(format, phase, h + x) == Gone(format, phase, h, i).Plus(Split(format, Other(phase), Behind(phase, h, i) + x))
  {
    hide Tag, Ends, First, Split;
    EndsAreSeparated(phase);
    FirstStays(h, x, Ends(phase));
    FirstInRange(h, Ends(phase));
    TagStays(h, x, phase, i);
    SplitAt(format, phase, h + x, i);
    assert (h + x)[..i] == h[..i];
    BehindGrows(phase, h, x, i);
  }

  lemma BehindGrows(phase: Phase, h: string, x: string, i: nat)
    requires i <= |h| && (At(h + x, Tag(phase), i) <==> At(h, Tag(phase), i))
    ensures Behind(phase, h + x, i) == Behind(phase, h, i) + x
  {
    hide Tag;
    if At(h, Tag(phase), i) {
      assert (h + x)[i + |Tag(phase)|..] == h[i + |Tag(phase)|..] + x;
    } else {
      assert (h + x)[i..] == h[i..] + x;
    }
  }

  lemma EmitConcat(format: Format, phase: Phase, a: string, b: string)
    ensures Emit(format, phase, a + b) == Emit(format, phase, a).Plus(Emit(format, phase, b))
  {
  }

  lemma PlusAssoc(a: Parts, b: Parts, c: Parts)
    ensures a.Plus(b).Plus(c) == a.Plus(b.Plus(c))
  {
  }

  /** The same marker, seen from a later start of the text. */
  lemma GoneShifts(format: Format, phase: Phase, e: string, y: string, i: nat)
    requires i <= |y|
    ensures Gone(format, phase, e + y, |e| + i) == Emit(format, phase, e).Plus(Gone(format, phase, y, i))
    ensures Behind(phase, e + y, |e| + i) == Behind(phase, y, i)
  {
    AtShifts(e, y, Tag(phase), i);
    assert (e + y)[..|e| + i] == e + y[..i];
    EmitConcat(format, phase, e, y[..i]);
    var t := if At(y, Tag(phase), i) then TagOut(format, phase) else Parts("", "");
    PlusAssoc(Emit(format, phase, e), Emit(format, phase, y[..i]), t);
    hide Tag, Emit, TagOut;
    assert (e + y)[|e| + i..] == y[i..];
    if At(y, Tag(phase), i) { assert (e + y)[|e| + i + |Tag(phase)|..] == y[i + |Tag(phase)|..]; }
  }

  /** Without a marker, everything but the kept suffix can be emitted. */
  lemma KeepStep(format: Format, phase: Phase, h: string, x: string, keep: nat)
    requires First(h, Ends(phase)).None? && IsKeep(h, Ends(phase), keep)
    ensures Split(format, phase, h + x) == Emit(format, phase, h[..|h| - keep]).Plus(Split(format, phase, h[|h| - keep..] + x))
  {
    hide Split, Tag, Ends, First, Emit, Gone, Behind;
    var e, y := h[..|h| - keep], h[|h| - keep..] + x;
    FirstInKept(h, x, Ends(phase), keep);
    assert h + x == e + y;
    var r := First(y, Ends(phase));
    if r.Some? {
      FirstInRange(y, Ends(phase));
      FirstInRange(h + x, Ends(phase));
      GoneShifts(format, phase, e, y, r.value);
      PlusAssoc(Emit(format, phase, e), Gone(format, phase, y, r.value), Split(format, Other(phase), Behind(phase, y, r.value)));
      SplitAt(format, phase, y, r.value);
      SplitAt(format, phase, h + x, |e| + r.value);
    } else {
      SplitNone(format, phase, y);
      SplitNone(format, phase, h + x);
      EmitConcat(format, phase, e, y);
    }
  }

  // ---------------------------------------------------------------- what a text reads as

  /** A text as its stretches: one that lasts to the end, one up to the tag of its phase, or a thought
    * up to a tool call. Prose and thoughts take turns. */
  datatype Reading = Last(s: string) | Tagged(s: string, rest: Reading) | Called(s: string, rest: Reading)

  predicate Free(s: string, ms: seq<string>) { forall j: nat :: j <= |s| ==> !AnyAt(s, ms, j) }

  function TextOf(phase: Phase, r: Reading): string
    decreases r
  {
    match r
    case Last(s) => s
    case Tagged(s, rest) => s + (Tag(phase) + TextOf(Other(phase), rest))
    case Called(s, rest) => s + TextOf(Other(phase), rest)
  }

  predicate CallAtFront(text: string) { exists k :: 0 <= k < |EXTRA_THINK_ENDS| && At(text, EXTRA_THINK_ENDS[k], 0) }

  /** No stretch holds an end of its phase, and only a thought is ended by the tool call behind it. */
  predicate Proper(phase: Phase, r: Reading)
    decreases r
  {
    && Free(r.s, Ends(phase))
    && (!r.Last? ==> Proper(Other(phase), r.rest))
    && (r.Called? ==> phase.Think? && CallAtFront(TextOf(Other(phase), r.rest)))
  }

  /** All thoughts of a reading, and all of its prose. */
  function Thoughts(phase: Phase, r: Reading): string
    decreases r
  {
    (if phase.Think? then r.s else "") + if r.Last? then "" else Thoughts(Other(phase), r.rest)
  }

  function Prose(phase: Phase, r: Reading): string
    decreases r
  {
    (if phase.Content? then r.s else "") + if r.Last? then "" else Prose(Other(phase), r.rest)
  }

  /** Characters of the tags between the stretches. */
  function TagLength(phase: Phase, r: Reading): nat
    decreases r
  {
    if r.Last? then 0 else (if r.Tagged? then |Tag(phase)| else 0) + TagLength(Other(phase), r.rest)
  }

  /** Reasoning and prose are the text less the tags between them. */
  lemma {:induction false} NothingButTagsDropped(phase: Phase, r: Reading)
    ensures |Thoughts(phase, r)| + |Prose(phase, r)| + TagLength(phase, r) == |TextOf(phase, r)|
    decreases r
  {
    if !r.Last? { NothingButTagsDropped(Other(phase), r.rest); }
  }

  lemma InFront(s: string, tail: string, ms: seq<string>, b: nat, j: nat)
    requires b < |ms| && At(s + tail, ms[b], j) && j + |ms[b]| <= |s|
    ensures AnyAt(s, ms, j)
  {
    assert s[j..j + |ms[b]|] == (s + tail)[j..j + |ms[b]|];
    assert At(s, ms[b], j);
  }

  lemma TagEnds(phase: Phase)
    ensures |Ends(phase)| > 0 && Ends(phase)[0] == Tag(phase)
  {
  }

  lemma FirstBehind(s: string, tail: string, ms: seq<string>, a: nat)
    requires Separated(ms) && a < |ms| && At(tail, ms[a], 0) && Free(s, ms)
    ensures First(s + tail, ms) == Some(|s|)
  {
    hide At;
    var text := s + tail;
    AtShifts(s, tail, ms[a], 0);
    forall j: nat | j < |s| ensures !AnyAt(text, ms, j) {
      if AnyAt(text, ms, j) {
        var b :| 0 <= b < |ms| && At(text, ms[b], j);
        NoOverlap(text, ms, b, j, a, |s|);
        InFront(s, tail, ms, b, j);
      }
    }
    IsFirst(text, ms, |s|);
  }

  lemma TagAt(s: string, phase: Phase, tail: string)
    ensures At(s + (Tag(phase) + tail), Tag(phase), |s|)
    ensures Behind(phase, s + (Tag(phase) + tail), |s|) == tail && (s + (Tag(phase) + tail))[..|s|] == s
  {
    hide Tag;
    var text, n := s + (Tag(phase) + tail), |Tag(phase)|;
    assert text[|s|..|s| + n] == Tag(phase) && text[|s| + n..] == tail;
  }

  /** A stretch up to the tag of its phase. */
  lemma TaggedStep(phase: Phase, s: string, tail: string)
    requires Free(s, Ends(phase))
    ensures Split(Deepseek, phase, s + (Tag(phase) + tail)) == Emit(Deepseek, phase, s).Plus(Split(Deepseek, Other(phase), tail))
  {
    hide Split, Free, First, Tag;
    EndsAreSeparated(phase);
    TagEnds(phase);
    FrontAt(Tag(phase), tail);
    FirstBehind(s, Tag(phase) + tail, Ends(phase), 0);
    TagAt(s, phase, tail);
    SplitAt(Deepseek, phase, s + (Tag(phase) + tail), |s|);
  }

  lemma FrontAt(m: string, tail: string)
    ensures At(m + tail, m, 0)
  {
  }

  /** A thought up to a tool call, which stays in the content. */
  lemma CalledStep(s: string, tail: string)
    requires Free(s, Ends(Think)) && CallAtFront(tail)
    ensures Split(Deepseek, Think, s + tail) == Emit(Deepseek, Think, s).Plus(Split(Deepseek, Content, tail))
  {
    hide Split, Free, First, Behind;
    EndsAreSeparated(Think);
    var k :| 0 <= k < |EXTRA_THINK_ENDS| && At(tail, EXTRA_THINK_ENDS[k], 0);
    assert Ends(Think)[k + 1] == EXTRA_THINK_ENDS[k];
    FirstBehind(s, tail, Ends(Think), k + 1);
    CallIsNoTag(s, tail, k);
    SplitAt(Deepseek, Think, s + tail, |s|);
  }

  lemma CallIsNoTag(s: string, tail: string, k: nat)
    requires k < |EXTRA_THINK_ENDS| && At(tail, EXTRA_THINK_ENDS[k], 0)
    ensures !At(s + tail, CLOSE, |s|) && Behind(Think, s + tail, |s|) == tail && (s + tail)[..|s|] == s
  {
    AtShifts(s, tail, EXTRA_THINK_ENDS[k], 0);
    ExtraIsNoTag(s + tail, "", |s|, k);
    assert s + tail + "" == s + tail;
    assert (s + tail)[|s|..] == tail;
  }

  /** Whatever a text properly reads as is what the split gives. */
  lemma {:induction false} ReadingIsSplit(phase: Phase, r: Reading)
    requires Proper(phase, r)
    ensures Split(Deepseek, phase, TextOf(phase, r)) == Parts(Thoughts(phase, r), Prose(phase, r))
    decreases r
  {
    hide Split, Free, First, Tag, Ends, CallAtFront;
    match r
    case Last(s) =>
      FreeHasNone(s, Ends(phase));
      SplitNone(Deepseek, phase, s);
    case Tagged(s, rest) =>
      ReadingIsSplit(Other(phase), rest);
      TaggedStep(phase, s, TextOf(Other(phase), rest));
    case Called(s, rest) =>
      ReadingIsSplit(Content, rest);
      CalledStep(s, TextOf(Content, rest));
  }

  lemma FreeHasNone(s: string, ms: seq<string>)
    ensures Free(s, ms) <==> First(s, ms).None?
  {
  }

  /** And every text reads as something. */
  lemma {:induction false} EveryTextReads(phase: Phase, text: string) returns (r: Reading)
    ensures Proper(phase, r) && TextOf(phase, r) == text
    decreases |text|, if phase.Think? then 1 else 0
  {
    hide Tag, Ends, First, Free, Proper, At, AnyAt, CallAtFront;
    var i := First(text, Ends(phase));
    FreeHasNone(text, Ends(phase));
    if i.None? {
      ProperLast(phase, text);
      return Last(text);
    }
    FirstInRange(text, Ends(phase));
    EndsShort(phase);
    FreeInFront(text, Ends(phase), i.value);
    var s := text[..i.value];
    if At(text, Tag(phase), i.value) {
      CutAt(text, Tag(phase), i.value);
      var rest := EveryTextReads(Other(phase), text[i.value + |Tag(phase)|..]);
      ProperTagged(phase, s, rest);
      r := Tagged(s, rest);
    } else {
      FoundExtra(text, phase, i.value);
      var k :| 0 <= k < |EXTRA_THINK_ENDS| && At(text, EXTRA_THINK_ENDS[k], i.value);
      AtDropped(text, k, i.value);
      var rest := EveryTextReads(Content, text[i.value..]);
      ProperCalled(s, rest);
      r := Called(s, rest);
      assert text == s + text[i.value..];
    }
  }

  lemma ProperLast(phase: Phase, text: string)
    requires Free(text, Ends(phase))
    ensures Proper(phase, Last(text))
  {
  }

  lemma AtDropped(text: string, k: nat, i: nat)
    requires k < |EXTRA_THINK_ENDS| && At(text, EXTRA_THINK_ENDS[k], i)
    ensures i <= |text| && CallAtFront(text[i..])
  {
    hide At;
    assert At(text[i..], EXTRA_THINK_ENDS[k], 0) by { DroppedFront(text, EXTRA_THINK_ENDS[k], i); }
  }

  lemma DroppedFront(text: string, m: string, i: nat)
    requires At(text, m, i)
    ensures i <= |text| && At(text[i..], m, 0)
  {
    assert text[i..][..|m|] == text[i..i + |m|];
  }

  lemma CutAt(text: string, m: string, i: nat)
    requires At(text, m, i)
    ensures i + |m| <= |text| && text == text[..i] + (m + text[i + |m|..])
  {
  }

  lemma ProperTagged(phase: Phase, s: string, rest: Reading)
    requires Free(s, Ends(phase)) && Proper(Other(phase), rest)
    ensures Proper(phase, Tagged(s, rest))
  {
  }

  lemma ProperCalled(s: string, rest: Reading)
    requires Free(s, Ends(Think)) && Proper(Content, rest) && CallAtFront(TextOf(Content, rest))
    ensures Proper(Think, Called(s, rest))
  {
  }

  lemma StillAt(text: string, i: nat, ms: seq<string>, b: nat, j: nat)
    requires i <= |text| && b < |ms| && At(text[..i], ms[b], j)
    ensures AnyAt(text, ms, j) && j + |ms[b]| <= i
  {
    assert text[..i][j..j + |ms[b]|] == text[j..j + |ms[b]|];
    assert At(text, ms[b], j);
  }

  lemma FreeInFront(text: string, ms: seq<string>, i: nat)
    requires First(text, ms) == Some(i) && i <= |text| && forall a :: 0 <= a < |ms| ==> |ms[a]| > 0
    ensures Free(text[..i], ms)
  {
    forall j: nat | j <= i ensures !AnyAt(text[..i], ms, j) {
      if b :| 0 <= b < |ms| && At(text[..i], ms[b], j) {
        StillAt(text, i, ms, b, j);
      }
    }
  }

  /** One closed thought between prose and more text. */
  lemma ThoughtIsSplit(c: string, t: string, rest: string)
    requires Free(c, [OPEN]) && Free(t, [CLOSE] + EXTRA_THINK_ENDS)
    ensures Split(Deepseek, Content, c + (OPEN + (t + (CLOSE + rest)))) == Parts(t, c).Plus(Split(Deepseek, Content, rest))
  {
    hide Split, Free;
    TaggedStep(Think, t, rest);
    TaggedStep(Content, c, t + (CLOSE + rest));
  }

  /** Prose, one closed thought and more text give the thought, the prose, and what the rest gives. */
  ghost predicate ThoughtOut(text: string, c: string, t: string, rest: string, out: Parts) {
    text == c + (OPEN + (t + (CLOSE + rest))) && Free(c, [OPEN]) && Free(t, [CLOSE] + EXTRA_THINK_ENDS) ==>
      out == Parts(t, c).Plus(Whole(Deepseek, Content, rest))
  }

  lemma AllThoughtsOut(text: string)
    ensures forall c, t, rest :: ThoughtOut(text, c, t, rest, Split(Deepseek, Content, text))
  {
    hide Split, Free;
    forall c, t, rest ensures ThoughtOut(text, c, t, rest, Split(Deepseek, Content, text)) {
      if text == c + (OPEN + (t + (CLOSE + rest))) && Free(c, [OPEN]) && Free(t, [CLOSE] + EXTRA_THINK_ENDS) {
        ThoughtIsSplit(c, t, rest);
      }
    }
  }

  /** A text with a reading gives its thoughts and its prose, or all of it as content. */
  ghost predicate ReadsAs(format: Format, phase: Phase, text: string, r: Reading, out: Parts) {
    Proper(phase, r) && TextOf(phase, r) == text ==>
      out == Parts(Thoughts(phase, r), if format.Deepseek? then Prose(phase, r) else text)
  }

  lemma AllReadings(format: Format, phase: Phase, text: string)
    requires !format.Verbatim?
    ensures forall r :: ReadsAs(format, phase, text, r, Split(format, phase, text))
  {
    hide Split, Proper, TextOf, Thoughts, Prose;
    forall r | Proper(phase, r) && TextOf(phase, r) == text ensures ReadsAs(format, phase, text, r, Split(format, phase, text)) {
      ReadingIsSplit(phase, r);
      SameThoughts(phase, text);
      LegacyKeepsEverything(phase, text);
    }
  }

  // ---------------------------------------------------------------- the searches of the parser

  /** `next_phase_marker`: the earliest end of the phase, and whether it is the phase's own tag. */
  method NextPhaseMarker(hold: string, phase: Phase) returns (best: Option<(nat, bool)>)
    ensures best.None? <==> First(hold, Ends(phase)).None?
    ensures best.Some? ==> First(hold, Ends(phase)) == Some(best.value.0) && (best.value.1 <==> At(hold, Tag(phase), best.value.0))
  {
    var i := Find(hold, Tag(phase));
    ghost var found := i;
    best := if i.Some? then Some((i.value, true)) else None;
    if phase.Think? {
      assert [CLOSE] + EXTRA_THINK_ENDS[..0] == [CLOSE];
      for k := 0 to |EXTRA_THINK_ENDS|
        invariant found == First(hold, [CLOSE] + EXTRA_THINK_ENDS[..k])
        invariant best.None? <==> found.None?
        invariant best.Some? ==> found == Some(best.value.0) && (best.value.1 <==> i == Some(best.value.0))
        invariant i.Some? ==> best.Some? && best.value.0 <= i.value
      {
        hide First;
        var e := Find(hold, EXTRA_THINK_ENDS[k]);
        FirstUnion(hold, [CLOSE] + EXTRA_THINK_ENDS[..k], EXTRA_THINK_ENDS[k]);
        assert [CLOSE] + EXTRA_THINK_ENDS[..k + 1] == [CLOSE] + EXTRA_THINK_ENDS[..k] + [EXTRA_THINK_ENDS[k]];
        found := Earlier(found, e);
        if e.Some? && (best.None? || e.value < best.value.0) { best := Some((e.value, false)); }
      }
      assert EXTRA_THINK_ENDS[..|EXTRA_THINK_ENDS|] == EXTRA_THINK_ENDS;
    }
    if best.Some? { OwnTag(hold, phase, i, best.value.0); }
  }

  lemma OwnTag(hold: string, phase: Phase, i: Option<nat>, b: nat)
    requires i == First(hold, [Tag(phase)]) && First(hold, Ends(phase)) == Some(b) && (i.Some? ==> b <= i.value)
    ensures i == Some(b) <==> At(hold, Tag(phase), b)
  {
    hide At, AnyAt, Tag;
    AnyOfOne(hold, Tag(phase), b);
    if i.Some? { AnyOfOne(hold, Tag(phase), i.value); }
  }

  /** `suffix_that_is_any_tag_prefix`: how much of the end could still become a marker. */
  method SuffixThatIsAnyTagPrefix(hay: string, phase: Phase) returns (keep: nat)
    ensures IsKeep(hay, Ends(phase), keep)
  {
    hide IsKeep;
    keep := SuffixThatIsTagPrefix(hay, Tag(phase));
    if phase.Think? {
      assert [CLOSE] + EXTRA_THINK_ENDS[..0] == [CLOSE];
      for k := 0 to |EXTRA_THINK_ENDS|
        invariant IsKeep(hay, [CLOSE] + EXTRA_THINK_ENDS[..k], keep)
      {
        var n := SuffixThatIsTagPrefix(hay, EXTRA_THINK_ENDS[k]);
        KeepUnion(hay, [CLOSE] + EXTRA_THINK_ENDS[..k], EXTRA_THINK_ENDS[k], keep, n);
        assert [CLOSE] + EXTRA_THINK_ENDS[..k + 1] == [CLOSE] + EXTRA_THINK_ENDS[..k] + [EXTRA_THINK_ENDS[k]];
        keep := Max(keep, n);
      }
      assert EXTRA_THINK_ENDS[..|EXTRA_THINK_ENDS|] == EXTRA_THINK_ENDS;
    }
  }

  // ---------------------------------------------------------------- the parser

  datatype Delta = Delta(reasoning: Option<string>, content: Option<string>) {
    /** Nothing is sent for an empty text. */
    predicate Tight() { reasoning != Some("") && content != Some("") }
  }

  function Out(d: Delta): Parts { Parts(Text(d.reasoning), Text(d.content)) }

  /** `out` and what is still held account for the text so far, whatever follows it; after a
    * flush nothing more may follow. */
  ghost predicate Drained(flush: bool, format: Format, phase0: Phase, text: string, out: Parts, phase: Phase, hold: string) {
    forall x :: (flush ==> x == "") ==> Split(format, phase0, text + x) == out.Plus(Split(format, phase, hold + x))
  }

  lemma NothingOut(flush: bool, format: Format, phase: Phase, text: string)
    ensures Drained(flush, format, phase, text, Parts("", ""), phase, text)
  {
  }

  lemma DrainMarker(flush: bool, format: Format, phase0: Phase, text: string, out: Parts, phase: Phase, hold: string, i: nat)
    requires Drained(flush, format, phase0, text, out, phase, hold)
    requires First(hold, Ends(phase)) == Some(i) && i <= |hold|
    ensures Drained(flush, format, phase0, text, out.Plus(Gone(format, phase, hold, i)), Other(phase), Behind(phase, hold, i))
  {
    hide Split, Gone, Behind, First, Ends;
    forall x | flush ==> x == ""
      ensures Split(format, phase0, text + x) ==
        out.Plus(Gone(format, phase, hold, i)).Plus(Split(format, Other(phase), Behind(phase, hold, i) + x))
    {
      MarkerStep(format, phase, hold, x, i);
      PlusAssoc(out, Gone(format, phase, hold, i), Split(format, Other(phase), Behind(phase, hold, i) + x));
    }
  }

  lemma DrainKeep(flush: bool, format: Format, phase0: Phase, text: string, out: Parts, phase: Phase, hold: string, keep: nat)
    requires Drained(flush, format, phase0, text, out, phase, hold)
    requires First(hold, Ends(phase)).None? && IsKeep(hold, Ends(phase), keep) && keep <= |hold|
    ensures Drained(flush, format, phase0, text, out.Plus(Emit(format, phase, hold[..|hold| - keep])), phase, hold[|hold| - keep..])
  {
    hide Split, Emit, First, Ends, IsKeep;
    var e := Emit(format, phase, hold[..|hold| - keep]);
    forall x | flush ==> x == ""
      ensures Split(format, phase0, text + x) == out.Plus(e).Plus(Split(format, phase, hold[|hold| - keep..] + x))
    {
      KeepStep(format, phase, hold, x, keep);
      PlusAssoc(out, e, Split(format, phase, hold[|hold| - keep..] + x));
    }
  }

  lemma DrainedSoFar(flush: bool, format: Format, phase0: Phase, text: string, out: Parts, phase: Phase, hold: string)
    requires Drained(flush, format, phase0, text, out, phase, hold)
    ensures Split(format, phase0, text) == out.Plus(Split(format, phase, hold))
  {
    hide Split;
    assert text + "" == text && hold + "" == hold;
    assert Split(format, phase0, text + "") == out.Plus(Split(format, phase, hold + ""));
  }

  lemma NothingSplit(format: Format, phase: Phase)
    ensures Split(format, phase, "") == Parts("", "")
  {
    NothingHeld(phase);
  }

  lemma DrainAll(format: Format, phase0: Phase, text: string, out: Parts, phase: Phase, hold: string)
    requires Drained(true, format, phase0, text, out, phase, hold) && First(hold, Ends(phase)).None?
    ensures Drained(true, format, phase0, text, out.Plus(Emit(format, phase, hold)), phase, "")
  {
    hide Split, Emit, First, Ends;
    DrainedSoFar(true, format, phase0, text, out, phase, hold);
    SplitNone(format, phase, hold);
    NothingSplit(format, phase);
    forall x | x == ""
      ensures Split(format, phase0, text + x) == out.Plus(Emit(format, phase, hold)).Plus(Split(format, phase, "" + x))
    {
      assert text + x == text && "" + x == "";
    }
  }

  lemma DrainEnds(flush: bool, format: Format, phase0: Phase, text: string, out: Parts, phase: Phase, hold: string)
    requires Drained(flush, format, phase0, text, out, phase, hold) && (flush ==> hold == "")
    ensures flush ==> out == Split(format, phase0, text)
  {
    DrainedSoFar(flush, format, phase0, text, out, phase, hold);
    NothingSplit(format, phase);
    hide Split;
  }

  /** `out` and what is still held account for the text so far, whatever follows it. */
  ghost predicate Accounted(format: Format, phase0: Phase, text: string, out: Parts, phase: Phase, hold: string) {
    forall x :: Whole(format, phase0, text + x) == out.Plus(Whole(format, phase, hold + x))
  }

  lemma AccountedNext(format: Format, phase0: Phase, text: string, out1: Parts, phase1: Phase, hold1: string,
                      piece: string, out2: Parts, phase2: Phase, hold2: string)
    requires Accounted(format, phase0, text, out1, phase1, hold1)
    requires Accounted(format, phase1, hold1 + piece, out2, phase2, hold2)
    ensures Accounted(format, phase0, text + piece, out1.Plus(out2), phase2, hold2)
  {
    hide Whole;
    forall x ensures Whole(format, phase0, text + piece + x) == out1.Plus(out2).Plus(Whole(format, phase2, hold2 + x)) {
      assert text + piece + x == text + (piece + x);
      assert hold1 + piece + x == hold1 + (piece + x);
      PlusAssoc(out1, out2, Whole(format, phase2, hold2 + x));
    }
  }

  lemma AccountedSoFar(format: Format, phase0: Phase, text: string, out: Parts, phase: Phase, hold: string)
    requires Accounted(format, phase0, text, out, phase, hold)
    ensures Whole(format, phase0, text) == out.Plus(Whole(format, phase, hold))
  {
    hide Whole;
    assert text + "" == text && hold + "" == hold;
    assert Whole(format, phase0, text + "") == out.Plus(Whole(format, phase, hold + ""));
  }

  lemma NothingAccounted(format: Format, phase: Phase, text: string)
    ensures Accounted(format, phase, text, Parts("", ""), phase, text)
  {
    hide Split;
  }

  lemma DrainedWhole(format: Format, phase0: Phase, text: string, out: Parts, phase: Phase, hold: string)
    requires !format.Verbatim? && Drained(false, format, phase0, text, out, phase, hold)
    ensures Accounted(format, phase0, text, out, phase, hold)
  {
    hide Split;
  }

  lemma VerbatimAccounted(phase: Phase, hold: string, piece: string)
    ensures hold == "" ==> Accounted(Verbatim, phase, hold + piece, Parts("", piece), phase, hold)
  {
  }

  lemma NothingHeld(phase: Phase)
    ensures First("", Ends(phase)).None? && IsKeep("", Ends(phase), 0)
  {
    EndsShort(phase);
  }

  lemma KeptSettled(h: string, ms: seq<string>, keep: nat)
    requires First(h, ms).None? && IsKeep(h, ms, keep) && keep <= |h|
    ensures First(h[|h| - keep..], ms).None? && IsKeep(h[|h| - keep..], ms, |h[|h| - keep..]|)
  {
    var e, y := h[..|h| - keep], h[|h| - keep..];
    assert h == e + y;
    forall j: nat | j <= |y| ensures !AnyAt(y, ms, j) {
      AnyAtShifts(e, y, ms, j);
    }
    assert y[|y| - keep..] == h[|h| - keep..];
  }

  lemma KeepFits(h: string, ms: seq<string>, keep: nat)
    requires IsKeep(h, ms, keep)
    ensures keep <= |h|
  {
  }

  lemma Shrinks(phase: Phase, hold: string, i: nat)
    requires First(hold, Ends(phase)) == Some(i) && i <= |hold|
    ensures |Behind(phase, hold, i)| < |hold| || phase.Think?
  {
    EndsShort(phase);
    EndsOfContent(hold, i);
  }

  /** Incremental splitter; a piece may end inside a tag. */
  class ReasoningParser {
    const format: Format
    var phase: Phase
    var hold: string

    /** Nothing is held but a proper head of a marker that could still complete. */
    ghost predicate Valid()
      reads this
    {
      if format.Verbatim? then hold == ""
      else First(hold, Ends(phase)).None? && IsKeep(hold, Ends(phase), |hold|)
    }

    constructor (format: Format, startInThink: bool)
      ensures Valid() && hold == "" && this.format == format
      ensures phase == FirstPhase(format, startInThink)
    {
      this.format, hold := format, "";
      phase := FirstPhase(format, startInThink);
      new;
      NothingHeld(phase);
    }

    /** The markers complete in `hold` are split out; of the rest, all but a possible head of a
      * marker goes out, or everything on `flush`. */
    method Drain(flush: bool) returns (d: Delta)
      requires !format.Verbatim?
      modifies this
      ensures Valid() && (flush ==> hold == "") && d.Tight()
      ensures flush ==> Out(d) == Split(format, old(phase), old(hold))
      ensures Drained(flush, format, old(phase), old(hold), Out(d), phase, hold)
    {
      hide Ends, Tag, First, Split, IsKeep, At, Drained, Gone, Emit, Behind;
      var out := Parts("", "");
      ghost var phase0, hold0 := phase, hold;
      NothingOut(flush, format, phase0, hold0);
      NothingHeld(phase);
      while hold != ""
        invariant Drained(flush, format, phase0, hold0, out, phase, hold)
        invariant hold == "" ==> Valid()
        decreases |hold|, if phase.Think? then 1 else 0
      {
        var marker := NextPhaseMarker(hold, phase);
        if marker.Some? {
          var i := marker.value.0;
          FirstInRange(hold, Ends(phase));
          DrainMarker(flush, format, phase0, hold0, out, phase, hold, i);
          out := out.Plus(Gone(format, phase, hold, i));
          Shrinks(phase, hold, i);
          phase, hold := Other(phase), Behind(phase, hold, i);
          NothingHeld(phase);
        } else if flush {
          DrainAll(format, phase0, hold0, out, phase, hold);
          out := out.Plus(Emit(format, phase, hold));
          hold := "";
          NothingHeld(phase);
        } else {
          var keep := SuffixThatIsAnyTagPrefix(hold, phase);
          KeepFits(hold, Ends(phase), keep);
          DrainKeep(flush, format, phase0, hold0, out, phase, hold, keep);
          out := out.Plus(Emit(format, phase, hold[..|hold| - keep]));
          KeptSettled(hold, Ends(phase), keep);
          hold := hold[|hold| - keep..];
          break;
        }
      }
      DrainEnds(flush, format, phase0, hold0, out, phase, hold);
      d := Delta(Nonempty(out.reasoning), Nonempty(out.content));
    }

    method Push(piece: string) returns (d: Delta)
      requires Valid()
      modifies this
      ensures Valid() && d.Tight()
      ensures Accounted(format, old(phase), old(hold) + piece, Out(d), phase, hold)
    {
      hide Split, Ends, First, IsKeep, Drained, Accounted, Whole;
      if piece == "" {
        assert hold + piece == hold;
        NothingAccounted(format, phase, hold);
        return Delta(None, None);
      }
      if format.Verbatim? {
        VerbatimAccounted(phase, hold, piece);
        return Delta(None, Some(piece));
      }
      hold := hold + piece;
      ghost var phase0, hold0 := phase, hold;
      d := Drain(false);
      DrainedWhole(format, phase0, hold0, Out(d), phase, hold);
    }

    method Finish() returns (d: Delta)
      requires Valid()
      modifies this
      ensures Valid() && hold == "" && d.Tight() && Out(d) == Whole(format, old(phase), old(hold))
    {
      if format.Verbatim? {
        d := Delta(None, Nonempty(hold));
        hold := "";
        return;
      }
      d := Drain(true);
    }
  }

  /** However a text is cut, pushing the pieces and finishing gives its one-pass split. */
  method Stream(format: Format, startInThink: bool, pieces: seq<string>) returns (out: Parts)
    ensures out == Whole(format, FirstPhase(format, startInThink), Concat(pieces))
    ensures !format.Deepseek? ==> out.content == Concat(pieces)
    ensures format.Verbatim? ==> out.reasoning == ""
    ensures !format.Verbatim? && !startInThink ==> forall r :: ReadsAs(format, Content, Concat(pieces), r, out)
    ensures !format.Verbatim? && startInThink ==> forall r :: ReadsAs(format, Think, Concat(pieces), r, out)
    ensures format.Deepseek? && !startInThink ==> forall c, t, rest :: ThoughtOut(Concat(pieces), c, t, rest, out)
  {
    hide Whole, Accounted, Concat, ReadsAs, ThoughtOut;
    var p := new ReasoningParser(format, startInThink);
    ghost var phase0 := p.phase;
    out := Parts("", "");
    NothingAccounted(format, phase0, "");
    NoPieces(pieces);
    for k := 0 to |pieces|
      invariant fresh(p) && p.Valid() && p.format == format
      invariant Accounted(format, phase0, Concat(pieces[..k]), out, p.phase, p.hold)
    {
      ghost var phase1, hold1, out1 := p.phase, p.hold, out;
      var d := p.Push(pieces[k]);
      out := out.Plus(Out(d));
      AccountedNext(format, phase0, Concat(pieces[..k]), out1, phase1, hold1, pieces[k], Out(d), p.phase, p.hold);
      ConcatNext(pieces, k);
    }
    assert pieces[..|pieces|] == pieces;
    AccountedSoFar(format, phase0, Concat(pieces), out, p.phase, p.hold);
    var d := p.Finish();
    out := out.Plus(Out(d));
    WholeReads(format, phase0, Concat(pieces));
  }

  lemma WholeReads(format: Format, phase: Phase, text: string)
    ensures !format.Deepseek? ==> Whole(format, phase, text).content == text
    ensures format.Verbatim? ==> Whole(format, phase, text).reasoning == ""
    ensures !format.Verbatim? ==> forall r :: ReadsAs(format, phase, text, r, Whole(format, phase, text))
    ensures format.Deepseek? && phase.Content? ==> forall c, t, rest :: ThoughtOut(text, c, t, rest, Whole(format, phase, text))
  {
    hide Split, ReadsAs, ThoughtOut;
    if format.Deepseek? { AllThoughtsOut(text); }
    if format.DeepseekLegacy? { LegacyKeepsEverything(phase, text); }
    if !format.Verbatim? { AllReadings(format, phase, text); }
  }
}
