/** Holding a tool-call block back from streamed prose. */
module ToolCalls {
  import opened Common
  import opened Markers

  const START_MARKERS: seq<string> := [
    "<\U{FF5C}DSML\U{FF5C}tool_calls>",
    "<\U{FF5C}DSML\U{FF5C}function_calls>",
    "<\U{FF5C}DSML\U{FF5C}invoke",
    "<tool_call>",
    "<tools_call>",
    "<function=",
    "<|tool\U{2581}calls\U{2581}begin|>",
    "[tool_call"
  ]

  /** Neither bracket occurs behind the first character. */
  ghost predicate Opened(m: string) {
    |m| > 0 && (m[0] == '<' || m[0] == '[') && forall k :: 0 < k < |m| ==> m[k] != '<' && m[k] != '['
  }

  lemma MarkerOpened(a: nat)
    requires a < |START_MARKERS|
    ensures Opened(START_MARKERS[a])
  {
  }

  lemma StartsAreSeparated()
    ensures Separated(START_MARKERS)
  {
    forall a | 0 <= a < |START_MARKERS| ensures Opened(START_MARKERS[a]) { MarkerOpened(a); }
  }

  /** What the parser is after any text: prose up to the first marker has gone out and the rest
    * is held; without a marker only the longest head of one is held. */
  ghost predicate Represents(text: string, prose: string, hold: string, inBlock: bool) {
    && text == prose + hold
    && (inBlock <==> First(text, START_MARKERS).Some?)
    && (inBlock ==> |prose| == First(text, START_MARKERS).value)
    && (!inBlock ==> IsKeep(text, START_MARKERS, |hold|))
  }

  /** So the text alone determines what went out and what is held. */
  lemma RepresentsIsUnique(text: string, prose: string, hold: string, inBlock: bool, prose': string, hold': string, inBlock': bool)
    requires Represents(text, prose, hold, inBlock) && Represents(text, prose', hold', inBlock')
    ensures prose == prose' && hold == hold' && inBlock == inBlock'
  {
    if !inBlock { KeepIsUnique(text, START_MARKERS, |hold|, |hold'|); }
    assert prose == text[..|prose|] && prose' == text[..|prose'|];
    assert hold == text[|prose|..] && hold' == text[|prose'|..];
  }

  /** `find_start`: earliest start of any marker. */
  method FindStart(text: string) returns (best: Option<nat>)
    ensures best == First(text, START_MARKERS)
  {
    best := None;
    NoMarkers(text);
    for k := 0 to |START_MARKERS|
      invariant best == First(text, START_MARKERS[..k])
    {
      hide First;
      var i := Find(text, START_MARKERS[k]);
      FirstUnion(text, START_MARKERS[..k], START_MARKERS[k]);
      assert START_MARKERS[..k + 1] == START_MARKERS[..k] + [START_MARKERS[k]];
      best := Earlier(best, i);
    }
    assert START_MARKERS[..|START_MARKERS|] == START_MARKERS;
  }

  lemma NoMarkers(text: string)
    ensures First(text, START_MARKERS[..0]).None? && IsKeep(text, START_MARKERS[..0], 0)
  {
  }

  /** `longest_start_prefix`: how much of the end could still become a marker. */
  method LongestStartPrefix(hay: string) returns (keep: nat)
    ensures IsKeep(hay, START_MARKERS, keep)
  {
    hide IsKeep;
    keep := 0;
    NoMarkers(hay);
    for k := 0 to |START_MARKERS|
      invariant IsKeep(hay, START_MARKERS[..k], keep)
    {
      var n := SuffixThatIsTagPrefix(hay, START_MARKERS[k]);
      KeepUnion(hay, START_MARKERS[..k], START_MARKERS[k], keep, n);
      assert START_MARKERS[..k + 1] == START_MARKERS[..k] + [START_MARKERS[k]];
      keep := Max(keep, n);
    }
    assert START_MARKERS[..|START_MARKERS|] == START_MARKERS;
  }

  lemma StepInBlock(text: string, prose: string, hold: string, piece: string)
    requires Represents(text, prose, hold, true)
    ensures Represents(text + piece, prose, hold + piece, true)
  {
    hide First, Separated, IsKeep;
    StartsAreSeparated();
    FirstStays(text, piece, START_MARKERS);
    assert text + piece == prose + (hold + piece);
  }

  lemma StepFound(text: string, prose: string, hold: string, piece: string, i: nat)
    requires Represents(text, prose, hold, false) && First(hold + piece, START_MARKERS) == Some(i) && i <= |hold + piece|
    ensures Represents(text + piece, prose + (hold + piece)[..i], (hold + piece)[i..], true)
  {
    hide First, IsKeep, Separated;
    assert hold == text[|text| - |hold|..];
    FirstInKept(text, piece, START_MARKERS, |hold|);
    assert hold + piece == (hold + piece)[..i] + (hold + piece)[i..];
    assert text + piece == prose + (hold + piece);
    assert First(text + piece, START_MARKERS) == Some(|prose| + i);
    assert |prose + (hold + piece)[..i]| == |prose| + i;
  }

  lemma StepKept(text: string, prose: string, hold: string, piece: string, keep: nat)
    requires Represents(text, prose, hold, false) && First(hold + piece, START_MARKERS).None?
    requires IsKeep(hold + piece, START_MARKERS, keep) && keep <= |hold + piece|
    ensures Represents(text + piece, prose + (hold + piece)[..|hold + piece| - keep], (hold + piece)[|hold + piece| - keep..], false)
  {
    hide First, Separated, IsKeep;
    var cut := |hold + piece| - keep;
    assert hold == text[|text| - |hold|..];
    FirstInKept(text, piece, START_MARKERS, |hold|);
    KeepOfKept(text, piece, START_MARKERS, |hold|, keep);
    assert hold + piece == (hold + piece)[..cut] + (hold + piece)[cut..];
    assert text + piece == prose + (hold + piece);
    assert |(hold + piece)[cut..]| == keep;
    assert First(text + piece, START_MARKERS).None?;
  }

  /** Streams prose and holds a tool-call block until the end. */
  class ToolCallParser {
    var hold: string
    var inBlock: bool
    /** Everything pushed, and everything that went out. */
    ghost var pushed: string
    ghost var prose: string

    ghost predicate Valid()
      reads this
    {
      Represents(pushed, prose, hold, inBlock)
    }

    constructor ()
      ensures Valid() && pushed == prose == ""
    {
      hold, inBlock, pushed, prose := "", false, "", "";
      new;
      StartsAreSeparated();
    }

    method Push(piece: string) returns (out: Option<string>)
      requires Valid()
      modifies this
      ensures Valid() && pushed == old(pushed) + piece && prose == old(prose) + Text(out) && out != Some("")
    {
      hide Represents, First, IsKeep;
      if piece == "" {
        assert pushed + piece == pushed && prose + "" == prose;
        return None;
      }
      ghost var text, hold0, prose0 := pushed, hold, prose;
      hold, pushed := hold + piece, pushed + piece;
      if inBlock {
        StepInBlock(text, prose, hold0, piece);
        assert prose + "" == prose;
        return None;
      }
      var start := FindStart(hold);
      if start.Some? {
        var i := start.value;
        FirstFits(hold);
        StepFound(text, prose, hold0, piece, i);
        out := Nonempty(hold[..i]);
        prose, hold, inBlock := prose + hold[..i], hold[i..], true;
        return;
      }
      var keep := LongestStartPrefix(hold);
      KeepFits(hold, keep);
      StepKept(text, prose, hold0, piece, keep);
      out := Nonempty(hold[..|hold| - keep]);
      prose, hold := prose + hold[..|hold| - keep], hold[|hold| - keep..];
    }

    /** The held block, for the tool-call grammar. */
    method Finish() returns (rest: string)
      requires Valid()
      modifies this
      ensures rest == old(hold) && hold == "" && !inBlock && pushed == old(pushed) && prose == old(prose)
      ensures Represents(pushed, prose, rest, old(inBlock))
    {
      rest := hold;
      hold, inBlock := "", false;
    }
  }

  lemma FirstFits(text: string)
    ensures First(text, START_MARKERS).Some? ==> First(text, START_MARKERS).value <= |text|
  {
  }

  lemma KeepFits(text: string, keep: nat)
    requires IsKeep(text, START_MARKERS, keep)
    ensures keep <= |text|
  {
  }

  /** However a text is cut, the prose is what stands before the first tool-call marker and the
    * block is the rest; without one, prose and held tail make up the text. */
  method Stream(pieces: seq<string>) returns (prose: string, block: string)
    ensures prose + block == Concat(pieces)
    ensures var i := First(Concat(pieces), START_MARKERS);
      if i.Some? then |prose| == i.value else IsKeep(Concat(pieces), START_MARKERS, |block|)
  {
    var p := new ToolCallParser();
    prose := "";
    for k := 0 to |pieces|
      invariant fresh(p) && p.Valid() && p.pushed == Concat(pieces[..k]) && prose == p.prose
    {
      hide Represents, First, IsKeep;
      var out := p.Push(pieces[k]);
      prose := prose + Text(out);
      ConcatNext(pieces, k);
    }
    assert pieces[..|pieces|] == pieces;
    block := p.Finish();
  }
}
