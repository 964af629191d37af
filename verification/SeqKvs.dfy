/** One sequence of the GPU cache, reduced to the contract the scheduler sees. */
module SeqKvs {
  import opened Common

  /** The target model and the request's stopping rules, as functions of tokens. */
  datatype Model = Model(
    target: seq<Token> -> Token,   // history -> sampled token
    isEog: Token -> bool,          // end-of-generation ids
    decodable: Token -> bool,      // token_to_piece succeeds
    stops: seq<Token> -> bool      // a stop string shows up in the generated text
  )

  /** A host copy of a sequence: the tokens whose cells it holds, and its bytes. */
  datatype Dump = Dump(cells: seq<Token>, size: nat)

  /** `Engine` seen through one sequence id.
    *
    * `cells` are the tokens a query of the sequence length reports. `orphans` counts cells a
    * partial restore left behind past that length: they occupy the pool until a `RmFrom`.
    * Dumps, restores and removals may fail; on a `reliable` engine they succeed, and even there a
    * recurrent sequence refuses to shrink by more than `nRsSeq` cells.
    */
  class SeqKv {
    const model: Model
    const recurrent: bool
    const nRsSeq: nat
    const reliable: bool
    var cells: seq<Token>
    var orphans: nat
    /** Widest shrink asked of `RmFrom` so far. */
    ghost var widest: nat
    /** Length declared by the last restore, until the sequence is cleared. */
    ghost var restored: Option<nat>
    /** A removal cut below `restored`. */
    ghost var cutRestored: bool

    constructor (model: Model, recurrent: bool, nRsSeq: nat, reliable: bool)
      ensures this.model == model && this.recurrent == recurrent
      ensures this.nRsSeq == nRsSeq && this.reliable == reliable
      ensures cells == [] && orphans == 0 && restored.None? && !cutRestored && widest == 0
    {
      this.model, this.recurrent, this.nRsSeq, this.reliable := model, recurrent, nRsSeq, reliable;
      cells, orphans, restored, cutRestored, widest := [], 0, None, false, 0;
    }

    method NPast() returns (n: nat)
      ensures n == |cells|
    {
      n := |cells|;
    }

    method Clear()
      modifies this
      ensures cells == [] && orphans == 0
      ensures restored.None? && !cutRestored && widest == old(widest)
    {
      cells, orphans, restored, cutRestored := [], 0, None, false;
    }

    /** From here on, `restored` and `cutRestored` are about one bind. */
    ghost method BeginBind()
      modifies this`restored, this`cutRestored
      ensures restored.None? && !cutRestored
    {
      restored, cutRestored := None, false;
    }

    /** Removes every cell at position `p0` or later, or refuses and changes nothing. */
    method RmFrom(p0: nat) returns (ok: bool)
      modifies this
      ensures ok ==> cells == old(cells)[..Min(p0, |old(cells)|)] && orphans == 0
      ensures !ok ==> cells == old(cells) && orphans == old(orphans)
      ensures recurrent && |old(cells)| - p0 > nRsSeq ==> !ok
      ensures reliable && (!recurrent || |old(cells)| - p0 <= nRsSeq) ==> ok
      ensures widest == Max(old(widest), |old(cells)| - p0)
      ensures restored == old(restored)
      ensures cutRestored == (old(cutRestored) || (ok && restored.Some? && p0 < restored.value))
    {
      ok := *;
      if reliable { ok := true; }
      if recurrent && |cells| - p0 > nRsSeq { ok := false; }
      widest := Max(widest, |cells| - p0);
      if ok {
        cells, orphans := cells[..Min(p0, |cells|)], 0;
        cutRestored := cutRestored || (restored.Some? && p0 < restored.value);
      }
    }

    /** Same removal on the draft model's own cells, which nothing here depends on. */
    method SpecRmFrom(p0: nat) returns (ok: bool)
      ensures reliable ==> ok
    {
      ok := *;
      if reliable { ok := true; }
    }

    /** Partial dump of the sequence; nothing on failure. */
    method StateGet() returns (d: Option<Dump>)
      ensures d.Some? ==> d.value.cells == cells
      ensures reliable ==> d.Some? && d.value.size > 0
    {
      var fails: bool := *;
      var size :| 0 <= size;
      if reliable {
        return Some(Dump(cells, size + 1));
      }
      d := if fails then None else Some(Dump(cells, size));
    }

    /** Partial restore. A refused one leaves anything behind; an accepted one may come up
      * short and may leave orphaned cells past the reported length. */
    method StateSet(d: Dump) returns (ok: bool)
      modifies this
      ensures ok ==> d.size > 0 && cells <= d.cells && restored == Some(|d.cells|) && !cutRestored
      ensures reliable && d.size > 0 ==> ok && cells == d.cells
      ensures widest == old(widest)
    {
      ok := *;
      if reliable { ok := true; }
      if d.size == 0 { ok := false; }
      orphans := *;
      if ok {
        var n :| 0 <= n;
        cells := if reliable then d.cells else d.cells[..Min(n, |d.cells|)];
        restored, cutRestored := Some(|d.cells|), false;
      } else {
        cells := *;
      }
    }

    /** Full-state restore onto a cleared sequence: all of the dump or nothing usable, an
      * accepted one that reports no cells included. */
    method FullSet(d: Dump) returns (ok: bool)
      modifies this
      ensures ok && old(cells) == [] ==> cells == [] || (cells == d.cells && orphans == 0)
      ensures ok ==> d.size > 0 && restored == Some(|d.cells|) && !cutRestored
      ensures reliable && d.size > 0 && old(cells) == [] ==> ok && cells == d.cells
      ensures widest == old(widest)
    {
      ok := *;
      if reliable { ok := true; }
      if d.size == 0 { ok := false; }
      if ok && cells == [] {
        var empty: bool := *;
        cells := if empty && !reliable then [] else d.cells;
        orphans, restored, cutRestored := 0, Some(|d.cells|), false;
      } else {
        cells, orphans := *, *;
        restored, cutRestored := Some(|d.cells|), false;
      }
    }

    /** One decode call: the tokens land after the resident cells, and row `i` is sampled from
      * the history that ends with token `i`. Positions that do not continue the sequence are
      * outside the engine's contract and leave anything behind. */
    method DecodeAndSample(pos: nat, toks: seq<Token>) returns (samples: seq<Token>)
      modifies this`cells
      ensures pos == old(|cells|) && orphans == 0 ==> cells == old(cells) + toks
      ensures pos == old(|cells|) && orphans == 0 ==>
        samples == Rows(model, old(cells), toks)
      ensures |samples| == |toks|
    {
      if pos == |cells| && orphans == 0 {
        samples := Rows(model, cells, toks);
        cells := cells + toks;
      } else {
        cells := *;
        samples := seq(|toks|, i => 0);
      }
    }
  }

  /** Sampled token of every row of a batch that extends `hist` by `toks`. */
  function Rows(m: Model, hist: seq<Token>, toks: seq<Token>): (r: seq<Token>)
    ensures |r| == |toks|
  {
    if toks == [] then [] else Rows(m, hist, toks[..|toks| - 1]) + [m.target(hist + toks)]
  }

  /** Row `i` never sees a token behind it in the batch. */
  lemma {:induction false} RowAt(m: Model, hist: seq<Token>, toks: seq<Token>, i: nat)
    requires i < |toks|
    ensures Rows(m, hist, toks)[i] == m.target(hist + toks[..i + 1])
  {
    var k := |toks| - 1;
    if i < k {
      RowAt(m, hist, toks[..k], i);
      assert toks[..k][..i + 1] == toks[..i + 1];
    } else {
      assert toks[..i + 1] == toks;
    }
  }
}
