/** Decoding UTF-8 that arrives in pieces cut anywhere (section 4 of RFC 3629). */
module Utf8Stream {
  import opened Common

  /** A Unicode scalar value. */
  type Scalar = nat

  const REPLACEMENT: Scalar := 0xFFFD

  predicate Tail(b: Byte) { 0x80 <= b <= 0xBF }

  /** Bytes of a character with this first byte; 0 for a byte that starts none. */
  function CharLen(lead: Byte): nat {
    if lead <= 0x7F then 1
    else if 0xC2 <= lead <= 0xDF then 2
    else if 0xE0 <= lead <= 0xEF then 3
    else if 0xF0 <= lead <= 0xF4 then 4
    else 0
  }

  /** Second bytes allowed after a first one: no overlong forms, no surrogates, nothing past U+10FFFF. */
  predicate SecondFits(lead: Byte, b: Byte) {
    if lead == 0xE0 then 0xA0 <= b <= 0xBF
    else if lead == 0xED then 0x80 <= b <= 0x9F
    else if lead == 0xF0 then 0x90 <= b <= 0xBF
    else if lead == 0xF4 then 0x80 <= b <= 0x8F
    else Tail(b)
  }

  /** How many of the first `n` bytes of `b` go together as one character or its head. */
  function Fitting(b: Bytes): (k: nat)
    requires b != []
    ensures k <= |b| && k <= CharLen(b[0])
    ensures CharLen(b[0]) > 0 ==> k > 0
  {
    var n := CharLen(b[0]);
    if n == 0 then 0
    else if n == 1 || |b| == 1 || !SecondFits(b[0], b[1]) then 1
    else if n == 2 || |b| == 2 || !Tail(b[2]) then 2
    else if n == 3 || |b| == 3 || !Tail(b[3]) then 3
    else 4
  }

  predicate StartsWithChar(b: Bytes) { b != [] && CharLen(b[0]) > 0 && Fitting(b) == CharLen(b[0]) }

  /** A head of one character that more bytes could complete. */
  predicate IsOpen(b: Bytes) { b != [] && Fitting(b) == |b| < CharLen(b[0]) }

  /** The scalar encoded by a character. */
  function DecodeChar(b: Bytes): Scalar
    requires StartsWithChar(b)
  {
    var n := CharLen(b[0]);
    if n == 1 then b[0]
    else if n == 2 then 64 * (b[0] as int - 0xC0) + (b[1] as int - 0x80)
    else if n == 3 then 4096 * (b[0] as int - 0xE0) + 64 * (b[1] as int - 0x80) + (b[2] as int - 0x80)
    else 262144 * (b[0] as int - 0xF0) + 4096 * (b[1] as int - 0x80) + 64 * (b[2] as int - 0x80) + (b[3] as int - 0x80)
  }

  /** The bytes behind the first character. */
  function Behind(b: Bytes): (r: Bytes)
    requires StartsWithChar(b)
    ensures |r| < |b|
  {
    b[CharLen(b[0])..]
  }

  /** Length of the longest head made of whole characters. */
  function ValidUpTo(b: Bytes): (v: nat)
    ensures v <= |b|
    decreases |b|
  {
    if !StartsWithChar(b) then 0 else |b| - |Behind(b)| + ValidUpTo(Behind(b))
  }

  /** What is left behind the whole characters. */
  function Held(b: Bytes): Bytes { b[ValidUpTo(b)..] }

  predicate ValidUtf8(b: Bytes) { ValidUpTo(b) == |b| }

  /** The text of the whole characters at the head of `b`. */
  function Decode(b: Bytes): seq<Scalar>
    decreases |b|
  {
    if !StartsWithChar(b) then [] else [DecodeChar(b)] + Decode(Behind(b))
  }

  // ---------------------------------------------------------------- more bytes

  lemma CharStays(b: Bytes, x: Bytes)
    requires StartsWithChar(b)
    ensures StartsWithChar(b + x) && DecodeChar(b + x) == DecodeChar(b) && Behind(b + x) == Behind(b) + x
  {
    assert (b + x)[0] == b[0];
    assert (b + x)[CharLen(b[0])..] == b[CharLen(b[0])..] + x;
  }

  lemma HeldBehind(b: Bytes)
    ensures StartsWithChar(b) ==> Held(b) == Held(Behind(b))
    ensures !StartsWithChar(b) ==> Held(b) == b && ValidUpTo(b) == 0
  {
  }

  /** A head of whole characters reads the same in a longer text. */
  lemma {:induction false} PrefixReads(b: Bytes, x: Bytes)
    ensures ValidUpTo(b + x) == ValidUpTo(b) + ValidUpTo(Held(b) + x)
    ensures Held(b + x) == Held(Held(b) + x)
    ensures Decode(b + x) == Decode(b) + Decode(Held(b) + x)
    decreases |b|
  {
    hide StartsWithChar, DecodeChar, Behind, Held;
    HeldBehind(b);
    if StartsWithChar(b) {
      CharStays(b, x);
      HeldBehind(b + x);
      PrefixReads(Behind(b), x);
    }
  }

  /** Decoding a text is decoding its whole characters. */
  lemma DecodeWhole(b: Bytes)
    ensures Decode(b[..ValidUpTo(b)]) == Decode(b)
    decreases |b|
  {
    if StartsWithChar(b) {
      var c, v := b[..CharLen(b[0])], ValidUpTo(b);
      DecodeWhole(Behind(b));
      assert b[..v] == c + Behind(b)[..ValidUpTo(Behind(b))];
      CharAlone(b);
      CharStays(c, Behind(b)[..ValidUpTo(Behind(b))]);
      assert Behind(c) == [];
      assert Behind(b[..v]) == Behind(b)[..ValidUpTo(Behind(b))];
    }
  }

  lemma CharAlone(b: Bytes)
    requires StartsWithChar(b)
    ensures StartsWithChar(b[..CharLen(b[0])]) && DecodeChar(b[..CharLen(b[0])]) == DecodeChar(b)
  {
  }

  /** What a cut leaves behind the last whole character of a valid text is a head of the next one. */
  lemma {:induction false} CutIsOpen(b: Bytes, x: Bytes)
    requires ValidUtf8(b + x)
    ensures Held(b) == [] || IsOpen(Held(b))
    decreases |b|
  {
    HeldBehind(b);
    if StartsWithChar(b) {
      CharStays(b, x);
      hide StartsWithChar, DecodeChar, Behind, Held, IsOpen;
      CutIsOpen(Behind(b), x);
    } else if b != [] {
      assert StartsWithChar(b + x);
      assert (b + x)[0] == b[0];
    }
  }

  /** `error_len`: how many bytes of a broken character cannot be completed; none if more could. */
  function ErrorLen(b: Bytes): Option<nat>
    requires b != [] && !StartsWithChar(b)
  {
    if IsOpen(b) then None else Some(Max(Fitting(b), 1))
  }

  /** `from_utf8_lossy`: each broken character, or head of one, becomes one replacement. */
  function Lossy(b: Bytes): seq<Scalar>
    decreases |b|
  {
    if b == [] then []
    else if StartsWithChar(b) then [DecodeChar(b)] + Lossy(Behind(b))
    else if ErrorLen(b).None? then [REPLACEMENT]
    else [REPLACEMENT] + Lossy(b[ErrorLen(b).value..])
  }

  /** What `take_valid` gives for a buffer: bytes that start no character are replaced one by one,
    * and whole characters are taken up to the next break. */
  function Taken(b: Bytes): (seq<Scalar>, Bytes)
    decreases |b|
  {
    var v := ValidUpTo(b);
    if v == |b| then (Decode(b), [])
    else if v > 0 then (Decode(b[..v]), b[v..])
    else if ErrorLen(b).None? then ([], b)
    else
      var r := Taken(b[1..]);
      ([REPLACEMENT] + r.0, r.1)
  }

  /** As long as nothing broken is in the buffer, whole characters go out and a head stays. */
  lemma TakenOpen(b: Bytes)
    requires Held(b) == [] || IsOpen(Held(b))
    ensures Taken(b) == (Decode(b), Held(b))
  {
    DecodeWhole(b);
    HeldBehind(b);
    NoChar(b);
    hide Decode, StartsWithChar;
  }

  lemma NoChar(b: Bytes)
    ensures ValidUpTo(b) == 0 ==> !StartsWithChar(b) && Decode(b) == [] && Held(b) == b
  {
  }

  /** Whatever is broken in the buffer, nothing but a head that could still be completed keeps it from
    * giving something out. */
  lemma TakenMoves(b: Bytes)
    ensures Taken(b).0 == [] ==> Taken(b).1 == [] || IsOpen(Taken(b).1)
  {
    NoChar(b);
    if 0 < ValidUpTo(b) < |b| {
      assert StartsWithChar(b);
      DecodeWhole(b);
    }
  }

  /** A head that is never completed becomes one replacement. */
  lemma OpenIsReplaced(b: Bytes)
    requires IsOpen(b)
    ensures Lossy(b) == [REPLACEMENT]
  {
  }

  /** After a part of a text: its whole characters are out, and at most the head of one is held. */
  ghost predicate SoFar(text: Bytes, out: seq<Scalar>, buf: Bytes) {
    && out == Decode(text) && buf == Held(text)
    && (buf == [] || (IsOpen(buf) && |buf| <= 3))
  }

  /** A text that can be completed to valid UTF-8. */
  ghost predicate HeadOfText(text: Bytes) { exists x: Bytes :: ValidUtf8(text + x) }

  class Utf8Buf {
    var buf: Bytes
    /** Everything pushed, and everything handed out for it. */
    ghost var text: Bytes
    ghost var out: seq<Scalar>

    /** The characters of the text are out but for the head of one, of at most three bytes. */
    ghost predicate Whole()
      reads this
    {
      SoFar(text, out, buf)
    }

    constructor ()
      ensures Whole() && text == [] && out == []
    {
      buf, text, out := [], [], [];
    }

    method TakeValid() returns (s: seq<Scalar>)
      modifies this`buf
      ensures (s, buf) == Taken(old(buf))
      decreases |buf|
    {
      var v := ValidUpTo(buf);
      if v == |buf| {
        s := Decode(buf);
        buf := [];
      } else if v == 0 {
        if ErrorLen(buf).Some? {
          buf := buf[1..];
          var rest := TakeValid();
          s := [REPLACEMENT] + rest;
        } else {
          s := [];
        }
      } else {
        s := Decode(buf[..v]);
        buf := buf[v..];
      }
    }

    /** However the text is cut, its characters come out whole and in order as long as it can still
      * become valid UTF-8; broken bytes are replaced as `Taken` says. */
    method Push(bytes: Bytes) returns (s: seq<Scalar>)
      modifies this
      ensures text == old(text) + bytes && out == old(out) + s
      ensures old(Whole()) && HeadOfText(text) ==> Whole()
      ensures (s, buf) == Taken(old(buf) + bytes)
      ensures s == [] ==> buf == [] || IsOpen(buf)
    {
      TakenMoves(buf + bytes);
      hide Taken, SoFar, HeadOfText;
      buf := buf + bytes;
      s := TakeValid();
      if old(Whole()) && HeadOfText(text + bytes) { Continues(text, bytes, out, old(buf)); }
      text, out := text + bytes, out + s;
    }

    /** Nothing is left to replace after a whole text, and one character after a cut one. */
    method Flush() returns (s: seq<Scalar>)
      modifies this
      ensures buf == [] && text == old(text) && out == old(out) + s && s == Lossy(old(buf))
      ensures old(Whole()) && ValidUtf8(text) ==> s == [] && out == Decode(text)
      ensures old(Whole()) && !ValidUtf8(text) ==> s == [REPLACEMENT] && out == Decode(text) + [REPLACEMENT]
    {
      if Whole() && !ValidUtf8(text) { CutOff(text, out, buf); }
      if Whole() && ValidUtf8(text) { AllOut(text, out, buf); }
      hide Lossy;
      s := Lossy(buf);
      buf, out := [], out + s;
    }
  }

  lemma {:induction false} ConcatSplit(pieces: seq<Bytes>, k: nat) returns (rest: Bytes)
    requires k <= |pieces|
    ensures Concat(pieces) == Concat(pieces[..k]) + rest
  {
    if k == |pieces| {
      rest := [];
      assert pieces[..k] == pieces;
    } else {
      var n := |pieces| - 1;
      var r := ConcatSplit(pieces[..n], k);
      assert pieces[..n][..k] == pieces[..k];
      rest := r + pieces[n];
    }
  }

  /** However valid UTF-8 is cut, the pushes and the flush give its text. */
  method Stream(pieces: seq<Bytes>) returns (out: seq<Scalar>)
    requires ValidUtf8(Concat(pieces))
    ensures out == Decode(Concat(pieces))
  {
    hide ValidUtf8, Decode, SoFar, Taken, Lossy, Concat, HeadOfText;
    var u := new Utf8Buf();
    out := [];
    NoPieces(pieces);
    for k := 0 to |pieces|
      invariant fresh(u) && u.Whole() && u.text == Concat(pieces[..k]) && u.out == out
    {
      ConcatNext(pieces, k);
      PartIsHead(pieces, k + 1);
      var s := u.Push(pieces[k]);
      out := out + s;
    }
    assert pieces[..|pieces|] == pieces;
    var s := u.Flush();
    out := out + s;
  }

  lemma PartIsHead(pieces: seq<Bytes>, k: nat)
    requires k <= |pieces| && ValidUtf8(Concat(pieces))
    ensures HeadOfText(Concat(pieces[..k]))
  {
    var rest := ConcatSplit(pieces, k);
  }

  lemma AllOut(text: Bytes, out: seq<Scalar>, buf: Bytes)
    requires ValidUtf8(text) && SoFar(text, out, buf)
    ensures buf == [] && out == Decode(text) && Lossy([]) == []
  {
  }

  lemma CutOff(text: Bytes, out: seq<Scalar>, buf: Bytes)
    requires !ValidUtf8(text) && SoFar(text, out, buf)
    ensures out == Decode(text) && Lossy(buf) == [REPLACEMENT]
  {
    hide Lossy, Decode;
    OpenIsReplaced(buf);
  }

  /** One push in the middle of a text. */
  lemma Continues(before: Bytes, piece: Bytes, out: seq<Scalar>, buf: Bytes)
    requires HeadOfText(before + piece) && SoFar(before, out, buf)
    ensures SoFar(before + piece, out + Taken(buf + piece).0, Taken(buf + piece).1)
  {
    hide Decode, ValidUpTo, Held, Taken;
    var rest: Bytes :| ValidUtf8(before + piece + rest);
    PrefixReads(before, piece);
    CutIsOpen(before + piece, rest);
    TakenOpen(buf + piece);
  }

  // ---------------------------------------------------------------- the encoding

  predicate IsScalar(s: Scalar) { s <= 0xD7FF || 0xE000 <= s <= 0x10FFFF }

  /** The encoding of one scalar value (section 3 of RFC 3629). */
  function EncodeChar(s: Scalar): Bytes
    requires IsScalar(s)
  {
    if s <= 0x7F then [s]
    else if s <= 0x7FF then [0xC0 + s / 64, 0x80 + s % 64]
    else if s <= 0xFFFF then [0xE0 + s / 64 / 64, 0x80 + s / 64 % 64, 0x80 + s % 64]
    else [0xF0 + s / 64 / 64 / 64, 0x80 + s / 64 / 64 % 64, 0x80 + s / 64 % 64, 0x80 + s % 64]
  }

  lemma EncodedChar(s: Scalar)
    requires IsScalar(s)
    ensures StartsWithChar(EncodeChar(s)) && DecodeChar(EncodeChar(s)) == s && Behind(EncodeChar(s)) == []
  {
    var q1, q2, q3 := s / 64, s / 64 / 64, s / 64 / 64 / 64;
    assert s == 64 * q1 + s % 64 && q1 == 64 * q2 + q1 % 64 && q2 == 64 * q3 + q2 % 64;
    if s > 0xFFFF {
      FourBytes(q3, q2 % 64, q1 % 64, s % 64);
    } else if s > 0x7FF {
      ThreeBytes(q2, q1 % 64, s % 64);
    }
  }

  lemma FourBytes(a: nat, b: nat, c: nat, d: nat)
    requires b < 64 && c < 64 && d < 64 && 0xFFFF < 262144 * a + 4096 * b + 64 * c + d <= 0x10FFFF
    ensures a <= 4
    ensures var e: Bytes := [0xF0 + a, 0x80 + b, 0x80 + c, 0x80 + d];
      StartsWithChar(e) && Behind(e) == [] && DecodeChar(e) == 262144 * a + 4096 * b + 64 * c + d
  {
  }

  lemma ThreeBytes(a: nat, b: nat, c: nat)
    requires b < 64 && c < 64 && 0x7FF < 4096 * a + 64 * b + c <= 0xFFFF && IsScalar(4096 * a + 64 * b + c)
    ensures a <= 15
    ensures var e: Bytes := [0xE0 + a, 0x80 + b, 0x80 + c];
      StartsWithChar(e) && Behind(e) == [] && DecodeChar(e) == 4096 * a + 64 * b + c
  {
  }

  function Encode(t: seq<Scalar>): Bytes
    requires forall i :: 0 <= i < |t| ==> IsScalar(t[i])
  {
    if t == [] then [] else EncodeChar(t[0]) + Encode(t[1..])
  }

  /** Encoded text is valid and decodes to itself. */
  lemma {:induction false} EncodeRoundTrip(t: seq<Scalar>)
    requires forall i :: 0 <= i < |t| ==> IsScalar(t[i])
    ensures ValidUtf8(Encode(t)) && Decode(Encode(t)) == t
  {
    if t != [] {
      EncodedChar(t[0]);
      EncodeRoundTrip(t[1..]);
      CharStays(EncodeChar(t[0]), Encode(t[1..]));
      hide StartsWithChar, DecodeChar, EncodeChar;
      assert Behind(Encode(t)) == Encode(t[1..]);
    }
  }

  lemma TwoParts(a: nat, b: nat)
    requires b < 64
    ensures (64 * a + b) / 64 == a && (64 * a + b) % 64 == b
  {
  }

  lemma ThreeParts(a: nat, b: nat, c: nat)
    requires b < 64 && c < 64
    ensures var s := 4096 * a + 64 * b + c; s / 64 / 64 == a && s / 64 % 64 == b && s % 64 == c
  {
    TwoParts(a, b);
    TwoParts(64 * a + b, c);
  }

  lemma FourParts(a: nat, b: nat, c: nat, d: nat)
    requires b < 64 && c < 64 && d < 64
    ensures var s := 262144 * a + 4096 * b + 64 * c + d;
      s / 64 / 64 / 64 == a && s / 64 / 64 % 64 == b && s / 64 % 64 == c && s % 64 == d
  {
    ThreeParts(a, b, c);
    TwoParts(4096 * a + 64 * b + c, d);
  }

  lemma BytesTwo(x: Byte, y: Byte)
    requires 0xC2 <= x <= 0xDF && Tail(y)
    ensures var s: nat := 64 * (x as int - 0xC0) + (y as int - 0x80); IsScalar(s) && EncodeChar(s) == [x, y]
  {
    TwoParts(x as int - 0xC0, y as int - 0x80);
  }

  lemma BytesThree(x: Byte, y: Byte, z: Byte)
    requires 0xE0 <= x <= 0xEF && SecondFits(x, y) && Tail(z)
    ensures var s: nat := 4096 * (x as int - 0xE0) + 64 * (y as int - 0x80) + (z as int - 0x80);
      IsScalar(s) && EncodeChar(s) == [x, y, z]
  {
    ThreeParts(x as int - 0xE0, y as int - 0x80, z as int - 0x80);
  }

  lemma BytesFour(x: Byte, y: Byte, z: Byte, w: Byte)
    requires 0xF0 <= x <= 0xF4 && SecondFits(x, y) && Tail(z) && Tail(w)
    ensures var s: nat := 262144 * (x as int - 0xF0) + 4096 * (y as int - 0x80) + 64 * (z as int - 0x80) + (w as int - 0x80);
      IsScalar(s) && EncodeChar(s) == [x, y, z, w]
  {
    FourParts(x as int - 0xF0, y as int - 0x80, z as int - 0x80, w as int - 0x80);
  }

  /** A character is the encoding of the scalar value it decodes to. */
  lemma DecodedChar(b: Bytes)
    requires StartsWithChar(b)
    ensures IsScalar(DecodeChar(b)) && EncodeChar(DecodeChar(b)) + Behind(b) == b
  {
    var n := CharLen(b[0]);
    hide EncodeChar, IsScalar;
    CharBytes(b);
    assert b == b[..n] + b[n..];
  }

  lemma CharBytes(b: Bytes)
    requires StartsWithChar(b)
    ensures IsScalar(DecodeChar(b)) && EncodeChar(DecodeChar(b)) == b[..CharLen(b[0])]
  {
    var n := CharLen(b[0]);
    if n == 1 {
      assert EncodeChar(b[0]) == [b[0]];
    } else {
      hide EncodeChar, IsScalar;
      if n == 2 { BytesTwo(b[0], b[1]); } else if n == 3 { BytesThree(b[0], b[1], b[2]); } else { BytesFour(b[0], b[1], b[2], b[3]); }
    }
  }

  /** And valid bytes are the encoding of what they decode to, so a text has one encoding. */
  lemma {:induction false} DecodeRoundTrip(b: Bytes)
    requires ValidUtf8(b)
    ensures (forall i :: 0 <= i < |Decode(b)| ==> IsScalar(Decode(b)[i])) && Encode(Decode(b)) == b
    decreases |b|
  {
    if b != [] {
      DecodedChar(b);
      DecodeRoundTrip(Behind(b));
      hide StartsWithChar, DecodeChar, EncodeChar, Behind;
      assert Decode(b)[1..] == Decode(Behind(b));
    }
  }
}
