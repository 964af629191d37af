/** Bytes of one disk-tier entry: `GBPK`, version, fingerprint, lengths, key, data. */
module DiskCodec {
  import opened Common

  datatype Result<+T> = Ok(value: T) | Err(why: ReadError)

  datatype ReadError = UnexpectedEof | BadMagic | UnsupportedVersion | BadKeyLength | BadDataLength

  const DISK_MAGIC: Bytes := [0x47, 0x42, 0x50, 0x4B]
  const DISK_VERSION: nat := 2
  const DISK_HEADER_FIXED: nat := 24
  const DISK_MAX_KEY_TOKENS: nat := 4_000_000
  const DISK_MAX_DATA_BYTES: nat := 64 * 1024 * 1024 * 1024

  datatype DiskHeader = DiskHeader(fpHash: nat, nTokens: nat, key: seq<Token>, dataLen: nat)

  // ---------------------------------------------------------------- little-endian integers

  function Pow256(w: nat): nat {
    if w == 0 then 1 else 256 * Pow256(w - 1)
  }

  /** The low `w` bytes of `n`, least significant first. */
  function ToLe(n: nat, w: nat): (b: Bytes)
    ensures |b| == w
  {
    if w == 0 then [] else [n % 256] + ToLe(n / 256, w - 1)
  }

  function FromLe(b: Bytes): nat {
    if b == [] then 0 else b[0] + 256 * FromLe(b[1..])
  }

  lemma {:induction false} LeRoundTrip(n: nat, w: nat)
    requires n < Pow256(w)
    ensures FromLe(ToLe(n, w)) == n
  {
    if w > 0 {
      LeRoundTrip(n / 256, w - 1);
      assert ToLe(n, w)[1..] == ToLe(n / 256, w - 1);
    }
  }

  lemma {:induction false} LeIsCanonical(b: Bytes)
    ensures FromLe(b) < Pow256(|b|) && ToLe(FromLe(b), |b|) == b
  {
    if b != [] {
      LeIsCanonical(b[1..]);
      assert b == [b[0]] + b[1..];
    }
  }

  lemma Widths()
    ensures Pow256(4) == 0x1_0000_0000 && Pow256(8) == 0x1_0000_0000_0000_0000
  {
    assert Pow256(1) == 256 && Pow256(2) == 0x1_0000 && Pow256(3) == 0x100_0000;
    assert Pow256(5) == 256 * Pow256(4) && Pow256(6) == 256 * Pow256(5) && Pow256(7) == 256 * Pow256(6);
  }

  /** A token's two's-complement bits. */
  function TokenBits(t: Token): (n: nat)
    ensures n < 0x1_0000_0000
  {
    if t < 0 then t + 0x1_0000_0000 else t
  }

  function BitsToken(n: nat): Token
    requires n < 0x1_0000_0000
  {
    if n >= 0x8000_0000 then n - 0x1_0000_0000 else n
  }

  function KeyBytes(key: seq<Token>): (b: Bytes)
    ensures |b| == 4 * |key|
  {
    if key == [] then [] else KeyBytes(key[..|key| - 1]) + ToLe(TokenBits(key[|key| - 1]), 4)
  }

  /** `chunks_exact(4)`, each read as one token. */
  function BytesKey(b: Bytes): (key: seq<Token>)
    requires |b| % 4 == 0
    ensures |key| == |b| / 4
  {
    if b == [] then []
    else
      var n := |b| - 4;
      LeIsCanonical(b[n..]);
      Widths();
      BytesKey(b[..n]) + [BitsToken(FromLe(b[n..]))]
  }

  lemma {:induction false} KeyRoundTrip(key: seq<Token>)
    ensures BytesKey(KeyBytes(key)) == key
  {
    hide *;
    if key == [] {
      NothingRoundTrips();
    } else {
      var n := |key| - 1;
      KeyRoundTrip(key[..n]);
      assert key == key[..n] + [key[n]];
      KeyBytesSnoc(key[..n], key[n]);
      TokenRoundTrip(key[n]);
      var c := ToLe(TokenBits(key[n]), 4);
      var b := KeyBytes(key);
      assert b[..|b| - 4] == KeyBytes(key[..n]) && b[|b| - 4..] == c;
      LastToken(b);
    }
  }

  lemma NothingRoundTrips()
    ensures BytesKey(KeyBytes([])) == []
  {
  }

  lemma TokenRoundTrip(t: Token)
    ensures FromLe(ToLe(TokenBits(t), 4)) == TokenBits(t) && BitsToken(TokenBits(t)) == t
  {
    Widths();
    LeRoundTrip(TokenBits(t), 4);
  }

  lemma {:induction false} KeyIsCanonical(b: Bytes)
    requires |b| % 4 == 0
    ensures KeyBytes(BytesKey(b)) == b
    decreases |b|
  {
    hide *;
    if b == [] {
      NothingIsCanonical();
    } else {
      var n := |b| - 4;
      KeyIsCanonical(b[..n]);
      LastToken(b);
      TokenIsCanonical(b[n..]);
      KeyBytesSnoc(BytesKey(b[..n]), BitsToken(FromLe(b[n..])));
      assert b == b[..n] + b[n..];
    }
  }

  lemma NothingIsCanonical()
    ensures KeyBytes(BytesKey([])) == []
  {
  }

  lemma LastToken(b: Bytes)
    requires |b| % 4 == 0 && b != []
    ensures FromLe(b[|b| - 4..]) < 0x1_0000_0000
    ensures BytesKey(b) == BytesKey(b[..|b| - 4]) + [BitsToken(FromLe(b[|b| - 4..]))]
  {
    hide FromLe, BitsToken, ToLe, Pow256;
    LeIsCanonical(b[|b| - 4..]);
    Widths();
  }

  lemma KeyBytesSnoc(key: seq<Token>, t: Token)
    ensures KeyBytes(key + [t]) == KeyBytes(key) + ToLe(TokenBits(t), 4)
  {
    hide ToLe, TokenBits;
    var k := key + [t];
    assert k[..|k| - 1] == key && k[|k| - 1] == t;
  }

  lemma TokenIsCanonical(c: Bytes)
    requires |c| == 4
    ensures FromLe(c) < 0x1_0000_0000 && ToLe(TokenBits(BitsToken(FromLe(c))), 4) == c
  {
    LeIsCanonical(c);
    Widths();
    hide FromLe, ToLe;
  }

  // ---------------------------------------------------------------- the header

  ghost predicate HeaderFits(h: DiskHeader) {
    && h.fpHash < 0x1_0000_0000_0000_0000 && h.nTokens < 0x1_0000_0000
    && 0 < |h.key| <= DISK_MAX_KEY_TOKENS && 0 < h.dataLen <= DISK_MAX_DATA_BYTES
  }

  function FixedBytes(fpHash: nat, nTokens: nat, keyLen: nat): (b: Bytes)
    ensures |b| == DISK_HEADER_FIXED
  {
    DISK_MAGIC + ToLe(DISK_VERSION, 4) + ToLe(fpHash, 8) + ToLe(nTokens, 4) + ToLe(keyLen, 4)
  }

  function HeaderBytes(h: DiskHeader): (b: Bytes)
    ensures |b| == DISK_HEADER_FIXED + 4 * |h.key| + 8
  {
    FixedBytes(h.fpHash, h.nTokens, |h.key|) + KeyBytes(h.key) + ToLe(h.dataLen, 8)
  }

  /** `write_entry`: the bytes of a whole file. */
  method WriteEntry(fpHash: nat, key: seq<Token>, nTokens: nat, data: Bytes) returns (buf: Bytes)
    ensures buf == HeaderBytes(DiskHeader(fpHash, nTokens, key, |data|)) + data
  {
    buf := DISK_MAGIC;
    buf := buf + ToLe(DISK_VERSION, 4);
    buf := buf + ToLe(fpHash, 8);
    buf := buf + ToLe(nTokens, 4);
    buf := buf + ToLe(|key|, 4);
    ghost var fixed := buf;
    for k := 0 to |key|
      invariant buf == fixed + KeyBytes(key[..k])
    {
      assert key[..k + 1][..k] == key[..k];
      buf := buf + ToLe(TokenBits(key[k]), 4);
    }
    assert key[..|key|] == key;
    buf := buf + ToLe(|data|, 8);
    buf := buf + data;
  }

  /** The `w`-byte integer at `i`. */
  function LeAt(f: Bytes, i: nat, w: nat): (n: nat)
    requires i + w <= |f|
    ensures n < Pow256(w)
  {
    LeIsCanonical(f[i..i + w]);
    FromLe(f[i..i + w])
  }

  /** The `n` tokens behind the fixed header. */
  function KeyAt(f: Bytes, n: nat): (key: seq<Token>)
    requires 24 + 4 * n <= |f|
    ensures |key| == n
  {
    BytesKey(f[24..24 + 4 * n])
  }

  /** `read_header_from`: the header, or why a file is not one of ours. */
  function ReadHeader(f: Bytes): Result<DiskHeader> {
    if |f| < DISK_HEADER_FIXED then Err(UnexpectedEof)
    else if f[0..4] != DISK_MAGIC then Err(BadMagic)
    else if LeAt(f, 4, 4) != DISK_VERSION then Err(UnsupportedVersion)
    else
      var fpHash, nTokens, keyLen := LeAt(f, 8, 8), LeAt(f, 16, 4), LeAt(f, 20, 4);
      if keyLen == 0 || keyLen > DISK_MAX_KEY_TOKENS then Err(BadKeyLength)
      else if |f| < 24 + 4 * keyLen then Err(UnexpectedEof)
      else
        var key := KeyAt(f, keyLen);
        if |f| < 24 + 4 * keyLen + 8 then Err(UnexpectedEof)
        else
          var dataLen := LeAt(f, 24 + 4 * keyLen, 8);
          if dataLen == 0 || dataLen > DISK_MAX_DATA_BYTES then Err(BadDataLength)
          else Ok(DiskHeader(fpHash, nTokens, key, dataLen))
  }

  /** `read_entry_data`: the payload behind a valid header. */
  function ReadEntryData(f: Bytes): Result<Bytes> {
    var r := ReadHeader(f);
    if r.Err? then Err(r.why)
    else
      var start := DISK_HEADER_FIXED + 4 * |r.value.key| + 8;
      if |f| < start + r.value.dataLen then Err(UnexpectedEof)
      else Ok(f[start..start + r.value.dataLen])
  }

  lemma Pieces(m: Bytes, v: Bytes, fp: Bytes, nt: Bytes, kl: Bytes, kb: Bytes, dl: Bytes, rest: Bytes)
    requires |m| == |v| == |nt| == |kl| == 4 && |fp| == |dl| == 8
    ensures var f := m + v + fp + nt + kl + kb + dl + rest;
      var n := 24 + |kb|;
      && |f| >= n + 8
      && f[0..4] == m && f[4..8] == v && f[8..16] == fp && f[16..20] == nt && f[20..24] == kl
      && f[24..n] == kb && f[n..n + 8] == dl && f[n + 8..] == rest
  {
  }

  ghost predicate Sized(h: DiskHeader) {
    && h.fpHash < 0x1_0000_0000_0000_0000 && h.nTokens < 0x1_0000_0000
    && |h.key| < 0x1_0000_0000 && h.dataLen < 0x1_0000_0000_0000_0000
  }

  /** The fields of a written file, where the reader looks for them. */
  lemma Layout(h: DiskHeader, rest: Bytes)
    requires Sized(h)
    ensures var f := HeaderBytes(h) + rest;
      var n := 24 + 4 * |h.key|;
      && |f| >= n + 8 == |HeaderBytes(h)| && f[n + 8..] == rest
      && f[0..4] == DISK_MAGIC && LeAt(f, 4, 4) == DISK_VERSION && LeAt(f, 8, 8) == h.fpHash && LeAt(f, 16, 4) == h.nTokens
      && LeAt(f, 20, 4) == |h.key| && KeyAt(f, |h.key|) == h.key && LeAt(f, n, 8) == h.dataLen
  {
    hide ToLe, FromLe, KeyBytes, BytesKey, Pow256, LeAt, KeyAt;
    Widths();
    var v, fp, nt, kl := ToLe(DISK_VERSION, 4), ToLe(h.fpHash, 8), ToLe(h.nTokens, 4), ToLe(|h.key|, 4);
    var kb, dl := KeyBytes(h.key), ToLe(h.dataLen, 8);
    Pieces(DISK_MAGIC, v, fp, nt, kl, kb, dl, rest);
    HeaderInPieces(h, rest);
    hide HeaderBytes;
    var f := HeaderBytes(h) + rest;
    LeAtIs(f, 4, 4, DISK_VERSION);
    LeAtIs(f, 8, 8, h.fpHash);
    LeAtIs(f, 16, 4, h.nTokens);
    LeAtIs(f, 20, 4, |h.key|);
    LeAtIs(f, 24 + 4 * |h.key|, 8, h.dataLen);
    KeyAtIs(f, h.key);
  }

  lemma HeaderInPieces(h: DiskHeader, rest: Bytes)
    ensures HeaderBytes(h) + rest == DISK_MAGIC + ToLe(DISK_VERSION, 4) + ToLe(h.fpHash, 8) + ToLe(h.nTokens, 4) + ToLe(|h.key|, 4)
      + KeyBytes(h.key) + ToLe(h.dataLen, 8) + rest
  {
    hide ToLe, KeyBytes;
  }

  lemma LeAtIs(f: Bytes, i: nat, w: nat, n: nat)
    requires i + w <= |f| && f[i..i + w] == ToLe(n, w) && n < Pow256(w)
    ensures LeAt(f, i, w) == n
  {
    LeRoundTrip(n, w);
  }

  lemma KeyAtIs(f: Bytes, key: seq<Token>)
    requires 24 + 4 * |key| <= |f| && f[24..24 + 4 * |key|] == KeyBytes(key)
    ensures KeyAt(f, |key|) == key
  {
    KeyRoundTrip(key);
  }

  /** A header reads back as it was written, whatever follows it. */
  lemma HeaderRoundTrip(h: DiskHeader, rest: Bytes)
    requires HeaderFits(h)
    ensures ReadHeader(HeaderBytes(h) + rest) == Ok(h)
  {
    hide LeAt, KeyAt, HeaderBytes;
    Layout(h, rest);
  }

  /** Only files that start with the header's own bytes are read as that header. */
  lemma HeaderIsCanonical(f: Bytes)
    requires ReadHeader(f).Ok?
    ensures HeaderFits(ReadHeader(f).value) && HeaderBytes(ReadHeader(f).value) <= f
  {
    hide LeAt, KeyAt, HeaderBytes, Pow256;
    Widths();
    Rebuilt(f, |ReadHeader(f).value.key|);
  }

  lemma LeAtIsCanonical(f: Bytes, i: nat, w: nat)
    requires i + w <= |f|
    ensures ToLe(LeAt(f, i, w), w) == f[i..i + w]
  {
    LeIsCanonical(f[i..i + w]);
  }

  lemma KeyAtIsCanonical(f: Bytes, n: nat)
    requires 24 + 4 * n <= |f|
    ensures KeyBytes(KeyAt(f, n)) == f[24..24 + 4 * n]
  {
    KeyIsCanonical(f[24..24 + 4 * n]);
  }

  lemma Rebuilt(f: Bytes, n: nat)
    requires |f| >= 24 + 4 * n + 8 && f[0..4] == DISK_MAGIC && LeAt(f, 4, 4) == DISK_VERSION && LeAt(f, 20, 4) == n
    ensures HeaderBytes(DiskHeader(LeAt(f, 8, 8), LeAt(f, 16, 4), KeyAt(f, n), LeAt(f, 24 + 4 * n, 8))) <= f
  {
    hide ToLe, FromLe, KeyBytes, BytesKey, Pow256, LeAt, KeyAt;
    var e := 24 + 4 * n;
    LeAtIsCanonical(f, 4, 4);
    LeAtIsCanonical(f, 8, 8);
    LeAtIsCanonical(f, 16, 4);
    LeAtIsCanonical(f, 20, 4);
    KeyAtIsCanonical(f, n);
    LeAtIsCanonical(f, e, 8);
    assert f[..e + 8] == f[0..4] + f[4..8] + f[8..16] + f[16..20] + f[20..24] + f[24..e] + f[e..e + 8];
  }

  /** What a written file reads back as: the entry, exactly when key and data are within the limits. */
  lemma EntryRoundTrip(fpHash: nat, key: seq<Token>, nTokens: nat, data: Bytes)
    requires Sized(DiskHeader(fpHash, nTokens, key, |data|))
    ensures var f := HeaderBytes(DiskHeader(fpHash, nTokens, key, |data|)) + data;
      if InLimits(key, data) then
        ReadHeader(f) == Ok(DiskHeader(fpHash, nTokens, key, |data|)) && ReadEntryData(f) == Ok(data)
      else ReadHeader(f).Err? && ReadEntryData(f).Err?
  {
    hide LeAt, KeyAt, HeaderBytes;
    var h := DiskHeader(fpHash, nTokens, key, |data|);
    var f := HeaderBytes(h) + data;
    Layout(h, data);
    if InLimits(key, data) {
      HeaderRoundTrip(h, data);
      assert f[|HeaderBytes(h)|..|f|] == data;
    }
  }

  predicate InLimits(key: seq<Token>, data: Bytes) {
    0 < |key| <= DISK_MAX_KEY_TOKENS && 0 < |data| <= DISK_MAX_DATA_BYTES
  }
}
