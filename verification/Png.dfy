/**
 The PNG reader and writer of the MCP service: chunk parser and printer, the five row filters of
 section 6 of RFC 2083, in-place unfiltering modulo 256, and the scaling of 16-bit samples.
 zlib and the CRC are parameters; the round trips only assume that inflating undoes deflating.
 */
module Png {
  import opened Common

  /** The compressor, the decompressor with its output limit, and the checksum. */
  datatype Zlib = Zlib(
    deflate: seq<byte> -> seq<byte>,
    inflate: (seq<byte>, nat) -> Option<seq<byte>>,
    crc: seq<byte> -> nat)

  /** Inflating gives back what was deflated when the limit leaves room for it. */
  ghost predicate InflateUndoesDeflate(z: Zlib) {
    forall s: seq<byte>, limit: nat | |s| <= limit :: z.inflate(z.deflate(s), limit) == Some(s)
  }

  datatype Header = Header(width: nat, height: nat, depth: byte, colour: byte, interlaced: bool)
  datatype GreyImage = GreyImage(width: nat, height: nat, values: seq<byte>)

  const SIGNATURE: seq<byte> := [0x89, 0x50, 0x4e, 0x47, 0x0d, 0x0a, 0x1a, 0x0a]
  const IHDR: seq<byte> := [0x49, 0x48, 0x44, 0x52]
  const PLTE: seq<byte> := [0x50, 0x4c, 0x54, 0x45]
  const IDAT: seq<byte> := [0x49, 0x44, 0x41, 0x54]
  const IEND: seq<byte> := [0x49, 0x45, 0x4e, 0x44]
  const RGB: byte := 2
  const PALETTE: byte := 3
  const MAX_RAW_BYTES: nat := 64 * 1024 * 1024

  // ---------------------------------------------------------------- row filters

  function Abs(x: int): nat {
    if x < 0 then -x else x
  }

  function Paeth(a: int, b: int, c: int): int {
    var p := a + b - c;
    var pa, pb, pc := Abs(p - a), Abs(p - b), Abs(p - c);
    if pa <= pb && pa <= pc then a else if pb <= pc then b else c
  }

  /** Section 6.6 of RFC 2083: the neighbour nearest to a + b - c, ties broken in the order a, b, c. */
  lemma PaethIsNearest(a: int, b: int, c: int)
    ensures var p, r := a + b - c, Paeth(a, b, c);
            && r in {a, b, c}
            && Abs(p - r) <= Abs(p - a) && Abs(p - r) <= Abs(p - b) && Abs(p - r) <= Abs(p - c)
            && (Abs(p - a) == Abs(p - r) ==> r == a)
            && (r != a && Abs(p - b) == Abs(p - r) ==> r == b)
  {
  }

  function Predict(filter: int, a: int, b: int, c: int): int {
    if filter == 0 then 0
    else if filter == 1 then a
    else if filter == 2 then b
    else if filter == 3 then (a + b) / 2
    else Paeth(a, b, c)
  }

  /**
   The prediction for byte x of a row, when `known` is every byte recovered before it: from the byte
   one pixel to the left, the byte above, and the byte above-left, each 0 outside the image.
   */
  function Predicted(filter: int, known: seq<byte>, stride: nat, bpp: nat, x: nat): int
    requires x < stride && 0 < bpp
    requires |known| == x || |known| >= stride + x
  {
    var first := |known| == x;
    var a := if x >= bpp then known[|known| - bpp] else 0;
    var b := if first then 0 else known[|known| - stride];
    var c := if first || x < bpp then 0 else known[|known| - stride - bpp];
    Predict(filter, a, b, c)
  }

  /** `known`, then the first x raw bytes of the row that `filter` and `line` store. */
  function UndoneRow(known: seq<byte>, filter: int, line: seq<byte>, bpp: nat, x: nat): (out: seq<byte>)
    requires 0 < bpp && x <= |line|
    requires known == [] || |known| >= |line|
    ensures |out| == |known| + x
  {
    if x == 0 then known
    else
      var prev := UndoneRow(known, filter, line, bpp, x - 1);
      prev + [(line[x - 1] + Predicted(filter, prev, |line|, bpp, x - 1)) % 256]
  }

  /** The raw bytes of every row; a row is stored as its filter byte and `stride` filtered bytes. */
  function Unfiltered(data: seq<byte>, stride: nat, bpp: nat): (out: seq<byte>)
    requires 0 < bpp
    ensures out == [] || |out| >= stride
  {
    if |data| < stride + 1 then []
    else
      var last := |data| - (stride + 1);
      UndoneRow(Unfiltered(data[..last], stride, bpp), data[last], data[last + 1..], bpp, stride)
  }

  /** Where row y of an image stored `width` bytes a row begins. */
  function RowAt(y: nat, width: nat): nat {
    if y == 0 then 0 else RowAt(y - 1, width) + width
  }

  lemma {:induction false} RowAtIsProduct(y: nat, width: nat)
    ensures RowAt(y, width) == y * width == width * y
  {
    if y > 0 {
      RowAtIsProduct(y - 1, width);
      assert y * width == (y - 1) * width + width;
    }
  }

  /** Row y of `height` rows ends inside the image, and what follows is the remaining rows. */
  lemma {:induction false} RowFits(y: nat, width: nat, height: nat)
    requires y < height
    ensures RowAt(y, width) + width <= RowAt(height, width)
    ensures RowAt(y + 1, width) == RowAt(y, width) + width
    ensures y == 0 || RowAt(y, width) >= width
  {
    if y + 1 < height { RowFits(y, width, height - 1); }
  }

  /** The prediction for the byte at `at`, byte x of its row, from the bytes of `out` before it. */
  method PredictByte(filter: byte, out: array<byte>, at: nat, x: nat, stride: nat, bpp: nat) returns (predicted: int)
    requires 0 < bpp && filter <= 4
    requires x < stride && at < out.Length && (at == x || at >= stride + x)
    ensures predicted == Predicted(filter, out[..at], stride, bpp, x)
  {
    var above := at > x;
    var a: int := if x >= bpp then out[at - bpp] else 0;
    var b: int := if above then out[at - stride] else 0;
    match filter {
      case 0 => predicted := 0;
      case 1 => predicted := a;
      case 2 => predicted := b;
      case 3 => predicted := (a + b) / 2;
      case _ => predicted := Paeth(a, b, if above && x >= bpp then out[at - stride - bpp] else 0);
    }
  }

  lemma UnfilteredOneMore(data: seq<byte>, src: nat, stride: nat, bpp: nat)
    requires 0 < bpp && src + 1 + stride <= |data|
    ensures Unfiltered(data[..src + 1 + stride], stride, bpp)
         == UndoneRow(Unfiltered(data[..src], stride, bpp), data[src], data[src + 1..src + 1 + stride], bpp, stride)
  {
    var done := data[..src + 1 + stride];
    assert done[..src] == data[..src] && done[src + 1..] == data[src + 1..src + 1 + stride];
  }

  /** Undo in place the row stored at `src`; its raw bytes go to `dst`, after the rows already undone. */
  method UnfilterRow(data: seq<byte>, src: nat, out: array<byte>, dst: nat, stride: nat, bpp: nat)
    requires 0 < bpp
    requires src + 1 + stride <= |data| && dst + stride <= out.Length
    requires dst == 0 || dst >= stride
    requires data[src] <= 4 && out[..dst] == Unfiltered(data[..src], stride, bpp)
    modifies out
    ensures out[..dst + stride] == Unfiltered(data[..src + 1 + stride], stride, bpp)
  {
    ghost var known, line := out[..dst], data[src + 1..src + 1 + stride];
    var filter := data[src];
    for x := 0 to stride
      invariant out[..dst + x] == UndoneRow(known, filter, line, bpp, x)
    {
      ghost var prev := out[..dst + x];
      var predicted := PredictByte(filter, out, dst + x, x, stride, bpp);
      out[dst + x] := (data[src + 1 + x] + predicted) % 256;
      assert out[..dst + x + 1] == prev + [(line[x] + predicted) % 256];
    }
    UnfilteredOneMore(data, src, stride, bpp);
  }

  /** Undo each row's filter; `None` exactly when some row names a filter above 4. */
  method Unfilter(data: seq<byte>, stride: nat, height: nat, bpp: nat) returns (r: Option<seq<byte>>)
    requires 0 < bpp
    requires |data| == (stride + 1) * height
    ensures r.Some? <==> FiltersKnown(data, stride, height)
    ensures r.Some? ==> r.value == Unfiltered(data, stride, bpp) && |r.value| == stride * height
    ensures r.Some? ==> forall y: nat, x: nat | y < height && x < stride :: RawByte(data, r.value, stride, bpp, y, x)
  {
    RowAtIsProduct(height, stride + 1);
    RowAtIsProduct(height, stride);
    var out := new byte[stride * height];
    var known := UnfilterRows(data, out, stride, height, bpp);
    AllBytes(data, stride, height, bpp);
    return if known then Some(out[..]) else None;
  }

  method UnfilterRows(data: seq<byte>, out: array<byte>, stride: nat, height: nat, bpp: nat) returns (known: bool)
    requires 0 < bpp
    requires |data| == RowAt(height, stride + 1) && out.Length == RowAt(height, stride)
    modifies out
    ensures known <==> FiltersKnown(data, stride, height)
    ensures known ==> out[..] == Unfiltered(data, stride, bpp)
  {
    var src, dst := 0, 0;
    assert Unfiltered(data[..0], stride, bpp) == out[..0];
    assert RowAt(0, stride) == 0 && RowAt(0, stride + 1) == 0;
    assert FiltersKnown(data, stride, 0);
    hide Unfiltered, RowAt, FiltersKnown;
    var y := 0;
    while y < height
      invariant 0 <= y <= height
      invariant src == RowAt(y, stride + 1) <= |data|
      invariant dst == RowAt(y, stride) <= out.Length
      invariant FiltersKnown(data, stride, y)
      invariant out[..dst] == Unfiltered(data[..src], stride, bpp)
    {
      RowFits(y, stride + 1, height);
      RowFits(y, stride, height);
      FiltersKnownNext(data, stride, y, height);
      if data[src] > 4 { return false; }
      UnfilterRow(data, src, out, dst, stride, bpp);
      src, dst, y := src + 1 + stride, dst + stride, y + 1;
    }
    assert data[..src] == data;
    assert out[..dst] == out[..];
    return true;
  }

  /** The filter byte of row y. */
  ghost function FilterAt(data: seq<byte>, stride: nat, y: nat): int {
    if RowAt(y, stride + 1) < |data| then data[RowAt(y, stride + 1)] else 0
  }

  /** The first `rows` rows begin with one of the five filter types. */
  ghost predicate FiltersKnown(data: seq<byte>, stride: nat, rows: nat) {
    forall y | 0 <= y < rows :: FilterAt(data, stride, y) <= 4
  }

  lemma FiltersKnownNext(data: seq<byte>, stride: nat, y: nat, height: nat)
    requires y < height && RowAt(y, stride + 1) < |data|
    ensures data[RowAt(y, stride + 1)] > 4 ==> !FiltersKnown(data, stride, height)
    ensures data[RowAt(y, stride + 1)] <= 4 && FiltersKnown(data, stride, y) ==> FiltersKnown(data, stride, y + 1)
  {
    assert FilterAt(data, stride, y) == data[RowAt(y, stride + 1)];
  }

  /**
   Byte x of row y, as section 6 of RFC 2083 gives it: the byte stored plus 0, the byte one pixel to the left, the
   byte above, the average of these two rounded down, or their Paeth prediction with the byte above the left one, by
   the row's filter type, modulo 256; bytes outside the image count as 0.
   */
  ghost predicate RawByte(data: seq<byte>, raw: seq<byte>, stride: nat, bpp: nat, y: nat, x: nat) {
    var stored, at := RowAt(y, stride + 1), RowAt(y, stride) + x;
    && stored + 1 + x < |data| && at < |raw| && 0 < bpp && x < stride && (y == 0 || RowAt(y, stride) >= stride)
    && var left: int := if x >= bpp then raw[at - bpp] else 0;
      var above: int := if y > 0 then raw[at - stride] else 0;
      var corner: int := if y > 0 && x >= bpp then raw[at - stride - bpp] else 0;
      match data[stored] as int
      case 0 => raw[at] == data[stored + 1 + x]
      case 1 => raw[at] == (data[stored + 1 + x] + left) % 256
      case 2 => raw[at] == (data[stored + 1 + x] + above) % 256
      case 3 => raw[at] == (data[stored + 1 + x] + (left + above) / 2) % 256
      case 4 => raw[at] == (data[stored + 1 + x] + Paeth(left, above, corner)) % 256
      case _ => true
  }

  /** The rows undone so far are what they were when fewer of a row's bytes were. */
  lemma {:induction false} UndoneRowAt(known: seq<byte>, filter: int, line: seq<byte>, bpp: nat, n: nat, x: nat)
    requires 0 < bpp && x < n <= |line| && (known == [] || |known| >= |line|)
    ensures var row, before := UndoneRow(known, filter, line, bpp, n), UndoneRow(known, filter, line, bpp, x);
      row[..|known| + x] == before && row[..|known|] == known
      && row[|known| + x] == (line[x] + Predicted(filter, before, |line|, bpp, x)) % 256
    decreases n
  {
    hide Predicted;
    if x < n - 1 {
      UndoneRowAt(known, filter, line, bpp, n - 1, x);
      var shorter := UndoneRow(known, filter, line, bpp, n - 1);
      assert UndoneRow(known, filter, line, bpp, n)[..|shorter|] == shorter;
    } else if x > 0 {
      UndoneRowAt(known, filter, line, bpp, x, x - 1);
    }
  }

  lemma {:induction false} UnfilteredSize(data: seq<byte>, stride: nat, height: nat, bpp: nat)
    requires 0 < bpp && |data| == RowAt(height, stride + 1)
    ensures |Unfiltered(data, stride, bpp)| == RowAt(height, stride)
    decreases height
  {
    if height > 0 {
      RowFits(height - 1, stride + 1, height);
      UnfilteredSize(data[..RowAt(height - 1, stride + 1)], stride, height - 1, bpp);
    }
  }

  /** Undoing gives every byte of every row as the standard says, whatever the row's filter. */
  lemma {:induction false} UnfilteredBytes(data: seq<byte>, stride: nat, height: nat, bpp: nat, y: nat, x: nat)
    requires 0 < bpp && |data| == RowAt(height, stride + 1) && y < height && x < stride
    ensures RawByte(data, Unfiltered(data, stride, bpp), stride, bpp, y, x)
    decreases height
  {
    hide Predicted, UndoneRow, Paeth;
    var last := RowAt(height - 1, stride + 1);
    RowFits(height - 1, stride + 1, height);
    RowFits(y, stride + 1, height);
    RowFits(y, stride, height);
    var known, line := Unfiltered(data[..last], stride, bpp), data[last + 1..];
    UnfilteredSize(data[..last], stride, height - 1, bpp);
    UndoneRowAt(known, data[last], line, bpp, stride, x);
    if y < height - 1 {
      UnfilteredBytes(data[..last], stride, height - 1, bpp, y, x);
      RowFits(y, stride, height - 1);
      RowFits(y, stride + 1, height - 1);
      SameBytes(data[..last], data, known, Unfiltered(data, stride, bpp), stride, bpp, y, x);
    } else {
      RowByte(data, known, stride, bpp, y, x);
    }
  }

  lemma AllBytes(data: seq<byte>, stride: nat, height: nat, bpp: nat)
    requires 0 < bpp && |data| == RowAt(height, stride + 1)
    ensures forall y: nat, x: nat | y < height && x < stride :: RawByte(data, Unfiltered(data, stride, bpp), stride, bpp, y, x)
  {
    forall y: nat, x: nat | y < height && x < stride ensures RawByte(data, Unfiltered(data, stride, bpp), stride, bpp, y, x) {
      UnfilteredBytes(data, stride, height, bpp, y, x);
    }
  }

  lemma SameBytes(part: seq<byte>, data: seq<byte>, known: seq<byte>, raw: seq<byte>, stride: nat, bpp: nat, y: nat, x: nat)
    requires RawByte(part, known, stride, bpp, y, x) && part <= data && known <= raw
    ensures RawByte(data, raw, stride, bpp, y, x)
  {
    hide Paeth;
  }

  lemma RowByte(data: seq<byte>, known: seq<byte>, stride: nat, bpp: nat, y: nat, x: nat)
    requires 0 < bpp && x < stride && |known| == RowAt(y, stride) && (y == 0 || RowAt(y, stride) >= stride)
    requires |data| == RowAt(y, stride + 1) + stride + 1
    ensures var last := RowAt(y, stride + 1); RawByte(data, UndoneRow(known, data[last], data[last + 1..], bpp, stride), stride, bpp, y, x)
  {
    hide UndoneRow, Paeth, Predicted, RowAt;
    FirstRowStarts(y, stride);
    var last := RowAt(y, stride + 1);
    var line := data[last + 1..];
    var before := UndoneRow(known, data[last], line, bpp, x);
    var raw := UndoneRow(known, data[last], line, bpp, stride);
    assert |line| == stride && line[x] == data[last + 1 + x];
    UndoneRowAt(known, data[last], line, bpp, stride, x);
    PredictedFrom(raw, before, data[last], stride, bpp, |known|, x, y > 0);
  }

  lemma FirstRowStarts(y: nat, stride: nat)
    ensures y == 0 ==> RowAt(y, stride) == 0
  {
  }

  /** The prediction made from the bytes before is made from the neighbours in the whole. */
  lemma PredictedFrom(raw: seq<byte>, before: seq<byte>, filter: int, stride: nat, bpp: nat, start: nat, x: nat, later: bool)
    requires 0 < bpp && x < stride && start + x < |raw| && raw[..start + x] == before
    requires if later then start >= stride else start == 0
    ensures Predicted(filter, before, stride, bpp, x) ==
      Predict(filter, if x >= bpp then raw[start + x - bpp] else 0, if later then raw[start + x - stride] else 0,
        if later && x >= bpp then raw[start + x - stride - bpp] else 0)
  {
    hide Predict;
  }

  // ------------------------------------------------- what a conforming writer stores

  /** One row as the writer stores it: each byte minus its prediction, modulo 256. */
  function FilteredLine(raw: seq<byte>, start: nat, filter: int, stride: nat, bpp: nat): (line: seq<byte>)
    requires 0 < bpp && start + stride <= |raw|
    requires start == 0 || start >= stride
    ensures |line| == stride
  {
    seq(stride, x requires 0 <= x < stride =>
      (raw[start + x] - Predicted(filter, raw[..start + x], stride, bpp, x)) % 256)
  }

  /** Every row of an image, row y stored with filter `types[y]`. */
  function Filtered(raw: seq<byte>, types: seq<byte>, stride: nat, bpp: nat): (data: seq<byte>)
    requires 0 < bpp && |raw| == RowAt(|types|, stride)
    ensures |data| == RowAt(|types|, stride + 1)
    decreases types
  {
    if types == [] then []
    else
      var y := |types| - 1;
      RowFits(y, stride, y + 1);
      var start := RowAt(y, stride);
      Filtered(raw[..start], types[..y], stride, bpp) + [types[y]] + FilteredLine(raw, start, types[y], stride, bpp)
  }

  /** Undoing the stored row gives back the row. */
  lemma {:induction false} UndoneLine(raw: seq<byte>, start: nat, filter: int, stride: nat, bpp: nat, x: nat)
    requires 0 < bpp && start + stride <= |raw| && x <= stride
    requires start == 0 || start >= stride
    ensures UndoneRow(raw[..start], filter, FilteredLine(raw, start, filter, stride, bpp), bpp, x) == raw[..start + x]
  {
    hide Predicted;
    if x > 0 {
      UndoneLine(raw, start, filter, stride, bpp, x - 1);
      var line, before := FilteredLine(raw, start, filter, stride, bpp), raw[..start + x - 1];
      var predicted := Predicted(filter, before, stride, bpp, x - 1);
      assert line[x - 1] == (raw[start + x - 1] - predicted) % 256;
      DifferenceUndone(raw[start + x - 1], predicted);
      assert raw[..start + x] == before + [raw[start + x - 1]];
    }
  }

  lemma DifferenceUndone(v: byte, predicted: int)
    ensures ((v - predicted) % 256 + predicted) % 256 == v
  {
  }

  lemma UnfilteredLast(before: seq<byte>, filter: byte, line: seq<byte>, stride: nat, bpp: nat)
    requires 0 < bpp && |line| == stride
    ensures Unfiltered(before + [filter] + line, stride, bpp) == UndoneRow(Unfiltered(before, stride, bpp), filter, line, bpp, stride)
  {
    var data := before + [filter] + line;
    var last := |data| - (stride + 1);
    assert data[..last] == before && data[last] == filter && data[last + 1..] == line;
  }

  /** Unfiltering inverts filtering, for every image, stride, pixel size and choice of filter per row. */
  lemma {:induction false} UnfilteringInvertsFiltering(raw: seq<byte>, types: seq<byte>, stride: nat, bpp: nat)
    requires 0 < bpp && |raw| == RowAt(|types|, stride)
    ensures Unfiltered(Filtered(raw, types, stride, bpp), stride, bpp) == raw
    decreases types
  {
    if types != [] {
      var n := |types| - 1;
      RowFits(n, stride, n + 1);
      var start := RowAt(n, stride);
      var before, line := Filtered(raw[..start], types[..n], stride, bpp), FilteredLine(raw, start, types[n], stride, bpp);
      UnfilteredLast(before, types[n], line, stride, bpp);
      UnfilteringInvertsFiltering(raw[..start], types[..n], stride, bpp);
      UndoneLine(raw, start, types[n], stride, bpp, stride);
    }
  }

  /** Each stored row begins with its filter. */
  lemma {:induction false} FilterBytesStored(raw: seq<byte>, types: seq<byte>, stride: nat, bpp: nat, y: nat)
    requires 0 < bpp && |raw| == RowAt(|types|, stride) && y < |types|
    ensures FilterAt(Filtered(raw, types, stride, bpp), stride, y) == types[y]
    decreases types
  {
    var n := |types| - 1;
    RowFits(n, stride, n + 1);
    var start := RowAt(n, stride);
    if y < n {
      RowFits(y, stride + 1, n);
      FilterBytesStored(raw[..start], types[..n], stride, bpp, y);
    }
  }

  // ---------------------------------------------------------------- samples

  /** A 16-bit sample scaled to 8 bits: `Math.round(v / 257)`; no 16-bit value lies on a half. */
  function Scale16(v: nat): (r: byte)
    requires v < 0x10000
  {
    (2 * v + 257) / 514
  }

  /** Scaling is onto 0..255, inverts the widening by 257, and is never further off than half a step. */
  lemma ScalingInvertsWidening(v: nat, g: byte)
    requires v < 0x10000
    ensures Scale16(257 * g) == g
    ensures -128 <= v - 257 * Scale16(v) <= 128
  {
  }

  // ---------------------------------------------------------------- chunks

  function BE32(n: nat): (s: seq<byte>)
    requires n < 0x1_0000_0000
    ensures |s| == 4
  {
    [n / 0x100_0000, n / 0x1_0000 % 256, n / 0x100 % 256, n % 256]
  }

  function ReadBE32(s: seq<byte>, at: nat): (n: nat)
    requires at + 4 <= |s|
    ensures n < 0x1_0000_0000
  {
    var a: int, b: int, c: int, d: int := s[at], s[at + 1], s[at + 2], s[at + 3];
    a * 0x100_0000 + b * 0x1_0000 + c * 0x100 + d
  }

  lemma ReadsBackBE32(n: nat, s: seq<byte>, at: nat)
    requires n < 0x1_0000_0000 && at + 4 <= |s| && s[at..at + 4] == BE32(n)
    ensures ReadBE32(s, at) == n
  {
    var b := s[at..at + 4];
    assert s[at] == b[0] && s[at + 1] == b[1] && s[at + 2] == b[2] && s[at + 3] == b[3];
    Digits(n);
  }

  lemma Digits(n: nat)
    ensures n == n / 0x100_0000 * 0x100_0000 + n / 0x1_0000 % 256 * 0x1_0000 + n / 0x100 % 256 * 0x100 + n % 256
  {
  }

  datatype Chunk = Chunk(kind: seq<byte>, data: seq<byte>) {
    predicate Valid() { |kind| == 4 && |data| < 0x1_0000_0000 }

    /** Length, type, data and checksum. */
    function Bytes(z: Zlib): (s: seq<byte>)
      requires Valid()
      ensures |s| == 12 + |data|
    {
      BE32(|data|) + kind + data + BE32(z.crc(kind + data) % 0x1_0000_0000)
    }
  }

  /** What the chunk loop has gathered: the last header, the last palette, the compressed rows so far. */
  datatype Scan = Scan(header: Option<Header>, palette: Option<seq<byte>>, compressed: seq<byte>)

  const NOTHING := Scan(None, None, [])

  /** How one chunk other than IEND changes what was gathered; `None` for a header that is too short. */
  function Gathered(s: Scan, c: Chunk): Option<Scan> {
    if c.kind == IHDR then
      if |c.data| < 13 then None
      else Some(s.(header := Some(Header(ReadBE32(c.data, 0), ReadBE32(c.data, 4), c.data[8], c.data[9], c.data[12] != 0))))
    else if c.kind == PLTE then Some(s.(palette := Some(c.data)))
    else if c.kind == IDAT then Some(s.(compressed := s.compressed + c.data))
    else Some(s)
  }

  /** The chunk loop from byte `at` on. */
  function Parsed(bytes: seq<byte>, at: nat, s: Scan): Option<Scan>
    decreases |bytes| - at
  {
    if at + 12 > |bytes| then Some(s)
    else
      var length := ReadBE32(bytes, at);
      if at + 8 + length > |bytes| then None
      else
        var c := Chunk(bytes[at + 4..at + 8], bytes[at + 8..at + 8 + length]);
        if c.kind == IEND then Some(s)
        else
          match Gathered(s, c)
          case None => None
          case Some(s') => Parsed(bytes, at + 12 + length, s')
  }

  function Printed(chunks: seq<Chunk>, z: Zlib): seq<byte>
    requires forall c | c in chunks :: c.Valid()
  {
    if chunks == [] then [] else chunks[0].Bytes(z) + Printed(chunks[1..], z)
  }

  function AllGathered(s: Scan, chunks: seq<Chunk>): Option<Scan>
    decreases chunks
  {
    if chunks == [] then Some(s)
    else
      match Gathered(s, chunks[0])
      case None => None
      case Some(s') => AllGathered(s', chunks[1..])
  }

  /** A part of a part. */
  lemma PartOf(whole: seq<byte>, at: nat, part: seq<byte>, i: nat, j: nat)
    requires i <= j <= |part| && at + |part| <= |whole| && whole[at..at + |part|] == part
    ensures whole[at + i..at + j] == part[i..j]
  {
    forall k | i <= k < j
      ensures whole[at + k] == part[k]
    {
      assert whole[at + k] == whole[at..at + |part|][k];
    }
  }

  /** At a printed chunk, the parser reads that chunk. */
  lemma ReadsChunk(bytes: seq<byte>, at: nat, c: Chunk, z: Zlib)
    requires c.Valid() && at + 12 + |c.data| <= |bytes|
    requires bytes[at..at + 12 + |c.data|] == c.Bytes(z)
    ensures ReadBE32(bytes, at) == |c.data|
    ensures bytes[at + 4..at + 8] == c.kind && bytes[at + 8..at + 8 + |c.data|] == c.data
  {
    var b, n := c.Bytes(z), |c.data|;
    assert b[..4] == BE32(n) && b[4..8] == c.kind && b[8..8 + n] == c.data;
    PartOf(bytes, at, b, 0, 4);
    PartOf(bytes, at, b, 4, 8);
    PartOf(bytes, at, b, 8, 8 + n);
    ReadsBackBE32(n, bytes, at);
  }

  /** The parser inverts the printer: any chunks up to an IEND, whatever follows it. */
  lemma {:induction false} ParsingInvertsPrinting(
    bytes: seq<byte>, at: nat, s: Scan, chunks: seq<Chunk>, end: Chunk, trailer: seq<byte>, z: Zlib)
    requires forall c | c in chunks :: c.Valid() && c.kind != IEND
    requires end.Valid() && end.kind == IEND
    requires at <= |bytes| && bytes[at..] == Printed(chunks, z) + end.Bytes(z) + trailer
    ensures Parsed(bytes, at, s) == AllGathered(s, chunks)
    decreases chunks
  {
    hide Parsed, Gathered;
    if chunks == [] {
      ReadsFirst(bytes, at, end, trailer, z);
      ParsedHere(bytes, at, s, end);
    } else {
      var c, tail := chunks[0], Printed(chunks[1..], z);
      var rest := tail + end.Bytes(z) + trailer;
      Reassociated(c.Bytes(z), tail, end.Bytes(z), trailer);
      ReadsFirst(bytes, at, c, rest, z);
      ParsedHere(bytes, at, s, c);
      if Gathered(s, c).Some? {
        ParsingInvertsPrinting(bytes, at + 12 + |c.data|, Gathered(s, c).value, chunks[1..], end, trailer, z);
      }
    }
  }

  lemma ParsedHere(bytes: seq<byte>, at: nat, s: Scan, c: Chunk)
    requires at + 12 <= |bytes| && at + 8 + |c.data| <= |bytes| && |c.kind| == 4
    requires ReadBE32(bytes, at) == |c.data|
    requires bytes[at + 4..at + 8] == c.kind && bytes[at + 8..at + 8 + |c.data|] == c.data
    ensures c.kind == IEND ==> Parsed(bytes, at, s) == Some(s)
    ensures c.kind != IEND && Gathered(s, c).None? ==> Parsed(bytes, at, s) == None
    ensures c.kind != IEND && Gathered(s, c).Some? ==>
              Parsed(bytes, at, s) == Parsed(bytes, at + 12 + |c.data|, Gathered(s, c).value)
  {
  }

  lemma ParsedPastEnd(bytes: seq<byte>, at: nat, s: Scan)
    ensures at + 12 > |bytes| ==> Parsed(bytes, at, s) == Some(s)
    ensures at + 12 <= |bytes| < at + 8 + ReadBE32(bytes, at) ==> Parsed(bytes, at, s) == None
  {
  }

  lemma Reassociated(a: seq<byte>, b: seq<byte>, c: seq<byte>, d: seq<byte>)
    ensures a + b + c + d == a + (b + c + d)
  {
  }

  lemma ReadsFirst(bytes: seq<byte>, at: nat, c: Chunk, rest: seq<byte>, z: Zlib)
    requires c.Valid() && at <= |bytes| && bytes[at..] == c.Bytes(z) + rest
    ensures at + 12 + |c.data| <= |bytes| && bytes[at + 12 + |c.data|..] == rest
    ensures ReadBE32(bytes, at) == |c.data|
    ensures bytes[at + 4..at + 8] == c.kind && bytes[at + 8..at + 8 + |c.data|] == c.data
  {
    var n := 12 + |c.data|;
    assert |bytes[at..]| == n + |rest|;
    assert bytes[at..at + n] == bytes[at..][..n] == c.Bytes(z);
    assert bytes[at + n..] == bytes[at..][n..] == rest;
    ReadsChunk(bytes, at, c, z);
  }

  // ---------------------------------------------------------------- reading an image

  /** Samples per pixel by colour type; 0 where the type is not one read here. */
  function Channels(colour: byte): (n: nat)
    ensures n <= 4
  {
    if colour == 0 || colour == 3 then 1 else if colour == 2 then 3 else if colour == 4 then 2 else if colour == 6 then 4 else 0
  }

  predicate Readable(h: Header, palette: Option<seq<byte>>) {
    && Channels(h.colour) != 0
    && (if h.colour == PALETTE then h.depth == 8 && palette.Some? else h.depth == 8 || h.depth == 16)
    && h.width != 0 && h.height != 0
  }

  /** Raw bytes that hold `pixels` pixels of the header's format. */
  ghost predicate Holds(raw: seq<byte>, h: Header, pixels: nat) {
    && Channels(h.colour) != 0 && (h.depth == 8 || h.depth == 16)
    && (h.colour == PALETTE ==> h.depth == 8)
    && |raw| == (if h.depth == 8 then Channels(h.colour) * pixels else 2 * (Channels(h.colour) * pixels))
  }

  lemma InRaw(raw: seq<byte>, h: Header, pixels: nat, pixel: nat)
    requires Holds(raw, h, pixels) && pixel < pixels
    ensures (pixel + 1) * Channels(h.colour) <= Channels(h.colour) * pixels
  {
  }

  /** Sample number `at`: one byte, or two bytes big-endian. */
  function Sample(raw: seq<byte>, depth: byte, at: nat): (v: nat)
    requires depth == 8 || depth == 16
    requires if depth == 8 then at < |raw| else 2 * at + 1 < |raw|
    ensures v < if depth == 8 then 0x100 else 0x10000
  {
    if depth == 8 then raw[at]
    else
      var hi: int, lo: int := raw[2 * at], raw[2 * at + 1];
      hi * 0x100 + lo
  }

  /** The red, green and blue of a pixel; `None` where the palette has no such entry. */
  function Colour(raw: seq<byte>, h: Header, palette: seq<byte>, pixels: nat, pixel: nat): (c: Option<(nat, nat, nat)>)
    requires Holds(raw, h, pixels) && pixel < pixels
    ensures c.Some? && h.depth == 8 ==> c.value.0 < 0x100
    ensures c.Some? ==> c.value.0 < 0x10000
  {
    InRaw(raw, h, pixels, pixel);
    var n := Channels(h.colour);
    if h.colour == PALETTE then
      var entry := raw[pixel] as int * 3;
      if entry + 2 >= |palette| then None
      else Some((palette[entry] as nat, palette[entry + 1] as nat, palette[entry + 2] as nat))
    else if h.colour == RGB || h.colour == 6 then
      var at := pixel * n;
      Some((Sample(raw, h.depth, at), Sample(raw, h.depth, at + 1), Sample(raw, h.depth, at + 2)))
    else
      var v := Sample(raw, h.depth, pixel * n);
      Some((v, v, v))
  }

  /** The grey value of a pixel, where it has one: equal red, green and blue, scaled to 8 bits. */
  function Grey(raw: seq<byte>, h: Header, palette: seq<byte>, pixels: nat, pixel: nat): Option<byte>
    requires Holds(raw, h, pixels) && pixel < pixels
  {
    match Colour(raw, h, palette, pixels, pixel)
    case None => None
    case Some((r, g, b)) =>
      if r != g || g != b then None
      else Some(if h.depth == 16 then Scale16(r) else r)
  }

  /** What reading finds once the chunks are gathered and inflated: an image exactly when every pixel is grey. */
  ghost predicate Reads(raw: seq<byte>, h: Header, palette: seq<byte>, pixels: nat, r: Option<GreyImage>)
    requires Holds(raw, h, pixels)
  {
    match r
    case None => exists p: nat | p < pixels :: Grey(raw, h, palette, pixels, p).None?
    case Some(image) =>
      && image.width == h.width && image.height == h.height && |image.values| == pixels
      && forall p: nat | p < pixels :: Grey(raw, h, palette, pixels, p) == Some(image.values[p])
  }

  function BytesPerPixel(h: Header): nat {
    Channels(h.colour) * h.depth as int / 8
  }

  function Stride(h: Header): nat {
    h.width * BytesPerPixel(h)
  }

  /** The raw rows of a readable image hold width x height pixels. */
  lemma RawHolds(raw: seq<byte>, h: Header)
    requires Channels(h.colour) != 0 && (h.depth == 8 || h.depth == 16) && (h.colour == PALETTE ==> h.depth == 8)
    requires |raw| == Stride(h) * h.height
    ensures BytesPerPixel(h) > 0 && Holds(raw, h, h.width * h.height)
  {
  }

  /**
   What reading a file must return. Nothing for a file without the signature, with a broken chunk, with
   no header, interlaced, of another format, over the size cap, that does not inflate to exactly its
   rows, or with an unknown filter; otherwise what its raw bytes say.
   */
  ghost predicate Decodes(bytes: seq<byte>, z: Zlib, r: Option<GreyImage>) {
    if |bytes| < 8 || bytes[..8] != SIGNATURE || Parsed(bytes, 8, NOTHING).None? then r == None
    else Renders(Parsed(bytes, 8, NOTHING).value, z, r)
  }

  ghost predicate Renders(s: Scan, z: Zlib, r: Option<GreyImage>) {
    if s.header.None? || s.header.value.interlaced || !Readable(s.header.value, s.palette) then r == None
    else
      var h := s.header.value;
      var size := (Stride(h) + 1) * h.height;
      if size > MAX_RAW_BYTES then r == None
      else
        var inflated := z.inflate(s.compressed, size);
        if inflated.None? || |inflated.value| != size then r == None
        else RendersRows(inflated.value, h, s.palette, r)
  }

  ghost predicate RendersRows(data: seq<byte>, h: Header, palette: Option<seq<byte>>, r: Option<GreyImage>)
    requires Readable(h, palette)
  {
    if !FiltersKnown(data, Stride(h), h.height) then r == None
    else
      var raw := Unfiltered(data, Stride(h), BytesPerPixel(h));
      Holds(raw, h, h.width * h.height) && Reads(raw, h, PaletteOf(palette), h.width * h.height, r)
  }

  function PaletteOf(palette: Option<seq<byte>>): seq<byte> {
    if palette.Some? then palette.value else []
  }

  /** The chunk loop. It ends on every input: each turn moves at least 12 bytes on. */
  method ScanChunks(bytes: seq<byte>) returns (r: Option<Scan>)
    requires |bytes| >= 8
    ensures r == Parsed(bytes, 8, NOTHING)
  {
    var header: Option<Header> := None;
    var palette: Option<seq<byte>> := None;
    var compressed: seq<byte> := [];
    var at := 8;
    hide Parsed, ReadBE32;
    while at + 12 <= |bytes|
      invariant at >= 8
      invariant Parsed(bytes, at, Scan(header, palette, compressed)) == Parsed(bytes, 8, NOTHING)
      decreases |bytes| - at
    {
      var length := ReadBE32(bytes, at);
      var kind := bytes[at + 4..at + 8];
      if at + 8 + length > |bytes| {
        ParsedPastEnd(bytes, at, Scan(header, palette, compressed));
        return None;
      }
      var data := bytes[at + 8..at + 8 + length];
      ParsedHere(bytes, at, Scan(header, palette, compressed), Chunk(kind, data));
      if kind == IHDR {
        if length < 13 { return None; }
        header := Some(Header(ReadBE32(data, 0), ReadBE32(data, 4), data[8], data[9], data[12] != 0));
      } else if kind == PLTE {
        palette := Some(data);
      } else if kind == IDAT {
        compressed := compressed + data;
      } else if kind == IEND {
        break;
      }
      at := at + 12 + length;
    }
    ParsedPastEnd(bytes, at, Scan(header, palette, compressed));
    return Some(Scan(header, palette, compressed));
  }

  /** The grey value of every pixel, or `None` as soon as one has none. */
  method GreyValues(raw: seq<byte>, h: Header, palette: seq<byte>, pixels: nat) returns (r: Option<GreyImage>)
    requires Holds(raw, h, pixels)
    ensures Reads(raw, h, palette, pixels, r)
  {
    var values := new byte[pixels];
    for pixel := 0 to pixels
      invariant forall p: nat | p < pixel :: Grey(raw, h, palette, pixels, p) == Some(values[p])
    {
      var colour := Colour(raw, h, palette, pixels, pixel);
      if colour.None? {
        assert Grey(raw, h, palette, pixels, pixel).None?;
        return None;
      }
      var (r, g, b) := colour.value;
      if r != g || g != b {
        assert Grey(raw, h, palette, pixels, pixel).None?;
        return None;
      }
      values[pixel] := if h.depth == 16 then Scale16(r) else r;
    }
    return Some(GreyImage(h.width, h.height, values[..]));
  }

  method DecodeGrey(bytes: seq<byte>, z: Zlib) returns (r: Option<GreyImage>)
    ensures Decodes(bytes, z, r)
  {
    hide Parsed, Unfiltered, FiltersKnown, Holds, Reads;
    if |bytes| < 8 || bytes[..8] != SIGNATURE { return None; }
    var scanned := ScanChunks(bytes);
    if scanned.None? { return None; }
    var Scan(header, palette, compressed) := scanned.value;
    if header.None? || header.value.interlaced { return None; }
    var h := header.value;
    if !Readable(h, palette) { return None; }
    var bytesPerPixel, stride := BytesPerPixel(h), Stride(h);
    if (stride + 1) * h.height > MAX_RAW_BYTES { return None; }
    var inflated := z.inflate(compressed, (stride + 1) * h.height);
    if inflated.None? || |inflated.value| != (stride + 1) * h.height { return None; }
    var raw := Unfilter(inflated.value, stride, h.height, bytesPerPixel);
    if raw.None? { return None; }
    RawHolds(raw.value, h);
    r := GreyValues(raw.value, h, PaletteOf(palette), h.width * h.height);
  }

  // ---------------------------------------------------------------- writing an image

  function HeaderChunk(width: nat, height: nat): (c: Chunk)
    requires width < 0x1_0000_0000 && height < 0x1_0000_0000
    ensures c.Valid()
  {
    Chunk(IHDR, BE32(width) + BE32(height) + [8, RGB, 0, 0, 0])
  }

  /** Every row stored with the "up" filter. */
  function UpFiltered(rgb: seq<byte>, stride: nat, height: nat): seq<byte>
    requires |rgb| == RowAt(height, stride)
  {
    Filtered(rgb, seq(height, _ => 2), stride, 3)
  }

  /** The file: signature, header, all rows deflated into one chunk, end. */
  function Encoded(width: nat, height: nat, rgb: seq<byte>, z: Zlib): seq<byte>
    requires width < 0x1_0000_0000 && height < 0x1_0000_0000
    requires |rgb| == RowAt(height, width * 3)
    requires |z.deflate(UpFiltered(rgb, width * 3, height))| < 0x1_0000_0000
  {
    SIGNATURE
      + HeaderChunk(width, height).Bytes(z)
      + Chunk(IDAT, z.deflate(UpFiltered(rgb, width * 3, height))).Bytes(z)
      + Chunk(IEND, []).Bytes(z)
  }

  lemma {:induction false} UpFilteredOneMore(rgb: seq<byte>, stride: nat, y: nat)
    requires RowAt(y + 1, stride) <= |rgb|
    ensures RowAt(y, stride) + stride == RowAt(y + 1, stride)
    ensures y == 0 || RowAt(y, stride) >= stride
    ensures 0 < stride ==> RowAt(y, stride) <= |rgb|
    ensures UpFiltered(rgb[..RowAt(y + 1, stride)], stride, y + 1)
         == UpFiltered(rgb[..RowAt(y, stride)], stride, y) + [2] + FilteredLine(rgb, RowAt(y, stride), 2, stride, 3)
  {
    RowFits(y, stride, y + 1);
    var start := RowAt(y, stride);
    var raw, types := rgb[..start + stride], seq(y + 1, _ => 2 as byte);
    assert types[..y] == seq(y, _ => 2 as byte) && raw[..start] == rgb[..start];
    var line, line' := FilteredLine(raw, start, 2, stride, 3), FilteredLine(rgb, start, 2, stride, 3);
    forall x: nat | x < stride
      ensures line[x] == line'[x]
    {
      assert raw[..start + x] == rgb[..start + x];
    }
    assert line == line';
  }

  /** Fill the buffer with filter byte 2 and, for every byte, its difference from the byte above modulo 256. */
  method FilterUp(rgb: seq<byte>, rows: array<byte>, stride: nat, height: nat)
    requires |rgb| == RowAt(height, stride) && rows.Length == RowAt(height, stride + 1)
    modifies rows
    ensures rows[..] == UpFiltered(rgb, stride, height)
  {
    var src, dst := 0, 0;
    assert RowAt(0, stride) == 0 && RowAt(0, stride + 1) == 0;
    assert rows[..0] == UpFiltered(rgb[..0], stride, 0);
    hide RowAt, UpFiltered;
    var y := 0;
    while y < height
      invariant 0 <= y <= height
      invariant src == RowAt(y, stride) <= |rgb|
      invariant dst == RowAt(y, stride + 1) <= rows.Length
      invariant rows[..dst] == UpFiltered(rgb[..src], stride, y)
    {
      RowFits(y, stride, height);
      RowFits(y, stride + 1, height);
      UpFilteredOneMore(rgb, stride, y);
      FilterUpRow(rgb, src, rows, dst, stride);
      src, dst, y := src + stride, dst + stride + 1, y + 1;
    }
    assert rgb[..src] == rgb;
    assert rows[..dst] == rows[..];
  }

  method FilterUpRow(rgb: seq<byte>, src: nat, rows: array<byte>, dst: nat, stride: nat)
    requires src + stride <= |rgb| && (src == 0 || src >= stride)
    requires dst + 1 + stride <= rows.Length
    modifies rows
    ensures rows[..dst + 1 + stride] == old(rows[..dst]) + [2] + FilteredLine(rgb, src, 2, stride, 3)
  {
    ghost var before, line := rows[..dst], FilteredLine(rgb, src, 2, stride, 3);
    rows[dst] := 2;
    for x := 0 to stride
      invariant rows[..dst + 1 + x] == before + [2] + line[..x]
    {
      var above: int := if src > 0 then rgb[src + x - stride] else 0;
      rows[dst + 1 + x] := (rgb[src + x] - above) % 256;
      assert above == Predicted(2, rgb[..src + x], stride, 3, x);
      assert line[..x + 1] == line[..x] + [line[x]];
    }
    assert line[..stride] == line;
  }

  method EncodeRgb(width: nat, height: nat, rgb: seq<byte>, z: Zlib) returns (file: seq<byte>)
    requires width < 0x1_0000_0000 && height < 0x1_0000_0000
    requires |rgb| == RowAt(height, width * 3)
    requires |z.deflate(UpFiltered(rgb, width * 3, height))| < 0x1_0000_0000
    ensures file == Encoded(width, height, rgb, z)
  {
    var stride := width * 3;
    RowAtIsProduct(height, stride + 1);
    var rows := new byte[(stride + 1) * height];
    FilterUp(rgb, rows, stride, height);
    file := SIGNATURE
      + HeaderChunk(width, height).Bytes(z)
      + Chunk(IDAT, z.deflate(rows[..])).Bytes(z)
      + Chunk(IEND, []).Bytes(z);
  }

  // ---------------------------------------------------------------- round trips

  /** A scan whose inflated rows are the raw bytes of a readable image, row y stored with filter `types[y]`. */
  ghost predicate Stores(s: Scan, raw: seq<byte>, types: seq<byte>, z: Zlib) {
    && s.header.Some? && !s.header.value.interlaced && Readable(s.header.value, s.palette)
    && var h := s.header.value;
      && (Stride(h) + 1) * h.height <= MAX_RAW_BYTES
      && |types| == h.height && |raw| == RowAt(h.height, Stride(h)) && (forall t | t in types :: t <= 4)
      && BytesPerPixel(h) > 0
      && s.compressed == z.deflate(Filtered(raw, types, Stride(h), BytesPerPixel(h)))
  }

  /** The result says what the raw bytes say. */
  ghost predicate SaysRaw(s: Scan, raw: seq<byte>, r: Option<GreyImage>) {
    && s.header.Some?
    && var h := s.header.value;
      Holds(raw, h, h.width * h.height) && Reads(raw, h, PaletteOf(s.palette), h.width * h.height, r)
  }

  /**
   Reading undoes any conforming writer: whatever the format, the filter of each row, the other chunks,
   the way the deflated rows are cut into IDAT chunks and what follows IEND, the result is what the raw
   bytes say.
   */
  lemma ReadingInvertsWriting(
    bytes: seq<byte>, chunks: seq<Chunk>, end: Chunk, trailer: seq<byte>,
    s: Scan, raw: seq<byte>, types: seq<byte>, z: Zlib, r: Option<GreyImage>)
    requires InflateUndoesDeflate(z)
    requires forall c | c in chunks :: c.Valid() && c.kind != IEND
    requires end.Valid() && end.kind == IEND
    requires bytes == SIGNATURE + (Printed(chunks, z) + end.Bytes(z) + trailer)
    requires AllGathered(NOTHING, chunks) == Some(s) && Stores(s, raw, types, z)
    requires Decodes(bytes, z, r)
    ensures SaysRaw(s, raw, r)
  {
    hide Stores, Renders, Gathered;
    assert bytes[..8] == SIGNATURE && bytes[8..] == Printed(chunks, z) + end.Bytes(z) + trailer;
    ParsingInvertsPrinting(bytes, 8, NOTHING, chunks, end, trailer, z);
    RenderingStored(s, raw, types, z, r);
  }

  lemma RenderingStored(s: Scan, raw: seq<byte>, types: seq<byte>, z: Zlib, r: Option<GreyImage>)
    requires InflateUndoesDeflate(z) && Stores(s, raw, types, z) && Renders(s, z, r)
    ensures SaysRaw(s, raw, r)
  {
    hide Reads, Filtered, Unfiltered;
    var h := s.header.value;
    var stride, bpp := Stride(h), BytesPerPixel(h);
    RowAtIsProduct(h.height, stride + 1);
    RowAtIsProduct(h.height, stride);
    UnfilteringInvertsFiltering(raw, types, stride, bpp);
    RawHolds(raw, h);
    AllFiltersKnown(raw, types, stride, bpp);
  }

  lemma AllFiltersKnown(raw: seq<byte>, types: seq<byte>, stride: nat, bpp: nat)
    requires 0 < bpp && |raw| == RowAt(|types|, stride) && forall t | t in types :: t <= 4
    ensures FiltersKnown(Filtered(raw, types, stride, bpp), stride, |types|)
  {
    forall y: nat | y < |types|
      ensures FilterAt(Filtered(raw, types, stride, bpp), stride, y) <= 4
    {
      FilterBytesStored(raw, types, stride, bpp, y);
      assert types[y] in types;
    }
  }

  /** Every pixel has equal red, green and blue. */
  ghost predicate AllGrey(rgb: seq<byte>, pixels: nat)
    requires |rgb| == 3 * pixels
  {
    forall p: nat | p < pixels :: rgb[3 * p] == rgb[3 * p + 1] == rgb[3 * p + 2]
  }

  /** What the writer writes the reader reads back, and the reader refuses it exactly when some pixel is not grey. */
  lemma DecodingInvertsEncoding(width: nat, height: nat, rgb: seq<byte>, z: Zlib, r: Option<GreyImage>)
    requires InflateUndoesDeflate(z)
    requires 0 < width && 0 < height && (width * 3 + 1) * height <= 67108864
    requires |rgb| == RowAt(height, width * 3)
    requires |z.deflate(UpFiltered(rgb, width * 3, height))| < 0x1_0000_0000
    requires width < 0x1_0000_0000 && height < 0x1_0000_0000
    requires Decodes(Encoded(width, height, rgb, z), z, r)
    ensures |rgb| == 3 * (width * height)
    ensures r.Some? <==> AllGrey(rgb, width * height)
    ensures r.Some? ==>
      && r.value.width == width && r.value.height == height && |r.value.values| == width * height
      && forall p: nat | p < width * height :: r.value.values[p] == rgb[3 * p]
  {
    hide Decodes, Stores, Reads, UpFiltered, Encoded, RowAt, Printed, AllGathered, Gathered;
    var dc, end := Chunk(IDAT, z.deflate(UpFiltered(rgb, width * 3, height))), Chunk(IEND, []);
    var hc, s := HeaderChunk(width, height), Scan(Some(Header(width, height, 8, RGB, false)), None, dc.data);
    GathersWritten(width, height, dc, s);
    EncodedIsPrinted(width, height, rgb, z);
    StoresWritten(width, height, rgb, z, s);
    ReadingInvertsWriting(Encoded(width, height, rgb, z), [hc, dc], end, [], s, rgb, seq(height, _ => 2), z, r);
    GreyOfRgb(rgb, s.header.value, width * height, r);
  }

  lemma EncodedIsPrinted(width: nat, height: nat, rgb: seq<byte>, z: Zlib)
    requires width < 0x1_0000_0000 && height < 0x1_0000_0000
    requires |rgb| == RowAt(height, width * 3)
    requires |z.deflate(UpFiltered(rgb, width * 3, height))| < 0x1_0000_0000
    ensures var dc := Chunk(IDAT, z.deflate(UpFiltered(rgb, width * 3, height)));
      Encoded(width, height, rgb, z)
        == SIGNATURE + (Printed([HeaderChunk(width, height), dc], z) + Chunk(IEND, []).Bytes(z) + [])
  {
    var dc := Chunk(IDAT, z.deflate(UpFiltered(rgb, width * 3, height)));
    PrintedTwo(HeaderChunk(width, height), dc, z);
    Joined(SIGNATURE, HeaderChunk(width, height).Bytes(z), dc.Bytes(z), Chunk(IEND, []).Bytes(z));
  }

  lemma Joined(a: seq<byte>, b: seq<byte>, c: seq<byte>, d: seq<byte>)
    ensures a + b + c + d == a + ((b + c) + d + [])
  {
  }

  lemma PrintedTwo(a: Chunk, b: Chunk, z: Zlib)
    requires a.Valid() && b.Valid()
    ensures Printed([a, b], z) == a.Bytes(z) + b.Bytes(z)
  {
    assert [a, b][1..] == [b];
    assert Printed([b], z) == b.Bytes(z) + [];
  }

  lemma StoresWritten(width: nat, height: nat, rgb: seq<byte>, z: Zlib, s: Scan)
    requires 0 < width && 0 < height && (width * 3 + 1) * height <= MAX_RAW_BYTES
    requires |rgb| == RowAt(height, width * 3)
    requires s == Scan(Some(Header(width, height, 8, RGB, false)), None, z.deflate(UpFiltered(rgb, width * 3, height)))
    ensures Stores(s, rgb, seq(height, _ => 2), z)
  {
  }

  lemma GathersWritten(width: nat, height: nat, dc: Chunk, s: Scan)
    requires width < 0x1_0000_0000 && height < 0x1_0000_0000
    requires dc.kind == IDAT && s == Scan(Some(Header(width, height, 8, RGB, false)), None, dc.data)
    ensures AllGathered(NOTHING, [HeaderChunk(width, height), dc]) == Some(s)
  {
    var hc := HeaderChunk(width, height);
    ReadsBackBE32(width, hc.data, 0);
    ReadsBackBE32(height, hc.data, 4);
    var s1 := Scan(s.header, None, []);
    assert Gathered(NOTHING, hc) == Some(s1);
    assert [hc, dc][1..] == [dc] && [dc][1..] == [];
    assert [] + dc.data == dc.data;
    assert Gathered(s1, dc) == Some(s);
    assert AllGathered(s, []) == Some(s);
    assert AllGathered(s1, [dc]) == Some(s);
  }

  lemma GreyOfRgb(rgb: seq<byte>, h: Header, pixels: nat, r: Option<GreyImage>)
    requires h.colour == RGB && h.depth == 8 && Holds(rgb, h, pixels) && Reads(rgb, h, [], pixels, r)
    ensures r.Some? <==> AllGrey(rgb, pixels)
    ensures r.Some? ==> r.value.width == h.width && r.value.height == h.height && |r.value.values| == pixels
    ensures r.Some? ==> forall p: nat | p < pixels :: r.value.values[p] == rgb[3 * p]
  {
    forall p: nat | p < pixels
      ensures Grey(rgb, h, [], pixels, p) == GreyByte(rgb[3 * p], rgb[3 * p + 1], rgb[3 * p + 2])
    {
    }
  }

  function GreyByte(r: byte, g: byte, b: byte): Option<byte> {
    if r == g == b then Some(r) else None
  }

  // ---------------------------------------------------------------- the format, byte by byte

  /** Which images are read: grey, RGB and their variants with transparency at 8 or 16 bits, and palette images at 8, of some size. */
  lemma ReadableExactly(h: Header, palette: Option<seq<byte>>)
    ensures Readable(h, palette) <==>
      && h.width > 0 && h.height > 0
      && (((h.colour == 0 || h.colour == 2 || h.colour == 4 || h.colour == 6) && (h.depth == 8 || h.depth == 16))
          || (h.colour == 3 && h.depth == 8 && palette.Some?))
  {
  }

  /** The value of the 16-bit sample at this byte, most significant byte first, scaled to 8 bits. */
  function Wide(raw: seq<byte>, at: nat): byte
    requires at + 1 < |raw|
  {
    Scale16(256 * raw[at] as int + raw[at + 1] as int)
  }

  /** Equal red, green and blue. */
  predicate Same3(s: seq<byte>, at: nat, apart: nat)
    requires at + 2 * apart < |s|
  {
    s[at] == s[at + apart] == s[at + 2 * apart]
  }

  /** The grey of a pixel in each 8-bit format: the sample itself, or the red one where all three are equal. */
  lemma NarrowGrey(raw: seq<byte>, h: Header, palette: seq<byte>, pixels: nat, p: nat)
    requires Holds(raw, h, pixels) && p < pixels && h.depth == 8
    ensures h.colour == 0 ==> p < |raw| && Grey(raw, h, palette, pixels, p) == Some(raw[p])
    ensures h.colour == 4 ==> 2 * p < |raw| && Grey(raw, h, palette, pixels, p) == Some(raw[2 * p])
    ensures h.colour == 2 ==>
      3 * p + 2 < |raw| && Grey(raw, h, palette, pixels, p) == if Same3(raw, 3 * p, 1) then Some(raw[3 * p]) else None
    ensures h.colour == 6 ==>
      4 * p + 2 < |raw| && Grey(raw, h, palette, pixels, p) == if Same3(raw, 4 * p, 1) then Some(raw[4 * p]) else None
    ensures h.colour == 3 ==> p < |raw| && var entry := 3 * raw[p] as int;
      Grey(raw, h, palette, pixels, p) == if entry + 2 < |palette| && Same3(palette, entry, 1) then Some(palette[entry]) else None
  {
    InRaw(raw, h, pixels, p);
  }

  /** And in each 16-bit format, where all bytes of the three samples must be equal. */
  lemma WideGrey(raw: seq<byte>, h: Header, palette: seq<byte>, pixels: nat, p: nat)
    requires Holds(raw, h, pixels) && p < pixels && h.depth == 16
    ensures h.colour == 0 ==> 2 * p + 1 < |raw| && Grey(raw, h, palette, pixels, p) == Some(Wide(raw, 2 * p))
    ensures h.colour == 4 ==> 4 * p + 1 < |raw| && Grey(raw, h, palette, pixels, p) == Some(Wide(raw, 4 * p))
    ensures h.colour == 2 ==>
      && 6 * p + 5 < |raw|
      && Grey(raw, h, palette, pixels, p) == if Same3(raw, 6 * p, 2) && Same3(raw, 6 * p + 1, 2) then Some(Wide(raw, 6 * p)) else None
    ensures h.colour == 6 ==>
      && 8 * p + 5 < |raw|
      && Grey(raw, h, palette, pixels, p) == if Same3(raw, 8 * p, 2) && Same3(raw, 8 * p + 1, 2) then Some(Wide(raw, 8 * p)) else None
  {
    InRaw(raw, h, pixels, p);
  }

  /** This is n, written in four bytes with the most significant first. */
  predicate Spells(s: seq<byte>, at: nat, n: nat)
    requires at + 4 <= |s|
  {
    n == ((s[at] as int * 256 + s[at + 1] as int) * 256 + s[at + 2] as int) * 256 + s[at + 3] as int
  }

  /** Where the header says what: width and height first, then depth, colour type, and whether it is interlaced. */
  lemma HeaderFields(c: Chunk, s: Scan)
    requires c.kind == [73, 72, 68, 82] && |c.data| >= 13
    ensures Gathered(s, c).Some? && Gathered(s, c).value.header.Some?
    ensures var h := Gathered(s, c).value.header.value;
      && Spells(c.data, 0, h.width) && Spells(c.data, 4, h.height) && h.depth == c.data[8] && h.colour == c.data[9]
      && (h.interlaced <==> c.data[12] != 0)
  {
  }

  lemma SpellsBE32(n: nat, s: seq<byte>, at: nat)
    requires n < 0x1_0000_0000 && at + 4 <= |s| && s[at..at + 4] == BE32(n)
    ensures Spells(s, at, n)
  {
    ReadsBackBE32(n, s, at);
  }

  /** A chunk in a file at this byte: length, type, data, and the checksum of the two. */
  predicate ChunkAt(file: seq<byte>, at: nat, kind: seq<byte>, data: seq<byte>, z: Zlib) {
    && |kind| == 4 && at + 12 + |data| <= |file|
    && Spells(file, at, |data|) && file[at + 4..at + 8] == kind && file[at + 8..at + 8 + |data|] == data
    && Spells(file, at + 8 + |data|, z.crc(kind + data) % 0x1_0000_0000)
  }

  lemma ChunkLies(file: seq<byte>, at: nat, c: Chunk, z: Zlib)
    requires c.Valid() && at + 12 + |c.data| <= |file| && file[at..at + 12 + |c.data|] == c.Bytes(z)
    ensures ChunkAt(file, at, c.kind, c.data, z)
  {
    var b, n := c.Bytes(z), |c.data|;
    ReadsChunk(file, at, c, z);
    assert b[..4] == BE32(n) && b[8 + n..12 + n] == BE32(z.crc(c.kind + c.data) % 0x1_0000_0000);
    PartOf(file, at, b, 0, 4);
    PartOf(file, at, b, 8 + n, 12 + n);
    SpellsBE32(n, file, at);
    SpellsBE32(z.crc(c.kind + c.data) % 0x1_0000_0000, file, at + 8 + n);
  }

  /**
   The file that is written, byte by byte: the signature; a header of 13 bytes with width, height, depth 8, colour type
   2 and three zeros; the deflated rows; an empty end.
   */
  lemma EncodedLayout(width: nat, height: nat, rgb: seq<byte>, z: Zlib)
    requires width < 0x1_0000_0000 && height < 0x1_0000_0000
    requires |rgb| == RowAt(height, width * 3)
    requires |z.deflate(UpFiltered(rgb, width * 3, height))| < 0x1_0000_0000
    ensures var file, rows := Encoded(width, height, rgb, z), z.deflate(UpFiltered(rgb, width * 3, height));
      && |file| == 57 + |rows| && file[..8] == [137, 80, 78, 71, 13, 10, 26, 10]
      && ChunkAt(file, 8, [73, 72, 68, 82], file[16..29], z) && Spells(file, 16, width) && Spells(file, 20, height)
      && file[24..29] == [8, 2, 0, 0, 0]
      && ChunkAt(file, 33, [73, 68, 65, 84], rows, z) && ChunkAt(file, 45 + |rows|, [73, 69, 78, 68], [], z)
  {
    hide UpFiltered, BE32, Spells, ChunkAt, Encoded;
    var file, rows := Encoded(width, height, rgb, z), z.deflate(UpFiltered(rgb, width * 3, height));
    ChunksLie(width, height, rgb, z);
    ChunkLies(file, 8, HeaderChunk(width, height), z);
    ChunkLies(file, 33, Chunk(IDAT, rows), z);
    ChunkLies(file, 45 + |rows|, Chunk(IEND, []), z);
    HeaderLies(file, width, height, z);
  }

  lemma ChunksLie(width: nat, height: nat, rgb: seq<byte>, z: Zlib)
    requires width < 0x1_0000_0000 && height < 0x1_0000_0000
    requires |rgb| == RowAt(height, width * 3)
    requires |z.deflate(UpFiltered(rgb, width * 3, height))| < 0x1_0000_0000
    ensures var file, rows := Encoded(width, height, rgb, z), z.deflate(UpFiltered(rgb, width * 3, height));
      && |file| == 57 + |rows| && file[..8] == SIGNATURE && file[8..33] == HeaderChunk(width, height).Bytes(z)
      && file[33..45 + |rows|] == Chunk(IDAT, rows).Bytes(z) && file[45 + |rows|..57 + |rows|] == Chunk(IEND, []).Bytes(z)
  {
    hide UpFiltered, BE32, RowAt;
    var rows := z.deflate(UpFiltered(rgb, width * 3, height));
    FourParts(SIGNATURE, HeaderChunk(width, height).Bytes(z), Chunk(IDAT, rows).Bytes(z), Chunk(IEND, []).Bytes(z));
  }

  lemma FourParts(a: seq<byte>, b: seq<byte>, c: seq<byte>, d: seq<byte>)
    ensures var s := a + b + c + d; var i, j := |a| + |b|, |a| + |b| + |c|;
      |s| == j + |d| && s[..|a|] == a && s[|a|..i] == b && s[i..j] == c && s[j..j + |d|] == d
  {
  }

  lemma HeaderLies(file: seq<byte>, width: nat, height: nat, z: Zlib)
    requires width < 0x1_0000_0000 && height < 0x1_0000_0000
    requires |file| >= 33 && file[8..33] == HeaderChunk(width, height).Bytes(z)
    ensures file[16..29] == HeaderChunk(width, height).data && Spells(file, 16, width) && Spells(file, 20, height)
    ensures file[24..29] == [8, 2, 0, 0, 0]
  {
    hide BE32, Spells;
    var c := HeaderChunk(width, height);
    ReadsChunk(file, 8, c, z);
    PartOf(file, 16, c.data, 0, 4);
    PartOf(file, 16, c.data, 4, 8);
    PartOf(file, 16, c.data, 8, 13);
    SpellsBE32(width, file, 16);
    SpellsBE32(height, file, 20);
  }

  /** The rows that are deflated: each begins with filter type 2, and undoing that filter by the standard gives the image. */
  lemma RowsStoredUp(rgb: seq<byte>, stride: nat, height: nat, y: nat, x: nat)
    requires |rgb| == RowAt(height, stride) && y < height && x < stride
    ensures var rows := UpFiltered(rgb, stride, height);
      |rows| == RowAt(height, stride + 1) && FilterAt(rows, stride, y) == 2 && RawByte(rows, rgb, stride, 3, y, x)
  {
    hide RawByte, FilterAt, Filtered, Unfiltered;
    var types := seq(height, _ => 2 as byte);
    UnfilteringInvertsFiltering(rgb, types, stride, 3);
    FilterBytesStored(rgb, types, stride, 3, y);
    UnfilteredBytes(UpFiltered(rgb, stride, height), stride, height, 3, y, x);
  }
}
