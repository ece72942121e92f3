/** The padding scheme of src/core/padding.rs. */
module Paddings {
  import opened Wrappers
  import opened Bytes
  import opened Texts
  import opened StringMaps

  const CHECK_MARK: int := -1

  /**
   * A parsed scheme. `md5` is the digest function, which the model leaves open: every statement
   * holds for every digest.
   */
  datatype PaddingFactory = PaddingFactory(rawScheme: Text, stop: u32, md5: Text, scheme: StringMap)

  const STOP: Text := Ascii("stop")

  /** `PaddingFactory::new`. */
  function NewFactory(rawScheme: Text, digest: Text -> Text): (r: Option<PaddingFactory>)
    ensures r.Some? <==>
              STOP in FromBytes(rawScheme) && ParseUnsigned(FromBytes(rawScheme)[STOP], 0xFFFF_FFFF).Some?
    ensures r.Some? ==>
              && r.value.rawScheme == rawScheme && r.value.md5 == digest(rawScheme)
              && r.value.scheme == FromBytes(rawScheme)
              && ParseUnsigned(r.value.scheme[STOP], 0xFFFF_FFFF) == Some(r.value.stop)
  {
    var scheme := FromBytes(rawScheme);
    if STOP !in scheme then None
    else
      match ParseUnsigned(scheme[STOP], 0xFFFF_FFFF)
      case None => None
      case Some(stop) => Some(PaddingFactory(rawScheme, stop, digest(rawScheme), scheme))
  }

  /** One comma-separated piece of a packet's entry: a check mark or a range, bounds in order. */
  datatype Piece = Check | Range(low: int, high: int)

  const CHECK_PIECE: Text := Ascii("c")

  function ParsePiece(value: Text): (r: Option<Piece>)
    ensures r.Some? && r.value.Range? ==> 0 < r.value.low <= r.value.high <= I64_MAX
  {
    if value == CHECK_PIECE then Some(Check)
    else
      match SplitOnce(value, DASH)
      case None => None
      case Some((minimum, maximum)) =>
        match (ParseI64(minimum), ParseI64(maximum))
        case (Some(a), Some(b)) =>
          var low, high := if a > b then b else a, if a > b then a else b;
          if low <= 0 || high <= 0 then None else Some(Range(low, high))
        case _ => None
  }

  /** Rust's `as i32` on an i64: the low 32 bits, read as a signed number. */
  function AsI32(x: int): (r: int)
    ensures -0x8000_0000 <= r < 0x8000_0000
    ensures -0x8000_0000 <= x < 0x8000_0000 ==> r == x
    ensures (x - r) % 0x1_0000_0000 == 0
  {
    var low := x % 0x1_0000_0000;
    if low < 0x8000_0000 then low else low - 0x1_0000_0000
  }

  /** The sizes a piece may yield: the upper bound of a proper range is exclusive. */
  ghost predicate MayDraw(piece: Piece, size: int) {
    match piece
    case Check => size == CHECK_MARK
    case Range(low, high) =>
      if low == high then size == AsI32(low)
      else exists v :: low <= v < high && size == AsI32(v)
  }

  function ParsePieces(values: seq<Text>): seq<Piece> {
    if values == [] then []
    else
      var earlier := ParsePieces(values[..|values| - 1]);
      match ParsePiece(values[|values| - 1])
      case Some(piece) => earlier + [piece]
      case None => earlier
  }

  /** The pieces of the entry for a packet; none when the scheme has no such entry. */
  function PiecesFor(f: PaddingFactory, packet: u32): seq<Piece> {
    if Decimal(packet) in f.scheme then ParsePieces(Split(f.scheme[Decimal(packet)], COMMA)) else []
  }

  /** The possible results of `generate_record_payload_sizes`. */
  ghost predicate MayGenerate(f: PaddingFactory, packet: u32, sizes: seq<int>) {
    var pieces := PiecesFor(f, packet);
    |sizes| == |pieces| && forall i :: 0 <= i < |sizes| ==> MayDraw(pieces[i], sizes[i])
  }

  /** `parse_range` with its random draw. */
  method ParseRange(value: Text) returns (r: Option<int>)
    ensures r.Some? <==> ParsePiece(value).Some?
    ensures r.Some? ==> MayDraw(ParsePiece(value).value, r.value)
  {
    if value == CHECK_PIECE {
      return Some(CHECK_MARK);
    }
    var bounds := SplitOnce(value, DASH);
    if bounds.None? {
      return None;
    }
    var minimumParsed, maximumParsed := ParseI64(bounds.value.0), ParseI64(bounds.value.1);
    if minimumParsed.None? || maximumParsed.None? {
      return None;
    }
    var minimum, maximum := minimumParsed.value, maximumParsed.value;
    if minimum > maximum {
      minimum, maximum := maximum, minimum;
    }
    if minimum <= 0 || maximum <= 0 {
      return None;
    }
    if minimum == maximum {
      return Some(AsI32(minimum));
    }
    assert minimum <= minimum < maximum;
    var drawn :| minimum <= drawn < maximum;
    return Some(AsI32(drawn));
  }

  method GenerateRecordPayloadSizes(f: PaddingFactory, packet: u32) returns (sizes: seq<int>)
    ensures MayGenerate(f, packet, sizes)
  {
    sizes := [];
    if Decimal(packet) !in f.scheme {
      return;
    }
    var values := Split(f.scheme[Decimal(packet)], COMMA);
    for i := 0 to |values|
      invariant |sizes| == |ParsePieces(values[..i])|
      invariant forall j :: 0 <= j < |sizes| ==> MayDraw(ParsePieces(values[..i])[j], sizes[j])
    {
      assert values[..i + 1][..i] == values[..i];
      var size := ParseRange(values[i]);
      if size.Some? {
        sizes := sizes + [size.value];
      }
    }
    assert values[..|values|] == values;
  }

  /** Every size of a range survives the cast to i32 and fits a frame's length field. */
  predicate BoundedPiece(piece: Piece) {
    piece.Range? ==> piece.high <= 0xFFFF
  }

  ghost predicate BoundedScheme(f: PaddingFactory) {
    forall packet: u32, i :: 0 <= i < |PiecesFor(f, packet)| ==> BoundedPiece(PiecesFor(f, packet)[i])
  }

  /** A size the writer can pad to without cutting the length field. */
  predicate FrameSize(size: int) {
    size == CHECK_MARK || 0 < size <= 0xFFFF
  }

  /** A scheme whose ranges stay within u16 only ever yields check marks and frame sizes. */
  lemma BoundedSchemeSizes(f: PaddingFactory, packet: u32, sizes: seq<int>)
    requires BoundedScheme(f) && MayGenerate(f, packet, sizes)
    ensures forall i :: 0 <= i < |sizes| ==> FrameSize(sizes[i])
  {
    var pieces := PiecesFor(f, packet);
    ParsedRangesPositive(f, packet);
    forall i | 0 <= i < |sizes|
      ensures FrameSize(sizes[i])
    {
      assert BoundedPiece(pieces[i]) && MayDraw(pieces[i], sizes[i]);
    }
  }

  lemma {:induction false} PiecesPositive(values: seq<Text>)
    ensures forall i :: 0 <= i < |ParsePieces(values)| && ParsePieces(values)[i].Range? ==>
              0 < ParsePieces(values)[i].low <= ParsePieces(values)[i].high
  {
    if values != [] {
      PiecesPositive(values[..|values| - 1]);
    }
  }

  lemma ParsedRangesPositive(f: PaddingFactory, packet: u32)
    ensures forall i :: 0 <= i < |PiecesFor(f, packet)| && PiecesFor(f, packet)[i].Range? ==>
              0 < PiecesFor(f, packet)[i].low <= PiecesFor(f, packet)[i].high
  {
    if Decimal(packet) in f.scheme {
      PiecesPositive(Split(f.scheme[Decimal(packet)], COMMA));
    }
  }
}
