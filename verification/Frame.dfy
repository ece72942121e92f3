/**
 * The session frame of src/core/frame.rs: one command byte, a big-endian u32 stream id,
 * a big-endian u16 length and the payload; the encoder, the decoder, and the decoder applied
 * to a whole byte log.
 */
module Frames {
  import opened Wrappers
  import opened Bytes

  const HEADER_OVERHEAD_SIZE: nat := 7
  const MAX_FRAME_DATA_SIZE: nat := 0xFFFF

  datatype Command =
    | Waste
    | Syn
    | Push
    | Fin
    | Settings
    | Alert
    | UpdatePaddingScheme
    | SynAck
    | HeartRequest
    | HeartResponse
    | ServerSettings
  {
    function Code(): byte {
      match this
      case Waste => 0
      case Syn => 1
      case Push => 2
      case Fin => 3
      case Settings => 4
      case Alert => 5
      case UpdatePaddingScheme => 6
      case SynAck => 7
      case HeartRequest => 8
      case HeartResponse => 9
      case ServerSettings => 10
    }

    predicate ValidStreamId(streamId: u32) {
      match this
      case Syn | Push | Fin | SynAck => streamId > 0
      case _ => streamId == 0
    }

    predicate AllowsData() {
      this in {Waste, Push, Settings, Alert, UpdatePaddingScheme, SynAck, ServerSettings}
    }
  }

  function FromCode(code: byte): Option<Command> {
    match code
    case 0 => Some(Waste)
    case 1 => Some(Syn)
    case 2 => Some(Push)
    case 3 => Some(Fin)
    case 4 => Some(Settings)
    case 5 => Some(Alert)
    case 6 => Some(UpdatePaddingScheme)
    case 7 => Some(SynAck)
    case 8 => Some(HeartRequest)
    case 9 => Some(HeartResponse)
    case 10 => Some(ServerSettings)
    case _ => None
  }

  datatype Frame = Frame(command: Command, streamId: u32, data: seq<byte>) {
    /** The frames `encode` accepts. */
    predicate Fits() {
      |data| <= MAX_FRAME_DATA_SIZE
    }
  }

  /** The numbering in `Command` and the one in `TryFrom<u8>` are inverse to each other. */
  lemma CommandCodes(c: Command, code: byte)
    ensures FromCode(c.Code()) == Some(c)
    ensures FromCode(code).Some? ==> FromCode(code).value.Code() == code
    ensures FromCode(code).None? <==> code > 10
    ensures Waste.Code() == 0 && Syn.Code() == 1 && Push.Code() == 2 && Fin.Code() == 3 && Settings.Code() == 4
    ensures Alert.Code() == 5 && UpdatePaddingScheme.Code() == 6 && SynAck.Code() == 7
    ensures HeartRequest.Code() == 8 && HeartResponse.Code() == 9 && ServerSettings.Code() == 10
  {
  }

  function Header(command: Command, streamId: u32, length: u16): (bytes: seq<byte>)
    ensures |bytes| == HEADER_OVERHEAD_SIZE
  {
    [command.Code()] + ToBe32(streamId) + ToBe16(length)
  }

  /** The bytes `encode` produces for a frame that fits. */
  function Wire(f: Frame): (bytes: seq<byte>)
    requires f.Fits()
    ensures |bytes| == HEADER_OVERHEAD_SIZE + |f.data|
  {
    Header(f.command, f.streamId, |f.data|) + f.data
  }

  /** A frame on the wire: the command, the stream id and the length most significant byte first, the data. */
  lemma WireLayout(f: Frame)
    requires f.Fits()
    ensures var bytes := Wire(f);
            && bytes[0] == f.command.Code()
            && bytes[1] as int * 0x100_0000 + bytes[2] as int * 0x1_0000 + bytes[3] as int * 0x100 + bytes[4] as int
               == f.streamId
            && bytes[5] as int * 0x100 + bytes[6] as int == |f.data|
            && bytes[7..] == f.data
  {
    assert Wire(f)[1..5] == ToBe32(f.streamId) && Wire(f)[5..7] == ToBe16(|f.data|);
  }

  datatype EncodeError = DataExceedsU16

  method Encode(f: Frame) returns (r: Result<seq<byte>, EncodeError>)
    ensures r.Ok? <==> f.Fits()
    ensures r.Ok? ==> r.value == Wire(f)
  {
    if |f.data| > MAX_FRAME_DATA_SIZE {
      return Err(DataExceedsU16);
    }
    var encoded: seq<byte> := [f.command.Code()];
    encoded := encoded + ToBe32(f.streamId);
    encoded := encoded + ToBe16(TruncateToU16(|f.data|));
    encoded := encoded + f.data;
    return Ok(encoded);
  }

  datatype ReadError = UnexpectedEof | UnknownCommand(code: byte)

  datatype Reading =
    | EndOfInput
    | Got(frame: Frame, rest: seq<byte>)
    | Failed(error: ReadError)

  /** What `read_from_or_eof` makes of an input that then ends. */
  function ReadFrame(input: seq<byte>): Reading {
    if input == [] then EndOfInput
    else if |input| < HEADER_OVERHEAD_SIZE then Failed(UnexpectedEof)
    else
      match FromCode(input[0])
      case None => Failed(UnknownCommand(input[0]))
      case Some(command) =>
        var length := FromBe16(input[5..7]);
        if |input| < HEADER_OVERHEAD_SIZE + length then Failed(UnexpectedEof)
        else
          var end := HEADER_OVERHEAD_SIZE + length;
          Got(Frame(command, FromBe32(input[1..5]), input[HEADER_OVERHEAD_SIZE..end]), input[end..])
  }

  /** Decoding stops at the bytes of one frame, whatever follows them. */
  lemma ReadsWire(f: Frame, rest: seq<byte>)
    requires f.Fits()
    ensures ReadFrame(Wire(f) + rest) == Got(f, rest)
  {
    var input := Wire(f) + rest;
    CommandCodes(f.command, 0);
    Be32RoundTrip(f.streamId);
    Be16RoundTrip(|f.data|);
    assert input[1..5] == ToBe32(f.streamId);
    assert input[5..7] == ToBe16(|f.data|);
    var end := HEADER_OVERHEAD_SIZE + |f.data|;
    assert input[HEADER_OVERHEAD_SIZE..end] == f.data;
    assert input[end..] == rest;
  }

  /** Only the encoding of a frame decodes to it: no two byte strings carry the same frame. */
  lemma WireIsUnique(input: seq<byte>)
    requires ReadFrame(input).Got?
    ensures ReadFrame(input).frame.Fits()
    ensures input == Wire(ReadFrame(input).frame) + ReadFrame(input).rest
    ensures |ReadFrame(input).rest| < |input|
  {
    var f := ReadFrame(input).frame;
    CommandCodes(f.command, input[0]);
    Be32Inverse(input[1..5]);
    Be16Inverse(input[5..7]);
    assert input[..HEADER_OVERHEAD_SIZE] == [input[0]] + input[1..5] + input[5..7];
  }

  /** A proper non-empty part of one frame is an unexpected end of input, never another frame. */
  lemma PartialWire(f: Frame, k: nat)
    requires f.Fits()
    requires 0 < k < |Wire(f)|
    ensures ReadFrame(Wire(f)[..k]) == Failed(UnexpectedEof)
  {
    CommandCodes(f.command, 0);
    if k >= HEADER_OVERHEAD_SIZE {
      Be16RoundTrip(|f.data|);
      assert Wire(f)[..k][5..7] == ToBe16(|f.data|);
    }
  }

  /** How decoding a log ends: between frames, inside one, or at a byte that is no command. */
  datatype End = Boundary | Cut | Misframed(code: byte)

  datatype Decoding = Decoding(frames: seq<Frame>, end: End)

  /** The frames a peer reads from a byte log that ends there. */
  function Decode(input: seq<byte>): Decoding
    decreases |input|
  {
    match ReadFrame(input)
    case EndOfInput => Decoding([], Boundary)
    case Failed(UnexpectedEof) => Decoding([], Cut)
    case Failed(UnknownCommand(code)) => Decoding([], Misframed(code))
    case Got(f, rest) =>
      WireIsUnique(input);
      var later := Decode(rest);
      Decoding([f] + later.frames, later.end)
  }

  lemma DecodeOneFrame(f: Frame, rest: seq<byte>)
    requires f.Fits()
    ensures Decode(Wire(f) + rest) == Decoding([f] + Decode(rest).frames, Decode(rest).end)
  {
    ReadsWire(f, rest);
  }

  lemma DecodePartialFrame(f: Frame, k: nat)
    requires f.Fits()
    requires 0 < k < |Wire(f)|
    ensures Decode(Wire(f)[..k]) == Decoding([], Cut)
  {
    PartialWire(f, k);
  }

  ghost predicate AllFit(fs: seq<Frame>) {
    forall f :: f in fs ==> f.Fits()
  }

  function WireAll(fs: seq<Frame>): seq<byte>
    requires AllFit(fs)
  {
    if fs == [] then [] else Wire(fs[0]) + WireAll(fs[1..])
  }

  lemma WireAllCons(f: Frame, fs: seq<Frame>)
    requires f.Fits() && AllFit(fs)
    ensures AllFit([f] + fs)
    ensures WireAll([f] + fs) == Wire(f) + WireAll(fs)
  {
    assert ([f] + fs)[1..] == fs;
  }

  lemma {:induction false} WireAllAppend(a: seq<Frame>, b: seq<Frame>)
    requires AllFit(a) && AllFit(b)
    ensures AllFit(a + b)
    ensures WireAll(a + b) == WireAll(a) + WireAll(b)
  {
    if a == [] {
      assert a + b == b;
    } else {
      assert (a + b)[1..] == a[1..] + b;
      WireAllAppend(a[1..], b);
    }
  }

  /** A log that starts with whole frames decodes to them and then to whatever follows. */
  lemma {:induction false} DecodeAfterFrames(fs: seq<Frame>, rest: seq<byte>)
    requires AllFit(fs)
    ensures Decode(WireAll(fs) + rest)
         == Decoding(fs + Decode(rest).frames, Decode(rest).end)
  {
    hide Decode;
    if fs == [] {
      assert WireAll(fs) + rest == rest;
      assert fs + Decode(rest).frames == Decode(rest).frames;
    } else {
      var later := WireAll(fs[1..]) + rest;
      assert WireAll(fs) + rest == Wire(fs[0]) + later;
      DecodeOneFrame(fs[0], later);
      DecodeAfterFrames(fs[1..], rest);
      assert [fs[0]] + (fs[1..] + Decode(rest).frames) == fs + Decode(rest).frames;
    }
  }

  /** Encoding any list of frames and decoding the log gives back the list, ending between frames. */
  lemma DecodeInvertsWire(fs: seq<Frame>)
    requires AllFit(fs)
    ensures Decode(WireAll(fs)) == Decoding(fs, Boundary)
  {
    DecodeAfterFrames(fs, []);
    assert WireAll(fs) + [] == WireAll(fs);
  }

  /** A log that ends between two frames is the wire form of the frames it decodes to. */
  lemma {:induction false} BoundaryIsFrames(log: seq<byte>)
    requires Decode(log).end == Boundary
    ensures AllFit(Decode(log).frames) && WireAll(Decode(log).frames) == log
    decreases |log|
  {
    if log != [] {
      WireIsUnique(log);
      var f, rest := ReadFrame(log).frame, ReadFrame(log).rest;
      BoundaryIsFrames(rest);
      WireAllCons(f, Decode(rest).frames);
    }
  }

  /** Two logs that end between frames join to the frames of both. */
  lemma DecodeJoined(a: seq<byte>, b: seq<byte>)
    requires Decode(a).end == Boundary
    ensures Decode(a + b) == Decoding(Decode(a).frames + Decode(b).frames, Decode(b).end)
  {
    BoundaryIsFrames(a);
    DecodeAfterFrames(Decode(a).frames, b);
  }

  /** The last frame boundary at or before byte `k` of a log of whole frames. */
  lemma {:induction false} LastBoundary(fs: seq<Frame>, k: nat) returns (n: nat)
    requires AllFit(fs)
    requires k <= |WireAll(fs)|
    ensures n <= |fs|
    ensures AllFit(fs[..n])
    ensures |WireAll(fs[..n])| <= k
    ensures n < |fs| ==> k < |WireAll(fs[..n])| + |Wire(fs[n])|
    ensures n == |fs| ==> k == |WireAll(fs[..n])|
  {
    hide Wire;
    if fs == [] || k < |Wire(fs[0])| {
      n := 0;
    } else {
      var m := LastBoundary(fs[1..], k - |Wire(fs[0])|);
      n := m + 1;
      assert fs[..n] == [fs[0]] + fs[1..][..m];
      WireAllCons(fs[0], fs[1..][..m]);
    }
  }

  /**
   * However a log of whole frames is cut, the peer decodes a prefix of the frames and then sees
   * either the end between two frames or one truncated frame. It sees the former exactly when
   * the cut is at the end of a frame.
   */
  lemma DecodeOfPrefix(fs: seq<Frame>, k: nat) returns (n: nat)
    requires AllFit(fs)
    requires k <= |WireAll(fs)|
    ensures n <= |fs|
    ensures AllFit(fs[..n])
    ensures Decode(WireAll(fs)[..k]).frames == fs[..n]
    ensures Decode(WireAll(fs)[..k]).end == if |WireAll(fs[..n])| == k then Boundary else Cut
  {
    assert Decode([]) == Decoding([], Boundary);
    hide Decode, Wire;
    n := LastBoundary(fs, k);
    var whole, partial := WireAll(fs[..n]), k - |WireAll(fs[..n])|;
    if n == |fs| {
      assert fs[..n] == fs;
      assert WireAll(fs)[..k] == whole + [];
      DecodeAfterFrames(fs[..n], []);
    } else {
      assert fs == fs[..n] + ([fs[n]] + fs[n + 1..]);
      assert AllFit(fs[n + 1..]);
      WireAllCons(fs[n], fs[n + 1..]);
      WireAllAppend(fs[..n], [fs[n]] + fs[n + 1..]);
      assert WireAll(fs)[..k] == whole + Wire(fs[n])[..partial];
      DecodeAfterFrames(fs[..n], Wire(fs[n])[..partial]);
      if partial > 0 {
        DecodePartialFrame(fs[n], partial);
      }
    }
  }

  function DropWaste(fs: seq<Frame>): seq<Frame> {
    if fs == [] then []
    else if fs[0].command == Waste then DropWaste(fs[1..])
    else [fs[0]] + DropWaste(fs[1..])
  }

  lemma {:induction false} DropWasteAppend(a: seq<Frame>, b: seq<Frame>)
    ensures DropWaste(a + b) == DropWaste(a) + DropWaste(b)
  {
    if a == [] {
      assert a + b == b;
    } else {
      assert (a + b)[1..] == a[1..] + b;
      DropWasteAppend(a[1..], b);
    }
  }

  lemma {:induction false} DropWasteOfPrefix(fs: seq<Frame>, n: nat)
    requires n <= |fs|
    ensures DropWaste(fs[..n]) <= DropWaste(fs)
  {
    assert fs == fs[..n] + fs[n..];
    DropWasteAppend(fs[..n], fs[n..]);
  }

  lemma {:induction false} DropWasteKeepsOthers(fs: seq<Frame>)
    requires forall f :: f in fs ==> f.command != Waste
    ensures DropWaste(fs) == fs
  {
    if fs != [] {
      DropWasteKeepsOthers(fs[1..]);
      assert fs == [fs[0]] + fs[1..];
    }
  }

  lemma {:induction false} DropWasteOfWaste(fs: seq<Frame>)
    requires forall f :: f in fs ==> f.command == Waste
    ensures DropWaste(fs) == []
  {
    if fs != [] {
      DropWasteOfWaste(fs[1..]);
    }
  }
}
