/**
 * How a peer reads padding: an automaton over single bytes that accepts exactly the texts of whole
 * Waste frames, and what a Waste record, whose length field is cut to 16 bits, does to it in one go.
 */
module WasteScans {
  import opened Bytes
  import opened Frames
  import opened Records
  import opened Wrappers

  /** Waste frames that the receive loop takes as valid and passes over. */
  predicate PureWaste(fs: seq<Frame>) {
    forall i :: 0 <= i < |fs| ==> fs[i].command == Waste && fs[i].command.ValidStreamId(fs[i].streamId)
  }

  /** Inside a header, at `pos` with the upper length byte `high` read; inside data; or out of step. */
  datatype Scan = InHeader(pos: nat, high: byte) | InData(left: nat) | Broken {
    predicate Valid() {
      match this
      case InHeader(pos, high) => pos < HEADER_OVERHEAD_SIZE && (pos < 6 ==> high == 0)
      case InData(left) => left > 0
      case Broken => true
    }

    function Next(b: byte): (s: Scan)
      requires Valid()
      ensures s.Valid()
    {
      match this
      case InHeader(pos, high) =>
        if pos < 5 then if b == 0 then InHeader(pos + 1, 0) else Broken
        else if pos == 5 then InHeader(6, b)
        else if high == 0 && b == 0 then BETWEEN
        else InData(high * 0x100 + b)
      case InData(left) => if left == 1 then BETWEEN else InData(left - 1)
      case Broken => Broken
    }

    /** The state after `n` zero bytes. */
    function AfterZeros(n: nat): (s: Scan)
      requires Valid()
      ensures s.Valid()
      decreases n
    {
      match this
      case InHeader(pos, high) =>
        if high == 0 then InHeader((pos + n) % HEADER_OVERHEAD_SIZE, 0)
        else if n == 0 then this
        else InData(high * 0x100).AfterZeros(n - 1)
      case InData(left) => if n < left then InData(left - n) else InHeader((n - left) % HEADER_OVERHEAD_SIZE, 0)
      case Broken => Broken
    }

    /** The state after a Waste record of `n` zero bytes: its header is zero but for the length field. */
    function AfterRecord(n: nat): (s: Scan)
      requires Valid()
      ensures s.Valid()
    {
      var length := TruncateToU16(n);
      AfterZeros(5).Next(length / 0x100).Next(length % 0x100).AfterZeros(n)
    }
  }

  /** Between two frames. */
  const BETWEEN: Scan := InHeader(0, 0)

  function ScanAll(s: Scan, bytes: seq<byte>): (s': Scan)
    requires s.Valid()
    ensures s'.Valid()
    decreases |bytes|
  {
    if bytes == [] then s else ScanAll(s.Next(bytes[0]), bytes[1..])
  }

  lemma {:induction false} ScanAppend(s: Scan, a: seq<byte>, b: seq<byte>)
    requires s.Valid()
    ensures ScanAll(s, a + b) == ScanAll(ScanAll(s, a), b)
    decreases |a|
  {
    if a == [] {
      assert a + b == b;
    } else {
      assert (a + b)[1..] == a[1..] + b;
      ScanAppend(s.Next(a[0]), a[1..], b);
    }
  }

  // ---- records, without going through their bytes ----

  lemma ZeroFirst(s: Scan, n: nat)
    requires s.Valid()
    ensures s.Next(0).AfterZeros(n) == s.AfterZeros(n + 1)
  {
  }

  lemma {:induction false} ScanZeros(s: Scan, n: nat)
    requires s.Valid()
    ensures ScanAll(s, Zeros(n)) == s.AfterZeros(n)
    decreases n
  {
    if n > 0 {
      assert Zeros(n)[1..] == Zeros(n - 1);
      ScanZeros(s.Next(0), n - 1);
      ZeroFirst(s, n - 1);
    }
  }

  lemma ScanTwo(s: Scan, a: byte, b: byte)
    requires s.Valid()
    ensures ScanAll(s, [a, b]) == s.Next(a).Next(b)
  {
    ScanOne(s, a);
    ScanOne(s.Next(a), b);
    assert [a, b] == [a] + [b];
    ScanAppend(s, [a], [b]);
  }

  lemma ScanOne(s: Scan, b: byte)
    requires s.Valid()
    ensures ScanAll(s, [b]) == s.Next(b)
  {
    assert [b][1..] == [];
  }

  lemma WasteHeader(n: nat)
    ensures var length := TruncateToU16(n);
            WasteRecord(n) == Zeros(5) + ([length / 0x100, length % 0x100] + Zeros(n))
  {
    assert ToBe32(0) == [0, 0, 0, 0];
    assert [Command.Waste.Code()] + ToBe32(0) == Zeros(5);
  }

  lemma ScanRecord(s: Scan, n: nat)
    requires s.Valid()
    ensures ScanAll(s, WasteRecord(n)) == s.AfterRecord(n)
  {
    hide ScanAll, WasteRecord;
    var length := TruncateToU16(n);
    var pair := [length / 0x100, length % 0x100];
    WasteHeader(n);
    ScanAppend(s, Zeros(5), pair + Zeros(n));
    ScanZeros(s, 5);
    ScanAppend(s.AfterZeros(5), pair, Zeros(n));
    ScanTwo(s.AfterZeros(5), pair[0], pair[1]);
    ScanZeros(s.AfterZeros(5).Next(pair[0]).Next(pair[1]), n);
  }

  /** The state after Waste records of these lengths. */
  function AfterRecords(s: Scan, lengths: seq<nat>): (s': Scan)
    requires s.Valid()
    ensures s'.Valid()
    decreases |lengths|
  {
    if lengths == [] then s else AfterRecords(s.AfterRecord(lengths[0]), lengths[1..])
  }

  lemma {:induction false} ScanRecords(s: Scan, lengths: seq<nat>)
    requires s.Valid()
    ensures ScanAll(s, WasteBytes(lengths)) == AfterRecords(s, lengths)
    decreases |lengths|
  {
    if lengths != [] {
      ScanAppend(s, WasteRecord(lengths[0]), WasteBytes(lengths[1..]));
      ScanRecord(s, lengths[0]);
      ScanRecords(s.AfterRecord(lengths[0]), lengths[1..]);
    }
  }

  /** Waste records of these lengths leave a peer between two frames, having read Waste only. */
  predicate InStep(lengths: seq<nat>) {
    AfterRecords(BETWEEN, lengths) == BETWEEN
  }

  // ---- the automaton accepts whole Waste frames, and nothing else ----

  lemma {:induction false} ScanBroken(bytes: seq<byte>)
    ensures ScanAll(Broken, bytes) == Broken
    decreases |bytes|
  {
    if bytes != [] {
      ScanBroken(bytes[1..]);
    }
  }

  lemma {:induction false} ScanData(left: nat, bytes: seq<byte>)
    requires 0 < left && |bytes| <= left
    ensures ScanAll(InData(left), bytes) == if |bytes| == left then BETWEEN else InData(left - |bytes|)
    decreases |bytes|
  {
    if bytes != [] {
      if left == 1 {
        assert bytes[1..] == [];
      } else {
        ScanData(left - 1, bytes[1..]);
      }
    }
  }

  predicate ZeroStart(bytes: seq<byte>) {
    forall i :: 0 <= i < |bytes| && i < 5 ==> bytes[i] == 0
  }

  /** The first bytes of a header. */
  lemma {:induction false} ScanStart(pos: nat, bytes: seq<byte>)
    requires pos + |bytes| <= 5
    ensures var zero := forall i :: 0 <= i < |bytes| ==> bytes[i] == 0;
            ScanAll(InHeader(pos, 0), bytes) == if zero then InHeader(pos + |bytes|, 0) else Broken
    decreases |bytes|
  {
    if bytes != [] {
      if bytes[0] == 0 {
        ScanStart(pos + 1, bytes[1..]);
        assert forall i :: 0 < i < |bytes| ==> bytes[i] == bytes[1..][i - 1];
      } else {
        ScanBroken(bytes[1..]);
      }
    }
  }

  /** Less than a header never ends between two frames. */
  lemma ScanShort(bytes: seq<byte>)
    requires 0 < |bytes| < HEADER_OVERHEAD_SIZE
    ensures ScanAll(BETWEEN, bytes) != BETWEEN
  {
    if |bytes| <= 5 {
      ScanStart(0, bytes);
    } else {
      assert bytes == bytes[..5] + [bytes[5]];
      ScanAppend(BETWEEN, bytes[..5], [bytes[5]]);
      ScanStart(0, bytes[..5]);
      assert [bytes[5]][1..] == [];
    }
  }

  lemma ScanHeader(bytes: seq<byte>)
    requires |bytes| == HEADER_OVERHEAD_SIZE
    ensures var length := FromBe16(bytes[5..]);
            ScanAll(BETWEEN, bytes)
            == if !ZeroStart(bytes) then Broken else if length == 0 then BETWEEN else InData(length)
  {
    assert bytes == bytes[..5] + [bytes[5], bytes[6]];
    ScanAppend(BETWEEN, bytes[..5], [bytes[5], bytes[6]]);
    ScanStart(0, bytes[..5]);
    if ZeroStart(bytes) {
      ScanTwo(InHeader(5, 0), bytes[5], bytes[6]);
    } else {
      ScanBroken([bytes[5], bytes[6]]);
    }
  }

  /** A header of five zero bytes is that of a Waste frame with a valid id. */
  lemma ZeroStartIsWaste(bytes: seq<byte>)
    requires |bytes| >= HEADER_OVERHEAD_SIZE
    ensures ZeroStart(bytes) <==> FromCode(bytes[0]) == Some(Waste) && FromBe32(bytes[1..5]) == 0
  {
    CommandCodes(Waste, bytes[0]);
    var id := bytes[1..5];
    assert id[..2] == [bytes[1], bytes[2]] && id[2..] == [bytes[3], bytes[4]];
    assert ZeroStart(bytes) <==> bytes[0] == 0 && bytes[1] == 0 && bytes[2] == 0 && bytes[3] == 0 && bytes[4] == 0;
  }

  /** What the automaton does with the first frame of an input, in terms of header and body. */
  lemma ScanParts(header: seq<byte>, body: seq<byte>)
    requires |header| == HEADER_OVERHEAD_SIZE
    ensures var length := FromBe16(header[5..]);
            ScanAll(BETWEEN, header + body)
            == if !ZeroStart(header) then Broken
               else if |body| < length then InData(length - |body|)
               else ScanAll(BETWEEN, body[length..])
  {
    hide ScanAll, ZeroStart, FromBe16;
    var length := FromBe16(header[5..]);
    ScanAppend(BETWEEN, header, body);
    ScanHeader(header);
    ScanBroken(body);
    if length > 0 {
      ScanBody(length, body);
    } else {
      assert body[length..] == body;
    }
  }

  /** A frame that is read is valid Waste exactly when its first five bytes are zero. */
  lemma ReadsWaste(input: seq<byte>)
    requires |input| >= HEADER_OVERHEAD_SIZE
    ensures var length, body := FromBe16(input[5..7]), input[HEADER_OVERHEAD_SIZE..];
            match ReadFrame(input)
            case EndOfInput => false
            case Got(f, rest) => |body| >= length && rest == body[length..] && (PureWaste([f]) <==> ZeroStart(input))
            case Failed(UnexpectedEof) => |body| < length
            case Failed(UnknownCommand(_)) => !ZeroStart(input)
  {
    hide FromBe16, FromBe32, ZeroStart;
    ZeroStartIsWaste(input);
    var length, body := FromBe16(input[5..7]), input[HEADER_OVERHEAD_SIZE..];
    if ReadFrame(input).Got? {
      OneIsWaste(ReadFrame(input).frame);
      assert input[HEADER_OVERHEAD_SIZE + length..] == body[length..];
    }
  }

  lemma OneIsWaste(f: Frame)
    ensures PureWaste([f]) <==> f.command == Waste && f.streamId == 0
  {
    assert [f][0] == f;
  }

  lemma ScanFrame(input: seq<byte>)
    requires |input| >= HEADER_OVERHEAD_SIZE
    ensures match ReadFrame(input)
            case EndOfInput => false
            case Got(f, rest) =>
              ScanAll(BETWEEN, input) == if PureWaste([f]) then ScanAll(BETWEEN, rest) else Broken
            case Failed(_) => ScanAll(BETWEEN, input) != BETWEEN
  {
    hide ScanAll, ReadFrame, PureWaste, FromBe16;
    var header, body := input[..HEADER_OVERHEAD_SIZE], input[HEADER_OVERHEAD_SIZE..];
    assert input == header + body && header[5..] == input[5..7];
    assert ZeroStart(header) <==> ZeroStart(input);
    ScanParts(header, body);
    ReadsWaste(input);
  }

  lemma ScanBody(length: nat, body: seq<byte>)
    requires length > 0
    ensures |body| < length ==> ScanAll(InData(length), body) == InData(length - |body|)
    ensures |body| >= length ==> ScanAll(InData(length), body) == ScanAll(BETWEEN, body[length..])
  {
    hide ScanAll;
    if |body| < length {
      ScanData(length, body);
    } else {
      assert body == body[..length] + body[length..];
      ScanData(length, body[..length]);
      ScanAppend(InData(length), body[..length], body[length..]);
    }
  }

  lemma PureWasteSplits(f: Frame, later: seq<Frame>)
    ensures PureWaste([f] + later) <==> PureWaste([f]) && PureWaste(later)
  {
    var fs := [f] + later;
    assert fs[0] == f && [f][0] == f;
    if PureWaste(fs) {
      forall i | 0 <= i < |later|
        ensures later[i].command == Waste && later[i].command.ValidStreamId(later[i].streamId)
      {
        assert fs[i + 1] == later[i];
      }
    }
  }

  lemma {:induction false} ScanDecodes(input: seq<byte>)
    ensures ScanAll(BETWEEN, input) == BETWEEN <==> Decode(input).end == Boundary && PureWaste(Decode(input).frames)
    decreases |input|
  {
    hide ScanAll, PureWaste, ReadFrame;
    if input == [] {
      NothingToScan();
    } else if |input| < HEADER_OVERHEAD_SIZE {
      ScanShort(input);
      ReadShort(input);
    } else {
      ScanFrame(input);
      match ReadFrame(input)
      case Got(f, rest) =>
        WireIsUnique(input);
        ScanDecodes(rest);
        PureWasteSplits(f, Decode(rest).frames);
      case _ =>
    }
  }

  lemma NothingToScan()
    ensures ScanAll(BETWEEN, []) == BETWEEN && Decode([]) == Decoding([], Boundary) && PureWaste([])
  {
  }

  lemma ReadShort(input: seq<byte>)
    requires 0 < |input| < HEADER_OVERHEAD_SIZE
    ensures ReadFrame(input) == Failed(UnexpectedEof)
  {
  }
}
