/**
 * What a peer decodes from one padded write (`Writer::write_conn` of src/runtime/session.rs): the
 * frames that were written, and exactly when nothing else.
 */
module Transparency {
  import opened Bytes
  import opened Frames
  import opened Paddings
  import opened Records
  import opened WasteScans

  function WasteFrame(n: nat): Frame {
    Frame(Waste, 0, Zeros(n))
  }

  /** A Waste record leaves the peer between two frames: see `WasteRecordEnds`. */
  predicate Aligned(n: nat) {
    n / 0x1_0000 % 7 == 0
  }

  ghost predicate AllAligned(lengths: seq<nat>) {
    forall i :: 0 <= i < |lengths| ==> Aligned(lengths[i])
  }

  lemma EmptyWasteIsZeros()
    ensures WasteFrame(0).Fits() && Wire(WasteFrame(0)) == Zeros(7)
  {
    assert ToBe32(0) == [0, 0, 0, 0];
    assert ToBe16(0) == [0, 0];
  }

  lemma ZerosSplit(m: nat, n: nat)
    ensures Zeros(m) + Zeros(n) == Zeros(m + n)
  {
  }

  /** Fewer zeros than a header are a cut frame. */
  lemma DecodeFewZeros(n: nat)
    requires n < HEADER_OVERHEAD_SIZE
    ensures Decode(Zeros(n)) == Decoding([], if n == 0 then Boundary else Cut)
  {
  }

  lemma DropLeadingWaste(n: nat, later: seq<Frame>)
    ensures DropWaste([WasteFrame(n)] + later) == DropWaste(later)
  {
    assert ([WasteFrame(n)] + later)[1..] == later;
  }

  lemma PureWasteCons(n: nat, later: seq<Frame>)
    requires PureWaste(later)
    ensures PureWaste([WasteFrame(n)] + later)
  {
  }

  /** Zero bytes decode as empty Waste frames, seven bytes each. */
  lemma {:induction false} DecodeZeros(n: nat)
    ensures Decode(Zeros(n)).end == if n % 7 == 0 then Boundary else Cut
    ensures DropWaste(Decode(Zeros(n)).frames) == [] && PureWaste(Decode(Zeros(n)).frames)
  {
    hide Decode, Zeros, Wire, WasteFrame;
    if n < HEADER_OVERHEAD_SIZE {
      DecodeFewZeros(n);
    } else {
      EmptyWasteIsZeros();
      ZerosSplit(7, n - 7);
      DecodeOneFrame(WasteFrame(0), Zeros(n - 7));
      DropLeadingWaste(0, Decode(Zeros(n - 7)).frames);
      DecodeZeros(n - 7);
      PureWasteCons(0, Decode(Zeros(n - 7)).frames);
    }
  }

  /** A Waste record is a Waste frame followed by the zeros its length field does not count. */
  lemma WasteRecordParts(n: nat)
    ensures var low := TruncateToU16(n);
            WasteFrame(low).Fits() && WasteRecord(n) == Wire(WasteFrame(low)) + Zeros(n - low)
  {
    var low := TruncateToU16(n);
    ZerosSplit(low, n - low);
  }

  lemma ExcessModulo(n: nat)
    ensures (n - TruncateToU16(n)) % 7 == 0 <==> Aligned(n)
  {
    var high := n / 0x1_0000;
    assert n - TruncateToU16(n) == 7 * (9362 * high) + 2 * high;
    assert (7 * (9362 * high) + 2 * high) % 7 == (2 * high) % 7;
  }

  /**
   * The length field of a Waste frame holds 16 bits, so the zeros of a longer one spill over.
   * The peer still ends between two frames exactly when the spilt multiple of 65536 is divisible
   * by seven, because each seven zeros read as one more empty Waste frame.
   */
  lemma WasteRecordEnds(n: nat)
    ensures Decode(WasteRecord(n)).end == if Aligned(n) then Boundary else Cut
    ensures DropWaste(Decode(WasteRecord(n)).frames) == [] && PureWaste(Decode(WasteRecord(n)).frames)
  {
    hide Decode, WasteRecord, WasteFrame, Aligned, PureWaste;
    var low := TruncateToU16(n);
    WasteRecordParts(n);
    DecodeOneFrame(WasteFrame(low), Zeros(n - low));
    DecodeZeros(n - low);
    DropLeadingWaste(low, Decode(Zeros(n - low)).frames);
    PureWasteCons(low, Decode(Zeros(n - low)).frames);
    ExcessModulo(n);
  }

  /** An aligned Waste record is itself the wire form of Waste frames. */
  lemma {:induction false} AlignedRecordIsFrames(n: nat) returns (ws: seq<Frame>)
    requires Aligned(n)
    ensures AllFit(ws) && WireAll(ws) == WasteRecord(n) && DropWaste(ws) == [] && PureWaste(ws)
  {
    WasteRecordEnds(n);
    ws := Decode(WasteRecord(n)).frames;
    BoundaryIsFrames(WasteRecord(n));
  }

  lemma {:induction false} AlignedWasteIsFrames(lengths: seq<nat>) returns (ws: seq<Frame>)
    requires AllAligned(lengths)
    ensures AllFit(ws) && WireAll(ws) == WasteBytes(lengths) && DropWaste(ws) == [] && PureWaste(ws)
  {
    if lengths == [] {
      ws := [];
    } else {
      var first := AlignedRecordIsFrames(lengths[0]);
      var later := AlignedWasteIsFrames(lengths[1..]);
      ws := first + later;
      WireAllAppend(first, later);
      DropWasteAppend(first, later);
    }
  }

  /**
   * One write of whole frames puts on the transport those frames and then Waste frames only,
   * provided that its Waste records stay in step with their length fields.
   */
  lemma WriteIsFrames(fs: seq<Frame>, sizes: seq<int>) returns (ws: seq<Frame>)
    requires AllFit(fs) && ValidSizes(sizes)
    requires InStep(WasteLengths(|WireAll(fs)|, sizes))
    ensures AllFit(fs + ws) && Flatten(Split(WireAll(fs), sizes)) == WireAll(fs + ws)
    ensures PureWaste(ws) && DropWaste(ws) == [] && DropWaste(fs + ws) == DropWaste(fs)
  {
    hide Decode, InStep, WasteBytes, WasteLengths, Split, Flatten;
    var lengths := WasteLengths(|WireAll(fs)|, sizes);
    PayloadThenWaste(WireAll(fs), sizes);
    InStepDecodes(lengths);
    ws := Decode(WasteBytes(lengths)).frames;
    BoundaryIsFrames(WasteBytes(lengths));
    WireAllAppend(fs, ws);
    DropWasteOfWaste(ws);
    DropWasteAppend(fs, ws);
  }

  /** Waste records are in step exactly when their bytes are whole, valid Waste frames to the peer. */
  lemma InStepDecodes(lengths: seq<nat>)
    ensures InStep(lengths) <==>
            var d := Decode(WasteBytes(lengths)); d.end == Boundary && PureWaste(d.frames)
  {
    hide Decode, ScanAll, AfterRecords, WasteBytes, PureWaste;
    ScanRecords(BETWEEN, lengths);
    ScanDecodes(WasteBytes(lengths));
  }

  lemma AlignedIsInStep(lengths: seq<nat>)
    requires AllAligned(lengths)
    ensures InStep(lengths)
  {
    hide Decode, InStep, WasteBytes, PureWaste;
    var ws := AlignedWasteIsFrames(lengths);
    DecodeInvertsWire(ws);
    InStepDecodes(lengths);
  }

  /** Sizes that fit a length field never spill. */
  lemma {:induction false} FrameSizesAlign(length: nat, sizes: seq<int>)
    requires forall i :: 0 <= i < |sizes| ==> FrameSize(sizes[i])
    ensures ValidSizes(sizes)
    ensures AllAligned(WasteLengths(length, sizes))
    decreases |sizes|
  {
    if sizes != [] {
      assert FrameSize(sizes[0]);
      var left := if sizes[0] == CHECK_MARK then length else if length > sizes[0] then length - sizes[0] else 0;
      FrameSizesAlign(left, sizes[1..]);
    }
  }

  /** The write of `fs` decodes to `fs`, then valid Waste frames only, and ends between two frames. */
  predicate Transparent(fs: seq<Frame>, sizes: seq<int>)
    requires AllFit(fs) && ValidSizes(sizes)
  {
    var d := Decode(Flatten(Split(WireAll(fs), sizes)));
    d.end == Boundary && fs <= d.frames && PureWaste(d.frames[|fs|..])
  }

  /**
   * Padding transparency of one write, exactly: for any whole frames and any list of sizes, the
   * write is transparent if and only if its Waste records, of the lengths that the sizes ask for,
   * leave a peer in step. What one record does to a peer is the arithmetic of `AfterRecord`.
   */
  lemma TransparentIff(fs: seq<Frame>, sizes: seq<int>)
    requires AllFit(fs) && ValidSizes(sizes)
    ensures Transparent(fs, sizes) <==> InStep(WasteLengths(|WireAll(fs)|, sizes))
  {
    hide Decode, InStep, WasteBytes, WasteLengths, Split, Flatten, PureWaste;
    var lengths := WasteLengths(|WireAll(fs)|, sizes);
    PayloadThenWaste(WireAll(fs), sizes);
    DecodeAfterFrames(fs, WasteBytes(lengths));
    InStepDecodes(lengths);
    var later := Decode(WasteBytes(lengths)).frames;
    assert (fs + later)[|fs|..] == later;
  }

  /** Records that each end between two frames are in step; sizes that re-align are not among them. */
  lemma AlignedWritesAreTransparent(fs: seq<Frame>, sizes: seq<int>)
    requires AllFit(fs) && ValidSizes(sizes)
    requires AllAligned(WasteLengths(|WireAll(fs)|, sizes))
    ensures Transparent(fs, sizes)
  {
    hide Transparent, InStep, WasteLengths, AllAligned;
    AlignedIsInStep(WasteLengths(|WireAll(fs)|, sizes));
    TransparentIff(fs, sizes);
  }

  /**
   * Two sizes of which neither pads a lone SYN in step, and that are in step together: the zeros
   * that spill from the first record make up whole frames with the all-zero record after it.
   */
  lemma SpillsCanCancel(streamId: u32)
    ensures AllFit([Frame(Syn, streamId, [])]) && ValidSizes([70000, 393216])
    ensures !AllAligned(WasteLengths(|WireAll([Frame(Syn, streamId, [])])|, [70000, 393216]))
    ensures Transparent([Frame(Syn, streamId, [])], [70000, 393216])
  {
    hide Transparent;
    var fs := [Frame(Syn, streamId, [])];
    assert fs[1..] == [];
    assert |WireAll(fs)| == HEADER_OVERHEAD_SIZE;
    SpillLengths();
    TransparentIff(fs, [70000, 393216]);
    assert !Aligned([69986, 393216][0]);
  }

  lemma SpillLengths()
    ensures ValidSizes([70000, 393216]) && WasteLengths(7, [70000, 393216]) == [69986, 393216]
    ensures InStep([69986, 393216])
  {
    hide AfterRecords;
    var sizes: seq<int> := [70000, 393216];
    assert sizes[1..] == [393216] && [393216][1..] == [];
    assert WasteLengths(0, [393216]) == [393216] by { assert WasteLengths(0, []) == []; }
    // the first record spills 65536 zeros, two of them out of step; the second is zero throughout
    assert BETWEEN.AfterRecord(69986) == InHeader(2, 0);
    assert InHeader(2, 0).AfterRecord(393216) == BETWEEN;
    TwoRecords(69986, 393216);
  }

  lemma TwoRecords(m: nat, n: nat)
    ensures AfterRecords(BETWEEN, [m, n]) == BETWEEN.AfterRecord(m).AfterRecord(n)
  {
    hide AfterRecords;
    assert [m, n] == [m] + [n] && [n] == [n] + [];
    RecordsCons(BETWEEN, m, [n]);
    RecordsCons(BETWEEN.AfterRecord(m), n, []);
    NoRecords(BETWEEN.AfterRecord(m).AfterRecord(n));
  }

  lemma RecordsCons(s: Scan, n: nat, later: seq<nat>)
    requires s.Valid()
    ensures AfterRecords(s, [n] + later) == AfterRecords(s.AfterRecord(n), later)
  {
    hide Scan.AfterRecord;
    assert ([n] + later)[1..] == later;
  }

  lemma NoRecords(s: Scan)
    requires s.Valid()
    ensures AfterRecords(s, []) == s
  {
  }

  /** A write padded by one size is transparent exactly when its padding does not spill. */
  lemma SingleSizeTransparency(fs: seq<Frame>, size: nat)
    requires AllFit(fs) && fs != []
    ensures ValidSizes([size])
    ensures Transparent(fs, [size])
       <==> |WireAll(fs)| > size || Aligned(PaddingLength(|WireAll(fs)|, size))
  {
    hide Transparent, WasteLengths, WireAll;
    var length := |WireAll(fs)|;
    SomeBytes(fs);
    OneSizeWaste(length, size);
    if length > size || Aligned(PaddingLength(length, size)) {
      AlignedWritesAreTransparent(fs, [size]);
    } else {
      SpiltWaste(fs, size, PaddingLength(length, size));
    }
  }

  lemma SomeBytes(fs: seq<Frame>)
    requires AllFit(fs) && fs != []
    ensures |WireAll(fs)| >= HEADER_OVERHEAD_SIZE
  {
  }

  lemma OneSizeWaste(length: nat, size: nat)
    requires length > 0
    ensures ValidSizes([size])
    ensures WasteLengths(length, [size]) ==
            if length > size || PaddingLength(length, size) == 0 then [] else [PaddingLength(length, size)]
  {
    assert [size][1..] == [];
    var filler := Filler(length, size);
    assert filler + [] == filler;
  }

  lemma SpiltWaste(fs: seq<Frame>, size: nat, padding: nat)
    requires AllFit(fs) && ValidSizes([size])
    requires WasteLengths(|WireAll(fs)|, [size]) == [padding]
    requires !Aligned(padding)
    ensures Decode(Flatten(Split(WireAll(fs), [size]))).end == Cut
    ensures !Transparent(fs, [size])
  {
    PayloadThenWaste(WireAll(fs), [size]);
    WasteBytesOne(padding);
    DecodeAfterFrames(fs, WasteRecord(padding));
    WasteRecordEnds(padding);
  }

  /** Whole frames of any total size from seven bytes up. */
  lemma {:induction false} FramesOfSize(length: nat) returns (fs: seq<Frame>)
    requires length >= HEADER_OVERHEAD_SIZE
    ensures AllFit(fs) && fs != [] && |WireAll(fs)| == length
  {
    if length <= HEADER_OVERHEAD_SIZE + MAX_FRAME_DATA_SIZE {
      fs := [Frame(Push, 1, Zeros(length - HEADER_OVERHEAD_SIZE))];
      assert fs[1..] == [];
    } else {
      var f := Frame(Push, 1, Zeros(1000));
      var later := FramesOfSize(length - 1007);
      fs := [f] + later;
      WireAllCons(f, later);
    }
  }

  /**
   * The exact bound on a size that stands alone in a packet's entry: every write under it is
   * transparent if and only if the size is below 65550, the first that can ask for 65536 bytes
   * of padding after a seven-byte frame. The scheme parser accepts larger sizes.
   */
  lemma SingleSizeBound(size: nat)
    ensures ValidSizes([size])
    ensures (forall fs :: AllFit(fs) && fs != [] ==> Transparent(fs, [size])) <==> size < 65550
  {
    hide Transparent;
    if size < 65550 {
      forall fs | AllFit(fs) && fs != []
        ensures Transparent(fs, [size])
      {
        SomeBytes(fs);
        SingleSizeTransparency(fs, size);
      }
    } else {
      var fs := FramesOfSize(size - 7 - 0x1_0000);
      SingleSizeTransparency(fs, size);
    }
  }

  /** The entry "70000-70000" breaks the framing of a lone SYN: the peer sees a cut frame. */
  lemma OversizedPaddingBreaksFraming(streamId: u32)
    ensures AllFit([Frame(Syn, streamId, [])]) && ValidSizes([70000])
    ensures Decode(Flatten(Split(WireAll([Frame(Syn, streamId, [])]), [70000]))).end == Cut
    ensures !Transparent([Frame(Syn, streamId, [])], [70000])
  {
    hide WasteLengths, Decode, Split, WasteRecord;
    var fs := [Frame(Syn, streamId, [])];
    assert fs[1..] == [];
    OneSizeWaste(|WireAll(fs)|, 70000);
    SpiltWaste(fs, 70000, PaddingLength(|WireAll(fs)|, 70000));
  }
}
