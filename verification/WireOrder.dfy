/**
 * What every run of the writer task keeps: the wire carries exactly the taken requests, whatever
 * the padding; the taken requests are an order-preserving merge of the two queues with control
 * first; nothing is written before the first SYN; and an aborted write leaves a clean prefix.
 */
module WireOrder {
  import opened Bytes
  import opened Frames
  import opened Records
  import opened Transparency
  import opened WasteScans
  import opened Writers
  import opened WriterTasks

  function FramesOf(taken: seq<Taken>): (fs: seq<Frame>)
    ensures |fs| == |taken|
    ensures forall i :: 0 <= i < |fs| ==> fs[i] == taken[i].request.frame
  {
    seq(|taken|, i requires 0 <= i < |taken| => taken[i].request.frame)
  }

  /** The requests taken from one queue, in the order they were taken. */
  function From(queue: Queue, taken: seq<Taken>): seq<Request> {
    if taken == [] then []
    else
      var last := taken[|taken| - 1];
      From(queue, taken[..|taken| - 1]) + if last.queue == queue then [last.request] else []
  }

  ghost predicate NoWaste(fs: seq<Frame>) {
    forall f :: f in fs ==> f.command != Waste
  }

  /** The wire and then the buffer hold exactly these frames, Waste aside, in whole frames. */
  ghost predicate Carries(w: WriterState, fs: seq<Frame>) {
    && Decode(w.wire).end == Boundary
    && Decode(w.buffered).end == Boundary
    && DropWaste(Decode(w.wire).frames) + Decode(w.buffered).frames == fs
  }

  /** Writing more frames, in whatever records, extends the frames carried by exactly those. */
  lemma WriteCarries(w: WriterState, fs: seq<Frame>, more: seq<Frame>, draw: Draw)
    requires w.Valid() && Carries(w, fs) && NoWaste(fs)
    requires AllFit(more) && NoWaste(more)
    requires DrawAligned(w, WireAll(more), draw)
    ensures Carries(w.AfterWrite(WireAll(more), draw), fs + more)
    ensures !w.Panics(WireAll(more), draw)
  {
    hide Decode, WireAll, Split, Cuts, WasteLengths, Flatten;
    DecodeInvertsWire(more);
    DecodeJoined(w.buffered, WireAll(more));
    var pending := Decode(w.buffered).frames + more;
    assert DropWaste(Decode(w.wire).frames) + pending == fs + more;
    if !w.buffering {
      var sizes := if w.Pads(draw.stop) then draw.sizes else [];
      PendingNoWaste(w, fs, more);
      BoundaryIsFrames(w.buffered + WireAll(more));
      NoSizesInStep(|WireAll(pending)|);
      CutsIsSplit(WireAll(pending), sizes);
      var ws := PaddedWrite(pending, sizes);
      DecodeJoined(w.wire, WireAll(pending + ws));
      DropWasteAppend(Decode(w.wire).frames, pending + ws);
      DropWasteKeepsOthers(pending);
      DecodeNothing();
    }
  }

  lemma DecodeNothing()
    ensures Decode([]) == Decoding([], Boundary)
  {
  }

  lemma PendingNoWaste(w: WriterState, fs: seq<Frame>, more: seq<Frame>)
    requires Carries(w, fs) && NoWaste(fs) && NoWaste(more)
    ensures NoWaste(Decode(w.buffered).frames + more)
  {
    hide Decode;
    assert forall f :: f in Decode(w.buffered).frames ==> f in fs;
  }

  lemma PaddedWrite(fs: seq<Frame>, sizes: seq<int>) returns (ws: seq<Frame>)
    requires AllFit(fs) && ValidSizes(sizes) && InStep(WasteLengths(|WireAll(fs)|, sizes))
    ensures AllFit(fs + ws) && Flatten(Split(WireAll(fs), sizes)) == WireAll(fs + ws)
    ensures DropWaste(fs + ws) == DropWaste(fs)
    ensures Decode(WireAll(fs + ws)) == Decoding(fs + ws, Boundary)
  {
    hide Decode, WireAll, Split, Flatten, DropWaste;
    ws := WriteIsFrames(fs, sizes);
    DecodeInvertsWire(fs + ws);
  }

  lemma NoSizesInStep(length: nat)
    ensures InStep(WasteLengths(length, []))
  {
  }

  lemma RequestCarries(w: WriterState, fs: seq<Frame>, r: Request, first: Draw, flush: Draw)
    requires w.Valid() && Carries(w, fs) && NoWaste(fs)
    requires r.frame.Fits() && r.frame.command != Waste
    requires RequestAligned(w, r, first, flush)
    ensures Carries(AfterRequest(w, r, first, flush), fs + [r.frame])
  {
    hide Carries, Wire, DrawAligned;
    var more := [r.frame];
    OneWire(r.frame);
    WriteCarries(w, fs, more, first);
    var w1 := w.AfterWrite(WireAll(more), first);
    if r.disableBufferingAfter {
      var w2 := w1.(buffering := false);
      CarriesIgnoresFlag(w1, w2, fs + more);
      assert WireAll([]) == [];
      if w2.buffered != [] {
        WriteCarries(w2, fs + more, [], flush);
        assert fs + more + [] == fs + more;
      }
    }
  }

  lemma OneWire(f: Frame)
    requires f.Fits()
    ensures AllFit([f]) && WireAll([f]) == Wire(f)
  {
    assert [f][1..] == [];
  }

  lemma CarriesIgnoresFlag(w: WriterState, w': WriterState, fs: seq<Frame>)
    requires Carries(w, fs) && w'.wire == w.wire && w'.buffered == w.buffered
    ensures Carries(w', fs)
  {
  }

  /** The wire is a prefix of whole frames that, Waste aside, are a prefix of `fs`. */
  ghost predicate CleanPrefix(wire: seq<byte>, fs: seq<Frame>) {
    exists whole :: AllFit(whole) && wire <= WireAll(whole) && DropWaste(whole) <= fs
  }

  lemma CarriedIsClean(w: WriterState, fs: seq<Frame>, wire: seq<byte>)
    requires Carries(w, fs) && wire <= w.wire
    ensures CleanPrefix(wire, fs)
  {
    BoundaryIsFrames(w.wire);
    assert wire <= WireAll(Decode(w.wire).frames);
  }

  /** What a peer reads from any part of such a wire. */
  lemma CleanPrefixDecodes(wire: seq<byte>, fs: seq<Frame>, k: nat)
    requires CleanPrefix(wire, fs) && k <= |wire|
    ensures Decode(wire[..k]).end in {Boundary, Cut}
    ensures DropWaste(Decode(wire[..k]).frames) <= fs
  {
    hide Decode, WireAll, DropWaste;
    var whole :| AllFit(whole) && wire <= WireAll(whole) && DropWaste(whole) <= fs;
    assert wire[..k] == WireAll(whole)[..k];
    var n := DecodeOfPrefix(whole, k);
    DropWasteOfPrefix(whole, n);
  }

  // ---- the invariant ----

  ghost predicate GoodRequests(s: TaskState) {
    && (forall r :: r in s.controlSent ==> Sendable(Control, r))
    && (forall r :: r in s.dataSent ==> Sendable(Data, r))
    && (forall t :: t in s.taken ==> Sendable(t.queue, t.request))
  }

  /** Each queue is first in, first out: what was taken and what waits is what was sent. */
  ghost predicate Merged(s: TaskState) {
    && From(Control, s.taken) + s.control == s.controlSent
    && From(Data, s.taken) + s.data == s.dataSent
  }

  /** A data request was taken only when every control request sent before had been taken. */
  ghost predicate ControlFirst(s: TaskState) {
    forall i :: 0 <= i < |s.taken| && s.taken[i].queue == Data ==>
      |From(Control, s.taken[..i])| == s.taken[i].controlSent
  }

  /** No taken request has ended buffering so far. */
  ghost predicate Unopened(s: TaskState) {
    forall i :: 0 <= i < |s.taken| ==> !s.taken[i].request.disableBufferingAfter
  }

  ghost predicate Buffered(s: TaskState) {
    s.isClient && Unopened(s) ==> s.writer.wire == [] && (s.running ==> s.writer.buffering)
  }

  /** The writer may send as it writes: it is a server's, or a request that ends buffering was written. */
  ghost predicate Opened(s: TaskState) {
    !s.isClient || exists i :: 0 <= i < s.written && i < |s.taken| && s.taken[i].request.disableBufferingAfter
  }

  ghost predicate Flushed(s: TaskState) {
    s.running && Opened(s) ==> !s.writer.buffering && s.writer.buffered == []
  }

  ghost predicate Wired(s: TaskState) {
    && s.writer.Valid()
    && s.written <= |s.taken| <= s.written + 1
    && (s.aligned && s.running ==> Carries(s.writer, FramesOf(s.taken[..s.written])))
    && (s.aligned ==> CleanPrefix(s.writer.wire, FramesOf(s.taken)))
  }

  ghost predicate Inv(s: TaskState) {
    GoodRequests(s) && Merged(s) && ControlFirst(s) && Buffered(s) && Flushed(s) && Wired(s)
  }

  lemma InitInv(s: TaskState)
    requires Init(s)
    ensures Inv(s)
  {
    DecodeNothing();
    assert FramesOf(s.taken[..s.written]) == [];
    CarriedIsClean(s.writer, [], s.writer.wire);
  }

  lemma FromSnoc(queue: Queue, taken: seq<Taken>, t: Taken)
    ensures From(queue, taken + [t]) == From(queue, taken) + if t.queue == queue then [t.request] else []
  {
    assert (taken + [t])[..|taken|] == taken;
  }

  lemma SendKeepsMerged(s: TaskState, e: Event)
    requires Merged(s) && e.Send? && Enabled(s, e)
    ensures Merged(Apply(s, e))
  {
    hide From;
    if e.queue == Control {
      assert From(Control, s.taken) + (s.control + [e.request]) == s.controlSent + [e.request];
    } else {
      assert From(Data, s.taken) + (s.data + [e.request]) == s.dataSent + [e.request];
    }
  }

  lemma SendKeepsGoodRequests(s: TaskState, e: Event)
    requires GoodRequests(s) && e.Send? && Enabled(s, e)
    ensures GoodRequests(Apply(s, e))
  {
    hide Sendable;
  }

  lemma SendKeepsInv(s: TaskState, e: Event)
    requires Inv(s) && e.Send? && Enabled(s, e)
    ensures Inv(Apply(s, e))
  {
    hide Carries, CleanPrefix, FramesOf, From, Merged, GoodRequests, Sendable;
    SendKeepsMerged(s, e);
    SendKeepsGoodRequests(s, e);
  }

  /** Taking the head of a queue moves it from what waits to what was taken. */
  lemma HeadMoves<T>(front: seq<T>, queue: seq<T>, all: seq<T>)
    requires front + queue == all && queue != []
    ensures front + [queue[0]] + queue[1..] == all
    ensures queue[0] in all
  {
    assert queue == [queue[0]] + queue[1..];
  }

  lemma TakeKeepsMerged(s: TaskState)
    requires Merged(s) && Enabled(s, Take)
    ensures Merged(Apply(s, Take))
  {
    hide From;
    var s' := Apply(s, Take);
    var t := s'.taken[|s.taken|];
    FromSnoc(Control, s.taken, t);
    FromSnoc(Data, s.taken, t);
    if s.control != [] {
      HeadMoves(From(Control, s.taken), s.control, s.controlSent);
    } else {
      HeadMoves(From(Data, s.taken), s.data, s.dataSent);
    }
  }

  lemma TakeKeepsGoodRequests(s: TaskState)
    requires GoodRequests(s) && Merged(s) && Enabled(s, Take)
    ensures GoodRequests(Apply(s, Take))
  {
    hide From, Sendable;
    if s.control != [] {
      HeadMoves(From(Control, s.taken), s.control, s.controlSent);
    } else {
      HeadMoves(From(Data, s.taken), s.data, s.dataSent);
    }
  }

  lemma TakeKeepsControlFirst(s: TaskState)
    requires Merged(s) && ControlFirst(s) && Enabled(s, Take)
    ensures ControlFirst(Apply(s, Take))
  {
    hide From;
    var s' := Apply(s, Take);
    assert s.control == [] ==> From(Control, s.taken) == s.controlSent;
    forall i | 0 <= i < |s'.taken| && s'.taken[i].queue == Data
      ensures |From(Control, s'.taken[..i])| == s'.taken[i].controlSent
    {
      assert s'.taken[..i] == s.taken[..i];
      if i == |s.taken| {
        assert s.taken[..i] == s.taken;
      }
    }
  }

  lemma TakeKeepsInv(s: TaskState)
    requires Inv(s) && Enabled(s, Take)
    ensures Inv(Apply(s, Take))
  {
    hide Carries, CleanPrefix, From, Merged, GoodRequests, ControlFirst;
    var s' := Apply(s, Take);
    TakeKeepsMerged(s);
    TakeKeepsGoodRequests(s);
    TakeKeepsControlFirst(s);
    assert s'.taken[..s'.written] == s.taken[..s.written];
    if s.aligned {
      MoreFramesStayClean(s.writer.wire, FramesOf(s.taken), FramesOf(s'.taken));
    }
    assert (Unopened(s') ==> Unopened(s)) && (Opened(s') ==> Opened(s)) by {
      assert forall i :: 0 <= i < |s.taken| ==> s'.taken[i] == s.taken[i];
    }
  }

  lemma MoreFramesStayClean(wire: seq<byte>, fs: seq<Frame>, more: seq<Frame>)
    requires CleanPrefix(wire, fs) && fs <= more
    ensures CleanPrefix(wire, more)
  {
    var whole :| AllFit(whole) && wire <= WireAll(whole) && DropWaste(whole) <= fs;
    assert DropWaste(whole) <= more;
  }

  /** The state of the writer after the request being written, and the frames it then carries. */
  lemma WrittenCarries(s: TaskState, first: Draw, flush: Draw)
    requires Inv(s) && Busy(s) && s.aligned && s.taken[s.written].request.frame.Fits()
    requires RequestAligned(s.writer, s.taken[s.written].request, first, flush)
    ensures Carries(AfterRequest(s.writer, s.taken[s.written].request, first, flush), FramesOf(s.taken))
  {
    hide Carries, AfterRequest, From, RequestAligned;
    var t := s.taken[s.written];
    assert t in s.taken;
    var earlier := s.taken[..s.written];
    assert NoWaste(FramesOf(earlier)) by {
      forall f | f in FramesOf(earlier)
        ensures f.command != Waste
      {
        var i :| 0 <= i < |earlier| && earlier[i].request.frame == f;
        assert earlier[i] in s.taken;
      }
    }
    RequestCarries(s.writer, FramesOf(earlier), t.request, first, flush);
    assert FramesOf(s.taken) == FramesOf(earlier) + [t.request.frame];
  }

  /** While no request has ended buffering, a client's write goes to the buffer only. */
  lemma StillBuffered(s: TaskState, first: Draw, flush: Draw)
    requires Inv(s) && Busy(s) && s.taken[s.written].request.frame.Fits()
    requires s.isClient && Unopened(s)
    ensures var w := AfterRequest(s.writer, s.taken[s.written].request, first, flush);
            w.buffering && w.wire == []
  {
    assert s.taken[s.written] in s.taken;
  }

  /** A request that ends buffering leaves nothing in the buffer, and no later one puts anything there. */
  lemma RequestFlushes(w: WriterState, r: Request, first: Draw, flush: Draw)
    requires w.Valid() && r.frame.Fits() && !RequestPanics(w, r, first, flush)
    requires r.disableBufferingAfter || (!w.buffering && w.buffered == [])
    ensures var w' := AfterRequest(w, r, first, flush); !w'.buffering && w'.buffered == []
  {
    hide Wire;
  }

  lemma CompleteKeepsInv(s: TaskState, e: Event)
    requires Inv(s) && e.Complete? && Enabled(s, e)
    ensures Inv(Apply(s, e))
  {
    hide Carries, CleanPrefix, From, AfterRequest, RequestAligned, RequestPanics;
    var s' := Apply(s, e);
    assert s'.taken[..s'.written] == s.taken;
    if Opened(s') {
      RequestFlushes(s.writer, s.taken[s.written].request, e.first, e.flush);
    }
    if s'.aligned {
      WrittenCarries(s, e.first, e.flush);
      CarriedIsClean(s'.writer, FramesOf(s.taken), s'.writer.wire);
    }
    if s.isClient && Unopened(s) {
      StillBuffered(s, e.first, e.flush);
    }
  }

  lemma AbortKeepsInv(s: TaskState, e: Event)
    requires Inv(s) && e.Abort? && Enabled(s, e)
    ensures Inv(Apply(s, e))
  {
    hide Carries, CleanPrefix, From, AfterRequest, RequestAligned;
    var s' := Apply(s, e);
    var full := AfterRequest(s.writer, s.taken[s.written].request, e.first, e.flush);
    if s'.aligned {
      WrittenCarries(s, e.first, e.flush);
      CarriedIsClean(full, FramesOf(s.taken), s'.writer.wire);
    }
    if s.isClient && Unopened(s) {
      StillBuffered(s, e.first, e.flush);
    }
  }

  lemma NextKeepsInv(s: TaskState, s': TaskState)
    requires Inv(s) && Next(s, s')
    ensures Inv(s')
  {
    hide Inv, Enabled, Apply;
    var e :| Enabled(s, e) && s' == Apply(s, e);
    match e
    case Send(_, _) => SendKeepsInv(s, e);
    case Take => TakeKeepsInv(s);
    case Complete(_, _) => CompleteKeepsInv(s, e);
    case Abort(_, _, _, _) => AbortKeepsInv(s, e);
    case Stop => StopKeepsInv(s);
  }

  lemma StopKeepsInv(s: TaskState)
    requires Inv(s) && Enabled(s, Stop)
    ensures Inv(Apply(s, Stop))
  {
    hide Carries, CleanPrefix, From;
  }

  lemma {:induction false} RunInv(run: seq<TaskState>)
    requires IsRun(run)
    ensures Inv(run[|run| - 1])
    decreases |run|
  {
    hide Inv, Next, Init;
    if |run| == 1 {
      InitInv(run[0]);
    } else {
      RunInv(run[..|run| - 1]);
      NextKeepsInv(run[|run| - 2], run[|run| - 1]);
    }
  }

  // ---- when the padding stays in step ----

  /** A step in which every drawn size is a check mark or fits a length field. */
  ghost predicate FittingStep(s: TaskState, s': TaskState) {
    exists e :: Enabled(s, e) && s' == Apply(s, e)
      && (e.Complete? || e.Abort? ==> FrameSizes(e.first) && FrameSizes(e.flush))
  }

  lemma FittingStepAligns(s: TaskState, s': TaskState)
    requires FittingStep(s, s') && s.aligned
    ensures s'.aligned
  {
    hide AfterRequest, RequestAligned, FrameSizes;
    var e :| Enabled(s, e) && s' == Apply(s, e) &&
          (e.Complete? || e.Abort? ==> FrameSizes(e.first) && FrameSizes(e.flush));
    if e.Complete? || e.Abort? {
      FittingSizesAlign(s.writer, s.taken[s.written].request, e.first, e.flush);
    }
  }

  /** With sizes that fit a length field, for every scheme in force at each write, every run stays in step. */
  lemma {:induction false} FittingSizesStayAligned(run: seq<TaskState>)
    requires IsRun(run) && forall i :: 0 < i < |run| ==> FittingStep(run[i - 1], run[i])
    ensures run[|run| - 1].aligned
    decreases |run|
  {
    hide FittingStep, Next;
    if |run| > 1 {
      var n := |run| - 1;
      assert forall i :: 0 <= i < n ==> run[..n][i] == run[i];
      FittingSizesStayAligned(run[..n]);
      FittingStepAligns(run[n - 1], run[n]);
    }
  }

  // ---- the theorems, for the last state of any run ----

  /**
   * Padding transparency over whole runs: decoding all that the writer put on the transport ends
   * between two frames, and without Waste it is exactly the written requests in order, less
   * those still buffered before the first SYN.
   */
  lemma WireCarriesRequests(run: seq<TaskState>, s: TaskState)
    requires IsRun(run) && s == run[|run| - 1] && s.running && s.aligned
    ensures Decode(s.writer.wire).end == Boundary
    ensures Decode(s.writer.buffered).end == Boundary
    ensures s.written <= |s.taken|
    ensures DropWaste(Decode(s.writer.wire).frames) + Decode(s.writer.buffered).frames
         == FramesOf(s.taken[..s.written])
  {
    RunInv(run);
  }

  /**
   * Buffering ends for good: while the task runs, a server's writer, and a client's from the first
   * written request that ends buffering on, holds nothing back.
   */
  lemma BufferingEnds(run: seq<TaskState>, s: TaskState)
    requires IsRun(run) && s == run[|run| - 1] && s.running
    requires !s.isClient || exists i :: 0 <= i < s.written && i < |s.taken| && s.taken[i].request.disableBufferingAfter
    ensures !s.writer.buffering && s.writer.buffered == []
  {
    RunInv(run);
  }

  /** From then on the wire alone, Waste aside, is exactly the written requests in order. */
  lemma WireAloneCarries(run: seq<TaskState>, s: TaskState)
    requires IsRun(run) && s == run[|run| - 1] && s.running && s.aligned
    requires !s.isClient || exists i :: 0 <= i < s.written && i < |s.taken| && s.taken[i].request.disableBufferingAfter
    ensures s.written <= |s.taken|
    ensures DropWaste(Decode(s.writer.wire).frames) == FramesOf(s.taken[..s.written])
  {
    hide IsRun, Decode, DropWaste, FramesOf;
    BufferingEnds(run, s);
    WireCarriesRequests(run, s);
    DecodeNothing();
  }

  /**
   * Failure leaves a clean prefix: whatever part of the wire the peer gets to read, after any
   * error, timeout or cancellation, it decodes a prefix of the requests and then either ends
   * between two frames or inside one, never at a byte that is no command.
   */
  lemma WireIsCleanPrefix(run: seq<TaskState>, s: TaskState, k: nat)
    requires IsRun(run) && s == run[|run| - 1] && s.aligned
    requires k <= |s.writer.wire|
    ensures Decode(s.writer.wire[..k]).end in {Boundary, Cut}
    ensures DropWaste(Decode(s.writer.wire[..k]).frames) <= FramesOf(s.taken)
  {
    RunInv(run);
    CleanPrefixDecodes(s.writer.wire, FramesOf(s.taken), k);
  }

  /**
   * The wire order refines two first-in-first-out queues: nothing is lost, duplicated or
   * reordered within a queue, and data waits for every control request sent before it is taken.
   */
  lemma TakenIsMerge(run: seq<TaskState>, s: TaskState)
    requires IsRun(run) && s == run[|run| - 1]
    ensures From(Control, s.taken) + s.control == s.controlSent
    ensures From(Data, s.taken) + s.data == s.dataSent
    ensures forall i :: 0 <= i < |s.taken| && s.taken[i].queue == Data ==>
              |From(Control, s.taken[..i])| == s.taken[i].controlSent
  {
    RunInv(run);
  }

  /** A byte on a client's transport means that the first SYN was already taken. */
  lemma NothingBeforeSyn(run: seq<TaskState>, s: TaskState)
    requires IsRun(run) && s == run[|run| - 1]
    requires s.isClient && s.writer.wire != []
    ensures exists i :: 0 <= i < |s.taken| && s.taken[i].request.frame.command == Syn
  {
    RunInv(run);
    assert !Unopened(s);
    var i :| 0 <= i < |s.taken| && s.taken[i].request.disableBufferingAfter;
    assert s.taken[i] in s.taken;
  }
}
