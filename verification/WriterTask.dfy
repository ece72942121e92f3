/**
 * The writer task of a session: requests arrive on a control queue and a data queue, are taken
 * with control first, and are written one at a time (`background_task` and the enqueueing
 * functions of src/runtime/session.rs). A run is any interleaving of senders, the task, failures
 * and cancellation.
 */
module WriterTasks {
  import opened Bytes
  import opened Frames
  import opened Paddings
  import opened Records
  import opened Transparency
  import opened WasteScans
  import opened Writers

  const QUEUE_CAPACITY: nat := 64

  /** One encoded frame, and whether buffering ends with it. */
  datatype Request = Request(frame: Frame, disableBufferingAfter: bool)

  datatype Queue = Control | Data

  /** A request taken from a queue, with the number of control requests sent up to then. */
  datatype Taken = Taken(queue: Queue, request: Request, controlSent: nat)

  datatype TaskState = TaskState(
    isClient: bool,
    running: bool,
    closed: bool,
    control: seq<Request>,
    data: seq<Request>,
    writer: WriterState,
    aligned: bool,            // the Waste of every write so far was in step with its length fields
    written: nat,             // how many of the taken requests are completely written
    taken: seq<Taken>,        // every request taken so far, in order
    controlSent: seq<Request>,
    dataSent: seq<Request>)

  datatype Event =
    | Send(queue: Queue, request: Request)
    | Take
    | Complete(first: Draw, flush: Draw)
    | Abort(first: Draw, flush: Draw, wire: seq<byte>, cancelled: bool)
    | Stop

  ghost predicate Init(s: TaskState) {
    s == TaskState(s.isClient, true, false, [], [], InitialWriter(s.isClient), true, 0, [], [], [])
  }

  /** Every drawn size is a check mark or fits a length field. */
  ghost predicate FrameSizes(draw: Draw) {
    forall i :: 0 <= i < |draw.sizes| ==> FrameSize(draw.sizes[i])
  }

  /** The Waste of one write stays in step with its length fields. */
  ghost predicate DrawAligned(w: WriterState, bytes: seq<byte>, draw: Draw)
    requires w.Valid()
  {
    w.buffering || !w.Pads(draw.stop)
    || (ValidSizes(draw.sizes) && InStep(WasteLengths(|w.buffered + bytes|, draw.sizes)))
  }

  ghost predicate RequestAligned(w: WriterState, r: Request, first: Draw, flush: Draw)
    requires w.Valid() && r.frame.Fits()
  {
    && DrawAligned(w, Wire(r.frame), first)
    && (r.disableBufferingAfter && w.AfterWrite(Wire(r.frame), first).buffered != [] ==>
          DrawAligned(w.AfterWrite(Wire(r.frame), first).(buffering := false), [], flush))
  }

  /** Sizes that fit a length field never get out of step. */
  lemma FittingSizesAlign(w: WriterState, r: Request, first: Draw, flush: Draw)
    requires w.Valid() && r.frame.Fits() && FrameSizes(first) && FrameSizes(flush)
    ensures RequestAligned(w, r, first, flush)
  {
    hide Wire, WasteLengths, AllAligned, InStep;
    FrameSizesAlign(|w.buffered + Wire(r.frame)|, first.sizes);
    AlignedIsInStep(WasteLengths(|w.buffered + Wire(r.frame)|, first.sizes));
    var w1 := w.AfterWrite(Wire(r.frame), first).(buffering := false);
    FrameSizesAlign(|w1.buffered + []|, flush.sizes);
    AlignedIsInStep(WasteLengths(|w1.buffered + []|, flush.sizes));
  }

  /**
   * The requests the session sends: one whole frame; payload goes through the data queue, a SYN
   * through the control queue, and only a SYN ends buffering.
   */
  predicate Sendable(queue: Queue, r: Request) {
    && r.frame.Fits()
    && r.frame.command != Waste
    && (r.frame.command == Push ==> queue == Data)
    && (r.frame.command == Syn ==> queue == Control)
    && (r.disableBufferingAfter ==> r.frame.command == Syn)
  }

  /** A SYN for the stream is among these requests. */
  ghost predicate Opens(sent: seq<Request>, id: u32) {
    exists i :: 0 <= i < |sent| && sent[i].frame.command == Syn && sent[i].frame.streamId == id
  }

  /** What the writer does for one request: the write, then the flush when buffering ends. */
  function AfterRequest(w: WriterState, r: Request, first: Draw, flush: Draw): (w': WriterState)
    requires w.Valid() && r.frame.Fits()
    ensures w'.Valid()
    ensures w.wire <= w'.wire
  {
    var w1 := w.AfterWrite(Wire(r.frame), first);
    if !r.disableBufferingAfter || w.Panics(Wire(r.frame), first) then w1
    else
      var w2 := w1.(buffering := false);
      if w2.buffered == [] then w2 else w2.AfterWrite([], flush)
  }

  /** One of the writes of a request fails by itself. */
  predicate RequestPanics(w: WriterState, r: Request, first: Draw, flush: Draw)
    requires w.Valid() && r.frame.Fits()
  {
    var w1 := w.AfterWrite(Wire(r.frame), first);
    || w.Panics(Wire(r.frame), first)
    || (r.disableBufferingAfter && w1.buffered != [] && w1.(buffering := false).Panics([], flush))
  }

  ghost predicate Busy(s: TaskState) {
    s.running && s.written < |s.taken|
  }

  ghost predicate Enabled(s: TaskState, e: Event) {
    match e
    case Send(queue, r) =>
      && s.running
      && Sendable(queue, r)
      && |if queue == Control then s.control else s.data| < QUEUE_CAPACITY
    case Take =>
      s.running && !Busy(s) && (s.control != [] || s.data != [])
    case Complete(first, flush) =>
      && Busy(s) && s.writer.Valid() && s.taken[s.written].request.frame.Fits()
      && !RequestPanics(s.writer, s.taken[s.written].request, first, flush)
    case Abort(first, flush, wire, _) =>
      && Busy(s) && s.writer.Valid() && s.taken[s.written].request.frame.Fits()
      && s.writer.wire <= wire <= AfterRequest(s.writer, s.taken[s.written].request, first, flush).wire
    case Stop =>
      s.running && !Busy(s) && s.control == [] && s.data == []
  }

  ghost function Apply(s: TaskState, e: Event): TaskState
    requires Enabled(s, e)
  {
    match e
    case Send(Control, r) => s.(control := s.control + [r], controlSent := s.controlSent + [r])
    case Send(Data, r) => s.(data := s.data + [r], dataSent := s.dataSent + [r])
    case Take =>
      if s.control != [] then
        s.(control := s.control[1..], taken := s.taken + [Taken(Control, s.control[0], |s.controlSent|)])
      else
        s.(data := s.data[1..], taken := s.taken + [Taken(Data, s.data[0], |s.controlSent|)])
    case Complete(first, flush) =>
      s.(writer := AfterRequest(s.writer, s.taken[s.written].request, first, flush),
         aligned := s.aligned && RequestAligned(s.writer, s.taken[s.written].request, first, flush),
         written := s.written + 1)
    case Abort(first, flush, wire, cancelled) =>
      s.(writer := s.writer.(wire := wire),
         aligned := s.aligned && RequestAligned(s.writer, s.taken[s.written].request, first, flush),
         running := false, closed := s.closed || !cancelled)
    case Stop => s.(running := false)
  }

  ghost predicate Next(s: TaskState, s': TaskState) {
    exists e :: Enabled(s, e) && s' == Apply(s, e)
  }

  /** A run: every finite interleaving from the initial state. */
  ghost predicate IsRun(run: seq<TaskState>) {
    && run != []
    && Init(run[0])
    && forall i :: 0 < i < |run| ==> Next(run[i - 1], run[i])
  }

  /**
   * The body of the writer task for one request, on the writer object: it reaches the state
   * `AfterRequest`, or fails with a prefix of those bytes on the transport.
   */
  method Perform(writer: Writer, r: Request, factory: PaddingFactory, factoryAtFlush: PaddingFactory)
    returns (ok: bool, ghost first: Draw, ghost flush: Draw)
    requires writer.State().Valid() && r.frame.Fits()
    modifies writer, writer.transport
    ensures RequestPanics(old(writer.State()), r, first, flush) ==> !ok
    ensures ok ==> writer.State() == AfterRequest(old(writer.State()), r, first, flush)
    ensures old(writer.transport.log) <= writer.transport.log
         <= AfterRequest(old(writer.State()), r, first, flush).wire
  {
    ghost var before := writer.State();
    flush := Draw(0, []);
    var encoded := Encode(r.frame);
    ok, first := writer.WriteConn(encoded.value, factory);
    if !ok {
      OutputGrows(before, r, first, flush);
      return;
    }
    if r.disableBufferingAfter {
      writer.buffering := false;
      if writer.buffered != [] {
        ok, flush := writer.WriteConn([], factoryAtFlush);
      }
    }
  }

  lemma OutputGrows(w: WriterState, r: Request, first: Draw, flush: Draw)
    requires w.Valid() && r.frame.Fits()
    ensures w.wire + w.Output(Wire(r.frame), first) <= AfterRequest(w, r, first, flush).wire
  {
    var w1 := w.AfterWrite(Wire(r.frame), first);
    assert w1.wire == w.wire + w.Output(Wire(r.frame), first);
  }
}
