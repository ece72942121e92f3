/**
 * A session as a set of concurrent tasks over one stream slot (src/runtime/session.rs). One lock
 * section, one queue operation or one poll is one step; a run is any interleaving of the steps of
 * the receive loop, the pumps, the application's calls, the close and retire tasks, shutdowns,
 * expiry and the end of the writer.
 */
module Sessions {
  import opened Wrappers
  import opened Bytes
  import opened Frames
  import opened Inbound
  import opened Texts

  /** The stream in the slot; `key` is its place in the session's list of streams. */
  datatype Slot = Slot(id: u32, key: nat, localFin: bool, remoteFin: bool, readClosed: bool) {
    predicate Finished() {
      localFin && remoteFin && readClosed
    }
  }

  datatype FinKind = HalfClose | Close | DropStream

  /** What a task goes on with after a shared piece of code. */
  datatype Then =
    | Nothing
    | ThenRetire(id: u32, finSent: bool)
    | ThenPumpDrop(key: nat)
    | ThenReceive
    | ThenRemove(id: u32)
    | ThenShutdown
    | ThenEnd

  /** Where a task is: the step it takes next. */
  datatype Task =
    | Done
    | Receiving                                  // the receive loop, between frames
    | Pushing(id: u32, key: nat, data: seq<byte>)
    | Overload(id: u32)
    | MarkingFin(id: u32, key: nat)              // remote_fin is set; the mark is to be queued
    | FinFull(id: u32, key: nat)
    | FinWaiter(id: u32, key: nat)
    | Admitting(id: u32)
    | Rejecting(id: u32, message: seq<byte>)
    | Offering(id: u32)
    | OfferFull(id: u32)
    | MarkReadClosed(id: u32, after: Then)
    | CheckFinish(id: u32, after: Then)
    | Remove(id: u32, graceful: bool, after: Then)
    | BecameIdle(after: Then)
    | BeginShutdown(after: Then)
    | TakeSlot(after: Then)
    | StartFin(id: u32, kind: FinKind)
    | SendingFin(id: u32, kind: FinKind, remoteFin: bool)
    | Retire(id: u32, finSent: bool)
    | RetireTimer(id: u32)
    | Reserving(id: u32)
    | Opening(id: u32)
    | PumpDrop(key: nat)

  function Resume(after: Then): Task {
    match after
    case Nothing => Done
    case ThenRetire(id, finSent) => Retire(id, finSent)
    case ThenPumpDrop(key) => PumpDrop(key)
    case ThenReceive => Receiving
    case ThenRemove(id) => Remove(id, false, ThenReceive)
    case ThenShutdown => BeginShutdown(ThenEnd)
    case ThenEnd => Done
  }

  datatype SynOutcome = Accepted | Duplicate | Rejected | SessionEnded

  datatype Session = Session(
    isClient: bool,
    closed: bool,
    expired: bool,
    writerEnded: bool,
    settings: bool,             // the client's Settings frame was received
    drained: bool,              // some shutdown has emptied the slot
    slot: Option<Slot>,
    streams: seq<Stream>,       // every stream ever placed in the slot
    tasks: seq<Task>,           // the receive loop is the first
    handled: seq<Frame>,        // frames handled by the receive loop
    syns: seq<SynOutcome>,      // what became of each SYN a server handled
    replies: seq<Frame>,        // frames its own handlers put in the control queue
    used: set<u32>,             // ids that were ever placed in the slot
    distinct: bool,                // none of them twice
    removals: nat,              // slots freed by `remove_stream_by_id`
    notices: nat,               // idle notices sent to the pool
    expiries: nat)              // removals that found the session expired
  {
    predicate Holds(id: u32) {
      slot.Some? && slot.value.id == id
    }

    predicate Ended() {
      closed || writerEnded
    }

    /** The key of the slot's stream. */
    function Key(): nat
      requires slot.Some?
    {
      slot.value.key
    }
  }

  function InitialSession(isClient: bool): Session {
    Session(isClient, false, false, false, false, false, None, [], [Receiving], [], [], [], {}, true, 0, 0, 0)
  }

  /** The slot names a stream of the list. */
  predicate SlotValid(s: Session) {
    s.slot.Some? ==> s.slot.value.key < |s.streams|
  }

  /** One atomic change of what the tasks share. */
  datatype Action =
    | Stay
    | SetStream(key: nat, st: Stream)
    | RaiseLocalFin
    | RaiseReadClosed
    | RaiseRemoteFin
    | Open(id: u32)          // a new stream enters the slot
    | Free                   // `remove_stream_by_id` takes the stream out of the slot
    | Drain                  // `shutdown` takes it out, if there is one
    | MarkClosed
    | Notify                 // the idle notice to the pool
    | CountExpiry
    | NoteSettings
    | MarkExpired
    | EndWriter

  predicate Allows(s: Session, a: Action) {
    match a
    case SetStream(key, _) => key < |s.streams|
    case RaiseLocalFin | RaiseReadClosed => s.slot.Some?
    case RaiseRemoteFin | Free => s.slot.Some? && SlotValid(s)
    case Open(_) => s.slot.None?
    case Drain => SlotValid(s)
    case _ => true
  }

  /** The streams after the slot's close token is cancelled. */
  function CancelSlot(s: Session): seq<Stream>
    requires SlotValid(s)
  {
    if s.slot.None? then s.streams
    else s.streams[s.Key() := s.streams[s.Key()].(cancelled := true, leftAt := Some(|s.handled|))]
  }

  function SlotAfter(s: Session, a: Action): Option<Slot>
    requires Allows(s, a)
  {
    match a
    case RaiseLocalFin => Some(s.slot.value.(localFin := true))
    case RaiseReadClosed => Some(s.slot.value.(readClosed := true))
    case RaiseRemoteFin => Some(s.slot.value.(remoteFin := true))
    case Open(id) => Some(Slot(id, |s.streams|, false, false, false))
    case Free | Drain => None
    case _ => s.slot
  }

  function StreamsAfter(s: Session, a: Action): seq<Stream>
    requires Allows(s, a)
  {
    match a
    case SetStream(key, st) => s.streams[key := st]
    case RaiseRemoteFin =>
      var st := s.streams[s.Key()];
      s.streams[s.Key() := st.(finReceived := Some(|st.received|))]
    case Open(id) => s.streams + [NewStream(id, |s.handled|)]
    case Free | Drain => CancelSlot(s)
    case _ => s.streams
  }

  function Act(s: Session, a: Action): Session
    requires Allows(s, a)
  {
    s.(
      slot := SlotAfter(s, a),
      streams := StreamsAfter(s, a),
      used := if a.Open? then s.used + {a.id} else s.used,
      distinct := s.distinct && (a.Open? ==> a.id !in s.used),
      drained := s.drained || a.Drain?,
      closed := s.closed || a.MarkClosed?,
      settings := s.settings || a.NoteSettings?,
      expired := s.expired || a.MarkExpired?,
      writerEnded := s.writerEnded || a.EndWriter?,
      removals := s.removals + if a.Free? then 1 else 0,
      notices := s.notices + if a.Notify? then 1 else 0,
      expiries := s.expiries + if a.CountExpiry? then 1 else 0)
  }

  /** One step of a task: its atomic action, where it goes next, a task it starts, a SYN's outcome and a reply. */
  datatype Step = Step(action: Action, next: Task, spawned: seq<Task>, answer: seq<SynOutcome>, replies: seq<Frame>)

  function Go(action: Action, next: Task): Step {
    Step(action, next, [], [], [])
  }

  function Reply(next: Task, answer: seq<SynOutcome>, reply: Frame): Step {
    Step(Stay, next, [], answer, [reply])
  }

  function Answer(next: Task, outcome: SynOutcome): Step {
    Step(Stay, next, [], [outcome], [])
  }

  const TOO_OLD: seq<byte> := Ascii("session reached its maximum age")
  const LIMIT_REACHED: seq<byte> := Ascii("session stream limit reached")
  const QUEUE_FULL: seq<byte> := Ascii("incoming stream queue is full")
  const NO_SETTINGS: seq<byte> := Ascii("client did not send its settings")

  datatype Offer = Taken | Full | Closed

  /** The environment's choices in one step of a task: an operation's success, an offer's outcome. */
  datatype Choice = Choice(ok: bool, offer: Offer)

  predicate CanRun(s: Session, t: Task, c: Choice) {
    match t
    case Done | Receiving => false
    case Pushing(_, key, _) => key < |s.streams|
    case MarkingFin(_, key) => key < |s.streams|
    case FinFull(_, key) => key < |s.streams|
    case FinWaiter(_, key) =>
      // the send has room or finds the pump gone, or the stream's close token is cancelled
      && key < |s.streams|
      && (c.ok ==> s.streams[key].pump.Gone? || |s.streams[key].queue| < CHANNEL_CAPACITY)
      && (!c.ok ==> s.streams[key].cancelled)
    case Overload(_) | Rejecting(_, _) | OfferFull(_) =>
      // a full control queue may refuse a request at any time; an ended writer always does
      c.ok ==> !s.writerEnded
    case SendingFin(_, _, _) | Opening(_) =>
      // a request waits for the writer and fails only with the session or its writer
      !c.ok ==> s.Ended()
    case PumpDrop(key) => key < |s.streams| && s.streams[key].pump.Leaving?
    case _ => true
  }

  /** Steps of the receive loop and its helpers on a stream's queue. */
  predicate InboundTask(t: Task) {
    t.Pushing? || t.Overload? || t.MarkingFin? || t.FinFull? || t.FinWaiter? || t.PumpDrop?
  }

  function InboundStep(s: Session, t: Task, c: Choice): Step
    requires InboundTask(t) && CanRun(s, t, c)
  {
    match t
    case Pushing(id, key, data) =>
      var st := s.streams[key];
      if st.CanPush(data) then Go(SetStream(key, st.Push(data)), Receiving)
      else if |data| > st.permits || !s.closed then Go(SetStream(key, st.(refused := true)), Overload(id))
      else Go(SetStream(key, st.(refused := true, skipped := true)), Receiving)
    case Overload(id) =>
      if c.ok then Reply(Remove(id, false, ThenReceive), [], Frame(Fin, id, []))
      else Go(Stay, BeginShutdown(ThenEnd))
    case MarkingFin(id, key) =>
      var st := s.streams[key];
      if st.pump.Gone? then Go(Stay, MarkReadClosed(id, ThenReceive))
      else if |st.queue| >= CHANNEL_CAPACITY then Go(Stay, FinFull(id, key))
      else Go(SetStream(key, st.QueueFin()), Receiving)
    case FinFull(id, key) =>
      Step(Stay, Receiving, if s.Holds(id) then [FinWaiter(id, key)] else [], [], [])
    case FinWaiter(id, key) =>
      var st := s.streams[key];
      if !c.ok then Go(Stay, Done)
      else if st.pump.Gone? then Go(Stay, MarkReadClosed(id, Nothing))
      else Go(SetStream(key, st.QueueFin()), Done)
    case PumpDrop(key) => Go(SetStream(key, s.streams[key].Drop()), Done)
  }

  /** Steps that may place a stream in the slot. */
  predicate AdmissionTask(t: Task) {
    t.Admitting? || t.Rejecting? || t.Offering? || t.OfferFull? || t.Reserving? || t.Opening?
  }

  function AdmissionStep(s: Session, t: Task, c: Choice): Step
    requires AdmissionTask(t) && CanRun(s, t, c)
  {
    match t
    case Admitting(id) =>
      if s.Holds(id) then Answer(Receiving, Duplicate)
      else if s.expired then Go(Stay, Rejecting(id, TOO_OLD))
      else if s.slot.Some? then Go(Stay, Rejecting(id, LIMIT_REACHED))
      else Go(Open(id), Offering(id))
    case Rejecting(id, message) =>
      if c.ok then Reply(Receiving, [Rejected], Frame(SynAck, id, message))
      else Answer(BeginShutdown(ThenEnd), SessionEnded)
    case Offering(id) => (
      match c.offer
      case Taken => Answer(Receiving, Accepted)
      case Full => Go(Stay, OfferFull(id))
      case Closed => Answer(Remove(id, false, ThenShutdown), SessionEnded))
    case OfferFull(id) =>
      if c.ok then Reply(Remove(id, false, ThenReceive), [Rejected], Frame(SynAck, id, QUEUE_FULL))
      else Answer(BeginShutdown(ThenEnd), SessionEnded)
    case Reserving(id) =>
      if s.closed || s.expired || s.slot.Some? then Go(Stay, Done) else Go(Open(id), Opening(id))
    case Opening(id) =>
      Go(Stay, if c.ok && !s.closed then Done else Remove(id, false, Nothing))
  }

  /** Steps of finishing, removing and shutting down. */
  predicate ReleaseTask(t: Task) {
    t.MarkReadClosed? || t.CheckFinish? || t.Remove? || t.BecameIdle? || t.BeginShutdown? || t.TakeSlot?
  }

  function ReleaseStep(s: Session, t: Task): Step
    requires ReleaseTask(t)
  {
    match t
    case MarkReadClosed(id, after) =>
      Go(if s.Holds(id) then RaiseReadClosed else Stay, CheckFinish(id, after))
    case CheckFinish(id, after) =>
      Go(Stay, if s.Holds(id) && s.slot.value.Finished() then Remove(id, true, after) else Resume(after))
    case Remove(id, _, after) =>
      if s.Holds(id) then Go(Free, BecameIdle(after)) else Go(Stay, Resume(after))
    case BecameIdle(after) =>
      if s.expired then Go(CountExpiry, BeginShutdown(after)) else Go(Notify, Resume(after))
    case BeginShutdown(after) => Go(MarkClosed, TakeSlot(after))
    case TakeSlot(after) => Go(Drain, Resume(after))
  }

  /** Steps of the application's half-close, close and drop. */
  predicate ClosingTask(t: Task) {
    t.StartFin? || t.SendingFin? || t.Retire? || t.RetireTimer?
  }

  function ClosingStep(s: Session, t: Task, c: Choice): Step
    requires ClosingTask(t) && CanRun(s, t, c)
  {
    match t
    case StartFin(id, kind) =>
      if s.Holds(id) && !s.slot.value.localFin then
        Go(RaiseLocalFin, SendingFin(id, kind, s.slot.value.remoteFin))
      else
        Go(Stay,
          match kind
          case HalfClose => Done
          case Close => Retire(id, s.Holds(id))
          case DropStream => CheckFinish(id, ThenRetire(id, true)))
    case SendingFin(id, kind, remoteFin) =>
      Go(Stay,
        match kind
        case HalfClose => if c.ok && remoteFin then CheckFinish(id, Nothing) else Done
        case Close => if c.ok && remoteFin then CheckFinish(id, ThenRetire(id, true)) else Retire(id, c.ok)
        case DropStream => CheckFinish(id, ThenRetire(id, c.ok)))
    case Retire(id, finSent) =>
      Go(Stay,
        if !s.isClient then Remove(id, false, Nothing)
        else if !finSent || s.expired then BeginShutdown(Nothing)
        else RetireTimer(id))
    case RetireTimer(id) => Go(Stay, if s.Holds(id) then BeginShutdown(Nothing) else Done)
  }

  function StepOf(s: Session, t: Task, c: Choice): Step
    requires CanRun(s, t, c)
  {
    if InboundTask(t) then InboundStep(s, t, c)
    else if AdmissionTask(t) then AdmissionStep(s, t, c)
    else if ReleaseTask(t) then ReleaseStep(s, t)
    else ClosingStep(s, t, c)
  }

  /** The receive loop's step for a valid frame; `ok` tells whether a control reply found room. */
  function FrameStep(s: Session, f: Frame, ok: bool): Step
    requires SlotValid(s)
  {
    match f.command
    case Push =>
      if s.Holds(f.streamId) then
        Go(SetStream(s.Key(), s.streams[s.Key()].Receive(f.data)), Pushing(f.streamId, s.Key(), f.data))
      else Go(Stay, Receiving)
    case Fin =>
      if s.Holds(f.streamId) && !s.slot.value.remoteFin then
        Go(RaiseRemoteFin, MarkingFin(f.streamId, s.Key()))
      else Go(Stay, Receiving)
    case Syn =>
      if s.isClient then Go(Stay, Receiving)
      else if !s.settings then
        Step(Stay, BeginShutdown(ThenEnd), [], [SessionEnded], if ok then [Frame(Alert, 0, NO_SETTINGS)] else [])
      else Go(Stay, Admitting(f.streamId))
    case Settings =>
      if s.isClient then Go(Stay, Receiving)
      else Go(NoteSettings, if ok then Receiving else BeginShutdown(ThenEnd))
    case SynAck =>
      Go(Stay,
        if f.data == [] then Receiving
        else if s.isClient then BeginShutdown(ThenRemove(f.streamId))
        else Remove(f.streamId, false, ThenReceive))
    case HeartRequest =>
      if ok then Reply(Receiving, [], Frame(HeartResponse, f.streamId, []))
      else Go(Stay, BeginShutdown(ThenEnd))
    case Alert => Go(Stay, BeginShutdown(ThenEnd))
    case _ => Go(Stay, Receiving)
  }

  /** The checks `receive_loop` makes before it looks at a command. */
  predicate ValidFrame(f: Frame) {
    f.command.ValidStreamId(f.streamId) && (f.command.AllowsData() || f.data == [])
  }

  datatype Event =
    | RunTask(i: nat, choice: Choice)
    | ReceiveFrame(frame: Frame, ok: bool)
    | ReceiveEnds                       // end of input, an invalid frame, a read error or the close token
    | PumpRecv(key: nat)
    | PumpDeliver(key: nat, n: nat)
    | PumpWritten(key: nat)
    | PumpFails(key: nat)               // the application dropped its end of the pipe
    | PumpTimesOut(key: nat)
    | PumpCancelled(key: nat)
    | AppReserve(id: u32)
    | AppHalfClose(key: nat)
    | AppClose(key: nat)
    | AppDrop(key: nat)
    | AskShutdown                       // heartbeat, age, client or server shutting the session down
    | Expire
    | WriterEnds
    | WriterCloses

  predicate Enabled(s: Session, e: Event) {
    match e
    case RunTask(i, choice) => i < |s.tasks| && CanRun(s, s.tasks[i], choice)
    case ReceiveFrame(f, _) => s.tasks != [] && s.tasks[0] == Receiving && ValidFrame(f)
    case ReceiveEnds => s.tasks != [] && s.tasks[0] == Receiving
    case PumpRecv(key) => key < |s.streams| && s.streams[key].pump.Reading? && s.streams[key].queue != []
    case PumpDeliver(key, n) =>
      key < |s.streams| && s.streams[key].pump.Writing? && n <= |s.streams[key].pump.rest|
    case PumpWritten(key) =>
      key < |s.streams| && s.streams[key].pump.Writing? && s.streams[key].pump.rest == []
    case PumpFails(key) =>
      key < |s.streams| && s.streams[key].pump.Writing? && s.streams[key].handle == Dropped
    case PumpTimesOut(key) =>
      key < |s.streams| && s.streams[key].pump.Writing? && s.streams[key].cancelled
    case PumpCancelled(key) =>
      key < |s.streams| && s.streams[key].pump.Reading? && s.streams[key].queue == [] && s.streams[key].cancelled
    case AppReserve(id) => s.isClient && !s.closed && id > 0
    case AppHalfClose(key) => key < |s.streams| && s.streams[key].handle == Held
    case AppClose(key) => key < |s.streams| && s.streams[key].handle == Held
    case AppDrop(key) => key < |s.streams| && s.streams[key].handle != Dropped
    case WriterCloses => s.writerEnded
    case _ => true
  }

  /** The steps that are not one of an existing task: an action and the tasks it starts. */
  datatype Effect = Effect(action: Action, spawned: seq<Task>)

  predicate OtherEvent(e: Event) {
    !e.RunTask? && !e.ReceiveFrame? && !e.ReceiveEnds?
  }

  function EffectOf(s: Session, e: Event): Effect
    requires OtherEvent(e) && Enabled(s, e)
  {
    match e
    case PumpRecv(key) =>
      var st := s.streams[key];
      Effect(SetStream(key, st.Recv()),
             if st.queue[0].FinMark? then [MarkReadClosed(st.id, ThenPumpDrop(key))] else [])
    case PumpDeliver(key, n) => Effect(SetStream(key, s.streams[key].Deliver(n)), [])
    case PumpWritten(key) => Effect(SetStream(key, s.streams[key].Written()), [])
    case PumpFails(key) =>
      Effect(SetStream(key, s.streams[key].Leave()), [MarkReadClosed(s.streams[key].id, ThenPumpDrop(key))])
    case PumpTimesOut(key) => Effect(SetStream(key, s.streams[key].Leave()), [PumpDrop(key)])
    case PumpCancelled(key) => Effect(SetStream(key, s.streams[key].Leave()), [PumpDrop(key)])
    case AppReserve(id) => Effect(Stay, [Reserving(id)])
    case AppHalfClose(key) =>
      Effect(SetStream(key, s.streams[key].(ending := true)), [StartFin(s.streams[key].id, HalfClose)])
    case AppClose(key) =>
      Effect(SetStream(key, s.streams[key].(handle := Handle.Closed, ending := true)),
             if s.closed then [] else [StartFin(s.streams[key].id, Close)])
    case AppDrop(key) =>
      Effect(SetStream(key, s.streams[key].(handle := Dropped, ending := true)),
             if s.streams[key].handle == Held then [StartFin(s.streams[key].id, DropStream)] else [])
    case AskShutdown => Effect(Stay, [BeginShutdown(Nothing)])
    case Expire => Effect(MarkExpired, [])
    case WriterEnds => Effect(EndWriter, [])
    case WriterCloses => Effect(MarkClosed, [])
  }

  /** Task `i` takes a step. */
  function Commit(s: Session, i: nat, step: Step): Session
    requires i < |s.tasks| && Allows(s, step.action)
  {
    Act(s, step.action).(
      tasks := s.tasks[i := step.next] + step.spawned,
      syns := s.syns + step.answer,
      replies := s.replies + step.replies)
  }

  ghost predicate Next(s: Session, s': Session) {
    exists e :: Enabled(s, e) && NextBy(s, e, s')
  }

  ghost predicate NextBy(s: Session, e: Event, s': Session)
    requires Enabled(s, e)
  {
    match e
    case RunTask(i, choice) =>
      var step := StepOf(s, s.tasks[i], choice);
      Allows(s, step.action) && s' == Commit(s, i, step)
    case ReceiveFrame(f, ok) =>
      && SlotValid(s)
      && var step := FrameStep(s, f, ok);
      && Allows(s, step.action)
      && s' == Commit(s, 0, step).(handled := s.handled + [f])
    case ReceiveEnds => s' == Commit(s, 0, Go(Stay, BeginShutdown(ThenEnd)))
    case _ =>
      var effect := EffectOf(s, e);
      && Allows(s, effect.action)
      && s' == Act(s, effect.action).(tasks := s.tasks + effect.spawned)
  }

  /** A run: every finite interleaving from the initial state. */
  ghost predicate IsRun(run: seq<Session>) {
    && run != []
    && run[0] == InitialSession(run[0].isClient)
    && forall i :: 0 < i < |run| ==> Next(run[i - 1], run[i])
  }
}
