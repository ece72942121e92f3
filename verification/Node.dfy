/**
 * One end of a connection: a session and its writer task in one state. The session's tasks put their
 * requests into the writer's queues, the application writes to its streams, and the writer takes
 * the requests from the queues (src/runtime/session.rs).
 */
module Nodes {
  import opened Wrappers
  import opened Bytes
  import opened Frames
  import opened Inbound
  import S = Sessions
  import W = WriterTasks
  import Writers

  /**
   * One call of `write` on a stream that has passed its check: whether it is settled, by being queued
   * or given up, and whether it was queued.
   */
  datatype Write = Write(key: nat, data: seq<byte>, settled: bool, queued: bool)

  datatype Node = Node(
    session: S.Session,
    writer: W.TaskState,
    started: bool,            // a client's `run` has sent its Settings
    enqueued: set<nat>,       // tasks whose present step has its request in a queue
    ready: set<u32>,          // streams that were handed to the application
    writes: seq<Write>)

  function InitialNode(isClient: bool): Node {
    Node(S.InitialSession(isClient),
         W.TaskState(isClient, true, false, [], [], Writers.InitialWriter(isClient), true, 0, [], [], []),
         !isClient, {}, {}, [])
  }

  datatype Event =
    | Move(e: S.Event)                       // a step of the session
    | Transport(t: W.Event)                  // a step of the writer task
    | Enqueue(i: nat)                        // a task's SYN or FIN enters its queue
    | StartWrite(key: nat, data: seq<byte>)  // `write_data` finds its stream open
    | QueueWrite(j: nat)                     // its Push enters the data queue
    | GiveUpWrite(j: nat)                    // or the session ends first
    | Start(r: W.Request)                    // `run` of a client sends its Settings
    | SendControl(r: W.Request)              // scheme updates, heartbeats, handshake replies

  /** The request that a task's present step waits for. */
  function RequestOf(t: S.Task): Option<(W.Queue, W.Request)> {
    match t
    case Opening(id) => Some((W.Control, W.Request(Frame(Syn, id, []), true)))
    case SendingFin(id, _, _) => Some((W.Data, W.Request(Frame(Fin, id, []), false)))
    case _ => None
  }

  /** No write to the stream is still to be queued. */
  ghost predicate Settled(n: Node, key: nat) {
    forall j :: 0 <= j < |n.writes| && n.writes[j].key == key ==> n.writes[j].settled
  }

  /** The application is not about to end the stream. */
  ghost predicate NotEnding(n: Node, id: u32) {
    forall i :: 0 <= i < |n.session.tasks| && n.session.tasks[i].StartFin? ==> n.session.tasks[i].id != id
  }

  /**
   * What a step of the session has to wait for: a task for its request, and the application, which
   * uses each stream sequentially, for its own writes before it ends the stream.
   */
  ghost predicate MayMove(n: Node, e: S.Event) {
    match e
    case RunTask(i, c) =>
      i < |n.session.tasks| && RequestOf(n.session.tasks[i]).Some? && c.ok ==> i in n.enqueued
    case AppHalfClose(key) => key < |n.session.streams| && n.session.streams[key].id in n.ready && Settled(n, key)
    case AppClose(key) => key < |n.session.streams| && n.session.streams[key].id in n.ready && Settled(n, key)
    case AppDrop(key) => Settled(n, key)
    case WriterEnds => !n.writer.running
    case _ => true
  }

  /** Before `run` a client session has no receive loop, and nobody has the session to reserve a stream. */
  predicate WaitsForStart(e: S.Event) {
    e.ReceiveFrame? || e.ReceiveEnds? || e.AppReserve?
  }

  /** The streams a step hands to the application: one that was opened, or one that was accepted. */
  function HandedOver(s: S.Session, e: S.Event): set<u32> {
    if e.RunTask? && e.i < |s.tasks| then
      match s.tasks[e.i]
      case Opening(id) => if e.choice.ok && !s.closed then {id} else {}
      case Offering(id) => if e.choice.offer == S.Taken then {id} else {}
      case _ => {}
    else {}
  }

  /** The handlers' replies enter the control queue in the same step. */
  ghost predicate Replied(w: W.TaskState, replies: seq<Frame>, w': W.TaskState) {
    if replies == [] then w' == w
    else
      && |replies| == 1
      && W.Enabled(w, W.Send(W.Control, W.Request(replies[0], false)))
      && w' == W.Apply(w, W.Send(W.Control, W.Request(replies[0], false)))
  }

  ghost predicate Moves(n: Node, e: S.Event, n': Node) {
    && S.Enabled(n.session, e) && MayMove(n, e) && S.NextBy(n.session, e, n'.session)
    && (WaitsForStart(e) ==> n.started) && n'.started == n.started
    && n.session.replies <= n'.session.replies
    && Replied(n.writer, n'.session.replies[|n.session.replies|..], n'.writer)
    && n'.enqueued == (if e.RunTask? then n.enqueued - {e.i} else n.enqueued)
    && n'.ready == n.ready + HandedOver(n.session, e)
    && n'.writes == n.writes
  }

  /** The check of `write_data`, made by an application that has the stream and no other call on it. */
  ghost predicate MayWrite(n: Node, key: nat, data: seq<byte>) {
    && key < |n.session.streams| && |data| <= MAX_FRAME_DATA_SIZE
    && var st := n.session.streams[key];
    && st.handle == Held && st.id in n.ready
    && n.session.Holds(st.id) && !n.session.slot.value.localFin
    && Settled(n, key) && NotEnding(n, st.id)
  }

  function PushOf(n: Node, j: nat): W.Request
    requires j < |n.writes| && n.writes[j].key < |n.session.streams|
  {
    W.Request(Frame(Push, n.session.streams[n.writes[j].key].id, n.writes[j].data), false)
  }

  ghost predicate Sends(w: W.TaskState, queue: W.Queue, r: W.Request, w': W.TaskState) {
    W.Enabled(w, W.Send(queue, r)) && w' == W.Apply(w, W.Send(queue, r))
  }

  /** The control frames that no task waits for: an update, settings, a heartbeat, a stream's handshake. */
  ghost predicate ControlFrame(n: Node, f: Frame) {
    match f.command
    case UpdatePaddingScheme | ServerSettings => f.streamId == 0
    case HeartRequest => f.streamId == 0 && f.data == []
    case SynAck => exists key :: 0 <= key < |n.session.streams| && n.session.streams[key].id == f.streamId
    case _ => false
  }

  ghost predicate Next(n: Node, e: Event, n': Node) {
    match e
    case Move(e) => Moves(n, e, n')
    case Transport(t) => !t.Send? && W.Enabled(n.writer, t) && n' == n.(writer := W.Apply(n.writer, t))
    case Enqueue(i) =>
      && i < |n.session.tasks| && i !in n.enqueued && RequestOf(n.session.tasks[i]).Some?
      && var (queue, r) := RequestOf(n.session.tasks[i]).value;
      && Sends(n.writer, queue, r, n'.writer)
      && n' == n.(writer := n'.writer, enqueued := n.enqueued + {i})
    case StartWrite(key, data) =>
      MayWrite(n, key, data) && n' == n.(writes := n.writes + [Write(key, data, false, false)])
    case QueueWrite(j) =>
      && j < |n.writes| && n.writes[j].key < |n.session.streams| && !n.writes[j].settled
      && Sends(n.writer, W.Data, PushOf(n, j), n'.writer)
      && n' == n.(writer := n'.writer, writes := n.writes[j := n.writes[j].(settled := true, queued := true)])
    case GiveUpWrite(j) =>
      j < |n.writes| && n' == n.(writes := n.writes[j := n.writes[j].(settled := true)])
    case Start(r) =>
      && !n.started && r.frame.command == Settings && r.frame.streamId == 0
      && Sends(n.writer, W.Control, r, n'.writer)
      && n' == n.(writer := n'.writer, started := true)
    case SendControl(r) =>
      && n.started && ControlFrame(n, r.frame)
      && Sends(n.writer, W.Control, r, n'.writer)
      && n' == n.(writer := n'.writer)
  }
}
