/**
 * The receiving side of one stream (`StreamState` and its pump in src/runtime/session.rs): a
 * message queue bounded in messages and, through permits, in bytes, and the pump task that hands
 * the payload to the application.
 */
module Inbound {
  import opened Wrappers
  import opened Bytes

  const INBOUND_PUSH_QUEUE_BYTES: nat := 1024 * 1024
  const INBOUND_PUSH_QUEUE_MESSAGES: nat := 64
  const CHANNEL_CAPACITY: nat := INBOUND_PUSH_QUEUE_MESSAGES + 1

  datatype Message = Data(bytes: seq<byte>) | FinMark

  /** Where the pump is: between messages, inside a write, out of its loop, or ended. */
  datatype Pump =
    | Reading
    | Writing(rest: seq<byte>, held: nat)
    | Leaving(held: nat)
    | Gone

  /** The application's `Stream` value. */
  datatype Handle = Held | Closed | Dropped

  datatype Stream = Stream(
    id: u32,
    openedAt: nat,            // how many frames the receive loop had handled by then
    leftAt: Option<nat>,      // and how many when the stream left the slot
    queue: seq<Message>,
    pump: Pump,
    permits: nat,
    cancelled: bool,          // the stream's close token
    handle: Handle,
    ending: bool,             // the application has half-closed, closed or dropped it
    received: seq<byte>,      // payload of the pushes that found this stream in the slot
    accepted: seq<byte>,      // the part of it that was queued
    delivered: seq<byte>,     // what the pump handed to the application
    refused: bool,            // some push was not queued
    skipped: bool,            // ... and the stream was left in place because the session had closed
    finReceived: Option<nat>, // length of `received` when the peer's FIN arrived
    finQueued: Option<nat>,   // length of `accepted` when the FIN mark was queued
    eof: bool,                // the application saw the end of the stream because of that mark
    finMissed: bool)          // the mark was queued after the pump had left its loop
  {
    predicate Live() {
      pump.Reading? || pump.Writing?
    }

    /** `try_acquire_many_owned` and `try_send` both succeed. */
    predicate CanPush(data: seq<byte>) {
      |data| <= permits && !pump.Gone? && |queue| < CHANNEL_CAPACITY
    }

    function Receive(data: seq<byte>): Stream {
      this.(received := received + data)
    }

    function Push(data: seq<byte>): Stream
      requires CanPush(data)
    {
      this.(queue := queue + [Data(data)], permits := permits - |data|, accepted := accepted + data)
    }

    function QueueFin(): Stream
      requires !pump.Gone? && |queue| < CHANNEL_CAPACITY
    {
      this.(queue := queue + [FinMark], finQueued := Some(|accepted|), finMissed := pump.Leaving?)
    }

    /** The pump takes the next message. */
    function Recv(): Stream
      requires pump.Reading? && queue != []
    {
      match queue[0]
      case Data(bytes) => this.(queue := queue[1..], pump := Writing(bytes, |bytes|))
      case FinMark => this.(queue := queue[1..], pump := Leaving(0), eof := true)
    }

    /** Part of a payload reaches the application. */
    function Deliver(n: nat): Stream
      requires pump.Writing? && n <= |pump.rest|
    {
      this.(delivered := delivered + pump.rest[..n], pump := Writing(pump.rest[n..], pump.held))
    }

    /** A payload is completely written; its permits are released. */
    function Written(): Stream
      requires pump.Writing? && pump.rest == []
    {
      this.(pump := Reading, permits := permits + pump.held)
    }

    /** The pump leaves its loop without an end-of-stream mark. */
    function Leave(): Stream
      requires Live()
    {
      this.(pump := Leaving(if pump.Writing? then pump.held else 0))
    }

    /** The pump task ends: the queue is dropped with the permits its messages hold. */
    function Drop(): Stream
      requires pump.Leaving?
    {
      this.(pump := Gone, queue := [], permits := permits + pump.held + HeldBytes(queue))
    }
  }

  function NewStream(id: u32, openedAt: nat): Stream {
    Stream(
      id, openedAt, None, [], Reading, INBOUND_PUSH_QUEUE_BYTES, false, Held, false, [], [], [],
      false, false, None, None, false, false)
  }

  function HeldBytes(queue: seq<Message>): nat {
    if queue == [] then 0
    else (if queue[0].Data? then |queue[0].bytes| else 0) + HeldBytes(queue[1..])
  }

  function QueuedData(queue: seq<Message>): seq<byte> {
    if queue == [] then []
    else (if queue[0].Data? then queue[0].bytes else []) + QueuedData(queue[1..])
  }

  lemma {:induction false} QueuedDataAppend(a: seq<Message>, b: seq<Message>)
    ensures QueuedData(a + b) == QueuedData(a) + QueuedData(b)
    ensures HeldBytes(a + b) == HeldBytes(a) + HeldBytes(b)
  {
    if a == [] {
      assert a + b == b;
    } else {
      assert (a + b)[1..] == a[1..] + b;
      QueuedDataAppend(a[1..], b);
    }
  }

  lemma NoMessages()
    ensures QueuedData([]) == [] && HeldBytes([]) == 0
  {
  }

  lemma OneMessage(m: Message)
    ensures QueuedData([m]) == if m.Data? then m.bytes else []
    ensures HeldBytes([m]) == if m.Data? then |m.bytes| else 0
  {
    assert [m][1..] == [];
  }

  /** The bytes the pump has taken from the queue and not handed over yet. */
  function InFlight(st: Stream): seq<byte> {
    if st.pump.Writing? then st.pump.rest else []
  }

  function HeldByPump(st: Stream): nat {
    match st.pump
    case Writing(_, held) => held
    case Leaving(held) => held
    case _ => 0
  }

  /** Free permits and bytes held total 1 MiB; at most 65 messages wait. */
  ghost predicate Bounded(st: Stream) {
    && st.permits + HeldByPump(st) + HeldBytes(st.queue) == INBOUND_PUSH_QUEUE_BYTES
    && |st.queue| <= CHANNEL_CAPACITY
    && (st.pump.Writing? ==> |st.pump.rest| <= st.pump.held)
    && (st.pump.Gone? ==> st.queue == [])
  }

  /** Nothing accepted is lost or reordered while the pump runs, and never reordered at all. */
  ghost predicate Conserved(st: Stream) {
    && (st.Live() ==> st.delivered + InFlight(st) + QueuedData(st.queue) == st.accepted)
    && st.delivered <= st.accepted
  }

  /** The one FIN mark of the queue, and the bytes that come before it. */
  ghost predicate FinPlaced(st: Stream, i: nat) {
    && i < |st.queue| && st.queue[i] == FinMark
    && FinMark !in st.queue[..i] && FinMark !in st.queue[i + 1..]
    && st.finQueued.Some? && st.finQueued.value <= |st.accepted|
    && st.delivered + InFlight(st) + QueuedData(st.queue[..i]) == st.accepted[..st.finQueued.value]
  }

  ghost predicate FinOrdered(st: Stream) {
    && (st.finQueued.None? ==> FinMark !in st.queue && !st.eof)
    && (st.finQueued.Some? ==> st.finQueued.value <= |st.accepted|)
    && (st.finQueued.Some? && st.Live() ==> exists i: nat :: FinPlaced(st, i))
    && (st.eof ==> !st.Live() && st.finQueued.Some? && st.delivered == st.accepted[..st.finQueued.value])
  }

  ghost predicate StreamInv(st: Stream) {
    Bounded(st) && Conserved(st) && FinOrdered(st)
  }

  lemma NewStreamInv(id: u32, openedAt: nat)
    ensures StreamInv(NewStream(id, openedAt))
  {
  }

  lemma PushKeepsContents(st: Stream, data: seq<byte>)
    requires Bounded(st) && Conserved(st) && st.CanPush(data)
    ensures Bounded(st.Push(data)) && Conserved(st.Push(data))
  {
    hide QueuedData, HeldBytes;
    QueuedDataAppend(st.queue, [Data(data)]);
    OneMessage(Data(data));
  }

  lemma PushKeepsFin(st: Stream, data: seq<byte>, i: nat)
    requires FinPlaced(st, i) && st.CanPush(data)
    ensures FinPlaced(st.Push(data), i)
  {
    hide QueuedData;
    var st' := st.Push(data);
    assert st'.queue[..i] == st.queue[..i];
    assert st'.queue[i + 1..] == st.queue[i + 1..] + [Data(data)];
    assert st'.accepted[..st.finQueued.value] == st.accepted[..st.finQueued.value];
  }

  lemma PushKeeps(st: Stream, data: seq<byte>)
    requires StreamInv(st) && st.CanPush(data)
    ensures StreamInv(st.Push(data))
  {
    hide QueuedData, HeldBytes, Bounded, Conserved, FinPlaced;
    var st' := st.Push(data);
    PushKeepsContents(st, data);
    if st.finQueued.Some? {
      assert st'.accepted[..st.finQueued.value] == st.accepted[..st.finQueued.value];
      if st.Live() {
        var i: nat :| FinPlaced(st, i);
        PushKeepsFin(st, data, i);
      }
    }
  }

  lemma QueueFinKeeps(st: Stream)
    requires StreamInv(st) && st.finQueued.None? && !st.pump.Gone? && |st.queue| < CHANNEL_CAPACITY
    ensures StreamInv(st.QueueFin())
  {
    hide QueuedData, HeldBytes;
    var st' := st.QueueFin();
    QueuedDataAppend(st.queue, [FinMark]);
    OneMessage(FinMark);
    if st.Live() {
      assert st'.queue[..|st.queue|] == st.queue;
      assert st'.accepted[..|st'.accepted|] == st'.accepted;
      assert FinPlaced(st', |st.queue|);
    }
  }

  lemma RecvKeepsContents(st: Stream)
    requires Bounded(st) && Conserved(st) && st.pump.Reading? && st.queue != []
    ensures Bounded(st.Recv()) && Conserved(st.Recv())
  {
    hide QueuedData, HeldBytes;
    assert st.queue == [st.queue[0]] + st.queue[1..];
    QueuedDataAppend([st.queue[0]], st.queue[1..]);
    OneMessage(st.queue[0]);
  }

  lemma RecvKeeps(st: Stream)
    requires StreamInv(st) && st.pump.Reading? && st.queue != []
    ensures StreamInv(st.Recv())
  {
    hide QueuedData, HeldBytes, Bounded, FinPlaced;
    RecvKeepsContents(st);
    if st.finQueued.Some? {
      var i: nat :| FinPlaced(st, i);
      RecvKeepsFin(st, i);
    } else {
      assert st.queue[0] in st.queue;
      assert FinMark !in st.queue[1..];
    }
  }

  lemma RecvKeepsFin(st: Stream, i: nat)
    requires Conserved(st) && st.pump.Reading? && FinPlaced(st, i)
    ensures i == 0 ==> st.queue[0] == FinMark && st.delivered == st.accepted[..st.finQueued.value]
    ensures i > 0 ==> st.queue[0].Data? && FinPlaced(st.Recv(), i - 1)
  {
    hide QueuedData;
    if i == 0 {
      NoMessages();
      assert st.queue[..0] == [];
    } else {
      assert st.queue[0] in st.queue[..i];
      assert st.queue[..i] == [st.queue[0]] + st.queue[1..][..i - 1];
      QueuedDataAppend([st.queue[0]], st.queue[1..][..i - 1]);
      OneMessage(st.queue[0]);
      assert st.queue[1..][i..] == st.queue[i + 1..];
      assert forall m :: m in st.queue[1..][..i - 1] ==> m in st.queue[..i];
    }
  }

  /** Handing over part of what is in flight changes neither order nor content. */
  lemma DeliverMoves(st: Stream, n: nat)
    requires st.pump.Writing? && n <= |st.pump.rest|
    ensures st.Deliver(n).delivered + InFlight(st.Deliver(n)) == st.delivered + InFlight(st)
  {
    assert st.pump.rest == st.pump.rest[..n] + st.pump.rest[n..];
  }

  lemma DeliverKeeps(st: Stream, n: nat)
    requires StreamInv(st) && st.pump.Writing? && n <= |st.pump.rest|
    ensures StreamInv(st.Deliver(n))
  {
    hide QueuedData, HeldBytes, InFlight;
    var st' := st.Deliver(n);
    DeliverMoves(st, n);
    assert st'.delivered <= st'.delivered + InFlight(st') + QueuedData(st'.queue);
    if st.finQueued.Some? {
      var i: nat :| FinPlaced(st, i);
      assert FinPlaced(st', i);
    }
  }

  lemma WrittenKeeps(st: Stream)
    requires StreamInv(st) && st.pump.Writing? && st.pump.rest == []
    ensures StreamInv(st.Written())
  {
    hide QueuedData, HeldBytes;
    if st.finQueued.Some? {
      var i: nat :| FinPlaced(st, i);
      assert FinPlaced(st.Written(), i);
    }
  }

  lemma LeaveKeeps(st: Stream)
    requires StreamInv(st) && st.Live()
    ensures StreamInv(st.Leave())
  {
    hide QueuedData, HeldBytes;
  }

  lemma DropKeeps(st: Stream)
    requires StreamInv(st) && st.pump.Leaving?
    ensures StreamInv(st.Drop())
  {
  }

  /** Two records that differ only in what the invariant does not read. */
  lemma SameQueueKeeps(st: Stream, st': Stream)
    requires StreamInv(st)
    requires && st'.queue == st.queue && st'.pump == st.pump && st'.permits == st.permits
             && st'.accepted == st.accepted && st'.delivered == st.delivered
             && st'.finQueued == st.finQueued && st'.eof == st.eof
    ensures StreamInv(st')
  {
    hide QueuedData, HeldBytes;
    if st.finQueued.Some? && st.Live() {
      var i: nat :| FinPlaced(st, i);
      assert FinPlaced(st', i);
    }
  }
}
