/**
 * What a node has sent: the FIN of each stream whose side the application ended, the SYN of each
 * stream it handed over, exactly the payload the application wrote, and only frames that the
 * peer's receive loop accepts.
 */
module Outgoings {
  import opened Bytes
  import opened Frames
  import opened Inbound
  import opened Nodes
  import opened SessionInvariants
  import opened StreamInvariants
  import opened Releases
  import opened EndToEnd
  import opened NodeInvariants
  import HalfCloses
  import Replies
  import S = Sessions
  import W = WriterTasks

  // ---- FINs ----

  ghost predicate FinSent(sent: seq<W.Request>, id: u32) {
    exists k :: 0 <= k < |sent| && sent[k].frame == Frame(Fin, id, [])
  }

  ghost predicate SomeSendsFin(tasks: seq<S.Task>, id: u32) {
    exists i :: 0 <= i < |tasks| && tasks[i].SendingFin? && tasks[i].id == id
  }

  /** A task whose FIN is in the queue has it in the queue. */
  ghost predicate FinsEnqueued(n: Node) {
    forall i :: 0 <= i < |n.session.tasks| && n.session.tasks[i].SendingFin? && i in n.enqueued ==>
      FinSent(n.writer.dataSent, n.session.tasks[i].id)
  }

  /** The local FIN of the stream in the slot was sent, or some task is still sending it. */
  ghost predicate LocalFinSent(n: Node) {
    n.session.slot.Some? && n.session.slot.value.localFin && !n.session.Ended() ==>
      || FinSent(n.writer.dataSent, n.session.slot.value.id)
      || SomeSendsFin(n.session.tasks, n.session.slot.value.id)
  }

  lemma FinSentGrows(sent: seq<W.Request>, sent': seq<W.Request>)
    requires sent <= sent'
    ensures forall id :: FinSent(sent, id) ==> FinSent(sent', id)
  {
    forall id | FinSent(sent, id)
      ensures FinSent(sent', id)
    {
      var k :| 0 <= k < |sent| && sent[k].frame == Frame(Fin, id, []);
      assert sent'[k] == sent[k];
    }
  }

  /** The local FIN is raised only by a task that goes on to send it, and stays raised. */
  predicate RaisesFin(s: S.Session, step: S.Step) {
    step.action.RaiseLocalFin? ==> s.slot.Some? && step.next.SendingFin? && step.next.id == s.slot.value.id
  }

  lemma StepRaisesFin(s: S.Session, t: S.Task, c: S.Choice)
    requires S.CanRun(s, t, c)
    ensures RaisesFin(s, S.StepOf(s, t, c))
  {
  }

  lemma OthersRaiseNone(s: S.Session, e: S.Event)
    requires S.Enabled(s, e) && S.SlotValid(s)
    ensures e.ReceiveFrame? ==> !S.FrameStep(s, e.frame, e.ok).action.RaiseLocalFin?
    ensures S.OtherEvent(e) ==> !S.EffectOf(s, e).action.RaiseLocalFin?
  {
  }

  lemma LocalFinFrom(s: S.Session, a: S.Action)
    requires S.Allows(s, a) && S.Act(s, a).slot.Some? && S.Act(s, a).slot.value.localFin
    ensures s.slot.Some? && S.Act(s, a).slot.value.id == s.slot.value.id
    ensures s.slot.value.localFin || a.RaiseLocalFin?
    ensures s.Ended() ==> S.Act(s, a).Ended()
  {
  }

  /** After a step, a raised local FIN was raised before, or its task is now sending the FIN. */
  lemma RaisedBefore(s: S.Session, e: S.Event, s': S.Session)
    requires Shape(s) && S.Enabled(s, e) && S.NextBy(s, e, s') && s'.slot.Some? && s'.slot.value.localFin
    ensures s.slot.Some? && s'.slot.value.id == s.slot.value.id && (s.Ended() ==> s'.Ended())
    ensures s.slot.value.localFin || SomeSendsFin(s'.tasks, s'.slot.value.id)
  {
    hide S.StepOf, S.FrameStep, S.EffectOf, S.Act, S.CanRun, SlotShape, IdsShape, TasksShape;
    HalfCloses.ShapeValid(s);
    OthersRaiseNone(s, e);
    match e
    case RunTask(i, c) =>
      StepRaisesFin(s, s.tasks[i], c);
      LocalFinFrom(s, S.StepOf(s, s.tasks[i], c).action);
      assert s'.tasks[i] == S.StepOf(s, s.tasks[i], c).next;
    case ReceiveFrame(f, ok) => LocalFinFrom(s, S.FrameStep(s, f, ok).action);
    case ReceiveEnds => LocalFinFrom(s, S.Stay);
    case _ => LocalFinFrom(s, S.EffectOf(s, e).action);
  }

  /** A task leaves its FIN only when the FIN is in the queue, or when the session has ended. */
  lemma FinTaskLeaves(n: Node, i: nat, c: S.Choice)
    requires FinsEnqueued(n) && S.Enabled(n.session, S.RunTask(i, c)) && MayMove(n, S.RunTask(i, c))
    requires n.session.tasks[i].SendingFin?
    ensures FinSent(n.writer.dataSent, n.session.tasks[i].id) || n.session.Ended()
    ensures c.ok ==> FinSent(n.writer.dataSent, n.session.tasks[i].id)
  {
    hide FinSent;
  }

  lemma MoveKeepsFins(n: Node, e: S.Event, n': Node)
    requires Shape(n.session) && FinsEnqueued(n) && LocalFinSent(n) && Moves(n, e, n')
    requires TasksFrom(n.session, e, n'.session) && n'.writer.dataSent == n.writer.dataSent
    ensures FinsEnqueued(n') && LocalFinSent(n')
  {
    hide FinSent, S.Enabled, S.NextBy, MayMove, Replied, Shape;
    var s, s' := n.session, n'.session;
    forall i | 0 <= i < |s'.tasks| && s'.tasks[i].SendingFin? && i in n'.enqueued
      ensures FinSent(n'.writer.dataSent, s'.tasks[i].id)
    {
      assert (i < |s.tasks| && s'.tasks[i] == s.tasks[i] && !(e.RunTask? && e.i == i)) || NewTask(s, e, s', i);
    }
    if s'.slot.Some? && s'.slot.value.localFin && !s'.Ended() {
      RaisedBefore(s, e, s');
      var id := s.slot.value.id;
      if s.slot.value.localFin && !FinSent(n.writer.dataSent, id) {
        var j :| 0 <= j < |s.tasks| && s.tasks[j].SendingFin? && s.tasks[j].id == id;
        if e.RunTask? && e.i == j {
          FinTaskLeaves(n, j, e.choice);
        } else {
          StaysThere(s, e, s', j);
        }
      }
    }
  }

  /** A task that does not run stays where it is. */
  lemma StaysThere(s: S.Session, e: S.Event, s': S.Session, j: nat)
    requires TasksFrom(s, e, s') && j < |s.tasks| && s.tasks[j].SendingFin? && !(e.RunTask? && e.i == j)
    requires S.Enabled(s, e) && S.NextBy(s, e, s')
    ensures SomeSendsFin(s'.tasks, s.tasks[j].id)
  {
    hide S.StepOf, S.FrameStep, S.EffectOf, S.Act, S.CanRun, TasksFrom;
    assert s'.tasks[j] == s.tasks[j];
  }

  // ---- frames that the peer accepts ----

  ghost predicate ValidSent(n: Node) {
    && (forall k :: 0 <= k < |n.writer.controlSent| ==> S.ValidFrame(n.writer.controlSent[k].frame))
    && (forall k :: 0 <= k < |n.writer.dataSent| ==> S.ValidFrame(n.writer.dataSent[k].frame))
  }

  /** A SYN ends a client's buffering. */
  ghost predicate SynsEndBuffering(n: Node) {
    forall k :: 0 <= k < |n.writer.controlSent| && n.writer.controlSent[k].frame.command == Syn ==>
      n.writer.controlSent[k].disableBufferingAfter
  }

  /** The handlers' replies are what a step adds to the control queue. */
  lemma RepliesSent(n: Node, e: S.Event, n': Node)
    requires Moves(n, e, n')
    ensures n'.writer.dataSent == n.writer.dataSent && n.writer.controlSent <= n'.writer.controlSent
    ensures forall k :: |n.writer.controlSent| <= k < |n'.writer.controlSent| ==>
              n'.writer.controlSent[k].frame in n'.session.replies
  {
    hide S.NextBy, S.Enabled, MayMove;
    var replies := n'.session.replies[|n.session.replies|..];
    if replies != [] {
      SendGrows(n.writer, W.Control, W.Request(replies[0], false), n'.writer);
      assert replies[0] == n'.session.replies[|n.session.replies|];
    }
  }

  lemma MoveKeepsValid(n: Node, e: S.Event, n': Node)
    requires ValidSent(n) && SynsEndBuffering(n) && Moves(n, e, n') && Replies.AllNamed(n'.session)
    requires NoNewSyn(n.writer.controlSent, n'.writer.controlSent)
    ensures ValidSent(n') && SynsEndBuffering(n')
  {
    hide S.ValidFrame, Moves;
    RepliesSent(n, e, n');
    forall k | 0 <= k < |n'.writer.controlSent|
      ensures S.ValidFrame(n'.writer.controlSent[k].frame)
    {
      if k < |n.writer.controlSent| {
        assert n'.writer.controlSent[k] == n.writer.controlSent[k];
      } else {
        var f := n'.writer.controlSent[k].frame;
        var j :| 0 <= j < |n'.session.replies| && n'.session.replies[j] == f;
      }
    }
  }

  /** The request a task waits for is one the peer accepts. */
  lemma TaskRequestValid(s: S.Session, i: nat)
    requires Replies.AllNamed(s) && i < |s.tasks| && RequestOf(s.tasks[i]).Some?
    ensures var (queue, r) := RequestOf(s.tasks[i]).value;
            && S.ValidFrame(r.frame)
            && (r.frame.command == Syn ==> r.disableBufferingAfter)
            && (s.tasks[i].SendingFin? ==> queue == W.Data && r.frame == Frame(Fin, s.tasks[i].id, []))
  {
    assert Replies.Named(s.tasks[i]);
  }

  // ---- what the application wrote ----

  /** The bytes of the queued writes to streams with this id, in the order the application made them. */
  function Wrote(writes: seq<Write>, streams: seq<Stream>, id: u32): seq<byte> {
    if writes == [] then []
    else
      var last := writes[|writes| - 1];
      Wrote(writes[..|writes| - 1], streams, id)
      + if last.queued && last.key < |streams| && streams[last.key].id == id then last.data else []
  }

  ghost predicate WrittenSent(n: Node) {
    n.session.distinct ==> forall id :: Sent(n.writer, id) == Wrote(n.writes, n.session.streams, id)
  }

  /** A stream has one open write at a time, and what was queued is settled. */
  ghost predicate OneAtATime(writes: seq<Write>) {
    && (forall i, j :: 0 <= i < j < |writes| && writes[i].key == writes[j].key ==> writes[i].settled)
    && (forall i :: 0 <= i < |writes| && writes[i].queued ==> writes[i].settled)
  }

  lemma {:induction false} WroteGrows(writes: seq<Write>, streams: seq<Stream>, streams': seq<Stream>, id: u32)
    requires Grows(streams, streams') && forall j :: 0 <= j < |writes| ==> writes[j].key < |streams|
    ensures Wrote(writes, streams', id) == Wrote(writes, streams, id)
    decreases |writes|
  {
    if writes != [] {
      WroteGrows(writes[..|writes| - 1], streams, streams', id);
    }
  }

  lemma WroteSnoc(writes: seq<Write>, w: Write, streams: seq<Stream>, id: u32)
    requires !w.queued
    ensures Wrote(writes + [w], streams, id) == Wrote(writes, streams, id)
  {
    assert (writes + [w])[..|writes|] == writes;
  }

  /** Only the queued writes count, whatever else becomes of a write. */
  lemma {:induction false} WroteSettles(writes: seq<Write>, j: nat, w: Write, streams: seq<Stream>, id: u32)
    requires j < |writes| && w == writes[j].(settled := w.settled)
    ensures Wrote(writes[j := w], streams, id) == Wrote(writes, streams, id)
    decreases |writes|
  {
    var n := |writes| - 1;
    if j < n {
      assert writes[j := w][..n] == writes[..n][j := w];
      WroteSettles(writes[..n], j, w, streams, id);
    } else {
      assert writes[j := w][..n] == writes[..n];
    }
  }

  /** Queueing a write appends its bytes if no later write to the id is queued. */
  lemma {:induction false} WroteQueues(writes: seq<Write>, j: nat, streams: seq<Stream>, id: u32)
    requires j < |writes| && !writes[j].queued && writes[j].key < |streams|
    requires streams[writes[j].key].id == id ==>
               forall k :: j < k < |writes| && writes[k].key < |streams| ==> streams[writes[k].key].id != id
    ensures Wrote(writes[j := writes[j].(settled := true, queued := true)], streams, id)
         == Wrote(writes, streams, id) + if streams[writes[j].key].id == id then writes[j].data else []
    decreases |writes|
  {
    var n := |writes| - 1;
    var w := writes[j].(settled := true, queued := true);
    if j < n {
      assert writes[j := w][..n] == writes[..n][j := w];
      WroteQueues(writes[..n], j, streams, id);
    } else {
      assert writes[j := w][..n] == writes[..n];
    }
  }

  /** With distinct ids an open write is the last one to its id. */
  lemma OpenIsLast(n: Node, j: nat)
    requires OneAtATime(n.writes) && j < |n.writes| && !n.writes[j].settled && n.writes[j].key < |n.session.streams|
    requires IdsShape(n.session.streams, n.session.used, n.session.distinct) && n.session.distinct
    ensures forall k :: j < k < |n.writes| && n.writes[k].key < |n.session.streams| ==>
              n.session.streams[n.writes[k].key].id != n.session.streams[n.writes[j].key].id
  {
  }

  lemma SentSnoc(sent: seq<W.Request>, r: W.Request, id: u32)
    ensures PushPayload(RequestFrames(sent + [r]), id)
         == PushPayload(RequestFrames(sent), id)
            + if r.frame.command == Push && r.frame.streamId == id then r.frame.data else []
  {
    assert RequestFrames(sent + [r]) == RequestFrames(sent) + [r.frame];
    PushPayloadSnoc(RequestFrames(sent), r.frame, id);
  }

  lemma QueueKeepsWritten(n: Node, j: nat, n': Node)
    requires WrittenSent(n) && OneAtATime(n.writes) && Next(n, QueueWrite(j), n')
    requires IdsShape(n.session.streams, n.session.used, n.session.distinct)
    ensures WrittenSent(n') && OneAtATime(n'.writes)
  {
    hide Sends, IdsShape, PushPayload, Wrote;
    SendGrows(n.writer, W.Data, PushOf(n, j), n'.writer);
    if n.session.distinct {
      OpenIsLast(n, j);
      forall id
        ensures Sent(n'.writer, id) == Wrote(n'.writes, n'.session.streams, id)
      {
        assert Sent(n.writer, id) == Wrote(n.writes, n.session.streams, id);
        SentSnoc(n.writer.dataSent, PushOf(n, j), id);
        WroteQueues(n.writes, j, n.session.streams, id);
      }
    }
  }

  lemma StartKeepsWritten(n: Node, key: nat, data: seq<byte>, n': Node)
    requires WrittenSent(n) && OneAtATime(n.writes) && Next(n, StartWrite(key, data), n')
    ensures WrittenSent(n') && OneAtATime(n'.writes)
  {
    hide PushPayload, Wrote, Sent;
    forall id
      ensures Wrote(n'.writes, n'.session.streams, id) == Wrote(n.writes, n.session.streams, id)
    {
      WroteSnoc(n.writes, Write(key, data, false, false), n.session.streams, id);
    }
  }

  lemma GiveUpKeepsWritten(n: Node, j: nat, n': Node)
    requires WrittenSent(n) && OneAtATime(n.writes) && Next(n, GiveUpWrite(j), n')
    ensures WrittenSent(n') && OneAtATime(n'.writes)
  {
    hide PushPayload, Wrote, Sent;
    forall id
      ensures Wrote(n'.writes, n'.session.streams, id) == Wrote(n.writes, n.session.streams, id)
    {
      WroteSettles(n.writes, j, n.writes[j].(settled := true), n.session.streams, id);
    }
  }

  lemma MoveKeepsWritten(n: Node, n': Node)
    requires WrittenSent(n) && PushOk(n) && n'.writes == n.writes && n'.writer.dataSent == n.writer.dataSent
    requires Grows(n.session.streams, n'.session.streams) && (n'.session.distinct ==> n.session.distinct)
    ensures WrittenSent(n')
  {
    hide PushPayload, Wrote, Grows;
    forall id
      ensures Wrote(n'.writes, n'.session.streams, id) == Wrote(n.writes, n.session.streams, id)
    {
      WroteGrows(n.writes, n.session.streams, n'.session.streams, id);
    }
  }

  // ---- streams are handed over or undone ----

  /** The task is placing the stream, taking it back, or emptying the slot. */
  predicate Placing(t: S.Task, id: u32) {
    || t == S.Opening(id) || t == S.Offering(id) || t == S.OfferFull(id) || (t.Remove? && t.id == id)
    || t == S.BeginShutdown(S.ThenEnd) || t == S.TakeSlot(S.ThenEnd)
  }

  ghost predicate SomePlacing(tasks: seq<S.Task>, id: u32) {
    exists i :: 0 <= i < |tasks| && Placing(tasks[i], id)
  }

  ghost predicate HandedOrPlacing(n: Node) {
    n.session.slot.Some? ==> n.session.slot.value.id in n.ready || SomePlacing(n.session.tasks, n.session.slot.value.id)
  }

  lemma PlacingAt(tasks: seq<S.Task>, i: nat, id: u32)
    requires i < |tasks| && Placing(tasks[i], id)
    ensures SomePlacing(tasks, id)
  {
  }

  /** A step of a placing task: the stream is handed over or gone, or the task is placing it still. */
  lemma PlacingStep(s: S.Session, i: nat, c: S.Choice)
    requires i < |s.tasks| && S.CanRun(s, s.tasks[i], c) && S.SlotValid(s)
    requires S.Allows(s, S.StepOf(s, s.tasks[i], c).action)
    ensures var step := S.StepOf(s, s.tasks[i], c);
            && (step.action.Open? ==> Placing(step.next, step.action.id))
            && (s.slot.Some? && Placing(s.tasks[i], s.slot.value.id) ==>
                  || S.Act(s, step.action).slot.None? || Placing(step.next, s.slot.value.id)
                  || s.slot.value.id in HandedOver(s, S.RunTask(i, c)))
  {
  }

  lemma SlotId(s: S.Session, a: S.Action)
    requires S.Allows(s, a) && S.Act(s, a).slot.Some?
    ensures if a.Open? then S.Act(s, a).slot.value.id == a.id
            else s.slot.Some? && S.Act(s, a).slot.value.id == s.slot.value.id
  {
  }

  lemma RunKeepsHanded(n: Node, i: nat, c: S.Choice, n': Node)
    requires Shape(n.session) && HandedOrPlacing(n) && Moves(n, S.RunTask(i, c), n')
    ensures HandedOrPlacing(n')
  {
    hide S.StepOf, S.Act, S.CanRun, HandedOver, Placing, SlotShape, IdsShape, TasksShape, MayMove, Replied;
    var s, s' := n.session, n'.session;
    HalfCloses.ShapeValid(s);
    var step := S.StepOf(s, s.tasks[i], c);
    PlacingStep(s, i, c);
    if s'.slot.Some? {
      SlotId(s, step.action);
      var id := s'.slot.value.id;
      assert s'.tasks[i] == step.next;
      if Placing(step.next, id) {
        PlacingAt(s'.tasks, i, id);
      } else if id !in n'.ready {
        var j :| 0 <= j < |s.tasks| && Placing(s.tasks[j], id);
        assert j != i;
        assert s'.tasks[j] == s.tasks[j];
        PlacingAt(s'.tasks, j, id);
      }
    }
  }

  lemma OthersOpenNone(s: S.Session, e: S.Event)
    requires S.Enabled(s, e) && S.SlotValid(s)
    ensures e.ReceiveFrame? ==>
              !S.FrameStep(s, e.frame, e.ok).action.Open? && S.FrameStep(s, e.frame, e.ok).spawned == []
    ensures S.OtherEvent(e) ==> !S.EffectOf(s, e).action.Open?
  {
  }

  /** Other steps leave the placing tasks, none of which is the loop between two frames, where they are. */
  lemma OtherKeepsHanded(n: Node, e: S.Event, n': Node)
    requires Shape(n.session) && HandedOrPlacing(n) && Moves(n, e, n') && !e.RunTask?
    ensures HandedOrPlacing(n')
  {
    hide S.FrameStep, S.EffectOf, S.Act, SlotShape, IdsShape, TasksShape, MayMove, Replied;
    var s, s' := n.session, n'.session;
    HalfCloses.ShapeValid(s);
    OthersOpenNone(s, e);
    if s'.slot.Some? {
      SlotId(s, if e.ReceiveFrame? then S.FrameStep(s, e.frame, e.ok).action
                else if e.ReceiveEnds? then S.Stay else S.EffectOf(s, e).action);
      var id := s.slot.value.id;
      if id !in n.ready {
        var j :| 0 <= j < |s.tasks| && Placing(s.tasks[j], id);
        assert s'.tasks[j] == s.tasks[j];
        PlacingAt(s'.tasks, j, id);
      }
    }
  }

  // ---- the invariant ----

  ghost predicate OutInv(n: Node) {
    && FinsEnqueued(n) && LocalFinSent(n) && ValidSent(n) && SynsEndBuffering(n)
    && WrittenSent(n) && OneAtATime(n.writes) && HandedOrPlacing(n) && Replies.AllNamed(n.session)
  }

  lemma InitialOutInv(isClient: bool)
    ensures OutInv(InitialNode(isClient))
  {
    assert RequestFrames([]) == [];
  }

  lemma MoveKeepsOut(n: Node, e: S.Event, n': Node)
    requires NodeInv(n) && OutInv(n) && Moves(n, e, n')
    ensures OutInv(n')
  {
    hide Parts, StartOk, PushOk, ReadyOk, SynOk, FinOk, FinsEnqueued, LocalFinSent, ValidSent, SynsEndBuffering,
      WrittenSent, OneAtATime, HandedOrPlacing, Replies.AllNamed, Shape, FullInv, S.NextBy, S.Enabled, MayMove, Replied,
      NoNewSyn, Grows, TasksFrom, SlotFrom, AdmissionOk, IdsShape;
    ShapeOfParts(n);
    FullOfParts(n);
    MoveSends(n, e, n');
    StepIsNext(n.session, e, n'.session);
    Replies.NextKeepsNamed(n.session, n'.session);
    MoveKeepsFins(n, e, n');
    MoveKeepsValid(n, e, n');
    MoveKeepsWritten(n, n');
    if e.RunTask? {
      RunKeepsHanded(n, e.i, e.choice, n');
    } else {
      OtherKeepsHanded(n, e, n');
    }
  }

  lemma FullOfParts(n: Node)
    requires Parts(n)
    ensures FullInv(n.session)
  {
    hide FullInv;
  }

  /** A step that leaves the session and the writes alone and sends at most one request. */
  lemma SendKeepsOut(n: Node, queue: W.Queue, r: W.Request, n': Node)
    requires OutInv(n) && Sends(n.writer, queue, r, n'.writer) && S.ValidFrame(r.frame)
    requires (r.frame.command == Syn ==> r.disableBufferingAfter) && r.frame.command != Push
    requires n'.session == n.session && n'.writes == n.writes && n'.ready == n.ready
    requires forall i ::
               i in n'.enqueued && i !in n.enqueued && i < |n.session.tasks| && n.session.tasks[i].SendingFin? ==>
                 queue == W.Data && r.frame == Frame(Fin, n.session.tasks[i].id, [])
    ensures OutInv(n')
  {
    hide Sends, S.ValidFrame, Wrote, OneAtATime, HandedOrPlacing, Replies.AllNamed, PushPayload;
    SendGrows(n.writer, queue, r, n'.writer);
    FinSentGrows(n.writer.dataSent, n'.writer.dataSent);
    assert queue == W.Data ==> n'.writer.dataSent[|n.writer.dataSent|] == r;
    assert FinsEnqueued(n') && LocalFinSent(n');
    forall id
      ensures Sent(n'.writer, id) == Sent(n.writer, id)
    {
      if queue == W.Data {
        SentSnoc(n.writer.dataSent, r, id);
      }
    }
    assert WrittenSent(n');
    SameHanded(n, n');
  }

  lemma SameHanded(n: Node, n': Node)
    requires HandedOrPlacing(n) && n'.session == n.session && n'.ready == n.ready
    ensures HandedOrPlacing(n')
  {
  }

  lemma EnqueueKeepsOut(n: Node, i: nat, n': Node)
    requires OutInv(n) && Next(n, Enqueue(i), n')
    ensures OutInv(n')
  {
    hide FinsEnqueued, LocalFinSent, ValidSent, SynsEndBuffering, WrittenSent, OneAtATime, HandedOrPlacing, Sends,
      S.ValidFrame, Replies.AllNamed;
    var (queue, r) := RequestOf(n.session.tasks[i]).value;
    TaskRequestValid(n.session, i);
    SendKeepsOut(n, queue, r, n');
  }

  lemma QueueKeepsOut(n: Node, j: nat, n': Node)
    requires OutInv(n) && Next(n, QueueWrite(j), n')
    requires IdsShape(n.session.streams, n.session.used, n.session.distinct)
    ensures OutInv(n')
  {
    hide Sends, WrittenSent, OneAtATime, IdsShape, HandedOrPlacing, FinSent;
    QueueKeepsWritten(n, j, n');
    SendGrows(n.writer, W.Data, PushOf(n, j), n'.writer);
    FinSentGrows(n.writer.dataSent, n'.writer.dataSent);
    SameHanded(n, n');
    assert n.session.streams[n.writes[j].key].id > 0;
  }

  /** A control frame of the list is one the peer accepts. */
  lemma ControlFrameValid(n: Node, f: Frame)
    requires Replies.AllNamed(n.session) && ControlFrame(n, f)
    ensures S.ValidFrame(f) && f.command != Syn && f.command != Push
  {
  }

  /** Steps that send nothing, or only bytes to the transport. */
  lemma QuietKeepsOut(n: Node, n': Node)
    requires OutInv(n) && n'.session == n.session && n'.enqueued == n.enqueued && n'.ready == n.ready
    requires n'.writer.controlSent == n.writer.controlSent && n'.writer.dataSent == n.writer.dataSent
    requires WrittenSent(n') && OneAtATime(n'.writes)
    ensures OutInv(n')
  {
    hide WrittenSent, OneAtATime, FinSent, S.ValidFrame, Replies.AllNamed;
    SameHanded(n, n');
  }

  lemma NextKeepsOut(n: Node, e: Event, n': Node)
    requires NodeInv(n) && OutInv(n) && Next(n, e, n')
    ensures OutInv(n')
  {
    hide NodeInv, OutInv, Moves, Sends, MayWrite, W.Enabled, W.Apply, ControlFrame, S.ValidFrame, Wrote, OneAtATime,
      IdsShape, Shape, AdmissionOk;
    match e
    case Move(e) => MoveKeepsOut(n, e, n');
    case Transport(t) =>
      TransportKeeps(n.writer, t);
      PartsOf(n);
      QuietKeepsOut(n, n');
    case Enqueue(i) => EnqueueKeepsOut(n, i, n');
    case StartWrite(key, data) =>
      PartsOf(n);
      StartKeepsWritten(n, key, data, n');
      QuietKeepsOut(n, n');
    case QueueWrite(j) =>
      PartsOf(n);
      QueueKeepsOut(n, j, n');
    case GiveUpWrite(j) =>
      PartsOf(n);
      GiveUpKeepsWritten(n, j, n');
      QuietKeepsOut(n, n');
    case Start(r) =>
      SettingsValid(r.frame);
      SendKeepsOut(n, W.Control, r, n');
    case SendControl(r) =>
      PartsOf(n);
      ControlFrameValid(n, r.frame);
      SendKeepsOut(n, W.Control, r, n');
  }

  lemma PartsOf(n: Node)
    requires NodeInv(n) && OutInv(n)
    ensures IdsShape(n.session.streams, n.session.used, n.session.distinct) && Replies.AllNamed(n.session)
    ensures WrittenSent(n) && OneAtATime(n.writes)
  {
    hide Parts, StartOk, PushOk, ReadyOk, SynOk, FinOk, WrittenSent, OneAtATime, IdsShape, Shape, AdmissionOk,
      Replies.AllNamed, FinsEnqueued, LocalFinSent, ValidSent, SynsEndBuffering, HandedOrPlacing;
    ShapeOfParts(n);
  }

  lemma SettingsValid(f: Frame)
    requires f.command == Settings && f.streamId == 0
    ensures S.ValidFrame(f)
  {
  }
}
