/**
 * What every step of a node keeps: each stream's SYN is sent once, payload is sent only for streams
 * that exist, and nothing is sent on a stream after the application's FIN.
 */
module NodeInvariants {
  import opened Wrappers
  import opened Bytes
  import opened Frames
  import opened Nodes
  import opened SessionInvariants
  import opened Releases
  import opened StreamOrigins
  import opened SessionTheorems
  import opened SynOrder
  import WireOrder
  import S = Sessions
  import W = WriterTasks

  // ---- what a step of the session means for what is sent ----

  /** Where a task that sends, or is about to end a stream, comes from. */
  ghost predicate NewTask(s: S.Session, e: S.Event, s': S.Session, i: nat)
    requires i < |s'.tasks|
  {
    match s'.tasks[i]
    case Opening(id) =>
      && e.RunTask? && e.i == i && i < |s.tasks| && s.tasks[i] == S.Reserving(id)
      && s'.used == s.used + {id} && (s'.distinct ==> id !in s.used)
    case SendingFin(id, _, _) =>
      && e.RunTask? && e.i == i && i < |s.tasks| && s.tasks[i].StartFin? && s.tasks[i].id == id
      && id in s.used && s'.Holds(id) && s'.slot.value.localFin
    case StartFin(id, _) =>
      (e.AppHalfClose? || e.AppClose? || e.AppDrop?) && e.key < |s.streams| && s.streams[e.key].id == id
    case _ => true
  }

  ghost predicate TasksFrom(s: S.Session, e: S.Event, s': S.Session) {
    && |s.tasks| <= |s'.tasks|
    && forall i :: 0 <= i < |s'.tasks| ==>
         (i < |s.tasks| && s'.tasks[i] == s.tasks[i] && !(e.RunTask? && e.i == i)) || NewTask(s, e, s', i)
  }

  /** A stream that can be written to could be written to before, or was opened just now. */
  ghost predicate SlotFrom(s: S.Session, s': S.Session) {
    s'.slot.Some? && !s'.slot.value.localFin ==>
      || s.slot == s'.slot
      || (s.slot.Some? && s.slot.value.id == s'.slot.value.id && !s.slot.value.localFin)
      || (s'.distinct ==> s'.slot.value.id !in s.used)
  }

  ghost predicate Monotone(s: S.Session, s': S.Session) {
    && s'.isClient == s.isClient && s.used <= s'.used && (s'.distinct ==> s.distinct)
    && Grows(s.streams, s'.streams) && s.replies <= s'.replies
  }

  /** Replies are neither SYNs nor payload. */
  ghost predicate PlainReplies(s: S.Session, s': S.Session) {
    forall k :: |s.replies| <= k < |s'.replies| ==> s'.replies[k].command != Syn && s'.replies[k].command != Push
  }

  ghost predicate SessionStep(s: S.Session, e: S.Event, s': S.Session) {
    TasksFrom(s, e, s') && SlotFrom(s, s') && Monotone(s, s') && PlainReplies(s, s')
  }

  lemma ActMonotone(s: S.Session, a: S.Action)
    requires S.Allows(s, a) && KeepsNames(s, a)
    ensures var s' := S.Act(s, a);
            && s'.isClient == s.isClient && s.used <= s'.used && (s'.distinct ==> s.distinct)
            && Grows(s.streams, s'.streams) && s'.replies == s.replies
            && (a.Open? ==> s'.used == s.used + {a.id} && (s'.distinct ==> a.id !in s.used))
  {
    ActGrows(s, a);
  }

  lemma ActSlot(s: S.Session, a: S.Action)
    requires S.Allows(s, a)
    ensures SlotFrom(s, S.Act(s, a))
    ensures a.RaiseLocalFin? ==> S.Act(s, a).slot == Some(s.slot.value.(localFin := true))
  {
  }

  predicate PlainReply(replies: seq<Frame>) {
    replies == [] || (|replies| == 1 && replies[0].command != Syn && replies[0].command != Push)
  }

  /** What a step of a task may start or send. */
  predicate SendsOk(s: S.Session, t: S.Task, step: S.Step) {
    && (step.next.Opening? ==> t == S.Reserving(step.next.id) && step.action == S.Open(step.next.id))
    && (step.next.SendingFin? ==>
          t.StartFin? && t.id == step.next.id && step.action.RaiseLocalFin? && s.Holds(t.id))
    && !step.next.StartFin?
    && (step.spawned == [] || (|step.spawned| == 1 && step.spawned[0].FinWaiter?))
    && PlainReply(step.replies)
  }

  lemma InboundSends(s: S.Session, t: S.Task, c: S.Choice)
    requires S.InboundTask(t) && S.CanRun(s, t, c)
    ensures SendsOk(s, t, S.InboundStep(s, t, c))
  {
  }

  lemma AdmissionSends(s: S.Session, t: S.Task, c: S.Choice)
    requires S.AdmissionTask(t) && S.CanRun(s, t, c)
    ensures SendsOk(s, t, S.AdmissionStep(s, t, c))
  {
  }

  lemma ReleaseSends(s: S.Session, t: S.Task)
    requires S.ReleaseTask(t)
    ensures SendsOk(s, t, S.ReleaseStep(s, t))
  {
  }

  lemma ClosingSends(s: S.Session, t: S.Task, c: S.Choice)
    requires S.ClosingTask(t) && S.CanRun(s, t, c)
    ensures SendsOk(s, t, S.ClosingStep(s, t, c))
  {
  }

  lemma StepSends(s: S.Session, t: S.Task, c: S.Choice)
    requires S.CanRun(s, t, c)
    ensures SendsOk(s, t, S.StepOf(s, t, c))
  {
    hide S.InboundStep, S.AdmissionStep, S.ReleaseStep, S.ClosingStep, SendsOk;
    if S.InboundTask(t) {
      InboundSends(s, t, c);
    } else if S.AdmissionTask(t) {
      AdmissionSends(s, t, c);
    } else if S.ReleaseTask(t) {
      ReleaseSends(s, t);
    } else {
      ClosingSends(s, t, c);
    }
  }

  lemma HeldIsUsed(s: S.Session)
    requires DataShape(s) && s.slot.Some?
    ensures s.slot.value.id in s.used
  {
    SlotIdUsed(s);
  }

  lemma RunSessionStep(s: S.Session, i: nat, c: S.Choice, s': S.Session)
    requires Shape(s) && S.Enabled(s, S.RunTask(i, c)) && S.NextBy(s, S.RunTask(i, c), s')
    ensures SessionStep(s, S.RunTask(i, c), s')
  {
    hide S.StepOf, S.CanRun, S.Act, SlotShape, IdsShape, TasksShape, Grows;
    var step := S.StepOf(s, s.tasks[i], c);
    StepAllowed(s, s.tasks[i], c);
    StepSends(s, s.tasks[i], c);
    ActMonotone(s, step.action);
    ActSlot(s, step.action);
    if s.slot.Some? {
      HeldIsUsed(s);
    }
    assert SlotFrom(s, s');
    forall j | 0 <= j < |s'.tasks|
      ensures (j < |s.tasks| && s'.tasks[j] == s.tasks[j] && j != i) || NewTask(s, S.RunTask(i, c), s', j)
    {
    }
  }

  lemma FrameSends(s: S.Session, f: Frame, ok: bool)
    requires S.SlotValid(s)
    ensures var step := S.FrameStep(s, f, ok);
            && !step.next.Opening? && !step.next.SendingFin? && !step.next.StartFin? && step.spawned == []
            && PlainReply(step.replies)
  {
  }

  lemma FrameSessionStep(s: S.Session, f: Frame, ok: bool, s': S.Session)
    requires Shape(s) && S.Enabled(s, S.ReceiveFrame(f, ok)) && S.NextBy(s, S.ReceiveFrame(f, ok), s')
    ensures SessionStep(s, S.ReceiveFrame(f, ok), s')
  {
    hide S.FrameStep, S.Act, SlotShape, IdsShape, TasksShape, Grows;
    FrameAllowed(s, f, ok);
    FrameSends(s, f, ok);
    ActMonotone(s, S.FrameStep(s, f, ok).action);
    ActSlot(s, S.FrameStep(s, f, ok).action);
    assert SlotFrom(s, s');
  }

  lemma EffectSends(s: S.Session, e: S.Event)
    requires S.OtherEvent(e) && S.Enabled(s, e)
    ensures var spawned := S.EffectOf(s, e).spawned;
            spawned == []
            || (&& |spawned| == 1 && !spawned[0].Opening? && !spawned[0].SendingFin?
                && (spawned[0].StartFin? ==>
                      (e.AppHalfClose? || e.AppClose? || e.AppDrop?) && s.streams[e.key].id == spawned[0].id))
  {
  }

  lemma EffectSessionStep(s: S.Session, e: S.Event, s': S.Session)
    requires Shape(s) && S.OtherEvent(e) && S.Enabled(s, e) && S.NextBy(s, e, s')
    ensures SessionStep(s, e, s')
  {
    hide S.EffectOf, S.Act, SlotShape, IdsShape, TasksShape, Grows;
    EffectAllowed(s, e);
    EffectSends(s, e);
    ActMonotone(s, S.EffectOf(s, e).action);
    ActSlot(s, S.EffectOf(s, e).action);
    assert SlotFrom(s, s');
  }

  lemma EndSessionStep(s: S.Session, s': S.Session)
    requires S.Enabled(s, S.ReceiveEnds) && S.NextBy(s, S.ReceiveEnds, s')
    ensures SessionStep(s, S.ReceiveEnds, s')
  {
  }

  lemma AnySessionStep(s: S.Session, e: S.Event, s': S.Session)
    requires Shape(s) && S.Enabled(s, e) && S.NextBy(s, e, s')
    ensures SessionStep(s, e, s')
  {
    hide SessionStep, S.NextBy, S.Enabled, Shape;
    match e
    case RunTask(i, c) => RunSessionStep(s, i, c, s');
    case ReceiveFrame(f, ok) => FrameSessionStep(s, f, ok, s');
    case ReceiveEnds => EndSessionStep(s, s');
    case _ => EffectSessionStep(s, e, s');
  }

  // ---- the invariant ----

  /** Each SYN belongs to a stream that was opened, and no two to one id. */
  ghost predicate SynOk(n: Node) {
    && (forall i :: 0 <= i < |n.session.tasks| && n.session.tasks[i].Opening? ==>
          n.session.tasks[i].id in n.session.used)
    && (forall i, j :: 0 <= i < j < |n.session.tasks| && n.session.tasks[i].Opening? && n.session.tasks[j].Opening? ==>
          n.session.tasks[i].id != n.session.tasks[j].id)
    && SynsOnce(n.writer.controlSent)
    && (forall k :: 0 <= k < |n.writer.controlSent| && n.writer.controlSent[k].frame.command == Syn ==>
          n.writer.controlSent[k].frame.streamId in n.session.used)
    && (forall i :: 0 <= i < |n.session.tasks| && n.session.tasks[i].Opening? && i !in n.enqueued ==>
          !W.Opens(n.writer.controlSent, n.session.tasks[i].id))
  }

  ghost predicate SynsOnce(sent: seq<W.Request>) {
    forall j, k :: 0 <= j < k < |sent| && sent[j].frame.command == Syn && sent[k].frame.command == Syn ==>
      sent[j].frame.streamId != sent[k].frame.streamId
  }

  /** A client's stream is handed over, and its SYN counted as sent, only once the SYN is sent. */
  ghost predicate ReadyOk(n: Node) {
    n.session.isClient ==>
      && (forall id :: id in n.ready ==> W.Opens(n.writer.controlSent, id))
      && (forall i :: 0 <= i < |n.session.tasks| && n.session.tasks[i].Opening? && i in n.enqueued ==>
            W.Opens(n.writer.controlSent, n.session.tasks[i].id))
  }

  ghost predicate HasStream(s: S.Session, id: u32) {
    exists key :: 0 <= key < |s.streams| && s.streams[key].id == id
  }

  /** Payload is sent only for streams that exist. */
  ghost predicate PushOk(n: Node) {
    && (forall j :: 0 <= j < |n.writes| ==>
          n.writes[j].key < |n.session.streams| && n.session.streams[n.writes[j].key].id in n.ready)
    && (forall k :: 0 <= k < |n.writer.dataSent| && n.writer.dataSent[k].frame.command == Push ==>
          HasStream(n.session, n.writer.dataSent[k].frame.streamId))
  }

  /** No write to a stream with this id is still to be queued. */
  ghost predicate NoOpenWrite(n: Node, id: u32) {
    forall j :: 0 <= j < |n.writes| && !n.writes[j].settled && n.writes[j].key < |n.session.streams| ==>
      n.session.streams[n.writes[j].key].id != id
  }

  /** The application's side of the stream has ended. */
  ghost predicate Ended(n: Node, id: u32) {
    && id in n.session.used
    && (n.session.Holds(id) ==> n.session.slot.value.localFin)
    && NoOpenWrite(n, id)
  }

  ghost predicate AllFinsLast(sent: seq<W.Request>) {
    forall j, k :: 0 <= j < k < |sent| && sent[j].frame.command == Fin && sent[k].frame.command == Push ==>
      sent[j].frame.streamId != sent[k].frame.streamId
  }

  ghost predicate FinOk(n: Node) {
    && (forall i :: 0 <= i < |n.session.tasks| && n.session.tasks[i].SendingFin? ==> Ended(n, n.session.tasks[i].id))
    && (forall i :: 0 <= i < |n.session.tasks| && n.session.tasks[i].StartFin? ==>
          NoOpenWrite(n, n.session.tasks[i].id))
    && (forall k :: 0 <= k < |n.writer.dataSent| && n.writer.dataSent[k].frame.command == Fin ==>
          Ended(n, n.writer.dataSent[k].frame.streamId))
    && AllFinsLast(n.writer.dataSent)
  }

  /** The invariants of the two parts. */
  ghost predicate Parts(n: Node) {
    && FullInv(n.session) && Origins(n.session) && WireOrder.Inv(n.writer)
    && n.writer.isClient == n.session.isClient && (n.session.isClient ==> Orderly(n.writer))
  }

  /** Tasks of a session that only shuts itself down. */
  predicate Idle(t: S.Task) {
    t == S.Receiving || t == S.Done || t == S.BeginShutdown(S.Nothing) || t == S.TakeSlot(S.Nothing)
  }

  ghost predicate AllIdle(s: S.Session) {
    s.streams == [] && forall i :: 0 <= i < |s.tasks| ==> Idle(s.tasks[i])
  }

  /** Until a client has sent its Settings it has sent nothing, and has nothing to send. */
  ghost predicate StartOk(n: Node) {
    && (!n.started ==> n.writer.controlSent == [] && n.writer.dataSent == [] && n.writes == [] && AllIdle(n.session))
    && (n.started && n.session.isClient ==> n.writer.controlSent != [])
  }

  ghost predicate NodeInv(n: Node) {
    Parts(n) && StartOk(n) && PushOk(n) && ReadyOk(n) && (n.session.distinct ==> SynOk(n) && FinOk(n))
  }

  // ---- sending ----

  lemma SendGrows(w: W.TaskState, queue: W.Queue, r: W.Request, w': W.TaskState)
    requires Sends(w, queue, r, w')
    ensures w'.controlSent == w.controlSent + (if queue == W.Control then [r] else [])
    ensures w'.dataSent == w.dataSent + (if queue == W.Data then [r] else [])
    ensures w'.writer == w.writer && w'.isClient == w.isClient && w'.aligned == w.aligned && w'.taken == w.taken
    ensures W.Next(w, w') && W.Sendable(queue, r)
    ensures InOrder(w, queue, r) ==> OrderlyNext(w, w')
  {
    hide InOrder;
  }

  lemma TransportKeeps(w: W.TaskState, t: W.Event)
    requires !t.Send? && W.Enabled(w, t)
    ensures var w' := W.Apply(w, t);
            && w'.controlSent == w.controlSent && w'.dataSent == w.dataSent && w'.isClient == w.isClient
            && w.writer.wire <= w'.writer.wire && (w'.aligned ==> w.aligned) && W.Next(w, w') && OrderlyNext(w, w')
  {
    hide W.RequestAligned, W.RequestPanics;
  }

  /** Another control request that is no SYN changes nothing here. */
  lemma ControlKeeps(n: Node, n': Node, r: W.Request)
    requires PushOk(n) && ReadyOk(n) && (n.session.distinct ==> SynOk(n) && FinOk(n)) && r.frame.command != Syn
    requires n' == n.(writer := n'.writer, started := n'.started)
    requires n'.writer.controlSent == n.writer.controlSent + [r] && n'.writer.dataSent == n.writer.dataSent
    ensures PushOk(n') && ReadyOk(n') && (n'.session.distinct ==> SynOk(n') && FinOk(n'))
  {
    SameFinOk(n, n');
    OpensOf(n.writer.controlSent, r);
  }

  /** Which streams a longer list of requests opens. */
  lemma OpensOf(sent: seq<W.Request>, r: W.Request)
    ensures forall id :: W.Opens(sent + [r], id) <==>
              W.Opens(sent, id) || (r.frame.command == Syn && r.frame.streamId == id)
  {
    forall id
      ensures W.Opens(sent + [r], id) <==> W.Opens(sent, id) || (r.frame.command == Syn && r.frame.streamId == id)
    {
      if W.Opens(sent, id) {
        var i :| 0 <= i < |sent| && sent[i].frame.command == Syn && sent[i].frame.streamId == id;
        assert (sent + [r])[i] == sent[i];
      }
      if r.frame.command == Syn && r.frame.streamId == id {
        assert (sent + [r])[|sent|] == r;
      }
    }
  }

  lemma SameFinOk(n: Node, n': Node)
    requires n'.session == n.session && n'.writes == n.writes && n'.writer.dataSent == n.writer.dataSent
    requires n'.ready == n.ready
    ensures FinOk(n') <==> FinOk(n)
    ensures PushOk(n') <==> PushOk(n)
  {
    assert forall id :: Ended(n', id) <==> Ended(n, id);
    assert forall id :: NoOpenWrite(n', id) <==> NoOpenWrite(n, id);
  }

  lemma EnqueueKeeps(n: Node, i: nat, n': Node)
    requires PushOk(n) && ReadyOk(n) && (n.session.distinct ==> SynOk(n) && FinOk(n)) && Next(n, Enqueue(i), n')
    ensures PushOk(n') && ReadyOk(n') && (n'.session.distinct ==> SynOk(n') && FinOk(n'))
  {
    hide Sends, PushOk, ReadyOk, SynOk, FinOk;
    var (queue, r) := RequestOf(n.session.tasks[i]).value;
    SendGrows(n.writer, queue, r, n'.writer);
    if queue == W.Control {
      SameFinOk(n, n');
      EnqueueSyn(n, i, n', r);
    } else {
      if n.session.distinct {
        FinTaskIsEnded(n, i);
      }
      FinAppended(n, n', r);
      EnqueueOther(n, i, n');
    }
  }

  lemma FinTaskIsEnded(n: Node, i: nat)
    requires FinOk(n) && i < |n.session.tasks| && n.session.tasks[i].SendingFin?
    ensures Ended(n, n.session.tasks[i].id)
  {
    hide Ended, NoOpenWrite, AllFinsLast;
  }

  lemma EnqueueSyn(n: Node, i: nat, n': Node, r: W.Request)
    requires ReadyOk(n) && (n.session.distinct ==> SynOk(n))
    requires i < |n.session.tasks| && i !in n.enqueued && n.session.tasks[i].Opening?
    requires r.frame.command == Syn && r.frame.streamId == n.session.tasks[i].id
    requires n' == n.(writer := n'.writer, enqueued := n.enqueued + {i})
    requires n'.writer.controlSent == n.writer.controlSent + [r]
    ensures ReadyOk(n') && (n'.session.distinct ==> SynOk(n'))
  {
    hide W.Opens;
    OpensOf(n.writer.controlSent, r);
    if n.session.distinct {
      SynAppended(n.writer.controlSent, r);
    }
  }

  lemma EnqueueOther(n: Node, i: nat, n': Node)
    requires ReadyOk(n) && (n.session.distinct ==> SynOk(n)) && i < |n.session.tasks| && !n.session.tasks[i].Opening?
    requires n' == n.(writer := n'.writer, enqueued := n.enqueued + {i})
    requires n'.writer.controlSent == n.writer.controlSent
    ensures ReadyOk(n') && (n'.session.distinct ==> SynOk(n'))
  {
    hide W.Opens, SynsOnce;
  }

  lemma SynAppended(sent: seq<W.Request>, r: W.Request)
    requires SynsOnce(sent) && !W.Opens(sent, r.frame.streamId)
    ensures SynsOnce(sent + [r])
  {
  }

  lemma FinAppended(n: Node, n': Node, r: W.Request)
    requires PushOk(n) && n'.session == n.session && n'.writes == n.writes && n'.ready == n.ready
    requires n'.writer.dataSent == n.writer.dataSent + [r]
    requires r.frame.command == Fin && (n.session.distinct ==> FinOk(n) && Ended(n, r.frame.streamId))
    ensures PushOk(n') && (n'.session.distinct ==> FinOk(n'))
  {
    assert forall id :: Ended(n', id) <==> Ended(n, id);
    assert forall id :: NoOpenWrite(n', id) <==> NoOpenWrite(n, id);
  }

  // ---- the application's writes ----

  lemma StartWriteKeeps(n: Node, key: nat, data: seq<byte>, n': Node)
    requires PushOk(n) && StartOk(n) && (n.session.distinct ==> FinOk(n)) && Next(n, StartWrite(key, data), n')
    ensures PushOk(n') && StartOk(n') && (n'.session.distinct ==> FinOk(n'))
  {
    var id := n.session.streams[key].id;
    forall other | other != id
      ensures NoOpenWrite(n, other) ==> NoOpenWrite(n', other)
    {
    }
    if n.session.distinct {
      assert !Ended(n, id);
    }
  }

  lemma SettleKeeps(n: Node, j: nat, n': Node)
    requires PushOk(n) && (n.session.distinct ==> FinOk(n)) && j < |n.writes|
    requires n'.session == n.session && n'.writer.dataSent == n.writer.dataSent && n'.ready == n.ready
    requires |n'.writes| == |n.writes|
    requires n'.writes == n.writes[j := n.writes[j].(settled := true, queued := n'.writes[j].queued)]
    ensures PushOk(n') && (n'.session.distinct ==> FinOk(n'))
  {
    assert forall id :: NoOpenWrite(n, id) ==> NoOpenWrite(n', id);
  }

  lemma PushAppended(n: Node, j: nat, w: W.TaskState)
    requires PushOk(n) && (n.session.distinct ==> FinOk(n)) && j < |n.writes| && !n.writes[j].settled
    requires w.dataSent == n.writer.dataSent + [PushOf(n, j)]
    ensures PushOk(n.(writer := w)) && (n.session.distinct ==> FinOk(n.(writer := w)))
  {
    var n' := n.(writer := w);
    var id := n.session.streams[n.writes[j].key].id;
    assert !NoOpenWrite(n, id);
    assert forall other :: Ended(n', other) <==> Ended(n, other);
    assert forall other :: NoOpenWrite(n', other) <==> NoOpenWrite(n, other);
    assert HasStream(n.session, id);
  }

  lemma QueueWriteKeeps(n: Node, j: nat, n': Node)
    requires PushOk(n) && ReadyOk(n) && (n.session.distinct ==> SynOk(n) && FinOk(n)) && Next(n, QueueWrite(j), n')
    ensures PushOk(n') && ReadyOk(n') && (n'.session.distinct ==> SynOk(n') && FinOk(n'))
  {
    hide Sends, FinOk, PushOk, SynOk, ReadyOk;
    UseKey(n, j);
    SendGrows(n.writer, W.Data, PushOf(n, j), n'.writer);
    PushAppended(n, j, n'.writer);
    SettleKeeps(n.(writer := n'.writer), j, n');
    SameSynOk(n, n');
  }

  lemma UseKey(n: Node, j: nat)
    requires PushOk(n) && j < |n.writes|
    ensures n.writes[j].key < |n.session.streams|
  {
  }

  // ---- steps of the session ----

  /** A list of requests grew by none that opens a stream. */
  ghost predicate NoNewSyn(sent: seq<W.Request>, sent': seq<W.Request>) {
    sent <= sent' && forall k :: |sent| <= k < |sent'| ==> sent'[k].frame.command != Syn
  }

  lemma SameOpens(sent: seq<W.Request>, sent': seq<W.Request>)
    requires NoNewSyn(sent, sent')
    ensures forall id :: W.Opens(sent', id) <==> W.Opens(sent, id)
    ensures SynsOnce(sent) ==> SynsOnce(sent')
  {
    forall id
      ensures W.Opens(sent', id) <==> W.Opens(sent, id)
    {
      if W.Opens(sent, id) {
        var i :| 0 <= i < |sent| && sent[i].frame.command == Syn && sent[i].frame.streamId == id;
        assert sent'[i] == sent[i];
      }
    }
  }

  lemma MoveSends(n: Node, e: S.Event, n': Node)
    requires Shape(n.session) && Moves(n, e, n')
    ensures SessionStep(n.session, e, n'.session)
    ensures NoNewSyn(n.writer.controlSent, n'.writer.controlSent) && n'.writer.dataSent == n.writer.dataSent
    ensures n'.writer.isClient == n.writer.isClient && n'.writer.writer == n.writer.writer
    ensures n'.writer.aligned == n.writer.aligned && n'.writer.taken == n.writer.taken
    ensures n'.writer == n.writer || W.Next(n.writer, n'.writer)
    ensures n'.writer == n.writer || (n.writer.controlSent != [] ==> OrderlyNext(n.writer, n'.writer))
    ensures n'.session.replies == n.session.replies ==> n'.writer == n.writer
  {
    hide Shape, S.NextBy, S.Enabled, MayMove, SlotFrom, TasksFrom, Monotone;
    AnySessionStep(n.session, e, n'.session);
    var replies := n'.session.replies[|n.session.replies|..];
    if replies != [] {
      SendGrows(n.writer, W.Control, W.Request(replies[0], false), n'.writer);
      assert replies[0] == n'.session.replies[|n.session.replies|];
    }
  }

  lemma MoveKeepsSyn(n: Node, e: S.Event, n': Node)
    requires SynOk(n) && SessionStep(n.session, e, n'.session) && n'.session.distinct
    requires NoNewSyn(n.writer.controlSent, n'.writer.controlSent)
    requires n'.enqueued == (if e.RunTask? then n.enqueued - {e.i} else n.enqueued)
    ensures SynOk(n')
  {
    hide W.Opens, SlotFrom, PlainReplies, Grows;
    var sent, sent' := n.writer.controlSent, n'.writer.controlSent;
    SameOpens(sent, sent');
    forall i | 0 <= i < |n'.session.tasks| && n'.session.tasks[i].Opening? && i !in n'.enqueued
      ensures !W.Opens(sent', n'.session.tasks[i].id)
    {
      if !(i < |n.session.tasks| && n'.session.tasks[i] == n.session.tasks[i] && !(e.RunTask? && e.i == i)) {
        UnusedNotOpened(n, n'.session.tasks[i].id);
      }
    }
    OpeningsDiffer(n, e, n');
  }

  lemma UnusedNotOpened(n: Node, id: u32)
    requires SynOk(n) && id !in n.session.used
    ensures !W.Opens(n.writer.controlSent, id)
  {
  }

  lemma OpeningsDiffer(n: Node, e: S.Event, n': Node)
    requires SynOk(n) && TasksFrom(n.session, e, n'.session) && Monotone(n.session, n'.session) && n'.session.distinct
    ensures forall i :: 0 <= i < |n'.session.tasks| && n'.session.tasks[i].Opening? ==>
              n'.session.tasks[i].id in n'.session.used
    ensures var tasks := n'.session.tasks;
            forall i, j :: 0 <= i < j < |tasks| && tasks[i].Opening? && tasks[j].Opening? ==> tasks[i].id != tasks[j].id
  {
    hide W.Opens, Grows, SynsOnce;
    var tasks, tasks' := n.session.tasks, n'.session.tasks;
    forall i | 0 <= i < |tasks'| && tasks'[i].Opening?
      ensures tasks'[i].id in n'.session.used
      ensures (i < |tasks| && tasks'[i] == tasks[i] && tasks[i].id in n.session.used)
              || (e.RunTask? && e.i == i && tasks'[i].id !in n.session.used)
    {
      if !(i < |n.session.tasks| && n'.session.tasks[i] == n.session.tasks[i] && !(e.RunTask? && e.i == i)) {
        assert NewTask(n.session, e, n'.session, i);
      }
    }
  }

  /** An ended side stays ended. */
  lemma EndedStays(n: Node, n': Node, id: u32)
    requires PushOk(n) && n'.writes == n.writes && Ended(n, id)
    requires SlotFrom(n.session, n'.session) && Monotone(n.session, n'.session) && n'.session.distinct
    ensures Ended(n', id)
  {
    NoWriteStays(n, n', id);
  }

  lemma NoWriteStays(n: Node, n': Node, id: u32)
    requires PushOk(n) && n'.writes == n.writes && Grows(n.session.streams, n'.session.streams)
    ensures NoOpenWrite(n, id) ==> NoOpenWrite(n', id)
  {
  }

  /** With distinct ids, an application that has settled its writes to a stream has none to its id. */
  lemma SettledMeansNone(n: Node, key: nat)
    requires PushOk(n) && Settled(n, key) && key < |n.session.streams|
    requires IdsShape(n.session.streams, n.session.used, n.session.distinct) && n.session.distinct
    ensures NoOpenWrite(n, n.session.streams[key].id)
  {
  }

  lemma MoveKeepsFin(n: Node, e: S.Event, n': Node)
    requires PushOk(n) && FinOk(n) && SessionStep(n.session, e, n'.session) && n'.session.distinct
    requires MayMove(n, e) && n'.writes == n.writes && n'.writer.dataSent == n.writer.dataSent
    requires IdsShape(n.session.streams, n.session.used, n.session.distinct)
    ensures FinOk(n')
  {
    hide Ended, NoOpenWrite, AllFinsLast, IdsShape, Settled, PlainReplies, PushOk;
    forall i | 0 <= i < |n'.session.tasks| && n'.session.tasks[i].SendingFin?
      ensures Ended(n', n'.session.tasks[i].id)
    {
      FinTaskEnded(n, e, n', i);
    }
    forall i | 0 <= i < |n'.session.tasks| && n'.session.tasks[i].StartFin?
      ensures NoOpenWrite(n', n'.session.tasks[i].id)
    {
      var id := n'.session.tasks[i].id;
      if !(i < |n.session.tasks| && n'.session.tasks[i] == n.session.tasks[i] && !(e.RunTask? && e.i == i)) {
        SettledMeansNone(n, e.key);
      }
      NoWriteStays(n, n', id);
    }
    forall k | 0 <= k < |n'.writer.dataSent| && n'.writer.dataSent[k].frame.command == Fin
      ensures Ended(n', n'.writer.dataSent[k].frame.streamId)
    {
      EndedStays(n, n', n'.writer.dataSent[k].frame.streamId);
    }
  }

  lemma FinTaskEnded(n: Node, e: S.Event, n': Node, i: nat)
    requires PushOk(n) && FinOk(n) && SessionStep(n.session, e, n'.session) && n'.session.distinct
    requires n'.writes == n.writes && i < |n'.session.tasks| && n'.session.tasks[i].SendingFin?
    ensures Ended(n', n'.session.tasks[i].id)
  {
    hide NoOpenWrite, AllFinsLast, PlainReplies, PushOk, Grows;
    var id := n'.session.tasks[i].id;
    if i < |n.session.tasks| && n'.session.tasks[i] == n.session.tasks[i] && !(e.RunTask? && e.i == i) {
      EndedStays(n, n', id);
    } else {
      assert NewTask(n.session, e, n'.session, i);
      NoWriteStays(n, n', id);
    }
  }

  lemma MoveKeepsPush(n: Node, n': Node)
    requires PushOk(n) && Grows(n.session.streams, n'.session.streams) && n.ready <= n'.ready
    requires n'.writes == n.writes && n'.writer.dataSent == n.writer.dataSent
    ensures PushOk(n')
  {
    forall k | 0 <= k < |n'.writer.dataSent| && n'.writer.dataSent[k].frame.command == Push
      ensures HasStream(n'.session, n'.writer.dataSent[k].frame.streamId)
    {
      var id := n.writer.dataSent[k].frame.streamId;
      assert HasStream(n.session, id);
      var key :| 0 <= key < |n.session.streams| && n.session.streams[key].id == id;
      assert n'.session.streams[key].id == id;
    }
  }

  lemma MoveKeepsReady(n: Node, e: S.Event, n': Node)
    requires ReadyOk(n) && AdmissionOk(n.session) && Shape(n.session) && Moves(n, e, n')
    requires SessionStep(n.session, e, n'.session) && NoNewSyn(n.writer.controlSent, n'.writer.controlSent)
    ensures ReadyOk(n')
  {
    hide W.Opens, S.NextBy, S.Enabled, SlotFrom, PlainReplies, Replied, Grows, SlotShape, IdsShape, SynPositions;
    SameOpens(n.writer.controlSent, n'.writer.controlSent);
    if n'.session.isClient {
      forall id | id in n'.ready
        ensures W.Opens(n'.writer.controlSent, id)
      {
        if id !in n.ready {
          HandedIsOpened(n, e, id);
        }
      }
      forall i | 0 <= i < |n'.session.tasks| && n'.session.tasks[i].Opening? && i in n'.enqueued
        ensures W.Opens(n'.writer.controlSent, n'.session.tasks[i].id)
      {
        if !(i < |n.session.tasks| && n'.session.tasks[i] == n.session.tasks[i] && !(e.RunTask? && e.i == i)) {
          assert NewTask(n.session, e, n'.session, i);
        }
      }
    }
  }

  lemma HandedIsOpened(n: Node, e: S.Event, id: u32)
    requires ReadyOk(n) && AdmissionOk(n.session) && Shape(n.session) && n.session.isClient && MayMove(n, e)
    requires id in HandedOver(n.session, e)
    ensures W.Opens(n.writer.controlSent, id)
  {
    hide W.Opens, SlotShape, IdsShape, SynPositions;
    OnlyLoopAdmits(n.session, e.i);
  }

  lemma MoveKeepsParts(n: Node, e: S.Event, n': Node)
    requires Parts(n) && StartOk(n) && Moves(n, e, n')
    ensures Parts(n') && StartOk(n')
  {
    hide FullInv, Origins, WireOrder.Inv, Orderly, MayMove, SessionStep, NoNewSyn, Replied;
    assert S.Next(n.session, n'.session) by { StepIsNext(n.session, e, n'.session); }
    NextKeepsFullInv(n.session, n'.session);
    NextKeepsOrigins(n.session, n'.session);
    ClosedStep(n.session, n'.session);
    ShapeOfFull(n.session);
    MoveSends(n, e, n');
    if !n.started {
      IdleStep(n.session, e, n'.session);
    }
    MoreSent(n.writer.controlSent, n'.writer.controlSent);
    if n'.writer != n.writer {
      WireOrder.NextKeepsInv(n.writer, n'.writer);
      if n.session.isClient {
        NextKeepsOrderly(n.writer, n'.writer);
      }
    }
  }

  lemma MoreSent(sent: seq<W.Request>, sent': seq<W.Request>)
    requires NoNewSyn(sent, sent')
    ensures sent != [] ==> sent' != []
  {
  }

  /** A session that nobody uses yet goes on without streams, and replies to nobody. */
  lemma IdleStep(s: S.Session, e: S.Event, s': S.Session)
    requires Shape(s) && AllIdle(s) && S.Enabled(s, e) && S.NextBy(s, e, s') && !WaitsForStart(e)
    ensures AllIdle(s') && s'.replies == s.replies
  {
    hide S.StepOf, S.EffectOf, S.Act, S.CanRun, IdsShape, TasksShape;
    match e
    case RunTask(i, c) =>
      IdleRun(s, s.tasks[i], c);
      assert Idle(s.tasks[i]);
    case _ => IdleEffect(s, e);
  }

  lemma IdleRun(s: S.Session, t: S.Task, c: S.Choice)
    requires SlotShape(s.slot, s.streams) && s.streams == [] && Idle(t) && S.CanRun(s, t, c)
    ensures var step := S.StepOf(s, t, c);
            && S.Allows(s, step.action)
            && S.Act(s, step.action).streams == [] && S.Act(s, step.action).replies == s.replies
            && Idle(step.next) && step.spawned == [] && step.replies == []
  {
  }

  lemma IdleEffect(s: S.Session, e: S.Event)
    requires s.streams == [] && S.OtherEvent(e) && S.Enabled(s, e) && !WaitsForStart(e)
    ensures var effect := S.EffectOf(s, e);
            && S.Allows(s, effect.action) && S.Act(s, effect.action).streams == []
            && S.Act(s, effect.action).replies == s.replies
            && forall i :: 0 <= i < |effect.spawned| ==> Idle(effect.spawned[i])
  {
  }

  lemma StepIsNext(s: S.Session, e: S.Event, s': S.Session)
    requires S.Enabled(s, e) && S.NextBy(s, e, s')
    ensures S.Next(s, s')
  {
    hide S.NextBy, S.Enabled;
  }

  lemma ShapeOfFull(s: S.Session)
    requires FullInv(s)
    ensures Shape(s) && AdmissionOk(s) && IdsShape(s.streams, s.used, s.distinct)
  {
    hide IdsShape;
  }

  lemma MoveKeepsInv(n: Node, e: S.Event, n': Node)
    requires NodeInv(n) && Moves(n, e, n')
    ensures NodeInv(n')
  {
    hide FullInv, Origins, WireOrder.Inv, Orderly, PushOk, SynOk, FinOk, ReadyOk, StartOk, Shape, AdmissionOk, IdsShape,
      S.NextBy, S.Enabled, Replied, NoNewSyn, Parts, TasksFrom, SlotFrom;
    ShapeOfParts(n);
    MoveKeepsParts(n, e, n');
    MoveSends(n, e, n');
    MoveKeepsPush(n, n');
    MoveKeepsReady(n, e, n');
    if n'.session.distinct {
      MoveKeepsSyn(n, e, n');
      MoveKeepsFin(n, e, n');
    }
  }

  lemma ShapeOfParts(n: Node)
    requires Parts(n)
    ensures Shape(n.session) && AdmissionOk(n.session)
    ensures IdsShape(n.session.streams, n.session.used, n.session.distinct)
  {
    hide Origins, WireOrder.Inv, Orderly, FullInv, Shape, AdmissionOk, IdsShape;
    ShapeOfFull(n.session);
  }

  // ---- every step of a node ----

  lemma WriterKeepsParts(n: Node, n': Node)
    requires Parts(n) && n'.session == n.session && (n'.writer == n.writer || W.Next(n.writer, n'.writer))
    requires n'.writer == n.writer || (n.session.isClient ==> OrderlyNext(n.writer, n'.writer))
    requires n'.writer.isClient == n.writer.isClient
    ensures Parts(n')
  {
    hide FullInv, Origins, WireOrder.Inv, Orderly, W.Next, OrderlyNext;
    if n'.writer != n.writer {
      WireOrder.NextKeepsInv(n.writer, n'.writer);
      if n.session.isClient {
        NextKeepsOrderly(n.writer, n'.writer);
      }
    }
  }

  // ---- everything is sent in order ----

  /** A request that is neither Settings nor payload is in order once Settings were sent. */
  lemma PlainInOrder(n: Node, queue: W.Queue, r: W.Request)
    requires StartOk(n) && n.started && n.session.isClient && r.frame.command != Push
    ensures InOrder(n.writer, queue, r)
  {
    hide W.Opens, AllIdle;
  }

  /** The application has a stream to write to only after its SYN was sent. */
  lemma WriteInOrder(n: Node, j: nat)
    requires StartOk(n) && PushOk(n) && ReadyOk(n) && n.session.isClient && j < |n.writes|
    ensures n.started && n.writes[j].key < |n.session.streams| && InOrder(n.writer, W.Data, PushOf(n, j))
  {
    hide W.Opens, AllIdle;
  }

  /** Only a node that has started has tasks with requests. */
  lemma SenderStarted(n: Node, i: nat)
    requires StartOk(n) && i < |n.session.tasks| && RequestOf(n.session.tasks[i]).Some?
    ensures n.started
  {
    assert AllIdle(n.session) ==> Idle(n.session.tasks[i]);
  }

  lemma SettingsInOrder(n: Node, r: W.Request)
    requires StartOk(n) && !n.started && r.frame.command == Settings
    ensures InOrder(n.writer, W.Control, r)
  {
    hide AllIdle, W.Opens;
  }

  /** Sending keeps a started node started. */
  lemma SendKeepsStart(n: Node, n': Node)
    requires StartOk(n) && n.started && n'.started && n'.session == n.session
    requires n.writer.controlSent <= n'.writer.controlSent
    ensures StartOk(n')
  {
    hide AllIdle;
  }

  /** The other lists of a node decide `SynOk` and `ReadyOk`; its writes do not. */
  lemma SameSynOk(n: Node, n': Node)
    requires n'.session == n.session && n'.enqueued == n.enqueued && n'.ready == n.ready
    requires n'.writer.controlSent == n.writer.controlSent
    ensures (SynOk(n') <==> SynOk(n)) && (ReadyOk(n') <==> ReadyOk(n))
  {
  }

  lemma NextKeepsNodeInv(n: Node, e: Event, n': Node)
    requires NodeInv(n) && Next(n, e, n')
    ensures NodeInv(n')
  {
    hide Parts, PushOk, SynOk, FinOk, ReadyOk, StartOk, Moves, Sends, MayWrite, W.Enabled, W.Apply, InOrder,
      OrderlyNext;
    match e
    case Move(e) => MoveKeepsInv(n, e, n');
    case Transport(t) =>
      TransportKeeps(n.writer, t);
      WriterKeepsParts(n, n');
      SameFinOk(n, n');
      SameSynOk(n, n');
      SameStartOk(n, n');
    case Enqueue(i) =>
      EnqueueInOrder(n, i, n');
      EnqueueKeeps(n, i, n');
    case StartWrite(key, data) =>
      WriterKeepsParts(n, n');
      StartWriteKeeps(n, key, data, n');
      SameSynOk(n, n');
    case QueueWrite(j) =>
      PushInOrder(n, j, n');
      QueueWriteKeeps(n, j, n');
    case GiveUpWrite(j) =>
      WriterKeepsParts(n, n');
      SettleKeeps(n, j, n');
      SameSynOk(n, n');
      SettleKeepsStart(n, j, n');
    case Start(r) =>
      StartKeeps(n, r, n');
      ControlKeeps(n, n', r);
    case SendControl(r) =>
      ControlInOrder(n, r, n');
      ControlKeeps(n, n', r);
  }

  lemma SameStartOk(n: Node, n': Node)
    requires n'.session == n.session && n'.started == n.started && n'.writes == n.writes
    requires n'.writer.controlSent == n.writer.controlSent && n'.writer.dataSent == n.writer.dataSent
    ensures StartOk(n') <==> StartOk(n)
  {
    hide AllIdle;
  }

  lemma SettleKeepsStart(n: Node, j: nat, n': Node)
    requires StartOk(n) && j < |n.writes| && n'.session == n.session && n'.started == n.started && n'.writer == n.writer
    ensures StartOk(n')
  {
    hide AllIdle;
  }

  lemma EnqueueInOrder(n: Node, i: nat, n': Node)
    requires Parts(n) && StartOk(n) && Next(n, Enqueue(i), n')
    ensures Parts(n') && StartOk(n')
  {
    hide Parts, StartOk, Sends, InOrder, OrderlyNext;
    var (queue, r) := RequestOf(n.session.tasks[i]).value;
    SenderStarted(n, i);
    SendGrows(n.writer, queue, r, n'.writer);
    if n.session.isClient {
      PlainInOrder(n, queue, r);
    }
    WriterKeepsParts(n, n');
    SendKeepsStart(n, n');
  }

  lemma PushInOrder(n: Node, j: nat, n': Node)
    requires Parts(n) && StartOk(n) && PushOk(n) && ReadyOk(n) && Next(n, QueueWrite(j), n')
    ensures Parts(n') && StartOk(n')
  {
    hide Parts, StartOk, PushOk, ReadyOk, Sends, InOrder, OrderlyNext;
    SendGrows(n.writer, W.Data, PushOf(n, j), n'.writer);
    WriterStarted(n, j);
    if n.session.isClient {
      WriteInOrder(n, j);
    }
    WriterKeepsParts(n, n');
    SendKeepsStart(n, n');
  }

  lemma WriterStarted(n: Node, j: nat)
    requires StartOk(n) && j < |n.writes|
    ensures n.started
  {
    hide AllIdle;
  }

  lemma StartKeeps(n: Node, r: W.Request, n': Node)
    requires Parts(n) && StartOk(n) && Next(n, Start(r), n')
    ensures Parts(n') && StartOk(n') && n'.writer.controlSent == n.writer.controlSent + [r]
    ensures n'.writer.dataSent == n.writer.dataSent
  {
    hide Parts, Sends, InOrder, OrderlyNext, AllIdle;
    SendGrows(n.writer, W.Control, r, n'.writer);
    SettingsInOrder(n, r);
    WriterKeepsParts(n, n');
  }

  lemma ControlInOrder(n: Node, r: W.Request, n': Node)
    requires Parts(n) && StartOk(n) && Next(n, SendControl(r), n')
    ensures Parts(n') && StartOk(n') && n'.writer.controlSent == n.writer.controlSent + [r]
    ensures n'.writer.dataSent == n.writer.dataSent
  {
    hide Parts, StartOk, Sends, InOrder, OrderlyNext;
    SendGrows(n.writer, W.Control, r, n'.writer);
    if n.session.isClient {
      PlainInOrder(n, W.Control, r);
    }
    WriterKeepsParts(n, n');
    SendKeepsStart(n, n');
  }
}
