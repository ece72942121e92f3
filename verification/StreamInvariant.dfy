/**
 * What every step of a session keeps about the contents of its streams: the inbound queue loses,
 * repeats and reorders nothing, stays within its bounds, and ends where the peer's FIN said.
 */
module StreamInvariants {
  import opened Wrappers
  import opened Bytes
  import opened Frames
  import opened Inbound
  import opened Sessions
  import opened SessionInvariants

  // ---- at most one FIN mark is ever under way to a queue ----

  /** The stream for which a task is still to queue the FIN mark. */
  function CarrierKey(t: Task): Option<nat> {
    match t
    case MarkingFin(_, key) => Some(key)
    case FinFull(_, key) => Some(key)
    case FinWaiter(_, key) => Some(key)
    case _ => None
  }

  ghost predicate CarriersGood(tasks: seq<Task>, streams: seq<Stream>) {
    && (forall i :: 0 <= i < |tasks| && CarrierKey(tasks[i]).Some? ==>
          var key := CarrierKey(tasks[i]).value;
          key < |streams| && streams[key].finReceived.Some? && streams[key].finQueued.None?)
    && (forall i, j :: 0 <= i < j < |tasks| && CarrierKey(tasks[i]).Some? ==>
          CarrierKey(tasks[i]) != CarrierKey(tasks[j]))
  }

  ghost predicate FinsGood(slot: Option<Slot>, streams: seq<Stream>) {
    && (slot.Some? && slot.value.key < |streams| ==>
          (slot.value.remoteFin <==> streams[slot.value.key].finReceived.Some?))
    && (forall k :: 0 <= k < |streams| && streams[k].finQueued.Some? ==> streams[k].finReceived.Some?)
  }

  /** A step that moves, drops or spends the FIN mark of its own task and leaves the others alone. */
  predicate CarrierStep(s: Session, t: Task, step: Step) {
    && (CarrierKey(step.next).Some? ==> CarrierKey(step.next) == CarrierKey(t) && step.spawned == [])
    && (step.spawned == [] || (|step.spawned| == 1 && CarrierKey(step.spawned[0]) in {None, CarrierKey(t)}))
    && (step.action.SetStream? ==>
          var key, st := step.action.key, step.action.st;
          && key < |s.streams|
          && st.finReceived == s.streams[key].finReceived
          && (st.finQueued == s.streams[key].finQueued
              || (CarrierKey(t) == Some(key) && CarrierKey(step.next).None? && step.spawned == [])))
    && !step.action.RaiseRemoteFin?
  }

  lemma InboundCarrier(s: Session, t: Task, c: Choice)
    requires InboundTask(t) && CanRun(s, t, c)
    ensures CarrierStep(s, t, InboundStep(s, t, c))
  {
  }

  lemma AdmissionCarrier(s: Session, t: Task, c: Choice)
    requires AdmissionTask(t) && CanRun(s, t, c)
    ensures CarrierStep(s, t, AdmissionStep(s, t, c))
  {
  }

  lemma ReleaseCarrier(s: Session, t: Task)
    requires ReleaseTask(t)
    ensures CarrierStep(s, t, ReleaseStep(s, t))
  {
  }

  lemma ClosingCarrier(s: Session, t: Task, c: Choice)
    requires ClosingTask(t) && CanRun(s, t, c)
    ensures CarrierStep(s, t, ClosingStep(s, t, c))
  {
  }

  lemma StepCarrier(s: Session, t: Task, c: Choice)
    requires CanRun(s, t, c)
    ensures CarrierStep(s, t, StepOf(s, t, c))
  {
    hide CarrierStep, InboundStep, AdmissionStep, ReleaseStep, ClosingStep;
    if InboundTask(t) {
      InboundCarrier(s, t, c);
    } else if AdmissionTask(t) {
      AdmissionCarrier(s, t, c);
    } else if ReleaseTask(t) {
      ReleaseCarrier(s, t);
    } else {
      ClosingCarrier(s, t, c);
    }
  }

  ghost predicate Carriers(s: Session) {
    CarriersGood(s.tasks, s.streams) && FinsGood(s.slot, s.streams)
  }

  /** Actions that leave the FIN bookkeeping of every existing stream alone. */
  predicate SameFins(s: Session, s': Session) {
    && |s.streams| <= |s'.streams|
    && (forall k :: 0 <= k < |s.streams| ==>
          s'.streams[k].finReceived == s.streams[k].finReceived && s'.streams[k].finQueued == s.streams[k].finQueued)
  }

  lemma ActSameFins(s: Session, a: Action)
    requires Allows(s, a) && !a.RaiseRemoteFin?
    requires a.SetStream? ==>
               && a.st.finReceived == s.streams[a.key].finReceived
               && a.st.finQueued == s.streams[a.key].finQueued
    ensures SameFins(s, Act(s, a))
  {
  }

  lemma ActFinsGood(s: Session, a: Action)
    requires Allows(s, a) && SlotShape(s.slot, s.streams) && FinsGood(s.slot, s.streams)
    requires a.SetStream? ==>
               && a.st.finReceived == s.streams[a.key].finReceived
               && (a.st.finQueued.Some? ==> a.st.finReceived.Some?)
    ensures FinsGood(Act(s, a).slot, Act(s, a).streams)
  {
    match a
    case SetStream(key, st) =>
    case Open(id) => assert Act(s, a).streams == s.streams + [NewStream(id, |s.handled|)];
    case Free => assert Act(s, a).streams == CancelSlot(s);
    case Drain => assert Act(s, a).streams == CancelSlot(s);
    case RaiseRemoteFin =>
    case _ => assert Act(s, a).streams == s.streams;
  }

  lemma CarriersSame(tasks: seq<Task>, s: Session, s': Session)
    requires CarriersGood(tasks, s.streams) && SameFins(s, s')
    ensures CarriersGood(tasks, s'.streams)
  {
  }

  /** The carriers after a step of task `i` that moves, drops or spends its own. */
  lemma CarriersMove(tasks: seq<Task>, streams: seq<Stream>, i: nat, next: Task, spawned: seq<Task>)
    requires CarriersGood(tasks, streams) && i < |tasks|
    requires CarrierKey(next) in {None, CarrierKey(tasks[i])}
    requires spawned == [] || (|spawned| == 1 && CarrierKey(spawned[0]) in {None, CarrierKey(tasks[i])})
    requires spawned != [] ==> CarrierKey(next).None?
    ensures CarriersGood(tasks[i := next] + spawned, streams)
  {
    hide CarrierKey;
  }

  /** A carrier that spends its mark leaves no other for that stream. */
  lemma CarrierSpends(tasks: seq<Task>, streams: seq<Stream>, i: nat, next: Task, key: nat, st: Stream)
    requires CarriersGood(tasks, streams) && i < |tasks|
    requires CarrierKey(tasks[i]) == Some(key) && CarrierKey(next).None? && key < |streams|
    requires st.finReceived == streams[key].finReceived
    ensures CarriersGood(tasks[i := next], streams[key := st])
  {
    hide CarrierKey;
    var tasks' := tasks[i := next];
    forall j | 0 <= j < |tasks'| && CarrierKey(tasks'[j]).Some?
      ensures CarrierKey(tasks'[j]).value != key
    {
      if j < i {
        assert CarrierKey(tasks[j]) != CarrierKey(tasks[i]);
      } else {
        assert i < j;
        assert CarrierKey(tasks[i]) != CarrierKey(tasks[j]);
      }
    }
  }

  lemma RunKeepsCarriers(s: Session, i: nat, c: Choice)
    requires Shape(s) && Carriers(s) && i < |s.tasks| && CanRun(s, s.tasks[i], c)
    ensures Allows(s, StepOf(s, s.tasks[i], c).action)
    ensures Carriers(Commit(s, i, StepOf(s, s.tasks[i], c)))
  {
    hide StepOf, Act, CanRun, IdsShape, TasksShape, CarriersGood, FinsGood, SameFins, CarrierKey;
    var t := s.tasks[i];
    var step := StepOf(s, t, c);
    RunKeepsShape(s, i, c);
    StepCarrier(s, t, c);
    var s1 := Act(s, step.action);
    StepFinsGood(s, i, step);
    ActFinsGood(s, step.action);
    if step.action.SetStream? && step.action.st.finQueued != s.streams[step.action.key].finQueued {
      SetIs(s, step.action);
      CarrierSpends(s.tasks, s.streams, i, step.next, step.action.key, step.action.st);
      assert s.tasks[i := step.next] + [] == s.tasks[i := step.next];
    } else {
      ActSameFins(s, step.action);
      CarriersMove(s.tasks, s.streams, i, step.next, step.spawned);
      CarriersSame(s.tasks[i := step.next] + step.spawned, s, s1);
    }
  }

  lemma SetIs(s: Session, a: Action)
    requires a.SetStream? && a.key < |s.streams|
    ensures Act(s, a) == s.(streams := s.streams[a.key := a.st])
  {
  }

  lemma StepFinsGood(s: Session, i: nat, step: Step)
    requires Carriers(s) && i < |s.tasks| && CarrierStep(s, s.tasks[i], step)
    ensures step.action.SetStream? ==>
              && step.action.st.finReceived == s.streams[step.action.key].finReceived
              && (step.action.st.finQueued.Some? ==> step.action.st.finReceived.Some?)
  {
    hide CarrierKey;
  }

  lemma FrameKeepsCarriers(s: Session, f: Frame, ok: bool)
    requires Shape(s) && Carriers(s) && s.tasks[0] == Receiving
    ensures SlotValid(s) && Allows(s, FrameStep(s, f, ok).action)
    ensures Carriers(Commit(s, 0, FrameStep(s, f, ok)))
  {
    hide FrameStep, Act, IdsShape, LoopTask, NamesStream, CarriersGood, FinsGood, SameFins, CarrierKey;
    FrameKeepsShape(s, f, ok);
    var step := FrameStep(s, f, ok);
    FrameCarrier(s, f, ok);
    KeptFins(s, step.action);
    ActFinsGood(s, step.action);
    if step.action.RaiseRemoteFin? {
      FinFrameCarriers(s, step);
    } else {
      ActSameFins(s, step.action);
      CarriersMove(s.tasks, s.streams, 0, step.next, step.spawned);
      CarriersSame(s.tasks[0 := step.next] + step.spawned, s, Act(s, step.action));
    }
  }

  lemma FrameCarrier(s: Session, f: Frame, ok: bool)
    requires SlotValid(s)
    ensures var step := FrameStep(s, f, ok);
            && step.spawned == []
            && (step.action.RaiseRemoteFin? ==>
                  && s.slot.Some? && !s.slot.value.remoteFin
                  && step == Go(RaiseRemoteFin, MarkingFin(s.slot.value.id, s.Key())))
            && (!step.action.RaiseRemoteFin? ==> CarrierKey(step.next).None?)
            && (step.action.SetStream? ==>
                  && step.action.key < |s.streams|
                  && step.action.st.finReceived == s.streams[step.action.key].finReceived
                  && step.action.st.finQueued == s.streams[step.action.key].finQueued)
  {
  }

  /** A first FIN finds no mark under way to the stream in the slot. */
  lemma FinFrameCarriers(s: Session, step: Step)
    requires Shape(s) && Carriers(s) && s.tasks[0] == Receiving && s.slot.Some? && !s.slot.value.remoteFin
    requires step == Go(RaiseRemoteFin, MarkingFin(s.slot.value.id, s.Key())) && Allows(s, step.action)
    ensures CarriersGood(s.tasks[0 := step.next] + step.spawned, Act(s, step.action).streams)
  {
    var key := s.Key();
    var tasks' := s.tasks[0 := step.next];
    assert tasks' + [] == tasks';
    assert s.streams[key].finReceived.None? && s.streams[key].finQueued.None?;
    forall i | 0 < i < |tasks'| && CarrierKey(tasks'[i]).Some?
      ensures CarrierKey(tasks'[i]).value != key
    {
      assert CarrierKey(s.tasks[i]).Some?;
    }
  }

  lemma EffectKeepsCarriers(s: Session, e: Event)
    requires Shape(s) && Carriers(s) && OtherEvent(e) && Enabled(s, e)
    ensures Allows(s, EffectOf(s, e).action)
    ensures Carriers(Act(s, EffectOf(s, e).action).(tasks := s.tasks + EffectOf(s, e).spawned))
  {
    hide CarriersGood, FinsGood, SameFins;
    EffectKeepsShape(s, e);
    var effect := EffectOf(s, e);
    EffectCarrier(s, e);
    KeptFins(s, effect.action);
    ActFinsGood(s, effect.action);
    ActSameFins(s, effect.action);
    CarriersSpawn(s.tasks, s.streams, effect.spawned);
    CarriersSame(s.tasks + effect.spawned, s, Act(s, effect.action));
  }

  lemma EffectCarrier(s: Session, e: Event)
    requires OtherEvent(e) && Enabled(s, e)
    ensures var effect := EffectOf(s, e);
            && (effect.spawned == [] || (|effect.spawned| == 1 && CarrierKey(effect.spawned[0]).None?))
            && (effect.action.SetStream? ==>
                  && effect.action.key < |s.streams|
                  && effect.action.st.finReceived == s.streams[effect.action.key].finReceived
                  && effect.action.st.finQueued == s.streams[effect.action.key].finQueued)
            && !effect.action.RaiseRemoteFin?
  {
  }

  lemma KeptFins(s: Session, a: Action)
    requires FinsGood(s.slot, s.streams)
    requires a.SetStream? ==>
               && a.key < |s.streams|
               && a.st.finReceived == s.streams[a.key].finReceived
               && a.st.finQueued == s.streams[a.key].finQueued
    ensures a.SetStream? ==> (a.st.finQueued.Some? ==> a.st.finReceived.Some?)
  {
  }

  lemma CarriersSpawn(tasks: seq<Task>, streams: seq<Stream>, spawned: seq<Task>)
    requires CarriersGood(tasks, streams)
    requires spawned == [] || (|spawned| == 1 && CarrierKey(spawned[0]).None?)
    ensures CarriersGood(tasks + spawned, streams)
  {
    hide CarrierKey;
  }

  lemma EndKeepsCarriers(s: Session)
    requires Carriers(s) && s.tasks != [] && s.tasks[0] == Receiving
    ensures Carriers(Commit(s, 0, Go(Stay, BeginShutdown(ThenEnd))))
  {
    CarriersMove(s.tasks, s.streams, 0, BeginShutdown(ThenEnd), []);
  }

  // ---- every stream keeps its own invariant ----

  ghost predicate StreamsGood(streams: seq<Stream>) {
    forall k :: 0 <= k < |streams| ==> StreamInv(streams[k])
  }

  lemma ActKeepsStreams(s: Session, a: Action)
    requires StreamsGood(s.streams) && Allows(s, a)
    requires a.SetStream? ==> StreamInv(a.st)
    ensures StreamsGood(Act(s, a).streams)
  {
    hide StreamInv;
    match a
    case SetStream(key, st) =>
    case Open(id) =>
      NewStreamInv(id, |s.handled|);
      assert Act(s, a).streams == s.streams + [NewStream(id, |s.handled|)];
    case Free => CancelKeeps(s);
    case Drain => CancelKeeps(s);
    case RaiseRemoteFin =>
      var st := s.streams[s.Key()];
      SameQueueKeeps(st, st.(finReceived := Some(|st.received|)));
    case _ => assert Act(s, a).streams == s.streams;
  }

  lemma CancelKeeps(s: Session)
    requires StreamsGood(s.streams) && SlotValid(s)
    ensures StreamsGood(CancelSlot(s))
  {
    hide StreamInv;
    if s.slot.Some? {
      var st := s.streams[s.Key()];
      SameQueueKeeps(st, st.(cancelled := true, leftAt := Some(|s.handled|)));
    }
  }

  lemma StepStream(s: Session, i: nat, c: Choice)
    requires StreamsGood(s.streams) && CarriersGood(s.tasks, s.streams) && i < |s.tasks|
    requires CanRun(s, s.tasks[i], c)
    ensures StepOf(s, s.tasks[i], c).action.SetStream? ==> StreamInv(StepOf(s, s.tasks[i], c).action.st)
  {
    hide StreamInv;
    var t := s.tasks[i];
    if !t.Pushing? && !t.MarkingFin? && !t.FinWaiter? && !t.PumpDrop? {
      NoSetStream(s, t, c);
      return;
    }
    match t
    case Pushing(_, key, data) =>
      var st := s.streams[key];
      if st.CanPush(data) {
        PushKeeps(st, data);
      } else {
        SameQueueKeeps(st, st.(refused := true));
        SameQueueKeeps(st, st.(refused := true, skipped := true));
      }
    case MarkingFin(_, key) =>
      if !s.streams[key].pump.Gone? && |s.streams[key].queue| < CHANNEL_CAPACITY {
        assert CarrierKey(t).Some?;
        QueueFinKeeps(s.streams[key]);
      }
    case FinWaiter(_, key) =>
      if c.ok && !s.streams[key].pump.Gone? {
        assert CarrierKey(t).Some?;
        QueueFinKeeps(s.streams[key]);
      }
    case PumpDrop(key) => DropKeeps(s.streams[key]);
  }

  lemma NoSetStream(s: Session, t: Task, c: Choice)
    requires CanRun(s, t, c)
    requires !t.Pushing? && !t.MarkingFin? && !t.FinWaiter? && !t.PumpDrop?
    ensures !StepOf(s, t, c).action.SetStream?
  {
  }

  lemma FrameStream(s: Session, f: Frame, ok: bool)
    requires StreamsGood(s.streams) && SlotValid(s)
    ensures FrameStep(s, f, ok).action.SetStream? ==> StreamInv(FrameStep(s, f, ok).action.st)
  {
    hide StreamInv;
    if f.command == Push && s.Holds(f.streamId) {
      SameQueueKeeps(s.streams[s.Key()], s.streams[s.Key()].Receive(f.data));
    }
  }

  lemma EffectStream(s: Session, e: Event)
    requires StreamsGood(s.streams) && OtherEvent(e) && Enabled(s, e)
    ensures EffectOf(s, e).action.SetStream? ==> StreamInv(EffectOf(s, e).action.st)
  {
    hide StreamInv;
    match e
    case PumpRecv(key) => RecvKeeps(s.streams[key]);
    case PumpDeliver(key, n) => DeliverKeeps(s.streams[key], n);
    case PumpWritten(key) => WrittenKeeps(s.streams[key]);
    case PumpFails(key) => LeaveKeeps(s.streams[key]);
    case PumpTimesOut(key) => LeaveKeeps(s.streams[key]);
    case PumpCancelled(key) => LeaveKeeps(s.streams[key]);
    case AppHalfClose(key) => SameQueueKeeps(s.streams[key], s.streams[key].(ending := true));
    case AppClose(key) => SameQueueKeeps(s.streams[key], s.streams[key].(handle := Handle.Closed, ending := true));
    case AppDrop(key) => SameQueueKeeps(s.streams[key], s.streams[key].(handle := Dropped, ending := true));
    case _ =>
  }

  // ---- no gap between what was received and what was accepted ----

  /** The loop will handle no further frame before the stream with this id has left the slot. */
  predicate Stuck(loop: Task, id: u32) {
    match loop
    case Overload(id') => id' == id
    case Remove(id', _, _) => id' == id
    case BeginShutdown(after) => after == ThenEnd
    case TakeSlot(after) => after == ThenEnd
    case Done => true
    case _ => false
  }

  /**
   * Pushes are accepted in order without a gap: everything received so far, apart from the push
   * in hand, or, once one was refused, everything before it. A stream that was refused a push
   * after the session had closed (`skipped`) is excepted.
   */
  ghost predicate GapFree(st: Stream, key: nat, loop: Task, inSlot: bool) {
    !st.skipped ==>
      && (if loop.Pushing? && loop.key == key then !st.refused && st.received == st.accepted + loop.data
          else if st.refused then st.accepted <= st.received
          else st.received == st.accepted)
      && (st.refused && inSlot ==> Stuck(loop, st.id))
      && (st.finReceived.Some? ==> st.finReceived.value <= |st.accepted|)
      && (st.finQueued.Some? ==> st.finReceived.Some? && st.finReceived.value <= st.finQueued.value)
  }

  ghost predicate NoGaps(s: Session) {
    && s.tasks != []
    && forall k :: 0 <= k < |s.streams| ==> GapFree(s.streams[k], k, s.tasks[0], InSlot(s.slot, k))
  }

  /** The parts of a stream that `GapFree` reads. */
  predicate SameContents(st: Stream, st': Stream) {
    && st'.id == st.id && st'.received == st.received && st'.accepted == st.accepted
    && st'.refused == st.refused && st'.skipped == st.skipped && st'.finReceived == st.finReceived
  }

  predicate PushesTo(loop: Task, key: nat) {
    loop.Pushing? && loop.key == key
  }

  lemma GapFreeMoves(st: Stream, st': Stream, key: nat, loop: Task, loop': Task, inSlot: bool, inSlot': bool)
    requires GapFree(st, key, loop, inSlot) && SameContents(st, st')
    requires loop' == loop || (!PushesTo(loop, key) && !PushesTo(loop', key))
    requires inSlot' ==> inSlot
    requires loop' == loop || (st.refused && inSlot' && Stuck(loop, st.id) ==> Stuck(loop', st.id))
    requires st'.finQueued == st.finQueued || (st'.finQueued == Some(|st'.accepted|) && st'.finReceived.Some?)
    ensures GapFree(st', key, loop', inSlot')
  {
    hide Stuck;
  }

  /** What an action other than opening does to one stream and to whether it is in the slot. */
  predicate Mild(s: Session, a: Action, k: nat)
    requires Allows(s, a) && k < |s.streams|
  {
    var s' := Act(s, a);
    && k < |s'.streams|
    && SameContents(s.streams[k], s'.streams[k])
    && s'.streams[k].finQueued == s.streams[k].finQueued
    && (InSlot(s'.slot, k) ==> InSlot(s.slot, k))
  }

  lemma ActIsMild(s: Session, a: Action, k: nat)
    requires Allows(s, a) && SlotShape(s.slot, s.streams) && k < |s.streams|
    requires !a.RaiseRemoteFin? && !(a.SetStream? && a.key == k)
    ensures Mild(s, a, k)
  {
  }

  lemma ActCount(s: Session, a: Action)
    requires Allows(s, a)
    ensures |Act(s, a).streams| == |s.streams| + if a.Open? then 1 else 0
    ensures a.Open? ==> Act(s, a).streams[|s.streams|] == NewStream(a.id, |s.handled|)
    ensures a.SetStream? ==> Act(s, a).streams[a.key] == a.st && Act(s, a).slot == s.slot
    ensures a.RaiseRemoteFin? ==> RaisesRemoteFin(s, Act(s, a))
  {
  }

  predicate RaisesRemoteFin(s: Session, s': Session)
    requires s.slot.Some? && SlotValid(s)
  {
    var st := s.streams[s.Key()];
    && s'.slot == Some(s.slot.value.(remoteFin := true))
    && s'.streams == s.streams[s.Key() := st.(finReceived := Some(|st.received|))]
  }

  lemma NewGapFree(id: u32, openedAt: nat, key: nat, loop: Task, inSlot: bool)
    requires !PushesTo(loop, key)
    ensures GapFree(NewStream(id, openedAt), key, loop, inSlot)
  {
  }

  /** A step of the loop other than queueing a push keeps it stuck until the stream is out. */
  lemma StuckStays(s: Session, c: Choice, k: nat)
    requires Shape(s) && CanRun(s, s.tasks[0], c) && k < |s.streams|
    requires !s.tasks[0].Pushing? && Stuck(s.tasks[0], s.streams[k].id)
    requires InSlot(s.slot, k)
    ensures Allows(s, StepOf(s, s.tasks[0], c).action)
    ensures var step := StepOf(s, s.tasks[0], c);
            InSlot(Act(s, step.action).slot, k) ==> Stuck(step.next, s.streams[k].id)
  {
    StepAllowed(s, s.tasks[0], c);
  }

  lemma NextNeverPushes(s: Session, t: Task, c: Choice)
    requires CanRun(s, t, c)
    ensures !StepOf(s, t, c).next.Pushing?
    ensures StepOf(s, t, c).action.SetStream? && !t.Pushing? ==>
              var key, st := StepOf(s, t, c).action.key, StepOf(s, t, c).action.st;
              && key < |s.streams| && SameContents(s.streams[key], st)
              && (st.finQueued == s.streams[key].finQueued
                  || (st.finQueued == Some(|st.accepted|) && CarrierKey(t) == Some(key)))
    ensures !StepOf(s, t, c).action.RaiseRemoteFin?
  {
  }

  lemma PushKeepsNoGaps(s: Session, c: Choice)
    requires Shape(s) && Carriers(s) && NoGaps(s) && s.tasks[0].Pushing? && CanRun(s, s.tasks[0], c)
    ensures Allows(s, StepOf(s, s.tasks[0], c).action)
    ensures NoGaps(Commit(s, 0, StepOf(s, s.tasks[0], c)))
  {
    hide GapFree;
    var t := s.tasks[0];
    var step := StepOf(s, t, c);
    var s' := Commit(s, 0, step);
    assert NamesStream(s.streams, t);
    forall k | 0 <= k < |s'.streams|
      ensures GapFree(s'.streams[k], k, s'.tasks[0], InSlot(s'.slot, k))
    {
      PushGapFree(s, t, step, k);
    }
  }

  lemma PushGapFree(s: Session, t: Task, step: Step, k: nat)
    requires t.Pushing? && NamesStream(s.streams, t) && k < |s.streams|
    requires GapFree(s.streams[k], k, t, InSlot(s.slot, k))
    requires step == InboundStep(s, t, Choice(true, Taken))
    ensures step.action.SetStream? && step.action.key < |s.streams|
    ensures GapFree(s.streams[step.action.key := step.action.st][k], k, step.next, InSlot(s.slot, k))
  {
  }

  lemma RunKeepsNoGaps(s: Session, i: nat, c: Choice)
    requires Shape(s) && Carriers(s) && NoGaps(s) && i < |s.tasks| && CanRun(s, s.tasks[i], c)
    ensures Allows(s, StepOf(s, s.tasks[i], c).action)
    ensures NoGaps(Commit(s, i, StepOf(s, s.tasks[i], c)))
  {
    if i == 0 && s.tasks[0].Pushing? {
      PushKeepsNoGaps(s, c);
      return;
    }
    hide StepOf, Act, GapFree, Stuck, LoopTask, CarrierKey, IdsShape, SlotShape;
    var t := s.tasks[i];
    var step := StepOf(s, t, c);
    StepAllowed(s, t, c);
    NotPushing(s, i, t);
    var s' := Commit(s, i, step);
    NextNeverPushes(s, t, c);
    ActCount(s, step.action);
    forall k | 0 <= k < |s'.streams|
      ensures GapFree(s'.streams[k], k, s'.tasks[0], InSlot(s'.slot, k))
    {
      if k == |s.streams| {
        assert !PushesTo(s.tasks[0], k) by { LoopNames(s); }
        NewGapFree(step.action.id, |s.handled|, k, s'.tasks[0], InSlot(s'.slot, k));
      } else {
        RunGapFree(s, i, c, k);
      }
    }
  }

  lemma NotPushing(s: Session, i: nat, t: Task)
    requires Shape(s) && i < |s.tasks| && t == s.tasks[i] && (i > 0 || !t.Pushing?)
    ensures !t.Pushing?
  {
  }

  lemma LoopNames(s: Session)
    requires Shape(s)
    ensures s.tasks[0].Pushing? ==> s.tasks[0].key < |s.streams|
  {
    assert NamesStream(s.streams, s.tasks[0]);
  }

  lemma RunGapFree(s: Session, i: nat, c: Choice, k: nat)
    requires Shape(s) && Carriers(s) && NoGaps(s) && i < |s.tasks| && CanRun(s, s.tasks[i], c)
    requires k < |s.streams| && !s.tasks[i].Pushing?
    ensures Allows(s, StepOf(s, s.tasks[i], c).action)
    ensures var s' := Commit(s, i, StepOf(s, s.tasks[i], c));
            k < |s'.streams| && GapFree(s'.streams[k], k, s'.tasks[0], InSlot(s'.slot, k))
  {
    hide StepOf, Act, GapFree, Stuck, LoopTask, IdsShape, FinsGood;
    var t := s.tasks[i];
    var step := StepOf(s, t, c);
    StepAllowed(s, t, c);
    var s' := Commit(s, i, step);
    NextNeverPushes(s, t, c);
    ActCount(s, step.action);
    if !(step.action.SetStream? && step.action.key == k) {
      ActIsMild(s, step.action, k);
    }
    if i == 0 && InSlot(s.slot, k) && Stuck(t, s.streams[k].id) {
      StuckStays(s, c, k);
    }
    assert i > 0 ==> s'.tasks[0] == s.tasks[0];
    assert i == 0 ==> s'.tasks[0] == step.next;
    GapFreeMoves(s.streams[k], s'.streams[k], k, s.tasks[0], s'.tasks[0], InSlot(s.slot, k), InSlot(s'.slot, k));
  }

  /** What the receive loop's step for a frame does to the stream in the slot. */
  lemma FrameFacts(s: Session, f: Frame, ok: bool)
    requires SlotValid(s)
    ensures var step := FrameStep(s, f, ok);
            && (step.action.SetStream? ==>
                  && s.slot.Some? && step.action.key == s.Key() && f.command == Push && s.Holds(f.streamId)
                  && step.action.st == s.streams[s.Key()].Receive(f.data)
                  && step.next == Pushing(f.streamId, s.Key(), f.data))
            && (step.next.Pushing? ==> step.action.SetStream?)
            && (f.command == Push && s.Holds(f.streamId) ==> step.action.SetStream?)
            && (step.action.RaiseRemoteFin? ==> s.slot.Some? && !s.slot.value.remoteFin)
            && !step.action.Open?
  {
  }

  /** Between frames nothing was refused to the stream in the slot. */
  lemma IdleMeansAccepted(s: Session)
    requires NoGaps(s) && s.tasks[0] == Receiving && s.slot.Some? && SlotValid(s)
    requires !s.streams[s.Key()].skipped
    ensures !s.streams[s.Key()].refused && s.streams[s.Key()].received == s.streams[s.Key()].accepted
  {
    assert GapFree(s.streams[s.Key()], s.Key(), Receiving, true);
  }

  lemma FrameKeepsNoGaps(s: Session, f: Frame, ok: bool)
    requires Shape(s) && Carriers(s) && NoGaps(s) && s.tasks[0] == Receiving
    ensures SlotValid(s) && Allows(s, FrameStep(s, f, ok).action)
    ensures NoGaps(Commit(s, 0, FrameStep(s, f, ok)))
  {
    hide FrameStep, Act, GapFree, LoopTask, IdsShape, FinsGood, CarriersGood;
    FrameAllowed(s, f, ok);
    var step := FrameStep(s, f, ok);
    FrameFacts(s, f, ok);
    FrameCarrier(s, f, ok);
    var s' := Commit(s, 0, step);
    ActCount(s, step.action);
    forall k | 0 <= k < |s'.streams|
      ensures GapFree(s'.streams[k], k, s'.tasks[0], InSlot(s'.slot, k))
    {
      FrameGapFree(s, f, ok, k);
    }
  }

  lemma FrameGapFree(s: Session, f: Frame, ok: bool, k: nat)
    requires Shape(s) && Carriers(s) && NoGaps(s) && s.tasks[0] == Receiving && k < |s.streams|
    ensures SlotValid(s) && Allows(s, FrameStep(s, f, ok).action)
    ensures var s' := Commit(s, 0, FrameStep(s, f, ok));
            k < |s'.streams| && GapFree(s'.streams[k], k, s'.tasks[0], InSlot(s'.slot, k))
  {
    hide FrameStep, Act, LoopTask, IdsShape, CarriersGood;
    FrameAllowed(s, f, ok);
    var step := FrameStep(s, f, ok);
    FrameFacts(s, f, ok);
    FrameCarrier(s, f, ok);
    var s' := Commit(s, 0, step);
    ActCount(s, step.action);
    assert s'.tasks[0] == step.next;
    var st := s.streams[k];
    assert GapFree(st, k, Receiving, InSlot(s.slot, k));
    if step.action.SetStream? && step.action.key == k {
      if !st.skipped {
        IdleMeansAccepted(s);
      }
    } else if step.action.RaiseRemoteFin? {
      if k == s.Key() && !st.skipped {
        IdleMeansAccepted(s);
      }
    } else {
      ActIsMild(s, step.action, k);
      GapFreeMoves(st, s'.streams[k], k, Receiving, step.next, InSlot(s.slot, k), InSlot(s'.slot, k));
    }
  }

  lemma EffectKeepsNoGaps(s: Session, e: Event)
    requires Shape(s) && Carriers(s) && NoGaps(s) && OtherEvent(e) && Enabled(s, e)
    ensures Allows(s, EffectOf(s, e).action)
    ensures NoGaps(Act(s, EffectOf(s, e).action).(tasks := s.tasks + EffectOf(s, e).spawned))
  {
    hide EffectOf, Act, GapFree, LoopTask, IdsShape, FinsGood, CarriersGood;
    EffectAllowed(s, e);
    var effect := EffectOf(s, e);
    EffectCarrier(s, e);
    EffectContents(s, e);
    ActCount(s, effect.action);
    var s' := Act(s, effect.action).(tasks := s.tasks + effect.spawned);
    forall k | 0 <= k < |s'.streams|
      ensures GapFree(s'.streams[k], k, s'.tasks[0], InSlot(s'.slot, k))
    {
      if !(effect.action.SetStream? && effect.action.key == k) {
        ActIsMild(s, effect.action, k);
      }
      GapFreeMoves(s.streams[k], s'.streams[k], k, s.tasks[0], s.tasks[0], InSlot(s.slot, k), InSlot(s'.slot, k));
    }
  }

  lemma EffectContents(s: Session, e: Event)
    requires OtherEvent(e) && Enabled(s, e)
    ensures var action := EffectOf(s, e).action;
            && (action.SetStream? ==> action.key < |s.streams| && SameContents(s.streams[action.key], action.st))
            && !action.Open?
  {
  }

  lemma EndKeepsNoGaps(s: Session)
    requires NoGaps(s) && s.tasks[0] == Receiving
    ensures NoGaps(Commit(s, 0, Go(Stay, BeginShutdown(ThenEnd))))
  {
    hide GapFree;
    var s' := Commit(s, 0, Go(Stay, BeginShutdown(ThenEnd)));
    forall k | 0 <= k < |s'.streams|
      ensures GapFree(s'.streams[k], k, s'.tasks[0], InSlot(s'.slot, k))
    {
      var st, inSlot := s.streams[k], InSlot(s.slot, k);
      GapFreeMoves(st, st, k, Receiving, BeginShutdown(ThenEnd), inSlot, inSlot);
    }
  }

  // ---- what was received is what the handled frames carried ----

  /** The payload of the Push frames for one stream. */
  function PushPayload(fs: seq<Frame>, id: u32): seq<byte> {
    if fs == [] then []
    else
      var last := fs[|fs| - 1];
      PushPayload(fs[..|fs| - 1], id) + if last.command == Push && last.streamId == id then last.data else []
  }

  lemma PushPayloadSnoc(fs: seq<Frame>, f: Frame, id: u32)
    ensures PushPayload(fs + [f], id)
         == PushPayload(fs, id) + if f.command == Push && f.streamId == id then f.data else []
  {
    assert (fs + [f])[..|fs|] == fs;
  }

  ghost predicate FromFrames(st: Stream, handled: seq<Frame>, inSlot: bool) {
    && st.openedAt <= |handled|
    && st.received <= PushPayload(handled[st.openedAt..], st.id)
    && (inSlot ==> st.received == PushPayload(handled[st.openedAt..], st.id))
  }

  ghost predicate AllFromFrames(s: Session) {
    forall k :: 0 <= k < |s.streams| ==> FromFrames(s.streams[k], s.handled, InSlot(s.slot, k))
  }

  lemma ActKeepsFromFrames(s: Session, a: Action)
    requires DataShape(s) && AllFromFrames(s) && Allows(s, a) && KeepsNames(s, a)
    requires a.SetStream? ==> a.st.received == s.streams[a.key].received
    ensures AllFromFrames(Act(s, a))
    ensures Act(s, a).handled == s.handled
  {
    hide FromFrames, Act, IdsShape, SlotShape;
    ActCount(s, a);
    ActHandled(s, a);
    var s' := Act(s, a);
    forall k | 0 <= k < |s'.streams|
      ensures FromFrames(s'.streams[k], s'.handled, InSlot(s'.slot, k))
    {
      if k == |s.streams| {
        NewFromFrames(a.id, s.handled, InSlot(s'.slot, k));
      } else {
        ActReceived(s, a, k);
        FromFramesSame(s.streams[k], s'.streams[k], s.handled, InSlot(s.slot, k), InSlot(s'.slot, k));
      }
    }
  }

  lemma ActHandled(s: Session, a: Action)
    requires Allows(s, a)
    ensures Act(s, a).handled == s.handled
  {
  }

  lemma NewFromFrames(id: u32, handled: seq<Frame>, inSlot: bool)
    ensures FromFrames(NewStream(id, |handled|), handled, inSlot)
  {
    assert handled[|handled|..] == [];
  }

  lemma FromFramesSame(st: Stream, st': Stream, handled: seq<Frame>, inSlot: bool, inSlot': bool)
    requires FromFrames(st, handled, inSlot)
    requires st'.id == st.id && st'.openedAt == st.openedAt && st'.received == st.received
    requires inSlot' ==> inSlot
    ensures FromFrames(st', handled, inSlot')
  {
  }

  lemma ActReceived(s: Session, a: Action, k: nat)
    requires DataShape(s) && Allows(s, a) && KeepsNames(s, a) && k < |s.streams|
    requires a.SetStream? ==> a.st.received == s.streams[a.key].received
    ensures var s' := Act(s, a);
            && k < |s'.streams|
            && s'.streams[k].id == s.streams[k].id && s'.streams[k].openedAt == s.streams[k].openedAt
            && s'.streams[k].received == s.streams[k].received
            && (InSlot(s'.slot, k) ==> InSlot(s.slot, k))
  {
    if a.RaiseRemoteFin? {
    } else if a.SetStream? && a.key == k {
      SetIs(s, a);
    } else {
      ActIsMild(s, a, k);
      ActGrows(s, a);
    }
  }

  /** A frame that is no push for the slot's stream, or a push that is added to it. */
  lemma FrameKeepsFromFrames(s: Session, f: Frame, ok: bool)
    requires Shape(s) && AllFromFrames(s)
    ensures SlotValid(s) && Allows(s, FrameStep(s, f, ok).action)
    ensures AllFromFrames(Act(s, FrameStep(s, f, ok).action).(handled := s.handled + [f]))
  {
    hide FrameStep, Act, LoopTask, IdsShape, FromFrames;
    FrameAllowed(s, f, ok);
    FrameFacts(s, f, ok);
    var a := FrameStep(s, f, ok).action;
    ActCount(s, a);
    var s' := Act(s, a).(handled := s.handled + [f]);
    forall k | 0 <= k < |s'.streams|
      ensures FromFrames(s'.streams[k], s'.handled, InSlot(s'.slot, k))
    {
      if a.SetStream? {
        SetIs(s, a);
        FrameAdds(s.streams[k], s'.streams[k], s.handled, f, InSlot(s.slot, k));
      } else {
        ActReceived(s, a, k);
        NotAdded(s, f, k, a);
        FromFramesSame(s.streams[k], s.streams[k], s.handled, InSlot(s.slot, k), InSlot(s'.slot, k));
        FrameSkips(s.streams[k], s'.streams[k], s.handled, f, InSlot(s'.slot, k));
      }
    }
  }

  lemma NotAdded(s: Session, f: Frame, k: nat, a: Action)
    requires Shape(s) && k < |s.streams| && FromFrames(s.streams[k], s.handled, InSlot(s.slot, k))
    requires !(f.command == Push && s.Holds(f.streamId))
    ensures InSlot(s.slot, k) ==> !(f.command == Push && f.streamId == s.streams[k].id)
  {
  }

  lemma FrameSkips(st: Stream, st': Stream, handled: seq<Frame>, f: Frame, inSlot: bool)
    requires FromFrames(st, handled, inSlot)
    requires st'.id == st.id && st'.openedAt == st.openedAt && st'.received == st.received
    requires inSlot ==> !(f.command == Push && f.streamId == st.id)
    ensures FromFrames(st', handled + [f], inSlot)
  {
    assert (handled + [f])[st.openedAt..] == handled[st.openedAt..] + [f];
    PushPayloadSnoc(handled[st.openedAt..], f, st.id);
  }

  lemma FrameAdds(st: Stream, st': Stream, handled: seq<Frame>, f: Frame, inSlot: bool)
    requires FromFrames(st, handled, inSlot)
    requires st'.id == st.id && st'.openedAt == st.openedAt
    requires f.command == Push
    requires if inSlot then f.streamId == st.id && st' == st.Receive(f.data) else st' == st
    ensures FromFrames(st', handled + [f], inSlot)
  {
    assert (handled + [f])[st.openedAt..] == handled[st.openedAt..] + [f];
    PushPayloadSnoc(handled[st.openedAt..], f, st.id);
  }

  // ---- all of it, over every run ----

  ghost predicate Inv(s: Session) {
    Shape(s) && Carriers(s) && StreamsGood(s.streams) && NoGaps(s) && AllFromFrames(s)
  }

  lemma InitialInv(isClient: bool)
    ensures Inv(InitialSession(isClient))
  {
  }

  lemma RunTaskKeepsInv(s: Session, i: nat, c: Choice)
    requires Inv(s) && i < |s.tasks| && CanRun(s, s.tasks[i], c)
    ensures Allows(s, StepOf(s, s.tasks[i], c).action)
    ensures Inv(Commit(s, i, StepOf(s, s.tasks[i], c)))
  {
    hide StepOf, Act, Shape, Carriers, StreamsGood, NoGaps, FromFrames, StreamInv, CanRun, InSlot;
    RunKeepsShape(s, i, c);
    RunKeepsCarriers(s, i, c);
    RunKeepsNoGaps(s, i, c);
    RunKeepsContents(s, i, c);
  }

  lemma RunKeepsContents(s: Session, i: nat, c: Choice)
    requires Inv(s) && i < |s.tasks| && CanRun(s, s.tasks[i], c)
    ensures Allows(s, StepOf(s, s.tasks[i], c).action)
    ensures var s' := Commit(s, i, StepOf(s, s.tasks[i], c)); StreamsGood(s'.streams) && AllFromFrames(s')
  {
    hide StepOf, Act, StreamsGood, FromFrames, StreamInv, CanRun, NoGaps, SlotShape, IdsShape, TasksShape,
      CarriersGood, FinsGood;
    var a := StepOf(s, s.tasks[i], c).action;
    StepAllowed(s, s.tasks[i], c);
    StepStream(s, i, c);
    StepReceived(s, s.tasks[i], c);
    ActKeepsStreams(s, a);
    ActKeepsFromFrames(s, a);
  }

  lemma StepReceived(s: Session, t: Task, c: Choice)
    requires CanRun(s, t, c)
    ensures var a := StepOf(s, t, c).action;
            a.SetStream? ==> a.key < |s.streams| && a.st.received == s.streams[a.key].received
  {
  }

  lemma ReceiveKeepsInv(s: Session, f: Frame, ok: bool)
    requires Inv(s) && s.tasks[0] == Receiving
    ensures SlotValid(s) && Allows(s, FrameStep(s, f, ok).action)
    ensures Inv(Commit(s, 0, FrameStep(s, f, ok)).(handled := s.handled + [f]))
  {
    hide FrameStep, Act, StreamsGood, FromFrames, StreamInv, GapFree, SlotShape, IdsShape, LoopTask, NamesStream,
      CarriersGood, FinsGood;
    FrameKeepsShape(s, f, ok);
    FrameKeepsCarriers(s, f, ok);
    FrameKeepsNoGaps(s, f, ok);
    FrameStream(s, f, ok);
    ActKeepsStreams(s, FrameStep(s, f, ok).action);
    FrameKeepsFromFrames(s, f, ok);
  }

  lemma EffectKeepsInv(s: Session, e: Event)
    requires Inv(s) && OtherEvent(e) && Enabled(s, e)
    ensures Allows(s, EffectOf(s, e).action)
    ensures Inv(Act(s, EffectOf(s, e).action).(tasks := s.tasks + EffectOf(s, e).spawned))
  {
    hide EffectOf, Act, StreamsGood, FromFrames, StreamInv, GapFree, SlotShape, IdsShape, LoopTask, NamesStream,
      CarriersGood, FinsGood, Enabled;
    var a := EffectOf(s, e).action;
    EffectKeepsShape(s, e);
    EffectKeepsCarriers(s, e);
    EffectKeepsNoGaps(s, e);
    EffectAllowed(s, e);
    EffectStream(s, e);
    EffectContents(s, e);
    ActKeepsStreams(s, a);
    ActKeepsFromFrames(s, a);
  }

  lemma EndKeepsInv(s: Session)
    requires Inv(s) && s.tasks[0] == Receiving
    ensures Inv(Commit(s, 0, Go(Stay, BeginShutdown(ThenEnd))))
  {
    hide StreamsGood, FromFrames, StreamInv, GapFree, SlotShape, IdsShape, LoopTask, NamesStream, CarriersGood,
      FinsGood;
    EndKeepsShape(s);
    EndKeepsCarriers(s);
    EndKeepsNoGaps(s);
  }

  lemma NextKeepsInv(s: Session, s': Session)
    requires Inv(s) && Next(s, s')
    ensures Inv(s')
  {
    hide StepOf, FrameStep, EffectOf, Act, CanRun, SlotShape, IdsShape, LoopTask, NamesStream, Carriers, StreamsGood,
      GapFree, FromFrames;
    var e :| Enabled(s, e) && NextBy(s, e, s');
    match e
    case RunTask(i, choice) => RunTaskKeepsInv(s, i, choice);
    case ReceiveFrame(f, ok) => ReceiveKeepsInv(s, f, ok);
    case ReceiveEnds => EndKeepsInv(s);
    case _ => EffectKeepsInv(s, e);
  }

  lemma {:induction false} RunInv(run: seq<Session>)
    requires IsRun(run)
    ensures Inv(run[|run| - 1])
    decreases |run|
  {
    hide Inv, Next, InitialSession;
    if |run| == 1 {
      InitialInv(run[0].isClient);
    } else {
      RunInv(run[..|run| - 1]);
      NextKeepsInv(run[|run| - 2], run[|run| - 1]);
    }
  }

  /** What the invariant says of one stream. */
  lemma StreamFacts(s: Session, k: nat)
    requires Inv(s) && k < |s.streams|
    ensures StreamInv(s.streams[k])
    ensures s.tasks != [] && GapFree(s.streams[k], k, s.tasks[0], InSlot(s.slot, k))
    ensures FromFrames(s.streams[k], s.handled, InSlot(s.slot, k))
  {
    hide Shape, Carriers, GapFree, StreamInv, FromFrames;
  }

  /** An end of stream that comes from the peer's FIN comes after every payload that preceded it. */
  lemma EofFacts(s: Session, k: nat)
    requires Inv(s) && k < |s.streams| && s.streams[k].eof && !s.streams[k].skipped
    ensures var st := s.streams[k];
            && st.finReceived.Some? && st.finReceived.value <= |st.received|
            && st.received[..st.finReceived.value] <= st.delivered <= st.received
            && (st.finReceived.value == |st.received| ==> st.delivered == st.received)
  {
    hide Inv;
    StreamFacts(s, k);
    var st := s.streams[k];
    assert st.accepted <= st.received;
    assert st.delivered == st.accepted[..st.finQueued.value];
    assert st.received[..st.finReceived.value] == st.accepted[..st.finReceived.value];
  }

  /**
   * Inbound queue conservation, for every stream of every run: free permits and held bytes total
   * 1 MiB and at most 65 messages wait; while the pump runs, what was delivered, is in flight and
   * is queued is what was accepted; and what was accepted is a gap-free prefix of the payload the
   * handled Push frames carried for that stream since it was opened.
   */
  lemma InboundConservation(run: seq<Session>, s: Session, k: nat)
    requires IsRun(run) && s == run[|run| - 1] && k < |s.streams|
    ensures var st := s.streams[k];
            && st.permits + HeldByPump(st) + HeldBytes(st.queue) == INBOUND_PUSH_QUEUE_BYTES
            && |st.queue| <= CHANNEL_CAPACITY
            && (st.Live() ==> st.delivered + InFlight(st) + QueuedData(st.queue) == st.accepted)
            && st.delivered <= st.accepted
            && (!st.skipped ==> st.accepted <= st.received)
            && st.openedAt <= |s.handled|
            && st.received <= PushPayload(s.handled[st.openedAt..], st.id)
  {
    hide Inv;
    RunInv(run);
    StreamFacts(s, k);
  }

  /**
   * An end of stream that comes from the peer's FIN comes after every payload that preceded the
   * FIN; with no push after it, the application has then read exactly what was received.
   */
  lemma EofIsComplete(run: seq<Session>, s: Session, k: nat)
    requires IsRun(run) && s == run[|run| - 1] && k < |s.streams|
    requires s.streams[k].eof && !s.streams[k].skipped
    ensures var st := s.streams[k];
            && st.finReceived.Some? && st.finReceived.value <= |st.received|
            && st.received[..st.finReceived.value] <= st.delivered <= st.received
            && (st.finReceived.value == |st.received| ==> st.delivered == st.received)
  {
    RunInv(run);
    EofFacts(s, k);
  }
}
