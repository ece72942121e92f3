/**
 * Half-close: in whatever order the local FIN, the remote FIN and the drained read side come, some
 * task owes a finished stream its finish check, and one whose handle is gone its retirement.
 */
module HalfCloses {
  import opened Wrappers
  import opened Bytes
  import opened Frames
  import opened Inbound
  import opened Sessions
  import opened SessionInvariants
  import opened StreamInvariants

  // ---- who owes a finish check ----

  /** The task will run `finish_stream_if_closed` for the id, unless the session or writer ends. */
  predicate Owes(t: Task, id: u32) {
    match t
    case MarkReadClosed(id', _) => id' == id
    case CheckFinish(id', _) => id' == id
    case Remove(id', _, _) => id' == id
    case SendingFin(id', kind, remoteFin) => id' == id && (remoteFin || kind == DropStream)
    case MarkingFin(id', _) => id' == id
    case FinFull(id', _) => id' == id
    case FinWaiter(id', _) => id' == id
    case _ => false
  }

  /** The FIN mark waits in the queue of a running pump. */
  predicate FinWaits(st: Stream) {
    st.Live() && FinMark in st.queue
  }

  ghost predicate SomeOwes(tasks: seq<Task>, id: u32) {
    exists i :: 0 <= i < |tasks| && Owes(tasks[i], id)
  }

  ghost predicate Owed(s: Session)
    requires s.slot.Some? && SlotValid(s)
  {
    SomeOwes(s.tasks, s.slot.value.id) || FinWaits(s.streams[s.Key()])
  }

  /** Some task owes the check, or the FIN mark went to a pump that had already left its loop. */
  ghost predicate NotLost(s: Session) {
    s.distinct && s.slot.Some? && SlotValid(s) && s.slot.value.Finished() && !s.Ended() ==>
      Owed(s) || s.streams[s.Key()].finMissed
  }

  lemma OwesAt(tasks: seq<Task>, i: nat, id: u32)
    requires i < |tasks| && Owes(tasks[i], id)
    ensures SomeOwes(tasks, id)
  {
  }

  /** Another task's debt survives a step of task `i`. */
  lemma OthersStillOwe(tasks: seq<Task>, i: nat, next: Task, spawned: seq<Task>, id: u32)
    requires i < |tasks| && SomeOwes(tasks, id)
    requires Owes(tasks[i], id) ==> SomeOwes(tasks[i := next] + spawned, id)
    ensures SomeOwes(tasks[i := next] + spawned, id)
  {
    hide Owes;
    var j :| 0 <= j < |tasks| && Owes(tasks[j], id);
    if j != i {
      assert (tasks[i := next] + spawned)[j] == tasks[j];
    }
  }

  /** The task's own debt: after its step it still owes, or the FIN mark waits or was missed. */
  predicate DebtKept(s: Session, step: Step)
    requires s.slot.Some? && Allows(s, step.action)
  {
    var s' := Act(s, step.action);
    s'.slot.Some? ==>
      || Owes(step.next, s.slot.value.id)
      || (step.spawned != [] && Owes(step.spawned[0], s.slot.value.id))
      || (s.Key() < |s'.streams| && (FinWaits(s'.streams[s.Key()]) || s'.streams[s.Key()].finMissed))
  }

  lemma InboundDebt(s: Session, t: Task, c: Choice)
    requires InboundTask(t) && CanRun(s, t, c) && s.slot.Some? && Owes(t, s.slot.value.id)
    requires CarrierKey(t) == Some(s.Key()) && SlotShape(s.slot, s.streams)
    requires Allows(s, InboundStep(s, t, c).action)
    ensures DebtKept(s, InboundStep(s, t, c))
  {
  }

  lemma ReleaseDebt(s: Session, t: Task)
    requires ReleaseTask(t) && s.slot.Some? && s.slot.value.Finished() && Owes(t, s.slot.value.id)
    requires Allows(s, ReleaseStep(s, t).action)
    ensures DebtKept(s, ReleaseStep(s, t))
  {
  }

  lemma ClosingDebt(s: Session, t: Task, c: Choice)
    requires ClosingTask(t) && CanRun(s, t, c) && s.slot.Some? && !s.Ended() && Owes(t, s.slot.value.id)
    requires Allows(s, ClosingStep(s, t, c).action)
    ensures DebtKept(s, ClosingStep(s, t, c))
  {
  }

  /** With distinct ids, a task that carries the FIN mark of the id in the slot carries that of the slot's stream. */
  lemma CarriesOwn(s: Session, i: nat)
    requires Shape(s) && s.distinct && i < |s.tasks| && s.slot.Some? && InboundTask(s.tasks[i])
    requires Owes(s.tasks[i], s.slot.value.id)
    ensures CarrierKey(s.tasks[i]) == Some(s.Key())
  {
    assert NamesStream(s.streams, s.tasks[i]);
  }

  lemma OwnDebt(s: Session, i: nat, c: Choice)
    requires Shape(s) && s.distinct && i < |s.tasks| && CanRun(s, s.tasks[i], c)
    requires s.slot.Some? && s.slot.value.Finished() && !s.Ended()
    requires Owes(s.tasks[i], s.slot.value.id)
    ensures Allows(s, StepOf(s, s.tasks[i], c).action) && DebtKept(s, StepOf(s, s.tasks[i], c))
  {
    hide InboundStep, AdmissionStep, ReleaseStep, ClosingStep, DebtKept, CanRun, SlotShape, IdsShape, TasksShape,
      Allows;
    var t := s.tasks[i];
    StepAllowed(s, t, c);
    if InboundTask(t) {
      CarriesOwn(s, i);
      InboundDebt(s, t, c);
    } else if ReleaseTask(t) {
      ReleaseDebt(s, t);
    } else {
      ClosingDebt(s, t, c);
    }
  }

  predicate Marked(st: Stream) {
    FinWaits(st) || st.finMissed
  }

  /** A mark in a queue, and the note of a missed one, survive an action that does not touch them. */
  lemma ActKeepsMark(s: Session, a: Action)
    requires s.slot.Some? && SlotValid(s) && Marked(s.streams[s.Key()]) && Allows(s, a)
    requires a.SetStream? && a.key == s.Key() ==> Marked(a.st)
    ensures s.Key() < |Act(s, a).streams| && Marked(Act(s, a).streams[s.Key()])
  {
  }

  lemma InboundKeepsMark(s: Session, t: Task, c: Choice)
    requires InboundTask(t) && CanRun(s, t, c) && s.slot.Some? && SlotValid(s) && Marked(s.streams[s.Key()])
    ensures var a := InboundStep(s, t, c).action;
            a.SetStream? && a.key == s.Key() ==> Marked(a.st)
  {
  }

  lemma MarkSurvives(s: Session, t: Task, c: Choice)
    requires Shape(s) && CanRun(s, t, c) && s.slot.Some? && SlotValid(s) && Marked(s.streams[s.Key()])
    ensures Allows(s, StepOf(s, t, c).action)
    ensures var s' := Act(s, StepOf(s, t, c).action);
            s.Key() < |s'.streams| && Marked(s'.streams[s.Key()])
  {
    hide InboundStep, AdmissionStep, ReleaseStep, ClosingStep, Act, Marked, CanRun, SlotShape, IdsShape, TasksShape,
      Allows;
    StepAllowed(s, t, c);
    if InboundTask(t) {
      InboundKeepsMark(s, t, c);
    } else {
      NoSetStream(s, t, c);
    }
    ActKeepsMark(s, StepOf(s, t, c).action);
  }

  /** The flag that completes a stream is raised by a task that then owes the check. */
  lemma LastFlagOwes(s: Session, t: Task, c: Choice)
    requires CanRun(s, t, c) && s.slot.Some? && !s.slot.value.Finished()
    ensures var step := StepOf(s, t, c);
            && !step.action.RaiseRemoteFin?
            && (step.action.RaiseLocalFin? && s.slot.value.remoteFin ==> Owes(step.next, s.slot.value.id))
            && (step.action.RaiseReadClosed? ==> Owes(step.next, s.slot.value.id))
  {
  }

  /** An action that leaves a finished stream in the slot found it finished, or raised its last flag. */
  lemma FinishedBefore(s: Session, a: Action)
    requires Allows(s, a) && Act(s, a).slot.Some? && Act(s, a).slot.value.Finished()
    ensures s.slot.Some? && Act(s, a).slot.value.id == s.slot.value.id && Act(s, a).slot.value.key == s.slot.value.key
    ensures s.slot.value.Finished() || a.RaiseRemoteFin? || a.RaiseReadClosed?
            || (a.RaiseLocalFin? && s.slot.value.remoteFin)
    ensures Act(s, a).distinct ==> s.distinct
    ensures !Act(s, a).Ended() ==> !s.Ended()
  {
  }

  lemma RunKeepsNotLost(s: Session, i: nat, c: Choice)
    requires Inv(s) && NotLost(s) && i < |s.tasks| && CanRun(s, s.tasks[i], c)
    ensures Allows(s, StepOf(s, s.tasks[i], c).action)
    ensures NotLost(Commit(s, i, StepOf(s, s.tasks[i], c)))
  {
    hide StepOf, Act, Owes, FinWaits, SomeOwes, CanRun, SlotShape, IdsShape, TasksShape, Carriers, StreamsGood,
      NoGaps, AllFromFrames;
    var t := s.tasks[i];
    var step := StepOf(s, t, c);
    RunTaskKeepsInv(s, i, c);
    var s' := Commit(s, i, step);
    if s'.distinct && s'.slot.Some? && s'.slot.value.Finished() && !s'.Ended() {
      FinishedBefore(s, step.action);
      ShapeValid(s);
      ShapeValid(s');
      var id := s.slot.value.id;
      if !s.slot.value.Finished() {
        LastFlagOwes(s, t, c);
        OwesAt(s'.tasks, i, id);
      } else if Owes(t, id) {
        OwnDebt(s, i, c);
        if step.spawned != [] && Owes(step.spawned[0], id) {
          OwesAt(s'.tasks, |s.tasks|, id);
        } else if Owes(step.next, id) {
          OwesAt(s'.tasks, i, id);
        }
      } else if SomeOwes(s.tasks, id) {
        OthersStillOwe(s.tasks, i, step.next, step.spawned, id);
      } else {
        MarkSurvives(s, t, c);
      }
    }
  }

  lemma ShapeValid(s: Session)
    requires Shape(s)
    ensures SlotValid(s)
  {
  }

  lemma FrameKeepsNotLost(s: Session, f: Frame, ok: bool)
    requires Inv(s) && NotLost(s) && s.tasks[0] == Receiving
    ensures SlotValid(s) && Allows(s, FrameStep(s, f, ok).action)
    ensures NotLost(Commit(s, 0, FrameStep(s, f, ok)).(handled := s.handled + [f]))
  {
    hide FrameStep, Act, Owes, FinWaits, SomeOwes, SlotShape, IdsShape, LoopTask, NamesStream, Carriers, StreamsGood,
      NoGaps, AllFromFrames;
    ReceiveKeepsInv(s, f, ok);
    var step := FrameStep(s, f, ok);
    FrameCarrier(s, f, ok);
    FrameRaises(s, f, ok);
    var s' := Commit(s, 0, step).(handled := s.handled + [f]);
    if s'.distinct && s'.slot.Some? && s'.slot.value.Finished() && !s'.Ended() {
      FinishedBefore(s, step.action);
      ShapeValid(s');
      var id := s.slot.value.id;
      if step.action.RaiseRemoteFin? {
        OwesAt(s'.tasks, 0, id);
      } else if SomeOwes(s.tasks, id) {
        OthersStillOwe(s.tasks, 0, step.next, step.spawned, id);
      } else {
        FrameMarkSurvives(s, f, ok);
      }
    }
  }

  lemma FrameRaises(s: Session, f: Frame, ok: bool)
    requires SlotValid(s)
    ensures var step := FrameStep(s, f, ok);
            && !step.action.RaiseLocalFin? && !step.action.RaiseReadClosed?
            && (step.action.RaiseRemoteFin? ==> s.slot.Some? && Owes(step.next, s.slot.value.id))
            && (forall id :: !Owes(Receiving, id))
  {
  }

  lemma FrameMarkSurvives(s: Session, f: Frame, ok: bool)
    requires SlotValid(s) && Allows(s, FrameStep(s, f, ok).action) && s.slot.Some?
    requires FinWaits(s.streams[s.Key()]) || s.streams[s.Key()].finMissed
    requires !FrameStep(s, f, ok).action.RaiseRemoteFin?
    ensures var s' := Act(s, FrameStep(s, f, ok).action);
            s'.slot.Some? && s'.Key() == s.Key() ==>
              s.Key() < |s'.streams| && (FinWaits(s'.streams[s.Key()]) || s'.streams[s.Key()].finMissed)
  {
  }

  lemma EffectKeepsNotLost(s: Session, e: Event)
    requires Inv(s) && NotLost(s) && OtherEvent(e) && Enabled(s, e)
    ensures Allows(s, EffectOf(s, e).action)
    ensures NotLost(Act(s, EffectOf(s, e).action).(tasks := s.tasks + EffectOf(s, e).spawned))
  {
    hide EffectOf, Act, Owes, FinWaits, SomeOwes, SlotShape, IdsShape, LoopTask, NamesStream, Carriers, StreamsGood,
      NoGaps, AllFromFrames, Enabled;
    EffectKeepsInv(s, e);
    var effect := EffectOf(s, e);
    var s' := Act(s, effect.action).(tasks := s.tasks + effect.spawned);
    EffectRaises(s, e);
    if s'.distinct && s'.slot.Some? && s'.slot.value.Finished() && !s'.Ended() {
      FinishedBefore(s, effect.action);
      ShapeValid(s);
      ShapeValid(s');
      var id := s.slot.value.id;
      if SomeOwes(s.tasks, id) {
        StillOwes(s.tasks, effect.spawned, id);
      } else {
        EffectMarkSurvives(s, e);
        if effect.spawned != [] && Owes(effect.spawned[0], id) {
          OwesAt(s'.tasks, |s.tasks|, id);
        }
      }
    }
  }

  lemma EffectRaises(s: Session, e: Event)
    requires OtherEvent(e) && Enabled(s, e)
    ensures var a := EffectOf(s, e).action;
            !a.RaiseLocalFin? && !a.RaiseReadClosed? && !a.RaiseRemoteFin? && !a.Free? && !a.Drain? && !a.Open?
  {
  }

  lemma StillOwes(tasks: seq<Task>, spawned: seq<Task>, id: u32)
    requires SomeOwes(tasks, id)
    ensures SomeOwes(tasks + spawned, id)
  {
    hide Owes;
    var j :| 0 <= j < |tasks| && Owes(tasks[j], id);
    assert (tasks + spawned)[j] == tasks[j];
  }

  /** After an event the mark is still where it was, or the task it started owes the check. */
  predicate MarkKept(s: Session, effect: Effect)
    requires s.slot.Some? && Allows(s, effect.action)
  {
    var s' := Act(s, effect.action);
    && s.Key() < |s'.streams|
    && (FinWaits(s'.streams[s.Key()]) || s'.streams[s.Key()].finMissed
        || (effect.spawned != [] && Owes(effect.spawned[0], s.slot.value.id)))
  }

  /** A pump that takes the mark, or fails, owes the check. */
  lemma RecvMarkKept(s: Session, e: Event)
    requires DataShape(s) && e.PumpRecv? && Enabled(s, e) && s.slot.Some? && SlotValid(s)
    requires FinWaits(s.streams[s.Key()]) || s.streams[s.Key()].finMissed
    ensures Allows(s, EffectOf(s, e).action) && MarkKept(s, EffectOf(s, e))
  {
    hide IdsShape;
    var queue := s.streams[e.key].queue;
    assert queue == [queue[0]] + queue[1..];
  }

  lemma OtherMarkKept(s: Session, e: Event)
    requires DataShape(s) && OtherEvent(e) && !e.PumpRecv? && Enabled(s, e) && s.slot.Some? && SlotValid(s)
    requires FinWaits(s.streams[s.Key()]) || s.streams[s.Key()].finMissed
    requires Allows(s, EffectOf(s, e).action)
    ensures MarkKept(s, EffectOf(s, e))
  {
    hide IdsShape;
  }

  lemma EffectMarkSurvives(s: Session, e: Event)
    requires Shape(s) && OtherEvent(e) && Enabled(s, e) && s.slot.Some? && SlotValid(s)
    requires FinWaits(s.streams[s.Key()]) || s.streams[s.Key()].finMissed
    ensures Allows(s, EffectOf(s, e).action) && MarkKept(s, EffectOf(s, e))
  {
    hide EffectOf, Enabled, MarkKept, FinWaits, SlotShape, IdsShape, TasksShape, Allows;
    EffectAllowed(s, e);
    if e.PumpRecv? {
      RecvMarkKept(s, e);
    } else {
      OtherMarkKept(s, e);
    }
  }

  lemma EndKeepsNotLost(s: Session)
    requires NotLost(s) && s.tasks != [] && s.tasks[0] == Receiving
    ensures NotLost(Commit(s, 0, Go(Stay, BeginShutdown(ThenEnd))))
  {
    var s' := Commit(s, 0, Go(Stay, BeginShutdown(ThenEnd)));
    if s'.distinct && s'.slot.Some? && SlotValid(s') && s'.slot.value.Finished() && !s'.Ended() {
      if SomeOwes(s.tasks, s.slot.value.id) {
        OthersStillOwe(s.tasks, 0, BeginShutdown(ThenEnd), [], s.slot.value.id);
      }
    }
  }

  // ---- a stream whose handle was closed or dropped is retired ----

  /** The task will retire the stream: remove it, time its close out, or shut the session down. */
  predicate Retires(t: Task, id: u32) {
    match t
    case StartFin(id', kind) => id' == id && kind != HalfClose
    case SendingFin(id', kind, _) => id' == id && kind != HalfClose
    case CheckFinish(_, after) => after.ThenRetire? && after.id == id
    case Remove(id', _, after) => id' == id || (after.ThenRetire? && after.id == id)
    case BecameIdle(after) => after.ThenRetire? && after.id == id
    case Retire(id', _) => id' == id
    case RetireTimer(id') => id' == id
    case BeginShutdown(_) => true
    case _ => false
  }

  ghost predicate SomeRetires(tasks: seq<Task>, id: u32) {
    exists i :: 0 <= i < |tasks| && Retires(tasks[i], id)
  }

  ghost predicate RetireOwed(s: Session) {
    s.slot.Some? && SlotValid(s) && s.streams[s.Key()].handle != Held && !s.Ended() ==>
      SomeRetires(s.tasks, s.slot.value.id)
  }

  lemma RetiresAt(tasks: seq<Task>, i: nat, id: u32)
    requires i < |tasks| && Retires(tasks[i], id)
    ensures SomeRetires(tasks, id)
  {
  }

  lemma OwnRetireClosing(s: Session, t: Task, c: Choice)
    requires ClosingTask(t) && CanRun(s, t, c) && s.slot.Some? && Retires(t, s.slot.value.id)
    requires Allows(s, ClosingStep(s, t, c).action)
    ensures Act(s, ClosingStep(s, t, c).action).slot.Some?
    ensures Retires(ClosingStep(s, t, c).next, s.slot.value.id)
  {
  }

  lemma OwnRetireRelease(s: Session, t: Task)
    requires ReleaseTask(t) && s.slot.Some? && Retires(t, s.slot.value.id)
    requires Allows(s, ReleaseStep(s, t).action)
    ensures var step := ReleaseStep(s, t);
            var s' := Act(s, step.action);
            s'.slot.Some? && !s'.Ended() ==> Retires(step.next, s.slot.value.id)
  {
  }

  lemma OwnRetire(s: Session, t: Task, c: Choice)
    requires CanRun(s, t, c) && s.slot.Some? && Retires(t, s.slot.value.id)
    requires Allows(s, StepOf(s, t, c).action)
    ensures var step := StepOf(s, t, c);
            var s' := Act(s, step.action);
            s'.slot.Some? && !s'.Ended() ==> Retires(step.next, s.slot.value.id)
  {
    hide InboundStep, AdmissionStep, ReleaseStep, ClosingStep, Act, CanRun, Allows;
    if ReleaseTask(t) {
      OwnRetireRelease(s, t);
    } else {
      OwnRetireClosing(s, t, c);
    }
  }

  lemma OthersStillRetire(tasks: seq<Task>, i: nat, next: Task, spawned: seq<Task>, id: u32)
    requires i < |tasks| && SomeRetires(tasks, id)
    requires Retires(tasks[i], id) ==> Retires(next, id)
    ensures SomeRetires(tasks[i := next] + spawned, id)
  {
    hide Retires;
    var j :| 0 <= j < |tasks| && Retires(tasks[j], id);
    var tasks' := tasks[i := next] + spawned;
    assert j != i ==> tasks'[j] == tasks[j];
    assert j == i ==> Retires(tasks'[i], id);
  }

  /** Handles change only through the application's close and drop. */
  lemma ActHandle(s: Session, a: Action)
    requires DataShape(s) && Allows(s, a) && KeepsNames(s, a)
    requires a.SetStream? ==> a.st.handle == s.streams[a.key].handle
    requires Act(s, a).slot.Some? && Act(s, a).slot.value.key < |Act(s, a).streams|
    requires Act(s, a).streams[Act(s, a).Key()].handle != Held
    ensures s.slot.Some? && s.Key() == Act(s, a).Key() && s.slot.value.id == Act(s, a).slot.value.id
    ensures SlotValid(s) && s.streams[s.Key()].handle == Act(s, a).streams[s.Key()].handle
  {
  }

  lemma StepHandle(s: Session, t: Task, c: Choice)
    requires CanRun(s, t, c)
    ensures var a := StepOf(s, t, c).action;
            a.SetStream? ==> a.key < |s.streams| && a.st.handle == s.streams[a.key].handle
  {
  }

  lemma RunKeepsRetireOwed(s: Session, i: nat, c: Choice)
    requires Inv(s) && RetireOwed(s) && i < |s.tasks| && CanRun(s, s.tasks[i], c)
    ensures Allows(s, StepOf(s, s.tasks[i], c).action)
    ensures RetireOwed(Commit(s, i, StepOf(s, s.tasks[i], c)))
  {
    hide StepOf, Act, Retires, SomeRetires, CanRun, SlotShape, IdsShape, TasksShape, Carriers, StreamsGood, NoGaps,
      AllFromFrames;
    var t := s.tasks[i];
    var step := StepOf(s, t, c);
    StepAllowed(s, t, c);
    StepHandle(s, t, c);
    var s' := Commit(s, i, step);
    if s'.slot.Some? && SlotValid(s') && s'.streams[s'.Key()].handle != Held && !s'.Ended() {
      ActHandle(s, step.action);
      EndedStays(s, step.action);
      var id := s.slot.value.id;
      if Retires(t, id) {
        OwnRetire(s, t, c);
      }
      OthersStillRetire(s.tasks, i, step.next, step.spawned, id);
    }
  }

  lemma EndedStays(s: Session, a: Action)
    requires Allows(s, a)
    ensures s.Ended() ==> Act(s, a).Ended()
    ensures s.closed ==> Act(s, a).closed
    ensures Act(s, a).isClient == s.isClient
  {
  }

  lemma FrameKeepsRetireOwed(s: Session, f: Frame, ok: bool)
    requires Inv(s) && RetireOwed(s) && s.tasks[0] == Receiving
    ensures SlotValid(s) && Allows(s, FrameStep(s, f, ok).action)
    ensures RetireOwed(Commit(s, 0, FrameStep(s, f, ok)).(handled := s.handled + [f]))
  {
    hide FrameStep, Act, Retires, SomeRetires, SlotShape, IdsShape, LoopTask, NamesStream, Carriers, StreamsGood,
      NoGaps, AllFromFrames;
    FrameAllowed(s, f, ok);
    FrameFacts(s, f, ok);
    var step := FrameStep(s, f, ok);
    var s' := Commit(s, 0, step).(handled := s.handled + [f]);
    if s'.slot.Some? && SlotValid(s') && s'.streams[s'.Key()].handle != Held && !s'.Ended() {
      ActHandle(s, step.action);
      EndedStays(s, step.action);
      NotRetiring(s.slot.value.id);
      OthersStillRetire(s.tasks, 0, step.next, step.spawned, s.slot.value.id);
    }
  }

  lemma NotRetiring(id: u32)
    ensures !Retires(Receiving, id)
  {
  }

  lemma EffectKeepsRetireOwed(s: Session, e: Event)
    requires Inv(s) && RetireOwed(s) && OtherEvent(e) && Enabled(s, e)
    ensures Allows(s, EffectOf(s, e).action)
    ensures RetireOwed(Act(s, EffectOf(s, e).action).(tasks := s.tasks + EffectOf(s, e).spawned))
  {
    hide EffectOf, Act, Retires, SomeRetires, SlotShape, IdsShape, LoopTask, NamesStream, Carriers, StreamsGood,
      NoGaps, AllFromFrames, Enabled;
    EffectAllowed(s, e);
    var effect := EffectOf(s, e);
    var s' := Act(s, effect.action).(tasks := s.tasks + effect.spawned);
    if s'.slot.Some? && SlotValid(s') && s'.streams[s'.Key()].handle != Held && !s'.Ended() {
      EndedStays(s, effect.action);
      EffectHandle(s, e);
      ShapeValid(s);
      if effect.spawned != [] && Retires(effect.spawned[0], s.slot.value.id) {
        RetiresAt(s'.tasks, |s.tasks|, s.slot.value.id);
      } else {
        StillRetires(s.tasks, effect.spawned, s.slot.value.id);
      }
    }
  }

  lemma StillRetires(tasks: seq<Task>, spawned: seq<Task>, id: u32)
    requires SomeRetires(tasks, id)
    ensures SomeRetires(tasks + spawned, id)
  {
    hide Retires;
    var j :| 0 <= j < |tasks| && Retires(tasks[j], id);
    assert (tasks + spawned)[j] == tasks[j];
  }

  lemma EffectHandle(s: Session, e: Event)
    requires Shape(s) && OtherEvent(e) && Enabled(s, e) && Allows(s, EffectOf(s, e).action)
    requires var s' := Act(s, EffectOf(s, e).action);
             s'.slot.Some? && SlotValid(s') && s'.streams[s'.Key()].handle != Held && !s'.Ended()
    ensures var s' := Act(s, EffectOf(s, e).action);
            && s.slot.Some? && s.Key() == s'.Key() && s.slot.value.id == s'.slot.value.id
            && (s.streams[s.Key()].handle != Held
                || (EffectOf(s, e).spawned != [] && Retires(EffectOf(s, e).spawned[0], s.slot.value.id)))
  {
  }

  lemma EndKeepsRetireOwed(s: Session)
    requires RetireOwed(s) && s.tasks != [] && s.tasks[0] == Receiving
    ensures RetireOwed(Commit(s, 0, Go(Stay, BeginShutdown(ThenEnd))))
  {
    var s' := Commit(s, 0, Go(Stay, BeginShutdown(ThenEnd)));
    if s'.slot.Some? {
      RetiresAt(s'.tasks, 0, s'.slot.value.id);
    }
  }
}
