/**
 * What holds over every run of a session: half-close triggers are not lost, release is safe, closed
 * and ended sessions stay empty, removals and idle notices balance, and streams are admitted only as
 * the protocol allows.
 */
module SessionTheorems {
  import opened Wrappers
  import opened Bytes
  import opened Frames
  import opened Inbound
  import opened Sessions
  import opened SessionInvariants
  import opened StreamInvariants
  import opened HalfCloses
  import opened Releases

  /**
   * No lost half-close trigger. A finished stream that is still in the slot of a running session is
   * owed a finish check by some task, or by its pump through the queued FIN mark. The one exception
   * is a FIN mark queued after the pump had left its loop; the application has then dropped the
   * stream, and some task still owes its retirement.
   */
  lemma NoLostTrigger(run: seq<Session>, s: Session)
    requires IsRun(run) && s == run[|run| - 1]
    requires s.distinct && s.slot.Some? && s.slot.value.Finished() && !s.Ended()
    ensures SlotValid(s)
    ensures var st := s.streams[s.Key()];
            Owed(s) || (st.finMissed && st.handle == Dropped && SomeRetires(s.tasks, s.slot.value.id))
  {
    hide Owed, SomeRetires, Shape, Carriers, StreamsGood, NoGaps, AllFromFrames, GracefulOk, ClosedOk, NoticesOk,
      AdmissionOk;
    RunFullInv(run);
    ShapeValid(s);
  }

  /** As long as the application keeps its end of the stream, the check is owed without exception. */
  lemma KeptStreamIsOwed(run: seq<Session>, s: Session)
    requires IsRun(run) && s == run[|run| - 1]
    requires s.distinct && s.slot.Some? && s.slot.value.Finished() && !s.Ended()
    requires SlotValid(s) ==> s.streams[s.Key()].handle != Dropped
    ensures SlotValid(s) && Owed(s)
  {
    hide Owed, SomeRetires;
    NoLostTrigger(run, s);
  }

  /** A removal made because a stream was found finished removes a finished stream, however late. */
  lemma GracefulRemovalIsFinished(run: seq<Session>, s: Session, i: nat)
    requires IsRun(run) && s == run[|run| - 1]
    requires i < |s.tasks| && GracefulRemove(s.tasks[i])
    requires s.distinct && s.Holds(s.tasks[i].id)
    ensures s.slot.value.Finished()
  {
    hide Inv, NotLost, RetireOwed, SlotLeftWhy, ClosedOk, NoticesOk, AdmissionOk;
    RunFullInv(run);
  }

  /** The stream id a task works for. */
  function TaskId(s: Session, t: Task): Option<u32> {
    match t
    case Pushing(id, _, _) => Some(id)
    case Overload(id) => Some(id)
    case MarkingFin(id, _) => Some(id)
    case FinFull(id, _) => Some(id)
    case FinWaiter(id, _) => Some(id)
    case Admitting(id) => Some(id)
    case Rejecting(id, _) => Some(id)
    case Offering(id) => Some(id)
    case OfferFull(id) => Some(id)
    case MarkReadClosed(id, _) => Some(id)
    case CheckFinish(id, _) => Some(id)
    case Remove(id, _, _) => Some(id)
    case StartFin(id, _) => Some(id)
    case SendingFin(id, _, _) => Some(id)
    case Retire(id, _) => Some(id)
    case RetireTimer(id) => Some(id)
    case Reserving(id) => Some(id)
    case Opening(id) => Some(id)
    case PumpDrop(key) => if key < |s.streams| then Some(s.streams[key].id) else None
    case _ => None
  }

  /** The stream id an event is about. */
  function EventId(s: Session, e: Event): Option<u32> {
    match e
    case RunTask(i, _) => if i < |s.tasks| then TaskId(s, s.tasks[i]) else None
    case ReceiveFrame(f, _) => Some(f.streamId)
    case PumpRecv(key) => StreamIdAt(s, key)
    case PumpDeliver(key, _) => StreamIdAt(s, key)
    case PumpWritten(key) => StreamIdAt(s, key)
    case PumpFails(key) => StreamIdAt(s, key)
    case PumpTimesOut(key) => StreamIdAt(s, key)
    case PumpCancelled(key) => StreamIdAt(s, key)
    case AppReserve(id) => Some(id)
    case AppHalfClose(key) => StreamIdAt(s, key)
    case AppClose(key) => StreamIdAt(s, key)
    case AppDrop(key) => StreamIdAt(s, key)
    case _ => None
  }

  function StreamIdAt(s: Session, key: nat): Option<u32> {
    if key < |s.streams| then Some(s.streams[key].id) else None
  }

  /**
   * Id-guarded updates: whatever happens for another id, whether a task goes on, a frame arrives, a
   * pump moves or the application calls, leaves the slot and the stream in it as they are.
   */
  lemma OtherIdChangesNothing(run: seq<Session>, s: Session, e: Event, s': Session)
    requires IsRun(run) && s == run[|run| - 1] && Enabled(s, e) && NextBy(s, e, s')
    requires s.slot.Some? && EventId(s, e).Some? && EventId(s, e).value != s.slot.value.id
    ensures SlotValid(s)
    ensures s'.slot == s.slot && |s'.streams| == |s.streams| && s'.streams[s.Key()] == s.streams[s.Key()]
  {
    hide StepOf, FrameStep, EffectOf, TaskId, CanRun, Act, IdsShape, Carriers, StreamsGood, NoGaps, AllFromFrames,
      NotLost, RetireOwed, SmallInv, IsRun;
    RunFullInv(run);
    ShapeValid(s);
    match e
    case RunTask(i, c) => OtherIdStep(s, s.tasks[i], c);
    case ReceiveFrame(f, ok) => OtherIdFrame(s, f, ok);
    case ReceiveEnds => assert false;
    case _ => OtherIdEffect(s, e);
  }

  lemma OtherIdFrame(s: Session, f: Frame, ok: bool)
    requires SlotValid(s) && s.slot.Some? && f.streamId != s.slot.value.id
    ensures Allows(s, FrameStep(s, f, ok).action)
    ensures var s' := Act(s, FrameStep(s, f, ok).action);
            s'.slot == s.slot && |s'.streams| == |s.streams| && s'.streams[s.Key()] == s.streams[s.Key()]
  {
  }

  lemma OtherIdEffect(s: Session, e: Event)
    requires SlotShape(s.slot, s.streams) && OtherEvent(e) && Enabled(s, e)
    requires s.slot.Some? && EventId(s, e).Some? && EventId(s, e).value != s.slot.value.id
    ensures Allows(s, EffectOf(s, e).action)
    ensures var s' := Act(s, EffectOf(s, e).action);
            s'.slot == s.slot && |s'.streams| == |s.streams| && s'.streams[s.Key()] == s.streams[s.Key()]
  {
    var a := EffectOf(s, e).action;
    assert a.Stay? || (a.SetStream? && a.key < |s.streams| && a.key != s.Key());
  }

  lemma OtherIdStep(s: Session, t: Task, c: Choice)
    requires SlotShape(s.slot, s.streams) && NamesStream(s.streams, t) && CanRun(s, t, c)
    requires s.slot.Some? && TaskId(s, t).Some? && TaskId(s, t).value != s.slot.value.id
    ensures SlotValid(s) && Allows(s, StepOf(s, t, c).action)
    ensures var s' := Act(s, StepOf(s, t, c).action);
            s'.slot == s.slot && |s'.streams| == |s.streams| && s'.streams[s.Key()] == s.streams[s.Key()]
  {
    hide SlotAfter, StreamsAfter;
    OtherIdAction(s, t, c);
    ActKeepsSlot(s, StepOf(s, t, c).action);
  }

  lemma OtherIdAction(s: Session, t: Task, c: Choice)
    requires SlotShape(s.slot, s.streams) && NamesStream(s.streams, t) && CanRun(s, t, c)
    requires s.slot.Some? && TaskId(s, t).Some? && TaskId(s, t).value != s.slot.value.id
    ensures var a := StepOf(s, t, c).action;
            a.Stay? || (a.SetStream? && a.key < |s.streams| && a.key != s.Key())
  {
  }

  lemma ActKeepsSlot(s: Session, a: Action)
    requires s.slot.Some? && SlotValid(s)
    requires a.Stay? || (a.SetStream? && a.key < |s.streams| && a.key != s.Key())
    ensures Allows(s, a)
    ensures var s' := Act(s, a);
            s'.slot == s.slot && |s'.streams| == |s.streams| && s'.streams[s.Key()] == s.streams[s.Key()]
  {
  }

  // ---- from one state to the next ----

  /** The next state is that of one action, up to the tasks and the record of frames and answers. */
  ghost predicate StepsBy(s: Session, a: Action, s': Session) {
    && Allows(s, a)
    && s' == Act(s, a).(tasks := s'.tasks, syns := s'.syns, replies := s'.replies, handled := s'.handled)
    && s.syns <= s'.syns && s.handled <= s'.handled && s.replies <= s'.replies
  }

  /** What a state must be like for a stream to enter the slot. */
  predicate MayOpen(s: Session, id: u32) {
    && s.slot.None? && !s.expired
    && (if s.isClient then !s.closed else s.settings && s.tasks != [] && s.tasks[0] == Admitting(id))
  }

  lemma RunTaskSteps(s: Session, i: nat, c: Choice, s': Session)
    requires Shape(s) && AdmissionOk(s) && Enabled(s, RunTask(i, c)) && NextBy(s, RunTask(i, c), s')
    ensures var a := StepOf(s, s.tasks[i], c).action;
            StepsBy(s, a, s') && (a.Open? ==> MayOpen(s, a.id))
  {
    hide StepOf, Act, CanRun, SlotShape, IdsShape, LoopTask, NamesStream, SynPositions, SynPending;
    ActSettings(s, StepOf(s, s.tasks[i], c).action);
    StepOpens(s, s.tasks[i], c);
    OnlyLoopAdmits(s, i);
    AdmittingIsPending(s.tasks[i]);
  }

  lemma FrameSteps(s: Session, f: Frame, ok: bool, s': Session)
    requires Enabled(s, ReceiveFrame(f, ok)) && NextBy(s, ReceiveFrame(f, ok), s')
    ensures StepsBy(s, FrameStep(s, f, ok).action, s') && !FrameStep(s, f, ok).action.Open?
  {
    hide FrameStep, Act, SynPending;
    ActSettings(s, FrameStep(s, f, ok).action);
    FrameSmallFacts(s, f, ok);
  }

  lemma EffectSteps(s: Session, e: Event, s': Session)
    requires OtherEvent(e) && Enabled(s, e) && NextBy(s, e, s')
    ensures StepsBy(s, EffectOf(s, e).action, s') && !EffectOf(s, e).action.Open?
  {
    hide EffectOf, Act;
    ActSettings(s, EffectOf(s, e).action);
    EffectSmallFacts(s, e);
  }

  lemma NextSteps(s: Session, s': Session) returns (a: Action)
    requires FullInv(s) && Next(s, s')
    ensures StepsBy(s, a, s')
    ensures a.Open? ==> MayOpen(s, a.id)
  {
    hide StepOf, FrameStep, EffectOf, Act, CanRun, SlotShape, IdsShape, TasksShape, Carriers, StreamsGood,
      NoGaps, AllFromFrames, NotLost, RetireOwed, SlotLeftWhy, GracefulOk, ClosedOk, NoticesOk, AdmissionOk, NextBy,
      StepsBy, MayOpen;
    var e :| Enabled(s, e) && NextBy(s, e, s');
    match e
    case RunTask(i, choice) =>
      RunTaskSteps(s, i, choice, s');
      a := StepOf(s, s.tasks[i], choice).action;
    case ReceiveFrame(f, ok) =>
      FrameValid(s, f, ok, s');
      FrameSteps(s, f, ok, s');
      a := FrameStep(s, f, ok).action;
    case ReceiveEnds =>
      EndSteps(s, s');
      a := Stay;
    case _ =>
      EffectSteps(s, e, s');
      a := EffectOf(s, e).action;
  }

  lemma FrameValid(s: Session, f: Frame, ok: bool, s': Session)
    requires Enabled(s, ReceiveFrame(f, ok)) && NextBy(s, ReceiveFrame(f, ok), s')
    ensures SlotValid(s)
  {
  }

  lemma EndSteps(s: Session, s': Session)
    requires Enabled(s, ReceiveEnds) && NextBy(s, ReceiveEnds, s')
    ensures StepsBy(s, Stay, s')
  {
  }

  lemma StepOpens(s: Session, t: Task, c: Choice)
    requires CanRun(s, t, c)
    ensures var a := StepOf(s, t, c).action;
            a.Open? ==>
              && s.slot.None? && !s.expired
              && ((t.Reserving? && !s.closed) || t == Admitting(a.id))
  {
  }

  // ---- a closed client session ----

  lemma ClosedStep(s: Session, s': Session)
    requires FullInv(s) && Next(s, s')
    ensures s'.isClient == s.isClient && (s.closed ==> s'.closed) && (s.drained ==> s'.drained)
    ensures s.isClient && s.closed ==> |s'.streams| == |s.streams|
  {
    hide FullInv, Next, StreamsAfter, SlotAfter;
    var a := NextSteps(s, s');
    ActCount(s, a);
  }

  /**
   * Closed is permanent for client sessions: from the moment a session is closed no stream enters
   * its slot, and once a shutdown has emptied the slot it is empty for good.
   */
  lemma {:induction false} ClosedForGood(run: seq<Session>, i: nat, j: nat)
    requires IsRun(run) && i <= j < |run| && run[i].isClient
    ensures run[i].closed ==> run[j].closed && |run[j].streams| == |run[i].streams|
    ensures run[i].drained ==> run[j].drained && run[j].closed && run[j].slot.None?
    ensures run[j].isClient
    decreases j
  {
    hide Next, Inv, NotLost, RetireOwed, SlotLeftWhy, GracefulOk, NoticesOk, AdmissionOk;
    RunFullInv(run[..j + 1]);
    if i < j {
      ClosedForGood(run, i, j - 1);
      RunFullInv(run[..j]);
      ClosedStep(run[j - 1], run[j]);
    }
  }

  // ---- a session whose receive loop has ended ----

  /** The loop ends through a shutdown, never straight out of other work. */
  predicate EndsByShutdown(t: Task) {
    (t.MarkReadClosed? || t.CheckFinish? || t.Remove? || t.BecameIdle?) ==> t.after != ThenEnd
  }

  ghost predicate LoopEnds(s: Session) {
    && s.tasks != [] && EndsByShutdown(s.tasks[0])
    && (s.tasks[0] == Done ==> s.closed && s.slot.None?)
  }

  lemma StepEnds(s: Session, t: Task, c: Choice)
    requires CanRun(s, t, c) && LoopTask(t) && EndsByShutdown(t)
    ensures EndsByShutdown(StepOf(s, t, c).next)
    ensures StepOf(s, t, c).next == Done ==> StepOf(s, t, c).action.Drain? && t.TakeSlot?
  {
  }

  lemma FrameEnds(s: Session, f: Frame, ok: bool)
    requires SlotValid(s)
    ensures EndsByShutdown(FrameStep(s, f, ok).next) && FrameStep(s, f, ok).next != Done
  {
  }

  lemma DrainEmpties(s: Session, a: Action)
    requires Allows(s, a)
    ensures a.Drain? ==> Act(s, a).slot.None?
    ensures s.slot.None? && !a.Open? ==> Act(s, a).slot.None?
    ensures s.closed ==> Act(s, a).closed
  {
  }

  lemma RunKeepsLoopEnds(s: Session, i: nat, c: Choice, s': Session)
    requires Shape(s) && AdmissionOk(s) && ClosedOk(s) && LoopEnds(s)
    requires Enabled(s, RunTask(i, c)) && NextBy(s, RunTask(i, c), s')
    ensures LoopEnds(s')
  {
    hide StepOf, CanRun, Act, SlotShape, IdsShape, LoopTask, NamesStream, SynPositions, SynPending, EndsByShutdown,
      StepsBy;
    var step := StepOf(s, s.tasks[i], c);
    RunTaskSteps(s, i, c, s');
    DrainEmpties(s, step.action);
    NotDone(s, s.tasks[i], c);
    if i == 0 {
      StepEnds(s, s.tasks[0], c);
    }
    assert i > 0 ==> s'.tasks[0] == s.tasks[0];
  }

  lemma NotDone(s: Session, t: Task, c: Choice)
    requires CanRun(s, t, c)
    ensures t != Done
  {
  }

  lemma NextKeepsLoopEnds(s: Session, s': Session)
    requires FullInv(s) && LoopEnds(s) && Next(s, s')
    ensures LoopEnds(s')
  {
    hide StepOf, FrameStep, EffectOf, Act, CanRun, Inv, NotLost, RetireOwed, SlotLeftWhy, GracefulOk, NoticesOk,
      SynPending, SynPositions, EndsByShutdown;
    var e :| Enabled(s, e) && NextBy(s, e, s');
    ShapeOfInv(s);
    match e
    case RunTask(i, choice) => RunKeepsLoopEnds(s, i, choice, s');
    case ReceiveFrame(f, ok) => FrameEnds(s, f, ok);
    case ReceiveEnds => EndIsShutdown();
    case _ =>
      EffectSmallFacts(s, e);
      DrainEmpties(s, EffectOf(s, e).action);
  }

  lemma ShapeOfInv(s: Session)
    requires Inv(s)
    ensures Shape(s)
  {
  }

  lemma EndIsShutdown()
    ensures EndsByShutdown(BeginShutdown(ThenEnd))
  {
  }

  lemma {:induction false} RunLoopEnds(run: seq<Session>)
    requires IsRun(run)
    ensures LoopEnds(run[|run| - 1])
    decreases |run|
  {
    hide FullInv, Next;
    if |run| > 1 {
      var before := run[..|run| - 1];
      RunLoopEnds(before);
      RunFullInv(before);
      NextKeepsLoopEnds(before[|before| - 1], run[|run| - 1]);
    }
  }

  lemma DoneStays(s: Session, s': Session)
    requires Next(s, s') && s.tasks != [] && s.tasks[0] == Done
    ensures s'.tasks != [] && s'.tasks[0] == Done
  {
    hide StepOf, FrameStep, EffectOf, Act;
  }

  /**
   * Once the receive loop of any session, client or server, has ended, its slot is empty for good:
   * the only slot filled after a shutdown is one whose SYN the loop had in hand.
   */
  lemma {:induction false} EmptyOnceLoopEnded(run: seq<Session>, i: nat, j: nat)
    requires IsRun(run) && i <= j < |run| && run[i].tasks != [] && run[i].tasks[0] == Done
    ensures run[j].tasks != [] && run[j].tasks[0] == Done
    ensures run[j].slot.None? && run[j].closed && |run[j].streams| == |run[i].streams|
    decreases j
  {
    hide Next, FullInv, EndsByShutdown;
    RunLoopEnds(run[..j + 1]);
    if i < j {
      EmptyOnceLoopEnded(run, i, j - 1);
      DoneStays(run[j - 1], run[j]);
      RunFullInv(run[..j]);
      var a := NextSteps(run[j - 1], run[j]);
      ActCount(run[j - 1], a);
    }
  }

  // ---- removals and idle notices ----

  lemma ActRemovals(s: Session, a: Action)
    requires Allows(s, a) && s.removals + (if s.slot.Some? then 1 else 0) <= |s.streams|
    ensures Act(s, a).removals + (if Act(s, a).slot.Some? then 1 else 0) <= |Act(s, a).streams|
  {
    ActCount(s, a);
  }

  /**
   * Each removal frees an occupied slot, no stream is removed twice, and each removal sends one
   * idle notice, or shuts an expired session down, or is about to: never two notices.
   */
  lemma {:induction false} RemovalsAndNotices(run: seq<Session>, s: Session)
    requires IsRun(run) && s == run[|run| - 1]
    ensures s.removals == s.notices + s.expiries + IdleCount(s.tasks)
    ensures s.removals + (if s.slot.Some? then 1 else 0) <= |s.streams|
    decreases |run|
  {
    hide Next, Act, Inv, NotLost, RetireOwed, SlotLeftWhy, GracefulOk, ClosedOk, AdmissionOk, IdleCount;
    RunFullInv(run);
    if |run| > 1 {
      var before := run[..|run| - 1];
      RemovalsAndNotices(before, before[|before| - 1]);
      RunFullInv(before);
      var a := NextSteps(before[|before| - 1], s);
      ActRemovals(before[|before| - 1], a);
    }
  }

  // ---- admission ----

  /** A step that places a stream in the slot found it empty in a session that may open one. */
  lemma OpensOnlyWhenAllowed(run: seq<Session>, s: Session, s': Session)
    requires IsRun(run) && s == run[|run| - 1] && Next(s, s')
    requires |s.streams| < |s'.streams|
    ensures |s'.streams| == |s.streams| + 1
    ensures MayOpen(s, s'.streams[|s.streams|].id)
    ensures s'.slot == Some(Slot(s'.streams[|s.streams|].id, |s.streams|, false, false, false))
  {
    hide FullInv, Next, IsRun;
    RunFullInv(run);
    var a := NextSteps(s, s');
    ActCount(s, a);
  }

  /**
   * Server admission: no stream exists before Settings, and every SYN handled has one outcome, in
   * order, with at most the last still open.
   */
  lemma AdmissionOverRuns(run: seq<Session>, s: Session)
    requires IsRun(run) && s == run[|run| - 1] && !s.isClient
    ensures s.streams != [] ==> s.settings
    ensures s.tasks != [] && |SynPositions(s.handled)| == |s.syns| + if SynPending(s.tasks[0]) then 1 else 0
  {
    hide Inv, NotLost, RetireOwed, SlotLeftWhy, GracefulOk, ClosedOk, NoticesOk, SynPositions, SynPending;
    RunFullInv(run);
  }

  /** Outcomes are never revised. */
  lemma {:induction false} OutcomesStay(run: seq<Session>, i: nat, j: nat)
    requires IsRun(run) && i <= j < |run|
    ensures run[i].syns <= run[j].syns && run[i].handled <= run[j].handled
    decreases j
  {
    hide Next, FullInv, Act;
    if i < j {
      OutcomesStay(run, i, j - 1);
      RunFullInv(run[..j]);
      var a := NextSteps(run[j - 1], run[j]);
    }
  }
}
