/**
 * How a stream comes to be finished: the application's end of its side leads to the local FIN, the
 * pump's end to the closed read side, and the peer's FIN to a mark in the queue. None of the three
 * is dropped on the way while the stream is in the slot of an open session.
 */
module Finishes {
  import opened Wrappers
  import opened Bytes
  import opened Frames
  import opened Inbound
  import opened Sessions
  import opened SessionInvariants
  import opened StreamInvariants
  import opened HalfCloses
  import opened Releases
  import opened SessionTheorems
  import Handlings

  /** What is still to be done for a stream. */
  datatype Duty = ToEnd(id: u32) | ToMarkRead(id: u32) | ToMarkFin(key: nat)

  predicate Does(t: Task, d: Duty) {
    match d
    case ToEnd(id) => t.StartFin? && t.id == id
    case ToMarkRead(id) => t.MarkReadClosed? && t.id == id
    case ToMarkFin(key) => CarrierKey(t) == Some(key)
  }

  ghost predicate SomeDoes(tasks: seq<Task>, d: Duty) {
    exists i :: 0 <= i < |tasks| && Does(tasks[i], d)
  }

  /** What must be true of the stream in the slot, or is some task's to bring about. */
  ghost predicate Due(slot: Slot, st: Stream, tasks: seq<Task>, closed: bool) {
    && (st.handle != Held ==> st.ending)
    && (st.ending && !closed ==> slot.localFin || SomeDoes(tasks, ToEnd(slot.id)))
    && (!st.Live() ==> slot.readClosed || SomeDoes(tasks, ToMarkRead(slot.id)))
    && (slot.remoteFin ==> st.finQueued.Some? || !st.Live() || SomeDoes(tasks, ToMarkFin(slot.key)))
  }

  ghost predicate AllDue(s: Session) {
    s.slot.Some? && SlotValid(s) ==> Due(s.slot.value, s.streams[s.Key()], s.tasks, s.closed)
  }

  // ---- duties move with the tasks ----

  lemma DoesAt(tasks: seq<Task>, i: nat, d: Duty)
    requires i < |tasks| && Does(tasks[i], d)
    ensures SomeDoes(tasks, d)
  {
  }

  lemma OthersStillDo(tasks: seq<Task>, i: nat, next: Task, spawned: seq<Task>, d: Duty)
    requires i < |tasks| && SomeDoes(tasks, d)
    requires Does(tasks[i], d) ==> Does(next, d) || (spawned != [] && Does(spawned[0], d))
    ensures SomeDoes(tasks[i := next] + spawned, d)
  {
    hide Does;
    var j :| 0 <= j < |tasks| && Does(tasks[j], d);
    var tasks' := tasks[i := next] + spawned;
    if j != i {
      DoesAt(tasks', j, d);
    } else if Does(next, d) {
      DoesAt(tasks', i, d);
    } else {
      DoesAt(tasks', |tasks|, d);
    }
  }

  lemma StillDone(tasks: seq<Task>, spawned: seq<Task>, d: Duty)
    requires SomeDoes(tasks, d)
    ensures SomeDoes(tasks + spawned, d)
  {
    hide Does;
    var j :| 0 <= j < |tasks| && Does(tasks[j], d);
    DoesAt(tasks + spawned, j, d);
  }

  /** A change of a stream that no duty depends on. */
  predicate SameDuties(st: Stream, st': Stream) {
    && st'.handle == st.handle && st'.ending == st.ending && st'.Live() == st.Live()
    && (st.finQueued.Some? ==> st'.finQueued.Some?)
  }

  // ---- steps of tasks ----

  lemma StepSameDuties(s: Session, t: Task, c: Choice)
    requires CanRun(s, t, c)
    ensures var a := StepOf(s, t, c).action;
            && (a.SetStream? ==> a.key < |s.streams| && SameDuties(s.streams[a.key], a.st))
            && !a.RaiseRemoteFin?
  {
  }

  /** A stream in the slot stays what it is, and its flags stay up. */
  lemma ActSlot(s: Session, a: Action)
    requires DataShape(s) && Allows(s, a) && Act(s, a).slot.Some? && !a.Open?
    requires a.SetStream? ==> SameDuties(s.streams[a.key], a.st)
    ensures s.slot.Some? && SlotValid(s) && SlotValid(Act(s, a))
    ensures var s' := Act(s, a);
            && s'.Key() == s.Key() && s'.slot.value.id == s.slot.value.id
            && (s.slot.value.localFin ==> s'.slot.value.localFin)
            && (s.slot.value.readClosed ==> s'.slot.value.readClosed)
            && (s'.slot.value.remoteFin ==> s.slot.value.remoteFin || a.RaiseRemoteFin?)
            && SameDuties(s.streams[s.Key()], s'.streams[s'.Key()])
            && (s.closed ==> s'.closed)
  {
  }

  lemma OpenedDue(s: Session, id: u32, tasks: seq<Task>)
    requires s.slot.None?
    ensures var s' := Act(s, Open(id));
            s'.slot.Some? && SlotValid(s') && Due(s'.slot.value, s'.streams[s'.Key()], tasks, s'.closed)
  {
  }

  /** A task does its duty in its next step, or passes it on. */
  lemma OwnDuty(s: Session, t: Task, c: Choice, d: Duty)
    requires DataShape(s) && CanRun(s, t, c) && NamesStream(s.streams, t) && s.slot.Some? && Does(t, d)
    requires d in {ToEnd(s.slot.value.id), ToMarkRead(s.slot.value.id), ToMarkFin(s.Key())}
    ensures Allows(s, StepOf(s, t, c).action)
    ensures var step := StepOf(s, t, c);
            var s' := Act(s, step.action);
            && s'.slot.Some? && SlotValid(s')
            && (d.ToEnd? ==> s'.slot.value.localFin)
            && (d.ToMarkRead? ==> s'.slot.value.readClosed)
            && (d.ToMarkFin? ==>
                  || Does(step.next, d) || (step.spawned != [] && Does(step.spawned[0], d))
                  || s'.streams[s'.Key()].finQueued.Some? || !s'.streams[s'.Key()].Live())
  {
    StepAllowed(s, t, c);
  }

  /** What is due after a step of task `i` that leaves the stream in the slot. */
  lemma StepDue(s: Session, i: nat, c: Choice, s': Session)
    requires Shape(s) && AllDue(s) && i < |s.tasks| && CanRun(s, s.tasks[i], c)
    requires Allows(s, StepOf(s, s.tasks[i], c).action) && !StepOf(s, s.tasks[i], c).action.Open?
    requires s' == Commit(s, i, StepOf(s, s.tasks[i], c)) && s'.slot.Some?
    ensures AllDue(s')
  {
    hide StepOf, CanRun, Act, SlotShape, IdsShape, LoopTask, NamesStream, Does, SomeDoes;
    var t := s.tasks[i];
    var step := StepOf(s, t, c);
    StepSameDuties(s, t, c);
    ActSlot(s, step.action);
    var id, key := s.slot.value.id, s.Key();
    forall d | d in {ToEnd(id), ToMarkRead(id), ToMarkFin(key)} && SomeDoes(s.tasks, d)
      ensures Does(t, d) || SomeDoes(s'.tasks, d)
      ensures Does(t, d) && (Does(step.next, d) || (step.spawned != [] && Does(step.spawned[0], d))) ==>
                SomeDoes(s'.tasks, d)
    {
      if !Does(t, d) || Does(step.next, d) || (step.spawned != [] && Does(step.spawned[0], d)) {
        OthersStillDo(s.tasks, i, step.next, step.spawned, d);
      }
    }
    forall d | d in {ToEnd(id), ToMarkRead(id), ToMarkFin(key)} && Does(t, d)
      ensures d.ToEnd? ==> s'.slot.value.localFin
      ensures d.ToMarkRead? ==> s'.slot.value.readClosed
      ensures d.ToMarkFin? ==>
                || Does(step.next, d) || (step.spawned != [] && Does(step.spawned[0], d))
                || s'.streams[key].finQueued.Some? || !s'.streams[key].Live()
    {
      OwnDuty(s, t, c, d);
    }
  }

  lemma RunKeepsDue(s: Session, i: nat, c: Choice)
    requires Shape(s) && AllDue(s) && i < |s.tasks| && CanRun(s, s.tasks[i], c)
    ensures Allows(s, StepOf(s, s.tasks[i], c).action)
    ensures AllDue(Commit(s, i, StepOf(s, s.tasks[i], c)))
  {
    hide StepOf, CanRun, Act, SlotShape, IdsShape, TasksShape, Due;
    var step := StepOf(s, s.tasks[i], c);
    StepAllowed(s, s.tasks[i], c);
    var s' := Commit(s, i, step);
    if step.action.Open? {
      OpenedDue(s, step.action.id, s'.tasks);
    } else if s'.slot.Some? {
      StepDue(s, i, c, s');
    }
  }

  // ---- frames ----

  lemma FrameDuties(s: Session, f: Frame, ok: bool)
    requires SlotValid(s)
    ensures var step := FrameStep(s, f, ok);
            && (step.action.SetStream? ==>
                  step.action.key < |s.streams| && SameDuties(s.streams[step.action.key], step.action.st))
            && !step.action.Open? && step.spawned == []
            && (step.action.RaiseRemoteFin? ==> s.slot.Some? && Does(step.next, ToMarkFin(s.Key())))
  {
  }

  lemma ReceivingDoesNothing(d: Duty)
    ensures !Does(Receiving, d)
  {
  }

  lemma FrameKeepsDue(s: Session, f: Frame, ok: bool)
    requires Shape(s) && AllDue(s) && s.tasks[0] == Receiving
    ensures SlotValid(s) && Allows(s, FrameStep(s, f, ok).action)
    ensures AllDue(Commit(s, 0, FrameStep(s, f, ok)).(handled := s.handled + [f]))
  {
    hide FrameStep, Act, SlotShape, IdsShape, LoopTask, NamesStream, Does, SomeDoes;
    FrameAllowed(s, f, ok);
    FrameDuties(s, f, ok);
    var step := FrameStep(s, f, ok);
    var s' := Commit(s, 0, step);
    if s'.slot.Some? {
      ActSlot(s, step.action);
      var id, key := s.slot.value.id, s.Key();
      forall d | d in {ToEnd(id), ToMarkRead(id), ToMarkFin(key)} && SomeDoes(s.tasks, d)
        ensures SomeDoes(s'.tasks, d)
      {
        ReceivingDoesNothing(d);
        OthersStillDo(s.tasks, 0, step.next, step.spawned, d);
      }
      if step.action.RaiseRemoteFin? {
        DoesAt(s'.tasks, 0, ToMarkFin(key));
      }
    }
  }

  // ---- other events ----

  /** An event on the stream in the slot starts the task that its change calls for. */
  predicate CallsFor(s: Session, effect: Effect)
    requires Allows(s, effect.action) && s.slot.Some? && SlotValid(s)
  {
    var s', st, id := Act(s, effect.action), s.streams[s.Key()], s.slot.value.id;
    && s'.slot == s.slot && SlotValid(s') && (s.closed ==> s'.closed)
    && var st' := s'.streams[s.Key()];
    && (st'.handle != Held ==> st'.ending)
    && (st'.ending && !s'.closed ==> st.ending || (effect.spawned != [] && Does(effect.spawned[0], ToEnd(id))))
    && (!st'.Live() ==> !st.Live() || (effect.spawned != [] && Does(effect.spawned[0], ToMarkRead(id))))
    && (st.finQueued.Some? ==> st'.finQueued.Some?)
    && (!st.Live() ==> !st'.Live())
  }

  predicate PumpEvent(e: Event) {
    e.PumpRecv? || e.PumpDeliver? || e.PumpWritten? || e.PumpFails? || e.PumpTimesOut? || e.PumpCancelled?
  }

  /** A pump that leaves its loop starts the task that marks the read side closed. */
  predicate PumpCalls(st: Stream, st': Stream, spawned: seq<Task>, id: u32) {
    && st'.handle == st.handle && st'.ending == st.ending && (st.finQueued.Some? ==> st'.finQueued.Some?)
    && (!st'.Live() ==> !st.Live() || (spawned != [] && Does(spawned[0], ToMarkRead(id))))
    && (!st.Live() ==> !st'.Live())
  }

  lemma PumpCallsFor(s: Session, effect: Effect)
    requires effect.action.SetStream? && Allows(s, effect.action) && s.slot.Some? && SlotValid(s)
    requires s.streams[s.Key()].handle != Held ==> s.streams[s.Key()].ending
    requires effect.action.key == s.Key() ==>
               PumpCalls(s.streams[s.Key()], effect.action.st, effect.spawned, s.slot.value.id)
    ensures CallsFor(s, effect)
  {
  }

  lemma PumpDue(s: Session, e: Event)
    requires DataShape(s) && PumpEvent(e) && Enabled(s, e) && Allows(s, EffectOf(s, e).action)
    requires s.slot.Some? && SlotValid(s) && (s.streams[s.Key()].handle != Held ==> s.streams[s.Key()].ending)
    ensures CallsFor(s, EffectOf(s, e))
  {
    hide IdsShape, Act, CallsFor, Allows;
    PumpCallsFor(s, EffectOf(s, e));
  }

  lemma AppDue(s: Session, e: Event)
    requires DataShape(s) && OtherEvent(e) && !PumpEvent(e) && Enabled(s, e) && Allows(s, EffectOf(s, e).action)
    requires s.slot.Some? && SlotValid(s) && (s.streams[s.Key()].handle != Held ==> s.streams[s.Key()].ending)
    ensures CallsFor(s, EffectOf(s, e))
  {
    hide IdsShape;
  }

  lemma EffectDue(s: Session, e: Event)
    requires DataShape(s) && OtherEvent(e) && Enabled(s, e) && Allows(s, EffectOf(s, e).action)
    requires s.slot.Some? && SlotValid(s) && (s.streams[s.Key()].handle != Held ==> s.streams[s.Key()].ending)
    ensures CallsFor(s, EffectOf(s, e))
  {
    hide EffectOf, Enabled, CallsFor, DataShape, Allows;
    if PumpEvent(e) {
      PumpDue(s, e);
    } else {
      AppDue(s, e);
    }
  }

  lemma EffectKeepsDue(s: Session, e: Event)
    requires Shape(s) && AllDue(s) && OtherEvent(e) && Enabled(s, e)
    ensures Allows(s, EffectOf(s, e).action)
    ensures AllDue(Act(s, EffectOf(s, e).action).(tasks := s.tasks + EffectOf(s, e).spawned))
  {
    hide EffectOf, Enabled, Act, SlotShape, IdsShape, LoopTask, NamesStream, Does, SomeDoes;
    EffectAllowed(s, e);
    EffectRaises(s, e);
    ShapeValid(s);
    var effect := EffectOf(s, e);
    var s' := Act(s, effect.action).(tasks := s.tasks + effect.spawned);
    if s.slot.Some? {
      EffectDue(s, e);
      var id, key := s.slot.value.id, s.Key();
      forall d | d in {ToEnd(id), ToMarkRead(id), ToMarkFin(key)}
        ensures SomeDoes(s.tasks, d) || (effect.spawned != [] && Does(effect.spawned[0], d)) ==> SomeDoes(s'.tasks, d)
      {
        if SomeDoes(s.tasks, d) {
          StillDone(s.tasks, effect.spawned, d);
        } else if effect.spawned != [] && Does(effect.spawned[0], d) {
          DoesAt(s'.tasks, |s.tasks|, d);
        }
      }
    } else {
      SlotStaysEmpty(s, effect.action);
    }
  }

  lemma SlotStaysEmpty(s: Session, a: Action)
    requires Allows(s, a) && s.slot.None? && !a.Open?
    ensures Act(s, a).slot.None?
  {
  }

  lemma EndKeepsDue(s: Session)
    requires s.tasks != [] && AllDue(s) && s.tasks[0] == Receiving
    ensures AllDue(Commit(s, 0, Go(Stay, BeginShutdown(ThenEnd))))
  {
    hide Does, SomeDoes;
    var s' := Commit(s, 0, Go(Stay, BeginShutdown(ThenEnd)));
    forall d | SomeDoes(s.tasks, d)
      ensures SomeDoes(s'.tasks, d)
    {
      ReceivingDoesNothing(d);
      OthersStillDo(s.tasks, 0, BeginShutdown(ThenEnd), [], d);
    }
  }

  lemma NextKeepsDue(s: Session, s': Session)
    requires FullInv(s) && AllDue(s) && Next(s, s')
    ensures AllDue(s')
  {
    hide StepOf, FrameStep, EffectOf, Act, CanRun, Inv, NotLost, RetireOwed, SmallInv, AllDue;
    var e :| Enabled(s, e) && NextBy(s, e, s');
    ShapeOfInv(s);
    match e
    case RunTask(i, choice) => RunKeepsDue(s, i, choice);
    case ReceiveFrame(f, ok) => FrameKeepsDue(s, f, ok);
    case ReceiveEnds => EndKeepsDue(s);
    case _ => EffectKeepsDue(s, e);
  }

  lemma {:induction false} RunDue(run: seq<Session>)
    requires IsRun(run)
    ensures AllDue(run[|run| - 1])
    decreases |run|
  {
    hide FullInv, Next;
    if |run| > 1 {
      var before := run[..|run| - 1];
      RunFullInv(before);
      RunDue(before);
      NextKeepsDue(before[|before| - 1], run[|run| - 1]);
    }
  }

  // ---- the theorems ----

  lemma DueNow(run: seq<Session>, s: Session)
    requires IsRun(run) && s == run[|run| - 1] && s.slot.Some?
    ensures SlotValid(s) && Due(s.slot.value, s.streams[s.Key()], s.tasks, s.closed) && FullInv(s)
  {
    hide IsRun, Due, Inv, NotLost, RetireOwed, SmallInv;
    RunDue(run);
    RunFullInv(run);
    ShapeOfInv(s);
    ShapeValid(s);
  }

  /**
   * Once the application has half-closed, closed or dropped the stream in the slot of an open
   * session, its local FIN is set, or a task is there to set it.
   */
  lemma EndSetsLocalFin(run: seq<Session>, s: Session)
    requires IsRun(run) && s == run[|run| - 1] && s.slot.Some? && !s.closed
    requires SlotValid(s) ==> s.streams[s.Key()].ending
    ensures SlotValid(s)
    ensures var id := s.slot.value.id;
            s.slot.value.localFin || exists i :: 0 <= i < |s.tasks| && s.tasks[i].StartFin? && s.tasks[i].id == id
  {
    hide IsRun, FullInv;
    DueNow(run, s);
  }

  /**
   * A peer's FIN reaches the pump: once it was handled for the stream in the slot, its mark is in
   * the queue of the running pump, or a task is there to queue it.
   */
  lemma FinReachesPump(run: seq<Session>, s: Session)
    requires IsRun(run) && s == run[|run| - 1] && s.slot.Some?
    requires SlotValid(s) ==> Handlings.FinFrom(s.handled, s.streams[s.Key()].openedAt, s.slot.value.id)
    ensures SlotValid(s)
    ensures var st := s.streams[s.Key()];
            st.Live() ==>
              FinMark in st.queue || exists i :: 0 <= i < |s.tasks| && CarrierKey(s.tasks[i]) == Some(s.Key())
  {
    hide IsRun, Shape, Carriers, NoGaps, AllFromFrames, NotLost, RetireOwed, SmallInv, Bounded, Conserved,
      Handlings.FinFrom;
    DueNow(run, s);
    Handlings.RemoteFinIsNoted(run, s);
    var st := s.streams[s.Key()];
    if st.Live() && st.finQueued.Some? {
      assert StreamInv(st);
      var i: nat :| FinPlaced(st, i);
      assert st.queue[i] == FinMark;
    }
  }

  /** The task is at work for the end of the stream: for one of its flags, its finish check or its retirement. */
  predicate AtWork(t: Task, id: u32) {
    Does(t, ToEnd(id)) || Does(t, ToMarkRead(id)) || Owes(t, id) || Retires(t, id)
  }

  /**
   * A complete stream is not left behind: when the application has ended its side, the peer's FIN
   * was handled and the pump is done, some task is at work for the stream for as long as it is in
   * the slot of a running session.
   */
  lemma CompleteStreamIsReleased(run: seq<Session>, s: Session) returns (i: nat)
    requires IsRun(run) && s == run[|run| - 1] && s.distinct && s.slot.Some? && !s.Ended()
    requires SlotValid(s) ==>
               var st := s.streams[s.Key()];
               st.ending && !st.Live() && Handlings.FinFrom(s.handled, st.openedAt, s.slot.value.id)
    ensures i < |s.tasks| && AtWork(s.tasks[i], s.slot.value.id)
  {
    hide IsRun, FullInv, Handlings.FinFrom, Does, Owes, Retires;
    DueNow(run, s);
    Handlings.RemoteFinIsNoted(run, s);
    var id := s.slot.value.id;
    if SomeDoes(s.tasks, ToEnd(id)) {
      i :| 0 <= i < |s.tasks| && Does(s.tasks[i], ToEnd(id));
    } else if SomeDoes(s.tasks, ToMarkRead(id)) {
      i :| 0 <= i < |s.tasks| && Does(s.tasks[i], ToMarkRead(id));
    } else {
      NoLostTrigger(run, s);
      if SomeOwes(s.tasks, id) {
        i :| 0 <= i < |s.tasks| && Owes(s.tasks[i], id);
      } else {
        i :| 0 <= i < |s.tasks| && Retires(s.tasks[i], id);
      }
    }
  }
}
