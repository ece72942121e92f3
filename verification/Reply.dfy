/**
 * The frames a session sends on its own are frames its peer's receive loop accepts: no stream has
 * the id zero, and every reply passes the checks of `receive_loop` (src/runtime/session.rs).
 */
module Replies {
  import opened Frames
  import opened Sessions
  import opened SessionInvariants
  import opened StreamInvariants
  import opened HalfCloses
  import opened Releases
  import opened SessionTheorems

  /** The task may send a frame of its stream, now or later. */
  predicate MaySend(t: Task) {
    || t.Pushing? || t.Overload? || t.Admitting? || t.Rejecting? || t.Offering? || t.OfferFull?
    || t.Reserving? || t.Opening? || t.StartFin? || t.SendingFin?
  }

  predicate Named(t: Task) {
    MaySend(t) ==> t.id > 0
  }

  ghost predicate AllNamed(s: Session) {
    && (forall i :: 0 <= i < |s.tasks| ==> Named(s.tasks[i]))
    && (forall key :: 0 <= key < |s.streams| ==> s.streams[key].id > 0)
    && (forall k :: 0 <= k < |s.replies| ==> ValidFrame(s.replies[k]))
  }

  predicate NamedStep(step: Step) {
    && Named(step.next) && (step.action.Open? ==> step.action.id > 0)
    && (forall k :: 0 <= k < |step.spawned| ==> Named(step.spawned[k]))
    && (forall k :: 0 <= k < |step.replies| ==> ValidFrame(step.replies[k]))
  }

  lemma InboundNamed(s: Session, t: Task, c: Choice)
    requires InboundTask(t) && CanRun(s, t, c) && Named(t)
    ensures NamedStep(InboundStep(s, t, c))
  {
  }

  lemma AdmissionNamed(s: Session, t: Task, c: Choice)
    requires AdmissionTask(t) && CanRun(s, t, c) && Named(t)
    ensures NamedStep(AdmissionStep(s, t, c))
  {
  }

  lemma ReleaseNamed(s: Session, t: Task)
    requires ReleaseTask(t)
    ensures NamedStep(ReleaseStep(s, t))
  {
  }

  lemma ClosingNamed(s: Session, t: Task, c: Choice)
    requires ClosingTask(t) && CanRun(s, t, c) && Named(t)
    ensures NamedStep(ClosingStep(s, t, c))
  {
  }

  lemma StepNamed(s: Session, t: Task, c: Choice)
    requires CanRun(s, t, c) && Named(t)
    ensures NamedStep(StepOf(s, t, c))
  {
    hide InboundStep, AdmissionStep, ReleaseStep, ClosingStep, NamedStep;
    if InboundTask(t) {
      InboundNamed(s, t, c);
    } else if AdmissionTask(t) {
      AdmissionNamed(s, t, c);
    } else if ReleaseTask(t) {
      ReleaseNamed(s, t);
    } else {
      ClosingNamed(s, t, c);
    }
  }

  lemma FrameNamed(s: Session, f: Frame, ok: bool)
    requires SlotValid(s) && ValidFrame(f)
    ensures NamedStep(FrameStep(s, f, ok))
  {
  }

  lemma EffectNamed(s: Session, e: Event)
    requires AllNamed(s) && OtherEvent(e) && Enabled(s, e)
    ensures !EffectOf(s, e).action.Open?
    ensures forall k :: 0 <= k < |EffectOf(s, e).spawned| ==> Named(EffectOf(s, e).spawned[k])
  {
  }

  /** A change of the session by an action, new tasks and replies keeps every name. */
  lemma CommitNamed(s: Session, a: Action, s': Session, more: seq<Frame>)
    requires AllNamed(s) && Allows(s, a) && KeepsNames(s, a) && (a.Open? ==> a.id > 0)
    requires s'.streams == Act(s, a).streams && s'.replies == s.replies + more
    requires forall k :: 0 <= k < |more| ==> ValidFrame(more[k])
    requires forall i :: 0 <= i < |s'.tasks| ==> Named(s'.tasks[i])
    ensures AllNamed(s')
  {
    hide Act, Grows, Named, ValidFrame;
    ActCount(s, a);
    forall key | 0 <= key < |s'.streams|
      ensures s'.streams[key].id > 0
    {
      if key < |s.streams| {
        StreamName(s, a, key);
      }
    }
  }

  lemma StreamName(s: Session, a: Action, key: nat)
    requires Allows(s, a) && KeepsNames(s, a) && key < |s.streams|
    ensures |s.streams| <= |Act(s, a).streams| && Act(s, a).streams[key].id == s.streams[key].id
  {
    hide Act;
    ActGrows(s, a);
  }

  lemma RunKeepsNamed(s: Session, i: nat, c: Choice)
    requires Shape(s) && AllNamed(s) && i < |s.tasks| && CanRun(s, s.tasks[i], c)
    ensures Allows(s, StepOf(s, s.tasks[i], c).action)
    ensures AllNamed(Commit(s, i, StepOf(s, s.tasks[i], c)))
  {
    hide StepOf, Act, CanRun, SlotShape, IdsShape, TasksShape, Named, ValidFrame;
    var step := StepOf(s, s.tasks[i], c);
    StepAllowed(s, s.tasks[i], c);
    StepNamed(s, s.tasks[i], c);
    CommitNamed(s, step.action, Commit(s, i, step), step.replies);
  }

  lemma FrameKeepsNamed(s: Session, f: Frame, ok: bool)
    requires Shape(s) && AllNamed(s) && ValidFrame(f)
    ensures SlotValid(s) && Allows(s, FrameStep(s, f, ok).action)
    ensures AllNamed(Commit(s, 0, FrameStep(s, f, ok)).(handled := s.handled + [f]))
  {
    hide FrameStep, Act, SlotShape, IdsShape, LoopTask, NamesStream, Named, ValidFrame;
    FrameAllowed(s, f, ok);
    var step := FrameStep(s, f, ok);
    FrameNamed(s, f, ok);
    CommitNamed(s, step.action, Commit(s, 0, step).(handled := s.handled + [f]), step.replies);
  }

  lemma EffectKeepsNamed(s: Session, e: Event)
    requires Shape(s) && AllNamed(s) && OtherEvent(e) && Enabled(s, e)
    ensures Allows(s, EffectOf(s, e).action)
    ensures AllNamed(Act(s, EffectOf(s, e).action).(tasks := s.tasks + EffectOf(s, e).spawned))
  {
    hide EffectOf, Enabled, Act, SlotShape, IdsShape, TasksShape, Named, ValidFrame;
    EffectAllowed(s, e);
    EffectNamed(s, e);
    ActSettings(s, EffectOf(s, e).action);
    CommitNamed(s, EffectOf(s, e).action,
      Act(s, EffectOf(s, e).action).(tasks := s.tasks + EffectOf(s, e).spawned), []);
  }

  lemma EndKeepsNamed(s: Session)
    requires s.tasks != [] && AllNamed(s)
    ensures AllNamed(Commit(s, 0, Go(Stay, BeginShutdown(ThenEnd))))
  {
    hide ValidFrame;
  }

  lemma NextKeepsNamed(s: Session, s': Session)
    requires FullInv(s) && AllNamed(s) && Next(s, s')
    ensures AllNamed(s')
  {
    hide StepOf, FrameStep, EffectOf, Act, CanRun, Inv, NotLost, RetireOwed, SmallInv, AllNamed, ValidFrame;
    var e :| Enabled(s, e) && NextBy(s, e, s');
    ShapeOfInv(s);
    match e
    case RunTask(i, choice) => RunKeepsNamed(s, i, choice);
    case ReceiveFrame(f, ok) => FrameKeepsNamed(s, f, ok);
    case ReceiveEnds => EndKeepsNamed(s);
    case _ => EffectKeepsNamed(s, e);
  }
}
