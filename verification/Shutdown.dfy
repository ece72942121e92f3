/**
 * Shutting a session down (src/runtime/session.rs): every shutdown has a cause, and one that was
 * started runs to its end whatever else happens in between.
 */
module Shutdowns {
  import opened Frames
  import opened Sessions
  import opened Releases
  import opened SessionTheorems

  // ---- why a session is shut down ----

  /** The step of a task that leads to a shutdown. */
  predicate TaskCause(s: Session, t: Task, c: Choice) {
    match t
    case Overload(_) | Rejecting(_, _) | OfferFull(_) => !c.ok     // no room for a control frame
    case Remove(_, _, after) => after == ThenShutdown              // nobody accepts streams any more
    case CheckFinish(_, after) => after == ThenShutdown
    case TakeSlot(after) => after == ThenShutdown
    case BecameIdle(after) => s.expired || after == ThenShutdown   // too old to be used again
    case Retire(_, finSent) => s.isClient && (!finSent || s.expired)
    case RetireTimer(id) => s.Holds(id)                            // the peer did not close in time
    case _ => false
  }

  /** The frame that leads to a shutdown. */
  predicate FrameCause(s: Session, f: Frame, ok: bool) {
    match f.command
    case Alert => true
    case SynAck => s.isClient && f.data != []
    case Syn => !s.isClient && !s.settings
    case Settings => !s.isClient && !ok
    case HeartRequest => !ok
    case _ => false
  }

  predicate Cause(s: Session, e: Event, i: nat) {
    match e
    case AskShutdown => true
    case ReceiveEnds => i == 0
    case ReceiveFrame(f, ok) => i == 0 && FrameCause(s, f, ok)
    case RunTask(j, c) => j == i && i < |s.tasks| && TaskCause(s, s.tasks[i], c)
    case _ => false
  }

  predicate CausedStep(s: Session, t: Task, c: Choice, step: Step) {
    && (step.next.BeginShutdown? ==> TaskCause(s, t, c))
    && (step.spawned == [] || (|step.spawned| == 1 && !step.spawned[0].BeginShutdown?))
  }

  lemma InboundCaused(s: Session, t: Task, c: Choice)
    requires InboundTask(t) && CanRun(s, t, c)
    ensures CausedStep(s, t, c, InboundStep(s, t, c))
  {
  }

  lemma AdmissionCaused(s: Session, t: Task, c: Choice)
    requires AdmissionTask(t) && CanRun(s, t, c)
    ensures CausedStep(s, t, c, AdmissionStep(s, t, c))
  {
  }

  lemma ReleaseCaused(s: Session, t: Task, c: Choice)
    requires ReleaseTask(t)
    ensures CausedStep(s, t, c, ReleaseStep(s, t))
  {
  }

  lemma ClosingCaused(s: Session, t: Task, c: Choice)
    requires ClosingTask(t) && CanRun(s, t, c)
    ensures CausedStep(s, t, c, ClosingStep(s, t, c))
  {
  }

  lemma StepCaused(s: Session, t: Task, c: Choice)
    requires CanRun(s, t, c)
    ensures CausedStep(s, t, c, StepOf(s, t, c))
  {
    hide InboundStep, AdmissionStep, ReleaseStep, ClosingStep, CausedStep;
    if InboundTask(t) {
      InboundCaused(s, t, c);
    } else if AdmissionTask(t) {
      AdmissionCaused(s, t, c);
    } else if ReleaseTask(t) {
      ReleaseCaused(s, t, c);
    } else {
      ClosingCaused(s, t, c);
    }
  }

  lemma FrameCaused(s: Session, f: Frame, ok: bool)
    requires SlotValid(s)
    ensures FrameStep(s, f, ok).next.BeginShutdown? ==> FrameCause(s, f, ok)
    ensures FrameStep(s, f, ok).spawned == []
  {
  }

  lemma EffectCaused(s: Session, e: Event)
    requires OtherEvent(e) && Enabled(s, e)
    ensures forall k :: 0 <= k < |EffectOf(s, e).spawned| && EffectOf(s, e).spawned[k].BeginShutdown? ==> e.AskShutdown?
  {
  }

  /** Whatever step starts a shutdown has one of the causes of the list. */
  lemma ShutdownHasCause(s: Session, e: Event, s': Session, i: nat)
    requires Enabled(s, e) && NextBy(s, e, s') && i < |s'.tasks| && s'.tasks[i].BeginShutdown?
    requires i < |s.tasks| ==> s.tasks[i] != s'.tasks[i]
    ensures Cause(s, e, i)
  {
    hide StepOf, FrameStep, EffectOf, CanRun, Act, TaskCause, FrameCause;
    match e
    case RunTask(j, c) => StepCaused(s, s.tasks[j], c);
    case ReceiveFrame(f, ok) => FrameCaused(s, f, ok);
    case ReceiveEnds =>
    case _ => EffectCaused(s, e);
  }

  // ---- a shutdown runs to its end ----

  /** A task that does nothing but shut the session down, and how far it has got. */
  predicate Shutting(s: Session, i: nat) {
    && i < |s.tasks|
    && match s.tasks[i]
       case BeginShutdown(after) => after == Nothing
       case TakeSlot(after) => after == Nothing && s.closed
       case Done => s.closed && s.drained
       case _ => false
  }

  lemma NextKeepsShutting(s: Session, s': Session, i: nat)
    requires FullInv(s) && Next(s, s') && Shutting(s, i)
    ensures Shutting(s', i)
  {
    hide StepOf, FrameStep, EffectOf, Act, FullInv, CanRun, NextBy, Enabled;
    ClosedStep(s, s');
    var e :| Enabled(s, e) && NextBy(s, e, s');
    if e.RunTask? && e.i == i {
      ShuttingStep(s, e.choice, s', i);
    } else {
      OthersStay(s, e, s', i);
    }
  }

  lemma ShuttingStep(s: Session, c: Choice, s': Session, i: nat)
    requires Enabled(s, RunTask(i, c)) && NextBy(s, RunTask(i, c), s') && Shutting(s, i)
    ensures Shutting(s', i)
  {
  }

  /** A task that does not run, and is not the loop at its next frame, stays where it is. */
  lemma OthersStay(s: Session, e: Event, s': Session, i: nat)
    requires Enabled(s, e) && NextBy(s, e, s') && i < |s.tasks| && s.tasks[i] != Receiving
    requires !(e.RunTask? && e.i == i)
    ensures i < |s'.tasks| && s'.tasks[i] == s.tasks[i]
  {
    hide StepOf, FrameStep, EffectOf, Act, CanRun;
  }

  lemma {:induction false} ShuttingForGood(run: seq<Session>, m: nat, n: nat, i: nat)
    requires IsRun(run) && m <= n < |run| && Shutting(run[m], i)
    ensures Shutting(run[n], i)
    decreases n
  {
    hide Next, FullInv, Shutting;
    if m < n {
      ShuttingForGood(run, m, n - 1, i);
      RunFullInv(run[..n]);
      NextKeepsShutting(run[n - 1], run[n], i);
    }
  }

  /** A shutdown that was asked for closes the session and empties its slot before its task is done. */
  lemma AskedShutdownCloses(run: seq<Session>, m: nat, n: nat)
    requires IsRun(run) && m < n < |run| && NextBy(run[m], AskShutdown, run[m + 1])
    ensures var i := |run[m].tasks|;
            && i < |run[n].tasks|
            && (run[n].tasks[i].BeginShutdown? || run[n].tasks[i].TakeSlot? || run[n].tasks[i].Done?)
            && (!run[n].tasks[i].BeginShutdown? ==> run[n].closed)
            && (run[n].tasks[i].Done? ==> run[n].drained)
  {
    hide IsRun;
    assert Shutting(run[m + 1], |run[m].tasks|);
    ShuttingForGood(run, m + 1, n, |run[m].tasks|);
  }

  /** A client that retires a stream without a FIN sent, or in a session that is too old. */
  predicate Hopeless(s: Session, i: nat) {
    s.isClient && i < |s.tasks| && s.tasks[i].Retire? && (!s.tasks[i].finSent || s.expired)
  }

  lemma NextKeepsHopeless(s: Session, s': Session, i: nat)
    requires FullInv(s) && Next(s, s') && Hopeless(s, i)
    ensures Hopeless(s', i) || Shutting(s', i)
  {
    hide StepOf, FrameStep, EffectOf, Act, FullInv, CanRun, NextBy, Enabled;
    ClosedStep(s, s');
    var e :| Enabled(s, e) && NextBy(s, e, s');
    if e.RunTask? && e.i == i {
      HopelessStep(s, e.choice, s', i);
    } else {
      OthersStay(s, e, s', i);
      ExpiredForGood(s, s');
    }
  }

  lemma HopelessStep(s: Session, c: Choice, s': Session, i: nat)
    requires Enabled(s, RunTask(i, c)) && NextBy(s, RunTask(i, c), s') && Hopeless(s, i)
    ensures Shutting(s', i)
  {
  }

  lemma ExpiredForGood(s: Session, s': Session)
    requires FullInv(s) && Next(s, s')
    ensures s.expired ==> s'.expired
  {
    hide FullInv, Next, StreamsAfter, SlotAfter;
    var a := NextSteps(s, s');
  }

  lemma {:induction false} HopelessForGood(run: seq<Session>, m: nat, n: nat, i: nat)
    requires IsRun(run) && m <= n < |run| && Hopeless(run[m], i)
    ensures Hopeless(run[n], i) || Shutting(run[n], i)
    decreases n
  {
    hide Next, FullInv, Shutting, Hopeless;
    if m < n {
      HopelessForGood(run, m, n - 1, i);
      RunFullInv(run[..n]);
      if Hopeless(run[n - 1], i) {
        NextKeepsHopeless(run[n - 1], run[n], i);
      } else {
        NextKeepsShutting(run[n - 1], run[n], i);
      }
    }
  }

  /**
   * A client does not wait for its peer in vain: a task that retires a stream whose FIN was not sent,
   * or one of a session that is too old, has closed the session and emptied its slot when it is done.
   */
  lemma HopelessRetirementCloses(run: seq<Session>, m: nat, n: nat, i: nat)
    requires IsRun(run) && m <= n < |run| && run[m].isClient && i < |run[m].tasks| && run[m].tasks[i].Retire?
    requires !run[m].tasks[i].finSent || run[m].expired
    ensures i < |run[n].tasks| && (run[n].tasks[i] == Done ==> run[n].closed && run[n].drained)
  {
    hide IsRun;
    HopelessForGood(run, m, n, i);
  }
}
