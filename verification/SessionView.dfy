/**
 * A client session as its pool sees it, and the proof that every step of a session is a step of
 * that view.
 */
module SessionViews {
  import opened Sessions
  import opened StreamInvariants
  import opened HalfCloses
  import opened Releases
  import opened SessionTheorems
  import SessionInvariants

  /** An occupied slot, removals that have not led to a notice yet, notices sent, and two flags. */
  datatype View = View(active: bool, pending: nat, notices: nat, closed: bool, expired: bool)

  datatype Change = Quiet | Opened | Freed | Notified | Skipped | Drained | Closes | Ages

  predicate CanChange(v: View, c: Change) {
    match c
    case Opened => !v.active && !v.closed && !v.expired
    case Freed => v.active
    case Notified => v.pending > 0 && !v.expired
    case Skipped => v.pending > 0 && v.expired
    case Drained => v.closed
    case _ => true
  }

  function Changed(v: View, c: Change): View
    requires CanChange(v, c)
  {
    match c
    case Quiet => v
    case Opened => v.(active := true)
    case Freed => v.(active := false, pending := v.pending + 1)
    case Notified => v.(pending := v.pending - 1, notices := v.notices + 1)
    case Skipped => v.(pending := v.pending - 1)
    case Drained => v.(active := false)
    case Closes => v.(closed := true)
    case Ages => v.(expired := true)
  }

  function ViewOf(s: Session): View {
    View(s.slot.Some?, IdleCount(s.tasks), s.notices, s.closed, s.expired)
  }

  function ChangeOf(a: Action): Change {
    match a
    case Open(_) => Opened
    case Free => Freed
    case Notify => Notified
    case CountExpiry => Skipped
    case Drain => Drained
    case MarkClosed => Closes
    case MarkExpired => Ages
    case _ => Quiet
  }

  lemma ActFlags(s: Session, a: Action)
    requires Allows(s, a)
    ensures var s' := Act(s, a);
            && s'.slot.Some? == (if a.Open? then true else if a.Free? || a.Drain? then false else s.slot.Some?)
            && s'.notices == s.notices + (if a.Notify? then 1 else 0)
            && s'.expiries == s.expiries + (if a.CountExpiry? then 1 else 0)
            && s'.removals == s.removals + (if a.Free? then 1 else 0)
            && s'.closed == (s.closed || a.MarkClosed?)
            && s'.expired == (s.expired || a.MarkExpired?)
  {
  }

  /** Only a removal's own task sends the notice, and only an unexpired session does. */
  lemma StepNotifies(s: Session, t: Task, c: Choice)
    requires CanRun(s, t, c)
    ensures var a := StepOf(s, t, c).action;
            && (a.Notify? ==> !s.expired) && (a.CountExpiry? ==> s.expired)
            && (a.Drain? ==> t.TakeSlot?)
  {
  }

  lemma NextNotifies(s: Session, s': Session) returns (a: Action)
    requires FullInv(s) && Next(s, s')
    ensures StepsBy(s, a, s')
    ensures a.Open? ==> MayOpen(s, a.id)
    ensures (a.Notify? ==> !s.expired) && (a.CountExpiry? ==> s.expired) && (a.Drain? ==> s.closed)
  {
    hide StepOf, FrameStep, EffectOf, Act, CanRun, Inv, NotLost, RetireOwed, SlotLeftWhy, GracefulOk, NoticesOk,
      NextBy, StepsBy, MayOpen, SynPending, SynPositions;
    var e :| Enabled(s, e) && NextBy(s, e, s');
    ShapeOf(s);
    match e
    case RunTask(i, choice) =>
      RunTaskSteps(s, i, choice, s');
      StepNotifies(s, s.tasks[i], choice);
      a := StepOf(s, s.tasks[i], choice).action;
    case ReceiveFrame(f, ok) =>
      FrameValid(s, f, ok, s');
      FrameSteps(s, f, ok, s');
      FrameSmallFacts(s, f, ok);
      a := FrameStep(s, f, ok).action;
    case ReceiveEnds =>
      EndSteps(s, s');
      a := Stay;
    case _ =>
      EffectSteps(s, e, s');
      EffectSmallFacts(s, e);
      a := EffectOf(s, e).action;
  }

  lemma ShapeOf(s: Session)
    requires Inv(s)
    ensures SessionInvariants.Shape(s)
  {
  }

  /** Every step of a client session changes its view in one of the ways above. */
  lemma SessionRefinesView(s: Session, s': Session) returns (c: Change)
    requires FullInv(s) && s.isClient && Next(s, s')
    ensures CanChange(ViewOf(s), c) && ViewOf(s') == Changed(ViewOf(s), c)
  {
    hide Next, Act, Inv, NotLost, RetireOwed, SlotLeftWhy, GracefulOk, ClosedOk, AdmissionOk, IdleCount;
    NextKeepsFullInv(s, s');
    var a := NextNotifies(s, s');
    ActFlags(s, a);
    c := ChangeOf(a);
  }

  /**
   * A reservation in the session is the reservation its pool sees: it opens a stream exactly when the
   * view allows it, that is when the session is open and young and its slot is free, and otherwise
   * it leaves the view as it is.
   */
  lemma ReservationRefinesView(s: Session, i: nat, c: Choice, s': Session)
    requires FullInv(s) && Enabled(s, RunTask(i, c)) && NextBy(s, RunTask(i, c), s') && s.tasks[i].Reserving?
    ensures ViewOf(s') == if CanChange(ViewOf(s), Opened) then Changed(ViewOf(s), Opened) else ViewOf(s)
    ensures CanChange(ViewOf(s), Opened) ==> |s'.streams| == |s.streams| + 1 && s'.Holds(s.tasks[i].id)
  {
    hide Inv, NotLost, RetireOwed, SlotLeftWhy, GracefulOk, ClosedOk, AdmissionOk, IdleCount, StepOf;
    ReserveStep(s, i, c);
    NextKeepsFullInv(s, s') by { assert Enabled(s, RunTask(i, c)) && NextBy(s, RunTask(i, c), s'); }
  }

  lemma ReserveStep(s: Session, i: nat, c: Choice)
    requires i < |s.tasks| && CanRun(s, s.tasks[i], c) && s.tasks[i].Reserving?
    ensures var step := StepOf(s, s.tasks[i], c);
            step == if !s.closed && !s.expired && s.slot.None? then Go(Open(s.tasks[i].id), Opening(s.tasks[i].id))
                    else Go(Stay, Done)
  {
  }
}
