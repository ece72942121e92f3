/**
 * Release of the slot: the invariants behind the theorems on half-close, on graceful removal, on
 * closed sessions, on idle notices and on the admission of streams, and that every step keeps them.
 */
module Releases {
  import opened Wrappers
  import opened Bytes
  import opened Frames
  import opened Inbound
  import opened Sessions
  import opened SessionInvariants
  import opened StreamInvariants
  import opened HalfCloses

  // ---- why a pump stopped while its stream is in the slot ----

  predicate LeftWhy(st: Stream) {
    && (!st.Live() ==> st.handle == Dropped || st.eof)
    && (st.finMissed ==> st.handle == Dropped)
  }

  ghost predicate SlotLeftWhy(s: Session) {
    s.slot.Some? && SlotValid(s) ==> LeftWhy(s.streams[s.Key()])
  }

  lemma InboundLeftWhy(s: Session, t: Task, c: Choice)
    requires InboundTask(t) && CanRun(s, t, c) && s.slot.Some? && SlotValid(s) && LeftWhy(s.streams[s.Key()])
    requires FinOrdered(s.streams[s.Key()]) && (CarrierKey(t) == Some(s.Key()) ==> s.streams[s.Key()].finQueued.None?)
    ensures var a := InboundStep(s, t, c).action;
            a.SetStream? && a.key == s.Key() ==> LeftWhy(a.st)
  {
  }

  lemma StepLeftWhy(s: Session, i: nat, c: Choice)
    requires Inv(s) && i < |s.tasks| && CanRun(s, s.tasks[i], c) && s.slot.Some? && SlotValid(s)
    requires LeftWhy(s.streams[s.Key()])
    ensures var a := StepOf(s, s.tasks[i], c).action;
            a.SetStream? && a.key == s.Key() ==> LeftWhy(a.st)
  {
    hide NoGaps, AllFromFrames, SlotShape, IdsShape, TasksShape, FinsGood, Bounded, Conserved, FinOrdered, LeftWhy,
      CanRun, InboundStep, AdmissionStep, ReleaseStep, ClosingStep;
    var t := s.tasks[i];
    assert StreamInv(s.streams[s.Key()]);
    if InboundTask(t) {
      if CarrierKey(t) == Some(s.Key()) {
        assert s.streams[s.Key()].finQueued.None?;
      }
      InboundLeftWhy(s, t, c);
    } else {
      NoSetStream(s, t, c);
    }
  }

  lemma EffectLeftWhy(s: Session, e: Event)
    requires Shape(s) && OtherEvent(e) && Enabled(s, e) && s.slot.Some? && SlotValid(s)
    requires LeftWhy(s.streams[s.Key()])
    ensures var a := EffectOf(s, e).action;
            a.SetStream? && a.key == s.Key() ==> LeftWhy(a.st)
  {
  }

  lemma ActLeftWhy(s: Session, a: Action)
    requires DataShape(s) && SlotLeftWhy(s) && Allows(s, a)
    requires s.slot.Some? && a.SetStream? && a.key == s.Key() ==> LeftWhy(a.st)
    ensures SlotLeftWhy(Act(s, a))
  {
  }

  // ---- what is removed as finished is finished ----

  predicate GracefulRemove(t: Task) {
    t.Remove? && t.graceful
  }

  ghost predicate GracefulOk(s: Session) {
    forall i :: 0 <= i < |s.tasks| && GracefulRemove(s.tasks[i]) ==>
      && s.tasks[i].id in s.used
      && (s.distinct && s.Holds(s.tasks[i].id) ==> s.slot.value.Finished())
  }

  lemma StepGraceful(s: Session, t: Task, c: Choice)
    requires CanRun(s, t, c)
    ensures var step := StepOf(s, t, c);
            && (GracefulRemove(step.next) ==>
                  step.action.Stay? && s.Holds(step.next.id) && s.slot.value.Finished())
            && (step.spawned != [] ==> |step.spawned| == 1 && !GracefulRemove(step.spawned[0]))
  {
  }

  /** Flags are never lowered, and a new stream with distinct ids has an id never used before. */
  lemma ActGraceful(s: Session, a: Action, id: u32)
    requires Allows(s, a) && id in s.used
    requires s.distinct && s.Holds(id) ==> s.slot.value.Finished()
    ensures id in Act(s, a).used
    ensures Act(s, a).distinct && Act(s, a).Holds(id) ==> Act(s, a).slot.value.Finished()
  {
  }

  lemma SlotIdUsed(s: Session)
    requires DataShape(s) && s.slot.Some?
    ensures s.slot.value.id in s.used
  {
    assert s.streams[s.Key()].id in s.used;
  }

  lemma RunKeepsGraceful(s: Session, i: nat, c: Choice)
    requires Shape(s) && GracefulOk(s) && i < |s.tasks| && CanRun(s, s.tasks[i], c)
    ensures Allows(s, StepOf(s, s.tasks[i], c).action)
    ensures GracefulOk(Commit(s, i, StepOf(s, s.tasks[i], c)))
  {
    hide StepOf, Act, CanRun, SlotShape, IdsShape, TasksShape, GracefulRemove;
    var t := s.tasks[i];
    StepAllowed(s, t, c);
    StepGraceful(s, t, c);
    var step := StepOf(s, t, c);
    var s' := Commit(s, i, step);
    forall j | 0 <= j < |s'.tasks| && GracefulRemove(s'.tasks[j])
      ensures s'.tasks[j].Remove?
      ensures s'.tasks[j].id in s'.used
      ensures s'.distinct && s'.Holds(s'.tasks[j].id) ==> s'.slot.value.Finished()
    {
      GracefulIsRemove(s'.tasks[j]);
      if j == i {
        SlotIdUsed(s);
      }
      ActGraceful(s, step.action, s'.tasks[j].id);
    }
  }

  lemma GracefulIsRemove(t: Task)
    requires GracefulRemove(t)
    ensures t.Remove?
  {
  }

  /** Steps that add tasks other than graceful removals. */
  lemma OtherKeepsGraceful(s: Session, s': Session, a: Action)
    requires GracefulOk(s) && Allows(s, a)
    requires s'.slot == Act(s, a).slot && s'.used == Act(s, a).used && s'.distinct == Act(s, a).distinct
    requires |s.tasks| <= |s'.tasks|
    requires forall j :: 0 <= j < |s'.tasks| && GracefulRemove(s'.tasks[j]) ==>
              j < |s.tasks| && s'.tasks[j] == s.tasks[j]
    ensures GracefulOk(s')
  {
    hide Act;
    forall j | 0 <= j < |s'.tasks| && GracefulRemove(s'.tasks[j])
      ensures s'.tasks[j].id in s'.used
      ensures s'.distinct && s'.Holds(s'.tasks[j].id) ==> s'.slot.value.Finished()
    {
      ActGraceful(s, a, s'.tasks[j].id);
    }
  }

  lemma FrameGraceful(s: Session, f: Frame, ok: bool)
    requires SlotValid(s)
    ensures !GracefulRemove(FrameStep(s, f, ok).next) && FrameStep(s, f, ok).spawned == []
  {
  }

  lemma EffectGraceful(s: Session, e: Event)
    requires OtherEvent(e) && Enabled(s, e)
    ensures var spawned := EffectOf(s, e).spawned;
            spawned == [] || (|spawned| == 1 && !GracefulRemove(spawned[0]))
  {
  }

  // ---- closed sessions ----

  ghost predicate ClosedOk(s: Session) {
    && (forall i :: 0 <= i < |s.tasks| && s.tasks[i].TakeSlot? ==> s.closed)
    && (s.drained ==> s.closed && (s.isClient ==> s.slot.None?))
  }

  lemma StepClosed(s: Session, t: Task, c: Choice)
    requires CanRun(s, t, c)
    ensures var step := StepOf(s, t, c);
            && (step.next.TakeSlot? ==> step.action.MarkClosed?)
            && (step.action.Drain? ==> t.TakeSlot?)
            && (step.action.Open? ==> t.Admitting? || (t.Reserving? && !s.closed))
            && (step.spawned != [] ==> |step.spawned| == 1 && !step.spawned[0].TakeSlot?)
  {
  }

  // ---- idle notices ----

  function IdleWeight(t: Task): nat {
    if t.BecameIdle? then 1 else 0
  }

  /** How many removals are still to be followed by a notice or a shutdown. */
  function IdleCount(tasks: seq<Task>): nat {
    if tasks == [] then 0 else IdleCount(tasks[..|tasks| - 1]) + IdleWeight(tasks[|tasks| - 1])
  }

  lemma {:induction false} IdleCountUpdate(tasks: seq<Task>, i: nat, t: Task)
    requires i < |tasks|
    ensures IdleCount(tasks[i := t]) + IdleWeight(tasks[i]) == IdleCount(tasks) + IdleWeight(t)
  {
    var n := |tasks| - 1;
    if i < n {
      IdleCountUpdate(tasks[..n], i, t);
      assert tasks[i := t][..n] == tasks[..n][i := t];
    } else {
      assert tasks[i := t][..n] == tasks[..n];
    }
  }

  lemma IdleCountSpawn(tasks: seq<Task>, spawned: seq<Task>)
    requires spawned == [] || (|spawned| == 1 && !spawned[0].BecameIdle?)
    ensures IdleCount(tasks + spawned) == IdleCount(tasks)
  {
    if spawned == [] {
      assert tasks + spawned == tasks;
    } else {
      assert (tasks + spawned)[..|tasks|] == tasks;
    }
  }

  /** Every removal leads to one idle notice or one shutdown of an expired session, or will. */
  ghost predicate NoticesOk(s: Session) {
    s.removals == s.notices + s.expiries + IdleCount(s.tasks)
  }

  lemma StepNotices(s: Session, t: Task, c: Choice)
    requires CanRun(s, t, c)
    ensures var step := StepOf(s, t, c);
            var a := step.action;
            && IdleWeight(step.next) + (if a.Notify? then 1 else 0) + (if a.CountExpiry? then 1 else 0)
               == IdleWeight(t) + (if a.Free? then 1 else 0)
            && (step.spawned == [] || (|step.spawned| == 1 && !step.spawned[0].BecameIdle?))
  {
  }

  lemma RunKeepsNotices(s: Session, i: nat, c: Choice)
    requires NoticesOk(s) && i < |s.tasks| && CanRun(s, s.tasks[i], c) && DataShape(s)
    ensures Allows(s, StepOf(s, s.tasks[i], c).action)
    ensures NoticesOk(Commit(s, i, StepOf(s, s.tasks[i], c)))
  {
    hide StepOf, CanRun, SlotShape, IdsShape, IdleCount, IdleWeight, StreamsAfter, SlotAfter;
    var step := StepOf(s, s.tasks[i], c);
    StepAllowed(s, s.tasks[i], c);
    StepNotices(s, s.tasks[i], c);
    IdleCountUpdate(s.tasks, i, step.next);
    IdleCountSpawn(s.tasks[i := step.next], step.spawned);
  }

  // ---- admission ----

  /** A SYN whose outcome is still open. */
  predicate SynPending(t: Task) {
    t.Admitting? || t.Rejecting? || t.Offering? || t.OfferFull?
  }

  /** Where the SYN frames are. */
  function SynPositions(fs: seq<Frame>): (ps: seq<nat>)
    ensures forall k :: 0 <= k < |ps| ==> ps[k] < |fs| && fs[ps[k]].command == Syn
    ensures forall j, k :: 0 <= j < k < |ps| ==> ps[j] < ps[k]
  {
    if fs == [] then []
    else
      var n := |fs| - 1;
      SynPositions(fs[..n]) + if fs[n].command == Syn then [n] else []
  }

  lemma SynPositionsSnoc(fs: seq<Frame>, f: Frame)
    ensures SynPositions(fs + [f]) == SynPositions(fs) + if f.command == Syn then [|fs|] else []
  {
    assert (fs + [f])[..|fs|] == fs;
  }

  ghost predicate AdmissionOk(s: Session) {
    && s.tasks != []
    && (forall i :: 0 <= i < |s.tasks| && s.tasks[i].Reserving? ==> s.isClient)
    && (SynPending(s.tasks[0]) ==> !s.isClient && s.settings)
    && (!s.isClient && s.streams != [] ==> s.settings)
    && (!s.isClient ==> |SynPositions(s.handled)| == |s.syns| + if SynPending(s.tasks[0]) then 1 else 0)
    && (s.isClient ==> s.syns == [])
  }

  /** What a step of a task means for admission. */
  predicate AdmissionStepOk(s: Session, t: Task, step: Step) {
    && !step.next.Reserving?
    && (step.spawned != [] ==> |step.spawned| == 1 && !step.spawned[0].Reserving?)
    && (SynPending(step.next) ==> SynPending(t))
    && |step.answer| + (if SynPending(step.next) then 1 else 0) == (if SynPending(t) then 1 else 0)
    && (step.action.Open? ==> t.Admitting? || t.Reserving?)
  }

  lemma InboundAdmits(s: Session, t: Task, c: Choice)
    requires InboundTask(t) && CanRun(s, t, c)
    ensures AdmissionStepOk(s, t, InboundStep(s, t, c))
  {
  }

  lemma AdmissionAdmits(s: Session, t: Task, c: Choice)
    requires AdmissionTask(t) && CanRun(s, t, c)
    ensures AdmissionStepOk(s, t, AdmissionStep(s, t, c))
  {
  }

  lemma ReleaseAdmits(s: Session, t: Task)
    requires ReleaseTask(t)
    ensures AdmissionStepOk(s, t, ReleaseStep(s, t))
  {
  }

  lemma ClosingAdmits(s: Session, t: Task, c: Choice)
    requires ClosingTask(t) && CanRun(s, t, c)
    ensures AdmissionStepOk(s, t, ClosingStep(s, t, c))
  {
  }

  lemma StepAdmission(s: Session, t: Task, c: Choice)
    requires CanRun(s, t, c)
    ensures AdmissionStepOk(s, t, StepOf(s, t, c))
  {
    hide InboundStep, AdmissionStep, ReleaseStep, ClosingStep, AdmissionStepOk;
    if InboundTask(t) {
      InboundAdmits(s, t, c);
    } else if AdmissionTask(t) {
      AdmissionAdmits(s, t, c);
    } else if ReleaseTask(t) {
      ReleaseAdmits(s, t);
    } else {
      ClosingAdmits(s, t, c);
    }
  }

  // ---- one invariant for all of it ----

  ghost predicate SmallInv(s: Session) {
    SlotLeftWhy(s) && GracefulOk(s) && ClosedOk(s) && NoticesOk(s) && AdmissionOk(s)
  }

  ghost predicate FullInv(s: Session) {
    Inv(s) && NotLost(s) && RetireOwed(s) && SmallInv(s)
  }

  lemma InitialFullInv(isClient: bool)
    ensures FullInv(InitialSession(isClient))
  {
    hide Inv, GracefulOk, AdmissionOk, NoticesOk;
    InitialInv(isClient);
    InitialSmallInv(isClient);
  }

  lemma InitialSmallInv(isClient: bool)
    ensures var s := InitialSession(isClient); GracefulOk(s) && AdmissionOk(s) && NoticesOk(s)
  {
    assert IdleCount([Receiving][..0]) == 0;
  }

  lemma RunKeepsClosed(s: Session, i: nat, c: Choice)
    requires Shape(s) && ClosedOk(s) && AdmissionOk(s) && i < |s.tasks| && CanRun(s, s.tasks[i], c)
    ensures Allows(s, StepOf(s, s.tasks[i], c).action)
    ensures ClosedOk(Commit(s, i, StepOf(s, s.tasks[i], c)))
  {
    hide StepOf, CanRun, SlotShape, IdsShape, StreamsAfter, LoopTask, NamesStream, SynPositions;
    var t := s.tasks[i];
    StepAllowed(s, t, c);
    StepClosed(s, t, c);
    OnlyLoopAdmits(s, i);
  }

  lemma OnlyLoopAdmits(s: Session, i: nat)
    requires Shape(s) && AdmissionOk(s) && i < |s.tasks|
    ensures SynPending(s.tasks[i]) ==> i == 0 && !s.isClient && s.settings
  {
  }

  lemma RunKeepsAdmission(s: Session, i: nat, c: Choice)
    requires Shape(s) && AdmissionOk(s) && i < |s.tasks| && CanRun(s, s.tasks[i], c)
    ensures Allows(s, StepOf(s, s.tasks[i], c).action)
    ensures AdmissionOk(Commit(s, i, StepOf(s, s.tasks[i], c)))
  {
    hide StepOf, CanRun, Act, SlotShape, IdsShape, LoopTask, NamesStream, SynPositions, SynPending;
    var t := s.tasks[i];
    var step := StepOf(s, t, c);
    StepAllowed(s, t, c);
    StepAdmission(s, t, c);
    OnlyLoopAdmits(s, i);
    AdmittingIsPending(t);
    ActSettings(s, step.action);
    var s' := Commit(s, i, step);
    assert s'.tasks[0] == if i == 0 then step.next else s.tasks[0];
  }

  lemma AdmittingIsPending(t: Task)
    ensures t.Admitting? ==> SynPending(t)
    ensures !SynPending(Receiving)
  {
  }

  lemma ActSettings(s: Session, a: Action)
    requires Allows(s, a)
    ensures Act(s, a).isClient == s.isClient && Act(s, a).handled == s.handled && Act(s, a).syns == s.syns
    ensures Act(s, a).replies == s.replies
    ensures Act(s, a).settings == (s.settings || a.NoteSettings?)
    ensures Act(s, a).streams != [] ==> s.streams != [] || a.Open?
    ensures Act(s, a).closed == (s.closed || a.MarkClosed?)
    ensures Act(s, a).drained == (s.drained || a.Drain?)
    ensures Act(s, a).removals + s.notices + s.expiries
         == s.removals + Act(s, a).notices + Act(s, a).expiries
            + (if a.Free? then 1 else 0) - (if a.Notify? then 1 else 0) - (if a.CountExpiry? then 1 else 0)
  {
    ActCount(s, a);
  }

  lemma RunKeepsSmall(s: Session, i: nat, c: Choice)
    requires Inv(s) && SmallInv(s) && i < |s.tasks| && CanRun(s, s.tasks[i], c)
    ensures Allows(s, StepOf(s, s.tasks[i], c).action)
    ensures SmallInv(Commit(s, i, StepOf(s, s.tasks[i], c)))
  {
    hide StepOf, CanRun, Act, SlotShape, IdsShape, TasksShape, Carriers, StreamsGood, NoGaps, AllFromFrames,
      GracefulOk, ClosedOk, NoticesOk, AdmissionOk, LeftWhy;
    StepAllowed(s, s.tasks[i], c);
    RunKeepsGraceful(s, i, c);
    RunKeepsClosed(s, i, c);
    RunKeepsNotices(s, i, c);
    RunKeepsAdmission(s, i, c);
    if s.slot.Some? {
      ShapeValid(s);
      StepLeftWhy(s, i, c);
    }
    ActLeftWhy(s, StepOf(s, s.tasks[i], c).action);
  }

  /** The receive loop's steps touch none of the counters and open nothing. */
  lemma FrameSmallFacts(s: Session, f: Frame, ok: bool)
    requires SlotValid(s)
    ensures var step := FrameStep(s, f, ok);
            var a := step.action;
            && step.spawned == []
            && !a.Open? && !a.Free? && !a.Drain? && !a.Notify? && !a.CountExpiry? && !a.MarkClosed?
            && !step.next.TakeSlot? && !step.next.BecameIdle? && !step.next.Reserving?
            && (SynPending(step.next) ==> !s.isClient && s.settings)
            && (!s.isClient ==>
                  |step.answer| + (if SynPending(step.next) then 1 else 0) == if f.command == Syn then 1 else 0)
            && (s.isClient ==> step.answer == [])
            && (a.SetStream? ==> a.key < |s.streams| && (LeftWhy(s.streams[a.key]) ==> LeftWhy(a.st)))
  {
  }

  lemma FrameKeepsSmall(s: Session, f: Frame, ok: bool)
    requires Inv(s) && SmallInv(s) && s.tasks[0] == Receiving
    ensures SlotValid(s) && Allows(s, FrameStep(s, f, ok).action)
    ensures SmallInv(Commit(s, 0, FrameStep(s, f, ok)).(handled := s.handled + [f]))
  {
    hide FrameStep, Act, SlotShape, IdsShape, LoopTask, NamesStream, Carriers, StreamsGood, NoGaps, AllFromFrames,
      GracefulRemove, IdleCount, IdleWeight, LeftWhy, SynPending, SynPositions;
    FrameAllowed(s, f, ok);
    FrameSmallFacts(s, f, ok);
    FrameGraceful(s, f, ok);
    var step := FrameStep(s, f, ok);
    var s' := Commit(s, 0, step).(handled := s.handled + [f]);
    assert s'.tasks == s.tasks[0 := step.next];
    ActSettings(s, step.action);
    ActLeftWhy(s, step.action);
    OtherKeepsGraceful(s, s', step.action);
    IdleCountUpdate(s.tasks, 0, step.next);
    NoWeight(step.next);
    SynPositionsSnoc(s.handled, f);
    AdmittingIsPending(step.next);
    FrameSlot(s, step.action);
  }

  lemma NoWeight(t: Task)
    requires !t.BecameIdle?
    ensures IdleWeight(t) == 0 && IdleWeight(Receiving) == 0
  {
  }

  lemma FrameSlot(s: Session, a: Action)
    requires Allows(s, a) && !a.Open?
    ensures s.slot.None? ==> Act(s, a).slot.None?
  {
  }

  lemma EffectSmallFacts(s: Session, e: Event)
    requires OtherEvent(e) && Enabled(s, e)
    ensures var effect := EffectOf(s, e);
            var a := effect.action;
            && !a.Open? && !a.Free? && !a.Drain? && !a.Notify? && !a.CountExpiry? && !a.NoteSettings?
            && (effect.spawned == []
                || (|effect.spawned| == 1 && !effect.spawned[0].TakeSlot? && !effect.spawned[0].BecameIdle?
                    && (effect.spawned[0].Reserving? ==> s.isClient)))
  {
  }

  lemma EffectKeepsSmall(s: Session, e: Event)
    requires Inv(s) && SmallInv(s) && OtherEvent(e) && Enabled(s, e)
    ensures Allows(s, EffectOf(s, e).action)
    ensures SmallInv(Act(s, EffectOf(s, e).action).(tasks := s.tasks + EffectOf(s, e).spawned))
  {
    hide EffectOf, Act, SlotShape, IdsShape, LoopTask, NamesStream, Carriers, StreamsGood, NoGaps, AllFromFrames,
      GracefulRemove, IdleCount, IdleWeight, LeftWhy, SynPending, SynPositions, Enabled;
    EffectAllowed(s, e);
    EffectSmallFacts(s, e);
    EffectGraceful(s, e);
    var effect := EffectOf(s, e);
    var s' := Act(s, effect.action).(tasks := s.tasks + effect.spawned);
    ActSettings(s, effect.action);
    if s.slot.Some? {
      ShapeValid(s);
      EffectLeftWhy(s, e);
    }
    ActLeftWhy(s, effect.action);
    OtherKeepsGraceful(s, s', effect.action);
    IdleCountSpawn(s.tasks, effect.spawned);
    FrameSlot(s, effect.action);
  }

  lemma EndKeepsSmall(s: Session)
    requires Inv(s) && SmallInv(s) && s.tasks[0] == Receiving
    ensures SmallInv(Commit(s, 0, Go(Stay, BeginShutdown(ThenEnd))))
  {
    hide SlotShape, IdsShape, LoopTask, NamesStream, Carriers, StreamsGood, NoGaps, AllFromFrames,
      IdleCount, LeftWhy, SynPositions;
    var s' := Commit(s, 0, Go(Stay, BeginShutdown(ThenEnd)));
    assert s'.tasks == s.tasks[0 := BeginShutdown(ThenEnd)];
    IdleCountUpdate(s.tasks, 0, BeginShutdown(ThenEnd));
    OtherKeepsGraceful(s, s', Stay);
  }

  lemma NextKeepsFullInv(s: Session, s': Session)
    requires FullInv(s) && Next(s, s')
    ensures FullInv(s')
  {
    hide StepOf, FrameStep, EffectOf, Act, CanRun, SlotShape, IdsShape, LoopTask, NamesStream, Carriers, StreamsGood,
      GapFree, FromFrames, NotLost, RetireOwed, SmallInv;
    var e :| Enabled(s, e) && NextBy(s, e, s');
    match e
    case RunTask(i, choice) =>
      RunTaskKeepsInv(s, i, choice);
      RunKeepsNotLost(s, i, choice);
      RunKeepsRetireOwed(s, i, choice);
      RunKeepsSmall(s, i, choice);
    case ReceiveFrame(f, ok) =>
      ReceiveKeepsInv(s, f, ok);
      FrameKeepsNotLost(s, f, ok);
      FrameKeepsRetireOwed(s, f, ok);
      FrameKeepsSmall(s, f, ok);
    case ReceiveEnds =>
      EndKeepsInv(s);
      EndKeepsNotLost(s);
      EndKeepsRetireOwed(s);
      EndKeepsSmall(s);
    case _ =>
      EffectKeepsInv(s, e);
      EffectKeepsNotLost(s, e);
      EffectKeepsRetireOwed(s, e);
      EffectKeepsSmall(s, e);
  }

  lemma {:induction false} RunFullInv(run: seq<Session>)
    requires IsRun(run)
    ensures FullInv(run[|run| - 1])
    decreases |run|
  {
    hide FullInv, Next, InitialSession;
    if |run| == 1 {
      InitialFullInv(run[0].isClient);
    } else {
      RunFullInv(run[..|run| - 1]);
      NextKeepsFullInv(run[|run| - 2], run[|run| - 1]);
    }
  }
}
