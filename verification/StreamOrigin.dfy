/**
 * Where a stream comes from in the sequence of handled frames: the SYN that opened it on a server,
 * the FIN that ended it, and the pushes in between.
 */
module StreamOrigins {
  import opened Wrappers
  import opened Bytes
  import opened Frames
  import opened Inbound
  import opened Sessions
  import opened SessionInvariants
  import opened StreamInvariants
  import opened HalfCloses
  import opened Releases

  /** Frame `j` is the FIN of this stream, and what came before it is what was then received. */
  ghost predicate FinAt(st: Stream, handled: seq<Frame>, j: nat) {
    && st.openedAt <= j < |handled|
    && handled[j].command == Fin && handled[j].streamId == st.id
    && st.finReceived.Some? && st.finReceived.value <= |st.received|
    && st.received[..st.finReceived.value] == PushPayload(handled[st.openedAt..j], st.id)
  }

  predicate SynAt(handled: seq<Frame>, n: nat, id: u32) {
    0 < n <= |handled| && handled[n - 1].command == Syn && handled[n - 1].streamId == id
  }

  ghost predicate Origin(st: Stream, handled: seq<Frame>, isClient: bool, closed: bool) {
    && (st.skipped ==> closed)
    && (!isClient ==> SynAt(handled, st.openedAt, st.id))
    && (st.finReceived.Some? ==> exists j: nat :: FinAt(st, handled, j))
  }

  ghost predicate Origins(s: Session) {
    && (s.tasks != [] && s.tasks[0].Admitting? ==> SynAt(s.handled, |s.handled|, s.tasks[0].id))
    && forall k :: 0 <= k < |s.streams| ==> Origin(s.streams[k], s.handled, s.isClient, s.closed)
  }

  /** A stream after a step that raised no FIN for it. */
  predicate Extends(st: Stream, st': Stream, closed: bool) {
    && st'.id == st.id && st'.openedAt == st.openedAt && st'.finReceived == st.finReceived
    && st.received <= st'.received
    && (st'.skipped ==> st.skipped || closed)
  }

  lemma ExtendsOrigin(st: Stream, st': Stream, handled: seq<Frame>, handled': seq<Frame>, isClient: bool,
        closed: bool, closed': bool)
    requires Origin(st, handled, isClient, closed) && Extends(st, st', closed)
    requires handled <= handled' && (closed ==> closed')
    ensures Origin(st', handled', isClient, closed')
  {
    if st.finReceived.Some? {
      var j: nat :| FinAt(st, handled, j);
      assert handled'[st.openedAt..j] == handled[st.openedAt..j];
      assert st'.received[..st.finReceived.value] == st.received[..st.finReceived.value];
      assert FinAt(st', handled', j);
    }
  }

  /** What an action may write to a stream. */
  predicate ExtendsSet(s: Session, a: Action) {
    a.SetStream? ==> a.key < |s.streams| && Extends(s.streams[a.key], a.st, s.closed)
  }

  lemma ActExtends(s: Session, a: Action, k: nat)
    requires Allows(s, a) && ExtendsSet(s, a) && !a.RaiseRemoteFin? && k < |s.streams|
    ensures k < |Act(s, a).streams| && Extends(s.streams[k], Act(s, a).streams[k], s.closed)
  {
  }

  /** A step that raises no FIN and opens no stream without a SYN keeps every origin. */
  lemma StepKeepsOrigins(s: Session, a: Action, s': Session)
    requires Origins(s) && Allows(s, a) && ExtendsSet(s, a) && !a.RaiseRemoteFin?
    requires s'.streams == Act(s, a).streams && s'.isClient == s.isClient
    requires s'.closed == Act(s, a).closed && s.handled <= s'.handled
    requires a.Open? ==> s'.handled == s.handled && (s.isClient || SynAt(s.handled, |s.handled|, a.id))
    requires s'.tasks != [] && s'.tasks[0].Admitting? ==> SynAt(s'.handled, |s'.handled|, s'.tasks[0].id)
    ensures Origins(s')
  {
    hide Act, Extends;
    ActCount(s, a);
    ActSettings(s, a);
    forall k | 0 <= k < |s'.streams|
      ensures Origin(s'.streams[k], s'.handled, s'.isClient, s'.closed)
    {
      if k < |s.streams| {
        ActExtends(s, a, k);
        ExtendsOrigin(s.streams[k], s'.streams[k], s.handled, s'.handled, s.isClient, s.closed, s'.closed);
      }
    }
  }

  /** What a step of a task means for origins. */
  predicate ExtendsStep(s: Session, t: Task, step: Step) {
    && ExtendsSet(s, step.action) && !step.action.RaiseRemoteFin?
    && !step.next.Admitting?
    && (step.action.Open? ==> t == Admitting(step.action.id) || t == Reserving(step.action.id))
  }

  lemma InboundExtends(s: Session, t: Task, c: Choice)
    requires InboundTask(t) && CanRun(s, t, c)
    ensures ExtendsStep(s, t, InboundStep(s, t, c))
  {
  }

  lemma AdmissionExtends(s: Session, t: Task, c: Choice)
    requires AdmissionTask(t) && CanRun(s, t, c)
    ensures ExtendsStep(s, t, AdmissionStep(s, t, c))
  {
  }

  lemma ReleaseExtends(s: Session, t: Task)
    requires ReleaseTask(t)
    ensures ExtendsStep(s, t, ReleaseStep(s, t))
  {
  }

  lemma ClosingExtends(s: Session, t: Task, c: Choice)
    requires ClosingTask(t) && CanRun(s, t, c)
    ensures ExtendsStep(s, t, ClosingStep(s, t, c))
  {
  }

  lemma StepExtends(s: Session, t: Task, c: Choice)
    requires CanRun(s, t, c)
    ensures ExtendsStep(s, t, StepOf(s, t, c))
  {
    hide InboundStep, AdmissionStep, ReleaseStep, ClosingStep, ExtendsStep;
    if InboundTask(t) {
      InboundExtends(s, t, c);
    } else if AdmissionTask(t) {
      AdmissionExtends(s, t, c);
    } else if ReleaseTask(t) {
      ReleaseExtends(s, t);
    } else {
      ClosingExtends(s, t, c);
    }
  }

  lemma RunKeepsOrigins(s: Session, i: nat, c: Choice)
    requires Shape(s) && AdmissionOk(s) && Origins(s) && i < |s.tasks| && CanRun(s, s.tasks[i], c)
    ensures Allows(s, StepOf(s, s.tasks[i], c).action)
    ensures Origins(Commit(s, i, StepOf(s, s.tasks[i], c)))
  {
    hide StepOf, CanRun, Act, SlotShape, IdsShape, LoopTask, NamesStream, ExtendsSet, Origin, SynAt, SynPositions,
      SynPending;
    var step := StepOf(s, s.tasks[i], c);
    StepAllowed(s, s.tasks[i], c);
    StepExtends(s, s.tasks[i], c);
    OnlyLoopAdmits(s, i);
    AdmittingIsPending(s.tasks[i]);
    ActSettings(s, step.action);
    StepKeepsOrigins(s, step.action, Commit(s, i, step));
  }

  lemma FrameExtends(s: Session, f: Frame, ok: bool)
    requires SlotValid(s)
    ensures var step := FrameStep(s, f, ok);
            && ExtendsSet(s, step.action) && !step.action.Open?
            && (step.next.Admitting? ==> f.command == Syn && step.next.id == f.streamId)
            && (step.action.RaiseRemoteFin? ==> f.command == Fin && s.Holds(f.streamId) && !step.next.Admitting?)
            && step.spawned == []
  {
  }

  lemma FinKeepsOrigins(s: Session, f: Frame, s': Session)
    requires Inv(s) && Origins(s) && SlotValid(s) && s.Holds(f.streamId) && f.command == Fin
    requires s'.streams == Act(s, RaiseRemoteFin).streams && s'.isClient == s.isClient
    requires s'.closed == s.closed && s'.handled == s.handled + [f]
    requires s'.tasks != [] ==> !s'.tasks[0].Admitting?
    ensures Origins(s')
  {
    hide Extends, IdsShape, TasksShape, Carriers, StreamsGood, NoGaps, PushPayload;
    ActCount(s, RaiseRemoteFin);
    forall k | 0 <= k < |s'.streams|
      ensures Origin(s'.streams[k], s'.handled, s'.isClient, s'.closed)
    {
      if k == s.Key() {
        FinHere(s.streams[k], s'.streams[k], s.handled, f, s.isClient, s.closed);
      } else {
        SameExtends(s.streams[k], s.closed);
        ExtendsOrigin(s.streams[k], s'.streams[k], s.handled, s'.handled, s.isClient, s.closed, s'.closed);
      }
    }
  }

  lemma SameExtends(st: Stream, closed: bool)
    ensures Extends(st, st, closed)
  {
  }

  lemma FinHere(st: Stream, st': Stream, handled: seq<Frame>, f: Frame, isClient: bool, closed: bool)
    requires Origin(st, handled, isClient, closed) && FromFrames(st, handled, true)
    requires st' == st.(finReceived := Some(|st.received|)) && f.command == Fin && f.streamId == st.id
    ensures Origin(st', handled + [f], isClient, closed)
  {
    hide PushPayload;
    var handled' := handled + [f];
    assert handled'[st.openedAt..|handled|] == handled[st.openedAt..];
    assert st.received[..|st.received|] == st.received;
    assert FinAt(st', handled', |handled|);
  }

  lemma FrameKeepsOrigins(s: Session, f: Frame, ok: bool)
    requires Inv(s) && Origins(s) && s.tasks[0] == Receiving
    ensures SlotValid(s) && Allows(s, FrameStep(s, f, ok).action)
    ensures Origins(Commit(s, 0, FrameStep(s, f, ok)).(handled := s.handled + [f]))
  {
    hide FrameStep, Act, SlotShape, IdsShape, LoopTask, NamesStream, Carriers, StreamsGood, NoGaps, AllFromFrames,
      ExtendsSet, Origin;
    FrameAllowed(s, f, ok);
    FrameExtends(s, f, ok);
    var step := FrameStep(s, f, ok);
    var s' := Commit(s, 0, step).(handled := s.handled + [f]);
    assert s'.tasks == s.tasks[0 := step.next];
    ActSettings(s, step.action);
    if step.action.RaiseRemoteFin? {
      FinKeepsOrigins(s, f, s');
    } else {
      StepKeepsOrigins(s, step.action, s');
    }
  }

  lemma EffectExtends(s: Session, e: Event)
    requires OtherEvent(e) && Enabled(s, e)
    ensures var effect := EffectOf(s, e);
            ExtendsSet(s, effect.action) && !effect.action.RaiseRemoteFin? && !effect.action.Open?
  {
  }

  lemma EffectKeepsOrigins(s: Session, e: Event)
    requires Shape(s) && Origins(s) && OtherEvent(e) && Enabled(s, e)
    ensures Allows(s, EffectOf(s, e).action)
    ensures Origins(Act(s, EffectOf(s, e).action).(tasks := s.tasks + EffectOf(s, e).spawned))
  {
    hide EffectOf, Enabled, Act, SlotShape, IdsShape, LoopTask, NamesStream, ExtendsSet, Origin;
    EffectAllowed(s, e);
    EffectExtends(s, e);
    var effect := EffectOf(s, e);
    ActSettings(s, effect.action);
    StepKeepsOrigins(s, effect.action, Act(s, effect.action).(tasks := s.tasks + effect.spawned));
  }

  lemma NextKeepsOrigins(s: Session, s': Session)
    requires FullInv(s) && Origins(s) && Next(s, s')
    ensures Origins(s')
  {
    hide StepOf, FrameStep, EffectOf, Act, CanRun, SlotShape, IdsShape, LoopTask, NamesStream, Carriers, StreamsGood,
      NoGaps, AllFromFrames, NotLost, RetireOwed, SlotLeftWhy, GracefulOk, ClosedOk, NoticesOk, AdmissionOk, Origin;
    var e :| Enabled(s, e) && NextBy(s, e, s');
    match e
    case RunTask(i, choice) => RunKeepsOrigins(s, i, choice);
    case ReceiveFrame(f, ok) => FrameKeepsOrigins(s, f, ok);
    case ReceiveEnds => EndKeepsOrigins(s);
    case _ => EffectKeepsOrigins(s, e);
  }

  lemma EndKeepsOrigins(s: Session)
    requires Origins(s) && s.tasks != []
    ensures Origins(Commit(s, 0, Go(Stay, BeginShutdown(ThenEnd))))
  {
    hide Origin;
  }

  lemma {:induction false} RunOrigins(run: seq<Session>)
    requires IsRun(run)
    ensures Origins(run[|run| - 1])
    decreases |run|
  {
    hide FullInv, Next;
    if |run| > 1 {
      var before := run[..|run| - 1];
      RunOrigins(before);
      RunFullInv(before);
      NextKeepsOrigins(before[|before| - 1], run[|run| - 1]);
    }
  }

  /**
   * Until a session is closed, what a stream has accepted is a gap-free prefix of the payload its
   * Push frames carried since it was opened, and all of it while the stream is in the slot and no
   * push is in hand or was refused.
   */
  lemma GapFreeUntilClosed(run: seq<Session>, s: Session, k: nat)
    requires IsRun(run) && s == run[|run| - 1] && k < |s.streams| && !s.closed
    ensures var st := s.streams[k];
            && st.openedAt <= |s.handled|
            && st.accepted <= st.received <= PushPayload(s.handled[st.openedAt..], st.id)
            && (InSlot(s.slot, k) && !st.refused && s.tasks != [] && !s.tasks[0].Pushing? ==>
                  st.accepted == PushPayload(s.handled[st.openedAt..], st.id))
  {
    hide IsRun, PushPayload, Shape, Carriers, StreamsGood, FinAt;
    RunOrigins(run);
    StreamInvariants.RunInv(run);
    var st := s.streams[k];
    assert Origin(st, s.handled, s.isClient, s.closed);
    assert GapFree(st, k, s.tasks[0], InSlot(s.slot, k));
    assert FromFrames(st, s.handled, InSlot(s.slot, k));
  }
}
