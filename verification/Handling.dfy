/**
 * What the receive loop has done about the frames it handled: a denial ends a client's session and
 * removes a server's stream, an alert ends the loop, each heartbeat request is answered, a FIN and
 * the Settings are noted.
 */
module Handlings {
  import opened Bytes
  import opened Frames
  import I = Inbound
  import opened Sessions
  import opened SessionInvariants
  import opened StreamInvariants
  import opened HalfCloses
  import opened Releases
  import opened StreamOrigins
  import opened SessionTheorems
  import opened Admissions

  /** Frame `n` is a SynAck with a text: the peer refuses the stream. */
  predicate Denied(handled: seq<Frame>, n: nat) {
    n < |handled| && handled[n].command == SynAck && handled[n].data != []
  }

  ghost predicate Handled(handled: seq<Frame>, command: Command) {
    exists n :: 0 <= n < |handled| && handled[n].command == command
  }

  /** A FIN for the id is among the frames from position `n` on. */
  ghost predicate FinFrom(handled: seq<Frame>, n: nat, id: u32) {
    exists j :: n <= j < |handled| && handled[j].command == Fin && handled[j].streamId == id
  }

  function Count(frames: seq<Frame>, command: Command): nat {
    if frames == [] then 0
    else
      var n := |frames| - 1;
      Count(frames[..n], command) + if frames[n].command == command then 1 else 0
  }

  lemma CountSnoc(frames: seq<Frame>, f: Frame, command: Command)
    ensures Count(frames + [f], command) == Count(frames, command) + if f.command == command then 1 else 0
  {
    assert (frames + [f])[..|frames|] == frames;
  }

  // ---- the invariant ----

  ghost predicate ClientDenied(s: Session) {
    s.isClient && (exists n: nat :: Denied(s.handled, n)) ==>
      s.closed || (s.tasks != [] && s.tasks[0].BeginShutdown?)
  }

  ghost predicate ServerDenied(s: Session) {
    !s.isClient && s.slot.Some? && SlotValid(s) ==>
      forall n: nat :: Denied(s.handled, n) && s.handled[n].streamId == s.slot.value.id ==>
        || s.streams[s.Key()].openedAt > n
        || (s.tasks != [] && s.tasks[0] == Remove(s.slot.value.id, false, ThenReceive))
  }

  ghost predicate AlertEnds(s: Session) {
    Handled(s.handled, Alert) ==> s.tasks != [] && Leaving(s.tasks[0])
  }

  ghost predicate HeartsMatch(s: Session) {
    || Count(s.replies, HeartResponse) == Count(s.handled, HeartRequest)
    || (&& Count(s.replies, HeartResponse) + 1 == Count(s.handled, HeartRequest)
        && s.tasks != [] && Leaving(s.tasks[0]))
  }

  ghost predicate SettingsNoted(s: Session) {
    s.settings <==> !s.isClient && Handled(s.handled, Settings)
  }

  ghost predicate FinNoted(s: Session) {
    s.slot.Some? && SlotValid(s) ==>
      (s.slot.value.remoteFin <==> FinFrom(s.handled, s.streams[s.Key()].openedAt, s.slot.value.id))
  }

  /** A stream that lost a push in an open session is ended towards the peer, unless the loop is leaving. */
  ghost predicate RefusedTold(s: Session) {
    forall k :: 0 <= k < |s.streams| && s.streams[k].refused && !s.streams[k].skipped ==>
      || Frame(Fin, s.streams[k].id, []) in s.replies
      || (s.tasks != [] && (s.tasks[0] == Overload(s.streams[k].id) || Leaving(s.tasks[0])))
  }

  ghost predicate HandlingInv(s: Session) {
    && ClientDenied(s) && ServerDenied(s) && AlertEnds(s) && HeartsMatch(s) && SettingsNoted(s) && FinNoted(s)
    && RefusedTold(s)
  }

  // ---- steps of tasks ----

  /** What a step of a task may not do, and what two of them must do. */
  predicate PlainStep(s: Session, t: Task, step: Step) {
    && !step.action.NoteSettings? && !step.action.RaiseRemoteFin?
    && (step.replies == [] || (|step.replies| == 1 && step.replies[0].command != HeartResponse))
    && (t.BeginShutdown? ==> step.action.MarkClosed?)
    && (t.Remove? && s.Holds(t.id) ==> step.action.Free?)
    && KeepsNames(s, step.action)
  }

  lemma InboundPlain(s: Session, t: Task, c: Choice)
    requires InboundTask(t) && CanRun(s, t, c)
    ensures PlainStep(s, t, InboundStep(s, t, c))
  {
  }

  lemma AdmissionPlain(s: Session, t: Task, c: Choice)
    requires AdmissionTask(t) && CanRun(s, t, c)
    ensures PlainStep(s, t, AdmissionStep(s, t, c))
  {
  }

  lemma ReleasePlain(s: Session, t: Task)
    requires ReleaseTask(t)
    ensures PlainStep(s, t, ReleaseStep(s, t))
  {
  }

  lemma ClosingPlain(s: Session, t: Task, c: Choice)
    requires ClosingTask(t) && CanRun(s, t, c)
    ensures PlainStep(s, t, ClosingStep(s, t, c))
  {
  }

  lemma StepPlain(s: Session, t: Task, c: Choice)
    requires CanRun(s, t, c)
    ensures PlainStep(s, t, StepOf(s, t, c))
  {
    hide InboundStep, AdmissionStep, ReleaseStep, ClosingStep, PlainStep;
    if InboundTask(t) {
      InboundPlain(s, t, c);
    } else if AdmissionTask(t) {
      AdmissionPlain(s, t, c);
    } else if ReleaseTask(t) {
      ReleasePlain(s, t);
    } else {
      ClosingPlain(s, t, c);
    }
  }

  /** The slot after an action: the same stream, a stream opened just now, or none. */
  lemma ActSlotStream(s: Session, a: Action)
    requires Allows(s, a) && SlotValid(s) && KeepsNames(s, a) && Act(s, a).slot.Some?
    ensures SlotValid(Act(s, a))
    ensures var s' := Act(s, a);
            if a.Open? then
              s'.streams[s'.Key()].openedAt == |s.handled| && !s'.slot.value.remoteFin && !a.Free?
            else
              && s.slot.Some? && s'.Key() == s.Key() && s'.slot.value.id == s.slot.value.id
              && s'.streams[s'.Key()].openedAt == s.streams[s.Key()].openedAt
              && s'.slot.value.remoteFin == (s.slot.value.remoteFin || a.RaiseRemoteFin?)
              && !a.Free? && !a.Drain?
  {
  }

  /** A loop that is leaving goes on leaving. */
  lemma LeavingStays(s: Session, i: nat, c: Choice)
    requires Shape(s) && i < |s.tasks| && CanRun(s, s.tasks[i], c) && Leaving(s.tasks[0])
    ensures Leaving((s.tasks[i := StepOf(s, s.tasks[i], c).next] + StepOf(s, s.tasks[i], c).spawned)[0])
  {
    hide StepOf, CanRun, SlotShape, IdsShape, LoopTask, Leaving;
    if i == 0 {
      LeavesFromLoop(s, c);
      NotPendingIfLeaving(s.tasks[0]);
      OtherStep(s, s.tasks[0], c);
    }
  }

  lemma NotPendingIfLeaving(t: Task)
    requires Leaving(t)
    ensures !SynPending(t)
  {
  }

  lemma RunKeepsDenials(s: Session, i: nat, c: Choice, s': Session)
    requires Shape(s) && ClientDenied(s) && ServerDenied(s) && FinNoted(s) && SettingsNoted(s)
    requires i < |s.tasks| && CanRun(s, s.tasks[i], c) && Allows(s, StepOf(s, s.tasks[i], c).action)
    requires s' == Commit(s, i, StepOf(s, s.tasks[i], c))
    ensures ClientDenied(s') && ServerDenied(s') && FinNoted(s') && SettingsNoted(s')
  {
    hide StepOf, CanRun, Act, SlotShape, IdsShape, LoopTask, NamesStream, Denied, FinFrom, Handled;
    var step := StepOf(s, s.tasks[i], c);
    StepPlain(s, s.tasks[i], c);
    ActSettings(s, step.action);
    ShapeValid(s);
    if s'.slot.Some? {
      ActSlotStream(s, step.action);
      NothingAfterEnd(s.handled, s'.slot.value.id);
    }
  }

  lemma NothingAfterEnd(handled: seq<Frame>, id: u32)
    ensures !FinFrom(handled, |handled|, id)
    ensures forall n: nat :: Denied(handled, n) ==> n < |handled|
  {
  }

  // ---- refused pushes ----

  /** What a step of a task means for a refusal. */
  predicate RefusalStep(s: Session, t: Task, step: Step) {
    && (step.action.SetStream? ==>
          && step.action.key < |s.streams|
          && (step.action.st.refused && !step.action.st.skipped ==>
                || (s.streams[step.action.key].refused && !s.streams[step.action.key].skipped)
                || (t.Pushing? && t.key == step.action.key && step.next == Overload(t.id))))
    && (t.Overload? ==> step.replies == [Frame(Fin, t.id, [])] || Leaving(step.next))
  }

  lemma InboundRefusal(s: Session, t: Task, c: Choice)
    requires InboundTask(t) && CanRun(s, t, c)
    ensures RefusalStep(s, t, InboundStep(s, t, c))
  {
  }

  lemma OtherRefusal(s: Session, t: Task, c: Choice)
    requires CanRun(s, t, c) && !InboundTask(t)
    ensures !StepOf(s, t, c).action.SetStream? && RefusalStep(s, t, StepOf(s, t, c))
  {
  }

  lemma StepRefusal(s: Session, t: Task, c: Choice)
    requires CanRun(s, t, c)
    ensures RefusalStep(s, t, StepOf(s, t, c))
  {
    hide InboundStep, AdmissionStep, ReleaseStep, ClosingStep, RefusalStep;
    if InboundTask(t) {
      InboundRefusal(s, t, c);
    } else {
      OtherRefusal(s, t, c);
    }
  }

  /** A stream that has lost a push after an action had lost it before, or the action says so. */
  lemma RefusedBefore(s: Session, a: Action, k: nat)
    requires Allows(s, a) && KeepsNames(s, a) && k < |Act(s, a).streams|
    requires Act(s, a).streams[k].refused && !Act(s, a).streams[k].skipped
    ensures k < |s.streams| && Act(s, a).streams[k].id == s.streams[k].id
    ensures (s.streams[k].refused && !s.streams[k].skipped) || (a.SetStream? && a.key == k)
    ensures a.SetStream? && a.key == k ==> a.st.refused && !a.st.skipped
  {
  }

  lemma RunKeepsRefused(s: Session, i: nat, c: Choice, s': Session)
    requires Shape(s) && RefusedTold(s) && i < |s.tasks| && CanRun(s, s.tasks[i], c)
    requires Allows(s, StepOf(s, s.tasks[i], c).action) && s' == Commit(s, i, StepOf(s, s.tasks[i], c))
    ensures RefusedTold(s')
  {
    hide StepOf, CanRun, Act, SlotShape, IdsShape, LoopTask, Leaving;
    var t := s.tasks[i];
    var step := StepOf(s, t, c);
    StepAllowed(s, t, c);
    StepRefusal(s, t, c);
    ActSettings(s, step.action);
    OnlyLoopPushes(s, i);
    if Leaving(s.tasks[0]) {
      LeavingStays(s, i, c);
    }
    forall k | 0 <= k < |s'.streams| && s'.streams[k].refused && !s'.streams[k].skipped
      ensures Frame(Fin, s'.streams[k].id, []) in s'.replies
              || s'.tasks[0] == Overload(s'.streams[k].id) || Leaving(s'.tasks[0])
    {
      RefusedBefore(s, step.action, k);
    }
  }

  lemma OnlyLoopPushes(s: Session, i: nat)
    requires Shape(s) && i < |s.tasks|
    ensures s.tasks[i].Pushing? || s.tasks[i].Overload? ==> i == 0
    ensures s.tasks[i].Pushing? ==> s.tasks[i].key < |s.streams| && s.streams[s.tasks[i].key].id == s.tasks[i].id
  {
  }

  /** A step that refuses nothing keeps what was told. */
  lemma QuietKeepsRefused(s: Session, a: Action, s': Session)
    requires RefusedTold(s) && Allows(s, a) && KeepsNames(s, a)
    requires a.SetStream? ==> a.st.refused == s.streams[a.key].refused && a.st.skipped == s.streams[a.key].skipped
    requires s'.streams == Act(s, a).streams && s.replies <= s'.replies
    requires s.tasks != [] && s'.tasks != [] && (s'.tasks[0] == s.tasks[0] || s.tasks[0] == Receiving)
    ensures RefusedTold(s')
  {
    hide Act, Leaving;
    NotLeaving(0);
    forall k | 0 <= k < |s'.streams| && s'.streams[k].refused && !s'.streams[k].skipped
      ensures Frame(Fin, s'.streams[k].id, []) in s'.replies
              || s'.tasks[0] == Overload(s'.streams[k].id) || Leaving(s'.tasks[0])
    {
      RefusedBefore(s, a, k);
    }
  }

  lemma FrameRefusal(s: Session, f: Frame, ok: bool)
    requires SlotValid(s)
    ensures var a := FrameStep(s, f, ok).action;
            a.SetStream? ==>
              && a.key < |s.streams|
              && a.st.refused == s.streams[a.key].refused && a.st.skipped == s.streams[a.key].skipped
  {
  }

  lemma EffectRefusal(s: Session, e: Event)
    requires OtherEvent(e) && Enabled(s, e)
    ensures var a := EffectOf(s, e).action;
            a.SetStream? ==>
              && a.key < |s.streams|
              && a.st.refused == s.streams[a.key].refused && a.st.skipped == s.streams[a.key].skipped
  {
  }

  lemma RunKeepsHandling(s: Session, i: nat, c: Choice)
    requires Shape(s) && HandlingInv(s) && i < |s.tasks| && CanRun(s, s.tasks[i], c)
    ensures Allows(s, StepOf(s, s.tasks[i], c).action)
    ensures HandlingInv(Commit(s, i, StepOf(s, s.tasks[i], c)))
  {
    hide StepOf, CanRun, Act, SlotShape, IdsShape, LoopTask, NamesStream, Leaving, Handled, Count, ClientDenied,
      ServerDenied, FinNoted, SettingsNoted, RefusedTold;
    var step := StepOf(s, s.tasks[i], c);
    StepAllowed(s, s.tasks[i], c);
    var s' := Commit(s, i, step);
    RunKeepsDenials(s, i, c, s');
    RunKeepsRefused(s, i, c, s');
    StepPlain(s, s.tasks[i], c);
    ActSettings(s, step.action);
    if Leaving(s.tasks[0]) {
      LeavingStays(s, i, c);
    }
    if step.replies != [] {
      assert step.replies == [step.replies[0]];
      CountSnoc(s.replies, step.replies[0], HeartResponse);
    } else {
      assert s.replies + step.replies == s.replies;
    }
  }

  // ---- frames ----

  lemma HandledSnoc(handled: seq<Frame>, f: Frame, command: Command)
    ensures Handled(handled + [f], command) <==> Handled(handled, command) || f.command == command
  {
    if Handled(handled, command) {
      var n :| 0 <= n < |handled| && handled[n].command == command;
      assert (handled + [f])[n] == handled[n];
    }
    assert (handled + [f])[|handled|] == f;
  }

  lemma FinFromSnoc(handled: seq<Frame>, f: Frame, n: nat, id: u32)
    requires n <= |handled|
    ensures FinFrom(handled + [f], n, id) <==> FinFrom(handled, n, id) || (f.command == Fin && f.streamId == id)
  {
    if FinFrom(handled, n, id) {
      var j :| n <= j < |handled| && handled[j].command == Fin && handled[j].streamId == id;
      assert (handled + [f])[j] == handled[j];
    }
    assert (handled + [f])[|handled|] == f;
  }

  lemma DeniedSnoc(handled: seq<Frame>, f: Frame)
    ensures forall n: nat :: Denied(handled + [f], n) <==>
              Denied(handled, n) || (n == |handled| && f.command == SynAck && f.data != [])
    ensures forall n: nat :: Denied(handled, n) ==> (handled + [f])[n] == handled[n]
  {
  }

  /** What the loop does about each kind of frame. */
  lemma FrameDoes(s: Session, f: Frame, ok: bool)
    requires SlotValid(s)
    ensures var step := FrameStep(s, f, ok);
            && (step.action.NoteSettings? <==> f.command == Settings && !s.isClient)
            && (step.action.RaiseRemoteFin? <==>
                  f.command == Fin && s.Holds(f.streamId) && !s.slot.value.remoteFin)
            && !step.action.Open?
            && (f.command == SynAck && f.data != [] && s.isClient ==> step.next.BeginShutdown?)
            && (f.command == SynAck && f.data != [] && !s.isClient ==>
                  step.next == Remove(f.streamId, false, ThenReceive))
            && (f.command == Alert ==> Leaving(step.next))
            && (step.replies == [] || |step.replies| == 1)
            && (step.replies != [] && step.replies[0].command == HeartResponse ==> f.command == HeartRequest)
            && (f.command == HeartRequest ==>
                  (step.replies != [] && step.replies[0].command == HeartResponse) || Leaving(step.next))
            && step.spawned == []
  {
  }

  lemma FrameKeepsDenials(s: Session, f: Frame, ok: bool, s': Session)
    requires Shape(s) && ClientDenied(s) && ServerDenied(s) && FinNoted(s) && SettingsNoted(s)
    requires s.tasks[0] == Receiving && SlotValid(s) && Allows(s, FrameStep(s, f, ok).action)
    requires s.slot.Some? ==> s.streams[s.Key()].openedAt <= |s.handled|
    requires KeepsNames(s, FrameStep(s, f, ok).action)
    requires s' == Commit(s, 0, FrameStep(s, f, ok)).(handled := s.handled + [f])
    ensures ClientDenied(s') && ServerDenied(s') && FinNoted(s') && SettingsNoted(s')
  {
    hide FrameStep, Act, SlotShape, IdsShape, LoopTask, NamesStream, Denied, FinFrom, Handled, Leaving;
    var step := FrameStep(s, f, ok);
    FrameDoes(s, f, ok);
    ActSettings(s, step.action);
    HandledSnoc(s.handled, f, Settings);
    DeniedSnoc(s.handled, f);
    NothingAfterEnd(s.handled, f.streamId);
    if s'.slot.Some? {
      ActSlotStream(s, step.action);
      FinFromSnoc(s.handled, f, s.streams[s.Key()].openedAt, s.slot.value.id);
    }
  }

  lemma FrameKeepsHandling(s: Session, f: Frame, ok: bool)
    requires Inv(s) && HandlingInv(s) && s.tasks[0] == Receiving
    ensures SlotValid(s) && Allows(s, FrameStep(s, f, ok).action)
    ensures HandlingInv(Commit(s, 0, FrameStep(s, f, ok)).(handled := s.handled + [f]))
  {
    hide FrameStep, Act, SlotShape, IdsShape, LoopTask, NamesStream, Leaving, Handled, Count, ClientDenied,
      ServerDenied, FinNoted, SettingsNoted, RefusedTold, Carriers, StreamsGood, NoGaps;
    FrameAllowed(s, f, ok);
    var step := FrameStep(s, f, ok);
    var s' := Commit(s, 0, step).(handled := s.handled + [f]);
    FrameKeepsDenials(s, f, ok, s');
    FrameRefusal(s, f, ok);
    QuietKeepsRefused(s, step.action, s');
    FrameDoes(s, f, ok);
    ActSettings(s, step.action);
    NotLeaving(0);
    HandledSnoc(s.handled, f, Alert);
    CountSnoc(s.handled, f, HeartRequest);
    if step.replies != [] {
      assert step.replies == [step.replies[0]];
      CountSnoc(s.replies, step.replies[0], HeartResponse);
    } else {
      assert s.replies + step.replies == s.replies;
    }
  }

  // ---- other events ----

  lemma EffectPlain(s: Session, e: Event)
    requires OtherEvent(e) && Enabled(s, e)
    ensures var a := EffectOf(s, e).action; !a.NoteSettings? && !a.RaiseRemoteFin? && !a.Open?
  {
  }

  lemma EffectKeepsHandling(s: Session, e: Event)
    requires Shape(s) && HandlingInv(s) && OtherEvent(e) && Enabled(s, e)
    ensures Allows(s, EffectOf(s, e).action)
    ensures HandlingInv(Act(s, EffectOf(s, e).action).(tasks := s.tasks + EffectOf(s, e).spawned))
  {
    hide EffectOf, Enabled, Act, SlotShape, IdsShape, LoopTask, NamesStream, Leaving, Handled, Count, Denied, FinFrom,
      RefusedTold;
    EffectAllowed(s, e);
    EffectPlain(s, e);
    EffectRefusal(s, e);
    var a := EffectOf(s, e).action;
    ActSettings(s, a);
    QuietKeepsRefused(s, a, Act(s, a).(tasks := s.tasks + EffectOf(s, e).spawned));
    ShapeValid(s);
    if Act(s, a).slot.Some? {
      ActSlotStream(s, a);
    }
  }

  lemma EndKeepsHandling(s: Session)
    requires s.tasks != [] && HandlingInv(s) && s.tasks[0] == Receiving
    ensures HandlingInv(Commit(s, 0, Go(Stay, BeginShutdown(ThenEnd))))
  {
    hide Count, Denied, FinFrom, Handled, RefusedTold;
    assert s.replies + [] == s.replies;
    QuietKeepsRefused(s, Stay, Commit(s, 0, Go(Stay, BeginShutdown(ThenEnd))));
  }

  lemma NextKeepsHandling(s: Session, s': Session)
    requires FullInv(s) && HandlingInv(s) && Next(s, s')
    ensures HandlingInv(s')
  {
    hide StepOf, FrameStep, EffectOf, Act, CanRun, Inv, NotLost, RetireOwed, SmallInv, HandlingInv;
    var e :| Enabled(s, e) && NextBy(s, e, s');
    ShapeOfInv(s);
    match e
    case RunTask(i, choice) => RunKeepsHandling(s, i, choice);
    case ReceiveFrame(f, ok) => FrameKeepsHandling(s, f, ok);
    case ReceiveEnds => EndKeepsHandling(s);
    case _ => EffectKeepsHandling(s, e);
  }

  lemma {:induction false} RunHandling(run: seq<Session>)
    requires IsRun(run)
    ensures HandlingInv(run[|run| - 1])
    decreases |run|
  {
    hide FullInv, Next;
    if |run| > 1 {
      var before := run[..|run| - 1];
      RunFullInv(before);
      RunHandling(before);
      NextKeepsHandling(before[|before| - 1], run[|run| - 1]);
    }
  }

  // ---- the theorems ----

  /** A client whose peer refused a stream is closed, or about to be closed by its receive loop. */
  lemma DenialEndsClient(run: seq<Session>, s: Session, n: nat)
    requires IsRun(run) && s == run[|run| - 1] && s.isClient
    requires n < |s.handled| && s.handled[n].command == SynAck && s.handled[n].data != []
    ensures s.closed || (s.tasks != [] && s.tasks[0].BeginShutdown?)
  {
    hide IsRun, ServerDenied, AlertEnds, HeartsMatch, SettingsNoted, FinNoted, RefusedTold;
    RunHandling(run);
    assert Denied(s.handled, n);
  }

  /** A server that is back at its next frame holds a refused id only if a later SYN opened it again. */
  lemma DenialRemovesStream(run: seq<Session>, s: Session, n: nat) returns (m: nat)
    requires IsRun(run) && s == run[|run| - 1] && !s.isClient && s.tasks != [] && s.tasks[0] == Receiving
    requires n < |s.handled| && s.handled[n].command == SynAck && s.handled[n].data != []
    requires s.Holds(s.handled[n].streamId)
    ensures n < m < |s.handled| && s.handled[m].command == Syn && s.handled[m].streamId == s.handled[n].streamId
    ensures SlotValid(s) && s.streams[s.Key()].openedAt == m + 1
  {
    hide IsRun, ClientDenied, AlertEnds, HeartsMatch, SettingsNoted, FinNoted, RefusedTold, FinAt, Carriers,
      StreamsGood, NoGaps, AllFromFrames, NotLost, RetireOwed, SmallInv, IdsShape, TasksShape;
    RunHandling(run);
    RunFullInv(run);
    RunOrigins(run);
    ShapeValid(s);
    assert Denied(s.handled, n);
    assert Origin(s.streams[s.Key()], s.handled, s.isClient, s.closed);
    m := s.streams[s.Key()].openedAt - 1;
  }

  /** After an alert the receive loop handles no further frame. */
  lemma AlertEndsLoop(run: seq<Session>, s: Session, n: nat)
    requires IsRun(run) && s == run[|run| - 1] && n < |s.handled| && s.handled[n].command == Alert
    ensures s.tasks != [] && Leaving(s.tasks[0])
  {
    hide IsRun, ClientDenied, ServerDenied, HeartsMatch, SettingsNoted, FinNoted, Leaving, RefusedTold;
    RunHandling(run);
  }

  /** Each heartbeat request has its response, except the last one of a loop that is leaving. */
  lemma OneResponsePerHeartbeat(run: seq<Session>, s: Session)
    requires IsRun(run) && s == run[|run| - 1]
    ensures Count(s.replies, HeartResponse) <= Count(s.handled, HeartRequest)
                                            <= Count(s.replies, HeartResponse) + 1
    ensures s.tasks != [] && !Leaving(s.tasks[0]) ==> Count(s.replies, HeartResponse) == Count(s.handled, HeartRequest)
  {
    hide IsRun, ClientDenied, ServerDenied, AlertEnds, SettingsNoted, FinNoted, Leaving, Count, RefusedTold;
    RunHandling(run);
  }

  /** A server counts as set up exactly once it has handled a Settings frame. */
  lemma SetUpBySettings(run: seq<Session>, s: Session)
    requires IsRun(run) && s == run[|run| - 1]
    ensures s.settings <==> !s.isClient && exists n :: 0 <= n < |s.handled| && s.handled[n].command == Settings
  {
    hide IsRun, ClientDenied, ServerDenied, AlertEnds, HeartsMatch, FinNoted, RefusedTold;
    RunHandling(run);
  }

  /** The stream in the slot has its remote FIN exactly if a FIN for its id came since it was opened. */
  lemma RemoteFinIsNoted(run: seq<Session>, s: Session)
    requires IsRun(run) && s == run[|run| - 1] && s.slot.Some?
    ensures SlotValid(s)
    ensures s.slot.value.remoteFin <==> FinFrom(s.handled, s.streams[s.Key()].openedAt, s.slot.value.id)
  {
    hide IsRun, ClientDenied, ServerDenied, AlertEnds, HeartsMatch, SettingsNoted, RefusedTold, FinFrom, Inv, NotLost,
      RetireOwed, SmallInv;
    RunHandling(run);
    RunFullInv(run);
    ShapeOfInv(s);
    ShapeValid(s);
  }

  /**
   * A push in hand is queued whole if the bytes already held for the application and its own stay
   * within 1 MiB, at most 64 messages wait and the pump is there; otherwise none of it is, and the
   * stream is on its way to be ended, unless the session is closed and only the queue refused.
   */
  lemma PushQueuedIfRoom(run: seq<Session>, s: Session, c: Choice, s': Session)
    requires IsRun(run) && s == run[|run| - 1] && s.tasks != [] && s.tasks[0].Pushing?
    requires Enabled(s, RunTask(0, c)) && NextBy(s, RunTask(0, c), s')
    ensures s.tasks[0].key < |s.streams| == |s'.streams|
    ensures var data, st, st' := s.tasks[0].data, s.streams[s.tasks[0].key], s'.streams[s.tasks[0].key];
            if I.HeldByPump(st) + I.HeldBytes(st.queue) + |data| <= 1048576 && |st.queue| <= 64 && !st.pump.Gone? then
              st'.queue == st.queue + [I.Data(data)] && st'.accepted == st.accepted + data && st'.refused == st.refused
            else
              && st'.queue == st.queue && st'.accepted == st.accepted && st'.refused
              && (if !s.closed || I.HeldByPump(st) + I.HeldBytes(st.queue) + |data| > 1048576
                  then s'.tasks[0] == Overload(s.tasks[0].id) && st'.skipped == st.skipped
                  else s'.tasks[0] == Receiving && st'.skipped)
  {
    hide IsRun, Shape, Carriers, NoGaps, AllFromFrames, NotLost, RetireOwed, SmallInv, I.Conserved, I.FinOrdered,
      I.HeldBytes, I.HeldByPump;
    RunFullInv(run);
    assert I.StreamInv(s.streams[s.tasks[0].key]);
  }

  /**
   * A stream that lost a push, other than one skipped after the session had closed, has a FIN in the
   * control queue, or its loop is about to put it there or leaving.
   */
  lemma RefusedStreamIsEnded(run: seq<Session>, s: Session, k: nat)
    requires IsRun(run) && s == run[|run| - 1] && k < |s.streams| && s.streams[k].refused && !s.streams[k].skipped
    ensures s.tasks != []
    ensures Frame(Fin, s.streams[k].id, []) in s.replies || s.tasks[0] == Overload(s.streams[k].id)
            || Leaving(s.tasks[0])
  {
    hide IsRun, ClientDenied, ServerDenied, AlertEnds, HeartsMatch, SettingsNoted, FinNoted, Leaving, Inv, NotLost,
      RetireOwed, SmallInv;
    RunHandling(run);
    RunFullInv(run);
    ShapeOfInv(s);
  }

  /** A SYN that comes before the Settings ends the loop, with an alert to the peer if there is room for it. */
  lemma EarlySynIsAlerted(run: seq<Session>, s: Session, f: Frame, ok: bool, s': Session)
    requires IsRun(run) && s == run[|run| - 1] && !s.isClient && !Handled(s.handled, Settings) && f.command == Syn
    requires Enabled(s, ReceiveFrame(f, ok)) && NextBy(s, ReceiveFrame(f, ok), s')
    ensures Leaving(s'.tasks[0]) && s'.slot == s.slot && s'.streams == []
    ensures ok ==> |s'.replies| == |s.replies| + 1 && s'.replies[|s.replies|].command == Alert
                   && s'.replies[|s.replies|].data != []
  {
    hide IsRun, Inv, NotLost, RetireOwed, SlotLeftWhy, GracefulOk, ClosedOk, NoticesOk;
    SetUpBySettings(run, s);
    RunFullInv(run);
    assert |NO_SETTINGS| > 0;
  }
}
