/**
 * What becomes of each SYN a server handles (`on_receive_syn_cmd` in src/runtime/session.rs), tied
 * to the streams that exist and to the SynAck frames that were queued.
 */
module Admissions {
  import opened Wrappers
  import opened Bytes
  import opened Frames
  import opened Inbound
  import opened Sessions
  import opened SessionInvariants
  import opened StreamInvariants
  import opened HalfCloses
  import opened Releases
  import opened SessionTheorems

  // ---- streams and the SYN that opened them ----

  /** Some stream was opened for the SYN at position `n`. */
  ghost predicate OpenedAt(streams: seq<Stream>, n: nat) {
    exists key :: 0 <= key < |streams| && streams[key].openedAt == n + 1
  }

  ghost predicate OpenedFor(streams: seq<Stream>, n: nat, id: u32) {
    exists key :: 0 <= key < |streams| && streams[key].openedAt == n + 1 && streams[key].id == id
  }

  /** The stream was in the slot when the frame at position `n` was handled. */
  predicate There(st: Stream, n: nat) {
    st.openedAt <= n && (st.leftAt.Some? ==> st.leftAt.value > n)
  }

  /** At the frame at position `n` some stream was in the slot, with this id or with another. */
  ghost predicate Occupied(streams: seq<Stream>, n: nat, id: u32, same: bool) {
    exists key :: 0 <= key < |streams| && There(streams[key], n) && (streams[key].id == id) == same
  }

  /** The loop handles no further frame. */
  predicate Leaving(t: Task) {
    || t == Done
    || ((t.Remove? || t.BecameIdle? || t.BeginShutdown? || t.TakeSlot?) &&
          (t.after == ThenShutdown || t.after == ThenEnd))
  }

  /** What an outcome of the SYN for `id` at position `n` says. */
  ghost predicate OutcomeOk(s: Session, outcome: SynOutcome, n: nat, id: u32)
    requires s.tasks != []
  {
    match outcome
    case Accepted => OpenedFor(s.streams, n, id)
    case Duplicate => !OpenedAt(s.streams, n) && Occupied(s.streams, n, id, true)
    case Rejected =>
      OpenedFor(s.streams, n, id) || (!OpenedAt(s.streams, n) && (s.expired || Occupied(s.streams, n, id, false)))
    case SessionEnded => Leaving(s.tasks[0])
  }

  /** What is known while the outcome is open. */
  ghost predicate PendingOk(s: Session, t: Task, n: nat, id: u32) {
    match t
    case Admitting(id') => id' == id && !OpenedAt(s.streams, n)
    case Rejecting(id', message) =>
      id' == id && message != [] && !OpenedAt(s.streams, n) && (s.expired || Occupied(s.streams, n, id, false))
    case Offering(id') => id' == id && OpenedFor(s.streams, n, id)
    case OfferFull(id') => id' == id && OpenedFor(s.streams, n, id)
    case _ => true
  }

  function SynAt(handled: seq<Frame>, k: nat): Frame
    requires k < |SynPositions(handled)|
  {
    handled[SynPositions(handled)[k]]
  }

  ghost predicate Outcomes(s: Session) {
    && s.tasks != [] && |s.syns| <= |SynPositions(s.handled)|
    && (forall key :: 0 <= key < |s.streams| ==> s.streams[key].openedAt <= |s.handled|)
    && (forall k :: 0 <= k < |s.syns| ==>
          OutcomeOk(s, s.syns[k], SynPositions(s.handled)[k], SynAt(s.handled, k).streamId))
    && (SynPending(s.tasks[0]) ==>
          && s.handled != [] && s.handled[|s.handled| - 1].command == Syn
          && PendingOk(s, s.tasks[0], |s.handled| - 1, s.handled[|s.handled| - 1].streamId))
  }

  // ---- what every step keeps ----

  /** Streams keep their names; they leave, and new ones are opened, later than position `n`. */
  ghost predicate Later(streams: seq<Stream>, streams': seq<Stream>, n: nat) {
    && Grows(streams, streams')
    && (forall key :: 0 <= key < |streams| ==> There(streams[key], n) ==> There(streams'[key], n))
    && forall key :: |streams| <= key < |streams'| ==> streams'[key].openedAt > n + 1
  }

  lemma OutcomeStays(s: Session, s': Session, outcome: SynOutcome, n: nat, id: u32)
    requires s.tasks != [] && s'.tasks != [] && OutcomeOk(s, outcome, n, id)
    requires Later(s.streams, s'.streams, n) && (s.expired ==> s'.expired)
    requires Leaving(s.tasks[0]) ==> Leaving(s'.tasks[0])
    ensures OutcomeOk(s', outcome, n, id)
  {
    hide Leaving;
    StaysOpened(s.streams, s'.streams, n, id);
  }

  lemma StaysOpened(streams: seq<Stream>, streams': seq<Stream>, n: nat, id: u32)
    requires Later(streams, streams', n)
    ensures OpenedFor(streams, n, id) ==> OpenedFor(streams', n, id)
    ensures OpenedAt(streams', n) ==> OpenedAt(streams, n)
    ensures Occupied(streams, n, id, true) ==> Occupied(streams', n, id, true)
    ensures Occupied(streams, n, id, false) ==> Occupied(streams', n, id, false)
  {
    if OpenedFor(streams, n, id) {
      var key :| 0 <= key < |streams| && streams[key].openedAt == n + 1 && streams[key].id == id;
      assert streams'[key].openedAt == n + 1;
    }
    if Occupied(streams, n, id, true) {
      var key :| 0 <= key < |streams| && There(streams[key], n) && (streams[key].id == id) == true;
      assert There(streams'[key], n);
    }
    if Occupied(streams, n, id, false) {
      var key :| 0 <= key < |streams| && There(streams[key], n) && (streams[key].id == id) == false;
      assert There(streams'[key], n);
    }
  }

  /** No SYN is pending, none is added and no stream is opened. */
  lemma QuietKeepsOutcomes(s: Session, s': Session)
    requires Outcomes(s) && s'.tasks != []
    requires s'.handled == s.handled && s'.syns == s.syns && (s.expired ==> s'.expired)
    requires Grows(s.streams, s'.streams) && LeavesAt(s.streams, s'.streams, |s.handled|)
    requires |s'.streams| == |s.streams|
    requires Leaving(s.tasks[0]) ==> Leaving(s'.tasks[0])
    requires s'.tasks[0] == s.tasks[0] || !SynPending(s'.tasks[0])
    ensures Outcomes(s')
  {
    hide OutcomeOk, Leaving, SynPositions, SynPending;
    forall k | 0 <= k < |s'.syns|
      ensures OutcomeOk(s', s'.syns[k], SynPositions(s'.handled)[k], SynAt(s'.handled, k).streamId)
    {
      OutcomeStays(s, s', s.syns[k], SynPositions(s.handled)[k], SynAt(s.handled, k).streamId);
    }
    if SynPending(s'.tasks[0]) {
      var n := |s.handled| - 1;
      StaysOpened(s.streams, s'.streams, n, s.handled[n].streamId);
    }
  }

  /** The loop's step for a pending SYN. */
  lemma PendingStep(s: Session, t: Task, c: Choice)
    requires CanRun(s, t, c) && SynPending(t)
    ensures var step := StepOf(s, t, c);
            && (step.action.Open? ==>
                  t.Admitting? && step.action.id == t.id && step.next == Offering(t.id) && step.answer == [])
            && (!step.action.Open? ==> step.action.Stay? && !step.next.Offering?)
            && (if SynPending(step.next) then step.answer == [] else |step.answer| == 1)
            && step.spawned == []
            && (step.next.Rejecting? ==>
                  && t.Admitting? && step.next.id == t.id && step.next.message != []
                  && !s.Holds(t.id) && (s.expired || s.slot.Some?))
            && (step.next.OfferFull? ==> t == Offering(step.next.id))
            && (step.answer == [Duplicate] ==> t.Admitting? && s.Holds(t.id))
            && (step.answer == [Accepted] ==> t.Offering?)
            && (step.answer == [Rejected] ==> t.Rejecting? || t.OfferFull?)
            && (step.answer == [SessionEnded] ==> Leaving(step.next))
            && !step.next.Admitting?
  {
  }

  /** Other steps answer nothing and do not make a SYN pending. */
  lemma OtherStep(s: Session, t: Task, c: Choice)
    requires CanRun(s, t, c) && !SynPending(t)
    ensures var step := StepOf(s, t, c);
            step.answer == [] && !SynPending(step.next) && (Leaving(t) && LoopTask(t) ==> Leaving(step.next))
  {
  }

  /** The stream in the slot was opened before the frame in hand. */
  lemma HeldOccupied(s: Session, id: u32)
    requires Outcomes(s) && SlotShape(s.slot, s.streams) && s.slot.Some?
    requires s.tasks[0].Admitting? && s.tasks[0].id == id
    ensures Occupied(s.streams, |s.handled| - 1, id, s.Holds(id))
  {
    hide SynPositions;
    var n := |s.handled| - 1;
    var key := s.Key();
    assert s.streams[key].openedAt != n + 1;
    assert There(s.streams[key], n) && (s.streams[key].id == id) == s.Holds(id);
  }

  /** The SYN in hand is the last one handled. */
  lemma LastPosition(handled: seq<Frame>)
    requires handled != [] && handled[|handled| - 1].command == Syn
    ensures |SynPositions(handled)| > 0 && SynPositions(handled)[|SynPositions(handled)| - 1] == |handled| - 1
  {
    var n := |handled| - 1;
    assert handled == handled[..n] + [handled[n]];
    SynPositionsSnoc(handled[..n], handled[n]);
  }

  lemma OpenKeepsOutcomes(s: Session, s': Session, id: u32)
    requires Outcomes(s) && s.tasks[0] == Admitting(id) && |SynPositions(s.handled)| == |s.syns| + 1
    requires s'.tasks != [] && s'.tasks[0] == Offering(id) && s'.handled == s.handled && s'.syns == s.syns
    requires s'.streams == s.streams + [NewStream(id, |s.handled|)] && s'.expired == s.expired
    ensures Outcomes(s')
  {
    hide OutcomeOk, Leaving, SynPositions;
    var n := |s.handled| - 1;
    LastPosition(s.handled);
    assert SynPending(s.tasks[0]) && s.handled[n].streamId == id;
    forall k | 0 <= k < |s'.syns|
      ensures OutcomeOk(s', s'.syns[k], SynPositions(s'.handled)[k], SynAt(s'.handled, k).streamId)
    {
      NotLeaving(id);
      OutcomeStays(s, s', s.syns[k], SynPositions(s.handled)[k], SynAt(s.handled, k).streamId);
    }
    assert s'.streams[|s.streams|].openedAt == n + 1 && s'.streams[|s.streams|].id == id;
  }

  lemma NotLeaving(id: u32)
    ensures !Leaving(Admitting(id)) && !Leaving(Receiving)
  {
  }

  lemma NotLeavingPending(t: Task)
    requires SynPending(t)
    ensures !Leaving(t)
  {
  }

  /** A pending SYN goes on without an outcome: it is to be rejected, or its offer found no room. */
  lemma PendingMoves(s: Session, c: Choice, s': Session)
    requires Outcomes(s) && SlotShape(s.slot, s.streams) && SynPending(s.tasks[0]) && CanRun(s, s.tasks[0], c)
    requires SynPending(StepOf(s, s.tasks[0], c).next) && StepOf(s, s.tasks[0], c).action.Stay?
    requires s' == s.(tasks := s'.tasks, replies := s'.replies)
    requires s'.tasks != [] && s'.tasks[0] == StepOf(s, s.tasks[0], c).next
    ensures Outcomes(s')
  {
    hide OutcomeOk, Leaving, SynPositions, StepOf, CanRun;
    PendingStep(s, s.tasks[0], c);
    NotLeavingPending(s.tasks[0]);
    forall k | 0 <= k < |s'.syns|
      ensures OutcomeOk(s', s'.syns[k], SynPositions(s'.handled)[k], SynAt(s'.handled, k).streamId)
    {
      OutcomeStays(s, s', s.syns[k], SynPositions(s.handled)[k], SynAt(s.handled, k).streamId);
    }
    if s'.tasks[0].Rejecting? && s.slot.Some? {
      HeldOccupied(s, s.tasks[0].id);
    }
  }

  /** A pending SYN gets its outcome. */
  lemma PendingEnds(s: Session, c: Choice, s': Session)
    requires Outcomes(s) && SlotShape(s.slot, s.streams) && SynPending(s.tasks[0]) && CanRun(s, s.tasks[0], c)
    requires |SynPositions(s.handled)| == |s.syns| + 1
    requires !SynPending(StepOf(s, s.tasks[0], c).next)
    requires s' == s.(tasks := s'.tasks, replies := s'.replies, syns := s.syns + StepOf(s, s.tasks[0], c).answer)
    requires s'.tasks != [] && s'.tasks[0] == StepOf(s, s.tasks[0], c).next
    ensures Outcomes(s')
  {
    hide Leaving, SynPositions, StepOf, CanRun, SynPending;
    var step := StepOf(s, s.tasks[0], c);
    var n := |s.handled| - 1;
    PendingStep(s, s.tasks[0], c);
    NotLeavingPending(s.tasks[0]);
    LastPosition(s.handled);
    if s.tasks[0].Admitting? && s.slot.Some? {
      HeldOccupied(s, s.tasks[0].id);
    }
    assert OutcomeOk(s', step.answer[0], n, s.handled[n].streamId);
    forall k | 0 <= k < |s'.syns|
      ensures OutcomeOk(s', s'.syns[k], SynPositions(s'.handled)[k], SynAt(s'.handled, k).streamId)
    {
      if k < |s.syns| {
        OutcomeStays(s, s', s.syns[k], SynPositions(s.handled)[k], SynAt(s.handled, k).streamId);
      }
    }
  }

  lemma RunKeepsOutcomes(s: Session, i: nat, c: Choice)
    requires Shape(s) && AdmissionOk(s) && !s.isClient && Outcomes(s) && i < |s.tasks| && CanRun(s, s.tasks[i], c)
    ensures Allows(s, StepOf(s, s.tasks[i], c).action)
    ensures Outcomes(Commit(s, i, StepOf(s, s.tasks[i], c)))
  {
    hide StepOf, CanRun, Act, SlotShape, IdsShape, LoopTask, NamesStream, Outcomes, SynPositions, SynPending, Leaving;
    var step := StepOf(s, s.tasks[i], c);
    StepAllowed(s, s.tasks[i], c);
    var s' := Commit(s, i, step);
    ActGrows(s, step.action);
    ActLeaves(s, step.action);
    ActCount(s, step.action);
    ActSettings(s, step.action);
    ExpiredStays(s, step.action);
    OnlyLoopAdmits(s, i);
    if SynPending(s.tasks[i]) {
      PendingKeepsOutcomes(s, c);
    } else {
      OtherStep(s, s.tasks[i], c);
      StepAdmission(s, s.tasks[i], c);
      AdmitsOrReserves(s, i);
      if i == 0 {
        LeavesFromLoop(s, c);
      }
      assert s'.syns == s.syns;
      QuietKeepsOutcomes(s, s');
    }
  }

  lemma ExpiredStays(s: Session, a: Action)
    requires Allows(s, a)
    ensures s.expired ==> Act(s, a).expired
  {
  }

  lemma AdmitsOrReserves(s: Session, i: nat)
    requires AdmissionOk(s) && !s.isClient && i < |s.tasks| && !SynPending(s.tasks[i])
    ensures !s.tasks[i].Admitting? && !s.tasks[i].Reserving?
  {
  }

  lemma LeavesFromLoop(s: Session, c: Choice)
    requires Shape(s) && CanRun(s, s.tasks[0], c)
    ensures LoopTask(s.tasks[0])
  {
    hide SlotShape, IdsShape;
    NotDone(s, s.tasks[0], c);
  }

  lemma PendingKeepsOutcomes(s: Session, c: Choice)
    requires DataShape(s) && AdmissionOk(s) && !s.isClient && Outcomes(s)
    requires s.tasks != [] && SynPending(s.tasks[0]) && CanRun(s, s.tasks[0], c)
    requires Allows(s, StepOf(s, s.tasks[0], c).action)
    ensures Outcomes(Commit(s, 0, StepOf(s, s.tasks[0], c)))
  {
    hide StepOf, CanRun, SlotShape, IdsShape, Outcomes, SynPositions, SynPending;
    var step := StepOf(s, s.tasks[0], c);
    var s' := Commit(s, 0, step);
    PendingStep(s, s.tasks[0], c);
    assert s'.tasks == s.tasks[0 := step.next];
    if step.action.Open? {
      assert s'.syns == s.syns;
      OpenKeepsOutcomes(s, s', s.tasks[0].id);
    } else if SynPending(step.next) {
      assert s'.syns == s.syns;
      PendingMoves(s, c, s');
    } else {
      PendingEnds(s, c, s');
    }
  }

  lemma FrameOutcome(s: Session, f: Frame, ok: bool)
    requires SlotValid(s) && !s.isClient
    ensures var step := FrameStep(s, f, ok);
            && (SynPending(step.next) ==> f.command == Syn && step.next == Admitting(f.streamId) && step.answer == [])
            && (step.answer != [] ==> f.command == Syn && step.answer == [SessionEnded] && Leaving(step.next))
  {
  }

  lemma FrameKeepsOutcomes(s: Session, f: Frame, ok: bool)
    requires Shape(s) && AdmissionOk(s) && !s.isClient && Outcomes(s) && s.tasks[0] == Receiving
    ensures SlotValid(s) && Allows(s, FrameStep(s, f, ok).action)
    ensures Outcomes(Commit(s, 0, FrameStep(s, f, ok)).(handled := s.handled + [f]))
  {
    hide FrameStep, Act, SlotShape, IdsShape, LoopTask, NamesStream, SynPositions, Leaving, OutcomeOk;
    FrameAllowed(s, f, ok);
    FrameOutcome(s, f, ok);
    FrameSmallFacts(s, f, ok);
    SynPositionsSnoc(s.handled, f);
    var step := FrameStep(s, f, ok);
    var s' := Commit(s, 0, step).(handled := s.handled + [f]);
    assert s'.tasks == s.tasks[0 := step.next];
    ActGrows(s, step.action);
    ActLeaves(s, step.action);
    ActCount(s, step.action);
    ExpiredStays(s, step.action);
    NotLeaving(0);
    forall k | 0 <= k < |s'.syns|
      ensures OutcomeOk(s', s'.syns[k], SynPositions(s'.handled)[k], SynAt(s'.handled, k).streamId)
    {
      if k < |s.syns| {
        OutcomeStays(s, s', s.syns[k], SynPositions(s.handled)[k], SynAt(s.handled, k).streamId);
      } else {
        EndedOutcome(s', SynPositions(s'.handled)[k], SynAt(s'.handled, k).streamId);
      }
    }
  }

  lemma EndedOutcome(s: Session, n: nat, id: u32)
    requires s.tasks != [] && Leaving(s.tasks[0])
    ensures OutcomeOk(s, SessionEnded, n, id)
  {
  }

  lemma EffectKeepsOutcomes(s: Session, e: Event)
    requires Shape(s) && Outcomes(s) && OtherEvent(e) && Enabled(s, e)
    ensures Allows(s, EffectOf(s, e).action)
    ensures Outcomes(Act(s, EffectOf(s, e).action).(tasks := s.tasks + EffectOf(s, e).spawned))
  {
    hide EffectOf, Enabled, Act, SlotShape, IdsShape, LoopTask, NamesStream, Outcomes;
    EffectAllowed(s, e);
    EffectSmallFacts(s, e);
    var a := EffectOf(s, e).action;
    ActGrows(s, a);
    ActLeaves(s, a);
    ActCount(s, a);
    ActSettings(s, a);
    ExpiredStays(s, a);
    QuietKeepsOutcomes(s, Act(s, a).(tasks := s.tasks + EffectOf(s, e).spawned));
  }

  lemma EndKeepsOutcomes(s: Session)
    requires s.tasks != [] && Outcomes(s) && s.tasks[0] == Receiving
    ensures Outcomes(Commit(s, 0, Go(Stay, BeginShutdown(ThenEnd))))
  {
    hide Outcomes;
    QuietKeepsOutcomes(s, Commit(s, 0, Go(Stay, BeginShutdown(ThenEnd))));
  }

  lemma NextKeepsOutcomes(s: Session, s': Session)
    requires FullInv(s) && !s.isClient && Outcomes(s) && Next(s, s')
    ensures Outcomes(s')
  {
    hide StepOf, FrameStep, EffectOf, Act, CanRun, Inv, NotLost, RetireOwed, SlotLeftWhy, GracefulOk, ClosedOk,
      NoticesOk, AdmissionOk, OutcomeOk, PendingOk, SynPositions;
    var e :| Enabled(s, e) && NextBy(s, e, s');
    ShapeOfInv(s);
    match e
    case RunTask(i, choice) => RunKeepsOutcomes(s, i, choice);
    case ReceiveFrame(f, ok) => FrameKeepsOutcomes(s, f, ok);
    case ReceiveEnds => EndKeepsOutcomes(s);
    case _ => EffectKeepsOutcomes(s, e);
  }

  lemma {:induction false} RunOutcomes(run: seq<Session>)
    requires IsRun(run) && !run[|run| - 1].isClient
    ensures Outcomes(run[|run| - 1])
    decreases |run|
  {
    hide FullInv, Next;
    if |run| > 1 {
      var before := run[..|run| - 1];
      RunFullInv(before);
      ClosedStep(before[|before| - 1], run[|run| - 1]);
      RunOutcomes(before);
      NextKeepsOutcomes(before[|before| - 1], run[|run| - 1]);
    }
  }

  // ---- one SynAck for each rejection ----

  function SynIds(handled: seq<Frame>): (ids: seq<u32>)
    ensures |ids| == |SynPositions(handled)|
  {
    var ps := SynPositions(handled);
    seq(|ps|, k requires 0 <= k < |ps| => handled[ps[k]].streamId)
  }

  /** The ids of the rejected SYNs, in order. */
  function Refused(ids: seq<u32>, syns: seq<SynOutcome>): seq<u32>
    requires |syns| <= |ids|
  {
    if syns == [] then []
    else
      var n := |syns| - 1;
      Refused(ids, syns[..n]) + if syns[n] == Rejected then [ids[n]] else []
  }

  /** The ids of the queued SynAck frames that carry a text, in order. */
  function SynAcks(replies: seq<Frame>): seq<u32> {
    if replies == [] then []
    else
      var n := |replies| - 1;
      SynAcks(replies[..n])
      + if replies[n].command == SynAck && replies[n].data != [] then [replies[n].streamId] else []
  }

  lemma {:induction false} RefusedMore(ids: seq<u32>, more: seq<u32>, syns: seq<SynOutcome>)
    requires |syns| <= |ids| && ids <= more
    ensures Refused(more, syns) == Refused(ids, syns)
    decreases |syns|
  {
    if syns != [] {
      RefusedMore(ids, more, syns[..|syns| - 1]);
    }
  }

  lemma SynIdsSnoc(handled: seq<Frame>, f: Frame)
    ensures SynIds(handled + [f]) == SynIds(handled) + if f.command == Syn then [f.streamId] else []
  {
    hide SynPositions;
    SynPositionsSnoc(handled, f);
  }

  ghost predicate AcksMatch(s: Session) {
    && |s.syns| <= |SynPositions(s.handled)|
    && SynAcks(s.replies) == Refused(SynIds(s.handled), s.syns)
  }

  /** A step that queues a SynAck with a text is one that rejects a SYN, and the other way round. */
  lemma StepAcks(s: Session, t: Task, c: Choice)
    requires CanRun(s, t, c) && (t.Rejecting? ==> t.message != [])
    ensures var step := StepOf(s, t, c);
            && (step.answer == [] || (|step.answer| == 1 && SynPending(t)))
            && (step.replies == [] || |step.replies| == 1)
            && (step.answer == [Rejected] <==>
                  step.replies != [] && step.replies[0].command == SynAck && step.replies[0].data != [])
            && (step.answer == [Rejected] ==> step.replies[0].streamId == TaskId(s, t).value)
  {
  }

  lemma SnocAcks(handled: seq<Frame>, syns: seq<SynOutcome>, replies: seq<Frame>, answer: seq<SynOutcome>,
        more: seq<Frame>)
    requires |syns| + |answer| <= |SynPositions(handled)| && SynAcks(replies) == Refused(SynIds(handled), syns)
    requires |answer| <= 1 && |more| <= 1
    requires answer == [Rejected] <==> more != [] && more[0].command == SynAck && more[0].data != []
    requires answer == [Rejected] ==> more[0].streamId == SynIds(handled)[|syns|]
    ensures SynAcks(replies + more) == Refused(SynIds(handled), syns + answer)
  {
    hide SynPositions, SynIds;
    if answer == [] {
      assert syns + answer == syns;
    } else {
      assert (syns + answer)[..|syns|] == syns;
    }
    if more == [] {
      assert replies + more == replies;
    } else {
      assert (replies + more)[..|replies|] == replies;
    }
  }

  lemma RunKeepsAcks(s: Session, i: nat, c: Choice)
    requires Shape(s) && AdmissionOk(s) && !s.isClient && Outcomes(s) && AcksMatch(s)
    requires i < |s.tasks| && CanRun(s, s.tasks[i], c) && Allows(s, StepOf(s, s.tasks[i], c).action)
    ensures AcksMatch(Commit(s, i, StepOf(s, s.tasks[i], c)))
  {
    hide StepOf, CanRun, Act, SlotShape, IdsShape, LoopTask, NamesStream, OutcomeOk, SynPositions, SynPending,
      TaskId, SynIds, Refused, SynAcks;
    var t := s.tasks[i];
    var step := StepOf(s, t, c);
    OnlyLoopAdmits(s, i);
    RejectingHasText(s, i);
    StepAcks(s, t, c);
    ActSettings(s, step.action);
    if step.answer == [Rejected] {
      LastPosition(s.handled);
      LastId(s);
    }
    SnocAcks(s.handled, s.syns, s.replies, step.answer, step.replies);
  }

  lemma RejectingHasText(s: Session, i: nat)
    requires AdmissionOk(s) && Shape(s) && Outcomes(s) && i < |s.tasks|
    ensures s.tasks[i].Rejecting? ==> s.tasks[i].message != []
  {
    hide OutcomeOk, SynPositions, SlotShape, IdsShape, NamesStream;
  }

  lemma LastId(s: Session)
    requires Outcomes(s) && SynPending(s.tasks[0]) && |SynPositions(s.handled)| == |s.syns| + 1
    ensures TaskId(s, s.tasks[0]) == Some(SynIds(s.handled)[|s.syns|])
  {
    hide OutcomeOk, SynPositions;
    LastPosition(s.handled);
  }

  lemma FrameAcks(s: Session, f: Frame, ok: bool)
    requires SlotValid(s) && !s.isClient
    ensures var step := FrameStep(s, f, ok);
            && |step.answer| <= 1 && |step.replies| <= 1 && step.answer != [Rejected]
            && (step.replies != [] ==> step.replies[0].command != SynAck)
  {
  }

  lemma FrameKeepsAcks(s: Session, f: Frame, ok: bool)
    requires AdmissionOk(s) && !s.isClient && AcksMatch(s) && s.tasks[0] == Receiving && SlotValid(s)
    requires Allows(s, FrameStep(s, f, ok).action)
    ensures AcksMatch(Commit(s, 0, FrameStep(s, f, ok)).(handled := s.handled + [f]))
  {
    hide FrameStep, Act, SynPositions, SynPending, SynIds, Refused, SynAcks;
    var step := FrameStep(s, f, ok);
    var handled := s.handled + [f];
    FrameAcks(s, f, ok);
    FrameSmallFacts(s, f, ok);
    ActSettings(s, step.action);
    SynPositionsSnoc(s.handled, f);
    SynIdsSnoc(s.handled, f);
    AdmittingIsPending(Receiving);
    RefusedMore(SynIds(s.handled), SynIds(handled), s.syns);
    SnocAcks(handled, s.syns, s.replies, step.answer, step.replies);
  }

  lemma EndKeepsAcks(s: Session)
    requires s.tasks != [] && AcksMatch(s)
    ensures AcksMatch(Commit(s, 0, Go(Stay, BeginShutdown(ThenEnd))))
  {
    hide SynPositions, SynIds, Refused, SynAcks, Act;
    ActSettings(s, Stay);
    assert s.replies + [] == s.replies && s.syns + [] == s.syns;
  }

  lemma EffectKeepsAcks(s: Session, a: Action, tasks: seq<Task>)
    requires Allows(s, a) && AcksMatch(s)
    ensures AcksMatch(Act(s, a).(tasks := tasks))
  {
    hide SynPositions, SynIds, Refused, SynAcks, Act;
    ActSettings(s, a);
  }

  lemma NextKeepsAcks(s: Session, s': Session)
    requires FullInv(s) && !s.isClient && Outcomes(s) && AcksMatch(s) && Next(s, s')
    ensures AcksMatch(s')
  {
    hide StepOf, FrameStep, EffectOf, Act, CanRun, Inv, NotLost, RetireOwed, SlotLeftWhy, GracefulOk, ClosedOk,
      NoticesOk, AdmissionOk, Outcomes, AcksMatch;
    var e :| Enabled(s, e) && NextBy(s, e, s');
    ShapeOfInv(s);
    match e
    case RunTask(i, choice) => RunKeepsAcks(s, i, choice);
    case ReceiveFrame(f, ok) => FrameKeepsAcks(s, f, ok);
    case ReceiveEnds => EndKeepsAcks(s);
    case _ => EffectKeepsAcks(s, EffectOf(s, e).action, s'.tasks);
  }

  lemma {:induction false} RunAcks(run: seq<Session>)
    requires IsRun(run) && !run[|run| - 1].isClient
    ensures AcksMatch(run[|run| - 1])
    decreases |run|
  {
    hide FullInv, Next, Outcomes;
    if |run| > 1 {
      var before := run[..|run| - 1];
      RunFullInv(before);
      ClosedStep(before[|before| - 1], run[|run| - 1]);
      RunAcks(before);
      RunOutcomes(before);
      NextKeepsAcks(before[|before| - 1], run[|run| - 1]);
    }
  }

  // ---- the theorems ----

  /**
   * Every SYN a server handles has one outcome, and the outcome means what it says. With `n` the
   * position of the k-th SYN among the handled frames:
   * an accepted SYN opened a stream of its id, at that very frame;
   * a duplicate opened none, and a stream of its id was in the slot;
   * a rejected one opened none because the session had expired or another stream was in the slot, or
   * opened one that the full accept queue made it withdraw;
   * after any other end the receive loop handles no further frame.
   */
  lemma EverySynHasItsOutcome(run: seq<Session>, s: Session, k: nat)
    requires IsRun(run) && s == run[|run| - 1] && !s.isClient && k < |s.syns|
    ensures s.tasks != []
    ensures |SynPositions(s.handled)| == |s.syns| + if SynPending(s.tasks[0]) then 1 else 0
    ensures var n := SynPositions(s.handled)[k];
            var id := s.handled[n].streamId;
            match s.syns[k]
            case Accepted => OpenedFor(s.streams, n, id)
            case Duplicate => !OpenedAt(s.streams, n) && Occupied(s.streams, n, id, true)
            case Rejected =>
              || OpenedFor(s.streams, n, id)
              || (!OpenedAt(s.streams, n) && (s.expired || Occupied(s.streams, n, id, false)))
            case SessionEnded => Leaving(s.tasks[0])
  {
    hide SynPositions, SynPending;
    AdmissionOverRuns(run, s);
    RunOutcomes(run);
    assert OutcomeOk(s, s.syns[k], SynPositions(s.handled)[k], SynAt(s.handled, k).streamId);
  }

  /** The SynAck frames with a text are exactly the rejections, one for each and in order. */
  lemma OneSynAckPerRejection(run: seq<Session>, s: Session)
    requires IsRun(run) && s == run[|run| - 1] && !s.isClient
    ensures |s.syns| <= |SynPositions(s.handled)|
    ensures SynAcks(s.replies) == Refused(SynIds(s.handled), s.syns)
  {
    RunAcks(run);
  }

  /** At the moment a SYN is found a duplicate its id is the one in the slot, which stays as it is. */
  lemma DuplicateIsHeld(run: seq<Session>, s: Session, s': Session)
    requires IsRun(run) && s == run[|run| - 1] && !s.isClient && Next(s, s') && s'.syns == s.syns + [Duplicate]
    ensures s.handled != [] && s.Holds(s.handled[|s.handled| - 1].streamId)
    ensures s'.slot == s.slot && s'.streams == s.streams
  {
    hide StepOf, FrameStep, EffectOf, Act, CanRun, Inv, NotLost, RetireOwed, SlotLeftWhy, GracefulOk, ClosedOk,
      NoticesOk, Outcomes, AdmissionOk, IsRun, SynPending, Leaving;
    RunFullInv(run);
    RunOutcomes(run);
    ShapeOfInv(s);
    var e :| Enabled(s, e) && NextBy(s, e, s');
    assert s'.syns[|s.syns|] == Duplicate;
    match e
    case RunTask(i, choice) => DuplicateTask(s, i, choice, s');
    case ReceiveFrame(f, ok) =>
      ActSettings(s, FrameStep(s, f, ok).action);
      FrameOutcome(s, f, ok);
    case ReceiveEnds => ActSettings(s, Stay);
    case _ => ActSettings(s, EffectOf(s, e).action);
  }

  lemma DuplicateTask(s: Session, i: nat, c: Choice, s': Session)
    requires Shape(s) && AdmissionOk(s) && Outcomes(s) && s'.syns == s.syns + [Duplicate]
    requires Enabled(s, RunTask(i, c)) && NextBy(s, RunTask(i, c), s')
    ensures s.handled != [] && s.Holds(s.handled[|s.handled| - 1].streamId)
    ensures s'.slot == s.slot && s'.streams == s.streams
  {
    hide StepOf, CanRun, Act, SlotShape, IdsShape, LoopTask, NamesStream, OutcomeOk, SynPositions, Leaving;
    OnlyLoopAdmits(s, i);
    ActSettings(s, StepOf(s, s.tasks[i], c).action);
    assert s'.syns[|s.syns|] == Duplicate;
    assert StepOf(s, s.tasks[i], c).answer == [Duplicate];
    AnswersPending(s, s.tasks[i], c);
    PendingStep(s, s.tasks[i], c);
    StayIsQuiet(s);
  }

  lemma AnswersPending(s: Session, t: Task, c: Choice)
    requires CanRun(s, t, c) && StepOf(s, t, c).answer != []
    ensures SynPending(t)
  {
  }

  lemma StayIsQuiet(s: Session)
    ensures Act(s, Stay) == s
  {
  }
}
