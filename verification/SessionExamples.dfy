/**
 * Runs that show where three properties of a session stop: a finish check that nobody owes, a
 * server slot filled after a shutdown emptied it, and a gap in a stream of a closed session.
 */
module SessionExamples {
  import opened Wrappers
  import opened Frames
  import opened Inbound
  import opened Sessions
  import opened HalfCloses

  ghost predicate Reached(s: Session) {
    exists run :: IsRun(run) && run[|run| - 1] == s
  }

  lemma Start(isClient: bool)
    ensures Reached(InitialSession(isClient))
  {
    assert IsRun([InitialSession(isClient)]);
  }

  lemma Reach(s: Session, e: Event, s': Session)
    requires Reached(s) && Enabled(s, e) && NextBy(s, e, s')
    ensures Reached(s')
  {
    hide NextBy, Enabled, InitialSession;
    var run :| IsRun(run) && run[|run| - 1] == s;
    assert Next(s, s');
    assert IsRun(run + [s']);
  }

  /** A step of one task that starts no other. */
  lemma ReachTask(s: Session, i: nat, a: Action, next: Task, s': Session)
    requires Reached(s) && i < |s.tasks| && CanRun(s, s.tasks[i], YES)
    requires StepOf(s, s.tasks[i], YES) == Go(a, next) && Allows(s, a)
    requires s' == Act(s, a).(tasks := s.tasks[i := next])
    ensures Reached(s')
  {
    hide StepOf, CanRun, Reached;
    assert s.tasks[i := next] + [] == s.tasks[i := next] && s.syns + [] == s.syns;
    Reach(s, RunTask(i, YES), s');
  }

  /** A step of one task that changes nothing else. */
  lemma ReachStay(s: Session, i: nat, next: Task)
    requires Reached(s) && i < |s.tasks| && CanRun(s, s.tasks[i], YES) && StepOf(s, s.tasks[i], YES) == Go(Stay, next)
    ensures Reached(s.(tasks := s.tasks[i := next]))
  {
    hide StepOf, CanRun, Reached;
    ReachTask(s, i, Stay, next, s.(tasks := s.tasks[i := next]));
  }

  /** A frame handled by the receive loop. */
  lemma ReachFrame(s: Session, f: Frame, a: Action, next: Task, s': Session)
    requires Reached(s) && s.tasks != [] && s.tasks[0] == Receiving && ValidFrame(f) && SlotValid(s)
    requires FrameStep(s, f, true) == Go(a, next) && Allows(s, a)
    requires s' == Act(s, a).(tasks := s.tasks[0 := next], handled := s.handled + [f])
    ensures Reached(s')
  {
    hide FrameStep, Reached;
    assert s.tasks[0 := next] + [] == s.tasks[0 := next] && s.syns + [] == s.syns;
    Reach(s, ReceiveFrame(f, true), s');
  }

  const YES: Choice := Choice(true, Taken)

  /** A client session with stream 1 open: reserved, and its SYN accepted by the writer. */
  function Opened(): Session {
    InitialSession(true).(
      slot := Some(Slot(1, 0, false, false, false)),
      streams := [NewStream(1, 0)],
      used := {1},
      tasks := [Receiving, Done])
  }

  lemma OpenedReached()
    ensures Reached(Opened())
  {
    hide Reached, IsRun, InboundStep, ReleaseStep, ClosingStep;
    var s0 := InitialSession(true);
    Start(true);
    var s1 := s0.(tasks := [Receiving, Reserving(1)]);
    Reach(s0, AppReserve(1), s1);
    var s2 := Opened().(tasks := [Receiving, Opening(1)]);
    ReachTask(s1, 1, Open(1), Opening(1), s2);
    ReachStay(s2, 1, Done);
    assert s2.tasks[1 := Done] == Opened().tasks;
  }

  // ---- a finish check that nobody owes ----

  const PUSHED: Frame := Frame(Push, 1, [5])
  const FINISHED: Frame := Frame(Fin, 1, [])

  /** One byte was pushed and the pump is writing it. */
  function OneInFlight(): Session {
    Opened().(
      handled := [PUSHED],
      streams := [NewStream(1, 0).(
        pump := Writing([5], 1), permits := INBOUND_PUSH_QUEUE_BYTES - 1, received := [5], accepted := [5])])
  }

  lemma OneInFlightReached()
    ensures Reached(OneInFlight())
  {
    hide Reached, IsRun, AdmissionStep, ReleaseStep, ClosingStep;
    OpenedReached();
    var st1 := NewStream(1, 0).(received := [5]);
    var s1 := Opened().(tasks := [Pushing(1, 0, [5]), Done], handled := [PUSHED], streams := [st1]);
    assert NewStream(1, 0).received + [5] == [5];
    ReachFrame(Opened(), PUSHED, SetStream(0, st1), Pushing(1, 0, [5]), s1);
    var st2 := st1.(queue := [Data([5])], permits := INBOUND_PUSH_QUEUE_BYTES - 1, accepted := [5]);
    assert st1.queue + [Data([5])] == [Data([5])] && st1.accepted + [5] == [5];
    var s2 := s1.(tasks := [Receiving, Done], streams := [st2]);
    ReachTask(s1, 0, SetStream(0, st2), Receiving, s2);
    assert st2.queue[1..] == [];
    assert s2.tasks + [] == s2.tasks;
    Reach(s2, PumpRecv(0), OneInFlight());
  }

  /** The application drops the stream; its FIN is sent and only the retire timer is left. */
  function DroppedStream(): Session {
    OneInFlight().(
      slot := Some(Slot(1, 0, true, false, false)),
      streams := [OneInFlight().streams[0].(handle := Dropped, ending := true)],
      tasks := [Receiving, Done, RetireTimer(1)])
  }

  lemma DroppedFinSent()
    ensures Reached(DroppedStream().(tasks := [Receiving, Done, SendingFin(1, DropStream, false)]))
  {
    hide Reached, IsRun;
    OneInFlightReached();
    var s0 := OneInFlight();
    var st := s0.streams[0].(handle := Dropped, ending := true);
    var s1 := s0.(streams := [st], tasks := [Receiving, Done, StartFin(1, DropStream)]);
    Reach(s0, AppDrop(0), s1);
    var s2 := DroppedStream().(tasks := [Receiving, Done, SendingFin(1, DropStream, false)]);
    ReachTask(s1, 2, RaiseLocalFin, SendingFin(1, DropStream, false), s2);
  }

  lemma DroppedStreamReached()
    ensures Reached(DroppedStream())
  {
    hide Reached, IsRun, InboundStep, AdmissionStep;
    DroppedFinSent();
    var s := DroppedStream().(tasks := [Receiving, Done, SendingFin(1, DropStream, false)]);
    ReachStay(s, 2, CheckFinish(1, ThenRetire(1, true)));
    s := s.(tasks := s.tasks[2 := CheckFinish(1, ThenRetire(1, true))]);
    ReachStay(s, 2, Retire(1, true));
    s := s.(tasks := s.tasks[2 := Retire(1, true)]);
    ReachStay(s, 2, RetireTimer(1));
    assert s.tasks[2 := RetireTimer(1)] == DroppedStream().tasks;
  }

  /** The pump's write fails; it marks the read side closed and finds the stream not finished. */
  function PumpLeft(): Session {
    DroppedStream().(
      slot := Some(Slot(1, 0, true, false, true)),
      streams := [DroppedStream().streams[0].(pump := Leaving(1))],
      tasks := [Receiving, Done, RetireTimer(1), PumpDrop(0)])
  }

  lemma PumpLeftReached()
    ensures Reached(PumpLeft())
  {
    hide Reached, IsRun, InboundStep, AdmissionStep, ClosingStep;
    DroppedStreamReached();
    var s0 := DroppedStream();
    var s1 := PumpLeft().(
      slot := s0.slot, tasks := [Receiving, Done, RetireTimer(1), MarkReadClosed(1, ThenPumpDrop(0))]);
    Reach(s0, PumpFails(0), s1);
    var s2 := PumpLeft().(tasks := [Receiving, Done, RetireTimer(1), CheckFinish(1, ThenPumpDrop(0))]);
    ReachTask(s1, 3, RaiseReadClosed, CheckFinish(1, ThenPumpDrop(0)), s2);
    ReachTask(s2, 3, Stay, PumpDrop(0), PumpLeft());
  }

  /** The peer's FIN arrives before the pump's queue is dropped: its mark is queued for nobody. */
  function FinMissed(): Session {
    PumpLeft().(
      slot := Some(Slot(1, 0, true, true, true)),
      handled := [PUSHED, FINISHED],
      streams := [PumpLeft().streams[0].(
        finReceived := Some(1), queue := [FinMark], finQueued := Some(1), finMissed := true)])
  }

  /** All three flags are set in a running session and no finish check is owed. */
  lemma LostTriggerExists()
    ensures Reached(FinMissed())
    ensures var s := FinMissed();
            s.distinct && s.slot.value.Finished() && !s.Ended() && SlotValid(s) && !Owed(s)
  {
    hide Reached, IsRun, AdmissionStep, ReleaseStep, ClosingStep;
    PumpLeftReached();
    var s0 := PumpLeft();
    var s1 := FinMissed().(
      tasks := [MarkingFin(1, 0), Done, RetireTimer(1), PumpDrop(0)],
      streams := [s0.streams[0].(finReceived := Some(1))]);
    ReachFrame(s0, FINISHED, RaiseRemoteFin, MarkingFin(1, 0), s1);
    assert s1.streams[0].queue + [FinMark] == [FinMark];
    ReachTask(s1, 0, SetStream(0, FinMissed().streams[0]), Receiving, FinMissed());
  }

  // ---- a server slot filled after a shutdown emptied it ----

  const SETTINGS: Frame := Frame(Settings, 0, [])
  const SYN: Frame := Frame(Syn, 5, [])

  function Refilled(): Session {
    InitialSession(false).(
      closed := true, settings := true, drained := true,
      slot := Some(Slot(5, 0, false, false, false)),
      streams := [NewStream(5, 2)],
      used := {5},
      handled := [SETTINGS, SYN],
      tasks := [Offering(5), Done])
  }

  /** A server that is admitting a SYN while another task shuts the session down. */
  lemma ServerSlotRefilled()
    ensures Reached(Refilled()) && Refilled().drained && Refilled().closed && Refilled().slot.Some?
  {
    hide Reached, IsRun, InboundStep, ClosingStep;
    Start(false);
    var s0 := InitialSession(false);
    var s1 := s0.(settings := true, handled := [SETTINGS]);
    ReachFrame(s0, SETTINGS, NoteSettings, Receiving, s1);
    var s2 := s1.(handled := [SETTINGS, SYN], tasks := [Admitting(5)]);
    ReachFrame(s1, SYN, Stay, Admitting(5), s2);
    var s3 := s2.(tasks := [Admitting(5), BeginShutdown(Nothing)]);
    Reach(s2, AskShutdown, s3);
    var s4 := s3.(closed := true, tasks := [Admitting(5), TakeSlot(Nothing)]);
    ReachTask(s3, 1, MarkClosed, TakeSlot(Nothing), s4);
    var s5 := s4.(drained := true, tasks := [Admitting(5), Done]);
    ReachTask(s4, 1, Drain, Done, s5);
    ReachTask(s5, 0, Open(5), Offering(5), Refilled());
  }

  // ---- a gap in a stream of a closed session ----

  const EMPTY_PUSH: Frame := Frame(Push, 1, [])

  /** The queue of stream 1 holds `n` empty messages. */
  function Queued(n: nat): Session {
    Opened().(
      handled := seq(n, _ => EMPTY_PUSH),
      streams := [NewStream(1, 0).(queue := seq(n, _ => Data([])))])
  }

  lemma {:induction false} QueuedReached(n: nat)
    requires n <= CHANNEL_CAPACITY
    ensures Reached(Queued(n))
  {
    hide Reached, IsRun;
    if n == 0 {
      OpenedReached();
      assert Queued(0).handled == Opened().handled;
      assert Queued(0).streams[0].queue == [] && Queued(0).streams == Opened().streams;
    } else {
      QueuedReached(n - 1);
      var s0 := Queued(n - 1);
      var s1 := s0.(handled := Queued(n).handled, tasks := [Pushing(1, 0, []), Done]);
      assert s0.handled + [EMPTY_PUSH] == s1.handled;
      assert s0.streams[0].Receive([]) == s0.streams[0];
      assert s0.streams == s0.streams[0 := s0.streams[0]];
      ReachFrame(s0, EMPTY_PUSH, SetStream(0, s0.streams[0]), Pushing(1, 0, []), s1);
      assert s0.streams[0].queue + [Data([])] == Queued(n).streams[0].queue;
      assert s0.streams[0].Push([]) == Queued(n).streams[0];
      ReachTask(s1, 0, SetStream(0, Queued(n).streams[0]), Receiving, Queued(n));
    }
  }

  /** The full queue refuses byte 1 in a closed session; the stream stays and takes byte 2. */
  function Gapped(): Session {
    var full := Queued(CHANNEL_CAPACITY);
    full.(
      closed := true,
      tasks := [Receiving, Done, TakeSlot(Nothing)],
      handled := full.handled + [Frame(Push, 1, [1]), Frame(Push, 1, [2])],
      streams := [full.streams[0].(
        queue := full.streams[0].queue[1..] + [Data([2])],
        pump := Writing([], 0),
        permits := INBOUND_PUSH_QUEUE_BYTES - 1,
        received := [1, 2], accepted := [2], refused := true, skipped := true)])
  }

  function Refused(): Session {
    var full := Queued(CHANNEL_CAPACITY);
    full.(
      closed := true,
      tasks := [Receiving, Done, TakeSlot(Nothing)],
      handled := full.handled + [Frame(Push, 1, [1])],
      streams := [full.streams[0].(received := [1], refused := true, skipped := true)])
  }

  lemma RefusedReached()
    ensures Reached(Refused())
  {
    hide Reached, IsRun, AdmissionStep, ClosingStep;
    QueuedReached(CHANNEL_CAPACITY);
    var s0 := Queued(CHANNEL_CAPACITY);
    var s1 := s0.(tasks := [Receiving, Done, BeginShutdown(Nothing)]);
    Reach(s0, AskShutdown, s1);
    var s2 := s1.(closed := true, tasks := [Receiving, Done, TakeSlot(Nothing)]);
    ReachTask(s1, 2, MarkClosed, TakeSlot(Nothing), s2);
    var s3 := Refused().(
      tasks := [Pushing(1, 0, [1]), Done, TakeSlot(Nothing)], streams := [s0.streams[0].(received := [1])]);
    assert s0.streams[0].received + [1] == [1];
    ReachFrame(s2, Frame(Push, 1, [1]), SetStream(0, s3.streams[0]), Pushing(1, 0, [1]), s3);
    ReachTask(s3, 0, SetStream(0, Refused().streams[0]), Receiving, Refused());
  }

  lemma GapAfterClose()
    ensures Reached(Gapped())
    ensures Gapped().closed && !(Gapped().streams[0].accepted <= Gapped().streams[0].received)
  {
    hide Reached, IsRun, AdmissionStep, ReleaseStep, ClosingStep;
    RefusedReached();
    assert [2][0] != [1, 2][0];
    var s0 := Refused();
    var st0 := s0.streams[0];
    var st1 := st0.(queue := st0.queue[1..], pump := Writing([], 0));
    var s1 := s0.(streams := [st1]);
    assert s0.tasks + [] == s0.tasks;
    Reach(s0, PumpRecv(0), s1);
    var s2 := s1.(
      handled := Gapped().handled,
      tasks := [Pushing(1, 0, [2]), Done, TakeSlot(Nothing)],
      streams := [st1.(received := [1, 2])]);
    assert st1.received + [2] == [1, 2];
    assert s1.handled + [Frame(Push, 1, [2])] == s2.handled;
    ReachFrame(s1, Frame(Push, 1, [2]), SetStream(0, s2.streams[0]), Pushing(1, 0, [2]), s2);
    assert st1.accepted + [2] == [2];
    ReachTask(s2, 0, SetStream(0, Gapped().streams[0]), Receiving, Gapped());
  }
}
