/**
 * What every step of a session keeps about its slot, its streams and its tasks.
 */
module SessionInvariants {
  import opened Wrappers
  import opened Bytes
  import opened Frames
  import opened Inbound
  import opened Sessions

  // ---- the slot and the list of streams ----

  predicate InSlot(slot: Option<Slot>, key: nat) {
    slot.Some? && slot.value.key == key
  }

  /** The slot holds the newest stream, or none; all others are cancelled. */
  ghost predicate SlotShape(slot: Option<Slot>, streams: seq<Stream>) {
    && (slot.Some? ==> slot.value.key == |streams| - 1 && slot.value.id == streams[slot.value.key].id)
    && (forall k :: 0 <= k < |streams| ==> (streams[k].cancelled <==> !InSlot(slot, k)))
    && (forall k :: 0 <= k < |streams| ==> (streams[k].leftAt.Some? <==> streams[k].cancelled))
  }

  /** While no id was placed twice, different streams have different ids. */
  ghost predicate IdsShape(streams: seq<Stream>, used: set<u32>, distinct: bool) {
    && (forall k :: 0 <= k < |streams| ==> streams[k].id in used)
    && (distinct ==> forall j, k :: 0 <= j < k < |streams| ==> streams[j].id != streams[k].id)
  }

  ghost predicate DataShape(s: Session) {
    SlotShape(s.slot, s.streams) && IdsShape(s.streams, s.used, s.distinct)
  }

  /** A change of a stream that keeps its name and its token. */
  predicate SameName(st: Stream, st': Stream) {
    st'.id == st.id && st'.openedAt == st.openedAt && st'.cancelled == st.cancelled && st'.leftAt == st.leftAt
  }

  predicate KeepsNames(s: Session, a: Action) {
    a.SetStream? ==> a.key < |s.streams| && SameName(s.streams[a.key], a.st)
  }

  lemma SetKeepsShape(s: Session, a: Action)
    requires DataShape(s) && a.SetStream? && KeepsNames(s, a)
    ensures DataShape(Act(s, a))
  {
  }

  lemma OpenKeepsShape(s: Session, id: u32)
    requires DataShape(s) && s.slot.None?
    ensures DataShape(Act(s, Open(id)))
  {
    var streams' := s.streams + [NewStream(id, |s.handled|)];
    assert Act(s, Open(id)).streams == streams';
    assert forall k :: 0 <= k < |s.streams| ==> streams'[k] == s.streams[k];
  }

  lemma VacateKeepsShape(s: Session, a: Action)
    requires DataShape(s) && (a.Free? || a.Drain?) && Allows(s, a)
    ensures DataShape(Act(s, a))
  {
  }

  lemma ActKeepsShape(s: Session, a: Action)
    requires DataShape(s) && Allows(s, a) && KeepsNames(s, a)
    ensures DataShape(Act(s, a))
  {
    match a
    case SetStream(_, _) => SetKeepsShape(s, a);
    case Open(id) => OpenKeepsShape(s, id);
    case Free | Drain => VacateKeepsShape(s, a);
    case _ =>
  }

  lemma StepAllowed(s: Session, t: Task, c: Choice)
    requires DataShape(s) && CanRun(s, t, c)
    ensures Allows(s, StepOf(s, t, c).action)
    ensures KeepsNames(s, StepOf(s, t, c).action)
  {
  }

  lemma FrameAllowed(s: Session, f: Frame, ok: bool)
    requires DataShape(s)
    ensures SlotValid(s)
    ensures Allows(s, FrameStep(s, f, ok).action)
    ensures KeepsNames(s, FrameStep(s, f, ok).action)
  {
  }

  lemma EffectAllowed(s: Session, e: Event)
    requires DataShape(s) && OtherEvent(e) && Enabled(s, e)
    ensures Allows(s, EffectOf(s, e).action)
    ensures KeepsNames(s, EffectOf(s, e).action)
  {
  }

  // ---- tasks ----

  /** Steps that only the receive loop takes. */
  predicate LoopTask(t: Task) {
    match t
    case Receiving | Pushing(_, _, _) | Overload(_) | MarkingFin(_, _) | FinFull(_, _) => true
    case Admitting(_) | Rejecting(_, _) | Offering(_) | OfferFull(_) => true
    case MarkReadClosed(_, after) => LoopThen(after)
    case CheckFinish(_, after) => LoopThen(after)
    case Remove(_, _, after) => LoopThen(after)
    case BecameIdle(after) => LoopThen(after)
    case BeginShutdown(after) => LoopThen(after)
    case TakeSlot(after) => LoopThen(after)
    case _ => false
  }

  predicate LoopThen(after: Then) {
    after.ThenReceive? || after.ThenRemove? || after.ThenShutdown? || after.ThenEnd?
  }

  /** The stream a task works on exists and has the task's id. */
  predicate NamesStream(streams: seq<Stream>, t: Task) {
    match t
    case Pushing(id, key, _) => key < |streams| && streams[key].id == id
    case MarkingFin(id, key) => key < |streams| && streams[key].id == id
    case FinFull(id, key) => key < |streams| && streams[key].id == id
    case FinWaiter(id, key) => key < |streams| && streams[key].id == id
    case _ => true
  }

  ghost predicate TasksShape(tasks: seq<Task>, streams: seq<Stream>) {
    && tasks != []
    && (tasks[0] == Done || LoopTask(tasks[0]))
    && (forall i :: 0 < i < |tasks| ==> !LoopTask(tasks[i]))
    && (forall i :: 0 <= i < |tasks| ==> NamesStream(streams, tasks[i]))
  }

  /** The list of streams only grows, and names stay. */
  ghost predicate Grows(streams: seq<Stream>, streams': seq<Stream>) {
    && |streams| <= |streams'|
    && forall k :: 0 <= k < |streams| ==> streams'[k].id == streams[k].id && streams'[k].openedAt == streams[k].openedAt
  }

  /** Streams leave the slot only now. */
  ghost predicate LeavesAt(streams: seq<Stream>, streams': seq<Stream>, n: nat) {
    && |streams| <= |streams'|
    && forall k :: 0 <= k < |streams| ==>
         streams'[k].leftAt == streams[k].leftAt || (streams[k].leftAt.None? && streams'[k].leftAt == Some(n))
  }

  lemma ActLeaves(s: Session, a: Action)
    requires SlotShape(s.slot, s.streams) && Allows(s, a) && KeepsNames(s, a)
    ensures LeavesAt(s.streams, Act(s, a).streams, |s.handled|)
  {
    match a
    case SetStream(key, st) => assert Act(s, a).streams == s.streams[key := st];
    case Open(id) => assert Act(s, a).streams == s.streams + [NewStream(id, |s.handled|)];
    case Free => assert Act(s, a).streams == CancelSlot(s);
    case Drain => assert Act(s, a).streams == CancelSlot(s);
    case RaiseRemoteFin =>
    case _ => assert Act(s, a).streams == s.streams;
  }

  lemma ActGrows(s: Session, a: Action)
    requires Allows(s, a) && KeepsNames(s, a)
    ensures Grows(s.streams, Act(s, a).streams)
  {
    match a
    case SetStream(key, st) => assert Act(s, a).streams == s.streams[key := st];
    case Open(id) => assert Act(s, a).streams == s.streams + [NewStream(id, |s.handled|)];
    case Free => assert Act(s, a).streams == CancelSlot(s);
    case Drain => assert Act(s, a).streams == CancelSlot(s);
    case RaiseRemoteFin =>
    case _ => assert Act(s, a).streams == s.streams;
  }

  /** A step stays in the loop or leaves it, and starts no second loop. */
  predicate TaskStepShape(t: Task, step: Step, streams: seq<Stream>) {
    && (LoopTask(step.next) ==> LoopTask(t))
    && (LoopTask(t) ==> LoopTask(step.next) || step.next == Done)
    && NamesStream(streams, step.next)
    && (|| step.spawned == []
        || (|step.spawned| == 1 && !LoopTask(step.spawned[0]) && NamesStream(streams, step.spawned[0])))
  }

  lemma InboundTaskShape(s: Session, t: Task, c: Choice)
    requires InboundTask(t) && CanRun(s, t, c) && NamesStream(s.streams, t)
    ensures TaskStepShape(t, InboundStep(s, t, c), s.streams)
  {
  }

  lemma AdmissionTaskShape(s: Session, t: Task, c: Choice)
    requires AdmissionTask(t) && CanRun(s, t, c)
    ensures TaskStepShape(t, AdmissionStep(s, t, c), s.streams)
  {
  }

  lemma ReleaseTaskShape(s: Session, t: Task)
    requires ReleaseTask(t)
    ensures TaskStepShape(t, ReleaseStep(s, t), s.streams)
  {
  }

  lemma ClosingTaskShape(s: Session, t: Task, c: Choice)
    requires ClosingTask(t) && CanRun(s, t, c)
    ensures TaskStepShape(t, ClosingStep(s, t, c), s.streams)
  {
  }

  lemma StepTaskShape(s: Session, t: Task, c: Choice)
    requires CanRun(s, t, c) && NamesStream(s.streams, t)
    ensures TaskStepShape(t, StepOf(s, t, c), s.streams)
  {
    hide TaskStepShape, InboundStep, AdmissionStep, ReleaseStep, ClosingStep;
    if InboundTask(t) {
      InboundTaskShape(s, t, c);
    } else if AdmissionTask(t) {
      AdmissionTaskShape(s, t, c);
    } else if ReleaseTask(t) {
      ReleaseTaskShape(s, t);
    } else {
      ClosingTaskShape(s, t, c);
    }
  }

  lemma FrameTaskShape(s: Session, f: Frame, ok: bool)
    requires DataShape(s)
    ensures SlotValid(s) && TaskStepShape(Receiving, FrameStep(s, f, ok), s.streams)
  {
  }

  lemma EffectTaskShape(s: Session, e: Event)
    requires OtherEvent(e) && Enabled(s, e)
    ensures var spawned := EffectOf(s, e).spawned;
            spawned == [] || (|spawned| == 1 && !LoopTask(spawned[0]) && NamesStream(s.streams, spawned[0]))
  {
  }

  lemma NamesGrow(streams: seq<Stream>, streams': seq<Stream>, t: Task)
    requires NamesStream(streams, t) && Grows(streams, streams')
    ensures NamesStream(streams', t)
  {
  }

  lemma TasksShapeStep(tasks: seq<Task>, streams: seq<Stream>, i: nat, step: Step, streams': seq<Stream>)
    requires TasksShape(tasks, streams) && i < |tasks| && tasks[i] != Done
    requires TaskStepShape(tasks[i], step, streams) && Grows(streams, streams')
    ensures TasksShape(tasks[i := step.next] + step.spawned, streams')
  {
    hide LoopTask, NamesStream, Grows;
    var tasks' := tasks[i := step.next] + step.spawned;
    forall j | 0 <= j < |tasks'|
      ensures NamesStream(streams', tasks'[j])
    {
      NamesGrow(streams, streams', tasks'[j]);
    }
  }

  lemma TasksShapeSpawn(tasks: seq<Task>, streams: seq<Stream>, spawned: seq<Task>, streams': seq<Stream>)
    requires TasksShape(tasks, streams) && Grows(streams, streams')
    requires spawned == [] || (|spawned| == 1 && !LoopTask(spawned[0]) && NamesStream(streams, spawned[0]))
    ensures TasksShape(tasks + spawned, streams')
  {
    hide LoopTask, NamesStream, Grows;
    var tasks' := tasks + spawned;
    forall j | 0 <= j < |tasks'|
      ensures NamesStream(streams', tasks'[j])
    {
      NamesGrow(streams, streams', tasks'[j]);
    }
  }

  ghost predicate Shape(s: Session) {
    DataShape(s) && TasksShape(s.tasks, s.streams)
  }

  lemma RunKeepsShape(s: Session, i: nat, c: Choice)
    requires Shape(s) && i < |s.tasks| && CanRun(s, s.tasks[i], c)
    ensures Allows(s, StepOf(s, s.tasks[i], c).action)
    ensures Shape(Commit(s, i, StepOf(s, s.tasks[i], c)))
  {
    hide StepOf, Act, SlotShape, IdsShape, TaskStepShape, KeepsNames, NamesStream, LoopTask, Grows;
    var t := s.tasks[i];
    var step := StepOf(s, t, c);
    StepAllowed(s, t, c);
    ActKeepsShape(s, step.action);
    ActGrows(s, step.action);
    StepTaskShape(s, t, c);
    TasksShapeStep(s.tasks, s.streams, i, step, Act(s, step.action).streams);
  }

  lemma FrameKeepsShape(s: Session, f: Frame, ok: bool)
    requires Shape(s) && s.tasks[0] == Receiving
    ensures SlotValid(s) && Allows(s, FrameStep(s, f, ok).action)
    ensures Shape(Commit(s, 0, FrameStep(s, f, ok)))
  {
    hide FrameStep, Act, SlotShape, IdsShape, TaskStepShape, KeepsNames, NamesStream, LoopTask, Grows;
    FrameAllowed(s, f, ok);
    var step := FrameStep(s, f, ok);
    ActKeepsShape(s, step.action);
    ActGrows(s, step.action);
    FrameTaskShape(s, f, ok);
    TasksShapeStep(s.tasks, s.streams, 0, step, Act(s, step.action).streams);
  }

  lemma EffectKeepsShape(s: Session, e: Event)
    requires Shape(s) && OtherEvent(e) && Enabled(s, e)
    ensures Allows(s, EffectOf(s, e).action)
    ensures Shape(Act(s, EffectOf(s, e).action).(tasks := s.tasks + EffectOf(s, e).spawned))
  {
    hide EffectOf, Act, SlotShape, IdsShape, KeepsNames, NamesStream, LoopTask, Grows;
    EffectAllowed(s, e);
    var effect := EffectOf(s, e);
    ActKeepsShape(s, effect.action);
    ActGrows(s, effect.action);
    EffectTaskShape(s, e);
    TasksShapeSpawn(s.tasks, s.streams, effect.spawned, Act(s, effect.action).streams);
  }

  lemma EndKeepsShape(s: Session)
    requires Shape(s) && s.tasks[0] == Receiving
    ensures Shape(Commit(s, 0, Go(Stay, BeginShutdown(ThenEnd))))
  {
    hide SlotShape, IdsShape;
    TasksShapeStep(s.tasks, s.streams, 0, Go(Stay, BeginShutdown(ThenEnd)), s.streams);
  }
}
