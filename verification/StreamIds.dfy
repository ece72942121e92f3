/**
 * Stream ids (`allocate_stream_id` in src/runtime/session.rs): a 32-bit counter that wraps and
 * skips zero, and what its distinctness means for the streams of a client session.
 */
module StreamIds {
  import opened Bytes
  import opened Frames
  import opened Sessions
  import opened SessionInvariants
  import opened StreamInvariants
  import opened HalfCloses
  import opened Releases
  import opened StreamOrigins

  const COUNTER_RANGE: nat := 0x1_0000_0000

  /** How many ids there are: every 32-bit value but zero. */
  const ID_COUNT: nat := COUNTER_RANGE - 1

  class Counter {
    var value: u32

    /** `fetch_add(1)`: the old value, with the counter wrapping around. */
    method FetchAdd() returns (before: u32)
      modifies this
      ensures before == old(value)
      ensures value as nat == (old(value) as nat + 1) % COUNTER_RANGE
    {
      before := value;
      value := ((value as nat + 1) % COUNTER_RANGE) as u32;
    }

    /** The loop of `allocate_stream_id`. */
    method Allocate() returns (id: u32)
      modifies this
      ensures id as nat == IdAt(old(value) as nat, 0)
      ensures value == id
    {
      var before := FetchAdd();
      id := ((before as nat + 1) % COUNTER_RANGE) as u32;
      while id == 0
        invariant value == id
        invariant id == 0 ==> old(value) as nat == ID_COUNT
        invariant id != 0 ==> id as nat == IdAt(old(value) as nat, 0)
        decreases if id == 0 then 1 else 0
      {
        before := FetchAdd();
        id := ((before as nat + 1) % COUNTER_RANGE) as u32;
      }
    }
  }

  /** The id of allocation `n` after the counter was at `start`. */
  function IdAt(start: nat, n: nat): (id: nat)
    ensures 0 < id <= ID_COUNT
  {
    (start + n) % ID_COUNT + 1
  }

  /** Allocating from an id goes on with the next one of the sequence. */
  lemma NextIdAt(start: nat, n: nat)
    ensures IdAt(IdAt(start, n), 0) == IdAt(start, n + 1)
  {
    var m := (start + n) % ID_COUNT;
    assert (start + n) == ((start + n) / ID_COUNT) * ID_COUNT + m;
    assert start + n + 1 == ((start + n) / ID_COUNT) * ID_COUNT + (m + 1);
    ModuloOfSum((start + n) / ID_COUNT, m + 1);
  }

  lemma ModuloOfSum(k: nat, r: nat)
    ensures (k * ID_COUNT + r) % ID_COUNT == r % ID_COUNT
  {
    var q := r / ID_COUNT;
    assert k * ID_COUNT + r == (k + q) * ID_COUNT + r % ID_COUNT;
  }

  /** `count` allocations in a row, each through the counter. */
  method AllocateMany(counter: Counter, count: nat) returns (ids: seq<u32>)
    modifies counter
    ensures |ids| == count
    ensures forall i :: 0 <= i < count ==> ids[i] as nat == IdAt(old(counter.value) as nat, i)
  {
    ids := [];
    while |ids| < count
      invariant |ids| <= count
      invariant forall i :: 0 <= i < |ids| ==> ids[i] as nat == IdAt(old(counter.value) as nat, i)
      invariant if ids == [] then counter.value == old(counter.value) else counter.value == ids[|ids| - 1]
    {
      if ids != [] {
        NextIdAt(old(counter.value) as nat, |ids| - 1);
      }
      var id := counter.Allocate();
      ids := ids + [id];
    }
  }

  /** Two allocations give the same id exactly when they are a multiple of 2^32 - 1 apart. */
  lemma SameIdIff(start: nat, i: nat, j: nat)
    requires i <= j
    ensures IdAt(start, i) == IdAt(start, j) <==> (j - i) % ID_COUNT == 0
  {
    var a, b := start + i, start + j;
    var qa, qb := a / ID_COUNT, b / ID_COUNT;
    assert a == qa * ID_COUNT + a % ID_COUNT && b == qb * ID_COUNT + b % ID_COUNT;
    if a % ID_COUNT == b % ID_COUNT {
      assert j - i == (qb - qa) * ID_COUNT;
      assert qb >= qa;
      ModuloOfSum(qb - qa, 0);
    }
    if (j - i) % ID_COUNT == 0 {
      var k := (j - i) / ID_COUNT;
      assert b == k * ID_COUNT + a;
      ModuloOfSum(k, a);
    }
  }

  /** Fewer than 2^32 - 1 apart, ids are distinct. */
  lemma DistinctWithinRange(start: nat, i: nat, j: nat)
    requires i < j < i + ID_COUNT
    ensures IdAt(start, i) != IdAt(start, j)
  {
    SameIdIff(start, i, j);
  }

  // ---- distinct ids give distinct streams ----

  ghost predicate NoDuplicates(ids: seq<nat>) {
    forall i, j :: 0 <= i < j < |ids| ==> ids[i] != ids[j]
  }

  /** The ids that a run's calls of `reserve_stream` allocated, in order. */
  function Reserved(events: seq<Event>): seq<nat> {
    if events == [] then []
    else
      var last := events[|events| - 1];
      Reserved(events[..|events| - 1]) + if last.AppReserve? then [last.id] else []
  }

  /** A run with the events that make it. */
  ghost predicate IsLabelledRun(run: seq<Session>, events: seq<Event>) {
    && |run| == |events| + 1
    && run[0] == InitialSession(run[0].isClient)
    && forall i :: 0 <= i < |events| ==> Enabled(run[i], events[i]) && NextBy(run[i], events[i], run[i + 1])
  }

  lemma LabelledIsRun(run: seq<Session>, events: seq<Event>)
    requires IsLabelledRun(run, events)
    ensures IsRun(run)
  {
    hide Enabled, NextBy, InitialSession;
    forall i | 0 < i < |run|
      ensures Next(run[i - 1], run[i])
    {
      assert Enabled(run[i - 1], events[i - 1]) && NextBy(run[i - 1], events[i - 1], run[i]);
    }
  }

  /** Every id in use or about to be used was reserved, each once. */
  ghost predicate IdsReserved(s: Session, ids: seq<nat>) {
    && s.distinct
    && (forall id :: id in s.used ==> id in ids)
    && (forall i :: 0 <= i < |s.tasks| && s.tasks[i].Reserving? ==> s.tasks[i].id in ids && s.tasks[i].id !in s.used)
    && (forall i, j :: 0 <= i < j < |s.tasks| && s.tasks[i].Reserving? && s.tasks[j].Reserving? ==>
          s.tasks[i].id != s.tasks[j].id)
  }

  lemma ActUsed(s: Session, a: Action)
    requires Allows(s, a)
    ensures Act(s, a).used == if a.Open? then s.used + {a.id} else s.used
    ensures Act(s, a).distinct == (s.distinct && (a.Open? ==> a.id !in s.used))
  {
  }

  lemma RunKeepsReserved(s: Session, i: nat, c: Choice, ids: seq<nat>)
    requires s.isClient && AdmissionOk(s) && Shape(s) && IdsReserved(s, ids)
    requires i < |s.tasks| && CanRun(s, s.tasks[i], c) && Allows(s, StepOf(s, s.tasks[i], c).action)
    ensures IdsReserved(Commit(s, i, StepOf(s, s.tasks[i], c)), ids)
  {
    hide StepOf, CanRun, Act, SlotShape, IdsShape, LoopTask, NamesStream, SynPositions, SynPending, ExtendsSet;
    var step := StepOf(s, s.tasks[i], c);
    StepAdmission(s, s.tasks[i], c);
    StepExtends(s, s.tasks[i], c);
    OnlyLoopAdmits(s, i);
    AdmittingIsPending(s.tasks[i]);
    ActUsed(s, step.action);
  }

  lemma FrameKeepsReserved(s: Session, f: Frame, ok: bool, ids: seq<nat>)
    requires IdsReserved(s, ids) && SlotValid(s) && s.tasks != []
    requires Allows(s, FrameStep(s, f, ok).action)
    ensures IdsReserved(Commit(s, 0, FrameStep(s, f, ok)).(handled := s.handled + [f]), ids)
  {
    hide FrameStep, Act, SynPending;
    FrameSmallFacts(s, f, ok);
    ActUsed(s, FrameStep(s, f, ok).action);
  }

  lemma EffectKeepsReserved(s: Session, e: Event, ids: seq<nat>)
    requires OtherEvent(e) && Enabled(s, e) && IdsReserved(s, ids) && Allows(s, EffectOf(s, e).action)
    requires e.AppReserve? ==> e.id !in ids
    ensures IdsReserved(Act(s, EffectOf(s, e).action).(tasks := s.tasks + EffectOf(s, e).spawned),
                        if e.AppReserve? then ids + [e.id] else ids)
  {
    hide EffectOf, Act, Enabled;
    EffectSmallFacts(s, e);
    EffectReserves(s, e);
    ActUsed(s, EffectOf(s, e).action);
  }

  lemma EffectReserves(s: Session, e: Event)
    requires OtherEvent(e) && Enabled(s, e)
    ensures var spawned := EffectOf(s, e).spawned;
            if e.AppReserve? then spawned == [Reserving(e.id)] else spawned == [] || !spawned[0].Reserving?
  {
  }

  lemma NextKeepsReserved(s: Session, e: Event, s': Session, ids: seq<nat>)
    requires FullInv(s) && s.isClient && Enabled(s, e) && NextBy(s, e, s') && IdsReserved(s, ids)
    requires e.AppReserve? ==> e.id !in ids
    ensures IdsReserved(s', if e.AppReserve? then ids + [e.id] else ids)
    ensures s'.isClient
  {
    hide StepOf, FrameStep, EffectOf, Act, CanRun, SlotShape, IdsShape, LoopTask, NamesStream, Carriers, StreamsGood,
      NoGaps, AllFromFrames, NotLost, RetireOwed, SlotLeftWhy, GracefulOk, ClosedOk, NoticesOk, AdmissionOk,
      IdsReserved;
    match e
    case RunTask(i, choice) =>
      RunKeepsReserved(s, i, choice, ids);
      ActSettings(s, StepOf(s, s.tasks[i], choice).action);
    case ReceiveFrame(f, ok) =>
      FrameKeepsReserved(s, f, ok, ids);
      ActSettings(s, FrameStep(s, f, ok).action);
    case ReceiveEnds =>
      EndKeepsReserved(s, ids);
    case _ =>
      EffectKeepsReserved(s, e, ids);
      ActSettings(s, EffectOf(s, e).action);
  }

  lemma EndKeepsReserved(s: Session, ids: seq<nat>)
    requires s.tasks != [] && IdsReserved(s, ids)
    ensures IdsReserved(Commit(s, 0, Go(Stay, BeginShutdown(ThenEnd))), ids)
    ensures Commit(s, 0, Go(Stay, BeginShutdown(ThenEnd))).isClient == s.isClient
  {
  }

  lemma {:induction false} RunReserved(run: seq<Session>, events: seq<Event>)
    requires IsLabelledRun(run, events) && run[0].isClient && NoDuplicates(Reserved(events))
    ensures run[|run| - 1].isClient && IdsReserved(run[|run| - 1], Reserved(events))
    decreases |run|
  {
    hide Enabled, NextBy, FullInv, Reserved;
    if |run| > 1 {
      var n := |events| - 1;
      var before, sofar := run[..|run| - 1], events[..n];
      LastReserved(events);
      assert forall i :: 0 <= i < |sofar| ==> sofar[i] == events[i];
      RunReserved(before, sofar);
      LabelledIsRun(before, sofar);
      RunFullInv(before);
      NextKeepsReserved(run[n], events[n], run[n + 1], Reserved(sofar));
    } else {
      NothingReserved(run[0], events);
    }
  }

  lemma LastReserved(events: seq<Event>)
    requires events != [] && NoDuplicates(Reserved(events))
    ensures var e, sofar := events[|events| - 1], events[..|events| - 1];
            && NoDuplicates(Reserved(sofar))
            && Reserved(events) == (if e.AppReserve? then Reserved(sofar) + [e.id] else Reserved(sofar))
            && (e.AppReserve? ==> e.id !in Reserved(sofar))
  {
    var e, sofar := events[|events| - 1], events[..|events| - 1];
    assert forall i :: 0 <= i < |Reserved(sofar)| ==> Reserved(events)[i] == Reserved(sofar)[i];
    if e.AppReserve? {
      assert Reserved(events)[|Reserved(sofar)|] == e.id;
    }
  }

  lemma NothingReserved(s: Session, events: seq<Event>)
    requires events == [] && s == InitialSession(s.isClient)
    ensures IdsReserved(s, Reserved(events))
  {
  }

  /**
   * While a client process has allocated fewer than 2^32 - 1 ids, no session ever places an id in
   * its slot twice. `at[i]` tells which allocation of the process the session's reservation `i`
   * was; other sessions take the allocations in between.
   */
  lemma ClientIdsAreDistinct(run: seq<Session>, events: seq<Event>, start: nat, at: seq<nat>)
    requires IsLabelledRun(run, events) && run[0].isClient
    requires |at| == |Reserved(events)|
    requires forall i, j :: 0 <= i < j < |at| ==> at[i] < at[j] < ID_COUNT
    requires forall i :: 0 <= i < |at| ==> Reserved(events)[i] == IdAt(start, at[i])
    ensures run[|run| - 1].distinct
  {
    hide IdAt, Reserved, IsLabelledRun;
    forall i, j | 0 <= i < j < |at|
      ensures Reserved(events)[i] != Reserved(events)[j]
    {
      DistinctWithinRange(start, at[i], at[j]);
    }
    RunReserved(run, events);
  }
}
