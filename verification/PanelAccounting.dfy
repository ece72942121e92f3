/**
 * Exactly-once traffic accounting: the reporter of src/panel_sync/core.rs with a panel that applies
 * each sequence number once, over a link that may lose, delay or repeat requests and lose answers.
 */
module PanelAccounting {
  import opened Wrappers
  import opened TrafficAudits
  import opened Panels

  datatype World = World(
    audit: Audit,
    reporter: Reporter,
    sent: set<Report>,                   // every request ever sent
    applied: set<nat>,                   // sequences the panel has applied
    credited: map<ClientId, Traffic>,    // what the panel has added up
    before: map<ClientId, Traffic>,      // the part of it that belongs to earlier listings
    tainted: set<ClientId>)              // clients whose last removal met a pending report of them

  function Credit(credited: map<ClientId, Traffic>, id: ClientId): Traffic {
    if id in credited then credited[id] else NoTraffic()
  }

  datatype Event =
    | Count(id: ClientId, more: Traffic)
    | Sync(users: seq<User>)
    | Send                              // a first attempt or a retry
    | Arrive(report: Report)            // the panel gets a request, early, late or again
    | Answer                            // its success answer reaches the reporter

  predicate Enabled(w: World, e: Event) {
    match e
    case Count(_, more) => NoTraffic().AtMost(more)
    case Send => Prepared(w.reporter, w.audit).Ok?
    case Arrive(report) => report in w.sent
    case Answer => w.reporter.pending.Some? && w.reporter.pending.value.sequence in w.applied
    case _ => true
  }

  /** What the panel adds for a report. */
  function Applied(credited: map<ClientId, Traffic>, data: map<ClientId, Traffic>): map<ClientId, Traffic> {
    map id | id in credited.Keys + data.Keys ::
      Credit(credited, id).Plus(Credit(data, id))
  }

  function Removed(w: World, users: seq<User>): set<ClientId> {
    w.audit.Keys - Seen(users)
  }

  function Pending(r: Reporter, id: ClientId): bool {
    r.pending.Some? && id in r.pending.value.snapshot
  }

  /**
   * A removed client starts again: what it was credited belongs to earlier listings. The books of
   * one that a pending report lists stay open, because that report is still to be settled.
   */
  function AfterSync(w: World, users: seq<User>): World {
    var removed := Removed(w, users);
    w.(audit := SyncedAudit(w.audit, users),
       reporter := SyncedReporter(w.reporter, w.audit, users),
       before := map id | id in w.before.Keys + removed ::
                   if id in removed && !Pending(w.reporter, id) then Credit(w.credited, id) else Credit(w.before, id),
       tainted := (set id | id in w.tainted && (id !in removed || Pending(w.reporter, id)))
                  + set id | id in removed && Pending(w.reporter, id))
  }

  /** A baseline above the counter hides their difference from the report that is made. */
  function Hidden(w: World, id: ClientId): Traffic {
    Delta(Baseline(w.reporter.reported, id), TrafficOf(w.audit, id))
  }

  function AfterSend(w: World): World
    requires Prepared(w.reporter, w.audit).Ok?
  {
    var r := Prepared(w.reporter, w.audit).value;
    if w.reporter.pending.Some? || r.pending.None? then
      w.(reporter := r, sent := w.sent + if r.pending.Some? then {r.pending.value} else {})
    else
      var listed := r.pending.value.snapshot.Keys;
      w.(reporter := r, sent := w.sent + {r.pending.value},
         before := map id | id in w.before.Keys + listed ::
                     Credit(w.before, id).Plus(if id in listed then Hidden(w, id) else NoTraffic()))
  }

  function Apply(w: World, e: Event): World
    requires Enabled(w, e)
  {
    match e
    case Count(id, more) => w.(audit := Counted(w.audit, id, more))
    case Sync(users) => AfterSync(w, users)
    case Send => AfterSend(w)
    case Arrive(report) =>
      if report.sequence in w.applied then w
      else w.(applied := w.applied + {report.sequence}, credited := Applied(w.credited, report.data))
    case Answer => w.(reporter := Acknowledged(w.reporter))
  }

  ghost predicate Step(w: World, w': World) {
    exists e :: Enabled(w, e) && w' == Apply(w, e)
  }

  function InitialWorld(): World {
    World(map[], Reporter(map[], 1, None), {}, {}, map[], map[], {})
  }

  ghost predicate IsRun(run: seq<World>) {
    && run != []
    && run[0] == InitialWorld()
    && forall i :: 0 < i < |run| ==> Step(run[i - 1], run[i])
  }

  // ---- sequence numbers ----

  /** Every request but the pending one has been applied, and one sequence means one request. */
  ghost predicate Sequenced(w: World) {
    && (w.reporter.pending.Some? ==> w.reporter.pending.value.sequence + 1 == w.reporter.nextSequence)
    && (w.reporter.pending.Some? ==> w.reporter.pending.value in w.sent)
    && (forall r :: r in w.sent ==> r.sequence < w.reporter.nextSequence)
    && (forall r :: r in w.sent ==> w.reporter.pending == Some(r) || r.sequence in w.applied)
    && (forall r, q :: r in w.sent && q in w.sent && r.sequence == q.sequence ==> r == q)
    && (forall n :: n in w.applied ==> n < w.reporter.nextSequence)
  }

  lemma StepKeepsSequenced(w: World, e: Event)
    requires Sequenced(w) && Enabled(w, e)
    ensures Sequenced(Apply(w, e))
  {
    hide Increases, Snapshot, SyncedAudit, Applied, Counted;
  }

  // ---- the ledger ----

  /** One client's books: the counters of a pending report are there if it lists the client. */
  datatype Account = Account(
    credit: Traffic, before: Traffic, baseline: Traffic, counter: Traffic,
    snapshot: Option<Traffic>, delta: Traffic, applied: bool)
  {
    /** What the panel must have credited since the client was last listed. */
    function Expected(): Traffic {
      if snapshot.None? then baseline
      else if applied then snapshot.value
      else snapshot.value.Minus(delta)
    }

    predicate Booked() {
      credit == before.Plus(Expected())
    }

    predicate Balanced() {
      && NoTraffic().AtMost(baseline)
      && baseline.AtMost(counter)
      && NoTraffic().AtMost(delta)
      && (snapshot.Some? ==>
            snapshot.value.AtMost(counter) && snapshot.value == baseline.Plus(delta) && delta != NoTraffic())
    }
  }

  function AccountOf(w: World, id: ClientId): Account {
    var r := w.reporter;
    Account(
      Credit(w.credited, id), Credit(w.before, id), Baseline(r.reported, id), TrafficOf(w.audit, id),
      if Pending(r, id) then Some(r.pending.value.snapshot[id]) else None,
      if r.pending.Some? then Credit(r.pending.value.data, id) else NoTraffic(),
      r.pending.Some? && r.pending.value.sequence in w.applied)
  }

  /** A report has an increase for exactly the clients it has a snapshot of. */
  ghost predicate Keyed(w: World) {
    w.reporter.pending.Some? ==> w.reporter.pending.value.data.Keys == w.reporter.pending.value.snapshot.Keys
  }

  ghost predicate Ledger(w: World) {
    && InRange(w.audit)
    && Keyed(w)
    && (forall id :: AccountOf(w, id).Booked())
    && (forall id :: id !in w.tainted ==> AccountOf(w, id).Balanced())
  }

  lemma CountAccount(w: World, id: ClientId, more: Traffic, c: ClientId)
    requires InRange(w.audit) && NoTraffic().AtMost(more)
    ensures var a, a' := AccountOf(w, c), AccountOf(Apply(w, Count(id, more)), c);
            a' == a.(counter := a'.counter) && a.counter.AtMost(a'.counter)
  {
    hide Counted, Credit, Baseline, Pending;
    CountedRaises(w.audit, id, more, c);
  }

  lemma CountKeepsLedger(w: World, id: ClientId, more: Traffic)
    requires Ledger(w) && NoTraffic().AtMost(more)
    ensures Ledger(Apply(w, Count(id, more)))
  {
    hide AccountOf, Counted;
    var w' := Apply(w, Count(id, more));
    CountedRaises(w.audit, id, more, id);
    forall c: ClientId
      ensures AccountOf(w', c).Booked() && (c !in w'.tainted ==> AccountOf(w', c).Balanced())
    {
      CountAccount(w, id, more, c);
      assert AccountOf(w, c).Booked();
    }
  }

  /** A client that stays listed, or was not listed, keeps its books; a removed one starts again. */
  lemma SyncAccount(w: World, users: seq<User>, c: ClientId)
    ensures var a, a' := AccountOf(w, c), AccountOf(AfterSync(w, users), c);
            if c in Removed(w, users)
            then a' == a.(before := if a.snapshot.None? then a.credit else a.before,
                          baseline := NoTraffic(), counter := NoTraffic())
            else a' == a
  {
    hide SyncedAudit, Seen;
    SyncKeepsListed(w.audit, users, c);
  }

  lemma SyncKeepsLedger(w: World, users: seq<User>)
    requires Ledger(w)
    ensures Ledger(AfterSync(w, users))
  {
    hide AccountOf, SyncedAudit, Seen, TrafficOf;
    var w' := AfterSync(w, users);
    SyncKeepsRange(w.audit, users);
    forall c: ClientId
      ensures AccountOf(w', c).Booked() && (c !in w'.tainted ==> AccountOf(w', c).Balanced())
    {
      SyncAccount(w, users, c);
      RemovedIsListed(w, users, c);
      NoSnapshotNoIncrease(w, c);
      assert AccountOf(w, c).Booked();
    }
  }

  lemma NoSnapshotNoIncrease(w: World, c: ClientId)
    requires Keyed(w)
    ensures AccountOf(w, c).snapshot.None? ==> AccountOf(w, c).delta == NoTraffic()
  {
    hide Baseline, TrafficOf;
  }

  /** A client that a sync removes without tainting it is not in the pending report. */
  lemma RemovedIsListed(w: World, users: seq<User>, c: ClientId)
    ensures c in Removed(w, users) && c !in AfterSync(w, users).tainted ==> AccountOf(w, c).snapshot.None?
    ensures c !in Removed(w, users) && c !in AfterSync(w, users).tainted ==> c !in w.tainted
  {
    hide SyncedAudit, Seen;
  }

  lemma SyncKeepsRange(audit: Audit, users: seq<User>)
    requires InRange(audit)
    ensures InRange(SyncedAudit(audit, users))
  {
    hide SyncedAudit, Seen;
    forall id | id in SyncedAudit(audit, users)
      ensures Counter(SyncedAudit(audit, users)[id].traffic)
    {
      SyncKeepsListed(audit, users, id);
    }
  }

  lemma SendAccount(w: World, c: ClientId)
    requires Sequenced(w) && Enabled(w, Send)
    ensures var a, a' := AccountOf(w, c), AccountOf(AfterSend(w), c);
            || a' == a
            || (&& a.snapshot.None? && w.reporter.pending.None?
                && a' == a.(snapshot := a'.snapshot, delta := a'.delta, applied := false, before := a'.before)
                && (a'.snapshot.None? ==> a'.delta == NoTraffic() && a'.before == a.before)
                && (a'.snapshot.Some? ==>
                      && a'.snapshot.value == a.counter && a'.delta == Delta(a.counter, a.baseline) != NoTraffic()
                      && a'.before == a.before.Plus(Delta(a.baseline, a.counter))))
  {
    hide Baseline, Sequenced;
    var r := w.reporter;
    if r.pending.None? && Increases(w.audit, r.reported) != map[] {
      NextIsNew(w);
      NewReport(w, c);
    }
  }

  lemma NextIsNew(w: World)
    requires Sequenced(w)
    ensures w.reporter.nextSequence !in w.applied
  {
  }

  /** What a new report holds of one client. */
  lemma NewReport(w: World, c: ClientId)
    ensures var data, snapshot := Increases(w.audit, w.reporter.reported), Snapshot(w.audit, w.reporter.reported);
            && (c in snapshot <==> c in data)
            && (c in snapshot ==>
                  && snapshot[c] == TrafficOf(w.audit, c)
                  && data[c] == Delta(TrafficOf(w.audit, c), Baseline(w.reporter.reported, c)) != NoTraffic())
  {
  }

  /** No saturation hides anything: the increase leads from the baseline to the counter. */
  lemma DeltaFits(now: Traffic, before: Traffic)
    ensures before.AtMost(now) ==> before.Plus(Delta(now, before)) == now && NoTraffic().AtMost(Delta(now, before))
    ensures now.Minus(Delta(now, before)).Plus(Delta(before, now)) == before
  {
  }

  lemma SendKeepsLedger(w: World)
    requires Sequenced(w) && Ledger(w) && Enabled(w, Send)
    ensures Ledger(Apply(w, Send))
  {
    hide AccountOf, Sequenced, Delta, InRange;
    var w' := AfterSend(w);
    SendKeepsKeyed(w);
    forall c: ClientId
      ensures AccountOf(w', c).Booked() && (c !in w'.tainted ==> AccountOf(w', c).Balanced())
    {
      var a := AccountOf(w, c);
      SendAccount(w, c);
      DeltaFits(a.counter, a.baseline);
      assert a.Booked();
    }
  }

  lemma SendKeepsKeyed(w: World)
    requires Keyed(w) && Enabled(w, Send)
    ensures Keyed(AfterSend(w))
  {
  }

  lemma AppliedCredit(credited: map<ClientId, Traffic>, data: map<ClientId, Traffic>, c: ClientId)
    ensures Credit(Applied(credited, data), c) == Credit(credited, c).Plus(Credit(data, c))
  {
  }

  lemma ArriveAccount(w: World, report: Report, c: ClientId)
    requires Sequenced(w) && Keyed(w) && report in w.sent
    ensures var a, a' := AccountOf(w, c), AccountOf(Apply(w, Arrive(report)), c);
            if report.sequence in w.applied then a' == a
            else !a.applied && a' == a.(credit := a.credit.Plus(a.delta), applied := true)
                 && (a.snapshot.None? ==> a.delta == NoTraffic())
  {
    hide Applied, Baseline, TrafficOf, Credit, Sequenced, Keyed;
    if report.sequence !in w.applied {
      ArrivesPending(w, report);
      NoSnapshotNoDelta(w, report, c);
      AppliedCredit(w.credited, report.data, c);
    }
  }

  lemma ArrivesPending(w: World, report: Report)
    requires Sequenced(w) && report in w.sent && report.sequence !in w.applied
    ensures w.reporter.pending == Some(report)
  {
  }

  lemma NoSnapshotNoDelta(w: World, report: Report, c: ClientId)
    requires Keyed(w) && w.reporter.pending == Some(report)
    ensures c !in report.snapshot ==> Credit(report.data, c) == NoTraffic()
  {
  }

  lemma ArriveKeepsLedger(w: World, report: Report)
    requires Sequenced(w) && Ledger(w) && report in w.sent
    ensures Ledger(Apply(w, Arrive(report)))
  {
    hide AccountOf, Sequenced, InRange;
    var w' := Apply(w, Arrive(report));
    forall c: ClientId
      ensures AccountOf(w', c).Booked() && (c !in w'.tainted ==> AccountOf(w', c).Balanced())
    {
      ArriveAccount(w, report, c);
      assert AccountOf(w, c).Booked();
    }
  }

  lemma AnswerAccount(w: World, c: ClientId)
    requires Enabled(w, Answer)
    ensures var a, a' := AccountOf(w, c), AccountOf(Apply(w, Answer), c);
            && a.applied
            && a' == a.(baseline := a.Expected(), snapshot := None, delta := NoTraffic(), applied := false)
  {
    hide Credit, TrafficOf;
    assert Credit(w.credited, c) == Credit(Apply(w, Answer).credited, c);
  }

  lemma AnswerKeepsLedger(w: World)
    requires Ledger(w) && Enabled(w, Answer)
    ensures Ledger(Apply(w, Answer))
  {
    hide AccountOf, InRange;
    var w' := Apply(w, Answer);
    forall c: ClientId
      ensures AccountOf(w', c).Booked() && (c !in w'.tainted ==> AccountOf(w', c).Balanced())
    {
      AnswerAccount(w, c);
      assert AccountOf(w, c).Booked();
    }
  }

  ghost predicate Inv(w: World) {
    Sequenced(w) && Ledger(w)
  }

  lemma StepKeepsInv(w: World, w': World)
    requires Inv(w) && Step(w, w')
    ensures Inv(w')
  {
    hide Sequenced, Ledger, Apply, Enabled;
    var e :| Enabled(w, e) && w' == Apply(w, e);
    StepKeepsSequenced(w, e);
    match e
    case Count(id, more) =>
      CountsUp(w, id, more);
      CountKeepsLedger(w, id, more);
    case Sync(users) =>
      SyncKeepsLedger(w, users);
      SyncApplies(w, users);
    case Send => SendKeepsLedger(w);
    case Arrive(report) =>
      ArrivesSent(w, report);
      ArriveKeepsLedger(w, report);
    case Answer => AnswerKeepsLedger(w);
  }

  lemma SyncApplies(w: World, users: seq<User>)
    ensures Apply(w, Sync(users)) == AfterSync(w, users)
  {
  }

  lemma CountsUp(w: World, id: ClientId, more: Traffic)
    requires Enabled(w, Count(id, more))
    ensures NoTraffic().AtMost(more)
  {
  }

  lemma ArrivesSent(w: World, report: Report)
    requires Enabled(w, Arrive(report))
    ensures report in w.sent
  {
  }

  lemma {:induction false} RunInv(run: seq<World>)
    requires IsRun(run)
    ensures Inv(run[|run| - 1])
    decreases |run|
  {
    hide Step, Inv;
    if |run| == 1 {
      InitialInv();
    } else {
      RunInv(run[..|run| - 1]);
      StepKeepsInv(run[|run| - 2], run[|run| - 1]);
    }
  }

  lemma InitialInv()
    ensures Inv(InitialWorld())
  {
    hide AccountOf;
    forall id: ClientId
      ensures AccountOf(InitialWorld(), id).Balanced() && AccountOf(InitialWorld(), id).Booked()
    {
      InitialAccount(id);
    }
  }

  lemma InitialAccount(id: ClientId)
    ensures AccountOf(InitialWorld(), id) ==
              Account(NoTraffic(), NoTraffic(), NoTraffic(), NoTraffic(), None, NoTraffic(), false)
  {
  }

  // ---- the theorems ----

  /**
   * Over every run of losses, repeats and retries, and for every client, the panel has credited what
   * belongs to earlier listings and exactly the acknowledged or applied snapshot of the present one.
   * The baseline stays within the counter, so that no report hides bytes, for every client whose
   * last removal did not meet a pending report of it.
   */
  lemma ExactlyOnce(run: seq<World>, w: World, id: ClientId)
    requires IsRun(run) && w == run[|run| - 1]
    ensures var a := AccountOf(w, id);
            && a.credit == a.before.Plus(a.Expected())
            && (id !in w.tainted ==>
                  && a.baseline.AtMost(a.counter) && a.Expected().AtMost(a.counter)
                  && (a.snapshot.Some? && !a.applied ==> a.Expected() == a.baseline))
  {
    hide AccountOf, Sequenced;
    RunInv(run);
    assert AccountOf(w, id).Booked();
  }

  /** Retries carry identical data, and a new sequence is used only once all others are applied. */
  lemma RetriesAreIdentical(run: seq<World>, w: World, r: Report, q: Report)
    requires IsRun(run) && w == run[|run| - 1] && r in w.sent && q in w.sent
    ensures r.sequence == q.sequence ==> r == q
    ensures r.sequence < q.sequence ==> r.sequence in w.applied && w.reporter.pending != Some(r)
  {
    hide Ledger;
    RunInv(run);
  }

  /** A client that is never removed has nothing else on its account. */
  lemma {:induction false} NeverRemoved(run: seq<World>, id: ClientId)
    requires IsRun(run)
    requires forall i :: 0 < i < |run| && id in run[i - 1].audit ==> id in run[i].audit
    ensures id !in run[|run| - 1].tainted && Credit(run[|run| - 1].before, id) == NoTraffic()
    decreases |run|
  {
    hide Step, Inv;
    if |run| > 1 {
      var n := |run| - 1;
      assert forall i :: 0 <= i < n ==> run[..n][i] == run[i];
      NeverRemoved(run[..n], id);
      RunInv(run[..n]);
      KeptListed(run[n - 1], run[n], id);
    }
  }

  lemma KeptListed(w: World, w': World, id: ClientId)
    requires Inv(w) && Step(w, w') && (id in w.audit ==> id in w'.audit) && id !in w.tainted
    ensures id !in w'.tainted && Credit(w'.before, id) == Credit(w.before, id)
  {
    hide AfterSend, Applied, Counted, AfterSync, Sequenced, AccountOf;
    var e :| Enabled(w, e) && w' == Apply(w, e);
    if e.Sync? {
      KeptBySync(w, e.users, id);
    } else if e.Send? {
      assert AccountOf(w, id).Balanced();
      KeptBySend(w, id);
    }
  }

  lemma KeptBySync(w: World, users: seq<User>, id: ClientId)
    requires id in w.audit ==> id in AfterSync(w, users).audit
    requires id !in w.tainted
    ensures id !in AfterSync(w, users).tainted && Credit(AfterSync(w, users).before, id) == Credit(w.before, id)
  {
    hide Seen;
    SyncKeepsListed(w.audit, users, id);
  }

  lemma KeptBySend(w: World, id: ClientId)
    requires Sequenced(w) && Enabled(w, Send) && AccountOf(w, id).Balanced()
    ensures AfterSend(w).tainted == w.tainted && Credit(AfterSend(w).before, id) == Credit(w.before, id)
  {
    hide Sequenced, AfterSend, AccountOf, Credit, Prepared;
    SendTaintsNobody(w);
    SendAccount(w, id);
    BeforeOf(w, id);
    BeforeOf(AfterSend(w), id);
  }

  lemma SendTaintsNobody(w: World)
    requires Enabled(w, Send)
    ensures AfterSend(w).tainted == w.tainted
  {
    hide Prepared;
  }

  lemma BeforeOf(w: World, id: ClientId)
    ensures AccountOf(w, id).before == Credit(w.before, id)
  {
    hide Credit, Baseline, TrafficOf;
  }

  /**
   * A continuously listed client is credited exactly its acknowledged or applied snapshot, and with
   * no report pending exactly its baseline.
   */
  lemma ContinuouslyListed(run: seq<World>, w: World, id: ClientId)
    requires IsRun(run) && w == run[|run| - 1]
    requires forall i :: 0 < i < |run| && id in run[i - 1].audit ==> id in run[i].audit
    ensures var a := AccountOf(w, id);
            && a.credit == a.Expected()
            && (w.reporter.pending.None? ==> a.credit == a.baseline)
            && a.credit.AtMost(a.counter)
  {
    hide IsRun, Credit, Baseline, TrafficOf;
    NeverRemoved(run, id);
    ExactlyOnce(run, w, id);
  }

  /**
   * Nothing is left uncredited: once no report is pending and the next attempt finds nothing to
   * report, a continuously listed client is credited exactly its counter.
   */
  lemma AllCredited(run: seq<World>, w: World, id: ClientId)
    requires IsRun(run) && w == run[|run| - 1] && id in w.audit
    requires forall i :: 0 < i < |run| && id in run[i - 1].audit ==> id in run[i].audit
    requires w.reporter.pending.None? && Prepared(w.reporter, w.audit) == Ok(w.reporter)
    ensures AccountOf(w, id).credit == w.audit[id].traffic
  {
    hide IsRun, Credit, Prepared;
    ContinuouslyListed(run, w, id);
    DueIsReported(w.reporter, w.audit);
    assert !Above(w.audit[id].traffic, Baseline(w.reporter.reported, id));
  }

  // ---- removals while a report is pending ----

  /** The time a report is pending: any traffic, syncs, retries and arrivals, until its answer. */
  ghost predicate Window(run: seq<World>) {
    && run != []
    && run[0].reporter.pending.Some?
    && forall i :: 0 < i < |run| ==> WaitingStep(run[i - 1], run[i])
  }

  ghost predicate WaitingStep(w: World, w': World) {
    exists e :: Enabled(w, e) && !e.Answer? && w' == Apply(w, e)
  }

  /** A report stays pending until it is answered; only a sync that meets it taints a client. */
  lemma WaitingStepKeeps(w: World, w': World, id: ClientId)
    requires WaitingStep(w, w') && w.reporter.pending.Some?
    ensures Step(w, w') && w'.reporter.pending == w.reporter.pending
    ensures id !in w.tainted && !Pending(w.reporter, id) ==> id !in w'.tainted
  {
    hide Applied, Counted, SyncedAudit, Seen;
    var e :| Enabled(w, e) && !e.Answer? && w' == Apply(w, e);
  }

  lemma {:induction false} WindowKeeps(run: seq<World>, id: ClientId)
    requires Window(run) && Inv(run[0])
    ensures var w := run[|run| - 1];
            && Inv(w) && w.reporter.pending == run[0].reporter.pending
            && (id !in run[0].tainted && !Pending(run[0].reporter, id) ==> id !in w.tainted)
            && (id !in run[0].tainted && (forall i :: 0 <= i < |run| ==> id in run[i].audit) ==> id !in w.tainted)
    decreases |run|
  {
    hide WaitingStep, Inv, Step;
    if |run| > 1 {
      var n := |run| - 1;
      var before := run[..n];
      assert forall i :: 0 <= i < n ==> before[i] == run[i];
      WindowKeeps(before, id);
      WaitingStepKeeps(run[n - 1], run[n], id);
      StepKeepsInv(run[n - 1], run[n]);
      if id !in run[n - 1].tainted && id in run[n].audit {
        KeptListed(run[n - 1], run[n], id);
      }
    }
  }

  lemma SnapshotStays(w: World, w': World, id: ClientId)
    requires w'.reporter.pending == w.reporter.pending
    ensures AccountOf(w', id).snapshot == AccountOf(w, id).snapshot
    ensures AccountOf(w', id).counter == TrafficOf(w'.audit, id)
    ensures AccountOf(w, id).snapshot.Some? <==> Pending(w.reporter, id)
  {
    hide Baseline, TrafficOf, Credit;
  }

  /**
   * Exactly when the answer of a report leaves a client's baseline above its counter, whatever is
   * counted, synced, sent again or arrives while the report is pending: when the report lists the
   * client and its snapshot exceeds the counter at that time. A client that stays listed all the
   * while is safe, and one that the report lists and that is unlisted at the answer is not.
   */
  lemma RemovalWhilePending(run: seq<World>, id: ClientId)
    requires Window(run) && Inv(run[0]) && Enabled(run[|run| - 1], Answer)
    requires Pending(run[0].reporter, id) || id !in run[0].tainted
    ensures var listed := AccountOf(run[0], id).snapshot;
            var a := AccountOf(Apply(run[|run| - 1], Answer), id);
            && (a.baseline.AtMost(a.counter) <==> listed.None? || listed.value.AtMost(a.counter))
            && (id !in run[0].tainted && (forall i :: 0 <= i < |run| ==> id in run[i].audit) ==>
                  a.baseline.AtMost(a.counter))
            && (id !in run[0].tainted && listed.Some? && id !in run[|run| - 1].audit ==>
                  !a.baseline.AtMost(a.counter))
  {
    hide AccountOf, Window, Sequenced, InRange, Keyed, WaitingStep, Enabled;
    NonEmpty(run);
    var w := run[|run| - 1];
    WindowKeeps(run, id);
    SnapshotStays(run[0], w, id);
    AnswerAccount(w, id);
    if id !in run[0].tainted {
      assert AccountOf(run[0], id).Balanced();
    }
    if id !in w.tainted {
      assert AccountOf(w, id).Balanced();
    }
  }

  lemma NonEmpty(run: seq<World>)
    requires Window(run)
    ensures run != []
  {
  }

  // ---- the exception ----

  const CLIENT: User := User(Some(7), true)
  const FIRST: Report := Report(1, map[7 := Traffic(100, 0)], map[7 := Traffic(100, 0)])

  /** Client 7 was removed while its first report was pending, and listed again. */
  function Relisted(): World {
    World(map[7 := ClientTraffic(true, Traffic(50, 0))],
          Reporter(map[7 := Traffic(100, 0)], 2, None),
          {FIRST}, {1}, map[7 := Traffic(100, 0)], map[7 := NoTraffic()], {7})
  }

  ghost predicate Reached(w: World) {
    exists run :: IsRun(run) && run[|run| - 1] == w
  }

  lemma Reach(w: World, e: Event, w': World)
    requires Reached(w) && Enabled(w, e) && w' == Apply(w, e)
    ensures Reached(w')
  {
    hide Apply, Enabled;
    var run :| IsRun(run) && run[|run| - 1] == w;
    assert Step(w, w');
    assert IsRun(run + [w']);
  }

  /** The client listed, with 100 bytes counted and reported. */
  function Reported(): World {
    World(map[7 := ClientTraffic(true, Traffic(100, 0))], Reporter(map[], 2, Some(FIRST)),
          {FIRST}, {}, map[], map[7 := NoTraffic()], {})
  }

  lemma SeenClient()
    ensures Seen([CLIENT]) == {7} && Seen([]) == {}
    ensures SyncedAudit(map[], [CLIENT]) == map[7 := ClientTraffic(true, NoTraffic())]
  {
    hide Seen;
    assert Seen([]) == {} by { NobodySeen(); }
    SeenSnoc([], CLIENT);
    assert [] + [CLIENT] == [CLIENT];
    assert [CLIENT][..0] == [];
    var nobody: Audit := map[];
    var listed := ListedAll(nobody, [CLIENT]);
    assert ListedAll(nobody, [CLIENT][..0]) == nobody;
    assert listed == Listed(nobody, 7, true);
    assert Kept(listed, {7}) == listed;
  }

  lemma NobodySeen()
    ensures Seen([]) == {}
  {
  }

  lemma ReportedReached()
    ensures Reached(Reported())
  {
    hide Reached, IsRun;
    var w0 := InitialWorld();
    assert Reached(w0) by { InitialReached(); }
    SeenClient();
    var w1 := w0.(audit := map[7 := ClientTraffic(true, NoTraffic())]);
    assert SyncedAudit(map[], [CLIENT]) == w1.audit;
    Reach(w0, Sync([CLIENT]), w1);
    var w2 := w1.(audit := map[7 := ClientTraffic(true, Traffic(100, 0))]);
    Reach(w1, Count(7, Traffic(100, 0)), w2);
    assert Grew(w2.audit, map[], 7);
    assert Increases(w2.audit, map[]) == FIRST.data && 7 in FIRST.data && Snapshot(w2.audit, map[]) == FIRST.snapshot;
    assert Hidden(w2, 7) == NoTraffic();
    assert AfterSend(w2).before == Reported().before;
    Reach(w2, Send, Reported());
  }

  lemma InitialReached()
    ensures Reached(InitialWorld())
  {
    assert IsRun([InitialWorld()]);
  }

  /** The report is pending: the client is removed ... */
  function Gone(): World {
    Reported().(audit := map[], tainted := {7})
  }

  /** ... and listed again ... */
  function Back(): World {
    Gone().(audit := map[7 := ClientTraffic(true, NoTraffic())])
  }

  /** ... and then the report arrives. */
  function Late(): World {
    Back().(applied := {1}, credited := FIRST.data)
  }

  lemma ListedAgain()
    ensures AfterSync(Gone(), [CLIENT]) == Back()
  {
    hide SyncedAudit, Seen;
    SeenClient();
    assert Removed(Gone(), [CLIENT]) == {};
    assert SyncedReporter(Gone().reporter, map[], [CLIENT]) == Gone().reporter;
  }

  lemma ArrivesLate()
    ensures Enabled(Back(), Arrive(FIRST)) && Apply(Back(), Arrive(FIRST)) == Late()
    ensures Enabled(Late(), Answer)
  {
    assert Applied(map[], FIRST.data) == FIRST.data;
  }

  lemma PauseIsWindow()
    ensures Window([Reported(), Gone(), Back(), Late()]) && Reached(Late())
  {
    hide Reached, IsRun, AfterSync, Apply, Enabled, WaitingStep, Gone, Back, Late;
    ReportedReached();
    GoneIs();
    SyncApplies(Reported(), []);
    SyncsAlways(Reported(), []);
    Waits(Reported(), Sync([]), Gone());
    ListedAgain();
    SyncApplies(Gone(), [CLIENT]);
    SyncsAlways(Gone(), [CLIENT]);
    Waits(Gone(), Sync([CLIENT]), Back());
    ArrivesLate();
    Waits(Back(), Arrive(FIRST), Late());
  }

  lemma GoneIs()
    ensures AfterSync(Reported(), []) == Gone()
  {
    hide AfterSync;
    Unlisted(Reported());
  }

  lemma SyncsAlways(w: World, users: seq<User>)
    ensures Enabled(w, Sync(users))
  {
  }

  lemma Waits(w: World, e: Event, w': World)
    requires Reached(w) && Enabled(w, e) && !e.Answer? && w' == Apply(w, e)
    ensures Reached(w') && WaitingStep(w, w')
  {
    hide Apply, Enabled, Reached;
    Reach(w, e, w');
  }

  /**
   * A client removed while pending and listed again: by the condition above its baseline exceeds its
   * new counter, so that the bytes counted since are not reported.
   */
  lemma RelistedIsUnderReported()
    ensures Reached(Relisted())
    ensures !Baseline(Relisted().reporter.reported, 7).AtMost(TrafficOf(Relisted().audit, 7))
    ensures Increases(Relisted().audit, Relisted().reporter.reported) == map[]
    ensures TrafficOf(Relisted().audit, 7) != NoTraffic()
    ensures Enabled(Late(), Answer)
    ensures var a := AccountOf(Apply(Late(), Answer), 7); !a.baseline.AtMost(a.counter)
  {
    hide Reached, IsRun, Window, Inv;
    PauseIsWindow();
    ArrivesLate();
    ReportedReached();
    ReachedInv(Reported());
    RemovalWhilePending([Reported(), Gone(), Back(), Late()], 7);
    var w3 := Late();
    var w4 := w3.(reporter := Reporter(map[7 := Traffic(100, 0)], 2, None));
    assert map[] + FIRST.snapshot == FIRST.snapshot;
    Reach(w3, Answer, w4);
    Reach(w4, Count(7, Traffic(50, 0)), Relisted());
  }

  lemma ReachedInv(w: World)
    requires Reached(w)
    ensures Inv(w)
  {
    hide Inv;
    var run :| IsRun(run) && run[|run| - 1] == w;
    RunInv(run);
  }

  lemma Unlisted(w: World)
    requires w == Reported()
    ensures AfterSync(w, []) == w.(audit := map[], before := map[7 := NoTraffic()], tainted := {7})
  {
    SeenClient();
    assert Removed(w, []) == {7};
    assert SyncedAudit(w.audit, []) == map[];
    assert SyncedReporter(w.reporter, w.audit, []) == w.reporter;
    assert (set id | id in {7} && Pending(w.reporter, id)) == {7};
  }
}
