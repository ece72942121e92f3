/**
 * The panel's traffic reporter (`PanelSyncClient` in src/panel_sync/core.rs): it keeps what was
 * reported of each client, the next sequence number and at most one report that is not
 * acknowledged yet.
 */
module Panels {
  import opened Wrappers
  import opened TrafficAudits

  /** A report: the increase of each client, and the counters it was computed from. */
  datatype Report = Report(sequence: nat, data: map<ClientId, Traffic>, snapshot: map<ClientId, Traffic>)

  datatype Reporter = Reporter(reported: map<ClientId, Traffic>, nextSequence: nat, pending: Option<Report>)

  /** One entry of the panel's user list; an invalid client id is read as none. */
  datatype User = User(id: Option<ClientId>, enable: bool)

  datatype Error = SequenceExhausted

  function Baseline(reported: map<ClientId, Traffic>, id: ClientId): Traffic {
    if id in reported then reported[id] else NoTraffic()
  }

  function Delta(now: Traffic, before: Traffic): Traffic {
    Traffic(SaturatingSub(now.up, before.up), SaturatingSub(now.down, before.down))
  }

  predicate Grew(audit: Audit, reported: map<ClientId, Traffic>, id: ClientId) {
    id in audit && Delta(audit[id].traffic, Baseline(reported, id)) != NoTraffic()
  }

  /** The increases of some of the clients. */
  function IncreasesIn(audit: Audit, reported: map<ClientId, Traffic>, ids: set<ClientId>): map<ClientId, Traffic> {
    map id | id in ids && Grew(audit, reported, id) :: Delta(audit[id].traffic, Baseline(reported, id))
  }

  function SnapshotIn(audit: Audit, reported: map<ClientId, Traffic>, ids: set<ClientId>): map<ClientId, Traffic> {
    map id | id in ids && Grew(audit, reported, id) :: audit[id].traffic
  }

  function Increases(audit: Audit, reported: map<ClientId, Traffic>): map<ClientId, Traffic> {
    IncreasesIn(audit, reported, audit.Keys)
  }

  function Snapshot(audit: Audit, reported: map<ClientId, Traffic>): map<ClientId, Traffic> {
    SnapshotIn(audit, reported, audit.Keys)
  }

  /** Some counter is above its baseline. */
  predicate Above(now: Traffic, before: Traffic) {
    now.up > before.up || now.down > before.down
  }

  /** A report has exactly the clients with a counter above its baseline, their differences and their counters. */
  ghost predicate ReportsIncreases(report: Report, audit: Audit, reported: map<ClientId, Traffic>) {
    && (forall id :: id in report.data <==> id in audit && Above(audit[id].traffic, Baseline(reported, id)))
    && report.snapshot.Keys == report.data.Keys
    && (forall id :: id in report.data ==>
          var now, before := audit[id].traffic, Baseline(reported, id);
          && report.snapshot[id] == now
          && report.data[id].up == (if now.up > before.up then now.up - before.up else 0)
          && report.data[id].down == (if now.down > before.down then now.down - before.down else 0))
  }

  /**
   * With none pending, a report is due exactly if some listed client has a counter above its
   * baseline, and it then reports all of these; a pending report is kept as it is.
   */
  lemma DueIsReported(r: Reporter, audit: Audit)
    ensures r.pending.Some? ==> Prepared(r, audit) == Ok(r)
    ensures r.pending.None? ==>
              var due := exists id :: id in audit && Above(audit[id].traffic, Baseline(r.reported, id));
              if !due then Prepared(r, audit) == Ok(r)
              else if r.nextSequence >= U64_MAX then Prepared(r, audit) == Err(SequenceExhausted)
              else
                && Prepared(r, audit).Ok?
                && var r' := Prepared(r, audit).value;
                && r'.pending.Some? && r'.pending.value.sequence == r.nextSequence
                && r'.nextSequence == r.nextSequence + 1 && r'.reported == r.reported
                && ReportsIncreases(r'.pending.value, audit, r.reported)
  {
    var data := Increases(audit, r.reported);
    assert forall id :: id in data <==> id in audit && Above(audit[id].traffic, Baseline(r.reported, id));
    if data != map[] {
      assert data.Keys != {};
      var id :| id in data;
    }
  }

  lemma OneMoreClient(audit: Audit, reported: map<ClientId, Traffic>, ids: set<ClientId>, id: ClientId)
    requires id in audit
    ensures var now, delta := audit[id].traffic, Delta(audit[id].traffic, Baseline(reported, id));
            var data, snapshot := IncreasesIn(audit, reported, ids), SnapshotIn(audit, reported, ids);
            && IncreasesIn(audit, reported, ids + {id}) == (if delta != NoTraffic() then data[id := delta] else data)
            && SnapshotIn(audit, reported, ids + {id}) ==
                  (if delta != NoTraffic() then snapshot[id := now] else snapshot)
  {
  }

  lemma NoClients(audit: Audit, reported: map<ClientId, Traffic>)
    ensures IncreasesIn(audit, reported, {}) == map[] && SnapshotIn(audit, reported, {}) == map[]
  {
  }

  /** The reporter once it has a report to send, if there is anything to send. */
  function Prepared(r: Reporter, audit: Audit): Result<Reporter, Error> {
    if r.pending.Some? || Increases(audit, r.reported) == map[] then Ok(r)
    else if r.nextSequence >= U64_MAX then Err(SequenceExhausted)
    else
      Ok(r.(nextSequence := r.nextSequence + 1,
            pending := Some(Report(r.nextSequence, Increases(audit, r.reported), Snapshot(audit, r.reported)))))
  }

  /** The reporter after the panel has acknowledged the pending report. */
  function Acknowledged(r: Reporter): Reporter {
    if r.pending.None? then r else r.(reported := r.reported + r.pending.value.snapshot, pending := None)
  }

  function Seen(users: seq<User>): set<ClientId> {
    set u | u in users && u.id.Some? :: u.id.value
  }

  /** The audit after listing every valid user in order. */
  function ListedAll(audit: Audit, users: seq<User>): Audit {
    if users == [] then audit
    else
      var last := users[|users| - 1];
      var before := ListedAll(audit, users[..|users| - 1]);
      if last.id.Some? then Listed(before, last.id.value, last.enable) else before
  }

  function SyncedAudit(audit: Audit, users: seq<User>): Audit {
    Kept(ListedAll(audit, users), Seen(users))
  }

  function SyncedReporter(r: Reporter, audit: Audit, users: seq<User>): Reporter {
    r.(reported := r.reported - (audit.Keys - Seen(users)))
  }

  /** Listing never changes a counter, and lists exactly the users seen besides those before. */
  lemma {:induction false} ListedAllKeeps(audit: Audit, users: seq<User>)
    ensures ListedAll(audit, users).Keys == audit.Keys + Seen(users)
    ensures forall id :: TrafficOf(ListedAll(audit, users), id) == TrafficOf(audit, id)
  {
    if users != [] {
      var n := |users| - 1;
      ListedAllKeeps(audit, users[..n]);
      SeenSnoc(users[..n], users[n]);
      assert users == users[..n] + [users[n]];
    }
  }

  lemma SeenSnoc(users: seq<User>, u: User)
    ensures Seen(users + [u]) == Seen(users) + if u.id.Some? then {u.id.value} else {}
  {
    var more := users + [u];
    assert forall v :: v in more <==> v in users || v == u;
    forall id | id in Seen(more)
      ensures id in Seen(users) + if u.id.Some? then {u.id.value} else {}
    {
      var v :| v in more && v.id.Some? && v.id.value == id;
    }
    if u.id.Some? {
      assert u in more;
    }
    forall id | id in Seen(users)
      ensures id in Seen(more)
    {
      var v :| v in users && v.id.Some? && v.id.value == id;
      assert v in more;
    }
  }

  /** A user's last entry decides whether the user is enabled. */
  lemma {:induction false} LastEntryEnables(audit: Audit, users: seq<User>, id: ClientId)
    requires id in ListedAll(audit, users)
    ensures (forall i :: 0 <= i < |users| ==> users[i].id != Some(id)) ==>
              id in audit && ListedAll(audit, users)[id].enabled == audit[id].enabled
    ensures forall i :: 0 <= i < |users| && IsLast(users, i, id) ==>
              ListedAll(audit, users)[id].enabled == users[i].enable
    decreases |users|
  {
    if users != [] {
      var n := |users| - 1;
      assert users[n].id == Some(id) ==> forall i :: 0 <= i < |users| && IsLast(users, i, id) ==> i == n;
      if users[n].id != Some(id) {
        LastEntryEnables(audit, users[..n], id);
        assert forall i :: 0 <= i < n && IsLast(users, i, id) ==> IsLast(users[..n], i, id);
      }
    }
  }

  /** Entry `i` is the last one of the user. */
  ghost predicate IsLast(users: seq<User>, i: nat, id: ClientId) {
    && i < |users| && users[i].id == Some(id)
    && forall j :: i < j < |users| ==> users[j].id != Some(id)
  }

  /** A sync keeps the counters of the listed clients, enables them as listed and drops the others. */
  lemma SyncKeepsListed(audit: Audit, users: seq<User>, id: ClientId)
    ensures SyncedAudit(audit, users).Keys == Seen(users)
    ensures TrafficOf(SyncedAudit(audit, users), id) == if id in Seen(users) then TrafficOf(audit, id) else NoTraffic()
    ensures forall i :: 0 <= i < |users| && IsLast(users, i, id) ==>
              id in SyncedAudit(audit, users) && SyncedAudit(audit, users)[id].enabled == users[i].enable
  {
    ListedAllKeeps(audit, users);
    if id in Seen(users) {
      LastEntryEnables(audit, users, id);
    }
    forall i | 0 <= i < |users| && IsLast(users, i, id)
      ensures id in Seen(users)
    {
      assert users[i] in users;
    }
    assert TrafficOf(ListedAll(audit, users), id) == TrafficOf(audit, id);
  }

  class PanelSyncClient {
    var reported: map<ClientId, Traffic>
    var nextSequence: nat
    var pending: Option<Report>

    constructor ()
      ensures State() == Reporter(map[], 1, None)
    {
      reported := map[];
      nextSequence := 1;
      pending := None;
    }

    function State(): Reporter
      reads this
    {
      Reporter(reported, nextSequence, pending)
    }

    method SyncOnce(audit: TrafficAudit, users: seq<User>)
      modifies this, audit
      ensures audit.clients == SyncedAudit(old(audit.clients), users)
      ensures State() == SyncedReporter(old(State()), old(audit.clients), users)
    {
      var seen := {};
      for i := 0 to |users|
        invariant seen == Seen(users[..i])
        invariant audit.clients == ListedAll(old(audit.clients), users[..i])
        invariant State() == old(State())
      {
        assert users[..i + 1] == users[..i] + [users[i]] && users[..i + 1][..i] == users[..i];
        SeenSnoc(users[..i], users[i]);
        if users[i].id.Some? {
          seen := seen + {users[i].id.value};
          audit.SyncClient(users[i].id.value, users[i].enable);
        }
      }
      assert users[..|users|] == users;
      ListedAllKeeps(old(audit.clients), users);
      var removed := audit.RemoveMissingClients(seen);
      reported := reported - removed;
    }

    /** The loop over the counters: the increases since the baselines, and the counters themselves. */
    method Collect(audit: TrafficAudit) returns (data: map<ClientId, Traffic>, snapshot: map<ClientId, Traffic>)
      ensures data == Increases(audit.clients, reported) && snapshot == Snapshot(audit.clients, reported)
    {
      hide IncreasesIn, SnapshotIn, Delta, Baseline;
      NoClients(audit.clients, reported);
      assert audit.clients.Keys - audit.clients.Keys == {};
      data, snapshot := map[], map[];
      var left := audit.clients.Keys;
      while left != {}
        invariant left <= audit.clients.Keys
        invariant data == IncreasesIn(audit.clients, reported, audit.clients.Keys - left)
        invariant snapshot == SnapshotIn(audit.clients, reported, audit.clients.Keys - left)
        decreases |left|
      {
        var id :| id in left;
        OneMoreClient(audit.clients, reported, audit.clients.Keys - left, id);
        assert audit.clients.Keys - (left - {id}) == audit.clients.Keys - left + {id};
        left := left - {id};
        var now := audit.clients[id].traffic;
        var delta := Delta(now, Baseline(reported, id));
        if delta != NoTraffic() {
          data := data[id := delta];
          snapshot := snapshot[id := now];
        }
      }
      assert audit.clients.Keys - left == audit.clients.Keys;
    }

    /** The part of `report_traffic_once` that builds a report. */
    method Prepare(audit: TrafficAudit) returns (r: Result<Option<Report>, Error>)
      modifies this
      ensures Prepared(old(State()), audit.clients).Ok? ==>
                State() == Prepared(old(State()), audit.clients).value && r == Ok(State().pending)
      ensures Prepared(old(State()), audit.clients).Err? ==> State() == old(State()) && r == Err(SequenceExhausted)
      ensures old(pending).Some? ==> State() == old(State()) && r == Ok(old(pending))
      ensures old(pending).None? ==>
                var due := exists id ::
                  id in audit.clients && Above(audit.clients[id].traffic, Baseline(old(reported), id));
                if !due then State() == old(State()) && r == Ok(None)
                else if old(nextSequence) >= U64_MAX then State() == old(State()) && r == Err(SequenceExhausted)
                else
                  && r == Ok(pending) && pending.Some? && pending.value.sequence == old(nextSequence)
                  && nextSequence == old(nextSequence) + 1 && reported == old(reported)
                  && ReportsIncreases(pending.value, audit.clients, old(reported))
    {
      hide Increases, Snapshot, ReportsIncreases, Above, Baseline;
      DueIsReported(State(), audit.clients);
      if pending.None? {
        var data, snapshot := Collect(audit);
        if data == map[] {
          return Ok(None);
        }
        if nextSequence >= U64_MAX {
          return Err(SequenceExhausted);
        }
        pending := Some(Report(nextSequence, data, snapshot));
        nextSequence := nextSequence + 1;
      }
      return Ok(pending);
    }

    /** `report_traffic_once`; `answered` tells whether the panel's success answer arrived. */
    method ReportTrafficOnce(audit: TrafficAudit, answered: bool) returns (sent: Option<Report>, ok: bool)
      modifies this
      ensures Prepared(old(State()), audit.clients).Err? ==> State() == old(State()) && sent == None && !ok
      ensures Prepared(old(State()), audit.clients).Ok? ==>
                var prepared := Prepared(old(State()), audit.clients).value;
                && sent == prepared.pending
                && ok == (sent == None || answered)
                && State() == if answered then Acknowledged(prepared) else prepared
    {
      var r := Prepare(audit);
      if r.Err? {
        return None, false;
      }
      sent := r.value;
      if sent.None? {
        return None, true;
      }
      if !answered {
        return sent, false;
      }
      reported := reported + sent.value.snapshot;
      pending := None;
      return sent, true;
    }
  }
}
