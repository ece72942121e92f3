/**
 * Traffic counters per client (src/panel_sync/traffic_audit.rs): a map whose entries are inserted,
 * enabled, removed and increased in place, with 64-bit saturating counters.
 */
module TrafficAudits {
  type ClientId = nat

  const U64_MAX: nat := 0xFFFF_FFFF_FFFF_FFFF

  function SaturatingAdd(a: int, b: int): int {
    if a + b > U64_MAX then U64_MAX else a + b
  }

  function SaturatingSub(a: int, b: int): int {
    if a < b then 0 else a - b
  }

  /** Bytes upstream and downstream; counters hold values from 0 to `U64_MAX`. */
  datatype Traffic = Traffic(up: int, down: int) {
    predicate AtMost(other: Traffic) {
      up <= other.up && down <= other.down
    }

    function Plus(other: Traffic): Traffic {
      Traffic(up + other.up, down + other.down)
    }

    function Minus(other: Traffic): Traffic {
      Traffic(up - other.up, down - other.down)
    }
  }

  function NoTraffic(): Traffic {
    Traffic(0, 0)
  }

  datatype ClientTraffic = ClientTraffic(enabled: bool, traffic: Traffic)

  type Audit = map<ClientId, ClientTraffic>

  function TrafficOf(audit: Audit, id: ClientId): Traffic {
    if id in audit then audit[id].traffic else NoTraffic()
  }

  /** The audit after listing a client: its counters stay, or start at zero. */
  function Listed(audit: Audit, id: ClientId, enabled: bool): Audit {
    audit[id := ClientTraffic(enabled, TrafficOf(audit, id))]
  }

  function Kept(audit: Audit, seen: set<ClientId>): Audit {
    map id | id in audit && id in seen :: audit[id]
  }

  /** Bytes counted for a client; an unlisted one is not counted. */
  function Counted(audit: Audit, id: ClientId, more: Traffic): Audit {
    if id !in audit then audit
    else
      var t := audit[id].traffic;
      audit[id := audit[id].(traffic := Traffic(SaturatingAdd(t.up, more.up), SaturatingAdd(t.down, more.down)))]
  }

  predicate Counter(t: Traffic) {
    0 <= t.up <= U64_MAX && 0 <= t.down <= U64_MAX
  }

  ghost predicate InRange(audit: Audit) {
    forall id :: id in audit ==> Counter(audit[id].traffic)
  }

  /** Counting adds to the counters of the one client, up to the largest value, and changes nothing else. */
  lemma CountedRaises(audit: Audit, id: ClientId, more: Traffic, other: ClientId)
    requires InRange(audit) && NoTraffic().AtMost(more)
    ensures InRange(Counted(audit, id, more)) && Counted(audit, id, more).Keys == audit.Keys
    ensures TrafficOf(audit, other).AtMost(TrafficOf(Counted(audit, id, more), other))
    ensures other != id ==> TrafficOf(Counted(audit, id, more), other) == TrafficOf(audit, other)
    ensures id in audit ==>
              var t, t' := audit[id].traffic, Counted(audit, id, more)[id].traffic;
              && (t'.up == t.up + more.up || (t'.up == U64_MAX && t.up + more.up > U64_MAX))
              && (t'.down == t.down + more.down || (t'.down == U64_MAX && t.down + more.down > U64_MAX))
    ensures other in audit ==> Counted(audit, id, more)[other].enabled == audit[other].enabled
  {
  }

  class TrafficAudit {
    var clients: Audit

    constructor ()
      ensures clients == map[]
    {
      clients := map[];
    }

    method SyncClient(id: ClientId, enabled: bool)
      modifies this
      ensures clients == Listed(old(clients), id, enabled)
    {
      if id !in clients {
        clients := clients[id := ClientTraffic(false, NoTraffic())];
      }
      clients := clients[id := clients[id].(enabled := enabled)];
    }

    method RemoveMissingClients(seen: set<ClientId>) returns (removed: set<ClientId>)
      modifies this
      ensures removed == old(clients).Keys - seen
      ensures clients == Kept(old(clients), seen)
    {
      removed := set id | id in clients && id !in seen;
      var left := removed;
      while left != {}
        invariant left <= removed
        invariant clients == map id | id in old(clients) && (id in seen || id in left) :: old(clients)[id]
        decreases |left|
      {
        var id :| id in left;
        clients := clients - {id};
        left := left - {id};
      }
    }

    method AddUpstream(id: ClientId, bytes: nat)
      requires InRange(clients)
      modifies this
      ensures clients == Counted(old(clients), id, Traffic(bytes, 0))
    {
      if id in clients {
        var t := clients[id].traffic;
        clients := clients[id := clients[id].(traffic := t.(up := SaturatingAdd(t.up, bytes)))];
      }
    }

    method AddDownstream(id: ClientId, bytes: nat)
      requires InRange(clients)
      modifies this
      ensures clients == Counted(old(clients), id, Traffic(0, bytes))
    {
      if id in clients {
        var t := clients[id].traffic;
        clients := clients[id := clients[id].(traffic := t.(down := SaturatingAdd(t.down, bytes)))];
      }
    }
  }
}
