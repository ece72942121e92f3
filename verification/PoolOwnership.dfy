/**
 * Who owns a client session (src/client.rs with src/runtime/session.rs): over every interleaving of
 * callers, sessions, idle workers, cleanup and shutdown, each session is in at most one place:
 * held by a caller, busy with a stream, on its way to the pool, or in the pool.
 */
module PoolOwnership {
  import opened Wrappers
  import opened Pools
  import opened SessionViews

  // ---- the client ----

  /** The task that takes idle notices of one session: waiting, looking at one, or about to add. */
  datatype Worker = Waiting | Looking | Adding | Stopped

  /**
   * A session with the callers that hold it, the notices in its channel and its worker; whether a
   * caller gave it up, and whether the client has started to shut it down.
   */
  datatype Member = Member(view: View, held: nat, inbox: nat, worker: Worker, abandoned: bool, shutdown: bool)

  datatype Client = Client(members: seq<Member>, pool: seq<IdleSession>, closing: bool)

  datatype Event =
    | Connect                                       // a caller creates a session and holds it
    | Abandon(id: nat)                              // a caller gives up
    | Reserve(id: nat)                              // `reserve_stream` on a held session
    | SessionStep(id: nat, change: Change)
    | WorkerTakes(id: nat)
    | WorkerLooks(id: nat)
    | WorkerAdds(id: nat, since: int)
    | TakeIdle(alive: nat -> bool, pool: seq<IdleSession>, dropped: seq<IdleSession>, taken: Option<nat>)
    | Cleanup(expiration: int, expired: nat -> bool)
    | Close
    | DrainPool

  ghost predicate Enabled(c: Client, e: Event) {
    match e
    case Connect => true
    case Abandon(id) => id < |c.members| && c.members[id].held > 0
    case Reserve(id) => id < |c.members| && c.members[id].held > 0
    case SessionStep(id, change) =>
      id < |c.members| && change != Opened && CanChange(c.members[id].view, change)
    case WorkerTakes(id) => id < |c.members| && c.members[id].worker.Waiting? && c.members[id].inbox > 0
    case WorkerLooks(id) => id < |c.members| && c.members[id].worker.Looking?
    case WorkerAdds(id, _) => id < |c.members| && c.members[id].worker.Adding?
    case TakeIdle(alive, pool, dropped, taken) =>
      && TakesIdle(c.pool, alive, pool, dropped, taken)
      && (taken.Some? ==> taken.value < |c.members|)
    case DrainPool => c.closing
    case _ => true
  }

  /** The locked part of `reserve_stream`. */
  function AfterReserve(m: Member): Member
    requires m.held > 0
  {
    if CanChange(m.view, Opened) then m.(view := Changed(m.view, Opened), held := m.held - 1)
    else m.(held := m.held - 1)
  }

  function AfterSession(m: Member, change: Change): Member
    requires CanChange(m.view, change)
  {
    m.(view := Changed(m.view, change), inbox := m.inbox + if change == Notified then 1 else 0)
  }

  function AfterLook(m: Member, closing: bool): Member {
    if closing then m.(worker := Stopped, shutdown := true)
    else if m.view.closed || m.view.active then m.(worker := Waiting)
    else if m.view.expired then m.(worker := Waiting, shutdown := true)
    else m.(worker := Adding)
  }

  /** The worker's insertion; a session that finds the pool full is shut down. */
  function AfterInsert(m: Member, pool: seq<IdleSession>, id: nat): Member {
    m.(worker := Waiting, shutdown := m.shutdown || (id !in Ids(pool) && |pool| >= MAX_IDLE_SESSIONS))
  }

  /** The client starts to shut down the sessions it took out of the pool. */
  function ShutAll(members: seq<Member>, items: seq<IdleSession>): (members': seq<Member>)
    ensures |members'| == |members|
  {
    seq(|members|, id requires 0 <= id < |members| =>
      if id in Ids(items) then members[id].(shutdown := true) else members[id])
  }

  ghost function Apply(c: Client, e: Event): Client
    requires Enabled(c, e)
  {
    match e
    case Connect => c.(members := c.members + [Member(View(false, 0, 0, false, false), 1, 0, Waiting, false, false)])
    case Abandon(id) => Put(c, id, c.members[id].(held := c.members[id].held - 1, abandoned := true))
    case Reserve(id) => Put(c, id, AfterReserve(c.members[id]))
    case SessionStep(id, change) => Put(c, id, AfterSession(c.members[id], change))
    case WorkerTakes(id) =>
      Put(c, id, c.members[id].(worker := Looking, inbox := c.members[id].inbox - 1))
    case WorkerLooks(id) => Put(c, id, AfterLook(c.members[id], c.closing))
    case WorkerAdds(id, since) =>
      Put(c, id, AfterInsert(c.members[id], c.pool, id)).(pool := AfterAdd(c.pool, IdleSession(since, id)))
    case TakeIdle(_, pool, dropped, taken) => (
      var c' := c.(members := ShutAll(c.members, dropped), pool := pool);
      match taken
      case None => c'
      case Some(id) => Put(c', id, c'.members[id].(held := c'.members[id].held + 1)))
    case Cleanup(expiration, expired) =>
      c.(members := ShutAll(c.members, Sifted(c.pool, expiration, expired, true)),
         pool := Sifted(c.pool, expiration, expired, false))
    case Close => c.(closing := true)
    case DrainPool => c.(members := ShutAll(c.members, c.pool), pool := [])
  }

  function Put(c: Client, id: nat, m: Member): Client
    requires id < |c.members|
  {
    c.(members := c.members[id := m])
  }

  ghost predicate Step(c: Client, c': Client) {
    exists e :: Enabled(c, e) && c' == Apply(c, e)
  }

  ghost predicate IsRun(run: seq<Client>) {
    && run != []
    && run[0] == Client([], [], false)
    && forall i :: 0 < i < |run| ==> Step(run[i - 1], run[i])
  }

  // ---- one place at a time ----

  function Truth(b: bool): nat {
    if b then 1 else 0
  }

  /** How often a session is held, busy, about to notify, in transit or being added. */
  function Claims(m: Member): nat {
    m.held + Truth(m.view.active) + m.view.pending + m.inbox + Truth(m.worker.Looking? || m.worker.Adding?)
  }

  function Pooled(pool: seq<IdleSession>, id: nat): nat {
    multiset(Ids(pool))[id]
  }

  ghost predicate Owned(c: Client) {
    && (forall id :: 0 <= id < |c.members| ==> Claims(c.members[id]) + Pooled(c.pool, id) <= 1)
    && (forall x :: x in c.pool ==> x.id < |c.members|)
    && |c.pool| <= MAX_IDLE_SESSIONS
  }

  /** Steps of one member that leave the pool alone. */
  lemma PutKeepsOwned(c: Client, id: nat, m: Member)
    requires Owned(c) && id < |c.members| && Claims(m) <= Claims(c.members[id])
    ensures Owned(Put(c, id, m))
  {
    hide Claims, Pooled;
  }

  lemma ReserveClaims(m: Member)
    requires m.held > 0
    ensures Claims(AfterReserve(m)) <= Claims(m)
  {
  }

  lemma SessionClaims(m: Member, change: Change)
    requires CanChange(m.view, change) && change != Opened
    ensures Claims(AfterSession(m, change)) <= Claims(m)
  {
  }

  lemma LookClaims(m: Member, closing: bool)
    requires m.worker.Looking?
    ensures Claims(AfterLook(m, closing)) <= Claims(m)
  {
  }

  lemma NotPooled(pool: seq<IdleSession>, id: nat)
    requires forall x :: x in pool ==> x.id != id
    ensures Pooled(pool, id) == 0
  {
    assert forall i :: 0 <= i < |pool| ==> pool[i] in pool;
  }

  lemma PooledSum(a: seq<IdleSession>, b: seq<IdleSession>, id: nat)
    ensures Pooled(a + b, id) == Pooled(a, id) + Pooled(b, id)
  {
    assert Ids(a + b) == Ids(a) + Ids(b);
  }

  lemma WithoutItem(q: seq<IdleSession>, i: nat, id: nat)
    requires i < |q|
    ensures var rest := q[..i] + q[i + 1..];
            multiset(q) == multiset(rest) + multiset{q[i]} && Pooled(q, id) == Pooled(rest, id) + Truth(q[i].id == id)
  {
    hide Pooled;
    var item := q[i];
    assert q == q[..i] + [item] + q[i + 1..];
    PooledSum(q[..i], [item], id);
    PooledSum(q[..i] + [item], q[i + 1..], id);
    PooledSum(q[..i], q[i + 1..], id);
    OneItem(item);
  }

  lemma Cancel(a: multiset<IdleSession>, b: multiset<IdleSession>, item: IdleSession)
    requires a + multiset{item} == b + multiset{item}
    ensures a == b
  {
    assert a == a + multiset{item} - multiset{item};
    assert b == b + multiset{item} - multiset{item};
  }

  lemma {:induction false} SameItems(p: seq<IdleSession>, q: seq<IdleSession>, id: nat)
    requires multiset(p) == multiset(q)
    ensures Pooled(p, id) == Pooled(q, id)
    decreases |p|
  {
    hide Pooled;
    if p == [] {
      assert |q| == |multiset(q)| == 0;
    } else {
      var n := |p| - 1;
      assert p[n] in multiset(q);
      var i :| 0 <= i < |q| && q[i] == p[n];
      WithoutItem(p, n, id);
      WithoutItem(q, i, id);
      assert p[..n] + p[n + 1..] == p[..n];
      var rest := q[..i] + q[i + 1..];
      Cancel(multiset(p[..n]), multiset(rest), p[n]);
      SameItems(p[..n], rest, id);
    }
  }

  lemma ConnectKeepsOwned(c: Client)
    requires Owned(c)
    ensures Owned(Apply(c, Connect))
  {
    NotPooled(c.pool, |c.members|);
  }

  lemma AddKeepsOwned(c: Client, id: nat, since: int)
    requires Owned(c) && Enabled(c, WorkerAdds(id, since))
    ensures Owned(Apply(c, WorkerAdds(id, since)))
  {
    hide Pooled;
    var item := IdleSession(since, id);
    OneItem(item);
    var c' := Apply(c, WorkerAdds(id, since));
    forall k | 0 <= k < |c'.members|
      ensures Claims(c'.members[k]) + Pooled(c'.pool, k) <= 1
    {
      PooledSum(c.pool, [item], k);
    }
  }

  lemma OneItem(item: IdleSession)
    ensures forall id :: Pooled([item], id) == Truth(id == item.id)
  {
    assert Ids([item]) == [item.id];
  }

  lemma TakeSplits(c: Client, e: Event, k: nat)
    requires e.TakeIdle? && Enabled(c, e)
    ensures Pooled(c.pool, k)
         == Pooled(e.pool, k) + Pooled(e.dropped, k) + Truth(e.taken.Some? && e.taken.value == k)
  {
    hide Pooled, Ids;
    match e.taken
    case None =>
      SameItems(c.pool, e.dropped, k);
      NotPooled([], k);
    case Some(id) =>
      var since :| multiset(c.pool) == multiset(e.pool) + multiset(e.dropped) + multiset{IdleSession(since, id)};
      var item := IdleSession(since, id);
      SameItems(c.pool, e.pool + e.dropped + [item], k);
      PooledSum(e.pool, e.dropped, k);
      PooledSum(e.pool + e.dropped, [item], k);
      OneItem(item);
  }

  lemma TakeKeepsItems(c: Client, e: Event)
    requires e.TakeIdle? && Enabled(c, e)
    ensures |e.pool| <= |c.pool| && forall x :: x in e.pool ==> x in c.pool
  {
    if e.taken.Some? {
      var id := e.taken.value;
      var since :| multiset(c.pool) == multiset(e.pool) + multiset(e.dropped) + multiset{IdleSession(since, id)};
      assert |multiset(c.pool)| == |c.pool| && |multiset(e.pool)| == |e.pool|;
      forall x | x in e.pool
        ensures x in c.pool
      {
        assert x in multiset(c.pool);
      }
    }
  }

  lemma TakeKeepsOwned(c: Client, e: Event)
    requires Owned(c) && e.TakeIdle? && Enabled(c, e)
    ensures Owned(Apply(c, e))
  {
    hide Pooled, TakesIdle, Claims, Ids, ShutAll;
    TakeKeepsItems(c, e);
    var c' := Apply(c, e);
    forall k | 0 <= k < |c'.members|
      ensures Claims(c'.members[k]) + Pooled(c'.pool, k) <= 1
    {
      TakeSplits(c, e, k);
      TakeClaims(c, e, k);
    }
  }

  lemma TakeClaims(c: Client, e: Event, k: nat)
    requires e.TakeIdle? && Enabled(c, e) && k < |c.members|
    ensures Claims(Apply(c, e).members[k]) == Claims(c.members[k]) + Truth(e.taken.Some? && e.taken.value == k)
  {
    hide TakesIdle, Ids;
    ShutClaims(c.members, e.dropped, k);
  }

  lemma CleanupKeepsOwned(c: Client, expiration: int, expired: nat -> bool)
    requires Owned(c)
    ensures Owned(Apply(c, Cleanup(expiration, expired)))
  {
    hide Pooled, Claims, Sifted;
    var kept, dropped := Sifted(c.pool, expiration, expired, false), Sifted(c.pool, expiration, expired, true);
    CleanupPartitions(c.pool, expiration, expired);
    assert |multiset(c.pool)| == |c.pool| && |multiset(kept)| == |kept|;
    forall x | x in kept
      ensures x in c.pool
    {
      assert x in multiset(c.pool);
    }
    forall k | 0 <= k < |c.members|
      ensures Claims(ShutAll(c.members, dropped)[k]) + Pooled(kept, k) <= 1
    {
      SameItems(c.pool, kept + dropped, k);
      PooledSum(kept, dropped, k);
      ShutClaims(c.members, dropped, k);
    }
  }

  lemma ShutClaims(members: seq<Member>, items: seq<IdleSession>, k: nat)
    requires k < |members|
    ensures Claims(ShutAll(members, items)[k]) == Claims(members[k])
  {
  }

  lemma DrainKeepsOwned(c: Client)
    requires Owned(c)
    ensures Owned(c.(members := ShutAll(c.members, c.pool), pool := []))
  {
    hide Pooled, Claims;
    forall k | 0 <= k < |c.members|
      ensures Claims(ShutAll(c.members, c.pool)[k]) + Pooled([], k) <= 1
    {
      NotPooled([], k);
      ShutClaims(c.members, c.pool, k);
    }
  }

  lemma StepKeepsOwned(c: Client, c': Client)
    requires Owned(c) && Step(c, c')
    ensures Owned(c')
  {
    hide Owned, Claims, TakesIdle, Sifted, CanChange;
    var e :| Enabled(c, e) && c' == Apply(c, e);
    match e
    case Connect => ConnectKeepsOwned(c);
    case Abandon(id) =>
      FewerClaims(c.members[id]);
      PutKeepsOwned(c, id, c.members[id].(held := c.members[id].held - 1, abandoned := true));
    case Reserve(id) =>
      ReserveClaims(c.members[id]);
      PutKeepsOwned(c, id, AfterReserve(c.members[id]));
    case SessionStep(id, change) =>
      SessionClaims(c.members[id], change);
      PutKeepsOwned(c, id, AfterSession(c.members[id], change));
    case WorkerTakes(id) =>
      TakesClaims(c.members[id]);
      PutKeepsOwned(c, id, c.members[id].(worker := Looking, inbox := c.members[id].inbox - 1));
    case WorkerLooks(id) =>
      LookClaims(c.members[id], c.closing);
      PutKeepsOwned(c, id, AfterLook(c.members[id], c.closing));
    case WorkerAdds(id, since) => AddKeepsOwned(c, id, since);
    case TakeIdle(_, _, _, _) => TakeKeepsOwned(c, e);
    case Cleanup(expiration, expired) => CleanupKeepsOwned(c, expiration, expired);
    case Close => CloseKeepsOwned(c);
    case DrainPool => DrainKeepsOwned(c);
  }

  lemma FewerClaims(m: Member)
    requires m.held > 0
    ensures Claims(m.(held := m.held - 1, abandoned := true)) <= Claims(m)
  {
  }

  lemma TakesClaims(m: Member)
    requires m.worker.Waiting? && m.inbox > 0
    ensures Claims(m.(worker := Looking, inbox := m.inbox - 1)) <= Claims(m)
  {
  }

  lemma CloseKeepsOwned(c: Client)
    requires Owned(c)
    ensures Owned(c.(closing := true))
  {
    hide Claims, Pooled;
  }

  lemma {:induction false} RunOwned(run: seq<Client>)
    requires IsRun(run)
    ensures Owned(run[|run| - 1])
    decreases |run|
  {
    hide Step, Owned;
    if |run| == 1 {
      NothingOwned();
    } else {
      RunOwned(run[..|run| - 1]);
      StepKeepsOwned(run[|run| - 2], run[|run| - 1]);
    }
  }

  lemma NothingOwned()
    ensures Owned(Client([], [], false))
  {
  }

  // ---- the theorems ----

  /** In every interleaving each session is in at most one place. */
  lemma SingleOwnership(run: seq<Client>, c: Client, id: nat)
    requires IsRun(run) && c == run[|run| - 1] && id < |c.members|
    ensures var m := c.members[id];
            m.held + Truth(m.view.active) + m.view.pending + m.inbox
              + Truth(m.worker.Looking? || m.worker.Adding?) + Pooled(c.pool, id) <= 1
  {
    hide Pooled;
    RunOwned(run);
    assert Claims(c.members[id]) + Pooled(c.pool, id) <= 1;
  }

  /** A pooled session has an empty slot and no other owner; ids in the pool are distinct; at most four. */
  lemma PooledIsIdle(run: seq<Client>, c: Client)
    requires IsRun(run) && c == run[|run| - 1]
    ensures |c.pool| <= MAX_IDLE_SESSIONS
    ensures forall i :: 0 <= i < |c.pool| ==> c.pool[i].id < |c.members| && Claims(c.members[c.pool[i].id]) == 0
    ensures forall i, j :: 0 <= i < j < |c.pool| ==> c.pool[i].id != c.pool[j].id
  {
    hide Pooled, Claims;
    RunOwned(run);
    forall i | 0 <= i < |c.pool|
      ensures c.pool[i].id < |c.members| && Claims(c.members[c.pool[i].id]) == 0
    {
      assert c.pool[i] in c.pool;
      IsPooled(c.pool, i);
    }
    forall i, j | 0 <= i < j < |c.pool|
      ensures c.pool[i].id != c.pool[j].id
    {
      assert c.pool[i] in c.pool;
      PooledTwice(c.pool, i, j);
    }
  }

  lemma IsPooled(pool: seq<IdleSession>, i: nat)
    requires i < |pool|
    ensures Pooled(pool, pool[i].id) >= 1
  {
    assert Ids(pool)[i] in multiset(Ids(pool));
  }

  lemma PooledTwice(pool: seq<IdleSession>, i: nat, j: nat)
    requires i < j < |pool|
    ensures pool[i].id == pool[j].id ==> Pooled(pool, pool[i].id) >= 2
  {
    hide Pooled;
    assert pool == pool[..j] + pool[j..];
    PooledSum(pool[..j], pool[j..], pool[i].id);
    IsPooled(pool[..j], i);
    IsPooled(pool[j..], 0);
  }

  /** A caller that holds a session never finds its slot occupied: only closing or age refuses it. */
  lemma ReserveNeverBlocked(run: seq<Client>, c: Client, id: nat)
    requires IsRun(run) && c == run[|run| - 1] && Enabled(c, Reserve(id))
    ensures !c.members[id].view.active
    ensures !c.members[id].view.closed && !c.members[id].view.expired ==>
              Apply(c, Reserve(id)).members[id].view.active
  {
    hide Pooled;
    RunOwned(run);
    assert Claims(c.members[id]) + Pooled(c.pool, id) <= 1;
  }

  /** The worker's own checks for a busy slot and for a duplicate never find one. */
  lemma WorkerChecksNeverHit(run: seq<Client>, c: Client, id: nat)
    requires IsRun(run) && c == run[|run| - 1] && id < |c.members|
    requires c.members[id].worker.Looking? || c.members[id].worker.Adding?
    ensures !c.members[id].view.active && c.members[id].held == 0 && id !in Ids(c.pool)
  {
    RunOwned(run);
    assert Claims(c.members[id]) + Pooled(c.pool, id) <= 1;
  }

  // ---- no session is lost ----

  /** A session that someone gave up or shuts down, or that has closed or aged, need not be kept. */
  predicate Excused(m: Member) {
    m.abandoned || m.shutdown || m.view.closed || m.view.expired
  }

  ghost predicate Kept(c: Client) {
    forall id :: 0 <= id < |c.members| && !Excused(c.members[id]) ==> Claims(c.members[id]) + Pooled(c.pool, id) == 1
  }

  /** A step of one member that leaves the pool alone keeps its claim, or is excused. */
  lemma PutKeepsKept(c: Client, id: nat, m: Member)
    requires Kept(c) && id < |c.members|
    requires Excused(m) || (!Excused(c.members[id]) && Claims(m) == Claims(c.members[id]))
    ensures Kept(Put(c, id, m))
  {
    hide Claims, Pooled, Excused;
  }

  lemma ReserveKeepsClaim(m: Member)
    requires m.held > 0 && Claims(m) <= 1
    ensures Excused(AfterReserve(m)) || (!Excused(m) && Claims(AfterReserve(m)) == Claims(m))
  {
  }

  lemma SessionKeepsClaim(m: Member, change: Change)
    requires CanChange(m.view, change) && change != Opened
    ensures Excused(AfterSession(m, change)) || (!Excused(m) && Claims(AfterSession(m, change)) == Claims(m))
  {
  }

  lemma LookKeepsClaim(m: Member, closing: bool)
    requires m.worker.Looking? && Claims(m) <= 1
    ensures Excused(AfterLook(m, closing)) || (!Excused(m) && Claims(AfterLook(m, closing)) == Claims(m))
  {
  }

  lemma TakesKeepsClaim(m: Member)
    requires m.worker.Waiting? && m.inbox > 0
    ensures var m' := m.(worker := Looking, inbox := m.inbox - 1);
            Excused(m') || (!Excused(m) && Claims(m') == Claims(m))
  {
  }

  lemma AddKeepsKept(c: Client, id: nat, since: int)
    requires Owned(c) && Kept(c) && Enabled(c, WorkerAdds(id, since))
    ensures Kept(Apply(c, WorkerAdds(id, since)))
  {
    hide Pooled;
    var item := IdleSession(since, id);
    OneItem(item);
    AddingIsNotPooled(c, id);
    var c' := Apply(c, WorkerAdds(id, since));
    forall k | 0 <= k < |c'.members| && !Excused(c'.members[k])
      ensures Claims(c'.members[k]) + Pooled(c'.pool, k) == 1
    {
      PooledSum(c.pool, [item], k);
    }
  }

  lemma AddingIsNotPooled(c: Client, id: nat)
    requires Owned(c) && id < |c.members| && (c.members[id].worker.Looking? || c.members[id].worker.Adding?)
    ensures id !in Ids(c.pool)
  {
    assert Claims(c.members[id]) + Pooled(c.pool, id) <= 1;
  }

  /** Taking items out of the pool: a session that was not among them is where it was. */
  lemma NotDropped(items: seq<IdleSession>, k: nat)
    requires k !in Ids(items)
    ensures Pooled(items, k) == 0
  {
  }

  lemma TakeKeepsKept(c: Client, e: Event)
    requires Kept(c) && e.TakeIdle? && Enabled(c, e)
    ensures Kept(Apply(c, e))
  {
    hide Pooled, TakesIdle, Ids;
    var c' := Apply(c, e);
    forall k | 0 <= k < |c'.members| && !Excused(c'.members[k])
      ensures Claims(c'.members[k]) + Pooled(c'.pool, k) == 1
    {
      TakeSplits(c, e, k);
      TakeClaims(c, e, k);
      ShutExcuses(c.members, e.dropped, k);
      NotDropped(e.dropped, k);
    }
  }

  lemma ShutExcuses(members: seq<Member>, items: seq<IdleSession>, k: nat)
    requires k < |members|
    ensures k in Ids(items) ==> Excused(ShutAll(members, items)[k])
    ensures k !in Ids(items) ==> ShutAll(members, items)[k] == members[k]
  {
  }

  lemma CleanupKeepsKept(c: Client, expiration: int, expired: nat -> bool)
    requires Kept(c)
    ensures Kept(Apply(c, Cleanup(expiration, expired)))
  {
    hide Pooled, Claims, Sifted, Ids, Excused;
    var kept, dropped := Sifted(c.pool, expiration, expired, false), Sifted(c.pool, expiration, expired, true);
    CleanupPartitions(c.pool, expiration, expired);
    var members := ShutAll(c.members, dropped);
    forall k | 0 <= k < |members| && !Excused(members[k])
      ensures Claims(members[k]) + Pooled(kept, k) == 1
    {
      SameItems(c.pool, kept + dropped, k);
      PooledSum(kept, dropped, k);
      ShutExcuses(c.members, dropped, k);
      NotDropped(dropped, k);
    }
  }

  lemma DrainKeepsKept(c: Client)
    requires Kept(c)
    ensures Kept(c.(members := ShutAll(c.members, c.pool), pool := []))
  {
    hide Pooled, Claims, Ids, Excused;
    var members := ShutAll(c.members, c.pool);
    forall k | 0 <= k < |members| && !Excused(members[k])
      ensures Claims(members[k]) + Pooled([], k) == 1
    {
      ShutExcuses(c.members, c.pool, k);
      NotDropped(c.pool, k);
      NotPooled([], k);
    }
  }

  lemma ConnectKeepsKept(c: Client)
    requires Owned(c) && Kept(c)
    ensures Kept(Apply(c, Connect))
  {
    NotPooled(c.pool, |c.members|);
  }

  lemma StepKeepsKept(c: Client, c': Client)
    requires Owned(c) && Kept(c) && Step(c, c')
    ensures Kept(c')
  {
    hide Owned, Kept, Claims, TakesIdle, Sifted, CanChange, AfterLook, AfterReserve, AfterSession;
    var e :| Enabled(c, e) && c' == Apply(c, e);
    match e
    case Connect => ConnectKeepsKept(c);
    case Abandon(id) => PutKeepsKept(c, id, c'.members[id]);
    case Reserve(id) =>
      AtMostOne(c, id);
      ReserveKeepsClaim(c.members[id]);
      PutKeepsKept(c, id, AfterReserve(c.members[id]));
    case SessionStep(id, change) =>
      SessionKeepsClaim(c.members[id], change);
      PutKeepsKept(c, id, AfterSession(c.members[id], change));
    case WorkerTakes(id) =>
      TakesKeepsClaim(c.members[id]);
      PutKeepsKept(c, id, c.members[id].(worker := Looking, inbox := c.members[id].inbox - 1));
    case WorkerLooks(id) =>
      AtMostOne(c, id);
      LookKeepsClaim(c.members[id], c.closing);
      PutKeepsKept(c, id, AfterLook(c.members[id], c.closing));
    case WorkerAdds(id, since) => AddKeepsKept(c, id, since);
    case TakeIdle(_, _, _, _) => TakeKeepsKept(c, e);
    case Cleanup(expiration, expired) => CleanupKeepsKept(c, expiration, expired);
    case Close => CloseKeepsKept(c);
    case DrainPool => DrainKeepsKept(c);
  }

  lemma AtMostOne(c: Client, id: nat)
    requires Owned(c) && id < |c.members|
    ensures Claims(c.members[id]) <= 1
  {
    hide Pooled, Claims;
    assert Claims(c.members[id]) + Pooled(c.pool, id) <= 1;
  }

  lemma CloseKeepsKept(c: Client)
    requires Kept(c)
    ensures Kept(c.(closing := true))
  {
    hide Claims, Pooled, Excused;
  }

  lemma {:induction false} RunKept(run: seq<Client>)
    requires IsRun(run)
    ensures Kept(run[|run| - 1])
    decreases |run|
  {
    hide Step, Owned, Kept;
    if |run| == 1 {
      NothingKept();
    } else {
      RunOwned(run[..|run| - 1]);
      RunKept(run[..|run| - 1]);
      StepKeepsKept(run[|run| - 2], run[|run| - 1]);
    }
  }

  lemma NothingKept()
    ensures Kept(Client([], [], false))
  {
  }

  /**
   * No session is lost: one that is open and young, that no caller gave up and the client does not
   * shut down, is in exactly one place in every interleaving.
   */
  lemma NoSessionLost(run: seq<Client>, c: Client, id: nat)
    requires IsRun(run) && c == run[|run| - 1] && id < |c.members|
    requires var m := c.members[id]; !m.abandoned && !m.shutdown && !m.view.closed && !m.view.expired
    ensures var m := c.members[id];
            m.held + Truth(m.view.active) + m.view.pending + m.inbox
              + Truth(m.worker.Looking? || m.worker.Adding?) + Pooled(c.pool, id) == 1
  {
    hide Pooled;
    RunKept(run);
    assert Claims(c.members[id]) + Pooled(c.pool, id) == 1;
  }

  /** A running client's worker that looks at an open, young session always goes on to add it. */
  lemma LookLeadsToAdding(run: seq<Client>, c: Client, id: nat)
    requires IsRun(run) && c == run[|run| - 1] && Enabled(c, WorkerLooks(id))
    requires !c.closing && !c.members[id].view.closed && !c.members[id].view.expired
    ensures Apply(c, WorkerLooks(id)).members[id] == c.members[id].(worker := Adding)
  {
    hide Owned, Claims;
    RunOwned(run);
    AtMostOne(c, id);
    WorkerChecksNeverHit(run, c, id);
  }

  /** With fewer than four sessions in the pool it adds the session; with four it shuts it down. */
  lemma AddedOrShutDown(run: seq<Client>, c: Client, id: nat, since: int)
    requires IsRun(run) && c == run[|run| - 1] && Enabled(c, WorkerAdds(id, since))
    ensures var c' := Apply(c, WorkerAdds(id, since));
            if |c.pool| < 4 then
              c'.pool == c.pool + [IdleSession(since, id)] && id in Ids(c'.pool)
              && c'.members[id].shutdown == c.members[id].shutdown
            else c'.pool == c.pool && c'.members[id].shutdown
  {
    RunOwned(run);
    AddingIsNotPooled(c, id);
    var c' := Apply(c, WorkerAdds(id, since));
    if |c.pool| < 4 {
      assert Ids(c'.pool)[|c.pool|] == id;
    }
  }

  /** A session taken from the pool is the one of smallest id that is alive, and its caller alone has it. */
  lemma TakenIsHeld(run: seq<Client>, c: Client, e: Event)
    requires IsRun(run) && c == run[|run| - 1] && e.TakeIdle? && Enabled(c, e) && e.taken.Some?
    ensures e.taken.value in Ids(c.pool) && e.alive(e.taken.value)
    ensures forall x :: x in c.pool && e.alive(x.id) ==> e.taken.value <= x.id
    ensures var c', id := Apply(c, e), e.taken.value;
            c'.members[id].held == 1 && Claims(c'.members[id]) == 1 && id !in Ids(c'.pool)
  {
    hide Pooled, Claims, Ids;
    var id := e.taken.value;
    var c' := Apply(c, e);
    RunOwned(run);
    TakeKeepsOwned(c, e);
    TakeSplits(c, e, id);
    IsInPool(c.pool, id);
    assert Claims(c'.members[id]) + Pooled(c'.pool, id) <= 1;
    HeldAlone(c'.members[id]);
    IsInPool(c'.pool, id);
    forall x | x in c.pool && e.alive(x.id)
      ensures id <= x.id
    {
      assert x in multiset(c.pool);
    }
  }

  lemma IsInPool(pool: seq<IdleSession>, id: nat)
    ensures id in Ids(pool) <==> Pooled(pool, id) > 0
  {
  }

  lemma HeldAlone(m: Member)
    requires Claims(m) <= 1 && m.held > 0
    ensures m.held == 1 && Claims(m) == 1
  {
  }
}
