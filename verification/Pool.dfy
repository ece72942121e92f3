/**
 * The idle pool of a client (src/client.rs): a vector of sessions that is pushed to, searched with
 * `swap_remove` and filtered under one lock.
 */
module Pools {
  import opened Wrappers

  const MAX_IDLE_SESSIONS: nat := 4

  /** A pooled session: its sequence number and since when it has been idle. */
  datatype IdleSession = IdleSession(since: int, id: nat)

  function Ids(pool: seq<IdleSession>): (ids: seq<nat>)
    ensures |ids| == |pool| && forall i :: 0 <= i < |ids| ==> ids[i] == pool[i].id
  {
    seq(|pool|, i requires 0 <= i < |pool| => pool[i].id)
  }

  /**
   * What `take_idle` must do. `alive` tells of each session whether it is found neither closed nor
   * expired when it is looked at. The result is a live session of smallest id; exactly it and the
   * dead sessions with smaller ids leave the pool.
   */
  ghost predicate TakesIdle(
      pool: seq<IdleSession>, alive: nat -> bool, pool': seq<IdleSession>, dropped: seq<IdleSession>, r: Option<nat>)
  {
    && (forall x :: x in dropped ==> !alive(x.id))
    && match r
       case None => pool' == [] && multiset(pool) == multiset(dropped)
       case Some(id) =>
         && alive(id)
         && (exists since :: multiset(pool) == multiset(pool') + multiset(dropped) + multiset{IdleSession(since, id)})
         && (forall x :: x in pool' ==> id <= x.id)
         && (forall x :: x in dropped ==> x.id < id)
  }

  /** The sessions that `cleanup` keeps (`stale` false) or shuts down (`stale` true), in order. */
  function Sifted(pool: seq<IdleSession>, expiration: int, expired: nat -> bool, stale: bool): seq<IdleSession> {
    if pool == [] then []
    else
      var last := pool[|pool| - 1];
      Sifted(pool[..|pool| - 1], expiration, expired, stale)
      + if (last.since < expiration || expired(last.id)) == stale then [last] else []
  }

  /** Nothing is lost or kept twice, and what is kept is what is neither stale nor expired. */
  lemma {:induction false} CleanupPartitions(pool: seq<IdleSession>, expiration: int, expired: nat -> bool)
    ensures var kept, dropped := Sifted(pool, expiration, expired, false), Sifted(pool, expiration, expired, true);
            multiset(pool) == multiset(kept) + multiset(dropped)
    ensures forall x :: x in Sifted(pool, expiration, expired, false) ==> x.since >= expiration && !expired(x.id)
    ensures forall x :: x in Sifted(pool, expiration, expired, true) ==> x.since < expiration || expired(x.id)
  {
    if pool != [] {
      var n := |pool| - 1;
      assert pool == pool[..n] + [pool[n]];
      CleanupPartitions(pool[..n], expiration, expired);
    }
  }

  /** What is kept, and what is dropped, stays in the order of the pool. */
  lemma {:induction false} SiftedInOrder(pool: seq<IdleSession>, expiration: int, expired: nat -> bool, stale: bool)
    returns (at: seq<nat>)
    ensures var sifted := Sifted(pool, expiration, expired, stale);
            && |at| == |sifted|
            && (forall i :: 0 <= i < |at| ==> at[i] < |pool| && sifted[i] == pool[at[i]])
            && (forall i, j :: 0 <= i < j < |at| ==> at[i] < at[j])
    decreases |pool|
  {
    if pool == [] {
      at := [];
    } else {
      var n := |pool| - 1;
      at := SiftedInOrder(pool[..n], expiration, expired, stale);
      if (pool[n].since < expiration || expired(pool[n].id)) == stale {
        at := at + [n];
      }
    }
  }

  /** `swap_remove`: the last item takes the place of the removed one. */
  function SwapRemove(pool: seq<IdleSession>, i: nat): (rest: seq<IdleSession>)
    requires i < |pool|
    ensures |rest| == |pool| - 1
  {
    pool[i := pool[|pool| - 1]][..|pool| - 1]
  }

  lemma SwapRemoveRemoves(pool: seq<IdleSession>, i: nat)
    requires i < |pool|
    ensures multiset(pool) == multiset(SwapRemove(pool, i)) + multiset{pool[i]}
  {
    var last := |pool| - 1;
    assert pool == pool[..last] + [pool[last]];
    if i < last {
      assert SwapRemove(pool, i) == pool[..last][i := pool[last]];
    } else {
      assert SwapRemove(pool, i) == pool[..last];
    }
  }

  class IdlePool {
    var idle: seq<IdleSession>

    constructor ()
      ensures idle == []
    {
      idle := [];
    }

    /** `min_by_key`: the first index of a smallest id, if there is any. */
    method MinIndex() returns (r: Option<nat>)
      ensures r.None? <==> idle == []
      ensures r.Some? ==> r.value < |idle| && forall i :: 0 <= i < |idle| ==> idle[r.value].id <= idle[i].id
    {
      if idle == [] {
        return None;
      }
      var best := 0;
      for i := 1 to |idle|
        invariant best < i
        invariant forall j :: 0 <= j < i ==> idle[best].id <= idle[j].id
      {
        if idle[i].id < idle[best].id {
          best := i;
        }
      }
      return Some(best);
    }

    method TakeIdle(alive: nat -> bool) returns (r: Option<nat>, dropped: seq<IdleSession>)
      modifies this
      ensures TakesIdle(old(idle), alive, idle, dropped, r)
    {
      hide Taking, TakesIdle;
      dropped := [];
      assert Taking(idle, alive, idle, []) by { NothingTaken(idle, alive); }
      while true
        invariant Taking(old(idle), alive, idle, dropped)
        decreases |idle|
      {
        var index := MinIndex();
        if index.None? {
          TakesNone(old(idle), alive, dropped);
          return None, dropped;
        }
        var item := idle[index.value];
        TakesItem(old(idle), alive, idle, dropped, index.value);
        idle := SwapRemove(idle, index.value);
        if alive(item.id) {
          return Some(item.id), dropped;
        }
        dropped := dropped + [item];
      }
    }

    /** The worker's insertion: once per session, and at most four; an excess session is shut down. */
    method Add(item: IdleSession) returns (excess: bool)
      modifies this
      ensures idle == AfterAdd(old(idle), item)
      ensures item.id !in Ids(old(idle)) && |old(idle)| < 4 ==> idle == old(idle) + [item]
      ensures item.id in Ids(old(idle)) || |old(idle)| >= 4 ==> idle == old(idle)
      ensures excess <==> item.id !in Ids(old(idle)) && |old(idle)| >= MAX_IDLE_SESSIONS
    {
      var present := false;
      for i := 0 to |idle|
        invariant idle == old(idle)
        invariant present <==> exists j :: 0 <= j < i && idle[j].id == item.id
      {
        if idle[i].id == item.id {
          present := true;
        }
      }
      assert present <==> item.id in Ids(idle) by {
        if item.id in Ids(idle) {
          var j :| 0 <= j < |idle| && Ids(idle)[j] == item.id;
          assert idle[j].id == item.id;
        }
        if present {
          var j :| 0 <= j < |idle| && idle[j].id == item.id;
          assert Ids(idle)[j] == item.id;
        }
      }
      excess := false;
      if !present {
        if |idle| < MAX_IDLE_SESSIONS {
          idle := idle + [item];
        } else {
          excess := true;
        }
      }
    }

    method Cleanup(expiration: int, expired: nat -> bool) returns (dropped: seq<IdleSession>)
      modifies this
      ensures idle == Sifted(old(idle), expiration, expired, false)
      ensures dropped == Sifted(old(idle), expiration, expired, true)
    {
      var items := idle;
      var retained := [];
      dropped := [];
      for i := 0 to |items|
        invariant retained == Sifted(items[..i], expiration, expired, false)
        invariant dropped == Sifted(items[..i], expiration, expired, true)
      {
        assert items[..i + 1][..i] == items[..i];
        if items[i].since < expiration || expired(items[i].id) {
          dropped := dropped + [items[i]];
        } else {
          retained := retained + [items[i]];
        }
      }
      assert items[..|items|] == items;
      idle := retained;
    }
  }

  function AfterAdd(pool: seq<IdleSession>, item: IdleSession): seq<IdleSession> {
    if item.id !in Ids(pool) && |pool| < MAX_IDLE_SESSIONS then pool + [item] else pool
  }

  // ---- the loop of `take_idle` ----

  /** What was there is there or was dropped, and what was dropped is dead and no larger. */
  ghost predicate Taking(
      pool: seq<IdleSession>, alive: nat -> bool, idle: seq<IdleSession>, dropped: seq<IdleSession>)
  {
    && multiset(pool) == multiset(idle) + multiset(dropped)
    && (forall x :: x in dropped ==> !alive(x.id))
    && (forall x, y :: x in dropped && y in idle ==> x.id <= y.id)
  }

  lemma NothingTaken(pool: seq<IdleSession>, alive: nat -> bool)
    ensures Taking(pool, alive, pool, [])
  {
    assert multiset(pool) == multiset(pool) + multiset([]);
  }

  lemma TakesNone(pool: seq<IdleSession>, alive: nat -> bool, dropped: seq<IdleSession>)
    requires Taking(pool, alive, [], dropped)
    ensures TakesIdle(pool, alive, [], dropped, None)
  {
  }

  /** Removing an item of smallest id either ends the search or goes on with it. */
  lemma TakesItem(pool: seq<IdleSession>, alive: nat -> bool, idle: seq<IdleSession>, dropped: seq<IdleSession>, i: nat)
    requires Taking(pool, alive, idle, dropped) && i < |idle|
    requires forall j :: 0 <= j < |idle| ==> idle[i].id <= idle[j].id
    ensures alive(idle[i].id) ==> TakesIdle(pool, alive, SwapRemove(idle, i), dropped, Some(idle[i].id))
    ensures !alive(idle[i].id) ==> Taking(pool, alive, SwapRemove(idle, i), dropped + [idle[i]])
  {
    hide SwapRemove;
    var item, rest := idle[i], SwapRemove(idle, i);
    SwapRemoveRemoves(idle, i);
    ItemsStay(idle, rest, item);
    assert multiset(dropped + [item]) == multiset(dropped) + multiset{item};
    if alive(item.id) {
      assert multiset(pool) == multiset(rest) + multiset(dropped) + multiset{IdleSession(item.since, item.id)};
    }
  }

  lemma ItemsStay(before: seq<IdleSession>, rest: seq<IdleSession>, item: IdleSession)
    requires multiset(before) == multiset(rest) + multiset{item}
    ensures item in before && forall y :: y in rest ==> y in before
  {
    assert item in multiset(before);
    forall y | y in rest
      ensures y in before
    {
      assert y in multiset(before);
    }
  }
}
