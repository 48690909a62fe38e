/**
 The vCenter connection pool.  Each section under the lock is one event; connecting happens outside the
 lock, so any number of threads can be between the failed search and the insertion of their connection.
 A connection is named by its index in the list of all connections ever created.
*/
module ConnectionPool {
  import opened Prelude

  datatype Conn = Conn(createdAt: real, lastUsedAt: real, useCount: nat)

  datatype Config = Config(maxPoolSize: int, sessionTtl: real)

  /** `returned` is the history of what `acquire` handed out; `ejecting` are connections taken out of the
      pool by `_eject` and not yet disconnected; `creating` counts threads that are connecting. */
  datatype State = State(
    conns: seq<Conn>, pool: seq<nat>, disconnected: set<nat>, ejecting: multiset<nat>, creating: nat,
    created: nat, reused: nat, reconnected: nat, returned: seq<nat>)

  datatype Event =
    | HealthCheck(dead: set<nat>)
    | Find(now: real)
    | Connected(t0: real)
    | ConnectFailed
    | Eject(conn: nat)
    | EjectDisconnect(conn: nat)
    | DisconnectAll

  const EMPTY := State([], [], {}, multiset{}, 0, 0, 0, 0, [])

  /** The elements of `s` that are not in `gone`, in order. */
  function Keep(s: seq<nat>, gone: set<nat>): seq<nat> {
    if s == [] then []
    else Keep(s[..|s| - 1], gone) + if s[|s| - 1] in gone then [] else [s[|s| - 1]]
  }

  /** Every id in `ids` names one of `n` connections. */
  ghost predicate InRange(ids: seq<nat>, n: nat) {
    forall k :: 0 <= k < |ids| ==> ids[k] < n
  }

  ghost predicate Known(s: State) {
    InRange(s.pool, |s.conns|)
  }

  predicate Expired(cfg: Config, c: Conn, now: real) {
    now - c.createdAt > cfg.sessionTtl
  }

  ghost function ExpiredIn(cfg: Config, conns: seq<Conn>, pool: seq<nat>, now: real): set<nat>
    requires InRange(pool, |conns|)
  {
    set id | id in pool && Expired(cfg, conns[id], now)
  }

  function DeadIn(pool: seq<nat>, dead: set<nat>): set<nat> {
    set id | id in pool && id in dead
  }

  /** The index of the first connection with the least use count among the first `n` of `ids`. */
  function LeastUsedAt(conns: seq<Conn>, ids: seq<nat>, n: nat): (j: nat)
    requires 1 <= n <= |ids| && InRange(ids, |conns|)
    ensures j < n && forall k :: 0 <= k < n ==> conns[ids[j]].useCount <= conns[ids[k]].useCount
    ensures forall k :: 0 <= k < j ==> conns[ids[j]].useCount < conns[ids[k]].useCount
  {
    if n == 1 then 0 else
    var j := LeastUsedAt(conns, ids, n - 1);
    if conns[ids[n - 1]].useCount < conns[ids[j]].useCount then n - 1 else j
  }

  /** The first connection with the least use count. */
  ghost function LeastUsed(conns: seq<Conn>, ids: seq<nat>): (r: nat)
    requires ids != [] && InRange(ids, |conns|)
    ensures r in ids && forall k :: 0 <= k < |ids| ==> conns[r].useCount <= conns[ids[k]].useCount
  {
    ids[LeastUsedAt(conns, ids, |ids|)]
  }

  ghost function StepFind(cfg: Config, s: State, now: real): State
    requires Known(s)
  {
    var gone := ExpiredIn(cfg, s.conns, s.pool, now);
    var survivors := Keep(s.pool, gone);
    var purged := s.(pool := survivors, disconnected := s.disconnected + gone);
    if survivors == [] then purged.(creating := s.creating + 1) else
    KeepRange(s.pool, gone, |s.conns|);
    var best := LeastUsed(s.conns, survivors);
    purged.(conns := Used(s.conns, best, now), reused := s.reused + 1, returned := s.returned + [best])
  }

  function Used(conns: seq<Conn>, id: nat, now: real): seq<Conn>
    requires id < |conns|
  {
    conns[id := conns[id].(useCount := conns[id].useCount + 1, lastUsedAt := now)]
  }

  /** `StepFind` told by what the search leaves behind. */
  lemma FindOutcome(cfg: Config, s: State, now: real, pool: seq<nat>, disconnected: set<nat>, healthy: Option<nat>)
    requires Known(s)
    requires var gone := ExpiredIn(cfg, s.conns, s.pool, now);
             pool == Keep(s.pool, gone) && disconnected == s.disconnected + gone
    requires InRange(pool, |s.conns|)
    requires healthy == if pool == [] then None else Some(LeastUsed(s.conns, pool))
    ensures healthy.None? <==> pool == []
    ensures healthy.Some? ==> healthy.value < |s.conns|
    ensures StepFind(cfg, s, now) ==
            if healthy.None? then s.(pool := pool, disconnected := disconnected, creating := s.creating + 1)
            else s.(pool := pool, disconnected := disconnected, conns := Used(s.conns, healthy.value, now),
                    reused := s.reused + 1, returned := s.returned + [healthy.value])
  {
  }

  function StepConnected(cfg: Config, s: State, t0: real): State
    requires s.creating > 0
  {
    var id := |s.conns|;
    s.(conns := s.conns + [Conn(t0, t0, 1)],
       pool := if |s.pool| < cfg.maxPoolSize then s.pool + [id] else s.pool,
       creating := s.creating - 1, created := s.created + 1, returned := s.returned + [id])
  }

  ghost function Step(cfg: Config, s: State, ev: Event): Option<State>
    requires Known(s)
  {
    match ev
    case HealthCheck(dead) =>
      var gone := DeadIn(s.pool, dead);
      Some(s.(pool := Keep(s.pool, gone), disconnected := s.disconnected + gone,
              reconnected := s.reconnected + |gone|))
    case Find(now) => Some(StepFind(cfg, s, now))
    case Connected(t0) => if s.creating > 0 then Some(StepConnected(cfg, s, t0)) else None
    case ConnectFailed => if s.creating > 0 then Some(s.(creating := s.creating - 1)) else None
    case Eject(id) =>
      if id in s.returned
      then Some(s.(pool := Keep(s.pool, {id}), ejecting := s.ejecting + multiset{id}))
      else None
    case EjectDisconnect(id) =>
      if id in s.ejecting
      then Some(s.(disconnected := s.disconnected + {id}, ejecting := s.ejecting - multiset{id}))
      else None
    case DisconnectAll =>
      Some(s.(pool := [], disconnected := s.disconnected + set id | id in s.pool))
  }

  /** The state after `evs`, or None when some event could not happen where it stands.  In every thread
      interleaving the pool is bounded, has no duplicate, holds no connection it has disconnected or is about
      to, and the connections handed out are exactly the reused and the created ones. */
  ghost function Run(cfg: Config, evs: seq<Event>): (r: Option<State>)
    ensures r.Some? ==> Inv(cfg, r.value)
  {
    if evs == [] then Some(EMPTY) else
    match Run(cfg, evs[..|evs| - 1])
    case None => None
    case Some(s) =>
      var next := Step(cfg, s, evs[|evs| - 1]);
      if next.Some? then StepKeepsInv(cfg, s, evs[|evs| - 1]); next else None
  }

  // ---------------------------------------------------------------------
  // What every thread interleaving keeps
  // ---------------------------------------------------------------------

  predicate Distinct(s: seq<nat>) {
    forall i, j :: 0 <= i < j < |s| ==> s[i] != s[j]
  }

  /** What holds of the pool itself whenever the lock is free. */
  ghost predicate PoolInv(max: int, n: nat, pool: seq<nat>, disconnected: set<nat>, ejecting: multiset<nat>) {
    && InRange(pool, n) && Distinct(pool)
    && |pool| <= (if max < 0 then 0 else max)
    && (forall id :: id in pool ==> id !in disconnected && id !in ejecting)
    && (forall id :: id in disconnected || id in ejecting ==> id < n)
  }

  ghost predicate Inv(cfg: Config, s: State) {
    && PoolInv(cfg.maxPoolSize, |s.conns|, s.pool, s.disconnected, s.ejecting)
    && s.created == |s.conns|
    && s.created + s.reused == |s.returned|
    && UsesMatch(s.conns, s.returned)
  }

  /** Use counts are exactly how often each connection was handed out. */
  ghost predicate UsesMatch(conns: seq<Conn>, returned: seq<nat>) {
    && InRange(returned, |conns|)
    && (forall id :: 0 <= id < |conns| ==> conns[id].useCount == multiset(returned)[id])
  }

  lemma {:induction false} KeepMembers(s: seq<nat>, gone: set<nat>)
    ensures forall id :: id in Keep(s, gone) <==> id in s && id !in gone
    ensures |Keep(s, gone)| <= |s|
  {
    if s != [] {
      var k := |s| - 1;
      KeepMembers(s[..k], gone);
      assert s == s[..k] + [s[k]];
    }
  }

  lemma {:induction false} KeepDistinct(s: seq<nat>, gone: set<nat>)
    requires Distinct(s)
    ensures Distinct(Keep(s, gone))
  {
    if s != [] {
      var k := |s| - 1;
      KeepDistinct(s[..k], gone);
      KeepMembers(s[..k], gone);
      var kept := Keep(s[..k], gone);
      assert forall i :: 0 <= i < |kept| ==> kept[i] in kept;
    }
  }

  lemma {:induction false} KeepRange(s: seq<nat>, gone: set<nat>, n: nat)
    requires InRange(s, n)
    ensures InRange(Keep(s, gone), n)
  {
    if s != [] {
      KeepRange(s[..|s| - 1], gone, n);
    }
  }

  lemma PoolShrinks(max: int, n: nat, pool: seq<nat>, disconnected: set<nat>, ejecting: multiset<nat>,
                    gone: set<nat>, cut: set<nat>, out: multiset<nat>)
    requires PoolInv(max, n, pool, disconnected, ejecting)
    requires cut <= gone && forall id :: id in out ==> id in gone
    requires forall id :: id in gone ==> id < n
    ensures PoolInv(max, n, Keep(pool, gone), disconnected + cut, ejecting + out)
  {
    KeepMembers(pool, gone);
    KeepDistinct(pool, gone);
    KeepRange(pool, gone, n);
  }

  lemma UsesAfterReuse(conns: seq<Conn>, returned: seq<nat>, id: nat, now: real)
    requires UsesMatch(conns, returned) && id < |conns|
    ensures UsesMatch(Used(conns, id, now), returned + [id])
  {
  }

  lemma UsesAfterCreate(conns: seq<Conn>, returned: seq<nat>, t0: real)
    requires UsesMatch(conns, returned)
    ensures UsesMatch(conns + [Conn(t0, t0, 1)], returned + [|conns|])
  {
    assert |conns| !in returned;
    assert multiset(returned)[|conns|] == 0;
  }

  lemma FindKeepsInv(cfg: Config, s: State, now: real)
    requires Inv(cfg, s)
    ensures Inv(cfg, StepFind(cfg, s, now))
  {
    var gone := ExpiredIn(cfg, s.conns, s.pool, now);
    PoolShrinks(cfg.maxPoolSize, |s.conns|, s.pool, s.disconnected, s.ejecting, gone, gone, multiset{});
    assert s.ejecting + multiset{} == s.ejecting;
    if Keep(s.pool, gone) != [] {
      KeepRange(s.pool, gone, |s.conns|);
      UsesAfterReuse(s.conns, s.returned, LeastUsed(s.conns, Keep(s.pool, gone)), now);
    }
  }

  lemma ConnectedKeepsInv(cfg: Config, s: State, t0: real)
    requires Inv(cfg, s) && s.creating > 0
    ensures Inv(cfg, StepConnected(cfg, s, t0))
  {
    UsesAfterCreate(s.conns, s.returned, t0);
  }

  lemma HealthCheckKeepsInv(cfg: Config, s: State, dead: set<nat>)
    requires Inv(cfg, s)
    ensures Inv(cfg, Step(cfg, s, HealthCheck(dead)).value)
  {
    var gone := DeadIn(s.pool, dead);
    PoolShrinks(cfg.maxPoolSize, |s.conns|, s.pool, s.disconnected, s.ejecting, gone, gone, multiset{});
    assert s.ejecting + multiset{} == s.ejecting;
  }

  /** Exactly the pooled connections that answer stay; every other one is disconnected. */
  lemma HealthByAnswer(cfg: Config, s: State, dead: set<nat>)
    requires Known(s)
    ensures var t := Step(cfg, s, HealthCheck(dead)).value;
            && (forall id :: id in t.pool <==> id in s.pool && id !in dead)
            && (forall id :: id in t.disconnected <==> id in s.disconnected || (id in s.pool && id in dead))
  {
    KeepMembers(s.pool, DeadIn(s.pool, dead));
  }

  lemma EjectTakesOut(cfg: Config, s: State, id: nat)
    requires Known(s) && id in s.returned
    ensures forall other :: other in Step(cfg, s, Eject(id)).value.pool <==> other in s.pool && other != id
  {
    KeepMembers(s.pool, {id});
  }

  lemma EjectKeepsInv(cfg: Config, s: State, id: nat)
    requires Inv(cfg, s) && id in s.returned
    ensures Inv(cfg, Step(cfg, s, Eject(id)).value)
  {
    PoolShrinks(cfg.maxPoolSize, |s.conns|, s.pool, s.disconnected, s.ejecting, {id}, {}, multiset{id});
    assert s.disconnected + {} == s.disconnected;
  }

  lemma StepKeepsInv(cfg: Config, s: State, ev: Event)
    requires Inv(cfg, s) && Step(cfg, s, ev).Some?
    ensures Inv(cfg, Step(cfg, s, ev).value)
  {
    match ev {
      case HealthCheck(dead) => HealthCheckKeepsInv(cfg, s, dead);
      case Find(now) => FindKeepsInv(cfg, s, now);
      case Connected(t0) => ConnectedKeepsInv(cfg, s, t0);
      case ConnectFailed =>
      case Eject(id) => EjectKeepsInv(cfg, s, id);
      case EjectDisconnect(id) =>
      case DisconnectAll =>
    }
  }

  /** A reused connection is within its session lifetime, still pooled, not disconnected, and no pooled
      connection was used less; a new one is created only when every pooled connection has expired. */
  lemma ReuseIsFreshAndLeastUsed(cfg: Config, s: State, now: real)
    requires Inv(cfg, s)
    ensures var t := StepFind(cfg, s, now);
            if t.creating == s.creating then
              && |t.returned| == |s.returned| + 1
              && var id := t.returned[|s.returned|];
              && id in s.pool && id in t.pool && id !in t.disconnected
              && now - s.conns[id].createdAt <= cfg.sessionTtl
              && (forall other :: other in s.pool && !Expired(cfg, s.conns[other], now) ==>
                    s.conns[id].useCount <= s.conns[other].useCount)
            else
              && t.creating == s.creating + 1 && t.returned == s.returned && t.pool == []
              && forall id :: id in s.pool ==> Expired(cfg, s.conns[id], now)
  {
    var gone := ExpiredIn(cfg, s.conns, s.pool, now);
    KeepMembers(s.pool, gone);
    KeepRange(s.pool, gone, |s.conns|);
    FindKeepsInv(cfg, s, now);
  }

  lemma FindGrowth(cfg: Config, s: State, now: real)
    requires Inv(cfg, s)
    ensures var t := StepFind(cfg, s, now);
            |t.pool| <= |s.pool| && (t.creating == s.creating || (t.creating == s.creating + 1 && t.pool == []))
  {
    KeepMembers(s.pool, ExpiredIn(cfg, s.conns, s.pool, now));
  }

  /** Exactly the connections no older than the session lifetime stay; every older one is disconnected. */
  ghost predicate PurgedByAge(
    cfg: Config, conns: seq<Conn>, before: seq<nat>, after: seq<nat>, gone: set<nat>, gone': set<nat>, now: real)
    requires InRange(before, |conns|)
  {
    && (forall id :: id in after <==> id in before && now - conns[id].createdAt <= cfg.sessionTtl)
    && (forall id :: id in gone' <==> id in gone || (id in before && now - conns[id].createdAt > cfg.sessionTtl))
  }

  lemma PurgeIsByAge(cfg: Config, conns: seq<Conn>, pool: seq<nat>, gone: set<nat>, now: real)
    requires InRange(pool, |conns|)
    ensures var expired := ExpiredIn(cfg, conns, pool, now);
            PurgedByAge(cfg, conns, pool, Keep(pool, expired), gone, gone + expired, now)
  {
    KeepMembers(pool, ExpiredIn(cfg, conns, pool, now));
  }

  /** If no more than `c` threads are ever connecting at once, the pool and the connections under way never
      exceed `c` together.  With `c` = 1 a sequential run never pools more than one connection. */
  lemma {:induction false} PoolBoundedByConcurrency(cfg: Config, evs: seq<Event>, c: nat)
    requires Run(cfg, evs).Some?
    requires forall k :: 0 <= k <= |evs| && Run(cfg, evs[..k]).Some? ==> Run(cfg, evs[..k]).value.creating <= c
    ensures |Run(cfg, evs).value.pool| + Run(cfg, evs).value.creating <= c
  {
    WholePrefix(evs);
    if evs != [] {
      var n := |evs| - 1;
      forall k | 0 <= k <= n
        ensures evs[..n][..k] == evs[..k]
      {
      }
      PoolBoundedByConcurrency(cfg, evs[..n], c);
      var s := Run(cfg, evs[..n]).value;
      match evs[n] {
        case Find(now) => FindGrowth(cfg, s, now);
        case HealthCheck(dead) => KeepMembers(s.pool, DeadIn(s.pool, dead));
        case Eject(id) => KeepMembers(s.pool, {id});
        case _ =>
      }
    }
  }

  // ---------------------------------------------------------------------
  // The pool as code: one method per section under the lock
  // ---------------------------------------------------------------------

  class VMwareConnectionPool {
    const cfg: Config
    var conns: seq<Conn>
    var pool: seq<nat>
    var disconnected: set<nat>
    ghost var ejecting: multiset<nat>
    var creating: nat
    var created: nat
    var reused: nat
    var reconnected: nat
    ghost var returned: seq<nat>

    ghost function View(): State
      reads this
    {
      State(conns, pool, disconnected, ejecting, creating, created, reused, reconnected, returned)
    }

    ghost predicate Valid()
      reads this
    {
      Inv(cfg, View())
    }

    constructor (cfg: Config)
      ensures this.cfg == cfg && Valid() && View() == EMPTY
    {
      this.cfg := cfg;
      conns, pool, disconnected, creating := [], [], {}, 0;
      created, reused, reconnected := 0, 0, 0;
      ejecting, returned := multiset{}, [];
    }

    /** The expiry loop of `_find_healthy`. */
    method PurgeExpired(now: real)
      requires InRange(pool, |conns|)
      modifies this`pool, this`disconnected
      ensures var gone := ExpiredIn(cfg, conns, old(pool), now);
              pool == Keep(old(pool), gone) && disconnected == old(disconnected) + gone
    {
      ghost var gone := ExpiredIn(cfg, conns, pool, now);
      var survivors: seq<nat> := [];
      var i := 0;
      while i < |pool|
        invariant 0 <= i <= |pool| && pool == old(pool)
        invariant survivors == Keep(pool[..i], gone)
        invariant disconnected == old(disconnected) + set id | id in pool[..i] && id in gone
      {
        var pc := pool[i];
        NextPrefix(pool, i);
        if Expired(cfg, conns[pc], now) {
          disconnected := disconnected + {pc};
        } else {
          survivors := survivors + [pc];
        }
        i := i + 1;
      }
      WholePrefix(pool);
      pool := survivors;
    }

    /** `min(survivors, key=use_count)`: the first one of least use count. */
    method PickLeastUsed() returns (best: nat, ghost at: nat)
      requires InRange(pool, |conns|) && pool != []
      ensures at < |pool| && best == pool[at] == LeastUsed(conns, pool)
      ensures forall k :: 0 <= k < |pool| ==> conns[best].useCount <= conns[pool[k]].useCount
      ensures forall k :: 0 <= k < at ==> conns[best].useCount < conns[pool[k]].useCount
    {
      best, at := pool[0], 0;
      var j := 1;
      while j < |pool|
        invariant 1 <= j <= |pool|
        invariant at == LeastUsedAt(conns, pool, j) && best == pool[at]
      {
        if conns[pool[j]].useCount < conns[best].useCount {
          best, at := pool[j], j;
        }
        j := j + 1;
      }
    }

    /** `_find_healthy`. */
    method FindHealthy(now: real) returns (healthy: Option<nat>)
      requires InRange(pool, |conns|)
      modifies this`pool, this`disconnected
      ensures var gone := ExpiredIn(cfg, conns, old(pool), now);
              pool == Keep(old(pool), gone) && disconnected == old(disconnected) + gone
      ensures InRange(pool, |conns|)
      ensures healthy == if pool == [] then None else Some(LeastUsed(conns, pool))
    {
      KeepRange(pool, ExpiredIn(cfg, conns, pool, now), |conns|);
      PurgeExpired(now);
      if pool != [] {
        var best, _ := PickLeastUsed();
        healthy := Some(best);
      } else {
        healthy := None;
      }
    }

    method TakePooled(now: real) returns (conn: Option<nat>)
      requires InRange(pool, |conns|)
      modifies this
      ensures View() == StepFind(cfg, old(View()), now)
      ensures conn.None? <==> pool == []
      ensures conn.Some? ==> returned == old(returned) + [conn.value]
    {
      conn := FindHealthy(now);
      FindOutcome(cfg, old(View()), now, pool, disconnected, conn);
      if conn.Some? {
        conns := Used(conns, conn.value, now);
        reused := reused + 1;
        returned := returned + [conn.value];
      } else {
        creating := creating + 1;
      }
    }

    /** The first locked section of `acquire`: a reused connection, or None when one must be created. */
    method AcquirePooled(now: real) returns (conn: Option<nat>)
      requires Valid()
      modifies this
      ensures Valid() && View() == StepFind(cfg, old(View()), now)
      ensures conn.None? <==> pool == []
      ensures conn.Some? ==> returned == old(returned) + [conn.value]
    {
      FindKeepsInv(cfg, View(), now);
      conn := TakePooled(now);
    }

    /** The end of `_create_new`: the connection is pooled when there is room, and returned in any case. */
    method AddCreated(t0: real) returns (conn: nat)
      requires Valid() && creating > 0
      modifies this
      ensures Valid() && View() == StepConnected(cfg, old(View()), t0)
      ensures conns == old(conns) + [Conn(t0, t0, 1)] && conn == |old(conns)|
      ensures pool == if |old(pool)| < cfg.maxPoolSize then old(pool) + [conn] else old(pool)
      ensures returned == old(returned) + [conn]
    {
      StepKeepsInv(cfg, View(), Connected(t0));
      conn := |conns|;
      conns := conns + [Conn(t0, t0, 1)];
      if |pool| < cfg.maxPoolSize {
        pool := pool + [conn];
      }
      created := created + 1;
      creating := creating - 1;
      returned := returned + [conn];
    }

    /** The locked loop of `_health_check_if_needed`. */
    method RemoveDead(dead: set<nat>)
      requires Distinct(pool)
      modifies this`pool, this`disconnected, this`reconnected
      ensures var gone := DeadIn(old(pool), dead);
              && pool == Keep(old(pool), gone)
              && disconnected == old(disconnected) + gone
              && reconnected == old(reconnected) + |gone|
    {
      var snapshot := pool;
      ghost var gone := DeadIn(snapshot[..0], dead);
      KeepAll(snapshot, gone);
      var i := 0;
      while i < |snapshot|
        invariant 0 <= i <= |snapshot| && gone == DeadIn(snapshot[..i], dead)
        invariant pool == Keep(snapshot, gone)
        invariant disconnected == old(disconnected) + gone
        invariant reconnected == old(reconnected) + |gone|
      {
        var pc := snapshot[i];
        RemoveDeadNext(snapshot, dead, i);
        ghost var next := DeadIn(snapshot[..i + 1], dead);
        if pc in dead {
          reconnected := reconnected + 1;
          pool := Remove(pool, pc);
          disconnected := disconnected + {pc};
          assert old(disconnected) + gone + {pc} == old(disconnected) + next;
        }
        gone := next;
        i := i + 1;
      }
      WholePrefix(snapshot);
    }

    /** The locked section of `_health_check_if_needed`. */
    method CheckHealth(dead: set<nat>)
      requires Valid()
      modifies this`pool, this`disconnected, this`reconnected
      ensures Valid() && Some(View()) == Step(cfg, old(View()), HealthCheck(dead))
      ensures forall id :: id in pool <==> id in old(pool) && id !in dead
      ensures forall id :: id in disconnected <==> id in old(disconnected) || (id in old(pool) && id in dead)
    {
      HealthCheckKeepsInv(cfg, View(), dead);
      HealthByAnswer(cfg, View(), dead);
      RemoveDead(dead);
    }

    /** The locked part of `_eject`. */
    method EjectFromPool(pc: nat)
      requires Valid() && pc in returned
      modifies this
      ensures Valid() && Some(View()) == Step(cfg, old(View()), Eject(pc))
      ensures forall id :: id in pool <==> id in old(pool) && id != pc
    {
      EjectTakesOut(cfg, View(), pc);
      StepKeepsInv(cfg, View(), Eject(pc));
      RemoveIsKeep(pool, pc);
      if pc in pool {
        pool := Remove(pool, pc);
      }
      ejecting := ejecting + multiset{pc};
    }

    /** The end of `_eject`, after the lock is free again. */
    method DisconnectEjected(pc: nat)
      requires Valid() && pc in ejecting
      modifies this
      ensures Valid() && Some(View()) == Step(cfg, old(View()), EjectDisconnect(pc))
      ensures pool == old(pool) && disconnected == old(disconnected) + {pc}
    {
      StepKeepsInv(cfg, View(), EjectDisconnect(pc));
      disconnected := disconnected + {pc};
      ejecting := ejecting - multiset{pc};
    }

    method DisconnectEverything()
      requires Valid()
      modifies this
      ensures Valid() && Some(View()) == Step(cfg, old(View()), DisconnectAll)
      ensures pool == [] && forall id :: id in disconnected <==> id in old(disconnected) || id in old(pool)
    {
      disconnected := disconnected + set id | id in pool;
      pool := [];
    }

    /** The section that an event of the schedule stands for. */
    method Handle(ev: Event)
      requires Valid() && Step(cfg, View(), ev).Some?
      modifies this
      ensures Valid() && Some(View()) == Step(cfg, old(View()), ev)
    {
      match ev {
        case HealthCheck(dead) => CheckHealth(dead);
        case Find(now) => var _ := AcquirePooled(now);
        case Connected(t0) => var _ := AddCreated(t0);
        case ConnectFailed => creating := creating - 1;
        case Eject(pc) => EjectFromPool(pc);
        case EjectDisconnect(pc) => DisconnectEjected(pc);
        case DisconnectAll => DisconnectEverything();
      }
    }

    /** `acquire` after the health check: the search, and a connect when nothing is left. */
    method FindOrCreate(now: real, connect: Option<real>) returns (conn: Option<nat>)
      requires Valid()
      modifies this
      ensures Valid() && View() == Completed(cfg, StepFind(cfg, old(View()), now), connect)
      ensures conn == if returned == old(returned) then None else Some(returned[|returned| - 1])
    {
      FindOutcomes(cfg, View(), now);
      conn := AcquirePooled(now);
      if conn.None? {
        if connect.Some? {
          var created := AddCreated(connect.value);
          conn := Some(created);
        } else {
          creating := creating - 1;
        }
      }
    }

    /** `_health_check_if_needed`. */
    method CheckHealthIfDue(due: bool, dead: set<nat>)
      requires Valid()
      modifies this
      ensures Valid() && Some(View()) == Step(cfg, old(View()), HealthCheck(if due then dead else {}))
    {
      if due {
        CheckHealth(dead);
      } else {
        NothingDead(cfg, View());
      }
    }

    /** `acquire` by one thread: the health check when it is due, then search or connect.  `dead` are the connections
        that do not answer, `connect` is when a new one was begun, or None when connecting fails. */
    method Acquire(now: real, due: bool, dead: set<nat>, connect: Option<real>) returns (conn: Option<nat>)
      requires Valid()
      modifies this
      ensures Valid() && creating == old(creating) && |pool| <= (if |old(pool)| > 1 then |old(pool)| else 1)
      ensures Granted(cfg, old(View()), View(), now, if due then dead else {}, connect, conn)
      ensures ByAge(cfg, old(View()), View(), now, if due then dead else {}, conn)
    {
      ghost var unanswered := if due then dead else {};
      CheckHealthIfDue(due, dead);
      ghost var checked := View();
      conn := FindOrCreate(now, connect);
      AcquireGrants(cfg, old(View()), checked, now, unanswered, connect);
      AcquireByAge(cfg, old(View()), checked, now, unanswered, connect);
    }
  }

  /** What `acquire` does, by the age of the pooled connections that answer.  Those within the session lifetime all stay
      pooled and connected, and if there is one, such a one is returned, used once more as of now, and none is created;
      all others leave the pool and are disconnected. */
  ghost predicate ByAge(cfg: Config, s: State, t: State, now: real, dead: set<nat>, conn: Option<nat>)
    requires Known(s)
  {
    && (forall id :: id in s.pool && id !in dead && now - s.conns[id].createdAt <= cfg.sessionTtl ==>
          id in t.pool && id !in t.disconnected)
    && (forall id :: id in s.pool && (id in dead || now - s.conns[id].createdAt > cfg.sessionTtl) ==>
          id !in t.pool && id in t.disconnected)
    && ((exists id :: id in s.pool && id !in dead && now - s.conns[id].createdAt <= cfg.sessionTtl) ==>
          && conn.Some? && conn.value in s.pool && conn.value !in dead
          && now - s.conns[conn.value].createdAt <= cfg.sessionTtl
          && t.created == s.created && t.conns == UsedOnce(s.conns, conn.value, now))
  }

  /** Connection `id` with one more use at `now`. */
  function UsedOnce(conns: seq<Conn>, id: nat, now: real): seq<Conn>
    requires id < |conns|
  {
    conns[id := Conn(conns[id].createdAt, now, conns[id].useCount + 1)]
  }

  /** The search by age; `s` has passed the health check. */
  lemma FindByAge(cfg: Config, s: State, now: real)
    requires Inv(cfg, s)
    ensures var t := StepFind(cfg, s, now);
            && PurgedByAge(cfg, s.conns, s.pool, t.pool, s.disconnected, t.disconnected, now)
            && (t.pool != [] ==>
                  && |t.returned| == |s.returned| + 1 && t.returned[|s.returned|] in s.pool
                  && t.returned[|s.returned|] in t.pool && t.created == s.created
                  && t.conns == UsedOnce(s.conns, t.returned[|s.returned|], now))
  {
    PurgeIsByAge(cfg, s.conns, s.pool, s.disconnected, now);
    KeepMembers(s.pool, ExpiredIn(cfg, s.conns, s.pool, now));
    KeepRange(s.pool, ExpiredIn(cfg, s.conns, s.pool, now), |s.conns|);
  }

  lemma AcquireByAge(cfg: Config, s: State, c: State, now: real, dead: set<nat>, connect: Option<real>)
    requires Inv(cfg, s) && Inv(cfg, c) && Step(cfg, s, HealthCheck(dead)) == Some(c)
    ensures var t := Completed(cfg, StepFind(cfg, c, now), connect);
            ByAge(cfg, s, t, now, dead, Handed(s, t))
  {
    KeepMembers(s.pool, DeadIn(s.pool, dead));
    assert forall id :: id in c.disconnected <==> id in s.disconnected || (id in s.pool && id in dead);
    FindByAge(cfg, c, now);
    FindOutcomes(cfg, c, now);
    FindKeepsInv(cfg, c, now);
    CompletedByAge(cfg, s, c, StepFind(cfg, c, now), now, dead, connect);
  }

  lemma CompletedByAge(
    cfg: Config, s: State, c: State, found: State, now: real, dead: set<nat>, connect: Option<real>)
    requires Inv(cfg, s) && Inv(cfg, found) && Known(c) && c.conns == s.conns && c.created == s.created
    requires c.returned == s.returned
    requires forall id :: id in c.pool <==> id in s.pool && id !in dead
    requires forall id :: id in c.disconnected <==> id in s.disconnected || (id in s.pool && id in dead)
    requires PurgedByAge(cfg, c.conns, c.pool, found.pool, c.disconnected, found.disconnected, now)
    requires |found.conns| == |s.conns|
    requires found.pool != [] ==>
               && |found.returned| == |c.returned| + 1 && found.returned[|c.returned|] in c.pool
               && found.returned[|c.returned|] in found.pool && found.created == c.created
               && found.conns == UsedOnce(c.conns, found.returned[|c.returned|], now)
    ensures var t := Completed(cfg, found, connect);
            ByAge(cfg, s, t, now, dead, Handed(s, t))
  {
    if found.pool == [] {
      assert forall id :: id in c.pool ==> id !in found.pool;
    }
  }

  /** How the search ends: with a connection, or with an empty pool and a connect under way. */
  lemma FindOutcomes(cfg: Config, s: State, now: real)
    requires Inv(cfg, s)
    ensures var t := StepFind(cfg, s, now);
            if t.pool == [] then t.creating == s.creating + 1 && t.returned == s.returned
            else t.creating == s.creating && |t.returned| == |s.returned| + 1
  {
  }

  /** What is left to do after the search: nothing, or the connect. */
  function Completed(cfg: Config, found: State, connect: Option<real>): State {
    if found.pool != [] || found.creating == 0 then found
    else if connect.Some? then StepConnected(cfg, found, connect.value)
    else found.(creating := found.creating - 1)
  }

  lemma NothingDead(cfg: Config, s: State)
    requires Inv(cfg, s)
    ensures Step(cfg, s, HealthCheck({})) == Some(s)
  {
    KeepAll(s.pool, DeadIn(s.pool, {}));
    assert s.disconnected + DeadIn(s.pool, {}) == s.disconnected;
  }

  /** The connection that was handed out last, if any was since `s`. */
  ghost function Handed(s: State, t: State): Option<nat> {
    if t.returned == s.returned || t.returned == [] then None else Some(t.returned[|t.returned| - 1])
  }

  lemma AcquireGrants(cfg: Config, s: State, c: State, now: real, dead: set<nat>, connect: Option<real>)
    requires Inv(cfg, s) && Inv(cfg, c) && Step(cfg, s, HealthCheck(dead)) == Some(c)
    ensures var t := Completed(cfg, StepFind(cfg, c, now), connect);
            && Granted(cfg, s, t, now, dead, connect, Handed(s, t))
            && t.creating == s.creating && |t.pool| <= (if |s.pool| > 1 then |s.pool| else 1)
  {
    UsableAfterCheck(cfg, s, c, now, dead);
    FindGrants(cfg, c, now);
    CompletedGrants(cfg, s, c, StepFind(cfg, c, now), now, dead, connect);
  }

  lemma CompletedGrants(
    cfg: Config, s: State, c: State, found: State, now: real, dead: set<nat>, connect: Option<real>)
    requires Known(s) && Known(c) && Searched(cfg, c, found, now)
    requires c.conns == s.conns && |c.pool| <= |s.pool| && c.creating == s.creating
    requires c.returned == s.returned && c.created == s.created && c.reused == s.reused
    requires Usable(cfg, c, now, {}) == Usable(cfg, s, now, dead)
    ensures var t := Completed(cfg, found, connect);
            && Granted(cfg, s, t, now, dead, connect, Handed(s, t))
            && t.creating == s.creating && |t.pool| <= (if |s.pool| > 1 then |s.pool| else 1)
  {
    if found.pool != [] {
      assert found.returned == s.returned + [found.returned[|s.returned|]];
    }
  }

  /** The pooled connections that answer and have not expired. */
  ghost function Usable(cfg: Config, s: State, now: real, dead: set<nat>): set<nat>
    requires Known(s)
  {
    set id | id in s.pool && id !in dead && !Expired(cfg, s.conns[id], now)
  }

  lemma UsableAfterCheck(cfg: Config, s: State, c: State, now: real, dead: set<nat>)
    requires Known(s) && Known(c) && c.conns == s.conns && c.pool == Keep(s.pool, DeadIn(s.pool, dead))
    ensures Usable(cfg, c, now, {}) == Usable(cfg, s, now, dead) && |c.pool| <= |s.pool|
  {
    KeepMembers(s.pool, DeadIn(s.pool, dead));
  }

  /** `found` is `s` after the search, told by what it found. */
  ghost predicate Searched(cfg: Config, s: State, found: State, now: real)
    requires Known(s)
  {
    var usable := Usable(cfg, s, now, {});
    && found.created == s.created && |found.pool| <= |s.pool| && |s.returned| <= |found.returned|
    && found.returned[..|s.returned|] == s.returned
    && if found.pool != [] then
         && usable != {} && found.creating == s.creating && found.reused == s.reused + 1
         && |found.returned| == |s.returned| + 1
         && var id := found.returned[|s.returned|];
         && id in usable && id in found.pool && id !in found.disconnected
         && (forall other :: other in usable ==> s.conns[id].useCount <= s.conns[other].useCount)
       else
         && usable == {} && found.creating == s.creating + 1 && found.reused == s.reused
         && found.conns == s.conns && found.returned == s.returned
  }

  lemma FindGrants(cfg: Config, s: State, now: real)
    requires Inv(cfg, s)
    ensures Searched(cfg, s, StepFind(cfg, s, now), now)
  {
    ReuseIsFreshAndLeastUsed(cfg, s, now);
    FindGrowth(cfg, s, now);
    var gone := ExpiredIn(cfg, s.conns, s.pool, now);
    KeepMembers(s.pool, gone);
    assert forall id :: id in Keep(s.pool, gone) <==> id in Usable(cfg, s, now, {});
  }

  /** What `acquire` owes.  Either a pooled connection that answers, within its lifetime and used least among all that
      are left; or a new one, when every pooled connection is dead or expired; or nothing, when in that case
      connecting fails. */
  ghost predicate Granted(
    cfg: Config, s: State, t: State, now: real, dead: set<nat>, connect: Option<real>, conn: Option<nat>)
    requires Known(s)
  {
    var usable := Usable(cfg, s, now, dead);
    if usable != {} then
      && conn.Some? && conn.value in usable && conn.value in t.pool && conn.value !in t.disconnected
      && (forall id :: id in usable ==> s.conns[conn.value].useCount <= s.conns[id].useCount)
      && t.returned == s.returned + [conn.value] && t.reused == s.reused + 1 && t.created == s.created
    else if connect.Some? then
      && conn == Some(|s.conns|) && t.conns == s.conns + [Conn(connect.value, connect.value, 1)]
      && t.pool == (if cfg.maxPoolSize > 0 then [|s.conns|] else [])
      && t.returned == s.returned + [|s.conns|] && t.reused == s.reused && t.created == s.created + 1
    else conn.None? && t.pool == [] && t.returned == s.returned && t.reused == s.reused && t.created == s.created
  }

  // ---------------------------------------------------------------------
  // `list.remove`
  // ---------------------------------------------------------------------

  /** The first index of `x` at or after `from`, or the length of `s`. */
  function IndexOf(s: seq<nat>, x: nat, from: nat): (i: nat)
    requires from <= |s|
    ensures from <= i <= |s| && (i < |s| ==> s[i] == x) && (forall k :: from <= k < i ==> s[k] != x)
    decreases |s| - from
  {
    if from == |s| || s[from] == x then from else IndexOf(s, x, from + 1)
  }

  function Remove(s: seq<nat>, x: nat): seq<nat> {
    var i := IndexOf(s, x, 0);
    if i < |s| then Without(s, i) else s
  }

  lemma {:induction false} KeepAll(s: seq<nat>, gone: set<nat>)
    requires forall id :: id in s ==> id !in gone
    ensures Keep(s, gone) == s
  {
    if s != [] {
      KeepAll(s[..|s| - 1], gone);
    }
  }

  lemma {:induction false} KeepTwice(s: seq<nat>, a: set<nat>, b: set<nat>)
    ensures Keep(Keep(s, a), b) == Keep(s, a + b)
  {
    if s != [] {
      var k := |s| - 1;
      KeepTwice(s[..k], a, b);
      if s[k] !in a {
        var kept := Keep(s[..k], a) + [s[k]];
        assert kept[..|kept| - 1] == Keep(s[..k], a);
        assert Keep(s, a) == kept;
      } else {
        assert Keep(s, a) == Keep(s[..k], a);
      }
    }
  }

  lemma {:induction false} KeepAllBut(s: seq<nat>, i: nat)
    requires i < |s| && Distinct(s)
    ensures Keep(s, {s[i]}) == Without(s, i)
  {
    var k := |s| - 1;
    if i < k {
      KeepAllBut(s[..k], i);
      assert s[..k][i] == s[i] && s[k] != s[i];
      assert Without(s, i) == Without(s[..k], i) + [s[k]];
    } else {
      KeepAll(s[..k], {s[i]});
      assert Without(s, i) == s[..k];
    }
  }

  /** The health check loop after one more connection. */
  lemma RemoveDeadNext(s: seq<nat>, dead: set<nat>, i: nat)
    requires i < |s| && Distinct(s)
    ensures var gone, next := DeadIn(s[..i], dead), DeadIn(s[..i + 1], dead);
            if s[i] in dead then
              Remove(Keep(s, gone), s[i]) == Keep(s, next) && next == gone + {s[i]} && |next| == |gone| + 1
            else next == gone
  {
    var gone := DeadIn(s[..i], dead);
    NextPrefix(s, i);
    assert s[i] !in gone;
    if s[i] in dead {
      RemoveStep(s, gone, s[i]);
      assert DeadIn(s[..i + 1], dead) == gone + {s[i]};
    } else {
      assert DeadIn(s[..i + 1], dead) == gone;
    }
  }

  lemma RemoveStep(s: seq<nat>, removed: set<nat>, x: nat)
    requires Distinct(s)
    ensures Remove(Keep(s, removed), x) == Keep(s, removed + {x})
  {
    KeepDistinct(s, removed);
    RemoveIsKeep(Keep(s, removed), x);
    KeepTwice(s, removed, {x});
  }

  /** On a pool without duplicates `list.remove` drops exactly the one element. */
  lemma RemoveIsKeep(s: seq<nat>, x: nat)
    requires Distinct(s)
    ensures Remove(s, x) == Keep(s, {x})
  {
    var i := IndexOf(s, x, 0);
    if i < |s| {
      KeepAllBut(s, i);
    } else {
      KeepAll(s, {x});
    }
  }

  lemma RunStep(cfg: Config, evs: seq<Event>)
    requires evs != [] && Run(cfg, evs).Some?
    ensures var front := evs[..|evs| - 1];
            Run(cfg, front).Some? && Run(cfg, evs) == Step(cfg, Run(cfg, front).value, evs[|evs| - 1])
  {
  }

  lemma {:induction false} PrefixRuns(cfg: Config, evs: seq<Event>, k: nat)
    requires Run(cfg, evs).Some? && k <= |evs|
    ensures Run(cfg, evs[..k]).Some?
  {
    if k < |evs| {
      RunStep(cfg, evs);
      PrefixRuns(cfg, evs[..|evs| - 1], k);
      PrefixOfPrefix(evs, |evs| - 1, k);
    } else {
      WholePrefix(evs);
    }
  }

  lemma RunPrefix(cfg: Config, evs: seq<Event>, k: nat)
    requires Run(cfg, evs).Some? && k < |evs|
    ensures Run(cfg, evs[..k]).Some? && Run(cfg, evs[..k + 1]).Some?
    ensures Run(cfg, evs[..k + 1]) == Step(cfg, Run(cfg, evs[..k]).value, evs[k])
  {
    PrefixRuns(cfg, evs, k);
    PrefixRuns(cfg, evs, k + 1);
    RunStep(cfg, evs[..k + 1]);
    PrefixOfPrefix(evs, k + 1, k);
  }

  /** The pool under any interleaving of its threads: the object reaches the state of the transition system, and its
      own invariant holds. */
  method Replay(cfg: Config, schedule: seq<Event>) returns (pool: VMwareConnectionPool)
    requires Run(cfg, schedule).Some?
    ensures fresh(pool) && pool.cfg == cfg && pool.Valid() && Some(pool.View()) == Run(cfg, schedule)
  {
    pool := new VMwareConnectionPool(cfg);
    var k := 0;
    while k < |schedule|
      invariant 0 <= k <= |schedule| && fresh(pool) && pool.cfg == cfg && pool.Valid()
      invariant Run(cfg, schedule[..k]) == Some(pool.View())
    {
      RunPrefix(cfg, schedule, k);
      pool.Handle(schedule[k]);
      k := k + 1;
    }
    WholePrefix(schedule);
  }

  /** One call of `acquire` and what the outside world does during it. */
  datatype Attempt = Attempt(now: real, due: bool, dead: set<nat>, connect: Option<real>)

  /** A sequential run: the pool never holds more than one connection, and every acquire that succeeded was counted
      once, as a reuse or as a creation. */
  method AcquireInTurn(cfg: Config, attempts: seq<Attempt>)
    returns (conns: seq<Option<nat>>, pool: VMwareConnectionPool)
    ensures fresh(pool) && pool.Valid() && |conns| == |attempts|
    ensures |pool.pool| <= 1 && pool.creating == 0
    ensures pool.created + pool.reused == |Successes(conns)| && pool.returned == Successes(conns)
  {
    pool := new VMwareConnectionPool(cfg);
    conns := [];
    while |conns| < |attempts|
      invariant |conns| <= |attempts| && fresh(pool) && pool.Valid() && pool.cfg == cfg
      invariant |pool.pool| <= 1 && pool.creating == 0 && pool.returned == Successes(conns)
    {
      var a := attempts[|conns|];
      var conn := pool.Acquire(a.now, a.due, a.dead, a.connect);
      AppendFront(conns, conn);
      conns := conns + [conn];
    }
  }

  /** The connections that were handed out. */
  function Successes(conns: seq<Option<nat>>): seq<nat> {
    if conns == [] then [] else
    var n := |conns| - 1;
    Successes(conns[..n]) + if conns[n].Some? then [conns[n].value] else []
  }
}
