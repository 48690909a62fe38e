/**
 The two cache backends behind `cache_get`, `cache_set` and `cache_invalidate`: one TTL cache per known
 resource in memory, or one Redis database seen as an expiring map whose calls can fail.
*/
module CacheBackends {
  import opened Prelude
  import opened TtlCache

  datatype Request<V> = GetResource | SetResource(value: V) | InvalidateResource

  /** A request for a resource, when it runs, and whether Redis answers it. */
  datatype Access<V> = Access(resource: string, request: Request<V>, at: real, answered: bool)

  type Ttls = map<string, real>

  // ---------------------------------------------------------------------
  // Memory
  // ---------------------------------------------------------------------

  function ToOp<V>(resource: string, r: Request<V>): Op<V> {
    match r
    case GetResource => Get(resource)
    case SetResource(v) => Set(resource, v)
    case InvalidateResource => InvalidateAll
  }

  function MemoryApply<V>(ttls: Ttls, stores: map<string, Store<V>>, a: Access<V>): map<string, Store<V>> {
    if a.resource in stores && a.resource in ttls
    then stores[a.resource := Apply(ttls[a.resource], stores[a.resource], Call(ToOp(a.resource, a.request), a.at))]
    else stores
  }

  function MemoryRun<V>(ttls: Ttls, accesses: seq<Access<V>>): (stores: map<string, Store<V>>)
    ensures stores.Keys == ttls.Keys
  {
    if accesses == [] then map r | r in ttls :: EmptyStore()
    else MemoryApply(ttls, MemoryRun(ttls, accesses[..|accesses| - 1]), accesses[|accesses| - 1])
  }

  /** What the memory backend answers to a get of `resource` at `now`. */
  function MemoryAnswer<V>(ttls: Ttls, accesses: seq<Access<V>>, resource: string, now: real): Option<V> {
    if resource in ttls then Lookup(MemoryRun(ttls, accesses)[resource], resource, now) else None
  }

  // ---------------------------------------------------------------------
  // Redis
  // ---------------------------------------------------------------------

  datatype Redis<V> = Redis(
    db: map<string, Cached<V>>, hits: map<string, nat>, misses: map<string, nat>, invalidations: map<string, nat>,
    errors: nat)

  const DEFAULT_TTL := 30.0

  function Key(project: string, resource: string): string {
    "okastro:" + project + ":" + resource
  }

  function Count(counter: map<string, nat>, name: string): nat {
    if name in counter then counter[name] else 0
  }

  function Incr(counter: map<string, nat>, name: string): map<string, nat> {
    counter[name := Count(counter, name) + 1]
  }

  function TtlFor(ttls: Ttls, resource: string): real {
    if resource in ttls then ttls[resource] else DEFAULT_TTL
  }

  /** SETEX refuses a lifetime that is not positive. */
  function RedisApply<V>(project: string, ttls: Ttls, s: Redis<V>, a: Access<V>): Redis<V> {
    var key := Key(project, a.resource);
    match a.request
    case GetResource =>
      if !a.answered then s.(misses := Incr(s.misses, a.resource), errors := s.errors + 1)
      else if LookupIn(s.db, key, a.at).Some? then s.(hits := Incr(s.hits, a.resource))
      else s.(misses := Incr(s.misses, a.resource))
    case SetResource(v) =>
      if !a.answered || TtlFor(ttls, a.resource) <= 0.0 then s.(errors := s.errors + 1)
      else s.(db := s.db[key := Cached(v, a.at + TtlFor(ttls, a.resource))])
    case InvalidateResource =>
      var t := s.(invalidations := Incr(s.invalidations, a.resource));
      if a.answered then t.(db := s.db - {key}) else t.(errors := s.errors + 1)
  }

  function RedisRun<V>(project: string, ttls: Ttls, accesses: seq<Access<V>>): Redis<V> {
    if accesses == [] then Redis(map[], map[], map[], map[], 0)
    else RedisApply(project, ttls, RedisRun(project, ttls, accesses[..|accesses| - 1]), accesses[|accesses| - 1])
  }

  function RedisAnswer<V>(
    project: string, ttls: Ttls, accesses: seq<Access<V>>, resource: string, now: real): Option<V>
  {
    LookupIn(RedisRun(project, ttls, accesses).db, Key(project, resource), now)
  }

  /** The reference for Redis under any failures: the latest write that Redis took decides. */
  function RedisLive<V>(ttls: Ttls, accesses: seq<Access<V>>, resource: string, now: real): Option<V> {
    if accesses == [] then None else
    var last := accesses[|accesses| - 1];
    var earlier := accesses[..|accesses| - 1];
    if last.resource != resource || !last.answered then RedisLive(ttls, earlier, resource, now) else
    match last.request
    case GetResource => RedisLive(ttls, earlier, resource, now)
    case SetResource(v) =>
      var ttl := TtlFor(ttls, resource);
      if ttl <= 0.0 then RedisLive(ttls, earlier, resource, now)
      else if now < last.at + ttl then Some(v) else None
    case InvalidateResource => None
  }

  /** Whatever calls fail, Redis answers a get by the latest write it took for that resource, so a failed set is
      lost and a failed invalidate leaves the old list in place until it expires. */
  lemma {:induction false} RedisAnswersLatestWrite<V>(
    project: string, ttls: Ttls, accesses: seq<Access<V>>, resource: string, now: real)
    ensures RedisAnswer(project, ttls, accesses, resource, now) == RedisLive(ttls, accesses, resource, now)
  {
    if accesses != [] {
      var n := |accesses| - 1;
      RedisAnswersLatestWrite(project, ttls, accesses[..n], resource, now);
      KeyInjective(project, resource, accesses[n].resource);
    }
  }

  // ---------------------------------------------------------------------
  // Same answers, same counters
  // ---------------------------------------------------------------------

  /** A monotone history that Redis answered throughout. */
  ghost predicate Healthy<V>(accesses: seq<Access<V>>, now: real) {
    && (forall i, j :: 0 <= i < j < |accesses| ==> accesses[i].at <= accesses[j].at)
    && (forall i :: 0 <= i < |accesses| ==> accesses[i].at <= now && accesses[i].answered)
  }

  lemma KeyInjective(project: string, a: string, b: string)
    ensures Key(project, a) == Key(project, b) ==> a == b
  {
    var prefix := "okastro:" + project + ":";
    assert Key(project, a)[|prefix|..] == a && Key(project, b)[|prefix|..] == b;
  }

  /** One access keeps the two answers of a configured resource alike. */
  lemma AccessKeepsAnswer<V>(
    project: string, ttls: Ttls, stores: map<string, Store<V>>, redis: Redis<V>, a: Access<V>, resource: string,
    now: real)
    requires resource in ttls && resource in stores && a.answered && a.at <= now
    requires Lookup(stores[resource], resource, now) == LookupIn(redis.db, Key(project, resource), now)
    requires ttls[resource] <= 0.0 ==> Key(project, resource) !in redis.db
    ensures var m, r := MemoryApply(ttls, stores, a), RedisApply(project, ttls, redis, a);
            && Lookup(m[resource], resource, now) == LookupIn(r.db, Key(project, resource), now)
            && (ttls[resource] <= 0.0 ==> Key(project, resource) !in r.db)
  {
    if a.resource != resource {
      KeyInjective(project, resource, a.resource);
      assert MemoryApply(ttls, stores, a)[resource] == stores[resource];
    } else {
      ApplyLookup(ttls[resource], stores[resource], Call(ToOp(resource, a.request), a.at), resource, now);
    }
  }

  lemma {:induction false} SameAnswer<V>(
    project: string, ttls: Ttls, accesses: seq<Access<V>>, resource: string, now: real)
    requires Healthy(accesses, now) && resource in ttls
    ensures MemoryAnswer(ttls, accesses, resource, now) == RedisAnswer(project, ttls, accesses, resource, now)
    ensures ttls[resource] <= 0.0 ==> Key(project, resource) !in RedisRun(project, ttls, accesses).db
  {
    if accesses != [] {
      var n := |accesses| - 1;
      SameAnswer(project, ttls, accesses[..n], resource, now);
      AccessKeepsAnswer(project, ttls, MemoryRun(ttls, accesses[..n]), RedisRun(project, ttls, accesses[..n]),
                        accesses[n], resource, now);
    }
  }

  lemma IncrCount(counter: map<string, nat>, name: string, other: string)
    ensures Count(Incr(counter, name), other) == Count(counter, other) + if name == other then 1 else 0
  {
  }

  /** The two sides agree on the counters of one resource. */
  ghost predicate CountersAgree<V>(memory: Store<V>, redis: Redis<V>, resource: string) {
    && memory.hits == Count(redis.hits, resource)
    && memory.misses == Count(redis.misses, resource)
    && memory.invalidations == Count(redis.invalidations, resource)
  }

  lemma AccessKeepsCounters<V>(
    project: string, ttls: Ttls, stores: map<string, Store<V>>, redis: Redis<V>, a: Access<V>, resource: string)
    requires resource in ttls && resource in stores && a.answered
    requires CountersAgree(stores[resource], redis, resource)
    requires a.resource == resource ==>
               Lookup(stores[resource], resource, a.at) == LookupIn(redis.db, Key(project, resource), a.at)
    ensures CountersAgree(MemoryApply(ttls, stores, a)[resource], RedisApply(project, ttls, redis, a), resource)
  {
    IncrCount(redis.hits, a.resource, resource);
    IncrCount(redis.misses, a.resource, resource);
    IncrCount(redis.invalidations, a.resource, resource);
    if a.resource == resource {
      ApplyCounts(ttls[resource], stores[resource], Call(ToOp(resource, a.request), a.at));
    } else {
      assert MemoryApply(ttls, stores, a)[resource] == stores[resource];
    }
  }

  /** Hits, misses and invalidations of a configured resource are the same on both sides. */
  lemma {:induction false} SameCounters<V>(
    project: string, ttls: Ttls, accesses: seq<Access<V>>, resource: string, now: real)
    requires Healthy(accesses, now) && resource in ttls
    ensures CountersAgree(MemoryRun(ttls, accesses)[resource], RedisRun(project, ttls, accesses), resource)
  {
    if accesses != [] {
      var n := |accesses| - 1;
      var a := accesses[n];
      assert Healthy(accesses[..n], a.at);
      SameCounters(project, ttls, accesses[..n], resource, a.at);
      SameAnswer(project, ttls, accesses[..n], resource, a.at);
      AccessKeepsCounters(project, ttls, MemoryRun(ttls, accesses[..n]), RedisRun(project, ttls, accesses[..n]), a,
                          resource);
    }
  }

  /** Over all histories that Redis answers, the two backends answer alike for a resource exactly when it is
      one of the resources with a configured lifetime. */
  lemma BackendsAgreeIff<V(!new)>(project: string, ttls: Ttls, resource: string, v: V)
    ensures (forall accesses: seq<Access<V>>, now: real :: Healthy(accesses, now) ==>
               MemoryAnswer(ttls, accesses, resource, now) == RedisAnswer(project, ttls, accesses, resource, now))
            <==> resource in ttls
  {
    if resource in ttls {
      forall accesses: seq<Access<V>>, now: real | Healthy(accesses, now)
        ensures MemoryAnswer(ttls, accesses, resource, now) == RedisAnswer(project, ttls, accesses, resource, now)
      {
        SameAnswer(project, ttls, accesses, resource, now);
      }
    } else {
      var one := [Access(resource, SetResource(v), 0.0, true)];
      assert one[..0] == [];
      assert Healthy(one, 1.0);
      assert RedisAnswer(project, ttls, one, resource, 1.0) == Some(v);
      assert MemoryAnswer(ttls, one, resource, 1.0) == None;
    }
  }

  // ---------------------------------------------------------------------
  // The backends as code
  // ---------------------------------------------------------------------

  class MemoryCacheBackend<V> {
    const stores: map<string, TTLCache<V>>
    const ttls: Ttls

    /** One cache object per configured resource, none shared. */
    ghost predicate Valid()
      reads this
    {
      && stores.Keys == ttls.Keys
      && (forall r :: r in stores ==> stores[r].ttl == ttls[r])
      && (forall a, b :: a in stores && b in stores && a != b ==> stores[a] != stores[b])
    }

    ghost function View(): map<string, Store<V>>
      reads this, stores.Values
    {
      map r | r in stores :: stores[r].View()
    }

    constructor (ttls: Ttls)
      ensures Valid() && this.ttls == ttls && fresh(stores.Values)
      ensures View() == MemoryRun(ttls, [])
    {
      this.ttls := ttls;
      var built := BuildStores<V>(ttls);
      stores := built;
    }

    static method BuildStores<V>(ttls: Ttls) returns (built: map<string, TTLCache<V>>)
      ensures built.Keys == ttls.Keys && fresh(built.Values)
      ensures forall r :: r in built ==> built[r].ttl == ttls[r] && built[r].View() == EmptyStore()
      ensures forall a, b :: a in built && b in built && a != b ==> built[a] != built[b]
    {
      built := map[];
      while built.Keys != ttls.Keys
        invariant built.Keys <= ttls.Keys && fresh(built.Values)
        invariant forall r :: r in built ==> built[r].ttl == ttls[r] && built[r].View() == EmptyStore()
        invariant forall a, b :: a in built && b in built && a != b ==> built[a] != built[b]
        decreases ttls.Keys - built.Keys
      {
        assert ttls.Keys == built.Keys + (ttls.Keys - built.Keys);
        var resource :| resource in ttls.Keys - built.Keys;
        var cache := new TTLCache<V>(ttls[resource]);
        assert built[resource := cache].Values <= built.Values + {cache} by {
          assert forall r :: r in built && r != resource ==> built[r] in built.Values;
        }
        built := built[resource := cache];
      }
    }

    method GetResource(resource: string, now: real) returns (value: Option<V>)
      requires Valid()
      modifies stores.Values
      ensures View() == MemoryApply(ttls, old(View()), Access(resource, Request.GetResource, now, true))
      ensures value == if resource in ttls then Lookup(old(View())[resource], resource, now) else None
    {
      if resource in stores {
        value := stores[resource].Fetch(resource, now);
      } else {
        value := None;
      }
    }

    method SetResource(resource: string, value: V, now: real)
      requires Valid()
      modifies stores.Values
      ensures View() == MemoryApply(ttls, old(View()), Access(resource, Request.SetResource(value), now, true))
    {
      if resource in stores {
        stores[resource].Put(resource, value, now);
      }
    }

    method InvalidateResource(resource: string, now: real)
      requires Valid()
      modifies stores.Values
      ensures View() == MemoryApply(ttls, old(View()), Access(resource, Request.InvalidateResource, now, true))
    {
      if resource in stores {
        stores[resource].Invalidate(now);
      }
    }

    /** The contents and counters of every store. */
    method Counters() returns (r: map<string, Store<V>>)
      ensures r == View()
    {
      r := map k | k in stores :: Store(stores[k].store, stores[k].hits, stores[k].misses, stores[k].invalidations);
    }

    /** `cache_get`, `cache_set` and `cache_invalidate` on this backend. */
    method Serve(a: Access<V>) returns (answer: Option<V>)
      requires Valid()
      modifies stores.Values
      ensures View() == MemoryApply(ttls, old(View()), a)
      ensures answer == MemoryReply(ttls, old(View()), a)
    {
      answer := None;
      match a.request {
        case GetResource => answer := GetResource(a.resource, a.at);
        case SetResource(v) => SetResource(a.resource, v, a.at);
        case InvalidateResource => InvalidateResource(a.resource, a.at);
      }
    }
  }

  /** The Redis client with its in-process counters; `answered` is whether the server call succeeds. */
  class RedisCache<V> {
    const project: string
    const ttls: Ttls
    var state: Redis<V>

    constructor (project: string, ttls: Ttls)
      ensures this.project == project && this.ttls == ttls && state == RedisRun(project, ttls, [])
    {
      this.project, this.ttls := project, ttls;
      state := Redis(map[], map[], map[], map[], 0);
    }

    method GetResource(resource: string, now: real, answered: bool) returns (value: Option<V>)
      modifies this
      ensures state == RedisApply(project, ttls, old(state), Access(resource, Request.GetResource, now, answered))
      ensures state.db == old(state.db) && state.errors == old(state.errors) + if answered then 0 else 1
      ensures value == if answered then LookupIn(old(state).db, Key(project, resource), now) else None
    {
      if !answered {
        state := state.(misses := Incr(state.misses, resource), errors := state.errors + 1);
        return None;
      }
      value := LookupIn(state.db, Key(project, resource), now);
      if value.None? {
        state := state.(misses := Incr(state.misses, resource));
      } else {
        state := state.(hits := Incr(state.hits, resource));
      }
    }

    method SetResource(resource: string, value: V, now: real, answered: bool)
      modifies this
      ensures state == RedisApply(project, ttls, old(state),
                                  Access(resource, Request.SetResource(value), now, answered))
      ensures var lifetime := if resource in ttls then ttls[resource] else 30.0;
              if answered && lifetime > 0.0 then
                && state.db == old(state.db)["okastro:" + project + ":" + resource := Cached(value, now + lifetime)]
                && state.errors == old(state.errors)
              else state.db == old(state.db) && state.errors == old(state.errors) + 1
    {
      var lifetime := TtlFor(ttls, resource);
      if answered && lifetime > 0.0 {
        state := state.(db := state.db[Key(project, resource) := Cached(value, now + lifetime)]);
      } else {
        state := state.(errors := state.errors + 1);
      }
    }

    method InvalidateResource(resource: string, now: real, answered: bool)
      modifies this
      ensures state == RedisApply(project, ttls, old(state),
                                  Access(resource, Request.InvalidateResource, now, answered))
      ensures state.db == if answered then old(state.db) - {"okastro:" + project + ":" + resource} else old(state.db)
      ensures state.errors == old(state.errors) + if answered then 0 else 1
    {
      if answered {
        state := state.(db := state.db - {Key(project, resource)});
      } else {
        state := state.(errors := state.errors + 1);
      }
      state := state.(invalidations := Incr(state.invalidations, resource));
    }

    /** `cache_get`, `cache_set` and `cache_invalidate` on this backend. */
    method Serve(a: Access<V>) returns (answer: Option<V>)
      modifies this
      ensures state == RedisApply(project, ttls, old(state), a)
      ensures answer == RedisReply(project, old(state), a)
    {
      answer := None;
      match a.request {
        case GetResource => answer := GetResource(a.resource, a.at, a.answered);
        case SetResource(v) => SetResource(a.resource, v, a.at, a.answered);
        case InvalidateResource => InvalidateResource(a.resource, a.at, a.answered);
      }
    }
  }

  // ---------------------------------------------------------------------
  // Both backends under the same requests
  // ---------------------------------------------------------------------

  /** What the backends answer to the last of `accesses`: Redis by the latest write it took, memory alike while
      Redis is healthy and the resource is configured. */
  ghost predicate AnswersAgree<V>(ttls: Ttls, accesses: seq<Access<V>>, memory: Option<V>, redis: Option<V>)
    requires accesses != []
  {
    var n := |accesses| - 1;
    var a := accesses[n];
    && redis == (if a.request.GetResource? && a.answered then RedisLive(ttls, accesses[..n], a.resource, a.at)
                 else None)
    && (Healthy(accesses, a.at) && a.resource in ttls ==> memory == redis)
  }

  function MemoryReply<V>(ttls: Ttls, stores: map<string, Store<V>>, a: Access<V>): Option<V> {
    if a.request.GetResource? && a.resource in ttls && a.resource in stores
    then Lookup(stores[a.resource], a.resource, a.at) else None
  }

  function RedisReply<V>(project: string, s: Redis<V>, a: Access<V>): Option<V> {
    if a.request.GetResource? && a.answered then LookupIn(s.db, Key(project, a.resource), a.at) else None
  }

  /** What memory answers to each of `accesses`. */
  function MemoryReplies<V>(ttls: Ttls, accesses: seq<Access<V>>): seq<Option<V>> {
    if accesses == [] then [] else
    var n := |accesses| - 1;
    MemoryReplies(ttls, accesses[..n]) + [MemoryReply(ttls, MemoryRun(ttls, accesses[..n]), accesses[n])]
  }

  function RedisReplies<V>(project: string, ttls: Ttls, accesses: seq<Access<V>>): seq<Option<V>> {
    if accesses == [] then [] else
    var n := |accesses| - 1;
    RedisReplies(project, ttls, accesses[..n])
    + [RedisReply(project, RedisRun(project, ttls, accesses[..n]), accesses[n])]
  }

  lemma MemoryNext<V>(ttls: Ttls, accesses: seq<Access<V>>, i: nat)
    requires i < |accesses|
    ensures var stores := MemoryRun(ttls, accesses[..i]);
            && MemoryRun(ttls, accesses[..i + 1]) == MemoryApply(ttls, stores, accesses[i])
            && MemoryReplies(ttls, accesses[..i + 1]) ==
               MemoryReplies(ttls, accesses[..i]) + [MemoryReply(ttls, stores, accesses[i])]
  {
    PrefixOfPrefix(accesses, i + 1, i);
  }

  lemma RedisNext<V>(project: string, ttls: Ttls, accesses: seq<Access<V>>, i: nat)
    requires i < |accesses|
    ensures var s := RedisRun(project, ttls, accesses[..i]);
            && RedisRun(project, ttls, accesses[..i + 1]) == RedisApply(project, ttls, s, accesses[i])
            && RedisReplies(project, ttls, accesses[..i + 1]) ==
               RedisReplies(project, ttls, accesses[..i]) + [RedisReply(project, s, accesses[i])]
  {
    PrefixOfPrefix(accesses, i + 1, i);
  }

  method ReplayMemory<V>(ttls: Ttls, accesses: seq<Access<V>>)
    returns (memory: MemoryCacheBackend<V>, replies: seq<Option<V>>)
    ensures replies == MemoryReplies(ttls, accesses) && memory.View() == MemoryRun(ttls, accesses)
  {
    memory := new MemoryCacheBackend<V>(ttls);
    replies := [];
    var i := 0;
    while i < |accesses|
      invariant 0 <= i <= |accesses| && fresh(memory.stores.Values) && memory.Valid() && memory.ttls == ttls
      invariant memory.View() == MemoryRun(ttls, accesses[..i]) && replies == MemoryReplies(ttls, accesses[..i])
    {
      MemoryNext(ttls, accesses, i);
      var reply := memory.Serve(accesses[i]);
      replies := replies + [reply];
      i := i + 1;
    }
    WholePrefix(accesses);
  }

  method ReplayRedis<V>(project: string, ttls: Ttls, accesses: seq<Access<V>>)
    returns (redis: RedisCache<V>, replies: seq<Option<V>>)
    ensures replies == RedisReplies(project, ttls, accesses) && redis.state == RedisRun(project, ttls, accesses)
  {
    redis := new RedisCache<V>(project, ttls);
    replies := [];
    var i := 0;
    while i < |accesses|
      invariant 0 <= i <= |accesses| && fresh(redis) && redis.project == project && redis.ttls == ttls
      invariant redis.state == RedisRun(project, ttls, accesses[..i])
      invariant replies == RedisReplies(project, ttls, accesses[..i])
    {
      RedisNext(project, ttls, accesses, i);
      var reply := redis.Serve(accesses[i]);
      replies := replies + [reply];
      i := i + 1;
    }
    WholePrefix(accesses);
  }

  ghost predicate AllCountersAgree<V>(ttls: Ttls, memory: map<string, Store<V>>, redis: Redis<V>) {
    memory.Keys == ttls.Keys && forall r :: r in ttls ==> CountersAgree(memory[r], redis, r)
  }

  /** Any sequence of requests put to two fresh backends: answer by answer they agree as `AnswersAgree` says, and
      while Redis is healthy so do the counters of every configured resource. */
  method CompareBackends<V>(project: string, ttls: Ttls, accesses: seq<Access<V>>, ghost now: real)
    returns (fromMemory: seq<Option<V>>, fromRedis: seq<Option<V>>, stores: map<string, Store<V>>, redis: Redis<V>)
    ensures |fromMemory| == |fromRedis| == |accesses|
    ensures forall i :: 0 <= i < |accesses| ==> AnswersAgree(ttls, accesses[..i + 1], fromMemory[i], fromRedis[i])
    ensures Healthy(accesses, now) ==> AllCountersAgree(ttls, stores, redis)
  {
    var memory, cache;
    memory, fromMemory := ReplayMemory(ttls, accesses);
    stores := memory.Counters();
    cache, fromRedis := ReplayRedis(project, ttls, accesses);
    redis := cache.state;
    RepliesAgree(project, ttls, accesses);
    if Healthy(accesses, now) {
      forall r | r in ttls
        ensures CountersAgree(stores[r], redis, r)
      {
        SameCounters(project, ttls, accesses, r, now);
      }
    }
  }

  lemma LastReplyAgrees<V>(project: string, ttls: Ttls, accesses: seq<Access<V>>)
    requires accesses != []
    ensures var n := |accesses| - 1;
            AnswersAgree(ttls, accesses, MemoryReply(ttls, MemoryRun(ttls, accesses[..n]), accesses[n]),
                         RedisReply(project, RedisRun(project, ttls, accesses[..n]), accesses[n]))
  {
    var n := |accesses| - 1;
    var a := accesses[n];
    RedisAnswersLatestWrite(project, ttls, accesses[..n], a.resource, a.at);
    if Healthy(accesses, a.at) && a.resource in ttls {
      SameAnswer(project, ttls, accesses[..n], a.resource, a.at);
    }
  }

  lemma RepliesOfFront<V>(project: string, ttls: Ttls, accesses: seq<Access<V>>, i: nat)
    requires i < |accesses| - 1
    requires var front := accesses[..|accesses| - 1];
             |MemoryReplies(ttls, front)| == |RedisReplies(project, ttls, front)| == |front|
    ensures var front := accesses[..|accesses| - 1];
            && i < |MemoryReplies(ttls, accesses)| && i < |RedisReplies(project, ttls, accesses)|
            && MemoryReplies(ttls, accesses)[i] == MemoryReplies(ttls, front)[i]
            && RedisReplies(project, ttls, accesses)[i] == RedisReplies(project, ttls, front)[i]
  {
  }

  lemma {:induction false} RepliesAgree<V>(project: string, ttls: Ttls, accesses: seq<Access<V>>)
    ensures |MemoryReplies(ttls, accesses)| == |RedisReplies(project, ttls, accesses)| == |accesses|
    ensures forall i :: 0 <= i < |accesses| ==>
              AnswersAgree(ttls, accesses[..i + 1], MemoryReplies(ttls, accesses)[i],
                           RedisReplies(project, ttls, accesses)[i])
  {
    if accesses != [] {
      var n := |accesses| - 1;
      RepliesAgree(project, ttls, accesses[..n]);
      LastReplyAgrees(project, ttls, accesses);
      forall i | 0 <= i < |accesses|
        ensures AnswersAgree(ttls, accesses[..i + 1], MemoryReplies(ttls, accesses)[i],
                             RedisReplies(project, ttls, accesses)[i])
      {
        if i < n {
          PrefixOfPrefix(accesses, n, i + 1);
          RepliesOfFront(project, ttls, accesses, i);
        } else {
          WholePrefix(accesses);
        }
      }
    }
  }
}
