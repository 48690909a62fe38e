/**
 The TTL cache.  Every operation carries the time at which it runs; the store keeps expired entries
 until a get or an eviction meets them.  `Live` is the reference: it looks only at the history.
*/
module TtlCache {
  import opened Prelude

  datatype Cached<V> = Cached(value: V, expiresAt: real)

  datatype Store<V> = Store(entries: map<string, Cached<V>>, hits: nat, misses: nat, invalidations: nat)

  datatype Op<V> =
    | Get(key: string)
    | Set(key: string, value: V)
    | SetTtl(key: string, value: V, ttl: real)
    | Delete(key: string)
    | Clear
    | InvalidateAll
    | EvictExpired

  datatype Call<V> = Call(op: Op<V>, at: real)

  function EmptyStore<V>(): Store<V> {
    Store(map[], 0, 0, 0)
  }

  /** The value of a key whose entry has not expired. */
  function LookupIn<V>(entries: map<string, Cached<V>>, key: string, now: real): Option<V> {
    if key in entries && now < entries[key].expiresAt then Some(entries[key].value) else None
  }

  /** What a get at time `now` would answer. */
  function Lookup<V>(s: Store<V>, key: string, now: real): Option<V> {
    LookupIn(s.entries, key, now)
  }

  function Unexpired<V>(entries: map<string, Cached<V>>, now: real): map<string, Cached<V>> {
    map k | k in entries && now < entries[k].expiresAt :: entries[k]
  }

  function Apply<V>(ttl: real, s: Store<V>, c: Call<V>): Store<V> {
    match c.op
    case Get(k) =>
      if Lookup(s, k, c.at).Some? then s.(hits := s.hits + 1)
      else s.(entries := s.entries - {k}, misses := s.misses + 1)
    case Set(k, v) => s.(entries := s.entries[k := Cached(v, c.at + ttl)])
    case SetTtl(k, v, t) => s.(entries := s.entries[k := Cached(v, c.at + t)])
    case Delete(k) => s.(entries := s.entries - {k})
    case Clear => s.(entries := map[])
    case InvalidateAll => s.(entries := map[], invalidations := s.invalidations + 1)
    case EvictExpired => s.(entries := Unexpired(s.entries, c.at))
  }

  function Run<V>(ttl: real, calls: seq<Call<V>>): Store<V> {
    if calls == [] then EmptyStore() else Apply(ttl, Run(ttl, calls[..|calls| - 1]), calls[|calls| - 1])
  }

  /** The clock does not run backwards over `calls`, nor from there to `now`. */
  ghost predicate Monotone<V>(calls: seq<Call<V>>, now: real) {
    && (forall i, j :: 0 <= i < j < |calls| ==> calls[i].at <= calls[j].at)
    && (forall i :: 0 <= i < |calls| ==> calls[i].at <= now)
  }

  /** The reference: the latest write to the key is a set whose time-to-live has not elapsed. */
  function Live<V>(ttl: real, calls: seq<Call<V>>, key: string, now: real): Option<V> {
    if calls == [] then None else
    var last := calls[|calls| - 1];
    var earlier := calls[..|calls| - 1];
    match last.op
    case Set(k, v) =>
      if k == key then (if now < last.at + ttl then Some(v) else None) else Live(ttl, earlier, key, now)
    case SetTtl(k, v, t) =>
      if k == key then (if now < last.at + t then Some(v) else None) else Live(ttl, earlier, key, now)
    case Delete(k) => if k == key then None else Live(ttl, earlier, key, now)
    case Clear => None
    case InvalidateAll => None
    case Get(_) => Live(ttl, earlier, key, now)
    case EvictExpired => Live(ttl, earlier, key, now)
  }

  /** How one operation moves a later answer. */
  lemma ApplyLookup<V>(ttl: real, s: Store<V>, c: Call<V>, key: string, now: real)
    requires c.at <= now
    ensures Lookup(Apply(ttl, s, c), key, now) ==
            match c.op
            case Set(k, v) => if k != key then Lookup(s, key, now) else if now < c.at + ttl then Some(v) else None
            case SetTtl(k, v, t) => if k != key then Lookup(s, key, now) else if now < c.at + t then Some(v) else None
            case Delete(k) => if k != key then Lookup(s, key, now) else None
            case Clear => None
            case InvalidateAll => None
            case Get(_) => Lookup(s, key, now)
            case EvictExpired => Lookup(s, key, now)
  {
  }

  /** A get answers exactly what the history says, on every history with a monotone clock. */
  lemma {:induction false} GetIsLive<V>(ttl: real, calls: seq<Call<V>>, key: string, now: real)
    requires Monotone(calls, now)
    ensures Lookup(Run(ttl, calls), key, now) == Live(ttl, calls, key, now)
  {
    if calls != [] {
      var n := |calls| - 1;
      GetIsLive(ttl, calls[..n], key, now);
      ApplyLookup(ttl, Run(ttl, calls[..n]), calls[n], key, now);
    }
  }

  /** The answers of the gets among `calls`, by the store. */
  function Answers<V>(ttl: real, calls: seq<Call<V>>): seq<Option<V>> {
    if calls == [] then [] else
    var n := |calls| - 1;
    if calls[n].op.Get?
    then Answers(ttl, calls[..n]) + [Lookup(Run(ttl, calls[..n]), calls[n].op.key, calls[n].at)]
    else Answers(ttl, calls[..n])
  }

  lemma RunNext<V>(ttl: real, calls: seq<Call<V>>, c: Call<V>)
    ensures Run(ttl, calls + [c]) == Apply(ttl, Run(ttl, calls), c)
    ensures Answers(ttl, calls + [c]) ==
            Answers(ttl, calls) + if c.op.Get? then [Lookup(Run(ttl, calls), c.op.key, c.at)] else []
  {
    AppendFront(calls, c);
  }

  /** Which counter an operation moves. */
  lemma ApplyCounts<V>(ttl: real, s: Store<V>, c: Call<V>)
    ensures var t := Apply(ttl, s, c);
            var answered := c.op.Get? && Lookup(s, c.op.key, c.at).Some?;
            && t.hits == s.hits + (if answered then 1 else 0)
            && t.misses == s.misses + (if c.op.Get? && !answered then 1 else 0)
            && t.invalidations == s.invalidations + (if c.op.InvalidateAll? then 1 else 0)
  {
  }

  function WithoutEvictions<V>(calls: seq<Call<V>>): seq<Call<V>> {
    if calls == [] then [] else
    var n := |calls| - 1;
    if calls[n].op.EvictExpired? then WithoutEvictions(calls[..n])
    else WithoutEvictions(calls[..n]) + [calls[n]]
  }

  lemma {:induction false} EvictionsLeaveHistory<V>(ttl: real, calls: seq<Call<V>>, key: string, now: real)
    ensures Live(ttl, WithoutEvictions(calls), key, now) == Live(ttl, calls, key, now)
  {
    if calls != [] {
      var n := |calls| - 1;
      EvictionsLeaveHistory(ttl, calls[..n], key, now);
      var w := WithoutEvictions(calls[..n]);
      AppendFront(w, calls[n]);
    }
  }

  lemma {:induction false} WithoutEvictionsMembers<V>(calls: seq<Call<V>>)
    ensures forall c :: c in WithoutEvictions(calls) ==> c in calls
  {
    if calls != [] {
      WithoutEvictionsMembers(calls[..|calls| - 1]);
    }
  }

  lemma {:induction false} WithoutEvictionsMonotone<V>(calls: seq<Call<V>>, now: real)
    requires Monotone(calls, now)
    ensures Monotone(WithoutEvictions(calls), now)
  {
    if calls != [] {
      var n := |calls| - 1;
      WithoutEvictionsMonotone(calls[..n], calls[n].at);
      WithoutEvictionsMembers(calls[..n]);
    }
  }

  /** Evictions anywhere change no answer and no counter. */
  lemma {:induction false} EvictionsAreInvisible<V>(ttl: real, calls: seq<Call<V>>, now: real)
    requires Monotone(calls, now)
    ensures Answers(ttl, WithoutEvictions(calls)) == Answers(ttl, calls)
    ensures var s, t := Run(ttl, calls), Run(ttl, WithoutEvictions(calls));
            s.hits == t.hits && s.misses == t.misses && s.invalidations == t.invalidations
  {
    if calls != [] {
      var n := |calls| - 1;
      var c := calls[n];
      var w := WithoutEvictions(calls[..n]);
      assert Monotone(calls[..n], c.at);
      EvictionsAreInvisible(ttl, calls[..n], c.at);
      ApplyCounts(ttl, Run(ttl, calls[..n]), c);
      if !c.op.EvictExpired? {
        RunNext(ttl, w, c);
        ApplyCounts(ttl, Run(ttl, w), c);
        if c.op.Get? {
          WithoutEvictionsMonotone(calls[..n], c.at);
          GetIsLive(ttl, calls[..n], c.op.key, c.at);
          GetIsLive(ttl, w, c.op.key, c.at);
          EvictionsLeaveHistory(ttl, calls[..n], c.op.key, c.at);
        }
      }
    }
  }

  function CountGets<V>(calls: seq<Call<V>>): nat {
    if calls == [] then 0
    else CountGets(calls[..|calls| - 1]) + if calls[|calls| - 1].op.Get? then 1 else 0
  }

  function CountSome<V>(answers: seq<Option<V>>): nat {
    if answers == [] then 0
    else CountSome(answers[..|answers| - 1]) + if answers[|answers| - 1].Some? then 1 else 0
  }

  lemma CountSomeNext<V>(answers: seq<Option<V>>, a: Option<V>)
    ensures CountSome(answers + [a]) == CountSome(answers) + if a.Some? then 1 else 0
  {
    AppendFront(answers, a);
  }

  /** Every get is one hit or one miss, and the hits are the gets that were answered. */
  lemma {:induction false} CountersMatchAnswers<V>(ttl: real, calls: seq<Call<V>>)
    ensures Run(ttl, calls).hits + Run(ttl, calls).misses == CountGets(calls) == |Answers(ttl, calls)|
    ensures Run(ttl, calls).hits == CountSome(Answers(ttl, calls))
  {
    if calls != [] {
      var n := |calls| - 1;
      CountersMatchAnswers(ttl, calls[..n]);
      var s := Run(ttl, calls[..n]);
      ApplyCounts(ttl, s, calls[n]);
      if calls[n].op.Get? {
        CountSomeNext(Answers(ttl, calls[..n]), Lookup(s, calls[n].op.key, calls[n].at));
      }
    }
  }

  // ---------------------------------------------------------------------
  // The cache as code
  // ---------------------------------------------------------------------

  function ExpiredKeys<V>(entries: map<string, Cached<V>>, now: real): set<string> {
    set k | k in entries && entries[k].expiresAt <= now
  }

  lemma RemoveOneMore<V>(entries: map<string, Cached<V>>, done: set<string>, k: string)
    ensures entries - done - {k} == entries - (done + {k})
  {
  }

  lemma RemoveExpired<V>(entries: map<string, Cached<V>>, now: real)
    ensures entries - ExpiredKeys(entries, now) == Unexpired(entries, now)
    ensures |entries| == |Unexpired(entries, now)| + |ExpiredKeys(entries, now)|
  {
    assert entries.Keys == Unexpired(entries, now).Keys + ExpiredKeys(entries, now);
  }

  class TTLCache<V> {
    const ttl: real
    var store: map<string, Cached<V>>
    var hits: nat
    var misses: nat
    var invalidations: nat

    ghost function View(): Store<V>
      reads this
    {
      Store(store, hits, misses, invalidations)
    }

    constructor (ttl: real)
      ensures this.ttl == ttl && View() == EmptyStore()
    {
      this.ttl := ttl;
      store, hits, misses, invalidations := map[], 0, 0, 0;
    }

    method Fetch(key: string, now: real) returns (r: Option<V>)
      modifies this
      ensures View() == Apply(ttl, old(View()), Call(Get(key), now))
      ensures r == Lookup(old(View()), key, now)
      ensures r.Some? ==> key in old(store) && now < old(store)[key].expiresAt && store == old(store)
      ensures r.None? ==> store == old(store) - {key}
    {
      if key !in store {
        misses := misses + 1;
        assert store - {key} == store;
        return None;
      }
      if now >= store[key].expiresAt {
        store := store - {key};
        misses := misses + 1;
        return None;
      }
      hits := hits + 1;
      r := Some(store[key].value);
    }

    method Put(key: string, value: V, now: real)
      modifies this
      ensures View() == Apply(ttl, old(View()), Call(Set(key, value), now))
      ensures store == old(store)[key := Cached(value, now + ttl)]
    {
      store := store[key := Cached(value, now + ttl)];
    }

    method PutTtl(key: string, value: V, ttlSeconds: real, now: real)
      modifies this
      ensures View() == Apply(ttl, old(View()), Call(SetTtl(key, value, ttlSeconds), now))
      ensures store == old(store)[key := Cached(value, now + ttlSeconds)]
    {
      store := store[key := Cached(value, now + ttlSeconds)];
    }

    method Remove(key: string, now: real)
      modifies this
      ensures View() == Apply(ttl, old(View()), Call(Delete(key), now))
    {
      store := store - {key};
    }

    method Wipe(now: real)
      modifies this
      ensures View() == Apply(ttl, old(View()), Call(Clear, now))
    {
      store := map[];
    }

    method Invalidate(now: real)
      modifies this
      ensures View() == Apply(ttl, old(View()), Call(InvalidateAll, now))
    {
      store := map[];
      invalidations := invalidations + 1;
    }

    /** Collects the expired keys and deletes them one by one. */
    method Evict(now: real) returns (count: nat)
      modifies this
      ensures View() == Apply(ttl, old(View()), Call(EvictExpired, now))
      ensures forall k :: k in store <==> k in old(store) && now < old(store)[k].expiresAt
      ensures forall k :: k in store ==> store[k] == old(store)[k]
      ensures count == |old(store)| - |store|
    {
      var expired := ExpiredKeys(store, now);
      var done: set<string> := {};
      while done != expired
        invariant done <= expired
        invariant store == old(store) - done
        invariant hits == old(hits) && misses == old(misses) && invalidations == old(invalidations)
        decreases expired - done
      {
        assert expired == done + (expired - done);
        var k :| k in expired - done;
        RemoveOneMore(old(store), done, k);
        store := store - {k};
        done := done + {k};
      }
      RemoveExpired(old(store), now);
      count := |expired|;
    }

    /** The method that a call stands for; a get adds its answer. */
    method Handle(c: Call<V>) returns (answer: seq<Option<V>>)
      modifies this
      ensures View() == Apply(ttl, old(View()), c)
      ensures answer == if c.op.Get? then [Lookup(old(View()), c.op.key, c.at)] else []
    {
      answer := [];
      match c.op {
        case Get(k) =>
          var value := Fetch(k, c.at);
          answer := [value];
        case Set(k, v) => Put(k, v, c.at);
        case SetTtl(k, v, t) => PutTtl(k, v, t, c.at);
        case Delete(k) => Remove(k, c.at);
        case Clear => Wipe(c.at);
        case InvalidateAll => Invalidate(c.at);
        case EvictExpired => var _ := Evict(c.at);
      }
    }
  }

  lemma CallsNext<V>(ttl: real, calls: seq<Call<V>>, i: nat)
    requires i < |calls|
    ensures Run(ttl, calls[..i + 1]) == Apply(ttl, Run(ttl, calls[..i]), calls[i])
    ensures Answers(ttl, calls[..i + 1]) ==
            Answers(ttl, calls[..i])
            + if calls[i].op.Get? then [Lookup(Run(ttl, calls[..i]), calls[i].op.key, calls[i].at)] else []
  {
    RunNext(ttl, calls[..i], calls[i]);
    assert calls[..i] + [calls[i]] == calls[..i + 1];
  }

  /** A cache under any sequence of calls: its answers are those of a cache that is never evicted, as long as the
      clock is monotone, and its counters are those of the answers. */
  method Replay<V>(ttl: real, calls: seq<Call<V>>, ghost now: real)
    returns (cache: TTLCache<V>, answers: seq<Option<V>>)
    ensures fresh(cache) && cache.View() == Run(ttl, calls) && answers == Answers(ttl, calls)
    ensures Monotone(calls, now) ==> answers == Answers(ttl, WithoutEvictions(calls))
    ensures cache.hits == CountSome(answers) && cache.hits + cache.misses == |answers|
  {
    cache := new TTLCache<V>(ttl);
    answers := [];
    var i := 0;
    while i < |calls|
      invariant 0 <= i <= |calls| && fresh(cache) && cache.ttl == ttl
      invariant cache.View() == Run(ttl, calls[..i]) && answers == Answers(ttl, calls[..i])
    {
      CallsNext(ttl, calls, i);
      var answer := cache.Handle(calls[i]);
      answers := answers + answer;
      i := i + 1;
    }
    WholePrefix(calls);
    CountersMatchAnswers(ttl, calls);
    if Monotone(calls, now) {
      EvictionsAreInvisible(ttl, calls, now);
    }
  }
}
