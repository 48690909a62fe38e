/**
 Cache-aside listing as `VolumeService` does it: look in the cache, else fetch from the backend and store.
 Requests run in a thread pool, so get, fetch, store, backend change and invalidate of different requests
 interleave; each of them is one event.
*/
module CacheAside {
  import opened Prelude
  import opened TtlCache

  const KEY := "volumes"

  /** The backend listing since some instant. */
  datatype Version<V> = Version(listing: V, since: real)

  /** A listing with its origin: fetched when version `version` was current, stored when `filledVersion` was. */
  datatype Fill<V> = Fill(listing: V, version: nat, fetchedAt: real, filledAt: real, filledVersion: nat)

  datatype Lister = Missed | Fetched(version: nat, at: real)

  /** What a `list_volumes` call returned, and when. */
  datatype Answer<V> = Answer(fill: Fill<V>, returnedAt: real)

  datatype Event<V> =
    | Advance(to: real)
    | GetCached(lister: nat)
    | FetchList(lister: nat)
    | StoreList(lister: nat)
    | Mutate(mutator: nat, listing: V)
    | Invalidate(mutator: nat)
    | OutsideChange(listing: V)

  /** `pending` are the create and delete requests between their backend change and their invalidate, each with the
      version its change made. */
  datatype State<V> = State(
    now: real, versions: seq<Version<V>>, cache: Store<Fill<V>>, listers: map<nat, Lister>, pending: map<nat, nat>,
    answers: seq<Answer<V>>)

  function Init<V>(listing: V, now: real): State<V> {
    State(now, [Version(listing, now)], EmptyStore(), map[], map[], [])
  }

  function Changed<V>(s: State<V>, listing: V): State<V> {
    s.(versions := s.versions + [Version(listing, s.now)])
  }

  function StepGet<V>(ttl: real, s: State<V>, l: nat): State<V> {
    var hit := Lookup(s.cache, KEY, s.now);
    var t := s.(cache := Apply(ttl, s.cache, Call(Get(KEY), s.now)));
    match hit
    case Some(fill) => t.(answers := s.answers + [Answer(fill, s.now)])
    case None => t.(listers := s.listers[l := Missed])
  }

  function StepStore<V>(ttl: real, s: State<V>, l: nat, version: nat, at: real): State<V>
    requires version < |s.versions|
  {
    var fill := Fill(s.versions[version].listing, version, at, s.now, |s.versions| - 1);
    s.(cache := Apply(ttl, s.cache, Call(Set(KEY, fill), s.now)), listers := s.listers - {l},
       answers := s.answers + [Answer(fill, s.now)])
  }

  function Step<V>(ttl: real, s: State<V>, ev: Event<V>): Option<State<V>> {
    match ev
    case Advance(to) => if s.now <= to then Some(s.(now := to)) else None
    case GetCached(l) => if l in s.listers then None else Some(StepGet(ttl, s, l))
    case FetchList(l) =>
      if l in s.listers && s.listers[l].Missed? && s.versions != []
      then Some(s.(listers := s.listers[l := Fetched(|s.versions| - 1, s.now)])) else None
    case StoreList(l) =>
      if l in s.listers && s.listers[l].Fetched? && s.listers[l].version < |s.versions|
      then Some(StepStore(ttl, s, l, s.listers[l].version, s.listers[l].at)) else None
    case Mutate(m, listing) =>
      if m in s.pending then None else Some(Changed(s, listing).(pending := s.pending[m := |s.versions|]))
    case Invalidate(m) =>
      if m !in s.pending then None
      else Some(s.(cache := Apply(ttl, s.cache, Call(InvalidateAll, s.now)), pending := s.pending - {m}))
    case OutsideChange(listing) => Some(Changed(s, listing))
  }

  function Run<V>(ttl: real, listing: V, start: real, evs: seq<Event<V>>): Option<State<V>> {
    if evs == [] then Some(Init(listing, start)) else
    match Run(ttl, listing, start, evs[..|evs| - 1])
    case None => None
    case Some(s) => Step(ttl, s, evs[|evs| - 1])
  }

  // ---------------------------------------------------------------------
  // Bounded staleness
  // ---------------------------------------------------------------------

  /** Version `k` was the backend's listing at instant `t`. */
  ghost predicate CurrentAt<V>(versions: seq<Version<V>>, k: nat, t: real) {
    k < |versions| && versions[k].since <= t && (k + 1 < |versions| ==> t <= versions[k + 1].since)
  }

  ghost predicate Genuine<V>(versions: seq<Version<V>>, f: Fill<V>) {
    && CurrentAt(versions, f.version, f.fetchedAt) && f.listing == versions[f.version].listing
    && f.version <= f.filledVersion < |versions|
    && f.fetchedAt <= f.filledAt
  }

  /** The listing was the backend's at `fetchedAt`, and it is returned within the time-to-live of the moment
      it was stored, or at that very moment by the request that fetched it. */
  ghost predicate Bounded<V>(ttl: real, versions: seq<Version<V>>, a: Answer<V>) {
    && Genuine(versions, a.fill)
    && a.fill.filledAt <= a.returnedAt
    && (a.returnedAt == a.fill.filledAt
        || a.returnedAt - a.fill.fetchedAt < ttl + (a.fill.filledAt - a.fill.fetchedAt))
  }

  ghost predicate CacheOk<V>(ttl: real, s: State<V>) {
    KEY in s.cache.entries ==>
      var e := s.cache.entries[KEY];
      Genuine(s.versions, e.value) && e.value.filledAt <= s.now && e.expiresAt == e.value.filledAt + ttl
  }

  ghost predicate ListersOk<V>(s: State<V>) {
    forall l :: l in s.listers && s.listers[l].Fetched? ==>
      CurrentAt(s.versions, s.listers[l].version, s.listers[l].at) && s.listers[l].at <= s.now
  }

  ghost predicate Inv<V>(ttl: real, s: State<V>) {
    && s.versions != [] && s.versions[|s.versions| - 1].since <= s.now
    && CacheOk(ttl, s) && ListersOk(s)
    && (forall i :: 0 <= i < |s.answers| ==> Bounded(ttl, s.versions, s.answers[i]) && s.answers[i].returnedAt <= s.now)
  }

  lemma ChangeKeepsInv<V>(ttl: real, s: State<V>, listing: V)
    requires Inv(ttl, s)
    ensures Inv(ttl, Changed(s, listing))
  {
  }

  lemma GetKeepsInv<V>(ttl: real, s: State<V>, l: nat)
    requires Inv(ttl, s) && l !in s.listers
    ensures Inv(ttl, StepGet(ttl, s, l))
  {
  }

  lemma StoreKeepsInv<V>(ttl: real, s: State<V>, l: nat)
    requires Inv(ttl, s) && l in s.listers && s.listers[l].Fetched?
    ensures s.listers[l].version < |s.versions| && Inv(ttl, StepStore(ttl, s, l, s.listers[l].version, s.listers[l].at))
  {
  }

  lemma StepKeepsInv<V>(ttl: real, s: State<V>, ev: Event<V>)
    requires Inv(ttl, s) && Step(ttl, s, ev).Some?
    ensures Inv(ttl, Step(ttl, s, ev).value)
  {
    match ev {
      case GetCached(l) => GetKeepsInv(ttl, s, l);
      case StoreList(l) => StoreKeepsInv(ttl, s, l);
      case Mutate(_, listing) => ChangeKeepsInv(ttl, s, listing);
      case OutsideChange(listing) => ChangeKeepsInv(ttl, s, listing);
      case _ =>
    }
  }

  /** In every interleaving each returned list was the backend's listing at an instant no older than the
      time-to-live plus the fetch-to-store time of the request that filled the cache. */
  lemma {:induction false} ListsAreBoundedStale<V>(ttl: real, listing: V, start: real, evs: seq<Event<V>>)
    requires Run(ttl, listing, start, evs).Some?
    ensures Inv(ttl, Run(ttl, listing, start, evs).value)
    ensures var s := Run(ttl, listing, start, evs).value;
            forall i :: 0 <= i < |s.answers| ==> Bounded(ttl, s.versions, s.answers[i])
  {
    if evs != [] {
      var n := |evs| - 1;
      ListsAreBoundedStale(ttl, listing, start, evs[..n]);
      StepKeepsInv(ttl, Run(ttl, listing, start, evs[..n]).value, evs[n]);
    }
  }

  // ---------------------------------------------------------------------
  // Exactly when the cache is stale
  // ---------------------------------------------------------------------

  predicate NoOutsideChange<V>(evs: seq<Event<V>>) {
    forall k :: 0 <= k < |evs| ==> !evs[k].OutsideChange?
  }

  ghost predicate MadeByPending(pending: map<nat, nat>, v: nat) {
    exists m :: m in pending && pending[m] == v
  }

  lemma MutateKeepsPending(pending: map<nat, nat>, m: nat, made: nat, v: nat)
    requires m !in pending && (MadeByPending(pending, v) || v == made)
    ensures MadeByPending(pending[m := made], v)
  {
    if v == made {
      assert pending[m := made][m] == v;
    } else {
      var k :| k in pending && pending[k] == v;
      assert pending[m := made][k] == v;
    }
  }

  /** When all changes go through the service, every version later than a cached entry was made by a request that
      has not reached its invalidate yet. */
  lemma {:induction false} ChangesAfterFillArePending<V>(ttl: real, listing: V, start: real, evs: seq<Event<V>>)
    requires Run(ttl, listing, start, evs).Some? && NoOutsideChange(evs)
    ensures var s := Run(ttl, listing, start, evs).value;
            KEY in s.cache.entries ==>
              forall v :: s.cache.entries[KEY].value.filledVersion < v < |s.versions| ==> MadeByPending(s.pending, v)
  {
    if evs != [] {
      var n := |evs| - 1;
      ChangesAfterFillArePending(ttl, listing, start, evs[..n]);
      var s, t := Run(ttl, listing, start, evs[..n]).value, Run(ttl, listing, start, evs).value;
      if KEY in t.cache.entries && evs[n].Mutate? {
        forall v | t.cache.entries[KEY].value.filledVersion < v < |t.versions|
          ensures MadeByPending(t.pending, v)
        {
          MutateKeepsPending(s.pending, evs[n].mutator, |s.versions|, v);
        }
      }
    }
  }

  predicate IsChange<V>(ev: Event<V>) {
    ev.Mutate? || ev.OutsideChange?
  }

  /** How often the backend changed. */
  function Changes<V>(evs: seq<Event<V>>): nat {
    if evs == [] then 0 else Changes(evs[..|evs| - 1]) + if IsChange(evs[|evs| - 1]) then 1 else 0
  }

  lemma {:induction false} VersionsAreChanges<V>(ttl: real, listing: V, start: real, evs: seq<Event<V>>)
    requires Run(ttl, listing, start, evs).Some?
    ensures |Run(ttl, listing, start, evs).value.versions| == 1 + Changes(evs)
  {
    if evs != [] {
      VersionsAreChanges(ttl, listing, start, evs[..|evs| - 1]);
    }
  }

  lemma {:induction false} ChangesGrow<V>(evs: seq<Event<V>>, i: nat, j: nat)
    requires i <= j <= |evs|
    ensures Changes(evs[..i]) <= Changes(evs[..j])
    ensures i < j && IsChange(evs[i]) ==> Changes(evs[..i]) < Changes(evs[..j])
  {
    if i < j {
      PrefixOfPrefix(evs, j, j - 1);
      ChangesGrow(evs, i, j - 1);
    }
  }

  /** The listing was fetched by event `f` and stored by event `g` of the same request. */
  ghost predicate FilledBy<V>(evs: seq<Event<V>>, f: nat, g: nat, fill: Fill<V>) {
    && f < g < |evs|
    && evs[f].FetchList? && evs[g] == StoreList(evs[f].lister)
    && fill.version == Changes(evs[..f])
  }

  /** The change made by event `p` went through the service and its request has invalidated the cache. */
  ghost predicate Finished<V>(evs: seq<Event<V>>, p: nat) {
    p < |evs| && evs[p].Mutate? && exists q :: p < q < |evs| && evs[q] == Invalidate(evs[p].mutator)
  }

  /** The listing is a version from before the change made by event `p`. */
  ghost predicate Misses<V>(evs: seq<Event<V>>, p: nat, fill: Fill<V>) {
    p < |evs| && fill.version <= Changes(evs[..p])
  }

  lemma {:induction false} ListerOrigin<V>(ttl: real, listing: V, start: real, evs: seq<Event<V>>, l: nat)
    returns (f: nat)
    requires Run(ttl, listing, start, evs).Some?
    requires var s := Run(ttl, listing, start, evs).value; l in s.listers && s.listers[l].Fetched?
    ensures f < |evs| && evs[f] == FetchList(l)
    ensures Run(ttl, listing, start, evs).value.listers[l].version == Changes(evs[..f])
  {
    var n := |evs| - 1;
    if evs[n] == FetchList(l) {
      f := n;
      VersionsAreChanges(ttl, listing, start, evs[..n]);
    } else {
      f := ListerOrigin(ttl, listing, start, evs[..n], l);
      PrefixOfPrefix(evs, n, f);
    }
  }

  /** Where a cached listing comes from; nothing has been invalidated since it was stored. */
  lemma {:induction false} FillOrigin<V>(ttl: real, listing: V, start: real, evs: seq<Event<V>>)
    returns (f: nat, g: nat)
    requires Run(ttl, listing, start, evs).Some? && KEY in Run(ttl, listing, start, evs).value.cache.entries
    ensures FilledBy(evs, f, g, Run(ttl, listing, start, evs).value.cache.entries[KEY].value)
    ensures forall k :: g < k < |evs| ==> !evs[k].Invalidate?
  {
    var n := |evs| - 1;
    if evs[n].StoreList? {
      f := ListerOrigin(ttl, listing, start, evs[..n], evs[n].lister);
      g := n;
    } else {
      f, g := FillOrigin(ttl, listing, start, evs[..n]);
    }
    PrefixOfPrefix(evs, n, f);
  }

  lemma MissesIffAfterFetch<V>(evs: seq<Event<V>>, f: nat, g: nat, fill: Fill<V>, p: nat)
    requires FilledBy(evs, f, g, fill) && p < |evs| && evs[p].Mutate?
    ensures Misses(evs, p, fill) <==> f < p
  {
    if f < p {
      ChangesGrow(evs, f, p);
    } else {
      ChangesGrow(evs, p, f);
    }
  }

  /** Of the changes finished in `past`, the listing misses exactly those between the fetch and the store. */
  ghost predicate MissesOnlyRaced<V>(evs: seq<Event<V>>, past: seq<Event<V>>, fill: Fill<V>, f: nat, g: nat) {
    && FilledBy(evs, f, g, fill)
    && forall p: nat :: Finished(past, p) ==> (Misses(evs, p, fill) <==> f < p < g)
  }

  ghost predicate StaleByRaceOnly<V>(evs: seq<Event<V>>, past: seq<Event<V>>, fill: Fill<V>) {
    exists f, g :: MissesOnlyRaced(evs, past, fill, f, g)
  }

  /** A change that is finished before the next invalidate after `g` was made before `g`. */
  lemma FinishedBefore<V>(past: seq<Event<V>>, g: nat, p: nat)
    requires Finished(past, p) && forall k :: g < k < |past| ==> !past[k].Invalidate?
    ensures p < g
  {
  }

  lemma RaceExplains<V>(evs: seq<Event<V>>, n: nat, fill: Fill<V>, f: nat, g: nat)
    requires n <= |evs| && FilledBy(evs, f, g, fill)
    requires forall k :: g < k < n ==> !evs[k].Invalidate?
    ensures StaleByRaceOnly(evs, evs[..n], fill)
  {
    forall p: nat | Finished(evs[..n], p)
      ensures Misses(evs, p, fill) <==> f < p < g
    {
      FinishedBefore(evs[..n], g, p);
      assert evs[p] == evs[..n][p];
      MissesIffAfterFetch(evs, f, g, fill, p);
    }
    assert MissesOnlyRaced(evs, evs[..n], fill, f, g);
  }

  /** In every reachable state, whatever is under way: a cached list misses a finished change exactly when that
      change fell between the fetch and the store that filled the cache. */
  lemma StaleIffFillRaced<V>(ttl: real, listing: V, start: real, evs: seq<Event<V>>)
    requires Run(ttl, listing, start, evs).Some? && KEY in Run(ttl, listing, start, evs).value.cache.entries
    ensures StaleByRaceOnly(evs, evs, Run(ttl, listing, start, evs).value.cache.entries[KEY].value)
  {
    var f, g := FillOrigin(ttl, listing, start, evs);
    RaceExplains(evs, |evs|, Run(ttl, listing, start, evs).value.cache.entries[KEY].value, f, g);
    WholePrefix(evs);
  }

  /** The last event answered a list request. */
  ghost predicate JustAnswered<V>(ttl: real, listing: V, start: real, evs: seq<Event<V>>) {
    && evs != [] && Run(ttl, listing, start, evs).Some?
    && |Run(ttl, listing, start, evs).value.answers| > |Run(ttl, listing, start, evs[..|evs| - 1]).value.answers|
  }

  /** The listing that the last event returned. */
  ghost function LastFill<V>(ttl: real, listing: V, start: real, evs: seq<Event<V>>): Fill<V>
    requires JustAnswered(ttl, listing, start, evs)
  {
    var answers := Run(ttl, listing, start, evs).value.answers;
    answers[|answers| - 1].fill
  }

  lemma AnswerOrigin<V>(ttl: real, listing: V, start: real, evs: seq<Event<V>>) returns (f: nat, g: nat)
    requires JustAnswered(ttl, listing, start, evs)
    ensures FilledBy(evs, f, g, LastFill(ttl, listing, start, evs))
    ensures forall k :: g < k < |evs| - 1 ==> !evs[k].Invalidate?
  {
    var n := |evs| - 1;
    if evs[n].StoreList? {
      f := ListerOrigin(ttl, listing, start, evs[..n], evs[n].lister);
      g := n;
    } else {
      f, g := FillOrigin(ttl, listing, start, evs[..n]);
    }
    PrefixOfPrefix(evs, n, f);
  }

  /** The same for what the callers get: a returned list misses a change that was finished before it was returned
      exactly when that change fell between the fetch and the store of the request that filled the cache. */
  lemma AnswerStaleIffRaced<V>(ttl: real, listing: V, start: real, evs: seq<Event<V>>)
    requires JustAnswered(ttl, listing, start, evs)
    ensures StaleByRaceOnly(evs, evs[..|evs| - 1], LastFill(ttl, listing, start, evs))
  {
    var f, g := AnswerOrigin(ttl, listing, start, evs);
    RaceExplains(evs, |evs| - 1, LastFill(ttl, listing, start, evs), f, g);
  }

  lemma RunExtend<V>(ttl: real, listing: V, start: real, evs: seq<Event<V>>, ev: Event<V>)
    requires Run(ttl, listing, start, evs).Some?
    ensures Run(ttl, listing, start, evs + [ev]) == Step(ttl, Run(ttl, listing, start, evs).value, ev)
  {
    AppendFront(evs, ev);
  }

  /** One request fetches, then another changes the backend and invalidates. */
  function FetchThenChange<V>(after: V): seq<Event<V>> {
    [GetCached(1), FetchList(1)] + [Mutate(2, after), Invalidate(2)]
  }

  lemma AfterMiss<V>(ttl: real, before: V, start: real)
    ensures Run(ttl, before, start, [GetCached(1)]) ==
            Some(State(start, [Version(before, start)], Store(map[], 0, 1, 0), map[1 := Missed], map[], []))
  {
    RunExtend(ttl, before, start, [], GetCached(1));
    assert [] + [GetCached(1)] == [Event<V>.GetCached(1)];
    var none: map<string, Cached<Fill<V>>> := map[];
    assert none - {KEY} == none;
  }

  lemma AfterFetch<V>(ttl: real, before: V, start: real)
    ensures Run(ttl, before, start, [GetCached(1), FetchList(1)]) ==
            Some(State(start, [Version(before, start)], Store(map[], 0, 1, 0), map[1 := Fetched(0, start)], map[], []))
  {
    AfterMiss(ttl, before, start);
    assert map[1 := Lister.Missed][1 := Fetched(0, start)] == map[1 := Fetched(0, start)];
    RunExtend(ttl, before, start, [GetCached(1)], FetchList(1));
    assert [GetCached(1)] + [FetchList(1)] == [Event<V>.GetCached(1), FetchList(1)];
  }

  lemma AfterChange<V>(ttl: real, before: V, after: V, start: real)
    ensures Run(ttl, before, start, FetchThenChange(after)) ==
            Some(State(start, [Version(before, start), Version(after, start)], Store(map[], 0, 1, 1),
                       map[1 := Fetched(0, start)], map[], []))
  {
    var evs := [GetCached(1), FetchList(1)];
    AfterFetch(ttl, before, start);
    RunExtend(ttl, before, start, evs, Mutate(2, after));
    RunExtend(ttl, before, start, evs + [Mutate(2, after)], Invalidate(2));
    var none: map<nat, nat> := map[];
    assert none[2 := 1] - {2} == none;
    assert [Version(before, start)] + [Version(after, start)] == [Version(before, start), Version(after, start)];
    assert evs + [Mutate(2, after)] + [Invalidate(2)] == FetchThenChange(after);
  }

  /** The race is real: the first request stores what it fetched, and a list that starts after the change was
      made and invalidated still returns the listing from before it. */
  lemma InvalidateCanBeOvertaken<V>(ttl: real, before: V, after: V, start: real)
    requires ttl > 0.0
    ensures var run := Run(ttl, before, start, FetchThenChange(after) + [StoreList(1)] + [GetCached(3)]);
            && run.Some?
            && var s := run.value;
               && s.pending == map[] && s.versions != [] && s.versions[|s.versions| - 1].listing == after
               && |s.answers| == 2 && s.answers[1].fill.listing == before
  {
    var evs := FetchThenChange(after);
    AfterChange(ttl, before, after, start);
    RunExtend(ttl, before, start, evs, StoreList(1));
    RunExtend(ttl, before, start, evs + [StoreList(1)], GetCached(3));
  }

  // ---------------------------------------------------------------------
  // One request at a time
  // ---------------------------------------------------------------------

  /** Requests whose backend calls succeed; a delete that the backend refuses changes nothing. */
  datatype Request<V> = List | Create(after: V) | Delete(after: V) | RefusedDelete

  datatype Timed<V> = Timed(request: Request<V>, at: real)

  /** The service without any cache: listing answers the backend's listing. */
  function Uncached<V>(backend: V, rs: seq<Timed<V>>): seq<V> {
    if rs == [] then [] else
    match rs[0].request
    case List => [backend] + Uncached(backend, rs[1..])
    case Create(after) => Uncached(after, rs[1..])
    case Delete(after) => Uncached(after, rs[1..])
    case RefusedDelete => Uncached(backend, rs[1..])
  }

  /** The service over its cache. */
  function CachedService<V>(ttl: real, backend: V, cache: Store<V>, rs: seq<Timed<V>>): seq<V>
    decreases |rs|
  {
    if rs == [] then [] else
    var now := rs[0].at;
    match rs[0].request
    case List =>
      var got := Apply(ttl, cache, Call(Get(KEY), now));
      (match Lookup(cache, KEY, now)
       case Some(v) => [v] + CachedService(ttl, backend, got, rs[1..])
       case None => [backend] + CachedService(ttl, backend, Apply(ttl, got, Call(Set(KEY, backend), now)), rs[1..]))
    case Create(after) => CachedService(ttl, after, Apply(ttl, cache, Call(InvalidateAll, now)), rs[1..])
    case Delete(after) => CachedService(ttl, after, Apply(ttl, cache, Call(InvalidateAll, now)), rs[1..])
    case RefusedDelete => CachedService(ttl, backend, cache, rs[1..])
  }

  ghost predicate Coherent<V>(backend: V, cache: Store<V>) {
    KEY in cache.entries ==> cache.entries[KEY].value == backend
  }

  /** One request at a time, the cached service cannot be told from one with no cache. */
  lemma {:induction false} CacheIsTransparent<V>(ttl: real, backend: V, cache: Store<V>, rs: seq<Timed<V>>)
    requires Coherent(backend, cache)
    ensures CachedService(ttl, backend, cache, rs) == Uncached(backend, rs)
    decreases |rs|
  {
    if rs != [] {
      var now := rs[0].at;
      match rs[0].request
      case List =>
        var got := Apply(ttl, cache, Call(Get(KEY), now));
        if Lookup(cache, KEY, now).Some? {
          CacheIsTransparent(ttl, backend, got, rs[1..]);
        } else {
          CacheIsTransparent(ttl, backend, Apply(ttl, got, Call(Set(KEY, backend), now)), rs[1..]);
        }
      case Create(after) => CacheIsTransparent(ttl, after, Apply(ttl, cache, Call(InvalidateAll, now)), rs[1..]);
      case Delete(after) => CacheIsTransparent(ttl, after, Apply(ttl, cache, Call(InvalidateAll, now)), rs[1..]);
      case RefusedDelete => CacheIsTransparent(ttl, backend, cache, rs[1..]);
    }
  }

  /** Over all runs of requests, the cache cannot be noticed exactly when what it holds at the start, if anything,
      is the backend's listing. */
  lemma TransparentIffCoherent<V(!new)>(ttl: real, backend: V, cache: Store<V>)
    ensures (forall rs :: CachedService(ttl, backend, cache, rs) == Uncached(backend, rs)) <==> Coherent(backend, cache)
  {
    if Coherent(backend, cache) {
      forall rs
        ensures CachedService(ttl, backend, cache, rs) == Uncached(backend, rs)
      {
        CacheIsTransparent(ttl, backend, cache, rs);
      }
    } else {
      var rs := [Timed(List, cache.entries[KEY].expiresAt - 1.0)];
      assert CachedService(ttl, backend, cache, rs)[0] == cache.entries[KEY].value;
      assert Uncached(backend, rs)[0] == backend;
    }
  }

  // ---------------------------------------------------------------------
  // The service as code
  // ---------------------------------------------------------------------

  class VolumeService<V> {
    const cache: TTLCache<V>
    var backend: V

    /** The shared cache may hold anything, an outdated listing included. */
    constructor (cache: TTLCache<V>, backend: V)
      ensures this.cache == cache && this.backend == backend
    {
      this.cache, this.backend := cache, backend;
    }

    /** What is in the cache counts as long as it lives; a miss is filled with what the backend lists. */
    method ListVolumes(now: real) returns (listing: V)
      modifies cache
      ensures var cached := Lookup(old(cache.View()), KEY, now);
              && listing == (if cached.Some? then cached.value else backend)
              && (old(Coherent(backend, cache.View())) ==> listing == backend)
              && var got := Apply(cache.ttl, old(cache.View()), Call(Get(KEY), now));
                 cache.View() == if cached.Some? then got else Apply(cache.ttl, got, Call(Set(KEY, backend), now))
    {
      var cached := cache.Fetch(KEY, now);
      if cached.Some? {
        return cached.value;
      }
      listing := backend;
      cache.Put(KEY, listing, now);
    }

    /** After a change the cache is coherent whatever it held before. */
    method CreateVolume(after: V, now: real)
      modifies this, cache
      ensures backend == after && Coherent(backend, cache.View())
      ensures cache.View() == Apply(cache.ttl, old(cache.View()), Call(InvalidateAll, now))
    {
      backend := after;
      cache.Invalidate(now);
    }

    /** None when the backend answers that there was nothing to delete: the request fails with 404. */
    method DeleteVolume(after: Option<V>, now: real) returns (deleted: bool)
      modifies this, cache
      ensures deleted == after.Some? && backend == if after.Some? then after.value else old(backend)
      ensures deleted ==> Coherent(backend, cache.View())
      ensures cache.View() == if deleted then Apply(cache.ttl, old(cache.View()), Call(InvalidateAll, now))
                              else old(cache.View())
    {
      if after.None? {
        return false;
      }
      backend := after.value;
      cache.Invalidate(now);
      deleted := true;
    }

    /** Any run of requests, one at a time: the lists returned are those of a service without a cache if the cache
        was coherent at the start. */
    method ServeAll(rs: seq<Timed<V>>) returns (lists: seq<V>)
      modifies this, cache
      ensures lists == CachedService(cache.ttl, old(backend), old(cache.View()), rs)
      ensures old(Coherent(backend, cache.View())) ==> lists == Uncached(old(backend), rs)
    {
      lists := [];
      var i := 0;
      assert rs[0..] == rs;
      while i < |rs|
        invariant 0 <= i <= |rs|
        invariant lists + CachedService(cache.ttl, backend, cache.View(), rs[i..]) ==
                  CachedService(cache.ttl, old(backend), old(cache.View()), rs)
      {
        assert rs[i..][1..] == rs[i + 1..];
        match rs[i].request {
          case List =>
            var listing := ListVolumes(rs[i].at);
            lists := lists + [listing];
          case Create(after) => CreateVolume(after, rs[i].at);
          case Delete(after) =>
            var _ := DeleteVolume(Some(after), rs[i].at);
          case RefusedDelete =>
            var _ := DeleteVolume(None, rs[i].at);
        }
        i := i + 1;
      }
      if old(Coherent(backend, cache.View())) {
        CacheIsTransparent(cache.ttl, old(backend), old(cache.View()), rs);
      }
    }
  }
}
