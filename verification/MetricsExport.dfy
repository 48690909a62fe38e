/**
 The background loop that copies the cache counters to exported counters.  Exported counters can only be
 incremented, so each tick adds the difference to what the previous tick saw.
*/
module MetricsExport {
  import opened Prelude
  import opened TtlCache
  import opened CacheBackends

  datatype Totals = Totals(hits: int, misses: int, invalidations: int)

  const ZERO := Totals(0, 0, 0)

  function TotalsOf<V>(s: Store<V>): Totals {
    Totals(s.hits, s.misses, s.invalidations)
  }

  datatype Event<V> = Use(access: Access<V>) | Tick

  datatype State<V> = State(stores: map<string, Store<V>>, last: map<string, Totals>, exported: map<string, Totals>)

  /** A counter moves by a positive difference only. */
  function Bump(exported: int, last: int, now: int): int {
    if now - last > 0 then exported + (now - last) else exported
  }

  function BumpAll(exported: Totals, last: Totals, now: Totals): Totals {
    Totals(Bump(exported.hits, last.hits, now.hits), Bump(exported.misses, last.misses, now.misses),
           Bump(exported.invalidations, last.invalidations, now.invalidations))
  }

  /** Every exported counter after a tick that reads `now`. */
  function Bumped(
    exported: map<string, Totals>, last: map<string, Totals>, now: map<string, Totals>): map<string, Totals>
    requires exported.Keys == last.Keys == now.Keys
  {
    map r | r in now :: BumpAll(exported[r], last[r], now[r])
  }

  /** A snapshot of the source counters. */
  function Snapshot<V>(stores: map<string, Store<V>>): map<string, Totals> {
    map r | r in stores :: TotalsOf(stores[r])
  }

  predicate WellFormed<V>(ttls: Ttls, s: State<V>) {
    s.stores.Keys == ttls.Keys && s.last.Keys == ttls.Keys && s.exported.Keys == ttls.Keys
  }

  function Step<V>(ttls: Ttls, s: State<V>, ev: Event<V>): State<V>
    requires WellFormed(ttls, s)
  {
    match ev
    case Use(a) => s.(stores := MemoryApply(ttls, s.stores, a))
    case Tick =>
      var now := Snapshot(s.stores);
      s.(last := now, exported := Bumped(s.exported, s.last, now))
  }

  function Run<V>(ttls: Ttls, evs: seq<Event<V>>): (s: State<V>)
    ensures WellFormed(ttls, s)
  {
    if evs == [] then State(MemoryRun(ttls, []), map r | r in ttls :: ZERO, map r | r in ttls :: ZERO)
    else Step(ttls, Run(ttls, evs[..|evs| - 1]), evs[|evs| - 1])
  }

  /** The length of the run up to and including its last tick. */
  function LastTick<V>(evs: seq<Event<V>>): (n: nat)
    ensures n <= |evs|
  {
    if evs == [] then 0 else if evs[|evs| - 1].Tick? then |evs| else LastTick(evs[..|evs| - 1])
  }

  /** Gets of one resource. */
  function Gets<V>(evs: seq<Event<V>>, resource: string): nat {
    if evs == [] then 0 else
    var ev := evs[|evs| - 1];
    Gets(evs[..|evs| - 1], resource)
    + if IsGet(ev, resource) then 1 else 0
  }

  ghost predicate AtMost(a: Totals, b: Totals) {
    a.hits <= b.hits && a.misses <= b.misses && a.invalidations <= b.invalidations
  }

  predicate IsGet<V>(ev: Event<V>, resource: string) {
    ev.Use? && ev.access.resource == resource && ev.access.request.GetResource?
  }

  lemma UseCounts<V>(ttls: Ttls, stores: map<string, Store<V>>, a: Access<V>, resource: string)
    requires stores.Keys == ttls.Keys && resource in ttls
    ensures var before, after := stores[resource], MemoryApply(ttls, stores, a)[resource];
            && AtMost(TotalsOf(before), TotalsOf(after))
            && after.hits + after.misses == before.hits + before.misses + if IsGet(Use(a), resource) then 1 else 0
  {
  }

  lemma TickTotals<V>(ttls: Ttls, s: State<V>, resource: string)
    requires WellFormed(ttls, s) && resource in ttls
    requires s.exported[resource] == s.last[resource] && AtMost(s.last[resource], TotalsOf(s.stores[resource]))
    ensures var t := Step(ttls, s, Tick);
            t.exported[resource] == t.last[resource] == TotalsOf(s.stores[resource])
  {
  }

  /** What is known of one resource after `evs`, with the last tick after `ticked` events. */
  ghost predicate Accurate<V>(s: State<V>, resource: string, gets: nat, atTick: Totals) {
    && resource in s.stores && resource in s.exported && resource in s.last
    && s.stores[resource].hits + s.stores[resource].misses == gets
    && s.exported[resource] == s.last[resource] == atTick
    && AtMost(atTick, TotalsOf(s.stores[resource]))
  }

  lemma StepKeepsAccurate<V>(ttls: Ttls, s: State<V>, ev: Event<V>, resource: string, gets: nat, atTick: Totals)
    requires WellFormed(ttls, s) && resource in ttls && Accurate(s, resource, gets, atTick)
    ensures Accurate(Step(ttls, s, ev), resource, gets + (if IsGet(ev, resource) then 1 else 0),
                     if ev.Tick? then TotalsOf(s.stores[resource]) else atTick)
  {
    match ev {
      case Tick => TickTotals(ttls, s, resource);
      case Use(a) => UseCounts(ttls, s.stores, a, resource);
    }
  }

  /** The source counters of a resource as of the last tick. */
  ghost function AtLastTick<V>(ttls: Ttls, evs: seq<Event<V>>, resource: string): Totals
    requires resource in ttls
  {
    TotalsOf(Run(ttls, evs[..LastTick(evs)]).stores[resource])
  }

  lemma AtLastTickNext<V>(ttls: Ttls, evs: seq<Event<V>>, resource: string)
    requires resource in ttls && evs != []
    ensures var n := |evs| - 1;
            AtLastTick(ttls, evs, resource) ==
            if evs[n].Tick? then TotalsOf(Run(ttls, evs[..n]).stores[resource])
            else AtLastTick(ttls, evs[..n], resource)
  {
    var n := |evs| - 1;
    if evs[n].Tick? {
      WholePrefix(evs);
      assert Run(ttls, evs).stores == Run(ttls, evs[..n]).stores;
    } else {
      assert evs[..n][..LastTick(evs[..n])] == evs[..LastTick(evs)];
    }
  }

  /** For every interleaving of cache use and ticks: each get is one hit or one miss of its store, and the
      exported counters are the source counters as of the last tick, so nothing is counted twice or skipped. */
  lemma {:induction false} ExportFollowsSource<V>(ttls: Ttls, evs: seq<Event<V>>, resource: string)
    requires resource in ttls
    ensures Accurate(Run(ttls, evs), resource, Gets(evs, resource), AtLastTick(ttls, evs, resource))
  {
    if evs == [] {
      WholePrefix(evs);
    } else {
      var n := |evs| - 1;
      ExportFollowsSource(ttls, evs[..n], resource);
      AtLastTickNext(ttls, evs, resource);
      StepKeepsAccurate(ttls, Run(ttls, evs[..n]), evs[n], resource, Gets(evs[..n], resource),
                        AtLastTick(ttls, evs[..n], resource));
    }
  }

  /** Right after a tick the exported counters are the source counters. */
  lemma TickSynchronises<V>(ttls: Ttls, evs: seq<Event<V>>, resource: string)
    requires resource in ttls
    ensures var s := Run(ttls, evs + [Tick]);
            && s.exported[resource].hits == s.stores[resource].hits
            && s.exported[resource].misses == s.stores[resource].misses
            && s.exported[resource].invalidations == s.stores[resource].invalidations
  {
    ExportFollowsSource(ttls, evs, resource);
    AppendFront(evs, Tick);
    TickTotals(ttls, Run(ttls, evs), resource);
  }

  /** The same between ticks, figure by figure: the exported counters are those of the store at the last tick. */
  lemma ExportInFigures<V>(ttls: Ttls, evs: seq<Event<V>>, resource: string)
    requires resource in ttls
    ensures var shown := Run(ttls, evs).exported[resource];
            var store := Run(ttls, evs[..LastTick(evs)]).stores[resource];
            && shown.hits == store.hits && shown.misses == store.misses && shown.invalidations == store.invalidations
  {
    ExportFollowsSource(ttls, evs, resource);
  }

  // ---------------------------------------------------------------------
  // The loop body as code
  // ---------------------------------------------------------------------

  class Exporter {
    var last: map<string, Totals>
    var exported: map<string, Totals>

    constructor (resources: set<string>)
      ensures last == exported == map r | r in resources :: ZERO
    {
      last := map r | r in resources :: ZERO;
      exported := map r | r in resources :: ZERO;
    }

    /** The export of one resource. */
    method SyncOne(resource: string, now: Totals)
      requires resource in last && resource in exported
      modifies this
      ensures last == old(last)[resource := now]
      ensures exported == old(exported)[resource := BumpAll(old(exported)[resource], old(last)[resource], now)]
      ensures var shown, before, after := old(exported)[resource], old(last)[resource], exported[resource];
              && after.hits == (if now.hits > before.hits then shown.hits + now.hits - before.hits else shown.hits)
              && after.misses ==
                 (if now.misses > before.misses then shown.misses + now.misses - before.misses else shown.misses)
              && after.invalidations ==
                 (if now.invalidations > before.invalidations
                  then shown.invalidations + now.invalidations - before.invalidations else shown.invalidations)
    {
      var before, shown := last[resource], exported[resource];
      var dh, dm, dinv := now.hits - before.hits, now.misses - before.misses, now.invalidations - before.invalidations;
      if dh > 0 {
        shown := shown.(hits := shown.hits + dh);
      }
      if dm > 0 {
        shown := shown.(misses := shown.misses + dm);
      }
      if dinv > 0 {
        shown := shown.(invalidations := shown.invalidations + dinv);
      }
      exported := exported[resource := shown];
      last := last[resource := now];
    }

    /** One wake-up of `_sync_cache_metrics` over a counter snapshot; the order of the resources does not matter. */
    method Sync(counters: map<string, Totals>)
      requires last.Keys == exported.Keys == counters.Keys
      modifies this
      ensures last == counters
      ensures exported == Bumped(old(exported), old(last), counters)
    {
      ghost var seen, shown, target := last, exported, Bumped(exported, last, counters);
      var todo := counters.Keys;
      Unwritten(seen, counters);
      Unwritten(shown, target);
      while todo != {}
        invariant todo <= counters.Keys
        invariant last == Written(seen, counters, todo)
        invariant exported == Written(shown, target, todo)
      {
        var resource :| resource in todo;
        WriteOne(seen, counters, todo, resource);
        WriteOne(shown, target, todo, resource);
        SyncOne(resource, counters[resource]);
        todo := todo - {resource};
      }
      AllWritten(seen, counters);
      AllWritten(shown, target);
    }
  }

  /** `base` with the values of `update`, except where they are still to be written. */
  ghost function Written(base: map<string, Totals>, update: map<string, Totals>, todo: set<string>): map<string, Totals>
    requires base.Keys == update.Keys
  {
    map r | r in base :: if r in todo then base[r] else update[r]
  }

  lemma Unwritten(base: map<string, Totals>, update: map<string, Totals>)
    requires base.Keys == update.Keys
    ensures Written(base, update, update.Keys) == base
  {
  }

  lemma WriteOne(base: map<string, Totals>, update: map<string, Totals>, todo: set<string>, r: string)
    requires base.Keys == update.Keys && r in todo && r in base
    ensures r in Written(base, update, todo) && Written(base, update, todo)[r] == base[r]
    ensures Written(base, update, todo)[r := update[r]] == Written(base, update, todo - {r})
  {
  }

  lemma AllWritten(base: map<string, Totals>, update: map<string, Totals>)
    requires base.Keys == update.Keys
    ensures Written(base, update, {}) == update
  {
  }

  // ---------------------------------------------------------------------
  // The exporter over a run
  // ---------------------------------------------------------------------

  lemma RunNext<V>(ttls: Ttls, evs: seq<Event<V>>, i: nat)
    requires i < |evs|
    ensures Run(ttls, evs[..i + 1]) == Step(ttls, Run(ttls, evs[..i]), evs[i])
  {
    PrefixOfPrefix(evs, i + 1, i);
  }

  lemma AllAccurate<V>(ttls: Ttls, evs: seq<Event<V>>)
    ensures forall r :: r in ttls ==> Accurate(Run(ttls, evs), r, Gets(evs, r), AtLastTick(ttls, evs, r))
  {
    forall r | r in ttls
      ensures Accurate(Run(ttls, evs), r, Gets(evs, r), AtLastTick(ttls, evs, r))
    {
      ExportFollowsSource(ttls, evs, r);
    }
  }

  /** An exporter beside stores in use, under any interleaving of use and ticks: for every resource the exported
      counters are the counters of its store as of the last tick, and each get was one hit or one miss. */
  method Replay<V>(ttls: Ttls, evs: seq<Event<V>>) returns (s: State<V>)
    ensures s == Run(ttls, evs)
    ensures forall r :: r in ttls ==> Accurate(s, r, Gets(evs, r), AtLastTick(ttls, evs, r))
  {
    var stores: map<string, Store<V>> := map r | r in ttls :: EmptyStore();
    var exporter := new Exporter(ttls.Keys);
    var i := 0;
    while i < |evs|
      invariant 0 <= i <= |evs| && fresh(exporter)
      invariant State(stores, exporter.last, exporter.exported) == Run(ttls, evs[..i])
    {
      RunNext(ttls, evs, i);
      match evs[i] {
        case Use(a) => stores := MemoryApply(ttls, stores, a);
        case Tick => exporter.Sync(Snapshot(stores));
      }
      i := i + 1;
    }
    WholePrefix(evs);
    AllAccurate(ttls, evs);
    s := State(stores, exporter.last, exporter.exported);
  }
}
