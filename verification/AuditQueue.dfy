/**
 The batching audit queue: many producers, one flush worker, the shutdown sentinel, the drain and the
 cancellation that the application lifespan performs.  A commit is atomic and either persists a whole
 batch or nothing; how it ends is part of the event, so every interleaving and every failure pattern
 is some sequence of events that `Run` accepts.  `size` is the batch size (20 in the source).
*/
module AuditQueue {
  import opened Prelude

  /** The arguments of `enqueue_audit_entry` that decide what is stored. */
  datatype Request = Request(action: Option<string>, resourceType: Option<string>, detail: string)

  datatype Entry = Entry(action: string, resourceType: string, detail: string)

  /** `_make_entry`, or nothing when the action is missing or empty. */
  function MakeEntry(r: Request): Option<Entry> {
    if r.action.None? || r.action.value == "" then None
    else Some(Entry(r.action.value,
                    if r.resourceType.None? || r.resourceType.value == "" then "unknown" else r.resourceType.value,
                    r.detail))
  }

  /** Why a flush is under way: the batch is full, the timer fired (or a full flush timed out), or shutdown. */
  datatype Reason = Full | Timer | Final

  datatype Worker =
    | Idle(batch: seq<Entry>)
    | Flushing(batch: seq<Entry>, reason: Reason)
    | Exited
    | Crashed(batch: seq<Entry>)
    | Cancelled(batch: seq<Entry>)

  /** How far the shutdown half of the lifespan has come. */
  datatype Shutdown = Serving | Signalled | Draining(buffer: seq<Entry>) | Drained | DrainFailed(buffer: seq<Entry>)

  datatype Commit = Committed | CommitTimeout | CommitError

  datatype Event =
    | Put(request: Request)
    | Get
    | Tick
    | Flush(commit: Commit)
    | Signal
    | Collect
    | DrainFlush(commit: Commit)
    | Cancel

  /** A queue slot holds an entry, or None for the sentinel. */
  datatype State = State(queue: seq<Option<Entry>>, worker: Worker, shutdown: Shutdown, persisted: seq<Entry>)

  const START := State([], Idle([]), Serving, [])

  /** The entries in a queue, without sentinels. */
  function Entries(queue: seq<Option<Entry>>): seq<Entry> {
    if queue == [] then []
    else (match queue[0] case None => [] case Some(e) => [e]) + Entries(queue[1..])
  }

  /** The worker takes the head of the queue. */
  function StepGet(size: nat, s: State): Option<State> {
    if s.queue == [] || !s.worker.Idle? then None else
    var batch := s.worker.batch;
    var rest := s.(queue := s.queue[1..]);
    match s.queue[0]
    case None => Some(rest.(worker := if batch == [] then Exited else Flushing(batch, Final)))
    case Some(e) =>
      Some(rest.(worker := if |batch| + 1 >= size then Flushing(batch + [e], Full) else Idle(batch + [e])))
  }

  /** A commit ends.  A timeout raised by a full-batch flush lands in the same handler as the get timeout,
      which flushes once more; every other failure ends the worker. */
  function StepFlush(s: State, c: Commit): Option<State> {
    if !s.worker.Flushing? then None else
    var batch := s.worker.batch;
    match c
    case Committed =>
      Some(s.(persisted := s.persisted + batch, worker := if s.worker.reason.Final? then Exited else Idle([])))
    case CommitTimeout =>
      Some(s.(worker := if s.worker.reason.Full? then Flushing(batch, Timer) else Crashed(batch)))
    case CommitError => Some(s.(worker := Crashed(batch)))
  }

  function Step(size: nat, s: State, ev: Event): Option<State> {
    match ev
    case Put(r) => Some(if MakeEntry(r).None? then s else s.(queue := s.queue + [MakeEntry(r)]))
    case Get => StepGet(size, s)
    case Tick =>
      if !s.worker.Idle? then None
      else Some(if s.worker.batch == [] then s else s.(worker := Flushing(s.worker.batch, Timer)))
    case Flush(c) => StepFlush(s, c)
    case Signal =>
      if s.shutdown.Serving? then Some(s.(queue := s.queue + [None], shutdown := Signalled)) else None
    case Collect =>
      if !s.shutdown.Signalled? then None else
      var remaining := Entries(s.queue);
      Some(s.(queue := [], shutdown := if remaining == [] then Drained else Draining(remaining)))
    case DrainFlush(c) =>
      if !s.shutdown.Draining? then None
      else if c.Committed? then Some(s.(persisted := s.persisted + s.shutdown.buffer, shutdown := Drained))
      else Some(s.(shutdown := DrainFailed(s.shutdown.buffer)))
    case Cancel =>
      if !s.shutdown.Drained? then None
      else if s.worker.Idle? || s.worker.Flushing? then Some(s.(worker := Cancelled(s.worker.batch)))
      else Some(s)
  }

  function Run(size: nat, evs: seq<Event>): Option<State> {
    if evs == [] then Some(START) else
    match Run(size, evs[..|evs| - 1])
    case None => None
    case Some(s) => Step(size, s, evs[|evs| - 1])
  }

  /** What one event puts on the queue: an entry, the sentinel, or nothing. */
  function Offered(ev: Event): seq<Option<Entry>> {
    match ev
    case Put(r) => if MakeEntry(r).None? then [] else [MakeEntry(r)]
    case Signal => [None]
    case _ => []
  }

  /** Everything put on the queue, in order. */
  function Puts(evs: seq<Event>): seq<Option<Entry>> {
    if evs == [] then [] else Puts(evs[..|evs| - 1]) + Offered(evs[|evs| - 1])
  }

  /** The accepted entries, in acceptance order. */
  function Accepted(evs: seq<Event>): seq<Entry> {
    Entries(Puts(evs))
  }

  function Held(w: Worker): seq<Entry> {
    if w.Exited? then [] else w.batch
  }

  function Buffered(d: Shutdown): seq<Entry> {
    if d.Draining? || d.DrainFailed? then d.buffer else []
  }

  lemma {:induction false} EntriesConcat(a: seq<Option<Entry>>, b: seq<Option<Entry>>)
    ensures Entries(a + b) == Entries(a) + Entries(b)
  {
    if a == [] {
      assert a + b == b;
    } else {
      assert (a + b)[1..] == a[1..] + b;
      EntriesConcat(a[1..], b);
    }
  }

  // ---------------------------------------------------------------------
  // Nothing is lost or doubled
  // ---------------------------------------------------------------------

  /** All places an accepted entry can be. */
  ghost function Whereabouts(s: State): multiset<Entry> {
    multiset(Entries(s.queue)) + multiset(Held(s.worker)) + multiset(Buffered(s.shutdown)) + multiset(s.persisted)
  }

  ghost predicate BatchBounded(size: nat, w: Worker) {
    && |Held(w)| <= size
    && (w.Idle? ==> |w.batch| < size)
    && (w.Flushing? ==> w.batch != [])
  }

  lemma QueueHead(queue: seq<Option<Entry>>)
    requires queue != []
    ensures Entries(queue) == (match queue[0] case None => [] case Some(e) => [e]) + Entries(queue[1..])
    ensures Entries([queue[0]]) == match queue[0] case None => [] case Some(e) => [e]
  {
  }

  lemma DrainNext(taken: seq<Entry>, queue: seq<Option<Entry>>)
    requires queue != []
    ensures taken + Entries(queue) ==
            (if queue[0].Some? then taken + [queue[0].value] else taken) + Entries(queue[1..])
  {
  }

  lemma GetConserves(size: nat, s: State)
    requires StepGet(size, s).Some?
    ensures Whereabouts(StepGet(size, s).value) == Whereabouts(s)
  {
    QueueHead(s.queue);
    var t := StepGet(size, s).value;
    match s.queue[0] {
      case None => assert Held(t.worker) == Held(s.worker);
      case Some(e) => assert Held(t.worker) == Held(s.worker) + [e];
    }
  }

  lemma OfferConserves(s: State, slots: seq<Option<Entry>>, d: Shutdown)
    requires Buffered(d) == Buffered(s.shutdown)
    ensures Whereabouts(s.(queue := s.queue + slots, shutdown := d)) == Whereabouts(s) + multiset(Entries(slots))
  {
    EntriesConcat(s.queue, slots);
  }

  lemma FlushConserves(s: State, c: Commit)
    requires StepFlush(s, c).Some?
    ensures Whereabouts(StepFlush(s, c).value) == Whereabouts(s)
  {
    var t := StepFlush(s, c).value;
    if c.Committed? {
      assert Held(t.worker) == [] && t.persisted == s.persisted + Held(s.worker);
    } else {
      assert Held(t.worker) == Held(s.worker);
    }
  }

  lemma CollectConserves(s: State, size: nat)
    requires Step(size, s, Collect).Some?
    ensures Whereabouts(Step(size, s, Collect).value) == Whereabouts(s)
  {
    var t := Step(size, s, Collect).value;
    var queued, held, persisted := multiset(Entries(s.queue)), multiset(Held(s.worker)), multiset(s.persisted);
    assert Buffered(t.shutdown) == Entries(s.queue);
    assert Whereabouts(t) == multiset{} + held + queued + persisted;
    assert Whereabouts(s) == queued + held + multiset{} + persisted;
  }

  lemma DrainFlushConserves(s: State, size: nat, c: Commit)
    requires Step(size, s, DrainFlush(c)).Some?
    ensures Whereabouts(Step(size, s, DrainFlush(c)).value) == Whereabouts(s)
  {
    var t := Step(size, s, DrainFlush(c)).value;
    if c.Committed? {
      assert multiset(t.persisted) == multiset(s.persisted) + multiset(Buffered(s.shutdown));
    }
  }

  lemma WorkerConserves(s: State, t: State)
    requires t == s.(worker := t.worker) && Held(t.worker) == Held(s.worker)
    ensures Whereabouts(t) == Whereabouts(s)
  {
  }

  /** Events that put nothing on the queue only move entries. */
  lemma MovesConserve(size: nat, s: State, ev: Event)
    requires Step(size, s, ev).Some? && !ev.Put? && !ev.Signal?
    ensures Whereabouts(Step(size, s, ev).value) == Whereabouts(s)
  {
    match ev {
      case Get => GetConserves(size, s);
      case Flush(c) => FlushConserves(s, c);
      case Tick => WorkerConserves(s, Step(size, s, ev).value);
      case Cancel => WorkerConserves(s, Step(size, s, ev).value);
      case Collect => CollectConserves(s, size);
      case DrainFlush(c) => DrainFlushConserves(s, size, c);
    }
  }

  lemma OffersConserve(size: nat, s: State, ev: Event)
    requires Step(size, s, ev).Some? && (ev.Put? || ev.Signal?)
    ensures Whereabouts(Step(size, s, ev).value) == Whereabouts(s) + multiset(Entries(Offered(ev)))
  {
    if ev.Signal? {
      OfferConserves(s, [None], Signalled);
    } else if Offered(ev) != [] {
      OfferConserves(s, Offered(ev), s.shutdown);
    }
  }

  lemma StepKeepsBound(size: nat, s: State, ev: Event)
    requires size > 0 && Step(size, s, ev).Some? && BatchBounded(size, s.worker)
    ensures BatchBounded(size, Step(size, s, ev).value.worker)
  {
  }

  /** For every interleaving of producers, worker, drain and cancellation the accepted entries are exactly
      those queued, batched, buffered by the drain or persisted, each once; and batches stay bounded. */
  lemma {:induction false} Conservation(size: nat, evs: seq<Event>)
    requires size > 0 && Run(size, evs).Some?
    ensures Whereabouts(Run(size, evs).value) == multiset(Accepted(evs))
    ensures BatchBounded(size, Run(size, evs).value.worker)
  {
    if evs != [] {
      var k := |evs| - 1;
      var s := Run(size, evs[..k]).value;
      Conservation(size, evs[..k]);
      if evs[k].Put? || evs[k].Signal? {
        OffersConserve(size, s, evs[k]);
      } else {
        MovesConserve(size, s, evs[k]);
      }
      StepKeepsBound(size, s, evs[k]);
      AcceptedStep(evs);
    }
  }

  lemma AcceptedStep(evs: seq<Event>)
    requires evs != []
    ensures Accepted(evs) == Accepted(evs[..|evs| - 1]) + Entries(Offered(evs[|evs| - 1]))
  {
    EntriesConcat(Puts(evs[..|evs| - 1]), Offered(evs[|evs| - 1]));
  }

  // ---------------------------------------------------------------------
  // Order, when nothing is drained
  // ---------------------------------------------------------------------

  /** Entries in the order they would reach the database. */
  function Pipeline(s: State): seq<Entry> {
    s.persisted + Held(s.worker) + Entries(s.queue)
  }

  ghost predicate Undrained(s: State) {
    s.shutdown.Serving? || s.shutdown.Signalled?
  }

  lemma StepKeepsPipeline(size: nat, s: State, ev: Event)
    requires Step(size, s, ev).Some? && !ev.Collect? && Undrained(s)
    ensures Undrained(Step(size, s, ev).value)
    ensures Pipeline(Step(size, s, ev).value) == Pipeline(s) + Entries(Offered(ev))
  {
    var t := Step(size, s, ev).value;
    if ev.Get? {
      GetKeepsPipeline(size, s);
    } else if Offered(ev) != [] {
      EntriesConcat(s.queue, Offered(ev));
      assert t.queue == s.queue + Offered(ev) && Held(t.worker) == Held(s.worker);
    } else {
      assert t.persisted + Held(t.worker) == s.persisted + Held(s.worker);
    }
  }

  lemma GetKeepsPipeline(size: nat, s: State)
    requires StepGet(size, s).Some?
    ensures Pipeline(StepGet(size, s).value) == Pipeline(s)
  {
    QueueHead(s.queue);
  }

  predicate NeverCollects(evs: seq<Event>) {
    forall k :: 0 <= k < |evs| ==> !evs[k].Collect?
  }

  /** Without a drain, persisted ++ batch ++ queue is the acceptance order. */
  lemma {:induction false} AcceptanceOrder(size: nat, evs: seq<Event>)
    requires Run(size, evs).Some? && NeverCollects(evs)
    ensures Undrained(Run(size, evs).value)
    ensures Pipeline(Run(size, evs).value) == Accepted(evs)
  {
    if evs != [] {
      var k := |evs| - 1;
      AcceptanceOrder(size, evs[..k]);
      StepKeepsPipeline(size, Run(size, evs[..k]).value, evs[k]);
      AcceptedStep(evs);
    }
  }

  function Sent(es: seq<Entry>): seq<Option<Entry>> {
    seq(|es|, i requires 0 <= i < |es| => Some(es[i]))
  }

  /** Whether a worker that is still in order has taken the sentinel. */
  predicate TookSentinel(w: Worker) {
    w.Exited? || (w.Flushing? && w.reason.Final?)
  }

  /** Everything put so far, told from the state of a worker that has not crashed. */
  ghost predicate SlotOrder(s: State, puts: seq<Option<Entry>>) {
    s.worker.Crashed? ||
    puts == Sent(s.persisted + Held(s.worker)) + (if TookSentinel(s.worker) then [None] else []) + s.queue
  }

  lemma GetKeepsSlots(size: nat, s: State, puts: seq<Option<Entry>>)
    requires StepGet(size, s).Some? && SlotOrder(s, puts)
    ensures SlotOrder(StepGet(size, s).value, puts)
  {
    var t := StepGet(size, s).value;
    assert s.queue == [s.queue[0]] + t.queue;
    if s.queue[0].Some? {
      assert Sent(t.persisted + Held(t.worker)) == Sent(s.persisted + Held(s.worker)) + [s.queue[0]];
    } else {
      assert Held(t.worker) == Held(s.worker);
    }
  }

  lemma FlushKeepsSlots(s: State, c: Commit, puts: seq<Option<Entry>>)
    requires StepFlush(s, c).Some? && SlotOrder(s, puts)
    ensures SlotOrder(StepFlush(s, c).value, puts)
  {
    var t := StepFlush(s, c).value;
    assert t.persisted + Held(t.worker) == s.persisted + Held(s.worker);
  }

  lemma StepKeepsSlots(size: nat, s: State, ev: Event, puts: seq<Option<Entry>>)
    requires Step(size, s, ev).Some? && !ev.Collect? && Undrained(s) && SlotOrder(s, puts)
    ensures SlotOrder(Step(size, s, ev).value, puts + Offered(ev))
  {
    assert Offered(ev) == [] ==> puts + Offered(ev) == puts;
    match ev {
      case Get => GetKeepsSlots(size, s, puts);
      case Flush(c) => FlushKeepsSlots(s, c, puts);
      case _ => assert Step(size, s, ev).value.queue == s.queue + Offered(ev);
    }
  }

  lemma {:induction false} SlotsFollowPuts(size: nat, evs: seq<Event>)
    requires Run(size, evs).Some? && NeverCollects(evs)
    ensures SlotOrder(Run(size, evs).value, Puts(evs))
  {
    if evs != [] {
      var k := |evs| - 1;
      SlotsFollowPuts(size, evs[..k]);
      AcceptanceOrder(size, evs[..k]);
      StepKeepsSlots(size, Run(size, evs[..k]).value, evs[k], Puts(evs[..k]));
    }
  }

  /** A worker that ended by consuming the sentinel has persisted exactly what was accepted before it:
      the sentinel sits right after the persisted entries in the order of all puts. */
  lemma SentinelFlushesEverythingBefore(size: nat, evs: seq<Event>)
    requires Run(size, evs).Some? && NeverCollects(evs) && Run(size, evs).value.worker.Exited?
    ensures var s := Run(size, evs).value;
            Puts(evs) == Sent(s.persisted) + [None] + s.queue
  {
    SlotsFollowPuts(size, evs);
    var s := Run(size, evs).value;
    assert s.persisted + Held(s.worker) == s.persisted;
  }

  // ---------------------------------------------------------------------
  // Entries do reach the database
  // ---------------------------------------------------------------------

  /** The timer and a commit write the batch of an idle worker, and nothing else happens. */
  lemma TimerWritesBatch(size: nat, evs: seq<Event>)
    requires Run(size, evs).Some?
    requires var w := Run(size, evs).value.worker; w.Idle? && w.batch != []
    ensures Run(size, evs + [Tick] + [Flush(Committed)]).Some?
    ensures var s, t := Run(size, evs).value, Run(size, evs + [Tick] + [Flush(Committed)]).value;
            && t.persisted == s.persisted + s.worker.batch && t.worker == Idle([])
            && t.queue == s.queue && t.shutdown == s.shutdown
  {
    RunExtend(size, evs, Tick);
    RunExtend(size, evs + [Tick], Flush(Committed));
  }

  /** A full batch is flushed at once, without the timer. */
  lemma FullBatchIsFlushed(size: nat, evs: seq<Event>, e: Entry)
    requires Run(size, evs).Some?
    requires var s := Run(size, evs).value;
             s.worker.Idle? && s.queue != [] && s.queue[0] == Some(e) && |s.worker.batch| + 1 >= size
    ensures Run(size, evs + [Get] + [Flush(Committed)]).Some?
    ensures var s, t := Run(size, evs).value, Run(size, evs + [Get] + [Flush(Committed)]).value;
            && t.persisted == s.persisted + s.worker.batch + [e] && t.worker == Idle([]) && t.queue == s.queue[1..]
  {
    RunExtend(size, evs, Get);
    RunExtend(size, evs + [Get], Flush(Committed));
    var s := Run(size, evs).value;
    assert s.persisted + (s.worker.batch + [e]) == s.persisted + s.worker.batch + [e];
  }

  /** The entries put before the first sentinel. */
  function AheadOfSentinel(slots: seq<Option<Entry>>): seq<Entry> {
    if slots == [] || slots[0].None? then [] else [slots[0].value] + AheadOfSentinel(slots[1..])
  }

  /** What the worker writes if only it goes on: its batch and, unless it has taken the sentinel, all that is ahead of
      the next one. */
  function Due(s: State): seq<Entry> {
    s.persisted + Held(s.worker) + if TookSentinel(s.worker) then [] else AheadOfSentinel(s.queue)
  }

  /** Nothing but the worker taking entries, its timer and commits that succeed. */
  predicate WorkerOnly(evs: seq<Event>) {
    forall k :: 0 <= k < |evs| ==> evs[k] in [Get, Tick, Flush(Committed)]
  }

  function Rank(w: Worker): nat {
    if w.Flushing? then 1 else if w.Idle? && w.batch != [] then 2 else 0
  }

  predicate AtWork(w: Worker) {
    w.Idle? || w.Flushing?
  }

  /** The worker's next event. */
  function NextEvent(s: State): Event {
    if s.worker.Flushing? then Flush(Committed) else if s.queue != [] then Get else Tick
  }

  /** The worker is at work and holds something whenever it flushes. */
  predicate Working(s: State) {
    AtWork(s.worker) && (s.worker.Flushing? ==> s.worker.batch != [])
  }

  predicate NothingDue(s: State) {
    s.worker.Exited? || (s.worker == Idle([]) && s.queue == [])
  }

  lemma NextEventKeepsDue(size: nat, s: State)
    requires Working(s) && !NothingDue(s)
    ensures Step(size, s, NextEvent(s)).Some?
    ensures var t := Step(size, s, NextEvent(s)).value;
            && Due(t) == Due(s) && (Working(t) || t.worker.Exited?)
            && (|t.queue| < |s.queue| || (|t.queue| == |s.queue| && Rank(t.worker) < Rank(s.worker)))
  {
  }

  /** A way for a working worker to write everything that is due. */
  lemma {:induction false} WorkerWrites(size: nat, evs: seq<Event>, s: State) returns (rest: seq<Event>)
    requires Run(size, evs) == Some(s) && (Working(s) || s.worker.Exited?)
    ensures WorkerOnly(rest) && Run(size, evs + rest).Some?
    ensures Run(size, evs + rest).value.persisted == Due(s)
    decreases |s.queue|, Rank(s.worker)
  {
    if NothingDue(s) {
      rest := [];
      assert evs + rest == evs;
    } else {
      var ev := NextEvent(s);
      NextEventKeepsDue(size, s);
      RunExtend(size, evs, ev);
      var later := WorkerWrites(size, evs + [ev], Step(size, s, ev).value);
      rest := [ev] + later;
      ConcatAssociates(evs, [ev], later);
    }
  }

  lemma {:induction false} AheadOfSent(es: seq<Entry>, slots: seq<Option<Entry>>)
    ensures AheadOfSentinel(Sent(es) + slots) == es + AheadOfSentinel(slots)
  {
    if es == [] {
      assert Sent(es) + slots == slots;
    } else {
      AheadOfSent(es[1..], slots);
      SentTail(es, slots);
    }
  }

  lemma SentTail(es: seq<Entry>, slots: seq<Option<Entry>>)
    requires es != []
    ensures Sent(es) + slots != [] && (Sent(es) + slots)[0] == Some(es[0])
    ensures (Sent(es) + slots)[1..] == Sent(es[1..]) + slots
  {
  }

  lemma DueIsAhead(s: State, puts: seq<Option<Entry>>)
    requires SlotOrder(s, puts) && !s.worker.Crashed?
    ensures Due(s) == AheadOfSentinel(puts)
  {
    var done := s.persisted + Held(s.worker);
    if TookSentinel(s.worker) {
      AheadOfSent(done, [None] + s.queue);
      ConcatAssociates(Sent(done), [None], s.queue);
      assert AheadOfSentinel([None] + s.queue) == [];
    } else {
      AheadOfSent(done, s.queue);
      assert Sent(done) + [] == Sent(done);
    }
  }

  /** Every accepted run without a drain, whose worker is at work, has a continuation by the worker alone after which
      the database holds exactly the entries accepted ahead of the first sentinel, in order. */
  lemma EverythingGetsWritten(size: nat, evs: seq<Event>) returns (rest: seq<Event>)
    requires size > 0 && Run(size, evs).Some? && NeverCollects(evs) && AtWork(Run(size, evs).value.worker)
    ensures WorkerOnly(rest) && Run(size, evs + rest).Some?
    ensures Run(size, evs + rest).value.persisted == AheadOfSentinel(Puts(evs))
  {
    Conservation(size, evs);
    SlotsFollowPuts(size, evs);
    DueIsAhead(Run(size, evs).value, Puts(evs));
    rest := WorkerWrites(size, evs, Run(size, evs).value);
  }

  /** Before the shutdown signal that is everything accepted. */
  lemma {:induction false} NoSentinelYet(evs: seq<Event>)
    requires forall k :: 0 <= k < |evs| ==> !evs[k].Signal?
    ensures AheadOfSentinel(Puts(evs)) == Accepted(evs)
    ensures forall k :: 0 <= k < |Puts(evs)| ==> Puts(evs)[k].Some?
  {
    if evs != [] {
      NoSentinelYet(evs[..|evs| - 1]);
    }
    AllAhead(Puts(evs));
  }

  lemma {:induction false} AllAhead(slots: seq<Option<Entry>>)
    requires forall k :: 0 <= k < |slots| ==> slots[k].Some?
    ensures AheadOfSentinel(slots) == Entries(slots)
  {
    if slots != [] {
      AllAhead(slots[1..]);
    }
  }

  // ---------------------------------------------------------------------
  // The shutdown half of the lifespan
  // ---------------------------------------------------------------------

  /** No producer is active once the sentinel is put, and every commit succeeds. */
  predicate CleanShutdown(evs: seq<Event>) {
    && (forall i, j :: 0 <= i < j < |evs| && evs[i].Signal? ==> !evs[j].Put?)
    && (forall k :: 0 <= k < |evs| ==> (evs[k].Flush? || evs[k].DrainFlush? ==> evs[k].commit.Committed?))
  }

  lemma {:induction false} SignalledOnce(size: nat, evs: seq<Event>)
    requires Run(size, evs).Some? && !Run(size, evs).value.shutdown.Serving?
    ensures exists i :: 0 <= i < |evs| && evs[i].Signal?
  {
    var k := |evs| - 1;
    if !evs[k].Signal? {
      SignalledOnce(size, evs[..k]);
      var i :| 0 <= i < k && evs[..k][i].Signal?;
      assert evs[i].Signal?;
    }
  }

  lemma {:induction false} DrainedQueueStaysEmpty(size: nat, evs: seq<Event>)
    requires Run(size, evs).Some? && CleanShutdown(evs)
    ensures var s := Run(size, evs).value;
            && (s.shutdown.Draining? || s.shutdown.Drained? ==> s.queue == [])
            && !s.worker.Crashed? && !s.shutdown.DrainFailed?
  {
    if evs != [] {
      var k := |evs| - 1;
      DrainedQueueStaysEmpty(size, evs[..k]);
      var s := Run(size, evs[..k]).value;
      if !s.shutdown.Serving? {
        SignalledOnce(size, evs[..k]);
        var i :| 0 <= i < k && evs[..k][i].Signal?;
        assert evs[i].Signal?;
      }
    }
  }

  /** After the whole shutdown, what was accepted but not persisted is the worker's own batch: at most one. */
  lemma ShutdownLosesOnlyTheBatch(size: nat, evs: seq<Event>)
    requires size > 0 && Run(size, evs).Some? && CleanShutdown(evs)
    requires Run(size, evs).value.shutdown.Drained?
    ensures var s := Run(size, evs).value;
            && multiset(Accepted(evs)) == multiset(s.persisted) + multiset(Held(s.worker))
            && |Held(s.worker)| <= size
  {
    Conservation(size, evs);
    DrainedQueueStaysEmpty(size, evs);
    var s := Run(size, evs).value;
    assert Entries(s.queue) == [];
  }

  lemma {:induction false} RunPrefix(size: nat, evs: seq<Event>, k: nat)
    requires Run(size, evs).Some? && k < |evs|
    ensures Run(size, evs[..k]).Some?
    ensures Run(size, evs[..k + 1]) == Step(size, Run(size, evs[..k]).value, evs[k])
    ensures Run(size, evs[..k + 1]).Some?
  {
    if k < |evs| - 1 {
      var shorter := evs[..|evs| - 1];
      RunPrefix(size, shorter, k);
      PrefixOfPrefix(evs, |evs| - 1, k);
      PrefixOfPrefix(evs, |evs| - 1, k + 1);
    } else {
      WholePrefix(evs);
    }
    PrefixOfPrefix(evs, k + 1, k);
  }

  lemma NoPutAfterCollect(size: nat, evs: seq<Event>, c: nat)
    requires Run(size, evs).Some? && CleanShutdown(evs) && c < |evs| && evs[c].Collect?
    ensures forall k :: c < k < |evs| ==> !evs[k].Put?
  {
    RunPrefix(size, evs, c);
    SignalledOnce(size, evs[..c]);
    var i :| 0 <= i < c && evs[..c][i].Signal?;
    assert evs[i].Signal?;
  }

  /** Once the drain has emptied the queue, only a commit of the worker changes what it holds. */
  lemma StepAfterDrain(size: nat, s: State, ev: Event)
    requires Step(size, s, ev).Some? && s.queue == [] && !Undrained(s) && !ev.Put?
    requires ev.Flush? ==> ev.commit.Committed?
    ensures var t := Step(size, s, ev).value;
            && t.queue == [] && !Undrained(t)
            && Held(t.worker) == if ev.Flush? then [] else Held(s.worker)
  {
  }

  /** A commit of the worker ends after event `c`. */
  ghost predicate FlushedAfter(evs: seq<Event>, c: nat) {
    exists k :: c < k < |evs| && evs[k].Flush?
  }

  lemma {:induction false} AfterCollect(size: nat, evs: seq<Event>, c: nat)
    requires Run(size, evs).Some? && CleanShutdown(evs) && c < |evs| && evs[c].Collect?
    ensures Run(size, evs[..c]).Some?
    ensures var s := Run(size, evs).value;
            && s.queue == [] && !Undrained(s)
            && Held(s.worker) == if FlushedAfter(evs, c) then [] else Held(Run(size, evs[..c]).value.worker)
  {
    var n := |evs| - 1;
    RunPrefix(size, evs, n);
    WholePrefix(evs);
    if c < n {
      NoPutAfterCollect(size, evs, c);
      AfterCollect(size, evs[..n], c);
      PrefixOfPrefix(evs, n, c);
      StepAfterDrain(size, Run(size, evs[..n]).value, evs[n]);
      assert FlushedAfter(evs, c) <==> FlushedAfter(evs[..n], c) || evs[n].Flush? by {
        if FlushedAfter(evs[..n], c) {
          var k :| c < k < n && evs[..n][k].Flush?;
          assert evs[k].Flush?;
        }
        if k :| c < k < |evs| && evs[k].Flush? {
          assert k < n ==> evs[..n][k].Flush?;
        }
      }
    }
  }

  /** The accepted entries are all in the database. */
  ghost predicate Lossless(size: nat, evs: seq<Event>) {
    Run(size, evs).Some? && multiset(Accepted(evs)) == multiset(Run(size, evs).value.persisted)
  }

  /** What decides the loss, seen at the drain: nothing is lost exactly when the worker held nothing as the drain
      emptied the queue, or one of its own commits still ends before the shutdown does. */
  lemma LossDecidedAtDrain(size: nat, evs: seq<Event>, c: nat)
    requires size > 0 && Run(size, evs).Some? && CleanShutdown(evs) && Run(size, evs).value.shutdown.Drained?
    requires c < |evs| && evs[c].Collect?
    ensures Run(size, evs[..c]).Some?
    ensures Lossless(size, evs) <==> Held(Run(size, evs[..c]).value.worker) == [] || FlushedAfter(evs, c)
  {
    AfterCollect(size, evs, c);
    ShutdownLosesOnlyTheBatch(size, evs);
    var s := Run(size, evs).value;
    MultisetSizes(multiset(s.persisted), multiset(Held(s.worker)));
    assert |multiset(Held(s.worker))| == |Held(s.worker)|;
  }

  /** The rest of the shortest shutdown after the queue is drained: flush the buffer if there is one, and cancel. */
  function Hasty(remaining: seq<Entry>): seq<Event> {
    (if remaining == [] then [] else [DrainFlush(Committed)]) + [Cancel]
  }

  lemma HastyCompletes(size: nat, evs: seq<Event>)
    requires Run(size, evs).Some? && Run(size, evs).value.shutdown.Signalled?
    ensures var whole := evs + [Collect] + Hasty(Entries(Run(size, evs).value.queue));
            Run(size, whole).Some? && Run(size, whole).value.shutdown.Drained?
  {
    var drained, remaining := evs + [Collect], Entries(Run(size, evs).value.queue);
    RunExtend(size, evs, Collect);
    if remaining == [] {
      RunExtend(size, drained, Cancel);
      assert drained + Hasty(remaining) == drained + [Cancel];
    } else {
      var flushed := drained + [DrainFlush(Committed)];
      RunExtend(size, drained, DrainFlush(Committed));
      RunExtend(size, flushed, Cancel);
      assert drained + Hasty(remaining) == flushed + [Cancel];
    }
  }

  lemma HastyIsClean(evs: seq<Event>, remaining: seq<Entry>)
    requires CleanShutdown(evs)
    ensures CleanShutdown(evs + [Collect] + Hasty(remaining))
    ensures !FlushedAfter(evs + [Collect] + Hasty(remaining), |evs|)
  {
    var whole := evs + [Collect] + Hasty(remaining);
    assert forall k :: |evs| <= k < |whole| ==> whole[k] in [Collect, DrainFlush(Committed), Cancel];
    assert forall k :: 0 <= k < |evs| ==> whole[k] == evs[k];
  }

  /** A condition that can be read off before the drain starts: every clean completion of the shutdown keeps every
      accepted entry exactly when the worker's batch is empty at that moment. */
  lemma DrainKeepsEverythingIff(size: nat, evs: seq<Event>)
    requires size > 0 && Run(size, evs).Some? && CleanShutdown(evs) && Run(size, evs).value.shutdown.Signalled?
    ensures (forall rest: seq<Event> ::
               var whole := evs + [Collect] + rest;
               Run(size, whole).Some? && CleanShutdown(whole) && Run(size, whole).value.shutdown.Drained? ==>
               Lossless(size, whole))
            <==> Held(Run(size, evs).value.worker) == []
  {
    if Held(Run(size, evs).value.worker) == [] {
      forall rest: seq<Event> |
        var whole := evs + [Collect] + rest;
        Run(size, whole).Some? && CleanShutdown(whole) && Run(size, whole).value.shutdown.Drained?
        ensures Lossless(size, evs + [Collect] + rest)
      {
        var whole := evs + [Collect] + rest;
        assert whole[|evs|] == Collect && whole[..|evs|] == evs;
        LossDecidedAtDrain(size, whole, |evs|);
      }
    } else {
      var rest := Hasty(Entries(Run(size, evs).value.queue));
      var whole := evs + [Collect] + rest;
      HastyCompletes(size, evs);
      HastyIsClean(evs, Entries(Run(size, evs).value.queue));
      assert whole[|evs|] == Collect && whole[..|evs|] == evs;
      LossDecidedAtDrain(size, whole, |evs|);
    }
  }

  function TakenThenShutDown(r: Request): seq<Event> {
    [Put(r), Get, Signal, Collect, Cancel]
  }

  /** The loss is real: with a batch size above one, an entry taken just before shutdown is never written. */
  lemma ShutdownCanLoseAnEntry(size: nat, r: Request)
    requires size > 1 && MakeEntry(r).Some?
    ensures CleanShutdown(TakenThenShutDown(r))
    ensures Run(size, TakenThenShutDown(r)) == Some(State([], Cancelled([MakeEntry(r).value]), Drained, []))
  {
    var e := MakeEntry(r).value;
    var evs: seq<Event> := [];
    RunExtend(size, evs, Put(r));
    evs := evs + [Put(r)];
    assert Run(size, evs).value.queue == [Some(e)];
    RunExtend(size, evs, Get);
    evs := evs + [Get];
    assert Run(size, evs).value.queue == [] && Run(size, evs).value.worker.batch == [e];
    RunExtend(size, evs, Signal);
    evs := evs + [Signal];
    assert Run(size, evs).value.queue == [None];
    RunExtend(size, evs, Collect);
    evs := evs + [Collect];
    assert Entries([None]) == [];
    assert Run(size, evs) == Some(State([], Idle([e]), Drained, []));
    RunExtend(size, evs, Cancel);
    assert evs + [Cancel] == TakenThenShutDown(r);
  }

  lemma RunExtend(size: nat, evs: seq<Event>, ev: Event)
    requires Run(size, evs).Some?
    ensures Run(size, evs + [ev]) == Step(size, Run(size, evs).value, ev)
  {
    AppendFront(evs, ev);
  }

  // ---------------------------------------------------------------------
  // The queue as code: one method per stretch between two awaits
  // ---------------------------------------------------------------------

  class AuditService {
    const size: nat
    var queue: seq<Option<Entry>>
    var worker: Worker
    var shutdown: Shutdown
    var persisted: seq<Entry>

    ghost function View(): State
      reads this
    {
      State(queue, worker, shutdown, persisted)
    }

    constructor (size: nat)
      ensures this.size == size && View() == START
    {
      this.size := size;
      queue, worker, shutdown, persisted := [], Idle([]), Serving, [];
    }

    method EnqueueAuditEntry(r: Request)
      modifies this
      ensures Some(View()) == Step(size, old(View()), Put(r))
      ensures r.action == None || r.action == Some("") ==> queue == old(queue)
      ensures r.action.Some? && r.action.value != "" ==>
                && |queue| == |old(queue)| + 1 && queue[..|old(queue)|] == old(queue)
                && var e := queue[|old(queue)|];
                && e.Some? && e.value.action == r.action.value && e.value.detail == r.detail
                && (r.resourceType == None || r.resourceType == Some("") ==> e.value.resourceType == "unknown")
                && (r.resourceType.Some? && r.resourceType.value != "" ==>
                      e.value.resourceType == r.resourceType.value)
    {
      var entry := MakeEntry(r);
      if entry.Some? {
        queue := queue + [entry];
      }
    }

    /** The worker's get succeeds, up to its next await. */
    method TakeNext()
      requires Step(size, View(), Get).Some?
      modifies this
      ensures Some(View()) == Step(size, old(View()), Get)
      ensures queue == old(queue)[1..] && persisted == old(persisted)
      ensures match old(queue)[0]
              case Some(e) => worker == if |old(worker.batch)| + 1 < size then Idle(old(worker.batch) + [e])
                                        else Flushing(old(worker.batch) + [e], Full)
              case None => worker == if old(worker.batch) == [] then Exited else Flushing(old(worker.batch), Final)
    {
      var entry := queue[0];
      queue := queue[1..];
      var batch := worker.batch;
      if entry.None? {
        worker := if batch == [] then Exited else Flushing(batch, Final);
      } else {
        batch := batch + [entry.value];
        worker := if |batch| >= size then Flushing(batch, Full) else Idle(batch);
      }
    }

    method GetTimesOut()
      requires Step(size, View(), Tick).Some?
      modifies this
      ensures Some(View()) == Step(size, old(View()), Tick)
      ensures old(worker.batch) != [] ==> worker == Flushing(old(worker.batch), Timer)
      ensures old(worker.batch) == [] ==> worker == old(worker)
    {
      if worker.batch != [] {
        worker := Flushing(worker.batch, Timer);
      }
    }

    method FlushBatchEnds(c: Commit)
      requires Step(size, View(), Flush(c)).Some?
      modifies this
      ensures Some(View()) == Step(size, old(View()), Flush(c))
      ensures c.Committed? ==>
                persisted == old(persisted + worker.batch) &&
                worker == if old(worker.reason.Final?) then Exited else Idle([])
      ensures !c.Committed? ==>
                persisted == old(persisted) &&
                worker == if c.CommitTimeout? && old(worker.reason.Full?) then Flushing(old(worker.batch), Timer)
                          else Crashed(old(worker.batch))
    {
      var batch, reason := worker.batch, worker.reason;
      match c {
        case Committed =>
          persisted := persisted + batch;
          worker := if reason.Final? then Exited else Idle([]);
        case CommitTimeout =>
          worker := if reason.Full? then Flushing(batch, Timer) else Crashed(batch);
        case CommitError =>
          worker := Crashed(batch);
      }
    }

    method EnqueueShutdownSignal()
      requires Step(size, View(), Signal).Some?
      modifies this
      ensures Some(View()) == Step(size, old(View()), Signal)
      ensures queue == old(queue) + [None] && shutdown.Signalled?
    {
      queue := queue + [None];
      shutdown := Signalled;
    }

    /** The loop of `drain_audit_queue`: it empties the queue and keeps the entries, in order. */
    method DrainAuditQueue()
      requires Step(size, View(), Collect).Some?
      modifies this
      ensures Some(View()) == Step(size, old(View()), Collect)
      ensures queue == [] && worker == old(worker) && persisted == old(persisted)
    {
      var remaining: seq<Entry> := [];
      ghost var all := Entries(queue);
      while queue != []
        invariant remaining + Entries(queue) == all
        invariant worker == old(worker) && shutdown == old(shutdown) && persisted == old(persisted)
        decreases |queue|
      {
        var entry := queue[0];
        DrainNext(remaining, queue);
        queue := queue[1..];
        if entry.Some? {
          remaining := remaining + [entry.value];
        }
      }
      assert remaining == all;
      shutdown := if remaining == [] then Drained else Draining(remaining);
    }

    method DrainFlushEnds(c: Commit)
      requires Step(size, View(), DrainFlush(c)).Some?
      modifies this
      ensures Some(View()) == Step(size, old(View()), DrainFlush(c))
      ensures persisted == if c.Committed? then old(persisted + shutdown.buffer) else old(persisted)
    {
      if c.Committed? {
        persisted := persisted + shutdown.buffer;
        shutdown := Drained;
      } else {
        shutdown := DrainFailed(shutdown.buffer);
      }
    }

    method CancelWorker()
      requires Step(size, View(), Cancel).Some?
      modifies this
      ensures Some(View()) == Step(size, old(View()), Cancel)
      ensures old(AtWork(worker)) ==> worker == Cancelled(old(worker.batch))
    {
      if worker.Idle? || worker.Flushing? {
        worker := Cancelled(worker.batch);
      }
    }

    /** The stretch of code that an event of the schedule stands for. */
    method Handle(ev: Event)
      requires Step(size, View(), ev).Some?
      modifies this
      ensures Some(View()) == Step(size, old(View()), ev)
    {
      match ev {
        case Put(r) => EnqueueAuditEntry(r);
        case Get => TakeNext();
        case Tick => GetTimesOut();
        case Flush(c) => FlushBatchEnds(c);
        case Signal => EnqueueShutdownSignal();
        case Collect => DrainAuditQueue();
        case DrainFlush(c) => DrainFlushEnds(c);
        case Cancel => CancelWorker();
      }
    }
  }

  /** The whole service under a given schedule: at every moment each accepted entry is in exactly one place, and
      after a clean shutdown all that can be missing from the database is the batch of the worker. */
  method Replay(size: nat, schedule: seq<Event>) returns (service: AuditService)
    requires size > 0 && Run(size, schedule).Some?
    ensures fresh(service) && Some(service.View()) == Run(size, schedule)
    ensures Whereabouts(service.View()) == multiset(Accepted(schedule)) && BatchBounded(size, service.worker)
    ensures CleanShutdown(schedule) && service.shutdown.Drained? ==>
              multiset(Accepted(schedule)) == multiset(service.persisted) + multiset(Held(service.worker))
  {
    service := new AuditService(size);
    var k := 0;
    while k < |schedule|
      invariant 0 <= k <= |schedule| && fresh(service) && service.size == size
      invariant Run(size, schedule[..k]) == Some(service.View())
    {
      RunPrefix(size, schedule, k);
      service.Handle(schedule[k]);
      k := k + 1;
    }
    WholePrefix(schedule);
    Conservation(size, schedule);
    if CleanShutdown(schedule) && service.shutdown.Drained? {
      ShutdownLosesOnlyTheBatch(size, schedule);
    }
  }
}
