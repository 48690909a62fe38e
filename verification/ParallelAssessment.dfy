/**
 The semaphore-bounded fan-out of `ParallelAssessmentService.assess_parallel`.

 Code between two awaits is one event, so a run is a sequence of events and every
 interleaving is some sequence that `Run` accepts.  What the evaluator does (return,
 time out, raise) is carried by the event: the environment is free to choose it.
*/
module ParallelAssessment {
  import opened Prelude

  datatype Status = Completed | Failed | TimedOut

  /** `SingleVMResult`; `report` stands for the compatibility and mapping results. */
  datatype SingleResult<R> = SingleResult(vmId: string, status: Status, report: Option<R>, error: string)

  /** How one `wait_for(_evaluate_single(...))` ends. */
  datatype Outcome<R> = Returned(result: SingleResult<R>) | TimeoutError | Raised(error: string)

  /** Where the task of one requested position stands. */
  datatype Phase<R> = Waiting | First | Second(firstError: string) | Done(result: SingleResult<R>)

  datatype TaskStatus = Running | AllCompleted | CompletedWithErrors

  /** `ParallelAssessmentProgress`. */
  datatype Progress = Progress(total: nat, completed: nat, failed: nat, inProgress: int, status: TaskStatus)

  /** Events: the semaphore is entered, an evaluation ends, the consumer loop takes a result, the call returns. */
  datatype Event<R> = Acquire(pos: nat) | Resume(pos: nat, outcome: Outcome<R>) | Deliver | Return

  /** `finished` lists results in completion order; the consumer has taken its first `|results|` elements. */
  datatype State<R> = State(
    phases: seq<Phase<R>>, permits: nat, finished: seq<SingleResult<R>>, results: seq<SingleResult<R>>,
    progress: Progress, timeouts: nat, returned: bool)

  function Init<R>(ids: seq<string>, max: nat): State<R> {
    State(seq(|ids|, i => Waiting), max, [], [], Progress(|ids|, 0, 0, |ids|, Running), 0, false)
  }

  function TimeoutResult<R>(id: string): SingleResult<R> {
    SingleResult(id, TimedOut, None, "Evaluation timed out")
  }

  /** What `_evaluate_single` can hand back: its own id, and never the status "timeout". */
  predicate Evaluated<R>(id: string, r: SingleResult<R>) {
    r.vmId == id && r.status != TimedOut
  }

  /** A task ends: its result joins the finished list and the semaphore is released. */
  function Finish<R>(s: State<R>, i: nat, r: SingleResult<R>): State<R>
    requires i < |s.phases|
  {
    s.(phases := s.phases[i := Done(r)], permits := s.permits + 1, finished := s.finished + [r],
       timeouts := s.timeouts + if r.status == TimedOut then 1 else 0)
  }

  function StepResume<R>(id: string, s: State<R>, i: nat, o: Outcome<R>): Option<State<R>>
    requires i < |s.phases|
  {
    if o.Returned? && !Evaluated(id, o.result) then None else
    match s.phases[i]
    case First =>
      (match o
       case Returned(r) => Some(Finish(s, i, r))
       case TimeoutError => Some(Finish(s, i, TimeoutResult(id)))
       case Raised(e) => Some(s.(phases := s.phases[i := Second(e)])))
    case Second(e) =>
      (match o
       case Returned(r) => Some(Finish(s, i, r))
       case TimeoutError => Some(Finish(s, i, TimeoutResult(id)))
       case Raised(_) => Some(Finish(s, i, SingleResult(id, Failed, None, e))))
    case _ => None
  }

  function StepDeliver<R>(ids: seq<string>, s: State<R>): Option<State<R>> {
    if |s.results| >= |s.finished| then None else
    var single := s.finished[|s.results|];
    var completed := s.progress.completed + if single.status == Completed then 1 else 0;
    var failed := s.progress.failed + if single.status == Completed then 0 else 1;
    Some(s.(results := s.results + [single],
            progress := s.progress.(completed := completed, failed := failed,
                                    inProgress := |ids| - completed - failed)))
  }

  function Step<R>(ids: seq<string>, s: State<R>, ev: Event<R>): Option<State<R>>
    requires |s.phases| == |ids|
  {
    if s.returned then None else
    match ev
    case Acquire(i) =>
      if i < |ids| && s.phases[i].Waiting? && s.permits > 0
      then Some(s.(phases := s.phases[i := First], permits := s.permits - 1))
      else None
    case Resume(i, o) => if i < |ids| then StepResume(ids[i], s, i, o) else None
    case Deliver => StepDeliver(ids, s)
    case Return =>
      if |s.results| != |ids| then None else
      Some(s.(returned := true,
              progress := s.progress.(
                status := if s.progress.failed == 0 then AllCompleted else CompletedWithErrors,
                inProgress := 0)))
  }

  /** The state after `evs`, or None when some event could not happen where it stands. */
  function Run<R>(ids: seq<string>, max: nat, evs: seq<Event<R>>): (r: Option<State<R>>)
    ensures r.Some? ==> |r.value.phases| == |ids|
  {
    if evs == [] then Some(Init(ids, max)) else
    match Run(ids, max, evs[..|evs| - 1])
    case None => None
    case Some(s) => Step(ids, s, evs[|evs| - 1])
  }

  // ---------------------------------------------------------------------
  // Counting over positions
  // ---------------------------------------------------------------------

  /** Positions below `n` inside `async with semaphore`. */
  function Active<R>(phases: seq<Phase<R>>, n: nat): nat
    requires n <= |phases|
  {
    if n == 0 then 0 else Active(phases, n - 1) + if IsActive(phases[n - 1]) then 1 else 0
  }

  predicate IsActive<R>(p: Phase<R>) {
    p.First? || p.Second?
  }

  /** The results of the positions below `n` that are done. */
  ghost function DoneResults<R>(phases: seq<Phase<R>>, n: nat): multiset<SingleResult<R>>
    requires n <= |phases|
  {
    if n == 0 then multiset{} else DoneResults(phases, n - 1) + ResultIn(phases[n - 1])
  }

  ghost function ResultIn<R>(p: Phase<R>): multiset<SingleResult<R>> {
    if p.Done? then multiset{p.result} else multiset{}
  }

  function Weight<R>(p: Phase<R>): nat {
    match p case Waiting => 3 case First => 2 case Second(_) => 1 case Done(_) => 0
  }

  function Pending<R>(phases: seq<Phase<R>>, n: nat): nat
    requires n <= |phases|
  {
    if n == 0 then 0 else Pending(phases, n - 1) + Weight(phases[n - 1])
  }

  function CountStatus<R>(rs: seq<SingleResult<R>>, st: Status): nat {
    if rs == [] then 0
    else CountStatus(rs[..|rs| - 1], st) + if rs[|rs| - 1].status == st then 1 else 0
  }

  lemma {:induction false} UpdateBeyond<R>(phases: seq<Phase<R>>, i: nat, p: Phase<R>, n: nat)
    requires n <= i < |phases|
    ensures Active(phases[i := p], n) == Active(phases, n)
    ensures Pending(phases[i := p], n) == Pending(phases, n)
    ensures DoneResults(phases[i := p], n) == DoneResults(phases, n)
  {
    if n > 0 {
      UpdateBeyond(phases, i, p, n - 1);
    }
  }

  lemma {:induction false} UpdateCounts<R>(phases: seq<Phase<R>>, i: nat, p: Phase<R>, n: nat)
    requires i < n <= |phases| && !phases[i].Done?
    ensures Active(phases[i := p], n) ==
            Active(phases, n) - (if phases[i].Waiting? then 0 else 1) + (if IsActive(p) then 1 else 0)
    ensures Pending(phases[i := p], n) == Pending(phases, n) - Weight(phases[i]) + Weight(p)
  {
    if i == n - 1 {
      UpdateBeyond(phases, i, p, i);
    } else {
      UpdateCounts(phases, i, p, n - 1);
    }
  }

  lemma {:induction false} UpdateResults<R>(phases: seq<Phase<R>>, i: nat, p: Phase<R>, n: nat)
    requires i < n <= |phases| && !phases[i].Done?
    ensures DoneResults(phases[i := p], n) == DoneResults(phases, n) + ResultIn(p)
  {
    if i == n - 1 {
      UpdateBeyond(phases, i, p, i);
    } else {
      UpdateResults(phases, i, p, n - 1);
      MultisetSwapLast(DoneResults(phases, n - 1), ResultIn(p), ResultIn(phases[n - 1]));
    }
  }

  /** How the counts move when position `i`, not done yet, enters phase `p`. */
  lemma UpdatePhase<R>(phases: seq<Phase<R>>, i: nat, p: Phase<R>, n: nat)
    requires i < n <= |phases| && !phases[i].Done?
    ensures Active(phases[i := p], n) ==
            Active(phases, n) - (if phases[i].Waiting? then 0 else 1) + (if IsActive(p) then 1 else 0)
    ensures Pending(phases[i := p], n) == Pending(phases, n) - Weight(phases[i]) + Weight(p)
    ensures DoneResults(phases[i := p], n) == DoneResults(phases, n) + ResultIn(p)
  {
    UpdateCounts(phases, i, p, n);
    UpdateResults(phases, i, p, n);
  }

  lemma {:induction false} AllWaiting<R>(phases: seq<Phase<R>>, n: nat)
    requires n <= |phases| && forall i :: 0 <= i < n ==> phases[i].Waiting?
    ensures Active(phases, n) == 0 && DoneResults(phases, n) == multiset{} && Pending(phases, n) == 3 * n
  {
    if n > 0 {
      AllWaiting(phases, n - 1);
    }
  }

  ghost predicate AllDone<R>(phases: seq<Phase<R>>, n: nat)
    requires n <= |phases|
  {
    forall i :: 0 <= i < n ==> phases[i].Done?
  }

  lemma AllDoneNext<R>(phases: seq<Phase<R>>, n: nat)
    requires 0 < n <= |phases|
    ensures AllDone(phases, n) <==> AllDone(phases, n - 1) && phases[n - 1].Done?
  {
  }

  lemma ResultInSize<R>(p: Phase<R>)
    ensures |ResultIn(p)| == if p.Done? then 1 else 0
  {
  }

  lemma {:induction false} DoneResultsSize<R>(phases: seq<Phase<R>>, n: nat)
    requires n <= |phases|
    ensures |DoneResults(phases, n)| <= n
    ensures |DoneResults(phases, n)| == n <==> AllDone(phases, n)
  {
    if n > 0 {
      DoneResultsSize(phases, n - 1);
      AllDoneNext(phases, n);
      ResultInSize(phases[n - 1]);
      MultisetSizes(DoneResults(phases, n - 1), ResultIn(phases[n - 1]));
    }
  }

  lemma {:induction false} DoneResultsInOrder<R>(phases: seq<Phase<R>>, rs: seq<SingleResult<R>>)
    requires |rs| <= |phases| && forall i :: 0 <= i < |rs| ==> phases[i] == Done(rs[i])
    ensures DoneResults(phases, |rs|) == multiset(rs)
  {
    if rs != [] {
      DoneResultsInOrder(phases, rs[..|rs| - 1]);
      LastMultiset(rs);
    }
  }

  lemma CountStatusNext<R>(rs: seq<SingleResult<R>>, r: SingleResult<R>, st: Status)
    ensures CountStatus(rs + [r], st) == CountStatus(rs, st) + if r.status == st then 1 else 0
  {
    AppendFront(rs, r);
  }

  lemma {:induction false} CountStatusTotal<R>(rs: seq<SingleResult<R>>, st: Status)
    ensures CountStatus(rs, st) <= |rs|
    ensures CountStatus(rs, st) == |rs| <==> forall r :: r in rs ==> r.status == st
  {
    if rs != [] {
      var k := |rs| - 1;
      CountStatusTotal(rs[..k], st);
      assert rs == rs[..k] + [rs[k]];
    }
  }

  // ---------------------------------------------------------------------
  // What every reachable state keeps
  // ---------------------------------------------------------------------

  /** Permits and active evaluations add up, and the finished results are those of the positions that are done. */
  ghost predicate TasksInv<R>(ids: seq<string>, max: nat, s: State<R>) {
    && |s.phases| == |ids|
    && s.permits + Active(s.phases, |ids|) == max
    && multiset(s.finished) == DoneResults(s.phases, |ids|)
    && s.timeouts == CountStatus(s.finished, TimedOut)
    && (forall i :: 0 <= i < |ids| && s.phases[i].Done? ==> s.phases[i].result.vmId == ids[i])
  }

  /** The progress record balances at every moment. */
  ghost predicate ProgressInv<R>(ids: seq<string>, s: State<R>) {
    && s.results <= s.finished
    && s.progress.total == |ids|
    && s.progress.completed == CountStatus(s.results, Completed)
    && s.progress.completed + s.progress.failed == |s.results|
    && s.progress.completed + s.progress.failed + s.progress.inProgress == |ids|
    && (s.returned ==> |s.results| == |ids|)
    && s.progress.status == (if !s.returned then Running
                             else if s.progress.failed == 0 then AllCompleted else CompletedWithErrors)
  }

  ghost predicate Inv<R>(ids: seq<string>, max: nat, s: State<R>) {
    TasksInv(ids, max, s) && ProgressInv(ids, s)
  }

  lemma FinishKeepsTasks<R>(ids: seq<string>, max: nat, s: State<R>, i: nat, r: SingleResult<R>)
    requires TasksInv(ids, max, s)
    requires i < |ids| && IsActive(s.phases[i]) && r.vmId == ids[i]
    ensures TasksInv(ids, max, Finish(s, i, r))
  {
    var t := Finish(s, i, r);
    assert t.permits + Active(t.phases, |ids|) == max by {
      UpdateCounts(s.phases, i, Done(r), |ids|);
    }
    assert multiset(t.finished) == DoneResults(t.phases, |ids|) by {
      UpdateResults(s.phases, i, Done(r), |ids|);
      AppendMultiset(s.finished, r);
    }
    CountStatusNext(s.finished, r, TimedOut);
  }

  lemma FinishKeepsInv<R>(ids: seq<string>, max: nat, s: State<R>, i: nat, r: SingleResult<R>)
    requires Inv(ids, max, s) && !s.returned
    requires i < |ids| && IsActive(s.phases[i]) && r.vmId == ids[i]
    ensures Inv(ids, max, Finish(s, i, r))
  {
    FinishKeepsTasks(ids, max, s, i, r);
  }

  lemma DeliverKeepsInv<R>(ids: seq<string>, max: nat, s: State<R>)
    requires Inv(ids, max, s) && !s.returned && StepDeliver(ids, s).Some?
    ensures Inv(ids, max, StepDeliver(ids, s).value)
  {
    var t := StepDeliver(ids, s).value;
    CountStatusNext(s.results, s.finished[|s.results|], Completed);
    assert t.results == s.finished[..|t.results|];
  }

  lemma ResumeEffect<R>(id: string, s: State<R>, i: nat, o: Outcome<R>)
    requires i < |s.phases| && StepResume(id, s, i, o).Some?
    ensures s.phases[i].First? || s.phases[i].Second?
    ensures var t := StepResume(id, s, i, o).value;
            || (s.phases[i].First? && o.Raised? && t == s.(phases := s.phases[i := Second(o.error)]))
            || (&& t.phases[i].Done? && t == Finish(s, i, t.phases[i].result)
                && t.phases[i].result.vmId == id
                && t.phases[i].result ==
                   Conclude(id, if s.phases[i].First? then "" else s.phases[i].firstError, o)
                && (s.phases[i].First? ==> !o.Raised?))
  {
  }

  lemma ResumeKeepsInv<R>(ids: seq<string>, max: nat, s: State<R>, i: nat, o: Outcome<R>)
    requires Inv(ids, max, s) && !s.returned && i < |ids| && StepResume(ids[i], s, i, o).Some?
    ensures Inv(ids, max, StepResume(ids[i], s, i, o).value)
  {
    ResumeEffect(ids[i], s, i, o);
    var t := StepResume(ids[i], s, i, o).value;
    if t.phases[i].Done? {
      FinishKeepsInv(ids, max, s, i, t.phases[i].result);
    } else {
      UpdatePhase(s.phases, i, t.phases[i], |ids|);
    }
  }

  lemma StepKeepsInv<R>(ids: seq<string>, max: nat, s: State<R>, ev: Event<R>)
    requires Inv(ids, max, s) && Step(ids, s, ev).Some?
    ensures Inv(ids, max, Step(ids, s, ev).value)
  {
    match ev {
      case Acquire(i) => UpdatePhase(s.phases, i, First, |ids|);
      case Resume(i, o) => ResumeKeepsInv(ids, max, s, i, o);
      case Deliver => DeliverKeepsInv(ids, max, s);
      case Return =>
    }
  }

  /** In every interleaving: permits and active evaluations add up, and the progress record balances. */
  lemma {:induction false} Safety<R>(ids: seq<string>, max: nat, evs: seq<Event<R>>)
    requires Run(ids, max, evs).Some?
    ensures Inv(ids, max, Run(ids, max, evs).value)
  {
    if evs == [] {
      AllWaiting(Init<R>(ids, max).phases, |ids|);
    } else {
      var k := |evs| - 1;
      Safety(ids, max, evs[..k]);
      StepKeepsInv(ids, max, Run(ids, max, evs[..k]).value, evs[k]);
    }
  }

  // ---------------------------------------------------------------------
  // The life of one position
  // ---------------------------------------------------------------------

  /** Times position `i` entered the semaphore. */
  function Acquires<R>(evs: seq<Event<R>>, i: nat): nat {
    if evs == [] then 0 else
    Acquires(evs[..|evs| - 1], i) + if evs[|evs| - 1] == Acquire(i) then 1 else 0
  }

  /** The endings of the evaluations of position `i`, in order. */
  function Endings<R>(evs: seq<Event<R>>, i: nat): seq<Outcome<R>> {
    if evs == [] then [] else
    var last := evs[|evs| - 1];
    Endings(evs[..|evs| - 1], i) + if last.Resume? && last.pos == i then [last.outcome] else []
  }

  /** The result that a list of endings stands for: one evaluation, or two when the first one raised. */
  function ResultOf<R>(id: string, endings: seq<Outcome<R>>): Option<SingleResult<R>> {
    match |endings|
    case 1 => if endings[0].Raised? then None else Some(Conclude(id, "", endings[0]))
    case 2 => if endings[0].Raised? then Some(Conclude(id, endings[0].error, endings[1])) else None
    case _ => None
  }

  function Conclude<R>(id: string, firstError: string, o: Outcome<R>): SingleResult<R> {
    match o
    case Returned(r) => r
    case TimeoutError => TimeoutResult(id)
    case Raised(_) => SingleResult(id, Failed, None, firstError)
  }

  /** What the phase of a position says about its history. */
  ghost predicate History<R>(id: string, p: Phase<R>, acquires: nat, endings: seq<Outcome<R>>) {
    match p
    case Waiting => acquires == 0 && endings == []
    case First => acquires == 1 && endings == []
    case Second(e) => acquires == 1 && endings == [Raised(e)]
    case Done(r) => acquires == 1 && ResultOf(id, endings) == Some(r)
  }

  lemma StepExtendsHistory<R>(
    ids: seq<string>, s: State<R>, ev: Event<R>, i: nat, acquires: nat, endings: seq<Outcome<R>>)
    requires |s.phases| == |ids| && i < |ids| && Step(ids, s, ev).Some?
    requires History(ids[i], s.phases[i], acquires, endings)
    ensures History(ids[i], Step(ids, s, ev).value.phases[i],
                    acquires + (if ev == Acquire(i) then 1 else 0),
                    endings + (if ev.Resume? && ev.pos == i then [ev.outcome] else []))
  {
    if ev.Resume? {
      ResumeEffect(ids[ev.pos], s, ev.pos, ev.outcome);
    }
  }

  lemma {:induction false} PhaseTellsHistory<R>(ids: seq<string>, max: nat, evs: seq<Event<R>>, i: nat)
    requires Run(ids, max, evs).Some? && i < |ids|
    ensures History(ids[i], Run(ids, max, evs).value.phases[i], Acquires(evs, i), Endings(evs, i))
  {
    if evs != [] {
      var k := |evs| - 1;
      PhaseTellsHistory(ids, max, evs[..k], i);
      StepExtendsHistory(ids, Run(ids, max, evs[..k]).value, evs[k], i, Acquires(evs[..k], i), Endings(evs[..k], i));
    }
  }

  /** A position is evaluated at most twice, and the second time only after an exception other than a timeout. */
  lemma AtMostOneRetry<R>(ids: seq<string>, max: nat, evs: seq<Event<R>>, i: nat)
    requires Run(ids, max, evs).Some? && i < |ids|
    ensures Acquires(evs, i) <= 1 && |Endings(evs, i)| <= 2
    ensures |Endings(evs, i)| == 2 ==> Endings(evs, i)[0].Raised?
    ensures Run(ids, max, evs).value.phases[i].Done? <==> ResultOf(ids[i], Endings(evs, i)).Some?
  {
    PhaseTellsHistory(ids, max, evs, i);
  }

  /** What one position's result owes to how its evaluations ended. */
  ghost predicate Deserved<R>(id: string, endings: seq<Outcome<R>>, r: SingleResult<R>) {
    && 1 <= |endings| <= 2 && r.vmId == id
    && match endings[|endings| - 1]
       case Returned(given) => r == given && r.status != TimedOut
       case TimeoutError => r.status == TimedOut && r.report == None
       case Raised(_) =>
         |endings| == 2 && endings[0].Raised?
         && r.status == Failed && r.report == None && r.error == endings[0].error
  }

  lemma ResultDeserved<R>(id: string, endings: seq<Outcome<R>>, r: SingleResult<R>)
    requires ResultOf(id, endings) == Some(r) && AllEvaluated(id, endings)
    ensures Deserved(id, endings, r)
  {
  }

  /** A done position carries what its own endings deserve: the result the evaluator returned, a timeout with its id
      and no report when the last evaluation timed out, or a failure with the first error when both raised. */
  lemma DoneAsDeserved<R>(ids: seq<string>, max: nat, evs: seq<Event<R>>, i: nat)
    requires Run(ids, max, evs).Some? && i < |ids| && Run(ids, max, evs).value.phases[i].Done?
    ensures Deserved(ids[i], Endings(evs, i), Run(ids, max, evs).value.phases[i].result)
  {
    PhaseTellsHistory(ids, max, evs, i);
    EndingsEvaluated(ids, max, evs, i);
    ResultDeserved(ids[i], Endings(evs, i), Run(ids, max, evs).value.phases[i].result);
  }

  ghost predicate AllEvaluated<R>(id: string, endings: seq<Outcome<R>>) {
    forall k :: 0 <= k < |endings| && endings[k].Returned? ==>
      endings[k].result.vmId == id && endings[k].result.status != TimedOut
  }

  /** What an evaluation returned is a result for its own id and never a timeout. */
  lemma {:induction false} EndingsEvaluated<R>(ids: seq<string>, max: nat, evs: seq<Event<R>>, i: nat)
    requires Run(ids, max, evs).Some? && i < |ids|
    ensures AllEvaluated(ids[i], Endings(evs, i))
  {
    if evs != [] {
      EndingsEvaluated(ids, max, evs[..|evs| - 1], i);
    }
  }

  predicate EndsInTimeout<R>(endings: seq<Outcome<R>>) {
    endings != [] && endings[|endings| - 1].TimeoutError?
  }

  /** The endings of every position. */
  function AllEndings<R>(evs: seq<Event<R>>, n: nat): seq<seq<Outcome<R>>> {
    seq(n, i requires 0 <= i < n => Endings(evs, i))
  }

  /** How many of the first `n` positions timed out in their last evaluation. */
  function TimedOutAmong<R>(endings: seq<seq<Outcome<R>>>, n: nat): nat
    requires n <= |endings|
  {
    if n == 0 then 0 else TimedOutAmong(endings, n - 1) + if EndsInTimeout(endings[n - 1]) then 1 else 0
  }

  function TimedOutPositions<R>(evs: seq<Event<R>>, n: nat): nat {
    TimedOutAmong(AllEndings(evs, n), n)
  }

  /** Position `p` gets one more ending, and had not timed out before. */
  lemma {:induction false} TimeoutsMove<R>(
    a: seq<seq<Outcome<R>>>, b: seq<seq<Outcome<R>>>, p: nat, o: Outcome<R>, n: nat)
    requires n <= |a| == |b| && p < |a| && !EndsInTimeout(a[p])
    requires forall i :: 0 <= i < |a| ==> b[i] == if i == p then a[i] + [o] else a[i]
    ensures TimedOutAmong(b, n) == TimedOutAmong(a, n) + if o.TimeoutError? && p < n then 1 else 0
  {
    if n > 0 {
      TimeoutsMove(a, b, p, o, n - 1);
    }
  }

  lemma {:induction false} NoTimeoutsYet<R>(endings: seq<seq<Outcome<R>>>, n: nat)
    requires n <= |endings| && forall i :: 0 <= i < n ==> endings[i] == []
    ensures TimedOutAmong(endings, n) == 0
  {
    if n > 0 {
      NoTimeoutsYet(endings, n - 1);
    }
  }

  lemma StepCountsTimeouts<R>(ids: seq<string>, max: nat, evs: seq<Event<R>>)
    requires evs != [] && Run(ids, max, evs).Some?
    ensures var k := |evs| - 1;
            var before, after, ev := Run(ids, max, evs[..k]).value, Run(ids, max, evs).value, evs[k];
            && after.timeouts == before.timeouts + (if ev.Resume? && ev.outcome.TimeoutError? then 1 else 0)
            && (ev.Resume? ==> ev.pos < |ids| && !EndsInTimeout(Endings(evs[..k], ev.pos)))
  {
    var k := |evs| - 1;
    var s, ev := Run(ids, max, evs[..k]).value, evs[k];
    if ev.Resume? {
      PhaseTellsHistory(ids, max, evs[..k], ev.pos);
      ResumeEffect(ids[ev.pos], s, ev.pos, ev.outcome);
    }
  }

  /** The timeout counter is the number of positions whose last evaluation timed out, at every moment. */
  lemma {:induction false} TimeoutsCounted<R>(ids: seq<string>, max: nat, evs: seq<Event<R>>)
    requires Run(ids, max, evs).Some?
    ensures Run(ids, max, evs).value.timeouts == TimedOutPositions(evs, |ids|)
  {
    if evs == [] {
      NoTimeoutsYet(AllEndings(evs, |ids|), |ids|);
    } else {
      var k := |evs| - 1;
      TimeoutsCounted(ids, max, evs[..k]);
      StepCountsTimeouts(ids, max, evs);
      var before, after := AllEndings(evs[..k], |ids|), AllEndings(evs, |ids|);
      if evs[k].Resume? {
        TimeoutsMove(before, after, evs[k].pos, evs[k].outcome, |ids|);
      } else {
        assert forall i :: 0 <= i < |ids| ==> after[i] == before[i];
        assert after == before;
      }
    }
  }

  // ---------------------------------------------------------------------
  // Progress and termination
  // ---------------------------------------------------------------------

  /** Some event that can happen in `s`. */
  ghost predicate CanStep<R(!new)>(ids: seq<string>, s: State<R>)
    requires |s.phases| == |ids|
  {
    exists ev :: Step(ids, s, ev).Some?
  }

  lemma {:induction false} ActiveWitness<R>(phases: seq<Phase<R>>, n: nat) returns (i: nat)
    requires n <= |phases| && Active(phases, n) > 0
    ensures i < n && IsActive(phases[i])
  {
    if IsActive(phases[n - 1]) {
      i := n - 1;
    } else {
      i := ActiveWitness(phases, n - 1);
    }
  }

  lemma UndoneWitness<R>(phases: seq<Phase<R>>, n: nat) returns (i: nat)
    requires n <= |phases| && |DoneResults(phases, n)| < n
    ensures i < n && !phases[i].Done?
  {
    DoneResultsSize(phases, n);
    i :| 0 <= i < n && !phases[i].Done?;
  }

  /** While some position has no result, some task can move. */
  lemma TaskCanMove<R>(ids: seq<string>, max: nat, s: State<R>) returns (ev: Event<R>)
    requires Inv(ids, max, s) && !s.returned && max >= 1 && |s.finished| < |ids|
    ensures Step(ids, s, ev).Some?
  {
    var i: nat;
    if s.permits == 0 {
      i := ActiveWitness(s.phases, |ids|);
    } else {
      i := UndoneWitness(s.phases, |ids|);
    }
    ev := if s.phases[i].Waiting? then Acquire(i) else Resume(i, TimeoutError);
  }

  lemma UnfinishedCanStep<R>(ids: seq<string>, max: nat, s: State<R>) returns (ev: Event<R>)
    requires Inv(ids, max, s) && !s.returned && max >= 1
    ensures Step(ids, s, ev).Some?
  {
    if |s.results| < |s.finished| {
      ev := Deliver;
    } else {
      ResultsWithinRequests(ids, max, s);
      if |s.results| == |ids| {
        ev := Return;
      } else {
        ev := TaskCanMove(ids, max, s);
      }
    }
  }

  /** No reachable unfinished state is stuck, exactly when there is a permit or nothing to assess. */
  lemma DeadlockFreeIff<R(!new)>(ids: seq<string>, max: nat)
    ensures (forall evs: seq<Event<R>> ::
               Run(ids, max, evs).Some? && !Run(ids, max, evs).value.returned ==>
               CanStep(ids, Run(ids, max, evs).value))
            <==> max >= 1 || ids == []
  {
    if max >= 1 {
      forall evs: seq<Event<R>> | Run(ids, max, evs).Some? && !Run(ids, max, evs).value.returned
        ensures CanStep(ids, Run(ids, max, evs).value)
      {
        Safety(ids, max, evs);
        var ev := UnfinishedCanStep(ids, max, Run(ids, max, evs).value);
      }
    } else if ids == [] {
      forall evs: seq<Event<R>> | Run(ids, max, evs).Some? && !Run(ids, max, evs).value.returned
        ensures CanStep(ids, Run(ids, max, evs).value)
      {
        Safety(ids, max, evs);
        assert Step(ids, Run(ids, max, evs).value, Return).Some?;
      }
    } else {
      var none: seq<Event<R>> := [];
      assert Run(ids, max, none) == Some(Init(ids, max));
      forall ev: Event<R>
        ensures Step(ids, Init(ids, max), ev).None?
      {
      }
      assert !CanStep(ids, Run(ids, max, none).value);
    }
  }

  /** What is left to do: every event takes at least one unit away. */
  function Remaining<R>(ids: seq<string>, s: State<R>): int
    requires |s.phases| == |ids|
  {
    Pending(s.phases, |ids|) + (|ids| - |s.results|) + if s.returned then 0 else 1
  }

  lemma StepDecreases<R>(ids: seq<string>, s: State<R>, ev: Event<R>)
    requires |s.phases| == |ids| && Step(ids, s, ev).Some?
    ensures Remaining(ids, Step(ids, s, ev).value) < Remaining(ids, s)
  {
    match ev {
      case Acquire(i) => UpdateCounts(s.phases, i, First, |ids|);
      case Resume(i, o) =>
        ResumeEffect(ids[i], s, i, o);
        UpdateCounts(s.phases, i, StepResume(ids[i], s, i, o).value.phases[i], |ids|);
      case _ =>
    }
  }

  lemma {:induction false} LengthPlusRemaining<R>(ids: seq<string>, max: nat, evs: seq<Event<R>>)
    requires Run(ids, max, evs).Some?
    ensures |evs| + Remaining(ids, Run(ids, max, evs).value) <= 4 * |ids| + 1
  {
    if evs == [] {
      AllWaiting(Init<R>(ids, max).phases, |ids|);
    } else {
      var k := |evs| - 1;
      LengthPlusRemaining(ids, max, evs[..k]);
      StepDecreases(ids, Run(ids, max, evs[..k]).value, evs[k]);
    }
  }

  /** Every run is short: at most four events per position and the return. */
  lemma RunsAreBounded<R>(ids: seq<string>, max: nat, evs: seq<Event<R>>)
    requires Run(ids, max, evs).Some?
    ensures |evs| <= 4 * |ids| + 1
  {
    LengthPlusRemaining(ids, max, evs);
    Safety(ids, max, evs);
    ResultsWithinRequests(ids, max, Run(ids, max, evs).value);
  }

  lemma ResultsWithinRequests<R>(ids: seq<string>, max: nat, s: State<R>)
    requires Inv(ids, max, s)
    ensures |s.results| <= |s.finished| == |DoneResults(s.phases, |ids|)| <= |ids|
  {
    DoneResultsSize(s.phases, |ids|);
    assert |multiset(s.finished)| == |s.finished|;
  }

  lemma RunExtend<R>(ids: seq<string>, max: nat, evs: seq<Event<R>>, ev: Event<R>)
    requires Run(ids, max, evs).Some?
    ensures Run(ids, max, evs + [ev]) == Step(ids, Run(ids, max, evs).value, ev)
  {
    AppendFront(evs, ev);
  }

  predicate Returns<R>(ids: seq<string>, max: nat, evs: seq<Event<R>>) {
    Run(ids, max, evs).Some? && Run(ids, max, evs).value.returned
  }

  lemma NextEvent<R>(ids: seq<string>, max: nat, evs: seq<Event<R>>) returns (ev: Event<R>)
    requires Run(ids, max, evs).Some? && !Returns(ids, max, evs) && (max >= 1 || ids == [])
    ensures Run(ids, max, evs + [ev]).Some? && |evs| < 4 * |ids| + 1
  {
    Safety(ids, max, evs);
    ev := Return;
    if ids != [] {
      ev := UnfinishedCanStep(ids, max, Run(ids, max, evs).value);
    } else {
      ResultsWithinRequests(ids, max, Run(ids, max, evs).value);
    }
    RunExtend(ids, max, evs, ev);
    RunsAreBounded(ids, max, evs + [ev]);
  }

  /** A way on from every accepted run to one in which the call returns. */
  lemma {:induction false} Completion<R>(ids: seq<string>, max: nat, evs: seq<Event<R>>) returns (rest: seq<Event<R>>)
    requires Run(ids, max, evs).Some? && (max >= 1 || ids == [])
    ensures Returns(ids, max, evs + rest)
    decreases 4 * |ids| + 1 - |evs|
  {
    if Returns(ids, max, evs) {
      rest := [];
      assert evs + rest == evs;
    } else {
      var ev := NextEvent(ids, max, evs);
      var later := Completion(ids, max, evs + [ev]);
      rest := [ev] + later;
      assert evs + rest == evs + [ev] + later;
    }
  }

  lemma {:induction false} NothingWithoutPermits<R>(ids: seq<string>, evs: seq<Event<R>>)
    requires ids != [] && Run(ids, 0, evs).Some?
    ensures evs == []
  {
    if evs != [] {
      NothingWithoutPermits(ids, evs[..|evs| - 1]);
    }
  }

  /** Every accepted run can be continued until the call returns, exactly when there is a permit or nothing to
      assess; and by `RunsAreBounded` no schedule can put the return off for ever. */
  lemma CanReturnIff<R(!new)>(ids: seq<string>, max: nat)
    ensures (forall evs: seq<Event<R>> :: Run(ids, max, evs).Some? ==>
               exists rest: seq<Event<R>> :: Returns(ids, max, evs + rest))
            <==> max >= 1 || ids == []
  {
    if max >= 1 || ids == [] {
      forall evs: seq<Event<R>> | Run(ids, max, evs).Some?
        ensures exists rest: seq<Event<R>> :: Returns(ids, max, evs + rest)
      {
        var rest := Completion(ids, max, evs);
      }
    } else {
      var none: seq<Event<R>> := [];
      assert Run(ids, max, none).Some?;
      forall rest: seq<Event<R>>
        ensures !Returns(ids, max, none + rest)
      {
        if Run(ids, max, none + rest).Some? {
          NothingWithoutPermits(ids, none + rest);
        }
      }
    }
  }

  // ---------------------------------------------------------------------
  // What a finished call returns
  // ---------------------------------------------------------------------

  /** Per position, the result its endings stand for (positions that are not done are not used below). */
  function ResultsByPosition<R>(ids: seq<string>, evs: seq<Event<R>>): seq<SingleResult<R>> {
    seq(|ids|, i requires 0 <= i < |ids| =>
          match ResultOf(ids[i], Endings(evs, i)) case Some(r) => r case None => TimeoutResult(ids[i]))
  }

  /** What `assess_parallel` owes its caller after the events `evs`. */
  ghost predicate Accounts<R>(
    ids: seq<string>, evs: seq<Event<R>>, progress: Progress, results: seq<SingleResult<R>>, timeouts: nat)
  {
    && |results| == |ids|
    && (forall i :: 0 <= i < |ids| ==> ResultOf(ids[i], Endings(evs, i)).Some?)
    && multiset(results) == multiset(ResultsByPosition(ids, evs))
    && (forall i :: 0 <= i < |ids| ==> Deserved(ids[i], Endings(evs, i), ResultsByPosition(ids, evs)[i]))
    && timeouts == TimedOutPositions(evs, |ids|)
    && progress.total == |ids|
    && progress.completed == CountStatus(results, Completed)
    && progress.completed + progress.failed == |ids|
    && progress.inProgress == 0
    && (progress.status == AllCompleted <==> forall r :: r in results ==> r.status == Completed)
    && timeouts == CountStatus(results, TimedOut)
  }

  lemma AllDoneResults<R>(ids: seq<string>, max: nat, evs: seq<Event<R>>)
    requires Run(ids, max, evs).Some? && AllDone(Run(ids, max, evs).value.phases, |ids|)
    ensures forall i :: 0 <= i < |ids| ==> ResultOf(ids[i], Endings(evs, i)).Some?
    ensures forall i :: 0 <= i < |ids| ==>
              Run(ids, max, evs).value.phases[i] == Done(ResultsByPosition(ids, evs)[i])
    ensures forall i :: 0 <= i < |ids| ==> Deserved(ids[i], Endings(evs, i), ResultsByPosition(ids, evs)[i])
  {
    forall i | 0 <= i < |ids|
      ensures ResultOf(ids[i], Endings(evs, i)) == Some(Run(ids, max, evs).value.phases[i].result)
      ensures Deserved(ids[i], Endings(evs, i), Run(ids, max, evs).value.phases[i].result)
    {
      PhaseTellsHistory(ids, max, evs, i);
      DoneAsDeserved(ids, max, evs, i);
    }
  }

  /** At return every position has given exactly one result, namely the one its own endings stand for;
      nothing is in progress, all permits are back, and status and timeout count match the results. */
  lemma ReturnedState<R>(ids: seq<string>, max: nat, evs: seq<Event<R>>)
    requires Run(ids, max, evs).Some? && Run(ids, max, evs).value.returned
    ensures var s := Run(ids, max, evs).value;
            s.permits == max && Accounts(ids, evs, s.progress, s.results, s.timeouts)
  {
    var s := Run(ids, max, evs).value;
    Safety(ids, max, evs);
    ResultsWithinRequests(ids, max, s);
    assert s.results == s.finished;
    DoneResultsSize(s.phases, |ids|);
    AllDoneResults(ids, max, evs);
    TimeoutsCounted(ids, max, evs);
    DoneResultsInOrder(s.phases, ResultsByPosition(ids, evs));
    CountStatusTotal(s.results, Completed);
    NoneActive(s.phases, |ids|);
  }

  lemma {:induction false} NoneActive<R>(phases: seq<Phase<R>>, n: nat)
    requires n <= |phases| && forall i :: 0 <= i < n ==> phases[i].Done?
    ensures Active(phases, n) == 0
  {
    if n > 0 {
      NoneActive(phases, n - 1);
    }
  }

  // ---------------------------------------------------------------------
  // Schedule independence
  // ---------------------------------------------------------------------

  /** `_evaluate_single` over an inventory lookup that also evaluates and maps the VM it finds. */
  function EvaluateSingle<R>(lookup: string -> Option<R>, id: string): SingleResult<R> {
    match lookup(id)
    case None => SingleResult(id, Failed, None, "not found in inventory")
    case Some(r) => SingleResult(id, Completed, Some(r), "")
  }

  /** The sequential assess endpoint: ids that are not in the inventory are skipped. */
  function SequentialAssess<R>(lookup: string -> Option<R>, ids: seq<string>): seq<R> {
    if ids == [] then [] else
    (match lookup(ids[0]) case None => [] case Some(r) => [r]) + SequentialAssess(lookup, ids[1..])
  }

  /** The evaluator always returns what the lookup says: it neither raises nor times out. */
  ghost predicate Deterministic<R>(lookup: string -> Option<R>, ids: seq<string>, evs: seq<Event<R>>) {
    forall k :: 0 <= k < |evs| && evs[k].Resume? && evs[k].pos < |ids| ==>
      evs[k].outcome == Returned(EvaluateSingle(lookup, ids[evs[k].pos]))
  }

  function ReportIn<R>(r: SingleResult<R>): seq<R> {
    if r.status == Completed && r.report.Some? then [r.report.value] else []
  }

  function CompletedReports<R>(rs: seq<SingleResult<R>>): seq<R> {
    if rs == [] then [] else ReportIn(rs[0]) + CompletedReports(rs[1..])
  }

  lemma {:induction false} EndingsDeterministic<R>(
    lookup: string -> Option<R>, ids: seq<string>, evs: seq<Event<R>>, i: nat)
    requires Deterministic(lookup, ids, evs) && i < |ids|
    ensures forall o :: o in Endings(evs, i) ==> o == Returned(EvaluateSingle(lookup, ids[i]))
  {
    if evs != [] {
      EndingsDeterministic(lookup, ids, evs[..|evs| - 1], i);
    }
  }

  lemma ReportsHead<R>(b: seq<SingleResult<R>>)
    requires b != []
    ensures multiset(CompletedReports(b)) == multiset(ReportIn(b[0])) + multiset(CompletedReports(b[1..]))
  {
    assert CompletedReports(b) == ReportIn(b[0]) + CompletedReports(b[1..]);
  }

  lemma {:induction false} ReportsWithout<R>(b: seq<SingleResult<R>>, j: nat)
    requires j < |b|
    ensures multiset(CompletedReports(b)) ==
            multiset(ReportIn(b[j])) + multiset(CompletedReports(Without(b, j)))
  {
    ReportsHead(b);
    var rest := Without(b, j);
    if j == 0 {
      WithoutHead(b);
    } else {
      ReportsWithout(b[1..], j - 1);
      WithoutTail(b, j);
      ReportsHead(rest);
      MultisetSwap(multiset(ReportIn(b[0])), multiset(ReportIn(b[j])), multiset(CompletedReports(rest[1..])));
    }
  }

  lemma {:induction false} ReportsPermute<R>(a: seq<SingleResult<R>>, b: seq<SingleResult<R>>)
    requires multiset(a) == multiset(b)
    ensures multiset(CompletedReports(a)) == multiset(CompletedReports(b))
  {
    if a == [] {
      assert |multiset(a)| == |a| && |multiset(b)| == |b|;
    } else {
      var j := PermutationHead(a, b);
      ReportsPermute(a[1..], Without(b, j));
      ReportsWithout(b, j);
      ReportsWithout(a, 0);
      assert Without(a, 0) == a[1..];
    }
  }

  lemma {:induction false} ReportsSequential<R>(lookup: string -> Option<R>, ids: seq<string>)
    ensures CompletedReports(EvaluateAll(lookup, ids)) == SequentialAssess(lookup, ids)
  {
    if ids != [] {
      ReportsSequential(lookup, ids[1..]);
      assert EvaluateAll(lookup, ids)[1..] == EvaluateAll(lookup, ids[1..]);
    }
  }

  lemma {:induction false} CountStatusHead<R>(rs: seq<SingleResult<R>>, st: Status)
    requires rs != []
    ensures CountStatus(rs, st) == (if rs[0].status == st then 1 else 0) + CountStatus(rs[1..], st)
  {
    var n := |rs| - 1;
    if n > 0 {
      CountStatusHead(rs[..n], st);
      assert rs[..n][1..] == rs[1..][..n - 1];
    } else {
      assert rs[1..] == rs[..n] == [];
    }
  }

  /** Results as the deterministic evaluator gives them: no timeout, and a report with every completed one. */
  ghost predicate Conclusive<R>(rs: seq<SingleResult<R>>) {
    forall r :: r in rs ==> r.status != TimedOut && (r.status == Completed ==> r.report.Some?)
  }

  lemma {:induction false} CompletedAreReported<R>(rs: seq<SingleResult<R>>)
    requires Conclusive(rs)
    ensures CountStatus(rs, Completed) == |CompletedReports(rs)| && CountStatus(rs, TimedOut) == 0
  {
    if rs != [] {
      CompletedAreReported(rs[1..]);
      CountStatusHead(rs, Completed);
      CountStatusHead(rs, TimedOut);
      assert rs[0] in rs;
    }
  }

  /** What the evaluator gives for every id, in order. */
  function EvaluateAll<R>(lookup: string -> Option<R>, ids: seq<string>): seq<SingleResult<R>> {
    seq(|ids|, i requires 0 <= i < |ids| => EvaluateSingle(lookup, ids[i]))
  }

  lemma SequentialCounts<R>(lookup: string -> Option<R>, ids: seq<string>, rs: seq<SingleResult<R>>)
    requires multiset(rs) == multiset(EvaluateAll(lookup, ids))
    ensures CountStatus(rs, Completed) == |SequentialAssess(lookup, ids)| && CountStatus(rs, TimedOut) == 0
  {
    SameMembers(rs, EvaluateAll(lookup, ids));
    CompletedAreReported(rs);
    ReportsPermute(rs, EvaluateAll(lookup, ids));
    ReportsSequential(lookup, ids);
    SameMembers(CompletedReports(rs), SequentialAssess(lookup, ids));
  }

  /** With a deterministic evaluator the progress record says how many ids the inventory knows, under every
      schedule; all others failed and none timed out. */
  lemma ScheduleCounts<R>(lookup: string -> Option<R>, ids: seq<string>, max: nat, evs: seq<Event<R>>)
    requires Returns(ids, max, evs) && Deterministic(lookup, ids, evs)
    ensures var s, found := Run(ids, max, evs).value, |SequentialAssess(lookup, ids)|;
            s.progress.completed == found && s.progress.failed == |ids| - found && s.timeouts == 0
  {
    ScheduleIndependent(lookup, ids, max, evs);
    SequentialCounts(lookup, ids, Run(ids, max, evs).value.results);
    ReturnedState(ids, max, evs);
  }

  /** With a deterministic evaluator every schedule returns the same results as mapping it over the ids,
      and its completed reports are those of the sequential loop. */
  lemma ScheduleIndependent<R>(lookup: string -> Option<R>, ids: seq<string>, max: nat, evs: seq<Event<R>>)
    requires Run(ids, max, evs).Some? && Run(ids, max, evs).value.returned
    requires Deterministic(lookup, ids, evs)
    ensures var s := Run(ids, max, evs).value;
            && multiset(s.results) == multiset(EvaluateAll(lookup, ids))
            && multiset(CompletedReports(s.results)) == multiset(SequentialAssess(lookup, ids))
  {
    var s := Run(ids, max, evs).value;
    ReturnedState(ids, max, evs);
    var sequential := EvaluateAll(lookup, ids);
    forall i | 0 <= i < |ids|
      ensures ResultsByPosition(ids, evs)[i] == sequential[i]
    {
      EndingsDeterministic(lookup, ids, evs, i);
      var endings := Endings(evs, i);
      assert ResultOf(ids[i], endings).Some? && |endings| >= 1;
      assert endings[0] in endings && endings[|endings| - 1] in endings;
    }
    assert ResultsByPosition(ids, evs) == sequential;
    ReportsPermute(s.results, sequential);
    ReportsSequential(lookup, ids);
  }

  // ---------------------------------------------------------------------
  // The service as code: one method per stretch between two awaits
  // ---------------------------------------------------------------------

  class Assessment<R> {
    const ids: seq<string>
    var phases: seq<Phase<R>>
    var permits: nat
    var finished: seq<SingleResult<R>>
    var results: seq<SingleResult<R>>
    var progress: Progress
    var timeouts: nat
    var returned: bool

    ghost predicate Valid()
      reads this
    {
      |phases| == |ids|
    }

    ghost function View(): State<R>
      reads this
    {
      State(phases, permits, finished, results, progress, timeouts, returned)
    }

    constructor (ids: seq<string>, max: nat)
      ensures Valid() && this.ids == ids && View() == Init(ids, max)
    {
      this.ids := ids;
      phases := seq(|ids|, i => Waiting);
      permits := max;
      finished, results, timeouts, returned := [], [], 0, false;
      progress := Progress(|ids|, 0, 0, |ids|, Running);
    }

    method EnterSemaphore(i: nat)
      requires Valid() && Step(ids, View(), Acquire(i)).Some?
      modifies this
      ensures Valid() && Some(View()) == Step(ids, old(View()), Acquire(i))
    {
      phases := phases[i := First];
      permits := permits - 1;
    }

    /** Leaving `async with semaphore` with a result. */
    method Leave(i: nat, r: SingleResult<R>)
      requires Valid() && i < |ids|
      modifies this
      ensures Valid() && View() == Finish(old(View()), i, r)
    {
      phases := phases[i := Done(r)];
      permits := permits + 1;
      finished := finished + [r];
      if r.status == TimedOut {
        timeouts := timeouts + 1;
      }
    }

    method EndEvaluation(i: nat, o: Outcome<R>)
      requires Valid() && Step(ids, View(), Resume(i, o)).Some?
      modifies this
      ensures Valid() && Some(View()) == Step(ids, old(View()), Resume(i, o))
    {
      match o {
        case Returned(r) => Leave(i, r);
        case TimeoutError => Leave(i, TimeoutResult(ids[i]));
        case Raised(e) =>
          if phases[i].First? {
            phases := phases[i := Second(e)];
          } else {
            Leave(i, SingleResult(ids[i], Failed, None, phases[i].firstError));
          }
      }
    }

    /** One turn of the `as_completed` loop. */
    method Consume()
      requires Valid() && Step(ids, View(), Deliver).Some?
      modifies this
      ensures Valid() && Some(View()) == Step(ids, old(View()), Deliver)
    {
      var single := finished[|results|];
      results := results + [single];
      var completed, failed := progress.completed, progress.failed;
      if single.status == Completed {
        completed := completed + 1;
      } else {
        failed := failed + 1;
      }
      progress := progress.(completed := completed, failed := failed, inProgress := |ids| - completed - failed);
    }

    method Complete()
      requires Valid() && Step(ids, View(), Return).Some?
      modifies this
      ensures Valid() && Some(View()) == Step(ids, old(View()), Return)
    {
      var status := if progress.failed == 0 then AllCompleted else CompletedWithErrors;
      progress := progress.(status := status, inProgress := 0);
      returned := true;
    }
  }

  lemma {:induction false} RunPrefix<R>(ids: seq<string>, max: nat, evs: seq<Event<R>>, k: nat)
    requires Run(ids, max, evs).Some? && k < |evs|
    ensures Run(ids, max, evs[..k]).Some?
    ensures Step(ids, Run(ids, max, evs[..k]).value, evs[k]) == Run(ids, max, evs[..k + 1])
    ensures Run(ids, max, evs[..k + 1]).Some?
  {
    if k < |evs| - 1 {
      var shorter := evs[..|evs| - 1];
      RunPrefix(ids, max, shorter, k);
      PrefixOfPrefix(evs, |evs| - 1, k);
      PrefixOfPrefix(evs, |evs| - 1, k + 1);
    } else {
      WholePrefix(evs);
    }
    PrefixOfPrefix(evs, k + 1, k);
  }

  /** The whole call under a given schedule. */
  method Replay<R>(ids: seq<string>, max: nat, schedule: seq<Event<R>>) returns (run: Assessment<R>)
    requires Run(ids, max, schedule).Some?
    ensures fresh(run) && run.Valid() && Some(run.View()) == Run(ids, max, schedule)
  {
    run := new Assessment<R>(ids, max);
    var k := 0;
    while k < |schedule|
      invariant 0 <= k <= |schedule| && fresh(run) && run.Valid() && run.ids == ids
      invariant Run(ids, max, schedule[..k]) == Some(run.View())
    {
      RunPrefix(ids, max, schedule, k);
      match schedule[k] {
        case Acquire(i) => run.EnterSemaphore(i);
        case Resume(i, o) => run.EndEvaluation(i, o);
        case Deliver => run.Consume();
        case Return => run.Complete();
      }
      k := k + 1;
    }
    WholePrefix(schedule);
  }

  /** `assess_parallel` under any schedule that lets it return. */
  method AssessParallel<R>(ids: seq<string>, max: nat, schedule: seq<Event<R>>)
    returns (progress: Progress, results: seq<SingleResult<R>>, timeouts: nat)
    requires Run(ids, max, schedule).Some? && Run(ids, max, schedule).value.returned
    ensures Accounts(ids, schedule, progress, results, timeouts)
  {
    var run := Replay(ids, max, schedule);
    progress, results, timeouts := run.progress, run.results, run.timeouts;
    ReturnedState(ids, max, schedule);
  }
}
