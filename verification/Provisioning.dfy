/**
 The VM provisioning engine against a Nova that may answer anything: `nova(k)` is its reply to the k-th call
 of the engine's life.  Other requests that run at the same time can only change what Nova answers, so a
 request is modelled on its own against every possible sequence of replies.
*/
module Provisioning {
  import opened Prelude

  datatype Operation = Start | Stop | Reboot | Delete

  /** A server status as Nova reports it. */
  type Status = string

  /** `VALID_STATE_TRANSITIONS`. */
  function Allowed(op: Operation): set<Status> {
    match op
    case Start => {"SHUTOFF", "STOPPED", "SUSPENDED", "ERROR"}
    case Stop => {"ACTIVE", "PAUSED"}
    case Reboot => {"ACTIVE"}
    case Delete => {"ACTIVE", "SHUTOFF", "STOPPED", "ERROR", "SUSPENDED"}
  }

  /** The table, status by status. */
  lemma TransitionTable(op: Operation, status: Status)
    ensures status in Allowed(op) <==>
            match op
            case Start => status == "SHUTOFF" || status == "STOPPED" || status == "SUSPENDED" || status == "ERROR"
            case Stop => status == "ACTIVE" || status == "PAUSED"
            case Reboot => status == "ACTIVE"
            case Delete =>
              status == "ACTIVE" || status == "SHUTOFF" || status == "STOPPED" || status == "ERROR" ||
              status == "SUSPENDED"
  {
  }

  const PROVISIONING_TIMEOUT := 300.0
  const LIFECYCLE_TIMEOUT := 120.0
  const CLEANUP_TIMEOUT := 30.0
  const DELETE_WAIT := 60.0
  const POLL_INTERVAL := 3.0

  /** Calls to Nova; `Mutate` is start_server, stop_server, reboot_server or delete_server. */
  datatype Call = CreateServer | GetServer(id: string) | Mutate(op: Operation, id: string) | ListServers

  /** What comes back: an exception, a falsy value, an object with its id ("" when it has none) and status, or
      a list of servers with their statuses. */
  datatype Body =
    | Raises(message: string)
    | Nothing
    | Server(id: string, status: Status)
    | Servers(statuses: seq<Status>)

  datatype Reply = Reply(duration: real, body: Body)

  datatype Error = NotFound | InvalidState | EnteredErrorState | TimedOut | NoId | Nova(message: string)

  datatype AuditEntry = AuditEntry(action: string, resourceId: Option<string>, success: bool)

  datatype Increment = Increment(op: Operation, success: bool)

  /** What `call_with_timeout` makes of a reply. */
  function Received(r: Reply, timeout: real): Result<Body, Error> {
    if r.duration > timeout then Err(TimedOut)
    else match r.body
      case Raises(m) => Err(Nova(m))
      case body => Ok(body)
  }

  /** What `get_vm` makes of a reply: the status, or the exception it raises. */
  function Observed(r: Reply): Result<Status, Error> {
    match Received(r, 120.0)
    case Err(e) => Err(e)
    case Ok(Server(_, status)) => Ok(status)
    case Ok(Nothing) => Err(NotFound)
    case Ok(_) => Err(Nova("not a server"))
  }

  function CountActive(statuses: seq<Status>): nat {
    if statuses == [] then 0 else (if statuses[0] == "ACTIVE" then 1 else 0) + CountActive(statuses[1..])
  }

  /** The servers that are ACTIVE, each once. */
  lemma {:induction false} CountActiveIsNumber(statuses: seq<Status>)
    ensures CountActive(statuses) == multiset(statuses)["ACTIVE"]
  {
    if statuses != [] {
      CountActiveIsNumber(statuses[1..]);
      assert statuses == [statuses[0]] + statuses[1..];
    }
  }

  /** What `get_active_count` makes of a reply. */
  function ActiveIn(r: Reply): Result<nat, Error> {
    match Received(r, 120.0)
    case Err(e) => Err(e)
    case Ok(Servers(statuses)) => Ok(CountActive(statuses))
    case Ok(_) => Err(Nova("not a list"))
  }

  /** What the create call leaves in `server`: nothing, or an object with its id. */
  function CreatedServer(r: Reply): Option<string> {
    match Received(r, 300.0)
    case Ok(Server(id, _)) => Some(id)
    case Ok(Servers(_)) => Some("")
    case _ => None
  }

  // ---------------------------------------------------------------------
  // The three wait loops
  // ---------------------------------------------------------------------

  datatype Goal = ForActive | ForStopped | ForDeleted

  datatype Verdict = Reached(status: Status) | Fail(error: Error) | PollAgain

  /** What one poll decides. */
  function Decide(goal: Goal, polled: Result<Status, Error>): Verdict {
    match goal
    case ForDeleted =>
      if polled.Ok? then PollAgain else if polled.error.NotFound? then Reached("") else Fail(polled.error)
    case _ =>
      if polled.Err? then Fail(polled.error)
      else if (if goal.ForActive? then polled.value == "ACTIVE" else polled.value in {"SHUTOFF", "STOPPED"})
      then Reached(polled.value)
      else if polled.value in {"ERROR", "UNKNOWN"} then Fail(EnteredErrorState) else PollAgain
  }

  /** The poll saw what the loop waits for. */
  ghost predicate Reaches(goal: Goal, polled: Result<Status, Error>) {
    match goal
    case ForActive => polled == Ok("ACTIVE")
    case ForStopped => polled == Ok("SHUTOFF") || polled == Ok("STOPPED")
    case ForDeleted => polled == Err(NotFound)
  }

  /** The poll saw nothing that ends the loop: for a delete, that the server is still there; else a status that is
      neither the goal nor ERROR nor UNKNOWN. */
  ghost predicate Waits(goal: Goal, polled: Result<Status, Error>) {
    && polled.Ok?
    && (goal.ForDeleted? || (!Reaches(goal, polled) && polled.value != "ERROR" && polled.value != "UNKNOWN"))
  }

  /** The status that makes a request succeed. */
  ghost predicate GoalSeen(op: Operation, polled: Result<Status, Error>) {
    match op
    case Stop => polled == Ok("SHUTOFF") || polled == Ok("STOPPED")
    case Delete => polled == Err(NotFound)
    case _ => polled == Ok("ACTIVE")
  }

  /** A status at which a start, stop or reboot goes on polling. */
  ghost predicate Undecided(op: Operation, polled: Result<Status, Error>) {
    polled.Ok? && !GoalSeen(op, polled) && polled.value != "ERROR" && polled.value != "UNKNOWN"
  }

  lemma DecideMeans(goal: Goal, polled: Result<Status, Error>)
    ensures Decide(goal, polled).Reached? <==> Reaches(goal, polled)
    ensures Decide(goal, polled).PollAgain? <==> Waits(goal, polled)
  {
  }

  /** How long a call takes that is given up after `limit`. */
  function Spent(r: Reply, limit: real): real {
    if r.duration > limit then limit else if r.duration < 0.0 then 0.0 else r.duration
  }

  function Ceil(x: real): int {
    -((-x).Floor)
  }

  function Polls(id: string, n: nat): seq<Call> {
    seq(n, i => GetServer(id))
  }

  lemma OneMorePoll(id: string, n: nat)
    ensures Polls(id, n) + [GetServer(id)] == Polls(id, n + 1)
  {
  }

  // ---------------------------------------------------------------------
  // The engine
  // ---------------------------------------------------------------------

  class Engine {
    const nova: nat -> Reply
    var now: real
    var calls: seq<Call>
    var audit: seq<AuditEntry>
    var lifecycle: seq<Increment>
    var createFailures: nat
    var active: int

    constructor (nova: nat -> Reply, now: real)
      ensures this.nova == nova && this.now == now && calls == [] && audit == [] && lifecycle == []
    {
      this.nova, this.now := nova, now;
      calls, audit, lifecycle, createFailures, active := [], [], [], 0, 0;
    }

    method NovaCall(call: Call, timeout: real) returns (r: Result<Body, Error>)
      requires timeout >= 0.0
      modifies this`calls, this`now
      ensures calls == old(calls) + [call]
      ensures r == Received(nova(|old(calls)|), timeout)
      ensures nova(|old(calls)|).duration > timeout ==> r == Err(TimedOut)
      ensures now == old(now) + Spent(nova(|old(calls)|), timeout) && old(now) <= now <= old(now) + timeout
    {
      var reply := nova(|calls|);
      calls := calls + [call];
      now := now + if reply.duration > timeout then timeout else if reply.duration < 0.0 then 0.0 else reply.duration;
      r := Received(reply, timeout);
    }

    method GetVm(id: string) returns (r: Result<Status, Error>)
      modifies this`calls, this`now
      ensures calls == old(calls) + [GetServer(id)]
      ensures r == Observed(nova(|old(calls)|))
      ensures old(now) <= now <= old(now) + 120.0
    {
      var reply := NovaCall(GetServer(id), LIFECYCLE_TIMEOUT);
      match reply {
        case Err(e) => r := Err(e);
        case Ok(Server(_, status)) => r := Ok(status);
        case Ok(Nothing) => r := Err(NotFound);
        case Ok(_) => r := Err(Nova("not a server"));
      }
    }

    /** `_wait_for_active`, `_wait_for_stopped` and `_wait_for_deleted`: polls of this server only, at most one
        per interval; the outcome is what the last poll decided, or that time ran out. */
    method WaitFor(goal: Goal, id: string, timeout: real) returns (r: Result<Status, Error>, ghost polls: nat)
      requires timeout > 0.0
      modifies this`calls, this`now
      ensures calls == old(calls) + Polls(id, polls)
      ensures 1 <= polls <= Ceil(timeout / 3.0)
      ensures old(now) <= now < old(now) + timeout + 120.0 + 3.0
      ensures old(now) + 3.0 * ((polls - 1) as real) <= now <= old(now) + (120.0 + 3.0) * (polls as real)
      ensures forall k :: |old(calls)| <= k < |calls| - 1 ==> Waits(goal, Observed(nova(k)))
      ensures var last := Observed(nova(|calls| - 1));
              && (r.Ok? <==> Reaches(goal, last) || (goal.ForDeleted? && last.Ok?))
              && (r.Ok? && last.Ok? && !goal.ForDeleted? ==> r.value == last.value)
              && (Waits(goal, last) ==> now >= old(now) + timeout)
      ensures match Decide(goal, Observed(nova(|calls| - 1)))
              case Reached(s) => r == Ok(s)
              case Fail(e) => r == Err(e)
              case PollAgain => now >= old(now) + timeout && r == (if goal.ForDeleted? then Ok("") else Err(TimedOut))
    {
      var deadline := now + timeout;
      polls := 0;
      while now < deadline
        invariant calls == old(calls) + Polls(id, polls)
        invariant old(now) + POLL_INTERVAL * (polls as real) <= now
        invariant now < deadline + LIFECYCLE_TIMEOUT + POLL_INTERVAL
        invariant polls > 0 || now < deadline
        invariant polls <= Ceil(timeout / POLL_INTERVAL)
        invariant now <= old(now) + (120.0 + 3.0) * (polls as real)
        invariant forall k :: |old(calls)| <= k < |calls| ==> Waits(goal, Observed(nova(k)))
        decreases Ceil(timeout / POLL_INTERVAL) - polls
      {
        assert (polls as real) < timeout / POLL_INTERVAL;
        var polled := GetVm(id);
        DecideMeans(goal, polled);
        OneMorePoll(id, polls);
        polls := polls + 1;
        match Decide(goal, polled) {
          case Reached(s) => return Ok(s), polls;
          case Fail(e) => return Err(e), polls;
          case PollAgain =>
        }
        now := now + POLL_INTERVAL;
      }
      r := if goal.ForDeleted? then Ok("") else Err(TimedOut);
    }

    /** `get_active_count`: sets the gauge, or raises. */
    method GetActiveCount() returns (r: Result<nat, Error>)
      modifies this`calls, this`now, this`active
      ensures calls == old(calls) + [ListServers]
      ensures r == ActiveIn(nova(|old(calls)|)) && old(now) <= now
      ensures active == if r.Ok? then r.value else old(active)
      ensures match Received(nova(|old(calls)|), 120.0)
              case Ok(Servers(statuses)) => r == Ok(multiset(statuses)["ACTIVE"])
              case _ => r.Err?
    {
      var reply := NovaCall(ListServers, LIFECYCLE_TIMEOUT);
      match reply {
        case Err(e) => r := Err(e);
        case Ok(Servers(statuses)) =>
          CountActiveIsNumber(statuses);
          active := CountActive(statuses);
          r := Ok(CountActive(statuses));
        case Ok(_) => r := Err(Nova("not a list"));
      }
    }

    /** The `try` part of `create_vm` up to the observed ACTIVE state. */
    method CreateAndWait() returns (server: Option<string>, r: Result<Status, Error>, ghost polls: nat)
      modifies this`calls, this`now
      ensures server == CreatedServer(nova(|old(calls)|))
      ensures if server.None? || server.value == "" then r.Err? && calls == old(calls) + [CreateServer]
              else calls == old(calls) + [CreateServer] + Polls(server.value, polls) && 1 <= polls <= 100
                   && (r.Ok? <==> Observed(nova(|calls| - 1)) == Ok("ACTIVE"))
                   && (r.Ok? ==> r.value == "ACTIVE")
                   && (forall k :: |old(calls)| < k < |calls| - 1 ==> Undecided(Start, Observed(nova(k))))
                   && (Undecided(Start, Observed(nova(|calls| - 1))) ==> now >= old(now) + 300.0)
    {
      polls := 0;
      var reply := NovaCall(CreateServer, PROVISIONING_TIMEOUT);
      match reply {
        case Err(e) => return None, Err(e), 0;
        case Ok(body) =>
          server := match body case Server(id, _) => Some(id) case Servers(_) => Some("") case _ => None;
      }
      if server.None? || server.value == "" {
        return server, Err(NoId), 0;
      }
      r, polls := WaitFor(ForActive, server.value, PROVISIONING_TIMEOUT);
    }

    /** `create_vm`.  When Nova gave the server an id, either the caller gets it ACTIVE as just observed, or
        exactly one delete of that server is attempted and the caller gets the exception; there is one audit
        entry either way.  Without a server there is nothing to delete.  A server object without an id makes the
        handler itself raise: no delete and no audit entry. */
    method CreateVm() returns (r: Result<Status, Error>, ghost polls: nat, ghost decided: real)
      modifies this
      ensures now == decided + if |calls| > 0 && calls[|calls| - 1].Mutate? && |calls| > |old(calls)|
                               then Spent(nova(|calls| - 1), 30.0) else 0.0
      ensures lifecycle == old(lifecycle)
      ensures createFailures == old(createFailures) + if r.Ok? then 0 else 1
      ensures active == old(active) + if r.Ok? then 1 else 0
      ensures r.Ok? ==> r.value == "ACTIVE"
      ensures match CreatedServer(nova(|old(calls)|))
              case None =>
                && r.Err? && calls == old(calls) + [CreateServer]
                && audit == old(audit) + [AuditEntry("vm.create", None, false)]
              case Some(id) =>
                if id == "" then r.Err? && calls == old(calls) + [CreateServer] && audit == old(audit)
                else && 1 <= polls <= 100
                     && calls == old(calls) + [CreateServer] + Polls(id, polls)
                                 + (if r.Ok? then [] else [Mutate(Delete, id)])
                     && (r.Ok? <==> Observed(nova(|old(calls)| + polls)) == Ok("ACTIVE"))
                     && audit == old(audit) + [AuditEntry("vm.create", Some(id), r.Ok?)]
    {
      var server;
      server, r, polls := CreateAndWait();
      decided := now;
      if r.Ok? {
        active := active + 1;
        audit := audit + [AuditEntry("vm.create", server, true)];
        return;
      }
      createFailures := createFailures + 1;
      if server.Some? {
        if server.value == "" {
          return Err(NoId), polls, decided;
        }
        var _ := NovaCall(Mutate(Delete, server.value), CLEANUP_TIMEOUT);
      }
      audit := audit + [AuditEntry("vm.create", server, false)];
    }

    /** After the mutating call: wait for the goal of the operation and, after a stop, refresh the gauge. */
    method Settle(op: Operation, id: string) returns (ok: bool, ghost polls: nat)
      requires !op.Delete?
      modifies this`calls, this`now, this`active
      ensures 1 <= polls <= 40
      ensures forall k :: |old(calls)| <= k < |old(calls)| + polls - 1 ==> Undecided(op, Observed(nova(k)))
      ensures Undecided(op, Observed(nova(|old(calls)| + polls - 1))) ==> now >= old(now) + 120.0
      ensures var reached := GoalSeen(op, Observed(nova(|old(calls)| + polls - 1)));
              && calls == old(calls) + Polls(id, polls) + (if op.Stop? && reached then [ListServers] else [])
              && ok == (reached && (op.Stop? ==> ActiveIn(nova(|old(calls)| + polls)).Ok?))
              && active == if !ok then old(active)
                           else if op.Stop? then ActiveIn(nova(|old(calls)| + polls)).value
                           else old(active) + (if op.Start? then 1 else 0)
    {
      var r;
      r, polls := WaitFor(GoalOf(op), id, LIFECYCLE_TIMEOUT);
      ok := r.Ok?;
      if r.Err? {
        return;
      }
      if op.Start? {
        active := active + 1;
      } else if op.Stop? {
        var count := GetActiveCount();
        ok := count.Ok?;
      }
    }

    /** The `try` part of `_lifecycle_operation` and of `delete_vm`, up to the end of the mutating call. */
    method GuardedCall(op: Operation, id: string) returns (r: Result<Body, Error>)
      modifies this`calls, this`now
      ensures var status := Observed(nova(|old(calls)|));
              if status.Ok? && status.value in Allowed(op)
              then && calls == old(calls) + [GetServer(id), Mutate(op, id)]
                   && r == Received(nova(|old(calls)| + 1), 120.0)
              else calls == old(calls) + [GetServer(id)] && r.Err?
    {
      var detail := GetVm(id);
      if detail.Err? {
        return Err(detail.error);
      }
      if detail.value !in Allowed(op) {
        return Err(InvalidState);
      }
      assert calls + [Mutate(op, id)] == old(calls) + [GetServer(id), Mutate(op, id)];
      r := NovaCall(Mutate(op, id), LIFECYCLE_TIMEOUT);
    }

    /** `_lifecycle_operation`: it issues exactly the calls of `LifecycleTrace`, succeeds exactly when that says so,
        and leaves one audit entry and one counter increment, both matching the outcome. */
    method LifecycleOperation(op: Operation, id: string) returns (ok: bool, ghost polls: nat)
      requires !op.Delete?
      modifies this
      ensures LifecycleTrace(nova, old(calls), calls, op, id, polls, ok)
      ensures audit == old(audit) + [AuditEntry(Action(op), Some(id), ok)]
      ensures lifecycle == old(lifecycle) + [Increment(op, ok)]
      ensures createFailures == old(createFailures)
    {
      polls := 0;
      var done := GuardedCall(op, id);
      ok := false;
      if done.Ok? {
        ok, polls := Settle(op, id);
      }
      lifecycle := lifecycle + [Increment(op, ok)];
      audit := audit + [AuditEntry(Action(op), Some(id), ok)];
    }

    /** After an accepted delete: the wait, whatever it ends in, the success counter and the gauge. */
    method SettleDelete(id: string) returns (ok: bool, ghost polls: nat)
      modifies this`calls, this`now, this`active, this`lifecycle
      ensures 1 <= polls <= 20
      ensures calls == old(calls) + Polls(id, polls) + [ListServers]
      ensures forall k :: |old(calls)| <= k < |old(calls)| + polls - 1 ==> Observed(nova(k)).Ok?
      ensures Observed(nova(|old(calls)| + polls - 1)).Ok? ==> now >= old(now) + 60.0
      ensures ok == ActiveIn(nova(|old(calls)| + polls)).Ok?
      ensures lifecycle == old(lifecycle) + [Increment(Delete, true)]
    {
      var gone;
      gone, polls := WaitFor(ForDeleted, id, DELETE_WAIT);
      lifecycle := lifecycle + [Increment(Delete, true)];
      var count := GetActiveCount();
      ok := count.Ok?;
    }

    /** `delete_vm`: one audit entry matching the outcome.  The success counter is incremented before the gauge
        is refreshed, so the request counts both as success and as failure exactly when Nova accepted the delete
        and that refresh raised. */
    method DeleteVm(id: string) returns (ok: bool, ghost polls: nat)
      modifies this
      ensures DeleteTrace(nova, old(calls), calls, id, polls, ok)
      ensures audit == old(audit) + [AuditEntry("vm.delete", Some(id), ok)]
      ensures lifecycle == old(lifecycle)
                           + (if Accepted(nova, |old(calls)|, Delete) then [Increment(Delete, true)] else [])
                           + (if ok then [] else [Increment(Delete, false)])
      ensures createFailures == old(createFailures)
    {
      polls := 0;
      var done := GuardedCall(Delete, id);
      ok := false;
      if done.Ok? {
        ok, polls := SettleDelete(id);
      }
      if !ok {
        lifecycle := lifecycle + [Increment(Delete, false)];
      }
      audit := audit + [AuditEntry(Action(Delete), Some(id), ok)];
    }
  }

  function GoalOf(op: Operation): Goal {
    match op case Stop => ForStopped case Delete => ForDeleted case _ => ForActive
  }

  /** The status read by call `n` allows the operation. */
  predicate Permitted(nova: nat -> Reply, n: nat, op: Operation) {
    Observed(nova(n)).Ok? && Observed(nova(n)).value in Allowed(op)
  }

  /** ... and Nova accepted the mutating call that followed. */
  predicate Accepted(nova: nat -> Reply, n: nat, op: Operation) {
    Permitted(nova, n, op) && Received(nova(n + 1), 120.0).Ok?
  }

  /** The calls of one start, stop or reboot request, and when it succeeds: the status read allowed it, Nova took
      the call, the last poll saw the goal and, for a stop, the servers could be listed. */
  ghost predicate LifecycleTrace(
    nova: nat -> Reply, before: seq<Call>, calls: seq<Call>, op: Operation, id: string, polls: nat, ok: bool)
  {
    var n := |before|;
    if !Accepted(nova, n, op) then
      && !ok
      && calls == before + [GetServer(id)] + (if Permitted(nova, n, op) then [Mutate(op, id)] else [])
    else
      var reached := GoalSeen(op, Observed(nova(n + 1 + polls)));
      && 1 <= polls <= 40
      && (forall k :: n + 2 <= k < n + 1 + polls ==> Undecided(op, Observed(nova(k))))
      && calls == before + [GetServer(id), Mutate(op, id)] + Polls(id, polls)
                  + (if op.Stop? && reached then [ListServers] else [])
      && ok == (reached && (op.Stop? ==> ActiveIn(nova(n + 2 + polls)).Ok?))
  }

  /** The calls of one delete request: whatever the wait for the disappearance ends in is ignored. */
  ghost predicate DeleteTrace(
    nova: nat -> Reply, before: seq<Call>, calls: seq<Call>, id: string, polls: nat, ok: bool)
  {
    var n := |before|;
    if !Accepted(nova, n, Delete) then
      && !ok
      && calls == before + [GetServer(id)] + (if Permitted(nova, n, Delete) then [Mutate(Delete, id)] else [])
    else
      && 1 <= polls <= 20
      && (forall k :: n + 2 <= k < n + 1 + polls ==> Observed(nova(k)).Ok?)
      && calls == before + [GetServer(id), Mutate(Delete, id)] + Polls(id, polls) + [ListServers]
      && ok == ActiveIn(nova(n + 2 + polls)).Ok?
  }

  lemma LifecycleIsGuarded(
    nova: nat -> Reply, before: seq<Call>, calls: seq<Call>, op: Operation, id: string, polls: nat, ok: bool)
    requires LifecycleTrace(nova, before, calls, op, id, polls, ok)
    ensures |before| < |calls| && calls[..|before|] == before && RequestGuarded(nova, calls, |before|, op, id)
  {
  }

  lemma DeleteIsGuarded(nova: nat -> Reply, before: seq<Call>, calls: seq<Call>, id: string, polls: nat, ok: bool)
    requires DeleteTrace(nova, before, calls, id, polls, ok)
    ensures |before| < |calls| && calls[..|before|] == before && RequestGuarded(nova, calls, |before|, Delete, id)
  {
  }

  predicate ReadsOnly(c: Call) {
    c.GetServer? || c.ListServers?
  }

  function Action(op: Operation): string {
    match op case Start => "vm.start" case Stop => "vm.stop" case Reboot => "vm.reboot" case Delete => "vm.delete"
  }

  /** The names under which requests are audited. */
  lemma AuditNames(op: Operation)
    ensures Action(Start) == "vm.start" && Action(Stop) == "vm.stop" && Action(Reboot) == "vm.reboot"
    ensures Action(op) == "vm.delete" <==> op == Delete
  {
  }

  /** From call `from` on, the request reads the server once and mutates it at most once, right after that read
      and exactly when the status it read allows the operation; everything else it calls only reads. */
  ghost predicate RequestGuarded(nova: nat -> Reply, calls: seq<Call>, from: nat, op: Operation, id: string) {
    && from < |calls| && calls[from] == GetServer(id)
    && (var status := Observed(nova(from));
        status.Ok? && status.value in Allowed(op) <==> from + 1 < |calls|)
    && (from + 1 < |calls| ==> calls[from + 1] == Mutate(op, id))
    && (forall k :: from + 2 <= k < |calls| ==> ReadsOnly(calls[k]))
  }

  // ---------------------------------------------------------------------
  // Whole runs
  // ---------------------------------------------------------------------

  datatype Request = Request(op: Operation, id: string)

  function Mutations(calls: seq<Call>): nat {
    if calls == [] then 0 else Mutations(calls[..|calls| - 1]) + if calls[|calls| - 1].Mutate? then 1 else 0
  }

  /** The increments of the start, stop and reboot counters. */
  function WithoutDeletes(increments: seq<Increment>): seq<Increment> {
    if increments == [] then [] else
    var n := |increments| - 1;
    if increments[n].op.Delete? then WithoutDeletes(increments[..n])
    else WithoutDeletes(increments[..n]) + [increments[n]]
  }

  function AuditsOf(requests: seq<Request>, oks: seq<bool>): seq<AuditEntry>
    requires |requests| == |oks|
  {
    seq(|requests|, i requires 0 <= i < |requests| =>
          AuditEntry(Action(requests[i].op), Some(requests[i].id), oks[i]))
  }

  function IncrementsOf(requests: seq<Request>, oks: seq<bool>): seq<Increment>
    requires |requests| == |oks|
  {
    seq(|requests|, i requires 0 <= i < |requests| => Increment(requests[i].op, oks[i]))
  }

  /** Every mutating call from `from` on comes right after a read of the same server that allows it. */
  ghost predicate Guarded(nova: nat -> Reply, calls: seq<Call>, from: nat) {
    forall k :: from <= k < |calls| && calls[k].Mutate? ==>
      && k > from && calls[k - 1] == GetServer(calls[k].id)
      && Observed(nova(k - 1)).Ok? && Observed(nova(k - 1)).value in Allowed(calls[k].op)
  }

  lemma {:induction false} ReadsAddNoMutation(calls: seq<Call>, from: nat)
    requires from <= |calls| && forall k :: from <= k < |calls| ==> ReadsOnly(calls[k])
    ensures Mutations(calls) == Mutations(calls[..from])
  {
    if from == |calls| {
      WholePrefix(calls);
    } else {
      var n := |calls| - 1;
      ReadsAddNoMutation(calls[..n], from);
      PrefixOfPrefix(calls, n, from);
    }
  }

  /** A request adds one mutating call at most. */
  lemma RequestMutatesOnce(nova: nat -> Reply, calls: seq<Call>, from: nat, op: Operation, id: string)
    requires RequestGuarded(nova, calls, from, op, id)
    ensures Mutations(calls) <= Mutations(calls[..from]) + 1
  {
    PrefixOfPrefix(calls, from + 1, from);
    if from + 1 < |calls| {
      ReadsAddNoMutation(calls, from + 2);
      PrefixOfPrefix(calls, from + 2, from + 1);
    } else {
      WholePrefix(calls);
    }
  }

  lemma {:induction false} WithoutDeletesConcat(a: seq<Increment>, b: seq<Increment>)
    ensures WithoutDeletes(a + b) == WithoutDeletes(a) + WithoutDeletes(b)
  {
    if b == [] {
      assert a + b == a;
    } else {
      var n := |b| - 1;
      WithoutDeletesConcat(a, b[..n]);
      ConcatFront(a, b);
    }
  }

  /** One start, stop, reboot or delete request. */
  method Serve(engine: Engine, request: Request) returns (ok: bool)
    modifies engine
    ensures |engine.calls| > |old(engine.calls)| && engine.calls[..|old(engine.calls)|] == old(engine.calls)
    ensures RequestGuarded(engine.nova, engine.calls, |old(engine.calls)|, request.op, request.id)
    ensures engine.audit == old(engine.audit) + [AuditEntry(Action(request.op), Some(request.id), ok)]
    ensures WithoutDeletes(engine.lifecycle) ==
            WithoutDeletes(old(engine.lifecycle)) + WithoutDeletes([Increment(request.op, ok)])
  {
    ghost var polls;
    if request.op.Delete? {
      ok, polls := engine.DeleteVm(request.id);
      DeleteIsGuarded(engine.nova, old(engine.calls), engine.calls, request.id, polls, ok);
      WithoutDeletesConcat(old(engine.lifecycle), engine.lifecycle[|old(engine.lifecycle)|..]);
      assert engine.lifecycle == old(engine.lifecycle) + engine.lifecycle[|old(engine.lifecycle)|..];
    } else {
      ok, polls := engine.LifecycleOperation(request.op, request.id);
      LifecycleIsGuarded(engine.nova, old(engine.calls), engine.calls, request.op, request.id, polls, ok);
      WithoutDeletesConcat(old(engine.lifecycle), [Increment(request.op, ok)]);
    }
  }

  /** Any run of requests against any Nova: one audit entry per request, in order and matching its outcome; the
      start, stop and reboot counters match too; no more mutating calls than requests, each one right after a
      read that allows it. */
  method ServeAll(engine: Engine, requests: seq<Request>) returns (oks: seq<bool>)
    modifies engine
    ensures |oks| == |requests|
    ensures engine.audit == old(engine.audit) + AuditsOf(requests, oks)
    ensures WithoutDeletes(engine.lifecycle) ==
            WithoutDeletes(old(engine.lifecycle)) + WithoutDeletes(IncrementsOf(requests, oks))
    ensures Guarded(engine.nova, engine.calls, |old(engine.calls)|)
    ensures Mutations(engine.calls) <= Mutations(old(engine.calls)) + |requests|
  {
    ghost var from := |engine.calls|;
    oks := [];
    while |oks| < |requests|
      invariant |oks| <= |requests| && from <= |engine.calls|
      invariant engine.audit == old(engine.audit) + AuditsOf(requests[..|oks|], oks)
      invariant WithoutDeletes(engine.lifecycle) ==
                WithoutDeletes(old(engine.lifecycle)) + WithoutDeletes(IncrementsOf(requests[..|oks|], oks))
      invariant Guarded(engine.nova, engine.calls, from)
      invariant Mutations(engine.calls) <= Mutations(old(engine.calls)) + |oks|
    {
      ghost var before := engine.calls;
      var request := requests[|oks|];
      var ok := Serve(engine, request);
      RequestMutatesOnce(engine.nova, engine.calls, |before|, request.op, request.id);
      GuardedExtends(engine.nova, before, engine.calls, from, request.op, request.id);
      RecordsExtend(requests, oks, ok);
      oks := oks + [ok];
    }
    WholePrefix(requests);
  }

  lemma GuardedExtends(nova: nat -> Reply, before: seq<Call>, calls: seq<Call>, from: nat, op: Operation, id: string)
    requires from <= |before| < |calls| && calls[..|before|] == before
    requires Guarded(nova, before, from) && RequestGuarded(nova, calls, |before|, op, id)
    ensures Guarded(nova, calls, from)
  {
    assert forall k :: 0 <= k < |before| ==> calls[k] == before[k];
  }

  lemma RecordsExtend(requests: seq<Request>, oks: seq<bool>, ok: bool)
    requires |oks| < |requests|
    ensures var r, n := requests[|oks|], |oks|;
            && AuditsOf(requests[..n + 1], oks + [ok]) ==
               AuditsOf(requests[..n], oks) + [AuditEntry(Action(r.op), Some(r.id), ok)]
            && WithoutDeletes(IncrementsOf(requests[..n + 1], oks + [ok])) ==
               WithoutDeletes(IncrementsOf(requests[..n], oks)) + WithoutDeletes([Increment(r.op, ok)])
  {
    var r, n := requests[|oks|], |oks|;
    var done := IncrementsOf(requests[..n], oks);
    assert IncrementsOf(requests[..n + 1], oks + [ok]) == done + [Increment(r.op, ok)];
    WithoutDeletesConcat(done, [Increment(r.op, ok)]);
  }

  // ---------------------------------------------------------------------
  // The two odd cases are real
  // ---------------------------------------------------------------------

  /** A Nova whose servers have no id. */
  function NamelessNova(k: nat): Reply {
    Reply(1.0, Server("", "BUILD"))
  }

  /** A create that leaves neither a cleanup call nor an audit entry behind. */
  method CreateWithoutId() returns (r: Result<Status, Error>, calls: seq<Call>, audit: seq<AuditEntry>)
    ensures r.Err? && calls == [CreateServer] && audit == []
  {
    var engine := new Engine(NamelessNova, 0.0);
    assert CreatedServer(NamelessNova(0)) == Some("");
    ghost var polls;
    ghost var decided;
    r, polls, decided := engine.CreateVm();
    calls, audit := engine.calls, engine.audit;
  }

  /** A Nova that reports the server, takes the delete and is gone. */
  function VanishingNova(k: nat): Reply {
    Reply(1.0, if k == 0 then Server("vm", "ACTIVE") else if k == 1 then Nothing else Raises("unavailable"))
  }

  /** A delete that is counted both as success and as failure. */
  method DeleteCountedTwice() returns (ok: bool, lifecycle: seq<Increment>, audit: seq<AuditEntry>)
    ensures !ok && lifecycle == [Increment(Delete, true), Increment(Delete, false)]
    ensures audit == [AuditEntry("vm.delete", Some("vm"), false)]
  {
    var engine := new Engine(VanishingNova, 0.0);
    ghost var polls;
    assert Observed(VanishingNova(0)) == Ok("ACTIVE") && "ACTIVE" in Allowed(Delete);
    assert Accepted(VanishingNova, 0, Delete);
    ok, polls := engine.DeleteVm("vm");
    assert ActiveIn(VanishingNova(2 + polls)).Err?;
    lifecycle, audit := engine.lifecycle, engine.audit;
  }
}
