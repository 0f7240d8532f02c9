/** References across triggers: at most one run each, one call of the job executor for it, one record of its failure. */
module References {
  import opened Options
  import opened Domain
  import opened Store
  import opened Finalizer
  import opened Protocol
  import opened TaskExecutor
  import opened Retry
  import opened Trigger

  /** No two job rows share a reference. The store does not enforce it. */
  ghost predicate RefsUnique(db: Db) {
    forall ref, j, k :: HasRef(db, j, ref) && HasRef(db, k, ref) ==> j == k
  }

  /** A change that creates no job and rewrites no reference: deliveries, cancellations, finalisation. */
  ghost predicate KeepsRefs(db: Db, next: Db) {
    next.jobs.Keys == db.jobs.Keys && forall j :: j in db.jobs ==> next.jobs[j].ref == db.jobs[j].ref
  }

  lemma RefsKept(db: Db, next: Db)
    requires KeepsRefs(db, next)
    ensures RefsUnique(db) ==> RefsUnique(next)
    ensures forall ref :: Taken(next, ref) <==> Taken(db, ref)
    ensures forall j, ref :: HasRef(next, j, ref) <==> HasRef(db, j, ref)
  {
    forall j, ref
      ensures HasRef(next, j, ref) <==> HasRef(db, j, ref)
    {
    }
    forall ref, j, k | RefsUnique(db) && HasRef(next, j, ref) && HasRef(next, k, ref)
      ensures j == k
    {
      assert HasRef(db, j, ref) && HasRef(db, k, ref);
    }
    forall ref
      ensures Taken(next, ref) <==> Taken(db, ref)
    {
      assert forall j :: HasRef(next, j, ref) <==> HasRef(db, j, ref);
    }
  }

  lemma FlowKeepsRefs(db: Db, j: Id, cancelPrevious: bool, published: bool)
    requires j in db.jobs
    ensures KeepsRefs(db, FlowDb(db, j, cancelPrevious, published))
  {
  }

  lemma NewRowTakes(db: Db, id: Id, job: Job, rows: map<Id, Task>, ref: string)
    requires id !in db.jobs && job.ref == Some(ref) && !Taken(db, ref)
    ensures var next := InsertJob(db, id, job, rows);
      HasRef(next, id, ref) && (RefsUnique(db) ==> RefsUnique(next)) && forall other :: Taken(db, other) ==> Taken(next, other)
  {
    var next := InsertJob(db, id, job, rows);
    forall other, j | HasRef(next, j, other)
      ensures if j == id then other == ref else HasRef(db, j, other)
    {
    }
    forall other, j, k | RefsUnique(db) && HasRef(next, j, other) && HasRef(next, k, other)
      ensures j == k
    {
      assert j != id && k != id ==> HasRef(db, j, other) && HasRef(db, k, other);
    }
    assert HasRef(next, id, ref);
    forall other | Taken(db, other)
      ensures Taken(next, other)
    {
      var j :| j in db.jobs && HasRef(db, j, other);
      assert HasRef(next, j, other);
    }
  }

  /** One trigger: references stay unique and taken, and the job executor is called only for one that is free. */
  lemma TriggerKeepsRefs(cfg: Config, db: Db, call: Call, id: Id, sent: map<nat, Partition>, next: Db, now: map<nat, Partition>, ran: bool, ok: bool, report: Status, finalised: Option<Id>)
    requires Triggered(cfg, db, call, id, sent, next, now, ran, ok, report, finalised) && id !in db.jobs
    ensures RefsUnique(db) ==> RefsUnique(next)
    ensures forall ref :: Taken(db, ref) ==> Taken(next, ref)
    ensures ran ==> !Taken(db, call.ref)
  {
    if call.name in cfg {
      if Taken(db, call.ref) {
        var j, order :| FlowsOnFound(cfg[call.name], db, call, sent, next, now, ok, report, finalised, j, order);
        FlowKeepsRefs(db, j, cfg[call.name].cancelPrevious, Publishable(db, j, call.route));
        RefsKept(db, next);
      } else {
        CreationKeepsRefs(cfg, db, call, id, sent, next, now, ran, ok, report, finalised);
      }
    }
  }

  lemma CreationKeepsRefs(cfg: Config, db: Db, call: Call, id: Id, sent: map<nat, Partition>, next: Db, now: map<nat, Partition>, ran: bool, ok: bool, report: Status, finalised: Option<Id>)
    requires Triggered(cfg, db, call, id, sent, next, now, ran, ok, report, finalised) && id !in db.jobs && call.name in cfg && !Taken(db, call.ref)
    ensures RefsUnique(db) ==> RefsUnique(next)
    ensures forall ref :: Taken(db, ref) ==> Taken(next, ref)
  {
    var settings := cfg[call.name];
    var made := PreparedDb(settings, db, call, id);
    if Buildable(call.plan) {
      NewRowTakes(db, id, NewJob(settings, call), Built(id, NewJob(settings, call), call.plan.data, id + 1), call.ref);
      FlowKeepsRefs(made, id, settings.cancelPrevious, Publishable(made, id, call.route));
      RefsKept(made, next);
    } else if ShouldPersistTriggerFailure(call.metadata) {
      NewRowTakes(db, id, FailureRow(settings, call), map[], call.ref);
    }
  }

  // ---------------------------------------------------------------- histories

  /** A history of the tables: calls of executeJob (also through retryTriggerJob) that do not overlap, and anything else
      that creates no job. */
  datatype Act = Calls(call: Call, id: Id, ran: bool) | Otherwise

  ghost predicate Evolves(cfg: Config, db: Db, act: Act, next: Db) {
    match act
    case Calls(call, id, ran) => id !in db.jobs && exists sent, now, ok, report, finalised :: Triggered(cfg, db, call, id, sent, next, now, ran, ok, report, finalised)
    case Otherwise => KeepsRefs(db, next)
  }

  ghost predicate IsHistory(cfg: Config, dbs: seq<Db>, acts: seq<Act>) {
    |dbs| == |acts| + 1 && forall i :: 0 <= i < |acts| ==> Evolves(cfg, dbs[i], acts[i], dbs[i + 1])
  }

  predicate RunsFor(act: Act, ref: string) {
    act.Calls? && act.ran && act.call.ref == ref
  }

  lemma EvolutionKeepsRefs(cfg: Config, db: Db, act: Act, next: Db)
    requires Evolves(cfg, db, act, next)
    ensures RefsUnique(db) ==> RefsUnique(next)
    ensures forall ref :: Taken(db, ref) ==> Taken(next, ref)
    ensures forall ref :: RunsFor(act, ref) ==> !Taken(db, ref)
  {
    match act
    case Otherwise => RefsKept(db, next);
    case Calls(call, id, ran) =>
      var sent, now, ok, report, finalised :| Triggered(cfg, db, call, id, sent, next, now, ran, ok, report, finalised);
      TriggerKeepsRefs(cfg, db, call, id, sent, next, now, ran, ok, report, finalised);
  }

  /** Over any history of triggers that do not overlap: each reference has at most one job row, a row once there keeps its
      reference taken, and the job executor is never called for a reference that has a row already. */
  lemma {:induction false} OneRunPerReference(cfg: Config, dbs: seq<Db>, acts: seq<Act>)
    requires IsHistory(cfg, dbs, acts) && RefsUnique(dbs[0])
    ensures forall i :: 0 <= i < |dbs| ==> RefsUnique(dbs[i])
    ensures forall i, k, ref :: 0 <= i <= k < |dbs| && Taken(dbs[i], ref) ==> Taken(dbs[k], ref)
    ensures forall i, k, ref :: 0 <= i <= k < |acts| && Taken(dbs[i], ref) ==> !RunsFor(acts[k], ref)
  {
    if acts != [] {
      var last := |acts| - 1;
      OneRunPerReference(cfg, dbs[..last + 1], acts[..last]);
      assert Evolves(cfg, dbs[last], acts[last], dbs[last + 1]);
      EvolutionKeepsRefs(cfg, dbs[last], acts[last], dbs[last + 1]);
      assert dbs[..last + 1][last] == dbs[last];
    }
  }

  // ---------------------------------------------------------------- retried triggers

  /** One failing attempt of a retried trigger: its number, and how many are allowed. */
  ghost predicate FailingAttempt(cfg: Config, db: Db, call: Call, id: Id, next: Db, ref: string, attempt: int, allowed: int) {
    && call.name in cfg && call.ref == ref && !Buildable(call.plan) && id !in db.jobs
    && MetadataInt(call.metadata, ASYNQ_MAX_RETRY) == Some(allowed) && MetadataInt(call.metadata, ASYNQ_RETRY_COUNT).GetOr(0) == attempt
    && exists sent, now, ran, ok, report, finalised :: Triggered(cfg, db, call, id, sent, next, now, ran, ok, report, finalised)
  }

  lemma FailingAttemptLeaves(cfg: Config, db: Db, call: Call, id: Id, next: Db, ref: string, attempt: int, allowed: int)
    requires FailingAttempt(cfg, db, call, id, next, ref, attempt, allowed) && !Taken(db, ref)
    ensures next == if attempt >= allowed then InsertJob(db, id, FailureRow(cfg[call.name], call), map[]) else db
  {
  }

  /** No row of the reference comes or goes. */
  ghost predicate SameRef(db: Db, next: Db, ref: string) {
    forall j :: HasRef(next, j, ref) <==> HasRef(db, j, ref)
  }

  /** What triggers of other references do, and all that creates no job, leaves a reference alone. */
  lemma OthersLeaveRef(cfg: Config, db: Db, act: Act, next: Db, ref: string)
    requires Evolves(cfg, db, act, next) && (act.Calls? ==> act.call.ref != ref)
    ensures SameRef(db, next, ref)
  {
    match act
    case Otherwise => RefsKept(db, next);
    case Calls(call, id, ran) =>
      var sent, now, ok, report, finalised :| Triggered(cfg, db, call, id, sent, next, now, ran, ok, report, finalised);
      TriggerLeavesRef(cfg, db, call, id, sent, next, now, ran, ok, report, finalised, ref);
  }

  lemma TriggerLeavesRef(cfg: Config, db: Db, call: Call, id: Id, sent: map<nat, Partition>, next: Db, now: map<nat, Partition>,
                         ran: bool, ok: bool, report: Status, finalised: Option<Id>, ref: string)
    requires Triggered(cfg, db, call, id, sent, next, now, ran, ok, report, finalised) && id !in db.jobs && call.ref != ref
    ensures SameRef(db, next, ref)
  {
    if call.name in cfg {
      var settings := cfg[call.name];
      if Taken(db, call.ref) {
        var j, order :| FlowsOnFound(settings, db, call, sent, next, now, ok, report, finalised, j, order);
        FlowKeepsRefs(db, j, settings.cancelPrevious, Publishable(db, j, call.route));
        RefsKept(db, next);
      } else if Buildable(call.plan) {
        var made := PreparedDb(settings, db, call, id);
        assert SameRef(db, made, ref);
        FlowKeepsRefs(made, id, settings.cancelPrevious, Publishable(made, id, call.route));
        RefsKept(made, next);
      }
    }
  }

  lemma StartingLeavesRef(db: Db, made: Db, next: Db, j: Id, empty: bool, start: bool, ref: string)
    requires SameRef(db, made, ref) && next == (if start then StartedRun(made, j, empty) else made)
    ensures SameRef(db, next, ref)
  {
  }

  lemma BeginningLeavesRef(db: Db, request: Request, id: Id, sent: map<nat, Partition>, next: Db, now: map<nat, Partition>,
                           result: RetryResult, order: seq<Id>, finalised: Option<Id>, streamed: Db, ref: string)
    requires Begins(db, request, id, sent, next, now, result, order, finalised, streamed) && id !in db.jobs && request.ref != ref
    ensures SameRef(db, next, ref)
  {
    assert streamed.jobs == db.jobs[id := CloneJob(db.jobs[request.job], request.job, request.ref, request.now)];
    assert SameRef(db, streamed, ref);
    StartingLeavesRef(db, streamed, next, id, order == [], result.Retried?, ref);
  }

  /** So do retries of jobs, which give the clone a reference of its own. */
  lemma RetryLeavesRef(registered: set<string>, db: Db, request: Request, id: Id, sent: map<nat, Partition>, next: Db, now: map<nat, Partition>,
                       result: RetryResult, order: seq<Id>, finalised: Option<Id>, ref: string)
    requires JobRetried(registered, db, request, id, sent, next, now, result, order, finalised) && id !in db.jobs && request.ref != ref
    ensures SameRef(db, next, ref)
  {
    if next != db {
      if HasLiveClone(db, request.job) {
        var clone :| GoesOn(db, request, sent, next, now, result, order, finalised, clone);
        StartingLeavesRef(db, db, next, clone, order == [], result.Retried?, ref);
      } else {
        var streamed :| Begins(db, request, id, sent, next, now, result, order, finalised, streamed);
        BeginningLeavesRef(db, request, id, sent, next, now, result, order, finalised, streamed, ref);
      }
    }
  }

  /** What happens between and at the attempts: an attempt, or anything that leaves the reference alone. */
  datatype Turn = Attempt(call: Call, id: Id) | Elsewhere

  function AttemptsIn(turns: seq<Turn>): nat {
    if turns == [] then 0 else AttemptsIn(turns[..|turns| - 1]) + if turns[|turns| - 1].Attempt? then 1 else 0
  }

  ghost predicate TurnsTo(cfg: Config, db: Db, turn: Turn, next: Db, ref: string, attempt: nat, allowed: nat) {
    match turn
    case Attempt(call, id) => FailingAttempt(cfg, db, call, id, next, ref, attempt, allowed)
    case Elsewhere => SameRef(db, next, ref)
  }

  /** A trigger of the reference is attempted and fails, again and again, while other things happen. */
  ghost predicate KeepsFailing(cfg: Config, dbs: seq<Db>, turns: seq<Turn>, ref: string, allowed: nat) {
    && |dbs| == |turns| + 1 && AttemptsIn(turns) <= allowed + 1
    && forall i :: 0 <= i < |turns| ==> TurnsTo(cfg, dbs[i], turns[i], dbs[i + 1], ref, AttemptsIn(turns[..i]), allowed)
  }

  /** The attempt writes nothing, or, if it is the last, exactly one row for the reference: FAILED, marked, without tasks. */
  ghost predicate RecordsOnlyLast(cfg: Config, db: Db, turn: Turn, next: Db, ref: string, attempt: nat, allowed: nat) {
    turn.Attempt? ==>
      && turn.call.name in cfg
      && if attempt < allowed then next == db else
           var row := FailureRow(cfg[turn.call.name], turn.call);
           && next == InsertJob(db, turn.id, row, map[]) && row.status == Failed && IsTriggerFailureJob(row)
           && (forall j :: HasRef(next, j, ref) <==> j == turn.id) && (Referential(db) ==> TasksOf(next, turn.id) == {})
  }

  lemma {:induction false} AttemptsGrow(turns: seq<Turn>, n: nat)
    requires n <= |turns|
    ensures AttemptsIn(turns[..n]) <= AttemptsIn(turns)
    ensures n < |turns| ==> AttemptsIn(turns[..n + 1]) == AttemptsIn(turns[..n]) + if turns[n].Attempt? then 1 else 0
    decreases |turns|
  {
    if n < |turns| {
      assert turns[..n + 1][..n] == turns[..n];
      var front := turns[..|turns| - 1];
      AttemptsGrow(front, n);
      assert front[..n] == turns[..n];
    } else {
      assert turns[..n] == turns;
    }
  }

  lemma {:induction false} TakenSoFar(cfg: Config, dbs: seq<Db>, turns: seq<Turn>, ref: string, allowed: nat, n: nat)
    requires KeepsFailing(cfg, dbs, turns, ref, allowed) && !Taken(dbs[0], ref) && n <= |turns|
    ensures Taken(dbs[n], ref) <==> AttemptsIn(turns[..n]) > allowed
    ensures n < |turns| ==> RecordsOnlyLast(cfg, dbs[n], turns[n], dbs[n + 1], ref, AttemptsIn(turns[..n]), allowed)
    decreases n
  {
    if n > 0 {
      TakenSoFar(cfg, dbs, turns, ref, allowed, n - 1);
      AttemptsGrow(turns, n - 1);
      AttemptsGrow(turns, n);
      assert TurnsTo(cfg, dbs[n - 1], turns[n - 1], dbs[n - 1 + 1], ref, AttemptsIn(turns[..n - 1]), allowed);
      TurnRecords(cfg, dbs[n - 1], turns[n - 1], dbs[n], ref, AttemptsIn(turns[..n - 1]), allowed);
    }
    if n < |turns| {
      AttemptsGrow(turns, n);
      AttemptsGrow(turns, n + 1);
      assert TurnsTo(cfg, dbs[n], turns[n], dbs[n + 1], ref, AttemptsIn(turns[..n]), allowed);
      TurnRecords(cfg, dbs[n], turns[n], dbs[n + 1], ref, AttemptsIn(turns[..n]), allowed);
    }
  }

  /** A trigger retried `allowed` times that fails every time, whatever else happens to other references and to rows in
      between: no attempt before the last writes anything, the last writes exactly one row for the reference, and the
      reference is taken from then on and not before. */
  lemma OnlyTheLastFailureIsRecorded(cfg: Config, dbs: seq<Db>, turns: seq<Turn>, ref: string, allowed: nat)
    requires KeepsFailing(cfg, dbs, turns, ref, allowed) && !Taken(dbs[0], ref)
    ensures forall i :: 0 <= i < |turns| ==> RecordsOnlyLast(cfg, dbs[i], turns[i], dbs[i + 1], ref, AttemptsIn(turns[..i]), allowed)
    ensures forall i :: 0 <= i <= |turns| ==> (Taken(dbs[i], ref) <==> AttemptsIn(turns[..i]) > allowed)
  {
    forall i | 0 <= i <= |turns|
      ensures Taken(dbs[i], ref) <==> AttemptsIn(turns[..i]) > allowed
      ensures i < |turns| ==> RecordsOnlyLast(cfg, dbs[i], turns[i], dbs[i + 1], ref, AttemptsIn(turns[..i]), allowed)
    {
      TakenSoFar(cfg, dbs, turns, ref, allowed, i);
    }
  }

  lemma TurnRecords(cfg: Config, db: Db, turn: Turn, next: Db, ref: string, attempt: nat, allowed: nat)
    requires TurnsTo(cfg, db, turn, next, ref, attempt, allowed) && (turn.Attempt? ==> attempt <= allowed)
    requires Taken(db, ref) <==> attempt > allowed
    ensures RecordsOnlyLast(cfg, db, turn, next, ref, attempt, allowed)
    ensures Taken(next, ref) <==> attempt + (if turn.Attempt? then 1 else 0) > allowed
  {
    match turn
    case Elsewhere =>
    case Attempt(call, id) =>
      FailingAttemptLeaves(cfg, db, call, id, next, ref, attempt, allowed);
      if attempt == allowed {
        OneFailureRow(db, id, FailureRow(cfg[call.name], call), ref);
        assert HasRef(next, id, ref);
      }
  }

  lemma OneFailureRow(db: Db, id: Id, row: Job, ref: string)
    requires id !in db.jobs && !Taken(db, ref) && row.ref == Some(ref)
    ensures var next := InsertJob(db, id, row, map[]);
      && (forall j :: HasRef(next, j, ref) <==> j == id) && (Referential(db) ==> TasksOf(next, id) == {})
  {
    var next := InsertJob(db, id, row, map[]);
    forall j
      ensures HasRef(next, j, ref) <==> j == id
    {
      assert HasRef(db, j, ref) ==> Taken(db, ref);
    }
  }

  // ---------------------------------------------------------------- a trigger brings its run up

  /** Whatever state an earlier trigger of the reference left, a trigger that succeeds leaves exactly one run of the
      reference, past PENDING; if it created the run or found it PENDING, all the run's tasks are on the topic, unless
      the run is rejected. */
  lemma SuccessfulTrigger(cfg: Config, db: Db, call: Call, id: Id, sent: map<nat, Partition>, next: Db, now: map<nat, Partition>,
                          ran: bool, ok: bool, report: Status, finalised: Option<Id>)
    requires Triggered(cfg, db, call, id, sent, next, now, ran, ok, report, finalised) && ok && RefsUnique(db) && id !in db.jobs
    requires RoutesTo(sent, call.route)
    ensures RefsUnique(next)
    ensures exists j :: BroughtPast(db, call, j, next, now)
  {
    TriggerKeepsRefs(cfg, db, call, id, sent, next, now, ran, ok, report, finalised);
    var settings := cfg[call.name];
    if Taken(db, call.ref) {
      var j, order :| FlowsOnFound(settings, db, call, sent, next, now, ok, report, finalised, j, order);
      FlowBringsPast(settings, db, db, call, j, order, sent, next, now, report, finalised);
    } else {
      var made := PreparedDb(settings, db, call, id);
      assert HasRef(made, id, call.ref);
      FlowBringsPast(settings, db, made, call, id, Ids(id + 1, |call.plan.data|), sent, next, now, report, finalised);
    }
  }

  ghost predicate BroughtPast(db: Db, call: Call, j: Id, next: Db, now: map<nat, Partition>) {
    && j in next.jobs && HasRef(next, j, call.ref) && next.jobs[j].status != Pending
    && (j in db.jobs && db.jobs[j].status == Pending ==> OnTopic(next, j, now))
    && (j !in db.jobs && next.jobs[j].status != Rejected ==> OnTopic(next, j, now))
    && (j in db.jobs && db.jobs[j].status != Pending ==> next.jobs == db.jobs && TasksOf(next, j) == TasksOf(db, j))
  }

  lemma FlowBringsPast(settings: JobConfig, db: Db, made: Db, call: Call, j: Id, order: seq<Id>, sent: map<nat, Partition>, next: Db, now: map<nat, Partition>,
                       report: Status, finalised: Option<Id>)
    requires FlowsOn(settings, made, j, order, call.route, sent, next, now, true, report, finalised) && HasRef(made, j, call.ref)
    requires (j in db.jobs ==> made == db) && (j !in db.jobs && j in made.jobs ==> made.jobs[j].status == Pending || made.jobs[j].status == Rejected)
    requires RoutesTo(sent, call.route)
    ensures BroughtPast(db, call, j, next, now)
  {
    assert TasksOf(next, j) == TasksOf(made, j);
    if made.jobs[j].status == Pending {
      AllSent(order, call.route, 0);
      assert order[..|order|] == order;
      SentIsOnTopic(made, j, sent, order, call.route);
    }
  }

  /** When everything gets through, everything is sent. */
  lemma {:induction false} AllSent(order: seq<Id>, route: Route, i: nat)
    requires AllRouted(order, route) && i <= |order|
    ensures SentLength(order, route, i) == |order|
    decreases |order| - i
  {
    if i < |order| {
      AllSent(order, route, Min(i + TASK_INSERT_BATCH_SIZE, |order|));
    }
  }
}
