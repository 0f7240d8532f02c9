/** What a trigger leaves behind, written out row by row: for every status its run can be found in, and for a new run. */
module TriggerOutcomes {
  import opened Options
  import opened Domain
  import opened Store
  import opened Finalizer
  import opened Protocol
  import opened TaskExecutor
  import opened Retry
  import opened Trigger

  // ---------------------------------------------------------------- going on with a run

  /** A run that is over: its status overwrites its tasks', and nothing is published. */
  lemma OverRunIsResettled(settings: JobConfig, db: Db, j: Id, order: seq<Id>, route: Route, sent: map<nat, Partition>,
                           next: Db, now: map<nat, Partition>, ok: bool, report: Status, finalised: Option<Id>)
    requires FlowsOn(settings, db, j, order, route, sent, next, now, ok, report, finalised) && db.jobs[j].status !in {Pending, Running}
    ensures ok && report == db.jobs[j].status && finalised == None && now == sent
    ensures next.jobs == db.jobs && next.tasks.Keys == db.tasks.Keys
    ensures forall t :: t in db.tasks ==>
              next.tasks[t] == if db.tasks[t].jobId == j then db.tasks[t].(status := db.jobs[j].status) else db.tasks[t]
  {
  }

  /** A RUNNING run is left alone. */
  lemma RunningRunIsLeft(settings: JobConfig, db: Db, j: Id, order: seq<Id>, route: Route, sent: map<nat, Partition>,
                         next: Db, now: map<nat, Partition>, ok: bool, report: Status, finalised: Option<Id>)
    requires FlowsOn(settings, db, j, order, route, sent, next, now, ok, report, finalised) && db.jobs[j].status == Running
    ensures ok && report == Running && finalised == None && now == sent && next == db
  {
  }

  /** A PENDING run one of whose tasks does not get through fails, and no other row changes. */
  lemma PendingRunFails(settings: JobConfig, db: Db, j: Id, order: seq<Id>, route: Route, sent: map<nat, Partition>,
                        next: Db, now: map<nat, Partition>, ok: bool, report: Status, finalised: Option<Id>)
    requires FlowsOn(settings, db, j, order, route, sent, next, now, ok, report, finalised) && db.jobs[j].status == Pending
    requires exists t :: t in db.tasks && db.tasks[t].jobId == j && route(t) == None
    ensures !ok && report == Failed && finalised == None && now == SentAll(sent, order[..SentLength(order, route, 0)], route)
    ensures next.tasks == db.tasks && next.jobs == db.jobs[j := db.jobs[j].(status := Failed)]
  {
    var t :| t in db.tasks && db.tasks[t].jobId == j && route(t) == None;
    assert t in TasksOf(db, j);
  }

  lemma StartedJobs(db: Db, j: Id, cancelPrevious: bool)
    requires j in db.jobs && db.jobs[j].status == Pending
    ensures var next := FlowDb(db, j, cancelPrevious, true);
      && next.jobs.Keys == db.jobs.Keys && next.jobs[j] == db.jobs[j].(status := if TasksOf(db, j) == {} then Completed else Running)
      && forall k :: k in db.jobs && k != j ==>
           next.jobs[k] == if cancelPrevious && db.jobs[k].name == db.jobs[j].name && db.jobs[k].status in {Pending, Running}
                           then db.jobs[k].(status := Cancelled) else db.jobs[k]
  {
  }

  lemma StartedTasks(db: Db, j: Id, cancelPrevious: bool)
    requires j in db.jobs && db.jobs[j].status == Pending
    ensures var next := FlowDb(db, j, cancelPrevious, true);
      && next.tasks.Keys == db.tasks.Keys
      && forall t :: t in db.tasks ==>
           var k := db.tasks[t].jobId;
           next.tasks[t] == if && cancelPrevious && k in db.jobs && k != j && db.jobs[k].name == db.jobs[j].name
                               && db.jobs[k].status in {Pending, Running} && db.tasks[t].status in {Pending, Running, Failed}
                            then db.tasks[t].(status := Cancelled) else db.tasks[t]
  {
  }

  /** A PENDING run all of whose tasks get through is started, or, without tasks, finished. If the name cancels previous runs,
      its other live runs are cancelled with their PENDING, RUNNING and FAILED tasks. Jobs of other names, and all other tasks,
      are untouched. */
  lemma PendingRunStarts(settings: JobConfig, db: Db, j: Id, order: seq<Id>, route: Route, sent: map<nat, Partition>,
                         next: Db, now: map<nat, Partition>, ok: bool, report: Status, finalised: Option<Id>)
    requires FlowsOn(settings, db, j, order, route, sent, next, now, ok, report, finalised) && db.jobs[j].status == Pending
    requires forall t :: t in db.tasks && db.tasks[t].jobId == j ==> route(t).Some?
    ensures ok && report == Running && now == SentAll(sent, order, route)
    ensures next.jobs.Keys == db.jobs.Keys && next.tasks.Keys == db.tasks.Keys
    ensures next.jobs[j] == db.jobs[j].(status := if exists t :: t in db.tasks && db.tasks[t].jobId == j then Running else Completed)
    ensures finalised == if exists t :: t in db.tasks && db.tasks[t].jobId == j then None else Some(j)
    ensures forall k :: k in db.jobs && k != j ==>
              next.jobs[k] == if settings.cancelPrevious && db.jobs[k].name == db.jobs[j].name && db.jobs[k].status in {Pending, Running}
                              then db.jobs[k].(status := Cancelled) else db.jobs[k]
    ensures forall t :: t in db.tasks ==>
              var k := db.tasks[t].jobId;
              next.tasks[t] == if && settings.cancelPrevious && k in db.jobs && k != j && db.jobs[k].name == db.jobs[j].name
                                  && db.jobs[k].status in {Pending, Running} && db.tasks[t].status in {Pending, Running, Failed}
                               then db.tasks[t].(status := Cancelled) else db.tasks[t]
  {
    assert Publishable(db, j, route);
    assert TasksOf(db, j) == {} <==> !exists t :: t in db.tasks && db.tasks[t].jobId == j by {
      assert forall t :: t in TasksOf(db, j) <==> t in db.tasks && db.tasks[t].jobId == j;
    }
    StartedJobs(db, j, settings.cancelPrevious);
    StartedTasks(db, j, settings.cancelPrevious);
    AllRoutedIsSent(order, route, 0);
    assert order[..|order|] == order;
  }

  lemma {:induction false} AllRoutedIsSent(order: seq<Id>, route: Route, i: nat)
    requires i <= |order| && forall t :: t in order ==> route(t).Some?
    ensures SentLength(order, route, i) == |order|
    decreases |order| - i
  {
    if i < |order| {
      AllRoutedIsSent(order, route, Min(i + TASK_INSERT_BATCH_SIZE, |order|));
    }
  }

  // ---------------------------------------------------------------- which run

  /** A name without configuration: nothing happens. A reference with a row: the job executor is not called, and the trigger
      goes on with a newest row of it. */
  lemma TriggerFinds(cfg: Config, db: Db, call: Call, id: Id, sent: map<nat, Partition>, next: Db, now: map<nat, Partition>,
                     ran: bool, ok: bool, report: Status, finalised: Option<Id>)
    requires Triggered(cfg, db, call, id, sent, next, now, ran, ok, report, finalised)
    ensures call.name !in cfg ==> next == db && now == sent && !ran && !ok && finalised == None
    ensures ran <==> call.name in cfg && forall j :: j in db.jobs ==> db.jobs[j].ref != Some(call.ref)
    ensures call.name in cfg && !ran ==> exists j, order ::
              && j in db.jobs && db.jobs[j].ref == Some(call.ref)
              && (forall k :: k in db.jobs && db.jobs[k].ref == Some(call.ref) ==> db.jobs[k].createdAt <= db.jobs[j].createdAt)
              && FlowsOn(cfg[call.name], db, j, order, call.route, sent, next, now, ok, report, finalised)
  {
    assert forall j :: HasRef(db, j, call.ref) <==> j in db.jobs && db.jobs[j].ref == Some(call.ref);
    if call.name in cfg && !ran {
      var j, order :| FlowsOnFound(cfg[call.name], db, call, sent, next, now, ok, report, finalised, j, order);
      assert HasRef(db, j, call.ref);
    }
  }

  /** A free reference whose job executor fails, or whose params cannot be encoded: at most a FAILED row, marked, without tasks. */
  lemma TriggerRecordsFailure(cfg: Config, db: Db, call: Call, id: Id, sent: map<nat, Partition>, next: Db, now: map<nat, Partition>,
                              ran: bool, ok: bool, report: Status, finalised: Option<Id>)
    requires Triggered(cfg, db, call, id, sent, next, now, ran, ok, report, finalised) && ran
    requires call.plan.Refuses? || exists i :: 0 <= i < |call.plan.data| && !call.plan.data[i].encodable
    ensures !ok && report == Failed && finalised == None && now == sent && next.tasks == db.tasks
    ensures next.jobs == if ShouldPersistTriggerFailure(call.metadata)
                         then db.jobs[id := Job(None, call.name, Failed, cfg[call.name].maxRetries, Some(call.ref), call.now, true)] else db.jobs
  {
    assert db.tasks + map[] == db.tasks;
  }

  /** The job and the tasks of a new run before it goes on: one task for each element the job executor returned, in its order. */
  ghost predicate HoldsPlan(settings: JobConfig, call: Call, id: Id, next: Db) {
    && id in next.jobs
    && next.jobs[id].parent == None && next.jobs[id].name == call.name && next.jobs[id].maxRetries == settings.maxRetries
    && next.jobs[id].ref == Some(call.ref) && next.jobs[id].createdAt == call.now
    && call.plan.Yields? && (forall t :: t in next.tasks && next.tasks[t].jobId == id <==> id + 1 <= t < id + 1 + |call.plan.data|)
    && forall i {:trigger call.plan.data[i]} :: 0 <= i < |call.plan.data| ==>
         next.tasks[id + 1 + i] == Task(id, call.plan.data[i].name, if call.enabled then Pending else Rejected, 1, settings.maxRetries, i,
                                        if call.plan.data[i].key == "" then None else Some(call.plan.data[i].key), call.plan.data[i].params, "", call.now)
  }

  lemma MadeHoldsPlan(settings: JobConfig, db: Db, call: Call, id: Id)
    requires Buildable(call.plan) && id !in db.jobs && Referential(db) && forall t :: t in db.tasks ==> t < id
    ensures var made := PreparedDb(settings, db, call, id);
      && HoldsPlan(settings, call, id, made) && made.jobs == db.jobs[id := made.jobs[id]]
      && (forall t :: t in db.tasks ==> t in made.tasks && made.tasks[t] == db.tasks[t])
      && made.jobs[id].status == if call.enabled then Pending else Rejected
  {
    var job := NewJob(settings, call);
    BuiltRows(id, job, call.plan.data, id + 1);
    var rows, made := Built(id, job, call.plan.data, id + 1), PreparedDb(settings, db, call, id);
    forall i {:trigger call.plan.data[i]} | 0 <= i < |call.plan.data|
      ensures made.tasks[id + 1 + i] == Task(id, call.plan.data[i].name, if call.enabled then Pending else Rejected, 1, settings.maxRetries, i,
                                             if call.plan.data[i].key == "" then None else Some(call.plan.data[i].key), call.plan.data[i].params, "", call.now)
    {
      assert id + 1 + i in rows && made.tasks[id + 1 + i] == rows[id + 1 + i];
    }
    forall t | t in made.tasks
      ensures made.tasks[t].jobId == id <==> id + 1 <= t < id + 1 + |call.plan.data|
    {
      if t in rows {
        assert made.tasks[t] == rows[t];
      }
    }
  }

  /** The trigger has a free reference and a plan that can be built. */
  ghost predicate Creates(cfg: Config, db: Db, call: Call, id: Id, sent: map<nat, Partition>, next: Db, now: map<nat, Partition>,
                          ran: bool, ok: bool, report: Status, finalised: Option<Id>)
  {
    && Triggered(cfg, db, call, id, sent, next, now, ran, ok, report, finalised) && ran
    && call.plan.Yields? && (forall i :: 0 <= i < |call.plan.data| ==> call.plan.data[i].encodable)
    && id !in db.jobs && Referential(db) && forall t :: t in db.tasks ==> t < id
  }

  lemma CreatedFlowsOn(cfg: Config, db: Db, call: Call, id: Id, sent: map<nat, Partition>, next: Db, now: map<nat, Partition>,
                       ran: bool, ok: bool, report: Status, finalised: Option<Id>)
    requires Creates(cfg, db, call, id, sent, next, now, ran, ok, report, finalised)
    ensures call.name in cfg && Buildable(call.plan)
    ensures FlowsOn(cfg[call.name], PreparedDb(cfg[call.name], db, call, id), id, Ids(id + 1, |call.plan.data|), call.route, sent, next, now, ok, report, finalised)
  {
  }

  /** The new run of a disabled job: REJECTED with its tasks, and nothing is published. */
  lemma DisabledRunIsRejected(cfg: Config, db: Db, call: Call, id: Id, sent: map<nat, Partition>, next: Db, now: map<nat, Partition>,
                              ran: bool, ok: bool, report: Status, finalised: Option<Id>)
    requires Creates(cfg, db, call, id, sent, next, now, ran, ok, report, finalised) && !call.enabled
    ensures HoldsPlan(cfg[call.name], call, id, next) && next.jobs == db.jobs[id := next.jobs[id]] && next.jobs[id].status == Rejected
    ensures forall t :: t in db.tasks ==> t in next.tasks && next.tasks[t] == db.tasks[t]
    ensures ok && report == Rejected && finalised == None && now == sent
  {
    CreatedFlowsOn(cfg, db, call, id, sent, next, now, ran, ok, report, finalised);
    MadeHoldsPlan(cfg[call.name], db, call, id);
    OverRunIsResettled(cfg[call.name], PreparedDb(cfg[call.name], db, call, id), id, Ids(id + 1, |call.plan.data|), call.route,
                       sent, next, now, ok, report, finalised);
  }

  /** The new run one of whose tasks does not get through: FAILED, its tasks PENDING. */
  lemma UnpublishedRunFails(cfg: Config, db: Db, call: Call, id: Id, sent: map<nat, Partition>, next: Db, now: map<nat, Partition>,
                            ran: bool, ok: bool, report: Status, finalised: Option<Id>)
    requires Creates(cfg, db, call, id, sent, next, now, ran, ok, report, finalised) && call.enabled
    requires exists t :: id + 1 <= t < id + 1 + |call.plan.data| && call.route(t) == None
    ensures HoldsPlan(cfg[call.name], call, id, next) && next.jobs == db.jobs[id := next.jobs[id]] && next.jobs[id].status == Failed
    ensures forall t :: t in db.tasks ==> t in next.tasks && next.tasks[t] == db.tasks[t]
    ensures !ok && report == Failed && finalised == None
  {
    CreatedFlowsOn(cfg, db, call, id, sent, next, now, ran, ok, report, finalised);
    MadeHoldsPlan(cfg[call.name], db, call, id);
    var made := PreparedDb(cfg[call.name], db, call, id);
    var t: Id :| id + 1 <= t < id + 1 + |call.plan.data| && call.route(t) == None;
    assert made.tasks[id + 1 + (t - id - 1)].jobId == id;
    PendingRunFails(cfg[call.name], made, id, Ids(id + 1, |call.plan.data|), call.route, sent, next, now, ok, report, finalised);
  }

  lemma MadeStarts(cfg: Config, db: Db, call: Call, id: Id, sent: map<nat, Partition>, next: Db, now: map<nat, Partition>,
                   ran: bool, ok: bool, report: Status, finalised: Option<Id>)
    requires Creates(cfg, db, call, id, sent, next, now, ran, ok, report, finalised) && call.enabled
    requires forall t :: id + 1 <= t < id + 1 + |call.plan.data| ==> call.route(t).Some?
    ensures var made := PreparedDb(cfg[call.name], db, call, id);
      && id in made.jobs && made.jobs[id].status == Pending && (forall t :: t in made.tasks && made.tasks[t].jobId == id ==> call.route(t).Some?)
      && FlowsOn(cfg[call.name], made, id, Ids(id + 1, |call.plan.data|), call.route, sent, next, now, ok, report, finalised)
  {
    CreatedFlowsOn(cfg, db, call, id, sent, next, now, ran, ok, report, finalised);
    MadeHoldsPlan(cfg[call.name], db, call, id);
  }

  /** The new run all of whose tasks get through: RUNNING, or COMPLETED without tasks. */
  lemma NewRunStarts(cfg: Config, db: Db, call: Call, id: Id, sent: map<nat, Partition>, next: Db, now: map<nat, Partition>,
                     ran: bool, ok: bool, report: Status, finalised: Option<Id>)
    requires Creates(cfg, db, call, id, sent, next, now, ran, ok, report, finalised) && call.enabled
    requires forall t :: id + 1 <= t < id + 1 + |call.plan.data| ==> call.route(t).Some?
    ensures HoldsPlan(cfg[call.name], call, id, next) && next.jobs.Keys == db.jobs.Keys + {id}
    ensures next.jobs[id].status == if call.plan.data == [] then Completed else Running
    ensures finalised == if call.plan.data == [] then Some(id) else None
    ensures ok && report == Running && now == SentAll(sent, Ids(id + 1, |call.plan.data|), call.route)
  {
    MadeStarts(cfg, db, call, id, sent, next, now, ran, ok, report, finalised);
    MadeHoldsPlan(cfg[call.name], db, call, id);
    var made := PreparedDb(cfg[call.name], db, call, id);
    PendingRunStarts(cfg[call.name], made, id, Ids(id + 1, |call.plan.data|), call.route, sent, next, now, ok, report, finalised);
    if call.plan.data != [] {
      assert id + 1 in made.tasks && made.tasks[id + 1].jobId == id;
    }
  }

  /** Of the rows there were, exactly those change that cancelling the previous runs of the name takes: never jobs of other names
      or their tasks. */
  lemma NewRunCancelsPrevious(cfg: Config, db: Db, call: Call, id: Id, sent: map<nat, Partition>, next: Db, now: map<nat, Partition>,
                              ran: bool, ok: bool, report: Status, finalised: Option<Id>)
    requires Creates(cfg, db, call, id, sent, next, now, ran, ok, report, finalised) && call.enabled
    requires forall t :: id + 1 <= t < id + 1 + |call.plan.data| ==> call.route(t).Some?
    ensures forall k :: k in db.jobs ==>
              k in next.jobs &&
              next.jobs[k] == if cfg[call.name].cancelPrevious && db.jobs[k].name == call.name && db.jobs[k].status in {Pending, Running}
                              then db.jobs[k].(status := Cancelled) else db.jobs[k]
    ensures forall t :: t in db.tasks ==>
              var job := db.jobs[db.tasks[t].jobId];
              t in next.tasks &&
              next.tasks[t] == if && cfg[call.name].cancelPrevious && job.name == call.name && job.status in {Pending, Running}
                                  && db.tasks[t].status in {Pending, Running, Failed}
                               then db.tasks[t].(status := Cancelled) else db.tasks[t]
  {
    MadeStarts(cfg, db, call, id, sent, next, now, ran, ok, report, finalised);
    MadeHoldsPlan(cfg[call.name], db, call, id);
    var made := PreparedDb(cfg[call.name], db, call, id);
    StartedOthers(db, made, id, cfg[call.name].cancelPrevious);
  }

  /** What starting the new run makes of the rows there were. */
  lemma StartedOthers(db: Db, made: Db, id: Id, cancelPrevious: bool)
    requires id !in db.jobs && id in made.jobs && made.jobs == db.jobs[id := made.jobs[id]] && made.jobs[id].status == Pending
    requires Referential(db) && forall t :: t in db.tasks ==> t in made.tasks && made.tasks[t] == db.tasks[t]
    ensures var next := FlowDb(made, id, cancelPrevious, true);
      && (forall k :: k in db.jobs ==>
            k in next.jobs &&
            next.jobs[k] == if cancelPrevious && db.jobs[k].name == made.jobs[id].name && db.jobs[k].status in {Pending, Running}
                            then db.jobs[k].(status := Cancelled) else db.jobs[k])
      && (forall t :: t in db.tasks ==>
            var job := db.jobs[db.tasks[t].jobId];
            t in next.tasks &&
            next.tasks[t] == if && cancelPrevious && job.name == made.jobs[id].name && job.status in {Pending, Running}
                                && db.tasks[t].status in {Pending, Running, Failed}
                             then db.tasks[t].(status := Cancelled) else db.tasks[t])
  {
    StartedJobs(made, id, cancelPrevious);
    StartedTasks(made, id, cancelPrevious);
  }
}
