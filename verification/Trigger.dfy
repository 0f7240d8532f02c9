/** Triggering a job (internal/executor/job_executor.go) and recording triggers that fail
    (internal/executor/trigger_failure.go). */
module Trigger {
  import opened Options
  import opened Domain
  import opened Store
  import opened Finalizer
  import opened Protocol
  import opened TaskExecutor
  import opened Retry

  // ---------------------------------------------------------------- trigger metadata

  /** A metadata value as it comes in: Go integers, JSON numbers, truth values, anything else. */
  datatype Value = IntValue(int_: int) | FloatValue(real_: real) | BoolValue(bool_: bool) | OtherValue

  type Metadata = map<string, Value>

  const ASYNQ_RETRY_COUNT := "asynq_retry_count"
  const ASYNQ_MAX_RETRY := "asynq_max_retry"
  const TRIGGER_FAILURE := "trigger_failure"

  /** Conversion of a floating-point number to an integer drops the fraction. */
  function Truncated(r: real): int {
    if r >= 0.0 then r.Floor else -((-r).Floor)
  }

  function MetadataInt(metadata: Metadata, key: string): Option<int> {
    if key !in metadata then None
    else match metadata[key]
      case IntValue(n) => Some(n)
      case FloatValue(r) => Some(Truncated(r))
      case _ => None
  }

  /** Towards zero. */
  lemma TruncatedMeans(r: real)
    ensures r >= 0.0 ==> Truncated(r) as real <= r < Truncated(r) as real + 1.0
    ensures r < 0.0 ==> Truncated(r) as real - 1.0 < r <= Truncated(r) as real
  {
  }

  /** Only the last attempt of a retried trigger is recorded; an attempt that does not say how many follow is the last. */
  predicate ShouldPersistTriggerFailure(metadata: Metadata) {
    var maxRetry := MetadataInt(metadata, ASYNQ_MAX_RETRY);
    maxRetry.None? || MetadataInt(metadata, ASYNQ_RETRY_COUNT).GetOr(0) >= maxRetry.value
  }

  /** When a failed attempt is recorded, for numbers as they come. */
  lemma PersistMeans(metadata: Metadata, count: int, allowed: int)
    ensures "asynq_max_retry" !in metadata ==> ShouldPersistTriggerFailure(metadata)
    ensures "asynq_max_retry" in metadata && (metadata["asynq_max_retry"].OtherValue? || metadata["asynq_max_retry"].BoolValue?) ==>
              ShouldPersistTriggerFailure(metadata)
    ensures "asynq_max_retry" in metadata && (metadata["asynq_max_retry"] == IntValue(allowed) || metadata["asynq_max_retry"] == FloatValue(allowed as real)) ==>
      && ("asynq_retry_count" !in metadata ==> (ShouldPersistTriggerFailure(metadata) <==> 0 >= allowed))
      && ("asynq_retry_count" in metadata && (metadata["asynq_retry_count"] == IntValue(count) || metadata["asynq_retry_count"] == FloatValue(count as real)) ==>
            (ShouldPersistTriggerFailure(metadata) <==> count >= allowed))
  {
    TruncatedMeans(count as real);
    TruncatedMeans(allowed as real);
  }

  // ---------------------------------------------------------------- building the tasks

  /** One element of what a job executor returns. */
  datatype TaskData = TaskData(name: string, key: string, params: string, encodable: bool)

  /** How the call into the job executor goes. */
  datatype Plan = Refuses | Yields(data: seq<TaskData>)

  predicate Buildable(plan: Plan) {
    plan.Yields? && forall i :: 0 <= i < |plan.data| ==> plan.data[i].encodable
  }

  function InitialTaskStatus(status: Status): Status {
    if IsLive(status) then Pending
    else if status == Rejected then Rejected
    else if status == Cancelled then Cancelled
    else Other("")
  }

  function NewTask(j: Id, job: Job, data: TaskData, i: int): Task {
    Task(j, data.name, InitialTaskStatus(job.status), 1, job.maxRetries, i,
         if data.key == "" then None else Some(data.key), data.params, "", job.createdAt)
  }

  /** The rows of a list of tasks, under consecutive fresh ids, numbered from 0. */
  function Built(j: Id, job: Job, data: seq<TaskData>, first: Id): map<Id, Task> {
    if data == [] then map[]
    else
      var last := |data| - 1;
      Built(j, job, data[..last], first)[first + last := NewTask(j, job, data[last], last)]
  }

  /** One row for each element, at its place. */
  lemma {:induction false} BuiltByPlace(j: Id, job: Job, data: seq<TaskData>, first: Id)
    ensures forall t :: t in Built(j, job, data, first) <==> first <= t < first + |data|
    ensures forall i {:trigger data[i]} :: 0 <= i < |data| ==> Built(j, job, data, first)[first + i] == NewTask(j, job, data[i], i)
  {
    if data != [] {
      BuiltByPlace(j, job, data[..|data| - 1], first);
    }
  }

  /** What each row holds: the element's name, key and params, the job's limits and time, its place for a number. */
  lemma BuiltRows(j: Id, job: Job, data: seq<TaskData>, first: Id)
    ensures forall t :: t in Built(j, job, data, first) <==> first <= t < first + |data|
    ensures forall i {:trigger data[i]} :: 0 <= i < |data| ==> Built(j, job, data, first)[first + i] == NewTask(j, job, data[i], i)
    ensures forall t :: t in Built(j, job, data, first) ==>
      var task := Built(j, job, data, first)[t];
      task.jobId == j && task.createdAt == job.createdAt && task.attempt == 1 && task.status == InitialTaskStatus(job.status) && task.sequence == t - first
    ensures forall i {:trigger data[i]} :: 0 <= i < |data| ==>
      var task := Built(j, job, data, first)[first + i];
      && task.jobId == j && task.name == data[i].name && task.params == data[i].params && (if data[i].key == "" then task.key == None else task.key == Some(data[i].key))
      && task.attempt == 1 && task.maxRetries == job.maxRetries && task.sequence == i && task.result == "" && task.createdAt == job.createdAt
      && (job.status == Pending || job.status == Running ==> task.status == Pending) && (job.status == Rejected ==> task.status == Rejected)
      && (job.status == Cancelled ==> task.status == Cancelled)
    ensures |Ids(first, |data|)| == |data| && forall t :: t in Ids(first, |data|) <==> first <= t < first + |data|
  {
    BuiltByPlace(j, job, data, first);
    var rows := Built(j, job, data, first);
    forall t | t in rows
      ensures rows[t] == NewTask(j, job, data[t - first], t - first)
    {
      assert rows[first + (t - first)] == NewTask(j, job, data[t - first], t - first);
    }
    IdsInOrder(first, |data|);
    IdsRange(first, |data|);
  }

  /** Builds the rows one by one, giving up at the first whose params cannot be encoded. */
  method BuildTasks(repo: Repository, j: Id, job: Job, data: seq<TaskData>) returns (ok: bool, rows: map<Id, Task>, order: seq<Id>)
    requires repo.Valid()
    modifies repo`nextId
    ensures repo.Valid() && repo.nextId >= old(repo.nextId)
    ensures ok <==> Buildable(Yields(data))
    ensures ok ==> repo.nextId == old(repo.nextId) + |data|
    ensures ok ==> rows == Built(j, job, data, old(repo.nextId)) && order == Ids(old(repo.nextId), |data|)
    ensures forall t :: t in rows ==> t < repo.nextId
  {
    ghost var first := repo.nextId;
    rows, order := map[], [];
    for i := 0 to |data|
      invariant repo.Valid() && repo.nextId == first + i
      invariant rows == Built(j, job, data[..i], first) && order == Ids(first, i)
      invariant forall t :: t in rows ==> t < first + i
      invariant forall k :: 0 <= k < i ==> data[k].encodable
    {
      var id := repo.NewId();
      if !data[i].encodable {
        return false, map[], [];
      }
      rows := rows[id := NewTask(j, job, data[i], i)];
      order := order + [id];
      assert data[..i + 1][..i] == data[..i];
    }
    assert data[..|data|] == data;
    ok := true;
  }

  // ---------------------------------------------------------------- publishing and starting

  /** How much of the list the batches send, from place `i` on: all of it, or up to the end of the first batch with a message
      that does not get through. */
  function SentLength(order: seq<Id>, route: Route, i: nat): (sent: nat)
    requires i <= |order|
    ensures i <= sent <= |order|
    decreases |order| - i
  {
    if i == |order| then i
    else
      var end := Min(i + TASK_INSERT_BATCH_SIZE, |order|);
      if AllRouted(order[i..end], route) then SentLength(order, route, end) else end
  }

  /** Whole batches before the one that fails, and that one; or everything. */
  lemma SentLengthMeans(order: seq<Id>, route: Route, i: nat) returns (k: nat)
    requires i <= |order| && (i % 1000 == 0 || i == |order|) && AllRouted(order[..i], route)
    ensures var n := SentLength(order, route, i);
      if forall t :: t in order ==> route(t).Some? then n == |order|
      else 1000 * k < |order| && n == Min(1000 * (k + 1), |order|) && (forall t :: t in order[..1000 * k] ==> route(t).Some?) && exists t :: t in order[1000 * k..n] && route(t).None?
    decreases |order| - i
  {
    k := 0;
    if i == |order| {
      assert order[..i] == order;
    } else {
      var end := Min(i + 1000, |order|);
      assert order[..end] == order[..i] + order[i..end];
      if AllRouted(order[i..end], route) {
        k := SentLengthMeans(order, route, end);
      } else {
        k := i / 1000;
        assert i == 1000 * k;
      }
    }
  }

  /** One batch more: it goes on, or stops there. */
  lemma BatchSent(order: seq<Id>, route: Route, i: nat, end: nat)
    requires i < |order| && end == Min(i + TASK_INSERT_BATCH_SIZE, |order|) && AllRouted(order[..i], route)
    ensures order[..i] + order[i..end] == order[..end]
    ensures AllRouted(order[..end], route) <==> AllRouted(order[i..end], route)
    ensures SentLength(order, route, i) == if AllRouted(order[i..end], route) then SentLength(order, route, end) else end
    ensures AllRouted(order, route) ==> AllRouted(order[i..end], route)
  {
    assert order[..i] + order[i..end] == order[..end];
    forall t | t in order[i..end]
      ensures t in order[..end]
    {
      assert t in order[..i] + order[i..end];
    }
  }

  /** Publishes in batches, giving up after the first that fails. */
  method PublishInBatches(broker: Broker, order: seq<Id>, route: Route) returns (ok: bool)
    requires RoutesTo(broker.partitions, route)
    modifies broker`partitions
    ensures broker.partitions == SentAll(old(broker.partitions), order[..SentLength(order, route, 0)], route)
    ensures ok <==> AllRouted(order, route)
    ensures ok ==> SentLength(order, route, 0) == |order|
  {
    ghost var was := broker.partitions;
    var i := 0;
    ghost var sent := 0;
    while i < |order|
      invariant 0 <= i && sent == Min(i, |order|) && RoutesTo(broker.partitions, route)
      invariant broker.partitions == SentAll(was, order[..sent], route) && AllRouted(order[..sent], route)
      invariant SentLength(order, route, 0) == SentLength(order, route, sent)
    {
      var end := Min(i + TASK_INSERT_BATCH_SIZE, |order|);
      SentAllJoins(was, order[..i], order[i..end], route);
      BatchSent(order, route, i, end);
      ok := PublishTasks(broker, order[i..end], route);
      sent := end;
      if !ok {
        return;
      }
      i := i + TASK_INSERT_BATCH_SIZE;
    }
    assert order[..|order|] == order;
    ok := true;
  }

  /** Every task of the job is on the topic. */
  ghost predicate OnTopic(db: Db, j: Id, partitions: map<nat, Partition>) {
    forall t :: t in TasksOf(db, j) ==> exists l :: l in partitions && t in partitions[l].messages
  }

  lemma {:induction false} RoutedIsSent(order: seq<Id>, route: Route, l: nat, t: Id)
    requires t in order && route(t) == Some(l)
    ensures t in RoutedTo(order, route, l)
  {
    var last := |order| - 1;
    if order[last] != t {
      RoutedIsSent(order[..last], route, l, t);
    }
  }

  lemma SentIsOnTopic(db: Db, j: Id, sent: map<nat, Partition>, order: seq<Id>, route: Route)
    requires RoutesTo(sent, route) && AllRouted(order, route) && forall t :: t in TasksOf(db, j) ==> t in order
    ensures OnTopic(db, j, SentAll(sent, order, route))
  {
    SentAllAppends(sent, order, route);
    forall t | t in TasksOf(db, j)
      ensures exists l :: l in SentAll(sent, order, route) && t in SentAll(sent, order, route)[l].messages
    {
      var l := route(t).value;
      RoutedIsSent(order, route, l, t);
      assert l in SentAll(sent, order, route) && t in SentAll(sent, order, route)[l].messages;
    }
  }

  /** What the rest of a trigger does to the tables, once its run has been created or found. */
  function FlowDb(db: Db, j: Id, cancelPrevious: bool, published: bool): Db
    requires j in db.jobs
  {
    var status := db.jobs[j].status;
    if !IsLive(status) then SetTaskStatuses(db, TasksOf(db, j), status)
    else if status == Running then db
    else if !published then SetJobStatus(db, j, Failed)
    else StartedRun(if cancelPrevious then CancelPrevious(db, db.jobs[j].name, j) else db, j, TasksOf(db, j) == {})
  }

  /** What it does to the topics: a PENDING run's tasks are sent, up to the first batch that fails. */
  function FlowTopics(db: Db, j: Id, order: seq<Id>, route: Route, sent: map<nat, Partition>): map<nat, Partition>
    requires j in db.jobs
  {
    if db.jobs[j].status == Pending then SentAll(sent, order[..SentLength(order, route, 0)], route) else sent
  }

  /** The run that is finalised at once, having no tasks. */
  function FlowFinalises(db: Db, j: Id, published: bool): Option<Id>
    requires j in db.jobs
  {
    if db.jobs[j].status == Pending && published && TasksOf(db, j) == {} then Some(j) else None
  }

  predicate FlowFails(db: Db, j: Id, published: bool)
    requires j in db.jobs
  {
    db.jobs[j].status == Pending && !published
  }

  /** The status the trigger reports: that of its own copy of the row, with RUNNING for any live one. */
  function Reported(db: Db, j: Id, published: bool): Status
    requires j in db.jobs
  {
    if FlowFails(db, j, published) then Failed else if IsLive(db.jobs[j].status) then Running else db.jobs[j].status
  }

  /** Publish, cancel the previous runs, start; a run without tasks is finalised at once. */
  method PublishAndStart(repo: Repository, broker: Broker, hooks: HookLog, registered: set<string>, settings: JobConfig, j: Id, order: seq<Id>, route: Route)
    returns (ok: bool)
    requires repo.Valid() && j in repo.jobs && repo.jobs[j].status == Pending && RoutesTo(broker.partitions, route)
    requires |order| == |TasksOf(repo.Rows(), j)| && forall t :: t in order <==> t in TasksOf(repo.Rows(), j)
    modifies repo`jobs, repo`tasks, broker`partitions, hooks
    ensures repo.Valid() && (ok <==> Publishable(old(repo.Rows()), j, route))
    ensures repo.Rows() == FlowDb(old(repo.Rows()), j, settings.cancelPrevious, ok)
    ensures broker.partitions == FlowTopics(old(repo.Rows()), j, order, route, old(broker.partitions))
    ensures hooks.finished == old(hooks.finished) + EmptyHook(old(repo.Rows()), registered, FlowFinalises(old(repo.Rows()), j, ok))
  {
    var job := new JobRecord(repo.jobs[j]);
    assert AllRouted(order, route) <==> Publishable(repo.Rows(), j, route);
    ok := PublishInBatches(broker, order, route);
    if !ok {
      var _ := job.Fire(FailJob);
      repo.UpdateJobStatus(j, job.row.status);
      return;
    }
    if settings.cancelPrevious {
      repo.CancelPreviousJobs(job.row.name, j);
    }
    var _ := job.Fire(StartJob);
    repo.UpdateJobStatus(j, job.row.status);
    if |order| == 0 {
      assert TasksOf(repo.Rows(), j) == {};
      FinalizeEmpty(repo, hooks, registered, j);
    }
  }

  method ExecuteJobFlow(repo: Repository, broker: Broker, hooks: HookLog, registered: set<string>, settings: JobConfig, j: Id, order: seq<Id>, route: Route)
    returns (ok: bool)
    requires repo.Valid() && j in repo.jobs && RoutesTo(broker.partitions, route)
    requires |order| == |TasksOf(repo.Rows(), j)| && forall t :: t in order <==> t in TasksOf(repo.Rows(), j)
    modifies repo`jobs, repo`tasks, broker`partitions, hooks
    ensures repo.Valid() && (ok <==> !FlowFails(old(repo.Rows()), j, Publishable(old(repo.Rows()), j, route)))
    ensures repo.Rows() == FlowDb(old(repo.Rows()), j, settings.cancelPrevious, Publishable(old(repo.Rows()), j, route))
    ensures broker.partitions == FlowTopics(old(repo.Rows()), j, order, route, old(broker.partitions))
    ensures hooks.finished == old(hooks.finished) +
        EmptyHook(old(repo.Rows()), registered, FlowFinalises(old(repo.Rows()), j, Publishable(old(repo.Rows()), j, route)))
  {
    if !IsLive(repo.jobs[j].status) {
      repo.UpdateTasksStatusByJobID(j, repo.jobs[j].status);
      return true;
    }
    if repo.jobs[j].status == Running {
      return true;
    }
    ok := PublishAndStart(repo, broker, hooks, registered, settings, j, order, route);
  }

  // ---------------------------------------------------------------- executeJob

  /** The calls made into job executors, by reference, in order. */
  class JobCode {
    var runs: seq<string>

    constructor ()
      ensures runs == []
    {
      runs := [];
    }
  }

  /** A trigger: what it is called with, and what it meets on the way. */
  datatype Call = Call(name: string, ref: string, metadata: Metadata, enabled: bool, plan: Plan, now: int, route: Route)

  function NewJob(settings: JobConfig, call: Call): Job {
    Job(None, call.name, if call.enabled then Pending else Rejected, settings.maxRetries, Some(call.ref), call.now,
        TRIGGER_FAILURE in call.metadata && call.metadata[TRIGGER_FAILURE] == BoolValue(true))
  }

  /** The row that stands for a trigger that failed before it had tasks. */
  function FailureRow(settings: JobConfig, call: Call): Job {
    NewJob(settings, call).(status := Failed, triggerFailure := true)
  }

  /** The tables once a run is created, or its failure recorded, under the fresh id `id`. */
  function PreparedDb(settings: JobConfig, db: Db, call: Call, id: Id): Db {
    if Buildable(call.plan) then InsertJob(db, id, NewJob(settings, call), Built(id, NewJob(settings, call), call.plan.data, id + 1))
    else if ShouldPersistTriggerFailure(call.metadata) then InsertJob(db, id, FailureRow(settings, call), map[])
    else db
  }

  predicate Taken(db: Db, ref: string) {
    exists j :: j in db.jobs && HasRef(db, j, ref)
  }

  /** Records the failure, unless a row for the reference has turned up. */
  method PersistTriggerFailure(repo: Repository, settings: JobConfig, call: Call, id: Id)
    requires repo.Valid() && id < repo.nextId
    modifies repo`jobs, repo`tasks
    ensures repo.Valid()
    ensures repo.Rows() == if Taken(old(repo.Rows()), call.ref) then old(repo.Rows()) else InsertJob(old(repo.Rows()), id, FailureRow(settings, call), map[])
  {
    var existing := repo.FindJobByReference(call.ref);
    if existing.Some? {
      return;
    }
    repo.CreateJobAndTasks(id, FailureRow(settings, call), map[]);
  }

  ghost predicate Referential(db: Db) {
    forall t :: t in db.tasks ==> db.tasks[t].jobId in db.jobs
  }

  lemma NewRunsTasks(db: Db, id: Id, job: Job, data: seq<TaskData>, first: Id)
    requires Referential(db) && id !in db.jobs
    ensures var next := InsertJob(db, id, job, Built(id, job, data, first));
      && Referential(next) && |Ids(first, |data|)| == |TasksOf(next, id)|
      && forall t :: t in Ids(first, |data|) <==> t in TasksOf(next, id)
  {
    BuiltRows(id, job, data, first);
    var rows := Built(id, job, data, first);
    assert TasksOf(InsertJob(db, id, job, rows), id) == rows.Keys;
    ListLength(Ids(first, |data|), rows.Keys, first);
  }

  lemma ListLength(ids: seq<Id>, keys: set<Id>, first: Id)
    requires ids == Ids(first, |ids|) && forall t :: t in ids <==> t in keys
    ensures |ids| == |keys|
  {
    IdsInOrder(first, |ids|);
    DistinctSize(ids);
    assert ToSet(ids) == keys;
  }

  /** Builds the tasks and inserts them with their run, or neither. */
  method BuildAndInsert(repo: Repository, id: Id, job: Job, data: seq<TaskData>) returns (ok: bool, order: seq<Id>)
    requires repo.Valid() && Referential(repo.Rows()) && id !in repo.jobs && id + 1 == repo.nextId
    modifies repo
    ensures repo.Valid() && (ok <==> Buildable(Yields(data)))
    ensures repo.Rows() == if ok then InsertJob(old(repo.Rows()), id, job, Built(id, job, data, id + 1)) else old(repo.Rows())
    ensures id < repo.nextId
    ensures ok ==> order == Ids(id + 1, |data|) && |order| == |TasksOf(repo.Rows(), id)| && forall t :: t in order <==> t in TasksOf(repo.Rows(), id)
  {
    NewRunsTasks(repo.Rows(), id, job, data, id + 1);
    var rows;
    ok, rows, order := BuildTasks(repo, id, job, data);
    if ok {
      repo.CreateJobAndTasks(id, job, rows);
    }
  }

  /** Runs the job executor and creates the run, or records that it failed. */
  method CreateRun(repo: Repository, code: JobCode, settings: JobConfig, call: Call) returns (found: Option<Id>, order: seq<Id>)
    requires repo.Valid() && Referential(repo.Rows()) && !Taken(repo.Rows(), call.ref)
    modifies repo, code
    ensures repo.Valid() && (found.Some? <==> Buildable(call.plan)) && (found.Some? ==> found.value == old(repo.nextId))
    ensures repo.Rows() == PreparedDb(settings, old(repo.Rows()), call, old(repo.nextId)) && code.runs == old(code.runs) + [call.ref]
    ensures found.Some? ==> |order| == |TasksOf(repo.Rows(), found.value)| && forall t :: t in order <==> t in TasksOf(repo.Rows(), found.value)
    ensures found.Some? ==> order == Ids(found.value + 1, |call.plan.data|)
  {
    order := [];
    var id := repo.NewId();
    code.runs := code.runs + [call.ref];
    var ok := call.plan.Yields?;
    if ok {
      ok, order := BuildAndInsert(repo, id, NewJob(settings, call), call.plan.data);
    }
    if ok {
      return Some(id), order;
    }
    if ShouldPersistTriggerFailure(call.metadata) {
      PersistTriggerFailure(repo, settings, call, id);
    }
    return None, [];
  }

  /** The run to go on with and its tasks: the latest one of the reference, or a new one. None stands for an error. */
  method PrepareJobAndTasks(repo: Repository, code: JobCode, settings: JobConfig, call: Call) returns (found: Option<Id>, order: seq<Id>)
    requires repo.Valid() && Referential(repo.Rows())
    modifies repo, code
    ensures repo.Valid() && (found.Some? ==> found.value in repo.jobs)
    ensures found.Some? ==> |order| == |TasksOf(repo.Rows(), found.value)| && forall t :: t in order <==> t in TasksOf(repo.Rows(), found.value)
    ensures Taken(old(repo.Rows()), call.ref) ==>
      found.Some? && IsLatestByRef(old(repo.Rows()), call.ref, found) && repo.Rows() == old(repo.Rows()) && code.runs == old(code.runs)
    ensures !Taken(old(repo.Rows()), call.ref) ==>
      && (found.Some? <==> Buildable(call.plan)) && (found.Some? ==> found.value == old(repo.nextId))
      && repo.Rows() == PreparedDb(settings, old(repo.Rows()), call, old(repo.nextId)) && code.runs == old(code.runs) + [call.ref]
      && (found.Some? ==> order == Ids(found.value + 1, |call.plan.data|))
  {
    order := [];
    var existing := repo.FindJobByReference(call.ref);
    if existing.Some? {
      order := repo.FindTasksByJobID(existing.value);
      return existing, order;
    }
    found, order := CreateRun(repo, code, settings, call);
  }

  /** How a trigger that finds or creates a run goes on from there, publishing its tasks in some order. */
  ghost predicate FlowsOn(settings: JobConfig, db: Db, j: Id, order: seq<Id>, route: Route, sent: map<nat, Partition>,
                          next: Db, now: map<nat, Partition>, ok: bool, report: Status, finalised: Option<Id>)
  {
    && j in db.jobs && |order| == |TasksOf(db, j)| && (forall t :: t in order <==> t in TasksOf(db, j))
    && next == FlowDb(db, j, settings.cancelPrevious, Publishable(db, j, route)) && now == FlowTopics(db, j, order, route, sent)
    && (ok <==> !FlowFails(db, j, Publishable(db, j, route))) && report == Reported(db, j, Publishable(db, j, route))
    && finalised == FlowFinalises(db, j, Publishable(db, j, route))
  }

  /** A trigger whose reference has a row goes on with the latest one. */
  ghost predicate FlowsOnFound(settings: JobConfig, db: Db, call: Call, sent: map<nat, Partition>,
                               next: Db, now: map<nat, Partition>, ok: bool, report: Status, finalised: Option<Id>, j: Id, order: seq<Id>)
  {
    IsLatestByRef(db, call.ref, Some(j)) && FlowsOn(settings, db, j, order, call.route, sent, next, now, ok, report, finalised)
  }

  /** What one call of executeJob does, from tables and topics to tables and topics: `ran` says whether the job executor was
      called, `finalised` names the run finalised for having no tasks. */
  ghost predicate Triggered(cfg: Config, db: Db, call: Call, id: Id, sent: map<nat, Partition>, next: Db, now: map<nat, Partition>,
                            ran: bool, ok: bool, report: Status, finalised: Option<Id>)
  {
    if call.name !in cfg then next == db && now == sent && !ran && !ok && finalised == None
    else if Taken(db, call.ref) then
      !ran && exists j, order :: FlowsOnFound(cfg[call.name], db, call, sent, next, now, ok, report, finalised, j, order)
    else
      ran && var made := PreparedDb(cfg[call.name], db, call, id);
        if Buildable(call.plan)
        then FlowsOn(cfg[call.name], made, id, Ids(id + 1, |call.plan.data|), call.route, sent, next, now, ok, report, finalised)
        else next == made && now == sent && !ok && report == Failed && finalised == None
  }

  /** The trigger goes on with its run, and calls its own hook. */
  method GoOn(repo: Repository, broker: Broker, hooks: HookLog, ownHooks: HookLog, registered: set<string>, settings: JobConfig, call: Call, j: Id, order: seq<Id>)
    returns (ok: bool, ghost report: Status, ghost finalised: Option<Id>)
    requires repo.Valid() && j in repo.jobs && RoutesTo(broker.partitions, call.route) && hooks != ownHooks
    requires |order| == |TasksOf(repo.Rows(), j)| && forall t :: t in order <==> t in TasksOf(repo.Rows(), j)
    modifies repo`jobs, repo`tasks, broker`partitions, hooks, ownHooks
    ensures repo.Valid()
    ensures FlowsOn(settings, old(repo.Rows()), j, order, call.route, old(broker.partitions), repo.Rows(), broker.partitions, ok, report, finalised)
    ensures ownHooks.finished == old(ownHooks.finished) + [HookCall(call.name, call.ref, report)]
    ensures hooks.finished == old(hooks.finished) + EmptyHook(repo.Rows(), registered, finalised)
  {
    ghost var made := repo.Rows();
    var status := repo.jobs[j].status;
    ok := ExecuteJobFlow(repo, broker, hooks, registered, settings, j, order, call.route);
    var shown := if !ok then Failed else if IsLive(status) then Running else status;
    ownHooks.finished := ownHooks.finished + [HookCall(call.name, call.ref, shown)];
    report := shown;
    finalised := FlowFinalises(made, j, Publishable(made, j, call.route));
  }

  /** One trigger, with the hook call it makes itself. The finaliser's hook calls are counted apart. */
  method ExecuteJob(repo: Repository, broker: Broker, hooks: HookLog, ownHooks: HookLog, code: JobCode, cfg: Config, call: Call)
    returns (ok: bool, ghost report: Status, ghost finalised: Option<Id>)
    requires repo.Valid() && Referential(repo.Rows()) && RoutesTo(broker.partitions, call.route) && hooks != ownHooks
    modifies repo, broker`partitions, hooks, ownHooks, code
    ensures repo.Valid()
    ensures Triggered(cfg, old(repo.Rows()), call, old(repo.nextId), old(broker.partitions), repo.Rows(), broker.partitions,
                      code.runs != old(code.runs), ok, report, finalised)
    ensures code.runs == old(code.runs) || code.runs == old(code.runs) + [call.ref]
    ensures ownHooks.finished == old(ownHooks.finished) + if call.name in cfg then [HookCall(call.name, call.ref, report)] else []
    ensures hooks.finished == old(hooks.finished) + EmptyHook(repo.Rows(), cfg.Keys, finalised)
  {
    finalised := None;
    if call.name !in cfg {
      return false, Failed, finalised;
    }
    ghost var was, sent := repo.Rows(), broker.partitions;
    var found, order := PrepareJobAndTasks(repo, code, cfg[call.name], call);
    if found.None? {
      ownHooks.finished := ownHooks.finished + [HookCall(call.name, call.ref, Failed)];
      return false, Failed, finalised;
    }
    ok, report, finalised := GoOn(repo, broker, hooks, ownHooks, cfg.Keys, cfg[call.name], call, found.value, order);
    assert Taken(was, call.ref) ==>
      FlowsOnFound(cfg[call.name], was, call, sent, repo.Rows(), broker.partitions, ok, report, finalised, found.value, order);
  }

  lemma FlowKeepsRow(db: Db, j: Id, cancelPrevious: bool, published: bool, ref: string)
    requires HasRef(db, j, ref)
    ensures HasRef(FlowDb(db, j, cancelPrevious, published), j, ref)
  {
  }

  /** A trigger that succeeds leaves a row of its reference. */
  lemma SuccessLeavesRow(cfg: Config, db: Db, call: Call, id: Id, sent: map<nat, Partition>, next: Db, now: map<nat, Partition>, ran: bool, report: Status, finalised: Option<Id>)
    requires Triggered(cfg, db, call, id, sent, next, now, ran, true, report, finalised)
    ensures exists j :: HasRef(next, j, call.ref)
  {
    if Taken(db, call.ref) {
      var j, order :| FlowsOnFound(cfg[call.name], db, call, sent, next, now, true, report, finalised, j, order);
      FlowKeepsRow(db, j, cfg[call.name].cancelPrevious, Publishable(db, j, call.route), call.ref);
    } else {
      var made := PreparedDb(cfg[call.name], db, call, id);
      assert HasRef(made, id, call.ref);
      FlowKeepsRow(made, id, cfg[call.name].cancelPrevious, Publishable(made, id, call.route), call.ref);
    }
  }

  predicate IsTriggerFailureJob(job: Job) {
    job.triggerFailure
  }

  datatype RetryTriggerResult = NoSuchJob | NotATriggerFailure | NotOver | TriggerFailedAgain | Rerun(job: Id)

  /** The call a retried trigger makes; its metadata names the original and says nothing of further attempts. */
  function RetryCall(original: Job, call: Call): Call {
    call.(name := original.name,
          metadata := if original.ref.Some? then map["retry_of_job_id" := OtherValue, "retry_of_ref_id" := OtherValue]
                      else map["retry_of_job_id" := OtherValue])
  }

  /** Triggers the job of a recorded failure again, under a reference of its own. */
  method RetryTriggerJob(repo: Repository, broker: Broker, hooks: HookLog, ownHooks: HookLog, code: JobCode, cfg: Config, j: Id, call: Call)
    returns (result: RetryTriggerResult, ghost ok: bool, ghost report: Status, ghost finalised: Option<Id>)
    requires repo.Valid() && Referential(repo.Rows()) && RoutesTo(broker.partitions, call.route) && hooks != ownHooks
    modifies repo, broker`partitions, hooks, ownHooks, code
    ensures repo.Valid()
    ensures result.NoSuchJob? <==> j !in old(repo.jobs)
    ensures result.NotATriggerFailure? <==> j in old(repo.jobs) && !IsTriggerFailureJob(old(repo.jobs)[j])
    ensures result.NotOver? <==> j in old(repo.jobs) && IsTriggerFailureJob(old(repo.jobs)[j]) && IsLive(old(repo.jobs)[j].status)
    ensures result.NoSuchJob? || result.NotATriggerFailure? || result.NotOver? ==> repo.Rows() == old(repo.Rows()) && code.runs == old(code.runs)
    ensures result.TriggerFailedAgain? || result.Rerun? ==>
      Triggered(cfg, old(repo.Rows()), RetryCall(old(repo.jobs)[j], call), old(repo.nextId), old(broker.partitions), repo.Rows(), broker.partitions,
                code.runs != old(code.runs), ok, report, finalised)
    ensures result.Rerun? ==> ok && IsLatestByRef(repo.Rows(), call.ref, Some(result.job))
    // written out: the refusals, the new call, whether it succeeds, and its hook
    ensures result.NotATriggerFailure? <==> j in old(repo.jobs) && !old(repo.jobs)[j].triggerFailure
    ensures result.NotOver? <==> j in old(repo.jobs) && old(repo.jobs)[j].triggerFailure && old(repo.jobs)[j].status in {Pending, Running}
    ensures result.TriggerFailedAgain? ==> !ok
    ensures result.TriggerFailedAgain? || result.Rerun? ==>
      var again := RetryCall(old(repo.jobs)[j], call);
      && again.name == old(repo.jobs)[j].name && again.ref == call.ref && again.enabled == call.enabled && again.plan == call.plan
      && again.now == call.now && again.route == call.route && "asynq_max_retry" !in again.metadata && "trigger_failure" !in again.metadata
      && (code.runs == old(code.runs) || code.runs == old(code.runs) + [call.ref])
      && ownHooks.finished == old(ownHooks.finished) + (if again.name in cfg then [HookCall(again.name, call.ref, report)] else [])
      && hooks.finished == old(hooks.finished) + EmptyHook(repo.Rows(), cfg.Keys, finalised)
    ensures result.NoSuchJob? || result.NotATriggerFailure? || result.NotOver? ==>
      broker.partitions == old(broker.partitions) && ownHooks.finished == old(ownHooks.finished) && hooks.finished == old(hooks.finished)
  {
    ok, report, finalised := false, Failed, None;
    var found := repo.FindJobByID(j);
    if found.None? {
      return NoSuchJob, ok, report, finalised;
    }
    if !IsTriggerFailureJob(found.value) {
      return NotATriggerFailure, ok, report, finalised;
    }
    if IsLive(found.value.status) {
      return NotOver, ok, report, finalised;
    }
    ghost var was, id, sent, runs := repo.Rows(), repo.nextId, broker.partitions, code.runs;
    var done;
    done, report, finalised := ExecuteJob(repo, broker, hooks, ownHooks, code, cfg, RetryCall(found.value, call));
    ok := done;
    ghost var ran := code.runs != runs;
    if !done {
      return TriggerFailedAgain, ok, report, finalised;
    }
    SuccessLeavesRow(cfg, was, RetryCall(found.value, call), id, sent, repo.Rows(), broker.partitions, ran, report, finalised);
    var again := repo.FindJobByReference(call.ref);
    if again.None? {
      return TriggerFailedAgain, ok, report, finalised;
    }
    result := Rerun(again.value);
  }
}
