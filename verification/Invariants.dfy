/** What every reachable state of the engine satisfies, and that every step keeps it. */
module Invariants {
  import opened Options
  import opened Domain
  import opened Store
  import opened Finalizer
  import opened Runs
  import opened Protocol

  /** Rows: every task references its job through (job_id, created_at), every job is configured, and
      attempts stay within bounds. */
  ghost predicate RowsOk(cfg: Config, db: Db) {
    && (forall j :: j in db.jobs ==> db.jobs[j].name in cfg && (IsLive(db.jobs[j].status) || IsTerminalJob(db.jobs[j].status)))
    && (forall t :: t in db.tasks ==>
          && db.tasks[t].jobId in db.jobs && db.jobs[db.tasks[t].jobId].createdAt == db.tasks[t].createdAt
          && InBounds(db.tasks[t])
          && (JobLive(db, db.tasks[t].jobId) ==> InUse(db.tasks[t].status)))
  }

  function StageStatus(stage: Stage): Status {
    match stage
    case Starting => Running
    case Started => Running
    case Executing => Running
    case Failing => Failed
    case Requeueing => Pending
    case Exhausting => MaxRetriesExhausted
  }

  /** The task in memory matches its row, and so does its status as long as the job is live. */
  predicate InStep(row: Task, phase: Phase, live: bool)
    requires phase.Active?
  {
    && phase.mem.jobId == row.jobId && phase.mem.maxRetries == row.maxRetries && phase.mem.attempt == row.attempt
    && phase.mem.status == StageStatus(phase.stage)
    && (live ==> row.status == StageStatus(phase.stage) || (phase.stage.Starting? && row.status == Pending))
  }

  ghost predicate ActiveOk(db: Db, phase: Phase)
    requires phase.Active?
  {
    phase.task in db.tasks && InStep(db.tasks[phase.task], phase, JobLive(db, db.tasks[phase.task].jobId))
  }

  /** The statuses tasks of live jobs have. */
  predicate InUse(status: Status) {
    IsLive(status) || IsFinished(status)
  }

  predicate InBounds(task: Task) {
    1 <= task.attempt <= Max(1, task.maxRetries)
  }

  /** The job is over, with this status. */
  predicate SkipsAs(db: Db, t: Id, status: Status) {
    t in db.tasks && db.tasks[t].jobId in db.jobs && db.jobs[db.tasks[t].jobId].status == status && IsTerminalJob(status)
  }

  ghost predicate LogOk(db: Db, log: Log) {
    && log.committed <= log.pos <= |log.messages|
    && (forall k :: 0 <= k < |log.messages| ==> log.messages[k] in db.tasks)
    && (!log.phase.Idle? ==> log.pos < |log.messages| && log.phase.task == log.messages[log.pos])
    && (log.phase.Active? ==> ActiveOk(db, log.phase))
    && (log.phase.Skipping? ==> SkipsAs(db, log.phase.task, log.phase.status))
  }

  ghost predicate LogsOk(w: World) {
    forall l :: l in w.logs ==> LogOk(w.db, w.logs[l])
  }

  ghost predicate NoOverlap(w: World) {
    forall l, m, t :: l in w.logs && m in w.logs && l != m && IsBusy(w.logs[l].phase, t) ==> !IsBusy(w.logs[m].phase, t)
  }

  ghost predicate StarterOk(db: Db, s: Starter) {
    && s.job in db.jobs && db.jobs[s.job].status == Pending
    && forall i :: 0 <= i < |s.todo| ==> s.todo[i] in db.tasks && db.tasks[s.todo[i]].jobId == s.job
  }

  ghost predicate StartersOk(w: World) {
    && (forall p :: p in w.starters ==> StarterOk(w.db, w.starters[p]))
    && (forall p, q :: p in w.starters && q in w.starters && p != q ==> w.starters[p].job != w.starters[q].job)
  }

  /** A finaliser only ever holds an outcome the resolver can give. */
  ghost predicate FinalisersOk(w: World) {
    forall f :: f in w.finalisers && !w.finalisers[f].Seen? ==> w.finalisers[f].status in {Completed, Failed, PartialFailed}
  }

  ghost predicate Inv(cfg: Config, w: World) {
    RowsOk(cfg, w.db) && LogsOk(w) && NoOverlap(w) && StartersOk(w) && FinalisersOk(w)
  }

  // ---------------------------------------------------------------- what a step may do to the tables

  /** The task a step delivers, if it writes to its row. */
  function Touched(w: World, e: Event): set<Id> {
    if e.Work? then TaskAt(w, e.l) else {}
  }

  function TaskAt(w: World, l: nat): set<Id> {
    if l in w.logs && w.logs[l].phase.Active? then {w.logs[l].phase.task} else {}
  }

  predicate SameTask(task: Task, next: Task) {
    next == task.(status := next.status, attempt := next.attempt, result := next.result)
  }

  /** The task has the status its job ended with. */
  predicate EndsWithJob(db: Db, t: Id) {
    t in db.tasks && SkipsAs(db, t, db.tasks[t].status)
  }

  /** Rows are never deleted and keep their identity; job statuses move along the job table; a task that is not
      delivered keeps its attempt, can only be overwritten with the status its job ended with, and keeps its whole row as
      long as its job stays live; new tasks are first attempts and belong to new or PENDING jobs. */
  ghost predicate Changes(db: Db, next: Db, touched: set<Id>) {
    && (forall j :: j in db.jobs ==>
          && j in next.jobs && next.jobs[j] == db.jobs[j].(status := next.jobs[j].status)
          && (next.jobs[j] != db.jobs[j] ==> JobEdge(db.jobs[j].status, next.jobs[j].status)))
    && (forall t :: t in db.tasks ==>
          && t in next.tasks && SameTask(db.tasks[t], next.tasks[t])
          && (t !in touched ==> next.tasks[t].attempt == db.tasks[t].attempt
                                && (next.tasks[t].status == db.tasks[t].status || EndsWithJob(next, t))
                                && (JobLive(next, db.tasks[t].jobId) ==> next.tasks[t] == db.tasks[t])))
    && (forall t :: t in next.tasks && t !in db.tasks ==>
          next.tasks[t].attempt == 1 && next.tasks[t].status != MaxRetriesExhausted && (next.tasks[t].jobId !in db.jobs || db.jobs[next.tasks[t].jobId].status == Pending))
  }

  lemma EdgeBy(action: JobAction, from: Status, to: Status)
    requires JobTarget(action, from) == Some(to)
    ensures JobEdge(from, to)
  {
  }

  lemma NothingChanges(db: Db, touched: set<Id>)
    ensures Changes(db, db, touched)
  {
  }

  lemma WriteChanges(db: Db, t: Id, task: Task)
    requires t in db.tasks && SameTask(db.tasks[t], task)
    ensures Changes(db, WithTask(db, t, task), {t})
  {
  }

  lemma OverwriteChanges(db: Db, ts: set<Id>, status: Status)
    requires IsTerminalJob(status) && forall t :: t in ts && t in db.tasks ==> SkipsAs(db, t, status)
    ensures Changes(db, SetTaskStatuses(db, ts, status), {})
  {
  }

  /** A step keeps memory and row in step, and the attempt within bounds. */
  lemma WorkRowOk(row: Task, phase: Phase, work: WorkStep, live: bool)
    requires CanWork(phase, work) && InStep(row, phase, live) && InBounds(row)
    ensures var next, after := WorkedRow(row, phase, work), NextPhase(phase, work);
      SameTask(row, next) && InBounds(next) && (InUse(row.status) ==> InUse(next.status)) && (after.Active? ==> InStep(next, after, live) && after.task == phase.task)
  {
  }

  lemma WorkRowsOk(cfg: Config, db: Db, t: Id, task: Task)
    requires RowsOk(cfg, db) && t in db.tasks && SameTask(db.tasks[t], task) && InBounds(task) && (InUse(db.tasks[t].status) ==> InUse(task.status))
    ensures RowsOk(cfg, WithTask(db, t, task))
  {
  }

  lemma WorkOk(cfg: Config, db: Db, log: Log, work: WorkStep)
    requires RowsOk(cfg, db) && LogOk(db, log) && CanWork(log.phase, work)
    ensures var next := WorkedDb(db, log.phase, work);
      && Changes(db, next, {log.phase.task}) && next.jobs == db.jobs && next.tasks.Keys == db.tasks.Keys
      && RowsOk(cfg, next) && LogOk(next, log.(phase := NextPhase(log.phase, work)))
  {
    var t := log.phase.task;
    WorkRowOk(db.tasks[t], log.phase, work, JobLive(db, db.tasks[t].jobId));
    WorkRowsOk(cfg, db, t, WorkedRow(db.tasks[t], log.phase, work));
    WriteChanges(db, t, WorkedRow(db.tasks[t], log.phase, work));
  }

  lemma SkipOk(cfg: Config, db: Db, log: Log)
    requires RowsOk(cfg, db) && LogOk(db, log) && log.phase.Skipping?
    ensures var next := SetTaskStatuses(db, {log.phase.task}, log.phase.status);
      && Changes(db, next, {}) && next.jobs == db.jobs && next.tasks.Keys == db.tasks.Keys
      && RowsOk(cfg, next) && LogOk(next, log.(phase := Done(log.phase.task)))
  {
    OverwriteChanges(db, {log.phase.task}, log.phase.status);
  }

  lemma CancelChanges(db: Db, j: Id)
    requires JobLive(db, j)
    ensures Changes(db, Terminate(db, j), {})
  {
    EdgeBy(CancelJob, db.jobs[j].status, Cancelled);
  }

  lemma ClearChanges(db: Db, name: string, j: Id)
    requires forall t :: t in db.tasks ==> db.tasks[t].jobId in db.jobs
    ensures Changes(db, CancelPrevious(db, name, j), {})
  {
    EdgeBy(CancelJob, Pending, Cancelled);
    EdgeBy(CancelJob, Running, Cancelled);
  }

  lemma JobStatusChanges(db: Db, j: Id, action: JobAction, status: Status)
    requires j in db.jobs && JobTarget(action, db.jobs[j].status) == Some(status)
    ensures Changes(db, SetJobStatus(db, j, status), {})
  {
    EdgeBy(action, db.jobs[j].status, status);
  }

  lemma ReadyToWrite(db: Db, j: Id, status: Status)
    requires JobRunning(db, j) && status in {Completed, Failed, PartialFailed}
    ensures Changes(db, SetJobStatus(db, j, status), {})
  {
    JobStatusChanges(db, j, JobStatusToAction(status).value, status);
  }

  // ---------------------------------------------------------------- frames

  lemma LiveBefore(db: Db, next: Db, touched: set<Id>, j: Id)
    requires Changes(db, next, touched) && j in db.jobs
    ensures JobLive(next, j) ==> JobLive(db, j)
    ensures JobRunning(db, j) && JobLive(next, j) ==> JobRunning(next, j)
  {
  }

  lemma UntouchedRow(db: Db, next: Db, touched: set<Id>, t: Id)
    requires Changes(db, next, touched) && t in db.tasks && t !in touched
    ensures t in next.tasks && next.tasks[t].attempt == db.tasks[t].attempt && SameTask(db.tasks[t], next.tasks[t])
    ensures next.tasks[t].status == db.tasks[t].status || EndsWithJob(next, t)
    ensures JobLive(next, db.tasks[t].jobId) ==> next.tasks[t] == db.tasks[t]
  {
  }

  lemma LogFrame(cfg: Config, db: Db, next: Db, touched: set<Id>, log: Log)
    requires RowsOk(cfg, db) && LogOk(db, log) && Changes(db, next, touched)
    requires log.phase.Active? ==> log.phase.task !in touched
    ensures LogOk(next, log)
  {
    if log.phase.Active? || log.phase.Skipping? {
      LiveBefore(db, next, touched, JobOf(db, log.phase.task));
    }
  }

  lemma RowsFrame(cfg: Config, db: Db, next: Db)
    requires RowsOk(cfg, db) && Changes(db, next, {}) && next.jobs.Keys == db.jobs.Keys && next.tasks.Keys == db.tasks.Keys
    ensures RowsOk(cfg, next)
  {
    forall j | j in next.jobs
      ensures next.jobs[j].name in cfg && (IsLive(next.jobs[j].status) || IsTerminalJob(next.jobs[j].status))
    {
      JobFrame(db, next, j);
    }
    forall t | t in next.tasks
      ensures next.tasks[t].jobId in next.jobs && next.jobs[next.tasks[t].jobId].createdAt == next.tasks[t].createdAt
      ensures InBounds(next.tasks[t]) && (JobLive(next, next.tasks[t].jobId) ==> InUse(next.tasks[t].status))
    {
      UntouchedRow(db, next, {}, t);
      JobFrame(db, next, db.tasks[t].jobId);
      LiveBefore(db, next, {}, db.tasks[t].jobId);
    }
  }

  lemma JobFrame(db: Db, next: Db, j: Id)
    requires Changes(db, next, {}) && j in db.jobs
    ensures next.jobs[j].name == db.jobs[j].name && next.jobs[j].createdAt == db.jobs[j].createdAt
    ensures next.jobs[j].status == db.jobs[j].status || next.jobs[j].status == Running || IsTerminalJob(next.jobs[j].status)
  {
  }

  lemma StarterFrame(db: Db, next: Db, touched: set<Id>, s: Starter)
    requires StarterOk(db, s) && Changes(db, next, touched) && next.jobs[s.job].status == Pending
    ensures StarterOk(next, s)
  {
  }

  ghost predicate Fewer(phase: Phase, next: Phase) {
    forall t :: IsBusy(next, t) ==> IsBusy(phase, t)
  }

  lemma OtherConsumersFrame(cfg: Config, w: World, l: nat, db: Db, touched: set<Id>)
    requires Inv(cfg, w) && l in w.logs && touched <= TaskAt(w, l) && Changes(w.db, db, touched) && db.jobs == w.db.jobs
    ensures forall m :: m in w.logs && m != l ==> LogOk(db, w.logs[m])
    ensures forall p :: p in w.starters ==> StarterOk(db, w.starters[p])
  {
    forall m | m in w.logs && m != l
      ensures LogOk(db, w.logs[m])
    {
      if w.logs[m].phase.Active? && w.logs[l].phase.Active? {
        assert IsBusy(w.logs[l].phase, w.logs[l].phase.task);
      }
      LogFrame(cfg, w.db, db, touched, w.logs[m]);
    }
    forall p | p in w.starters
      ensures StarterOk(db, w.starters[p])
    {
      StarterFrame(w.db, db, touched, w.starters[p]);
    }
  }

  /** A step of one consumer that writes at most to the row of the task it is busy with. */
  lemma ConsumerFrame(cfg: Config, w: World, l: nat, db: Db, log: Log, touched: set<Id>)
    requires Inv(cfg, w) && l in w.logs && touched <= TaskAt(w, l)
    requires Changes(w.db, db, touched) && db.jobs == w.db.jobs && RowsOk(cfg, db)
    requires LogOk(db, log) && Fewer(w.logs[l].phase, log.phase)
    ensures Inv(cfg, w.(db := db, logs := w.logs[l := log]))
  {
    OtherConsumersFrame(cfg, w, l, db, touched);
  }

  /** A step that changes job statuses, or the tasks of jobs no longer live, and no consumer. */
  lemma TablesFrame(cfg: Config, w: World, next: World)
    requires Inv(cfg, w) && next.logs == w.logs && FinalisersOk(next)
    requires Changes(w.db, next.db, {}) && next.db.jobs.Keys == w.db.jobs.Keys && next.db.tasks.Keys == w.db.tasks.Keys
    requires next.starters.Keys <= w.starters.Keys
    requires forall p :: p in next.starters ==> next.starters[p].job == w.starters[p].job && next.starters[p].todo == w.starters[p].todo
                                                && next.db.jobs[w.starters[p].job].status == Pending
    ensures Inv(cfg, next)
  {
    RowsFrame(cfg, w.db, next.db);
    forall l | l in next.logs
      ensures LogOk(next.db, next.logs[l])
    {
      LogFrame(cfg, w.db, next.db, {}, w.logs[l]);
    }
    forall p | p in next.starters
      ensures StarterOk(next.db, next.starters[p])
    {
      StarterFrame(w.db, next.db, {}, w.starters[p]);
    }
  }

  // ---------------------------------------------------------------- each step keeps the invariant

  lemma WorkKeeps(cfg: Config, w: World, l: nat, work: WorkStep)
    requires Inv(cfg, w) && l in w.logs && CanWork(w.logs[l].phase, work)
    ensures Inv(cfg, Worked(w, l, work))
    ensures Changes(w.db, Worked(w, l, work).db, TaskAt(w, l))
  {
    var log := w.logs[l];
    WorkOk(cfg, w.db, log, work);
    ConsumerFrame(cfg, w, l, WorkedDb(w.db, log.phase, work), log.(phase := NextPhase(log.phase, work)), TaskAt(w, l));
  }

  lemma LoadKeeps(cfg: Config, w: World, l: nat)
    requires Inv(cfg, w) && CanLoad(w, l) && NobodyBusy(w, w.logs[l].messages[w.logs[l].pos])
    ensures Inv(cfg, Loaded(cfg, w, l))
  {
    assert LogOk(w.db, w.logs[l]);
  }

  lemma SkipKeeps(cfg: Config, w: World, l: nat)
    requires Inv(cfg, w) && InPhase(w, l, true)
    ensures Inv(cfg, Skipped(w, l))
    ensures Changes(w.db, Skipped(w, l).db, {})
  {
    SkipOk(cfg, w.db, w.logs[l]);
    ConsumerFrame(cfg, w, l, Skipped(w, l).db, Skipped(w, l).logs[l], {});
  }

  lemma PhaseKeeps(cfg: Config, w: World, l: nat, log: Log)
    requires Inv(cfg, w) && l in w.logs
    requires LogOk(w.db, log) && Fewer(w.logs[l].phase, log.phase)
    ensures Inv(cfg, w.(logs := w.logs[l := log]))
  {
  }

  lemma AppendKeeps(cfg: Config, w: World, l: nat, t: Id)
    requires Inv(cfg, w) && l in w.logs && t in w.db.tasks
    ensures Inv(cfg, Append(w, l, t))
  {
    assert LogOk(w.db, w.logs[l]);
    PhaseKeeps(cfg, w, l, w.logs[l].(messages := w.logs[l].messages + [t]));
  }

  lemma RetryPublishKeeps(cfg: Config, w: World, l: nat, target: Option<nat>)
    requires Inv(cfg, w) && At(w, l, Requeueing) && (target.Some? ==> target.value in w.logs)
    ensures Inv(cfg, RetryPublished(w, l, target))
  {
    assert LogOk(w.db, w.logs[l]);
    var t := w.logs[l].phase.task;
    PhaseKeeps(cfg, w, l, w.logs[l].(phase := Done(t)));
    if target.Some? {
      AppendKeeps(cfg, WithPhase(w, l, Done(t)), target.value, t);
    }
  }

  lemma DlqPublishKeeps(cfg: Config, w: World, l: nat, ok: bool)
    requires Inv(cfg, w) && At(w, l, Exhausting)
    ensures Inv(cfg, DlqPublished(w, l, ok))
  {
    assert LogOk(w.db, w.logs[l]);
    PhaseKeeps(cfg, w, l, w.logs[l].(phase := Done(w.logs[l].phase.task)));
  }

  lemma AdvanceKeeps(cfg: Config, w: World, l: nat, commit: bool)
    requires Inv(cfg, w) && CanAdvance(w, l, commit)
    ensures Inv(cfg, Advanced(w, l, commit))
  {
    assert LogOk(w.db, w.logs[l]);
    PhaseKeeps(cfg, w, l, Advanced(w, l, commit).logs[l]);
  }

  lemma CrashKeeps(cfg: Config, w: World, l: nat)
    requires Inv(cfg, w) && l in w.logs
    ensures Inv(cfg, CrashedConsumer(w, l))
  {
    assert LogOk(w.db, w.logs[l]);
    PhaseKeeps(cfg, w, l, w.logs[l].(pos := w.logs[l].committed, phase := Idle));
  }

  /** New rows leave everything about the old ones as it was. */
  lemma InsertOk(cfg: Config, db: Db, next: Db)
    requires RowsOk(cfg, db)
    requires db.jobs.Keys <= next.jobs.Keys && forall j :: j in db.jobs ==> next.jobs[j] == db.jobs[j]
    requires db.tasks.Keys <= next.tasks.Keys && forall t :: t in db.tasks ==> next.tasks[t] == db.tasks[t]
    requires forall j :: j in next.jobs && j !in db.jobs ==>
      next.jobs[j].name in cfg && (IsLive(next.jobs[j].status) || IsTerminalJob(next.jobs[j].status))
    requires forall t :: t in next.tasks && t !in db.tasks ==>
      && next.tasks[t].jobId in next.jobs && next.jobs[next.tasks[t].jobId].createdAt == next.tasks[t].createdAt
      && next.tasks[t].attempt == 1 && next.tasks[t].status != MaxRetriesExhausted
      && (JobLive(next, next.tasks[t].jobId) ==> InUse(next.tasks[t].status))
      && (next.tasks[t].jobId !in db.jobs || db.jobs[next.tasks[t].jobId].status == Pending)
    ensures RowsOk(cfg, next) && Changes(db, next, {})
  {
  }

  /** Inserting rows and taking on a starter that works on a PENDING job nobody else works on. */
  lemma InsertKeeps(cfg: Config, w: World, next: World, p: nat, s: Option<Starter>)
    requires Inv(cfg, w) && next.logs == w.logs && next.finalisers == w.finalisers
    requires RowsOk(cfg, next.db) && Changes(w.db, next.db, {}) && forall j :: j in w.db.jobs ==> next.db.jobs[j] == w.db.jobs[j]
    requires next.starters == if s.Some? then w.starters[p := s.value] else w.starters
    requires s.Some? ==> StarterOk(next.db, s.value) && forall q :: q in w.starters && q != p ==> w.starters[q].job != s.value.job
    ensures Inv(cfg, next)
  {
    forall l | l in next.logs
      ensures LogOk(next.db, next.logs[l])
    {
      LogFrame(cfg, w.db, next.db, {}, w.logs[l]);
    }
    forall q | q in w.starters
      ensures StarterOk(next.db, w.starters[q])
    {
      StarterFrame(w.db, next.db, {}, w.starters[q]);
    }
  }

  lemma ListedAreRows(order: seq<Id>, ids: set<Id>)
    requires Lists(order, ids)
    ensures forall i :: 0 <= i < |order| ==> order[i] in ids
  {
    forall i | 0 <= i < |order|
      ensures order[i] in ids
    {
      assert order[i] in ToSet(order);
    }
  }

  lemma OpenInserts(cfg: Config, w: World, p: nat, j: Id, job: Job, rows: map<Id, Task>, order: seq<Id>)
    requires RowsOk(cfg, w.db) && CanOpen(cfg, w, p, j, job, rows, order)
    ensures RowsOk(cfg, InsertJob(w.db, j, job, rows)) && Changes(w.db, InsertJob(w.db, j, job, rows), {})
  {
    InsertOk(cfg, w.db, InsertJob(w.db, j, job, rows));
  }

  lemma OpenStarterOk(cfg: Config, w: World, p: nat, j: Id, job: Job, rows: map<Id, Task>, order: seq<Id>)
    requires CanOpen(cfg, w, p, j, job, rows, order)
    ensures StarterOk(InsertJob(w.db, j, job, rows), Opened(cfg, w, p, j, job, rows, order).starters[p])
    ensures Opened(cfg, w, p, j, job, rows, order).starters[p].job == j
  {
    ListedAreRows(order, rows.Keys);
  }

  lemma NobodyStartsANewJob(w: World, j: Id)
    requires StartersOk(w) && j !in w.db.jobs
    ensures NotStarting(w, j)
  {
    forall p | p in w.starters
      ensures w.starters[p].job != j
    {
      assert StarterOk(w.db, w.starters[p]);
    }
  }

  lemma OpenKeeps(cfg: Config, w: World, p: nat, j: Id, job: Job, rows: map<Id, Task>, order: seq<Id>)
    requires Inv(cfg, w) && CanOpen(cfg, w, p, j, job, rows, order)
    ensures Inv(cfg, Opened(cfg, w, p, j, job, rows, order))
    ensures Changes(w.db, Opened(cfg, w, p, j, job, rows, order).db, {})
  {
    var next := Opened(cfg, w, p, j, job, rows, order);
    OpenInserts(cfg, w, p, j, job, rows, order);
    OpenStarterOk(cfg, w, p, j, job, rows, order);
    NobodyStartsANewJob(w, j);
    InsertKeeps(cfg, w, next, p, Some(next.starters[p]));
  }

  lemma OpenSettledKeeps(cfg: Config, w: World, j: Id, job: Job, rows: map<Id, Task>)
    requires Inv(cfg, w) && CanOpenSettled(cfg, w, j, job, rows)
    ensures Inv(cfg, OpenedSettled(cfg, w, j, job, rows))
    ensures Changes(w.db, OpenedSettled(cfg, w, j, job, rows).db, {})
  {
    var next := OpenedSettled(cfg, w, j, job, rows);
    InsertOk(cfg, w.db, next.db);
    InsertKeeps(cfg, w, next, 0, None);
  }

  lemma AddRowsKeeps(cfg: Config, w: World, p: nat, rows: map<Id, Task>, order: seq<Id>)
    requires Inv(cfg, w) && CanAddRows(w, p, rows, order)
    ensures Inv(cfg, RowsAdded(w, p, rows, order))
    ensures Changes(w.db, RowsAdded(w, p, rows, order).db, {})
  {
    var next := RowsAdded(w, p, rows, order);
    assert StarterOk(w.db, w.starters[p]);
    InsertOk(cfg, w.db, next.db);
    ListedAreRows(order, rows.Keys);
    InsertKeeps(cfg, w, next, p, Some(next.starters[p]));
  }

  lemma ResumeKeeps(cfg: Config, w: World, p: nat, j: Id, order: seq<Id>, clear: bool)
    requires Inv(cfg, w) && CanResume(w, p, j, order) && NotStarting(w, j)
    ensures Inv(cfg, Resumed(w, p, j, order, clear))
  {
    ListedAreRows(order, TasksOf(w.db, j));
    NothingChanges(w.db, {});
    InsertKeeps(cfg, w, Resumed(w, p, j, order, clear), p, Some(Starter(j, order, clear)));
  }

  lemma PublishKeeps(cfg: Config, w: World, p: nat, into: nat)
    requires Inv(cfg, w) && CanPublish(w, p, into)
    ensures Inv(cfg, Published(w, p, into))
  {
    var s := w.starters[p];
    assert StarterOk(w.db, s);
    var w1 := w.(starters := w.starters[p := s.(todo := s.todo[1..])]);
    NothingChanges(w.db, {});
    InsertKeeps(cfg, w, w1, p, Some(s.(todo := s.todo[1..])));
    AppendKeeps(cfg, w1, into, s.todo[0]);
  }

  /** The starter's own job leaves PENDING; the other starters' jobs are other jobs. */
  lemma LeavePendingKeeps(cfg: Config, w: World, p: nat, action: JobAction, status: Status)
    requires Inv(cfg, w) && p in w.starters && JobTarget(action, Pending) == Some(status)
    ensures Inv(cfg, w.(db := SetJobStatus(w.db, w.starters[p].job, status), starters := w.starters - {p}))
    ensures Changes(w.db, SetJobStatus(w.db, w.starters[p].job, status), {})
  {
    assert StarterOk(w.db, w.starters[p]);
    JobStatusChanges(w.db, w.starters[p].job, action, status);
    TablesFrame(cfg, w, w.(db := SetJobStatus(w.db, w.starters[p].job, status), starters := w.starters - {p}));
  }

  /** A starter whose run is not cancelled keeps it PENDING. */
  lemma ClearSpares(w: World, p: nat, q: nat)
    requires CanClear(w, p) && ClearsNoStarter(w, p) && q in w.starters && StarterOk(w.db, w.starters[q])
    ensures Cleared(w, p).db.jobs[w.starters[q].job].status == Pending
  {
  }

  lemma ClearSparesAll(w: World, p: nat)
    requires StartersOk(w) && CanClear(w, p) && ClearsNoStarter(w, p)
    ensures forall q :: q in w.starters ==> w.starters[q].job in w.db.jobs && Cleared(w, p).db.jobs[w.starters[q].job].status == Pending
  {
    forall q | q in w.starters
      ensures w.starters[q].job in w.db.jobs && Cleared(w, p).db.jobs[w.starters[q].job].status == Pending
    {
      assert StarterOk(w.db, w.starters[q]);
      ClearSpares(w, p, q);
    }
  }

  lemma ClearChangesRows(cfg: Config, w: World, p: nat)
    requires Inv(cfg, w) && CanClear(w, p)
    ensures Changes(w.db, Cleared(w, p).db, {})
    ensures Cleared(w, p).db.jobs.Keys == w.db.jobs.Keys && Cleared(w, p).db.tasks.Keys == w.db.tasks.Keys
  {
    ClearChanges(w.db, w.db.jobs[w.starters[p].job].name, w.starters[p].job);
  }

  lemma ClearKeeps(cfg: Config, w: World, p: nat)
    requires Inv(cfg, w) && CanClear(w, p) && ClearsNoStarter(w, p)
    ensures Inv(cfg, Cleared(w, p))
    ensures Changes(w.db, Cleared(w, p).db, {})
  {
    ClearChangesRows(cfg, w, p);
    ClearSparesAll(w, p);
    TablesFrame(cfg, w, Cleared(w, p));
  }

  lemma CancelKeeps(cfg: Config, w: World, j: Id)
    requires Inv(cfg, w) && JobLive(w.db, j) && NotStarting(w, j)
    ensures Inv(cfg, w.(db := Terminate(w.db, j)))
    ensures Changes(w.db, Terminate(w.db, j), {})
  {
    CancelChanges(w.db, j);
    forall q | q in w.starters
      ensures Terminate(w.db, j).jobs[w.starters[q].job].status == Pending
    {
      assert StarterOk(w.db, w.starters[q]);
    }
    TablesFrame(cfg, w, w.(db := Terminate(w.db, j)));
  }

  lemma ResettleKeeps(cfg: Config, w: World, j: Id)
    requires Inv(cfg, w) && j in w.db.jobs && !IsLive(w.db.jobs[j].status)
    ensures Inv(cfg, Resettled(w, j))
    ensures Changes(w.db, Resettled(w, j).db, {})
  {
    OverwriteChanges(w.db, TasksOf(w.db, j), w.db.jobs[j].status);
    forall q | q in w.starters
      ensures w.db.jobs[w.starters[q].job].status == Pending
    {
      assert StarterOk(w.db, w.starters[q]);
    }
    TablesFrame(cfg, w, Resettled(w, j));
  }

  lemma SummaryKeeps(cfg: Config, w: World, f: nat)
    requires Inv(cfg, w) && f in w.finalisers
    ensures Inv(cfg, SummaryRead(w, f))
  {
  }

  lemma CasKeeps(cfg: Config, w: World, f: nat)
    requires Inv(cfg, w) && f in w.finalisers && w.finalisers[f].Resolved?
    ensures Inv(cfg, CasTried(w, f)) && Changes(w.db, CasTried(w, f).db, {})
  {
    NothingChanges(w.db, {});
    var fin := w.finalisers[f];
    if JobRunning(w.db, fin.job) {
      ReadyToWrite(w.db, fin.job, fin.status);
      forall q | q in w.starters
        ensures w.starters[q].job != fin.job && w.db.jobs[w.starters[q].job].status == Pending
      {
        assert StarterOk(w.db, w.starters[q]);
      }
      TablesFrame(cfg, w, CasTried(w, f));
    }
  }

  lemma ForgetKeeps(cfg: Config, w: World, next: World)
    requires Inv(cfg, w) && next.db == w.db && next.logs == w.logs
    requires next.starters.Keys <= w.starters.Keys && forall p :: p in next.starters ==> next.starters[p] == w.starters[p]
    requires forall f :: f in next.finalisers ==> next.finalisers[f].Seen? || (f in w.finalisers && next.finalisers[f] == w.finalisers[f])
    ensures Inv(cfg, next)
  {
  }

  /** A step keeps the invariant and changes the tables only as `Changes` allows. */
  ghost predicate Kept(cfg: Config, w: World, next: World, touched: set<Id>) {
    Inv(cfg, next) && Changes(w.db, next.db, touched)
  }

  predicate IsDelivery(e: Event) {
    e.Load? || e.Skip? || e.Work? || e.PublishRetry? || e.PublishDlq? || e.Next? || e.CrashConsumer?
  }

  predicate IsCreation(e: Event) {
    e.Open? || e.OpenSettled? || e.Resume? || e.AddRows? || e.Publish? || e.Republish?
  }

  predicate IsEnding(e: Event) {
    e.Resettle? || e.PublishFailed? || e.ClearPrevious? || e.Start? || e.CrashStarter? || e.Cancel?
  }

  lemma DeliveryKeeps(cfg: Config, w: World, e: Event)
    requires Inv(cfg, w) && CanStep(cfg, w, e) && IsDelivery(e)
    ensures Kept(cfg, w, Apply(cfg, w, e), Touched(w, e))
  {
    NothingChanges(w.db, Touched(w, e));
    match e
    case Load(l) => LoadKeeps(cfg, w, l);
    case Skip(l) => SkipKeeps(cfg, w, l);
    case Work(l, work) => WorkKeeps(cfg, w, l, work);
    case PublishRetry(l, target) => RetryPublishKeeps(cfg, w, l, target);
    case PublishDlq(l, ok) => DlqPublishKeeps(cfg, w, l, ok);
    case Next(l, commit) => AdvanceKeeps(cfg, w, l, commit);
    case CrashConsumer(l) => CrashKeeps(cfg, w, l);
  }

  lemma CreationKeeps(cfg: Config, w: World, e: Event)
    requires Inv(cfg, w) && CanStep(cfg, w, e) && IsCreation(e)
    ensures Kept(cfg, w, Apply(cfg, w, e), {})
  {
    NothingChanges(w.db, {});
    match e
    case Open(p, j, job, rows, order) => OpenKeeps(cfg, w, p, j, job, rows, order);
    case OpenSettled(j, job, rows, _) => OpenSettledKeeps(cfg, w, j, job, rows);
    case Resume(p, j, order, clear) => ResumeKeeps(cfg, w, p, j, order, clear);
    case AddRows(p, rows, order, _, _) => AddRowsKeeps(cfg, w, p, rows, order);
    case Publish(p, into) => PublishKeeps(cfg, w, p, into);
    case Republish(t, into) => AppendKeeps(cfg, w, into, t);
  }

  lemma StartingKeeps(cfg: Config, w: World, e: Event)
    requires Inv(cfg, w) && CanStep(cfg, w, e) && (e.PublishFailed? || e.Start? || e.CrashStarter?)
    ensures Kept(cfg, w, Apply(cfg, w, e), {})
  {
    match e
    case PublishFailed(p) => LeavePendingKeeps(cfg, w, p, FailJob, Failed);
    case Start(p) => LeavePendingKeeps(cfg, w, p, StartJob, Running);
    case CrashStarter(p) =>
      NothingChanges(w.db, {});
      ForgetKeeps(cfg, w, Apply(cfg, w, e));
  }

  lemma EndingKeeps(cfg: Config, w: World, e: Event)
    requires Inv(cfg, w) && CanStep(cfg, w, e) && (e.Resettle? || e.ClearPrevious? || e.Cancel?)
    ensures Kept(cfg, w, Apply(cfg, w, e), {})
  {
    match e
    case Resettle(j) => ResettleKeeps(cfg, w, j);
    case ClearPrevious(p) => ClearKeeps(cfg, w, p);
    case Cancel(j) => CancelKeeps(cfg, w, j);
  }

  lemma FinaliserKeeps(cfg: Config, w: World, e: Event)
    requires Inv(cfg, w) && CanStep(cfg, w, e) && !IsDelivery(e) && !IsCreation(e) && !IsEnding(e)
    ensures Kept(cfg, w, Apply(cfg, w, e), {})
  {
    NothingChanges(w.db, {});
    match e
    case ReadJob(f, j) => ForgetKeeps(cfg, w, Apply(cfg, w, e));
    case ReadSummary(f) => SummaryKeeps(cfg, w, f);
    case Cas(f) => CasKeeps(cfg, w, f);
    case FireHook(f) => ForgetKeeps(cfg, w, HookFired(w, f));
    case CrashFinaliser(f) => ForgetKeeps(cfg, w, CrashedFinaliser(w, f));
  }

  /** Every step keeps the invariant. */
  lemma StepKeeps(cfg: Config, w: World, e: Event)
    requires Inv(cfg, w) && CanStep(cfg, w, e)
    ensures Kept(cfg, w, Apply(cfg, w, e), Touched(w, e))
  {
    if IsDelivery(e) {
      DeliveryKeeps(cfg, w, e);
    } else if IsCreation(e) {
      CreationKeeps(cfg, w, e);
    } else if e.Resettle? || e.ClearPrevious? || e.Cancel? {
      EndingKeeps(cfg, w, e);
    } else if IsEnding(e) {
      StartingKeeps(cfg, w, e);
    } else {
      FinaliserKeeps(cfg, w, e);
    }
  }

  /** How a consumer comes to be executing a task: it was, or it has just loaded it, or it has just made a step. */
  ghost predicate ActiveFrom(cfg: Config, w: World, e: Event, next: World) {
    forall l :: l in next.logs && next.logs[l].phase.Active? ==>
      l in w.logs &&
      (next.logs[l].phase == w.logs[l].phase
       || (e == Load(l) && CanLoad(w, l) && NobodyBusy(w, w.logs[l].messages[w.logs[l].pos])
           && next.logs[l].phase == Decide(cfg, w.db, w.logs[l].messages[w.logs[l].pos]))
       || (e.Work? && e.l == l && CanWork(w.logs[l].phase, e.work) && next.logs[l].phase == NextPhase(w.logs[l].phase, e.work)))
  }

  /** Triggers and finalisers leave consumers and their records alone; they only append messages. */
  ghost predicate Undelivered(w: World, next: World) {
    && next.logs.Keys == w.logs.Keys && (forall l :: l in w.logs ==> next.logs[l].phase == w.logs[l].phase)
    && next.dlq == w.dlq && next.history.execs == w.history.execs && next.history.crashes == w.history.crashes
    && next.history.exhausted == w.history.exhausted && next.history.dropped == w.history.dropped
  }

  /** Triggers send messages and change rows; consumers and their records stay. */
  lemma AppendDeliversNothing(w: World, into: nat, t: Id)
    requires into in w.logs
    ensures Undelivered(w, Append(w, into, t))
  {
  }

  lemma PublishDeliversNothing(w: World, p: nat, into: nat)
    requires CanPublish(w, p, into)
    ensures Undelivered(w, Published(w, p, into))
  {
  }

  lemma SameConsumers(w: World, next: World)
    requires next.logs == w.logs && next.dlq == w.dlq && next.history == w.history
    ensures Undelivered(w, next)
  {
  }

  lemma CreationsDeliverNothing(cfg: Config, w: World, e: Event)
    requires CanStep(cfg, w, e) && IsCreation(e)
    ensures Undelivered(w, Apply(cfg, w, e))
  {
    match e
    case Open(p, j, job, rows, order) => SameConsumers(w, Opened(cfg, w, p, j, job, rows, order));
    case OpenSettled(j, job, rows, _) => SameConsumers(w, OpenedSettled(cfg, w, j, job, rows));
    case Resume(p, j, order, clear) => SameConsumers(w, Resumed(w, p, j, order, clear));
    case AddRows(p, rows, order, _, _) => SameConsumers(w, RowsAdded(w, p, rows, order));
    case Publish(p, into) => PublishDeliversNothing(w, p, into);
    case Republish(t, into) => AppendDeliversNothing(w, into, t);
  }

  lemma EndingsDeliverNothing(cfg: Config, w: World, e: Event)
    requires CanStep(cfg, w, e) && IsEnding(e)
    ensures Undelivered(w, Apply(cfg, w, e))
  {
    match e
    case Resettle(j) => SameConsumers(w, Resettled(w, j));
    case PublishFailed(p) => SameConsumers(w, Abandoned(w, p));
    case ClearPrevious(p) => SameConsumers(w, Cleared(w, p));
    case Start(p) => SameConsumers(w, JobStarted(w, p));
    case CrashStarter(p) => SameConsumers(w, w.(starters := w.starters - {p}));
    case Cancel(j) => SameConsumers(w, w.(db := Terminate(w.db, j)));
  }

  lemma FinalisersDeliverNothing(cfg: Config, w: World, e: Event)
    requires CanStep(cfg, w, e) && !IsDelivery(e) && !IsCreation(e) && !IsEnding(e)
    ensures Undelivered(w, Apply(cfg, w, e))
  {
  }

  lemma OthersDeliverNothing(cfg: Config, w: World, e: Event)
    requires CanStep(cfg, w, e) && !IsDelivery(e)
    ensures Undelivered(w, Apply(cfg, w, e))
  {
    if IsCreation(e) {
      CreationsDeliverNothing(cfg, w, e);
    } else if IsEnding(e) {
      EndingsDeliverNothing(cfg, w, e);
    } else {
      FinalisersDeliverNothing(cfg, w, e);
    }
  }

  lemma UndeliveredOrigin(cfg: Config, w: World, e: Event, next: World)
    requires Undelivered(w, next)
    ensures ActiveFrom(cfg, w, e, next)
  {
  }

  lemma LoadOrigin(cfg: Config, w: World, l: nat)
    requires CanLoad(w, l) && NobodyBusy(w, w.logs[l].messages[w.logs[l].pos])
    ensures ActiveFrom(cfg, w, Load(l), Loaded(cfg, w, l))
  {
  }

  lemma WorkOrigin(cfg: Config, w: World, l: nat, work: WorkStep)
    requires l in w.logs && CanWork(w.logs[l].phase, work)
    ensures ActiveFrom(cfg, w, Work(l, work), Worked(w, l, work))
  {
  }

  lemma DeliveryOrigin(cfg: Config, w: World, e: Event)
    requires CanStep(cfg, w, e) && IsDelivery(e) && !e.Work? && !e.Load?
    ensures ActiveFrom(cfg, w, e, Apply(cfg, w, e))
  {
  }

  lemma ActiveOrigin(cfg: Config, w: World, e: Event)
    requires CanStep(cfg, w, e)
    ensures ActiveFrom(cfg, w, e, Apply(cfg, w, e))
  {
    if e.Load? {
      LoadOrigin(cfg, w, e.l);
    } else if e.Work? {
      WorkOrigin(cfg, w, e.l, e.work);
    } else if IsDelivery(e) {
      DeliveryOrigin(cfg, w, e);
    } else {
      OthersDeliverNothing(cfg, w, e);
      UndeliveredOrigin(cfg, w, e, Apply(cfg, w, e));
    }
  }

  predicate Executes(w: World, e: Event, t: Id) {
    e.Work? && e.work.Execute? && e.l in w.logs && w.logs[e.l].phase.Active? && w.logs[e.l].phase.task == t
  }

  /** What there is to know about a step, short of its definition. */
  ghost predicate Follows(cfg: Config, w: World, e: Event, next: World) {
    && Inv(cfg, w) && Inv(cfg, next) && Changes(w.db, next.db, Touched(w, e)) && ActiveFrom(cfg, w, e, next)
    && (e.Work? ==> e.l in w.logs && CanWork(w.logs[e.l].phase, e.work) && next == Worked(w, e.l, e.work))
    && (forall t :: Count(next.history.execs, t) == Count(w.history.execs, t) + if Executes(w, e, t) then 1 else 0)
  }

  lemma ExecutionsCount(cfg: Config, w: World, e: Event)
    requires CanStep(cfg, w, e)
    ensures forall t :: Count(Apply(cfg, w, e).history.execs, t) == Count(w.history.execs, t) + if Executes(w, e, t) then 1 else 0
  {
    if IsDelivery(e) {
      DeliveriesCount(cfg, w, e);
    } else {
      OthersDeliverNothing(cfg, w, e);
    }
  }

  lemma DeliveriesCount(cfg: Config, w: World, e: Event)
    requires CanStep(cfg, w, e) && IsDelivery(e)
    ensures forall t :: Count(Apply(cfg, w, e).history.execs, t) == Count(w.history.execs, t) + if Executes(w, e, t) then 1 else 0
  {
  }

  lemma StepFollows(cfg: Config, w: World, e: Event)
    requires Inv(cfg, w) && CanStep(cfg, w, e)
    ensures Follows(cfg, w, e, Apply(cfg, w, e))
  {
    StepKeeps(cfg, w, e);
    ActiveOrigin(cfg, w, e);
    ExecutionsCount(cfg, w, e);
  }

  /** A step function that obeys `Follows`. */
  ghost predicate Lawful(cfg: Config, step: (World, Event) -> Option<World>) {
    forall w, e :: Inv(cfg, w) && step(w, e).Some? ==> Follows(cfg, w, e, step(w, e).value)
  }

  lemma StepIsLawful(cfg: Config)
    ensures Lawful(cfg, Step(cfg))
  {
    forall w, e | Inv(cfg, w) && Step(cfg)(w, e).Some?
      ensures Follows(cfg, w, e, Step(cfg)(w, e).value)
    {
      StepFollows(cfg, w, e);
    }
  }

  /** Induction over runs: what every lawful step keeps holds after every run. */
  lemma RunInvariance(cfg: Config, step: (World, Event) -> Option<World>, inv: World -> bool, w: World, es: seq<Event>)
    requires Lawful(cfg, step) && Inv(cfg, w) && inv(w) && CanRun(step, w, es)
    requires forall s, e, next :: Follows(cfg, s, e, next) && inv(s) ==> inv(next)
    ensures Inv(cfg, After(step, w, es)) && inv(After(step, w, es))
  {
    Invariance(step, (s: World) => Inv(cfg, s) && inv(s), w, es);
  }

  lemma RunKeeps(cfg: Config, w: World, es: seq<Event>)
    requires Inv(cfg, w) && CanRun(Step(cfg), w, es)
    ensures Inv(cfg, After(Step(cfg), w, es))
  {
    StepIsLawful(cfg);
    RunInvariance(cfg, Step(cfg), (s: World) => true, w, es);
  }

  /** Every reachable state satisfies the invariant. */
  lemma ReachableInv(cfg: Config, w: World)
    requires Reachable(cfg, w)
    ensures Inv(cfg, w)
  {
    var init: World, es: seq<Event> :| IsInitial(init) && CanRun(Step(cfg), init, es) && After(Step(cfg), init, es) == w;
    RunKeeps(cfg, init, es);
  }
}
