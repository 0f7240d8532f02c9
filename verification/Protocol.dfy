/** The engine as a state machine: consumers processing messages, triggers creating and starting runs,
    cancellations, and finalisers, all interleaved one store write or publish at a time
    (internal/executor, internal/transport/consumer.go, internal/repository). */
module Protocol {
  import opened Options
  import opened Domain
  import opened Store
  import opened Finalizer
  import opened Runs

  /** What the engine reads of a registered job: whether a run cancels the previous ones, whether it has a retry
      topic and a dead-letter topic, and how many attempts its tasks get. */
  datatype JobConfig = JobConfig(cancelPrevious: bool, retryTopic: bool, dlqTopic: bool, maxRetries: int)
  type Config = map<string, JobConfig>

  /** How far a consumer is with the task it executes: each stage names the write or call made last,
      `Starting` none yet. */
  datatype Stage = Starting | Started | Executing | Failing | Requeueing | Exhausting

  /** A consumer between two messages (Idle) or inside executeTask. `mem` is the task held in memory.
      `Done` and `Errored` are the two ways executeTask returns. */
  datatype Phase =
    | Idle
    | Skipping(task: Id, status: Status)
    | Active(task: Id, stage: Stage, mem: Task)
    | Done(task: Id)
    | Errored(task: Id)

  /** A topic partition (of the task topic or the retry topic) and its one consumer. */
  datatype Log = Log(messages: seq<Id>, pos: nat, committed: nat, phase: Phase)

  /** A trigger, or a retry of a job, between creating (or finding) its job and starting it. */
  datatype Starter = Starter(job: Id, todo: seq<Id>, mustClear: bool)

  /** A finaliser between its reads and its writes. */
  datatype Finaliser = Seen(job: Id) | Resolved(job: Id, status: Status) | Won(job: Id, status: Status)

  /** What has happened so far: executions and crashes per task, dead-lettering, and per job the successful
      compare-and-sets, the hooks fired for them and the hooks lost to a crash. */
  datatype History = History(
    execs: map<Id, nat>, crashes: map<Id, nat>, exhausted: set<Id>, dropped: set<Id>,
    wins: map<Id, nat>, hooks: map<Id, nat>, lostHooks: map<Id, nat>)

  datatype World = World(
    db: Db, logs: map<nat, Log>, dlq: seq<Id>,
    starters: map<nat, Starter>, finalisers: map<nat, Finaliser>, history: History)

  /** The steps of executing a loaded task: the RUNNING write, the call into the task executor (or the refusal of
      unreadable params), and the writes that record how it went. `text` is the stored result. */
  datatype WorkStep = Begin | RejectParams(text: string) | Execute | Finish(text: string) | Fail | Requeue(text: string) | Exhaust(text: string)

  datatype Event =
    // a consumer, inside executeTask and around it
    | Load(l: nat)
    | Skip(l: nat)
    | Work(l: nat, work: WorkStep)
    | PublishRetry(l: nat, target: Option<nat>)
    | PublishDlq(l: nat, ok: bool)
    | Next(l: nat, commit: bool)
    | CrashConsumer(l: nat)
    // triggers and retries of jobs
    | Open(p: nat, j: Id, job: Job, rows: map<Id, Task>, order: seq<Id>)
    | OpenSettled(j: Id, job: Job, rows: map<Id, Task>, order: seq<Id>)
    | Resume(p: nat, j: Id, order: seq<Id>, clear: bool)
    | Resettle(j: Id)
    | AddRows(p: nat, rows: map<Id, Task>, order: seq<Id>, page: seq<Id>, after: int)
    | Publish(p: nat, into: nat)
    | Republish(t: Id, into: nat)
    | PublishFailed(p: nat)
    | ClearPrevious(p: nat)
    | Start(p: nat)
    | CrashStarter(p: nat)
    | Cancel(j: Id)
    // finalisers
    | ReadJob(f: nat, j: Id)
    | ReadSummary(f: nat)
    | Cas(f: nat)
    | FireHook(f: nat)
    | CrashFinaliser(f: nat)

  // ---------------------------------------------------------------- helpers

  function Count(m: map<Id, nat>, k: Id): nat {
    if k in m then m[k] else 0
  }

  function Bump(m: map<Id, nat>, k: Id): map<Id, nat> {
    m[k := Count(m, k) + 1]
  }

  function Max(a: int, b: int): int {
    if a < b then b else a
  }

  predicate Lists(order: seq<Id>, ids: set<Id>) {
    ToSet(order) == ids && |order| == |ids|
  }

  function JobOf(db: Db, t: Id): Id
    requires t in db.tasks
  {
    db.tasks[t].jobId
  }

  predicate JobLive(db: Db, j: Id) {
    j in db.jobs && IsLive(db.jobs[j].status)
  }

  predicate JobRunning(db: Db, j: Id) {
    j in db.jobs && db.jobs[j].status == Running
  }

  predicate IsBusy(phase: Phase, t: Id) {
    (phase.Active? || phase.Skipping?) && phase.task == t
  }

  predicate At(w: World, l: nat, stage: Stage) {
    l in w.logs && w.logs[l].phase.Active? && w.logs[l].phase.stage == stage
  }

  function WithPhase(w: World, l: nat, phase: Phase): World
    requires l in w.logs
  {
    w.(logs := w.logs[l := w.logs[l].(phase := phase)])
  }

  function Append(w: World, l: nat, t: Id): World
    requires l in w.logs
  {
    w.(logs := w.logs[l := w.logs[l].(messages := w.logs[l].messages + [t])])
  }

  /** A freshly built task row: PENDING, first attempt, its job's id and creation time. */
  predicate FreshRows(db: Db, j: Id, createdAt: int, rows: map<Id, Task>) {
    forall t :: t in rows ==>
      t !in db.tasks && rows[t].jobId == j && rows[t].createdAt == createdAt && rows[t].status == Pending && rows[t].attempt == 1
  }

  // ---------------------------------------------------------------- executeTask, one branch at a time

  /** What executeTask decides after loading the task and its job. */
  function Decide(cfg: Config, db: Db, t: Id): Phase {
    match FindTaskWithJob(db, t)
    case None => Errored(t)
    case Some((task, job)) =>
      if job.name !in cfg then Errored(t)
      else if !IsLive(job.status) then Skipping(t, job.status)
      else if IsSettled(task.status) then Done(t)
      else match TaskTarget(StartTask, task.status)
        case None => Errored(t)
        case Some(status) => Active(t, Starting, task.(status := status))
  }

  /** The order of the steps: a failed task goes back to PENDING while attempts remain, else it is exhausted. */
  predicate CanWork(phase: Phase, work: WorkStep) {
    phase.Active? &&
    match work
    case Begin => phase.stage == Starting
    case RejectParams(_) => phase.stage == Started
    case Execute => phase.stage == Started
    case Finish(_) => phase.stage == Executing
    case Fail => phase.stage == Executing
    case Requeue(_) => phase.stage == Failing && phase.mem.attempt < phase.mem.maxRetries
    case Exhaust(_) => phase.stage == Failing && phase.mem.attempt >= phase.mem.maxRetries
  }

  /** The columns a step writes. */
  function PatchOf(phase: Phase, work: WorkStep): Option<TaskPatch>
    requires CanWork(phase, work)
  {
    match work
    case Begin => Some(TaskPatch(phase.mem.status, None, None))
    case RejectParams(text) => Some(TaskPatch(Failed, None, Some(text)))
    case Execute => None
    case Finish(text) => Some(TaskPatch(Completed, None, Some(text)))
    case Fail => Some(TaskPatch(Failed, None, None))
    case Requeue(text) => Some(TaskPatch(Pending, Some(phase.mem.attempt + 1), Some(text)))
    case Exhaust(text) => Some(TaskPatch(MaxRetriesExhausted, None, Some(text)))
  }

  /** Where a step leaves the consumer; what is written is also what memory holds. */
  function NextPhase(phase: Phase, work: WorkStep): Phase
    requires CanWork(phase, work)
  {
    match work
    case Begin => phase.(stage := Started)
    case RejectParams(_) => Errored(phase.task)
    case Execute => phase.(stage := Executing)
    case Finish(_) => Done(phase.task)
    case Fail => phase.(stage := Failing, mem := phase.mem.(status := Failed))
    case Requeue(_) => phase.(stage := Requeueing, mem := Patched(phase.mem, PatchOf(phase, work).value))
    case Exhaust(_) => phase.(stage := Exhausting, mem := Patched(phase.mem, PatchOf(phase, work).value))
  }

  function NextHistory(h: History, t: Id, work: WorkStep): History {
    match work
    case Execute => h.(execs := Bump(h.execs, t))
    case Exhaust(_) => h.(exhausted := h.exhausted + {t})
    case _ => h
  }

  /** The row after a step. */
  function WorkedRow(row: Task, phase: Phase, work: WorkStep): Task
    requires CanWork(phase, work)
  {
    var patch := PatchOf(phase, work);
    if patch.None? then row else Patched(row, patch.value)
  }

  function WorkedDb(db: Db, phase: Phase, work: WorkStep): Db
    requires CanWork(phase, work)
  {
    if phase.task in db.tasks then WithTask(db, phase.task, WorkedRow(db.tasks[phase.task], phase, work)) else db
  }

  function Worked(w: World, l: nat, work: WorkStep): World
    requires l in w.logs && CanWork(w.logs[l].phase, work)
  {
    var phase := w.logs[l].phase;
    WithPhase(w, l, NextPhase(phase, work))
      .(db := WorkedDb(w.db, phase, work), history := NextHistory(w.history, phase.task, work))
  }

  // ---------------------------------------------------------------- consumer steps

  predicate CanLoad(w: World, l: nat) {
    l in w.logs && w.logs[l].phase.Idle? && w.logs[l].pos < |w.logs[l].messages|
  }

  function Loaded(cfg: Config, w: World, l: nat): World
    requires CanLoad(w, l)
  {
    WithPhase(w, l, Decide(cfg, w.db, w.logs[l].messages[w.logs[l].pos]))
  }

  predicate InPhase(w: World, l: nat, skipping: bool) {
    l in w.logs && if skipping then w.logs[l].phase.Skipping? else w.logs[l].phase.Active?
  }

  /** The job is over: its status, as loaded, overwrites the task's. */
  function Skipped(w: World, l: nat): World
    requires InPhase(w, l, true)
  {
    var phase := w.logs[l].phase;
    WithPhase(w, l, Done(phase.task)).(db := SetTaskStatuses(w.db, {phase.task}, phase.status))
  }

  /** The retry message goes to some partition, or nowhere: no retry topic, or the publish failed. */
  function RetryPublished(w: World, l: nat, target: Option<nat>): World
    requires At(w, l, Requeueing) && (target.Some? ==> target.value in w.logs)
  {
    var t := w.logs[l].phase.task;
    var w1 := WithPhase(w, l, Done(t));
    if target.Some? then Append(w1, target.value, t) else w1
  }

  function DlqPublished(w: World, l: nat, ok: bool): World
    requires At(w, l, Exhausting)
  {
    var t := w.logs[l].phase.task;
    var w1 := WithPhase(w, l, Done(t));
    if ok then w1.(dlq := w.dlq + [t]) else w1.(history := w.history.(dropped := w.history.dropped + {t}))
  }

  /** A message that failed is not committed, but the commit of a later one passes over it. */
  predicate CanAdvance(w: World, l: nat, commit: bool) {
    && l in w.logs && w.logs[l].pos < |w.logs[l].messages|
    && (w.logs[l].phase.Done? || (!commit && w.logs[l].phase.Errored?))
  }

  function Advanced(w: World, l: nat, commit: bool): World
    requires CanAdvance(w, l, commit)
  {
    var log := w.logs[l];
    w.(logs := w.logs[l := log.(pos := log.pos + 1, committed := if commit then log.pos + 1 else log.committed, phase := Idle)])
  }

  function CrashedConsumer(w: World, l: nat): World
    requires l in w.logs
  {
    var log := w.logs[l];
    var h := w.history;
    w.(logs := w.logs[l := log.(pos := log.committed, phase := Idle)],
       history := if !log.phase.Active? then h
                  else h.(crashes := Bump(h.crashes, log.phase.task),
                          dropped := if log.phase.stage == Exhausting then h.dropped + {log.phase.task} else h.dropped))
  }

  // ---------------------------------------------------------------- trigger steps

  predicate CanOpen(cfg: Config, w: World, p: nat, j: Id, job: Job, rows: map<Id, Task>, order: seq<Id>) {
    && p !in w.starters && j !in w.db.jobs && job.status == Pending && job.name in cfg
    && FreshRows(w.db, j, job.createdAt, rows) && Lists(order, rows.Keys)
  }

  /** The create transaction of an enabled run (all its tasks at once) or of a clone (no tasks yet). */
  function Opened(cfg: Config, w: World, p: nat, j: Id, job: Job, rows: map<Id, Task>, order: seq<Id>): World
    requires CanOpen(cfg, w, p, j, job, rows, order)
  {
    w.(db := InsertJob(w.db, j, job, rows),
       starters := w.starters[p := Starter(j, order, job.parent.None? && cfg[job.name].cancelPrevious)])
  }

  predicate CanOpenSettled(cfg: Config, w: World, j: Id, job: Job, rows: map<Id, Task>) {
    && j !in w.db.jobs && job.status in {Rejected, Failed} && (job.status == Failed ==> rows == map[]) && job.name in cfg
    && forall t :: t in rows ==>
         t !in w.db.tasks && rows[t].jobId == j && rows[t].createdAt == job.createdAt && rows[t].status == job.status && rows[t].attempt == 1
  }

  /** A disabled run (REJECTED, with its tasks) or a trigger failure (FAILED, no tasks). */
  function OpenedSettled(cfg: Config, w: World, j: Id, job: Job, rows: map<Id, Task>): World
    requires CanOpenSettled(cfg, w, j, job, rows)
  {
    w.(db := InsertJob(w.db, j, job, rows))
  }

  predicate CanResume(w: World, p: nat, j: Id, order: seq<Id>) {
    p !in w.starters && j in w.db.jobs && w.db.jobs[j].status == Pending && Lists(order, TasksOf(w.db, j))
  }

  /** A later trigger or retry finds the PENDING job and sets out to publish all its tasks again. */
  function Resumed(w: World, p: nat, j: Id, order: seq<Id>, clear: bool): World
    requires CanResume(w, p, j, order)
  {
    w.(starters := w.starters[p := Starter(j, order, clear)])
  }

  /** A later trigger finds a job that is over: its status overwrites all its tasks'. */
  function Resettled(w: World, j: Id): World
    requires j in w.db.jobs && !IsLive(w.db.jobs[j].status)
  {
    w.(db := SetTaskStatuses(w.db, TasksOf(w.db, j), w.db.jobs[j].status))
  }

  predicate CanAddRows(w: World, p: nat, rows: map<Id, Task>, order: seq<Id>) {
    && p in w.starters && w.starters[p].todo == [] && w.starters[p].job in w.db.jobs
    && FreshRows(w.db, w.starters[p].job, w.db.jobs[w.starters[p].job].createdAt, rows) && Lists(order, rows.Keys)
  }

  /** One batch of a clone's rows, inserted after the batch before was published. */
  function RowsAdded(w: World, p: nat, rows: map<Id, Task>, order: seq<Id>): World
    requires CanAddRows(w, p, rows, order)
  {
    w.(db := w.db.(tasks := w.db.tasks + rows), starters := w.starters[p := w.starters[p].(todo := order)])
  }

  predicate CanPublish(w: World, p: nat, into: nat) {
    p in w.starters && w.starters[p].todo != [] && into in w.logs
  }

  function Published(w: World, p: nat, into: nat): World
    requires CanPublish(w, p, into)
  {
    var s := w.starters[p];
    Append(w, into, s.todo[0]).(starters := w.starters[p := s.(todo := s.todo[1..])])
  }

  /** A publish fails: the job is marked FAILED. */
  function Abandoned(w: World, p: nat): World
    requires p in w.starters
  {
    w.(db := SetJobStatus(w.db, w.starters[p].job, Failed), starters := w.starters - {p})
  }

  predicate CanClear(w: World, p: nat) {
    p in w.starters && w.starters[p].todo == [] && w.starters[p].mustClear && w.starters[p].job in w.db.jobs
  }

  function Cleared(w: World, p: nat): World
    requires CanClear(w, p)
  {
    var s := w.starters[p];
    w.(db := CancelPrevious(w.db, w.db.jobs[s.job].name, s.job), starters := w.starters[p := s.(mustClear := false)])
  }

  predicate CanStart(w: World, p: nat) {
    p in w.starters && w.starters[p].todo == [] && !w.starters[p].mustClear
  }

  function JobStarted(w: World, p: nat): World
    requires CanStart(w, p)
  {
    w.(db := SetJobStatus(w.db, w.starters[p].job, Running), starters := w.starters - {p})
  }

  // ---------------------------------------------------------------- finaliser steps

  function SummaryRead(w: World, f: nat): World
    requires f in w.finalisers
  {
    var j := w.finalisers[f].job;
    var outcome := ResolveSummary(Summarise(w.db, j));
    w.(finalisers := if outcome.None? then w.finalisers - {f} else w.finalisers[f := Resolved(j, outcome.value)])
  }

  /** The compare-and-set: it succeeds while the row is still RUNNING. */
  function CasTried(w: World, f: nat): World
    requires f in w.finalisers && w.finalisers[f].Resolved?
  {
    var fin := w.finalisers[f];
    if JobRunning(w.db, fin.job) then
      w.(db := SetJobStatus(w.db, fin.job, fin.status), finalisers := w.finalisers[f := Won(fin.job, fin.status)],
         history := w.history.(wins := Bump(w.history.wins, fin.job)))
    else w.(finalisers := w.finalisers - {f})
  }

  function HookFired(w: World, f: nat): World
    requires f in w.finalisers
  {
    w.(finalisers := w.finalisers - {f}, history := w.history.(hooks := Bump(w.history.hooks, w.finalisers[f].job)))
  }

  function CrashedFinaliser(w: World, f: nat): World
    requires f in w.finalisers
  {
    var fin := w.finalisers[f];
    w.(finalisers := w.finalisers - {f},
       history := if fin.Won? then w.history.(lostHooks := Bump(w.history.lostHooks, fin.job)) else w.history)
  }

  // ---------------------------------------------------------------- all steps

  predicate Enabled(cfg: Config, w: World, e: Event) {
    match e
    case Load(l) => CanLoad(w, l)
    case Skip(l) => InPhase(w, l, true)
    case Work(l, work) => l in w.logs && CanWork(w.logs[l].phase, work)
    case PublishRetry(l, target) => At(w, l, Requeueing) && (target.Some? ==> target.value in w.logs)
    case PublishDlq(l, _) => At(w, l, Exhausting)
    case Next(l, commit) => CanAdvance(w, l, commit)
    case CrashConsumer(l) => l in w.logs
    case Open(p, j, job, rows, order) => CanOpen(cfg, w, p, j, job, rows, order)
    case OpenSettled(j, job, rows, _) => CanOpenSettled(cfg, w, j, job, rows)
    case Resume(p, j, order, _) => CanResume(w, p, j, order)
    case Resettle(j) => j in w.db.jobs && !IsLive(w.db.jobs[j].status)
    case AddRows(p, rows, order, _, _) => CanAddRows(w, p, rows, order)
    case Publish(p, into) => CanPublish(w, p, into)
    case Republish(t, into) => t in w.db.tasks && into in w.logs
    case PublishFailed(p) => p in w.starters && w.starters[p].todo != []
    case ClearPrevious(p) => CanClear(w, p)
    case Start(p) => CanStart(w, p)
    case CrashStarter(p) => p in w.starters
    case Cancel(j) => JobLive(w.db, j)
    case ReadJob(f, j) => f !in w.finalisers && JobRunning(w.db, j)
    case ReadSummary(f) => f in w.finalisers && w.finalisers[f].Seen?
    case Cas(f) => f in w.finalisers && w.finalisers[f].Resolved?
    case FireHook(f) => f in w.finalisers && w.finalisers[f].Won?
    case CrashFinaliser(f) => f in w.finalisers
  }

  function Apply(cfg: Config, w: World, e: Event): World
    requires Enabled(cfg, w, e)
  {
    match e
    case Load(l) => Loaded(cfg, w, l)
    case Skip(l) => Skipped(w, l)
    case Work(l, work) => Worked(w, l, work)
    case PublishRetry(l, target) => RetryPublished(w, l, target)
    case PublishDlq(l, ok) => DlqPublished(w, l, ok)
    case Next(l, commit) => Advanced(w, l, commit)
    case CrashConsumer(l) => CrashedConsumer(w, l)
    case Open(p, j, job, rows, order) => Opened(cfg, w, p, j, job, rows, order)
    case OpenSettled(j, job, rows, _) => OpenedSettled(cfg, w, j, job, rows)
    case Resume(p, j, order, clear) => Resumed(w, p, j, order, clear)
    case Resettle(j) => Resettled(w, j)
    case AddRows(p, rows, order, _, _) => RowsAdded(w, p, rows, order)
    case Publish(p, into) => Published(w, p, into)
    case Republish(t, into) => Append(w, into, t)
    case PublishFailed(p) => Abandoned(w, p)
    case ClearPrevious(p) => Cleared(w, p)
    case Start(p) => JobStarted(w, p)
    case CrashStarter(p) => w.(starters := w.starters - {p})
    case Cancel(j) => w.(db := Terminate(w.db, j))
    case ReadJob(f, j) => w.(finalisers := w.finalisers[f := Seen(j)])
    case ReadSummary(f) => SummaryRead(w, f)
    case Cas(f) => CasTried(w, f)
    case FireHook(f) => HookFired(w, f)
    case CrashFinaliser(f) => CrashedFinaliser(w, f)
  }

  /** What the program relies on its surroundings for: deliveries of one task do not overlap, one trigger at a
      time works on a job, and a job is not cancelled between its creation and its start (the start is an
      unguarded write). */
  predicate Orderly(w: World, e: Event) {
    match e
    case Load(l) => CanLoad(w, l) && NobodyBusy(w, w.logs[l].messages[w.logs[l].pos])
    case Resume(_, j, _, _) => NotStarting(w, j)
    case Cancel(j) => NotStarting(w, j)
    case ClearPrevious(p) => CanClear(w, p) && ClearsNoStarter(w, p)
    case _ => true
  }

  predicate NobodyBusy(w: World, t: Id) {
    forall m :: m in w.logs ==> !IsBusy(w.logs[m].phase, t)
  }

  predicate NotStarting(w: World, j: Id) {
    forall p :: p in w.starters ==> w.starters[p].job != j
  }

  predicate ClearsNoStarter(w: World, p: nat)
    requires CanClear(w, p)
  {
    var j := w.starters[p].job;
    forall q :: q in w.starters ==> !SupersededBy(w.db, w.db.jobs[j].name, j, w.starters[q].job)
  }

  // ---------------------------------------------------------------- the rows triggers and retries insert

  /** A trigger numbers its tasks by their place in the list the job executor returned. */
  ghost predicate NumberedByPlace(rows: map<Id, Task>, order: seq<Id>) {
    && Distinct(order) && (forall t :: t in rows ==> t in order)
    && forall i :: 0 <= i < |order| ==> order[i] in rows && rows[order[i]].sequence == i
  }

  /** A retry inserts, under fresh ids, clones of a page it has read: tasks of the source, each once, numbered past
      `after`, up to which the clone has been filled. What the rows looked like when they were read may have changed
      since, except for the work itself. */
  ghost predicate ClonesPage(db: Db, j: Id, src: Id, rows: map<Id, Task>, order: seq<Id>, page: seq<Id>, after: int) {
    && Distinct(page) && |order| == |page| && Distinct(order) && (forall t :: t in rows ==> t in order)
    && (forall t :: t in TasksOf(db, j) ==> db.tasks[t].sequence <= after)
    && forall i :: 0 <= i < |order| ==>
         && order[i] in rows && page[i] in TasksOf(db, src) && db.tasks[page[i]].sequence > after
         && SameWork(rows[order[i]], db.tasks[page[i]])
  }

  ghost predicate ClonesParent(w: World, p: nat, rows: map<Id, Task>, order: seq<Id>, page: seq<Id>, after: int) {
    && p in w.starters && w.starters[p].job in w.db.jobs && w.db.jobs[w.starters[p].job].parent.Some?
    && ClonesPage(w.db, w.starters[p].job, w.db.jobs[w.starters[p].job].parent.value, rows, order, page, after)
  }

  /** Rows come into being the way triggers and retries make them; a clone begins without any. */
  ghost predicate Programmed(w: World, e: Event) {
    match e
    case Open(_, _, job, rows, order) =>
      if job.parent.None? then NumberedByPlace(rows, order) else job.parent.value in w.db.jobs && rows == map[]
    case OpenSettled(_, job, rows, order) => job.parent.None? && NumberedByPlace(rows, order)
    case AddRows(p, rows, order, page, after) => ClonesParent(w, p, rows, order, page, after)
    case _ => true
  }

  ghost predicate CanStep(cfg: Config, w: World, e: Event) {
    Enabled(cfg, w, e) && Orderly(w, e) && Programmed(w, e)
  }

  // ---------------------------------------------------------------- runs

  ghost function Step(cfg: Config): (World, Event) -> Option<World> {
    (w: World, e: Event) => if CanStep(cfg, w, e) then Some(Apply(cfg, w, e)) else None
  }

  const NO_HISTORY := History(map[], map[], {}, {}, map[], map[], map[])

  /** Empty tables, empty partitions, nobody at work. */
  predicate IsInitial(w: World) {
    && w.db == Db(map[], map[]) && w.dlq == [] && w.starters == map[] && w.finalisers == map[]
    && w.history == NO_HISTORY
    && forall l :: l in w.logs ==> w.logs[l] == Log([], 0, 0, Idle)
  }

  ghost predicate Reachable(cfg: Config, w: World) {
    exists init: World, es: seq<Event> ::
      IsInitial(init) && CanRun(Step(cfg), init, es) && After(Step(cfg), init, es) == w
  }

  /** A run from one state to another. */
  ghost predicate Leads(cfg: Config, w: World, es: seq<Event>, next: World) {
    CanRun(Step(cfg), w, es) && After(Step(cfg), w, es) == next
  }

  lemma OneEvent(cfg: Config, w: World, e: Event)
    requires CanStep(cfg, w, e)
    ensures Leads(cfg, w, [e], Apply(cfg, w, e))
  {
    OneStep(Step(cfg), w, e);
  }

  lemma Follow(cfg: Config, w: World, a: seq<Event>, mid: World, b: seq<Event>, next: World)
    requires Leads(cfg, w, a, mid) && Leads(cfg, mid, b, next)
    ensures Leads(cfg, w, a + b, next)
  {
    Concatenation(Step(cfg), w, a, b);
  }

  lemma Extend(cfg: Config, w: World, es: seq<Event>, now: World, e: Event)
    requires Leads(cfg, w, es, now) && CanStep(cfg, now, e)
    ensures Leads(cfg, w, es + [e], Apply(cfg, now, e))
  {
    OneEvent(cfg, now, e);
    Follow(cfg, w, es, now, [e], Apply(cfg, now, e));
  }

  /** Some run leads from one state to the other. */
  ghost predicate MayReach(cfg: Config, w: World, next: World) {
    exists es :: Leads(cfg, w, es, next)
  }

  lemma ByRun(cfg: Config, w: World, es: seq<Event>, next: World)
    requires Leads(cfg, w, es, next)
    ensures MayReach(cfg, w, next)
  {
  }

  lemma ReachOn(cfg: Config, w: World, mid: World, next: World)
    requires MayReach(cfg, w, mid) && MayReach(cfg, mid, next)
    ensures MayReach(cfg, w, next)
  {
    var a :| Leads(cfg, w, a, mid);
    var b :| Leads(cfg, mid, b, next);
    Follow(cfg, w, a, mid, b, next);
  }

  /** What can be reached from a reachable state is reachable. */
  lemma StillReachable(cfg: Config, w: World, next: World)
    requires Reachable(cfg, w) && MayReach(cfg, w, next)
    ensures Reachable(cfg, next)
  {
    var init: World, before: seq<Event> :| IsInitial(init) && CanRun(Step(cfg), init, before) && After(Step(cfg), init, before) == w;
    var es :| Leads(cfg, w, es, next);
    Concatenation(Step(cfg), init, before, es);
  }
}
