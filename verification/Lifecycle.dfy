/** How job and task statuses move, and when executions stop. */
module Lifecycle {
  import opened Options
  import opened Domain
  import opened Store
  import opened Runs
  import opened Protocol
  import opened Invariants

  // ---------------------------------------------------------------- jobs

  ghost predicate JobReach(from: Status, to: Status) {
    exists path: seq<Status> :: JobPath(path) && |path| > 0 && path[0] == from && path[|path| - 1] == to
  }

  lemma ReachFurther(from: Status, mid: Status, to: Status)
    requires JobReach(from, mid) && (mid == to || JobEdge(mid, to))
    ensures JobReach(from, to)
  {
    if mid != to {
      var path: seq<Status> :| JobPath(path) && |path| > 0 && path[0] == from && path[|path| - 1] == mid;
      assert JobPath(path + [to]);
    }
  }

  lemma JobMoves(db: Db, next: Db, touched: set<Id>, from: Status, j: Id)
    requires Changes(db, next, touched) && j in db.jobs && JobReach(from, db.jobs[j].status)
    ensures j in next.jobs && JobReach(from, next.jobs[j].status) && (!JobLive(db, j) ==> next.jobs[j] == db.jobs[j])
  {
    LiveBefore(db, next, touched, j);
    ReachFurther(from, db.jobs[j].status, next.jobs[j].status);
  }

  /** Along every run a job's status follows the job table, and a job that is over never changes again. */
  lemma JobStatusFollowsTable(cfg: Config, w: World, es: seq<Event>, j: Id)
    requires Reachable(cfg, w) && j in w.db.jobs && CanRun(Step(cfg), w, es)
    ensures var later := After(Step(cfg), w, es);
      && j in later.db.jobs && JobReach(w.db.jobs[j].status, later.db.jobs[j].status)
      && (!JobLive(w.db, j) ==> later.db.jobs[j] == w.db.jobs[j])
  {
    ReachableInv(cfg, w);
    var job := w.db.jobs[j];
    assert JobPath([job.status]) && [job.status][0] == job.status;
    var inv := (s: World) => j in s.db.jobs && JobReach(job.status, s.db.jobs[j].status)
                             && (!IsLive(job.status) ==> s.db.jobs[j] == job);
    forall s, e, next | Follows(cfg, s, e, next) && inv(s)
      ensures inv(next)
    {
      JobMoves(s.db, next.db, Touched(s, e), job.status, j);
    }
    StepIsLawful(cfg);
    RunInvariance(cfg, Step(cfg), inv, w, es);
  }

  /** The start is an unguarded write: whatever has happened to the job since it was created, it becomes RUNNING. It follows
      the job table exactly when the job is still live; one cancelled in between is revived. */
  lemma StartFollowsTableIff(w: World, p: nat)
    requires CanStart(w, p) && w.starters[p].job in w.db.jobs
    ensures var j := w.starters[p].job;
      && JobRunning(JobStarted(w, p).db, j)
      && (JobReach(w.db.jobs[j].status, JobStarted(w, p).db.jobs[j].status) <==> IsLive(w.db.jobs[j].status))
  {
    var from := w.db.jobs[w.starters[p].job].status;
    if IsLive(from) {
      assert JobPath([from]) && [from][0] == from;
      ReachFurther(from, from, from);
      EdgeBy(StartJob, Pending, Running);
      ReachFurther(from, from, Running);
    } else if JobReach(from, Running) {
      var path: seq<Status> :| JobPath(path) && |path| > 0 && path[0] == from && path[|path| - 1] == Running;
      OverMeansOver(path);
    }
  }

  /** A path that starts where nothing is live goes nowhere. */
  lemma OverMeansOver(path: seq<Status>)
    requires JobPath(path) && |path| > 0 && !IsLive(path[0])
    ensures |path| == 1
  {
    assert |path| > 1 ==> JobEdge(path[1 - 1], path[1]);
  }

  // ---------------------------------------------------------------- tasks

  lemma WorkFollowsTable(row: Task, phase: Phase, work: WorkStep)
    requires CanWork(phase, work) && InStep(row, phase, true)
    ensures var next := WorkedRow(row, phase, work);
      next.status == row.status || TaskEdge(row.status, next.status)
  {
    var action := match work
      case Begin => StartTask
      case RejectParams(_) => FailTask
      case Execute => StartTask
      case Finish(_) => CompleteTask
      case Fail => FailTask
      case Requeue(_) => RetryTask
      case Exhaust(_) => ExhaustTask;
    assert work.Execute? || TaskTarget(action, row.status) == Some(WorkedRow(row, phase, work).status);
  }

  /** Although task writes carry no guard, every change of a stored task status that leaves the job live is one edge
      of the task table. */
  lemma TaskStatusFollowsTable(cfg: Config, w: World, e: Event, t: Id)
    requires Reachable(cfg, w) && CanStep(cfg, w, e) && t in w.db.tasks
    ensures EdgeWhileLive(w.db, Apply(cfg, w, e).db, t)
  {
    ReachableInv(cfg, w);
    StepFollows(cfg, w, e);
    FollowsTable(cfg, w, e, Apply(cfg, w, e), t);
  }

  ghost predicate EdgeWhileLive(db: Db, next: Db, t: Id)
    requires t in db.tasks
  {
    && t in next.tasks
    && (JobLive(next, next.tasks[t].jobId) ==>
          next.tasks[t].status == db.tasks[t].status || TaskEdge(db.tasks[t].status, next.tasks[t].status))
  }

  lemma FollowsTable(cfg: Config, w: World, e: Event, next: World, t: Id)
    requires Follows(cfg, w, e, next) && t in w.db.tasks
    ensures EdgeWhileLive(w.db, next.db, t)
  {
    if t in Touched(w, e) {
      assert LogOk(w.db, w.logs[e.l]);
      LiveBefore(w.db, next.db, Touched(w, e), w.db.tasks[t].jobId);
      if JobLive(w.db, w.db.tasks[t].jobId) {
        WorkFollowsTable(w.db.tasks[t], w.logs[e.l].phase, e.work);
      }
    }
  }

  predicate BeingFailed(w: World, t: Id) {
    exists l :: l in w.logs && w.logs[l].phase.Active? && w.logs[l].phase.stage == Failing && w.logs[l].phase.task == t
  }

  /** The row has not changed, and no consumer is about to change it, as long as the job is live. */
  ghost predicate Final(w: World, t: Id, row: Task) {
    && t in w.db.tasks && w.db.tasks[t].jobId == row.jobId
    && (JobLive(w.db, row.jobId) ==> w.db.tasks[t] == row && !BeingFailed(w, t))
  }

  /** Every consumer executing the task has already exhausted it. */
  predicate OnlyExhausting(w: World, t: Id) {
    forall l :: l in w.logs && w.logs[l].phase.Active? && w.logs[l].phase.task == t ==> w.logs[l].phase.stage == Exhausting
  }

  lemma FinishedMeansExhausting(w: World, t: Id)
    requires LogsOk(w) && t in w.db.tasks && JobLive(w.db, JobOf(w.db, t)) && IsFinished(w.db.tasks[t].status) && !BeingFailed(w, t)
    ensures OnlyExhausting(w, t)
  {
    forall l | l in w.logs && w.logs[l].phase.Active? && w.logs[l].phase.task == t
      ensures w.logs[l].phase.stage == Exhausting
    {
      assert LogOk(w.db, w.logs[l]);
    }
  }

  lemma NobodyStartsFailing(cfg: Config, w: World, e: Event, next: World, t: Id)
    requires ActiveFrom(cfg, w, e, next) && OnlyExhausting(w, t)
    requires e.Work? ==> e.l in w.logs && CanWork(w.logs[e.l].phase, e.work)
    ensures !BeingFailed(next, t) && t !in Touched(w, e)
  {
  }

  lemma StepKeepsFinal(cfg: Config, w: World, e: Event, next: World, t: Id, row: Task)
    requires Follows(cfg, w, e, next) && Final(w, t, row) && IsFinished(row.status)
    ensures Final(next, t, row)
  {
    LiveBefore(w.db, next.db, Touched(w, e), row.jobId);
    if JobLive(next.db, row.jobId) {
      FinishedMeansExhausting(w, t);
      NobodyStartsFailing(cfg, w, e, next, t);
      UntouchedRow(w.db, next.db, Touched(w, e), t);
    }
  }

  lemma RunKeepsFinal(cfg: Config, w: World, es: seq<Event>, t: Id, row: Task)
    requires Inv(cfg, w) && Final(w, t, row) && IsFinished(row.status) && CanRun(Step(cfg), w, es)
    ensures Final(After(Step(cfg), w, es), t, row)
  {
    var inv := (s: World) => Final(s, t, row);
    forall s, e, next | Follows(cfg, s, e, next) && inv(s)
      ensures inv(next)
    {
      StepKeepsFinal(cfg, s, e, next, t, row);
    }
    StepIsLawful(cfg);
    RunInvariance(cfg, Step(cfg), inv, w, es);
  }

  lemma FailingMovesOn(cfg: Config, w: World, t: Id)
    requires LogsOk(w) && t in w.db.tasks && JobLive(w.db, w.db.tasks[t].jobId) && BeingFailed(w, t)
    ensures exists es ::
              && CanRun(Step(cfg), w, es) && After(Step(cfg), w, es).db.jobs == w.db.jobs
              && t in After(Step(cfg), w, es).db.tasks && After(Step(cfg), w, es).db.tasks[t] != w.db.tasks[t]
  {
    var l :| l in w.logs && w.logs[l].phase.Active? && w.logs[l].phase.stage == Failing && w.logs[l].phase.task == t;
    assert LogOk(w.db, w.logs[l]);
    var phase := w.logs[l].phase;
    var work := if phase.mem.attempt < phase.mem.maxRetries then Requeue("") else Exhaust("");
    OneStep(Step(cfg), w, Work(l, work));
    assert After(Step(cfg), w, [Work(l, work)]) == Worked(w, l, work);
  }

  /** A finished row of a live job is final, whatever is delivered again, exactly when no consumer is between writing
      FAILED on it and writing what follows. In particular a FAILED left behind by unreadable params or a crash stays. */
  lemma FinishedRowIsFinalIff(cfg: Config, w: World, t: Id)
    requires Reachable(cfg, w) && t in w.db.tasks && JobLive(w.db, w.db.tasks[t].jobId) && IsFinished(w.db.tasks[t].status)
    ensures (forall es :: CanRun(Step(cfg), w, es) && JobLive(After(Step(cfg), w, es).db, w.db.tasks[t].jobId) ==>
               t in After(Step(cfg), w, es).db.tasks && After(Step(cfg), w, es).db.tasks[t] == w.db.tasks[t])
            <==> !BeingFailed(w, t)
  {
    ReachableInv(cfg, w);
    var row := w.db.tasks[t];
    if BeingFailed(w, t) {
      FailingMovesOn(cfg, w, t);
    } else {
      forall es | CanRun(Step(cfg), w, es)
        ensures Final(After(Step(cfg), w, es), t, row)
      {
        RunKeepsFinal(cfg, w, es, t, row);
      }
    }
  }

  // ---------------------------------------------------------------- executions stop with the job

  /** A consumer has decided to execute the task and has not called the executor yet. */
  predicate AboutToExecute(phase: Phase, t: Id) {
    phase.Active? && phase.task == t && (phase.stage == Starting || phase.stage == Started)
  }

  predicate ExecutionPending(w: World, t: Id) {
    exists l :: l in w.logs && AboutToExecute(w.logs[l].phase, t)
  }

  ghost predicate Still(w: World, t: Id, n: nat) {
    && t in w.db.tasks && w.db.tasks[t].jobId in w.db.jobs && !JobLive(w.db, w.db.tasks[t].jobId)
    && !ExecutionPending(w, t) && Count(w.history.execs, t) == n
  }

  lemma NobodyStartsExecuting(cfg: Config, w: World, e: Event, next: World, t: Id)
    requires ActiveFrom(cfg, w, e, next) && !ExecutionPending(w, t)
    requires t in w.db.tasks && !JobLive(w.db, w.db.tasks[t].jobId)
    ensures !ExecutionPending(next, t)
  {
  }

  lemma StepKeepsStill(cfg: Config, w: World, e: Event, next: World, t: Id, n: nat)
    requires Follows(cfg, w, e, next) && Still(w, t, n)
    ensures Still(next, t, n)
  {
    LiveBefore(w.db, next.db, Touched(w, e), w.db.tasks[t].jobId);
    NobodyStartsExecuting(cfg, w, e, next, t);
  }

  lemma RunKeepsStill(cfg: Config, w: World, es: seq<Event>, t: Id, n: nat)
    requires Inv(cfg, w) && Still(w, t, n) && CanRun(Step(cfg), w, es)
    ensures Still(After(Step(cfg), w, es), t, n)
  {
    var inv := (s: World) => Still(s, t, n);
    forall s, e, next | Follows(cfg, s, e, next) && inv(s)
      ensures inv(next)
    {
      StepKeepsStill(cfg, s, e, next, t, n);
    }
    StepIsLawful(cfg);
    RunInvariance(cfg, Step(cfg), inv, w, es);
  }

  /** Once a job is over (finished, cancelled, rejected or terminated) a task of it is never executed again, exactly
      when no consumer had already decided to execute it. */
  lemma ExecutionsStopIff(cfg: Config, w: World, t: Id)
    requires Reachable(cfg, w) && t in w.db.tasks && !JobLive(w.db, w.db.tasks[t].jobId)
    ensures (forall es :: CanRun(Step(cfg), w, es) ==>
               Count(After(Step(cfg), w, es).history.execs, t) == Count(w.history.execs, t))
            <==> !ExecutionPending(w, t)
  {
    ReachableInv(cfg, w);
    var n := Count(w.history.execs, t);
    if ExecutionPending(w, t) {
      var l :| l in w.logs && AboutToExecute(w.logs[l].phase, t);
      ExecuteNow(cfg, w, l, t);
    } else {
      forall es | CanRun(Step(cfg), w, es)
        ensures Still(After(Step(cfg), w, es), t, n)
      {
        RunKeepsStill(cfg, w, es, t, n);
      }
    }
  }

  lemma ExecuteNow(cfg: Config, w: World, l: nat, t: Id)
    requires l in w.logs && AboutToExecute(w.logs[l].phase, t)
    ensures exists es :: CanRun(Step(cfg), w, es) && Count(After(Step(cfg), w, es).history.execs, t) > Count(w.history.execs, t)
  {
    if w.logs[l].phase.stage == Started {
      OneStep(Step(cfg), w, Work(l, Execute));
      assert Count(After(Step(cfg), w, [Work(l, Execute)]).history.execs, t) > Count(w.history.execs, t);
    } else {
      var begun := Worked(w, l, Begin);
      OneStep(Step(cfg), w, Work(l, Begin));
      OneStep(Step(cfg), begun, Work(l, Execute));
      Concatenation(Step(cfg), w, [Work(l, Begin)], [Work(l, Execute)]);
      assert Count(After(Step(cfg), w, [Work(l, Begin)] + [Work(l, Execute)]).history.execs, t) > Count(w.history.execs, t);
    }
  }

  // ---------------------------------------------------------------- rejected runs

  /** A run is REJECTED from the start or never. */
  ghost predicate NoneRejected(db: Db, next: Db) {
    forall j :: j in next.jobs && next.jobs[j].status == Rejected ==> j !in db.jobs || db.jobs[j].status == Rejected
  }

  lemma DeliveriesRejectNone(cfg: Config, w: World, e: Event)
    requires CanStep(cfg, w, e) && IsDelivery(e)
    ensures NoneRejected(w.db, Apply(cfg, w, e).db)
  {
  }

  lemma CreationsRejectNone(cfg: Config, w: World, e: Event)
    requires CanStep(cfg, w, e) && IsCreation(e)
    ensures NoneRejected(w.db, Apply(cfg, w, e).db)
  {
  }

  lemma EndingsRejectNone(cfg: Config, w: World, e: Event)
    requires CanStep(cfg, w, e) && IsEnding(e)
    ensures NoneRejected(w.db, Apply(cfg, w, e).db)
  {
  }

  lemma FinalisersRejectNone(cfg: Config, w: World, e: Event)
    requires FinalisersOk(w) && CanStep(cfg, w, e) && !IsDelivery(e) && !IsCreation(e) && !IsEnding(e)
    ensures NoneRejected(w.db, Apply(cfg, w, e).db)
  {
  }

  lemma StepRejectsNone(cfg: Config, w: World, e: Event)
    requires Inv(cfg, w) && CanStep(cfg, w, e)
    ensures NoneRejected(w.db, Apply(cfg, w, e).db)
  {
    if IsDelivery(e) {
      DeliveriesRejectNone(cfg, w, e);
    } else if IsCreation(e) {
      CreationsRejectNone(cfg, w, e);
    } else if IsEnding(e) {
      EndingsRejectNone(cfg, w, e);
    } else {
      FinalisersRejectNone(cfg, w, e);
    }
  }

  predicate IsRejected(db: Db, t: Id) {
    t in db.tasks && db.tasks[t].jobId in db.jobs && db.jobs[db.tasks[t].jobId].status == Rejected
  }

  ghost predicate RejectedInert(w: World) {
    && (forall t :: t !in w.db.tasks || IsRejected(w.db, t) ==> Count(w.history.execs, t) == 0)
    && (forall l :: l in w.logs && w.logs[l].phase.Active? ==> !IsRejected(w.db, w.logs[l].phase.task))
  }

  /** Whoever executes a task after a step executed it, or found its job live, before. */
  lemma ActiveNotRejected(cfg: Config, w: World, e: Event, next: World, l: nat)
    requires LogsOk(w) && ActiveFrom(cfg, w, e, next) && RejectedInert(w) && l in next.logs && next.logs[l].phase.Active?
    ensures next.logs[l].phase.task in w.db.tasks && !IsRejected(w.db, next.logs[l].phase.task)
  {
    assert LogOk(w.db, w.logs[l]);
  }

  lemma NotExecuting(w: World, e: Event, t: Id)
    requires LogsOk(w) && RejectedInert(w) && (t !in w.db.tasks || IsRejected(w.db, t))
    ensures !Executes(w, e, t)
  {
    assert e.Work? && e.l in w.logs ==> LogOk(w.db, w.logs[e.l]);
  }

  lemma StepKeepsRejectedInert(cfg: Config, w: World, e: Event, next: World)
    requires Follows(cfg, w, e, next) && NoneRejected(w.db, next.db) && RejectedInert(w)
    ensures RejectedInert(next)
  {
    forall l | l in next.logs && next.logs[l].phase.Active?
      ensures !IsRejected(next.db, next.logs[l].phase.task)
    {
      ActiveNotRejected(cfg, w, e, next, l);
      OldTaskNotRejected(w.db, next.db, Touched(w, e), next.logs[l].phase.task);
    }
    forall t | t !in next.db.tasks || IsRejected(next.db, t)
      ensures Count(next.history.execs, t) == 0
    {
      if t in w.db.tasks {
        OldTaskNotRejected(w.db, next.db, Touched(w, e), t);
      }
      NotExecuting(w, e, t);
    }
  }

  lemma OldTaskNotRejected(db: Db, next: Db, touched: set<Id>, t: Id)
    requires Changes(db, next, touched) && NoneRejected(db, next) && t in db.tasks && db.tasks[t].jobId in db.jobs
    ensures IsRejected(next, t) ==> IsRejected(db, t)
  {
  }

  ghost predicate RejectedInv(cfg: Config, w: World) {
    Inv(cfg, w) && RejectedInert(w)
  }

  lemma StepKeepsRejected(cfg: Config, w: World, e: Event)
    requires RejectedInv(cfg, w) && CanStep(cfg, w, e)
    ensures RejectedInv(cfg, Apply(cfg, w, e))
  {
    StepFollows(cfg, w, e);
    StepRejectsNone(cfg, w, e);
    StepKeepsRejectedInert(cfg, w, e, Apply(cfg, w, e));
  }

  lemma RunKeepsRejected(cfg: Config, w: World, es: seq<Event>)
    requires RejectedInv(cfg, w) && CanRun(Step(cfg), w, es)
    ensures RejectedInv(cfg, After(Step(cfg), w, es))
  {
    var inv := (s: World) => RejectedInv(cfg, s);
    forall s, e | inv(s) && Step(cfg)(s, e).Some?
      ensures inv(Step(cfg)(s, e).value)
    {
      StepKeepsRejected(cfg, s, e);
    }
    Invariance(Step(cfg), inv, w, es);
  }

  /** A REJECTED run never executes a task, whatever messages there are. */
  lemma RejectedRunsExecuteNothing(cfg: Config, w: World, t: Id)
    requires Reachable(cfg, w) && IsRejected(w.db, t)
    ensures Count(w.history.execs, t) == 0
  {
    var init: World, es: seq<Event> :| IsInitial(init) && CanRun(Step(cfg), init, es) && After(Step(cfg), init, es) == w;
    InitiallyInert(cfg, init);
    RunKeepsRejected(cfg, init, es);
  }

  lemma InitiallyInert(cfg: Config, init: World)
    requires IsInitial(init)
    ensures RejectedInv(cfg, init)
  {
  }
}
