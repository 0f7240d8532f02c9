/** A finaliser reads a job's task counts, and only later writes the outcome it drew from them. When is the outcome
    still right? A failing task is written FAILED and then put back to PENDING by two separate updates; the
    finaliser counts FAILED as finished, so a summary read between the two can be overtaken. */
module StaleSummary {
  import opened Options
  import opened Domain
  import opened Store
  import opened Finalizer
  import opened Runs
  import opened Protocol
  import opened Invariants
  import opened ExactlyOnce

  /** A consumer has written FAILED on a task that has attempts left, and not yet put it back to PENDING. */
  predicate HalfRetried(phase: Phase) {
    phase.Active? && phase.stage == Failing && phase.mem.attempt < phase.mem.maxRetries
  }

  predicate RetryUnderWay(w: World, j: Id) {
    exists l :: l in w.logs && HalfRetried(w.logs[l].phase) && w.logs[l].phase.mem.jobId == j
  }

  /** As long as the job is RUNNING: its tasks are finished, resolve to `status`, and none is about to be retried. */
  ghost predicate Frozen(w: World, j: Id, status: Status) {
    && j in w.db.jobs && w.db.jobs[j].status != Pending
    && (JobRunning(w.db, j) ==> Resolution(w.db, j) == Some(status) && !RetryUnderWay(w, j))
  }

  /** A step on a finished row of a live job can only be the exhaustion of a failed task. */
  lemma OnlyExhaustionIsLeft(row: Task, phase: Phase, work: WorkStep)
    requires CanWork(phase, work) && InStep(row, phase, true) && IsFinished(row.status) && !HalfRetried(phase)
    ensures row.status == Failed && WorkedRow(row, phase, work).status == MaxRetriesExhausted
    ensures !HalfRetried(NextPhase(phase, work))
  {
  }

  /** Replacing one finished, uncompleted row by another changes no outcome. */
  lemma SameOutcome(db: Db, next: Db, j: Id, t: Id)
    requires t in db.tasks && db.tasks[t].jobId == j
    requires next.tasks.Keys >= db.tasks.Keys && next.tasks[t].jobId == j
    requires forall u :: u in next.tasks && next.tasks[u].jobId == j ==> u in db.tasks && (u != t ==> next.tasks[u] == db.tasks[u])
    requires forall u :: u in db.tasks && u != t && db.tasks[u].jobId == j ==> next.tasks[u] == db.tasks[u]
    requires db.tasks[t].status == Failed && next.tasks[t].status == MaxRetriesExhausted
    ensures Resolution(next, j) == Resolution(db, j)
  {
    assert AllFinished(db, j) <==> AllFinished(next, j) by {
      if !AllFinished(db, j) {
        var u :| u in db.tasks && db.tasks[u].jobId == j && !IsFinished(db.tasks[u].status);
        assert next.tasks[u] == db.tasks[u];
      }
    }
    if u :| u in db.tasks && db.tasks[u].jobId == j && db.tasks[u].status == Completed {
      assert next.tasks[u] == db.tasks[u];
    }
  }

  lemma UnchangedOutcome(db: Db, next: Db, j: Id)
    requires forall t :: t in db.tasks && db.tasks[t].jobId == j ==> t in next.tasks && next.tasks[t] == db.tasks[t]
    requires forall t :: t in next.tasks && next.tasks[t].jobId == j ==> t in db.tasks && db.tasks[t].jobId == j
    ensures Resolution(next, j) == Resolution(db, j)
  {
    assert forall t :: t in next.tasks && next.tasks[t].jobId == j ==> next.tasks[t] == db.tasks[t];
    assert AllFinished(db, j) <==> AllFinished(next, j);
    if t :| t in db.tasks && db.tasks[t].jobId == j && db.tasks[t].status == Completed {
      assert next.tasks[t].status == Completed;
    }
    if t :| t in db.tasks && db.tasks[t].jobId == j && db.tasks[t].status != Completed {
      assert next.tasks[t].status != Completed;
    }
  }

  lemma WorkKeepsOutcome(cfg: Config, db: Db, log: Log, work: WorkStep, j: Id)
    requires RowsOk(cfg, db) && LogOk(db, log) && CanWork(log.phase, work)
    requires JobLive(db, j) && AllFinished(db, j) && (log.phase.mem.jobId == j ==> !HalfRetried(log.phase))
    ensures Resolution(WorkedDb(db, log.phase, work), j) == Resolution(db, j)
    ensures var next := NextPhase(log.phase, work); HalfRetried(next) ==> next.mem.jobId != j
  {
    var phase, next := log.phase, WorkedDb(db, log.phase, work);
    var row := db.tasks[phase.task];
    if row.jobId == j {
      assert IsFinished(row.status);
      OnlyExhaustionIsLeft(row, phase, work);
      SameOutcome(db, next, j, phase.task);
    } else {
      UnchangedOutcome(db, next, j);
    }
  }

  lemma WorkKeepsFrozen(cfg: Config, w: World, l: nat, work: WorkStep, j: Id, status: Status)
    requires Inv(cfg, w) && l in w.logs && CanWork(w.logs[l].phase, work) && Frozen(w, j, status)
    ensures Frozen(Worked(w, l, work), j, status)
  {
    var next := Worked(w, l, work);
    assert next.db.jobs == w.db.jobs;
    if JobRunning(w.db, j) {
      assert Resolution(next.db, j) == Some(status) && !(HalfRetried(next.logs[l].phase) && next.logs[l].phase.mem.jobId == j) by {
        WorkKeepsOutcome(cfg, w.db, w.logs[l], work, j);
      }
      assert !RetryUnderWay(next, j) by {
        forall m | m in w.logs && m != l
          ensures next.logs[m] == w.logs[m]
        {
        }
      }
    }
  }

  lemma NoNewRetry(cfg: Config, w: World, e: Event, next: World, j: Id)
    requires ActiveFrom(cfg, w, e, next) && !e.Work? && !RetryUnderWay(w, j)
    ensures !RetryUnderWay(next, j)
  {
  }

  lemma OutcomeKept(db: Db, next: Db, j: Id)
    requires Changes(db, next, {}) && j in db.jobs && db.jobs[j].status != Pending && JobRunning(next, j)
    ensures Resolution(next, j) == Resolution(db, j)
  {
    UnchangedOutcome(db, next, j);
  }

  lemma RunningBefore(db: Db, next: Db, touched: set<Id>, j: Id)
    requires Changes(db, next, touched) && j in db.jobs && db.jobs[j].status != Pending
    ensures j in next.jobs && next.jobs[j].status != Pending && (JobRunning(next, j) ==> JobRunning(db, j))
  {
  }

  lemma StepKeepsFrozen(cfg: Config, w: World, e: Event, next: World, j: Id, status: Status)
    requires Follows(cfg, w, e, next) && Frozen(w, j, status)
    ensures Frozen(next, j, status)
  {
    if e.Work? {
      WorkKeepsFrozen(cfg, w, e.l, e.work, j, status);
    } else {
      OtherKeepsFrozen(cfg, w, e, next, j, status);
    }
  }

  lemma OtherKeepsFrozen(cfg: Config, w: World, e: Event, next: World, j: Id, status: Status)
    requires Changes(w.db, next.db, {}) && ActiveFrom(cfg, w, e, next) && !e.Work? && Frozen(w, j, status)
    ensures Frozen(next, j, status)
  {
    RunningBefore(w.db, next.db, {}, j);
    if JobRunning(next.db, j) {
      OutcomeKept(w.db, next.db, j);
      NoNewRetry(cfg, w, e, next, j);
    }
  }

  /** After the summary read, whatever happens, the outcome drawn from it agrees with the job's rows for as long as
      the job is RUNNING, that is, for as long as the compare-and-set can succeed. */
  ghost predicate StaysRight(cfg: Config, w: World, j: Id, status: Status) {
    forall es :: CanRun(Step(cfg), w, es) && JobRunning(After(Step(cfg), w, es).db, j) ==>
      Resolution(After(Step(cfg), w, es).db, j) == Some(status)
  }

  lemma FrozenStaysRight(cfg: Config, w: World, j: Id, status: Status)
    requires Inv(cfg, w) && Frozen(w, j, status)
    ensures StaysRight(cfg, w, j, status)
  {
    forall es | CanRun(Step(cfg), w, es)
      ensures Frozen(After(Step(cfg), w, es), j, status)
    {
      var inv := (s: World) => Frozen(s, j, status);
      forall s, e, next | Follows(cfg, s, e, next) && inv(s)
        ensures inv(next)
      {
        StepKeepsFrozen(cfg, s, e, next, j, status);
      }
      StepIsLawful(cfg);
      RunInvariance(cfg, Step(cfg), inv, w, es);
    }
  }

  lemma RequeueUnsettles(cfg: Config, w: World, l: nat, j: Id)
    requires Inv(cfg, w) && JobRunning(w.db, j)
    requires l in w.logs && HalfRetried(w.logs[l].phase) && w.logs[l].phase.mem.jobId == j
    requires CanWork(w.logs[l].phase, Requeue(""))
    ensures JobRunning(Worked(w, l, Requeue("")).db, j) && Resolution(Worked(w, l, Requeue("")).db, j) == None
  {
    assert LogOk(w.db, w.logs[l]);
    var t, next := w.logs[l].phase.task, Worked(w, l, Requeue(""));
    assert next.db.tasks[t].status == Pending && next.db.tasks[t].jobId == j;
    assert !AllFinished(next.db, j);
  }

  /** One step, putting the failed task back to PENDING, makes the outcome wrong while the job is still RUNNING. */
  lemma OvertakenByRetry(cfg: Config, w: World, l: nat, j: Id)
    requires Inv(cfg, w) && JobRunning(w.db, j)
    requires l in w.logs && HalfRetried(w.logs[l].phase) && w.logs[l].phase.mem.jobId == j
    ensures var es := [Work(l, Requeue(""))];
      CanRun(Step(cfg), w, es) && JobRunning(After(Step(cfg), w, es).db, j) && Resolution(After(Step(cfg), w, es).db, j) == None
  {
    assert LogOk(w.db, w.logs[l]);
    OneStep(Step(cfg), w, Work(l, Requeue("")));
    RequeueUnsettles(cfg, w, l, j);
  }

  /** The stale summary, exactly: a finaliser that finds a RUNNING job ready holds an outcome that every later moment
      confirms, up to the compare-and-set, if and only if no consumer was half-way through retrying one of the
      job's tasks when the summary was read. */
  lemma SummaryStaysRightIff(cfg: Config, w: World, f: nat, status: Status)
    requires Reachable(cfg, w) && f in w.finalisers && w.finalisers[f].Seen? && JobRunning(w.db, w.finalisers[f].job)
    requires SummaryRead(w, f).finalisers == w.finalisers[f := Resolved(w.finalisers[f].job, status)]
    ensures StaysRight(cfg, SummaryRead(w, f), w.finalisers[f].job, status) <==> !RetryUnderWay(w, w.finalisers[f].job)
  {
    ReachableInv(cfg, w);
    SummaryGives(cfg, w, f, status);
    var j, next := w.finalisers[f].job, SummaryRead(w, f);
    if RetryUnderWay(w, j) {
      var l :| l in w.logs && HalfRetried(w.logs[l].phase) && w.logs[l].phase.mem.jobId == j;
      OvertakenByRetry(cfg, next, l, j);
    } else {
      FrozenStaysRight(cfg, next, j, status);
    }
  }

  lemma SummaryGives(cfg: Config, w: World, f: nat, status: Status)
    requires Inv(cfg, w) && f in w.finalisers && w.finalisers[f].Seen? && JobRunning(w.db, w.finalisers[f].job)
    requires SummaryRead(w, f).finalisers == w.finalisers[f := Resolved(w.finalisers[f].job, status)]
    ensures Inv(cfg, SummaryRead(w, f)) && SummaryRead(w, f).db == w.db && SummaryRead(w, f).logs == w.logs
    ensures Resolution(w.db, w.finalisers[f].job) == Some(status)
  {
    SummaryKeeps(cfg, w, f);
    SummaryAgrees(w.db, w.finalisers[f].job);
    assert f in SummaryRead(w, f).finalisers && SummaryRead(w, f).finalisers[f] == Resolved(w.finalisers[f].job, status);
  }
}
