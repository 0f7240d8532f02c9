/** What becomes of the tasks of a cancelled run when consumers were at work on them. */
module Cancelled {
  import opened Options
  import opened Domain
  import opened Store
  import opened Runs
  import opened Protocol
  import opened Invariants

  /** The statuses cancelling previous runs takes away from their tasks. */
  predicate IsOpen(status: Status) {
    status in {Pending, Running, Failed}
  }

  /** The consumer will write one of them: it has loaded the task and not yet written how the attempt went, or it has
      written FAILED and attempts remain. */
  predicate StillWrites(phase: Phase, t: Id) {
    && phase.Active? && phase.task == t
    && (phase.stage in {Starting, Started, Executing} || (phase.stage == Failing && phase.mem.attempt < phase.mem.maxRetries))
  }

  predicate AtWork(w: World, t: Id) {
    exists l :: l in w.logs && StillWrites(w.logs[l].phase, t)
  }

  predicate OfCancelled(db: Db, t: Id) {
    t in db.tasks && db.tasks[t].jobId in db.jobs && db.jobs[db.tasks[t].jobId].status == Cancelled
  }

  ghost predicate Closed(w: World, t: Id) {
    OfCancelled(w.db, t) && !IsOpen(w.db.tasks[t].status) && !AtWork(w, t)
  }

  /** Cancelled is for ever. */
  lemma StaysCancelled(db: Db, next: Db, touched: set<Id>, t: Id)
    requires Changes(db, next, touched) && OfCancelled(db, t)
    ensures OfCancelled(next, t)
    ensures t !in touched && !IsOpen(db.tasks[t].status) ==> !IsOpen(next.tasks[t].status)
  {
    LiveBefore(db, next, touched, db.tasks[t].jobId);
  }

  lemma NobodyComesToWork(cfg: Config, w: World, e: Event, next: World, t: Id)
    requires ActiveFrom(cfg, w, e, next) && OfCancelled(w.db, t) && !AtWork(w, t)
    ensures !AtWork(next, t)
  {
  }

  /** Of the consumers executing a task that will not write an open status, one can still exhaust it. */
  lemma OnlyExhausts(phase: Phase, work: WorkStep, row: Task)
    requires CanWork(phase, work) && !StillWrites(phase, phase.task)
    ensures WorkedRow(row, phase, work).status == MaxRetriesExhausted
  {
  }

  lemma WorkKeepsClosed(w: World, l: nat, work: WorkStep, t: Id)
    requires l in w.logs && CanWork(w.logs[l].phase, work) && Closed(w, t)
    ensures t in Worked(w, l, work).db.tasks && !IsOpen(Worked(w, l, work).db.tasks[t].status)
  {
    var phase := w.logs[l].phase;
    if phase.task == t {
      assert !StillWrites(phase, t);
      OnlyExhausts(phase, work, w.db.tasks[t]);
    }
  }

  lemma StepKeepsClosed(cfg: Config, w: World, e: Event, next: World, t: Id)
    requires Follows(cfg, w, e, next) && Closed(w, t)
    ensures Closed(next, t)
  {
    StaysCancelled(w.db, next.db, Touched(w, e), t);
    NobodyComesToWork(cfg, w, e, next, t);
    if e.Work? {
      WorkKeepsClosed(w, e.l, e.work, t);
    }
  }

  lemma RunKeepsClosed(cfg: Config, w: World, es: seq<Event>, t: Id)
    requires Inv(cfg, w) && Closed(w, t) && CanRun(Step(cfg), w, es)
    ensures Closed(After(Step(cfg), w, es), t)
  {
    var inv := (s: World) => Closed(s, t);
    forall s, e, next | Follows(cfg, s, e, next) && inv(s)
      ensures inv(next)
    {
      StepKeepsClosed(cfg, s, e, next, t);
    }
    StepIsLawful(cfg);
    RunInvariance(cfg, Step(cfg), inv, w, es);
  }

  /** The write that opens the task again. */
  function Opening(phase: Phase): WorkStep {
    if phase.Active? then
      match phase.stage
      case Starting => Begin
      case Started => RejectParams("")
      case Executing => Fail
      case _ => Requeue("")
    else Begin
  }

  lemma OpensAgain(cfg: Config, w: World, t: Id)
    requires t in w.db.tasks && AtWork(w, t)
    requires forall l :: l in w.logs && StillWrites(w.logs[l].phase, t) && w.logs[l].phase.stage == Starting ==> w.logs[l].phase.mem.status == Running
    ensures exists es :: CanRun(Step(cfg), w, es) && t in After(Step(cfg), w, es).db.tasks && IsOpen(After(Step(cfg), w, es).db.tasks[t].status)
  {
    var l :| l in w.logs && StillWrites(w.logs[l].phase, t);
    var e := Work(l, Opening(w.logs[l].phase));
    OneStep(Step(cfg), w, e);
    assert After(Step(cfg), w, [e]) == Worked(w, l, Opening(w.logs[l].phase));
  }

  /** A task of a cancelled run that reads none of PENDING, RUNNING and FAILED never reads one of them again, along any run,
      if and only if no consumer is at work on it that has not yet written its attempt's outcome. */
  lemma CancelledTaskStaysClosedIff(cfg: Config, w: World, t: Id)
    requires Reachable(cfg, w) && OfCancelled(w.db, t) && !IsOpen(w.db.tasks[t].status)
    ensures (forall es :: CanRun(Step(cfg), w, es) ==> t in After(Step(cfg), w, es).db.tasks && !IsOpen(After(Step(cfg), w, es).db.tasks[t].status))
            <==> !AtWork(w, t)
  {
    ReachableInv(cfg, w);
    if AtWork(w, t) {
      forall l | l in w.logs && StillWrites(w.logs[l].phase, t) && w.logs[l].phase.stage == Starting
        ensures w.logs[l].phase.mem.status == Running
      {
        assert LogOk(w.db, w.logs[l]);
      }
      OpensAgain(cfg, w, t);
    } else {
      forall es | CanRun(Step(cfg), w, es)
        ensures Closed(After(Step(cfg), w, es), t)
      {
        RunKeepsClosed(cfg, w, es, t);
      }
    }
  }

  lemma ClearedIsClosed(w: World, p: nat, j: Id, t: Id)
    requires CanClear(w, p) && SupersededBy(w.db, w.db.jobs[w.starters[p].job].name, w.starters[p].job, j) && t in TasksOf(w.db, j)
    ensures OfCancelled(Cleared(w, p).db, t) && !IsOpen(Cleared(w, p).db.tasks[t].status) && Cleared(w, p).logs == w.logs
  {
  }

  /** So the tasks of the runs a trigger cancels keep no PENDING, RUNNING or FAILED status, now and ever after, exactly those
      excepted that a consumer is at work on when the runs are cancelled. */
  lemma PreviousTasksStayClosedIff(cfg: Config, w: World, p: nat, j: Id, t: Id)
    requires Reachable(cfg, w) && CanClear(w, p) && ClearsNoStarter(w, p)
    requires SupersededBy(w.db, w.db.jobs[w.starters[p].job].name, w.starters[p].job, j) && t in TasksOf(w.db, j)
    ensures (forall es :: CanRun(Step(cfg), Cleared(w, p), es) ==>
               t in After(Step(cfg), Cleared(w, p), es).db.tasks && !IsOpen(After(Step(cfg), Cleared(w, p), es).db.tasks[t].status))
            <==> !AtWork(w, t)
  {
    OneEvent(cfg, w, ClearPrevious(p));
    ByRun(cfg, w, [ClearPrevious(p)], Cleared(w, p));
    StillReachable(cfg, w, Cleared(w, p));
    ClearedIsClosed(w, p, j, t);
    CancelledTaskStaysClosedIff(cfg, Cleared(w, p), t);
  }
}
