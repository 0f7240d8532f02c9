/** FAILED rows of live jobs that nobody will take up again: where they come from, and that they stay. */
module Stranded {
  import opened Options
  import opened Domain
  import opened Store
  import opened Finalizer
  import opened Runs
  import opened Protocol
  import opened Invariants
  import opened Lifecycle
  import opened Bounded
  import opened Lineage

  /** The row reads FAILED, and no consumer is about to write what follows. */
  predicate IsStranded(w: World, t: Id) {
    t in w.db.tasks && w.db.tasks[t].status == Failed && !BeingFailed(w, t)
  }

  /** The consumer refuses the task's params, or crashes between writing FAILED and writing what follows. */
  predicate GivesUp(w: World, e: Event, t: Id) {
    || (e.Work? && e.work.RejectParams? && e.l in w.logs && IsActive(w.logs[e.l].phase, t))
    || (e.CrashConsumer? && e.l in w.logs && IsActive(w.logs[e.l].phase, t) && w.logs[e.l].phase.stage == Failing)
  }

  /** A step, with what a crash leaves of the consumer. */
  ghost predicate Steps(cfg: Config, w: World, e: Event, next: World) {
    && Follows(cfg, w, e, next) && ActiveUntil(w, e, next)
    && (e.CrashConsumer? ==> e.l in w.logs && next == CrashedConsumer(w, e.l))
  }

  lemma StepSteps(cfg: Config, w: World, e: Event)
    requires Inv(cfg, w) && CanStep(cfg, w, e)
    ensures Steps(cfg, w, e, Apply(cfg, w, e))
  {
    StepFollows(cfg, w, e);
    StepEnds(cfg, w, e);
  }

  // ---------------------------------------------------------------- one step

  /** The one consumer active for the task leaves it. */
  lemma NobodyFails(w: World, next: World, l: nat, t: Id)
    requires NoOverlap(w) && l in w.logs && IsActive(w.logs[l].phase, t)
    requires l in next.logs && next.logs == w.logs[l := next.logs[l]] && !next.logs[l].phase.Active?
    ensures !BeingFailed(next, t)
  {
    assert IsBusy(w.logs[l].phase, t);
  }

  lemma RefusalStrands(w: World, l: nat, text: string, t: Id)
    requires LogsOk(w) && NoOverlap(w) && l in w.logs && CanWork(w.logs[l].phase, RejectParams(text)) && IsActive(w.logs[l].phase, t)
    ensures IsStranded(Worked(w, l, RejectParams(text)), t)
  {
    assert LogOk(w.db, w.logs[l]);
    NobodyFails(w, Worked(w, l, RejectParams(text)), l, t);
  }

  lemma CrashStrands(w: World, l: nat, t: Id)
    requires LogsOk(w) && NoOverlap(w) && l in w.logs && IsActive(w.logs[l].phase, t) && w.logs[l].phase.stage == Failing
    requires t in w.db.tasks && JobLive(w.db, w.db.tasks[t].jobId)
    ensures IsStranded(CrashedConsumer(w, l), t)
  {
    assert LogOk(w.db, w.logs[l]);
    NobodyFails(w, CrashedConsumer(w, l), l, t);
  }

  lemma StaysStranded(cfg: Config, w: World, e: Event, next: World, t: Id)
    requires Steps(cfg, w, e, next) && IsStranded(w, t) && JobLive(next.db, w.db.tasks[t].jobId)
    ensures IsStranded(next, t)
  {
    var row := w.db.tasks[t];
    LiveBefore(w.db, next.db, Touched(w, e), row.jobId);
    StepKeepsFinal(cfg, w, e, next, t, row);
  }

  lemma WorkOutOfFailing(w: World, l: nat, work: WorkStep, t: Id)
    requires l in w.logs && IsActive(w.logs[l].phase, t) && w.logs[l].phase.stage == Failing && CanWork(w.logs[l].phase, work) && t in w.db.tasks
    ensures Worked(w, l, work).db.tasks[t].status != Failed
  {
  }

  /** The consumer that wrote FAILED is no longer about to write what follows, and has not written it: it crashed. */
  lemma LeftFailing(cfg: Config, w: World, e: Event, next: World, l: nat, t: Id)
    requires Steps(cfg, w, e, next) && l in w.logs && IsActive(w.logs[l].phase, t) && w.logs[l].phase.stage == Failing
    requires t in w.db.tasks && IsStranded(next, t)
    ensures GivesUp(w, e, t)
  {
    assert l in next.logs && next.logs[l].phase != w.logs[l].phase;
    if e.Work? && e.l == l {
      WorkOutOfFailing(w, l, e.work, t);
    }
  }

  lemma WorkToFailed(w: World, l: nat, work: WorkStep, t: Id)
    requires LogsOk(w) && l in w.logs && CanWork(w.logs[l].phase, work) && IsActive(w.logs[l].phase, t) && t in w.db.tasks
    requires w.db.tasks[t].status != Failed && Worked(w, l, work).db.tasks[t].status == Failed
    ensures work.RejectParams? || (work.Fail? && BeingFailed(Worked(w, l, work), t))
  {
    assert LogOk(w.db, w.logs[l]);
    assert Worked(w, l, work).logs[l].phase == NextPhase(w.logs[l].phase, work);
  }

  /** The row is written FAILED, and the writer is not about to write what follows: it refused the params. */
  lemma LeftFailed(cfg: Config, w: World, e: Event, next: World, t: Id)
    requires Steps(cfg, w, e, next) && t in Touched(w, e) && t in w.db.tasks && w.db.tasks[t].status != Failed && IsStranded(next, t)
    ensures GivesUp(w, e, t)
  {
    WorkToFailed(w, e.l, e.work, t);
  }

  /** A row nobody had left FAILED is left so by giving up. */
  lemma StrandedBy(cfg: Config, w: World, e: Event, next: World, t: Id)
    requires Steps(cfg, w, e, next) && t in w.db.tasks && !IsStranded(w, t) && IsStranded(next, t) && JobLive(next.db, w.db.tasks[t].jobId)
    ensures GivesUp(w, e, t)
  {
    if BeingFailed(w, t) {
      var l :| l in w.logs && IsActive(w.logs[l].phase, t) && w.logs[l].phase.stage == Failing;
      LeftFailing(cfg, w, e, next, l, t);
    } else {
      UntouchedUnlessWorked(cfg, w, e, next, t);
      LeftFailed(cfg, w, e, next, t);
    }
  }

  lemma UntouchedUnlessWorked(cfg: Config, w: World, e: Event, next: World, t: Id)
    requires Follows(cfg, w, e, next) && t in w.db.tasks && JobLive(next.db, w.db.tasks[t].jobId)
    requires next.db.tasks[t] != w.db.tasks[t]
    ensures t in Touched(w, e)
  {
    if t !in Touched(w, e) {
      UntouchedRow(w.db, next.db, Touched(w, e), t);
    }
  }

  lemma StepStrandsIff(cfg: Config, w: World, e: Event, next: World, t: Id)
    requires Steps(cfg, w, e, next) && t in w.db.tasks && JobLive(next.db, w.db.tasks[t].jobId)
    ensures IsStranded(next, t) <==> IsStranded(w, t) || GivesUp(w, e, t)
  {
    LiveBefore(w.db, next.db, Touched(w, e), w.db.tasks[t].jobId);
    if IsStranded(w, t) {
      StaysStranded(cfg, w, e, next, t);
    } else if GivesUp(w, e, t) {
      if e.Work? {
        RefusalStrands(w, e.l, e.work.text, t);
      } else {
        CrashStrands(w, e.l, t);
      }
    } else if IsStranded(next, t) {
      StrandedBy(cfg, w, e, next, t);
    }
  }

  /** Tasks of live jobs begin PENDING. */
  lemma NewTasksArePending(cfg: Config, w: World, e: Event, t: Id)
    requires Inv(cfg, w) && CanStep(cfg, w, e) && t !in w.db.tasks && t in Apply(cfg, w, e).db.tasks
    ensures var next := Apply(cfg, w, e).db; JobLive(next, next.tasks[t].jobId) ==> next.tasks[t].status == Pending
  {
    if IsDelivery(e) {
      DeliveriesInsertNothing(cfg, w, e);
    } else if IsEnding(e) {
      EndingsInsertNothing(cfg, w, e);
    } else if !Inserts(e) {
      RestInsertsNothing(cfg, w, e);
    }
  }

  lemma GivesUpOnOldTask(w: World, e: Event, t: Id)
    requires LogsOk(w) && GivesUp(w, e, t)
    ensures t in w.db.tasks
  {
    assert LogOk(w.db, w.logs[e.l]);
  }

  // ---------------------------------------------------------------- whole runs

  ghost predicate GivesUpAt(cfg: Config, init: World, es: seq<Event>, i: nat, t: Id) {
    i < |es| && CanRun(Step(cfg), init, es[..i]) && GivesUp(After(Step(cfg), init, es[..i]), es[i], t)
  }

  ghost predicate GivenUp(cfg: Config, init: World, es: seq<Event>, t: Id) {
    exists i: nat :: GivesUpAt(cfg, init, es, i, t)
  }

  lemma GivenUpStill(cfg: Config, init: World, es: seq<Event>, i: nat, t: Id)
    requires es != []
    ensures GivesUpAt(cfg, init, es[..|es| - 1], i, t) <==> i < |es| - 1 && GivesUpAt(cfg, init, es, i, t)
  {
    if i < |es| - 1 {
      assert es[..|es| - 1][..i] == es[..i];
    }
  }

  lemma GivenUpOneMore(cfg: Config, init: World, es: seq<Event>, t: Id)
    requires es != [] && CanRun(Step(cfg), init, es[..|es| - 1])
    ensures GivenUp(cfg, init, es, t) <==>
              GivenUp(cfg, init, es[..|es| - 1], t) || GivesUp(After(Step(cfg), init, es[..|es| - 1]), es[|es| - 1], t)
  {
    var last := |es| - 1;
    forall i: nat
      ensures GivesUpAt(cfg, init, es[..last], i, t) <==> i < last && GivesUpAt(cfg, init, es, i, t)
    {
      GivenUpStill(cfg, init, es, i, t);
    }
    assert GivesUpAt(cfg, init, es, last, t) <==> GivesUp(After(Step(cfg), init, es[..last]), es[last], t);
  }

  /** What holds after every run of a task that is there, and of one that is not there yet. */
  ghost predicate StrandedSo(cfg: Config, init: World, es: seq<Event>, w: World, t: Id) {
    if t !in w.db.tasks then !GivenUp(cfg, init, es, t)
    else JobLive(w.db, w.db.tasks[t].jobId) ==> (IsStranded(w, t) <==> GivenUp(cfg, init, es, t))
  }

  lemma StepKeepsSo(cfg: Config, init: World, es: seq<Event>, w: World, next: World, t: Id)
    requires es != [] && CanRun(Step(cfg), init, es) && CanRun(Step(cfg), init, es[..|es| - 1])
    requires Inv(cfg, w) && w == After(Step(cfg), init, es[..|es| - 1]) && CanStep(cfg, w, es[|es| - 1]) && next == Apply(cfg, w, es[|es| - 1])
    requires StrandedSo(cfg, init, es[..|es| - 1], w, t)
    ensures StrandedSo(cfg, init, es, next, t)
  {
    var e := es[|es| - 1];
    StepSteps(cfg, w, e);
    GivenUpOneMore(cfg, init, es, t);
    if t in w.db.tasks {
      if JobLive(next.db, w.db.tasks[t].jobId) {
        LiveBefore(w.db, next.db, Touched(w, e), w.db.tasks[t].jobId);
        StepStrandsIff(cfg, w, e, next, t);
      }
    } else {
      assert !GivesUp(w, e, t) by {
        if GivesUp(w, e, t) {
          GivesUpOnOldTask(w, e, t);
        }
      }
      if t in next.db.tasks {
        NewTasksArePending(cfg, w, e, t);
      }
    }
  }

  lemma {:induction false} RunStrandsSo(cfg: Config, init: World, es: seq<Event>, t: Id)
    requires IsInitial(init) && CanRun(Step(cfg), init, es)
    ensures Inv(cfg, After(Step(cfg), init, es)) && StrandedSo(cfg, init, es, After(Step(cfg), init, es), t)
    decreases |es|
  {
    RunKeeps(cfg, init, es);
    if es != [] {
      LastStep(Step(cfg), init, es);
      RunStrandsSo(cfg, init, es[..|es| - 1], t);
      StepKeepsSo(cfg, init, es, After(Step(cfg), init, es[..|es| - 1]), After(Step(cfg), init, es), t);
    }
  }

  /** After every run: the row of a task of a live job reads FAILED with no consumer at it if and only if some time during
      the run a consumer refused the task's params, or crashed between writing FAILED and writing what follows. */
  lemma StrandedIff(cfg: Config, init: World, es: seq<Event>, t: Id)
    requires IsInitial(init) && CanRun(Step(cfg), init, es)
    requires var w := After(Step(cfg), init, es); t in w.db.tasks && JobLive(w.db, w.db.tasks[t].jobId)
    ensures IsStranded(After(Step(cfg), init, es), t) <==> exists i: nat :: GivesUpAt(cfg, init, es, i, t)
  {
    RunStrandsSo(cfg, init, es, t);
  }

  // ---------------------------------------------------------------- and stay

  /** The task's row stays as it is while its job is live, and nobody executes the task. */
  ghost predicate Dead(w: World, t: Id, row: Task, n: nat) {
    && Final(w, t, row) && row.status == Failed && row.jobId in w.db.jobs && !ExecutionPending(w, t) && Count(w.history.execs, t) == n
  }

  lemma StepKeepsDead(cfg: Config, w: World, e: Event, next: World, t: Id, row: Task, n: nat)
    requires Follows(cfg, w, e, next) && Dead(w, t, row, n)
    ensures Dead(next, t, row, n)
  {
    StepKeepsFinal(cfg, w, e, next, t, row);
    if JobLive(w.db, row.jobId) {
      NobodyTakesItUp(cfg, w, e, next, t);
    } else {
      NobodyStartsExecuting(cfg, w, e, next, t);
    }
  }

  lemma NobodyTakesItUp(cfg: Config, w: World, e: Event, next: World, t: Id)
    requires ActiveFrom(cfg, w, e, next) && !ExecutionPending(w, t) && t in w.db.tasks && w.db.tasks[t].status == Failed
    ensures !ExecutionPending(next, t)
  {
  }

  /** Whoever is at a FAILED task has executed it. */
  lemma FailedIsNotStarted(w: World, t: Id)
    requires LogsOk(w) && t in w.db.tasks && w.db.tasks[t].status == Failed && JobLive(w.db, w.db.tasks[t].jobId)
    ensures !ExecutionPending(w, t)
  {
    forall l | l in w.logs && IsActive(w.logs[l].phase, t)
      ensures w.logs[l].phase.stage == Failing
    {
      assert LogOk(w.db, w.logs[l]);
    }
  }

  /** A stranded task of a live job is never executed again, in any run, however many attempts it had left, and its row
      reads FAILED for as long as the job is live. */
  lemma StrandedIsForEver(cfg: Config, w: World, es: seq<Event>, t: Id)
    requires Reachable(cfg, w) && IsStranded(w, t) && JobLive(w.db, w.db.tasks[t].jobId) && CanRun(Step(cfg), w, es)
    ensures var next := After(Step(cfg), w, es);
      && Count(next.history.execs, t) == Count(w.history.execs, t)
      && (JobLive(next.db, w.db.tasks[t].jobId) ==> t in next.db.tasks && next.db.tasks[t] == w.db.tasks[t])
  {
    ReachableInv(cfg, w);
    var row, n := w.db.tasks[t], Count(w.history.execs, t);
    FailedIsNotStarted(w, t);
    var inv := (s: World) => Dead(s, t, row, n);
    forall s, e, next | Follows(cfg, s, e, next) && inv(s)
      ensures inv(next)
    {
      StepKeepsDead(cfg, s, e, next, t, row, n);
    }
    StepIsLawful(cfg);
    RunInvariance(cfg, Step(cfg), inv, w, es);
  }
}
