/** Runs in which what the exact conditions exclude does happen: one configured job, one partition, a run of one task with
    two attempts or of none, and a clone of it. */
module Witnesses {
  import opened Options
  import opened Domain
  import opened Store
  import opened Finalizer
  import opened Runs
  import opened Protocol
  import opened Invariants
  import opened ExactlyOnce
  import opened StaleSummary
  import opened Lifecycle
  import opened NoLostWork
  import opened Redelivery
  import opened Cancelled
  import opened Bounded
  import opened Stranded
  import opened Lineage
  import opened FullRetry
  import opened Refinement
  import TriggerRefinement

  const CFG: Config := map["job" := JobConfig(false, true, true, 2)]

  function TheJob(status: Status): Job {
    Job(None, "job", status, 2, Some("ref"), 0, false)
  }

  function TheTask(status: Status, attempt: int, result: string): Task {
    Task(0, "task", status, attempt, 2, 0, None, "", result, 0)
  }

  /** Job 0 and its task 1, the partition, and who is at work. */
  function Scene(status: Status, task: Task, log: Log, starters: map<nat, Starter>, finalisers: map<nat, Finaliser>, history: History): World {
    World(Db(map[0 := TheJob(status)], map[1 := task]), map[0 := log], [], starters, finalisers, history)
  }

  const NOTHING_YET := World(Db(map[], map[]), map[0 := Log([], 0, 0, Idle)], [], map[], map[], NO_HISTORY)

  const OPENED := Scene(Pending, TheTask(Pending, 1, ""), Log([], 0, 0, Idle), map[0 := Starter(0, [1], false)], map[], NO_HISTORY)

  const PUBLISHED := Scene(Pending, TheTask(Pending, 1, ""), Log([1], 0, 0, Idle), map[0 := Starter(0, [], false)], map[], NO_HISTORY)

  const STARTED := Scene(Running, TheTask(Pending, 1, ""), Log([1], 0, 0, Idle), map[], map[], NO_HISTORY)

  lemma Opens()
    ensures Leads(CFG, NOTHING_YET, [Open(0, 0, TheJob(Pending), map[1 := TheTask(Pending, 1, "")], [1])], OPENED)
  {
    var job, rows := TheJob(Pending), map[1 := TheTask(Pending, 1, "")];
    var e := Open(0, 0, job, rows, [1]);
    assert ToSet([1]) == {1} == rows.Keys;
    assert [1][0] == 1;
    assert NumberedByPlace(rows, [1]);
    assert Opened(CFG, NOTHING_YET, 0, 0, job, rows, [1]) == OPENED;
    OneEvent(CFG, NOTHING_YET, e);
  }

  lemma Publishes()
    ensures Leads(CFG, OPENED, [Publish(0, 0)], PUBLISHED)
  {
    assert [1][1..] == [] && [] + [1] == [1];
    assert Published(OPENED, 0, 0) == PUBLISHED;
    OneEvent(CFG, OPENED, Publish(0, 0));
  }

  lemma StartsRunning()
    ensures Leads(CFG, PUBLISHED, [Start(0)], STARTED)
  {
    assert PUBLISHED.starters - {0} == map[];
    assert JobStarted(PUBLISHED, 0) == STARTED;
    OneEvent(CFG, PUBLISHED, Start(0));
  }

  lemma PublishedIsReachable()
    ensures Reachable(CFG, PUBLISHED)
  {
    Opens();
    Publishes();
    assert IsInitial(NOTHING_YET);
    Follow(CFG, NOTHING_YET, [Open(0, 0, TheJob(Pending), map[1 := TheTask(Pending, 1, "")], [1])], OPENED, [Publish(0, 0)], PUBLISHED);
  }

  lemma Step1(w: World, e: Event, next: World)
    requires Reachable(CFG, w) && CanStep(CFG, w, e) && Apply(CFG, w, e) == next
    ensures Reachable(CFG, next)
  {
    OneEvent(CFG, w, e);
    ByRun(CFG, w, [e], next);
    StillReachable(CFG, w, next);
  }

  lemma StartedIsReachable()
    ensures Reachable(CFG, STARTED)
  {
    PublishedIsReachable();
    StartsRunning();
    ByRun(CFG, PUBLISHED, [Start(0)], STARTED);
    StillReachable(CFG, PUBLISHED, STARTED);
  }

  // ---------------------------------------------------------------- a delivery

  /** The consumer inside its delivery of the task. */
  function Delivering(status: Status, task: Task, stage: Stage, mem: Task, history: History): World {
    Scene(status, task, Log([1], 0, 0, Active(1, stage, mem)), map[], map[], history)
  }

  const LOADED := Delivering(Running, TheTask(Pending, 1, ""), Starting, TheTask(Running, 1, ""), NO_HISTORY)

  lemma LoadedIsReachable()
    ensures Reachable(CFG, LOADED)
  {
    StartedIsReachable();
    assert Loaded(CFG, STARTED, 0) == LOADED;
    Step1(STARTED, Load(0), LOADED);
  }

  /** What a write of the consumer makes of the scene. */
  function WorkedScene(status: Status, task: Task, stage: Stage, mem: Task, history: History, work: WorkStep): World
    requires CanWork(Active(1, stage, mem), work) && NextPhase(Active(1, stage, mem), work).Active?
  {
    var phase := NextPhase(Active(1, stage, mem), work);
    Delivering(status, WorkedRow(task, Active(1, stage, mem), work), phase.stage, phase.mem, NextHistory(history, 1, work))
  }

  lemma WorkMakesScene(status: Status, task: Task, stage: Stage, mem: Task, history: History, work: WorkStep)
    requires CanWork(Active(1, stage, mem), work) && NextPhase(Active(1, stage, mem), work).Active?
    ensures Worked(Delivering(status, task, stage, mem, history), 0, work) == WorkedScene(status, task, stage, mem, history, work)
  {
  }

  lemma Works(status: Status, task: Task, stage: Stage, mem: Task, history: History, work: WorkStep, next: World)
    requires Reachable(CFG, Delivering(status, task, stage, mem, history)) && CanWork(Active(1, stage, mem), work)
    requires NextPhase(Active(1, stage, mem), work).Active? && next == WorkedScene(status, task, stage, mem, history, work)
    ensures Reachable(CFG, next)
  {
    WorkMakesScene(status, task, stage, mem, history, work);
    Step1(Delivering(status, task, stage, mem, history), Work(0, work), next);
  }

  const ONCE := NO_HISTORY.(execs := map[1 := 1])

  const FAILING := Delivering(Running, TheTask(Failed, 1, ""), Failing, TheTask(Failed, 1, ""), ONCE)

  const REQUEUED := Delivering(Running, TheTask(Pending, 2, ""), Requeueing, TheTask(Pending, 2, ""), ONCE)

  lemma FailingIsReachable()
    ensures Reachable(CFG, FAILING)
  {
    LoadedIsReachable();
    var running := TheTask(Running, 1, "");
    Works(Running, TheTask(Pending, 1, ""), Starting, running, NO_HISTORY, Begin, Delivering(Running, running, Started, running, NO_HISTORY));
    assert Bump(map[], 1) == map[1 := 1];
    Works(Running, running, Started, running, NO_HISTORY, Execute, Delivering(Running, running, Executing, running, ONCE));
    Works(Running, running, Executing, running, ONCE, Fail, FAILING);
  }

  // ---------------------------------------------------------------- a summary overtaken by a retry

  const READING := FAILING.(finalisers := map[0 := Seen(0)])

  lemma ReadingIsReachable()
    ensures Reachable(CFG, READING)
  {
    FailingIsReachable();
    assert Apply(CFG, FAILING, ReadJob(0, 0)) == READING;
    Step1(FAILING, ReadJob(0, 0), READING);
  }

  lemma ReadingSummary()
    ensures SummaryRead(READING, 0).finalisers == READING.finalisers[0 := Resolved(0, Failed)]
  {
    assert TasksOf(READING.db, 0) == {1};
    assert CompletedOf(READING.db, 0) == {};
    assert UnfinishedOf(READING.db, 0) == {};
  }

  /** It happens that a finaliser draws FAILED from its summary and the job's rows say otherwise later, while the job is still
      RUNNING and the compare-and-set can still succeed. */
  lemma SummaryCanBeOvertaken()
    ensures Reachable(CFG, READING) && READING.finalisers[0] == Seen(0) && JobRunning(READING.db, 0)
    ensures SummaryRead(READING, 0).finalisers == READING.finalisers[0 := Resolved(0, Failed)]
    ensures !StaysRight(CFG, SummaryRead(READING, 0), 0, Failed)
  {
    ReadingIsReachable();
    ReadingSummary();
    assert HalfRetried(READING.logs[0].phase) && READING.logs[0].phase.mem.jobId == 0;
    SummaryStaysRightIff(CFG, READING, 0, Failed);
  }

  /** It happens that a row the finaliser counts as finished changes while its job is live. */
  lemma FinishedRowCanChange()
    ensures Reachable(CFG, FAILING) && JobLive(FAILING.db, 0) && IsFinished(FAILING.db.tasks[1].status)
    ensures exists es :: CanRun(Step(CFG), FAILING, es) && JobLive(After(Step(CFG), FAILING, es).db, 0)
              && !(1 in After(Step(CFG), FAILING, es).db.tasks && After(Step(CFG), FAILING, es).db.tasks[1] == FAILING.db.tasks[1])
  {
    FailingIsReachable();
    assert FAILING.logs[0].phase.Active? && BeingFailed(FAILING, 1);
    FinishedRowIsFinalIff(CFG, FAILING, 1);
  }

  // ---------------------------------------------------------------- a cancellation in mid-delivery

  const CANCELLED := Delivering(Cancelled, TheTask(Cancelled, 1, ""), Starting, TheTask(Running, 1, ""), NO_HISTORY)

  lemma CancelledIsReachable()
    ensures Reachable(CFG, CANCELLED)
  {
    LoadedIsReachable();
    CancelsInMidDelivery();
    Step1(LOADED, Cancel(0), CANCELLED);
  }

  lemma CancelsInMidDelivery()
    ensures Terminate(LOADED.db, 0) == CANCELLED.db
  {
  }

  /** It happens that a task is executed after its job is over. */
  lemma ExecutionCanFollowTheEnd()
    ensures Reachable(CFG, CANCELLED) && !JobLive(CANCELLED.db, 0)
    ensures exists es :: CanRun(Step(CFG), CANCELLED, es) && Count(After(Step(CFG), CANCELLED, es).history.execs, 1) != Count(CANCELLED.history.execs, 1)
  {
    CancelledIsReachable();
    assert AboutToExecute(CANCELLED.logs[0].phase, 1);
    ExecutionsStopIff(CFG, CANCELLED, 1);
  }

  /** It happens that a cancelled task of a cancelled run reads PENDING, RUNNING or FAILED again. */
  lemma CancelledTaskCanReopen()
    ensures Reachable(CFG, CANCELLED) && OfCancelled(CANCELLED.db, 1) && !IsOpen(CANCELLED.db.tasks[1].status)
    ensures exists es :: CanRun(Step(CFG), CANCELLED, es)
              && !(1 in After(Step(CFG), CANCELLED, es).db.tasks && !IsOpen(After(Step(CFG), CANCELLED, es).db.tasks[1].status))
  {
    CancelledIsReachable();
    assert StillWrites(CANCELLED.logs[0].phase, 1);
    CancelledTaskStaysClosedIff(CFG, CANCELLED, 1);
  }

  // ---------------------------------------------------------------- a crash after the FAILED write

  const STRANDED := Scene(Running, TheTask(Failed, 1, ""), Log([1], 0, 0, Idle), map[], map[], ONCE.(crashes := map[1 := 1]))

  lemma StrandedIsReachable()
    ensures Reachable(CFG, STRANDED)
  {
    FailingIsReachable();
    FailingCrashes();
    Step1(FAILING, CrashConsumer(0), STRANDED);
  }

  lemma FailingCrashes()
    ensures CrashedConsumer(FAILING, 0) == STRANDED
  {
    assert Bump(map[], 1) == map[1 := 1];
  }

  /** It happens that a task with attempts left reads FAILED in a RUNNING job, its message uncommitted, and no run executes it
      again. */
  lemma AttemptsCanBeForgone(es: seq<Event>)
    requires CanRun(Step(CFG), STRANDED, es)
    ensures Reachable(CFG, STRANDED) && JobRunning(STRANDED.db, 0) && STRANDED.db.tasks[1].status == Failed
    ensures STRANDED.db.tasks[1].attempt < STRANDED.db.tasks[1].maxRetries && LiesAt(STRANDED.logs, 0, 0, 1)
    ensures Count(After(Step(CFG), STRANDED, es).history.execs, 1) == Count(STRANDED.history.execs, 1)
  {
    StrandedIsReachable();
    StrandedIsForEver(CFG, STRANDED, es, 1);
  }

  // ---------------------------------------------------------------- a retry message never written

  lemma RequeuedIsReachable()
    ensures Reachable(CFG, REQUEUED)
  {
    FailingIsReachable();
    Works(Running, TheTask(Failed, 1, ""), Failing, TheTask(Failed, 1, ""), ONCE, Requeue(""), REQUEUED);
  }

  const LOST := Scene(Running, TheTask(Pending, 2, ""), Log([1], 1, 1, Idle), map[], map[], ONCE)

  lemma LostIsReachable()
    ensures Reachable(CFG, LOST)
  {
    UnsentIsReachable();
    UnsentAdvances();
    Step1(UNSENT, Next(0, true), LOST);
  }

  lemma UnsentAdvances()
    ensures Advanced(UNSENT, 0, true) == LOST
  {
  }

  const UNSENT := Scene(Running, TheTask(Pending, 2, ""), Log([1], 0, 0, Done(1)), map[], map[], ONCE)

  lemma UnsentIsReachable()
    ensures Reachable(CFG, UNSENT)
  {
    RequeuedIsReachable();
    assert RetryPublished(REQUEUED, 0, None) == UNSENT;
    Step1(REQUEUED, PublishRetry(0, None), UNSENT);
  }

  /** It happens that a task with attempts left stays PENDING in a RUNNING job and no consumer can ever execute it. */
  lemma WorkCanBeLost()
    ensures Reachable(CFG, LOST) && JobRunning(LOST.db, 0) && LOST.db.tasks[1].status == Pending && LOST.db.tasks[1].attempt <= LOST.db.tasks[1].maxRetries
    ensures !CanBeExecuted(CFG, LOST, 1)
  {
    LostIsReachable();
    forall l, k
      ensures !LiesAt(LOST.logs, l, k, 1)
    {
    }
    ExecutableIff(CFG, LOST, 1);
  }

  // ---------------------------------------------------------------- a start that revives

  /** What the protocol relies on its surroundings to exclude: a run cancelled just before its start, which no guard in the
      program prevents, is revived by it, against the job table. */
  lemma StartRevives(cfg: Config, w: World, p: nat)
    requires Reachable(cfg, w) && CanStart(w, p)
    ensures var j, cancelled := w.starters[p].job, w.(db := Terminate(w.db, w.starters[p].job));
      && Enabled(cfg, w, Cancel(j)) && Apply(cfg, w, Cancel(j)) == cancelled && !Orderly(w, Cancel(j))
      && j in cancelled.db.jobs && cancelled.db.jobs[j].status == Cancelled
      && Enabled(cfg, cancelled, Start(p)) && JobRunning(Apply(cfg, cancelled, Start(p)).db, j) && !JobReach(Cancelled, Running)
  {
    ReachableInv(cfg, w);
    assert StarterOk(w.db, w.starters[p]);
    StartFollowsTableIff(w.(db := Terminate(w.db, w.starters[p].job)), p);
  }

  /** And there are such runs to cancel. */
  lemma StartCanRevive()
    ensures Reachable(CFG, PUBLISHED) && CanStart(PUBLISHED, 0)
  {
    PublishedIsReachable();
  }
  // ---------------------------------------------------------------- a second start

  /** A run without tasks, between its creation and its start. */
  const EMPTY := World(Db(map[0 := TheJob(Pending)], map[]), map[0 := Log([], 0, 0, Idle)], [], map[0 := Starter(0, [], false)], map[], NO_HISTORY)

  lemma EmptyIsReachable()
    ensures Reachable(CFG, EMPTY)
  {
    var e := Open(0, 0, TheJob(Pending), map[], []);
    assert ToSet([]) == {};
    assert NumberedByPlace(map[], []);
    assert Opened(CFG, NOTHING_YET, 0, 0, TheJob(Pending), map[], []) == EMPTY;
    assert IsInitial(NOTHING_YET);
    OneEvent(CFG, NOTHING_YET, e);
  }

  /** A second trigger has found the PENDING run of the first. */
  function Doubled(w: World, q: nat, j: Id): World {
    w.(starters := w.starters[q := Starter(j, [], false)])
  }

  /** What the protocol relies on its surroundings to exclude: a second trigger of a PENDING run while the first is at work.
      Both start it; if it is finished in between, the second start revives the COMPLETED run, and it is finalised, and its
      hook fired, a second time. */
  lemma SecondStartRevives(cfg: Config, w: World, p: nat, q: nat)
    requires Reachable(cfg, w) && CanStart(w, p) && TasksOf(w.db, w.starters[p].job) == {} && q !in w.starters && w.finalisers == map[]
    ensures w.starters[p].job in w.db.jobs
    ensures var j := w.starters[p].job;
      var twice := Doubled(w, q, j);
      var started := JobStarted(twice, p);
      var done := FinalisedBy(started, j, Completed);
      var again := JobStarted(done, q);
      && Enabled(cfg, w, Resume(q, j, [], false)) && Apply(cfg, w, Resume(q, j, [], false)) == twice && !Orderly(w, Resume(q, j, [], false))
      && Enabled(cfg, twice, Start(p)) && MayReach(cfg, started, done) && done.db.jobs[j].status == Completed
      && Enabled(cfg, done, Start(q)) && JobRunning(again.db, j) && !JobReach(Completed, Running)
      && MayReach(cfg, again, FinalisedBy(again, j, Completed))
      && Count(FinalisedBy(again, j, Completed).history.wins, j) == Count(w.history.wins, j) + 2
      && Count(FinalisedBy(again, j, Completed).history.hooks, j) == Count(w.history.hooks, j) + 2
  {
    ReachableInv(cfg, w);
    assert StarterOk(w.db, w.starters[p]);
    var j := w.starters[p].job;
    var started := JobStarted(Doubled(w, q, j), p);
    NoTasksStill(w.db, started.db, j);
    TriggerRefinement.EmptyRunFinalises(cfg, started, j);
    var done := FinalisedBy(started, j, Completed);
    StartFollowsTableIff(done, q);
    var again := JobStarted(done, q);
    NoTasksStill(w.db, again.db, j);
    TriggerRefinement.EmptyRunFinalises(cfg, again, j);
    assert ToSet([]) == {};
  }

  lemma NoTasksStill(db: Db, next: Db, j: Id)
    requires TasksOf(db, j) == {} && next.tasks == db.tasks
    ensures TasksOf(next, j) == {}
  {
    assert TasksOf(next, j) == TasksOf(db, j);
  }

  /** And there are such runs. */
  lemma SecondStartCanRevive()
    ensures Reachable(CFG, EMPTY) && CanStart(EMPTY, 0) && TasksOf(EMPTY.db, 0) == {} && EMPTY.finalisers == map[]
  {
    EmptyIsReachable();
  }

  // ---------------------------------------------------------------- retries complete and interrupted

  const CLONE := TheJob(Pending).(parent := Some(0), ref := Some("again"))

  const COPY := TheTask(Pending, 1, "").(jobId := 2)

  /** The run of one task has failed; and its clone, job 2. */
  function Retrying(status: Status, tasks: map<Id, Task>, starters: map<nat, Starter>): World {
    World(Db(map[0 := TheJob(Failed), 2 := CLONE.(status := status)], tasks), map[0 := Log([], 0, 0, Idle)], [],
          starters, map[], NO_HISTORY)
  }

  const ABANDONED := Scene(Failed, TheTask(Pending, 1, ""), Log([], 0, 0, Idle), map[], map[], NO_HISTORY)

  const ONE := map[1 := TheTask(Pending, 1, "")]

  const CLONED := Retrying(Pending, ONE, map[0 := Starter(2, [], false)])

  lemma AbandonedIsReachable()
    ensures Reachable(CFG, ABANDONED)
  {
    Opens();
    var e := Open(0, 0, TheJob(Pending), map[1 := TheTask(Pending, 1, "")], [1]);
    assert OPENED.starters - {0} == map[];
    assert Abandoned(OPENED, 0) == ABANDONED;
    OneEvent(CFG, OPENED, PublishFailed(0));
    Follow(CFG, NOTHING_YET, [e], OPENED, [PublishFailed(0)], ABANDONED);
    assert IsInitial(NOTHING_YET);
  }

  lemma CloneOpens()
    ensures CanOpen(CFG, ABANDONED, 0, 2, CLONE, map[], []) && Opened(CFG, ABANDONED, 0, 2, CLONE, map[], []) == CLONED
  {
    assert ToSet([]) == {};
    assert ONE + map[] == ONE;
  }

  lemma ClonedIsReachable()
    ensures Reachable(CFG, CLONED)
  {
    AbandonedIsReachable();
    CloneOpens();
    Step1(ABANDONED, Open(0, 2, CLONE, map[], []), CLONED);
  }

  const FILLED := Retrying(Pending, ONE[3 := COPY], map[0 := Starter(2, [3], false)])

  lemma PageOfOne()
    ensures IsTaskPage(CLONED.db, 0, {}, -1, TASK_INSERT_BATCH_SIZE, [1]) && TasksOf(CLONED.db, 2) == {}
  {
    assert MatchingAfter(CLONED.db, 0, {}, -1) == {1};
  }

  const ONE_TURN := Turn(CLONED, [1], CLONED, 0, map[3 := COPY], [3], FILLED)

  lemma PageIsCopied()
    ensures ClonesPage(CLONED.db, 2, 0, map[3 := COPY], [3], [1], -1)
  {
    PageOfOne();
    assert [3][0] == 3 && [1][0] == 1;
  }

  lemma PageIsInserted()
    ensures CanAddRows(CLONED, 0, map[3 := COPY], [3]) && RowsAdded(CLONED, 0, map[3 := COPY], [3]) == FILLED
  {
    assert ToSet([3]) == {3};
    assert ONE + map[3 := COPY] == ONE[3 := COPY];
  }

  lemma PageFills()
    ensures Fills(CFG, ONE_TURN, 2, -1)
  {
    PageIsCopied();
    PageIsInserted();
  }

  lemma OneTurnStreamsAll()
    ensures StreamsAll(CFG, CLONED, 2, 0, -1, TASK_INSERT_BATCH_SIZE, [ONE_TURN], FILLED)
  {
    PageOfOne();
    PageFills();
    assert Leads(CFG, CLONED, [], CLONED);
  }

  /** A full retry goes through, in pages of the program's size, and the clone is complete. */
  lemma FullRetryCanComplete()
    ensures Reachable(CFG, CLONED) && StreamsAll(CFG, CLONED, 2, 0, -1, TASK_INSERT_BATCH_SIZE, [ONE_TURN], FILLED)
    ensures OneToOne(FILLED.db, 2, 0)
  {
    ClonedIsReachable();
    OneTurnStreamsAll();
    assert Leads(CFG, FILLED, [], FILLED);
    FullRetryIsComplete(CFG, CLONED, 2, 0, TASK_INSERT_BATCH_SIZE, [ONE_TURN], FILLED, FILLED);
  }

  const LEFT := Retrying(Pending, ONE, map[])

  const SHORT := Retrying(Running, ONE, map[])

  lemma LeftIsReachable()
    ensures Reachable(CFG, LEFT)
  {
    ClonedIsReachable();
    assert CLONED.starters - {0} == map[];
    Step1(CLONED, CrashStarter(0), LEFT);
  }

  lemma LeftIsResumed()
    ensures CanStep(CFG, LEFT, Event.Resume(0, 2, [], false)) && Apply(CFG, LEFT, Event.Resume(0, 2, [], false)) == CLONED
  {
    assert ToSet([]) == {} == TasksOf(LEFT.db, 2);
  }

  lemma ShortIsReachable()
    ensures Reachable(CFG, SHORT)
  {
    LeftIsReachable();
    LeftIsResumed();
    Step1(LEFT, Event.Resume(0, 2, [], false), CLONED);
    ClonedStarts();
    Step1(CLONED, Start(0), SHORT);
  }

  lemma ClonedStarts()
    ensures CanStep(CFG, CLONED, Start(0)) && JobStarted(CLONED, 0) == SHORT
  {
    assert CLONED.starters - {0} == map[];
  }

  /** It happens that a full retry is interrupted, that its clone is taken over and started, and that the clone is incomplete
      for ever. */
  lemma InterruptedCloneStaysShort(later: World)
    requires MayReach(CFG, SHORT, later)
    ensures Reachable(CFG, SHORT) && JobRunning(SHORT.db, 2) && SHORT.db.jobs[2].parent == Some(0)
    ensures !OneToOne(later.db, 2, 0)
  {
    ShortIsReachable();
    assert TasksOf(SHORT.db, 2) == {} && 1 in TasksOf(SHORT.db, 0);
    StartedCloneIsSettled(CFG, SHORT, 2, 0, later);
    CompleteIffAsMany(CFG, SHORT, 2, 0);
  }
}
