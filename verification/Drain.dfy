/** Draining: left to themselves, the consumers come to an end, nothing unfinished is left behind, and the completion
    checks then finish every job. */
module Drain {
  import opened Options
  import opened Domain
  import opened Store
  import opened Finalizer
  import opened Runs
  import opened Protocol
  import opened Invariants
  import opened NoLostWork

  // ---------------------------------------------------------------- sums over maps

  ghost function Sum(m: map<nat, nat>): nat {
    if m == map[] then 0 else var k :| k in m; m[k] + Sum(m - {k})
  }

  lemma {:induction false} SumWithout(m: map<nat, nat>, k: nat)
    requires k in m
    ensures Sum(m) == m[k] + Sum(m - {k})
    decreases m
  {
    var i :| i in m && Sum(m) == m[i] + Sum(m - {i});
    if i != k {
      SumWithout(m - {i}, k);
      assert m - {i} - {k} == m - {k} - {i};
      assert i in m - {k};
      SumWithout(m - {k}, i);
    }
  }

  lemma SumUpdate(m: map<nat, nat>, k: nat, v: nat)
    requires k in m
    ensures Sum(m[k := v]) + m[k] == Sum(m) + v
  {
    SumWithout(m, k);
    SumWithout(m[k := v], k);
    assert m[k := v] - {k} == m - {k};
  }

  // ---------------------------------------------------------------- the measure

  function RetriesLeft(task: Task): nat {
    if task.attempt < task.maxRetries then task.maxRetries - task.attempt else 0
  }

  function Rank(phase: Phase): nat {
    match phase
    case Idle => 6
    case Skipping(_, _) => 1
    case Done(_) => 0
    case Errored(_) => 0
    case Active(_, stage, _) =>
      match stage
      case Starting => 5
      case Started => 4
      case Executing => 3
      case Failing => 2
      case Requeueing => 8
      case Exhausting => 1
  }

  function LogLoad(log: Log): nat {
    (if log.pos <= |log.messages| then 7 * (|log.messages| - log.pos) else 0) + Rank(log.phase)
  }

  function Loads(logs: Logs): map<nat, nat> {
    map l | l in logs :: LogLoad(logs[l])
  }

  function Retries(tasks: map<Id, Task>): map<nat, nat> {
    map t | t in tasks :: RetriesLeft(tasks[t])
  }

  /** Outstanding messages, the stage of each delivery, and the attempts that remain. */
  ghost function Measure(w: World): nat {
    7 * Sum(Retries(w.db.tasks)) + Sum(Loads(w.logs))
  }

  lemma LogMeasure(logs: Logs, l: nat, log: Log)
    requires l in logs
    ensures Sum(Loads(logs[l := log])) + LogLoad(logs[l]) == Sum(Loads(logs)) + LogLoad(log)
  {
    SumUpdate(Loads(logs), l, LogLoad(log));
    assert Loads(logs[l := log]) == Loads(logs)[l := LogLoad(log)];
  }

  lemma TaskMeasure(tasks: map<Id, Task>, t: Id, task: Task)
    requires t in tasks
    ensures Sum(Retries(tasks[t := task])) + RetriesLeft(tasks[t]) == Sum(Retries(tasks)) + RetriesLeft(task)
  {
    SumUpdate(Retries(tasks), t, RetriesLeft(task));
    assert Retries(tasks[t := task]) == Retries(tasks)[t := RetriesLeft(task)];
  }

  lemma StatusMeasure(db: Db, ts: set<Id>, status: Status)
    ensures Retries(SetTaskStatuses(db, ts, status).tasks) == Retries(db.tasks)
  {
  }

  // ---------------------------------------------------------------- processing

  /** A consumer at work, without a crash and without a failed retry publish. */
  predicate IsProcessing(e: Event) {
    IsDelivery(e) && !e.CrashConsumer? && Faultless(e)
  }

  ghost predicate CanProcess(cfg: Config, w: World, e: Event) {
    CanStep(cfg, w, e) && IsProcessing(e)
  }

  ghost function ProcessStep(cfg: Config): (World, Event) -> Option<World> {
    (w: World, e: Event) => if CanProcess(cfg, w, e) then Some(Apply(cfg, w, e)) else None
  }

  lemma WorkMeasure(row: Task, phase: Phase, work: WorkStep)
    requires CanWork(phase, work) && phase.mem.attempt == row.attempt && phase.mem.maxRetries == row.maxRetries
    ensures 7 * RetriesLeft(WorkedRow(row, phase, work)) + Rank(NextPhase(phase, work)) < 7 * RetriesLeft(row) + Rank(phase)
  {
  }

  lemma WorkLowers(cfg: Config, w: World, l: nat, work: WorkStep)
    requires Inv(cfg, w) && l in w.logs && CanWork(w.logs[l].phase, work)
    ensures Measure(Worked(w, l, work)) < Measure(w)
  {
    var phase := w.logs[l].phase;
    assert LogOk(w.db, w.logs[l]);
    WorkMeasure(w.db.tasks[phase.task], phase, work);
    LogMeasure(w.logs, l, w.logs[l].(phase := NextPhase(phase, work)));
    TaskMeasure(w.db.tasks, phase.task, WorkedRow(w.db.tasks[phase.task], phase, work));
  }

  lemma PhaseLowers(w: World, next: World, l: nat, log: Log)
    requires l in w.logs && next.logs == w.logs[l := log] && Retries(next.db.tasks) == Retries(w.db.tasks) && LogLoad(log) < LogLoad(w.logs[l])
    ensures Measure(next) < Measure(w)
  {
    LogMeasure(w.logs, l, log);
  }

  /** One message more on one partition, and on the publishing one the delivery ends. */
  lemma RequeueMeasure(logs: Logs, l: nat, into: nat, t: Id)
    requires l in logs && into in logs && Rank(logs[l].phase) == 8 && logs[into].pos <= |logs[into].messages|
    ensures var mid := logs[l := logs[l].(phase := Done(t))];
      Sum(Loads(mid[into := mid[into].(messages := mid[into].messages + [t])])) < Sum(Loads(logs))
  {
    var mid := logs[l := logs[l].(phase := Done(t))];
    var more := mid[into].(messages := mid[into].messages + [t]);
    LogMeasure(logs, l, mid[l]);
    LogMeasure(mid, into, more);
    assert LogLoad(more) == LogLoad(mid[into]) + 7;
    assert LogLoad(mid[l]) + 8 == LogLoad(logs[l]);
  }

  lemma RetryPublishLowers(w: World, l: nat, into: nat)
    requires At(w, l, Requeueing) && into in w.logs && LogOk(w.db, w.logs[into])
    ensures Measure(RetryPublished(w, l, Some(into))) < Measure(w)
  {
    RequeueMeasure(w.logs, l, into, w.logs[l].phase.task);
  }

  lemma LoadLowers(cfg: Config, w: World, l: nat)
    requires CanLoad(w, l)
    ensures Measure(Loaded(cfg, w, l)) < Measure(w)
  {
    PhaseLowers(w, Loaded(cfg, w, l), l, Loaded(cfg, w, l).logs[l]);
  }

  lemma SkipLowers(w: World, l: nat)
    requires InPhase(w, l, true)
    ensures Measure(Skipped(w, l)) < Measure(w)
  {
    StatusMeasure(w.db, {w.logs[l].phase.task}, w.logs[l].phase.status);
    PhaseLowers(w, Skipped(w, l), l, Skipped(w, l).logs[l]);
  }

  lemma DlqPublishLowers(w: World, l: nat, ok: bool)
    requires At(w, l, Exhausting)
    ensures Measure(DlqPublished(w, l, ok)) < Measure(w)
  {
    PhaseLowers(w, DlqPublished(w, l, ok), l, DlqPublished(w, l, ok).logs[l]);
  }

  lemma AdvanceLowers(w: World, l: nat, commit: bool)
    requires CanAdvance(w, l, commit)
    ensures Measure(Advanced(w, l, commit)) < Measure(w)
  {
    PhaseLowers(w, Advanced(w, l, commit), l, Advanced(w, l, commit).logs[l]);
  }

  lemma ProcessingLowers(cfg: Config, w: World, e: Event)
    requires Inv(cfg, w) && CanStep(cfg, w, e) && IsProcessing(e)
    ensures Measure(Apply(cfg, w, e)) < Measure(w)
  {
    match e
    case Load(l) => LoadLowers(cfg, w, l);
    case Skip(l) => SkipLowers(w, l);
    case Work(l, work) => WorkLowers(cfg, w, l, work);
    case PublishRetry(l, target) => RetryPublishLowers(w, l, target.value);
    case PublishDlq(l, ok) => DlqPublishLowers(w, l, ok);
    case Next(l, commit) => AdvanceLowers(w, l, commit);
  }

  // ---------------------------------------------------------------- progress

  predicate Drained(w: World) {
    forall l :: l in w.logs ==> w.logs[l].pos == |w.logs[l].messages|
  }

  /** What a consumer in the middle of a message can do next. */
  function NextEvent(l: nat, phase: Phase): Event
    requires !phase.Idle?
  {
    match phase
    case Skipping(_, _) => Skip(l)
    case Done(_) => Next(l, true)
    case Errored(_) => Next(l, false)
    case Active(_, stage, mem) =>
      match stage
      case Starting => Work(l, Begin)
      case Started => Work(l, Execute)
      case Executing => Work(l, Finish(""))
      case Failing => Work(l, if mem.attempt < mem.maxRetries then Requeue("") else Exhaust(""))
      case Requeueing => PublishRetry(l, Some(l))
      case Exhausting => PublishDlq(l, true)
  }

  lemma BusyCanStep(cfg: Config, w: World, l: nat)
    requires Inv(cfg, w) && l in w.logs && !w.logs[l].phase.Idle?
    ensures CanStep(cfg, w, NextEvent(l, w.logs[l].phase)) && IsProcessing(NextEvent(l, w.logs[l].phase))
  {
    assert LogOk(w.db, w.logs[l]);
  }

  /** As long as a message is outstanding, some consumer can move. */
  lemma Progress(cfg: Config, w: World)
    requires Inv(cfg, w) && !Drained(w)
    ensures exists e :: CanProcess(cfg, w, e)
  {
    var l :| l in w.logs && w.logs[l].pos != |w.logs[l].messages|;
    assert LogOk(w.db, w.logs[l]);
    if busy :| busy in w.logs && !w.logs[busy].phase.Idle? {
      BusyCanStep(cfg, w, busy);
      assert CanProcess(cfg, w, NextEvent(busy, w.logs[busy].phase));
    } else {
      assert CanProcess(cfg, w, Load(l));
    }
  }

  /** Draining terminates: no run of the consumers alone is longer than the measure, and one that cannot be continued
      has read every message; none of the runs loses coverage. */
  lemma DrainingTerminates(cfg: Config, w: World, es: seq<Event>)
    requires SafelyReachable(cfg, w) && CanRun(ProcessStep(cfg), w, es)
    ensures |es| <= Measure(w)
    ensures (forall e :: !CanProcess(cfg, After(ProcessStep(cfg), w, es), e)) ==> Drained(After(ProcessStep(cfg), w, es))
    ensures CoverInv(cfg, After(ProcessStep(cfg), w, es))
  {
    SafelyReachableCovers(cfg, w);
    var inv := (s: World) => CoverInv(cfg, s);
    forall s, e | inv(s) && ProcessStep(cfg)(s, e).Some?
      ensures inv(ProcessStep(cfg)(s, e).value) && Measure(ProcessStep(cfg)(s, e).value) < Measure(s)
    {
      StepCovers(cfg, s, e);
      ProcessingLowers(cfg, s, e);
    }
    MeasureBoundsRuns(ProcessStep(cfg), inv, (s: World) => Measure(s), w, es);
    var last := After(ProcessStep(cfg), w, es);
    if !Drained(last) {
      Progress(cfg, last);
    }
  }

  /** Nothing is awaited once every message has been read. */
  lemma DrainedAwaitsNothing(cfg: Config, w: World, t: Id)
    requires Inv(cfg, w) && Drained(w)
    ensures !Awaited(w.logs, t)
  {
    forall l, k
      ensures !AwaitedAt(w.logs, l, k, t)
    {
    }
  }

  /** Once drained, a RUNNING job has only finished tasks left. */
  lemma DrainedJobsAreFinished(cfg: Config, w: World, j: Id)
    requires CoverInv(cfg, w) && Drained(w) && JobRunning(w.db, j)
    ensures AllFinished(w.db, j)
  {
    forall t | t in w.db.tasks && w.db.tasks[t].jobId == j
      ensures IsFinished(w.db.tasks[t].status)
    {
      DrainedAwaitsNothing(cfg, w, t);
      assert InUse(w.db.tasks[t].status) && !Unsettled(w.db.tasks[t]);
    }
  }

  ghost predicate NoneRunning(db: Db, name: string) {
    forall j :: j in db.jobs && db.jobs[j].name == name ==> db.jobs[j].status != Running
  }

  /** After draining, ceil(n / 200) completion checks leave no job of the name RUNNING. */
  lemma DrainedThenChecked(cfg: Config, w: World, name: string, history: seq<Db>)
    requires CoverInv(cfg, w) && Drained(w)
    requires ChecksInARow(history, name) && history[0] == w.db
    requires COMPLETION_CHECK_BATCH_SIZE * (|history| - 1) >= |CompletableJobs(w.db, name)|
    ensures NoneRunning(history[|history| - 1], name)
  {
    var last := history[|history| - 1];
    BacklogDrains(history, name);
    assert CompletableJobs(last, name) == {};
    forall j | j in last.jobs && last.jobs[j].name == name
      ensures last.jobs[j].status != Running
    {
      assert j !in CompletableJobs(last, name);
      LeftTheBacklog(cfg, w, last, name, j);
    }
  }

  lemma LeftTheBacklog(cfg: Config, w: World, last: Db, name: string, j: Id)
    requires CoverInv(cfg, w) && Drained(w) && last.jobs.Keys == w.db.jobs.Keys && OnlyBacklogChanged(w.db, name, last)
    requires j in last.jobs && last.jobs[j].name == name && j !in CompletableJobs(last, name)
    ensures last.jobs[j].status != Running
  {
    if JobRunning(w.db, j) {
      DrainedJobsAreFinished(cfg, w, j);
      ResolutionIsOutcome(w.db, j);
      assert w.db.jobs[j].name == name;
      assert j in CompletableJobs(w.db, name);
    }
  }

  /** From every state reached without a failed retry publish: let the consumers run until none can move, then check for
      completions ceil(n / 200) times, and no job of the name is RUNNING any more. */
  lemma DrainAndCheck(cfg: Config, w: World, es: seq<Event>, name: string, history: seq<Db>)
    requires SafelyReachable(cfg, w) && CanRun(ProcessStep(cfg), w, es)
    requires forall e :: !CanProcess(cfg, After(ProcessStep(cfg), w, es), e)
    requires ChecksInARow(history, name) && history[0] == After(ProcessStep(cfg), w, es).db
    requires COMPLETION_CHECK_BATCH_SIZE * (|history| - 1) >= |CompletableJobs(history[0], name)|
    ensures NoneRunning(history[|history| - 1], name)
  {
    DrainingTerminates(cfg, w, es);
    DrainedThenChecked(cfg, After(ProcessStep(cfg), w, es), name, history);
  }
}
