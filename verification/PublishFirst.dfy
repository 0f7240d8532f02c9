/** Publish before start: whoever finds a run RUNNING, or finished from RUNNING, finds every task of it published, through
    any crashes, resumptions, retries of jobs and interleavings. */
module PublishFirst {
  import opened Options
  import opened Domain
  import opened Store
  import opened Finalizer
  import opened Runs
  import opened Protocol
  import opened Invariants
  import opened NoLostWork

  /** A message for the task has been written. */
  ghost predicate OnLog(logs: Logs, t: Id) {
    exists l :: l in logs && t in logs[l].messages
  }

  /** The job has been started: it is RUNNING, or COMPLETED or PARTIAL_FAILED, which only a RUNNING job becomes. */
  predicate BeenStarted(db: Db, j: Id) {
    j in db.jobs && db.jobs[j].status in {Running, Completed, PartialFailed}
  }

  ghost predicate AllOnLog(db: Db, logs: Logs, j: Id) {
    forall t :: t in db.tasks && db.tasks[t].jobId == j ==> OnLog(logs, t)
  }

  /** What a starter has still to publish is on its list. */
  ghost predicate ListedOrOnLog(db: Db, logs: Logs, s: Starter) {
    forall t :: t in db.tasks && db.tasks[t].jobId == s.job && t !in s.todo ==> OnLog(logs, t)
  }

  ghost predicate PublishedOk(db: Db, logs: Logs, starters: map<nat, Starter>) {
    && (forall j :: BeenStarted(db, j) ==> AllOnLog(db, logs, j))
    && (forall p :: p in starters ==> ListedOrOnLog(db, logs, starters[p]))
  }

  ghost predicate PubInv(cfg: Config, w: World) {
    Inv(cfg, w) && PublishedOk(w.db, w.logs, w.starters)
  }

  ghost predicate LogsGrow(logs: Logs, next: Logs) {
    forall l :: l in logs ==> l in next && logs[l].messages <= next[l].messages
  }

  lemma StaysOnLog(logs: Logs, next: Logs, t: Id)
    requires LogsGrow(logs, next) && OnLog(logs, t)
    ensures OnLog(next, t)
  {
    var l :| l in logs && t in logs[l].messages;
    assert t in next[l].messages;
  }

  /** No task appears, no job is started, no list grows. */
  ghost predicate StartsNothing(w: World, next: World) {
    && LogsGrow(w.logs, next.logs) && next.db.tasks.Keys == w.db.tasks.Keys
    && (forall t :: t in w.db.tasks ==> next.db.tasks[t].jobId == w.db.tasks[t].jobId)
    && (forall j :: BeenStarted(next.db, j) ==> BeenStarted(w.db, j))
    && (forall p :: p in next.starters ==> p in w.starters && next.starters[p].job == w.starters[p].job && next.starters[p].todo == w.starters[p].todo)
  }

  lemma StartingNothingKeeps(w: World, next: World)
    requires PublishedOk(w.db, w.logs, w.starters) && StartsNothing(w, next)
    ensures PublishedOk(next.db, next.logs, next.starters)
  {
    forall t | OnLog(w.logs, t)
      ensures OnLog(next.logs, t)
    {
      StaysOnLog(w.logs, next.logs, t);
    }
    forall j | BeenStarted(next.db, j)
      ensures AllOnLog(next.db, next.logs, j)
    {
      assert AllOnLog(w.db, w.logs, j);
    }
    forall p | p in next.starters
      ensures ListedOrOnLog(next.db, next.logs, next.starters[p])
    {
      assert ListedOrOnLog(w.db, w.logs, w.starters[p]);
    }
  }

  // ---------------------------------------------------------------- steps that start nothing

  lemma WorkStartsNothing(w: World, l: nat, work: WorkStep)
    requires l in w.logs && CanWork(w.logs[l].phase, work)
    ensures StartsNothing(w, Worked(w, l, work))
  {
  }

  lemma SkipStartsNothing(w: World, l: nat)
    requires InPhase(w, l, true)
    ensures StartsNothing(w, Skipped(w, l))
  {
  }

  lemma RetryPublishStartsNothing(w: World, l: nat, target: Option<nat>)
    requires At(w, l, Requeueing) && (target.Some? ==> target.value in w.logs)
    ensures StartsNothing(w, RetryPublished(w, l, target))
  {
  }

  /** A consumer moves, and no message or row does. */
  lemma MoveStartsNothing(w: World, next: World, l: nat, log: Log)
    requires l in w.logs && next.logs == w.logs[l := log] && log.messages == w.logs[l].messages && next.db == w.db && next.starters == w.starters
    ensures StartsNothing(w, next)
  {
  }

  lemma DeliveriesStartNothing(cfg: Config, w: World, e: Event)
    requires CanStep(cfg, w, e) && IsDelivery(e)
    ensures StartsNothing(w, Apply(cfg, w, e))
  {
    match e
    case Load(l) => MoveStartsNothing(w, Loaded(cfg, w, l), l, Loaded(cfg, w, l).logs[l]);
    case Skip(l) => SkipStartsNothing(w, l);
    case Work(l, work) => WorkStartsNothing(w, l, work);
    case PublishRetry(l, target) => RetryPublishStartsNothing(w, l, target);
    case PublishDlq(l, ok) => MoveStartsNothing(w, DlqPublished(w, l, ok), l, DlqPublished(w, l, ok).logs[l]);
    case Next(l, commit) => MoveStartsNothing(w, Advanced(w, l, commit), l, Advanced(w, l, commit).logs[l]);
    case CrashConsumer(l) => MoveStartsNothing(w, CrashedConsumer(w, l), l, CrashedConsumer(w, l).logs[l]);
  }

  lemma EndingsStartNothing(cfg: Config, w: World, e: Event)
    requires CanStep(cfg, w, e) && IsEnding(e) && !e.Start?
    ensures StartsNothing(w, Apply(cfg, w, e))
  {
  }

  lemma FinalisersStartNothing(cfg: Config, w: World, e: Event)
    requires CanStep(cfg, w, e) && !IsDelivery(e) && !IsCreation(e) && !IsEnding(e)
    ensures StartsNothing(w, Apply(cfg, w, e))
  {
  }

  lemma AppendStartsNothing(w: World, into: nat, t: Id)
    requires into in w.logs
    ensures StartsNothing(w, Append(w, into, t)) && OnLog(Append(w, into, t).logs, t)
  {
    assert t in Append(w, into, t).logs[into].messages;
  }

  // ---------------------------------------------------------------- steps of triggers

  lemma PublishKeepsPublished(w: World, p: nat, into: nat)
    requires PublishedOk(w.db, w.logs, w.starters) && CanPublish(w, p, into)
    ensures PublishedOk(w.db, Published(w, p, into).logs, Published(w, p, into).starters)
  {
    var s, next := w.starters[p], Published(w, p, into);
    AppendStartsNothing(w, into, s.todo[0]);
    StartingNothingKeeps(w, Append(w, into, s.todo[0]));
    assert s.todo == [s.todo[0]] + s.todo[1..];
    forall t | t in w.db.tasks && w.db.tasks[t].jobId == s.job && t !in s.todo[1..]
      ensures OnLog(next.logs, t)
    {
      assert ListedOrOnLog(w.db, next.logs, s);
      assert t == s.todo[0] || t !in s.todo;
    }
  }

  /** New rows, all on the list of the one starter of their job, or of a job that is over from the start. */
  lemma InsertKeepsPublished(db: Db, next: Db, logs: Logs, starters: map<nat, Starter>, p: nat, s: Option<Starter>)
    requires PublishedOk(db, logs, starters)
    requires forall t :: t in db.tasks ==> t in next.tasks && next.tasks[t].jobId == db.tasks[t].jobId
    requires forall j :: BeenStarted(next, j) ==> BeenStarted(db, j)
    requires forall t :: t in next.tasks && t !in db.tasks ==>
      && !BeenStarted(next, next.tasks[t].jobId) && (forall q :: q in starters && q != p ==> starters[q].job != next.tasks[t].jobId)
      && (if s.Some? then next.tasks[t].jobId == s.value.job ==> t in s.value.todo
          else p in starters ==> starters[p].job != next.tasks[t].jobId)
    requires s.Some? ==> ListedOrOnLog(db, logs, s.value)
    ensures PublishedOk(next, logs, if s.Some? then starters[p := s.value] else starters)
  {
    var after := if s.Some? then starters[p := s.value] else starters;
    forall j | BeenStarted(next, j)
      ensures AllOnLog(next, logs, j)
    {
      assert AllOnLog(db, logs, j);
    }
    forall q | q in after
      ensures ListedOrOnLog(next, logs, after[q])
    {
      assert ListedOrOnLog(db, logs, after[q]);
    }
  }

  lemma StarterJobsExist(w: World)
    requires StartersOk(w)
    ensures forall p :: p in w.starters ==> w.starters[p].job in w.db.jobs && w.db.jobs[w.starters[p].job].status == Pending
  {
    forall p | p in w.starters
      ensures StarterOk(w.db, w.starters[p])
    {
    }
  }

  lemma OpenKeepsPublished(cfg: Config, w: World, p: nat, j: Id, job: Job, rows: map<Id, Task>, order: seq<Id>)
    requires PubInv(cfg, w) && CanOpen(cfg, w, p, j, job, rows, order)
    ensures var next := Opened(cfg, w, p, j, job, rows, order); PublishedOk(next.db, next.logs, next.starters)
  {
    var next := Opened(cfg, w, p, j, job, rows, order);
    StarterJobsExist(w);
    assert forall t :: t in rows ==> t in ToSet(order);
    InsertKeepsPublished(w.db, next.db, w.logs, w.starters, p, Some(next.starters[p]));
  }

  lemma OpenSettledKeepsPublished(cfg: Config, w: World, j: Id, job: Job, rows: map<Id, Task>)
    requires PubInv(cfg, w) && CanOpenSettled(cfg, w, j, job, rows)
    ensures PublishedOk(OpenedSettled(cfg, w, j, job, rows).db, w.logs, w.starters)
  {
    StarterJobsExist(w);
    InsertKeepsPublished(w.db, OpenedSettled(cfg, w, j, job, rows).db, w.logs, w.starters, 0, None);
  }

  lemma AddRowsKeepsPublished(cfg: Config, w: World, p: nat, rows: map<Id, Task>, order: seq<Id>)
    requires PubInv(cfg, w) && CanAddRows(w, p, rows, order)
    ensures PublishedOk(RowsAdded(w, p, rows, order).db, w.logs, RowsAdded(w, p, rows, order).starters)
  {
    StarterJobsExist(w);
    assert ListedOrOnLog(w.db, w.logs, w.starters[p]);
    assert forall t :: t in rows ==> t in ToSet(order);
    InsertKeepsPublished(w.db, RowsAdded(w, p, rows, order).db, w.logs, w.starters, p, Some(RowsAdded(w, p, rows, order).starters[p]));
  }

  lemma ResumeKeepsPublished(cfg: Config, w: World, p: nat, j: Id, order: seq<Id>, clear: bool)
    requires PubInv(cfg, w) && CanResume(w, p, j, order)
    ensures PublishedOk(w.db, w.logs, Resumed(w, p, j, order, clear).starters)
  {
    forall t | t in w.db.tasks && w.db.tasks[t].jobId == j
      ensures t in order
    {
      assert t in TasksOf(w.db, j) && t in ToSet(order);
    }
    InsertKeepsPublished(w.db, w.db, w.logs, w.starters, p, Some(Starter(j, order, clear)));
  }

  lemma StartKeepsPublished(cfg: Config, w: World, p: nat)
    requires PubInv(cfg, w) && CanStart(w, p)
    ensures var next := JobStarted(w, p); PublishedOk(next.db, next.logs, next.starters)
  {
    var j, next := w.starters[p].job, JobStarted(w, p);
    assert ListedOrOnLog(w.db, w.logs, w.starters[p]) && StarterOk(w.db, w.starters[p]);
    forall k | BeenStarted(next.db, k)
      ensures AllOnLog(next.db, next.logs, k)
    {
      assert k == j || (BeenStarted(w.db, k) && AllOnLog(w.db, w.logs, k));
    }
    forall q | q in next.starters
      ensures ListedOrOnLog(next.db, next.logs, next.starters[q])
    {
      assert ListedOrOnLog(w.db, w.logs, w.starters[q]);
    }
  }

  // ---------------------------------------------------------------- all steps

  lemma CreationKeepsPublished(cfg: Config, w: World, e: Event)
    requires PubInv(cfg, w) && CanStep(cfg, w, e) && IsCreation(e)
    ensures var next := Apply(cfg, w, e); PublishedOk(next.db, next.logs, next.starters)
  {
    match e
    case Open(p, j, job, rows, order) => OpenKeepsPublished(cfg, w, p, j, job, rows, order);
    case OpenSettled(j, job, rows, _) => OpenSettledKeepsPublished(cfg, w, j, job, rows);
    case Resume(p, j, order, clear) => ResumeKeepsPublished(cfg, w, p, j, order, clear);
    case AddRows(p, rows, order, _, _) => AddRowsKeepsPublished(cfg, w, p, rows, order);
    case Publish(p, into) => PublishKeepsPublished(w, p, into);
    case Republish(t, into) =>
      AppendStartsNothing(w, into, t);
      StartingNothingKeeps(w, Append(w, into, t));
  }

  lemma OtherKeepsPublished(cfg: Config, w: World, e: Event)
    requires PubInv(cfg, w) && CanStep(cfg, w, e) && !IsCreation(e) && !e.Start?
    ensures var next := Apply(cfg, w, e); PublishedOk(next.db, next.logs, next.starters)
  {
    if IsDelivery(e) {
      DeliveriesStartNothing(cfg, w, e);
    } else if IsEnding(e) {
      EndingsStartNothing(cfg, w, e);
    } else {
      FinalisersStartNothing(cfg, w, e);
    }
    StartingNothingKeeps(w, Apply(cfg, w, e));
  }

  lemma StepKeepsPublished(cfg: Config, w: World, e: Event)
    requires PubInv(cfg, w) && CanStep(cfg, w, e)
    ensures PubInv(cfg, Apply(cfg, w, e))
  {
    StepKeeps(cfg, w, e);
    if IsCreation(e) {
      CreationKeepsPublished(cfg, w, e);
    } else if e.Start? {
      StartKeepsPublished(cfg, w, e.p);
    } else {
      OtherKeepsPublished(cfg, w, e);
    }
  }

  lemma RunKeepsPublished(cfg: Config, w: World, es: seq<Event>)
    requires PubInv(cfg, w) && CanRun(Step(cfg), w, es)
    ensures PubInv(cfg, After(Step(cfg), w, es))
  {
    var inv := (s: World) => PubInv(cfg, s);
    forall s, e | inv(s) && Step(cfg)(s, e).Some?
      ensures inv(Step(cfg)(s, e).value)
    {
      StepKeepsPublished(cfg, s, e);
    }
    Invariance(Step(cfg), inv, w, es);
  }

  lemma ReachablePublished(cfg: Config, w: World)
    requires Reachable(cfg, w)
    ensures PubInv(cfg, w)
  {
    var init: World, es: seq<Event> :| IsInitial(init) && CanRun(Step(cfg), init, es) && After(Step(cfg), init, es) == w;
    InitiallyPublished(cfg, init);
    RunKeepsPublished(cfg, init, es);
  }

  lemma InitiallyPublished(cfg: Config, init: World)
    requires IsInitial(init)
    ensures PubInv(cfg, init)
  {
  }

  /** In every reachable state, every task of a job that is RUNNING, COMPLETED or PARTIAL_FAILED has been published. So a
      trigger that finds its run started, by a trigger that crashed after the start or by anybody else, has nothing left
      to publish. */
  lemma StartedRunIsPublished(cfg: Config, w: World, t: Id)
    requires Reachable(cfg, w) && t in w.db.tasks && BeenStarted(w.db, w.db.tasks[t].jobId)
    ensures exists l :: l in w.logs && t in w.logs[l].messages
  {
    ReachablePublished(cfg, w);
    assert AllOnLog(w.db, w.logs, w.db.tasks[t].jobId);
  }

  /** Whenever a trigger, first or resumed, comes to start its run, in whatever interleaving, every task of the run has been
      published. */
  lemma StartFindsAllPublished(cfg: Config, w: World, p: nat, t: Id)
    requires Reachable(cfg, w) && CanStart(w, p) && t in w.db.tasks && w.db.tasks[t].jobId == w.starters[p].job
    ensures exists l :: l in w.logs && t in w.logs[l].messages
  {
    ReachablePublished(cfg, w);
    assert ListedOrOnLog(w.db, w.logs, w.starters[p]);
  }

  lemma StepLogsGrow(cfg: Config, w: World, e: Event)
    requires CanStep(cfg, w, e)
    ensures LogsGrow(w.logs, Apply(cfg, w, e).logs)
  {
    if IsDelivery(e) {
      DeliveriesStartNothing(cfg, w, e);
    } else {
      OtherLogsGrow(cfg, w, e);
    }
  }

  lemma OtherLogsGrow(cfg: Config, w: World, e: Event)
    requires CanStep(cfg, w, e) && !IsDelivery(e)
    ensures LogsGrow(w.logs, Apply(cfg, w, e).logs)
  {
  }

  /** What has been published stays published. */
  lemma PublishedStays(cfg: Config, w: World, es: seq<Event>, t: Id)
    requires OnLog(w.logs, t) && CanRun(Step(cfg), w, es)
    ensures OnLog(After(Step(cfg), w, es).logs, t)
  {
    var inv := (s: World) => OnLog(s.logs, t);
    forall s, e | inv(s) && Step(cfg)(s, e).Some?
      ensures inv(Step(cfg)(s, e).value)
    {
      StepLogsGrow(cfg, s, e);
      StaysOnLog(s.logs, Apply(cfg, s, e).logs, t);
    }
    Invariance(Step(cfg), inv, w, es);
  }
}
