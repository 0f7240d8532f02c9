/** No work is lost: as long as publishing succeeds, every unfinished task of a RUNNING job still has a message that
    some consumer will read, through any crashes, redeliveries and duplicate deliveries. */
module NoLostWork {
  import opened Options
  import opened Domain
  import opened Store
  import opened Finalizer
  import opened Runs
  import opened Protocol
  import opened Invariants

  type Logs = map<nat, Log>

  /** A message for the task that its consumer has not finished with. */
  predicate AwaitedAt(logs: Logs, l: nat, k: nat, t: Id) {
    && l in logs && logs[l].pos <= k < |logs[l].messages| && logs[l].messages[k] == t
    && (k == logs[l].pos ==> !logs[l].phase.Done? && !logs[l].phase.Errored?)
  }

  ghost predicate Awaited(logs: Logs, t: Id) {
    exists l, k :: AwaitedAt(logs, l, k, t)
  }

  predicate Unsettled(task: Task) {
    task.status == Pending || task.status == Running
  }

  ghost predicate RunningCovered(db: Db, logs: Logs) {
    forall t :: t in db.tasks && Unsettled(db.tasks[t]) && JobRunning(db, db.tasks[t].jobId) ==> Awaited(logs, t)
  }

  /** While a job is being started, its tasks are awaited or still on the starter's list. */
  ghost predicate StarterCovered(db: Db, logs: Logs, s: Starter) {
    forall t :: t in db.tasks && Unsettled(db.tasks[t]) && db.tasks[t].jobId == s.job && t !in s.todo ==> Awaited(logs, t)
  }

  ghost predicate Covered(db: Db, logs: Logs, starters: map<nat, Starter>) {
    RunningCovered(db, logs) && forall p :: p in starters ==> StarterCovered(db, logs, starters[p])
  }

  ghost predicate CoverInv(cfg: Config, w: World) {
    Inv(cfg, w) && Covered(w.db, w.logs, w.starters)
  }

  /** No publish to the retry topic fails, and there is one. */
  predicate Faultless(e: Event) {
    e.PublishRetry? ==> e.target.Some?
  }

  ghost predicate StillAwaited(logs: Logs, next: Logs, except: set<Id>) {
    forall t :: t !in except && Awaited(logs, t) ==> Awaited(next, t)
  }

  // ---------------------------------------------------------------- frames

  /** Rows of live jobs unchanged, awaited messages still awaited. */
  lemma TablesCover(db: Db, next: Db, logs: Logs, nextLogs: Logs, starters: map<nat, Starter>, nextStarters: map<nat, Starter>)
    requires Covered(db, logs, starters) && Changes(db, next, {}) && next.tasks.Keys == db.tasks.Keys
    requires StillAwaited(logs, nextLogs, {})
    requires forall j :: JobRunning(next, j) ==> JobRunning(db, j)
    requires forall p :: p in nextStarters ==>
      && p in starters && nextStarters[p].job == starters[p].job && nextStarters[p].todo == starters[p].todo
      && JobLive(next, starters[p].job)
    ensures Covered(next, nextLogs, nextStarters)
  {
    forall p | p in nextStarters
      ensures StarterCovered(next, nextLogs, nextStarters[p])
    {
      assert StarterCovered(db, logs, starters[p]);
    }
  }

  /** A consumer's step on one task: the others are covered as before, and the task is if it has to be. */
  lemma DeliveryCovers(db: Db, next: Db, logs: Logs, nextLogs: Logs, starters: map<nat, Starter>, t: Id)
    requires Covered(db, logs, starters) && next.jobs == db.jobs && next.tasks.Keys == db.tasks.Keys
    requires forall u :: u in db.tasks && u != t ==> next.tasks[u] == db.tasks[u]
    requires t in db.tasks ==> next.tasks[t].jobId == db.tasks[t].jobId
    requires forall p :: p in starters ==> JobLive(db, starters[p].job)
    requires StillAwaited(logs, nextLogs, {t})
    requires t in next.tasks && Unsettled(next.tasks[t]) && JobLive(next, next.tasks[t].jobId) ==> Awaited(nextLogs, t)
    ensures Covered(next, nextLogs, starters)
  {
    forall p | p in starters
      ensures StarterCovered(next, nextLogs, starters[p])
    {
      assert StarterCovered(db, logs, starters[p]);
    }
  }

  lemma LogChange(logs: Logs, l: nat, log: Log, except: set<Id>)
    requires l in logs
    requires forall k :: logs[l].pos <= k < |logs[l].messages| && AwaitedAt(logs, l, k, logs[l].messages[k]) && logs[l].messages[k] !in except ==>
      AwaitedAt(logs[l := log], l, k, logs[l].messages[k])
    ensures StillAwaited(logs, logs[l := log], except)
  {
    forall t | t !in except && Awaited(logs, t)
      ensures Awaited(logs[l := log], t)
    {
      var m, k :| AwaitedAt(logs, m, k, t);
      assert AwaitedAt(logs[l := log], m, k, t);
    }
  }

  lemma AppendAwaits(logs: Logs, l: nat, t: Id)
    requires l in logs && logs[l].pos <= |logs[l].messages| && (!logs[l].phase.Idle? ==> logs[l].pos < |logs[l].messages|)
    ensures var next := logs[l := logs[l].(messages := logs[l].messages + [t])]; StillAwaited(logs, next, {}) && Awaited(next, t)
  {
    var next := logs[l := logs[l].(messages := logs[l].messages + [t])];
    LogChange(logs, l, next[l], {});
    assert AwaitedAt(next, l, |logs[l].messages|, t);
  }

  lemma StartersLive(cfg: Config, w: World)
    requires Inv(cfg, w)
    ensures forall p :: p in w.starters ==> JobLive(w.db, w.starters[p].job)
  {
    forall p | p in w.starters
      ensures JobLive(w.db, w.starters[p].job)
    {
      assert StarterOk(w.db, w.starters[p]);
    }
  }

  // ---------------------------------------------------------------- consumer steps

  lemma LoadCovers(cfg: Config, w: World, l: nat)
    requires CoverInv(cfg, w) && CanLoad(w, l)
    ensures Covered(w.db, Loaded(cfg, w, l).logs, w.starters)
  {
    var t := w.logs[l].messages[w.logs[l].pos];
    var next := Loaded(cfg, w, l);
    assert LogOk(w.db, w.logs[l]);
    LogChange(w.logs, l, next.logs[l], {t});
    StartersLive(cfg, w);
    if Unsettled(w.db.tasks[t]) && JobLive(w.db, w.db.tasks[t].jobId) {
      assert next.logs[l].phase.Active?;
      assert AwaitedAt(next.logs, l, w.logs[l].pos, t);
    }
    DeliveryCovers(w.db, w.db, w.logs, next.logs, w.starters, t);
  }

  lemma SkipCovers(cfg: Config, w: World, l: nat)
    requires CoverInv(cfg, w) && InPhase(w, l, true)
    ensures Covered(Skipped(w, l).db, Skipped(w, l).logs, w.starters)
  {
    assert LogOk(w.db, w.logs[l]);
    var t := w.logs[l].phase.task;
    LogChange(w.logs, l, Skipped(w, l).logs[l], {t});
    StartersLive(cfg, w);
    DeliveryCovers(w.db, Skipped(w, l).db, w.logs, Skipped(w, l).logs, w.starters, t);
  }

  lemma WorkSettles(row: Task, phase: Phase, work: WorkStep)
    requires CanWork(phase, work) && InStep(row, phase, true)
    ensures NextPhase(phase, work).Active? || !Unsettled(WorkedRow(row, phase, work))
  {
  }

  lemma WorkCovers(cfg: Config, w: World, l: nat, work: WorkStep)
    requires CoverInv(cfg, w) && l in w.logs && CanWork(w.logs[l].phase, work)
    ensures Covered(Worked(w, l, work).db, Worked(w, l, work).logs, w.starters)
  {
    var log, next := w.logs[l], Worked(w, l, work);
    assert LogOk(w.db, log);
    var t := log.phase.task;
    LogChange(w.logs, l, next.logs[l], {t});
    StartersLive(cfg, w);
    if JobLive(w.db, w.db.tasks[t].jobId) {
      WorkSettles(w.db.tasks[t], log.phase, work);
      if NextPhase(log.phase, work).Active? {
        assert AwaitedAt(next.logs, l, log.pos, t);
      }
    }
    DeliveryCovers(w.db, next.db, w.logs, next.logs, w.starters, t);
  }

  lemma RetryPublishCovers(cfg: Config, w: World, l: nat, into: nat)
    requires CoverInv(cfg, w) && At(w, l, Requeueing) && into in w.logs
    ensures Covered(w.db, RetryPublished(w, l, Some(into)).logs, w.starters)
  {
    assert LogOk(w.db, w.logs[l]) && LogOk(w.db, w.logs[into]);
    var t := w.logs[l].phase.task;
    var mid := WithPhase(w, l, Done(t)).logs;
    LogChange(w.logs, l, mid[l], {t});
    AppendAwaits(mid, into, t);
    StartersLive(cfg, w);
    DeliveryCovers(w.db, w.db, w.logs, RetryPublished(w, l, Some(into)).logs, w.starters, t);
  }

  lemma DlqPublishCovers(cfg: Config, w: World, l: nat, ok: bool)
    requires CoverInv(cfg, w) && At(w, l, Exhausting)
    ensures Covered(w.db, DlqPublished(w, l, ok).logs, w.starters)
  {
    assert LogOk(w.db, w.logs[l]);
    var t := w.logs[l].phase.task;
    LogChange(w.logs, l, DlqPublished(w, l, ok).logs[l], {t});
    StartersLive(cfg, w);
    DeliveryCovers(w.db, w.db, w.logs, DlqPublished(w, l, ok).logs, w.starters, t);
  }

  /** Moving on drops only a message that is finished with; crashing brings uncommitted ones back. */
  lemma MoveCovers(cfg: Config, w: World, l: nat, log: Log)
    requires CoverInv(cfg, w) && l in w.logs
    requires log.messages == w.logs[l].messages && log.phase.Idle?
    requires log.pos <= w.logs[l].pos || (log.pos == w.logs[l].pos + 1 && (w.logs[l].phase.Done? || w.logs[l].phase.Errored?))
    ensures Covered(w.db, w.logs[l := log], w.starters)
  {
    LogChange(w.logs, l, log, {});
    StartersLive(cfg, w);
    NothingChanges(w.db, {});
    TablesCover(w.db, w.db, w.logs, w.logs[l := log], w.starters, w.starters);
  }

  // ---------------------------------------------------------------- trigger steps

  lemma AppendCovers(cfg: Config, w: World, into: nat, t: Id)
    requires CoverInv(cfg, w) && into in w.logs
    ensures Covered(w.db, Append(w, into, t).logs, w.starters)
  {
    assert LogOk(w.db, w.logs[into]);
    AppendAwaits(w.logs, into, t);
    StartersLive(cfg, w);
    NothingChanges(w.db, {});
    TablesCover(w.db, w.db, w.logs, Append(w, into, t).logs, w.starters, w.starters);
  }

  lemma PublishCovers(cfg: Config, w: World, p: nat, into: nat)
    requires CoverInv(cfg, w) && CanPublish(w, p, into)
    ensures Covered(w.db, Published(w, p, into).logs, Published(w, p, into).starters)
  {
    var s, next := w.starters[p], Published(w, p, into);
    assert LogOk(w.db, w.logs[into]);
    AppendCovers(cfg, w, into, s.todo[0]);
    AppendAwaits(w.logs, into, s.todo[0]);
    assert s.todo == [s.todo[0]] + s.todo[1..];
    assert StarterCovered(w.db, next.logs, s);
    forall t | t in w.db.tasks && Unsettled(w.db.tasks[t]) && w.db.tasks[t].jobId == s.job && t !in s.todo[1..]
      ensures Awaited(next.logs, t)
    {
      assert t == s.todo[0] || t !in s.todo;
    }
  }

  /** New rows, all of them on the list of the one starter that works on their job. */
  lemma InsertCovers(db: Db, next: Db, logs: Logs, starters: map<nat, Starter>, p: nat, s: Option<Starter>)
    requires Covered(db, logs, starters)
    requires forall t :: t in db.tasks ==> t in next.tasks && next.tasks[t] == db.tasks[t]
    requires forall j :: j in next.jobs && next.jobs[j].status == Running ==> j in db.jobs && next.jobs[j] == db.jobs[j]
    requires forall t :: t in next.tasks && t !in db.tasks && Unsettled(next.tasks[t]) ==>
      && s.Some? && next.tasks[t].jobId == s.value.job && t in s.value.todo
      && (next.tasks[t].jobId in next.jobs && next.jobs[next.tasks[t].jobId].status != Running)
    requires s.Some? ==> forall q :: q in starters && q != p ==> starters[q].job != s.value.job
    requires s.Some? ==> StarterCovered(db, logs, s.value)
    ensures Covered(next, logs, if s.Some? then starters[p := s.value] else starters)
  {
    var after := if s.Some? then starters[p := s.value] else starters;
    forall q | q in after
      ensures StarterCovered(next, logs, after[q])
    {
      assert StarterCovered(db, logs, after[q]);
    }
  }

  lemma OpenCovers(cfg: Config, w: World, p: nat, j: Id, job: Job, rows: map<Id, Task>, order: seq<Id>)
    requires CoverInv(cfg, w) && CanOpen(cfg, w, p, j, job, rows, order)
    ensures var next := Opened(cfg, w, p, j, job, rows, order); Covered(next.db, next.logs, next.starters)
  {
    var next := Opened(cfg, w, p, j, job, rows, order);
    StartersLive(cfg, w);
    assert forall t :: t in rows ==> t in ToSet(order);
    InsertCovers(w.db, next.db, w.logs, w.starters, p, Some(next.starters[p]));
  }

  lemma OpenSettledCovers(cfg: Config, w: World, j: Id, job: Job, rows: map<Id, Task>)
    requires CoverInv(cfg, w) && CanOpenSettled(cfg, w, j, job, rows)
    ensures var next := OpenedSettled(cfg, w, j, job, rows); Covered(next.db, next.logs, next.starters)
  {
    InsertCovers(w.db, OpenedSettled(cfg, w, j, job, rows).db, w.logs, w.starters, 0, None);
  }

  lemma AddRowsCovers(cfg: Config, w: World, p: nat, rows: map<Id, Task>, order: seq<Id>)
    requires CoverInv(cfg, w) && CanAddRows(w, p, rows, order)
    ensures var next := RowsAdded(w, p, rows, order); Covered(next.db, next.logs, next.starters)
  {
    var next := RowsAdded(w, p, rows, order);
    assert StarterOk(w.db, w.starters[p]) && StarterCovered(w.db, w.logs, w.starters[p]);
    assert forall t :: t in rows ==> t in ToSet(order);
    InsertCovers(w.db, next.db, w.logs, w.starters, p, Some(next.starters[p]));
  }

  lemma ResumeCovers(cfg: Config, w: World, p: nat, j: Id, order: seq<Id>, clear: bool)
    requires CoverInv(cfg, w) && CanResume(w, p, j, order) && NotStarting(w, j)
    ensures Covered(w.db, w.logs, Resumed(w, p, j, order, clear).starters)
  {
    forall t | t in w.db.tasks && w.db.tasks[t].jobId == j
      ensures t in order
    {
      assert t in TasksOf(w.db, j) && t in ToSet(order);
    }
    InsertCovers(w.db, w.db, w.logs, w.starters, p, Some(Starter(j, order, clear)));
  }

  /** The start: everything on the list has been published, so the job may become RUNNING. */
  lemma StartCovers(cfg: Config, w: World, p: nat)
    requires CoverInv(cfg, w) && CanStart(w, p)
    ensures var next := JobStarted(w, p); Covered(next.db, next.logs, next.starters)
  {
    var j, next := w.starters[p].job, JobStarted(w, p);
    assert StarterCovered(w.db, w.logs, w.starters[p]) && StarterOk(w.db, w.starters[p]);
    forall t | t in next.db.tasks && Unsettled(next.db.tasks[t]) && JobRunning(next.db, next.db.tasks[t].jobId)
      ensures Awaited(next.logs, t)
    {
      assert next.db.tasks[t].jobId == j || JobRunning(w.db, next.db.tasks[t].jobId);
    }
    forall q | q in next.starters
      ensures StarterCovered(next.db, next.logs, next.starters[q])
    {
      assert StarterCovered(w.db, w.logs, w.starters[q]);
    }
  }

  lemma DeliveryStepCovers(cfg: Config, w: World, e: Event)
    requires CoverInv(cfg, w) && CanStep(cfg, w, e) && Faultless(e) && IsDelivery(e)
    ensures var next := Apply(cfg, w, e); Covered(next.db, next.logs, next.starters)
  {
    match e
    case Load(l) => LoadCovers(cfg, w, l);
    case Skip(l) => SkipCovers(cfg, w, l);
    case Work(l, work) => WorkCovers(cfg, w, l, work);
    case PublishRetry(l, target) => RetryPublishCovers(cfg, w, l, target.value);
    case PublishDlq(l, ok) => DlqPublishCovers(cfg, w, l, ok);
    case Next(l, commit) => MoveCovers(cfg, w, l, Advanced(w, l, commit).logs[l]);
    case CrashConsumer(l) =>
      assert LogOk(w.db, w.logs[l]);
      MoveCovers(cfg, w, l, CrashedConsumer(w, l).logs[l]);
  }

  lemma CreationStepCovers(cfg: Config, w: World, e: Event)
    requires CoverInv(cfg, w) && CanStep(cfg, w, e) && IsCreation(e)
    ensures var next := Apply(cfg, w, e); Covered(next.db, next.logs, next.starters)
  {
    match e
    case Open(p, j, job, rows, order) => OpenCovers(cfg, w, p, j, job, rows, order);
    case OpenSettled(j, job, rows, _) => OpenSettledCovers(cfg, w, j, job, rows);
    case Resume(p, j, order, clear) => ResumeCovers(cfg, w, p, j, order, clear);
    case AddRows(p, rows, order, _, _) => AddRowsCovers(cfg, w, p, rows, order);
    case Publish(p, into) => PublishCovers(cfg, w, p, into);
    case Republish(t, into) => AppendCovers(cfg, w, into, t);
  }

  /** The remaining steps start no job, touch no message and keep the lists of the starters that stay. */
  ghost predicate Quiet(w: World, next: World) {
    && next.logs == w.logs && next.db.tasks.Keys == w.db.tasks.Keys
    && (forall j :: JobRunning(next.db, j) ==> JobRunning(w.db, j))
    && (forall p :: p in next.starters ==> p in w.starters && next.starters[p].job == w.starters[p].job && next.starters[p].todo == w.starters[p].todo)
  }

  lemma EndingsAreQuiet(cfg: Config, w: World, e: Event)
    requires CanStep(cfg, w, e) && IsEnding(e) && !e.Start?
    ensures Quiet(w, Apply(cfg, w, e))
  {
  }

  lemma FinalisersAreQuiet(cfg: Config, w: World, e: Event)
    requires Inv(cfg, w) && CanStep(cfg, w, e) && !IsDelivery(e) && !IsCreation(e) && !IsEnding(e)
    ensures Quiet(w, Apply(cfg, w, e))
  {
  }

  lemma QuietCovers(cfg: Config, w: World, next: World)
    requires CoverInv(cfg, w) && Kept(cfg, w, next, {}) && Quiet(w, next)
    ensures Covered(next.db, next.logs, next.starters)
  {
    StartersLive(cfg, next);
    TablesCover(w.db, next.db, w.logs, next.logs, w.starters, next.starters);
  }

  lemma StepCovers(cfg: Config, w: World, e: Event)
    requires CoverInv(cfg, w) && CanStep(cfg, w, e) && Faultless(e)
    ensures CoverInv(cfg, Apply(cfg, w, e))
  {
    StepKeeps(cfg, w, e);
    if IsDelivery(e) {
      DeliveryStepCovers(cfg, w, e);
    } else if IsCreation(e) {
      CreationStepCovers(cfg, w, e);
    } else if e.Start? {
      StartCovers(cfg, w, e.p);
    } else {
      if IsEnding(e) {
        EndingsAreQuiet(cfg, w, e);
      } else {
        FinalisersAreQuiet(cfg, w, e);
      }
      QuietCovers(cfg, w, Apply(cfg, w, e));
    }
  }

  // ---------------------------------------------------------------- no lost work

  /** Steps in which publishing to the retry topic succeeds. */
  ghost function SafeStep(cfg: Config): (World, Event) -> Option<World> {
    (w: World, e: Event) => if CanStep(cfg, w, e) && Faultless(e) then Some(Apply(cfg, w, e)) else None
  }

  ghost predicate SafelyReachable(cfg: Config, w: World) {
    exists init: World, es: seq<Event> ::
      IsInitial(init) && CanRun(SafeStep(cfg), init, es) && After(SafeStep(cfg), init, es) == w
  }

  lemma SafeRunCovers(cfg: Config, w: World, es: seq<Event>)
    requires CoverInv(cfg, w) && CanRun(SafeStep(cfg), w, es)
    ensures CoverInv(cfg, After(SafeStep(cfg), w, es))
  {
    var inv := (s: World) => CoverInv(cfg, s);
    forall s, e | inv(s) && SafeStep(cfg)(s, e).Some?
      ensures inv(SafeStep(cfg)(s, e).value)
    {
      StepCovers(cfg, s, e);
    }
    Invariance(SafeStep(cfg), inv, w, es);
  }

  lemma SafelyReachableCovers(cfg: Config, w: World)
    requires SafelyReachable(cfg, w)
    ensures CoverInv(cfg, w)
  {
    var init: World, es: seq<Event> :| IsInitial(init) && CanRun(SafeStep(cfg), init, es) && After(SafeStep(cfg), init, es) == w;
    SafeRunCovers(cfg, init, es);
  }

  /** In every state reached without a failed retry publish, crashes and redeliveries included, an unfinished task of a
      RUNNING job has a message at or after the position, and so the committed offset, of some partition's consumer. */
  lemma NoTaskIsLost(cfg: Config, w: World, t: Id)
    requires SafelyReachable(cfg, w) && t in w.db.tasks && Unsettled(w.db.tasks[t]) && JobRunning(w.db, w.db.tasks[t].jobId)
    ensures exists l, k :: l in w.logs && w.logs[l].committed <= w.logs[l].pos <= k < |w.logs[l].messages| && w.logs[l].messages[k] == t
  {
    SafelyReachableCovers(cfg, w);
    var l, k :| AwaitedAt(w.logs, l, k, t);
    assert LogOk(w.db, w.logs[l]);
  }
}
