/** How often a task can be executed, and how often it can be dead-lettered. */
module Bounded {
  import opened Options
  import opened Domain
  import opened Store
  import opened Finalizer
  import opened Runs
  import opened Protocol
  import opened Invariants
  import opened Lifecycle

  /** How a consumer stops executing a task: a step that ends it, its final publish, or a crash. */
  ghost predicate ActiveUntil(w: World, e: Event, next: World) {
    forall l :: l in w.logs && w.logs[l].phase.Active? ==>
      && l in next.logs
      && (next.logs[l].phase == w.logs[l].phase || (e.Work? && e.l == l) || e == CrashConsumer(l)
          || w.logs[l].phase.stage == Requeueing || w.logs[l].phase.stage == Exhausting)
  }

  predicate CrashesOn(w: World, e: Event, t: Id) {
    e.CrashConsumer? && e.l in w.logs && w.logs[e.l].phase.Active? && w.logs[e.l].phase.task == t
  }

  ghost predicate CrashesCounted(w: World, e: Event, next: World) {
    forall t :: Count(next.history.crashes, t) == Count(w.history.crashes, t) + if CrashesOn(w, e, t) then 1 else 0
  }

  lemma DeliveriesEnd(cfg: Config, w: World, e: Event)
    requires CanStep(cfg, w, e) && IsDelivery(e)
    ensures ActiveUntil(w, e, Apply(cfg, w, e)) && CrashesCounted(w, e, Apply(cfg, w, e))
  {
  }

  lemma OthersEndNothing(w: World, e: Event, next: World)
    requires Undelivered(w, next) && !IsDelivery(e)
    ensures ActiveUntil(w, e, next) && CrashesCounted(w, e, next)
  {
  }

  lemma StepEnds(cfg: Config, w: World, e: Event)
    requires CanStep(cfg, w, e)
    ensures ActiveUntil(w, e, Apply(cfg, w, e)) && CrashesCounted(w, e, Apply(cfg, w, e))
  {
    if IsDelivery(e) {
      DeliveriesEnd(cfg, w, e);
    } else {
      OthersDeliverNothing(cfg, w, e);
      OthersEndNothing(w, e, Apply(cfg, w, e));
    }
  }

  /** A step as far as counting goes. */
  ghost predicate Counted(cfg: Config, w: World, e: Event, next: World) {
    Follows(cfg, w, e, next) && ActiveUntil(w, e, next) && CrashesCounted(w, e, next)
  }

  // ---------------------------------------------------------------- the execution budget

  predicate IsActive(phase: Phase, t: Id) {
    phase.Active? && phase.task == t
  }

  predicate SomeoneActive(w: World, t: Id) {
    exists l :: l in w.logs && IsActive(w.logs[l].phase, t)
  }

  function Spent(w: World, t: Id): int {
    Count(w.history.execs, t) - Count(w.history.crashes, t)
  }

  /** Stages in which the current attempt has not been spent. */
  predicate Unspent(stage: Stage) {
    stage == Starting || stage == Started || stage == Requeueing
  }

  /** An attempt pays for one execution; while it is unspent, one execution fewer has happened. */
  ghost predicate BudgetOk(w: World, t: Id)
    requires t in w.db.tasks
  {
    var row := w.db.tasks[t];
    && Spent(w, t) <= row.attempt
    && (IsLive(row.status) && !SomeoneActive(w, t) ==> Spent(w, t) + 1 <= row.attempt)
    && (forall l :: l in w.logs && IsActive(w.logs[l].phase, t) ==>
          && (Unspent(w.logs[l].phase.stage) ==> Spent(w, t) + 1 <= row.attempt)
          && (w.logs[l].phase.stage == Failing || w.logs[l].phase.stage == Exhausting ==> !IsLive(row.status)))
  }

  ghost predicate Budget(w: World) {
    && (forall t :: t in w.db.tasks ==> BudgetOk(w, t))
    && (forall t :: t !in w.db.tasks ==> Count(w.history.execs, t) == 0)
  }

  lemma WorkSpends(row: Task, phase: Phase, work: WorkStep)
    requires CanWork(phase, work) && phase.mem.attempt == row.attempt && phase.mem.status == StageStatus(phase.stage)
    ensures var next, after := WorkedRow(row, phase, work), NextPhase(phase, work);
      && next.attempt == row.attempt + (if work.Requeue? then 1 else 0)
      && (after.Active? && Unspent(after.stage) ==> Unspent(phase.stage) || work.Requeue?)
      && (work.Execute? <==> Unspent(phase.stage) && after.Active? && after.stage == Executing)
      && (after.Active? && (after.stage == Failing || after.stage == Exhausting) ==> !IsLive(next.status))
      && (!after.Active? ==> !IsLive(next.status))
  {
  }

  lemma WorkKeepsBudget(cfg: Config, w: World, l: nat, work: WorkStep, t: Id)
    requires Inv(cfg, w) && l in w.logs && CanWork(w.logs[l].phase, work) && w.logs[l].phase.task == t
    requires t in w.db.tasks && BudgetOk(w, t)
    ensures t in Worked(w, l, work).db.tasks && BudgetOk(Worked(w, l, work), t)
  {
    var phase, next := w.logs[l].phase, Worked(w, l, work);
    assert LogOk(w.db, w.logs[l]);
    WorkSpends(w.db.tasks[t], phase, work);
    assert Spent(next, t) == Spent(w, t) + if work.Execute? then 1 else 0;
    forall m | m in next.logs && IsActive(next.logs[m].phase, t)
      ensures m == l
    {
      assert m != l ==> IsBusy(w.logs[l].phase, t) && IsBusy(w.logs[m].phase, t);
    }
    assert NextPhase(phase, work).Active? ==> IsActive(next.logs[l].phase, t);
  }

  /** A step that does not write the task's row: only a crash, a load or a final publish matters to it. */
  lemma OthersKeepBudget(cfg: Config, w: World, e: Event, next: World, t: Id)
    requires ActiveFrom(cfg, w, e, next) && ActiveUntil(w, e, next) && NoOverlap(w)
    requires t in w.db.tasks && BudgetOk(w, t) && t !in Touched(w, e)
    requires t in next.db.tasks && next.db.tasks[t].attempt == w.db.tasks[t].attempt
    requires next.db.tasks[t].status == w.db.tasks[t].status || IsTerminalJob(next.db.tasks[t].status)
    requires Spent(next, t) == Spent(w, t) - if CrashesOn(w, e, t) then 1 else 0
    ensures BudgetOk(next, t)
  {
    forall l | l in next.logs && IsActive(next.logs[l].phase, t) && next.logs[l].phase != w.logs[l].phase
      ensures next.logs[l].phase.stage == Starting && IsLive(w.db.tasks[t].status) && e == Load(l)
    {
    }
    if SomeoneActive(w, t) && !SomeoneActive(next, t) {
      var l :| l in w.logs && IsActive(w.logs[l].phase, t);
      assert next.logs[l].phase != w.logs[l].phase;
    }
    if !SomeoneActive(w, t) && SomeoneActive(next, t) {
      assert IsLive(w.db.tasks[t].status);
    }
  }

  /** How a step changes what has been spent on a task. */
  predicate SpentBy(w: World, e: Event, next: World, t: Id) {
    && Count(next.history.execs, t) == Count(w.history.execs, t) + (if Executes(w, e, t) then 1 else 0)
    && Count(next.history.crashes, t) == Count(w.history.crashes, t) + (if CrashesOn(w, e, t) then 1 else 0)
  }

  lemma NewTaskBudget(cfg: Config, w: World, e: Event, next: World, t: Id)
    requires LogsOk(w) && ActiveFrom(cfg, w, e, next) && t !in w.db.tasks && SpentBy(w, e, next, t)
    requires Count(w.history.execs, t) == 0
    ensures Count(next.history.execs, t) == 0
    ensures t in next.db.tasks && next.db.tasks[t].attempt == 1 ==> BudgetOk(next, t)
  {
    if e.Work? && e.l in w.logs {
      assert LogOk(w.db, w.logs[e.l]);
    }
    forall l | l in next.logs
      ensures !IsActive(next.logs[l].phase, t)
    {
      if next.logs[l].phase.Active? {
        assert LogOk(w.db, w.logs[l]);
      }
    }
  }

  lemma UndeliveredBudget(cfg: Config, w: World, e: Event, next: World, t: Id)
    requires ActiveFrom(cfg, w, e, next) && ActiveUntil(w, e, next) && NoOverlap(w) && Changes(w.db, next.db, Touched(w, e))
    requires t in w.db.tasks && BudgetOk(w, t) && t !in Touched(w, e) && SpentBy(w, e, next, t)
    ensures BudgetOk(next, t)
  {
    UntouchedRow(w.db, next.db, Touched(w, e), t);
    OthersKeepBudget(cfg, w, e, next, t);
  }

  lemma StepKeepsBudgetFor(cfg: Config, w: World, e: Event, next: World, t: Id)
    requires Counted(cfg, w, e, next) && Budget(w)
    ensures t in next.db.tasks ==> BudgetOk(next, t)
    ensures t !in next.db.tasks ==> Count(next.history.execs, t) == 0
  {
    assert SpentBy(w, e, next, t);
    if t !in w.db.tasks {
      NewTaskBudget(cfg, w, e, next, t);
    } else if t in Touched(w, e) {
      WorkKeepsBudget(cfg, w, e.l, e.work, t);
    } else {
      UndeliveredBudget(cfg, w, e, next, t);
    }
  }

  lemma StepKeepsBudget(cfg: Config, w: World, e: Event, next: World)
    requires Counted(cfg, w, e, next) && Budget(w)
    ensures Budget(next)
  {
    forall t
      ensures t in next.db.tasks ==> BudgetOk(next, t)
      ensures t !in next.db.tasks ==> Count(next.history.execs, t) == 0
    {
      StepKeepsBudgetFor(cfg, w, e, next, t);
    }
  }

  // ---------------------------------------------------------------- dead letters

  predicate BeingExhausted(w: World, t: Id) {
    exists l :: l in w.logs && IsActive(w.logs[l].phase, t) && w.logs[l].phase.stage == Exhausting
  }

  /** Nobody will execute an exhausted task again: its row says so while its job is live, and consumers busy with it
      only have the dead letter left to publish. */
  ghost predicate ExhaustedOk(w: World, t: Id) {
    && t in w.db.tasks
    && (JobLive(w.db, w.db.tasks[t].jobId) ==> w.db.tasks[t].status == MaxRetriesExhausted)
    && OnlyExhausting(w, t)
  }

  /** Where an exhausted task is: on the dead-letter topic, dropped on the way, or about to be sent; in one place only. */
  ghost predicate Accounted(dlq: seq<Id>, dropped: set<Id>, t: Id, beingExhausted: bool) {
    && (t in dlq ==> t !in dropped && !beingExhausted)
    && (t in dropped ==> !beingExhausted)
  }

  ghost predicate DeadLettersOk(w: World) {
    && Distinct(w.dlq)
    && (forall t :: t in w.history.exhausted <==> t in w.dlq || t in w.history.dropped || BeingExhausted(w, t))
    && (forall t :: t in w.history.exhausted ==> ExhaustedOk(w, t))
    && (forall t :: Accounted(w.dlq, w.history.dropped, t, BeingExhausted(w, t)))
    && (forall t :: t in w.db.tasks && w.db.tasks[t].status == MaxRetriesExhausted ==> t in w.history.exhausted)
  }

  /** Records unchanged, and the same tasks about to be dead-lettered. */
  ghost predicate LettersKept(w: World, next: World) {
    && next.dlq == w.dlq && next.history.exhausted == w.history.exhausted && next.history.dropped == w.history.dropped
    && forall t :: BeingExhausted(next, t) <==> BeingExhausted(w, t)
  }

  /** A task leaves the stage before the dead letter, published or dropped. */
  ghost predicate LetterSent(w: World, next: World, t: Id) {
    && BeingExhausted(w, t) && !BeingExhausted(next, t) && next.history.exhausted == w.history.exhausted
    && ((next.dlq == w.dlq + [t] && next.history.dropped == w.history.dropped)
        || (next.dlq == w.dlq && next.history.dropped == w.history.dropped + {t}))
    && forall u :: u != t ==> (BeingExhausted(next, u) <==> BeingExhausted(w, u))
  }

  /** A task reaches it. */
  ghost predicate LetterDue(w: World, next: World, t: Id) {
    && BeingExhausted(next, t) && next.history.exhausted == w.history.exhausted + {t}
    && next.dlq == w.dlq && next.history.dropped == w.history.dropped
    && forall u :: u != t ==> (BeingExhausted(next, u) <==> BeingExhausted(w, u))
  }

  lemma PhaseMovesLetters(w: World, next: World, l: nat)
    requires NoOverlap(w) && l in w.logs && next.logs.Keys == w.logs.Keys && forall m :: m in w.logs && m != l ==> next.logs[m] == w.logs[m]
    ensures forall t :: !IsActive(w.logs[l].phase, t) && !IsActive(next.logs[l].phase, t) ==> (BeingExhausted(next, t) <==> BeingExhausted(w, t))
    ensures forall t :: IsActive(w.logs[l].phase, t) ==> (BeingExhausted(w, t) <==> w.logs[l].phase.stage == Exhausting)
    ensures forall t :: IsActive(w.logs[l].phase, t) ==>
      (BeingExhausted(next, t) <==> IsActive(next.logs[l].phase, t) && next.logs[l].phase.stage == Exhausting)
  {
    forall m, t | m in w.logs && m != l && IsActive(w.logs[l].phase, t)
      ensures !IsActive(w.logs[m].phase, t)
    {
      assert IsBusy(w.logs[l].phase, t);
    }
  }

  lemma WorkMovesLetters(cfg: Config, w: World, l: nat, work: WorkStep)
    requires Inv(cfg, w) && l in w.logs && CanWork(w.logs[l].phase, work)
    ensures if work.Exhaust? then LetterDue(w, Worked(w, l, work), w.logs[l].phase.task) else LettersKept(w, Worked(w, l, work))
  {
    PhaseMovesLetters(w, Worked(w, l, work), l);
    assert IsActive(w.logs[l].phase, w.logs[l].phase.task);
  }

  lemma LoadKeepsLetters(cfg: Config, w: World, l: nat)
    requires Inv(cfg, w) && CanLoad(w, l)
    ensures LettersKept(w, Loaded(cfg, w, l))
  {
    PhaseMovesLetters(w, Loaded(cfg, w, l), l);
    forall t | IsActive(Loaded(cfg, w, l).logs[l].phase, t)
      ensures BeingExhausted(Loaded(cfg, w, l), t) <==> BeingExhausted(w, t)
    {
      forall m | m in w.logs && m != l
        ensures Loaded(cfg, w, l).logs[m] == w.logs[m]
      {
      }
    }
  }

  lemma DlqPublishMovesLetters(cfg: Config, w: World, l: nat, ok: bool)
    requires Inv(cfg, w) && At(w, l, Exhausting)
    ensures LetterSent(w, DlqPublished(w, l, ok), w.logs[l].phase.task)
  {
    PhaseMovesLetters(w, DlqPublished(w, l, ok), l);
    assert IsActive(w.logs[l].phase, w.logs[l].phase.task);
  }

  lemma CrashMovesLetters(cfg: Config, w: World, l: nat)
    requires Inv(cfg, w) && l in w.logs
    ensures if At(w, l, Exhausting) then LetterSent(w, CrashedConsumer(w, l), w.logs[l].phase.task) else LettersKept(w, CrashedConsumer(w, l))
  {
    PhaseMovesLetters(w, CrashedConsumer(w, l), l);
    if w.logs[l].phase.Active? {
      assert IsActive(w.logs[l].phase, w.logs[l].phase.task);
    }
  }

  lemma RetryPublishKeepsLetters(cfg: Config, w: World, l: nat, target: Option<nat>)
    requires Inv(cfg, w) && At(w, l, Requeueing) && (target.Some? ==> target.value in w.logs)
    ensures LettersKept(w, RetryPublished(w, l, target))
  {
    var t := w.logs[l].phase.task;
    var mid := WithPhase(w, l, Done(t));
    PhaseMovesLetters(w, mid, l);
    assert IsActive(w.logs[l].phase, t);
    assert LettersKept(w, mid);
    SamePhasesKeepLetters(mid, RetryPublished(w, l, target));
  }

  lemma SamePhasesKeepLetters(w: World, next: World)
    requires next.logs.Keys == w.logs.Keys && forall l :: l in w.logs ==> next.logs[l].phase == w.logs[l].phase
    ensures forall t :: BeingExhausted(next, t) <==> BeingExhausted(w, t)
  {
  }

  lemma RestKeepsLetters(cfg: Config, w: World, l: nat)
    requires Inv(cfg, w) && l in w.logs
    ensures forall commit :: CanAdvance(w, l, commit) ==> LettersKept(w, Advanced(w, l, commit))
    ensures InPhase(w, l, true) ==> LettersKept(w, Skipped(w, l))
  {
    forall commit | CanAdvance(w, l, commit)
      ensures LettersKept(w, Advanced(w, l, commit))
    {
      PhaseMovesLetters(w, Advanced(w, l, commit), l);
    }
    if InPhase(w, l, true) {
      PhaseMovesLetters(w, Skipped(w, l), l);
    }
  }

  /** What a step does to the dead letters. */
  ghost predicate LettersMoved(w: World, e: Event, next: World) {
    if e.Work? && e.work.Exhaust? then
      e.l in w.logs && CanWork(w.logs[e.l].phase, e.work) && LetterDue(w, next, w.logs[e.l].phase.task)
    else
      LettersKept(w, next) || exists t :: LetterSent(w, next, t)
  }

  lemma DeliveryMovesLetters(cfg: Config, w: World, e: Event)
    requires Inv(cfg, w) && CanStep(cfg, w, e) && IsDelivery(e)
    ensures LettersMoved(w, e, Apply(cfg, w, e))
  {
    match e
    case Load(l) => LoadKeepsLetters(cfg, w, l);
    case Skip(l) => RestKeepsLetters(cfg, w, l);
    case Work(l, work) => WorkMovesLetters(cfg, w, l, work);
    case PublishRetry(l, target) => RetryPublishKeepsLetters(cfg, w, l, target);
    case PublishDlq(l, ok) => DlqPublishMovesLetters(cfg, w, l, ok);
    case Next(l, commit) => RestKeepsLetters(cfg, w, l);
    case CrashConsumer(l) => CrashMovesLetters(cfg, w, l);
  }

  lemma StepMovesLetters(cfg: Config, w: World, e: Event)
    requires Inv(cfg, w) && CanStep(cfg, w, e)
    ensures LettersMoved(w, e, Apply(cfg, w, e))
  {
    if IsDelivery(e) {
      DeliveryMovesLetters(cfg, w, e);
    } else {
      OthersDeliverNothing(cfg, w, e);
      SamePhasesKeepLetters(w, Apply(cfg, w, e));
    }
  }

  /** An exhausted task stays exhausted: no load decides to execute it again. */
  lemma StaysExhausted(cfg: Config, w: World, e: Event, next: World, t: Id)
    requires ActiveFrom(cfg, w, e, next) && Changes(w.db, next.db, Touched(w, e)) && ExhaustedOk(w, t)
    requires w.db.tasks[t].jobId in w.db.jobs && (e.Work? ==> e.l in w.logs && CanWork(w.logs[e.l].phase, e.work))
    ensures ExhaustedOk(next, t)
  {
    UntouchedRow(w.db, next.db, Touched(w, e), t);
    LiveBefore(w.db, next.db, Touched(w, e), w.db.tasks[t].jobId);
  }

  lemma JustExhausted(cfg: Config, w: World, l: nat, text: string)
    requires Inv(cfg, w) && l in w.logs && CanWork(w.logs[l].phase, Exhaust(text))
    ensures ExhaustedOk(Worked(w, l, Exhaust(text)), w.logs[l].phase.task)
  {
    assert LogOk(w.db, w.logs[l]);
    var t := w.logs[l].phase.task;
    forall m | m in w.logs && m != l
      ensures !IsActive(w.logs[m].phase, t)
    {
      assert IsBusy(w.logs[l].phase, t);
    }
  }

  lemma ExhaustedStatusOrigin(cfg: Config, w: World, e: Event, next: World, t: Id)
    requires Changes(w.db, next.db, Touched(w, e)) && t in next.db.tasks && next.db.tasks[t].status == MaxRetriesExhausted
    requires e.Work? ==> e.l in w.logs && LogOk(w.db, w.logs[e.l]) && CanWork(w.logs[e.l].phase, e.work) && next == Worked(w, e.l, e.work)
    ensures (t in w.db.tasks && w.db.tasks[t].status == MaxRetriesExhausted) || (e.Work? && e.work.Exhaust? && t == w.logs[e.l].phase.task)
  {
    if t in w.db.tasks && t !in Touched(w, e) {
      UntouchedRow(w.db, next.db, Touched(w, e), t);
    }
  }

  lemma LettersStayOk(w: World, e: Event, next: World)
    requires DeadLettersOk(w) && LettersMoved(w, e, next)
    requires forall t :: t in next.history.exhausted ==> ExhaustedOk(next, t)
    requires forall t :: t in next.db.tasks && next.db.tasks[t].status == MaxRetriesExhausted ==> t in next.history.exhausted
    requires e.Work? && e.work.Exhaust? && e.l in w.logs && w.logs[e.l].phase.Active? ==> w.logs[e.l].phase.stage == Failing
    ensures DeadLettersOk(next)
  {
    forall t
      ensures t in next.history.exhausted <==> t in next.dlq || t in next.history.dropped || BeingExhausted(next, t)
      ensures Accounted(next.dlq, next.history.dropped, t, BeingExhausted(next, t))
    {
      assert Accounted(w.dlq, w.history.dropped, t, BeingExhausted(w, t));
      if e.Work? && e.work.Exhaust? && t == w.logs[e.l].phase.task {
        assert IsActive(w.logs[e.l].phase, t);
        assert t in w.history.exhausted ==> ExhaustedOk(w, t);
      }
    }
  }

  lemma StepKeepsLetters(cfg: Config, w: World, e: Event, next: World)
    requires Follows(cfg, w, e, next) && LettersMoved(w, e, next) && DeadLettersOk(w)
    ensures DeadLettersOk(next)
  {
    forall t | t in next.history.exhausted
      ensures ExhaustedOk(next, t)
    {
      if t in w.history.exhausted {
        assert ExhaustedOk(w, t);
        StaysExhausted(cfg, w, e, next, t);
      } else {
        JustExhausted(cfg, w, e.l, e.work.text);
      }
    }
    forall t | t in next.db.tasks && next.db.tasks[t].status == MaxRetriesExhausted
      ensures t in next.history.exhausted
    {
      if e.Work? {
        assert LogOk(w.db, w.logs[e.l]);
      }
      ExhaustedStatusOrigin(cfg, w, e, next, t);
    }
    LettersStayOk(w, e, next);
  }

  // ---------------------------------------------------------------- over whole runs

  ghost predicate CountInv(cfg: Config, w: World) {
    Inv(cfg, w) && Budget(w) && DeadLettersOk(w)
  }

  lemma StepKeepsCounts(cfg: Config, w: World, e: Event)
    requires CountInv(cfg, w) && CanStep(cfg, w, e)
    ensures CountInv(cfg, Apply(cfg, w, e))
  {
    var next := Apply(cfg, w, e);
    StepFollows(cfg, w, e);
    StepEnds(cfg, w, e);
    StepMovesLetters(cfg, w, e);
    StepKeepsBudget(cfg, w, e, next);
    StepKeepsLetters(cfg, w, e, next);
  }

  lemma RunKeepsCounts(cfg: Config, w: World, es: seq<Event>)
    requires CountInv(cfg, w) && CanRun(Step(cfg), w, es)
    ensures CountInv(cfg, After(Step(cfg), w, es))
  {
    var inv := (s: World) => CountInv(cfg, s);
    forall s, e | inv(s) && Step(cfg)(s, e).Some?
      ensures inv(Step(cfg)(s, e).value)
    {
      StepKeepsCounts(cfg, s, e);
    }
    Invariance(Step(cfg), inv, w, es);
  }

  lemma InitialCounts(cfg: Config, init: World)
    requires IsInitial(init)
    ensures CountInv(cfg, init)
  {
  }

  lemma ReachableCounts(cfg: Config, w: World)
    requires Reachable(cfg, w)
    ensures CountInv(cfg, w)
  {
    var init: World, es: seq<Event> :| IsInitial(init) && CanRun(Step(cfg), init, es) && After(Step(cfg), init, es) == w;
    InitialCounts(cfg, init);
    RunKeepsCounts(cfg, init, es);
  }

  /** However often its messages are delivered, a task's attempt stays between 1 and max(1, max_retries), and it is
      executed at most max(1, max_retries) times, plus once for every crash in the middle of a delivery of it. */
  lemma ExecutionsAreBounded(cfg: Config, w: World, t: Id)
    requires Reachable(cfg, w) && t in w.db.tasks
    ensures 1 <= w.db.tasks[t].attempt <= Max(1, w.db.tasks[t].maxRetries)
    ensures Count(w.history.execs, t) <= Max(1, w.db.tasks[t].maxRetries) + Count(w.history.crashes, t)
  {
    ReachableCounts(cfg, w);
    assert BudgetOk(w, t) && InBounds(w.db.tasks[t]);
  }

  /** The dead-letter topic holds each task at most once, and only exhausted ones. Between deliveries, the exhausted
      tasks are exactly those on the topic and those dropped by a crash or a failed or unconfigured publish; every task
      whose row reads MAX_RETRIES_EXHAUSTED is among them. While its job is live, a dead-lettered task's row reads so. */
  lemma DeadLettersAreTheExhausted(cfg: Config, w: World)
    requires Reachable(cfg, w)
    ensures Distinct(w.dlq) && ToSet(w.dlq) !! w.history.dropped && ToSet(w.dlq) <= w.history.exhausted
    ensures (forall l :: l in w.logs ==> w.logs[l].phase.Idle?) ==> w.history.exhausted == ToSet(w.dlq) + w.history.dropped
    ensures forall t :: t in w.db.tasks && w.db.tasks[t].status == MaxRetriesExhausted ==> t in w.history.exhausted
    ensures forall t :: t in w.dlq ==>
              t in w.db.tasks && (JobLive(w.db, w.db.tasks[t].jobId) ==> w.db.tasks[t].status == MaxRetriesExhausted)
  {
    ReachableCounts(cfg, w);
    LettersAddUp(w);
    forall t | t in w.dlq
      ensures ExhaustedOk(w, t)
    {
      assert t in w.history.exhausted;
    }
  }

  lemma LettersAddUp(w: World)
    requires DeadLettersOk(w)
    ensures ToSet(w.dlq) !! w.history.dropped
    ensures ToSet(w.dlq) <= w.history.exhausted
    ensures (forall l :: l in w.logs ==> w.logs[l].phase.Idle?) ==> w.history.exhausted == ToSet(w.dlq) + w.history.dropped
  {
    forall t | t in ToSet(w.dlq)
      ensures t in w.history.exhausted && t !in w.history.dropped
    {
      assert t in w.dlq && Accounted(w.dlq, w.history.dropped, t, BeingExhausted(w, t));
    }
    assert forall t :: Accounted(w.dlq, w.history.dropped, t, BeingExhausted(w, t));
    assert forall t :: t in ToSet(w.dlq) <==> t in w.dlq;
    if forall l :: l in w.logs ==> w.logs[l].phase.Idle? {
      assert forall t :: !BeingExhausted(w, t);
      assert forall t :: t in w.history.exhausted <==> t in ToSet(w.dlq) + w.history.dropped;
    }
  }
}
