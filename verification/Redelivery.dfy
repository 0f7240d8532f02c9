/** What the committed offsets decide: which unfinished tasks consumers can still execute, and what ends that for a task
    whose retry message was never written. */
module Redelivery {
  import opened Options
  import opened Domain
  import opened Store
  import opened Finalizer
  import opened Runs
  import opened Protocol
  import opened Invariants
  import opened NoLostWork

  /** A message for the task lies at or past a partition's committed offset: a consumer will read it, or will read it again
      after a restart. A task a consumer is at work on has one, its own. */
  predicate LiesAt(logs: Logs, l: nat, k: nat, t: Id) {
    l in logs && logs[l].committed <= k < |logs[l].messages| && logs[l].messages[k] == t
  }

  ghost predicate Redeliverable(logs: Logs, t: Id) {
    exists l, k :: LiesAt(logs, l, k, t)
  }

  /** Steps of consumers only: deliveries, commits, crashes. */
  ghost predicate ConsumersLead(cfg: Config, w: World, es: seq<Event>, next: World) {
    Leads(cfg, w, es, next) && forall e :: e in es ==> IsDelivery(e)
  }

  /** Some run of the consumers calls the task's executor once more. */
  ghost predicate CanBeExecuted(cfg: Config, w: World, t: Id) {
    exists es, next :: ConsumersLead(cfg, w, es, next) && Count(next.history.execs, t) > Count(w.history.execs, t)
  }

  lemma ConsumersFollow(cfg: Config, w: World, a: seq<Event>, mid: World, b: seq<Event>, next: World)
    requires ConsumersLead(cfg, w, a, mid) && ConsumersLead(cfg, mid, b, next)
    ensures ConsumersLead(cfg, w, a + b, next)
  {
    Follow(cfg, w, a, mid, b, next);
  }

  lemma ConsumerStep(cfg: Config, w: World, e: Event)
    requires CanStep(cfg, w, e) && IsDelivery(e)
    ensures ConsumersLead(cfg, w, [e], Apply(cfg, w, e))
  {
    OneEvent(cfg, w, e);
  }

  // ---------------------------------------------------------------- without a message, never again

  /** Consumers may publish messages for other tasks, and move offsets forward. */
  ghost predicate NoMessageFor(logs: Logs, next: Logs, t: Id) {
    forall l, k :: LiesAt(next, l, k, t) ==> LiesAt(logs, l, k, t)
  }

  lemma StayingPut(logs: Logs, l: nat, log: Log, t: Id)
    requires l in logs && log.messages == logs[l].messages && log.committed >= logs[l].committed
    ensures NoMessageFor(logs, logs[l := log], t)
  {
  }

  lemma RetryForAnother(w: World, l: nat, target: Option<nat>, t: Id)
    requires At(w, l, Requeueing) && (target.Some? ==> target.value in w.logs) && w.logs[l].phase.task != t
    ensures NoMessageFor(w.logs, RetryPublished(w, l, target).logs, t)
  {
  }

  lemma DeliveriesBringNothing(cfg: Config, w: World, e: Event, t: Id)
    requires Inv(cfg, w) && CanStep(cfg, w, e) && IsDelivery(e) && !Redeliverable(w.logs, t)
    ensures NoMessageFor(w.logs, Apply(cfg, w, e).logs, t) && !Executes(w, e, t)
  {
    NobodyAtWork(cfg, w, t);
    match e
    case Load(l) => StayingPut(w.logs, l, Loaded(cfg, w, l).logs[l], t);
    case Skip(l) => StayingPut(w.logs, l, Skipped(w, l).logs[l], t);
    case Work(l, work) => StayingPut(w.logs, l, Worked(w, l, work).logs[l], t);
    case PublishRetry(l, target) => RetryForAnother(w, l, target, t);
    case PublishDlq(l, ok) => StayingPut(w.logs, l, DlqPublished(w, l, ok).logs[l], t);
    case Next(l, commit) =>
      assert LogOk(w.db, w.logs[l]);
      StayingPut(w.logs, l, Advanced(w, l, commit).logs[l], t);
    case CrashConsumer(l) => StayingPut(w.logs, l, CrashedConsumer(w, l).logs[l], t);
  }

  /** The message of a task at work lies at its consumer's position. */
  lemma NobodyAtWork(cfg: Config, w: World, t: Id)
    requires Inv(cfg, w) && !Redeliverable(w.logs, t)
    ensures forall l :: l in w.logs && w.logs[l].phase.Active? ==> w.logs[l].phase.task != t
  {
    forall l | l in w.logs && w.logs[l].phase.Active?
      ensures w.logs[l].phase.task != t
    {
      assert LogOk(w.db, w.logs[l]);
      assert LiesAt(w.logs, l, w.logs[l].pos, w.logs[l].phase.task);
    }
  }

  lemma {:induction false} NeverAgain(cfg: Config, w: World, es: seq<Event>, next: World, t: Id)
    requires Inv(cfg, w) && !Redeliverable(w.logs, t) && ConsumersLead(cfg, w, es, next)
    ensures Count(next.history.execs, t) == Count(w.history.execs, t) && !Redeliverable(next.logs, t)
    decreases |es|
  {
    if es != [] {
      var e, mid := es[0], Apply(cfg, w, es[0]);
      StepKeeps(cfg, w, e);
      ExecutionsCount(cfg, w, e);
      DeliveriesBringNothing(cfg, w, e, t);
      NeverAgain(cfg, mid, es[1..], next, t);
    }
  }

  // ---------------------------------------------------------------- with one, once more

  ghost predicate Resting(logs: Logs) {
    forall l :: l in logs ==> logs[l].phase.Idle?
  }

  /** Restarted consumers: idle, back at their committed offsets. */
  function Restarted(logs: Logs, ls: set<nat>): Logs {
    map l | l in logs :: if l in ls then logs[l].(pos := logs[l].committed, phase := Idle) else logs[l]
  }

  lemma {:induction false} RestartSome(cfg: Config, w: World, ls: set<nat>) returns (es: seq<Event>, next: World)
    requires ls <= w.logs.Keys
    ensures ConsumersLead(cfg, w, es, next)
    ensures next.db == w.db && next.logs == Restarted(w.logs, ls) && next.history.execs == w.history.execs
    decreases ls
  {
    if ls == {} {
      es, next := [], w;
      assert Restarted(w.logs, ls) == w.logs;
    } else {
      var l :| l in ls;
      var before, mid := RestartSome(cfg, w, ls - {l});
      ConsumerStep(cfg, mid, CrashConsumer(l));
      next := CrashedConsumer(mid, l);
      ConsumersFollow(cfg, w, before, mid, [CrashConsumer(l)], next);
      es := before + [CrashConsumer(l)];
      assert next.logs == Restarted(w.logs, ls);
    }
  }

  /** One consumer at work on another task's message: that task's row and this consumer's stage are all that changes. */
  ghost predicate AtAnother(w: World, l: nat, u: Id, next: World) {
    && next.db.jobs == w.db.jobs && next.db.tasks.Keys == w.db.tasks.Keys && (forall t :: t in w.db.tasks && t != u ==> next.db.tasks[t] == w.db.tasks[t])
    && next.logs.Keys == w.logs.Keys && l in w.logs && next.logs == w.logs[l := next.logs[l]]
    && next.logs[l].messages == w.logs[l].messages && next.logs[l].pos == w.logs[l].pos
    && forall t :: t != u ==> Count(next.history.execs, t) == Count(w.history.execs, t)
  }

  lemma LoadAtAnother(cfg: Config, w: World, l: nat)
    requires CanLoad(w, l)
    ensures AtAnother(w, l, w.logs[l].messages[w.logs[l].pos], Loaded(cfg, w, l))
  {
  }

  lemma WorkAtAnother(cfg: Config, w: World, l: nat, work: WorkStep)
    requires l in w.logs && CanWork(w.logs[l].phase, work)
    ensures ConsumersLead(cfg, w, [Work(l, work)], Worked(w, l, work)) && AtAnother(w, l, w.logs[l].phase.task, Worked(w, l, work))
    ensures Worked(w, l, work).logs[l].phase == NextPhase(w.logs[l].phase, work)
  {
    ConsumerStep(cfg, w, Work(l, work));
  }

  lemma StillAtAnother(w: World, l: nat, u: Id, mid: World, next: World)
    requires AtAnother(w, l, u, mid) && AtAnother(mid, l, u, next)
    ensures AtAnother(w, l, u, next)
  {
  }

  /** The other task is executed and finished. */
  lemma FinishAtAnother(cfg: Config, w: World, l: nat) returns (es: seq<Event>, next: World)
    requires At(w, l, Starting)
    ensures ConsumersLead(cfg, w, es, next) && AtAnother(w, l, w.logs[l].phase.task, next) && next.logs[l].phase.Done?
  {
    var u, begun := w.logs[l].phase.task, Worked(w, l, Begin);
    WorkAtAnother(cfg, w, l, Begin);
    var executed := Worked(begun, l, Execute);
    WorkAtAnother(cfg, begun, l, Execute);
    ConsumersFollow(cfg, w, [Work(l, Begin)], begun, [Work(l, Execute)], executed);
    StillAtAnother(w, l, u, begun, executed);
    next := Worked(executed, l, Finish(""));
    WorkAtAnother(cfg, executed, l, Finish(""));
    es := [Work(l, Begin)] + [Work(l, Execute)];
    ConsumersFollow(cfg, w, es, executed, [Work(l, Finish(""))], next);
    es := es + [Work(l, Finish(""))];
    StillAtAnother(w, l, u, executed, next);
  }

  /** From a loaded message of another task to one that is dealt with. */
  lemma DealWithAnother(cfg: Config, w: World, l: nat, u: Id) returns (es: seq<Event>, next: World)
    requires l in w.logs && w.logs[l].phase == Decide(cfg, w.db, u)
    ensures ConsumersLead(cfg, w, es, next) && AtAnother(w, l, u, next) && (next.logs[l].phase.Done? || next.logs[l].phase.Errored?)
  {
    if w.logs[l].phase.Active? {
      es, next := FinishAtAnother(cfg, w, l);
    } else if w.logs[l].phase.Skipping? {
      ConsumerStep(cfg, w, Skip(l));
      es, next := [Skip(l)], Skipped(w, l);
    } else {
      es, next := [], w;
      assert w.logs == w.logs[l := w.logs[l]];
    }
  }

  /** One message passed: the reader has moved on, the task we follow is as it was. */
  ghost predicate Passed(w: World, l: nat, t: Id, next: World) {
    && l in w.logs && next.db.jobs == w.db.jobs && t in w.db.tasks && t in next.db.tasks && next.db.tasks[t] == w.db.tasks[t]
    && next.logs.Keys == w.logs.Keys && Resting(next.logs) && next.logs[l].messages == w.logs[l].messages
    && Count(next.history.execs, t) == Count(w.history.execs, t)
  }

  lemma PassMessage(cfg: Config, w: World, l: nat, t: Id) returns (es: seq<Event>, next: World)
    requires Resting(w.logs) && t in w.db.tasks && CanLoad(w, l) && w.logs[l].messages[w.logs[l].pos] != t
    ensures ConsumersLead(cfg, w, es, next) && Passed(w, l, t, next) && next.logs[l].pos == w.logs[l].pos + 1
  {
    var u, loaded := w.logs[l].messages[w.logs[l].pos], Loaded(cfg, w, l);
    ConsumerStep(cfg, w, Load(l));
    LoadAtAnother(cfg, w, l);
    var more, dealt := DealWithAnother(cfg, loaded, l, u);
    ConsumersFollow(cfg, w, [Load(l)], loaded, more, dealt);
    var commit := dealt.logs[l].phase.Done?;
    ConsumerStep(cfg, dealt, Next(l, commit));
    next := Advanced(dealt, l, commit);
    ConsumersFollow(cfg, w, [Load(l)] + more, dealt, [Next(l, commit)], next);
    es := [Load(l)] + more + [Next(l, commit)];
    PassedSo(w, l, u, loaded, dealt, next, t, commit);
  }

  lemma PassedSo(w: World, l: nat, u: Id, loaded: World, dealt: World, next: World, t: Id, commit: bool)
    requires Resting(w.logs) && t in w.db.tasks && u != t && AtAnother(w, l, u, loaded) && AtAnother(loaded, l, u, dealt)
    requires CanAdvance(dealt, l, commit) && next == Advanced(dealt, l, commit)
    ensures Passed(w, l, t, next) && next.logs[l].pos == w.logs[l].pos + 1
  {
  }

  lemma {:induction false} PassMessages(cfg: Config, w: World, l: nat, k: nat, t: Id) returns (es: seq<Event>, next: World)
    requires Resting(w.logs) && t in w.db.tasks && l in w.logs && w.logs[l].pos <= k < |w.logs[l].messages|
    requires forall i :: w.logs[l].pos <= i < k ==> w.logs[l].messages[i] != t
    ensures ConsumersLead(cfg, w, es, next) && Passed(w, l, t, next) && next.logs[l].pos == k
    decreases k - w.logs[l].pos
  {
    if w.logs[l].pos == k {
      es, next := [], w;
    } else {
      var first, mid := PassMessage(cfg, w, l, t);
      var rest;
      rest, next := PassMessages(cfg, mid, l, k, t);
      ConsumersFollow(cfg, w, first, mid, rest, next);
      es := first + rest;
    }
  }

  /** The consumer at the task's message: it starts the task and calls its executor. */
  lemma ExecuteHere(cfg: Config, w: World, l: nat, t: Id)
    requires Resting(w.logs) && CanLoad(w, l) && w.logs[l].messages[w.logs[l].pos] == t && Decide(cfg, w.db, t).Active?
    ensures CanBeExecuted(cfg, w, t)
  {
    assert Decide(cfg, w.db, t).task == t && Decide(cfg, w.db, t).stage == Starting;
    var loaded := Loaded(cfg, w, l);
    ConsumerStep(cfg, w, Load(l));
    var begun := Worked(loaded, l, Begin);
    ConsumerStep(cfg, loaded, Work(l, Begin));
    ConsumersFollow(cfg, w, [Load(l)], loaded, [Work(l, Begin)], begun);
    var done := Worked(begun, l, Execute);
    ConsumerStep(cfg, begun, Work(l, Execute));
    ConsumersFollow(cfg, w, [Load(l)] + [Work(l, Begin)], begun, [Work(l, Execute)], done);
    assert Count(done.history.execs, t) == Count(w.history.execs, t) + 1;
  }

  lemma FirstAt(logs: Logs, l: nat, k: nat, t: Id) returns (first: nat)
    requires LiesAt(logs, l, k, t)
    ensures LiesAt(logs, l, first, t) && forall i :: logs[l].committed <= i < first ==> logs[l].messages[i] != t
    decreases k
  {
    first := k;
    if i :| logs[l].committed <= i < k && logs[l].messages[i] == t {
      first := FirstAt(logs, l, i, t);
    }
  }

  lemma OnceMore(cfg: Config, w: World, t: Id)
    requires Inv(cfg, w) && t in w.db.tasks && Unsettled(w.db.tasks[t]) && JobRunning(w.db, w.db.tasks[t].jobId) && Redeliverable(w.logs, t)
    ensures CanBeExecuted(cfg, w, t)
  {
    StartsAgain(cfg, w.db, t);
    var l, k0 :| LiesAt(w.logs, l, k0, t);
    var k := FirstAt(w.logs, l, k0, t);
    var es, there := ComeTo(cfg, w, l, k, t);
    ExecuteHere(cfg, there, l, t);
    var more, next :| ConsumersLead(cfg, there, more, next) && Count(next.history.execs, t) > Count(there.history.execs, t);
    ConsumersFollow(cfg, w, es, there, more, next);
  }

  /** A delivery of an unfinished task of a RUNNING job starts it. */
  lemma StartsAgain(cfg: Config, db: Db, t: Id)
    requires RowsOk(cfg, db) && t in db.tasks && Unsettled(db.tasks[t]) && JobRunning(db, db.tasks[t].jobId)
    ensures Decide(cfg, db, t).Active?
  {
  }

  /** All consumers restart, and one of them reads on up to the task's first message. */
  lemma ComeTo(cfg: Config, w: World, l: nat, k: nat, t: Id) returns (es: seq<Event>, there: World)
    requires t in w.db.tasks && LiesAt(w.logs, l, k, t) && forall i :: w.logs[l].committed <= i < k ==> w.logs[l].messages[i] != t
    ensures ConsumersLead(cfg, w, es, there) && Passed(w, l, t, there) && there.logs[l].pos == k
  {
    var crashes, rested := RestartSome(cfg, w, w.logs.Keys);
    var passing;
    passing, there := PassMessages(cfg, rested, l, k, t);
    ConsumersFollow(cfg, w, crashes, rested, passing, there);
    es := crashes + passing;
  }

  // ---------------------------------------------------------------- the exact condition

  /** In every reachable state, an unfinished task of a RUNNING job can still be executed by the consumers, restarts
      included, if and only if a message for it lies at or past some committed offset. */
  lemma ExecutableIff(cfg: Config, w: World, t: Id)
    requires Reachable(cfg, w) && t in w.db.tasks && Unsettled(w.db.tasks[t]) && JobRunning(w.db, w.db.tasks[t].jobId)
    ensures CanBeExecuted(cfg, w, t) <==> exists l, k :: LiesAt(w.logs, l, k, t)
  {
    ReachableInv(cfg, w);
    if Redeliverable(w.logs, t) {
      OnceMore(cfg, w, t);
    } else if CanBeExecuted(cfg, w, t) {
      var es, next :| ConsumersLead(cfg, w, es, next) && Count(next.history.execs, t) > Count(w.history.execs, t);
      NeverAgain(cfg, w, es, next, t);
    }
  }

  /** So without a failed retry publish every unfinished task of a RUNNING job can be executed, in every state so reached. */
  lemma CoveredIsExecutable(cfg: Config, w: World, t: Id)
    requires SafelyReachable(cfg, w) && t in w.db.tasks && Unsettled(w.db.tasks[t]) && JobRunning(w.db, w.db.tasks[t].jobId)
    ensures CanBeExecuted(cfg, w, t)
  {
    NoTaskIsLost(cfg, w, t);
    SafelyReachableCovers(cfg, w);
    var l, k :| l in w.logs && w.logs[l].committed <= w.logs[l].pos <= k < |w.logs[l].messages| && w.logs[l].messages[k] == t;
    assert LiesAt(w.logs, l, k, t);
    OnceMore(cfg, w, t);
  }

  /** A message for the task other than those a commit at the consumer's position passes over. */
  ghost predicate LiesBeyond(logs: Logs, l: nat, t: Id) {
    exists m: nat, k: nat :: LiesAt(logs, m, k, t) && (m == l ==> k > logs[m].pos)
  }

  /** What a commit leaves deliverable. */
  lemma CommitLeaves(w: World, l: nat, t: Id)
    requires CanAdvance(w, l, true) && w.logs[l].committed <= w.logs[l].pos
    ensures Redeliverable(Advanced(w, l, true).logs, t) <==> LiesBeyond(w.logs, l, t)
  {
    var next := Advanced(w, l, true).logs;
    if m: nat, k: nat :| LiesAt(w.logs, m, k, t) && (m == l ==> k > w.logs[m].pos) {
      assert LiesAt(next, m, k, t);
    }
    if m: nat, k: nat :| LiesAt(next, m, k, t) {
      assert LiesAt(w.logs, m, k, t);
    }
  }

  /** The commit after which an unfinished task can no longer be executed: the one that passes the last message for it,
      be it its own or that of a later one behind which it failed. */
  lemma CommitEndsWorkIff(cfg: Config, w: World, l: nat, t: Id)
    requires Reachable(cfg, w) && CanAdvance(w, l, true)
    requires t in w.db.tasks && Unsettled(w.db.tasks[t]) && JobRunning(w.db, w.db.tasks[t].jobId)
    ensures CanBeExecuted(cfg, Advanced(w, l, true), t) <==> LiesBeyond(w.logs, l, t)
  {
    ReachableInv(cfg, w);
    assert LogOk(w.db, w.logs[l]);
    OneEvent(cfg, w, Next(l, true));
    ByRun(cfg, w, [Next(l, true)], Advanced(w, l, true));
    StillReachable(cfg, w, Advanced(w, l, true));
    CommitLeaves(w, l, t);
    ExecutableIff(cfg, Advanced(w, l, true), t);
  }

  lemma RequeuedRow(cfg: Config, w: World, l: nat)
    requires Inv(cfg, w) && At(w, l, Requeueing) && JobRunning(w.db, w.logs[l].phase.mem.jobId)
    ensures var t := w.logs[l].phase.task; t in w.db.tasks && Unsettled(w.db.tasks[t]) && JobRunning(w.db, w.db.tasks[t].jobId)
    ensures LiesAt(w.logs, l, w.logs[l].pos, w.logs[l].phase.task)
  {
    assert LogOk(w.db, w.logs[l]);
  }

  /** A retry publish that fails, or has no topic to go to, loses nothing yet: the attempt's own message can still be
      redelivered. The commit of that message is what ends it, unless another message for the task is outstanding. */
  lemma FailedRetryEndsAtCommit(cfg: Config, w: World, l: nat)
    requires Reachable(cfg, w) && At(w, l, Requeueing) && JobRunning(w.db, w.logs[l].phase.mem.jobId)
    ensures var t, unsent := w.logs[l].phase.task, RetryPublished(w, l, None);
      && CanBeExecuted(cfg, unsent, t) && CanAdvance(unsent, l, true)
      && (CanBeExecuted(cfg, Advanced(unsent, l, true), t) <==> LiesBeyond(w.logs, l, t))
  {
    var t, unsent := w.logs[l].phase.task, RetryPublished(w, l, None);
    ReachableInv(cfg, w);
    RequeuedRow(cfg, w, l);
    assert LogOk(w.db, w.logs[l]);
    OneEvent(cfg, w, PublishRetry(l, None));
    ByRun(cfg, w, [PublishRetry(l, None)], unsent);
    StillReachable(cfg, w, unsent);
    assert LiesAt(unsent.logs, l, w.logs[l].pos, t);
    ExecutableIff(cfg, unsent, t);
    CommitEndsWorkIff(cfg, unsent, l, t);
    SameBeyond(w.logs, unsent.logs, l, t);
  }

  lemma SameBeyond(logs: Logs, next: Logs, l: nat, t: Id)
    requires l in logs && next.Keys == logs.Keys
    requires forall m :: m in logs ==> next[m].messages == logs[m].messages && next[m].pos == logs[m].pos && next[m].committed == logs[m].committed
    ensures LiesBeyond(next, l, t) <==> LiesBeyond(logs, l, t)
  {
    assert forall m, k :: LiesAt(next, m, k, t) <==> LiesAt(logs, m, k, t);
  }
}
