/** executeTask and the consumer loop around it, as they run (internal/executor/task_executor.go and
    internal/transport/consumer.go), and the proof that every uninterrupted delivery is a run of the protocol. */
module TaskExecutor {
  import opened Options
  import opened Domain
  import opened Store
  import opened Runs
  import opened Protocol

  /** A topic partition: its messages, and the position and committed offset of its one reader. */
  datatype Partition = Partition(messages: seq<Id>, pos: nat, committed: nat)

  class Broker {
    var partitions: map<nat, Partition>
    var deadLetters: seq<Id>

    constructor (partitions: map<nat, Partition>)
      ensures this.partitions == partitions && deadLetters == []
    {
      this.partitions, deadLetters := partitions, [];
    }

    /** The balancer picks the partition; a publish that fails writes to none. */
    method Publish(t: Id, into: Option<nat>)
      requires into.Some? ==> into.value in partitions
      modifies this`partitions
      ensures partitions == Sent(old(partitions), t, into)
      ensures into.None? ==> partitions == old(partitions)
      ensures into.Some? ==> partitions == old(partitions)[into.value := partitions[into.value]]
      ensures into.Some? ==> partitions[into.value].messages == old(partitions)[into.value].messages + [t]
      ensures into.Some? ==> partitions[into.value].pos == old(partitions)[into.value].pos
      ensures into.Some? ==> partitions[into.value].committed == old(partitions)[into.value].committed
    {
      if into.Some? {
        var p := partitions[into.value];
        partitions := partitions[into.value := p.(messages := p.messages + [t])];
      }
    }

    /** Moves a reader past the message it fetched, and commits that message if told to. */
    method Advance(l: nat, commit: bool)
      requires l in partitions
      modifies this`partitions
      ensures partitions == MovedPast(old(partitions), l, commit)
      ensures partitions == old(partitions)[l := partitions[l]] && partitions[l].messages == old(partitions)[l].messages
      ensures partitions[l].pos == old(partitions)[l].pos + 1
      ensures partitions[l].committed == if commit then old(partitions)[l].pos + 1 else old(partitions)[l].committed
    {
      var p := partitions[l];
      partitions := partitions[l := p.(pos := p.pos + 1, committed := if commit then p.pos + 1 else p.committed)];
    }
  }

  function Sent(partitions: map<nat, Partition>, t: Id, into: Option<nat>): map<nat, Partition> {
    if into.Some? && into.value in partitions
    then partitions[into.value := partitions[into.value].(messages := partitions[into.value].messages + [t])]
    else partitions
  }

  /** The reader moves past one message, committing it or not. */
  function MovedPast(partitions: map<nat, Partition>, l: nat, commit: bool): map<nat, Partition> {
    if l in partitions then
      var p := partitions[l];
      partitions[l := p.(pos := p.pos + 1, committed := if commit then p.pos + 1 else p.committed)]
    else partitions
  }

  /** A call of the registered task executor: for which task, and the params it is given. */
  datatype Execution = Execution(task: Id, params: string)

  /** The calls made, in order. */
  class UserCode {
    var executed: seq<Execution>

    constructor ()
      ensures executed == []
    {
      executed := [];
    }
  }

  /** How a delivery goes that reaches the user's code: the params cannot be decoded, or the call returns or fails. */
  datatype UserCall = ParamsUnreadable(text: string) | Returns(text: string) | Raises(text: string)

  /** What surrounds one delivery: the user's code, the partition a retry lands in, the dead-letter publish. */
  datatype Surroundings = Surroundings(call: UserCall, route: Option<nat>, dlqOk: bool)

  // ---------------------------------------------------------------- what one delivery amounts to

  /** The task is loaded, its job is live and configured, and the task may be started. */
  predicate Starts(cfg: Config, db: Db, t: Id) {
    Decide(cfg, db, t).Active?
  }

  /** The task is loaded, and its configured job is over. */
  predicate Overtaken(cfg: Config, db: Db, t: Id) {
    Decide(cfg, db, t).Skipping?
  }

  function SettledRow(task: Task, call: UserCall): Task {
    match call
    case ParamsUnreadable(text) => task.(status := Failed, result := text)
    case Returns(text) => task.(status := Completed, result := text)
    case Raises(text) =>
      if task.attempt < task.maxRetries then task.(status := Pending, attempt := task.attempt + 1, result := text)
      else task.(status := MaxRetriesExhausted, result := text)
  }

  function Delivered(cfg: Config, db: Db, t: Id, call: UserCall): Db {
    if t !in db.tasks then db
    else if Starts(cfg, db, t) then WithTask(db, t, SettledRow(db.tasks[t], call))
    else if Decide(cfg, db, t).Skipping? then SetTaskStatuses(db, {t}, Decide(cfg, db, t).status)
    else db
  }

  predicate Retries(cfg: Config, db: Db, t: Id, call: UserCall) {
    t in db.tasks && Starts(cfg, db, t) && call.Raises? && db.tasks[t].attempt < db.tasks[t].maxRetries
  }

  predicate Exhausts(cfg: Config, db: Db, t: Id, call: UserCall) {
    t in db.tasks && Starts(cfg, db, t) && call.Raises? && db.tasks[t].attempt >= db.tasks[t].maxRetries
  }

  function ConfigFor(cfg: Config, db: Db, t: Id): JobConfig
    requires Starts(cfg, db, t)
  {
    cfg[FindTaskWithJob(db, t).value.1.name]
  }

  /** Where the retry message goes, if anywhere. */
  function RetryRoute(cfg: Config, db: Db, t: Id, around: Surroundings): Option<nat> {
    if Retries(cfg, db, t, around.call) && ConfigFor(cfg, db, t).retryTopic then around.route else None
  }

  predicate DeadLettered(cfg: Config, db: Db, t: Id, around: Surroundings) {
    Exhausts(cfg, db, t, around.call) && ConfigFor(cfg, db, t).dlqTopic && around.dlqOk
  }

  /** The message ends in an error: no such task or job, no configuration, a status that cannot be started, or
      unreadable params. */
  predicate Fails(cfg: Config, db: Db, t: Id, call: UserCall) {
    Decide(cfg, db, t).Errored? || (Starts(cfg, db, t) && call.ParamsUnreadable?)
  }

  // ---------------------------------------------------------------- executeTask

  /** Accepts the restart of a RUNNING task, which the state machine reports as no transition. */
  method StartTaskExecution(repo: Repository, t: Id, task: TaskRecord) returns (ok: bool)
    modifies repo`tasks, task
    ensures ok <==> TaskTarget(StartTask, old(task.row.status)).Some?
    ensures task.row == if ok then old(task.row).(status := Running) else old(task.row)
    ensures repo.Rows() == if ok then UpdateTask(old(repo.Rows()), t, TaskPatch(Running, None, None)) else old(repo.Rows())
  {
    var fired := task.Fire(StartTask);
    if fired.Refused? {
      return false;
    }
    repo.UpdateTaskRow(t, TaskPatch(task.row.status, None, None));
    return true;
  }

  method FailTaskWithResult(repo: Repository, t: Id, task: TaskRecord, text: string)
    modifies repo`tasks, task
    ensures repo.Rows() == UpdateTask(old(repo.Rows()), t, TaskPatch(Failed, None, Some(text)))
    ensures t in old(repo.tasks) ==> repo.tasks == old(repo.tasks)[t := old(repo.tasks)[t].(status := Failed, result := text)]
  {
    task.row := task.row.(status := Failed, result := text);
    repo.UpdateTaskRow(t, TaskPatch(task.row.status, None, Some(task.row.result)));
  }

  method CompleteTask(repo: Repository, t: Id, task: TaskRecord, text: string) returns (ok: bool)
    modifies repo`tasks, task
    ensures ok <==> old(task.row.status) == Running
    ensures repo.Rows() == if ok then UpdateTask(old(repo.Rows()), t, TaskPatch(Completed, None, Some(text))) else old(repo.Rows())
    ensures ok && t in old(repo.tasks) ==> repo.tasks == old(repo.tasks)[t := old(repo.tasks)[t].(status := Completed, result := text)]
  {
    var fired := task.Fire(TaskAction.CompleteTask);
    if fired.Refused? {
      return false;
    }
    task.row := task.row.(result := text);
    repo.UpdateTaskRow(t, TaskPatch(task.row.status, None, Some(task.row.result)));
    return true;
  }

  /** FAILED back to PENDING with one attempt more, then the retry message. */
  method RetryTask(repo: Repository, broker: Broker, job: JobConfig, t: Id, task: TaskRecord, text: string, route: Option<nat>)
    requires route.Some? ==> route.value in broker.partitions
    requires task.row.status == Failed
    modifies repo`tasks, task, broker`partitions
    ensures repo.Rows() == UpdateTask(old(repo.Rows()), t, TaskPatch(Pending, Some(old(task.row.attempt) + 1), Some(text)))
    ensures t in old(repo.tasks) ==>
      repo.tasks == old(repo.tasks)[t := old(repo.tasks)[t].(status := Pending, attempt := old(task.row.attempt) + 1, result := text)]
    ensures broker.partitions == Sent(old(broker.partitions), t, if job.retryTopic then route else None)
  {
    task.row := task.row.(result := text);
    var _ := task.Fire(TaskAction.RetryTask);
    task.row := task.row.(attempt := task.row.attempt + 1);
    repo.UpdateTaskRow(t, TaskPatch(task.row.status, Some(task.row.attempt), Some(task.row.result)));
    if !job.retryTopic {
      return;
    }
    broker.Publish(t, route);
  }

  /** FAILED to MAX_RETRIES_EXHAUSTED, then the dead letter. */
  method SendTaskToDLQ(repo: Repository, broker: Broker, job: JobConfig, t: Id, task: TaskRecord, text: string, dlqOk: bool)
    requires task.row.status == Failed
    modifies repo`tasks, task, broker`deadLetters
    ensures repo.Rows() == UpdateTask(old(repo.Rows()), t, TaskPatch(MaxRetriesExhausted, None, Some(text)))
    ensures t in old(repo.tasks) ==> repo.tasks == old(repo.tasks)[t := old(repo.tasks)[t].(status := MaxRetriesExhausted, result := text)]
    ensures broker.deadLetters == old(broker.deadLetters) + if job.dlqTopic && dlqOk then [t] else []
  {
    var _ := task.Fire(ExhaustTask);
    task.row := task.row.(result := text);
    repo.UpdateTaskRow(t, TaskPatch(task.row.status, None, Some(task.row.result)));
    if !job.dlqTopic {
      return;
    }
    if dlqOk {
      broker.deadLetters := broker.deadLetters + [t];
    }
  }

  /** The FAILED write and what follows it, as one update of the row. */
  function FailedDb(db: Db, t: Id, task: Task, text: string): Db {
    var failed := UpdateTask(db, t, TaskPatch(Failed, None, None));
    if task.attempt < task.maxRetries
    then UpdateTask(failed, t, TaskPatch(Pending, Some(task.attempt + 1), Some(text)))
    else UpdateTask(failed, t, TaskPatch(MaxRetriesExhausted, None, Some(text)))
  }

  method HandleTaskFailure(repo: Repository, broker: Broker, job: JobConfig, t: Id, task: TaskRecord, text: string, around: Surroundings)
    requires around.route.Some? ==> around.route.value in broker.partitions
    modifies repo`tasks, task, broker
    ensures repo.Rows() == FailedDb(old(repo.Rows()), t, old(task.row), text)
    ensures broker.partitions ==
        Sent(old(broker.partitions), t, if old(task.row.attempt) < old(task.row.maxRetries) && job.retryTopic then around.route else None)
    ensures broker.deadLetters == old(broker.deadLetters) +
        if old(task.row.attempt) >= old(task.row.maxRetries) && job.dlqTopic && around.dlqOk then [t] else []
  {
    task.row := task.row.(status := Failed);
    repo.UpdateTaskRow(t, TaskPatch(Failed, None, None));
    if task.row.attempt < task.row.maxRetries {
      RetryTask(repo, broker, job, t, task, text, around.route);
    } else {
      SendTaskToDLQ(repo, broker, job, t, task, text, around.dlqOk);
    }
  }

  /** A started task: its params are read, the user's code is called, and the outcome is written. */
  method RunStarted(repo: Repository, broker: Broker, code: UserCode, job: JobConfig, t: Id, task: TaskRecord, around: Surroundings) returns (ok: bool)
    requires around.route.Some? ==> around.route.value in broker.partitions
    requires t in repo.tasks && task.row == repo.tasks[t] && task.row.status == Running
    modifies repo`tasks, task, broker, code
    ensures ok <==> !around.call.ParamsUnreadable?
    ensures repo.Rows() == WithTask(old(repo.Rows()), t, SettledRow(old(task.row), around.call))
    ensures broker.partitions == Sent(old(broker.partitions), t,
                if around.call.Raises? && old(task.row.attempt) < old(task.row.maxRetries) && job.retryTopic then around.route else None)
    ensures broker.deadLetters == old(broker.deadLetters) +
                if around.call.Raises? && old(task.row.attempt) >= old(task.row.maxRetries) && job.dlqTopic && around.dlqOk then [t] else []
    ensures code.executed == old(code.executed) + if ok then [Execution(t, old(task.row.params))] else []
  {
    match around.call {
      case ParamsUnreadable(text) =>
        FailTaskWithResult(repo, t, task, text);
        return false;
      case Returns(text) =>
        code.executed := code.executed + [Execution(t, task.row.params)];
        ok := CompleteTask(repo, t, task, text);
      case Raises(text) =>
        code.executed := code.executed + [Execution(t, task.row.params)];
        HandleTaskFailure(repo, broker, job, t, task, text, around);
        return true;
    }
  }

  /** One delivery, against the functions on the tables. */
  method ExecuteMessage(repo: Repository, broker: Broker, code: UserCode, cfg: Config, t: Id, around: Surroundings) returns (ok: bool)
    requires around.route.Some? ==> around.route.value in broker.partitions
    modifies repo`tasks, broker, code
    ensures ok <==> !Fails(cfg, old(repo.Rows()), t, around.call)
    ensures repo.Rows() == Delivered(cfg, old(repo.Rows()), t, around.call)
    ensures broker.partitions == Sent(old(broker.partitions), t, RetryRoute(cfg, old(repo.Rows()), t, around))
    ensures broker.deadLetters == old(broker.deadLetters) + if DeadLettered(cfg, old(repo.Rows()), t, around) then [t] else []
    ensures code.executed == old(code.executed) + if Executed(cfg, old(repo.Rows()), t, around.call) then [Execution(t, old(repo.tasks)[t].params)] else []
  {
    var found := repo.LoadTaskWithJob(t);
    if found.None? {
      return false;
    }
    var (row, job) := found.value;
    if job.name !in cfg {
      return false;
    }
    if !IsLive(job.status) {
      repo.UpdateTasksStatus({t}, job.status);
      return true;
    }
    if IsSettled(row.status) {
      return true;
    }
    var task := new TaskRecord(row);
    var started := StartTaskExecution(repo, t, task);
    if !started {
      return false;
    }
    ok := RunStarted(repo, broker, code, cfg[job.name], t, task, around);
  }

  /** When a message's task is started, and when it is overtaken by the end of its job, written out. */
  lemma DecisionMeans(cfg: Config, db: Db, t: Id)
    ensures Starts(cfg, db, t) <==>
      && t in db.tasks && db.tasks[t].status in {Pending, Running} && db.tasks[t].jobId in db.jobs
      && db.jobs[db.tasks[t].jobId].createdAt == db.tasks[t].createdAt
      && db.jobs[db.tasks[t].jobId].name in cfg && db.jobs[db.tasks[t].jobId].status in {Pending, Running}
    ensures Overtaken(cfg, db, t) <==>
      && t in db.tasks && db.tasks[t].jobId in db.jobs && db.jobs[db.tasks[t].jobId].createdAt == db.tasks[t].createdAt
      && db.jobs[db.tasks[t].jobId].name in cfg && db.jobs[db.tasks[t].jobId].status !in {Pending, Running}
    ensures Decide(cfg, db, t).Errored? <==>
      !(|| Starts(cfg, db, t) || Overtaken(cfg, db, t)
        || (&& t in db.tasks && db.tasks[t].status in {Completed, Rejected, Cancelled, MaxRetriesExhausted}
            && db.tasks[t].jobId in db.jobs && db.jobs[db.tasks[t].jobId].createdAt == db.tasks[t].createdAt && db.jobs[db.tasks[t].jobId].name in cfg))
  {
  }

  /** One delivery. True stands for a nil error. The last clauses say the same column by column. */
  method ExecuteTask(repo: Repository, broker: Broker, code: UserCode, cfg: Config, t: Id, around: Surroundings) returns (ok: bool)
    requires around.route.Some? ==> around.route.value in broker.partitions
    modifies repo`tasks, broker, code
    ensures ok <==> !Fails(cfg, old(repo.Rows()), t, around.call)
    ensures repo.Rows() == Delivered(cfg, old(repo.Rows()), t, around.call)
    ensures broker.partitions == Sent(old(broker.partitions), t, RetryRoute(cfg, old(repo.Rows()), t, around))
    ensures broker.deadLetters == old(broker.deadLetters) + if DeadLettered(cfg, old(repo.Rows()), t, around) then [t] else []
    ensures code.executed == old(code.executed) + if Executed(cfg, old(repo.Rows()), t, around.call) then [Execution(t, old(repo.tasks)[t].params)] else []
    // the same, written out: when the task is started, passed over, or taken no notice of
    ensures Starts(cfg, old(repo.Rows()), t) <==>
      && t in old(repo.tasks) && old(repo.tasks)[t].status in {Pending, Running} && old(repo.tasks)[t].jobId in repo.jobs
      && repo.jobs[old(repo.tasks)[t].jobId].createdAt == old(repo.tasks)[t].createdAt
      && repo.jobs[old(repo.tasks)[t].jobId].name in cfg && repo.jobs[old(repo.tasks)[t].jobId].status in {Pending, Running}
    ensures Overtaken(cfg, old(repo.Rows()), t) <==>
      && t in old(repo.tasks) && old(repo.tasks)[t].jobId in repo.jobs
      && repo.jobs[old(repo.tasks)[t].jobId].createdAt == old(repo.tasks)[t].createdAt
      && repo.jobs[old(repo.tasks)[t].jobId].name in cfg && repo.jobs[old(repo.tasks)[t].jobId].status !in {Pending, Running}
    ensures ok <==>
      || (Starts(cfg, old(repo.Rows()), t) && !around.call.ParamsUnreadable?) || Overtaken(cfg, old(repo.Rows()), t)
      || (&& t in old(repo.tasks) && old(repo.tasks)[t].status in {Completed, Rejected, Cancelled, MaxRetriesExhausted}
          && old(repo.tasks)[t].jobId in repo.jobs && repo.jobs[old(repo.tasks)[t].jobId].createdAt == old(repo.tasks)[t].createdAt
          && repo.jobs[old(repo.tasks)[t].jobId].name in cfg)
    // column by column: what becomes of the row, and that no other row changes
    ensures repo.tasks.Keys == old(repo.tasks).Keys && forall u :: u in repo.tasks && u != t ==> repo.tasks[u] == old(repo.tasks)[u]
    ensures Starts(cfg, old(repo.Rows()), t) ==>
      && repo.tasks[t] == old(repo.tasks)[t].(status := repo.tasks[t].status, attempt := repo.tasks[t].attempt, result := around.call.text)
      && var again := around.call.Raises? && old(repo.tasks)[t].attempt < old(repo.tasks)[t].maxRetries;
        && repo.tasks[t].attempt == (if again then old(repo.tasks)[t].attempt + 1 else old(repo.tasks)[t].attempt)
        && repo.tasks[t].status == (if around.call.Returns? then Completed else if around.call.ParamsUnreadable? then Failed
                                    else if again then Pending else MaxRetriesExhausted)
    ensures Overtaken(cfg, old(repo.Rows()), t) ==> repo.tasks[t] == old(repo.tasks)[t].(status := repo.jobs[old(repo.tasks)[t].jobId].status)
    ensures !Starts(cfg, old(repo.Rows()), t) && !Overtaken(cfg, old(repo.Rows()), t) ==> repo.tasks == old(repo.tasks)
    // the retry message, the dead letter, and the call of the user's code with the params of the row
    ensures broker.partitions ==
      if && Starts(cfg, old(repo.Rows()), t) && around.call.Raises? && old(repo.tasks)[t].attempt < old(repo.tasks)[t].maxRetries
         && cfg[repo.jobs[old(repo.tasks)[t].jobId].name].retryTopic && around.route.Some?
      then old(broker.partitions)[around.route.value := Partition(old(broker.partitions)[around.route.value].messages + [t],
             old(broker.partitions)[around.route.value].pos, old(broker.partitions)[around.route.value].committed)]
      else old(broker.partitions)
    ensures broker.deadLetters == old(broker.deadLetters) +
      if && Starts(cfg, old(repo.Rows()), t) && around.call.Raises? && old(repo.tasks)[t].attempt >= old(repo.tasks)[t].maxRetries
         && cfg[repo.jobs[old(repo.tasks)[t].jobId].name].dlqTopic && around.dlqOk
      then [t] else []
    ensures code.executed == old(code.executed) +
      if Starts(cfg, old(repo.Rows()), t) && (around.call.Returns? || around.call.Raises?) then [Execution(t, old(repo.tasks)[t].params)] else []
  {
    DecisionMeans(cfg, repo.Rows(), t);
    ok := ExecuteMessage(repo, broker, code, cfg, t, around);
  }

  /** The user's code is called exactly when the task is started and its params can be read. */
  predicate Executed(cfg: Config, db: Db, t: Id, call: UserCall) {
    Starts(cfg, db, t) && !call.ParamsUnreadable?
  }

  // ---------------------------------------------------------------- the protocol beside the program

  function Offsets(logs: map<nat, Log>): map<nat, Partition> {
    map l | l in logs :: Partition(logs[l].messages, logs[l].pos, logs[l].committed)
  }

  /** The protocol state shows the tables and topics of the program. */
  ghost predicate Mirrors(repo: Repository, broker: Broker, w: World)
    reads repo, broker
  {
    repo.Rows() == w.db && broker.partitions == Offsets(w.logs) && broker.deadLetters == w.dlq
  }

  /** One consumer, inside a delivery that has changed nothing but the task's row. */
  function Inside(w: World, l: nat, phase: Phase, row: Task, history: History): World
    requires l in w.logs && phase.Active?
  {
    WithPhase(w, l, phase).(db := WithTask(w.db, phase.task, row), history := history)
  }

  function FirstPhase(t: Id, row: Task): Phase {
    Active(t, Starting, row.(status := Running))
  }

  lemma LoadedInside(cfg: Config, w: World, l: nat, t: Id)
    requires CanLoad(w, l) && t == w.logs[l].messages[w.logs[l].pos] && NobodyBusy(w, t) && Starts(cfg, w.db, t)
    ensures Leads(cfg, w, [Load(l)], Inside(w, l, FirstPhase(t, w.db.tasks[t]), w.db.tasks[t], w.history))
  {
    OneStep(Step(cfg), w, Load(l));
    assert w.db.tasks == w.db.tasks[t := w.db.tasks[t]];
    assert Loaded(cfg, w, l) == Inside(w, l, FirstPhase(t, w.db.tasks[t]), w.db.tasks[t], w.history);
  }

  lemma StepInside(cfg: Config, w: World, es: seq<Event>, l: nat, phase: Phase, row: Task, history: History, work: WorkStep)
    requires l in w.logs && CanWork(phase, work) && NextPhase(phase, work).Active?
    requires Leads(cfg, w, es, Inside(w, l, phase, row, history))
    ensures Leads(cfg, w, es + [Work(l, work)],
                  Inside(w, l, NextPhase(phase, work), WorkedRow(row, phase, work), NextHistory(history, phase.task, work)))
  {
    var now := Inside(w, l, phase, row, history);
    Extend(cfg, w, es, now, Work(l, work));
    var next := Inside(w, l, NextPhase(phase, work), WorkedRow(row, phase, work), NextHistory(history, phase.task, work));
    assert Worked(now, l, work).db.tasks == next.db.tasks;
    assert Worked(now, l, work).logs == next.logs;
  }

  /** The state after a delivery: the row, the topics and the count of executions. */
  ghost predicate Ends(cfg: Config, w: World, l: nat, t: Id, around: Surroundings, next: World) {
    && next.db == Delivered(cfg, w.db, t, around.call)
    && Offsets(next.logs) == Sent(Offsets(w.logs), t, RetryRoute(cfg, w.db, t, around))
    && next.dlq == w.dlq + (if DeadLettered(cfg, w.db, t, around) then [t] else [])
    && next.history.execs == (if Executed(cfg, w.db, t, around.call) then Bump(w.history.execs, t) else w.history.execs)
    && next.logs.Keys == w.logs.Keys && (forall m :: m in w.logs && m != l ==> next.logs[m].phase == w.logs[m].phase)
    && l in next.logs && next.logs[l].phase == (if Fails(cfg, w.db, t, around.call) then Errored(t) else Done(t))
  }

  ghost predicate Deliverable(cfg: Config, w: World, l: nat, t: Id, around: Surroundings) {
    && CanLoad(w, l) && t == w.logs[l].messages[w.logs[l].pos] && NobodyBusy(w, t)
    && (around.route.Some? ==> around.route.value in w.logs)
  }

  /** The steps of a delivery that starts the task and calls the user's code, up to where it knows the result. */
  lemma CalledInside(cfg: Config, w: World, l: nat, t: Id)
    requires CanLoad(w, l) && t == w.logs[l].messages[w.logs[l].pos] && NobodyBusy(w, t) && Starts(cfg, w.db, t)
    ensures var row := w.db.tasks[t];
      && Leads(cfg, w, [Load(l)] + [Work(l, Begin)],
               Inside(w, l, FirstPhase(t, row).(stage := Started), row.(status := Running), w.history))
      && Leads(cfg, w, [Load(l)] + [Work(l, Begin)] + [Work(l, Execute)],
               Inside(w, l, FirstPhase(t, row).(stage := Executing), row.(status := Running), w.history.(execs := Bump(w.history.execs, t))))
  {
    var row := w.db.tasks[t];
    var phase := FirstPhase(t, row);
    LoadedInside(cfg, w, l, t);
    StepInside(cfg, w, [Load(l)], l, phase, row, w.history, Begin);
    StepInside(cfg, w, [Load(l)] + [Work(l, Begin)], l, phase.(stage := Started), row.(status := Running), w.history, Execute);
  }

  /** A delivery that publishes nothing ends when its row and its record are right. */
  lemma EndsQuietly(cfg: Config, w: World, l: nat, t: Id, around: Surroundings, next: World)
    requires l in w.logs && !Retries(cfg, w.db, t, around.call) && !Exhausts(cfg, w.db, t, around.call)
    requires next.db == Delivered(cfg, w.db, t, around.call) && next.dlq == w.dlq
    requires next.logs == w.logs[l := w.logs[l].(phase := if Fails(cfg, w.db, t, around.call) then Errored(t) else Done(t))]
    requires next.history.execs == if Executed(cfg, w.db, t, around.call) then Bump(w.history.execs, t) else w.history.execs
    ensures Ends(cfg, w, l, t, around, next)
  {
  }

  lemma ShortDelivery(cfg: Config, w: World, l: nat, t: Id, around: Surroundings)
    requires Deliverable(cfg, w, l, t, around) && !Starts(cfg, w.db, t)
    ensures exists es, next :: Leads(cfg, w, es, next) && Ends(cfg, w, l, t, around, next)
  {
    OneStep(Step(cfg), w, Load(l));
    var now := WithPhase(w, l, Decide(cfg, w.db, t));
    assert now == Loaded(cfg, w, l) && Leads(cfg, w, [Load(l)], now);
    if now.logs[l].phase.Skipping? {
      Extend(cfg, w, [Load(l)], now, Skip(l));
      EndsQuietly(cfg, w, l, t, around, Skipped(now, l));
    } else {
      EndsQuietly(cfg, w, l, t, around, now);
    }
  }

  lemma LastStep(cfg: Config, w: World, es: seq<Event>, l: nat, phase: Phase, row: Task, history: History, work: WorkStep, around: Surroundings)
    requires l in w.logs && CanWork(phase, work) && !NextPhase(phase, work).Active? && phase.task in w.db.tasks
    requires Leads(cfg, w, es, Inside(w, l, phase, row, history)) && Starts(cfg, w.db, phase.task)
    requires WorkedRow(row, phase, work) == SettledRow(w.db.tasks[phase.task], around.call) && !around.call.Raises?
    requires NextPhase(phase, work) == (if around.call.ParamsUnreadable? then Errored(phase.task) else Done(phase.task))
    requires history.execs == (if around.call.ParamsUnreadable? then w.history.execs else Bump(w.history.execs, phase.task))
    ensures exists es, next :: Leads(cfg, w, es, next) && Ends(cfg, w, l, phase.task, around, next)
  {
    var now := Inside(w, l, phase, row, history);
    Extend(cfg, w, es, now, Work(l, work));
    var next := Worked(now, l, work);
    EndsQuietly(cfg, w, l, phase.task, around, next);
  }

  function Sends(logs: map<nat, Log>, t: Id, into: Option<nat>): map<nat, Log> {
    if into.Some? && into.value in logs
    then logs[into.value := logs[into.value].(messages := logs[into.value].messages + [t])]
    else logs
  }

  lemma SendsShow(logs: map<nat, Log>, l: nat, t: Id, into: Option<nat>)
    requires l in logs
    ensures var next := Sends(logs[l := logs[l].(phase := Done(t))], t, into);
      && Offsets(next) == Sent(Offsets(logs), t, into)
      && next.Keys == logs.Keys && next[l].phase == Done(t) && forall m :: m in logs && m != l ==> next[m].phase == logs[m].phase
  {
  }

  lemma RequeueEnds(cfg: Config, w: World, es: seq<Event>, l: nat, t: Id, phase: Phase, row: Task, history: History, around: Surroundings)
    requires l in w.logs && (around.route.Some? ==> around.route.value in w.logs)
    requires phase.Active? && phase.task == t && phase.stage == Requeueing && Leads(cfg, w, es, Inside(w, l, phase, row, history))
    requires Retries(cfg, w.db, t, around.call) && row == SettledRow(w.db.tasks[t], around.call)
    requires history.execs == Bump(w.history.execs, t)
    ensures exists es, next :: Leads(cfg, w, es, next) && Ends(cfg, w, l, t, around, next)
  {
    var now, route := Inside(w, l, phase, row, history), RetryRoute(cfg, w.db, t, around);
    Extend(cfg, w, es, now, PublishRetry(l, route));
    var next := RetryPublished(now, l, route);
    InsideRequeued(w, l, phase, row, history, route);
    SendsShow(w.logs, l, t, route);
    RaisedEnds(cfg, w, l, t, around, next);
  }

  lemma InsideRequeued(w: World, l: nat, phase: Phase, row: Task, history: History, route: Option<nat>)
    requires l in w.logs && phase.Active? && phase.stage == Requeueing && (route.Some? ==> route.value in w.logs)
    ensures var now := Inside(w, l, phase, row, history);
      && At(now, l, Requeueing)
      && RetryPublished(now, l, route) == now.(logs := Sends(w.logs[l := w.logs[l].(phase := Done(phase.task))], phase.task, route))
  {
  }

  /** A delivery that ends with a publish, when everything but the topics is seen to be right. */
  lemma RaisedEnds(cfg: Config, w: World, l: nat, t: Id, around: Surroundings, next: World)
    requires l in w.logs && around.call.Raises? && t in w.db.tasks && Starts(cfg, w.db, t)
    requires next.db == WithTask(w.db, t, SettledRow(w.db.tasks[t], around.call)) && next.history.execs == Bump(w.history.execs, t)
    requires next.dlq == w.dlq + if DeadLettered(cfg, w.db, t, around) then [t] else []
    requires Offsets(next.logs) == Sent(Offsets(w.logs), t, RetryRoute(cfg, w.db, t, around))
    requires next.logs.Keys == w.logs.Keys && next.logs[l].phase == Done(t) && forall m :: m in w.logs && m != l ==> next.logs[m].phase == w.logs[m].phase
    ensures Ends(cfg, w, l, t, around, next)
  {
  }

  lemma ExhaustEnds(cfg: Config, w: World, es: seq<Event>, l: nat, t: Id, phase: Phase, row: Task, history: History, around: Surroundings)
    requires l in w.logs
    requires phase.Active? && phase.task == t && phase.stage == Exhausting && Leads(cfg, w, es, Inside(w, l, phase, row, history))
    requires Exhausts(cfg, w.db, t, around.call) && row == SettledRow(w.db.tasks[t], around.call)
    requires history.execs == Bump(w.history.execs, t)
    ensures exists es, next :: Leads(cfg, w, es, next) && Ends(cfg, w, l, t, around, next)
  {
    var now, ok := Inside(w, l, phase, row, history), DeadLettered(cfg, w.db, t, around);
    Extend(cfg, w, es, now, PublishDlq(l, ok));
    var next := DlqPublished(now, l, ok);
    assert next.logs == Sends(w.logs[l := w.logs[l].(phase := Done(t))], t, None);
    SendsShow(w.logs, l, t, None);
    RaisedEnds(cfg, w, l, t, around, next);
  }

  lemma RaisedDelivery(cfg: Config, w: World, l: nat, t: Id, around: Surroundings)
    requires Deliverable(cfg, w, l, t, around) && Starts(cfg, w.db, t) && around.call.Raises?
    ensures exists es, next :: Leads(cfg, w, es, next) && Ends(cfg, w, l, t, around, next)
  {
    var row, text := w.db.tasks[t], around.call.text;
    CalledInside(cfg, w, l, t);
    var h := w.history.(execs := Bump(w.history.execs, t));
    var called := [Load(l)] + [Work(l, Begin)] + [Work(l, Execute)];
    var phase := FirstPhase(t, row).(stage := Executing);
    StepInside(cfg, w, called, l, phase, row.(status := Running), h, Fail);
    var failing := NextPhase(phase, Fail);
    var failed := WorkedRow(row.(status := Running), phase, Fail);
    if row.attempt < row.maxRetries {
      StepInside(cfg, w, called + [Work(l, Fail)], l, failing, failed, h, Requeue(text));
      RequeueEnds(cfg, w, called + [Work(l, Fail)] + [Work(l, Requeue(text))], l, t, NextPhase(failing, Requeue(text)),
                  WorkedRow(failed, failing, Requeue(text)), h, around);
    } else {
      StepInside(cfg, w, called + [Work(l, Fail)], l, failing, failed, h, Exhaust(text));
      ExhaustEnds(cfg, w, called + [Work(l, Fail)] + [Work(l, Exhaust(text))], l, t, NextPhase(failing, Exhaust(text)),
                  WorkedRow(failed, failing, Exhaust(text)), h.(exhausted := h.exhausted + {t}), around);
    }
  }

  /** Whatever the user's code and the publishes do, what executeTask makes of a message is what a run of the protocol
      makes of it: the same tables, topics, dead letters, result and number of executions. */
  lemma DeliveryIsARun(cfg: Config, w: World, l: nat, t: Id, around: Surroundings)
    requires Deliverable(cfg, w, l, t, around)
    ensures exists es, next :: Leads(cfg, w, es, next) && Ends(cfg, w, l, t, around, next)
  {
    if !Starts(cfg, w.db, t) {
      ShortDelivery(cfg, w, l, t, around);
    } else if around.call.Raises? {
      RaisedDelivery(cfg, w, l, t, around);
    } else {
      var row := w.db.tasks[t];
      CalledInside(cfg, w, l, t);
      var begun := [Load(l)] + [Work(l, Begin)];
      if around.call.ParamsUnreadable? {
        LastStep(cfg, w, begun, l, FirstPhase(t, row).(stage := Started), row.(status := Running), w.history,
                 RejectParams(around.call.text), around);
      } else {
        LastStep(cfg, w, begun + [Work(l, Execute)], l, FirstPhase(t, row).(stage := Executing), row.(status := Running),
                 w.history.(execs := Bump(w.history.execs, t)), Finish(around.call.text), around);
      }
    }
  }
}
