/** Statuses, rows and the two transition tables (internal/domain). */
module Options {
  datatype Option<+T> = None | Some(value: T) {
    function GetOr(default: T): T {
      if Some? then value else default
    }
  }
}

module Domain {
  import opened Options

  /** Row identifiers; the program draws them as UUIDs. */
  type Id = nat

  /** Job and task statuses are plain strings in the program and share one column type:
      a task row can be overwritten with its job's status. `Other` stands for any other text. */
  datatype Status =
    | Pending | Running | Completed | Failed | PartialFailed
    | Rejected | Cancelled | MaxRetriesExhausted | Other(text: string)

  datatype JobAction = StartJob | CompleteJob | FailJob | PartialFailJob | RejectJob | CancelJob

  datatype TaskAction = StartTask | CompleteTask | FailTask | RejectTask | CancelTask | RetryTask | ExhaustTask

  /** One row of scherry_jobs. */
  datatype Job = Job(
    parent: Option<Id>, name: string, status: Status, maxRetries: int,
    ref: Option<string>, createdAt: int, triggerFailure: bool)

  /** One row of scherry_tasks. */
  datatype Task = Task(
    jobId: Id, name: string, status: Status, attempt: int, maxRetries: int, sequence: int,
    key: Option<string>, params: string, result: string, createdAt: int)

  /** Two tasks that do the same work: they differ at most in whose they are and how far they have come. */
  predicate SameWork(task: Task, other: Task) {
    && task.sequence == other.sequence && task.name == other.name && task.params == other.params
    && task.key == other.key && task.maxRetries == other.maxRetries
  }

  /** Non-terminal job statuses: the ones in which tasks are still executed. */
  predicate IsLive(status: Status) {
    status == Pending || status == Running
  }

  predicate IsTerminalJob(status: Status) {
    status in {Completed, Failed, PartialFailed, Rejected, Cancelled}
  }

  /** Settled task statuses; FAILED is left out because a failed task may be retried. */
  predicate IsSettled(status: Status) {
    status in {Completed, Rejected, Cancelled, MaxRetriesExhausted}
  }

  /** The statuses the job finaliser counts as finished: the settled ones and FAILED. */
  predicate IsFinished(status: Status) {
    IsSettled(status) || status == Failed
  }

  /** jobTransitions: where an action leads from a status, if anywhere. */
  function JobTarget(action: JobAction, status: Status): Option<Status> {
    match action
    case StartJob => if status == Pending then Some(Running) else None
    case RejectJob => if status == Pending then Some(Rejected) else None
    case CancelJob => if IsLive(status) then Some(Cancelled) else None
    case FailJob => if IsLive(status) then Some(Failed) else None
    case CompleteJob => if status == Running then Some(Completed) else None
    case PartialFailJob => if status == Running then Some(PartialFailed) else None
  }

  /** taskTransitions: where an action leads from a status, if anywhere. */
  function TaskTarget(action: TaskAction, status: Status): Option<Status> {
    match action
    case StartTask => if status == Pending || status == Running then Some(Running) else None
    case RejectTask => if status == Pending then Some(Rejected) else None
    case CancelTask => if status == Pending || status == Running then Some(Cancelled) else None
    case CompleteTask => if status == Running then Some(Completed) else None
    case FailTask => if status == Running then Some(Failed) else None
    case RetryTask => if status == Failed then Some(Pending) else None
    case ExhaustTask => if status == Failed then Some(MaxRetriesExhausted) else None
  }

  /** The edges of jobs, as the table lists them. */
  lemma JobTableLists(action: JobAction, from: Status, to: Status)
    ensures JobTarget(action, from) == Some(to) <==>
      || (action.StartJob? && from.Pending? && to.Running?) || (action.RejectJob? && from.Pending? && to.Rejected?)
      || (action.CancelJob? && from.Pending? && to.Cancelled?) || (action.FailJob? && from.Pending? && to.Failed?)
      || (action.CompleteJob? && from.Running? && to.Completed?) || (action.PartialFailJob? && from.Running? && to.PartialFailed?)
      || (action.FailJob? && from.Running? && to.Failed?) || (action.CancelJob? && from.Running? && to.Cancelled?)
  {
  }

  /** The edges of tasks, as the table lists them. */
  lemma TaskTableLists(action: TaskAction, from: Status, to: Status)
    ensures TaskTarget(action, from) == Some(to) <==>
      || (action.StartTask? && (from.Pending? || from.Running?) && to.Running?) || (action.RejectTask? && from.Pending? && to.Rejected?)
      || (action.CancelTask? && (from.Pending? || from.Running?) && to.Cancelled?) || (action.CompleteTask? && from.Running? && to.Completed?)
      || (action.FailTask? && from.Running? && to.Failed?) || (action.RetryTask? && from.Failed? && to.Pending?)
      || (action.ExhaustTask? && from.Failed? && to.MaxRetriesExhausted?)
  {
  }

  lemma JobEdgeBy(action: JobAction, from: Status, to: Status)
    requires JobTarget(action, from) == Some(to)
    ensures JobEdge(from, to)
  {
  }

  lemma TaskEdgeBy(action: TaskAction, from: Status, to: Status)
    requires TaskTarget(action, from) == Some(to)
    ensures TaskEdge(from, to)
  {
  }

  /** The kinds of job statuses are what the table makes of them: a job is live as long as it can move, over once it cannot. */
  lemma JobKindsByTable(status: Status)
    ensures IsLive(status) <==> exists to :: JobEdge(status, to)
    ensures IsTerminalJob(status) <==> (exists from :: JobEdge(from, status)) && !exists to :: JobEdge(status, to)
  {
    JobEdgeBy(CancelJob, Pending, Cancelled);
    JobEdgeBy(RejectJob, Pending, Rejected);
    JobEdgeBy(CompleteJob, Running, Completed);
    JobEdgeBy(FailJob, Running, Failed);
    JobEdgeBy(PartialFailJob, Running, PartialFailed);
  }

  /** A task is settled if it got where it cannot leave, finished if it got where it cannot be started. */
  lemma TaskKindsByTable(status: Status)
    ensures IsSettled(status) <==> (exists from :: TaskEdge(from, status)) && !exists to :: TaskEdge(status, to)
    ensures IsFinished(status) <==> (exists from :: TaskEdge(from, status)) && TaskTarget(StartTask, status) == None
  {
    TaskEdgeBy(StartTask, Pending, Running);
    TaskEdgeBy(RejectTask, Pending, Rejected);
    TaskEdgeBy(CancelTask, Pending, Cancelled);
    TaskEdgeBy(CompleteTask, Running, Completed);
    TaskEdgeBy(FailTask, Running, Failed);
    TaskEdgeBy(RetryTask, Failed, Pending);
    TaskEdgeBy(ExhaustTask, Failed, MaxRetriesExhausted);
  }

  ghost predicate JobEdge(from: Status, to: Status) {
    exists action :: JobTarget(action, from) == Some(to)
  }

  ghost predicate TaskEdge(from: Status, to: Status) {
    exists action :: TaskTarget(action, from) == Some(to)
  }

  /** What firing an event on a state machine reports. */
  datatype Fired = Moved | SameState | Refused

  /** The job held in memory while an operation runs; its methods move it along the job table. */
  class JobRecord {
    var row: Job

    constructor (row: Job)
      ensures this.row == row
    {
      this.row := row;
    }

    method Fire(action: JobAction) returns (fired: Fired)
      modifies this
      ensures fired == Refused <==> JobTarget(action, old(row.status)).None?
      ensures fired == Moved <==> JobEdge(old(row.status), row.status) && row.status != old(row.status)
      ensures JobTarget(action, old(row.status)).Some? ==> JobTarget(action, old(row.status)) == Some(row.status)
      ensures row == old(row).(status := row.status)
      ensures fired == Refused ==> row == old(row)
    {
      var target := JobTarget(action, row.status);
      if target.None? {
        fired := Refused;
      } else if target.value == row.status {
        fired := SameState;
      } else {
        fired := Moved;
        row := row.(status := target.value);
      }
    }
  }

  /** The task held in memory while a message is processed. */
  class TaskRecord {
    var row: Task

    constructor (row: Task)
      ensures this.row == row
    {
      this.row := row;
    }

    /** Restarting a RUNNING task reports SameState, which the caller accepts. */
    method Fire(action: TaskAction) returns (fired: Fired)
      modifies this
      ensures fired == Refused <==> TaskTarget(action, old(row.status)).None?
      ensures fired == SameState <==> action == StartTask && old(row.status) == Running
      ensures TaskTarget(action, old(row.status)).Some? ==> TaskTarget(action, old(row.status)) == Some(row.status)
      ensures row == old(row).(status := row.status)
      ensures fired == Refused ==> row == old(row)
    {
      var target := TaskTarget(action, row.status);
      if target.None? {
        fired := Refused;
      } else if target.value == row.status {
        fired := SameState;
      } else {
        fired := Moved;
        row := row.(status := target.value);
      }
    }
  }

  /** A path through the job table. */
  ghost predicate JobPath(path: seq<Status>) {
    forall i :: 0 < i < |path| ==> JobEdge(path[i - 1], path[i])
  }

  /** No path through the job table has more than two edges, and nothing follows a terminal status. */
  lemma JobPathsAreShort(path: seq<Status>)
    requires JobPath(path)
    ensures |path| <= 3
    ensures forall i :: 0 <= i < |path| - 1 ==> IsLive(path[i]) && !IsTerminalJob(path[i])
  {
    forall i {:trigger path[i]} | 0 <= i < |path| - 1
      ensures IsLive(path[i]) && path[i + 1] != Pending
      ensures path[i] == Running ==> IsTerminalJob(path[i + 1]) && !IsLive(path[i + 1])
    {
      assert JobEdge(path[i], path[i + 1]);
    }
    assert |path| > 2 ==> IsLive(path[0]) && path[0 + 1] == Running && !IsLive(path[1 + 1]);
  }

  /** A settled status has no way out, and FAILED is the only finished status that has one. */
  lemma WaysOutOfFinishedStatuses(status: Status)
    requires IsFinished(status)
    ensures (exists to :: TaskEdge(status, to)) <==> status == Failed
  {
    if status == Failed {
      assert TaskTarget(RetryTask, status) == Some(Pending);
      assert TaskEdge(status, Pending);
    }
  }
}
