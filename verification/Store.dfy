/** The two tables and what each SQL statement or transaction does to them
    (internal/repository/repository.go). */
module Store {
  import opened Options
  import opened Domain

  /** The contents of scherry_jobs and scherry_tasks, by row id. */
  datatype Db = Db(jobs: map<Id, Job>, tasks: map<Id, Task>)

  const TASK_INSERT_BATCH_SIZE := 1000

  function TasksOf(db: Db, j: Id): set<Id> {
    set t | t in db.tasks && db.tasks[t].jobId == j
  }

  /** An empty status filter matches every row. */
  predicate Matches(task: Task, j: Id, statuses: set<Status>) {
    task.jobId == j && (statuses == {} || task.status in statuses)
  }

  // ---------------------------------------------------------------- writes

  function WithTask(db: Db, t: Id, task: Task): Db {
    db.(tasks := db.tasks[t := task])
  }

  function SetTaskStatuses(db: Db, ts: set<Id>, status: Status): Db {
    db.(tasks := map t | t in db.tasks :: if t in ts then db.tasks[t].(status := status) else db.tasks[t])
  }

  function SetJobStatus(db: Db, j: Id, status: Status): Db {
    if j in db.jobs then db.(jobs := db.jobs[j := db.jobs[j].(status := status)]) else db
  }

  /** The columns of a task update. */
  datatype TaskPatch = TaskPatch(status: Status, attempt: Option<int>, result: Option<string>)

  function Patched(task: Task, patch: TaskPatch): Task {
    task.(status := patch.status,
          attempt := if patch.attempt.Some? then patch.attempt.value else task.attempt,
          result := if patch.result.Some? then patch.result.value else task.result)
  }

  /** UPDATE ... WHERE id = t: no row, no change, no guard on the stored status. */
  function UpdateTask(db: Db, t: Id, patch: TaskPatch): Db {
    if t in db.tasks then WithTask(db, t, Patched(db.tasks[t], patch)) else db
  }

  /** The tasks TerminateJob cancels together with the job: the PENDING ones only. */
  function Terminate(db: Db, j: Id): Db {
    SetTaskStatuses(SetJobStatus(db, j, Cancelled), (set t | t in TasksOf(db, j) && db.tasks[t].status == Pending), Cancelled)
  }

  predicate SupersededBy(db: Db, name: string, current: Id, j: Id) {
    j in db.jobs && db.jobs[j].name == name && j != current && IsLive(db.jobs[j].status)
  }

  /** Cancels every other live job of the name, and their PENDING, RUNNING and FAILED tasks. */
  function CancelPrevious(db: Db, name: string, current: Id): Db {
    Db(map j | j in db.jobs :: if SupersededBy(db, name, current, j) then db.jobs[j].(status := Cancelled) else db.jobs[j],
       map t | t in db.tasks ::
         if SupersededBy(db, name, current, db.tasks[t].jobId) && db.tasks[t].status in {Pending, Running, Failed}
         then db.tasks[t].(status := Cancelled) else db.tasks[t])
  }

  function InsertJob(db: Db, j: Id, job: Job, rows: map<Id, Task>): Db {
    Db(db.jobs[j := job], db.tasks + rows)
  }

  // ---------------------------------------------------------------- reads

  /** The task and the job row it references through the composite key (job_id, created_at). */
  function FindTaskWithJob(db: Db, t: Id): Option<(Task, Job)> {
    if t in db.tasks && db.tasks[t].jobId in db.jobs && db.jobs[db.tasks[t].jobId].createdAt == db.tasks[t].createdAt
    then Some((db.tasks[t], db.jobs[db.tasks[t].jobId]))
    else None
  }

  /** Counts over a job's tasks, as one aggregate query returns them. */
  datatype TaskStatusSummary = TaskStatusSummary(total: nat, completed: nat, nonTerminal: nat)

  function CompletedOf(db: Db, j: Id): set<Id> {
    set t | t in TasksOf(db, j) && db.tasks[t].status == Completed
  }

  function UnfinishedOf(db: Db, j: Id): set<Id> {
    set t | t in TasksOf(db, j) && !IsFinished(db.tasks[t].status)
  }

  function Summarise(db: Db, j: Id): TaskStatusSummary {
    TaskStatusSummary(
      |TasksOf(db, j)|,
      |CompletedOf(db, j)|,
      |UnfinishedOf(db, j)|)
  }

  /** The NOT EXISTS condition of the completable query. */
  predicate AllFinished(db: Db, j: Id) {
    forall t :: t in db.tasks && db.tasks[t].jobId == j ==> IsFinished(db.tasks[t].status)
  }

  predicate Completable(db: Db, name: string, j: Id) {
    j in db.jobs && db.jobs[j].name == name && db.jobs[j].status == Running && AllFinished(db, j)
  }

  function CompletableJobs(db: Db, name: string): set<Id> {
    set j | j in db.jobs && Completable(db, name, j)
  }

  /** A page of the completable query: distinct ids, every one completable, as many as the limit allows. */
  ghost predicate IsCompletablePage(db: Db, name: string, limit: nat, page: seq<Id>) {
    && Distinct(page)
    && (forall i :: 0 <= i < |page| ==> page[i] in CompletableJobs(db, name))
    && |page| == Min(limit, |CompletableJobs(db, name)|)
  }

  ghost predicate Distinct<T(!new)>(s: seq<T>) {
    forall i, k :: 0 <= i < k < |s| ==> s[i] != s[k]
  }

  function Min(a: nat, b: nat): nat {
    if a < b then a else b
  }

  /** The rows a keyset page draws from. */
  function MatchingAfter(db: Db, j: Id, statuses: set<Status>, after: int): set<Id> {
    set t | t in db.tasks && Matches(db.tasks[t], j, statuses) && db.tasks[t].sequence > after
  }

  /** A keyset page: matching rows past `after`, in sequence order, the smallest numbers first,
      as many as the limit allows. */
  ghost predicate IsTaskPage(db: Db, j: Id, statuses: set<Status>, after: int, limit: nat, page: seq<Id>) {
    var matching := MatchingAfter(db, j, statuses, after);
    && Distinct(page)
    && (forall i :: 0 <= i < |page| ==> page[i] in matching)
    && (forall i, k :: 0 <= i < k < |page| ==> db.tasks[page[i]].sequence <= db.tasks[page[k]].sequence)
    && (forall i, t :: 0 <= i < |page| && t in matching && t !in page ==> db.tasks[page[i]].sequence <= db.tasks[t].sequence)
    && |page| == Min(limit, |matching|)
  }

  predicate HasRef(db: Db, j: Id, ref: string) {
    j in db.jobs && db.jobs[j].ref == Some(ref)
  }

  /** The most recent job carrying a reference id, if any. */
  ghost predicate IsLatestByRef(db: Db, ref: string, found: Option<Id>) {
    match found
    case None => forall j :: j in db.jobs ==> !HasRef(db, j, ref)
    case Some(j) => HasRef(db, j, ref) && forall k :: HasRef(db, k, ref) ==> db.jobs[k].createdAt <= db.jobs[j].createdAt
  }

  predicate IsLiveClone(db: Db, parent: Id, j: Id) {
    j in db.jobs && db.jobs[j].parent == Some(parent) && IsLive(db.jobs[j].status)
  }

  /** The most recent PENDING or RUNNING clone of a job, if any. */
  ghost predicate IsLatestClone(db: Db, parent: Id, found: Option<Id>) {
    match found
    case None => forall j :: j in db.jobs ==> !IsLiveClone(db, parent, j)
    case Some(j) => IsLiveClone(db, parent, j) && forall k :: IsLiveClone(db, parent, k) ==> db.jobs[k].createdAt <= db.jobs[j].createdAt
  }

  // ---------------------------------------------------------------- the table owner

  /** The smallest element of a nonempty set under a key, found by trying them all. */
  method PickBy(s: set<Id>, key: map<Id, int>) returns (least: Id)
    requires s != {} && s <= key.Keys
    ensures least in s && forall t :: t in s ==> key[least] <= key[t]
  {
    least :| least in s;
    var rest := s - {least};
    while rest != {}
      invariant rest <= s && least in s
      invariant forall t :: t in s - rest ==> key[least] <= key[t]
      decreases rest
    {
      var t :| t in rest;
      if key[t] < key[least] {
        least := t;
      }
      rest := rest - {t};
    }
  }

  /** A list of distinct members, as long as the set is large, lists all of them. */
  lemma {:induction false} AllListed(order: seq<Id>, ids: set<Id>)
    requires Distinct(order) && |order| == |ids| && forall i :: 0 <= i < |order| ==> order[i] in ids
    ensures forall t :: t in order <==> t in ids
  {
    if order != [] {
      var last := order[|order| - 1];
      AllListed(order[..|order| - 1], ids - {last});
      assert order == order[..|order| - 1] + [last];
    }
  }

  class Repository {
    var jobs: map<Id, Job>
    var tasks: map<Id, Task>
    /** Source of fresh row ids. */
    var nextId: Id

    ghost predicate Valid()
      reads this
    {
      (forall j :: j in jobs ==> j < nextId) && (forall t :: t in tasks ==> t < nextId)
    }

    function Rows(): Db
      reads this
    {
      Db(jobs, tasks)
    }

    constructor ()
      ensures Valid() && Rows() == Db(map[], map[])
    {
      jobs, tasks, nextId := map[], map[], 0;
    }

    method NewId() returns (id: Id)
      requires Valid()
      modifies this`nextId
      ensures Valid() && id == old(nextId) && nextId == id + 1
      ensures id !in jobs && id !in tasks
    {
      id := nextId;
      nextId := nextId + 1;
    }

    method FindJobByID(j: Id) returns (job: Option<Job>)
      ensures job == if j in jobs then Some(jobs[j]) else None
    {
      job := if j in jobs then Some(jobs[j]) else None;
    }

    method LoadTaskWithJob(t: Id) returns (found: Option<(Task, Job)>)
      ensures found == FindTaskWithJob(Rows(), t)
      ensures found.Some? <==> t in tasks && tasks[t].jobId in jobs && jobs[tasks[t].jobId].createdAt == tasks[t].createdAt
      ensures found.Some? ==> found.value == (tasks[t], jobs[tasks[t].jobId])
    {
      found := FindTaskWithJob(Rows(), t);
    }

    method FindJobByReference(ref: string) returns (found: Option<Id>)
      ensures IsLatestByRef(Rows(), ref, found)
      ensures found.None? <==> forall k :: k in jobs ==> jobs[k].ref != Some(ref)
      ensures found.Some? ==> found.value in jobs && jobs[found.value].ref == Some(ref)
      ensures found.Some? ==> forall k :: k in jobs && jobs[k].ref == Some(ref) ==> jobs[k].createdAt <= jobs[found.value].createdAt
    {
      var candidates := set j | j in jobs && HasRef(Rows(), j, ref);
      if candidates == {} {
        assert forall j :: j in jobs && HasRef(Rows(), j, ref) ==> j in candidates;
        return None;
      }
      var newest := PickBy(candidates, map j | j in jobs :: -jobs[j].createdAt);
      assert forall k :: HasRef(Rows(), k, ref) ==> k in candidates;
      found := Some(newest);
    }

    method FindPendingJobByParentID(parent: Id) returns (found: Option<Id>)
      ensures IsLatestClone(Rows(), parent, found)
      ensures found.None? <==> forall k :: k in jobs ==> jobs[k].parent != Some(parent) || jobs[k].status !in {Pending, Running}
      ensures found.Some? ==> found.value in jobs && jobs[found.value].parent == Some(parent) && jobs[found.value].status in {Pending, Running}
      ensures found.Some? ==> forall k :: k in jobs && jobs[k].parent == Some(parent) && jobs[k].status in {Pending, Running} ==>
                jobs[k].createdAt <= jobs[found.value].createdAt
    {
      var candidates := set j | j in jobs && IsLiveClone(Rows(), parent, j);
      if candidates == {} {
        assert forall j :: j in jobs && IsLiveClone(Rows(), parent, j) ==> j in candidates;
        return None;
      }
      var newest := PickBy(candidates, map j | j in jobs :: -jobs[j].createdAt);
      assert forall k :: IsLiveClone(Rows(), parent, k) ==> k in candidates;
      found := Some(newest);
    }

    /** ORDER BY sequence_number LIMIT: rows with equal numbers come in any order. */
    method FindTasksBatch(j: Id, statuses: set<Status>, after: int, limit: nat) returns (page: seq<Id>)
      ensures IsTaskPage(Rows(), j, statuses, after, limit, page)
      ensures |page| <= limit && forall i, k :: 0 <= i < k < |page| ==> page[i] != page[k]
      ensures forall i :: 0 <= i < |page| ==>
                && page[i] in tasks && tasks[page[i]].jobId == j && tasks[page[i]].sequence > after
                && (statuses == {} || tasks[page[i]].status in statuses)
      ensures forall i, k :: 0 <= i < k < |page| ==> tasks[page[i]].sequence <= tasks[page[k]].sequence
      ensures forall t :: t in tasks && tasks[t].jobId == j && tasks[t].sequence > after && (statuses == {} || tasks[t].status in statuses) && t !in page ==>
                |page| == limit && forall i :: 0 <= i < |page| ==> tasks[page[i]].sequence <= tasks[t].sequence
    {
      var matching := MatchingAfter(Rows(), j, statuses, after);
      page := SmallestFirst(matching, map t | t in tasks :: tasks[t].sequence, limit);
      if |page| < limit {
        AllListed(page, matching);
      }
    }

    /** All of a job's tasks, in no particular order. */
    method FindTasksByJobID(j: Id) returns (order: seq<Id>)
      ensures Distinct(order) && |order| == |TasksOf(Rows(), j)|
      ensures forall t :: t in order <==> t in TasksOf(Rows(), j)
      ensures forall t :: t in order <==> t in tasks && tasks[t].jobId == j
    {
      order := SmallestFirst(TasksOf(Rows(), j), map t | t in tasks :: 0, |TasksOf(Rows(), j)|);
      AllListed(order, TasksOf(Rows(), j));
    }

    method GetTaskStatusSummary(j: Id) returns (summary: TaskStatusSummary)
      ensures summary == Summarise(Rows(), j)
      ensures summary.total == |set t | t in tasks && tasks[t].jobId == j|
      ensures summary.completed == |set t | t in tasks && tasks[t].jobId == j && tasks[t].status == Completed|
      ensures summary.nonTerminal ==
                |set t | t in tasks && tasks[t].jobId == j && tasks[t].status !in {Completed, Failed, MaxRetriesExhausted, Rejected, Cancelled}|
    {
      assert TasksOf(Rows(), j) == set t | t in tasks && tasks[t].jobId == j;
      assert CompletedOf(Rows(), j) == set t | t in tasks && tasks[t].jobId == j && tasks[t].status == Completed;
      assert UnfinishedOf(Rows(), j) ==
             set t | t in tasks && tasks[t].jobId == j && tasks[t].status !in {Completed, Failed, MaxRetriesExhausted, Rejected, Cancelled};
      summary := Summarise(Rows(), j);
    }

    method FindCompletableJobIDs(name: string, limit: int) returns (page: seq<Id>)
      ensures IsCompletablePage(Rows(), name, if limit <= 0 then 200 else limit, page)
      ensures |page| <= (if limit <= 0 then 200 else limit) && forall i, k :: 0 <= i < k < |page| ==> page[i] != page[k]
      ensures forall i :: 0 <= i < |page| ==> page[i] in jobs && jobs[page[i]].name == name && jobs[page[i]].status == Running
      ensures forall i, t :: 0 <= i < |page| && t in tasks && tasks[t].jobId == page[i] ==>
                tasks[t].status in {Completed, Failed, MaxRetriesExhausted, Rejected, Cancelled}
      ensures forall j :: j in jobs && jobs[j].name == name && jobs[j].status == Running && j !in page ==>
                || |page| == (if limit <= 0 then 200 else limit)
                || exists t :: t in tasks && tasks[t].jobId == j && tasks[t].status !in {Completed, Failed, MaxRetriesExhausted, Rejected, Cancelled}
    {
      page := SmallestFirst(CompletableJobs(Rows(), name), map j | j in jobs :: 0, if limit <= 0 then 200 else limit);
      if |page| < (if limit <= 0 then 200 else limit) {
        AllListed(page, CompletableJobs(Rows(), name));
      }
    }

    method UpdateTaskRow(t: Id, patch: TaskPatch)
      modifies this`tasks
      ensures Rows() == UpdateTask(old(Rows()), t, patch)
      ensures tasks.Keys == old(tasks).Keys && forall u :: u in tasks && u != t ==> tasks[u] == old(tasks)[u]
      ensures t in tasks ==> tasks[t] == old(tasks)[t].(status := patch.status, attempt := tasks[t].attempt, result := tasks[t].result)
      ensures t in tasks ==> tasks[t].attempt == match patch.attempt { case Some(n) => n case None => old(tasks)[t].attempt }
      ensures t in tasks ==> tasks[t].result == match patch.result { case Some(text) => text case None => old(tasks)[t].result }
      ensures old(Valid()) ==> Valid()
    {
      if t in tasks {
        tasks := tasks[t := Patched(tasks[t], patch)];
      }
    }

    method UpdateTasksStatus(ts: set<Id>, status: Status)
      modifies this`tasks
      ensures Rows() == SetTaskStatuses(old(Rows()), ts, status)
      ensures tasks.Keys == old(tasks).Keys
      ensures forall t :: t in tasks ==> tasks[t] == if t in ts then old(tasks)[t].(status := status) else old(tasks)[t]
      ensures old(Valid()) ==> Valid()
    {
      tasks := map t | t in tasks :: if t in ts then tasks[t].(status := status) else tasks[t];
    }

    method UpdateTasksStatusByJobID(j: Id, status: Status)
      modifies this`tasks
      ensures Rows() == SetTaskStatuses(old(Rows()), TasksOf(old(Rows()), j), status)
      ensures tasks.Keys == old(tasks).Keys
      ensures forall t :: t in tasks ==> tasks[t] == if old(tasks)[t].jobId == j then old(tasks)[t].(status := status) else old(tasks)[t]
      ensures old(Valid()) ==> Valid()
    {
      UpdateTasksStatus(TasksOf(Rows(), j), status);
    }

    method UpdateJobStatus(j: Id, status: Status)
      modifies this`jobs
      ensures Rows() == SetJobStatus(old(Rows()), j, status)
      ensures jobs == if j in old(jobs) then old(jobs)[j := old(jobs)[j].(status := status)] else old(jobs)
      ensures old(Valid()) ==> Valid()
    {
      if j in jobs {
        jobs := jobs[j := jobs[j].(status := status)];
      }
    }

    /** Compare-and-set: one guarded UPDATE, reporting whether it hit the row. */
    method UpdateJobIfStatus(j: Id, expected: Status, status: Status) returns (updated: bool)
      modifies this`jobs
      ensures updated <==> j in old(jobs) && old(jobs)[j].status == expected
      ensures Rows() == if updated then SetJobStatus(old(Rows()), j, status) else old(Rows())
      ensures jobs == if updated then old(jobs)[j := old(jobs)[j].(status := status)] else old(jobs)
      ensures old(Valid()) ==> Valid()
    {
      updated := j in jobs && jobs[j].status == expected;
      if updated {
        jobs := jobs[j := jobs[j].(status := status)];
      }
    }

    /** False stands for ErrJobAlreadyTerminal, which rolls the transaction back. */
    method TerminateJob(j: Id) returns (cancelled: bool)
      modifies this`jobs, this`tasks
      ensures cancelled <==> j in old(jobs) && old(jobs)[j].status in {Pending, Running}
      ensures Rows() == if cancelled then Terminate(old(Rows()), j) else old(Rows())
      ensures jobs == if cancelled then old(jobs)[j := old(jobs)[j].(status := Cancelled)] else old(jobs)
      ensures tasks.Keys == old(tasks).Keys
      ensures forall t :: t in tasks ==>
                tasks[t] == if cancelled && old(tasks)[t].jobId == j && old(tasks)[t].status == Pending then old(tasks)[t].(status := Cancelled) else old(tasks)[t]
      ensures old(Valid()) ==> Valid()
    {
      cancelled := j in jobs && IsLive(jobs[j].status);
      if cancelled {
        var pending := set t | t in TasksOf(Rows(), j) && tasks[t].status == Pending;
        jobs := jobs[j := jobs[j].(status := Cancelled)];
        tasks := map t | t in tasks :: if t in pending then tasks[t].(status := Cancelled) else tasks[t];
      }
    }

    /** The first statement of the transaction, which returns the jobs it hit. */
    method CancelOtherJobs(name: string, current: Id) returns (cancelled: set<Id>)
      modifies this`jobs
      ensures forall j :: j in cancelled <==> j in old(jobs) && j != current && old(jobs)[j].name == name && old(jobs)[j].status in {Pending, Running}
      ensures jobs.Keys == old(jobs).Keys
      ensures forall j :: j in jobs ==> jobs[j] == if j in cancelled then old(jobs)[j].(status := Cancelled) else old(jobs)[j]
    {
      cancelled := set j | j in jobs && j != current && jobs[j].name == name && jobs[j].status in {Pending, Running};
      jobs := map j | j in jobs :: if j in cancelled then jobs[j].(status := Cancelled) else jobs[j];
    }

    /** The second one. */
    method CancelOpenTasks(cancelled: set<Id>)
      modifies this`tasks
      ensures tasks.Keys == old(tasks).Keys
      ensures forall t :: t in tasks ==>
                tasks[t] == if old(tasks)[t].jobId in cancelled && old(tasks)[t].status in {Pending, Running, Failed}
                            then old(tasks)[t].(status := Cancelled) else old(tasks)[t]
    {
      tasks := map t | t in tasks ::
        if tasks[t].jobId in cancelled && tasks[t].status in {Pending, Running, Failed} then tasks[t].(status := Cancelled) else tasks[t];
    }

    /** Of the name every other live job, and of those jobs the PENDING, RUNNING and FAILED tasks; nothing else. */
    method CancelPreviousJobs(name: string, current: Id)
      modifies this`jobs, this`tasks
      ensures Rows() == CancelPrevious(old(Rows()), name, current)
      ensures old(Valid()) ==> Valid()
      ensures jobs.Keys == old(jobs).Keys && tasks.Keys == old(tasks).Keys
      ensures forall j :: j in jobs ==>
                jobs[j] == if j != current && old(jobs)[j].name == name && old(jobs)[j].status in {Pending, Running}
                           then old(jobs)[j].(status := Cancelled) else old(jobs)[j]
      ensures forall t :: t in tasks ==>
                var j := old(tasks)[t].jobId;
                tasks[t] == if && j in old(jobs) && j != current && old(jobs)[j].name == name && old(jobs)[j].status in {Pending, Running}
                               && old(tasks)[t].status in {Pending, Running, Failed}
                            then old(tasks)[t].(status := Cancelled) else old(tasks)[t]
    {
      ghost var was := Rows();
      var cancelled := CancelOtherJobs(name, current);
      CancelOpenTasks(cancelled);
      assert forall j :: j in cancelled <==> SupersededBy(was, name, current, j);
      assert jobs == CancelPrevious(was, name, current).jobs;
      assert tasks == CancelPrevious(was, name, current).tasks;
    }

    /** One transaction: the job row and all its task rows appear together. */
    method CreateJobAndTasks(j: Id, job: Job, rows: map<Id, Task>)
      requires Valid() && j < nextId && forall t :: t in rows ==> t < nextId
      modifies this`jobs, this`tasks
      ensures Rows() == InsertJob(old(Rows()), j, job, rows) && Valid()
      ensures jobs == old(jobs)[j := job] && tasks == old(tasks) + rows
    {
      jobs := jobs[j := job];
      tasks := tasks + rows;
    }

    method CreateTasks(rows: map<Id, Task>)
      requires Valid() && forall t :: t in rows ==> t < nextId
      modifies this`tasks
      ensures Rows() == old(Rows()).(tasks := old(tasks) + rows) && Valid()
    {
      tasks := tasks + rows;
    }
  }

  /** The `limit` smallest elements of a set under a key, smallest first. */
  method SmallestFirst(s: set<Id>, key: map<Id, int>, limit: nat) returns (page: seq<Id>)
    requires s <= key.Keys
    ensures Distinct(page) && |page| == Min(limit, |s|)
    ensures forall i :: 0 <= i < |page| ==> page[i] in s
    ensures forall i, k :: 0 <= i < k < |page| ==> key[page[i]] <= key[page[k]]
    ensures forall i, t :: 0 <= i < |page| && t in s && t !in page ==> key[page[i]] <= key[t]
  {
    page := [];
    var rest := s;
    while |page| < limit && rest != {}
      invariant rest == (set t | t in s && t !in page) && |page| + |rest| == |s| && |page| <= limit
      invariant Distinct(page) && forall i :: 0 <= i < |page| ==> page[i] in s
      invariant forall i, k :: 0 <= i < k < |page| ==> key[page[i]] <= key[page[k]]
      invariant forall i, t :: 0 <= i < |page| && t in rest ==> key[page[i]] <= key[t]
      decreases rest
    {
      var least := PickBy(rest, key);
      page := page + [least];
      rest := rest - {least};
    }
  }

  // ---------------------------------------------------------------- resolving a job from its tasks

  /** What a job's tasks say about it, row by row: nothing yet, or the terminal status to write. */
  function Resolution(db: Db, j: Id): Option<Status> {
    if !AllFinished(db, j) then None
    else if forall t :: t in db.tasks && db.tasks[t].jobId == j ==> db.tasks[t].status == Completed then Some(Completed)
    else if forall t :: t in db.tasks && db.tasks[t].jobId == j ==> db.tasks[t].status != Completed then Some(Failed)
    else Some(PartialFailed)
  }
}
