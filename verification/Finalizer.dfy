/** Deciding that a job is finished and writing it down (internal/executor/job_finalizer.go):
    the two resolvers, the guarded write, and the periodic completion check. */
module Finalizer {
  import opened Options
  import opened Domain
  import opened Store

  const COMPLETION_CHECK_BATCH_SIZE := 200

  /** The outcome as the aggregate query's counts give it. */
  function ResolveSummary(s: TaskStatusSummary): Option<Status> {
    if s.total == 0 then Some(Completed)
    else if s.nonTerminal > 0 then None
    else
      var failed := s.total - s.completed;
      if failed == 0 then Some(Completed)
      else if s.completed == 0 then Some(Failed)
      else Some(PartialFailed)
  }

  function JobStatusToAction(status: Status): Option<JobAction> {
    match status
    case Completed => Some(CompleteJob)
    case Failed => Some(FailJob)
    case PartialFailed => Some(PartialFailJob)
    case _ => None
  }

  /** What the set of statuses among a job's rows settles: the order and number of rows play no part. */
  function Outcome(statuses: set<Status>): (outcome: Option<Status>)
    ensures outcome.Some? ==> JobStatusToAction(outcome.value).Some? && IsTerminalJob(outcome.value)
  {
    if exists s :: s in statuses && !IsFinished(s) then None
    else if statuses <= {Completed} then Some(Completed)
    else if Completed !in statuses then Some(Failed)
    else Some(PartialFailed)
  }

  function StatusesOf(rows: seq<Task>): set<Status> {
    set i | 0 <= i < |rows| :: rows[i].status
  }

  function StatusesIn(db: Db, j: Id): set<Status> {
    set t | t in TasksOf(db, j) :: db.tasks[t].status
  }

  /** The row scan, giving up at the first unfinished row. */
  method ResolveJobTerminalStatus(rows: seq<Task>) returns (outcome: Option<Status>)
    ensures outcome == Outcome(StatusesOf(rows))
  {
    if |rows| == 0 {
      return Some(Completed);
    }
    var completed, failed := 0, 0;
    for i := 0 to |rows|
      invariant forall k :: 0 <= k < i ==> IsFinished(rows[k].status)
      invariant completed + failed == i && completed >= 0 && failed >= 0
      invariant completed > 0 <==> exists k :: 0 <= k < i && rows[k].status == Completed
      invariant failed > 0 <==> exists k :: 0 <= k < i && rows[k].status != Completed
    {
      if !IsFinished(rows[i].status) {
        assert rows[i].status in StatusesOf(rows);
        return None;
      }
      if rows[i].status == Completed {
        completed := completed + 1;
      } else {
        failed := failed + 1;
      }
    }
    if failed == 0 {
      return Some(Completed);
    }
    var other :| 0 <= other < |rows| && rows[other].status != Completed;
    assert rows[other].status in StatusesOf(rows);
    if completed == 0 {
      return Some(Failed);
    }
    return Some(PartialFailed);
  }

  /** Aggregate counts, row scan and completable query agree, whatever the statuses are and in whatever
      order the rows come. */
  lemma {:induction false} SummaryScanAndQueryAgree(db: Db, j: Id, order: seq<Id>, rows: seq<Task>)
    requires |order| == |rows| && (forall i :: 0 <= i < |order| ==> order[i] in db.tasks && rows[i] == db.tasks[order[i]])
    requires forall t :: t in order <==> t in TasksOf(db, j)
    ensures ResolveSummary(Summarise(db, j)) == Outcome(StatusesOf(rows)) == Resolution(db, j)
    ensures forall name :: Completable(db, name, j) <==>
        j in db.jobs && db.jobs[j].name == name && db.jobs[j].status == Running && Resolution(db, j).Some?
  {
    assert StatusesOf(rows) == StatusesIn(db, j) by {
      forall t | t in TasksOf(db, j)
        ensures db.tasks[t].status in StatusesOf(rows)
      {
        assert t in order;
        var i :| 0 <= i < |order| && order[i] == t;
        assert rows[i].status in StatusesOf(rows);
      }
      forall i | 0 <= i < |rows|
        ensures rows[i].status in StatusesIn(db, j)
      {
        assert order[i] in TasksOf(db, j);
      }
    }
    SummaryAgrees(db, j);
    ResolutionIsOutcome(db, j);
  }

  lemma ResolutionIsOutcome(db: Db, j: Id)
    ensures Resolution(db, j) == Outcome(StatusesIn(db, j))
  {
    assert forall t :: t in db.tasks && db.tasks[t].jobId == j ==> t in TasksOf(db, j) && db.tasks[t].status in StatusesIn(db, j);
    assert forall s :: s in StatusesIn(db, j) ==> exists t :: t in TasksOf(db, j) && db.tasks[t].status == s;
  }

  /** The counts settle exactly what the rows settle. */
  lemma SummaryAgrees(db: Db, j: Id)
    ensures ResolveSummary(Summarise(db, j)) == Resolution(db, j)
  {
    var all, completed, open := TasksOf(db, j), CompletedOf(db, j), UnfinishedOf(db, j);
    assert forall t :: t in db.tasks && db.tasks[t].jobId == j ==> t in all;
    if open != {} {
      var t :| t in open;
      assert !IsFinished(db.tasks[t].status) && db.tasks[t].jobId == j;
      assert !AllFinished(db, j);
      assert |all| > 0;
    } else {
      assert forall t :: t in all ==> t !in open;
      assert AllFinished(db, j);
      SubsetOfSameSize(completed, all);
      if completed == all {
        assert forall t :: t in all ==> db.tasks[t].status == Completed;
        assert Resolution(db, j) == Some(Completed);
      } else {
        var t :| t in all && t !in completed;
        assert db.tasks[t].jobId == j && db.tasks[t].status != Completed;
        assert |all| > 0;
        if completed == {} {
          assert forall t :: t in all ==> t !in completed;
          assert Resolution(db, j) == Some(Failed);
        } else {
          var u :| u in completed;
          assert db.tasks[u].jobId == j && db.tasks[u].status == Completed;
        }
      }
    }
  }

  lemma SubsetOfSameSize<T>(part: set<T>, whole: set<T>)
    requires part <= whole
    ensures |part| == |whole| <==> part == whole
    ensures |part| <= |whole|
  {
    assert whole == part + (whole - part);
    assert |whole - part| == 0 <==> whole - part == {};
  }

  // ---------------------------------------------------------------- one finaliser on its own

  /** The calls made to the OnJobFinished hook, in order. */
  datatype HookCall = HookCall(name: string, ref: string, status: Status)

  class HookLog {
    var finished: seq<HookCall>

    constructor ()
      ensures finished == []
    {
      finished := [];
    }
  }

  function Finalised(db: Db, done: set<Id>): Db {
    db.(jobs := map j | j in db.jobs ::
          if j in done && Resolution(db, j).Some? then db.jobs[j].(status := Resolution(db, j).value) else db.jobs[j])
  }

  /** The hook call made when a job is finalised: none when its name has no configuration. */
  function HookCallFor(db: Db, registered: set<string>, j: Id): seq<HookCall>
    requires j in db.jobs
  {
    if db.jobs[j].name in registered
    then [HookCall(db.jobs[j].name, db.jobs[j].ref.GetOr(""), Resolution(db, j).GetOr(db.jobs[j].status))]
    else []
  }

  lemma FinalisedSingle(db: Db, j: Id)
    requires j in db.jobs && Resolution(db, j).Some?
    ensures Finalised(db, {j}) == SetJobStatus(db, j, Resolution(db, j).value)
  {
  }

  /** What a job resolves to, written out: nothing while a task is PENDING, RUNNING or anything unknown. */
  lemma ResolutionMeans(db: Db, j: Id)
    ensures Resolution(db, j) == None <==>
      exists t :: t in db.tasks && db.tasks[t].jobId == j && db.tasks[t].status !in {Completed, Failed, MaxRetriesExhausted, Rejected, Cancelled}
    ensures Resolution(db, j) == Some(Completed) <==> forall t :: t in db.tasks && db.tasks[t].jobId == j ==> db.tasks[t].status == Completed
    ensures Resolution(db, j) == Some(Failed) <==>
      && (exists t :: t in db.tasks && db.tasks[t].jobId == j)
      && forall t :: t in db.tasks && db.tasks[t].jobId == j ==> db.tasks[t].status in {Failed, MaxRetriesExhausted, Rejected, Cancelled}
    ensures Resolution(db, j) in {None, Some(Completed), Some(Failed), Some(PartialFailed)}
  {
  }

  /** Finalising sets the resolved status of the listed jobs and changes nothing else. */
  lemma FinalisedMeans(db: Db, done: set<Id>, j: Id)
    requires j in db.jobs
    ensures var next := Finalised(db, done);
      && next.tasks == db.tasks && next.jobs.Keys == db.jobs.Keys
      && (j !in done || Resolution(db, j) == None ==> next.jobs[j] == db.jobs[j])
      && (j in done && Resolution(db, j).Some? ==> next.jobs[j] == db.jobs[j].(status := Resolution(db, j).value))
  {
  }

  datatype FinalizeResult = JobMissing | NotReady | JobFinalized

  /** Reads the job, reads its summary, writes the outcome if the row is still RUNNING, fires the hook. */
  method MaybeFinalizeJob(repo: Repository, hooks: HookLog, registered: set<string>, j: Id) returns (result: FinalizeResult)
    modifies repo`jobs, hooks
    ensures result == JobMissing <==> j !in old(repo.jobs)
    ensures result == JobFinalized <==>
        j in old(repo.jobs) && old(repo.jobs)[j].status == Running && Resolution(old(repo.Rows()), j).Some?
    ensures repo.Rows() == if result == JobFinalized then Finalised(old(repo.Rows()), {j}) else old(repo.Rows())
    ensures hooks.finished == old(hooks.finished) +
        if result == JobFinalized then HookCallFor(old(repo.Rows()), registered, j) else []
    ensures result == JobFinalized ==>
      hooks.finished == old(hooks.finished) +
        if old(repo.jobs)[j].name in registered
        then [HookCall(old(repo.jobs)[j].name, match old(repo.jobs)[j].ref { case Some(ref) => ref case None => "" }, repo.jobs[j].status)]
        else []
  {
    var found := repo.FindJobByID(j);
    if found.None? {
      return JobMissing;
    }
    var job := new JobRecord(found.value);
    if job.row.status != Running {
      return NotReady;
    }
    var summary := repo.GetTaskStatusSummary(j);
    SummaryAgrees(repo.Rows(), j);
    var outcome := ResolveSummary(summary);
    if outcome.None? {
      return NotReady;
    }
    FinalisedSingle(repo.Rows(), j);
    var fired := job.Fire(JobStatusToAction(outcome.value).value);
    var updated := repo.UpdateJobIfStatus(j, Running, job.row.status);
    if !updated {
      return NotReady;
    }
    if job.row.name in registered {
      hooks.finished := hooks.finished + [HookCall(job.row.name, job.row.ref.GetOr(""), job.row.status)];
    }
    return JobFinalized;
  }

  // ---------------------------------------------------------------- runs without tasks

  /** A job without tasks is ready, and COMPLETED. */
  lemma NoTasksNothingOpen(db: Db, j: Id)
    requires TasksOf(db, j) == {}
    ensures Resolution(db, j) == Some(Completed)
  {
    assert forall t :: t in db.tasks && db.tasks[t].jobId == j ==> t in TasksOf(db, j);
  }

  /** The hook call made for a run finalised because it has no tasks, if one is. */
  function EmptyHook(db: Db, registered: set<string>, finalised: Option<Id>): seq<HookCall> {
    if finalised.Some? && finalised.value in db.jobs && db.jobs[finalised.value].name in registered
    then [HookCall(db.jobs[finalised.value].name, db.jobs[finalised.value].ref.GetOr(""), Completed)]
    else []
  }

  method FinalizeEmpty(repo: Repository, hooks: HookLog, registered: set<string>, j: Id)
    requires j in repo.jobs && repo.jobs[j].status == Running && TasksOf(repo.Rows(), j) == {}
    modifies repo`jobs, hooks
    ensures repo.Rows() == SetJobStatus(old(repo.Rows()), j, Completed)
    ensures hooks.finished == old(hooks.finished) + EmptyHook(old(repo.Rows()), registered, Some(j))
  {
    NoTasksNothingOpen(repo.Rows(), j);
    FinalisedSingle(repo.Rows(), j);
    var _ := MaybeFinalizeJob(repo, hooks, registered, j);
  }

  /** A run is started; without a task to wait for, it is finalised at once. */
  function StartedRun(db: Db, j: Id, empty: bool): Db {
    var started := SetJobStatus(db, j, Running);
    if empty then SetJobStatus(started, j, Completed) else started
  }

  // ---------------------------------------------------------------- the periodic check

  function ToSet(ids: seq<Id>): set<Id> {
    set j | j in ids
  }

  predicate AllReady(db: Db, page: seq<Id>) {
    forall j :: j in page ==> j in db.jobs && db.jobs[j].status == Running && Resolution(db, j).Some?
  }

  function HookCallsFor(db: Db, registered: set<string>, page: seq<Id>): seq<HookCall>
    requires ToSet(page) <= db.jobs.Keys
  {
    if page == [] then [] else HookCallsFor(db, registered, page[..|page| - 1]) + HookCallFor(db, registered, page[|page| - 1])
  }

  /** A registered name has one call for each job of the page, in order, with the job's reference and the status it resolves to;
      any other has none. */
  lemma {:induction false} HookCallsList(db: Db, registered: set<string>, name: string, page: seq<Id>)
    requires ToSet(page) <= db.jobs.Keys && AllReady(db, page) && forall i :: 0 <= i < |page| ==> page[i] in db.jobs && db.jobs[page[i]].name == name
    ensures |HookCallsFor(db, registered, page)| == if name in registered then |page| else 0
    ensures name in registered ==> forall i {:trigger page[i]} :: 0 <= i < |page| ==>
              Resolution(db, page[i]).Some? &&
              HookCallsFor(db, registered, page)[i] ==
                HookCall(name, match db.jobs[page[i]].ref { case Some(ref) => ref case None => "" }, Resolution(db, page[i]).value)
  {
    if page != [] {
      var last := |page| - 1;
      assert page[last] in page;
      assert ToSet(page[..last]) <= ToSet(page);
      HookCallsList(db, registered, name, page[..last]);
    }
  }

  /** Finalising one more job leaves the others' outcomes as they were. */
  lemma FinaliseOneMore(db: Db, registered: set<string>, done: set<Id>, j: Id)
    requires j in db.jobs && j !in done
    ensures var now := Finalised(db, done);
      && now.jobs[j] == db.jobs[j] && Resolution(now, j) == Resolution(db, j)
      && Finalised(now, {j}) == Finalised(db, done + {j})
      && HookCallFor(now, registered, j) == HookCallFor(db, registered, j)
  {
    var now := Finalised(db, done);
    assert Resolution(now, j) == Resolution(db, j) by {
      SameTasksSameResolution(db, now);
    }
    if Resolution(db, j).Some? {
      FinalisedSingle(now, j);
      assert Finalised(db, done + {j}).jobs == now.jobs[j := db.jobs[j].(status := Resolution(db, j).value)];
    } else {
      assert Finalised(now, {j}).jobs == now.jobs;
      assert Finalised(db, done + {j}).jobs == now.jobs;
    }
  }

  /** One job of a page, finalised after the jobs in `done`. */
  method FinalizeListed(repo: Repository, hooks: HookLog, registered: set<string>, j: Id, ghost was: Db, ghost done: set<Id>)
    requires repo.Rows() == Finalised(was, done) && j !in done
    requires j in was.jobs && was.jobs[j].status == Running && Resolution(was, j).Some?
    modifies repo`jobs, hooks
    ensures repo.Rows() == Finalised(was, done + {j})
    ensures hooks.finished == old(hooks.finished) + HookCallFor(was, registered, j)
  {
    FinaliseOneMore(was, registered, done, j);
    var _ := MaybeFinalizeJob(repo, hooks, registered, j);
  }

  /** The first `i` jobs of the page are finalised, their hooks called. */
  ghost predicate SoFar(was: Db, calls: seq<HookCall>, registered: set<string>, page: seq<Id>, i: nat, now: Db, finished: seq<HookCall>) {
    && i <= |page| && ToSet(page[..i]) <= was.jobs.Keys
    && now == Finalised(was, ToSet(page[..i])) && finished == calls + HookCallsFor(was, registered, page[..i])
  }

  method FinalizeNext(repo: Repository, hooks: HookLog, registered: set<string>, page: seq<Id>, i: nat, ghost was: Db, ghost calls: seq<HookCall>)
    requires i < |page| && Distinct(page) && ToSet(page) <= was.jobs.Keys && AllReady(was, page)
    requires SoFar(was, calls, registered, page, i, repo.Rows(), hooks.finished)
    modifies repo`jobs, hooks
    ensures SoFar(was, calls, registered, page, i + 1, repo.Rows(), hooks.finished)
  {
    AppendOne(was, registered, page, i);
    assert page[i] in page;
    FinalizeListed(repo, hooks, registered, page[i], was, ToSet(page[..i]));
  }

  /** Finalises a list of ready jobs one after another. */
  method FinalizeAll(repo: Repository, hooks: HookLog, registered: set<string>, page: seq<Id>)
    requires Distinct(page) && ToSet(page) <= repo.jobs.Keys && AllReady(repo.Rows(), page)
    modifies repo`jobs, hooks
    ensures repo.Rows() == Finalised(old(repo.Rows()), ToSet(page))
    ensures hooks.finished == old(hooks.finished) + HookCallsFor(old(repo.Rows()), registered, page)
  {
    ghost var was, calls := repo.Rows(), hooks.finished;
    NoneFinalised(was, calls, registered, page);
    for i := 0 to |page|
      invariant SoFar(was, calls, registered, page, i, repo.Rows(), hooks.finished)
    {
      FinalizeNext(repo, hooks, registered, page, i, was, calls);
    }
    assert page[..|page|] == page;
  }

  lemma NoneFinalised(was: Db, calls: seq<HookCall>, registered: set<string>, page: seq<Id>)
    ensures SoFar(was, calls, registered, page, 0, was, calls)
  {
    assert Finalised(was, ToSet(page[..0])).jobs == was.jobs;
  }

  /** One completion check: a page of completable jobs, each finalised from its own tasks. */
  method CheckJobCompletions(repo: Repository, hooks: HookLog, registered: set<string>, name: string) returns (page: seq<Id>)
    modifies repo`jobs, hooks
    ensures IsCompletablePage(old(repo.Rows()), name, COMPLETION_CHECK_BATCH_SIZE, page)
    ensures repo.Rows() == Finalised(old(repo.Rows()), ToSet(page))
    ensures ToSet(page) <= old(repo.jobs).Keys && AllReady(old(repo.Rows()), page)
    ensures hooks.finished == old(hooks.finished) + HookCallsFor(old(repo.Rows()), registered, page)
    ensures |page| <= 200 && forall i :: 0 <= i < |page| ==> page[i] in repo.jobs && old(repo.jobs)[page[i]].name == name && old(repo.jobs)[page[i]].status == Running
    ensures repo.jobs.Keys == old(repo.jobs).Keys
    ensures forall j :: j in repo.jobs ==>
              if j in page then Resolution(old(repo.Rows()), j).Some? && repo.jobs[j] == old(repo.jobs)[j].(status := Resolution(old(repo.Rows()), j).value)
              else repo.jobs[j] == old(repo.jobs)[j]
    ensures |hooks.finished| == |old(hooks.finished)| + if name in registered then |page| else 0
    ensures old(hooks.finished) <= hooks.finished
    ensures name in registered ==> forall i {:trigger page[i]} :: 0 <= i < |page| ==>
              hooks.finished[|old(hooks.finished)| + i] ==
                HookCall(name, match old(repo.jobs)[page[i]].ref { case Some(ref) => ref case None => "" }, repo.jobs[page[i]].status)
  {
    page := repo.FindCompletableJobIDs(name, COMPLETION_CHECK_BATCH_SIZE);
    PageIsReady(repo.Rows(), name, page);
    HookCallsList(repo.Rows(), registered, name, page);
    FinalizeAll(repo, hooks, registered, page);
  }

  lemma PageIsReady(db: Db, name: string, page: seq<Id>)
    requires forall i :: 0 <= i < |page| ==> page[i] in CompletableJobs(db, name)
    ensures AllReady(db, page) && ToSet(page) <= db.jobs.Keys
    ensures forall i :: 0 <= i < |page| ==> page[i] in db.jobs && db.jobs[page[i]].name == name
  {
    forall j | j in page
      ensures j in db.jobs && db.jobs[j].status == Running && Resolution(db, j).Some?
    {
      assert j in CompletableJobs(db, name);
    }
  }

  lemma AppendOne(db: Db, registered: set<string>, page: seq<Id>, i: nat)
    requires i < |page| && Distinct(page) && ToSet(page) <= db.jobs.Keys
    ensures page[i] !in ToSet(page[..i]) && ToSet(page[..i + 1]) == ToSet(page[..i]) + {page[i]}
    ensures ToSet(page[..i]) <= db.jobs.Keys && page[i] in db.jobs && ToSet(page[..i + 1]) <= db.jobs.Keys
    ensures HookCallsFor(db, registered, page[..i + 1]) == HookCallsFor(db, registered, page[..i]) + HookCallFor(db, registered, page[i])
  {
    assert page[..i + 1] == page[..i] + [page[i]];
    assert ToSet(page[..i + 1]) == ToSet(page[..i]) + {page[i]};
    assert page[i] in ToSet(page) && ToSet(page[..i]) <= ToSet(page);
    assert page[..i + 1][..i] == page[..i];
  }

  lemma SameTasksSameResolution(a: Db, b: Db)
    requires a.tasks == b.tasks
    ensures forall j :: Resolution(a, j) == Resolution(b, j)
  {
  }

  /** One completion check as a step between table contents. */
  ghost predicate Checked(before: Db, name: string, after: Db) {
    exists page: seq<Id> ::
      IsCompletablePage(before, name, COMPLETION_CHECK_BATCH_SIZE, page) && after == Finalised(before, ToSet(page))
  }

  /** Jobs that left the backlog carry the status their tasks resolved to; no other job changed. */
  ghost predicate OnlyBacklogChanged(before: Db, name: string, after: Db)
    requires before.jobs.Keys == after.jobs.Keys
  {
    forall j :: j in before.jobs ==>
      if j in CompletableJobs(before, name) && j !in CompletableJobs(after, name)
      then Resolution(before, j).Some? && after.jobs[j] == before.jobs[j].(status := Resolution(before, j).value)
      else after.jobs[j] == before.jobs[j]
  }

  lemma DistinctSize(s: seq<Id>)
    requires Distinct(s)
    ensures |ToSet(s)| == |s|
  {
    if s != [] {
      var init := s[..|s| - 1];
      DistinctSize(init);
      assert s == init + [s[|s| - 1]];
      assert ToSet(s) == ToSet(init) + {s[|s| - 1]};
    }
  }

  /** A check of n completable jobs leaves max(0, n - 200) of them. */
  lemma CheckShrinksBacklog(before: Db, name: string, after: Db)
    requires Checked(before, name, after)
    ensures CompletableJobs(after, name) <= CompletableJobs(before, name)
    ensures |CompletableJobs(after, name)| ==
        |CompletableJobs(before, name)| - Min(COMPLETION_CHECK_BATCH_SIZE, |CompletableJobs(before, name)|)
    ensures after.tasks == before.tasks && after.jobs.Keys == before.jobs.Keys
    ensures OnlyBacklogChanged(before, name, after)
  {
    var page: seq<Id> :| IsCompletablePage(before, name, COMPLETION_CHECK_BATCH_SIZE, page) && after == Finalised(before, ToSet(page));
    SameTasksSameResolution(before, after);
    var backlog, rest := CompletableJobs(before, name), CompletableJobs(after, name);
    assert ToSet(page) <= backlog;
    forall j | j in before.jobs
      ensures j in rest <==> j in backlog && j !in ToSet(page)
    {
      LeavesBacklog(before, name, ToSet(page), j);
    }
    assert rest == backlog - ToSet(page);
    DistinctSize(page);
  }

  /** Of the finalised jobs none is left in the backlog; the others are in it as before. */
  lemma LeavesBacklog(before: Db, name: string, done: set<Id>, j: Id)
    requires j in before.jobs && done <= CompletableJobs(before, name)
    ensures var after := Finalised(before, done);
      j in CompletableJobs(after, name) <==> j in CompletableJobs(before, name) && j !in done
  {
    var after := Finalised(before, done);
    ResolutionIsOutcome(before, j);
    assert AllFinished(before, j) == AllFinished(after, j) == Resolution(before, j).Some?;
  }

  /** The table contents before, between and after a number of completion checks. */
  ghost predicate ChecksInARow(history: seq<Db>, name: string) {
    |history| > 0 && forall i :: 0 < i < |history| ==> Checked(history[i - 1], name, history[i])
  }

  /** The backlog drain bound: after k checks with no other writer, exactly the jobs that left the backlog have
      changed, each to the status its own tasks resolved to at the start, and n - min(n, 200 k) remain. */
  lemma {:induction false} BacklogDrains(history: seq<Db>, name: string)
    requires ChecksInARow(history, name)
    ensures var first, last, n := history[0], history[|history| - 1], |CompletableJobs(history[0], name)|;
      && |CompletableJobs(last, name)| == n - Min(n, COMPLETION_CHECK_BATCH_SIZE * (|history| - 1))
      && CompletableJobs(last, name) <= CompletableJobs(first, name)
      && last.tasks == first.tasks && last.jobs.Keys == first.jobs.Keys
      && OnlyBacklogChanged(first, name, last)
    decreases |history|
  {
    if |history| > 1 {
      var shorter := history[..|history| - 1];
      BacklogDrains(shorter, name);
      assert Checked(history[|history| - 1 - 1], name, history[|history| - 1]);
      CheckShrinksBacklog(shorter[|shorter| - 1], name, history[|history| - 1]);
      SameTasksSameResolution(history[0], shorter[|shorter| - 1]);
    }
  }
}
