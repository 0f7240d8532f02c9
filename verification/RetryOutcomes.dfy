/** What a retry of a job leaves behind, written out row by row: the refusals, a live clone taken over, and a new clone with the
    tasks it holds. */
module RetryOutcomes {
  import opened Options
  import opened Domain
  import opened Store
  import opened Finalizer
  import opened Protocol
  import opened TaskExecutor
  import opened Retry

  // ---------------------------------------------------------------- refusals

  lemma RetryIsRefused(registered: set<string>, db: Db, request: Request, id: Id, sent: map<nat, Partition>, next: Db, now: map<nat, Partition>,
                       result: RetryResult, order: seq<Id>, finalised: Option<Id>)
    requires JobRetried(registered, db, request, id, sent, next, now, result, order, finalised)
    ensures result.JobNotFound? <==> request.job !in db.jobs
    ensures result.NotTerminal? <==> request.job in db.jobs && db.jobs[request.job].status in {Pending, Running}
    ensures result.NotRegistered? <==>
              request.job in db.jobs && db.jobs[request.job].status !in {Pending, Running} && db.jobs[request.job].name !in registered
    ensures result.JobNotFound? || result.NotTerminal? || result.NotRegistered? ==> next == db && now == sent && finalised == None
  {
  }

  // ---------------------------------------------------------------- a live clone

  /** A newest PENDING or RUNNING clone of the job. */
  ghost predicate IsNewestLiveClone(db: Db, job: Id, clone: Id) {
    && clone in db.jobs && db.jobs[clone].parent == Some(job) && db.jobs[clone].status in {Pending, Running}
    && forall k :: k in db.jobs && db.jobs[k].parent == Some(job) && db.jobs[k].status in {Pending, Running} ==>
         db.jobs[k].createdAt <= db.jobs[clone].createdAt
  }

  /** What becomes of it: a PENDING one all of whose tasks get through is started, or, without tasks, finished; nothing else
      changes. */
  ghost predicate TakesUp(db: Db, request: Request, clone: Id, next: Db, result: RetryResult, finalised: Option<Id>)
    requires clone in db.jobs
  {
    && next.tasks == db.tasks
    && if exists t :: t in db.tasks && db.tasks[t].jobId == clone && request.route(t) == None then result == StreamFailed && next.jobs == db.jobs
       else if db.jobs[clone].status == Running then result == AlreadyRunning && next.jobs == db.jobs
       else
         && result == Retried(clone)
         && if exists t :: t in db.tasks && db.tasks[t].jobId == clone
            then next.jobs == db.jobs[clone := db.jobs[clone].(status := Running)] && finalised == None
            else next.jobs == db.jobs[clone := db.jobs[clone].(status := Completed)] && finalised == Some(clone)
  }

  lemma RetryTakesOver(registered: set<string>, db: Db, request: Request, id: Id, sent: map<nat, Partition>, next: Db, now: map<nat, Partition>,
                       result: RetryResult, order: seq<Id>, finalised: Option<Id>, live: Id)
    requires JobRetried(registered, db, request, id, sent, next, now, result, order, finalised)
    requires request.job in db.jobs && db.jobs[request.job].status !in {Pending, Running} && db.jobs[request.job].name in registered
    requires live in db.jobs && db.jobs[live].parent == Some(request.job) && db.jobs[live].status in {Pending, Running}
    ensures exists clone :: IsNewestLiveClone(db, request.job, clone) && TakesUp(db, request, clone, next, result, finalised)
              && now == SentAll(sent, order, request.route) && (!result.StreamFailed? ==> InOrder(db, clone, {}, order))
  {
    assert IsLiveClone(db, request.job, live);
    var clone :| GoesOn(db, request, sent, next, now, result, order, finalised, clone);
    assert IsNewestLiveClone(db, request.job, clone) by {
      forall k | k in db.jobs && db.jobs[k].parent == Some(request.job) && db.jobs[k].status in {Pending, Running}
        ensures db.jobs[k].createdAt <= db.jobs[clone].createdAt
      {
        assert IsLiveClone(db, request.job, k);
      }
    }
    GoingOnTakesUp(db, request, sent, next, now, result, order, finalised, clone);
  }

  lemma GoingOnTakesUp(db: Db, request: Request, sent: map<nat, Partition>, next: Db, now: map<nat, Partition>,
                       result: RetryResult, order: seq<Id>, finalised: Option<Id>, clone: Id)
    requires GoesOn(db, request, sent, next, now, result, order, finalised, clone)
    ensures TakesUp(db, request, clone, next, result, finalised)
  {
    assert forall t :: t in TasksOf(db, clone) <==> t in db.tasks && db.tasks[t].jobId == clone;
    if !result.StreamFailed? {
      TakenOverCounts(db, request, sent, now, clone, order);
    }
  }

  // ---------------------------------------------------------------- a new clone

  /** The task is one a retry clones: any task of the job for a full retry, one whose retries are exhausted for a partial one. */
  predicate IsRetried(db: Db, request: Request, u: Id) {
    u in db.tasks && db.tasks[u].jobId == request.job && (request.full || db.tasks[u].status == MaxRetriesExhausted)
  }

  /** A PENDING first attempt of it for the clone. */
  predicate Repeats(db: Db, request: Request, clone: Id, u: Id, row: Task) {
    u in db.tasks &&
    row == Task(clone, db.tasks[u].name, Pending, 1, db.tasks[u].maxRetries, db.tasks[u].sequence, db.tasks[u].key, db.tasks[u].params,
                db.tasks[u].result, request.now)
  }

  /** A row made for it. */
  predicate IsRepeat(db: Db, request: Request, clone: Id, u: Id, next: Db, k: Id) {
    k in next.tasks && k !in db.tasks && Repeats(db, request, clone, u, next.tasks[k])
  }

  /** Exactly one row made repeats the task. */
  ghost predicate RepeatedOnce(db: Db, request: Request, clone: Id, u: Id, next: Db) {
    && (exists k :: IsRepeat(db, request, clone, u, next, k))
    && forall k, m :: IsRepeat(db, request, clone, u, next, k) && IsRepeat(db, request, clone, u, next, m) ==> k == m
  }

  lemma ListedAreRetried(db: Db, request: Request, order: seq<Id>, ok: bool)
    requires Listed(db, request.job, RetryStatuses(request.full), order, ok)
    ensures forall u :: u in order ==> IsRetried(db, request, u)
    ensures ok ==> forall u :: IsRetried(db, request, u) ==> u in order
  {
    ListedMatch(db, request.job, RetryStatuses(request.full), order, ok);
    if ok {
      forall u | IsRetried(db, request, u)
        ensures u in order
      {
        assert u in ToSet(order);
      }
    }
  }

  /** The rows of a new clone, by place. */
  lemma ClonedRows(db: Db, request: Request, clone: Id, next: Db, order: seq<Id>)
    requires request.job in db.jobs && (forall u :: u in order ==> u in db.tasks) && (forall t :: t in db.tasks ==> t < clone)
    requires next == Cloned(db, request.job, request.ref, request.now, clone, order)
    ensures forall t :: t in db.tasks ==> t in next.tasks && next.tasks[t] == db.tasks[t]
    ensures forall k :: k in next.tasks && k !in db.tasks <==> clone + 1 <= k < clone + 1 + |order|
    ensures forall i {:trigger order[i]} :: 0 <= i < |order| ==> clone + 1 + i in next.tasks && Repeats(db, request, clone, order[i], next.tasks[clone + 1 + i])
  {
    var empty := InsertJob(db, clone, CloneJob(db.jobs[request.job], request.job, request.ref, request.now), map[]);
    assert empty.tasks == db.tasks;
    OneCloneEach(db.tasks, order, clone + 1, clone, request.now);
    var rows := Clones(db.tasks, order, clone + 1, clone, request.now);
    assert next.tasks == db.tasks + rows;
    forall i {:trigger order[i]} | 0 <= i < |order|
      ensures clone + 1 + i in next.tasks && Repeats(db, request, clone, order[i], next.tasks[clone + 1 + i])
    {
      assert order[i] in order && clone + 1 + i in rows;
    }
  }

  /** Every row of a new clone repeats a task a retry clones. */
  lemma CloneHoldsOnlyRetried(db: Db, request: Request, sent: map<nat, Partition>, clone: Id, next: Db, now: map<nat, Partition>, order: seq<Id>, ok: bool, k: Id)
    requires MadeAnew(db, request, sent, clone, next, now, order, ok) && (forall t :: t in db.tasks ==> t < clone)
    requires k in next.tasks && k !in db.tasks
    ensures exists u :: IsRetried(db, request, u) && Repeats(db, request, clone, u, next.tasks[k])
  {
    ListedAreRetried(db, request, order, ok);
    ClonedRows(db, request, clone, next, order);
    var i := k - clone - 1;
    assert order[i] in order && Repeats(db, request, clone, order[i], next.tasks[clone + 1 + i]);
  }

  lemma OnlyAtItsPlace(db: Db, request: Request, clone: Id, next: Db, order: seq<Id>, i: nat, k: Id)
    requires Ascending(db, order) && i < |order| && IsRepeat(db, request, clone, order[i], next, k) && clone + 1 <= k < clone + 1 + |order|
    requires forall n {:trigger order[n]} :: 0 <= n < |order| ==> clone + 1 + n in next.tasks && Repeats(db, request, clone, order[n], next.tasks[clone + 1 + n])
    ensures k == clone + 1 + i
  {
    var n := k - clone - 1;
    assert Repeats(db, request, clone, order[n], next.tasks[clone + 1 + n]);
    assert order[i] in order && order[n] in order;
  }

  lemma SameRowsRepeat(db: Db, request: Request, clone: Id, u: Id, next: Db, other: Db)
    requires next.tasks == other.tasks && RepeatedOnce(db, request, clone, u, next)
    ensures RepeatedOnce(db, request, clone, u, other)
  {
    var k :| IsRepeat(db, request, clone, u, next, k);
    assert IsRepeat(db, request, clone, u, other, k);
    forall k: Id, m: Id | IsRepeat(db, request, clone, u, other, k) && IsRepeat(db, request, clone, u, other, m)
      ensures k == m
    {
      assert IsRepeat(db, request, clone, u, next, k) && IsRepeat(db, request, clone, u, next, m);
    }
  }

  /** And if all get through, each of them is repeated, once. */
  lemma CloneHoldsEachRetried(db: Db, request: Request, sent: map<nat, Partition>, clone: Id, next: Db, now: map<nat, Partition>, order: seq<Id>, u: Id)
    requires MadeAnew(db, request, sent, clone, next, now, order, true) && (forall t :: t in db.tasks ==> t < clone) && IsRetried(db, request, u)
    ensures RepeatedOnce(db, request, clone, u, next)
  {
    ListedAreRetried(db, request, order, true);
    ClonedRows(db, request, clone, next, order);
    var i :| 0 <= i < |order| && order[i] == u;
    assert IsRepeat(db, request, clone, u, next, clone + 1 + i);
    forall k: Id, m: Id | IsRepeat(db, request, clone, u, next, k) && IsRepeat(db, request, clone, u, next, m)
      ensures k == m
    {
      OnlyAtItsPlace(db, request, clone, next, order, i, k);
      OnlyAtItsPlace(db, request, clone, next, order, i, m);
    }
  }

  /** The clone itself: its parent is the job, its name, attempts and marking the job's, its reference and time the request's. */
  ghost predicate IsCloneOf(db: Db, request: Request, row: Job)
    requires request.job in db.jobs
  {
    row == Job(Some(request.job), db.jobs[request.job].name, row.status, db.jobs[request.job].maxRetries, Some(request.ref), request.now,
               db.jobs[request.job].triggerFailure)
  }

  /** The tasks a retry would clone. */
  function RetriedTasks(db: Db, request: Request): set<Id> {
    set u | u in db.tasks && IsRetried(db, request, u)
  }

  lemma MatchingIsRetried(db: Db, request: Request)
    ensures Matching(db, request.job, RetryStatuses(request.full)) == RetriedTasks(db, request)
  {
  }

  /** Without a live clone a new one is made. Retried is returned exactly if the messages of all clones there are to make get
      through; the clone is then started or, without tasks, finished, and else it stays PENDING, filled and published up to the
      first page that fails. No other row changes. */
  lemma RetryMakesClone(registered: set<string>, db: Db, request: Request, id: Id, sent: map<nat, Partition>, next: Db, now: map<nat, Partition>,
                        result: RetryResult, order: seq<Id>, finalised: Option<Id>)
    requires JobRetried(registered, db, request, id, sent, next, now, result, order, finalised)
    requires request.job in db.jobs && db.jobs[request.job].status !in {Pending, Running} && db.jobs[request.job].name in registered
    requires forall k :: k in db.jobs && db.jobs[k].parent == Some(request.job) ==> db.jobs[k].status !in {Pending, Running}
    requires id !in db.jobs && forall t :: t in db.tasks ==> t < id
    ensures result == if forall t :: id + 1 <= t < id + 1 + |RetriedTasks(db, request)| ==> request.route(t).Some? then Retried(id) else StreamFailed
    ensures id in next.jobs && next.jobs == db.jobs[id := next.jobs[id]] && IsCloneOf(db, request, next.jobs[id])
    ensures next.jobs[id].status == if result.StreamFailed? then Pending else if RetriedTasks(db, request) == {} then Completed else Running
    ensures finalised == if result.Retried? && RetriedTasks(db, request) == {} then Some(id) else None
    ensures forall t :: t in db.tasks ==> t in next.tasks && next.tasks[t] == db.tasks[t]
    ensures forall k :: k in next.tasks && k !in db.tasks <==> id + 1 <= k < id + 1 + |order|
    ensures now == SentAll(sent, Ids(id + 1, |order|), request.route)
    ensures if result.Retried? then |order| == |RetriedTasks(db, request)|
            else StopsAtFailure(Ids(id + 1, |order|), |RetriedTasks(db, request)|, request.batch, request.route)
  {
    var streamed := NewCloneBegins(registered, db, request, id, sent, next, now, result, order, finalised);
    MatchingIsRetried(db, request);
    BeginsMeans(db, request, id, sent, next, now, result, order, finalised, streamed);
    ListedAreRetried(db, request, order, result.Retried?);
    ClonedRows(db, request, id, streamed, order);
  }

  /** Every row made repeats a task of the job, for a partial retry one that reads MAX_RETRIES_EXHAUSTED; if the retry goes
      through, each such task is repeated exactly once. */
  lemma RetryClonesTheRetried(registered: set<string>, db: Db, request: Request, id: Id, sent: map<nat, Partition>, next: Db, now: map<nat, Partition>,
                              result: RetryResult, order: seq<Id>, finalised: Option<Id>)
    requires JobRetried(registered, db, request, id, sent, next, now, result, order, finalised)
    requires request.job in db.jobs && db.jobs[request.job].status !in {Pending, Running} && db.jobs[request.job].name in registered
    requires forall k :: k in db.jobs && db.jobs[k].parent == Some(request.job) ==> db.jobs[k].status !in {Pending, Running}
    requires forall t :: t in db.tasks ==> t < id
    ensures forall k :: k in next.tasks && k !in db.tasks ==>
              exists u :: && u in db.tasks && db.tasks[u].jobId == request.job && (request.full || db.tasks[u].status == MaxRetriesExhausted)
                          && Repeats(db, request, id, u, next.tasks[k])
    ensures result.Retried? ==>
              forall u :: u in db.tasks && db.tasks[u].jobId == request.job && (request.full || db.tasks[u].status == MaxRetriesExhausted) ==>
                RepeatedOnce(db, request, id, u, next)
  {
    var streamed := NewCloneBegins(registered, db, request, id, sent, next, now, result, order, finalised);
    assert next.tasks == streamed.tasks;
    forall k | k in next.tasks && k !in db.tasks
      ensures exists u :: IsRetried(db, request, u) && Repeats(db, request, id, u, next.tasks[k])
    {
      CloneHoldsOnlyRetried(db, request, sent, id, streamed, now, order, result.Retried?, k);
    }
    if result.Retried? {
      forall u | IsRetried(db, request, u)
        ensures RepeatedOnce(db, request, id, u, next)
      {
        CloneHoldsEachRetried(db, request, sent, id, streamed, now, order, u);
        SameRowsRepeat(db, request, id, u, streamed, next);
      }
    }
  }

  lemma NewCloneBegins(registered: set<string>, db: Db, request: Request, id: Id, sent: map<nat, Partition>, next: Db, now: map<nat, Partition>,
                       result: RetryResult, order: seq<Id>, finalised: Option<Id>) returns (streamed: Db)
    requires JobRetried(registered, db, request, id, sent, next, now, result, order, finalised)
    requires request.job in db.jobs && db.jobs[request.job].status !in {Pending, Running} && db.jobs[request.job].name in registered
    requires forall k :: k in db.jobs && db.jobs[k].parent == Some(request.job) ==> db.jobs[k].status !in {Pending, Running}
    ensures Begins(db, request, id, sent, next, now, result, order, finalised, streamed)
  {
    assert !HasLiveClone(db, request.job);
    streamed :| Begins(db, request, id, sent, next, now, result, order, finalised, streamed);
  }

  lemma BeginsMeans(db: Db, request: Request, id: Id, sent: map<nat, Partition>, next: Db, now: map<nat, Partition>,
                    result: RetryResult, order: seq<Id>, finalised: Option<Id>, streamed: Db)
    requires Begins(db, request, id, sent, next, now, result, order, finalised, streamed)
    requires Matching(db, request.job, RetryStatuses(request.full)) == RetriedTasks(db, request)
    ensures result == if forall t :: id + 1 <= t < id + 1 + |RetriedTasks(db, request)| ==> request.route(t).Some? then Retried(id) else StreamFailed
    ensures id in next.jobs && next.jobs == db.jobs[id := next.jobs[id]] && IsCloneOf(db, request, next.jobs[id]) && next.tasks == streamed.tasks
    ensures next.jobs[id].status == if result.StreamFailed? then Pending else if RetriedTasks(db, request) == {} then Completed else Running
    ensures finalised == if result.Retried? && RetriedTasks(db, request) == {} then Some(id) else None
    ensures now == SentAll(sent, Ids(id + 1, |order|), request.route)
    ensures if result.Retried? then |order| == |RetriedTasks(db, request)|
            else StopsAtFailure(Ids(id + 1, |order|), |RetriedTasks(db, request)|, request.batch, request.route)
  {
    IdsRange(id + 1, |RetriedTasks(db, request)|);
    assert result.Retried? ==> |order| == |RetriedTasks(db, request)|;
  }
}
