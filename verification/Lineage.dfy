/** What becomes of sequence numbers, params and foreign keys along chains of retries, in every reachable state. */
module Lineage {
  import opened Options
  import opened Domain
  import opened Store
  import opened Finalizer
  import opened Runs
  import opened Protocol
  import opened Invariants
  import opened Retry

  // ---------------------------------------------------------------- the invariant

  predicate IsSource(db: Db, src: Id, task: Task, u: Id) {
    u in TasksOf(db, src) && SameWork(task, db.tasks[u])
  }

  ghost predicate HasSource(db: Db, src: Id, task: Task) {
    exists u :: IsSource(db, src, task, u)
  }

  /** A directly created job is numbered 0 to n-1; a clone's tasks are its parent's, by number. */
  ghost predicate Descends(db: Db, j: Id)
    requires j in db.jobs
  {
    match db.jobs[j].parent
    case None => forall t :: t in TasksOf(db, j) ==> db.tasks[t].sequence < |TasksOf(db, j)|
    case Some(src) => src in db.jobs && forall t :: t in TasksOf(db, j) ==> HasSource(db, src, db.tasks[t])
  }

  ghost predicate LineageOk(db: Db) {
    (forall j :: Numbered(db, j)) && forall j :: j in db.jobs ==> Descends(db, j)
  }

  /** Old rows as they were, as far as lineage goes. */
  ghost predicate Persists(db: Db, next: Db) {
    && (forall j :: j in db.jobs ==> j in next.jobs && next.jobs[j].parent == db.jobs[j].parent)
    && (forall t :: t in db.tasks ==> t in next.tasks && next.tasks[t].jobId == db.tasks[t].jobId && SameWork(next.tasks[t], db.tasks[t]))
  }

  // ---------------------------------------------------------------- the rows the streaming loop inserts

  /** The rows one turn of the streaming loop inserts are clones of a page, whatever has happened to the source's tasks
      between the read of the page and the insert. */
  lemma StreamedRowsCloneAPage(read: Db, db: Db, j: Id, src: Id, statuses: set<Status>, after: int, limit: nat, page: seq<Id>, first: Id, createdAt: int)
    requires IsTaskPage(read, src, statuses, after, limit, page) && Persists(read, db)
    requires forall t :: t in TasksOf(db, j) ==> db.tasks[t].sequence <= after
    ensures forall t :: t in page ==> t in read.tasks
    ensures ClonesPage(db, j, src, Clones(read.tasks, page, first, j, createdAt), Ids(first, |page|), page, after)
  {
    PageIsThere(read, src, statuses, after, limit, page);
    var rows, order := Clones(read.tasks, page, first, j, createdAt), Ids(first, |page|);
    ClonesInOrder(read.tasks, page, first, j, createdAt, rows, order);
    IdsInOrder(first, |page|);
    forall i | 0 <= i < |order|
      ensures page[i] in TasksOf(db, src) && db.tasks[page[i]].sequence > after && SameWork(rows[order[i]], db.tasks[page[i]])
    {
      assert page[i] in page;
    }
  }

  lemma PageIsThere(db: Db, src: Id, statuses: set<Status>, after: int, limit: nat, page: seq<Id>)
    requires IsTaskPage(db, src, statuses, after, limit, page)
    ensures Distinct(page) && forall t :: t in page ==> t in TasksOf(db, src) && db.tasks[t].sequence > after
  {
    forall t | t in page
      ensures t in TasksOf(db, src) && db.tasks[t].sequence > after
    {
      assert t in MatchingAfter(db, src, statuses, after);
    }
  }

  lemma ClonesInOrder(tasks: map<Id, Task>, page: seq<Id>, first: Id, j: Id, createdAt: int, rows: map<Id, Task>, order: seq<Id>)
    requires (forall t :: t in page ==> t in tasks) && rows == Clones(tasks, page, first, j, createdAt) && order == Ids(first, |page|)
    ensures |order| == |page| && (forall t :: t in rows ==> t in order)
    ensures forall i :: 0 <= i < |order| ==> order[i] in rows && rows[order[i]] == CloneOf(tasks[page[i]], j, createdAt)
  {
    OneCloneEach(tasks, page, first, j, createdAt);
    IdsInOrder(first, |page|);
    forall i | 0 <= i < |order|
      ensures order[i] in rows && rows[order[i]] == CloneOf(tasks[page[i]], j, createdAt)
    {
      assert page[i] in page && order[i] == first + i;
    }
  }

  // ---------------------------------------------------------------- inserting keeps the invariant

  lemma SourceStays(db: Db, next: Db, src: Id, task: Task, later: Task)
    requires Persists(db, next) && HasSource(db, src, task) && SameWork(later, task)
    ensures HasSource(next, src, later)
  {
    var u :| IsSource(db, src, task, u);
    assert IsSource(next, src, later, u);
  }

  /** A job that gets no new task. */
  lemma OldJobStays(db: Db, next: Db, j: Id)
    requires Persists(db, next) && Numbered(db, j) && (forall t :: t in next.tasks && t !in db.tasks ==> next.tasks[t].jobId != j)
    ensures TasksOf(next, j) == TasksOf(db, j) && Numbered(next, j) && (j in db.jobs && Descends(db, j) ==> Descends(next, j))
  {
    assert TasksOf(next, j) == TasksOf(db, j);
    if j in db.jobs && Descends(db, j) && db.jobs[j].parent.Some? {
      forall t | t in TasksOf(next, j)
        ensures HasSource(next, db.jobs[j].parent.value, next.tasks[t])
      {
        SourceStays(db, next, db.jobs[j].parent.value, db.tasks[t], next.tasks[t]);
      }
    }
  }

  lemma NothingNew(db: Db, next: Db)
    requires LineageOk(db) && Persists(db, next) && next.jobs.Keys == db.jobs.Keys && next.tasks.Keys == db.tasks.Keys
    ensures LineageOk(next)
  {
    forall j
      ensures Numbered(next, j) && (j in next.jobs ==> Descends(next, j))
    {
      OldJobStays(db, next, j);
    }
  }

  lemma OrderIsAll(rows: map<Id, Task>, order: seq<Id>)
    requires Distinct(order) && (forall t :: t in rows ==> t in order) && forall i :: 0 <= i < |order| ==> order[i] in rows
    ensures |order| == |rows.Keys|
  {
    DistinctSize(order);
    assert ToSet(order) == rows.Keys;
  }

  lemma NumberedRows(next: Db, j: Id, rows: map<Id, Task>, order: seq<Id>)
    requires NumberedByPlace(rows, order) && TasksOf(next, j) == rows.Keys && forall t :: t in rows ==> next.tasks[t] == rows[t]
    ensures Numbered(next, j) && forall t :: t in TasksOf(next, j) ==> next.tasks[t].sequence < |TasksOf(next, j)|
  {
    OrderIsAll(rows, order);
    forall t | t in rows
      ensures exists i :: 0 <= i < |order| && order[i] == t && rows[t].sequence == i
    {
      var i :| 0 <= i < |order| && order[i] == t;
    }
  }

  lemma OtherJobsStay(db: Db, next: Db, j: Id)
    requires LineageOk(db) && Persists(db, next) && forall t :: t in next.tasks && t !in db.tasks ==> next.tasks[t].jobId == j
    requires next.jobs.Keys <= db.jobs.Keys + {j} && Numbered(next, j) && (j in next.jobs ==> Descends(next, j))
    ensures LineageOk(next)
  {
    forall k | k != j
      ensures Numbered(next, k) && (k in next.jobs ==> Descends(next, k))
    {
      OldJobStays(db, next, k);
    }
  }

  lemma InsertPersists(db: Db, next: Db)
    requires db.jobs.Keys <= next.jobs.Keys && (forall j :: j in db.jobs ==> next.jobs[j] == db.jobs[j])
    requires db.tasks.Keys <= next.tasks.Keys && (forall t :: t in db.tasks ==> next.tasks[t] == db.tasks[t])
    ensures Persists(db, next)
  {
  }

  lemma FreshJobDescends(db: Db, j: Id, job: Job, rows: map<Id, Task>, order: seq<Id>, next: Db)
    requires (forall t :: t in db.tasks ==> db.tasks[t].jobId != j) && next == InsertJob(db, j, job, rows)
    requires forall t :: t in rows ==> t !in db.tasks && rows[t].jobId == j
    requires NumberedByPlace(rows, order) && (job.parent.Some? ==> job.parent.value in db.jobs && rows == map[])
    ensures Numbered(next, j) && Descends(next, j)
  {
    assert TasksOf(next, j) == rows.Keys;
    NumberedRows(next, j, rows, order);
  }

  /** A new job with its tasks, or a clone without any yet. */
  lemma NewJobDescends(db: Db, j: Id, job: Job, rows: map<Id, Task>, order: seq<Id>)
    requires LineageOk(db) && j !in db.jobs && (forall t :: t in db.tasks ==> db.tasks[t].jobId in db.jobs)
    requires forall t :: t in rows ==> t !in db.tasks && rows[t].jobId == j
    requires NumberedByPlace(rows, order) && (job.parent.Some? ==> job.parent.value in db.jobs && rows == map[])
    ensures LineageOk(InsertJob(db, j, job, rows))
  {
    var next := InsertJob(db, j, job, rows);
    FreshJobDescends(db, j, job, rows, order, next);
    InsertPersists(db, next);
    OtherJobsStay(db, next, j);
  }

  /** Where on the page a row comes from. */
  lemma PlaceOf(db: Db, j: Id, src: Id, rows: map<Id, Task>, order: seq<Id>, page: seq<Id>, after: int, t: Id) returns (i: nat)
    requires ClonesPage(db, j, src, rows, order, page, after) && t in rows
    ensures i < |order| == |page| && order[i] == t && page[i] in TasksOf(db, src) && db.tasks[page[i]].sequence > after
    ensures SameWork(rows[t], db.tasks[page[i]])
  {
    i :| 0 <= i < |order| && order[i] == t;
  }

  lemma PageDescends(db: Db, j: Id, src: Id, rows: map<Id, Task>, order: seq<Id>, page: seq<Id>, after: int)
    requires Numbered(db, src) && ClonesPage(db, j, src, rows, order, page, after)
    ensures forall t :: t in rows ==> rows[t].sequence > after && rows[t].sequence >= 0 && HasSource(db, src, rows[t])
    ensures forall t, u :: t in rows && u in rows && t != u ==> rows[t].sequence != rows[u].sequence
  {
    forall t | t in rows
      ensures rows[t].sequence > after && rows[t].sequence >= 0 && HasSource(db, src, rows[t])
    {
      var i := PlaceOf(db, j, src, rows, order, page, after, t);
      assert IsSource(db, src, rows[t], page[i]);
    }
    forall t, u | t in rows && u in rows && t != u
      ensures rows[t].sequence != rows[u].sequence
    {
      RowsDiffer(db, j, src, rows, order, page, after, t, u);
    }
  }

  lemma DifferentNumbers(db: Db, src: Id, page: seq<Id>, i: nat, k: nat)
    requires Numbered(db, src) && Distinct(page) && i < |page| && k < |page| && i != k && page[i] in TasksOf(db, src) && page[k] in TasksOf(db, src)
    ensures db.tasks[page[i]].sequence != db.tasks[page[k]].sequence
  {
    assert page[i] != page[k];
  }

  lemma RowsDiffer(db: Db, j: Id, src: Id, rows: map<Id, Task>, order: seq<Id>, page: seq<Id>, after: int, t: Id, u: Id)
    requires Numbered(db, src) && ClonesPage(db, j, src, rows, order, page, after) && t in rows && u in rows && t != u
    ensures rows[t].sequence != rows[u].sequence
  {
    var i := PlaceOf(db, j, src, rows, order, page, after, t);
    var k := PlaceOf(db, j, src, rows, order, page, after, u);
    DifferentNumbers(db, src, page, i, k);
  }

  lemma MoreNumbers(db: Db, next: Db, j: Id, rows: map<Id, Task>, after: int)
    requires Numbered(db, j) && next == db.(tasks := db.tasks + rows) && TasksOf(next, j) == TasksOf(db, j) + rows.Keys
    requires forall t :: t in rows ==> t !in db.tasks && rows[t].sequence > after && rows[t].sequence >= 0
    requires forall t, u :: t in rows && u in rows && t != u ==> rows[t].sequence != rows[u].sequence
    requires forall t :: t in TasksOf(db, j) ==> db.tasks[t].sequence <= after
    ensures Numbered(next, j)
  {
  }

  lemma SourcesStay(db: Db, next: Db, j: Id, src: Id, rows: map<Id, Task>)
    requires Persists(db, next) && next.tasks == db.tasks + rows && TasksOf(next, j) == TasksOf(db, j) + rows.Keys
    requires (forall t :: t in rows ==> t !in db.tasks && HasSource(db, src, rows[t])) && forall t :: t in TasksOf(db, j) ==> HasSource(db, src, db.tasks[t])
    ensures forall t :: t in TasksOf(next, j) ==> HasSource(next, src, next.tasks[t])
  {
    forall t | t in TasksOf(next, j)
      ensures HasSource(next, src, next.tasks[t])
    {
      SourceStays(db, next, src, next.tasks[t], next.tasks[t]);
    }
  }

  /** One more page of clones. */
  lemma MoreRowsDescend(db: Db, j: Id, src: Id, rows: map<Id, Task>, order: seq<Id>, page: seq<Id>, after: int)
    requires LineageOk(db) && j in db.jobs && db.jobs[j].parent == Some(src) && ClonesPage(db, j, src, rows, order, page, after)
    requires forall t :: t in rows ==> t !in db.tasks && rows[t].jobId == j
    ensures LineageOk(db.(tasks := db.tasks + rows))
  {
    var next := db.(tasks := db.tasks + rows);
    assert Numbered(next, j) && Descends(next, j) by {
      AnotherPage(db, j, src, rows, order, page, after);
    }
    InsertPersists(db, next);
    OtherJobsStay(db, next, j);
  }

  /** What matters of a page of clones: fresh numbers, and the work of the parent's tasks. */
  ghost predicate GoodRows(db: Db, j: Id, src: Id, rows: map<Id, Task>, after: int) {
    && (forall t :: t in rows ==> t !in db.tasks && rows[t].jobId == j && rows[t].sequence > after && rows[t].sequence >= 0 && HasSource(db, src, rows[t]))
    && (forall t, u :: t in rows && u in rows && t != u ==> rows[t].sequence != rows[u].sequence)
    && (forall t :: t in TasksOf(db, j) ==> db.tasks[t].sequence <= after)
  }

  lemma GoodRowsDescend(db: Db, j: Id, src: Id, rows: map<Id, Task>, after: int, next: Db)
    requires j in db.jobs && db.jobs[j].parent == Some(src) && Numbered(db, j) && Descends(db, j) && GoodRows(db, j, src, rows, after)
    requires next == db.(tasks := db.tasks + rows)
    ensures Numbered(next, j) && Descends(next, j)
  {
    assert TasksOf(next, j) == TasksOf(db, j) + rows.Keys;
    MoreNumbers(db, next, j, rows, after);
    InsertPersists(db, next);
    SourcesStay(db, next, j, src, rows);
  }

  lemma AnotherPage(db: Db, j: Id, src: Id, rows: map<Id, Task>, order: seq<Id>, page: seq<Id>, after: int)
    requires j in db.jobs && db.jobs[j].parent == Some(src) && Numbered(db, j) && Numbered(db, src) && Descends(db, j)
    requires ClonesPage(db, j, src, rows, order, page, after)
    requires forall t :: t in rows ==> t !in db.tasks && rows[t].jobId == j
    ensures var next := db.(tasks := db.tasks + rows); Numbered(next, j) && Descends(next, j)
  {
    PageDescends(db, j, src, rows, order, page, after);
    GoodRowsDescend(db, j, src, rows, after, db.(tasks := db.tasks + rows));
  }

  // ---------------------------------------------------------------- over whole runs

  predicate Inserts(e: Event) {
    e.Open? || e.OpenSettled? || e.AddRows?
  }

  ghost predicate SameKeys(db: Db, next: Db) {
    next.jobs.Keys == db.jobs.Keys && next.tasks.Keys == db.tasks.Keys
  }

  lemma DeliveriesInsertNothing(cfg: Config, w: World, e: Event)
    requires CanStep(cfg, w, e) && IsDelivery(e)
    ensures SameKeys(w.db, Apply(cfg, w, e).db)
  {
  }

  lemma EndingsInsertNothing(cfg: Config, w: World, e: Event)
    requires Inv(cfg, w) && CanStep(cfg, w, e) && IsEnding(e)
    ensures SameKeys(w.db, Apply(cfg, w, e).db)
  {
  }

  lemma RestInsertsNothing(cfg: Config, w: World, e: Event)
    requires CanStep(cfg, w, e) && !IsDelivery(e) && !IsEnding(e) && !Inserts(e)
    ensures SameKeys(w.db, Apply(cfg, w, e).db)
  {
  }

  lemma ChangesPersist(db: Db, next: Db, touched: set<Id>)
    requires Changes(db, next, touched)
    ensures Persists(db, next)
  {
  }

  lemma OpenKeepsLineage(db: Db, j: Id, job: Job, rows: map<Id, Task>, order: seq<Id>)
    requires LineageOk(db) && j !in db.jobs && (forall t :: t in db.tasks ==> db.tasks[t].jobId in db.jobs)
    requires FreshRows(db, j, job.createdAt, rows)
    requires if job.parent.None? then NumberedByPlace(rows, order) else job.parent.value in db.jobs && rows == map[]
    ensures LineageOk(InsertJob(db, j, job, rows))
  {
    NewJobDescends(db, j, job, rows, if job.parent.None? then order else []);
  }

  lemma InsertKeepsLineage(cfg: Config, w: World, e: Event)
    requires Inv(cfg, w) && LineageOk(w.db) && CanStep(cfg, w, e) && Inserts(e)
    ensures LineageOk(Apply(cfg, w, e).db)
  {
    match e
    case Open(p, j, job, rows, order) => OpenKeepsLineage(w.db, j, job, rows, order);
    case OpenSettled(j, job, rows, order) => NewJobDescends(w.db, j, job, rows, order);
    case AddRows(p, rows, order, page, after) =>
      MoreRowsDescend(w.db, w.starters[p].job, w.db.jobs[w.starters[p].job].parent.value, rows, order, page, after);
  }

  lemma StepKeepsLineage(cfg: Config, w: World, e: Event)
    requires Inv(cfg, w) && LineageOk(w.db) && CanStep(cfg, w, e)
    ensures Inv(cfg, Apply(cfg, w, e)) && LineageOk(Apply(cfg, w, e).db)
  {
    StepKeeps(cfg, w, e);
    if Inserts(e) {
      InsertKeepsLineage(cfg, w, e);
    } else {
      if IsDelivery(e) {
        DeliveriesInsertNothing(cfg, w, e);
      } else if IsEnding(e) {
        EndingsInsertNothing(cfg, w, e);
      } else {
        RestInsertsNothing(cfg, w, e);
      }
      ChangesPersist(w.db, Apply(cfg, w, e).db, Touched(w, e));
      NothingNew(w.db, Apply(cfg, w, e).db);
    }
  }

  ghost predicate LineageInv(cfg: Config, w: World) {
    Inv(cfg, w) && LineageOk(w.db)
  }

  lemma RunKeepsLineage(cfg: Config, w: World, es: seq<Event>)
    requires LineageInv(cfg, w) && CanRun(Step(cfg), w, es)
    ensures LineageInv(cfg, After(Step(cfg), w, es))
  {
    var inv := (s: World) => LineageInv(cfg, s);
    forall s, e | inv(s) && Step(cfg)(s, e).Some?
      ensures inv(Step(cfg)(s, e).value)
    {
      StepKeepsLineage(cfg, s, e);
    }
    Invariance(Step(cfg), inv, w, es);
  }

  lemma ReachableLineage(cfg: Config, w: World)
    requires Reachable(cfg, w)
    ensures Inv(cfg, w) && LineageOk(w.db)
  {
    var init: World, es: seq<Event> :| IsInitial(init) && CanRun(Step(cfg), init, es) && After(Step(cfg), init, es) == w;
    InitialLineage(cfg, init);
    RunKeepsLineage(cfg, init, es);
  }

  lemma InitialLineage(cfg: Config, init: World)
    requires IsInitial(init)
    ensures LineageInv(cfg, init)
  {
  }

  /** The sequence numbers of a job's tasks. */
  function NumbersOf(db: Db, ts: set<Id>): set<int>
    requires ts <= db.tasks.Keys
  {
    set t | t in ts :: db.tasks[t].sequence
  }

  /** The numbers 0 to n-1. */
  function UpTo(n: nat): (numbers: set<int>)
    ensures |numbers| == n && forall i :: i in numbers <==> 0 <= i < n
  {
    if n == 0 then {} else UpTo(n - 1) + {n - 1}
  }

  lemma {:induction false} DistinctNumbersCount(db: Db, ts: set<Id>)
    requires ts <= db.tasks.Keys && forall t, u :: t in ts && u in ts && t != u ==> db.tasks[t].sequence != db.tasks[u].sequence
    ensures |NumbersOf(db, ts)| == |ts|
    decreases ts
  {
    if ts != {} {
      var t :| t in ts;
      DistinctNumbersCount(db, ts - {t});
      assert NumbersOf(db, ts) == NumbersOf(db, ts - {t}) + {db.tasks[t].sequence};
      assert db.tasks[t].sequence !in NumbersOf(db, ts - {t});
    }
  }

  /** In every reachable state the paging precondition holds of every job; a job created directly carries exactly the
      numbers 0 to n-1. */
  lemma NumbersAreSound(cfg: Config, w: World, j: Id)
    requires Reachable(cfg, w)
    ensures Numbered(w.db, j)
    ensures j in w.db.jobs && w.db.jobs[j].parent.None? ==> NumbersOf(w.db, TasksOf(w.db, j)) == UpTo(|TasksOf(w.db, j)|)
  {
    ReachableLineage(cfg, w);
    var ts := TasksOf(w.db, j);
    if j in w.db.jobs && w.db.jobs[j].parent.None? {
      assert Descends(w.db, j);
      DistinctNumbersCount(w.db, ts);
      SubsetOfSameSize(NumbersOf(w.db, ts), UpTo(|ts|));
    }
  }

  /** A chain of retries: each job is a clone of the one before. */
  ghost predicate IsChain(db: Db, chain: seq<Id>) {
    && |chain| > 0 && (forall i :: 0 <= i < |chain| ==> chain[i] in db.jobs)
    && forall i :: 0 < i < |chain| ==> db.jobs[chain[i]].parent == Some(chain[i - 1])
  }

  lemma {:induction false} ChainDescends(db: Db, chain: seq<Id>, t: Id)
    requires LineageOk(db) && IsChain(db, chain) && t in TasksOf(db, chain[|chain| - 1])
    ensures HasSource(db, chain[0], db.tasks[t])
    decreases |chain|
  {
    var last := |chain| - 1;
    if last == 0 {
      assert IsSource(db, chain[0], db.tasks[t], t);
    } else {
      assert Descends(db, chain[last]);
      var u :| IsSource(db, chain[last - 1], db.tasks[t], u);
      ChainDescends(db, chain[..last], u);
      var v :| IsSource(db, chain[0], db.tasks[u], v);
      assert IsSource(db, chain[0], db.tasks[t], v);
    }
  }

  /** However long the chain of full and partial retries, each task does the work of exactly one task of the job the
      chain began with: same number, name, params, key and attempt limit. */
  lemma RetriesKeepTheWork(cfg: Config, w: World, chain: seq<Id>, t: Id)
    requires Reachable(cfg, w) && IsChain(w.db, chain) && t in TasksOf(w.db, chain[|chain| - 1])
    ensures exists u :: IsSource(w.db, chain[0], w.db.tasks[t], u)
    ensures forall u, v :: IsSource(w.db, chain[0], w.db.tasks[t], u) && IsSource(w.db, chain[0], w.db.tasks[t], v) ==> u == v
  {
    ReachableLineage(cfg, w);
    ChainDescends(w.db, chain, t);
    assert Numbered(w.db, chain[0]);
  }

  /** Whether its job was created in one transaction with it or long before by a streaming retry, every task row finds
      its job through (job_id, created_at); so the only task a delivery of which fails at the start is a FAILED one of a
      live job. */
  lemma EveryTaskFindsItsJob(cfg: Config, w: World, t: Id)
    requires Reachable(cfg, w) && t in w.db.tasks
    ensures var task := w.db.tasks[t];
      && task.jobId in w.db.jobs && FindTaskWithJob(w.db, t) == Some((task, w.db.jobs[task.jobId]))
      && (Decide(cfg, w.db, t).Errored? <==> JobLive(w.db, task.jobId) && task.status == Failed)
  {
    ReachableInv(cfg, w);
    assert InBounds(w.db.tasks[t]);
  }
}
