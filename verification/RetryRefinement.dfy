/** What retrying a job does to tables, topics and finalisations, whatever its result, a run of the protocol does too. So the
    numbering a retry relies on holds whenever one is executed. */
module RetryRefinement {
  import opened Options
  import opened Domain
  import opened Store
  import opened Finalizer
  import opened Runs
  import opened Protocol
  import opened Lineage
  import opened TaskExecutor
  import opened Retry
  import opened Trigger
  import opened Refinement
  import opened References
  import opened Resume
  import opened TriggerRefinement

  /** A live clone goes on: its tasks are sent, and if all got through and it is PENDING it is started. */
  function GoneOn(w: World, clone: Id, order: seq<Id>, route: Route, start: bool): World {
    w.(db := if start then StartedRun(w.db, clone, order == []) else w.db, logs := SendAll(w.logs, order, route),
       history := WithWin(w.history, if start && order == [] then Some(clone) else None))
  }

  lemma GoneOnReflects(w: World, clone: Id, order: seq<Id>, route: Route, start: bool)
    ensures Reflects(w, GoneOn(w, clone, order, route, start), if start then StartedRun(w.db, clone, order == []) else w.db,
                     SentAll(Offsets(w.logs), order, route), if start && order == [] then Some(clone) else None)
  {
    SendAllShows(w.logs, order, route);
  }

  /** A starter with its whole list, all of which gets through, and nothing to cancel. */
  lemma CloneStarts(cfg: Config, w: World, clone: Id, order: seq<Id>, route: Route)
    requires Calm(w) && TriggerRefinement.Ready(w.db, clone, order) && LeadsTo(w.logs, route) && AllRouted(order, route)
    ensures MayReach(cfg, WithStarter(w, clone, order, false), GoneOn(w, clone, order, route, true))
  {
    ListMembers(order, TasksOf(w.db, clone));
    PublishedFlow(cfg, w, clone, order, false, route);
    AllSent(order, route, 0);
    assert order[..|order|] == order;
    assert Flowed(w, clone, false, order, route) == GoneOn(w, clone, order, route, true);
  }

  lemma InOrderLists(db: Db, j: Id, order: seq<Id>)
    requires InOrder(db, j, {}, order)
    ensures Lists(order, TasksOf(db, j))
  {
    assert Matching(db, j, {}) == TasksOf(db, j);
  }

  lemma TakenOverIsARun(cfg: Config, w: World, request: Request, now: map<nat, Partition>, clone: Id, order: seq<Id>, ok: bool)
    requires Calm(w) && LeadsTo(w.logs, request.route) && TakenOver(w.db, request, Offsets(w.logs), now, clone, order, ok)
    ensures MayReach(cfg, w, GoneOn(w, clone, order, request.route, ok && w.db.jobs[clone].status == Pending))
  {
    if ok && w.db.jobs[clone].status == Pending {
      InOrderLists(w.db, clone, order);
      OneEvent(cfg, w, Event.Resume(0, clone, order, false));
      ByRun(cfg, w, [Event.Resume(0, clone, order, false)], WithStarter(w, clone, order, false));
      CloneStarts(cfg, w, clone, order, request.route);
      ReachOn(cfg, w, WithStarter(w, clone, order, false), GoneOn(w, clone, order, request.route, true));
    } else {
      ListedMatch(w.db, clone, {}, order, ok);
      ResendingIsARun(cfg, w, order, request.route);
    }
  }

  // ---------------------------------------------------------------- a new clone

  lemma BareCloneIsARun(cfg: Config, w: World, clone: Id, job: Job)
    requires w.starters == map[] && clone !in w.db.jobs && job.status == Pending && job.name in cfg && job.parent.Some? && job.parent.value in w.db.jobs
    ensures var bare := w.(db := InsertJob(w.db, clone, job, map[]));
      MayReach(cfg, w, WithStarter(bare, clone, [], false))
  {
    var bare := w.(db := InsertJob(w.db, clone, job, map[]));
    OneEvent(cfg, w, Open(0, clone, job, map[], []));
    assert Opened(cfg, w, 0, clone, job, map[], []) == WithStarter(bare, clone, [], false);
    ByRun(cfg, w, [Open(0, clone, job, map[], [])], WithStarter(bare, clone, [], false));
  }

  /** Rows that may be added to a clone without any. */
  ghost predicate Addable(db: Db, clone: Id, src: Id, rows: map<Id, Task>, ids: seq<Id>, page: seq<Id>) {
    && clone in db.jobs && db.jobs[clone].parent == Some(src) && FreshRows(db, clone, db.jobs[clone].createdAt, rows) && Lists(ids, rows.Keys)
    && ClonesPage(db, clone, src, rows, ids, page, -1)
  }

  lemma AddingIsARun(cfg: Config, w: World, clone: Id, src: Id, rows: map<Id, Task>, ids: seq<Id>, page: seq<Id>)
    requires Addable(w.db, clone, src, rows, ids, page)
    ensures MayReach(cfg, WithStarter(w, clone, [], false), WithStarter(w.(db := w.db.(tasks := w.db.tasks + rows)), clone, ids, false))
  {
    var bare, e := WithStarter(w, clone, [], false), AddRows(0, rows, ids, page, -1);
    assert bare.starters[0] == Starter(clone, [], false);
    assert CanAddRows(bare, 0, rows, ids) && ClonesParent(bare, 0, rows, ids, page, -1);
    RowsGoIn(w, clone, rows, ids);
    OneEvent(cfg, bare, e);
    ByRun(cfg, bare, [e], RowsAdded(bare, 0, rows, ids));
  }

  lemma RowsGoIn(w: World, clone: Id, rows: map<Id, Task>, ids: seq<Id>)
    requires CanAddRows(WithStarter(w, clone, [], false), 0, rows, ids)
    ensures RowsAdded(WithStarter(w, clone, [], false), 0, rows, ids) == WithStarter(w.(db := w.db.(tasks := w.db.tasks + rows)), clone, ids, false)
  {
    assert map[0 := Starter(clone, [], false)][0 := Starter(clone, ids, false)] == map[0 := Starter(clone, ids, false)];
  }

  lemma CloneRows(db: Db, clone: Id, createdAt: int, order: seq<Id>, rows: map<Id, Task>, ids: seq<Id>)
    requires (forall t :: t in order ==> t in db.tasks) && forall t :: t in db.tasks ==> t < clone
    requires rows == Clones(db.tasks, order, clone + 1, clone, createdAt) && ids == Ids(clone + 1, |order|)
    ensures FreshRows(db, clone, createdAt, rows) && Lists(ids, rows.Keys)
  {
    OneCloneEach(db.tasks, order, clone + 1, clone, createdAt);
    forall k | k in rows
      ensures rows[k].createdAt == createdAt && rows[k].status == Pending && rows[k].attempt == 1
    {
      var i := k - (clone + 1);
      assert order[i] in order && rows[clone + 1 + i] == CloneOf(db.tasks[order[i]], clone, createdAt);
    }
    ListLength(ids, rows.Keys, clone + 1);
    MembersList(ids, rows.Keys);
  }

  /** The listed tasks of the source, cloned, are a page past everything a clone without tasks has. */
  lemma ListIsAPage(db: Db, clone: Id, src: Id, statuses: set<Status>, order: seq<Id>, all: bool, rows: map<Id, Task>, ids: seq<Id>, createdAt: int)
    requires Numbered(db, src) && Listed(db, src, statuses, order, all) && TasksOf(db, clone) == {}
    requires rows == Clones(db.tasks, order, clone + 1, clone, createdAt) && ids == Ids(clone + 1, |order|)
    ensures ClonesPage(db, clone, src, rows, ids, order, -1)
  {
    ListedMatch(db, src, statuses, order, all);
    AscendingIsDistinct(db, order);
    ClonesInOrder(db.tasks, order, clone + 1, clone, createdAt, rows, ids);
    IdsInOrder(clone + 1, |order|);
    forall i | 0 <= i < |ids|
      ensures ids[i] in rows && order[i] in TasksOf(db, src) && db.tasks[order[i]].sequence > -1 && SameWork(rows[ids[i]], db.tasks[order[i]])
    {
      assert order[i] in order && order[i] in Matching(db, src, statuses);
    }
  }

  /** Renaming nothing but a job leaves pages as they are. */
  lemma SameTasksSamePage(db: Db, bare: Db, clone: Id, src: Id, rows: map<Id, Task>, ids: seq<Id>, page: seq<Id>)
    requires bare.tasks == db.tasks && ClonesPage(db, clone, src, rows, ids, page, -1)
    ensures ClonesPage(bare, clone, src, rows, ids, page, -1)
  {
    assert TasksOf(bare, clone) == TasksOf(db, clone) && TasksOf(bare, src) == TasksOf(db, src);
  }

  function BareDb(db: Db, request: Request, clone: Id): Db
    requires request.job in db.jobs
  {
    InsertJob(db, clone, CloneJob(db.jobs[request.job], request.job, request.ref, request.now), map[])
  }

  lemma NewClonePage(db: Db, bare: Db, request: Request, clone: Id, order: seq<Id>, ok: bool, rows: map<Id, Task>)
    requires Listed(db, request.job, RetryStatuses(request.full), order, ok) && Numbered(db, request.job) && bare.tasks == db.tasks
    requires TasksOf(db, clone) == {} && rows == Clones(db.tasks, order, clone + 1, clone, request.now)
    ensures ClonesPage(bare, clone, request.job, rows, Ids(clone + 1, |order|), order, -1)
  {
    ListIsAPage(db, clone, request.job, RetryStatuses(request.full), order, ok, rows, Ids(clone + 1, |order|), request.now);
    SameTasksSamePage(db, bare, clone, request.job, rows, Ids(clone + 1, |order|), order);
  }

  lemma NewCloneAddable(db: Db, request: Request, clone: Id, order: seq<Id>, ok: bool, rows: map<Id, Task>)
    requires request.job in db.jobs && Listed(db, request.job, RetryStatuses(request.full), order, ok) && Referential(db)
    requires Numbered(db, request.job) && clone !in db.jobs && forall t :: t in db.tasks ==> t < clone
    requires rows == Clones(db.tasks, order, clone + 1, clone, request.now)
    ensures BareDb(db, request, clone).tasks == db.tasks
    ensures Addable(BareDb(db, request, clone), clone, request.job, rows, Ids(clone + 1, |order|), order)
  {
    var bare := BareDb(db, request, clone);
    assert bare.tasks == db.tasks;
    assert TasksOf(db, clone) == {};
    NewClonePage(db, bare, request, clone, order, ok, rows);
    assert FreshRows(bare, clone, request.now, rows) && Lists(Ids(clone + 1, |order|), rows.Keys) by {
      CloneRows(db, clone, request.now, order, rows, Ids(clone + 1, |order|));
    }
  }

  /** The clone has its rows, and everything is still to publish. */
  lemma FillingIsARun(cfg: Config, w: World, request: Request, clone: Id, streamed: Db, now: map<nat, Partition>, order: seq<Id>, ok: bool)
    requires Calm(w) && MadeAnew(w.db, request, Offsets(w.logs), clone, streamed, now, order, ok) && w.db.jobs[request.job].name in cfg
    requires Numbered(w.db, request.job) && clone !in w.db.jobs && forall t :: t in w.db.tasks ==> t < clone
    ensures MayReach(cfg, w, WithStarter(w.(db := streamed), clone, Ids(clone + 1, |order|), false))
  {
    var rows := Clones(w.db.tasks, order, clone + 1, clone, request.now);
    var bare := w.(db := BareDb(w.db, request, clone));
    NewCloneAddable(w.db, request, clone, order, ok, rows);
    BareCloneIsARun(cfg, w, clone, CloneJob(w.db.jobs[request.job], request.job, request.ref, request.now));
    AddingIsARun(cfg, bare, clone, request.job, rows, Ids(clone + 1, |order|), order);
    ReachOn(cfg, w, WithStarter(bare, clone, [], false), WithStarter(w.(db := streamed), clone, Ids(clone + 1, |order|), false));
  }

  lemma InsertedTasks(db: Db, next: Db, clone: Id, rows: map<Id, Task>, ids: seq<Id>)
    requires Referential(db) && clone !in db.jobs && next.tasks == db.tasks + rows && (forall t :: t in rows ==> t !in db.tasks && rows[t].jobId == clone)
    requires next.jobs.Keys == db.jobs.Keys + {clone} && Lists(ids, rows.Keys)
    ensures Lists(ids, TasksOf(next, clone)) && Referential(next) && forall t :: t in ids ==> t in next.tasks
  {
    assert TasksOf(next, clone) == rows.Keys;
    ListMembers(ids, rows.Keys);
  }

  lemma ClonedAre(db: Db, request: Request, clone: Id, order: seq<Id>)
    requires request.job in db.jobs && forall t :: t in order ==> t in db.tasks
    ensures var streamed := Cloned(db, request.job, request.ref, request.now, clone, order);
      && streamed.tasks == db.tasks + Clones(db.tasks, order, clone + 1, clone, request.now)
      && streamed.jobs.Keys == db.jobs.Keys + {clone} && streamed.jobs[clone].status == Pending
  {
    assert db.tasks + map[] == db.tasks;
  }

  lemma StreamedTasks(db: Db, request: Request, clone: Id, streamed: Db, order: seq<Id>)
    requires request.job in db.jobs && (forall t :: t in order ==> t in db.tasks) && Referential(db)
    requires streamed == Cloned(db, request.job, request.ref, request.now, clone, order)
    requires clone !in db.jobs && forall t :: t in db.tasks ==> t < clone
    ensures TriggerRefinement.Ready(streamed, clone, Ids(clone + 1, |order|)) && Referential(streamed)
    ensures forall t :: t in Ids(clone + 1, |order|) ==> t in streamed.tasks
  {
    var rows := Clones(db.tasks, order, clone + 1, clone, request.now);
    ClonedAre(db, request, clone, order);
    CloneRows(db, clone, request.now, order, rows, Ids(clone + 1, |order|));
    InsertedTasks(db, streamed, clone, rows, Ids(clone + 1, |order|));
  }

  /** A new clone: the row, its tasks, their messages, and, if all got through, the start. */
  lemma MadeAnewIsARun(cfg: Config, w: World, request: Request, clone: Id, streamed: Db, now: map<nat, Partition>, order: seq<Id>, ok: bool)
    requires Calm(w) && MadeAnew(w.db, request, Offsets(w.logs), clone, streamed, now, order, ok) && w.db.jobs[request.job].name in cfg
    requires LeadsTo(w.logs, request.route) && Numbered(w.db, request.job) && clone !in w.db.jobs && forall t :: t in w.db.tasks ==> t < clone
    ensures MayReach(cfg, w, GoneOn(w.(db := streamed), clone, Ids(clone + 1, |order|), request.route, ok))
  {
    var filled, ids := w.(db := streamed), Ids(clone + 1, |order|);
    FillingIsARun(cfg, w, request, clone, streamed, now, order, ok);
    StreamedTasks(w.db, request, clone, streamed, order);
    var begun := WithStarter(filled, clone, ids, false);
    if ok {
      CloneStarts(cfg, filled, clone, ids, request.route);
      ReachOn(cfg, w, begun, GoneOn(filled, clone, ids, request.route, true));
    } else {
      AbandonedClone(cfg, filled, clone, ids, request.route);
      ReachOn(cfg, w, begun, GoneOn(filled, clone, ids, request.route, false));
    }
  }

  /** The messages that got through are out, and the retry gives up: the clone stays PENDING. */
  lemma AbandonedClone(cfg: Config, w: World, clone: Id, ids: seq<Id>, route: Route)
    requires Calm(w) && LeadsTo(w.logs, route) && forall t :: t in ids ==> t in w.db.tasks
    ensures MayReach(cfg, WithStarter(w, clone, ids, false), GoneOn(w, clone, ids, route, false))
  {
    var begun := WithStarter(w, clone, ids, false);
    ResendingIsARun(cfg, begun, ids, route);
    var sent := begun.(logs := SendAll(w.logs, ids, route));
    OneEvent(cfg, sent, CrashStarter(0));
    assert sent.starters - {0} == map[];
    ByRun(cfg, sent, [CrashStarter(0)], GoneOn(w, clone, ids, route, false));
    ReachOn(cfg, begun, sent, GoneOn(w, clone, ids, route, false));
  }

  // ---------------------------------------------------------------- a whole retry

  lemma StreamIsARun(cfg: Config, w: World, request: Request, id: Id, next: Db, now: map<nat, Partition>,
                     result: RetryResult, order: seq<Id>, finalised: Option<Id>)
    requires Calm(w) && Streams(w.db, request, id, Offsets(w.logs), next, now, result, order, finalised)
    requires request.job in w.db.jobs && w.db.jobs[request.job].name in cfg && LeadsTo(w.logs, request.route)
    requires Numbered(w.db, request.job) && id !in w.db.jobs && forall t :: t in w.db.tasks ==> t < id
    ensures exists after :: MayReach(cfg, w, after) && Reflects(w, after, next, now, finalised)
  {
    if HasLiveClone(w.db, request.job) {
      var clone :| GoesOn(w.db, request, Offsets(w.logs), next, now, result, order, finalised, clone);
      TakenOverIsARun(cfg, w, request, now, clone, order, !result.StreamFailed?);
      GoneOnReflects(w, clone, order, request.route, result.Retried?);
    } else {
      var streamed :| Begins(w.db, request, id, Offsets(w.logs), next, now, result, order, finalised, streamed);
      MadeAnewIsARun(cfg, w, request, id, streamed, now, order, result.Retried?);
      GoneOnReflects(w.(db := streamed), id, Ids(id + 1, |order|), request.route, result.Retried?);
      EmptyIds(id + 1, |order|);
    }
  }

  lemma EmptyIds(first: Id, n: nat)
    ensures Ids(first, n) == [] <==> n == 0
  {
  }

  /** Retries refine the protocol: from every calm state with sound numbering, what a call of retryJob makes of tables, topics
      and finalisations, whatever its result, is what some run of the protocol makes of them. */
  lemma RetryIsARun(cfg: Config, w: World, request: Request, id: Id, next: Db, now: map<nat, Partition>,
                    result: RetryResult, order: seq<Id>, finalised: Option<Id>)
    requires Calm(w) && JobRetried(cfg.Keys, w.db, request, id, Offsets(w.logs), next, now, result, order, finalised)
    requires LeadsTo(w.logs, request.route) && Numbered(w.db, request.job) && id !in w.db.jobs && forall t :: t in w.db.tasks ==> t < id
    ensures exists after :: MayReach(cfg, w, after) && Reflects(w, after, next, now, finalised)
  {
    if request.job in w.db.jobs && !IsLive(w.db.jobs[request.job].status) && w.db.jobs[request.job].name in cfg {
      StreamIsARun(cfg, w, request, id, next, now, result, order, finalised);
    } else {
      NothingHappens(cfg, w);
    }
  }

  // ---------------------------------------------------------------- programs one after another

  /** What a retry asks of the numbering holds whenever it is executed, and is left as it was found: in every reachable state
      all jobs are numbered soundly, and the state after a retry is reachable. */
  lemma RetriesStaySound(cfg: Config, w: World, request: Request, id: Id, next: Db, now: map<nat, Partition>,
                         result: RetryResult, order: seq<Id>, finalised: Option<Id>)
    requires Reachable(cfg, w) && w.starters == map[] && w.finalisers == map[] && LeadsTo(w.logs, request.route)
    requires JobRetried(cfg.Keys, w.db, request, id, Offsets(w.logs), next, now, result, order, finalised)
    requires id !in w.db.jobs && forall t :: t in w.db.tasks ==> t < id
    ensures forall j :: Numbered(w.db, j)
    ensures exists after :: Reachable(cfg, after) && Reflects(w, after, next, now, finalised)
    ensures forall j :: Numbered(next, j)
  {
    ReachableLineage(cfg, w);
    RetryIsARun(cfg, w, request, id, next, now, result, order, finalised);
    var after :| MayReach(cfg, w, after) && Reflects(w, after, next, now, finalised);
    StillReachable(cfg, w, after);
    ReachableLineage(cfg, after);
  }

  /** The same of triggers. */
  lemma TriggersStaySound(cfg: Config, w: World, call: Call, id: Id, next: Db, now: map<nat, Partition>, ran: bool, ok: bool, report: Status, finalised: Option<Id>)
    requires Reachable(cfg, w) && w.starters == map[] && w.finalisers == map[] && LeadsTo(w.logs, call.route)
    requires Triggered(cfg, w.db, call, id, Offsets(w.logs), next, now, ran, ok, report, finalised)
    requires id !in w.db.jobs && forall t :: t in w.db.tasks ==> t < id
    ensures Referential(w.db)
    ensures exists after :: Reachable(cfg, after) && Reflects(w, after, next, now, finalised)
    ensures Referential(next) && forall j :: Numbered(next, j)
  {
    ReachableLineage(cfg, w);
    TriggerIsARun(cfg, w, call, id, next, now, ran, ok, report, finalised);
    var after :| MayReach(cfg, w, after) && Reflects(w, after, next, now, finalised);
    StillReachable(cfg, w, after);
    ReachableLineage(cfg, after);
  }
}
