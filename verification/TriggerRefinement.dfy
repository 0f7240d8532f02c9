/** What one call of executeJob does to tables, topics and finalisations, a run of the protocol does too; so what holds of
    every run of the protocol holds of triggers as they are executed. */
module TriggerRefinement {
  import opened Options
  import opened Domain
  import opened Store
  import opened Finalizer
  import opened Runs
  import opened Protocol
  import opened Invariants
  import opened PublishFirst
  import opened TaskExecutor
  import opened Retry
  import opened Trigger
  import opened References
  import opened Refinement
  import opened Resume

  /** No trigger and no finaliser at work, and references from tasks to jobs intact. */
  ghost predicate Calm(w: World) {
    w.starters == map[] && w.finalisers == map[] && Referential(w.db)
  }

  /** The state once a trigger has gone on with its run. */
  function Flowed(w: World, j: Id, clear: bool, order: seq<Id>, route: Route): World
    requires j in w.db.jobs
  {
    var published := Publishable(w.db, j, route);
    w.(db := FlowDb(w.db, j, clear, published),
       logs := if w.db.jobs[j].status == Pending then SendAll(w.logs, order[..SentLength(order, route, 0)], route) else w.logs,
       history := WithWin(w.history, FlowFinalises(w.db, j, published)))
  }

  lemma FlowedReflects(w: World, j: Id, clear: bool, order: seq<Id>, route: Route)
    requires j in w.db.jobs
    ensures Reflects(w, Flowed(w, j, clear, order, route), FlowDb(w.db, j, clear, Publishable(w.db, j, route)),
                     FlowTopics(w.db, j, order, route, Offsets(w.logs)), FlowFinalises(w.db, j, Publishable(w.db, j, route)))
  {
    SendAllShows(w.logs, order[..SentLength(order, route, 0)], route);
  }

  function WithStarter(w: World, j: Id, order: seq<Id>, clear: bool): World {
    w.(starters := map[0 := Starter(j, order, clear)])
  }

  predicate Ready(db: Db, j: Id, order: seq<Id>) {
    j in db.jobs && db.jobs[j].status == Pending && Lists(order, TasksOf(db, j))
  }

  lemma ListMembers(order: seq<Id>, ids: set<Id>)
    requires Lists(order, ids)
    ensures (forall t :: t in order <==> t in ids) && (order == [] <==> ids == {})
  {
    assert forall t :: t in order <==> t in ToSet(order);
  }

  lemma MembersList(order: seq<Id>, ids: set<Id>)
    requires |order| == |ids| && forall t :: t in order <==> t in ids
    ensures Lists(order, ids)
  {
    assert ToSet(order) == ids;
  }

  /** A starter whose tasks all get through. */
  lemma PublishedFlow(cfg: Config, w: World, j: Id, order: seq<Id>, clear: bool, route: Route)
    requires Calm(w) && Ready(w.db, j, order) && LeadsTo(w.logs, route) && Publishable(w.db, j, route)
    ensures MayReach(cfg, WithStarter(w, j, order, clear), Flowed(w, j, clear, order, route))
  {
    var begun := WithStarter(w, j, order, clear);
    ListMembers(order, TasksOf(w.db, j));
    AllSent(order, route, 0);
    assert order[..|order|] == order;
    FinishingRuns(cfg, begun, 0, route);
    var done := Finished(begun, 0, route);
    assert begun.starters - {0} == map[];
    ByRun(cfg, begun, Finishing(order, 0, route, clear), done);
    if order == [] {
      EmptyRunFinalises(cfg, done, j);
      ReachOn(cfg, begun, done, FinalisedBy(done, j, Completed));
    }
  }

  /** The finaliser at work on a run without tasks. */
  lemma EmptyRunFinalises(cfg: Config, w: World, j: Id)
    requires JobRunning(w.db, j) && TasksOf(w.db, j) == {} && w.finalisers == map[]
    ensures MayReach(cfg, w, FinalisedBy(w, j, Completed))
  {
    NoTasksNothingOpen(w.db, j);
    FinaliserRuns(cfg, w, j, Completed);
  }

  /** A starter one of whose tasks does not get through: the batches up to it are sent, and the run fails. */
  lemma FailedFlow(cfg: Config, w: World, j: Id, order: seq<Id>, clear: bool, route: Route)
    requires Calm(w) && Ready(w.db, j, order) && LeadsTo(w.logs, route) && !Publishable(w.db, j, route)
    ensures MayReach(cfg, WithStarter(w, j, order, clear), Flowed(w, j, clear, order, route))
  {
    var begun, part := WithStarter(w, j, order, clear), order[..SentLength(order, route, 0)];
    ListMembers(order, TasksOf(w.db, j));
    assert forall t :: t in part ==> t in order;
    ResendingIsARun(cfg, begun, part, route);
    var sent := begun.(logs := SendAll(w.logs, part, route));
    OneEvent(cfg, sent, PublishFailed(0));
    assert begun.starters - {0} == map[];
    assert Abandoned(sent, 0) == Flowed(w, j, clear, order, route);
    ByRun(cfg, sent, [PublishFailed(0)], Abandoned(sent, 0));
    ReachOn(cfg, begun, sent, Abandoned(sent, 0));
  }

  lemma StartedFlow(cfg: Config, w: World, j: Id, order: seq<Id>, clear: bool, route: Route)
    requires Calm(w) && Ready(w.db, j, order) && LeadsTo(w.logs, route)
    ensures MayReach(cfg, WithStarter(w, j, order, clear), Flowed(w, j, clear, order, route))
  {
    if Publishable(w.db, j, route) {
      PublishedFlow(cfg, w, j, order, clear, route);
    } else {
      FailedFlow(cfg, w, j, order, clear, route);
    }
  }

  /** A found run: over, RUNNING, or PENDING and taken over. */
  lemma FoundRunIsARun(cfg: Config, w: World, j: Id, order: seq<Id>, clear: bool, route: Route)
    requires Calm(w) && j in w.db.jobs && Lists(order, TasksOf(w.db, j)) && LeadsTo(w.logs, route)
    ensures MayReach(cfg, w, Flowed(w, j, clear, order, route))
  {
    if !IsLive(w.db.jobs[j].status) {
      OneEvent(cfg, w, Resettle(j));
      ByRun(cfg, w, [Resettle(j)], Resettled(w, j));
    } else if w.db.jobs[j].status == Running {
      NothingHappens(cfg, w);
    } else {
      OneEvent(cfg, w, Event.Resume(0, j, order, clear));
      ByRun(cfg, w, [Event.Resume(0, j, order, clear)], WithStarter(w, j, order, clear));
      StartedFlow(cfg, w, j, order, clear, route);
      ReachOn(cfg, w, WithStarter(w, j, order, clear), Flowed(w, j, clear, order, route));
    }
  }

  lemma BuiltAreNumbered(j: Id, job: Job, data: seq<TaskData>, first: Id)
    ensures NumberedByPlace(Built(j, job, data, first), Ids(first, |data|))
  {
    BuiltRows(j, job, data, first);
    IdsInOrder(first, |data|);
    forall i | 0 <= i < |data|
      ensures Ids(first, |data|)[i] in Built(j, job, data, first) && Built(j, job, data, first)[Ids(first, |data|)[i]].sequence == i
    {
      assert Ids(first, |data|)[i] == first + i;
    }
  }

  lemma EnabledRunIsARun(cfg: Config, w: World, id: Id, job: Job, rows: map<Id, Task>, order: seq<Id>, route: Route)
    requires Calm(w) && CanOpen(cfg, w, 0, id, job, rows, order) && job.parent.None? && NumberedByPlace(rows, order) && LeadsTo(w.logs, route)
    ensures MayReach(cfg, w, Flowed(w.(db := InsertJob(w.db, id, job, rows)), id, cfg[job.name].cancelPrevious, order, route))
  {
    var made, clear := w.(db := InsertJob(w.db, id, job, rows)), cfg[job.name].cancelPrevious;
    OneEvent(cfg, w, Open(0, id, job, rows, order));
    assert Opened(cfg, w, 0, id, job, rows, order) == WithStarter(made, id, order, clear);
    ByRun(cfg, w, [Open(0, id, job, rows, order)], WithStarter(made, id, order, clear));
    assert TasksOf(made.db, id) == rows.Keys;
    StartedFlow(cfg, made, id, order, clear, route);
    ReachOn(cfg, w, WithStarter(made, id, order, clear), Flowed(made, id, clear, order, route));
  }

  lemma RejectedRunIsARun(cfg: Config, w: World, id: Id, job: Job, rows: map<Id, Task>, order: seq<Id>, route: Route)
    requires CanOpenSettled(cfg, w, id, job, rows) && job.parent.None? && NumberedByPlace(rows, order)
    ensures MayReach(cfg, w, Flowed(w.(db := InsertJob(w.db, id, job, rows)), id, cfg[job.name].cancelPrevious, order, route))
  {
    var e, mid := OpenSettled(id, job, rows, order), OpenedSettled(cfg, w, id, job, rows);
    OneEvent(cfg, w, e);
    Extend(cfg, w, [e], mid, Resettle(id));
    ByRun(cfg, w, [e] + [Resettle(id)], Resettled(mid, id));
  }

  /** The tables with the new run. */
  function Made(cfg: Config, w: World, call: Call, id: Id): World
    requires call.name in cfg
  {
    w.(db := PreparedDb(cfg[call.name], w.db, call, id))
  }

  lemma NewRunIsARun(cfg: Config, w: World, call: Call, id: Id)
    requires Calm(w) && call.name in cfg && Buildable(call.plan) && id !in w.db.jobs && (forall t :: t in w.db.tasks ==> t < id) && LeadsTo(w.logs, call.route)
    ensures id in Made(cfg, w, call, id).db.jobs
    ensures MayReach(cfg, w, Flowed(Made(cfg, w, call, id), id, cfg[call.name].cancelPrevious, Ids(id + 1, |call.plan.data|), call.route))
  {
    var job := NewJob(cfg[call.name], call);
    var rows, order := Built(id, job, call.plan.data, id + 1), Ids(id + 1, |call.plan.data|);
    BuiltRows(id, job, call.plan.data, id + 1);
    BuiltAreNumbered(id, job, call.plan.data, id + 1);
    ListLength(order, rows.Keys, id + 1);
    MembersList(order, rows.Keys);
    if call.enabled {
      EnabledRunIsARun(cfg, w, id, job, rows, order, call.route);
    } else {
      RejectedRunIsARun(cfg, w, id, job, rows, order, call.route);
    }
  }

  lemma RecordedFailureIsARun(cfg: Config, w: World, id: Id, job: Job)
    requires id !in w.db.jobs && job.status == Failed && job.name in cfg && job.parent.None?
    ensures MayReach(cfg, w, w.(db := InsertJob(w.db, id, job, map[])))
  {
    OneEvent(cfg, w, OpenSettled(id, job, map[], []));
    ByRun(cfg, w, [OpenSettled(id, job, map[], [])], OpenedSettled(cfg, w, id, job, map[]));
  }

  /** Triggers refine the protocol: from every calm state, what a call of executeJob makes of tables, topics and
      finalisations is what some run of the protocol makes of them. */
  lemma TriggerIsARun(cfg: Config, w: World, call: Call, id: Id, next: Db, now: map<nat, Partition>, ran: bool, ok: bool, report: Status, finalised: Option<Id>)
    requires Calm(w) && Triggered(cfg, w.db, call, id, Offsets(w.logs), next, now, ran, ok, report, finalised) && LeadsTo(w.logs, call.route)
    requires id !in w.db.jobs && forall t :: t in w.db.tasks ==> t < id
    ensures exists after :: MayReach(cfg, w, after) && Reflects(w, after, next, now, finalised)
  {
    NothingHappens(cfg, w);
    if call.name in cfg && Taken(w.db, call.ref) {
      var j, order :| FlowsOnFound(cfg[call.name], w.db, call, Offsets(w.logs), next, now, ok, report, finalised, j, order);
      MembersList(order, TasksOf(w.db, j));
      FoundRunIsARun(cfg, w, j, order, cfg[call.name].cancelPrevious, call.route);
      FlowedReflects(w, j, cfg[call.name].cancelPrevious, order, call.route);
    } else if call.name in cfg && Buildable(call.plan) {
      var order := Ids(id + 1, |call.plan.data|);
      NewRunIsARun(cfg, w, call, id);
      FlowedReflects(Made(cfg, w, call, id), id, cfg[call.name].cancelPrevious, order, call.route);
      assert Reflects(w, Flowed(Made(cfg, w, call, id), id, cfg[call.name].cancelPrevious, order, call.route), next, now, finalised);
    } else if call.name in cfg && ShouldPersistTriggerFailure(call.metadata) {
      RecordedFailureIsARun(cfg, w, id, FailureRow(cfg[call.name], call));
    }
  }

  /** A trigger that succeeds in a reachable state leaves exactly one run of its reference, past PENDING; and if that run has
      been started, by this trigger, by one that crashed, or by anybody else, every task of it has been published. */
  lemma SuccessfulTriggerPublished(cfg: Config, w: World, call: Call, id: Id, next: Db, now: map<nat, Partition>, ran: bool, report: Status, finalised: Option<Id>)
    requires Reachable(cfg, w) && Calm(w) && RefsUnique(w.db) && LeadsTo(w.logs, call.route)
    requires Triggered(cfg, w.db, call, id, Offsets(w.logs), next, now, ran, true, report, finalised)
    requires id !in w.db.jobs && forall t :: t in w.db.tasks ==> t < id
    ensures RefsUnique(next)
    ensures exists j :: HasRef(next, j, call.ref) && next.jobs[j].status != Pending && (BeenStarted(next, j) ==> OnTopic(next, j, now))
  {
    SuccessfulTrigger(cfg, w.db, call, id, Offsets(w.logs), next, now, ran, true, report, finalised);
    var j :| BroughtPast(w.db, call, j, next, now);
    TriggerIsARun(cfg, w, call, id, next, now, ran, true, report, finalised);
    var after :| MayReach(cfg, w, after) && Reflects(w, after, next, now, finalised);
    StillReachable(cfg, w, after);
    ReachablePublished(cfg, after);
    if BeenStarted(next, j) {
      OnLogIsOnTopic(after, j, now);
    }
  }

  lemma OnLogIsOnTopic(w: World, j: Id, now: map<nat, Partition>)
    requires AllOnLog(w.db, w.logs, j) && Offsets(w.logs) == now
    ensures OnTopic(w.db, j, now)
  {
    forall t | t in TasksOf(w.db, j)
      ensures exists l :: l in now && t in now[l].messages
    {
      var l :| l in w.logs && t in w.logs[l].messages;
      assert now[l].messages == w.logs[l].messages;
    }
  }
}
