/** A trigger can be resumed after a crash at any point: another trigger of the same reference finds the PENDING run,
    publishes all its tasks and starts it. */
module Resume {
  import opened Options
  import opened Domain
  import opened Store
  import opened Finalizer
  import opened Runs
  import opened Protocol
  import opened Invariants
  import opened NoLostWork
  import opened PublishFirst
  import opened TaskExecutor
  import opened Retry

  // ---------------------------------------------------------------- sending a list

  /** The partitions after a list has been sent, every message to where its route says, if anywhere. */
  function SendAll(logs: map<nat, Log>, batch: seq<Id>, route: Route): map<nat, Log> {
    if batch == [] then logs
    else Sends(SendAll(logs, batch[..|batch| - 1], route), batch[|batch| - 1], route(batch[|batch| - 1]))
  }

  /** The same as the program's topics show it. */
  lemma {:induction false} SendAllShows(logs: map<nat, Log>, batch: seq<Id>, route: Route)
    ensures Offsets(SendAll(logs, batch, route)) == SentAll(Offsets(logs), batch, route)
    ensures SendAll(logs, batch, route).Keys == logs.Keys
    ensures forall l :: l in logs ==> SendAll(logs, batch, route)[l].phase == logs[l].phase
  {
    if batch != [] {
      SendAllShows(logs, batch[..|batch| - 1], route);
      SendsAsSent(SendAll(logs, batch[..|batch| - 1], route), batch[|batch| - 1], route(batch[|batch| - 1]));
    }
  }

  lemma SendsAsSent(logs: map<nat, Log>, t: Id, into: Option<nat>)
    ensures Offsets(Sends(logs, t, into)) == Sent(Offsets(logs), t, into)
    ensures Sends(logs, t, into).Keys == logs.Keys && forall l :: l in logs ==> Sends(logs, t, into)[l].phase == logs[l].phase
  {
  }

  lemma {:induction false} SentIsOnLog(logs: map<nat, Log>, batch: seq<Id>, route: Route, t: Id)
    requires t in batch && route(t).Some? && route(t).value in logs
    ensures OnLog(SendAll(logs, batch, route), t)
  {
    var last := |batch| - 1;
    var before := SendAll(logs, batch[..last], route);
    SendAllShows(logs, batch[..last], route);
    if batch[last] == t {
      assert t in SendAll(logs, batch, route)[route(t).value].messages;
    } else {
      SentIsOnLog(logs, batch[..last], route, t);
      var l :| l in before && t in before[l].messages;
      assert t in SendAll(logs, batch, route)[l].messages;
    }
  }

  ghost predicate LeadsTo(logs: map<nat, Log>, route: Route) {
    forall t :: route(t).Some? ==> route(t).value in logs
  }

  // ---------------------------------------------------------------- a starter's list

  /** Publishing the first `n` tasks on a starter's list. */
  function Publishes(order: seq<Id>, n: nat, p: nat, route: Route): seq<Event>
    requires n <= |order|
  {
    if n == 0 then [] else Publishes(order, n - 1, p, route) + [Publish(p, route(order[n - 1]).GetOr(0))]
  }

  function PublishedUpTo(w: World, p: nat, n: nat, route: Route): World
    requires p in w.starters && n <= |w.starters[p].todo|
  {
    var s := w.starters[p];
    w.(logs := SendAll(w.logs, s.todo[..n], route), starters := w.starters[p := s.(todo := s.todo[n..])])
  }

  lemma PublishOneMore(w: World, p: nat, n: nat, route: Route)
    requires p in w.starters && n < |w.starters[p].todo| && LeadsTo(w.logs, route) && route(w.starters[p].todo[n]).Some?
    ensures var now, into := PublishedUpTo(w, p, n, route), route(w.starters[p].todo[n]).value;
      CanPublish(now, p, into) && Published(now, p, into) == PublishedUpTo(w, p, n + 1, route)
  {
    var todo, now, into := w.starters[p].todo, PublishedUpTo(w, p, n, route), route(w.starters[p].todo[n]).value;
    SendAllShows(w.logs, todo[..n], route);
    assert todo[..n + 1][..n] == todo[..n] && todo[n..][1..] == todo[n + 1..] && todo[n..][0] == todo[n];
    assert Published(now, p, into).logs == Sends(now.logs, todo[n], Some(into));
  }

  lemma {:induction false} PublishingRuns(cfg: Config, w: World, p: nat, n: nat, route: Route)
    requires p in w.starters && n <= |w.starters[p].todo| && LeadsTo(w.logs, route) && AllRouted(w.starters[p].todo, route)
    ensures Leads(cfg, w, Publishes(w.starters[p].todo, n, p, route), PublishedUpTo(w, p, n, route))
  {
    var todo := w.starters[p].todo;
    if n == 0 {
      assert todo[..0] == [] && todo[0..] == todo;
      assert w.starters == w.starters[p := w.starters[p].(todo := todo)];
      assert PublishedUpTo(w, p, 0, route) == w;
    } else {
      PublishingRuns(cfg, w, p, n - 1, route);
      PublishOneMore(w, p, n - 1, route);
      Extend(cfg, w, Publishes(todo, n - 1, p, route), PublishedUpTo(w, p, n - 1, route), Publish(p, route(todo[n - 1]).value));
    }
  }

  /** The steps of a trigger from its list to the start. */
  function Finishing(order: seq<Id>, p: nat, route: Route, clear: bool): seq<Event> {
    Publishes(order, |order|, p, route) + (if clear then [ClearPrevious(p)] else []) + [Start(p)]
  }

  function StartedDb(db: Db, j: Id, clear: bool): Db {
    SetJobStatus(if clear && j in db.jobs then CancelPrevious(db, db.jobs[j].name, j) else db, j, Running)
  }

  /** The starter is done: its list is sent, its run started. */
  function Finished(w: World, p: nat, route: Route): World
    requires p in w.starters
  {
    var s := w.starters[p];
    w.(db := StartedDb(w.db, s.job, s.mustClear), starters := w.starters - {p}, logs := SendAll(w.logs, s.todo, route))
  }

  /** No other trigger works on a run this one would cancel. */
  predicate MayClear(w: World, j: Id, clear: bool) {
    clear && j in w.db.jobs ==> forall q :: q in w.starters ==> !SupersededBy(w.db, w.db.jobs[j].name, j, w.starters[q].job)
  }

  lemma FinishingRuns(cfg: Config, w: World, p: nat, route: Route)
    requires p in w.starters && LeadsTo(w.logs, route) && AllRouted(w.starters[p].todo, route)
    requires w.starters[p].job in w.db.jobs && MayClear(w, w.starters[p].job, w.starters[p].mustClear)
    ensures Leads(cfg, w, Finishing(w.starters[p].todo, p, route, w.starters[p].mustClear), Finished(w, p, route))
  {
    var s := w.starters[p];
    PublishingRuns(cfg, w, p, |s.todo|, route);
    assert s.todo[..|s.todo|] == s.todo && s.todo[|s.todo|..] == [];
    var es, now := Publishes(s.todo, |s.todo|, p, route), PublishedUpTo(w, p, |s.todo|, route);
    if s.mustClear {
      Extend(cfg, w, es, now, ClearPrevious(p));
      es, now := es + [ClearPrevious(p)], Cleared(now, p);
    } else {
      assert es + [] == es;
    }
    Extend(cfg, w, es, now, Start(p));
    assert now.starters - {p} == w.starters - {p};
    assert JobStarted(now, p) == Finished(w, p, route);
  }

  // ---------------------------------------------------------------- resuming

  /** The run has been started, and every task of it is on the topic. */
  ghost predicate BroughtUp(db: Db, j: Id, clear: bool, next: World) {
    next.db == StartedDb(db, j, clear) && JobRunning(next.db, j) && AllOnLog(next.db, next.logs, j)
  }

  lemma ListedIsBroughtUp(w: World, j: Id, clear: bool, order: seq<Id>, route: Route, next: World)
    requires j in w.db.jobs && w.db.jobs[j].status == Pending && next.db == StartedDb(w.db, j, clear)
    requires Lists(order, TasksOf(w.db, j)) && next.logs == SendAll(w.logs, order, route) && LeadsTo(w.logs, route) && AllRouted(order, route)
    ensures BroughtUp(w.db, j, clear, next)
  {
    assert TasksOf(next.db, j) == TasksOf(w.db, j);
    forall t | t in next.db.tasks && next.db.tasks[t].jobId == j
      ensures OnLog(next.logs, t)
    {
      assert t in TasksOf(next.db, j) && t in ToSet(order);
      SentIsOnLog(w.logs, order, route, t);
    }
  }

  /** From every state in which a run is PENDING and nobody works on it, a later trigger can take it over; once
      it has run, every task of the run has been published and the run is RUNNING. */
  lemma PendingRunResumes(cfg: Config, w: World, j: Id, p: nat, order: seq<Id>, route: Route, clear: bool)
    requires j in w.db.jobs && w.db.jobs[j].status == Pending && NotStarting(w, j) && MayClear(w, j, clear)
    requires p !in w.starters && Lists(order, TasksOf(w.db, j)) && LeadsTo(w.logs, route) && AllRouted(order, route)
    ensures exists es, next :: Leads(cfg, w, es, next) && BroughtUp(w.db, j, clear, next)
  {
    var e, mid := Event.Resume(p, j, order, clear), Resumed(w, p, j, order, clear);
    OneEvent(cfg, w, e);
    assert MayClear(mid, j, clear);
    FinishingRuns(cfg, mid, p, route);
    Follow(cfg, w, [e], mid, Finishing(order, p, route, clear), Finished(mid, p, route));
    ListedIsBroughtUp(w, j, clear, order, route, Finished(mid, p, route));
  }

  /** So a trigger that crashes anywhere between creating its run and starting it can be resumed, in whatever reachable
      state it crashes. */
  lemma CrashedTriggerResumes(cfg: Config, w: World, p: nat, order: seq<Id>, route: Route, clear: bool)
    requires Reachable(cfg, w) && p in w.starters && MayClear(w, w.starters[p].job, clear)
    requires Lists(order, TasksOf(w.db, w.starters[p].job)) && LeadsTo(w.logs, route) && AllRouted(order, route)
    ensures exists es, next :: Leads(cfg, w, [CrashStarter(p)] + es, next) && BroughtUp(w.db, w.starters[p].job, clear, next)
  {
    var j, crashed := w.starters[p].job, w.(starters := w.starters - {p});
    ReachableStarter(cfg, w, p);
    OneEvent(cfg, w, CrashStarter(p));
    assert Leads(cfg, w, [CrashStarter(p)], crashed);
    PendingRunResumes(cfg, crashed, j, p, order, route, clear);
    var es, next :| Leads(cfg, crashed, es, next) && BroughtUp(crashed.db, j, clear, next);
    Follow(cfg, w, [CrashStarter(p)], crashed, es, next);
  }

  lemma ReachableStarter(cfg: Config, w: World, p: nat)
    requires Reachable(cfg, w) && p in w.starters
    ensures StarterOk(w.db, w.starters[p]) && NotStarting(w.(starters := w.starters - {p}), w.starters[p].job)
  {
    ReachableInv(cfg, w);
  }
}
