/** Programs beside the protocol: what it means that a state of the protocol shows what a program leaves, and the proof that
    finalising jobs and checking for completions are runs of the protocol. */
module Refinement {
  import opened Options
  import opened Domain
  import opened Store
  import opened Finalizer
  import opened Runs
  import opened Protocol
  import opened TaskExecutor
  import opened Retry
  import opened Resume

  /** The records of a run finalised, with its hook called, if one was. */
  function WithWin(h: History, finalised: Option<Id>): History {
    if finalised.Some? then h.(wins := Bump(h.wins, finalised.value), hooks := Bump(h.hooks, finalised.value)) else h
  }

  /** The later state shows these tables and topics and this finalised run; dead letters, executions, crashes, the stages of
      the consumers and all else are as they were. */
  ghost predicate Reflects(w: World, after: World, next: Db, now: map<nat, Partition>, finalised: Option<Id>) {
    && after == w.(db := next, logs := after.logs, history := WithWin(w.history, finalised))
    && Offsets(after.logs) == now && after.logs.Keys == w.logs.Keys && forall l :: l in w.logs ==> after.logs[l].phase == w.logs[l].phase
  }

  lemma NothingHappens(cfg: Config, w: World)
    ensures MayReach(cfg, w, w) && Reflects(w, w, w.db, Offsets(w.logs), None)
  {
    assert Leads(cfg, w, [], w);
  }

  // ---------------------------------------------------------------- sending a list again

  /** Publishing the routed ones among the first `n` of a list, without being their starter. */
  function Republishes(order: seq<Id>, n: nat, route: Route): seq<Event>
    requires n <= |order|
  {
    if n == 0 then []
    else Republishes(order, n - 1, route) + match route(order[n - 1])
         case Some(into) => [Republish(order[n - 1], into)]
         case None => []
  }

  lemma {:induction false} RepublishingRuns(cfg: Config, w: World, order: seq<Id>, n: nat, route: Route)
    requires n <= |order| && LeadsTo(w.logs, route) && forall t :: t in order ==> t in w.db.tasks
    ensures Leads(cfg, w, Republishes(order, n, route), w.(logs := SendAll(w.logs, order[..n], route)))
  {
    if n == 0 {
      assert order[..0] == [];
    } else {
      RepublishingRuns(cfg, w, order, n - 1, route);
      var before, t := w.(logs := SendAll(w.logs, order[..n - 1], route)), order[n - 1];
      SendAllShows(w.logs, order[..n - 1], route);
      assert order[..n][..n - 1] == order[..n - 1];
      if route(t).Some? {
        Extend(cfg, w, Republishes(order, n - 1, route), before, Republish(t, route(t).value));
      } else {
        assert Republishes(order, n, route) == Republishes(order, n - 1, route);
      }
    }
  }

  lemma ResendingIsARun(cfg: Config, w: World, order: seq<Id>, route: Route)
    requires LeadsTo(w.logs, route) && forall t :: t in order ==> t in w.db.tasks
    ensures MayReach(cfg, w, w.(logs := SendAll(w.logs, order, route)))
  {
    RepublishingRuns(cfg, w, order, |order|, route);
    assert order[..|order|] == order;
    ByRun(cfg, w, Republishes(order, |order|, route), w.(logs := SendAll(w.logs, order, route)));
  }

  // ---------------------------------------------------------------- a finaliser undisturbed

  /** What a finaliser leaves of the state: the job's new status, and the records of its win and of its hook. */
  function FinalisedBy(w: World, j: Id, status: Status): World {
    w.(db := SetJobStatus(w.db, j, status), history := WithWin(w.history, Some(j)))
  }

  function Resolving(w: World, j: Id, status: Status): World {
    w.(finalisers := map[0 := Resolved(j, status)])
  }

  lemma FinaliserReads(cfg: Config, w: World, j: Id)
    requires JobRunning(w.db, j) && w.finalisers == map[]
    ensures Leads(cfg, w, [ReadJob(0, j)], w.(finalisers := map[0 := Seen(j)]))
  {
    OneEvent(cfg, w, ReadJob(0, j));
  }

  lemma SummaryResolves(cfg: Config, w: World, j: Id, status: Status)
    requires Resolution(w.db, j) == Some(status)
    ensures Leads(cfg, w.(finalisers := map[0 := Seen(j)]), [ReadSummary(0)], Resolving(w, j, status))
  {
    var seen := w.(finalisers := map[0 := Seen(j)]);
    SummaryAgrees(w.db, j);
    assert SummaryRead(seen, 0) == Resolving(w, j, status);
    OneEvent(cfg, seen, ReadSummary(0));
  }

  lemma FinaliserResolves(cfg: Config, w: World, j: Id, status: Status)
    requires JobRunning(w.db, j) && Resolution(w.db, j) == Some(status) && w.finalisers == map[]
    ensures Leads(cfg, w, [ReadJob(0, j)] + [ReadSummary(0)], Resolving(w, j, status))
  {
    FinaliserReads(cfg, w, j);
    SummaryResolves(cfg, w, j, status);
    Follow(cfg, w, [ReadJob(0, j)], w.(finalisers := map[0 := Seen(j)]), [ReadSummary(0)], Resolving(w, j, status));
  }

  function Winning(w: World, j: Id, status: Status): World {
    w.(db := SetJobStatus(w.db, j, status), finalisers := map[0 := Won(j, status)], history := w.history.(wins := Bump(w.history.wins, j)))
  }

  lemma FinaliserWins(cfg: Config, w: World, j: Id, status: Status)
    requires JobRunning(w.db, j)
    ensures Leads(cfg, Resolving(w, j, status), [Cas(0)], Winning(w, j, status))
  {
    OneEvent(cfg, Resolving(w, j, status), Cas(0));
    assert CasTried(Resolving(w, j, status), 0) == Winning(w, j, status);
  }

  lemma HookFires(cfg: Config, w: World, j: Id, status: Status)
    requires w.finalisers == map[]
    ensures Leads(cfg, Winning(w, j, status), [FireHook(0)], FinalisedBy(w, j, status))
  {
    OneEvent(cfg, Winning(w, j, status), FireHook(0));
    assert HookFired(Winning(w, j, status), 0) == FinalisedBy(w, j, status);
  }

  /** A finaliser on a ready job, undisturbed: it reads, resolves, wins and fires its hook. */
  lemma FinaliserRuns(cfg: Config, w: World, j: Id, status: Status)
    requires JobRunning(w.db, j) && Resolution(w.db, j) == Some(status) && w.finalisers == map[]
    ensures MayReach(cfg, w, FinalisedBy(w, j, status))
  {
    FinaliserResolves(cfg, w, j, status);
    FinaliserWins(cfg, w, j, status);
    Follow(cfg, w, [ReadJob(0, j)] + [ReadSummary(0)], Resolving(w, j, status), [Cas(0)], Winning(w, j, status));
    HookFires(cfg, w, j, status);
    Follow(cfg, w, [ReadJob(0, j)] + [ReadSummary(0)] + [Cas(0)], Winning(w, j, status), [FireHook(0)], FinalisedBy(w, j, status));
    ByRun(cfg, w, [ReadJob(0, j)] + [ReadSummary(0)] + [Cas(0)] + [FireHook(0)], FinalisedBy(w, j, status));
  }

  // ---------------------------------------------------------------- a completion check

  function BumpAll(m: map<Id, nat>, page: seq<Id>): map<Id, nat>
    decreases |page|
  {
    if page == [] then m else BumpAll(Bump(m, page[0]), page[1..])
  }

  lemma {:induction false} BumpedOnce(m: map<Id, nat>, page: seq<Id>, j: Id)
    requires Distinct(page)
    ensures Count(BumpAll(m, page), j) == Count(m, j) + if j in page then 1 else 0
    decreases |page|
  {
    if page != [] {
      BumpedOnce(Bump(m, page[0]), page[1..], j);
      assert page == [page[0]] + page[1..];
      assert j in page[1..] ==> exists i :: 0 < i < |page| && page[i] == j;
    }
  }

  /** A page of jobs finalised, each with its win and its hook. */
  function PageFinalised(w: World, page: seq<Id>): World {
    w.(db := Finalised(w.db, ToSet(page)),
       history := w.history.(wins := BumpAll(w.history.wins, page), hooks := BumpAll(w.history.hooks, page)))
  }

  lemma {:induction false} PageIsARun(cfg: Config, w: World, page: seq<Id>)
    requires Distinct(page) && AllReady(w.db, page) && w.finalisers == map[]
    ensures MayReach(cfg, w, PageFinalised(w, page))
    decreases |page|
  {
    if page == [] {
      assert Finalised(w.db, ToSet(page)).jobs == w.db.jobs;
      NothingHappens(cfg, w);
    } else {
      var j, status := page[0], Resolution(w.db, page[0]).value;
      FinaliserRuns(cfg, w, j, status);
      var mid := FinalisedBy(w, j, status);
      OneOfThePage(w.db, page, mid.db);
      PageIsARun(cfg, mid, page[1..]);
      assert PageFinalised(mid, page[1..]) == PageFinalised(w, page);
      ReachOn(cfg, w, mid, PageFinalised(w, page));
    }
  }

  lemma OneOfThePage(db: Db, page: seq<Id>, mid: Db)
    requires Distinct(page) && page != [] && AllReady(db, page) && mid == SetJobStatus(db, page[0], Resolution(db, page[0]).value)
    ensures AllReady(mid, page[1..]) && Finalised(mid, ToSet(page[1..])) == Finalised(db, ToSet(page))
  {
    SameTasksSameResolution(db, mid);
    assert page == [page[0]] + page[1..];
    forall j | j in page[1..]
      ensures j in page && j != page[0]
    {
      var i :| 0 <= i < |page[1..]| && page[1..][i] == j;
      assert page[i + 1] == j;
    }
    assert ToSet(page) == {page[0]} + ToSet(page[1..]);
    assert Finalised(mid, ToSet(page[1..])).jobs == Finalised(db, ToSet(page)).jobs;
  }

  /** A completion check is a run of the protocol, with one win and one hook for each job of its page and for no other. */
  lemma CheckIsARun(cfg: Config, w: World, name: string, page: seq<Id>)
    requires IsCompletablePage(w.db, name, COMPLETION_CHECK_BATCH_SIZE, page) && w.finalisers == map[]
    ensures exists after ::
              && MayReach(cfg, w, after) && after.db == Finalised(w.db, ToSet(page)) && after == w.(db := after.db, history := after.history)
              && (forall j :: Count(after.history.wins, j) == Count(w.history.wins, j) + if j in page then 1 else 0)
              && (forall j :: Count(after.history.hooks, j) == Count(w.history.hooks, j) + if j in page then 1 else 0)
  {
    PageIsReady(w.db, name, page);
    PageIsARun(cfg, w, page);
    forall j
      ensures Count(PageFinalised(w, page).history.wins, j) == Count(w.history.wins, j) + if j in page then 1 else 0
      ensures Count(PageFinalised(w, page).history.hooks, j) == Count(w.history.hooks, j) + if j in page then 1 else 0
    {
      BumpedOnce(w.history.wins, page, j);
      BumpedOnce(w.history.hooks, page, j);
    }
  }
}
