/** Retrying a finished job (internal/executor/retry.go): its tasks are read in pages by sequence number, and each page
    is cloned, inserted and published before the next is read. */
module Retry {
  import opened Options
  import opened Domain
  import opened Store
  import opened Finalizer
  import opened Protocol
  import opened TaskExecutor

  /** Where each message of a batch ends up; None for one that is not written, which fails the batch. */
  type Route = Id -> Option<nat>

  function SentAll(partitions: map<nat, Partition>, batch: seq<Id>, route: Route): map<nat, Partition> {
    if batch == [] then partitions
    else Sent(SentAll(partitions, batch[..|batch| - 1], route), batch[|batch| - 1], route(batch[|batch| - 1]))
  }

  predicate AllRouted(batch: seq<Id>, route: Route) {
    forall t :: t in batch ==> route(t).Some?
  }

  ghost predicate RoutesTo(partitions: map<nat, Partition>, route: Route) {
    forall t :: route(t).Some? ==> route(t).value in partitions
  }

  /** The messages of a batch that go to one partition, in order. */
  function RoutedTo(batch: seq<Id>, route: Route, l: nat): seq<Id> {
    if batch == [] then []
    else RoutedTo(batch[..|batch| - 1], route, l) + if route(batch[|batch| - 1]) == Some(l) then [batch[|batch| - 1]] else []
  }

  lemma {:induction false} SentAllAppends(partitions: map<nat, Partition>, batch: seq<Id>, route: Route)
    requires RoutesTo(partitions, route)
    ensures SentAll(partitions, batch, route).Keys == partitions.Keys
    ensures forall l :: l in partitions ==>
      SentAll(partitions, batch, route)[l] == partitions[l].(messages := partitions[l].messages + RoutedTo(batch, route, l))
  {
    if batch != [] {
      SentAllAppends(partitions, batch[..|batch| - 1], route);
    }
  }

  lemma {:induction false} SentAllJoins(partitions: map<nat, Partition>, a: seq<Id>, b: seq<Id>, route: Route)
    ensures SentAll(SentAll(partitions, a, route), b, route) == SentAll(partitions, a + b, route)
  {
    if b == [] {
      assert a + b == a;
    } else {
      SentAllJoins(partitions, a, b[..|b| - 1], route);
      assert (a + b)[..|a + b| - 1] == a + b[..|b| - 1];
    }
  }

  /** Publishes a batch: what is written goes out in order, and one message not written fails the whole call. */
  method PublishTasks(broker: Broker, batch: seq<Id>, route: Route) returns (ok: bool)
    requires RoutesTo(broker.partitions, route)
    modifies broker`partitions
    ensures broker.partitions == SentAll(old(broker.partitions), batch, route)
    ensures ok <==> AllRouted(batch, route)
    ensures RoutesTo(broker.partitions, route)
  {
    ok := true;
    ghost var was := broker.partitions;
    for i := 0 to |batch|
      invariant broker.partitions == SentAll(was, batch[..i], route) && broker.partitions.Keys == was.Keys
      invariant ok <==> AllRouted(batch[..i], route)
    {
      assert batch[..i + 1][..i] == batch[..i];
      broker.Publish(batch[i], route(batch[i]));
      ok := ok && route(batch[i]).Some?;
    }
    assert batch[..|batch|] == batch;
  }

  /** How much full pages hold. */
  function PagesHold(pages: nat, batch: nat): nat {
    if pages == 0 then 0 else PagesHold(pages - 1, batch) + batch
  }

  /** A list sent page by page stops in page `p`: all pages before it got through, and it is full or the last. */
  predicate StopsInPage(sent: seq<Id>, all: nat, batch: nat, route: Route, p: nat) {
    var before := PagesHold(p, batch);
    before < |sent| && |sent| == Min(before + batch, all) && AllRouted(sent[..before], route)
  }

  /** It stops at the first page one of whose messages does not get through. */
  ghost predicate StopsAtFailure(sent: seq<Id>, all: nat, batch: nat, route: Route) {
    !AllRouted(sent, route) && exists p :: StopsInPage(sent, all, batch, route, p)
  }

  // ---------------------------------------------------------------- sequence numbers and clones

  /** The numbering a job's tasks must have for keyset paging to reach them all: distinct and not negative. */
  ghost predicate Numbered(db: Db, j: Id) {
    && (forall t :: t in TasksOf(db, j) ==> 0 <= db.tasks[t].sequence)
    && (forall t, u :: t in TasksOf(db, j) && u in TasksOf(db, j) && t != u ==> db.tasks[t].sequence != db.tasks[u].sequence)
  }

  ghost predicate Ascending(db: Db, order: seq<Id>) {
    && (forall t :: t in order ==> t in db.tasks)
    && (forall i, k :: 0 <= i < k < |order| ==> db.tasks[order[i]].sequence < db.tasks[order[k]].sequence)
  }

  function Matching(db: Db, j: Id, statuses: set<Status>): set<Id> {
    set t | t in db.tasks && Matches(db.tasks[t], j, statuses)
  }

  /** `order` lists, by sequence number, exactly the matching tasks numbered up to `after`. */
  ghost predicate ReadUpTo(db: Db, j: Id, statuses: set<Status>, after: int, order: seq<Id>) {
    Ascending(db, order) && forall t :: t in order <==> t in Matching(db, j, statuses) && db.tasks[t].sequence <= after
  }

  /** `order` lists exactly the matching tasks, by sequence number. */
  ghost predicate InOrder(db: Db, j: Id, statuses: set<Status>, order: seq<Id>) {
    Ascending(db, order) && ToSet(order) == Matching(db, j, statuses) && |order| == |Matching(db, j, statuses)|
  }

  /** `order` lists the matching tasks by sequence number: all of them, or those up to some number. */
  ghost predicate Listed(db: Db, j: Id, statuses: set<Status>, order: seq<Id>, all: bool) {
    Ascending(db, order) && if all then InOrder(db, j, statuses, order) else exists after :: ReadUpTo(db, j, statuses, after, order)
  }

  lemma ListedMatch(db: Db, j: Id, statuses: set<Status>, order: seq<Id>, all: bool)
    requires Listed(db, j, statuses, order, all)
    ensures |order| <= |Matching(db, j, statuses)| && forall t :: t in order ==> t in Matching(db, j, statuses)
  {
    if all {
      assert forall t :: t in order ==> t in ToSet(order);
    } else {
      var after :| ReadUpTo(db, j, statuses, after, order);
      ReadIsBounded(db, j, statuses, after, order);
    }
  }

  lemma AscendingIsDistinct(db: Db, order: seq<Id>)
    requires Ascending(db, order)
    ensures Distinct(order) && |ToSet(order)| == |order|
  {
    DistinctSize(order);
  }

  /** The next page continues the list exactly where it stopped. */
  lemma ReadPage(db: Db, j: Id, statuses: set<Status>, after: int, order: seq<Id>, limit: nat, page: seq<Id>)
    requires Numbered(db, j) && ReadUpTo(db, j, statuses, after, order) && IsTaskPage(db, j, statuses, after, limit, page) && page != []
    ensures page[|page| - 1] in db.tasks && db.tasks[page[|page| - 1]].sequence > after
    ensures ReadUpTo(db, j, statuses, db.tasks[page[|page| - 1]].sequence, order + page)
  {
    var matching, last := MatchingAfter(db, j, statuses, after), page[|page| - 1];
    assert last in matching;
    forall i, k | 0 <= i < k < |page|
      ensures db.tasks[page[i]].sequence < db.tasks[page[k]].sequence
    {
      assert page[i] in TasksOf(db, j) && page[k] in TasksOf(db, j);
    }
    forall i | 0 <= i < |order|
      ensures order[i] in db.tasks && db.tasks[order[i]].sequence <= after
    {
      assert order[i] in order;
    }
    forall t | t in Matching(db, j, statuses) && after < db.tasks[t].sequence <= db.tasks[last].sequence
      ensures t in page
    {
      assert t in matching && t in TasksOf(db, j) && last in TasksOf(db, j);
    }
    forall t | t in page
      ensures t in matching && db.tasks[t].sequence <= db.tasks[last].sequence
    {
      var i :| 0 <= i < |page| && page[i] == t;
      assert i < |page| - 1 ==> db.tasks[page[i]].sequence <= db.tasks[page[|page| - 1]].sequence;
    }
  }

  /** A page that is not full is the last one. */
  lemma LastPage(db: Db, j: Id, statuses: set<Status>, after: int, order: seq<Id>, limit: nat, page: seq<Id>)
    requires Numbered(db, j) && ReadUpTo(db, j, statuses, after, order) && IsTaskPage(db, j, statuses, after, limit, page) && |page| < limit
    ensures InOrder(db, j, statuses, order + page)
  {
    var matching := MatchingAfter(db, j, statuses, after);
    DistinctSize(page);
    assert ToSet(page) == matching by {
      assert ToSet(page) <= matching;
      SubsetOfSameSize(ToSet(page), matching);
    }
    if page != [] {
      ReadPage(db, j, statuses, after, order, limit, page);
    } else {
      assert order + page == order;
    }
    forall t
      ensures t in order + page <==> t in Matching(db, j, statuses)
    {
      assert t in page <==> t in ToSet(page);
    }
    assert ToSet(order + page) == Matching(db, j, statuses);
    AscendingIsDistinct(db, order + page);
  }

  /** What has been read is part of what matches, so reading ends. */
  lemma ReadIsBounded(db: Db, j: Id, statuses: set<Status>, after: int, order: seq<Id>)
    requires ReadUpTo(db, j, statuses, after, order)
    ensures |order| <= |Matching(db, j, statuses)|
  {
    AscendingIsDistinct(db, order);
    assert ToSet(order) <= Matching(db, j, statuses);
    SubsetOfSameSize(ToSet(order), Matching(db, j, statuses));
  }

  /** A fresh first attempt of a task, for another job: what to run is kept, and so is the last result. */
  function CloneOf(task: Task, j: Id, createdAt: int): Task {
    task.(jobId := j, status := Pending, attempt := 1, createdAt := createdAt)
  }

  /** Consecutive fresh ids. */
  function Ids(first: Id, n: nat): seq<Id> {
    if n == 0 then [] else Ids(first, n - 1) + [first + n - 1]
  }

  lemma {:induction false} IdsInOrder(first: Id, n: nat)
    ensures |Ids(first, n)| == n && Distinct(Ids(first, n)) && forall i :: 0 <= i < n ==> Ids(first, n)[i] == first + i
  {
    if n > 0 {
      IdsInOrder(first, n - 1);
    }
  }

  lemma {:induction false} IdsJoin(first: Id, n: nat, place: Id, m: nat, all: nat)
    requires place == first + n && all == n + m
    ensures Ids(first, n) + Ids(place, m) == Ids(first, all)
  {
    if m == 0 {
      assert Ids(first, n) + Ids(place, m) == Ids(first, n);
    } else {
      IdsJoin(first, n, place, m - 1, all - 1);
      assert Ids(first, n) + Ids(place, m) == Ids(first, n) + Ids(place, m - 1) + [place + m - 1];
    }
  }

  /** The clones of a list of tasks, under consecutive fresh ids. */
  function Clones(tasks: map<Id, Task>, order: seq<Id>, first: Id, j: Id, createdAt: int): map<Id, Task>
    requires forall t :: t in order ==> t in tasks
  {
    if order == [] then map[]
    else
      var last := |order| - 1;
      Clones(tasks, order[..last], first, j, createdAt)[first + last := CloneOf(tasks[order[last]], j, createdAt)]
  }

  /** Exactly one clone for each listed task, at its place in the list. */
  lemma {:induction false} OneCloneEach(tasks: map<Id, Task>, order: seq<Id>, first: Id, j: Id, createdAt: int)
    requires forall t :: t in order ==> t in tasks
    ensures forall k :: k in Clones(tasks, order, first, j, createdAt) <==> first <= k < first + |order|
    ensures forall k :: k in Clones(tasks, order, first, j, createdAt) ==> Clones(tasks, order, first, j, createdAt)[k].jobId == j
    ensures forall i {:trigger order[i]} :: 0 <= i < |order| ==>
      Clones(tasks, order, first, j, createdAt)[first + i] == CloneOf(tasks[order[i]], j, createdAt)
    ensures |Ids(first, |order|)| == |order| && forall k :: k in Ids(first, |order|) <==> first <= k < first + |order|
  {
    if order != [] {
      OneCloneEach(tasks, order[..|order| - 1], first, j, createdAt);
    }
  }

  /** Fills a batch with the clones of a page. */
  method CloneBatch(repo: Repository, page: seq<Id>, clone: Id, createdAt: int) returns (rows: map<Id, Task>)
    requires repo.Valid() && forall t :: t in page ==> t in repo.tasks
    modifies repo`nextId
    ensures repo.Valid() && repo.nextId == old(repo.nextId) + |page|
    ensures rows == Clones(repo.tasks, page, old(repo.nextId), clone, createdAt) && forall t :: t in rows ==> t < repo.nextId
  {
    rows := map[];
    ghost var first := repo.nextId;
    for i := 0 to |page|
      invariant repo.Valid() && repo.nextId == first + i
      invariant rows == Clones(repo.tasks, page[..i], first, clone, createdAt) && forall t :: t in rows ==> t < first + i
    {
      var id := repo.NewId();
      rows := rows[id := CloneOf(repo.tasks[page[i]], clone, createdAt)];
      assert page[..i + 1][..i] == page[..i];
    }
    assert page[..|page|] == page;
  }

  function WithClones(db: Db, order: seq<Id>, first: Id, j: Id, createdAt: int): Db
    requires forall t :: t in order ==> t in db.tasks
  {
    db.(tasks := db.tasks + Clones(db.tasks, order, first, j, createdAt))
  }

  // ---------------------------------------------------------------- streaming

  /** Rows inserted for another job change no page of this one. */
  lemma SamePages(db: Db, now: Db, j: Id, statuses: set<Status>, after: int, limit: nat, page: seq<Id>)
    requires forall t :: t in db.tasks ==> t in now.tasks && now.tasks[t] == db.tasks[t]
    requires forall t :: t in now.tasks && t !in db.tasks ==> now.tasks[t].jobId != j
    ensures IsTaskPage(now, j, statuses, after, limit, page) ==> IsTaskPage(db, j, statuses, after, limit, page)
  {
    assert MatchingAfter(now, j, statuses, after) == MatchingAfter(db, j, statuses, after);
  }

  lemma {:induction false} ClonesSplit(tasks: map<Id, Task>, now: map<Id, Task>, order: seq<Id>, page: seq<Id>, first: Id, place: Id, j: Id, createdAt: int)
    requires (forall t :: t in order ==> t in tasks) && (forall t :: t in page ==> t in tasks && t in now && now[t] == tasks[t])
    requires place == first + |order|
    ensures Clones(tasks, order + page, first, j, createdAt) ==
        Clones(tasks, order, first, j, createdAt) + Clones(now, page, place, j, createdAt)
  {
    if page == [] {
      assert order + page == order;
    } else {
      var last := |page| - 1;
      ClonesSplit(tasks, now, order, page[..last], first, place, j, createdAt);
      assert (order + page)[..|order| + last] == order + page[..last];
    }
  }

  lemma OldRowsKept(db: Db, order: seq<Id>, first: Id, j: Id, createdAt: int)
    requires (forall t :: t in order ==> t in db.tasks) && forall t :: t in db.tasks ==> t < first
    ensures var now := WithClones(db, order, first, j, createdAt);
      && (forall t :: t in db.tasks ==> t in now.tasks && now.tasks[t] == db.tasks[t])
      && (forall t :: t in now.tasks && t !in db.tasks ==> now.tasks[t].jobId == j)
  {
    OneCloneEach(db.tasks, order, first, j, createdAt);
  }

  lemma MoreClones(db: Db, order: seq<Id>, now: Db, page: seq<Id>, first: Id, place: Id, j: Id, createdAt: int)
    requires (forall t :: t in order ==> t in db.tasks) && now == WithClones(db, order, first, j, createdAt) && place == first + |order|
    requires forall t :: t in page ==> t in db.tasks && t in now.tasks && now.tasks[t] == db.tasks[t]
    ensures now.(tasks := now.tasks + Clones(now.tasks, page, place, j, createdAt)) == WithClones(db, order + page, first, j, createdAt)
  {
    ClonesSplit(db.tasks, now.tasks, order, page, first, place, j, createdAt);
  }

  /** Where the loop stands: the tasks read so far are cloned and published, in order, under consecutive ids. */
  ghost predicate Streamed(was: Db, first: Id, src: Id, clone: Id, createdAt: int, statuses: set<Status>, after: int, order: seq<Id>, now: Db) {
    ReadUpTo(was, src, statuses, after, order) && now == WithClones(was, order, first, clone, createdAt)
  }

  lemma StreamPage(was: Db, first: Id, src: Id, clone: Id, createdAt: int, statuses: set<Status>, after: int, order: seq<Id>, place: Id, now: Db, limit: nat, page: seq<Id>)
    requires place == first + |order| && Streamed(was, first, src, clone, createdAt, statuses, after, order, now)
    requires (forall t :: t in was.tasks ==> t < first) && src != clone && Numbered(was, src)
    requires IsTaskPage(now, src, statuses, after, limit, page)
    ensures |page| < limit ==> InOrder(was, src, statuses, order + page)
    ensures forall t :: t in page ==> t in now.tasks
    ensures page != [] ==>
      Streamed(was, first, src, clone, createdAt, statuses, now.tasks[page[|page| - 1]].sequence, order + page,
               now.(tasks := now.tasks + Clones(now.tasks, page, place, clone, createdAt)))
  {
    OldRowsKept(was, order, first, clone, createdAt);
    SamePages(was, now, src, statuses, after, limit, page);
    forall t | t in page
      ensures t in was.tasks
    {
      assert t in MatchingAfter(was, src, statuses, after);
    }
    if |page| < limit {
      LastPage(was, src, statuses, after, order, limit, page);
    }
    if page != [] {
      ReadPage(was, src, statuses, after, order, limit, page);
      MoreClones(was, order, now, page, first, place, clone, createdAt);
    }
  }

  /** One page: cloned, inserted, published. */
  method StreamOnePage(repo: Repository, broker: Broker, page: seq<Id>, clone: Id, createdAt: int, route: Route) returns (ok: bool)
    requires repo.Valid() && RoutesTo(broker.partitions, route) && forall t :: t in page ==> t in repo.tasks
    modifies repo`tasks, repo`nextId, broker`partitions
    ensures repo.Valid() && repo.nextId == old(repo.nextId) + |page| && RoutesTo(broker.partitions, route)
    ensures repo.Rows() == old(repo.Rows()).(tasks := old(repo.tasks) + Clones(old(repo.tasks), page, old(repo.nextId), clone, createdAt))
    ensures broker.partitions == SentAll(old(broker.partitions), Ids(old(repo.nextId), |page|), route)
    ensures ok <==> AllRouted(Ids(old(repo.nextId), |page|), route)
  {
    var first := repo.nextId;
    var rows := CloneBatch(repo, page, clone, createdAt);
    repo.CreateTasks(rows);
    ok := PublishTasks(broker, Ids(first, |page|), route);
  }

  /** How far the topics are, after `n` clones. */
  ghost predicate SentSoFar(sent: map<nat, Partition>, now: map<nat, Partition>, first: Id, n: nat, route: Route) {
    now == SentAll(sent, Ids(first, n), route) && AllRouted(Ids(first, n), route)
  }

  lemma SendPage(sent: map<nat, Partition>, now: map<nat, Partition>, first: Id, n: nat, place: Id, m: nat, all: nat, route: Route)
    requires SentSoFar(sent, now, first, n, route) && place == first + n && all == n + m
    ensures SentAll(now, Ids(place, m), route) == SentAll(sent, Ids(first, all), route)
    ensures AllRouted(Ids(place, m), route) <==> AllRouted(Ids(first, all), route)
  {
    SentAllJoins(sent, Ids(first, n), Ids(place, m), route);
    IdsJoin(first, n, place, m, all);
    assert forall t :: t in Ids(first, n) + Ids(place, m) <==> t in Ids(first, n) || t in Ids(place, m);
  }

  /** What a page read in the middle of the loop is good for. */
  ghost predicate Continues(was: Db, first: Id, src: Id, clone: Id, createdAt: int, statuses: set<Status>, order: seq<Id>, place: Id, now: Db, batch: nat, page: seq<Id>)
  {
    && (forall t :: t in page ==> t in now.tasks) && |page| <= batch
    && (|page| < batch ==> InOrder(was, src, statuses, order + page))
    && (page != [] ==>
          Streamed(was, first, src, clone, createdAt, statuses, now.tasks[page[|page| - 1]].sequence, order + page,
                   now.(tasks := now.tasks + Clones(now.tasks, page, place, clone, createdAt))))
  }

  method ReadOnePage(repo: Repository, src: Id, clone: Id, createdAt: int, statuses: set<Status>, after: int, batch: nat,
                     ghost was: Db, ghost first: Id, ghost order: seq<Id>, ghost place: Id)
    returns (page: seq<Id>)
    requires (forall t :: t in was.tasks ==> t < first) && src != clone && Numbered(was, src)
    requires place == first + |order| && Streamed(was, first, src, clone, createdAt, statuses, after, order, repo.Rows())
    ensures Continues(was, first, src, clone, createdAt, statuses, order, place, repo.Rows(), batch, page)
  {
    page := repo.FindTasksBatch(src, statuses, after, batch);
    StreamPage(was, first, src, clone, createdAt, statuses, after, order, place, repo.Rows(), batch, page);
  }

  lemma StreamedIsBounded(was: Db, first: Id, src: Id, clone: Id, createdAt: int, statuses: set<Status>, after: int, order: seq<Id>, now: Db)
    requires Streamed(was, first, src, clone, createdAt, statuses, after, order, now)
    ensures |order| <= |Matching(was, src, statuses)|
  {
    ReadIsBounded(was, src, statuses, after, order);
  }

  lemma {:induction false} IdsPrefix(first: Id, n: nat, m: nat)
    requires m <= n
    ensures |Ids(first, n)| == n && Ids(first, n)[..m] == Ids(first, m)
  {
    IdsInOrder(first, n);
    IdsInOrder(first, m);
  }

  /** A page that is full or the last brings the list to the next whole page or to its end. */
  lemma FullOrLast(db: Db, j: Id, statuses: set<Status>, order: seq<Id>, before: nat, batch: nat, n: nat)
    requires |order| == before + n && n <= batch && |order| <= |Matching(db, j, statuses)| && (n < batch ==> InOrder(db, j, statuses, order))
    ensures |order| == Min(before + batch, |Matching(db, j, statuses)|)
  {
  }

  lemma StreamStops(db: Db, j: Id, statuses: set<Status>, first: Id, pages: nat, batch: nat, order: seq<Id>, n: nat, route: Route)
    requires AllRouted(Ids(first, PagesHold(pages, batch)), route) && !AllRouted(Ids(first, |order|), route)
    requires |order| == PagesHold(pages, batch) + n && 0 < n <= batch && |order| <= |Matching(db, j, statuses)| && (n < batch ==> InOrder(db, j, statuses, order))
    ensures StopsAtFailure(Ids(first, |order|), |Matching(db, j, statuses)|, batch, route)
  {
    FullOrLast(db, j, statuses, order, PagesHold(pages, batch), batch, n);
    IdsPrefix(first, |order|, PagesHold(pages, batch));
    assert StopsInPage(Ids(first, |order|), |Matching(db, j, statuses)|, batch, route, pages);
  }

  /** One turn of the loop: read, clone, insert, publish. */
  method StreamNextPage(repo: Repository, broker: Broker, src: Id, clone: Id, createdAt: int, statuses: set<Status>, after: int, batch: nat, route: Route,
                        ghost was: Db, ghost first: Id, ghost sent: map<nat, Partition>, ghost order: seq<Id>)
    returns (n: nat, next: int, ok: bool, ghost more: seq<Id>)
    requires (forall t :: t in was.tasks ==> t < first) && src != clone && Numbered(was, src) && RoutesTo(broker.partitions, route)
    requires repo.Valid() && repo.nextId == first + |order| && Streamed(was, first, src, clone, createdAt, statuses, after, order, repo.Rows())
    requires SentSoFar(sent, broker.partitions, first, |order|, route)
    modifies repo`tasks, repo`nextId, broker`partitions
    ensures repo.Valid() && repo.nextId == first + |more| && |more| == |order| + n && |more| <= |Matching(was, src, statuses)|
    ensures Streamed(was, first, src, clone, createdAt, statuses, next, more, repo.Rows())
    ensures broker.partitions == SentAll(sent, Ids(first, |more|), route) && RoutesTo(broker.partitions, route)
    ensures ok <==> AllRouted(Ids(first, |more|), route)
    ensures n <= batch && (n < batch ==> InOrder(was, src, statuses, more)) && (n == 0 ==> ok)
  {
    var page := ReadOnePage(repo, src, clone, createdAt, statuses, after, batch, was, first, order, repo.nextId);
    n, next, ok, more := |page|, after, true, order + page;
    if n > 0 {
      SendPage(sent, broker.partitions, first, |order|, repo.nextId, n, |more|, route);
      next := repo.tasks[page[n - 1]].sequence;
      ok := StreamOnePage(repo, broker, page, clone, createdAt, route);
    } else {
      assert more == order;
    }
    StreamedIsBounded(was, first, src, clone, createdAt, statuses, next, more, repo.Rows());
  }

  lemma WholePage(db: Db, j: Id, statuses: set<Status>, first: Id, pages: nat, batch: nat, order: seq<Id>, more: seq<Id>, n: nat, ok: bool, route: Route)
    requires AllRouted(Ids(first, |order|), route) && |order| == PagesHold(pages, batch) && |more| == |order| + n && n <= batch && (n == 0 ==> ok)
    requires |more| <= |Matching(db, j, statuses)| && (n < batch ==> InOrder(db, j, statuses, more)) && (ok <==> AllRouted(Ids(first, |more|), route))
    ensures n >= batch ==> |more| == PagesHold(pages + 1, batch)
    ensures !ok ==> StopsAtFailure(Ids(first, |more|), |Matching(db, j, statuses)|, batch, route)
  {
    if !ok {
      StreamStops(db, j, statuses, first, pages, batch, more, n, route);
    }
  }

  /** The same, with the number of whole pages so far. */
  method StreamWholePage(repo: Repository, broker: Broker, src: Id, clone: Id, createdAt: int, statuses: set<Status>, after: int, batch: nat, route: Route,
                         ghost was: Db, ghost first: Id, ghost sent: map<nat, Partition>, ghost order: seq<Id>, ghost pages: nat)
    returns (n: nat, next: int, ok: bool, ghost more: seq<Id>, ghost whole: nat)
    requires (forall t :: t in was.tasks ==> t < first) && src != clone && Numbered(was, src) && RoutesTo(broker.partitions, route)
    requires repo.Valid() && repo.nextId == first + |order| && Streamed(was, first, src, clone, createdAt, statuses, after, order, repo.Rows())
    requires SentSoFar(sent, broker.partitions, first, |order|, route) && |order| == PagesHold(pages, batch)
    modifies repo`tasks, repo`nextId, broker`partitions
    ensures repo.Valid() && repo.nextId == first + |more| && |more| == |order| + n && |more| <= |Matching(was, src, statuses)|
    ensures Streamed(was, first, src, clone, createdAt, statuses, next, more, repo.Rows())
    ensures broker.partitions == SentAll(sent, Ids(first, |more|), route) && RoutesTo(broker.partitions, route)
    ensures ok <==> AllRouted(Ids(first, |more|), route)
    ensures n < batch ==> InOrder(was, src, statuses, more)
    ensures n >= batch ==> |more| == PagesHold(whole, batch)
    ensures !ok ==> StopsAtFailure(Ids(first, |more|), |Matching(was, src, statuses)|, batch, route)
  {
    n, next, ok, more := StreamNextPage(repo, broker, src, clone, createdAt, statuses, after, batch, route, was, first, sent, order);
    whole := pages + 1;
    WholePage(was, src, statuses, first, pages, batch, order, more, n, ok, route);
  }

  /** Clones, inserts and publishes page by page. For any page size, on tasks with distinct sequence numbers, it ends;
      one fresh first attempt stands for every matching task, in sequence order, published as often as it was created.
      A failed publish stops it after the page it hit, which has been inserted. */
  method StreamCloneAndPublish(repo: Repository, broker: Broker, src: Id, clone: Id, createdAt: int, statuses: set<Status>, batch: nat, route: Route)
    returns (total: nat, ok: bool, ghost order: seq<Id>)
    requires repo.Valid() && batch >= 1 && src != clone && Numbered(repo.Rows(), src) && RoutesTo(broker.partitions, route)
    modifies repo`tasks, repo`nextId, broker`partitions
    ensures repo.Valid() && repo.nextId == old(repo.nextId) + |order|
    ensures Ascending(old(repo.Rows()), order)
    ensures repo.Rows() == WithClones(old(repo.Rows()), order, old(repo.nextId), clone, createdAt)
    ensures broker.partitions == SentAll(old(broker.partitions), Ids(old(repo.nextId), |order|), route)
    ensures ok <==> AllRouted(Ids(old(repo.nextId), |order|), route)
    ensures ok ==> InOrder(old(repo.Rows()), src, statuses, order) && total == |order|
    ensures !ok ==> exists after :: ReadUpTo(old(repo.Rows()), src, statuses, after, order)
    ensures !ok ==> StopsAtFailure(Ids(old(repo.nextId), |order|), |Matching(old(repo.Rows()), src, statuses)|, batch, route)
  {
    ghost var was, first, sent := repo.Rows(), repo.nextId, broker.partitions;
    var after := -1;
    total, order := 0, [];
    assert Clones(was.tasks, [], first, clone, createdAt) == map[];
    ghost var pages: nat := 0;
    while true
      invariant repo.Valid() && repo.nextId == first + |order| && RoutesTo(broker.partitions, route)
      invariant Streamed(was, first, src, clone, createdAt, statuses, after, order, repo.Rows())
      invariant SentSoFar(sent, broker.partitions, first, |order|, route)
      invariant total == |order| == PagesHold(pages, batch)
      decreases |Matching(was, src, statuses)| - |order|
    {
      var n;
      n, after, ok, order, pages := StreamWholePage(repo, broker, src, clone, createdAt, statuses, after, batch, route, was, first, sent, order, pages);
      if !ok {
        return;
      }
      total := total + n;
      if n < batch {
        return;
      }
    }
  }

  /** Row `k` is new and the clone of task `t`. */
  ghost predicate StandsFor(db: Db, next: Db, t: Id, k: Id, clone: Id, createdAt: int) {
    t in db.tasks && k in next.tasks && k !in db.tasks && next.tasks[k] == CloneOf(db.tasks[t], clone, createdAt)
  }

  ghost predicate Placed(db: Db, order: seq<Id>, first: Id, clone: Id, createdAt: int, next: Db) {
    forall i {:trigger order[i]} :: 0 <= i < |order| ==> StandsFor(db, next, order[i], first + i, clone, createdAt)
  }

  lemma NewRows(db: Db, order: seq<Id>, first: Id, clone: Id, createdAt: int, next: Db)
    requires (forall t :: t in order ==> t in db.tasks) && next == WithClones(db, order, first, clone, createdAt)
    requires forall t :: t in db.tasks ==> t < first
    ensures forall k :: k in next.tasks && k !in db.tasks ==> first <= k < first + |order|
    ensures Placed(db, order, first, clone, createdAt, next)
  {
    OneCloneEach(db.tasks, order, first, clone, createdAt);
  }

  /** Streaming does no more than filtering and mapping in one go: nothing old changes, and the rows created are pending
      first attempts of matching tasks, in sequence order, each with the number, key, params and attempt limit of its
      source. */
  lemma StreamingClonesOnlyMatches(db: Db, src: Id, statuses: set<Status>, order: seq<Id>, first: Id, clone: Id, createdAt: int, next: Db)
    requires InOrder(db, src, statuses, order) && (forall t :: t in db.tasks ==> t < first)
    requires next == WithClones(db, order, first, clone, createdAt)
    ensures next.jobs == db.jobs && forall t :: t in db.tasks ==> t in next.tasks && next.tasks[t] == db.tasks[t]
    ensures forall k :: k in next.tasks && k !in db.tasks ==> exists t :: t in Matching(db, src, statuses) && StandsFor(db, next, t, k, clone, createdAt)
    ensures forall k, m :: k in next.tasks && m in next.tasks && k !in db.tasks && m !in db.tasks && k < m ==>
      next.tasks[k].sequence < next.tasks[m].sequence
  {
    OldRowsKept(db, order, first, clone, createdAt);
    NewRows(db, order, first, clone, createdAt, next);
    forall k | k in next.tasks && k !in db.tasks
      ensures exists t :: t in Matching(db, src, statuses) && StandsFor(db, next, t, k, clone, createdAt)
    {
      CloneOrigin(db, src, statuses, order, first, clone, createdAt, next, k);
    }
    forall k, m | k in next.tasks && m in next.tasks && k !in db.tasks && m !in db.tasks && k < m
      ensures next.tasks[k].sequence < next.tasks[m].sequence
    {
      ClonesAscend(db, order, first, clone, createdAt, next, k, m);
    }
  }

  /** And no less: every matching task has a clone, and only one. */
  lemma StreamingClonesEveryMatch(db: Db, src: Id, statuses: set<Status>, order: seq<Id>, first: Id, clone: Id, createdAt: int, next: Db, t: Id)
    requires InOrder(db, src, statuses, order) && (forall t :: t in db.tasks ==> t < first)
    requires next == WithClones(db, order, first, clone, createdAt) && t in Matching(db, src, statuses)
    ensures exists k :: StandsFor(db, next, t, k, clone, createdAt)
    ensures forall k, m :: StandsFor(db, next, t, k, clone, createdAt) && StandsFor(db, next, t, m, clone, createdAt) ==> k == m
  {
    NewRows(db, order, first, clone, createdAt, next);
    assert t in ToSet(order);
    var i :| 0 <= i < |order| && order[i] == t;
    assert StandsFor(db, next, order[i], first + i, clone, createdAt);
    forall k, m | StandsFor(db, next, t, k, clone, createdAt) && StandsFor(db, next, t, m, clone, createdAt)
      ensures k == m
    {
      if k < m {
        ClonesAscend(db, order, first, clone, createdAt, next, k, m);
      } else if m < k {
        ClonesAscend(db, order, first, clone, createdAt, next, m, k);
      }
    }
  }

  lemma CloneOrigin(db: Db, src: Id, statuses: set<Status>, order: seq<Id>, first: Id, clone: Id, createdAt: int, next: Db, k: Id)
    requires ToSet(order) == Matching(db, src, statuses) && Placed(db, order, first, clone, createdAt, next) && first <= k < first + |order|
    ensures exists t :: t in Matching(db, src, statuses) && StandsFor(db, next, t, k, clone, createdAt)
  {
    var i := k - first;
    assert order[i] in ToSet(order) && StandsFor(db, next, order[i], first + i, clone, createdAt);
  }

  lemma ClonesAscend(db: Db, order: seq<Id>, first: Id, clone: Id, createdAt: int, next: Db, k: Id, m: Id)
    requires Ascending(db, order) && first <= k < m < first + |order|
    requires Placed(db, order, first, clone, createdAt, next)
    ensures k in next.tasks && m in next.tasks && next.tasks[k].sequence < next.tasks[m].sequence
  {
    var a, b := k - first, m - first;
    assert StandsFor(db, next, order[a], first + a, clone, createdAt) && StandsFor(db, next, order[b], first + b, clone, createdAt);
  }

  /** What the next page of a job's tasks is good for. */
  ghost predicate IsNextPage(db: Db, j: Id, batch: nat, after: int, order: seq<Id>, page: seq<Id>) {
    && |page| <= batch && |order + page| <= |Matching(db, j, {})| && (|page| < batch ==> InOrder(db, j, {}, order + page))
    && (page != [] ==> page[|page| - 1] in db.tasks) && ReadUpTo(db, j, {}, NumberReached(db, after, page), order + page)
  }

  /** The number reached with a page. */
  function NumberReached(db: Db, after: int, page: seq<Id>): int {
    if page != [] && page[|page| - 1] in db.tasks then db.tasks[page[|page| - 1]].sequence else after
  }

  method NextPage(repo: Repository, j: Id, batch: nat, after: int, ghost order: seq<Id>) returns (page: seq<Id>)
    requires Numbered(repo.Rows(), j) && ReadUpTo(repo.Rows(), j, {}, after, order)
    ensures IsNextPage(repo.Rows(), j, batch, after, order, page)
  {
    page := repo.FindTasksBatch(j, {}, after, batch);
    if |page| < batch {
      LastPage(repo.Rows(), j, {}, after, order, batch, page);
    }
    if page != [] {
      ReadPage(repo.Rows(), j, {}, after, order, batch, page);
      ReadIsBounded(repo.Rows(), j, {}, repo.tasks[page[|page| - 1]].sequence, order + page);
    } else {
      assert order + page == order;
      ReadIsBounded(repo.Rows(), j, {}, after, order);
    }
  }

  lemma RoutedTogether(order: seq<Id>, page: seq<Id>, route: Route)
    requires AllRouted(order, route)
    ensures AllRouted(order + page, route) <==> AllRouted(page, route)
  {
    forall t | t in page && AllRouted(order + page, route)
      ensures route(t).Some?
    {
      assert t in order + page;
    }
  }

  lemma PublishStops(db: Db, j: Id, pages: nat, batch: nat, order: seq<Id>, page: seq<Id>, route: Route)
    requires |order| == PagesHold(pages, batch) && AllRouted(order, route) && !AllRouted(page, route)
    requires |page| <= batch && |order + page| <= |Matching(db, j, {})| && (|page| < batch ==> InOrder(db, j, {}, order + page))
    ensures StopsAtFailure(order + page, |Matching(db, j, {})|, batch, route)
  {
    FullOrLast(db, j, {}, order + page, |order|, batch, |page|);
    assert (order + page)[..|order|] == order;
    RoutedTogether(order, page, route);
    assert StopsInPage(order + page, |Matching(db, j, {})|, batch, route, pages);
  }

  /** How far publishing a job's tasks again has come, after whole pages all of which got through. */
  ghost predicate PublishedSoFar(db: Db, j: Id, batch: nat, route: Route, after: int, order: seq<Id>, pages: nat) {
    ReadUpTo(db, j, {}, after, order) && AllRouted(order, route) && |order| == PagesHold(pages, batch)
  }

  /** What a turn leaves: more of the list, all of it if the page was not full, a stop if it did not get through. */
  ghost predicate PageIsOut(db: Db, j: Id, batch: nat, route: Route, order: seq<Id>, pages: nat, n: nat, next: int, ok: bool, more: seq<Id>) {
    && |more| == |order| + n && |more| <= |Matching(db, j, {})| && ReadUpTo(db, j, {}, next, more) && (ok <==> AllRouted(more, route))
    && (n < batch ==> InOrder(db, j, {}, more)) && (n >= batch && ok ==> PublishedSoFar(db, j, batch, route, next, more, pages + 1))
    && (!ok ==> StopsAtFailure(more, |Matching(db, j, {})|, batch, route))
  }

  lemma PageGoesOut(db: Db, j: Id, batch: nat, route: Route, after: int, order: seq<Id>, pages: nat, page: seq<Id>)
    requires PublishedSoFar(db, j, batch, route, after, order, pages) && IsNextPage(db, j, batch, after, order, page)
    ensures PageIsOut(db, j, batch, route, order, pages, |page|, NumberReached(db, after, page), AllRouted(page, route), order + page)
  {
    RoutedTogether(order, page, route);
    if !AllRouted(page, route) {
      PublishStops(db, j, pages, batch, order, page, route);
    }
  }

  /** Sends a page after the rest of a list. */
  method SendMore(broker: Broker, page: seq<Id>, route: Route, ghost sent: map<nat, Partition>, ghost order: seq<Id>) returns (ok: bool)
    requires RoutesTo(broker.partitions, route) && broker.partitions == SentAll(sent, order, route)
    modifies broker`partitions
    ensures broker.partitions == SentAll(sent, order + page, route) && RoutesTo(broker.partitions, route)
    ensures ok <==> AllRouted(page, route)
  {
    SentAllJoins(sent, order, page, route);
    ok := PublishTasks(broker, page, route);
  }

  /** Publishes the tasks of a job again, page by page: all of them, in sequence order, unless a publish fails. */
  method StreamPublishTasks(repo: Repository, broker: Broker, j: Id, batch: nat, route: Route) returns (ok: bool, ghost order: seq<Id>)
    requires batch >= 1 && Numbered(repo.Rows(), j) && RoutesTo(broker.partitions, route)
    modifies broker`partitions
    ensures broker.partitions == SentAll(old(broker.partitions), order, route) && RoutesTo(broker.partitions, route)
    ensures ok <==> AllRouted(order, route)
    ensures Listed(repo.Rows(), j, {}, order, ok)
    ensures !ok ==> StopsAtFailure(order, |Matching(repo.Rows(), j, {})|, batch, route)
  {
    ghost var sent := broker.partitions;
    var after := -1;
    order := [];
    ghost var pages: nat := 0;
    while true
      invariant PublishedSoFar(repo.Rows(), j, batch, route, after, order, pages) && RoutesTo(broker.partitions, route)
      invariant broker.partitions == SentAll(sent, order, route)
      decreases |Matching(repo.Rows(), j, {})| - |order|
    {
      var page := NextPage(repo, j, batch, after, order);
      PageGoesOut(repo.Rows(), j, batch, route, after, order, pages, page);
      ok := true;
      if |page| > 0 {
        ok := SendMore(broker, page, route, sent, order);
        after := repo.tasks[page[|page| - 1]].sequence;
      } else {
        assert order + page == order;
      }
      order := order + page;
      if !ok || |page| < batch {
        return;
      }
      pages := pages + 1;
    }
  }

  // ---------------------------------------------------------------- retrying a job

  /** Every task of the job gets through to its topic. */
  predicate Publishable(db: Db, j: Id, route: Route) {
    forall t :: t in TasksOf(db, j) ==> route(t).Some?
  }

  function RetryStatuses(full: bool): set<Status> {
    if full then {} else {MaxRetriesExhausted}
  }

  /** The row of a clone: like the original, PENDING, under its own reference. */
  function CloneJob(job: Job, src: Id, ref: string, now: int): Job {
    job.(parent := Some(src), status := Pending, ref := Some(ref), createdAt := now)
  }

  /** The tables once a clone is streamed. */
  function Cloned(db: Db, src: Id, ref: string, now: int, clone: Id, order: seq<Id>): Db
    requires src in db.jobs && forall t :: t in order ==> t in db.tasks
  {
    WithClones(InsertJob(db, clone, CloneJob(db.jobs[src], src, ref, now), map[]), order, clone + 1, clone, now)
  }

  ghost predicate HasLiveClone(db: Db, src: Id) {
    exists j :: IsLiveClone(db, src, j)
  }

  /** What a retry asks for; the program pages by TASK_INSERT_BATCH_SIZE. */
  datatype Request = Request(job: Id, full: bool, ref: string, now: int, batch: nat, route: Route)

  /** Numbering and listing depend on the tasks alone. */
  lemma SameTasksNumbered(db: Db, next: Db, j: Id)
    requires next.tasks == db.tasks && Numbered(db, j)
    ensures Numbered(next, j)
  {
    assert TasksOf(next, j) == TasksOf(db, j);
  }

  lemma SameTasksListed(db: Db, next: Db, j: Id, statuses: set<Status>, order: seq<Id>, all: bool)
    requires next.tasks == db.tasks && Listed(next, j, statuses, order, all)
    ensures Listed(db, j, statuses, order, all)
  {
    assert Matching(next, j, statuses) == Matching(db, j, statuses);
    if !all {
      var after :| ReadUpTo(next, j, statuses, after, order);
      assert ReadUpTo(db, j, statuses, after, order);
    }
  }

  /** The clone of an earlier attempt is taken over: no row changes, and its tasks are published again, all of them exactly
      if all get through. */
  ghost predicate TakenOver(db: Db, request: Request, sent: map<nat, Partition>, now: map<nat, Partition>, clone: Id, order: seq<Id>, ok: bool) {
    && IsLatestClone(db, request.job, Some(clone)) && Listed(db, clone, {}, order, ok)
    && now == SentAll(sent, order, request.route) && (ok <==> AllRouted(order, request.route)) && (ok <==> Publishable(db, clone, request.route))
    && (!ok ==> StopsAtFailure(order, |Matching(db, clone, {})|, request.batch, request.route))
  }

  /** The messages of all clones there are to make get through. */
  predicate Clonable(db: Db, request: Request, clone: Id) {
    AllRouted(Ids(clone + 1, |Matching(db, request.job, RetryStatuses(request.full))|), request.route)
  }

  /** A new clone: the matching tasks cloned and sent in order, all of them exactly if all their messages get through, else
      up to and with the page of the first that does not. */
  ghost predicate MadeAnew(db: Db, request: Request, sent: map<nat, Partition>, clone: Id, next: Db, now: map<nat, Partition>, order: seq<Id>, ok: bool) {
    && request.job in db.jobs && Listed(db, request.job, RetryStatuses(request.full), order, ok)
    && next == Cloned(db, request.job, request.ref, request.now, clone, order)
    && now == SentAll(sent, Ids(clone + 1, |order|), request.route)
    && (ok <==> AllRouted(Ids(clone + 1, |order|), request.route)) && (ok <==> Clonable(db, request, clone))
    && (!ok ==> StopsAtFailure(Ids(clone + 1, |order|), |Matching(db, request.job, RetryStatuses(request.full))|, request.batch, request.route))
  }

  lemma PublishableIff(db: Db, j: Id, order: seq<Id>, route: Route, ok: bool)
    requires Listed(db, j, {}, order, ok) && (ok <==> AllRouted(order, route))
    ensures ok <==> Publishable(db, j, route)
  {
    ListedMatch(db, j, {}, order, ok);
    assert Matching(db, j, {}) == TasksOf(db, j);
    if ok {
      assert forall t :: t in TasksOf(db, j) ==> t in ToSet(order);
    }
  }

  lemma {:induction false} IdsRange(first: Id, n: nat)
    ensures forall t :: t in Ids(first, n) <==> first <= t < first + n
  {
    if n > 0 {
      IdsRange(first, n - 1);
    }
  }

  lemma ClonableIff(db: Db, request: Request, clone: Id, order: seq<Id>, ok: bool)
    requires Listed(db, request.job, RetryStatuses(request.full), order, ok) && (ok <==> AllRouted(Ids(clone + 1, |order|), request.route))
    ensures ok <==> Clonable(db, request, clone)
  {
    ListedMatch(db, request.job, RetryStatuses(request.full), order, ok);
    IdsRange(clone + 1, |order|);
    IdsRange(clone + 1, |Matching(db, request.job, RetryStatuses(request.full))|);
  }

  /** The row of a new clone, still without tasks. */
  method InsertClone(repo: Repository, request: Request) returns (id: Id)
    requires repo.Valid() && request.job in repo.jobs && Numbered(repo.Rows(), request.job)
    modifies repo
    ensures repo.Valid() && id == old(repo.nextId) && repo.nextId == id + 1 && id != request.job
    ensures repo.Rows() == InsertJob(old(repo.Rows()), id, CloneJob(old(repo.jobs)[request.job], request.job, request.ref, request.now), map[])
    ensures repo.tasks == old(repo.tasks) && Numbered(repo.Rows(), request.job)
  {
    ghost var was := repo.Rows();
    var job := repo.jobs[request.job];
    id := repo.NewId();
    repo.CreateJobAndTasks(id, CloneJob(job, request.job, request.ref, request.now), map[]);
    SameTasksNumbered(was, repo.Rows(), request.job);
  }

  lemma StreamedIsMadeAnew(db: Db, empty: Db, request: Request, sent: map<nat, Partition>, clone: Id, next: Db, now: map<nat, Partition>, order: seq<Id>, ok: bool)
    requires request.job in db.jobs && empty == InsertJob(db, clone, CloneJob(db.jobs[request.job], request.job, request.ref, request.now), map[])
    requires empty.tasks == db.tasks && Listed(empty, request.job, RetryStatuses(request.full), order, ok)
    requires next == WithClones(empty, order, clone + 1, clone, request.now)
    requires now == SentAll(sent, Ids(clone + 1, |order|), request.route) && (ok <==> AllRouted(Ids(clone + 1, |order|), request.route))
    requires !ok ==> StopsAtFailure(Ids(clone + 1, |order|), |Matching(empty, request.job, RetryStatuses(request.full))|, request.batch, request.route)
    ensures MadeAnew(db, request, sent, clone, next, now, order, ok)
  {
    SameTasksListed(db, empty, request.job, RetryStatuses(request.full), order, ok);
    assert Matching(empty, request.job, RetryStatuses(request.full)) == Matching(db, request.job, RetryStatuses(request.full));
    ClonableIff(db, request, clone, order, ok);
  }

  method StreamNewClone(repo: Repository, broker: Broker, request: Request) returns (ok: bool, count: nat, ghost order: seq<Id>)
    requires repo.Valid() && request.batch >= 1 && request.job in repo.jobs && RoutesTo(broker.partitions, request.route)
    requires Numbered(repo.Rows(), request.job)
    modifies repo, broker`partitions
    ensures repo.Valid() && (ok ==> count == |order|)
    ensures MadeAnew(old(repo.Rows()), request, old(broker.partitions), old(repo.nextId), repo.Rows(), broker.partitions, order, ok)
  {
    ghost var was, sent := repo.Rows(), broker.partitions;
    var id := InsertClone(repo, request);
    ghost var empty := repo.Rows();
    count, ok, order := StreamCloneAndPublish(repo, broker, request.job, id, request.now, RetryStatuses(request.full), request.batch, request.route);
    StreamedIsMadeAnew(was, empty, request, sent, id, repo.Rows(), broker.partitions, order, ok);
  }

  method TakeOverClone(repo: Repository, broker: Broker, request: Request, clone: Id) returns (ok: bool, count: nat, ghost order: seq<Id>)
    requires request.batch >= 1 && RoutesTo(broker.partitions, request.route) && Numbered(repo.Rows(), clone)
    requires IsLatestClone(repo.Rows(), request.job, Some(clone))
    modifies broker`partitions
    ensures TakenOver(repo.Rows(), request, old(broker.partitions), broker.partitions, clone, order, ok) && (ok ==> count == |order|)
  {
    ok, order := StreamPublishTasks(repo, broker, clone, request.batch, request.route);
    PublishableIff(repo.Rows(), clone, order, request.route, ok);
    count := 0;
    if ok {
      var summary := repo.GetTaskStatusSummary(clone);
      count := summary.total;
      assert Matching(repo.Rows(), clone, {}) == TasksOf(repo.Rows(), clone);
    }
  }

  /** The two ways a retry can go: the live clone `c` is taken over, or, if there is none, a new one is made. */
  ghost predicate TakesOver(db: Db, request: Request, sent: map<nat, Partition>, next: Db, now: map<nat, Partition>, order: seq<Id>, clone: Option<Id>, c: Id) {
    && HasLiveClone(db, request.job) && next == db && (clone.Some? ==> clone.value == c)
    && TakenOver(db, request, sent, now, c, order, clone.Some?)
  }

  ghost predicate MakesAnew(db: Db, request: Request, sent: map<nat, Partition>, id: Id, next: Db, now: map<nat, Partition>, order: seq<Id>, clone: Option<Id>) {
    && !HasLiveClone(db, request.job) && (clone.Some? ==> clone.value == id)
    && MadeAnew(db, request, sent, id, next, now, order, clone.Some?)
  }

  /** Takes over the live clone of an earlier attempt, publishing its tasks again, or makes a new one and fills it. None
      stands for an error. */
  method PrepareAndStreamRetry(repo: Repository, broker: Broker, request: Request) returns (clone: Option<Id>, count: nat, ghost order: seq<Id>)
    requires repo.Valid() && request.batch >= 1 && request.job in repo.jobs && RoutesTo(broker.partitions, request.route)
    requires forall j :: Numbered(repo.Rows(), j)
    modifies repo, broker`partitions
    ensures repo.Valid() && (clone.Some? ==> count == |order|)
    ensures (exists c :: TakesOver(old(repo.Rows()), request, old(broker.partitions), repo.Rows(), broker.partitions, order, clone, c))
            || MakesAnew(old(repo.Rows()), request, old(broker.partitions), old(repo.nextId), repo.Rows(), broker.partitions, order, clone)
  {
    var ok;
    ghost var was, sent := repo.Rows(), broker.partitions;
    var existing := repo.FindPendingJobByParentID(request.job);
    if existing.Some? {
      ok, count, order := TakeOverClone(repo, broker, request, existing.value);
      clone := if ok then existing else None;
      assert TakesOver(was, request, sent, repo.Rows(), broker.partitions, order, clone, existing.value);
      return;
    }
    var id := repo.nextId;
    ok, count, order := StreamNewClone(repo, broker, request);
    clone := if ok then Some(id) else None;
    assert MakesAnew(was, request, sent, id, repo.Rows(), broker.partitions, order, clone);
  }

  datatype RetryResult = JobNotFound | NotTerminal | NotRegistered | StreamFailed | AlreadyRunning | Retried(clone: Id)

  method StartClone(repo: Repository, hooks: HookLog, registered: set<string>, clone: Id, count: nat)
    requires repo.Valid() && clone in repo.jobs && repo.jobs[clone].status == Pending && (count == 0 <==> TasksOf(repo.Rows(), clone) == {})
    modifies repo`jobs, hooks
    ensures repo.Valid() && repo.Rows() == StartedRun(old(repo.Rows()), clone, count == 0)
    ensures hooks.finished == old(hooks.finished) + EmptyHook(old(repo.Rows()), registered, if count == 0 then Some(clone) else None)
  {
    var job := new JobRecord(repo.jobs[clone]);
    var _ := job.Fire(StartJob);
    repo.UpdateJobStatus(clone, job.row.status);
    if count == 0 {
      assert TasksOf(repo.Rows(), clone) == {};
      FinalizeEmpty(repo, hooks, registered, clone);
    }
  }

  lemma TakenOverCounts(db: Db, request: Request, sent: map<nat, Partition>, now: map<nat, Partition>, clone: Id, order: seq<Id>)
    requires TakenOver(db, request, sent, now, clone, order, true)
    ensures |order| == |TasksOf(db, clone)| && (order == [] <==> TasksOf(db, clone) == {})
  {
    assert Matching(db, clone, {}) == TasksOf(db, clone);
  }

  lemma MadeAnewCounts(db: Db, request: Request, sent: map<nat, Partition>, clone: Id, next: Db, now: map<nat, Partition>, order: seq<Id>, ok: bool)
    requires MadeAnew(db, request, sent, clone, next, now, order, ok)
    requires (forall t :: t in db.tasks ==> db.tasks[t].jobId in db.jobs && t < clone) && clone !in db.jobs
    ensures clone in next.jobs && next.jobs[clone].status == Pending && (order == [] <==> TasksOf(next, clone) == {})
  {
    OneCloneEach(db.tasks, order, clone + 1, clone, request.now);
    assert db.tasks + map[] == db.tasks;
    if order != [] {
      assert clone + 1 in Clones(db.tasks, order, clone + 1, clone, request.now);
      assert clone + 1 in next.tasks && next.tasks[clone + 1].jobId == clone;
      assert clone + 1 in TasksOf(next, clone);
    }
  }

  /** The result of retrying a job whose live clone is taken over. */
  function TakeOverResult(db: Db, clone: Id, route: Route): RetryResult
    requires clone in db.jobs
  {
    if !Publishable(db, clone, route) then StreamFailed
    else if db.jobs[clone].status == Running then AlreadyRunning
    else Retried(clone)
  }

  /** The live clone, taken over and, if it is PENDING and everything got through, started. */
  ghost predicate GoesOn(db: Db, request: Request, sent: map<nat, Partition>, next: Db, now: map<nat, Partition>,
                         result: RetryResult, order: seq<Id>, finalised: Option<Id>, clone: Id)
  {
    && clone in db.jobs && result == TakeOverResult(db, clone, request.route)
    && TakenOver(db, request, sent, now, clone, order, !result.StreamFailed?)
    && next == (if result.Retried? then StartedRun(db, clone, order == []) else db)
    && finalised == (if result.Retried? && order == [] then Some(clone) else None)
  }

  /** A new clone, filled and, if everything got through, started. */
  ghost predicate Begins(db: Db, request: Request, id: Id, sent: map<nat, Partition>, next: Db, now: map<nat, Partition>,
                         result: RetryResult, order: seq<Id>, finalised: Option<Id>, streamed: Db)
  {
    && result == (if Clonable(db, request, id) then Retried(id) else StreamFailed)
    && MadeAnew(db, request, sent, id, streamed, now, order, result.Retried?)
    && next == (if result.Retried? then StartedRun(streamed, id, order == []) else streamed)
    && finalised == (if result.Retried? && order == [] then Some(id) else None)
  }

  /** A retry that gets as far as streaming, from tables and topics to tables and topics; `id` is the next fresh id, and
      `finalised` the clone, if it had no tasks and was finalised at once. */
  ghost predicate Streams(db: Db, request: Request, id: Id, sent: map<nat, Partition>, next: Db, now: map<nat, Partition>,
                          result: RetryResult, order: seq<Id>, finalised: Option<Id>)
  {
    if HasLiveClone(db, request.job)
    then exists clone :: GoesOn(db, request, sent, next, now, result, order, finalised, clone)
    else exists streamed :: Begins(db, request, id, sent, next, now, result, order, finalised, streamed)
  }

  /** What one call of retryJob does: each result exactly when it is returned, and the tables and topics it leaves. */
  ghost predicate JobRetried(registered: set<string>, db: Db, request: Request, id: Id, sent: map<nat, Partition>, next: Db, now: map<nat, Partition>,
                             result: RetryResult, order: seq<Id>, finalised: Option<Id>)
  {
    if request.job in db.jobs && !IsLive(db.jobs[request.job].status) && db.jobs[request.job].name in registered then
      Streams(db, request, id, sent, next, now, result, order, finalised)
    else
      && next == db && now == sent && finalised == None
      && result == if request.job !in db.jobs then JobNotFound else if IsLive(db.jobs[request.job].status) then NotTerminal else NotRegistered
  }

  /** The result of a retry whose streaming is over, and what starting the clone makes of the tables. */
  ghost predicate Starts(db: Db, clone: Option<Id>, empty: bool, next: Db, result: RetryResult, finalised: Option<Id>) {
    if clone.None? then result == StreamFailed && next == db && finalised == None
    else if clone.value in db.jobs && db.jobs[clone.value].status == Running then result == AlreadyRunning && next == db && finalised == None
    else result == Retried(clone.value) && next == StartedRun(db, clone.value, empty) && finalised == if empty then clone else None
  }

  method StartIfPending(repo: Repository, hooks: HookLog, registered: set<string>, clone: Option<Id>, count: nat)
    returns (result: RetryResult, ghost finalised: Option<Id>)
    requires repo.Valid()
    requires clone.Some? ==> clone.value in repo.jobs && IsLive(repo.jobs[clone.value].status) && (count == 0 <==> TasksOf(repo.Rows(), clone.value) == {})
    modifies repo`jobs, hooks
    ensures repo.Valid() && Starts(old(repo.Rows()), clone, count == 0, repo.Rows(), result, finalised)
    ensures hooks.finished == old(hooks.finished) + EmptyHook(repo.Rows(), registered, finalised)
  {
    finalised := None;
    if clone.None? {
      return StreamFailed, finalised;
    }
    if repo.jobs[clone.value].status == Running {
      return AlreadyRunning, finalised;
    }
    StartClone(repo, hooks, registered, clone.value, count);
    finalised := if count == 0 then clone else None;
    return Retried(clone.value), finalised;
  }

  lemma TakingOverStreams(db: Db, request: Request, id: Id, sent: map<nat, Partition>, mid: Db, now: map<nat, Partition>, order: seq<Id>,
                          clone: Option<Id>, c: Id, next: Db, result: RetryResult, finalised: Option<Id>)
    requires TakesOver(db, request, sent, mid, now, order, clone, c) && Starts(mid, clone, order == [], next, result, finalised)
    ensures Streams(db, request, id, sent, next, now, result, order, finalised)
  {
    assert GoesOn(db, request, sent, next, now, result, order, finalised, c);
  }

  lemma MakingAnewStreams(db: Db, request: Request, id: Id, sent: map<nat, Partition>, mid: Db, now: map<nat, Partition>, order: seq<Id>,
                          clone: Option<Id>, next: Db, result: RetryResult, finalised: Option<Id>)
    requires MakesAnew(db, request, sent, id, mid, now, order, clone) && Starts(mid, clone, order == [], next, result, finalised)
    requires clone.Some? ==> id in mid.jobs && mid.jobs[id].status == Pending
    ensures Streams(db, request, id, sent, next, now, result, order, finalised)
  {
    assert Begins(db, request, id, sent, next, now, result, order, finalised, mid);
  }

  /** The clone a retry has streamed is live, and has tasks exactly if any were listed. */
  lemma StreamedClone(db: Db, request: Request, id: Id, sent: map<nat, Partition>, mid: Db, now: map<nat, Partition>, order: seq<Id>, clone: Option<Id>)
    requires (exists c :: TakesOver(db, request, sent, mid, now, order, clone, c)) || MakesAnew(db, request, sent, id, mid, now, order, clone)
    requires (forall t :: t in db.tasks ==> db.tasks[t].jobId in db.jobs && t < id) && id !in db.jobs && clone.Some?
    ensures clone.value in mid.jobs && IsLive(mid.jobs[clone.value].status) && (order == [] <==> TasksOf(mid, clone.value) == {})
    ensures MakesAnew(db, request, sent, id, mid, now, order, clone) ==> clone.value == id && mid.jobs[id].status == Pending
  {
    if MakesAnew(db, request, sent, id, mid, now, order, clone) {
      MadeAnewCounts(db, request, sent, id, mid, now, order, true);
    } else {
      var c :| TakesOver(db, request, sent, mid, now, order, clone, c);
      TakenOverCounts(db, request, sent, now, c, order);
    }
  }

  method StreamAndStart(repo: Repository, broker: Broker, hooks: HookLog, registered: set<string>, request: Request)
    returns (result: RetryResult, ghost order: seq<Id>, ghost finalised: Option<Id>)
    requires repo.Valid() && request.batch >= 1 && request.job in repo.jobs && RoutesTo(broker.partitions, request.route)
    requires forall j :: Numbered(repo.Rows(), j)
    requires forall t :: t in repo.tasks ==> repo.tasks[t].jobId in repo.jobs
    modifies repo, broker`partitions, hooks
    ensures repo.Valid()
    ensures Streams(old(repo.Rows()), request, old(repo.nextId), old(broker.partitions), repo.Rows(), broker.partitions, result, order, finalised)
    ensures hooks.finished == old(hooks.finished) + EmptyHook(repo.Rows(), registered, finalised)
  {
    ghost var was, sent, id := repo.Rows(), broker.partitions, repo.nextId;
    var clone, count;
    clone, count, order := PrepareAndStreamRetry(repo, broker, request);
    ghost var mid, now := repo.Rows(), broker.partitions;
    if clone.Some? {
      StreamedClone(was, request, id, sent, mid, now, order, clone);
    }
    result, finalised := StartIfPending(repo, hooks, registered, clone, count);
    if c :| TakesOver(was, request, sent, mid, now, order, clone, c) {
      TakingOverStreams(was, request, id, sent, mid, now, order, clone, c, repo.Rows(), result, finalised);
    } else {
      MakingAnewStreams(was, request, id, sent, mid, now, order, clone, repo.Rows(), result, finalised);
    }
  }

  method RetryJob(repo: Repository, broker: Broker, hooks: HookLog, registered: set<string>, request: Request)
    returns (result: RetryResult, ghost order: seq<Id>, ghost finalised: Option<Id>)
    requires repo.Valid() && request.batch >= 1 && RoutesTo(broker.partitions, request.route)
    requires forall j :: Numbered(repo.Rows(), j)
    requires forall t :: t in repo.tasks ==> repo.tasks[t].jobId in repo.jobs
    modifies repo, broker`partitions, hooks
    ensures repo.Valid()
    ensures JobRetried(registered, old(repo.Rows()), request, old(repo.nextId), old(broker.partitions), repo.Rows(), broker.partitions, result, order, finalised)
    ensures hooks.finished == old(hooks.finished) + EmptyHook(repo.Rows(), registered, finalised)
  {
    order, finalised := [], None;
    var found := repo.FindJobByID(request.job);
    if found.None? {
      return JobNotFound, order, finalised;
    }
    if IsLive(found.value.status) {
      return NotTerminal, order, finalised;
    }
    if found.value.name !in registered {
      return NotRegistered, order, finalised;
    }
    result, order, finalised := StreamAndStart(repo, broker, hooks, registered, request);
  }
}
