/** Full retries among everything else: every task of the source has exactly one clone once the streaming loop is through,
    whatever other steps come between its reads, inserts and publishes. */
module FullRetry {
  import opened Options
  import opened Domain
  import opened Store
  import opened Finalizer
  import opened Runs
  import opened Protocol
  import opened Invariants
  import opened Retry
  import opened Lineage

  // ---------------------------------------------------------------- the loop among other steps

  /** One turn: the state in which the page is read, the one in which a starter inserts its clones, and the one after. */
  datatype Turn = Turn(read: World, page: seq<Id>, ready: World, p: nat, rows: map<Id, Task>, order: seq<Id>, filled: World)

  function Insert(turn: Turn, after: int): Event {
    AddRows(turn.p, turn.rows, turn.order, turn.page, after)
  }

  ghost predicate Fills(cfg: Config, turn: Turn, clone: Id, after: int) {
    && CanStep(cfg, turn.ready, Insert(turn, after)) && turn.ready.starters[turn.p].job == clone
    && turn.filled == Apply(cfg, turn.ready, Insert(turn, after))
  }

  /** The page holds the source's tasks past the number reached, as many as fit. */
  ghost predicate Reads(cfg: Config, w: World, src: Id, after: int, limit: nat, turn: Turn) {
    MayReach(cfg, w, turn.read) && IsTaskPage(turn.read.db, src, {}, after, limit, turn.page)
  }

  ghost predicate Writes(cfg: Config, turn: Turn, clone: Id, after: int) {
    turn.page != [] && MayReach(cfg, turn.read, turn.ready) && Fills(cfg, turn, clone, after)
  }

  /** The loop from its first read to its last, with any steps of anybody in between: pages of all tasks of the source past
      the number reached, until one is not full. */
  ghost predicate StreamsAll(cfg: Config, w: World, clone: Id, src: Id, after: int, limit: nat, turns: seq<Turn>, next: World)
    decreases |turns|
  {
    && turns != [] && Reads(cfg, w, src, after, limit, turns[0])
    && if turns[0].page == [] then |turns| == 1 && next == turns[0].read
       else
         && Writes(cfg, turns[0], clone, after)
         && if |turns[0].page| < limit then |turns| == 1 && next == turns[0].filled
            else StreamsAll(cfg, turns[0].filled, clone, src, LastNumber(turns[0].read.db, turns[0].page), limit, turns[1..], next)
  }

  /** The number reached with a page. */
  function LastNumber(db: Db, page: seq<Id>): int {
    if page != [] && page[|page| - 1] in db.tasks then db.tasks[page[|page| - 1]].sequence else -1
  }

  // ---------------------------------------------------------------- what stays

  predicate Begun(db: Db, j: Id) {
    j in db.jobs && db.jobs[j].status != Pending
  }

  /** A job that is not PENDING any more gets no tasks, and becomes PENDING no more. */
  ghost predicate Kept(db: Db, next: Db, src: Id) {
    Persists(db, next) && TasksOf(next, src) == TasksOf(db, src) && Begun(next, src)
  }

  lemma ChangesKeep(db: Db, next: Db, touched: set<Id>, src: Id)
    requires Changes(db, next, touched) && Begun(db, src)
    ensures Kept(db, next, src)
  {
  }

  lemma KeptOn(db: Db, mid: Db, next: Db, src: Id)
    requires Kept(db, mid, src) && Kept(mid, next, src)
    ensures Kept(db, next, src)
  {
  }

  ghost predicate State(cfg: Config, w: World, clone: Id, src: Id) {
    LineageInv(cfg, w) && Begun(w.db, src) && clone in w.db.jobs && w.db.jobs[clone].parent == Some(src)
  }

  lemma RowsKept(cfg: Config, w: World, next: World, j: Id)
    requires Inv(cfg, w) && Begun(w.db, j) && MayReach(cfg, w, next)
    ensures Kept(w.db, next.db, j)
  {
    var es :| Leads(cfg, w, es, next);
    var inv := (s: World) => Inv(cfg, s) && Kept(w.db, s.db, j);
    forall s, e | inv(s) && Step(cfg)(s, e).Some?
      ensures inv(Step(cfg)(s, e).value)
    {
      StepKeeps(cfg, s, e);
      ChangesKeep(s.db, Apply(cfg, s, e).db, Touched(s, e), j);
      KeptOn(w.db, s.db, Apply(cfg, s, e).db, j);
    }
    Invariance(Step(cfg), inv, w, es);
  }

  lemma RunKept(cfg: Config, w: World, next: World, clone: Id, src: Id)
    requires State(cfg, w, clone, src) && MayReach(cfg, w, next)
    ensures State(cfg, next, clone, src) && Kept(w.db, next.db, src)
  {
    RowsKept(cfg, w, next, src);
    var es :| Leads(cfg, w, es, next);
    RunKeepsLineage(cfg, w, es);
  }

  // ---------------------------------------------------------------- what is covered

  predicate IsCopy(db: Db, clone: Id, u: Id, t: Id) {
    u in db.tasks && t in TasksOf(db, clone) && SameWork(db.tasks[t], db.tasks[u])
  }

  ghost predicate HasCopy(db: Db, clone: Id, u: Id) {
    exists t :: IsCopy(db, clone, u, t)
  }

  /** The source's tasks up to a number have their clones. */
  ghost predicate Covered(db: Db, clone: Id, src: Id, after: int) {
    forall u :: u in TasksOf(db, src) && db.tasks[u].sequence <= after ==> HasCopy(db, clone, u)
  }

  ghost predicate AllCovered(db: Db, clone: Id, src: Id) {
    forall u :: u in TasksOf(db, src) ==> HasCopy(db, clone, u)
  }

  lemma CopyStays(db: Db, next: Db, clone: Id, u: Id)
    requires Persists(db, next) && HasCopy(db, clone, u)
    ensures HasCopy(next, clone, u)
  {
    var t :| IsCopy(db, clone, u, t);
    assert IsCopy(next, clone, u, t);
  }

  lemma CoverStays(db: Db, next: Db, clone: Id, src: Id, after: int)
    requires Kept(db, next, src)
    ensures Covered(db, clone, src, after) ==> Covered(next, clone, src, after)
    ensures AllCovered(db, clone, src) ==> AllCovered(next, clone, src)
  {
    forall u | u in TasksOf(next, src) && HasCopy(db, clone, u)
      ensures HasCopy(next, clone, u)
    {
      CopyStays(db, next, clone, u);
    }
  }

  /** A full page takes every task up to its last number, one that is not full takes every task. */
  lemma PageTakes(db: Db, src: Id, after: int, limit: nat, page: seq<Id>, u: Id)
    requires IsTaskPage(db, src, {}, after, limit, page) && Numbered(db, src) && u in TasksOf(db, src) && db.tasks[u].sequence > after
    requires |page| < limit || (page != [] && db.tasks[u].sequence <= LastNumber(db, page))
    ensures u in page
  {
    var matching := MatchingAfter(db, src, {}, after);
    assert u in matching;
    if |page| < limit {
      DistinctSize(page);
      assert ToSet(page) <= matching;
      SubsetOfSameSize(ToSet(page), matching);
    }
  }

  /** The task on the page has its clone once the page is inserted. */
  lemma InsertedCopy(cfg: Config, turn: Turn, clone: Id, src: Id, after: int, u: Id)
    requires Fills(cfg, turn, clone, after) && clone in turn.ready.db.jobs && turn.ready.db.jobs[clone].parent == Some(src) && u in turn.page
    ensures HasCopy(turn.filled.db, clone, u)
  {
    var i :| 0 <= i < |turn.page| && turn.page[i] == u;
    assert turn.order[i] in turn.rows;
    assert IsCopy(turn.filled.db, clone, u, turn.order[i]);
  }

  /** One turn covers the tasks of its page. */
  lemma PageCovers(cfg: Config, turn: Turn, clone: Id, src: Id, after: int, limit: nat, u: Id)
    requires Kept(turn.read.db, turn.ready.db, src) && Numbered(turn.read.db, src) && Covered(turn.ready.db, clone, src, after)
    requires IsTaskPage(turn.read.db, src, {}, after, limit, turn.page) && turn.page != [] && Fills(cfg, turn, clone, after)
    requires clone in turn.ready.db.jobs && turn.ready.db.jobs[clone].parent == Some(src)
    requires Kept(turn.ready.db, turn.filled.db, src) && u in TasksOf(turn.read.db, src)
    requires |turn.page| < limit || turn.read.db.tasks[u].sequence <= LastNumber(turn.read.db, turn.page)
    ensures HasCopy(turn.filled.db, clone, u)
  {
    if turn.read.db.tasks[u].sequence <= after {
      CopyStays(turn.ready.db, turn.filled.db, clone, u);
    } else {
      PageTakes(turn.read.db, src, after, limit, turn.page, u);
      InsertedCopy(cfg, turn, clone, src, after, u);
    }
  }

  lemma TurnCovers(cfg: Config, w: World, turn: Turn, clone: Id, src: Id, after: int, limit: nat)
    requires State(cfg, w, clone, src) && Covered(w.db, clone, src, after)
    requires Reads(cfg, w, src, after, limit, turn) && Writes(cfg, turn, clone, after)
    ensures State(cfg, turn.filled, clone, src) && Covered(turn.filled.db, clone, src, LastNumber(turn.read.db, turn.page))
    ensures |turn.page| < limit ==> AllCovered(turn.filled.db, clone, src)
  {
    CoverOn(cfg, w, turn.read, clone, src, after);
    CoverOn(cfg, turn.read, turn.ready, clone, src, after);
    OneEvent(cfg, turn.ready, Insert(turn, after));
    ByRun(cfg, turn.ready, [Insert(turn, after)], turn.filled);
    RunKept(cfg, turn.ready, turn.filled, clone, src);
    forall u | u in TasksOf(turn.filled.db, src) && (|turn.page| < limit || turn.filled.db.tasks[u].sequence <= LastNumber(turn.read.db, turn.page))
      ensures HasCopy(turn.filled.db, clone, u)
    {
      PageCovers(cfg, turn, clone, src, after, limit, u);
    }
  }

  /** An empty page: everything was covered before. */
  lemma EmptyPageCovers(db: Db, clone: Id, src: Id, after: int, limit: nat)
    requires IsTaskPage(db, src, {}, after, limit, []) && limit >= 1 && Numbered(db, src) && Covered(db, clone, src, after)
    ensures AllCovered(db, clone, src)
  {
    forall u | u in TasksOf(db, src)
      ensures HasCopy(db, clone, u)
    {
      if db.tasks[u].sequence > after {
        PageTakes(db, src, after, limit, [], u);
      }
    }
  }

  lemma CoverOn(cfg: Config, w: World, next: World, clone: Id, src: Id, after: int)
    requires State(cfg, w, clone, src) && Covered(w.db, clone, src, after) && MayReach(cfg, w, next)
    ensures State(cfg, next, clone, src) && Kept(w.db, next.db, src) && Covered(next.db, clone, src, after) && Numbered(next.db, src)
  {
    RunKept(cfg, w, next, clone, src);
    CoverStays(w.db, next.db, clone, src, after);
  }

  lemma LastReadCovers(cfg: Config, w: World, turn: Turn, clone: Id, src: Id, after: int, limit: nat)
    requires State(cfg, w, clone, src) && Covered(w.db, clone, src, after) && limit >= 1
    requires Reads(cfg, w, src, after, limit, turn) && turn.page == []
    ensures State(cfg, turn.read, clone, src) && AllCovered(turn.read.db, clone, src)
  {
    CoverOn(cfg, w, turn.read, clone, src, after);
    EmptyPageCovers(turn.read.db, clone, src, after, limit);
  }

  ghost predicate Done(cfg: Config, w: World, clone: Id, src: Id) {
    State(cfg, w, clone, src) && AllCovered(w.db, clone, src)
  }

  /** What every turn keeps and the last one turns into the goal. */
  lemma {:induction false} LoopInduction(cfg: Config, inv: (World, int) -> bool, done: World -> bool, w: World, clone: Id, src: Id,
                                         after: int, limit: nat, turns: seq<Turn>, next: World)
    requires inv(w, after) && StreamsAll(cfg, w, clone, src, after, limit, turns, next)
    requires forall s, a, turn :: inv(s, a) && Reads(cfg, s, src, a, limit, turn) && turn.page == [] ==> done(turn.read)
    requires forall s, a, turn :: inv(s, a) && Reads(cfg, s, src, a, limit, turn) && Writes(cfg, turn, clone, a) ==>
               inv(turn.filled, LastNumber(turn.read.db, turn.page)) && (|turn.page| < limit ==> done(turn.filled))
    ensures done(next)
    decreases |turns|
  {
    if turns[0].page != [] && |turns[0].page| >= limit {
      LoopInduction(cfg, inv, done, turns[0].filled, clone, src, LastNumber(turns[0].read.db, turns[0].page), limit, turns[1..], next);
    }
  }

  lemma LoopCovers(cfg: Config, w: World, clone: Id, src: Id, after: int, limit: nat, turns: seq<Turn>, next: World)
    requires State(cfg, w, clone, src) && Covered(w.db, clone, src, after) && limit >= 1
    requires StreamsAll(cfg, w, clone, src, after, limit, turns, next)
    ensures Done(cfg, next, clone, src)
  {
    var inv := (s: World, a: int) => State(cfg, s, clone, src) && Covered(s.db, clone, src, a);
    var done := (s: World) => Done(cfg, s, clone, src);
    forall s, a, turn | inv(s, a) && Reads(cfg, s, src, a, limit, turn) && turn.page == []
      ensures done(turn.read)
    {
      LastReadCovers(cfg, s, turn, clone, src, a, limit);
    }
    forall s, a, turn | inv(s, a) && Reads(cfg, s, src, a, limit, turn) && Writes(cfg, turn, clone, a)
      ensures inv(turn.filled, LastNumber(turn.read.db, turn.page)) && (|turn.page| < limit ==> done(turn.filled))
    {
      TurnCovers(cfg, s, turn, clone, src, a, limit);
    }
    LoopInduction(cfg, inv, done, w, clone, src, after, limit, turns, next);
  }

  lemma NothingBelow(db: Db, clone: Id, src: Id)
    requires Numbered(db, src)
    ensures Covered(db, clone, src, -1)
  {
  }

  // ---------------------------------------------------------------- the theorem

  /** Each task of either job has exactly one counterpart in the other, which does the same work. */
  ghost predicate OneToOne(db: Db, clone: Id, src: Id) {
    && (forall u :: u in TasksOf(db, src) ==> HasCopy(db, clone, u))
    && (forall u, t, v :: u in TasksOf(db, src) && IsCopy(db, clone, u, t) && IsCopy(db, clone, u, v) ==> t == v)
    && (forall t :: t in TasksOf(db, clone) ==> HasSource(db, src, db.tasks[t]))
    && (forall t, u, v :: t in TasksOf(db, clone) && IsSource(db, src, db.tasks[t], u) && IsSource(db, src, db.tasks[t], v) ==> u == v)
    && |TasksOf(db, clone)| == |TasksOf(db, src)|
  }

  lemma SourceNumbers(db: Db, clone: Id, src: Id)
    requires AllCovered(db, clone, src)
    ensures NumbersOf(db, TasksOf(db, src)) <= NumbersOf(db, TasksOf(db, clone))
  {
    forall u | u in TasksOf(db, src)
      ensures db.tasks[u].sequence in NumbersOf(db, TasksOf(db, clone))
    {
      var t :| IsCopy(db, clone, u, t);
    }
  }

  lemma CloneNumbers(db: Db, clone: Id, src: Id)
    requires forall t :: t in TasksOf(db, clone) ==> HasSource(db, src, db.tasks[t])
    ensures NumbersOf(db, TasksOf(db, clone)) <= NumbersOf(db, TasksOf(db, src))
  {
    forall t | t in TasksOf(db, clone)
      ensures db.tasks[t].sequence in NumbersOf(db, TasksOf(db, src))
    {
      var u :| IsSource(db, src, db.tasks[t], u);
    }
  }

  lemma SameNumbers(db: Db, clone: Id, src: Id)
    requires Numbered(db, clone) && Numbered(db, src) && AllCovered(db, clone, src)
    requires forall t :: t in TasksOf(db, clone) ==> HasSource(db, src, db.tasks[t])
    ensures |TasksOf(db, clone)| == |TasksOf(db, src)|
  {
    SourceNumbers(db, clone, src);
    CloneNumbers(db, clone, src);
    assert NumbersOf(db, TasksOf(db, clone)) == NumbersOf(db, TasksOf(db, src));
    DistinctNumbersCount(db, TasksOf(db, clone));
    DistinctNumbersCount(db, TasksOf(db, src));
  }

  /** From any reachable state, with any other steps between the reads, inserts and publishes of the loop: once the streaming
      loop of a retry of all tasks is through, the clone's tasks and those of the finished job it was made from correspond
      one to one, and so they do for ever. */
  lemma FullRetryIsComplete(cfg: Config, w: World, clone: Id, src: Id, limit: nat, turns: seq<Turn>, next: World, later: World)
    requires Reachable(cfg, w) && src in w.db.jobs && !JobLive(w.db, src) && clone in w.db.jobs && w.db.jobs[clone].parent == Some(src)
    requires limit >= 1 && StreamsAll(cfg, w, clone, src, -1, limit, turns, next) && MayReach(cfg, next, later)
    ensures OneToOne(later.db, clone, src)
  {
    ReachableLineage(cfg, w);
    NothingBelow(w.db, clone, src);
    LoopCovers(cfg, w, clone, src, -1, limit, turns, next);
    RunKept(cfg, next, later, clone, src);
    CoverStays(next.db, later.db, clone, src, -1);
    assert Numbered(later.db, clone) && Numbered(later.db, src) && Descends(later.db, clone);
    SameNumbers(later.db, clone, src);
  }
  // ---------------------------------------------------------------- clones of interrupted retries

  lemma CountCovers(db: Db, clone: Id, src: Id, u: Id)
    requires Numbered(db, clone) && Numbered(db, src) && (forall t :: t in TasksOf(db, clone) ==> HasSource(db, src, db.tasks[t]))
    requires |TasksOf(db, clone)| == |TasksOf(db, src)| && u in TasksOf(db, src)
    ensures HasCopy(db, clone, u)
  {
    CloneNumbers(db, clone, src);
    DistinctNumbersCount(db, TasksOf(db, clone));
    DistinctNumbersCount(db, TasksOf(db, src));
    SubsetOfSameSize(NumbersOf(db, TasksOf(db, clone)), NumbersOf(db, TasksOf(db, src)));
    assert db.tasks[u].sequence in NumbersOf(db, TasksOf(db, src));
    var t :| t in TasksOf(db, clone) && db.tasks[t].sequence == db.tasks[u].sequence;
    var v :| IsSource(db, src, db.tasks[t], v);
    assert v == u;
    assert IsCopy(db, clone, u, t);
  }

  /** In every reachable state, a clone and the job it was made from correspond one to one if and only if they have as many
      tasks: a clone never holds anything else than clones of the job's tasks, each once. */
  lemma CompleteIffAsMany(cfg: Config, w: World, clone: Id, src: Id)
    requires Reachable(cfg, w) && clone in w.db.jobs && w.db.jobs[clone].parent == Some(src)
    ensures OneToOne(w.db, clone, src) <==> |TasksOf(w.db, clone)| == |TasksOf(w.db, src)|
  {
    ReachableLineage(cfg, w);
    assert Numbered(w.db, clone) && Numbered(w.db, src) && Descends(w.db, clone);
    if |TasksOf(w.db, clone)| == |TasksOf(w.db, src)| {
      forall u | u in TasksOf(w.db, src)
        ensures HasCopy(w.db, clone, u)
      {
        CountCovers(w.db, clone, src, u);
      }
    }
  }

  /** Once it is not PENDING any more, a clone is complete for ever or incomplete for ever. */
  lemma StartedCloneIsSettled(cfg: Config, w: World, clone: Id, src: Id, later: World)
    requires Reachable(cfg, w) && Begun(w.db, clone) && w.db.jobs[clone].parent == Some(src) && Begun(w.db, src) && MayReach(cfg, w, later)
    ensures TasksOf(later.db, clone) == TasksOf(w.db, clone) && TasksOf(later.db, src) == TasksOf(w.db, src)
    ensures OneToOne(later.db, clone, src) <==> OneToOne(w.db, clone, src)
  {
    ReachableInv(cfg, w);
    RowsKept(cfg, w, later, src);
    RowsKept(cfg, w, later, clone);
    CompleteIffAsMany(cfg, w, clone, src);
    StillReachable(cfg, w, later);
    CompleteIffAsMany(cfg, later, clone, src);
  }
}
