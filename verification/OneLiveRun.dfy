/** CancelPrevious: when triggers of a name run one after another and to their end, at most one run of it is live
    between them, whatever consumers, finalisers and cancellations do in the meantime. */
module OneLiveRun {
  import opened Options
  import opened Domain
  import opened Store
  import opened Runs
  import opened Protocol
  import opened Invariants
  import opened NoLostWork

  predicate CancelsPrevious(cfg: Config, name: string) {
    name in cfg && cfg[name].cancelPrevious
  }

  /** A trigger of the name is between creating its run and starting it. */
  predicate BeingTriggered(w: World, name: string) {
    exists p :: p in w.starters && w.starters[p].job in w.db.jobs && w.db.jobs[w.starters[p].job].name == name
  }

  /** Triggers do not crash, do not overlap for one name, and no job is retried. */
  predicate Tidy(w: World, e: Event) {
    match e
    case CrashStarter(_) => false
    case Open(_, _, job, _, _) => job.parent.None? && !BeingTriggered(w, job.name)
    case _ => true
  }

  ghost predicate Clearing(starters: map<nat, Starter>, j: Id) {
    exists p :: p in starters && starters[p].job == j && starters[p].mustClear
  }

  predicate LiveNamed(db: Db, name: string, j: Id) {
    JobLive(db, j) && db.jobs[j].name == name
  }

  /** Two live runs of one name: one of them is about to cancel the other. */
  ghost predicate PairOk(cfg: Config, db: Db, starters: map<nat, Starter>, name: string, j: Id, k: Id) {
    CancelsPrevious(cfg, name) && LiveNamed(db, name, j) && LiveNamed(db, name, k) && j != k ==> Clearing(starters, j) || Clearing(starters, k)
  }

  ghost predicate PairsOk(cfg: Config, db: Db, starters: map<nat, Starter>) {
    forall name, j, k :: PairOk(cfg, db, starters, name, j, k)
  }

  ghost predicate IsStarted(starters: map<nat, Starter>, j: Id) {
    exists p :: p in starters && starters[p].job == j
  }

  ghost predicate PendingStarted(db: Db, starters: map<nat, Starter>) {
    forall j :: j in db.jobs && db.jobs[j].status == Pending ==> IsStarted(starters, j)
  }

  /** Every PENDING run is being started, and no two of one name are. */
  ghost predicate TriggersOk(db: Db, starters: map<nat, Starter>) {
    && PendingStarted(db, starters)
    && (forall p, q :: p in starters && q in starters && p != q ==>
          starters[p].job in db.jobs && starters[q].job in db.jobs && db.jobs[starters[p].job].name != db.jobs[starters[q].job].name)
  }

  ghost predicate TidyInv(cfg: Config, w: World) {
    Inv(cfg, w) && TriggersOk(w.db, w.starters) && PairsOk(cfg, w.db, w.starters)
  }

  // ---------------------------------------------------------------- steps

  /** The same triggers, and no run becomes live or PENDING; a new run is over from the start. */
  ghost predicate Fades(w: World, next: World) {
    && next.starters.Keys == w.starters.Keys
    && (forall p :: p in w.starters ==> next.starters[p].job == w.starters[p].job && next.starters[p].mustClear == w.starters[p].mustClear)
    && (forall j :: j in next.db.jobs && j !in w.db.jobs ==> !IsLive(next.db.jobs[j].status))
    && (forall j :: j in w.db.jobs ==>
          && j in next.db.jobs && next.db.jobs[j].name == w.db.jobs[j].name && (IsLive(next.db.jobs[j].status) ==> IsLive(w.db.jobs[j].status))
          && (next.db.jobs[j].status == Pending ==> w.db.jobs[j].status == Pending))
  }

  lemma FadingKeeps(cfg: Config, w: World, next: World)
    requires TriggersOk(w.db, w.starters) && PairsOk(cfg, w.db, w.starters) && Fades(w, next)
    ensures TriggersOk(next.db, next.starters) && PairsOk(cfg, next.db, next.starters)
  {
    forall name, j, k
      ensures PairOk(cfg, next.db, next.starters, name, j, k)
    {
      assert PairOk(cfg, w.db, w.starters, name, j, k);
    }
  }

  lemma JobsOnlyFade(db: Db, next: Db, touched: set<Id>, j: Id)
    requires Changes(db, next, touched) && j in db.jobs
    ensures next.jobs[j].name == db.jobs[j].name && (IsLive(next.jobs[j].status) ==> IsLive(db.jobs[j].status))
    ensures next.jobs[j].status == Pending ==> db.jobs[j].status == Pending
  {
  }

  lemma ChangesFade(w: World, next: World, touched: set<Id>)
    requires Changes(w.db, next.db, touched) && next.starters.Keys == w.starters.Keys
    requires forall j :: j in next.db.jobs && j !in w.db.jobs ==> !IsLive(next.db.jobs[j].status)
    requires forall p :: p in w.starters ==> next.starters[p].job == w.starters[p].job && next.starters[p].mustClear == w.starters[p].mustClear
    ensures Fades(w, next)
  {
    forall j | j in w.db.jobs
      ensures next.db.jobs[j].name == w.db.jobs[j].name && (IsLive(next.db.jobs[j].status) ==> IsLive(w.db.jobs[j].status))
      ensures next.db.jobs[j].status == Pending ==> w.db.jobs[j].status == Pending
    {
      JobsOnlyFade(w.db, next.db, touched, j);
    }
  }

  lemma OpenIsTidy(cfg: Config, w: World, p: nat, j: Id, job: Job, rows: map<Id, Task>, order: seq<Id>)
    requires TidyInv(cfg, w) && CanOpen(cfg, w, p, j, job, rows, order) && job.parent.None? && !BeingTriggered(w, job.name)
    ensures var next := Opened(cfg, w, p, j, job, rows, order); TriggersOk(next.db, next.starters) && PairsOk(cfg, next.db, next.starters)
  {
    OpenTriggers(cfg, w, p, j, job, rows, order);
    var next := Opened(cfg, w, p, j, job, rows, order);
    forall name, a, b
      ensures PairOk(cfg, next.db, next.starters, name, a, b)
    {
      OpenPair(cfg, w, p, j, job, rows, order, name, a, b);
    }
  }

  lemma OpenTriggers(cfg: Config, w: World, p: nat, j: Id, job: Job, rows: map<Id, Task>, order: seq<Id>)
    requires StartersOk(w) && TriggersOk(w.db, w.starters) && CanOpen(cfg, w, p, j, job, rows, order) && !BeingTriggered(w, job.name)
    ensures var next := Opened(cfg, w, p, j, job, rows, order); TriggersOk(next.db, next.starters)
  {
    var next := Opened(cfg, w, p, j, job, rows, order);
    forall q | q in w.starters
      ensures q != p && w.starters[q].job in w.db.jobs && w.db.jobs[w.starters[q].job].name != job.name
      ensures next.starters[q] == w.starters[q] && next.db.jobs[w.starters[q].job] == w.db.jobs[w.starters[q].job]
    {
      assert StarterOk(w.db, w.starters[q]);
    }
    assert PendingStarted(next.db, next.starters) by {
      OpenPending(w.db, w.starters, p, j, job, rows, next.starters[p]);
    }
  }

  lemma OpenPending(db: Db, starters: map<nat, Starter>, p: nat, j: Id, job: Job, rows: map<Id, Task>, s: Starter)
    requires PendingStarted(db, starters) && p !in starters && s.job == j
    ensures PendingStarted(InsertJob(db, j, job, rows), starters[p := s])
  {
    assert starters[p := s][p].job == j;
    forall k | k != j && k in db.jobs && db.jobs[k].status == Pending
      ensures IsStarted(starters[p := s], k)
    {
      var q :| q in starters && starters[q].job == k;
      assert starters[p := s][q].job == k;
    }
  }

  lemma OpenPair(cfg: Config, w: World, p: nat, j: Id, job: Job, rows: map<Id, Task>, order: seq<Id>, name: string, a: Id, b: Id)
    requires CanOpen(cfg, w, p, j, job, rows, order) && job.parent.None? && PairOk(cfg, w.db, w.starters, name, a, b)
    ensures var next := Opened(cfg, w, p, j, job, rows, order); PairOk(cfg, next.db, next.starters, name, a, b)
  {
    var next := Opened(cfg, w, p, j, job, rows, order);
    if CancelsPrevious(cfg, name) && LiveNamed(next.db, name, a) && LiveNamed(next.db, name, b) && a != b {
      if a == j || b == j {
        assert next.starters[p].job == j && next.starters[p].mustClear;
      } else {
        ClearingStays(w.starters, next.starters, a, b);
      }
    }
  }

  lemma ClearingStays(starters: map<nat, Starter>, next: map<nat, Starter>, a: Id, b: Id)
    requires Clearing(starters, a) || Clearing(starters, b)
    requires forall p :: p in starters && (starters[p].job == a || starters[p].job == b) ==> p in next && next[p] == starters[p]
    ensures Clearing(next, a) || Clearing(next, b)
  {
    var p :| p in starters && (starters[p].job == a || starters[p].job == b) && starters[p].mustClear;
    assert p in next && next[p] == starters[p];
  }

  /** A trigger ends: its run is started or failed. */
  lemma LeavingIsTidy(cfg: Config, w: World, p: nat, status: Status, next: World)
    requires TidyInv(cfg, w) && p in w.starters && next.starters == w.starters - {p}
    requires next.db == SetJobStatus(w.db, w.starters[p].job, status) && (status == Failed || (status == Running && !w.starters[p].mustClear))
    ensures TriggersOk(next.db, next.starters) && PairsOk(cfg, next.db, next.starters)
  {
    var j := w.starters[p].job;
    assert StarterOk(w.db, w.starters[p]);
    assert TriggersOk(next.db, next.starters) by {
      forall k | k in next.db.jobs && next.db.jobs[k].status == Pending
        ensures IsStarted(next.starters, k)
      {
        var q :| q in w.starters && w.starters[q].job == k;
        assert q in next.starters;
      }
    }
    forall name, a, b
      ensures PairOk(cfg, next.db, next.starters, name, a, b)
    {
      LeavingPair(cfg, w, p, status, next, name, a, b);
    }
  }

  lemma LeavingPair(cfg: Config, w: World, p: nat, status: Status, next: World, name: string, a: Id, b: Id)
    requires StartersOk(w) && PairOk(cfg, w.db, w.starters, name, a, b)
    requires p in w.starters && StarterOk(w.db, w.starters[p]) && next.starters == w.starters - {p}
    requires next.db == SetJobStatus(w.db, w.starters[p].job, status) && (status == Failed || (status == Running && !w.starters[p].mustClear))
    ensures PairOk(cfg, next.db, next.starters, name, a, b)
  {
    if CancelsPrevious(cfg, name) && LiveNamed(next.db, name, a) && LiveNamed(next.db, name, b) && a != b {
      var q :| q in w.starters && (w.starters[q].job == a || w.starters[q].job == b) && w.starters[q].mustClear;
      assert q != p;
      assert q in next.starters && next.starters[q] == w.starters[q];
    }
  }

  /** The run being triggered is the only one of its name left. */
  lemma ClearedPair(cfg: Config, w: World, p: nat, name: string, a: Id, b: Id)
    requires CanClear(w, p) && PairOk(cfg, w.db, w.starters, name, a, b) && w.starters[p].job in w.db.jobs
    ensures var next := Cleared(w, p); PairOk(cfg, next.db, next.starters, name, a, b)
  {
    var next := Cleared(w, p);
    if CancelsPrevious(cfg, name) && LiveNamed(next.db, name, a) && LiveNamed(next.db, name, b) && a != b {
      assert name != w.db.jobs[w.starters[p].job].name;
      ClearingStays(w.starters, next.starters, a, b);
    }
  }

  lemma ClearedTriggers(w: World, p: nat)
    requires TriggersOk(w.db, w.starters) && CanClear(w, p)
    ensures TriggersOk(Cleared(w, p).db, Cleared(w, p).starters)
  {
    var next := Cleared(w, p);
    forall k | k in next.db.jobs && next.db.jobs[k].status == Pending
      ensures IsStarted(next.starters, k)
    {
      var q :| q in w.starters && w.starters[q].job == k;
      assert q in next.starters && next.starters[q].job == k;
    }
  }

  lemma ClearIsTidy(cfg: Config, w: World, p: nat)
    requires TidyInv(cfg, w) && CanClear(w, p)
    ensures var next := Cleared(w, p); TriggersOk(next.db, next.starters) && PairsOk(cfg, next.db, next.starters)
  {
    var next := Cleared(w, p);
    ClearedTriggers(w, p);
    forall name, a, b
      ensures PairOk(cfg, next.db, next.starters, name, a, b)
    {
      assert PairOk(cfg, w.db, w.starters, name, a, b);
      ClearedPair(cfg, w, p, name, a, b);
    }
  }

  /** The steps that neither begin nor end a trigger. */
  predicate IsAside(e: Event) {
    !e.Open? && !e.PublishFailed? && !e.Start? && !e.ClearPrevious? && !e.CrashStarter? && !e.Resume?
  }

  ghost predicate SameTriggers(w: World, next: World) {
    && next.starters.Keys == w.starters.Keys
    && (forall p :: p in w.starters ==> next.starters[p].job == w.starters[p].job && next.starters[p].mustClear == w.starters[p].mustClear)
    && (forall j :: j in next.db.jobs && j !in w.db.jobs ==> !IsLive(next.db.jobs[j].status))
  }

  lemma DeliveriesAside(cfg: Config, w: World, e: Event)
    requires CanStep(cfg, w, e) && IsDelivery(e)
    ensures SameTriggers(w, Apply(cfg, w, e))
  {
  }

  lemma PublishAside(w: World, p: nat, into: nat)
    requires CanPublish(w, p, into)
    ensures SameTriggers(w, Published(w, p, into))
  {
  }

  lemma AddRowsAside(w: World, p: nat, rows: map<Id, Task>, order: seq<Id>)
    requires CanAddRows(w, p, rows, order)
    ensures SameTriggers(w, RowsAdded(w, p, rows, order))
  {
  }

  lemma OpenSettledAside(cfg: Config, w: World, j: Id, job: Job, rows: map<Id, Task>)
    requires CanOpenSettled(cfg, w, j, job, rows)
    ensures SameTriggers(w, OpenedSettled(cfg, w, j, job, rows))
  {
  }

  lemma CreationsAside(cfg: Config, w: World, e: Event)
    requires CanStep(cfg, w, e) && IsCreation(e) && IsAside(e)
    ensures SameTriggers(w, Apply(cfg, w, e))
  {
    match e
    case Publish(p, into) => PublishAside(w, p, into);
    case AddRows(p, rows, order, _, _) => AddRowsAside(w, p, rows, order);
    case OpenSettled(j, job, rows, _) => OpenSettledAside(cfg, w, j, job, rows);
    case Republish(t, into) =>
  }

  lemma RestAside(cfg: Config, w: World, e: Event)
    requires CanStep(cfg, w, e) && !IsDelivery(e) && !IsCreation(e) && IsAside(e)
    ensures SameTriggers(w, Apply(cfg, w, e))
  {
  }

  lemma AsideIsTidy(cfg: Config, w: World, e: Event, next: World)
    requires TidyInv(cfg, w) && CanStep(cfg, w, e) && IsAside(e) && next == Apply(cfg, w, e) && Changes(w.db, next.db, Touched(w, e))
    ensures TriggersOk(next.db, next.starters) && PairsOk(cfg, next.db, next.starters)
  {
    if IsDelivery(e) {
      DeliveriesAside(cfg, w, e);
    } else if IsCreation(e) {
      CreationsAside(cfg, w, e);
    } else {
      RestAside(cfg, w, e);
    }
    ChangesFade(w, next, Touched(w, e));
    FadingKeeps(cfg, w, next);
  }

  /** A PENDING run always has its trigger, so there is none to take over. */
  lemma NothingToResume(cfg: Config, w: World, p: nat, j: Id, order: seq<Id>)
    requires TidyInv(cfg, w) && NotStarting(w, j)
    ensures !CanResume(w, p, j, order)
  {
  }

  lemma TriggerIsTidy(cfg: Config, w: World, e: Event)
    requires TidyInv(cfg, w) && CanStep(cfg, w, e) && Tidy(w, e) && !IsAside(e)
    ensures var next := Apply(cfg, w, e); TriggersOk(next.db, next.starters) && PairsOk(cfg, next.db, next.starters)
  {
    match e
    case Open(p, j, job, rows, order) => OpenIsTidy(cfg, w, p, j, job, rows, order);
    case Resume(p, j, order, _) => NothingToResume(cfg, w, p, j, order);
    case PublishFailed(p) => LeavingIsTidy(cfg, w, p, Failed, Abandoned(w, p));
    case Start(p) => LeavingIsTidy(cfg, w, p, Running, JobStarted(w, p));
    case ClearPrevious(p) => ClearIsTidy(cfg, w, p);
  }

  lemma StepIsTidy(cfg: Config, w: World, e: Event)
    requires TidyInv(cfg, w) && CanStep(cfg, w, e) && Tidy(w, e)
    ensures TidyInv(cfg, Apply(cfg, w, e))
  {
    StepKeeps(cfg, w, e);
    if IsAside(e) {
      AsideIsTidy(cfg, w, e, Apply(cfg, w, e));
    } else {
      TriggerIsTidy(cfg, w, e);
    }
  }

  // ---------------------------------------------------------------- over whole runs

  ghost function TidyStep(cfg: Config): (World, Event) -> Option<World> {
    (w: World, e: Event) => if CanStep(cfg, w, e) && Tidy(w, e) then Some(Apply(cfg, w, e)) else None
  }

  ghost predicate TidilyReachable(cfg: Config, w: World) {
    exists init: World, es: seq<Event> ::
      IsInitial(init) && CanRun(TidyStep(cfg), init, es) && After(TidyStep(cfg), init, es) == w
  }

  lemma TidyRunKeeps(cfg: Config, w: World, es: seq<Event>)
    requires TidyInv(cfg, w) && CanRun(TidyStep(cfg), w, es)
    ensures TidyInv(cfg, After(TidyStep(cfg), w, es))
  {
    var inv := (s: World) => TidyInv(cfg, s);
    forall s, e | inv(s) && TidyStep(cfg)(s, e).Some?
      ensures inv(TidyStep(cfg)(s, e).value)
    {
      StepIsTidy(cfg, s, e);
    }
    Invariance(TidyStep(cfg), inv, w, es);
  }

  lemma InitiallyTidy(cfg: Config, init: World)
    requires IsInitial(init)
    ensures TidyInv(cfg, init)
  {
  }

  lemma TidilyReachableInv(cfg: Config, w: World)
    requires TidilyReachable(cfg, w)
    ensures TidyInv(cfg, w)
  {
    var init: World, es: seq<Event> :| IsInitial(init) && CanRun(TidyStep(cfg), init, es) && After(TidyStep(cfg), init, es) == w;
    InitiallyTidy(cfg, init);
    TidyRunKeeps(cfg, init, es);
  }

  /** Between the triggers of a name that cancels previous runs, at most one of its runs is PENDING or RUNNING. */
  lemma AtMostOneLiveRun(cfg: Config, w: World, name: string, j: Id, k: Id)
    requires TidilyReachable(cfg, w) && CancelsPrevious(cfg, name) && !BeingTriggered(w, name)
    requires LiveNamed(w.db, name, j) && LiveNamed(w.db, name, k)
    ensures j == k
  {
    TidilyReachableInv(cfg, w);
    assert PairOk(cfg, w.db, w.starters, name, j, k);
    NotBeingTriggered(w, name, j);
    NotBeingTriggered(w, name, k);
  }

  lemma NotBeingTriggered(w: World, name: string, j: Id)
    requires !BeingTriggered(w, name) && LiveNamed(w.db, name, j)
    ensures !Clearing(w.starters, j)
  {
  }
}
