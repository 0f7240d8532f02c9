/** Finalisation under interleaving: each job is finalised at most once, and its hook fires once for it. */
module ExactlyOnce {
  import opened Options
  import opened Domain
  import opened Store
  import opened Finalizer
  import opened Runs
  import opened Protocol
  import opened Invariants

  predicate IsFinaliserStep(e: Event) {
    e.ReadJob? || e.ReadSummary? || e.Cas? || e.FireHook? || e.CrashFinaliser?
  }

  /** Hooks fired or lost to a crash for a job. */
  function Told(h: History, j: Id): nat {
    Count(h.hooks, j) + Count(h.lostHooks, j)
  }

  ghost predicate HasWinner(fins: map<nat, Finaliser>, j: Id) {
    exists f :: f in fins && fins[f].Won? && fins[f].job == j
  }

  ghost predicate WinsOk(jobs: map<Id, Job>, h: History) {
    && (forall j :: Count(h.wins, j) <= 1)
    && (forall j :: Count(h.wins, j) == 1 ==> j in jobs && jobs[j].status in {Completed, Failed, PartialFailed})
    && (forall j :: j in jobs && jobs[j].status in {Completed, PartialFailed} ==> Count(h.wins, j) == 1)
  }

  ghost predicate HooksOk(fins: map<nat, Finaliser>, h: History) {
    && (forall f :: f in fins && fins[f].Won? ==> Count(h.wins, fins[f].job) == 1 && Told(h, fins[f].job) == 0)
    && (forall f, g :: f in fins && g in fins && fins[f].Won? && fins[g].Won? && f != g ==> fins[f].job != fins[g].job)
    && (forall j :: !HasWinner(fins, j) ==> Told(h, j) == Count(h.wins, j))
  }

  /** A finaliser works on a job that has been RUNNING; a winner still holds the status it wrote. */
  ghost predicate TargetsOk(jobs: map<Id, Job>, fins: map<nat, Finaliser>) {
    forall f :: f in fins ==> TargetOk(jobs, fins[f])
  }

  predicate TargetOk(jobs: map<Id, Job>, fin: Finaliser) {
    fin.job in jobs && jobs[fin.job].status != Pending && (fin.Won? ==> jobs[fin.job].status == fin.status)
  }

  ghost predicate FinInv(w: World) {
    WinsOk(w.db.jobs, w.history) && HooksOk(w.finalisers, w.history) && TargetsOk(w.db.jobs, w.finalisers)
  }

  /** The finalisers and their records are as they were, and nobody new is COMPLETED or PARTIAL_FAILED. */
  ghost predicate RecordsKept(w: World, next: World) {
    && next.finalisers == w.finalisers && next.history.wins == w.history.wins
    && next.history.hooks == w.history.hooks && next.history.lostHooks == w.history.lostHooks
    && forall j :: j in next.db.jobs && next.db.jobs[j].status in {Completed, PartialFailed} ==> j in w.db.jobs && next.db.jobs[j] == w.db.jobs[j]
  }

  lemma WorkKeepsRecords(w: World, l: nat, work: WorkStep)
    requires l in w.logs && CanWork(w.logs[l].phase, work)
    ensures RecordsKept(w, Worked(w, l, work))
  {
  }

  lemma DeliveriesKeepRecords(cfg: Config, w: World, e: Event)
    requires CanStep(cfg, w, e) && IsDelivery(e)
    ensures RecordsKept(w, Apply(cfg, w, e))
  {
    if e.Work? {
      WorkKeepsRecords(w, e.l, e.work);
    }
  }

  lemma CreationsKeepRecords(cfg: Config, w: World, e: Event)
    requires CanStep(cfg, w, e) && IsCreation(e)
    ensures RecordsKept(w, Apply(cfg, w, e))
  {
  }

  lemma ClearKeepsRecords(w: World, p: nat)
    requires CanClear(w, p)
    ensures RecordsKept(w, Cleared(w, p))
  {
  }

  lemma EndingsKeepRecords(cfg: Config, w: World, e: Event)
    requires CanStep(cfg, w, e) && !IsFinaliserStep(e) && !IsDelivery(e) && !IsCreation(e)
    ensures RecordsKept(w, Apply(cfg, w, e))
  {
    if e.ClearPrevious? {
      ClearKeepsRecords(w, e.p);
    }
  }

  lemma RecordsKeepInv(w: World, next: World, touched: set<Id>)
    requires FinInv(w) && RecordsKept(w, next) && Changes(w.db, next.db, touched)
    ensures FinInv(next)
  {
    forall j | j in w.db.jobs
      ensures w.db.jobs[j].status != Pending ==> next.db.jobs[j].status != Pending
      ensures !JobLive(w.db, j) ==> next.db.jobs[j] == w.db.jobs[j]
    {
      LiveBefore(w.db, next.db, touched, j);
    }
    assert WinsOk(next.db.jobs, next.history);
    forall f | f in w.finalisers
      ensures TargetOk(next.db.jobs, w.finalisers[f])
    {
      assert TargetOk(w.db.jobs, w.finalisers[f]);
    }
  }

  lemma WinOk(jobs: map<Id, Job>, h: History, j: Id, status: Status)
    requires WinsOk(jobs, h) && j in jobs && jobs[j].status == Running && status in {Completed, Failed, PartialFailed}
    ensures Count(h.wins, j) == 0
    ensures WinsOk(jobs[j := jobs[j].(status := status)], h.(wins := Bump(h.wins, j)))
  {
    assert Count(h.wins, j) == 0;
    assert Count(Bump(h.wins, j), j) == 1;
    assert forall k :: k != j ==> Count(Bump(h.wins, j), k) == Count(h.wins, k);
  }

  lemma WinnerOk(fins: map<nat, Finaliser>, h: History, f: nat, j: Id, status: Status)
    requires HooksOk(fins, h) && f in fins && fins[f].Resolved? && Count(h.wins, j) == 0
    ensures HooksOk(fins[f := Won(j, status)], h.(wins := Bump(h.wins, j)))
  {
    var next := fins[f := Won(j, status)];
    assert !HasWinner(fins, j);
    assert next[f].Won? && HasWinner(next, j);
    forall k | k != j && HasWinner(fins, k)
      ensures HasWinner(next, k)
    {
      WinnerSurvives(fins, next, f, k);
    }
  }

  lemma WinnerSurvives(fins: map<nat, Finaliser>, next: map<nat, Finaliser>, f: nat, j: Id)
    requires HasWinner(fins, j) && (forall g :: g in fins && g != f ==> g in next && next[g] == fins[g])
    requires f in fins && fins[f].Won? ==> fins[f].job != j
    ensures HasWinner(next, j)
  {
    var g :| g in fins && fins[g].Won? && fins[g].job == j;
    assert g in next && next[g] == fins[g];
  }

  lemma CasKeepsInv(w: World, f: nat)
    requires FinInv(w) && FinalisersOk(w) && f in w.finalisers && w.finalisers[f].Resolved?
    ensures FinInv(CasTried(w, f))
  {
    var fin := w.finalisers[f];
    if JobRunning(w.db, fin.job) {
      WinOk(w.db.jobs, w.history, fin.job, fin.status);
      WinnerOk(w.finalisers, w.history, f, fin.job, fin.status);
      forall g | g in w.finalisers && g != f
        ensures TargetOk(CasTried(w, f).db.jobs, w.finalisers[g])
      {
        assert TargetOk(w.db.jobs, w.finalisers[g]);
      }
    } else {
      LoserOk(w.finalisers, w.history, f, None);
    }
  }

  /** A finaliser that has won nothing goes away, or moves on without winning. */
  lemma LoserOk(fins: map<nat, Finaliser>, h: History, f: nat, fin: Option<Finaliser>)
    requires HooksOk(fins, h) && (f in fins ==> !fins[f].Won?) && (fin.Some? ==> !fin.value.Won?)
    ensures HooksOk(if fin.Some? then fins[f := fin.value] else fins - {f}, h)
  {
    forall k | HasWinner(fins, k)
      ensures HasWinner(if fin.Some? then fins[f := fin.value] else fins - {f}, k)
    {
      WinnerSurvives(fins, if fin.Some? then fins[f := fin.value] else fins - {f}, f, k);
    }
  }

  /** The winner leaves, its hook fired or lost. */
  lemma WinnerLeaves(fins: map<nat, Finaliser>, h: History, f: nat, next: History)
    requires HooksOk(fins, h) && f in fins && fins[f].Won? && next.wins == h.wins
    requires forall k :: Told(next, k) == Told(h, k) + (if k == fins[f].job then 1 else 0)
    ensures HooksOk(fins - {f}, next)
  {
    forall k | k != fins[f].job && HasWinner(fins, k)
      ensures HasWinner(fins - {f}, k)
    {
      WinnerSurvives(fins, fins - {f}, f, k);
    }
  }

  ghost predicate FullInv(cfg: Config, w: World) {
    Inv(cfg, w) && FinInv(w)
  }

  lemma SummaryKeepsInv(w: World, f: nat)
    requires FinInv(w) && f in w.finalisers && w.finalisers[f].Seen?
    ensures FinInv(SummaryRead(w, f))
  {
    var j := w.finalisers[f].job;
    var outcome := ResolveSummary(Summarise(w.db, j));
    LoserOk(w.finalisers, w.history, f, if outcome.None? then None else Some(Resolved(j, outcome.value)));
  }

  lemma EndKeepsInv(w: World, f: nat)
    requires FinInv(w) && f in w.finalisers
    ensures w.finalisers[f].Won? ==> FinInv(HookFired(w, f))
    ensures FinInv(CrashedFinaliser(w, f))
  {
    if w.finalisers[f].Won? {
      WinnerLeaves(w.finalisers, w.history, f, HookFired(w, f).history);
      WinnerLeaves(w.finalisers, w.history, f, CrashedFinaliser(w, f).history);
    } else {
      LoserOk(w.finalisers, w.history, f, None);
    }
  }

  lemma FinaliserEndKeepsInv(cfg: Config, w: World, e: Event)
    requires FinInv(w) && CanStep(cfg, w, e) && (e.FireHook? || e.CrashFinaliser?)
    ensures FinInv(Apply(cfg, w, e))
  {
    EndKeepsInv(w, e.f);
  }

  lemma FinaliserStepKeepsInv(cfg: Config, w: World, e: Event)
    requires FullInv(cfg, w) && CanStep(cfg, w, e) && IsFinaliserStep(e)
    ensures FinInv(Apply(cfg, w, e))
  {
    if e.ReadJob? {
      LoserOk(w.finalisers, w.history, e.f, Some(Seen(e.j)));
    } else if e.ReadSummary? {
      SummaryKeepsInv(w, e.f);
    } else if e.Cas? {
      CasKeepsInv(w, e.f);
    } else {
      FinaliserEndKeepsInv(cfg, w, e);
    }
  }

  lemma StepKeepsFull(cfg: Config, w: World, e: Event)
    requires FullInv(cfg, w) && CanStep(cfg, w, e)
    ensures FullInv(cfg, Apply(cfg, w, e))
  {
    StepKeeps(cfg, w, e);
    if IsFinaliserStep(e) {
      FinaliserStepKeepsInv(cfg, w, e);
    } else {
      if IsDelivery(e) {
        DeliveriesKeepRecords(cfg, w, e);
      } else if IsCreation(e) {
        CreationsKeepRecords(cfg, w, e);
      } else {
        EndingsKeepRecords(cfg, w, e);
      }
      RecordsKeepInv(w, Apply(cfg, w, e), Touched(w, e));
    }
  }

  lemma ReachableFull(cfg: Config, w: World)
    requires Reachable(cfg, w)
    ensures FullInv(cfg, w)
  {
    var init: World, es: seq<Event> :| IsInitial(init) && CanRun(Step(cfg), init, es) && After(Step(cfg), init, es) == w;
    InitialFull(cfg, init);
    RunKeepsFull(cfg, init, es);
  }

  lemma InitialFull(cfg: Config, init: World)
    requires IsInitial(init)
    ensures FullInv(cfg, init)
  {
  }

  lemma RunKeepsFull(cfg: Config, w: World, es: seq<Event>)
    requires FullInv(cfg, w) && CanRun(Step(cfg), w, es)
    ensures FullInv(cfg, After(Step(cfg), w, es))
  {
    var inv := (s: World) => FullInv(cfg, s);
    forall s, e | inv(s) && Step(cfg)(s, e).Some?
      ensures inv(Step(cfg)(s, e).value)
    {
      StepKeepsFull(cfg, s, e);
    }
    Invariance(Step(cfg), inv, w, es);
  }

  // ---------------------------------------------------------------- exactly once

  /** In every reachable state, over any number of finalisers, triggers, consumers, crashes and cancellations:
      a job is won at most once; a won job carries a finaliser's status, and COMPLETED and PARTIAL_FAILED come from
      nowhere else; the hook fires at most once per win, exactly once when no finaliser crashed between the two. */
  lemma FinalisedExactlyOnce(cfg: Config, w: World, j: Id)
    requires Reachable(cfg, w)
    ensures var wins, hooks := Count(w.history.wins, j), Count(w.history.hooks, j);
      && hooks <= wins <= 1
      && (wins == 1 ==> j in w.db.jobs && w.db.jobs[j].status in {Completed, Failed, PartialFailed})
      && (j in w.db.jobs && w.db.jobs[j].status in {Completed, PartialFailed} ==> wins == 1)
      && (!HasWinner(w.finalisers, j) && Count(w.history.lostHooks, j) == 0 ==> hooks == wins)
  {
    ReachableFull(cfg, w);
    if HasWinner(w.finalisers, j) {
      assert Told(w.history, j) == 0;
    }
  }

  /** From the win on, the job keeps the status the winner wrote, along every run. */
  lemma WonStatusStays(cfg: Config, w: World, f: nat, es: seq<Event>)
    requires Reachable(cfg, w) && f in w.finalisers && w.finalisers[f].Won? && CanRun(Step(cfg), w, es)
    ensures var fin, later := w.finalisers[f], After(Step(cfg), w, es);
      fin.job in later.db.jobs && later.db.jobs[fin.job].status == fin.status && Count(later.history.wins, fin.job) == 1
  {
    ReachableFull(cfg, w);
    var fin := w.finalisers[f];
    var inv := (s: World) => FullInv(cfg, s) && fin.job in s.db.jobs && s.db.jobs[fin.job].status == fin.status
                             && Count(s.history.wins, fin.job) == 1;
    assert TargetOk(w.db.jobs, fin);
    forall s, e | inv(s) && Step(cfg)(s, e).Some?
      ensures inv(Step(cfg)(s, e).value)
    {
      StepKeepsWins(cfg, s, e);
      WinStays(cfg, s, Apply(cfg, s, e), fin.job);
    }
    Invariance(Step(cfg), inv, w, es);
  }

  /** A step as far as wins go. */
  ghost predicate KeepsWins(cfg: Config, w: World, next: World) {
    && FullInv(cfg, w) && FullInv(cfg, next)
    && (forall j :: Count(next.history.wins, j) >= Count(w.history.wins, j))
    && (forall j :: j in w.db.jobs && !IsLive(w.db.jobs[j].status) ==> j in next.db.jobs && next.db.jobs[j] == w.db.jobs[j])
  }

  lemma OverStaysOver(db: Db, next: Db, touched: set<Id>)
    requires Changes(db, next, touched)
    ensures forall j :: j in db.jobs && !IsLive(db.jobs[j].status) ==> j in next.jobs && next.jobs[j] == db.jobs[j]
  {
    forall j | j in db.jobs && !IsLive(db.jobs[j].status)
      ensures j in next.jobs && next.jobs[j] == db.jobs[j]
    {
      LiveBefore(db, next, touched, j);
    }
  }

  lemma StepKeepsWins(cfg: Config, w: World, e: Event)
    requires FullInv(cfg, w) && CanStep(cfg, w, e)
    ensures KeepsWins(cfg, w, Apply(cfg, w, e))
  {
    StepKeepsFull(cfg, w, e);
    forall j
      ensures Count(Apply(cfg, w, e).history.wins, j) >= Count(w.history.wins, j)
    {
      WinsGrow(cfg, w, e, j);
    }
    StepKeeps(cfg, w, e);
    OverStaysOver(w.db, Apply(cfg, w, e).db, Touched(w, e));
  }

  /** A job that is won stays won, with its status. */
  lemma WinStays(cfg: Config, w: World, next: World, j: Id)
    requires KeepsWins(cfg, w, next) && Count(w.history.wins, j) == 1
    ensures Count(next.history.wins, j) == 1 && j in w.db.jobs && j in next.db.jobs && next.db.jobs[j].status == w.db.jobs[j].status
  {
  }

  lemma WinsGrow(cfg: Config, w: World, e: Event, j: Id)
    requires CanStep(cfg, w, e)
    ensures Count(Apply(cfg, w, e).history.wins, j) >= Count(w.history.wins, j)
  {
    if !IsFinaliserStep(e) {
      if IsDelivery(e) {
        DeliveriesKeepRecords(cfg, w, e);
      } else if IsCreation(e) {
        CreationsKeepRecords(cfg, w, e);
      } else {
        EndingsKeepRecords(cfg, w, e);
      }
    }
  }
}
