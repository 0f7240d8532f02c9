/** The consumer loop (internal/transport/consumer.go): fetch a message, process it, commit it unless it failed. */
module Consumer {
  import opened Options
  import opened Domain
  import opened Store
  import opened Runs
  import opened Protocol
  import opened TaskExecutor

  /** What happens around one message: its processing, and whether the commit goes through. */
  datatype Fetch = Fetch(around: Surroundings, commitOk: bool)

  /** The committed offset after the messages from `start` on, of which the marked ones were committed. */
  function CommittedAfter(start: nat, committed: nat, marks: seq<bool>): nat {
    if marks == [] then committed
    else if marks[|marks| - 1] then start + |marks|
    else CommittedAfter(start, committed, marks[..|marks| - 1])
  }

  /** The commit of a message passes over every message before it, processed or failed; nothing else does. */
  lemma {:induction false} CommitPassesOver(start: nat, committed: nat, marks: seq<bool>, i: nat)
    requires committed <= start && i < |marks|
    ensures CommittedAfter(start, committed, marks) > start + i <==> exists k :: i <= k < |marks| && marks[k]
    ensures committed <= CommittedAfter(start, committed, marks) <= start + |marks|
  {
    var last := |marks| - 1;
    if !marks[last] {
      var shorter := marks[..last];
      if i < last {
        CommitPassesOver(start, committed, shorter, i);
        if k :| i <= k < |marks| && marks[k] {
          assert shorter[k];
        }
      } else if last > 0 {
        CommitPassesOver(start, committed, shorter, last - 1);
      }
    }
  }

  /** Nobody is in the middle of a message. */
  ghost predicate Resting(w: World) {
    forall l :: l in w.logs ==> w.logs[l].phase.Idle?
  }

  /** Routes lead to existing partitions. */
  predicate Routable(partitions: map<nat, Partition>, fetches: seq<Fetch>) {
    forall i :: 0 <= i < |fetches| && fetches[i].around.route.Some? ==> fetches[i].around.route.value in partitions
  }

  lemma MoveShows(cfg: Config, w: World, l: nat, commit: bool)
    requires CanAdvance(w, l, commit)
    ensures Leads(cfg, w, [Next(l, commit)], Advanced(w, l, commit))
    ensures Offsets(Advanced(w, l, commit).logs) == MovedPast(Offsets(w.logs), l, commit)
  {
    OneStep(Step(cfg), w, Next(l, commit));
  }

  lemma SendingKeepsPlace(logs: map<nat, Log>, next: map<nat, Log>, l: nat, t: Id, into: Option<nat>)
    requires l in logs && l in next && Offsets(next) == Sent(Offsets(logs), t, into) && logs[l].pos < |logs[l].messages|
    ensures next[l].pos < |next[l].messages|
  {
    assert Offsets(next)[l] == Partition(next[l].messages, next[l].pos, next[l].committed);
  }

  /** Whether a message is committed. */
  predicate Commits(cfg: Config, db: Db, t: Id, fetch: Fetch) {
    !Fails(cfg, db, t, fetch.around.call) && fetch.commitOk
  }

  /** What one turn of the loop leaves behind. */
  ghost predicate Processed(cfg: Config, w: World, l: nat, t: Id, fetch: Fetch, next: World) {
    && next.db == Delivered(cfg, w.db, t, fetch.around.call)
    && next.dlq == w.dlq + (if DeadLettered(cfg, w.db, t, fetch.around) then [t] else [])
    && Offsets(next.logs) == MovedPast(Sent(Offsets(w.logs), t, RetryRoute(cfg, w.db, t, fetch.around)), l, Commits(cfg, w.db, t, fetch))
  }

  /** A delivery and the move past it, as a run. */
  lemma MessageIsARun(cfg: Config, w: World, l: nat, t: Id, fetch: Fetch) returns (next: World)
    requires Resting(w) && Deliverable(cfg, w, l, t, fetch.around)
    ensures MayReach(cfg, w, next) && Resting(next) && Processed(cfg, w, l, t, fetch, next) && next.logs.Keys == w.logs.Keys
  {
    DeliveryIsARun(cfg, w, l, t, fetch.around);
    var es, mid :| Leads(cfg, w, es, mid) && Ends(cfg, w, l, t, fetch.around, mid);
    var commit := Commits(cfg, w.db, t, fetch);
    SendingKeepsPlace(w.logs, mid.logs, l, t, RetryRoute(cfg, w.db, t, fetch.around));
    next := Advanced(mid, l, commit);
    MoveShows(cfg, mid, l, commit);
    Follow(cfg, w, es, mid, [Next(l, commit)], next);
    ByRun(cfg, w, es + [Next(l, commit)], next);
    RestsAgain(w, mid, l, commit);
  }

  lemma RestsAgain(w: World, mid: World, l: nat, commit: bool)
    requires Resting(w) && CanAdvance(mid, l, commit) && mid.logs.Keys == w.logs.Keys
    requires forall m :: m in w.logs && m != l ==> mid.logs[m].phase == w.logs[m].phase
    ensures Resting(Advanced(mid, l, commit))
  {
  }

  /** What a turn does to the reader's own partition. */
  lemma PlaceAfter(partitions: map<nat, Partition>, l: nat, t: Id, into: Option<nat>, commit: bool)
    requires l in partitions
    ensures var now := MovedPast(Sent(partitions, t, into), l, commit);
      && now.Keys == partitions.Keys && now[l].pos == partitions[l].pos + 1
      && now[l].committed == (if commit then now[l].pos else partitions[l].committed) && partitions[l].messages <= now[l].messages
  {
  }

  /** One turn of the loop. */
  method Process(repo: Repository, broker: Broker, code: UserCode, cfg: Config, l: nat, fetch: Fetch, ghost w: World)
    returns (mark: bool, ghost next: World)
    requires Mirrors(repo, broker, w) && Resting(w) && l in w.logs && CanLoad(w, l) && Routable(broker.partitions, [fetch])
    requires l in broker.partitions && broker.partitions[l].pos < |broker.partitions[l].messages|
    modifies repo`tasks, broker, code
    ensures MayReach(cfg, w, next) && Mirrors(repo, broker, next) && Resting(next)
    ensures broker.partitions.Keys == old(broker.partitions).Keys && next.logs.Keys == w.logs.Keys
    ensures broker.partitions[l].pos == old(broker.partitions)[l].pos + 1
    ensures broker.partitions[l].committed == if mark then broker.partitions[l].pos else old(broker.partitions)[l].committed
    ensures mark <==> Commits(cfg, old(repo.Rows()), old(broker.partitions)[l].messages[old(broker.partitions)[l].pos], fetch)
    ensures repo.Rows() == Delivered(cfg, old(repo.Rows()), old(broker.partitions)[l].messages[old(broker.partitions)[l].pos], fetch.around.call)
    ensures old(broker.partitions)[l].messages <= broker.partitions[l].messages
    // with t for the message: what the delivery publishes and calls, and that only success and a commit that goes through commit it
    ensures var t := old(broker.partitions)[l].messages[old(broker.partitions)[l].pos];
      && (mark <==> !Fails(cfg, old(repo.Rows()), t, fetch.around.call) && fetch.commitOk)
      && broker.partitions == MovedPast(Sent(old(broker.partitions), t, RetryRoute(cfg, old(repo.Rows()), t, fetch.around)), l, mark)
      && broker.deadLetters == old(broker.deadLetters) + (if DeadLettered(cfg, old(repo.Rows()), t, fetch.around) then [t] else [])
      && code.executed == old(code.executed) +
           if Executed(cfg, old(repo.Rows()), t, fetch.around.call) then [Execution(t, old(repo.tasks)[t].params)] else []
  {
    var p := broker.partitions[l];
    var t := p.messages[p.pos];
    assert Deliverable(cfg, w, l, t, fetch.around) by {
      assert [fetch][0] == fetch;
    }
    next := MessageIsARun(cfg, w, l, t, fetch);
    PlaceAfter(broker.partitions, l, t, RetryRoute(cfg, repo.Rows(), t, fetch.around), Commits(cfg, repo.Rows(), t, fetch));
    var ok := ExecuteTask(repo, broker, code, cfg, t, fetch.around);
    mark := ok && fetch.commitOk;
    broker.Advance(l, mark);
  }

  /** Message i of a run of the loop: delivered on the tables the ones before it left, and committed exactly if that delivery
      and its commit succeed. */
  ghost predicate TracedAt(cfg: Config, messages: seq<Id>, start: nat, fetches: seq<Fetch>, tables: seq<Db>, marks: seq<bool>, i: nat)
    requires |tables| == |marks| + 1 && |marks| <= |fetches| && i < |marks|
  {
    && start + i < |messages| && (marks[i] <==> Commits(cfg, tables[i], messages[start + i], fetches[i]))
    && tables[i + 1] == Delivered(cfg, tables[i], messages[start + i], fetches[i].around.call)
  }

  /** The tables before the first message, between any two, and after the last. */
  ghost predicate IsTrace(cfg: Config, messages: seq<Id>, start: nat, fetches: seq<Fetch>, tables: seq<Db>, marks: seq<bool>) {
    && |tables| == |marks| + 1 && |marks| <= |fetches|
    && forall i :: 0 <= i < |marks| ==> TracedAt(cfg, messages, start, fetches, tables, marks, i)
  }

  lemma TraceOneMore(cfg: Config, before: seq<Id>, messages: seq<Id>, start: nat, fetches: seq<Fetch>, tables: seq<Db>, marks: seq<bool>, mark: bool, next: Db)
    requires IsTrace(cfg, before, start, fetches, tables, marks) && before <= messages && start + |marks| < |before| && |marks| < |fetches|
    requires mark <==> Commits(cfg, tables[|marks|], before[start + |marks|], fetches[|marks|])
    requires next == Delivered(cfg, tables[|marks|], before[start + |marks|], fetches[|marks|].around.call)
    ensures IsTrace(cfg, messages, start, fetches, tables + [next], marks + [mark])
  {
    forall i | 0 <= i < |marks + [mark]|
      ensures TracedAt(cfg, messages, start, fetches, tables + [next], marks + [mark], i)
    {
      assert i < |marks| ==> TracedAt(cfg, before, start, fetches, tables, marks, i);
    }
  }

  /** How far the loop has come. */
  ghost predicate SoFar(cfg: Config, w: World, first: map<nat, Partition>, l: nat, fetches: seq<Fetch>,
                        next: World, now: map<nat, Partition>, rows: Db, tables: seq<Db>, marks: seq<bool>)
  {
    && MayReach(cfg, w, next) && Resting(next) && now.Keys == first.Keys && l in first && l in w.logs && next.logs.Keys == w.logs.Keys
    && now[l].pos == first[l].pos + |marks| && now[l].committed == CommittedAfter(first[l].pos, first[l].committed, marks)
    && IsTrace(cfg, now[l].messages, first[l].pos, fetches, tables, marks) && tables[0] == w.db && tables[|marks|] == rows
  }

  lemma SoFarOneMore(cfg: Config, w: World, first: map<nat, Partition>, l: nat, fetches: seq<Fetch>, before: World, was: map<nat, Partition>, rows: Db,
                     tables: seq<Db>, marks: seq<bool>, next: World, now: map<nat, Partition>, left: Db, mark: bool)
    requires SoFar(cfg, w, first, l, fetches, before, was, rows, tables, marks) && |marks| < |fetches| && was[l].pos < |was[l].messages|
    requires MayReach(cfg, before, next) && Resting(next) && now.Keys == was.Keys && next.logs.Keys == before.logs.Keys
    requires now[l].pos == was[l].pos + 1 && now[l].committed == if mark then now[l].pos else was[l].committed
    requires mark <==> Commits(cfg, rows, was[l].messages[was[l].pos], fetches[|marks|])
    requires left == Delivered(cfg, rows, was[l].messages[was[l].pos], fetches[|marks|].around.call) && was[l].messages <= now[l].messages
    ensures SoFar(cfg, w, first, l, fetches, next, now, left, tables + [left], marks + [mark])
  {
    ReachOn(cfg, w, before, next);
    MarkOne(first[l].pos, first[l].committed, marks, mark);
    TraceOneMore(cfg, was[l].messages, now[l].messages, first[l].pos, fetches, tables, marks, mark, left);
  }

  lemma LoadableHere(w: World, partitions: map<nat, Partition>, l: nat, fetches: seq<Fetch>, i: nat)
    requires partitions == Offsets(w.logs) && Resting(w) && l in w.logs && partitions[l].pos < |partitions[l].messages|
    requires i < |fetches| && Routable(partitions, fetches)
    ensures CanLoad(w, l) && Routable(partitions, [fetches[i]])
  {
    assert [fetches[i]][0] == fetches[i];
  }

  /** The loop, for as long as there are messages and the context is not cancelled (one entry of `fetches` a message).
      It is a run of the protocol, each message is committed exactly if its delivery and commit succeed, and the offset left
      is the one after the last message committed. */
  method Run(repo: Repository, broker: Broker, code: UserCode, cfg: Config, l: nat, fetches: seq<Fetch>, ghost w: World)
    returns (marks: seq<bool>, ghost tables: seq<Db>, ghost next: World)
    requires Mirrors(repo, broker, w) && Resting(w) && l in w.logs && Routable(broker.partitions, fetches)
    modifies repo`tasks, broker, code
    ensures MayReach(cfg, w, next) && Mirrors(repo, broker, next) && Resting(next)
    ensures l in old(broker.partitions) && l in broker.partitions
    ensures |marks| <= |fetches| && broker.partitions[l].pos == old(broker.partitions)[l].pos + |marks|
    ensures broker.partitions[l].committed == CommittedAfter(old(broker.partitions)[l].pos, old(broker.partitions)[l].committed, marks)
    ensures |marks| < |fetches| ==> broker.partitions[l].pos >= |broker.partitions[l].messages|
    ensures IsTrace(cfg, broker.partitions[l].messages, old(broker.partitions)[l].pos, fetches, tables, marks)
    ensures tables[0] == old(repo.Rows()) && tables[|marks|] == repo.Rows()
  {
    marks, tables, next := [], [repo.Rows()], w;
    assert Leads(cfg, w, [], w);
    ghost var first := broker.partitions;
    assert first.Keys == w.logs.Keys;
    while |marks| < |fetches|
      invariant |marks| <= |fetches| && Mirrors(repo, broker, next) && Routable(broker.partitions, fetches)
      invariant SoFar(cfg, w, first, l, fetches, next, broker.partitions, repo.Rows(), tables, marks)
      decreases |fetches| - |marks|
    {
      var p := broker.partitions[l];
      if p.pos >= |p.messages| {
        return;
      }
      ghost var before, was, rows := next, broker.partitions, repo.Rows();
      assert CanLoad(before, l) && Routable(broker.partitions, [fetches[|marks|]]) by {
        LoadableHere(before, broker.partitions, l, fetches, |marks|);
      }
      var mark;
      mark, next := Process(repo, broker, code, cfg, l, fetches[|marks|], before);
      SoFarOneMore(cfg, w, first, l, fetches, before, was, rows, tables, marks, next, broker.partitions, repo.Rows(), mark);
      marks, tables := marks + [mark], tables + [repo.Rows()];
    }
  }

  lemma MarkOne(start: nat, committed: nat, marks: seq<bool>, mark: bool)
    ensures CommittedAfter(start, committed, marks + [mark]) ==
        if mark then start + |marks| + 1 else CommittedAfter(start, committed, marks)
  {
    assert (marks + [mark])[..|marks|] == marks;
  }
}
