/** Registering jobs and sharing consumers (internal/scheduler/service.go, internal/jobconfig/shared.go,
    internal/jobconfig/validate.go, the consumer registry of internal/transport/consumer.go). */
module Registration {
  // ---------------------------------------------------------------- configurations

  datatype KafkaConfig = KafkaConfig(
    brokers: seq<string>, taskTopic: string, retryTopic: string, dlqTopic: string, group: string, hasWriterConfig: bool)

  /** A job configuration: the parts registration looks at. */
  datatype JobDef = JobDef(
    name: string, hasJobExecutor: bool, hasTaskExecutor: bool, kafka: KafkaConfig, completionCron: string, schedule: string,
    maxRetries: int, hasPublisher: bool, hasTaskReader: bool, hasRetryReader: bool)

  /** Jobs coupled onto one consumer, one producer and one task executor. */
  datatype SharedDef = SharedDef(kafka: KafkaConfig, hasTaskExecutor: bool, jobs: seq<JobDef>, hasRetryReader: bool)

  predicate IsSpace(c: char) {
    c in "\t\n\U{000B}\U{000C}\r \U{0085}\U{00A0}\U{1680}\U{2028}\U{2029}\U{202F}\U{205F}\U{3000}" || '\U{2000}' <= c <= '\U{200A}'
  }

  /** Nothing is left of the text once its surrounding white space is trimmed. */
  predicate Blank(s: string) {
    forall i :: 0 <= i < |s| ==> IsSpace(s[i])
  }

  predicate ValidManual(job: JobDef) {
    && !Blank(job.name) && job.hasJobExecutor && job.hasTaskExecutor && |job.kafka.brokers| > 0
    && !Blank(job.kafka.taskTopic) && !Blank(job.kafka.group) && !Blank(job.completionCron)
  }

  predicate ValidScheduled(job: JobDef) {
    ValidManual(job) && !Blank(job.schedule)
  }

  /** A text is given if something is left of it. */
  predicate Given(s: string) {
    exists i :: 0 <= i < |s| && s[i] !in "\t\n\U{000B}\U{000C}\r \U{0085}\U{00A0}\U{1680}\U{2028}\U{2029}\U{202F}\U{205F}\U{3000}" && !('\U{2000}' <= s[i] <= '\U{200A}')
  }

  lemma GivenIsNotBlank(s: string)
    ensures Given(s) <==> !Blank(s)
  {
  }

  /** The checks of a job without a schedule, in the order they are made. */
  method ValidateManual(job: JobDef) returns (ok: bool)
    ensures ok <==> ValidManual(job)
    ensures ok <==>
      && Given(job.name) && job.hasJobExecutor && job.hasTaskExecutor && job.kafka.brokers != [] && Given(job.kafka.taskTopic)
      && Given(job.kafka.group) && Given(job.completionCron)
  {
    GivenIsNotBlank(job.name);
    GivenIsNotBlank(job.kafka.taskTopic);
    GivenIsNotBlank(job.kafka.group);
    GivenIsNotBlank(job.completionCron);
    if Blank(job.name) || !job.hasJobExecutor || !job.hasTaskExecutor {
      return false;
    }
    if |job.kafka.brokers| == 0 || Blank(job.kafka.taskTopic) || Blank(job.kafka.group) {
      return false;
    }
    ok := !Blank(job.completionCron);
  }

  /** And of one with a schedule. */
  method ValidateScheduled(job: JobDef) returns (ok: bool)
    ensures ok <==> ValidScheduled(job)
    ensures ok <==>
      && Given(job.name) && job.hasJobExecutor && job.hasTaskExecutor && job.kafka.brokers != [] && Given(job.kafka.taskTopic)
      && Given(job.kafka.group) && Given(job.completionCron) && Given(job.schedule)
  {
    GivenIsNotBlank(job.schedule);
    ok := ValidateManual(job);
    if ok {
      ok := !Blank(job.schedule);
    }
  }

  predicate KafkaConfigSet(kafka: KafkaConfig) {
    || |kafka.brokers| > 0 || !Blank(kafka.taskTopic) || !Blank(kafka.retryTopic) || !Blank(kafka.dlqTopic)
    || !Blank(kafka.group) || kafka.hasWriterConfig
  }

  predicate ValidSharedJob(job: JobDef) {
    && !Blank(job.name) && job.hasJobExecutor && !Blank(job.completionCron) && !job.hasTaskExecutor && !KafkaConfigSet(job.kafka)
    && !job.hasPublisher && !job.hasTaskReader && !job.hasRetryReader
  }

  predicate ValidSharedKafka(def: SharedDef) {
    |def.kafka.brokers| > 0 && !Blank(def.kafka.taskTopic) && !Blank(def.kafka.group) && def.hasTaskExecutor && |def.jobs| >= 2
  }

  ghost predicate ValidShared(def: SharedDef) {
    && ValidSharedKafka(def) && (forall i :: 0 <= i < |def.jobs| ==> ValidSharedJob(def.jobs[i]))
    && forall i, k :: 0 <= i < k < |def.jobs| ==> def.jobs[i].name != def.jobs[k].name
  }

  /** What a shared definition needs, written out. */
  ghost predicate SharedAccepted(def: SharedDef) {
    && def.kafka.brokers != [] && Given(def.kafka.taskTopic) && Given(def.kafka.group) && def.hasTaskExecutor && |def.jobs| >= 2
    && (forall i :: 0 <= i < |def.jobs| ==>
          && Given(def.jobs[i].name) && def.jobs[i].hasJobExecutor && Given(def.jobs[i].completionCron) && !def.jobs[i].hasTaskExecutor
          && !def.jobs[i].hasPublisher && !def.jobs[i].hasTaskReader && !def.jobs[i].hasRetryReader
          && def.jobs[i].kafka.brokers == [] && !def.jobs[i].kafka.hasWriterConfig && !Given(def.jobs[i].kafka.taskTopic)
          && !Given(def.jobs[i].kafka.retryTopic) && !Given(def.jobs[i].kafka.dlqTopic) && !Given(def.jobs[i].kafka.group))
    && forall i, k :: 0 <= i < k < |def.jobs| ==> def.jobs[i].name != def.jobs[k].name
  }

  lemma SharedMeans(def: SharedDef)
    ensures ValidShared(def) <==> SharedAccepted(def)
  {
    GivenIsNotBlank(def.kafka.taskTopic);
    GivenIsNotBlank(def.kafka.group);
    forall i | 0 <= i < |def.jobs|
      ensures Given(def.jobs[i].name) <==> !Blank(def.jobs[i].name)
      ensures Given(def.jobs[i].completionCron) <==> !Blank(def.jobs[i].completionCron)
      ensures Given(def.jobs[i].kafka.taskTopic) <==> !Blank(def.jobs[i].kafka.taskTopic)
      ensures Given(def.jobs[i].kafka.retryTopic) <==> !Blank(def.jobs[i].kafka.retryTopic)
      ensures Given(def.jobs[i].kafka.dlqTopic) <==> !Blank(def.jobs[i].kafka.dlqTopic)
      ensures Given(def.jobs[i].kafka.group) <==> !Blank(def.jobs[i].kafka.group)
    {
      GivenIsNotBlank(def.jobs[i].name);
      GivenIsNotBlank(def.jobs[i].completionCron);
      GivenIsNotBlank(def.jobs[i].kafka.taskTopic);
      GivenIsNotBlank(def.jobs[i].kafka.retryTopic);
      GivenIsNotBlank(def.jobs[i].kafka.dlqTopic);
      GivenIsNotBlank(def.jobs[i].kafka.group);
    }
  }

  /** The check as it runs: one pass over the jobs, remembering the names seen. */
  method ValidateShared(def: SharedDef) returns (ok: bool)
    ensures ok <==> ValidShared(def)
  {
    if !ValidSharedKafka(def) {
      return false;
    }
    var seen := {};
    for i := 0 to |def.jobs|
      invariant forall k :: 0 <= k < i ==> ValidSharedJob(def.jobs[k])
      invariant forall k, m :: 0 <= k < m < i ==> def.jobs[k].name != def.jobs[m].name
      invariant forall name :: name in seen <==> exists k :: 0 <= k < i && def.jobs[k].name == name
    {
      if !ValidSharedJob(def.jobs[i]) {
        return false;
      }
      if def.jobs[i].name in seen {
        return false;
      }
      seen := seen + {def.jobs[i].name};
    }
    return true;
  }

  // ---------------------------------------------------------------- the consumer registry

  /** A consumer is known by its group and topic. */
  datatype Key = Key(group: string, topic: string)

  const RETRY_SUFFIX := "-retry"

  function TaskKey(kafka: KafkaConfig): Key {
    Key(kafka.group, kafka.taskTopic)
  }

  function RetryKey(kafka: KafkaConfig): Key {
    Key(kafka.group + RETRY_SUFFIX, kafka.retryTopic)
  }

  /** An existing consumer is kept, whatever is asked for. */
  function Started(consumers: map<Key, bool>, key: Key, isRetry: bool): map<Key, bool> {
    if key in consumers then consumers else consumers[key := isRetry]
  }

  class ConsumerRegistry {
    /** The running consumers, and whether each takes its messages for retry messages. */
    var consumers: map<Key, bool>
    /** The consumers that can be cancelled. */
    var cancels: set<Key>
    /** What has been stopped: contexts cancelled and readers closed. */
    var cancelled: set<Key>
    var closed: set<Key>

    predicate Valid()
      reads this
    {
      cancels == consumers.Keys
    }

    constructor ()
      ensures Valid() && consumers == map[] && cancelled == {} && closed == {}
    {
      consumers, cancels, cancelled, closed := map[], {}, {}, {};
    }

    method Start(hasReader: bool, isRetry: bool, key: Key) returns (ok: bool)
      requires Valid()
      modifies this`consumers, this`cancels
      ensures Valid() && ok == hasReader
      ensures consumers == if hasReader then Started(old(consumers), key, isRetry) else old(consumers)
    {
      if !hasReader {
        return false;
      }
      if key in consumers {
        return true;
      }
      consumers := consumers[key := isRetry];
      cancels := cancels + {key};
      return true;
    }

    method StopAll()
      requires Valid()
      modifies this
      ensures Valid() && consumers == map[]
      ensures cancelled == old(cancelled) + old(consumers).Keys && closed == old(closed) + old(consumers).Keys
    {
      var rest := cancels;
      while rest != {}
        invariant rest <= cancels && cancelled == old(cancelled) + (cancels - rest)
        invariant cancels == old(cancels) && consumers == old(consumers) && closed == old(closed)
        decreases rest
      {
        var key :| key in rest;
        cancelled, rest := cancelled + {key}, rest - {key};
      }
      rest := consumers.Keys;
      while rest != {}
        invariant rest <= consumers.Keys && closed == old(closed) + (consumers.Keys - rest)
        invariant consumers == old(consumers) && cancelled == old(cancelled) + old(cancels)
        decreases rest
      {
        var key :| key in rest;
        closed, rest := closed + {key}, rest - {key};
      }
      consumers, cancels := map[], {};
    }
  }

  // ---------------------------------------------------------------- what the calls do

  /** The registered jobs, the consumers, and for each reserved consumer the names it was reserved for. */
  datatype State = State(jobs: map<string, JobDef>, consumers: map<Key, bool>, owners: map<Key, set<string>>)

  datatype Step = Step(state: State, ok: bool)

  function Normalised(job: JobDef): JobDef {
    var readers := job.(hasPublisher := true, hasTaskReader := true,
                        hasRetryReader := job.hasRetryReader || job.kafka.retryTopic != "");
    if job.maxRetries == 0 then readers.(maxRetries := 3) else readers
  }

  /** Starts the job's consumers, then its completion cron; `parses` holds the cron expressions the scheduler accepts. */
  function SetUp(s: State, job: JobDef, parses: set<string>): Step {
    if TaskKey(job.kafka) in s.owners then Step(s, false)
    else
      var tasks := Started(s.consumers, TaskKey(job.kafka), false);
      var all := if Normalised(job).hasRetryReader then Started(tasks, RetryKey(job.kafka), true) else tasks;
      Step(s.(consumers := all), job.completionCron == "" || job.completionCron in parses)
  }

  /** The job is recorded before its schedule is, and stays recorded if that fails. */
  function Registered(s: State, job: JobDef, scheduled: bool, parses: set<string>): Step {
    if !(if scheduled then ValidScheduled(job) else ValidManual(job)) || job.name in s.jobs then Step(s, false)
    else
      var up := SetUp(s, job, parses);
      if !up.ok then up
      else Step(up.state.(jobs := up.state.jobs[job.name := Normalised(job)]), !scheduled || job.schedule in parses)
  }

  predicate InUse(s: State, key: Key) {
    key in s.owners || exists name :: name in s.jobs && TaskKey(s.jobs[name].kafka) == key
  }

  /** A coupled job as it is recorded. */
  function Coupled(def: SharedDef, job: JobDef): JobDef {
    job.(kafka := def.kafka, hasTaskExecutor := def.hasTaskExecutor, hasPublisher := true,
         maxRetries := if job.maxRetries == 0 then 3 else job.maxRetries)
  }

  /** The entries of shared jobs: the completion check of each, and its schedule if it has one. */
  function CronEntries(jobs: seq<JobDef>): seq<(string, string)> {
    if jobs == [] then []
    else
      var job := jobs[|jobs| - 1];
      CronEntries(jobs[..|jobs| - 1]) + [(job.completionCron, job.name + ":completion-check")] + if job.schedule != "" then [(job.schedule, job.name)] else []
  }

  /** What is left when job `k` is the first one of whose crons is not accepted. */
  predicate StopsAtCron(def: SharedDef, parses: set<string>, was: seq<(string, string)>, now: seq<(string, string)>, k: nat) {
    && k < |def.jobs|
    && now == was + CronEntries(def.jobs[..k]) +
         (if def.jobs[k].completionCron in parses then [(def.jobs[k].completionCron, def.jobs[k].name + ":completion-check")] else [])
    && (def.jobs[k].completionCron !in parses || (def.jobs[k].schedule != "" && def.jobs[k].schedule !in parses))
    && forall i :: 0 <= i < k ==> def.jobs[i].completionCron in parses && (def.jobs[i].schedule != "" ==> def.jobs[i].schedule in parses)
  }

  predicate CronsParse(def: SharedDef, parses: set<string>) {
    forall i :: 0 <= i < |def.jobs| ==> def.jobs[i].completionCron in parses && (def.jobs[i].schedule != "" ==> def.jobs[i].schedule in parses)
  }

  function Names(jobs: seq<JobDef>): set<string> {
    set i | 0 <= i < |jobs| :: jobs[i].name
  }

  function WithCoupled(jobs: map<string, JobDef>, def: SharedDef, n: nat): map<string, JobDef>
    requires n <= |def.jobs|
  {
    if n == 0 then jobs else WithCoupled(jobs, def, n - 1)[def.jobs[n - 1].name := Coupled(def, def.jobs[n - 1])]
  }

  ghost predicate MayCouple(s: State, def: SharedDef, parses: set<string>) {
    ValidShared(def) && Names(def.jobs) !! s.jobs.Keys && !InUse(s, TaskKey(def.kafka)) && CronsParse(def, parses)
  }

  ghost function RegisteredShared(s: State, def: SharedDef, parses: set<string>): Step {
    if !MayCouple(s, def, parses) then Step(s, false)
    else
      var tasks := Started(s.consumers, TaskKey(def.kafka), false);
      var all := if def.hasRetryReader || def.kafka.retryTopic != "" then Started(tasks, RetryKey(def.kafka), true) else tasks;
      Step(State(WithCoupled(s.jobs, def, |def.jobs|), all, s.owners[TaskKey(def.kafka) := Names(def.jobs)]), true)
  }

  /** A job as registration records it: readers and publisher filled in, three attempts unless it says otherwise. */
  function AsRecorded(def: JobDef): JobDef {
    JobDef(def.name, def.hasJobExecutor, def.hasTaskExecutor, def.kafka, def.completionCron, def.schedule,
           if def.maxRetries == 0 then 3 else def.maxRetries, true, true, def.hasRetryReader || def.kafka.retryTopic != "")
  }

  /** A coupled job as it is recorded: routing, task executor and publisher are the shared ones. */
  function AsCoupled(def: SharedDef, job: JobDef): JobDef {
    JobDef(job.name, job.hasJobExecutor, def.hasTaskExecutor, def.kafka, job.completionCron, job.schedule,
           if job.maxRetries == 0 then 3 else job.maxRetries, true, job.hasTaskReader, job.hasRetryReader)
  }

  /** The consumers after a call that gets as far as starting its own: what was there stays, the one for tasks is there, and so
      is, with a retry topic or reader, the one for retries. */
  predicate WithConsumers(was: map<Key, bool>, kafka: KafkaConfig, hasRetryReader: bool, starts: bool, now: map<Key, bool>) {
    if !starts then now == was
    else
      var tasks, retries := Key(kafka.group, kafka.taskTopic), Key(kafka.group + "-retry", kafka.retryTopic);
      var needed := hasRetryReader || kafka.retryTopic != "";
      && now.Keys == was.Keys + {tasks} + (if needed then {retries} else {})
      && (forall key :: key in was ==> now[key] == was[key])
      && (tasks !in was ==> !now[tasks]) && (needed && retries !in was ==> now[retries])
  }

  /** What a plain registration leaves, written out: whether it goes through, the job recorded, the consumers. Nothing is reserved. */
  lemma RegisteredMeans(s: State, def: JobDef, scheduled: bool, parses: set<string>)
    ensures var next := Registered(s, def, scheduled, parses);
      var free := (if scheduled then ValidScheduled(def) else ValidManual(def)) && def.name !in s.jobs && Key(def.kafka.group, def.kafka.taskTopic) !in s.owners;
      && (next.ok <==> free && def.completionCron in parses && (scheduled ==> def.schedule in parses))
      && next.state.jobs == (if free && def.completionCron in parses then s.jobs[def.name := AsRecorded(def)] else s.jobs)
      && WithConsumers(s.consumers, def.kafka, def.hasRetryReader, free, next.state.consumers) && next.state.owners == s.owners
  {
    KeysDiffer(def.kafka);
  }

  /** What a shared registration leaves, written out: when it is accepted, and that it then records every job, starts the consumers
      and reserves the one for tasks; refused it leaves nothing. */
  lemma RegisteredSharedMeans(s: State, def: SharedDef, parses: set<string>)
    ensures var next := RegisteredShared(s, def, parses);
      && (next.ok <==>
            && SharedAccepted(def) && (forall i :: 0 <= i < |def.jobs| ==> def.jobs[i].name !in s.jobs)
            && Key(def.kafka.group, def.kafka.taskTopic) !in s.owners
            && (forall name :: name in s.jobs ==> !(s.jobs[name].kafka.group == def.kafka.group && s.jobs[name].kafka.taskTopic == def.kafka.taskTopic))
            && forall i :: 0 <= i < |def.jobs| ==>
                 def.jobs[i].completionCron in parses && (def.jobs[i].schedule != "" ==> def.jobs[i].schedule in parses))
      && (!next.ok ==> next.state == s)
      && WithConsumers(s.consumers, def.kafka, def.hasRetryReader, next.ok, next.state.consumers)
  {
    SharedMeans(def);
    KeysDiffer(def.kafka);
  }

  /** Accepted, it adds exactly its jobs, each as coupled, and one reservation under their names. */
  lemma RegisteredSharedAdds(s: State, def: SharedDef, parses: set<string>)
    requires RegisteredShared(s, def, parses).ok
    ensures var next := RegisteredShared(s, def, parses).state;
      && (forall name :: name in next.jobs <==> name in s.jobs || exists i :: 0 <= i < |def.jobs| && def.jobs[i].name == name)
      && (forall name :: name in s.jobs ==> next.jobs[name] == s.jobs[name])
      && (forall i :: 0 <= i < |def.jobs| ==> next.jobs[def.jobs[i].name] == AsCoupled(def, def.jobs[i]))
      && next.owners.Keys == s.owners.Keys + {Key(def.kafka.group, def.kafka.taskTopic)}
      && (forall key :: key in s.owners ==> next.owners[key] == s.owners[key])
      && forall name :: name in next.owners[Key(def.kafka.group, def.kafka.taskTopic)] <==> exists i :: 0 <= i < |def.jobs| && def.jobs[i].name == name
  {
    CoupledOneByOne(s.jobs, def, |def.jobs|);
  }

  lemma {:induction false} CoupledOneByOne(jobs: map<string, JobDef>, def: SharedDef, n: nat)
    requires n <= |def.jobs| && (forall i :: 0 <= i < |def.jobs| ==> def.jobs[i].name !in jobs)
    requires forall i, k :: 0 <= i < k < |def.jobs| ==> def.jobs[i].name != def.jobs[k].name
    ensures var next := WithCoupled(jobs, def, n);
      && (forall name :: name in next <==> name in jobs || exists i :: 0 <= i < n && def.jobs[i].name == name)
      && (forall name :: name in jobs ==> next[name] == jobs[name])
      && forall i :: 0 <= i < n ==> next[def.jobs[i].name] == AsCoupled(def, def.jobs[i])
  {
    if n > 0 {
      CoupledOneByOne(jobs, def, n - 1);
    }
  }

  // ---------------------------------------------------------------- the service

  /** The cron scheduler: the expressions it accepts and the entries made. */
  class Scheduler {
    const parses: set<string>
    var entries: seq<(string, string)>

    constructor (parses: set<string>)
      ensures this.parses == parses && entries == []
    {
      this.parses, entries := parses, [];
    }

    method Register(cron: string, taskType: string) returns (ok: bool)
      modifies this`entries
      ensures ok <==> cron in parses
      ensures entries == old(entries) + if ok then [(cron, taskType)] else []
    {
      ok := cron in parses;
      if ok {
        entries := entries + [(cron, taskType)];
      }
    }
  }

  const COMPLETION_CHECK_SUFFIX := ":completion-check"

  class Service {
    var jobs: map<string, JobDef>
    var sharedConsumers: set<Key>
    const registry: ConsumerRegistry
    const scheduler: Scheduler
    /** Which call reserved what. */
    ghost var owners: map<Key, set<string>>

    ghost predicate Valid()
      reads this, registry
    {
      sharedConsumers == owners.Keys && registry.Valid()
    }

    ghost function View(): State
      reads this, registry
    {
      State(jobs, registry.consumers, owners)
    }

    constructor (parses: set<string>)
      ensures Valid() && View() == State(map[], map[], map[]) && fresh(registry) && fresh(scheduler) && scheduler.parses == parses
    {
      jobs, sharedConsumers, owners := map[], {}, map[];
      registry := new ConsumerRegistry();
      scheduler := new Scheduler(parses);
    }

    predicate IsSharedConsumer(key: Key)
      reads this
    {
      key in sharedConsumers
    }

    /** Looks for a user of the consumer among the reserved ones, then among the jobs, one by one. */
    method ConsumerOwned(key: Key) returns (owned: bool)
      requires Valid()
      ensures owned <==> InUse(View(), key)
    {
      if IsSharedConsumer(key) {
        return true;
      }
      var rest := jobs.Keys;
      while rest != {}
        invariant rest <= jobs.Keys && forall name :: name in jobs && name !in rest ==> TaskKey(jobs[name].kafka) != key
        decreases rest
      {
        var name :| name in rest;
        if TaskKey(jobs[name].kafka) == key {
          return true;
        }
        rest := rest - {name};
      }
      return false;
    }

    method SetUpJobInfra(def: JobDef) returns (ok: bool, job: JobDef)
      requires Valid()
      modifies registry`consumers, registry`cancels, scheduler`entries
      ensures Valid() && Step(View(), ok) == SetUp(old(View()), def, scheduler.parses) && (ok ==> job == Normalised(def))
      ensures scheduler.entries == old(scheduler.entries) +
                if Key(def.kafka.group, def.kafka.taskTopic) !in sharedConsumers && def.completionCron != "" && def.completionCron in scheduler.parses
                then [(def.completionCron, def.name + ":completion-check")] else []
    {
      job := Normalised(def);
      if IsSharedConsumer(TaskKey(def.kafka)) {
        return false, def;
      }
      var _ := registry.Start(job.hasTaskReader, false, TaskKey(def.kafka));
      if job.hasRetryReader {
        var _ := registry.Start(job.hasRetryReader, true, RetryKey(def.kafka));
      }
      ok := true;
      if def.completionCron != "" {
        ok := scheduler.Register(def.completionCron, def.name + COMPLETION_CHECK_SUFFIX);
      }
    }

    method Register(def: JobDef) returns (ok: bool)
      requires Valid()
      modifies this`jobs, registry`consumers, registry`cancels, scheduler`entries
      ensures Valid() && Step(View(), ok) == Registered(old(View()), def, true, scheduler.parses)
      ensures var recorded := def.name !in old(jobs) && def.name in jobs;
        scheduler.entries == old(scheduler.entries) + (if recorded then [(def.completionCron, def.name + ":completion-check")] else [])
          + (if recorded && def.schedule in scheduler.parses then [(def.schedule, def.name)] else [])
    {
      var valid := ValidateScheduled(def);
      if !valid || def.name in jobs {
        return false;
      }
      var job;
      ok, job := SetUpJobInfra(def);
      if !ok {
        return;
      }
      jobs := jobs[def.name := job];
      ok := scheduler.Register(def.schedule, def.name);
    }

    method RegisterManual(def: JobDef) returns (ok: bool)
      requires Valid()
      modifies this`jobs, registry`consumers, registry`cancels, scheduler`entries
      ensures Valid() && Step(View(), ok) == Registered(old(View()), def, false, scheduler.parses)
      ensures scheduler.entries == old(scheduler.entries) + if ok then [(def.completionCron, def.name + ":completion-check")] else []
    {
      var valid := ValidateManual(def);
      if !valid || def.name in jobs {
        return false;
      }
      var job;
      ok, job := SetUpJobInfra(def);
      if !ok {
        return;
      }
      jobs := jobs[def.name := job];
    }

    /** Registers the crons of the coupled jobs one by one, stopping at the first that is not accepted. */
    method RegisterCrons(def: SharedDef) returns (ok: bool)
      modifies scheduler`entries
      ensures ok <==> CronsParse(def, scheduler.parses)
      ensures ok ==> scheduler.entries == old(scheduler.entries) + CronEntries(def.jobs)
      ensures !ok ==> exists k :: StopsAtCron(def, scheduler.parses, old(scheduler.entries), scheduler.entries, k)
    {
      for i := 0 to |def.jobs|
        invariant forall k :: 0 <= k < i ==> def.jobs[k].completionCron in scheduler.parses && (def.jobs[k].schedule != "" ==> def.jobs[k].schedule in scheduler.parses)
        invariant scheduler.entries == old(scheduler.entries) + CronEntries(def.jobs[..i])
      {
        var job := def.jobs[i];
        assert def.jobs[..i + 1][..i] == def.jobs[..i];
        ok := scheduler.Register(job.completionCron, job.name + COMPLETION_CHECK_SUFFIX);
        if !ok {
          assert StopsAtCron(def, scheduler.parses, old(scheduler.entries), scheduler.entries, i);
          return;
        }
        if job.schedule != "" {
          ok := scheduler.Register(job.schedule, job.name);
          if !ok {
            assert StopsAtCron(def, scheduler.parses, old(scheduler.entries), scheduler.entries, i);
            return;
          }
        }
      }
      assert def.jobs[..|def.jobs|] == def.jobs;
      ok := true;
    }

    method AnyRegistered(defs: seq<JobDef>) returns (any: bool)
      ensures any <==> !(Names(defs) !! jobs.Keys)
    {
      for i := 0 to |defs|
        invariant forall k :: 0 <= k < i ==> defs[k].name !in jobs
      {
        if defs[i].name in jobs {
          assert defs[i].name in Names(defs) && defs[i].name in jobs.Keys;
          return true;
        }
      }
      return false;
    }

    /** Everything that can refuse a shared registration, before anything is recorded. */
    method PrepareShared(def: SharedDef) returns (ok: bool)
      requires Valid()
      modifies scheduler`entries
      ensures ok <==> MayCouple(View(), def, scheduler.parses)
      ensures old(scheduler.entries) <= scheduler.entries && (ok ==> scheduler.entries == old(scheduler.entries) + CronEntries(def.jobs))
    {
      ok := ValidateShared(def);
      if !ok {
        return;
      }
      var any := AnyRegistered(def.jobs);
      if any {
        return false;
      }
      var owned := ConsumerOwned(TaskKey(def.kafka));
      if owned {
        return false;
      }
      ok := RegisterCrons(def);
    }

    method RecordCoupled(def: SharedDef)
      modifies this`jobs
      ensures jobs == WithCoupled(old(jobs), def, |def.jobs|)
    {
      for i := 0 to |def.jobs|
        invariant jobs == WithCoupled(old(jobs), def, i)
      {
        jobs := jobs[def.jobs[i].name := Coupled(def, def.jobs[i])];
      }
    }

    method RegisterShared(def: SharedDef) returns (ok: bool)
      requires Valid()
      modifies this, registry`consumers, registry`cancels, scheduler`entries
      ensures Valid() && Step(View(), ok) == RegisteredShared(old(View()), def, scheduler.parses)
      ensures old(scheduler.entries) <= scheduler.entries && (ok ==> scheduler.entries == old(scheduler.entries) + CronEntries(def.jobs))
    {
      ok := PrepareShared(def);
      if !ok {
        return;
      }
      var _ := registry.Start(true, false, TaskKey(def.kafka));
      if def.hasRetryReader || def.kafka.retryTopic != "" {
        var _ := registry.Start(true, true, RetryKey(def.kafka));
      }
      RecordCoupled(def);
      sharedConsumers := sharedConsumers + {TaskKey(def.kafka)};
      owners := owners[TaskKey(def.kafka) := Names(def.jobs)];
    }
  }

  // ---------------------------------------------------------------- over any sequence of registrations

  datatype Registration = Scheduled(job: JobDef) | Manual(job: JobDef) | Shared(def: SharedDef)

  ghost function Perform(s: State, r: Registration, parses: set<string>): Step {
    match r
    case Scheduled(job) => Registered(s, job, true, parses)
    case Manual(job) => Registered(s, job, false, parses)
    case Shared(def) => RegisteredShared(s, def, parses)
  }

  ghost function PerformAll(s: State, rs: seq<Registration>, parses: set<string>): State
    decreases |rs|
  {
    if rs == [] then s else PerformAll(Perform(s, rs[0], parses).state, rs[1..], parses)
  }

  /** The names registered on a consumer. */
  function JobsOn(jobs: map<string, JobDef>, key: Key): set<string> {
    set name | name in jobs && TaskKey(jobs[name].kafka) == key
  }

  /** Every registered job has its consumer; a reserved consumer runs, and its jobs are exactly those it was reserved for. */
  ghost predicate StateOk(s: State) {
    && (forall name :: name in s.jobs ==> TaskKey(s.jobs[name].kafka) in s.consumers)
    && (forall key :: key in s.owners ==> key in s.consumers && JobsOn(s.jobs, key) == s.owners[key])
  }

  /** Nothing recorded is ever taken back: not a job, not a consumer or its kind, not a reservation. */
  ghost predicate Extends(s: State, next: State) {
    && (forall name :: name in s.jobs ==> name in next.jobs && next.jobs[name] == s.jobs[name])
    && (forall key :: key in s.consumers ==> key in next.consumers && next.consumers[key] == s.consumers[key])
    && (forall key :: key in s.owners ==> key in next.owners && next.owners[key] == s.owners[key])
  }

  lemma {:induction false} CoupledJobs(jobs: map<string, JobDef>, def: SharedDef, n: nat)
    requires n <= |def.jobs| && forall i :: 0 <= i < n ==> def.jobs[i].name !in jobs
    ensures var next := WithCoupled(jobs, def, n);
      && (forall name :: name in next <==> name in jobs || name in Names(def.jobs[..n]))
      && (forall name :: name in jobs ==> next[name] == jobs[name])
      && (forall name :: name in next && name !in jobs ==> next[name].kafka == def.kafka)
  {
    if n == 0 {
      assert Names(def.jobs[..0]) == {};
    } else {
      CoupledJobs(jobs, def, n - 1);
      assert def.jobs[..n] == def.jobs[..n - 1] + [def.jobs[n - 1]];
      assert Names(def.jobs[..n]) == Names(def.jobs[..n - 1]) + {def.jobs[n - 1].name};
    }
  }

  /** More jobs, none of them on a reserved consumer. */
  lemma OtherConsumersStay(jobs: map<string, JobDef>, next: map<string, JobDef>, key: Key)
    requires forall name :: name in jobs ==> name in next && next[name] == jobs[name]
    requires forall name :: name in next && name !in jobs ==> TaskKey(next[name].kafka) != key
    ensures JobsOn(next, key) == JobsOn(jobs, key)
  {
  }

  lemma CouplingAdds(s: State, def: SharedDef)
    requires ValidShared(def) && Names(def.jobs) !! s.jobs.Keys && !InUse(s, TaskKey(def.kafka))
    ensures var next := WithCoupled(s.jobs, def, |def.jobs|);
      && (forall name :: name in s.jobs ==> name in next && next[name] == s.jobs[name])
      && (forall name :: name in next && name !in s.jobs ==> next[name].kafka == def.kafka)
      && JobsOn(next, TaskKey(def.kafka)) == Names(def.jobs)
  {
    forall i | 0 <= i < |def.jobs|
      ensures def.jobs[i].name !in s.jobs
    {
      assert def.jobs[i].name in Names(def.jobs);
    }
    CoupledJobs(s.jobs, def, |def.jobs|);
    assert def.jobs[..|def.jobs|] == def.jobs;
  }

  lemma SharedKeeps(s: State, def: SharedDef, parses: set<string>)
    requires StateOk(s) && MayCouple(s, def, parses)
    ensures var next := RegisteredShared(s, def, parses).state;
      StateOk(next) && Extends(s, next) && JobsOn(next.jobs, TaskKey(def.kafka)) == Names(def.jobs)
  {
    var next := RegisteredShared(s, def, parses).state;
    CouplingAdds(s, def);
    forall key | key in s.owners
      ensures JobsOn(next.jobs, key) == s.owners[key]
    {
      OtherConsumersStay(s.jobs, next.jobs, key);
    }
  }

  lemma PlainKeeps(s: State, job: JobDef, scheduled: bool, parses: set<string>)
    requires StateOk(s)
    ensures var next := Registered(s, job, scheduled, parses).state; StateOk(next) && Extends(s, next) && next.owners == s.owners
  {
    var next := Registered(s, job, scheduled, parses).state;
    if next.jobs != s.jobs {
      assert next.jobs == s.jobs[job.name := Normalised(job)] && TaskKey(job.kafka) !in s.owners;
      forall key | key in s.owners
        ensures JobsOn(next.jobs, key) == s.owners[key]
      {
        OtherConsumersStay(s.jobs, next.jobs, key);
      }
    }
  }

  lemma RegistrationKeeps(s: State, r: Registration, parses: set<string>)
    requires StateOk(s)
    ensures StateOk(Perform(s, r, parses).state) && Extends(s, Perform(s, r, parses).state)
  {
    match r
    case Scheduled(job) => PlainKeeps(s, job, true, parses);
    case Manual(job) => PlainKeeps(s, job, false, parses);
    case Shared(def) =>
      if MayCouple(s, def, parses) {
        SharedKeeps(s, def, parses);
      }
  }

  lemma {:induction false} AllRegistrationsKeep(s: State, rs: seq<Registration>, parses: set<string>)
    requires StateOk(s)
    ensures StateOk(PerformAll(s, rs, parses)) && Extends(s, PerformAll(s, rs, parses))
    decreases |rs|
  {
    if rs != [] {
      RegistrationKeeps(s, rs[0], parses);
      AllRegistrationsKeep(Perform(s, rs[0], parses).state, rs[1..], parses);
    }
  }

  const NOTHING := State(map[], map[], map[])

  /** Shared consumers are frozen: once a shared registration has succeeded, whatever is registered before and after, the
      jobs on its consumer are exactly those it coupled, each as it recorded them. */
  lemma SharedConsumersAreFrozen(before: seq<Registration>, def: SharedDef, later: seq<Registration>, parses: set<string>)
    requires RegisteredShared(PerformAll(NOTHING, before, parses), def, parses).ok
    ensures var shared := RegisteredShared(PerformAll(NOTHING, before, parses), def, parses).state;
      var last := PerformAll(shared, later, parses);
      && JobsOn(last.jobs, TaskKey(def.kafka)) == Names(def.jobs)
      && (forall name :: name in Names(def.jobs) ==> name in shared.jobs && name in last.jobs && last.jobs[name] == shared.jobs[name])
  {
    AllRegistrationsKeep(NOTHING, before, parses);
    var s := PerformAll(NOTHING, before, parses);
    SharedKeeps(s, def, parses);
    var shared := RegisteredShared(s, def, parses).state;
    AllRegistrationsKeep(shared, later, parses);
    assert TaskKey(def.kafka) in shared.owners;
    forall name | name in Names(def.jobs)
      ensures name in shared.jobs
    {
      assert name in JobsOn(shared.jobs, TaskKey(def.kafka));
    }
  }

  /** Every job registered by any sequence of calls, successful or not, has a running consumer for its group and task
      topic; a call that fails reserves nothing, and a shared one that fails changes nothing at all. */
  lemma EveryJobHasItsConsumer(rs: seq<Registration>, r: Registration, parses: set<string>)
    ensures var s := PerformAll(NOTHING, rs, parses);
      && (forall name :: name in s.jobs ==> TaskKey(s.jobs[name].kafka) in s.consumers)
      && (!Perform(s, r, parses).ok ==> Perform(s, r, parses).state.owners == s.owners)
      && (r.Shared? && !Perform(s, r, parses).ok ==> Perform(s, r, parses).state == s)
  {
    AllRegistrationsKeep(NOTHING, rs, parses);
  }

  // ---------------------------------------------------------------- what a call asks for, and when it records its jobs

  function KafkaOf(r: Registration): KafkaConfig {
    match r
    case Shared(def) => def.kafka
    case _ => r.job.kafka
  }

  predicate ReadsRetries(r: Registration) {
    KafkaOf(r).retryTopic != "" || if r.Shared? then r.def.hasRetryReader else r.job.hasRetryReader
  }

  /** Nothing is refused before consumers are started. */
  ghost predicate Admitted(s: State, r: Registration, parses: set<string>) {
    match r
    case Scheduled(job) => ValidScheduled(job) && job.name !in s.jobs && TaskKey(job.kafka) !in s.owners
    case Manual(job) => ValidManual(job) && job.name !in s.jobs && TaskKey(job.kafka) !in s.owners
    case Shared(def) => MayCouple(s, def, parses)
  }

  /** The call comes to ask the registry for a consumer, for its tasks or for its retries. */
  ghost predicate Asks(s: State, r: Registration, parses: set<string>, key: Key, isRetry: bool) {
    Admitted(s, r, parses) && if isRetry then ReadsRetries(r) && key == RetryKey(KafkaOf(r)) else key == TaskKey(KafkaOf(r))
  }

  /** The call comes to record its jobs: a plain job whose completion cron the scheduler accepts, or shared jobs. */
  ghost predicate Records(s: State, r: Registration, parses: set<string>) {
    Admitted(s, r, parses) && (r.Shared? || r.job.completionCron in parses)
  }

  /** The call records jobs whose retry messages are read from there. */
  ghost predicate Joins(s: State, r: Registration, parses: set<string>, key: Key) {
    Records(s, r, parses) && KafkaOf(r).retryTopic != "" && key == RetryKey(KafkaOf(r))
  }

  /** The jobs whose retry messages are read from there. */
  function JobsRetryingOn(jobs: map<string, JobDef>, key: Key): set<string> {
    set name | name in jobs && jobs[name].kafka.retryTopic != "" && RetryKey(jobs[name].kafka) == key
  }

  lemma KeysDiffer(kafka: KafkaConfig)
    ensures TaskKey(kafka) != RetryKey(kafka)
  {
    assert |kafka.group + RETRY_SUFFIX| > |kafka.group|;
  }

  /** An existing consumer keeps its kind, a new one has the kind it was asked for as. */
  ghost predicate StartsAsAsked(s: State, r: Registration, parses: set<string>, key: Key, isRetry: bool) {
    var next := Perform(s, r, parses).state.consumers;
    key in next && next[key] == isRetry <==> if key in s.consumers then s.consumers[key] == isRetry else Asks(s, r, parses, key, isRetry)
  }

  lemma SharedCallStarts(s: State, def: SharedDef, parses: set<string>, key: Key, isRetry: bool)
    ensures StartsAsAsked(s, Shared(def), parses, key, isRetry)
  {
    KeysDiffer(def.kafka);
  }

  lemma CallStarts(s: State, r: Registration, parses: set<string>, key: Key, isRetry: bool)
    ensures StartsAsAsked(s, r, parses, key, isRetry)
  {
    if r.Shared? {
      SharedCallStarts(s, r.def, parses, key, isRetry);
    } else {
      PlainCallStarts(s, r, parses, key, isRetry);
    }
  }

  /** A plain call that is admitted starts its consumers, whatever becomes of it. */
  lemma PlainConsumers(s: State, r: Registration, parses: set<string>)
    requires !r.Shared?
    ensures Perform(s, r, parses).state.consumers == if Admitted(s, r, parses) then ConsumersOf(s.consumers, r) else s.consumers
  {
  }

  function ConsumersOf(consumers: map<Key, bool>, r: Registration): map<Key, bool> {
    var tasks := Started(consumers, TaskKey(KafkaOf(r)), false);
    if ReadsRetries(r) then Started(tasks, RetryKey(KafkaOf(r)), true) else tasks
  }

  lemma PlainCallStarts(s: State, r: Registration, parses: set<string>, key: Key, isRetry: bool)
    requires !r.Shared?
    ensures StartsAsAsked(s, r, parses, key, isRetry)
  {
    KeysDiffer(KafkaOf(r));
    PlainConsumers(s, r, parses);
  }

  lemma CallJoins(s: State, r: Registration, parses: set<string>, key: Key)
    ensures JobsRetryingOn(Perform(s, r, parses).state.jobs, key) != {} <==> JobsRetryingOn(s.jobs, key) != {} || Joins(s, r, parses, key)
  {
    var next := Perform(s, r, parses).state;
    if Records(s, r, parses) {
      var name := if r.Shared? then r.def.jobs[0].name else r.job.name;
      RecordsKafka(s, r, parses, name);
      RecordedJoin(s.jobs, next.jobs, KafkaOf(r), key, name);
    } else {
      assert next.jobs == s.jobs;
    }
  }

  lemma RecordedJoin(jobs: map<string, JobDef>, next: map<string, JobDef>, kafka: KafkaConfig, key: Key, name: string)
    requires forall k :: k in jobs ==> k in next && next[k] == jobs[k]
    requires (forall k :: k in next && k !in jobs ==> next[k].kafka == kafka) && name in next && name !in jobs
    ensures JobsRetryingOn(next, key) != {} <==> JobsRetryingOn(jobs, key) != {} || (kafka.retryTopic != "" && key == RetryKey(kafka))
  {
    if k :| k in JobsRetryingOn(jobs, key) {
      assert k in JobsRetryingOn(next, key);
    } else if kafka.retryTopic != "" && key == RetryKey(kafka) {
      assert name in JobsRetryingOn(next, key);
    } else {
      forall k | k in next
        ensures k !in JobsRetryingOn(next, key)
      {
        assert k in jobs ==> k !in JobsRetryingOn(jobs, key);
      }
    }
  }

  lemma RecordsKafka(s: State, r: Registration, parses: set<string>, name: string)
    requires Records(s, r, parses) && name == if r.Shared? then r.def.jobs[0].name else r.job.name
    ensures var next := Perform(s, r, parses).state.jobs;
      && (forall k :: k in s.jobs ==> k in next && next[k] == s.jobs[k]) && name in next && name !in s.jobs
      && (forall k :: k in next && k !in s.jobs ==> next[k].kafka == KafkaOf(r))
  {
    if r.Shared? {
      CouplingAdds(s, r.def);
      assert name in Names(r.def.jobs);
      assert name in JobsOn(Perform(s, r, parses).state.jobs, TaskKey(r.def.kafka));
    }
  }

  // ---------------------------------------------------------------- which kind a consumer has

  /** The state a call of the sequence meets. */
  ghost function Before(rs: seq<Registration>, i: nat, parses: set<string>): State
    requires i <= |rs|
  {
    PerformAll(NOTHING, rs[..i], parses)
  }

  ghost predicate AsksAt(rs: seq<Registration>, i: nat, parses: set<string>, key: Key, isRetry: bool) {
    i < |rs| && Asks(Before(rs, i, parses), rs[i], parses, key, isRetry)
  }

  /** The call is the first of the sequence to ask for the consumer, and asks for it as this kind. */
  ghost predicate AsksFirst(rs: seq<Registration>, i: nat, parses: set<string>, key: Key, isRetry: bool) {
    AsksAt(rs, i, parses, key, isRetry) && forall h, kind :: 0 <= h < i ==> !AsksAt(rs, h, parses, key, kind)
  }

  ghost predicate JoinsAt(rs: seq<Registration>, i: nat, parses: set<string>, key: Key) {
    i < |rs| && Joins(Before(rs, i, parses), rs[i], parses, key)
  }

  lemma {:induction false} PerformLast(s: State, rs: seq<Registration>, parses: set<string>)
    requires rs != []
    ensures PerformAll(s, rs, parses) == Perform(PerformAll(s, rs[..|rs| - 1], parses), rs[|rs| - 1], parses).state
    decreases |rs|
  {
    if |rs| > 1 {
      PerformLast(Perform(s, rs[0], parses).state, rs[1..], parses);
      assert rs[1..][..|rs| - 2] == rs[..|rs| - 1][1..];
    } else {
      assert rs[..0] == [] && rs[1..] == [];
    }
  }

  /** Earlier calls meet the same states in a longer sequence. */
  lemma SameBefore(rs: seq<Registration>, i: nat, parses: set<string>)
    requires i < |rs|
    ensures Before(rs[..|rs| - 1], i, parses) == Before(rs, i, parses)
  {
    assert rs[..|rs| - 1][..i] == rs[..i];
  }

  lemma SameAsks(rs: seq<Registration>, parses: set<string>, key: Key)
    requires rs != []
    ensures forall i, kind :: 0 <= i < |rs| - 1 ==> (AsksAt(rs[..|rs| - 1], i, parses, key, kind) <==> AsksAt(rs, i, parses, key, kind))
    ensures forall i :: 0 <= i < |rs| - 1 ==> (JoinsAt(rs[..|rs| - 1], i, parses, key) <==> JoinsAt(rs, i, parses, key))
  {
    forall i: nat | i < |rs| - 1
      ensures Before(rs[..|rs| - 1], i, parses) == Before(rs, i, parses)
    {
      SameBefore(rs, i, parses);
    }
  }

  /** Over any sequence of scheduled, manual and shared calls, successful or not: a consumer runs, with a kind, exactly if
      the first call that asked for it asked for it as that kind. */
  lemma {:induction false} KindIsTheFirstAskedFor(rs: seq<Registration>, key: Key, isRetry: bool, parses: set<string>)
    ensures var s := PerformAll(NOTHING, rs, parses);
      key in s.consumers && s.consumers[key] == isRetry <==> exists i :: AsksFirst(rs, i, parses, key, isRetry)
    decreases |rs|
  {
    if rs != [] {
      var n, front := |rs| - 1, rs[..|rs| - 1];
      PerformLast(NOTHING, rs, parses);
      CallStarts(Before(rs, n, parses), rs[n], parses, key, isRetry);
      SameAsks(rs, parses, key);
      KindIsTheFirstAskedFor(front, key, true, parses);
      KindIsTheFirstAskedFor(front, key, false, parses);
      FirstOfLonger(rs, parses, key, isRetry);
    }
  }

  /** Somebody asks first, if anybody asks. */
  lemma SomebodyFirst(rs: seq<Registration>, i: nat, parses: set<string>, key: Key, isRetry: bool)
    requires AsksAt(rs, i, parses, key, isRetry)
    ensures exists h, kind :: AsksFirst(rs, h, parses, key, kind)
    decreases i
  {
    if h: nat, kind :| h < i && AsksAt(rs, h, parses, key, kind) {
      SomebodyFirst(rs, h, parses, key, kind);
    } else {
      assert AsksFirst(rs, i, parses, key, isRetry);
    }
  }

  lemma FirstOfLonger(rs: seq<Registration>, parses: set<string>, key: Key, isRetry: bool)
    requires rs != []
    ensures var front := rs[..|rs| - 1];
      (exists i :: AsksFirst(rs, i, parses, key, isRetry)) <==>
        if exists i, kind :: AsksFirst(front, i, parses, key, kind) then exists i :: AsksFirst(front, i, parses, key, isRetry)
        else AsksAt(rs, |rs| - 1, parses, key, isRetry)
  {
    var n, front := |rs| - 1, rs[..|rs| - 1];
    SameAsks(rs, parses, key);
    if exists i, kind :: AsksFirst(front, i, parses, key, kind) {
      var h, kind :| AsksFirst(front, h, parses, key, kind);
      assert AsksAt(rs, h, parses, key, kind);
      forall i, k
        ensures AsksFirst(rs, i, parses, key, k) <==> AsksFirst(front, i, parses, key, k)
      {
      }
    } else {
      forall i: nat, kind | i < n
        ensures !AsksAt(rs, i, parses, key, kind)
      {
        if AsksAt(rs, i, parses, key, kind) {
          SomebodyFirst(front, i, parses, key, kind);
        }
      }
      if AsksAt(rs, n, parses, key, isRetry) {
        assert AsksFirst(rs, n, parses, key, isRetry);
      }
    }
  }

  /** So a registered job, coupled or not, has its tasks taken for retry messages if and only if, of all calls made, refused
      ones included, the first to ask for the consumer of its group and task topic asked for it as its retry consumer. */
  lemma ConsumerKindIsInherited(rs: seq<Registration>, name: string, parses: set<string>)
    requires name in PerformAll(NOTHING, rs, parses).jobs
    ensures var s := PerformAll(NOTHING, rs, parses);
      var key := TaskKey(s.jobs[name].kafka);
      key in s.consumers && (s.consumers[key] <==> exists i :: AsksFirst(rs, i, parses, key, true))
  {
    AllRegistrationsKeep(NOTHING, rs, parses);
    KindIsTheFirstAskedFor(rs, TaskKey(PerformAll(NOTHING, rs, parses).jobs[name].kafka), true, parses);
  }

  // ---------------------------------------------------------------- who else comes to a reserved consumer

  lemma {:induction false} RetriesComeIff(rs: seq<Registration>, key: Key, parses: set<string>)
    ensures JobsRetryingOn(PerformAll(NOTHING, rs, parses).jobs, key) != {} <==> exists i :: JoinsAt(rs, i, parses, key)
    decreases |rs|
  {
    if rs != [] {
      var n := |rs| - 1;
      PerformLast(NOTHING, rs, parses);
      CallJoins(Before(rs, n, parses), rs[n], parses, key);
      SameAsks(rs, parses, key);
      RetriesComeIff(rs[..n], key, parses);
      assert Joins(Before(rs, n, parses), rs[n], parses, key) <==> JoinsAt(rs, n, parses, key);
      if exists i :: JoinsAt(rs[..n], i, parses, key) {
        var i :| JoinsAt(rs[..n], i, parses, key);
        assert JoinsAt(rs, i, parses, key);
      } else if exists i :: JoinsAt(rs, i, parses, key) {
        var i :| JoinsAt(rs, i, parses, key);
        assert i == n;
      }
    }
  }

  /** The messages a reserved consumer reads, tasks and retries, are those of the jobs it was reserved for and of no other,
      if and only if no call of the sequence, before or after, records a job whose retry consumer it is. */
  lemma ReservedConsumerIsExclusiveIff(rs: seq<Registration>, key: Key, parses: set<string>)
    requires key in PerformAll(NOTHING, rs, parses).owners
    ensures var s := PerformAll(NOTHING, rs, parses);
      JobsOn(s.jobs, key) + JobsRetryingOn(s.jobs, key) == s.owners[key] <==> !exists i :: JoinsAt(rs, i, parses, key)
  {
    AllRegistrationsKeep(NOTHING, rs, parses);
    RetriesComeIff(rs, key, parses);
    var s := PerformAll(NOTHING, rs, parses);
    forall name | name in JobsRetryingOn(s.jobs, key)
      ensures name !in JobsOn(s.jobs, key)
    {
      KeysDiffer(s.jobs[name].kafka);
    }
  }

  // ---------------------------------------------------------------- registrations in which these things happen

  lemma NotBlank(s: string)
    requires |s| > 0 && 'a' <= s[0] <= 'z'
    ensures !Blank(s)
  {
    assert !IsSpace(s[0]);
  }

  function ManualJob(name: string, group: string, topic: string, retryTopic: string, cron: string): JobDef {
    JobDef(name, true, true, KafkaConfig(["broker"], topic, retryTopic, "", group, false), cron, "", 3, false, false, false)
  }

  lemma ManualJobIsValid(name: string, group: string, topic: string, retryTopic: string, cron: string)
    requires |name| > 0 && 'a' <= name[0] <= 'z' && |group| > 0 && 'a' <= group[0] <= 'z' && |topic| > 0 && 'a' <= topic[0] <= 'z'
    requires |cron| > 0 && 'a' <= cron[0] <= 'z'
    ensures ValidManual(ManualJob(name, group, topic, retryTopic, cron))
  {
    NotBlank(name);
    NotBlank(group);
    NotBlank(topic);
    NotBlank(cron);
  }

  const DAILY := {"daily"}

  lemma TwoCalls(one: Registration, two: Registration, parses: set<string>)
    ensures PerformAll(NOTHING, [one, two], parses) == Perform(Perform(NOTHING, one, parses).state, two, parses).state
  {
    var mid := Perform(NOTHING, one, parses).state;
    assert [one, two][1..] == [two] && [two][1..] == [];
    assert PerformAll(mid, [two], parses) == Perform(mid, two, parses).state;
  }

  /** One job's retry consumer is taken over as the task consumer of another. */
  lemma RetryConsumerCanBeTakenOver()
    ensures var s := PerformAll(NOTHING, [Manual(ManualJob("a", "g", "t", "r", "daily")), Manual(ManualJob("b", "g-retry", "r", "", "daily"))], DAILY);
      s.jobs.Keys == {"a", "b"} && Key("g-retry", "r") in s.consumers && s.consumers[Key("g-retry", "r")]
      && TaskKey(s.jobs["b"].kafka) == Key("g-retry", "r")
  {
    ManualJobIsValid("a", "g", "t", "r", "daily");
    ManualJobIsValid("b", "g-retry", "r", "", "daily");
    var first, second := ManualJob("a", "g", "t", "r", "daily"), ManualJob("b", "g-retry", "r", "", "daily");
    TwoCalls(Manual(first), Manual(second), DAILY);
    assert RetryKey(first.kafka) == TaskKey(second.kafka) == Key("g-retry", "r");
    KeysDiffer(first.kafka);
    assert "a" != "b";
  }

  /** So is that of a job whose registration failed, and which is not registered. */
  lemma RefusedJobsConsumerCanBeTakenOver()
    ensures var s := PerformAll(NOTHING, [Manual(ManualJob("a", "g", "t", "r", "never")), Manual(ManualJob("b", "g-retry", "r", "", "daily"))], DAILY);
      s.jobs.Keys == {"b"} && Key("g-retry", "r") in s.consumers && s.consumers[Key("g-retry", "r")]
      && TaskKey(s.jobs["b"].kafka) == Key("g-retry", "r")
  {
    ManualJobIsValid("a", "g", "t", "r", "never");
    ManualJobIsValid("b", "g-retry", "r", "", "daily");
    var first, second := ManualJob("a", "g", "t", "r", "never"), ManualJob("b", "g-retry", "r", "", "daily");
    TwoCalls(Manual(first), Manual(second), DAILY);
    assert RetryKey(first.kafka) == TaskKey(second.kafka) == Key("g-retry", "r");
    KeysDiffer(first.kafka);
    assert "never" !in DAILY;
  }

  function CoupledJob(name: string): JobDef {
    JobDef(name, true, false, KafkaConfig([], "", "", "", "", false), "daily", "", 3, false, false, false)
  }

  /** Two jobs coupled on the group and topic that are the retry group and topic of the job above. */
  const COUPLED := SharedDef(KafkaConfig(["broker"], "r", "", "", "g-retry", false), true, [CoupledJob("b"), CoupledJob("c")], false)

  lemma CoupledIsValid()
    ensures ValidShared(COUPLED) && Names(COUPLED.jobs) == {"b", "c"} && CronsParse(COUPLED, DAILY) && TaskKey(COUPLED.kafka) == Key("g-retry", "r")
  {
    NotBlank("r");
    NotBlank("g-retry");
    NotBlank("b");
    NotBlank("c");
    NotBlank("daily");
    assert COUPLED.jobs[0] == CoupledJob("b") && COUPLED.jobs[1] == CoupledJob("c");
    assert "b" != "c";
    assert Names(COUPLED.jobs) == {COUPLED.jobs[0].name, COUPLED.jobs[1].name};
  }

  /** A shared registration reserves what another job's retry consumer is. */
  lemma RetryConsumerCanBeReserved()
    ensures var s := PerformAll(NOTHING, [Manual(ManualJob("a", "g", "t", "r", "daily")), Shared(COUPLED)], DAILY);
      Key("g-retry", "r") in s.owners && s.owners[Key("g-retry", "r")] == {"b", "c"} && Key("g-retry", "r") in s.consumers && s.consumers[Key("g-retry", "r")]
  {
    ManualJobIsValid("a", "g", "t", "r", "daily");
    CoupledIsValid();
    var first := ManualJob("a", "g", "t", "r", "daily");
    TwoCalls(Manual(first), Shared(COUPLED), DAILY);
    assert RetryKey(first.kafka) == Key("g-retry", "r");
    KeysDiffer(first.kafka);
    assert "a" != "b" && "a" != "c";
    var s := Perform(NOTHING, Manual(first), DAILY).state;
    assert s.jobs.Keys == {"a"} && s.owners == map[];
    assert !InUse(s, TaskKey(COUPLED.kafka));
  }

  /** And a later job's retry messages come to a consumer reserved before, which does not take them for retry messages. */
  lemma ReservedConsumerCanBeJoined()
    ensures var s := PerformAll(NOTHING, [Shared(COUPLED), Manual(ManualJob("a", "g", "t", "r", "daily"))], DAILY);
      Key("g-retry", "r") in s.owners && s.owners[Key("g-retry", "r")] == {"b", "c"} && "a" in JobsRetryingOn(s.jobs, Key("g-retry", "r"))
      && Key("g-retry", "r") in s.consumers && !s.consumers[Key("g-retry", "r")]
  {
    ManualJobIsValid("a", "g", "t", "r", "daily");
    CoupledIsValid();
    var second := ManualJob("a", "g", "t", "r", "daily");
    TwoCalls(Shared(COUPLED), Manual(second), DAILY);
    assert RetryKey(second.kafka) == Key("g-retry", "r");
    KeysDiffer(second.kafka);
    assert NOTHING.jobs.Keys == {};
    SharedKeeps(NOTHING, COUPLED, DAILY);
    var s := Perform(NOTHING, Shared(COUPLED), DAILY).state;
    CouplingAdds(NOTHING, COUPLED);
    assert "a" != "b" && "a" != "c";
    assert "a" !in s.jobs;
  }
}
