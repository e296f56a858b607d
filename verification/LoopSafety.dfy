/** What every run of the control loop keeps, whatever falls between its API calls. */
module LoopSafety {
  import opened Wrappers
  import opened Topology
  import opened Conditions
  import opened StatusProjection
  import opened JobSets
  import opened ControlLoop

  ghost predicate KnownJob(w: World, job: AIJob) {
    job.version in w.jobVersions && w.jobVersions[job.version] == job
  }

  ghost predicate KnownJobSet(w: World, js: JobSet) {
    js.version in w.jobSetVersions && w.jobSetVersions[js.version] == js
  }

  /** Equal but for the generation stamp. */
  predicate SameReport(a: Condition, b: Condition) {
    a == b.(generation := a.generation)
  }

  /** Some version of a JobSet controlled by this UID really reported this condition. */
  ghost predicate Reported(w: World, uid: nat, c: Condition) {
    exists v, k :: v in w.jobSetVersions && w.jobSetVersions[v].controller == Some(uid)
      && 0 <= k < |w.jobSetVersions[v].conditions| && SameReport(c, w.jobSetVersions[v].conditions[k])
  }

  ghost predicate GoodStatus(w: World, uid: nat, generation: int, status: Status) {
    && NoDuplicates(status.conditions)
    && status.observedGeneration <= generation
    && (forall c :: c in status.conditions ==> c.generation <= status.observedGeneration)
    && (forall c :: c in status.conditions && c.kind != QUEUE_READY ==> Reported(w, uid, c))
  }

  ghost predicate GoodProgress(w: World, p: Progress) {
    match p
    case Idle => true
    case HasJob(job) => KnownJob(w, job)
    case HasQueue(job) => KnownJob(w, job)
    case HasJobSet(job, read) => KnownJob(w, job) && (read.Some? ==> KnownJobSet(w, read.value))
    case HasStatus(job, status, at, ready) =>
      && KnownJob(w, job) && status.observedGeneration == job.generation
      && GoodStatus(w, job.uid, job.generation, status)
  }

  /** A write is safe when it creates only where nothing was, with the worker template of an AIJob
      version that existed and under that AIJob's UID; updates only an object that this UID
      controls or nobody does, leaving the creation-only spec fields, foreign labels, other
      metadata and (without overrides) suspend as they were. */
  predicate SafeWrite(e: Write) {
    match e
    case Created(job, replaced, request) =>
      && replaced == None && request.controller == Some(job.uid)
      && request.spec.replicatedJobs == [WorkersOf(job.name, job.labels, job.core)]
      && request.spec.dnsHostnames == Some(true)
      && request.spec.failurePolicy == (if job.overrides.Some? then job.overrides.value.failurePolicy else None)
      && request.spec.successPolicy == (if job.overrides.Some? then job.overrides.value.successPolicy else None)
      && request.spec.suspend == (if job.overrides.Some? then Some(job.overrides.value.suspend) else None)
    case Updated(job, before, request) =>
      && before.controller in {None, Some(job.uid)} && request.controller == Some(job.uid)
      && request == before.(controller := request.controller, labels := request.labels, spec := request.spec)
      && request.spec == before.spec.(suspend := if job.overrides.Some? then Some(job.overrides.value.suspend)
                                                 else before.spec.suspend)
      && (forall key :: key in before.labels.Keys + request.labels.Keys && !IsOwned(key) ==>
            At(request.labels, key) == At(before.labels, key))
    case StatusWritten(job, status, at, ready) => true
  }

  ghost predicate Versions(w: World) {
    && (forall v :: v in w.jobVersions ==>
          var j := w.jobVersions[v]; j.version == v < w.nextVersion && j.uid < w.nextUid && j.name == w.name)
    && (forall v :: v in w.jobSetVersions ==>
          var js := w.jobSetVersions[v]; js.version == v < w.nextVersion && js.created && NoDuplicates(js.conditions))
    && (w.job.Some? ==> KnownJob(w, w.job.value))
    && (w.jobSet.Some? ==> KnownJobSet(w, w.jobSet.value))
  }

  /** Versions of one AIJob, in the order they were stored. */
  predicate Succeeds(earlier: AIJob, later: AIJob) {
    && earlier.core == later.core
    && earlier.generation <= later.generation
    && earlier.status.observedGeneration <= later.status.observedGeneration
  }

  predicate InOrder(earlier: AIJob, later: AIJob) {
    earlier.uid == later.uid ==> Succeeds(earlier, later)
  }

  predicate Latest(any: AIJob, current: AIJob) {
    any.uid == current.uid ==> any.version <= current.version
  }

  ghost predicate Ordered(w: World) {
    && (forall u, v | u in w.jobVersions && v in w.jobVersions && u <= v :: InOrder(w.jobVersions[u], w.jobVersions[v]))
    && (w.job.Some? ==> forall v | v in w.jobVersions :: Latest(w.jobVersions[v], w.job.value))
  }

  ghost predicate GoodVersions(w: World) {
    forall v :: v in w.jobVersions ==>
      GoodStatus(w, w.jobVersions[v].uid, w.jobVersions[v].generation, w.jobVersions[v].status)
  }

  ghost predicate GoodCalls(w: World) {
    forall call :: call in w.calls ==> GoodProgress(w, w.calls[call])
  }

  ghost predicate GoodWrites(w: World) {
    forall k :: 0 <= k < |w.writes| ==> SafeWrite(w.writes[k]) && KnownJob(w, w.writes[k].job)
  }

  ghost predicate Inv(w: World) {
    Versions(w) && Ordered(w) && GoodVersions(w) && GoodCalls(w) && GoodWrites(w)
  }

  /** History only grows. */
  ghost predicate Remembers(w: World, w': World) {
    && (forall v :: v in w.jobVersions ==> v in w'.jobVersions && w'.jobVersions[v] == w.jobVersions[v])
    && (forall v :: v in w.jobSetVersions ==> v in w'.jobSetVersions && w'.jobSetVersions[v] == w.jobSetVersions[v])
  }

  lemma StatusStaysGood(w: World, w': World, uid: nat, generation: int, status: Status)
    requires Remembers(w, w') && GoodStatus(w, uid, generation, status)
    ensures GoodStatus(w', uid, generation, status)
  {
  }

  lemma CallsStayGood(w: World, w': World)
    requires Remembers(w, w') && GoodCalls(w) && w'.calls == w.calls
    ensures GoodCalls(w')
  {
  }

  lemma GotoKeeps(w: World, call: nat, next: Progress)
    requires Inv(w) && GoodProgress(w, next)
    ensures Inv(Goto(w, call, next))
  {
    var w' := Goto(w, call, next);
    forall v | v in w'.jobVersions
      ensures GoodStatus(w', w'.jobVersions[v].uid, w'.jobVersions[v].generation, w'.jobVersions[v].status)
    {
      StatusStaysGood(w, w', w'.jobVersions[v].uid, w'.jobVersions[v].generation, w'.jobVersions[v].status);
    }
    CallsStayGood(w, w'.(calls := w.calls));
    forall c | c in w'.calls
      ensures GoodProgress(w', w'.calls[c])
    {
      var p := w'.calls[c];
      assert GoodProgress(w, p);
      if p.HasStatus? {
        StatusStaysGood(w, w', p.job.uid, p.job.generation, p.status);
      }
    }
  }

  lemma StoreJobKeepsOrder(w: World, job: AIJob)
    requires Versions(w) && Ordered(w)
    requires job.version == w.nextVersion
    requires (w.job.Some? && w.job.value.uid == job.uid && Succeeds(w.job.value, job))
          || (forall v :: v in w.jobVersions ==> w.jobVersions[v].uid != job.uid)
    ensures Ordered(StoreJob(w, job))
  {
  }

  /** Storing a new AIJob version that follows the current one, or starts a new UID. */
  lemma StoreJobKeeps(w: World, job: AIJob)
    requires Inv(w)
    requires job.version == w.nextVersion && job.name == w.name && job.uid < w.nextUid
    requires GoodStatus(w, job.uid, job.generation, job.status)
    requires (w.job.Some? && w.job.value.uid == job.uid && Succeeds(w.job.value, job))
          || (forall v :: v in w.jobVersions ==> w.jobVersions[v].uid != job.uid)
    ensures Inv(StoreJob(w, job))
  {
    var w' := StoreJob(w, job);
    StoreJobKeepsOrder(w, job);
    forall v | v in w'.jobVersions
      ensures GoodStatus(w', w'.jobVersions[v].uid, w'.jobVersions[v].generation, w'.jobVersions[v].status)
    {
      StatusStaysGood(w, w', w'.jobVersions[v].uid, w'.jobVersions[v].generation, w'.jobVersions[v].status);
    }
    CallsStayGood(w, w');
  }

  lemma StoreJobSetKeeps(w: World, js: JobSet)
    requires Inv(w)
    requires js.version == w.nextVersion && js.created && NoDuplicates(js.conditions)
    ensures Inv(StoreJobSet(w, js))
    ensures Remembers(w, StoreJobSet(w, js)) && KnownJobSet(StoreJobSet(w, js), js)
  {
    var w' := StoreJobSet(w, js);
    forall v | v in w'.jobVersions
      ensures GoodStatus(w', w'.jobVersions[v].uid, w'.jobVersions[v].generation, w'.jobVersions[v].status)
    {
      StatusStaysGood(w, w', w'.jobVersions[v].uid, w'.jobVersions[v].generation, w'.jobVersions[v].status);
    }
    CallsStayGood(w, w');
  }

  /** Changes that touch neither history nor calls. */
  lemma OtherKeeps(w: World, w': World)
    requires Inv(w) && w' == w.(clock := w'.clock, job := w'.job, jobSet := w'.jobSet, queues := w'.queues,
                                writes := w'.writes, nextUid := w'.nextUid)
    requires w'.job in {None, w.job} && w'.jobSet in {None, w.jobSet} && w.nextUid <= w'.nextUid
    requires GoodWrites(w')
    ensures Inv(w')
  {
  }

  lemma WaitingStatusIsGood(w: World, job: AIJob, now: int)
    requires GoodStatus(w, job.uid, job.generation, job.status)
    ensures GoodStatus(w, job.uid, job.generation, WaitingStatus(job, now))
    ensures WaitingStatus(job, now).observedGeneration == job.generation
  {
  }

  lemma GenerationsBounded(generation: int, cs: seq<Condition>, rs: seq<Condition>)
    requires SameOthers(rs, cs) && NoDuplicates(rs)
    requires forall c :: c in cs ==> c.generation <= generation
    requires Has(rs, QUEUE_READY) && QueueReady(rs).generation == generation
    ensures forall c :: c in rs ==> c.generation <= generation
  {
  }

  lemma ReadyStatusIsGood(w: World, job: AIJob, js: JobSet, now: int)
    requires KnownJobSet(w, js) && js.controller == Some(job.uid) && NoDuplicates(js.conditions)
    ensures GoodStatus(w, job.uid, job.generation, ReadyStatus(job, js.conditions, now))
    ensures ReadyStatus(job, js.conditions, now).observedGeneration == job.generation
  {
    var cs := Projected(job.generation, js.conditions).conditions;
    var s := ReadyStatus(job, js.conditions, now);
    StampedKeepsKinds(js.conditions, job.generation);
    WithQueueFrames(job.generation, cs, job.status.conditions, SelectedQueue(job.core.queueName), true, now);
    GenerationsBounded(job.generation, cs, s.conditions);
    forall c | c in s.conditions && c.kind != QUEUE_READY
      ensures Reported(w, job.uid, c)
    {
      assert c in cs;
      var k :| 0 <= k < |cs| && cs[k] == c;
      assert SameReport(c, w.jobSetVersions[js.version].conditions[k]);
    }
  }

  lemma ProjectionKeeps(w: World, call: nat, job: AIJob, js: JobSet)
    requires Inv(w) && KnownJob(w, job) && KnownJobSet(w, js) && js.controller == Some(job.uid)
    ensures Inv(WithProjection(w, call, job, js))
  {
    ReadyStatusIsGood(w, job, js, w.clock);
    GotoKeeps(w, call, HasStatus(job, ReadyStatus(job, js.conditions, w.clock), w.clock, true));
  }

  lemma CreateIsSafe(job: AIJob)
    ensures SafeWrite(Created(job, None, Request(job, None)))
  {
  }

  lemma UpdateIsSafe(job: AIJob, before: JobSet)
    requires before.created && before.controller in {None, Some(job.uid)}
    ensures SafeWrite(Updated(job, before, Request(job, Some(before))))
  {
  }

  lemma LogKeeps(w: World, e: Write)
    requires Inv(w) && SafeWrite(e) && KnownJob(w, e.job)
    ensures Inv(Log(w, e))
  {
    OtherKeeps(w, Log(w, e));
  }

  lemma TakeUidKeeps(w: World)
    requires Inv(w)
    ensures Inv(TakeUid(w))
  {
  }

  lemma CreateStores(w: World, job: AIJob, js: JobSet)
    requires Inv(w) && KnownJob(w, job)
    requires js.version == w.nextVersion && js.created && js.conditions == []
    ensures var w' := StoreJobSet(Log(w, Created(job, None, Request(job, None))), js);
      Inv(w') && KnownJob(w', job) && KnownJobSet(w', js)
  {
    CreateIsSafe(job);
    LogKeeps(w, Created(job, None, Request(job, None)));
    StoreJobSetKeeps(Log(w, Created(job, None, Request(job, None))), js);
  }

  lemma CreateKeeps(w: World, call: nat, job: AIJob, admission: Admission)
    requires Inv(w) && KnownJob(w, job)
    ensures Inv(CreateJobSet(w, call, job, admission))
  {
    if w.jobSet.Some? {
      GotoKeeps(w, call, Idle);
    } else {
      var js := NewJobSet(w, job, admission);
      TakeUidKeeps(w);
      CreateStores(TakeUid(w), job, js);
      ProjectionKeeps(StoreJobSet(Log(TakeUid(w), Created(job, None, Request(job, None))), js), call, job, js);
    }
  }

  /** An update that goes through. */
  lemma StoredUpdateKeeps(w: World, call: nat, job: AIJob, read: JobSet, admission: Admission)
    requires Inv(w) && KnownJob(w, job) && w.jobSet == Some(read) && read.controller in {None, Some(job.uid)} && read.created
    ensures var request := Request(job, Some(read));
      var js := Admit(request.(version := w.nextVersion), admission);
      NoDuplicates(read.conditions) ==>
        Inv(WithProjection(StoreJobSet(Log(w, Updated(job, read, request)), js), call, job, js))
  {
    var request := Request(job, Some(read));
    UpdateIsSafe(job, read);
    LogKeeps(w, Updated(job, read, request));
    var logged := Log(w, Updated(job, read, request));
    var js := Admit(request.(version := w.nextVersion), admission);
    if NoDuplicates(read.conditions) {
      StoreJobSetKeeps(logged, js);
      ProjectionKeeps(StoreJobSet(logged, js), call, job, js);
    }
  }

  lemma UpdateKeeps(w: World, call: nat, job: AIJob, read: JobSet, admission: Admission)
    requires Inv(w) && KnownJob(w, job) && KnownJobSet(w, read)
    ensures Inv(UpdateJobSet(w, call, job, read, admission))
  {
    if !(read.controller in {None, Some(job.uid)}) {
      GotoKeeps(w, call, Idle);
    } else if Request(job, Some(read)) == read {
      ProjectionKeeps(w, call, job, read);
    } else if w.jobSet.None? || w.jobSet.value.version != read.version {
      GotoKeeps(w, call, Idle);
    } else {
      assert w.jobSet.value == read;
      StoredUpdateKeeps(w, call, job, read, admission);
    }
  }

  lemma WriteStatusKeeps(w: World, call: nat)
    requires Inv(w)
    ensures Inv(DoWriteStatus(w, call))
  {
    var c := Call(w, call);
    if !c.HasStatus? {
    } else if c.job.status == c.status || w.job.None? || w.job.value.version != c.job.version {
      GotoKeeps(w, call, Idle);
    } else {
      assert GoodProgress(w, c) && w.job.value == c.job;
      var job := c.job.(status := c.status, version := w.nextVersion);
      var logged := Log(w, StatusWritten(c.job, c.status, c.at, c.ready));
      LogKeeps(w, StatusWritten(c.job, c.status, c.at, c.ready));
      StatusStaysGood(w, logged, job.uid, job.generation, c.status);
      assert GoodStatus(w, c.job.uid, c.job.generation, w.jobVersions[c.job.version].status);
      StoreJobKeeps(logged, job);
      GotoKeeps(StoreJob(logged, job), call, Idle);
    }
  }

  lemma SubmitKeeps(w: World, labels: Labels, core: CoreSpec, overrides: Option<Overrides>)
    requires Inv(w)
    ensures Inv(DoSubmitJob(w, labels, core, overrides))
  {
    if w.job.None? {
      var counted := TakeUid(w);
      var job := AIJob(w.name, w.nextUid, w.nextVersion, 1, labels, core, overrides, Status(0, []));
      assert forall v :: v in w.jobVersions ==> w.jobVersions[v].uid != w.nextUid;
      TakeUidKeeps(w);
      StoreJobKeeps(counted, job);
    }
  }

  lemma SuccessorKeeps(w: World, job: AIJob)
    requires Inv(w) && w.job.Some?
    requires job == w.job.value.(labels := job.labels, overrides := job.overrides, version := w.nextVersion,
                                 generation := job.generation)
    requires w.job.value.generation <= job.generation
    ensures Inv(StoreJob(w, job))
  {
    var current := w.job.value;
    assert KnownJob(w, current);
    assert GoodStatus(w, current.uid, current.generation, w.jobVersions[current.version].status);
    StoreJobKeeps(w, job);
  }

  lemma EditKeeps(w: World, labels: Labels, overrides: Option<Overrides>)
    requires Inv(w)
    ensures Inv(DoEditJob(w, labels, overrides))
  {
    if w.job.Some? {
      SuccessorKeeps(w, Edited(w.job.value, labels, overrides, w.nextVersion));
    }
  }

  lemma PlaceKeeps(w: World, controller: Option<nat>, rest: string, labels: Labels, spec: JobSetSpec)
    requires Inv(w)
    ensures Inv(DoPlaceJobSet(w, controller, rest, labels, spec))
  {
    if w.jobSet.None? {
      var counted := TakeUid(w);
      TakeUidKeeps(w);
      StoreJobSetKeeps(counted, JobSet(w.nextUid, w.nextVersion, true, controller, rest, labels, spec, []));
    }
  }

  lemma OthersKeep(w: World, a: Action)
    requires Inv(w) && !(a.ReadJob? || a.ReadQueue? || a.ReadJobSet? || a.WriteJobSet? || a.WriteStatus? || a.Stop?)
    ensures Inv(Step(w, a))
  {
    match a {
      case Wait(_) => OtherKeeps(w, Step(w, a));
      case DeleteJob => OtherKeeps(w, Step(w, a));
      case AddQueue(_) => OtherKeeps(w, Step(w, a));
      case DropQueue(_) => OtherKeeps(w, Step(w, a));
      case DeleteJobSet => OtherKeeps(w, Step(w, a));
      case SubmitJob(labels, core, overrides) => SubmitKeeps(w, labels, core, overrides);
      case EditJob(labels, overrides) => EditKeeps(w, labels, overrides);
      case PlaceJobSet(controller, rest, labels, spec) => PlaceKeeps(w, controller, rest, labels, spec);
      case EditJobSet(controller, rest, labels, spec) =>
        if w.jobSet.Some? {
          StoreJobSetKeeps(w, w.jobSet.value.(controller := controller, rest := rest, labels := labels, spec := spec,
                                              version := w.nextVersion));
        }
      case ReportConditions(conditions) =>
        if w.jobSet.Some? && NoDuplicates(conditions) {
          StoreJobSetKeeps(w, w.jobSet.value.(conditions := conditions, version := w.nextVersion));
        }
    }
  }

  lemma ReadQueueKeeps(w: World, call: nat, found: bool)
    requires Inv(w)
    ensures Inv(DoReadQueue(w, call, found))
  {
    var c := Call(w, call);
    if c.HasJob? {
      assert GoodProgress(w, c);
      assert GoodStatus(w, c.job.uid, c.job.generation, w.jobVersions[c.job.version].status);
      WaitingStatusIsGood(w, c.job, w.clock);
      GotoKeeps(w, call, if found then HasQueue(c.job)
                         else HasStatus(c.job, WaitingStatus(c.job, w.clock), w.clock, false));
    }
  }

  lemma ReadJobSetKeeps(w: World, call: nat, from: Option<nat>)
    requires Inv(w)
    ensures Inv(DoReadJobSet(w, call, from))
  {
    var c := Call(w, call);
    if c.HasQueue? {
      assert GoodProgress(w, c);
      if from.None? {
        GotoKeeps(w, call, HasJobSet(c.job, None));
      } else if from.value in w.jobSetVersions {
        GotoKeeps(w, call, HasJobSet(c.job, Some(w.jobSetVersions[from.value])));
      }
    }
  }

  lemma WriteJobSetKeeps(w: World, call: nat, admission: Admission)
    requires Inv(w)
    ensures Inv(DoWriteJobSet(w, call, admission))
  {
    var c := Call(w, call);
    if c.HasJobSet? {
      assert GoodProgress(w, c);
      if c.read.None? {
        CreateKeeps(w, call, c.job, admission);
      } else {
        UpdateKeeps(w, call, c.job, c.read.value, admission);
      }
    }
  }

  lemma StepKeeps(w: World, a: Action)
    requires Inv(w)
    ensures Inv(Step(w, a))
  {
    match a {
      case ReadJob(call, from) =>
        if Call(w, call) == Idle && from.Some? && from.value in w.jobVersions {
          GotoKeeps(w, call, HasJob(w.jobVersions[from.value]));
        }
      case ReadQueue(call, found) => ReadQueueKeeps(w, call, found);
      case ReadJobSet(call, from) => ReadJobSetKeeps(w, call, from);
      case WriteJobSet(call, admission) => WriteJobSetKeeps(w, call, admission);
      case WriteStatus(call) => WriteStatusKeeps(w, call);
      case Stop(call) => GotoKeeps(w, call, Idle);
      case _ => OthersKeep(w, a);
    }
  }

  lemma {:induction false} RunKeeps(w: World, trace: seq<Action>)
    requires Inv(w)
    ensures Inv(Run(w, trace))
    decreases |trace|
  {
    if trace != [] {
      StepKeeps(w, trace[0]);
      RunKeeps(Step(w, trace[0]), trace[1..]);
    }
  }

  /** In every run, every write the controller got through is safe; and the worker template it
      created is the one every version of that AIJob's immutable spec asks for. */
  lemma EveryWriteIsSafe(w: World, trace: seq<Action>)
    requires Init(w)
    ensures var end := Run(w, trace);
      && (forall k :: 0 <= k < |end.writes| ==> SafeWrite(end.writes[k]))
      && (forall k, v | 0 <= k < |end.writes| && end.writes[k].Created? && v in end.jobVersions
            && end.jobVersions[v].uid == end.writes[k].job.uid ::
            end.writes[k].request.spec.replicatedJobs
              == [WorkersOf(end.jobVersions[v].name, end.writes[k].job.labels, end.jobVersions[v].core)])
  {
    RunKeeps(w, trace);
    var end := Run(w, trace);
    forall k, v | 0 <= k < |end.writes| && end.writes[k].Created? && v in end.jobVersions
        && end.jobVersions[v].uid == end.writes[k].job.uid
      ensures end.writes[k].request.spec.replicatedJobs
              == [WorkersOf(end.jobVersions[v].name, end.writes[k].job.labels, end.jobVersions[v].core)]
    {
      var job := end.writes[k].job;
      assert KnownJob(end, job) && SafeWrite(end.writes[k]);
      assert InOrder(job, end.jobVersions[v]) || InOrder(end.jobVersions[v], job);
    }
  }

  /** In every run, every version of the AIJob has conditions of distinct kinds; each of them but
      QueueReady was, apart from its generation stamp, reported by a version of a JobSet this very
      AIJob controlled; stamps, observed generation and generation are in order; and between two
      versions under one UID the observed generation never goes back. */
  lemma EveryStatusIsGood(w: World, trace: seq<Action>, v: nat)
    requires Init(w)
    requires v in Run(w, trace).jobVersions
    ensures var end := Run(w, trace); var job := end.jobVersions[v];
      && NoDuplicates(job.status.conditions)
      && (forall c :: c in job.status.conditions && c.kind != QUEUE_READY ==> Reported(end, job.uid, c))
      && (forall c :: c in job.status.conditions ==>
            c.generation <= job.status.observedGeneration <= job.generation)
      && (forall u :: u in end.jobVersions && u <= v && end.jobVersions[u].uid == job.uid ==>
            end.jobVersions[u].status.observedGeneration <= job.status.observedGeneration)
  {
    RunKeeps(w, trace);
    var end := Run(w, trace);
    assert GoodStatus(end, end.jobVersions[v].uid, end.jobVersions[v].generation, end.jobVersions[v].status);
    forall u | u in end.jobVersions && u <= v && end.jobVersions[u].uid == end.jobVersions[v].uid
      ensures end.jobVersions[u].status.observedGeneration <= end.jobVersions[v].status.observedGeneration
    {
      assert InOrder(end.jobVersions[u], end.jobVersions[v]);
    }
  }
}
