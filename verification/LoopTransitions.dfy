/** The QueueReady transition time over whole runs. */
module LoopTransitions {
  import opened Wrappers
  import opened Topology
  import opened Conditions
  import opened StatusProjection
  import opened JobSets
  import opened ControlLoop
  import opened LoopSafety

  datatype Flip = Flip(ready: bool, at: int)

  /** The last status write under a UID whose queue readiness differs from the one before it, read
      off the log of writes alone. */
  function LastFlip(writes: seq<Write>, uid: nat): Option<Flip> {
    if writes == [] then None
    else
      var e := writes[|writes| - 1];
      var before := LastFlip(writes[..|writes| - 1], uid);
      if e.StatusWritten? && e.job.uid == uid && (before == None || before.value.ready != e.ready)
      then Some(Flip(e.ready, e.at)) else before
  }

  ghost predicate NoneReportsQueueReady(w: World) {
    forall v :: v in w.jobSetVersions ==> !Has(w.jobSetVersions[v].conditions, QUEUE_READY)
  }

  predicate Shows(cs: seq<Condition>, flip: Option<Flip>) {
    match flip
    case None => !Has(cs, QUEUE_READY)
    case Some(f) => Has(cs, QUEUE_READY) && QueueReady(cs).truth == TruthOf(f.ready) && QueueReady(cs).changed == f.at
  }

  predicate CarriesTime(p: Progress) {
    p.HasStatus? ==>
      var cs := p.status.conditions;
      && Has(cs, QUEUE_READY) && QueueReady(cs).truth == TruthOf(p.ready)
      && QueueReady(cs).changed == CarriedTime(p.job.status.conditions, p.ready, p.at)
  }

  ghost predicate FlipInv(w: World) {
    && (w.job.Some? ==> Shows(w.job.value.status.conditions, LastFlip(w.writes, w.job.value.uid)))
    && (forall call :: call in w.calls ==> CarriesTime(w.calls[call]))
  }

  lemma LastFlipAfter(writes: seq<Write>, e: Write, uid: nat)
    ensures LastFlip(writes + [e], uid) ==
      var before := LastFlip(writes, uid);
      if e.StatusWritten? && e.job.uid == uid && (before == None || before.value.ready != e.ready)
      then Some(Flip(e.ready, e.at)) else before
  {
  }

  lemma {:induction false} NoFlipUnderNewUid(writes: seq<Write>, uid: nat)
    requires forall k :: 0 <= k < |writes| ==> writes[k].job.uid < uid
    ensures LastFlip(writes, uid) == None
  {
    if writes != [] {
      NoFlipUnderNewUid(writes[..|writes| - 1], uid);
    }
  }

  lemma OthersRemember(w: World, a: Action)
    requires Versions(w)
    requires !(a.ReadJob? || a.ReadQueue? || a.ReadJobSet? || a.WriteJobSet? || a.WriteStatus? || a.Stop?)
    ensures Remembers(w, Step(w, a))
  {
    assert w.nextVersion !in w.jobVersions && w.nextVersion !in w.jobSetVersions;
  }

  lemma JobSetWriteRemembers(w: World, base: World, call: nat, job: AIJob, js: JobSet)
    requires Versions(w) && js.version == w.nextVersion
    requires base.jobVersions == w.jobVersions && base.jobSetVersions == w.jobSetVersions
    ensures Remembers(w, WithProjection(StoreJobSet(base, js), call, job, js))
  {
  }

  lemma CreateRemembers(w: World, call: nat, job: AIJob, admission: Admission)
    requires Versions(w)
    ensures Remembers(w, CreateJobSet(w, call, job, admission))
  {
    if w.jobSet.None? {
      JobSetWriteRemembers(w, Log(TakeUid(w), Created(job, None, Request(job, None))), call, job, NewJobSet(w, job, admission));
    }
  }

  lemma UpdateRemembers(w: World, call: nat, job: AIJob, read: JobSet, admission: Admission)
    requires Versions(w)
    ensures Remembers(w, UpdateJobSet(w, call, job, read, admission))
  {
    var request := Request(job, Some(read));
    if read.controller in {None, Some(job.uid)} && request != read
      && w.jobSet.Some? && w.jobSet.value.version == read.version {
      JobSetWriteRemembers(w, Log(w, Updated(job, w.jobSet.value, request)), call, job,
                           Admit(request.(version := w.nextVersion), admission));
    }
  }

  lemma WriteStatusRemembers(w: World, call: nat)
    requires Versions(w)
    ensures Remembers(w, DoWriteStatus(w, call))
  {
  }

  lemma StepRemembers(w: World, a: Action)
    requires Versions(w)
    ensures Remembers(w, Step(w, a))
  {
    match a {
      case ReadJob(_, _) => ReadsKeepStore(w, a);
      case ReadQueue(_, _) => ReadsKeepStore(w, a);
      case ReadJobSet(_, _) => ReadsKeepStore(w, a);
      case WriteJobSet(call, admission) =>
        var c := Call(w, call);
        if c.HasJobSet? && c.read.None? {
          CreateRemembers(w, call, c.job, admission);
        } else if c.HasJobSet? {
          UpdateRemembers(w, call, c.job, c.read.value, admission);
        }
      case WriteStatus(call) => WriteStatusRemembers(w, call);
      case Stop(_) => ReadsKeepStore(w, a);
      case _ => OthersRemember(w, a);
    }
  }

  lemma ReadsKeepStore(w: World, a: Action)
    requires a.ReadJob? || a.ReadQueue? || a.ReadJobSet? || a.Stop?
    ensures Step(w, a) == w.(calls := Step(w, a).calls)
  {
  }

  lemma {:induction false} RunRemembers(w: World, trace: seq<Action>)
    requires Inv(w)
    ensures Remembers(w, Run(w, trace))
    decreases |trace|
  {
    if trace != [] {
      StepRemembers(w, trace[0]);
      StepKeeps(w, trace[0]);
      RunRemembers(Step(w, trace[0]), trace[1..]);
    }
  }

  lemma GotoKeepsFlip(w: World, call: nat, next: Progress)
    requires FlipInv(w) && CarriesTime(next)
    ensures FlipInv(Goto(w, call, next))
  {
  }

  lemma WaitingCarries(job: AIJob, now: int)
    ensures CarriesTime(HasStatus(job, WaitingStatus(job, now), now, false))
  {
    var cs := job.status.conditions;
    WithQueueTime(job.generation, cs, cs, SelectedQueue(job.core.queueName), false, now);
    WithQueueFrames(job.generation, cs, cs, SelectedQueue(job.core.queueName), false, now);
  }

  lemma ReadyCarries(job: AIJob, reported: seq<Condition>, now: int)
    requires !Has(reported, QUEUE_READY)
    ensures CarriesTime(HasStatus(job, ReadyStatus(job, reported, now), now, true))
  {
    var cs := Projected(job.generation, reported).conditions;
    StampedKeepsKinds(reported, job.generation);
    WithQueueTime(job.generation, cs, job.status.conditions, SelectedQueue(job.core.queueName), true, now);
    WithQueueFrames(job.generation, cs, job.status.conditions, SelectedQueue(job.core.queueName), true, now);
  }

  /** Storing a JobSet and logging it says nothing about the queue. */
  lemma JobSetWriteKeepsFlip(w: World, e: Write, js: JobSet, call: nat, job: AIJob)
    requires FlipInv(w) && !e.StatusWritten? && !Has(js.conditions, QUEUE_READY)
    ensures FlipInv(WithProjection(StoreJobSet(Log(w, e), js), call, job, js))
  {
    if w.job.Some? {
      LastFlipAfter(w.writes, e, w.job.value.uid);
    }
    ReadyCarries(job, js.conditions, w.clock);
  }

  lemma CreateKeepsFlip(w: World, call: nat, job: AIJob, admission: Admission)
    requires FlipInv(w)
    ensures FlipInv(CreateJobSet(w, call, job, admission))
  {
    if w.jobSet.None? {
      JobSetWriteKeepsFlip(TakeUid(w), Created(job, None, Request(job, None)), NewJobSet(w, job, admission), call, job);
    }
  }

  lemma UpdateKeepsFlip(w: World, call: nat, job: AIJob, read: JobSet, admission: Admission)
    requires FlipInv(w) && !Has(read.conditions, QUEUE_READY)
    ensures FlipInv(UpdateJobSet(w, call, job, read, admission))
  {
    var request := Request(job, Some(read));
    if !(read.controller in {None, Some(job.uid)}) {
      GotoKeepsFlip(w, call, Idle);
    } else if request == read {
      ReadyCarries(job, read.conditions, w.clock);
      GotoKeepsFlip(w, call, HasStatus(job, ReadyStatus(job, read.conditions, w.clock), w.clock, true));
    } else if w.jobSet.None? || w.jobSet.value.version != read.version {
      GotoKeepsFlip(w, call, Idle);
    } else {
      JobSetWriteKeepsFlip(w, Updated(job, w.jobSet.value, request),
                           Admit(request.(version := w.nextVersion), admission), call, job);
    }
  }

  lemma WriteJobSetKeepsFlip(w: World, call: nat, admission: Admission)
    requires Inv(w) && FlipInv(w) && NoneReportsQueueReady(w)
    ensures FlipInv(DoWriteJobSet(w, call, admission))
  {
    var c := Call(w, call);
    if c.HasJobSet? {
      assert GoodProgress(w, c);
      if c.read.None? {
        CreateKeepsFlip(w, call, c.job, admission);
      } else {
        assert !Has(w.jobSetVersions[c.read.value.version].conditions, QUEUE_READY);
        UpdateKeepsFlip(w, call, c.job, c.read.value, admission);
      }
    }
  }

  lemma WriteStatusKeepsFlip(w: World, call: nat)
    requires Inv(w) && FlipInv(w)
    ensures FlipInv(DoWriteStatus(w, call))
  {
    var c := Call(w, call);
    if c.HasStatus? && c.job.status != c.status && w.job.Some? && w.job.value.version == c.job.version {
      assert GoodProgress(w, c) && CarriesTime(c) && w.job.value == c.job;
      LastFlipAfter(w.writes, StatusWritten(c.job, c.status, c.at, c.ready), c.job.uid);
    }
  }

  lemma SubmitKeepsFlip(w: World, labels: Labels, core: CoreSpec, overrides: Option<Overrides>)
    requires Inv(w) && FlipInv(w)
    ensures FlipInv(DoSubmitJob(w, labels, core, overrides))
  {
    forall k | 0 <= k < |w.writes|
      ensures w.writes[k].job.uid < w.nextUid
    {
      assert KnownJob(w, w.writes[k].job);
    }
    NoFlipUnderNewUid(w.writes, w.nextUid);
  }

  lemma OthersKeepFlip(w: World, a: Action)
    requires Inv(w) && FlipInv(w)
    requires !(a.ReadJob? || a.ReadQueue? || a.ReadJobSet? || a.WriteJobSet? || a.WriteStatus? || a.Stop?)
    ensures FlipInv(Step(w, a))
  {
    if a.SubmitJob? {
      SubmitKeepsFlip(w, a.labels, a.core, a.overrides);
    }
  }

  lemma ReadQueueKeepsFlip(w: World, call: nat, found: bool)
    requires FlipInv(w)
    ensures FlipInv(DoReadQueue(w, call, found))
  {
    var c := Call(w, call);
    if c.HasJob? {
      WaitingCarries(c.job, w.clock);
      GotoKeepsFlip(w, call, if found then HasQueue(c.job)
                             else HasStatus(c.job, WaitingStatus(c.job, w.clock), w.clock, false));
    }
  }

  lemma ReadsKeepFlip(w: World, a: Action)
    requires FlipInv(w)
    requires a.ReadJob? || a.ReadQueue? || a.ReadJobSet? || a.Stop?
    ensures FlipInv(Step(w, a))
  {
    if a.ReadQueue? {
      ReadQueueKeepsFlip(w, a.call, a.found);
    }
  }

  lemma StepKeepsFlip(w: World, a: Action)
    requires Inv(w) && FlipInv(w) && NoneReportsQueueReady(w)
    ensures FlipInv(Step(w, a))
  {
    if a.WriteJobSet? {
      WriteJobSetKeepsFlip(w, a.call, a.admission);
    } else if a.WriteStatus? {
      WriteStatusKeepsFlip(w, a.call);
    } else if a.ReadJob? || a.ReadQueue? || a.ReadJobSet? || a.Stop? {
      ReadsKeepFlip(w, a);
    } else {
      OthersKeepFlip(w, a);
    }
  }

  lemma {:induction false} RunKeepsFlip(w: World, trace: seq<Action>)
    requires Inv(w) && FlipInv(w) && NoneReportsQueueReady(Run(w, trace))
    ensures FlipInv(Run(w, trace))
    decreases |trace|
  {
    RunRemembers(w, trace);
    if trace != [] {
      StepKeepsFlip(w, trace[0]);
      StepKeeps(w, trace[0]);
      RunKeepsFlip(Step(w, trace[0]), trace[1..]);
    }
  }

  /** In every run in which no JobSet version reports a QueueReady condition of its own, the AIJob
      shows QueueReady from its first status write on, with the readiness last written, and its
      transition time is the time of the last change of readiness and of nothing else. */
  lemma TransitionTimeIsLastFlip(w: World, trace: seq<Action>)
    requires Init(w) && NoneReportsQueueReady(Run(w, trace))
    ensures var end := Run(w, trace);
      end.job.Some? ==> Shows(end.job.value.status.conditions, LastFlip(end.writes, end.job.value.uid))
  {
    RunKeepsFlip(w, trace);
  }
}
