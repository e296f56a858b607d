/** What one undisturbed Reconcile call with fresh reads achieves, from any reachable state. */
module LoopConvergence {
  import opened Wrappers
  import opened Conditions
  import opened StatusProjection
  import opened JobSets
  import opened ControlLoop
  import opened LoopSafety

  function CurrentJobSet(w: World): Option<nat> {
    if w.jobSet.Some? then Some(w.jobSet.value.version) else None
  }

  /** One Reconcile call that reads the current versions, with nobody else moving in between. */
  function FreshCall(w: World, call: nat, admission: Admission): seq<Action>
    requires w.job.Some?
  {
    [ReadJob(call, Some(w.job.value.version)),
     ReadQueue(call, SelectedQueue(w.job.value.core.queueName) in w.queues),
     ReadJobSet(call, CurrentJobSet(w)),
     WriteJobSet(call, admission),
     WriteStatus(call)]
  }

  function Pass(w: World, call: nat, admission: Admission): World
    requires w.job.Some?
  {
    Run(w, FreshCall(w, call, admission))
  }

  predicate QueuePresent(w: World) {
    w.job.Some? && SelectedQueue(w.job.value.core.queueName) in w.queues
  }

  /** The queue that counts is the one the AIJob names, or the default one. */
  lemma QueuePresentIff(w: World, queue: string)
    requires w.job.Some? && Names(w.job.value, queue)
    ensures QueuePresent(w) <==> queue in w.queues
  {
  }

  /** The JobSet is absent, uncontrolled, or controlled by this AIJob. */
  predicate MayOwn(w: World) {
    w.job.Some? && (w.jobSet.Some? ==> w.jobSet.value.controller in {None, Some(w.job.value.uid)})
  }

  function ReportedNow(w: World): seq<Condition> {
    if w.jobSet.Some? then w.jobSet.value.conditions else []
  }

  /** Admission leaves the fields the controller owns alone. */
  ghost predicate RespectsOwned(admission: Admission, job: AIJob) {
    match admission
    case AsSent => true
    case Rewritten(labels, spec) => Agrees(BLANK.(labels := labels, spec := spec), Desired(job))
  }

  /** The stored objects and the log are the same; only the clock and the calls may differ. */
  predicate SameStore(w: World, w': World) {
    w' == w.(clock := w'.clock, calls := w'.calls)
  }

  lemma RunFive(w: World, a: Action, b: Action, c: Action, d: Action, e: Action)
    ensures Run(w, [a, b, c, d, e]) == Step(Step(Step(Step(Step(w, a), b), c), d), e)
  {
    assert [a, b, c, d, e] == [a] + ([b] + ([c] + ([d] + [e])));
    RunCons(w, a, [b] + ([c] + ([d] + [e])));
    RunCons(Step(w, a), b, [c] + ([d] + [e]));
    RunCons(Step(Step(w, a), b), c, [d] + [e]);
    RunCons(Step(Step(Step(w, a), b), c), d, [e]);
    RunCons(Step(Step(Step(Step(w, a), b), c), d), e, []);
    assert [e] == [e] + [];
  }

  lemma RunCons(w: World, a: Action, rest: seq<Action>)
    ensures Run(w, [a] + rest) == Run(Step(w, a), rest)
  {
  }

  lemma GotoGoto(w: World, call: nat, first: Progress, second: Progress)
    ensures Goto(Goto(w, call, first), call, second) == Goto(w, call, second)
  {
  }

  lemma ReadsFresh(w: World, call: nat, found: bool)
    requires Inv(w) && w.job.Some? && Call(w, call) == Idle
    ensures var job := w.job.value;
      DoReadQueue(DoReadJob(w, call, Some(job.version)), call, found)
        == Goto(w, call, if found then HasQueue(job) else HasStatus(job, WaitingStatus(job, w.clock), w.clock, false))
  {
    var job := w.job.value;
    assert KnownJob(w, job);
    GotoGoto(w, call, HasJob(job), if found then HasQueue(job)
                                   else HasStatus(job, WaitingStatus(job, w.clock), w.clock, false));
  }

  lemma ReadsFreshJobSet(w: World, call: nat, job: AIJob)
    requires Versions(w)
    ensures DoReadJobSet(Goto(w, call, HasQueue(job)), call, CurrentJobSet(w)) == Goto(w, call, HasJobSet(job, w.jobSet))
  {
  }

  lemma PassIsFiveCalls(w: World, call: nat, admission: Admission, found: bool)
    requires w.job.Some? && found == (SelectedQueue(w.job.value.core.queueName) in w.queues)
    ensures Pass(w, call, admission) ==
      DoWriteStatus(DoWriteJobSet(DoReadJobSet(DoReadQueue(DoReadJob(w, call, Some(w.job.value.version)), call, found),
                                               call, CurrentJobSet(w)), call, admission), call)
  {
    RunFive(w, ReadJob(call, Some(w.job.value.version)), ReadQueue(call, found), ReadJobSet(call, CurrentJobSet(w)),
            WriteJobSet(call, admission), WriteStatus(call));
  }

  lemma NoJobSetHalf(w: World, call: nat, from: Option<nat>, admission: Admission)
    requires Call(w, call).HasStatus?
    ensures DoWriteJobSet(DoReadJobSet(w, call, from), call, admission) == w
  {
  }

  lemma PassWaiting(w: World, call: nat, admission: Admission)
    requires Inv(w) && w.job.Some? && !QueuePresent(w) && Call(w, call) == Idle
    ensures Pass(w, call, admission)
         == DoWriteStatus(Goto(w, call, HasStatus(w.job.value, WaitingStatus(w.job.value, w.clock), w.clock, false)), call)
  {
    PassIsFiveCalls(w, call, admission, false);
    ReadsFresh(w, call, false);
    NoJobSetHalf(Goto(w, call, HasStatus(w.job.value, WaitingStatus(w.job.value, w.clock), w.clock, false)),
                 call, CurrentJobSet(w), admission);
  }

  lemma PassReady(w: World, call: nat, admission: Admission)
    requires Inv(w) && QueuePresent(w) && Call(w, call) == Idle
    ensures Pass(w, call, admission)
         == DoWriteStatus(DoWriteJobSet(Goto(w, call, HasJobSet(w.job.value, w.jobSet)), call, admission), call)
  {
    PassIsFiveCalls(w, call, admission, true);
    ReadsFresh(w, call, true);
    ReadsFreshJobSet(w, call, w.job.value);
  }

  /** After the JobSet half of a pass, the stored JobSet is what the AIJob asks for, still reports
      what it reported, and the call holds the matching status. */
  ghost predicate JobSetDone(w: World, w': World, call: nat) {
    && w.job.Some? && w'.job == w.job && w'.jobVersions == w.jobVersions && w'.clock == w.clock && w'.queues == w.queues
    && w'.jobSet.Some? && ReportedNow(w') == ReportedNow(w)
    && w'.jobSet.value.controller == Some(w.job.value.uid)
    && Agrees(w'.jobSet.value, Desired(w.job.value))
    && Call(w', call) == HasStatus(w.job.value, ReadyStatus(w.job.value, ReportedNow(w), w.clock), w.clock, true)
    && (forall c :: c != call ==> Call(w', c) == Call(w, c))
    && |w'.writes| <= |w.writes| + 1
  }

  lemma AgreesOnLabelsAndSuspend(a: JobSet, b: JobSet, desired: JobSet)
    requires a.labels == b.labels && a.spec.suspend == b.spec.suspend
    ensures Agrees(a, desired) <==> Agrees(b, desired)
  {
  }

  lemma AdmittedAgrees(request: JobSet, admission: Admission, job: AIJob)
    requires Agrees(request, Desired(job)) && RespectsOwned(admission, job)
    ensures Agrees(Admit(request, admission), Desired(job))
  {
  }

  lemma NewJobSetAgrees(w: World, job: AIJob, admission: Admission)
    requires RespectsOwned(admission, job)
    ensures Agrees(NewJobSet(w, job, admission), Desired(job))
  {
  }

  lemma CreateDone(w: World, call: nat, job: AIJob, admission: Admission)
    requires w.job == Some(job) && w.jobSet.None? && RespectsOwned(admission, job)
    ensures JobSetDone(w, CreateJobSet(w, call, job, admission), call)
  {
    NewJobSetAgrees(w, job, admission);
  }

  lemma UpdateDone(w: World, call: nat, job: AIJob, read: JobSet, admission: Admission)
    requires w.job == Some(job) && w.jobSet == Some(read) && RespectsOwned(admission, job)
    requires read.controller in {None, Some(job.uid)}
    ensures JobSetDone(w, UpdateJobSet(w, call, job, read, admission), call)
  {
    var request := Request(job, Some(read));
    PutGet(read.(controller := Some(job.uid)), Desired(job));
    if request != read {
      var stamped := request.(version := w.nextVersion);
      AgreesOnLabelsAndSuspend(stamped, request, Desired(job));
      AdmittedAgrees(stamped, admission, job);
    }
  }

  lemma WriteJobSetDone(w: World, call: nat, admission: Admission)
    requires MayOwn(w) && RespectsOwned(admission, w.job.value) && Call(w, call) == HasJobSet(w.job.value, w.jobSet)
    ensures JobSetDone(w, DoWriteJobSet(w, call, admission), call)
  {
    if w.jobSet.None? {
      CreateDone(w, call, w.job.value, admission);
    } else {
      UpdateDone(w, call, w.job.value, w.jobSet.value, admission);
    }
  }

  /** The state a pass leaves: the JobSet agrees, and the status is the projection of what it
      reports, computed from the conditions the AIJob had before. */
  ghost predicate Projects(w: World, w': World) {
    && w.job.Some? && w'.job.Some? && w'.jobSet.Some?
    && w'.job.value == w.job.value.(status := ReadyStatus(w.job.value, ReportedNow(w), w.clock),
                                    version := w'.job.value.version)
    && ReportedNow(w') == ReportedNow(w) && w'.clock == w.clock && w'.queues == w.queues
    && w'.jobSet.value.controller == Some(w.job.value.uid)
    && Agrees(w'.jobSet.value, Desired(w.job.value))
  }

  lemma WriteStatusProjects(w: World, w1: World, call: nat)
    requires JobSetDone(w, w1, call)
    ensures var w' := DoWriteStatus(w1, call);
      && Projects(w, w') && |w'.writes| <= |w.writes| + 2
      && Call(w', call) == Idle && (forall c :: c != call ==> Call(w', c) == Call(w, c))
  {
  }

  lemma PassProjects(w: World, call: nat, admission: Admission)
    requires Inv(w) && QueuePresent(w) && MayOwn(w) && Call(w, call) == Idle
    requires RespectsOwned(admission, w.job.value)
    ensures var w' := Pass(w, call, admission);
      && Projects(w, w') && |w'.writes| <= |w.writes| + 2
      && Call(w', call) == Idle && (forall c :: c != call ==> Call(w', c) == Call(w, c))
  {
    PassReady(w, call, admission);
    var ready := Goto(w, call, HasJobSet(w.job.value, w.jobSet));
    WriteJobSetDone(ready, call, admission);
    WriteStatusProjects(ready, DoWriteJobSet(ready, call, admission), call);
  }

  lemma {:induction false} PassKeepsInv(w: World, call: nat, admission: Admission)
    requires Inv(w) && w.job.Some?
    ensures Inv(Pass(w, call, admission))
  {
    RunKeeps(w, FreshCall(w, call, admission));
  }

  /** Desired fields do not depend on the status. */
  lemma DesiredIgnoresStatus(job: AIJob, status: Status, version: nat)
    ensures Desired(job.(status := status, version := version)) == Desired(job)
  {
  }

  /** A second pass finds its JobSet in order: the only thing it can write is the status. */
  lemma SecondPass(w: World, w1: World, later: World, call: nat, admission: Admission)
    requires Projects(w, w1) && SameStore(w1, later) && Inv(later) && QueuePresent(later) && Call(later, call) == Idle
    ensures Pass(later, call, admission)
         == DoWriteStatus(WithProjection(Goto(later, call, HasJobSet(later.job.value, later.jobSet)),
                                         call, later.job.value, later.jobSet.value), call)
  {
    var job := later.job.value;
    var js := later.jobSet.value;
    PassReady(later, call, admission);
    assert KnownJobSet(later, js);
    DesiredIgnoresStatus(w.job.value, job.status, job.version);
    GetPut(js, Desired(job));
    assert Request(job, Some(js)) == js;
  }

  lemma ProjectingAgain(w: World, w1: World, later: int)
    requires Projects(w, w1)
    ensures var again := ReadyStatus(w1.job.value, ReportedNow(w1), later);
      && (Settled(ReportedNow(w), true) ==> again == w1.job.value.status)
      && (!Settled(ReportedNow(w), true) && later != w.clock ==> again != w1.job.value.status)
  {
    var job := w.job.value;
    var cs := Projected(job.generation, ReportedNow(w)).conditions;
    StampedKeepsKinds(ReportedNow(w), job.generation);
    WithQueueAgain(job.generation, cs, job.status.conditions, SelectedQueue(job.core.queueName), true, w.clock, later);
  }

  /** One pass is enough: from any reachable state whose queue exists and whose JobSet is not
      somebody else's, it makes at most two writes, after which a pass at any later time writes
      nothing if the JobSet reports no QueueReady condition with a status other than True, and
      rewrites the status, every time, if it does. */
  lemma OnePassConverges(start: World, trace: seq<Action>, call: nat, admission: Admission,
                         seconds: nat, call': nat, admission': Admission)
    requires Init(start)
    requires var w := Run(start, trace);
      QueuePresent(w) && MayOwn(w) && Call(w, call) == Idle && Call(w, call') == Idle
      && RespectsOwned(admission, w.job.value)
    ensures Pass(Run(start, trace), call, admission).job.Some?
    ensures var w := Run(start, trace);
      var w1 := Pass(w, call, admission);
      var again := Pass(Step(w1, Wait(seconds)), call', admission');
      && |w1.writes| <= |w.writes| + 2
      && (Settled(ReportedNow(w), true) ==> SameStore(w1, again))
      && (!Settled(ReportedNow(w), true) && seconds > 0 ==> |again.writes| == |w1.writes| + 1)
  {
    RunKeeps(start, trace);
    var w := Run(start, trace);
    PassProjects(w, call, admission);
    PassKeepsInv(w, call, admission);
    var w1 := Pass(w, call, admission);
    var later := Step(w1, Wait(seconds));
    StepKeeps(w1, Wait(seconds));
    SecondPass(w, w1, later, call', admission');
    ProjectingAgain(w, w1, later.clock);
  }

  /** Repeated passes at the given intervals. */
  function Passes(w: World, call: nat, intervals: seq<nat>): World
    requires w.job.Some?
    decreases |intervals|
  {
    if intervals == [] then w
    else
      var next := Pass(Step(w, Wait(intervals[0])), call, AsSent);
      if next.job.Some? then Passes(next, call, intervals[1..]) else next
  }

  lemma {:induction false} SettledStays(w: World, w1: World, now: World, call: nat, intervals: seq<nat>)
    requires Projects(w, w1) && SameStore(w1, now) && Inv(now) && QueuePresent(now) && Call(now, call) == Idle
    requires Settled(ReportedNow(w), true)
    ensures SameStore(w1, Passes(now, call, intervals))
    decreases |intervals|
  {
    if intervals != [] {
      var later := Step(now, Wait(intervals[0]));
      StepKeeps(now, Wait(intervals[0]));
      SecondPass(w, w1, later, call, AsSent);
      ProjectingAgain(w, w1, later.clock);
      var next := Pass(later, call, AsSent);
      PassKeepsInv(later, call, AsSent);
      assert SameStore(w1, next) && Call(next, call) == Idle;
      SettledStays(w, w1, next, call, intervals[1..]);
    }
  }

  /** The fixed point: after one pass, any number of passes at any intervals write nothing. */
  lemma EveryLaterPassIsQuiet(start: World, trace: seq<Action>, call: nat, admission: Admission, intervals: seq<nat>)
    requires Init(start)
    requires var w := Run(start, trace);
      QueuePresent(w) && MayOwn(w) && Call(w, call) == Idle && RespectsOwned(admission, w.job.value)
      && Settled(ReportedNow(w), true)
    ensures var w1 := Pass(Run(start, trace), call, admission);
      w1.job.Some? && SameStore(w1, Passes(w1, call, intervals))
  {
    RunKeeps(start, trace);
    var w := Run(start, trace);
    PassProjects(w, call, admission);
    PassKeepsInv(w, call, admission);
    var w1 := Pass(w, call, admission);
    SettledStays(w, w1, w1, call, intervals);
  }

  /** A pass over a projected state keeps the projection; over an unsettled one it writes once. */
  lemma UnsettledPass(before: World, now: World, call: nat, seconds: nat)
    requires Projects(before, now) && Inv(now) && QueuePresent(now) && Call(now, call) == Idle
    requires !Settled(ReportedNow(now), true) && seconds > 0
    ensures var later := Step(now, Wait(seconds)); var next := Pass(later, call, AsSent);
      && Projects(later, next) && Call(next, call) == Idle && |next.writes| == |now.writes| + 1
      && Inv(next) && QueuePresent(next) && !Settled(ReportedNow(next), true)
  {
    var later := Step(now, Wait(seconds));
    StepKeeps(now, Wait(seconds));
    PassProjects(later, call, AsSent);
    SecondPass(before, now, later, call, AsSent);
    ProjectingAgain(before, now, later.clock);
    PassKeepsInv(later, call, AsSent);
  }

  lemma {:induction false} UnsettledRewrites(before: World, now: World, call: nat, intervals: seq<nat>)
    requires Projects(before, now) && Inv(now) && QueuePresent(now) && Call(now, call) == Idle
    requires !Settled(ReportedNow(now), true) && forall k :: 0 <= k < |intervals| ==> intervals[k] > 0
    ensures |Passes(now, call, intervals).writes| == |now.writes| + |intervals|
    decreases |intervals|
  {
    if intervals != [] {
      var later := Step(now, Wait(intervals[0]));
      UnsettledPass(before, now, call, intervals[0]);
      UnsettledRewrites(later, Pass(later, call, AsSent), call, intervals[1..]);
    }
  }

  /** The other side of it: when the JobSet reports a QueueReady condition of its own that is not
      True, every later pass rewrites the status, without end. */
  lemma EveryLaterPassWrites(start: World, trace: seq<Action>, call: nat, admission: Admission, intervals: seq<nat>)
    requires Init(start) && forall k :: 0 <= k < |intervals| ==> intervals[k] > 0
    requires var w := Run(start, trace);
      QueuePresent(w) && MayOwn(w) && Call(w, call) == Idle && RespectsOwned(admission, w.job.value)
      && !Settled(ReportedNow(w), true)
    ensures var w1 := Pass(Run(start, trace), call, admission);
      w1.job.Some? && |Passes(w1, call, intervals).writes| == |w1.writes| + |intervals|
  {
    RunKeeps(start, trace);
    var w := Run(start, trace);
    PassProjects(w, call, admission);
    PassKeepsInv(w, call, admission);
    UnsettledRewrites(w, Pass(w, call, admission), call, intervals);
  }

  /** While the queue is missing a pass touches nothing but the status, and a second one nothing. */
  lemma WaitingConverges(w: World, call: nat, admission: Admission, seconds: nat)
    requires Inv(w) && w.job.Some? && !QueuePresent(w) && Call(w, call) == Idle
    ensures var w1 := Pass(w, call, admission);
      && w1.job.Some? && w1.jobSet == w.jobSet && |w1.writes| <= |w.writes| + 1
      && SameStore(w1, Pass(Step(w1, Wait(seconds)), call, admission))
  {
    PassWaiting(w, call, admission);
    PassKeepsInv(w, call, admission);
    var w1 := Pass(w, call, admission);
    var later := Step(w1, Wait(seconds));
    StepKeeps(w1, Wait(seconds));
    PassWaiting(later, call, admission);
    var job := w.job.value;
    WaitingAgain(job.generation, job.status.conditions, SelectedQueue(job.core.queueName), w.clock, later.clock);
  }

  /** A JobSet somebody else controls is left alone, and so is the status. */
  lemma ForeignJobSetIsLeftAlone(w: World, call: nat, admission: Admission)
    requires Inv(w) && QueuePresent(w) && !MayOwn(w) && Call(w, call) == Idle
    ensures SameStore(w, Pass(w, call, admission))
  {
    PassReady(w, call, admission);
  }
}
