/** The AIJob control loop as a transition system.

    The state is the API server's view of one AIJob name (its AIJob, the JobSet of the same name,
    the LocalQueues of its namespace), every version those objects ever had, and any number of
    Reconcile calls in progress. Each step is one API call of one Reconcile call, or one move by
    somebody else; runs are arbitrary sequences of steps. Reads may return any version that ever
    existed, or nothing; writes are checked against the stored version; a Reconcile call may stop
    anywhere, which covers refused calls, lost responses and crashes alike. */
module ControlLoop {
  import opened Wrappers
  import opened Topology
  import opened Conditions
  import opened StatusProjection
  import opened JobSets

  /** One Reconcile call in progress, by what it has read so far. */
  datatype Progress =
    | Idle
    | HasJob(job: AIJob)
    | HasQueue(job: AIJob)
    | HasJobSet(job: AIJob, read: Option<JobSet>)
    | HasStatus(job: AIJob, status: Status, at: int, ready: bool)

  /** A write the controller got through, with the object versions it was computed from. */
  datatype Write =
    | Created(job: AIJob, replaced: Option<JobSet>, request: JobSet)
    | Updated(job: AIJob, before: JobSet, request: JobSet)
    | StatusWritten(job: AIJob, status: Status, at: int, ready: bool)

  datatype World = World(
    name: string, clock: int, nextVersion: nat, nextUid: nat,
    job: Option<AIJob>, jobVersions: map<nat, AIJob>,
    jobSet: Option<JobSet>, jobSetVersions: map<nat, JobSet>,
    queues: set<string>, calls: map<nat, Progress>, writes: seq<Write>)

  /** What admission webhooks make of a JobSet write: its labels and spec. */
  datatype Admission = AsSent | Rewritten(labels: Labels, spec: JobSetSpec)

  datatype Action =
    // Everybody else
    | Wait(seconds: nat)
    | SubmitJob(labels: Labels, core: CoreSpec, overrides: Option<Overrides>)
    | EditJob(labels: Labels, overrides: Option<Overrides>)
    | DeleteJob
    | AddQueue(queue: string)
    | DropQueue(queue: string)
    | PlaceJobSet(controller: Option<nat>, rest: string, labels: Labels, spec: JobSetSpec)
    | EditJobSet(controller: Option<nat>, rest: string, labels: Labels, spec: JobSetSpec)
    | ReportConditions(conditions: seq<Condition>)
    | DeleteJobSet
    // One Reconcile call
    | ReadJob(call: nat, from: Option<nat>)
    | ReadQueue(call: nat, found: bool)
    | ReadJobSet(call: nat, from: Option<nat>)
    | WriteJobSet(call: nat, admission: Admission)
    | WriteStatus(call: nat)
    | Stop(call: nat)

  function Call(w: World, call: nat): Progress {
    if call in w.calls then w.calls[call] else Idle
  }

  function Goto(w: World, call: nat, next: Progress): World {
    w.(calls := w.calls[call := next])
  }

  function TakeUid(w: World): World {
    w.(nextUid := w.nextUid + 1)
  }

  function Log(w: World, e: Write): World {
    w.(writes := w.writes + [e])
  }

  function StoreJob(w: World, job: AIJob): World {
    w.(job := Some(job), jobVersions := w.jobVersions[job.version := job], nextVersion := w.nextVersion + 1)
  }

  function StoreJobSet(w: World, js: JobSet): World {
    w.(jobSet := Some(js), jobSetVersions := w.jobSetVersions[js.version := js], nextVersion := w.nextVersion + 1)
  }

  function Admit(js: JobSet, admission: Admission): JobSet {
    match admission
    case AsSent => js
    case Rewritten(labels, spec) => js.(labels := labels, spec := spec)
  }

  function DoSubmitJob(w: World, labels: Labels, core: CoreSpec, overrides: Option<Overrides>): World {
    if w.job.Some? then w
    else StoreJob(TakeUid(w),
                  AIJob(w.name, w.nextUid, w.nextVersion, 1, labels, core, overrides, Status(0, [])))
  }

  /** Metadata edits keep the generation; spec edits raise it. */
  function Edited(job: AIJob, labels: Labels, overrides: Option<Overrides>, version: nat): AIJob {
    job.(labels := labels, overrides := overrides, version := version,
         generation := if overrides == job.overrides then job.generation else job.generation + 1)
  }

  function DoEditJob(w: World, labels: Labels, overrides: Option<Overrides>): World {
    if w.job.None? then w else StoreJob(w, Edited(w.job.value, labels, overrides, w.nextVersion))
  }

  function DoPlaceJobSet(w: World, controller: Option<nat>, rest: string, labels: Labels, spec: JobSetSpec): World {
    if w.jobSet.Some? then w
    else StoreJobSet(TakeUid(w),
                     JobSet(w.nextUid, w.nextVersion, true, controller, rest, labels, spec, []))
  }

  function DoEditJobSet(w: World, controller: Option<nat>, rest: string, labels: Labels, spec: JobSetSpec): World {
    if w.jobSet.None? then w
    else StoreJobSet(w, w.jobSet.value.(controller := controller, rest := rest, labels := labels, spec := spec,
                                        version := w.nextVersion))
  }

  /** The API keeps at most one condition of a kind. */
  function DoReportConditions(w: World, conditions: seq<Condition>): World {
    if w.jobSet.None? || !NoDuplicates(conditions) then w
    else StoreJobSet(w, w.jobSet.value.(conditions := conditions, version := w.nextVersion))
  }

  function DoReadJob(w: World, call: nat, from: Option<nat>): World {
    if Call(w, call) != Idle then w
    else if from.Some? && from.value in w.jobVersions then Goto(w, call, HasJob(w.jobVersions[from.value]))
    else w
  }

  /** A missing queue leads straight to a status that keeps the conditions already reported. */
  function DoReadQueue(w: World, call: nat, found: bool): World {
    var c := Call(w, call);
    if !c.HasJob? then w
    else if found then Goto(w, call, HasQueue(c.job))
    else Goto(w, call, HasStatus(c.job, WaitingStatus(c.job, w.clock), w.clock, false))
  }

  function WaitingStatus(job: AIJob, now: int): Status {
    WithQueue(job.generation, job.status.conditions, job.status.conditions, SelectedQueue(job.core.queueName), false, now)
  }

  function ReadyStatus(job: AIJob, reported: seq<Condition>, now: int): Status {
    WithQueue(job.generation, Projected(job.generation, reported).conditions, job.status.conditions,
              SelectedQueue(job.core.queueName), true, now)
  }

  /** The queue the AIJob names, or the default one. */
  predicate Names(job: AIJob, queue: string) {
    queue == if job.core.queueName != "" then job.core.queueName else "training"
  }

  /** The status of a call that missed the queue: it says so of the queue the AIJob names, and keeps
      every other condition. */
  lemma WaitingStatusSays(job: AIJob, queue: string, now: int)
    requires Names(job, queue)
    ensures var rs, cs := WaitingStatus(job, now).conditions, job.status.conditions;
      && WaitingStatus(job, now).observedGeneration == job.generation
      && Announces(rs, job.generation, queue, false)
      && |cs| <= |rs| <= |cs| + 1
      && forall k :: 0 <= k < |cs| && cs[k].kind != "QueueReady" ==> rs[k] == cs[k]
  {
    var cs := job.status.conditions;
    QueueReadySays(job.generation, cs, cs, queue, false, now);
    OthersStayInPlace(job.generation, cs, cs, queue, false, now);
  }

  /** The status of a call that found it: it says so, and shows exactly what the JobSet reports, stamped
      with the AIJob's generation. */
  lemma ReadyStatusSays(job: AIJob, reported: seq<Condition>, queue: string, now: int)
    requires Names(job, queue)
    ensures var rs := ReadyStatus(job, reported, now).conditions;
      && ReadyStatus(job, reported, now).observedGeneration == job.generation
      && Announces(rs, job.generation, queue, true)
      && |reported| <= |rs| <= |reported| + 1
      && forall k :: 0 <= k < |reported| && reported[k].kind != "QueueReady" ==>
           rs[k] == reported[k].(generation := job.generation)
  {
    var cs := Projected(job.generation, reported).conditions;
    QueueReadySays(job.generation, cs, job.status.conditions, queue, true, now);
    OthersStayInPlace(job.generation, cs, job.status.conditions, queue, true, now);
  }

  function DoReadJobSet(w: World, call: nat, from: Option<nat>): World {
    var c := Call(w, call);
    if !c.HasQueue? then w
    else if from.None? then Goto(w, call, HasJobSet(c.job, None))
    else if from.value in w.jobSetVersions then Goto(w, call, HasJobSet(c.job, Some(w.jobSetVersions[from.value])))
    else w
  }

  /** The object the controller wants stored, given what it read. */
  function Request(job: AIJob, read: Option<JobSet>): JobSet {
    OwnedFields((if read.None? then BLANK else read.value).(controller := Some(job.uid)), Desired(job))
  }

  function WithProjection(w: World, call: nat, job: AIJob, js: JobSet): World {
    Goto(w, call, HasStatus(job, ReadyStatus(job, js.conditions, w.clock), w.clock, true))
  }

  function DoWriteJobSet(w: World, call: nat, admission: Admission): World {
    var c := Call(w, call);
    if !c.HasJobSet? then w
    else if c.read.None? then CreateJobSet(w, call, c.job, admission)
    else UpdateJobSet(w, call, c.job, c.read.value, admission)
  }

  function NewJobSet(w: World, job: AIJob, admission: Admission): (js: JobSet)
    ensures js.created && js.version == w.nextVersion && js.controller == Some(job.uid) && js.conditions == []
  {
    Admit(Request(job, None).(uid := w.nextUid, version := w.nextVersion, created := true), admission)
  }

  function CreateJobSet(w: World, call: nat, job: AIJob, admission: Admission): World {
    if w.jobSet.Some? then Goto(w, call, Idle)  // already exists
    else
      var js := NewJobSet(w, job, admission);
      WithProjection(StoreJobSet(Log(TakeUid(w), Created(job, w.jobSet, Request(job, None))), js), call, job, js)
  }

  function UpdateJobSet(w: World, call: nat, job: AIJob, read: JobSet, admission: Admission): World {
    if !(read.controller in {None, Some(job.uid)}) then Goto(w, call, Idle)  // controlled by another
    else
      var request := Request(job, Some(read));
      if request == read then WithProjection(w, call, job, read)
      else if w.jobSet.None? || w.jobSet.value.version != read.version then Goto(w, call, Idle)  // gone, or a conflict
      else
        var js := Admit(request.(version := w.nextVersion), admission);
        WithProjection(StoreJobSet(Log(w, Updated(job, w.jobSet.value, request)), js), call, job, js)
  }

  function DoWriteStatus(w: World, call: nat): World {
    var c := Call(w, call);
    if !c.HasStatus? then w
    else if c.job.status == c.status then Goto(w, call, Idle)
    else if w.job.None? || w.job.value.version != c.job.version then Goto(w, call, Idle)  // gone, or a conflict
    else
      Goto(StoreJob(Log(w, StatusWritten(w.job.value, c.status, c.at, c.ready)),
                    w.job.value.(status := c.status, version := w.nextVersion)), call, Idle)
  }

  function Step(w: World, a: Action): World {
    match a
    case Wait(seconds) => w.(clock := w.clock + seconds)
    case SubmitJob(labels, core, overrides) => DoSubmitJob(w, labels, core, overrides)
    case EditJob(labels, overrides) => DoEditJob(w, labels, overrides)
    case DeleteJob => w.(job := None)
    case AddQueue(queue) => w.(queues := w.queues + {queue})
    case DropQueue(queue) => w.(queues := w.queues - {queue})
    case PlaceJobSet(controller, rest, labels, spec) => DoPlaceJobSet(w, controller, rest, labels, spec)
    case EditJobSet(controller, rest, labels, spec) => DoEditJobSet(w, controller, rest, labels, spec)
    case ReportConditions(conditions) => DoReportConditions(w, conditions)
    case DeleteJobSet => w.(jobSet := None)
    case ReadJob(call, from) => DoReadJob(w, call, from)
    case ReadQueue(call, found) => DoReadQueue(w, call, found)
    case ReadJobSet(call, from) => DoReadJobSet(w, call, from)
    case WriteJobSet(call, admission) => DoWriteJobSet(w, call, admission)
    case WriteStatus(call) => DoWriteStatus(w, call)
    case Stop(call) => Goto(w, call, Idle)
  }

  function Run(w: World, trace: seq<Action>): World
    decreases |trace|
  {
    if trace == [] then w else Run(Step(w, trace[0]), trace[1..])
  }

  lemma {:induction false} RunAppend(w: World, first: seq<Action>, second: seq<Action>)
    ensures Run(w, first + second) == Run(Run(w, first), second)
    decreases |first|
  {
    if first == [] {
      assert first + second == second;
    } else {
      assert (first + second)[0] == first[0] && (first + second)[1..] == first[1..] + second;
      RunAppend(Step(w, first[0]), first[1..], second);
    }
  }

  ghost predicate Init(w: World) {
    && w.job.None? && w.jobVersions == map[] && w.jobSet.None? && w.jobSetVersions == map[]
    && w.calls == map[] && w.writes == []
  }
}
