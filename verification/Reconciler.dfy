/** Reconcile as the controller runs it: one API call after another, with anything falling between
    them, mutating its in-memory objects and counters as it goes. */
module Reconciler {
  import opened Wrappers
  import opened Conditions
  import opened StatusProjection
  import opened JobSets
  import opened ControlLoop
  import opened LoopSafety
  import opened LoopConvergence

  datatype Outcome = Success | Error | NotFound | Waiting
  datatype Operation = Get | Queue | JobSetWrite | StatusWrite
  datatype Change = Create | Update | Unchanged

  const QUEUE_RETRY_SECONDS := 30

  datatype Ledger = Ledger(
    reconciliations: multiset<Outcome>, errors: multiset<Operation>,
    jobSetChanges: multiset<Change>, statusChanges: multiset<bool>)

  /** Errors by operation sum to error results, and status observations to the calls that succeeded
      or found their queue missing; only real JobSet changes are counted, at most one for each call
      that succeeded or failed writing the status. */
  ghost predicate Balanced(l: Ledger) {
    && |l.errors| == l.reconciliations[Error]
    && |l.statusChanges| == l.reconciliations[Success] + l.reconciliations[Waiting]
    && l.jobSetChanges[Unchanged] == 0
    && |l.jobSetChanges| <= l.reconciliations[Success] + l.errors[StatusWrite]
  }

  /** What a successful or waiting call did, for the record; a call that failed writing its status
      did the same but for that. */
  datatype Report =
    | Nothing
    | QueueMissing(job: AIJob, at: int)
    | Converged(job: AIJob, read: Option<JobSet>, stored: JobSet, change: Change, at: int, point: nat)

  /** The JobSet change a call made, if it made any. */
  function ChangesOf(report: Report): multiset<Change> {
    if report.Converged? && report.change != Unchanged then multiset{report.change} else multiset{}
  }

  /** Whether a successful or waiting call had to write the status. */
  predicate StatusWanted(report: Report) {
    match report
    case Nothing => false
    case QueueMissing(job, at) => job.status != WaitingStatus(job, at)
    case Converged(job, _, stored, _, at, _) => job.status != ReadyStatus(job, stored.conditions, at)
  }

  /** What a call has counted before its outcome is: an error under the operation that failed, or
      whether it wrote the status; and the JobSet change it made, also when it failed later. */
  ghost predicate Counted(before: Ledger, after: Ledger, outcome: Outcome, report: Report, failed: Operation) {
    && (report.Converged? ==> outcome == Success || (outcome == Error && failed == StatusWrite))
    && (outcome == NotFound ==> report == Nothing)
    && after == Ledger(
      before.reconciliations,
      before.errors + (if outcome == Error then multiset{failed} else multiset{}),
      before.jobSetChanges + ChangesOf(report),
      before.statusChanges
        + (if outcome == Success || outcome == Waiting then multiset{StatusWanted(report)} else multiset{}))
  }

  /** What the attempt to publish a status counts. */
  ghost predicate Published(before: Ledger, after: Ledger, written: bool, changed: bool) {
    after == if written then before.(statusChanges := before.statusChanges + multiset{changed})
             else before.(errors := before.errors + multiset{StatusWrite})
  }

  function Ended(l: Ledger, outcome: Outcome): Ledger {
    l.(reconciliations := l.reconciliations + multiset{outcome})
  }

  lemma ErrorKeepsBalance(before: Ledger, after: Ledger, report: Report, failed: Operation)
    requires Balanced(before) && Counted(before, after, Error, report, failed)
    ensures Balanced(Ended(after, Error))
  {
    assert |after.errors| == |before.errors| + 1;
    assert |after.jobSetChanges| == |before.jobSetChanges| + |ChangesOf(report)|;
  }

  lemma ObservationKeepsBalance(before: Ledger, after: Ledger, outcome: Outcome, report: Report, failed: Operation)
    requires Balanced(before) && Counted(before, after, outcome, report, failed) && outcome in {Success, Waiting}
    ensures Balanced(Ended(after, outcome))
  {
    assert |after.statusChanges| == |before.statusChanges| + 1;
    assert |after.jobSetChanges| == |before.jobSetChanges| + |ChangesOf(report)|;
  }

  lemma CountingKeepsBalance(before: Ledger, after: Ledger, outcome: Outcome, report: Report, failed: Operation)
    requires Balanced(before) && Counted(before, after, outcome, report, failed)
    ensures Balanced(Ended(after, outcome))
  {
    match outcome
    case Error => ErrorKeepsBalance(before, after, report, failed);
    case NotFound => assert after == before;
    case _ => ObservationKeepsBalance(before, after, outcome, report, failed);
  }

  /** Counters by label value. */
  class Metrics {
    var reconciliations: multiset<Outcome>
    var errors: multiset<Operation>
    var jobSetChanges: multiset<Change>
    var statusChanges: multiset<bool>

    ghost function Value(): Ledger
      reads this
    {
      Ledger(reconciliations, errors, jobSetChanges, statusChanges)
    }

    constructor ()
      ensures Balanced(Value()) && |reconciliations| == 0
    {
      reconciliations, errors, jobSetChanges, statusChanges := multiset{}, multiset{}, multiset{}, multiset{};
    }

    method Observe(outcome: Outcome)
      modifies this`reconciliations
      ensures Value() == old(Value()).(reconciliations := old(reconciliations) + multiset{outcome})
    {
      reconciliations := reconciliations + multiset{outcome};
    }

    method RecordError(operation: Operation)
      modifies this`errors
      ensures Value() == old(Value()).(errors := old(errors) + multiset{operation})
    {
      errors := errors + multiset{operation};
    }

    method RecordJobSetChange(change: Change)
      modifies this`jobSetChanges
      ensures Value() == old(Value()).(jobSetChanges :=
        old(jobSetChanges) + if change == Unchanged then multiset{} else multiset{change})
    {
      if change == Create || change == Update {
        jobSetChanges := jobSetChanges + multiset{change};
      }
    }

    method RecordStatusChange(changed: bool)
      modifies this`statusChanges
      ensures Value() == old(Value()).(statusChanges := old(statusChanges) + multiset{changed})
    {
      statusChanges := statusChanges + multiset{changed};
    }
  }

  datatype Reply<+T> = Found(value: T) | Absent | Failed

  /** How one API call fares: what the others do first, then whether it is answered. A write can
      be refused, or take effect while its answer is lost. */
  datatype Fate = Answered | Refused | Lost

  datatype Turn = Turn(moves: seq<Action>, fate: Fate, from: Option<nat>, admission: Admission)

  /** Everything that happens to one Reconcile call from outside: one turn per API call. */
  datatype Script = Script(job: Turn, queue: Turn, queueFound: bool, jobSet: Turn, write: Turn, status: Turn)

  predicate ByCall(a: Action, call: nat) {
    match a
    case ReadJob(c, _) => c == call
    case ReadQueue(c, _) => c == call
    case ReadJobSet(c, _) => c == call
    case WriteJobSet(c, _) => c == call
    case WriteStatus(c) => c == call
    case Stop(c) => c == call
    case _ => false
  }

  predicate ByOthers(turn: Turn, call: nat) {
    forall a :: a in turn.moves ==> !ByCall(a, call)
  }

  predicate Outside(script: Script, call: nat) {
    && ByOthers(script.job, call) && ByOthers(script.queue, call) && ByOthers(script.jobSet, call)
    && ByOthers(script.write, call) && ByOthers(script.status, call)
  }

  /** Nobody else moves, and the call is answered. */
  predicate QuietTurn(turn: Turn) {
    turn.moves == [] && turn.fate == Answered
  }

  predicate Quiet(script: Script) {
    && QuietTurn(script.job) && QuietTurn(script.queue) && QuietTurn(script.jobSet)
    && QuietTurn(script.write) && QuietTurn(script.status)
  }

  /** The reads return what is stored. */
  predicate Fresh(script: Script, w: World) {
    && w.job.Some? && script.job.from == Some(w.job.value.version)
    && script.queueFound == QueuePresent(w) && script.jobSet.from == CurrentJobSet(w)
  }

  /** What the others make of the world before an API call. */
  function Moved(w: World, turn: Turn): World {
    Run(w, turn.moves)
  }

  /** The steps of the control loop a call amounts to, with those of the others in between. */
  function ScriptRun(w: World, script: Script, call: nat): World {
    DoWriteStatus(Moved(ScriptHalf(QueueAsked(JobRead(w, script, call), script, call), script, call), script.status), call)
  }

  function JobRead(w: World, script: Script, call: nat): World {
    DoReadJob(Moved(w, script.job), call, script.job.from)
  }

  function QueueAsked(w: World, script: Script, call: nat): World {
    DoReadQueue(Moved(w, script.queue), call, script.queueFound)
  }

  function JobSetRead(w: World, script: Script, call: nat): World {
    DoReadJobSet(Moved(w, script.jobSet), call, script.jobSet.from)
  }

  function ScriptHalf(w: World, script: Script, call: nat): World {
    DoWriteJobSet(Moved(JobSetRead(w, script, call), script.write), call, script.write.admission)
  }

  /** The same, but for what this call remembers. */
  predicate SameButCall(w: World, w': World, call: nat) {
    Goto(w, call, Idle) == Goto(w', call, Idle)
  }

  /** The status the AIJob read should have: it has it already, or it is now the stored one and its
      write is the last in the log. */
  predicate Shown(w: World, job: AIJob, status: Status, at: int, ready: bool) {
    job.status == status || JustWritten(w, job, status, at, ready)
  }

  predicate JustWritten(w: World, job: AIJob, status: Status, at: int, ready: bool) {
    && w.job.Some? && w.job.value.status == status && |w.writes| > 0
    && var last := w.writes[|w.writes| - 1];
      last.StatusWritten? && last.job.version == job.version && last.status == status && last.at == at && last.ready == ready
  }

  /** How the JobSet came to be what it is: left as read, or created, or updated from what was read. */
  ghost predicate JobSetWritten(w: World, job: AIJob, read: Option<JobSet>, stored: JobSet, change: Change) {
    && stored.controller == Some(job.uid)
    && match change
       case Unchanged => read == Some(stored) && Request(job, read) == stored
       case Create => read.None? && LastWrite(w, Created(job, None, Request(job, None)), stored)
       case Update => read.Some? && exists before: JobSet ::
         before.version == read.value.version && LastWrite(w, Updated(job, before, Request(job, read)), stored)
  }

  function VersionOf(read: Option<JobSet>): Option<nat> {
    if read.None? then None else Some(read.value.version)
  }

  predicate LastWrite(w: World, e: Write, stored: JobSet) {
    w.jobSet == Some(stored) && |w.writes| > 0 && w.writes[|w.writes| - 1] == e
  }

  lemma OtherCreate(w: World, other: nat, call: nat, job: AIJob, admission: Admission)
    requires other != call
    ensures Call(CreateJobSet(w, other, job, admission), call) == Call(w, call)
  {
  }

  lemma StoredElsewhere(w: World, other: nat, call: nat, job: AIJob, e: Write, js: JobSet)
    requires other != call
    ensures Call(WithProjection(StoreJobSet(Log(w, e), js), other, job, js), call) == Call(w, call)
  {
  }

  lemma OtherUpdate(w: World, other: nat, call: nat, job: AIJob, read: JobSet, admission: Admission)
    requires other != call
    ensures Call(UpdateJobSet(w, other, job, read, admission), call) == Call(w, call)
  {
    var request := Request(job, Some(read));
    var js := Admit(request.(version := w.nextVersion), admission);
    var result := UpdateJobSet(w, other, job, read, admission);
    if read.controller !in {None, Some(job.uid)} {
      assert result == Goto(w, other, Idle);
    } else if request == read {
      assert result == WithProjection(w, other, job, read);
    } else if w.jobSet.None? || w.jobSet.value.version != read.version {
      assert result == Goto(w, other, Idle);
    } else {
      StoredElsewhere(w, other, call, job, Updated(job, w.jobSet.value, request), js);
    }
  }

  lemma OtherWriteJobSet(w: World, other: nat, call: nat, admission: Admission)
    requires other != call
    ensures Call(DoWriteJobSet(w, other, admission), call) == Call(w, call)
  {
    var c := Call(w, other);
    if c.HasJobSet? {
      OtherCreate(w, other, call, c.job, admission);
      if c.read.Some? {
        OtherUpdate(w, other, call, c.job, c.read.value, admission);
      }
    }
  }

  lemma OtherWriteStatus(w: World, other: nat, call: nat)
    requires other != call
    ensures Call(DoWriteStatus(w, other), call) == Call(w, call)
  {
  }

  lemma OthersLeaveCallAlone(w: World, a: Action, call: nat)
    requires !ByCall(a, call)
    ensures Call(Step(w, a), call) == Call(w, call)
  {
    match a {
      case WriteJobSet(other, admission) => OtherWriteJobSet(w, other, call, admission);
      case WriteStatus(other) => OtherWriteStatus(w, other, call);
      case _ =>
    }
  }

  /** What a create leaves the call with, when nothing was stored yet. */
  lemma CreateAnswers(w: World, call: nat, job: AIJob, admission: Admission)
    requires Call(w, call) == HasJobSet(job, None) && w.jobSet.None?
    ensures var js := NewJobSet(w, job, admission);
      Call(DoWriteJobSet(w, call, admission), call)
        == HasStatus(job, ReadyStatus(job, js.conditions, w.clock), w.clock, true)
  {
  }

  lemma CreateIsLogged(w: World, call: nat, job: AIJob, admission: Admission)
    requires Call(w, call) == HasJobSet(job, None) && w.jobSet.None?
    ensures JobSetWritten(DoWriteJobSet(w, call, admission), job, None, NewJobSet(w, job, admission), Create)
  {
  }

  /** What an update leaves the call with, when the version read is still the stored one. */
  lemma UpdateAnswers(w: World, call: nat, job: AIJob, read: JobSet, admission: Admission)
    requires Call(w, call) == HasJobSet(job, Some(read)) && read.controller in {None, Some(job.uid)}
    requires w.jobSet.Some? && w.jobSet.value.version == read.version && Request(job, Some(read)) != read
    ensures var js := Admit(Request(job, Some(read)).(version := w.nextVersion), admission);
      Call(DoWriteJobSet(w, call, admission), call)
        == HasStatus(job, ReadyStatus(job, js.conditions, w.clock), w.clock, true)
  {
  }

  lemma UpdateIsLogged(w: World, call: nat, job: AIJob, read: JobSet, admission: Admission)
    requires Call(w, call) == HasJobSet(job, Some(read)) && read.controller in {None, Some(job.uid)}
    requires w.jobSet.Some? && w.jobSet.value.version == read.version && Request(job, Some(read)) != read
    ensures var js := Admit(Request(job, Some(read)).(version := w.nextVersion), admission);
      JobSetWritten(DoWriteJobSet(w, call, admission), job, Some(read), js, Update)
  {
    var js := Admit(Request(job, Some(read)).(version := w.nextVersion), admission);
    assert LastWrite(DoWriteJobSet(w, call, admission), Updated(job, w.jobSet.value, Request(job, Some(read))), js);
  }

  /** A write that is refused ends the call. */
  lemma WriteFails(w: World, call: nat, job: AIJob, read: Option<JobSet>, admission: Admission)
    requires Call(w, call) == HasJobSet(job, read)
    requires read.Some? ==> Request(job, read) != read.value
    requires if read.None? then w.jobSet.Some? else CurrentJobSet(w) != Some(read.value.version)
    ensures Call(DoWriteJobSet(w, call, admission), call) == Idle
  {
  }

  lemma WriteJobSetStep(w: World, call: nat, admission: Admission)
    ensures Step(w, WriteJobSet(call, admission)) == DoWriteJobSet(w, call, admission)
  {
  }

  lemma KeepAnswers(w: World, call: nat, job: AIJob, read: JobSet, admission: Admission)
    requires Call(w, call) == HasJobSet(job, Some(read)) && read.controller in {None, Some(job.uid)}
    requires Request(job, Some(read)) == read
    ensures Call(DoWriteJobSet(w, call, admission), call)
         == HasStatus(job, ReadyStatus(job, read.conditions, w.clock), w.clock, true)
  {
  }

  lemma RunSnoc(w: World, trace: seq<Action>, a: Action)
    ensures Run(w, trace + [a]) == Step(Run(w, trace), a)
  {
    RunAppend(w, trace, [a]);
    assert Run(Run(w, trace), [a]) == Run(Step(Run(w, trace), a), []);
  }

  /** The API server, with the run that led to its present state. */
  class ApiServer {
    var world: World
    ghost var start: World
    ghost var trace: seq<Action>

    ghost predicate Valid()
      reads this
    {
      world == Run(start, trace)
    }

    /** The present state was reached from an earlier one by further steps of the system. */
    twostate predicate Continues()
      reads this
    {
      Valid() && start == old(start) && old(trace) <= trace
    }

    constructor (w: World)
      ensures Valid() && world == w && start == w && trace == []
    {
      world, start, trace := w, w, [];
    }

    method Take(a: Action)
      requires Valid()
      modifies this
      ensures Continues() && trace == old(trace) + [a] && world == Step(old(world), a)
    {
      RunSnoc(start, trace, a);
      world := Step(world, a);
      trace := trace + [a];
    }

    method Interleave(moves: seq<Action>, ghost call: nat)
      requires Valid() && forall a :: a in moves ==> !ByCall(a, call)
      modifies this
      ensures Continues() && Call(world, call) == old(Call(world, call))
      ensures world == Run(old(world), moves)
    {
      for k := 0 to |moves|
        invariant Continues() && Call(world, call) == old(Call(world, call))
        invariant world == Run(old(world), moves[..k])
      {
        OthersLeaveCallAlone(world, moves[k], call);
        RunSnoc(old(world), moves[..k], moves[k]);
        assert moves[..k + 1] == moves[..k] + [moves[k]];
        Take(moves[k]);
      }
      assert moves[..|moves|] == moves;
    }

    method GetJob(call: nat, turn: Turn) returns (reply: Reply<AIJob>)
      requires Valid() && ByOthers(turn, call) && Call(world, call) == Idle
      modifies this
      ensures Continues()
      ensures Call(world, call) == if reply.Found? then HasJob(reply.value) else Idle
      ensures turn.fate == Answered ==> world == DoReadJob(Moved(old(world), turn), call, turn.from)
      ensures reply.Absent? <==> turn.fate == Answered && turn.from.None?
      ensures reply.Found? <==>
        turn.fate == Answered && turn.from.Some? && turn.from.value in Moved(old(world), turn).jobVersions
    {
      Interleave(turn.moves, call);
      if turn.fate != Answered || (turn.from.Some? && turn.from.value !in world.jobVersions) {
        return Failed;
      }
      if turn.from.None? {
        return Absent;
      }
      reply := Found(world.jobVersions[turn.from.value]);
      Take(ReadJob(call, turn.from));
    }

    method GetQueue(call: nat, turn: Turn, found: bool, ghost job: AIJob) returns (reply: Reply<()>, now: int)
      requires Valid() && ByOthers(turn, call) && Call(world, call) == HasJob(job)
      modifies this
      ensures Continues()
      ensures reply.Found? ==> Call(world, call) == HasQueue(job)
      ensures reply.Absent? ==> Call(world, call) == HasStatus(job, WaitingStatus(job, now), now, false)
      ensures turn.fate == Answered ==> world == DoReadQueue(Moved(old(world), turn), call, found)
      ensures reply == if turn.fate != Answered then Failed else if found then Found(()) else Absent
    {
      Interleave(turn.moves, call);
      now := world.clock;
      if turn.fate != Answered {
        return Failed, now;
      }
      Take(ReadQueue(call, found));
      reply := if found then Found(()) else Absent;
    }

    method GetJobSet(call: nat, turn: Turn, ghost job: AIJob) returns (reply: Reply<JobSet>)
      requires Valid() && ByOthers(turn, call) && Call(world, call) == HasQueue(job)
      modifies this
      ensures Continues()
      ensures !reply.Failed? ==>
        Call(world, call) == HasJobSet(job, if reply.Found? then Some(reply.value) else None)
      ensures reply.Failed? ==> Call(world, call) == HasQueue(job)
      ensures turn.fate == Answered ==> world == DoReadJobSet(Moved(old(world), turn), call, turn.from)
      ensures reply.Failed? <==>
        turn.fate != Answered || (turn.from.Some? && turn.from.value !in Moved(old(world), turn).jobSetVersions)
    {
      Interleave(turn.moves, call);
      if turn.fate != Answered || (turn.from.Some? && turn.from.value !in world.jobSetVersions) {
        return Failed;
      }
      reply := if turn.from.None? then Absent else Found(world.jobSetVersions[turn.from.value]);
      Take(ReadJobSet(call, turn.from));
    }

    /** Sends the object as a create (nothing was read) or as an update of the version read, and
        answers with what is now stored. */
    method PutJobSet(call: nat, turn: Turn, job: AIJob, read: Option<JobSet>, request: JobSet)
      returns (stored: Option<JobSet>, now: int)
      requires Valid() && ByOthers(turn, call) && Call(world, call) == HasJobSet(job, read)
      requires request == Request(job, read) && (read.Some? ==> request != read.value)
      requires read.Some? ==> read.value.controller in {None, Some(job.uid)}
      modifies this
      ensures Continues()
      ensures stored.Some? ==>
        Call(world, call) == HasStatus(job, ReadyStatus(job, stored.value.conditions, now), now, true)
      ensures stored.Some? ==> JobSetWritten(world, job, read, stored.value, if read.None? then Create else Update)
      ensures turn.fate == Answered ==> world == DoWriteJobSet(Moved(old(world), turn), call, turn.admission)
      ensures turn.fate == Answered && stored.None? ==> Call(world, call) == Idle
      ensures stored.Some? <==> turn.fate == Answered && CurrentJobSet(Moved(old(world), turn)) == VersionOf(read)
    {
      Interleave(turn.moves, call);
      now := world.clock;
      stored := None;
      if turn.fate == Refused {
        return;
      }
      if read.None? {
        if world.jobSet.None? {
          stored := Some(Admit(request.(uid := world.nextUid, version := world.nextVersion, created := true), turn.admission));
          CreateAnswers(world, call, job, turn.admission);
          CreateIsLogged(world, call, job, turn.admission);
        }
      } else if world.jobSet.Some? && world.jobSet.value.version == read.value.version {
        stored := Some(Admit(request.(version := world.nextVersion), turn.admission));
        UpdateAnswers(world, call, job, read.value, turn.admission);
        UpdateIsLogged(world, call, job, read.value, turn.admission);
      }
      if stored.None? {
        WriteFails(world, call, job, read, turn.admission);
      }
      WriteJobSetStep(world, call, turn.admission);
      Take(WriteJobSet(call, turn.admission));
      if turn.fate == Lost {
        stored := None;
      }
    }

    /** Nothing to send: the projection is made of the version read. */
    method KeepJobSet(call: nat, turn: Turn, job: AIJob, read: JobSet) returns (now: int)
      requires Valid() && ByOthers(turn, call) && Call(world, call) == HasJobSet(job, Some(read))
      requires Request(job, Some(read)) == read && read.controller in {None, Some(job.uid)}
      modifies this
      ensures Continues()
      ensures Call(world, call) == HasStatus(job, ReadyStatus(job, read.conditions, now), now, true)
      ensures world == DoWriteJobSet(Moved(old(world), turn), call, turn.admission)
    {
      Interleave(turn.moves, call);
      now := world.clock;
      KeepAnswers(world, call, job, read, turn.admission);
      WriteJobSetStep(world, call, turn.admission);
      Take(WriteJobSet(call, turn.admission));
    }

    method PutStatus(call: nat, turn: Turn, job: AIJob, status: Status, ghost at: int, ghost ready: bool)
      returns (ok: bool)
      requires Valid() && ByOthers(turn, call) && Call(world, call) == HasStatus(job, status, at, ready)
      requires job.status != status
      modifies this
      ensures Continues()
      ensures ok ==> JustWritten(world, job, status, at, ready)
      ensures turn.fate == Answered ==> world == DoWriteStatus(old(world), call)
      ensures ok <==> turn.fate == Answered && old(world.job).Some? && old(world.job).value.version == job.version
    {
      if turn.fate == Refused {
        return false;
      }
      ok := world.job.Some? && world.job.value.version == job.version;
      Take(WriteStatus(call));
      if turn.fate == Lost {
        ok := false;
      }
    }
  }

  // ---- what becomes of a call

  /** The status write goes through: it is not needed, or it is answered and the AIJob stored is still
      the version read. */
  predicate StatusThrough(w: World, turn: Turn, call: nat) {
    var c, m := Call(w, call), Moved(w, turn);
    && c.HasStatus?
    && (c.job.status == c.status || (turn.fate == Answered && m.job.Some? && m.job.value.version == c.job.version))
  }

  predicate ReadAnswered(w: World, turn: Turn) {
    turn.fate == Answered && (turn.from.Some? ==> turn.from.value in Moved(w, turn).jobSetVersions)
  }

  /** The JobSet write goes through: nobody else controls the JobSet read, and the write is not
      needed, or it is answered and the JobSet stored is still the version read. */
  predicate WriteThrough(w: World, turn: Turn, call: nat) {
    var c := Call(w, call);
    && c.HasJobSet? && (c.read.Some? ==> c.read.value.controller in {None, Some(c.job.uid)})
    && (c.read == Some(Request(c.job, c.read))
        || (turn.fate == Answered && CurrentJobSet(Moved(w, turn)) == VersionOf(c.read)))
  }

  predicate JobSetThrough(w: World, script: Script, call: nat) {
    ReadAnswered(w, script.jobSet) && WriteThrough(JobSetRead(w, script, call), script.write, call)
  }

  /** A call fails exactly when one of its API calls is not answered, a read asks for a version that
      never was, somebody else controls the JobSet, or a write that is needed is stale. */
  function ScriptOutcome(w: World, script: Script, call: nat): Outcome {
    if script.job.fate != Answered then Error
    else if script.job.from.None? then NotFound
    else if script.job.from.value !in Moved(w, script.job).jobVersions then Error
    else JobOutcome(JobRead(w, script, call), script, call)
  }

  function JobOutcome(w: World, script: Script, call: nat): Outcome {
    if script.queue.fate != Answered then Error
    else AskedOutcome(QueueAsked(w, script, call), script, call)
  }

  function AskedOutcome(asked: World, script: Script, call: nat): Outcome {
    if !script.queueFound then if StatusThrough(asked, script.status, call) then Waiting else Error
    else if JobSetThrough(asked, script, call) && StatusThrough(ScriptHalf(asked, script, call), script.status, call)
    then Success else Error
  }

  /** The API call over which a failing call fails: the first that does. */
  function FailedAt(w: World, script: Script, call: nat): Operation {
    if script.job.fate != Answered || (script.job.from.Some? && script.job.from.value !in Moved(w, script.job).jobVersions)
    then Get
    else JobFailedAt(JobRead(w, script, call), script, call)
  }

  function JobFailedAt(w: World, script: Script, call: nat): Operation {
    if script.queue.fate != Answered then Queue
    else if script.queueFound && !JobSetThrough(QueueAsked(w, script, call), script, call) then JobSetWrite
    else StatusWrite
  }

  /** Errors go under the API call that failed, and what came before it was in order. */
  lemma ErrorsByOperation(w: World, script: Script, call: nat)
    requires ScriptOutcome(w, script, call) == Error
    ensures script.job.fate != Answered ==> FailedAt(w, script, call) == Get
    ensures FailedAt(w, script, call) != Get && script.queue.fate != Answered ==> FailedAt(w, script, call) == Queue
    ensures FailedAt(w, script, call) != Get && script.queue.fate == Answered && !script.queueFound ==>
      FailedAt(w, script, call) == StatusWrite
    ensures FailedAt(w, script, call) != Get && script.queue.fate == Answered && script.queueFound
            && script.jobSet.fate != Answered ==>
      FailedAt(w, script, call) == JobSetWrite
    ensures FailedAt(w, script, call) == JobSetWrite <==>
      FailedAt(w, script, call) !in {Get, Queue} && script.queueFound
      && !JobSetThrough(QueueAsked(JobRead(w, script, call), script, call), script, call)
    ensures FailedAt(w, script, call) == Get ==>
      script.job.fate != Answered
      || (script.job.from.Some? && script.job.from.value !in Moved(w, script.job).jobVersions)
    ensures FailedAt(w, script, call) == Queue ==> script.queue.fate != Answered
  {
  }

  /** What the JobSet half of a call does: if it goes through, the two steps of the control loop; and
      in a quiet call these in any case. */
  predicate HalfDone(before: World, script: Script, call: nat, after: World, ok: bool) {
    && (ok <==> JobSetThrough(before, script, call))
    && (ok ==> after == ScriptHalf(before, script, call))
    && (Quiet(script) && !ok ==>
          SameButCall(after, ScriptHalf(before, script, call), call)
          && !Call(ScriptHalf(before, script, call), call).HasStatus?)
  }

  lemma Unread(before: World, script: Script, call: nat, after: World, job: AIJob)
    requires !ReadAnswered(before, script.jobSet) && Call(after, call) == HasQueue(job)
    requires script.jobSet.fate == Answered ==> after == JobSetRead(before, script, call)
    ensures HalfDone(before, script, call, after, false)
  {
  }

  lemma Unowned(before: World, script: Script, call: nat, after: World, job: AIJob, js: JobSet)
    requires ReadAnswered(before, script.jobSet) && after == JobSetRead(before, script, call)
    requires Call(after, call) == HasJobSet(job, Some(js)) && js.controller !in {None, Some(job.uid)}
    ensures HalfDone(before, script, call, after, false)
  {
  }

  lemma HalfWritten(before: World, script: Script, call: nat, read: World, after: World, ok: bool)
    requires ReadAnswered(before, script.jobSet) && read == JobSetRead(before, script, call)
    requires ok <==> WriteThrough(read, script.write, call)
    requires ok || script.write.fate == Answered ==>
      after == DoWriteJobSet(Moved(read, script.write), call, script.write.admission)
    requires !ok && script.write.fate == Answered ==> Call(after, call) == Idle
    ensures HalfDone(before, script, call, after, ok)
  {
  }

  /** What is left of a call once it has asked for its queue. */
  predicate RestDone(asked: World, script: Script, call: nat, after: World, outcome: Outcome) {
    && outcome == AskedOutcome(asked, script, call)
    && (Quiet(script) ==>
          SameButCall(after, DoWriteStatus(Moved(ScriptHalf(asked, script, call), script.status), call), call))
  }

  lemma HalfEnds(before: World, script: Script, call: nat, after: World)
    requires HalfDone(before, script, call, after, false) && script.queueFound
    ensures RestDone(before, script, call, after, Error)
  {
  }

  lemma MissingEnds(asked: World, script: Script, call: nat, after: World, outcome: Outcome)
    requires Call(asked, call).HasStatus? && !script.queueFound && outcome in {Error, Waiting}
    requires outcome == Waiting <==> StatusThrough(asked, script.status, call)
    requires QuietTurn(script.status) ==> SameButCall(after, DoWriteStatus(asked, call), call)
    ensures RestDone(asked, script, call, after, outcome)
  {
    NoJobSetHalf(asked, call, script.jobSet.from, script.write.admission);
  }

  lemma FoundEnds(asked: World, script: Script, call: nat, middle: World, after: World, outcome: Outcome)
    requires script.queueFound && outcome in {Error, Success} && HalfDone(asked, script, call, middle, true)
    requires outcome == Success <==> StatusThrough(middle, script.status, call)
    requires QuietTurn(script.status) ==> SameButCall(after, DoWriteStatus(middle, call), call)
    ensures RestDone(asked, script, call, after, outcome)
  {
  }

  /** A quiet call that has read no AIJob does nothing more. */
  lemma NothingRead(w: World, script: Script, call: nat)
    requires Quiet(script) && Call(w, call) == Idle
    ensures DoWriteStatus(Moved(ScriptHalf(QueueAsked(w, script, call), script, call), script.status), call) == w
  {
  }

  lemma CountedFailure(before: Ledger, failed: Operation)
    ensures Counted(before, before.(errors := before.errors + multiset{failed}), Error, Nothing, failed)
  {
  }

  // ---- calls that others do not get in the way of

  /** A move that stores neither the AIJob nor the JobSet anew. */
  predicate Harmless(a: Action, call: nat) {
    !ByCall(a, call)
    && (a.Wait? || a.AddQueue? || a.DropQueue? || a.ReadJob? || a.ReadQueue? || a.ReadJobSet? || a.Stop?)
  }

  predicate HarmlessTurn(turn: Turn, call: nat) {
    turn.fate == Answered && forall a :: a in turn.moves ==> Harmless(a, call)
  }

  predicate HarmlessScript(script: Script, call: nat) {
    && HarmlessTurn(script.job, call) && HarmlessTurn(script.queue, call) && HarmlessTurn(script.jobSet, call)
    && HarmlessTurn(script.write, call) && HarmlessTurn(script.status, call)
  }

  /** The stored objects, their versions and what this call remembers are the same. */
  predicate SameObjects(w: World, w': World, call: nat) {
    && w'.job == w.job && w'.jobVersions == w.jobVersions && w'.jobSet == w.jobSet && w'.jobSetVersions == w.jobSetVersions
    && Call(w', call) == Call(w, call)
  }

  lemma HarmlessStep(w: World, a: Action, call: nat)
    requires Harmless(a, call)
    ensures SameObjects(w, Step(w, a), call)
  {
    OthersLeaveCallAlone(w, a, call);
  }

  lemma {:induction false} HarmlessMoves(w: World, moves: seq<Action>, call: nat)
    requires forall a :: a in moves ==> Harmless(a, call)
    ensures SameObjects(w, Run(w, moves), call)
    decreases |moves|
  {
    if moves != [] {
      HarmlessStep(w, moves[0], call);
      HarmlessMoves(Step(w, moves[0]), moves[1..], call);
    }
  }

  /** Holding a status, such a call cannot fail any more if the AIJob stored is the version read. */
  lemma HarmlessStatus(w: World, turn: Turn, call: nat)
    requires HarmlessTurn(turn, call) && Call(w, call).HasStatus?
    requires w.job.Some? && w.job.value.version == Call(w, call).job.version
    ensures StatusThrough(w, turn, call)
  {
    HarmlessMoves(w, turn.moves, call);
  }

  lemma WriteKeepsJob(w: World, call: nat, admission: Admission)
    ensures DoWriteJobSet(w, call, admission).job == w.job
  {
  }

  /** Holding the JobSet stored, it writes it unless somebody else controls it. */
  lemma HarmlessWrite(w: World, turn: Turn, call: nat, job: AIJob)
    requires HarmlessTurn(turn, call) && Call(w, call) == HasJobSet(job, w.jobSet) && w.job == Some(job)
    ensures WriteThrough(w, turn, call) <==> MayOwn(w)
    ensures var w' := DoWriteJobSet(Moved(w, turn), call, turn.admission);
      MayOwn(w) ==> w'.job == w.job && Call(w', call).HasStatus? && Call(w', call).job == job
  {
    HarmlessMoves(w, turn.moves, call);
    WriteKeepsJob(Moved(w, turn), call, turn.admission);
  }

  lemma HarmlessJobSetRead(w: World, script: Script, call: nat, job: AIJob)
    requires HarmlessTurn(script.jobSet, call) && Call(w, call) == HasQueue(job) && script.jobSet.from == CurrentJobSet(w)
    requires w.jobSet.Some? ==> KnownJobSet(w, w.jobSet.value)
    ensures ReadAnswered(w, script.jobSet)
    ensures var w' := JobSetRead(w, script, call);
      w'.job == w.job && w'.jobSet == w.jobSet && Call(w', call) == HasJobSet(job, w.jobSet)
  {
    HarmlessMoves(w, script.jobSet.moves, call);
  }

  /** The first two reads of such a call. */
  lemma HarmlessReads(w: World, script: Script, call: nat)
    requires HarmlessScript(script, call) && Call(w, call) == Idle
    requires w.job.Some? && KnownJob(w, w.job.value) && script.job.from == Some(w.job.value.version)
    ensures var asked, job := QueueAsked(JobRead(w, script, call), script, call), w.job.value;
      && asked.job == w.job && asked.jobSet == w.jobSet && asked.jobSetVersions == w.jobSetVersions
      && (if script.queueFound then Call(asked, call) == HasQueue(job)
          else Call(asked, call).HasStatus? && Call(asked, call).job == job)
    ensures w.job.value.version in Moved(w, script.job).jobVersions
  {
    HarmlessMoves(w, script.job.moves, call);
    HarmlessMoves(JobRead(w, script, call), script.queue.moves, call);
  }

  lemma HarmlessAsked(asked: World, script: Script, call: nat, job: AIJob)
    requires HarmlessScript(script, call) && asked.job == Some(job)
    requires script.jobSet.from == CurrentJobSet(asked) && (asked.jobSet.Some? ==> KnownJobSet(asked, asked.jobSet.value))
    requires if script.queueFound then Call(asked, call) == HasQueue(job)
             else Call(asked, call).HasStatus? && Call(asked, call).job == job
    ensures AskedOutcome(asked, script, call) == if !script.queueFound then Waiting else if MayOwn(asked) then Success else Error
  {
    if !script.queueFound {
      HarmlessStatus(asked, script.status, call);
    } else {
      HarmlessJobSetRead(asked, script, call, job);
      HarmlessWrite(JobSetRead(asked, script, call), script.write, call, job);
      if MayOwn(asked) {
        HarmlessStatus(ScriptHalf(asked, script, call), script.status, call);
      }
    }
  }

  /** Answered, with fresh reads of AIJob and JobSet, and with nobody storing either anew in between, a
      call waits if it is told that its queue is missing, and otherwise fails only over a JobSet
      controlled by somebody else. */
  lemma HarmlessOutcome(w: World, script: Script, call: nat)
    requires Inv(w) && w.job.Some? && Call(w, call) == Idle && HarmlessScript(script, call)
    requires script.job.from == Some(w.job.value.version) && script.jobSet.from == CurrentJobSet(w)
    ensures ScriptOutcome(w, script, call)
         == if !script.queueFound then Waiting else if MayOwn(w) then Success else Error
  {
    assert KnownJob(w, w.job.value) && (w.jobSet.Some? ==> KnownJobSet(w, w.jobSet.value));
    HarmlessReads(w, script, call);
    var asked := QueueAsked(JobRead(w, script, call), script, call);
    HarmlessAsked(asked, script, call, w.job.value);
  }

  /** A quiet call with fresh reads is the pass of the control loop. */
  lemma QuietIsAPass(w: World, script: Script, call: nat, after: World)
    requires Fresh(script, w) && Quiet(script) && SameButCall(after, ScriptRun(w, script, call), call)
    ensures SameButCall(after, Pass(w, call, script.write.admission), call)
  {
    PassIsFiveCalls(w, call, script.write.admission, script.queueFound);
  }

  lemma StopKeepsSame(w: World, w': World, call: nat)
    requires SameButCall(w, w', call)
    ensures SameButCall(Step(w, Stop(call)), w', call)
  {
  }

  /** A call that got past its JobSet had it, at some point of the call, as the AIJob asks. Waiting
      means that the status saying so is shown; success, that the status projected is. */
  ghost predicate Delivered(report: Report, outcome: Outcome, start: World, trace: seq<Action>, base: nat) {
    && (report.Converged? ==>
          base <= report.point <= |trace|
          && JobSetWritten(Run(start, trace[..report.point]), report.job, report.read, report.stored, report.change))
    && match outcome
       case Waiting => report.QueueMissing?
         && Shown(Run(start, trace), report.job, WaitingStatus(report.job, report.at), report.at, false)
       case Success => report.Converged?
         && Shown(Run(start, trace), report.job, ReadyStatus(report.job, report.stored.conditions, report.at), report.at, true)
       case _ => true
  }

  /** The change counted is the one logged, under the name of what it was: nothing is counted when
      the JobSet read was already as asked. */
  lemma ChangesAreLogged(w: World, report: Report)
    requires report.Converged? && JobSetWritten(w, report.job, report.read, report.stored, report.change)
    ensures Create in ChangesOf(report) ==> report.read.None? && |w.writes| > 0 && w.writes[|w.writes| - 1].Created?
    ensures Update in ChangesOf(report) ==> report.read.Some? && |w.writes| > 0 && w.writes[|w.writes| - 1].Updated?
    ensures ChangesOf(report) == multiset{} ==>
      report.read == Some(report.stored) && Agrees(report.stored, Desired(report.job))
    ensures |ChangesOf(report)| <= 1
  {
    if report.change == Unchanged {
      PutGet(report.stored.(controller := Some(report.job.uid)), Desired(report.job));
    }
  }

  predicate JustLogged(w: World, status: Status) {
    |w.writes| > 0 && w.writes[|w.writes| - 1].StatusWritten? && w.writes[|w.writes| - 1].status == status
  }

  lemma ShownIsLogged(w: World, job: AIJob, status: Status, at: int, ready: bool)
    requires Shown(w, job, status, at, ready)
    ensures job.status != status ==> JustLogged(w, status)
  {
  }

  /** A status write is counted exactly when one was needed, and then it is the last logged. */
  lemma StatusWritesAreLogged(report: Report, outcome: Outcome, start: World, trace: seq<Action>, base: nat)
    requires Delivered(report, outcome, start, trace, base)
    ensures outcome == Success ==>
      var status := ReadyStatus(report.job, report.stored.conditions, report.at);
      (StatusWanted(report) <==> report.job.status != status) && (StatusWanted(report) ==> JustLogged(Run(start, trace), status))
    ensures outcome == Waiting ==>
      var status := WaitingStatus(report.job, report.at);
      (StatusWanted(report) <==> report.job.status != status) && (StatusWanted(report) ==> JustLogged(Run(start, trace), status))
  {
    match outcome
    case Success =>
      ShownIsLogged(Run(start, trace), report.job, ReadyStatus(report.job, report.stored.conditions, report.at), report.at, true);
    case Waiting =>
      ShownIsLogged(Run(start, trace), report.job, WaitingStatus(report.job, report.at), report.at, false);
    case _ =>
  }

  lemma DeliverMissing(start: World, trace: seq<Action>, base: nat, outcome: Outcome, job: AIJob, at: int)
    requires outcome in {Error, Waiting}
    requires outcome == Waiting ==> Shown(Run(start, trace), job, WaitingStatus(job, at), at, false)
    ensures Delivered(QueueMissing(job, at), outcome, start, trace, base)
  {
  }

  lemma DeliverConverged(start: World, middle: seq<Action>, trace: seq<Action>, base: nat, outcome: Outcome, report: Report)
    requires outcome in {Error, Success} && report.Converged?
    requires middle <= trace && base <= |middle| == report.point
    requires JobSetWritten(Run(start, middle), report.job, report.read, report.stored, report.change)
    requires outcome == Success ==>
      Shown(Run(start, trace), report.job, ReadyStatus(report.job, report.stored.conditions, report.at), report.at, true)
    ensures Delivered(report, outcome, start, trace, base)
  {
    assert trace[..report.point] == middle;
  }

  lemma StoppingShows(w: World, call: nat, job: AIJob, status: Status, at: int, ready: bool)
    requires Shown(w, job, status, at, ready)
    ensures Shown(Step(w, Stop(call)), job, status, at, ready)
  {
  }

  lemma StoppingKeepsDelivered(report: Report, outcome: Outcome, start: World, trace: seq<Action>, base: nat, call: nat)
    requires Delivered(report, outcome, start, trace, base)
    ensures Delivered(report, outcome, start, trace + [Stop(call)], base)
  {
    var w := Run(start, trace);
    RunSnoc(start, trace, Stop(call));
    if report.Converged? {
      assert (trace + [Stop(call)])[..report.point] == trace[..report.point];
    }
    match outcome
    case Success =>
      StoppingShows(w, call, report.job, ReadyStatus(report.job, report.stored.conditions, report.at), report.at, true);
    case Waiting => StoppingShows(w, call, report.job, WaitingStatus(report.job, report.at), report.at, false);
    case _ =>
  }

  lemma StopEnds(w: World, call: nat)
    ensures Call(Step(w, Stop(call)), call) == Idle
  {
  }

  class AIJobReconciler {
    const api: ApiServer
    const metrics: Metrics
    const call: nat

    constructor (api: ApiServer, metrics: Metrics, call: nat)
      ensures this.api == api && this.metrics == metrics && this.call == call
    {
      this.api, this.metrics, this.call := api, metrics, call;
    }

    /** Whatever happens around it, a Reconcile call is a sequence of steps of the control loop,
        interleaved with those of the others; it is over when it returns; it keeps the ledger; its
        result says what it did, and is decided by how its API calls fare. With nobody else moving
        and fresh reads, it is the pass of the control loop. */
    method Reconcile(script: Script) returns (outcome: Outcome, requeueAfter: int, ghost report: Report)
      requires api.Valid() && Call(api.world, call) == Idle && Outside(script, call)
      modifies api, metrics
      ensures api.Continues() && Call(api.world, call) == Idle
      ensures metrics.reconciliations == old(metrics.reconciliations) + multiset{outcome}
      ensures Counted(old(metrics.Value()), metrics.Value().(reconciliations := old(metrics.reconciliations)), outcome, report,
                      FailedAt(old(api.world), script, call))
      ensures old(Balanced(metrics.Value())) ==> Balanced(metrics.Value())
      ensures requeueAfter == if outcome == Waiting then 30 else 0
      ensures Delivered(report, outcome, api.start, api.trace, |old(api.trace)|)
      ensures outcome == ScriptOutcome(old(api.world), script, call)
      ensures Quiet(script) && Fresh(script, old(api.world)) ==>
        SameButCall(api.world, Pass(old(api.world), call, script.write.admission), call)
    {
      outcome, requeueAfter, report := Steps(script);
      StoppingKeepsDelivered(report, outcome, api.start, api.trace, |old(api.trace)|, call);
      if Quiet(script) && Fresh(script, old(api.world)) {
        QuietIsAPass(old(api.world), script, call, api.world);
        StopKeepsSame(api.world, Pass(old(api.world), call, script.write.admission), call);
      }
      StopEnds(api.world, call);
      api.Take(Stop(call));
      Done(outcome, report, FailedAt(old(api.world), script, call), old(metrics.Value()));
    }

    /** Counts the outcome; the ledger balances if it did before the call. */
    method Done(outcome: Outcome, ghost report: Report, ghost failed: Operation, ghost before: Ledger)
      requires Counted(before, metrics.Value(), outcome, report, failed)
      modifies metrics
      ensures metrics.Value() == Ended(old(metrics.Value()), outcome)
      ensures metrics.reconciliations == before.reconciliations + multiset{outcome}
      ensures Balanced(before) ==> Balanced(metrics.Value())
    {
      if Balanced(before) {
        CountingKeepsBalance(before, metrics.Value(), outcome, report, failed);
      }
      metrics.Observe(outcome);
    }

    /** Everything Reconcile does before its result is counted. */
    method Steps(script: Script) returns (outcome: Outcome, requeueAfter: int, ghost report: Report)
      requires api.Valid() && Call(api.world, call) == Idle && Outside(script, call)
      modifies api, metrics
      ensures api.Continues()
      ensures Counted(old(metrics.Value()), metrics.Value(), outcome, report, FailedAt(old(api.world), script, call))
      ensures requeueAfter == if outcome == Waiting then QUEUE_RETRY_SECONDS else 0
      ensures Delivered(report, outcome, api.start, api.trace, |old(api.trace)|)
      ensures outcome == ScriptOutcome(old(api.world), script, call)
      ensures Quiet(script) ==> SameButCall(api.world, ScriptRun(old(api.world), script, call), call)
    {
      requeueAfter, report := 0, Nothing;
      var got := api.GetJob(call, script.job);
      if Quiet(script) && !got.Found? {
        NothingRead(api.world, script, call);
      }
      if got.Absent? {
        return NotFound, 0, report;
      }
      if got.Failed? {
        CountedFailure(metrics.Value(), Get);
        metrics.RecordError(Get);
        return Error, 0, report;
      }
      assert FailedAt(old(api.world), script, call) == JobFailedAt(JobRead(old(api.world), script, call), script, call);
      outcome, requeueAfter, report := ForJob(script, got.value);
    }

    method ForJob(script: Script, job: AIJob) returns (outcome: Outcome, requeueAfter: int, ghost report: Report)
      requires api.Valid() && Call(api.world, call) == HasJob(job) && Outside(script, call)
      modifies api, metrics
      ensures api.Continues()
      ensures outcome != NotFound
      ensures Counted(old(metrics.Value()), metrics.Value(), outcome, report, JobFailedAt(old(api.world), script, call))
      ensures requeueAfter == if outcome == Waiting then QUEUE_RETRY_SECONDS else 0
      ensures Delivered(report, outcome, api.start, api.trace, |old(api.trace)|)
      ensures outcome == JobOutcome(old(api.world), script, call)
      ensures script.queue.fate == Answered ==>
        RestDone(QueueAsked(old(api.world), script, call), script, call, api.world, outcome)
    {
      requeueAfter, report := 0, Nothing;
      var queue, asked := api.GetQueue(call, script.queue, script.queueFound, job);
      if queue.Failed? {
        metrics.RecordError(Queue);
        return Error, 0, report;
      }
      if queue.Absent? {
        label missing:
        outcome := ReportMissingQueue(script.status, job, asked);
        MissingEnds(old@missing(api.world), script, call, api.world, outcome);
        report := QueueMissing(job, asked);
        DeliverMissing(api.start, api.trace, |old(api.trace)|, outcome, job, asked);
        requeueAfter := if outcome == Waiting then QUEUE_RETRY_SECONDS else 0;
        return;
      }
      outcome, report := Converge(script, job);
    }

    method ReportMissingQueue(turn: Turn, job: AIJob, asked: int) returns (outcome: Outcome)
      requires api.Valid() && ByOthers(turn, call)
      requires Call(api.world, call) == HasStatus(job, WaitingStatus(job, asked), asked, false)
      modifies api, metrics
      ensures api.Continues()
      ensures outcome in {Error, Waiting}
      ensures Counted(old(metrics.Value()), metrics.Value(), outcome, QueueMissing(job, asked), StatusWrite)
      ensures outcome == Waiting ==> Shown(api.world, job, WaitingStatus(job, asked), asked, false)
      ensures outcome == Waiting <==> StatusThrough(old(api.world), turn, call)
      ensures QuietTurn(turn) ==> SameButCall(api.world, DoWriteStatus(old(api.world), call), call)
    {
      var waiting := StatusWithQueue(job.generation, job.status.conditions, job.status.conditions,
                                     SelectedQueue(job.core.queueName), false, asked);
      var written := PublishStatus(turn, job, waiting, asked, false);
      outcome := if written then Waiting else Error;
    }

    method Converge(script: Script, job: AIJob) returns (outcome: Outcome, ghost report: Report)
      requires api.Valid() && Call(api.world, call) == HasQueue(job) && Outside(script, call) && script.queueFound
      modifies api, metrics
      ensures api.Continues()
      ensures outcome in {Error, Success}
      ensures Counted(old(metrics.Value()), metrics.Value(), outcome, report,
                      if JobSetThrough(old(api.world), script, call) then StatusWrite else JobSetWrite)
      ensures Delivered(report, outcome, api.start, api.trace, |old(api.trace)|)
      ensures RestDone(old(api.world), script, call, api.world, outcome)
    {
      var jobSet, change, at;
      ghost var read;
      report := Nothing;
      jobSet, change, at, read := ReconcileJobSet(script, job);
      if jobSet.None? {
        metrics.RecordError(JobSetWrite);
        HalfEnds(old(api.world), script, call, api.world);
        return Error, report;
      }
      report := Converged(job, read, jobSet.value, change, at, |api.trace|);
      label projecting:
      outcome := PublishProjection(script, old(api.world), job, jobSet.value.conditions, change, at);
      DeliverConverged(api.start, old@projecting(api.trace), api.trace, |old(api.trace)|, outcome, report);
    }

    method PublishProjection(script: Script, ghost asked: World, job: AIJob, reported: seq<Condition>, change: Change, at: int)
      returns (outcome: Outcome)
      requires api.Valid() && ByOthers(script.status, call) && script.queueFound
      requires HalfDone(asked, script, call, api.world, true)
      requires Call(api.world, call) == HasStatus(job, ReadyStatus(job, reported, at), at, true)
      modifies api, metrics
      ensures api.Continues() && outcome in {Error, Success}
      ensures outcome == Success ==> Shown(api.world, job, ReadyStatus(job, reported, at), at, true)
      ensures var l := old(metrics.Value()).(jobSetChanges :=
          old(metrics.jobSetChanges) + if change == Unchanged then multiset{} else multiset{change});
        Published(l, metrics.Value(), outcome == Success, job.status != ReadyStatus(job, reported, at))
      ensures RestDone(asked, script, call, api.world, outcome)
    {
      metrics.RecordJobSetChange(change);
      var projected := StatusFromJobSet(job.generation, reported);
      var status := StatusWithQueue(job.generation, projected.conditions, job.status.conditions,
                                    SelectedQueue(job.core.queueName), true, at);
      var written := PublishStatus(script.status, job, status, at, true);
      outcome := if written then Success else Error;
      FoundEnds(asked, script, call, old(api.world), api.world, outcome);
    }

    /** Writes the status if it changed, and counts what came of it. */
    method PublishStatus(turn: Turn, job: AIJob, status: Status, ghost at: int, ghost ready: bool) returns (written: bool)
      requires api.Valid() && ByOthers(turn, call) && Call(api.world, call) == HasStatus(job, status, at, ready)
      modifies api, metrics
      ensures api.Continues()
      ensures written ==> Shown(api.world, job, status, at, ready)
      ensures Published(old(metrics.Value()), metrics.Value(), written, job.status != status)
      ensures written <==> StatusThrough(old(api.world), turn, call)
      ensures QuietTurn(turn) ==> SameButCall(api.world, DoWriteStatus(old(api.world), call), call)
    {
      var changed;
      written, changed := ReconcileStatus(turn, job, status, at, ready);
      if !written {
        metrics.RecordError(StatusWrite);
        return;
      }
      metrics.RecordStatusChange(changed);
    }

    /** CreateOrUpdate around the controller's mutation of the object. */
    method ReconcileJobSet(script: Script, job: AIJob)
      returns (stored: Option<JobSet>, change: Change, now: int, ghost read: Option<JobSet>)
      requires api.Valid() && Call(api.world, call) == HasQueue(job) && Outside(script, call)
      modifies api
      ensures api.Continues()
      ensures stored.Some? ==>
        Call(api.world, call) == HasStatus(job, ReadyStatus(job, stored.value.conditions, now), now, true)
      ensures stored.Some? ==> JobSetWritten(api.world, job, read, stored.value, change)
      ensures HalfDone(old(api.world), script, call, api.world, stored.Some?)
    {
      stored, change, now, read := None, Unchanged, 0, None;
      var got := api.GetJobSet(call, script.jobSet, job);
      if got.Failed? {
        Unread(old(api.world), script, call, api.world, job);
        return;
      }
      var found := if got.Found? then Some(got.value) else None;
      read := found;
      var request := Mutated(job, found);
      if request.None? {
        Unowned(old(api.world), script, call, api.world, job, found.value);
        return;
      }
      label writing:
      if found == request {
        now := api.KeepJobSet(call, script.write, job, request.value);
        stored := request;
      } else {
        change := if found.None? then Create else Update;
        stored, now := api.PutJobSet(call, script.write, job, found, request.value);
      }
      HalfWritten(old(api.world), script, call, old@writing(api.world), api.world, stored.Some?);
    }

    /** The controller's mutation of what it found, or of a blank object; none if another UID
        controls it. */
    method Mutated(job: AIJob, found: Option<JobSet>) returns (request: Option<JobSet>)
      ensures request == if found.Some? && found.value.controller !in {None, Some(job.uid)} then None
                         else Some(Request(job, found))
    {
      var draft := new JobSetObject(if found.Some? then found.value else BLANK);
      var owned := draft.SetControllerReference(job.uid);
      if !owned {
        return None;
      }
      var desired := Desired(job);
      draft.ReconcileOwnedFields(desired);
      var drafted := draft.Read();
      request := Some(drafted);
    }

    method ReconcileStatus(turn: Turn, job: AIJob, status: Status, ghost at: int, ghost ready: bool)
      returns (ok: bool, changed: bool)
      requires api.Valid() && ByOthers(turn, call) && Call(api.world, call) == HasStatus(job, status, at, ready)
      modifies api
      ensures api.Continues()
      ensures changed <==> job.status != status
      ensures ok ==> Shown(api.world, job, status, at, ready)
      ensures ok <==> StatusThrough(old(api.world), turn, call)
      ensures !changed ==> api.world == Moved(old(api.world), turn)
      ensures QuietTurn(turn) ==> SameButCall(api.world, DoWriteStatus(old(api.world), call), call)
    {
      api.Interleave(turn.moves, call);
      if job.status == status {
        return true, false;
      }
      changed := true;
      ok := api.PutStatus(call, turn, job, status, at, ready);
    }
  }
}
