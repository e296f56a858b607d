/** Rebuilding what a worker did from its log and its container's status. */
module WorkerReports {
  import opened Wrappers
  import opened Topology
  import opened ClusterObjects
  import opened IndexList
  import opened Worker
  import opened Sorting

  /** A log, record by record; anything that does not decode is garbage. */
  datatype Line = Entry(record: Record) | Garbage

  datatype Report = Report(
    pod: string, workload: string, completionIndex: string, startedAt: Option<int>, finishedAt: Option<int>,
    exitReason: string, exitCode: Option<int>, parameters: Parameters)

  function WithRecord(r: Report, record: Record): Report
    requires record.timestamp.Some?
  {
    var p := r.(parameters := record.parameters);
    if record.kind == "start" then p.(startedAt := record.timestamp)
    else if record.kind == "result" then
      p.(finishedAt := record.timestamp, exitReason := record.exitReason,
         exitCode := if record.exitCode.Some? then record.exitCode else p.exitCode)
    else p
  }

  predicate Readable(line: Line) {
    line.Entry? && line.record.timestamp.Some?
  }

  /** Everything up to the first unreadable line. */
  function WithLog(r: Report, log: seq<Line>): Report
    decreases |log|
  {
    if log == [] || !Readable(log[0]) then r else WithLog(WithRecord(r, log[0].record), log[1..])
  }

  function WithStatus(r: Report, status: ContainerStatus): Report {
    if status.name != "worker" then r
    else
      match status.state
      case NotStarted => r
      case Running(startedAt) => if r.startedAt.None? then r.(startedAt := Some(startedAt)) else r
      case Terminated(startedAt, finishedAt, reason, exitCode) =>
        r.(startedAt := if r.startedAt.None? then Some(startedAt) else r.startedAt,
           finishedAt := Some(finishedAt), exitReason := reason, exitCode := Some(exitCode))
  }

  function WithStatuses(r: Report, statuses: seq<ContainerStatus>): Report {
    if statuses == [] then r
    else WithStatus(WithStatuses(r, statuses[..|statuses| - 1]), statuses[|statuses| - 1])
  }

  class ReportObject {
    const pod: string
    const workload: string
    const completionIndex: string
    var startedAt: Option<int>
    var finishedAt: Option<int>
    var exitReason: string
    var exitCode: Option<int>
    var parameters: Parameters

    ghost function Value(): Report
      reads this
    {
      Report(pod, workload, completionIndex, startedAt, finishedAt, exitReason, exitCode, parameters)
    }

    constructor (pod: Pod)
      ensures Value() == Blank(pod)
    {
      this.pod, workload := pod.name, Lookup(pod.labels, JOB_LABEL);
      completionIndex := Lookup(pod.labels, COMPLETION_INDEX_LABEL);
      startedAt, finishedAt, exitReason, exitCode, parameters := None, None, "", None, NO_PARAMETERS;
    }

    method Read() returns (r: Report)
      ensures r == Value()
    {
      r := Report(pod, workload, completionIndex, startedAt, finishedAt, exitReason, exitCode, parameters);
    }

    method ApplyWorkerRecords(log: seq<Line>) returns (ok: bool)
      modifies this
      ensures Value() == WithLog(old(Value()), log)
      ensures ok <==> forall k :: 0 <= k < |log| ==> Readable(log[k])
    {
      for k := 0 to |log|
        invariant WithLog(Value(), log[k..]) == WithLog(old(Value()), log)
        invariant forall j :: 0 <= j < k ==> Readable(log[j])
      {
        assert log[k..][0] == log[k] && log[k..][1..] == log[k + 1..];
        if log[k].Garbage? || log[k].record.timestamp.None? {
          assert !Readable(log[k]);
          return false;
        }
        var record := log[k].record;
        parameters := record.parameters;
        if record.kind == "start" {
          startedAt := record.timestamp;
        } else if record.kind == "result" {
          finishedAt := record.timestamp;
          exitReason := record.exitReason;
          if record.exitCode.Some? {
            exitCode := record.exitCode;
          }
        }
      }
      ok := true;
    }

    method ApplyContainerState(statuses: seq<ContainerStatus>)
      modifies this
      ensures Value() == WithStatuses(old(Value()), statuses)
    {
      for k := 0 to |statuses|
        invariant Value() == WithStatuses(old(Value()), statuses[..k])
      {
        assert statuses[..k + 1][..k] == statuses[..k];
        var status := statuses[k];
        if status.name != "worker" {
          continue;
        }
        if status.state.Running? && startedAt.None? {
          startedAt := Some(status.state.startedAt);
        }
        if !status.state.Terminated? {
          continue;
        }
        if startedAt.None? {
          startedAt := Some(status.state.startedAt);
        }
        finishedAt := Some(status.state.finishedAt);
        exitReason := status.state.reason;
        exitCode := Some(status.state.exitCode);
      }
      assert statuses[..|statuses|] == statuses;
    }
  }

  function Blank(pod: Pod): Report {
    Report(pod.name, Lookup(pod.labels, JOB_LABEL), Lookup(pod.labels, COMPLETION_INDEX_LABEL),
           None, None, "", None, NO_PARAMETERS)
  }

  function FromStatus(pod: Pod): Report {
    WithStatuses(Blank(pod), pod.containers)
  }

  function ReportOf(pod: Pod, logs: map<string, seq<Line>>): Report {
    if pod.name in logs then WithLog(FromStatus(pod), logs[pod.name]) else FromStatus(pod)
  }

  predicate ReadsWhole(pod: Pod, logs: map<string, seq<Line>>) {
    pod.name in logs ==> forall k :: 0 <= k < |logs[pod.name]| ==> Readable(logs[pod.name][k])
  }

  function ReportsOf(pods: seq<Pod>, logs: map<string, seq<Line>>): seq<Report> {
    seq(|pods|, i requires 0 <= i < |pods| => ReportOf(pods[i], logs))
  }

  function PodName(r: Report): string {
    r.pod
  }

  /** The container's status first, then what the log says. */
  method RuntimeReport(pod: Pod, logs: map<string, seq<Line>>) returns (r: Report, ok: bool)
    ensures r == ReportOf(pod, logs) && (ok <==> ReadsWhole(pod, logs))
  {
    var report := new ReportObject(pod);
    report.ApplyContainerState(pod.containers);
    ok := true;
    if pod.name in logs {
      ok := report.ApplyWorkerRecords(logs[pod.name]);
    }
    r := report.Read();
  }

  /** One report for each pod, in order of pod names; an error when any log is unreadable. */
  method WorkerRuntimeReports(pods: seq<Pod>, logs: map<string, seq<Line>>) returns (reports: seq<Report>, ok: bool)
    ensures multiset(reports) == multiset(ReportsOf(pods, logs)) && SortedBy(reports, PodName)
    ensures |reports| == |pods| && forall p :: p in pods ==> exists r :: r in reports && Tells(r, p, logs)
    ensures DistinctNames(pods) ==> forall r, p :: r in reports && p in pods && r.pod == p.name ==> Tells(r, p, logs)
    ensures ok <==> forall p :: p in pods ==> ReadsWhole(p, logs)
  {
    reports, ok := [], true;
    for k := 0 to |pods|
      invariant reports == ReportsOf(pods, logs)[..k]
      invariant ok <==> forall j :: 0 <= j < k ==> ReadsWhole(pods[j], logs)
    {
      var report, read := RuntimeReport(pods[k], logs);
      ok := ok && read;
      reports := reports + [report];
    }
    assert ReportsOf(pods, logs)[..|pods|] == ReportsOf(pods, logs);
    SortBySorts(reports, PodName);
    reports := SortBy(reports, PodName);
    ReportsTell(pods, logs, reports);
  }

  // ---- writer and reader agree

  function AsLog(output: seq<Record>): seq<Line> {
    seq(|output|, i requires 0 <= i < |output| => Entry(output[i]))
  }

  /** The last terminal state of the worker container, if it has any. */
  function LastTerminated(statuses: seq<ContainerStatus>): Option<ContainerState> {
    if statuses == [] then None
    else
      var last := statuses[|statuses| - 1];
      if last.name == "worker" && last.state.Terminated? then Some(last.state)
      else LastTerminated(statuses[..|statuses| - 1])
  }

  predicate ShowsEnd(r: Report, end: Option<ContainerState>) {
    match end
    case Some(Terminated(_, finishedAt, reason, exitCode)) =>
      r.finishedAt == Some(finishedAt) && r.exitReason == reason && r.exitCode == Some(exitCode)
    case _ => r.finishedAt == None && r.exitReason == "" && r.exitCode == None
  }

  lemma {:induction false} StatusShowsLastEnd(pod: Pod, statuses: seq<ContainerStatus>)
    ensures ShowsEnd(WithStatuses(Blank(pod), statuses), LastTerminated(statuses))
  {
    if statuses != [] {
      StatusShowsLastEnd(pod, statuses[..|statuses| - 1]);
    }
  }

  lemma TwoRecords(r: Report, start: Record, result: Record)
    requires start.timestamp.Some? && result.timestamp.Some?
    ensures WithLog(r, [Entry(start)]) == WithRecord(r, start)
    ensures WithLog(r, [Entry(start), Entry(result)]) == WithRecord(WithRecord(r, start), result)
  {
    assert [Entry(start), Entry(result)][1..] == [Entry(result)];
    assert [Entry(result)][1..] == [] && [Entry(start)][1..] == [];
    assert WithLog(WithRecord(r, start), [Entry(result)]) == WithRecord(WithRecord(r, start), result);
  }

  /** The reader rebuilds what the worker emitted from any prefix of its log: all of it gives start,
      end, reason, code and parameters whatever the container status says; the start alone gives the
      start and the parameters and leaves the end to the container's last terminal state; nothing
      leaves everything to the container. */
  lemma LogReadsBack(pod: Pod, config: Config, course: Course, code: int, output: seq<Record>, k: nat)
    requires Emits(config, course, code, output) && k <= |output|
    ensures var r := WithLog(FromStatus(pod), AsLog(output[..k]));
      && (k > 0 ==> r.startedAt == Some(course.startTime) && ShowsParameters(r.parameters, config))
      && (k == 2 ==> r.finishedAt == Some(course.resultTime) && r.exitReason == OutcomeOf(code) && r.exitCode == Some(code))
      && (k == 1 ==> ShowsEnd(r, LastTerminated(pod.containers)))
      && (k == 0 ==> r == FromStatus(pod))
  {
    var from := FromStatus(pod);
    var start, result := output[0], output[1];
    assert start in output && result in output;
    TwoRecords(from, start, result);
    StatusShowsLastEnd(pod, pod.containers);
    if k == 0 {
      assert AsLog(output[..k]) == [];
    } else if k == 1 {
      assert AsLog(output[..k]) == [Entry(start)];
    } else {
      assert AsLog(output[..k]) == [Entry(start), Entry(result)];
    }
  }

  /** In complete mode, when nobody cancels, a worker exits 10 exactly when its completion index is
      in the list of failure indexes its report shows. */
  lemma FailsIffListed(pod: Pod, args: Arguments, indexText: string, config: Config, course: Course, output: seq<Record>)
    requires ConfigOf(args, indexText) == Some(config)
    requires config.mode == MODE_COMPLETE && course.delayElapsed && course.durationElapsed
    requires Emits(config, course, ExitCode(config, course), output)
    ensures var r := WithLog(FromStatus(pod), AsLog(output));
      r.exitCode == Some(EXIT_FAILURE) <==>
        config.index.Some? && config.index.value in r.parameters.failIndexes
  {
    LogReadsBack(pod, config, course, ExitCode(config, course), output, 2);
    assert output[..2] == output;
  }

  // ---- what a report tells

  /** The last terminal state of the worker container, by its position. */
  predicate LastEndAt(statuses: seq<ContainerStatus>, j: nat) {
    && j < |statuses| && statuses[j].name == "worker" && statuses[j].state.Terminated?
    && forall k | j < k < |statuses| :: !(statuses[k].name == "worker" && statuses[k].state.Terminated?)
  }

  predicate HasStarted(status: ContainerStatus) {
    status.name == "worker" && !status.state.NotStarted?
  }

  /** The first state in which the worker container has started. */
  predicate FirstStartAt(statuses: seq<ContainerStatus>, j: nat) {
    j < |statuses| && HasStarted(statuses[j]) && forall k | 0 <= k < j :: !HasStarted(statuses[k])
  }

  ghost predicate TellsContainerEnd(r: Report, statuses: seq<ContainerStatus>) {
    && (forall j: nat :: LastEndAt(statuses, j) ==>
          r.finishedAt == Some(statuses[j].state.finishedAt) && r.exitReason == statuses[j].state.reason
          && r.exitCode == Some(statuses[j].state.exitCode))
    && ((forall j: nat :: !LastEndAt(statuses, j)) ==> r.finishedAt == None && r.exitReason == "" && r.exitCode == None)
  }

  ghost predicate TellsContainerStart(r: Report, statuses: seq<ContainerStatus>) {
    && (forall j: nat :: FirstStartAt(statuses, j) ==> r.startedAt == Some(statuses[j].state.startedAt))
    && ((forall j: nat :: !FirstStartAt(statuses, j)) ==> r.startedAt == None)
  }

  /** What a report owes to the container alone. */
  ghost predicate TellsContainer(r: Report, statuses: seq<ContainerStatus>) {
    TellsContainerStart(r, statuses) && TellsContainerEnd(r, statuses) && r.parameters == NO_PARAMETERS
  }

  /** What a report owes to the first k records of a worker's output: to both, everything; to the
      start, what it says, and the end to the container. */
  ghost predicate TellsRecords(r: Report, statuses: seq<ContainerStatus>, config: Config, course: Course, code: int, k: nat) {
    if k == 0 then TellsContainer(r, statuses)
    else
      && r.startedAt == Some(course.startTime) && ShowsParameters(r.parameters, config)
      && if k == 1 then TellsContainerEnd(r, statuses)
         else r.finishedAt == Some(course.resultTime) && r.exitReason == OutcomeOf(code) && r.exitCode == Some(code)
  }

  /** A log that begins with these records and is unreadable from there on, if it goes on. */
  predicate LogOf(log: seq<Line>, records: seq<Record>) {
    && |records| <= |log| && (forall k :: 0 <= k < |records| ==> log[k] == Entry(records[k]))
    && (|records| < |log| ==> !Readable(log[|records|]))
  }

  /** The lines of a log that are read. */
  predicate ReadUpTo(log: seq<Line>, n: nat) {
    n <= |log| && (forall k :: 0 <= k < n ==> Readable(log[k])) && (n < |log| ==> !Readable(log[n]))
  }

  predicate OfKind(line: Line, kind: string) {
    line.Entry? && line.record.kind == kind
  }

  predicate GivesCode(line: Line) {
    OfKind(line, "result") && line.record.exitCode.Some?
  }

  /** The last of the first lines that is a record of a kind. */
  predicate LastOfKind(log: seq<Line>, n: nat, kind: string, j: nat) {
    j < n <= |log| && OfKind(log[j], kind) && forall k :: j < k < n ==> !OfKind(log[k], kind)
  }

  /** The last of the first lines that is a result with an exit code. */
  predicate LastCode(log: seq<Line>, n: nat, j: nat) {
    j < n <= |log| && GivesCode(log[j]) && forall k :: j < k < n ==> !GivesCode(log[k])
  }

  ghost predicate TellsStart(r: Report, container: Report, log: seq<Line>, n: nat) {
    && (forall j: nat :: LastOfKind(log, n, "start", j) ==> r.startedAt == log[j].record.timestamp)
    && ((forall j: nat :: !LastOfKind(log, n, "start", j)) ==> r.startedAt == container.startedAt)
  }

  ghost predicate TellsEnd(r: Report, container: Report, log: seq<Line>, n: nat) {
    && (forall j: nat :: LastOfKind(log, n, "result", j) ==>
          r.finishedAt == log[j].record.timestamp && r.exitReason == log[j].record.exitReason)
    && ((forall j: nat :: !LastOfKind(log, n, "result", j)) ==>
          r.finishedAt == container.finishedAt && r.exitReason == container.exitReason)
  }

  ghost predicate TellsCode(r: Report, container: Report, log: seq<Line>, n: nat) {
    && (forall j: nat :: LastCode(log, n, j) ==> r.exitCode == log[j].record.exitCode)
    && ((forall j: nat :: !LastCode(log, n, j)) ==> r.exitCode == container.exitCode)
  }

  /** What a report owes to the lines read of any log, beyond what it owes to the container: the start
      to the last start record, the end and reason to the last result, the code to the last result that
      gives one, and the parameters to the last record. */
  ghost predicate TellsLines(r: Report, container: Report, log: seq<Line>, n: nat) {
    && TellsStart(r, container, log, n) && TellsEnd(r, container, log, n) && TellsCode(r, container, log, n)
    && (0 < n <= |log| && log[n - 1].Entry? ==> r.parameters == log[n - 1].record.parameters)
  }

  /** What a report tells of its pod: whose it is, and what the worker wrote as far as its log can be
      read, whatever the container's status says of that; and the container's status otherwise. */
  ghost predicate Tells(r: Report, p: Pod, logs: map<string, seq<Line>>) {
    && r.pod == p.name
    && r.workload == (if JOB_LABEL in p.labels then p.labels[JOB_LABEL] else "")
    && r.completionIndex == (if COMPLETION_INDEX_LABEL in p.labels then p.labels[COMPLETION_INDEX_LABEL] else "")
    && (p.name !in logs ==> TellsContainer(r, p.containers))
    && (p.name in logs ==>
          forall config, course, code, output: seq<Record>, k: nat ::
            Emits(config, course, code, output) && k <= |output| && LogOf(logs[p.name], output[..k]) ==>
            TellsRecords(r, p.containers, config, course, code, k))
    && (p.name in logs ==>
          exists container :: TellsContainer(container, p.containers)
            && forall n: nat :: ReadUpTo(logs[p.name], n) ==> TellsLines(r, container, logs[p.name], n))
  }

  predicate DistinctNames(pods: seq<Pod>) {
    forall i, j :: 0 <= i < j < |pods| ==> pods[i].name != pods[j].name
  }

  lemma {:induction false} StatusTellsEnd(pod: Pod, statuses: seq<ContainerStatus>)
    ensures TellsContainerEnd(WithStatuses(Blank(pod), statuses), statuses)
  {
    if statuses != [] {
      var n := |statuses| - 1;
      StatusTellsEnd(pod, statuses[..n]);
      if !(statuses[n].name == "worker" && statuses[n].state.Terminated?) {
        assert forall j: nat :: LastEndAt(statuses, j) <==> LastEndAt(statuses[..n], j);
      } else {
        assert LastEndAt(statuses, n);
        assert forall j: nat :: LastEndAt(statuses, j) ==> j == n;
      }
    }
  }

  lemma {:induction false} StatusTellsStart(pod: Pod, statuses: seq<ContainerStatus>)
    ensures TellsContainerStart(WithStatuses(Blank(pod), statuses), statuses)
  {
    if statuses != [] {
      var n := |statuses| - 1;
      StatusTellsStart(pod, statuses[..n]);
      forall j: nat | j < n
        ensures FirstStartAt(statuses, j) <==> FirstStartAt(statuses[..n], j)
      {
      }
      if HasStarted(statuses[n]) && (forall j: nat :: !FirstStartAt(statuses[..n], j)) {
        NoneStarted(statuses[..n], n);
        assert FirstStartAt(statuses, n);
      }
    }
  }

  lemma {:induction false} NoneStarted(statuses: seq<ContainerStatus>, count: nat)
    requires count <= |statuses| && forall j: nat :: !FirstStartAt(statuses, j)
    ensures forall k :: 0 <= k < count ==> !HasStarted(statuses[k])
  {
    if count > 0 {
      NoneStarted(statuses, count - 1);
      assert !FirstStartAt(statuses, count - 1);
    }
  }

  lemma {:induction false} StatusLeavesTheRest(r: Report, statuses: seq<ContainerStatus>)
    ensures var after := WithStatuses(r, statuses);
      after.pod == r.pod && after.workload == r.workload && after.completionIndex == r.completionIndex
      && after.parameters == r.parameters
  {
    if statuses != [] {
      StatusLeavesTheRest(r, statuses[..|statuses| - 1]);
    }
  }

  lemma {:induction false} LogLeavesIdentity(r: Report, log: seq<Line>)
    ensures var after := WithLog(r, log);
      after.pod == r.pod && after.workload == r.workload && after.completionIndex == r.completionIndex
    decreases |log|
  {
    if log != [] && Readable(log[0]) {
      LogLeavesIdentity(WithRecord(r, log[0].record), log[1..]);
    }
  }

  /** What follows the first unreadable line does not matter. */
  lemma {:induction false} ReadsTheRecords(r: Report, log: seq<Line>, records: seq<Record>)
    requires LogOf(log, records) && forall k :: 0 <= k < |records| ==> records[k].timestamp.Some?
    ensures WithLog(r, log) == WithLog(r, AsLog(records))
    decreases |records|
  {
    if records != [] {
      assert AsLog(records)[1..] == AsLog(records[1..]);
      ReadsTheRecords(WithRecord(r, records[0]), log[1..], records[1..]);
    }
  }

  lemma ContainerTold(pod: Pod)
    ensures TellsContainer(FromStatus(pod), pod.containers)
  {
    StatusTellsStart(pod, pod.containers);
    StatusTellsEnd(pod, pod.containers);
    StatusLeavesTheRest(Blank(pod), pod.containers);
  }

  lemma RecordsTold(pod: Pod, log: seq<Line>, config: Config, course: Course, code: int, output: seq<Record>, k: nat)
    requires Emits(config, course, code, output) && k <= |output| && LogOf(log, output[..k])
    ensures TellsRecords(WithLog(FromStatus(pod), log), pod.containers, config, course, code, k)
  {
    ReadsTheRecords(FromStatus(pod), log, output[..k]);
    LogReadsBack(pod, config, course, code, output, k);
    ContainerTold(pod);
    if k == 1 {
      assert AsLog(output[..k]) == [Entry(output[0])];
      TwoRecords(FromStatus(pod), output[0], output[1]);
    }
  }

  lemma {:induction false} OneMoreLine(r: Report, log: seq<Line>, line: Line)
    requires Readable(line) && forall k :: 0 <= k < |log| ==> Readable(log[k])
    ensures WithLog(r, log + [line]) == WithRecord(WithLog(r, log), line.record)
    decreases |log|
  {
    if log == [] {
      assert log + [line] == [line] && [line][1..] == [];
    } else {
      assert (log + [line])[1..] == log[1..] + [line];
      OneMoreLine(WithRecord(r, log[0].record), log[1..], line);
    }
  }

  lemma {:induction false} StopsAtUnreadable(r: Report, log: seq<Line>, n: nat)
    requires ReadUpTo(log, n)
    ensures WithLog(r, log) == WithLog(r, log[..n])
    decreases |log|
  {
    if n > 0 {
      assert log[..n][1..] == log[1..][..n - 1];
      StopsAtUnreadable(WithRecord(r, log[0].record), log[1..], n - 1);
    }
  }

  lemma KindOneMore(log: seq<Line>, n: nat, m: nat, kind: string)
    requires n < |log| && m == n + 1
    ensures OfKind(log[n], kind) ==> LastOfKind(log, m, kind, n) && forall j: nat :: LastOfKind(log, m, kind, j) ==> j == n
    ensures !OfKind(log[n], kind) ==> forall j: nat :: LastOfKind(log, m, kind, j) <==> LastOfKind(log, n, kind, j)
  {
  }

  lemma CodeOneMore(log: seq<Line>, n: nat, m: nat)
    requires n < |log| && m == n + 1
    ensures GivesCode(log[n]) ==> LastCode(log, m, n) && forall j: nat :: LastCode(log, m, j) ==> j == n
    ensures !GivesCode(log[n]) ==> forall j: nat :: LastCode(log, m, j) <==> LastCode(log, n, j)
  {
  }

  lemma StartOneMore(r: Report, container: Report, log: seq<Line>, n: nat)
    requires n < |log| && Readable(log[n]) && TellsStart(r, container, log, n)
    ensures TellsStart(WithRecord(r, log[n].record), container, log, n + 1)
  {
    KindOneMore(log, n, n + 1, "start");
  }

  lemma EndOneMore(r: Report, container: Report, log: seq<Line>, n: nat)
    requires n < |log| && Readable(log[n]) && TellsEnd(r, container, log, n)
    ensures TellsEnd(WithRecord(r, log[n].record), container, log, n + 1)
  {
    KindOneMore(log, n, n + 1, "result");
  }

  lemma ExitCodeOneMore(r: Report, container: Report, log: seq<Line>, n: nat)
    requires n < |log| && Readable(log[n]) && TellsCode(r, container, log, n)
    ensures TellsCode(WithRecord(r, log[n].record), container, log, n + 1)
  {
    CodeOneMore(log, n, n + 1);
  }

  lemma LinesOneMore(r: Report, container: Report, log: seq<Line>, n: nat)
    requires n < |log| && Readable(log[n]) && TellsLines(r, container, log, n)
    ensures TellsLines(WithRecord(r, log[n].record), container, log, n + 1)
  {
    StartOneMore(r, container, log, n);
    EndOneMore(r, container, log, n);
    ExitCodeOneMore(r, container, log, n);
  }

  lemma NoLines(container: Report, log: seq<Line>)
    ensures TellsLines(container, container, log, 0)
  {
  }

  lemma LogOneMore(container: Report, log: seq<Line>, n: nat)
    requires n < |log| && Readable(log[n]) && forall k :: 0 <= k < n ==> Readable(log[k])
    ensures WithLog(container, log[..n + 1]) == WithRecord(WithLog(container, log[..n]), log[n].record)
  {
    assert log[..n + 1] == log[..n] + [log[n]];
    OneMoreLine(container, log[..n], log[n]);
  }

  lemma {:induction false} LinesTold(container: Report, log: seq<Line>, n: nat)
    requires n <= |log| && forall k :: 0 <= k < n ==> Readable(log[k])
    ensures TellsLines(WithLog(container, log[..n]), container, log, n)
  {
    if n == 0 {
      NoLines(container, log);
    } else {
      LinesTold(container, log, n - 1);
      LogOneMore(container, log, n - 1);
      LinesOneMore(WithLog(container, log[..n - 1]), container, log, n - 1);
    }
  }

  lemma ReportTellsLines(p: Pod, log: seq<Line>)
    ensures forall n: nat :: ReadUpTo(log, n) ==> TellsLines(WithLog(FromStatus(p), log), FromStatus(p), log, n)
  {
    forall n: nat | ReadUpTo(log, n)
      ensures TellsLines(WithLog(FromStatus(p), log), FromStatus(p), log, n)
    {
      StopsAtUnreadable(FromStatus(p), log, n);
      LinesTold(FromStatus(p), log, n);
    }
  }

  lemma ReportTells(p: Pod, logs: map<string, seq<Line>>)
    ensures Tells(ReportOf(p, logs), p, logs)
  {
    StatusLeavesTheRest(Blank(p), p.containers);
    ContainerTold(p);
    if p.name in logs {
      LogLeavesIdentity(FromStatus(p), logs[p.name]);
      ReportTellsLines(p, logs[p.name]);
      forall config, course, code, output: seq<Record>, k: nat
        | Emits(config, course, code, output) && k <= |output| && LogOf(logs[p.name], output[..k])
        ensures TellsRecords(ReportOf(p, logs), p.containers, config, course, code, k)
      {
        RecordsTold(p, logs[p.name], config, course, code, output, k);
      }
    }
  }

  lemma ReportsTell(pods: seq<Pod>, logs: map<string, seq<Line>>, reports: seq<Report>)
    requires multiset(reports) == multiset(ReportsOf(pods, logs))
    ensures |reports| == |pods| && forall p :: p in pods ==> exists r :: r in reports && Tells(r, p, logs)
    ensures DistinctNames(pods) ==> forall r, p :: r in reports && p in pods && r.pod == p.name ==> Tells(r, p, logs)
  {
    var all := ReportsOf(pods, logs);
    assert |multiset(reports)| == |reports| && |multiset(all)| == |all|;
    forall p | p in pods
      ensures ReportOf(p, logs) in reports && Tells(ReportOf(p, logs), p, logs)
    {
      var i :| 0 <= i < |pods| && pods[i] == p;
      assert all[i] in multiset(all);
      ReportTells(p, logs);
    }
    if DistinctNames(pods) {
      forall r, p | r in reports && p in pods && r.pod == p.name
        ensures Tells(r, p, logs)
      {
        assert r in multiset(all);
        var i :| 0 <= i < |all| && all[i] == r;
        ReportTells(pods[i], logs);
        var j :| 0 <= j < |pods| && pods[j] == p;
        assert i == j;
      }
    }
  }

  /** Over a report: in complete mode, when nobody cancels, a fully read log tells of exit code 10
      exactly when the worker's completion index is in the list of failure indexes it shows. */
  lemma ReportFailsIffListed(r: Report, p: Pod, logs: map<string, seq<Line>>, args: Arguments, indexText: string,
                             config: Config, course: Course, output: seq<Record>)
    requires Tells(r, p, logs) && p.name in logs && LogOf(logs[p.name], output)
    requires ConfigOf(args, indexText) == Some(config)
    requires config.mode == "complete" && course.delayElapsed && course.durationElapsed
    requires Emits(config, course, ExitCode(config, course), output)
    ensures r.exitCode == Some(10) <==> config.index.Some? && config.index.value in r.parameters.failIndexes
  {
    assert output[..2] == output;
    assert TellsRecords(r, p.containers, config, course, ExitCode(config, course), 2);
  }
}
