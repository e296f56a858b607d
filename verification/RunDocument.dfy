/** What a benchmark run records: a function of what the oracle says about its calls, numbered from
    the run's first, and of nothing else. */
module RunDocument {
  import opened Wrappers
  import opened Topology
  import opened ClusterObjects
  import opened GpuCapacity
  import opened Results
  import opened LabCluster
  import opened Evidence

  /** `data` is the scheduler configuration read from the profile's file, if it can be read. */
  datatype Profile = Profile(name: string, data: Option<Labels>, probeShouldFit: bool)

  /** The profiles labctl runs. */
  predicate FromLabctl(p: Profile) {
    (p.name == "baseline" && !p.probeShouldFit) || (p.name == "optimized" && p.probeShouldFit)
  }

  function HolderName(index: nat, run: string): string {
    (if index == 0 then "holder-1-" else if index == 1 then "holder-2-" else "holder-3-") + run
  }

  function ProbeName(run: string): string {
    "probe-" + run
  }

  function Holders(count: nat, run: string): seq<Definition> {
    seq(count, i requires 0 <= i < count => Definition(HolderName(i, run), 1, 2))
  }

  /** Three holders of two GPUs each, and a probe of four. */
  function Workloads(run: string): seq<Definition> {
    Holders(3, run) + [Definition(ProbeName(run), 1, 4)]
  }

  // ---- the calls of a run

  // The scheduler is switched by the first five calls. Each holder is then created and waited for,
  // the snapshot is taken, the probe created and its fate awaited.
  const HOLDING := 5
  const SNAPSHOT := 11
  const PROBING := 12
  const WATCHING := 13

  function Length(p: Profile): nat {
    if p.probeShouldFit then WATCHING + 2 else WATCHING + 4
  }

  /** How a run went: the number of its first call, how many calls its scenario made, and what
      became of it, of the final snapshot and of the evidence. */
  datatype Course = Course(start: nat, made: nat, finished: bool, snapped: bool, bundled: bool)

  /** How a cleanup went: how many AIJobs it was told of, and which were left to vanish. */
  datatype Cleaning = Cleaning(listed: nat, left: set<string>, ok: bool)

  /** How far a scenario gets: to its end when every call is answered, and otherwise to the first
      call that is not. A profile that cannot be read allows none; `free` says that the names of its
      AIJobs are. */
  ghost predicate Stopped(o: Oracle, p: Profile, free: bool, start: nat, made: nat, finished: bool) {
    if p.data.None? then made == 0 && !finished
    else made <= Length(p) && (finished ==> made == Length(p)) && Ran(o, start, start + made, finished, free)
  }

  function SnapAt(c: Course): nat {
    c.start + c.made
  }

  function BundleAt(o: Oracle, c: Course): nat {
    SnapAt(c) + if o.fate(SnapAt(c)) == Done then 2 else 1
  }

  function WriteAt(o: Oracle, c: Course): nat {
    CollectEnd(o, BundleAt(o, c))
  }

  function CleanAt(o: Oracle, c: Course): nat {
    WriteAt(o, c) + 1
  }

  /** A profile called baseline whose probe should fit expects what it cannot observe. */
  predicate AtOdds(p: Profile) {
    p.name == "baseline" && p.probeShouldFit
  }

  /** Each part of a run goes well exactly when its own calls are answered; the metrics do not
      matter, and only a finished scenario shows the evidence everything it expects. */
  ghost predicate Follows(o: Oracle, p: Profile, free: bool, c: Course) {
    Stopped(o, p, free, c.start, c.made, c.finished) && Concludes(o, p, c)
  }

  ghost predicate Concludes(o: Oracle, p: Profile, c: Course) {
    && (c.snapped <==> Answered(o, SnapAt(c), SnapAt(c) + 2))
    && (c.bundled <==> Bundles(o, BundleAt(o, c), c.finished && !AtOdds(p)))
  }

  /** One of the polls finds that every AIJob left has vanished, and everything else of the run. */
  ghost predicate Emptied(o: Oracle, left: set<string>, from: nat, poll: nat) {
    NoDescendants(o, poll) && forall n :: n in left ==> Vanishes(o, n, from, poll + 1)
  }

  ghost predicate Vanishes(o: Oracle, name: string, from: nat, to: nat) {
    exists k | from <= k < to :: !o.lingers(k, name)
  }

  /** A cleanup of the AIJobs listed goes well: it is told them, every deletion is answered, and one
      of the polls allowed finds nothing, after none that was not answered. */
  ghost predicate Cleans(o: Oracle, from: nat, c: Cleaning, attempts: nat) {
    Answered(o, from, from + 1 + c.listed) && Awaits(o, from + 1 + c.listed, c.left, attempts)
  }

  ghost predicate Awaits(o: Oracle, polls: nat, left: set<string>, attempts: nat) {
    exists k | polls <= k < polls + attempts :: Answered(o, polls, k + 1) && Emptied(o, left, polls, k)
  }

  /** A cleanup that goes well has, at the last of its polls, found no JobSet, no Job and no Pod of the
      run, and every AIJob left vanished by then. */
  lemma CleansFindsNothing(o: Oracle, from: nat, c: Cleaning, attempts: nat)
    requires Cleans(o, from, c, attempts)
    ensures exists k: nat ::
      && from + 1 + c.listed <= k < from + 1 + c.listed + attempts && Answered(o, from, k + 1)
      && o.jobSets(k) == [] && o.jobs(k) == [] && o.pods(k) == []
      && forall n :: n in c.left ==> exists v :: from + 1 + c.listed <= v <= k && !o.lingers(v, n)
  {
    var polls := from + 1 + c.listed;
    var k :| polls <= k < polls + attempts && Answered(o, polls, k + 1) && Emptied(o, c.left, polls, k);
    assert o.jobSets(k) == [] && o.jobs(k) == [] && o.pods(k) == [] && Answered(o, from, k + 1);
    forall n | n in c.left
      ensures exists v :: polls <= v <= k && !o.lingers(v, n)
    {
      assert Vanishes(o, n, polls, k + 1);
      var v :| polls <= v < k + 1 && !o.lingers(v, n);
    }
  }

  // ---- the document

  function Submitted(run: string, made: nat): seq<Definition> {
    if made <= HOLDING then []
    else if made <= PROBING then Holders(if made < SNAPSHOT then (made - HOLDING + 1) / 2 else 3, run)
    else Workloads(run)
  }

  /** The fragmentation is that of what a snapshot shows. */
  ghost predicate Snapshotted(o: Oracle, k: nat, f: Fragmentation) {
    Measures(f, ClaimAll(Allocatable(o.nodes(k)), o.pods(k)), TARGET_GPUS)
  }

  lemma SubmittedHolders(run: string, index: nat)
    requires index < 3
    ensures Submitted(run, HOLDING + 2 * index + 1) == Submitted(run, HOLDING + 2 * index + 2)
         == Holders(index, run) + [Definition(HolderName(index, run), 1, 2)] == Holders(index + 1, run)
  {
  }

  ghost predicate Measured(o: Oracle, start: nat, made: nat, f: Fragmentation) {
    if made <= PROBING then f == NO_FRAGMENTATION else Snapshotted(o, start + SNAPSHOT, f)
  }

  /** The recovery when the probe has been seen not to fit, and when the holder is released. */
  function Asked(run: string): Recovery {
    Recovery(true, true, HolderName(0, run), None, None, None, false)
  }

  function Released(o: Oracle, run: string, start: nat): Recovery {
    Asked(run).(releasedAt := Some(o.clock(start + WATCHING + 1)))
  }

  function RecoveryAfter(o: Oracle, p: Profile, run: string, start: nat, made: nat, finished: bool): Recovery {
    if p.probeShouldFit || made <= WATCHING + 1 then NO_RECOVERY
    else if made == WATCHING + 2 then Asked(run)
    else if made == WATCHING + 3 then Released(o, run, start)
    else Released(o, run, start).(recoveredAt := Some(o.clock(start + WATCHING + 3)), recovered := finished,
                                  latency := Some(o.clock(start + WATCHING + 3) - o.clock(start + WATCHING + 1)))
  }

  function OutcomesAfter(p: Profile, run: string, made: nat, finished: bool): map<string, string> {
    if p.probeShouldFit then if finished then map[ProbeName(run) := "completed"] else map[]
    else
      var released := if made <= WATCHING + 2 then map[] else map[HolderName(0, run) := "released"];
      if finished then released[ProbeName(run) := "completed-after-release"] else released
  }

  function MakespanAfter(o: Oracle, start: nat, made: nat, finished: bool): Option<int> {
    if finished then Some(o.clock(start + made) - o.clock(start + HOLDING)) else None
  }

  function Blank(p: Profile, run: string, now: int, capacity: Capacity): Result {
    Result(SCHEMA_VERSION, run, now, false, [], p.name, capacity, [], map[], None, NO_FRAGMENTATION, NO_RECOVERY, [])
  }

  function Filled(before: Result, workloads: seq<Definition>, f: Fragmentation, outcomes: map<string, string>,
                  recovery: Recovery, makespan: Option<int>): Result {
    before.(workloads := workloads, fragmentation := f, outcomes := outcomes, recovery := recovery, makespan := makespan)
  }

  /** What an experiment adds to the document. */
  function Experimented(before: Result, o: Oracle, p: Profile, run: string, start: nat, made: nat, finished: bool, f: Fragmentation): Result {
    Filled(before, Submitted(run, made), f, OutcomesAfter(p, run, made, finished),
           RecoveryAfter(o, p, run, start, made, finished), MakespanAfter(o, start, made, finished))
  }

  /** The document when the scenario ends, wherever it does. */
  function Draft(o: Oracle, p: Profile, run: string, capacity: Capacity, start: nat, made: nat, finished: bool, f: Fragmentation): Result {
    Experimented(Blank(p, run, o.clock(start), capacity), o, p, run, start, made, finished, f)
  }

  ghost predicate Drafts(o: Oracle, p: Profile, run: string, capacity: Capacity, start: nat, made: nat, finished: bool, r: Result) {
    Measured(o, start, made, r.fragmentation) && r == Draft(o, p, run, capacity, start, made, finished, r.fragmentation)
  }

  /** Switching the scheduler leaves the document as it was. */
  lemma NothingYet(o: Oracle, p: Profile, run: string, capacity: Capacity, start: nat, made: nat)
    requires made <= HOLDING
    ensures Drafts(o, p, run, capacity, start, made, false, Blank(p, run, o.clock(start), capacity))
  {
  }

  lemma NothingSeen(o: Oracle, p: Profile, run: string, start: nat, made: nat)
    requires made <= WATCHING
    ensures OutcomesAfter(p, run, made, false) == map[] && RecoveryAfter(o, p, run, start, made, false) == NO_RECOVERY
    ensures MakespanAfter(o, start, made, false) == None
  {
  }

  /** Workloads without an outcome are still running. */
  function WithRunning(outcomes: map<string, string>, workloads: seq<Definition>): map<string, string> {
    map n | n in outcomes.Keys + (set d | d in workloads :: d.name) :: if n in outcomes then outcomes[n] else "running"
  }

  lemma RunningOneMore(outcomes: map<string, string>, workloads: seq<Definition>, k: nat)
    requires k < |workloads|
    ensures WithRunning(outcomes, []) == outcomes
    ensures var before, name := WithRunning(outcomes, workloads[..k]), workloads[k].name;
      WithRunning(outcomes, workloads[..k + 1]) == if name in before then before else before[name := "running"]
  {
    assert workloads[..k + 1] == workloads[..k] + [workloads[k]];
  }

  function PartsMissing(finished: bool, snapped: bool, bundled: bool): seq<string> {
    Unless(finished, "run") + Unless(snapped, "final snapshot") + Unless(bundled, "evidence")
  }

  function Snapped(r: Result, snapped: bool): Result {
    if snapped then r.(outcomes := WithRunning(r.outcomes, r.workloads)) else r
  }

  function Completed(shown: Result, run: string, finished: bool, missing: seq<string>): Result {
    shown.(missing := missing, evidence := [run], complete := finished && |missing| == 0)
  }

  /** The document a run writes. */
  function Final(o: Oracle, p: Profile, run: string, capacity: Capacity, c: Course, f: Fragmentation): Result {
    Completed(Snapped(Draft(o, p, run, capacity, c.start, c.made, c.finished, f), c.snapped), run, c.finished,
              PartsMissing(c.finished, c.snapped, c.bundled))
  }

  ghost predicate Writes(o: Oracle, p: Profile, run: string, capacity: Capacity, c: Course, r: Result) {
    Measured(o, c.start, c.made, r.fragmentation) && r == Final(o, p, run, capacity, c, r.fragmentation)
  }

  // ---- what a document says of the run

  /** The clock of the call before which the first holder is released, and of that before which the
      probe has been seen scheduled. */
  function ReleaseTime(o: Oracle, c: Course): int {
    o.clock(c.start + 14)
  }

  function RecoveryTime(o: Oracle, c: Course): int {
    o.clock(c.start + 16)
  }

  /** Where a recovery got to: the probe was seen not to fit, the holder released, the probe seen
      scheduled. */
  predicate SawNoRoom(p: Profile, c: Course) {
    !p.probeShouldFit && c.made >= 15
  }

  predicate DidRelease(p: Profile, c: Course) {
    !p.probeShouldFit && c.made >= 16
  }

  predicate DidRecover(p: Profile, c: Course) {
    !p.probeShouldFit && c.made >= 17
  }

  /** What of a document the course decides. */
  lemma FinalFields(o: Oracle, p: Profile, run: string, capacity: Capacity, c: Course, r: Result)
    requires Writes(o, p, run, capacity, c, r)
    ensures r.recovery == RecoveryAfter(o, p, run, c.start, c.made, c.finished)
    ensures r.makespan == MakespanAfter(o, c.start, c.made, c.finished)
  {
  }

  lemma CourseEnds(o: Oracle, p: Profile, free: bool, c: Course)
    requires Follows(o, p, free, c)
    ensures c.made <= Length(p) && (c.finished ==> c.made == Length(p))
  {
  }

  lemma LatencyIs(o: Oracle, p: Profile, run: string, c: Course)
    requires c.made <= Length(p) && (c.finished ==> c.made == Length(p))
    ensures var r := RecoveryAfter(o, p, run, c.start, c.made, c.finished);
      && r.releasedAt == (if DidRelease(p, c) then Some(ReleaseTime(o, c)) else None)
      && r.recoveredAt == (if DidRecover(p, c) then Some(RecoveryTime(o, c)) else None)
      && (r.latency.Some? <==> r.releasedAt.Some? && r.recoveredAt.Some?)
      && (r.latency.Some? ==> r.latency.value == r.recoveredAt.value - r.releasedAt.value)
  {
  }

  /** The recovery a document shows: each part exactly when the run got there, the times those of the
      clock, and the latency the time between release and recovery. */
  lemma RecoveryShows(o: Oracle, p: Profile, run: string, free: bool, capacity: Capacity, c: Course, r: Result)
    requires Follows(o, p, free, c) && Writes(o, p, run, capacity, c, r)
    ensures (r.recovery.attempted <==> SawNoRoom(p, c)) && (r.recovery.initiallyUnschedulable <==> SawNoRoom(p, c))
    ensures r.recovery.releasedWorkload == if SawNoRoom(p, c) then "holder-1-" + run else ""
    ensures r.recovery.releasedAt == if DidRelease(p, c) then Some(ReleaseTime(o, c)) else None
    ensures r.recovery.recoveredAt == if DidRecover(p, c) then Some(RecoveryTime(o, c)) else None
    ensures r.recovery.latency.Some? <==> r.recovery.releasedAt.Some? && r.recovery.recoveredAt.Some?
    ensures r.recovery.latency.Some? ==>
      r.recovery.latency.value == r.recovery.recoveredAt.value - r.recovery.releasedAt.value
    ensures r.recovery.recovered <==> c.finished && !p.probeShouldFit
  {
    CourseEnds(o, p, free, c);
    FinalFields(o, p, run, capacity, c, r);
    LatencyIs(o, p, run, c);
  }

  /** A scenario that reaches its end has made all its calls: five to switch the scheduler, two for each
      holder, the snapshot, the probe's creation, and two or four to see the probe through. */
  lemma ScenarioCalls(o: Oracle, p: Profile, free: bool, c: Course)
    requires Follows(o, p, free, c) && c.finished
    ensures c.made == 5 + 3 * 2 + 1 + 1 + if p.probeShouldFit then 2 else 4
    ensures p.data.Some? && Answered(o, c.start, c.start + c.made)
  {
  }

  /** The makespan runs from the end of the switch to the end of a finished scenario. */
  lemma MakespanShows(o: Oracle, p: Profile, run: string, free: bool, capacity: Capacity, c: Course, r: Result)
    requires Follows(o, p, free, c) && Writes(o, p, run, capacity, c, r)
    ensures r.makespan == if c.finished then Some(o.clock(c.start + Length(p)) - o.clock(c.start + 5)) else None
  {
    CourseEnds(o, p, free, c);
    FinalFields(o, p, run, capacity, c, r);
  }

  /** The outcome a document shows of a workload: the probe's is that of a finished scenario, the first
      holder's that it was released; any other workload recorded is running once the final snapshot
      says so, and nothing is said of anything else. */
  lemma OutcomesShow(o: Oracle, p: Profile, run: string, free: bool, capacity: Capacity, c: Course, r: Result, name: string)
    requires Follows(o, p, free, c) && Writes(o, p, run, capacity, c, r)
    ensures (if name in r.outcomes then Some(r.outcomes[name]) else None) ==
      if name == "probe-" + run && c.finished then
        Some(if p.probeShouldFit then "completed" else "completed-after-release")
      else if name == "holder-1-" + run && DidRelease(p, c) then Some("released")
      else if c.snapped && (exists d :: d in r.workloads && d.name == name) then Some("running")
      else None
  {
    assert ("probe-" + run)[0] == 'p' && ("holder-1-" + run)[0] == 'h';
  }

  /** The workloads a finished run has submitted: three holders of two GPUs and a probe of four. */
  lemma WorkloadsShow(o: Oracle, p: Profile, run: string, free: bool, capacity: Capacity, c: Course, r: Result)
    requires Follows(o, p, free, c) && Writes(o, p, run, capacity, c, r) && c.finished
    ensures r.workloads == [Definition("holder-1-" + run, 1, 2), Definition("holder-2-" + run, 1, 2),
                            Definition("holder-3-" + run, 1, 2), Definition("probe-" + run, 1, 4)]
  {
  }

  /** What the document says of itself, and what is missing from it. */
  lemma IdentityShows(o: Oracle, p: Profile, run: string, capacity: Capacity, c: Course, r: Result)
    requires Writes(o, p, run, capacity, c, r)
    ensures r.schemaVersion == "v2" && r.runId == run && r.profile == p.name && r.cluster == capacity
    ensures r.timestamp == o.clock(c.start)
    ensures ("run" in r.missing <==> !c.finished) && ("final snapshot" in r.missing <==> !c.snapped)
            && ("evidence" in r.missing <==> !c.bundled)
    ensures forall m :: m in r.missing ==> m in {"run", "final snapshot", "evidence"}
  {
  }

  // ---- what is expected and what is observed

  function Expected(profile: string): seq<string> {
    ["probe completed"] + if profile == "baseline" then ["probe initially unschedulable"] else []
  }

  predicate ProbeCompleted(outcomes: map<string, string>) {
    exists n :: n in outcomes && outcomes[n] in {"completed", "completed-after-release"}
  }

  function Observed(r: Result): seq<string> {
    (if r.profile == "baseline" && r.recovery.initiallyUnschedulable then ["probe initially unschedulable"] else [])
    + if ProbeCompleted(r.outcomes) then ["probe completed"] else []
  }

  /** What a baseline run has to show, and any other. */
  lemma ExpectedIs(profile: string)
    ensures "probe completed" in Expected(profile)
    ensures "probe initially unschedulable" in Expected(profile) <==> profile == "baseline"
    ensures forall e :: e in Expected(profile) ==> e in {"probe completed", "probe initially unschedulable"}
  {
  }

  lemma ProbeCompletedIff(p: Profile, run: string, made: nat, finished: bool, workloads: seq<Definition>, snapped: bool)
    ensures var outcomes := OutcomesAfter(p, run, made, finished);
      ProbeCompleted(if snapped then WithRunning(outcomes, workloads) else outcomes) <==> finished
  {
    var outcomes := OutcomesAfter(p, run, made, finished);
    var shown := if snapped then WithRunning(outcomes, workloads) else outcomes;
    if finished {
      assert shown[ProbeName(run)] in {"completed", "completed-after-release"};
    } else {
      forall n | n in shown ensures shown[n] in {"released", "running"} {}
    }
  }

  /** Everything expected of a run is observed exactly when its scenario reached its end, unless a
      profile called baseline was run as one whose probe should fit. */
  lemma AllObservedIff(o: Oracle, p: Profile, run: string, capacity: Capacity, start: nat, made: nat, finished: bool,
                       f: Fragmentation, snapped: bool)
    requires finished ==> made == Length(p)
    ensures var r := Snapped(Draft(o, p, run, capacity, start, made, finished, f), snapped);
      AllObserved(Expected(p.name), Observed(r)) <==> finished && !AtOdds(p)
  {
    var r := Snapped(Draft(o, p, run, capacity, start, made, finished, f), snapped);
    ProbeCompletedIff(p, run, made, finished, Submitted(run, made), snapped);
    assert "probe completed" in Expected(p.name) && |"probe completed"| != |"probe initially unschedulable"|;
    if p.name == "baseline" {
      assert "probe initially unschedulable" in Expected(p.name);
    }
    if finished {
      assert "probe completed" in Observed(r);
    }
  }

  lemma ShownMeets(o: Oracle, p: Profile, run: string, capacity: Capacity, start: nat, made: nat, finished: bool,
                   draft: Result, snapped: bool)
    requires Drafts(o, p, run, capacity, start, made, finished, draft) && (finished ==> made == Length(p))
    ensures var shown := Snapped(draft, snapped);
      AllObserved(Expected(shown.profile), Observed(shown)) <==> finished && !AtOdds(p)
  {
    AllObservedIff(o, p, run, capacity, start, made, finished, draft.fragmentation, snapped);
  }

  /** The final snapshot and the evidence went as their calls did. */
  lemma ConcludesSo(o: Oracle, p: Profile, start: nat, from: nat, finished: bool, snapped: bool, bundled: bool, at: nat, met: bool)
    requires start <= from && (snapped <==> Answered(o, from, from + 2))
    requires at == from + if o.fate(from) == Done then 2 else 1
    requires met == (finished && !AtOdds(p)) && (bundled <==> Bundles(o, at, met))
    ensures var c := Course(start, from - start, finished, snapped, bundled);
      Concludes(o, p, c) && WriteAt(o, c) == CollectEnd(o, at)
  {
  }

  /** What a run that reached its end records is complete exactly when the calls of its final snapshot
      are answered and those of its evidence, the metrics apart. */
  lemma FinishedIsCompleteIff(o: Oracle, p: Profile, free: bool, run: string, capacity: Capacity, c: Course, r: Result)
    requires c.finished && Follows(o, p, free, c) && Writes(o, p, run, capacity, c, r)
    ensures r.complete <==> Answered(o, SnapAt(c), SnapAt(c) + 2) && Bundles(o, BundleAt(o, c), !AtOdds(p))
  {
    CompleteIff(o, p, run, capacity, c, r);
  }

  lemma DraftBecomesFinal(o: Oracle, p: Profile, run: string, capacity: Capacity, c: Course, draft: Result, r: Result)
    requires Drafts(o, p, run, capacity, c.start, c.made, c.finished, draft)
    requires r == Completed(Snapped(draft, c.snapped), run, c.finished, PartsMissing(c.finished, c.snapped, c.bundled))
    ensures Writes(o, p, run, capacity, c, r) && r.runId == run
  {
  }

  /** A result is complete exactly when the scenario, the final snapshot and the evidence went well. */
  lemma CompleteIff(o: Oracle, p: Profile, run: string, capacity: Capacity, c: Course, r: Result)
    requires Writes(o, p, run, capacity, c, r)
    ensures r.complete <==> c.finished && c.snapped && c.bundled
    ensures r.complete <==> r.missing == []
  {
  }

  // ---- which documents pass validation

  lemma MeasuredRatio(o: Oracle, k: nat, f: Fragmentation)
    requires Sane(o) && Snapshotted(o, k, f)
    ensures 0.0 <= f.ratio <= 1.0
  {
    AllocatableNonNegative(o.nodes(k));
    FreeStaysNonNegative(Allocatable(o.nodes(k)), o.pods(k));
    RatioExtremes(ClaimAll(Allocatable(o.nodes(k)), o.pods(k)), TARGET_GPUS);
  }

  /** The run broke after its first workload was recorded and before the snapshot was taken. */
  predicate BrokeHolding(c: Course) {
    HOLDING < c.made <= PROBING
  }

  lemma FinalRecovery(o: Oracle, p: Profile, run: string, c: Course)
    requires Sane(o) && FromLabctl(p) && c.finished && c.made == Length(p)
    ensures var r := RecoveryAfter(o, p, run, c.start, c.made, c.finished);
      if p.name == "baseline" then RecoveryShown(r) && r.latency.value >= 0 else !r.attempted
  {
  }

  /** What of a document decides whether it passes. */
  lemma Passes(r: Result, p: Profile)
    requires r.schemaVersion == SCHEMA_VERSION && r.runId != "" && r.timestamp > 0 && r.cluster == LAB_CAPACITY
    requires FromLabctl(p) && r.profile == p.name && (r.complete <==> r.missing == [])
    requires r.workloads != [] ==> r.fragmentation.target == TARGET_GPUS
    requires 0.0 <= r.fragmentation.ratio <= 1.0
    requires r.complete ==>
      if p.name == "baseline" then RecoveryShown(r.recovery) && r.recovery.latency.value >= 0 else !r.recovery.attempted
    ensures Valid(r)
  {
  }

  lemma PassesUnlessBroke(o: Oracle, p: Profile, run: string, free: bool, c: Course, r: Result)
    requires Sane(o) && FromLabctl(p) && run != "" && !BrokeHolding(c)
    requires Follows(o, p, free, c) && Writes(o, p, run, LAB_CAPACITY, c, r)
    ensures Valid(r)
  {
    if c.made > PROBING {
      MeasuredRatio(o, c.start + SNAPSHOT, r.fragmentation);
    }
    if c.finished {
      FinalRecovery(o, p, run, c);
    }
    CompleteIff(o, p, run, LAB_CAPACITY, c, r);
    Passes(r, p);
  }

  /** Under labctl's profiles, what a run writes passes validation exactly when the run did not break
      while holding; a complete result therefore always does. */
  lemma WrittenResultIsValidIff(o: Oracle, p: Profile, run: string, free: bool, c: Course, r: Result)
    requires Sane(o) && FromLabctl(p) && run != ""
    requires Follows(o, p, free, c) && Writes(o, p, run, LAB_CAPACITY, c, r)
    ensures Valid(r) <==> !BrokeHolding(c)
    ensures r.complete ==> !BrokeHolding(c)
  {
    if BrokeHolding(c) {
      assert Submitted(run, c.made)[0] == Holders(3, run)[0];
      assert HasProblem(r, WrongTarget);
    } else {
      PassesUnlessBroke(o, p, run, free, c, r);
    }
  }

  /** Seen from the document: it passes exactly when it lists no workload, or its fragmentation is
      that of a snapshot the run took. */
  lemma BrokeHoldingShows(o: Oracle, p: Profile, run: string, capacity: Capacity, c: Course, r: Result)
    requires Writes(o, p, run, capacity, c, r)
    ensures BrokeHolding(c) <==> r.workloads != [] && forall k: nat :: !Snapshotted(o, k, r.fragmentation)
  {
    if BrokeHolding(c) {
      assert Submitted(run, c.made)[0] == Holders(3, run)[0];
    } else if c.made > PROBING {
      assert Snapshotted(o, c.start + SNAPSHOT, r.fragmentation);
    }
  }

  /** The first call of a run that is not answered. */
  ghost predicate FirstFault(o: Oracle, start: nat, k: nat) {
    start <= k && Answered(o, start, k) && o.fate(k) != Done
  }

  /** Seen from the oracle: a run whose names are free breaks while holding exactly when its first
      fault is one of seven calls: the creations of the holders, the waits for them, the snapshot. */
  lemma BrokeHoldingIffFirstFault(o: Oracle, p: Profile, c: Course)
    requires Stopped(o, p, true, c.start, c.made, c.finished)
    ensures BrokeHolding(c) <==>
      p.data.Some? && exists k | c.start + HOLDING <= k < c.start + PROBING :: FirstFault(o, c.start, k)
  {
    if p.data.Some? {
      if BrokeHolding(c) {
        assert FirstFault(o, c.start, c.start + c.made - 1);
      }
      forall k | c.start + HOLDING <= k < c.start + PROBING && FirstFault(o, c.start, k)
        ensures k == c.start + c.made - 1 && !c.finished
      {
        if c.start + c.made <= k {
          assert false;
        }
      }
    }
  }

  // ---- runs that nothing disturbs

  /** When every call is answered and what is deleted vanishes at once, everything goes well. */
  lemma SmoothCourse(o: Oracle, attempts: nat, p: Profile, c: Course)
    requires Smooth(o, attempts) && p.data.Some? && Follows(o, p, true, c)
    ensures c.finished && c.snapped && (c.bundled <==> !AtOdds(p))
  {
  }

  lemma SmoothCleanup(o: Oracle, from: nat, c: Cleaning, attempts: nat)
    requires Smooth(o, attempts)
    ensures Cleans(o, from, c, attempts)
  {
    var polls := from + 1 + c.listed;
    assert Collected(o, polls, attempts);
    var k :| polls <= k < polls + attempts && NoDescendants(o, k);
    forall n | n in c.left ensures Vanishes(o, n, polls, k + 1) {
      assert !o.lingers(k, n);
    }
    assert Emptied(o, c.left, polls, k) && Answered(o, polls, k + 1);
  }

  lemma SmoothRun(o: Oracle, p: Profile, run: string, capacity: Capacity, c: Course, r: Result, from: nat, cleaning: Cleaning,
                  attempts: nat)
    requires Smooth(o, attempts) && p.data.Some? && FromLabctl(p)
    requires Follows(o, p, true, c) && Writes(o, p, run, capacity, c, r)
    requires cleaning.ok <==> Cleans(o, from, cleaning, attempts)
    ensures c.finished && r.complete && cleaning.ok && o.fate(WriteAt(o, c)) == Done
  {
    SmoothCourse(o, attempts, p, c);
    SmoothCleanup(o, from, cleaning, attempts);
  }
}
