/** The benchmark's result document and the contract it is validated against. */
module Results {
  import opened Wrappers
  import opened GpuCapacity

  const SCHEMA_VERSION := "v2"
  const TARGET_GPUS := 4

  datatype Capacity = Capacity(eligibleNodes: int, gpuPerNode: int, totalGpus: int)

  const LAB_CAPACITY := Capacity(3, 4, 12)

  datatype Definition = Definition(name: string, workers: int, gpuPerWorker: int)

  datatype Recovery = Recovery(
    attempted: bool, initiallyUnschedulable: bool, releasedWorkload: string, releasedAt: Option<int>,
    recoveredAt: Option<int>, latency: Option<int>, recovered: bool)

  const NO_RECOVERY := Recovery(false, false, "", None, None, None, false)

  /** `timestamp` 0 stands for no time at all. */
  datatype Result = Result(
    schemaVersion: string, runId: string, timestamp: int, complete: bool, missing: seq<string>, profile: string,
    cluster: Capacity, workloads: seq<Definition>, outcomes: map<string, string>, makespan: Option<int>,
    fragmentation: Fragmentation, recovery: Recovery, evidence: seq<string>)

  datatype Problem =
    | UnsupportedSchema | NoIdentity | UnsupportedProfile | UnexpectedCapacity
    | CompleteButMissing | IncompleteForNoReason | WrongTarget | RatioOutOfRange
    | NoSuccessfulRecovery | NegativeLatency | RecoveryAttempted

  predicate RecoveryShown(r: Recovery) {
    && r.attempted && r.initiallyUnschedulable && r.recovered && r.releasedWorkload != ""
    && r.releasedAt.Some? && r.recoveredAt.Some? && r.latency.Some?
  }

  /** What each problem means. */
  predicate HasProblem(r: Result, p: Problem) {
    match p
    case UnsupportedSchema => r.schemaVersion != SCHEMA_VERSION
    case NoIdentity => r.runId == "" || r.timestamp == 0
    case UnsupportedProfile => r.profile !in {"baseline", "optimized"}
    case UnexpectedCapacity => r.cluster != LAB_CAPACITY
    case CompleteButMissing => r.complete && r.missing != []
    case IncompleteForNoReason => !r.complete && r.missing == []
    case WrongTarget => r.workloads != [] && r.fragmentation.target != TARGET_GPUS
    case RatioOutOfRange => !(0.0 <= r.fragmentation.ratio <= 1.0)
    case NoSuccessfulRecovery => r.complete && r.profile == "baseline" && !RecoveryShown(r.recovery)
    case NegativeLatency => r.complete && r.profile == "baseline" && RecoveryShown(r.recovery) && r.recovery.latency.value < 0
    case RecoveryAttempted => r.complete && r.profile == "optimized" && r.recovery.attempted
  }

  ghost predicate Valid(r: Result) {
    forall p: Problem :: !HasProblem(r, p)
  }

  const ALL_PROBLEMS := [UnsupportedSchema, NoIdentity, UnsupportedProfile, UnexpectedCapacity, CompleteButMissing,
                         IncompleteForNoReason, WrongTarget, RatioOutOfRange, NoSuccessfulRecovery, NegativeLatency,
                         RecoveryAttempted]

  function ProblemsUpTo(r: Result, n: nat): seq<Problem>
    requires n <= |ALL_PROBLEMS|
  {
    if n == 0 then [] else AddIf(ProblemsUpTo(r, n - 1), HasProblem(r, ALL_PROBLEMS[n - 1]), ALL_PROBLEMS[n - 1])
  }

  lemma {:induction false} ProblemsUpToAre(r: Result, n: nat, p: Problem)
    requires n <= |ALL_PROBLEMS|
    ensures p in ProblemsUpTo(r, n) <==> p in ALL_PROBLEMS[..n] && HasProblem(r, p)
  {
    if n > 0 {
      ProblemsUpToAre(r, n - 1, p);
      assert ALL_PROBLEMS[..n] == ALL_PROBLEMS[..n - 1] + [ALL_PROBLEMS[n - 1]];
    }
  }

  function AddIf(problems: seq<Problem>, found: bool, p: Problem): seq<Problem> {
    if found then problems + [p] else problems
  }

  /** The checks on the document itself. */
  method ValidateDocument(r: Result) returns (problems: seq<Problem>)
    ensures problems == ProblemsUpTo(r, 4)
  {
    problems := [];
    if r.schemaVersion != SCHEMA_VERSION {
      problems := problems + [UnsupportedSchema];
    }
    assert problems == ProblemsUpTo(r, 1);
    if r.runId == "" || r.timestamp == 0 {
      problems := problems + [NoIdentity];
    }
    assert problems == ProblemsUpTo(r, 2);
    if r.profile != "baseline" && r.profile != "optimized" {
      problems := problems + [UnsupportedProfile];
    }
    assert problems == ProblemsUpTo(r, 3);
    if r.cluster.eligibleNodes != 3 || r.cluster.gpuPerNode != 4 || r.cluster.totalGpus != 12 {
      problems := problems + [UnexpectedCapacity];
    }
  }

  /** The checks on its measurements, added to those before. */
  method ValidateMeasurements(r: Result, before: seq<Problem>) returns (problems: seq<Problem>)
    requires before == ProblemsUpTo(r, 4)
    ensures problems == ProblemsUpTo(r, 8)
  {
    problems := before;
    if r.complete && |r.missing| != 0 {
      problems := problems + [CompleteButMissing];
    }
    assert problems == ProblemsUpTo(r, 5);
    if !r.complete && |r.missing| == 0 {
      problems := problems + [IncompleteForNoReason];
    }
    assert problems == ProblemsUpTo(r, 6);
    if |r.workloads| > 0 && r.fragmentation.target != 4 {
      problems := problems + [WrongTarget];
    }
    assert problems == ProblemsUpTo(r, 7);
    if r.fragmentation.ratio < 0.0 || r.fragmentation.ratio > 1.0 {
      problems := problems + [RatioOutOfRange];
    }
  }

  /** Reports exactly the problems there are. */
  method ValidateResult(r: Result) returns (problems: seq<Problem>)
    ensures forall p :: p in problems <==> HasProblem(r, p)
    ensures problems == [] <==> Valid(r)
  {
    problems := ValidateDocument(r);
    problems := ValidateMeasurements(r, problems);
    if r.complete && r.profile == "baseline" {
      if !RecoveryShown(r.recovery) {
        problems := problems + [NoSuccessfulRecovery];
      } else if r.recovery.latency.value < 0 {
        problems := problems + [NegativeLatency];
      }
    }
    assert problems == ProblemsUpTo(r, 10);
    if r.complete && r.profile == "optimized" && r.recovery.attempted {
      problems := problems + [RecoveryAttempted];
    }
    assert problems == ProblemsUpTo(r, 11);
    EveryProblemListed(r);
    NoProblemMeansNone(problems, r);
  }

  lemma EveryProblemListed(r: Result)
    ensures forall p :: p in ProblemsUpTo(r, 11) <==> HasProblem(r, p)
  {
    forall p
      ensures p in ProblemsUpTo(r, 11) <==> HasProblem(r, p)
    {
      ProblemsUpToAre(r, 11, p);
      Listed(p);
      assert ALL_PROBLEMS[..11] == ALL_PROBLEMS;
    }
  }

  lemma Listed(p: Problem)
    ensures p in ALL_PROBLEMS
  {
  }

  lemma NoProblemMeansNone(problems: seq<Problem>, r: Result)
    requires forall p :: p in problems <==> HasProblem(r, p)
    ensures problems == [] <==> Valid(r)
  {
    if problems != [] {
      assert problems[0] in problems;
    }
  }

  // ---- what a valid result is

  /** A complete result of either profile, in the parts that only complete ones must have. */
  predicate CompletesProperly(r: Result) {
    && r.missing == []
    && (r.profile == "baseline" ==>
          && r.recovery.attempted && r.recovery.initiallyUnschedulable && r.recovery.recovered
          && r.recovery.releasedWorkload != "" && r.recovery.releasedAt.Some? && r.recovery.recoveredAt.Some?
          && r.recovery.latency.Some? && r.recovery.latency.value >= 0)
    && (r.profile == "optimized" ==> !r.recovery.attempted)
  }

  /** A result passes exactly when it has all that every result must, and either what complete ones
      must or something missing. */
  lemma ValidIff(r: Result)
    ensures Valid(r) <==>
      && r.schemaVersion == "v2" && r.runId != "" && r.timestamp != 0 && r.profile in {"baseline", "optimized"}
      && r.cluster.eligibleNodes == 3 && r.cluster.gpuPerNode == 4 && r.cluster.totalGpus == 12
      && (r.workloads != [] ==> r.fragmentation.target == 4) && 0.0 <= r.fragmentation.ratio <= 1.0
      && (if r.complete then CompletesProperly(r) else r.missing != [])
  {
    if !Valid(r) {
      var p :| HasProblem(r, p);
    } else {
      forall p: Problem ensures !HasProblem(r, p) {}
      assert !HasProblem(r, UnsupportedSchema) && !HasProblem(r, NoIdentity) && !HasProblem(r, UnsupportedProfile);
      assert !HasProblem(r, UnexpectedCapacity) && !HasProblem(r, CompleteButMissing) && !HasProblem(r, IncompleteForNoReason);
      assert !HasProblem(r, WrongTarget) && !HasProblem(r, RatioOutOfRange) && !HasProblem(r, NoSuccessfulRecovery);
      assert !HasProblem(r, NegativeLatency) && !HasProblem(r, RecoveryAttempted);
    }
  }

  const DONE := Recovery(true, true, "holder", Some(1), Some(2), Some(1), true)

  /** A complete result of a baseline run, and of an optimized one. */
  function Sample(profile: string): Result {
    Result("v2", "run", 1, true, [], profile, LAB_CAPACITY, [Definition("holder", 1, 2)], map[], Some(1),
           NO_FRAGMENTATION.(target := 4), if profile == "baseline" then DONE else NO_RECOVERY, [])
  }

  /** Each check is needed: for each there is a result that fails it and no other. */
  lemma EachCheckIsNeeded(p: Problem) returns (r: Result)
    ensures HasProblem(r, p) && forall q :: q != p ==> !HasProblem(r, q)
  {
    var baseline, optimized := Sample("baseline"), Sample("optimized");
    match p
    case UnsupportedSchema => r := optimized.(schemaVersion := "v1");
    case NoIdentity => r := optimized.(runId := "");
    case UnsupportedProfile => r := optimized.(profile := "other");
    case UnexpectedCapacity => r := optimized.(cluster := Capacity(3, 4, 13));
    case CompleteButMissing => r := optimized.(missing := ["evidence"]);
    case IncompleteForNoReason => r := optimized.(complete := false);
    case WrongTarget => r := optimized.(fragmentation := NO_FRAGMENTATION);
    case RatioOutOfRange => r := optimized.(fragmentation := optimized.fragmentation.(ratio := 1.5));
    case NoSuccessfulRecovery => r := baseline.(recovery := DONE.(recovered := false));
    case NegativeLatency => r := baseline.(recovery := DONE.(latency := Some(-1)));
    case RecoveryAttempted => r := optimized.(recovery := DONE);
  }
}
