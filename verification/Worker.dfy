/** The lab's worker process: what it emits and how it exits. */
module Worker {
  import opened Wrappers
  import opened IndexList

  const EXIT_SUCCESS := 0
  const EXIT_VALIDATION := 2
  const EXIT_TERMINATION := 3
  const EXIT_FAILURE := 10

  const MODE_COMPLETE := "complete"
  const MODE_WAIT := "wait"

  /** The command line after flag parsing; durations are in nanoseconds. */
  datatype Arguments = Arguments(
    wellFormed: bool, positional: nat, mode: string, duration: int, startupDelay: int, failIndexes: string)

  datatype Config = Config(
    mode: string, duration: int, startupDelay: int, failIndexes: set<nat>, index: Option<nat>)

  datatype Parameters = Parameters(mode: string, duration: int, startupDelay: int, failIndexes: seq<nat>)

  const NO_PARAMETERS := Parameters("", 0, 0, [])

  /** One line of output. `timestamp` is None when its text is not a time. */
  datatype Record = Record(
    kind: string, timestamp: Option<int>, mode: string, completionIndex: Option<nat>, duration: int,
    outcome: string, parameters: Parameters, exitReason: string, exitCode: Option<int>)

  function ConfigOf(args: Arguments, indexText: string): Option<Config> {
    if !args.wellFormed || args.positional != 0 then None
    else if args.mode != MODE_COMPLETE && args.mode != MODE_WAIT then None
    else if args.duration < 0 || args.startupDelay < 0 then None
    else
      var selected, index := Parsed(args.failIndexes), ParsedIndex(indexText);
      if selected.None? || index.None? then None
      else Some(Config(args.mode, args.duration, args.startupDelay, selected.value, index.value))
  }

  method ParseConfig(args: Arguments, indexText: string) returns (config: Option<Config>)
    ensures config == ConfigOf(args, indexText)
  {
    if !args.wellFormed || args.positional != 0 {
      return None;
    }
    if args.mode != MODE_COMPLETE && args.mode != MODE_WAIT {
      return None;
    }
    if args.duration < 0 || args.startupDelay < 0 {
      return None;
    }
    var selected := ParseIndexes(args.failIndexes);
    if selected.None? {
      return None;
    }
    var index := ParsedIndex(indexText);
    if index.None? {
      return None;
    }
    config := Some(Config(args.mode, args.duration, args.startupDelay, selected.value, index.value));
  }

  /** A command line that lists the failure indexes in decimal, and the environment's index. */
  function CommandLine(mode: string, duration: int, startupDelay: int, failIndexes: seq<nat>): Arguments {
    Arguments(true, 0, mode, duration, startupDelay, Join(Decimals(failIndexes)))
  }

  function IndexText(index: Option<nat>): string {
    if index.None? then "" else Decimal(index.value)
  }

  predicate Fits(index: nat) {
    index <= MAX_INT
  }

  /** What is written on a command line is what the worker runs with, in whatever order and however
      often the indexes are listed; it is refused exactly when the mode is neither of the two, a
      duration is negative, or an index does not fit. */
  lemma ConfigReadsBack(mode: string, duration: int, startupDelay: int, failIndexes: seq<nat>, index: Option<nat>)
    ensures ConfigOf(CommandLine(mode, duration, startupDelay, failIndexes), IndexText(index)) ==
      if mode in {MODE_COMPLETE, MODE_WAIT} && duration >= 0 && startupDelay >= 0
         && (forall x :: x in failIndexes ==> Fits(x)) && (index.Some? ==> Fits(index.value))
      then Some(Config(mode, duration, startupDelay, SetOf(failIndexes), index)) else None
  {
    ListReadsBack(failIndexes);
    if index.Some? {
      DecimalReadsBack(index.value);
    }
    assert (forall x :: x in failIndexes ==> Fits(x)) <==> (forall x :: x in failIndexes ==> x <= MAX_INT);
  }

  predicate Ascending(xs: seq<nat>) {
    forall i, j :: 0 <= i < j < |xs| ==> xs[i] < xs[j]
  }

  /** The elements of a set in strictly ascending order. */
  ghost predicate Lists(xs: seq<nat>, s: set<nat>) {
    Ascending(xs) && forall x :: x in xs <==> x in s
  }

  function InsertInt(xs: seq<nat>, x: nat): (r: seq<nat>)
    requires Ascending(xs) && x !in xs
    ensures Ascending(r) && forall y :: y in r <==> (y in xs || y == x)
  {
    if xs == [] || x < xs[0] then [x] + xs
    else
      assert xs == [xs[0]] + xs[1..];
      assert xs[0] in xs && x != xs[0];
      var rest := InsertInt(xs[1..], x);
      assert forall k :: 0 <= k < |rest| ==> rest[k] in rest;
      [xs[0]] + rest
  }

  lemma EmptyIff(xs: seq<nat>, s: set<nat>)
    requires Lists(xs, s)
    ensures xs == [] <==> s == {}
  {
    if xs != [] {
      assert xs[0] in xs;
    }
  }

  /** A set has one ascending listing: the record does not depend on map iteration order. */
  lemma {:induction false} ListingIsUnique(a: seq<nat>, b: seq<nat>, s: set<nat>)
    requires Lists(a, s) && Lists(b, s)
    ensures a == b
  {
    EmptyIff(a, s);
    EmptyIff(b, s);
    if a != [] {
      assert a[0] in a && a[0] in b;
      assert b[0] in b && b[0] in a;
      var i :| 0 <= i < |b| && b[i] == a[0];
      var j :| 0 <= j < |a| && a[j] == b[0];
      assert a[0] == b[0];
      TailLists(a, s);
      TailLists(b, s);
      ListingIsUnique(a[1..], b[1..], s - {a[0]});
      assert a == [a[0]] + a[1..] && b == [b[0]] + b[1..];
    }
  }

  lemma TailLists(a: seq<nat>, s: set<nat>)
    requires Lists(a, s) && a != []
    ensures Lists(a[1..], s - {a[0]})
  {
  }

  /** What cancellation lets happen: whether each wait runs out, and when the records are written. */
  datatype Course = Course(delayElapsed: bool, durationElapsed: bool, startTime: int, resultTime: int)

  predicate Selected(config: Config) {
    config.index.Some? && config.index.value in config.failIndexes
  }

  function ExitCode(config: Config, course: Course): int {
    if !course.delayElapsed || config.mode == MODE_WAIT || !course.durationElapsed then EXIT_TERMINATION
    else if Selected(config) then EXIT_FAILURE else EXIT_SUCCESS
  }

  /** A worker that is cancelled, or only waits, exits 3; one that completes exits 10 when its completion
      index is to fail, and 0 otherwise; and each code has its outcome. */
  lemma ExitCodes(config: Config, course: Course)
    ensures config.mode == "wait" || !course.delayElapsed || !course.durationElapsed ==> ExitCode(config, course) == 3
    ensures config.mode != "wait" && course.delayElapsed && course.durationElapsed ==>
      ExitCode(config, course) == if config.index.Some? && config.index.value in config.failIndexes then 10 else 0
    ensures OutcomeOf(3) == "terminated" && OutcomeOf(10) == "failed" && OutcomeOf(0) == "succeeded"
  {
  }

  function OutcomeOf(code: int): string {
    if code == EXIT_TERMINATION then "terminated" else if code == EXIT_FAILURE then "failed" else "succeeded"
  }

  /** One start and one result, of the same process: same parameters, same index, the failure list
      in ascending order, and a result that names its outcome and its exit code. */
  ghost predicate Emits(config: Config, course: Course, code: int, output: seq<Record>) {
    && |output| == 2
    && var start, result := output[0], output[1];
    && start.kind == "start" && start.outcome == "started" && start.timestamp == Some(course.startTime)
    && start.exitReason == "" && start.exitCode == None
    && result.kind == "result" && result.outcome == OutcomeOf(code) && result.timestamp == Some(course.resultTime)
    && result.exitReason == OutcomeOf(code) && result.exitCode == Some(code)
    && (forall r :: r in output ==> Describes(r, config))
  }

  ghost predicate Describes(r: Record, config: Config) {
    && r.mode == config.mode && r.completionIndex == config.index && r.duration == config.duration
    && ShowsParameters(r.parameters, config)
  }

  ghost predicate ShowsParameters(p: Parameters, config: Config) {
    && p.mode == config.mode && p.duration == config.duration && p.startupDelay == config.startupDelay
    && Lists(p.failIndexes, config.failIndexes)
  }

  /** What the records say of the configuration and of each other. */
  lemma EmissionSays(config: Config, course: Course, code: int, output: seq<Record>)
    requires Emits(config, course, code, output)
    ensures |output| == 2 && output[0].kind == "start" && output[1].kind == "result"
    ensures output[0].outcome == "started" && output[0].exitCode == None && output[0].timestamp == Some(course.startTime)
    ensures output[1].exitReason == output[1].outcome && output[1].exitCode == Some(code)
            && output[1].timestamp == Some(course.resultTime)
    ensures forall r :: r in output ==>
      && r.mode == r.parameters.mode == config.mode && r.duration == r.parameters.duration == config.duration
      && r.parameters.startupDelay == config.startupDelay && r.completionIndex == config.index
      && (forall i :: i in r.parameters.failIndexes <==> i in config.failIndexes)
      && (forall i, j :: 0 <= i < j < |r.parameters.failIndexes| ==> r.parameters.failIndexes[i] < r.parameters.failIndexes[j])
  {
  }

  /** The indexes in whatever order the map yields them, sorted. */
  method SortedIndexes(indexes: set<nat>) returns (sorted: seq<nat>)
    ensures Lists(sorted, indexes)
  {
    sorted := [];
    var todo := indexes;
    while todo != {}
      invariant todo <= indexes && Ascending(sorted)
      invariant forall x :: x in sorted <==> x in indexes && x !in todo
      decreases todo
    {
      var index :| index in todo;
      sorted := InsertInt(sorted, index);
      todo := todo - {index};
    }
  }

  class Encoder {
    var output: seq<Record>

    constructor ()
      ensures output == []
    {
      output := [];
    }

    method WriteRecord(config: Config, kind: string, outcome: string, exitCode: Option<int>, now: int)
      returns (ghost r: Record)
      modifies this
      ensures output == old(output) + [r] && Describes(r, config)
      ensures r == Record(kind, Some(now), config.mode, config.index, config.duration, outcome, r.parameters,
                          if kind == "result" then outcome else "", exitCode)
    {
      var failIndexes := SortedIndexes(config.failIndexes);
      var exitReason := "";
      if kind == "result" {
        exitReason := outcome;
      }
      var record := Record(kind, Some(now), config.mode, config.index, config.duration, outcome,
                           Parameters(config.mode, config.duration, config.startupDelay, failIndexes),
                           exitReason, exitCode);
      output := output + [record];
      r := record;
    }
  }

  lemma StartAndResultEmit(config: Config, course: Course, code: int, start: Record, result: Record)
    requires Describes(start, config) && Describes(result, config)
    requires start == Record("start", Some(course.startTime), config.mode, config.index, config.duration, "started",
                             start.parameters, "", None)
    requires result == Record("result", Some(course.resultTime), config.mode, config.index, config.duration,
                              OutcomeOf(code), result.parameters, OutcomeOf(code), Some(code))
    ensures Emits(config, course, code, [start, result])
  {
  }

  /** What follows the start record. */
  method Finish(encoder: Encoder, config: Config, course: Course) returns (code: int, ghost result: Record)
    modifies encoder
    ensures code == ExitCode(config, course)
    ensures encoder.output == old(encoder.output) + [result] && Describes(result, config)
    ensures result == Record("result", Some(course.resultTime), config.mode, config.index, config.duration,
                             OutcomeOf(code), result.parameters, OutcomeOf(code), Some(code))
  {
    if !course.delayElapsed {
      result := encoder.WriteRecord(config, "result", "terminated", Some(EXIT_TERMINATION), course.resultTime);
      return EXIT_TERMINATION, result;
    }
    if config.mode == MODE_WAIT {
      result := encoder.WriteRecord(config, "result", "terminated", Some(EXIT_TERMINATION), course.resultTime);
      return EXIT_TERMINATION, result;
    }
    if !course.durationElapsed {
      result := encoder.WriteRecord(config, "result", "terminated", Some(EXIT_TERMINATION), course.resultTime);
      return EXIT_TERMINATION, result;
    }
    if config.index.Some? {
      if config.index.value in config.failIndexes {
        result := encoder.WriteRecord(config, "result", "failed", Some(EXIT_FAILURE), course.resultTime);
        return EXIT_FAILURE, result;
      }
    }
    result := encoder.WriteRecord(config, "result", "succeeded", Some(EXIT_SUCCESS), course.resultTime);
    return EXIT_SUCCESS, result;
  }

  /** An invalid command line writes nothing and exits 2; any other run writes a start and a result
      that carries the exit code. */
  method Run(args: Arguments, indexText: string, course: Course) returns (code: int, output: seq<Record>)
    ensures ConfigOf(args, indexText).None? ==> code == 2 && output == []
    ensures ConfigOf(args, indexText).Some? ==>
      var config := ConfigOf(args, indexText).value;
      code == ExitCode(config, course) && Emits(config, course, code, output)
  {
    var parsed := ParseConfig(args, indexText);
    if parsed.None? {
      return EXIT_VALIDATION, [];
    }
    var config := parsed.value;
    var encoder := new Encoder();
    ghost var start := encoder.WriteRecord(config, "start", "started", None, course.startTime);
    ghost var result;
    code, result := Finish(encoder, config, course);
    StartAndResultEmit(config, course, code, start, result);
    output := encoder.output;
  }
}
