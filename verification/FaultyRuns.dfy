/** Runs in which exactly one call is refused. */
module FaultyRuns {
  import opened Wrappers
  import opened Results
  import opened LabCluster
  import opened RunDocument
  import opened BenchmarkRun

  /** Times in tally marks. */
  function Tally(t: int): string {
    if t >= 0 then seq(t, _ => '+') else seq(-t, _ => '-')
  }

  lemma TallyTellsApart(t: int, u: int)
    requires Tally(t) == Tally(u)
    ensures t == u
  {
    assert |Tally(t)| == if t >= 0 then t else -t;
    assert |Tally(u)| == if u >= 0 then u else -u;
    if t != 0 {
      assert Tally(t)[0] == Tally(u)[0];
    }
  }

  /** Only this call is refused, and what is deleted vanishes at once. */
  function OnlyRefusing(call: nat): Oracle {
    Oracle(k => if k == call then Refused else Done, k => k + 1, Tally, (_, _) => false, _ => [], _ => [], _ => [], _ => [],
           _ => [], _ => 10, _ => [])
  }

  lemma OnlyRefusingIsSane(call: nat)
    ensures Sane(OnlyRefusing(call))
  {
    forall t, u | OnlyRefusing(call).stamp(t) == OnlyRefusing(call).stamp(u)
      ensures t == u
    {
      TallyTellsApart(t, u);
    }
  }

  const NOTHING_YET := Cluster(map[], None, map[], {})

  /** A run from its first call on, in an empty cluster. */
  method RunRefusing(p: Profile, call: nat) returns (ok: bool, written: bool, result: Result, ghost course: Course, ghost cleaning: Cleaning)
    requires FromLabctl(p)
    ensures var o := OnlyRefusing(call);
      && course.start == 0 && Follows(o, p, true, course) && Writes(o, p, "run", LAB_CAPACITY, course, result)
      && (written <==> WriteAt(o, course) != call)
      && (ok <==> course.finished && written && Cleans(o, CleanAt(o, course), cleaning, 1))
    ensures Valid(result) <==> !BrokeHolding(course)
  {
    OnlyRefusingIsSane(call);
    var lab := new Lab(OnlyRefusing(call), NOTHING_YET);
    var runner := new Runner(lab, 1);
    ghost var released, deletions;
    ok, written, result, course, cleaning, released, deletions := runner.RunOne(p, 1, LAB_CAPACITY, "run");
    assert NamesFree(NOTHING_YET, 0, "run");
  }

  lemma RefusedBefore(call: nat, from: nat, c: Cleaning)
    requires call < from
    ensures Cleans(OnlyRefusing(call), from, c, 1)
  {
    var o, polls := OnlyRefusing(call), from + 1 + c.listed;
    forall n | n in c.left ensures Vanishes(o, n, polls, polls + 1) {
      assert !o.lingers(polls, n);
    }
    assert Emptied(o, c.left, polls, polls) && Answered(o, polls, polls + 1);
  }

  /** The scenario of a run that is refused a later call reaches its end. */
  lemma RefusedLater(p: Profile, call: nat, c: Course)
    requires c.start == 0 && p.data.Some? && Length(p) <= call && Stopped(OnlyRefusing(call), p, true, 0, c.made, c.finished)
    ensures c.finished
  {
  }

  /** Refused its first holder, a run writes a result that does not pass validation. */
  method BreaksAtFirstHolder(p: Profile) returns (written: bool, result: Result)
    requires FromLabctl(p) && p.data.Some?
    ensures written && !result.complete && |result.workloads| == 1 && !Valid(result)
  {
    var ok;
    ghost var course, cleaning;
    ok, written, result, course, cleaning := RunRefusing(p, HOLDING);
    BreaksThere(p, course, result);
  }

  lemma StopsThere(p: Profile, made: nat, finished: bool)
    requires p.data.Some? && Stopped(OnlyRefusing(HOLDING), p, true, 0, made, finished)
    ensures made == HOLDING + 1 && !finished
  {
    assert OnlyRefusing(HOLDING).fate(HOLDING) != Done;
  }

  lemma BreaksThere(p: Profile, c: Course, r: Result)
    requires p.data.Some? && c.start == 0 && Follows(OnlyRefusing(HOLDING), p, true, c)
    requires Writes(OnlyRefusing(HOLDING), p, "run", LAB_CAPACITY, c, r)
    ensures c.made == HOLDING + 1 && !r.complete && |r.workloads| == 1 && WriteAt(OnlyRefusing(HOLDING), c) > HOLDING
  {
    StopsThere(p, c.made, c.finished);
    CompleteIff(OnlyRefusing(HOLDING), p, "run", LAB_CAPACITY, c, r);
    SubmittedHolders("run", 0);
  }

  /** Refused its evidence directory, a run succeeds with an incomplete result. */
  method LosesItsEvidence(p: Profile) returns (ok: bool, written: bool, result: Result)
    requires FromLabctl(p) && p.data.Some?
    ensures ok && written && !result.complete && result.missing == ["evidence"] && Valid(result)
  {
    ghost var course, cleaning;
    ok, written, result, course, cleaning := RunRefusing(p, Length(p) + 2);
    LosesOnlyTheEvidence(p, course);
    RefusedBefore(Length(p) + 2, CleanAt(OnlyRefusing(Length(p) + 2), course), cleaning);
  }

  lemma LosesOnlyTheEvidence(p: Profile, c: Course)
    requires p.data.Some? && c.start == 0 && Follows(OnlyRefusing(Length(p) + 2), p, true, c)
    ensures c.finished && c.snapped && !c.bundled && !BrokeHolding(c) && WriteAt(OnlyRefusing(Length(p) + 2), c) > Length(p) + 2
  {
    RefusedLater(p, Length(p) + 2, c);
    assert OnlyRefusing(Length(p) + 2).fate(BundleAt(OnlyRefusing(Length(p) + 2), c)) != Done;
  }

  /** Refused its final snapshot, a run succeeds with an incomplete result. */
  method LosesItsSnapshot(p: Profile) returns (ok: bool, written: bool, result: Result)
    requires FromLabctl(p) && p.data.Some?
    ensures ok && written && !result.complete && result.missing == ["final snapshot"] && Valid(result)
  {
    ghost var course, cleaning;
    ok, written, result, course, cleaning := RunRefusing(p, Length(p));
    LosesOnlyTheSnapshot(p, course);
    RefusedBefore(Length(p), CleanAt(OnlyRefusing(Length(p)), course), cleaning);
  }

  lemma LosesOnlyTheSnapshot(p: Profile, c: Course)
    requires FromLabctl(p) && p.data.Some? && c.start == 0 && Follows(OnlyRefusing(Length(p)), p, true, c)
    ensures c.finished && !c.snapped && c.bundled && !BrokeHolding(c) && WriteAt(OnlyRefusing(Length(p)), c) > Length(p)
  {
    RefusedLater(p, Length(p), c);
    assert OnlyRefusing(Length(p)).fate(SnapAt(c)) != Done;
  }
}
