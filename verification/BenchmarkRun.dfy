/** The benchmark as a process that may fail at any call: what it does on every path. */
module BenchmarkRun {
  import opened Wrappers
  import opened Topology
  import opened ClusterObjects
  import opened GpuCapacity
  import opened Results
  import opened LabCluster
  import opened Evidence
  import opened RunDocument

  const RESTARTED_AT := "infra.example.io/config-restarted-at"

  /** The names a run is still going to use, from this holder on, are free. */
  predicate NamesFree(c: Cluster, index: nat, run: string) {
    (forall j | index <= j < 3 :: HolderName(j, run) !in c.aijobs) && ProbeName(run) !in c.aijobs
  }

  lemma FadingKeepsNamesFree(before: Cluster, after: Cluster, index: nat, run: string)
    requires Fades(before, after) && NamesFree(before, index, run)
    ensures NamesFree(after, index, run)
  {
  }

  lemma HolderTakesItsName(before: Cluster, after: Cluster, index: nat, run: string)
    requires index < 3 && Grows(before, after, HolderName(index, run)) && NamesFree(before, index, run)
    ensures NamesFree(after, index + 1, run)
  {
    NamesDiffer(run);
  }

  lemma NamesDiffer(run: string)
    ensures HolderName(0, run) != HolderName(1, run) && HolderName(1, run) != HolderName(2, run)
    ensures HolderName(0, run) != HolderName(2, run)
    ensures forall j | 0 <= j < 3 :: ProbeName(run) != HolderName(j, run)
  {
    assert HolderName(0, run)[7] == '1' && HolderName(1, run)[7] == '2' && HolderName(2, run)[7] == '3';
    assert ProbeName(run)[0] == 'p' && HolderName(0, run)[0] == HolderName(1, run)[0] == HolderName(2, run)[0] == 'h';
  }

  /** The first holder is there, is this run's, and is not being deleted. */
  predicate Held(c: Cluster, run: string) {
    HolderName(0, run) in c.aijobs && c.aijobs[HolderName(0, run)] == run && HolderName(0, run) !in c.deleting
  }

  lemma RanOn(o: Oracle, from: nat, middle: nat, to: nat, ok: bool, before: bool, after: bool)
    requires Ran(o, from, middle, true, before) && Ran(o, middle, to, ok, after) && (before ==> after)
    ensures Ran(o, from, to, ok, before)
  {
  }

  // ---- the scheduler

  /** The annotations with a restart mark. */
  function Restarted(annotations: Option<Labels>, mark: string): Labels {
    (if annotations.Some? then annotations.value else map[])[RESTARTED_AT := mark]
  }

  /** The mark goes under its own key, and every other annotation stays. */
  lemma RestartedIs(annotations: Option<Labels>, mark: string, key: string)
    ensures var after := Restarted(annotations, mark);
      if key == "infra.example.io/config-restarted-at" then key in after && after[key] == mark
      else if annotations.Some? && key in annotations.value then key in after && after[key] == annotations.value[key]
      else key !in after
  {
  }

  /** The scheduler runs this profile's configuration, and its template bears the time of the switch. */
  predicate InForce(o: Oracle, p: Profile, start: nat, before: Cluster, after: Cluster)
    requires p.data.Some?
  {
    after.config == p.data.value && after.annotations == Some(Restarted(before.annotations, o.stamp(o.clock(start + 3))))
  }

  /** A further switch changes the template, and so restarts the scheduler, exactly when the clock has
      moved on since the last. */
  lemma SwitchRestartsIff(o: Oracle, p: Profile, q: Profile, first: nat, second: nat, c: Cluster, c1: Cluster, c2: Cluster)
    requires Sane(o) && p.data.Some? && q.data.Some?
    requires InForce(o, p, first, c, c1) && InForce(o, q, second, c1, c2)
    ensures c2.annotations != c1.annotations <==> o.clock(first + 3) != o.clock(second + 3)
  {
    var was, now := o.stamp(o.clock(first + 3)), o.stamp(o.clock(second + 3));
    assert c1.annotations.value[RESTARTED_AT] == was && c2.annotations.value[RESTARTED_AT] == now;
    if was == now {
      assert c2.annotations.value == c1.annotations.value;
    }
  }

  /** Three nodes of four GPUs, and quota for ten, whenever the cluster is asked. */
  ghost predicate Furnished(o: Oracle) {
    forall k: nat :: |o.nodes(k)| == 3 && o.quota(k) >= 10 && forall n :: n in o.nodes(k) ==> n.allocatable == 4
  }

  // ---- the run

  /** The log of evidence and result. */
  function RecordLog(run: string, written: bool): seq<Event> {
    [EvidenceStarted(run)] + if written then [ResultWritten(run)] else []
  }

  class Runner {
    const lab: Lab
    const attempts: nat

    constructor (lab: Lab, attempts: nat)
      ensures this.lab == lab && this.attempts == attempts
    {
      this.lab, this.attempts := lab, attempts;
    }

    /** Replaces the scheduler's configuration. */
    method Configure(data: Labels) returns (ok: bool)
      requires lab.Valid()
      modifies lab
      ensures lab.Valid() && lab.results == old(lab.results) && lab.events == old(lab.events)
      ensures Fades(old(lab.cluster), lab.cluster) && lab.cluster.annotations == old(lab.cluster.annotations)
      ensures Ran(lab.oracle, old(lab.calls), lab.calls, ok, true) && lab.calls <= old(lab.calls) + 2
      ensures ok ==> lab.calls == old(lab.calls) + 2 && lab.cluster.config == data
    {
      ok := lab.Try();
      if !ok {
        return;
      }
      label updating:
      ok := lab.UpdateConfig(data);
      FadesCompose(old(lab.cluster), old@updating(lab.cluster), lab.cluster);
    }

    /** Gives the scheduler's template other annotations and waits for the rollout. */
    method Annotate(annotations: Option<Labels>) returns (ok: bool)
      requires lab.Valid()
      modifies lab
      ensures lab.Valid() && lab.results == old(lab.results) && lab.events == old(lab.events)
      ensures Fades(old(lab.cluster), lab.cluster) && lab.cluster.config == old(lab.cluster.config)
      ensures Ran(lab.oracle, old(lab.calls), lab.calls, ok, true) && lab.calls <= old(lab.calls) + 2
      ensures ok ==> lab.calls == old(lab.calls) + 2 && lab.cluster.annotations == annotations
    {
      ok := lab.UpdateAnnotations(annotations);
      if !ok {
        return;
      }
      label waiting:
      ok := lab.Try();
      FadesCompose(old(lab.cluster), old@waiting(lab.cluster), lab.cluster);
    }

    method SwitchProfile(p: Profile) returns (ok: bool)
      requires lab.Valid()
      modifies lab
      ensures lab.Valid() && lab.results == old(lab.results) && lab.events == old(lab.events)
      ensures Fades(old(lab.cluster), lab.cluster)
      ensures p.data.None? ==> !ok && lab.calls == old(lab.calls)
      ensures p.data.Some? ==> Ran(lab.oracle, old(lab.calls), lab.calls, ok, true) && lab.calls <= old(lab.calls) + HOLDING
      ensures ok ==> lab.calls == old(lab.calls) + HOLDING
      ensures ok ==> InForce(lab.oracle, p, old(lab.calls), old(lab.cluster), lab.cluster)
    {
      if p.data.None? {
        return false;
      }
      ok := Configure(p.data.value);
      if !ok {
        return;
      }
      label reading:
      ok := lab.Try();
      FadesCompose(old(lab.cluster), old@reading(lab.cluster), lab.cluster);
      if !ok {
        return;
      }
      var now := lab.Now();
      label annotating:
      ok := Annotate(Some(Restarted(lab.cluster.annotations, lab.oracle.stamp(now))));
      FadesCompose(old(lab.cluster), old@annotating(lab.cluster), lab.cluster);
    }

    method CaptureScheduler() returns (ok: bool, data: Labels, annotations: Option<Labels>)
      requires lab.Valid()
      modifies lab
      ensures lab.OnlyRead()
      ensures data == old(lab.cluster.config) && annotations == old(lab.cluster.annotations)
      ensures Ran(lab.oracle, old(lab.calls), lab.calls, ok, true) && lab.calls <= old(lab.calls) + 2
      ensures ok ==> lab.calls == old(lab.calls) + 2
    {
      ok := lab.Try();
      data, annotations := lab.cluster.config, lab.cluster.annotations;
      if !ok {
        return;
      }
      ok := lab.Try();
    }

    /** When it succeeds, the scheduler's configuration is the one given. */
    method Restore(data: Labels, annotations: Option<Labels>) returns (ok: bool)
      requires lab.Valid()
      modifies lab
      ensures lab.Valid() && lab.results == old(lab.results)
      ensures lab.events == old(lab.events) + [RestoreStarted]
      ensures Fades(old(lab.cluster), lab.cluster)
      ensures ok ==> lab.cluster.config == data && lab.cluster.annotations == annotations
      ensures Ran(lab.oracle, old(lab.calls), lab.calls, ok, true) && lab.calls <= old(lab.calls) + 5
      ensures ok ==> lab.calls == old(lab.calls) + 5
    {
      lab.Note(RestoreStarted);
      ok := Configure(data);
      if !ok {
        return;
      }
      label reading:
      ok := lab.Try();
      FadesCompose(old(lab.cluster), old@reading(lab.cluster), lab.cluster);
      if !ok {
        return;
      }
      label annotating:
      ok := Annotate(annotations);
      FadesCompose(old(lab.cluster), old@annotating(lab.cluster), lab.cluster);
    }

    /** Each holder is recorded before it is created, and waited for before the next. */
    method SubmitHolders(run: string) returns (workloads: seq<Definition>, ok: bool)
      requires lab.Valid()
      modifies lab
      ensures lab.Valid() && lab.results == old(lab.results) && lab.events == old(lab.events)
      ensures OnlyRun(old(lab.cluster), lab.cluster, run) && SameScheduler(old(lab.cluster), lab.cluster)
      ensures Ran(lab.oracle, old(lab.calls), lab.calls, ok, NamesFree(old(lab.cluster), 0, run))
      ensures lab.calls <= old(lab.calls) + 6 && (ok ==> lab.calls == old(lab.calls) + 6)
      ensures workloads == Submitted(run, HOLDING + (lab.calls - old(lab.calls)))
      ensures ok ==> Held(lab.cluster, run) && (NamesFree(old(lab.cluster), 0, run) ==> NamesFree(lab.cluster, 3, run))
    {
      workloads := [];
      OwnByNobody(lab.cluster, run);
      for index := 0 to 3
        invariant lab.Valid() && lab.results == old(lab.results) && lab.events == old(lab.events)
        invariant OnlyRun(old(lab.cluster), lab.cluster, run) && SameScheduler(old(lab.cluster), lab.cluster)
        invariant lab.calls == old(lab.calls) + 2 * index && Answered(lab.oracle, old(lab.calls), lab.calls)
        invariant workloads == Holders(index, run)
        invariant index > 0 ==> Held(lab.cluster, run)
        invariant NamesFree(old(lab.cluster), 0, run) ==> NamesFree(lab.cluster, index, run)
      {
        SubmittedHolders(run, index);
        label submitting:
        workloads := workloads + [Definition(HolderName(index, run), 1, 2)];
        ok := SubmitHolder(index, run);
        OnlyRunComposes(old(lab.cluster), old@submitting(lab.cluster), lab.cluster, run);
        RanOn(lab.oracle, old(lab.calls), old@submitting(lab.calls), lab.calls, ok, NamesFree(old(lab.cluster), 0, run),
              NamesFree(old@submitting(lab.cluster), index, run));
        if !ok {
          return;
        }
      }
      ok := true;
    }

    /** Creates one holder and waits until it is placed. */
    method SubmitHolder(index: nat, run: string) returns (ok: bool)
      requires lab.Valid() && index < 3 && (index > 0 ==> Held(lab.cluster, run))
      modifies lab
      ensures lab.Valid() && lab.results == old(lab.results) && lab.events == old(lab.events)
      ensures OnlyRun(old(lab.cluster), lab.cluster, run) && SameScheduler(old(lab.cluster), lab.cluster)
      ensures Ran(lab.oracle, old(lab.calls), lab.calls, ok, NamesFree(old(lab.cluster), index, run))
      ensures lab.calls <= old(lab.calls) + 2 && (ok ==> lab.calls == old(lab.calls) + 2)
      ensures ok ==> Held(lab.cluster, run)
      ensures ok && NamesFree(old(lab.cluster), index, run) ==> NamesFree(lab.cluster, index + 1, run)
    {
      ok := lab.CreateAIJob(HolderName(index, run), run);
      if NamesFree(old(lab.cluster), index, run) {
        HolderTakesItsName(old(lab.cluster), lab.cluster, index, run);
      }
      if !ok {
        return;
      }
      label waiting:
      ok := lab.Try();
      FadingIsOnlyRun(old@waiting(lab.cluster), lab.cluster, run);
      OnlyRunComposes(old(lab.cluster), old@waiting(lab.cluster), lab.cluster, run);
      if NamesFree(old@waiting(lab.cluster), index + 1, run) {
        FadingKeepsNamesFree(old@waiting(lab.cluster), lab.cluster, index + 1, run);
      }
    }

    /** Measures what the holders left. */
    method Measure(run: string) returns (f: Fragmentation, ok: bool)
      requires lab.Valid()
      modifies lab
      ensures lab.OnlyRead() && lab.calls == old(lab.calls) + 1 && (ok <==> lab.oracle.fate(old(lab.calls)) == Done)
      ensures if ok then Snapshotted(lab.oracle, old(lab.calls), f) else f == NO_FRAGMENTATION
    {
      f := NO_FRAGMENTATION;
      var found;
      ok, found := lab.Discover(run);
      if ok {
        var free := FreeGPUs(found.nodes, found.pods);
        f := CalculateFragmentation(free, TARGET_GPUS, "all-simulated-gpu-nodes");
      }
    }

    /** Measures what the holders left, then submits the probe. */
    method MeasureAndProbe(run: string, ghost start: nat, holders: seq<Definition>)
      returns (workloads: seq<Definition>, f: Fragmentation, ok: bool)
      requires lab.Valid() && lab.calls == start + SNAPSHOT && holders == Holders(3, run)
      modifies lab
      ensures lab.Valid() && lab.results == old(lab.results) && lab.events == old(lab.events)
      ensures OnlyRun(old(lab.cluster), lab.cluster, run) && SameScheduler(old(lab.cluster), lab.cluster)
      ensures Ran(lab.oracle, old(lab.calls), lab.calls, ok, ProbeName(run) !in old(lab.cluster.aijobs))
      ensures start + SNAPSHOT < lab.calls <= start + WATCHING && (ok ==> lab.calls == start + WATCHING)
      ensures workloads == Submitted(run, lab.calls - start) && Measured(lab.oracle, start, lab.calls - start, f)
      ensures Held(old(lab.cluster), run) ==> Held(lab.cluster, run)
    {
      workloads := holders;
      f, ok := Measure(run);
      FadingIsOnlyRun(old(lab.cluster), lab.cluster, run);
      if !ok {
        return;
      }
      workloads := workloads + [Definition(ProbeName(run), 1, 4)];
      label submitting:
      ok := lab.CreateAIJob(ProbeName(run), run);
      OnlyRunComposes(old(lab.cluster), old@submitting(lab.cluster), lab.cluster, run);
    }

    /** Fills the nodes by halves, measures, and submits the probe. */
    method SubmitWorkloads(run: string, ghost start: nat) returns (workloads: seq<Definition>, f: Fragmentation, ok: bool)
      requires lab.Valid() && lab.calls == start + HOLDING
      modifies lab
      ensures lab.Valid() && lab.results == old(lab.results) && lab.events == old(lab.events)
      ensures OnlyRun(old(lab.cluster), lab.cluster, run) && SameScheduler(old(lab.cluster), lab.cluster)
      ensures Ran(lab.oracle, old(lab.calls), lab.calls, ok, NamesFree(old(lab.cluster), 0, run))
      ensures start + HOLDING < lab.calls <= start + WATCHING && (ok ==> lab.calls == start + WATCHING)
      ensures workloads == Submitted(run, lab.calls - start) && Measured(lab.oracle, start, lab.calls - start, f)
      ensures ok ==> Held(lab.cluster, run)
    {
      f := NO_FRAGMENTATION;
      workloads, ok := SubmitHolders(run);
      if !ok {
        return;
      }
      label probing:
      workloads, f, ok := MeasureAndProbe(run, start, workloads);
      OnlyRunComposes(old(lab.cluster), old@probing(lab.cluster), lab.cluster, run);
      RanOn(lab.oracle, old(lab.calls), old@probing(lab.calls), lab.calls, ok, NamesFree(old(lab.cluster), 0, run),
            ProbeName(run) !in old@probing(lab.cluster.aijobs));
    }

    /** The probe is expected to fit. */
    method AwaitProbe(run: string) returns (outcomes: map<string, string>, ok: bool)
      requires lab.Valid()
      modifies lab
      ensures lab.OnlyRead() && Ran(lab.oracle, old(lab.calls), lab.calls, ok, true)
      ensures lab.calls <= old(lab.calls) + 2 && (ok ==> lab.calls == old(lab.calls) + 2)
      ensures outcomes == if ok then map[ProbeName(run) := "completed"] else map[]
    {
      outcomes := map[];
      ok := lab.Try();
      if !ok {
        return;
      }
      ok := lab.Try();
      if !ok {
        return;
      }
      outcomes := outcomes[ProbeName(run) := "completed"];
    }

    /** Sees that the probe does not fit and releases the first holder. The only deletion is that of
        the holder, which carries this run's ID. */
    method Release(run: string, ghost start: nat, holder: string)
      returns (recovery: Recovery, ok: bool, ghost released: seq<Event>)
      requires lab.Valid() && lab.calls == start + WATCHING && holder == HolderName(0, run) && Held(lab.cluster, run)
      modifies lab
      ensures lab.Valid() && lab.results == old(lab.results)
      ensures released in {[], [Deleted(HolderName(0, run), run)]} && lab.events == old(lab.events) + released
      ensures OnlyRun(old(lab.cluster), lab.cluster, run) && SameScheduler(old(lab.cluster), lab.cluster)
      ensures Ran(lab.oracle, old(lab.calls), lab.calls, ok, true)
      ensures lab.calls <= start + WATCHING + 2 && (ok ==> lab.calls == start + WATCHING + 2)
      ensures ok ==> released != [] && recovery == Released(lab.oracle, run, start)
      ensures !ok ==> recovery == if lab.calls == start + WATCHING + 1 then NO_RECOVERY else Asked(run)
    {
      recovery, released := NO_RECOVERY, [];
      ok := lab.Try();
      FadingIsOnlyRun(old(lab.cluster), lab.cluster, run);
      if !ok {
        return;
      }
      recovery := recovery.(attempted := true, initiallyUnschedulable := true);
      recovery := recovery.(releasedWorkload := holder);
      var releasedAt := lab.Now();
      label releasing:
      var reply := lab.DeleteAIJob(holder, run);
      released := if lab.events == old(lab.events) then [] else [Deleted(holder, run)];
      FadingIsOnlyRun(old(lab.cluster), old@releasing(lab.cluster), run);
      OnlyRunComposes(old(lab.cluster), old@releasing(lab.cluster), lab.cluster, run);
      ok := reply == Removed;
      if !ok {
        return;
      }
      recovery := recovery.(releasedAt := Some(releasedAt));
    }

    /** Sees the probe scheduled and completed once there is room. */
    method Recover(p: Profile, run: string, ghost start: nat, before: Recovery) returns (recovery: Recovery, ok: bool)
      requires lab.Valid() && lab.calls == start + WATCHING + 2 && !p.probeShouldFit
      requires before == Released(lab.oracle, run, start)
      modifies lab
      ensures lab.OnlyRead() && Ran(lab.oracle, old(lab.calls), lab.calls, ok, true)
      ensures lab.calls <= start + Length(p) && (ok ==> lab.calls == start + Length(p))
      ensures recovery == RecoveryAfter(lab.oracle, p, run, start, lab.calls - start, ok)
    {
      recovery := before;
      ok := lab.Try();
      if !ok {
        return;
      }
      var recoveredAt := lab.Now();
      recovery := recovery.(recoveredAt := Some(recoveredAt), latency := Some(recoveredAt - recovery.releasedAt.value));
      ok := lab.Try();
      if !ok {
        return;
      }
      recovery := recovery.(recovered := true);
    }

    /** The probe is expected not to fit until the first holder is released. */
    method ReleaseAndRecover(p: Profile, run: string, ghost start: nat, holder: string)
      returns (outcomes: map<string, string>, recovery: Recovery, ok: bool, ghost released: seq<Event>)
      requires lab.Valid() && lab.calls == start + WATCHING && !p.probeShouldFit
      requires holder == HolderName(0, run) && Held(lab.cluster, run)
      modifies lab
      ensures lab.Valid() && lab.results == old(lab.results)
      ensures released in {[], [Deleted(HolderName(0, run), run)]} && lab.events == old(lab.events) + released
      ensures OnlyRun(old(lab.cluster), lab.cluster, run) && SameScheduler(old(lab.cluster), lab.cluster)
      ensures Ran(lab.oracle, old(lab.calls), lab.calls, ok, true)
      ensures lab.calls <= start + Length(p) && (ok ==> lab.calls == start + Length(p))
      ensures outcomes == OutcomesAfter(p, run, lab.calls - start, ok)
      ensures recovery == RecoveryAfter(lab.oracle, p, run, start, lab.calls - start, ok)
    {
      outcomes := map[];
      recovery, ok, released := Release(run, start, holder);
      if !ok {
        return;
      }
      outcomes := outcomes[holder := "released"];
      label recovering:
      recovery, ok := Recover(p, run, start, recovery);
      FadingIsOnlyRun(old@recovering(lab.cluster), lab.cluster, run);
      OnlyRunComposes(old(lab.cluster), old@recovering(lab.cluster), lab.cluster, run);
      RanOn(lab.oracle, old(lab.calls), old@recovering(lab.calls), lab.calls, ok, true, true);
      if ok {
        outcomes := outcomes[ProbeName(run) := "completed-after-release"];
      }
    }

    /** Waits for the probe in the way the profile expects. */
    method SeeProbeThrough(p: Profile, run: string, ghost start: nat, workloads: seq<Definition>)
      returns (outcomes: map<string, string>, recovery: Recovery, ok: bool, ghost released: seq<Event>)
      requires lab.Valid() && lab.calls == start + WATCHING
      requires workloads == Workloads(run) && Held(lab.cluster, run)
      modifies lab
      ensures lab.Valid() && lab.results == old(lab.results)
      ensures released in {[], [Deleted(HolderName(0, run), run)]} && lab.events == old(lab.events) + released
      ensures OnlyRun(old(lab.cluster), lab.cluster, run) && SameScheduler(old(lab.cluster), lab.cluster)
      ensures Ran(lab.oracle, old(lab.calls), lab.calls, ok, true)
      ensures lab.calls <= start + Length(p) && (ok ==> lab.calls == start + Length(p))
      ensures outcomes == OutcomesAfter(p, run, lab.calls - start, ok)
      ensures recovery == RecoveryAfter(lab.oracle, p, run, start, lab.calls - start, ok)
    {
      if p.probeShouldFit {
        recovery, released := NO_RECOVERY, [];
        outcomes, ok := AwaitProbe(run);
        FadingIsOnlyRun(old(lab.cluster), lab.cluster, run);
      } else {
        outcomes, recovery, ok, released := ReleaseAndRecover(p, run, start, workloads[0].name);
      }
    }

    /** Sees the probe through and, if that goes well, takes the time since the start. */
    method TimeProbe(p: Profile, run: string, ghost start: nat, began: int, workloads: seq<Definition>)
      returns (outcomes: map<string, string>, recovery: Recovery, makespan: Option<int>, ok: bool, ghost released: seq<Event>)
      requires lab.Valid() && lab.calls == start + WATCHING && began == lab.oracle.clock(start + HOLDING)
      requires workloads == Workloads(run) && Held(lab.cluster, run)
      modifies lab
      ensures lab.Valid() && lab.results == old(lab.results)
      ensures released in {[], [Deleted(HolderName(0, run), run)]} && lab.events == old(lab.events) + released
      ensures OnlyRun(old(lab.cluster), lab.cluster, run) && SameScheduler(old(lab.cluster), lab.cluster)
      ensures Ran(lab.oracle, old(lab.calls), lab.calls, ok, true)
      ensures lab.calls <= start + Length(p) && (ok ==> lab.calls == start + Length(p))
      ensures outcomes == OutcomesAfter(p, run, lab.calls - start, ok)
      ensures recovery == RecoveryAfter(lab.oracle, p, run, start, lab.calls - start, ok)
      ensures makespan == MakespanAfter(lab.oracle, start, lab.calls - start, ok)
    {
      makespan := None;
      outcomes, recovery, ok, released := SeeProbeThrough(p, run, start, workloads);
      if ok {
        var ended := lab.Now();
        makespan := Some(ended - began);
      }
    }

    /** Submits the workloads, sees the probe through and takes the time. */
    method Perform(p: Profile, run: string, ghost start: nat)
      returns (workloads: seq<Definition>, f: Fragmentation, outcomes: map<string, string>, recovery: Recovery,
               makespan: Option<int>, ok: bool, ghost released: seq<Event>)
      requires lab.Valid() && lab.calls == start + HOLDING
      modifies lab
      ensures lab.Valid() && lab.results == old(lab.results)
      ensures released in {[], [Deleted(HolderName(0, run), run)]} && lab.events == old(lab.events) + released
      ensures OnlyRun(old(lab.cluster), lab.cluster, run) && SameScheduler(old(lab.cluster), lab.cluster)
      ensures Ran(lab.oracle, old(lab.calls), lab.calls, ok, NamesFree(old(lab.cluster), 0, run))
      ensures start + HOLDING < lab.calls <= start + Length(p) && (ok ==> lab.calls == start + Length(p))
      ensures workloads == Submitted(run, lab.calls - start) && Measured(lab.oracle, start, lab.calls - start, f)
      ensures outcomes == OutcomesAfter(p, run, lab.calls - start, ok)
      ensures recovery == RecoveryAfter(lab.oracle, p, run, start, lab.calls - start, ok)
      ensures makespan == MakespanAfter(lab.oracle, start, lab.calls - start, ok)
    {
      released := [];
      var began := lab.Now();
      workloads, f, ok := SubmitWorkloads(run, start);
      outcomes, recovery, makespan := map[], NO_RECOVERY, None;
      if !ok {
        NothingSeen(lab.oracle, p, run, start, lab.calls - start);
        return;
      }
      label watching:
      outcomes, recovery, makespan, ok, released := TimeProbe(p, run, start, began, workloads);
      OnlyRunComposes(old(lab.cluster), old@watching(lab.cluster), lab.cluster, run);
      RanOn(lab.oracle, old(lab.calls), old@watching(lab.calls), lab.calls, ok, NamesFree(old(lab.cluster), 0, run), true);
    }

    /** Performs the experiment and fills in the document, as far as it gets. */
    method Experiment(p: Profile, run: string, ghost start: nat, before: Result)
      returns (r: Result, ok: bool, ghost released: seq<Event>)
      requires lab.Valid() && lab.calls == start + HOLDING
      modifies lab
      ensures lab.Valid() && lab.results == old(lab.results)
      ensures released in {[], [Deleted(HolderName(0, run), run)]} && lab.events == old(lab.events) + released
      ensures OnlyRun(old(lab.cluster), lab.cluster, run) && SameScheduler(old(lab.cluster), lab.cluster)
      ensures Ran(lab.oracle, old(lab.calls), lab.calls, ok, NamesFree(old(lab.cluster), 0, run))
      ensures start + HOLDING < lab.calls <= start + Length(p) && (ok ==> lab.calls == start + Length(p))
      ensures Measured(lab.oracle, start, lab.calls - start, r.fragmentation)
      ensures r == Experimented(before, lab.oracle, p, run, start, lab.calls - start, ok, r.fragmentation)
    {
      var workloads, f, outcomes, recovery, makespan;
      workloads, f, outcomes, recovery, makespan, ok, released := Perform(p, run, start);
      r := Filled(before, workloads, f, outcomes, recovery, makespan);
    }

    /** The body of a run, up to its first error. */
    method Scenario(p: Profile, run: string, capacity: Capacity) returns (r: Result, ok: bool, ghost released: seq<Event>)
      requires lab.Valid()
      modifies lab
      ensures lab.Valid() && lab.calls >= old(lab.calls) && lab.results == old(lab.results)
      ensures released in {[], [Deleted(HolderName(0, run), run)]} && lab.events == old(lab.events) + released
      ensures OnlyRun(old(lab.cluster), lab.cluster, run)
      ensures Stopped(lab.oracle, p, NamesFree(old(lab.cluster), 0, run), old(lab.calls), lab.calls - old(lab.calls), ok)
      ensures Drafts(lab.oracle, p, run, capacity, old(lab.calls), lab.calls - old(lab.calls), ok, r)
      ensures ok ==> InForce(lab.oracle, p, old(lab.calls), old(lab.cluster), lab.cluster)
    {
      var timestamp := lab.Now();
      r := Blank(p, run, timestamp, capacity);
      released := [];
      ok := SwitchProfile(p);
      FadingIsOnlyRun(old(lab.cluster), lab.cluster, run);
      if !ok {
        NothingYet(lab.oracle, p, run, capacity, old(lab.calls), lab.calls - old(lab.calls));
        return;
      }
      if NamesFree(old(lab.cluster), 0, run) {
        FadingKeepsNamesFree(old(lab.cluster), lab.cluster, 0, run);
      }
      label experimenting:
      r, ok, released := Experiment(p, run, old(lab.calls), r);
      OnlyRunComposes(old(lab.cluster), old@experimenting(lab.cluster), lab.cluster, run);
      RanOn(lab.oracle, old(lab.calls), old@experimenting(lab.calls), lab.calls, ok, NamesFree(old(lab.cluster), 0, run),
            NamesFree(old@experimenting(lab.cluster), 0, run));
    }

    /** Adds what the final snapshot shows; workloads without an outcome are still running. */
    method CollectResult(before: Result) returns (r: Result, ok: bool)
      requires lab.Valid()
      modifies lab
      ensures lab.OnlyRead() && (ok <==> Answered(lab.oracle, old(lab.calls), old(lab.calls) + 2))
      ensures lab.calls == old(lab.calls) + if lab.oracle.fate(old(lab.calls)) == Done then 2 else 1
      ensures r == Snapped(before, ok)
    {
      r := before;
      var found;
      ok, found := lab.Discover(before.runId);
      if !ok {
        return;
      }
      ok := lab.Try();
      if !ok {
        return;
      }
      var outcomes := FillOutcomes(r.outcomes, r.workloads);
      r := r.(outcomes := outcomes);
    }

    method FillOutcomes(before: map<string, string>, workloads: seq<Definition>) returns (outcomes: map<string, string>)
      ensures outcomes == WithRunning(before, workloads)
    {
      outcomes := before;
      assert workloads[..0] == [];
      for k := 0 to |workloads|
        invariant outcomes == WithRunning(before, workloads[..k])
      {
        RunningOneMore(before, workloads, k);
        if workloads[k].name !in outcomes {
          outcomes := outcomes[workloads[k].name := "running"];
        }
      }
      assert workloads[..|workloads|] == workloads;
    }

    /** Deletes every AIJob of the run that is listed, whatever becomes of each deletion. */
    method DeleteAll(run: string, names: set<string>) returns (ok: bool, ghost deletions: seq<Event>)
      requires lab.Valid() && names == OfRun(lab.cluster, run)
      modifies lab
      ensures lab.Valid() && lab.results == old(lab.results) && SameScheduler(old(lab.cluster), lab.cluster)
      ensures OnlyRun(old(lab.cluster), lab.cluster, run) && OfRun(lab.cluster, run) <= names
      ensures lab.events == old(lab.events) + deletions
      ensures forall e :: e in deletions ==> e.Deleted? && e.run == run
      ensures lab.calls == old(lab.calls) + |names|
      ensures ok <==> Answered(lab.oracle, old(lab.calls), lab.calls)
      ensures ok ==> OfRun(lab.cluster, run) <= lab.cluster.deleting
    {
      OwnByNobody(lab.cluster, run);
      ok, deletions := true, [];
      var todo := names;
      while todo != {}
        invariant lab.Valid() && lab.results == old(lab.results) && SameScheduler(old(lab.cluster), lab.cluster)
        invariant OnlyRun(old(lab.cluster), lab.cluster, run)
        invariant todo <= names && |todo| <= |names| && lab.calls == old(lab.calls) + |names| - |todo|
        invariant ok <==> Answered(lab.oracle, old(lab.calls), lab.calls)
        invariant forall n :: n in lab.cluster.aijobs ==> (n in names <==> lab.cluster.aijobs[n] == run)
        invariant ok ==> forall n :: n in names - todo && n in lab.cluster.aijobs ==> n in lab.cluster.deleting
        invariant lab.events == old(lab.events) + deletions
        invariant forall e :: e in deletions ==> e.Deleted? && e.run == run
        decreases todo
      {
        var name :| name in todo;
        todo := todo - {name};
        label deleting:
        var reply := lab.DeleteAIJob(name, run);
        OnlyRunComposes(old(lab.cluster), old@deleting(lab.cluster), lab.cluster, run);
        deletions := deletions + lab.events[|old@deleting(lab.events)|..];
        AnsweredLast(lab.oracle, old(lab.calls), old@deleting(lab.calls));
        if reply == Unanswered {
          ok := false;
        }
      }
    }

    /** Whether the five lists of a snapshot are empty. */
    method Poll(run: string) returns (answered: bool, empty: bool)
      requires lab.Valid()
      modifies lab
      ensures lab.OnlyRead() && lab.calls == old(lab.calls) + 1 && (answered <==> lab.oracle.fate(old(lab.calls)) == Done)
      ensures lab.cluster == Faded(lab.oracle, old(lab.cluster), old(lab.calls))
      ensures empty <==> OfRun(lab.cluster, run) == {} && NoDescendants(lab.oracle, old(lab.calls))
    {
      var found;
      answered, found := lab.Discover(run);
      FiveListsEmptyIff(lab.oracle, lab.cluster, run, old(lab.calls));
      empty := |found.aijobs| == 0 && |found.jobSets| == 0 && |found.workloads| == 0 && |found.jobs| == 0 && |found.pods| == 0;
    }

    /** Polls until nothing of the run is left, as often as allowed. */
    method AwaitNothing(run: string) returns (ok: bool)
      requires lab.Valid() && OfRun(lab.cluster, run) <= lab.cluster.deleting
      modifies lab
      ensures lab.Valid() && lab.results == old(lab.results) && lab.events == old(lab.events)
      ensures Fades(old(lab.cluster), lab.cluster) && SameScheduler(old(lab.cluster), lab.cluster)
      ensures ok <==> Awaits(lab.oracle, old(lab.calls), OfRun(old(lab.cluster), run), attempts)
      ensures ok ==> OfRun(lab.cluster, run) == {}
    {
      ghost var left, from := OfRun(lab.cluster, run), lab.calls;
      for k := 0 to attempts
        invariant lab.Valid() && lab.results == old(lab.results) && lab.events == old(lab.events)
        invariant Fades(old(lab.cluster), lab.cluster) && SameScheduler(old(lab.cluster), lab.cluster)
        invariant lab.calls == from + k && Answered(lab.oracle, from, lab.calls)
        invariant OfRun(lab.cluster, run) <= lab.cluster.deleting
        invariant Remaining(lab.oracle, left, from, lab.calls) == OfRun(lab.cluster, run)
        invariant forall j | from <= j < from + k :: !Emptied(lab.oracle, left, from, j)
      {
        RemainingOneMore(lab.oracle, left, from, lab.cluster, run, lab.calls);
        label polling:
        var answered, empty := Poll(run);
        if !answered {
          return false;
        }
        if empty {
          return true;
        }
      }
      ok := false;
    }

    /** Deletes what is left of the run and waits until nothing of it is left. */
    method Cleanup(run: string) returns (ok: bool, ghost c: Cleaning, ghost deletions: seq<Event>)
      requires lab.Valid()
      modifies lab
      ensures lab.Valid() && lab.results == old(lab.results) && SameScheduler(old(lab.cluster), lab.cluster)
      ensures OnlyRun(old(lab.cluster), lab.cluster, run)
      ensures lab.events == old(lab.events) + [CleanupStarted(run)] + deletions
      ensures forall e :: e in deletions ==> e.Deleted? && e.run == run
      ensures c.left <= OfRun(old(lab.cluster), run) && c.listed <= |OfRun(old(lab.cluster), run)|
      ensures c.ok == ok && (ok <==> Cleans(lab.oracle, old(lab.calls), c, attempts))
      ensures ok ==> NoneLeft(lab.cluster, [run])
    {
      lab.Note(CleanupStarted(run));
      c, deletions := Cleaning(0, {}, false), [];
      var answered, names := lab.ListAIJobs(run);
      FadingIsOnlyRun(old(lab.cluster), lab.cluster, run);
      FadingListsFewer(old(lab.cluster), lab.cluster, run);
      ok := false;
      if answered {
        label deleting:
        ok, deletions := DeleteAll(run, names);
        OnlyRunComposes(old(lab.cluster), old@deleting(lab.cluster), lab.cluster, run);
        c := Cleaning(|names|, OfRun(lab.cluster, run), ok);
        FirstAnswered(lab.oracle, old(lab.calls), lab.calls);
        if ok {
          label waiting:
          ok := AwaitNothing(run);
          c := c.(ok := ok);
          FadingIsOnlyRun(old@waiting(lab.cluster), lab.cluster, run);
          OnlyRunComposes(old(lab.cluster), old@waiting(lab.cluster), lab.cluster, run);
        }
      }
      if ok {
        NothingOfRun(lab.cluster, run);
      }
    }

    /** Takes the final snapshot and collects the evidence. */
    method Gather(p: Profile, capacity: Capacity, run: string, finished: bool, ghost start: nat, before: Result)
      returns (shown: Result, snapped: bool, bundled: bool, ghost c: Course)
      requires lab.Valid() && start <= lab.calls && (finished ==> lab.calls == start + Length(p))
      requires Drafts(lab.oracle, p, run, capacity, start, lab.calls - start, finished, before)
      modifies lab
      ensures lab.Valid() && lab.results == old(lab.results) && lab.events == old(lab.events) + [EvidenceStarted(run)]
      ensures Fades(old(lab.cluster), lab.cluster) && SameScheduler(old(lab.cluster), lab.cluster)
      ensures c == Course(start, old(lab.calls) - start, finished, snapped, bundled)
      ensures Concludes(lab.oracle, p, c) && lab.calls == WriteAt(lab.oracle, c)
      ensures shown == Snapped(before, snapped)
    {
      shown, snapped := CollectResult(before);
      ghost var from, at, met := old(lab.calls), lab.calls, AllObserved(Expected(shown.profile), Observed(shown));
      label collecting:
      var manifest;
      bundled, manifest := Collect(lab, run, Expected(shown.profile), Observed(shown));
      FadesCompose(old(lab.cluster), old@collecting(lab.cluster), lab.cluster);
      c := Course(start, from - start, finished, snapped, bundled);
      ShownMeets(lab.oracle, p, run, capacity, start, from - start, finished, before, snapped);
      ConcludesSo(lab.oracle, p, start, from, finished, snapped, bundled, at, met);
    }

    /** Completes the document: the final snapshot, the evidence, and whether anything is missing. */
    method Conclude(p: Profile, capacity: Capacity, run: string, finished: bool, ghost start: nat, before: Result)
      returns (r: Result, ghost c: Course)
      requires lab.Valid() && start <= lab.calls && (finished ==> lab.calls == start + Length(p))
      requires Drafts(lab.oracle, p, run, capacity, start, lab.calls - start, finished, before)
      modifies lab
      ensures lab.Valid() && lab.results == old(lab.results) && lab.events == old(lab.events) + [EvidenceStarted(run)]
      ensures Fades(old(lab.cluster), lab.cluster) && SameScheduler(old(lab.cluster), lab.cluster)
      ensures c.start == start && c.made == old(lab.calls) - start && c.finished == finished
      ensures Concludes(lab.oracle, p, c) && lab.calls == WriteAt(lab.oracle, c)
      ensures Writes(lab.oracle, p, run, capacity, c, r) && r.runId == run
    {
      var shown, snapped, bundled;
      shown, snapped, bundled, c := Gather(p, capacity, run, finished, start, before);
      var missing := MissingParts(finished, snapped, bundled);
      r := Completed(shown, run, finished, missing);
      DraftBecomesFinal(lab.oracle, p, run, capacity, c, before, r);
    }

    method MissingParts(finished: bool, snapped: bool, bundled: bool) returns (missing: seq<string>)
      ensures missing == PartsMissing(finished, snapped, bundled)
    {
      missing := [];
      if !finished {
        missing := missing + ["run"];
      }
      if !snapped {
        missing := missing + ["final snapshot"];
      }
      if !bundled {
        missing := missing + ["evidence"];
      }
    }

    /** Completes the document and writes it. */
    method Record(p: Profile, repetition: nat, capacity: Capacity, run: string, finished: bool, ghost start: nat, before: Result)
      returns (written: bool, r: Result, ghost c: Course)
      requires lab.Valid() && start <= lab.calls && (finished ==> lab.calls == start + Length(p))
      requires Drafts(lab.oracle, p, run, capacity, start, lab.calls - start, finished, before)
      modifies lab
      ensures lab.Valid() && lab.events == old(lab.events) + RecordLog(run, written)
      ensures lab.results == old(lab.results) + if written then [Written(p.name, repetition, r)] else []
      ensures Fades(old(lab.cluster), lab.cluster) && SameScheduler(old(lab.cluster), lab.cluster)
      ensures c.start == start && c.made == old(lab.calls) - start && c.finished == finished && Concludes(lab.oracle, p, c)
      ensures Writes(lab.oracle, p, run, capacity, c, r)
      ensures lab.calls == CleanAt(lab.oracle, c) && (written <==> lab.oracle.fate(WriteAt(lab.oracle, c)) == Done)
    {
      r, c := Conclude(p, capacity, run, finished, start, before);
      label writing:
      written := lab.WriteFile(Written(p.name, repetition, r));
      FadesCompose(old(lab.cluster), old@writing(lab.cluster), lab.cluster);
    }

    /** A run up to the writing of its result. */
    method RunAndRecord(p: Profile, repetition: nat, capacity: Capacity, run: string)
      returns (finished: bool, written: bool, result: Result, ghost course: Course, ghost released: seq<Event>)
      requires lab.Valid()
      modifies lab
      ensures lab.Valid() && OnlyRun(old(lab.cluster), lab.cluster, run)
      ensures lab.events == old(lab.events) + released + RecordLog(run, written)
      ensures released in {[], [Deleted(HolderName(0, run), run)]}
      ensures lab.results == old(lab.results) + if written then [Written(p.name, repetition, result)] else []
      ensures course.start == old(lab.calls) && course.finished == finished
      ensures Follows(lab.oracle, p, NamesFree(old(lab.cluster), 0, run), course)
      ensures Writes(lab.oracle, p, run, capacity, course, result)
      ensures finished ==> InForce(lab.oracle, p, course.start, old(lab.cluster), lab.cluster)
      ensures lab.calls == CleanAt(lab.oracle, course) && (written <==> lab.oracle.fate(WriteAt(lab.oracle, course)) == Done)
    {
      var draft;
      draft, finished, released := Scenario(p, run, capacity);
      label concluding:
      written, result, course := Record(p, repetition, capacity, run, finished, old(lab.calls), draft);
      FadingIsOnlyRun(old@concluding(lab.cluster), lab.cluster, run);
      OnlyRunComposes(old(lab.cluster), old@concluding(lab.cluster), lab.cluster, run);
    }

    /** One run. On every path: the evidence is collected before anything that is left is deleted;
        every AIJob deleted carried this run's ID; and the result written, if it could be written, is
        the document of the run's course. The run succeeds exactly when its scenario reached its
        end, its result was written and its cleanup went well; a final snapshot or evidence that
        failed makes the result incomplete, and no more. */
    method RunOne(p: Profile, repetition: nat, capacity: Capacity, run: string)
      returns (ok: bool, written: bool, result: Result, ghost course: Course, ghost cleaning: Cleaning,
               ghost released: seq<Event>, ghost deletions: seq<Event>)
      requires lab.Valid()
      modifies lab
      ensures lab.Valid() && OnlyRun(old(lab.cluster), lab.cluster, run)
      ensures lab.events == old(lab.events) + released + RecordLog(run, written) + [CleanupStarted(run)] + deletions
      ensures released in {[], [Deleted(HolderName(0, run), run)]}
      ensures forall e :: e in deletions ==> e.Deleted? && e.run == run
      ensures lab.results == old(lab.results) + if written then [Written(p.name, repetition, result)] else []
      ensures course.start == old(lab.calls) && Follows(lab.oracle, p, NamesFree(old(lab.cluster), 0, run), course)
      ensures Writes(lab.oracle, p, run, capacity, course, result)
      ensures written <==> lab.oracle.fate(WriteAt(lab.oracle, course)) == Done
      ensures cleaning.ok <==> Cleans(lab.oracle, CleanAt(lab.oracle, course), cleaning, attempts)
      ensures ok <==> course.finished && written && cleaning.ok
      ensures course.finished ==> InForce(lab.oracle, p, course.start, old(lab.cluster), lab.cluster)
      ensures ok ==> (result.complete <==> Answered(lab.oracle, SnapAt(course), SnapAt(course) + 2)
                                           && Bundles(lab.oracle, BundleAt(lab.oracle, course), !AtOdds(p)))
      ensures cleaning.ok ==> NoneLeft(lab.cluster, [run])
      ensures FromLabctl(p) && capacity == LAB_CAPACITY && run != "" ==> (Valid(result) <==> !BrokeHolding(course))
    {
      var finished;
      finished, written, result, course, released := RunAndRecord(p, repetition, capacity, run);
      label sweeping:
      var cleaned;
      cleaned, cleaning, deletions := Cleanup(run);
      OnlyRunComposes(old(lab.cluster), old@sweeping(lab.cluster), lab.cluster, run);
      ok := finished && written && cleaned;
      if ok {
        FinishedIsCompleteIff(lab.oracle, p, NamesFree(old(lab.cluster), 0, run), run, capacity, course, result);
      }
      if FromLabctl(p) && capacity == LAB_CAPACITY && run != "" {
        WrittenResultIsValidIff(lab.oracle, p, run, NamesFree(old(lab.cluster), 0, run), course, result);
      }
    }

    /** Three nodes of four GPUs, and quota for ten. */
    method ValidateFixtures() returns (capacity: Option<Capacity>)
      requires lab.Valid()
      modifies lab
      ensures lab.OnlyRead()
      ensures capacity in {None, Some(LAB_CAPACITY)}
      ensures Smooth(lab.oracle, attempts) && Furnished(lab.oracle) ==> capacity.Some?
    {
      var k, fate := lab.Call();
      var nodes := lab.oracle.nodes(k);
      if fate != Done || |nodes| != 3 || exists n :: n in nodes && n.allocatable != 4 {
        return None;
      }
      var q, answered := lab.Call();
      if answered != Done || lab.oracle.quota(q) < 10 {
        return None;
      }
      capacity := Some(Capacity(3, 4, 12));
    }

    /** One run, by what it adds to the log and to the results. */
    method RunAndFile(p: Profile, repetition: nat, capacity: Capacity, run: string) returns (ok: bool, ghost log: seq<Event>)
      requires lab.Valid()
      modifies lab
      ensures lab.Valid() && lab.events == old(lab.events) + log && old(lab.results) <= lab.results
      ensures Adds(lab.oracle, log, lab.results[|old(lab.results)|..], [p], capacity, [run], [(p.name, repetition)], ok)
      ensures OnlyRun(old(lab.cluster), lab.cluster, run) && (ok ==> NoneLeft(lab.cluster, [run]))
      ensures Undisturbed(lab.oracle, old(lab.cluster), attempts, [p]) ==> ok && AllComplete(lab.results[|old(lab.results)|..])
    {
      ghost var course, cleaning, released, deletions;
      var written, result;
      ok, written, result, course, cleaning, released, deletions := RunOne(p, repetition, capacity, run);
      log := released + RecordLog(run, written) + [CleanupStarted(run)] + deletions;
      FourParts(old(lab.events), released, RecordLog(run, written), [CleanupStarted(run)], deletions);
      RunLogged(run, released, written, deletions);
      Appended(old(lab.results), if written then [Written(p.name, repetition, result)] else [], lab.results);
      OneFile(lab.oracle, result, repetition, p, capacity, run, NamesFree(old(lab.cluster), 0, run), course);
      if Undisturbed(lab.oracle, old(lab.cluster), attempts, [p]) {
        SmoothRun(lab.oracle, p, run, capacity, course, result, CleanAt(lab.oracle, course), cleaning, attempts);
      }
    }

    /** One repetition among others. */
    method RunRepetition(p: Profile, repetition: nat, capacity: Capacity, run: string, ghost runs: seq<string>) returns (ok: bool)
      requires lab.Valid()
      modifies lab
      ensures lab.Valid() && old(lab.events) <= lab.events && old(lab.results) <= lab.results
      ensures Adds(lab.oracle, lab.events[|old(lab.events)|..], lab.results[|old(lab.results)|..], [p], capacity, [run],
                   [(p.name, repetition)], ok)
      ensures Clears(old(lab.cluster), lab.cluster, runs, [run], ok)
      ensures Calm(lab.oracle, old(lab.cluster), attempts, [p], lab.cluster, lab.results[|old(lab.results)|..], ok)
    {
      ghost var log;
      ok, log := RunAndFile(p, repetition, capacity, run);
      Appended(old(lab.events), log, lab.events);
      if ok {
        OneMoreGone(old(lab.cluster), lab.cluster, runs, run);
      }
    }

    /** All repetitions of one profile, whatever becomes of each. */
    method RunProfile(p: Profile, repetitions: nat, capacity: Capacity, ids: nat -> string, ghost before: seq<string>)
      returns (ok: bool, ghost runs: seq<string>)
      requires lab.Valid()
      modifies lab
      ensures lab.Valid() && old(lab.events) <= lab.events && old(lab.results) <= lab.results
      ensures |runs| == repetitions
      ensures Adds(lab.oracle, lab.events[|old(lab.events)|..], lab.results[|old(lab.results)|..], [p], capacity, runs,
                   Repeated(p.name, repetitions), ok)
      ensures Clears(old(lab.cluster), lab.cluster, before, runs, ok)
      ensures Calm(lab.oracle, old(lab.cluster), attempts, [p], lab.cluster, lab.results[|old(lab.results)|..], ok)
    {
      ok, runs := true, [];
      assert before + [] == before;
      for repetition := 1 to repetitions + 1
        invariant lab.Valid() && old(lab.events) <= lab.events && old(lab.results) <= lab.results
        invariant |runs| == repetition - 1
        invariant Adds(lab.oracle, lab.events[|old(lab.events)|..], lab.results[|old(lab.results)|..], [p], capacity, runs,
                       Repeated(p.name, repetition - 1), ok)
        invariant Clears(old(lab.cluster), lab.cluster, before, runs, ok)
        invariant Calm(lab.oracle, old(lab.cluster), attempts, [p], lab.cluster, lab.results[|old(lab.results)|..], ok)
      {
        var run := ids(lab.calls);
        label running:
        var done := RunRepetition(p, repetition, capacity, run, before + runs);
        AddsOn(lab.oracle, old(lab.events), old@running(lab.events), lab.events,
               old(lab.results), old@running(lab.results), lab.results,
               [p], 0, capacity, runs, [run], Repeated(p.name, repetition - 1), [(p.name, repetition)], ok, done);
        ClearsOn(old(lab.cluster), old@running(lab.cluster), lab.cluster, before, runs, [run], ok, done);
        CalmOn(lab.oracle, old(lab.cluster), old@running(lab.cluster), lab.cluster, attempts, [p], 0,
               old(lab.results), old@running(lab.results), lab.results, ok, done);
        runs := runs + [run];
        ok := ok && done;
      }
    }

    /** Every profile in turn, whatever becomes of each. */
    method RunProfiles(profiles: seq<Profile>, repetitions: nat, capacity: Capacity, ids: nat -> string)
      returns (ok: bool, ghost runs: seq<string>)
      requires lab.Valid()
      modifies lab
      ensures lab.Valid() && old(lab.events) <= lab.events && old(lab.results) <= lab.results
      ensures |runs| == |Plan(profiles, repetitions)|
      ensures Adds(lab.oracle, lab.events[|old(lab.events)|..], lab.results[|old(lab.results)|..], profiles, capacity, runs,
                   Plan(profiles, repetitions), ok)
      ensures Clears(old(lab.cluster), lab.cluster, [], runs, ok)
      ensures Calm(lab.oracle, old(lab.cluster), attempts, profiles, lab.cluster, lab.results[|old(lab.results)|..], ok)
    {
      ok, runs := true, [];
      ghost var plan := [];
      for k := 0 to |profiles|
        invariant lab.Valid() && old(lab.events) <= lab.events && old(lab.results) <= lab.results
        invariant plan == Plan(profiles[..k], repetitions) && |runs| == |plan|
        invariant Adds(lab.oracle, lab.events[|old(lab.events)|..], lab.results[|old(lab.results)|..], profiles, capacity, runs,
                       plan, ok)
        invariant Clears(old(lab.cluster), lab.cluster, [], runs, ok)
        invariant Calm(lab.oracle, old(lab.cluster), attempts, profiles, lab.cluster, lab.results[|old(lab.results)|..], ok)
      {
        label profile:
        ghost var more;
        var done;
        done, more := RunProfile(profiles[k], repetitions, capacity, ids, runs);
        AddsOn(lab.oracle, old(lab.events), old@profile(lab.events), lab.events,
               old(lab.results), old@profile(lab.results), lab.results,
               profiles, k, capacity, runs, more, plan, Repeated(profiles[k].name, repetitions), ok, done);
        PlanOneMore(profiles, k, repetitions);
        assert [] + runs == runs;
        ClearsOn(old(lab.cluster), old@profile(lab.cluster), lab.cluster, [], runs, more, ok, done);
        CalmOn(lab.oracle, old(lab.cluster), old@profile(lab.cluster), lab.cluster, attempts, profiles, k,
               old(lab.results), old@profile(lab.results), lab.results, ok, done);
        plan, runs := plan + Repeated(profiles[k].name, repetitions), runs + more;
        ok := ok && done;
      }
      assert profiles[..|profiles|] == profiles;
    }

    /** The whole benchmark. Once the scheduler's configuration is captured, restoring it is the last
        thing attempted; success means that it is as before, that every profile and repetition wrote
        its result, in order, and that no AIJob of any of the runs is left. Whatever happens, there
        is one run for each profile and repetition, only AIJobs of these runs are deleted, and every
        result written is the document of one of them. */
    method Run(profiles: seq<Profile>, repetitions: nat, ids: nat -> string)
      returns (ok: bool, captured: bool, ghost runs: seq<string>)
      requires lab.Valid()
      modifies lab
      ensures lab.Valid() && old(lab.events) <= lab.events && old(lab.results) <= lab.results
      ensures !captured ==> lab.OnlyRead() && !ok
      ensures captured ==> |lab.events| > |old(lab.events)| && lab.events[|lab.events| - 1] == RestoreStarted
      ensures captured ==> |runs| == |Plan(profiles, repetitions)|
      ensures captured ==> Adds(lab.oracle, lab.events[|old(lab.events)|..], lab.results[|old(lab.results)|..], profiles,
                                LAB_CAPACITY, runs, Plan(profiles, repetitions), ok)
      ensures ok ==> SameScheduler(old(lab.cluster), lab.cluster) && NoneLeft(lab.cluster, runs)
      ensures Undisturbed(lab.oracle, old(lab.cluster), attempts, profiles) && Furnished(lab.oracle) ==>
        ok && AllComplete(lab.results[|old(lab.results)|..])
    {
      ok, captured, runs := false, false, [];
      var capacity := ValidateFixtures();
      if capacity.None? {
        return;
      }
      var data, annotations;
      captured, data, annotations := CaptureScheduler();
      if !captured {
        return;
      }
      ok, runs := RunProfiles(profiles, repetitions, capacity.value, ids);
      label restoring:
      var restored := Restore(data, annotations);
      RestoreAdds(lab.oracle, old(lab.events), old@restoring(lab.events), lab.events, lab.results[|old(lab.results)|..],
                  profiles, LAB_CAPACITY, runs, Plan(profiles, repetitions), ok);
      ok := ok && restored;
    }
  }

  /** Nothing goes wrong, nothing else runs, and every profile is one labctl would run. */
  ghost predicate Undisturbed(o: Oracle, c: Cluster, attempts: nat, profiles: seq<Profile>) {
    && Smooth(o, attempts) && c.aijobs == map[]
    && forall p :: p in profiles ==> FromLabctl(p) && p.data.Some?
  }

  /** Success, with every result complete and no AIJob left. */
  predicate WellDone(c: Cluster, results: seq<Written>, ok: bool) {
    ok && c.aijobs == map[] && AllComplete(results)
  }

  /** Where nothing disturbs the runs, they are all well done. */
  ghost predicate Calm(o: Oracle, before: Cluster, attempts: nat, profiles: seq<Profile>, after: Cluster,
                       results: seq<Written>, ok: bool) {
    Undisturbed(o, before, attempts, profiles) ==> WellDone(after, results, ok)
  }

  lemma CalmOn(o: Oracle, a: Cluster, b: Cluster, c: Cluster, attempts: nat, profiles: seq<Profile>, k: nat,
               r0: seq<Written>, r1: seq<Written>, r2: seq<Written>, ok: bool, done: bool)
    requires k < |profiles| && r0 <= r1 <= r2
    requires Calm(o, a, attempts, profiles, b, r1[|r0|..], ok)
    requires Calm(o, b, attempts, [profiles[k]], c, r2[|r1|..], done)
    ensures Calm(o, a, attempts, profiles, c, r2[|r0|..], ok && done)
  {
    Extended(r0, r1, r2);
  }

  // ---- what is left

  lemma OwnByNobody(c: Cluster, run: string)
    requires Consistent(c)
    ensures OnlyRun(c, c, run)
  {
  }

  predicate NoneLeft(c: Cluster, runs: seq<string>) {
    forall n :: n in c.aijobs ==> c.aijobs[n] !in runs
  }

  lemma NothingOfRun(c: Cluster, run: string)
    requires OfRun(c, run) == {}
    ensures NoneLeft(c, [run])
  {
    forall n | n in c.aijobs ensures c.aijobs[n] !in [run] {
      assert n !in OfRun(c, run);
    }
  }

  lemma OneMoreGone(before: Cluster, after: Cluster, runs: seq<string>, run: string)
    requires OnlyRun(before, after, run) && NoneLeft(after, [run])
    ensures NoneLeft(before, runs) ==> NoneLeft(after, runs + [run])
    ensures before.aijobs == map[] ==> after.aijobs == map[]
  {
    assert forall n :: n in after.aijobs ==> after.aijobs[n] != run;
  }

  /** If all goes well, AIJobs of these further runs are gone too. */
  predicate Clears(before: Cluster, after: Cluster, runs: seq<string>, more: seq<string>, ok: bool) {
    ok && NoneLeft(before, runs) ==> NoneLeft(after, runs + more)
  }

  lemma ClearsOn(a: Cluster, b: Cluster, c: Cluster, runs: seq<string>, more: seq<string>, evenMore: seq<string>, ok: bool, done: bool)
    requires Clears(a, b, runs, more, ok) && Clears(b, c, runs + more, evenMore, done)
    ensures Clears(a, c, runs, more + evenMore, ok && done)
  {
    assert runs + (more + evenMore) == (runs + more) + evenMore;
  }

  lemma FadingListsFewer(before: Cluster, after: Cluster, run: string)
    requires Fades(before, after)
    ensures OfRun(after, run) <= OfRun(before, run) && |OfRun(after, run)| <= |OfRun(before, run)|
  {
    SubsetSize(OfRun(after, run), OfRun(before, run));
  }

  lemma {:induction false} SubsetSize(a: set<string>, b: set<string>)
    requires a <= b
    ensures |a| <= |b|
  {
    if a != {} {
      var x :| x in a;
      SubsetSize(a - {x}, b - {x});
    }
  }

  lemma AnsweredLast(o: Oracle, from: nat, to: nat)
    requires from <= to
    ensures Answered(o, from, to + 1) <==> Answered(o, from, to) && o.fate(to) == Done
  {
    assert Answered(o, from, to) && o.fate(to) == Done ==> forall k | from <= k < to + 1 :: k == to || o.fate(k) == Done;
  }

  /** The AIJobs left that have not vanished by a call. */
  function Remaining(o: Oracle, left: set<string>, from: nat, to: nat): set<string> {
    set n | n in left && forall k | from <= k < to :: o.lingers(k, n)
  }

  lemma RemainingOneMore(o: Oracle, left: set<string>, from: nat, c: Cluster, run: string, k: nat)
    requires Consistent(c) && OfRun(c, run) <= c.deleting && from <= k
    requires Remaining(o, left, from, k) == OfRun(c, run)
    ensures Remaining(o, left, from, k + 1) == OfRun(Faded(o, c, k), run) <= Faded(o, c, k).deleting
    ensures Emptied(o, left, from, k) <==> NoDescendants(o, k) && OfRun(Faded(o, c, k), run) == {}
  {
    forall n
      ensures n in Remaining(o, left, from, k + 1) <==> n in OfRun(Faded(o, c, k), run)
    {
      assert n in Remaining(o, left, from, k) <==> n in OfRun(c, run);
    }
    forall n | n in left
      ensures Vanishes(o, n, from, k + 1) <==> n !in Remaining(o, left, from, k + 1)
    {
    }
  }

  // ---- the log

  /** The runs whose cleanup was started, in order. */
  function RunsIn(events: seq<Event>): seq<string> {
    if events == [] then []
    else
      var last := events[|events| - 1];
      RunsIn(events[..|events| - 1]) + if last.CleanupStarted? then [last.run] else []
  }

  /** These are the runs of a log, and every AIJob deleted was one of theirs. */
  predicate Logged(events: seq<Event>, runs: seq<string>) {
    RunsIn(events) == runs && forall e :: e in events && e.Deleted? ==> e.run in runs
  }

  lemma {:induction false} RunsInAppend(first: seq<Event>, second: seq<Event>)
    ensures RunsIn(first + second) == RunsIn(first) + RunsIn(second)
  {
    if second == [] {
      assert first + second == first;
    } else {
      assert (first + second)[..|first + second| - 1] == first + second[..|second| - 1];
      RunsInAppend(first, second[..|second| - 1]);
    }
  }

  lemma LoggedOn(start: seq<Event>, middle: seq<Event>, end: seq<Event>, runs: seq<string>, more: seq<string>)
    requires start <= middle <= end && Logged(middle[|start|..], runs) && Logged(end[|middle|..], more)
    ensures Logged(end[|start|..], runs + more)
  {
    Extended(start, middle, end);
    RunsInAppend(middle[|start|..], end[|middle|..]);
  }

  lemma {:induction false} NoRunsIn(events: seq<Event>)
    requires forall e :: e in events ==> !e.CleanupStarted?
    ensures RunsIn(events) == []
  {
    if events != [] {
      NoRunsIn(events[..|events| - 1]);
    }
  }

  lemma RunDeletesOwn(run: string, released: seq<Event>, written: bool, deletions: seq<Event>, e: Event)
    requires released in {[], [Deleted(HolderName(0, run), run)]}
    requires forall e :: e in deletions ==> e.Deleted? && e.run == run
    requires e in released + RecordLog(run, written) + [CleanupStarted(run)] + deletions && e.Deleted?
    ensures e.run == run
  {
    assert e in released || e in RecordLog(run, written) || e in deletions;
  }

  lemma RunLogged(run: string, released: seq<Event>, written: bool, deletions: seq<Event>)
    requires released in {[], [Deleted(HolderName(0, run), run)]}
    requires forall e :: e in deletions ==> e.Deleted? && e.run == run
    ensures Logged(released + RecordLog(run, written) + [CleanupStarted(run)] + deletions, [run])
  {
    NoRunsIn(released);
    NoRunsIn(RecordLog(run, written));
    NoRunsIn(deletions);
    RunsInAppend(released, RecordLog(run, written));
    assert RunsIn([CleanupStarted(run)]) == [run];
    RunsInAppend(released + RecordLog(run, written), [CleanupStarted(run)]);
    RunsInAppend(released + RecordLog(run, written) + [CleanupStarted(run)], deletions);
    forall e | e in released + RecordLog(run, written) + [CleanupStarted(run)] + deletions && e.Deleted?
      ensures e.run in [run]
    {
      RunDeletesOwn(run, released, written, deletions, e);
    }
  }

  lemma FourParts<T>(start: seq<T>, a: seq<T>, b: seq<T>, c: seq<T>, d: seq<T>)
    ensures start + a + b + c + d == start + (a + b + c + d)
  {
  }

  lemma Appended<T>(start: seq<T>, more: seq<T>, end: seq<T>)
    requires end == start + more
    ensures start <= end && end[|start|..] == more
  {
  }

  lemma Extended<T>(start: seq<T>, middle: seq<T>, end: seq<T>)
    requires start <= middle <= end
    ensures end[|start|..] == middle[|start|..] + end[|middle|..]
  {
  }

  // ---- the results

  predicate AllComplete(files: seq<Written>) {
    forall f :: f in files ==> f.result.complete
  }

  function PlanOf(files: seq<Written>): seq<(string, nat)> {
    seq(|files|, i requires 0 <= i < |files| => (files[i].profile, files[i].repetition))
  }

  function Repeated(name: string, repetitions: nat): seq<(string, nat)> {
    if repetitions == 0 then [] else Repeated(name, repetitions - 1) + [(name, repetitions)]
  }

  function Plan(profiles: seq<Profile>, repetitions: nat): seq<(string, nat)> {
    if profiles == [] then []
    else Plan(profiles[..|profiles| - 1], repetitions) + Repeated(profiles[|profiles| - 1].name, repetitions)
  }

  lemma {:induction false} RepeatedLength(name: string, repetitions: nat)
    ensures |Repeated(name, repetitions)| == repetitions
  {
    if repetitions > 0 {
      RepeatedLength(name, repetitions - 1);
    }
  }

  lemma PlanOneMore(profiles: seq<Profile>, k: nat, repetitions: nat)
    requires k < |profiles|
    ensures Plan(profiles[..k + 1], repetitions) == Plan(profiles[..k], repetitions) + Repeated(profiles[k].name, repetitions)
    ensures |Repeated(profiles[k].name, repetitions)| == repetitions
  {
    assert profiles[..k + 1][..k] == profiles[..k];
    RepeatedLength(profiles[k].name, repetitions);
  }

  lemma {:induction false} RepeatedAt(name: string, repetitions: nat, r: nat)
    requires 1 <= r <= repetitions
    ensures |Repeated(name, repetitions)| == repetitions && Repeated(name, repetitions)[r - 1] == (name, r)
  {
    RepeatedLength(name, repetitions);
    RepeatedLength(name, repetitions - 1);
    if r < repetitions {
      RepeatedAt(name, repetitions - 1, r);
    }
  }

  /** The plan: each profile in turn, and of each the repetitions from 1 on. */
  lemma {:induction false} PlanAt(profiles: seq<Profile>, repetitions: nat, i: nat, r: nat)
    requires i < |profiles| && 1 <= r <= repetitions
    ensures |Plan(profiles, repetitions)| == |profiles| * repetitions
    ensures i * repetitions + r - 1 < |profiles| * repetitions
    ensures Plan(profiles, repetitions)[i * repetitions + r - 1] == (profiles[i].name, r)
  {
    var n := |profiles| - 1;
    PlanLength(profiles, repetitions);
    PlanLength(profiles[..n], repetitions);
    assert |profiles| * repetitions == n * repetitions + repetitions;
    if i < n {
      PlanAt(profiles[..n], repetitions, i, r);
    } else {
      RepeatedAt(profiles[n].name, repetitions, r);
    }
  }

  lemma {:induction false} PlanLength(profiles: seq<Profile>, repetitions: nat)
    ensures |Plan(profiles, repetitions)| == |profiles| * repetitions
  {
    if profiles != [] {
      var n := |profiles| - 1;
      PlanLength(profiles[..n], repetitions);
      RepeatedLength(profiles[n].name, repetitions);
      assert |profiles| * repetitions == n * repetitions + repetitions;
    }
  }

  /** A result file that is the document of a run of one of these profiles. */
  ghost predicate Sound(o: Oracle, f: Written, profiles: seq<Profile>, capacity: Capacity) {
    exists p, free, c ::
      p in profiles && p.name == f.profile && Follows(o, p, free, c) && Writes(o, p, f.result.runId, capacity, c, f.result)
  }

  ghost predicate AllSound(o: Oracle, files: seq<Written>, profiles: seq<Profile>, capacity: Capacity, runs: seq<string>) {
    forall f :: f in files ==> Sound(o, f, profiles, capacity) && f.result.runId in runs
  }

  /** What runs add to the log and to the results: there is one of them for each ID, they delete no
      AIJob that is not theirs, and each file is the document of one of them; if all succeed, the
      files follow the plan. */
  ghost predicate Adds(o: Oracle, events: seq<Event>, results: seq<Written>, profiles: seq<Profile>, capacity: Capacity,
                       runs: seq<string>, plan: seq<(string, nat)>, ok: bool) {
    && Logged(events, runs) && AllSound(o, results, profiles, capacity, runs)
    && (ok ==> PlanOf(results) == plan)
  }

  lemma OneFile(o: Oracle, r: Result, repetition: nat, p: Profile, capacity: Capacity, run: string, free: bool, c: Course)
    requires Follows(o, p, free, c) && Writes(o, p, run, capacity, c, r)
    ensures AllSound(o, [Written(p.name, repetition, r)], [p], capacity, [run])
    ensures PlanOf([Written(p.name, repetition, r)]) == [(p.name, repetition)]
  {
    assert p in [p] && r.runId == run;
  }

  lemma SoundOn(o: Oracle, files: seq<Written>, more: seq<Written>, profiles: seq<Profile>, k: nat, capacity: Capacity,
                runs: seq<string>, moreRuns: seq<string>)
    requires k < |profiles| && AllSound(o, files, profiles, capacity, runs) && AllSound(o, more, [profiles[k]], capacity, moreRuns)
    ensures AllSound(o, files + more, profiles, capacity, runs + moreRuns)
  {
  }

  lemma PlanOfBoth(files: seq<Written>, more: seq<Written>)
    ensures PlanOf(files + more) == PlanOf(files) + PlanOf(more)
  {
  }

  lemma AddsOn(o: Oracle, e0: seq<Event>, e1: seq<Event>, e2: seq<Event>, r0: seq<Written>, r1: seq<Written>, r2: seq<Written>,
               profiles: seq<Profile>, k: nat, capacity: Capacity, runs: seq<string>, more: seq<string>,
               plan: seq<(string, nat)>, morePlan: seq<(string, nat)>, ok: bool, done: bool)
    requires e0 <= e1 <= e2 && r0 <= r1 <= r2 && k < |profiles|
    requires Adds(o, e1[|e0|..], r1[|r0|..], profiles, capacity, runs, plan, ok)
    requires Adds(o, e2[|e1|..], r2[|r1|..], [profiles[k]], capacity, more, morePlan, done)
    ensures Adds(o, e2[|e0|..], r2[|r0|..], profiles, capacity, runs + more, plan + morePlan, ok && done)
  {
    LoggedOn(e0, e1, e2, runs, more);
    Extended(r0, r1, r2);
    SoundOn(o, r1[|r0|..], r2[|r1|..], profiles, k, capacity, runs, more);
    PlanOfBoth(r1[|r0|..], r2[|r1|..]);
  }

  lemma RestoreAdds(o: Oracle, e0: seq<Event>, e1: seq<Event>, e2: seq<Event>, results: seq<Written>, profiles: seq<Profile>,
                    capacity: Capacity, runs: seq<string>, plan: seq<(string, nat)>, ok: bool)
    requires e0 <= e1 && e2 == e1 + [RestoreStarted] && Adds(o, e1[|e0|..], results, profiles, capacity, runs, plan, ok)
    ensures Adds(o, e2[|e0|..], results, profiles, capacity, runs, plan, ok)
  {
    assert e2[|e1|..] == [RestoreStarted] && runs + [] == runs;
    LoggedOn(e0, e1, e2, runs, []);
  }

  /** Every file a benchmark over labctl's profiles leaves behind passes validation when it is
      complete; in any case, it passes exactly when it lists no workload or its fragmentation is
      that of a snapshot. */
  lemma SoundFilesAreValid(o: Oracle, f: Written, profiles: seq<Profile>)
    requires Sane(o) && Sound(o, f, profiles, LAB_CAPACITY) && f.result.runId != ""
    requires forall p :: p in profiles ==> FromLabctl(p)
    ensures f.result.complete ==> Valid(f.result)
    ensures Valid(f.result) <==> f.result.workloads == [] || exists k: nat :: Snapshotted(o, k, f.result.fragmentation)
  {
    var p, free, c :|
      p in profiles && p.name == f.profile && Follows(o, p, free, c) && Writes(o, p, f.result.runId, LAB_CAPACITY, c, f.result);
    WrittenResultIsValidIff(o, p, f.result.runId, free, c, f.result);
    BrokeHoldingShows(o, p, f.result.runId, LAB_CAPACITY, c, f.result);
  }
}
