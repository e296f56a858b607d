/** The evidence bundle of one run and its completeness. */
module Evidence {
  import opened Wrappers
  import opened Results
  import opened LabCluster

  datatype Manifest = Manifest(
    complete: bool, expected: seq<string>, observed: seq<string>,
    missing: seq<string>, warnings: seq<string>, files: set<string>)

  const RESOURCES := ["aijobs", "jobsets", "workloads", "jobs", "pods", "nodes", "deployments", "events"]
  const METRICS := ["aijob-controller-metrics", "ai-scheduler-metrics"]

  predicate AllObserved(expected: seq<string>, observed: seq<string>) {
    forall e :: e in expected ==> e in observed
  }

  method ExpectedObserved(expected: seq<string>, observed: seq<string>) returns (all: bool)
    ensures all <==> AllObserved(expected, observed)
  {
    var seen: set<string> := {};
    for k := 0 to |observed|
      invariant forall s :: s in seen <==> s in observed[..k]
    {
      assert observed[..k + 1] == observed[..k] + [observed[k]];
      seen := seen + {observed[k]};
    }
    assert observed[..|observed|] == observed;
    for k := 0 to |expected|
      invariant forall e :: e in expected[..k] ==> e in observed
    {
      assert expected[..k + 1] == expected[..k] + [expected[k]];
      if expected[k] !in seen {
        assert expected[k] in expected;
        return false;
      }
    }
    assert expected[..|expected|] == expected;
    all := true;
  }

  // ---- what is missing, by the numbers of the calls

  /** The artifacts whose writing, one call each, was not answered. */
  function Unwritten(o: Oracle, from: nat, names: seq<string>): seq<string> {
    if names == [] then []
    else
      var last := |names| - 1;
      Unwritten(o, from, names[..last]) + Unless(o.fate(from + last) == Done, names[last])
  }

  function Unless(ok: bool, problem: string): seq<string> {
    if ok then [] else [problem]
  }

  function WorkerLogsMissing(o: Oracle, k: nat): seq<string> {
    Unless(o.fate(k) == Done, "worker logs") + Unwritten(o, k + 1, o.logs(k + 1))
  }

  function WorkerLogsEnd(o: Oracle, k: nat): nat {
    k + 1 + |o.logs(k + 1)|
  }

  function WorkersMissing(o: Oracle, k: nat): seq<string> {
    var reports := WorkerLogsEnd(o, k);
    WorkerLogsMissing(o, k)
    + (Unless(o.fate(reports) == Done, "worker reports") + Unless(o.fate(reports + 1) == Done, "workers"))
  }

  function WorkersEnd(o: Oracle, k: nat): nat {
    WorkerLogsEnd(o, k) + 2
  }

  function ResourcesMissing(o: Oracle, k: nat): seq<string> {
    if o.fate(k) != Done then ["resources"]
    else Unwritten(o, k + 1, RESOURCES) + WorkersMissing(o, k + 1 + |RESOURCES|)
  }

  function ResourcesEnd(o: Oracle, k: nat): nat {
    if o.fate(k) != Done then k + 1 else WorkersEnd(o, k + 1 + |RESOURCES|)
  }

  function LogsMissing(o: Oracle, k: nat): seq<string> {
    if o.fate(k) != Done then ["component logs"] else Unwritten(o, k + 1, o.logs(k + 1))
  }

  function LogsEnd(o: Oracle, k: nat): nat {
    if o.fate(k) != Done then k + 1 else k + 1 + |o.logs(k + 1)|
  }

  function ArtifactsMissing(o: Oracle, k: nat): seq<string> {
    ResourcesMissing(o, k) + LogsMissing(o, ResourcesEnd(o, k))
  }

  function ArtifactsEnd(o: Oracle, k: nat): nat {
    LogsEnd(o, ResourcesEnd(o, k))
  }

  /** Where the two calls for the metrics come, of a collection that starts at a call. */
  function MetricsAt(o: Oracle, start: nat): nat {
    ArtifactsEnd(o, start + 1)
  }

  function Missing(o: Oracle, start: nat, met: bool): seq<string> {
    ArtifactsMissing(o, start + 1) + Unless(met, "expected conditions were not all observed")
  }

  /** A collection reports success: every call but those for the metrics is answered, and what was
      expected is observed. */
  ghost predicate Bundles(o: Oracle, start: nat, met: bool) {
    met && Answered(o, start, MetricsAt(o, start)) && o.fate(MetricsAt(o, start) + |METRICS|) == Done
  }

  /** How many calls a collection has made when it ends. */
  function CollectEnd(o: Oracle, start: nat): nat {
    if o.fate(start) != Done then start + 1 else MetricsAt(o, start) + |METRICS| + 1
  }

  lemma UnwrittenOneMore(o: Oracle, from: nat, names: seq<string>, k: nat)
    requires k < |names|
    ensures Unwritten(o, from, names[..k + 1]) == Unwritten(o, from, names[..k]) + Unless(o.fate(from + k) == Done, names[k])
  {
    assert names[..k + 1][..k] == names[..k];
  }

  lemma {:induction false} UnwrittenNothing(o: Oracle, from: nat, names: seq<string>)
    ensures Unwritten(o, from, names) == [] <==> Answered(o, from, from + |names|)
  {
    if names != [] {
      var last := |names| - 1;
      UnwrittenNothing(o, from, names[..last]);
      assert Answered(o, from, from + |names|) <==> Answered(o, from, from + last) && o.fate(from + last) == Done;
    }
  }

  lemma FirstAnswered(o: Oracle, from: nat, to: nat)
    requires from < to && o.fate(from) == Done
    ensures Answered(o, from, to) <==> Answered(o, from + 1, to)
  {
    assert Answered(o, from + 1, to) ==> forall k | from <= k < to :: k == from || o.fate(k) == Done;
  }

  lemma WorkersMissNothing(o: Oracle, k: nat)
    ensures WorkersMissing(o, k) == [] <==> Answered(o, k, WorkersEnd(o, k))
  {
    UnwrittenNothing(o, k + 1, o.logs(k + 1));
  }

  lemma ResourcesMissNothing(o: Oracle, k: nat)
    ensures ResourcesMissing(o, k) == [] <==> Answered(o, k, ResourcesEnd(o, k))
  {
    UnwrittenNothing(o, k + 1, RESOURCES);
    WorkersMissNothing(o, k + 1 + |RESOURCES|);
  }

  lemma LogsMissNothing(o: Oracle, k: nat)
    ensures LogsMissing(o, k) == [] <==> Answered(o, k, LogsEnd(o, k))
  {
    UnwrittenNothing(o, k + 1, o.logs(k + 1));
  }

  /** Nothing is missing exactly when every call before the metrics was answered and what was
      expected is observed. */
  lemma MissingNothing(o: Oracle, start: nat, met: bool)
    ensures Missing(o, start, met) == [] <==> met && Answered(o, start + 1, MetricsAt(o, start))
  {
    ResourcesMissNothing(o, start + 1);
    LogsMissNothing(o, ResourcesEnd(o, start + 1));
  }

  lemma {:induction false} UnwrittenDepends(o: Oracle, other: Oracle, from: nat, names: seq<string>)
    requires forall k | from <= k < from + |names| :: other.fate(k) == o.fate(k)
    ensures Unwritten(other, from, names) == Unwritten(o, from, names)
  {
    if names != [] {
      UnwrittenDepends(o, other, from, names[..|names| - 1]);
    }
  }

  /** The same answers from one call number up to another. */
  ghost predicate SameFates(o: Oracle, other: Oracle, from: nat, to: nat) {
    other.logs == o.logs && forall k | from <= k < to :: other.fate(k) == o.fate(k)
  }

  lemma AnsweredDepends(o: Oracle, other: Oracle, from: nat, to: nat)
    requires SameFates(o, other, from, to)
    ensures Answered(other, from, to) <==> Answered(o, from, to)
  {
  }

  lemma WorkersDepend(o: Oracle, other: Oracle, k: nat)
    requires SameFates(o, other, k, WorkersEnd(o, k))
    ensures WorkersMissing(other, k) == WorkersMissing(o, k) && WorkersEnd(other, k) == WorkersEnd(o, k)
  {
    UnwrittenDepends(o, other, k + 1, o.logs(k + 1));
  }

  lemma ResourcesDepend(o: Oracle, other: Oracle, k: nat)
    requires SameFates(o, other, k, ResourcesEnd(o, k))
    ensures ResourcesMissing(other, k) == ResourcesMissing(o, k) && ResourcesEnd(other, k) == ResourcesEnd(o, k)
  {
    if o.fate(k) == Done {
      UnwrittenDepends(o, other, k + 1, RESOURCES);
      WorkersDepend(o, other, k + 1 + |RESOURCES|);
    }
  }

  lemma LogsDepend(o: Oracle, other: Oracle, k: nat)
    requires SameFates(o, other, k, LogsEnd(o, k))
    ensures LogsMissing(other, k) == LogsMissing(o, k) && LogsEnd(other, k) == LogsEnd(o, k)
  {
    if o.fate(k) == Done {
      UnwrittenDepends(o, other, k + 1, o.logs(k + 1));
    }
  }

  lemma MissingDepends(o: Oracle, other: Oracle, start: nat, met: bool)
    requires SameFates(o, other, start, MetricsAt(o, start))
    ensures Missing(other, start, met) == Missing(o, start, met) && MetricsAt(other, start) == MetricsAt(o, start)
  {
    ResourcesDepend(o, other, start + 1);
    LogsDepend(o, other, ResourcesEnd(o, start + 1));
  }

  /** The metrics can only warn: whatever becomes of their two calls, the same is missing and the
      same bundles are complete. */
  lemma MetricsOnlyWarn(o: Oracle, other: Oracle, start: nat, met: bool)
    requires other.logs == o.logs
    requires forall k: nat :: k !in {MetricsAt(o, start), MetricsAt(o, start) + 1} ==> other.fate(k) == o.fate(k)
    ensures Missing(other, start, met) == Missing(o, start, met)
    ensures Bundles(other, start, met) <==> Bundles(o, start, met)
  {
    MissingDepends(o, other, start, met);
    AnsweredDepends(o, other, start, MetricsAt(o, start));
  }

  /** A manifest that lists as missing exactly what is, and as warnings exactly the metrics it could
      not have; it is complete exactly when nothing is missing, and then has every resource and the
      worker reports. */
  ghost predicate Accounts(m: Manifest, o: Oracle, start: nat, expected: seq<string>, observed: seq<string>) {
    && m.expected == expected && m.observed == observed
    && m.missing == Missing(o, start, AllObserved(expected, observed))
    && m.warnings == Unwritten(o, MetricsAt(o, start), METRICS)
    && (m.complete <==> m.missing == [])
    && (m.complete ==> forall r :: r in RESOURCES + ["workers"] ==> r in m.files)
  }

  /** The list of missing artifacts names exactly those whose call was not answered. */
  lemma {:induction false} UnwrittenAre(o: Oracle, from: nat, names: seq<string>, name: string)
    ensures name in Unwritten(o, from, names) <==> exists k :: 0 <= k < |names| && names[k] == name && o.fate(from + k) != Done
  {
    if names != [] {
      var last := |names| - 1;
      UnwrittenAre(o, from, names[..last], name);
      assert forall k :: 0 <= k < last ==> names[..last][k] == names[k];
      if name in Unwritten(o, from, names[..last]) {
        var k :| 0 <= k < last && names[..last][k] == name && o.fate(from + k) != Done;
        assert names[k] == name;
      }
    }
  }

  /** A collection in which every call is answered makes, before the metrics, one call each for the
      directory, the resources, the eight resource files, the worker logs, each log file, the worker
      reports and their file, the component logs and each of their files. */
  lemma CollectionCalls(o: Oracle, start: nat)
    requires Answered(o, start, MetricsAt(o, start))
    ensures var workers := start + 1 + 1 + 8;
      var components := workers + 1 + |o.logs(workers + 1)| + 2;
      MetricsAt(o, start) == components + 1 + |o.logs(components + 1)|
  {
    var k := start + 1;
    assert o.fate(k) == Done;
    assert o.fate(ResourcesEnd(o, k)) == Done;
  }

  /** What a complete bundle has. */
  lemma CompleteHas(m: Manifest, o: Oracle, start: nat, expected: seq<string>, observed: seq<string>)
    requires Accounts(m, o, start, expected, observed) && m.complete
    ensures {"aijobs", "jobsets", "workloads", "jobs", "pods", "nodes", "deployments", "events", "workers"} <= m.files
    ensures forall e :: e in expected ==> e in observed
    ensures Answered(o, start + 1, MetricsAt(o, start))
  {
    MissingNothing(o, start, AllObserved(expected, observed));
    NamesOfAll();
  }

  lemma NamesOfAll()
    ensures {"aijobs", "jobsets", "workloads", "jobs", "pods", "nodes", "deployments", "events", "workers"}
         == set name | name in RESOURCES + ["workers"]
  {
    assert RESOURCES + ["workers"]
        == ["aijobs", "jobsets", "workloads", "jobs", "pods", "nodes", "deployments", "events", "workers"];
  }

  // ---- the collection

  predicate AllIn(names: seq<string>, count: nat, files: set<string>) {
    count <= |names| && forall j :: 0 <= j < count ==> names[j] in files
  }

  lemma AllInOneMore(names: seq<string>, count: nat, files: set<string>, more: set<string>)
    requires count < |names|
    ensures AllIn(names, count, files) && names[count] in more ==> AllIn(names, count + 1, files + more)
  {
  }

  method WriteOne(lab: Lab, name: string) returns (lost: seq<string>, files: set<string>)
    requires lab.Valid()
    modifies lab
    ensures lab.OnlyRead() && lab.calls == old(lab.calls) + 1
    ensures lost == Unless(lab.oracle.fate(old(lab.calls)) == Done, name)
    ensures files == if lost == [] then {name} else {}
  {
    var ok := lab.Try();
    if ok {
      return [], {name};
    }
    return [name], {};
  }

  /** Writes one artifact for each name; what cannot be written is noted. */
  method WriteAll(lab: Lab, names: seq<string>) returns (failed: seq<string>, files: set<string>)
    requires lab.Valid()
    modifies lab
    ensures lab.OnlyRead() && lab.calls == old(lab.calls) + |names|
    ensures failed == Unwritten(lab.oracle, old(lab.calls), names)
    ensures failed == [] ==> forall n :: n in names ==> n in files
  {
    failed, files := [], {};
    ghost var o, from := lab.oracle, lab.calls;
    for k := 0 to |names|
      invariant lab.OnlyRead() && lab.calls == from + k
      invariant failed == Unwritten(o, from, names[..k])
      invariant failed == [] ==> AllIn(names, k, files)
    {
      UnwrittenOneMore(o, from, names, k);
      var lost, written := WriteOne(lab, names[k]);
      AllInOneMore(names, k, files, written);
      failed, files := failed + lost, files + written;
    }
    assert names[..|names|] == names;
  }

  /** Without a directory there is no manifest. Otherwise it lists as missing exactly what could not
      be had or observed, the metrics apart, which only appear among the warnings; it is complete
      exactly when nothing is missing, and then lists every resource and the worker reports. The
      caller gets an error exactly when the bundle is not complete or the manifest not written.
      Nothing in the cluster is touched. */
  method Collect(lab: Lab, run: string, expected: seq<string>, observed: seq<string>)
    returns (ok: bool, manifest: Option<Manifest>)
    requires lab.Valid()
    modifies lab
    ensures lab.Valid() && lab.calls == CollectEnd(lab.oracle, old(lab.calls)) && lab.results == old(lab.results)
    ensures lab.events == old(lab.events) + [EvidenceStarted(run)]
    ensures Fades(old(lab.cluster), lab.cluster) && SameScheduler(old(lab.cluster), lab.cluster)
    ensures manifest.None? <==> lab.oracle.fate(old(lab.calls)) != Done
    ensures manifest.Some? ==> Accounts(manifest.value, lab.oracle, old(lab.calls), expected, observed)
    ensures ok <==> Bundles(lab.oracle, old(lab.calls), AllObserved(expected, observed))
  {
    lab.Note(EvidenceStarted(run));
    var made := lab.Try();
    if !made {
      return false, None;
    }
    var m;
    ok, m := CollectBundle(lab, run, old(lab.calls), expected, observed);
    manifest := Some(m);
    FirstAnswered(lab.oracle, old(lab.calls), MetricsAt(lab.oracle, old(lab.calls)));
  }

  /** Fills the directory and writes the manifest. */
  method CollectBundle(lab: Lab, run: string, ghost start: nat, expected: seq<string>, observed: seq<string>)
    returns (ok: bool, m: Manifest)
    requires lab.Valid() && lab.calls == start + 1
    modifies lab
    ensures lab.OnlyRead() && lab.calls == MetricsAt(lab.oracle, start) + |METRICS| + 1
    ensures Accounts(m, lab.oracle, start, expected, observed)
    ensures ok <==>
      && AllObserved(expected, observed) && Answered(lab.oracle, start + 1, MetricsAt(lab.oracle, start))
      && lab.oracle.fate(MetricsAt(lab.oracle, start) + |METRICS|) == Done
  {
    var missing, files := CollectArtifacts(lab, run);
    var warnings, metricFiles := WriteAll(lab, METRICS);
    files := files + metricFiles;
    m := Complete(lab.oracle, start, Manifest(false, expected, observed, missing, warnings, files));
    var stored := lab.Try();
    ok := stored && m.complete;
  }

  /** Adds whether what was expected was observed, and whether that makes the manifest complete. */
  method Complete(ghost o: Oracle, ghost start: nat, before: Manifest) returns (m: Manifest)
    requires before.missing == ArtifactsMissing(o, start + 1)
    requires before.warnings == Unwritten(o, MetricsAt(o, start), METRICS)
    requires before.missing == [] ==> forall r :: r in RESOURCES + ["workers"] ==> r in before.files
    ensures Accounts(m, o, start, before.expected, before.observed)
    ensures m.complete <==>
      AllObserved(before.expected, before.observed) && Answered(o, start + 1, ArtifactsEnd(o, start + 1))
  {
    var met := ExpectedObserved(before.expected, before.observed);
    m := before.(complete := |before.missing| == 0 && met);
    if !met {
      m := m.(missing := m.missing + ["expected conditions were not all observed"]);
    }
    assert m.missing == Missing(o, start, met);
    MissingNothing(o, start, met);
  }

  /** Everything but the metrics. */
  method CollectArtifacts(lab: Lab, run: string) returns (missing: seq<string>, files: set<string>)
    requires lab.Valid()
    modifies lab
    ensures lab.OnlyRead()
    ensures lab.calls == ArtifactsEnd(lab.oracle, old(lab.calls))
    ensures missing == ArtifactsMissing(lab.oracle, old(lab.calls))
    ensures missing == [] ==> forall r :: r in RESOURCES + ["workers"] ==> r in files
  {
    missing, files := CollectResources(lab, run);
    var lost, logFiles := CollectLogs(lab);
    missing, files := missing + lost, files + logFiles;
  }

  method CollectResources(lab: Lab, run: string) returns (missing: seq<string>, files: set<string>)
    requires lab.Valid()
    modifies lab
    ensures lab.OnlyRead() && lab.calls == ResourcesEnd(lab.oracle, old(lab.calls))
    ensures missing == ResourcesMissing(lab.oracle, old(lab.calls))
    ensures missing == [] ==> forall r :: r in RESOURCES + ["workers"] ==> r in files
  {
    var answered, found := lab.Discover(run);
    if !answered {
      return ["resources"], {};
    }
    var lost, written := WriteAll(lab, RESOURCES);
    missing, files := CollectWorkerReports(lab);
    missing, files := lost + missing, written + files;
  }

  method CollectWorkerReports(lab: Lab) returns (missing: seq<string>, files: set<string>)
    requires lab.Valid()
    modifies lab
    ensures lab.OnlyRead() && lab.calls == WorkersEnd(lab.oracle, old(lab.calls))
    ensures missing == WorkersMissing(lab.oracle, old(lab.calls))
    ensures missing == [] ==> "workers" in files
  {
    missing, files := CollectWorkerLogs(lab);
    var reportsMissing, stored := WriteWorkerReports(lab);
    missing := missing + reportsMissing;
    if stored {
      files := files + {"workers"};
    }
  }

  method CollectWorkerLogs(lab: Lab) returns (missing: seq<string>, files: set<string>)
    requires lab.Valid()
    modifies lab
    ensures lab.OnlyRead() && lab.calls == WorkerLogsEnd(lab.oracle, old(lab.calls))
    ensures missing == WorkerLogsMissing(lab.oracle, old(lab.calls))
  {
    var logged := lab.Try();
    missing := [];
    if !logged {
      missing := missing + ["worker logs"];
    }
    var lost;
    lost, files := WriteAll(lab, lab.oracle.logs(lab.calls));
    missing := missing + lost;
  }

  method WriteWorkerReports(lab: Lab) returns (missing: seq<string>, stored: bool)
    requires lab.Valid()
    modifies lab
    ensures lab.OnlyRead() && lab.calls == old(lab.calls) + 2
    ensures missing == Unless(lab.oracle.fate(old(lab.calls)) == Done, "worker reports")
                     + Unless(lab.oracle.fate(old(lab.calls) + 1) == Done, "workers")
    ensures missing == [] ==> stored
  {
    var parsed := lab.Try();
    missing := [];
    if !parsed {
      missing := missing + ["worker reports"];
    }
    stored := lab.Try();
    if !stored {
      missing := missing + ["workers"];
    }
  }

  method CollectLogs(lab: Lab) returns (missing: seq<string>, files: set<string>)
    requires lab.Valid()
    modifies lab
    ensures lab.OnlyRead() && lab.calls == LogsEnd(lab.oracle, old(lab.calls))
    ensures missing == LogsMissing(lab.oracle, old(lab.calls))
  {
    var found := lab.Try();
    if !found {
      return ["component logs"], {};
    }
    missing, files := WriteAll(lab, lab.oracle.logs(lab.calls));
  }
}
