/** Run-scoped snapshots of the cluster: which workloads belong to a run, when a run is gone, and
    what its lifecycle timestamps come to. */
module Snapshots {
  import opened Wrappers
  import opened Topology
  import opened Conditions
  import opened ClusterObjects

  // ---- related workloads

  function NamesOf(objects: seq<Listed>): set<string> {
    set o | o in objects :: o.name
  }

  /** Labelled with one of the names, or owned by an object of one of them. */
  predicate Related(w: Workload, names: set<string>) {
    Lookup(w.labels, JOB_LABEL) in names || exists k :: 0 <= k < |w.owners| && w.owners[k] in names
  }

  function Selected(workloads: seq<Workload>, names: set<string>): seq<Workload> {
    if workloads == [] then []
    else
      var before, last := Selected(workloads[..|workloads| - 1], names), workloads[|workloads| - 1];
      if Related(last, names) then before + [last] else before
  }

  method OwnerNamed(owners: seq<string>, name: string) returns (found: bool)
    ensures found <==> name in owners
  {
    for k := 0 to |owners|
      invariant name !in owners[..k]
    {
      if owners[k] == name {
        return true;
      }
      assert owners[..k + 1] == owners[..k] + [owners[k]];
    }
    assert owners[..|owners|] == owners;
    found := false;
  }

  /** The names are tried in whatever order the set yields them. */
  method RelatedWorkloads(workloads: seq<Workload>, aijobs: seq<Listed>, jobSets: seq<Listed>) returns (result: seq<Workload>)
    ensures result == Selected(workloads, NamesOf(aijobs) + NamesOf(jobSets))
  {
    var names := NamesOf(aijobs) + NamesOf(jobSets);
    result := [];
    for k := 0 to |workloads|
      invariant result == Selected(workloads[..k], names)
    {
      assert workloads[..k + 1][..k] == workloads[..k];
      var w := workloads[k];
      if Lookup(w.labels, JOB_LABEL) in names {
        result := result + [w];
        continue;
      }
      var todo, owned := names, false;
      while todo != {} && !owned
        invariant todo <= names
        invariant owned ==> exists j :: 0 <= j < |w.owners| && w.owners[j] in names
        invariant !owned ==> forall j :: 0 <= j < |w.owners| ==> w.owners[j] !in names - todo
        decreases todo
      {
        var name :| name in todo;
        owned := OwnerNamed(w.owners, name);
        todo := todo - {name};
      }
      if owned {
        result := result + [w];
      }
    }
    assert workloads[..|workloads|] == workloads;
  }

  /** Exactly the workloads listed that are labelled with the name of one of the run's AIJobs or JobSets,
      or owned by an object of that name. */
  lemma {:induction false} SelectedAre(workloads: seq<Workload>, aijobs: seq<Listed>, jobSets: seq<Listed>, w: Workload)
    ensures w in Selected(workloads, NamesOf(aijobs) + NamesOf(jobSets)) <==>
      w in workloads && exists o :: (o in aijobs || o in jobSets) && (Lookup(w.labels, JOB_LABEL) == o.name || o.name in w.owners)
  {
    RelatedIff(aijobs, jobSets, w);
    if workloads != [] {
      SelectedAre(workloads[..|workloads| - 1], aijobs, jobSets, w);
      assert w in workloads <==> w in workloads[..|workloads| - 1] || w == workloads[|workloads| - 1];
    }
  }

  lemma RelatedIff(aijobs: seq<Listed>, jobSets: seq<Listed>, w: Workload)
    ensures Related(w, NamesOf(aijobs) + NamesOf(jobSets)) <==>
      exists o :: (o in aijobs || o in jobSets) && (Lookup(w.labels, JOB_LABEL) == o.name || o.name in w.owners)
  {
    var names := NamesOf(aijobs) + NamesOf(jobSets);
    if Related(w, names) {
      var name := if Lookup(w.labels, JOB_LABEL) in names then Lookup(w.labels, JOB_LABEL)
                  else var k :| 0 <= k < |w.owners| && w.owners[k] in names; w.owners[k];
      var o :| (o in aijobs || o in jobSets) && o.name == name;
    }
    forall o | (o in aijobs || o in jobSets) && (Lookup(w.labels, JOB_LABEL) == o.name || o.name in w.owners)
      ensures Related(w, names)
    {
      assert o.name in names;
    }
  }

  /** The positions a selection was taken from. */
  predicate Picks(picks: seq<nat>, workloads: seq<Workload>, names: set<string>) {
    && (forall i, j :: 0 <= i < j < |picks| ==> picks[i] < picks[j])
    && (forall i :: 0 <= i < |picks| ==> picks[i] < |workloads| && Related(workloads[picks[i]], names))
    && (forall k :: 0 <= k < |workloads| && Related(workloads[k], names) ==> k in picks)
  }

  /** The selection keeps every related workload and nothing else, in the order listed. */
  lemma {:induction false} SelectionKeepsOrder(workloads: seq<Workload>, names: set<string>) returns (picks: seq<nat>)
    ensures Picks(picks, workloads, names)
    ensures |Selected(workloads, names)| == |picks|
    ensures forall i :: 0 <= i < |picks| ==> Selected(workloads, names)[i] == workloads[picks[i]]
  {
    picks := [];
    if workloads != [] {
      var n := |workloads| - 1;
      var before := SelectionKeepsOrder(workloads[..n], names);
      picks := before;
      if Related(workloads[n], names) {
        picks := before + [n];
      }
      forall k | 0 <= k < |workloads| && Related(workloads[k], names)
        ensures k in picks
      {
        if k < n {
          assert Related(workloads[..n][k], names);
          assert k in before;
        }
      }
    }
  }

  lemma {:induction false} NothingRelatedToNoNames(workloads: seq<Workload>)
    ensures Selected(workloads, {}) == []
  {
    if workloads != [] {
      NothingRelatedToNoNames(workloads[..|workloads| - 1]);
    }
  }

  // ---- when a run is gone

  /** The snapshot's workloads are the related ones among those listed in the namespace. */
  predicate Discovered(s: Snapshot, listed: seq<Workload>) {
    s.workloads == Selected(listed, NamesOf(s.aijobs) + NamesOf(s.jobSets))
  }

  /** The exit test of benchmark cleanup. */
  predicate CleanedUp(s: Snapshot) {
    |s.aijobs| == 0 && |s.jobSets| == 0 && |s.workloads| == 0 && |s.jobs| == 0 && |s.pods| == 0
  }

  /** The exit test of the end-to-end scenario. */
  predicate DescendantsGone(s: Snapshot) {
    |s.aijobs| == 0 && |s.jobSets| == 0 && |s.jobs| == 0 && |s.pods| == 0
  }

  /** On discovered snapshots the five-part and the four-part test accept the same. */
  lemma ExitTestsAgree(s: Snapshot, listed: seq<Workload>)
    requires Discovered(s, listed)
    ensures CleanedUp(s) <==> DescendantsGone(s)
  {
    if DescendantsGone(s) {
      assert NamesOf(s.aijobs) + NamesOf(s.jobSets) == {};
      NothingRelatedToNoNames(listed);
    }
  }

  // ---- lifecycle timestamps

  datatype Lifecycle = Lifecycle(
    name: string, submittedAt: Option<int>, workloadCreatedAt: Option<int>, podCreatedAt: Option<int>,
    admittedAt: Option<int>, scheduledAt: Option<int>, terminalAt: Option<int>,
    admissionWait: Option<int>, schedulingLatency: Option<int>)

  function LastOf(cs: seq<Condition>, kinds: set<string>): Option<int> {
    if cs == [] then None
    else
      var last := cs[|cs| - 1];
      if last.kind in kinds && last.truth == True then Some(last.changed) else LastOf(cs[..|cs| - 1], kinds)
  }

  function Else(first: Option<int>, second: Option<int>): Option<int> {
    if first.Some? then first else second
  }

  predicate Matches(w: Workload, name: string) {
    Lookup(w.labels, JOB_LABEL) == name || name in w.owners
  }

  /** Creation time of the last matching workload, and the admission time of the last one that has any. */
  function LastCreated(ws: seq<Workload>, name: string): Option<int> {
    if ws == [] then None
    else if Matches(ws[|ws| - 1], name) then Some(ws[|ws| - 1].created) else LastCreated(ws[..|ws| - 1], name)
  }

  function LastAdmitted(ws: seq<Workload>, name: string): Option<int> {
    if ws == [] then None
    else
      var before := LastAdmitted(ws[..|ws| - 1], name);
      if Matches(ws[|ws| - 1], name) then Else(LastOf(ws[|ws| - 1].conditions, {"Admitted"}), before) else before
  }

  function LastSubmitted(jobs: seq<Listed>, name: string): Option<int> {
    if jobs == [] then None
    else if jobs[|jobs| - 1].name == name then Some(jobs[|jobs| - 1].created) else LastSubmitted(jobs[..|jobs| - 1], name)
  }

  function LastEnded(jobs: seq<Listed>, name: string): Option<int> {
    if jobs == [] then None
    else
      var before := LastEnded(jobs[..|jobs| - 1], name);
      if jobs[|jobs| - 1].name == name then Else(LastOf(jobs[|jobs| - 1].conditions, {"Completed", "Failed"}), before) else before
  }

  predicate PodOf(p: Pod, name: string) {
    Lookup(p.labels, JOB_LABEL) == name
  }

  predicate Binds(c: PodCondition) {
    c.kind == "PodScheduled" && c.truth == True
  }

  predicate BoundAt(p: Pod, t: int) {
    exists k :: 0 <= k < |p.conditions| && Binds(p.conditions[k]) && p.conditions[k].changed == t
  }

  /** A true minimum over the workload's pods; absent exactly when there is none. */
  ghost predicate EarliestCreated(o: Option<int>, pods: seq<Pod>, name: string) {
    && (o.None? ==> forall p :: p in pods ==> !PodOf(p, name))
    && (o.Some? ==> exists p :: p in pods && PodOf(p, name) && p.created == o.value)
    && (o.Some? ==> forall p :: p in pods && PodOf(p, name) ==> o.value <= p.created)
  }

  ghost predicate EarliestBound(o: Option<int>, pods: seq<Pod>, name: string) {
    && (o.None? ==> forall p, t :: p in pods && PodOf(p, name) ==> !BoundAt(p, t))
    && (o.Some? ==> exists p :: p in pods && PodOf(p, name) && BoundAt(p, o.value))
    && (o.Some? ==> forall p, t :: p in pods && PodOf(p, name) && BoundAt(p, t) ==> o.value <= t)
  }

  function Difference(later: Option<int>, earlier: Option<int>): Option<int> {
    if later.Some? && earlier.Some? then Some(later.value - earlier.value) else None
  }

  ghost predicate Describes(l: Lifecycle, name: string, s: Snapshot) {
    && l.name == name
    && l.submittedAt == LastSubmitted(s.aijobs, name) && l.terminalAt == LastEnded(s.aijobs, name)
    && l.workloadCreatedAt == LastCreated(s.workloads, name) && l.admittedAt == LastAdmitted(s.workloads, name)
    && EarliestCreated(l.podCreatedAt, s.pods, name) && EarliestBound(l.scheduledAt, s.pods, name)
    && l.admissionWait == Difference(l.admittedAt, l.workloadCreatedAt)
    && l.schedulingLatency == Difference(l.scheduledAt, l.podCreatedAt)
  }

  method LastTime(cs: seq<Condition>, kinds: set<string>, previous: Option<int>) returns (time: Option<int>)
    ensures time == Else(LastOf(cs, kinds), previous)
  {
    time := previous;
    for k := 0 to |cs|
      invariant time == Else(LastOf(cs[..k], kinds), previous)
    {
      assert cs[..k + 1][..k] == cs[..k];
      if cs[k].kind in kinds && cs[k].truth == True {
        time := Some(cs[k].changed);
      }
    }
    assert cs[..|cs|] == cs;
  }

  method JobTimes(jobs: seq<Listed>, name: string) returns (submitted: Option<int>, ended: Option<int>)
    ensures submitted == LastSubmitted(jobs, name) && ended == LastEnded(jobs, name)
  {
    submitted, ended := None, None;
    for k := 0 to |jobs|
      invariant submitted == LastSubmitted(jobs[..k], name) && ended == LastEnded(jobs[..k], name)
    {
      assert jobs[..k + 1][..k] == jobs[..k];
      if jobs[k].name == name {
        submitted := Some(jobs[k].created);
        ended := LastTime(jobs[k].conditions, {"Completed", "Failed"}, ended);
      }
    }
    assert jobs[..|jobs|] == jobs;
  }

  method WorkloadTimes(ws: seq<Workload>, name: string) returns (created: Option<int>, admitted: Option<int>)
    ensures created == LastCreated(ws, name) && admitted == LastAdmitted(ws, name)
  {
    created, admitted := None, None;
    for k := 0 to |ws|
      invariant created == LastCreated(ws[..k], name) && admitted == LastAdmitted(ws[..k], name)
    {
      assert ws[..k + 1][..k] == ws[..k];
      var owned := OwnerNamed(ws[k].owners, name);
      if Lookup(ws[k].labels, JOB_LABEL) != name && !owned {
        continue;
      }
      created := Some(ws[k].created);
      admitted := LastTime(ws[k].conditions, {"Admitted"}, admitted);
    }
    assert ws[..|ws|] == ws;
  }

  /** The earliest of a time and those at which the pod was bound. */
  method EarlierBinding(pod: Pod, before: Option<int>) returns (bound: Option<int>)
    ensures Earlier(pod, before, bound, |pod.conditions|)
  {
    bound := before;
    for j := 0 to |pod.conditions|
      invariant Earlier(pod, before, bound, j)
    {
      var c := pod.conditions[j];
      if c.kind == "PodScheduled" && c.truth == True {
        if bound.None? || c.changed < bound.value {
          assert BoundAt(pod, c.changed);
          bound := Some(c.changed);
        }
      }
    }
  }

  ghost predicate Earlier(pod: Pod, before: Option<int>, bound: Option<int>, count: nat)
    requires count <= |pod.conditions|
  {
    && (bound.None? ==> before.None? && forall i :: 0 <= i < count ==> !Binds(pod.conditions[i]))
    && (bound.Some? ==> bound == before || BoundAt(pod, bound.value))
    && (before.Some? ==> bound.Some? && bound.value <= before.value)
    && (bound.Some? ==> forall i :: 0 <= i < count && Binds(pod.conditions[i]) ==> bound.value <= pod.conditions[i].changed)
  }

  method PodTimes(pods: seq<Pod>, name: string) returns (created: Option<int>, bound: Option<int>)
    ensures EarliestCreated(created, pods, name) && EarliestBound(bound, pods, name)
  {
    created, bound := None, None;
    for k := 0 to |pods|
      invariant EarliestCreated(created, pods[..k], name) && EarliestBound(bound, pods[..k], name)
    {
      var pod := pods[k];
      assert pods[..k + 1] == pods[..k] + [pod];
      if Lookup(pod.labels, JOB_LABEL) != name {
        continue;
      }
      if created.None? || pod.created < created.value {
        created := Some(pod.created);
      }
      bound := EarlierBinding(pod, bound);
    }
    assert pods[..|pods|] == pods;
  }

  method LifecycleFromSnapshot(definitions: seq<string>, snapshot: Snapshot) returns (result: seq<Lifecycle>)
    ensures |result| == |definitions|
    ensures forall k :: 0 <= k < |definitions| ==> Describes(result[k], definitions[k], snapshot)
  {
    result := [];
    for k := 0 to |definitions|
      invariant |result| == k
      invariant forall j :: 0 <= j < k ==> Describes(result[j], definitions[j], snapshot)
    {
      var name := definitions[k];
      var submitted, ended := JobTimes(snapshot.aijobs, name);
      var created, admitted := WorkloadTimes(snapshot.workloads, name);
      var podCreated, bound := PodTimes(snapshot.pods, name);
      result := result + [Lifecycle(name, submitted, created, podCreated, admitted, bound, ended,
                                    Difference(admitted, created), Difference(bound, podCreated))];
    }
  }

  /** The pod minima do not depend on the order in which the pods are listed. */
  lemma PodTimesIgnoreOrder(a: Lifecycle, b: Lifecycle, name: string, s: Snapshot, t: Snapshot)
    requires Describes(a, name, s) && Describes(b, name, t) && multiset(s.pods) == multiset(t.pods)
    ensures a.podCreatedAt == b.podCreatedAt && a.scheduledAt == b.scheduledAt && a.schedulingLatency == b.schedulingLatency
  {
    forall p ensures p in s.pods <==> p in t.pods {
      assert p in multiset(s.pods) <==> p in multiset(t.pods);
    }
  }

  /** If every pod is bound no earlier than it was created, scheduling latency is not negative. */
  lemma SchedulingLatencyNotNegative(l: Lifecycle, name: string, s: Snapshot)
    requires Describes(l, name, s)
    requires forall p, t :: p in s.pods && PodOf(p, name) && BoundAt(p, t) ==> p.created <= t
    ensures l.schedulingLatency.Some? ==> l.schedulingLatency.value >= 0
    ensures l.scheduledAt.Some? ==> l.schedulingLatency.Some?
  {
  }

  // ---- what the times are, by position

  /** The last condition that is true and of one of the kinds. */
  predicate LastTrueAt(cs: seq<Condition>, kinds: set<string>, k: nat) {
    && k < |cs| && cs[k].kind in kinds && cs[k].truth == True
    && forall j | k < j < |cs| :: !(cs[j].kind in kinds && cs[j].truth == True)
  }

  lemma {:induction false} LastOfIs(cs: seq<Condition>, kinds: set<string>)
    ensures forall k: nat :: LastTrueAt(cs, kinds, k) ==> LastOf(cs, kinds) == Some(cs[k].changed)
    ensures (forall k :: 0 <= k < |cs| ==> !(cs[k].kind in kinds && cs[k].truth == True)) ==> LastOf(cs, kinds) == None
  {
    if cs != [] {
      var n := |cs| - 1;
      LastOfIs(cs[..n], kinds);
      assert forall k: nat :: k < n && LastTrueAt(cs, kinds, k) ==> LastTrueAt(cs[..n], kinds, k);
    }
  }

  /** Which objects belong to a workload by name. */
  lemma BelongIff(w: Workload, p: Pod, name: string)
    ensures Matches(w, name) <==> Lookup(w.labels, "infra.example.io/aijob") == name || name in w.owners
    ensures PodOf(p, name) <==> Lookup(p.labels, "infra.example.io/aijob") == name
    ensures forall c :: Binds(c) <==> c.kind == "PodScheduled" && c.truth == True
    ensures LastOf(w.conditions, {"Admitted"}) == AdmittedTime(w)
  {
  }

  /** An AIJob listed once was submitted when it was created, and ended when it last became Completed
      or Failed. */
  lemma {:induction false} OnlyJobTimes(jobs: seq<Listed>, name: string, j: nat)
    requires j < |jobs| && jobs[j].name == name && forall k :: 0 <= k < |jobs| && k != j ==> jobs[k].name != name
    ensures LastSubmitted(jobs, name) == Some(jobs[j].created)
    ensures LastEnded(jobs, name) == LastOf(jobs[j].conditions, {"Completed", "Failed"})
  {
    var n := |jobs| - 1;
    if j < n {
      OnlyJobTimes(jobs[..n], name, j);
    } else {
      NoJobTimes(jobs[..n], name);
    }
  }

  lemma {:induction false} NoJobTimes(jobs: seq<Listed>, name: string)
    requires forall k :: 0 <= k < |jobs| ==> jobs[k].name != name
    ensures LastSubmitted(jobs, name) == None && LastEnded(jobs, name) == None
  {
    if jobs != [] {
      NoJobTimes(jobs[..|jobs| - 1], name);
    }
  }

  /** In an orderly run, where the AIJob is listed once, the timestamps tell when it was submitted and
      when it last became Completed or Failed. */
  lemma SubmissionShows(l: Lifecycle, name: string, s: Snapshot, j: nat)
    requires Describes(l, name, s)
    requires j < |s.aijobs| && s.aijobs[j].name == name
    requires forall k :: 0 <= k < |s.aijobs| && k != j ==> s.aijobs[k].name != name
    ensures l.name == name && l.submittedAt == Some(s.aijobs[j].created)
    ensures forall k: nat :: LastTrueAt(s.aijobs[j].conditions, {"Completed", "Failed"}, k) ==>
      l.terminalAt == Some(s.aijobs[j].conditions[k].changed)
    ensures (forall c :: c in s.aijobs[j].conditions ==> !(c.kind in {"Completed", "Failed"} && c.truth == True)) ==>
      l.terminalAt == None
  {
    OnlyJobTimes(s.aijobs, name, j);
    LastOfIs(s.aijobs[j].conditions, {"Completed", "Failed"});
  }

  /** The pods' times are the earliest: of creation among the workload's pods, and of binding among the
      times at which one of them was bound. */
  lemma PodTimesShow(l: Lifecycle, name: string, s: Snapshot, p: Pod, k: nat)
    requires Describes(l, name, s) && p in s.pods && Lookup(p.labels, "infra.example.io/aijob") == name
    ensures l.podCreatedAt.Some? && l.podCreatedAt.value <= p.created
    ensures exists q :: q in s.pods && PodOf(q, name) && q.created == l.podCreatedAt.value
    ensures k < |p.conditions| && p.conditions[k].kind == "PodScheduled" && p.conditions[k].truth == True ==>
      l.scheduledAt.Some? && l.scheduledAt.value <= p.conditions[k].changed
    ensures l.scheduledAt.Some? ==> exists q :: q in s.pods && PodOf(q, name) && BoundAt(q, l.scheduledAt.value)
    ensures l.scheduledAt.Some? ==> l.schedulingLatency == Some(l.scheduledAt.value - l.podCreatedAt.value)
  {
    assert PodOf(p, name);
    if k < |p.conditions| && Binds(p.conditions[k]) {
      assert BoundAt(p, p.conditions[k].changed);
    }
  }

  function AdmittedTime(w: Workload): Option<int> {
    LastOf(w.conditions, {"Admitted"})
  }

  /** The last workload that matches, by its position. */
  predicate LastMatchAt(ws: seq<Workload>, name: string, j: nat) {
    j < |ws| && Matches(ws[j], name) && forall k | j < k < |ws| :: !Matches(ws[k], name)
  }

  /** The last of those that match and are admitted. */
  predicate LastAdmittedAt(ws: seq<Workload>, name: string, i: nat) {
    && i < |ws| && Matches(ws[i], name) && AdmittedTime(ws[i]).Some?
    && forall k | i < k < |ws| :: !(Matches(ws[k], name) && AdmittedTime(ws[k]).Some?)
  }

  lemma {:induction false} CreatedAt(ws: seq<Workload>, name: string, j: nat)
    requires LastMatchAt(ws, name, j)
    ensures LastCreated(ws, name) == Some(ws[j].created)
  {
    if j < |ws| - 1 {
      CreatedAt(ws[..|ws| - 1], name, j);
    }
  }

  lemma {:induction false} SomeMatch(ws: seq<Workload>, name: string) returns (j: nat)
    requires LastCreated(ws, name).Some?
    ensures LastMatchAt(ws, name, j)
  {
    j := |ws| - 1;
    if !Matches(ws[j], name) {
      j := SomeMatch(ws[..|ws| - 1], name);
    }
  }

  lemma {:induction false} AdmittedAt(ws: seq<Workload>, name: string, i: nat)
    requires LastAdmittedAt(ws, name, i)
    ensures LastAdmitted(ws, name) == AdmittedTime(ws[i])
  {
    if i < |ws| - 1 {
      AdmittedAt(ws[..|ws| - 1], name, i);
    }
  }

  lemma {:induction false} SomeAdmitted(ws: seq<Workload>, name: string) returns (i: nat)
    requires LastAdmitted(ws, name).Some?
    ensures LastAdmittedAt(ws, name, i)
  {
    i := |ws| - 1;
    if !(Matches(ws[i], name) && AdmittedTime(ws[i]).Some?) {
      i := SomeAdmitted(ws[..|ws| - 1], name);
    }
  }

  /** The admission wait, whatever the workloads: there is one exactly when some matching workload is
      admitted, and it runs from the creation of the last match to the last admission. */
  lemma AdmissionWaitIs(l: Lifecycle, name: string, s: Snapshot)
    requires Describes(l, name, s)
    ensures l.admissionWait.Some? <==> exists i: nat :: LastAdmittedAt(s.workloads, name, i)
    ensures forall i: nat, j: nat :: LastAdmittedAt(s.workloads, name, i) && LastMatchAt(s.workloads, name, j) ==>
      i <= j && l.admissionWait == Some(AdmittedTime(s.workloads[i]).value - s.workloads[j].created)
  {
    var ws := s.workloads;
    if l.admissionWait.Some? {
      var i := SomeAdmitted(ws, name);
    }
    forall i: nat | LastAdmittedAt(ws, name, i)
      ensures LastAdmitted(ws, name) == AdmittedTime(ws[i]) && LastCreated(ws, name).Some?
    {
      AdmittedAt(ws, name, i);
      MatchIsCreated(ws, name, i);
    }
    forall j: nat | LastMatchAt(ws, name, j)
      ensures LastCreated(ws, name) == Some(ws[j].created)
    {
      CreatedAt(ws, name, j);
    }
  }

  lemma {:induction false} MatchIsCreated(ws: seq<Workload>, name: string, i: nat)
    requires i < |ws| && Matches(ws[i], name)
    ensures LastCreated(ws, name).Some?
  {
    if i < |ws| - 1 {
      MatchIsCreated(ws[..|ws| - 1], name, i);
    }
  }

  /** The last workload admitted was admitted before the last match was created. */
  predicate AdmittedBefore(ws: seq<Workload>, name: string, i: nat, j: nat) {
    LastAdmittedAt(ws, name, i) && LastMatchAt(ws, name, j) && AdmittedTime(ws[i]).value < ws[j].created
  }

  /** The admission wait is negative exactly when the last matching workload that is admitted was so
      before the last matching workload was created. */
  lemma AdmissionWaitNegativeIff(l: Lifecycle, name: string, s: Snapshot)
    requires Describes(l, name, s)
    ensures l.admissionWait.Some? && l.admissionWait.value < 0 <==>
      exists i: nat, j: nat :: AdmittedBefore(s.workloads, name, i, j)
  {
    AdmissionWaitIs(l, name, s);
    if l.admissionWait.Some? && l.admissionWait.value < 0 {
      var i := SomeAdmitted(s.workloads, name);
      var j := SomeMatch(s.workloads, name);
      assert AdmittedBefore(s.workloads, name, i, j);
    }
  }

  /** No matching workload is admitted before it is created. */
  predicate AdmittedAfterCreation(ws: seq<Workload>, name: string) {
    forall w :: w in ws && Matches(w, name) && AdmittedTime(w).Some? ==> w.created <= AdmittedTime(w).value
  }

  /** Then a negative wait takes two matching workloads: one admitted, and a later one in the list,
      not admitted yet, that was created after that. */
  lemma NegativeWaitTakesTwo(l: Lifecycle, name: string, s: Snapshot)
    requires Describes(l, name, s) && AdmittedAfterCreation(s.workloads, name)
    ensures l.admissionWait.Some? && l.admissionWait.value < 0 <==>
      exists i: nat, j: nat :: i < j && AdmittedBefore(s.workloads, name, i, j) && AdmittedTime(s.workloads[j]).None?
  {
    AdmissionWaitNegativeIff(l, name, s);
    AdmissionWaitIs(l, name, s);
    forall i: nat, j: nat | AdmittedBefore(s.workloads, name, i, j)
      ensures i < j && AdmittedTime(s.workloads[j]).None?
    {
      assert s.workloads[i] in s.workloads;
    }
  }

  /** The last workload admitted is the last that matches. */
  ghost predicate LastMatchDecides(ws: seq<Workload>, name: string) {
    forall i: nat, j: nat :: LastAdmittedAt(ws, name, i) && LastMatchAt(ws, name, j) ==> i == j
  }

  predicate AtMostOneMatch(ws: seq<Workload>, name: string) {
    forall i, j :: 0 <= i < j < |ws| ==> !(Matches(ws[i], name) && Matches(ws[j], name))
  }

  /** In particular, admission wait is not negative when workloads are admitted no earlier than they
      are created and the admission reported is that of the last matching one, as it is when only one
      matches. */
  lemma AdmissionWaitNotNegative(l: Lifecycle, name: string, s: Snapshot)
    requires Describes(l, name, s)
    requires forall w :: w in s.workloads && Matches(w, name) && LastOf(w.conditions, {"Admitted"}).Some? ==>
      w.created <= LastOf(w.conditions, {"Admitted"}).value
    requires AtMostOneMatch(s.workloads, name) || LastMatchDecides(s.workloads, name)
    ensures l.admissionWait.Some? ==> l.admissionWait.value >= 0
  {
    NegativeWaitTakesTwo(l, name, s);
  }

  /** With two matching workloads, of which only the first is admitted yet, the wait is the first
      one's admission less the second one's creation, and may well be negative. */
  lemma TwoWorkloadsCanWaitNegatively(l: Lifecycle, name: string, s: Snapshot, first: Workload, second: Workload)
    requires Describes(l, name, s) && s.workloads == [first, second] && Matches(first, name) && Matches(second, name)
    requires LastOf(first.conditions, {"Admitted"}) == Some(first.created + 1) && second.conditions == []
    requires second.created == first.created + 10
    ensures l.admissionWait == Some(-9)
  {
    assert s.workloads[..1] == [first] && [first][..0] == [];
    assert LastAdmitted([first], name) == Some(first.created + 1);
  }
}
