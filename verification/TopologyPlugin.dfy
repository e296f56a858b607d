/** The scheduler plugin: it reads the pod's wishes once before filtering and once before scoring,
    and judges every node by what it then remembers. */
module TopologyPlugin {
  import opened Wrappers
  import opened Topology

  const MAX_NODE_SCORE := 100

  datatype Intent = Intent(preference: string, required: string)

  /** What the scheduling cycle holds under the plugin's key. */
  datatype Stored = Nothing | Foreign | Remembered(intent: Intent)

  datatype Status = Ok | Unschedulable(reason: string) | Failed(reason: string)

  function IntentOf(annotations: Labels): Intent {
    Intent(Lookup(annotations, PREFERENCE_ANNOTATION), Lookup(annotations, REQUIRED_CLASS_ANNOTATION))
  }

  function ClassOf(labels: Labels): string {
    Lookup(labels, TOPOLOGY_CLASS_LABEL)
  }

  function RequirementStatus(want: string, labels: Labels): Status {
    if want == "" || want == "any" then Ok
    else if want == NVLINK then
      if ClassOf(labels) == NVLINK_CAPABLE then Ok
      else Unschedulable("requires GPU topology compatible with " + NVLINK)
    else if want == PCIE then
      if ClassOf(labels) == NVLINK_CAPABLE || ClassOf(labels) == PCIE_ONLY then Ok
      else Unschedulable("requires GPU topology compatible with " + PCIE)
    else Ok
  }

  function PreferenceScore(want: string, labels: Labels): int {
    if want == NVLINK then
      if ClassOf(labels) == NVLINK_CAPABLE then MAX_NODE_SCORE
      else if ClassOf(labels) == PCIE_ONLY then 50 else 0
    else if want == PCIE then
      if ClassOf(labels) == NVLINK_CAPABLE then MAX_NODE_SCORE
      else if ClassOf(labels) == PCIE_ONLY then 80 else 0
    else 0
  }

  /** How capable a node is: NVLink-capable nodes can do what PCIe-only nodes can. */
  function Capability(labels: Labels): nat {
    if ClassOf(labels) == NVLINK_CAPABLE then 2 else if ClassOf(labels) == PCIE_ONLY then 1 else 0
  }

  function Demand(want: string): nat {
    if want == NVLINK then 2 else if want == PCIE then 1 else 0
  }

  /** A node is let through exactly when it is at least as capable as demanded. */
  lemma RequirementIsCapability(want: string, labels: Labels)
    ensures RequirementStatus(want, labels).Ok? <==> Capability(labels) >= Demand(want)
  {
  }

  /** Scores order nodes by capability when a topology is preferred, and say nothing otherwise. */
  lemma ScoreIsCapability(want: string, a: Labels, b: Labels)
    ensures Demand(want) > 0 ==> (PreferenceScore(want, a) <= PreferenceScore(want, b) <==> Capability(a) <= Capability(b))
    ensures Demand(want) == 0 ==> PreferenceScore(want, a) == PreferenceScore(want, b) == 0
    ensures 0 <= PreferenceScore(want, a) <= MAX_NODE_SCORE
  {
  }

  /** The scores: the best for a node that can do NVLink; for one that can only do PCIe, half of it
      when NVLink is preferred and more when PCIe is; and nothing for any other node or preference. */
  lemma Scores(labels: Labels)
    ensures ClassOf(labels) == "nvlink-capable" ==> PreferenceScore("nvlink", labels) == PreferenceScore("pcie", labels) == 100
    ensures ClassOf(labels) == "pcie-only" ==> PreferenceScore("nvlink", labels) == 50 && PreferenceScore("pcie", labels) == 80
    ensures ClassOf(labels) !in {"nvlink-capable", "pcie-only"} ==>
      PreferenceScore("nvlink", labels) == PreferenceScore("pcie", labels) == 0
    ensures forall want :: want !in {"nvlink", "pcie"} ==> PreferenceScore(want, labels) == 0
    ensures ClassOf(labels) == if TOPOLOGY_CLASS_LABEL in labels then labels[TOPOLOGY_CLASS_LABEL] else ""
  {
  }

  /** What lets a node pass: nothing is asked unless NVLink or PCIe is required. */
  lemma Requirements(labels: Labels)
    ensures RequirementStatus("nvlink", labels).Ok? <==> ClassOf(labels) == "nvlink-capable"
    ensures RequirementStatus("pcie", labels).Ok? <==> ClassOf(labels) in {"nvlink-capable", "pcie-only"}
    ensures forall want :: want !in {"nvlink", "pcie"} ==> RequirementStatus(want, labels).Ok?
    ensures forall want :: !RequirementStatus(want, labels).Failed?
  {
  }

  /** What the plugin reads off a pod. */
  lemma IntentReads(annotations: Labels)
    ensures IntentOf(annotations).preference
         == if PREFERENCE_ANNOTATION in annotations then annotations[PREFERENCE_ANNOTATION] else ""
    ensures IntentOf(annotations).required
         == if REQUIRED_CLASS_ANNOTATION in annotations then annotations[REQUIRED_CLASS_ANNOTATION] else ""
  {
  }

  /** The labels counted under: known values under themselves, an absent preference as any, an absent
      class as missing, and everything else as other. */
  lemma CountedUnder(value: string)
    ensures value in {"any", "nvlink", "pcie", "same-rack"} ==> NormalPreference(value) == value
    ensures value in {"nvlink-capable", "pcie-only"} ==> NormalClass(value) == value
    ensures NormalPreference("") == "any" && NormalClass("") == "missing"
    ensures value !in {"", "any", "nvlink", "pcie", "same-rack"} ==> NormalPreference(value) == "other"
    ensures value !in {"", "nvlink-capable", "pcie-only"} ==> NormalClass(value) == "other"
  {
  }

  function NormalPreference(value: string): string {
    if value == "" || value == "any" then "any"
    else if value in {NVLINK, PCIE, "same-rack"} then value else "other"
  }

  function NormalClass(value: string): string {
    if value == "" then "missing" else if value in {NVLINK_CAPABLE, PCIE_ONLY} then value else "other"
  }

  datatype Counters = Counters(successes: nat, failures: nat, topologies: multiset<(string, string)>, missingNodes: nat)

  /** Successful evaluations and topology observations go together, as do failed ones and missing
      nodes; every observation is under one of the bounded labels. */
  ghost predicate Balanced(c: Counters) {
    && c.successes == |c.topologies| && c.failures == c.missingNodes
    && forall o :: o in c.topologies ==>
         && o.0 in {"any", NVLINK, PCIE, "same-rack", "other"}
         && o.1 in {"missing", NVLINK_CAPABLE, PCIE_ONLY, "other"}
  }

  class Metrics {
    var successes: nat
    var failures: nat
    var topologies: multiset<(string, string)>
    var missingNodes: nat

    ghost function Value(): Counters
      reads this
    {
      Counters(successes, failures, topologies, missingNodes)
    }

    constructor ()
      ensures Balanced(Value())
    {
      successes, failures, topologies, missingNodes := 0, 0, multiset{}, 0;
    }

    method ObserveScore(success: bool, preference: string, topologyClass: string)
      modifies this
      ensures Value() == if success
        then old(Value()).(successes := old(successes) + 1,
                           topologies := old(topologies) + multiset{(NormalPreference(preference), NormalClass(topologyClass))})
        else old(Value()).(failures := old(failures) + 1)
    {
      if success {
        successes := successes + 1;
        topologies := topologies + multiset{(NormalPreference(preference), NormalClass(topologyClass))};
      } else {
        failures := failures + 1;
      }
    }

    method RecordNodeMissing()
      modifies this`missingNodes
      ensures Value() == old(Value()).(missingNodes := old(missingNodes) + 1)
    {
      missingNodes := missingNodes + 1;
    }
  }

  /** One evaluation of a node, under the preference remembered. */
  function Evaluated(c: Counters, preference: string, node: Option<Labels>): Counters {
    if node.None? then c.(failures := c.failures + 1, missingNodes := c.missingNodes + 1)
    else c.(successes := c.successes + 1,
            topologies := c.topologies + multiset{(NormalPreference(preference), NormalClass(ClassOf(node.value)))})
  }

  function EvaluatedAll(c: Counters, preference: string, nodes: seq<Option<Labels>>): Counters {
    if nodes == [] then c
    else Evaluated(EvaluatedAll(c, preference, nodes[..|nodes| - 1]), preference, nodes[|nodes| - 1])
  }

  lemma {:induction false} EvaluatingKeepsBalance(c: Counters, preference: string, nodes: seq<Option<Labels>>)
    requires Balanced(c)
    ensures Balanced(EvaluatedAll(c, preference, nodes))
  {
    if nodes != [] {
      EvaluatingKeepsBalance(c, preference, nodes[..|nodes| - 1]);
    }
  }

  /** Nodes that are there are all counted as successes, whatever else is counted. */
  lemma {:induction false} PresentNodesSucceed(c: Counters, preference: string, nodes: seq<Option<Labels>>)
    requires None !in nodes
    ensures var after := EvaluatedAll(c, preference, nodes);
      after.successes == c.successes + |nodes| && after.failures == c.failures && after.missingNodes == c.missingNodes
  {
    if nodes != [] {
      PresentNodesSucceed(c, preference, nodes[..|nodes| - 1]);
    }
  }

  class CycleState {
    var stored: Stored

    constructor ()
      ensures stored == Nothing
    {
      stored := Nothing;
    }
  }

  class Plugin {
    const metrics: Metrics

    constructor (metrics: Metrics)
      ensures this.metrics == metrics
    {
      this.metrics := metrics;
    }

    method PreFilter(state: CycleState, annotations: Labels)
      modifies state
      ensures state.stored == Remembered(IntentOf(annotations))
    {
      state.stored := Remembered(IntentOf(annotations));
    }

    method PreScore(state: CycleState, annotations: Labels)
      modifies state
      ensures state.stored == Remembered(IntentOf(annotations))
    {
      state.stored := Remembered(IntentOf(annotations));
    }

    /** A node that has gone missing counts as a failed evaluation. */
    method Observe(intent: Intent, node: Option<Labels>) returns (ok: bool)
      modifies metrics
      ensures ok <==> node.Some?
      ensures metrics.Value() == Evaluated(old(metrics.Value()), intent.preference, node)
    {
      ok := node.Some?;
      if !ok {
        metrics.RecordNodeMissing();
        metrics.ObserveScore(false, intent.preference, "");
        return;
      }
      metrics.ObserveScore(true, intent.preference, ClassOf(node.value));
    }

    /** The pod's annotations at the time of the call do not matter. */
    method Filter(state: CycleState, annotationsNow: Labels, node: Option<Labels>) returns (status: Status)
      modifies metrics
      ensures status.Failed? <==> !state.stored.Remembered? || node.None?
      ensures metrics.Value() ==
        if state.stored.Remembered? then Evaluated(old(metrics.Value()), state.stored.intent.preference, node)
        else old(metrics.Value())
      ensures state.stored.Remembered? && node.Some? ==>
        status == RequirementStatus(state.stored.intent.required, node.value)
    {
      if !state.stored.Remembered? {
        return Failed("GPU topology cycle state not found or of unexpected type");
      }
      var ok := Observe(state.stored.intent, node);
      if !ok {
        return Failed("node not found");
      }
      status := RequirementStatus(state.stored.intent.required, node.value);
    }

    method Score(state: CycleState, annotationsNow: Labels, node: Option<Labels>) returns (score: int, status: Status)
      modifies metrics
      ensures !state.stored.Remembered? || node.None? ==> status.Failed? && score == 0
      ensures metrics.Value() ==
        if state.stored.Remembered? then Evaluated(old(metrics.Value()), state.stored.intent.preference, node)
        else old(metrics.Value())
      ensures state.stored.Remembered? && node.Some? ==>
        status == Ok && score == PreferenceScore(state.stored.intent.preference, node.value)
    {
      if !state.stored.Remembered? {
        return 0, Failed("GPU topology cycle state not found or of unexpected type");
      }
      var ok := Observe(state.stored.intent, node);
      if !ok {
        return 0, Failed("node not found");
      }
      return PreferenceScore(state.stored.intent.preference, node.value), Ok;
    }
  }

  datatype Choice = Chosen(node: nat) | NoFeasibleNode | CycleFailed

  /** The nodes as capable as demanded. */
  predicate LetThrough(nodes: seq<Option<Labels>>, i: nat, required: string) {
    i < |nodes| && nodes[i].Some? && Capability(nodes[i].value) >= Demand(required)
  }

  /** Of the first nodes, exactly those as capable as demanded, in order. */
  ghost predicate Filtered(nodes: seq<Option<Labels>>, count: nat, required: string, feasible: seq<nat>) {
    Ascending(feasible) && forall i: nat :: i in feasible <==> i < count && LetThrough(nodes, i, required)
  }

  lemma FilteredOneMore(nodes: seq<Option<Labels>>, count: nat, required: string, feasible: seq<nat>)
    requires count < |nodes| && nodes[count].Some? && Filtered(nodes, count, required, feasible)
    ensures Filtered(nodes, count + 1, required,
                     if RequirementStatus(required, nodes[count].value) == Ok then feasible + [count] else feasible)
  {
    RequirementIsCapability(required, nodes[count].value);
    AscendingOneMore(feasible, count);
  }

  /** No node among the first of those chosen scores more. */
  predicate AtMost(nodes: seq<Option<Labels>>, chosen: seq<nat>, count: nat, want: string, score: int)
    requires AllPresent(nodes, chosen) && count <= |chosen|
  {
    forall j :: 0 <= j < count ==> (assert chosen[j] in chosen; PreferenceScore(want, nodes[chosen[j]].value) <= score)
  }

  lemma AtMostOneMore(nodes: seq<Option<Labels>>, chosen: seq<nat>, count: nat, want: string, score: int, next: int)
    requires AllPresent(nodes, chosen) && count < |chosen| && AtMost(nodes, chosen, count, want, score) && score <= next
    requires chosen[count] in chosen && PreferenceScore(want, nodes[chosen[count]].value) <= next
    ensures AtMost(nodes, chosen, count + 1, want, next)
  {
  }

  predicate AllPresent(nodes: seq<Option<Labels>>, chosen: seq<nat>) {
    forall i :: i in chosen ==> i < |nodes| && nodes[i].Some?
  }

  predicate PresentUpTo(nodes: seq<Option<Labels>>, count: nat) {
    count <= |nodes| && forall k :: 0 <= k < count ==> nodes[k].Some?
  }

  lemma PresentOneMore(nodes: seq<Option<Labels>>, count: nat)
    requires count < |nodes| && PresentUpTo(nodes, count) && nodes[count].Some?
    ensures PresentUpTo(nodes, count + 1)
  {
  }

  lemma AllThere(nodes: seq<Option<Labels>>)
    requires PresentUpTo(nodes, |nodes|)
    ensures None !in nodes && nodes[..|nodes|] == nodes
  {
  }

  /** Up to the first node that is missing, inclusive. */
  function Reached(nodes: seq<Option<Labels>>): (asked: seq<Option<Labels>>)
    ensures None !in nodes ==> asked == nodes
    ensures None in nodes ==> asked != [] && asked <= nodes && asked[|asked| - 1] == None && None !in asked[..|asked| - 1]
  {
    if nodes == [] then []
    else if nodes[0].None? then nodes[..1]
    else
      assert None in nodes ==> None in nodes[1..];
      [nodes[0]] + Reached(nodes[1..])
  }

  lemma {:induction false} ReachedPrefix(nodes: seq<Option<Labels>>, i: nat)
    requires i < |nodes| && nodes[i].None? && PresentUpTo(nodes, i)
    ensures None in nodes && Reached(nodes) == nodes[..i + 1]
  {
    if i > 0 {
      ReachedPrefix(nodes[1..], i - 1);
      assert nodes[..i + 1] == [nodes[0]] + nodes[1..][..i];
    }
  }

  lemma EvaluatedOneMore(c: Counters, preference: string, nodes: seq<Option<Labels>>, i: nat)
    requires i < |nodes|
    ensures EvaluatedAll(c, preference, nodes[..i + 1])
         == Evaluated(EvaluatedAll(c, preference, nodes[..i]), preference, nodes[i])
  {
    assert nodes[..i + 1][..i] == nodes[..i];
  }

  function Picked(nodes: seq<Option<Labels>>, chosen: seq<nat>): seq<Option<Labels>>
    requires AllPresent(nodes, chosen)
  {
    seq(|chosen|, k requires 0 <= k < |chosen| => assert chosen[k] in chosen; nodes[chosen[k]])
  }

  predicate Ascending(chosen: seq<nat>) {
    forall j, k :: 0 <= j < k < |chosen| ==> chosen[j] < chosen[k]
  }

  /** The filter half of a cycle: every node is put to the plugin, until one is missing. */
  method FilterAll(plugin: Plugin, state: CycleState, annotations: nat -> Labels, nodes: seq<Option<Labels>>)
    returns (failed: bool, feasible: seq<nat>)
    requires state.stored.Remembered?
    modifies plugin.metrics
    ensures plugin.metrics.Value() == EvaluatedAll(old(plugin.metrics.Value()), state.stored.intent.preference, Reached(nodes))
    ensures failed <==> None in nodes
    ensures !failed ==> Filtered(nodes, |nodes|, state.stored.intent.required, feasible)
  {
    failed, feasible := false, [];
    ghost var intent, before := state.stored.intent, plugin.metrics.Value();
    for i := 0 to |nodes|
      invariant plugin.metrics.Value() == EvaluatedAll(before, intent.preference, nodes[..i])
      invariant PresentUpTo(nodes, i) && Filtered(nodes, i, intent.required, feasible)
    {
      EvaluatedOneMore(before, intent.preference, nodes, i);
      var status := plugin.Filter(state, annotations(i + 1), nodes[i]);
      if status.Failed? {
        ReachedPrefix(nodes, i);
        return true, [];
      }
      PresentOneMore(nodes, i);
      FilteredOneMore(nodes, i, intent.required, feasible);
      if status.Ok? {
        feasible := feasible + [i];
      }
    }
    AllThere(nodes);
  }

  lemma AscendingOneMore(chosen: seq<nat>, i: nat)
    requires Ascending(chosen) && forall k :: k in chosen ==> k < i
    ensures Ascending(chosen + [i])
  {
    forall j | 0 <= j < |chosen| ensures chosen[j] < i {
      assert chosen[j] in chosen;
    }
  }

  /** The score half: the first node of the highest score. */
  method ScoreAll(plugin: Plugin, state: CycleState, annotations: nat -> Labels, nodes: seq<Option<Labels>>, feasible: seq<nat>)
    returns (best: nat)
    requires state.stored.Remembered? && feasible != [] && AllPresent(nodes, feasible)
    modifies plugin.metrics
    ensures plugin.metrics.Value()
         == EvaluatedAll(old(plugin.metrics.Value()), state.stored.intent.preference, Picked(nodes, feasible))
    ensures best in feasible
    ensures AtMost(nodes, feasible, |feasible|, state.stored.intent.preference,
                   PreferenceScore(state.stored.intent.preference, nodes[best].value))
  {
    ghost var want, scored := state.stored.intent.preference, Picked(nodes, feasible);
    best := feasible[0];
    var bestScore := -1;
    for k := 0 to |feasible|
      invariant plugin.metrics.Value() == EvaluatedAll(old(plugin.metrics.Value()), want, scored[..k])
      invariant best in feasible
      invariant if k == 0 then bestScore == -1 else bestScore == PreferenceScore(want, nodes[best].value)
      invariant AtMost(nodes, feasible, k, want, bestScore)
    {
      assert feasible[k] in feasible;
      EvaluatedOneMore(old(plugin.metrics.Value()), want, scored, k);
      var score, status := plugin.Score(state, annotations(|nodes| + 2 + k), nodes[feasible[k]]);
      ScoreIsCapability(want, nodes[feasible[k]].value, nodes[feasible[k]].value);
      AtMostOneMore(nodes, feasible, k, want, bestScore, if score > bestScore then score else bestScore);
      if score > bestScore {
        best, bestScore := feasible[k], score;
      }
    }
    assert scored[..|feasible|] == scored;
  }

  /** What a cycle counts: an evaluation of each node up to the first missing one, and of each node
      let through if all are there. */
  function CycleCounts(c: Counters, filtering: string, scoring: string, nodes: seq<Option<Labels>>, feasible: seq<nat>): Counters
    requires AllPresent(nodes, feasible)
  {
    EvaluatedAll(EvaluatedAll(c, filtering, Reached(nodes)), scoring, Picked(nodes, feasible))
  }

  /** In figures: every evaluation of a node that is there is one success, and a cycle that fails has
      one failure, over the one node it found missing. */
  lemma CycleFigures(c: Counters, filtering: string, scoring: string, nodes: seq<Option<Labels>>, feasible: seq<nat>)
    requires AllPresent(nodes, feasible) && (None in nodes ==> feasible == [])
    ensures var after := CycleCounts(c, filtering, scoring, nodes, feasible);
      && (Balanced(c) ==> Balanced(after))
      && (None !in nodes ==>
            after.successes == c.successes + |nodes| + |feasible|
            && after.failures == c.failures && after.missingNodes == c.missingNodes)
      && (None in nodes ==>
            after.successes == c.successes + |Reached(nodes)| - 1
            && after.failures == c.failures + 1 && after.missingNodes == c.missingNodes + 1)
  {
    var middle := EvaluatedAll(c, filtering, Reached(nodes));
    if Balanced(c) {
      EvaluatingKeepsBalance(c, filtering, Reached(nodes));
      EvaluatingKeepsBalance(middle, scoring, Picked(nodes, feasible));
    }
    PresentNodesSucceed(middle, scoring, Picked(nodes, feasible));
    if None in nodes {
      PresentNodesSucceed(c, filtering, Reached(nodes)[..|Reached(nodes)| - 1]);
    } else {
      PresentNodesSucceed(c, filtering, nodes);
    }
  }

  /** One scheduling cycle over the plugin, as the framework drives it. The pod's annotations may be
      different at every call. The nodes let through are exactly those as capable as demanded before
      filtering, and no node let through is more capable than the one chosen when a topology was
      preferred before scoring; a missing node fails the cycle; and every evaluation is counted,
      under the preference remembered for it. */
  method SchedulingCycle(plugin: Plugin, annotations: nat -> Labels, nodes: seq<Option<Labels>>)
    returns (choice: Choice, feasible: seq<nat>)
    modifies plugin.metrics
    ensures choice.CycleFailed? <==> None in nodes
    ensures choice.CycleFailed? || choice.NoFeasibleNode? ==> feasible == []
    ensures !choice.CycleFailed? ==>
      Filtered(nodes, |nodes|, IntentOf(annotations(0)).required, feasible)
    ensures AllPresent(nodes, feasible)
    ensures plugin.metrics.Value() == CycleCounts(old(plugin.metrics.Value()), IntentOf(annotations(0)).preference,
                                                  IntentOf(annotations(|nodes| + 1)).preference, nodes, feasible)
    ensures old(Balanced(plugin.metrics.Value())) ==> Balanced(plugin.metrics.Value())
    ensures choice.Chosen? ==>
      && choice.node in feasible
      && (Demand(IntentOf(annotations(|nodes| + 1)).preference) > 0 ==>
            forall i :: i in feasible ==> Capability(nodes[i].value) <= Capability(nodes[choice.node].value))
  {
    var state := new CycleState();
    plugin.PreFilter(state, annotations(0));
    var failed;
    failed, feasible := FilterAll(plugin, state, annotations, nodes);
    if failed {
      feasible := [];
    }
    CycleFigures(old(plugin.metrics.Value()), IntentOf(annotations(0)).preference,
                 IntentOf(annotations(|nodes| + 1)).preference, nodes, feasible);
    if failed {
      return CycleFailed, feasible;
    }
    if feasible == [] {
      return NoFeasibleNode, feasible;
    }
    plugin.PreScore(state, annotations(|nodes| + 1));
    var best := ScoreAll(plugin, state, annotations, nodes, feasible);
    forall i | i in feasible && Demand(IntentOf(annotations(|nodes| + 1)).preference) > 0
      ensures Capability(nodes[i].value) <= Capability(nodes[best].value)
    {
      var j :| 0 <= j < |feasible| && feasible[j] == i;
      ScoreIsCapability(IntentOf(annotations(|nodes| + 1)).preference, nodes[i].value, nodes[best].value);
    }
    choice := Chosen(best);
  }
}
