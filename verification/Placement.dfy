/** The benchmark's scenario for any number of nodes: identical nodes of capacity 2h, as many
    holders of h GPUs placed one after another, then a probe of 2h. The two scheduler profiles
    differ only in how the resource fit of a node is scored. */
module Placement {
  import opened Topology
  import opened JobSets
  import opened TopologyPlugin
  import opened GpuCapacity

  datatype Strategy = LeastAllocated | MostAllocated

  /** The score of a node whose free GPUs are given, once the request is added. */
  function FitScore(strategy: Strategy, capacity: int, available: int, request: int): int
    requires capacity > 0
  {
    match strategy
    case LeastAllocated => (available - request) * 100 / capacity
    case MostAllocated => (capacity - available + request) * 100 / capacity
  }

  const FIT_WEIGHT := 10
  const TOPOLOGY_WEIGHT := 5

  function TotalScore(strategy: Strategy, capacity: int, available: int, request: int, preference: string, labels: Labels): int
    requires capacity > 0
  {
    FIT_WEIGHT * FitScore(strategy, capacity, available, request) + TOPOLOGY_WEIGHT * PreferenceScore(preference, labels)
  }

  datatype Scenario = Scenario(half: int, preference: string, labels: map<string, Labels>)

  function LabelsOf(s: Scenario, node: string): Labels {
    if node in s.labels then s.labels[node] else map[]
  }

  function ScoreAt(s: Scenario, strategy: Strategy, free: Free, node: string): int
    requires s.half > 0 && node in free
  {
    TotalScore(strategy, 2 * s.half, free[node], s.half, s.preference, LabelsOf(s, node))
  }

  /** A node the scheduler may pick for a holder: one of those with room that no other outscores.
      Ties are broken in any way. */
  predicate Picks(s: Scenario, strategy: Strategy, free: Free, node: string)
    requires s.half > 0
  {
    && node in free && free[node] >= s.half
    && forall other :: other in free && free[other] >= s.half ==> ScoreAt(s, strategy, free, other) <= ScoreAt(s, strategy, free, node)
  }

  function Take(free: Free, node: string, gpus: int): Free {
    if node in free then free[node := free[node] - gpus] else free
  }

  function After(free: Free, picks: seq<string>, half: int): Free {
    if picks == [] then free else After(Take(free, picks[0], half), picks[1..], half)
  }

  predicate Schedules(s: Scenario, strategy: Strategy, free: Free, picks: seq<string>)
    requires s.half > 0
  {
    picks == [] || (Picks(s, strategy, free, picks[0]) && Schedules(s, strategy, Take(free, picks[0], s.half), picks[1..]))
  }

  function Empty(nodes: set<string>, half: int): Free {
    map n | n in nodes :: 2 * half
  }

  // ---- the topology plugin has no say

  /** The preference the plugin reads off a worker pod. */
  function PreferenceOf(core: CoreSpec): string {
    IntentOf(SchedulingAnnotations(core)).preference
  }

  ghost predicate NeverScores(preference: string) {
    forall labels: Labels :: PreferenceScore(preference, labels) == 0
  }

  /** The plugin scores every node 0, whatever its labels, exactly when the AIJob prefers neither
      NVLink nor PCIe, and so demands nothing of it. */
  lemma AnyPreferenceNeverScoresIff(core: CoreSpec)
    ensures NeverScores(PreferenceOf(core)) <==> core.preference != NVLINK && core.preference != PCIE
    ensures NeverScores(PreferenceOf(core)) <==> Demand(PreferenceOf(core)) == 0
  {
    if core.preference == NVLINK || core.preference == PCIE {
      assert PreferenceScore(PreferenceOf(core), map[TOPOLOGY_CLASS_LABEL := NVLINK_CAPABLE]) == MAX_NODE_SCORE;
    }
  }

  /** What the controller writes on the worker pods is what the plugin acts on: a node is let
      through exactly when it is as capable as the AIJob requires, and scored by what it prefers. */
  lemma TopologyReachesThePlugin(core: CoreSpec, labels: Labels)
    ensures RequirementStatus(IntentOf(SchedulingAnnotations(core)).required, labels).Ok?
            <==> Capability(labels) >= Demand(core.required)
    ensures PreferenceScore(PreferenceOf(core), labels) == PreferenceScore(core.preference, labels)
  {
  }

  // ---- what the nodes look like along the way

  /** Untouched nodes have 2h free, halved ones h, taken ones nothing. */
  predicate Levels(free: Free, half: int, untouched: set<string>, halved: set<string>, taken: set<string>) {
    && free.Keys == untouched + halved + taken
    && untouched !! halved && untouched !! taken && halved !! taken
    && (forall n :: n in untouched ==> free[n] == 2 * half)
    && (forall n :: n in halved ==> free[n] == half)
    && (forall n :: n in taken ==> free[n] == 0)
  }

  lemma FitScores(half: int)
    requires half > 0
    ensures FitScore(LeastAllocated, 2 * half, 2 * half, half) == 50
    ensures FitScore(LeastAllocated, 2 * half, half, half) == 0
    ensures FitScore(MostAllocated, 2 * half, 2 * half, half) == 50
    ensures FitScore(MostAllocated, 2 * half, half, half) == 100
  {
  }

  lemma ScoresByLevel(s: Scenario, strategy: Strategy, free: Free, untouched: set<string>, halved: set<string>, taken: set<string>)
    requires s.half > 0 && Demand(s.preference) == 0 && Levels(free, s.half, untouched, halved, taken)
    ensures forall n :: n in untouched ==> ScoreAt(s, strategy, free, n) == 500
    ensures forall n :: n in halved ==> ScoreAt(s, strategy, free, n) == if strategy == LeastAllocated then 0 else 1000
  {
    FitScores(s.half);
  }

  /** Spreading picks an untouched node while there is one. */
  lemma SpreadPick(s: Scenario, free: Free, untouched: set<string>, halved: set<string>, node: string)
    requires s.half > 0 && Demand(s.preference) == 0 && Levels(free, s.half, untouched, halved, {})
    requires untouched != {} && Picks(s, LeastAllocated, free, node)
    ensures node in untouched
    ensures Levels(Take(free, node, s.half), s.half, untouched - {node}, halved + {node}, {})
  {
    ScoresByLevel(s, LeastAllocated, free, untouched, halved, {});
    var u :| u in untouched;
    assert ScoreAt(s, LeastAllocated, free, u) <= ScoreAt(s, LeastAllocated, free, node);
  }

  lemma {:induction false} SpreadRun(s: Scenario, free: Free, untouched: set<string>, halved: set<string>, picks: seq<string>)
    returns (untouched': set<string>, halved': set<string>)
    requires s.half > 0 && Demand(s.preference) == 0 && Levels(free, s.half, untouched, halved, {})
    requires |picks| <= |untouched| && Schedules(s, LeastAllocated, free, picks)
    ensures Levels(After(free, picks, s.half), s.half, untouched', halved', {})
    ensures |untouched'| == |untouched| - |picks| && untouched' + halved' == untouched + halved
    decreases |picks|
  {
    if picks == [] {
      untouched', halved' := untouched, halved;
    } else {
      var node := picks[0];
      SpreadPick(s, free, untouched, halved, node);
      untouched', halved' := SpreadRun(s, Take(free, node, s.half), untouched - {node}, halved + {node}, picks[1..]);
      assert (untouched - {node}) + (halved + {node}) == untouched + halved;
    }
  }

  /** Packing fills a halved node first, and halves an untouched one only when there is none. */
  lemma PackPick(s: Scenario, free: Free, untouched: set<string>, halved: set<string>, taken: set<string>, node: string)
    requires s.half > 0 && Demand(s.preference) == 0 && Levels(free, s.half, untouched, halved, taken)
    requires Picks(s, MostAllocated, free, node)
    ensures if halved != {} then node in halved else node in untouched
    ensures halved != {} ==> Levels(Take(free, node, s.half), s.half, untouched, halved - {node}, taken + {node})
    ensures halved == {} ==> Levels(Take(free, node, s.half), s.half, untouched - {node}, {node}, taken)
  {
    ScoresByLevel(s, MostAllocated, free, untouched, halved, taken);
    if halved != {} {
      var u :| u in halved;
      assert ScoreAt(s, MostAllocated, free, u) <= ScoreAt(s, MostAllocated, free, node);
    }
  }

  lemma {:induction false} PackRun(s: Scenario, free: Free, untouched: set<string>, halved: set<string>, taken: set<string>, picks: seq<string>)
    returns (untouched': set<string>, halved': set<string>, taken': set<string>)
    requires s.half > 0 && Demand(s.preference) == 0 && Levels(free, s.half, untouched, halved, taken)
    requires |halved| <= 1 && Schedules(s, MostAllocated, free, picks)
    ensures Levels(After(free, picks, s.half), s.half, untouched', halved', taken')
    ensures |halved'| <= 1 && 2 * |taken'| + |halved'| == 2 * |taken| + |halved| + |picks|
    ensures |untouched'| + |halved'| + |taken'| == |untouched| + |halved| + |taken|
    decreases |picks|
  {
    if picks == [] {
      untouched', halved', taken' := untouched, halved, taken;
    } else {
      var node := picks[0];
      PackPick(s, free, untouched, halved, taken, node);
      if halved != {} {
        assert |halved - {node}| == |halved| - 1;
        untouched', halved', taken' := PackRun(s, Take(free, node, s.half), untouched, halved - {node}, taken + {node}, picks[1..]);
      } else {
        untouched', halved', taken' := PackRun(s, Take(free, node, s.half), untouched - {node}, {node}, taken, picks[1..]);
      }
    }
  }

  /** The scheduler always has a node to pick while one has room. */
  lemma {:induction false} PickExists(s: Scenario, strategy: Strategy, free: Free, candidates: set<string>) returns (node: string)
    requires s.half > 0 && candidates != {} && candidates <= free.Keys
    ensures node in candidates
    ensures forall n :: n in candidates ==> ScoreAt(s, strategy, free, n) <= ScoreAt(s, strategy, free, node)
    decreases candidates
  {
    var first :| first in candidates;
    var rest := candidates - {first};
    node := first;
    if rest != {} {
      var other := PickExists(s, strategy, free, rest);
      if ScoreAt(s, strategy, free, other) > ScoreAt(s, strategy, free, first) {
        node := other;
      }
    }
    forall n | n in candidates
      ensures ScoreAt(s, strategy, free, n) <= ScoreAt(s, strategy, free, node)
    {
      if n != first {
        assert n in rest;
      }
    }
  }

  // ---- the fragmentation that results

  ghost function Indicator(keys: set<string>, members: set<string>): Free {
    map n | n in keys :: if n in members then 1 else 0
  }

  lemma {:induction false} SumIndicator(keys: set<string>, members: set<string>)
    requires members <= keys
    ensures Sum(Indicator(keys, members)) == |members|
    decreases keys
  {
    if keys != {} {
      var n :| n in keys;
      SumAt(Indicator(keys, members), n);
      assert Indicator(keys, members) - {n} == Indicator(keys - {n}, members - {n});
      SumIndicator(keys - {n}, members - {n});
      if n !in members {
        assert members - {n} == members;
      }
    }
  }

  /** How many halves a node has free. */
  ghost function Halves(keys: set<string>, untouched: set<string>, halved: set<string>): Free {
    map n | n in keys :: if n in untouched then 2 else if n in halved then 1 else 0
  }

  lemma SumHalves(keys: set<string>, untouched: set<string>, halved: set<string>)
    requires untouched <= keys && halved <= keys && untouched !! halved
    ensures Sum(Halves(keys, untouched, halved)) == 2 * |untouched| + |halved|
  {
    SumIndicator(keys, untouched);
    SumIndicator(keys, halved);
    SumLinear(Halves(keys, untouched, halved), 2, Indicator(keys, untouched), Indicator(keys, halved));
  }

  lemma Multiples(k: int, c: int)
    requires c in {0, 1, 2}
    ensures k * c == if c == 0 then 0 else if c == 1 then k else k + k
  {
  }

  lemma LevelHalves(free: Free, half: int, untouched: set<string>, halved: set<string>, taken: set<string>)
    requires Levels(free, half, untouched, halved, taken)
    ensures forall n :: n in free ==> free[n] == half * Halves(free.Keys, untouched, halved)[n]
  {
  }

  lemma TotalOfHalves(free: Free, half: int, halves: Free, count: int)
    requires free.Keys == halves.Keys && forall n :: n in free ==> free[n] == half * halves[n]
    requires Sum(halves) == count
    ensures Sum(free) == half * count
  {
    SumScaled(free, half, halves);
  }

  lemma LevelTotal(free: Free, half: int, untouched: set<string>, halved: set<string>, taken: set<string>)
    requires Levels(free, half, untouched, halved, taken)
    ensures Sum(free) == half * (2 * |untouched| + |halved|)
  {
    SumHalves(free.Keys, untouched, halved);
    LevelHalves(free, half, untouched, halved, taken);
    TotalOfHalves(free, half, Halves(free.Keys, untouched, halved), 2 * |untouched| + |halved|);
  }

  lemma LevelUsable(free: Free, half: int, untouched: set<string>, halved: set<string>, taken: set<string>)
    requires half > 0 && Levels(free, half, untouched, halved, taken)
    ensures Sum(Usable(free, 2 * half)) == 2 * half * |untouched|
  {
    var whole := Indicator(free.Keys, untouched);
    SumIndicator(free.Keys, untouched);
    UsableByLevel(half);
    forall n | n in free
      ensures UsableOf(free[n], 2 * half) == 2 * half * whole[n]
    {
      Multiples(2 * half, whole[n]);
      assert free[n] in {0, half, 2 * half};
    }
    SumScaled(Usable(free, 2 * half), 2 * half, whole);
  }

  lemma UsableByLevel(half: int)
    requires half > 0
    ensures UsableOf(2 * half, 2 * half) == 2 * half && UsableOf(half, 2 * half) == 0 && UsableOf(0, 2 * half) == 0
  {
  }

  /** The probe fits exactly when some node is untouched. */
  lemma ProbeFits(free: Free, half: int, untouched: set<string>, halved: set<string>, taken: set<string>)
    requires half > 0 && Levels(free, half, untouched, halved, taken)
    ensures Packable(free, 2 * half, 1) <==> untouched != {}
  {
    LevelUsable(free, half, untouched, halved, taken);
    PackableIff(free, 2 * half, 1);
    MultipleOver(2 * half, |untouched|);
  }

  lemma RatioOfHalves(half: int, u: nat, h: nat)
    requires half > 0 && 2 * u + h > 0
    ensures Ratio(half * (2 * u + h), 2 * half * u) == h as real / (2 * u + h) as real
  {
  }

  lemma LevelRatio(free: Free, half: int, untouched: set<string>, halved: set<string>, taken: set<string>)
    requires half > 0 && Levels(free, half, untouched, halved, taken) && 2 * |untouched| + |halved| > 0
    ensures Ratio(Sum(free), Sum(Usable(free, 2 * half))) == |halved| as real / (2 * |untouched| + |halved|) as real
  {
    LevelTotal(free, half, untouched, halved, taken);
    LevelUsable(free, half, untouched, halved, taken);
    RatioOfHalves(half, |untouched|, |halved|);
  }

  lemma SmallProduct(a: int, b: int)
    requires a > 0 && b > 0
    ensures a * b > 0
  {
  }

  /** Releasing any one holder of an all-halved cluster makes room for the probe. */
  lemma ReleaseMakesRoom(free: Free, half: int, nodes: set<string>, released: string)
    requires half > 0 && Levels(free, half, {}, nodes, {}) && released in nodes
    ensures Packable(Take(free, released, -half), 2 * half, 1)
  {
    ProbeFits(Take(free, released, -half), half, {released}, nodes - {released}, {});
  }

  lemma SpreadingHalves(s: Scenario, nodes: set<string>, picks: seq<string>)
    requires s.half > 0 && Demand(s.preference) == 0 && |picks| == |nodes|
    requires Schedules(s, LeastAllocated, Empty(nodes, s.half), picks)
    ensures Levels(After(Empty(nodes, s.half), picks, s.half), s.half, {}, nodes, {})
    ensures After(Empty(nodes, s.half), picks, s.half) == map n | n in nodes :: s.half
  {
    var untouched, halved := SpreadRun(s, Empty(nodes, s.half), nodes, {}, picks);
    assert untouched == {} && halved == nodes;
  }

  lemma HalvedRatio(free: Free, half: int, nodes: set<string>)
    requires half > 0 && Levels(free, half, {}, nodes, {}) && |nodes| > 0
    ensures Ratio(Sum(free), Sum(Usable(free, 2 * half))) == 1.0
  {
    LevelTotal(free, half, {}, nodes, {});
    SmallProduct(half, |nodes|);
    RatioExtremes(free, 2 * half);
  }

  /** Baseline: spreading N holders over N empty nodes leaves h free on every node, all of it
      fragmented for the probe. */
  lemma SpreadingFragments(s: Scenario, nodes: set<string>, picks: seq<string>)
    requires s.half > 0 && Demand(s.preference) == 0 && |picks| == |nodes| > 0
    requires Schedules(s, LeastAllocated, Empty(nodes, s.half), picks)
    ensures var free := After(Empty(nodes, s.half), picks, s.half);
      && free == (map n | n in nodes :: s.half)
      && Ratio(Sum(free), Sum(Usable(free, 2 * s.half))) == 1.0
  {
    SpreadingHalves(s, nodes, picks);
    HalvedRatio(After(Empty(nodes, s.half), picks, s.half), s.half, nodes);
  }

  lemma HalvedBlocks(free: Free, half: int, nodes: set<string>)
    requires half > 0 && Levels(free, half, {}, nodes, {})
    ensures !Packable(free, 2 * half, 1)
  {
    ProbeFits(free, half, {}, nodes, {});
  }

  /** Then the probe fits nowhere, until any one holder is released. */
  lemma SpreadingBlocksTheProbe(s: Scenario, nodes: set<string>, picks: seq<string>, released: string)
    requires s.half > 0 && Demand(s.preference) == 0 && |picks| == |nodes| && released in nodes
    requires Schedules(s, LeastAllocated, Empty(nodes, s.half), picks)
    ensures var free := After(Empty(nodes, s.half), picks, s.half);
      && !Packable(free, 2 * s.half, 1)
      && Packable(Take(free, released, -s.half), 2 * s.half, 1)
  {
    SpreadingHalves(s, nodes, picks);
    HalvedBlocks(After(Empty(nodes, s.half), picks, s.half), s.half, nodes);
    ReleaseMakesRoom(After(Empty(nodes, s.half), picks, s.half), s.half, nodes, released);
  }

  /** The nodes nobody was placed on. */
  function Untouched(free: Free, half: int): set<string> {
    set m | m in free && free[m] == 2 * half
  }

  /** What is left when at most one node of n is half full, and n holders were placed. */
  lemma PackedLevels(free: Free, half: int, n: nat, untouched: set<string>, halved: set<string>, taken: set<string>)
    requires half > 0 && n >= 2 && Levels(free, half, untouched, halved, taken)
    requires |halved| <= 1 && 2 * |taken| + |halved| == n == |untouched| + |halved| + |taken|
    ensures untouched == Untouched(free, half) && |untouched| == n / 2
    ensures Ratio(Sum(free), Sum(Usable(free, 2 * half))) == (n % 2) as real / n as real
    ensures Packable(free, 2 * half, 1)
  {
    assert 2 * |untouched| + |halved| == n && |halved| == n % 2;
    LevelRatio(free, half, untouched, halved, taken);
    ProbeFits(free, half, untouched, halved, taken);
  }

  /** Optimized: packing N holders leaves floor(N/2) nodes untouched, a fragmentation of
      (N mod 2)/N, and room for the probe as soon as there are two nodes. */
  lemma PackingPreserves(s: Scenario, nodes: set<string>, picks: seq<string>)
    requires s.half > 0 && Demand(s.preference) == 0 && |picks| == |nodes| >= 2
    requires Schedules(s, MostAllocated, Empty(nodes, s.half), picks)
    ensures var free := After(Empty(nodes, s.half), picks, s.half); var n := |nodes|;
      && |Untouched(free, s.half)| == n / 2
      && Ratio(Sum(free), Sum(Usable(free, 2 * s.half))) == (n % 2) as real / n as real
      && Packable(free, 2 * s.half, 1)
  {
    var untouched, halved, taken := PackRun(s, Empty(nodes, s.half), nodes, {}, {}, picks);
    PackedLevels(After(Empty(nodes, s.half), picks, s.half), s.half, |nodes|, untouched, halved, taken);
  }

  /** Neither strategy gets stuck: as long as fewer holders are placed than there are nodes, the
      next one has a node to go to. */
  lemma HoldersAlwaysFit(s: Scenario, strategy: Strategy, nodes: set<string>, picks: seq<string>)
    requires s.half > 0 && Demand(s.preference) == 0 && |picks| < |nodes|
    requires Schedules(s, strategy, Empty(nodes, s.half), picks)
    ensures exists node :: Picks(s, strategy, After(Empty(nodes, s.half), picks, s.half), node)
  {
    var start := Empty(nodes, s.half);
    assert Levels(start, s.half, nodes, {}, {});
    var free := After(start, picks, s.half);
    var untouched, halved, taken;
    if strategy == LeastAllocated {
      untouched, halved := SpreadRun(s, start, nodes, {}, picks);
      taken := {};
    } else {
      untouched, halved, taken := PackRun(s, start, nodes, {}, {}, picks);
    }
    assert Levels(free, s.half, untouched, halved, taken);
    var node := PickExists(s, strategy, free, untouched + halved);
    assert forall n :: n in free && free[n] >= s.half ==> n in untouched + halved;
    assert Picks(s, strategy, free, node);
  }
}
