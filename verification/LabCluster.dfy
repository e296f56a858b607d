/** The cluster as the benchmark uses it: a sequence of API calls, any of which may be refused, or
    take effect while its answer is lost. */
module LabCluster {
  import opened Wrappers
  import opened Topology
  import opened ClusterObjects
  import opened Results
  import opened Snapshots

  datatype Fate = Done | Refused | Lost

  /** Everything the run cannot know in advance, by the number of the call that meets it. */
  datatype Oracle = Oracle(
    fate: nat -> Fate, clock: nat -> int, stamp: int -> string, lingers: (nat, string) -> bool,
    jobSets: nat -> seq<Listed>, workloads: nat -> seq<Workload>, jobs: nat -> seq<Listed>, pods: nat -> seq<Pod>,
    nodes: nat -> seq<Node>, quota: nat -> int, logs: nat -> seq<string>)

  /** The wall clock does not run backwards, its printed form tells times apart, and nodes do not
      advertise negative capacity. */
  ghost predicate Sane(o: Oracle) {
    && (forall i, j :: 0 <= i <= j ==> 0 < o.clock(i) <= o.clock(j))
    && (forall t, u :: o.stamp(t) == o.stamp(u) ==> t == u)
    && (forall k: nat, n :: n in o.nodes(k) ==> n.allocatable >= 0)
  }

  /** Every call from one number up to another takes effect and is answered. */
  ghost predicate Answered(o: Oracle, from: nat, to: nat) {
    forall k | from <= k < to :: o.fate(k) == Done
  }

  /** The calls a procedure made from one number up to another: all answered, or all but the last,
      which was not, unless it failed for want of a free name. */
  ghost predicate Ran(o: Oracle, from: nat, to: nat, ok: bool, free: bool) {
    if ok then from <= to && Answered(o, from, to)
    else from < to && Answered(o, from, to - 1) && (o.fate(to - 1) != Done || !free)
  }

  /** A call would find no JobSet, Job or Pod of the run. */
  predicate NoDescendants(o: Oracle, k: nat) {
    o.jobSets(k) == [] && o.jobs(k) == [] && o.pods(k) == []
  }

  /** Nothing goes wrong: every call is answered, AIJobs deleted are gone by the next call, and their
      descendants are collected within the polls allowed. */
  ghost predicate Smooth(o: Oracle, attempts: nat) {
    && (forall k: nat :: o.fate(k) == Done)
    && (forall k: nat, n :: !o.lingers(k, n))
    && (forall k: nat :: Collected(o, k, attempts))
  }

  ghost predicate Collected(o: Oracle, from: nat, attempts: nat) {
    exists k :: from <= k < from + attempts && NoDescendants(o, k)
  }

  /** What Discover finds of a run; the workloads are those related to its AIJobs and JobSets. */
  datatype Discovery = Discovery(
    aijobs: set<string>, jobSets: seq<Listed>, workloads: seq<Workload>, jobs: seq<Listed>, pods: seq<Pod>,
    nodes: seq<Node>)

  function Found(o: Oracle, c: Cluster, run: string, k: nat): Discovery {
    Discovery(OfRun(c, run), o.jobSets(k), Selected(o.workloads(k), OfRun(c, run) + NamesOf(o.jobSets(k))), o.jobs(k),
              o.pods(k), o.nodes(k))
  }

  /** The five lists of the cleanup's exit test are empty exactly when no AIJob is left and no
      descendant is found: then no workload is related to anything. */
  lemma FiveListsEmptyIff(o: Oracle, c: Cluster, run: string, k: nat)
    ensures var d := Found(o, c, run, k);
      |d.aijobs| == 0 && |d.jobSets| == 0 && |d.workloads| == 0 && |d.jobs| == 0 && |d.pods| == 0
      <==> OfRun(c, run) == {} && NoDescendants(o, k)
  {
    if OfRun(c, run) == {} && NoDescendants(o, k) {
      assert OfRun(c, run) + NamesOf(o.jobSets(k)) == {};
      NothingRelatedToNoNames(o.workloads(k));
    }
  }

  /** `aijobs` maps names to run IDs; deleted AIJobs linger until they vanish. */
  datatype Cluster = Cluster(
    config: Labels, annotations: Option<Labels>, aijobs: map<string, string>, deleting: set<string>)

  /** What one call does to AIJobs being deleted: those that do not linger vanish. */
  function Faded(o: Oracle, c: Cluster, k: nat): Cluster {
    var gone := set n | n in c.deleting && !o.lingers(k, n);
    c.(aijobs := c.aijobs - gone, deleting := c.deleting - gone)
  }

  function OfRun(c: Cluster, run: string): set<string> {
    set n | n in c.aijobs && c.aijobs[n] == run
  }

  /** How a deletion is answered. */
  datatype Removal = Removed | NotFound | Unanswered

  datatype Event =
    | Deleted(name: string, run: string)
    | EvidenceStarted(run: string)
    | ResultWritten(run: string)
    | CleanupStarted(run: string)
    | RestoreStarted

  datatype Written = Written(profile: string, repetition: nat, result: Result)

  predicate Consistent(c: Cluster) {
    c.deleting <= c.aijobs.Keys
  }

  /** Seen from one run: AIJobs appear only under its ID, and those of others disappear only if they
      were being deleted already. */
  ghost predicate OnlyRun(before: Cluster, after: Cluster, run: string) {
    && Consistent(after)
    && (forall n :: n in after.aijobs ==> after.aijobs[n] == run || (n in before.aijobs && before.aijobs[n] == after.aijobs[n]))
    && (forall n :: n in before.aijobs && before.aijobs[n] != run && n !in before.deleting ==>
          n in after.aijobs && after.aijobs[n] == before.aijobs[n])
    && (forall n :: n in after.deleting ==> n in before.deleting || after.aijobs[n] == run)
  }

  /** Nothing happened to the AIJobs, but that some being deleted have vanished. */
  predicate Fades(before: Cluster, after: Cluster) {
    && Consistent(after) && after.deleting <= before.deleting
    && (forall n :: n in before.deleting && n in after.aijobs ==> n in after.deleting)
    && (forall n :: n in after.aijobs ==> n in before.aijobs && before.aijobs[n] == after.aijobs[n])
    && (forall n :: n in before.aijobs && n !in before.deleting ==> n in after.aijobs)
  }

  lemma FadingIsOnlyRun(before: Cluster, after: Cluster, run: string)
    requires Fades(before, after)
    ensures OnlyRun(before, after, run)
  {
  }

  lemma FadesCompose(a: Cluster, b: Cluster, c: Cluster)
    requires Fades(a, b) && Fades(b, c)
    ensures Fades(a, c)
  {
  }

  /** At most this name is new, and nothing that stays is deleted. */
  predicate Grows(before: Cluster, after: Cluster, name: string) {
    && after.deleting <= before.deleting
    && after.aijobs.Keys <= before.aijobs.Keys + {name}
    && (forall n :: n in before.aijobs && n !in before.deleting ==> n in after.aijobs)
  }

  /** The scheduler's configuration is as before. */
  predicate SameScheduler(before: Cluster, after: Cluster) {
    after.config == before.config && after.annotations == before.annotations
  }

  lemma OnlyRunComposes(a: Cluster, b: Cluster, c: Cluster, run: string)
    requires OnlyRun(a, b, run) && OnlyRun(b, c, run)
    ensures OnlyRun(a, c, run)
  {
  }

  class Lab {
    const oracle: Oracle
    var cluster: Cluster
    var calls: nat
    var results: seq<Written>
    ghost var events: seq<Event>

    ghost predicate Valid()
      reads this
    {
      Sane(oracle) && Consistent(cluster)
    }

    constructor (oracle: Oracle, cluster: Cluster)
      requires Sane(oracle) && Consistent(cluster)
      ensures Valid() && this.oracle == oracle && this.cluster == cluster && calls == 0 && results == [] && events == []
    {
      this.oracle, this.cluster, calls, results, events := oracle, cluster, 0, [], [];
    }

    /** Nothing was written or deleted. */
    twostate predicate OnlyRead()
      reads this
    {
      && Valid() && calls >= old(calls) && results == old(results) && events == old(events)
      && SameScheduler(old(cluster), cluster)
      && Fades(old(cluster), cluster)
    }

    /** One call: before it is answered, AIJobs being deleted may vanish. */
    method Call() returns (k: nat, fate: Fate)
      requires Valid()
      modifies this
      ensures OnlyRead() && k == old(calls) && fate == oracle.fate(k) && calls == k + 1
      ensures cluster == Faded(oracle, old(cluster), k)
    {
      k := calls;
      calls := calls + 1;
      cluster := Faded(oracle, cluster, k);
      fate := oracle.fate(k);
    }

    method Try() returns (ok: bool)
      requires Valid()
      modifies this
      ensures OnlyRead() && calls == old(calls) + 1 && (ok <==> oracle.fate(old(calls)) == Done)
    {
      var k, fate := Call();
      ok := fate == Done;
    }

    /** Reading the clock is no call: it shows the time of the next one. */
    method Now() returns (now: int)
      requires Valid()
      ensures now == oracle.clock(calls) && now > 0
    {
      now := oracle.clock(calls);
    }

    /** Fails when it is not answered, or when the name is taken. */
    method CreateAIJob(name: string, run: string) returns (ok: bool)
      requires Valid()
      modifies this
      ensures Valid() && calls == old(calls) + 1 && results == old(results) && events == old(events)
      ensures SameScheduler(old(cluster), cluster) && OnlyRun(old(cluster), cluster, run)
      ensures ok ==> name in cluster.aijobs && cluster.aijobs[name] == run && name !in cluster.deleting
      ensures Grows(old(cluster), cluster, name)
      ensures Ran(oracle, old(calls), calls, ok, name !in old(cluster.aijobs))
    {
      var k, fate := Call();
      if fate == Refused || name in cluster.aijobs {
        return false;
      }
      cluster := cluster.(aijobs := cluster.aijobs[name := run]);
      ok := fate == Done;
    }

    /** Deletes whatever AIJob has the name; the log keeps the run ID it really carried. */
    method DeleteAIJob(name: string, ghost run: string) returns (reply: Removal)
      requires Valid() && (name in cluster.aijobs ==> cluster.aijobs[name] == run)
      modifies this
      ensures Valid() && calls == old(calls) + 1 && results == old(results)
      ensures SameScheduler(old(cluster), cluster) && OnlyRun(old(cluster), cluster, run)
      ensures events == old(events) || events == old(events) + [Deleted(name, run)]
      ensures forall n :: n in cluster.aijobs ==> n in old(cluster.aijobs) && cluster.aijobs[n] == old(cluster.aijobs)[n]
      ensures forall n :: n in old(cluster.deleting) && n in cluster.aijobs ==> n in cluster.deleting
      ensures reply == Unanswered <==> oracle.fate(old(calls)) != Done
      ensures reply == Removed ==> name in cluster.deleting && events == old(events) + [Deleted(name, run)]
      ensures reply == NotFound ==> name !in cluster.aijobs
      ensures name in old(cluster.aijobs) && name !in old(cluster.deleting) ==> reply != NotFound
    {
      var k, fate := Call();
      if fate == Refused {
        return Unanswered;
      }
      reply := NotFound;
      if name in cluster.aijobs {
        events := events + [Deleted(name, cluster.aijobs[name])];
        cluster := cluster.(deleting := cluster.deleting + {name});
        reply := Removed;
      }
      if fate == Lost {
        reply := Unanswered;
      }
    }

    method ListAIJobs(run: string) returns (ok: bool, names: set<string>)
      requires Valid()
      modifies this
      ensures OnlyRead() && calls == old(calls) + 1 && (ok <==> oracle.fate(old(calls)) == Done)
      ensures names == OfRun(cluster, run)
    {
      ok := Try();
      names := OfRun(cluster, run);
    }

    /** The snapshot of one run. */
    method Discover(run: string) returns (ok: bool, found: Discovery)
      requires Valid()
      modifies this
      ensures OnlyRead() && calls == old(calls) + 1 && (ok <==> oracle.fate(old(calls)) == Done)
      ensures cluster == Faded(oracle, old(cluster), old(calls)) && found == Found(oracle, cluster, run, old(calls))
    {
      var k, fate := Call();
      ok := fate == Done;
      found := Found(oracle, cluster, run, k);
    }

    method UpdateConfig(data: Labels) returns (ok: bool)
      requires Valid()
      modifies this
      ensures Valid() && calls == old(calls) + 1 && results == old(results) && events == old(events)
      ensures cluster.annotations == old(cluster.annotations) && Fades(old(cluster), cluster)
      ensures ok ==> cluster.config == data
      ensures ok <==> oracle.fate(old(calls)) == Done
    {
      var k, fate := Call();
      if fate == Refused {
        return false;
      }
      cluster := cluster.(config := data);
      ok := fate == Done;
    }

    method UpdateAnnotations(annotations: Option<Labels>) returns (ok: bool)
      requires Valid()
      modifies this
      ensures Valid() && calls == old(calls) + 1 && results == old(results) && events == old(events)
      ensures cluster.config == old(cluster.config) && Fades(old(cluster), cluster)
      ensures ok ==> cluster.annotations == annotations
      ensures ok <==> oracle.fate(old(calls)) == Done
    {
      var k, fate := Call();
      if fate == Refused {
        return false;
      }
      cluster := cluster.(annotations := annotations);
      ok := fate == Done;
    }

    /** A result file appears whole or not at all. */
    method WriteFile(file: Written) returns (ok: bool)
      requires Valid()
      modifies this
      ensures Valid() && calls == old(calls) + 1 && (ok <==> oracle.fate(old(calls)) == Done)
      ensures SameScheduler(old(cluster), cluster) && Fades(old(cluster), cluster)
      ensures results == (if ok then old(results) + [file] else old(results))
      ensures events == (if ok then old(events) + [ResultWritten(file.result.runId)] else old(events))
    {
      ok := Try();
      if ok {
        results := results + [file];
        events := events + [ResultWritten(file.result.runId)];
      }
    }

    ghost method Note(e: Event)
      requires Valid()
      modifies this`events
      ensures Valid() && events == old(events) + [e]
    {
      events := events + [e];
    }
  }
}
