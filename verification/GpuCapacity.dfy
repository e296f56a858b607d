/** Free GPUs by node, and the target-relative fragmentation metric. */
module GpuCapacity {
  import opened Wrappers
  import opened ClusterObjects
  import opened Sorting

  type Free = map<string, int>

  function Max(a: int, b: int): int {
    if a < b then b else a
  }

  // ---- requests and free capacity

  function SumSeq(s: seq<int>): int {
    if s == [] then 0 else SumSeq(s[..|s| - 1]) + s[|s| - 1]
  }

  predicate IsLargest(m: int, s: seq<int>) {
    && (m == 0 || m in s)
    && 0 <= m && forall k :: 0 <= k < |s| ==> s[k] <= m
  }

  method PodGpuRequest(pod: Pod) returns (request: int)
    ensures request == Request(pod)
  {
    var regular := 0;
    for k := 0 to |pod.requests|
      invariant regular == SumSeq(pod.requests[..k])
    {
      assert pod.requests[..k + 1][..k] == pod.requests[..k];
      regular := regular + pod.requests[k];
    }
    assert pod.requests[..|pod.requests|] == pod.requests;
    var initMax := 0;
    for k := 0 to |pod.initRequests|
      invariant IsLargest(initMax, pod.initRequests[..k])
    {
      assert pod.initRequests[..k + 1] == pod.initRequests[..k] + [pod.initRequests[k]];
      if pod.initRequests[k] > initMax {
        initMax := pod.initRequests[k];
      }
    }
    assert pod.initRequests[..|pod.initRequests|] == pod.initRequests;
    LargestIsUnique(initMax, LargestOf(pod.initRequests), pod.initRequests);
    if initMax > regular {
      regular := initMax;
    }
    request := regular + pod.overhead;
  }

  function LargestOf(s: seq<int>): (m: int)
    ensures IsLargest(m, s)
  {
    if s == [] then 0
    else
      assert s == [s[0]] + s[1..];
      Max(LargestOf(s[1..]), s[0])
  }

  lemma LargestIsUnique(m: int, n: int, s: seq<int>)
    requires IsLargest(m, s) && IsLargest(n, s)
    ensures m == n
  {
  }

  /** Containers run together, init containers one at a time before them. */
  function Request(pod: Pod): int {
    Max(SumSeq(pod.requests), LargestOf(pod.initRequests)) + pod.overhead
  }

  predicate AllNonNegative(s: seq<int>) {
    forall k :: 0 <= k < |s| ==> s[k] >= 0
  }

  predicate NonNegativePod(pod: Pod) {
    AllNonNegative(pod.requests) && AllNonNegative(pod.initRequests)
  }

  lemma SumOneMore(s: seq<int>, q: int)
    ensures SumSeq([]) == 0 && SumSeq(s + [q]) == SumSeq(s) + q
  {
    assert (s + [q])[..|s|] == s;
  }

  lemma {:induction false} SumNonNegative(s: seq<int>)
    requires AllNonNegative(s)
    ensures SumSeq(s) >= 0
  {
    if s != [] {
      SumNonNegative(s[..|s| - 1]);
    }
  }

  /** Beside its overhead, enough for all containers together, and for each init container. */
  predicate Covers(pod: Pod, bound: int) {
    && pod.overhead + SumSeq(pod.requests) <= bound
    && forall k :: 0 <= k < |pod.initRequests| ==> pod.overhead + pod.initRequests[k] <= bound
  }

  /** What a pod asks for is the least that covers it. */
  lemma RequestIsLeast(pod: Pod, bound: int)
    requires NonNegativePod(pod)
    ensures Request(pod) <= bound <==> Covers(pod, bound)
  {
    SumNonNegative(pod.requests);
    var largest := LargestOf(pod.initRequests);
    if Covers(pod, bound) && largest != 0 {
      var k :| 0 <= k < |pod.initRequests| && pod.initRequests[k] == largest;
    }
  }

  /** A pod with nothing asks for its overhead; one more container adds to what a pod without init
      containers asks for; and one more init container counts only as far as it asks for more. */
  lemma RequestOneMore(pod: Pod, q: int)
    requires NonNegativePod(pod) && q >= 0
    ensures pod.requests == [] && pod.initRequests == [] ==> Request(pod) == pod.overhead
    ensures pod.initRequests == [] ==> Request(pod.(requests := pod.requests + [q])) == Request(pod) + q
    ensures Request(pod.(initRequests := pod.initRequests + [q])) == Max(Request(pod), pod.overhead + q)
  {
    SumOneMore(pod.requests, q);
    SumNonNegative(pod.requests);
    LargestOneMore(pod.initRequests, q);
  }

  lemma LargestOneMore(s: seq<int>, q: int)
    ensures LargestOf(s + [q]) == Max(LargestOf(s), Max(0, q))
  {
    var m := Max(LargestOf(s), Max(0, q));
    assert IsLargest(m, s + [q]) by {
      assert m == 0 || m in s || m == q;
    }
    LargestIsUnique(m, LargestOf(s + [q]), s + [q]);
  }

  predicate Eligible(node: Node) {
    Lookup(node.labels, GPU_NODE_LABEL) == "true"
  }

  /** Allocatable GPUs of the eligible nodes; the last of several nodes of one name counts. */
  function Allocatable(nodes: seq<Node>): Free {
    if nodes == [] then map[]
    else
      var last := nodes[|nodes| - 1];
      var before := Allocatable(nodes[..|nodes| - 1]);
      if Eligible(last) then before[last.name := last.allocatable] else before
  }

  /** A pod holds its GPUs from binding until it is done. */
  predicate Holds(pod: Pod) {
    pod.node != "" && pod.phase != Succeeded && pod.phase != FailedPhase
  }

  /** The requests of the pods holding GPUs of a node. */
  function Used(pods: seq<Pod>, node: string): int {
    if pods == [] then 0
    else
      var last := pods[|pods| - 1];
      Used(pods[..|pods| - 1], node) + if Holds(last) && last.node == node then Request(last) else 0
  }

  function Claim(free: Free, pod: Pod): Free {
    if Holds(pod) && pod.node in free then free[pod.node := Max(0, free[pod.node] - Request(pod))] else free
  }

  function ClaimAll(free: Free, pods: seq<Pod>): Free {
    if pods == [] then free else Claim(ClaimAll(free, pods[..|pods| - 1]), pods[|pods| - 1])
  }

  method FreeGPUs(nodes: seq<Node>, pods: seq<Pod>) returns (free: Free)
    ensures free == ClaimAll(Allocatable(nodes), pods)
  {
    free := map[];
    for k := 0 to |nodes|
      invariant free == Allocatable(nodes[..k])
    {
      assert nodes[..k + 1][..k] == nodes[..k];
      if Lookup(nodes[k].labels, GPU_NODE_LABEL) != "true" {
        continue;
      }
      free := free[nodes[k].name := nodes[k].allocatable];
    }
    assert nodes[..|nodes|] == nodes;
    for k := 0 to |pods|
      invariant free == ClaimAll(Allocatable(nodes), pods[..k])
    {
      assert pods[..k + 1][..k] == pods[..k];
      var pod := pods[k];
      if pod.node == "" || pod.phase == Succeeded || pod.phase == FailedPhase {
        continue;
      }
      if pod.node !in free {
        continue;
      }
      var request := PodGpuRequest(pod);
      free := free[pod.node := free[pod.node] - request];
      if free[pod.node] < 0 {
        free := free[pod.node := 0];
      }
    }
    assert pods[..|pods|] == pods;
  }

  predicate NonNegative(free: Free) {
    forall n :: n in free ==> free[n] >= 0
  }

  predicate NonNegativeRequests(pods: seq<Pod>) {
    forall p :: p in pods ==> Request(p) >= 0
  }

  /** However the clamping falls along the way, every eligible node ends up with what is left of it
      after all that is held there, or nothing when it is overcommitted. */
  lemma {:induction false} FreeClosedForm(free: Free, pods: seq<Pod>)
    requires NonNegative(free) && NonNegativeRequests(pods)
    ensures ClaimAll(free, pods).Keys == free.Keys
    ensures forall n :: n in free ==>
      ClaimAll(free, pods)[n] == Max(0, free[n] - Used(pods, n)) && 0 <= Used(pods, n)
  {
    if pods != [] {
      var rest, last := pods[..|pods| - 1], pods[|pods| - 1];
      assert last in pods && forall p :: p in rest ==> p in pods;
      FreeClosedForm(free, rest);
      ClaimOne(ClaimAll(free, rest), last);
    }
  }

  lemma ClaimOne(free: Free, pod: Pod)
    ensures Claim(free, pod).Keys == free.Keys
    ensures forall n :: n in free ==>
      Claim(free, pod)[n] == if Holds(pod) && pod.node == n then Max(0, free[n] - Request(pod)) else free[n]
  {
  }

  predicate IsEligible(nodes: seq<Node>, name: string) {
    exists n :: n in nodes && Eligible(n) && n.name == name
  }

  predicate DistinctNames(nodes: seq<Node>) {
    forall i, j :: 0 <= i < j < |nodes| ==> nodes[i].name != nodes[j].name
  }

  /** Exactly the eligible nodes of a list with distinct names, each with what it advertises. */
  lemma {:induction false} AllocatableOfEach(nodes: seq<Node>)
    requires DistinctNames(nodes)
    ensures forall n :: n in nodes && Eligible(n) ==> n.name in Allocatable(nodes) && Allocatable(nodes)[n.name] == n.allocatable
    ensures forall name :: name in Allocatable(nodes) ==> IsEligible(nodes, name)
  {
    if nodes != [] {
      var rest, last := nodes[..|nodes| - 1], nodes[|nodes| - 1];
      assert forall n :: n in nodes <==> n in rest || n == last;
      AllocatableOfEach(rest);
      forall name | name in Allocatable(nodes) ensures IsEligible(nodes, name) {
        assert (Eligible(last) && name == last.name) || IsEligible(rest, name);
      }
    }
  }

  /** Those labelled as GPU nodes are eligible. */
  lemma EligibleIff(node: Node)
    ensures Eligible(node) <==>
      "infra.example.io/gpu-node" in node.labels && node.labels["infra.example.io/gpu-node"] == "true"
  {
  }

  lemma ClaimTakes(free: Free, pod: Pod)
    ensures pod.node == "" || pod.phase == Succeeded || pod.phase == FailedPhase || pod.node !in free ==> Claim(free, pod) == free
    ensures pod.node != "" && (pod.phase == Pending || pod.phase == RunningPhase) && pod.node in free ==>
      Claim(free, pod) == free[pod.node := Max(0, free[pod.node] - Request(pod))]
  {
  }

  lemma ClaimOneMore(free: Free, pods: seq<Pod>, pod: Pod)
    ensures ClaimAll(free, pods + [pod]) == Claim(ClaimAll(free, pods), pod)
  {
    assert (pods + [pod])[..|pods|] == pods;
  }

  /** One more pod takes what it asks for from the node it is bound to, as far as there is any, unless
      it is done; an unbound pod, and one of a node that is not eligible, take nothing. */
  lemma OneMorePod(free: Free, pods: seq<Pod>, pod: Pod)
    ensures var before, after := ClaimAll(free, pods), ClaimAll(free, pods + [pod]);
      && (pod.node == "" || pod.phase == Succeeded || pod.phase == FailedPhase || pod.node !in before ==> after == before)
      && (pod.node != "" && (pod.phase == Pending || pod.phase == RunningPhase) && pod.node in before ==>
            after == before[pod.node := Max(0, before[pod.node] - Request(pod))])
  {
    ClaimOneMore(free, pods, pod);
    ClaimTakes(ClaimAll(free, pods), pod);
  }

  lemma OneContainer(pod: Pod, q: int)
    requires pod.requests == [q] && pod.initRequests == [] && pod.overhead == 0 && q >= 0
    ensures Request(pod) == q
  {
    assert [q] == [] + [q];
    SumOneMore([], q);
  }

  lemma HolderTakes(free: Free, pod: Pod, q: int)
    requires pod.requests == [q] && pod.initRequests == [] && pod.overhead == 0 && q >= 0
    requires pod.node != "" && pod.phase == RunningPhase && pod.node in free
    ensures Claim(free, pod) == free[pod.node := if q <= free[pod.node] then free[pod.node] - q else 0]
  {
    ClaimTakes(free, pod);
    OneContainer(pod, q);
  }

  /** In particular a pod of one container of q GPUs takes q. */
  lemma OneMoreHolder(free: Free, pods: seq<Pod>, pod: Pod, q: int)
    requires pod.requests == [q] && pod.initRequests == [] && pod.overhead == 0 && q >= 0
    requires pod.node != "" && pod.phase == RunningPhase && pod.node in ClaimAll(free, pods)
    ensures var before := ClaimAll(free, pods);
      ClaimAll(free, pods + [pod]) == before[pod.node := if q <= before[pod.node] then before[pod.node] - q else 0]
  {
    ClaimOneMore(free, pods, pod);
    HolderTakes(ClaimAll(free, pods), pod, q);
  }

  /** Seen from the node list: FreeGPUs tells of exactly the eligible nodes, and of each what is left
      of it after all that is held there, or nothing when it is overcommitted. */
  lemma FreeOfEachNode(nodes: seq<Node>, pods: seq<Pod>)
    requires DistinctNames(nodes) && NonNegativeRequests(pods)
    requires forall n :: n in nodes ==> n.allocatable >= 0
    ensures forall n :: n in nodes && Eligible(n) ==> HasLeft(ClaimAll(Allocatable(nodes), pods), n, pods)
    ensures forall name :: name in ClaimAll(Allocatable(nodes), pods) ==> IsEligible(nodes, name)
  {
    AllocatableOfEach(nodes);
    AllocatableNonNegative(nodes);
    FreeClosedForm(Allocatable(nodes), pods);
  }

  /** What a free map has to say about a node. */
  predicate HasLeft(free: Free, n: Node, pods: seq<Pod>) {
    n.name in free && free[n.name] == Max(0, n.allocatable - Used(pods, n.name))
  }

  /** Nodes that are not overcommitted lose nothing: free and used make up the capacity. */
  lemma FreePlusUsed(free: Free, pods: seq<Pod>, node: string)
    requires NonNegative(free) && NonNegativeRequests(pods) && node in free
    ensures node in ClaimAll(free, pods)
    ensures ClaimAll(free, pods)[node] + Used(pods, node) == free[node] <==> Used(pods, node) <= free[node]
  {
  }

  /** The GPUs of a node one pod holds. */
  function Share(pod: Pod, node: string): int {
    if Holds(pod) && pod.node == node then Request(pod) else 0
  }

  lemma UsedWithout(b: seq<Pod>, k: nat, node: string)
    requires k < |b|
    ensures var rest := b[..k] + b[k + 1..];
      && Used(b, node) == Used(rest, node) + Share(b[k], node)
      && multiset(b) == multiset(rest) + multiset{b[k]}
  {
    assert b == (b[..k] + [b[k]]) + b[k + 1..];
    UsedOfConcatenation(b[..k] + [b[k]], b[k + 1..], node);
    assert (b[..k] + [b[k]])[..k] == b[..k];
    UsedOfConcatenation(b[..k], b[k + 1..], node);
  }

  lemma {:induction false} UsedOfPermutation(a: seq<Pod>, b: seq<Pod>, node: string)
    requires multiset(a) == multiset(b)
    ensures Used(a, node) == Used(b, node)
  {
    if a == [] {
      assert |multiset(b)| == 0;
    } else {
      var init, last := a[..|a| - 1], a[|a| - 1];
      assert a == init + [last];
      assert last in multiset(b);
      var k :| 0 <= k < |b| && b[k] == last;
      UsedWithout(b, k, node);
      Cancel(multiset(init), multiset(b[..k] + b[k + 1..]), last);
      UsedOfPermutation(init, b[..k] + b[k + 1..], node);
    }
  }

  lemma Cancel<T>(a: multiset<T>, b: multiset<T>, x: T)
    requires a + multiset{x} == b + multiset{x}
    ensures a == b
  {
    assert a == (a + multiset{x}) - multiset{x};
    assert b == (b + multiset{x}) - multiset{x};
  }

  lemma {:induction false} UsedOfConcatenation(a: seq<Pod>, b: seq<Pod>, node: string)
    ensures Used(a + b, node) == Used(a, node) + Used(b, node)
  {
    if b == [] {
      assert a + b == a;
    } else {
      assert (a + b)[..|a + b| - 1] == a + b[..|b| - 1];
      UsedOfConcatenation(a, b[..|b| - 1], node);
    }
  }

  /** Free capacity does not depend on the order in which the pods are listed. */
  lemma FreeIgnoresPodOrder(free: Free, a: seq<Pod>, b: seq<Pod>)
    requires NonNegative(free) && NonNegativeRequests(a) && multiset(a) == multiset(b)
    ensures ClaimAll(free, a) == ClaimAll(free, b)
  {
    forall p | p in b
      ensures Request(p) >= 0
    {
      assert p in multiset(b);
    }
    FreeClosedForm(free, a);
    FreeClosedForm(free, b);
    forall n | n in free
      ensures Used(a, n) == Used(b, n)
    {
      UsedOfPermutation(a, b, n);
    }
  }

  /** Clamping alone keeps free capacity from going below zero. */
  lemma {:induction false} FreeStaysNonNegative(free: Free, pods: seq<Pod>)
    requires NonNegative(free)
    ensures NonNegative(ClaimAll(free, pods))
  {
    if pods != [] {
      FreeStaysNonNegative(free, pods[..|pods| - 1]);
    }
  }

  lemma {:induction false} AllocatableNonNegative(nodes: seq<Node>)
    requires forall n :: n in nodes ==> n.allocatable >= 0
    ensures NonNegative(Allocatable(nodes))
  {
    if nodes != [] {
      assert nodes[|nodes| - 1] in nodes;
      AllocatableNonNegative(nodes[..|nodes| - 1]);
    }
  }

  // ---- sums over nodes, in no particular order

  ghost function Sum(m: Free): int {
    if m == map[] then 0
    else
      var n :| n in m;
      m[n] + Sum(m - {n})
  }

  lemma {:induction false} SumAt(m: Free, n: string)
    requires n in m
    ensures Sum(m) == m[n] + Sum(m - {n})
    decreases |m|
  {
    assert m != map[];
    var first :| first in m && Sum(m) == m[first] + Sum(m - {first});
    if first != n {
      SumAt(m - {first}, n);
      SumAt(m - {n}, first);
      assert m - {first} - {n} == m - {n} - {first};
    }
  }

  lemma {:induction false} SumMonotone(a: Free, b: Free)
    requires a.Keys == b.Keys && forall n :: n in a ==> a[n] <= b[n]
    ensures Sum(a) <= Sum(b)
    decreases |a|
  {
    if a != map[] {
      var n :| n in a;
      SumAt(a, n);
      SumAt(b, n);
      SumMonotone(a - {n}, b - {n});
    }
  }

  lemma Distribute(k: int, x: int, y: int)
    ensures k * (x + y) == k * x + k * y
  {
  }

  /** Sums are linear: if every a is k times b plus c, so are their sums. */
  lemma {:induction false} SumLinear(a: Free, k: int, b: Free, c: Free)
    requires a.Keys == b.Keys == c.Keys && forall n :: n in a ==> a[n] == k * b[n] + c[n]
    ensures Sum(a) == k * Sum(b) + Sum(c)
    decreases |a|
  {
    if a == map[] {
      assert b == map[] && c == map[];
    } else {
      var n :| n in a;
      var a', b', c' := a - {n}, b - {n}, c - {n};
      SumLinear(a', k, b', c');
      SumAt(a, n);
      SumAt(b, n);
      SumAt(c, n);
      LinearStep(a[n], k, b[n], c[n], Sum(a'), Sum(b'), Sum(c'));
    }
  }

  lemma LinearStep(a: int, k: int, b: int, c: int, a': int, b': int, c': int)
    requires a == k * b + c && a' == k * b' + c'
    ensures a + a' == k * (b + b') + (c + c')
  {
  }

  lemma {:induction false} SumScaled(a: Free, k: int, b: Free)
    requires a.Keys == b.Keys && forall n :: n in a ==> a[n] == k * b[n]
    ensures Sum(a) == k * Sum(b)
  {
    var zero: Free := map n | n in a :: 0;
    SumLinear(a, k, b, zero);
    SumZero(zero);
  }

  lemma {:induction false} SumZero(m: Free)
    requires NonNegative(m)
    ensures Sum(m) >= 0
    ensures Sum(m) == 0 <==> forall n :: n in m ==> m[n] == 0
    decreases |m|
  {
    if m != map[] {
      var n :| n in m;
      SumAt(m, n);
      SumZero(m - {n});
      assert forall k :: k in m && k != n ==> k in (m - {n}) && m[k] == (m - {n})[k];
    }
  }

  // ---- fragmentation

  datatype Fragmentation = Fragmentation(
    target: int, domain: string, eligible: seq<string>, freeByNode: Free,
    totalFree: int, usableFree: int, ratio: real)

  const NO_FRAGMENTATION := Fragmentation(0, "", [], map[], 0, 0, 0.0)

  /** Integer division as Go does it. */
  function Quotient(a: int, b: int): int
    requires b > 0
  {
    if a >= 0 then a / b else -((-a) / b)
  }

  /** Whole targets a node has room for. */
  ghost function Slots(free: Free, target: int): Free
    requires target > 0
  {
    map n | n in free :: Quotient(free[n], target)
  }

  /** The part of a node's free GPUs that whole targets can use. */
  function UsableOf(available: int, target: int): int {
    if target > 0 then Quotient(available, target) * target else 0
  }

  ghost function Usable(free: Free, target: int): Free {
    map n | n in free :: UsableOf(free[n], target)
  }

  ghost function Remainders(free: Free, target: int): Free
    requires target > 0
  {
    map n | n in free :: free[n] % target
  }

  function Ratio(total: int, usable: int): real {
    if total > 0 then (total - usable) as real / total as real else 0.0
  }

  /** The ratio is the part of all that is free which no whole target can use. */
  lemma RatioIs(total: int, usable: int)
    ensures total > 0 ==> Ratio(total, usable) * total as real == (total - usable) as real
    ensures total <= 0 ==> Ratio(total, usable) == 0.0
  {
  }

  ghost predicate Measures(r: Fragmentation, free: Free, target: int) {
    && r.target == target && r.freeByNode == free
    && r.totalFree == Sum(free) && r.usableFree == Sum(Usable(free, target))
    && r.ratio == Ratio(r.totalFree, r.usableFree)
    && SortedStrings(r.eligible) && multiset(r.eligible) == multiset(free.Keys)
  }

  lemma SumWith(m: Free, n: string, v: int)
    requires n !in m
    ensures Sum(m[n := v]) == v + Sum(m)
  {
    SumAt(m[n := v], n);
    assert m[n := v] - {n} == m;
  }

  lemma UsableWith(m: Free, n: string, v: int, target: int)
    requires n !in m
    ensures Sum(Usable(m[n := v], target)) == Sum(Usable(m, target)) + UsableOf(v, target)
  {
    assert Usable(m[n := v], target) == Usable(m, target)[n := UsableOf(v, target)];
    SumWith(Usable(m, target), n, UsableOf(v, target));
  }

  lemma ListOne(seen: Free, eligible: seq<string>, node: string, v: int)
    requires multiset(eligible) == multiset(seen.Keys) && node !in seen
    ensures multiset(eligible + [node]) == multiset(seen[node := v].Keys)
  {
  }

  /** What has been accumulated over the nodes gone through so far. */
  ghost predicate Gathered(free: Free, target: int, seen: Free, eligible: seq<string>, total: int, usable: int) {
    && seen.Keys <= free.Keys && (forall n :: n in seen ==> seen[n] == free[n])
    && multiset(eligible) == multiset(seen.Keys)
    && total == Sum(seen) && usable == Sum(Usable(seen, target))
  }

  lemma GatherOne(free: Free, target: int, seen: Free, eligible: seq<string>, total: int, usable: int, node: string)
    requires Gathered(free, target, seen, eligible, total, usable) && node in free && node !in seen
    ensures Gathered(free, target, seen[node := free[node]], eligible + [node], total + free[node],
                     usable + UsableOf(free[node], target))
  {
    SumWith(seen, node, free[node]);
    UsableWith(seen, node, free[node], target);
    ListOne(seen, eligible, node, free[node]);
  }

  lemma GatheredAll(free: Free, target: int, domain: string, seen: Free, eligible: seq<string>, total: int, usable: int)
    requires Gathered(free, target, seen, eligible, total, usable) && seen.Keys == free.Keys
    ensures Measures(Fragmentation(target, domain, SortStrings(eligible), seen, total, usable, Ratio(total, usable)),
                     free, target)
  {
  }

  /** The free map is gone through in whatever order it is iterated. */
  method CalculateFragmentation(free: Free, target: int, domain: string) returns (r: Fragmentation)
    ensures Measures(r, free, target) && r.domain == domain
  {
    var eligible: seq<string>, freeByNode: Free := [], map[];
    var total, usable := 0, 0;
    var todo := free.Keys;
    while todo != {}
      invariant todo <= free.Keys && forall n :: n in free.Keys ==> (n in freeByNode <==> n !in todo)
      invariant Gathered(free, target, freeByNode, eligible, total, usable)
      decreases todo
    {
      var node :| node in todo;
      GatherOne(free, target, freeByNode, eligible, total, usable, node);
      var available := free[node];
      eligible := eligible + [node];
      freeByNode := freeByNode[node := available];
      total := total + available;
      if target > 0 {
        usable := usable + Quotient(available, target) * target;
      }
      todo := todo - {node};
    }
    GatheredAll(free, target, domain, freeByNode, eligible, total, usable);
    eligible := SortStrings(eligible);
    r := Fragmentation(target, domain, eligible, freeByNode, total, usable, Ratio(total, usable));
  }

  /** The document does not depend on the iteration order either. */
  lemma FragmentationIsDetermined(a: Fragmentation, b: Fragmentation, free: Free, target: int)
    requires Measures(a, free, target) && Measures(b, free, target) && a.domain == b.domain
    ensures a == b
  {
    SortedIsUnique(a.eligible, b.eligible);
  }

  /** An assignment of probes to nodes that fits. */
  ghost predicate Fits(share: Free, free: Free, target: int) {
    share.Keys == free.Keys && forall n :: n in free ==> 0 <= share[n] && share[n] * target <= free[n]
  }

  ghost predicate Packable(free: Free, target: int, probes: nat) {
    exists share :: Fits(share, free, target) && Sum(share) == probes
  }

  lemma UsableIsSlots(free: Free, target: int)
    requires target > 0
    ensures Sum(Usable(free, target)) == target * Sum(Slots(free, target))
  {
    SumScaled(Usable(free, target), target, Slots(free, target));
  }

  lemma SlotsBound(a: int, available: int, target: int)
    requires target > 0 && available >= 0
    ensures a * target <= available <==> a <= available / target
  {
    assert available == target * (available / target) + available % target;
    if a <= available / target {
      assert a * target <= (available / target) * target;
    } else {
      assert a * target >= (available / target + 1) * target;
    }
  }

  /** Any number up to the sum of the slots can be spread over them. */
  lemma {:induction false} Spread(slots: Free, probes: nat) returns (share: Free)
    requires NonNegative(slots) && probes <= Sum(slots)
    ensures share.Keys == slots.Keys && Sum(share) == probes
    ensures forall n :: n in slots ==> 0 <= share[n] <= slots[n]
    decreases |slots|
  {
    if slots == map[] {
      share := map[];
    } else {
      var n :| n in slots;
      var rest := slots - {n};
      SumAt(slots, n);
      SumZero(rest);
      var placed := if probes <= slots[n] then probes else slots[n];
      var others := Spread(rest, probes - placed);
      share := others[n := placed];
      SumWith(others, n, placed);
      assert forall k :: k in slots && k != n ==> k in rest && slots[k] == rest[k];
    }
  }

  lemma SlotsNonNegative(free: Free, target: int)
    requires target > 0 && NonNegative(free)
    ensures NonNegative(Slots(free, target))
  {
  }

  lemma Assign(free: Free, target: int, probes: nat) returns (share: Free)
    requires target > 0 && NonNegative(free) && probes <= Sum(Slots(free, target))
    ensures Fits(share, free, target) && Sum(share) == probes
  {
    SlotsNonNegative(free, target);
    share := Spread(Slots(free, target), probes);
    forall n | n in free
      ensures 0 <= share[n] && share[n] * target <= free[n]
    {
      SlotsBound(share[n], free[n], target);
    }
  }

  lemma PackableWithin(free: Free, target: int, share: Free)
    requires target > 0 && NonNegative(free) && Fits(share, free, target)
    ensures Sum(share) <= Sum(Slots(free, target))
  {
    forall n | n in free
      ensures share[n] <= Slots(free, target)[n]
    {
      SlotsBound(share[n], free[n], target);
    }
    SumMonotone(share, Slots(free, target));
  }

  lemma MultipleOver(m: int, q: int)
    requires m > 0
    ensures m * q / m == q
  {
    QuotientOf(m, q, 0);
  }

  /** Usable free capacity is a packing bound that is attained: so many probes of the target size
      fit the free capacity if and only if they are no more than UsableFree / target. */
  lemma PackableIff(free: Free, target: int, probes: nat)
    requires target > 0 && NonNegative(free)
    ensures Packable(free, target, probes) <==> probes <= Sum(Usable(free, target)) / target
  {
    UsableIsSlots(free, target);
    MultipleOver(target, Sum(Slots(free, target)));
    if Packable(free, target, probes) {
      var share :| Fits(share, free, target) && Sum(share) == probes;
      PackableWithin(free, target, share);
    }
    if probes <= Sum(Slots(free, target)) {
      var share := Assign(free, target, probes);
    }
  }

  /** What is not usable is the sum of what each node has beyond whole targets. */
  lemma UnusableIsRemainders(free: Free, target: int)
    requires target > 0 && NonNegative(free)
    ensures Sum(free) - Sum(Usable(free, target)) == Sum(Remainders(free, target)) >= 0
  {
    SumLinear(free, 1, Usable(free, target), Remainders(free, target));
    SumZero(Remainders(free, target));
  }

  /** Placing a probe never changes what is unusable. */
  lemma PlacingKeepsUnusable(free: Free, target: int, node: string)
    requires target > 0 && NonNegative(free) && node in free && free[node] >= target
    ensures var after := free[node := free[node] - target];
      Sum(after) - Sum(Usable(after, target)) == Sum(free) - Sum(Usable(free, target))
  {
    var after := free[node := free[node] - target];
    UnusableIsRemainders(free, target);
    UnusableIsRemainders(after, target);
    RemainderOfDifference(free[node], target);
    assert Remainders(after, target) == Remainders(free, target);
  }

  lemma RemainderOfDifference(x: int, m: int)
    requires m > 0
    ensures (x - m) % m == x % m
  {
    assert x - m == m * (x / m - 1) + x % m;
    QuotientOf(m, x / m - 1, x % m);
  }

  lemma SmallMultiple(m: int, k: int)
    requires m > 0 && -m < m * k < m
    ensures k == 0
  {
  }

  /** Quotient and remainder are unique. */
  lemma QuotientOf(m: int, q: int, r: int)
    requires 0 <= r < m
    ensures (m * q + r) / m == q && (m * q + r) % m == r
  {
    var x := m * q + r;
    Distribute(m, q, -(x / m));
    SmallMultiple(m, q - x / m);
  }

  /** The ratio is a proportion; it is 0 exactly when nothing is left over on any node, and 1
      exactly when there is free capacity and no node has room for the target. */
  lemma RatioExtremes(free: Free, target: int)
    requires target > 0 && NonNegative(free)
    ensures var ratio := Ratio(Sum(free), Sum(Usable(free, target)));
      && 0.0 <= ratio <= 1.0
      && (ratio == 0.0 <==> forall n :: n in free ==> free[n] % target == 0)
      && (ratio == 1.0 <==> Sum(free) > 0 && forall n :: n in free ==> free[n] < target)
  {
    var total, usable := Sum(free), Sum(Usable(free, target));
    UnusableIsRemainders(free, target);
    SumZero(free);
    NothingLeftOver(free, target);
    NothingUsable(free, target);
    if total == 0 {
      assert forall n :: n in free ==> free[n] == 0;
    } else {
      RatioOf(total, usable);
    }
  }

  lemma NothingLeftOver(free: Free, target: int)
    requires target > 0 && NonNegative(free)
    ensures Sum(free) == Sum(Usable(free, target)) <==> forall n :: n in free ==> free[n] % target == 0
  {
    var rest := Remainders(free, target);
    UnusableIsRemainders(free, target);
    SumZero(rest);
    assert rest.Keys == free.Keys;
    if Sum(rest) == 0 {
      forall n | n in free
        ensures free[n] % target == 0
      {
        assert rest[n] == 0;
      }
    } else {
      var n :| n in rest && rest[n] != 0;
      assert free[n] % target != 0;
    }
  }

  lemma NothingUsable(free: Free, target: int)
    requires target > 0 && NonNegative(free)
    ensures Sum(Usable(free, target)) >= 0
    ensures Sum(Usable(free, target)) == 0 <==> forall n :: n in free ==> free[n] < target
  {
    var slots := Slots(free, target);
    UsableIsSlots(free, target);
    SumZero(slots);
    forall n | n in free
      ensures slots[n] == 0 <==> free[n] < target
    {
      SlotsBound(1, free[n], target);
    }
    if Sum(slots) == 0 {
      forall n | n in free
        ensures free[n] < target
      {
        assert n in slots && slots[n] == 0;
      }
    } else {
      var n :| n in slots && slots[n] != 0;
      assert free[n] >= target;
    }
    ZeroProduct(target, Sum(slots));
  }

  lemma ZeroProduct(m: int, k: int)
    requires m > 0 && k >= 0
    ensures m * k >= 0 && (m * k == 0 <==> k == 0)
  {
  }

  lemma RatioOf(total: int, usable: int)
    requires 0 <= usable <= total && total > 0
    ensures 0.0 <= Ratio(total, usable) <= 1.0
    ensures Ratio(total, usable) == 0.0 <==> usable == total
    ensures Ratio(total, usable) == 1.0 <==> usable == 0
  {
  }
}
