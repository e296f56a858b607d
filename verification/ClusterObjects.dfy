/** The cluster objects the lab looks at, reduced to the fields it reads. */
module ClusterObjects {
  import opened Topology
  import opened Conditions

  const GPU_NODE_LABEL := "infra.example.io/gpu-node"
  const COMPLETION_INDEX_LABEL := "batch.kubernetes.io/job-completion-index"

  /** Times are whole seconds. */
  datatype PodCondition = PodCondition(kind: string, truth: Truth, reason: string, changed: int)

  datatype ContainerState =
    | NotStarted
    | Running(startedAt: int)
    | Terminated(startedAt: int, finishedAt: int, reason: string, exitCode: int)

  datatype ContainerStatus = ContainerStatus(name: string, state: ContainerState)

  datatype Phase = Pending | RunningPhase | Succeeded | FailedPhase

  /** GPU requests are listed by container; `node` is empty while the pod is unbound. */
  datatype Pod = Pod(
    name: string, labels: Labels, created: int, node: string, phase: Phase,
    requests: seq<int>, initRequests: seq<int>, overhead: int,
    conditions: seq<PodCondition>, containers: seq<ContainerStatus>)

  datatype Node = Node(name: string, labels: Labels, allocatable: int)

  datatype Workload = Workload(
    name: string, labels: Labels, owners: seq<string>, created: int, conditions: seq<Condition>)

  /** AIJobs, JobSets and Jobs, as listed by the lab. */
  datatype Listed = Listed(name: string, created: int, conditions: seq<Condition>)

  datatype Snapshot = Snapshot(
    aijobs: seq<Listed>, jobSets: seq<Listed>, workloads: seq<Workload>, jobs: seq<Listed>,
    pods: seq<Pod>, nodes: seq<Node>)
}
