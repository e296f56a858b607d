/** The labels and annotations shared by the controller, the scheduler plugin and the lab. */
module Topology {
  import opened Wrappers

  type Labels = map<string, string>

  const JOB_LABEL := "infra.example.io/aijob"
  const QUEUE_LABEL := "kueue.x-k8s.io/queue-name"
  const RUN_ID_LABEL := "infra.example.io/run-id"
  const EXPERIMENT_LABEL := "infra.example.io/experiment"
  const PREFERENCE_ANNOTATION := "infra.example.io/gpu-topology/preference"
  const REQUIRED_CLASS_ANNOTATION := "infra.example.io/gpu-topology/required-class"
  const REQUIRED_TOPOLOGY_ANNOTATION := "kueue.x-k8s.io/podset-required-topology"
  const TOPOLOGY_CLASS_LABEL := "infra.example.io/gpu-topology-class"
  const RACK_LABEL := "infra.example.io/rack"
  const NVLINK := "nvlink"
  const PCIE := "pcie"
  const NVLINK_CAPABLE := "nvlink-capable"
  const PCIE_ONLY := "pcie-only"
  const GPU_RESOURCE := "example.com/gpu"

  /** The bounded labels propagated to descendants; a label set to nothing counts as absent. */
  function LabLabelsOf(labels: Labels): Labels {
    map key | key in {RUN_ID_LABEL, EXPERIMENT_LABEL} && Lookup(labels, key) != "" :: labels[key]
  }

  method LabLabels(labels: Labels) returns (result: Labels)
    ensures result == LabLabelsOf(labels)
  {
    result := map[];
    var keys := [RUN_ID_LABEL, EXPERIMENT_LABEL];
    for index := 0 to |keys|
      invariant forall key :: key in result <==>
        key in keys[..index] && Lookup(labels, key) != ""
      invariant forall key :: key in result ==> key in labels && result[key] == labels[key]
    {
      var value := Lookup(labels, keys[index]);
      if value != "" {
        result := result[keys[index] := value];
      }
    }
    assert keys[..|keys|] == keys;
  }
}
