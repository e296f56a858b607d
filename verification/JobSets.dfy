/** AIJobs, the JobSet each one wants, and the fields of an existing JobSet the controller owns. */
module JobSets {
  import opened Wrappers
  import opened Topology
  import opened Conditions

  const DEFAULT_QUEUE := "training"
  const SCHEDULER_NAME := "ai-scheduler"
  const DEFAULT_IMAGE := "ai-infra-lab:dev"

  type Policy = string

  /** The part of an AIJob's spec the API keeps immutable. */
  datatype CoreSpec = CoreSpec(
    workers: int, gpuPerWorker: int, gpuResource: string, queueName: string,
    preference: string, required: string, image: string, args: seq<string>)

  datatype Overrides = Overrides(failurePolicy: Option<Policy>, successPolicy: Option<Policy>, suspend: bool)

  datatype AIJob = AIJob(
    name: string, uid: nat, version: nat, generation: int, labels: Labels,
    core: CoreSpec, overrides: Option<Overrides>, status: Status)

  datatype Workers = Workers(
    jobLabels: Labels, podLabels: Labels, annotations: Labels, schedulerName: string,
    parallelism: int, completions: int, image: string, args: seq<string>,
    gpuResource: string, gpus: int)

  datatype JobSetSpec = JobSetSpec(
    replicatedJobs: seq<Workers>, dnsHostnames: Option<bool>,
    failurePolicy: Option<Policy>, successPolicy: Option<Policy>, suspend: Option<bool>)

  /** `created` says whether the object has a creation timestamp; `controller` is the UID of the
      controlling owner; `rest` is everything else in the metadata. */
  datatype JobSet = JobSet(
    uid: nat, version: nat, created: bool, controller: Option<nat>, rest: string,
    labels: Labels, spec: JobSetSpec, conditions: seq<Condition>)

  const EMPTY_SPEC := JobSetSpec([], None, None, None, None)
  const BLANK := JobSet(0, 0, false, None, "", map[], EMPTY_SPEC, [])

  function SelectedQueue(name: string): string {
    if name == "" then DEFAULT_QUEUE else name
  }

  function SchedulingAnnotations(core: CoreSpec): Labels {
    (if core.preference == NVLINK || core.preference == PCIE
     then map[PREFERENCE_ANNOTATION := core.preference] else map[])
    + (if core.required == "same-rack" then map[REQUIRED_TOPOLOGY_ANNOTATION := RACK_LABEL]
       else if core.required == NVLINK || core.required == PCIE
       then map[REQUIRED_CLASS_ANNOTATION := core.required] else map[])
  }

  function WorkersOf(name: string, labels: Labels, core: CoreSpec): Workers {
    Workers(LabLabelsOf(labels), LabLabelsOf(labels)[JOB_LABEL := name], SchedulingAnnotations(core), SCHEDULER_NAME,
            core.workers, core.workers, if core.image == "" then DEFAULT_IMAGE else core.image, core.args,
            if core.gpuResource == "" then GPU_RESOURCE else core.gpuResource, core.gpuPerWorker)
  }

  function DesiredLabels(job: AIJob): Labels {
    LabLabelsOf(job.labels)[JOB_LABEL := job.name][QUEUE_LABEL := SelectedQueue(job.core.queueName)]
  }

  function Desired(job: AIJob): JobSet {
    var spec := EMPTY_SPEC.(replicatedJobs := [WorkersOf(job.name, job.labels, job.core)], dnsHostnames := Some(true));
    BLANK.(labels := DesiredLabels(job),
           spec := if job.overrides.None? then spec
                   else spec.(failurePolicy := job.overrides.value.failurePolicy,
                              successPolicy := job.overrides.value.successPolicy,
                              suspend := Some(job.overrides.value.suspend)))
  }

  const OPTIONAL_KEYS := [RUN_ID_LABEL, EXPERIMENT_LABEL, QUEUE_LABEL]

  predicate IsOwned(key: string) {
    key == JOB_LABEL || key in OPTIONAL_KEYS
  }

  /** What a desired label map asks for an owned key: a value, or absence. */
  function Wanted(desired: Labels, key: string): Option<string> {
    if key == JOB_LABEL then Some(Lookup(desired, key))
    else if Lookup(desired, key) != "" then Some(desired[key])
    else None
  }

  function At(m: Labels, key: string): Option<string> {
    if key in m then Some(m[key]) else None
  }

  function OwnedLabels(actual: Labels, desired: Labels): Labels {
    map key | key in actual.Keys + {JOB_LABEL} + (set k | k in OPTIONAL_KEYS)
      && (IsOwned(key) ==> Wanted(desired, key).Some?)
      :: if IsOwned(key) then Wanted(desired, key).value else actual[key]
  }

  function OwnedSpec(actual: JobSetSpec, desired: JobSetSpec, created: bool): JobSetSpec {
    var spec := if desired.suspend.Some? then actual.(suspend := desired.suspend) else actual;
    if created then spec
    else spec.(replicatedJobs := desired.replicatedJobs, dnsHostnames := desired.dnsHostnames,
               failurePolicy := desired.failurePolicy, successPolicy := desired.successPolicy)
  }

  function OwnedFields(actual: JobSet, desired: JobSet): JobSet {
    actual.(labels := OwnedLabels(actual.labels, desired.labels),
            spec := OwnedSpec(actual.spec, desired.spec, actual.created))
  }

  /** A JobSet under construction in the controller's memory. */
  class JobSetObject {
    const uid: nat
    const version: nat
    const created: bool
    const rest: string
    var controller: Option<nat>
    var labels: Labels
    var spec: JobSetSpec
    const conditions: seq<Condition>

    ghost function Value(): JobSet
      reads this
    {
      JobSet(uid, version, created, controller, rest, labels, spec, conditions)
    }

    constructor (value: JobSet)
      ensures Value() == value
    {
      uid, version, created, rest := value.uid, value.version, value.created, value.rest;
      controller, labels, spec, conditions := value.controller, value.labels, value.spec, value.conditions;
    }

    method Read() returns (value: JobSet)
      ensures value == Value()
    {
      value := JobSet(uid, version, created, controller, rest, labels, spec, conditions);
    }

    /** Refuses when another UID already controls the object. */
    method SetControllerReference(owner: nat) returns (ok: bool)
      modifies this`controller
      ensures ok <==> old(controller) in {None, Some(owner)}
      ensures Value() == if ok then old(Value()).(controller := Some(owner)) else old(Value())
    {
      ok := controller == None || controller == Some(owner);
      if ok {
        controller := Some(owner);
      }
    }

    method ReconcileOwnedFields(desired: JobSet)
      modifies this`labels, this`spec
      ensures Value() == OwnedFields(old(Value()), desired)
    {
      labels := labels[JOB_LABEL := Lookup(desired.labels, JOB_LABEL)];
      var keys := OPTIONAL_KEYS;
      for index := 0 to |keys|
        invariant spec == old(spec) && controller == old(controller)
        invariant forall key ::
          At(labels, key) == (if key == JOB_LABEL || key in keys[..index] then Wanted(desired.labels, key)
                              else At(old(labels), key))
      {
        var key := keys[index];
        var value := Lookup(desired.labels, key);
        ghost var before := labels;
        if value != "" {
          labels := labels[key := value];
        } else {
          labels := labels - {key};
        }
        assert keys[..index + 1] == keys[..index] + [key];
        forall k
          ensures At(labels, k) == if k == key then Wanted(desired.labels, k) else At(before, k)
        {
        }
      }
      assert keys[..|keys|] == keys;
      SameLabels(labels, OwnedLabels(old(labels), desired.labels)) by {
        forall key ensures At(labels, key) == At(OwnedLabels(old(labels), desired.labels), key) {
          OwnedLabelAt(old(labels), desired.labels, key);
        }
      }
      if desired.spec.suspend.Some? {
        spec := spec.(suspend := desired.spec.suspend);
      }
      if !created {
        spec := spec.(replicatedJobs := desired.spec.replicatedJobs);
        spec := spec.(dnsHostnames := desired.spec.dnsHostnames);
        spec := spec.(failurePolicy := desired.spec.failurePolicy);
        spec := spec.(successPolicy := desired.spec.successPolicy);
      }
    }
  }

  lemma SameLabels(a: Labels, b: Labels)
    requires forall key :: At(a, key) == At(b, key)
    ensures a == b
  {
    forall key ensures key in a <==> key in b { assert At(a, key) == At(b, key); }
    forall key | key in a ensures a[key] == b[key] { assert At(a, key) == At(b, key); }
  }

  /** An owned key takes what is desired; any other keeps what it had. */
  lemma OwnedLabelAt(actual: Labels, desired: Labels, key: string)
    ensures At(OwnedLabels(actual, desired), key) == if IsOwned(key) then Wanted(desired, key) else At(actual, key)
  {
  }

  /** What the desired JobSet asks of each owned label. */
  lemma DesiredLabelAt(job: AIJob, key: string)
    requires IsOwned(key)
    ensures Wanted(DesiredLabels(job), key) ==
      if key == JOB_LABEL then Some(job.name)
      else if key == QUEUE_LABEL then Some(SelectedQueue(job.core.queueName))
      else if Lookup(job.labels, key) != "" then Some(job.labels[key]) else None
  {
  }

  /** The view of a JobSet through which the controller writes: its four labels, and suspend when
      the AIJob says anything about it. */
  ghost predicate Agrees(actual: JobSet, desired: JobSet) {
    && (forall key :: IsOwned(key) ==> At(actual.labels, key) == Wanted(desired.labels, key))
    && (desired.spec.suspend.Some? ==> actual.spec.suspend == desired.spec.suspend)
  }

  /** Put-get: what is written is what is read back. */
  lemma PutGet(actual: JobSet, desired: JobSet)
    ensures Agrees(OwnedFields(actual, desired), desired)
  {
  }

  /** Get-put, both ways: a created JobSet is left alone exactly when it already agrees. */
  lemma GetPut(actual: JobSet, desired: JobSet)
    requires actual.created
    ensures OwnedFields(actual, desired) == actual <==> Agrees(actual, desired)
  {
  }

  /** Put-put: the last desired labels win; a suspend asked for earlier stays until asked otherwise. */
  lemma PutPut(actual: JobSet, first: JobSet, second: JobSet)
    requires actual.created
    ensures var twice := OwnedFields(OwnedFields(actual, first), second);
      && twice.labels == OwnedFields(actual, second).labels
      && twice == OwnedFields(actual, second).(spec := twice.spec)
      && twice.spec == actual.spec.(suspend := if second.spec.suspend.Some? then second.spec.suspend
                                               else if first.spec.suspend.Some? then first.spec.suspend
                                               else actual.spec.suspend)
  {
  }

  /** An edit by someone else: labels the controller does not own, and any part of the spec except
      suspend. A `None` label value removes the label. */
  datatype Edit = Edit(labels: map<string, Option<string>>, spec: JobSetSpec)

  function EditLabels(labels: Labels, edit: map<string, Option<string>>): Labels {
    map key | key in labels.Keys + edit.Keys && (key in edit ==> edit[key].Some?)
      :: if key in edit then edit[key].value else labels[key]
  }

  function ApplyEdit(js: JobSet, edit: Edit): JobSet {
    js.(labels := EditLabels(js.labels, edit.labels), spec := edit.spec.(suspend := js.spec.suspend))
  }

  /** The controller's write to a created JobSet commutes with every such edit. */
  lemma CommutesWithForeignEdits(actual: JobSet, desired: JobSet, edit: Edit)
    requires actual.created
    requires forall key :: key in edit.labels ==> !IsOwned(key)
    ensures OwnedFields(ApplyEdit(actual, edit), desired) == ApplyEdit(OwnedFields(actual, desired), edit)
  {
    var edited := EditLabels(actual.labels, edit.labels);
    var owned := OwnedLabels(actual.labels, desired.labels);
    forall key ensures At(OwnedLabels(edited, desired.labels), key) == At(EditLabels(owned, edit.labels), key) {
      OwnedLabelAt(edited, desired.labels, key);
      OwnedLabelAt(actual.labels, desired.labels, key);
    }
    SameLabels(OwnedLabels(edited, desired.labels), EditLabels(owned, edit.labels));
  }

  ghost predicate KeepsOutsideSuspend(actual: JobSet, desired: JobSet) {
    forall s: Option<bool> ::
      OwnedFields(Suspended(actual, s), desired) == Suspended(OwnedFields(actual, desired), s)
  }

  function Suspended(js: JobSet, s: Option<bool>): JobSet {
    js.(spec := js.spec.(suspend := s))
  }

  /** An outside change of suspend survives the controller's write exactly when the AIJob has no
      JobSet overrides: an override of `false` is rewritten every time. */
  lemma OutsideSuspendSurvivesIff(actual: JobSet, job: AIJob)
    ensures KeepsOutsideSuspend(actual, Desired(job)) <==> job.overrides.None?
  {
    if job.overrides.Some? {
      var other := Some(!job.overrides.value.suspend);
      assert OwnedFields(Suspended(actual, other), Desired(job)) != Suspended(OwnedFields(actual, Desired(job)), other);
    }
  }

  // ---- what a write leaves, in the AIJob's own terms

  /** A label of the AIJob that is carried over when it says something. */
  function Said(labels: Labels, key: string): Option<string> {
    if key in labels && labels[key] != "" then Some(labels[key]) else None
  }

  /** After a write the JobSet carries the AIJob's name, the queue it names (the default queue when it
      names none), its run and experiment as far as it says any, and every other label it had. */
  lemma WrittenLabels(actual: JobSet, job: AIJob, key: string)
    ensures At(OwnedFields(actual, Desired(job)).labels, key) ==
      if key == JOB_LABEL then Some(job.name)
      else if key == QUEUE_LABEL then Some(if job.core.queueName != "" then job.core.queueName else "training")
      else if key == RUN_ID_LABEL || key == EXPERIMENT_LABEL then Said(job.labels, key)
      else At(actual.labels, key)
  {
    OwnedLabelAt(actual.labels, DesiredLabels(job), key);
    if IsOwned(key) {
      DesiredLabelAt(job, key);
    }
  }

  /** A write touches labels and spec only. Suspend follows the overrides if there are any and stays
      otherwise; the rest of the spec is what the AIJob asks for when the JobSet is new, and stays
      otherwise. */
  lemma WrittenSpec(actual: JobSet, job: AIJob)
    ensures OwnedFields(actual, Desired(job))
         == actual.(labels := OwnedFields(actual, Desired(job)).labels, spec := OwnedFields(actual, Desired(job)).spec)
    ensures var spec, o := OwnedFields(actual, Desired(job)).spec, job.overrides;
      && spec.suspend == (if o.Some? then Some(o.value.suspend) else actual.spec.suspend)
      && (actual.created ==> spec == actual.spec.(suspend := spec.suspend))
      && (!actual.created ==>
            && |spec.replicatedJobs| == 1 && spec.dnsHostnames == Some(true)
            && spec.failurePolicy == (if o.Some? then o.value.failurePolicy else None)
            && spec.successPolicy == (if o.Some? then o.value.successPolicy else None))
  {
  }

  /** The workers of a new JobSet, as the AIJob describes them: as many as it asks for, each with the
      GPUs it asks for, of the resource and image it names or the defaults. */
  lemma WrittenWorkers(actual: JobSet, job: AIJob)
    requires !actual.created
    ensures var t := OwnedFields(actual, Desired(job)).spec.replicatedJobs[0];
      && t.parallelism == t.completions == job.core.workers && t.gpus == job.core.gpuPerWorker
      && t.gpuResource == (if job.core.gpuResource != "" then job.core.gpuResource else "example.com/gpu")
      && t.image == (if job.core.image != "" then job.core.image else "ai-infra-lab:dev")
      && t.args == job.core.args && t.schedulerName == "ai-scheduler"
  {
  }

  /** Their labels: those of the AIJob's run and experiment, and on the pods its name. */
  lemma WrittenWorkerLabels(actual: JobSet, job: AIJob, key: string)
    requires !actual.created
    ensures var t := OwnedFields(actual, Desired(job)).spec.replicatedJobs[0];
      && At(t.jobLabels, key) == (if key in {RUN_ID_LABEL, EXPERIMENT_LABEL} then Said(job.labels, key) else None)
      && At(t.podLabels, key) == (if key == JOB_LABEL then Some(job.name) else At(t.jobLabels, key))
  {
  }

  /** Their annotations: a preferred GPU topology and a required one are passed on, racks as a topology
      to be co-located on and the others as a class; and nothing else is. */
  lemma WrittenWorkerAnnotations(actual: JobSet, job: AIJob, key: string)
    requires !actual.created
    ensures At(OwnedFields(actual, Desired(job)).spec.replicatedJobs[0].annotations, key) ==
      if key == PREFERENCE_ANNOTATION && job.core.preference in {"nvlink", "pcie"} then Some(job.core.preference)
      else if key == REQUIRED_CLASS_ANNOTATION && job.core.required in {"nvlink", "pcie"} then Some(job.core.required)
      else if key == REQUIRED_TOPOLOGY_ANNOTATION && job.core.required == "same-rack" then Some(RACK_LABEL)
      else None
  {
    assert |PREFERENCE_ANNOTATION| != |REQUIRED_CLASS_ANNOTATION| && |PREFERENCE_ANNOTATION| != |REQUIRED_TOPOLOGY_ANNOTATION|;
    assert |REQUIRED_CLASS_ANNOTATION| != |REQUIRED_TOPOLOGY_ANNOTATION|;
  }
}
