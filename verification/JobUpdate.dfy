/** One reconcile of a Job: a single get / merge / update, and none at all once
    the Job has finished. */
module JobUpdate {
  import opened Wrappers
  import opened KubeObjects
  import opened VersionedStore

  datatype JobCondition = JobCondition(kind: string, status: string)

  /** `template` is the pod template without its containers; `rest` is everything else. */
  datatype Job = Job(
    name: string, labels: Labels, annotations: Labels, containers: seq<Container>,
    template: PodSpec, conditions: seq<JobCondition>, rest: int)

  datatype JobError = OwnerRefFailed | GetError | CreateError | UpdateError

  predicate EndsJob(c: JobCondition) {
    (c.kind == "Complete" || c.kind == "Failed") && c.status == "True"
  }

  predicate Finished(j: Job) {
    exists i :: 0 <= i < |j.conditions| && EndsJob(j.conditions[i])
  }

  method IsJobFinished(j: Job) returns (r: bool)
    ensures r <==> Finished(j)
    ensures r <==> exists i :: 0 <= i < |j.conditions|
                     && (j.conditions[i] == JobCondition("Complete", "True")
                         || j.conditions[i] == JobCondition("Failed", "True"))
  {
    for i := 0 to |j.conditions|
      invariant forall k :: 0 <= k < i ==> !EndsJob(j.conditions[k])
    {
      if EndsJob(j.conditions[i]) {
        assert j.conditions[i] in {JobCondition("Complete", "True"), JobCondition("Failed", "True")};
        return true;
      }
    }
    return false;
  }

  /** The kind of the first condition that holds, or "Running" if none does;
      for a finished job some condition holds. */
  method GetJobStatus(j: Job) returns (r: string)
    ensures || (r == "Running" && forall k :: 0 <= k < |j.conditions| ==> j.conditions[k].status != "True")
            || (exists i :: 0 <= i < |j.conditions| && j.conditions[i] == JobCondition(r, "True")
                            && forall k :: 0 <= k < i ==> j.conditions[k].status != "True")
    ensures Finished(j) ==> exists i :: 0 <= i < |j.conditions| && j.conditions[i] == JobCondition(r, "True")
  {
    for i := 0 to |j.conditions|
      invariant forall k :: 0 <= k < i ==> j.conditions[k].status != "True"
    {
      if j.conditions[i].status == "True" {
        assert j.conditions[i] == JobCondition(j.conditions[i].kind, "True");
        return j.conditions[i].kind;
      }
    }
    return "Running";
  }

  predicate Agrees(j: Job, desired: Job) {
    && SameContainers(j.containers, desired.containers)
    && SameLabels(j.labels, desired.labels)
    && SameLabels(j.annotations, desired.annotations)
  }

  function Merge(j: Job, desired: Job): Job {
    j.(containers := if SameContainers(j.containers, desired.containers) then j.containers else desired.containers,
       labels := if SameLabels(j.labels, desired.labels) then j.labels else desired.labels,
       annotations := if SameLabels(j.annotations, desired.annotations) then j.annotations else desired.annotations)
  }

  /** Merging makes containers, labels and annotations agree, changes something
      exactly when they did not, is idempotent, and leaves the rest alone. */
  lemma MergeMeaning(j: Job, desired: Job)
    ensures Agrees(Merge(j, desired), desired)
    ensures Merge(j, desired) != j <==> !Agrees(j, desired)
    ensures Merge(Merge(j, desired), desired) == Merge(j, desired)
    ensures var m := Merge(j, desired);
            m.name == j.name && m.template == j.template && m.conditions == j.conditions && m.rest == j.rest
  {}

  function StandardLabels(j: Job): Job {
    j.(labels := Some(CanonLabels(j.labels)[
        "app.kubernetes.io/managed-by" := "azure-devops-controller"][
        "app.kubernetes.io/name" := j.name]))
  }

  /** Only labels change: the two standard ones are set, every other one kept. */
  lemma StandardLabelsMeaning(j: Job)
    ensures var e := StandardLabels(j);
            && e.(labels := j.labels) == j
            && LabelValue(e.labels, "app.kubernetes.io/managed-by") == Some("azure-devops-controller")
            && LabelValue(e.labels, "app.kubernetes.io/name") == Some(j.name)
            && forall key :: key != "app.kubernetes.io/managed-by" && key != "app.kubernetes.io/name" ==>
                 LabelValue(e.labels, key) == LabelValue(j.labels, key)
  {}

  /** What agreement means, field by field. */
  lemma AgreesIff(j: Job, desired: Job)
    ensures Agrees(j, desired)
       <==> && |j.containers| == |desired.containers|
            && (forall i :: 0 <= i < |j.containers| ==> ContainerMatches(j.containers[i], desired.containers[i]))
            && (forall key :: LabelValue(j.labels, key) == LabelValue(desired.labels, key))
            && (forall key :: LabelValue(j.annotations, key) == LabelValue(desired.annotations, key))
  {
    SameContainersIff(j.containers, desired.containers);
    SameLabelsIff(j.labels, desired.labels);
    SameLabelsIff(j.annotations, desired.annotations);
  }

  /** A commit of the operator never follows a finished version. */
  predicate JobWrite(desired: Job, before: Option<Job>, after: Option<Job>) {
    match before
    case None => after == Some(desired)
    case Some(j) => !Finished(j) && !Agrees(j, desired) && after == Some(Merge(j, desired))
  }

  predicate NotAfterFinish(before: Option<Job>, after: Option<Job>) {
    before.Some? ==> !Finished(before.value)
  }

  /** What an undisturbed pass leaves in the store. */
  function Settled(before: Option<Job>, desired: Job): Job {
    match before
    case None => desired
    case Some(j) => if Finished(j) then j else Merge(j, desired)
  }

  method MergeInto(existing: Job, desired: Job) returns (updated: Job, needsUpdate: bool)
    ensures updated == Merge(existing, desired)
    ensures needsUpdate <==> updated != existing
    ensures needsUpdate <==> !Agrees(existing, desired)
  {
    updated, needsUpdate := existing, false;
    if !SameContainers(updated.containers, desired.containers) {
      updated := updated.(containers := desired.containers);
      needsUpdate := true;
    }
    if !SameLabels(updated.labels, desired.labels) {
      updated := updated.(labels := desired.labels);
      needsUpdate := true;
    }
    if !SameLabels(updated.annotations, desired.annotations) {
      updated := updated.(annotations := desired.annotations);
      needsUpdate := true;
    }
    MergeMeaning(existing, desired);
  }

  method UpdateRunningJob(store: Store<Job>, existing: Job, version: nat, desired: Job)
      returns (err: Option<JobError>)
    requires store.Valid() && store.seen == store.current == Some(existing) && version == store.rv
    requires !Finished(existing)
    modifies store
    ensures store.Valid() && store.Grew()
    ensures store.updates <= old(store.updates) + 1 && old(store.commits) <= store.commits <= old(store.commits) + 1
    ensures OwnWritesAre(store.history, |old(store.history)|, (b, a) => JobWrite(desired, b, a))
    ensures err == None ==>
              || (store.seen.Some? && Agrees(store.seen.value, desired))
              || (store.conflicts == old(store.conflicts) + 1 && store.commits == old(store.commits))
    ensures err.Some? ==> err == Some(UpdateError) && store.Setbacks() > old(store.Setbacks())
    ensures store.absences == old(store.absences)
    ensures store.calm ==>
              && err == None && store.current == Some(Merge(existing, desired))
              && store.commits == old(store.commits) + (if store.current == old(store.current) then 0 else 1)
  {
    var updated, needsUpdate := MergeInto(existing, desired);
    MergeMeaning(existing, desired);
    if !needsUpdate {
      return None;
    }
    var written := store.Update(updated, version);
    if written.Committed? || written.Conflict? {
      return None;
    }
    return Some(UpdateError);
  }

  /** At most one update.  A nil result means the Job seen was finished, or the
      managed fields of the version last read or written agree, or the update
      conflicted and nothing of its own was stored. */
  method ReconcileJob(store: Store<Job>, ownerSet: bool, wanted: Job) returns (err: Option<JobError>)
    requires store.Valid()
    modifies store
    ensures store.Valid() && store.Grew()
    ensures store.updates <= old(store.updates) + 1 && old(store.commits) <= store.commits <= old(store.commits) + 1
    ensures OwnWritesAre(store.history, |old(store.history)|,
                         (b, a) => JobWrite(StandardLabels(wanted), b, a))
    ensures err == None ==>
              || (store.seen.Some? && Finished(store.seen.value) && store.commits == old(store.commits))
              || (store.seen.Some? && Agrees(store.seen.value, StandardLabels(wanted)))
              || (store.conflicts == old(store.conflicts) + 1 && store.commits == old(store.commits))
    ensures !ownerSet ==> err == Some(OwnerRefFailed) && store.history == old(store.history)
    ensures ownerSet && err.Some? ==> store.Setbacks() > old(store.Setbacks())
    ensures store.calm && ownerSet ==>
              && err == None && store.current == Some(Settled(old(store.current), StandardLabels(wanted)))
              && store.commits == old(store.commits)
                   + (if store.current == old(store.current) then 0 else 1)
  {
    if !ownerSet {
      return Some(OwnerRefFailed);
    }
    var desired := StandardLabels(wanted);
    var answer := store.Get();
    match answer {
      case NotFound =>
        var created := store.Create(desired);
        return if created.Committed? then None else Some(CreateError);
      case GetFailed => return Some(GetError);
      case Found(existing, version) =>
        var finished := IsJobFinished(existing);
        if finished {
          return None;
        }
        err := UpdateRunningJob(store, existing, version, desired);
    }
  }

  /** Any number of passes, each with a desired Job of its own. */
  method JobPasses(store: Store<Job>, wanted: seq<Job>)
    requires store.Valid()
    modifies store
    ensures store.Valid() && store.Grew()
    ensures OwnWritesAre(store.history, |old(store.history)|, NotAfterFinish)
  {
    for i := 0 to |wanted|
      invariant store.Valid() && store.Grew()
      invariant OwnWritesAre(store.history, |old(store.history)|, NotAfterFinish)
    {
      var _ := ReconcileJob(store, true, wanted[i]);
    }
  }

  /** Over a whole history: once finished, a Job no other writer touches stays
      exactly as it finished, however many passes follow. */
  lemma {:induction false} FinishedJobsAreFrozen(h: seq<Version<Job>>, from: nat, to: nat)
    requires from <= to < |h| && h[from].value.Some? && Finished(h[from].value.value)
    requires OwnWritesAre(h, from + 1, NotAfterFinish)
    requires forall i :: from < i <= to && h[i].writer.Others? ==> h[i].value == h[i - 1].value
    ensures h[to].value == h[from].value
    ensures forall i :: from < i <= to ==> h[i].writer.Others?
  {
    if from < to {
      FinishedJobsAreFrozen(h, from, to - 1);
    }
  }
}
