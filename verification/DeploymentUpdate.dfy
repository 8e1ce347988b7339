/** The get / merge / update loop that keeps a Deployment as desired. */
module DeploymentUpdate {
  import opened Wrappers
  import opened KubeObjects
  import opened VersionedStore

  datatype Selector = Selector(matchLabels: Labels)

  /** `rest` is everything the operator does not manage: metadata, status, the
      rollout strategy, whatever others put there. */
  datatype Deployment = Deployment(
    name: string, labels: Labels, replicas: Option<int>, podSpec: PodSpec, podLabels: Labels,
    podAnnotations: Labels, selector: Option<Selector>, rest: int)

  datatype DeployError = OwnerRefFailed | GetError | CreateError | UpdateError | RetriesExhausted

  predicate SameSelector(a: Option<Selector>, b: Option<Selector>) {
    a.Some? == b.Some? && (a.Some? ==> SameLabels(a.value.matchLabels, b.value.matchLabels))
  }

  /** The five managed fields are semantically equal. */
  predicate Agrees(d: Deployment, desired: Deployment) {
    && d.replicas == desired.replicas
    && SamePodSpec(d.podSpec, desired.podSpec)
    && SameLabels(d.podLabels, desired.podLabels)
    && SameLabels(d.podAnnotations, desired.podAnnotations)
    && SameSelector(d.selector, desired.selector)
  }

  /** `d` with every managed field that differs replaced. */
  function Merge(d: Deployment, desired: Deployment): Deployment {
    d.(replicas := desired.replicas,
       podSpec := if SamePodSpec(d.podSpec, desired.podSpec) then d.podSpec else desired.podSpec,
       podLabels := if SameLabels(d.podLabels, desired.podLabels) then d.podLabels else desired.podLabels,
       podAnnotations := if SameLabels(d.podAnnotations, desired.podAnnotations) then d.podAnnotations
                         else desired.podAnnotations,
       selector := if SameSelector(d.selector, desired.selector) then d.selector else desired.selector)
  }

  /** Nothing but managed fields differs. */
  predicate SameElsewhere(d: Deployment, e: Deployment) {
    d.name == e.name && d.labels == e.labels && d.rest == e.rest
  }

  /** Merging makes the managed fields agree, touches nothing else, changes
      something exactly when they did not agree, and is idempotent. */
  lemma MergeMeaning(d: Deployment, desired: Deployment)
    ensures Agrees(Merge(d, desired), desired)
    ensures SameElsewhere(d, Merge(d, desired))
    ensures Merge(d, desired) != d <==> !Agrees(d, desired)
    ensures Merge(Merge(d, desired), desired) == Merge(d, desired)
  {}

  function StandardLabels(d: Deployment): Deployment {
    d.(labels := Some(CanonLabels(d.labels)[
        "app.kubernetes.io/managed-by" := "azure-devops-controller"][
        "app.kubernetes.io/name" := d.name]))
  }

  /** Only labels change: the two standard ones are set, every other one kept. */
  lemma StandardLabelsMeaning(d: Deployment)
    ensures var e := StandardLabels(d);
            && e.(labels := d.labels) == d
            && LabelValue(e.labels, "app.kubernetes.io/managed-by") == Some("azure-devops-controller")
            && LabelValue(e.labels, "app.kubernetes.io/name") == Some(d.name)
            && forall key :: key != "app.kubernetes.io/managed-by" && key != "app.kubernetes.io/name" ==>
                 LabelValue(e.labels, key) == LabelValue(d.labels, key)
  {}

  /** Selectors select by the same label values, or neither is set. */
  ghost predicate SelectorMatches(a: Option<Selector>, b: Option<Selector>) {
    match (a, b)
    case (None, None) => true
    case (Some(s), Some(t)) => forall key :: LabelValue(s.matchLabels, key) == LabelValue(t.matchLabels, key)
    case _ => false
  }

  /** What agreement means, field by field. */
  lemma AgreesIff(d: Deployment, desired: Deployment)
    ensures Agrees(d, desired)
       <==> && d.replicas == desired.replicas
            && PodSpecMatches(d.podSpec, desired.podSpec)
            && (forall key :: LabelValue(d.podLabels, key) == LabelValue(desired.podLabels, key))
            && (forall key :: LabelValue(d.podAnnotations, key) == LabelValue(desired.podAnnotations, key))
            && SelectorMatches(d.selector, desired.selector)
  {
    SamePodSpecIff(d.podSpec, desired.podSpec);
    SameLabelsIff(d.podLabels, desired.podLabels);
    SameLabelsIff(d.podAnnotations, desired.podAnnotations);
    if d.selector.Some? && desired.selector.Some? {
      SameLabelsIff(d.selector.value.matchLabels, desired.selector.value.matchLabels);
    }
  }

  /** A container with another image, argument list or number of variables is
      reason enough to update, and the update takes over the desired one. */
  lemma ChangedContainerIsRolledOut(d: Deployment, desired: Deployment, i: nat)
    requires i < |desired.podSpec.containers|
    requires i < |d.podSpec.containers| ==>
               var (c, e) := (d.podSpec.containers[i], desired.podSpec.containers[i]);
               c.image != e.image || c.args != e.args || |c.env| != |e.env|
    ensures !Agrees(d, desired) && Merge(d, desired).podSpec == desired.podSpec
  {
    SamePodSpecIff(d.podSpec, desired.podSpec);
  }

  /** A commit of the operator: the desired object where there was none, or the
      version right before it with the differing managed fields replaced. */
  predicate DeploymentWrite(desired: Deployment, before: Option<Deployment>, after: Option<Deployment>) {
    match before
    case None => after == Some(desired)
    case Some(d) => !Agrees(d, desired) && after == Some(Merge(d, desired))
  }

  /** What an undisturbed pass leaves in the store. */
  function Settled(before: Option<Deployment>, desired: Deployment): Deployment {
    match before
    case None => desired
    case Some(d) => Merge(d, desired)
  }

  method MergeInto(existing: Deployment, desired: Deployment) returns (updated: Deployment, needsUpdate: bool)
    ensures updated == Merge(existing, desired)
    ensures needsUpdate <==> updated != existing
    ensures needsUpdate <==> !Agrees(existing, desired)
  {
    updated, needsUpdate := existing, false;
    if updated.replicas != desired.replicas {
      updated := updated.(replicas := desired.replicas);
      needsUpdate := true;
    }
    if !SamePodSpec(updated.podSpec, desired.podSpec) {
      updated := updated.(podSpec := desired.podSpec);
      needsUpdate := true;
    }
    if !SameLabels(updated.podLabels, desired.podLabels) {
      updated := updated.(podLabels := desired.podLabels);
      needsUpdate := true;
    }
    if !SameLabels(updated.podAnnotations, desired.podAnnotations) {
      updated := updated.(podAnnotations := desired.podAnnotations);
      needsUpdate := true;
    }
    if !SameSelector(updated.selector, desired.selector) {
      updated := updated.(selector := desired.selector);
      needsUpdate := true;
    }
    MergeMeaning(existing, desired);
  }

  datatype Turn = Return(err: Option<DeployError>) | Conflicted

  /** The part of a turn after the get: merge, and update if something differs. */
  method MergeAndUpdate(store: Store<Deployment>, existing: Deployment, version: nat, desired: Deployment)
      returns (turn: Turn)
    requires store.Valid() && store.seen == store.current == Some(existing) && version == store.rv
    modifies store
    ensures store.Valid() && store.Grew() && old(store.commits) <= store.commits <= old(store.commits) + 1
    ensures OwnWritesAre(store.history, |old(store.history)|, (b, a) => DeploymentWrite(desired, b, a))
    ensures turn == Return(None) ==> store.seen.Some? && Agrees(store.seen.value, desired)
    ensures turn in {Return(None), Return(Some(UpdateError)), Conflicted}
    ensures turn.Return? && turn.err.Some? ==> store.troubles > old(store.troubles)
    ensures store.troubles >= old(store.troubles) && store.conflicts >= old(store.conflicts)
    ensures store.absences >= old(store.absences)
    ensures store.updates <= old(store.updates) + 1
    ensures turn.Conflicted? ==>
              Blocked(store, old(store.updates), old(store.conflicts), old(store.commits), |old(store.history)|)
    ensures store.calm ==>
              && turn == Return(None) && store.current == Some(Merge(existing, desired))
              && store.commits == old(store.commits) + (if store.current == old(store.current) then 0 else 1)
  {
    var updated, needsUpdate := MergeInto(existing, desired);
    MergeMeaning(existing, desired);
    if !needsUpdate {
      return Return(None);
    }
    var written := store.Update(updated, version);
    if written.Conflict? {
      return Conflicted;
    }
    return Return(if written.Committed? then None else Some(UpdateError));
  }

  /** An update was refused with a conflict, and all that was committed since is
      by others. */
  ghost predicate Blocked(store: Store<Deployment>, updates: int, conflicts: int, commits: int, from: nat)
    reads store
  {
    && store.updates == updates + 1 && store.conflicts == conflicts + 1 && store.commits == commits && !store.calm
    && forall i :: from <= i < |store.history| ==> store.history[i].writer.Others?
  }

  /** The part of a turn after a get that found nothing. */
  method CreateMissing(store: Store<Deployment>, desired: Deployment) returns (turn: Turn)
    requires store.Valid()
    modifies store
    ensures store.Valid() && store.Grew() && old(store.commits) <= store.commits <= old(store.commits) + 1
    ensures OwnWritesAre(store.history, |old(store.history)|, (b, a) => DeploymentWrite(desired, b, a))
    ensures turn == Return(None) ==> store.seen == Some(desired)
    ensures turn in {Return(None), Return(Some(CreateError))}
    ensures turn == Return(Some(CreateError)) ==> store.troubles > old(store.troubles)
    ensures store.troubles >= old(store.troubles) && store.conflicts >= old(store.conflicts)
    ensures store.absences >= old(store.absences)
    ensures store.updates == old(store.updates) && store.conflicts == old(store.conflicts)
    ensures store.calm && old(store.current).None? ==>
              turn == Return(None) && store.current == Some(desired) && store.commits == old(store.commits) + 1
  {
    var created := store.Create(desired);
    turn := Return(if created.Committed? then None else Some(CreateError));
  }

  /** One turn of the loop. */
  method Attempt(store: Store<Deployment>, desired: Deployment) returns (turn: Turn)
    requires store.Valid()
    modifies store
    ensures store.Valid() && store.Grew() && old(store.commits) <= store.commits <= old(store.commits) + 1
    ensures OwnWritesAre(store.history, |old(store.history)|, (b, a) => DeploymentWrite(desired, b, a))
    ensures turn == Return(None) ==> store.seen.Some? && Agrees(store.seen.value, desired)
    ensures turn.Return? && turn.err.Some? ==> store.troubles > old(store.troubles)
    ensures store.troubles >= old(store.troubles) && store.conflicts >= old(store.conflicts)
    ensures store.absences >= old(store.absences)
    ensures turn != Return(Some(RetriesExhausted)) && store.updates <= old(store.updates) + 1
    ensures turn.Conflicted? ==>
              Blocked(store, old(store.updates), old(store.conflicts), old(store.commits), |old(store.history)|)
    ensures store.calm ==>
              && turn == Return(None) && store.current == Some(Settled(old(store.current), desired))
              && store.commits == old(store.commits) + (if store.current == old(store.current) then 0 else 1)
  {
    var answer := store.Get();
    match answer {
      case NotFound =>
        turn := CreateMissing(store, desired);
      case GetFailed =>
        turn := Return(Some(GetError));
      case Found(existing, version) =>
        turn := MergeAndUpdate(store, existing, version, desired);
    }
  }

  /** At most three updates and one commit.  A commit lost nobody's edit; a nil
      result means the last version read or written agrees; three conflicts mean
      nothing was committed.  `ownerSet` is the outcome of SetControllerReference. */
  method ReconcileDeploymentInternal(store: Store<Deployment>, ownerSet: bool, wanted: Deployment)
      returns (err: Option<DeployError>)
    requires store.Valid()
    modifies store
    ensures store.Valid() && store.Grew()
    ensures store.updates <= old(store.updates) + 3
    ensures old(store.commits) <= store.commits <= old(store.commits) + 1
    ensures OwnWritesAre(store.history, |old(store.history)|,
                         (b, a) => DeploymentWrite(StandardLabels(wanted), b, a))
    ensures err == None ==> store.seen.Some? && Agrees(store.seen.value, StandardLabels(wanted))
    ensures err in {Some(GetError), Some(CreateError), Some(UpdateError)} ==> store.troubles > old(store.troubles)
    ensures err == Some(RetriesExhausted) ==>
              store.updates == old(store.updates) + 3 && store.conflicts == old(store.conflicts) + 3
              && store.commits == old(store.commits)
    ensures !ownerSet ==> err == Some(OwnerRefFailed) && store.history == old(store.history)
    ensures err.Some? && ownerSet ==> store.Setbacks() > old(store.Setbacks())
    ensures store.calm && ownerSet ==>
              && err == None && store.current == Some(Settled(old(store.current), StandardLabels(wanted)))
              && store.commits == old(store.commits)
                   + (if store.current == old(store.current) then 0 else 1)
  {
    if !ownerSet {
      return Some(OwnerRefFailed);
    }
    var desired := StandardLabels(wanted);
    ghost var start := |store.history|;
    for retries := 0 to 3
      invariant store.Valid() && store.Grew()
      invariant store.updates == old(store.updates) + retries
      invariant store.conflicts == old(store.conflicts) + retries
      invariant store.commits == old(store.commits)
      invariant forall i :: start <= i < |store.history| ==> store.history[i].writer.Others?
      invariant retries > 0 ==> !store.calm
      invariant store.troubles >= old(store.troubles) && store.absences >= old(store.absences)
      invariant retries == 0 ==> store.history == old(store.history) && store.current == old(store.current)
    {
      var turn := Attempt(store, desired);
      if turn.Return? {
        return turn.err;
      }
    }
    return Some(RetriesExhausted);
  }
}
