/** The use case behind every pass: secrets, queue, replicas, workload. */
module UseCase {
  import opened Wrappers
  import opened GoInts
  import opened KubeObjects
  import opened VersionedStore
  import opened PodTemplates
  import opened Scaling
  import opened Secrets
  import D = DeploymentUpdate
  import J = JobUpdate

  datatype HandleError =
    | SecretsInvalid | QueueUnavailable | DeploymentFailed(d: D.DeployError) | JobFailed(j: J.JobError)
    | UnsupportedMode(shown: string)

  /** The status counters the use case writes into the resource it was handed. */
  datatype AgentStatus = AgentStatus(queued: int, desired: int, ready: int, lastScalingTime: Option<int>)

  const OWN_LABELS := map["app" := AGENT]

  function DesiredDeployment(cr: AgentSpec, replicas: int): D.Deployment {
    var t := TemplateFor(cr);
    D.Deployment(cr.name, Some(OWN_LABELS["name" := cr.name]), Some(replicas), t.spec, t.labels, t.annotations,
                 Some(D.Selector(Some(OWN_LABELS))), 0)
  }

  function DesiredJob(cr: AgentSpec): J.Job {
    var t := TemplateFor(cr).spec.(restartPolicy := "Never");
    J.Job(cr.name, Some(OWN_LABELS["name" := cr.name]), None, t.containers, t.(containers := []), [], 0)
  }

  /** The selector of the Deployment selects the pods of its own template. */
  lemma SelectorMatchesPods(cr: AgentSpec, replicas: int)
    ensures var d := DesiredDeployment(cr, replicas);
            d.selector.Some? && CanonLabels(d.selector.value.matchLabels).Items <= CanonLabels(d.podLabels).Items
  {
    var d := DesiredDeployment(cr, replicas);
    assert CanonLabels(d.selector.value.matchLabels) == CanonLabels(d.podLabels);
  }

  // ---------- what the desired objects are, in plain fields ----------

  /** The pods run the agent image of the resource, first and under its own name,
      with the sidecar its docker setting asks for. */
  ghost predicate RunsTheAgent(p: PodSpec, cr: AgentSpec, restartPolicy: string) {
    && |p.containers| == (if cr.docker in {"buildkit", "dind"} then 2 else 1)
    && p.containers[0].name == "azdo-agent" && p.containers[0].image == cr.image
    && p.containers[0].args == ["trap 'touch /usr/share/pod/done' EXIT && ./start.sh"
                                + if cr.ephemeral then " --once" else ""]
    && p.imagePullSecrets == (if cr.pullSecret == "" then [] else [cr.pullSecret])
    && p.restartPolicy == restartPolicy
  }

  ghost predicate OnlyAppLabel(l: Labels) {
    forall key :: LabelValue(l, key) == if key == "app" then Some("azdo-agent") else None
  }

  /** The Deployment keeps `n` pods with the resource's agent and selects them. */
  ghost predicate KeepsAgents(d: D.Deployment, cr: AgentSpec, n: int) {
    && d.replicas == Some(n) && RunsTheAgent(d.podSpec, cr, "Always")
    && OnlyAppLabel(d.podLabels) && d.selector.Some? && OnlyAppLabel(d.selector.value.matchLabels)
    && forall key :: LabelValue(d.podAnnotations, key) == None
  }

  /** Any Deployment that agrees with the desired one does so. */
  lemma AgreementKeepsAgents(d: D.Deployment, cr: AgentSpec, n: int)
    requires D.Agrees(d, D.StandardLabels(DesiredDeployment(cr, n)))
    ensures KeepsAgents(d, cr, n)
  {
    var desired := D.StandardLabels(DesiredDeployment(cr, n));
    D.AgreesIff(d, desired);
    D.StandardLabelsMeaning(DesiredDeployment(cr, n));
    PodInPlainFields(cr);
    assert ContainerMatches(d.podSpec.containers[0], desired.podSpec.containers[0]);
  }

  predicate OwnLabels(l: Labels, name: string) {
    && LabelValue(l, "app") == Some("azdo-agent") && LabelValue(l, "name") == Some(name)
    && LabelValue(l, "app.kubernetes.io/managed-by") == Some("azure-devops-controller")
    && LabelValue(l, "app.kubernetes.io/name") == Some(name)
  }

  /** What is created bears the resource's name and labels that lead back to it. */
  lemma CreatedBearsTheName(cr: AgentSpec, n: int)
    ensures var d := D.StandardLabels(DesiredDeployment(cr, n)); d.name == cr.name && OwnLabels(d.labels, cr.name)
    ensures var j := J.StandardLabels(DesiredJob(cr)); j.name == cr.name && OwnLabels(j.labels, cr.name)
  {
    D.StandardLabelsMeaning(DesiredDeployment(cr, n));
    J.StandardLabelsMeaning(DesiredJob(cr));
  }

  /** A Job's pods run the same containers but are never restarted. */
  lemma JobRunsTheAgent(cr: AgentSpec)
    ensures var j := DesiredJob(cr);
            && RunsTheAgent(j.template.(containers := j.containers), cr, "Never")
            && j.template.(containers := j.containers, restartPolicy := "Always") == TemplateFor(cr).spec
            && j.conditions == []
  {
    PodInPlainFields(cr);
  }

  /** A Job that agrees with the desired one has the resource's agent and labels. */
  lemma AgreementStartsAgents(j: J.Job, cr: AgentSpec)
    requires J.Agrees(j, J.StandardLabels(DesiredJob(cr)))
    ensures StartsAgents(j, cr)
  {
    var desired := J.StandardLabels(DesiredJob(cr));
    J.AgreesIff(j, desired);
    J.StandardLabelsMeaning(DesiredJob(cr));
    JobRunsTheAgent(cr);
    CreatedBearsTheName(cr, 0);
    assert ContainerMatches(j.containers[0], desired.containers[0]);
  }

  ghost predicate StartsAgents(j: J.Job, cr: AgentSpec) {
    && |j.containers| == (if cr.docker in {"buildkit", "dind"} then 2 else 1)
    && j.containers[0].name == "azdo-agent" && j.containers[0].image == cr.image
    && OwnLabels(j.labels, cr.name) && forall key :: LabelValue(j.annotations, key) == None
  }

  // ---------- what a pass makes of the workload ----------

  /** Whatever interferes, the operator commits at most once, and only what
      replaces the differing managed fields of the version right before. */
  ghost predicate DeploymentWrites(before: View<D.Deployment>, after: View<D.Deployment>, cr: AgentSpec,
                                   replicas: int) {
    OneWriteIs(before, after, (b, a) => D.DeploymentWrite(D.StandardLabels(DesiredDeployment(cr, replicas)), b, a))
  }

  ghost predicate JobWrites(before: View<J.Job>, after: View<J.Job>, cr: AgentSpec) {
    OneWriteIs(before, after, (b, a) => J.JobWrite(J.StandardLabels(DesiredJob(cr)), b, a))
  }

  ghost predicate DeploymentInPlace(d: View<D.Deployment>, cr: AgentSpec, replicas: int) {
    && d.known.Some? && D.Agrees(d.known.value, D.StandardLabels(DesiredDeployment(cr, replicas)))
    && KeepsAgents(d.known.value, cr, replicas)
  }

  ghost predicate JobInPlace(j: View<J.Job>, before: View<J.Job>, cr: AgentSpec) {
    || j.commits == before.commits
    || (j.known.Some? && J.Agrees(j.known.value, J.StandardLabels(DesiredJob(cr))) && StartsAgents(j.known.value, cr))
  }

  /** Success means that the object the operator last read or wrote is as desired;
      a Job may also be finished, or have been left to another writer. */
  ghost predicate InPlace(d: View<D.Deployment>, j: View<J.Job>, jBefore: View<J.Job>, cr: AgentSpec, replicas: int) {
    if cr.mode == "Deployment" then DeploymentInPlace(d, cr, replicas)
    else cr.mode == "Jobs" && JobInPlace(j, jBefore, cr)
  }

  /** An undisturbed pass: the stored Deployment is as desired, and a commit was
      made exactly if something had to change. */
  ghost predicate Deployed(before: View<D.Deployment>, after: View<D.Deployment>, cr: AgentSpec, replicas: int) {
    && after.current == Some(D.Settled(before.current, D.StandardLabels(DesiredDeployment(cr, replicas))))
    && after.commits == before.commits + (if after.current == before.current then 0 else 1)
    && KeepsAgents(after.current.value, cr, replicas)
    && (before.current.None? ==> after.current.value.name == cr.name && OwnLabels(after.current.value.labels, cr.name))
  }

  ghost predicate Started(before: View<J.Job>, after: View<J.Job>, cr: AgentSpec) {
    && after.current == Some(J.Settled(before.current, J.StandardLabels(DesiredJob(cr))))
    && after.commits == before.commits + (if after.current == before.current then 0 else 1)
    && (J.Finished(after.current.value) || StartsAgents(after.current.value, cr))
    && (before.current.None? ==>
          var j := after.current.value;
          j.name == cr.name && RunsTheAgent(j.template.(containers := j.containers), cr, "Never"))
  }

  lemma SettledKeepsAgents(before: Option<D.Deployment>, cr: AgentSpec, n: int)
    ensures var d := D.Settled(before, D.StandardLabels(DesiredDeployment(cr, n)));
            KeepsAgents(d, cr, n) && (before.None? ==> d.name == cr.name && OwnLabels(d.labels, cr.name))
  {
    SettledIsFinal(before, D.StandardLabels(DesiredDeployment(cr, n)));
    AgreementKeepsAgents(D.Settled(before, D.StandardLabels(DesiredDeployment(cr, n))), cr, n);
    CreatedBearsTheName(cr, n);
  }

  lemma SettledStartsAgents(before: Option<J.Job>, cr: AgentSpec)
    ensures var j := J.Settled(before, J.StandardLabels(DesiredJob(cr)));
            && (J.Finished(j) || StartsAgents(j, cr))
            && (before.None? ==>
                  j.name == cr.name && RunsTheAgent(j.template.(containers := j.containers), cr, "Never"))
  {
    var j := J.Settled(before, J.StandardLabels(DesiredJob(cr)));
    SettledJobIsFinal(before, J.StandardLabels(DesiredJob(cr)));
    if !J.Finished(j) {
      AgreementStartsAgents(j, cr);
    }
    JobRunsTheAgent(cr);
    CreatedBearsTheName(cr, 0);
    J.StandardLabelsMeaning(DesiredJob(cr));
  }

  /** Hands the desired Deployment to its loop. */
  method ApplyDeployment(cr: AgentSpec, replicas: int, deployment: D.Deployment, ownerSet: bool,
                         ds: Store<D.Deployment>) returns (e: Option<D.DeployError>)
    requires ds.Valid() && deployment == DesiredDeployment(cr, replicas)
    modifies ds
    ensures ds.Valid() && DeploymentWrites(old(ds.Seen()), ds.Seen(), cr, replicas)
    ensures e == None ==> DeploymentInPlace(ds.Seen(), cr, replicas)
    ensures e.Some? && ownerSet ==> ds.Setbacks() > old(ds.Setbacks())
    ensures ds.calm && ownerSet ==> e == None && Deployed(old(ds.Seen()), ds.Seen(), cr, replicas)
  {
    SettledKeepsAgents(ds.current, cr, replicas);
    e := D.ReconcileDeploymentInternal(ds, ownerSet, deployment);
    if e == None {
      AgreementKeepsAgents(ds.seen.value, cr, replicas);
    }
  }

  method ApplyJob(cr: AgentSpec, job: J.Job, ownerSet: bool, js: Store<J.Job>) returns (e: Option<J.JobError>)
    requires js.Valid() && job == DesiredJob(cr)
    modifies js
    ensures js.Valid() && JobWrites(old(js.Seen()), js.Seen(), cr)
    ensures e == None ==> JobInPlace(js.Seen(), old(js.Seen()), cr)
    ensures e.Some? && ownerSet ==> js.Setbacks() > old(js.Setbacks())
    ensures js.calm && ownerSet ==> e == None && Started(old(js.Seen()), js.Seen(), cr)
  {
    SettledStartsAgents(js.current, cr);
    e := J.ReconcileJob(js, ownerSet, job);
    if js.seen.Some? && J.Agrees(js.seen.value, J.StandardLabels(job)) {
      AgreementStartsAgents(js.seen.value, cr);
    }
  }

  /** Builds the pod and hands it to the loop for the mode; another mode is an
      error that shows the docker setting, and writes nothing. */
  method ReconcileDeployment(cr: AgentSpec, replicas: int, ownerSet: bool,
                             ds: Store<D.Deployment>, js: Store<J.Job>)
      returns (err: Option<HandleError>)
    requires ds.Valid() && js.Valid()
    modifies ds, js
    ensures ds.Valid() && js.Valid()
    ensures DeploymentWrites(old(ds.Seen()), ds.Seen(), cr, replicas) && JobWrites(old(js.Seen()), js.Seen(), cr)
    ensures cr.mode != "Deployment" ==> ds.Seen() == old(ds.Seen())
    ensures cr.mode != "Jobs" ==> js.Seen() == old(js.Seen())
    ensures cr.mode != "Jobs" && cr.mode != "Deployment" ==> err == Some(UnsupportedMode(cr.docker))
    ensures err.Some? ==> !err.value.SecretsInvalid? && !err.value.QueueUnavailable?
    ensures err.Some? && ownerSet && cr.mode in {"Deployment", "Jobs"} ==>
              ds.Setbacks() + js.Setbacks() > old(ds.Setbacks() + js.Setbacks())
    ensures err == None ==> InPlace(ds.Seen(), js.Seen(), old(js.Seen()), cr, replicas)
    ensures cr.mode == "Deployment" && ds.calm && ownerSet ==>
              err == None && Deployed(old(ds.Seen()), ds.Seen(), cr, replicas)
    ensures cr.mode == "Jobs" && js.calm && ownerSet ==>
              err == None && Started(old(js.Seen()), js.Seen(), cr)
  {
    var t := BuildPodTemplate(cr);
    if cr.mode == "Jobs" {
      t := t.(spec := t.spec.(restartPolicy := "Never"));
      var job := J.Job(cr.name, Some(OWN_LABELS["name" := cr.name]), None, t.spec.containers,
                       t.spec.(containers := []), [], 0);
      var e := ApplyJob(cr, job, ownerSet, js);
      return if e.Some? then Some(JobFailed(e.value)) else None;
    }
    if cr.mode == "Deployment" {
      var deployment := D.Deployment(cr.name, Some(OWN_LABELS["name" := cr.name]), Some(replicas), t.spec,
                                     t.labels, t.annotations, Some(D.Selector(Some(OWN_LABELS))), 0);
      var e := ApplyDeployment(cr, replicas, deployment, ownerSet, ds);
      return if e.Some? then Some(DeploymentFailed(e.value)) else None;
    }
    return Some(UnsupportedMode(cr.docker));
  }

  /** What the use case needs from outside to get as far as the workload. */
  predicate Ready(cr: AgentSpec, namespace: string, store: SecretStore, queue: Option<Int64>) {
    ValidatedFrom(store, namespace, cr.patSecret).Some? && PullAccepted(store, namespace, cr.pullSecret) && queue.Some?
  }

  /** In plain terms: the queue answers, the PAT is in the namespace or, if there is no
      such secret at all, in "default", and a pull secret, if named, likewise. */
  lemma ReadyMeaning(cr: AgentSpec, namespace: string, store: SecretStore, queue: Option<Int64>)
    ensures Ready(cr, namespace, store, queue) <==>
              && queue.Some?
              && (var (own, fallback) := (Get(store, namespace, cr.patSecret), Get(store, "default", cr.patSecret));
                  || (own.Found? && "PAT" in own.data)
                  || (own.NotFound? && fallback.Found? && "PAT" in fallback.data))
              && (var (own, fallback) := (Get(store, namespace, cr.pullSecret), Get(store, "default", cr.pullSecret));
                  cr.pullSecret == "" || own.Found? || (own.NotFound? && fallback.Found?))
  {}

  /** `n` is within the bounds of the spec, and the best count for the queue
      whenever the code can find it. */
  ghost predicate RightSize(n: int, queue: int, cr: AgentSpec) {
    var (lo, hi) := Bounds(cr.minReplicas, cr.maxReplicas);
    lo <= n <= hi && (0 <= queue ==> (IsOptimal(n, queue, lo, hi) <==> FindsOptimum(queue, lo, hi)))
  }

  /** `queue` is the answer of GetQueueLength, None for an error. */
  method Handle(cr: AgentSpec, namespace: string, status: AgentStatus, store: SecretStore, queue: Option<Int64>,
                now: int, ownerSet: bool, ds: Store<D.Deployment>, js: Store<J.Job>)
      returns (r: Result<int, HandleError>, written: AgentStatus)
    requires ds.Valid() && js.Valid()
    modifies ds, js
    ensures ds.Valid() && js.Valid()
    ensures r.Ok? ==> r.value == REQUEUE_SECONDS
    ensures r.Err? && (r.error.SecretsInvalid? || r.error.QueueUnavailable?) <==> !Ready(cr, namespace, store, queue)
    ensures !Ready(cr, namespace, store, queue) ==>
              r.Err? && written == status && ds.Seen() == old(ds.Seen()) && js.Seen() == old(js.Seen())
    ensures Ready(cr, namespace, store, queue) ==>
              var desired := DesiredReplicas(queue.value, cr.minReplicas, cr.maxReplicas);
              && DeploymentWrites(old(ds.Seen()), ds.Seen(), cr, desired) && JobWrites(old(js.Seen()), js.Seen(), cr)
              && (r.Ok? ==> InPlace(ds.Seen(), js.Seen(), old(js.Seen()), cr, desired))
    ensures Ready(cr, namespace, store, queue) ==>
              var desired := DesiredReplicas(queue.value, cr.minReplicas, cr.maxReplicas);
              written == AgentStatus(Wrap32(queue.value), desired, status.desired,
                                     if status.desired != desired then Some(now) else status.lastScalingTime)
    ensures Ready(cr, namespace, store, queue) ==> RightSize(written.desired, queue.value, cr)
    ensures Ready(cr, namespace, store, queue) && r.Err? && ownerSet && cr.mode in {"Deployment", "Jobs"} ==>
              ds.Setbacks() + js.Setbacks() > old(ds.Setbacks() + js.Setbacks())
    ensures Ready(cr, namespace, store, queue) && cr.mode == "Deployment" && ds.calm && ownerSet ==>
              && r.Ok? && js.Seen() == old(js.Seen())
              && Deployed(old(ds.Seen()), ds.Seen(), cr, DesiredReplicas(queue.value, cr.minReplicas, cr.maxReplicas))
    ensures Ready(cr, namespace, store, queue) && cr.mode == "Jobs" && js.calm && ownerSet ==>
              r.Ok? && ds.Seen() == old(ds.Seen()) && Started(old(js.Seen()), js.Seen(), cr)
  {
    written := status;
    var invalid := ValidateSecrets(store, namespace, cr.patSecret, cr.pullSecret);
    if invalid.Some? {
      return Err(SecretsInvalid), written;
    }
    if queue.None? {
      return Err(QueueUnavailable), written;
    }
    var current := status.desired;
    var desired := DetermineDesiredReplicas(queue.value, cr.minReplicas, cr.maxReplicas);
    written := written.(queued := Wrap32(queue.value));
    written := written.(desired := desired);
    written := written.(ready := current);
    if current != desired {
      written := written.(lastScalingTime := Some(now));
    }
    var err := ReconcileDeployment(cr, desired, ownerSet, ds, js);
    if err.Some? {
      return Err(err.value), written;
    }
    IdleIntervalIsDead(queue.value, cr.minReplicas, cr.maxReplicas);
    return Ok(RequeueSeconds(queue.value, desired)), written;
  }

  /** Settling is final: settling what is settled changes nothing. */
  lemma SettledIsFinal(before: Option<D.Deployment>, desired: D.Deployment)
    ensures D.Agrees(D.Settled(before, desired), desired)
    ensures D.Settled(Some(D.Settled(before, desired)), desired) == D.Settled(before, desired)
  {
    if before.Some? {
      D.MergeMeaning(before.value, desired);
    }
    D.MergeMeaning(desired, desired);
  }

  lemma SettledJobIsFinal(before: Option<J.Job>, desired: J.Job)
    ensures J.Settled(Some(J.Settled(before, desired)), desired) == J.Settled(before, desired)
    ensures J.Finished(J.Settled(before, desired)) || J.Agrees(J.Settled(before, desired), desired)
  {
    if before.Some? {
      J.MergeMeaning(before.value, desired);
    }
    J.MergeMeaning(desired, desired);
  }

  /** Quiescence.  With a stable spec and queue and nobody interfering, the first
      of any number of passes brings the Deployment, existing or not, to the
      desired managed fields, and no later pass writes it. */
  method DeploymentPasses(cr: AgentSpec, namespace: string, store: SecretStore, queue: Int64, times: seq<int>,
                          ds: Store<D.Deployment>, js: Store<J.Job>)
    requires ds.Valid() && js.Valid() && ds.calm && cr.mode == "Deployment" && |times| > 0
    requires Ready(cr, namespace, store, Some(queue))
    modifies ds, js
    ensures var replicas := DesiredReplicas(queue, cr.minReplicas, cr.maxReplicas);
            var desired := D.StandardLabels(DesiredDeployment(cr, replicas));
            && ds.current == Some(D.Settled(old(ds.current), desired)) && D.Agrees(ds.current.value, desired)
            && KeepsAgents(ds.current.value, cr, replicas) && RightSize(replicas, queue, cr)
            && ds.commits == old(ds.commits) + (if ds.current == old(ds.current) then 0 else 1)
  {
    ghost var replicas := DesiredReplicas(queue, cr.minReplicas, cr.maxReplicas);
    ghost var desired := D.StandardLabels(DesiredDeployment(cr, replicas));
    SettledIsFinal(ds.current, desired);
    SettledKeepsAgents(ds.current, cr, replicas);
    var status := AgentStatus(0, 0, 0, None);
    for i := 0 to |times|
      invariant ds.Valid() && js.Valid()
      invariant i == 0 ==> ds.current == old(ds.current) && ds.commits == old(ds.commits)
      invariant i > 0 ==>
                  && RightSize(replicas, queue, cr)
                  && ds.current == Some(D.Settled(old(ds.current), desired))
                  && ds.commits == old(ds.commits) + (if ds.current == old(ds.current) then 0 else 1)
    {
      var r, written := Handle(cr, namespace, status, store, Some(queue), times[i], true, ds, js);
      status := written;
    }
  }

  /** The same for a Job, which an undisturbed pass leaves alone once finished. */
  method JobPasses(cr: AgentSpec, namespace: string, store: SecretStore, queue: Int64, times: seq<int>,
                   ds: Store<D.Deployment>, js: Store<J.Job>)
    requires ds.Valid() && js.Valid() && js.calm && cr.mode == "Jobs" && |times| > 0
    requires Ready(cr, namespace, store, Some(queue))
    modifies ds, js
    ensures var desired := J.StandardLabels(DesiredJob(cr));
            && js.current == Some(J.Settled(old(js.current), desired))
            && (J.Finished(js.current.value)
                || (J.Agrees(js.current.value, desired) && StartsAgents(js.current.value, cr)))
            && js.commits == old(js.commits) + (if js.current == old(js.current) then 0 else 1)
  {
    ghost var desired := J.StandardLabels(DesiredJob(cr));
    SettledJobIsFinal(js.current, desired);
    SettledStartsAgents(js.current, cr);
    var status := AgentStatus(0, 0, 0, None);
    for i := 0 to |times|
      invariant ds.Valid() && js.Valid()
      invariant i == 0 ==> js.current == old(js.current) && js.commits == old(js.commits)
      invariant i > 0 ==>
                  && js.current == Some(J.Settled(old(js.current), desired))
                  && js.commits == old(js.commits) + (if js.current == old(js.current) then 0 else 1)
    {
      var r, written := Handle(cr, namespace, status, store, Some(queue), times[i], true, ds, js);
      status := written;
    }
  }
}
