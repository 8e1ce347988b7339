/** The controller's Reconcile method, statement by statement, against a world
    that moves on its own before every call is answered.  Its contract: whatever
    the world does, the pass is a run of the reconcile protocol. */
module ReconcileLoop {
  import opened Wrappers
  import opened AgentMatching
  import opened FinalizerProtocol
  import opened FinalizerSafety
  import opened CleanupConvergence
  import opened VersionedStore
  import opened GoInts
  import opened Scaling
  import opened PodTemplates
  import D = DeploymentUpdate
  import J = JobUpdate
  import S = StatusUpdate
  import Backoff
  import Secrets
  import UseCase

  lemma {:induction false} SameStarts(acts: seq<Action>, longer: seq<Action>, a: nat, b: nat)
    requires a <= b <= |acts| <= |longer| && acts == longer[..|acts|]
    ensures Starts(acts, a, b) == Starts(longer, a, b)
  {
    if a < b {
      SameStarts(acts, longer, a, b - 1);
    }
  }

  /** What the last successful read of the resource between steps `a` and `b` found. */
  function FoundSince(r: Run, a: nat, b: nat): Option<Cr>
    requires a <= b <= |r.acts| < |r.states|
  {
    if a == b then None
    else if r.states[b - 1].pc.ReadCr? && r.acts[b - 1] == Call(Done) then r.states[b - 1].cr
    else FoundSince(r, a, b - 1)
  }

  lemma {:induction false} SameFound(r: Run, longer: Run, a: nat, b: nat)
    requires a <= b <= |r.acts| < |r.states| && |longer.acts| < |longer.states|
    requires r.acts <= longer.acts && r.states <= longer.states
    ensures FoundSince(r, a, b) == FoundSince(longer, a, b)
  {
    if a < b {
      SameFound(r, longer, a, b - 1);
    }
  }

  lemma EnvironmentKeepsPc(s: State, a: Action)
    requires !IsControl(a) && !a.Restart? && EnvEnabled(s, a)
    ensures Apply(s, a).pc == s.pc && Apply(s, a).crName == s.crName && Apply(s, a).workloads == s.workloads
  {}

  function AfterServing(cr: Cr, stage: Stage, reply: Reply): Pc {
    match stage
    case Processing => Work(cr, PatRead)
    case PatRead => Work(cr, if reply == Done then QueueRead else Report(false))
    case QueueRead => Work(cr, if reply == Done then Validation else Report(false))
    case Validation => Work(cr, if reply == Done then Workload else Report(false))
    case Workload => Work(cr, if reply == Done then ReadBack else Report(false))
    case ReadBack => Work(cr, Report(true))
    case Report(_) => Idle
  }

  lemma ServingStep(s: State, reply: Reply)
    requires s.pc.Work?
    ensures Enabled(s, Call(reply))
    ensures var s' := Apply(s, Call(reply));
            && s'.crName == s.crName && s'.pc == AfterServing(s.pc.cr, s.pc.stage, reply)
            && (Guarded(s, s.pc.cr.uid) ==> Guarded(s', s.pc.cr.uid))
            && s.workloads <= s'.workloads
            && (s.pc.stage == Workload && reply != NoEffect ==> s.pc.cr.uid in s'.workloads)
            && (Fails(s, Call(reply)) <==> s.pc.stage == Report(false))
  {
    assert Apply(s, Call(reply)) == WorkStep(s, reply).(clock := s.clock + 1);
  }

  /** The world, as the API server and Azure DevOps hold it, with the run of the
      protocol that led to it. */
  class World {
    var now: State
    ghost var run: Run
    ghost var began: Run      // the run when the current pass began
    ghost var passes: nat     // passes begun since then
    ghost var found: Option<Cr>   // the resource as read since then
    ghost var prior: State    // the state before the last step
    ghost var last: Action

    ghost predicate Valid()
      reads this
    {
      && IsRun(run) && run.states[|run.acts|] == now
      && began.states <= run.states && began.acts <= run.acts
      && passes == Starts(run.acts, |began.acts|, |run.acts|)
      && found == FoundSince(run, |began.acts|, |run.acts|)
    }

    constructor (crName: string, pools: map<string, int>)
      ensures Valid() && now == State(crName, None, 0, 0, pools, map[], {}, Idle, 0)
    {
      var s := State(crName, None, 0, 0, pools, map[], {}, Idle, 0);
      now := s;
      run := Run([s], []);
      began, passes, found := Run([s], []), 0, None;
    }

    /** A new pass is about to begin. */
    ghost method Begin()
      requires Valid()
      modifies this`began, this`passes, this`found
      ensures Valid() && began == run && passes == 0 && found == None
    {
      began, passes, found := run, 0, None;
    }

    method Take(a: Action)
      requires Valid() && Enabled(now, a)
      modifies this
      ensures Valid() && prior == old(now) && last == a && now == Apply(prior, a)
      ensures began == old(began) && passes == old(passes) + (if a.PodLookup? then 1 else 0)
      ensures found == if prior.pc.ReadCr? && a == Call(Done) then prior.cr else old(found)
    {
      RunGoesOn(run, a);
      prior, last := now, a;
      now := Apply(now, a);
      ghost var before := run;
      run := Run(run.states + [now], run.acts + [a]);
      passes := passes + (if a.PodLookup? then 1 else 0);
      SameStarts(before.acts, run.acts, |began.acts|, |before.acts|);
      SameFound(before, run, |began.acts|, |before.acts|);
      found := if prior.pc.ReadCr? && a == Call(Done) then prior.cr else found;
    }

    /** Any number of environment steps; a restart would abandon the pass. */
    method Interleave()
      requires Valid()
      modifies this
      ensures Valid() && now.pc == old(now.pc)
      ensures now.crName == old(now.crName) && now.workloads == old(now.workloads)
      ensures began == old(began) && passes == old(passes) && found == old(found)
    {
      var n: nat := *;
      while n > 0
        invariant Valid() && now.pc == old(now.pc)
        invariant now.crName == old(now.crName) && now.workloads == old(now.workloads)
        invariant began == old(began) && passes == old(passes) && found == old(found)
      {
        var a: Action := *;
        if !IsControl(a) && !a.Restart? && EnvEnabled(now, a) {
          EnvironmentKeepsPc(now, a);
          Take(a);
        }
        n := n - 1;
      }
    }

    /** The controller took one step from where it was, perhaps after others moved. */
    twostate predicate Stepped()
      requires old(Valid())
      reads this
    {
      && Valid() && prior.pc == old(now.pc) && prior.crName == old(now.crName) == now.crName
      && Enabled(prior, last) && IsControl(last) && now == Apply(prior, last)
      && began == old(began) && passes == old(passes) + (if last.PodLookup? then 1 else 0)
      && found == if prior.pc.ReadCr? && last == Call(Done) then prior.cr else old(found)
    }

    // ---------- the calls of a pass ----------

    method GetPod() returns (answer: PodAnswer)
      requires Valid() && now.pc.Idle?
      modifies this
      ensures Stepped() && last == PodLookup(answer)
    {
      Interleave();
      answer := *;
      Take(PodLookup(answer));
    }

    method GetCr() returns (reply: Reply, cr: Option<Cr>)
      requires Valid() && now.pc.ReadCr?
      modifies this
      ensures Stepped() && last == Call(reply) && cr == prior.cr
    {
      Interleave();
      reply := *;
      cr := now.cr;
      Take(Call(reply));
    }

    method GetOwner() returns (pool: Option<string>)
      requires Valid() && now.pc.ReadOwner?
      modifies this
      ensures Stepped() && last == if pool.Some? then OwnerRead(pool.value) else Call(NoEffect)
    {
      Interleave();
      var fails: bool := *;
      var p: string := *;
      if now.pc.owner == now.crName {
        if now.cr.None? {
          fails := true;
        } else {
          p := now.cr.value.pool;
        }
      }
      pool := if fails then None else Some(p);
      Take(if fails then Call(NoEffect) else OwnerRead(p));
    }

    method GetPATToken() returns (reply: Reply)
      requires Valid() && now.pc.ReadPat?
      modifies this
      ensures Stepped() && (reply != Done <==> Fails(prior, last))
      ensures now.pc == if reply == Done then ResolvePool(old(now.pc.goal)) else Idle
    {
      Interleave();
      reply := *;
      Take(Call(reply));
    }

    /** The protocol's view of a call that serves the queue, given how it ended. */
    method Serve(reply: Reply)
      requires Valid() && now.pc.Work?
      modifies this
      ensures Advanced() && (Fails(prior, last) <==> old(now.pc.stage) == Report(false))
      ensures now.pc == AfterServing(old(now.pc.cr), old(now.pc.stage), reply)
      ensures old(now.workloads) <= now.workloads
      ensures old(now.pc.stage) == Workload && reply != NoEffect ==> old(now.pc.cr.uid) in now.workloads
      ensures Guarded(now, old(now.pc.cr.uid))
    {
      Interleave();
      RunKeepsInv(run, |run.acts|);
      ServingStep(now, reply);
      Take(Call(reply));
    }

    /** The pending write of the resource. */
    method Update(obj: Cr) returns (written: Option<Cr>)
      requires Valid()
      requires match now.pc
               case DropFinalizer(c, _, _, _) => obj == RemoveFinalizer(c)
               case PersistFinalizer(c) => obj == c
               case PersistAgain(c) => obj == c
               case _ => false
      modifies this
      ensures Stepped() && (written.None? <==> Fails(prior, last))
      ensures now.pc == if written.Some? && old(now.pc.PersistFinalizer?) then PersistAgain(written.value) else Idle
      ensures written.Some? ==>
                && written.value.(rv := obj.rv) == obj
                && (now.cr == Some(written.value) || (now.cr.None? && obj.deleting))
    {
      Interleave();
      var reply: Reply := *;
      written := UpdateCr(now, obj, reply).1;
      Take(Call(reply));
    }

    method GetPoolIDByName(pool: string) returns (id: Option<int>)
      requires Valid() && now.pc.ResolvePool? && PoolOf(now.pc.goal) == pool
      modifies this
      ensures Stepped() && (id.None? <==> Fails(prior, last))
      ensures now.pc == if id.Some? then ListAgents(old(now.pc.goal), id.value) else Idle
    {
      Interleave();
      var reply: Reply := *;
      id := if reply == Done && pool in now.pools then Some(now.pools[pool]) else None;
      Take(Call(reply));
    }

    /** The pool's agents in any order. */
    method Enumerate(poolId: int) returns (l: seq<Agent>)
      ensures IsListing(now, poolId, l)
    {
      l := [];
      var keys := set key | key in now.agents && key.pool == poolId;
      while keys != {}
        invariant forall key :: key in keys ==> key in now.agents && key.pool == poolId
        invariant forall i :: 0 <= i < |l| ==>
                    var key := AgentKey(poolId, l[i].id);
                    key in now.agents && key !in keys
                    && l[i] == Agent(key.id, now.agents[key].name, now.agents[key].enabled)
        invariant forall key :: key in now.agents && key.pool == poolId && key !in keys ==>
                    Agent(key.id, now.agents[key].name, now.agents[key].enabled) in l
        invariant forall i, j :: 0 <= i < j < |l| ==> l[i].id != l[j].id
        decreases keys
      {
        var key :| key in keys;
        l := l + [Agent(key.id, now.agents[key].name, now.agents[key].enabled)];
        keys := keys - {key};
      }
    }

    method GetAgentsInPool(poolId: int) returns (agents: Option<seq<Agent>>)
      requires Valid() && now.pc.ListAgents? && now.pc.poolId == poolId
      modifies this
      ensures Stepped() && (agents.None? <==> Fails(prior, last))
      ensures now.pc == if agents.None? then Idle
                        else Sweep(old(now.pc.goal), poolId, agents.value, 0, false, prior.clock)
    {
      Interleave();
      var fails: bool := *;
      if fails {
        agents := None;
        Take(Call(NoEffect));
      } else {
        var l := Enumerate(poolId);
        agents := Some(l);
        Take(Listed(l));
      }
    }

    method DisableAgent(key: AgentKey) returns (ok: bool)
      requires Valid() && AtSelected(now) && MustDisable(now.pc) && CurrentKey(now.pc) == key
      modifies this
      ensures Stepped() && (ok <==> !Fails(prior, last))
      ensures now.pc == if ok then old(now.pc.(disabled := true)) else Idle
      ensures ok ==> key.pool > 0 && key.id > 0 && (key in now.agents ==> !now.agents[key].enabled)
    {
      Interleave();
      var reply: Reply := *;
      ok := ValidIds(key) && reply == Done;
      Take(Call(reply));
    }

    method DeleteAgent(key: AgentKey) returns (ok: bool)
      requires Valid() && AtSelected(now) && !MustDisable(now.pc) && CurrentKey(now.pc) == key
      modifies this
      ensures Stepped() && (ok <==> !Fails(prior, last))
      ensures now.pc == if ok then old(now.pc.(next := now.pc.next + 1, disabled := false)) else Idle
      ensures ok ==> key !in now.agents
    {
      Interleave();
      var reply: Reply := *;
      ok := reply == Done;
      Take(Call(reply));
    }

    /** A loop turn that calls nobody. */
    method LoopTurn()
      requires Valid() && now.pc.Sweep? && !AtSelected(now)
      modifies this
      ensures Stepped() && !Fails(prior, last)
      ensures now.pc == if old(now.pc.next < |now.pc.agents|)
                        then old(now.pc.(next := now.pc.next + 1, disabled := false))
                        else AfterSweep(old(now.pc))
    {
      Take(Local);
    }

    /** The same after the resource has been looked for. */
    twostate predicate Advanced()
      requires old(Valid())
      reads this
    {
      Moved() && found == old(found)
    }

    /** The controller moved within its pass; the last step was its own. */
    twostate predicate Moved()
      requires old(Valid())
      reads this
    {
      && Valid() && now.crName == old(now.crName)
      && Enabled(prior, last) && IsControl(last)
      && began == old(began) && passes == old(passes)
    }

    /** The pass is over and reports what its last step came to. */
    twostate predicate Finished(err: bool)
      requires old(Valid())
      reads this
    {
      Advanced() && now.pc.Idle? && err == Fails(prior, last)
    }
  }

  /** The loop shared by deleteExternalAzDOResources and handlePodEvent. */
  method DeleteMatchingAgents(w: World, goal: Goal) returns (err: bool)
    requires w.Valid() && w.now.pc == ResolvePool(goal)
    modifies w
    ensures w.Advanced() && err == Fails(w.prior, w.last)
    ensures if !err && goal.CleanUp? then w.now.pc.DropFinalizer? && w.now.pc.cr == goal.cr else w.now.pc.Idle?
    ensures !err && goal.PodGone? ==>
              w.prior.pc.Sweep? && w.prior.pc.goal == goal && |w.prior.pc.agents| <= w.prior.pc.next
  {
    var poolId := w.GetPoolIDByName(PoolOf(goal));
    if poolId.None? {
      return true;
    }
    var agents := w.GetAgentsInPool(poolId.value);
    if agents.None? {
      return true;
    }
    err := SweepListed(w, goal, agents.value);
  }

  method SweepListed(w: World, goal: Goal, l: seq<Agent>) returns (err: bool)
    requires w.Valid() && w.now.pc.Sweep?
    requires w.now.pc == Sweep(goal, w.now.pc.poolId, l, 0, false, w.now.pc.listedAt)
    modifies w
    ensures w.Advanced() && err == Fails(w.prior, w.last)
    ensures if !err && goal.CleanUp? then w.now.pc.DropFinalizer? && w.now.pc.cr == goal.cr else w.now.pc.Idle?
    ensures !err && goal.PodGone? ==>
              w.prior.pc.Sweep? && w.prior.pc.goal == goal && |w.prior.pc.agents| <= w.prior.pc.next
  {
    ghost var poolId, listedAt := w.now.pc.poolId, w.now.pc.listedAt;
    for i := 0 to |l|
      invariant w.Valid() && w.now.crName == old(w.now.crName)
      invariant w.began == old(w.began) && w.passes == old(w.passes) && w.found == old(w.found)
      invariant w.now.pc == Sweep(goal, poolId, l, i, false, listedAt)
    {
      if HasPrefix(l[i].name, Prefix(w.now, goal)) {
        var ok := DeleteListedAgent(w, l[i]);
        if !ok {
          return true;
        }
      } else {
        w.LoopTurn();
      }
    }
    w.LoopTurn();
    return false;
  }

  /** The body of that loop for a matching agent: disable if enabled, delete. */
  method DeleteListedAgent(w: World, agent: Agent) returns (ok: bool)
    requires w.Valid() && AtSelected(w.now) && !w.now.pc.disabled && agent == w.now.pc.agents[w.now.pc.next]
    modifies w
    ensures w.Advanced() && (ok <==> !Fails(w.prior, w.last))
    ensures w.now.pc == if ok then old(w.now.pc.(next := w.now.pc.next + 1)) else Idle
  {
    if agent.enabled {
      ok := w.DisableAgent(AgentKey(w.now.pc.poolId, agent.id));
      if !ok {
        return;
      }
    }
    ok := w.DeleteAgent(AgentKey(w.now.pc.poolId, agent.id));
  }

  /** Without an error the sweep has passed every agent it listed. */
  method HandlePodEvent(w: World) returns (err: bool)
    requires w.Valid() && w.now.pc.ReadOwner?
    modifies w
    ensures w.Finished(err)
    ensures !err ==> w.prior.pc.Sweep? && w.prior.pc.goal.PodGone? && |w.prior.pc.agents| <= w.prior.pc.next
  {
    var pool := w.GetOwner();
    if pool.None? {
      return true;
    }
    var pat := w.GetPATToken();
    if pat != Done {
      return true;
    }
    err := DeleteMatchingAgents(w, PodGone(pool.value));
  }

  method FinalizeCr(w: World, cr: Cr) returns (err: bool)
    requires w.Valid() && w.now.pc == ReadPat(CleanUp(cr))
    modifies w
    ensures w.Finished(err) && (!err ==> !Guarded(w.now, cr.uid))
  {
    var pat := w.GetPATToken();
    if pat != Done {
      return true;
    }
    err := DeleteMatchingAgents(w, CleanUp(cr));
    if err {
      return true;
    }
    var written := w.Update(RemoveFinalizer(cr));
    err := written.None?;
  }

  method RegisterFinalizer(w: World, cr: Cr) returns (err: bool)
    requires w.Valid() && w.now.pc == PersistFinalizer(AddFinalizer(cr)) && !cr.deleting
    modifies w
    ensures w.Finished(err) && (!err ==> Guarded(w.now, cr.uid) && w.prior.pc.PersistAgain?)
  {
    var written := w.Update(AddFinalizer(cr));
    if written.None? {
      return true;
    }
    var again := w.Update(written.value);
    err := again.None?;
  }

  // ---------- serving the queue ----------

  /** What the Deployment looked up for the status shows. */
  datatype Shown = Shown(replicas: int, ready: int)

  /** What the resource asks for, and what the reads of a pass answer: secrets and
      queue are read by the controller, then again by the use case. */
  datatype Inputs = Inputs(
    spec: AgentSpec, namespace: string, ownerSet: bool, snapshot: S.Status, now: int,
    tokenSecrets: Secrets.SecretStore, queue: Option<Int64>,
    secrets: Secrets.SecretStore, queueAgain: Option<Int64>, shown: Option<Shown>,
    complaint: string)   // what a failure is reported as

  predicate TokenReadable(i: Inputs) {
    Secrets.ReadFrom(i.tokenSecrets, i.namespace, i.spec.patSecret).Some?
  }

  predicate Checked(i: Inputs) {
    UseCase.Ready(i.spec, i.namespace, i.secrets, i.queueAgain)
  }

  /** Everything a pass needs to get as far as the workload. */
  predicate Served(i: Inputs) {
    TokenReadable(i) && i.queue.Some? && Checked(i)
  }

  /** Deployment and Job as seen at one moment, and whether others leave them alone. */
  datatype Views = Views(deployment: View<D.Deployment>, job: View<J.Job>, deploymentCalm: bool, jobCalm: bool)

  ghost function Seen(ds: Store<D.Deployment>, js: Store<J.Job>): Views
    reads ds, js
  {
    Views(ds.Seen(), js.Seen(), ds.calm, js.calm)
  }

  /** In plain terms: the token is held under the resource's own reference, the queue
      answers, and then again pass the use case's checks. */
  lemma ServedMeaning(i: Inputs)
    ensures Served(i) <==>
              && Secrets.ReadFrom(i.tokenSecrets, i.namespace, i.spec.patSecret) in
                   {Some(i.namespace), Some("default")}
              && i.queue.Some? && i.queueAgain.Some?
              && Secrets.ValidatedFrom(i.secrets, i.namespace, i.spec.patSecret).Some?
              && Secrets.PullAccepted(i.secrets, i.namespace, i.spec.pullSecret)
  {
    Secrets.ReadFromMeaning(i.tokenSecrets, i.namespace, i.spec.patSecret);
  }

  /** The operator stored a Deployment or Job. */
  predicate Created(before: Views, after: Views) {
    after.deployment.commits > before.deployment.commits || after.job.commits > before.job.commits
  }

  /** What the use case makes of the workload: one lossless write at most, success
      only if it is as desired, failure only for a reason, and with nobody
      interfering success. */
  ghost predicate Supplied(i: Inputs, queue: Int64, ok: bool, before: Views, after: Views) {
    var desired := DesiredReplicas(queue, i.spec.minReplicas, i.spec.maxReplicas);
    && UseCase.DeploymentWrites(before.deployment, after.deployment, i.spec, desired)
    && UseCase.JobWrites(before.job, after.job, i.spec)
    && (ok ==> UseCase.InPlace(after.deployment, after.job, before.job, i.spec, desired))
    && (!ok && i.ownerSet && i.spec.mode in {"Deployment", "Jobs"} ==>
          before.deployment.setbacks + before.job.setbacks < after.deployment.setbacks + after.job.setbacks)
    && (i.spec.mode == "Deployment" && before.deploymentCalm && i.ownerSet ==>
          ok && UseCase.Deployed(before.deployment, after.deployment, i.spec, desired))
    && (i.spec.mode == "Jobs" && before.jobCalm && i.ownerSet ==>
          ok && UseCase.Started(before.job, after.job, i.spec))
  }

  /** Without the checks nothing is touched. */
  ghost predicate Outcome(i: Inputs, checked: bool, ok: bool, before: Views, after: Views) {
    if checked && i.queueAgain.Some? then Supplied(i, i.queueAgain.value, ok, before, after)
    else !ok && before == after
  }

  method RunUseCase(i: Inputs, ds: Store<D.Deployment>, js: Store<J.Job>) returns (checked: bool, ok: bool)
    requires ds.Valid() && js.Valid()
    modifies ds, js
    ensures ds.Valid() && js.Valid() && checked == Checked(i)
    ensures Outcome(i, checked, ok, old(Seen(ds, js)), Seen(ds, js))
  {
    var was := UseCase.AgentStatus(i.snapshot.queuedJobs, i.snapshot.desiredAgents, i.snapshot.readyAgents,
                                   i.snapshot.lastScalingTime);
    var r, _ := UseCase.Handle(i.spec, i.namespace, was, i.secrets, i.queueAgain, i.now, i.ownerSet, ds, js);
    ok := r.Ok?;
    checked := !(r.Err? && (r.error.SecretsInvalid? || r.error.QueueUnavailable?));
  }

  /** The use case as the protocol sees it: the checks, then the workload.  An
      error may hide a commit. */
  method FollowUseCase(w: World, cr: Cr, checked: bool, ok: bool)
    requires w.Valid() && w.now.pc == Work(cr, Validation) && (ok ==> checked)
    modifies w
    ensures w.Advanced() && w.now.pc == Work(cr, if ok then ReadBack else Report(false))
    ensures checked ==> cr.uid in w.now.workloads
  {
    w.Serve(if checked then Done else NoEffect);
    if checked {
      w.Serve(if ok then Done else LostReply);
    }
  }

  method UseIt(w: World, cr: Cr, i: Inputs, ds: Store<D.Deployment>, js: Store<J.Job>) returns (ok: bool)
    requires w.Valid() && w.now.pc == Work(cr, Validation) && ds.Valid() && js.Valid()
    modifies w, ds, js
    ensures w.Advanced() && w.now.pc == Work(cr, if ok then ReadBack else Report(false))
    ensures ds.Valid() && js.Valid() && Outcome(i, Checked(i), ok, old(Seen(ds, js)), Seen(ds, js))
    ensures Created(old(Seen(ds, js)), Seen(ds, js)) ==> cr.uid in w.now.workloads
  {
    var checked;
    checked, ok := RunUseCase(i, ds, js);
    FollowUseCase(w, cr, checked, ok);
  }

  /** The status the pass reports at its end, from the copy it took at its start. */
  function FinalStatus(i: Inputs, ok: bool): S.Status {
    if !TokenReadable(i) || i.queue.None? then i.snapshot
    else
      var counted := i.snapshot.(queuedJobs := Wrap32(i.queue.value));
      if !ok || i.shown.None? then counted
      else
        var Shown(replicas, ready) := i.shown.value;
        counted.(currentAgents := ready, desiredAgents := replicas, readyAgents := ready,
                 lastScalingTime := if counted.currentAgents != ready then Some(i.now) else counted.lastScalingTime)
  }

  /** What it reports: first the copy it took, as being processed; at the end the
      job count once the queue is known, the counters of the Deployment shown once
      all went well, and the outcome. */
  lemma FinalStatusMeaning(i: Inputs, ok: bool)
    ensures var s := FinalStatus(i, ok);
            && (!TokenReadable(i) || i.queue.None? ==> s == i.snapshot)
            && (TokenReadable(i) && i.queue.Some? && IsInt32(i.queue.value) ==> s.queuedJobs == i.queue.value)
            && (s.currentAgents, s.desiredAgents, s.readyAgents)
               == (if ok && TokenReadable(i) && i.queue.Some? && i.shown.Some?
                   then (i.shown.value.ready, i.shown.value.replicas, i.shown.value.ready)
                   else (i.snapshot.currentAgents, i.snapshot.desiredAgents, i.snapshot.readyAgents))
            && s.lastScalingTime == (if s.currentAgents != i.snapshot.currentAgents then Some(i.now)
                                     else i.snapshot.lastScalingTime)
            && LastWord(i, ok) == if ok then Said(s, "Ready", "Successfully reconciled Azure DevOps agent pool")
                                  else Said(s, "Failed", i.complaint)
  {}

  /** What the controller says in one status update. */
  datatype Said = Said(from: S.Status, phase: string, message: string)

  function FirstWord(i: Inputs): Said {
    Said(i.snapshot, "Processing", "Reconciling Azure DevOps agent pool")
  }

  function LastWord(i: Inputs, ok: bool): Said {
    if ok then Said(FinalStatus(i, ok), "Ready", "Successfully reconciled Azure DevOps agent pool")
    else Said(FinalStatus(i, ok), "Failed", i.complaint)
  }

  predicate Heard(v: Option<S.AzureDevOps>, said: Said) {
    v.Some? && S.Shows(v.value, said.from, said.phase, said.message)
  }

  /** Each of `said` was written or met a setback; status writes keep spec, times
      and other conditions; undisturbed, they show one after the other. */
  ghost predicate Reported(before: View<S.AzureDevOps>, after: View<S.AzureDevOps>, calm: bool, said: seq<Said>) {
    var n := |before.history|;
    && before.history <= after.history && before.commits <= after.commits <= before.commits + |said|
    && before.setbacks <= after.setbacks
    && (after.commits == before.commits + |said| || before.setbacks < after.setbacks)
    && OwnWritesAre(after.history, n, S.StatusFrame)
    && (calm && before.current.Some? ==>
          && |after.history| == n + |said| && after.current.Some?
          && (forall i :: 0 <= i < |said| ==> Heard(after.history[n + i].value, said[i]))
          && (said != [] ==> Heard(after.current, said[|said| - 1])))
  }

  lemma ReportsAddUp(first: View<S.AzureDevOps>, between: View<S.AzureDevOps>, last: View<S.AzureDevOps>, calm: bool,
                     a: Said, b: Said)
    requires Reported(first, between, calm, [a]) && Reported(between, last, calm, [b])
    ensures Reported(first, last, calm, [a, b])
  {
    if calm && first.current.Some? {
      var n := |first.history|;
      assert Heard(between.history[n + 0].value, [a][0]);
      assert Heard(last.history[n + 1 + 0].value, [b][0]);
      assert last.history[n] == between.history[n];
    }
  }

  /** Whether the status write took effect, the controller is not told. */
  method ReportPhase(w: World, ss: Store<S.AzureDevOps>, said: Said)
    requires w.Valid() && w.now.pc.Work? && (w.now.pc.stage.Processing? || w.now.pc.stage.Report?) && ss.Valid()
    modifies w, ss
    ensures w.Advanced() && (Fails(w.prior, w.last) <==> old(w.now.pc.stage) == Report(false))
    ensures w.now.pc == (if old(w.now.pc.stage.Processing?) then Work(old(w.now.pc.cr), PatRead) else Idle)
    ensures old(w.now.workloads) <= w.now.workloads && Guarded(w.now, old(w.now.pc.cr.uid))
    ensures ss.Valid() && Reported(old(ss.Seen()), ss.Seen(), ss.calm, [said])
  {
    S.UpdateStatus(ss, said.from, said.phase, said.message);
    var reply: Reply := *;
    w.Serve(reply);
  }

  const SECOND := 1_000_000_000

  /** How soon a pass asks to be repeated: after a missing token in a minute, after
      a failed queue check by the backoff, after a failed use case at once. */
  function RequeueAfter(i: Inputs, ok: bool): int {
    if ok then REQUEUE_SECONDS * SECOND
    else if !TokenReadable(i) then Backoff.MINUTE
    else if i.queue.None? then Backoff.RequeueInterval(S.FailureAge(i.snapshot, i.now))
    else 0
  }

  /** In nanoseconds: half a minute after success, a minute without a token or if no
      earlier failure is on record, never more than five. */
  lemma RequeueMeaning(i: Inputs)
    ensures RequeueAfter(i, true) == 30_000_000_000
    ensures !TokenReadable(i) ==> RequeueAfter(i, false) == 60_000_000_000
    ensures TokenReadable(i) && i.queue.None? && i.snapshot.lastFailedCheck.None? ==>
              RequeueAfter(i, false) == 60_000_000_000
    ensures TokenReadable(i) && i.queue.Some? ==> RequeueAfter(i, false) == 0
    ensures RequeueAfter(i, false) <= 300_000_000_000
  {
    if S.FailureAge(i.snapshot, i.now).Some? {
      Backoff.BackoffIsIdealIff(S.FailureAge(i.snapshot, i.now).value);
    }
  }

  method ReadTokenAndQueue(w: World, cr: Cr, i: Inputs) returns (ok: bool)
    requires w.Valid() && w.now.pc == Work(cr, PatRead)
    modifies w
    ensures w.Advanced() && w.now.pc == Work(cr, if ok then Validation else Report(false))
    ensures ok <==> TokenReadable(i) && i.queue.Some?
  {
    var token := Secrets.GetPATToken(i.tokenSecrets, i.namespace, i.spec.patSecret);
    w.Serve(if token.Ok? then Done else NoEffect);
    if token.Err? {
      return false;
    }
    w.Serve(if i.queue.Some? then Done else NoEffect);
    ok := i.queue.Some?;
  }

  /** Token, queue length, use case; the first failure ends it. */
  method Provision(w: World, cr: Cr, i: Inputs, ds: Store<D.Deployment>, js: Store<J.Job>) returns (ok: bool)
    requires w.Valid() && w.now.pc == Work(cr, PatRead) && ds.Valid() && js.Valid()
    modifies w, ds, js
    ensures w.Advanced() && w.now.pc == Work(cr, if ok then ReadBack else Report(false))
    ensures ds.Valid() && js.Valid() && Outcome(i, Served(i), ok, old(Seen(ds, js)), Seen(ds, js))
    ensures Created(old(Seen(ds, js)), Seen(ds, js)) ==> cr.uid in w.now.workloads
  {
    ok := ReadTokenAndQueue(w, cr, i);
    if ok {
      ok := UseIt(w, cr, i, ds, js);
    }
  }

  /** Look up the Deployment for the status, if all went well, and report. */
  method FinishServing(w: World, cr: Cr, i: Inputs, ok: bool, ss: Store<S.AzureDevOps>)
    requires w.Valid() && w.now.pc == Work(cr, if ok then ReadBack else Report(false)) && ss.Valid()
    modifies w, ss
    ensures w.Finished(!ok) && old(w.now.workloads) <= w.now.workloads && Guarded(w.now, cr.uid)
    ensures ss.Valid()
    ensures Reported(old(ss.Seen()), ss.Seen(), ss.calm, [LastWord(i, ok)])
  {
    if ok {
      w.Serve(NoEffect);
    }
    ReportPhase(w, ss, LastWord(i, ok));
  }

  method ProvideAndReport(w: World, cr: Cr, i: Inputs, ss: Store<S.AzureDevOps>, ds: Store<D.Deployment>,
                          js: Store<J.Job>) returns (err: bool)
    requires w.Valid() && w.now.pc == Work(cr, PatRead) && ss.Valid() && ds.Valid() && js.Valid()
    modifies w, ss, ds, js
    ensures w.Finished(err) && Guarded(w.now, cr.uid) && ss.Valid() && ds.Valid() && js.Valid()
    ensures Outcome(i, Served(i), !err, old(Seen(ds, js)), Seen(ds, js))
    ensures Reported(old(ss.Seen()), ss.Seen(), ss.calm, [LastWord(i, !err)])
    ensures Created(old(Seen(ds, js)), Seen(ds, js)) ==> cr.uid in w.now.workloads
  {
    var ok := Provision(w, cr, i, ds, js);
    FinishServing(w, cr, i, ok, ss);
    err := !ok;
  }

  /** The serving part of a pass. */
  method ServeQueue(w: World, cr: Cr, i: Inputs, ss: Store<S.AzureDevOps>, ds: Store<D.Deployment>,
                    js: Store<J.Job>) returns (err: bool, after: int)
    requires w.Valid() && w.now.pc == Work(cr, Processing) && ss.Valid() && ds.Valid() && js.Valid()
    modifies w, ss, ds, js
    ensures w.Finished(err) && ss.Valid() && ds.Valid() && js.Valid() && after == RequeueAfter(i, !err)
    ensures Guarded(w.now, cr.uid)
    ensures Outcome(i, Served(i), !err, old(Seen(ds, js)), Seen(ds, js))
    ensures Reported(old(ss.Seen()), ss.Seen(), ss.calm, [FirstWord(i), LastWord(i, !err)])
    ensures Created(old(Seen(ds, js)), Seen(ds, js)) ==> cr.uid in w.now.workloads
  {
    ghost var first := ss.Seen();
    ReportPhase(w, ss, FirstWord(i));
    ghost var between := ss.Seen();
    err := ProvideAndReport(w, cr, i, ss, ds, js);
    ReportsAddUp(first, between, ss.Seen(), ss.calm, FirstWord(i), LastWord(i, !err));
    after := RequeueAfter(i, !err);
  }

  // ---------- a whole pass ----------

  /** A Deployment or Job was created for `uid`: that resource is stored with its
      finalizer, or gave it up in a successful cleanup. */
  ghost predicate AccountedFor(r: Run, uid: nat)
    requires IsRun(r)
  {
    Guarded(r.states[|r.acts|], uid) || CleanedUp(r, |r.acts|, uid)
  }

  lemma CreatedIsAccountedFor(r: Run, uid: nat)
    requires IsRun(r) && uid in r.states[|r.acts|].workloads
    ensures AccountedFor(r, uid)
  {
    NoWorkloadWithoutCleanup(r, |r.acts|, uid);
  }

  /** The pass served resource `cr`: what it made of workload and status, and that
      whatever it created is accounted for. */
  ghost predicate PassServed(r: Run, cr: Cr, i: Inputs, err: bool, calm: bool, before: Views, after: Views,
                             statusBefore: View<S.AzureDevOps>, statusAfter: View<S.AzureDevOps>)
    requires IsRun(r)
  {
    && Outcome(i, Served(i), !err, before, after)
    && Reported(statusBefore, statusAfter, calm, [FirstWord(i), LastWord(i, !err)])
    && (Created(before, after) ==> AccountedFor(r, cr.uid))
  }

  /** A pass serves what it found if that carries the finalizer and is not deleted. */
  function Servable(found: Option<Cr>): Option<Cr> {
    if found.Some? && !found.value.deleting && HasFinalizer(found.value) then found else None
  }

  /** What a pass is for: a deleted resource has lost the finalizer, any other one
      is stored with it. */
  predicate JobDone(s: State, cr: Cr) {
    Guarded(s, cr.uid) <==> !cr.deleting
  }

  /** The branches of a pass that have work to do on the resource read. */
  method HandleCr(w: World, cr: Cr, inputs: Cr -> Inputs, ss: Store<S.AzureDevOps>, ds: Store<D.Deployment>,
                  js: Store<J.Job>) returns (err: bool, ghost served: Option<Cr>)
    requires w.Valid() && w.now.pc == AfterRead(cr) && !w.now.pc.Idle? && ss.Valid() && ds.Valid() && js.Valid()
    modifies w, ss, ds, js
    ensures w.Finished(err) && served == Servable(Some(cr)) && (!err ==> JobDone(w.now, cr))
    ensures if served.Some?
            then PassServed(w.run, cr, inputs(cr), err, ss.calm, old(Seen(ds, js)), Seen(ds, js),
                            old(ss.Seen()), ss.Seen())
            else Seen(ds, js) == old(Seen(ds, js)) && ss.Seen() == old(ss.Seen())
  {
    served := None;
    if cr.deleting {
      err := FinalizeCr(w, cr);
    } else if !HasFinalizer(cr) {
      err := RegisterFinalizer(w, cr);
    } else {
      var after;
      err, after := ServeQueue(w, cr, inputs(cr), ss, ds, js);
      served := Some(cr);
      if cr.uid in w.now.workloads {
        CreatedIsAccountedFor(w.run, cr.uid);
      }
    }
  }

  /** A pass that met no pod. */
  method ReconcileCr(w: World, inputs: Cr -> Inputs, ss: Store<S.AzureDevOps>, ds: Store<D.Deployment>,
                     js: Store<J.Job>) returns (err: bool, ghost served: Option<Cr>)
    requires w.Valid() && w.now.pc.ReadCr? && w.found == None && ss.Valid() && ds.Valid() && js.Valid()
    modifies w, ss, ds, js
    ensures w.Moved() && w.now.pc.Idle? && err == Fails(w.prior, w.last)
    ensures served == Servable(w.found) && (!err && w.found.Some? ==> JobDone(w.now, w.found.value))
    ensures match served
            case None => Seen(ds, js) == old(Seen(ds, js)) && ss.Seen() == old(ss.Seen())
            case Some(cr) =>
              !cr.deleting && HasFinalizer(cr)
              && PassServed(w.run, cr, inputs(cr), err, ss.calm, old(Seen(ds, js)), Seen(ds, js),
                            old(ss.Seen()), ss.Seen())
  {
    var reply, found := w.GetCr();
    if reply != Done {
      return true, None;
    }
    if found.None? {
      return false, None;
    }
    var cr := found.value;
    if cr.deleting && !HasFinalizer(cr) {
      return false, None;
    }
    err, served := HandleCr(w, cr, inputs, ss, ds, js);
  }

  /** The lookup of the pod, and what follows from it. */
  method Dispatch(w: World, inputs: Cr -> Inputs, ss: Store<S.AzureDevOps>, ds: Store<D.Deployment>,
                  js: Store<J.Job>) returns (err: bool, ghost served: Option<Cr>)
    requires w.Valid() && w.now.pc.Idle? && w.found == None && ss.Valid() && ds.Valid() && js.Valid()
    modifies w, ss, ds, js
    ensures w.Valid() && w.now.pc.Idle? && w.began == old(w.began) && w.passes == old(w.passes) + 1
    ensures Enabled(w.prior, w.last) && IsControl(w.last) && err == Fails(w.prior, w.last)
    ensures served == Servable(w.found) && (!err && w.found.Some? ==> JobDone(w.now, w.found.value))
    ensures match served
            case None => Seen(ds, js) == old(Seen(ds, js)) && ss.Seen() == old(ss.Seen())
            case Some(cr) =>
              PassServed(w.run, cr, inputs(cr), err, ss.calm, old(Seen(ds, js)), Seen(ds, js),
                         old(ss.Seen()), ss.Seen())
  {
    served := None;
    var answer := w.GetPod();
    match answer {
      case LookupFailed => return true, None;
      case PodRunning => return false, None;
      case PodFinished(_) =>
        err := HandlePodEvent(w);
        return err, None;
      case NoPod =>
    }
    err, served := ReconcileCr(w, inputs, ss, ds, js);
  }

  /** One pass.  It extends the run by exactly one pass, ends idle, and returns an
      error exactly when its last step failed.  It serves exactly a resource it
      found undeleted and with the finalizer, and leaves status, Deployment and Job
      alone otherwise.  Without an error it has done its job on what it found. */
  method Reconcile(w: World, inputs: Cr -> Inputs, ss: Store<S.AzureDevOps>, ds: Store<D.Deployment>,
                   js: Store<J.Job>) returns (err: bool, ghost served: Option<Cr>)
    requires w.Valid() && w.now.pc.Idle? && ss.Valid() && ds.Valid() && js.Valid()
    modifies w, ss, ds, js
    ensures w.Valid() && w.now.pc.Idle?
    ensures old(w.run).states <= w.run.states && old(w.run).acts <= w.run.acts
    ensures Starts(w.run.acts, |old(w.run).acts|, |w.run.acts|) == 1
    ensures Enabled(w.prior, w.last) && IsControl(w.last) && err == Fails(w.prior, w.last)
    ensures var found := FoundSince(w.run, |old(w.run).acts|, |w.run.acts|);
            served == Servable(found) && (!err && found.Some? ==> JobDone(w.now, found.value))
    ensures match served
            case None => Seen(ds, js) == old(Seen(ds, js)) && ss.Seen() == old(ss.Seen())
            case Some(cr) =>
              !cr.deleting && HasFinalizer(cr)
              && PassServed(w.run, cr, inputs(cr), err, ss.calm, old(Seen(ds, js)), Seen(ds, js),
                            old(ss.Seen()), ss.Seen())
  {
    w.Begin();
    err, served := Dispatch(w, inputs, ss, ds, js);
  }
}
