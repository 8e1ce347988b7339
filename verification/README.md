# Verified model of the Azure DevOps agent operator

The operator keeps a pool of self-hosted Azure DevOps agents in Kubernetes: it
reads the pool's job queue, sizes a Deployment or starts a Job, reports status on
an `AzureDevOps` resource, and, when the resource is deleted, removes its agents
from the remote pool before it lets the resource go.  This project models the
operator's code in Dafny and proves what it keeps while users, other writers,
agents and failing calls interleave with it.

Verify everything with `dafny verify dfyconfig.toml`.

## How it is organised

- `FinalizerProtocol` is one resource's reconcile pass as a transition system.
  The controller moves one call at a time; between calls the environment creates,
  edits and deletes the resource, registers and removes agents, renames pools or
  restarts the controller; a call succeeds, fails before taking effect, or fails
  after.  `FinalizerSafety` and `CleanupConvergence` prove theorems over all its
  runs; `PodHandlerRuns` builds the runs in which the pod handler reaches other
  resources.  `ReconcileLoop` is the controller's code itself, as methods on a world
  that moves before every answer; its contract is that each execution is a run of
  the protocol consisting of exactly one pass, so every theorem applies to it, and
  that the pass does to status, Deployment and Job what `StatusUpdate` and `UseCase`
  promise.
- `VersionedStore` is an API-server object with optimistic concurrency and a ghost
  history; arbitrary other writers commit between any two calls.
  `DeploymentUpdate`, `JobUpdate` and `StatusUpdate` are the three update loops.
- `UseCase`, `Scaling`, `Secrets` and `PodTemplates` are the path from queue and
  spec to workload, up to quiescence over any number of passes.
- `PoolCache` and `RetryLoop` are the remote client's cache, with concurrent
  callers as steps, and its retry loop.
- `Wrappers`, `GoInts` and `KubeObjects` are option and result values, Go's
  fixed-width integers, and the Kubernetes values with their semantic equality.
- `Backoff` is the overflowing interval arithmetic, `DeepCopy` the generated copy
  on the heap, `AgentMatching` the name rules.

## What turned out not to hold

- A pod named like the resource diverts the passes that meet it to the pod handler.
  Between two idle moments without failures a deleted resource is released if and
  only if some pass met no such pod (`ReleasedIffSomePassMeetsNoPod`).
- Passes start from the names of resources, so the handler only ever sees a pod that
  bears a resource's own name.  It then takes every agent of that resource, and is
  never confined to them (`SameNamedPodIsNeverConfined`): its prefix has lost up to two
  parts of the name and ends without a dash, so a pod "web" costs resource "web2" its
  agents (`NeighbourIsHit`).  Which agents and resources can be hit in some run, exactly:
  `CanDeleteIff` and `PodCanHitResourceIff`.
- A Job's pod name would strip back to the resource's name only if that name has no
  dash after its first character (`StripJobPodIff`).
- The 32-bit cast in the replica computation wraps for queues longer than
  5 * (2^31 - 1); the first such length gets the minimum instead of the maximum
  (`WrapStarves`).  The exact condition on the queue length is `FindsOptimum`.
- The failure interval overflows at 28 doublings; it is the intended one exactly for
  the doublings in `SafeDoublings` and not even positive for all others
  (`BackoffIsIdealIff`).  It also never engages, because the time of the last failure
  is never stored (`BackoffNeverEngages`).
- A Retry-After that does not fit a 64-bit duration is not slept as asked; the exact
  condition is `WishIsHonouredIff`.
- The longer requeue interval of the use case is unreachable (`IdleIntervalIsDead`),
  and so is the "unexpected error" branch of the token lookup (`Secrets.GetPATToken`).
- README.md of the repository lists pod resource requirements among the things the
  resource controls; the code computes them and then uses fixed minimal requests
  (`ResourcesAreIgnored`).  The model follows the code.
- The error for an unsupported mode shows the docker setting instead of the mode
  (`UseCase.ReconcileDeployment`).

## Model

| member | source | states |
|---|---|---|
| FinalizerSafety.LostOnlyAfterCleanup | internal/interfaces/controller/azuredevops_controller.go:120-149 | over every run, a stored resource loses the finalizer only at the end of one uninterrupted pass over that very version that resolved its pool, listed it, and deleted every listed match by a successful call; any match still in the pool registered after that listing |
| FinalizerSafety.NoWorkloadWithoutCleanup | internal/interfaces/controller/azuredevops_controller.go:154-203 | if a Deployment or Job was ever created for a resource, the resource is still stored with its finalizer or gave it up in such a cleanup pass |
| FinalizerSafety.CreationIsGuarded | internal/interfaces/controller/azuredevops_controller.go:154-203 | a workload is created only while the finalizer of its resource is stored |
| FinalizerSafety.LossIsADrop | internal/interfaces/controller/azuredevops_controller.go:141-146 | no step but the finalizer-removing update, on the current version of a deleting resource, takes the finalizer away |
| FinalizerSafety.StepKeepsInv | internal/interfaces/controller/azuredevops_controller.go:76-393 | every enabled step of controller or environment keeps version freshness, custody of the finalizer and the sweep's coverage of all agents present at the listing |
| FinalizerSafety.RunKeepsInv | internal/interfaces/controller/azuredevops_controller.go:76-393 | every reachable state satisfies that invariant |
| FinalizerSafety.ListingHappened | internal/interfaces/controller/azuredevops_controller.go:364-372 | a sweep works on what its own pass listed, at a known step, without interruption since |
| FinalizerSafety.SweptAreDeleted | internal/interfaces/controller/azuredevops_controller.go:372-385 | at whatever agent a pass stands or stops, every earlier match was deleted by a successful call |
| FinalizerSafety.LaterAgentsUntouched | internal/interfaces/controller/azuredevops_controller.go:372-385 | and no call was made for any later listed agent |
| FinalizerSafety.DeleteComesAfterDisable | internal/interfaces/controller/azuredevops_controller.go:374-383 | an agent listed as enabled is deleted only after the same pass disabled it successfully |
| FinalizerSafety.SweepTouchesOnlyCurrent | internal/interfaces/controller/azuredevops_controller.go:372-385 | a controller step changes no agent but the one its loop is at |
| FinalizerSafety.MatchesNeverGrow | internal/interfaces/controller/azuredevops_controller.go:372-385 | no step other than a registration adds to the agents that match a goal |
| FinalizerSafety.PoolWasResolved | internal/interfaces/controller/azuredevops_controller.go:357-364 | a pool about to be listed is what the server mapped the goal's pool name to when the same pass resolved it |
| FinalizerSafety.RegistrationHappened | internal/interfaces/controller/azuredevops_controller.go:364-373 | every agent in the pool goes back to a registration step of the run, with that name |
| CleanupConvergence.Converges | internal/interfaces/controller/azuredevops_controller.go:76-149 | with at most f failures and p passes that meet a pod of the resource's name, more than (f+p+1)(2n+7) controller steps after an idle moment release a deleted resource, within f+1 cleanup passes; without new matches registering, none is left |
| CleanupConvergence.PassAccounting | internal/interfaces/controller/azuredevops_controller.go:76-149 | while a deleted resource is pending, every pass begun met a pod, failed, or is the cleanup pass now running |
| CleanupConvergence.StepAccounting | internal/interfaces/controller/azuredevops_controller.go:76-149 | and where listings have at most n agents, controller steps stay within 2n+7 per pass |
| CleanupConvergence.StepTowardsRelease | internal/interfaces/controller/azuredevops_controller.go:76-149 | every controller step after the first of a pass strictly decreases the measure, and a cleanup pass ends without release exactly by failing |
| CleanupConvergence.PendingOrLost | internal/interfaces/controller/azuredevops_controller.go:120-149 | deletion is permanent: a pending resource stays pending until its finalizer is lost |
| CleanupConvergence.SameNamedPodBlocksRelease | internal/interfaces/controller/azuredevops_controller.go:87-99 | as long as every lookup fails or finds a pod of the resource's name, a deleted resource is never released |
| CleanupConvergence.ReleasedIffSomePassMeetsNoPod | internal/interfaces/controller/azuredevops_controller.go:87-149 | between two idle moments without failures, a deleted resource is released iff some pass found no pod of its name |
| ReconcileLoop.Reconcile | internal/interfaces/controller/azuredevops_controller.go:76-249 | every execution, whatever interleaves, is a run of the protocol with exactly one pass, ends idle, and returns an error exactly when its last step failed; it serves exactly what it found undeleted with the finalizer, as ServeQueue says, and leaves status and workload alone otherwise; without an error a deleted resource has lost the finalizer and any other is stored with it; what it created is accounted for |
| ReconcileLoop.SweepListed | internal/interfaces/controller/azuredevops_controller.go:372-385 | the loop over listed agents follows the protocol's sweep and returns early exactly on a failing call |
| ReconcileLoop.DeleteListedAgent | internal/interfaces/controller/azuredevops_controller.go:374-383 | disables if listed as enabled, then deletes; moves on only if both worked |
| ReconcileLoop.DeleteMatchingAgents | internal/interfaces/controller/azuredevops_controller.go:351-393 | resolve, list and sweep; on success the pass goes on to drop the finalizer or, for a pod, is over |
| ReconcileLoop.HandlePodEvent | internal/interfaces/controller/azuredevops_controller.go:396-474 | the pod handler is the same sweep for the owner's pool and the stripped name of the pod, which is the resource's own name; without an error it has passed every agent listed |
| ReconcileLoop.FinalizeCr | internal/interfaces/controller/azuredevops_controller.go:122-150 | token, sweep, then the finalizer-removing update; without an error the finalizer is gone |
| ReconcileLoop.RegisterFinalizer | internal/interfaces/controller/azuredevops_controller.go:155-167 | the two consecutive updates that add the finalizer, the second only after the first; without an error it is stored |
| ReconcileLoop.ServeQueue | internal/interfaces/controller/azuredevops_controller.go:169-248 | untouched workload unless token, queue and both secrets are there; otherwise at most one lossless write, success only if the object is as desired, failure only for a reason, the desired state if undisturbed; Processing is reported first, then Ready or Failed with the counters of the pass; and how soon the pass is repeated |
| ReconcileLoop.Provision | internal/interfaces/controller/azuredevops_controller.go:172-208 | token, queue length, then the use case; the first failure ends it |
| ReconcileLoop.ServedMeaning | internal/interfaces/controller/azuredevops_controller.go:172-208 | what a pass needs to reach the workload: the token under the resource's own reference, the queue, and again queue and secrets in the use case |
| ReconcileLoop.ReportPhase | internal/interfaces/controller/azuredevops_controller.go:170 | one status update, of which the controller does not learn whether it took effect |
| ReconcileLoop.FinalStatusMeaning | internal/interfaces/controller/azuredevops_controller.go:195-236 | the counters reported at the end, case by case |
| ReconcileLoop.RequeueMeaning | internal/interfaces/controller/azuredevops_controller.go:173-203 | the time to the next pass, in nanoseconds, case by case |
| ReconcileLoop.HandleCr | internal/interfaces/controller/azuredevops_controller.go:118-248 | the branches on deletion and finalizer; only the serving one touches status and workload |
| ReconcileLoop.World.DisableAgent | internal/infra/azuredevops/queue.go:397-445 | ids that are not positive fail without effect; otherwise the call may fail before or after taking effect; after success the agent is not enabled |
| ReconcileLoop.World.DeleteAgent | internal/infra/azuredevops/queue.go:364-395 | success moves the sweep on and the agent is gone; a failure, even one after the effect, ends the pass |
| ReconcileLoop.World.GetAgentsInPool | internal/infra/azuredevops/queue.go:33-34 | a successful listing enumerates exactly the pool's agents, each once, in any order |
| ReconcileLoop.World.GetPoolIDByName | internal/infra/azuredevops/queue.go:485-546 | an id is what the server maps the goal's pool name to at that moment; no id ends the pass with an error |
| ReconcileLoop.World.Update | internal/interfaces/controller/azuredevops_controller.go:141-164 | a write of the resource is refused unless it is still at the version read; an unreported success counts as failed |
| FinalizerProtocol.OthersAreKept | internal/interfaces/controller/azuredevops_controller.go:142 | removing the finalizer leaves exactly the other finalizers, as often and in the order they were |
| FinalizerProtocol.UpdateMeaning | internal/interfaces/controller/azuredevops_controller.go:143-164 | an update is stored iff it was based on the stored version and the call gets through; it makes a new version unless nothing changes, and the caller learns of it iff the call reports success |
| FinalizerProtocol.StatusWriteMeaning | internal/interfaces/controller/azuredevops_controller.go:324-333 | a status write that gets through moves the version of the resource and nothing else |
| FinalizerProtocol.AddThenRemove | internal/interfaces/controller/azuredevops_controller.go:154-156 | the finalizer is appended unless it is there, and removing it again gives back what there was |
| AgentMatching.MatchesCrIff | internal/interfaces/controller/azuredevops_controller.go:373 | an agent matches a resource iff its name is the resource's name, a dash, and anything |
| AgentMatching.OwnPodsMatch | internal/interfaces/controller/azuredevops_controller.go:373 | the agents of a resource's own Deployment and Job pods always match it |
| AgentMatching.MatchesPodIff | internal/interfaces/controller/azuredevops_controller.go:451 | the pod handler selects iff the agent's name begins with the stripped pod name |
| AgentMatching.StripsNothingIff | internal/interfaces/controller/azuredevops_controller.go:440-447 | a pod name stays whole iff no dash follows its first character |
| AgentMatching.SharedAgentsIff | internal/interfaces/controller/azuredevops_controller.go:373 | two resources can match a common agent iff one's "name-" is a prefix of the other's |
| AgentMatching.StripDeploymentPod | internal/interfaces/controller/azuredevops_controller.go:440-447 | a pod named d-h1-h2 with dash-free hashes strips back to d |
| AgentMatching.StripJobPodIff | internal/interfaces/controller/azuredevops_controller.go:440-447 | a pod named d-h strips back to d iff d has no dash after its first character |
| AgentMatching.StripKeepsOwnAgent | internal/interfaces/controller/azuredevops_controller.go:440-451 | the stripped name is a non-empty prefix of the pod name, so the pod's own agent always matches |
| AgentMatching.PodCoversResourceIff | internal/interfaces/controller/azuredevops_controller.go:440-461 | the pod handler takes all agents of a resource iff the stripped pod name is a prefix of the resource's "name-" |
| AgentMatching.PodConfinedToResourceIff | internal/interfaces/controller/azuredevops_controller.go:440-461 | it takes no others iff the resource's "name-" is a prefix of the stripped pod name |
| AgentMatching.PodReachesResourceIff | internal/interfaces/controller/azuredevops_controller.go:440-461 | it takes some agent of a resource iff one of the two prefixes extends the other |
| AgentMatching.SameNamedPodIsNeverConfined | internal/interfaces/controller/azuredevops_controller.go:88-90 | a pod named like a resource costs it all its agents and is never confined to them |
| AgentMatching.NeighbourIsHit | internal/interfaces/controller/azuredevops_controller.go:440-451 | a pod "web" selects an agent of resource "web2" that is none of resource "web" |
| PodHandlerRuns.CanDeleteIff | internal/interfaces/controller/azuredevops_controller.go:396-474 | in some run a finished pod of the resource's name deletes an agent iff the stripped name selects it |
| PodHandlerRuns.PodCanHitResourceIff | internal/interfaces/controller/azuredevops_controller.go:396-474 | and it can cost another resource an agent iff the stripped name and "other-" are prefix-comparable |
| VersionedStore.Store.Update | internal/infra/kubernetes/reconcile_deployment.go:98-108 | a commit sits directly on the version it was based on; a conflict commits nothing; a failure may hide a commit |
| VersionedStore.Store.Create | internal/infra/kubernetes/reconcile_deployment.go:34-40 | a commit only where there was no object |
| KubeObjects.SamePodSpecIff | internal/infra/kubernetes/reconcile_deployment.go:61 | pod specs are semantically equal iff nothing a user can set differs: every field and every container, up to the form of quantities and the like |
| KubeObjects.SameContainersIff | internal/infra/kubernetes/reconcile_job.go:59 | container lists are equal iff they are pairwise, in every field and variable |
| KubeObjects.SameLabelsIff | internal/infra/kubernetes/reconcile_deployment.go:68-80 | labels are equal iff every key has the same value in both, nil and empty alike |
| DeploymentUpdate.ReconcileDeploymentInternal | internal/infra/kubernetes/reconcile_deployment.go:17-112 | at most three updates and one commit; a commit is the version right before it with the differing managed fields replaced; a nil result means the version last seen agrees; three conflicts mean no commit, any other error a failed call; undisturbed, the store ends as desired with a commit only if needed |
| DeploymentUpdate.MergeInto | internal/infra/kubernetes/reconcile_deployment.go:46-91 | an update is needed exactly when a managed field disagrees, which is exactly when the merge changes something |
| DeploymentUpdate.MergeMeaning | internal/infra/kubernetes/reconcile_deployment.go:46-91 | merging makes the five managed fields agree, touches nothing else, and is idempotent |
| DeploymentUpdate.AgreesIff | internal/infra/kubernetes/reconcile_deployment.go:49-88 | what agreement of the five managed fields means, field by field and key by key |
| DeploymentUpdate.ChangedContainerIsRolledOut | internal/infra/kubernetes/reconcile_deployment.go:61-65 | a container with another image, argument list or number of variables makes the update necessary, and it takes over the desired pod spec |
| DeploymentUpdate.StandardLabelsMeaning | internal/infra/kubernetes/reconcile_deployment.go:24-29 | the two standard labels are set and nothing else changes |
| DeploymentUpdate.MergeAndUpdate | internal/infra/kubernetes/reconcile_deployment.go:45-108 | one merge and at most one update, which replaces only differing managed fields of the latest version |
| DeploymentUpdate.Attempt | internal/infra/kubernetes/reconcile_deployment.go:32-109 | one turn of the loop: it goes on only after a conflict with nothing of its own committed |
| JobUpdate.ReconcileJob | internal/infra/kubernetes/reconcile_job.go:16-98 | at most one update and commit, never on top of a finished version; a nil result means finished, in agreement, or a conflict without a commit |
| JobUpdate.UpdateRunningJob | internal/infra/kubernetes/reconcile_job.go:53-97 | the same for a Job found unfinished |
| JobUpdate.MergeInto | internal/infra/kubernetes/reconcile_job.go:53-82 | an update is needed exactly when containers, labels or annotations disagree |
| JobUpdate.MergeMeaning | internal/infra/kubernetes/reconcile_job.go:53-82 | merging makes the three managed fields agree, touches nothing else, and is idempotent |
| JobUpdate.AgreesIff | internal/infra/kubernetes/reconcile_job.go:57-77 | what agreement of containers, labels and annotations means, container by container and key by key |
| JobUpdate.StandardLabelsMeaning | internal/infra/kubernetes/reconcile_job.go:23-28 | the two standard labels are set and nothing else changes |
| JobUpdate.IsJobFinished | internal/infra/kubernetes/reconcile_job.go:101-109 | true iff some Complete or Failed condition is "True" |
| JobUpdate.GetJobStatus | internal/infra/kubernetes/reconcile_job.go:112-119 | the kind of the first true condition, "Running" only if there is none; never that fallback for a finished job |
| JobUpdate.JobPasses | internal/infra/kubernetes/reconcile_job.go:16-98 | no pass of any sequence of passes ever commits on top of a finished version |
| JobUpdate.FinishedJobsAreFrozen | internal/infra/kubernetes/reconcile_job.go:45-51 | once finished, a Job nobody else edits stays exactly as it is over the whole history |
| StatusUpdate.UpdateStatus | internal/interfaces/controller/azuredevops_controller.go:287-335 | at most three attempts and one commit, which sets only the four counters and the Ready condition of the version right before it; without a commit there were three conflicts, a missing resource or another failure; undisturbed, exactly one commit |
| StatusUpdate.FillIn | internal/interfaces/controller/azuredevops_controller.go:302-322 | the object written is the latest one with counters and Ready condition set and all else kept; the transition time is the present one unless the status stays |
| StatusUpdate.PhaseIsShown | internal/interfaces/controller/azuredevops_controller.go:308-314 | the condition is "True" for phase Ready and "False" for any other |
| StatusUpdate.SetConditionMeaning | internal/interfaces/controller/azuredevops_controller.go:316-322 | the condition reads back, others keep value and order, no duplicate arises, the transition time moves only with the status |
| StatusUpdate.StatusUpdates | internal/interfaces/controller/azuredevops_controller.go:287-335 | over any number of reports every own commit keeps spec, times and other conditions |
| StatusUpdate.ReachableStatusHasOneReady | internal/interfaces/controller/azuredevops_controller.go:316-322 | if others never store two Ready conditions, no reachable version has two |
| StatusUpdate.FailedCheckIsNeverStored | internal/interfaces/controller/azuredevops_controller.go:302-306 | if nobody else stores a failed-check time, no version ever has one |
| StatusUpdate.BackoffNeverEngages | internal/interfaces/controller/azuredevops_controller.go:194-196 | hence the interval after a failed queue check is always the one-minute default |
| Scaling.PendingJobs | internal/infra/azuredevops/queue.go:342-361 | counts the unassigned jobs, unless the response claims a count of zero |
| Scaling.UnassignedCounts | internal/infra/azuredevops/queue.go:352-358 | it is the number of positions in the list that hold an unassigned job |
| Scaling.DetermineDesiredReplicas | internal/app/usecase/reconcile.go:82-118 | for every int64 queue length the result lies within the bounds, and for non-negative ones it is the optimum iff the queue is at most 5 * (2^31 - 1), the bounds coincide, or the low 32 bits of the ceiling are a positive number that reaches the maximum |
| Scaling.ReplicasCoverJobs | internal/app/usecase/reconcile.go:82-118 | for any job list that fits, the result is the least allowed count whose capacity covers the unassigned jobs, or the maximum |
| Scaling.OptimalIff | internal/app/usecase/reconcile.go:105-114 | that condition, on the queue length alone, is exactly when clamping the converted count gives the optimum |
| Scaling.LastFour | internal/app/usecase/reconcile.go:105 | the last four int64 lengths wrap in the sum too and all come to the same count |
| Scaling.RawIsCeiling | internal/app/usecase/reconcile.go:105 | up to 5 * (2^31 - 1) jobs the quotient is the exact ceiling |
| Scaling.ScalingIsMonotone | internal/app/usecase/reconcile.go:82-118 | on the safe range a longer queue never yields fewer replicas |
| Scaling.WrapStarves | internal/app/usecase/reconcile.go:105-110 | the first unsafe queue length gets the minimum |
| Scaling.Bounds | internal/app/usecase/reconcile.go:84-99 | the effective bounds are positive and in order for every spec |
| Scaling.BoundsMeaning | internal/app/usecase/reconcile.go:84-99 | the bounds case by case: as given, defaulted to 1 and 10, swapped |
| Scaling.IdleIntervalIsDead | internal/app/usecase/reconcile.go:121-129 | whatever the queue and spec, the requeue interval is the short one |
| Backoff.BackoffIsIdealIff | internal/interfaces/controller/azuredevops_controller.go:338-350 | the interval is the intended one iff the number of doublings is safe, iff it is at least a minute; it never exceeds five minutes |
| Backoff.BackoffBefore140Minutes | internal/interfaces/controller/azuredevops_controller.go:338-350 | for ages below 140 minutes it is ideal, within one to five minutes, and monotone |
| Backoff.FirstOverflowAt140Minutes | internal/interfaces/controller/azuredevops_controller.go:344 | 28 doublings are exactly where the product first leaves int64, and the interval turns negative |
| Backoff.ProductIsWrapped | internal/interfaces/controller/azuredevops_controller.go:344 | the wrapped products from 27 to 53 doublings |
| PoolCache.HitsAreServedAndRecent | internal/infra/azuredevops/queue.go:488-494 | for every interleaving a hit is an id the server returned for that very name, stored less than five minutes before |
| PoolCache.HitIffStoredRecently | internal/infra/azuredevops/queue.go:488-494 | a check is answered from the cache iff some caller stored an id for that name less than five minutes before |
| PoolCache.AnswerIsPassedOn | internal/infra/azuredevops/queue.go:506-545 | the server's answer is what is stored, for five minutes, and returned; without one nothing is |
| PoolCache.EntryWasStored | internal/infra/azuredevops/queue.go:536-542 | every entry was served, then stored exactly five minutes before its expiry |
| PoolCache.StoringWasServed | internal/infra/azuredevops/queue.go:506-534 | what a caller is about to store, the server answered to its question earlier |
| PoolCache.AnswersWereServed | internal/infra/azuredevops/queue.go:485-546 | every id any caller ever gets was once the server's answer for the name asked |
| PoolCache.ConstantServerAgrees | internal/infra/azuredevops/queue.go:485-546 | if the server's map is constant, cached and uncached lookups agree with it |
| PoolCache.SharedClient.GetPoolIDByName | internal/infra/azuredevops/queue.go:485-546 | the method, with others interleaving around each locked section, is a run of that protocol; an id it returns was served for the name, and it returns none only if its own question was asked in vain |
| RetryLoop.DoRequestWithBackoff | internal/infra/azuredevops/queue.go:70-147 | the whole exchange: one to three sends, all but the last retried for cause, a sleep of the right length after each; the context error only if the context ended during the last sleep, the cancellation error only if it was canceled; a 429 or a transport error only after the third send |
| RetryLoop.Attempt | internal/infra/azuredevops/queue.go:82-144 | one send; a retry only after an error or a 429 and a sleep that was not cut short |
| RetryLoop.LivingContextRetries | internal/infra/azuredevops/queue.go:82-146 | as long as the context lives, the loop stops exactly at the first send that is neither an error nor a 429, or at the third, and returns what that send brought |
| RetryLoop.WishIsHonouredIff | internal/infra/azuredevops/queue.go:112-119 | a Retry-After of s seconds is slept as s seconds iff that fits a duration |
| RetryLoop.NoWish | internal/infra/azuredevops/queue.go:112-119 | an empty or malformed Retry-After leaves the default sleep |
| RetryLoop.UnaskedSleepIsShort | internal/infra/azuredevops/queue.go:91-127 | in any exchange the sleep the server did not ask for stays below 10.5 seconds |
| RetryLoop.DefaultBackoff | internal/infra/azuredevops/queue.go:91-93 | between the doubled base delay and half as much again |
| RetryLoop.BudgetIsTenAndAHalf | internal/infra/azuredevops/queue.go:24-25 | the default waits start at 1, 2 and 4 seconds and add up to less than 10.5 |
| PodTemplates.BuildPodTemplate | internal/infra/kubernetes/reconcile.go:49-257 | the step-by-step construction yields the template the resource stands for |
| PodTemplates.PodIsWellFormed | internal/infra/kubernetes/reconcile.go:101-257 | the agent is the first container and the only one of its name, names are distinct, every mount names a declared volume |
| PodTemplates.PodInPlainFields | internal/infra/kubernetes/reconcile.go:86-165 | the fields of pod and agent container: image, command, arguments, pull secret, labels, owner, volumes |
| PodTemplates.DindSharesItsSocket | internal/infra/kubernetes/reconcile.go:193-257 | with dind, agent and sidecar are told the same socket in a directory both mount, and only the sidecar is privileged |
| PodTemplates.BuildkitIsReached | internal/infra/kubernetes/reconcile.go:167-192 | with buildkit, the agent is told the port on which the sidecar listens |
| PodTemplates.EnvPrecedence | internal/infra/kubernetes/reconcile.go:49-84 | under last-wins lookup a sidecar variable overrides a user's and a user's overrides a base one |
| PodTemplates.AgentJoinsThePool | internal/infra/kubernetes/reconcile.go:49-84 | unless a user variable overrides it, the agent logs in with the referenced token and registers in the pool the controller lists and cleans |
| PodTemplates.WireAgents | internal/infra/kubernetes/reconcile.go:147-165 | exactly the containers named like the agent get its command and signal mount |
| PodTemplates.AppendAgentEnv | internal/infra/kubernetes/reconcile.go:181-185 | exactly those containers get the sidecar's variables, at the end |
| PodTemplates.AddSidecar | internal/infra/kubernetes/reconcile.go:167-257 | each docker setting adds its container, variables and mount; others add nothing |
| PodTemplates.ResourcesAreIgnored | internal/infra/kubernetes/reconcile.go:39-44 | the template does not depend on the resource requirements of the spec |
| UseCase.Handle | internal/app/usecase/reconcile.go:37-79 | nothing is written unless secrets and queue are there; status fields as computed, the desired count best for the queue; at most one lossless write of the workload, success only if the object last seen keeps that many of the resource's agents, failure only for a reason; undisturbed, it ends so; success always requeues after 30 seconds |
| UseCase.ReadyMeaning | internal/app/usecase/reconcile.go:40-51 | the checks of the use case in plain terms, for PAT, pull secret and queue |
| UseCase.ReconcileDeployment | internal/infra/kubernetes/reconcile.go:21-315 | only the store of the mode is touched; success means the object last seen runs the resource's agent in the number asked for; an unsupported mode writes nothing and shows the docker setting |
| UseCase.DeploymentPasses | internal/app/usecase/reconcile.go:53-74 | with stable spec and queue, the first of any number of undisturbed passes settles the Deployment at the best count of the resource's agents and no later one writes |
| UseCase.JobPasses | internal/app/usecase/reconcile.go:53-74 | the same for a Job, which has the resource's agent and is left alone once finished |
| UseCase.SettledIsFinal | internal/infra/kubernetes/reconcile_deployment.go:49-91 | a settled Deployment agrees and settling it again changes nothing |
| UseCase.SettledJobIsFinal | internal/infra/kubernetes/reconcile_job.go:45-82 | a settled Job is finished or agrees, and settling it again changes nothing |
| UseCase.AgreementKeepsAgents | internal/infra/kubernetes/reconcile.go:285-310 | a Deployment that agrees with the desired one has that many replicas, the resource's image and arguments, its sidecar and pull secret, and selects its pods |
| UseCase.AgreementStartsAgents | internal/infra/kubernetes/reconcile.go:259-283 | a Job that agrees with the desired one has the resource's agent, sidecar and labels |
| UseCase.CreatedBearsTheName | internal/infra/kubernetes/reconcile.go:262-291 | what is created bears the resource's name and labels that lead back to it |
| UseCase.JobRunsTheAgent | internal/infra/kubernetes/reconcile.go:259-283 | a Job's pods run the same containers but are never restarted |
| UseCase.SelectorMatchesPods | internal/infra/kubernetes/reconcile.go:300-308 | the Deployment's selector selects the pods of its own template |
| Secrets.ValidateSecrets | internal/infra/kubernetes/secrets.go:14-61 | accepts iff the PAT is in the namespace, or the namespace has no such secret and "default" holds it, and the pull secret is found likewise |
| Secrets.GetPATToken | internal/interfaces/controller/azuredevops_controller.go:251-283 | succeeds iff one of the two namespaces holds the PAT, the own first; the unexpected-error branch is never taken |
| Secrets.ReadFromMeaning | internal/interfaces/controller/azuredevops_controller.go:251-283 | the token is key "PAT" of the secret in the own namespace, or else in "default" |
| Secrets.AcceptedTokenIsRead | internal/infra/kubernetes/secrets.go:17-37 | a reference validation accepts is read, from the same namespace's secret |
| Secrets.LookupsPartIff | internal/interfaces/controller/azuredevops_controller.go:265-280 | the token is read though validation refuses exactly when the own namespace's secret is unusable and "default" holds the PAT |
| DeepCopy.CopyOf | api/v1beta1/zz_generated.deepcopy.go:30-46 | the copy has the original's value and shares no mutable storage with anything that existed before |
| DeepCopy.ValueInPlainFields | api/v1beta1/zz_generated.deepcopy.go:30-46 | the value of a resource tells every field of metadata, resources and status, with what it refers to |
| DeepCopy.SpecInPlainFields | api/v1beta1/zz_generated.deepcopy.go:89-111 | and every toleration and variable of the spec, entry by entry |
| DeepCopy.CopySpec | api/v1beta1/zz_generated.deepcopy.go:89-111 | maps, slices and pointers of the spec, including those inside tolerations and variables, are copied to fresh storage with equal value, nil staying nil |
| DeepCopy.CopyMeta | api/v1beta1/zz_generated.deepcopy.go:34 | the same for deletion time, labels, annotations and finalizers |
| DeepCopy.CopyStatus | api/v1beta1/zz_generated.deepcopy.go:124-141 | the same for conditions and the two times |
| DeepCopy.WriteInPlace | internal/interfaces/controller/azuredevops_controller.go:142-203 | any sequence of the in-place writes of a pass (finalizer added or removed, scaling recorded, failure recorded) leaves the resource with the value they stand for and does not show in a resource with storage of its own |
| DeepCopy.SnapshotThenWrite | internal/interfaces/controller/azuredevops_controller.go:113-203 | the snapshot taken at the start of a pass keeps the value the resource had then, whatever is written in place |
| DeepCopy.RecordScalingIn | internal/app/usecase/reconcile.go:53-69 | queue, desired and ready counters as written, the scaling time only when the desired count changes |
| DeepCopy.Compact | internal/interfaces/controller/azuredevops_controller.go:142 | the in-place compaction returns the slice of exactly the other finalizers, in order |
| DeepCopy.AddFinalizerTo | internal/interfaces/controller/azuredevops_controller.go:155-156 | the finalizer is appended if missing, in place where the array has room, else in a new array |
| DeepCopy.SameAsInProtocol | internal/interfaces/controller/azuredevops_controller.go:142 | the heap operation on finalizers is the one the reconcile protocol speaks of |
| DeepCopy.WithoutNameMeaning | internal/interfaces/controller/azuredevops_controller.go:142 | every other finalizer stays as often as before |
| DeepCopy.WithFinalizerMeaning | internal/interfaces/controller/azuredevops_controller.go:154-156 | a finalizer is added once, behind the others |
| DeepCopy.WithScalingMeaning | internal/app/usecase/reconcile.go:53-69 | which counters and time scaling changes, and that nothing else does |
| DeepCopy.Append | internal/interfaces/controller/azuredevops_controller.go:156 | append writes behind the slice if there is room and otherwise moves to a new array |

## Left out

- HTTP, JSON, TLS, URLs, auth headers, response bodies and the rate limiter library: a remote call is a success, a failure before its effect or a failure after it.
- ReconcileLoop.World.GetAgentsInPool: follows the contract in the client interface; the code closes the response body before decoding it (internal/infra/azuredevops/queue.go:464-478), which is not modelled.
- API-server defaulting, immutable fields, garbage collection, watch delivery and stale caches: the store is linearizable and keeps what is written; quiescence depends on it.
- Two passes for the same key at once, and anybody else stripping the finalizer: excluded, as controller-runtime and the protocol's users guarantee.
- A write that takes effect after the controller has already given up on it and started another pass.
- Requeue durations outside the serving part: only whether an error is returned; how controller-runtime combines a duration with an error is not modelled.
- The Deployment looked up for the status bears another name than the one created (internal/interfaces/controller/azuredevops_controller.go:213): what it shows is an input of the pass.
- ReconcileLoop.ServeQueue: the resource's version is kept in the protocol and its status in a store of its own, so that a status commit is what advanced the version is not stated.
- ReconcileLoop.HandlePodEvent: the pool of an owner with another name is any string, because the protocol follows one resource.
- Floating-point division in the backoff and failure times in the future: integer division of a non-negative age.
- Internals of affinity, quantities and other third-party types: opaque values that agree by meaning.
- SetControllerReference: its outcome is a parameter.
- The list type's deep copy: it repeats the object's copy for each item.
- DeepCopy.CopySpec: what an affinity, a quantity or a value source refers to in turn is one opaque target each.
- DeepCopy.CopyMeta: owner references and managed fields, which the controller neither reads nor writes.
- The client's decoding of an update's answer into the object it was given.
- `api/v0beta0`, `internal/controller_old` and `old.no`: duplicates or dead code.
- `cmd/main.go`, manifests, Dockerfiles, scripts, logging and events.
- GetQueueIdFromName: a legacy lookup nothing calls.
