/** Runs in which the pod handler deletes the agents of other resources. */
module PodHandlerRuns {
  import opened Wrappers
  import opened AgentMatching
  import opened FinalizerProtocol
  import opened FinalizerSafety

  ghost function Now(r: Run): State
    requires IsRun(r)
  {
    r.states[|r.acts|]
  }

  ghost function Then(r: Run, a: Action): (longer: Run)
    requires IsRun(r) && Enabled(Now(r), a)
    ensures IsRun(longer) && Now(longer) == Apply(Now(r), a)
    ensures longer == Run(r.states + [Apply(Now(r), a)], r.acts + [a])
  {
    RunGoesOn(r, a);
    Run(r.states + [Apply(Now(r), a)], r.acts + [a])
  }

  /** At step `m` a pass on behalf of a finished pod deletes an agent listed
      under `agentName`. */
  predicate PodPassDeletes(r: Run, m: nat, agentName: string)
    requires m < |r.acts| && |r.states| == |r.acts| + 1
  {
    var pc := r.states[m].pc;
    pc.Sweep? && pc.goal.PodGone? && pc.next < |pc.agents| && pc.agents[pc.next].name == agentName
    && DeletesAt(r, m, CurrentKey(pc))
  }

  ghost predicate CanDelete(crName: string, agentName: string) {
    exists r, m: nat :: IsRun(r) && r.states[0].crName == crName && m < |r.acts| && PodPassDeletes(r, m, agentName)
  }

  const KEY := AgentKey(1, 1)

  /** The one agent, still enabled and unaffected so far. */
  predicate OneAgent(s: State, agentName: string) {
    s.agents.Keys == {KEY} && s.agents[KEY].name == agentName && s.agents[KEY].enabled
  }

  lemma AgentArrives(crName: string, agentName: string) returns (r: Run)
    ensures IsRun(r) && r.states[0].crName == crName && Now(r).crName == crName
    ensures Now(r).pc.Idle? && Now(r).cr.None? && Now(r).pools == map["pool" := 1] && OneAgent(Now(r), agentName)
  {
    r := Run([State(crName, None, 0, 0, map["pool" := 1], map[], {}, Idle, 0)], []);
    r := Then(r, AgentRegisters(KEY, agentName));
  }

  lemma OwnerArrives(crName: string, agentName: string) returns (r: Run)
    ensures IsRun(r) && r.states[0].crName == crName && Now(r).crName == crName
    ensures Now(r).cr.Some? && Now(r).cr.value.pool == "pool"
    ensures Now(r).pc.Idle? && Now(r).pools == map["pool" := 1] && OneAgent(Now(r), agentName)
  {
    r := AgentArrives(crName, agentName);
    r := Then(r, UserCreates("pool", [], 0));
  }

  lemma PodIsFound(crName: string, agentName: string) returns (r: Run)
    ensures IsRun(r) && r.states[0].crName == crName && Now(r).crName == crName
    ensures Now(r).pc == ReadPat(PodGone("pool")) && Now(r).pools == map["pool" := 1] && OneAgent(Now(r), agentName)
  {
    r := OwnerArrives(crName, agentName);
    r := Then(r, PodLookup(PodFinished(crName)));
    r := Then(r, OwnerRead("pool"));
  }

  lemma PoolIsResolved(crName: string, agentName: string) returns (r: Run)
    ensures IsRun(r) && r.states[0].crName == crName && Now(r).crName == crName
    ensures Now(r).pc == ListAgents(PodGone("pool"), 1) && OneAgent(Now(r), agentName)
  {
    r := PodIsFound(crName, agentName);
    r := Then(r, Call(Done));
    r := Then(r, Call(Done));
  }

  lemma ListIsComplete(s: State, agentName: string)
    requires OneAgent(s, agentName)
    ensures IsListing(s, 1, [Agent(1, agentName, true)])
  {
    assert Agent(1, agentName, true) in [Agent(1, agentName, true)];
  }

  lemma PoolIsListed(crName: string, agentName: string) returns (r: Run)
    ensures IsRun(r) && r.states[0].crName == crName && Now(r).crName == crName
    ensures Now(r).pc.Sweep?
    ensures Now(r).pc == Sweep(PodGone("pool"), 1, [Agent(1, agentName, true)], 0, false, Now(r).pc.listedAt)
  {
    r := PoolIsResolved(crName, agentName);
    ListIsComplete(Now(r), agentName);
    r := Then(r, Listed([Agent(1, agentName, true)]));
  }

  lemma AgentIsDisabled(crName: string, agentName: string) returns (r: Run)
    requires MatchesPod(crName, agentName)
    ensures IsRun(r) && r.states[0].crName == crName && Now(r).crName == crName
    ensures Now(r).pc.Sweep?
    ensures Now(r).pc == Sweep(PodGone("pool"), 1, [Agent(1, agentName, true)], 0, true, Now(r).pc.listedAt)
  {
    r := PoolIsListed(crName, agentName);
    r := Then(r, Call(Done));
  }

  /** Any agent the stripped name selects can fall victim. */
  lemma SelectedCanBeDeleted(crName: string, agentName: string)
    requires MatchesPod(crName, agentName)
    ensures CanDelete(crName, agentName)
  {
    var r := AgentIsDisabled(crName, agentName);
    var m := |r.acts|;
    var longer := Then(r, Call(Done));
    assert longer.states[m] == Now(r) && longer.acts[m] == Call(Done);
    assert PodPassDeletes(longer, m, agentName);
  }

  /** In some run a finished pod named like the resource costs this agent its
      registration exactly when the stripped name selects it. */
  lemma CanDeleteIff(crName: string, agentName: string)
    ensures CanDelete(crName, agentName) <==> MatchesPod(crName, agentName)
  {
    if CanDelete(crName, agentName) {
      var r, m: nat :| IsRun(r) && r.states[0].crName == crName && m < |r.acts| && PodPassDeletes(r, m, agentName);
      NameIsConstant(r, m);
    } else if MatchesPod(crName, agentName) {
      SelectedCanBeDeleted(crName, agentName);
    }
  }

  /** Such a pod can cost resource `other` an agent exactly when the stripped name
      and "other-" are prefix-comparable. */
  lemma PodCanHitResourceIff(crName: string, other: string)
    ensures (exists agentName :: CanDelete(crName, agentName) && MatchesCr(other, agentName))
       <==> (StripHashes(crName) <= CleanupPrefix(other) || CleanupPrefix(other) <= StripHashes(crName))
  {
    PodReachesResourceIff(crName, other);
    forall agentName {
      CanDeleteIff(crName, agentName);
    }
  }
}
