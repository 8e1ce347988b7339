/** What every run of the reconcile protocol keeps: the finalizer is only given
    up at the end of a successful cleanup pass, and nothing is ever created for
    a resource that could escape that cleanup. */
module FinalizerSafety {
  import opened Wrappers
  import opened AgentMatching
  import opened FinalizerProtocol

  // ---------- what each kind of step may touch ----------

  predicate Reads(pc: Pc) {
    pc.Idle? || pc.ReadCr? || pc.ReadOwner? || pc.ReadPat? || pc.ResolvePool? || pc.ListAgents?
  }

  predicate Writes(pc: Pc) {
    pc.DropFinalizer? || pc.PersistFinalizer? || pc.PersistAgain?
  }

  /** The controller is in the pass that listed `l` at step `at`. */
  predicate InPass(pc: Pc, g: Goal, poolId: int, l: seq<Agent>, at: nat) {
    || (pc.Sweep? && pc.goal == g && pc.poolId == poolId && pc.agents == l && pc.listedAt == at)
    || (g.CleanUp? && pc == DropFinalizer(g.cr, poolId, l, at))
  }

  lemma EnvironmentFrame(s: State, a: Action)
    requires !IsControl(a) && Enabled(s, a)
    ensures var s' := Apply(s, a);
            s'.crName == s.crName && s'.workloads == s.workloads && s'.pc == if a == Restart then Idle else s.pc
  {}

  lemma ReadFrame(s: State, a: Action)
    requires Reads(s.pc) && IsControl(a) && Enabled(s, a)
    ensures var s' := Apply(s, a);
            && s' == s.(pc := s'.pc, clock := s.clock + 1) && !s'.pc.DropFinalizer?
            && (s'.pc.Sweep? ==> s.pc.ListAgents? && a.Listed?)
            && (s'.pc.ListAgents? ==> s.pc.ResolvePool?)
  {}

  lemma HitFrame(s: State, reply: Reply)
    requires AtSelected(s)
    ensures var s' := DisableStep(s, reply);
            s' == s.(agents := s'.agents, pc := s'.pc) && (s'.pc.Idle? || s'.pc == s.pc.(disabled := true))
    ensures var s' := DeleteStep(s, reply);
            && s' == s.(agents := s'.agents, pc := s'.pc)
            && (s'.pc.Idle? || s'.pc == s.pc.(next := s.pc.next + 1, disabled := false))
  {}

  lemma SweepStepFrame(s: State, a: Action)
    requires s.pc.Sweep? && IsControl(a) && Enabled(s, a)
    ensures var s' := SweepStep(s, a);
            && s' == s.(agents := s'.agents, pc := s'.pc)
            && (s'.pc.Idle? || InPass(s'.pc, s.pc.goal, s.pc.poolId, s.pc.agents, s.pc.listedAt))
  {
    if AtSelected(s) {
      HitFrame(s, a.reply);
    }
  }

  lemma SweepFrame(s: State, a: Action)
    requires s.pc.Sweep? && IsControl(a) && Enabled(s, a)
    ensures var s' := Apply(s, a);
            && s' == s.(agents := s'.agents, pc := s'.pc, clock := s.clock + 1)
            && (s'.pc.Idle? || InPass(s'.pc, s.pc.goal, s.pc.poolId, s.pc.agents, s.pc.listedAt))
  {
    SweepStepFrame(s, a);
    assert Apply(s, a) == SweepStep(s, a).(clock := s.clock + 1);
  }

  lemma WriteFrame(s: State, a: Action)
    requires Writes(s.pc) && IsControl(a) && Enabled(s, a)
    ensures var s' := Apply(s, a);
            && s' == s.(cr := s'.cr, nextRv := s'.nextRv, pc := s'.pc, clock := s.clock + 1)
            && (s'.pc.Idle? || (s.pc.PersistFinalizer? && s'.pc.PersistAgain?))
  {}

  lemma WorkFrame(s: State, a: Action)
    requires s.pc.Work? && IsControl(a) && Enabled(s, a)
    ensures var s' := Apply(s, a);
            && s'.crName == s.crName && s'.agents == s.agents && s'.clock == s.clock + 1
            && (s'.pc.Idle? || (s'.pc.Work? && s'.pc.cr == s.pc.cr))
  {
    assert Apply(s, a) == WorkStep(s, a.reply).(clock := s.clock + 1);
  }

  lemma StepKeepsName(s: State, a: Action)
    requires Enabled(s, a)
    ensures Apply(s, a).crName == s.crName
  {
    if !IsControl(a) {
      EnvironmentFrame(s, a);
    } else {
      ControlFrame(s, a);
    }
  }

  lemma ControlFrame(s: State, a: Action)
    requires IsControl(a) && Enabled(s, a)
    ensures var s' := Apply(s, a);
            && s'.crName == s.crName && s'.clock == s.clock + 1
            && (s'.agents == s.agents || s.pc.Sweep?)
            && (s'.pc.Sweep? ==> s.pc.Sweep? || (s.pc.ListAgents? && a.Listed?))
            && (s'.pc.DropFinalizer? ==> s.pc.Sweep?)
            && (s'.pc.ListAgents? ==> s.pc.ResolvePool?)
  {
    if Reads(s.pc) {
      ReadFrame(s, a);
    } else if Writes(s.pc) {
      WriteFrame(s, a);
    } else if s.pc.Work? {
      WorkFrame(s, a);
    } else {
      SweepFrame(s, a);
    }
  }

  // ---------- the inductive invariant ----------

  function HeldCopy(pc: Pc): Option<Cr> {
    match pc
    case ReadPat(CleanUp(c)) => Some(c)
    case ResolvePool(CleanUp(c)) => Some(c)
    case ListAgents(CleanUp(c), _) => Some(c)
    case Sweep(CleanUp(c), _, _, _, _, _) => Some(c)
    case DropFinalizer(c, _, _, _) => Some(c)
    case PersistAgain(c) => Some(c)
    case Work(c, _) => Some(c)
    case _ => None
  }

  predicate Cleaning(pc: Pc) {
    pc.DropFinalizer? || (pc.ReadPat? && pc.goal.CleanUp?) || (pc.ResolvePool? && pc.goal.CleanUp?)
    || (pc.ListAgents? && pc.goal.CleanUp?) || (pc.Sweep? && pc.goal.CleanUp?)
  }

  predicate Stored(s: State, uid: nat) {
    s.cr.Some? && s.cr.value.uid == uid
  }

  predicate Guarded(s: State, uid: nat) {
    Stored(s, uid) && HasFinalizer(s.cr.value)
  }

  /** A copy at the stored version is the stored object, up to the finalizer
      the controller is about to add. */
  predicate Fresh(s: State, c: Cr) {
    c.rv < s.nextRv && (s.cr.Some? && s.cr.value.rv == c.rv ==> s.cr.value == c)
  }

  predicate VersionsInv(s: State) {
    && (s.cr.Some? ==> s.cr.value.rv < s.nextRv && s.cr.value.uid < s.nextUid
                       && !(s.cr.value.deleting && s.cr.value.finalizers == []))
    && (forall u :: u in s.workloads ==> u < s.nextUid)
    && (HeldCopy(s.pc).Some? ==> Fresh(s, HeldCopy(s.pc).value))
    && (s.pc.PersistFinalizer? ==>
          var c := s.pc.cr;
          HasFinalizer(c) && c.rv < s.nextRv
          && (s.cr.Some? && s.cr.value.rv == c.rv ==> c == AddFinalizer(s.cr.value) && !HasFinalizer(s.cr.value)))
  }

  /** While the controller acts on a copy that carries the finalizer, the stored
      resource is the same one and carries it too. */
  predicate CustodyInv(s: State) {
    HeldCopy(s.pc).Some? ==>
      var c := HeldCopy(s.pc).value;
      HasFinalizer(c) && Guarded(s, c.uid) && (Cleaning(s.pc) ==> c.deleting && s.cr.value.deleting)
  }

  /** Agents of `poolId` that the goal selects and that were there at step `at`. */
  predicate Owed(s: State, g: Goal, poolId: int, at: nat, key: AgentKey) {
    key in s.agents && key.pool == poolId && Selected(s, g, s.agents[key].name) && s.agents[key].since <= at
  }

  predicate InTail(l: seq<Agent>, from: nat, id: int, name: string)
    requires from <= |l|
  {
    Agent(id, name, true) in l[from..] || Agent(id, name, false) in l[from..]
  }

  /** Every owed agent is still ahead of the sweep; none is left after it. */
  ghost predicate SweepInv(s: State) {
    && (forall key :: key in s.agents ==> s.agents[key].since < s.clock)
    && (s.pc.Sweep? ==>
          s.pc.next <= |s.pc.agents| && s.pc.listedAt < s.clock
          && forall key :: Owed(s, s.pc.goal, s.pc.poolId, s.pc.listedAt, key) ==>
               InTail(s.pc.agents, s.pc.next, key.id, s.agents[key].name))
    && (s.pc.DropFinalizer? ==>
          s.pc.listedAt < s.clock
          && forall key :: !Owed(s, CleanUp(s.pc.cr), s.pc.poolId, s.pc.listedAt, key))
  }

  ghost predicate Inv(s: State) {
    VersionsInv(s) && CustodyInv(s) && SweepInv(s)
  }

  lemma UpdateKeepsVersions(s: State, obj: Cr, reply: Reply)
    requires VersionsInv(s) && obj.rv < s.nextRv
    requires s.cr.Some? && s.cr.value.rv == obj.rv ==> obj.uid == s.cr.value.uid
    ensures var (s1, w) := UpdateCr(s, obj, reply);
            && s1.workloads == s.workloads && s1.nextUid == s.nextUid && s.nextRv <= s1.nextRv
            && (s1.cr.Some? ==> s1.cr.value.rv < s1.nextRv && s1.cr.value.uid < s1.nextUid
                                && !(s1.cr.value.deleting && s1.cr.value.finalizers == []))
            && (w.Some? ==> w.value.(rv := obj.rv) == obj && w.value.rv < s1.nextRv
                            && (s1.cr == Some(w.value) || (w.value.deleting && w.value.finalizers == [])))
  {}

  lemma UpdateStepKeepsVersions(s: State, a: Action)
    requires VersionsInv(s) && CustodyInv(s) && IsControl(a) && Enabled(s, a)
    requires Writes(s.pc)
    ensures VersionsInv(Apply(s, a)) && CustodyInv(Apply(s, a))
  {
    match s.pc
    case DropFinalizer(c, _, _, _) => UpdateKeepsVersions(s, RemoveFinalizer(c), a.reply);
    case PersistFinalizer(c) => UpdateKeepsVersions(s, c, a.reply);
    case PersistAgain(c) => UpdateKeepsVersions(s, c, a.reply);
  }

  lemma StatusWriteKeepsVersions(s: State, reply: Reply)
    requires VersionsInv(s) && CustodyInv(s) && s.pc.Work?
    requires s.pc.stage.Processing? || s.pc.stage.Report?
    ensures var s1 := WorkStep(s, reply); VersionsInv(s1) && CustodyInv(s1)
  {
    assert WriteStatus(s, reply).workloads == s.workloads;
  }

  lemma ServiceKeepsVersions(s: State, reply: Reply)
    requires VersionsInv(s) && CustodyInv(s) && s.pc.Work?
    requires !s.pc.stage.Processing? && !s.pc.stage.Report?
    ensures var s1 := WorkStep(s, reply); VersionsInv(s1) && CustodyInv(s1)
  {
    var s1 := WorkStep(s, reply);
    assert s1 == s.(workloads := s1.workloads, pc := s1.pc);
  }

  lemma WorkStepKeepsVersions(s: State, a: Action)
    requires VersionsInv(s) && CustodyInv(s) && IsControl(a) && Enabled(s, a)
    requires s.pc.Work?
    ensures VersionsInv(Apply(s, a)) && CustodyInv(Apply(s, a))
  {
    assert Apply(s, a) == WorkStep(s, a.reply).(clock := s.clock + 1);
    if s.pc.stage.Processing? || s.pc.stage.Report? {
      StatusWriteKeepsVersions(s, a.reply);
    } else {
      ServiceKeepsVersions(s, a.reply);
    }
  }

  lemma SweepStepKeepsVersions(s: State, a: Action)
    requires VersionsInv(s) && CustodyInv(s) && IsControl(a) && Enabled(s, a)
    requires s.pc.Sweep?
    ensures VersionsInv(Apply(s, a)) && CustodyInv(Apply(s, a))
  {
    SweepFrame(s, a);
    var s' := Apply(s, a);
    assert s'.pc.Idle? || HeldCopy(s'.pc) == HeldCopy(s.pc);
  }

  lemma ReadStepKeepsVersions(s: State, a: Action)
    requires VersionsInv(s) && CustodyInv(s) && IsControl(a) && Enabled(s, a)
    requires Reads(s.pc)
    ensures VersionsInv(Apply(s, a)) && CustodyInv(Apply(s, a))
  {
    ReadFrame(s, a);
  }

  lemma ControlKeepsVersions(s: State, a: Action)
    requires VersionsInv(s) && CustodyInv(s) && IsControl(a) && Enabled(s, a)
    ensures VersionsInv(Apply(s, a)) && CustodyInv(Apply(s, a))
  {
    if Writes(s.pc) {
      UpdateStepKeepsVersions(s, a);
    } else if s.pc.Work? {
      WorkStepKeepsVersions(s, a);
    } else if s.pc.Sweep? {
      SweepStepKeepsVersions(s, a);
    } else {
      ReadStepKeepsVersions(s, a);
    }
  }

  lemma EnvironmentKeepsVersions(s: State, a: Action)
    requires VersionsInv(s) && CustodyInv(s) && !IsControl(a) && Enabled(s, a)
    ensures VersionsInv(Apply(s, a)) && CustodyInv(Apply(s, a))
  {}

  lemma EnvironmentKeepsSweep(s: State, a: Action)
    requires SweepInv(s) && !IsControl(a) && Enabled(s, a)
    ensures SweepInv(Apply(s, a))
  {
    var s' := Apply(s, a);
    if s'.pc.Sweep? {
      forall key | Owed(s', s'.pc.goal, s'.pc.poolId, s'.pc.listedAt, key)
        ensures InTail(s'.pc.agents, s'.pc.next, key.id, s'.agents[key].name)
      {
        assert Owed(s, s.pc.goal, s.pc.poolId, s.pc.listedAt, key);
      }
    }
    if s'.pc.DropFinalizer? {
      forall key ensures !Owed(s', CleanUp(s'.pc.cr), s'.pc.poolId, s'.pc.listedAt, key) {
        assert !Owed(s, CleanUp(s.pc.cr), s.pc.poolId, s.pc.listedAt, key);
      }
    }
  }

  predicate Weakened(agents: map<AgentKey, Registration>, agents': map<AgentKey, Registration>) {
    forall key :: key in agents' ==>
      key in agents && agents'[key].(enabled := agents[key].enabled) == agents[key]
  }

  lemma HitShrinks(s: State, reply: Reply)
    requires AtSelected(s)
    ensures Weakened(s.agents, DisableStep(s, reply).agents)
    ensures var s' := DeleteStep(s, reply);
            Weakened(s.agents, s'.agents) && (!s'.pc.Idle? ==> CurrentKey(s.pc) !in s'.agents)
  {}

  /** A sweep step leaves registrations alone, except that it may switch off or
      delete the agent it is at. */
  lemma SweepStepShrinks(s: State, a: Action)
    requires s.pc.Sweep? && IsControl(a) && Enabled(s, a)
    ensures var s' := Apply(s, a);
            && Weakened(s.agents, s'.agents)
            && (!s'.pc.Idle? && AtSelected(s) && !MustDisable(s.pc) ==> CurrentKey(s.pc) !in s'.agents)
  {
    assert Apply(s, a) == SweepStep(s, a).(clock := s.clock + 1);
    if AtSelected(s) {
      HitShrinks(s, a.reply);
    }
  }

  /** What the pass owes after a step of the sweep, it owed before. */
  lemma OwedBefore(s: State, a: Action, key: AgentKey)
    requires SweepInv(s) && s.pc.Sweep? && IsControl(a) && Enabled(s, a)
    requires Owed(Apply(s, a), s.pc.goal, s.pc.poolId, s.pc.listedAt, key)
    ensures Owed(s, s.pc.goal, s.pc.poolId, s.pc.listedAt, key)
    ensures Apply(s, a).agents[key].name == s.agents[key].name
    ensures InTail(s.pc.agents, s.pc.next, key.id, s.agents[key].name)
  {
    SweepFrame(s, a);
    SweepStepShrinks(s, a);
  }

  /** The sweep moves past an agent only if it is no longer owed. */
  lemma SweepMovesOn(s: State, a: Action, key: AgentKey)
    requires SweepInv(s) && s.pc.Sweep? && IsControl(a) && Enabled(s, a)
    requires s.pc.next < |s.pc.agents| && !Apply(s, a).pc.Idle? && !(AtSelected(s) && MustDisable(s.pc))
    requires Owed(Apply(s, a), s.pc.goal, s.pc.poolId, s.pc.listedAt, key)
    ensures InTail(s.pc.agents, s.pc.next + 1, key.id, s.agents[key].name)
  {
    var pc := s.pc;
    OwedBefore(s, a, key);
    SweepStepShrinks(s, a);
    assert pc.agents[pc.next..] == [pc.agents[pc.next]] + pc.agents[pc.next + 1..];
    assert key == AgentKey(pc.poolId, key.id);
  }

  lemma SweepStepPc(s: State, a: Action)
    requires s.pc.Sweep? && IsControl(a) && Enabled(s, a)
    ensures var pc := Apply(s, a).pc;
            || pc.Idle?
            || (|s.pc.agents| <= s.pc.next && pc == AfterSweep(s.pc))
            || (s.pc.next < |s.pc.agents| && pc == s.pc.(next := s.pc.next + 1, disabled := false)
                && !(AtSelected(s) && MustDisable(s.pc)))
            || (AtSelected(s) && pc == s.pc.(disabled := true))
  {
    assert Apply(s, a) == SweepStep(s, a).(clock := s.clock + 1);
  }

  lemma SweepStepKeepsSweep(s: State, a: Action)
    requires SweepInv(s) && s.pc.Sweep? && IsControl(a) && Enabled(s, a)
    ensures SweepInv(Apply(s, a))
  {
    var s', pc := Apply(s, a), s.pc;
    SweepFrame(s, a);
    SweepStepShrinks(s, a);
    SweepStepPc(s, a);
    forall key | Owed(s', pc.goal, pc.poolId, pc.listedAt, key)
      ensures InTail(pc.agents, pc.next, key.id, s'.agents[key].name)
      ensures s'.pc.Sweep? && s'.pc.next > pc.next ==> InTail(pc.agents, s'.pc.next, key.id, s'.agents[key].name)
    {
      OwedBefore(s, a, key);
      if s'.pc.Sweep? && s'.pc.next > pc.next {
        SweepMovesOn(s, a, key);
      }
    }
  }

  /** A listing holds every agent of the pool, so it owes none it has not ahead. */
  lemma ListingStartsSweep(s: State, a: Action)
    requires SweepInv(s) && s.pc.ListAgents? && Enabled(s, a) && a.Listed?
    ensures SweepInv(Apply(s, a))
  {
    var s', l := Apply(s, a), a.agents;
    assert l[0..] == l;
    forall key | Owed(s', s'.pc.goal, s'.pc.poolId, s'.pc.listedAt, key)
      ensures InTail(l, 0, key.id, s'.agents[key].name)
    {
      assert Agent(key.id, s.agents[key].name, s.agents[key].enabled) in l;
    }
  }

  lemma ControlKeepsSweep(s: State, a: Action)
    requires SweepInv(s) && !s.pc.Sweep? && IsControl(a) && Enabled(s, a)
    ensures SweepInv(Apply(s, a))
  {
    ControlFrame(s, a);
    if s.pc.ListAgents? && a.Listed? {
      ListingStartsSweep(s, a);
    }
  }

  lemma StepKeepsInv(s: State, a: Action)
    requires Inv(s) && Enabled(s, a)
    ensures Inv(Apply(s, a))
  {
    if !IsControl(a) {
      EnvironmentKeepsVersions(s, a);
      EnvironmentKeepsSweep(s, a);
    } else {
      ControlKeepsVersions(s, a);
      if s.pc.Sweep? {
        SweepStepKeepsSweep(s, a);
      } else {
        ControlKeepsSweep(s, a);
      }
    }
  }

  /** Every reachable state satisfies the invariant, and its clock is its index. */
  lemma {:induction false} RunKeepsInv(r: Run, k: nat)
    requires IsRun(r) && k < |r.states|
    ensures Inv(r.states[k]) && r.states[k].clock == k
  {
    if k > 0 {
      RunKeepsInv(r, k - 1);
      StepAt(r, k - 1);
      StepKeepsInv(r.states[k - 1], r.acts[k - 1]);
    }
  }

  // ---------- what a cleanup pass did, read off the run ----------

  /** Step `at` listed the pool, and the pass went on uninterrupted up to `k`. */
  predicate ListedIn(r: Run, at: nat, k: nat, g: Goal, poolId: int, l: seq<Agent>)
    requires k < |r.states| == |r.acts| + 1
  {
    at < k && r.states[at].pc == ListAgents(g, poolId) && r.acts[at] == Listed(l)
    && forall m :: at < m <= k ==> InPass(r.states[m].pc, g, poolId, l, at)
  }

  function GoalOf(pc: Pc): Goal
    requires pc.Sweep? || pc.DropFinalizer?
  {
    if pc.Sweep? then pc.goal else CleanUp(pc.cr)
  }

  lemma PassEntered(s: State, a: Action)
    requires Enabled(s, a)
    requires var pc := Apply(s, a).pc; pc.Sweep? || pc.DropFinalizer?
    ensures var pc := Apply(s, a).pc;
            || InPass(s.pc, GoalOf(pc), pc.poolId, pc.agents, pc.listedAt)
            || (s.pc == ListAgents(GoalOf(pc), pc.poolId) && a == Listed(pc.agents) && pc.listedAt == s.clock)
  {
    if !IsControl(a) {
      EnvironmentFrame(s, a);
    } else if s.pc.Sweep? {
      SweepFrame(s, a);
    } else {
      ControlFrame(s, a);
    }
  }

  lemma {:induction false} ListingHappened(r: Run, k: nat)
    requires IsRun(r) && k < |r.states|
    requires var pc := r.states[k].pc; pc.Sweep? || pc.DropFinalizer?
    ensures var pc := r.states[k].pc; ListedIn(r, pc.listedAt, k, GoalOf(pc), pc.poolId, pc.agents)
  {
    if k > 0 {
      var s, a := r.states[k - 1], r.acts[k - 1];
      RunKeepsInv(r, k - 1);
      StepAt(r, k - 1);
      PassEntered(s, a);
      if !s.pc.ListAgents? {
        ListingHappened(r, k - 1);
      }
    }
  }

  /** Step `m` is a delete call for `key` that reported success. */
  predicate DeletesAt(r: Run, m: nat, key: AgentKey)
    requires m < |r.acts| && |r.states| == |r.acts| + 1
  {
    var s := r.states[m];
    AtSelected(s) && !MustDisable(s.pc) && CurrentKey(s.pc) == key && r.acts[m] == Call(Done)
  }

  predicate DeletedBetween(r: Run, from: nat, to: nat, key: AgentKey)
    requires to <= |r.acts| && |r.states| == |r.acts| + 1
  {
    exists m :: from < m < to && DeletesAt(r, m, key)
  }

  function Progress(pc: Pc): nat
    requires pc.Sweep? || pc.DropFinalizer?
  {
    if pc.Sweep? then pc.next else |pc.agents|
  }

  lemma ProgressStep(s: State, a: Action)
    requires Enabled(s, a) && SweepInv(s) && s.pc.Sweep?
    requires var pc := Apply(s, a).pc; pc.Sweep? || pc.DropFinalizer?
    ensures var pc := Apply(s, a).pc;
            && Progress(s.pc) <= Progress(pc) <= Progress(s.pc) + 1
            && (Progress(s.pc) < Progress(pc) && AtSelected(s) ==> !MustDisable(s.pc) && a == Call(Done))
            && (Progress(s.pc) < Progress(pc) ==> s.pc.next < |s.pc.agents|)
  {}

  lemma {:induction false} NameIsConstant(r: Run, k: nat)
    requires IsRun(r) && k < |r.states|
    ensures r.states[k].crName == r.states[0].crName
  {
    if k > 0 {
      NameIsConstant(r, k - 1);
      StepAt(r, k - 1);
      StepKeepsName(r.states[k - 1], r.acts[k - 1]);
    }
  }

  lemma DeletedLater(r: Run, from: nat, to: nat, key: AgentKey)
    requires to < |r.acts| && |r.states| == |r.acts| + 1 && DeletedBetween(r, from, to, key)
    ensures DeletedBetween(r, from, to + 1, key)
  {
    var m :| from < m < to && DeletesAt(r, m, key);
  }

  lemma DeletedNow(r: Run, from: nat, k: nat, x: nat)
    requires IsRun(r) && from < k < |r.acts| && Inv(r.states[k]) && r.states[k].pc.Sweep?
    requires var pc := r.states[k + 1].pc; (pc.Sweep? || pc.DropFinalizer?) && x < Progress(pc)
    requires var pc := r.states[k].pc;
             pc.next <= x < |pc.agents| && Selected(r.states[k], pc.goal, pc.agents[x].name)
    ensures var pc := r.states[k].pc; DeletedBetween(r, from, k + 1, AgentKey(pc.poolId, pc.agents[x].id))
  {
    var s := r.states[k];
    StepAt(r, k);
    ProgressStep(s, r.acts[k]);
    assert x == s.pc.next;
    assert DeletesAt(r, k, AgentKey(s.pc.poolId, s.pc.agents[x].id));
  }

  /** A state inside a sweep comes right after the listing, having passed no
      agent, or after another state of the same pass. */
  lemma PassPredecessor(r: Run, k: nat)
    requires IsRun(r) && k < |r.states|
    requires var pc := r.states[k].pc; pc.Sweep? || pc.DropFinalizer?
    ensures var pc := r.states[k].pc;
            || (k == pc.listedAt + 1 && Progress(pc) == 0)
            || (pc.listedAt < k - 1 && InPass(r.states[k - 1].pc, GoalOf(pc), pc.poolId, pc.agents, pc.listedAt))
  {
    var at := r.states[k].pc.listedAt;
    ListingHappened(r, k);
    if k == at + 1 {
      StepAt(r, at);
    }
  }

  /** Every selected agent the sweep has passed was deleted by a successful call. */
  lemma {:induction false} SweptAreDeleted(r: Run, k: nat, x: nat)
    requires IsRun(r) && k < |r.states|
    requires var pc := r.states[k].pc; pc.Sweep? || pc.DropFinalizer?
    requires var pc := r.states[k].pc;
             x < Progress(pc) && x < |pc.agents| && HasPrefix(pc.agents[x].name, Prefix(r.states[0], GoalOf(pc)))
    ensures var pc := r.states[k].pc; DeletedBetween(r, pc.listedAt, k, AgentKey(pc.poolId, pc.agents[x].id))
  {
    PassPredecessor(r, k);
    var pc, before := r.states[k].pc, r.states[k - 1].pc;
    if Progress(before) <= x {
      RunKeepsInv(r, k - 1);
      NameIsConstant(r, k - 1);
      DeletedNow(r, pc.listedAt, k - 1, x);
    } else {
      SweptAreDeleted(r, k - 1, x);
      DeletedLater(r, pc.listedAt, k - 1, AgentKey(pc.poolId, pc.agents[x].id));
    }
  }

  /** Step `m` is a disable call for `key` that reported success. */
  predicate DisablesAt(r: Run, m: nat, key: AgentKey)
    requires m < |r.acts| && |r.states| == |r.acts| + 1
  {
    var s := r.states[m];
    AtSelected(s) && MustDisable(s.pc) && CurrentKey(s.pc) == key && ValidIds(key) && r.acts[m] == Call(Done)
  }

  lemma BecomesDisabled(s: State, a: Action)
    requires Enabled(s, a) && Apply(s, a).pc.Sweep? && Apply(s, a).pc.disabled
    ensures var pc := Apply(s, a).pc;
            || s.pc == pc
            || (s.pc == pc.(disabled := false) && AtSelected(s) && MustDisable(s.pc)
                && ValidIds(CurrentKey(s.pc)) && a == Call(Done))
  {
    if !IsControl(a) {
      EnvironmentFrame(s, a);
    } else {
      ControlFrame(s, a);
    }
  }

  lemma {:induction false} DisabledEarlier(r: Run, k: nat)
    requires IsRun(r) && k < |r.states| && r.states[k].pc.Sweep? && r.states[k].pc.disabled
    ensures var pc := r.states[k].pc;
            && pc.next < |pc.agents|
            && exists m :: pc.listedAt < m < k && DisablesAt(r, m, CurrentKey(pc))
  {
    if k > 0 {
      StepAt(r, k - 1);
      BecomesDisabled(r.states[k - 1], r.acts[k - 1]);
      RunKeepsInv(r, k - 1);
      if r.states[k - 1].pc == r.states[k].pc {
        DisabledEarlier(r, k - 1);
      } else {
        assert DisablesAt(r, k - 1, CurrentKey(r.states[k].pc));
      }
    }
  }

  /** An agent listed as enabled is deleted only after the same pass disabled it. */
  lemma DeleteComesAfterDisable(r: Run, m: nat, key: AgentKey)
    requires IsRun(r) && m < |r.acts| && DeletesAt(r, m, key)
    requires r.states[m].pc.agents[r.states[m].pc.next].enabled
    ensures var pc := r.states[m].pc;
            exists d :: pc.listedAt < d < m && DisablesAt(r, d, key)
              && InPass(r.states[d].pc, pc.goal, pc.poolId, pc.agents, pc.listedAt)
  {
    DisabledEarlier(r, m);
    ListingHappened(r, m);
  }

  lemma ProgressOnce(r: Run, k: nat)
    requires IsRun(r) && k < |r.acts|
    requires var pc := r.states[k].pc; pc.Sweep? || pc.DropFinalizer?
    requires var pc := r.states[k + 1].pc; pc.Sweep? || pc.DropFinalizer?
    ensures Progress(r.states[k].pc) <= Progress(r.states[k + 1].pc)
  {
    RunKeepsInv(r, k);
    StepAt(r, k);
    if r.states[k].pc.Sweep? {
      ProgressStep(r.states[k], r.acts[k]);
    }
  }

  lemma {:induction false} ProgressGrows(r: Run, m: nat, k: nat)
    requires IsRun(r) && k < |r.states|
    requires var pc := r.states[k].pc; (pc.Sweep? || pc.DropFinalizer?) && pc.listedAt < m <= k
    ensures var (before, pc) := (r.states[m].pc, r.states[k].pc);
            InPass(before, GoalOf(pc), pc.poolId, pc.agents, pc.listedAt) && Progress(before) <= Progress(pc)
  {
    if m < k {
      PassPredecessor(r, k);
      ProgressGrows(r, m, k - 1);
      ProgressOnce(r, k - 1);
    }
  }

  /** Up to now the pass has made no call for any listed agent after the current one. */
  lemma LaterAgentsUntouched(r: Run, k: nat, y: nat)
    requires IsRun(r) && k < |r.states| && r.states[k].pc.Sweep?
    requires r.states[k].pc.next < y < |r.states[k].pc.agents|
    ensures var pc := r.states[k].pc;
            forall m :: pc.listedAt < m <= k ==>
              r.states[m].pc.Sweep?
              && (AtSelected(r.states[m]) ==> CurrentKey(r.states[m].pc) != AgentKey(pc.poolId, pc.agents[y].id))
  {
    var pc := r.states[k].pc;
    ListingHappened(r, k);
    StepAt(r, pc.listedAt);
    assert IsListing(r.states[pc.listedAt], pc.poolId, pc.agents);
    forall m | pc.listedAt < m <= k
      ensures r.states[m].pc.Sweep?
              && (AtSelected(r.states[m]) ==> CurrentKey(r.states[m].pc) != AgentKey(pc.poolId, pc.agents[y].id))
    {
      ProgressGrows(r, m, k);
    }
  }

  predicate ResolvedAt(r: Run, i: nat, g: Goal, poolId: int)
    requires i < |r.states|
  {
    var name := match g case CleanUp(cr) => cr.pool case PodGone(pool) => pool;
    r.states[i].pc == ResolvePool(g) && name in r.states[i].pools && r.states[i].pools[name] == poolId
  }

  /** Step `i` resolved the pool, and the pass has waited to list it up to `k`. */
  predicate ResolvedFor(r: Run, i: nat, k: nat, g: Goal, poolId: int)
    requires k < |r.states|
  {
    i < k && ResolvedAt(r, i, g, poolId) && forall m :: i < m <= k ==> r.states[m].pc == ListAgents(g, poolId)
  }

  lemma {:induction false} PoolWasResolved(r: Run, k: nat)
    requires IsRun(r) && k < |r.states| && r.states[k].pc.ListAgents?
    ensures exists i :: 0 <= i < k && ResolvedFor(r, i, k, r.states[k].pc.goal, r.states[k].pc.poolId)
  {
    if k > 0 {
      var s, g, poolId := r.states[k - 1], r.states[k].pc.goal, r.states[k].pc.poolId;
      StepAt(r, k - 1);
      ListAgentsEntered(s, r.acts[k - 1]);
      if s.pc.ListAgents? {
        PoolWasResolved(r, k - 1);
        var i :| 0 <= i < k - 1 && ResolvedFor(r, i, k - 1, g, poolId);
        assert ResolvedFor(r, i, k, g, poolId);
      } else {
        assert ResolvedFor(r, k - 1, k, g, poolId);
      }
    }
  }

  lemma ListAgentsEntered(s: State, a: Action)
    requires Enabled(s, a) && Apply(s, a).pc.ListAgents?
    ensures var (g, poolId) := (Apply(s, a).pc.goal, Apply(s, a).pc.poolId);
            || s.pc == ListAgents(g, poolId)
            || (s.pc == ResolvePool(g) && PoolOf(g) in s.pools && s.pools[PoolOf(g)] == poolId)
  {
    if !IsControl(a) {
      EnvironmentFrame(s, a);
    } else {
      ControlFrame(s, a);
    }
  }

  lemma RegistrationStep(s: State, a: Action, key: AgentKey)
    requires Enabled(s, a) && key in Apply(s, a).agents
    ensures var reg := Apply(s, a).agents[key];
            || (key in s.agents && s.agents[key].since == reg.since && s.agents[key].name == reg.name)
            || (a == AgentRegisters(key, reg.name) && reg.since == s.clock)
  {
    if !(a.AgentRegisters? && a.key == key) {
      RegistrationUnchanged(s, a, key);
    }
  }

  lemma {:induction false} RegistrationHappened(r: Run, k: nat, key: AgentKey)
    requires IsRun(r) && k < |r.states| && key in r.states[k].agents
    ensures var reg := r.states[k].agents[key];
            reg.since < k && r.acts[reg.since] == AgentRegisters(key, reg.name)
  {
    assert k > 0;
    var j := k - 1;
    RunKeepsInv(r, j);
    StepAt(r, j);
    RegistrationStep(r.states[j], r.acts[j], key);
    if key in r.states[j].agents && r.states[j].agents[key].since == r.states[k].agents[key].since {
      RegistrationHappened(r, j, key);
    }
  }

  lemma RegistrationUnchanged(s: State, a: Action, key: AgentKey)
    requires Enabled(s, a) && key in Apply(s, a).agents && !(a.AgentRegisters? && a.key == key)
    ensures key in s.agents && s.agents[key].since == Apply(s, a).agents[key].since
            && s.agents[key].name == Apply(s, a).agents[key].name
  {
    if IsControl(a) && s.pc.Sweep? {
      SweepStepShrinks(s, a);
    }
  }

  // ---------- safety over whole runs ----------

  /** The stored resource loses the finalizer between the two states. */
  predicate FinalizerLost(s: State, s': State) {
    s.cr.Some? && HasFinalizer(s.cr.value) && !Guarded(s', s.cr.value.uid)
  }

  lemma EnvironmentKeepsFinalizer(s: State, a: Action)
    requires !IsControl(a) && EnvEnabled(s, a)
    ensures !FinalizerLost(s, Environment(s, a))
  {}

  lemma UpdateKeepsFinalizer(s: State, c: Cr, reply: Reply)
    requires HasFinalizer(c) && s.cr.Some? && s.cr.value.rv == c.rv ==> s.cr.value.uid == c.uid
    requires HasFinalizer(c)
    ensures !FinalizerLost(s, UpdateCr(s, c, reply).0)
  {}

  lemma ControlKeepsFinalizer(s: State, a: Action)
    requires Inv(s) && IsControl(a) && ControlEnabled(s, a) && !s.pc.DropFinalizer?
    ensures !FinalizerLost(s, Control(s, a))
  {
    match s.pc
    case PersistFinalizer(c) => UpdateKeepsFinalizer(s, c, a.reply);
    case PersistAgain(c) => UpdateKeepsFinalizer(s, c, a.reply);
    case _ =>
  }

  lemma LossIsADrop(s: State, a: Action)
    requires Inv(s) && Enabled(s, a) && FinalizerLost(s, Apply(s, a))
    ensures s.pc.DropFinalizer? && a.Call? && s.pc.cr == s.cr.value && s.cr.value.deleting
    ensures Apply(s, a).agents == s.agents && Apply(s, a).crName == s.crName
  {
    if !IsControl(a) {
      EnvironmentKeepsFinalizer(s, a);
    } else if !s.pc.DropFinalizer? {
      ControlKeepsFinalizer(s, a);
    }
  }

  /** Step `k` ends a cleanup pass over resource `c`: the pool named by the
      current version of `c` was resolved, then listed at step `at`, all in one
      pass; every listed
      matching agent was then deleted by a successful call; and every matching
      agent in the pool when the finalizer goes registered after the listing. */
  ghost predicate CleanPass(r: Run, at: nat, k: nat, c: Cr)
    requires IsRun(r)
  {
    && at < k < |r.acts|
    && r.states[k].pc.DropFinalizer? && r.acts[k].Call?
    && (var (poolId, l, name) := (r.states[k].pc.poolId, r.states[k].pc.agents, r.states[k].crName);
        && r.states[k].pc == DropFinalizer(c, poolId, l, at)
        && r.states[k].cr == Some(c) && c.deleting
        && (exists i :: 0 <= i < at && ResolvedFor(r, i, at, CleanUp(c), poolId))
        && ListedIn(r, at, k, CleanUp(c), poolId, l) && IsListing(r.states[at], poolId, l)
        && (forall x :: 0 <= x < |l| && MatchesCr(name, l[x].name) ==>
              DeletedBetween(r, at, k, AgentKey(poolId, l[x].id)))
        && (forall key :: key in r.states[k + 1].agents && key.pool == poolId
                          && MatchesCr(name, r.states[k + 1].agents[key].name) ==>
              var reg := r.states[k + 1].agents[key];
              at < reg.since < k && r.acts[reg.since] == AgentRegisters(key, reg.name)))
  }

  /** Whatever the environment does, the stored resource loses its finalizer
      only at the end of a successful cleanup pass over that very version. */
  lemma LostOnlyAfterCleanup(r: Run, k: nat)
    requires IsRun(r) && k < |r.acts| && FinalizerLost(r.states[k], r.states[k + 1])
    ensures exists at :: 0 <= at && CleanPass(r, at, k, r.states[k].cr.value)
  {
    var s, s' := r.states[k], r.states[k + 1];
    RunKeepsInv(r, k);
    StepAt(r, k);
    LossIsADrop(s, r.acts[k]);
    var c, poolId, l, at := s.pc.cr, s.pc.poolId, s.pc.agents, s.pc.listedAt;
    ListingHappened(r, k);
    PoolWasResolved(r, at);
    StepAt(r, at);
    NameIsConstant(r, k);
    forall x | 0 <= x < |l| && MatchesCr(s.crName, l[x].name)
      ensures DeletedBetween(r, at, k, AgentKey(poolId, l[x].id))
    {
      SweptAreDeleted(r, k, x);
    }
    forall key | key in s'.agents && key.pool == poolId && MatchesCr(s.crName, s'.agents[key].name)
      ensures at < s'.agents[key].since < k && r.acts[s'.agents[key].since] == AgentRegisters(key, s'.agents[key].name)
    {
      assert !Owed(s, CleanUp(c), poolId, at, key);
      RegistrationHappened(r, k, key);
    }
    assert CleanPass(r, at, k, c);
  }

  lemma OnlyWorkCreates(s: State, a: Action)
    requires IsControl(a) && Enabled(s, a) && !s.pc.Work?
    ensures Apply(s, a).workloads == s.workloads
  {
    if Reads(s.pc) {
      ReadFrame(s, a);
    } else if Writes(s.pc) {
      WriteFrame(s, a);
    } else {
      SweepFrame(s, a);
    }
  }

  /** A workload is created only while the finalizer of its resource is stored. */
  lemma CreationIsGuarded(s: State, a: Action, uid: nat)
    requires Inv(s) && Enabled(s, a) && uid in Apply(s, a).workloads
    ensures uid in s.workloads || Guarded(s, uid)
  {
    if !IsControl(a) {
      EnvironmentFrame(s, a);
    } else if !s.pc.Work? {
      OnlyWorkCreates(s, a);
    }
  }

  /** Before state `k`, resource `uid` gave up its finalizer in a cleanup pass. */
  ghost predicate CleanedUp(r: Run, k: nat, uid: nat)
    requires IsRun(r) && k < |r.states|
  {
    exists at: nat, d: nat :: d < k && Stored(r.states[d], uid) && CleanPass(r, at, d, r.states[d].cr.value)
  }

  lemma CleanedUpLater(r: Run, k: nat, uid: nat)
    requires IsRun(r) && k < |r.acts| && CleanedUp(r, k, uid)
    ensures CleanedUp(r, k + 1, uid)
  {
    var at: nat, d: nat :| d < k && Stored(r.states[d], uid) && CleanPass(r, at, d, r.states[d].cr.value);
    assert d < k + 1;
  }

  lemma LossCleansUp(r: Run, k: nat, uid: nat)
    requires IsRun(r) && k < |r.acts| && Guarded(r.states[k], uid) && !Guarded(r.states[k + 1], uid)
    ensures CleanedUp(r, k + 1, uid)
  {
    LostOnlyAfterCleanup(r, k);
    var at :| 0 <= at && CleanPass(r, at, k, r.states[k].cr.value);
  }

  /** If a Deployment or Job was ever created for a resource, the resource is
      still stored with its finalizer, or gave it up in a successful cleanup. */
  lemma {:induction false} NoWorkloadWithoutCleanup(r: Run, k: nat, uid: nat)
    requires IsRun(r) && k < |r.states| && uid in r.states[k].workloads
    ensures Guarded(r.states[k], uid) || CleanedUp(r, k, uid)
  {
    assert k > 0;
    var j := k - 1;
    RunKeepsInv(r, j);
    StepAt(r, j);
    CreationIsGuarded(r.states[j], r.acts[j], uid);
    if !Guarded(r.states[j], uid) {
      NoWorkloadWithoutCleanup(r, j, uid);
      CleanedUpLater(r, j, uid);
    } else if !Guarded(r.states[k], uid) {
      LossCleansUp(r, j, uid);
    }
  }

  // ---------- what single steps leave alone ----------

  /** A controller step touches no agent but the one its sweep is at. */
  lemma SweepTouchesOnlyCurrent(s: State, a: Action, key: AgentKey)
    requires IsControl(a) && Enabled(s, a)
    requires AtSelected(s) ==> key != CurrentKey(s.pc)
    ensures key in Apply(s, a).agents <==> key in s.agents
    ensures key in s.agents ==> Apply(s, a).agents[key] == s.agents[key]
  {
    ControlFrame(s, a);
  }

  /** Without registrations the set of matching agents only shrinks. */
  lemma MatchesNeverGrow(s: State, a: Action, g: Goal, poolId: int)
    requires Enabled(s, a) && !a.AgentRegisters?
    ensures forall key ::
              key in Apply(s, a).agents && key.pool == poolId && Selected(s, g, Apply(s, a).agents[key].name) ==>
              key in s.agents && Selected(s, g, s.agents[key].name)
  {
    forall key | key in Apply(s, a).agents
      ensures key in s.agents && s.agents[key].name == Apply(s, a).agents[key].name
    {
      RegistrationUnchanged(s, a, key);
    }
  }
}
