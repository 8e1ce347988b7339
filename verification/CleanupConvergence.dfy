/** How many passes and steps the controller needs to let a deleted resource go,
    and what keeps it from ever doing so. */
module CleanupConvergence {
  import opened AgentMatching
  import opened FinalizerProtocol
  import opened FinalizerSafety

  /** The user deleted resource `uid`; its finalizer still holds it back. */
  predicate Pending(s: State, uid: nat) {
    Guarded(s, uid) && s.cr.value.deleting
  }

  function Starts(acts: seq<Action>, a: nat, b: nat): nat
    requires a <= b <= |acts|
  {
    if a == b then 0 else Starts(acts, a, b - 1) + (if acts[b - 1].PodLookup? then 1 else 0)
  }

  function ControlSteps(acts: seq<Action>, a: nat, b: nat): nat
    requires a <= b <= |acts|
  {
    if a == b then 0 else ControlSteps(acts, a, b - 1) + (if IsControl(acts[b - 1]) then 1 else 0)
  }

  ghost function Failures(r: Run, a: nat, b: nat): nat
    requires IsRun(r) && a <= b <= |r.acts|
  {
    if a == b then 0
    else
      StepAt(r, b - 1);
      Failures(r, a, b - 1) + (if Fails(r.states[b - 1], r.acts[b - 1]) then 1 else 0)
  }

  /** The lookup found a pod named like the resource: the pass is not a cleanup. */
  predicate Diverts(a: Action) {
    a.PodLookup? && (a.answer.PodRunning? || a.answer.PodFinished?)
  }

  function Diverted(acts: seq<Action>, a: nat, b: nat): nat
    requires a <= b <= |acts|
  {
    if a == b then 0 else Diverted(acts, a, b - 1) + (if Diverts(acts[b - 1]) then 1 else 0)
  }

  predicate ListsAtMost(a: Action, n: nat) {
    a.Listed? ==> |a.agents| <= n
  }

  predicate PendingThroughout(r: Run, a: nat, b: nat, uid: nat)
    requires a <= b <= |r.acts| && |r.states| == |r.acts| + 1
  {
    r.states[a].pc.Idle? && forall m :: a <= m <= b ==> Pending(r.states[m], uid)
  }

  /** An upper bound on the controller steps left in a pass. */
  function Remaining(pc: Pc, n: nat): int {
    match pc
    case ReadCr => 2 * n + 6
    case ReadOwner(_) => 2 * n + 6
    case ReadPat(_) => 2 * n + 5
    case ResolvePool(_) => 2 * n + 4
    case ListAgents(_, _) => 2 * n + 3
    case Sweep(_, _, l, next, disabled, _) => 2 * (|l| - next) + 2 - (if disabled then 1 else 0)
    case DropFinalizer(_, _, _, _) => 1
    case _ => 0
  }

  /** Where the controller can be while it only ever works on a pending resource
      or a pod. */
  predicate NoService(pc: Pc) {
    !pc.PersistFinalizer? && !pc.PersistAgain? && !pc.Work?
  }

  /** A cleanup pass is running. */
  predicate InCleanup(pc: Pc) {
    pc.ReadCr? || Cleaning(pc)
  }

  predicate SweepInBounds(s: State) {
    s.pc.Sweep? ==> s.pc.next <= |s.pc.agents| && (s.pc.disabled ==> AtSelected(s) && s.pc.agents[s.pc.next].enabled)
  }

  // ---------- single steps ----------

  lemma DropStaysPending(s: State, a: Action, uid: nat)
    requires Inv(s) && IsControl(a) && Enabled(s, a) && s.pc.DropFinalizer?
    requires Pending(s, uid) && Pending(Apply(s, a), uid)
    ensures Fails(s, a) && Apply(s, a).pc.Idle?
  {}

  lemma SweepTowardsEnd(s: State, a: Action)
    requires IsControl(a) && Enabled(s, a) && s.pc.Sweep? && SweepInBounds(s)
    ensures var pc := Apply(s, a).pc;
            && NoService(pc) && SweepInBounds(Apply(s, a))
            && forall n :: Remaining(pc, n) < Remaining(s.pc, n) && 0 < Remaining(s.pc, n)
  {}

  lemma SweepKeepsGoal(s: State, a: Action)
    requires IsControl(a) && Enabled(s, a) && s.pc.Sweep?
    ensures var pc := Apply(s, a).pc;
            && (pc.Idle? || Cleaning(pc) == Cleaning(s.pc))
            && (Cleaning(s.pc) ==> (pc.Idle? <==> Fails(s, a)))
  {}

  lemma LookupOpensPass(s: State, a: Action)
    requires Enabled(s, a) && IsControl(a) && s.pc.Idle?
    ensures a.PodLookup? && (Fails(s, a) <==> a.answer.LookupFailed?)
    ensures Apply(s, a).pc == match a.answer
                              case NoPod => ReadCr
                              case PodFinished(owner) => ReadOwner(owner)
                              case _ => Idle
  {}

  lemma ReadTowardsEnd(s: State, a: Action, uid: nat, n: nat)
    requires Inv(s) && Enabled(s, a) && IsControl(a) && ListsAtMost(a, n) && Pending(s, uid)
    requires Reads(s.pc) && !s.pc.Idle?
    ensures var pc := Apply(s, a).pc;
            && NoService(pc) && SweepInBounds(Apply(s, a)) && Remaining(pc, n) < Remaining(s.pc, n)
            && (pc.Idle? || InCleanup(pc) == InCleanup(s.pc))
            && (InCleanup(s.pc) ==> (pc.Idle? <==> Fails(s, a)))
  {}

  lemma EnvironmentWaits(s: State, a: Action)
    requires Enabled(s, a) && !IsControl(a)
    ensures Fails(s, a) <==> a == Restart && !s.pc.Idle?
    ensures Apply(s, a).crName == s.crName && Apply(s, a).pc == if a == Restart then Idle else s.pc
  {
    EnvironmentFrame(s, a);
  }

  /** The measure: every controller step of a pass but the first brings it closer
      to its end, and a cleanup pass ends without a release exactly by failing. */
  lemma StepTowardsRelease(s: State, a: Action, uid: nat, n: nat)
    requires Inv(s) && Enabled(s, a) && ListsAtMost(a, n)
    requires Pending(s, uid) && Pending(Apply(s, a), uid) && NoService(s.pc) && SweepInBounds(s)
    ensures var pc := Apply(s, a).pc;
            && NoService(pc) && SweepInBounds(Apply(s, a))
            && (IsControl(a) && !s.pc.Idle? ==> Remaining(pc, n) < Remaining(s.pc, n) && 0 < Remaining(s.pc, n))
            && (!s.pc.Idle? ==> pc.Idle? || InCleanup(pc) == InCleanup(s.pc))
            && (InCleanup(s.pc) ==> (pc.Idle? <==> Fails(s, a)))
  {
    if !IsControl(a) {
      EnvironmentWaits(s, a);
    } else if s.pc.Idle? {
      LookupOpensPass(s, a);
    } else if s.pc.DropFinalizer? {
      DropStaysPending(s, a, uid);
    } else if s.pc.Sweep? {
      SweepTowardsEnd(s, a);
      SweepKeepsGoal(s, a);
    } else {
      ReadTowardsEnd(s, a, uid, n);
    }
  }

  // ---------- the books of a window ----------

  /** Every pass begun met a pod, failed, or is the cleanup pass now running. */
  predicate Balanced(s: State, starts: nat, diverted: nat, failures: nat) {
    && NoService(s.pc) && SweepInBounds(s)
    && diverted <= starts <= failures + diverted + (if InCleanup(s.pc) then 1 else 0)
  }

  predicate WithinBudget(s: State, n: nat, starts: nat, steps: nat) {
    steps + Remaining(s.pc, n) <= starts * (2 * n + 7)
  }

  lemma LookupsOpenPasses(s: State, a: Action)
    requires Enabled(s, a) && NoService(s.pc)
    ensures a.PodLookup? <==> IsControl(a) && s.pc.Idle?
  {}

  /** Some bound holds of any action. */
  function ListLength(a: Action): (n: nat)
    ensures ListsAtMost(a, n)
  {
    if a.Listed? then |a.agents| else 0
  }

  lemma StepKeepsBalance(s: State, a: Action, uid: nat, starts: nat, diverted: nat, failures: nat)
    requires Inv(s) && Enabled(s, a) && Pending(s, uid) && Pending(Apply(s, a), uid)
    requires Balanced(s, starts, diverted, failures)
    ensures Balanced(Apply(s, a), starts + (if a.PodLookup? then 1 else 0),
                     diverted + (if Diverts(a) then 1 else 0), failures + (if Fails(s, a) then 1 else 0))
  {
    StepTowardsRelease(s, a, uid, ListLength(a));
    LookupsOpenPasses(s, a);
    if IsControl(a) && s.pc.Idle? {
      LookupOpensPass(s, a);
    } else if !IsControl(a) {
      EnvironmentWaits(s, a);
    }
  }

  lemma StepKeepsBudget(s: State, a: Action, uid: nat, n: nat, starts: nat, steps: nat)
    requires Inv(s) && Enabled(s, a) && ListsAtMost(a, n) && Pending(s, uid) && Pending(Apply(s, a), uid)
    requires NoService(s.pc) && SweepInBounds(s) && WithinBudget(s, n, starts, steps)
    ensures WithinBudget(Apply(s, a), n, starts + (if a.PodLookup? then 1 else 0),
                         steps + (if IsControl(a) then 1 else 0))
  {
    StepTowardsRelease(s, a, uid, n);
    LookupsOpenPasses(s, a);
    RemainingNonNegative(s, n);
    assert (starts + 1) * (2 * n + 7) == starts * (2 * n + 7) + 2 * n + 7;
    if IsControl(a) && s.pc.Idle? {
      LookupOpensPass(s, a);
    } else if !IsControl(a) {
      EnvironmentWaits(s, a);
    }
  }

  lemma RemainingNonNegative(s: State, n: nat)
    requires SweepInBounds(s)
    ensures 0 <= Remaining(s.pc, n)
  {}

  /** While the resource stays pending, passes are accounted for by pods met,
      failures, and the one cleanup pass that may be running. */
  lemma {:induction false} PassAccounting(r: Run, a: nat, b: nat, uid: nat)
    requires IsRun(r) && a <= b <= |r.acts| && PendingThroughout(r, a, b, uid)
    ensures Balanced(r.states[b], Starts(r.acts, a, b), Diverted(r.acts, a, b), Failures(r, a, b))
  {
    if a < b {
      PassAccounting(r, a, b - 1, uid);
      RunKeepsInv(r, b - 1);
      StepAt(r, b - 1);
      StepKeepsBalance(r.states[b - 1], r.acts[b - 1], uid,
                       Starts(r.acts, a, b - 1), Diverted(r.acts, a, b - 1), Failures(r, a, b - 1));
    }
  }

  /** And where listings have at most `n` agents, the controller's steps never
      exceed 2n + 7 per pass. */
  lemma {:induction false} StepAccounting(r: Run, a: nat, b: nat, uid: nat, n: nat)
    requires IsRun(r) && a <= b <= |r.acts| && PendingThroughout(r, a, b, uid)
    requires forall m :: a <= m < b ==> ListsAtMost(r.acts[m], n)
    ensures WithinBudget(r.states[b], n, Starts(r.acts, a, b), ControlSteps(r.acts, a, b))
  {
    if a < b {
      StepAccounting(r, a, b - 1, uid, n);
      PassAccounting(r, a, b - 1, uid);
      RunKeepsInv(r, b - 1);
      StepAt(r, b - 1);
      StepKeepsBudget(r.states[b - 1], r.acts[b - 1], uid, n, Starts(r.acts, a, b - 1), ControlSteps(r.acts, a, b - 1));
    }
  }

  // ---------- release ----------

  lemma EnvironmentKeepsPending(s: State, a: Action, uid: nat)
    requires Inv(s) && Enabled(s, a) && !IsControl(a) && Pending(s, uid)
    ensures Pending(Apply(s, a), uid)
  {}

  lemma UpdatePendingOrLost(s: State, a: Action, uid: nat)
    requires Inv(s) && Enabled(s, a) && IsControl(a) && Pending(s, uid)
    requires Writes(s.pc)
    ensures Pending(Apply(s, a), uid) || FinalizerLost(s, Apply(s, a))
  {}

  lemma WorkKeepsPending(s: State, a: Action, uid: nat)
    requires Enabled(s, a) && IsControl(a) && Pending(s, uid) && s.pc.Work?
    ensures Pending(Apply(s, a), uid)
  {
    assert Apply(s, a).cr in {s.cr, WriteStatus(s, a.reply).cr};
  }

  /** Deletion is never taken back, and the resource goes only by losing the finalizer. */
  lemma PendingOrLost(s: State, a: Action, uid: nat)
    requires Inv(s) && Enabled(s, a) && Pending(s, uid)
    ensures Pending(Apply(s, a), uid) || FinalizerLost(s, Apply(s, a))
  {
    if !IsControl(a) {
      EnvironmentKeepsPending(s, a, uid);
    } else if s.pc.Work? {
      WorkKeepsPending(s, a, uid);
    } else if Writes(s.pc) {
      UpdatePendingOrLost(s, a, uid);
    } else if s.pc.Sweep? {
      SweepFrame(s, a);
    } else {
      ReadFrame(s, a);
    }
  }

  /** Step `d` is the first at which pending resource `uid` loses its finalizer. */
  predicate FirstLoss(r: Run, a: nat, d: nat, uid: nat)
    requires d < |r.acts| && |r.states| == |r.acts| + 1
  {
    a <= d && (forall m :: a <= m <= d ==> Pending(r.states[m], uid)) && FinalizerLost(r.states[d], r.states[d + 1])
  }

  lemma {:induction false} PendingOrFirstLoss(r: Run, a: nat, b: nat, uid: nat)
    requires IsRun(r) && a <= b <= |r.acts| && Pending(r.states[a], uid)
    ensures || (forall m :: a <= m <= b ==> Pending(r.states[m], uid))
            || (exists d :: a <= d < b && FirstLoss(r, a, d, uid))
  {
    if a < b {
      PendingOrFirstLoss(r, a, b - 1, uid);
      if forall m :: a <= m <= b - 1 ==> Pending(r.states[m], uid) {
        RunKeepsInv(r, b - 1);
        StepAt(r, b - 1);
        PendingOrLost(r.states[b - 1], r.acts[b - 1], uid);
        if !Pending(r.states[b], uid) {
          assert FirstLoss(r, a, b - 1, uid);
        }
      } else {
        var d :| a <= d < b - 1 && FirstLoss(r, a, d, uid);
      }
    }
  }

  lemma {:induction false} FailuresGrow(r: Run, a: nat, d: nat, b: nat)
    requires IsRun(r) && a <= d <= b <= |r.acts|
    ensures Failures(r, a, d) <= Failures(r, a, b)
  {
    if d < b {
      FailuresGrow(r, a, d, b - 1);
    }
  }

  lemma BudgetBound(starts: nat, steps: int, rest: int, passes: nat, n: nat)
    requires steps + rest <= starts * (2 * n + 7) && starts <= passes && 0 <= rest
    ensures steps <= passes * (2 * n + 7)
  {
    assert starts * (2 * n + 7) <= passes * (2 * n + 7);
  }

  predicate RegistersMatch(a: Action, crName: string, poolId: int) {
    a.AgentRegisters? && a.key.pool == poolId && MatchesCr(crName, a.name)
  }

  predicate NoMatchLeft(s: State, poolId: int) {
    forall key :: key in s.agents && key.pool == poolId ==> !MatchesCr(s.crName, s.agents[key].name)
  }

  predicate NoneRegisters(r: Run, a: nat, b: nat, crName: string, poolId: int)
    requires b <= |r.acts|
  {
    forall m :: a <= m < b ==> !RegistersMatch(r.acts[m], crName, poolId)
  }

  /** Step `d` is the first to release the resource, in the last of at most
      f + 1 passes begun since `a` that met no pod; unless a match registered
      before `b` in the pool that pass cleaned, no match is left there. */
  predicate Released(r: Run, a: nat, b: nat, d: nat, uid: nat, f: nat)
    requires d < b <= |r.acts| && |r.states| == |r.acts| + 1
  {
    && FirstLoss(r, a, d, uid) && r.states[d].pc.DropFinalizer?
    && Starts(r.acts, a, d) - Diverted(r.acts, a, d) <= f + 1
    && (NoneRegisters(r, a, b, r.states[d].crName, r.states[d].pc.poolId)
        ==> NoMatchLeft(r.states[d + 1], r.states[d].pc.poolId))
  }

  /** Convergence.  Take a deleted resource at a moment the controller is idle.
      If at most `f` failures strike, at most `p` passes meet a pod of the
      resource's name, and more than (f + p + 1)(2n + 7) controller steps are
      taken, the finalizer goes, within at most f + 1 cleanup passes, however the
      environment interleaves.  If no matching agent registers meanwhile in the
      pool the last pass cleaned, no matching agent is left there. */
  lemma Converges(r: Run, a: nat, b: nat, uid: nat, f: nat, p: nat, n: nat)
    requires IsRun(r) && a <= b <= |r.acts|
    requires Pending(r.states[a], uid) && r.states[a].pc.Idle?
    requires forall m :: a <= m < b ==> ListsAtMost(r.acts[m], n)
    requires Failures(r, a, b) <= f && Diverted(r.acts, a, b) <= p
    requires ControlSteps(r.acts, a, b) > (f + p + 1) * (2 * n + 7)
    ensures exists d :: a <= d < b && Released(r, a, b, d, uid, f)
  {
    PendingOrFirstLoss(r, a, b, uid);
    if forall m :: a <= m <= b ==> Pending(r.states[m], uid) {
      PassAccounting(r, a, b, uid);
      StepAccounting(r, a, b, uid, n);
      RemainingNonNegative(r.states[b], n);
      BudgetBound(Starts(r.acts, a, b), ControlSteps(r.acts, a, b), Remaining(r.states[b].pc, n), f + p + 1, n);
      assert false;
    }
    var d :| a <= d < b && FirstLoss(r, a, d, uid);
    PassAccounting(r, a, d, uid);
    FailuresGrow(r, a, d, b);
    LastPassIsClean(r, a, b, d, uid);
    assert Released(r, a, b, d, uid, f);
  }

  lemma LastPassIsClean(r: Run, a: nat, b: nat, d: nat, uid: nat)
    requires IsRun(r) && a <= d < b <= |r.acts| && FirstLoss(r, a, d, uid) && r.states[a].pc.Idle?
    ensures r.states[d].pc.DropFinalizer?
    ensures NoneRegisters(r, a, b, r.states[d].crName, r.states[d].pc.poolId)
        ==> NoMatchLeft(r.states[d + 1], r.states[d].pc.poolId)
  {
    LostOnlyAfterCleanup(r, d);
    var at :| 0 <= at && CleanPass(r, at, d, r.states[d].cr.value);
    var s', poolId := r.states[d + 1], r.states[d].pc.poolId;
    assert a <= at;
    NameIsConstant(r, d);
    NameIsConstant(r, d + 1);
    if !NoMatchLeft(s', poolId) {
      var key :| key in s'.agents && key.pool == poolId && MatchesCr(s'.crName, s'.agents[key].name);
      assert RegistersMatch(r.acts[s'.agents[key].since], s'.crName, poolId);
    }
  }

  // ---------- the part pods play ----------

  /** As long as every lookup fails or finds a pod named like the resource, the
      resource is never released. */
  lemma {:induction false} SameNamedPodBlocksRelease(r: Run, a: nat, b: nat, uid: nat)
    requires IsRun(r) && a <= b <= |r.acts|
    requires Pending(r.states[a], uid) && r.states[a].pc.Idle?
    requires forall m :: a <= m < b ==> r.acts[m] != PodLookup(NoPod)
    ensures Pending(r.states[b], uid) && NoService(r.states[b].pc) && !InCleanup(r.states[b].pc)
  {
    if a < b {
      SameNamedPodBlocksRelease(r, a, b - 1, uid);
      var s, act := r.states[b - 1], r.acts[b - 1];
      RunKeepsInv(r, b - 1);
      StepAt(r, b - 1);
      PendingOrLost(s, act, uid);
      if FinalizerLost(s, r.states[b]) {
        LossIsADrop(s, act);
      }
      StaysOutOfCleanup(s, act);
    }
  }

  lemma StaysOutOfCleanup(s: State, a: Action)
    requires Enabled(s, a) && a != PodLookup(NoPod) && NoService(s.pc) && !InCleanup(s.pc)
    ensures NoService(Apply(s, a).pc) && !InCleanup(Apply(s, a).pc)
  {
    if !IsControl(a) {
      EnvironmentWaits(s, a);
    } else if s.pc.Sweep? {
      SweepKeepsGoal(s, a);
    } else if s.pc.Idle? {
      LookupOpensPass(s, a);
    }
  }

  lemma {:induction false} SomeLookupFindsNone(acts: seq<Action>, a: nat, m: nat, b: nat)
    requires a <= m < b <= |acts| && acts[m] == PodLookup(NoPod)
    ensures Diverted(acts, a, b) < Starts(acts, a, b)
  {
    if m < b - 1 {
      SomeLookupFindsNone(acts, a, m, b - 1);
    } else {
      DivertedAreStarts(acts, a, m);
    }
  }

  lemma {:induction false} DivertedAreStarts(acts: seq<Action>, a: nat, b: nat)
    requires a <= b <= |acts|
    ensures Diverted(acts, a, b) <= Starts(acts, a, b)
  {
    if a < b {
      DivertedAreStarts(acts, a, b - 1);
    }
  }

  /** The exact condition.  Between two idle moments without failures, a pending
      resource is released if and only if some pass found no pod of its name. */
  lemma ReleasedIffSomePassMeetsNoPod(r: Run, a: nat, b: nat, uid: nat)
    requires IsRun(r) && a <= b <= |r.acts|
    requires Pending(r.states[a], uid) && r.states[a].pc.Idle? && r.states[b].pc.Idle?
    requires Failures(r, a, b) == 0
    ensures (exists d :: a <= d < b && FirstLoss(r, a, d, uid))
       <==> (exists m :: a <= m < b && r.acts[m] == PodLookup(NoPod))
  {
    if d :| a <= d < b && FirstLoss(r, a, d, uid) {
      if forall m :: a <= m < b ==> r.acts[m] != PodLookup(NoPod) {
        SameNamedPodBlocksRelease(r, a, d + 1, uid);
        assert false;
      }
    }
    if m :| a <= m < b && r.acts[m] == PodLookup(NoPod) {
      PendingOrFirstLoss(r, a, b, uid);
      if forall k :: a <= k <= b ==> Pending(r.states[k], uid) {
        PassAccounting(r, a, b, uid);
        SomeLookupFindsNone(r.acts, a, m, b);
        assert false;
      }
    }
  }
}
