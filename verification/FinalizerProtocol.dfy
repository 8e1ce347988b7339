/** The reconcile pass of one AzureDevOps resource as a transition system.

    The controller moves in micro-steps, one remote call (or one loop turn) at a
    time.  Between any two of them the environment may act: users create, edit
    and delete the resource, agents register and leave, pools are renamed, the
    controller is restarted.  A call answers `Done`, or fails after taking effect
    (`LostReply`), or fails before (`NoEffect`). */
module FinalizerProtocol {
  import opened Wrappers
  import opened AgentMatching

  const FINALIZER := "omnivya/azdo-finalizer"

  // ---------- the API server ----------

  /** The stored resource: `rv` is its resource version, `rest` everything no
      branch of the protocol looks at. */
  datatype Cr = Cr(uid: nat, rv: nat, pool: string, deleting: bool, finalizers: seq<string>, rest: int)

  predicate HasFinalizer(c: Cr) {
    FINALIZER in c.finalizers
  }

  function WithoutFinalizer(fs: seq<string>): (r: seq<string>)
    ensures FINALIZER !in r
    ensures forall f :: f in fs && f != FINALIZER ==> f in r
  {
    if fs == [] then []
    else if fs[0] == FINALIZER then WithoutFinalizer(fs[1..])
    else [fs[0]] + WithoutFinalizer(fs[1..])
  }

  /** `r` is what is left of `s` after dropping some entries. */
  predicate Subsequence(r: seq<string>, s: seq<string>) {
    if r == [] then true
    else if s == [] then false
    else if r[0] == s[0] then Subsequence(r[1..], s[1..])
    else Subsequence(r, s[1..])
  }

  /** The other finalizers: all of them, as often as before, nothing else, in
      their order. */
  lemma {:induction false} OthersAreKept(fs: seq<string>)
    ensures var r := WithoutFinalizer(fs);
            Subsequence(r, fs) && multiset(r) == multiset(fs)[FINALIZER := 0]
  {
    if fs != [] {
      OthersAreKept(fs[1..]);
      assert fs == [fs[0]] + fs[1..];
      var r := WithoutFinalizer(fs);
      assert fs[0] != FINALIZER ==> r[1..] == WithoutFinalizer(fs[1..]);
      assert r != [] && fs[0] == FINALIZER ==> r[0] in r;
    }
  }

  function RemoveFinalizer(c: Cr): Cr {
    c.(finalizers := WithoutFinalizer(c.finalizers))
  }

  function AddFinalizer(c: Cr): Cr {
    if HasFinalizer(c) then c else c.(finalizers := c.finalizers + [FINALIZER])
  }

  /** Adding appends it unless it is there, and removing it again gives back what
      there was. */
  lemma AddThenRemove(c: Cr)
    ensures var added := AddFinalizer(c);
            && HasFinalizer(added) && added.(finalizers := c.finalizers) == c
            && added.finalizers == (if "omnivya/azdo-finalizer" in c.finalizers then c.finalizers
                                    else c.finalizers + ["omnivya/azdo-finalizer"])
            && (!HasFinalizer(c) ==> RemoveFinalizer(added) == c)
  {
    if !HasFinalizer(c) {
      WithoutAppended(c.finalizers);
    }
  }

  lemma {:induction false} WithoutAppended(fs: seq<string>)
    requires FINALIZER !in fs
    ensures WithoutFinalizer(fs + [FINALIZER]) == fs
  {
    if fs != [] {
      assert (fs + [FINALIZER])[1..] == fs[1..] + [FINALIZER];
      WithoutAppended(fs[1..]);
    }
  }

  // ---------- the remote pool ----------

  datatype AgentKey = AgentKey(pool: int, id: int)

  /** `since` is the step at which the agent registered. */
  datatype Registration = Registration(name: string, enabled: bool, since: nat)

  /** An agent as a listing reports it. */
  datatype Agent = Agent(id: int, name: string, enabled: bool)

  // ---------- the controller ----------

  /** Why agents are being deleted: the resource goes away, or one pod did. */
  datatype Goal = CleanUp(cr: Cr) | PodGone(pool: string)

  datatype Stage = Processing | PatRead | QueueRead | Validation | Workload | ReadBack | Report(ok: bool)

  datatype Pc =
    | Idle
    | ReadCr
    | ReadOwner(owner: string)
    | ReadPat(goal: Goal)
    | ResolvePool(goal: Goal)
    | ListAgents(goal: Goal, poolId: int)
    | Sweep(goal: Goal, poolId: int, agents: seq<Agent>, next: nat, disabled: bool, listedAt: nat)
    | DropFinalizer(cr: Cr, poolId: int, agents: seq<Agent>, listedAt: nat)
    | PersistFinalizer(cr: Cr)
    | PersistAgain(cr: Cr)
    | Work(cr: Cr, stage: Stage)

  datatype State = State(
    crName: string,
    cr: Option<Cr>,
    nextRv: nat,
    nextUid: nat,
    pools: map<string, int>,
    agents: map<AgentKey, Registration>,
    workloads: set<nat>,   // uids for which a Deployment or Job was ever created
    pc: Pc,
    clock: nat)

  datatype Reply = Done | LostReply | NoEffect

  /** The lookup of a pod under the request's own name, which opens every pass;
      requests bear the names of resources, so it is a pod named like this one.  A
      finished pod is one that is deleted, failed or succeeded and has an owner of
      kind AzureDevOps; any other pod found counts as running. */
  datatype PodAnswer = NoPod | PodRunning | PodFinished(owner: string) | LookupFailed

  datatype Action =
    | UserCreates(pool: string, finalizers: seq<string>, rest: int)
    | UserEdits(pool: string, finalizers: seq<string>, rest: int)
    | UserDeletes
    | AgentRegisters(key: AgentKey, name: string)
    | AgentLeaves(key: AgentKey)
    | AgentToggled(key: AgentKey)
    | PoolMapped(pool: string, id: int)
    | Restart
    | PodLookup(answer: PodAnswer)
    | OwnerRead(pool: string)
    | Listed(agents: seq<Agent>)
    | Call(reply: Reply)
    | Local

  predicate IsControl(a: Action) {
    a.PodLookup? || a.OwnerRead? || a.Listed? || a.Call? || a.Local?
  }

  // ---------- environment steps ----------

  /** What the API server keeps: a deleting object without finalizers is gone. */
  function Retained(c: Cr): Option<Cr> {
    if c.deleting && c.finalizers == [] then None else Some(c)
  }

  /** Nobody but the controller strips its finalizer, and the server refuses
      new finalizers on a deleting object. */
  predicate EnvEnabled(s: State, a: Action) {
    match a
    case UserCreates(_, _, _) => s.cr.None?
    case UserEdits(_, fs, _) =>
      s.cr.Some?
      && (HasFinalizer(s.cr.value) ==> FINALIZER in fs)
      && (s.cr.value.deleting && !HasFinalizer(s.cr.value) ==> FINALIZER !in fs)
    case UserDeletes => s.cr.Some?
    case AgentLeaves(key) => key in s.agents
    case AgentToggled(key) => key in s.agents
    case _ => !IsControl(a)
  }

  function Environment(s: State, a: Action): State
    requires EnvEnabled(s, a)
  {
    match a
    case UserCreates(pool, fs, rest) =>
      s.(cr := Some(Cr(s.nextUid, s.nextRv, pool, false, fs, rest)),
         nextUid := s.nextUid + 1, nextRv := s.nextRv + 1)
    case UserEdits(pool, fs, rest) =>
      s.(cr := Retained(s.cr.value.(rv := s.nextRv, pool := pool, finalizers := fs, rest := rest)),
         nextRv := s.nextRv + 1)
    case UserDeletes =>
      s.(cr := Retained(s.cr.value.(rv := s.nextRv, deleting := true)), nextRv := s.nextRv + 1)
    case AgentRegisters(key, name) =>
      s.(agents := s.agents[key := Registration(name, true, s.clock)])
    case AgentLeaves(key) => s.(agents := s.agents - {key})
    case AgentToggled(key) =>
      s.(agents := s.agents[key := s.agents[key].(enabled := !s.agents[key].enabled)])
    case PoolMapped(pool, id) => s.(pools := s.pools[pool := id])
    case Restart => s.(pc := Idle)
  }

  // ---------- controller steps ----------

  /** An update against the API server: refused unless the object is still at
      the version that was read.  The second component is the object as written,
      when the caller learns of its success. */
  function UpdateCr(s: State, obj: Cr, reply: Reply): (State, Option<Cr>) {
    if s.cr.None? || s.cr.value.rv != obj.rv || reply == NoEffect then (s, None)
    else if obj == s.cr.value then (s, if reply == Done then Some(obj) else None)
    else
      var written := obj.(rv := s.nextRv);
      (s.(cr := Retained(written), nextRv := s.nextRv + 1), if reply == Done then Some(written) else None)
  }

  /** A status write changes nothing the protocol looks at but the version. */
  function WriteStatus(s: State, reply: Reply): State {
    if s.cr.None? || reply == NoEffect then s
    else s.(cr := Some(s.cr.value.(rv := s.nextRv)), nextRv := s.nextRv + 1)
  }

  /** Optimistic concurrency.  An update is stored exactly if it was based on the
      stored version and the call gets through; what is stored is the object
      written, under a version never used before unless nothing changes; and the
      caller learns of it exactly if the call reports success. */
  lemma UpdateMeaning(s: State, obj: Cr, reply: Reply)
    ensures var (s1, w) := UpdateCr(s, obj, reply);
            var stored := s.cr.Some? && s.cr.value.rv == obj.rv && reply in {Done, LostReply};
            && s1.(cr := s.cr, nextRv := s.nextRv) == s
            && (w.Some? <==> stored && reply == Done)
            && (!stored ==> s1 == s)
            && (stored && s.cr == Some(obj) ==> s1 == s && (w.Some? ==> w == Some(obj)))
            && (stored && s.cr != Some(obj) ==>
                  && s.nextRv < s1.nextRv
                  && (s1.cr == Some(obj.(rv := s.nextRv)) || (s1.cr.None? && obj.deleting && obj.finalizers == []))
                  && (s1.cr.None? <==> obj.deleting && obj.finalizers == [])
                  && (w.Some? ==> w == Some(obj.(rv := s.nextRv))))
  {}

  /** A status write that gets through moves the version and nothing else. */
  lemma StatusWriteMeaning(s: State, reply: Reply)
    ensures var s1 := WriteStatus(s, reply);
            && s1.(cr := s.cr, nextRv := s.nextRv) == s
            && (s.cr.None? || reply == NoEffect ==> s1 == s)
            && (s.cr.Some? && reply in {Done, LostReply} ==>
                  s1.cr == Some(s.cr.value.(rv := s.nextRv)) && s.nextRv < s1.nextRv)
  {}

  function Prefix(s: State, g: Goal): string {
    match g
    case CleanUp(_) => CleanupPrefix(s.crName)
    case PodGone(_) => StripHashes(s.crName)
  }

  function PoolOf(g: Goal): string {
    match g
    case CleanUp(cr) => cr.pool
    case PodGone(pool) => pool
  }

  predicate Selected(s: State, g: Goal, agentName: string) {
    HasPrefix(agentName, Prefix(s, g))
  }

  /** The sweep is at an agent that has to go. */
  predicate AtSelected(s: State) {
    s.pc.Sweep? && s.pc.next < |s.pc.agents| && Selected(s, s.pc.goal, s.pc.agents[s.pc.next].name)
  }

  predicate MustDisable(pc: Pc)
    requires pc.Sweep? && pc.next < |pc.agents|
  {
    pc.agents[pc.next].enabled && !pc.disabled
  }

  function CurrentKey(pc: Pc): AgentKey
    requires pc.Sweep? && pc.next < |pc.agents|
  {
    AgentKey(pc.poolId, pc.agents[pc.next].id)
  }

  /** DisableAgent refuses ids that are not positive without calling anyone. */
  predicate ValidIds(key: AgentKey) {
    key.pool > 0 && key.id > 0
  }

  function Disabled(agents: map<AgentKey, Registration>, key: AgentKey): map<AgentKey, Registration> {
    if key in agents then agents[key := agents[key].(enabled := false)] else agents
  }

  /** A listing enumerates the pool's agents, each once. */
  ghost predicate IsListing(s: State, poolId: int, l: seq<Agent>) {
    && (forall i :: 0 <= i < |l| ==>
          var key := AgentKey(poolId, l[i].id);
          key in s.agents && l[i].name == s.agents[key].name && l[i].enabled == s.agents[key].enabled)
    && (forall key :: key in s.agents && key.pool == poolId ==>
          Agent(key.id, s.agents[key].name, s.agents[key].enabled) in l)
    && (forall i, j :: 0 <= i < j < |l| ==> l[i].id != l[j].id)
  }

  /** The owner read is this very resource, if it bears its name, or another one. */
  predicate OwnerHasPool(s: State, owner: string, pool: string) {
    owner == s.crName ==> s.cr.Some? && s.cr.value.pool == pool
  }

  ghost predicate ControlEnabled(s: State, a: Action) {
    match s.pc
    case Idle => a.PodLookup?
    case ReadOwner(owner) => (a.OwnerRead? && OwnerHasPool(s, owner, a.pool)) || a == Call(NoEffect)
    case ListAgents(_, poolId) => (a.Listed? && IsListing(s, poolId, a.agents)) || a == Call(NoEffect)
    case Sweep(_, _, _, _, _, _) => if AtSelected(s) then a.Call? else a.Local?
    case _ => a.Call?
  }

  function AfterRead(c: Cr): Pc {
    if c.deleting then
      if HasFinalizer(c) then ReadPat(CleanUp(c)) else Idle
    else if HasFinalizer(c) then Work(c, Processing)
    else PersistFinalizer(AddFinalizer(c))
  }

  function AfterSweep(pc: Pc): Pc
    requires pc.Sweep?
  {
    match pc.goal
    case CleanUp(cr) => DropFinalizer(cr, pc.poolId, pc.agents, pc.listedAt)
    case PodGone(_) => Idle
  }

  function DisableStep(s: State, reply: Reply): State
    requires AtSelected(s)
  {
    var key := CurrentKey(s.pc);
    if !ValidIds(key) then s.(pc := Idle)
    else
      s.(agents := if reply == NoEffect then s.agents else Disabled(s.agents, key),
         pc := if reply == Done then s.pc.(disabled := true) else Idle)
  }

  function DeleteStep(s: State, reply: Reply): State
    requires AtSelected(s)
  {
    s.(agents := if reply == NoEffect then s.agents else s.agents - {CurrentKey(s.pc)},
       pc := if reply == Done then s.pc.(next := s.pc.next + 1, disabled := false) else Idle)
  }

  /** One turn of the loop over the listed agents. */
  function SweepStep(s: State, a: Action): State
    requires s.pc.Sweep? && (if AtSelected(s) then a.Call? else a.Local?)
  {
    if |s.pc.agents| <= s.pc.next then s.(pc := AfterSweep(s.pc))
    else if !AtSelected(s) then s.(pc := s.pc.(next := s.pc.next + 1, disabled := false))
    else if MustDisable(s.pc) then DisableStep(s, a.reply)
    else DeleteStep(s, a.reply)
  }

  function WorkStep(s: State, reply: Reply): State
    requires s.pc.Work?
  {
    var c := s.pc.cr;
    match s.pc.stage
    case Processing => WriteStatus(s, reply).(pc := Work(c, PatRead))
    case PatRead => s.(pc := Work(c, if reply == Done then QueueRead else Report(false)))
    case QueueRead => s.(pc := Work(c, if reply == Done then Validation else Report(false)))
    case Validation => s.(pc := Work(c, if reply == Done then Workload else Report(false)))
    case Workload =>
      s.(workloads := if reply == NoEffect then s.workloads else s.workloads + {c.uid},
         pc := Work(c, if reply == Done then ReadBack else Report(false)))
    case ReadBack => s.(pc := Work(c, Report(true)))
    case Report(_) => WriteStatus(s, reply).(pc := Idle)
  }

  function Control(s: State, a: Action): State
    requires ControlEnabled(s, a)
  {
    match s.pc
    case Idle =>
      s.(pc := match a.answer
               case NoPod => ReadCr
               case PodFinished(owner) => ReadOwner(owner)
               case _ => Idle)
    case ReadCr =>
      s.(pc := if a.reply == Done && s.cr.Some? then AfterRead(s.cr.value) else Idle)
    case ReadOwner(_) =>
      s.(pc := if a.OwnerRead? then ReadPat(PodGone(a.pool)) else Idle)
    case ReadPat(g) => s.(pc := if a.reply == Done then ResolvePool(g) else Idle)
    case ResolvePool(g) =>
      s.(pc := if a.reply == Done && PoolOf(g) in s.pools then ListAgents(g, s.pools[PoolOf(g)]) else Idle)
    case ListAgents(g, poolId) =>
      s.(pc := if a.Listed? then Sweep(g, poolId, a.agents, 0, false, s.clock) else Idle)
    case Sweep(_, _, _, _, _, _) => SweepStep(s, a)
    case DropFinalizer(c, _, _, _) => UpdateCr(s, RemoveFinalizer(c), a.reply).0.(pc := Idle)
    case PersistFinalizer(c) =>
      var (s1, w) := UpdateCr(s, c, a.reply);
      s1.(pc := if w.Some? then PersistAgain(w.value) else Idle)
    case PersistAgain(c) => UpdateCr(s, c, a.reply).0.(pc := Idle)
    case Work(_, _) => WorkStep(s, a.reply)
  }

  ghost predicate Enabled(s: State, a: Action) {
    if IsControl(a) then ControlEnabled(s, a) else EnvEnabled(s, a)
  }

  function Apply(s: State, a: Action): State
    requires Enabled(s, a)
  {
    (if IsControl(a) then Control(s, a) else Environment(s, a)).(clock := s.clock + 1)
  }

  /** The pass ends in an error returned to the work queue, or is cut off. */
  predicate Fails(s: State, a: Action)
    requires Enabled(s, a)
  {
    if a == Restart then !s.pc.Idle?
    else if !IsControl(a) then false
    else match s.pc
      case Idle => a.answer.LookupFailed?
      case ReadCr => a.reply != Done
      case ReadOwner(_) => a.Call?
      case ReadPat(_) => a.reply != Done
      case ResolvePool(g) => a.reply != Done || PoolOf(g) !in s.pools
      case ListAgents(_, _) => a.Call?
      case Sweep(_, _, _, _, _, _) =>
        AtSelected(s) && (a.reply != Done || (MustDisable(s.pc) && !ValidIds(CurrentKey(s.pc))))
      case DropFinalizer(c, _, _, _) => UpdateCr(s, RemoveFinalizer(c), a.reply).1.None?
      case PersistFinalizer(c) => UpdateCr(s, c, a.reply).1.None?
      case PersistAgain(c) => UpdateCr(s, c, a.reply).1.None?
      case Work(_, stage) => stage == Report(false)
  }

  // ---------- runs ----------

  predicate Init(s: State) {
    s.cr.None? && s.agents == map[] && s.workloads == {} && s.pc.Idle? && s.clock == 0
  }

  datatype Run = Run(states: seq<State>, acts: seq<Action>)

  /** The first `k` actions of the run are enabled and lead from state to state. */
  ghost predicate Steps(r: Run, k: nat)
    requires k <= |r.acts| < |r.states|
  {
    k == 0 || (Steps(r, k - 1) && Enabled(r.states[k - 1], r.acts[k - 1])
               && r.states[k] == Apply(r.states[k - 1], r.acts[k - 1]))
  }

  ghost predicate IsRun(r: Run) {
    |r.states| == |r.acts| + 1 && Init(r.states[0]) && Steps(r, |r.acts|)
  }

  lemma {:induction false} StepsBefore(r: Run, j: nat, k: nat)
    requires j <= k <= |r.acts| < |r.states| && Steps(r, k)
    ensures Steps(r, j)
  {
    if j < k {
      StepsBefore(r, j, k - 1);
    }
  }

  /** Any single step of a run. */
  lemma StepAt(r: Run, k: nat)
    requires IsRun(r) && k < |r.acts|
    ensures Enabled(r.states[k], r.acts[k]) && r.states[k + 1] == Apply(r.states[k], r.acts[k])
  {
    StepsBefore(r, k + 1, |r.acts|);
  }

  lemma {:induction false} StepsKept(r: Run, longer: Run, k: nat)
    requires k <= |r.acts| < |r.states| && r.acts <= longer.acts && r.states <= longer.states
    requires |longer.acts| < |longer.states| && Steps(r, k)
    ensures Steps(longer, k)
  {
    if k > 0 {
      StepsKept(r, longer, k - 1);
    }
  }

  /** A run goes on with any enabled action. */
  lemma RunGoesOn(r: Run, a: Action)
    requires IsRun(r) && Enabled(r.states[|r.acts|], a)
    ensures IsRun(Run(r.states + [Apply(r.states[|r.acts|], a)], r.acts + [a]))
  {
    var longer := Run(r.states + [Apply(r.states[|r.acts|], a)], r.acts + [a]);
    StepsKept(r, longer, |r.acts|);
  }
}
