/** The retry loop that writes the resource's status. */
module StatusUpdate {
  import opened Wrappers
  import opened VersionedStore
  import Backoff

  datatype Condition = Condition(kind: string, status: string, reason: string, message: string, since: int)

  /** Times are points on a clock; None is a nil pointer. */
  datatype Status = Status(
    currentAgents: int, queuedJobs: int, desiredAgents: int, readyAgents: int,
    lastScalingTime: Option<int>, conditions: seq<Condition>, lastFailedCheck: Option<int>)

  /** `spec` stands for spec and metadata. */
  datatype AzureDevOps = AzureDevOps(spec: int, status: Status)

  const READY := "Ready"

  /** The conditions of another kind, in order. */
  function Without(cs: seq<Condition>, kind: string): seq<Condition> {
    if cs == [] then []
    else if cs[0].kind == kind then Without(cs[1..], kind)
    else [cs[0]] + Without(cs[1..], kind)
  }

  function CountOf(cs: seq<Condition>, kind: string): nat {
    if cs == [] then 0 else (if cs[0].kind == kind then 1 else 0) + CountOf(cs[1..], kind)
  }

  /** meta.SetStatusCondition: overwrite the first condition of that kind, or
      append.  The transition time moves only when the status does. */
  function SetStatusCondition(cs: seq<Condition>, c: Condition): seq<Condition> {
    if cs == [] then [c]
    else if cs[0].kind == c.kind then
      [if cs[0].status == c.status then c.(since := cs[0].since) else c] + cs[1..]
    else [cs[0]] + SetStatusCondition(cs[1..], c)
  }

  function FirstOf(cs: seq<Condition>, kind: string): Option<Condition> {
    if cs == [] then None
    else if cs[0].kind == kind then Some(cs[0])
    else FirstOf(cs[1..], kind)
  }

  /** The condition reads back; others keep value and order; no duplicates arise;
      the transition time is the old one exactly if the status did not change. */
  lemma {:induction false} SetConditionMeaning(cs: seq<Condition>, c: Condition)
    ensures var r := SetStatusCondition(cs, c);
            && Without(r, c.kind) == Without(cs, c.kind)
            && CountOf(r, c.kind) == (if CountOf(cs, c.kind) == 0 then 1 else CountOf(cs, c.kind))
            && FirstOf(r, c.kind).Some?
            && (var f, p := FirstOf(r, c.kind).value, FirstOf(cs, c.kind);
                f.(since := c.since) == c
                && f.since == if p.Some? && p.value.status == c.status then p.value.since else c.since)
  {
    if cs == [] {
    } else if cs[0].kind == c.kind {
      assert SetStatusCondition(cs, c)[1..] == cs[1..];
    } else {
      SetConditionMeaning(cs[1..], c);
      assert SetStatusCondition(cs, c)[1..] == SetStatusCondition(cs[1..], c);
    }
  }

  function ReadyStatus(phase: string): string {
    if phase == READY then "True" else "False"
  }

  /** A commit of updateStatus: the version right before it, with the four
      counters of `from` and the Ready condition set, and nothing else changed. */
  predicate StatusWrite(from: Status, phase: string, message: string,
                        before: Option<AzureDevOps>, after: Option<AzureDevOps>) {
    && before.Some? && after.Some?
    && var (b, a) := (before.value, after.value);
    && a.spec == b.spec
    && (a.status.currentAgents, a.status.queuedJobs, a.status.desiredAgents, a.status.readyAgents)
       == (from.currentAgents, from.queuedJobs, from.desiredAgents, from.readyAgents)
    && a.status.lastScalingTime == b.status.lastScalingTime
    && a.status.lastFailedCheck == b.status.lastFailedCheck
    && Without(a.status.conditions, READY) == Without(b.status.conditions, READY)
    && CountOf(a.status.conditions, READY)
       == (if CountOf(b.status.conditions, READY) == 0 then 1 else CountOf(b.status.conditions, READY))
    && (var f := FirstOf(a.status.conditions, READY);
        f.Some? && f.value.status == ReadyStatus(phase) && f.value.reason == phase && f.value.message == message)
    && (ReadySince(b).Some? && FirstOf(b.status.conditions, READY).value.status == ReadyStatus(phase) ==>
          ReadySince(a) == ReadySince(b))
  }

  /** The stored status says what was reported. */
  predicate Shows(cr: AzureDevOps, from: Status, phase: string, message: string) {
    && (cr.status.currentAgents, cr.status.queuedJobs, cr.status.desiredAgents, cr.status.readyAgents)
       == (from.currentAgents, from.queuedJobs, from.desiredAgents, from.readyAgents)
    && var f := FirstOf(cr.status.conditions, READY);
       f.Some? && f.value.status == ReadyStatus(phase) && f.value.reason == phase && f.value.message == message
  }

  /** The condition is true for the phase "Ready" and false for any other. */
  lemma PhaseIsShown(cr: AzureDevOps, from: Status, phase: string, message: string)
    requires Shows(cr, from, phase, message)
    ensures var f := FirstOf(cr.status.conditions, "Ready");
            && f.Some? && (f.value.status == "True" <==> phase == "Ready")
            && (f.value.status == "False" <==> phase != "Ready")
  {}

  /** When the Ready condition last changed its status. */
  function ReadySince(cr: AzureDevOps): Option<int> {
    var f := FirstOf(cr.status.conditions, READY);
    if f.None? then None else Some(f.value.since)
  }

  /** The transition time is the present one, unless the status stays as it was. */
  method FillIn(latest: AzureDevOps, from: Status, phase: string, message: string, now: int)
      returns (cr: AzureDevOps)
    ensures StatusWrite(from, phase, message, Some(latest), Some(cr))
    ensures var f := FirstOf(cr.status.conditions, "Ready");
            && f.Some? && f.value.reason == phase && f.value.message == message
            && f.value.status == if phase == "Ready" then "True" else "False"
    ensures ReadySince(cr) == (var f := FirstOf(latest.status.conditions, READY);
                               Some(if f.Some? && f.value.status == ReadyStatus(phase) then f.value.since else now))
  {
    cr := latest;
    cr := cr.(status := cr.status.(currentAgents := from.currentAgents));
    cr := cr.(status := cr.status.(queuedJobs := from.queuedJobs));
    cr := cr.(status := cr.status.(desiredAgents := from.desiredAgents));
    cr := cr.(status := cr.status.(readyAgents := from.readyAgents));
    var condition := Condition(READY, ReadyStatus(phase), phase, message, now);
    SetConditionMeaning(cr.status.conditions, condition);
    cr := cr.(status := cr.status.(conditions := SetStatusCondition(cr.status.conditions, condition)));
  }

  /** One attempt: get, fill in, update.  Only a conflict, which leaves nothing
      of its own behind, lets the loop go on. */
  method Attempt(store: Store<AzureDevOps>, from: Status, phase: string, message: string) returns (conflicted: bool)
    requires store.Valid()
    modifies store
    ensures store.Valid() && store.Grew()
    ensures OwnWritesAre(store.history, |old(store.history)|, (b, a) => StatusWrite(from, phase, message, b, a))
    ensures store.updates <= old(store.updates) + 1 && old(store.commits) <= store.commits <= old(store.commits) + 1
    ensures store.troubles >= old(store.troubles) && store.absences >= old(store.absences)
    ensures store.conflicts >= old(store.conflicts)
    ensures if conflicted then Blocked(store, old(store.updates), old(store.conflicts), old(store.commits))
            else || store.commits == old(store.commits) + 1
                 || store.troubles > old(store.troubles) || store.absences > old(store.absences)
    ensures store.calm && old(store.current).Some? ==>
              && store.commits == old(store.commits) + 1
              && StatusWrite(from, phase, message, old(store.current), store.current)
              && store.history == old(store.history) + [Version(Self, store.current)]
  {
    var answer := store.Get();
    if !answer.Found? {
      return false;
    }
    var now: int := *;
    var cr := FillIn(answer.obj, from, phase, message, now);
    var written := store.Update(cr, answer.rv);
    conflicted := written.Conflict?;
  }

  ghost predicate Blocked(store: Store<AzureDevOps>, updates: nat, conflicts: nat, commits: nat)
    reads store
  {
    && store.updates == updates + 1 && store.conflicts == conflicts + 1 && store.commits == commits
  }

  /** At most three attempts and one commit, which is a status write on top of
      the latest version.  It gives up only after three conflicts, or when the
      resource is gone or a call fails otherwise. */
  method UpdateStatus(store: Store<AzureDevOps>, from: Status, phase: string, message: string)
    requires store.Valid()
    modifies store
    ensures store.Valid() && store.Grew()
    ensures store.updates <= old(store.updates) + 3 && old(store.commits) <= store.commits <= old(store.commits) + 1
    ensures OwnWritesAre(store.history, |old(store.history)|, (b, a) => StatusWrite(from, phase, message, b, a))
    ensures || store.commits == old(store.commits) + 1
            || store.conflicts == old(store.conflicts) + 3
            || store.troubles > old(store.troubles) || store.absences > old(store.absences)
    ensures store.Setbacks() >= old(store.Setbacks())
    ensures store.commits == old(store.commits) ==> store.Setbacks() > old(store.Setbacks())
    ensures store.calm && old(store.current).Some? ==>
              && store.commits == old(store.commits) + 1
              && StatusWrite(from, phase, message, old(store.current), store.current)
              && store.history == old(store.history) + [Version(Self, store.current)]
  {
    for i := 0 to 3
      invariant store.Valid() && store.Grew() && store.commits == old(store.commits)
      invariant store.updates == old(store.updates) + i && store.conflicts == old(store.conflicts) + i
      invariant store.troubles >= old(store.troubles) && store.absences >= old(store.absences)
      invariant OwnWritesAre(store.history, |old(store.history)|, (b, a) => StatusWrite(from, phase, message, b, a))
      invariant store.calm && old(store.current).Some? ==>
                  i == 0 && store.current == old(store.current) && store.history == old(store.history)
    {
      var conflicted := Attempt(store, from, phase, message);
      if conflicted && i < 2 {
        continue;
      }
      return;
    }
  }

  // ---------- over whole histories ----------

  /** What every own write keeps, whatever it reports. */
  predicate StatusFrame(before: Option<AzureDevOps>, after: Option<AzureDevOps>) {
    && before.Some? && after.Some?
    && after.value.spec == before.value.spec
    && after.value.status.lastScalingTime == before.value.status.lastScalingTime
    && after.value.status.lastFailedCheck == before.value.status.lastFailedCheck
    && Without(after.value.status.conditions, READY) == Without(before.value.status.conditions, READY)
    && (CountOf(before.value.status.conditions, READY) <= 1 ==> CountOf(after.value.status.conditions, READY) <= 1)
  }

  datatype Report = Report(from: Status, phase: string, message: string)

  /** Any number of status updates, as the passes of the controller make them. */
  method StatusUpdates(store: Store<AzureDevOps>, reports: seq<Report>)
    requires store.Valid()
    modifies store
    ensures store.Valid() && store.Grew()
    ensures OwnWritesAre(store.history, |old(store.history)|, StatusFrame)
  {
    for i := 0 to |reports|
      invariant store.Valid() && store.Grew()
      invariant OwnWritesAre(store.history, |old(store.history)|, StatusFrame)
    {
      UpdateStatus(store, reports[i].from, reports[i].phase, reports[i].message);
    }
  }

  predicate AtMostOneReady(v: Version<AzureDevOps>) {
    v.value.Some? ==> CountOf(v.value.value.status.conditions, READY) <= 1
  }

  predicate NeverFailed(v: Version<AzureDevOps>) {
    v.value.Some? ==> v.value.value.status.lastFailedCheck.None?
  }

  /** If the other writers never store two Ready conditions, no version has two. */
  lemma {:induction false} ReachableStatusHasOneReady(h: seq<Version<AzureDevOps>>, k: nat)
    requires k < |h| && h[0].writer.Others? && OwnWritesAre(h, 0, StatusFrame)
    requires forall i :: 0 <= i < |h| && h[i].writer.Others? ==> AtMostOneReady(h[i])
    ensures AtMostOneReady(h[k])
  {
    if h[k].writer.Self? {
      ReachableStatusHasOneReady(h, k - 1);
    }
  }

  /** The controller never stores the time of a failed check: if nobody else
      does, every version has none. */
  lemma {:induction false} FailedCheckIsNeverStored(h: seq<Version<AzureDevOps>>, k: nat)
    requires k < |h| && h[0].writer.Others? && OwnWritesAre(h, 0, StatusFrame)
    requires forall i :: 0 <= i < |h| && h[i].writer.Others? ==> NeverFailed(h[i])
    ensures NeverFailed(h[k])
  {
    if h[k].writer.Self? {
      FailedCheckIsNeverStored(h, k - 1);
    }
  }

  /** How long ago the stored status says the last check failed. */
  function FailureAge(s: Status, now: int): Option<nat> {
    match s.lastFailedCheck
    case None => None
    case Some(t) => Some(if t <= now then now - t else 0)
  }

  /** So the exponential backoff never engages: at whatever version a queue
      check fails, the interval is the one-minute default. */
  lemma BackoffNeverEngages(h: seq<Version<AzureDevOps>>, k: nat, now: int)
    requires k < |h| && h[0].writer.Others? && OwnWritesAre(h, 0, StatusFrame) && h[k].value.Some?
    requires forall i :: 0 <= i < |h| && h[i].writer.Others? ==> NeverFailed(h[i])
    ensures Backoff.RequeueInterval(FailureAge(h[k].value.value.status, now)) == Backoff.MINUTE
  {
    FailedCheckIsNeverStored(h, k);
  }
}
