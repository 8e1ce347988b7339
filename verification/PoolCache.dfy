/** The read-through cache of pool ids.  A caller checks it under the read lock,
    asks the server without any lock, and stores under the write lock; any number
    of callers interleave, the clock runs, and the server may rename pools. */
module PoolCache {
  import opened Wrappers

  const EXPIRATION := 300   // seconds

  datatype Entry = Entry(id: int, expiresAt: int)

  datatype Caller =
    | Checking(name: string)
    | Fetching(name: string)
    | Storing(name: string, id: int)
    | Finished(name: string, result: Option<int>)

  datatype State = State(
    cache: map<string, Entry>,
    server: map<string, int>,
    callers: map<nat, Caller>,
    now: int)

  datatype Action =
    | Tick(elapsed: nat)
    | PoolMapped(name: string, id: int)
    | PoolRemoved(name: string)
    | Enters(c: nat, name: string)
    | Checks(c: nat)
    | Fetches(c: nat, answered: bool)
    | Stores(c: nat)

  predicate At(s: State, c: nat) {
    c in s.callers
  }

  predicate Enabled(s: State, a: Action) {
    match a
    case Enters(c, _) => !At(s, c) || s.callers[c].Finished?
    case Checks(c) => At(s, c) && s.callers[c].Checking?
    case Fetches(c, _) => At(s, c) && s.callers[c].Fetching?
    case Stores(c) => At(s, c) && s.callers[c].Storing?
    case _ => true
  }

  /** entry.expiresAt.After(now) */
  predicate Hit(s: State, name: string) {
    name in s.cache && s.cache[name].expiresAt > s.now
  }

  function Moved(s: State, c: nat, to: Caller): State {
    s.(callers := s.callers[c := to])
  }

  function Apply(s: State, a: Action): State
    requires Enabled(s, a)
  {
    match a
    case Tick(elapsed) => s.(now := s.now + elapsed)
    case PoolMapped(name, id) => s.(server := s.server[name := id])
    case PoolRemoved(name) => s.(server := s.server - {name})
    case Enters(c, name) => Moved(s, c, Checking(name))
    case Checks(c) =>
      var name := s.callers[c].name;
      Moved(s, c, if Hit(s, name) then Finished(name, Some(s.cache[name].id)) else Fetching(name))
    case Fetches(c, answered) =>
      var name := s.callers[c].name;
      Moved(s, c, if answered && name in s.server then Storing(name, s.server[name]) else Finished(name, None))
    case Stores(c) =>
      var (name, id) := (s.callers[c].name, s.callers[c].id);
      Moved(s.(cache := s.cache[name := Entry(id, s.now + EXPIRATION)]), c, Finished(name, Some(id)))
  }

  predicate Init(s: State) {
    s.cache == map[] && s.callers == map[]
  }

  datatype Run = Run(states: seq<State>, acts: seq<Action>)

  predicate IsRun(r: Run) {
    && |r.states| == |r.acts| + 1
    && Init(r.states[0])
    && forall i :: 0 <= i < |r.acts| ==>
         Enabled(r.states[i], r.acts[i]) && r.states[i + 1] == Apply(r.states[i], r.acts[i])
  }

  /** At step `f` the server answered a caller's question for `name` with `id`. */
  predicate ServedAt(r: Run, f: nat, name: string, id: int)
    requires f < |r.acts| < |r.states|
  {
    var (s, a) := (r.states[f], r.acts[f]);
    a.Fetches? && a.answered && At(s, a.c) && s.callers[a.c] == Fetching(name)
    && name in s.server && s.server[name] == id
  }

  predicate StoredAt(r: Run, t: nat, name: string, id: int)
    requires t < |r.acts| < |r.states|
  {
    var (s, a) := (r.states[t], r.acts[t]);
    a.Stores? && At(s, a.c) && s.callers[a.c] == Storing(name, id)
  }

  /** Someone stored what the server had answered before. */
  predicate StoredAfterServed(r: Run, f: nat, t: nat, name: string, id: int)
    requires t < |r.acts| < |r.states|
  {
    f < t && ServedAt(r, f, name, id) && StoredAt(r, t, name, id)
  }

  lemma {:induction false} ClockIsMonotone(r: Run, j: nat, k: nat)
    requires IsRun(r) && j <= k < |r.states|
    ensures r.states[j].now <= r.states[k].now
  {
    if j < k {
      ClockIsMonotone(r, j, k - 1);
    }
  }

  lemma StoringStep(s: State, a: Action, c: nat)
    requires Enabled(s, a) && At(Apply(s, a), c) && Apply(s, a).callers[c].Storing?
    ensures || (At(s, c) && s.callers[c] == Apply(s, a).callers[c])
            || (var (name, id) := (Apply(s, a).callers[c].name, Apply(s, a).callers[c].id);
                a == Fetches(c, true) && At(s, c) && s.callers[c] == Fetching(name)
                && name in s.server && s.server[name] == id)
  {}

  /** What a caller is about to store, the server once answered it. */
  lemma {:induction false} StoringWasServed(r: Run, k: nat, c: nat)
    requires IsRun(r) && k < |r.states| && At(r.states[k], c) && r.states[k].callers[c].Storing?
    ensures var pc := r.states[k].callers[c]; exists f :: 0 <= f < k && ServedAt(r, f, pc.name, pc.id)
  {
    var j := k - 1;
    var pc := r.states[k].callers[c];
    StoringStep(r.states[j], r.acts[j], c);
    if At(r.states[j], c) && r.states[j].callers[c] == pc {
      StoringWasServed(r, j, c);
    } else {
      assert ServedAt(r, j, pc.name, pc.id);
    }
  }

  lemma EntryStep(s: State, a: Action, name: string)
    requires Enabled(s, a) && name in Apply(s, a).cache
    ensures var e := Apply(s, a).cache[name];
            || (name in s.cache && s.cache[name] == e)
            || (a.Stores? && At(s, a.c) && s.callers[a.c] == Storing(name, e.id) && e.expiresAt == s.now + EXPIRATION)
  {}

  /** Every cache entry was served, then stored five minutes before its expiry. */
  lemma {:induction false} EntryWasStored(r: Run, k: nat, name: string)
    requires IsRun(r) && k < |r.states| && name in r.states[k].cache
    ensures var e := r.states[k].cache[name];
            exists f, t :: 0 <= f < t < k && StoredAfterServed(r, f, t, name, e.id)
                           && e.expiresAt == r.states[t].now + EXPIRATION
  {
    var j := k - 1;
    var s, a, e := r.states[j], r.acts[j], r.states[k].cache[name];
    EntryStep(s, a, name);
    if name in s.cache && s.cache[name] == e {
      EntryWasStored(r, j, name);
    } else {
      StoringWasServed(r, j, a.c);
      var f :| 0 <= f < j && ServedAt(r, f, name, e.id);
      assert StoredAfterServed(r, f, j, name, e.id);
    }
  }

  /** For every interleaving: a cache hit is an id the server returned for that
      very name, stored less than five minutes before the hit. */
  lemma HitsAreServedAndRecent(r: Run, k: nat)
    requires IsRun(r) && k < |r.acts| && r.acts[k].Checks?
    requires Hit(r.states[k], r.states[k].callers[r.acts[k].c].name)
    ensures var name := r.states[k].callers[r.acts[k].c].name;
            exists id, f, t :: 0 <= f < t < k && StoredAfterServed(r, f, t, name, id)
              && r.states[k].now - r.states[t].now < EXPIRATION
              && r.states[k + 1].callers[r.acts[k].c] == Finished(name, Some(id))
  {
    var s, c := r.states[k], r.acts[k].c;
    EntryWasStored(r, k, s.callers[c].name);
  }

  /** A name once stored stays cached, never to expire earlier. */
  lemma {:induction false} EntryStays(r: Run, t: nat, k: nat, name: string, id: int)
    requires IsRun(r) && t < k < |r.states| && StoredAt(r, t, name, id)
    ensures name in r.states[k].cache && r.states[k].cache[name].expiresAt >= r.states[t].now + 300
  {
    if t < k - 1 {
      EntryStays(r, t, k - 1, name, id);
      ClockIsMonotone(r, t, k - 1);
    }
  }

  /** A check is answered from the cache exactly when some caller stored an id for
      that very name less than five minutes before. */
  lemma HitIffStoredRecently(r: Run, k: nat)
    requires IsRun(r) && k < |r.acts| && r.acts[k].Checks?
    ensures var (c, name) := (r.acts[k].c, r.states[k].callers[r.acts[k].c].name);
            r.states[k + 1].callers[c].Finished? <==>
              exists t, id :: 0 <= t < k && StoredAt(r, t, name, id) && r.states[k].now - r.states[t].now < 300
  {
    var s, name := r.states[k], r.states[k].callers[r.acts[k].c].name;
    if Hit(s, name) {
      EntryWasStored(r, k, name);
      var f, t :| 0 <= f < t < k && StoredAfterServed(r, f, t, name, s.cache[name].id)
                  && s.cache[name].expiresAt == r.states[t].now + EXPIRATION;
      assert StoredAt(r, t, name, s.cache[name].id);
    }
    if t, id :| 0 <= t < k && StoredAt(r, t, name, id) && s.now - r.states[t].now < 300 {
      EntryStays(r, t, k, name, id);
    }
  }

  /** The server's answer is what is stored and returned; without one, nothing is. */
  lemma AnswerIsPassedOn(s: State, a: Action)
    requires Enabled(s, a) && (a.Fetches? || a.Stores?)
    ensures var (s', name) := (Apply(s, a), s.callers[a.c].name);
            if a.Stores? then
              && s'.callers[a.c] == Finished(name, Some(s.callers[a.c].id))
              && s'.cache == s.cache[name := Entry(s.callers[a.c].id, s.now + 300)]
            else
              && s'.cache == s.cache
              && s'.callers[a.c] == if a.answered && name in s.server then Storing(name, s.server[name])
                                    else Finished(name, None)
  {}

  /** Time passes and the server may rename its pools at any moment. */
  lemma TheWorldMoves(s: State, elapsed: nat, name: string, id: int)
    ensures Enabled(s, Tick(elapsed)) && Apply(s, Tick(elapsed)) == s.(now := s.now + elapsed)
    ensures Enabled(s, PoolMapped(name, id)) && Apply(s, PoolMapped(name, id)) == s.(server := s.server[name := id])
    ensures Enabled(s, PoolRemoved(name)) && Apply(s, PoolRemoved(name)) == s.(server := s.server - {name})
  {}

  /** At step `f` caller `c` asked for `name` in vain. */
  predicate FailedAt(r: Run, f: nat, c: nat, name: string)
    requires f < |r.acts| < |r.states|
  {
    var (s, a) := (r.states[f], r.acts[f]);
    a.Fetches? && a.c == c && At(s, c) && s.callers[c] == Fetching(name) && (!a.answered || name !in s.server)
  }

  lemma FinishedStep(s: State, a: Action, c: nat)
    requires Enabled(s, a) && At(Apply(s, a), c)
    requires Apply(s, a).callers[c].Finished? && Apply(s, a).callers[c].result.Some?
    ensures var (name, id) := (Apply(s, a).callers[c].name, Apply(s, a).callers[c].result.value);
            || (At(s, c) && s.callers[c] == Apply(s, a).callers[c])
            || (At(s, c) && s.callers[c] == Storing(name, id))
            || (name in s.cache && s.cache[name].id == id)
  {}

  /** Every id ever returned was once the server's answer for the name asked. */
  lemma {:induction false} AnswersWereServed(r: Run, k: nat, c: nat)
    requires IsRun(r) && k < |r.states| && At(r.states[k], c)
    requires r.states[k].callers[c].Finished? && r.states[k].callers[c].result.Some?
    ensures var pc := r.states[k].callers[c]; exists f :: 0 <= f < k && ServedAt(r, f, pc.name, pc.result.value)
  {
    var j := k - 1;
    var pc := r.states[k].callers[c];
    FinishedStep(r.states[j], r.acts[j], c);
    if At(r.states[j], c) && r.states[j].callers[c] == pc {
      AnswersWereServed(r, j, c);
    } else if At(r.states[j], c) && r.states[j].callers[c] == Storing(pc.name, pc.result.value) {
      StoringWasServed(r, j, c);
    } else {
      EntryWasStored(r, j, pc.name);
    }
  }

  /** If the server never changes its mind, cached and uncached lookups agree. */
  lemma ConstantServerAgrees(r: Run, k: nat, c: nat)
    requires IsRun(r) && k < |r.states| && At(r.states[k], c)
    requires r.states[k].callers[c].Finished? && r.states[k].callers[c].result.Some?
    requires forall i :: 0 <= i < |r.states| ==> r.states[i].server == r.states[0].server
    ensures var pc := r.states[k].callers[c];
            pc.name in r.states[k].server && r.states[k].server[pc.name] == pc.result.value
  {
    AnswersWereServed(r, k, c);
    var f :| 0 <= f < k && ServedAt(r, f, r.states[k].callers[c].name, r.states[k].callers[c].result.value);
    assert r.states[f].server == r.states[0].server == r.states[k].server;
  }

  // ---------- the method ----------

  /** The shared client with the run that led to it. */
  class SharedClient {
    var now: State
    ghost var run: Run

    ghost predicate Valid()
      reads this
    {
      IsRun(run) && run.states[|run.acts|] == now
    }

    constructor (server: map<string, int>, time: int)
      ensures Valid() && now == State(map[], server, map[], time)
    {
      now := State(map[], server, map[], time);
      run := Run([State(map[], server, map[], time)], []);
    }

    method Take(a: Action)
      requires Valid() && Enabled(now, a)
      modifies this
      ensures Valid() && now == Apply(old(now), a)
      ensures run.states == old(run.states) + [now] && run.acts == old(run.acts) + [a]
    {
      now := Apply(now, a);
      run := Run(run.states + [now], run.acts + [a]);
    }

    /** The clock, the server and all other callers move; caller `c` stays put. */
    method Interleave(c: nat)
      requires Valid() && At(now, c)
      modifies this
      ensures Valid() && At(now, c) && now.callers[c] == old(now.callers[c])
      ensures old(run.states) <= run.states && old(run.acts) <= run.acts
    {
      var n: nat := *;
      while n > 0
        invariant Valid() && At(now, c) && now.callers[c] == old(now.callers[c])
        invariant old(run.states) <= run.states && old(run.acts) <= run.acts
      {
        var a: Action := *;
        var mine := match a
          case Enters(d, _) => c == d
          case Checks(d) => c == d
          case Fetches(d, _) => c == d
          case Stores(d) => c == d
          case _ => false;
        if !mine && Enabled(now, a) {
          Take(a);
        }
        n := n - 1;
      }
    }

    /** The section under the read lock. */
    method CheckCache(c: nat, name: string) returns (id: Option<int>)
      requires Valid() && At(now, c) && now.callers[c] == Checking(name)
      modifies this
      ensures Valid() && At(now, c) && now.callers[c] == (if id.Some? then Finished(name, id) else Fetching(name))
      ensures old(run.states) <= run.states && old(run.acts) <= run.acts
    {
      Interleave(c);
      id := None;
      if name in now.cache && now.cache[name].expiresAt > now.now {
        id := Some(now.cache[name].id);
      }
      Take(Checks(c));
    }

    /** The request, under no lock. */
    method Fetch(c: nat, name: string) returns (id: Option<int>)
      requires Valid() && At(now, c) && now.callers[c] == Fetching(name)
      modifies this
      ensures Valid() && At(now, c)
      ensures now.callers[c] == (if id.Some? then Storing(name, id.value) else Finished(name, None))
      ensures old(run.states) <= run.states && old(run.acts) <= run.acts
      ensures id.None? ==> |old(run.acts)| < |run.acts| && FailedAt(run, |run.acts| - 1, c, name)
    {
      Interleave(c);
      var answered: bool := *;
      id := if answered && name in now.server then Some(now.server[name]) else None;
      Take(Fetches(c, answered));
    }

    /** The section under the write lock. */
    method StoreId(c: nat, name: string, id: int)
      requires Valid() && At(now, c) && now.callers[c] == Storing(name, id)
      modifies this
      ensures Valid() && At(now, c) && now.callers[c] == Finished(name, Some(id))
      ensures old(run.states) <= run.states && old(run.acts) <= run.acts
    {
      Interleave(c);
      Take(Stores(c));
    }

    /** GetPoolIDByName as run by caller `c`: whatever interleaves, it is a run
        of the protocol, an id it returns was served for that name, and it returns
        none only if its own question was asked in vain. */
    method GetPoolIDByName(c: nat, name: string) returns (id: Option<int>)
      requires Valid() && (At(now, c) ==> now.callers[c].Finished?)
      modifies this
      ensures Valid() && At(now, c) && now.callers[c] == Finished(name, id)
      ensures old(run.states) <= run.states && old(run.acts) <= run.acts
      ensures id.Some? ==> exists f :: 0 <= f < |run.acts| && ServedAt(run, f, name, id.value)
      ensures id.None? ==> exists f :: |old(run.acts)| <= f < |run.acts| && FailedAt(run, f, c, name)
    {
      Take(Enters(c, name));
      id := CheckCache(c, name);
      if id.None? {
        id := Fetch(c, name);
        if id.Some? {
          StoreId(c, name, id.value);
        }
      }
      if id.Some? {
        AnswersWereServed(run, |run.acts|, c);
      }
    }
  }
}
