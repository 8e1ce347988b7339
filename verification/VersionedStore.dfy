/** One object in an API server with optimistic concurrency: every commit makes a
    new version, and an update is refused unless it was based on the latest one.
    Other writers may commit anything between any two calls of this controller. */
module VersionedStore {
  import opened Wrappers

  datatype Writer = Self | Others

  /** A version of the object; None while it does not exist. */
  datatype Version<T> = Version(writer: Writer, value: Option<T>)

  datatype GetAnswer<T> = Found(obj: T, rv: nat) | NotFound | GetFailed

  datatype WriteAnswer = Committed | Conflict | Refused | WriteFailed

  ghost function OwnCommits<T>(h: seq<Version<T>>): nat {
    if h == [] then 0 else OwnCommits(h[..|h| - 1]) + (if h[|h| - 1].writer.Self? then 1 else 0)
  }

  /** Every own version from index `from` on relates to the one right before it. */
  ghost predicate OwnWritesAre<T(!new)>(h: seq<Version<T>>, from: nat, rel: (Option<T>, Option<T>) -> bool) {
    forall i :: from <= i < |h| && 0 < i && h[i].writer.Self? ==> rel(h[i - 1].value, h[i].value)
  }

  /** What can be seen of an object at one moment; `known` is the last version the
      controller itself read or wrote, `setbacks` how many of its calls conflicted,
      found nothing or failed. */
  datatype View<T> = View(
    history: seq<Version<T>>, current: Option<T>, commits: nat, known: Option<T>, setbacks: nat)

  /** From one view to a later one: at most one commit of the controller, and
      whatever it committed relates so to the version right before it. */
  ghost predicate OneWriteIs<T(!new)>(before: View<T>, after: View<T>, rel: (Option<T>, Option<T>) -> bool) {
    && before.history <= after.history && before.commits <= after.commits <= before.commits + 1
    && OwnWritesAre(after.history, |before.history|, rel)
  }

  class Store<T(0,!new)> {
    /** Nobody interferes and no call fails. */
    const calm: bool
    var current: Option<T>
    var rv: nat
    ghost var history: seq<Version<T>>
    ghost var commits: nat          // own commits
    ghost var updates: nat          // Update calls made
    ghost var conflicts: nat        // of which answered with a conflict
    ghost var absences: nat         // Get calls that found nothing
    ghost var troubles: nat         // calls that failed otherwise
    ghost var seen: Option<T>       // last version this controller read or wrote

    ghost predicate Valid()
      reads this
    {
      && |history| == rv + 1 && history[rv].value == current
      && commits == OwnCommits(history)
    }

    ghost function Seen(): View<T>
      reads this
    {
      View(history, current, commits, seen, Setbacks())
    }

    ghost function Setbacks(): nat
      reads this
    {
      conflicts + absences + troubles
    }

    /** History only ever grows. */
    twostate predicate Grew()
      reads this
    {
      old(history) <= history
    }

    constructor (initial: Option<T>, calm: bool)
      ensures Valid() && this.calm == calm && current == initial
      ensures history == [Version(Others, initial)]
      ensures commits == updates == conflicts == absences == troubles == 0
    {
      this.calm := calm;
      current, rv := initial, 0;
      history := [Version(Others, initial)];
      commits, updates, conflicts, absences, troubles, seen := 0, 0, 0, 0, 0, None;
    }

    ghost method Append(writer: Writer, obj: Option<T>)
      requires commits == OwnCommits(history)
      modifies this`history, this`commits
      ensures history == old(history) + [Version(writer, obj)]
      ensures commits == OwnCommits(history) == old(commits) + (if writer.Self? then 1 else 0)
    {
      history := history + [Version(writer, obj)];
      assert history[..|history| - 1] == old(history);
      commits := OwnCommits(history);
    }

    method Commit(obj: T)
      requires Valid()
      modifies this`current, this`rv, this`history, this`commits
      ensures Valid() && current == Some(obj) && rv == old(rv) + 1 && commits == old(commits) + 1
      ensures history == old(history) + [Version(Self, Some(obj))]
    {
      current, rv := Some(obj), rv + 1;
      Append(Self, Some(obj));
    }

    /** Any number of commits by others. */
    method Interfere()
      requires Valid()
      modifies this`current, this`rv, this`history, this`commits
      ensures Valid() && Grew() && commits == old(commits)
      ensures forall i :: |old(history)| <= i < |history| ==> history[i].writer.Others?
      ensures calm ==> current == old(current) && rv == old(rv) && history == old(history)
    {
      var n: nat := *;
      while n > 0 && !calm
        invariant Valid() && Grew() && commits == old(commits)
        invariant forall i :: |old(history)| <= i < |history| ==> history[i].writer.Others?
        invariant calm ==> current == old(current) && rv == old(rv) && history == old(history)
      {
        var obj: Option<T> := *;
        current, rv := obj, rv + 1;
        Append(Others, obj);
        n := n - 1;
      }
    }

    method Get() returns (answer: GetAnswer<T>)
      requires Valid()
      modifies this`current, this`rv, this`history, this`commits, this`seen, this`absences, this`troubles
      ensures Valid() && Grew() && commits == old(commits)
      ensures forall i :: |old(history)| <= i < |history| ==> history[i].writer.Others?
      ensures calm ==> !answer.GetFailed? && history == old(history) && current == old(current)
      ensures match answer
              case Found(obj, version) => version == rv && current == seen == Some(obj)
              case NotFound => current.None?
              case GetFailed => true
      ensures absences == old(absences) + (if answer.NotFound? then 1 else 0)
      ensures troubles == old(troubles) + (if answer.GetFailed? then 1 else 0)
    {
      Interfere();
      var fails: bool := *;
      if fails && !calm {
        troubles := troubles + 1;
        return GetFailed;
      }
      if current.None? {
        absences := absences + 1;
        return NotFound;
      }
      seen := current;
      answer := Found(current.value, rv);
    }

    /** Commits `obj` on top of version `based`, or not at all.  A failure may
        hide a commit. */
    method Update(obj: T, based: nat) returns (answer: WriteAnswer)
      requires Valid()
      modifies this
      ensures Valid() && Grew()
      ensures updates == old(updates) + 1
      ensures conflicts == old(conflicts) + (if answer.Conflict? then 1 else 0) && absences == old(absences)
      ensures troubles == old(troubles) + (if answer in {Refused, WriteFailed} then 1 else 0)
      ensures || (commits == old(commits) && !answer.Committed? && seen == old(seen)
                  && forall i :: |old(history)| <= i < |history| ==> history[i].writer.Others?)
              || (commits == old(commits) + 1 && answer in {Committed, WriteFailed}
                  && |history| == based + 2 && history[based + 1] == Version(Self, Some(obj))
                  && history[based].value.Some?
                  && (forall i :: |old(history)| <= i <= based ==> history[i].writer.Others?)
                  && (answer.Committed? ==> seen == Some(obj)))
      ensures calm && old(current).Some? && based == old(rv) ==>
                answer.Committed? && history == old(history) + [Version(Self, Some(obj))] && current == Some(obj)
    {
      Interfere();
      updates := updates + 1;
      if current.None? {
        troubles := troubles + 1;
        return Refused;
      }
      if rv != based {
        conflicts := conflicts + 1;
        return Conflict;
      }
      var before: bool, after: bool := *, *;
      if before && !calm {
        troubles := troubles + 1;
        return WriteFailed;
      }
      Commit(obj);
      if after && !calm {
        troubles := troubles + 1;
        return WriteFailed;
      }
      seen := Some(obj);
      answer := Committed;
    }

    /** Commits `obj` where there was none. */
    method Create(obj: T) returns (answer: WriteAnswer)
      requires Valid()
      modifies this
      ensures Valid() && Grew() && updates == old(updates) && conflicts == old(conflicts)
      ensures absences == old(absences) && answer != Conflict
      ensures troubles == old(troubles) + (if answer in {Refused, WriteFailed} then 1 else 0)
      ensures || (commits == old(commits) && !answer.Committed? && seen == old(seen)
                  && forall i :: |old(history)| <= i < |history| ==> history[i].writer.Others?)
              || (commits == old(commits) + 1 && answer in {Committed, WriteFailed}
                  && |history| > |old(history)| && history[|history| - 1] == Version(Self, Some(obj))
                  && history[|history| - 2].value.None?
                  && (forall i :: |old(history)| <= i < |history| - 1 ==> history[i].writer.Others?)
                  && (answer.Committed? ==> seen == Some(obj)))
      ensures calm && old(current).None? ==>
                answer.Committed? && history == old(history) + [Version(Self, Some(obj))] && current == Some(obj)
    {
      Interfere();
      if current.Some? {
        troubles := troubles + 1;
        return Refused;
      }
      var before: bool, after: bool := *, *;
      if before && !calm {
        troubles := troubles + 1;
        return WriteFailed;
      }
      Commit(obj);
      if after && !calm {
        troubles := troubles + 1;
        return WriteFailed;
      }
      seen := Some(obj);
      answer := Committed;
    }
  }
}
