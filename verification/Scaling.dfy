/** From the job list of a pool to a number of agent replicas. */
module Scaling {
  import opened GoInts

  const JOBS_PER_REPLICA := 5
  const REQUEUE_SECONDS := 30

  /** A job request; only whether it has been assigned matters. */
  datatype JobRequest = JobRequest(taken: bool)

  /** The body of a job-request listing; `count` is what the server claims. */
  datatype QueueResponse = QueueResponse(count: int, jobs: seq<JobRequest>)

  function Unassigned(jobs: seq<JobRequest>): nat {
    if jobs == [] then 0
    else Unassigned(jobs[..|jobs| - 1]) + (if jobs[|jobs| - 1].taken then 0 else 1)
  }

  lemma {:induction false} UnassignedBound(jobs: seq<JobRequest>)
    ensures Unassigned(jobs) <= |jobs|
  {
    if jobs != [] {
      UnassignedBound(jobs[..|jobs| - 1]);
    }
  }

  /** It is the number of positions that hold a request not taken. */
  lemma {:induction false} UnassignedCounts(jobs: seq<JobRequest>)
    ensures Unassigned(jobs) == |set i | 0 <= i < |jobs| && !jobs[i].taken|
  {
    if jobs != [] {
      var n := |jobs| - 1;
      UnassignedCounts(jobs[..n]);
      var before := set i | 0 <= i < n && !jobs[..n][i].taken;
      var all := set i | 0 <= i < |jobs| && !jobs[i].taken;
      assert all == before + (if jobs[n].taken then {} else {n});
    }
  }

  /** The counting part of GetQueueLength.  A claimed count of zero wins over
      the list itself. */
  method PendingJobs(resp: QueueResponse) returns (pending: nat)
    ensures resp.count != 0 ==> pending == Unassigned(resp.jobs)
    ensures resp.count == 0 ==> pending == 0
  {
    if resp.count == 0 || |resp.jobs| == 0 {
      return 0;
    }
    pending := 0;
    for i := 0 to |resp.jobs|
      invariant pending == Unassigned(resp.jobs[..i])
    {
      assert resp.jobs[..i + 1][..i] == resp.jobs[..i];
      if !resp.jobs[i].taken {
        pending := pending + 1;
      }
    }
    assert resp.jobs[..|resp.jobs|] == resp.jobs;
  }

  /** The bounds of the spec, defaulted where not positive, and in order. */
  function Bounds(minReplicas: int, maxReplicas: int): (b: (int, int))
    requires IsInt32(minReplicas) && IsInt32(maxReplicas)
    ensures 1 <= b.0 <= b.1 && IsInt32(b.0) && IsInt32(b.1)
  {
    var lo := if minReplicas > 0 then minReplicas else 1;
    var hi := if maxReplicas > 0 then maxReplicas else 10;
    if lo > hi then (hi, lo) else (lo, hi)
  }

  /** The bounds case by case: as given where positive, 1 and 10 where not, and
      swapped where out of order. */
  lemma BoundsMeaning(minReplicas: int, maxReplicas: int)
    requires IsInt32(minReplicas) && IsInt32(maxReplicas)
    ensures var b := Bounds(minReplicas, maxReplicas);
            && (0 < minReplicas <= maxReplicas ==> b == (minReplicas, maxReplicas))
            && (0 < maxReplicas < minReplicas ==> b == (maxReplicas, minReplicas))
            && (minReplicas <= 0 < maxReplicas ==> b == (1, maxReplicas))
            && (maxReplicas <= 0 < minReplicas <= 10 ==> b == (minReplicas, 10))
            && (maxReplicas <= 0 && 10 < minReplicas ==> b == (10, minReplicas))
            && (minReplicas <= 0 && maxReplicas <= 0 ==> b == (1, 10))
  {}

  /** int32((queueLength + 5 - 1) / 5), in 64-bit arithmetic. */
  function RawReplicas(queueLength: int): int {
    Wrap32(Quotient(Wrap64(queueLength + JOBS_PER_REPLICA - 1), JOBS_PER_REPLICA))
  }

  function Clamp(x: int, lo: int, hi: int): int {
    if x < lo then lo else if x > hi then hi else x
  }

  /** `r` is the least count in [lo, hi] whose capacity covers the queue, or hi
      if no count in that range does. */
  ghost predicate IsOptimal(r: int, queueLength: int, lo: int, hi: int) {
    && lo <= r <= hi
    && (queueLength <= JOBS_PER_REPLICA * r || r == hi)
    && (forall c :: lo <= c <= hi && queueLength <= JOBS_PER_REPLICA * c ==> r <= c)
  }

  /** The largest queue whose ceiling still fits an int32. */
  const SAFE_QUEUE := JOBS_PER_REPLICA * (TWO31 - 1)

  /** The largest queue the code can round up without leaving int64. */
  const LAST_ROUNDED := TWO63 - JOBS_PER_REPLICA

  /** When does the code find the optimum?  Up to SAFE_QUEUE, or if the bounds
      coincide, always.  Beyond, when the low 32 bits of the ceiling read as a
      positive number that reaches the maximum; the last four lengths, where
      rounding up wraps too, all come to the same number. */
  predicate FindsOptimum(queueLength: int, lo: int, hi: int) {
    || queueLength <= SAFE_QUEUE
    || lo == hi
    || (queueLength <= LAST_ROUNDED && hi <= (queueLength + 4) / 5 % TWO32 < TWO31)
    || (LAST_ROUNDED < queueLength && hi <= 0x6666_6667)
  }

  method DetermineDesiredReplicas(queueLength: int, minReplicas: int, maxReplicas: int) returns (desired: int)
    requires IsInt64(queueLength) && IsInt32(minReplicas) && IsInt32(maxReplicas)
    ensures desired == DesiredReplicas(queueLength, minReplicas, maxReplicas)
    ensures var (lo, hi) := Bounds(minReplicas, maxReplicas);
            && lo <= desired <= hi
            && (0 <= queueLength ==> (IsOptimal(desired, queueLength, lo, hi) <==> FindsOptimum(queueLength, lo, hi)))
  {
    var lo, hi := 1, 10;
    if minReplicas > 0 {
      lo := minReplicas;
    }
    if maxReplicas > 0 {
      hi := maxReplicas;
    }
    if lo > hi {
      lo, hi := hi, lo;
    }
    if 0 <= queueLength {
      OptimalIff(queueLength, lo, hi);
    }
    if queueLength == 0 {
      return lo;
    }
    desired := RawReplicas(queueLength);
    if desired < lo {
      desired := lo;
    }
    if desired > hi {
      desired := hi;
    }
  }

  function DesiredReplicas(queueLength: int, minReplicas: int, maxReplicas: int): int
    requires IsInt32(minReplicas) && IsInt32(maxReplicas)
  {
    var (lo, hi) := Bounds(minReplicas, maxReplicas);
    Clamp(RawReplicas(queueLength), lo, hi)
  }

  lemma RawIsCeiling(q: int)
    requires 0 <= q <= SAFE_QUEUE
    ensures JOBS_PER_REPLICA * (RawReplicas(q) - 1) < q <= JOBS_PER_REPLICA * RawReplicas(q)
  {}

  lemma WrapReaches(x: int, hi: int)
    requires 0 <= x && 1 <= hi
    ensures Wrap32(x) >= hi <==> hi <= x % TWO32 < TWO31
  {}

  /** The last four lengths: the sum wraps to the bottom of int64, and the low
      32 bits of its fifth are positive again. */
  lemma LastFour(q: int)
    requires LAST_ROUNDED < q < TWO63
    ensures RawReplicas(q) == 0x6666_6667
  {
    assert Wrap64(q + 4) == q + 4 - TWO64;
    assert (TWO64 - 4 - q) / 5 == 0x1999_9999_9999_9999;
  }

  /** Past the safe range the optimum is the maximum; when is it reached? */
  lemma RawReaches(q: int, lo: int, hi: int)
    requires SAFE_QUEUE < q && IsInt64(q) && 1 <= lo < hi && IsInt32(hi)
    ensures RawReplicas(q) >= hi <==> FindsOptimum(q, lo, hi)
  {
    if q <= LAST_ROUNDED {
      WrapReaches((q + 4) / 5, hi);
    } else {
      LastFour(q);
    }
  }

  lemma OptimalIff(q: int, lo: int, hi: int)
    requires 0 <= q && IsInt64(q) && 1 <= lo <= hi && IsInt32(hi)
    ensures IsOptimal(Clamp(RawReplicas(q), lo, hi), q, lo, hi) <==> FindsOptimum(q, lo, hi)
    ensures q == 0 ==> Clamp(RawReplicas(q), lo, hi) == lo
  {
    if q <= SAFE_QUEUE {
      RawIsCeiling(q);
    } else if lo < hi {
      RawReaches(q, lo, hi);
    }
  }

  /** For any job list that fits, the replicas are the optimum for its unassigned jobs. */
  lemma ReplicasCoverJobs(jobs: seq<JobRequest>, minReplicas: int, maxReplicas: int)
    requires |jobs| <= SAFE_QUEUE && IsInt32(minReplicas) && IsInt32(maxReplicas)
    ensures var (lo, hi) := Bounds(minReplicas, maxReplicas);
            IsOptimal(DesiredReplicas(Unassigned(jobs), minReplicas, maxReplicas), Unassigned(jobs), lo, hi)
  {
    var (lo, hi) := Bounds(minReplicas, maxReplicas);
    UnassignedBound(jobs);
    OptimalIff(Unassigned(jobs), lo, hi);
  }

  /** On the safe range a longer queue never yields fewer replicas. */
  lemma ScalingIsMonotone(q: int, q': int, minReplicas: int, maxReplicas: int)
    requires 0 <= q <= q' <= SAFE_QUEUE && IsInt32(minReplicas) && IsInt32(maxReplicas)
    ensures DesiredReplicas(q, minReplicas, maxReplicas) <= DesiredReplicas(q', minReplicas, maxReplicas)
  {
    RawIsCeiling(q);
    RawIsCeiling(q');
  }

  /** The first unsafe queue length: demand for more than hi replicas is served
      with the least number allowed. */
  lemma WrapStarves(minReplicas: int, maxReplicas: int)
    requires IsInt32(minReplicas) && IsInt32(maxReplicas)
    ensures DesiredReplicas(SAFE_QUEUE + 1, minReplicas, maxReplicas) == Bounds(minReplicas, maxReplicas).0
  {
    assert RawReplicas(SAFE_QUEUE + 1) == -TWO31;
  }

  function RequeueSeconds(queueLength: int, replicas: int): int {
    if queueLength > 0 || replicas > 0 then REQUEUE_SECONDS else REQUEUE_SECONDS * 2
  }

  lemma RequeueSecondsMeaning(queueLength: int, replicas: int)
    ensures RequeueSeconds(queueLength, replicas) == if queueLength <= 0 && replicas <= 0 then 60 else 30
  {}

  /** The longer idle interval is never used: there is always a replica. */
  lemma IdleIntervalIsDead(queueLength: int, minReplicas: int, maxReplicas: int)
    requires IsInt32(minReplicas) && IsInt32(maxReplicas)
    ensures RequeueSeconds(queueLength, DesiredReplicas(queueLength, minReplicas, maxReplicas)) == REQUEUE_SECONDS
  {}
}
