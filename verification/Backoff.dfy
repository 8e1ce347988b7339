/** The controller's requeue interval after a failed queue check: a minute
    doubled for every five minutes since the failure, in int64 nanoseconds. */
module Backoff {
  import opened Wrappers
  import opened GoInts

  const MINUTE := 60_000_000_000
  const MAX_INTERVAL := 5 * MINUTE

  function Pow2(k: nat): nat {
    if k == 0 then 1 else 2 * Pow2(k - 1)
  }

  /** time.Duration(1 << k) */
  function Shift(k: nat): int {
    if k < 64 then Wrap64(Pow2(k)) else 0
  }

  /** The wrapped product of the base interval and the shift. */
  function Product(k: nat): int {
    Wrap64(MINUTE * Shift(k))
  }

  function Doublings(age: nat): nat {
    age / MAX_INTERVAL
  }

  /** calculateRequeueInterval, given the age of the last failure if there is one. */
  function RequeueInterval(age: Option<nat>): int {
    match age
    case None => MINUTE
    case Some(a) =>
      var interval := Product(Doublings(a));
      if interval > MAX_INTERVAL then MAX_INTERVAL else interval
  }

  /** The interval meant: without overflow. */
  function IdealInterval(age: nat): int {
    Capped(Doublings(age))
  }

  function Capped(k: nat): int {
    if MINUTE * Pow2(k) > MAX_INTERVAL then MAX_INTERVAL else MINUTE * Pow2(k)
  }

  /** The numbers of doublings for which the code computes what is meant. */
  predicate SafeDoublings(k: nat) {
    k <= 27 || k in {30, 37, 38, 39, 40, 42, 43, 44, 48, 50}
  }

  lemma {:induction false} Pow2Monotone(j: nat, k: nat)
    requires j <= k
    ensures 1 <= Pow2(j) <= Pow2(k)
  {
    if j < k {
      Pow2Monotone(j, k - 1);
    } else if k > 0 {
      Pow2Monotone(k - 1, k - 1);
    }
  }

  lemma Pow2Of27()
    ensures Pow2(27) == 134217728
  {
    assert Pow2(9) == 512;
    assert Pow2(18) == 262144;
    assert Pow2(27) == 134217728;
  }

  lemma NoOverflowBelow28(k: nat)
    requires k <= 27
    ensures Pow2(k) <= 134217728 && Product(k) == MINUTE * Pow2(k)
  {
    Pow2Monotone(k, 27);
    Pow2Of27();
  }

  /** One more doubling doubles the wrapped product, with wrap-around. */
  lemma ProductDoubles(k: nat)
    requires k < 63
    ensures Product(k + 1) == Wrap64(2 * Product(k))
  {
    WrapScales(Pow2(k + 1), MINUTE);
    WrapScales(Pow2(k), MINUTE);
    WrapScales(MINUTE * Pow2(k), 2);
  }

  /** Multiplying before or after a wrap is the same modulo 2^64. */
  lemma WrapScales(x: int, c: int)
    ensures Wrap64(c * Wrap64(x)) == Wrap64(c * x)
  {
    var t := (Wrap64(x) - x) / TWO64;
    assert c * Wrap64(x) == c * x + c * t * TWO64;
    WrapPeriodic(c * x, c * t);
  }

  lemma WrapPeriodic(x: int, m: int)
    ensures Wrap64(x + m * TWO64) == Wrap64(x)
  {
    var y := x + TWO63;
    var q, r := y / TWO64, y % TWO64;
    assert y + m * TWO64 == (q + m) * TWO64 + r;
    RemainderUnique(y + m * TWO64, q + m, r);
  }

  lemma RemainderUnique(y: int, q: int, r: int)
    requires y == q * TWO64 + r && 0 <= r < TWO64
    ensures y % TWO64 == r
  {}

  /** The wrapped products from the last exact one to the first that vanishes. */
  function Wrapped(k: nat): int
    requires 27 <= k <= 53
  {
    match k
    case 27 => 8053063680000000000
    case 28 => -2340616713709551616
    case 29 => -4681233427419103232
    case 30 => 9084277218871345152
    case 31 => -278189635966861312
    case 32 => -556379271933722624
    case 33 => -1112758543867445248
    case 34 => -2225517087734890496
    case 35 => -4451034175469780992
    case 36 => -8902068350939561984
    case 37 => 642607371830427648
    case 38 => 1285214743660855296
    case 39 => 2570429487321710592
    case 40 => 5140858974643421184
    case 41 => -8165026124422709248
    case 42 => 2116691824864133120
    case 43 => 4233383649728266240
    case 44 => 8466767299456532480
    case 45 => -1513209474796486656
    case 46 => -3026418949592973312
    case 47 => -6052837899185946624
    case 48 => 6341068275337658368
    case 49 => -5764607523034234880
    case 50 => 6917529027641081856
    case 51 => -4611686018427387904
    case 52 => -9223372036854775808
    case _ => 0
  }

  lemma WrappedDoubles(k: nat)
    requires 27 <= k < 53
    ensures Wrapped(k + 1) == Wrap64(2 * Wrapped(k))
  {}

  lemma {:induction false} ProductIsWrapped(k: nat)
    requires 27 <= k <= 53
    ensures Product(k) == Wrapped(k)
  {
    if k == 27 {
      NoOverflowBelow28(k);
      Pow2Of27();
    } else {
      ProductIsWrapped(k - 1);
      ProductDoubles(k - 1);
      WrappedDoubles(k - 1);
    }
  }

  lemma {:induction false} ProductVanishes(k: nat)
    requires 53 <= k
    ensures Product(k) == 0
  {
    if k == 53 {
      ProductIsWrapped(k);
    } else if k < 64 {
      ProductVanishes(k - 1);
      ProductDoubles(k - 1);
    }
  }

  lemma WrappedSigns(k: nat)
    requires 28 <= k <= 53
    ensures if SafeDoublings(k) then Wrapped(k) > MAX_INTERVAL else Wrapped(k) <= 0
  {}

  lemma IdealFrom28(k: nat)
    requires 28 <= k
    ensures Capped(k) == MAX_INTERVAL
  {
    Pow2Monotone(27, k);
    Pow2Of27();
  }

  lemma ProductUpTo27(k: nat)
    requires k <= 27
    ensures Product(k) == MINUTE * Pow2(k) >= MINUTE
  {
    NoOverflowBelow28(k);
    Pow2Monotone(0, k);
  }

  lemma ProductFrom28(k: nat)
    requires 28 <= k
    ensures if SafeDoublings(k) then Product(k) > MAX_INTERVAL else Product(k) <= 0
  {
    if k <= 53 {
      ProductIsWrapped(k);
      WrappedSigns(k);
    } else {
      ProductVanishes(k);
    }
  }

  /** The interval is the one meant exactly for the safe numbers of doublings;
      for every other age it is not even positive. */
  lemma BackoffIsIdealIff(age: nat)
    ensures RequeueInterval(Some(age)) == IdealInterval(age) <==> SafeDoublings(Doublings(age))
    ensures SafeDoublings(Doublings(age)) <==> MINUTE <= RequeueInterval(Some(age))
    ensures RequeueInterval(Some(age)) <= MAX_INTERVAL
  {
    var k := Doublings(age);
    if k <= 27 {
      ProductUpTo27(k);
    } else {
      IdealFrom28(k);
      ProductFrom28(k);
    }
  }

  lemma DoublingsBefore140Minutes(age: nat)
    requires age < 140 * MINUTE
    ensures Doublings(age) <= 27 && SafeDoublings(Doublings(age))
  {}

  lemma DoublingsGrow(age: nat, later: nat)
    requires age <= later
    ensures Doublings(age) <= Doublings(later)
  {}

  lemma CappedGrows(j: nat, k: nat)
    requires j <= k
    ensures MINUTE <= Capped(j) <= Capped(k) <= MAX_INTERVAL
  {
    Pow2Monotone(0, j);
    Pow2Monotone(j, k);
  }

  lemma IdealIsMonotone(age: nat, later: nat)
    requires age <= later
    ensures MINUTE <= IdealInterval(age) <= IdealInterval(later) <= MAX_INTERVAL
  {
    DoublingsGrow(age, later);
    CappedGrows(Doublings(age), Doublings(later));
  }

  lemma IntervalBefore140Minutes(age: nat)
    requires age < 140 * MINUTE
    ensures RequeueInterval(Some(age)) == IdealInterval(age)
  {
    DoublingsBefore140Minutes(age);
    BackoffIsIdealIff(age);
  }

  /** For the first 140 minutes the interval is ideal, between one and five
      minutes, and grows with the age of the failure. */
  lemma BackoffBefore140Minutes(age: nat, later: nat)
    requires age <= later < 140 * MINUTE
    ensures RequeueInterval(Some(later)) == IdealInterval(later)
    ensures MINUTE <= RequeueInterval(Some(age)) <= RequeueInterval(Some(later)) <= MAX_INTERVAL
  {
    IntervalBefore140Minutes(age);
    IntervalBefore140Minutes(later);
    IdealIsMonotone(age, later);
  }

  /** 28 doublings are the first overflow: the exact product leaves int64 and
      the interval turns negative at 140 minutes. */
  lemma FirstOverflowAt140Minutes()
    ensures forall k: nat :: k < 28 ==> IsInt64(MINUTE * Pow2(k))
    ensures !IsInt64(MINUTE * Pow2(28))
    ensures RequeueInterval(Some(140 * MINUTE)) < 0
  {
    forall k: nat | k < 28 ensures IsInt64(MINUTE * Pow2(k)) {
      NoOverflowBelow28(k);
    }
    Pow2Of27();
    OneMoreDoubling(27, 28, 140 * MINUTE);
  }

  /** The step over the edge, with the numbers as variables so that nothing is
      unfolded. */
  lemma OneMoreDoubling(j: nat, k: nat, age: nat)
    requires j == 27 && k == j + 1 && age == 140 * MINUTE
    ensures Pow2(k) == 268435456 && RequeueInterval(Some(age)) < 0
  {
    Pow2Of27();
    ProductIsWrapped(k);
    assert Doublings(age) == k;
  }
}
