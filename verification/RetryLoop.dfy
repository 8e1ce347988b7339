/** doRequestWithBackoff: up to three sends of one request, sleeping between. */
module RetryLoop {
  import opened Wrappers
  import opened GoInts

  const MAX_RETRIES := 3
  const SECOND := 1_000_000_000
  const TOO_MANY_REQUESTS := 429

  datatype Response = Response(status: int, retryAfter: string)

  datatype SendResult = Answered(response: Response) | SendError

  datatype Failure = LimiterRefused | RequestCanceled | ContextDone | SendFailed

  // ---------- strconv.Atoi ----------

  predicate IsDigit(c: char) {
    '0' <= c <= '9'
  }

  /** The value of a non-empty string of digits. */
  function Digits(s: string): Option<nat> {
    if s == [] || !IsDigit(s[|s| - 1]) then None
    else
      var last := (s[|s| - 1] as int) - ('0' as int);
      if |s| == 1 then Some(last)
      else match Digits(s[..|s| - 1])
           case Some(front) => Some(10 * front + last)
           case None => None
  }

  function Atoi(s: string): (r: Option<int>)
    ensures r.Some? ==> IsInt64(r.value)
  {
    var signed := |s| > 0 && (s[0] == '-' || s[0] == '+');
    match Digits(if signed then s[1..] else s)
    case None => None
    case Some(n) =>
      var d: int := n;
      var v := if signed && s[0] == '-' then -d else d;
      if IsInt64(v) then Some(v) else None
  }

  /** The decimal notation of a number. */
  function Decimal(n: nat): string {
    if n < 10 then [(('0' as int) + n) as char] else Decimal(n / 10) + [(('0' as int) + n % 10) as char]
  }

  lemma {:induction false} DigitsOfDecimal(n: nat)
    ensures Digits(Decimal(n)) == Some(n) && IsDigit(Decimal(n)[0])
  {
    if n >= 10 {
      DigitsOfDecimal(n / 10);
      assert Decimal(n)[..|Decimal(n)| - 1] == Decimal(n / 10);
    }
  }

  lemma {:induction false} DigitsIff(s: string)
    ensures Digits(s).Some? <==> s != [] && forall i :: 0 <= i < |s| ==> IsDigit(s[i])
  {
    if |s| > 1 {
      DigitsIff(s[..|s| - 1]);
    }
  }

  // ---------- the transport ----------

  /** What ctx.Err() says; once ended, a context stays as it is. */
  datatype Context = Alive | Canceled | Expired

  predicate Later(before: Context, after: Context) {
    before.Alive? || after == before
  }

  /** A sleep: how long it was to be, how the context stood when it began, and
      whether the end of the context cut it short. */
  datatype Nap = Nap(length: int, began: Context, cut: bool)

  /** The network, the clock and the context of the request. */
  class Transport {
    var context: Context
    ghost var sent: seq<SendResult>
    ghost var naps: seq<Nap>

    method Send() returns (r: SendResult)
      modifies this`sent, this`context
      ensures sent == old(sent) + [r] && Later(old(context), context)
    {
      r := *;
      sent := sent + [r];
      Pass();
    }

    /** Time goes by; the context may end. */
    method Pass()
      modifies this`context
      ensures Later(old(context), context)
    {
      if context.Alive? {
        context := *;
      }
    }

    /** Waits for the timer or the end of the context, whichever comes first. */
    method Sleep(d: int) returns (cut: bool)
      modifies this`naps, this`context
      ensures naps == old(naps) + [Nap(d, old(context), cut)] && Later(old(context), context)
      ensures cut ==> !context.Alive?
      ensures !old(context).Alive? && d > 0 ==> cut
    {
      ghost var began := context;
      if !context.Alive? && d > 0 {
        cut := true;
      } else {
        Pass();
        cut := *;
        cut := cut && !context.Alive?;
      }
      naps := naps + [Nap(d, began, cut)];
    }
  }

  function Base(attempt: nat): nat {
    if attempt == 0 then SECOND else 2 * Base(attempt - 1)
  }

  /** The most the default backoffs of the first `attempts` sends can add up to. */
  function DefaultBudget(attempts: nat): nat {
    if attempts == 0 then 0 else DefaultBudget(attempts - 1) + Base(attempts - 1) + Base(attempts - 1) / 2
  }

  method DefaultBackoff(attempt: nat) returns (d: int)
    ensures Base(attempt) <= d < Base(attempt) + Base(attempt) / 2
  {
    BaseIsLarge(attempt);
    var backoff := Base(attempt);
    var jitter: int :| 0 <= jitter < backoff / 2;
    d := backoff + jitter;
  }

  lemma {:induction false} BaseIsLarge(attempt: nat)
    ensures Base(attempt) >= SECOND
  {
    if attempt > 0 {
      BaseIsLarge(attempt - 1);
    }
  }

  /** The server's wish, as the code computes it; zero when there is none. */
  function WishedSleep(retryAfter: string): int {
    match Atoi(retryAfter)
    case None => 0
    case Some(seconds) => Wrap64(seconds * SECOND)
  }

  lemma AtoiOfDecimal(s: nat)
    ensures Atoi(Decimal(s)) == Atoi("+" + Decimal(s)) == if s < TWO63 then Some(s) else None
    ensures Atoi("-" + Decimal(s)) == if s <= TWO63 then Some(0 - s as int) else None
  {
    DigitsOfDecimal(s);
    assert ("+" + Decimal(s))[1..] == ("-" + Decimal(s))[1..] == Decimal(s);
  }

  /** A wish of `s` seconds is honoured to the second exactly if it fits a duration,
      so is a negative one, and a number beyond 64 bits is no wish at all. */
  lemma WishIsHonouredIff(s: nat)
    ensures WishedSleep(Decimal(s)) == s * 1_000_000_000 <==> s * 1_000_000_000 < TWO63
    ensures WishedSleep("-" + Decimal(s)) == 0 - s * 1_000_000_000 <==> s * 1_000_000_000 <= TWO63
    ensures WishedSleep("+" + Decimal(s)) == WishedSleep(Decimal(s))
    ensures TWO63 < s ==> WishedSleep(Decimal(s)) == WishedSleep("-" + Decimal(s)) == 0
  {
    AtoiOfDecimal(s);
  }

  /** Anything but digits, perhaps after a sign, is no wish. */
  lemma NoWish(retryAfter: string)
    requires retryAfter == "" || (exists i :: 0 < i < |retryAfter| && !IsDigit(retryAfter[i]))
    ensures WishedSleep(retryAfter) == 0
  {
    if retryAfter != "" {
      DigitsIff(retryAfter);
      DigitsIff(retryAfter[1..]);
      var i :| 0 < i < |retryAfter| && !IsDigit(retryAfter[i]);
      assert !IsDigit(retryAfter[1..][i - 1]);
    }
  }

  predicate Retried(r: SendResult) {
    r.SendError? || r.response.status == TOO_MANY_REQUESTS
  }

  /** The sleep that belongs to send number `attempt`: what the server wished for,
      or else the default, and none once the request is known to be canceled. */
  predicate NapFits(r: SendResult, attempt: nat, nap: Nap) {
    && Retried(r)
    && (r.SendError? ==> !nap.began.Canceled?)
    && if r.Answered? && WishedSleep(r.response.retryAfter) != 0
       then nap.length == WishedSleep(r.response.retryAfter)
       else Base(attempt) <= nap.length < Base(attempt) + Base(attempt) / 2
  }

  datatype Outcome =
    | Return(resp: Option<Response>, err: Option<Failure>)
    | Retry(resp: Option<Response>, err: Option<Failure>)

  /** What resp and err hold after a send. */
  predicate Reflects(r: SendResult, resp: Option<Response>, err: Option<Failure>) {
    match r
    case SendError => resp == None && err == Some(SendFailed)
    case Answered(response) => resp == Some(response) && err == None
  }

  /** How a turn may end after send `r`, given the sleep it took, if any. */
  predicate TurnEnds(r: SendResult, attempt: nat, nap: Option<Nap>, context: Context, o: Outcome) {
    match o
    case Retry(resp, err) =>
      Reflects(r, resp, err) && nap.Some? && NapFits(r, attempt, nap.value) && !nap.value.cut
    case Return(resp, err) =>
      match err
      case None => !Retried(r) && Reflects(r, resp, err) && nap == None
      case Some(RequestCanceled) => r.SendError? && resp == None && context.Canceled? && nap == None
      case Some(ContextDone) =>
        resp == None && !context.Alive? && nap.Some? && NapFits(r, attempt, nap.value) && nap.value.cut
      case _ => false
  }

  function Listed<T>(o: Option<T>): seq<T> {
    if o.None? then [] else [o.value]
  }

  /** One turn of the loop: a send and, if it is to be retried, a wait. */
  method Attempt(t: Transport, attempt: nat) returns (o: Outcome, ghost r: SendResult, ghost nap: Option<Nap>)
    modifies t
    ensures t.sent == old(t.sent) + [r] && t.naps == old(t.naps) + Listed(nap)
    ensures Later(old(t.context), t.context) && TurnEnds(r, attempt, nap, t.context, o)
  {
    BaseIsLarge(attempt);
    nap := None;
    var sent := t.Send();
    r := sent;
    var sleepTime := 0;
    match sent {
      case SendError =>
        if t.context.Canceled? {
          return Return(None, Some(RequestCanceled)), r, None;
        }
        sleepTime := DefaultBackoff(attempt);
        o := Retry(None, Some(SendFailed));
      case Answered(response) =>
        if response.status != TOO_MANY_REQUESTS {
          return Return(Some(response), None), r, None;
        }
        if response.retryAfter != "" {
          sleepTime := WishedSleep(response.retryAfter);
        }
        if sleepTime == 0 {
          sleepTime := DefaultBackoff(attempt);
        }
        o := Retry(Some(response), None);
    }
    ghost var began := t.context;
    var cut := t.Sleep(sleepTime);
    nap := Some(Nap(sleepTime, began, cut));
    if cut {
      o := Return(None, Some(ContextDone));
    }
  }

  /** What a whole exchange may look like: the sends and the sleeps between them,
      how the context stands at its end, and what the caller gets. */
  ghost predicate Exchanged(sends: seq<SendResult>, naps: seq<Nap>, context: Context,
                            resp: Option<Response>, err: Option<Failure>) {
    && 1 <= |sends| <= 3 && |sends| - 1 <= |naps| <= |sends|
    && (forall i :: 0 <= i < |sends| - 1 ==> Retried(sends[i]))
    && (forall i :: 0 <= i < |naps| ==> NapFits(sends[i], i, naps[i]))
    && (forall i :: 0 <= i < |naps| ==> (naps[i].cut <==> i == |sends| - 1 && err == Some(ContextDone)))
    && var last := sends[|sends| - 1];
       match err
       case None => resp.Some? && last == Answered(resp.value) && (Retried(last) ==> |sends| == 3 == |naps|)
       case Some(SendFailed) => resp == None && last.SendError? && |sends| == 3 == |naps|
       case Some(RequestCanceled) => resp == None && last.SendError? && context.Canceled? && |naps| == |sends| - 1
       case Some(ContextDone) => resp == None && Retried(last) && !context.Alive? && |naps| == |sends|
       case Some(LimiterRefused) => false
  }

  /** The first `n` sends, each retried after its full sleep. */
  ghost predicate AllRetried(sends: seq<SendResult>, naps: seq<Nap>, n: nat) {
    && |sends| == n == |naps|
    && forall i :: 0 <= i < n ==> Retried(sends[i]) && NapFits(sends[i], i, naps[i]) && !naps[i].cut
  }

  lemma TurnCloses(sends: seq<SendResult>, naps: seq<Nap>, attempt: nat, r: SendResult, nap: Option<Nap>,
                   context: Context, o: Outcome)
    requires attempt < 3 && AllRetried(sends, naps, attempt) && TurnEnds(r, attempt, nap, context, o)
    ensures var (ss, ns) := (sends + [r], naps + Listed(nap));
            if o.Return? then Exchanged(ss, ns, context, o.resp, o.err)
            else AllRetried(ss, ns, attempt + 1)
                 && (attempt == 2 ==> forall c: Context :: Exchanged(ss, ns, c, o.resp, o.err))
  {
    var ss, ns := sends + [r], naps + Listed(nap);
    assert forall i :: 0 <= i < attempt ==> ss[i] == sends[i] && ns[i] == naps[i];
    assert ss[attempt] == r && (nap.Some? ==> ns[attempt] == nap.value);
  }

  /** As long as the context lives, the loop goes on exactly until a send is
      neither an error nor a 429, or was the third. */
  lemma LivingContextRetries(sends: seq<SendResult>, naps: seq<Nap>, resp: Option<Response>, err: Option<Failure>)
    requires Exchanged(sends, naps, Alive, resp, err)
    ensures forall i :: 0 <= i < |sends| - 1 ==> sends[i].SendError? || sends[i].response.status == 429
    ensures |sends| == 3 || (sends[|sends| - 1].Answered? && sends[|sends| - 1].response.status != 429)
    ensures Reflects(sends[|sends| - 1], resp, err)
    ensures forall i :: 0 <= i < |naps| ==> !naps[i].cut
  {
    if |naps| == |sends| {
      assert NapFits(sends[|sends| - 1], |sends| - 1, naps[|sends| - 1]);
    }
  }

  /** The part of the sleeps that the server did not ask for. */
  function Unasked(sends: seq<SendResult>, naps: seq<Nap>): int
    requires |naps| <= |sends|
  {
    if naps == [] then 0
    else
      var i := |naps| - 1;
      Unasked(sends, naps[..i])
      + if sends[i].Answered? && WishedSleep(sends[i].response.retryAfter) != 0 then 0 else naps[i].length
  }

  lemma {:induction false} UnaskedBound(sends: seq<SendResult>, naps: seq<Nap>)
    requires |naps| <= |sends| && forall i :: 0 <= i < |naps| ==> NapFits(sends[i], i, naps[i])
    ensures 0 <= Unasked(sends, naps) <= DefaultBudget(|naps|)
    ensures naps != [] ==> Unasked(sends, naps) < DefaultBudget(|naps|)
  {
    if naps != [] {
      var i := |naps| - 1;
      UnaskedBound(sends, naps[..i]);
      BaseIsLarge(i);
      assert NapFits(sends[i], i, naps[i]);
    }
  }

  /** In any exchange the sleep not asked for stays below 10.5 seconds. */
  lemma UnaskedSleepIsShort(sends: seq<SendResult>, naps: seq<Nap>, context: Context,
                            resp: Option<Response>, err: Option<Failure>)
    requires Exchanged(sends, naps, context, resp, err)
    ensures 0 <= 2 * Unasked(sends, naps) < 21_000_000_000
  {
    UnaskedBound(sends, naps);
    BudgetGrows(|naps|, 3);
    BudgetIsTenAndAHalf();
  }

  /** The whole loop.  `admitted` is what the rate limiter says. */
  method DoRequestWithBackoff(t: Transport, admitted: bool) returns (resp: Option<Response>, err: Option<Failure>)
    modifies t
    ensures old(t.sent) <= t.sent && old(t.naps) <= t.naps && Later(old(t.context), t.context)
    ensures if admitted
            then Exchanged(t.sent[|old(t.sent)|..], t.naps[|old(t.naps)|..], t.context, resp, err)
            else t.sent == old(t.sent) && t.naps == old(t.naps) && resp == None && err == Some(LimiterRefused)
  {
    if !admitted {
      return None, Some(LimiterRefused);
    }
    ghost var sends, naps := [], [];
    resp, err := None, None;
    for attempt := 0 to MAX_RETRIES
      invariant t.sent == old(t.sent) + sends && t.naps == old(t.naps) + naps
      invariant Later(old(t.context), t.context)
      invariant AllRetried(sends, naps, attempt)
      invariant attempt > 0 ==> Reflects(sends[attempt - 1], resp, err)
    {
      var o, r, nap := Attempt(t, attempt);
      resp, err := o.resp, o.err;
      TurnCloses(sends, naps, attempt, r, nap, t.context, o);
      sends, naps := sends + [r], naps + Listed(nap);
      assert t.sent == old(t.sent) + sends && t.naps == old(t.naps) + naps;
      if o.Return? {
        return;
      }
    }
  }

  lemma {:induction false} BudgetGrows(a: nat, b: nat)
    requires a <= b
    ensures DefaultBudget(a) <= DefaultBudget(b)
  {
    if a < b {
      BudgetGrows(a, b - 1);
    }
  }

  /** The default waits start at 1, 2 and 4 seconds; with half as much jitter they
      add up to 10.5. */
  lemma BudgetIsTenAndAHalf()
    ensures Base(0) == 1_000_000_000 && Base(1) == 2_000_000_000 && Base(2) == 4_000_000_000
    ensures 2 * DefaultBudget(3) == 21_000_000_000
  {}
}
