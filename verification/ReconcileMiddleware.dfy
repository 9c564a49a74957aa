/** The middleware around every reconcile handler: catching panics, and backing off after errors. */
module ReconcileMiddleware {
  import opened Api

  /** What a handler, or the middleware around it, comes back with. */
  datatype Reply = Returned(retryAfter: int, failed: bool) | Panicked

  datatype Backoff = Backoff(successiveFailures: nat, waitDuration: int)

  const INITIAL_ERROR_WAIT: int := 100_000_000
  const MAX_ERROR_WAIT: int := 60_000_000_000

  /** The wait grows by a factor of 2.03, rounded towards zero to whole nanoseconds. */
  function Grown(wait: int): (w: int) {
    MinInt(MAX_ERROR_WAIT, if wait >= 0 then (wait * 203) / 100 else -((-wait * 203) / 100))
  }

  function NextBackoff(previous: Option<Backoff>, retryAfter: int): (b: Backoff) {
    var wait := if previous.Some? then Grown(previous.value.waitDuration) else INITIAL_ERROR_WAIT;
    Backoff(if previous.Some? then previous.value.successiveFailures + 1 else 1,
            if retryAfter != 0 then MinInt(retryAfter, wait) else wait)
  }

  function Lookup(byUID: map<nat, Backoff>, uid: nat): (b: Option<Backoff>) {
    if uid in byUID then Some(byUID[uid]) else None
  }

  /** The failing set, the reply, and the change in the number of failing objects, after a handler returned. */
  datatype Recorded = Recorded(byUID: map<nat, Backoff>, retryAfter: int, change: int)

  function Record(byUID: map<nat, Backoff>, uid: nat, retryAfter: int, failed: bool): (r: Recorded) {
    if failed then
      var b := NextBackoff(Lookup(byUID, uid), retryAfter);
      Recorded(byUID[uid := b], MaxInt(retryAfter, b.waitDuration), if uid in byUID then 0 else 1)
    else
      Recorded(byUID - {uid}, retryAfter, if uid in byUID then -1 else 0)
  }

  /** Every stored wait is positive and at most a minute. */
  ghost predicate WaitsInRange(byUID: map<nat, Backoff>) {
    forall u :: u in byUID ==> 0 < byUID[u].waitDuration <= MAX_ERROR_WAIT
  }

  lemma NextBackoffInRange(previous: Option<Backoff>, retryAfter: int)
    requires previous.Some? ==> 0 < previous.value.waitDuration <= MAX_ERROR_WAIT
    requires 0 <= retryAfter
    ensures 0 < NextBackoff(previous, retryAfter).waitDuration <= MAX_ERROR_WAIT
  {
  }

  /** The record after `n` failures in a row of a handler that has no wish about the retry. */
  function AfterFailures(n: nat): (b: Backoff)
    requires n >= 1
    ensures b.successiveFailures == n && INITIAL_ERROR_WAIT <= b.waitDuration <= MAX_ERROR_WAIT
  {
    NextBackoff(if n == 1 then None else Some(AfterFailures(n - 1)), 0)
  }

  lemma GrowthStep(n: nat, wait: int, next: int)
    requires n >= 1 && AfterFailures(n).waitDuration == wait && next == Grown(wait)
    ensures AfterFailures(n + 1).waitDuration == next
  {
  }

  lemma FirstTenWaits()
    ensures AfterFailures(10).waitDuration == 58_541_566_726
  {
    GrowthStep(1, 100_000_000, 203_000_000);
    GrowthStep(2, 203_000_000, 412_090_000);
    GrowthStep(3, 412_090_000, 836_542_700);
    GrowthStep(4, 836_542_700, 1_698_181_681);
    GrowthStep(5, 1_698_181_681, 3_447_308_812);
    GrowthStep(6, 3_447_308_812, 6_998_036_888);
    GrowthStep(7, 6_998_036_888, 14_206_014_882);
    GrowthStep(8, 14_206_014_882, 28_838_210_210);
    GrowthStep(9, 28_838_210_210, 58_541_566_726);
  }

  lemma {:induction false} WaitsIncrease(m: nat, n: nat)
    requires 1 <= m <= n
    ensures AfterFailures(m).waitDuration <= AfterFailures(n).waitDuration
    ensures m < n && AfterFailures(m).waitDuration < MAX_ERROR_WAIT ==>
      AfterFailures(m).waitDuration < AfterFailures(n).waitDuration
    decreases n
  {
    if m < n {
      WaitsIncrease(m, n - 1);
    }
  }

  /** The wait grows strictly with every failure, and is a minute from the tenth failure after the first on. */
  lemma BackoffReachesAMinute(n: nat)
    requires n >= 1
    ensures AfterFailures(n).waitDuration == MAX_ERROR_WAIT <==> n >= 11
    ensures n <= 10 ==> AfterFailures(n).waitDuration < AfterFailures(n + 1).waitDuration
  {
    FirstTenWaits();
    GrowthStep(10, 58_541_566_726, MAX_ERROR_WAIT);
    if n <= 10 {
      WaitsIncrease(n, 10);
      WaitsIncrease(n, n + 1);
    } else {
      WaitsIncrease(11, n);
    }
  }

  /** The waits of successive failures, each grown with a product that may be off by a nanosecond. */
  ghost predicate RoundedWaits(waits: seq<int>) {
    && (waits != [] ==> waits[0] == INITIAL_ERROR_WAIT)
    && forall i :: 0 <= i < |waits| - 1 ==> IsRounded(waits[i], waits[i + 1])
  }

  predicate IsRounded(wait: int, next: int) {
    MinInt(MAX_ERROR_WAIT, (wait * 203) / 100 - 1) <= next <= MinInt(MAX_ERROR_WAIT, (wait * 203) / 100 + 1)
  }

  lemma RoundedStep(waits: seq<int>, i: nat, lo: int, hi: int)
    requires RoundedWaits(waits) && i + 1 < |waits| && lo <= waits[i] <= hi
    requires (hi * 203) / 100 + 1 < MAX_ERROR_WAIT
    ensures (lo * 203) / 100 - 1 <= waits[i + 1] <= (hi * 203) / 100 + 1
  {
    assert IsRounded(waits[i], waits[i + 1]);
  }

  lemma TenthRoundedWait(waits: seq<int>)
    requires RoundedWaits(waits) && |waits| >= 10
    ensures 58_541_565_923 <= waits[9] <= 58_541_567_269
  {
    RoundedStep(waits, 0, 100_000_000, 100_000_000);
    RoundedStep(waits, 1, 202_999_999, 203_000_001);
    RoundedStep(waits, 2, 412_089_996, 412_090_003);
    RoundedStep(waits, 3, 836_542_690, 836_542_707);
    RoundedStep(waits, 4, 1_698_181_659, 1_698_181_696);
    RoundedStep(waits, 5, 3_447_308_766, 3_447_308_843);
    RoundedStep(waits, 6, 6_998_036_793, 6_998_036_952);
    RoundedStep(waits, 7, 14_206_014_688, 14_206_015_013);
    RoundedStep(waits, 8, 28_838_209_815, 28_838_210_477);
  }

  lemma {:induction false} RoundedWaitsIncrease(waits: seq<int>, i: nat, j: nat)
    requires RoundedWaits(waits) && i <= j < |waits|
    ensures INITIAL_ERROR_WAIT <= waits[i] <= waits[j] <= MAX_ERROR_WAIT
    ensures i < j && waits[i] < MAX_ERROR_WAIT ==> waits[i] < waits[j]
    decreases j
  {
    if j > 0 {
      RoundedWaitsIncrease(waits, if i < j then i else j - 1, j - 1);
      assert IsRounded(waits[j - 1], waits[j]);
    }
  }

  /** The same with rounding: the wait grows strictly until it is a minute, exactly from the eleventh failure on. */
  lemma RoundedBackoffReachesAMinute(waits: seq<int>, n: nat)
    requires RoundedWaits(waits) && 1 <= n <= |waits|
    ensures waits[n - 1] == MAX_ERROR_WAIT <==> n >= 11
    ensures n <= 10 && n < |waits| ==> waits[n - 1] < waits[n]
  {
    var more := if |waits| >= 10 then waits else Continued(waits);
    TenthRoundedWait(more);
    if n <= 10 {
      RoundedWaitsIncrease(more, n - 1, 9);
      if n < |waits| {
        RoundedWaitsIncrease(waits, n - 1, n);
      }
    } else {
      assert IsRounded(waits[9], waits[10]);
      RoundedWaitsIncrease(waits, 10, n - 1);
    }
  }

  ghost function Continued(waits: seq<int>): (more: seq<int>)
    requires RoundedWaits(waits) && waits != [] && |waits| <= 10
    ensures RoundedWaits(more) && waits <= more && |more| == 10
    decreases 10 - |waits|
  {
    if |waits| == 10 then waits
    else
      var next := Grown(waits[|waits| - 1]);
      Continued(waits + [next])
  }

  lemma ChangeIsCounted(byUID: map<nat, Backoff>, uid: nat, retryAfter: int, failed: bool)
    ensures |Record(byUID, uid, retryAfter, failed).byUID| == |byUID| + Record(byUID, uid, retryAfter, failed).change
  {
    var b := NextBackoff(Lookup(byUID, uid), retryAfter);
    assert byUID[uid := b].Keys == byUID.Keys + {uid};
    assert uid in byUID ==> byUID.Keys + {uid} == byUID.Keys;
    var rest := byUID - {uid};
    assert rest.Keys == byUID.Keys - {uid};
  }

  /**
   * After an error the object is recorded as failing with a wait in range and a positive retry time; after
   * a success it is not recorded; the change is exactly the change in the number of failing objects.
   */
  lemma RecordFacts(byUID: map<nat, Backoff>, uid: nat, retryAfter: int, failed: bool)
    requires WaitsInRange(byUID) && (failed ==> 0 <= retryAfter)
    ensures var r := Record(byUID, uid, retryAfter, failed);
      && WaitsInRange(r.byUID)
      && (uid in r.byUID <==> failed)
      && (forall u :: u != uid ==> (u in r.byUID <==> u in byUID) && (u in byUID ==> r.byUID[u] == byUID[u]))
      && (failed ==> r.retryAfter > 0 && r.retryAfter >= retryAfter && r.retryAfter >= r.byUID[uid].waitDuration)
      && (!failed ==> r.retryAfter == retryAfter)
      && |r.byUID| == |byUID| + r.change
  {
    if failed {
      NextBackoffInRange(Lookup(byUID, uid), retryAfter);
    }
    ChangeIsCounted(byUID, uid, retryAfter, failed);
  }

  /** The stored waits stay in range if and only if no error comes with a negative retry time. */
  lemma RangeIsKeptIff(byUID: map<nat, Backoff>, uid: nat, retryAfter: int, failed: bool)
    requires WaitsInRange(byUID)
    ensures WaitsInRange(Record(byUID, uid, retryAfter, failed).byUID) <==> (failed ==> 0 <= retryAfter)
  {
    if failed ==> 0 <= retryAfter {
      RecordFacts(byUID, uid, retryAfter, failed);
    } else {
      assert Record(byUID, uid, retryAfter, failed).byUID[uid].waitDuration <= retryAfter;
    }
  }

  /** After an error with a negative retry time, the next error or panic without a wish asks for no retry at all. */
  lemma NegativeRetryLosesTheNext(byUID: map<nat, Backoff>, uid: nat, retryAfter: int)
    requires retryAfter < 0
    ensures var second := Record(Record(byUID, uid, retryAfter, true).byUID, uid, 0, true);
      second.retryAfter == 0 && uid in second.byUID
  {
    var wait := Record(byUID, uid, retryAfter, true).byUID[uid].waitDuration;
    assert wait <= retryAfter;
    assert Grown(wait) < 0;
  }

  /** A negative retry time comes back negative, with an error or not. */
  lemma NegativeRetryStaysNegative(byUID: map<nat, Backoff>, uid: nat, retryAfter: int, failed: bool)
    requires retryAfter < 0 && WaitsInRange(byUID)
    ensures Record(byUID, uid, retryAfter, failed).retryAfter < 0
  {
  }

  // ---- the replies over any sequence of calls ---------------------------------------------------

  /** A call for an object of the type, with what its handler came back with. */
  datatype Call = Call(uid: nat, retryAfter: int, failed: bool)

  /** The failing objects after the calls, and the reply to the last of them. */
  function After(calls: seq<Call>): (byUID: map<nat, Backoff>)
    decreases |calls|, 1
  {
    if calls == [] then map[] else LastOf(calls).byUID
  }

  function LastOf(calls: seq<Call>): (r: Recorded)
    requires calls != []
    decreases |calls|, 0
  {
    var last := calls[|calls| - 1];
    Record(After(calls[..|calls| - 1]), last.uid, last.retryAfter, last.failed)
  }

  /** The wishes that came with an object's failures since its last success. */
  function Streak(calls: seq<Call>, uid: nat): (wishes: seq<int>) {
    if calls == [] then []
    else
      var last, before := calls[|calls| - 1], Streak(calls[..|calls| - 1], uid);
      if last.uid != uid then before
      else if last.failed then before + [last.retryAfter]
      else []
  }

  predicate NoWish(wishes: seq<int>) {
    forall i :: 0 <= i < |wishes| ==> wishes[i] == 0
  }

  /** An object is recorded exactly while its last call failed, with the number of failures since its last success. */
  lemma {:induction false} StreakIsRecorded(calls: seq<Call>, uid: nat)
    ensures var b, wishes := Lookup(After(calls), uid), Streak(calls, uid);
      && (b.Some? <==> wishes != [])
      && (b.Some? ==> b.value.successiveFailures == |wishes|)
      && (wishes != [] && NoWish(wishes) ==> b == Some(AfterFailures(|wishes|)))
  {
    if calls != [] {
      var before := calls[..|calls| - 1];
      StreakIsRecorded(before, uid);
      var wishes, last := Streak(before, uid), calls[|calls| - 1];
      assert NoWish(wishes + [last.retryAfter]) ==> (wishes + [last.retryAfter])[|wishes|] == 0;
      assert NoWish(wishes + [last.retryAfter]) ==> NoWish(wishes) by {
        assert forall i :: 0 <= i < |wishes| ==> wishes[i] == (wishes + [last.retryAfter])[i];
      }
    }
  }

  /**
   * The reply to a failure, after any calls for any objects: without a wish since the last success it is exactly the
   * n-th wait of the backoff, n being the number of failures in a row; with a wish for later it is exactly that wish,
   * however long or short the backoff is. A success comes back with its own wish.
   */
  lemma ReplyIsExact(calls: seq<Call>)
    requires calls != []
    ensures var last, reply := calls[|calls| - 1], LastOf(calls).retryAfter;
      var wishes := Streak(calls, last.uid);
      && (last.failed && NoWish(wishes) ==> wishes != [] && reply == AfterFailures(|wishes|).waitDuration <= MAX_ERROR_WAIT)
      && (last.failed && last.retryAfter > 0 ==> reply == last.retryAfter)
      && (!last.failed ==> reply == last.retryAfter)
  {
    var last := calls[|calls| - 1];
    StreakIsRecorded(calls, last.uid);
    if last.failed {
      assert Streak(calls, last.uid)[|Streak(calls, last.uid)| - 1] == last.retryAfter;
    }
  }

  lemma FailureReply(byUID: map<nat, Backoff>, uid: nat, wish: int, n: nat)
    requires n >= 1
    ensures wish == 0 && Lookup(byUID, uid) == (if n == 1 then None else Some(AfterFailures(n - 1))) ==>
      Record(byUID, uid, wish, true).retryAfter == AfterFailures(n).waitDuration
    ensures wish > 0 ==> Record(byUID, uid, wish, true).retryAfter == wish
  {
  }

  /** A wish for later also shortens the backoff it meets: the next failure without one waits 2.03 times the shorter of the two. */
  lemma WishShortensBackoff(byUID: map<nat, Backoff>, uid: nat, wish: int)
    requires WaitsInRange(byUID) && wish > 0
    ensures var backoff := if uid in byUID then Grown(byUID[uid].waitDuration) else INITIAL_ERROR_WAIT;
      var first := Record(byUID, uid, wish, true);
      var second := Record(first.byUID, uid, 0, true);
      && first.retryAfter == wish
      && second.retryAfter == MinInt(MAX_ERROR_WAIT, MinInt(wish, backoff) * 203 / 100)
  {
  }

  class ErrorBackoffMiddleware {
    var globalFailing: int
    var byType: map<nat, map<nat, Backoff>>

    constructor (types: seq<nat>)
      ensures globalFailing == 0
      ensures byType.Keys == (set t | t in types) && forall t :: t in byType ==> byType[t] == map[]
    {
      globalFailing := 0;
      byType := map t | t in types :: map[];
    }

    /** What happens once the wrapped handler has returned; unknown types panic, which gives None. */
    method Call(gvk: nat, uid: nat, retryAfter: int, failed: bool) returns (r: Option<int>)
      modifies this
      ensures gvk !in byType ==> r.None? && byType == old(byType) && globalFailing == old(globalFailing)
      ensures gvk in old(byType) ==>
        var rec := Record(old(byType)[gvk], uid, retryAfter, failed);
        && r == Some(rec.retryAfter)
        && byType == old(byType)[gvk := rec.byUID]
        && globalFailing == old(globalFailing) + rec.change
    {
      if gvk !in byType {
        return None;
      }
      var typed := byType[gvk];
      var wasFailing := uid in typed;
      var retry, change := retryAfter, 0;
      if failed {
        var b := if wasFailing then typed[uid] else Backoff(0, 0);
        b := b.(successiveFailures := b.successiveFailures + 1);
        if wasFailing {
          b := b.(waitDuration := Grown(b.waitDuration));
        } else {
          b := b.(waitDuration := INITIAL_ERROR_WAIT);
        }
        if retry != 0 {
          b := b.(waitDuration := MinInt(retry, b.waitDuration));
        }
        retry := MaxInt(retry, b.waitDuration);
        typed := typed[uid := b];
        if !wasFailing {
          change := 1;
        }
      } else {
        typed := typed - {uid};
        if wasFailing {
          change := -1;
        }
      }
      byType := byType[gvk := typed];
      if change != 0 {
        globalFailing := globalFailing + change;
      }
      return Some(retry);
    }
  }

  // ---- the chain --------------------------------------------------------------------------------

  /** Custom stands for any further middleware, as what it makes of the reply of what it wraps. */
  datatype Middleware = Log | ErrorBackoff | CatchPanic | Custom(f: Reply -> Reply)

  /** The composed handler: each layer together with what it wraps. */
  datatype Chain = Handler | Wrap(outer: Middleware, inner: Chain)

  function Nested(middleware: seq<Middleware>): (c: Chain) {
    if middleware == [] then Handler else Wrap(middleware[0], Nested(middleware[1..]))
  }

  /** The first middleware of the list ends up outermost. */
  method ApplyMiddleware(middleware: seq<Middleware>) returns (f: Chain)
    ensures f == Nested(middleware)
  {
    f := Handler;
    var i := |middleware|;
    while i > 0
      invariant 0 <= i <= |middleware|
      invariant f == Nested(middleware[i..])
    {
      i := i - 1;
      f := Wrap(middleware[i], f);
    }
  }

  /** Running the chain around a handler that gives `base`, with the failing objects of the handler's type. */
  function Run(c: Chain, byUID: map<nat, Backoff>, uid: nat, base: Reply): (r: (map<nat, Backoff>, Reply)) {
    match c
    case Handler => (byUID, base)
    case Wrap(outer, inner) =>
      var (byUID', reply) := Run(inner, byUID, uid, base);
      match outer
      case Log => (byUID', reply)
      case CatchPanic => (byUID', if reply.Panicked? then Returned(0, true) else reply)
      case Custom(f) => (byUID', f(reply))
      case ErrorBackoff =>
        if reply.Panicked? then (byUID', reply)
        else
          var rec := Record(byUID', uid, reply.retryAfter, reply.failed);
          (rec.byUID, Returned(rec.retryAfter, reply.failed))
  }

  /** No error comes with a negative retry time. */
  ghost predicate Nonnegative(r: Reply) {
    r.Returned? && r.failed ==> r.retryAfter >= 0
  }

  ghost predicate KeepsNonnegative(m: Middleware) {
    m.Custom? && forall r: Reply :: Nonnegative(r) ==> Nonnegative(m.f(r))
  }

  lemma {:induction false} CustomLayers(ms: seq<Middleware>, byUID: map<nat, Backoff>, uid: nat, base: Reply)
    requires Nonnegative(base) && forall i :: 0 <= i < |ms| ==> KeepsNonnegative(ms[i])
    ensures Run(Nested(ms), byUID, uid, base).0 == byUID
    ensures Nonnegative(Run(Nested(ms), byUID, uid, base).1)
  {
    if ms != [] {
      CustomLayers(ms[1..], byUID, uid, base);
      assert KeepsNonnegative(ms[0]);
    }
  }

  /**
   * Whatever the handler does, the queue gets a reply and never a panic. If the layers inside the panic
   * catcher fail or panic then the object is recorded as failing and will be retried, after exactly the time that the
   * backoff gives to an error with that wish, or to one without a wish for a panic; otherwise it is not recorded any more.
   */
  lemma FailureIsRetried(custom: seq<Middleware>, byUID: map<nat, Backoff>, uid: nat, base: Reply)
    requires WaitsInRange(byUID) && Nonnegative(base)
    requires forall i :: 0 <= i < |custom| ==> KeepsNonnegative(custom[i])
    ensures var inside := Run(Nested(custom), byUID, uid, base).1;
      var (byUID', reply) := Run(Nested([Log, ErrorBackoff, CatchPanic] + custom), byUID, uid, base);
      && reply.Returned? && WaitsInRange(byUID')
      && (reply.failed <==> inside.Panicked? || inside.failed)
      && (reply.failed ==> reply.retryAfter > 0 && uid in byUID')
      && (!reply.failed ==> reply.retryAfter == inside.retryAfter && uid !in byUID')
      && var rec := Record(byUID, uid, if inside.Panicked? then 0 else inside.retryAfter, reply.failed);
         reply.retryAfter == rec.retryAfter && byUID' == rec.byUID
  {
    CustomLayers(custom, byUID, uid, base);
    var inside := Run(Nested(custom), byUID, uid, base).1;
    var all := [Log, ErrorBackoff, CatchPanic] + custom;
    assert all[1..] == [ErrorBackoff, CatchPanic] + custom;
    assert all[1..][1..] == [CatchPanic] + custom;
    assert all[1..][1..][1..] == custom;
    var caught := if inside.Panicked? then Returned(0, true) else inside;
    assert Run(Nested([CatchPanic] + custom), byUID, uid, base) == (byUID, caught);
    RecordFacts(byUID, uid, caught.retryAfter, caught.failed);
  }
}
