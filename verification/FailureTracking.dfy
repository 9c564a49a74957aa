/**
 * The queue together with the backoff middleware, over every interleaving of reconciles: an object that is
 * recorded as failing is never abandoned, and the count of failing objects is right whenever no call is in
 * the middle of changing it.
 */
module FailureTracking {
  import opened Api
  import opened ReconcileQueue
  import M = ReconcileMiddleware
  import Q = QueueSafety

  /** The failing objects of one type. The call that holds the type's lock still has `change` to count. */
  datatype Typed = Typed(byUID: map<nat, M.Backoff>, holder: Option<nat>, change: int)

  /** Where a reconcile is: its handler runs, it holds the lock of its type, or it is about to finish. */
  datatype Stage = Handling | Counting(retryAfter: int) | Ready(retryAfter: int)

  datatype System = System(
    s: Q.System,
    types: seq<nat>,
    byType: map<nat, Typed>,
    globalFailing: int,
    stage: map<nat, Stage>)

  datatype Event =
    | Enqueue(v: Value)
    | HandOut(h: nat, now: int)
    | Return(c: nat, reply: M.Reply)
    | Count(c: nat)
    | Finish(c: nat, now: int)

  function Start(types: seq<nat>): (t: System) {
    System(Q.START, types, map g | g in types :: Typed(map[], None, 0), 0, map[])
  }

  /** A handler that panicked was turned into one that failed without a wish about the retry. */
  function Caught(reply: M.Reply): (r: M.Reply) {
    if reply.Panicked? then M.Returned(0, true) else reply
  }

  function FinishEvent(t: System, c: nat, now: int): (e: Q.Event)
    requires c in t.stage && t.stage[c].Ready?
  {
    Q.Finished(c, t.stage[c].retryAfter != 0, now + t.stage[c].retryAfter)
  }

  predicate Enabled(t: System, e: Event) {
    match e
    case Enqueue(v) => v.obj.key.gvk in t.byType && Q.QueueAfter(t.s, Q.Enqueued(v)).Ok?
    case HandOut(h, now) => Q.Enabled(t.s, Q.HandedOut(h, now))
    case Return(c, reply) =>
      && c in t.stage && t.stage[c] == Handling && c in t.s.running
      && t.s.running[c].k.gvk in t.byType && t.byType[t.s.running[c].k.gvk].holder.None?
      && (reply.Returned? && reply.failed ==> reply.retryAfter >= 0)
    case Count(c) =>
      c in t.stage && t.stage[c].Counting? && c in t.s.running && t.s.running[c].k.gvk in t.byType
    case Finish(c, now) =>
      && c in t.stage && t.stage[c].Ready? && c in t.s.running
      && Q.QueueAfter(t.s, FinishEvent(t, c, now)).Ok?
  }

  function After(t: System, e: Event): (t': System)
    requires Enabled(t, e)
  {
    match e
    case Enqueue(v) => t.(s := Q.After(t.s, Q.Enqueued(v)))
    case HandOut(h, now) =>
      t.(s := Q.After(t.s, Q.HandedOut(h, now)), stage := t.stage[t.s.nextCallback := Handling])
    case Return(c, reply) =>
      var k := t.s.running[c].k;
      var r := Caught(reply);
      var rec := M.Record(t.byType[k.gvk].byUID, k.uid, r.retryAfter, r.failed);
      t.(byType := t.byType[k.gvk := Typed(rec.byUID, Some(c), rec.change)], stage := t.stage[c := Counting(rec.retryAfter)])
    case Count(c) =>
      var g := t.s.running[c].k.gvk;
      t.(globalFailing := t.globalFailing + t.byType[g].change,
         byType := t.byType[g := t.byType[g].(holder := None, change := 0)],
         stage := t.stage[c := Ready(t.stage[c].retryAfter)])
    case Finish(c, now) =>
      t.(s := Q.After(t.s, FinishEvent(t, c, now)), stage := t.stage - {c})
  }

  // ---- counting ---------------------------------------------------------------------------------

  ghost predicate Distinct(types: seq<nat>) {
    forall i, j :: 0 <= i < j < |types| ==> types[i] != types[j]
  }

  /** The failing objects of the given types that have been counted already. */
  function Counted(types: seq<nat>, byType: map<nat, Typed>): (n: int)
    requires forall i :: 0 <= i < |types| ==> types[i] in byType
  {
    if types == [] then 0
    else |byType[types[0]].byUID| - byType[types[0]].change + Counted(types[1..], byType)
  }

  lemma {:induction false} CountedAfterUpdate(types: seq<nat>, byType: map<nat, Typed>, g: nat, typed: Typed)
    requires Distinct(types) && forall i :: 0 <= i < |types| ==> types[i] in byType
    requires g in byType
    ensures Counted(types, byType[g := typed]) ==
      if g in types
      then Counted(types, byType) - (|byType[g].byUID| - byType[g].change) + (|typed.byUID| - typed.change)
      else Counted(types, byType)
  {
    if types != [] {
      CountedAfterUpdate(types[1..], byType, g, typed);
      assert g in types <==> g == types[0] || g in types[1..];
    }
  }

  // ---- the invariant ----------------------------------------------------------------------------

  ghost predicate TypesOk(t: System) {
    && Distinct(t.types)
    && (forall g :: g in t.byType <==> g in t.types)
    && (forall k :: k in t.s.q.queued || k in t.s.q.ongoing ==> k.gvk in t.byType)
  }

  ghost predicate StagesOk(t: System) {
    && (forall c :: c in t.stage <==> c in t.s.running)
    && (forall c :: c in t.stage && t.stage[c].Counting? ==>
          t.s.running[c].k.gvk in t.byType && t.byType[t.s.running[c].k.gvk].holder == Some(c))
    && (forall g :: g in t.byType && t.byType[g].holder.Some? ==>
          var c := t.byType[g].holder.value;
          c in t.stage && t.stage[c].Counting? && t.s.running[c].k.gvk == g)
    && (forall g :: g in t.byType && t.byType[g].holder.None? ==> t.byType[g].change == 0)
  }

  ghost predicate IsFailing(t: System, k: Key) {
    k.gvk in t.byType && k.uid in t.byType[k.gvk].byUID
  }

  ghost predicate FailuresOk(t: System) {
    && (forall g :: g in t.byType ==> M.WaitsInRange(t.byType[g].byUID))
    && (forall k :: IsFailing(t, k) ==> k in t.s.q.queued || k in t.s.q.ongoing)
    && (forall c :: c in t.stage && c in t.s.running && !t.stage[c].Handling? && IsFailing(t, t.s.running[c].k) ==>
          t.stage[c].retryAfter > 0)
  }

  ghost predicate CountOk(t: System)
    requires TypesOk(t)
  {
    t.globalFailing == Counted(t.types, t.byType)
  }

  ghost predicate Inv(t: System) {
    Q.Inv(t.s) && TypesOk(t) && StagesOk(t) && FailuresOk(t) && CountOk(t)
  }

  // ---- one event --------------------------------------------------------------------------------

  /** Enqueueing adds at most the key of the enqueued object, and takes none away. */
  lemma EnqueueQueues(q: QueueState, k: Key, v: Value)
    requires Q.HandlesAgree(q) && Q.Separated(q) && ReconcileQueue.Enqueue(q, k, v).Ok?
    ensures var q' := ReconcileQueue.Enqueue(q, k, v).q;
      && q'.ongoing == q.ongoing
      && forall k' :: k' in q'.queued <==> k' in q.queued || (k' == k && k !in q.ongoing)
  {
    Q.EnqueueKeepsQueue(q, k, v);
    Q.EnqueueKeepsNewest(q, k, v);
    forall k' | k' != k
      ensures k' in q.queued <==> k' in ReconcileQueue.Enqueue(q, k, v).q.queued
    {
      Q.EnqueueKeepsOthers(q, k, v, k');
    }
  }

  lemma EnqueueKeepsRest(t: System, v: Value)
    requires TypesOk(t) && StagesOk(t) && FailuresOk(t) && CountOk(t) && Enabled(t, Enqueue(v))
    requires var q, q' := t.s.q, After(t, Enqueue(v)).s.q;
      && q'.ongoing == q.ongoing
      && forall k :: k in q'.queued <==> k in q.queued || (k == v.obj.key && k !in q.ongoing)
    ensures var t' := After(t, Enqueue(v)); TypesOk(t') && StagesOk(t') && FailuresOk(t') && CountOk(t')
  {
    var t' := After(t, Enqueue(v));
    assert forall k :: IsFailing(t', k) <==> IsFailing(t, k);
  }

  lemma EnqueueKeepsInv(t: System, v: Value)
    requires Inv(t) && Enabled(t, Enqueue(v))
    ensures Inv(After(t, Enqueue(v)))
  {
    Q.EventKeepsInv(t.s, Q.Enqueued(v));
    EnqueueQueues(t.s.q, v.obj.key, v);
    EnqueueKeepsRest(t, v);
  }

  lemma HandOutKeepsStages(t: System, h: nat, now: int)
    requires Q.OneEach(t.s) && StagesOk(t) && Enabled(t, HandOut(h, now))
    ensures StagesOk(After(t, HandOut(h, now)))
  {
  }

  lemma HandOutKeepsFailures(t: System, h: nat, now: int)
    requires Q.HandlesAgree(t.s.q) && Q.OneEach(t.s) && TypesOk(t) && FailuresOk(t) && Enabled(t, HandOut(h, now))
    ensures TypesOk(After(t, HandOut(h, now))) && FailuresOk(After(t, HandOut(h, now)))
  {
    var t' := After(t, HandOut(h, now));
    assert forall k :: k in t.s.q.queued && k != t.s.q.items[h].k ==> k in t'.s.q.queued;
    assert forall k :: IsFailing(t', k) <==> IsFailing(t, k);
  }

  lemma HandOutKeepsInv(t: System, h: nat, now: int)
    requires Inv(t) && Enabled(t, HandOut(h, now))
    ensures Inv(After(t, HandOut(h, now)))
  {
    Q.EventKeepsInv(t.s, Q.HandedOut(h, now));
    HandOutKeepsStages(t, h, now);
    HandOutKeepsFailures(t, h, now);
  }

  /** What the handler's reply records about its own object, and what it leaves alone. */
  lemma ReturnFacts(t: System, c: nat, reply: M.Reply)
    requires FailuresOk(t) && Enabled(t, Return(c, reply))
    ensures var t' := After(t, Return(c, reply));
      var k := t.s.running[c].k;
      && (forall g :: g in t'.byType ==> M.WaitsInRange(t'.byType[g].byUID))
      && (IsFailing(t', k) <==> Caught(reply).failed)
      && (Caught(reply).failed ==> t'.stage[c].retryAfter > 0)
      && (forall k' :: k' != k ==> (IsFailing(t', k') <==> IsFailing(t, k')))
  {
    var k := t.s.running[c].k;
    var r := Caught(reply);
    M.RecordFacts(t.byType[k.gvk].byUID, k.uid, r.retryAfter, r.failed);
  }

  lemma ReturnKeepsStages(t: System, c: nat, reply: M.Reply)
    requires StagesOk(t) && Enabled(t, Return(c, reply))
    ensures StagesOk(After(t, Return(c, reply)))
  {
  }

  lemma ReturnKeepsFailures(t: System, c: nat, reply: M.Reply)
    requires Q.OneEach(t.s) && FailuresOk(t) && Enabled(t, Return(c, reply))
    requires t.s.running[c].k in t.s.q.ongoing
    ensures FailuresOk(After(t, Return(c, reply)))
  {
    ReturnFacts(t, c, reply);
    var t' := After(t, Return(c, reply));
    var k := t.s.running[c].k;
    forall c' | c' in t'.stage && c' in t'.s.running && !t'.stage[c'].Handling? && IsFailing(t', t'.s.running[c'].k)
      ensures t'.stage[c'].retryAfter > 0
    {
      if c' != c {
        assert t.s.running[c'].k != k;
        assert IsFailing(t, t.s.running[c'].k);
      }
    }
  }

  lemma ReturnKeepsInv(t: System, c: nat, reply: M.Reply)
    requires Inv(t) && Enabled(t, Return(c, reply))
    ensures Inv(After(t, Return(c, reply)))
  {
    ReturnKeepsStages(t, c, reply);
    ReturnKeepsFailures(t, c, reply);
    ReturnKeepsCount(t, c, reply);
  }

  lemma ReturnKeepsCount(t: System, c: nat, reply: M.Reply)
    requires TypesOk(t) && StagesOk(t) && CountOk(t) && Enabled(t, Return(c, reply))
    ensures TypesOk(After(t, Return(c, reply))) && CountOk(After(t, Return(c, reply)))
  {
    var k := t.s.running[c].k;
    M.ChangeIsCounted(t.byType[k.gvk].byUID, k.uid, Caught(reply).retryAfter, Caught(reply).failed);
    CountedAfterUpdate(t.types, t.byType, k.gvk, After(t, Return(c, reply)).byType[k.gvk]);
  }

  lemma CountKeepsStages(t: System, c: nat)
    requires StagesOk(t) && Enabled(t, Count(c))
    ensures StagesOk(After(t, Count(c)))
  {
  }

  lemma CountKeepsFailures(t: System, c: nat)
    requires FailuresOk(t) && Enabled(t, Count(c))
    ensures FailuresOk(After(t, Count(c)))
  {
    var t' := After(t, Count(c));
    assert forall k :: IsFailing(t', k) <==> IsFailing(t, k);
  }

  lemma CountKeepsInv(t: System, c: nat)
    requires Inv(t) && Enabled(t, Count(c))
    ensures Inv(After(t, Count(c)))
  {
    CountKeepsStages(t, c);
    CountKeepsFailures(t, c);
    CountKeepsCount(t, c);
  }

  lemma CountKeepsCount(t: System, c: nat)
    requires TypesOk(t) && CountOk(t) && Enabled(t, Count(c))
    ensures TypesOk(After(t, Count(c))) && CountOk(After(t, Count(c)))
  {
    var g := t.s.running[c].k.gvk;
    CountedAfterUpdate(t.types, t.byType, g, After(t, Count(c)).byType[g]);
  }

  lemma FinishKeepsStages(t: System, c: nat, now: int)
    requires StagesOk(t) && Enabled(t, Finish(c, now))
    ensures StagesOk(After(t, Finish(c, now)))
  {
  }

  lemma FinishKeepsFailures(t: System, c: nat, now: int)
    requires TypesOk(t) && FailuresOk(t) && Enabled(t, Finish(c, now)) && t.s.running[c].k in t.s.q.ongoing
    ensures TypesOk(After(t, Finish(c, now))) && FailuresOk(After(t, Finish(c, now)))
  {
    var t' := After(t, Finish(c, now));
    var retry := t.stage[c].retryAfter;
    var kv := t.s.running[c];
    FinishQueues(t.s.q, kv.k, Q.Retried(kv.v, retry != 0, now + retry), retry != 0);
    assert forall k :: IsFailing(t', k) <==> IsFailing(t, k);
  }

  lemma FinishKeepsQueueInv(t: System, c: nat, now: int)
    requires Q.Inv(t.s) && Enabled(t, Finish(c, now))
    ensures Q.Inv(After(t, Finish(c, now)).s)
  {
    var e := FinishEvent(t, c, now);
    Q.EventKeepsInv(t.s, e);
    var s' := Q.After(t.s, e);
    assert Q.Inv(s');
  }

  lemma FinishKeepsCount(t: System, c: nat, now: int)
    requires TypesOk(t) && CountOk(t) && Enabled(t, Finish(c, now)) && TypesOk(After(t, Finish(c, now)))
    ensures CountOk(After(t, Finish(c, now)))
  {
  }

  lemma FinishKeepsInv(t: System, c: nat, now: int)
    requires Inv(t) && Enabled(t, Finish(c, now))
    ensures Inv(After(t, Finish(c, now)))
  {
    FinishKeepsQueueInv(t, c, now);
    FinishKeepsStages(t, c, now);
    FinishKeepsFailures(t, c, now);
    FinishKeepsCount(t, c, now);
  }

  /** A finished key is queued again if it is to be retried; the other keys stay where they are. */
  lemma FinishQueues(q: QueueState, k: Key, v: Value, requeue: bool)
    requires FinishAndMaybeRequeue(q, k, v, requeue).Ok?
    ensures var q' := FinishAndMaybeRequeue(q, k, v, requeue).q;
      && (requeue ==> k in q'.queued)
      && (forall k' :: k' != k ==> (k' in q'.queued <==> k' in q.queued) && (k' in q'.ongoing <==> k' in q.ongoing))
  {
  }

  lemma EventKeepsInv(t: System, e: Event)
    requires Inv(t) && Enabled(t, e)
    ensures Inv(After(t, e))
  {
    match e
    case Enqueue(v) => EnqueueKeepsInv(t, v);
    case HandOut(h, now) => HandOutKeepsInv(t, h, now);
    case Return(c, reply) => ReturnKeepsInv(t, c, reply);
    case Count(c) => CountKeepsInv(t, c);
    case Finish(c, now) => FinishKeepsInv(t, c, now);
  }

  // ---- whole runs -------------------------------------------------------------------------------

  ghost predicate ValidRun(t: System, events: seq<Event>)
    decreases |events|
  {
    events != [] ==> Enabled(t, events[0]) && ValidRun(After(t, events[0]), events[1..])
  }

  function Exec(t: System, events: seq<Event>): (t': System)
    requires ValidRun(t, events)
    decreases |events|
  {
    if events == [] then t else Exec(After(t, events[0]), events[1..])
  }

  lemma {:induction false} RunKeepsInv(t: System, events: seq<Event>)
    requires Inv(t) && ValidRun(t, events)
    ensures Inv(Exec(t, events)) && Exec(t, events).types == t.types
    decreases |events|
  {
    if events != [] {
      EventKeepsInv(t, events[0]);
      RunKeepsInv(After(t, events[0]), events[1..]);
    }
  }

  lemma {:induction false} NothingCountedAtStart(types: seq<nat>, byType: map<nat, Typed>)
    requires forall i :: 0 <= i < |types| ==> types[i] in byType && byType[types[i]] == Typed(map[], None, 0)
    ensures Counted(types, byType) == 0
  {
    if types != [] {
      NothingCountedAtStart(types[1..], byType);
    }
  }

  /** The number of failing objects over all types. */
  function FailingTotal(types: seq<nat>, byType: map<nat, Typed>): (n: nat)
    requires forall i :: 0 <= i < |types| ==> types[i] in byType
  {
    if types == [] then 0 else |byType[types[0]].byUID| + FailingTotal(types[1..], byType)
  }

  lemma {:induction false} AllCounted(types: seq<nat>, byType: map<nat, Typed>)
    requires forall i :: 0 <= i < |types| ==> types[i] in byType && byType[types[i]].change == 0
    ensures Counted(types, byType) == FailingTotal(types, byType)
  {
    if types != [] {
      AllCounted(types[1..], byType);
    }
  }

  lemma StartKeepsInv(types: seq<nat>)
    requires Distinct(types)
    ensures Inv(Start(types))
  {
    NothingCountedAtStart(types, Start(types).byType);
  }

  lemma FailingFacts(t: System)
    requires TypesOk(t) && FailuresOk(t)
    ensures forall k :: IsFailing(t, k) ==>
      && (k in t.s.q.queued || k in t.s.q.ongoing)
      && 0 < t.byType[k.gvk].byUID[k.uid].waitDuration <= M.MAX_ERROR_WAIT
    ensures forall i :: 0 <= i < |t.types| ==> t.types[i] in t.byType
  {
    forall k | IsFailing(t, k)
      ensures 0 < t.byType[k.gvk].byUID[k.uid].waitDuration <= M.MAX_ERROR_WAIT
    {
      assert M.WaitsInRange(t.byType[k.gvk].byUID);
    }
  }

  /**
   * Why errors must not come with a negative retry time: if the next reconcile of such an object fails or panics
   * without a wish, and nothing is pending, the object is left neither queued nor ongoing while recorded as failing.
   */
  lemma NegativeRetryAbandons(q: QueueState, k: Key, v: Value, byUID: map<nat, M.Backoff>, retryAfter: int, reply: M.Reply, now: int)
    requires k !in q.queued && k !in q.pending && retryAfter < 0
    requires reply == M.Returned(0, true) || reply == M.Panicked
    ensures var first := M.Record(byUID, k.uid, retryAfter, true);
      var second := M.Record(first.byUID, k.uid, Caught(reply).retryAfter, Caught(reply).failed);
      var requeue := second.retryAfter != 0;
      var r := FinishAndMaybeRequeue(q, k, Q.Retried(v, requeue, now + second.retryAfter), requeue);
      && first.retryAfter != 0 && k.uid in second.byUID
      && r.Ok? && k !in r.q.queued && k !in r.q.ongoing && k !in r.q.pending
  {
    M.NegativeRetryLosesTheNext(byUID, k.uid, retryAfter);
  }

  /** The moment for which the queue holds the key. */
  function QueuedFor(q: QueueState, k: Key): (at: Option<int>) {
    if k in q.queued && q.queued[k] in q.items then Some(q.items[q.queued[k]].v.reconcileAt) else None
  }

  function SoonerThan(pending: map<Key, Value>, k: Key, at: int): (r: int) {
    if k in pending then MinInt(pending[k].reconcileAt, at) else at
  }

  lemma FinishQueuesFor(q: QueueState, k: Key, v: Value)
    requires FinishAndMaybeRequeue(q, k, v, true).Ok?
    ensures QueuedFor(FinishAndMaybeRequeue(q, k, v, true).q, k) == Some(SoonerThan(q.pending, k, v.reconcileAt))
  {
  }

  /** A reconcile that ends at `now` with a retry puts its object back for exactly that much later, or for a pending change before. */
  lemma RetriedOnTime(t: System, c: nat, now: int)
    requires Enabled(t, Finish(c, now)) && t.stage[c].retryAfter != 0
    ensures var k := t.s.running[c].k;
      QueuedFor(After(t, Finish(c, now)).s.q, k) == Some(SoonerThan(t.s.q.pending, k, now + t.stage[c].retryAfter))
  {
    var kv := t.s.running[c];
    FinishQueuesFor(t.s.q, kv.k, Q.Retried(kv.v, true, now + t.stage[c].retryAfter));
  }

  /** A reconcile that came back with `reply` and then ends at `now`. */
  function Ended(t: System, c: nat, reply: M.Reply): (t': System)
    requires Enabled(t, Return(c, reply)) && Enabled(After(t, Return(c, reply)), Count(c))
  {
    After(After(t, Return(c, reply)), Count(c))
  }

  lemma EndedKeepsReply(t: System, c: nat, reply: M.Reply)
    requires Enabled(t, Return(c, reply)) && Enabled(After(t, Return(c, reply)), Count(c))
    ensures var k, r := t.s.running[c].k, Caught(reply);
      && Ended(t, c, reply).s == t.s
      && Ended(t, c, reply).stage[c] == Ready(M.Record(t.byType[k.gvk].byUID, k.uid, r.retryAfter, r.failed).retryAfter)
  {
  }

  /**
   * The n-th failure or panic of an object in a row, none with a wish, is followed by a retry after exactly the n-th wait
   * of the backoff, and a failure with a wish by one after exactly that wish, unless a pending change comes sooner.
   */
  lemma FailureIsRetriedInTime(t: System, c: nat, reply: M.Reply, n: nat, now: int)
    requires Enabled(t, Return(c, reply)) && Caught(reply).failed && n >= 1
    requires Enabled(After(t, Return(c, reply)), Count(c)) && Enabled(Ended(t, c, reply), Finish(c, now))
    ensures var k, wish := t.s.running[c].k, Caught(reply).retryAfter;
      var before := M.Lookup(t.byType[k.gvk].byUID, k.uid);
      var at := QueuedFor(After(Ended(t, c, reply), Finish(c, now)).s.q, k);
      && (wish == 0 && before == (if n == 1 then None else Some(M.AfterFailures(n - 1))) ==>
            at == Some(SoonerThan(t.s.q.pending, k, now + M.AfterFailures(n).waitDuration)))
      && (wish > 0 ==> at == Some(SoonerThan(t.s.q.pending, k, now + wish)))
  {
    var k := t.s.running[c].k;
    M.FailureReply(t.byType[k.gvk].byUID, k.uid, Caught(reply).retryAfter, n);
    EndedKeepsReply(t, c, reply);
    if Ended(t, c, reply).stage[c].retryAfter != 0 {
      RetriedOnTime(Ended(t, c, reply), c, now);
    }
  }

  /**
   * In every run in which no error comes with a negative retry time: every object recorded as failing is queued or being
   * reconciled, its backoff is positive and at most a minute, and while no call holds a type's lock the
   * global count is the number of failing objects of all types together.
   */
  lemma FailingIsNeverAbandoned(types: seq<nat>, events: seq<Event>)
    requires Distinct(types) && ValidRun(Start(types), events)
    ensures var t := Exec(Start(types), events);
      && (forall k :: IsFailing(t, k) ==>
            && (k in t.s.q.queued || k in t.s.q.ongoing)
            && 0 < t.byType[k.gvk].byUID[k.uid].waitDuration <= M.MAX_ERROR_WAIT)
      && (forall i :: 0 <= i < |t.types| ==> t.types[i] in t.byType)
      && ((forall g :: g in t.byType ==> t.byType[g].holder.None?) ==> t.globalFailing == FailingTotal(t.types, t.byType))
  {
    StartKeepsInv(types);
    RunKeepsInv(Start(types), events);
    var t := Exec(Start(types), events);
    FailingFacts(t);
    if forall g :: g in t.byType ==> t.byType[g].holder.None? {
      AllCounted(t.types, t.byType);
    }
  }
}
