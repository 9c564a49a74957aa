/** When the queue hands an object out: at the earliest moment anything asked for it, however events merge. */
module QueueTiming {
  import opened Api
  import opened ReconcileQueue
  import Q = QueueSafety

  /** `asked` records, for each key, the moments asked for since it was last handed out. */
  datatype System = System(s: Q.System, asked: map<Key, seq<int>>)

  function AskedOf(t: System, k: Key): (times: seq<int>) {
    if k in t.asked then t.asked[k] else []
  }

  const START: System := System(Q.START, map[])

  function KeyOf(s: Q.System, e: Q.Event): (k: Key)
    requires Q.Enabled(s, e)
  {
    match e
    case Enqueued(v) => v.obj.key
    case HandedOut(h, _) => s.q.items[h].k
    case Finished(c, _, _) => s.running[c].k
  }

  function After(t: System, e: Q.Event): (t': System)
    requires Q.Enabled(t.s, e) && Q.QueueAfter(t.s, e).Ok?
  {
    var k := KeyOf(t.s, e);
    var times := match e {
      case Enqueued(v) => AskedOf(t, k) + [v.reconcileAt]
      case HandedOut(_, _) => []
      case Finished(_, requeue, retryAt) => AskedOf(t, k) + (if requeue then [retryAt] else [])
    };
    System(Q.After(t.s, e), t.asked[k := times])
  }

  // ---- the moment a key is due ------------------------------------------------------------------

  /** The moment the waiting value of a key carries, if one is pending or queued. */
  function Due(q: QueueState, k: Key): (at: Option<int>) {
    if k in q.pending then Some(q.pending[k].reconcileAt)
    else if k in q.queued && q.queued[k] in q.items then Some(q.items[q.queued[k]].v.reconcileAt)
    else None
  }

  function Sooner(due: Option<int>, at: int): (r: Option<int>) {
    Some(if due.Some? then MinInt(due.value, at) else at)
  }

  lemma DueAfterEnqueue(q: QueueState, k: Key, v: Value)
    requires Q.HandlesAgree(q) && Q.Separated(q) && Enqueue(q, k, v).Ok?
    ensures Due(Enqueue(q, k, v).q, k) == Sooner(Due(q, k), v.reconcileAt)
  {
  }

  lemma DueAfterFinish(q: QueueState, k: Key, v: Value, requeue: bool)
    requires Q.HandlesAgree(q) && Q.Separated(q) && k in q.ongoing && FinishAndMaybeRequeue(q, k, v, requeue).Ok?
    ensures Due(FinishAndMaybeRequeue(q, k, v, requeue).q, k)
         == if requeue then Sooner(Due(q, k), v.reconcileAt) else Due(q, k)
  {
  }

  lemma OthersKeepTheirTime(s: Q.System, e: Q.Event, k: Key)
    requires Q.Structured(s) && Q.Enabled(s, e) && Q.QueueAfter(s, e).Ok? && k != KeyOf(s, e)
    ensures Due(Q.QueueAfter(s, e).q, k) == Due(s.q, k)
  {
    match e
    case Enqueued(v) => Q.EnqueueKeepsOthers(s.q, v.obj.key, v, k);
    case HandedOut(_, _) =>
    case Finished(c, requeue, retryAt) =>
      Q.FinishKeepsOthers(s.q, s.running[c].k, Q.Retried(s.running[c].v, requeue, retryAt), requeue, k);
  }

  // ---- the invariant ----------------------------------------------------------------------------

  ghost predicate IsEarliest(times: seq<int>, at: int) {
    at in times && forall x :: x in times ==> at <= x
  }

  /** A key waits if and only if something asked for it, and then for the earliest moment asked for. */
  ghost predicate OnTime(times: seq<int>, due: Option<int>) {
    if times == [] then due == None else due.Some? && IsEarliest(times, due.value)
  }

  lemma OneMoreTime(times: seq<int>, due: Option<int>, at: int)
    requires OnTime(times, due)
    ensures OnTime(times + [at], Sooner(due, at))
  {
    var all := times + [at];
    assert all[|times|] == at;
    assert forall x :: x in all <==> x in times || x == at;
  }

  ghost predicate Inv(t: System) {
    Q.Inv(t.s) && forall k :: OnTime(AskedOf(t, k), Due(t.s.q, k))
  }

  lemma OwnKeyIsOnTime(t: System, e: Q.Event)
    requires Inv(t) && Q.Enabled(t.s, e) && Q.QueueAfter(t.s, e).Ok?
    ensures var k := KeyOf(t.s, e); OnTime(AskedOf(After(t, e), k), Due(Q.QueueAfter(t.s, e).q, k))
  {
    var k := KeyOf(t.s, e);
    var times, due := AskedOf(t, k), Due(t.s.q, k);
    assert OnTime(times, due);
    match e
    case Enqueued(v) =>
      DueAfterEnqueue(t.s.q, k, v);
      OneMoreTime(times, due, v.reconcileAt);
    case HandedOut(h, _) =>
      assert k !in t.s.q.ongoing;
    case Finished(c, requeue, retryAt) =>
      DueAfterFinish(t.s.q, k, Q.Retried(t.s.running[c].v, requeue, retryAt), requeue);
      if requeue {
        OneMoreTime(times, due, retryAt);
      } else {
        assert times + [] == times;
      }
  }

  lemma EventKeepsInv(t: System, e: Q.Event)
    requires Inv(t) && Q.Enabled(t.s, e) && Q.QueueAfter(t.s, e).Ok?
    ensures Inv(After(t, e))
  {
    Q.EventKeepsInv(t.s, e);
    var t' := After(t, e);
    forall k
      ensures OnTime(AskedOf(t', k), Due(t'.s.q, k))
    {
      if k == KeyOf(t.s, e) {
        OwnKeyIsOnTime(t, e);
      } else {
        OthersKeepTheirTime(t.s, e, k);
        assert OnTime(AskedOf(t, k), Due(t.s.q, k));
      }
    }
  }

  // ---- whole runs -------------------------------------------------------------------------------

  ghost predicate ValidRun(t: System, events: seq<Q.Event>)
    decreases |events|
  {
    events != [] ==>
      && Q.Enabled(t.s, events[0]) && Q.QueueAfter(t.s, events[0]).Ok?
      && ValidRun(After(t, events[0]), events[1..])
  }

  function Exec(t: System, events: seq<Q.Event>): (t': System)
    requires ValidRun(t, events)
    decreases |events|
  {
    if events == [] then t else Exec(After(t, events[0]), events[1..])
  }

  lemma {:induction false} RunKeepsInv(t: System, events: seq<Q.Event>)
    requires Inv(t) && ValidRun(t, events)
    ensures Inv(Exec(t, events))
    decreases |events|
  {
    if events != [] {
      EventKeepsInv(t, events[0]);
      RunKeepsInv(After(t, events[0]), events[1..]);
    }
  }

  /**
   * In every run up to a panic: a key waits exactly if an event or a retry asked for it since it was last handed
   * out, for exactly the earliest moment asked for; and what is handed out is due, and due no later than
   * anything else in the queue.
   */
  lemma HandedOutOnTime(events: seq<Q.Event>, h: nat, now: int)
    requires ValidRun(START, events)
    ensures var t := Exec(START, events);
      && (forall k :: OnTime(AskedOf(t, k), Due(t.s.q, k)))
      && (Q.Enabled(t.s, Q.HandedOut(h, now)) ==>
            var k := t.s.q.items[h].k;
            && IsEarliest(AskedOf(t, k), t.s.q.items[h].v.reconcileAt)
            && t.s.q.items[h].v.reconcileAt <= now
            && (forall k' :: k' in t.s.q.queued ==>
                  Due(t.s.q, k').Some? && t.s.q.items[h].v.reconcileAt <= Due(t.s.q, k').value))
  {
    RunKeepsInv(START, events);
    var t := Exec(START, events);
    if Q.Enabled(t.s, Q.HandedOut(h, now)) {
      var k := t.s.q.items[h].k;
      assert k in t.s.q.queued && k !in t.s.q.pending;
      assert OnTime(AskedOf(t, k), Due(t.s.q, k));
    }
  }
}
