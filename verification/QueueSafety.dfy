/** Runs of the reconcile queue with its workers: nothing is reconciled twice at once, and nothing is lost. */
module QueueSafety {
  import opened ReconcileQueue

  /**
   * `running` holds the callbacks handed out and not yet finished. `latest` and `handled` record the newest
   * object enqueued, and the last one whose reconcile finished, for each key.
   */
  datatype System = System(
    q: QueueState,
    running: map<nat, KV>,
    nextCallback: nat,
    latest: map<Key, Object>,
    handled: map<Key, Object>)

  const START: System := System(EMPTY, map[], 0, map[], map[])

  datatype Event =
    | Enqueued(v: Value)
    | HandedOut(h: nat, now: int)
    | Finished(c: nat, requeue: bool, retryAt: int)

  predicate Enabled(s: System, e: Event) {
    match e
    case Enqueued(_) => true
    case HandedOut(h, now) => IsLeast(s.q.items, h) && s.q.items[h].v.reconcileAt <= now
    case Finished(c, _, _) => c in s.running
  }

  /** The value that a finishing reconcile puts back if it is to be retried. */
  function Retried(v: Value, requeue: bool, retryAt: int): (v': Value) {
    if requeue then v.(reconcileAt := retryAt) else v
  }

  /** The queue after the event, unless merging panics. */
  function QueueAfter(s: System, e: Event): (r: Outcome)
    requires Enabled(s, e)
  {
    match e
    case Enqueued(v) => Enqueue(s.q, v.obj.key, v)
    case HandedOut(h, _) => Ok(HandOut(s.q, h))
    case Finished(c, requeue, retryAt) =>
      FinishAndMaybeRequeue(s.q, s.running[c].k, Retried(s.running[c].v, requeue, retryAt), requeue)
  }

  function After(s: System, e: Event): (s': System)
    requires Enabled(s, e) && QueueAfter(s, e).Ok?
  {
    var q' := QueueAfter(s, e).q;
    match e
    case Enqueued(v) => s.(q := q', latest := s.latest[v.obj.key := v.obj])
    case HandedOut(h, _) =>
      s.(q := q', running := s.running[s.nextCallback := s.q.items[h]], nextCallback := s.nextCallback + 1)
    case Finished(c, _, _) =>
      s.(q := q', running := s.running - {c}, handled := s.handled[s.running[c].k := s.running[c].v.obj])
  }

  // ---- the invariant ----------------------------------------------------------------------------

  /** The handle map and the priority queue hold the same keys, each exactly once. */
  ghost predicate HandlesAgree(q: QueueState) {
    && (forall k :: k in q.queued ==> q.queued[k] in q.items && q.items[q.queued[k]].k == k)
    && (forall h :: h in q.items ==> q.items[h].k in q.queued && q.queued[q.items[h].k] == h)
    && (forall h :: h in q.items ==> h < q.nextHandle)
  }

  ghost predicate Separated(q: QueueState) {
    && (forall k :: k in q.queued ==> k !in q.ongoing)
    && (forall k :: k in q.pending ==> k in q.ongoing)
  }

  ghost predicate RunningFor(s: System, c: nat, k: Key) {
    c in s.running && s.running[c].k == k
  }

  /** Exactly one callback is out for each ongoing key. */
  ghost predicate OneEach(s: System) {
    && (forall c :: c in s.running ==> s.running[c].k in s.q.ongoing && c < s.nextCallback)
    && (forall k :: k in s.q.ongoing ==> exists c :: RunningFor(s, c, k))
    && (forall c, c' :: c in s.running && c' in s.running && s.running[c].k == s.running[c'].k ==> c == c')
  }

  /** Where the newest object of a key is: pending, else queued, else in flight, else handled last. */
  ghost predicate NewestIsKept(s: System, k: Key)
    requires HandlesAgree(s.q) && k in s.latest
  {
    if k in s.q.pending then s.q.pending[k].obj == s.latest[k]
    else if k in s.q.queued then s.q.items[s.q.queued[k]].v.obj == s.latest[k]
    else if k in s.q.ongoing then forall c :: RunningFor(s, c, k) ==> s.running[c].v.obj == s.latest[k]
    else k in s.handled && s.handled[k] == s.latest[k]
  }

  ghost predicate Structured(s: System) {
    HandlesAgree(s.q) && Separated(s.q) && OneEach(s)
  }

  ghost predicate Inv(s: System) {
    && Structured(s)
    && (forall k :: k in s.q.queued || k in s.q.ongoing ==> k in s.latest)
    && (forall k :: k in s.latest ==> NewestIsKept(s, k))
  }

  // ---- one event --------------------------------------------------------------------------------

  lemma PushKeepsHandles(q: QueueState, k: Key, v: Value)
    requires HandlesAgree(q) && k !in q.queued
    ensures HandlesAgree(Push(q, k, v))
  {
  }

  lemma EnqueueKeepsQueue(q: QueueState, k: Key, v: Value)
    requires HandlesAgree(q) && Separated(q) && Enqueue(q, k, v).Ok?
    ensures HandlesAgree(Enqueue(q, k, v).q) && Separated(Enqueue(q, k, v).q)
    ensures Enqueue(q, k, v).q.ongoing == q.ongoing
  {
    if k !in q.ongoing && k !in q.queued {
      PushKeepsHandles(q, k, v);
    }
  }

  lemma FinishKeepsQueue(q: QueueState, k: Key, v: Value, requeue: bool)
    requires HandlesAgree(q) && Separated(q) && k in q.ongoing && FinishAndMaybeRequeue(q, k, v, requeue).Ok?
    ensures HandlesAgree(FinishAndMaybeRequeue(q, k, v, requeue).q) && Separated(FinishAndMaybeRequeue(q, k, v, requeue).q)
    ensures FinishAndMaybeRequeue(q, k, v, requeue).q.ongoing == q.ongoing - {k}
  {
    var q1 := q.(ongoing := q.ongoing - {k}, pending := q.pending - {k});
    assert HandlesAgree(q1) && Separated(q1);
    assert k !in q.pending ==> q1 == q.(ongoing := q.ongoing - {k});
    if k in q.pending || requeue {
      var w := if k !in q.pending then v else if requeue then MergeWithNewer(v, q.pending[k]).value else q.pending[k];
      PushKeepsHandles(q1, k, w);
      assert FinishAndMaybeRequeue(q, k, v, requeue).q == Push(q1, k, w);
    }
  }

  /** The value a queue holds for a key that is waiting, and the one that is pending. */
  ghost predicate SameWaiting(q: QueueState, q': QueueState, k: Key)
    requires HandlesAgree(q) && HandlesAgree(q')
  {
    && (k in q.pending <==> k in q'.pending) && (k in q.pending ==> q.pending[k] == q'.pending[k])
    && (k in q.queued <==> k in q'.queued) && (k in q.queued ==> q.items[q.queued[k]] == q'.items[q'.queued[k]])
  }

  lemma EnqueueKeepsOthers(q: QueueState, k: Key, v: Value, k': Key)
    requires HandlesAgree(q) && Separated(q) && Enqueue(q, k, v).Ok? && k' != k
    ensures HandlesAgree(Enqueue(q, k, v).q) && SameWaiting(q, Enqueue(q, k, v).q, k')
  {
    EnqueueKeepsQueue(q, k, v);
  }

  /** The enqueued object is what is waiting for its key afterwards. */
  lemma EnqueueKeepsNewest(q: QueueState, k: Key, v: Value)
    requires HandlesAgree(q) && Separated(q) && Enqueue(q, k, v).Ok?
    ensures var q' := Enqueue(q, k, v).q;
      && HandlesAgree(q')
      && (k in q.ongoing ==> k in q'.pending && q'.pending[k].obj == v.obj)
      && (k !in q.ongoing ==> k !in q'.pending && k in q'.queued && q'.items[q'.queued[k]].v.obj == v.obj)
  {
    EnqueueKeepsQueue(q, k, v);
  }

  lemma EnqueuedKeepsInv(s: System, v: Value)
    requires Inv(s) && QueueAfter(s, Enqueued(v)).Ok?
    ensures Inv(After(s, Enqueued(v)))
  {
    var k := v.obj.key;
    EnqueueKeepsQueue(s.q, k, v);
    var s' := After(s, Enqueued(v));
    forall k' | k' in s'.q.ongoing
      ensures exists c :: RunningFor(s', c, k')
    {
      var c :| RunningFor(s, c, k');
      assert RunningFor(s', c, k');
    }
    assert Structured(s');
    EnqueueKeepsNewest(s.q, k, v);
    forall k' | k' in s'.q.queued || k' in s'.q.ongoing
      ensures k' in s'.latest
    {
      if k' != k {
        EnqueueKeepsOthers(s.q, k, v, k');
      }
    }
    forall k' | k' in s'.latest
      ensures NewestIsKept(s', k')
    {
      if k' != k {
        EnqueueKeepsOthers(s.q, k, v, k');
        assert NewestIsKept(s, k');
        assert forall c :: RunningFor(s', c, k') ==> RunningFor(s, c, k');
      }
    }
  }

  lemma HandedOutKeepsStructure(s: System, h: nat, now: int)
    requires Structured(s) && Enabled(s, HandedOut(h, now))
    ensures Structured(After(s, HandedOut(h, now)))
  {
    var s' := After(s, HandedOut(h, now));
    var k := s.q.items[h].k;
    forall k' | k' in s'.q.ongoing
      ensures exists c :: RunningFor(s', c, k')
    {
      if k' == k {
        assert RunningFor(s', s.nextCallback, k);
      } else {
        var c :| RunningFor(s, c, k');
        assert RunningFor(s', c, k');
      }
    }
  }

  lemma HandedOutKeepsNewest(s: System, h: nat, now: int, k: Key)
    requires Inv(s) && Enabled(s, HandedOut(h, now)) && k in s.latest
    ensures NewestIsKept(After(s, HandedOut(h, now)), k)
  {
    var s' := After(s, HandedOut(h, now));
    assert NewestIsKept(s, k);
    if k != s.q.items[h].k {
      assert forall c :: RunningFor(s', c, k) ==> RunningFor(s, c, k);
    } else {
      assert forall c :: RunningFor(s', c, k) ==> c == s.nextCallback;
    }
  }

  lemma HandedOutKeepsInv(s: System, h: nat, now: int)
    requires Inv(s) && Enabled(s, HandedOut(h, now))
    ensures Inv(After(s, HandedOut(h, now)))
  {
    HandedOutKeepsStructure(s, h, now);
    var s' := After(s, HandedOut(h, now));
    forall k | k in s'.latest
      ensures NewestIsKept(s', k)
    {
      HandedOutKeepsNewest(s, h, now, k);
    }
  }

  lemma FinishedKeepsStructure(s: System, c: nat, requeue: bool, retryAt: int)
    requires Structured(s) && c in s.running && QueueAfter(s, Finished(c, requeue, retryAt)).Ok?
    ensures Structured(After(s, Finished(c, requeue, retryAt)))
  {
    var k := s.running[c].k;
    FinishKeepsQueue(s.q, k, Retried(s.running[c].v, requeue, retryAt), requeue);
    var s' := After(s, Finished(c, requeue, retryAt));
    forall k' | k' in s'.q.ongoing
      ensures exists c' :: RunningFor(s', c', k')
    {
      var c' :| RunningFor(s, c', k');
      assert RunningFor(s', c', k');
    }
    forall c' | c' in s'.running
      ensures s'.running[c'].k in s'.q.ongoing
    {
      assert c' in s.running && c' != c;
    }
  }

  lemma FinishKeepsOthers(q: QueueState, k: Key, v: Value, requeue: bool, k': Key)
    requires HandlesAgree(q) && Separated(q) && k in q.ongoing && FinishAndMaybeRequeue(q, k, v, requeue).Ok? && k' != k
    ensures HandlesAgree(FinishAndMaybeRequeue(q, k, v, requeue).q)
    ensures SameWaiting(q, FinishAndMaybeRequeue(q, k, v, requeue).q, k')
    ensures k' in FinishAndMaybeRequeue(q, k, v, requeue).q.ongoing <==> k' in q.ongoing
  {
    FinishKeepsQueue(q, k, v, requeue);
  }

  lemma FinishedKeepsOthers(s: System, c: nat, requeue: bool, retryAt: int, k: Key)
    requires Structured(s) && c in s.running && QueueAfter(s, Finished(c, requeue, retryAt)).Ok?
    requires k in s.latest && k != s.running[c].k && NewestIsKept(s, k)
    requires HandlesAgree(After(s, Finished(c, requeue, retryAt)).q)
    ensures NewestIsKept(After(s, Finished(c, requeue, retryAt)), k)
  {
    var s' := After(s, Finished(c, requeue, retryAt));
    FinishKeepsOthers(s.q, s.running[c].k, Retried(s.running[c].v, requeue, retryAt), requeue, k);
    assert forall c' :: RunningFor(s', c', k) ==> RunningFor(s, c', k);
  }

  lemma FinishedKeepsNewest(s: System, c: nat, requeue: bool, retryAt: int, k: Key)
    requires Structured(s) && c in s.running && QueueAfter(s, Finished(c, requeue, retryAt)).Ok?
    requires k in s.latest && NewestIsKept(s, k)
    requires HandlesAgree(After(s, Finished(c, requeue, retryAt)).q)
    ensures NewestIsKept(After(s, Finished(c, requeue, retryAt)), k)
  {
    if k == s.running[c].k {
      assert RunningFor(s, c, k);
    } else {
      FinishedKeepsOthers(s, c, requeue, retryAt, k);
    }
  }

  lemma FinishedKeepsInv(s: System, c: nat, requeue: bool, retryAt: int)
    requires Inv(s) && c in s.running && QueueAfter(s, Finished(c, requeue, retryAt)).Ok?
    ensures Inv(After(s, Finished(c, requeue, retryAt)))
  {
    FinishedKeepsStructure(s, c, requeue, retryAt);
    FinishedKeepsLatest(s, c, requeue, retryAt);
    var s' := After(s, Finished(c, requeue, retryAt));
    forall k | k in s'.latest
      ensures NewestIsKept(s', k)
    {
      FinishedKeepsNewest(s, c, requeue, retryAt, k);
    }
  }

  lemma FinishedKeepsLatest(s: System, c: nat, requeue: bool, retryAt: int)
    requires Structured(s) && c in s.running && QueueAfter(s, Finished(c, requeue, retryAt)).Ok?
    requires forall k :: k in s.q.queued || k in s.q.ongoing ==> k in s.latest
    ensures var s' := After(s, Finished(c, requeue, retryAt));
      s'.latest == s.latest && forall k :: k in s'.q.queued || k in s'.q.ongoing ==> k in s'.latest
  {
  }

  lemma EventKeepsInv(s: System, e: Event)
    requires Inv(s) && Enabled(s, e) && QueueAfter(s, e).Ok?
    ensures Inv(After(s, e))
  {
    match e
    case Enqueued(v) => EnqueuedKeepsInv(s, v);
    case HandedOut(h, now) => HandedOutKeepsInv(s, h, now);
    case Finished(c, requeue, retryAt) => FinishedKeepsInv(s, c, requeue, retryAt);
  }

  // ---- whole runs -------------------------------------------------------------------------------

  ghost predicate ValidRun(s: System, events: seq<Event>)
    decreases |events|
  {
    events != [] ==>
      && Enabled(s, events[0]) && QueueAfter(s, events[0]).Ok?
      && ValidRun(After(s, events[0]), events[1..])
  }

  function Exec(s: System, events: seq<Event>): (s': System)
    requires ValidRun(s, events)
    decreases |events|
  {
    if events == [] then s else Exec(After(s, events[0]), events[1..])
  }

  lemma {:induction false} RunKeepsInv(s: System, events: seq<Event>)
    requires Inv(s) && ValidRun(s, events)
    ensures Inv(Exec(s, events))
    decreases |events|
  {
    if events != [] {
      EventKeepsInv(s, events[0]);
      RunKeepsInv(After(s, events[0]), events[1..]);
    }
  }

  /**
   * In every run up to a panic: queued and ongoing keys are disjoint, pending keys are ongoing, handles and
   * priority queue agree, no two callbacks are out for one key, and the newest object of every key is kept.
   */
  lemma QueueIsSafe(events: seq<Event>)
    requires ValidRun(START, events)
    ensures var s := Exec(START, events);
      && s.q.queued.Keys !! s.q.ongoing
      && s.q.pending.Keys <= s.q.ongoing
      && HandlesAgree(s.q)
      && (forall c, c' :: c in s.running && c' in s.running && c != c' ==> s.running[c].k != s.running[c'].k)
      && (forall k :: k in s.latest ==> NewestIsKept(s, k))
  {
    RunKeepsInv(START, events);
  }
}
