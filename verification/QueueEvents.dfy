/**
 * The kinds of event that handlers see. For objects whose events come as Added, then any number of
 * Modified, then possibly Deleted, merging never panics, whatever the handlers' durations, failures and
 * retries, and what waits for a key is exactly the sum of its events that no reconcile has dealt with.
 */
module QueueEvents {
  import opened Api
  import opened ReconcileQueue
  import Q = QueueSafety

  /**
   * What has happened to one object: the kinds enqueued, how many of them had been when it was last handed out, how many
   * when the last reconcile that finished without a retry was handed out, and the kinds delivered.
   */
  datatype Record = Record(log: seq<EventKind>, handed: nat, settled: nat, delivered: seq<EventKind>)

  datatype System = System(s: Q.System, records: map<Key, Record>)

  const START: System := System(Q.START, map[])

  function RecordOf(t: System, k: Key): (r: Record) {
    if k in t.records then t.records[k] else Record([], 0, 0, [])
  }

  /** The events of one object come in the order of a watch. */
  predicate InOrder(log: seq<EventKind>, kind: EventKind) {
    if log == [] then kind == Added
    else log[|log| - 1] != Deleted && (kind == Modified || kind == Deleted)
  }

  predicate Enabled(t: System, e: Q.Event) {
    Q.Enabled(t.s, e) && (e.Enqueued? ==> InOrder(RecordOf(t, e.v.obj.key).log, e.v.eventKind))
  }

  function LogMore(r: Record, kind: EventKind): (r': Record) {
    r.(log := r.log + [kind])
  }

  function Deliver(r: Record, kind: EventKind): (r': Record) {
    r.(handed := |r.log|, delivered := r.delivered + [kind])
  }

  /** A reconcile that finished without a retry has dealt with everything enqueued before it was handed out. */
  function Settle(r: Record, requeue: bool): (r': Record) {
    if requeue then r else r.(settled := r.handed)
  }

  function After(t: System, e: Q.Event): (t': System)
    requires Enabled(t, e) && Q.QueueAfter(t.s, e).Ok?
  {
    var s' := Q.After(t.s, e);
    match e
    case Enqueued(v) => System(s', t.records[v.obj.key := LogMore(RecordOf(t, v.obj.key), v.eventKind)])
    case HandedOut(h, _) =>
      var kv := t.s.q.items[h];
      System(s', t.records[kv.k := Deliver(RecordOf(t, kv.k), kv.v.eventKind)])
    case Finished(c, requeue, _) =>
      var k := t.s.running[c].k;
      System(s', t.records[k := Settle(RecordOf(t, k), requeue)])
  }

  // ---- what one object looks like ---------------------------------------------------------------

  predicate WellOrdered(log: seq<EventKind>) {
    forall i :: 0 <= i < |log| ==>
      if i == 0 then log[i] == Added else log[i] == Modified || (log[i] == Deleted && i == |log| - 1)
  }

  /** What a stretch of events amounts to: whether the object came into being in it, and whether it went. */
  function Summary(kinds: seq<EventKind>): (kind: EventKind) {
    if Added in kinds then if Deleted in kinds then Ephemeral else Added
    else if Deleted in kinds then Deleted
    else Modified
  }

  function SummaryFrom(log: seq<EventKind>, i: nat): (kind: Option<EventKind>) {
    if i < |log| then Some(Summary(log[i..])) else None
  }

  /** Merging two consecutive stretches gives what they amount to together. */
  lemma SummariesMerge(a: seq<EventKind>, b: seq<EventKind>)
    requires Ephemeral !in a && Ephemeral !in b && Deleted !in a && Added !in b
    ensures Merge(Summary(a), Summary(b)) == Some(Summary(a + b))
  {
    assert forall x :: x in a + b <==> x in a || x in b;
  }

  lemma StretchesMerge(log: seq<EventKind>, i: nat, j: nat)
    requires WellOrdered(log) && i < j < |log|
    ensures Merge(Summary(log[i..j]), Summary(log[j..])) == Some(Summary(log[i..]))
  {
    assert log[i..j] + log[j..] == log[i..];
    SummariesMerge(log[i..j], log[j..]);
  }

  predicate Final(kind: EventKind) {
    kind == Deleted || kind == Ephemeral
  }

  /** The first kind delivered is Added or Ephemeral, and after Deleted or Ephemeral only that kind follows. */
  ghost predicate Sensible(d: seq<EventKind>) {
    && (d != [] ==> d[0] == Added || d[0] == Ephemeral)
    && (forall i, j :: 0 <= i < j < |d| && Final(d[i]) ==> d[j] == d[i])
  }

  /** As long as no reconcile has finished without a retry, the object's coming into being is part of every delivery. */
  ghost predicate AddedUntilSettled(r: Record) {
    r.settled == 0 ==> forall i :: 0 <= i < |r.delivered| ==> r.delivered[i] == Added || r.delivered[i] == Ephemeral
  }

  ghost predicate DeliveriesOk(r: Record) {
    && Sensible(r.delivered) && AddedUntilSettled(r)
    && r.settled <= r.handed && (r.handed > 0 ==> r.delivered != [])
    && (forall i :: 0 <= i < |r.delivered| && Final(r.delivered[i]) ==>
          && r.handed == |r.log| > 0 && r.log[|r.log| - 1] == Deleted
          && (r.settled < |r.log| ==> Summary(r.log[r.settled..]) == r.delivered[i]))
  }

  /**
   * The kind that is queued is the sum of everything unsettled; while a reconcile is running, it was given the sum of
   * what was unsettled when it was handed out, and what is pending is the sum of what came since.
   */
  ghost predicate KindsOk(r: Record, queued: Option<EventKind>, pending: Option<EventKind>, running: Option<EventKind>) {
    && WellOrdered(r.log) && r.settled <= |r.log|
    && if running.Some? then
         && queued.None? && r.settled < r.handed <= |r.log|
         && running.value == Summary(r.log[r.settled..r.handed])
         && pending == SummaryFrom(r.log, r.handed)
       else pending.None? && queued == SummaryFrom(r.log, r.settled)
  }

  ghost predicate Shape(r: Record, queued: Option<EventKind>, pending: Option<EventKind>, running: Option<EventKind>) {
    KindsOk(r, queued, pending, running) && DeliveriesOk(r)
  }

  // ---- the effects of the events on one object --------------------------------------------------

  lemma LogMoreFacts(r: Record, kind: EventKind, i: nat)
    requires WellOrdered(r.log) && InOrder(r.log, kind) && i <= |r.log|
    ensures WellOrdered(r.log + [kind])
    ensures i < |r.log| ==> Merge(Summary(r.log[i..]), kind) == SummaryFrom(r.log + [kind], i)
    ensures i == |r.log| ==> SummaryFrom(r.log + [kind], i) == Some(kind)
  {
    var log := r.log + [kind];
    assert log[|r.log|..] == [kind];
    if i < |r.log| {
      assert log[i..|r.log|] == r.log[i..];
      StretchesMerge(log, i, |r.log|);
    }
  }

  lemma ShapeAfterEnqueue(
    r: Record, queued: Option<EventKind>, pending: Option<EventKind>, running: Option<EventKind>, kind: EventKind)
    requires Shape(r, queued, pending, running) && InOrder(r.log, kind)
    ensures running.Some? ==>
      && (pending.Some? ==> Merge(pending.value, kind).Some?)
      && Shape(LogMore(r, kind), queued, if pending.Some? then Merge(pending.value, kind) else Some(kind), running)
    ensures running.None? ==>
      && (queued.Some? ==> Merge(queued.value, kind).Some?)
      && Shape(LogMore(r, kind), if queued.Some? then Merge(queued.value, kind) else Some(kind), pending, running)
  {
    LogMoreFacts(r, kind, if running.Some? then r.handed else r.settled);
    if running.Some? {
      assert (r.log + [kind])[r.settled..r.handed] == r.log[r.settled..r.handed];
    }
    assert r.log != [] ==> r.log[|r.log| - 1] != Deleted;
    assert DeliveriesOk(LogMore(r, kind));
  }

  lemma ShapeAfterHandOut(r: Record, kind: EventKind)
    requires Shape(r, Some(kind), None, None)
    ensures Shape(Deliver(r, kind), None, None, Some(kind))
  {
    assert r.log[r.settled..|r.log|] == r.log[r.settled..];
    assert r.settled == 0 ==> r.log[0..][0] == Added;
    assert Final(kind) ==> Deleted in r.log[r.settled..];
  }

  lemma ShapeAfterFinish(r: Record, pending: Option<EventKind>, kind: EventKind, requeue: bool)
    requires Shape(r, None, pending, Some(kind))
    ensures requeue && pending.Some? ==> Merge(kind, pending.value).Some?
    ensures var queued := if !requeue then pending else if pending.Some? then Merge(kind, pending.value) else Some(kind);
      Shape(Settle(r, requeue), queued, None, None)
  {
    if r.handed < |r.log| {
      StretchesMerge(r.log, r.settled, r.handed);
    } else {
      assert r.log[r.settled..r.handed] == r.log[r.settled..];
    }
  }

  // ---- the invariant ----------------------------------------------------------------------------

  function QueuedKind(q: QueueState, k: Key): (r: Option<EventKind>) {
    if k in q.queued && q.queued[k] in q.items then Some(q.items[q.queued[k]].v.eventKind) else None
  }

  function PendingKind(q: QueueState, k: Key): (r: Option<EventKind>) {
    if k in q.pending then Some(q.pending[k].eventKind) else None
  }

  ghost function RunningKind(s: Q.System, k: Key): (r: Option<EventKind>) {
    if c :| Q.RunningFor(s, c, k) then Some(s.running[c].v.eventKind) else None
  }

  ghost predicate KeyOk(t: System, k: Key) {
    Shape(RecordOf(t, k), QueuedKind(t.s.q, k), PendingKind(t.s.q, k), RunningKind(t.s, k))
  }

  ghost predicate Inv(t: System) {
    && Q.Inv(t.s)
    && forall k :: KeyOk(t, k)
  }

  lemma RunningKindIs(s: Q.System, c: nat)
    requires Q.OneEach(s) && c in s.running
    ensures RunningKind(s, s.running[c].k) == Some(s.running[c].v.eventKind)
  {
    assert Q.RunningFor(s, c, s.running[c].k);
  }

  lemma RunningKindNone(s: Q.System, k: Key)
    requires Q.OneEach(s) && k !in s.q.ongoing
    ensures RunningKind(s, k) == None
  {
  }

  /** The running kind of a key depends only on the callbacks for that key. */
  lemma RunningKindSame(s: Q.System, s': Q.System, k: Key)
    requires Q.OneEach(s) && Q.OneEach(s')
    requires forall c :: Q.RunningFor(s, c, k) <==> Q.RunningFor(s', c, k)
    requires forall c :: Q.RunningFor(s, c, k) && c in s'.running ==> s.running[c] == s'.running[c]
    ensures RunningKind(s', k) == RunningKind(s, k)
  {
    if c :| Q.RunningFor(s, c, k) {
      RunningKindIs(s, c);
      RunningKindIs(s', c);
    }
  }

  // ---- enqueueing -------------------------------------------------------------------------------

  lemma EnqueueNeverPanics(t: System, v: Value)
    requires Inv(t) && Enabled(t, Q.Enqueued(v))
    ensures Q.QueueAfter(t.s, Q.Enqueued(v)).Ok?
  {
    var k := v.obj.key;
    assert KeyOk(t, k);
    if k in t.s.q.ongoing {
      var c :| Q.RunningFor(t.s, c, k);
      RunningKindIs(t.s, c);
    } else {
      RunningKindNone(t.s, k);
    }
    ShapeAfterEnqueue(RecordOf(t, k), QueuedKind(t.s.q, k), PendingKind(t.s.q, k), RunningKind(t.s, k), v.eventKind);
  }

  lemma EnqueueKeepsKey(t: System, v: Value)
    requires Inv(t) && Enabled(t, Q.Enqueued(v)) && Q.QueueAfter(t.s, Q.Enqueued(v)).Ok?
    ensures KeyOk(After(t, Q.Enqueued(v)), v.obj.key)
  {
    var k := v.obj.key;
    var t' := After(t, Q.Enqueued(v));
    assert KeyOk(t, k);
    Q.EventKeepsInv(t.s, Q.Enqueued(v));
    RunningKindSame(t.s, t'.s, k);
    if k in t.s.q.ongoing {
      var c :| Q.RunningFor(t.s, c, k);
      RunningKindIs(t.s, c);
    } else {
      RunningKindNone(t.s, k);
    }
    ShapeAfterEnqueue(RecordOf(t, k), QueuedKind(t.s.q, k), PendingKind(t.s.q, k), RunningKind(t.s, k), v.eventKind);
  }

  lemma EnqueueKeepsInv(t: System, v: Value)
    requires Inv(t) && Enabled(t, Q.Enqueued(v)) && Q.QueueAfter(t.s, Q.Enqueued(v)).Ok?
    ensures Inv(After(t, Q.Enqueued(v)))
  {
    var t' := After(t, Q.Enqueued(v));
    Q.EventKeepsInv(t.s, Q.Enqueued(v));
    forall k
      ensures KeyOk(t', k)
    {
      if k == v.obj.key {
        EnqueueKeepsKey(t, v);
      } else {
        assert KeyOk(t, k);
        Q.EnqueueKeepsOthers(t.s.q, v.obj.key, v, k);
        RunningKindSame(t.s, t'.s, k);
      }
    }
  }

  // ---- handing out ------------------------------------------------------------------------------

  lemma HandOutKeepsKey(t: System, h: nat, now: int)
    requires Inv(t) && Enabled(t, Q.HandedOut(h, now))
    ensures KeyOk(After(t, Q.HandedOut(h, now)), t.s.q.items[h].k)
  {
    var t' := After(t, Q.HandedOut(h, now));
    var kv := t.s.q.items[h];
    Q.EventKeepsInv(t.s, Q.HandedOut(h, now));
    assert KeyOk(t, kv.k);
    RunningKindNone(t.s, kv.k);
    RunningKindIs(t'.s, t.s.nextCallback);
    ShapeAfterHandOut(RecordOf(t, kv.k), kv.v.eventKind);
  }

  lemma HandOutKeepsKinds(q: QueueState, h: nat, k: Key)
    requires Q.HandlesAgree(q) && h in q.items && k != q.items[h].k
    ensures QueuedKind(HandOut(q, h), k) == QueuedKind(q, k)
    ensures PendingKind(HandOut(q, h), k) == PendingKind(q, k)
  {
  }

  lemma HandOutKeepsRunning(s: Q.System, h: nat, now: int, k: Key)
    requires Q.OneEach(s) && Q.Enabled(s, Q.HandedOut(h, now)) && k != s.q.items[h].k
    requires Q.OneEach(Q.After(s, Q.HandedOut(h, now)))
    ensures RunningKind(Q.After(s, Q.HandedOut(h, now)), k) == RunningKind(s, k)
  {
    RunningKindSame(s, Q.After(s, Q.HandedOut(h, now)), k);
  }

  lemma HandOutKeepsOthers(t: System, h: nat, now: int, k: Key)
    requires Q.Inv(t.s) && KeyOk(t, k) && Enabled(t, Q.HandedOut(h, now)) && k != t.s.q.items[h].k
    requires Q.OneEach(Q.After(t.s, Q.HandedOut(h, now)))
    ensures KeyOk(After(t, Q.HandedOut(h, now)), k)
  {
    HandOutKeepsKinds(t.s.q, h, k);
    HandOutKeepsRunning(t.s, h, now, k);
  }

  lemma HandOutKeepsInv(t: System, h: nat, now: int)
    requires Inv(t) && Enabled(t, Q.HandedOut(h, now))
    ensures Inv(After(t, Q.HandedOut(h, now)))
  {
    Q.EventKeepsInv(t.s, Q.HandedOut(h, now));
    forall k
      ensures KeyOk(After(t, Q.HandedOut(h, now)), k)
    {
      if k == t.s.q.items[h].k {
        HandOutKeepsKey(t, h, now);
      } else {
        assert KeyOk(t, k);
        HandOutKeepsOthers(t, h, now, k);
      }
    }
  }

  // ---- finishing --------------------------------------------------------------------------------

  lemma FinishNeverPanics(t: System, c: nat, requeue: bool, retryAt: int)
    requires Inv(t) && c in t.s.running
    ensures Q.QueueAfter(t.s, Q.Finished(c, requeue, retryAt)).Ok?
  {
    var kv := t.s.running[c];
    assert KeyOk(t, kv.k);
    RunningKindIs(t.s, c);
    ShapeAfterFinish(RecordOf(t, kv.k), PendingKind(t.s.q, kv.k), kv.v.eventKind, requeue);
  }

  lemma FinishKeepsOthers(q: QueueState, k: Key, v: Value, requeue: bool, k': Key)
    requires Q.HandlesAgree(q) && Q.Separated(q) && k in q.ongoing && k' != k
    requires FinishAndMaybeRequeue(q, k, v, requeue).Ok?
    ensures QueuedKind(FinishAndMaybeRequeue(q, k, v, requeue).q, k') == QueuedKind(q, k')
    ensures PendingKind(FinishAndMaybeRequeue(q, k, v, requeue).q, k') == PendingKind(q, k')
  {
  }

  /** What is queued for the key after a reconcile of it has finished. */
  lemma FinishQueuesKind(q: QueueState, k: Key, v: Value, requeue: bool)
    requires Q.HandlesAgree(q) && Q.Separated(q) && k in q.ongoing && FinishAndMaybeRequeue(q, k, v, requeue).Ok?
    ensures var q', pending := FinishAndMaybeRequeue(q, k, v, requeue).q, PendingKind(q, k);
      && PendingKind(q', k) == None && k !in q'.ongoing
      && QueuedKind(q', k)
         == if !requeue then pending else if pending.Some? then Merge(v.eventKind, pending.value) else Some(v.eventKind)
  {
  }

  lemma FinishKeepsKey(t: System, c: nat, requeue: bool, retryAt: int)
    requires Inv(t) && c in t.s.running && Q.QueueAfter(t.s, Q.Finished(c, requeue, retryAt)).Ok?
    requires Q.OneEach(Q.After(t.s, Q.Finished(c, requeue, retryAt)))
    ensures KeyOk(After(t, Q.Finished(c, requeue, retryAt)), t.s.running[c].k)
  {
    var kv := t.s.running[c];
    assert KeyOk(t, kv.k);
    RunningKindIs(t.s, c);
    FinishQueuesKind(t.s.q, kv.k, Q.Retried(kv.v, requeue, retryAt), requeue);
    RunningKindNone(Q.After(t.s, Q.Finished(c, requeue, retryAt)), kv.k);
    ShapeAfterFinish(RecordOf(t, kv.k), PendingKind(t.s.q, kv.k), kv.v.eventKind, requeue);
  }

  lemma FinishKeepsInv(t: System, c: nat, requeue: bool, retryAt: int)
    requires Inv(t) && c in t.s.running && Q.QueueAfter(t.s, Q.Finished(c, requeue, retryAt)).Ok?
    ensures Inv(After(t, Q.Finished(c, requeue, retryAt)))
  {
    var t' := After(t, Q.Finished(c, requeue, retryAt));
    var kv := t.s.running[c];
    Q.EventKeepsInv(t.s, Q.Finished(c, requeue, retryAt));
    forall k
      ensures KeyOk(t', k)
    {
      if k == kv.k {
        FinishKeepsKey(t, c, requeue, retryAt);
      } else {
        assert KeyOk(t, k);
        FinishKeepsOtherKey(t, c, requeue, retryAt, k);
      }
    }
  }

  lemma FinishKeepsRunning(s: Q.System, c: nat, requeue: bool, retryAt: int, k: Key)
    requires Q.OneEach(s) && c in s.running && k != s.running[c].k && Q.QueueAfter(s, Q.Finished(c, requeue, retryAt)).Ok?
    requires Q.OneEach(Q.After(s, Q.Finished(c, requeue, retryAt)))
    ensures RunningKind(Q.After(s, Q.Finished(c, requeue, retryAt)), k) == RunningKind(s, k)
  {
    RunningKindSame(s, Q.After(s, Q.Finished(c, requeue, retryAt)), k);
  }

  lemma FinishKeepsOtherKey(t: System, c: nat, requeue: bool, retryAt: int, k: Key)
    requires Q.Inv(t.s) && KeyOk(t, k) && c in t.s.running && k != t.s.running[c].k
    requires Q.QueueAfter(t.s, Q.Finished(c, requeue, retryAt)).Ok? && Q.OneEach(Q.After(t.s, Q.Finished(c, requeue, retryAt)))
    ensures KeyOk(After(t, Q.Finished(c, requeue, retryAt)), k)
  {
    var kv := t.s.running[c];
    FinishKeepsOthers(t.s.q, kv.k, Q.Retried(kv.v, requeue, retryAt), requeue, k);
    FinishKeepsRunning(t.s, c, requeue, retryAt, k);
  }

  // ---- whole runs -------------------------------------------------------------------------------

  lemma EventKeepsInv(t: System, e: Q.Event)
    requires Inv(t) && Enabled(t, e)
    ensures Q.QueueAfter(t.s, e).Ok? && Inv(After(t, e))
  {
    match e
    case Enqueued(v) =>
      EnqueueNeverPanics(t, v);
      EnqueueKeepsInv(t, v);
    case HandedOut(h, now) => HandOutKeepsInv(t, h, now);
    case Finished(c, requeue, retryAt) =>
      FinishNeverPanics(t, c, requeue, retryAt);
      FinishKeepsInv(t, c, requeue, retryAt);
  }

  /** A run whose events are each possible at their turn, up to a panic if there is one. */
  ghost predicate ValidRun(t: System, events: seq<Q.Event>)
    decreases |events|
  {
    events != [] ==>
      Enabled(t, events[0]) && (Q.QueueAfter(t.s, events[0]).Ok? ==> ValidRun(After(t, events[0]), events[1..]))
  }

  ghost predicate NoPanic(t: System, events: seq<Q.Event>)
    requires ValidRun(t, events)
    decreases |events|
  {
    events != [] ==> Q.QueueAfter(t.s, events[0]).Ok? && NoPanic(After(t, events[0]), events[1..])
  }

  function Exec(t: System, events: seq<Q.Event>): (t': System)
    requires ValidRun(t, events) && NoPanic(t, events)
    decreases |events|
  {
    if events == [] then t else Exec(After(t, events[0]), events[1..])
  }

  lemma {:induction false} RunKeepsInv(t: System, events: seq<Q.Event>)
    requires Inv(t) && ValidRun(t, events)
    ensures NoPanic(t, events) && Inv(Exec(t, events))
    decreases |events|
  {
    if events != [] {
      EventKeepsInv(t, events[0]);
      RunKeepsInv(After(t, events[0]), events[1..]);
    }
  }

  /** What waits for a key: the sum of everything enqueued for it that no reconcile without a retry has dealt with. */
  ghost predicate WaitsForAll(t: System, k: Key) {
    var r := RecordOf(t, k);
    && r.settled <= |r.log|
    && (k in t.s.q.ongoing ==>
          && r.settled < r.handed <= |r.log|
          && RunningKind(t.s, k) == Some(Summary(r.log[r.settled..r.handed]))
          && PendingKind(t.s.q, k) == SummaryFrom(r.log, r.handed))
    && (k !in t.s.q.ongoing ==> QueuedKind(t.s.q, k) == SummaryFrom(r.log, r.settled))
  }

  lemma KeyFacts(t: System, k: Key)
    requires Inv(t)
    ensures WaitsForAll(t, k) && Sensible(RecordOf(t, k).delivered) && AddedUntilSettled(RecordOf(t, k))
  {
    assert KeyOk(t, k);
    if k in t.s.q.ongoing {
      var c :| Q.RunningFor(t.s, c, k);
      RunningKindIs(t.s, c);
    } else {
      RunningKindNone(t.s, k);
    }
  }

  /**
   * For every interleaving of well-ordered streams with handlers that take any time, fail and are retried:
   * no merge panics; what is queued, running and pending for a key is exactly the sum of the events that no reconcile
   * without a retry has dealt with, up to its hand-out and since; what each handler sees starts with Added or
   * Ephemeral and ends, if it does, with one and the same final kind; and until a reconcile of a key finishes without
   * a retry, every delivery of it is Added or Ephemeral.
   */
  lemma DeliveriesAreSensible(events: seq<Q.Event>)
    requires ValidRun(START, events)
    ensures NoPanic(START, events)
    ensures forall k :: WaitsForAll(Exec(START, events), k)
    ensures forall k :: Sensible(RecordOf(Exec(START, events), k).delivered)
    ensures forall k :: AddedUntilSettled(RecordOf(Exec(START, events), k))
  {
    forall k
      ensures KeyOk(START, k)
    {
      RunningKindNone(Q.START, k);
    }
    RunKeepsInv(START, events);
    forall k
      ensures WaitsForAll(Exec(START, events), k)
      ensures Sensible(RecordOf(Exec(START, events), k).delivered) && AddedUntilSettled(RecordOf(Exec(START, events), k))
    {
      KeyFacts(Exec(START, events), k);
    }
  }
}
