/**
 * The reconcile queue of the scheduler plugin: at most one reconcile per object at a time, with changes
 * that arrive meanwhile merged and kept for later. Times are nanoseconds.
 */
module ReconcileQueue {
  import opened Api

  datatype EventKind = Added | Modified | Deleted | Ephemeral

  /** The combination of two events; None where the code panics. */
  function Merge(k: EventKind, other: EventKind): (r: Option<EventKind>) {
    if k == Ephemeral || other == Ephemeral then None
    else if k == Modified then Some(other)
    else if other == Modified then Some(k)
    else if (k == Added && other == Deleted) || (k == Deleted && other == Added) then Some(Ephemeral)
    else None
  }

  /**
   * The order of the two does not matter, Modified adds nothing, and coming and going make an ephemeral object. It is a
   * panic to merge anything with Ephemeral, or two comings or two goings.
   */
  lemma MergeLaws(k: EventKind, other: EventKind)
    ensures Merge(k, other) == Merge(other, k)
    ensures k != Ephemeral ==> Merge(k, Modified) == Some(k)
    ensures Merge(Added, Deleted) == Some(Ephemeral)
    ensures Merge(k, other).None? <==> k == Ephemeral || other == Ephemeral || (k == other && k != Modified)
  {
  }

  datatype Key = Key(gvk: nat, uid: nat)

  datatype Object = Object(key: Key, content: nat)

  datatype Value = Value(reconcileAt: int, eventKind: EventKind, obj: Object)

  function MergeWithNewer(v: Value, newer: Value): (r: Option<Value>) {
    match Merge(v.eventKind, newer.eventKind)
    case None => None
    case Some(kind) =>
      Some(Value(if v.reconcileAt < newer.reconcileAt then v.reconcileAt else newer.reconcileAt, kind, newer.obj))
  }

  datatype KV = KV(k: Key, v: Value)

  /**
   * `items` is the priority queue: the values that are waiting, each under the handle that was given out
   * when it was pushed. `sent` counts the notifications to the goroutine that wakes the workers.
   */
  datatype QueueState = QueueState(
    items: map<nat, KV>,
    nextHandle: nat,
    queued: map<Key, nat>,
    pending: map<Key, Value>,
    ongoing: set<Key>,
    sent: nat)

  const EMPTY: QueueState := QueueState(map[], 0, map[], map[], {}, 0)

  /** The contract of the priority queue: what it hands out first. */
  predicate IsLeast(items: map<nat, KV>, h: nat) {
    h in items && forall h' :: h' in items ==> items[h].v.reconcileAt <= items[h'].v.reconcileAt
  }

  lemma {:induction false} LeastExists(items: map<nat, KV>)
    requires items.Keys != {}
    ensures exists h :: IsLeast(items, h)
    decreases |items|
  {
    var h :| h in items;
    var rest := items - {h};
    if rest.Keys == {} {
      assert forall h' :: h' in items ==> h' in rest || h' == h;
      assert IsLeast(items, h);
    } else {
      assert rest.Keys == items.Keys - {h};
      LeastExists(rest);
      var m :| IsLeast(rest, m);
      var least := if items[h].v.reconcileAt < items[m].v.reconcileAt then h else m;
      assert forall h' :: h' in items ==> h' in rest || h' == h;
      assert IsLeast(items, least);
    }
  }

  datatype Outcome = Ok(q: QueueState) | Panic

  function Push(q: QueueState, k: Key, v: Value): (q': QueueState) {
    q.(items := q.items[q.nextHandle := KV(k, v)], nextHandle := q.nextHandle + 1,
       queued := q.queued[k := q.nextHandle], sent := q.sent + 1)
  }

  function EnqueuePendingChange(q: QueueState, k: Key, v: Value): (r: Outcome) {
    if k in q.pending then
      match MergeWithNewer(q.pending[k], v)
      case None => Panic
      case Some(merged) => Ok(q.(pending := q.pending[k := merged]))
    else Ok(q.(pending := q.pending[k := v]))
  }

  function EnqueueInactive(q: QueueState, k: Key, v: Value): (r: Outcome) {
    if k in q.queued then
      var h := q.queued[k];
      if h !in q.items then Panic
      else
        match MergeWithNewer(q.items[h].v, v)
        case None => Panic
        case Some(merged) => Ok(q.(items := q.items[h := KV(q.items[h].k, merged)], sent := q.sent + 1))
    else Ok(Push(q, k, v))
  }

  function Enqueue(q: QueueState, k: Key, v: Value): (r: Outcome) {
    if k in q.ongoing then EnqueuePendingChange(q, k, v) else EnqueueInactive(q, k, v)
  }

  /** Handing out the item with handle `h`, which the priority queue had at its front. */
  function HandOut(q: QueueState, h: nat): (q': QueueState)
    requires h in q.items
  {
    var k := q.items[h].k;
    q.(items := q.items - {h}, queued := q.queued - {k}, ongoing := q.ongoing + {k})
  }

  function FinishAndMaybeRequeue(q: QueueState, k: Key, v: Value, requeue: bool): (r: Outcome) {
    var q1 := q.(ongoing := q.ongoing - {k});
    if k in q.pending then
      var q2 := q1.(pending := q.pending - {k});
      if requeue then
        match MergeWithNewer(v, q.pending[k])
        case None => Panic
        case Some(merged) => Ok(Push(q2, k, merged))
      else Ok(Push(q2, k, q.pending[k]))
    else if requeue then Ok(Push(q1, k, v))
    else Ok(q1)
  }

  /** The queue as it is kept and changed in place under its lock. */
  class Queue {
    var items: map<nat, KV>
    var nextHandle: nat
    var queued: map<Key, nat>
    var pending: map<Key, Value>
    var ongoing: set<Key>
    var sent: nat
    const handlers: set<nat>

    function Contents(): (q: QueueState)
      reads this
    {
      QueueState(items, nextHandle, queued, pending, ongoing, sent)
    }

    constructor (handlers: set<nat>)
      ensures Contents() == EMPTY && this.handlers == handlers
    {
      items, nextHandle, queued, pending, ongoing, sent := map[], 0, map[], map[], {}, 0;
      this.handlers := handlers;
    }

    /** The front of the priority queue, or None if it is empty. */
    method Peek() returns (front: Option<nat>)
      ensures front.None? <==> items.Keys == {}
      ensures front.Some? ==> IsLeast(items, front.value)
    {
      if items.Keys == {} {
        return None;
      }
      LeastExists(items);
      var h :| h in items.Keys && IsLeast(items, h);
      return Some(h);
    }

    /** Returns false, having changed nothing, where the code panics. */
    method EnqueueEvent(now: int, kind: EventKind, obj: Object) returns (ok: bool)
      modifies this`items, this`nextHandle, this`queued, this`pending, this`sent
      ensures var r := old(Enqueue(Contents(), obj.key, Value(now, kind, obj)));
        && (ok <==> obj.key.gvk in handlers && r.Ok?)
        && Contents() == if ok then r.q else old(Contents())
    {
      if obj.key.gvk !in handlers {
        return false;
      }
      var k, v := obj.key, Value(now, kind, obj);
      if k in ongoing {
        if k in pending {
          var merged := MergeWithNewer(pending[k], v);
          if merged.None? {
            return false;
          }
          v := merged.value;
        }
        pending := pending[k := v];
      } else if k in queued {
        var h := queued[k];
        if h !in items {
          return false;
        }
        var merged := MergeWithNewer(items[h].v, v);
        if merged.None? {
          return false;
        }
        items := items[h := KV(items[h].k, merged.value)];
        sent := sent + 1;
      } else {
        items := items[nextHandle := KV(k, v)];
        queued := queued[k := nextHandle];
        nextHandle := nextHandle + 1;
        sent := sent + 1;
      }
      return true;
    }

    /** The item at the front, if it is due; it counts as ongoing from here on. */
    method Next(now: int) returns (callback: Option<KV>)
      modifies this`items, this`queued, this`ongoing
      ensures callback.None? ==>
        Contents() == old(Contents()) && forall h :: h in items ==> items[h].v.reconcileAt > now
      ensures callback.Some? ==> exists h ::
        && IsLeast(old(items), h) && old(items)[h] == callback.value && callback.value.v.reconcileAt <= now
        && Contents() == HandOut(old(Contents()), h)
    {
      var front := Peek();
      if front.None? || items[front.value].v.reconcileAt > now {
        return None;
      }
      var kv := items[front.value];
      items := items - {front.value};
      queued := queued - {kv.k};
      ongoing := ongoing + {kv.k};
      assert Contents() == HandOut(old(Contents()), front.value);
      return Some(kv);
    }

    /** Returns false where the code panics, which is after the key was taken off the ongoing ones. */
    method Finish(k: Key, value: Value, retry: bool) returns (ok: bool)
      modifies this`items, this`nextHandle, this`queued, this`pending, this`ongoing, this`sent
      ensures var r := old(FinishAndMaybeRequeue(Contents(), k, value, retry));
        && (ok <==> r.Ok?)
        && Contents() == if ok then r.q else old(Contents().(ongoing := ongoing - {k}))
    {
      var v, requeue := value, retry;
      ongoing := ongoing - {k};
      if k in pending {
        if requeue {
          var merged := MergeWithNewer(v, pending[k]);
          if merged.None? {
            return false;
          }
          v := merged.value;
        } else {
          v := pending[k];
          requeue := true;
        }
        pending := pending - {k};
      }
      if requeue {
        items := items[nextHandle := KV(k, v)];
        queued := queued[k := nextHandle];
        nextHandle := nextHandle + 1;
        sent := sent + 1;
      }
      return true;
    }
  }
}
