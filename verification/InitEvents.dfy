/**
 * The startup barrier: a channel that is closed once every object that was there at the start has been
 * reconciled without error.
 */
module InitEvents {
  import opened ReconcileQueue

  datatype Barrier = Barrier(done: bool, timesClosed: nat, doneAdding: bool, remaining: set<Key>)

  const FRESH: Barrier := Barrier(false, 0, false, {})

  function Checked(b: Barrier): (b': Barrier) {
    if b.done then b
    else if b.doneAdding && b.remaining == {} then b.(timesClosed := b.timesClosed + 1, done := true)
    else b
  }

  function Requiring(b: Barrier, k: Key): (b': Barrier) {
    b.(remaining := b.remaining + {k})
  }

  function Sealed(b: Barrier): (b': Barrier) {
    Checked(b.(doneAdding := true))
  }

  /** The part of recording a success that runs under the lock. */
  function Succeeding(b: Barrier, k: Key): (b': Barrier) {
    Checked(b.(remaining := b.remaining - {k}))
  }

  /** The channel is closed at most once, and exactly if adding is sealed and nothing remains. */
  ghost predicate BarrierOk(b: Barrier) {
    && (b.done <==> b.doneAdding && b.remaining == {})
    && b.timesClosed == (if b.done then 1 else 0)
  }

  class InitEventsMiddleware {
    var done: bool
    var timesClosed: nat
    var doneAdding: bool
    var remaining: set<Key>

    function Value(): (b: Barrier)
      reads this
    {
      Barrier(done, timesClosed, doneAdding, remaining)
    }

    constructor ()
      ensures Value() == FRESH
    {
      done, timesClosed, doneAdding, remaining := false, 0, false, {};
    }

    /** Returns false, having changed nothing, where the code panics. */
    method AddRequired(k: Key) returns (ok: bool)
      modifies this`remaining
      ensures ok <==> !doneAdding
      ensures Value() == if ok then Requiring(old(Value()), k) else old(Value())
    {
      if doneAdding {
        return false;
      }
      remaining := remaining + {k};
      return true;
    }

    method Done() returns (closed: bool)
      modifies this`done, this`timesClosed, this`doneAdding
      ensures Value() == Sealed(old(Value()))
      ensures closed <==> timesClosed > 0
    {
      doneAdding := true;
      CheckDone();
      closed := timesClosed > 0;
    }

    method Success(k: Key)
      modifies this`done, this`timesClosed, this`remaining
      ensures Value() == if old(done) then old(Value()) else Succeeding(old(Value()), k)
    {
      if done {
        return;
      }
      remaining := remaining - {k};
      CheckDone();
    }

    method CheckDone()
      modifies this`done, this`timesClosed
      ensures Value() == Checked(old(Value()))
    {
      if done {
        return;
      }
      if doneAdding && remaining == {} {
        timesClosed := timesClosed + 1;
        done := true;
      }
    }
  }

  // ---- interleaved reconciles -------------------------------------------------------------------

  /** A reconcile of a key: its handler runs; it returned without error; it found the barrier not done yet. */
  datatype Stage = Running | Succeeded | AwaitingLock

  datatype Call = Call(k: Key, stage: Stage)

  /** `required` holds the keys added; `reconciled` those with an error-free reconcile since they were added. */
  datatype System = System(b: Barrier, calls: map<nat, Call>, required: set<Key>, reconciled: set<Key>)

  const START: System := System(FRESH, map[], {}, {})

  datatype Event =
    | Add(k: Key)
    | Seal
    | Begin(c: nat, k: Key)
    | Return(c: nat, ok: bool)
    | FastPath(c: nat)
    | Locked(c: nat)

  /** Whether a reconcile of the key has succeeded and is yet to be recorded. */
  predicate AboutToRecord(t: System, k: Key) {
    exists c :: c in t.calls && t.calls[c].k == k && t.calls[c].stage != Running
  }

  /** Objects are added before they are first enqueued, so no reconcile of them is about to be recorded. */
  predicate Enabled(t: System, e: Event) {
    match e
    case Add(k) => !t.b.doneAdding && !AboutToRecord(t, k)
    case Seal => true
    case Begin(c, _) => c !in t.calls
    case Return(c, _) => c in t.calls && t.calls[c].stage == Running
    case FastPath(c) => c in t.calls && t.calls[c].stage == Succeeded
    case Locked(c) => c in t.calls && t.calls[c].stage == AwaitingLock
  }

  function After(t: System, e: Event): (t': System)
    requires match e
      case Return(c, _) => c in t.calls
      case FastPath(c) => c in t.calls
      case Locked(c) => c in t.calls
      case _ => true
  {
    match e
    case Add(k) => t.(b := Requiring(t.b, k), required := t.required + {k}, reconciled := t.reconciled - {k})
    case Seal => t.(b := Sealed(t.b))
    case Begin(c, k) => t.(calls := t.calls[c := Call(k, Running)])
    case Return(c, ok) =>
      // An error, or a panic that unwinds through here, records nothing.
      if ok then t.(calls := t.calls[c := t.calls[c].(stage := Succeeded)], reconciled := t.reconciled + {t.calls[c].k})
      else t.(calls := t.calls - {c})
    case FastPath(c) =>
      if t.b.done then t.(calls := t.calls - {c})
      else t.(calls := t.calls[c := t.calls[c].(stage := AwaitingLock)])
    case Locked(c) => t.(b := Succeeding(t.b, t.calls[c].k), calls := t.calls - {c})
  }

  ghost predicate Inv(t: System) {
    && BarrierOk(t.b)
    && (forall k :: k in t.required && k !in t.b.remaining ==> k in t.reconciled)
    && (forall c :: c in t.calls && t.calls[c].stage != Running && t.calls[c].k in t.required ==> t.calls[c].k in t.reconciled)
  }

  lemma EventKeepsInv(t: System, e: Event)
    requires Inv(t) && Enabled(t, e)
    ensures Inv(After(t, e))
    ensures t.b.done ==> After(t, e).b.done && After(t, e).required == t.required
  {
  }

  /** Until sealing, adding keeps the invariant if and only if no reconcile of the key is about to be recorded. */
  lemma AddKeepsInvIff(t: System, k: Key)
    requires Inv(t) && !t.b.doneAdding
    ensures Inv(After(t, Add(k))) <==> !AboutToRecord(t, k)
  {
    if AboutToRecord(t, k) {
      var c :| c in t.calls && t.calls[c].k == k && t.calls[c].stage != Running;
      assert k in After(t, Add(k)).required && k !in After(t, Add(k)).reconciled;
    }
  }

  ghost predicate ValidRun(t: System, events: seq<Event>)
    decreases |events|
  {
    events != [] ==> Enabled(t, events[0]) && ValidRun(After(t, events[0]), events[1..])
  }

  function Exec(t: System, events: seq<Event>): (t': System)
    requires ValidRun(t, events)
    decreases |events|
  {
    if events == [] then t else Exec(After(t, events[0]), events[1..])
  }

  lemma {:induction false} RunKeepsInv(t: System, events: seq<Event>)
    requires Inv(t) && ValidRun(t, events)
    ensures Inv(Exec(t, events))
    ensures t.b.done ==> Exec(t, events).b.done && Exec(t, events).required == t.required
    decreases |events|
  {
    if events != [] {
      EventKeepsInv(t, events[0]);
      RunKeepsInv(After(t, events[0]), events[1..]);
    }
  }

  /**
   * Over all interleavings and retries: the channel is closed at most once, it is closed exactly if adding
   * is sealed and no required key remains, it stays closed, and then every required object has had an
   * error-free reconcile since it was added.
   */
  lemma BarrierOpensInTime(events: seq<Event>, later: seq<Event>)
    requires ValidRun(START, events) && ValidRun(Exec(START, events), later)
    ensures var t := Exec(START, events);
      && t.b.timesClosed <= 1
      && (t.b.timesClosed == 1 <==> t.b.doneAdding && t.b.remaining == {})
      && (t.b.done ==> t.required <= t.reconciled && Exec(t, later).b.timesClosed == 1)
  {
    RunKeepsInv(START, events);
    RunKeepsInv(Exec(START, events), later);
  }

  // ---- adding at the wrong moment ---------------------------------------------------------------

  /** The events open the barrier although the required `k` has not been reconciled since it was added. */
  ghost predicate OpensWithout(t: System, events: seq<Event>, k: Key) {
    ValidRun(t, events) && var t' := Exec(t, events); t'.b.done && k in t'.required && k !in t'.reconciled
  }

  /** Adding is not sealed, and `k` counts as dealt with although it has not been reconciled since it was added. */
  ghost predicate Slipped(t: System, k: Key) {
    && !t.b.doneAdding && !t.b.done
    && k in t.required && k !in t.b.remaining && k !in t.reconciled
  }

  lemma Prepend(t: System, e: Event, events: seq<Event>, k: Key)
    requires Enabled(t, e) && OpensWithout(After(t, e), events, k)
    ensures OpensWithout(t, [e] + events, k)
  {
    assert ([e] + events)[1..] == events;
  }

  lemma {:induction false} SomeLarger(s: set<nat>) returns (c: nat)
    ensures c !in s && forall x :: x in s ==> x < c
  {
    if s == {} {
      c := 0;
    } else {
      var x :| x in s;
      var d := SomeLarger(s - {x});
      c := if x < d then d else x + 1;
      forall y | y in s ensures y < c {
        assert y == x || y in s - {x};
      }
    }
  }

  /** A whole reconcile of `x`, from the start of its handler to its record. */
  lemma Served(t: System, x: Key, c: nat)
    requires c !in t.calls && !t.b.doneAdding && !t.b.done
    ensures var t1 := After(t, Begin(c, x));
      var t2 := After(t1, Return(c, true));
      var t3 := After(t2, FastPath(c));
      var t4 := After(t3, Locked(c));
      && Enabled(t, Begin(c, x)) && Enabled(t1, Return(c, true)) && Enabled(t2, FastPath(c)) && Enabled(t3, Locked(c))
      && t4.b == t.b.(remaining := t.b.remaining - {x})
      && t4.required == t.required && t4.reconciled == t.reconciled + {x}
  {
  }

  /** Whatever else is still to be reconciled can be, and then sealing opens the barrier. */
  lemma {:induction false} SlippedOpens(t: System, k: Key) returns (events: seq<Event>)
    requires Slipped(t, k)
    ensures OpensWithout(t, events, k)
    decreases |t.b.remaining|
  {
    if t.b.remaining == {} {
      events := [Seal];
      assert [Seal][1..] == [];
    } else {
      var x :| x in t.b.remaining;
      var c := SomeLarger(t.calls.Keys);
      Served(t, x, c);
      var t1 := After(t, Begin(c, x));
      var t2 := After(t1, Return(c, true));
      var t3 := After(t2, FastPath(c));
      var rest := SlippedOpens(After(t3, Locked(c)), k);
      Prepend(t3, Locked(c), rest, k);
      Prepend(t2, FastPath(c), [Locked(c)] + rest, k);
      Prepend(t1, Return(c, true), [FastPath(c)] + ([Locked(c)] + rest), k);
      events := [Begin(c, x)] + ([Return(c, true)] + ([FastPath(c)] + ([Locked(c)] + rest)));
      Prepend(t, Begin(c, x), [Return(c, true)] + ([FastPath(c)] + ([Locked(c)] + rest)), k);
    }
  }

  /**
   * The order of adding matters: from every state in which an object is added again while one of its reconciles is
   * about to be recorded, events follow that open the barrier although it has not been reconciled since.
   */
  lemma AddingDuringReconcile(t: System, k: Key) returns (events: seq<Event>)
    requires Inv(t) && !t.b.doneAdding && AboutToRecord(t, k)
    ensures OpensWithout(After(t, Add(k)), events, k)
  {
    var c :| c in t.calls && t.calls[c].k == k && t.calls[c].stage != Running;
    var t1 := After(t, Add(k));
    if t1.calls[c].stage == Succeeded {
      var t2 := After(t1, FastPath(c));
      var rest := SlippedOpens(After(t2, Locked(c)), k);
      Prepend(t2, Locked(c), rest, k);
      events := [FastPath(c)] + ([Locked(c)] + rest);
      Prepend(t1, FastPath(c), [Locked(c)] + rest, k);
    } else {
      var rest := SlippedOpens(After(t1, Locked(c)), k);
      events := [Locked(c)] + rest;
      Prepend(t1, Locked(c), rest, k);
    }
  }

  /** The boundary is met: an object that is added, starts its reconcile, and succeeds in it. */
  lemma BoundaryIsReached(k: Key)
    ensures var events := [Add(k), Begin(0, k), Return(0, true)];
      ValidRun(START, events) && !Exec(START, events).b.doneAdding && AboutToRecord(Exec(START, events), k)
  {
    var t1 := After(START, Add(k));
    var t2 := After(t1, Begin(0, k));
    var t3 := After(t2, Return(0, true));
    assert t3.calls[0].k == k && t3.calls[0].stage == Succeeded;
    var r, b := Return(0, true), Begin(0, k);
    assert [Add(k), b, r][1..] == [b, r] && [b, r][1..] == [r] && [r][1..] == [];
    assert ValidRun(t3, []) && Exec(t3, []) == t3;
    assert ValidRun(t2, [r]) && Exec(t2, [r]) == t3;
    assert ValidRun(t1, [b, r]) && Exec(t1, [b, r]) == t3;
  }
}
