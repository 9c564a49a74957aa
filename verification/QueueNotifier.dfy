/**
 * The goroutine that tells workers when an item is due. It peeks at the front of the queue and then sleeps
 * until that item's deadline or until it is notified; no earlier deadline ever goes unnoticed.
 */
module QueueNotifier {
  import opened Api
  import opened ReconcileQueue
  import B = Broadcast
  import Q = QueueSafety

  datatype Pc =
    | Top                              // at the top of its loop
    | Sleeping(deadline: Option<int>)  // has peeked; about to wait, or waiting
    | Notified                         // its wait is over; about to record that
    | Sending                          // the deadline has passed; handing a notification to a worker

  datatype System = System(s: Q.System, pc: Pc, viewed: nat)

  const START: System := System(Q.START, Top, 0)

  datatype Event =
    | QueueEvent(e: Q.Event)
    | PeekFront(front: Option<nat>)
    | WaitEnds
    | Awake
    | DeadlineReached(now: int)
    | Sent

  /** The wait of a sleeping notifier is ready: the channel it selected on, at whatever moment, is closed. */
  predicate Ready(n: System) {
    n.viewed < n.s.q.sent
  }

  predicate Enabled(n: System, e: Event) {
    match e
    case QueueEvent(e) => Q.Enabled(n.s, e) && Q.QueueAfter(n.s, e).Ok?
    case PeekFront(front) => n.pc == Top && if front.Some? then IsLeast(n.s.q.items, front.value) else n.s.q.items.Keys == {}
    case WaitEnds => n.pc.Sleeping? && Ready(n)
    case Awake => n.pc == Notified
    case DeadlineReached(now) => n.pc.Sleeping? && n.pc.deadline.Some? && n.pc.deadline.value <= now
    case Sent => n.pc == Sending
  }

  function After(n: System, e: Event): (n': System)
    requires Enabled(n, e)
  {
    match e
    case QueueEvent(e) => n.(s := Q.After(n.s, e))
    case PeekFront(front) =>
      n.(pc := Sleeping(if front.Some? then Some(n.s.q.items[front.value].v.reconcileAt) else None))
    case WaitEnds => n.(pc := Notified)
    case Awake => n.(pc := Top, viewed := n.s.q.sent)
    case DeadlineReached(_) => n.(pc := Sending)
    case Sent => n.(pc := Top)
  }

  /** The queue holds an item that is due before the deadline the notifier has in mind. */
  ghost predicate HoldsEarlier(q: QueueState, deadline: Option<int>) {
    exists h :: h in q.items && (deadline.None? || q.items[h].v.reconcileAt < deadline.value)
  }

  ghost predicate Inv(n: System) {
    && n.viewed <= n.s.q.sent
    && (n.pc.Sleeping? && HoldsEarlier(n.s.q, n.pc.deadline) ==> Ready(n))
  }

  /** Whatever makes the front of the queue earlier also notifies. */
  lemma EarlierFrontNotifies(s: Q.System, e: Q.Event, deadline: Option<int>)
    requires Q.Enabled(s, e) && Q.QueueAfter(s, e).Ok?
    ensures s.q.sent <= Q.QueueAfter(s, e).q.sent
    ensures !HoldsEarlier(s.q, deadline) && HoldsEarlier(Q.QueueAfter(s, e).q, deadline) ==>
      s.q.sent < Q.QueueAfter(s, e).q.sent
  {
    var q' := Q.QueueAfter(s, e).q;
    if s.q.sent == q'.sent && HoldsEarlier(q', deadline) {
      var h :| h in q'.items && (deadline.None? || q'.items[h].v.reconcileAt < deadline.value);
      assert h in s.q.items && s.q.items[h] == q'.items[h];
    }
  }

  lemma EventKeepsInv(n: System, e: Event)
    requires Inv(n) && Enabled(n, e)
    ensures Inv(After(n, e))
  {
    if e.QueueEvent? && n.pc.Sleeping? {
      EarlierFrontNotifies(n.s, e.e, n.pc.deadline);
    } else if e.QueueEvent? {
      EarlierFrontNotifies(n.s, e.e, None);
    }
  }

  ghost predicate ValidRun(n: System, events: seq<Event>)
    decreases |events|
  {
    events != [] ==> Enabled(n, events[0]) && ValidRun(After(n, events[0]), events[1..])
  }

  function Exec(n: System, events: seq<Event>): (n': System)
    requires ValidRun(n, events)
    decreases |events|
  {
    if events == [] then n else Exec(After(n, events[0]), events[1..])
  }

  lemma {:induction false} RunKeepsInv(n: System, events: seq<Event>)
    requires Inv(n) && ValidRun(n, events)
    ensures Inv(Exec(n, events))
    decreases |events|
  {
    if events != [] {
      EventKeepsInv(n, events[0]);
      RunKeepsInv(After(n, events[0]), events[1..]);
    }
  }

  /**
   * In every interleaving, a notifier that sleeps towards a deadline (or because the queue was empty) while
   * the queue holds an earlier item has a wait that is ready: any channel its wait returned, or would
   * return, since it last recorded a notification is closed.
   */
  lemma NoLostWakeup(events: seq<Event>, sentAtWait: nat)
    requires ValidRun(START, events)
    requires var n := Exec(START, events);
      && n.pc.Sleeping? && HoldsEarlier(n.s.q, n.pc.deadline)
      && n.viewed <= sentAtWait <= n.s.q.sent
    ensures var n := Exec(START, events);
      && Enabled(n, WaitEnds)
      && B.Closed(B.WaitChannel(sentAtWait, n.viewed), n.s.q.sent)
  {
    RunKeepsInv(START, events);
    var n := Exec(START, events);
    B.ReadyExactlyIfUnseen(n.viewed, sentAtWait, n.s.q.sent);
  }

  /** Nothing is queued, or the item under the handle is at the front. */
  predicate IsFront(q: QueueState, front: Option<nat>) {
    if front.Some? then IsLeast(q.items, front.value) else q.items.Keys == {}
  }

  /** What brings the notifier back to sleep: recording the notification or handing it over, if need be, and a look at the front. */
  function BackToSleep(pc: Pc, front: Option<nat>): (events: seq<Event>)
    requires !pc.Sleeping?
  {
    match pc
    case Top => [PeekFront(front)]
    case Notified => [Awake, PeekFront(front)]
    case Sending => [Sent, PeekFront(front)]
  }

  /**
   * Wherever it is, an undisturbed notifier goes back to sleep towards the moment of the item at the front, and after a
   * notification its wait is not ready again until the next one: it neither misses a deadline nor spins.
   */
  lemma SleepsTowardsFront(n: System, front: Option<nat>)
    requires Inv(n) && !n.pc.Sleeping? && IsFront(n.s.q, front)
    ensures ValidRun(n, BackToSleep(n.pc, front))
    ensures var n' := Exec(n, BackToSleep(n.pc, front));
      && n'.s == n.s
      && n'.pc == Sleeping(if front.Some? then Some(n.s.q.items[front.value].v.reconcileAt) else None)
      && (n.pc.Notified? ==> !Ready(n'))
  {
    if n.pc.Top? {
      RunOne(n, PeekFront(front));
    } else {
      var first := if n.pc.Notified? then Awake else Sent;
      RunOne(After(n, first), PeekFront(front));
      assert [first, PeekFront(front)][1..] == [PeekFront(front)];
    }
  }

  lemma RunOne(n: System, e: Event)
    requires Enabled(n, e)
    ensures ValidRun(n, [e]) && Exec(n, [e]) == After(n, e)
  {
    assert [e][1..] == [];
  }
}
