/** Batching of events for reporting, and the sender that ships the batches while events keep coming. */
module Reporting {
  import opened Api

  /** A finished batch: its events as they were added, and their number. */
  datatype Batch<E> = Batch(events: seq<E>, count: nat)

  datatype Batcher<E> = Batcher(
    targetBatchSize: int,
    ongoing: seq<E>,
    ongoingSize: nat,
    completed: seq<Batch<E>>,
    completedSize: int)

  function Finished<E>(b: Batcher<E>): (b': Batcher<E>) {
    b.(completed := b.completed + [Batch(b.ongoing, b.ongoingSize)], completedSize := b.completedSize + b.ongoingSize,
       ongoing := [], ongoingSize := 0)
  }

  function Added<E>(b: Batcher<E>, event: E): (b': Batcher<E>) {
    b.(ongoing := b.ongoing + [event], ongoingSize := b.ongoingSize + 1)
  }

  /** Whether adding one more event completes the batch. */
  predicate Completes<E>(b: Batcher<E>) {
    b.ongoingSize + 1 >= b.targetBatchSize
  }

  function Enqueued<E>(b: Batcher<E>, event: E): (b': Batcher<E>) {
    if Completes(b) then Finished(Added(b, event)) else Added(b, event)
  }

  function Dropped<E>(b: Batcher<E>): (b': Batcher<E>)
    requires b.completed != []
  {
    b.(completed := b.completed[1..], completedSize := b.completedSize - b.completed[0].count)
  }

  /** The batcher as it is changed in place under its lock. `notified` is the buffered completion channel. */
  class EventBatcher<E> {
    const targetBatchSize: int
    var ongoing: seq<E>
    var ongoingSize: nat
    var completed: seq<Batch<E>>
    var completedSize: int
    var notified: bool

    function Value(): (b: Batcher<E>)
      reads this
    {
      Batcher(targetBatchSize, ongoing, ongoingSize, completed, completedSize)
    }

    constructor (targetBatchSize: int)
      ensures Value() == Batcher(targetBatchSize, [], 0, [], 0) && !notified
    {
      this.targetBatchSize := targetBatchSize;
      ongoing, ongoingSize, completed, completedSize, notified := [], 0, [], 0, false;
    }

    method Enqueue(event: E)
      modifies this
      ensures Value() == Enqueued(old(Value()), event)
      ensures notified == (old(notified) || old(Completes(Value())))
    {
      ongoing := ongoing + [event];
      ongoingSize := ongoingSize + 1;
      if ongoingSize >= targetBatchSize {
        FinishCurrentBatch();
      }
    }

    method FinishOngoing()
      modifies this
      ensures Value() == if old(ongoingSize) == 0 then old(Value()) else Finished(old(Value()))
      ensures notified == (old(notified) || old(ongoingSize) != 0)
    {
      if ongoingSize == 0 {
        return;
      }
      FinishCurrentBatch();
    }

    method FinishCurrentBatch()
      modifies this
      ensures Value() == Finished(old(Value())) && notified
    {
      completed := completed + [Batch(ongoing, ongoingSize)];
      completedSize := completedSize + ongoingSize;
      ongoingSize := 0;
      ongoing := [];
      notified := true;
    }

    method PeekLatestCompleted() returns (batch: Batch<E>)
      requires completed != []
      ensures batch == completed[0]
    {
      batch := completed[0];
    }

    method DropLatestCompleted()
      requires completed != []
      modifies this`completed, this`completedSize
      ensures Value() == Dropped(old(Value()))
    {
      var batch := completed[0];
      completed := completed[1..];
      completedSize := completedSize - batch.count;
    }
  }

  // ---- the sender beside the producers ----------------------------------------------------------

  /** Where the sender is: in its select, or in the steps of sending all completed batches. */
  datatype Pc<E> = Idle | Counting | Peeking | Sending(batch: Batch<E>) | Dropping(batch: Batch<E>) | Exited

  /** The batcher, its completion channel, and the sender; `final` is set for the sender's last round. */
  datatype Program<E> = Program(b: Batcher<E>, notified: bool, pc: Pc<E>, final: bool)

  datatype Event<E> = Enqueue(e: E) | Notification | Heartbeat | Shutdown | Count | Peek | SendDone(ok: bool) | Drop

  predicate Enabled<E>(p: Program<E>, e: Event<E>) {
    match e
    case Enqueue(_) => true
    case Notification => p.pc == Idle && p.notified
    case Heartbeat => p.pc == Idle
    case Shutdown => p.pc == Idle
    case Count => p.pc == Counting
    case Peek => p.pc == Peeking && p.b.completed != []
    case SendDone(_) => p.pc.Sending?
    case Drop => p.pc.Dropping? && p.b.completed != []
  }

  function AfterFinishOngoing<E>(p: Program<E>): (p': Program<E>) {
    if p.b.ongoingSize == 0 then p else p.(b := Finished(p.b), notified := true)
  }

  /** Back to the select, unless this was the last round. */
  function RoundOver<E>(p: Program<E>): (p': Program<E>) {
    p.(pc := if p.final then Exited else Idle)
  }

  function Step<E>(p: Program<E>, e: Event<E>): (p': Program<E>)
    requires Enabled(p, e)
  {
    match e
    case Enqueue(event) => p.(b := Enqueued(p.b, event), notified := p.notified || Completes(p.b))
    case Notification => p.(notified := false, pc := Counting)
    case Heartbeat => AfterFinishOngoing(p)
    case Shutdown => AfterFinishOngoing(p).(final := true, pc := Counting)
    case Count => if p.b.completed == [] then RoundOver(p) else p.(pc := Peeking)
    case Peek => p.(pc := Sending(p.b.completed[0]))
    case SendDone(ok) => if ok then p.(pc := Dropping(p.pc.batch)) else RoundOver(p)
    case Drop => p.(b := Dropped(p.b), pc := Counting)
  }

  /**
   * What an observer of the events and the batcher notes down: the events enqueued, the batches whose sending succeeded
   * and those taken away, how many batches were flushed before reaching the target, how many completed since the last
   * notification was received, whether the last send failed, and whether shutdown has begun.
   */
  datatype Record<E> = Record(
    enqueued: seq<E>,
    sent: seq<Batch<E>>,
    dropped: seq<Batch<E>>,
    flushes: nat,
    unseen: nat,
    lastSendFailed: bool,
    stopping: bool)

  function Noted<E>(r: Record<E>, p: Program<E>, e: Event<E>, p': Program<E>): (r': Record<E>)
    requires Enabled(p, e)
  {
    Record(
      if e.Enqueue? then r.enqueued + [e.e] else r.enqueued,
      if e == SendDone(true) then r.sent + [p.pc.batch] else r.sent,
      if e.Drop? then r.dropped + [p.b.completed[0]] else r.dropped,
      if (e.Heartbeat? || e.Shutdown?) && p.b.ongoing != [] then r.flushes + 1 else r.flushes,
      if e.Notification? then 0 else r.unseen + MaxInt(0, |p'.b.completed| - |p.b.completed|),
      if e.SendDone? then !e.ok else r.lastSendFailed,
      r.stopping || e.Shutdown?)
  }

  datatype System<E> = System(p: Program<E>, r: Record<E>)

  function Start<E>(targetBatchSize: int): (s: System<E>) {
    System(Program(Batcher(targetBatchSize, [], 0, [], 0), false, Idle, false), Record([], [], [], 0, 0, false, false))
  }

  function After<E>(s: System<E>, e: Event<E>): (s': System<E>)
    requires Enabled(s.p, e)
  {
    System(Step(s.p, e), Noted(s.r, s.p, e, Step(s.p, e)))
  }

  // ---- the invariant ----------------------------------------------------------------------------

  function Contents<E>(batches: seq<Batch<E>>): (events: seq<E>) {
    if batches == [] then [] else Contents(batches[..|batches| - 1]) + batches[|batches| - 1].events
  }

  function Sizes<E>(batches: seq<Batch<E>>): (n: int) {
    if batches == [] then 0 else Sizes(batches[..|batches| - 1]) + batches[|batches| - 1].count
  }

  /** The number of batches that are smaller than the target. */
  function ShortOnes<E>(batches: seq<Batch<E>>, target: int): (n: nat) {
    if batches == [] then 0
    else ShortOnes(batches[..|batches| - 1], target) + (if batches[|batches| - 1].count < target then 1 else 0)
  }

  lemma ShortOneMore<E>(batches: seq<Batch<E>>, b: Batch<E>, target: int)
    ensures ShortOnes(batches + [b], target) == ShortOnes(batches, target) + (if b.count < target then 1 else 0)
  {
    assert (batches + [b])[..|batches|] == batches;
  }

  lemma {:induction false} ShortOnesOfFirst<E>(batches: seq<Batch<E>>, target: int)
    requires batches != []
    ensures ShortOnes(batches, target) == (if batches[0].count < target then 1 else 0) + ShortOnes(batches[1..], target)
  {
    var n := |batches|;
    if n == 1 {
      assert batches[..0] == [] && batches[1..] == [];
    } else {
      ShortOnesOfFirst(batches[..n - 1], target);
      assert batches[..n - 1][1..] == batches[1..][..n - 2];
    }
  }

  lemma ContentsOneMore<E>(batches: seq<Batch<E>>, b: Batch<E>)
    ensures Contents(batches + [b]) == Contents(batches) + b.events
    ensures Sizes(batches + [b]) == Sizes(batches) + b.count
  {
    assert (batches + [b])[..|batches|] == batches;
  }

  lemma Associates<E>(x: seq<E>, y: seq<E>, z: seq<E>)
    ensures (x + y) + z == x + (y + z)
  {
  }

  lemma {:induction false} ContentsPrepend<E>(first: Batch<E>, rest: seq<Batch<E>>)
    ensures Contents([first] + rest) == first.events + Contents(rest)
  {
    if rest == [] {
      assert [first] + rest == rest + [first];
      ContentsOneMore(rest, first);
    } else {
      var front, last := rest[..|rest| - 1], rest[|rest| - 1];
      assert [first] + rest == ([first] + front) + [last];
      ContentsPrepend(first, front);
      ContentsOneMore([first] + front, last);
      Associates(first.events, Contents(front), last.events);
    }
  }

  lemma ContentsOfFirst<E>(batches: seq<Batch<E>>)
    requires batches != []
    ensures Contents(batches) == batches[0].events + Contents(batches[1..])
  {
    assert batches == [batches[0]] + batches[1..];
    ContentsPrepend(batches[0], batches[1..]);
  }

  lemma {:induction false} SizesOfFirst<E>(batches: seq<Batch<E>>)
    requires batches != []
    ensures Sizes(batches) == batches[0].count + Sizes(batches[1..])
  {
    var n := |batches|;
    if n == 1 {
      assert batches[..0] == [] && batches[1..] == [];
    } else {
      SizesOfFirst(batches[..n - 1]);
      assert batches[..n - 1][1..] == batches[1..][..n - 2];
    }
  }

  /** Between one event and the target; a target below one still makes batches of one event. */
  ghost predicate WellFilled<E>(b: Batch<E>, target: int) {
    b.count == |b.events| && 1 <= b.count <= MaxInt(1, target)
  }

  ghost predicate BatcherOk<E>(b: Batcher<E>) {
    && b.ongoingSize == |b.ongoing| && b.ongoingSize < MaxInt(1, b.targetBatchSize)
    && b.completedSize == Sizes(b.completed)
    && forall i :: 0 <= i < |b.completed| ==> WellFilled(b.completed[i], b.targetBatchSize)
  }

  ghost predicate Conserved<E>(s: System<E>) {
    s.r.enqueued == Contents(s.r.dropped) + Contents(s.p.b.completed) + s.p.b.ongoing
  }

  /** The sender drops exactly what it sent, and rests with batches left only if a notification waits or a send failed. */
  ghost predicate SenderOk<E>(s: System<E>) {
    && (s.p.pc.Peeking? ==> s.p.b.completed != [])
    && (s.p.pc.Sending? || s.p.pc.Dropping? ==> s.p.b.completed != [] && s.p.b.completed[0] == s.p.pc.batch)
    && s.r.sent == s.r.dropped + (if s.p.pc.Dropping? then [s.p.pc.batch] else [])
    && ((s.p.pc.Idle? || s.p.pc.Exited?) && s.p.b.completed != [] && !s.p.notified ==> s.r.lastSendFailed)
  }

  /** The channel holds a notification exactly if a batch was completed since the last one was received. */
  ghost predicate NotifiedOk<E>(s: System<E>) {
    s.p.notified <==> s.r.unseen > 0
  }

  /** The sender is in its select only before shutdown, and gone only after. */
  ghost predicate StoppingOk<E>(s: System<E>) {
    && s.p.final == s.r.stopping
    && (s.p.pc.Idle? ==> !s.r.stopping) && (s.p.pc.Exited? ==> s.r.stopping)
  }

  ghost predicate DroppedOk<E>(s: System<E>) {
    forall i :: 0 <= i < |s.r.dropped| ==> WellFilled(s.r.dropped[i], s.p.b.targetBatchSize)
  }

  /** Exactly the flushes make batches smaller than the target. */
  ghost predicate FlushesOk<E>(s: System<E>) {
    ShortOnes(s.r.dropped, s.p.b.targetBatchSize) + ShortOnes(s.p.b.completed, s.p.b.targetBatchSize) == s.r.flushes
  }

  ghost predicate BatchesOk<E>(s: System<E>) {
    BatcherOk(s.p.b) && Conserved(s) && DroppedOk(s) && FlushesOk(s)
  }

  ghost predicate Inv<E>(s: System<E>) {
    BatchesOk(s) && SenderOk(s) && NotifiedOk(s) && StoppingOk(s)
  }

  lemma FinishedKeepsBatcher<E>(b: Batcher<E>)
    requires b.ongoingSize == |b.ongoing| && 1 <= b.ongoingSize <= MaxInt(1, b.targetBatchSize)
    requires b.completedSize == Sizes(b.completed)
    requires forall i :: 0 <= i < |b.completed| ==> WellFilled(b.completed[i], b.targetBatchSize)
    ensures BatcherOk(Finished(b))
    ensures Contents(Finished(b).completed) == Contents(b.completed) + b.ongoing
  {
    ContentsOneMore(b.completed, Batch(b.ongoing, b.ongoingSize));
  }

  /** What the batcher holds, in order. */
  function Holds<E>(b: Batcher<E>): (events: seq<E>) {
    Contents(b.completed) + b.ongoing
  }

  lemma EnqueuedKeepsBatcher<E>(b: Batcher<E>, event: E)
    requires BatcherOk(b)
    ensures BatcherOk(Enqueued(b, event)) && Holds(Enqueued(b, event)) == Holds(b) + [event]
    ensures ShortOnes(Enqueued(b, event).completed, b.targetBatchSize) == ShortOnes(b.completed, b.targetBatchSize)
  {
    if Completes(b) {
      FinishedKeepsBatcher(Added(b, event));
      ShortOneMore(b.completed, Batch(b.ongoing + [event], b.ongoingSize + 1), b.targetBatchSize);
    }
  }

  lemma FlushedKeepsBatcher<E>(b: Batcher<E>)
    requires BatcherOk(b) && b.ongoing != []
    ensures BatcherOk(Finished(b)) && Holds(Finished(b)) == Holds(b)
    ensures ShortOnes(Finished(b).completed, b.targetBatchSize) == ShortOnes(b.completed, b.targetBatchSize) + 1
  {
    FinishedKeepsBatcher(b);
    ShortOneMore(b.completed, Batch(b.ongoing, b.ongoingSize), b.targetBatchSize);
  }

  lemma EnqueueKeepsBatches<E>(s: System<E>, event: E)
    requires BatchesOk(s)
    ensures BatchesOk(After(s, Enqueue(event)))
  {
    EnqueuedKeepsBatcher(s.p.b, event);
    Associates(Contents(s.r.dropped), Contents(s.p.b.completed), s.p.b.ongoing);
    Associates(Contents(s.r.dropped), Holds(s.p.b), [event]);
    var b' := Enqueued(s.p.b, event);
    Associates(Contents(s.r.dropped), Contents(b'.completed), b'.ongoing);
  }

  lemma FlushKeepsBatches<E>(s: System<E>, e: Event<E>)
    requires BatchesOk(s) && Enabled(s.p, e) && (e.Heartbeat? || e.Shutdown?)
    ensures BatchesOk(After(s, e))
  {
    if s.p.b.ongoingSize != 0 {
      FlushedKeepsBatcher(s.p.b);
      Associates(Contents(s.r.dropped), Contents(s.p.b.completed), s.p.b.ongoing);
      var b' := Finished(s.p.b);
      Associates(Contents(s.r.dropped), Contents(b'.completed), b'.ongoing);
    }
  }

  /** Moving the first completed batch to the dropped ones. */
  lemma DropKeepsContents<E>(dropped: seq<Batch<E>>, completed: seq<Batch<E>>, target: int)
    requires completed != []
    ensures Contents(dropped + [completed[0]]) + Contents(completed[1..]) == Contents(dropped) + Contents(completed)
    ensures ShortOnes(dropped + [completed[0]], target) + ShortOnes(completed[1..], target)
         == ShortOnes(dropped, target) + ShortOnes(completed, target)
  {
    var first := completed[0];
    ContentsOfFirst(completed);
    ContentsOneMore(dropped, first);
    Associates(Contents(dropped), first.events, Contents(completed[1..]));
    ShortOneMore(dropped, first, target);
    ShortOnesOfFirst(completed, target);
  }

  lemma DropKeepsBatches<E>(s: System<E>)
    requires BatchesOk(s) && Enabled(s.p, Drop)
    ensures BatchesOk(After(s, Drop))
  {
    DropKeepsContents(s.r.dropped, s.p.b.completed, s.p.b.targetBatchSize);
    SizesOfFirst(s.p.b.completed);
  }

  lemma EventKeepsBatches<E>(s: System<E>, e: Event<E>)
    requires BatchesOk(s) && Enabled(s.p, e)
    ensures BatchesOk(After(s, e))
  {
    match e
    case Enqueue(event) => EnqueueKeepsBatches(s, event);
    case Heartbeat => FlushKeepsBatches(s, e);
    case Shutdown => FlushKeepsBatches(s, e);
    case Drop => DropKeepsBatches(s);
    case _ =>
  }

  lemma EventKeepsSender<E>(s: System<E>, e: Event<E>)
    requires SenderOk(s) && NotifiedOk(s) && StoppingOk(s) && s.p.b.ongoingSize == |s.p.b.ongoing| && Enabled(s.p, e)
    ensures SenderOk(After(s, e)) && NotifiedOk(After(s, e)) && StoppingOk(After(s, e))
  {
  }

  lemma EventKeepsInv<E>(s: System<E>, e: Event<E>)
    requires Inv(s) && Enabled(s.p, e)
    ensures Inv(After(s, e))
  {
    EventKeepsBatches(s, e);
    EventKeepsSender(s, e);
  }

  // ---- whole runs -------------------------------------------------------------------------------

  ghost predicate ValidRun<E>(s: System<E>, events: seq<Event<E>>)
    decreases |events|
  {
    events != [] ==> Enabled(s.p, events[0]) && ValidRun(After(s, events[0]), events[1..])
  }

  function Exec<E>(s: System<E>, events: seq<Event<E>>): (s': System<E>)
    requires ValidRun(s, events)
    decreases |events|
  {
    if events == [] then s else Exec(After(s, events[0]), events[1..])
  }

  lemma {:induction false} RunKeepsInv<E>(s: System<E>, events: seq<Event<E>>)
    requires Inv(s) && ValidRun(s, events)
    ensures Inv(Exec(s, events)) && Exec(s, events).p.b.targetBatchSize == s.p.b.targetBatchSize
    decreases |events|
  {
    if events != [] {
      EventKeepsInv(s, events[0]);
      RunKeepsInv(After(s, events[0]), events[1..]);
    }
  }

  /**
   * In every interleaving of producers and sender: dropped, completed and ongoing batches make up exactly the events
   * enqueued, in order; sizes add up and every batch is well filled, with as many below the target as there were
   * flushes; the batches dropped are exactly those whose sending succeeded, in order.
   */
  lemma EventsAreConserved<E>(targetBatchSize: int, events: seq<Event<E>>)
    requires ValidRun(Start<E>(targetBatchSize), events)
    ensures var s := Exec(Start<E>(targetBatchSize), events);
      && s.r.enqueued == Contents(s.r.dropped) + Contents(s.p.b.completed) + s.p.b.ongoing
      && s.p.b.completedSize == Sizes(s.p.b.completed)
      && (forall i :: 0 <= i < |s.p.b.completed| ==> WellFilled(s.p.b.completed[i], targetBatchSize))
      && (forall i :: 0 <= i < |s.r.dropped| ==> WellFilled(s.r.dropped[i], targetBatchSize))
      && ShortOnes(s.r.dropped, targetBatchSize) + ShortOnes(s.p.b.completed, targetBatchSize) == s.r.flushes
      && (s.p.pc.Dropping? ==> s.r.sent == s.r.dropped + [s.p.pc.batch])
      && (!s.p.pc.Dropping? ==> s.r.sent == s.r.dropped)
  {
    RunKeepsInv(Start<E>(targetBatchSize), events);
  }

  /**
   * In every interleaving: the channel holds a notification exactly if a batch was completed since the last one was
   * received; a sender that rests, or has gone, leaves completed batches without a notification only because its last
   * send failed; and it rests in its select only before shutdown and goes only after.
   */
  lemma SenderRestsProperly<E>(targetBatchSize: int, events: seq<Event<E>>)
    requires ValidRun(Start<E>(targetBatchSize), events)
    ensures var s := Exec(Start<E>(targetBatchSize), events);
      && (s.p.notified <==> s.r.unseen > 0)
      && ((s.p.pc.Idle? || s.p.pc.Exited?) && s.p.b.completed != [] && !s.p.notified ==> s.r.lastSendFailed)
      && (s.p.pc.Idle? ==> !s.r.stopping) && (s.p.pc.Exited? ==> s.r.stopping)
  {
    RunKeepsInv(Start<E>(targetBatchSize), events);
  }
}
