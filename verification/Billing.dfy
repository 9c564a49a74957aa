/**
 * Billing of consumption: how long each VM was active and how much CPU time it had, integrated between
 * collections. Times are nanoseconds, CPU amounts milli-CPUs, and CPU time their exact product.
 */
module Billing {
  import opened Api

  datatype MetricsKey = MetricsKey(uid: nat, endpointID: nat)

  /** A VM as the store lists it: billed if it has an endpoint, is alive and reports its CPUs. */
  datatype Vm = Vm(uid: nat, endpointID: Option<nat>, alive: bool, cpus: Option<nat>) {
    predicate Billed() {
      endpointID.Some? && alive && cpus.Some?
    }
    function Key(): (k: MetricsKey)
      requires Billed()
    {
      MetricsKey(uid, endpointID.value)
    }
  }

  datatype TimeSlice = TimeSlice(cpu: nat, startTime: int, endTime: int) {
    function Duration(): (d: int) {
      endTime - startTime
    }
  }

  datatype Usage = Usage(cpu: int, activeTime: int) {
    function Plus(other: Usage): (u: Usage) {
      Usage(cpu + other.cpu, activeTime + other.activeTime)
    }
  }

  /** The product of a duration and a CPU amount. */
  function CpuTime(duration: int, cpu: nat): (t: int) {
    if cpu == 0 then 0 else duration + CpuTime(duration, cpu - 1)
  }

  lemma {:induction false} CpuTimeIsProduct(duration: int, cpu: nat)
    ensures CpuTime(duration, cpu) == duration * cpu
  {
    if cpu != 0 {
      CpuTimeIsProduct(duration, cpu - 1);
      assert duration * cpu == duration + duration * (cpu - 1);
    }
  }

  lemma {:induction false} CpuTimeAdds(d: int, e: int, cpu: nat)
    ensures CpuTime(d + e, cpu) == CpuTime(d, cpu) + CpuTime(e, cpu)
  {
    if cpu != 0 {
      CpuTimeAdds(d, e, cpu - 1);
    }
  }

  function UsageOf(slice: TimeSlice): (u: Usage) {
    Usage(CpuTime(slice.Duration(), slice.cpu), slice.Duration())
  }

  datatype History = History(lastSlice: Option<TimeSlice>, total: Usage)

  predicate Mergeable(slice: TimeSlice, next: TimeSlice) {
    slice.endTime == next.startTime && slice.cpu == next.cpu
  }

  function Finalized(h: History): (h': History) {
    if h.lastSlice.None? then h else History(None, h.total.Plus(UsageOf(h.lastSlice.value)))
  }

  function Appended(h: History, slice: TimeSlice): (h': History) {
    if h.lastSlice.Some? && Mergeable(h.lastSlice.value, slice)
    then h.(lastSlice := Some(h.lastSlice.value.(endTime := slice.endTime)))
    else Finalized(h).(lastSlice := Some(slice))
  }

  /** Everything the history accounts for, including the slice that is still open. */
  function Held(h: History): (u: Usage) {
    Finalized(h).total
  }

  /** Appending accounts for exactly the new slice, whether or not it could be merged with the open one. */
  lemma AppendedHolds(h: History, slice: TimeSlice)
    ensures Held(Appended(h, slice)) == Held(h).Plus(UsageOf(slice))
  {
    if h.lastSlice.Some? && Mergeable(h.lastSlice.value, slice) {
      CpuTimeAdds(h.lastSlice.value.Duration(), slice.Duration(), slice.cpu);
    }
  }

  // ---- one collection ---------------------------------------------------------------------------

  datatype State = State(
    historical: map<MetricsKey, History>,
    present: map<MetricsKey, nat>,
    lastCollectTime: Option<int>)

  function StartState(): (s: State) {
    State(map[], map[], None)
  }

  function HistoryOf(s: State, k: MetricsKey): (h: History) {
    if k in s.historical then s.historical[k] else History(None, Usage(0, 0))
  }

  /** The billed VMs of the list, by key; the store lists each VM once. */
  function Seen(vms: seq<Vm>): (m: map<MetricsKey, nat>) {
    if vms == [] then map[]
    else
      var last := vms[|vms| - 1];
      var before := Seen(vms[..|vms| - 1]);
      if last.Billed() then before[last.Key() := last.cpus.value] else before
  }

  predicate Unique(vms: seq<Vm>) {
    forall i, j :: 0 <= i < j < |vms| ==> vms[i].uid != vms[j].uid
  }

  /** A live VM of the endpoint that reports its CPUs is listed at `i`. */
  predicate ListedAt(vms: seq<Vm>, i: nat, k: MetricsKey, cpus: nat) {
    i < |vms| && vms[i] == Vm(k.uid, Some(k.endpointID), true, Some(cpus))
  }

  /** A collection sees exactly the live VMs with an endpoint and known CPUs, each with the CPUs it is listed with. */
  lemma {:induction false} SeenExactly(vms: seq<Vm>, k: MetricsKey, cpus: nat)
    requires Unique(vms)
    ensures k in Seen(vms) && Seen(vms)[k] == cpus <==> exists i :: ListedAt(vms, i, k, cpus)
  {
    if vms != [] {
      var n := |vms| - 1;
      var last, front := vms[n], vms[..n];
      SeenExactly(front, k, cpus);
      if i: nat :| ListedAt(front, i, k, cpus) {
        assert ListedAt(vms, i, k, cpus) && vms[i].uid != last.uid;
      }
      if i: nat :| ListedAt(vms, i, k, cpus) {
        assert i < n ==> ListedAt(front, i, k, cpus);
      }
      assert last.Billed() && last.Key() == k && last.cpus.value == cpus ==> ListedAt(vms, n, k, cpus);
    }
  }

  /** The slice from the last collection until now, at the smaller of the two CPU amounts. */
  function SliceUntil(s: State, now: int, k: MetricsKey, cpu: nat): (slice: TimeSlice)
    requires k in s.present && s.lastCollectTime.Some?
  {
    TimeSlice(MinInt(s.present[k], cpu), s.lastCollectTime.value, now)
  }

  /** The state after a collection that saw exactly the VMs in `seen`. */
  function Collected(s: State, now: int, seen: map<MetricsKey, nat>): (s': State)
    requires s.present.Keys != {} ==> s.lastCollectTime.Some?
  {
    State(map k | k in s.historical.Keys + (seen.Keys * s.present.Keys) ::
            if k in seen && k in s.present then Appended(HistoryOf(s, k), SliceUntil(s, now, k, seen[k]))
            else s.historical[k],
          seen, Some(now))
  }

  lemma CollectedHistory(s: State, now: int, seen: map<MetricsKey, nat>, k: MetricsKey)
    requires s.present.Keys != {} ==> s.lastCollectTime.Some?
    ensures HistoryOf(Collected(s, now, seen), k) ==
      if k in seen && k in s.present then Appended(HistoryOf(s, k), SliceUntil(s, now, k, seen[k])) else HistoryOf(s, k)
  {
  }

  /** A collection can be made one VM at a time. */
  lemma CollectedOneMore(s: State, now: int, seen: map<MetricsKey, nat>, k: MetricsKey, cpu: nat)
    requires (s.present.Keys != {} ==> s.lastCollectTime.Some?) && k !in seen
    ensures Collected(s, now, seen[k := cpu]).historical ==
      if k in s.present
      then Collected(s, now, seen).historical[k := Appended(HistoryOf(s, k), SliceUntil(s, now, k, cpu))]
      else Collected(s, now, seen).historical
    ensures HistoryOf(Collected(s, now, seen), k) == HistoryOf(s, k)
  {
  }

  datatype Metric = CpuMetric | ActiveTimeMetric

  datatype Event = Event(metric: Metric, key: MetricsKey, value: int)

  /** What the events report for a key. */
  function Reported(events: seq<Event>, k: MetricsKey): (u: Usage) {
    if events == [] then Usage(0, 0)
    else
      var e := events[|events| - 1];
      var before := Reported(events[..|events| - 1], k);
      if e.key != k then before
      else if e.metric == CpuMetric then before.(cpu := before.cpu + e.value)
      else before.(activeTime := before.activeTime + e.value)
  }

  class MetricsState {
    var historical: map<MetricsKey, History>
    var present: map<MetricsKey, nat>
    var lastCollectTime: Option<int>

    function Value(): (s: State)
      reads this
    {
      State(historical, present, lastCollectTime)
    }

    constructor ()
      ensures Value() == StartState()
    {
      historical, present, lastCollectTime := map[], map[], None;
    }

    /** A store that is failing lists nothing. */
    method Collect(now: int, failing: bool, stored: seq<Vm>)
      requires Unique(stored) && (present.Keys != {} ==> lastCollectTime.Some?)
      modifies this
      ensures Value() == Collected(old(Value()), now, if failing then map[] else Seen(stored))
    {
      ghost var before := Value();
      var old' := present;
      present := map[];
      var vms := if failing then [] else stored;
      for i := 0 to |vms|
        invariant lastCollectTime == before.lastCollectTime
        invariant present == Seen(vms[..i])
        invariant historical == Collected(before, now, Seen(vms[..i])).historical
      {
        var vm := vms[i];
        assert vms[..i + 1][..i] == vms[..i];
        if !vm.Billed() {
          continue;
        }
        var key := vm.Key();
        ghost var seen := Seen(vms[..i]);
        assert key !in seen by {
          if key in seen {
            SeenExactly(vms[..i], key, seen[key]);
          }
        }
        CollectedOneMore(before, now, seen, key, vm.cpus.value);
        if key in old' {
          var slice := TimeSlice(MinInt(old'[key], vm.cpus.value), lastCollectTime.value, now);
          var history := if key in historical then historical[key] else History(None, Usage(0, 0));
          historical := historical[key := Appended(history, slice)];
        }
        present := present[key := vm.cpus.value];
      }
      assert vms[..|vms|] == vms;
      lastCollectTime := Some(now);
    }

    /** Reports and clears everything, one event of each metric for each key, in any order of the keys. */
    method DrainEnqueue() returns (events: seq<Event>)
      modifies this`historical
      ensures Value() == old(Value()).(historical := map[])
      ensures forall k :: Reported(events, k) == Held(HistoryOf(old(Value()), k))
      ensures |events| == 2 * |old(historical)|
    {
      events := [];
      var left := historical.Keys;
      while left != {}
        invariant left <= historical.Keys
        invariant forall k :: Reported(events, k) == (if k in historical && k !in left then Held(historical[k]) else Usage(0, 0))
        invariant |events| == 2 * (|historical.Keys| - |left|)
        decreases |left|
      {
        var key :| key in left;
        var history := Finalized(historical[key]);
        var e1, e2 := Event(CpuMetric, key, history.total.cpu), Event(ActiveTimeMetric, key, history.total.activeTime);
        forall k
          ensures Reported(events + [e1, e2], k) == if k == key then Held(historical[key]) else Reported(events, k)
        {
          assert (events + [e1, e2])[..|events| + 1] == events + [e1];
          assert (events + [e1])[..|events|] == events;
        }
        events := events + [e1, e2];
        left := left - {key};
      }
      historical := map[];
    }
  }

  // ---- whole runs -------------------------------------------------------------------------------

  /** One collection: when it was and what it saw. */
  datatype Snapshot = Snapshot(at: int, seen: map<MetricsKey, nat>)

  /** `log` records the collections and `sink` the events that the drains have handed over. */
  datatype Ledger = Ledger(s: State, log: seq<Snapshot>, sink: seq<Event>)

  function EmptyLedger(): (l: Ledger) {
    Ledger(StartState(), [], [])
  }

  datatype Step = Collect(at: int, seen: map<MetricsKey, nat>) | Drain(events: seq<Event>)

  /** Collections happen in the order of time; a drain reports what the state holds. */
  ghost predicate Enabled(l: Ledger, step: Step) {
    match step
    case Collect(at, _) =>
      && (l.s.lastCollectTime.Some? ==> l.s.lastCollectTime.value <= at)
      && (l.s.present.Keys != {} ==> l.s.lastCollectTime.Some?)
    case Drain(events) => forall k :: Reported(events, k) == Held(HistoryOf(l.s, k))
  }

  function After(l: Ledger, step: Step): (l': Ledger)
    requires step.Collect? && l.s.present.Keys != {} ==> l.s.lastCollectTime.Some?
  {
    match step
    case Collect(at, seen) => l.(s := Collected(l.s, at, seen), log := l.log + [Snapshot(at, seen)])
    case Drain(events) => l.(s := l.s.(historical := map[]), sink := l.sink + events)
  }

  /** The usage between two consecutive collections that both saw the key. */
  function Between(a: Snapshot, b: Snapshot, k: MetricsKey): (u: Usage) {
    if k in a.seen && k in b.seen then Usage(CpuTime(b.at - a.at, MinInt(a.seen[k], b.seen[k])), b.at - a.at) else Usage(0, 0)
  }

  /** The reference: the sum over all consecutive collections. */
  function Owed(log: seq<Snapshot>, k: MetricsKey): (u: Usage) {
    if |log| < 2 then Usage(0, 0) else Owed(log[..|log| - 1], k).Plus(Between(log[|log| - 2], log[|log| - 1], k))
  }

  /** The time between two collections, if both saw the key. */
  function Interval(a: Snapshot, b: Snapshot, k: MetricsKey): (t: int) {
    if k in a.seen && k in b.seen then b.at - a.at else 0
  }

  /** The same time multiplied by the smaller CPU amount at its ends. */
  function Weighted(a: Snapshot, b: Snapshot, k: MetricsKey): (t: int) {
    if k in a.seen && k in b.seen then (b.at - a.at) * MinInt(a.seen[k], b.seen[k]) else 0
  }

  /** What is owed between two collections, as a product. */
  lemma BetweenIsProduct(a: Snapshot, b: Snapshot, k: MetricsKey)
    ensures Between(a, b, k) == Usage(Weighted(a, b, k), Interval(a, b, k))
  {
    if k in a.seen && k in b.seen {
      CpuTimeIsProduct(b.at - a.at, MinInt(a.seen[k], b.seen[k]));
    }
  }

  ghost predicate Balanced(l: Ledger, k: MetricsKey) {
    Reported(l.sink, k).Plus(Held(HistoryOf(l.s, k))) == Owed(l.log, k)
  }

  ghost predicate SlicesForward(s: State) {
    forall k :: k in s.historical && s.historical[k].lastSlice.Some? ==> s.historical[k].lastSlice.value.Duration() >= 0
  }

  ghost predicate LogMatches(l: Ledger) {
    if l.log == [] then l.s.lastCollectTime.None? && l.s.present == map[]
    else l.s.lastCollectTime == Some(l.log[|l.log| - 1].at) && l.s.present == l.log[|l.log| - 1].seen
  }

  ghost predicate Inv(l: Ledger) {
    && LogMatches(l)
    && SlicesForward(l.s)
    && forall k :: Balanced(l, k)
  }

  lemma OwedOneMore(log: seq<Snapshot>, next: Snapshot, k: MetricsKey)
    ensures Owed(log + [next], k) == if log == [] then Usage(0, 0) else Owed(log, k).Plus(Between(log[|log| - 1], next, k))
  {
    assert (log + [next])[..|log|] == log;
  }

  /** A collection adds what happened since the previous one, for the keys that both saw. */
  lemma CollectedHolds(s: State, now: int, seen: map<MetricsKey, nat>, k: MetricsKey)
    requires s.present.Keys != {} ==> s.lastCollectTime.Some?
    ensures Held(HistoryOf(Collected(s, now, seen), k)) ==
      if k in seen && k in s.present
      then Held(HistoryOf(s, k)).Plus(UsageOf(SliceUntil(s, now, k, seen[k])))
      else Held(HistoryOf(s, k))
  {
    CollectedHistory(s, now, seen, k);
    if k in seen && k in s.present {
      AppendedHolds(HistoryOf(s, k), SliceUntil(s, now, k, seen[k]));
    }
  }

  lemma SliceIsBetween(l: Ledger, at: int, seen: map<MetricsKey, nat>, k: MetricsKey)
    requires LogMatches(l) && k in seen && k in l.s.present
    ensures l.log != [] && l.s.lastCollectTime.Some?
    ensures Between(l.log[|l.log| - 1], Snapshot(at, seen), k) == UsageOf(SliceUntil(l.s, at, k, seen[k]))
  {
  }

  lemma PlusBoth(reported: Usage, held: Usage, owed: Usage, more: Usage)
    requires reported.Plus(held) == owed
    ensures reported.Plus(held.Plus(more)) == owed.Plus(more)
  {
  }

  lemma CollectKeepsBalance(l: Ledger, at: int, seen: map<MetricsKey, nat>, k: MetricsKey)
    requires LogMatches(l) && Balanced(l, k)
    ensures Balanced(After(l, Collect(at, seen)), k)
  {
    OwedOneMore(l.log, Snapshot(at, seen), k);
    CollectedHolds(l.s, at, seen, k);
    if k in seen && k in l.s.present {
      SliceIsBetween(l, at, seen, k);
      PlusBoth(Reported(l.sink, k), Held(HistoryOf(l.s, k)), Owed(l.log, k), UsageOf(SliceUntil(l.s, at, k, seen[k])));
    }
  }

  lemma {:induction false} ReportedConcat(a: seq<Event>, b: seq<Event>, k: MetricsKey)
    ensures Reported(a + b, k) == Reported(a, k).Plus(Reported(b, k))
    decreases |b|
  {
    if b == [] {
      assert a + b == a;
    } else {
      assert (a + b)[..|a + b| - 1] == a + b[..|b| - 1];
      ReportedConcat(a, b[..|b| - 1], k);
    }
  }

  lemma DrainKeepsBalance(l: Ledger, events: seq<Event>, k: MetricsKey)
    requires Balanced(l, k) && Reported(events, k) == Held(HistoryOf(l.s, k))
    ensures Balanced(After(l, Drain(events)), k)
  {
    ReportedConcat(l.sink, events, k);
  }

  lemma StepKeepsSlices(l: Ledger, step: Step)
    requires SlicesForward(l.s) && Enabled(l, step)
    ensures SlicesForward(After(l, step).s)
  {
  }

  lemma StepKeepsInv(l: Ledger, step: Step)
    requires Inv(l) && Enabled(l, step)
    ensures Inv(After(l, step))
  {
    StepKeepsSlices(l, step);
    forall k
      ensures Balanced(After(l, step), k)
    {
      assert Balanced(l, k);
      if step.Collect? {
        CollectKeepsBalance(l, step.at, step.seen, k);
      } else {
        DrainKeepsBalance(l, step.events, k);
      }
    }
  }

  ghost predicate ValidRun(l: Ledger, steps: seq<Step>)
    decreases |steps|
  {
    steps != [] ==> Enabled(l, steps[0]) && ValidRun(After(l, steps[0]), steps[1..])
  }

  ghost function Exec(l: Ledger, steps: seq<Step>): (l': Ledger)
    requires ValidRun(l, steps)
    decreases |steps|
  {
    if steps == [] then l else Exec(After(l, steps[0]), steps[1..])
  }

  lemma {:induction false} RunKeepsInv(l: Ledger, steps: seq<Step>)
    requires Inv(l) && ValidRun(l, steps)
    ensures Inv(Exec(l, steps))
    decreases |steps|
  {
    if steps != [] {
      StepKeepsInv(l, steps[0]);
      RunKeepsInv(After(l, steps[0]), steps[1..]);
    }
  }

  lemma RunIsBalanced(l: Ledger, steps: seq<Step>, k: MetricsKey)
    requires Inv(l) && ValidRun(l, steps)
    ensures var l' := Exec(l, steps);
      Reported(l'.sink, k).Plus(Held(HistoryOf(l'.s, k))) == Owed(l'.log, k) && SlicesForward(l'.s)
  {
    RunKeepsInv(l, steps);
    assert Balanced(Exec(l, steps), k);
  }

  lemma EmptyIsBalanced(k: MetricsKey)
    ensures Balanced(EmptyLedger(), k)
  {
  }

  lemma EmptyKeepsInv()
    ensures Inv(EmptyLedger())
  {
    var l := EmptyLedger();
    assert l.log == [] && l.s.historical == map[];
    forall k
      ensures Balanced(l, k)
    {
      EmptyIsBalanced(k);
    }
  }

  /**
   * Conservation: for every interleaving of collections and drains and every key, what was reported plus
   * what is still held is exactly the time between consecutive collections that both saw the key, and that
   * time weighted by the smaller CPU amount at its ends. No open slice ever has a negative duration.
   */
  lemma NothingLostOrBilledTwice(steps: seq<Step>, k: MetricsKey)
    requires ValidRun(EmptyLedger(), steps)
    ensures var l := Exec(EmptyLedger(), steps);
      Reported(l.sink, k).Plus(Held(HistoryOf(l.s, k))) == Owed(l.log, k) && SlicesForward(l.s)
  {
    EmptyKeepsInv();
    RunIsBalanced(EmptyLedger(), steps, k);
  }
}
