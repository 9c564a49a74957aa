/**
 * The workers of the executor, as interleaved critical sections over the shared state: each waits for a
 * broadcast, inspects the action set, begins its action under the optimistic lock, makes its request, and
 * reports back. The loop that (re)connects to the vm-monitor runs beside them.
 */
module ExecutorWorkers {
  import opened Api
  import opened CoreState
  import S = CoreSteps
  import opened ExecutorCore

  datatype WorkerId = PluginWorker | NeonVMWorker | UpscaleWorker | DownscaleWorker

  /** Where a worker is: not yet subscribed to updates, or in its loop. A request in flight to the monitor remembers its connection. */
  datatype Pc =
    | Unsubscribed
    | Waiting
    | Fetching
    | Deciding(last: TimedActions)
    | InFlight(target: Resources, generation: int)

  /** `inspectedAt` counts the updates that the last inspected action set had seen. */
  datatype Worker = Worker(pc: Pc, viewed: nat, woken: bool, inspectedAt: nat)

  datatype Outcome = Failed(at: int) | Succeeded | Denied(at: int) | Permitted(at: int, permit: Resources)

  /** `lastSet` and `computedAt` record the newest action set and the number of updates it had seen. */
  datatype System = System(
    shared: Shared,
    lastSet: ActionSet,
    computedAt: nat,
    generation: int,
    connection: Option<int>,
    workers: map<WorkerId, Worker>)

  datatype Event =
    | Subscribe(w: WorkerId)
    | Wake(w: WorkerId)
    | Fetch(w: WorkerId, now: int)
    | Begin(w: WorkerId, now: int)
    | Finish(w: WorkerId, outcome: Outcome)
    | External(update: S.Step)
    | Disconnect
    | Connect

  datatype CrashKind = DecisionPanic | NoMonitorHandle | NoOngoingRequest | NotApproved

  datatype Next = Running(sys: System) | Crash(kind: CrashKind)

  function ActionFor(w: WorkerId, a: ActionSet): (t: Option<Resources>) {
    match w
    case PluginWorker => a.pluginRequest
    case NeonVMWorker => if a.neonvmRequest.Some? then Some(a.neonvmRequest.value.target) else None
    case UpscaleWorker => if a.monitorUpscale.Some? then Some(a.monitorUpscale.value.target) else None
    case DownscaleWorker => if a.monitorDownscale.Some? then Some(a.monitorDownscale.value.target) else None
  }

  predicate TalksToMonitor(w: WorkerId) {
    w == UpscaleWorker || w == DownscaleWorker
  }

  function KindOf(w: WorkerId): (k: MonitorRequestKind) {
    if w == UpscaleWorker then Upscale else Downscale
  }

  function WorkerOf(k: MonitorRequestKind): (w: WorkerId) {
    if k == Upscale then UpscaleWorker else DownscaleWorker
  }

  function Started(core: State, w: WorkerId, now: int, target: Resources): (core': State) {
    match w
    case PluginWorker => S.PluginStarting(core, now, target)
    case NeonVMWorker => S.NeonVMStarting(core, target)
    case UpscaleWorker => S.UpscaleStarting(core, target)
    case DownscaleWorker => S.DownscaleStarting(core, target)
  }

  datatype CoreNext = CoreOk(core: State) | CoreCrash(kind: CrashKind)

  /** The reply to a request, applied to the scaling state; a reply without its request would crash. */
  function Replied(core: State, w: WorkerId, outcome: Outcome): (r: CoreNext)
    requires core.vm.slotSize > 0
  {
    match w
    case PluginWorker => (
      match outcome
      case Permitted(at, permit) =>
        if core.plugin.lastRequest.None? then CoreCrash(NoOngoingRequest) else CoreOk(S.PluginSucceeded(core, at, permit))
      case Failed(at) => CoreOk(S.PluginFailed(core, at))
      case _ => CoreOk(core))
    case NeonVMWorker => (
      match outcome
      case Succeeded =>
        if core.neonvm.ongoingRequested.None? then CoreCrash(NoOngoingRequest) else CoreOk(S.NeonVMSucceeded(core))
      case Failed(at) => CoreOk(S.NeonVMFailed(core, at))
      case _ => CoreOk(core))
    case UpscaleWorker => (
      match outcome
      case Succeeded =>
        if core.monitor.ongoingRequest.None? then CoreCrash(NoOngoingRequest) else CoreOk(S.MonitorRequestAccepted(core))
      case Failed(at) => CoreOk(S.UpscaleFailed(core, at))
      case _ => CoreOk(core))
    case DownscaleWorker => (
      match outcome
      case Succeeded =>
        if core.monitor.ongoingRequest.None? then CoreCrash(NoOngoingRequest) else CoreOk(S.MonitorRequestAccepted(core))
      case Denied(at) =>
        if core.monitor.ongoingRequest.None? then CoreCrash(NoOngoingRequest)
        else if core.monitor.approved.None? then CoreCrash(NotApproved)
        else CoreOk(S.DownscaleDenied(core, at))
      case Failed(at) => CoreOk(S.DownscaleFailed(core, at))
      case _ => CoreOk(core))
  }

  /** The replies that each kind of request can get. */
  predicate Possible(w: WorkerId, outcome: Outcome) {
    match w
    case PluginWorker => outcome.Failed? || outcome.Permitted?
    case NeonVMWorker => outcome.Failed? || outcome.Succeeded?
    case UpscaleWorker => outcome.Failed? || outcome.Succeeded?
    case DownscaleWorker => outcome.Failed? || outcome.Succeeded? || outcome.Denied?
  }

  predicate Total(sys: System) {
    forall w: WorkerId :: w in sys.workers
  }

  predicate Sound(sys: System) {
    && Total(sys)
    && sys.shared.core.config.computeUnit.NonZero()
    && sys.shared.core.vm.slotSize > 0
  }

  predicate Enabled(sys: System, e: Event)
    requires Sound(sys)
  {
    match e
    case Subscribe(w) => sys.workers[w].pc == Unsubscribed
    case Wake(w) => sys.workers[w].pc == Waiting && sys.workers[w].viewed != sys.shared.sent
    case Fetch(w, _) => sys.workers[w].pc == Fetching
    case Begin(w, _) => sys.workers[w].pc.Deciding? && ActionFor(w, sys.workers[w].pc.last.actions).Some?
    case Finish(w, outcome) => sys.workers[w].pc.InFlight? && Possible(w, outcome)
    case External(update) => (update.VMUpdate? && update.vm.slotSize > 0) || update.MetricsUpdate? || update.RequestUpscale?
    case Disconnect => true
    case Connect => sys.connection.None?
  }

  // ---- the events -------------------------------------------------------------------------------

  function SetPc(sys: System, w: WorkerId, pc: Pc): (sys': System)
    requires w in sys.workers
  {
    sys.(workers := sys.workers[w := sys.workers[w].(pc := pc)])
  }

  /** A new receiver has seen every update so far. */
  function AfterSubscribe(sys: System, w: WorkerId): (sys': System)
    requires w in sys.workers
  {
    sys.(workers := sys.workers[w := sys.workers[w].(pc := Waiting, viewed := sys.shared.sent)])
  }

  function AfterWake(sys: System, w: WorkerId): (sys': System)
    requires w in sys.workers
  {
    sys.(workers := sys.workers[w := sys.workers[w].(pc := Fetching, viewed := sys.shared.sent, woken := true)])
  }

  function AfterFetch(sys: System, w: WorkerId, now: int): (n: Next)
    requires Sound(sys)
  {
    match GetActions(sys.shared, now)
    case Panic(_) => Crash(DecisionPanic)
    case Ok((shared, last)) =>
      var computedAt := if sys.shared.actions.Some? then sys.computedAt else shared.sent;
      var pc := if ActionFor(w, last.actions).Some? then Deciding(last) else Waiting;
      Running(sys.(shared := shared, lastSet := last.actions, computedAt := computedAt,
                   workers := sys.workers[w := sys.workers[w].(pc := pc, inspectedAt := computedAt)]))
  }

  function AfterBegin(sys: System, w: WorkerId, now: int): (n: Next)
    requires Sound(sys) && Enabled(sys, Begin(w, now))
  {
    var last := sys.workers[w].pc.last;
    var target := ActionFor(w, last.actions).value;
    if !Unchanged(sys.shared, last) then Running(SetPc(sys, w, Waiting))
    else if TalksToMonitor(w) && sys.connection.None? then Crash(NoMonitorHandle)
    else
      var generation := if sys.connection.Some? then sys.connection.value else 0;
      Running(SetPc(sys, w, InFlight(target, generation))
              .(shared := Update(sys.shared, Started(sys.shared.core, w, now, target))))
  }

  /** A reply over an older connection to the monitor is dropped. */
  predicate Dropped(sys: System, w: WorkerId)
    requires w in sys.workers && sys.workers[w].pc.InFlight?
  {
    TalksToMonitor(w) && sys.workers[w].pc.generation != sys.generation
  }

  function AfterFinish(sys: System, w: WorkerId, outcome: Outcome): (n: Next)
    requires Sound(sys) && Enabled(sys, Finish(w, outcome))
  {
    if Dropped(sys, w) then Running(SetPc(sys, w, Waiting).(shared := Update(sys.shared, sys.shared.core)))
    else
      match Replied(sys.shared.core, w, outcome)
      case CoreCrash(kind) => Crash(kind)
      case CoreOk(core) => Running(SetPc(sys, w, Waiting).(shared := Update(sys.shared, core)))
  }

  function AfterExternal(sys: System, update: S.Step): (n: Next)
    requires Sound(sys) && Enabled(sys, External(update))
  {
    if S.Enabled(sys.shared.core, update)
    then Running(sys.(shared := Update(sys.shared, S.Apply(sys.shared.core, update))))
    else Crash(NotApproved)
  }

  function Happens(sys: System, e: Event): (n: Next)
    requires Sound(sys) && Enabled(sys, e)
  {
    match e
    case Subscribe(w) => Running(AfterSubscribe(sys, w))
    case Wake(w) => Running(AfterWake(sys, w))
    case Fetch(w, now) => AfterFetch(sys, w, now)
    case Begin(w, now) => AfterBegin(sys, w, now)
    case Finish(w, outcome) => AfterFinish(sys, w, outcome)
    case External(update) => AfterExternal(sys, update)
    case Disconnect =>
      Running(sys.(shared := Update(sys.shared, S.MonitorReset(sys.shared.core)),
                   generation := sys.generation + 1, connection := None))
    case Connect =>
      Running(sys.(shared := Update(sys.shared, S.MonitorActive(sys.shared.core, true)),
                   generation := sys.generation + 1, connection := Some(sys.generation + 1)))
  }

  function Initial(core: State): (sys: System) {
    var idle := Worker(Unsubscribed, 0, false, 0);
    System(Shared(core, None, -1, 0), ActionSet(None, None, None, None, None), 0, 0, None,
           map[PluginWorker := idle, NeonVMWorker := idle, UpscaleWorker := idle, DownscaleWorker := idle])
  }

  // ---- invariants -------------------------------------------------------------------------------

  /** The set proposes at most one monitor request, and only while the monitor has none. */
  ghost predicate OneMonitorAction(a: ActionSet, m: MonitorState) {
    && (a.monitorUpscale.Some? ==> a.monitorDownscale.None? && m.ongoingRequest.None?)
    && (a.monitorDownscale.Some? ==> a.monitorUpscale.None? && m.ongoingRequest.None?)
  }

  /** Nothing is asked of a monitor that is not there. */
  ghost predicate OnlyIfActive(a: ActionSet, m: MonitorState) {
    m.approved.None? ==> a.monitorUpscale.None? && a.monitorDownscale.None?
  }

  ghost predicate Wants(sys: System, w: WorkerId)
    requires w in sys.workers
  {
    sys.workers[w].pc.Deciding? && sys.workers[w].pc.last.id == sys.shared.lastActionsID
  }

  /** The connection and the scaling state agree about whether the monitor is there. */
  ghost predicate ConnectionInv(sys: System) {
    && (sys.connection.Some? ==> sys.connection.value == sys.generation && sys.shared.core.monitor.approved.Some?)
    && (sys.connection.None? ==> sys.shared.core.monitor == RESET_MONITOR)
    && sys.generation >= 0
  }

  /** A monitor request of the current connection is in flight exactly if the scaling state records it. */
  ghost predicate RequestInv(sys: System)
    requires Total(sys)
  {
    && (forall w :: TalksToMonitor(w) && sys.workers[w].pc.InFlight? ==> sys.workers[w].pc.generation <= sys.generation)
    && (forall w :: TalksToMonitor(w) && sys.workers[w].pc.InFlight? && sys.workers[w].pc.generation == sys.generation ==>
          sys.shared.core.monitor.ongoingRequest == Some(OngoingMonitorRequest(KindOf(w), sys.workers[w].pc.target)))
    && (sys.shared.core.monitor.ongoingRequest.Some? ==>
          var r := sys.shared.core.monitor.ongoingRequest.value;
          sys.workers[WorkerOf(r.kind)].pc == InFlight(r.requested, sys.generation))
    && (if sys.workers[NeonVMWorker].pc.InFlight?
        then sys.shared.core.neonvm.ongoingRequested == Some(sys.workers[NeonVMWorker].pc.target)
        else sys.shared.core.neonvm.ongoingRequested.None?)
    && (if sys.workers[PluginWorker].pc.InFlight?
        then && sys.shared.core.plugin.ongoingRequest && sys.shared.core.plugin.lastRequest.Some?
             && sys.shared.core.plugin.lastRequest.value.resources == sys.workers[PluginWorker].pc.target
        else !sys.shared.core.plugin.ongoingRequest)
  }

  /** Action sets that can still be acted upon are the newest one, and sound for the current state. */
  ghost predicate ActionInv(sys: System)
    requires Total(sys)
  {
    && (sys.shared.actions.Some? ==>
          && sys.shared.actions.value.id == sys.shared.lastActionsID
          && sys.shared.actions.value.actions == sys.lastSet
          && OneMonitorAction(sys.lastSet, sys.shared.core.monitor)
          && OnlyIfActive(sys.lastSet, sys.shared.core.monitor))
    && (forall w :: sys.workers[w].pc.Deciding? ==>
          && sys.workers[w].pc.last.id <= sys.shared.lastActionsID
          && ActionFor(w, sys.workers[w].pc.last.actions).Some?)
    && (forall w :: Wants(sys, w) ==> sys.workers[w].pc.last.actions == sys.lastSet)
    && (forall w :: TalksToMonitor(w) && Wants(sys, w) ==> OneMonitorAction(sys.lastSet, sys.shared.core.monitor))
  }

  ghost predicate Inv(sys: System) {
    Sound(sys) && ConnectionInv(sys) && RequestInv(sys) && ActionInv(sys)
  }

  lemma DecisionsPropose(core: State, now: int)
    requires core.config.computeUnit.NonZero() && NextActions(core, now).Ok?
    ensures OneMonitorAction(NextActions(core, now).value, core.monitor)
    ensures OnlyIfActive(NextActions(core, now).value, core.monitor)
  {
  }

  lemma FetchKeepsActions(sys: System, w: WorkerId, now: int)
    requires Sound(sys) && ActionInv(sys) && Enabled(sys, Fetch(w, now)) && AfterFetch(sys, w, now).Running?
    ensures Total(AfterFetch(sys, w, now).sys) && ActionInv(AfterFetch(sys, w, now).sys)
  {
    if sys.shared.actions.None? {
      DecisionsPropose(sys.shared.core, now);
    }
  }

  lemma FetchKeepsRequests(sys: System, w: WorkerId, now: int)
    requires Sound(sys) && RequestInv(sys) && Enabled(sys, Fetch(w, now)) && AfterFetch(sys, w, now).Running?
    ensures Total(AfterFetch(sys, w, now).sys) && RequestInv(AfterFetch(sys, w, now).sys)
    ensures AfterFetch(sys, w, now).sys.shared.core == sys.shared.core
  {
  }

  lemma FetchKeepsInv(sys: System, w: WorkerId, now: int)
    requires Inv(sys) && Enabled(sys, Fetch(w, now)) && AfterFetch(sys, w, now).Running?
    ensures Inv(AfterFetch(sys, w, now).sys)
  {
    FetchKeepsActions(sys, w, now);
    FetchKeepsRequests(sys, w, now);
  }

  lemma BeginKeepsRequests(sys: System, w: WorkerId, now: int)
    requires Inv(sys) && Enabled(sys, Begin(w, now)) && AfterBegin(sys, w, now).Running?
    ensures Total(AfterBegin(sys, w, now).sys) && RequestInv(AfterBegin(sys, w, now).sys)
  {
    assert Unchanged(sys.shared, sys.workers[w].pc.last) ==> Wants(sys, w);
  }

  lemma BeginKeepsActions(sys: System, w: WorkerId, now: int)
    requires Inv(sys) && Enabled(sys, Begin(w, now)) && AfterBegin(sys, w, now).Running?
    ensures Total(AfterBegin(sys, w, now).sys) && ActionInv(AfterBegin(sys, w, now).sys)
  {
    var sys' := AfterBegin(sys, w, now).sys;
    if Unchanged(sys.shared, sys.workers[w].pc.last) {
      assert Wants(sys, w);
      forall v | TalksToMonitor(v) && Wants(sys', v)
        ensures OneMonitorAction(sys'.lastSet, sys'.shared.core.monitor)
      {
        assert v != w && Wants(sys, v);
      }
    }
  }

  lemma BeginKeepsInv(sys: System, w: WorkerId, now: int)
    requires Inv(sys) && Enabled(sys, Begin(w, now)) && AfterBegin(sys, w, now).Running?
    ensures Inv(AfterBegin(sys, w, now).sys)
  {
    BeginKeepsRequests(sys, w, now);
    BeginKeepsActions(sys, w, now);
  }

  lemma ConnectionKeepsInv(sys: System, e: Event)
    requires Inv(sys) && Enabled(sys, e) && (e == Connect || e == Disconnect)
    ensures Inv(Happens(sys, e).sys)
  {
    var sys' := Happens(sys, e).sys;
    assert forall w :: Wants(sys', w) <==> Wants(sys, w);
  }

  lemma ExternalKeepsInv(sys: System, update: S.Step)
    requires Inv(sys) && Enabled(sys, External(update)) && AfterExternal(sys, update).Running?
    ensures Inv(AfterExternal(sys, update).sys)
  {
    var sys' := AfterExternal(sys, update).sys;
    assert forall w :: Wants(sys', w) <==> Wants(sys, w);
  }

  /** What a reply touches: only its own part of the state, where it ends the request. */
  lemma ReplyEffect(core: State, w: WorkerId, outcome: Outcome)
    requires core.vm.slotSize > 0 && Possible(w, outcome) && Replied(core, w, outcome).CoreOk?
    ensures var core' := Replied(core, w, outcome).core;
      && core'.config == core.config && core'.vm.slotSize == core.vm.slotSize
      && (w == PluginWorker ==>
            core'.neonvm == core.neonvm && core'.monitor == core.monitor && !core'.plugin.ongoingRequest)
      && (w == NeonVMWorker ==>
            core'.plugin == core.plugin && core'.monitor == core.monitor && core'.neonvm.ongoingRequested.None?)
      && (TalksToMonitor(w) ==>
            && core'.plugin == core.plugin && core'.neonvm == core.neonvm
            && core'.monitor.ongoingRequest.None? && (core.monitor.approved.Some? ==> core'.monitor.approved.Some?))
  {
  }

  /** A reply that is not dropped always finds the request it belongs to. */
  lemma ReplyFindsItsRequest(sys: System, w: WorkerId, outcome: Outcome)
    requires Inv(sys) && Enabled(sys, Finish(w, outcome)) && !Dropped(sys, w)
    ensures Replied(sys.shared.core, w, outcome).CoreOk?
    ensures TalksToMonitor(w) ==>
      sys.connection.Some? &&
      sys.shared.core.monitor.ongoingRequest == Some(OngoingMonitorRequest(KindOf(w), sys.workers[w].pc.target))
  {
    if TalksToMonitor(w) {
      assert sys.workers[w].pc.generation == sys.generation;
    }
  }

  lemma FinishKeepsInv(sys: System, w: WorkerId, outcome: Outcome)
    requires Inv(sys) && Enabled(sys, Finish(w, outcome))
    ensures AfterFinish(sys, w, outcome).Running?
    ensures Inv(AfterFinish(sys, w, outcome).sys)
  {
    if Dropped(sys, w) {
      ReportKeepsInv(sys, w, sys.shared.core);
    } else {
      ReplyFindsItsRequest(sys, w, outcome);
      ReplyEffect(sys.shared.core, w, outcome);
      ReportKeepsInv(sys, w, Replied(sys.shared.core, w, outcome).core);
    }
  }

  /** The end of a request, for any new state that ends it and touches nothing else. */
  lemma ReportKeepsInv(sys: System, w: WorkerId, core: State)
    requires Inv(sys) && sys.workers[w].pc.InFlight?
    requires core.config == sys.shared.core.config && core.vm.slotSize == sys.shared.core.vm.slotSize
    requires w != PluginWorker ==> core.plugin == sys.shared.core.plugin
    requires w == PluginWorker ==> !core.plugin.ongoingRequest
    requires w != NeonVMWorker ==> core.neonvm == sys.shared.core.neonvm
    requires w == NeonVMWorker ==> core.neonvm.ongoingRequested.None?
    requires if TalksToMonitor(w) && !Dropped(sys, w)
      then core.monitor.ongoingRequest.None? && sys.connection.Some? && core.monitor.approved.Some?
      else core.monitor == sys.shared.core.monitor
    ensures Inv(SetPc(sys, w, Waiting).(shared := Update(sys.shared, core)))
  {
    var sys' := SetPc(sys, w, Waiting).(shared := Update(sys.shared, core));
    forall v | TalksToMonitor(v) && sys'.workers[v].pc.InFlight? && sys'.workers[v].pc.generation == sys'.generation
      ensures sys'.shared.core.monitor.ongoingRequest == Some(OngoingMonitorRequest(KindOf(v), sys'.workers[v].pc.target))
    {
      assert v != w && sys.workers[v].pc.generation == sys.generation;
    }
    forall v | Wants(sys', v)
      ensures sys'.workers[v].pc.last.actions == sys'.lastSet
      ensures TalksToMonitor(v) ==> OneMonitorAction(sys'.lastSet, sys'.shared.core.monitor)
    {
      assert Wants(sys, v);
    }
  }

  lemma EventKeepsInv(sys: System, e: Event)
    requires Inv(sys) && Enabled(sys, e) && Happens(sys, e).Running?
    ensures Inv(Happens(sys, e).sys)
  {
    match e
    case Fetch(w, now) => FetchKeepsInv(sys, w, now);
    case Begin(w, now) => BeginKeepsInv(sys, w, now);
    case Finish(w, outcome) => FinishKeepsInv(sys, w, outcome);
    case External(update) => ExternalKeepsInv(sys, update);
    case Connect => ConnectionKeepsInv(sys, e);
    case Disconnect => ConnectionKeepsInv(sys, e);
    case _ =>
  }

  // ---- wake-ups ---------------------------------------------------------------------------------

  /**
   * Nothing a worker could act upon goes by unseen: a worker that has seen every broadcast has inspected
   * the newest action set, and that set was calculated after every update so far.
   */
  ghost predicate WakeInv(sys: System)
    requires Total(sys)
  {
    && sys.computedAt <= sys.shared.sent
    && (sys.shared.actions.Some? ==> sys.computedAt == sys.shared.sent)
    && (forall w :: sys.workers[w].viewed <= sys.shared.sent)
    && (forall w :: sys.workers[w].pc.Deciding? && sys.workers[w].viewed == sys.shared.sent ==>
          sys.shared.actions == Some(sys.workers[w].pc.last))
    && (forall w :: sys.workers[w].pc.InFlight? ==> sys.workers[w].viewed < sys.shared.sent)
    && (forall w :: sys.workers[w].woken && sys.workers[w].pc != Fetching && sys.workers[w].viewed == sys.shared.sent ==>
          sys.workers[w].inspectedAt == sys.shared.sent)
    && (forall w :: sys.workers[w].woken ==> sys.workers[w].pc != Unsubscribed)
  }

  lemma FetchKeepsWakeInv(sys: System, w: WorkerId, now: int)
    requires Sound(sys) && WakeInv(sys) && Enabled(sys, Fetch(w, now)) && AfterFetch(sys, w, now).Running?
    ensures Total(AfterFetch(sys, w, now).sys) && WakeInv(AfterFetch(sys, w, now).sys)
  {
  }

  lemma BeginKeepsWakeInv(sys: System, w: WorkerId, now: int)
    requires Sound(sys) && WakeInv(sys) && Enabled(sys, Begin(w, now)) && AfterBegin(sys, w, now).Running?
    ensures Total(AfterBegin(sys, w, now).sys) && WakeInv(AfterBegin(sys, w, now).sys)
  {
  }

  lemma FinishKeepsWakeInv(sys: System, w: WorkerId, outcome: Outcome)
    requires Sound(sys) && WakeInv(sys) && Enabled(sys, Finish(w, outcome)) && AfterFinish(sys, w, outcome).Running?
    ensures Total(AfterFinish(sys, w, outcome).sys) && WakeInv(AfterFinish(sys, w, outcome).sys)
  {
    assert AfterFinish(sys, w, outcome).sys.shared.sent == sys.shared.sent + 1;
  }

  lemma EventKeepsWakeInv(sys: System, e: Event)
    requires Sound(sys) && WakeInv(sys) && Enabled(sys, e) && Happens(sys, e).Running?
    ensures Total(Happens(sys, e).sys) && WakeInv(Happens(sys, e).sys)
  {
    match e
    case Fetch(w, now) => FetchKeepsWakeInv(sys, w, now);
    case Begin(w, now) => BeginKeepsWakeInv(sys, w, now);
    case Finish(w, outcome) => FinishKeepsWakeInv(sys, w, outcome);
    case _ =>
  }

  // ---- whole runs -------------------------------------------------------------------------------

  ghost predicate ValidRun(sys: System, events: seq<Event>)
    decreases |events|
  {
    events != [] ==>
      && Sound(sys) && Enabled(sys, events[0]) && Happens(sys, events[0]).Running?
      && ValidRun(Happens(sys, events[0]).sys, events[1..])
  }

  function Exec(sys: System, events: seq<Event>): (sys': System)
    requires ValidRun(sys, events)
    decreases |events|
  {
    if events == [] then sys else Exec(Happens(sys, events[0]).sys, events[1..])
  }

  lemma {:induction false} RunKeepsInv(sys: System, events: seq<Event>)
    requires Inv(sys) && WakeInv(sys) && ValidRun(sys, events)
    ensures Inv(Exec(sys, events)) && WakeInv(Exec(sys, events))
    decreases |events|
  {
    if events != [] {
      EventKeepsInv(sys, events[0]);
      EventKeepsWakeInv(sys, events[0]);
      RunKeepsInv(Happens(sys, events[0]).sys, events[1..]);
    }
  }

  lemma InitialKeepsInv(vm: VmInfo, config: Config, goal: Goal)
    requires config.computeUnit.NonZero() && vm.slotSize > 0
    ensures Inv(Initial(NewState(vm, config, goal))) && WakeInv(Initial(NewState(vm, config, goal)))
  {
    var sys := Initial(NewState(vm, config, goal));
    forall w: WorkerId
      ensures w in sys.workers && sys.workers[w] == Worker(Unsubscribed, 0, false, 0)
    {
      match w
      case PluginWorker =>
      case NeonVMWorker =>
      case UpscaleWorker =>
      case DownscaleWorker =>
    }
  }

  /**
   * For every interleaving up to a crash: a reply is applied only if the state still records exactly the
   * request that its worker began, it then never crashes, and a reply over an older connection leaves the
   * scaling state as it was.
   */
  lemma RepliesMatchRequests(vm: VmInfo, config: Config, goal: Goal, events: seq<Event>, w: WorkerId, outcome: Outcome)
    requires config.computeUnit.NonZero() && vm.slotSize > 0
    requires ValidRun(Initial(NewState(vm, config, goal)), events)
    requires var sys := Exec(Initial(NewState(vm, config, goal)), events); Sound(sys) && Enabled(sys, Finish(w, outcome))
    ensures var sys := Exec(Initial(NewState(vm, config, goal)), events);
      && AfterFinish(sys, w, outcome).Running?
      && (TalksToMonitor(w) ==>
            if sys.workers[w].pc.generation == sys.generation
            then sys.shared.core.monitor.ongoingRequest == Some(OngoingMonitorRequest(KindOf(w), sys.workers[w].pc.target))
            else AfterFinish(sys, w, outcome).sys.shared.core == sys.shared.core)
      && (w == NeonVMWorker ==> sys.shared.core.neonvm.ongoingRequested == Some(sys.workers[w].pc.target))
  {
    var sys0 := Initial(NewState(vm, config, goal));
    InitialKeepsInv(vm, config, goal);
    RunKeepsInv(sys0, events);
    var sys := Exec(sys0, events);
    FinishKeepsInv(sys, w, outcome);
    if !Dropped(sys, w) {
      ReplyFindsItsRequest(sys, w, outcome);
    }
  }

  /** At most one request to the monitor belongs to the current connection. */
  lemma OneRequestPerConnection(vm: VmInfo, config: Config, goal: Goal, events: seq<Event>, v: WorkerId, w: WorkerId)
    requires config.computeUnit.NonZero() && vm.slotSize > 0
    requires ValidRun(Initial(NewState(vm, config, goal)), events)
    requires TalksToMonitor(v) && TalksToMonitor(w)
    ensures var sys := Exec(Initial(NewState(vm, config, goal)), events);
      && Total(sys)
      && (v != w && sys.workers[v].pc.InFlight? && sys.workers[w].pc.InFlight? ==>
            sys.workers[v].pc.generation != sys.generation || sys.workers[w].pc.generation != sys.generation)
  {
    InitialKeepsInv(vm, config, goal);
    RunKeepsInv(Initial(NewState(vm, config, goal)), events);
  }

  /** Once its connection is gone, a request stays dropped until its reply arrives. */
  lemma OlderRequestsStayDropped(sys: System, e: Event, w: WorkerId)
    requires Inv(sys) && Enabled(sys, e) && Happens(sys, e).Running?
    requires TalksToMonitor(w) && sys.workers[w].pc.InFlight?
    requires Dropped(sys, w) || e == Disconnect
    requires !(e.Finish? && e.w == w)
    ensures w in Happens(sys, e).sys.workers && Happens(sys, e).sys.workers[w].pc == sys.workers[w].pc
    ensures Dropped(Happens(sys, e).sys, w)
  {
  }

  /** Action-set ids only grow, and by one each time a set is calculated. */
  lemma IdsIncrease(sys: System, e: Event)
    requires Inv(sys) && Enabled(sys, e) && Happens(sys, e).Running?
    ensures var sys' := Happens(sys, e).sys;
      sys'.shared.lastActionsID ==
        if e.Fetch? && sys.shared.actions.None? then sys.shared.lastActionsID + 1 else sys.shared.lastActionsID
  {
  }

  lemma StaysWoken(sys: System, e: Event, w: WorkerId)
    requires Sound(sys) && Enabled(sys, e) && Happens(sys, e).Running?
    ensures w in Happens(sys, e).sys.workers
    ensures sys.workers[w].woken || e == Wake(w) ==> Happens(sys, e).sys.workers[w].woken
  {
  }

  lemma {:induction false} WakingIsRemembered(sys: System, events: seq<Event>, w: WorkerId)
    requires Inv(sys) && ValidRun(sys, events)
    ensures w in Exec(sys, events).workers
    ensures sys.workers[w].woken || Wake(w) in events ==> Exec(sys, events).workers[w].woken
    decreases |events|
  {
    if events != [] {
      EventKeepsInv(sys, events[0]);
      StaysWoken(sys, events[0], w);
      WakingIsRemembered(Happens(sys, events[0]).sys, events[1..], w);
      assert events == [events[0]] + events[1..];
    }
  }

  /**
   * An action begins only if it belongs to the newest action set. A worker that is refused has a broadcast
   * it has not seen, and a worker that is blocked after having been woken once has inspected a set that
   * was calculated after every update so far.
   */
  lemma NoUpdateIsMissed(vm: VmInfo, config: Config, goal: Goal, events: seq<Event>, w: WorkerId, now: int)
    requires config.computeUnit.NonZero() && vm.slotSize > 0
    requires ValidRun(Initial(NewState(vm, config, goal)), events)
    ensures var sys := Exec(Initial(NewState(vm, config, goal)), events);
      && Sound(sys)
      && (Enabled(sys, Begin(w, now)) && Unchanged(sys.shared, sys.workers[w].pc.last) ==>
            sys.workers[w].pc.last.actions == sys.lastSet)
      && (Enabled(sys, Begin(w, now)) && !Unchanged(sys.shared, sys.workers[w].pc.last) ==>
            sys.workers[w].viewed < sys.shared.sent)
      && (sys.workers[w].pc == Waiting && Wake(w) in events && !Enabled(sys, Wake(w)) ==>
            sys.workers[w].inspectedAt == sys.shared.sent)
  {
    InitialKeepsInv(vm, config, goal);
    RunKeepsInv(Initial(NewState(vm, config, goal)), events);
    WakingIsRemembered(Initial(NewState(vm, config, goal)), events, w);
    var sys := Exec(Initial(NewState(vm, config, goal)), events);
    if Enabled(sys, Begin(w, now)) && Unchanged(sys.shared, sys.workers[w].pc.last) {
      assert Wants(sys, w);
    }
  }

  /**
   * Having been woken matters: a worker that subscribes after an update is blocked on it without ever having
   * inspected an action set.
   */
  lemma LateSubscriberMissesUpdate(vm: VmInfo, config: Config, goal: Goal, update: Goal, w: WorkerId)
    requires config.computeUnit.NonZero() && vm.slotSize > 0
    ensures var events := [External(S.MetricsUpdate(update)), Subscribe(w)];
      && ValidRun(Initial(NewState(vm, config, goal)), events)
      && var sys := Exec(Initial(NewState(vm, config, goal)), events);
         && Sound(sys)
         && sys.workers[w].pc == Waiting && !sys.workers[w].woken && !Enabled(sys, Wake(w))
         && sys.workers[w].inspectedAt < sys.shared.sent
  {
    var sys0 := Initial(NewState(vm, config, goal));
    InitialKeepsInv(vm, config, goal);
    var e := External(S.MetricsUpdate(update));
    EventKeepsInv(sys0, e);
    var sys1 := Happens(sys0, e).sys;
    assert sys1.workers == sys0.workers && sys0.workers[w] == Worker(Unsubscribed, 0, false, 0);
    assert [e, Subscribe(w)][1..] == [Subscribe(w)] && [Subscribe(w)][1..] == [];
    var sys2 := Happens(sys1, Subscribe(w)).sys;
    assert ValidRun(sys2, []) && Exec(sys2, []) == sys2;
    assert ValidRun(sys1, [Subscribe(w)]) && Exec(sys1, [Subscribe(w)]) == sys2;
  }

  /** A monitor worker whose set would let it begin although there is no connection. */
  predicate BeginsWithoutConnection(sys: System, e: Event)
    requires Sound(sys) && Enabled(sys, e)
  {
    e.Begin? && TalksToMonitor(e.w) && sys.connection.None? && Unchanged(sys.shared, sys.workers[e.w].pc.last)
  }

  lemma CrashesFrom(sys: System, e: Event)
    requires Inv(sys) && Enabled(sys, e)
    ensures Happens(sys, e).Crash? <==>
      || (e.Fetch? && GetActions(sys.shared, e.now).Panic?)
      || BeginsWithoutConnection(sys, e)
      || (e.External? && !S.Enabled(sys.shared.core, e.update))
  {
    if e.Finish? {
      FinishKeepsInv(sys, e.w, e.outcome);
    }
  }

  lemma WithoutConnectionIsStale(sys: System, e: Event)
    requires Inv(sys) && Enabled(sys, e) && BeginsWithoutConnection(sys, e)
    ensures sys.shared.actions.None?
  {
    assert Wants(sys, e.w);
  }

  /**
   * A crash has one of three causes: the decision itself, an upscale request before the monitor is active, or
   * a monitor worker that begins without a connection. In the last case the worker's action set is stale: the
   * state was updated after it was computed, and no newer set has been computed since. Replies never crash.
   */
  lemma CrashesExactly(vm: VmInfo, config: Config, goal: Goal, events: seq<Event>, e: Event)
    requires config.computeUnit.NonZero() && vm.slotSize > 0
    requires ValidRun(Initial(NewState(vm, config, goal)), events)
    requires var sys := Exec(Initial(NewState(vm, config, goal)), events); Sound(sys) && Enabled(sys, e)
    ensures var sys := Exec(Initial(NewState(vm, config, goal)), events);
      && (Happens(sys, e).Crash? <==>
            || (e.Fetch? && GetActions(sys.shared, e.now).Panic?)
            || BeginsWithoutConnection(sys, e)
            || (e.External? && !S.Enabled(sys.shared.core, e.update)))
      && (BeginsWithoutConnection(sys, e) ==> sys.shared.actions.None?)
  {
    InitialKeepsInv(vm, config, goal);
    RunKeepsInv(Initial(NewState(vm, config, goal)), events);
    var sys := Exec(Initial(NewState(vm, config, goal)), events);
    CrashesFrom(sys, e);
    if BeginsWithoutConnection(sys, e) {
      WithoutConnectionIsStale(sys, e);
    }
  }

  /** A connection lost between the two critical sections of a monitor worker is such a case. */
  lemma LostConnectionCrashes(sys: System, w: WorkerId, now: int)
    requires Inv(sys) && TalksToMonitor(w) && Wants(sys, w)
    ensures Happens(sys, Disconnect).Running? && Enabled(Happens(sys, Disconnect).sys, Begin(w, now))
    ensures Happens(Happens(sys, Disconnect).sys, Begin(w, now)) == Crash(NoMonitorHandle)
  {
  }

  /** The monitor becomes active only while the scaling state has it reset. */
  lemma ActivationFollowsReset(vm: VmInfo, config: Config, goal: Goal, events: seq<Event>)
    requires config.computeUnit.NonZero() && vm.slotSize > 0
    requires ValidRun(Initial(NewState(vm, config, goal)), events)
    requires var sys := Exec(Initial(NewState(vm, config, goal)), events); Sound(sys) && Enabled(sys, Connect)
    ensures Exec(Initial(NewState(vm, config, goal)), events).shared.core.monitor == RESET_MONITOR
  {
    InitialKeepsInv(vm, config, goal);
    RunKeepsInv(Initial(NewState(vm, config, goal)), events);
  }
}
