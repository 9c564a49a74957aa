/**
 * Executor runs with a clock that does not run back, in which monitor requests begin under the connection they were
 * calculated for: the cooldown after a denied downscale is respected, and the only crash left is an upscale wish before
 * the monitor is active.
 */
module ExecutorTiming {
  import opened Api
  import opened CoreState
  import K = CoreCooldown
  import opened ExecutorWorkers
  import opened ExecutorSafety
  import opened ExecutorCauses

  /** While the cooldown lasts, the target exceeds what was denied wherever that was a decrease. */
  ghost predicate ExceedsDenied(core: State, target: Resources, clock: int) {
    core.monitor.deniedDownscale.Some? && TimeUntilDeniedDownscaleExpired(core, clock) > 0 ==>
      K.Above(core.monitor.deniedDownscale.value, target)
  }

  /** A request to the monitor still goes in its direction from what is approved, and exceeds what was denied. */
  ghost predicate Suits(core: State, w: WorkerId, target: Resources, clock: int) {
    match w
    case PluginWorker => true
    case NeonVMWorker => true
    case UpscaleWorker =>
      && core.monitor.approved.Some? && core.monitor.approved.value.Leq(target)
      && ExceedsDenied(core, target, clock)
    case DownscaleWorker =>
      && core.monitor.approved.Some? && target.Leq(core.monitor.approved.value) && target != core.monitor.approved.value
      && ExceedsDenied(core, target, clock)
  }

  /** Sets are calculated at moments that do not decrease, and monitor requests begun under the same connection. */
  predicate Orderly(t: Traced, e: Event)
    requires Sound(t.sys) && Enabled(t.sys, e)
  {
    && (Decides(t.sys, e) ==> t.decidedAt <= e.now)
    && (Begins(t.sys, e) && TalksToMonitor(e.w) ==> t.generation == t.sys.generation)
  }

  /** Under the connection they were calculated for, live monitor requests suit the state. */
  ghost predicate SuitsInv(t: Traced)
    requires Total(t.sys)
  {
    forall w :: TalksToMonitor(w) && Live(t.sys, w) && t.generation == t.sys.generation ==>
      Suits(t.sys.shared.core, w, TargetIn(t.sys.lastSet, w), t.decidedAt)
  }

  ghost predicate TimedInv(t: Traced, slot: nat, cap: Resources) {
    && TraceInv(t, slot, cap) && SuitsInv(t)
    && K.CooldownInv(t.sys.shared.core, t.decidedAt, cap)
  }

  // ---- one event --------------------------------------------------------------------------------

  lemma CooldownLasts(core: State, clock: int, later: int, cap: Resources)
    requires K.CooldownInv(core, clock, cap) && clock <= later
    ensures K.CooldownInv(core, later, cap)
  {
  }

  lemma OutsideKeepsCooldown(t: Traced, e: Event, slot: nat, cap: Resources)
    requires TimedInv(t, slot, cap) && Enabled(t.sys, e) && Happens(t.sys, e).Running? && !Begins(t.sys, e)
    requires UpdateOk(t.sys, e, cap) && Orderly(t, e)
    ensures K.CooldownInv(After(t, e).sys.shared.core, After(t, e).decidedAt, cap)
  {
    OutsideIsStep(t.sys, e);
    match OutsideStep(t.sys, e)
    case None => CooldownLasts(t.sys.shared.core, t.decidedAt, After(t, e).decidedAt, cap);
    case Some(step) => K.StepKeepsCooldown(t.sys.shared.core, step, t.decidedAt, cap);
  }

  /** Beginning a request keeps the cooldown if and only if it suits the state, however old its action set is. */
  lemma StartedKeepsCooldownIff(core: State, w: WorkerId, now: int, target: Resources, clock: int, cap: Resources)
    requires K.CooldownInv(core, clock, cap) && TargetFits(w, target, core.vm.slotSize, cap)
    ensures K.CooldownInv(Started(core, w, now, target), clock, cap) <==> Suits(core, w, target, clock)
  {
  }

  lemma BeginKeepsCooldown(t: Traced, e: Event, slot: nat, cap: Resources)
    requires TimedInv(t, slot, cap) && Enabled(t.sys, e) && Happens(t.sys, e).Running? && Begins(t.sys, e) && Orderly(t, e)
    ensures K.CooldownInv(After(t, e).sys.shared.core, After(t, e).decidedAt, cap)
  {
    SameConnectionSuits(t, e.w, e.now, slot, cap);
    StartedKeepsCooldownIff(t.sys.shared.core, e.w, e.now, TargetOf(t.sys, e), t.decidedAt, cap);
  }

  /** However stale it is, an action begun under the connection it was calculated for suits the state. */
  lemma SameConnectionSuits(t: Traced, w: WorkerId, now: int, slot: nat, cap: Resources)
    requires TimedInv(t, slot, cap) && Enabled(t.sys, Begin(w, now)) && Begins(t.sys, Begin(w, now))
    requires TalksToMonitor(w) ==> t.generation == t.sys.generation
    ensures Suits(t.sys.shared.core, w, TargetOf(t.sys, Begin(w, now)), t.decidedAt)
  {
    BegunIsLive(t, w, now);
  }

  /** An action that is not stale is of the current connection, so it always suits the state. */
  lemma FreshSuits(t: Traced, w: WorkerId, now: int, slot: nat, cap: Resources)
    requires TimedInv(t, slot, cap) && Enabled(t.sys, Begin(w, now)) && Begins(t.sys, Begin(w, now)) && t.sys.shared.actions.Some?
    ensures Suits(t.sys.shared.core, w, TargetOf(t.sys, Begin(w, now)), t.decidedAt)
  {
    SameConnectionSuits(t, w, now, slot, cap);
  }

  lemma NewSetSuits(core: State, now: int, w: WorkerId, clock: int, cap: Resources)
    requires K.CooldownInv(core, clock, cap) && clock <= now && NextActions(core, now).Ok?
    requires TalksToMonitor(w) && ActionFor(w, NextActions(core, now).value).Some?
    ensures Suits(core, w, TargetIn(NextActions(core, now).value, w), now)
  {
    var a := NextActions(core, now).value;
    P.ProposalFacts(core, now, cap);
    CooldownLasts(core, clock, now, cap);
    var step := StartStep(w, now, now);
    K.StepKeepsCooldown(core, step, now, cap);
    StartedKeepsCooldownIff(core, w, now, TargetIn(a, w), now, cap);
  }

  lemma DecisionKeepsSuits(t: Traced, e: Event, slot: nat, cap: Resources)
    requires TimedInv(t, slot, cap) && Enabled(t.sys, e) && Happens(t.sys, e).Running? && Decides(t.sys, e) && Orderly(t, e)
    ensures Total(After(t, e).sys) && SuitsInv(After(t, e))
  {
    var t' := After(t, e);
    forall w | TalksToMonitor(w) && Live(t'.sys, w)
      ensures Suits(t'.sys.shared.core, w, TargetIn(t'.sys.lastSet, w), t'.decidedAt)
    {
      NewSetSuits(t.sys.shared.core, e.now, w, t.decidedAt, cap);
    }
  }

  /** While a monitor request can still begin, nothing but a change of connection touches what the monitor approved or denied. */
  lemma MonitorIsKept(t: Traced, e: Event, w: WorkerId)
    requires Inv(t.sys) && Enabled(t.sys, e) && Happens(t.sys, e).Running? && !Decides(t.sys, e)
    requires Total(After(t, e).sys) && TalksToMonitor(w) && Live(After(t, e).sys, w)
    requires After(t, e).sys.generation == t.sys.generation
    ensures Live(t.sys, w) && After(t, e).sys.lastSet == t.sys.lastSet
    ensures var m, m' := t.sys.shared.core.monitor, After(t, e).sys.shared.core.monitor;
      m'.approved == m.approved && m'.deniedDownscale == m.deniedDownscale
    ensures After(t, e).sys.shared.core.config == t.sys.shared.core.config
  {
    LiveShrinks(t, e);
  }

  lemma EventKeepsSuits(t: Traced, e: Event, slot: nat, cap: Resources)
    requires TimedInv(t, slot, cap) && Enabled(t.sys, e) && Happens(t.sys, e).Running? && Orderly(t, e)
    requires Total(After(t, e).sys)
    ensures SuitsInv(After(t, e))
  {
    if Decides(t.sys, e) {
      DecisionKeepsSuits(t, e, slot, cap);
    } else {
      var t' := After(t, e);
      forall w | TalksToMonitor(w) && Live(t'.sys, w) && t'.generation == t'.sys.generation
        ensures Suits(t'.sys.shared.core, w, TargetIn(t'.sys.lastSet, w), t'.decidedAt)
      {
        GenerationGrows(t.sys, e);
        MonitorIsKept(t, e, w);
      }
    }
  }

  lemma GenerationGrows(sys: System, e: Event)
    requires Sound(sys) && Enabled(sys, e) && Happens(sys, e).Running?
    ensures Happens(sys, e).sys.generation == if e == Connect || e == Disconnect then sys.generation + 1 else sys.generation
  {
  }

  lemma EventKeepsTimedInv(t: Traced, e: Event, slot: nat, cap: Resources)
    requires TimedInv(t, slot, cap) && Enabled(t.sys, e) && Happens(t.sys, e).Running?
    requires UpdateOk(t.sys, e, cap) && Orderly(t, e) && Blameless(t, e)
    ensures TimedInv(After(t, e), slot, cap)
  {
    BlamelessKeepsTrace(t, e, slot, cap);
    EventKeepsSuits(t, e, slot, cap);
    if Begins(t.sys, e) {
      BeginKeepsCooldown(t, e, slot, cap);
    } else {
      OutsideKeepsCooldown(t, e, slot, cap);
    }
  }

  /** With both invariants an event crashes if and only if it is an upscale wish without an active monitor. */
  lemma OnlyEarlyWishesCrash(t: Traced, e: Event, slot: nat, cap: Resources)
    requires TimedInv(t, slot, cap) && Enabled(t.sys, e) && Orderly(t, e)
    ensures Happens(t.sys, e).Crash? <==>
      e.External? && e.update.RequestUpscale? && t.sys.shared.core.monitor.approved.None?
  {
    CrashesFrom(t.sys, e);
    if Decides(t.sys, e) {
      P.NextActionsOutcome(t.sys.shared.core, e.now, cap);
      K.NeverTooSoon(t.sys.shared.core, t.decidedAt, e.now, cap);
    }
    if BeginsWithoutConnection(t.sys, e) {
      SameConnectionSuits(t, e.w, e.now, slot, cap);
    }
  }

  // ---- whole runs -------------------------------------------------------------------------------

  ghost predicate OrderlyRun(t: Traced, events: seq<Event>)
    requires ValidRun(t.sys, events)
    decreases |events|
  {
    events != [] ==> Orderly(t, events[0]) && OrderlyRun(After(t, events[0]), events[1..])
  }

  lemma {:induction false} RunKeepsTimedInv(t: Traced, events: seq<Event>, slot: nat, cap: Resources)
    requires TimedInv(t, slot, cap) && ValidRun(t.sys, events) && BlamelessRun(t, events, cap) && OrderlyRun(t, events)
    ensures TimedInv(TraceOf(t, events), slot, cap)
    decreases |events|
  {
    if events != [] {
      EventKeepsInv(t.sys, events[0]);
      EventKeepsTimedInv(t, events[0], slot, cap);
      RunKeepsTimedInv(After(t, events[0]), events[1..], slot, cap);
    }
  }

  /**
   * In every blameless and orderly interleaving of the workers: approved <= using <= permit; the decision procedure
   * never panics at a later moment; a downscale proposed during the cooldown exceeds the denied one; and the next
   * orderly event crashes the agent if and only if it is an upscale wish before the monitor is active.
   */
  lemma OrderlyRunsNeverPanic(vm: VmInfo, config: Config, goal: Goal, clock: int, events: seq<Event>, e: Event, now: int,
                              cap: Resources)
    requires P.ConfigOk(config.computeUnit, vm.slotSize, cap) && P.VmOk(vm, cap)
    requires var t := StartOf(vm, config, goal, clock);
      && Inv(t.sys) && ValidRun(t.sys, events) && BlamelessRun(t, events, cap) && OrderlyRun(t, events)
      && TraceOf(t, events).decidedAt <= now
    ensures var t := TraceOf(StartOf(vm, config, goal, clock), events);
      var core := t.sys.shared.core;
      && Sound(t.sys) && P.Safe(core) && NextActions(core, now).Ok?
      && (TimeUntilDeniedDownscaleExpired(core, now) > 0 && NextActions(core, now).value.monitorDownscale.Some? ==>
            core.monitor.deniedDownscale.value.requested
            .HasFieldLessThan(NextActions(core, now).value.monitorDownscale.value.target))
      && (Enabled(t.sys, e) && Orderly(t, e) ==>
            (Happens(t.sys, e).Crash? <==>
               e.External? && e.update.RequestUpscale? && core.monitor.approved.None?))
  {
    var t0 := StartOf(vm, config, goal, clock);
    StartKeepsTrace(vm, config, goal, clock, cap);
    RunKeepsTimedInv(t0, events, vm.slotSize, cap);
    var t := TraceOf(t0, events);
    AllIsWell(t, now, vm.slotSize, cap);
    if Enabled(t.sys, e) && Orderly(t, e) {
      OnlyEarlyWishesCrash(t, e, vm.slotSize, cap);
    }
  }

  lemma AllIsWell(t: Traced, now: int, slot: nat, cap: Resources)
    requires TimedInv(t, slot, cap) && t.decidedAt <= now
    ensures var core := t.sys.shared.core;
      && P.Safe(core) && NextActions(core, now).Ok?
      && (TimeUntilDeniedDownscaleExpired(core, now) > 0 && NextActions(core, now).value.monitorDownscale.Some? ==>
            core.monitor.deniedDownscale.value.requested
            .HasFieldLessThan(NextActions(core, now).value.monitorDownscale.value.target))
  {
    var core := t.sys.shared.core;
    P.NextActionsOutcome(core, now, cap);
    K.NeverTooSoon(core, t.decidedAt, now, cap);
    if TimeUntilDeniedDownscaleExpired(core, now) > 0 && NextActions(core, now).value.monitorDownscale.Some? {
      P.ProposalFacts(core, now, cap);
      K.DownscaleExceedsDenied(core, t.decidedAt, now, cap);
      P.DownscaleTargetClosedForm(core, DesiredResources(core, now).value.resources);
    }
  }

  // ---- a denial, counted from its own moment ----------------------------------------------------

  /** The monitor neither denies another downscale nor is disconnected. */
  predicate NoNewDenial(events: seq<Event>) {
    forall i :: 0 <= i < |events| ==>
      events[i] != Disconnect && !(events[i].Finish? && events[i].w == DownscaleWorker && events[i].outcome.Denied?)
  }

  lemma EventKeepsDenial(t: Traced, e: Event)
    requires Sound(t.sys) && Enabled(t.sys, e) && Happens(t.sys, e).Running?
    requires e != Disconnect && !(e.Finish? && e.w == DownscaleWorker && e.outcome.Denied?)
    ensures var core, core' := t.sys.shared.core, After(t, e).sys.shared.core;
      core'.monitor.deniedDownscale == core.monitor.deniedDownscale && core'.config == core.config
  {
  }

  lemma {:induction false} RunKeepsDenial(t: Traced, events: seq<Event>)
    requires ValidRun(t.sys, events) && NoNewDenial(events)
    ensures var core, core' := t.sys.shared.core, TraceOf(t, events).sys.shared.core;
      core'.monitor.deniedDownscale == core.monitor.deniedDownscale && core'.config == core.config
    decreases |events|
  {
    if events != [] {
      EventKeepsDenial(t, events[0]);
      RunKeepsDenial(After(t, events[0]), events[1..]);
    }
  }

  /** The denial of the current connection's downscale ends the request that its worker has in flight. */
  lemma DenialIsRecorded(t: Traced, at: int)
    requires Inv(t.sys) && Enabled(t.sys, Finish(DownscaleWorker, Denied(at))) && !Dropped(t.sys, DownscaleWorker)
    requires Happens(t.sys, Finish(DownscaleWorker, Denied(at))).Running?
    ensures var core' := After(t, Finish(DownscaleWorker, Denied(at))).sys.shared.core;
      && core'.monitor.deniedDownscale.Some? && core'.config == t.sys.shared.core.config
      && core'.monitor.deniedDownscale.value.at == at
      && core'.monitor.deniedDownscale.value.requested == t.sys.workers[DownscaleWorker].pc.target
  {
    ReplyIsStep(t.sys, DownscaleWorker, Denied(at));
  }

  /**
   * In every blameless and orderly interleaving: after the monitor denied at `at` the downscale that the worker had in
   * flight, and until the next denial or disconnection, every downscale proposed before the cooldown is over, counted
   * from `at`, asks for more than that worker did.
   */
  lemma OrderlyDenialIsRespected(t: Traced, at: int, events: seq<Event>, now: int, slot: nat, cap: Resources)
    requires TimedInv(t, slot, cap) && Enabled(t.sys, Finish(DownscaleWorker, Denied(at))) && !Dropped(t.sys, DownscaleWorker)
    requires var e := Finish(DownscaleWorker, Denied(at));
      && Happens(t.sys, e).Running? && Orderly(t, e) && Blameless(t, e) && Inv(After(t, e).sys)
      && var t1 := After(t, e);
         ValidRun(t1.sys, events) && BlamelessRun(t1, events, cap) && OrderlyRun(t1, events) && NoNewDenial(events)
    requires now < at + t.sys.shared.core.config.monitorDeniedDownscaleCooldown
    requires TraceOf(After(t, Finish(DownscaleWorker, Denied(at))), events).decidedAt <= now
    ensures var core := TraceOf(After(t, Finish(DownscaleWorker, Denied(at))), events).sys.shared.core;
      && core.config.computeUnit.NonZero() && NextActions(core, now).Ok?
      && (NextActions(core, now).value.monitorDownscale.Some? ==>
            t.sys.workers[DownscaleWorker].pc.target.HasFieldLessThan(NextActions(core, now).value.monitorDownscale.value.target))
  {
    var e := Finish(DownscaleWorker, Denied(at));
    var t1 := After(t, e);
    EventKeepsTimedInv(t, e, slot, cap);
    RunKeepsTimedInv(t1, events, slot, cap);
    DenialIsRecorded(t, at);
    RunKeepsDenial(t1, events);
    AllIsWell(TraceOf(t1, events), now, slot, cap);
  }
}
