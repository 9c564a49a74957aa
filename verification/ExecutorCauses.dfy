/**
 * What makes a stale action of the executor harmful: how its action set was calculated, and what has happened to
 * the connection and the permit since. The bounds of the scaling state machine hold over every run free of that.
 */
module ExecutorCauses {
  import opened Api
  import opened CoreState
  import opened ExecutorWorkers
  import opened ExecutorSafety

  /**
   * The executor, with what is remembered about the newest action set: the moment and the connection it was
   * calculated for, and whether its upscale and its NeonVM request would then have been no overlap.
   */
  datatype Traced = Traced(sys: System, decidedAt: int, generation: int, upscaleClear: bool, neonvmClear: bool)

  /** The event makes the executor calculate a new action set. */
  predicate Decides(sys: System, e: Event) {
    e.Fetch? && sys.shared.actions.None?
  }

  predicate NoOverlap(core: State, step: S.Step)
    requires core.config.computeUnit.NonZero() && core.vm.slotSize > 0
  {
    S.Enabled(core, step) ==> !C.Overlap(core, step)
  }

  function After(t: Traced, e: Event): (t': Traced)
    requires Sound(t.sys) && Enabled(t.sys, e) && Happens(t.sys, e).Running?
  {
    var sys' := Happens(t.sys, e).sys;
    if Decides(t.sys, e)
    then Traced(sys', e.now, t.sys.generation,
                NoOverlap(t.sys.shared.core, S.StartUpscale(e.now)), NoOverlap(t.sys.shared.core, S.StartNeonVM(e.now)))
    else t.(sys := sys')
  }

  // ---- what stays true of the newest action set -------------------------------------------------

  /** The worker can still begin its action of the newest set. */
  ghost predicate Live(sys: System, w: WorkerId)
    requires w in sys.workers
  {
    ActionFor(w, sys.lastSet).Some? && (sys.shared.actions.Some? || Wants(sys, w))
  }

  /** What the VM will use after a NeonVM request for `r`. */
  function Landed(core: State, r: Resources): (u: Resources)
    requires core.vm.slotSize > 0
  {
    core.vm.SetUsing(r).Using()
  }

  function TargetIn(a: ActionSet, w: WorkerId): (r: Resources)
    requires ActionFor(w, a).Some?
  {
    ActionFor(w, a).value
  }

  /** Both monitor requests of a set are covered by its NeonVM request. */
  ghost predicate Nested(core: State, a: ActionSet)
    requires core.vm.slotSize > 0
  {
    a.neonvmRequest.Some? ==>
      forall w :: TalksToMonitor(w) && ActionFor(w, a).Some? ==> TargetIn(a, w).Leq(Landed(core, TargetIn(a, NeonVMWorker)))
  }

  ghost predicate DownscaleOk(core: State, d: Resources)
    requires core.vm.slotSize > 0
  {
    C.Floor(core, d) && (core.monitor.approved.Some? ==> d.Leq(core.monitor.approved.value))
  }

  /** The monitor knows of nothing above where the NeonVM request will land. */
  ghost predicate MonitorBelow(core: State, landing: Resources) {
    && (core.monitor.approved.Some? ==> core.monitor.approved.value.Leq(landing))
    && OngoingBelow(core, landing)
  }

  ghost predicate OngoingBelow(core: State, landing: Resources) {
    core.monitor.ongoingRequest.Some? ==> core.monitor.ongoingRequest.value.requested.Leq(landing)
  }

  /** After a reconnect the monitor has approved the usage, or since then something below the landing. */
  ghost predicate MonitorReconnected(core: State, landing: Resources) {
    && OngoingBelow(core, landing)
    && (core.monitor.approved.Some? ==>
          core.monitor.approved.value == core.vm.Using() || core.monitor.approved.value.Leq(landing))
  }

  ghost predicate UpscaleInv(t: Traced)
    requires Sound(t.sys)
  {
    var core := t.sys.shared.core;
    Live(t.sys, UpscaleWorker) ==>
      var u := TargetIn(t.sys.lastSet, UpscaleWorker);
      && (t.upscaleClear ==> C.Floor(core, u))
      && (core.neonvm.ongoingRequested.Some? || Live(t.sys, NeonVMWorker) ==> u.Leq(core.vm.Using()))
  }

  ghost predicate NeonVMInv(t: Traced)
    requires Sound(t.sys)
  {
    var core := t.sys.shared.core;
    Live(t.sys, NeonVMWorker) ==>
      var landing := Landed(core, TargetIn(t.sys.lastSet, NeonVMWorker));
      && core.neonvm.ongoingRequested.None?
      && (core.plugin.permit.None? ==> landing.Leq(core.vm.Using()))
      && (t.generation == t.sys.generation && t.neonvmClear ==> MonitorBelow(core, landing))
      && (t.generation != t.sys.generation ==> MonitorReconnected(core, landing))
  }

  ghost predicate TraceInv(t: Traced, slot: nat, cap: Resources) {
    && BoundsInv(t.sys, slot, cap) && t.generation <= t.sys.generation
    && (t.sys.shared.actions.Some? ==> t.generation == t.sys.generation)
    && Nested(t.sys.shared.core, t.sys.lastSet)
    && (Live(t.sys, DownscaleWorker) ==> DownscaleOk(t.sys.shared.core, TargetIn(t.sys.lastSet, DownscaleWorker)))
    && UpscaleInv(t) && NeonVMInv(t)
  }

  // ---- a new set --------------------------------------------------------------------------------

  lemma SetIsNested(core: State, now: int, cap: Resources)
    requires P.WellSized(core, cap) && NextActions(core, now).Ok?
    ensures Nested(core, NextActions(core, now).value)
  {
    P.ProposalFacts(core, now, cap);
    var a := NextActions(core, now).value;
    if a.neonvmRequest.Some? {
      ProposalsAreNested(core, a, DesiredResources(core, now).value.resources, cap);
    }
  }

  lemma ProposalsAreNested(core: State, a: ActionSet, desired: Resources, cap: Resources)
    requires P.WellSized(core, cap) && P.Safe(core) && P.ProposalsWithinBounds(core, a, desired, cap)
    requires a.neonvmRequest.Some? && a.neonvmRequest.value.target
      == desired.Min(PluginApprovedUpperBound(core)).Max(MonitorApprovedLowerBound(core))
    ensures Nested(core, a)
  {
    Api.SetUsingLands(core.vm, a.neonvmRequest.value.target);
  }

  lemma NewDownscale(core: State, now: int, cap: Resources)
    requires C.Inv(core, cap) && NextActions(core, now).Ok? && NextActions(core, now).value.monitorDownscale.Some?
    ensures DownscaleOk(core, NextActions(core, now).value.monitorDownscale.value.target)
  {
    P.ProposalFacts(core, now, cap);
    var d := NextActions(core, now).value.monitorDownscale.value.target;
    assert d.Leq(core.monitor.approved.value);
  }

  lemma NewUpscale(core: State, now: int, cap: Resources)
    requires C.Inv(core, cap) && NextActions(core, now).Ok? && NextActions(core, now).value.monitorUpscale.Some?
    ensures var u := NextActions(core, now).value.monitorUpscale.value.target;
      && u.Leq(core.vm.Using())
      && (NoOverlap(core, S.StartUpscale(now)) ==> C.Floor(core, u))
  {
    P.ProposalFacts(core, now, cap);
    var u := NextActions(core, now).value.monitorUpscale.value.target;
    assert u.Leq(core.vm.Using());
    assert S.Enabled(core, S.StartUpscale(now)) && S.Proposed(core, now).monitorUpscale.value.target == u;
  }

  lemma NewLanding(core: State, now: int, cap: Resources)
    requires C.Inv(core, cap) && NextActions(core, now).Ok? && NextActions(core, now).value.neonvmRequest.Some?
    ensures var landing := Landed(core, NextActions(core, now).value.neonvmRequest.value.target);
      && core.neonvm.ongoingRequested.None?
      && landing.Leq(PluginApprovedUpperBound(core))
      && (core.monitor.approved.Some? ==> core.monitor.approved.value.Leq(landing))
      && (NoOverlap(core, S.StartNeonVM(now)) ==> OngoingBelow(core, landing))
  {
    P.ProposalFacts(core, now, cap);
    Api.SetUsingLands(core.vm, NextActions(core, now).value.neonvmRequest.value.target);
  }

  lemma DecisionEffect(sys: System, e: Event)
    requires Sound(sys) && Enabled(sys, e) && Happens(sys, e).Running? && Decides(sys, e)
    ensures var sys' := Happens(sys, e).sys;
      && sys'.shared.core == sys.shared.core && sys'.generation == sys.generation && Total(sys')
      && NextActions(sys.shared.core, e.now) == Ok(sys'.lastSet) && sys'.shared.actions.Some?
  {
  }

  lemma DecisionKeepsTrace(t: Traced, e: Event, slot: nat, cap: Resources)
    requires TraceInv(t, slot, cap) && Enabled(t.sys, e) && Happens(t.sys, e).Running? && Decides(t.sys, e)
    requires BoundsInv(After(t, e).sys, slot, cap)
    ensures TraceInv(After(t, e), slot, cap)
  {
    DecisionEffect(t.sys, e);
    NewSetKeepsTrace(After(t, e), e.now, slot, cap);
  }

  lemma NewSetKeepsTrace(t: Traced, now: int, slot: nat, cap: Resources)
    requires BoundsInv(t.sys, slot, cap) && t.generation == t.sys.generation
    requires NextActions(t.sys.shared.core, now) == Ok(t.sys.lastSet)
    requires t.upscaleClear == NoOverlap(t.sys.shared.core, S.StartUpscale(now))
    requires t.neonvmClear == NoOverlap(t.sys.shared.core, S.StartNeonVM(now))
    ensures TraceInv(t, slot, cap)
  {
    var core, a := t.sys.shared.core, t.sys.lastSet;
    SetIsNested(core, now, cap);
    if a.monitorDownscale.Some? {
      NewDownscale(core, now, cap);
    }
    if a.monitorUpscale.Some? {
      NewUpscale(core, now, cap);
    }
    if a.neonvmRequest.Some? {
      NewLanding(core, now, cap);
    }
  }

  // ---- the other events -------------------------------------------------------------------------

  function TargetOf(sys: System, e: Event): (target: Resources)
    requires Sound(sys) && Enabled(sys, e) && e.Begin?
  {
    ActionFor(e.w, sys.workers[e.w].pc.last.actions).value
  }

  lemma BegunIsLive(t: Traced, w: WorkerId, now: int)
    requires Inv(t.sys) && Enabled(t.sys, Begin(w, now)) && Begins(t.sys, Begin(w, now))
    ensures Live(t.sys, w) && TargetIn(t.sys.lastSet, w) == TargetOf(t.sys, Begin(w, now))
  {
    assert Wants(t.sys, w);
  }

  lemma WantsShrinks(sys: System, e: Event)
    requires Inv(sys) && Enabled(sys, e) && Happens(sys, e).Running? && !Decides(sys, e)
    ensures var sys' := Happens(sys, e).sys;
      && Total(sys') && sys'.lastSet == sys.lastSet && (sys'.shared.actions.Some? ==> sys.shared.actions.Some?)
      && (forall w :: Wants(sys', w) && !(e.Fetch? && e.w == w) ==> Wants(sys, w))
      && (e.Finish? || Begins(sys, e) ==> sys'.shared.actions.None? && !Wants(sys', e.w))
      && (e.Fetch? ==> sys'.shared.actions == sys.shared.actions)
  {
  }

  lemma LiveShrinks(t: Traced, e: Event)
    requires Inv(t.sys) && Enabled(t.sys, e) && Happens(t.sys, e).Running? && !Decides(t.sys, e)
    ensures var sys' := Happens(t.sys, e).sys;
      && Total(sys') && sys'.lastSet == t.sys.lastSet
      && (forall w :: Live(sys', w) ==> Live(t.sys, w))
      && (e.Finish? || Begins(t.sys, e) ==> !Live(sys', e.w))
  {
    var sys' := Happens(t.sys, e).sys;
    WantsShrinks(t.sys, e);
    forall w | Live(sys', w) ensures Live(t.sys, w) {
      if sys'.shared.actions.None? {
        assert Wants(t.sys, w);
      }
    }
  }

  /** Nothing that matters here changes. */
  ghost predicate SameFooting(core: State, core': State)
    requires core.vm.slotSize > 0 && core'.vm.slotSize > 0
  {
    && core'.vm.slotSize == core.vm.slotSize && core'.vm.Using() == core.vm.Using()
    && core'.neonvm.ongoingRequested == core.neonvm.ongoingRequested
    && core'.monitor.approved == core.monitor.approved && core'.monitor.ongoingRequest == core.monitor.ongoingRequest
    && (core'.plugin.permit.None? ==> core.plugin.permit.None?)
  }

  lemma SameFootingKeepsTrace(t: Traced, e: Event, slot: nat, cap: Resources)
    requires TraceInv(t, slot, cap) && Enabled(t.sys, e) && Happens(t.sys, e).Running? && !Decides(t.sys, e)
    requires BoundsInv(After(t, e).sys, slot, cap)
    requires SameFooting(t.sys.shared.core, After(t, e).sys.shared.core) && After(t, e).sys.generation == t.sys.generation
    ensures TraceInv(After(t, e), slot, cap)
  {
    LiveShrinks(t, e);
    SameLanding(t.sys.shared.core, After(t, e).sys.shared.core);
  }

  lemma SameLanding(core: State, core': State)
    requires core.vm.slotSize == core'.vm.slotSize > 0
    ensures forall r :: Landed(core', r) == Landed(core, r)
  {
  }

  lemma ConnectionKeepsTrace(t: Traced, e: Event, slot: nat, cap: Resources)
    requires TraceInv(t, slot, cap) && Enabled(t.sys, e) && (e == Connect || e == Disconnect)
    requires BoundsInv(After(t, e).sys, slot, cap)
    ensures TraceInv(After(t, e), slot, cap)
  {
    LiveShrinks(t, e);
    SameLanding(t.sys.shared.core, After(t, e).sys.shared.core);
  }

  lemma NeonVMReplyKeepsTrace(t: Traced, outcome: Outcome, slot: nat, cap: Resources)
    requires TraceInv(t, slot, cap) && Enabled(t.sys, Finish(NeonVMWorker, outcome))
    requires Happens(t.sys, Finish(NeonVMWorker, outcome)).Running?
    requires BoundsInv(After(t, Finish(NeonVMWorker, outcome)).sys, slot, cap)
    ensures TraceInv(After(t, Finish(NeonVMWorker, outcome)), slot, cap)
  {
    var e := Finish(NeonVMWorker, outcome);
    LiveShrinks(t, e);
    OutsideIsStep(t.sys, e);
    SameLanding(t.sys.shared.core, After(t, e).sys.shared.core);
  }

  lemma MonitorReplyKeepsTrace(t: Traced, w: WorkerId, outcome: Outcome, slot: nat, cap: Resources)
    requires TraceInv(t, slot, cap) && TalksToMonitor(w) && Enabled(t.sys, Finish(w, outcome))
    requires Happens(t.sys, Finish(w, outcome)).Running? && BoundsInv(After(t, Finish(w, outcome)).sys, slot, cap)
    ensures TraceInv(After(t, Finish(w, outcome)), slot, cap)
  {
    var e := Finish(w, outcome);
    LiveShrinks(t, e);
    if Dropped(t.sys, w) {
      SameFootingKeepsTrace(t, e, slot, cap);
    } else {
      AnswerEffect(t.sys, w, outcome);
      AnswerKeepsTrace(t, After(t, e), slot, cap);
    }
  }

  predicate Answered(core: State, core': State) {
    && core'.vm == core.vm && core'.neonvm == core.neonvm && core'.plugin == core.plugin
    && core.monitor.ongoingRequest.Some? && core'.monitor.ongoingRequest.None?
    && (core'.monitor.approved == core.monitor.approved
        || core'.monitor.approved == Some(core.monitor.ongoingRequest.value.requested))
  }

  lemma AnswerEffect(sys: System, w: WorkerId, outcome: Outcome)
    requires Inv(sys) && TalksToMonitor(w) && Enabled(sys, Finish(w, outcome)) && !Dropped(sys, w)
    requires AfterFinish(sys, w, outcome).Running?
    ensures var sys' := AfterFinish(sys, w, outcome).sys;
      && Answered(sys.shared.core, sys'.shared.core)
      && sys'.shared.actions.None? && sys'.generation == sys.generation && sys'.lastSet == sys.lastSet
  {
    ReplyFindsItsRequest(sys, w, outcome);
    ReplyIsStep(sys, w, outcome);
  }

  /** The monitor's request ends, and what it approves is what it approved before or what was requested. */
  lemma AnswerKeepsTrace(t: Traced, t': Traced, slot: nat, cap: Resources)
    requires TraceInv(t, slot, cap) && BoundsInv(t'.sys, slot, cap)
    requires t' == t.(sys := t'.sys) && t'.sys.shared.actions.None? && t'.sys.generation == t.sys.generation && t'.sys.lastSet == t.sys.lastSet
    requires forall w :: Live(t'.sys, w) ==> Live(t.sys, w)
    requires Answered(t.sys.shared.core, t'.sys.shared.core)
    ensures TraceInv(t', slot, cap)
  {
    assert !Live(t.sys, UpscaleWorker) && !Live(t.sys, DownscaleWorker);
  }

  lemma BeginKeepsTrace(t: Traced, w: WorkerId, now: int, slot: nat, cap: Resources)
    requires TraceInv(t, slot, cap) && Enabled(t.sys, Begin(w, now)) && Happens(t.sys, Begin(w, now)).Running?
    requires Begins(t.sys, Begin(w, now)) && BoundsInv(After(t, Begin(w, now)).sys, slot, cap)
    ensures TraceInv(After(t, Begin(w, now)), slot, cap)
  {
    var e := Begin(w, now);
    LiveShrinks(t, e);
    BegunIsLive(t, w, now);
    BeginEffect(t.sys, w, now);
    StartKeepsParts(t, After(t, e), w, now, slot, cap);
  }

  lemma BeginEffect(sys: System, w: WorkerId, now: int)
    requires Inv(sys) && Enabled(sys, Begin(w, now)) && Happens(sys, Begin(w, now)).Running? && Begins(sys, Begin(w, now))
    ensures var sys' := Happens(sys, Begin(w, now)).sys;
      && sys'.shared.core == Started(sys.shared.core, w, now, TargetOf(sys, Begin(w, now)))
      && sys'.shared.actions.None? && sys'.generation == sys.generation && sys'.lastSet == sys.lastSet
  {
  }

  lemma StartKeepsParts(t: Traced, t': Traced, w: WorkerId, now: int, slot: nat, cap: Resources)
    requires TraceInv(t, slot, cap) && BoundsInv(t'.sys, slot, cap) && Live(t.sys, w)
    requires t' == t.(sys := t'.sys) && t'.sys.shared.actions.None?
    requires t'.sys.generation == t.sys.generation && t'.sys.lastSet == t.sys.lastSet
    requires !Live(t'.sys, w) && forall v :: Live(t'.sys, v) ==> Live(t.sys, v)
    requires t'.sys.shared.core == Started(t.sys.shared.core, w, now, TargetIn(t.sys.lastSet, w))
    ensures TraceInv(t', slot, cap)
  {
    SameLanding(t.sys.shared.core, t'.sys.shared.core);
  }

  lemma EventKeepsTrace(t: Traced, e: Event, slot: nat, cap: Resources)
    requires TraceInv(t, slot, cap) && Enabled(t.sys, e) && Happens(t.sys, e).Running? && UpdateOk(t.sys, e, cap)
    requires BoundsInv(After(t, e).sys, slot, cap)
    ensures TraceInv(After(t, e), slot, cap)
  {
    if Decides(t.sys, e) {
      DecisionKeepsTrace(t, e, slot, cap);
    } else if Begins(t.sys, e) {
      BeginKeepsTrace(t, e.w, e.now, slot, cap);
    } else if e == Connect || e == Disconnect {
      ConnectionKeepsTrace(t, e, slot, cap);
    } else if e.Finish? && e.w == NeonVMWorker {
      NeonVMReplyKeepsTrace(t, e.outcome, slot, cap);
    } else if e.Finish? && TalksToMonitor(e.w) {
      MonitorReplyKeepsTrace(t, e.w, e.outcome, slot, cap);
    } else {
      RestHasSameFooting(t.sys, e, cap);
      SameFootingKeepsTrace(t, e, slot, cap);
    }
  }

  lemma RestHasSameFooting(sys: System, e: Event, cap: Resources)
    requires Inv(sys) && P.WellSized(sys.shared.core, cap) && Enabled(sys, e) && Happens(sys, e).Running?
    requires UpdateOk(sys, e, cap) && !Begins(sys, e) && e != Connect && e != Disconnect
    requires e.Finish? ==> e.w == PluginWorker
    ensures Happens(sys, e).sys.shared.core.vm.slotSize > 0 && Happens(sys, e).sys.generation == sys.generation
    ensures SameFooting(sys.shared.core, Happens(sys, e).sys.shared.core)
  {
    OutsideIsStep(sys, e);
    if e.External? && e.update.VMUpdate? {
      C.VMUpdateKeepsUsing(sys.shared.core, e.update.vm, cap);
    }
  }

  // ---- which actions land -----------------------------------------------------------------------

  /** The monitor has been connected anew since the set was calculated. */
  predicate Reconnected(t: Traced) {
    t.generation != t.sys.generation && t.sys.connection.Some?
  }

  /** A downscale that the lock lets begin always lands within the bounds, however stale it is. */
  lemma DownscaleAlwaysLands(t: Traced, now: int, slot: nat, cap: Resources)
    requires TraceInv(t, slot, cap) && Enabled(t.sys, Begin(DownscaleWorker, now)) && Begins(t.sys, Begin(DownscaleWorker, now))
    ensures Lands(t.sys.shared.core, DownscaleWorker, TargetOf(t.sys, Begin(DownscaleWorker, now)))
  {
    BegunIsLive(t, DownscaleWorker, now);
  }

  /**
   * An upscale lands if it was no overlap when it was calculated; and it does not land exactly if a NeonVM request
   * in flight, or one that succeeded since, leaves the VM below it.
   */
  lemma UpscaleLandsIff(t: Traced, now: int, slot: nat, cap: Resources)
    requires TraceInv(t, slot, cap) && Enabled(t.sys, Begin(UpscaleWorker, now)) && Begins(t.sys, Begin(UpscaleWorker, now))
    ensures var u := TargetOf(t.sys, Begin(UpscaleWorker, now));
      && (t.upscaleClear ==> Lands(t.sys.shared.core, UpscaleWorker, u))
      && (Lands(t.sys.shared.core, UpscaleWorker, u) <==> !C.Landing(t.sys.shared.core).HasFieldLessThan(u))
  {
    BegunIsLive(t, UpscaleWorker, now);
  }

  /** A new connection that has approved nothing but the usage since. */
  predicate FreshlyReconnected(t: Traced)
    requires t.sys.shared.core.vm.slotSize > 0
  {
    Reconnected(t) && t.sys.shared.core.monitor.approved == Some(t.sys.shared.core.vm.Using())
  }

  /** The NeonVM request was no overlap when it was calculated, or the connection of that time is gone. */
  predicate OverlapIsPast(t: Traced) {
    t.neonvmClear || t.generation != t.sys.generation || t.sys.connection.None?
  }

  /** The plugin does not permit less than the VM will use. */
  predicate WithinPermit(core: State, landing: Resources) {
    core.plugin.permit.Some? ==> landing.Leq(core.plugin.permit.value)
  }

  /**
   * A NeonVM request that was no overlap when it was calculated, or whose connection is gone, lands if and only if the
   * permit still covers it and it is no decrease under a new connection that has approved nothing but the usage.
   */
  lemma NeonVMLandsIff(t: Traced, now: int, slot: nat, cap: Resources)
    requires TraceInv(t, slot, cap) && Enabled(t.sys, Begin(NeonVMWorker, now)) && Begins(t.sys, Begin(NeonVMWorker, now))
    requires OverlapIsPast(t)
    ensures var core, target := t.sys.shared.core, TargetOf(t.sys, Begin(NeonVMWorker, now));
      var landing := Landed(core, target);
      Lands(core, NeonVMWorker, target) <==>
        && WithinPermit(core, landing)
        && !(FreshlyReconnected(t) && landing.HasFieldLessThan(core.vm.Using()))
  {
    BegunIsLive(t, NeonVMWorker, now);
  }

  /** An increase, clear or not, lands if and only if the permit still covers it. */
  lemma IncreaseLandsIff(t: Traced, now: int, slot: nat, cap: Resources)
    requires TraceInv(t, slot, cap) && Enabled(t.sys, Begin(NeonVMWorker, now)) && Begins(t.sys, Begin(NeonVMWorker, now))
    requires t.sys.shared.core.vm.Using().Leq(Landed(t.sys.shared.core, TargetOf(t.sys, Begin(NeonVMWorker, now))))
    ensures var core, target := t.sys.shared.core, TargetOf(t.sys, Begin(NeonVMWorker, now));
      Lands(core, NeonVMWorker, target) <==> WithinPermit(core, Landed(core, target))
  {
    BegunIsLive(t, NeonVMWorker, now);
  }

  // ---- runs without such causes -----------------------------------------------------------------

  /**
   * No overlap outside; an upscale that was no overlap when calculated; and a NeonVM request that the permit still
   * covers and that is an increase, or that was no overlap when calculated with no fresh reconnect since.
   */
  ghost predicate Blameless(t: Traced, e: Event)
    requires Inv(t.sys) && Enabled(t.sys, e) && Happens(t.sys, e).Running?
  {
    if Begins(t.sys, e) then
      match e.w
      case PluginWorker => true
      case DownscaleWorker => true
      case UpscaleWorker => t.upscaleClear
      case NeonVMWorker =>
        var core, landing := t.sys.shared.core, Landed(t.sys.shared.core, TargetOf(t.sys, e));
        && WithinPermit(core, landing)
        && (core.vm.Using().Leq(landing) || (OverlapIsPast(t) && !FreshlyReconnected(t)))
    else
      OutsideIsStep(t.sys, e);
      OutsideStep(t.sys, e).Some? ==> !C.Overlap(t.sys.shared.core, OutsideStep(t.sys, e).value)
  }

  lemma BlamelessIsHarmless(t: Traced, e: Event, slot: nat, cap: Resources)
    requires TraceInv(t, slot, cap) && Enabled(t.sys, e) && Happens(t.sys, e).Running? && Blameless(t, e)
    ensures Harmless(t.sys, e)
  {
    if Begins(t.sys, e) {
      match e.w
      case PluginWorker =>
      case DownscaleWorker => DownscaleAlwaysLands(t, e.now, slot, cap);
      case UpscaleWorker => UpscaleLandsIff(t, e.now, slot, cap);
      case NeonVMWorker =>
        if OverlapIsPast(t) && !FreshlyReconnected(t) {
          NeonVMLandsIff(t, e.now, slot, cap);
        } else {
          IncreaseLandsIff(t, e.now, slot, cap);
        }
    }
  }

  lemma BlamelessKeepsTrace(t: Traced, e: Event, slot: nat, cap: Resources)
    requires TraceInv(t, slot, cap) && Enabled(t.sys, e) && Happens(t.sys, e).Running?
    requires UpdateOk(t.sys, e, cap) && Blameless(t, e)
    ensures TraceInv(After(t, e), slot, cap)
  {
    BlamelessIsHarmless(t, e, slot, cap);
    EventKeepsBoundsIff(t.sys, e, slot, cap);
    EventKeepsTrace(t, e, slot, cap);
  }

  ghost predicate BlamelessRun(t: Traced, events: seq<Event>, cap: Resources)
    requires Inv(t.sys) && ValidRun(t.sys, events)
    decreases |events|
  {
    events != [] ==>
      && UpdateOk(t.sys, events[0], cap) && Blameless(t, events[0])
      && (EventKeepsInv(t.sys, events[0]); BlamelessRun(After(t, events[0]), events[1..], cap))
  }

  function TraceOf(t: Traced, events: seq<Event>): (t': Traced)
    requires ValidRun(t.sys, events)
    ensures t'.sys == Exec(t.sys, events)
    decreases |events|
  {
    if events == [] then t else TraceOf(After(t, events[0]), events[1..])
  }

  lemma {:induction false} RunKeepsTrace(t: Traced, events: seq<Event>, slot: nat, cap: Resources)
    requires TraceInv(t, slot, cap) && ValidRun(t.sys, events) && BlamelessRun(t, events, cap)
    ensures TraceInv(TraceOf(t, events), slot, cap)
    decreases |events|
  {
    if events != [] {
      EventKeepsInv(t.sys, events[0]);
      BlamelessKeepsTrace(t, events[0], slot, cap);
      RunKeepsTrace(After(t, events[0]), events[1..], slot, cap);
    }
  }

  /** Before the first action set. */
  function StartOf(vm: VmInfo, config: Config, goal: Goal, clock: int): (t: Traced) {
    Traced(Initial(NewState(vm, config, goal)), clock, 0, true, true)
  }

  lemma StartKeepsTrace(vm: VmInfo, config: Config, goal: Goal, clock: int, cap: Resources)
    requires P.ConfigOk(config.computeUnit, vm.slotSize, cap) && P.VmOk(vm, cap)
    ensures TraceInv(StartOf(vm, config, goal, clock), vm.slotSize, cap)
  {
    StartIsBounded(vm, config, goal, cap);
  }

  /**
   * In every interleaving of the workers free of these causes, stale actions included: approved <= using <= permit,
   * no clamp guard fires when a worker asks for the next actions, and what is proposed is within the bounds.
   */
  lemma ExecutorRunsAreSafe(vm: VmInfo, config: Config, goal: Goal, clock: int, events: seq<Event>, now: int, cap: Resources)
    requires P.ConfigOk(config.computeUnit, vm.slotSize, cap) && P.VmOk(vm, cap)
    requires var t := StartOf(vm, config, goal, clock);
      Inv(t.sys) && ValidRun(t.sys, events) && BlamelessRun(t, events, cap)
    ensures var core := Exec(Initial(NewState(vm, config, goal)), events).shared.core;
      && P.Safe(core) && P.WellSized(core, cap)
      && (NextActions(core, now).Ok? || NextActions(core, now) == Panic(DeniedDownscaleTooSoon))
      && (NextActions(core, now).Ok? ==>
            && DesiredResources(core, now).Ok?
            && P.ProposalsWithinBounds(core, NextActions(core, now).value, DesiredResources(core, now).value.resources, cap))
  {
    var t := StartOf(vm, config, goal, clock);
    StartKeepsTrace(vm, config, goal, clock, cap);
    RunKeepsTrace(t, events, vm.slotSize, cap);
    var core := TraceOf(t, events).sys.shared.core;
    P.NextActionsOutcome(core, now, cap);
    if NextActions(core, now).Ok? {
      P.ProposalFacts(core, now, cap);
    }
  }
}
