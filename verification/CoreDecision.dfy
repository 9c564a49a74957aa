/** What a decision asks for, in closed form: every request exactly, whatever is in flight or backing off. */
module CoreDecision {
  import opened Api
  import opened CoreState
  import opened CoreProposals
  import opened CoreProgress

  // ---- the plugin -------------------------------------------------------------------------------

  /** The plugin has answered before, permits something else than is wanted, and has not lately denied it. */
  predicate AsksForNew(s: State, now: int, desired: Resources) {
    && s.plugin.lastRequest.Some? && s.plugin.permit.Some?
    && s.plugin.permit.value != desired.Max(s.vm.Using())
    && !PluginDeniedLately(s, now)
  }

  /** What the VM uses already or is about to: in each field the larger of the usage and the NeonVM request in flight. */
  function InUse(s: State): (r: Resources) {
    if s.neonvm.ongoingRequested.Some? then s.vm.Using().Max(s.neonvm.ongoingRequested.value) else s.vm.Using()
  }

  /** New wishes first; otherwise a report of what is in use, as often as the tick demands. */
  function PluginDecision(s: State, now: int, desired: Resources): (a: Option<Resources>) {
    if PluginHeldBack(s, now) then None
    else if AsksForNew(s, now, desired) then Some(desired.Max(s.vm.Using()))
    else if Reported(s, now) then None
    else Some(InUse(s))
  }

  lemma PluginDecides(s: State, now: int, desired: Resources)
    requires s.plugin.ongoingRequest ==> s.plugin.lastRequest.Some?
    ensures var r := CalculatePluginAction(s, now, desired); r.Ok? && r.value.action == PluginDecision(s, now, desired)
  {
  }

  // ---- NeonVM -----------------------------------------------------------------------------------

  function NeonVMDecision(s: State, now: int, desired: Resources, pluginRequested: Option<Resources>)
    : (a: Option<ChangeAction>)
  {
    if NeonVMContent(s, now, desired, pluginRequested) then None
    else Some(ChangeAction(s.vm.Using(), NeonVMTarget(s, desired)))
  }

  lemma NeonVMDecides(s: State, now: int, desired: Resources, pluginRequested: Option<Resources>)
    requires Safe(s)
    ensures var r := CalculateNeonVMAction(s, now, desired, pluginRequested);
      r.Ok? && r.value.action == NeonVMDecision(s, now, desired, pluginRequested)
  {
    ClampBetween(s.vm.Using(), desired, MonitorApprovedLowerBound(s), PluginApprovedUpperBound(s));
  }

  // ---- the monitor ------------------------------------------------------------------------------

  /** The monitor need not hear of more: it knows of all that is used and desired. */
  predicate KnowsEnough(s: State, desired: Resources) {
    s.monitor.approved.Some? ==> s.vm.Using().Min(desired).Leq(s.monitor.approved.value)
  }

  /** The monitor need not give up anything: no more is approved than is desired. */
  predicate HoldsNoSurplus(s: State, desired: Resources) {
    s.monitor.approved.Some? ==> s.monitor.approved.value.Leq(desired)
  }

  predicate MonitorFree(s: State, failedAt: Option<int>, now: int) {
    s.monitor.ongoingRequest.None? && Over(failedAt, s.config.monitorRetryWait, now)
  }

  function UpscaleDecision(s: State, now: int, desired: Resources): (a: Option<ChangeAction>) {
    if KnowsEnough(s, desired) || !MonitorFree(s, s.monitor.upscaleFailureAt, now) then None
    else
      var approved := s.monitor.approved.value;
      Some(ChangeAction(approved, approved.Max(s.vm.Using().Min(desired))))
  }

  lemma UpscaleDecides(s: State, now: int, desired: Resources, cap: Resources)
    requires WellSized(s, cap)
    ensures var r := CalculateMonitorUpscaleAction(s, now, desired);
      r.Ok? && r.value.action == UpscaleDecision(s, now, desired)
  {
    if s.monitor.approved.Some? {
      UpscaleTargetClosedForm(s, desired, cap);
    }
  }

  function DownscaleDecision(s: State, now: int, desired: Resources, plannedUpscale: bool): (a: Option<ChangeAction>) {
    if HoldsNoSurplus(s, desired) || plannedUpscale || !MonitorFree(s, s.monitor.downscaleFailureAt, now) then None
    else
      var approved := s.monitor.approved.value;
      Some(ChangeAction(approved, approved.Min(desired.Max(approved.SaturatingSub(s.config.computeUnit)))))
  }

  lemma DownscaleDecides(s: State, now: int, desired: Resources, plannedUpscale: bool)
    requires s.config.computeUnit.NonZero()
    ensures var r := CalculateMonitorDownscaleAction(s, now, desired, plannedUpscale);
      r.Ok? ==> r.value.action == DownscaleDecision(s, now, desired, plannedUpscale)
  {
    if s.monitor.approved.Some? {
      DownscaleTargetClosedForm(s, desired);
    }
  }

  lemma DownscaleRefusesExactly(s: State, now: int, desired: Resources, plannedUpscale: bool)
    requires s.config.computeUnit.NonZero()
    ensures var down := DownscaleDecision(s, now, desired, plannedUpscale);
      CalculateMonitorDownscaleAction(s, now, desired, plannedUpscale) == Panic(DeniedDownscaleTooSoon) <==>
        && down.Some? && s.monitor.deniedDownscale.Some?
        && now < s.monitor.deniedDownscale.value.at + s.config.monitorDeniedDownscaleCooldown
        && down.value.target.Leq(s.monitor.deniedDownscale.value.requested)
  {
    if s.monitor.approved.Some? {
      DownscaleTargetClosedForm(s, desired);
    }
  }

  // ---- all of them together ---------------------------------------------------------------------

  /**
   * Every decision, in closed form. The plugin is asked for exactly the larger of desired and used whenever that
   * is not what it permits and was not lately denied, and is otherwise told, at the tick, exactly what is in use. The
   * NeonVM API is asked for the desired amount within approval and permit, unless a plugin request in
   * flight or planned asks for less. The monitor hears of more before it is asked to give anything up.
   */
  lemma DecisionsAre(s: State, now: int, cap: Resources)
    requires WellSized(s, cap) && NextActions(s, now).Ok?
    ensures DesiredResources(s, now).Ok?
    ensures var a, d := NextActions(s, now).value, DesiredResources(s, now).value.resources;
      && a.pluginRequest == PluginDecision(s, now, d)
      && a.neonvmRequest == NeonVMDecision(s, now, d,
           if s.plugin.ongoingRequest then Some(s.plugin.lastRequest.value.resources) else a.pluginRequest)
      && a.monitorUpscale == UpscaleDecision(s, now, d)
      && a.monitorDownscale == DownscaleDecision(s, now, d, a.monitorUpscale.Some?)
  {
    NextActionsOutcome(s, now, cap);
    DesiredSucceeds(s, now, cap);
    var d := DesiredResources(s, now).value.resources;
    PluginDecides(s, now, d);
    NeonVMDecides(s, now, d,
      if s.plugin.ongoingRequest then Some(s.plugin.lastRequest.value.resources) else PluginDecision(s, now, d));
    UpscaleDecides(s, now, d, cap);
    DownscaleDecides(s, now, d, UpscaleDecision(s, now, d).Some?);
  }

  /** The downscale due now was denied before, in every field, and the cooldown of that denial is not over. */
  predicate RepeatsDenied(s: State, now: int, desired: Resources) {
    var down := DownscaleDecision(s, now, desired, UpscaleDecision(s, now, desired).Some?);
    && down.Some? && s.monitor.deniedDownscale.Some?
    && now < s.monitor.deniedDownscale.value.at + s.config.monitorDeniedDownscaleCooldown
    && down.value.target.Leq(s.monitor.deniedDownscale.value.requested)
  }

  /** A decision panics exactly if approved <= using <= permit is broken, or it would repeat a denied downscale. */
  lemma PanicsExactly(s: State, now: int, cap: Resources)
    requires WellSized(s, cap)
    ensures DesiredResources(s, now).Ok?
    ensures NextActions(s, now) == Panic(InvalidClampArguments) <==> !Safe(s)
    ensures NextActions(s, now) == Panic(DeniedDownscaleTooSoon) <==>
      Safe(s) && RepeatsDenied(s, now, DesiredResources(s, now).value.resources)
    ensures NextActions(s, now).Panic? ==> NextActions(s, now).kind in {InvalidClampArguments, DeniedDownscaleTooSoon}
  {
    NextActionsOutcome(s, now, cap);
    DesiredSucceeds(s, now, cap);
    if Safe(s) {
      var d := DesiredResources(s, now).value.resources;
      PluginDecides(s, now, d);
      NeonVMDecides(s, now, d, PluginRequestInView(s, PluginDecision(s, now, d)));
      UpscaleDecides(s, now, d, cap);
      DownscaleRefusesExactly(s, now, d, UpscaleDecision(s, now, d).Some?);
    }
  }
}
