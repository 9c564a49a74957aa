/** When the agent rests: with nothing in flight and nothing backing off, exactly when there is nothing left to do. */
module CoreProgress {
  import opened Api
  import opened CoreState
  import opened CoreProposals

  predicate Over(since: Option<int>, wait: int, now: int) {
    since.Some? ==> since.value + wait <= now
  }

  /** The last request to the plugin was not granted in full. */
  predicate PluginDenied(s: State) {
    && s.plugin.lastRequest.Some? && s.plugin.permit.Some?
    && s.plugin.lastRequest.value.resources.HasFieldGreaterThan(s.plugin.permit.value)
  }

  /** No request to plugin or NeonVM is in flight, and no wait after a failure or a denial holds one back. */
  predicate FreeOutside(s: State, now: int) {
    && !s.plugin.ongoingRequest && s.neonvm.ongoingRequested.None?
    && Over(s.plugin.lastFailureAt, s.config.pluginRetryWait, now)
    && (PluginDenied(s) ==> s.plugin.lastRequest.value.at + s.config.pluginDeniedRetryWait <= now)
    && Over(s.neonvm.requestFailedAt, s.config.neonvmRetryWait, now)
  }

  /** The same of all requests. */
  predicate Unhindered(s: State, now: int) {
    && FreeOutside(s, now) && s.monitor.ongoingRequest.None?
    && Over(s.monitor.upscaleFailureAt, s.config.monitorRetryWait, now)
    && Over(s.monitor.downscaleFailureAt, s.config.monitorRetryWait, now)
  }

  /** The plugin has been told recently enough what the VM uses. */
  predicate Reported(s: State, now: int) {
    s.plugin.lastRequest.Some? && now < s.plugin.lastRequest.value.at + s.config.pluginRequestTick
  }

  /** The usage is what is permitted and no less than desired; what is approved, and no more than desired. */
  predicate Settled(s: State, desired: Resources) {
    && (s.plugin.permit.Some? ==> s.plugin.permit.value == s.vm.Using() && desired.Leq(s.vm.Using()))
    && (s.monitor.approved.Some? ==> s.monitor.approved.value == s.vm.Using() && s.vm.Using().Leq(desired))
  }

  // ---- each calculation -------------------------------------------------------------------------

  lemma PluginRests(s: State, now: int, desired: Resources)
    requires FreeOutside(s, now)
    ensures var r := CalculatePluginAction(s, now, desired);
      r.Ok? && (r.value.action.None? <==>
        Reported(s, now) && (s.plugin.permit.Some? ==> s.plugin.permit.value == desired.Max(s.vm.Using())))
  {
  }

  lemma NeonVMRests(s: State, now: int, desired: Resources)
    requires FreeOutside(s, now) && Safe(s)
    ensures var r := CalculateNeonVMAction(s, now, desired, None);
      r.Ok? && (r.value.action.None? <==>
        s.vm.Using() == desired.Min(PluginApprovedUpperBound(s)).Max(MonitorApprovedLowerBound(s)))
  {
    ClampBetween(s.vm.Using(), desired, MonitorApprovedLowerBound(s), PluginApprovedUpperBound(s));
  }

  lemma UpscaleRests(s: State, now: int, desired: Resources, cap: Resources)
    requires Unhindered(s, now) && WellSized(s, cap)
    ensures var r := CalculateMonitorUpscaleAction(s, now, desired);
      r.Ok? && (r.value.action.None? <==>
        (s.monitor.approved.Some? ==> s.vm.Using().Min(desired).Leq(s.monitor.approved.value)))
  {
    if s.monitor.approved.Some? {
      UpscaleTargetClosedForm(s, desired, cap);
    }
  }

  lemma DownscaleRests(s: State, now: int, desired: Resources)
    requires Unhindered(s, now) && s.config.computeUnit.NonZero()
    requires CalculateMonitorDownscaleAction(s, now, desired, false).Ok?
    ensures CalculateMonitorDownscaleAction(s, now, desired, false).value.action.None? <==>
      (s.monitor.approved.Some? ==> s.monitor.approved.value.Leq(desired))
  {
    if s.monitor.approved.Some? {
      DownscaleTargetClosedForm(s, desired);
    }
  }

  // ---- all of them together ---------------------------------------------------------------------

  lemma RestingTogether(using: Resources, desired: Resources, permit: Option<Resources>, approved: Option<Resources>)
    requires approved.Some? ==> approved.value.Leq(using)
    requires permit.Some? ==> using.Leq(permit.value)
    ensures var upper := if permit.Some? then permit.value else using;
      var lower := if approved.Some? then approved.value else using;
      (&& (permit.Some? ==> permit.value == desired.Max(using))
       && using == desired.Min(upper).Max(lower)
       && (approved.Some? ==> using.Min(desired).Leq(approved.value) && approved.value.Leq(desired)))
      <==>
      (&& (permit.Some? ==> permit.value == using && desired.Leq(using))
       && (approved.Some? ==> approved.value == using && using.Leq(desired)))
  {
  }

  /**
   * With nothing in flight and nothing backing off, a decision proposes nothing if and only if the plugin has
   * been told recently and the VM is settled.
   */
  lemma RestsExactlyWhenSettled(s: State, now: int, cap: Resources)
    requires WellSized(s, cap) && Unhindered(s, now) && NextActions(s, now).Ok?
    ensures DesiredResources(s, now).Ok?
    ensures NextActions(s, now).value.ProposesNothing() <==>
      Reported(s, now) && Settled(s, DesiredResources(s, now).value.resources)
  {
    NextActionsOutcome(s, now, cap);
    DesiredSucceeds(s, now, cap);
    var d := DesiredResources(s, now).value.resources;
    PluginRests(s, now, d);
    NeonVMRests(s, now, d);
    UpscaleRests(s, now, d, cap);
    RestingTogether(s.vm.Using(), d, s.plugin.permit, s.monitor.approved);
    if CalculateMonitorUpscaleAction(s, now, d).value.action.None? {
      DownscaleRests(s, now, d);
    }
  }

  /** With a permit and an active monitor, an agent at rest has reached the desired resources on all sides. */
  lemma RestIsAgreement(s: State, now: int, cap: Resources)
    requires WellSized(s, cap) && Unhindered(s, now) && NextActions(s, now).Ok?
    requires s.plugin.permit.Some? && s.monitor.approved.Some?
    ensures DesiredResources(s, now).Ok?
    ensures NextActions(s, now).value.ProposesNothing() <==>
      && Reported(s, now)
      && var d := DesiredResources(s, now).value.resources;
         s.vm.Using() == d && s.plugin.permit.value == d && s.monitor.approved.value == d
  {
    RestsExactlyWhenSettled(s, now, cap);
  }

  // ---- while the monitor has a request to answer ------------------------------------------------

  predicate PluginHeldBack(s: State, now: int) {
    || s.plugin.ongoingRequest
    || !Over(s.plugin.lastFailureAt, s.config.pluginRetryWait, now)
  }

  /** The last plugin request was denied in part, and not long ago. */
  predicate PluginDeniedLately(s: State, now: int) {
    PluginDenied(s) && !s.plugin.ongoingRequest && now < s.plugin.lastRequest.value.at + s.config.pluginDeniedRetryWait
  }

  /** The plugin has nothing new to be asked: it cannot be yet, has given no permit, or permits exactly what is wanted. */
  predicate PluginContent(s: State, now: int, desired: Resources) {
    PluginDeniedLately(s, now) || s.plugin.permit.None? || s.plugin.permit.value == desired.Max(s.vm.Using())
  }

  lemma PluginRestsIff(s: State, now: int, desired: Resources)
    requires s.plugin.ongoingRequest ==> s.plugin.lastRequest.Some?
    ensures var r := CalculatePluginAction(s, now, desired);
      r.Ok? && (r.value.action.None? <==>
        PluginHeldBack(s, now) || (Reported(s, now) && PluginContent(s, now, desired)))
  {
  }

  function NeonVMTarget(s: State, desired: Resources): (r: Resources) {
    desired.Min(PluginApprovedUpperBound(s)).Max(MonitorApprovedLowerBound(s))
  }

  /** The VM is where it should go, or no request can be made yet; a plugin request for less stands in the way too. */
  predicate NeonVMContent(s: State, now: int, desired: Resources, pluginRequested: Option<Resources>) {
    || s.vm.Using() == NeonVMTarget(s, desired)
    || s.neonvm.ongoingRequested.Some?
    || (pluginRequested.Some? && pluginRequested.value.HasFieldLessThan(NeonVMTarget(s, desired)))
    || !Over(s.neonvm.requestFailedAt, s.config.neonvmRetryWait, now)
  }

  lemma NeonVMRestsIff(s: State, now: int, desired: Resources, pluginRequested: Option<Resources>)
    requires Safe(s)
    ensures var r := CalculateNeonVMAction(s, now, desired, pluginRequested);
      r.Ok? && (r.value.action.None? <==> NeonVMContent(s, now, desired, pluginRequested))
  {
    ClampBetween(s.vm.Using(), desired, MonitorApprovedLowerBound(s), PluginApprovedUpperBound(s));
  }

  lemma MonitorIsBusy(s: State, now: int, desired: Resources)
    requires s.monitor.ongoingRequest.Some?
    ensures var r := CalculateMonitorUpscaleAction(s, now, desired); r.Ok? ==> r.value.action.None?
    ensures var r := CalculateMonitorDownscaleAction(s, now, desired, false); r.Ok? && r.value.action.None?
  {
    if s.monitor.approved.Some? {
      DownscaleTargetClosedForm(s, desired);
    }
  }

  /**
   * While a monitor request is in flight, whatever wishes and denials are in effect or have expired and whatever else
   * is in flight or backing off, nothing is proposed if and only if plugin and NeonVM are content with the
   * amount desired at that moment.
   */
  lemma RestsWhileMonitorAnswers(s: State, now: int, cap: Resources)
    requires WellSized(s, cap) && Safe(s) && s.monitor.ongoingRequest.Some?
    ensures NextActions(s, now).Ok? && DesiredResources(s, now).Ok?
    ensures var d := DesiredResources(s, now).value.resources;
      NextActions(s, now).value.ProposesNothing() <==>
        && (PluginHeldBack(s, now) || (Reported(s, now) && PluginContent(s, now, d)))
        && NeonVMContent(s, now, d, PluginRequestInView(s, None))
  {
    NextActionsOutcome(s, now, cap);
    DesiredSucceeds(s, now, cap);
    var d := DesiredResources(s, now).value.resources;
    PluginRestsIff(s, now, d);
    NeonVMRestsIff(s, now, d, PluginRequestInView(s, None));
    UpscaleActionFacts(s, now, d, cap);
    MonitorIsBusy(s, now, d);
  }
}
