/**
 * Upscaling towards the desired amount: one plugin request granted in full, one NeonVM request and one request to the
 * monitor bring all sides there; and when a regular report to the plugin gets in the way.
 */
module CoreUpscale {
  import opened Api
  import opened CoreState
  import opened CoreSteps
  import opened CoreProposals
  import opened CoreSafety
  import opened CoreProgress
  import opened CoreDecision

  /** Part of the desired amount is not used yet. */
  predicate Lacking(s: State, desired: Resources) {
    desired.HasFieldGreaterThan(s.vm.Using())
  }

  // ---- with the permit at hand ------------------------------------------------------------------

  /**
   * Once what is desired is permitted, NeonVM is asked for it if and only if the plugin was told within the tick:
   * otherwise a report of the present usage goes first, which a request for more has to wait for.
   */
  lemma PermittedIncrease(s: State, now: int, desired: Resources, cap: Resources)
    requires WellSized(s, cap) && FreeOutside(s, now) && NextActions(s, now).Ok?
    requires DesiredResources(s, now).Ok? && DesiredResources(s, now).value.resources == desired
    requires Lacking(s, desired) && s.plugin.permit == Some(desired.Max(s.vm.Using()))
    ensures Proposed(s, now).neonvmRequest ==
      if Reported(s, now) then Some(ChangeAction(s.vm.Using(), desired.Max(MonitorApprovedLowerBound(s)))) else None
    ensures Proposed(s, now).pluginRequest == if Reported(s, now) then None else Some(s.vm.Using())
  {
    NextActionsOutcome(s, now, cap);
    DecisionsAre(s, now, cap);
  }

  /** The success of a NeonVM request for whole slots brings exactly what was asked for. */
  lemma IncreaseLands(s: State, now: int, target: Resources, cap: Resources)
    requires WellSized(s, cap) && Enabled(s, StartNeonVM(now)) && Proposed(s, now).neonvmRequest.value.target == target
    requires Fits(target, s.vm.slotSize, cap)
    ensures Enabled(Apply(s, StartNeonVM(now)), NeonVMSuccess)
    ensures var s' := Apply(Apply(s, StartNeonVM(now)), NeonVMSuccess);
      && WellSized(s', cap) && s'.vm.Using() == target
      && s' == s.(vm := s.vm.SetUsing(target))
  {
    StepKeepsSizes(s, StartNeonVM(now), cap);
    StepKeepsSizes(Apply(s, StartNeonVM(now)), NeonVMSuccess, cap);
    SetUsingLands(s.vm, target);
  }

  // ---- asking for the permit --------------------------------------------------------------------

  /** The state after a plugin request for `r` made at `at` was granted in full. */
  function Granted(s: State, at: int, r: Resources): (s': State) {
    s.(plugin := s.plugin.(ongoingRequest := false, lastRequest := Some(PluginRequested(at, r)), permit := Some(r)))
  }

  lemma WishIsGranted(s: State, now: int, at: int, replyAt: int, desired: Resources, cap: Resources)
    requires WellSized(s, cap) && FreeOutside(s, now) && NextActions(s, now).Ok?
    requires DesiredResources(s, now).Ok? && DesiredResources(s, now).value.resources == desired
    requires s.plugin.lastRequest.Some? && s.plugin.permit.Some?
    requires s.plugin.permit.value != desired.Max(s.vm.Using()) && desired.Max(s.vm.Using()).NonZero()
    ensures var wanted := desired.Max(s.vm.Using());
      && Proposed(s, now).pluginRequest == Some(wanted) && Enabled(s, StartPlugin(now, at))
      && Enabled(Apply(s, StartPlugin(now, at)), PluginReply(replyAt, wanted))
      && Apply(Apply(s, StartPlugin(now, at)), PluginReply(replyAt, wanted)) == Granted(s, at, wanted)
      && WellSized(Granted(s, at, wanted), cap) && Safe(Granted(s, at, wanted))
  {
    NextActionsOutcome(s, now, cap);
    DecisionsAre(s, now, cap);
    var s1 := Apply(s, StartPlugin(now, at));
    StepKeepsSizes(s, StartPlugin(now, at), cap);
    StepKeepsSizes(s1, PluginReply(replyAt, desired.Max(s.vm.Using())), cap);
  }

  lemma GuardStaysQuiet(s: State, s': State, now: int, later: int, d: Resources, planned: bool)
    requires CalculateMonitorDownscaleAction(s, now, d, planned).Ok? && now <= later
    requires Over(s.monitor.downscaleFailureAt, s.config.monitorRetryWait, now) && s.monitor.ongoingRequest.None?
    requires s'.config == s.config && s'.monitor == s.monitor
    ensures CalculateMonitorDownscaleAction(s', later, d, planned).Ok?
  {
  }

  /** The grant does not bring the guard about denied downscales into play. */
  lemma GrantKeepsDeciding(s: State, s': State, now: int, later: int, cap: Resources)
    requires WellSized(s, cap) && Unhindered(s, now) && NextActions(s, now).Ok? && now <= later
    requires WellSized(s', cap) && Safe(s') && s' == s.(plugin := s'.plugin)
    requires DesiredResources(s, later) == DesiredResources(s, now)
    ensures NextActions(s', later).Ok? && DesiredResources(s', later) == DesiredResources(s, now)
  {
    NextActionsOutcome(s', later, cap);
    assert DesiredResources(s', later) == DesiredResources(s, later);
    var d := DesiredResources(s, now).value.resources;
    UpscaleDecides(s, now, d, cap);
    UpscaleDecides(s', later, d, cap);
    GuardStaysQuiet(s, s', now, later, d, UpscaleDecision(s, now, d).Some?);
  }

  // ---- all the way ------------------------------------------------------------------------------

  /** A new permit is asked for unless the wanted amount is permitted already. */
  function Asking(s: State, now: int, at: int, replyAt: int, wanted: Resources): (steps: seq<Step>) {
    if s.plugin.permit == Some(wanted) then [] else [StartPlugin(now, at), PluginReply(replyAt, wanted)]
  }

  /** The moment of the last plugin request by then. */
  function AskedAt(s: State, at: int, wanted: Resources): (t: int)
    requires s.plugin.lastRequest.Some?
  {
    if s.plugin.permit == Some(wanted) then s.plugin.lastRequest.value.at else at
  }

  lemma AskingWorks(s: State, now: int, at: int, replyAt: int, later: int, cap: Resources)
    requires WellSized(s, cap) && Unhindered(s, now) && NextActions(s, now).Ok? && now <= later
    requires s.plugin.lastRequest.Some? && s.plugin.permit.Some?
    requires DesiredResources(s, now).Ok? && DesiredResources(s, later) == DesiredResources(s, now)
    requires DesiredResources(s, now).value.resources.Max(s.vm.Using()).NonZero()
    ensures var wanted := DesiredResources(s, now).value.resources.Max(s.vm.Using());
      && ValidRun(s, Asking(s, now, at, replyAt, wanted), cap)
      && var s1 := Exec(s, Asking(s, now, at, replyAt, wanted), cap);
         && s1.plugin.permit == Some(wanted) && s1 == s.(plugin := s1.plugin)
         && WellSized(s1, cap) && FreeOutside(s1, later) && NextActions(s1, later).Ok?
         && DesiredResources(s1, later) == DesiredResources(s, now)
         && s1.plugin.lastRequest.Some? && s1.plugin.lastRequest.value.at == AskedAt(s, at, wanted)
  {
    NextActionsOutcome(s, now, cap);
    var d := DesiredResources(s, now).value.resources;
    var wanted := d.Max(s.vm.Using());
    if s.plugin.permit.value == wanted {
      GrantKeepsDeciding(s, s, now, later, cap);
    } else {
      WishIsGranted(s, now, at, replyAt, d, cap);
      RunTwo(s, StartPlugin(now, at), PluginReply(replyAt, wanted), cap);
      GrantKeepsDeciding(s, Granted(s, at, wanted), now, later, cap);
    }
  }

  lemma TargetFits(s: State, now: int, cap: Resources)
    requires WellSized(s, cap)
    ensures DesiredResources(s, now).Ok?
    ensures Fits(DesiredResources(s, now).value.resources.Max(MonitorApprovedLowerBound(s)), s.vm.slotSize, cap)
  {
    DesiredSucceeds(s, now, cap);
    FitsUsing(s.vm, cap);
  }

  /** Every field that was below the desired amount is at it, and the others have not grown. */
  predicate RaisedTo(before: Resources, after: Resources, desired: Resources) {
    && (if before.vcpu < desired.vcpu then after.vcpu == desired.vcpu else after.vcpu <= before.vcpu)
    && (if before.mem < desired.mem then after.mem == desired.mem else after.mem <= before.mem)
  }

  /**
   * From a state with nothing in flight and nothing backing off, one plugin request that is granted in full, if one is
   * needed at all, and one NeonVM success bring the usage up to the desired amount in every field that
   * was below it. NeonVM is asked if and only if the next regular report to the plugin is not due first.
   */
  lemma UpscaleConverges(s: State, now: int, at: int, replyAt: int, later: int, cap: Resources)
    requires WellSized(s, cap) && Unhindered(s, now) && NextActions(s, now).Ok? && now <= later
    requires s.plugin.lastRequest.Some? && s.plugin.permit.Some?
    requires DesiredResources(s, now).Ok? && DesiredResources(s, later) == DesiredResources(s, now)
    requires var d := DesiredResources(s, now).value.resources; Lacking(s, d) && d.Max(s.vm.Using()).NonZero()
    ensures var d := DesiredResources(s, now).value.resources;
      var wanted := d.Max(s.vm.Using());
      && ValidRun(s, Asking(s, now, at, replyAt, wanted), cap)
      && var s1 := Exec(s, Asking(s, now, at, replyAt, wanted), cap);
         && s1.config.computeUnit.NonZero()
         && (Proposed(s1, later).neonvmRequest.Some? <==> later < AskedAt(s, at, wanted) + s.config.pluginRequestTick)
         && (Proposed(s1, later).neonvmRequest.Some? ==>
               && ValidRun(s1, [StartNeonVM(later), NeonVMSuccess], cap)
               && var s2 := Exec(s1, [StartNeonVM(later), NeonVMSuccess], cap);
                  && s2.vm.Using() == d.Max(MonitorApprovedLowerBound(s))
                  && RaisedTo(s.vm.Using(), s2.vm.Using(), d))
  {
    NextActionsOutcome(s, now, cap);
    AskingWorks(s, now, at, replyAt, later, cap);
    var d := DesiredResources(s, now).value.resources;
    var s1 := Exec(s, Asking(s, now, at, replyAt, d.Max(s.vm.Using())), cap);
    PermittedIncrease(s1, later, d, cap);
    if Proposed(s1, later).neonvmRequest.Some? {
      TargetFits(s1, later, cap);
      IncreaseLands(s1, later, d.Max(MonitorApprovedLowerBound(s)), cap);
      RunTwo(s1, StartNeonVM(later), NeonVMSuccess, cap);
    }
  }

  // ---- and the monitor hears of it --------------------------------------------------------------

  /** All sides agree on `desired` but the monitor, which knows of less. */
  ghost predicate MonitorLagsBehind(s: State, desired: Resources, cap: Resources) {
    && WellSized(s, cap) && s.monitor.approved.Some?
    && s.plugin.permit == Some(desired) && s.vm.Using() == desired
    && s.monitor.approved.value.Leq(desired) && s.monitor.approved.value != desired
  }

  lemma LaggingDecides(s: State, now: int, desired: Resources, cap: Resources)
    requires MonitorLagsBehind(s, desired, cap)
    requires DesiredResources(s, now).Ok? && DesiredResources(s, now).value.resources == desired
    ensures NextActions(s, now).Ok?
  {
    NextActionsOutcome(s, now, cap);
    DownscaleTargetClosedForm(s, desired);
  }

  function Told(s: State, desired: Resources): (s': State) {
    s.(monitor := s.monitor.(approved := Some(desired), upscaleFailureAt := None))
  }

  /** The monitor is then told in one request. */
  lemma MonitorIsTold(s: State, now: int, desired: Resources, cap: Resources)
    requires MonitorLagsBehind(s, desired, cap) && Unhindered(s, now)
    requires DesiredResources(s, now).Ok? && DesiredResources(s, now).value.resources == desired
    ensures ValidRun(s, [StartUpscale(now), UpscaleSuccess], cap)
    ensures Exec(s, [StartUpscale(now), UpscaleSuccess], cap) == Told(s, desired) && WellSized(Told(s, desired), cap)
  {
    LaggingDecides(s, now, desired, cap);
    DecisionsAre(s, now, cap);
    var s1 := Apply(s, StartUpscale(now));
    StepKeepsSizes(s, StartUpscale(now), cap);
    StepKeepsSizes(s1, UpscaleSuccess, cap);
    RunTwo(s, StartUpscale(now), UpscaleSuccess, cap);
  }

  /** Where all sides agree nothing is left to do, until the next report is due. */
  lemma AgreementRests(s: State, now: int, desired: Resources, cap: Resources)
    requires WellSized(s, cap) && Unhindered(s, now)
    requires s.monitor.approved == Some(desired) && s.plugin.permit == Some(desired) && s.vm.Using() == desired
    requires DesiredResources(s, now).Ok? && DesiredResources(s, now).value.resources == desired
    ensures NextActions(s, now).Ok?
    ensures NextActions(s, now).value.ProposesNothing() <==> Reported(s, now)
  {
    NextActionsOutcome(s, now, cap);
    DownscaleTargetClosedForm(s, desired);
    RestsExactlyWhenSettled(s, now, cap);
  }

  /** With all metrics, what is desired does not depend on requests, permits, usage or approval. */
  lemma DesiredIsIndependent(
    s: State, s': State, now: int, permit: PluginState, using: Resources, approved: Option<Resources>, failed: Option<int>)
    requires s.config.computeUnit.NonZero() && s.goal.hasAllMetrics && s.vm.slotSize > 0
    requires s' == s.(plugin := permit, vm := s.vm.SetUsing(using),
                      monitor := s.monitor.(approved := approved, upscaleFailureAt := failed))
    ensures DesiredResources(s', now) == DesiredResources(s, now)
  {
  }

  /**
   * The whole way up: if no field is above the desired amount and the metrics are complete, then after the permit,
   * the NeonVM success and one request to the monitor, usage, permit and approval are all the
   * desired amount, and nothing is proposed until the next report is due.
   */
  lemma UpscaleReachesAgreement(s: State, now: int, at: int, replyAt: int, t1: int, t2: int, t3: int, cap: Resources)
    requires WellSized(s, cap) && Unhindered(s, now) && NextActions(s, now).Ok? && s.goal.hasAllMetrics
    requires s.plugin.lastRequest.Some? && s.plugin.permit.Some? && s.monitor.approved.Some?
    requires now <= t1 <= t2 <= t3 && DesiredResources(s, now).Ok?
    requires forall t | t in {t1, t2, t3} :: DesiredResources(s, t) == DesiredResources(s, now)
    requires var d := DesiredResources(s, now).value.resources; Lacking(s, d) && s.vm.Using().Leq(d) && d.NonZero()
    requires t1 < AskedAt(s, at, DesiredResources(s, now).value.resources) + s.config.pluginRequestTick
    ensures var d := DesiredResources(s, now).value.resources;
      && ValidRun(s, Asking(s, now, at, replyAt, d), cap)
      && var s1 := Exec(s, Asking(s, now, at, replyAt, d), cap);
      && s1.config.computeUnit.NonZero() && ValidRun(s1, [StartNeonVM(t1), NeonVMSuccess], cap)
      && var s2 := Exec(s1, [StartNeonVM(t1), NeonVMSuccess], cap);
      && s2.config.computeUnit.NonZero() && ValidRun(s2, [StartUpscale(t2), UpscaleSuccess], cap)
      && var s3 := Exec(s2, [StartUpscale(t2), UpscaleSuccess], cap);
      && s3.vm.Using() == d && s3.plugin.permit == Some(d) && s3.monitor.approved == Some(d)
      && s3.config.computeUnit.NonZero() && NextActions(s3, t3).Ok?
      && (NextActions(s3, t3).value.ProposesNothing() <==> t3 < AskedAt(s, at, d) + s.config.pluginRequestTick)
  {
    NextActionsOutcome(s, now, cap);
    var d := DesiredResources(s, now).value.resources;
    assert d.Max(s.vm.Using()) == d;
    AskingWorks(s, now, at, replyAt, t1, cap);
    var s1 := Exec(s, Asking(s, now, at, replyAt, d), cap);
    PermittedIncrease(s1, t1, d, cap);
    TargetFits(s1, t1, cap);
    assert d.Max(MonitorApprovedLowerBound(s)) == d;
    IncreaseLands(s1, t1, d, cap);
    RunTwo(s1, StartNeonVM(t1), NeonVMSuccess, cap);
    var s2 := Apply(Apply(s1, StartNeonVM(t1)), NeonVMSuccess);
    DesiredIsIndependent(s, s2, t2, s1.plugin, d, s.monitor.approved, s.monitor.upscaleFailureAt);
    MonitorIsTold(s2, t2, d, cap);
    DesiredIsIndependent(s, Told(s2, d), t3, s1.plugin, d, Some(d), None);
    AgreementRests(Told(s2, d), t3, d, cap);
  }
}
