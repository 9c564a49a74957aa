/** What the decision procedure proposes, from any state whose amounts do not overflow. */
module CoreProposals {
  import opened Api
  import opened CoreState

  // ---- sizes ------------------------------------------------------------------------------------

  /** Amounts up to `cap` can grow by a compute unit without wrapping, and a unit is a whole number of slots. */
  ghost predicate ConfigOk(cu: Resources, slot: nat, cap: Resources) {
    && cu.NonZero()
    && slot > 0
    && Aligned(cu.mem, slot)
    && cu.mem * 0xFFFF < U64
    && cap.mem == slot * 0xFFFF
    && cap.vcpu + cu.vcpu < U32
    && cap.mem + cu.mem < U64
  }

  ghost predicate Fits(r: Resources, slot: nat, cap: Resources) {
    r.Leq(cap) && Aligned(r.mem, slot)
  }

  ghost predicate VmOk(vm: VmInfo, cap: Resources) {
    && vm.Sized()
    && vm.MinResources().Leq(vm.MaxResources())
    && vm.cpuMax <= cap.vcpu
    && vm.cpuUse <= cap.vcpu
  }

  /** Every amount recorded in the state is within `cap`; those that bound the VM from below are whole slots. */
  ghost predicate WellSized(s: State, cap: Resources) {
    var slot := s.vm.slotSize;
    && ConfigOk(s.config.computeUnit, slot, cap)
    && VmOk(s.vm, cap)
    && (s.plugin.permit.Some? ==> s.plugin.permit.value.Leq(cap))
    && (s.plugin.lastRequest.Some? ==> s.plugin.lastRequest.value.resources.Leq(cap))
    && (s.plugin.ongoingRequest ==> s.plugin.lastRequest.Some?)
    && (s.neonvm.ongoingRequested.Some? ==> s.neonvm.ongoingRequested.value.Leq(cap))
    && (s.monitor.approved.Some? ==> Fits(s.monitor.approved.value, slot, cap))
    && (s.monitor.ongoingRequest.Some? ==> Fits(s.monitor.ongoingRequest.value.requested, slot, cap))
    && (s.monitor.deniedDownscale.Some? ==>
          && Fits(s.monitor.deniedDownscale.value.current, slot, cap)
          && s.monitor.deniedDownscale.value.requested.Leq(cap))
  }

  lemma AlignedProduct(a: nat, k: nat, slot: nat)
    requires Aligned(a, slot)
    ensures Aligned(a * k, slot) && Aligned(k * a, slot)
  {
    var j: nat :| a == slot * j;
    assert a * k == slot * (j * k);
  }

  lemma AlignedDifference(a: nat, b: nat, slot: nat)
    requires Aligned(a, slot) && Aligned(b, slot) && b <= a
    ensures Aligned(a - b, slot)
  {
    var j: nat, k: nat :| a == slot * j && b == slot * k;
    if slot == 0 {
      assert a - b == slot * 0;
    } else {
      Cancel(slot, k, j);
      assert a - b == slot * (j - k);
    }
  }

  lemma FitsUsing(vm: VmInfo, cap: Resources)
    requires VmOk(vm, cap) && cap.mem == vm.slotSize * 0xFFFF
    ensures Fits(vm.Using(), vm.slotSize, cap)
    ensures Fits(vm.MinResources(), vm.slotSize, cap)
    ensures Fits(vm.MaxResources(), vm.slotSize, cap)
  {
    UsingExact(vm);
  }

  // ---- desired resources ------------------------------------------------------------------------

  /** The amount required after a denial: more than was denied wherever that was a real decrease. */
  lemma MinRequiredFacts(current: nat, requested: nat, unit: nat, width: nat)
    requires unit > 0 && requested + unit < width
    ensures MinRequiredField(current, requested, unit, width) == MinInt(current, unit * (1 + requested / unit))
    ensures requested < current ==> requested < MinRequiredField(current, requested, unit, width)
  {
    var q := requested / unit;
    var n := unit * (1 + q);
    assert n <= requested + unit && requested < n by {
      DivisionFacts(requested, unit);
      assert n == unit * q + unit;
    }
    SmallModulus(n, width);
  }

  lemma MinRequiredFits(cu: Resources, d: DeniedDownscale, slot: nat, cap: Resources)
    requires ConfigOk(cu, slot, cap) && Fits(d.current, slot, cap) && d.requested.Leq(cap)
    ensures Fits(MinRequiredResourcesForDeniedDownscale(cu, d), slot, cap)
    ensures d.requested.vcpu < d.current.vcpu ==> d.requested.vcpu < MinRequiredResourcesForDeniedDownscale(cu, d).vcpu
    ensures d.requested.mem < d.current.mem ==> d.requested.mem < MinRequiredResourcesForDeniedDownscale(cu, d).mem
  {
    MinRequiredFacts(d.current.vcpu, d.requested.vcpu, cu.vcpu, U32);
    MinRequiredFacts(d.current.mem, d.requested.mem, cu.mem, U64);
    AlignedProduct(cu.mem, 1 + d.requested.mem / cu.mem, slot);
  }

  lemma GoalAligned(s: State, goalCU: nat, cap: Resources)
    requires WellSized(s, cap)
    ensures Aligned(GoalResources(s, goalCU).mem, s.vm.slotSize)
  {
    var k := goalCU % U16;
    var cu := s.config.computeUnit;
    ProductBound(cu.mem, k, 0xFFFF);
    assert (k * cu.mem) % U64 == k * cu.mem;
    AlignedProduct(cu.mem, k, s.vm.slotSize);
    FitsUsing(s.vm, cap);
  }

  /** The desired resources respect the VM's bounds, unless a denied downscale holds them higher. */
  lemma DesiredFacts(s: State, up: bool, denied: bool, cap: Resources)
    requires WellSized(s, cap)
    requires up ==> s.monitor.requestedUpscale.Some?
    requires denied ==> s.monitor.deniedDownscale.Some?
    ensures Fits(DesiredWith(s, up, denied).resources, s.vm.slotSize, cap)
    ensures s.vm.MinResources().Leq(DesiredWith(s, up, denied).resources)
    ensures !DesiredWith(s, up, denied).deniedAffected ==> DesiredWith(s, up, denied).resources.Leq(s.vm.MaxResources())
    ensures denied ==>
      MinRequiredResourcesForDeniedDownscale(s.config.computeUnit, s.monitor.deniedDownscale.value)
      .Leq(DesiredWith(s, up, denied).resources)
  {
    var cu := s.config.computeUnit;
    var upscaleCU := if up then RequiredCUForRequestedUpscaling(cu, s.monitor.requestedUpscale.value) else 0;
    var deniedCU := if denied then RequiredCUForDeniedDownscale(cu, s.monitor.deniedDownscale.value.requested) else 0;
    var goal := GoalResources(s, MaxInt(s.goal.goalCU, MaxInt(upscaleCU, deniedCU)));
    GoalAligned(s, MaxInt(s.goal.goalCU, MaxInt(upscaleCU, deniedCU)), cap);
    FitsUsing(s.vm, cap);
    BoundedFits(goal, s.vm.MinResources(), s.vm.MaxResources(), s.vm.slotSize, cap);
    if denied {
      MinRequiredFits(cu, s.monitor.deniedDownscale.value, s.vm.slotSize, cap);
    }
  }

  lemma BoundedFits(goal: Resources, min: Resources, max: Resources, slot: nat, cap: Resources)
    requires Aligned(goal.mem, slot) && Fits(min, slot, cap) && Fits(max, slot, cap)
    ensures Fits(goal.Min(max).Max(min), slot, cap)
  {
  }

  lemma DesiredSucceeds(s: State, now: int, cap: Resources)
    requires WellSized(s, cap)
    ensures DesiredResources(s, now).Ok?
    ensures Fits(DesiredResources(s, now).value.resources, s.vm.slotSize, cap)
    ensures TimeUntilDeniedDownscaleExpired(s, now) > 0 ==>
      MinRequiredResourcesForDeniedDownscale(s.config.computeUnit, s.monitor.deniedDownscale.value)
      .Leq(DesiredResources(s, now).value.resources)
  {
    DesiredFacts(s, TimeUntilRequestedUpscalingExpired(s, now) > 0, TimeUntilDeniedDownscaleExpired(s, now) > 0, cap);
  }

  // ---- the four proposals -----------------------------------------------------------------------

  /** The order the agent must keep: what the monitor approved, what the VM uses, what the plugin permits. */
  ghost predicate Safe(s: State) {
    && (s.monitor.approved.Some? ==> s.monitor.approved.value.Leq(s.vm.Using()))
    && (s.plugin.permit.Some? ==> s.vm.Using().Leq(s.plugin.permit.value))
  }

  /** A clamp goes through exactly when its bounds surround the current amount, and stays between them. */
  lemma ClampBetween(current: Resources, desired: Resources, lower: Resources, upper: Resources)
    ensures ClampResources(current, desired, Some(lower), Some(upper)).Ok? <==> lower.Leq(current) && current.Leq(upper)
    ensures lower.Leq(current) && current.Leq(upper) ==>
      var r := ClampResources(current, desired, Some(lower), Some(upper)).value;
      && r == desired.Min(upper).Max(lower)
      && lower.Leq(r) && r.Leq(upper)
  {
  }

  lemma PluginActionFacts(s: State, now: int, desired: Resources, cap: Resources)
    requires WellSized(s, cap) && desired.Leq(cap)
    ensures CalculatePluginAction(s, now, desired).Ok?
    ensures var a := CalculatePluginAction(s, now, desired).value.action;
      a.Some? ==> !s.plugin.ongoingRequest && a.value.Leq(cap) && s.vm.Using().Leq(a.value)
  {
    FitsUsing(s.vm, cap);
  }

  lemma NeonVMActionFacts(s: State, now: int, desired: Resources, requested: Option<Resources>, cap: Resources)
    requires WellSized(s, cap)
    ensures Safe(s) ==> CalculateNeonVMAction(s, now, desired, requested).Ok?
    ensures !Safe(s) ==> CalculateNeonVMAction(s, now, desired, requested) == Panic(InvalidClampArguments)
    ensures Safe(s) ==>
      var a := CalculateNeonVMAction(s, now, desired, requested).value.action;
      a.Some? ==>
        && s.neonvm.ongoingRequested.None?
        && a.value.current == s.vm.Using() != a.value.target
        && MonitorApprovedLowerBound(s).Leq(a.value.target)
        && a.value.target.Leq(PluginApprovedUpperBound(s))
        && a.value.target.Leq(cap)
        && (requested.Some? ==> a.value.target.Leq(requested.value))
  {
    FitsUsing(s.vm, cap);
    ClampBetween(s.vm.Using(), desired, MonitorApprovedLowerBound(s), PluginApprovedUpperBound(s));
  }

  /**
   * The upscale request in closed form: as much of the desired amount as the VM already uses, and never
   * less than what is approved. The bound of one compute unit has no effect on it.
   */
  lemma UpscaleTargetClosedForm(s: State, desired: Resources, cap: Resources)
    requires WellSized(s, cap) && s.monitor.approved.Some?
    ensures UpscaleTarget(s, desired) == Ok(s.monitor.approved.value.Max(s.vm.Using().Min(desired)))
  {
    FitsUsing(s.vm, cap);
    var approved := s.monitor.approved.value;
    var request := approved.Max(s.vm.Using().Min(desired));
    ClampBetween(approved, s.vm.Using(), approved, desired.Max(approved));
    assert request.Leq(cap);
    AddExact(request, s.config.computeUnit);
  }

  lemma AddExact(a: Resources, b: Resources)
    requires a.vcpu + b.vcpu < U32 && a.mem + b.mem < U64
    ensures a.Add(b) == Resources(a.vcpu + b.vcpu, a.mem + b.mem)
  {
  }

  /** The downscale request in closed form: towards the desired amount, by at most one compute unit per field. */
  lemma DownscaleTargetClosedForm(s: State, desired: Resources)
    requires s.monitor.approved.Some?
    ensures DownscaleTarget(s, desired)
      == Ok(s.monitor.approved.value.Min(desired.Max(s.monitor.approved.value.SaturatingSub(s.config.computeUnit))))
  {
  }

  lemma UpscaleActionFacts(s: State, now: int, desired: Resources, cap: Resources)
    requires WellSized(s, cap) && Fits(desired, s.vm.slotSize, cap)
    ensures CalculateMonitorUpscaleAction(s, now, desired).Ok?
    ensures var a := CalculateMonitorUpscaleAction(s, now, desired).value.action;
      a.Some? ==>
        && s.monitor.approved.Some? && s.monitor.ongoingRequest.None?
        && a.value.current == s.monitor.approved.value != a.value.target
        && a.value.target == s.monitor.approved.value.Max(s.vm.Using().Min(desired))
        && Fits(a.value.target, s.vm.slotSize, cap)
  {
    FitsUsing(s.vm, cap);
    if s.monitor.approved.Some? {
      UpscaleTargetClosedForm(s, desired, cap);
    }
  }

  lemma DownscaleActionFacts(s: State, now: int, desired: Resources, planned: bool, cap: Resources)
    requires WellSized(s, cap) && Fits(desired, s.vm.slotSize, cap)
    ensures var r := CalculateMonitorDownscaleAction(s, now, desired, planned);
      r.Ok? || r == Panic(DeniedDownscaleTooSoon)
    ensures var r := CalculateMonitorDownscaleAction(s, now, desired, planned);
      r.Ok? && r.value.action.Some? ==>
        && !planned && s.monitor.approved.Some? && s.monitor.ongoingRequest.None?
        && r.value.action.value.current == s.monitor.approved.value != r.value.action.value.target
        && r.value.action.value.target
           == s.monitor.approved.value.Min(desired.Max(s.monitor.approved.value.SaturatingSub(s.config.computeUnit)))
        && Fits(r.value.action.value.target, s.vm.slotSize, cap)
  {
    if s.monitor.approved.Some? {
      DownscaleTargetClosedForm(s, desired);
      var approved := s.monitor.approved.value;
      var lower := approved.SaturatingSub(s.config.computeUnit);
      assert Aligned(lower.mem, s.vm.slotSize) by {
        if approved.mem >= s.config.computeUnit.mem {
          AlignedDifference(approved.mem, s.config.computeUnit.mem, s.vm.slotSize);
        } else {
          assert lower.mem == s.vm.slotSize * 0;
        }
      }
    }
  }

  // ---- the whole action set ---------------------------------------------------------------------

  /** The guards hold exactly in the safe states, apart from the one about denied downscales. */
  lemma NextActionsOutcome(s: State, now: int, cap: Resources)
    requires WellSized(s, cap)
    ensures Safe(s) ==> NextActions(s, now).Ok? || NextActions(s, now) == Panic(DeniedDownscaleTooSoon)
    ensures !Safe(s) ==> NextActions(s, now) == Panic(InvalidClampArguments)
  {
    DesiredSucceeds(s, now, cap);
    var d := DesiredResources(s, now).value.resources;
    PluginActionFacts(s, now, d, cap);
    var requested := PluginRequestInView(s, CalculatePluginAction(s, now, d).value.action);
    NeonVMActionFacts(s, now, d, requested, cap);
    if Safe(s) {
      UpscaleActionFacts(s, now, d, cap);
      DownscaleActionFacts(s, now, d, CalculateMonitorUpscaleAction(s, now, d).value.action.Some?, cap);
    }
  }

  /** Where the proposed requests lie. */
  ghost predicate ProposalsWithinBounds(s: State, a: ActionSet, desired: Resources, cap: Resources) {
    && (a.pluginRequest.Some? ==>
          && !s.plugin.ongoingRequest
          && s.vm.Using().Leq(a.pluginRequest.value) && a.pluginRequest.value.Leq(cap))
    && (a.neonvmRequest.Some? ==>
          var t := a.neonvmRequest.value.target;
          && s.neonvm.ongoingRequested.None?
          && a.neonvmRequest.value.current == s.vm.Using() != t
          && MonitorApprovedLowerBound(s).Leq(t) && t.Leq(PluginApprovedUpperBound(s)) && t.Leq(cap)
          && (s.plugin.ongoingRequest && s.plugin.lastRequest.Some? ==> t.Leq(s.plugin.lastRequest.value.resources))
          && (a.pluginRequest.Some? ==> t.Leq(a.pluginRequest.value)))
    && (a.monitorUpscale.Some? ==>
          && s.monitor.approved.Some? && s.monitor.ongoingRequest.None? && a.monitorDownscale.None?
          && a.monitorUpscale.value.current == s.monitor.approved.value != a.monitorUpscale.value.target
          && a.monitorUpscale.value.target == s.monitor.approved.value.Max(s.vm.Using().Min(desired))
          && Fits(a.monitorUpscale.value.target, s.vm.slotSize, cap))
    && (a.monitorDownscale.Some? ==>
          && s.monitor.approved.Some? && s.monitor.ongoingRequest.None? && a.monitorUpscale.None?
          && a.monitorDownscale.value.current == s.monitor.approved.value != a.monitorDownscale.value.target
          && a.monitorDownscale.value.target
             == s.monitor.approved.value.Min(desired.Max(s.monitor.approved.value.SaturatingSub(s.config.computeUnit)))
          && Fits(a.monitorDownscale.value.target, s.vm.slotSize, cap))
  }

  /**
   * Every proposed NeonVM target lies between what the monitor approved and what the plugin permits, and
   * never above a plugin request that is in flight or planned. Monitor requests are proposed one at a
   * time, upscales up to the current usage and downscales by at most one compute unit.
   */
  lemma ProposalFacts(s: State, now: int, cap: Resources)
    requires WellSized(s, cap) && NextActions(s, now).Ok?
    ensures Safe(s)
    ensures DesiredResources(s, now).Ok?
    ensures ProposalsWithinBounds(s, NextActions(s, now).value, DesiredResources(s, now).value.resources, cap)
  {
    NextActionsOutcome(s, now, cap);
    DesiredSucceeds(s, now, cap);
    var d := DesiredResources(s, now).value.resources;
    PluginActionFacts(s, now, d, cap);
    NeonVMActionFacts(s, now, d, PluginRequestInView(s, CalculatePluginAction(s, now, d).value.action), cap);
    UpscaleActionFacts(s, now, d, cap);
    DownscaleActionFacts(s, now, d, CalculateMonitorUpscaleAction(s, now, d).value.action.Some?, cap);
  }
}
