/**
 * The scaling decisions of the autoscaler-agent for one VM, as functions of the state it keeps about
 * the scheduler plugin, the vm-monitor and the NeonVM API. Times and durations are nanoseconds.
 */
module CoreState {
  import opened Api

  /** The guards that make the decision procedure panic. */
  datatype PanicKind =
    | InvalidClampArguments
    | UpscaleBelowApproved
    | DownscaleAboveApproved
    | DeniedDownscaleTooSoon
    | DesiredAboveMax
    | DesiredBelowMin
    | MissingLastRequest

  datatype Result<+T> = Ok(value: T) | Panic(kind: PanicKind) {
    predicate IsFailure() {
      Panic?
    }
    function PropagateFailure<U>(): (r: Result<U>)
      requires Panic?
    {
      Panic(kind)
    }
    function Extract(): T
      requires Ok?
    {
      value
    }
  }

  datatype Config = Config(
    computeUnit: Resources,
    neonvmRetryWait: int,
    pluginRequestTick: int,
    pluginRetryWait: int,
    pluginDeniedRetryWait: int,
    monitorDeniedDownscaleCooldown: int,
    monitorRequestedUpscaleValidPeriod: int,
    monitorRetryWait: int)

  datatype PluginRequested = PluginRequested(at: int, resources: Resources)

  datatype PluginState = PluginState(
    ongoingRequest: bool,
    lastRequest: Option<PluginRequested>,
    lastFailureAt: Option<int>,
    permit: Option<Resources>)

  datatype MonitorRequestKind = Downscale | Upscale

  datatype OngoingMonitorRequest = OngoingMonitorRequest(kind: MonitorRequestKind, requested: Resources)

  datatype MoreResources = MoreResources(cpu: bool, memory: bool)

  datatype RequestedUpscale = RequestedUpscale(at: int, base: Resources, requested: MoreResources)

  datatype DeniedDownscale = DeniedDownscale(at: int, current: Resources, requested: Resources)

  datatype MonitorState = MonitorState(
    ongoingRequest: Option<OngoingMonitorRequest>,
    requestedUpscale: Option<RequestedUpscale>,
    deniedDownscale: Option<DeniedDownscale>,
    approved: Option<Resources>,
    downscaleFailureAt: Option<int>,
    upscaleFailureAt: Option<int>)

  datatype NeonVMState = NeonVMState(ongoingRequested: Option<Resources>, requestFailedAt: Option<int>)

  /** What the metrics say: a goal in compute units, and whether every needed metric was present. */
  datatype Goal = Goal(goalCU: nat, hasAllMetrics: bool)

  datatype State = State(
    config: Config,
    vm: VmInfo,
    plugin: PluginState,
    monitor: MonitorState,
    neonvm: NeonVMState,
    goal: Goal)

  const RESET_MONITOR: MonitorState := MonitorState(None, None, None, None, None, None)

  function NewState(vm: VmInfo, config: Config, goal: Goal): (s: State) {
    State(config, vm, PluginState(false, None, None, None), RESET_MONITOR, NeonVMState(None, None), goal)
  }

  datatype ChangeAction = ChangeAction(current: Resources, target: Resources)

  datatype ActionSet = ActionSet(
    wait: Option<int>,
    pluginRequest: Option<Resources>,
    neonvmRequest: Option<ChangeAction>,
    monitorDownscale: Option<ChangeAction>,
    monitorUpscale: Option<ChangeAction>)
  {
    predicate ProposesNothing() {
      pluginRequest.None? && neonvmRequest.None? && monitorDownscale.None? && monitorUpscale.None?
    }
  }

  /** One calculation's proposal, together with how long to wait when it proposes nothing yet. */
  datatype Proposal<+T> = Proposal(action: Option<T>, wait: Option<int>)

  const MAX_DURATION: int := 0x7FFF_FFFF_FFFF_FFFF

  // ---- bounds -----------------------------------------------------------------------------------

  function ClampField(current: nat, desired: nat, lower: Option<nat>, upper: Option<nat>): (r: nat) {
    if desired < current && lower.Some? then MaxInt(desired, lower.value)
    else if desired > current && upper.Some? then MinInt(desired, upper.value)
    else desired
  }

  function VCpuOf(r: Option<Resources>): (v: Option<nat>) {
    if r.Some? then Some(r.value.vcpu) else None
  }

  function MemOf(r: Option<Resources>): (v: Option<nat>) {
    if r.Some? then Some(r.value.mem) else None
  }

  function ClampResources(current: Resources, desired: Resources, lower: Option<Resources>, upper: Option<Resources>)
    : (r: Result<Resources>)
  {
    if lower.Some? && lower.value.HasFieldGreaterThan(current) then Panic(InvalidClampArguments)
    else if upper.Some? && upper.value.HasFieldLessThan(current) then Panic(InvalidClampArguments)
    else
      Ok(Resources(ClampField(current.vcpu, desired.vcpu, VCpuOf(lower), VCpuOf(upper)),
                   ClampField(current.mem, desired.mem, MemOf(lower), MemOf(upper))))
  }

  function MonitorApprovedLowerBound(s: State): (r: Resources) {
    if s.monitor.approved.Some? then s.monitor.approved.value else s.vm.Using()
  }

  function PluginApprovedUpperBound(s: State): (r: Resources) {
    if s.plugin.permit.Some? then s.plugin.permit.value else s.vm.Using()
  }

  // ---- desired resources ------------------------------------------------------------------------

  function TimeUntilRequestedUpscalingExpired(s: State, now: int): (d: int) {
    match s.monitor.requestedUpscale
    case Some(u) => u.at + s.config.monitorRequestedUpscaleValidPeriod - now
    case None => 0
  }

  function TimeUntilDeniedDownscaleExpired(s: State, now: int): (d: int) {
    match s.monitor.deniedDownscale
    case Some(d) => d.at + s.config.monitorDeniedDownscaleCooldown - now
    case None => 0
  }

  /** 1 + floor(x / unit), in uint32 arithmetic. */
  function RequiredUnits(x: nat, unit: nat): (n: nat)
    requires unit > 0
  {
    (1 + (x / unit) % U32) % U32
  }

  function RequiredCUForRequestedUpscaling(cu: Resources, up: RequestedUpscale): (n: nat)
    requires cu.NonZero()
  {
    MaxInt(if up.requested.cpu then RequiredUnits(up.base.vcpu, cu.vcpu) else 0,
           if up.requested.memory then RequiredUnits(up.base.mem, cu.mem) else 0)
  }

  function RequiredCUForDeniedDownscale(cu: Resources, denied: Resources): (n: nat)
    requires cu.NonZero()
  {
    MaxInt(RequiredUnits(denied.vcpu, cu.vcpu), RequiredUnits(denied.mem, cu.mem))
  }

  function MinRequiredField(current: nat, requested: nat, unit: nat, width: nat): (n: nat)
    requires unit > 0 && width > 0
  {
    MinInt(current, (unit * (1 + requested / unit)) % width)
  }

  function MinRequiredResourcesForDeniedDownscale(cu: Resources, d: DeniedDownscale): (r: Resources)
    requires cu.NonZero()
  {
    Resources(MinRequiredField(d.current.vcpu, d.requested.vcpu, cu.vcpu, U32),
              MinRequiredField(d.current.mem, d.requested.mem, cu.mem, U64))
  }

  /** The desired resources, and whether an explicit upscale or a denied downscale changed the outcome. */
  datatype Desired = Desired(resources: Resources, upscaleAffected: bool, deniedAffected: bool)

  function GoalResources(s: State, goalCU: nat): (r: Resources) {
    var goal := s.config.computeUnit.Mul(goalCU % U16);
    if s.goal.hasAllMetrics then goal else goal.Max(s.vm.Using())
  }

  /** Desired resources once it is known which of the two time-limited inputs are still in effect. */
  function DesiredWith(s: State, upscaleInEffect: bool, deniedInEffect: bool): (d: Desired)
    requires s.config.computeUnit.NonZero()
    requires upscaleInEffect ==> s.monitor.requestedUpscale.Some?
    requires deniedInEffect ==> s.monitor.deniedDownscale.Some?
  {
    var cu := s.config.computeUnit;
    var initialCU := s.goal.goalCU;
    var upscaleCU := if upscaleInEffect then RequiredCUForRequestedUpscaling(cu, s.monitor.requestedUpscale.value) else 0;
    var upscaleAffected := upscaleCU > initialCU;
    var deniedCU := if deniedInEffect then RequiredCUForDeniedDownscale(cu, s.monitor.deniedDownscale.value.requested) else 0;
    var goalCU := MaxInt(initialCU, MaxInt(upscaleCU, deniedCU));
    var bounded := GoalResources(s, goalCU).Min(s.vm.MaxResources()).Max(s.vm.MinResources());
    var result := if deniedInEffect
                  then bounded.Max(MinRequiredResourcesForDeniedDownscale(cu, s.monitor.deniedDownscale.value))
                  else bounded;
    Desired(result, upscaleAffected, deniedCU > initialCU || result != bounded)
  }

  function DesiredResources(s: State, now: int): (r: Result<Desired>)
    requires s.config.computeUnit.NonZero()
  {
    var d := DesiredWith(s, TimeUntilRequestedUpscalingExpired(s, now) > 0, TimeUntilDeniedDownscaleExpired(s, now) > 0);
    if !d.deniedAffected && d.resources.HasFieldGreaterThan(s.vm.MaxResources()) then Panic(DesiredAboveMax)
    else if d.resources.HasFieldLessThan(s.vm.MinResources()) then Panic(DesiredBelowMin)
    else Ok(d)
  }

  function DesiredWait(s: State, now: int, d: Desired, monitorDownscale: Option<ChangeAction>): (w: Option<int>) {
    var denied := d.deniedAffected && monitorDownscale.None? && s.monitor.ongoingRequest.None?;
    if denied && d.upscaleAffected then
      Some(MinInt(TimeUntilDeniedDownscaleExpired(s, now), TimeUntilRequestedUpscalingExpired(s, now)))
    else if denied then Some(TimeUntilDeniedDownscaleExpired(s, now))
    else if d.upscaleAffected then Some(TimeUntilRequestedUpscalingExpired(s, now))
    else None
  }

  // ---- the four kinds of request ----------------------------------------------------------------

  function CalculatePluginAction(s: State, now: int, desired: Resources): (r: Result<Proposal<Resources>>) {
    var using := s.vm.Using();
    var requestResources :- ClampResources(using, desired, Some(using), None);
    var currentResources :=
      if s.neonvm.ongoingRequested.Some? then using.Max(s.neonvm.ongoingRequested.value) else using;
    var last := s.plugin.lastRequest;
    var untilTick := if last.Some? then s.config.pluginRequestTick - (now - last.value.at) else 0;
    var previouslyDenied := && !s.plugin.ongoingRequest && last.Some? && s.plugin.permit.Some?
                            && last.value.resources.HasFieldGreaterThan(s.plugin.permit.value);
    var untilRetry := if previouslyDenied then last.value.at + s.config.pluginDeniedRetryWait - now else 0;
    var wantNew := last.Some? && s.plugin.permit.Some? && requestResources != s.plugin.permit.value;
    var shouldRequestNew := wantNew && untilRetry <= 0;
    var target := if shouldRequestNew then requestResources else currentResources;
    if s.plugin.ongoingRequest then
      if last.None? then Panic(MissingLastRequest) else Ok(Proposal(None, None))
    else if s.plugin.lastFailureAt.Some? && s.plugin.lastFailureAt.value + s.config.pluginRetryWait - now > 0 then
      Ok(Proposal(None, Some(s.plugin.lastFailureAt.value + s.config.pluginRetryWait - now)))
    else if untilTick <= 0 || shouldRequestNew then
      Ok(Proposal(Some(target), None))
    else
      Ok(Proposal(None, Some(if untilRetry > 0 then MinInt(untilTick, untilRetry) else untilTick)))
  }

  function CalculateNeonVMAction(s: State, now: int, desired: Resources, pluginRequested: Option<Resources>)
    : (r: Result<Proposal<ChangeAction>>)
  {
    var using := s.vm.Using();
    var target :- ClampResources(using, desired, Some(MonitorApprovedLowerBound(s)), Some(PluginApprovedUpperBound(s)));
    var conflicting := pluginRequested.Some? && pluginRequested.value.HasFieldLessThan(target);
    if using == target then Ok(Proposal(None, None))
    else if s.neonvm.ongoingRequested.Some? || conflicting then Ok(Proposal(None, None))
    else if s.neonvm.requestFailedAt.Some? && s.neonvm.requestFailedAt.value + s.config.neonvmRetryWait - now > 0 then
      Ok(Proposal(None, Some(s.neonvm.requestFailedAt.value + s.config.neonvmRetryWait - now)))
    else Ok(Proposal(Some(ChangeAction(using, target)), None))
  }

  function UpscaleTarget(s: State, desired: Resources): (r: Result<Resources>)
    requires s.monitor.approved.Some?
  {
    var approved := s.monitor.approved.value;
    var request :- ClampResources(approved, s.vm.Using(), Some(approved), Some(desired.Max(approved)));
    ClampResources(approved, request, None, Some(request.Add(s.config.computeUnit)))
  }

  function CalculateMonitorUpscaleAction(s: State, now: int, desired: Resources): (r: Result<Proposal<ChangeAction>>) {
    if s.monitor.approved.None? then Ok(Proposal(None, None))
    else
      var approved := s.monitor.approved.value;
      var request :- UpscaleTarget(s, desired);
      if request.HasFieldLessThan(approved) then Panic(UpscaleBelowApproved)
      else if request == approved then Ok(Proposal(None, None))
      else if s.monitor.ongoingRequest.Some? then Ok(Proposal(None, None))
      else if s.monitor.upscaleFailureAt.Some? && s.monitor.upscaleFailureAt.value + s.config.monitorRetryWait - now > 0 then
        Ok(Proposal(None, Some(s.monitor.upscaleFailureAt.value + s.config.monitorRetryWait - now)))
      else Ok(Proposal(Some(ChangeAction(approved, request)), None))
  }

  function DownscaleTarget(s: State, desired: Resources): (r: Result<Resources>)
    requires s.monitor.approved.Some?
  {
    var approved := s.monitor.approved.value;
    var request :- ClampResources(approved, desired, None, Some(approved));
    ClampResources(approved, request, Some(approved.SaturatingSub(s.config.computeUnit)), None)
  }

  function CalculateMonitorDownscaleAction(s: State, now: int, desired: Resources, plannedUpscale: bool)
    : (r: Result<Proposal<ChangeAction>>)
  {
    if s.monitor.approved.None? then Ok(Proposal(None, None))
    else
      var approved := s.monitor.approved.value;
      var request :- DownscaleTarget(s, desired);
      if request.HasFieldGreaterThan(approved) then Panic(DownscaleAboveApproved)
      else if request == approved then Ok(Proposal(None, None))
      else if plannedUpscale || s.monitor.ongoingRequest.Some? then Ok(Proposal(None, None))
      else if s.monitor.downscaleFailureAt.Some? && s.monitor.downscaleFailureAt.value + s.config.monitorRetryWait - now > 0 then
        Ok(Proposal(None, Some(s.monitor.downscaleFailureAt.value + s.config.monitorRetryWait - now)))
      else if && TimeUntilDeniedDownscaleExpired(s, now) > 0
              && !s.monitor.deniedDownscale.value.requested.HasFieldLessThan(request) then
        Panic(DeniedDownscaleTooSoon)
      else Ok(Proposal(Some(ChangeAction(approved, request)), None))
  }

  // ---- the action set ---------------------------------------------------------------------------

  function ShorterWait(soFar: int, w: Option<int>): (d: int) {
    if w.Some? then MinInt(soFar, w.value) else soFar
  }

  function ShortestWait(waits: seq<Option<int>>): (d: int) {
    if waits == [] then MAX_DURATION else ShorterWait(ShortestWait(waits[..|waits| - 1]), waits[|waits| - 1])
  }

  function PluginRequestInView(s: State, planned: Option<Resources>): (r: Option<Resources>) {
    if s.plugin.ongoingRequest && s.plugin.lastRequest.Some? then Some(s.plugin.lastRequest.value.resources)
    else planned
  }

  function NextActions(s: State, now: int): (r: Result<ActionSet>)
    requires s.config.computeUnit.NonZero()
  {
    var desired :- DesiredResources(s, now);
    var plugin :- CalculatePluginAction(s, now, desired.resources);
    var neonvm :- CalculateNeonVMAction(s, now, desired.resources, PluginRequestInView(s, plugin.action));
    var up :- CalculateMonitorUpscaleAction(s, now, desired.resources);
    var down :- CalculateMonitorDownscaleAction(s, now, desired.resources, up.action.Some?);
    var required := ShortestWait([DesiredWait(s, now, desired, down.action), plugin.wait, neonvm.wait, up.wait, down.wait]);
    Ok(ActionSet(if required != MAX_DURATION then Some(required) else None,
                 plugin.action, neonvm.action, down.action, up.action))
  }
}
