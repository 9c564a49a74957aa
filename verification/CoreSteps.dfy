/**
 * The updates of the scaling state, as functions, and the transition system they make together with
 * the requests that the decision procedure proposes.
 */
module CoreSteps {
  import opened Api
  import opened CoreState

  // ---- updates ----------------------------------------------------------------------------------

  function UpdatedVM(s: State, vm: VmInfo): (s': State)
    requires vm.slotSize > 0
  {
    s.(vm := vm.SetUsing(s.vm.Using()))
  }

  function PluginStarting(s: State, now: int, resources: Resources): (s': State) {
    s.(plugin := s.plugin.(lastRequest := Some(PluginRequested(now, resources)), ongoingRequest := true))
  }

  function PluginFailed(s: State, now: int): (s': State) {
    s.(plugin := s.plugin.(ongoingRequest := false, lastFailureAt := Some(now)))
  }

  /** Whether the response to the last plugin request is taken over. */
  predicate PermitAccepted(s: State, permit: Resources)
    requires s.plugin.lastRequest.Some?
  {
    && permit.NonZero()
    && !permit.HasFieldGreaterThan(s.plugin.lastRequest.value.resources)
    && !permit.HasFieldLessThan(s.vm.Using())
  }

  function PluginSucceeded(s: State, now: int, permit: Resources): (s': State)
    requires s.plugin.lastRequest.Some?
  {
    if PermitAccepted(s, permit)
    then s.(plugin := s.plugin.(ongoingRequest := false, permit := Some(permit)))
    else PluginFailed(s, now)
  }

  function MonitorReset(s: State): (s': State) {
    s.(monitor := RESET_MONITOR)
  }

  function MonitorActive(s: State, active: bool): (s': State) {
    s.(monitor := s.monitor.(approved := if active then Some(s.vm.Using()) else None))
  }

  function UpscaleRequested(s: State, now: int, more: MoreResources): (s': State)
    requires s.monitor.approved.Some?
  {
    s.(monitor := s.monitor.(requestedUpscale := Some(RequestedUpscale(now, s.monitor.approved.value, more))))
  }

  function UpscaleStarting(s: State, resources: Resources): (s': State) {
    s.(monitor := s.monitor.(ongoingRequest := Some(OngoingMonitorRequest(Upscale, resources)), upscaleFailureAt := None))
  }

  /** An accepted upscale or downscale: the monitor is now aware of what was requested. */
  function MonitorRequestAccepted(s: State): (s': State)
    requires s.monitor.ongoingRequest.Some?
  {
    s.(monitor := s.monitor.(approved := Some(s.monitor.ongoingRequest.value.requested), ongoingRequest := None))
  }

  function UpscaleFailed(s: State, now: int): (s': State) {
    s.(monitor := s.monitor.(ongoingRequest := None, upscaleFailureAt := Some(now)))
  }

  function DownscaleStarting(s: State, resources: Resources): (s': State) {
    s.(monitor := s.monitor.(ongoingRequest := Some(OngoingMonitorRequest(Downscale, resources)), downscaleFailureAt := None))
  }

  function DownscaleDenied(s: State, now: int): (s': State)
    requires s.monitor.ongoingRequest.Some? && s.monitor.approved.Some?
  {
    var denied := DeniedDownscale(now, s.monitor.approved.value, s.monitor.ongoingRequest.value.requested);
    s.(monitor := s.monitor.(deniedDownscale := Some(denied), ongoingRequest := None))
  }

  function DownscaleFailed(s: State, now: int): (s': State) {
    s.(monitor := s.monitor.(ongoingRequest := None, downscaleFailureAt := Some(now)))
  }

  function NeonVMStarting(s: State, resources: Resources): (s': State) {
    s.(neonvm := s.neonvm.(ongoingRequested := Some(resources)))
  }

  function NeonVMSucceeded(s: State): (s': State)
    requires s.neonvm.ongoingRequested.Some? && s.vm.slotSize > 0
  {
    s.(vm := s.vm.SetUsing(s.neonvm.ongoingRequested.value), neonvm := s.neonvm.(ongoingRequested := None))
  }

  function NeonVMFailed(s: State, now: int): (s': State) {
    s.(neonvm := s.neonvm.(ongoingRequested := None, requestFailedAt := Some(now)))
  }

  // ---- the transition system --------------------------------------------------------------------

  datatype Step =
    | VMUpdate(vm: VmInfo)
    | MetricsUpdate(goal: Goal)
    | Reset
    | Active(active: bool)
    | RequestUpscale(at: int, more: MoreResources)
    | StartPlugin(now: int, at: int)
    | PluginFailure(at: int)
    | PluginReply(at: int, permit: Resources)
    | StartNeonVM(now: int)
    | NeonVMSuccess
    | NeonVMFailure(at: int)
    | StartUpscale(now: int)
    | UpscaleSuccess
    | UpscaleFailure(at: int)
    | StartDownscale(now: int)
    | DownscaleAllow
    | DownscaleDeny(at: int)
    | DownscaleFailure(at: int)

  predicate OngoingKind(s: State, kind: MonitorRequestKind) {
    s.monitor.ongoingRequest.Some? && s.monitor.ongoingRequest.value.kind == kind
  }

  /** The request the decision procedure would make right now, if it runs to completion. */
  function Proposed(s: State, now: int): (a: ActionSet)
    requires s.config.computeUnit.NonZero()
  {
    match NextActions(s, now)
    case Ok(a) => a
    case Panic(_) => ActionSet(None, None, None, None, None)
  }

  predicate Enabled(s: State, step: Step)
    requires s.config.computeUnit.NonZero()
  {
    match step
    case VMUpdate(vm) => vm.slotSize > 0
    case MetricsUpdate(_) => true
    case Reset => true
    case Active(_) => true
    case RequestUpscale(_, _) => s.monitor.approved.Some?
    case StartPlugin(now, _) => Proposed(s, now).pluginRequest.Some?
    case PluginFailure(_) => s.plugin.ongoingRequest
    case PluginReply(_, _) => s.plugin.ongoingRequest && s.plugin.lastRequest.Some?
    case StartNeonVM(now) => Proposed(s, now).neonvmRequest.Some?
    case NeonVMSuccess => s.neonvm.ongoingRequested.Some? && s.vm.slotSize > 0
    case NeonVMFailure(_) => s.neonvm.ongoingRequested.Some?
    case StartUpscale(now) => Proposed(s, now).monitorUpscale.Some?
    case UpscaleSuccess => OngoingKind(s, Upscale)
    case UpscaleFailure(_) => OngoingKind(s, Upscale)
    case StartDownscale(now) => Proposed(s, now).monitorDownscale.Some?
    case DownscaleAllow => OngoingKind(s, Downscale)
    case DownscaleDeny(_) => OngoingKind(s, Downscale) && s.monitor.approved.Some?
    case DownscaleFailure(_) => OngoingKind(s, Downscale)
  }

  function Apply(s: State, step: Step): (s': State)
    requires s.config.computeUnit.NonZero() && Enabled(s, step)
  {
    match step
    case VMUpdate(vm) => UpdatedVM(s, vm)
    case MetricsUpdate(goal) => s.(goal := goal)
    case Reset => MonitorReset(s)
    case Active(active) => MonitorActive(s, active)
    case RequestUpscale(at, more) => UpscaleRequested(s, at, more)
    case StartPlugin(now, at) => PluginStarting(s, at, Proposed(s, now).pluginRequest.value)
    case PluginFailure(at) => PluginFailed(s, at)
    case PluginReply(at, permit) => PluginSucceeded(s, at, permit)
    case StartNeonVM(now) => NeonVMStarting(s, Proposed(s, now).neonvmRequest.value.target)
    case NeonVMSuccess => NeonVMSucceeded(s)
    case NeonVMFailure(at) => NeonVMFailed(s, at)
    case StartUpscale(now) => UpscaleStarting(s, Proposed(s, now).monitorUpscale.value.target)
    case UpscaleSuccess => MonitorRequestAccepted(s)
    case UpscaleFailure(at) => UpscaleFailed(s, at)
    case StartDownscale(now) => DownscaleStarting(s, Proposed(s, now).monitorDownscale.value.target)
    case DownscaleAllow => MonitorRequestAccepted(s)
    case DownscaleDeny(at) => DownscaleDenied(s, at)
    case DownscaleFailure(at) => DownscaleFailed(s, at)
  }
}
