/** The agent's state for one VM as it is kept and updated in place. */
module CoreHandles {
  import opened Api
  import opened CoreState
  import S = CoreSteps

  class ScalingState {
    const config: Config
    var vm: VmInfo
    var plugin: PluginState
    var monitor: MonitorState
    var neonvm: NeonVMState
    var goal: Goal

    function Value(): (s: State)
      reads this
    {
      State(config, vm, plugin, monitor, neonvm, goal)
    }

    constructor (vm: VmInfo, config: Config, goal: Goal)
      ensures Value() == NewState(vm, config, goal)
    {
      this.config := config;
      this.vm := vm;
      this.plugin := PluginState(false, None, None, None);
      this.monitor := RESET_MONITOR;
      this.neonvm := NeonVMState(None, None);
      this.goal := goal;
    }

    /** Consults the four calculations in turn and takes the shortest of the waits they ask for. */
    method ComputeActions(now: int) returns (r: Result<ActionSet>)
      requires config.computeUnit.NonZero()
      ensures r == NextActions(Value(), now)
    {
      var s := Value();
      var desired :- DesiredResources(s, now);
      var plugin :- CalculatePluginAction(s, now, desired.resources);
      var neonvm :- CalculateNeonVMAction(s, now, desired.resources, PluginRequestInView(s, plugin.action));
      var up :- CalculateMonitorUpscaleAction(s, now, desired.resources);
      var down :- CalculateMonitorDownscaleAction(s, now, desired.resources, up.action.Some?);
      var waits := [DesiredWait(s, now, desired, down.action), plugin.wait, neonvm.wait, up.wait, down.wait];
      var requiredWait := MAX_DURATION;
      for i := 0 to |waits|
        invariant requiredWait == ShortestWait(waits[..i])
      {
        assert waits[..i + 1][..i] == waits[..i];
        if waits[i].Some? {
          requiredWait := MinInt(requiredWait, waits[i].value);
        }
      }
      assert waits[..|waits|] == waits;
      r := Ok(ActionSet(if requiredWait != MAX_DURATION then Some(requiredWait) else None,
                        plugin.action, neonvm.action, down.action, up.action));
    }

    /** The usage known so far is kept: the reported one may be older than the last completed request. */
    method UpdatedVM(vm: VmInfo)
      requires vm.slotSize > 0
      modifies this`vm
      ensures Value() == S.UpdatedVM(old(Value()), vm)
    {
      this.vm := vm.SetUsing(this.vm.Using());
    }

    method UpdateMetrics(goal: Goal)
      modifies this`goal
      ensures Value() == old(Value()).(goal := goal)
    {
      this.goal := goal;
    }

    method PluginStartingRequest(now: int, resources: Resources)
      modifies this`plugin
      ensures Value() == S.PluginStarting(old(Value()), now, resources)
    {
      plugin := plugin.(lastRequest := Some(PluginRequested(now, resources)));
      plugin := plugin.(ongoingRequest := true);
    }

    method PluginRequestFailed(now: int)
      modifies this`plugin
      ensures Value() == S.PluginFailed(old(Value()), now)
    {
      plugin := plugin.(ongoingRequest := false);
      plugin := plugin.(lastFailureAt := Some(now));
    }

    /** A response outside the request or below the current usage is rejected and counts as a failure. */
    method PluginRequestSuccessful(now: int, permit: Resources) returns (accepted: bool)
      requires plugin.lastRequest.Some?
      modifies this`plugin
      ensures Value() == S.PluginSucceeded(old(Value()), now, permit)
      ensures accepted <==> old(S.PermitAccepted(Value(), permit))
      ensures accepted ==> vm.Using().Leq(permit) && permit.Leq(old(plugin).lastRequest.value.resources)
    {
      plugin := plugin.(ongoingRequest := false);
      if !permit.NonZero()
         || permit.HasFieldGreaterThan(plugin.lastRequest.value.resources)
         || permit.HasFieldLessThan(vm.Using())
      {
        plugin := plugin.(lastFailureAt := Some(now));
        return false;
      }
      plugin := plugin.(permit := Some(permit));
      return true;
    }

    method MonitorReset()
      modifies this`monitor
      ensures Value() == S.MonitorReset(old(Value()))
    {
      monitor := RESET_MONITOR;
    }

    method MonitorActive(active: bool)
      modifies this`monitor
      ensures Value() == S.MonitorActive(old(Value()), active)
    {
      if active {
        monitor := monitor.(approved := Some(vm.Using()));
      } else {
        monitor := monitor.(approved := None);
      }
    }

    method UpscaleRequested(now: int, more: MoreResources)
      requires monitor.approved.Some?
      modifies this`monitor
      ensures Value() == S.UpscaleRequested(old(Value()), now, more)
    {
      monitor := monitor.(requestedUpscale := Some(RequestedUpscale(now, monitor.approved.value, more)));
    }

    method StartingUpscaleRequest(resources: Resources)
      modifies this`monitor
      ensures Value() == S.UpscaleStarting(old(Value()), resources)
    {
      monitor := monitor.(ongoingRequest := Some(OngoingMonitorRequest(Upscale, resources)));
      monitor := monitor.(upscaleFailureAt := None);
    }

    method UpscaleRequestSuccessful()
      requires monitor.ongoingRequest.Some?
      modifies this`monitor
      ensures Value() == S.MonitorRequestAccepted(old(Value()))
    {
      monitor := monitor.(approved := Some(monitor.ongoingRequest.value.requested));
      monitor := monitor.(ongoingRequest := None);
    }

    method UpscaleRequestFailed(now: int)
      modifies this`monitor
      ensures Value() == S.UpscaleFailed(old(Value()), now)
    {
      monitor := monitor.(ongoingRequest := None);
      monitor := monitor.(upscaleFailureAt := Some(now));
    }

    method StartingDownscaleRequest(resources: Resources)
      modifies this`monitor
      ensures Value() == S.DownscaleStarting(old(Value()), resources)
    {
      monitor := monitor.(ongoingRequest := Some(OngoingMonitorRequest(Downscale, resources)));
      monitor := monitor.(downscaleFailureAt := None);
    }

    method DownscaleRequestAllowed()
      requires monitor.ongoingRequest.Some?
      modifies this`monitor
      ensures Value() == S.MonitorRequestAccepted(old(Value()))
    {
      monitor := monitor.(approved := Some(monitor.ongoingRequest.value.requested));
      monitor := monitor.(ongoingRequest := None);
    }

    method DownscaleRequestDenied(now: int)
      requires monitor.ongoingRequest.Some? && monitor.approved.Some?
      modifies this`monitor
      ensures Value() == S.DownscaleDenied(old(Value()), now)
    {
      monitor := monitor.(deniedDownscale := Some(
                            DeniedDownscale(now, monitor.approved.value, monitor.ongoingRequest.value.requested)));
      monitor := monitor.(ongoingRequest := None);
    }

    method DownscaleRequestFailed(now: int)
      modifies this`monitor
      ensures Value() == S.DownscaleFailed(old(Value()), now)
    {
      monitor := monitor.(ongoingRequest := None);
      monitor := monitor.(downscaleFailureAt := Some(now));
    }

    method NeonVMStartingRequest(resources: Resources)
      modifies this`neonvm
      ensures Value() == S.NeonVMStarting(old(Value()), resources)
    {
      neonvm := neonvm.(ongoingRequested := Some(resources));
    }

    /** The VM is taken to use what was requested as soon as the request succeeded. */
    method NeonVMRequestSuccessful()
      requires neonvm.ongoingRequested.Some? && vm.slotSize > 0
      modifies this`vm, this`neonvm
      ensures Value() == S.NeonVMSucceeded(old(Value()))
    {
      vm := vm.SetUsing(neonvm.ongoingRequested.value);
      neonvm := neonvm.(ongoingRequested := None);
    }

    method NeonVMRequestFailed(now: int)
      modifies this`neonvm
      ensures Value() == S.NeonVMFailed(old(Value()), now)
    {
      neonvm := neonvm.(ongoingRequested := None);
      neonvm := neonvm.(requestFailedAt := Some(now));
    }
  }
}
