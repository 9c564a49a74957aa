/**
 * The cooldown after a denied downscale: with a clock that never goes back and a monitor that becomes
 * active only after a reset, no run reaches the guard that panics about a repeated denied request.
 */
module CoreCooldown {
  import opened Api
  import opened CoreState
  import opened CoreSteps
  import opened CoreProposals
  import opened CoreSafety

  /** The moment at which a step consults the decision procedure, if it does; otherwise the clock stays. */
  function ClockAfter(clock: int, step: Step): (c: int) {
    match step
    case StartPlugin(now, _) => now
    case StartNeonVM(now) => now
    case StartUpscale(now) => now
    case StartDownscale(now) => now
    case _ => clock
  }

  ghost predicate Disciplined(s: State, step: Step, clock: int) {
    && clock <= ClockAfter(clock, step)
    && (step.Active? ==> step.active && s.monitor == RESET_MONITOR)
  }

  // ---- the invariant ----------------------------------------------------------------------------

  ghost predicate MonitorConsistent(m: MonitorState) {
    && (m.ongoingRequest.Some? ==> m.approved.Some?)
    && (m.deniedDownscale.Some? ==> m.approved.Some?)
    && (m.ongoingRequest.Some? ==>
          var r := m.ongoingRequest.value;
          if r.kind == Downscale then r.requested.Leq(m.approved.value) && r.requested != m.approved.value
          else m.approved.value.Leq(r.requested))
    && (m.deniedDownscale.Some? ==>
          var d := m.deniedDownscale.value;
          d.requested.Leq(d.current) && d.requested != d.current)
  }

  /** `r` stays above what was denied, in every field the denied request tried to lower. */
  ghost predicate Above(d: DeniedDownscale, r: Resources) {
    && (d.requested.vcpu < d.current.vcpu ==> d.requested.vcpu < r.vcpu)
    && (d.requested.mem < d.current.mem ==> d.requested.mem < r.mem)
  }

  ghost predicate Protected(s: State, clock: int) {
    s.monitor.deniedDownscale.Some? && TimeUntilDeniedDownscaleExpired(s, clock) > 0 ==>
      && (s.monitor.approved.Some? ==> Above(s.monitor.deniedDownscale.value, s.monitor.approved.value))
      && (s.monitor.ongoingRequest.Some? ==> Above(s.monitor.deniedDownscale.value, s.monitor.ongoingRequest.value.requested))
  }

  ghost predicate CooldownInv(s: State, clock: int, cap: Resources) {
    WellSized(s, cap) && MonitorConsistent(s.monitor) && Protected(s, clock)
  }

  // ---- one calculation --------------------------------------------------------------------------

  /** While the cooldown lasts, the downscale that would be requested exceeds the denied one. */
  lemma DownscaleExceedsDenied(s: State, clock: int, now: int, cap: Resources)
    requires CooldownInv(s, clock, cap) && clock <= now
    requires TimeUntilDeniedDownscaleExpired(s, now) > 0
    ensures s.monitor.approved.Some? && DesiredResources(s, now).Ok?
    ensures var d := s.monitor.deniedDownscale.value;
      var r := DownscaleTarget(s, DesiredResources(s, now).value.resources);
      r.Ok? && Above(d, r.value) && d.requested.HasFieldLessThan(r.value)
  {
    DesiredSucceeds(s, now, cap);
    MinRequiredFits(s.config.computeUnit, s.monitor.deniedDownscale.value, s.vm.slotSize, cap);
    DownscaleTargetClosedForm(s, DesiredResources(s, now).value.resources);
  }

  lemma NeverTooSoon(s: State, clock: int, now: int, cap: Resources)
    requires CooldownInv(s, clock, cap) && clock <= now
    ensures NextActions(s, now) != Panic(DeniedDownscaleTooSoon)
  {
    DesiredSucceeds(s, now, cap);
    var d := DesiredResources(s, now).value.resources;
    PluginActionFacts(s, now, d, cap);
    NeonVMActionFacts(s, now, d, PluginRequestInView(s, CalculatePluginAction(s, now, d).value.action), cap);
    UpscaleActionFacts(s, now, d, cap);
    if TimeUntilDeniedDownscaleExpired(s, now) > 0 {
      DownscaleExceedsDenied(s, clock, now, cap);
    }
  }

  // ---- one step ---------------------------------------------------------------------------------

  lemma StartDownscaleKeepsCooldown(s: State, now: int, clock: int, cap: Resources)
    requires CooldownInv(s, clock, cap) && clock <= now && Enabled(s, StartDownscale(now))
    ensures CooldownInv(Apply(s, StartDownscale(now)), now, cap)
  {
    StepKeepsSizes(s, StartDownscale(now), cap);
    ProposalFacts(s, now, cap);
    if TimeUntilDeniedDownscaleExpired(s, now) > 0 {
      DownscaleExceedsDenied(s, clock, now, cap);
      DownscaleTargetClosedForm(s, DesiredResources(s, now).value.resources);
    }
  }

  lemma StartUpscaleKeepsCooldown(s: State, now: int, clock: int, cap: Resources)
    requires CooldownInv(s, clock, cap) && clock <= now && Enabled(s, StartUpscale(now))
    ensures CooldownInv(Apply(s, StartUpscale(now)), now, cap)
  {
    StepKeepsSizes(s, StartUpscale(now), cap);
    ProposalFacts(s, now, cap);
  }

  /** The other steps leave the monitor's state alone, reset it, or end a request. */
  lemma OtherStepKeepsMonitor(s: State, step: Step, clock: int)
    requires s.config.computeUnit.NonZero() && MonitorConsistent(s.monitor) && Protected(s, clock)
    requires Enabled(s, step) && Disciplined(s, step, clock) && !step.StartUpscale? && !step.StartDownscale?
    ensures MonitorConsistent(Apply(s, step).monitor) && Protected(Apply(s, step), ClockAfter(clock, step))
  {
  }

  lemma StepKeepsCooldown(s: State, step: Step, clock: int, cap: Resources)
    requires CooldownInv(s, clock, cap) && Enabled(s, step) && EnvironmentOk(s, step, cap) && Disciplined(s, step, clock)
    ensures CooldownInv(Apply(s, step), ClockAfter(clock, step), cap)
  {
    match step
    case StartUpscale(now) => StartUpscaleKeepsCooldown(s, now, clock, cap);
    case StartDownscale(now) => StartDownscaleKeepsCooldown(s, now, clock, cap);
    case _ =>
      StepKeepsSizes(s, step, cap);
      OtherStepKeepsMonitor(s, step, clock);
  }

  // ---- whole runs -------------------------------------------------------------------------------

  ghost predicate DisciplinedRun(s: State, steps: seq<Step>, clock: int, cap: Resources)
    requires s.config.computeUnit.NonZero() && ValidRun(s, steps, cap)
    decreases |steps|
  {
    steps != [] ==>
      && Disciplined(s, steps[0], clock)
      && DisciplinedRun(Apply(s, steps[0]), steps[1..], ClockAfter(clock, steps[0]), cap)
  }

  function ClockAfterRun(clock: int, steps: seq<Step>): (c: int)
    decreases |steps|
  {
    if steps == [] then clock else ClockAfterRun(ClockAfter(clock, steps[0]), steps[1..])
  }

  lemma {:induction false} RunKeepsCooldown(s: State, steps: seq<Step>, clock: int, cap: Resources)
    requires CooldownInv(s, clock, cap) && ValidRun(s, steps, cap) && DisciplinedRun(s, steps, clock, cap)
    ensures CooldownInv(Exec(s, steps, cap), ClockAfterRun(clock, steps), cap)
    decreases |steps|
  {
    if steps != [] {
      StepKeepsCooldown(s, steps[0], clock, cap);
      RunKeepsCooldown(Apply(s, steps[0]), steps[1..], ClockAfter(clock, steps[0]), cap);
    }
  }

  /**
   * In every disciplined run, with or without overlaps, the guard about repeated denied downscales is
   * never reached, and a downscale proposed during the cooldown asks for more than was denied in every
   * field that the denied request tried to lower.
   */
  lemma CooldownIsRespected(
    vm: VmInfo, config: Config, goal: Goal, steps: seq<Step>, clock: int, now: int, cap: Resources)
    requires ConfigOk(config.computeUnit, vm.slotSize, cap) && VmOk(vm, cap)
    requires var s0 := NewState(vm, config, goal);
      ValidRun(s0, steps, cap) && DisciplinedRun(s0, steps, clock, cap)
    requires ClockAfterRun(clock, steps) <= now
    ensures var s := Exec(NewState(vm, config, goal), steps, cap);
      && s.config.computeUnit.NonZero()
      && NextActions(s, now) != Panic(DeniedDownscaleTooSoon)
      && (TimeUntilDeniedDownscaleExpired(s, now) > 0 && Proposed(s, now).monitorDownscale.Some? ==>
            && Above(s.monitor.deniedDownscale.value, Proposed(s, now).monitorDownscale.value.target)
            && s.monitor.deniedDownscale.value.requested.HasFieldLessThan(Proposed(s, now).monitorDownscale.value.target))
  {
    var s0 := NewState(vm, config, goal);
    NewStateKeepsInvariant(vm, config, goal, cap);
    RunKeepsCooldown(s0, steps, clock, cap);
    var s := Exec(s0, steps, cap);
    NeverTooSoon(s, ClockAfterRun(clock, steps), now, cap);
    if TimeUntilDeniedDownscaleExpired(s, now) > 0 && Proposed(s, now).monitorDownscale.Some? {
      ProposalFacts(s, now, cap);
      DownscaleExceedsDenied(s, ClockAfterRun(clock, steps), now, cap);
      DownscaleTargetClosedForm(s, DesiredResources(s, now).value.resources);
    }
  }

  /** Both disciplines together: no guard of the decision procedure ever fires. */
  lemma DecisionsNeverPanic(
    vm: VmInfo, config: Config, goal: Goal, steps: seq<Step>, clock: int, now: int, cap: Resources)
    requires ConfigOk(config.computeUnit, vm.slotSize, cap) && VmOk(vm, cap)
    requires var s0 := NewState(vm, config, goal);
      && WellSized(s0, cap) && ValidRun(s0, steps, cap)
      && OverlapFree(s0, steps, cap) && DisciplinedRun(s0, steps, clock, cap)
    requires ClockAfterRun(clock, steps) <= now
    ensures var s := Exec(NewState(vm, config, goal), steps, cap);
      s.config.computeUnit.NonZero() && NextActions(s, now).Ok?
  {
    RunsAreSafe(vm, config, goal, steps, now, cap);
    CooldownIsRespected(vm, config, goal, steps, clock, now, cap);
  }
}
