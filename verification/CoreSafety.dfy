/**
 * Safety of the scaling state machine over whole runs: what the monitor approved never exceeds what the
 * VM uses, which never exceeds what the plugin permits; and exactly which overlaps of requests break it.
 */
module CoreSafety {
  import opened Api
  import opened CoreState
  import opened CoreSteps
  import opened CoreProposals

  // ---- assumptions about the environment --------------------------------------------------------

  /** VM updates keep the slot size and give bounds in order and within `cap`. */
  ghost predicate EnvironmentOk(s: State, step: Step, cap: Resources) {
    step.VMUpdate? ==>
      && step.vm.Sized()
      && step.vm.slotSize == s.vm.slotSize
      && step.vm.MinResources().Leq(step.vm.MaxResources())
      && step.vm.cpuMax <= cap.vcpu
  }

  /** What the VM will use once the NeonVM request in flight, if any, has gone through. */
  function Landing(s: State): (r: Resources)
    requires s.vm.slotSize > 0
  {
    if s.neonvm.ongoingRequested.Some? then s.vm.SetUsing(s.neonvm.ongoingRequested.value).Using() else s.vm.Using()
  }

  /**
   * The overlaps of requests that the agent does not exclude:
   * (a) a permit below an in-flight NeonVM request is accepted;
   * (b) the monitor becomes active while a NeonVM decrease is in flight;
   * (c) a monitor upscale and a NeonVM request for less than it are in flight together.
   */
  predicate Overlap(s: State, step: Step)
    requires s.config.computeUnit.NonZero() && s.vm.slotSize > 0 && Enabled(s, step)
  {
    match step
    case PluginReply(_, permit) => PermitAccepted(s, permit) && permit.HasFieldLessThan(Landing(s))
    case Active(active) => active && Landing(s).HasFieldLessThan(s.vm.Using())
    case StartUpscale(now) => Landing(s).HasFieldLessThan(Proposed(s, now).monitorUpscale.value.target)
    case StartNeonVM(_) => OngoingKind(s, Upscale)
                           && Landing(Apply(s, step)).HasFieldLessThan(s.monitor.ongoingRequest.value.requested)
    case _ => false
  }

  // ---- the invariant ----------------------------------------------------------------------------

  /** `x` bounds the VM from below, now and after the NeonVM request in flight. */
  ghost predicate Floor(s: State, x: Resources)
    requires s.vm.slotSize > 0
  {
    x.Leq(s.vm.Using()) && x.Leq(Landing(s))
  }

  ghost predicate Ordered(s: State)
    requires s.vm.slotSize > 0
  {
    && (s.monitor.approved.Some? ==> Floor(s, s.monitor.approved.value))
    && (s.monitor.ongoingRequest.Some? ==> Floor(s, s.monitor.ongoingRequest.value.requested))
    && (OngoingKind(s, Downscale) && s.monitor.approved.Some? ==>
          s.monitor.ongoingRequest.value.requested.Leq(s.monitor.approved.value))
    && s.vm.Using().Leq(PluginApprovedUpperBound(s))
    && Landing(s).Leq(PluginApprovedUpperBound(s))
  }

  ghost predicate Inv(s: State, cap: Resources) {
    WellSized(s, cap) && Ordered(s)
  }

  // ---- sizes are kept by every step -------------------------------------------------------------

  lemma VMUpdateKeepsUsing(s: State, vm: VmInfo, cap: Resources)
    requires WellSized(s, cap) && EnvironmentOk(s, VMUpdate(vm), cap)
    ensures UpdatedVM(s, vm).vm.Using() == s.vm.Using()
    ensures VmOk(UpdatedVM(s, vm).vm, cap)
    ensures forall r: Resources :: UpdatedVM(s, vm).vm.SetUsing(r).Using() == s.vm.SetUsing(r).Using()
  {
    FitsUsing(s.vm, cap);
    SetUsingMemory(vm, s.vm.Using());
    UsingExact(s.vm);
    DivisionOfProduct(s.vm.slotSize, s.vm.memUse);
  }

  predicate IsStart(step: Step) {
    step.StartPlugin? || step.StartNeonVM? || step.StartUpscale? || step.StartDownscale?
  }

  lemma StartKeepsSizes(s: State, step: Step, cap: Resources)
    requires WellSized(s, cap) && IsStart(step) && Enabled(s, step)
    ensures WellSized(Apply(s, step), cap)
  {
    ProposalFacts(s, step.now, cap);
  }

  lemma VMUpdateKeepsSizes(s: State, vm: VmInfo, cap: Resources)
    requires WellSized(s, cap) && EnvironmentOk(s, VMUpdate(vm), cap)
    ensures vm.slotSize > 0 && WellSized(UpdatedVM(s, vm), cap)
  {
    VMUpdateKeepsUsing(s, vm, cap);
  }

  lemma NeonVMSuccessKeepsSizes(s: State, cap: Resources)
    requires WellSized(s, cap) && Enabled(s, NeonVMSuccess)
    ensures WellSized(NeonVMSucceeded(s), cap)
  {
    SetUsingMemory(s.vm, s.neonvm.ongoingRequested.value);
  }

  lemma ActiveKeepsSizes(s: State, active: bool, cap: Resources)
    requires WellSized(s, cap)
    ensures WellSized(MonitorActive(s, active), cap)
  {
    FitsUsing(s.vm, cap);
  }

  lemma StepKeepsSizes(s: State, step: Step, cap: Resources)
    requires WellSized(s, cap) && Enabled(s, step) && EnvironmentOk(s, step, cap)
    ensures WellSized(Apply(s, step), cap)
  {
    if IsStart(step) {
      StartKeepsSizes(s, step, cap);
    } else {
      match step
      case VMUpdate(vm) => VMUpdateKeepsSizes(s, vm, cap);
      case NeonVMSuccess => NeonVMSuccessKeepsSizes(s, cap);
      case Active(active) => ActiveKeepsSizes(s, active, cap);
      case _ =>
    }
  }

  // ---- the order is kept exactly by the steps that are no overlap -------------------------------

  lemma NeonVMStartKeepsOrder(s: State, now: int, cap: Resources)
    requires Inv(s, cap) && Enabled(s, StartNeonVM(now))
    ensures Ordered(Apply(s, StartNeonVM(now))) <==> !Overlap(s, StartNeonVM(now))
  {
    ProposalFacts(s, now, cap);
    var t := Proposed(s, now).neonvmRequest.value.target;
    SetUsingLands(s.vm, t);
    FitsUsing(s.vm, cap);
  }

  lemma NeonVMSuccessKeepsOrder(s: State, cap: Resources)
    requires Inv(s, cap) && Enabled(s, NeonVMSuccess)
    ensures Ordered(Apply(s, NeonVMSuccess))
    ensures Apply(s, NeonVMSuccess).vm.Using() == Landing(s)
  {
  }

  lemma VMUpdateKeepsOrder(s: State, vm: VmInfo, cap: Resources)
    requires Inv(s, cap) && EnvironmentOk(s, VMUpdate(vm), cap)
    ensures Ordered(UpdatedVM(s, vm))
  {
    VMUpdateKeepsUsing(s, vm, cap);
  }

  /** Replies and changes of the monitor need no calculation. */
  lemma OtherStepKeepsOrder(s: State, step: Step)
    requires s.config.computeUnit.NonZero() && s.vm.slotSize > 0 && Ordered(s) && Enabled(s, step)
    requires !IsStart(step) && !step.VMUpdate? && !step.NeonVMSuccess?
    ensures Ordered(Apply(s, step)) <==> !Overlap(s, step)
  {
  }

  lemma ProposalKeepsOrder(s: State, step: Step, cap: Resources)
    requires Inv(s, cap) && Enabled(s, step) && (step.StartPlugin? || step.StartUpscale? || step.StartDownscale?)
    ensures Ordered(Apply(s, step)) <==> !Overlap(s, step)
  {
    ProposalFacts(s, step.now, cap);
  }

  /** From a state that keeps the invariant, a step keeps it if and only if it is not one of the overlaps. */
  lemma StepKeepsInvariantIff(s: State, step: Step, cap: Resources)
    requires Inv(s, cap) && Enabled(s, step) && EnvironmentOk(s, step, cap)
    ensures Inv(Apply(s, step), cap) <==> !Overlap(s, step)
  {
    StepKeepsSizes(s, step, cap);
    match step
    case VMUpdate(vm) => VMUpdateKeepsOrder(s, vm, cap);
    case StartPlugin(_, _) => ProposalKeepsOrder(s, step, cap);
    case StartNeonVM(now) => NeonVMStartKeepsOrder(s, now, cap);
    case StartUpscale(_) => ProposalKeepsOrder(s, step, cap);
    case StartDownscale(_) => ProposalKeepsOrder(s, step, cap);
    case NeonVMSuccess => NeonVMSuccessKeepsOrder(s, cap);
    case _ => OtherStepKeepsOrder(s, step);
  }

  // ---- whole runs -------------------------------------------------------------------------------

  ghost predicate ValidRun(s: State, steps: seq<Step>, cap: Resources)
    requires s.config.computeUnit.NonZero()
    decreases |steps|
  {
    steps != [] ==>
      && Enabled(s, steps[0]) && EnvironmentOk(s, steps[0], cap)
      && ValidRun(Apply(s, steps[0]), steps[1..], cap)
  }

  function Exec(s: State, steps: seq<Step>, ghost cap: Resources): (s': State)
    requires s.config.computeUnit.NonZero() && ValidRun(s, steps, cap)
    ensures s'.config == s.config
    decreases |steps|
  {
    if steps == [] then s else Exec(Apply(s, steps[0]), steps[1..], cap)
  }

  ghost predicate OverlapFree(s: State, steps: seq<Step>, cap: Resources)
    requires WellSized(s, cap) && ValidRun(s, steps, cap)
    decreases |steps|
  {
    StepKeepsSizesIfAny(s, steps, cap);
    steps == [] || (!Overlap(s, steps[0]) && OverlapFree(Apply(s, steps[0]), steps[1..], cap))
  }

  lemma StepKeepsSizesIfAny(s: State, steps: seq<Step>, cap: Resources)
    requires WellSized(s, cap) && ValidRun(s, steps, cap)
    ensures steps != [] ==> WellSized(Apply(s, steps[0]), cap)
  {
    if steps != [] {
      StepKeepsSizes(s, steps[0], cap);
    }
  }

  /** A fresh agent for a VM within the size limits. */
  lemma NewStateKeepsInvariant(vm: VmInfo, config: Config, goal: Goal, cap: Resources)
    requires ConfigOk(config.computeUnit, vm.slotSize, cap) && VmOk(vm, cap)
    ensures Inv(NewState(vm, config, goal), cap)
  {
  }

  lemma {:induction false} RunKeepsInvariant(s: State, steps: seq<Step>, cap: Resources)
    requires Inv(s, cap) && ValidRun(s, steps, cap) && OverlapFree(s, steps, cap)
    ensures Inv(Exec(s, steps, cap), cap)
    decreases |steps|
  {
    if steps != [] {
      StepKeepsInvariantIff(s, steps[0], cap);
      RunKeepsInvariant(Apply(s, steps[0]), steps[1..], cap);
    }
  }

  /**
   * Every run of a fresh agent that is free of the three overlaps keeps approved <= using <= permit, never
   * trips a guard of the decision procedure other than the one about denied downscales, and proposes
   * NeonVM targets only within those bounds and below every plugin request in view.
   */
  lemma RunsAreSafe(vm: VmInfo, config: Config, goal: Goal, steps: seq<Step>, now: int, cap: Resources)
    requires ConfigOk(config.computeUnit, vm.slotSize, cap) && VmOk(vm, cap)
    requires var s0 := NewState(vm, config, goal);
      WellSized(s0, cap) && ValidRun(s0, steps, cap) && OverlapFree(s0, steps, cap)
    ensures var s := Exec(NewState(vm, config, goal), steps, cap);
      && Safe(s)
      && WellSized(s, cap)
      && (NextActions(s, now).Ok? || NextActions(s, now) == Panic(DeniedDownscaleTooSoon))
      && (NextActions(s, now).Ok? ==>
            && DesiredResources(s, now).Ok?
            && ProposalsWithinBounds(s, NextActions(s, now).value, DesiredResources(s, now).value.resources, cap))
  {
    var s0 := NewState(vm, config, goal);
    NewStateKeepsInvariant(vm, config, goal, cap);
    RunKeepsInvariant(s0, steps, cap);
    var s := Exec(s0, steps, cap);
    NextActionsOutcome(s, now, cap);
    if NextActions(s, now).Ok? {
      ProposalFacts(s, now, cap);
    }
  }

  // ---- each overlap leads to an unsafe state ----------------------------------------------------

  /** The replies that turn an overlap into a broken bound. */
  function Aftermath(step: Step): (steps: seq<Step>) {
    if step.StartUpscale? || step.StartNeonVM? then [NeonVMSuccess, UpscaleSuccess] else [NeonVMSuccess]
  }

  lemma RunOne(s: State, a: Step, cap: Resources)
    requires s.config.computeUnit.NonZero() && Enabled(s, a) && EnvironmentOk(s, a, cap)
    ensures ValidRun(s, [a], cap) && Exec(s, [a], cap) == Apply(s, a)
  {
    assert [a][1..] == [];
  }

  lemma RunTwo(s: State, a: Step, b: Step, cap: Resources)
    requires s.config.computeUnit.NonZero() && Enabled(s, a) && EnvironmentOk(s, a, cap)
    requires Apply(s, a).config.computeUnit.NonZero()
    requires Enabled(Apply(s, a), b) && EnvironmentOk(Apply(s, a), b, cap)
    ensures ValidRun(s, [a, b], cap) && Exec(s, [a, b], cap) == Apply(Apply(s, a), b)
  {
    assert [a, b][1..] == [b];
    RunOne(Apply(s, a), b, cap);
  }

  /** Overlaps (a) and (b): the NeonVM request lands outside the bounds. */
  lemma LandingBreaksSafety(s: State, step: Step, now: int, cap: Resources)
    requires Inv(s, cap) && Enabled(s, step) && EnvironmentOk(s, step, cap) && Overlap(s, step)
    requires step.PluginReply? || step.Active?
    ensures ValidRun(Apply(s, step), [NeonVMSuccess], cap)
    ensures var s' := Exec(Apply(s, step), [NeonVMSuccess], cap);
      && !Safe(s')
      && s'.config.computeUnit.NonZero()
      && NextActions(s', now) == Panic(InvalidClampArguments)
  {
    var s1 := Apply(s, step);
    StepKeepsSizes(s, step, cap);
    StepKeepsSizes(s1, NeonVMSuccess, cap);
    RunOne(s1, NeonVMSuccess, cap);
    NextActionsOutcome(Apply(s1, NeonVMSuccess), now, cap);
  }

  /** Both requests are in flight, and the NeonVM one would land below the other. */
  ghost predicate InFlightBelow(s: State, cap: Resources) {
    && WellSized(s, cap) && s.neonvm.ongoingRequested.Some? && OngoingKind(s, Upscale)
    && Landing(s).HasFieldLessThan(s.monitor.ongoingRequest.value.requested)
  }

  lemma OverlapIsInFlight(s: State, step: Step, cap: Resources)
    requires Inv(s, cap) && Enabled(s, step) && EnvironmentOk(s, step, cap) && Overlap(s, step)
    requires step.StartUpscale? || step.StartNeonVM?
    ensures InFlightBelow(Apply(s, step), cap)
  {
    StepKeepsSizes(s, step, cap);
    ProposalFacts(s, step.now, cap);
  }

  lemma UpscaleLandsAbove(s1: State, cap: Resources)
    requires InFlightBelow(s1, cap)
    ensures Enabled(s1, NeonVMSuccess)
      && var s2 := Apply(s1, NeonVMSuccess);
         && WellSized(s2, cap) && Enabled(s2, UpscaleSuccess)
         && var s3 := Apply(s2, UpscaleSuccess);
            WellSized(s3, cap) && !Safe(s3)
  {
    var s2 := Apply(s1, NeonVMSuccess);
    StepKeepsSizes(s1, NeonVMSuccess, cap);
    StepKeepsSizes(s2, UpscaleSuccess, cap);
  }

  /** Overlap (c): the NeonVM request lands below what the monitor then approves. */
  lemma UpscaleOverlapBreaksSafety(s: State, step: Step, now: int, cap: Resources)
    requires Inv(s, cap) && Enabled(s, step) && EnvironmentOk(s, step, cap) && Overlap(s, step)
    requires step.StartUpscale? || step.StartNeonVM?
    ensures ValidRun(Apply(s, step), [NeonVMSuccess, UpscaleSuccess], cap)
    ensures var s' := Exec(Apply(s, step), [NeonVMSuccess, UpscaleSuccess], cap);
      && !Safe(s')
      && s'.config.computeUnit.NonZero()
      && NextActions(s', now) == Panic(InvalidClampArguments)
  {
    OverlapIsInFlight(s, step, cap);
    var s1 := Apply(s, step);
    UpscaleLandsAbove(s1, cap);
    RunTwo(s1, NeonVMSuccess, UpscaleSuccess, cap);
    NextActionsOutcome(Apply(Apply(s1, NeonVMSuccess), UpscaleSuccess), now, cap);
  }

  /**
   * The condition is exact: after any overlap, the replies to the requests then in flight lead to a state
   * where the bounds are broken and the decision procedure panics at every moment.
   */
  lemma OverlapBreaksSafety(s: State, step: Step, now: int, cap: Resources)
    requires Inv(s, cap) && Enabled(s, step) && EnvironmentOk(s, step, cap) && Overlap(s, step)
    ensures ValidRun(Apply(s, step), Aftermath(step), cap)
    ensures var s' := Exec(Apply(s, step), Aftermath(step), cap);
      && !Safe(s')
      && s'.config.computeUnit.NonZero()
      && NextActions(s', now) == Panic(InvalidClampArguments)
  {
    if step.StartUpscale? || step.StartNeonVM? {
      UpscaleOverlapBreaksSafety(s, step, now, cap);
    } else {
      LandingBreaksSafety(s, step, now, cap);
    }
  }
}
