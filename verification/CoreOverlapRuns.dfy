/** Concrete runs of a fresh agent that end in each of the three overlaps: none of them is hypothetical. */
module CoreOverlapRuns {
  import opened Api
  import opened CoreState
  import opened CoreSteps
  import opened CoreProposals
  import opened CoreSafety

  const CAP: Resources := Resources(100, 0xFFFF)
  const CONFIG: Config := Config(Resources(1, 1), 5, 5, 5, 5, 5, 5, 5)

  function VmUsing(n: nat): (vm: VmInfo) {
    VmInfo(1, 9, n, 1, 9, n, 1)
  }

  function Units(n: nat): (r: Resources) {
    Resources(n, n)
  }

  function Fresh(using: nat, goal: nat): (s: State) {
    NewState(VmUsing(using), CONFIG, Goal(goal, true))
  }

  ghost predicate Reachable(start: State, s: State) {
    && start.config.computeUnit.NonZero()
    && exists steps :: ValidRun(start, steps, CAP) && Exec(start, steps, CAP) == s
  }

  /** A reachable state with an enabled step that is an overlap. */
  ghost predicate ReachesOverlap(start: State, s: State, step: Step) {
    && Reachable(start, s)
    && s.config.computeUnit.NonZero() && s.vm.slotSize > 0
    && Enabled(s, step) && Overlap(s, step)
  }

  lemma {:induction false} RunExtends(s: State, steps: seq<Step>, step: Step)
    requires s.config.computeUnit.NonZero() && ValidRun(s, steps, CAP)
    requires Exec(s, steps, CAP).config == s.config
    requires Enabled(Exec(s, steps, CAP), step) && EnvironmentOk(Exec(s, steps, CAP), step, CAP)
    ensures ValidRun(s, steps + [step], CAP)
    ensures Exec(s, steps + [step], CAP) == Apply(Exec(s, steps, CAP), step)
    decreases |steps|
  {
    if steps == [] {
      assert [step][1..] == [];
    } else {
      assert (steps + [step])[1..] == steps[1..] + [step];
      RunExtends(Apply(s, steps[0]), steps[1..], step);
    }
  }

  lemma ReachStart(s: State)
    requires s.config.computeUnit.NonZero()
    ensures Reachable(s, s)
  {
    assert ValidRun(s, [], CAP) && Exec(s, [], CAP) == s;
  }

  lemma ReachStep(start: State, s: State, step: Step)
    requires Reachable(start, s) && s.config == start.config
    requires Enabled(s, step) && EnvironmentOk(s, step, CAP)
    ensures Reachable(start, Apply(s, step))
  {
    var steps :| ValidRun(start, steps, CAP) && Exec(start, steps, CAP) == s;
    RunExtends(start, steps, step);
  }

  lemma UnitFacts(n: nat)
    requires n < 10
    ensures VmUsing(n).Sized() && VmUsing(n).Using() == Units(n)
    ensures VmUsing(n).MinResources() == Units(1) && VmUsing(n).MaxResources() == Units(9)
    ensures CONFIG.computeUnit.Mul(n) == Units(n)
    ensures forall k: nat :: k < 10 ==> VmUsing(n).SetUsing(Units(k)) == VmUsing(k)
    ensures Aligned(n, 1)
  {
    assert n == 1 * n;
  }

  /** The state `using` units, with the given goal, permit, in-flight NeonVM request and approval. */
  predicate InUnits(s: State, using: nat, goal: nat) {
    && s.config == CONFIG && s.vm == VmUsing(using) && s.goal == Goal(goal, true)
    && 1 <= using <= 9 && 1 <= goal <= 9
    && s.monitor.requestedUpscale.None? && s.monitor.deniedDownscale.None?
    && s.plugin.lastFailureAt.None? && s.neonvm.requestFailedAt.None?
    && s.monitor.upscaleFailureAt.None? && s.monitor.downscaleFailureAt.None?
  }

  /** The actions of such a state, calculation by calculation. */
  lemma ProposedInUnits(s: State, now: int, using: nat, goal: nat)
    requires InUnits(s, using, goal) && WellSized(s, CAP) && Safe(s)
    ensures NextActions(s, now).Ok?
    ensures CalculatePluginAction(s, now, Units(goal)).Ok?
    ensures Proposed(s, now).pluginRequest == CalculatePluginAction(s, now, Units(goal)).value.action
    ensures var requested := PluginRequestInView(s, Proposed(s, now).pluginRequest);
      && CalculateNeonVMAction(s, now, Units(goal), requested).Ok?
      && Proposed(s, now).neonvmRequest == CalculateNeonVMAction(s, now, Units(goal), requested).value.action
    ensures CalculateMonitorUpscaleAction(s, now, Units(goal)).Ok?
    ensures Proposed(s, now).monitorUpscale == CalculateMonitorUpscaleAction(s, now, Units(goal)).value.action
    ensures var planned := Proposed(s, now).monitorUpscale.Some?;
      && CalculateMonitorDownscaleAction(s, now, Units(goal), planned).Ok?
      && Proposed(s, now).monitorDownscale == CalculateMonitorDownscaleAction(s, now, Units(goal), planned).value.action
  {
    UnitFacts(using);
    UnitFacts(goal);
    assert DesiredResources(s, now) == Ok(Desired(Units(goal), false, false));
    NextActionsOutcome(s, now, CAP);
    DownscaleActionFacts(s, now, Units(goal), Proposed(s, now).monitorUpscale.Some?, CAP);
  }

  /** The two steps of asking the plugin and being granted all of it. */
  function Granted(s: State, now: int, n: nat): (s': State) {
    s.(plugin := PluginState(false, Some(PluginRequested(now, Units(n))), s.plugin.lastFailureAt, Some(Units(n))))
  }

  lemma ReachGranted(start: State, s: State, now: int, using: nat, goal: nat, n: nat)
    requires Reachable(start, s) && start.config == s.config
    requires InUnits(s, using, goal) && WellSized(s, CAP) && Safe(s) && using <= n < 10
    requires Proposed(s, now).pluginRequest == Some(Units(n))
    ensures Reachable(start, Granted(s, now, n))
    ensures WellSized(Granted(s, now, n), CAP)
  {
    UnitFacts(using);
    ReachStep(start, s, StartPlugin(now, now));
    var s1 := Apply(s, StartPlugin(now, now));
    StepKeepsSizes(s, StartPlugin(now, now), CAP);
    ReachStep(start, s1, PluginReply(now, Units(n)));
    StepKeepsSizes(s1, PluginReply(now, Units(n)), CAP);
    assert Apply(s1, PluginReply(now, Units(n))) == Granted(s, now, n);
  }

  /** A fresh agent of one unit that was granted its first permit and then asked for and was granted three units. */
  lemma ReachThreePermitted() returns (s: State)
    ensures Reachable(Fresh(1, 1), s) && InUnits(s, 1, 3) && WellSized(s, CAP) && Safe(s)
    ensures s == Granted(Fresh(1, 3), 1, 3)
  {
    var s0 := Fresh(1, 1);
    UnitFacts(1);
    NewStateKeepsInvariant(VmUsing(1), CONFIG, Goal(1, true), CAP);
    ReachStart(s0);
    ProposedInUnits(s0, 0, 1, 1);
    ReachGranted(s0, s0, 0, 1, 1, 1);
    var s1 := Granted(s0, 0, 1);
    ReachStep(s0, s1, MetricsUpdate(Goal(3, true)));
    var s2 := s1.(goal := Goal(3, true));
    ProposedInUnits(s2, 1, 1, 3);
    ReachGranted(s0, s2, 1, 1, 3, 3);
    s := Granted(s2, 1, 3);
  }

  lemma ReachIncreaseInFlight() returns (s: State)
    ensures Reachable(Fresh(1, 1), s) && InUnits(s, 1, 3) && WellSized(s, CAP) && Safe(s)
    ensures s == NeonVMStarting(Granted(Fresh(1, 3), 1, 3), Units(3))
  {
    UnitFacts(1);
    UnitFacts(3);
    var s1 := ReachThreePermitted();
    ProposedInUnits(s1, 2, 1, 3);
    assert Proposed(s1, 2).neonvmRequest == Some(ChangeAction(Units(1), Units(3)));
    ReachStep(Fresh(1, 1), s1, StartNeonVM(2));
    StepKeepsSizes(s1, StartNeonVM(2), CAP);
    s := NeonVMStarting(s1, Units(3));
  }

  /** (a): the agent asks for less while its NeonVM request for more is in flight, and is granted that. */
  lemma PermitBelowInFlightRequest() returns (s: State, step: Step)
    ensures step.PluginReply? && ReachesOverlap(Fresh(1, 1), s, step)
  {
    var s0 := Fresh(1, 1);
    UnitFacts(1);
    var s1 := ReachIncreaseInFlight();
    ReachStep(s0, s1, MetricsUpdate(Goal(1, true)));
    var s2 := s1.(goal := Goal(1, true));
    ProposedInUnits(s2, 3, 1, 1);
    assert Proposed(s2, 3).pluginRequest == Some(Units(1));
    ReachStep(s0, s2, StartPlugin(3, 3));
    s, step := PluginStarting(s2, 3, Units(1)), PluginReply(3, Units(1));
  }

  lemma ReachActive() returns (s: State)
    ensures Reachable(Fresh(3, 1), s) && InUnits(s, 3, 1) && WellSized(s, CAP) && Safe(s)
    ensures s == Fresh(3, 1).(monitor := RESET_MONITOR.(approved := Some(Units(3))))
  {
    var s0 := Fresh(3, 1);
    UnitFacts(3);
    NewStateKeepsInvariant(VmUsing(3), CONFIG, Goal(1, true), CAP);
    ReachStart(s0);
    ReachStep(s0, s0, Active(true));
    StepKeepsSizes(s0, Active(true), CAP);
    s := MonitorActive(s0, true);
  }

  /** An agent of three units whose monitor approved going down to two. */
  lemma ReachTwoApproved() returns (s: State)
    ensures Reachable(Fresh(3, 1), s) && InUnits(s, 3, 1) && WellSized(s, CAP) && Safe(s)
    ensures s == Fresh(3, 1).(monitor := RESET_MONITOR.(approved := Some(Units(2))))
  {
    var s0 := Fresh(3, 1);
    UnitFacts(1);
    UnitFacts(3);
    var s1 := ReachActive();
    ProposedInUnits(s1, 0, 3, 1);
    UpscaleTargetClosedForm(s1, Units(1), CAP);
    DownscaleTargetClosedForm(s1, Units(1));
    ReachStep(s0, s1, StartDownscale(0));
    StepKeepsSizes(s1, StartDownscale(0), CAP);
    var s2 := DownscaleStarting(s1, Units(2));
    ReachStep(s0, s2, DownscaleAllow);
    StepKeepsSizes(s2, DownscaleAllow, CAP);
    s := MonitorRequestAccepted(s2);
  }

  /** (b): the monitor reconnects while a NeonVM decrease that the previous connection approved is in flight. */
  lemma ActivationDuringDecrease() returns (s: State, step: Step)
    ensures step.Active? && ReachesOverlap(Fresh(3, 1), s, step)
  {
    var s0 := Fresh(3, 1);
    UnitFacts(3);
    var s1 := ReachTwoApproved();
    ProposedInUnits(s1, 0, 3, 1);
    ReachStep(s0, s1, StartNeonVM(0));
    var s2 := NeonVMStarting(s1, Units(2));
    ReachStep(s0, s2, Reset);
    s, step := MonitorReset(s2), Active(true);
  }

  /** An agent with an active monitor that has grown from one unit to three. */
  lemma ReachGrown() returns (s: State)
    ensures Reachable(Fresh(1, 1), s) && InUnits(s, 3, 3) && WellSized(s, CAP) && Safe(s)
    ensures s.plugin == Granted(Fresh(1, 3), 1, 3).plugin && s.neonvm.ongoingRequested.None?
    ensures s.monitor == RESET_MONITOR.(approved := Some(Units(1)))
  {
    var s0 := Fresh(1, 1);
    UnitFacts(1);
    UnitFacts(3);
    var s1 := ReachThreePermitted();
    ReachStep(s0, s1, Active(true));
    StepKeepsSizes(s1, Active(true), CAP);
    var s2 := MonitorActive(s1, true);
    ProposedInUnits(s2, 2, 1, 3);
    ReachStep(s0, s2, StartNeonVM(2));
    StepKeepsSizes(s2, StartNeonVM(2), CAP);
    var s3 := NeonVMStarting(s2, Units(3));
    ReachStep(s0, s3, NeonVMSuccess);
    StepKeepsSizes(s3, NeonVMSuccess, CAP);
    s := NeonVMSucceeded(s3);
  }

  lemma ReachUpscaleInFlight() returns (s: State)
    ensures Reachable(Fresh(1, 1), s) && InUnits(s, 3, 3) && WellSized(s, CAP) && Safe(s)
    ensures s.plugin == Granted(Fresh(1, 3), 1, 3).plugin && s.neonvm.ongoingRequested.None?
    ensures s.monitor == RESET_MONITOR.(approved := Some(Units(1)), ongoingRequest := Some(OngoingMonitorRequest(Upscale, Units(3))))
  {
    UnitFacts(3);
    var s1 := ReachGrown();
    ProposedInUnits(s1, 2, 3, 3);
    UpscaleTargetClosedForm(s1, Units(3), CAP);
    ReachStep(Fresh(1, 1), s1, StartUpscale(2));
    StepKeepsSizes(s1, StartUpscale(2), CAP);
    s := UpscaleStarting(s1, Units(3));
  }

  /** (c): the goal drops while the monitor is still being told about the increase. */
  lemma DecreaseDuringUpscale() returns (s: State, step: Step)
    ensures step.StartNeonVM? && ReachesOverlap(Fresh(1, 1), s, step)
  {
    var s0 := Fresh(1, 1);
    UnitFacts(1);
    UnitFacts(3);
    var s1 := ReachUpscaleInFlight();
    ReachStep(s0, s1, MetricsUpdate(Goal(1, true)));
    s, step := s1.(goal := Goal(1, true)), StartNeonVM(3);
    ProposedInUnits(s, 3, 3, 1);
    assert Proposed(s, 3).pluginRequest == None;
    assert Proposed(s, 3).neonvmRequest == Some(ChangeAction(Units(3), Units(1)));
  }
}
