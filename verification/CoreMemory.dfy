/**
 * What the agent is told, it remembers for as long as it is configured to, counted from the moment it was told:
 * over every run, whatever else happens in between.
 */
module CoreMemory {
  import opened Api
  import opened CoreState
  import opened CoreSteps
  import opened CoreProposals
  import opened CoreSafety
  import opened CoreProgress
  import opened CoreDecision
  import opened CoreDemand
  import opened CoreCooldown

  // ---- denied downscales ------------------------------------------------------------------------

  /** The monitor neither denies another downscale nor is reset. */
  predicate NoNewDenial(steps: seq<Step>) {
    forall i :: 0 <= i < |steps| ==> !steps[i].DownscaleDeny? && !steps[i].Reset?
  }

  lemma {:induction false} DenialIsRemembered(s: State, steps: seq<Step>, cap: Resources)
    requires s.config.computeUnit.NonZero() && ValidRun(s, steps, cap) && NoNewDenial(steps)
    ensures Exec(s, steps, cap).monitor.deniedDownscale == s.monitor.deniedDownscale
    decreases |steps|
  {
    if steps != [] {
      DenialIsRemembered(Apply(s, steps[0]), steps[1..], cap);
    }
  }

  /** More than `denied` in some field, and in each field where `denied` was less than `approved`. */
  predicate GivesUpLess(target: Resources, denied: Resources, approved: Resources) {
    && denied.HasFieldLessThan(target)
    && (denied.vcpu < approved.vcpu ==> denied.vcpu < target.vcpu)
    && (denied.mem < approved.mem ==> denied.mem < target.mem)
  }

  /**
   * After a downscale was denied at `at`, and until the next denial or reset, every downscale proposed before the
   * cooldown is over, counted from `at`, asks for more than was denied.
   */
  lemma DenialIsRespected(
    vm: VmInfo, config: Config, goal: Goal, before: seq<Step>, at: int, after: seq<Step>, clock: int, now: int,
    cap: Resources)
    requires ConfigOk(config.computeUnit, vm.slotSize, cap) && VmOk(vm, cap)
    requires var s0 := NewState(vm, config, goal);
      && ValidRun(s0, before, cap) && DisciplinedRun(s0, before, clock, cap)
      && var s := Exec(s0, before, cap);
         && Enabled(s, DownscaleDeny(at))
         && var s1 := Apply(s, DownscaleDeny(at));
            && ValidRun(s1, after, cap)
            && DisciplinedRun(s1, after, ClockAfterRun(clock, before), cap)
    requires NoNewDenial(after)
    requires ClockAfterRun(ClockAfterRun(clock, before), after) <= now < at + config.monitorDeniedDownscaleCooldown
    ensures var s := Exec(NewState(vm, config, goal), before, cap);
      var s' := Exec(Apply(s, DownscaleDeny(at)), after, cap);
      && NextActions(s', now) != Panic(DeniedDownscaleTooSoon)
      && (Proposed(s', now).monitorDownscale.Some? ==>
            GivesUpLess(Proposed(s', now).monitorDownscale.value.target,
                        s.monitor.ongoingRequest.value.requested, s.monitor.approved.value))
  {
    var s0 := NewState(vm, config, goal);
    NewStateKeepsInvariant(vm, config, goal, cap);
    RunKeepsCooldown(s0, before, clock, cap);
    var s := Exec(s0, before, cap);
    var clock1 := ClockAfterRun(clock, before);
    StepKeepsCooldown(s, DownscaleDeny(at), clock1, cap);
    var s1 := Apply(s, DownscaleDeny(at));
    RunKeepsCooldown(s1, after, clock1, cap);
    DenialIsRemembered(s1, after, cap);
    var s' := Exec(s1, after, cap);
    NeverTooSoon(s', ClockAfterRun(clock1, after), now, cap);
    if Proposed(s', now).monitorDownscale.Some? {
      ProposalFacts(s', now, cap);
      DownscaleExceedsDenied(s', ClockAfterRun(clock1, after), now, cap);
      DownscaleTargetClosedForm(s', DesiredResources(s', now).value.resources);
    }
  }

  // ---- wishes for more --------------------------------------------------------------------------

  /** The monitor neither voices another wish nor is reset. */
  predicate NoNewWish(steps: seq<Step>) {
    forall i :: 0 <= i < |steps| ==> !steps[i].RequestUpscale? && !steps[i].Reset?
  }

  lemma {:induction false} WishIsRemembered(s: State, steps: seq<Step>, cap: Resources)
    requires s.config.computeUnit.NonZero() && ValidRun(s, steps, cap) && NoNewWish(steps)
    ensures Exec(s, steps, cap).monitor.requestedUpscale == s.monitor.requestedUpscale
    decreases |steps|
  {
    if steps != [] {
      WishIsRemembered(Apply(s, steps[0]), steps[1..], cap);
    }
  }

  /** `n` is the least number of units that covers the goal and exceeds, in the fields that are named, what was approved. */
  ghost predicate LeastForWish(cu: Resources, goalCU: nat, approved: Resources, more: MoreResources, n: nat) {
    && goalCU <= n && Exceeds(cu, n, approved, more.cpu, more.memory)
    && forall m: nat :: goalCU <= m && Exceeds(cu, m, approved, more.cpu, more.memory) ==> n <= m
  }

  /**
   * After the monitor wished for more at `at`, and until its next wish or reset, exactly the least number of units
   * that exceeds what was approved at that moment in the fields it named is desired (or the goal, if that is more),
   * within the VM's bounds, as long as the wish is valid, counted from `at`; and only the goal from then on.
   */
  lemma WishIsHonoured(s: State, at: int, more: MoreResources, after: seq<Step>, now: int, n: nat, cap: Resources)
    requires s.config.computeUnit.NonZero() && Enabled(s, RequestUpscale(at, more))
    requires Countable(s.config.computeUnit, s.monitor.approved.value)
    requires ValidRun(Apply(s, RequestUpscale(at, more)), after, cap) && NoNewWish(after)
    requires var s' := Exec(Apply(s, RequestUpscale(at, more)), after, cap);
      && TimeUntilDeniedDownscaleExpired(s', now) <= 0 && s'.goal.hasAllMetrics && DesiredResources(s', now).Ok?
      && Exact(s.config.computeUnit, n)
      && (if now < at + s.config.monitorRequestedUpscaleValidPeriod
          then LeastForWish(s.config.computeUnit, s'.goal.goalCU, s.monitor.approved.value, more, n)
          else n == s'.goal.goalCU)
    ensures var s' := Exec(Apply(s, RequestUpscale(at, more)), after, cap);
      DesiredResources(s', now).value.resources
      == Times(s.config.computeUnit, n).Min(s'.vm.MaxResources()).Max(s'.vm.MinResources())
  {
    var s1 := Apply(s, RequestUpscale(at, more));
    WishIsRemembered(s1, after, cap);
    var s' := Exec(s1, after, cap);
    NothingExtraIsWanted(s', TimeUntilRequestedUpscalingExpired(s', now) > 0, false, n);
  }

  // ---- what a denial still demands --------------------------------------------------------------

  /** One unit step above what was denied, but no more than was approved then. */
  function HeldAt(cu: Resources, approved: Resources, denied: Resources): (r: Resources)
    requires cu.NonZero()
  {
    Resources(MinInt(approved.vcpu, cu.vcpu * (1 + denied.vcpu / cu.vcpu)),
              MinInt(approved.mem, cu.mem * (1 + denied.mem / cu.mem)))
  }

  /** `n` is the least number of units that covers the goal and exceeds what was denied in both fields. */
  ghost predicate LeastForDenial(cu: Resources, goalCU: nat, denied: Resources, n: nat) {
    && goalCU <= n && Exceeds(cu, n, denied, true, true)
    && forall m: nat :: goalCU <= m && Exceeds(cu, m, denied, true, true) ==> n <= m
  }

  lemma HeldAtIsMinimum(cu: Resources, d: DeniedDownscale, slot: nat, cap: Resources)
    requires ConfigOk(cu, slot, cap) && d.requested.Leq(cap)
    ensures MinRequiredResourcesForDeniedDownscale(cu, d) == HeldAt(cu, d.current, d.requested)
  {
    MinRequiredFacts(d.current.vcpu, d.requested.vcpu, cu.vcpu, U32);
    MinRequiredFacts(d.current.mem, d.requested.mem, cu.mem, U64);
  }

  /**
   * After a downscale was denied at `at`, and until the next denial or reset, exactly the least number of units above
   * the denied amount is desired within the VM's bounds (or the goal, if that is more), and what was then approved is
   * not given up beyond one unit step above the denied amount, as long as the cooldown lasts, counted from `at`; and
   * only the goal from then on.
   */
  lemma DenialIsHonoured(s: State, at: int, after: seq<Step>, now: int, n: nat, cap: Resources)
    requires WellSized(s, cap) && Enabled(s, DownscaleDeny(at)) && Exact(s.config.computeUnit, n)
    requires Countable(s.config.computeUnit, s.monitor.ongoingRequest.value.requested)
    requires ValidRun(Apply(s, DownscaleDeny(at)), after, cap) && NoNewDenial(after)
    requires var s' := Exec(Apply(s, DownscaleDeny(at)), after, cap);
      && TimeUntilRequestedUpscalingExpired(s', now) <= 0 && s'.goal.hasAllMetrics && DesiredResources(s', now).Ok?
      && (if now < at + s.config.monitorDeniedDownscaleCooldown
          then LeastForDenial(s.config.computeUnit, s'.goal.goalCU, s.monitor.ongoingRequest.value.requested, n)
          else n == s'.goal.goalCU)
    ensures var cu, s' := s.config.computeUnit, Exec(Apply(s, DownscaleDeny(at)), after, cap);
      var bounded := Times(cu, n).Min(s'.vm.MaxResources()).Max(s'.vm.MinResources());
      DesiredResources(s', now).value.resources ==
        if now < at + s.config.monitorDeniedDownscaleCooldown
        then bounded.Max(HeldAt(cu, s.monitor.approved.value, s.monitor.ongoingRequest.value.requested)) else bounded
  {
    var s1 := Apply(s, DownscaleDeny(at));
    DenialIsRemembered(s1, after, cap);
    var s' := Exec(s1, after, cap);
    HeldAtIsMinimum(s.config.computeUnit, s1.monitor.deniedDownscale.value, s.vm.slotSize, cap);
    NothingExtraIsWanted(s', false, TimeUntilDeniedDownscaleExpired(s', now) > 0, n);
  }

  // ---- failures ---------------------------------------------------------------------------------

  datatype Request = ToPlugin | ToNeonVM | ForUpscale | ForDownscale

  /** The moment at which the step ends a request as failed, if it does; a permit that is refused counts as a failure. */
  function FailureIn(s: State, step: Step, r: Request): (at: Option<int>)
    requires s.config.computeUnit.NonZero() && Enabled(s, step)
  {
    match step
    case PluginFailure(at) => if r == ToPlugin then Some(at) else None
    case PluginReply(at, permit) => if r == ToPlugin && !PermitAccepted(s, permit) then Some(at) else None
    case NeonVMFailure(at) => if r == ToNeonVM then Some(at) else None
    case UpscaleFailure(at) => if r == ForUpscale then Some(at) else None
    case DownscaleFailure(at) => if r == ForDownscale then Some(at) else None
    case _ => None
  }

  function RetryWait(c: Config, r: Request): (wait: int) {
    match r
    case ToPlugin => c.pluginRetryWait
    case ToNeonVM => c.neonvmRetryWait
    case ForUpscale => c.monitorRetryWait
    case ForDownscale => c.monitorRetryWait
  }

  predicate Proposes(a: ActionSet, r: Request) {
    match r
    case ToPlugin => a.pluginRequest.Some?
    case ToNeonVM => a.neonvmRequest.Some?
    case ForUpscale => a.monitorUpscale.Some?
    case ForDownscale => a.monitorDownscale.Some?
  }

  /** A reset of the monitor makes its failures forgotten, and so does a new request decided later than `now`. */
  predicate Forgets(step: Step, r: Request, now: int) {
    (r == ForUpscale || r == ForDownscale) && (step.Reset? || (IsStart(step) && now < step.now))
  }

  /** No further failure of the kind, and nothing that makes this one forgotten. */
  ghost predicate NoNewFailure(s: State, steps: seq<Step>, r: Request, now: int, cap: Resources)
    requires s.config.computeUnit.NonZero() && ValidRun(s, steps, cap)
    decreases |steps|
  {
    steps != [] ==>
      && FailureIn(s, steps[0], r).None? && !Forgets(steps[0], r, now)
      && NoNewFailure(Apply(s, steps[0]), steps[1..], r, now, cap)
  }

  function FailedAt(s: State, r: Request): (at: Option<int>) {
    match r
    case ToPlugin => s.plugin.lastFailureAt
    case ToNeonVM => s.neonvm.requestFailedAt
    case ForUpscale => s.monitor.upscaleFailureAt
    case ForDownscale => s.monitor.downscaleFailureAt
  }

  /** The retry wait after a recorded failure ends at `until`. */
  predicate HeldUntil(s: State, r: Request, until: int) {
    FailedAt(s, r) == Some(until - RetryWait(s.config, r))
  }

  lemma NothingWhileHeld(s: State, r: Request, until: int, now: int, cap: Resources)
    requires WellSized(s, cap) && HeldUntil(s, r, until) && now < until
    ensures !Proposes(Proposed(s, now), r)
  {
    if NextActions(s, now).Ok? {
      DecisionsAre(s, now, cap);
    }
  }

  lemma StepKeepsHold(s: State, step: Step, r: Request, until: int, now: int, cap: Resources)
    requires WellSized(s, cap) && HeldUntil(s, r, until) && now < until && Enabled(s, step)
    requires FailureIn(s, step, r).None? && !Forgets(step, r, now)
    ensures HeldUntil(Apply(s, step), r, until)
  {
    if IsStart(step) && (r == ForUpscale || r == ForDownscale) {
      NothingWhileHeld(s, r, until, step.now, cap);
    }
  }

  lemma {:induction false} RunKeepsHold(s: State, steps: seq<Step>, r: Request, until: int, now: int, cap: Resources)
    requires WellSized(s, cap) && HeldUntil(s, r, until) && now < until
    requires ValidRun(s, steps, cap) && NoNewFailure(s, steps, r, now, cap)
    ensures WellSized(Exec(s, steps, cap), cap) && HeldUntil(Exec(s, steps, cap), r, until)
    decreases |steps|
  {
    if steps != [] {
      StepKeepsSizes(s, steps[0], cap);
      StepKeepsHold(s, steps[0], r, until, now, cap);
      RunKeepsHold(Apply(s, steps[0]), steps[1..], r, until, now, cap);
    }
  }

  /**
   * After a request to plugin, NeonVM or monitor failed at `at`, and until its next failure (or a reset of the monitor, for
   * the monitor's requests), none of the kind is proposed before the retry wait is over, counted from `at`.
   */
  lemma FailureIsBackedOff(s: State, step: Step, r: Request, at: int, after: seq<Step>, now: int, cap: Resources)
    requires WellSized(s, cap) && Enabled(s, step) && FailureIn(s, step, r) == Some(at)
    requires ValidRun(Apply(s, step), after, cap) && NoNewFailure(Apply(s, step), after, r, now, cap)
    requires now < at + RetryWait(s.config, r)
    ensures !Proposes(Proposed(Exec(Apply(s, step), after, cap), now), r)
  {
    var until := at + RetryWait(s.config, r);
    StepKeepsSizes(s, step, cap);
    RunKeepsHold(Apply(s, step), after, r, until, now, cap);
    NothingWhileHeld(Exec(Apply(s, step), after, cap), r, until, now, cap);
  }

  /** A reset, and the next request of the kind, make a failure at the monitor forgotten. */
  predicate Clears(step: Step, r: Request) {
    match r
    case ToPlugin => false
    case ToNeonVM => false
    case ForUpscale => step.Reset? || step.StartUpscale?
    case ForDownscale => step.Reset? || step.StartDownscale?
  }

  /** The moment of the last failure of the kind in a run, if it was not forgotten since. */
  ghost function LastFailure(s: State, steps: seq<Step>, r: Request, cap: Resources): (at: Option<int>)
    requires s.config.computeUnit.NonZero() && ValidRun(s, steps, cap)
    decreases |steps|
  {
    if steps == [] then None
    else
      var later := LastFailure(Apply(s, steps[0]), steps[1..], r, cap);
      if later.Some? then later
      else if exists i :: 0 < i < |steps| && Clears(steps[i], r) then None
      else FailureIn(s, steps[0], r)
  }

  /** A failure that the state records at the start stays recorded until it is cleared or another one comes. */
  lemma {:induction false} FailuresFrom(s: State, steps: seq<Step>, r: Request, cap: Resources)
    requires s.config.computeUnit.NonZero() && ValidRun(s, steps, cap)
    ensures FailedAt(Exec(s, steps, cap), r) ==
      if LastFailure(s, steps, r, cap).Some? then LastFailure(s, steps, r, cap)
      else if exists i :: 0 <= i < |steps| && Clears(steps[i], r) then None
      else FailedAt(s, r)
    decreases |steps|
  {
    if steps != [] {
      var s1, rest := Apply(s, steps[0]), steps[1..];
      FailuresFrom(s1, rest, r, cap);
      ClearedLater(steps, r);
      assert FailedAt(s1, r) ==
        if FailureIn(s, steps[0], r).Some? then FailureIn(s, steps[0], r)
        else if Clears(steps[0], r) then None
        else FailedAt(s, r);
    }
  }

  lemma ClearedLater(steps: seq<Step>, r: Request)
    requires steps != []
    ensures (exists i :: 0 <= i < |steps[1..]| && Clears(steps[1..][i], r))
       <==> (exists i :: 0 < i < |steps| && Clears(steps[i], r))
  {
    if i :| 0 < i < |steps| && Clears(steps[i], r) {
      assert Clears(steps[1..][i - 1], r);
    }
    if i :| 0 <= i < |steps[1..]| && Clears(steps[1..][i], r) {
      assert Clears(steps[i + 1], r);
    }
  }

  /**
   * In every run of a fresh agent, the failure that holds back a kind of request is exactly the last one of that kind that
   * was not forgotten: no other step holds a request back as a failure.
   */
  lemma OnlyFailuresHoldBack(vm: VmInfo, config: Config, goal: Goal, steps: seq<Step>, r: Request, cap: Resources)
    requires config.computeUnit.NonZero() && ValidRun(NewState(vm, config, goal), steps, cap)
    ensures var s0 := NewState(vm, config, goal);
      FailedAt(Exec(s0, steps, cap), r) == LastFailure(s0, steps, r, cap)
  {
    FailuresFrom(NewState(vm, config, goal), steps, r, cap);
  }

  // ---- requests to the plugin -------------------------------------------------------------------

  predicate NoNewPluginRequest(steps: seq<Step>) {
    forall i :: 0 <= i < |steps| ==> !steps[i].StartPlugin?
  }

  lemma {:induction false} RunKeepsSizes(s: State, steps: seq<Step>, cap: Resources)
    requires WellSized(s, cap) && ValidRun(s, steps, cap)
    ensures WellSized(Exec(s, steps, cap), cap)
    decreases |steps|
  {
    if steps != [] {
      StepKeepsSizes(s, steps[0], cap);
      RunKeepsSizes(Apply(s, steps[0]), steps[1..], cap);
    }
  }

  lemma {:induction false} RequestIsRemembered(s: State, steps: seq<Step>, cap: Resources)
    requires s.config.computeUnit.NonZero() && ValidRun(s, steps, cap) && NoNewPluginRequest(steps)
    ensures Exec(s, steps, cap).plugin.lastRequest == s.plugin.lastRequest
    decreases |steps|
  {
    if steps != [] {
      RequestIsRemembered(Apply(s, steps[0]), steps[1..], cap);
    }
  }

  /**
   * After a plugin request was begun at `at`, and until the next one is begun: as long as it is unanswered nothing is
   * asked of the plugin. Once it is answered and no failure holds the plugin back, something is asked if the
   * tick is over, counted from `at`; and before that only if the permit is not what is wanted. What was granted only in part
   * is not asked for again before the denial wait is over, counted from `at`: until then only the amount in use is reported.
   */
  lemma ReportsAreRegular(s: State, decided: int, at: int, after: seq<Step>, now: int, cap: Resources)
    requires WellSized(s, cap) && Enabled(s, StartPlugin(decided, at))
    requires ValidRun(Apply(s, StartPlugin(decided, at)), after, cap) && NoNewPluginRequest(after)
    requires var s' := Exec(Apply(s, StartPlugin(decided, at)), after, cap);
      NextActions(s', now).Ok? && DesiredResources(s', now).Ok?
    ensures var s' := Exec(Apply(s, StartPlugin(decided, at)), after, cap);
      var asked, a := Proposed(s, decided).pluginRequest.value, NextActions(s', now).value;
      var wanted := DesiredResources(s', now).value.resources.Max(s'.vm.Using());
      var partly := s'.plugin.permit.Some? && asked.HasFieldGreaterThan(s'.plugin.permit.value);
      && (PluginHeldBack(s', now) ==> a.pluginRequest.None?)
      && (!PluginHeldBack(s', now) && at + s.config.pluginRequestTick <= now ==> a.pluginRequest.Some?)
      && (a.pluginRequest.Some? && now < at + s.config.pluginRequestTick ==>
            s'.plugin.permit.Some? && s'.plugin.permit.value != wanted && a.pluginRequest.value == wanted)
      && (a.pluginRequest.Some? && partly && now < at + s.config.pluginDeniedRetryWait ==> a.pluginRequest.value == InUse(s'))
  {
    StepKeepsSizes(s, StartPlugin(decided, at), cap);
    RunKeepsSizes(Apply(s, StartPlugin(decided, at)), after, cap);
    RequestIsRemembered(Apply(s, StartPlugin(decided, at)), after, cap);
    DecisionsAre(Exec(Apply(s, StartPlugin(decided, at)), after, cap), now, cap);
  }

  // ---- the newest inputs ------------------------------------------------------------------------

  predicate NoNewVM(steps: seq<Step>) {
    forall i :: 0 <= i < |steps| ==> !steps[i].VMUpdate?
  }

  predicate NoNewMetrics(steps: seq<Step>) {
    forall i :: 0 <= i < |steps| ==> !steps[i].MetricsUpdate?
  }

  lemma {:induction false} BoundsAreRemembered(s: State, steps: seq<Step>, cap: Resources)
    requires s.config.computeUnit.NonZero() && ValidRun(s, steps, cap) && NoNewVM(steps)
    ensures var s' := Exec(s, steps, cap);
      s'.vm.MinResources() == s.vm.MinResources() && s'.vm.MaxResources() == s.vm.MaxResources()
    decreases |steps|
  {
    if steps != [] {
      BoundsAreRemembered(Apply(s, steps[0]), steps[1..], cap);
    }
  }

  lemma {:induction false} GoalIsRemembered(s: State, steps: seq<Step>, cap: Resources)
    requires s.config.computeUnit.NonZero() && ValidRun(s, steps, cap) && NoNewMetrics(steps)
    ensures Exec(s, steps, cap).goal == s.goal
    decreases |steps|
  {
    if steps != [] {
      GoalIsRemembered(Apply(s, steps[0]), steps[1..], cap);
    }
  }

  /**
   * From a VM update on, and until the next one, what is desired lies within the bounds of that VM, except as far as a
   * denial in effect holds it above the maximum.
   */
  lemma NewBoundsApply(s: State, vm: VmInfo, after: seq<Step>, now: int, cap: Resources)
    requires WellSized(s, cap) && Enabled(s, VMUpdate(vm)) && EnvironmentOk(s, VMUpdate(vm), cap)
    requires ValidRun(Apply(s, VMUpdate(vm)), after, cap) && NoNewVM(after)
    ensures var s' := Exec(Apply(s, VMUpdate(vm)), after, cap);
      && DesiredResources(s', now).Ok?
      && var d := DesiredResources(s', now).value.resources;
         && vm.MinResources().Leq(d)
         && (TimeUntilDeniedDownscaleExpired(s', now) <= 0 ==> d.Leq(vm.MaxResources()))
  {
    var s1 := Apply(s, VMUpdate(vm));
    StepKeepsSizes(s, VMUpdate(vm), cap);
    RunKeepsSizes(s1, after, cap);
    BoundsAreRemembered(s1, after, cap);
    var s' := Exec(s1, after, cap);
    DesiredSucceeds(s', now, cap);
    DesiredFacts(s', TimeUntilRequestedUpscalingExpired(s', now) > 0, TimeUntilDeniedDownscaleExpired(s', now) > 0, cap);
  }

  /**
   * From an update of complete metrics on, and until the next one, exactly their goal is desired within the VM's bounds
   * whenever no wish and no denial is in effect.
   */
  lemma NewGoalApplies(s: State, goal: Goal, after: seq<Step>, now: int, cap: Resources)
    requires s.config.computeUnit.NonZero() && goal.hasAllMetrics && Exact(s.config.computeUnit, goal.goalCU)
    requires ValidRun(Apply(s, MetricsUpdate(goal)), after, cap) && NoNewMetrics(after)
    requires var s' := Exec(Apply(s, MetricsUpdate(goal)), after, cap);
      && DesiredResources(s', now).Ok?
      && TimeUntilRequestedUpscalingExpired(s', now) <= 0 && TimeUntilDeniedDownscaleExpired(s', now) <= 0
    ensures var s' := Exec(Apply(s, MetricsUpdate(goal)), after, cap);
      DesiredResources(s', now).value.resources
      == Times(s.config.computeUnit, goal.goalCU).Min(s'.vm.MaxResources()).Max(s'.vm.MinResources())
  {
    GoalIsRemembered(Apply(s, MetricsUpdate(goal)), after, cap);
    NothingExtraIsWanted(Exec(Apply(s, MetricsUpdate(goal)), after, cap), false, false, goal.goalCU);
  }

  // ---- permits ----------------------------------------------------------------------------------

  /** A permit answers a request, and is nothing in no field. */
  predicate PermitOk(s: State) {
    s.plugin.permit.Some? ==> s.plugin.lastRequest.Some? && s.plugin.permit.value.NonZero()
  }

  lemma {:induction false} RunKeepsPermit(s: State, steps: seq<Step>, cap: Resources)
    requires s.config.computeUnit.NonZero() && PermitOk(s) && ValidRun(s, steps, cap)
    ensures PermitOk(Exec(s, steps, cap))
    decreases |steps|
  {
    if steps != [] {
      RunKeepsPermit(Apply(s, steps[0]), steps[1..], cap);
    }
  }

  lemma PermitsAnswerRequests(vm: VmInfo, config: Config, goal: Goal, steps: seq<Step>, cap: Resources)
    requires config.computeUnit.NonZero() && ValidRun(NewState(vm, config, goal), steps, cap)
    ensures PermitOk(Exec(NewState(vm, config, goal), steps, cap))
  {
    RunKeepsPermit(NewState(vm, config, goal), steps, cap);
  }
}
