/** Downscaling towards a fixed goal: how many requests to the vm-monitor it takes when each is approved. */
module CoreConvergence {
  import opened Api
  import opened CoreState
  import opened CoreSteps
  import opened CoreProposals
  import opened CoreSafety

  /** The least number of units that cover `x`. */
  function UnitsToCover(x: nat, unit: nat): (n: nat)
    requires unit > 0
  {
    if x == 0 then 0 else (x - 1) / unit + 1
  }

  lemma UnitsToCoverIsLeast(x: nat, unit: nat, n: nat)
    requires unit > 0
    ensures x <= unit * n <==> UnitsToCover(x, unit) <= n
  {
    if x > 0 {
      var q := (x - 1) / unit;
      DivisionFacts(x - 1, unit);
      assert unit * q + unit == unit * (q + 1);
      if q + 1 <= n {
        ProductBound(unit, q + 1, n);
      } else {
        ProductBound(unit, n, q);
      }
    }
  }

  lemma OneUnitLess(x: nat, unit: nat)
    requires unit > 0 && x > 0
    ensures UnitsToCover(if x <= unit then 0 else x - unit, unit) == UnitsToCover(x, unit) - 1
  {
    var n := UnitsToCover(x, unit);
    var y := if x <= unit then 0 else x - unit;
    assert unit * n == unit * (n - 1) + unit;
    UnitsToCoverIsLeast(x, unit, n);
    UnitsToCoverIsLeast(y, unit, n - 1);
    var m := UnitsToCover(y, unit);
    assert unit * (m + 1) == unit * m + unit;
    UnitsToCoverIsLeast(y, unit, m);
    UnitsToCoverIsLeast(x, unit, m + 1);
  }

  /** The number of requests from `approved` down to `desired`: the slower of the two fields decides. */
  function RequestsNeeded(approved: Resources, desired: Resources, cu: Resources): (n: nat)
    requires cu.NonZero() && desired.Leq(approved)
  {
    MaxInt(UnitsToCover(approved.vcpu - desired.vcpu, cu.vcpu), UnitsToCover(approved.mem - desired.mem, cu.mem))
  }

  /** No upscale wish, denial or failed downscale is in effect any more. */
  predicate Expired(s: State, now: int) {
    && TimeUntilRequestedUpscalingExpired(s, now) <= 0
    && TimeUntilDeniedDownscaleExpired(s, now) <= 0
    && (s.monitor.downscaleFailureAt.Some? ==> s.monitor.downscaleFailureAt.value + s.config.monitorRetryWait <= now)
  }

  /** What is desired once wishes and denials are over. */
  function Aim(s: State): (r: Resources)
    requires s.config.computeUnit.NonZero()
  {
    DesiredWith(s, false, false).resources
  }

  /** The aim is `desired`, no more than is approved, and nothing is in flight at the monitor. */
  ghost predicate Descending(s: State, desired: Resources, cap: Resources) {
    && WellSized(s, cap) && Safe(s)
    && s.monitor.approved.Some? && s.monitor.ongoingRequest.None?
    && Aim(s) == desired && desired.Leq(s.monitor.approved.value)
  }

  lemma DescendingProposes(s: State, now: int, desired: Resources, cap: Resources)
    requires Descending(s, desired, cap) && Expired(s, now)
    ensures NextActions(s, now).Ok?
    ensures s.monitor.approved.value == desired ==> Proposed(s, now).monitorDownscale.None?
    ensures s.monitor.approved.value != desired ==>
      Proposed(s, now).monitorDownscale == Some(ChangeAction(
        s.monitor.approved.value, desired.Max(s.monitor.approved.value.SaturatingSub(s.config.computeUnit))))
  {
    NextActionsOutcome(s, now, cap);
    DesiredSucceeds(s, now, cap);
    UpscaleActionFacts(s, now, desired, cap);
    DownscaleTargetClosedForm(s, desired);
  }

  /** One request and its approval. */
  function Round(s: State, now: int): (s': State)
    requires s.config.computeUnit.NonZero() && Enabled(s, StartDownscale(now))
  {
    Apply(Apply(s, StartDownscale(now)), DownscaleAllow)
  }

  lemma RequestsDrop(a: Resources, desired: Resources, cu: Resources)
    requires cu.NonZero() && desired.Leq(a) && a != desired
    ensures var a' := desired.Max(a.SaturatingSub(cu));
      && desired.Leq(a') && a'.Leq(a) && a.SaturatingSub(cu).Leq(a')
      && RequestsNeeded(a', desired, cu) == RequestsNeeded(a, desired, cu) - 1
  {
    if a.vcpu > desired.vcpu {
      OneUnitLess(a.vcpu - desired.vcpu, cu.vcpu);
    }
    if a.mem > desired.mem {
      OneUnitLess(a.mem - desired.mem, cu.mem);
    }
  }

  function Granted(s: State, target: Resources): (s': State) {
    s.(monitor := s.monitor.(approved := Some(target), ongoingRequest := None, downscaleFailureAt := None))
  }

  lemma RoundGrants(s: State, now: int, desired: Resources, cap: Resources)
    requires Descending(s, desired, cap) && Expired(s, now) && s.monitor.approved.value != desired
    ensures Enabled(s, StartDownscale(now))
    ensures Round(s, now) == Granted(s, desired.Max(s.monitor.approved.value.SaturatingSub(s.config.computeUnit)))
    ensures WellSized(Round(s, now), cap)
  {
    DescendingProposes(s, now, desired, cap);
    StepKeepsSizes(s, StartDownscale(now), cap);
    StepKeepsSizes(Apply(s, StartDownscale(now)), DownscaleAllow, cap);
  }

  lemma GrantedKeepsDescending(s: State, desired: Resources, target: Resources, cap: Resources)
    requires Descending(s, desired, cap) && WellSized(Granted(s, target), cap)
    requires desired.Leq(target) && target.Leq(s.monitor.approved.value)
    ensures Descending(Granted(s, target), desired, cap)
  {
  }

  lemma OneRound(s: State, now: int, desired: Resources, cap: Resources)
    requires Descending(s, desired, cap) && Expired(s, now) && s.monitor.approved.value != desired
    ensures Enabled(s, StartDownscale(now))
    ensures Descending(Round(s, now), desired, cap)
    ensures var a, a' := s.monitor.approved.value, Round(s, now).monitor.approved.value;
      && a'.Leq(a) && a.SaturatingSub(s.config.computeUnit).Leq(a')
      && RequestsNeeded(a', desired, s.config.computeUnit) == RequestsNeeded(a, desired, s.config.computeUnit) - 1
    ensures Round(s, now).config == s.config
    ensures forall t :: Expired(s, t) ==> Expired(Round(s, now), t)
  {
    var a, cu := s.monitor.approved.value, s.config.computeUnit;
    var target := desired.Max(a.SaturatingSub(cu));
    RoundGrants(s, now, desired, cap);
    RequestsDrop(a, desired, cu);
    GrantedKeepsDescending(s, desired, target, cap);
  }

  function DownscaleRun(times: seq<int>): (steps: seq<Step>) {
    if times == [] then [] else [StartDownscale(times[0]), DownscaleAllow] + DownscaleRun(times[1..])
  }

  lemma PrependTwo(s: State, a: Step, b: Step, rest: seq<Step>, cap: Resources)
    requires s.config.computeUnit.NonZero() && Enabled(s, a) && EnvironmentOk(s, a, cap)
    requires Apply(s, a).config == s.config && Enabled(Apply(s, a), b) && EnvironmentOk(Apply(s, a), b, cap)
    requires Apply(Apply(s, a), b).config == s.config && ValidRun(Apply(Apply(s, a), b), rest, cap)
    ensures ValidRun(s, [a, b] + rest, cap)
    ensures Exec(s, [a, b] + rest, cap) == Exec(Apply(Apply(s, a), b), rest, cap)
  {
    assert ([a, b] + rest)[1..] == [b] + rest;
    assert ([b] + rest)[1..] == rest;
    assert ValidRun(Apply(s, a), [b] + rest, cap);
  }

  /**
   * Whatever the moments at which the agent looks, exactly as many requests are made as the larger number
   * of compute units between the approved and the desired amount; they lead to the desired amount, and
   * then no further downscale is proposed.
   */
  lemma {:induction false} DownscaleConverges(s: State, times: seq<int>, desired: Resources, later: int, cap: Resources)
    requires Descending(s, desired, cap) && Expired(s, later)
    requires forall i :: 0 <= i < |times| ==> Expired(s, times[i])
    requires |times| == RequestsNeeded(s.monitor.approved.value, desired, s.config.computeUnit)
    ensures ValidRun(s, DownscaleRun(times), cap)
    ensures var s' := Exec(s, DownscaleRun(times), cap);
      && s'.monitor.approved == Some(desired)
      && s'.config == s.config
      && NextActions(s', later).Ok? && Proposed(s', later).monitorDownscale.None?
    decreases |times|
  {
    if times == [] {
      NothingNeededAtAim(s.monitor.approved.value, desired, s.config.computeUnit);
      DescendingProposes(s, later, desired, cap);
    } else {
      var now := times[0];
      OneRound(s, now, desired, cap);
      DownscaleConverges(Round(s, now), times[1..], desired, later, cap);
      PrependTwo(s, StartDownscale(now), DownscaleAllow, DownscaleRun(times[1..]), cap);
    }
  }

  // ---- any run towards a steady aim -------------------------------------------------------------

  /** A downscale in flight asks for what the approved amount and the aim make it. */
  ghost predicate Descent(s: State, desired: Resources, cap: Resources) {
    && WellSized(s, cap)
    && s.monitor.approved.Some? && Aim(s) == desired && desired.Leq(s.monitor.approved.value)
    && (s.monitor.ongoingRequest.Some? ==>
          && s.monitor.approved.value != desired
          && s.monitor.ongoingRequest.value ==
             OngoingMonitorRequest(Downscale, desired.Max(s.monitor.approved.value.SaturatingSub(s.config.computeUnit))))
  }

  /** The monitor stays connected, voices no wish and denies nothing; earlier wishes and denials are over. */
  predicate Calm(s: State, step: Step) {
    match step
    case Reset => false
    case Active(_) => false
    case RequestUpscale(_, _) => false
    case DownscaleDeny(_) => false
    case StartUpscale(now) => TimeUntilRequestedUpscalingExpired(s, now) <= 0 && TimeUntilDeniedDownscaleExpired(s, now) <= 0
    case StartDownscale(now) => TimeUntilRequestedUpscalingExpired(s, now) <= 0 && TimeUntilDeniedDownscaleExpired(s, now) <= 0
    case _ => true
  }

  /** Every step of the run is calm and keeps the aim. */
  ghost predicate Steady(s: State, steps: seq<Step>, cap: Resources)
    requires s.config.computeUnit.NonZero() && ValidRun(s, steps, cap)
    decreases |steps|
  {
    steps != [] ==>
      && Calm(s, steps[0]) && Aim(Apply(s, steps[0])) == Aim(s)
      && Steady(Apply(s, steps[0]), steps[1..], cap)
  }

  /** With all metrics, requests and replies to plugin, NeonVM and monitor keep the aim: it does not depend on the usage. */
  lemma RequestsKeepAim(s: State, step: Step)
    requires s.config.computeUnit.NonZero() && Enabled(s, step) && s.goal.hasAllMetrics
    requires !step.VMUpdate? && !step.MetricsUpdate?
    ensures Aim(Apply(s, step)) == Aim(s)
  {
  }

  function Approvals(steps: seq<Step>): (n: nat) {
    if steps == [] then 0 else (if steps[0].DownscaleAllow? then 1 else 0) + Approvals(steps[1..])
  }

  function StillNeeded(s: State, desired: Resources): (n: nat)
    requires s.config.computeUnit.NonZero() && s.monitor.approved.Some? && desired.Leq(s.monitor.approved.value)
  {
    RequestsNeeded(s.monitor.approved.value, desired, s.config.computeUnit)
  }

  /** Above its aim the agent never asks the monitor for more. */
  lemma NoUpscaleAboveAim(s: State, now: int, desired: Resources, cap: Resources)
    requires Descent(s, desired, cap) && Calm(s, StartUpscale(now))
    ensures !Enabled(s, StartUpscale(now))
  {
    if NextActions(s, now).Ok? {
      DesiredSucceeds(s, now, cap);
      UpscaleTargetClosedForm(s, desired, cap);
    }
  }

  lemma StartIsDescent(s: State, now: int, desired: Resources, cap: Resources)
    requires Descent(s, desired, cap) && Calm(s, StartDownscale(now)) && Enabled(s, StartDownscale(now))
    ensures var target := Proposed(s, now).monitorDownscale.value.target;
      && s.monitor.approved.value != desired
      && target == desired.Max(s.monitor.approved.value.SaturatingSub(s.config.computeUnit))
  {
    DesiredSucceeds(s, now, cap);
    DownscaleTargetClosedForm(s, desired);
  }

  lemma StepKeepsDescent(s: State, step: Step, desired: Resources, cap: Resources)
    requires Descent(s, desired, cap) && Enabled(s, step) && EnvironmentOk(s, step, cap)
    requires Calm(s, step) && Aim(Apply(s, step)) == desired
    ensures Descent(Apply(s, step), desired, cap)
    ensures (if step.DownscaleAllow? then 1 else 0) + StillNeeded(Apply(s, step), desired) == StillNeeded(s, desired)
  {
    StepKeepsSizes(s, step, cap);
    match step
    case StartUpscale(now) => NoUpscaleAboveAim(s, now, desired, cap);
    case StartDownscale(now) => StartIsDescent(s, now, desired, cap);
    case DownscaleAllow => RequestsDrop(s.monitor.approved.value, desired, s.config.computeUnit);
    case _ =>
  }

  /**
   * Conservation: in every steady run, whatever plugin and NeonVM requests, failures and updates come in
   * between, the downscales approved so far and those still needed add up to the number needed at the start.
   */
  lemma {:induction false} ApprovalsAreConserved(s: State, steps: seq<Step>, desired: Resources, cap: Resources)
    requires Descent(s, desired, cap) && ValidRun(s, steps, cap) && Steady(s, steps, cap)
    ensures Descent(Exec(s, steps, cap), desired, cap)
    ensures Approvals(steps) + StillNeeded(Exec(s, steps, cap), desired) == StillNeeded(s, desired)
    decreases |steps|
  {
    if steps != [] {
      StepKeepsDescent(s, steps[0], desired, cap);
      ApprovalsAreConserved(Apply(s, steps[0]), steps[1..], desired, cap);
    }
  }

  /** The aim is reached with exactly the last approval needed, and while it is not, an idle agent asks on. */
  lemma AimIsReachedExactly(s: State, steps: seq<Step>, desired: Resources, now: int, cap: Resources)
    requires Descent(s, desired, cap) && ValidRun(s, steps, cap) && Steady(s, steps, cap)
    ensures Approvals(steps) <= StillNeeded(s, desired)
    ensures var s' := Exec(s, steps, cap);
      && s'.config.computeUnit.NonZero()
      && (s'.monitor.approved == Some(desired) <==> Approvals(steps) == StillNeeded(s, desired))
      && (Safe(s') && s'.monitor.ongoingRequest.None? && Expired(s', now) ==>
            (Proposed(s', now).monitorDownscale.Some? <==> Approvals(steps) < StillNeeded(s, desired)))
  {
    ApprovalsAreConserved(s, steps, desired, cap);
    var s' := Exec(s, steps, cap);
    NothingNeededAtAim(s'.monitor.approved.value, desired, s'.config.computeUnit);
    if Safe(s') && s'.monitor.ongoingRequest.None? && Expired(s', now) {
      DescendingProposes(s', now, desired, cap);
    }
  }

  lemma NothingNeededAtAim(approved: Resources, desired: Resources, cu: Resources)
    requires cu.NonZero() && desired.Leq(approved)
    ensures RequestsNeeded(approved, desired, cu) == 0 <==> approved == desired
  {
    UnitsToCoverIsLeast(approved.vcpu - desired.vcpu, cu.vcpu, 0);
    UnitsToCoverIsLeast(approved.mem - desired.mem, cu.mem, 0);
  }
}
