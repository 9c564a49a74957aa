/** What the desired resources make good: the goal from the metrics, explicit upscale wishes, and no more. */
module CoreDemand {
  import opened Api
  import opened CoreState

  /** The number of compute units asked for is the least that exceeds the given amount. */
  lemma RequiredUnitsIsLeast(x: nat, unit: nat, n: nat)
    requires unit > 0 && 1 + x / unit < U32
    ensures x < unit * n <==> RequiredUnits(x, unit) <= n
  {
    var q := x / unit;
    DivisionFacts(x, unit);
    assert RequiredUnits(x, unit) == 1 + q;
    assert unit * (q + 1) == unit * q + unit;
    if q + 1 <= n {
      ProductBound(unit, q + 1, n);
    } else {
      ProductBound(unit, n, q);
    }
  }

  /** The number of compute units that the desired resources are made from. */
  function UnitsWanted(s: State, up: bool, denied: bool): (n: nat)
    requires s.config.computeUnit.NonZero()
    requires up ==> s.monitor.requestedUpscale.Some?
    requires denied ==> s.monitor.deniedDownscale.Some?
  {
    var cu := s.config.computeUnit;
    MaxInt(s.goal.goalCU,
           MaxInt(if up then RequiredCUForRequestedUpscaling(cu, s.monitor.requestedUpscale.value) else 0,
                  if denied then RequiredCUForDeniedDownscale(cu, s.monitor.deniedDownscale.value.requested) else 0))
  }

  /** `n` compute units, in unbounded arithmetic. */
  function Times(cu: Resources, n: nat): (r: Resources) {
    Resources(cu.vcpu * n, cu.mem * n)
  }

  /** That number of compute units is exact in the machine's integers. */
  predicate Exact(cu: Resources, n: nat) {
    n < U16 && Times(cu, n).vcpu < U32 && Times(cu, n).mem < U64
  }

  /** The number of compute units in `r`, and one more, can be counted in 32 bits. */
  predicate Countable(cu: Resources, r: Resources)
    requires cu.NonZero()
  {
    1 + r.vcpu / cu.vcpu < U32 && 1 + r.mem / cu.mem < U32
  }

  /** A field meets a demand if it is above it, or at the VM's maximum. */
  predicate Meets(desired: nat, demand: nat, max: nat) {
    demand < desired || max <= desired
  }

  lemma UnitsExceed(unit: nat, x: nat, n: nat)
    requires unit > 0 && 1 + x / unit < U32 && RequiredUnits(x, unit) <= n
    ensures x < unit * n
  {
    RequiredUnitsIsLeast(x, unit, n);
  }

  lemma MulIsExact(cu: Resources, n: nat)
    requires Exact(cu, n)
    ensures cu.Mul(n % U16) == Times(cu, n)
  {
    SmallModulus(n, U16);
    assert n * cu.vcpu == cu.vcpu * n && n * cu.mem == cu.mem * n;
    SmallModulus(n * cu.vcpu, U32);
    SmallModulus(n * cu.mem, U64);
  }

  lemma DesiredCoversGoal(s: State, up: bool, denied: bool)
    requires s.config.computeUnit.NonZero()
    requires up ==> s.monitor.requestedUpscale.Some?
    requires denied ==> s.monitor.deniedDownscale.Some?
    ensures GoalResources(s, UnitsWanted(s, up, denied)).Min(s.vm.MaxResources()).Leq(DesiredWith(s, up, denied).resources)
  {
  }

  lemma GoalCovers(s: State, n: nat, goal: Resources)
    requires s.config.computeUnit.Mul(n % U16) == goal
    ensures goal.Leq(GoalResources(s, n)) && (s.goal.hasAllMetrics ==> GoalResources(s, n) == goal)
    ensures !s.goal.hasAllMetrics ==> s.vm.Using().Leq(GoalResources(s, n))
  {
  }

  lemma DesiredCoversUnits(s: State, up: bool, denied: bool)
    requires s.config.computeUnit.NonZero()
    requires up ==> s.monitor.requestedUpscale.Some?
    requires denied ==> s.monitor.deniedDownscale.Some?
    requires Exact(s.config.computeUnit, UnitsWanted(s, up, denied))
    ensures var n, cu := UnitsWanted(s, up, denied), s.config.computeUnit;
      Times(cu, n).Min(s.vm.MaxResources()).Leq(DesiredWith(s, up, denied).resources)
    ensures !s.goal.hasAllMetrics ==> s.vm.Using().Min(s.vm.MaxResources()).Leq(DesiredWith(s, up, denied).resources)
  {
    var n, cu := UnitsWanted(s, up, denied), s.config.computeUnit;
    MulIsExact(cu, n);
    GoalCovers(s, n, Times(cu, n));
    DesiredCoversGoal(s, up, denied);
  }

  /**
   * The desired resources cover, up to the VM's maximum, the goal from the metrics, the current usage while
   * metrics are missing, and one compute unit more than the base of an explicit upscale in each field it names.
   */
  lemma DemandsAreMet(s: State, up: bool, denied: bool)
    requires s.config.computeUnit.NonZero()
    requires up ==> s.monitor.requestedUpscale.Some?
    requires denied ==> s.monitor.deniedDownscale.Some?
    requires Exact(s.config.computeUnit, UnitsWanted(s, up, denied))
    requires up ==> Countable(s.config.computeUnit, s.monitor.requestedUpscale.value.base)
    ensures var d, cu := DesiredWith(s, up, denied).resources, s.config.computeUnit;
      && Times(cu, s.goal.goalCU).Min(s.vm.MaxResources()).Leq(d)
      && (!s.goal.hasAllMetrics ==> s.vm.Using().Min(s.vm.MaxResources()).Leq(d))
      && (up ==> var u := s.monitor.requestedUpscale.value;
            && (u.requested.cpu ==> Meets(d.vcpu, u.base.vcpu, s.vm.MaxResources().vcpu))
            && (u.requested.memory ==> Meets(d.mem, u.base.mem, s.vm.MaxResources().mem)))
  {
    var n, cu := UnitsWanted(s, up, denied), s.config.computeUnit;
    DesiredCoversUnits(s, up, denied);
    ProductBound(cu.vcpu, s.goal.goalCU, n);
    ProductBound(cu.mem, s.goal.goalCU, n);
    if up {
      var u := s.monitor.requestedUpscale.value;
      if u.requested.cpu {
        UnitsExceed(cu.vcpu, u.base.vcpu, n);
      }
      if u.requested.memory {
        UnitsExceed(cu.mem, u.base.mem, n);
      }
    }
  }

  // ---- and no more ------------------------------------------------------------------------------

  predicate Exceeds(cu: Resources, n: nat, r: Resources, inCpu: bool, inMemory: bool) {
    (inCpu ==> r.vcpu < cu.vcpu * n) && (inMemory ==> r.mem < cu.mem * n)
  }

  /** `n` compute units cover the goal, exceed the base of the wish in the fields it names, and what was denied. */
  predicate Covers(s: State, up: bool, denied: bool, n: nat)
    requires up ==> s.monitor.requestedUpscale.Some?
    requires denied ==> s.monitor.deniedDownscale.Some?
  {
    var cu := s.config.computeUnit;
    && s.goal.goalCU <= n
    && (up ==> var u := s.monitor.requestedUpscale.value; Exceeds(cu, n, u.base, u.requested.cpu, u.requested.memory))
    && (denied ==> Exceeds(cu, n, s.monitor.deniedDownscale.value.requested, true, true))
  }

  lemma ExceedsFrom(cu: Resources, n: nat, r: Resources, inCpu: bool, inMemory: bool)
    requires cu.NonZero() && Countable(cu, r)
    ensures Exceeds(cu, n, r, inCpu, inMemory) <==>
      MaxInt(if inCpu then RequiredUnits(r.vcpu, cu.vcpu) else 0, if inMemory then RequiredUnits(r.mem, cu.mem) else 0) <= n
  {
    RequiredUnitsIsLeast(r.vcpu, cu.vcpu, n);
    RequiredUnitsIsLeast(r.mem, cu.mem, n);
  }

  /** A wish or denial in effect is recorded, and its amounts can be counted in units. */
  predicate CountableWith(s: State, up: bool, denied: bool)
    requires s.config.computeUnit.NonZero()
  {
    var cu := s.config.computeUnit;
    && (up ==> s.monitor.requestedUpscale.Some? && Countable(cu, s.monitor.requestedUpscale.value.base))
    && (denied ==> s.monitor.deniedDownscale.Some? && Countable(cu, s.monitor.deniedDownscale.value.requested))
  }

  /** The compute units wanted are the least number that covers the goal, a wish and a denial in effect. */
  lemma UnitsWantedIsLeast(s: State, up: bool, denied: bool, n: nat)
    requires s.config.computeUnit.NonZero()
    requires CountableWith(s, up, denied)
    ensures Covers(s, up, denied, n) <==> UnitsWanted(s, up, denied) <= n
  {
    var cu := s.config.computeUnit;
    if up {
      var u := s.monitor.requestedUpscale.value;
      ExceedsFrom(cu, n, u.base, u.requested.cpu, u.requested.memory);
    }
    if denied {
      ExceedsFrom(cu, n, s.monitor.deniedDownscale.value.requested, true, true);
    }
  }

  /** What a denial in effect still demands: one unit step above the denied amount, but no more than was approved then. */
  function Minimum(s: State, denied: bool): (r: Resources)
    requires s.config.computeUnit.NonZero() && (denied ==> s.monitor.deniedDownscale.Some?)
  {
    if denied then MinRequiredResourcesForDeniedDownscale(s.config.computeUnit, s.monitor.deniedDownscale.value)
    else Resources(0, 0)
  }

  /**
   * The desired resources are exactly the least number of units that covers everything in effect, or the usage while
   * metrics are missing, within the VM's bounds, and above them only as far as a denial demands.
   */
  lemma NothingExtraIsWanted(s: State, up: bool, denied: bool, n: nat)
    requires s.config.computeUnit.NonZero() && Exact(s.config.computeUnit, n)
    requires CountableWith(s, up, denied)
    requires Covers(s, up, denied, n) && forall m: nat :: Covers(s, up, denied, m) ==> n <= m
    ensures var units := Times(s.config.computeUnit, n);
      DesiredWith(s, up, denied).resources ==
        (if s.goal.hasAllMetrics then units else units.Max(s.vm.Using()))
        .Min(s.vm.MaxResources()).Max(s.vm.MinResources()).Max(Minimum(s, denied))
  {
    var wanted := UnitsWanted(s, up, denied);
    UnitsWantedIsLeast(s, up, denied, n);
    UnitsWantedIsLeast(s, up, denied, wanted);
    MulIsExact(s.config.computeUnit, n);
  }

  /** The bound on the number of units is needed: it is truncated to 16 bits, so a multiple of 65536 becomes none. */
  lemma TooManyUnitsWrap(s: State)
    requires s.config.computeUnit.NonZero() && s.goal.hasAllMetrics && s.goal.goalCU % U16 == 0
    ensures DesiredWith(s, false, false).resources == s.vm.MinResources()
  {
    var cu := s.config.computeUnit;
    assert cu.Mul(0) == Resources(0, 0);
    assert GoalResources(s, s.goal.goalCU) == Resources(0, 0);
  }
}
