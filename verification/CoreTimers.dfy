/** The wait that accompanies an action set is exact: it ends with the first of the timers that hold something back. */
module CoreTimers {
  import opened Api
  import opened CoreState
  import opened CoreProposals
  import opened CoreProgress
  import opened CoreDecision
  import opened CoreDemand

  datatype Timer =
    | PluginTick
    | PluginDenialWait
    | PluginFailureWait
    | NeonVMFailureWait
    | UpscaleFailureWait
    | DownscaleFailureWait
    | WishExpiry
    | DenialExpiry

  function After(since: Option<int>, wait: int): (end: Option<int>) {
    if since.Some? then Some(since.value + wait) else None
  }

  /** The moment at which a timer ends, if it was ever started. */
  function EndOf(s: State, timer: Timer): (end: Option<int>) {
    var requestedAt := if s.plugin.lastRequest.Some? then Some(s.plugin.lastRequest.value.at) else None;
    match timer
    case PluginTick => After(requestedAt, s.config.pluginRequestTick)
    case PluginDenialWait => After(requestedAt, s.config.pluginDeniedRetryWait)
    case PluginFailureWait => After(s.plugin.lastFailureAt, s.config.pluginRetryWait)
    case NeonVMFailureWait => After(s.neonvm.requestFailedAt, s.config.neonvmRetryWait)
    case UpscaleFailureWait => After(s.monitor.upscaleFailureAt, s.config.monitorRetryWait)
    case DownscaleFailureWait => After(s.monitor.downscaleFailureAt, s.config.monitorRetryWait)
    case WishExpiry =>
      After(if s.monitor.requestedUpscale.Some? then Some(s.monitor.requestedUpscale.value.at) else None,
            s.config.monitorRequestedUpscaleValidPeriod)
    case DenialExpiry =>
      After(if s.monitor.deniedDownscale.Some? then Some(s.monitor.deniedDownscale.value.at) else None,
            s.config.monitorDeniedDownscaleCooldown)
  }

  predicate Running(s: State, now: int, timer: Timer) {
    EndOf(s, timer).Some? && now < EndOf(s, timer).value
  }

  // ---- which timers matter ----------------------------------------------------------------------

  /** The wish is in effect and needs more compute units than the metrics ask for. */
  predicate WishRaises(s: State, now: int)
    requires s.config.computeUnit.NonZero()
  {
    && Running(s, now, WishExpiry)
    && RequiredCUForRequestedUpscaling(s.config.computeUnit, s.monitor.requestedUpscale.value) > s.goal.goalCU
  }

  /** What would be desired if a denial in effect counted for its compute units only. */
  function WithoutMinimum(s: State, now: int): (r: Resources)
    requires s.config.computeUnit.NonZero()
  {
    GoalResources(s, UnitsWanted(s, Running(s, now, WishExpiry), Running(s, now, DenialExpiry)))
    .Min(s.vm.MaxResources()).Max(s.vm.MinResources())
  }

  /** The denial is in effect and needs more units than the metrics ask for, or more than the bounds would leave. */
  predicate DenialRaises(s: State, now: int)
    requires s.config.computeUnit.NonZero()
  {
    && Running(s, now, DenialExpiry)
    && var cu, d := s.config.computeUnit, s.monitor.deniedDownscale.value;
       || RequiredCUForDeniedDownscale(cu, d.requested) > s.goal.goalCU
       || MinRequiredResourcesForDeniedDownscale(cu, d).HasFieldGreaterThan(WithoutMinimum(s, now))
  }

  /** The timer holds back a request, or holds up what is desired, when the given requests are decided on. */
  predicate Matters(s: State, now: int, a: ActionSet, desired: Resources, timer: Timer)
    requires s.config.computeUnit.NonZero()
  {
    && Running(s, now, timer)
    && match timer {
      case PluginTick => !PluginHeldBack(s, now) && a.pluginRequest.None?
      case PluginDenialWait => !PluginHeldBack(s, now) && a.pluginRequest.None? && PluginDenied(s)
      case PluginFailureWait => !s.plugin.ongoingRequest
      case NeonVMFailureWait =>
        && s.neonvm.ongoingRequested.None?
        && s.vm.Using() != NeonVMTarget(s, desired)
        && (s.plugin.ongoingRequest && s.plugin.lastRequest.Some? ==>
              !s.plugin.lastRequest.value.resources.HasFieldLessThan(NeonVMTarget(s, desired)))
        && (a.pluginRequest.Some? ==> !a.pluginRequest.value.HasFieldLessThan(NeonVMTarget(s, desired)))
      case UpscaleFailureWait => s.monitor.ongoingRequest.None? && !KnowsEnough(s, desired)
      case DownscaleFailureWait => s.monitor.ongoingRequest.None? && !HoldsNoSurplus(s, desired) && a.monitorUpscale.None?
      case WishExpiry => WishRaises(s, now)
      case DenialExpiry => s.monitor.ongoingRequest.None? && a.monitorDownscale.None? && DenialRaises(s, now)
    }
  }

  // ---- each wait is the time left on its timers -------------------------------------------------

  /** The time left on a timer, if it matters. */
  function Left(s: State, now: int, a: ActionSet, desired: Resources, timer: Timer): (w: Option<int>)
    requires s.config.computeUnit.NonZero()
  {
    if Matters(s, now, a, desired, timer) then Some(EndOf(s, timer).value - now) else None
  }

  function Sooner(w: Option<int>, w': Option<int>): (r: Option<int>) {
    if w.None? then w' else if w'.None? then w else Some(MinInt(w.value, w'.value))
  }

  lemma PluginWaitIs(s: State, now: int, a: ActionSet, d: Resources)
    requires s.config.computeUnit.NonZero() && (s.plugin.ongoingRequest ==> s.plugin.lastRequest.Some?)
    requires a.pluginRequest == PluginDecision(s, now, d)
    ensures var r := CalculatePluginAction(s, now, d);
      r.Ok? && r.value.wait == Sooner(Left(s, now, a, d, PluginFailureWait),
                                      Sooner(Left(s, now, a, d, PluginTick), Left(s, now, a, d, PluginDenialWait)))
  {
  }

  lemma NeonVMWaitIs(s: State, now: int, a: ActionSet, d: Resources)
    requires s.config.computeUnit.NonZero() && Safe(s) && (s.plugin.ongoingRequest ==> s.plugin.lastRequest.Some?)
    requires a.pluginRequest.Some? ==> !s.plugin.ongoingRequest
    ensures var r := CalculateNeonVMAction(s, now, d, PluginRequestInView(s, a.pluginRequest));
      r.Ok? && r.value.wait == Left(s, now, a, d, NeonVMFailureWait)
  {
    ClampBetween(s.vm.Using(), d, MonitorApprovedLowerBound(s), PluginApprovedUpperBound(s));
  }

  lemma UpscaleWaitIs(s: State, now: int, a: ActionSet, d: Resources, cap: Resources)
    requires WellSized(s, cap)
    ensures var r := CalculateMonitorUpscaleAction(s, now, d);
      r.Ok? && r.value.wait == Left(s, now, a, d, UpscaleFailureWait)
  {
    if s.monitor.approved.Some? {
      UpscaleTargetClosedForm(s, d, cap);
    }
  }

  lemma DownscaleWaitIs(s: State, now: int, a: ActionSet, d: Resources)
    requires s.config.computeUnit.NonZero()
    ensures var r := CalculateMonitorDownscaleAction(s, now, d, a.monitorUpscale.Some?);
      r.Ok? ==> r.value.wait == Left(s, now, a, d, DownscaleFailureWait)
  {
    if s.monitor.approved.Some? {
      DownscaleTargetClosedForm(s, d);
    }
  }

  /** A wish or a denial counts as affecting the outcome exactly if it raises it. */
  lemma AffectedIs(s: State, now: int)
    requires s.config.computeUnit.NonZero() && DesiredResources(s, now).Ok?
    ensures DesiredResources(s, now).value.upscaleAffected <==> WishRaises(s, now)
    ensures DesiredResources(s, now).value.deniedAffected <==> DenialRaises(s, now)
  {
  }

  lemma DesiredWaitIs(s: State, now: int, a: ActionSet)
    requires s.config.computeUnit.NonZero() && DesiredResources(s, now).Ok?
    ensures var d := DesiredResources(s, now).value;
      DesiredWait(s, now, d, a.monitorDownscale)
      == Sooner(Left(s, now, a, d.resources, WishExpiry), Left(s, now, a, d.resources, DenialExpiry))
  {
    AffectedIs(s, now);
  }

  // ---- the whole wait ---------------------------------------------------------------------------

  ghost predicate NoneBefore(s: State, now: int, a: ActionSet, desired: Resources, w: int)
    requires s.config.computeUnit.NonZero()
  {
    forall timer :: Matters(s, now, a, desired, timer) ==> now + w <= EndOf(s, timer).value
  }

  /** `w` is the time left on some timer that matters, and none that matters ends sooner. */
  ghost predicate IsFirst(s: State, now: int, a: ActionSet, desired: Resources, w: int)
    requires s.config.computeUnit.NonZero()
  {
    && (exists timer :: Matters(s, now, a, desired, timer) && EndOf(s, timer).value == now + w)
    && NoneBefore(s, now, a, desired, w)
  }

  /** The waits for an expiry, for the plugin, and after failures at NeonVM and the monitor, taken together. */
  function FirstOf(expiry: Option<int>, plugin: Option<int>, neonvm: Option<int>, up: Option<int>, down: Option<int>)
    : (w: Option<int>)
  {
    Sooner(Sooner(Sooner(Sooner(expiry, plugin), neonvm), up), down)
  }

  predicate NoLater(w: Option<int>, w': Option<int>) {
    w'.Some? ==> w.Some? && w.value <= w'.value
  }

  lemma FirstOfFacts(expiry: Option<int>, plugin: Option<int>, neonvm: Option<int>, up: Option<int>, down: Option<int>)
    ensures var w := FirstOf(expiry, plugin, neonvm, up, down);
      && NoLater(w, expiry) && NoLater(w, plugin) && NoLater(w, neonvm) && NoLater(w, up) && NoLater(w, down)
      && (w == expiry || w == plugin || w == neonvm || w == up || w == down)
  {
  }

  function First(s: State, now: int, a: ActionSet, d: Resources): (w: Option<int>)
    requires s.config.computeUnit.NonZero()
  {
    FirstOf(
      Sooner(Left(s, now, a, d, WishExpiry), Left(s, now, a, d, DenialExpiry)),
      Sooner(Left(s, now, a, d, PluginFailureWait),
             Sooner(Left(s, now, a, d, PluginTick), Left(s, now, a, d, PluginDenialWait))),
      Left(s, now, a, d, NeonVMFailureWait),
      Left(s, now, a, d, UpscaleFailureWait),
      Left(s, now, a, d, DownscaleFailureWait))
  }

  lemma SoonerFacts(w: Option<int>, w': Option<int>)
    ensures NoLater(Sooner(w, w'), w) && NoLater(Sooner(w, w'), w') && (Sooner(w, w') == w || Sooner(w, w') == w')
  {
  }

  lemma FirstIsNoLater(s: State, now: int, a: ActionSet, d: Resources, timer: Timer)
    requires s.config.computeUnit.NonZero()
    ensures NoLater(First(s, now, a, d), Left(s, now, a, d, timer))
  {
    var wish, denial := Left(s, now, a, d, WishExpiry), Left(s, now, a, d, DenialExpiry);
    var failure, tick := Left(s, now, a, d, PluginFailureWait), Left(s, now, a, d, PluginTick);
    var denied := Left(s, now, a, d, PluginDenialWait);
    SoonerFacts(wish, denial);
    SoonerFacts(tick, denied);
    SoonerFacts(failure, Sooner(tick, denied));
    FirstOfFacts(Sooner(wish, denial), Sooner(failure, Sooner(tick, denied)), Left(s, now, a, d, NeonVMFailureWait),
                 Left(s, now, a, d, UpscaleFailureWait), Left(s, now, a, d, DownscaleFailureWait));
  }

  lemma FirstIsOneOfThem(s: State, now: int, a: ActionSet, d: Resources)
    requires s.config.computeUnit.NonZero()
    ensures exists timer :: First(s, now, a, d) == Left(s, now, a, d, timer)
  {
    var wish, denial := Left(s, now, a, d, WishExpiry), Left(s, now, a, d, DenialExpiry);
    var failure, tick := Left(s, now, a, d, PluginFailureWait), Left(s, now, a, d, PluginTick);
    var denied := Left(s, now, a, d, PluginDenialWait);
    SoonerFacts(wish, denial);
    SoonerFacts(tick, denied);
    SoonerFacts(failure, Sooner(tick, denied));
    FirstOfFacts(Sooner(wish, denial), Sooner(failure, Sooner(tick, denied)), Left(s, now, a, d, NeonVMFailureWait),
                 Left(s, now, a, d, UpscaleFailureWait), Left(s, now, a, d, DownscaleFailureWait));
  }

  function Capped(w: Option<int>): (d: int) {
    if w.Some? then MinInt(w.value, MAX_DURATION) else MAX_DURATION
  }

  lemma ShortestWithOneMore(waits: seq<Option<int>>, soFar: Option<int>, w: Option<int>)
    requires ShortestWait(waits) == Capped(soFar)
    ensures ShortestWait(waits + [w]) == Capped(Sooner(soFar, w))
  {
    assert (waits + [w])[..|waits|] == waits;
  }

  lemma ShortestOfFive(a: Option<int>, b: Option<int>, c: Option<int>, d: Option<int>, e: Option<int>)
    ensures ShortestWait([a, b, c, d, e]) == Capped(FirstOf(a, b, c, d, e))
  {
    var ab := Sooner(a, b);
    var abc := Sooner(ab, c);
    ShortestWithOneMore([], None, a);
    assert [] + [a] == [a];
    ShortestWithOneMore([a], a, b);
    assert [a] + [b] == [a, b];
    ShortestWithOneMore([a, b], ab, c);
    assert [a, b] + [c] == [a, b, c];
    ShortestWithOneMore([a, b, c], abc, d);
    assert [a, b, c] + [d] == [a, b, c, d];
    ShortestWithOneMore([a, b, c, d], Sooner(abc, d), e);
    assert [a, b, c, d] + [e] == [a, b, c, d, e];
  }

  lemma WaitIsFirst(s: State, now: int, cap: Resources)
    requires WellSized(s, cap) && NextActions(s, now).Ok? && DesiredResources(s, now).Ok?
    ensures var a := NextActions(s, now).value;
      var first := First(s, now, a, DesiredResources(s, now).value.resources);
      a.wait == if first.Some? && first.value < MAX_DURATION then first else None
  {
    NextActionsOutcome(s, now, cap);
    DecisionsAre(s, now, cap);
    var a, d := NextActions(s, now).value, DesiredResources(s, now).value;
    DesiredWaitIs(s, now, a);
    PluginWaitIs(s, now, a, d.resources);
    NeonVMWaitIs(s, now, a, d.resources);
    UpscaleWaitIs(s, now, a, d.resources, cap);
    DownscaleWaitIs(s, now, a, d.resources);
    ShortestOfFive(DesiredWait(s, now, d, a.monitorDownscale),
                   CalculatePluginAction(s, now, d.resources).value.wait,
                   CalculateNeonVMAction(s, now, d.resources, PluginRequestInView(s, a.pluginRequest)).value.wait,
                   CalculateMonitorUpscaleAction(s, now, d.resources).value.wait,
                   CalculateMonitorDownscaleAction(s, now, d.resources, a.monitorUpscale.Some?).value.wait);
  }

  /**
   * Whenever a wait is returned, a timer that matters ends exactly when it is over, and none that matters ends
   * sooner. Without a wait no timer that matters ends within the largest duration.
   */
  lemma WaitIsExact(s: State, now: int, cap: Resources)
    requires WellSized(s, cap) && NextActions(s, now).Ok?
    ensures DesiredResources(s, now).Ok?
    ensures var a, d := NextActions(s, now).value, DesiredResources(s, now).value.resources;
      && (a.wait.Some? ==> 0 < a.wait.value < MAX_DURATION && IsFirst(s, now, a, d, a.wait.value))
      && (a.wait.None? ==> NoneBefore(s, now, a, d, MAX_DURATION))
  {
    DecisionsAre(s, now, cap);
    WaitIsFirst(s, now, cap);
    var a, d := NextActions(s, now).value, DesiredResources(s, now).value.resources;
    forall timer | Matters(s, now, a, d, timer)
      ensures NoLater(First(s, now, a, d), Left(s, now, a, d, timer))
    {
      FirstIsNoLater(s, now, a, d, timer);
    }
    if a.wait.Some? {
      FirstIsOneOfThem(s, now, a, d);
      var timer :| First(s, now, a, d) == Left(s, now, a, d, timer);
      assert Matters(s, now, a, d, timer);
    }
  }

  /** The first decision of a fresh agent, whenever it is made: report the usage to the plugin, and nothing else. */
  lemma FreshAgentReports(vm: VmInfo, config: Config, goal: Goal, now: int, cap: Resources)
    requires ConfigOk(config.computeUnit, vm.slotSize, cap) && VmOk(vm, cap)
    ensures NextActions(NewState(vm, config, goal), now) == Ok(ActionSet(None, Some(vm.Using()), None, None, None))
  {
    var s := NewState(vm, config, goal);
    NextActionsOutcome(s, now, cap);
    DecisionsAre(s, now, cap);
    WaitIsExact(s, now, cap);
  }
}
