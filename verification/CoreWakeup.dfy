/**
 * The wake-up time that accompanies an action set: nothing new can be proposed before it, so an agent
 * that sleeps until then misses no request.
 */
module CoreWakeup {
  import opened Api
  import opened CoreState
  import opened CoreProposals
  import opened CoreProgress

  lemma {:induction false} ShortestWaitFacts(waits: seq<Option<int>>)
    ensures ShortestWait(waits) <= MAX_DURATION
    ensures forall i :: 0 <= i < |waits| && waits[i].Some? ==> ShortestWait(waits) <= waits[i].value
    ensures (forall i :: 0 <= i < |waits| && waits[i].Some? ==> waits[i].value > 0) ==> ShortestWait(waits) > 0
  {
    if waits != [] {
      ShortestWaitFacts(waits[..|waits| - 1]);
    }
  }

  /** How long the state is known to stay quiet: the wait, or the largest duration if there is none. */
  function QuietPeriod(a: ActionSet): (d: int) {
    if a.wait.Some? then a.wait.value else MAX_DURATION
  }

  lemma DesiredWaitPositive(s: State, now: int, down: Option<ChangeAction>)
    requires s.config.computeUnit.NonZero() && DesiredResources(s, now).Ok?
    ensures var w := DesiredWait(s, now, DesiredResources(s, now).value, down);
      w.Some? ==> w.value > 0
  {
  }

  /** Every wait that is returned is strictly positive. */
  lemma WaitIsPositive(s: State, now: int)
    requires s.config.computeUnit.NonZero() && NextActions(s, now).Ok?
    ensures NextActions(s, now).value.wait.Some? ==> NextActions(s, now).value.wait.value > 0
  {
    var desired := DesiredResources(s, now).value;
    var plugin := CalculatePluginAction(s, now, desired.resources).value;
    var neonvm := CalculateNeonVMAction(s, now, desired.resources, PluginRequestInView(s, plugin.action)).value;
    var up := CalculateMonitorUpscaleAction(s, now, desired.resources).value;
    var down := CalculateMonitorDownscaleAction(s, now, desired.resources, up.action.Some?).value;
    DesiredWaitPositive(s, now, down.action);
    ShortestWaitFacts([DesiredWait(s, now, desired, down.action), plugin.wait, neonvm.wait, up.wait, down.wait]);
  }

  /** The five waits bound the quiet period. */
  lemma QuietPeriodBounds(s: State, now: int)
    requires s.config.computeUnit.NonZero() && NextActions(s, now).Ok?
    ensures var desired := DesiredResources(s, now).value;
      var plugin := CalculatePluginAction(s, now, desired.resources).value;
      var neonvm := CalculateNeonVMAction(s, now, desired.resources, PluginRequestInView(s, plugin.action)).value;
      var up := CalculateMonitorUpscaleAction(s, now, desired.resources).value;
      var down := CalculateMonitorDownscaleAction(s, now, desired.resources, up.action.Some?).value;
      var first := DesiredWait(s, now, desired, down.action);
      var q := QuietPeriod(NextActions(s, now).value);
      && (first.Some? ==> q <= first.value)
      && (plugin.wait.Some? ==> q <= plugin.wait.value)
      && (neonvm.wait.Some? ==> q <= neonvm.wait.value)
      && (up.wait.Some? ==> q <= up.wait.value)
      && (down.wait.Some? ==> q <= down.wait.value)
  {
    var desired := DesiredResources(s, now).value;
    var plugin := CalculatePluginAction(s, now, desired.resources).value;
    var neonvm := CalculateNeonVMAction(s, now, desired.resources, PluginRequestInView(s, plugin.action)).value;
    var up := CalculateMonitorUpscaleAction(s, now, desired.resources).value;
    var down := CalculateMonitorDownscaleAction(s, now, desired.resources, up.action.Some?).value;
    var waits := [DesiredWait(s, now, desired, down.action), plugin.wait, neonvm.wait, up.wait, down.wait];
    ShortestWaitFacts(waits);
    assert waits[0] == DesiredWait(s, now, desired, down.action) && waits[1] == plugin.wait && waits[2] == neonvm.wait
           && waits[3] == up.wait && waits[4] == down.wait;
  }

  // ---- nothing changes before the wake-up -------------------------------------------------------

  /** An input that did not change the outcome can expire without changing it. */
  lemma DesiredWithoutEffect(s: State, up: bool, denied: bool, up': bool, denied': bool)
    requires s.config.computeUnit.NonZero()
    requires up ==> s.monitor.requestedUpscale.Some?
    requires denied ==> s.monitor.deniedDownscale.Some?
    requires up' ==> up
    requires denied' ==> denied
    requires DesiredWith(s, up, denied).upscaleAffected ==> up' == up
    requires DesiredWith(s, up, denied).deniedAffected ==> denied' == denied
    ensures DesiredWith(s, up', denied') == DesiredWith(s, up, denied)
  {
  }

  /**
   * The expiry of a denial that holds the desired resources is not waited for while a monitor request is in
   * flight, so it must not have come by `t`.
   */
  predicate NotForgotten(s: State, now: int, t: int)
    requires s.config.computeUnit.NonZero() && DesiredResources(s, now).Ok?
  {
    DesiredResources(s, now).value.deniedAffected && s.monitor.ongoingRequest.Some? ==>
      TimeUntilDeniedDownscaleExpired(s, t) > 0
  }

  lemma DesiredUnchanged(s: State, now: int, t: int)
    requires s.config.computeUnit.NonZero() && DesiredResources(s, now).Ok?
    requires NotForgotten(s, now, t)
    requires now <= t
    requires var w := DesiredWait(s, now, DesiredResources(s, now).value, None);
      w.Some? ==> t < now + w.value
    ensures DesiredResources(s, t) == DesiredResources(s, now)
  {
    DesiredWithoutEffect(s,
      TimeUntilRequestedUpscalingExpired(s, now) > 0, TimeUntilDeniedDownscaleExpired(s, now) > 0,
      TimeUntilRequestedUpscalingExpired(s, t) > 0, TimeUntilDeniedDownscaleExpired(s, t) > 0);
  }

  lemma PluginQuiet(s: State, now: int, t: int, d: Resources)
    requires CalculatePluginAction(s, now, d).Ok? && CalculatePluginAction(s, now, d).value.action.None?
    requires now <= t
    requires var w := CalculatePluginAction(s, now, d).value.wait; w.Some? ==> t < now + w.value
    ensures CalculatePluginAction(s, t, d).Ok? && CalculatePluginAction(s, t, d).value.action.None?
  {
  }

  lemma NeonVMQuiet(s: State, now: int, t: int, d: Resources, requested: Option<Resources>)
    requires CalculateNeonVMAction(s, now, d, requested).Ok? && CalculateNeonVMAction(s, now, d, requested).value.action.None?
    requires now <= t
    requires var w := CalculateNeonVMAction(s, now, d, requested).value.wait; w.Some? ==> t < now + w.value
    ensures CalculateNeonVMAction(s, t, d, requested).Ok? && CalculateNeonVMAction(s, t, d, requested).value.action.None?
  {
  }

  lemma UpscaleQuiet(s: State, now: int, t: int, d: Resources)
    requires CalculateMonitorUpscaleAction(s, now, d).Ok? && CalculateMonitorUpscaleAction(s, now, d).value.action.None?
    requires now <= t
    requires var w := CalculateMonitorUpscaleAction(s, now, d).value.wait; w.Some? ==> t < now + w.value
    ensures CalculateMonitorUpscaleAction(s, t, d).Ok? && CalculateMonitorUpscaleAction(s, t, d).value.action.None?
  {
  }

  lemma DownscaleQuiet(s: State, now: int, t: int, d: Resources)
    requires CalculateMonitorDownscaleAction(s, now, d, false).Ok?
    requires CalculateMonitorDownscaleAction(s, now, d, false).value.action.None?
    requires now <= t
    requires var w := CalculateMonitorDownscaleAction(s, now, d, false).value.wait; w.Some? ==> t < now + w.value
    ensures CalculateMonitorDownscaleAction(s, t, d, false).Ok?
    ensures CalculateMonitorDownscaleAction(s, t, d, false).value.action.None?
  {
  }

  /** A moment before each of the five waits is over, if there is one. */
  ghost predicate BeforeWaits(s: State, now: int, t: int)
    requires s.config.computeUnit.NonZero() && NextActions(s, now).Ok? && NextActions(s, now).value.ProposesNothing()
  {
    var d := DesiredResources(s, now).value;
    && Before(DesiredWait(s, now, d, None), now, t)
    && Before(CalculatePluginAction(s, now, d.resources).value.wait, now, t)
    && Before(CalculateNeonVMAction(s, now, d.resources, PluginRequestInView(s, None)).value.wait, now, t)
    && Before(CalculateMonitorUpscaleAction(s, now, d.resources).value.wait, now, t)
    && Before(CalculateMonitorDownscaleAction(s, now, d.resources, false).value.wait, now, t)
  }

  predicate Before(wait: Option<int>, now: int, t: int) {
    wait.Some? ==> t < now + wait.value
  }

  lemma QuietBeforeWaits(s: State, now: int, t: int)
    requires s.config.computeUnit.NonZero()
    requires NextActions(s, now).Ok? && NextActions(s, now).value.ProposesNothing()
    requires NotForgotten(s, now, t) && now <= t && BeforeWaits(s, now, t)
    ensures NextActions(s, t).Ok? && NextActions(s, t).value.ProposesNothing()
  {
    DesiredUnchanged(s, now, t);
    var d := DesiredResources(s, now).value.resources;
    PluginQuiet(s, now, t, d);
    NeonVMQuiet(s, now, t, d, PluginRequestInView(s, None));
    UpscaleQuiet(s, now, t, d);
    DownscaleQuiet(s, now, t, d);
  }

  /**
   * If nothing is proposed now, then nothing is proposed, and no guard fires, at any moment before the
   * wake-up time on the same state. A denied downscale that holds the desired resources while a monitor
   * request is in flight must not expire before that moment: see `NothingBeforeWakeupIff`.
   */
  lemma NothingBeforeWakeup(s: State, now: int, t: int)
    requires s.config.computeUnit.NonZero()
    requires NextActions(s, now).Ok? && NextActions(s, now).value.ProposesNothing()
    requires NotForgotten(s, now, t)
    requires now <= t < now + QuietPeriod(NextActions(s, now).value)
    ensures NextActions(s, t).Ok? && NextActions(s, t).value.ProposesNothing()
  {
    QuietPeriodBounds(s, now);
    QuietBeforeWaits(s, now, t);
  }

  // ---- no wake-up at all ------------------------------------------------------------------------

  predicate Past(at: Option<int>, now: int) {
    at.Some? ==> at.value <= now
  }

  /** Every configured duration is below the largest one, and nothing recorded lies in the future. */
  predicate Plausible(s: State, now: int) {
    var c := s.config;
    && c.neonvmRetryWait < MAX_DURATION && c.pluginRequestTick < MAX_DURATION && c.pluginRetryWait < MAX_DURATION
    && c.pluginDeniedRetryWait < MAX_DURATION && c.monitorDeniedDownscaleCooldown < MAX_DURATION
    && c.monitorRequestedUpscaleValidPeriod < MAX_DURATION && c.monitorRetryWait < MAX_DURATION
    && (s.plugin.lastRequest.Some? ==> s.plugin.lastRequest.value.at <= now)
    && Past(s.plugin.lastFailureAt, now) && Past(s.neonvm.requestFailedAt, now)
    && Past(s.monitor.downscaleFailureAt, now) && Past(s.monitor.upscaleFailureAt, now)
    && (s.monitor.requestedUpscale.Some? ==> s.monitor.requestedUpscale.value.at <= now)
    && (s.monitor.deniedDownscale.Some? ==> s.monitor.deniedDownscale.value.at <= now)
  }

  lemma {:induction false} ShortestIsOneOfThem(waits: seq<Option<int>>)
    requires forall i :: 0 <= i < |waits| && waits[i].Some? ==> waits[i].value < MAX_DURATION
    ensures ShortestWait(waits) == MAX_DURATION <==> forall i :: 0 <= i < |waits| ==> waits[i].None?
  {
    if waits != [] {
      ShortestIsOneOfThem(waits[..|waits| - 1]);
    }
  }

  predicate Short(wait: Option<int>) {
    wait.Some? ==> wait.value < MAX_DURATION
  }

  lemma PluginWaitIsShort(s: State, now: int, d: Resources)
    requires Plausible(s, now)
    ensures var r := CalculatePluginAction(s, now, d); r.Ok? ==> Short(r.value.wait)
  {
  }

  lemma DesiredWaitIsShort(s: State, now: int, d: Desired)
    requires Plausible(s, now)
    ensures Short(DesiredWait(s, now, d, None))
  {
  }

  lemma NeonVMWaitIsShort(s: State, now: int, d: Resources, requested: Option<Resources>)
    requires Plausible(s, now)
    ensures var r := CalculateNeonVMAction(s, now, d, requested); r.Ok? ==> Short(r.value.wait)
  {
  }

  lemma MonitorWaitsAreShort(s: State, now: int, d: Resources)
    requires Plausible(s, now)
    ensures var r := CalculateMonitorUpscaleAction(s, now, d); r.Ok? ==> Short(r.value.wait)
    ensures var r := CalculateMonitorDownscaleAction(s, now, d, false); r.Ok? ==> Short(r.value.wait)
  {
  }

  lemma NoWaitAtAll(s: State, now: int, t: int)
    requires s.config.computeUnit.NonZero() && Plausible(s, now)
    requires NextActions(s, now).Ok? && NextActions(s, now).value.ProposesNothing() && NextActions(s, now).value.wait.None?
    ensures BeforeWaits(s, now, t)
  {
    var d := DesiredResources(s, now).value;
    PluginWaitIsShort(s, now, d.resources);
    DesiredWaitIsShort(s, now, d);
    NeonVMWaitIsShort(s, now, d.resources, PluginRequestInView(s, None));
    MonitorWaitsAreShort(s, now, d.resources);
    var waits := [DesiredWait(s, now, d, None),
                  CalculatePluginAction(s, now, d.resources).value.wait,
                  CalculateNeonVMAction(s, now, d.resources, PluginRequestInView(s, None)).value.wait,
                  CalculateMonitorUpscaleAction(s, now, d.resources).value.wait,
                  CalculateMonitorDownscaleAction(s, now, d.resources, false).value.wait];
    ShortestIsOneOfThem(waits);
    assert waits[0].None? && waits[1].None? && waits[2].None? && waits[3].None? && waits[4].None?;
  }

  /** Without a wait, nothing is proposed on the same state at any later moment whatsoever. */
  lemma NothingEverWithoutWait(s: State, now: int, t: int)
    requires s.config.computeUnit.NonZero() && Plausible(s, now)
    requires NextActions(s, now).Ok? && NextActions(s, now).value.ProposesNothing() && NextActions(s, now).value.wait.None?
    requires NotForgotten(s, now, t) && now <= t
    ensures NextActions(s, t).Ok? && NextActions(s, t).value.ProposesNothing()
  {
    NoWaitAtAll(s, now, t);
    QuietBeforeWaits(s, now, t);
  }

  // ---- the expiry that is not waited for --------------------------------------------------------

  /** Before the wake-up the plugin does not come to owe a regular report. */
  lemma StillReported(s: State, now: int, t: int, d: Resources)
    requires CalculatePluginAction(s, now, d).Ok? && CalculatePluginAction(s, now, d).value.action.None? && now <= t
    requires Before(CalculatePluginAction(s, now, d).value.wait, now, t)
    ensures PluginHeldBack(s, t) || Reported(s, t)
  {
  }

  /**
   * The exact extent of the exception: while a monitor request is in flight, nothing is proposed at a moment before
   * the wake-up if and only if plugin and NeonVM are then held back or content with what is then desired.
   */
  lemma NothingBeforeWakeupIff(s: State, now: int, t: int, cap: Resources)
    requires WellSized(s, cap) && s.monitor.ongoingRequest.Some?
    requires NextActions(s, now).Ok? && NextActions(s, now).value.ProposesNothing()
    requires now <= t < now + QuietPeriod(NextActions(s, now).value)
    ensures NextActions(s, t).Ok? && DesiredResources(s, t).Ok?
    ensures var d := DesiredResources(s, t).value.resources;
      NextActions(s, t).value.ProposesNothing() <==>
        && (PluginHeldBack(s, t) || PluginContent(s, t, d))
        && NeonVMContent(s, t, d, PluginRequestInView(s, None))
  {
    NextActionsOutcome(s, now, cap);
    RestsWhileMonitorAnswers(s, t, cap);
    QuietPeriodBounds(s, now);
    StillReported(s, now, t, DesiredResources(s, now).value.resources);
  }
}
