/**
 * A run of a fresh agent to a state in which the expiry of a denied downscale is not waited for: an upscale is in
 * flight, and once the denial expires, a decrease is proposed long before the returned wait is over.
 */
module CoreForgottenExpiry {
  import opened Api
  import opened CoreState
  import opened CoreSteps
  import opened CoreProposals
  import opened CoreOverlapRuns

  function Waits(): (c: Config) {
    Config(Resources(1, 1), 5, 100, 5, 5, 10, 5, 5)
  }

  /** A VM of two units; `memMin` is its least memory. */
  function VmFrom(memMin: nat): (vm: VmInfo) {
    VmInfo(1, 9, 2, memMin, 9, 2, 1)
  }

  function Newborn(): (s: State) {
    NewState(VmFrom(2), Waits(), Goal(1, true))
  }

  function Permitted(): (p: PluginState) {
    PluginState(false, Some(PluginRequested(0, Resources(2, 2))), None, Some(Resources(2, 2)))
  }

  function Denial(): (d: DeniedDownscale) {
    DeniedDownscale(0, Resources(1, 2), Resources(1, 1))
  }

  /** A state of that VM after its permit, with the given monitor state. */
  function With(memMin: nat, m: MonitorState): (s: State) {
    State(Waits(), VmFrom(memMin), Permitted(), m, NeonVMState(None, None), Goal(1, true))
  }

  function Approved(r: Resources): (m: MonitorState) {
    MonitorState(None, None, None, Some(r), None, None)
  }

  function Denied(): (m: MonitorState) {
    MonitorState(None, None, Some(Denial()), Some(Resources(1, 2)), None, None)
  }

  /** An upscale of the CPU in flight, and a denial from moment 0. */
  function Forgetful(): (s: State) {
    With(1, Denied().(ongoingRequest := Some(OngoingMonitorRequest(Upscale, Resources(2, 2)))))
  }

  // ---- the way there ----------------------------------------------------------------------------

  /** The action set from its parts. */
  lemma FromParts(s: State, now: int, d: Desired, plugin: Proposal<Resources>, neonvm: Proposal<ChangeAction>,
                  up: Proposal<ChangeAction>, down: Proposal<ChangeAction>)
    requires s.config.computeUnit.NonZero() && DesiredResources(s, now) == Ok(d)
    requires CalculatePluginAction(s, now, d.resources) == Ok(plugin)
    requires CalculateNeonVMAction(s, now, d.resources, PluginRequestInView(s, plugin.action)) == Ok(neonvm)
    requires CalculateMonitorUpscaleAction(s, now, d.resources) == Ok(up)
    requires CalculateMonitorDownscaleAction(s, now, d.resources, up.action.Some?) == Ok(down)
    ensures NextActions(s, now).Ok?
    ensures Proposed(s, now).pluginRequest == plugin.action && Proposed(s, now).neonvmRequest == neonvm.action
    ensures Proposed(s, now).monitorUpscale == up.action && Proposed(s, now).monitorDownscale == down.action
  {
  }

  lemma DesiredAtFirst(memMin: nat, m: MonitorState, now: int)
    requires memMin == 1 || memMin == 2
    requires m.requestedUpscale.None? && (m.deniedDownscale.None? || (m.deniedDownscale.value.at == 0 && now >= 10))
    ensures DesiredResources(With(memMin, m), now) == Ok(Desired(Resources(1, memMin), false, false))
    ensures DesiredResources(Newborn(), now) == Ok(Desired(Resources(1, 2), false, false))
  {
    assert DesiredWith(Newborn(), false, false) == Desired(Resources(1, 2), false, false);
    var s := With(memMin, m);
    assert s.vm.Using() == Resources(2, 2) && s.vm.MinResources() == Resources(1, memMin) && s.vm.MaxResources() == Resources(9, 9);
    assert GoalResources(s, 1) == Resources(1, 1);
  }

  lemma DesiredWhileDenied(ongoing: Option<OngoingMonitorRequest>, now: int)
    requires 0 <= now < 10
    ensures DesiredResources(With(1, Denied().(ongoingRequest := ongoing)), now) == Ok(Desired(Resources(2, 2), false, true))
  {
    assert DesiredWith(With(1, Denied()), false, true) == Desired(Resources(2, 2), false, true);
    DesiredIgnoresRequests(With(1, Denied()), ongoing);
  }

  lemma DesiredIgnoresRequests(s: State, ongoing: Option<OngoingMonitorRequest>)
    requires s.config.computeUnit.NonZero() && s.monitor.deniedDownscale.Some?
    ensures DesiredWith(s.(monitor := s.monitor.(ongoingRequest := ongoing)), false, true) == DesiredWith(s, false, true)
  {
  }

  /** What the plugin was granted covers all that is desired here. */
  lemma PluginIsContent(memMin: nat, m: MonitorState, now: int, d: Resources)
    requires 0 <= now < 100 && d.Leq(Resources(2, 2))
    ensures CalculatePluginAction(With(memMin, m), now, d) == Ok(Proposal(None, Some(100 - now)))
  {
    assert With(memMin, m).vm.Using() == Resources(2, 2);
  }

  lemma NeonVMFollows(memMin: nat, m: MonitorState, now: int, d: Resources)
    requires m.approved.Some? && m.approved.value.Leq(Resources(2, 2)) && d.Leq(Resources(2, 2))
    ensures CalculateNeonVMAction(With(memMin, m), now, d, None) ==
      Ok(if d.Max(m.approved.value) == Resources(2, 2) then Proposal(None, None)
         else Proposal(Some(ChangeAction(Resources(2, 2), d.Max(m.approved.value))), None))
  {
    assert With(memMin, m).vm.Using() == Resources(2, 2);
  }

  lemma MonitorIsAsked(memMin: nat, m: MonitorState, now: int, d: Resources, planned: bool)
    requires memMin == 1 || memMin == 2
    requires m.approved.Some? && m.approved.value.Leq(Resources(2, 2)) && d.Leq(Resources(2, 2))
    requires m.upscaleFailureAt.None? && m.downscaleFailureAt.None?
    requires m.deniedDownscale.None? || planned || m.ongoingRequest.Some?
    ensures var up, s := m.approved.value.Max(d), With(memMin, m);
      CalculateMonitorUpscaleAction(s, now, d) ==
        Ok(if up == m.approved.value || m.ongoingRequest.Some? then Proposal(None, None)
           else Proposal(Some(ChangeAction(m.approved.value, up)), None))
    ensures var down, s := m.approved.value.Min(d.Max(m.approved.value.SaturatingSub(Resources(1, 1)))), With(memMin, m);
      CalculateMonitorDownscaleAction(s, now, d, planned) ==
        Ok(if down == m.approved.value || planned || m.ongoingRequest.Some? then Proposal(None, None)
           else Proposal(Some(ChangeAction(m.approved.value, down)), None))
  {
    var s := With(memMin, m);
    assert s.vm.Using() == Resources(2, 2);
    AddExact(m.approved.value.Max(d), Resources(1, 1));
    DownscaleTargetClosedForm(s, d);
  }

  lemma OnlyOneWait(w: int)
    requires w < MAX_DURATION
    ensures ShortestWait([None, Some(w), None, None, None]) == w
  {
    var a: seq<Option<int>>, b, c, d, e := [None], [None, Some(w)], [None, Some(w), None], [None, Some(w), None, None], [None, Some(w), None, None, None];
    assert e[..4] == d && d[..3] == c && c[..2] == b && b[..1] == a && a[..0] == [];
    assert ShortestWait(a) == MAX_DURATION && ShortestWait(b) == w;
    assert ShortestWait(c) == w && ShortestWait(d) == w;
  }

  // ---- the run ----------------------------------------------------------------------------------

  lemma ReachPermitted()
    ensures Reachable(Newborn(), With(2, RESET_MONITOR))
  {
    var s0 := Newborn();
    ReachStart(s0);
    DesiredAtFirst(2, RESET_MONITOR, 0);
    assert s0.vm.Using() == Resources(2, 2);
    FromParts(s0, 0, Desired(Resources(1, 2), false, false),
              Proposal(Some(Resources(2, 2)), None), Proposal(None, None), Proposal(None, None), Proposal(None, None));
    ReachStep(s0, s0, StartPlugin(0, 0));
    ReachStep(s0, PluginStarting(s0, 0, Resources(2, 2)), PluginReply(0, Resources(2, 2)));
  }

  /** The set proposed after the permit and with an active monitor. */
  lemma ProposedWith(memMin: nat, m: MonitorState, d: Desired, now: int)
    requires (memMin == 1 || memMin == 2) && 0 <= now < 100 && d.resources.Leq(Resources(2, 2))
    requires m.approved.Some? && m.approved.value.Leq(Resources(2, 2))
    requires m.upscaleFailureAt.None? && m.downscaleFailureAt.None?
    requires m.deniedDownscale.None? || m.ongoingRequest.Some? || !d.resources.Leq(m.approved.value)
    requires DesiredResources(With(memMin, m), now) == Ok(d)
    ensures var a, r := m.approved.value, d.resources;
      var up, down := a.Max(r), a.Min(r.Max(a.SaturatingSub(Resources(1, 1))));
      && NextActions(With(memMin, m), now).Ok?
      && Proposed(With(memMin, m), now).pluginRequest.None?
      && Proposed(With(memMin, m), now).neonvmRequest ==
           (if r.Max(a) == Resources(2, 2) then None else Some(ChangeAction(Resources(2, 2), r.Max(a))))
      && Proposed(With(memMin, m), now).monitorUpscale ==
           (if up == a || m.ongoingRequest.Some? then None else Some(ChangeAction(a, up)))
      && (m.ongoingRequest.None? && up == a && down != a ==>
            Proposed(With(memMin, m), now).monitorDownscale == Some(ChangeAction(a, down)))
      && (m.ongoingRequest.Some? ==> Proposed(With(memMin, m), now).monitorDownscale.None?)
  {
    var s, r := With(memMin, m), d.resources;
    PluginIsContent(memMin, m, now, r);
    NeonVMFollows(memMin, m, now, r);
    var planned := m.approved.value.Max(r) != m.approved.value && m.ongoingRequest.None?;
    MonitorIsAsked(memMin, m, now, r, planned);
    FromParts(s, now, d, CalculatePluginAction(s, now, r).value, CalculateNeonVMAction(s, now, r, None).value,
              CalculateMonitorUpscaleAction(s, now, r).value, CalculateMonitorDownscaleAction(s, now, r, planned).value);
  }

  lemma ReachOneCpuApproved()
    ensures Reachable(Newborn(), With(2, Approved(Resources(1, 2))))
  {
    var s0, a := Newborn(), Resources(2, 2);
    ReachPermitted();
    ReachStep(s0, With(2, RESET_MONITOR), Active(true));
    assert With(2, RESET_MONITOR).vm.Using() == a;
    assert MonitorActive(With(2, RESET_MONITOR), true) == With(2, Approved(a));
    DesiredAtFirst(2, Approved(a), 0);
    ProposedWith(2, Approved(a), Desired(Resources(1, 2), false, false), 0);
    ReachStep(s0, With(2, Approved(a)), StartDownscale(0));
    ReachStep(s0, DownscaleStarting(With(2, Approved(a)), Resources(1, 2)), DownscaleAllow);
  }

  lemma ReachDenied()
    ensures Reachable(Newborn(), With(1, Denied()))
  {
    var s0, m := Newborn(), Approved(Resources(1, 2));
    ReachOneCpuApproved();
    ReachStep(s0, With(2, m), VMUpdate(VmFrom(1)));
    assert With(2, m).vm.Using() == Resources(2, 2);
    assert UpdatedVM(With(2, m), VmFrom(1)) == With(1, m);
    DesiredAtFirst(1, m, 0);
    ProposedWith(1, m, Desired(Resources(1, 1), false, false), 0);
    ReachStep(s0, With(1, m), StartDownscale(0));
    ReachStep(s0, DownscaleStarting(With(1, m), Resources(1, 1)), DownscaleDeny(0));
  }

  lemma ReachForgetful()
    ensures Reachable(Newborn(), Forgetful())
  {
    ReachDenied();
    assert Denied() == Denied().(ongoingRequest := None);
    DesiredWhileDenied(None, 0);
    ProposedWith(1, Denied(), Desired(Resources(2, 2), false, true), 0);
    ReachStep(Newborn(), With(1, Denied()), StartUpscale(0));
  }

  // ---- what is forgotten ------------------------------------------------------------------------

  lemma ForgetfulRests(now: int)
    requires 0 <= now < 10
    ensures NextActions(Forgetful(), now) == Ok(ActionSet(Some(100 - now), None, None, None, None))
  {
    var s, m, d := Forgetful(), Forgetful().monitor, Resources(2, 2);
    DesiredWhileDenied(m.ongoingRequest, now);
    ProposedWith(1, m, Desired(d, false, true), now);
    PluginIsContent(1, m, now, d);
    NeonVMFollows(1, m, now, d);
    MonitorIsAsked(1, m, now, d, false);
    OnlyOneWait(100 - now);
  }

  lemma ForgetfulActs(now: int)
    requires 10 <= now < 100
    ensures NextActions(Forgetful(), now).Ok?
    ensures NextActions(Forgetful(), now).value.neonvmRequest == Some(ChangeAction(Resources(2, 2), Resources(1, 2)))
  {
    DesiredAtFirst(1, Forgetful().monitor, now);
    ProposedWith(1, Forgetful().monitor, Desired(Resources(1, 1), false, false), now);
  }

  /**
   * In a state that a fresh agent reaches, a denial expires at 10. At every moment before, nothing is proposed and the
   * wait reaches until 100; at every moment from then until 100, a decrease is proposed.
   */
  lemma DenialExpiryIsForgotten(now: int, t: int)
    requires 0 <= now < 10 <= t < 100
    ensures var s := Forgetful();
      && Reachable(Newborn(), s)
      && NextActions(s, now) == Ok(ActionSet(Some(100 - now), None, None, None, None))
      && TimeUntilDeniedDownscaleExpired(s, now) > 0 && TimeUntilDeniedDownscaleExpired(s, t) <= 0
      && NextActions(s, t).Ok?
      && NextActions(s, t).value.neonvmRequest == Some(ChangeAction(Resources(2, 2), Resources(1, 2)))
  {
    ReachForgetful();
    ForgetfulRests(now);
    ForgetfulActs(t);
  }
}
