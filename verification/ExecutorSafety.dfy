/**
 * The bounds of the scaling state machine, lifted to the executor: every interleaving of the workers drives the
 * scaling state by steps of the state machine, except where a worker begins a stale action; and exactly when
 * such a beginning does harm.
 */
module ExecutorSafety {
  import opened Api
  import opened CoreState
  import P = CoreProposals
  import C = CoreSafety
  import opened ExecutorCore
  import opened ExecutorWorkers

  // ---- which step of the state machine an event makes -------------------------------------------

  function ReplyStep(w: WorkerId, outcome: Outcome): (step: S.Step)
    requires Possible(w, outcome)
  {
    match w
    case PluginWorker => (match outcome case Permitted(at, permit) => S.PluginReply(at, permit) case Failed(at) => S.PluginFailure(at))
    case NeonVMWorker => (match outcome case Succeeded => S.NeonVMSuccess case Failed(at) => S.NeonVMFailure(at))
    case UpscaleWorker => (match outcome case Succeeded => S.UpscaleSuccess case Failed(at) => S.UpscaleFailure(at))
    case DownscaleWorker => (
      match outcome
      case Succeeded => S.DownscaleAllow
      case Denied(at) => S.DownscaleDeny(at)
      case Failed(at) => S.DownscaleFailure(at))
  }

  function StartStep(w: WorkerId, decidedAt: int, now: int): (step: S.Step) {
    match w
    case PluginWorker => S.StartPlugin(decidedAt, now)
    case NeonVMWorker => S.StartNeonVM(decidedAt)
    case UpscaleWorker => S.StartUpscale(decidedAt)
    case DownscaleWorker => S.StartDownscale(decidedAt)
  }

  /** The worker's action set is the newest, so the optimistic lock lets it begin. */
  predicate Begins(sys: System, e: Event)
    requires Sound(sys) && Enabled(sys, e)
  {
    e.Begin? && Unchanged(sys.shared, sys.workers[e.w].pc.last)
  }

  /** The step of a reply, an outside update or a change of connection. */
  function OutsideStep(sys: System, e: Event): (step: Option<S.Step>)
    requires Sound(sys) && Enabled(sys, e)
  {
    match e
    case Finish(w, outcome) => if Dropped(sys, w) then None else Some(ReplyStep(w, outcome))
    case External(update) => Some(update)
    case Disconnect => Some(S.Reset)
    case Connect => Some(S.Active(true))
    case _ => None
  }

  lemma ReplyIsStep(sys: System, w: WorkerId, outcome: Outcome)
    requires Inv(sys) && Enabled(sys, Finish(w, outcome)) && !Dropped(sys, w)
    ensures S.Enabled(sys.shared.core, ReplyStep(w, outcome))
    ensures Replied(sys.shared.core, w, outcome) == CoreOk(S.Apply(sys.shared.core, ReplyStep(w, outcome)))
  {
    ReplyFindsItsRequest(sys, w, outcome);
  }

  /** Whatever does not begin a request either leaves the scaling state alone or makes a step of the state machine. */
  lemma OutsideIsStep(sys: System, e: Event)
    requires Inv(sys) && Enabled(sys, e) && Happens(sys, e).Running? && !Begins(sys, e)
    ensures var core, core' := sys.shared.core, Happens(sys, e).sys.shared.core;
      match OutsideStep(sys, e)
      case None => core' == core
      case Some(step) => S.Enabled(core, step) && core' == S.Apply(core, step)
  {
    match e
    case Finish(w, outcome) => if !Dropped(sys, w) { ReplyIsStep(sys, w, outcome); }
    case _ =>
  }

  // ---- beginning an action, stale or not --------------------------------------------------------

  ghost predicate TargetFits(w: WorkerId, target: Resources, slot: nat, cap: Resources) {
    if TalksToMonitor(w) then P.Fits(target, slot, cap) else target.Leq(cap)
  }

  ghost predicate SetFits(a: ActionSet, slot: nat, cap: Resources) {
    forall w :: ActionFor(w, a).Some? ==> TargetFits(w, ActionFor(w, a).value, slot, cap)
  }

  /** What beginning a request for `target` must respect, in the state in which it begins. */
  ghost predicate Lands(core: State, w: WorkerId, target: Resources)
    requires core.vm.slotSize > 0
  {
    match w
    case PluginWorker => true
    case NeonVMWorker =>
      var landing := core.vm.SetUsing(target).Using();
      && (core.monitor.approved.Some? ==> core.monitor.approved.value.Leq(landing))
      && (core.monitor.ongoingRequest.Some? ==> core.monitor.ongoingRequest.value.requested.Leq(landing))
      && landing.Leq(PluginApprovedUpperBound(core))
    case UpscaleWorker => C.Floor(core, target)
    case DownscaleWorker => C.Floor(core, target) && (core.monitor.approved.Some? ==> target.Leq(core.monitor.approved.value))
  }

  /** Beginning a request keeps the bounds if and only if it lands within them, however old its action set is. */
  lemma StartedKeepsBoundsIff(core: State, w: WorkerId, now: int, target: Resources, cap: Resources)
    requires C.Inv(core, cap) && TargetFits(w, target, core.vm.slotSize, cap)
    ensures C.Inv(Started(core, w, now, target), cap) <==> Lands(core, w, target)
  {
  }

  /** An action of the cached set is an action of the state machine. */
  lemma FreshBeginIsStep(sys: System, w: WorkerId, decidedAt: int, now: int)
    requires Inv(sys) && Enabled(sys, Begin(w, now)) && Begins(sys, Begin(w, now)) && sys.shared.actions.Some?
    requires NextActions(sys.shared.core, decidedAt) == Ok(sys.shared.actions.value.actions)
    ensures var core, step := sys.shared.core, StartStep(w, decidedAt, now);
      && S.Enabled(core, step)
      && Started(core, w, now, ActionFor(w, sys.workers[w].pc.last.actions).value) == S.Apply(core, step)
  {
    assert Wants(sys, w);
    assert sys.workers[w].pc.last.actions == sys.shared.actions.value.actions;
  }

  // ---- the bounds over executor runs ------------------------------------------------------------

  /** The scaling state is within its bounds, and so are the sizes of all actions that may still be begun. */
  ghost predicate BoundsInv(sys: System, slot: nat, cap: Resources) {
    && Inv(sys) && C.Inv(sys.shared.core, cap) && sys.shared.core.vm.slotSize == slot
    && (sys.shared.actions.Some? ==> SetFits(sys.shared.actions.value.actions, slot, cap))
    && (forall w :: sys.workers[w].pc.Deciding? ==> SetFits(sys.workers[w].pc.last.actions, slot, cap))
  }

  /** VM updates are within the size limits. */
  ghost predicate UpdateOk(sys: System, e: Event, cap: Resources) {
    e.External? ==> C.EnvironmentOk(sys.shared.core, e.update, cap)
  }

  /** No overlap outside, and nothing begun that does not land. */
  ghost predicate Harmless(sys: System, e: Event)
    requires Inv(sys) && Enabled(sys, e) && Happens(sys, e).Running?
  {
    if Begins(sys, e) then Lands(sys.shared.core, e.w, ActionFor(e.w, sys.workers[e.w].pc.last.actions).value)
    else
      OutsideIsStep(sys, e);
      OutsideStep(sys, e).Some? ==> !C.Overlap(sys.shared.core, OutsideStep(sys, e).value)
  }

  lemma EventKeepsOrderIff(sys: System, e: Event, slot: nat, cap: Resources)
    requires BoundsInv(sys, slot, cap) && Enabled(sys, e) && Happens(sys, e).Running? && UpdateOk(sys, e, cap)
    ensures C.Inv(Happens(sys, e).sys.shared.core, cap) <==> Harmless(sys, e)
  {
    if Begins(sys, e) {
      var target := ActionFor(e.w, sys.workers[e.w].pc.last.actions).value;
      StartedKeepsBoundsIff(sys.shared.core, e.w, e.now, target, cap);
    } else {
      OutsideIsStep(sys, e);
      if OutsideStep(sys, e).Some? {
        C.StepKeepsInvariantIff(sys.shared.core, OutsideStep(sys, e).value, cap);
      }
    }
  }

  /** For an action of the cached set, landing within the bounds is the same as not being an overlap. */
  lemma FreshLandsIff(sys: System, w: WorkerId, decidedAt: int, now: int, slot: nat, cap: Resources)
    requires BoundsInv(sys, slot, cap) && Enabled(sys, Begin(w, now)) && Begins(sys, Begin(w, now)) && sys.shared.actions.Some?
    requires NextActions(sys.shared.core, decidedAt) == Ok(sys.shared.actions.value.actions)
    ensures S.Enabled(sys.shared.core, StartStep(w, decidedAt, now))
    ensures Lands(sys.shared.core, w, ActionFor(w, sys.workers[w].pc.last.actions).value) <==>
      !C.Overlap(sys.shared.core, StartStep(w, decidedAt, now))
  {
    var core := sys.shared.core;
    FreshBeginIsStep(sys, w, decidedAt, now);
    C.StepKeepsInvariantIff(core, StartStep(w, decidedAt, now), cap);
    StartedKeepsBoundsIff(core, w, now, ActionFor(w, sys.workers[w].pc.last.actions).value, cap);
  }

  lemma DecisionFits(core: State, now: int, cap: Resources)
    requires P.WellSized(core, cap) && NextActions(core, now).Ok?
    ensures SetFits(NextActions(core, now).value, core.vm.slotSize, cap)
  {
    P.ProposalFacts(core, now, cap);
  }

  lemma SlotSizeIsKept(sys: System, e: Event, cap: Resources)
    requires Inv(sys) && Enabled(sys, e) && Happens(sys, e).Running? && UpdateOk(sys, e, cap)
    ensures Happens(sys, e).sys.shared.core.vm.slotSize == sys.shared.core.vm.slotSize
  {
    if !Begins(sys, e) {
      OutsideIsStep(sys, e);
    }
  }

  lemma FetchKeepsFits(sys: System, w: WorkerId, now: int, slot: nat, cap: Resources)
    requires BoundsInv(sys, slot, cap) && Enabled(sys, Fetch(w, now)) && AfterFetch(sys, w, now).Running?
    ensures var sys' := AfterFetch(sys, w, now).sys;
      && Total(sys')
      && (sys'.shared.actions.Some? ==> SetFits(sys'.shared.actions.value.actions, slot, cap))
      && (forall v :: sys'.workers[v].pc.Deciding? ==> SetFits(sys'.workers[v].pc.last.actions, slot, cap))
  {
    if sys.shared.actions.None? {
      DecisionFits(sys.shared.core, now, cap);
    }
  }

  lemma EventKeepsFits(sys: System, e: Event, slot: nat, cap: Resources)
    requires BoundsInv(sys, slot, cap) && Enabled(sys, e) && Happens(sys, e).Running?
    ensures var sys' := Happens(sys, e).sys;
      && Total(sys')
      && (sys'.shared.actions.Some? ==> SetFits(sys'.shared.actions.value.actions, slot, cap))
      && (forall v :: sys'.workers[v].pc.Deciding? ==> SetFits(sys'.workers[v].pc.last.actions, slot, cap))
  {
    if e.Fetch? {
      FetchKeepsFits(sys, e.w, e.now, slot, cap);
    }
  }

  /** From a state within the bounds an event of the executor keeps them if and only if it is harmless. */
  lemma EventKeepsBoundsIff(sys: System, e: Event, slot: nat, cap: Resources)
    requires BoundsInv(sys, slot, cap) && Enabled(sys, e) && Happens(sys, e).Running? && UpdateOk(sys, e, cap)
    ensures BoundsInv(Happens(sys, e).sys, slot, cap) <==> Harmless(sys, e)
  {
    EventKeepsInv(sys, e);
    SlotSizeIsKept(sys, e, cap);
    EventKeepsFits(sys, e, slot, cap);
    EventKeepsOrderIff(sys, e, slot, cap);
  }

  lemma StartIsBounded(vm: VmInfo, config: Config, goal: Goal, cap: Resources)
    requires P.ConfigOk(config.computeUnit, vm.slotSize, cap) && P.VmOk(vm, cap)
    ensures BoundsInv(Initial(NewState(vm, config, goal)), vm.slotSize, cap)
  {
    InitialKeepsInv(vm, config, goal);
    C.NewStateKeepsInvariant(vm, config, goal, cap);
  }
}
