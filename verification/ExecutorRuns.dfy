/** Concrete runs of the executor in which a stale action is begun: it finds no connection, or breaks the bounds. */
module ExecutorRuns {
  import opened Api
  import opened CoreState
  import O = CoreOverlapRuns
  import opened ExecutorWorkers
  import opened ExecutorSafety

  /** The agent of a VM of three units with a goal of one. */
  function Start(): (sys: System) {
    Initial(O.Fresh(3, 1))
  }

  ghost predicate Reachable(sys: System) {
    exists events :: ValidRun(Start(), events) && Exec(Start(), events) == sys
  }

  lemma {:induction false} RunExtends(sys: System, events: seq<Event>, e: Event)
    requires ValidRun(sys, events) && Sound(Exec(sys, events))
    requires Enabled(Exec(sys, events), e) && Happens(Exec(sys, events), e).Running?
    ensures ValidRun(sys, events + [e])
    ensures Exec(sys, events + [e]) == Happens(Exec(sys, events), e).sys
    decreases |events|
  {
    if events == [] {
      assert [e][1..] == [];
    } else {
      assert (events + [e])[1..] == events[1..] + [e];
      RunExtends(Happens(sys, events[0]).sys, events[1..], e);
    }
  }

  lemma ReachEvent(sys: System, e: Event)
    requires Reachable(sys) && Inv(sys) && Enabled(sys, e) && Happens(sys, e).Running?
    ensures Reachable(Happens(sys, e).sys) && Inv(Happens(sys, e).sys)
  {
    var events :| ValidRun(Start(), events) && Exec(Start(), events) == sys;
    RunExtends(Start(), events, e);
    EventKeepsInv(sys, e);
  }

  /** The worker is subscribed and waits while an update it has not seen is there. */
  predicate Ready(sys: System, w: WorkerId) {
    w in sys.workers && sys.workers[w].pc == Waiting && sys.workers[w].viewed != sys.shared.sent
  }

  /** Both workers have subscribed and the monitor is connected. */
  lemma ReachConnected() returns (sys: System)
    ensures Reachable(sys) && Inv(sys) && sys.connection.Some? && sys.shared.actions.None?
    ensures Ready(sys, DownscaleWorker) && Ready(sys, NeonVMWorker) && sys.workers[NeonVMWorker].viewed <= sys.shared.sent
    ensures sys.shared.core == O.Fresh(3, 1).(monitor := RESET_MONITOR.(approved := Some(O.Units(3))))
  {
    O.UnitFacts(3);
    InitialKeepsInv(O.VmUsing(3), O.CONFIG, Goal(1, true));
    var s0 := Start();
    assert ValidRun(s0, []) && Exec(s0, []) == s0;
    ReachEvent(s0, Subscribe(DownscaleWorker));
    var s1 := Happens(s0, Subscribe(DownscaleWorker)).sys;
    ReachEvent(s1, Subscribe(NeonVMWorker));
    var s2 := Happens(s1, Subscribe(NeonVMWorker)).sys;
    ReachEvent(s2, Connect);
    sys := Happens(s2, Connect).sys;
  }

  /** A ready worker wakes, fetches a new action set that has something for it, and is about to begin that. */
  lemma ReachDeciding(sys: System, w: WorkerId, now: int) returns (sys': System)
    requires Reachable(sys) && Inv(sys) && Ready(sys, w) && sys.shared.actions.None?
    requires NextActions(sys.shared.core, now).Ok? && ActionFor(w, NextActions(sys.shared.core, now).value).Some?
    ensures Reachable(sys') && Inv(sys') && Wants(sys', w) && sys'.shared.core == sys.shared.core
    ensures sys'.connection == sys.connection && sys'.shared.sent == sys.shared.sent
    ensures sys'.workers[w].pc.last.actions == NextActions(sys.shared.core, now).value
    ensures forall v :: v != w ==> sys'.workers[v] == sys.workers[v]
    ensures sys'.workers[w].viewed <= sys'.shared.sent
  {
    ReachEvent(sys, Wake(w));
    var s1 := Happens(sys, Wake(w)).sys;
    ReachEvent(s1, Fetch(w, now));
    sys' := Happens(s1, Fetch(w, now)).sys;
  }

  lemma DownscaleIsProposed(core: State)
    requires core == O.Fresh(3, 1).(monitor := RESET_MONITOR.(approved := Some(O.Units(3))))
    ensures NextActions(core, 0).Ok?
    ensures NextActions(core, 0).value.monitorDownscale == Some(ChangeAction(O.Units(3), O.Units(2)))
  {
    O.UnitFacts(1);
    O.UnitFacts(3);
    var s := O.ReachActive();
    O.ProposedInUnits(s, 0, 3, 1);
    P.UpscaleTargetClosedForm(s, O.Units(1), O.CAP);
    P.DownscaleTargetClosedForm(s, O.Units(1));
  }

  /** A connection that is lost between fetching and beginning a downscale makes the agent crash. */
  lemma LostConnectionIsReachable() returns (sys: System)
    ensures Reachable(sys) && Sound(sys) && Enabled(sys, Begin(DownscaleWorker, 0))
    ensures Happens(sys, Begin(DownscaleWorker, 0)) == Crash(NoMonitorHandle)
  {
    var s1 := ReachDownscaleDecided();
    LostConnectionCrashes(s1, DownscaleWorker, 0);
    ReachEvent(s1, Disconnect);
    sys := Happens(s1, Disconnect).sys;
  }

  /** A downscale that its worker is about to begin is in flight, with nothing else changed. */
  lemma ReachDownscaleInFlight(sys: System, target: Resources) returns (sys': System)
    requires Reachable(sys) && Inv(sys) && sys.connection.Some? && Wants(sys, DownscaleWorker)
    requires ActionFor(DownscaleWorker, sys.workers[DownscaleWorker].pc.last.actions) == Some(target)
    ensures Reachable(sys') && Inv(sys') && sys'.shared.core == S.DownscaleStarting(sys.shared.core, target)
    ensures sys'.workers[DownscaleWorker].pc == InFlight(target, sys'.generation)
    ensures sys'.workers[NeonVMWorker] == sys.workers[NeonVMWorker] && sys'.shared.sent == sys.shared.sent + 1
  {
    ReachEvent(sys, Begin(DownscaleWorker, 0));
    sys' := Happens(sys, Begin(DownscaleWorker, 0)).sys;
  }

  lemma ReachApproval(sys: System) returns (sys': System)
    requires Reachable(sys) && Inv(sys) && sys.shared.core.monitor.ongoingRequest.Some?
    requires sys.workers[DownscaleWorker].pc.InFlight? && sys.workers[DownscaleWorker].pc.generation == sys.generation
    ensures Reachable(sys') && Inv(sys') && sys'.shared.core == S.MonitorRequestAccepted(sys.shared.core)
    ensures sys'.workers[NeonVMWorker] == sys.workers[NeonVMWorker] && sys'.shared.sent == sys.shared.sent + 1
    ensures sys'.shared.actions.None?
  {
    FinishKeepsInv(sys, DownscaleWorker, Succeeded);
    ReachEvent(sys, Finish(DownscaleWorker, Succeeded));
    sys' := Happens(sys, Finish(DownscaleWorker, Succeeded)).sys;
  }

  lemma ReachDownscaleDecided() returns (sys: System)
    ensures Reachable(sys) && Inv(sys) && sys.connection.Some? && Wants(sys, DownscaleWorker)
    ensures ActionFor(DownscaleWorker, sys.workers[DownscaleWorker].pc.last.actions) == Some(O.Units(2))
    ensures sys.shared.core == O.Fresh(3, 1).(monitor := RESET_MONITOR.(approved := Some(O.Units(3))))
    ensures Ready(sys, NeonVMWorker) && sys.workers[NeonVMWorker].viewed <= sys.shared.sent
  {
    var s1 := ReachConnected();
    DownscaleIsProposed(s1.shared.core);
    sys := ReachDeciding(s1, DownscaleWorker, 0);
  }

  /** The monitor has approved two units. */
  lemma ReachTwoApproved() returns (sys: System)
    ensures Reachable(sys) && Inv(sys) && sys.shared.actions.None? && Ready(sys, NeonVMWorker)
    ensures sys.shared.core == O.Fresh(3, 1).(monitor := RESET_MONITOR.(approved := Some(O.Units(2))))
  {
    var s1 := ReachDownscaleDecided();
    var s2 := ReachDownscaleInFlight(s1, O.Units(2));
    sys := ReachApproval(s2);
  }

  lemma DecreaseIsProposed(core: State)
    requires core == O.Fresh(3, 1).(monitor := RESET_MONITOR.(approved := Some(O.Units(2))))
    ensures NextActions(core, 0).Ok?
    ensures NextActions(core, 0).value.neonvmRequest == Some(ChangeAction(O.Units(3), O.Units(2)))
  {
    O.UnitFacts(3);
    var s := O.ReachTwoApproved();
    O.ProposedInUnits(s, 0, 3, 1);
  }

  /**
   * A NeonVM decrease that was fetched under one connection and is begun under the next: the lock lets it
   * begin, and it lands below what the new connection approves.
   */
  lemma StaleDecreaseBreaksBounds() returns (sys: System)
    ensures Reachable(sys) && Inv(sys) && sys.shared.actions.None?
    ensures Enabled(sys, Begin(NeonVMWorker, 0)) && Begins(sys, Begin(NeonVMWorker, 0))
    ensures Happens(sys, Begin(NeonVMWorker, 0)).Running? && !Harmless(sys, Begin(NeonVMWorker, 0))
    ensures ActionFor(NeonVMWorker, sys.workers[NeonVMWorker].pc.last.actions) == Some(O.Units(2))
    ensures sys.shared.core == O.Fresh(3, 1).(monitor := RESET_MONITOR.(approved := Some(O.Units(3))))
    ensures sys.workers[NeonVMWorker].viewed <= sys.shared.sent
  {
    var s1 := ReachTwoApproved();
    DecreaseIsProposed(s1.shared.core);
    var s2 := ReachDeciding(s1, NeonVMWorker, 0);
    ReachEvent(s2, Disconnect);
    var s3 := Happens(s2, Disconnect).sys;
    ReachEvent(s3, Connect);
    sys := Happens(s3, Connect).sys;
    O.UnitFacts(3);
    assert sys.shared.core.monitor.approved == Some(O.Units(3));
    assert ActionFor(NeonVMWorker, sys.workers[NeonVMWorker].pc.last.actions) == Some(O.Units(2));
    assert sys.shared.core.vm.SetUsing(O.Units(2)) == O.VmUsing(2);
    O.UnitFacts(2);
  }

  lemma ReachStaleDecrease() returns (sys: System)
    ensures Reachable(sys) && Inv(sys) && sys.workers[NeonVMWorker].pc.InFlight?
    ensures sys.shared.core ==
      S.NeonVMStarting(O.Fresh(3, 1).(monitor := RESET_MONITOR.(approved := Some(O.Units(3)))), O.Units(2))
    ensures sys.workers[NeonVMWorker].viewed <= sys.shared.sent
  {
    var s1 := StaleDecreaseBreaksBounds();
    ReachEvent(s1, Begin(NeonVMWorker, 0));
    sys := Happens(s1, Begin(NeonVMWorker, 0)).sys;
  }

  /** A VM of two units of which the monitor has approved three: the decision procedure panics at every moment. */
  lemma UnsafeAfterDecrease(core: State, now: int)
    requires core == S.NeonVMStarting(O.Fresh(3, 1).(monitor := RESET_MONITOR.(approved := Some(O.Units(3)))), O.Units(2))
    ensures S.Enabled(core, S.NeonVMSuccess)
    ensures var core' := S.NeonVMSucceeded(core);
      !P.Safe(core') && NextActions(core', now) == Panic(InvalidClampArguments)
  {
    O.UnitFacts(2);
    O.UnitFacts(3);
    var active := O.ReachActive();
    assert P.WellSized(core, O.CAP) by {
      assert core == active.(neonvm := active.neonvm.(ongoingRequested := Some(O.Units(2))));
    }
    C.NeonVMSuccessKeepsSizes(core, O.CAP);
    assert S.NeonVMSucceeded(core).vm == O.VmUsing(2);
    P.NextActionsOutcome(S.NeonVMSucceeded(core), now, O.CAP);
  }

  /** Once it has succeeded, approved exceeds using, and the worker's next look for actions crashes the agent. */
  lemma StaleDecreaseCrashes(now: int) returns (sys: System)
    ensures Reachable(sys) && Sound(sys) && !P.Safe(sys.shared.core)
    ensures Enabled(sys, Fetch(NeonVMWorker, now)) && Happens(sys, Fetch(NeonVMWorker, now)) == Crash(DecisionPanic)
  {
    var s1 := ReachStaleDecrease();
    UnsafeAfterDecrease(s1.shared.core, now);
    var done := Finish(NeonVMWorker, Succeeded);
    FinishKeepsInv(s1, NeonVMWorker, Succeeded);
    ReachEvent(s1, done);
    var s2 := Happens(s1, done).sys;
    assert s2.shared.core == S.NeonVMSucceeded(s1.shared.core) && s2.shared.actions.None?;
    assert s2.workers[NeonVMWorker].viewed <= s1.shared.sent < s2.shared.sent;
    ReachEvent(s2, Wake(NeonVMWorker));
    sys := Happens(s2, Wake(NeonVMWorker)).sys;
  }
}
