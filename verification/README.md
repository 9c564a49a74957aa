# Verified model of the autoscaling system

This project models the decision-making and bookkeeping parts of Neon's autoscaling for VMs, and proves
what each of them keeps over every run:

- the **scaling state machine** of the autoscaler-agent (`Core*.dfy`), which negotiates one VM's resources
  with the scheduler plugin (an upper bound, the permit), the vm-monitor (a lower bound, the approval) and
  the NeonVM API (the change itself);
- the **executor** around it (`Broadcast.dfy`, `Executor*.dfy`): workers that share the state under a lock,
  with numbered action sets, a broadcast counter and numbered monitor connections;
- the **reconcile queue** of the scheduler plugin (`ReconcileQueue.dfy`, `Queue*.dfy`), its middleware
  (`ReconcileMiddleware.dfy`, `FailureTracking.dfy`) and the startup barrier (`InitEvents.dfy`);
- **billing** (`Billing.dfy`) and the **batching and sending of events** (`Reporting.dfy`);
- the **checksum stream** of a flat directory (`Checksum.dfy`) and the **metadata patch** of a runner pod
  (`MetadataPatch.dfy`);
- **CPU onlining** inside the VM (`CpuList.dfy`, `CpuScaling.dfy`).

`Api.dfy` holds the resource arithmetic and `Text.dfy` the splitting of text.

`dafny verify dfyconfig.toml` checks everything.

## How it is modelled

State that the code changes in place is a class whose methods are proved against functions on values; loops
are loops. The same functions drive the transition systems (`Step`/`Event`, `Enabled`, `Apply`/`After`) on
which the theorems about whole runs are proved, so a theorem about runs is a theorem about the methods.
Goroutines become interleaved critical sections: one event for each section under a lock.

Time, the goal computed from metrics, responses of the plugin, the monitor and the NeonVM API, handler
results, the order in which maps are walked, results of sends, and failing reads and writes of sysfs are
arbitrary inputs. A Go panic is an explicit outcome (`Panic`, `Crash`, `None`, or a `false` result with
the state as the code leaves it).

What the theorems assume about the environment:

- Scaling: the VM's minimum is at most its maximum, its slot size does not change, a compute unit is nonzero
  and its memory is a whole number of slots, and no sum leaves the range of the machine integers
  (`ConfigOk`, `VmOk`). Steps of the state machine start actions that the decision procedure proposes on the
  current state; `ExecutorCauses` covers actions that are stale by the time they begin.
- The code does not exclude three overlaps of requests: (a) a permit below a NeonVM request in flight is
  accepted, (b) the monitor becomes active while a NeonVM decrease is in flight, (c) a monitor upscale and a
  NeonVM request for less than it are in flight together. `StepKeepsInvariantIff` and `OverlapBreaksSafety`
  show that these are exactly the steps that break the bounds, and `CoreOverlapRuns` reaches each of them
  from a fresh agent.
- Cooldown: the clock does not run backwards and the monitor is activated only after a reset. The executor
  guarantees the second (`ExecutorWorkers.ActivationFollowsReset`).
- Reconciling: objects have unique uids, each object's events come as Added, Modified and at most one Deleted
  (only for the theorem about event kinds), and no error comes with a negative retry time
  (`RangeIsKeptIff`; `NegativeRetryAbandons` shows the harm).
- Startup barrier: an object is not added again between the success of one of its reconciles and the moment that
  is recorded (`AddKeepsInvIff`; `AddingDuringReconcile` is an instance).
- Billing: collection times do not decrease. Checksum: file names have no NUL and files are shorter than 2^64.

Where the code differs from what its comments say, the code is modelled:

- The limit of one compute unit on monitor upscales (`pkg/agent/core/state.go:562-568`) adds the unit to the
  request instead of the approved amount and has no effect; `UpscaleTargetClosedForm` says so. The limit on
  downscales works.
- `updateIfActionsUnchanged` (`pkg/agent/executor/core.go:128-140`) compares with the last *computed* action
  set, so an update that was not followed by a recomputation does not refuse a stale action.
  `CrashesExactly` gives the exact condition under which a monitor worker then finds no connection and
  panics, `NeonVMLandsIff`, `UpscaleLandsIff` and `DownscaleAlwaysLands` say which stale actions break
  the bounds, and `ExecutorRuns` reaches both harms.
- The regular report to the plugin (`pkg/agent/core/state.go:407-459`) goes before an increase that is already permitted, with
  the present usage as its amount, so the permit has to be asked for again; `PermittedIncrease` has the exact condition.
- The backoff after errors (`pkg/plugin/reconcile/middleware.go:296-303`) is first capped by the handler's wish and then made a
  lower bound of the reply, so it never delays a reply with a wish; `ReplyIsExact` says so.
- `ReconcileOnlineCPU` (`pkg/neonvm/cpuscaling/cpuscaler.go:49-52`) reports success if the list of offline
  CPUs cannot be read, and the parser does not accept the empty list that sysfs shows when all CPUs are online.
  `SuccessMeansTarget` and `SucceedsIff` give the exact conditions, `AllOnlineStillSucceeds` an instance.

## Model

| member | source | states |
|---|---|---|
| `Api.SetUsingLands` | pkg/api/vminfo.go:150-161 | Setting the usage and reading it back gives the CPU exactly and the largest whole number of memory slots that fits: never more than was asked for. |
| `Api.SetUsingRoundTrip` | pkg/api/vminfo.go:150-161 | Setting a VM's usage to what it uses changes nothing. |
| `CoreProposals.ClampBetween` | pkg/agent/core/state.go:983-1019 | The clamp goes through if and only if its bounds surround the current amount, and then the result lies between them. |
| `CoreProposals.MinRequiredFacts` | pkg/agent/core/state.go:969-979 | After a denial the required amount exceeds the denied one in every field that was a real decrease, and never exceeds what was current. |
| `CoreProposals.DesiredFacts` | pkg/agent/core/state.go:713-883 | The desired resources stay within the VM's bounds unless a denied downscale holds them higher. |
| `CoreDemand.RequiredUnitsIsLeast` | pkg/agent/core/state.go:934-967 | The number of compute units asked for after a wish or a denial is the least whose amount exceeds the given one. |
| `CoreDemand.DemandsAreMet` | pkg/agent/core/state.go:713-832 | Up to the VM's maximum the desired resources cover the goal from the metrics, the current usage while metrics are missing, and more than the base of an explicit upscale in every field it names. |
| `CoreDemand.UnitsWantedIsLeast` | pkg/agent/core/state.go:760-800 | A number of compute units covers the goal, exceeds the base of the wish in the fields it names and the denied amount, as far as they are in effect, if and only if it is at least the number wanted. |
| `CoreDemand.NothingExtraIsWanted` | pkg/agent/core/state.go:713-832 | Whatever wish and denial are in effect, the desired resources are exactly that least number of compute units (or the usage while metrics are missing) within the VM's bounds, and above them only by what a denial demands. |
| `CoreDemand.TooManyUnitsWrap` | pkg/agent/core/state.go:800-802 | A goal that is a multiple of 65536 compute units is truncated to none, so only the VM's minimum is desired. |
| `CoreProposals.UpscaleTargetClosedForm` | pkg/agent/core/state.go:555-568 | A monitor upscale asks for as much of the desired amount as the VM uses and never less than is approved; the one-unit limit has no effect. |
| `CoreProposals.DownscaleTargetClosedForm` | pkg/agent/core/state.go:629-642 | A monitor downscale goes towards the desired amount by at most one compute unit in each field. |
| `CoreProposals.NextActionsOutcome` | pkg/agent/core/state.go:303-372 | The clamp guards of the decision procedure hold in exactly the states with approved ≤ using ≤ permit. |
| `CoreProposals.ProposalFacts` | pkg/agent/core/state.go:303-544 | A NeonVM target lies between approval and permit and never above a plugin request in flight or planned; monitor requests are proposed one at a time, only while none is in flight, within the VM's usage. |
| `CoreDecision.DecisionsAre` | pkg/agent/core/state.go:303-701 | Every decision exactly, whatever is in flight or backing off: the plugin is asked for the larger of desired and used if that is not what it permits and was not lately denied, and otherwise told at the tick what is in use; NeonVM is asked for the desired amount within approval and permit unless a plugin request asks for less; the monitor hears of more before it is asked for less. |
| `CoreDecision.PanicsExactly` | pkg/agent/core/state.go:303-701 | The decision procedure panics if and only if approved ≤ using ≤ permit is broken, or the downscale due now was denied in every field and the cooldown of that denial is not over. |
| `CoreSafety.StepKeepsSizes` | pkg/agent/core/state.go:1047-1278 | Every step, overlap or not, keeps all recorded amounts within the machine ranges and lower bounds slot-aligned. |
| `CoreSafety.StepKeepsInvariantIff` | pkg/agent/core/state.go:1047-1278 | From a state that keeps the invariant a step keeps it if and only if it is not one of the overlaps (a)-(c). |
| `CoreSafety.RunKeepsInvariant` | pkg/agent/core/state.go:1047-1278 | Every overlap-free run keeps approved ≤ using ≤ permit, now and once the requests in flight have landed. |
| `CoreSafety.RunsAreSafe` | pkg/agent/core/state.go:303-544 | In every overlap-free run of a fresh agent approved ≤ using ≤ permit, no clamp guard fires, and every proposal is within the bounds. |
| `CoreSafety.OverlapBreaksSafety` | pkg/agent/core/state.go:983-1035 | After any overlap the replies to the requests in flight lead to a state where the bounds are broken and the decision procedure panics at every moment. |
| `CoreOverlapRuns.PermitBelowInFlightRequest` | pkg/agent/core/state.go:1099-1140 | Overlap (a) is reached by a concrete run of a fresh agent. |
| `CoreOverlapRuns.ActivationDuringDecrease` | pkg/agent/core/state.go:1152-1171 | Overlap (b) is reached by a concrete run of a fresh agent. |
| `CoreOverlapRuns.DecreaseDuringUpscale` | pkg/agent/core/state.go:480-544 | Overlap (c) is reached by a concrete run of a fresh agent. |
| `CoreCooldown.DownscaleExceedsDenied` | pkg/agent/core/state.go:786-833 | While the cooldown lasts, the downscale that would be requested exceeds the denied one wherever that was a decrease, and in at least one field. |
| `CoreCooldown.RunKeepsCooldown` | pkg/agent/core/state.go:1199-1230 | Every disciplined run keeps the cooldown invariant. |
| `CoreCooldown.CooldownIsRespected` | pkg/agent/core/state.go:616-701 | In every disciplined run the guard about repeating a denied downscale is never reached, and a downscale proposed during the cooldown exceeds the denied one. |
| `CoreCooldown.DecisionsNeverPanic` | pkg/agent/core/state.go:303-372 | In every disciplined overlap-free run the decision procedure never panics. |
| `CoreMemory.DenialIsRespected` | pkg/agent/core/state.go:1218-1230 | In every disciplined run of a fresh agent: after a downscale was denied at a moment, and until the next denial or reset, every downscale proposed before the cooldown counted from that moment is over asks for more than was denied, in some field and in each field that it tried to lower. |
| `CoreMemory.DenialIsHonoured` | pkg/agent/core/state.go:786-832 | After a downscale was denied at a moment, and until the next denial or reset, the desired amount is exactly the least number of units above the denied amount (or the goal) within the bounds, kept at one unit step above the denied amount but no more than was then approved, while the cooldown counted from that moment lasts; and only the goal from then on. |
| `CoreMemory.WishIsHonoured` | pkg/agent/core/state.go:1173-1179 | After the monitor wished for more at a moment, and until its next wish or reset, exactly the least number of units is desired that exceeds what was approved at that moment in the fields named, as long as the wish counted from that moment is valid, and only the goal from then on. |
| `CoreMemory.FailureIsBackedOff` | pkg/agent/core/state.go:1094-1278 | After a request to plugin, NeonVM or monitor failed at a moment (a refused permit included), and until its next failure or a reset of the monitor, none of the kind is proposed before the retry wait counted from that moment is over. |
| `CoreMemory.OnlyFailuresHoldBack` | pkg/agent/core/state.go:1094-1278 | In every run of a fresh agent the recorded failure of each kind of request is exactly the last failure of that kind not followed by a reset or, at the monitor, a new request of the kind. |
| `CoreMemory.ReportsAreRegular` | pkg/agent/core/state.go:1086-1092 | After a plugin request was begun at a moment, and until the next: nothing is asked while it is unanswered or a failure holds the plugin back; something is asked once the tick counted from that moment is over, before that only a new amount; and what was granted in part is not asked again before the denial wait counted from that moment is over. |
| `CoreMemory.NewBoundsApply` | pkg/agent/core/state.go:1047-1067 | From a VM update on, and until the next, what is desired lies within that VM's bounds, above the maximum only while a denial is in effect. |
| `CoreMemory.NewGoalApplies` | pkg/agent/core/state.go:1069-1075 | From an update of complete metrics on, and until the next, exactly their goal within the VM's bounds is desired while no wish or denial is in effect. |
| `CoreMemory.PermitsAnswerRequests` | pkg/agent/core/state.go:1099-1140 | In every run of a fresh agent a permit follows a request and is zero in no field. |
| `CoreTimers.WaitIsExact` | pkg/agent/core/state.go:303-476 | Whenever a wait is returned, a timer that matters (plugin tick, denied-request wait, one of the four failure waits, expiry of a wish or a denial) ends exactly when it is over and none that matters ends sooner; without one, none ends within the largest duration. |
| `CoreTimers.FreshAgentReports` | pkg/agent/core/state.go:244-279 | The first decision of a fresh agent, whenever it is made, is exactly to report the usage to the plugin. |
| `CoreWakeup.NothingBeforeWakeup` | pkg/agent/core/state.go:303-475 | If nothing is proposed now, nothing is proposed and no guard fires on that state at any moment before the returned wait is over, up to the expiry of a denial that holds the desired resources while a monitor request is in flight. |
| `CoreWakeup.NothingEverWithoutWait` | pkg/agent/core/state.go:346-371 | If no wait is returned, nothing is proposed on that state at any later moment whatsoever, with the same exception, for configured durations below the largest one and no recorded moment in the future. |
| `CoreWakeup.NothingBeforeWakeupIff` | pkg/agent/core/state.go:303-475 | The exact extent of the exception: while a monitor request is in flight, nothing is proposed at a moment before the wake-up if and only if plugin and NeonVM are then in flight, backing off, or content with what is then desired. |
| `CoreForgottenExpiry.DenialExpiryIsForgotten` | pkg/agent/core/state.go:849-867 | In a state that a fresh agent reaches, with an upscale in flight, nothing is proposed at any moment before a denial expires and the wait goes on for 90 more, but from the expiry on a NeonVM decrease is proposed. |
| `CoreProgress.PluginRests` | pkg/agent/core/state.go:374-476 | Unhindered, no plugin request is proposed if and only if one was made within the tick and the permit, if any, is the larger of desired and used. |
| `CoreProgress.NeonVMRests` | pkg/agent/core/state.go:480-544 | Unhindered, no NeonVM request is proposed if and only if the usage is the desired amount within approval and permit. |
| `CoreProgress.RestsExactlyWhenSettled` | pkg/agent/core/state.go:303-372 | With nothing in flight and nothing backing off, nothing is proposed if and only if the plugin was told within the tick and the usage equals permit and approval (where present) and fits the desired amount. |
| `CoreProgress.RestIsAgreement` | pkg/agent/core/state.go:303-372 | With a permit and an active monitor the agent then rests if and only if usage, permit, approval and desired amount are all equal. |
| `CoreProgress.RestsWhileMonitorAnswers` | pkg/agent/core/state.go:303-372 | While a monitor request is in flight, whatever else is in flight or backing off and before and after any expiry, nothing is proposed if and only if plugin and NeonVM are held back or where the amount desired at that moment puts them. |
| `CoreConvergence.OneRound` | pkg/agent/core/state.go:616-701 | With wishes, denials and failures over, each approved downscale lowers no field by more than one compute unit and lowers the number of requests still needed by exactly one. |
| `CoreConvergence.DownscaleConverges` | pkg/agent/core/state.go:616-701 | Exactly the larger of the two per-field unit counts of requests leads from the approved to the desired amount, whatever the moments of looking at which no wish, denial or failure is in effect any more, and then no further downscale is proposed. |
| `CoreConvergence.RequestsKeepAim` | pkg/agent/core/state.go:713-811 | With all metrics, no request or reply of plugin, NeonVM or monitor changes what is desired. |
| `CoreConvergence.ApprovalsAreConserved` | pkg/agent/core/state.go:1047-1278 | In every run towards a steady aim, with plugin and NeonVM requests, failures and updates in between, the downscales approved so far and those still needed add up to the number needed at the start. |
| `CoreConvergence.AimIsReachedExactly` | pkg/agent/core/state.go:616-701 | In every such run the approved amount is the aim exactly after the last approval needed, and until then an idle agent proposes the next downscale. |
| `CoreUpscale.PermittedIncrease` | pkg/agent/core/state.go:374-544 | Once what is desired is permitted, NeonVM is asked for exactly it if and only if the plugin was told within the tick; otherwise the plugin is told of the present usage first and the increase waits for that. |
| `CoreUpscale.UpscaleConverges` | pkg/agent/core/state.go:374-544 | From any state with a permit, nothing in flight and nothing backing off, one plugin request granted in full (if one is needed) and one NeonVM success bring the usage to the desired amount in every field that was below it, for every moment of looking before the next report is due; at a later one NeonVM is not asked. |
| `CoreUpscale.UpscaleReachesAgreement` | pkg/agent/core/state.go:303-701 | If no field is above the desired amount, one further request to the monitor makes usage, permit, approval and desired amount equal, and then nothing is proposed if and only if the next report is not due. |
| `CoreHandles.ScalingState.constructor` | pkg/agent/core/state.go:244-279 | A new state has no permit, no approval, nothing in flight and nothing failed. |
| `CoreHandles.ScalingState.ComputeActions` | pkg/agent/core/state.go:303-372 | The loop over the calculations gives the specified action set with the shortest of the waits, or the specified panic. |
| `CoreHandles.ScalingState.UpdatedVM` | pkg/agent/core/state.go:1047-1067 | The new VM is taken over with the usage known so far. |
| `CoreHandles.ScalingState.UpdateMetrics` | pkg/agent/core/state.go:1069-1075 | Only the goal changes. |
| `CoreHandles.ScalingState.PluginStartingRequest` | pkg/agent/core/state.go:1086-1092 | The request is recorded with its time and marked in flight. |
| `CoreHandles.ScalingState.PluginRequestFailed` | pkg/agent/core/state.go:1094-1097 | The request ends and its failure time is recorded. |
| `CoreHandles.ScalingState.PluginRequestSuccessful` | pkg/agent/core/state.go:1099-1140 | The permit is accepted unless it exceeds the request or is below the usage, which counts as a failure. |
| `CoreHandles.ScalingState.MonitorReset` | pkg/agent/core/state.go:1152-1162 | Everything about the monitor is forgotten. |
| `CoreHandles.ScalingState.MonitorActive` | pkg/agent/core/state.go:1164-1171 | Becoming active approves the current usage; becoming inactive leaves no approval. |
| `CoreHandles.ScalingState.UpscaleRequested` | pkg/agent/core/state.go:1173-1179 | The wish is recorded with the approved amount as its base. |
| `CoreHandles.ScalingState.StartingUpscaleRequest` | pkg/agent/core/state.go:1181-1187 | The upscale is recorded as in flight and its last failure forgotten. |
| `CoreHandles.ScalingState.UpscaleRequestSuccessful` | pkg/agent/core/state.go:1189-1192 | What was requested becomes approved. |
| `CoreHandles.ScalingState.UpscaleRequestFailed` | pkg/agent/core/state.go:1194-1197 | The request ends and its failure time is recorded. |
| `CoreHandles.ScalingState.StartingDownscaleRequest` | pkg/agent/core/state.go:1199-1205 | The downscale is recorded as in flight and its last failure forgotten. |
| `CoreHandles.ScalingState.DownscaleRequestAllowed` | pkg/agent/core/state.go:1207-1216 | What was requested becomes approved. |
| `CoreHandles.ScalingState.DownscaleRequestDenied` | pkg/agent/core/state.go:1218-1230 | The denial is recorded with what was approved and what was requested, and the request ends. |
| `CoreHandles.ScalingState.DownscaleRequestFailed` | pkg/agent/core/state.go:1232-1235 | The request ends and its failure time is recorded. |
| `CoreHandles.ScalingState.NeonVMStartingRequest` | pkg/agent/core/state.go:1245-1257 | The request is recorded as in flight. |
| `CoreHandles.ScalingState.NeonVMRequestSuccessful` | pkg/agent/core/state.go:1259-1273 | The VM uses what was requested and the request ends. |
| `CoreHandles.ScalingState.NeonVMRequestFailed` | pkg/agent/core/state.go:1275-1278 | The request ends and its failure time is recorded. |
| `Broadcast.ReadyExactlyIfUnseen` | pkg/util/broadcast.go:74-92 | The channel a wait returned is closed, then or at any later time, if and only if there is a broadcast the receiver has not seen. |
| `Broadcast.Broadcaster.Broadcast` | pkg/util/broadcast.go:32-39 | The current channel is closed, a new open one takes its place, and the counter grows by one. |
| `Broadcast.Broadcaster.NewReceiver` | pkg/util/broadcast.go:45-53 | A new receiver has seen every broadcast so far. |
| `Broadcast.Receiver.Wait` | pkg/util/broadcast.go:74-83 | The returned channel is ready at a moment exactly if something unseen has been sent by then. |
| `Broadcast.Receiver.Awake` | pkg/util/broadcast.go:87-92 | Everything sent so far counts as seen. |
| `ExecutorCore.ExecutorCore.FetchActions` | pkg/agent/executor/core.go:96-113 | The cached set is returned, or one with the next id is calculated and cached; a panic of the calculation changes nothing. |
| `ExecutorCore.ExecutorCore.UpdateWith` | pkg/agent/executor/core.go:115-122 | The state is updated, one broadcast sent and the cached set dropped. |
| `ExecutorCore.ExecutorCore.UpdateIfActionsUnchanged` | pkg/agent/executor/core.go:128-140 | The update happens if and only if the given set is the last one calculated; otherwise nothing changes. |
| `ExecutorCore.StoredGenerationNumber.Inc` | pkg/agent/executor/generation.go:21-25 | The new number is one more than the old one. |
| `ExecutorCore.StoredGenerationNumber.Get` | pkg/agent/executor/generation.go:27-29 | The current number. |
| `ExecutorWorkers.RepliesMatchRequests` | pkg/agent/executor/exec_monitor.go:47-113 | In every interleaving up to a crash, a monitor or NeonVM reply is applied only while the state records exactly the request its worker began; it then never crashes, and a reply over an older connection leaves the state as it was. |
| `ExecutorWorkers.OneRequestPerConnection` | pkg/agent/executor/exec_monitor.go:137-192 | At most one of the two monitor workers has a request of the current connection in flight. |
| `ExecutorWorkers.OlderRequestsStayDropped` | pkg/agent/runner.go:573-668 | A request whose connection is gone stays dropped through every event until its reply arrives. |
| `ExecutorWorkers.IdsIncrease` | pkg/agent/executor/core.go:96-113 | Every calculation gets a new id, one larger than the last, and nothing else changes the last id. |
| `ExecutorWorkers.NoUpdateIsMissed` | pkg/agent/executor/exec_plugin.go:17-69 | With workers that subscribe at any time, an action begins only from the newest set; a refused worker has an unseen broadcast; and a worker that is blocked after having been woken once has inspected a set calculated after every update. |
| `ExecutorWorkers.LateSubscriberMissesUpdate` | pkg/agent/runner.go:260-325 | A worker that subscribes after an update is blocked on it without having inspected any set: having been woken once is needed. |
| `ExecutorWorkers.EventKeepsWakeInv` | pkg/agent/executor/exec_neonvm.go:23-70 | Every event keeps the relation between what each worker has seen, inspected and what was sent. |
| `ExecutorWorkers.CrashesExactly` | pkg/agent/executor/exec_monitor.go:53-69 | The exact conditions for a crash: a panicking decision, an upscale wish before the monitor is active, or a monitor worker that begins a stale action without a connection. |
| `ExecutorWorkers.LostConnectionCrashes` | pkg/agent/execbridge.go:155-174 | Losing the connection between fetching and beginning a monitor action leads to that crash. |
| `ExecutorWorkers.ActivationFollowsReset` | pkg/agent/runner.go:573-668 | In every interleaving the monitor is activated only while the scaling state has it reset. |
| `ExecutorSafety.OutsideIsStep` | pkg/agent/executor/exec_monitor.go:71-113 | Every event that begins no request leaves the scaling state alone or makes exactly one step of the state machine. |
| `ExecutorSafety.FreshBeginIsStep` | pkg/agent/executor/core.go:96-140 | Beginning an action of the cached set is the step of the state machine decided when that set was calculated. |
| `ExecutorSafety.FreshLandsIff` | pkg/agent/executor/core.go:124-140 | For an action of the cached set, keeping the bounds is the same as not being an overlap. |
| `ExecutorCauses.DownscaleAlwaysLands` | pkg/agent/executor/exec_monitor.go:47-69 | A downscale that the optimistic lock lets begin keeps the bounds, however stale it is. |
| `ExecutorCauses.UpscaleLandsIff` | pkg/agent/executor/exec_monitor.go:137-159 | A stale upscale keeps the bounds if it was no overlap when calculated, and breaks them exactly if a NeonVM request in flight or since succeeded leaves the VM below it. |
| `ExecutorCauses.NeonVMLandsIff` | pkg/agent/executor/exec_neonvm.go:29-52 | A stale NeonVM request that was no overlap when calculated, or whose connection is gone, keeps the bounds if and only if the permit still covers it and it is no decrease under a new connection that has approved nothing but the usage. |
| `ExecutorCauses.IncreaseLandsIff` | pkg/agent/executor/exec_neonvm.go:29-52 | A stale increase keeps the bounds if and only if the permit still covers it. |
| `ExecutorCauses.EventKeepsTrace` | pkg/agent/executor/core.go:96-140 | Every event keeps what is known of the newest action set: its monitor requests are covered by its NeonVM request, and what the monitor knows stays below that while the connection lasts. |
| `ExecutorCauses.ExecutorRunsAreSafe` | pkg/agent/executor/core.go:96-140 | In every interleaving, stale actions included, in which no overlap happens outside, no begun upscale or decrease was an overlap when it was calculated, no decrease begins after a fresh reconnect and every begun NeonVM request is within the permit: approved ≤ using ≤ permit, no clamp guard fires and every proposal is within the bounds. |
| `ExecutorTiming.SameConnectionSuits` | pkg/agent/executor/exec_monitor.go:47-69 | However stale it is, a monitor request begun under the connection it was calculated for still goes in its direction from the approved amount and exceeds what was denied. |
| `ExecutorTiming.FreshSuits` | pkg/agent/executor/core.go:124-140 | An action that is not stale is of the current connection, so it does too. |
| `ExecutorTiming.OnlyEarlyWishesCrash` | pkg/agent/executor/exec_monitor.go:47-69 | With a clock that does not run back and monitor requests begun under the connection they were calculated for, an event crashes if and only if it is an upscale wish without an active monitor. |
| `ExecutorTiming.OrderlyRunsNeverPanic` | pkg/agent/executor/core.go:96-140 | In every such interleaving free of the causes above the bounds hold, the decision procedure never panics, a downscale proposed during the cooldown exceeds the denied one, and only an early upscale wish crashes. |
| `ExecutorTiming.OrderlyDenialIsRespected` | pkg/agent/executor/exec_monitor.go:71-113 | In every state that such an interleaving reaches: after the monitor denied at a moment the downscale its worker had in flight, and until the next denial or disconnection, every downscale proposed before the cooldown counted from that moment is over asks for more than that worker did. |
| `ExecutorRuns.LostConnectionIsReachable` | pkg/agent/executor/exec_monitor.go:53-69 | A concrete run of the executor ends in a downscale worker that finds no connection and crashes. |
| `ExecutorRuns.StaleDecreaseBreaksBounds` | pkg/agent/executor/core.go:128-140 | In a concrete run a NeonVM decrease fetched before a reconnect is begun after it and lands below what the new connection approves. |
| `ExecutorRuns.StaleDecreaseCrashes` | pkg/agent/core/state.go:983-1019 | That run goes on to the success of the decrease, where approved exceeds using, and to a crash when the worker next asks for actions. |
| `ReconcileQueue.MergeLaws` | pkg/plugin/reconcile/event.go:33-51 | Merging is symmetric, Modified adds nothing, Added and Deleted make Ephemeral, and it is a panic exactly for Ephemeral with anything and for two Added or two Deleted. |
| `ReconcileQueue.Queue.Peek` | pkg/plugin/reconcile/queue.go:161-228 | The front of the queue is a least item, or there is none. |
| `ReconcileQueue.Queue.EnqueueEvent` | pkg/plugin/reconcile/queue.go:272-309 | The event is merged into a pending change, merged into a queued item or queued anew; an impossible merge changes nothing. |
| `ReconcileQueue.Queue.Next` | pkg/plugin/reconcile/queue.go:311-334 | A least item that is due is handed out and counts as ongoing; otherwise nothing changes. |
| `ReconcileQueue.Queue.Finish` | pkg/plugin/reconcile/queue.go:422-449 | The key stops being ongoing; a pending change, merged with a retry, or the retry itself is queued; an impossible merge panics after the key stopped being ongoing and changes nothing else. |
| `QueueSafety.EnqueueKeepsNewest` | pkg/plugin/reconcile/queue.go:272-309 | The object just enqueued is what waits for its key: pending if the key is ongoing, else queued. |
| `QueueSafety.EventKeepsInv` | pkg/plugin/reconcile/queue.go:364-449 | Every event keeps the structure of the queue and the newest object of every key. |
| `QueueSafety.QueueIsSafe` | pkg/plugin/reconcile/queue.go:272-449 | In every run queued and ongoing keys are disjoint, pending keys are ongoing, handles and priority queue agree, no key is reconciled twice at once, and the newest object of every key is pending, else queued, else in flight, else the last handled. |
| `QueueTiming.DueAfterEnqueue` | pkg/plugin/reconcile/queue.go:370-420 | However an event merges, its key is then due at the sooner of the moment asked for and the one before. |
| `QueueTiming.DueAfterFinish` | pkg/plugin/reconcile/queue.go:422-449 | A retry makes the key due at the sooner of the retry and a pending change; without one a pending change keeps its moment. |
| `QueueTiming.HandedOutOnTime` | pkg/plugin/reconcile/queue.go:311-449 | In every run a key waits exactly if something asked for it since it was last handed out, for exactly the earliest moment asked for, and what is handed out is due and no later than anything else queued. |
| `QueueNotifier.EarlierFrontNotifies` | pkg/plugin/reconcile/queue.go:400-449 | Whatever makes the front of the queue earlier also broadcasts. |
| `QueueNotifier.NoLostWakeup` | pkg/plugin/reconcile/queue.go:161-228 | In every interleaving a notifier that waits for a deadline (or on an empty queue) while the queue holds an earlier item has a wait that is already ready. |
| `QueueNotifier.SleepsTowardsFront` | pkg/plugin/reconcile/queue.go:161-228 | Wherever it is, an undisturbed notifier goes back to sleep towards the moment of the front item, and after a notification its wait is not ready again before the next one. |
| `QueueEvents.SummariesMerge` | pkg/plugin/reconcile/event.go:33-51 | Merging two consecutive stretches of events gives what they amount to together: whether the object came into being in them, and whether it went. |
| `QueueEvents.EnqueueNeverPanics` | pkg/plugin/reconcile/event.go:33-51 | Enqueueing the next event of a well-ordered stream never meets an impossible merge. |
| `QueueEvents.FinishNeverPanics` | pkg/plugin/reconcile/queue.go:422-449 | Neither does merging a retry with a pending change. |
| `QueueEvents.DeliveriesAreSensible` | pkg/plugin/reconcile/queue.go:370-449 | For all well-ordered streams, handler durations, failures and retries: no merge panics; the kind queued, running or pending for a key is exactly the sum of the kinds enqueued since the last reconcile that finished without a retry was handed out (up to and since the running hand-out); until such a reconcile every delivery is Added or Ephemeral; after Deleted or Ephemeral only that kind is delivered. |
| `ReconcileMiddleware.NextBackoffInRange` | pkg/plugin/reconcile/middleware.go:268-336 | The next backoff is positive and at most a minute. |
| `ReconcileMiddleware.BackoffReachesAMinute` | pkg/plugin/reconcile/middleware.go:240-244 | Without a wish of the handler the wait grows strictly from 0.1 s with every failure and is a minute exactly from the tenth failure after the first on. |
| `ReconcileMiddleware.RoundedBackoffReachesAMinute` | pkg/plugin/reconcile/middleware.go:288-294 | The same for every sequence of waits whose products are off by up to a nanosecond, as floating-point products can be. |
| `ReconcileMiddleware.StreakIsRecorded` | pkg/plugin/reconcile/middleware.go:268-336 | After any calls for any objects, an object is recorded exactly while its last call failed, with the number of failures since its last success, and with exactly the n-th wait if none of them came with a wish. |
| `ReconcileMiddleware.ReplyIsExact` | pkg/plugin/reconcile/middleware.go:288-310 | After any calls, the reply to the n-th failure in a row without wishes is exactly the n-th wait, at most a minute; with a wish for later it is exactly that wish, however long the backoff; a success comes back with its own wish. |
| `ReconcileMiddleware.WishShortensBackoff` | pkg/plugin/reconcile/middleware.go:296-303 | A wish for later caps the backoff it meets: the next failure without one waits 2.03 times the shorter of the two, up to a minute. |
| `ReconcileMiddleware.RecordFacts` | pkg/plugin/reconcile/middleware.go:268-336 | After an error without a negative retry time the object is recorded with a wait in range and a positive retry time; after a success with any retry time it is not; no other object is touched. |
| `ReconcileMiddleware.ChangeIsCounted` | pkg/plugin/reconcile/middleware.go:268-336 | The change of the global count is exactly the change of the number of failing objects of the type. |
| `ReconcileMiddleware.NegativeRetryStaysNegative` | pkg/plugin/reconcile/middleware.go:268-336 | A negative retry time of a handler comes back negative, with an error or not. |
| `ReconcileMiddleware.RangeIsKeptIff` | pkg/plugin/reconcile/middleware.go:288-310 | The stored waits stay in (0, 1 minute] if and only if no error comes with a negative retry time. |
| `ReconcileMiddleware.NegativeRetryLosesTheNext` | pkg/plugin/reconcile/middleware.go:288-310 | After an error with a negative retry time, the next error or panic without a wish comes out with no retry at all while the object stays recorded. |
| `FailureTracking.NegativeRetryAbandons` | pkg/plugin/reconcile/queue.go:336-368 | Such an object, with nothing pending, is then neither queued nor ongoing while recorded as failing. |
| `ReconcileMiddleware.ErrorBackoffMiddleware.Call` | pkg/plugin/reconcile/middleware.go:268-336 | The record of the object's type, the global count and the reply after a call; an unknown type is a panic. |
| `ReconcileMiddleware.ApplyMiddleware` | pkg/plugin/reconcile/middleware.go:43-62 | The loop nests the middleware with the first one outermost. |
| `ReconcileMiddleware.FailureIsRetried` | pkg/plugin/reconcile/middleware.go:73-84 | Through the whole chain, with any custom layers, a handler error or panic becomes a reply with an error and a positive retry time, exactly the one the backoff gives to it, and a record of the object; otherwise the record is gone. |
| `FailureTracking.FinishQueues` | pkg/plugin/reconcile/queue.go:336-368 | A finished key that is to be retried is queued again; other keys stay where they are. |
| `FailureTracking.EventKeepsInv` | pkg/plugin/reconcile/middleware.go:268-336 | Every event of queue and middleware keeps the failure records, the lock stages and the count. |
| `FailureTracking.FailingIsNeverAbandoned` | pkg/plugin/reconcile/middleware.go:181-336 | In every run each object recorded as failing is queued or ongoing, its backoff is in (0, 1 minute], and while no call holds a type lock the global count is the number of failing objects of all types. |
| `FailureTracking.FailureIsRetriedInTime` | pkg/plugin/reconcile/queue.go:336-368 | The n-th failure or panic of an object in a row without wishes puts it back in the queue for exactly the n-th wait after it ended, a failure with a wish for exactly that wish after, unless a pending change comes sooner. |
| `InitEvents.InitEventsMiddleware.AddRequired` | pkg/plugin/initevents/initeventsmiddleware.go:60-75 | The key is required from then on; after sealing it is a panic that changes nothing. |
| `InitEvents.InitEventsMiddleware.Done` | pkg/plugin/initevents/initeventsmiddleware.go:77-86 | Adding is sealed, and the channel closed if nothing remains. |
| `InitEvents.InitEventsMiddleware.Success` | pkg/plugin/initevents/initeventsmiddleware.go:100-112 | The key is required no more, and the channel closed if it was the last and adding is sealed. |
| `InitEvents.InitEventsMiddleware.CheckDone` | pkg/plugin/initevents/initeventsmiddleware.go:114-124 | The channel is closed exactly if adding is sealed, nothing remains and it was open. |
| `InitEvents.BarrierOpensInTime` | pkg/plugin/initevents/initeventsmiddleware.go:42-124 | In every interleaving with retries the channel closes at most once, is closed exactly if adding is sealed and no key remains, stays closed, and then every required object has had an error-free reconcile since it was added. |
| `InitEvents.AddKeepsInvIff` | pkg/plugin/initevents/initeventsmiddleware.go:60-75 | Until sealing, adding a key keeps what the barrier promises if and only if no reconcile of it has succeeded without being recorded yet. |
| `InitEvents.AddingDuringReconcile` | pkg/plugin/initevents/initeventsmiddleware.go:60-124 | From every state in which a key is added again in that gap, events follow that open the barrier although it has not been reconciled since. |
| `InitEvents.BoundaryIsReached` | pkg/plugin/watch.go:32-37 | Such a state is reached from the start. |
| `Billing.AppendedHolds` | pkg/agent/billing/billing.go:227-274 | Appending a slice accounts for exactly that slice, merged with the open one or not. |
| `Billing.BetweenIsProduct` | pkg/agent/billing/billing.go:242-266 | What is owed between two collections is the time between them and that time multiplied by the smaller CPU amount at its ends. |
| `Billing.SeenExactly` | pkg/agent/billing/billing.go:162-225 | A collection sees a key with an amount of CPUs if and only if a live VM with that uid, endpoint and amount is listed. |
| `Billing.MetricsState.Collect` | pkg/agent/billing/billing.go:162-225 | Every listed VM is recorded, a slice is appended for those seen the time before, and the history of all other keys is left as it is. |
| `Billing.MetricsState.DrainEnqueue` | pkg/agent/billing/billing.go:288-330 | Every key's totals are reported once for each metric, in any order of keys, and cleared. |
| `Billing.CollectedHolds` | pkg/agent/billing/billing.go:162-225 | A collection adds, for each key, exactly the interval since the previous one if both saw the key. |
| `Billing.DrainKeepsBalance` | pkg/agent/billing/billing.go:288-330 | A drain moves what is held to what is reported, without gap or double count. |
| `Billing.NothingLostOrBilledTwice` | pkg/agent/billing/billing.go:162-330 | For every interleaving of collections and drains and every key, reported plus held active time is the sum of the intervals between consecutive collections that both saw the key, and CPU time is that sum weighted by the smaller CPU at the ends. |
| `Reporting.EventBatcher.constructor` | pkg/reporting/batcher.go:41-62 | A new batcher is empty and has not notified. |
| `Reporting.EventBatcher.Enqueue` | pkg/reporting/batcher.go:68-80 | The event is added, and the batch completed and notified exactly if it reaches the target. |
| `Reporting.EventBatcher.FinishOngoing` | pkg/reporting/batcher.go:86-95 | A non-empty ongoing batch is completed and notified; an empty one is left alone. |
| `Reporting.EventBatcher.FinishCurrentBatch` | pkg/reporting/batcher.go:137-148 | The ongoing events become the last completed batch and a new one is begun. |
| `Reporting.EventBatcher.PeekLatestCompleted` | pkg/reporting/batcher.go:111-115 | The oldest completed batch, unchanged. |
| `Reporting.EventBatcher.DropLatestCompleted` | pkg/reporting/batcher.go:120-129 | The oldest completed batch and its size are taken away. |
| `Reporting.EventKeepsInv` | pkg/reporting/send.go:45-90 | Every event of producers and sender keeps the conservation of events and the sender's position. |
| `Reporting.EventsAreConserved` | pkg/reporting/batcher.go:68-148 | In every interleaving dropped, completed and ongoing batches make up the enqueued events in order, sizes add up, every batch holds between 1 and max(1, target) events, exactly as many hold less than the target as there were flushes, and the batches dropped are exactly those whose sending succeeded, in order. |
| `Reporting.SenderRestsProperly` | pkg/reporting/send.go:45-197 | In every interleaving the channel holds a notification exactly if a batch was completed since the last was received, a sender at rest or gone that leaves batches without a notification failed its last send, and it is in its select only before shutdown and gone only after. |
| `Checksum.LittleEndianRoundTrip` | pkg/util/checksum.go:49-51 | Reading the little-endian length gives back the length. |
| `Checksum.CollectNames` | pkg/util/checksum.go:20-24 | Every name of the directory is collected once, in any order. |
| `Checksum.SortedFacts` | pkg/util/checksum.go:25-25 | Sorting gives the same names in strictly ascending order. |
| `Checksum.BeforeIsBytewise` | pkg/util/checksum.go:25-25 | The order is that of strings: a prefix first, otherwise the smaller byte at the first difference. |
| `Checksum.WriteStream` | pkg/util/checksum.go:20-53 | The loops write the stream of the directory over its sorted names. |
| `Checksum.StreamIsReproducible` | pkg/util/checksum.go:20-53 | The stream depends on the directory only, not on the order its names are found in. |
| `Checksum.StreamRoundTrip` | pkg/util/checksum.go:36-53 | A decoder undoes the encoding of any list of files. |
| `Checksum.DirectoryRoundTrip` | pkg/util/checksum.go:20-53 | Decoding the stream of a directory gives back its files. |
| `Checksum.StreamIsUnambiguous` | pkg/util/checksum.go:20-53 | Two flat directories with the same stream are the same directory. |
| `MetadataPatch.PathEscapeRoundTrip` | pkg/util/patch/patch.go:44-52 | Evaluating an escaped key as in section 4 of RFC 6901 gives back the key, so no two keys share a path. |
| `MetadataPatch.PathLeadsBack` | pkg/neonvm/controllers/vm_controller.go:921-936 | The path of an operation points to exactly the entry it was made for. |
| `MetadataPatch.AddExpected` | pkg/neonvm/controllers/vm_controller.go:904-926 | One add for each expected entry that is missing or different, in whatever order the map is walked. |
| `MetadataPatch.RemoveUnexpected` | pkg/neonvm/controllers/vm_controller.go:928-938 | One remove for each entry that is neither expected nor ignored, in whatever order the map is walked. |
| `MetadataPatch.BuildPatch` | pkg/neonvm/controllers/vm_controller.go:903-953 | The nested loops make the operations of every metadata map from the same pod. |
| `MetadataPatch.PatchReachesWanted` | pkg/neonvm/controllers/vm_controller.go:903-953 | Applied as in sections 4.1 and 4.2 of RFC 6902, the patch succeeds if and only if every map missing from the pod has no expected entries, and then each map is exactly the expected entries with the ignored ones it had. |
| `MetadataPatch.AfterAllFacts` | pkg/neonvm/controllers/vm_controller.go:903-953 | After the patch every other metadata member is as before. |
| `MetadataPatch.EmptyPatchIff` | pkg/neonvm/controllers/vm_controller.go:903-957 | There are no operations if and only if every map is already as wanted. |
| `MetadataPatch.SecondPassIsEmpty` | pkg/neonvm/controllers/vm_controller.go:903-957 | Once a patch has applied, the next pass makes no operations. |
| `MetadataPatch.PodSpecsAreWellFormed` | pkg/neonvm/controllers/vm_controller.go:877-899 | The labels and annotations specifications meet what the other theorems ask of a list of them. |
| `CpuList.ParseMultipleCPURange` | pkg/neonvm/cpuscaling/sysfs.go:85-102 | The nested loops give the ids of all ranges in order, or an error if any part is malformed. |
| `CpuList.RangeRoundTrip` | pkg/neonvm/cpuscaling/sysfs.go:59-82 | A printed range is parsed back to its ends. |
| `CpuList.ListRoundTrip` | pkg/neonvm/cpuscaling/sysfs.go:85-102 | Any printed non-empty list of ranges, with white space after it, is parsed back to the ids it names in order. |
| `CpuList.BlankFails` | pkg/neonvm/cpuscaling/sysfs.go:85-102 | Blank text is a parse error, not an empty list. |
| `CpuList.AtoiSigned` | pkg/neonvm/cpuscaling/sysfs.go:59-82 | Digits with either sign or none are read as their number exactly if it fits a 64-bit int. |
| `CpuList.ParsedIdsAreNatural` | pkg/neonvm/cpuscaling/sysfs.go:59-102 | Whatever the text, every CPU read from it is a number from 0 up, within the range of an int. |
| `CpuList.SecondDashIsIgnored` | pkg/neonvm/cpuscaling/sysfs.go:73-82 | What follows a second dash in a range is ignored, not an error. |
| `CpuScaling.FileRoundTrip` | pkg/neonvm/cpuscaling/sysfs.go:33-57 | Reading the file of a set of CPUs gives their ids in ascending order, or an error if there are none. |
| `CpuScaling.CpuScaler.SetState` | pkg/neonvm/cpuscaling/sysfs.go:16-31 | The CPU gets the status, or the write fails and nothing changes. |
| `CpuScaling.CpuScaler.OnlineCPUs` | pkg/neonvm/cpuscaling/sysfs.go:33-44 | The online CPUs in ascending order, or an error. |
| `CpuScaling.CpuScaler.OfflineCPUs` | pkg/neonvm/cpuscaling/sysfs.go:46-57 | The offline CPUs in ascending order, or an error. |
| `CpuScaling.CpuScaler.SetStateTo` | pkg/neonvm/cpuscaling/cpuscaler.go:62-82 | The loop switches candidates in order, passing over CPU 0, until the count is reached, a write fails or none are left. |
| `CpuScaling.CpuScaler.ReconcileOnlineCPU` | pkg/neonvm/cpuscaling/cpuscaler.go:31-60 | The new state and the outcome are the specified ones. |
| `CpuScaling.CpuScaler.ActiveCPUsCount` | pkg/neonvm/cpuscaling/cpuscaler.go:85-91 | The number of online CPUs, or an error if none is listed. |
| `CpuScaling.Reverse` | pkg/neonvm/cpuscaling/cpuscaler.go:41-46 | Swapping from both ends reverses the list. |
| `CpuScaling.SwitchedFacts` | pkg/neonvm/cpuscaling/cpuscaler.go:62-82 | Without failing writes exactly the first `count` candidates other than CPU 0 are switched, with success if and only if there are that many. |
| `CpuScaling.SwitchedIff` | pkg/neonvm/cpuscaling/cpuscaler.go:62-82 | Whatever writes fail: success if and only if the first `count` candidates other than CPU 0 exist and can be written, and then exactly those are switched. |
| `CpuScaling.OnlyCandidatesSwitched` | pkg/neonvm/cpuscaling/cpuscaler.go:62-82 | With any failing writes only candidates other than CPU 0 change, and only to the wanted status. |
| `CpuScaling.ScaleDown` | pkg/neonvm/cpuscaling/cpuscaler.go:41-46 | Scaling down leaves exactly the lowest ids online, and succeeds if and only if CPU 0 does not have to go. |
| `CpuScaling.ScaleUp` | pkg/neonvm/cpuscaling/cpuscaler.go:48-57 | Scaling up brings exactly the lowest offline ids online, with success if and only if there are enough; if the list cannot be read it reports success and changes nothing. |
| `CpuScaling.SuccessMeansTarget` | pkg/neonvm/cpuscaling/cpuscaler.go:31-60 | Success means that exactly the target is online, except exactly when more CPUs are wanted and the offline list cannot be read; and exactly when the target is met. |
| `CpuScaling.SuccessAlwaysMeansTarget` | pkg/neonvm/cpuscaling/cpuscaler.go:31-60 | Whatever reads and writes fail, success means that exactly the target is online, unless more CPUs are wanted and the offline list could not be read. |
| `CpuScaling.SucceedsIff` | pkg/neonvm/cpuscaling/cpuscaler.go:31-60 | With CPU 0 online: success for every target from 1 to the number of CPUs, and beyond it exactly when the offline list cannot be read. |
| `CpuScaling.AllOnlineStillSucceeds` | pkg/neonvm/cpuscaling/cpuscaler.go:48-52 | With all CPUs online and more wanted, success is reported and nothing changes. |
| `CpuScaling.CpuZeroIsKept` | pkg/neonvm/cpuscaling/cpuscaler.go:62-67 | CPU 0 keeps its status in every case, failing reads and writes included. |

## Left out

- Goal computation from metrics, working-set estimation and Prometheus parsing: the goal and whether metrics are complete are arbitrary inputs.
- Revisions, target revisions and the last desired resources of the scaling state: they do not affect which requests are made.
- Overflow of `time.Duration`, of the broadcast counter, of action-set ids and of generation numbers: these are unbounded integers here; resource arithmetic wraps as in Go.
- `DoSleeper`: no claim that a timer is armed for the returned wait.
- ExecutorWorkers.NoUpdateIsMissed: does not claim that a blocked worker is eventually woken by a timer, because real-time progress is not modelled.
- The heap inside the priority queue: Peek and Pop are given by their contract, a least item.
- Endless loops and goroutine scheduling: workers, notifier, sender and reconnect loop are their critical sections in every order, without fairness or real time.
- The callback of the billing store, rounding to whole seconds and floating-point values: amounts are exact; a failing store is an empty listing.
- ReconcileMiddleware.BackoffReachesAMinute: takes the factor as exactly 2.03 and rounds down; `RoundedBackoffReachesAMinute` covers a product that is off by a nanosecond.
- Serialisation of batches, HTTP and S3 clients: a batch is its events, a send succeeds or fails.
- The blake2b hash, base64 and reading of the directory itself: the model ends at the bytes written to the hasher.
- Sorting inside the standard library: `Checksum` sorts by insertion; only the resulting order matters.
- Log messages, Prometheus metrics and gauges, including the message about removed metadata.
- JSON marshalling of the patch and the rest of the pod: the document is the metadata maps.
- White space beyond Latin-1 in the CPU list parser, and CPU numbers near the largest int, for which the range loop would overflow.
- Scheduler node accounting, filtering, scoring, reserving and migration, IPAM, the VM and migration controllers apart from the metadata patch, QMP, certificates, cgroups, disks, networking and vm-builder: input, output and calls into other systems.
