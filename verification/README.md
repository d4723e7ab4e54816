# Verification of the Tenebra core

This project models the parts of the Tenebra daemon whose correctness depends on the interplay of many steps, and
proves in Dafny what the code and its comments promise of them. `dafny verify dfyconfig.toml` verifies everything.

What is modelled:

- **The connection lifecycle** (`Lifecycle*.dfy`): user commands, off-command reconnects, one fallback walk and its
  watchers as a system of atomic steps over `generation`, the cancel token, `connMu`, `protectionOp`, the engine, the
  published state and the options. A run is a sequence of enabled steps. One step is what a goroutine does between two
  points where another may run, and what a call returns is an input of the step, so the runs are all interleavings with
  all outcomes of every call. The source's concurrency lives between its statements, so this part is a step function and
  not a class; the sequential pieces inside it (the walk, the live switch, the relaunch counter, the switch budget) are
  also modelled as methods. `LifecycleInvariant` holds the inductive invariant; `LifecycleSafety`, `LifecycleDrain`,
  `LifecycleOptions`, `LifecycleExit` and `LifecycleRefusal` hold what follows from it; `LifecycleCommands` says what one
  hold of `connMu` comes to, `LifecycleProgress` that it and a connection can always be completed, `LifecycleAttended`
  that nothing is left hanging, and `LifecycleHistory` what must have happened before; `LifecycleMislabel` and
  `LifecycleRefusal` hold four runs from the start of the daemon.
- **The fallback walk** (`FallbackWalk.dfy`, `FallbackShape.dfy`, `FallbackEnding.dfy`) in an arbitrary world.
- **The live switch** (`HotSwitch.dfy`), **the switch budget** (`AutoSwitch.dfy`) and **the crash-loop budget**
  (`RelaunchBudget.dfy`).
- **The system-proxy journal and its owners** (`UserProxyLease.dfy`, `ProxyJournal.dfy`, `ProxyRollback.dfy`,
  `SystemProxy.dfy`, `ProxyOwnership.dfy`, `ProxyUndisturbed.dfy`): every call to the operating system or the lease store
  can fail, with or without its effect, or be the last thing the process does.
- **Default-route coverage** (`RouteCover.dfy`, `RouteTable.dfy`, `RouteRead.dfy`, `Bits.dfy`), from the rows of the two
  forwarding tables to each interface's default routes.
- **The outbound frame queue** (`OutboundQueue.dfy`, `OutboundPromise.dfy`).
- **Selector tags** (`Tags.dfy`, `SelectorTags.dfy`), with the builder they have to agree with, and **the built
  configuration's tags** (`BuiltConfig.dfy`); `SelectorLaws.dfy` says of both, position by position, what they are.
- **The STUN decoder** (`Stun.dfy`, `StunBytes.dfy`; RFC 5389, sections 6, 15, 15.1 and 15.2).

A method that is proved against a function of the model says that the code does what the function does; what that
function is worth is said by laws that do not mention it, over runs, worlds, scripts or bytes.

Six promises turned out not to hold on all inputs, and each is stated with its exact condition:

- *Exit agreement* (the published node is the one the selector was last set to) can be broken by two steps: a revert
  that fails, and a failover whose second look at the state finds its node although the tunnel is no longer connected,
  because a crash report was written after its first look (`core/control/health.go:198` makes the two looks in separate
  critical sections of `mu`). `UndisturbedRunsAgree` says that it holds in every run without either. Of the second
  looks only those at a report that names another exit do harm: `CleanRunsAgree` and `UncleanStepsCanDisagree` are that
  refinement and its exactness. `ALostRevertMislabels` and `ACrashReportMislabels` are runs from the start of the
  daemon that reach each of the two.
- *Connected means a tunnel*: a failover takes every error of its connect for a refusal that left the old engine up, and
  publishes Connected again (`core/control/health.go:208-211`). When the error comes from its own teardown, whose
  system-proxy cleanup failed (`core/control/connect.go:524-528`), no engine runs and no watcher is left.
  `ConnectedMeansLive` covers every run without such a step, `ATornFailoverIsHollow` says that each such step ends so
  and `HollowStays` that nothing but another command or queued attempt changes it; `ATornFailoverConnectsNothing` is a
  run from the start of the daemon.
- *The user's own proxy settings are never lost* fails when a restore's own settings write is cut short over a confirmed
  lease after it reached the server field and before it reached all the rest: the next restore takes the server for
  someone else's and drops the lease. `NoRunLosesTheOriginal` covers every run without such a cut,
  `TheFirstCutLosesTheOriginal` says that the first one always loses them, and `TornRestoreCanLoseTheOriginal` is one.
- *One tag, one outbound*: a built configuration has three outbounds of the builder's, "proxy", "direct" and "block",
  whose tags its naming loop does not reserve. `ConfigTagsAreDistinctIff` says that the tags are distinct exactly when
  no emitted server has one of these names, and `ANameCanCollide` is a server named "direct".
- *The shape of the attempts snapshots* holds for every world exactly when no two candidates share an identifier,
  because the tracker files an identifier under its last occurrence (`SnapshotsAreShapedIff`).
- *The cooldown between automatic switches* is kept exactly when it is no longer than the window that prunes the list
  (`CooldownIsKeptIff`); the defaults satisfy this.

Three comments disagree with their code, and the model follows the code:

- `core/control/daemon.go:2416-2418` says that freeing an unrenderable server's tag rolls the suffix counter back, but
  only the tag's own entry is deleted and the base name's counter stays. The builder has the same loop.
- `core/control/connect.go:395-401` says that a failed re-apply means that the tunnel is down. A re-apply refused before
  its teardown publishes Error over an engine that still runs: `ReapplyErrsOverAnEngineIff` says exactly when, and
  `AReapplyErrsOverAnEngine` is a run.
- `core/control/health.go:209-210` says that the errors a failover's connect returns leave the old engine up; see
  *Connected means a tunnel* above.

## Model

| member | source | states |
|---|---|---|
| LifecycleInvariant.NextKeepsInv | core/control/connect.go:480-538 | Every step of every goroutine keeps the invariant: who holds `protectionOp`, that all goroutines of the wait group are of one generation, who owes the engine its Stop, that the stored cancel reaches everyone, that a live configuration is of the current generation. |
| LifecycleInvariant.PathKeepsInv | core/control/connect.go:214-364 | The invariant holds in every state of every path from a state that has it. |
| LifecycleSafety.TeardownLeavesNothing | core/control/connect.go:506-513 | In every interleaving, when teardown's wait returns no engine runs and no goroutine of an earlier connection is left, even if a superseded walk started an engine after teardown's own Stop; it stays so until the next walk is launched. That a disconnect comes to such a teardown is `LifecycleCommands.ADisconnectDisconnects`. |
| LifecycleSafety.SupersededWalkOwesItsStop | core/control/connect.go:775-883 | While teardown waits, a running engine belongs to a walk that is not accepted and is superseded; and however the run goes on, that walk is gone, or the wait over, only after the walk itself has called Stop. |
| LifecycleSafety.OneEngineOneGeneration | core/control/connect.go:334-338 | Two engines never run at once, and everything at work belongs to one generation. |
| LifecycleSafety.AcceptanceIsFenced | core/control/connect.go:892-941 | A walk publishes Connected only while its generation is current, under `protectionOp`, over the configuration it started, and with the tunnel verified in the same section where protection is wanted or in place. |
| LifecycleSafety.ConnectedComesFromAcceptance | core/control/hotswitch.go:222-243 | Whatever step turns the state to Connected is a walk's acceptance, or the holder of `connMu` restoring or moving it over a live configuration of the current generation, or a failover whose own teardown failed. |
| LifecycleSafety.ConnectedMeansLive | core/control/health.go:206-212 | In every run without a failover that reports its own failed teardown, a published connected or reconnecting tunnel that is not being torn down has a live configuration. |
| LifecycleSafety.ATornFailoverIsHollow | core/control/health.go:208-211 | The condition is exact: each such report ends with Connected published, `connMu` free, no engine, no live configuration and no goroutine left. |
| LifecycleSafety.HollowStays | core/control/health.go:208-211 | From there every step but somebody's taking `connMu` to connect, re-apply or disconnect leaves it so. |
| LifecycleSafety.StaleAttemptsNeverStart | core/control/connect.go:1236-1257 | Once the generation has moved past the one an off-command attempt was queued for, no continuation of the run lets it start anything. |
| LifecycleDrain.WorkersDrain | core/control/connect.go:512-513 | While teardown waits, every step of a goroutine it waits for strictly lowers the measure of what is left. |
| LifecycleDrain.OthersDoNotHinder | core/control/connect.go:477-479 | No other step raises that measure, and `connMu`'s holder does nothing until all are gone. |
| LifecycleDrain.EveryPathDrains | core/control/connect.go:506-513 | The draining law: along every path on which `connMu`'s holder waits, with any other steps in between, the waited-for goroutines' own steps plus what the measure still has stay within what it had at first, so none of them goes on for ever. |
| LifecycleDrain.SomeoneCanMove | core/control/hotswitch.go:300-308 | As long as a goroutine is left, one can move without `connMu` (the watchdog only tries the lock), or the set-command holding `protectionOp` can release it. |
| LifecycleDrain.DrainCanEnd | core/control/connect.go:506-513 | From every state in which it waits, the wait can end: some schedule of the goroutines' own steps, no longer than the measure, empties the wait group. |
| LifecycleDrain.AcceptanceMoves | core/control/connect.go:893-894 | The walk holding `protectionOp` is never blocked, and each of its steps brings the release nearer. |
| LifecycleDrain.EveryAcceptanceEnds | core/control/connect.go:892-941 | Along every path on which a walk holds `protectionOp`, the walk's steps plus what its acceptance has left stay within what it had left at first, whatever anyone else does. |
| LifecycleDrain.TeardownCanReturn | core/control/connect.go:480-538 | From every reachable state in which `connMu`'s holder is in teardown, teardown can return without a further command, and is then left with no engine and no goroutine. The whole of a disconnect, from its first step to the release of `connMu`, is `LifecycleProgress.ADisconnectCanComplete`. |
| LifecycleCommands.ADisconnectDisconnects | core/control/connect.go:440-466 | In every run, whatever was connected or on its way when a disconnect took `connMu`, and whatever happens in between: when `connMu` is next free one generation has passed, no engine, goroutine or live configuration is left, and the state is off, or an error exactly when the system proxy could not be cleared. If the protection was to be released, the hold ended with that; released, it is no longer in place, and refused, it is as it was. |
| LifecycleCommands.AnAttemptLaunchesIff | core/control/connect.go:214-364 | In every run, a connect, re-apply, reconcile, relaunch, autoconnect or failover ends its hold of `connMu` with a new generation, its own cancel and nothing at work but an unbegun walk exactly when no answer stood in its way: its own checks, the candidates, the host protection, the cleanup of the old connection. Otherwise the clock is as it was, or after a failed cleanup nothing is left of the old connection; and each kind of attempt has told what it must. |
| LifecycleCommands.ALaunchFollowsTheSettings | core/control/connect.go:214-364 | The walk an attempt launches was planned in the same hold: with the fragmentation, stack and kill switch of one of its steps, the multihop selection of another translated by the tags chosen there, and after the host protection had been put in place wherever it is wanted. |
| LifecycleProgress.EveryHoldCanEnd | core/control/connect.go:467-479 | From every reachable state in which a command or attempt holds `connMu`, at whatever point, it can let go of it without any further command. |
| LifecycleProgress.ADisconnectCanComplete | core/control/connect.go:440-466 | From every reachable state in which `connMu` is free, a disconnect can be carried out to its end: off, with nothing left and, if asked, no protection. |
| LifecycleProgress.AnAttemptCanLaunch | core/control/connect.go:1236-1257 | From every reachable state in which `connMu` is free, a connect, and whatever relaunch, reconcile or autoconnect is queued for the current generation, can take it and launch its walk with any tags. |
| LifecycleProgress.AnAutoconnectCanLaunch | core/control/connect.go:1289-1340 | The same of an autoconnect from the moment it is asked for. |
| LifecycleProgress.AWalkCanConnect | core/control/connect.go:701-946 | From every reachable state with an unbegun walk of the current generation and `protectionOp` free, that walk can by its own steps bring up any node it has a tag for: published, selected, recorded with its options, watched by all five watchers and, where protection is needed, guarded. |
| LifecycleProgress.AConnectCanComeUp | core/control/connect.go:46-134 | From every reachable state in which `connMu` is free - connected, connecting, torn or hollow - a connect can end with any node of any profile up, exactly two generations later. |
| LifecycleAttended.ConnectingIsAttended | core/control/connect.go:717-746 | In every reachable state: while connecting is published and no attempt holds `connMu`, an unaccepted walk of the current generation is at work, and reconnecting is published only while a failover holds it. No walk ends without a word. |
| LifecycleAttended.AConnectionIsWatched | core/control/connect.go:1108-1142 | In every run a generation that had a process watcher still has it, or the watcher has published the error or queued the relaunch of that generation, for as long as the generation lasts. |
| LifecycleAttended.DeadEngineIsReported | core/control/connect.go:1108-1142 | From every state of the invariant with a dead engine and its watcher, the watcher alone can report it for the node last published: the relaunch exactly when the kill switch is wanted and the budget allows it, else the error. |
| LifecycleAttended.ADegradedExitIsLeft | core/control/hotswitch.go:282-319 | From every reachable state in which the watchdog watches a connected tunnel and `connMu` is free, its own steps can move the tunnel to any other server of the running configuration, by name and by selector, without a restart. |
| LifecycleAttended.AUserCanMove | core/control/hotswitch.go:158-189 | The same of a user's switch, from every reachable state with `connMu` free in which the engine can be steered there. |
| LifecycleAttended.ADegradedExitIsReported | core/control/health.go:158-215 | With no such exit it can queue, whoever holds `connMu`, the failover of this generation from that node, and changes nothing else. |
| LifecycleAttended.ABusyLockFallsBack | core/control/hotswitch.go:300-310 | A watchdog that finds `connMu` held does not wait for it: it queues that same failover. |
| LifecycleAttended.TheProtectionFollows | core/control/daemon.go:1655-1700 | In every run, when a set-command for the kill switch succeeds, the protection in place agrees with the preference stored by then, and a re-apply is pending where it was asked for; a failure leaves the preferences and the protection as they were. |
| LifecycleHistory.APublishedTunnelWasProbed | core/control/connect.go:892-941 | In every run, a walk that publishes a node has, for that node and in this generation, carried traffic with the selector pinned to it and armed the system proxy. |
| LifecycleHistory.ALocalRefusalEndsTheWalk | core/control/connect.go:800-830 | In every run, after a start that this machine refuses, the walk starts no other engine: it is on its way out, or gone with the error published unless its generation was over. |
| LifecycleHistory.AnAutomaticMoveIsRechecked | core/control/hotswitch.go:311-316 | In every run, the watchdog points the selector elsewhere only after it has found, in the same hold of `connMu`, its own generation connected and in budget and the tunnel still on the degraded node. |
| LifecycleHistory.AnAutomaticMoveTellsTheWatchdog | core/control/hotswitch.go:311-321 | However an automatic move ends: moved or called off, the watchdog watches on; not steerable or not confirmed, it falls back on a reconnect, and nothing that is published has changed. |
| LifecycleHistory.AReportedCrashHappened | core/control/connect.go:1108-1142 | In every run, a watcher about to report has seen the engine gone, and its generation current after that. |
| LifecycleHistory.TheInterfaceWatcherCanStop | core/control/tunwatch.go:34-130 | From every reachable state, an interface watcher whose generation is current can stop the engine, and nothing else changes but its own end. |
| LifecycleNames.NextKeepsNames | core/control/hotswitch.go:126-135 | Every node on its way to being published is named, and a walk's attempt has a tag of its own. |
| LifecycleOptions.NextKeepsOptions | core/control/connect.go:1370-1395 | Every step keeps the invariant behind the two rows below. |
| LifecycleOptions.NoOptionIsLost | core/control/connect.go:380-406 | In every reachable connected state whose configuration differs from the desired TLS fragmentation, tun stack or resolved multihop: a re-apply or a reconcile of this generation is pending or at work, or the walk has yet to compare, or a failed re-apply has been reported since the last change. There is a configuration unless a failover has reported its own failed teardown, and then nothing runs. |
| LifecycleOptions.SettledMeansApplied | core/control/daemon.go:1712-1729 | With nothing pending and `connMu` free, a connected tunnel runs the desired options, or the failure has been reported; without a torn failover there is a tunnel. |
| LifecycleExit.UndisturbedRunsAgree | core/control/health.go:196-213 | In every run in which no revert fails and no failover's second look finds a tunnel that is no longer connected, a settled connection has its selector on the tag of the published node. |
| LifecycleExit.CleanRunsAgree | core/control/hotswitch.go:158-189 | The same of every run in which no revert fails and no such second look reads another exit than the selector's. |
| LifecycleExit.UncleanStepsCanDisagree | core/control/health.go:196-213 | After any run of the row above, a step that breaks its condition can end in a settled connection on another exit: that condition is exact. |
| LifecycleMislabel.ALostRevertMislabels | core/control/hotswitch.go:173-184 | A run from the daemon's start in which a switch does not hold up and its revert fails, ending connected on one node by name and another by selector. |
| LifecycleMislabel.ACrashReportMislabels | core/control/connect.go:1112-1138 | A run from the daemon's start in which a failover reads a crash report at its second look, ending the same way. |
| LifecycleRefusal.ReapplyErrsOverAnEngineIff | core/control/connect.go:379-406 | A refused re-apply publishes Error, and an engine runs under it exactly when the refusal came before the re-apply's own teardown and the engine neither died nor was stopped since the re-apply looked at the state. |
| LifecycleRefusal.AReapplyErrsOverAnEngine | core/control/connect.go:394-405 | A run from the daemon's start after which Error is published, nothing is pending, and the engine runs. |
| LifecycleRefusal.ATornFailoverConnectsNothing | core/control/health.go:196-213 | A run from the daemon's start after which Connected is published, nothing is pending, and neither an engine nor a watcher is left. |
| HotSwitch.LiveExit.LiveSwitchTarget | core/control/hotswitch.go:117-136 | The target's tag and the current one, or a refusal when nothing is connected, the configuration is of another generation, it or the state is of another profile, or the target is no member. |
| HotSwitch.LiveExit.ConfirmSwitch | core/control/hotswitch.go:195-211 | Confirmed exactly when some probe within the budget comes back. |
| HotSwitch.LiveExit.CommitSwitch | core/control/hotswitch.go:222-243 | The last-good node, the intent of a user's switch, the attempts snapshot (now the one exit) and the state move together, and nothing else. |
| HotSwitch.LiveExit.SwitchNode | core/control/hotswitch.go:158-189 | The method does what the transaction function says for all answers of the calls. |
| HotSwitch.SwitchIsATransaction | core/control/hotswitch.go:142-151 | Helper to read exit agreement beside: what one call of the transaction function comes to, on the target by name and by selector or nothing changed, with the case of a failed revert. |
| HotSwitch.SwitchMovesIff | core/control/hotswitch.go:117-189 | A live switch succeeds exactly when the request names the running profile, the tunnel is connected under a configuration of this generation, the target is another server whose tag there is one of the selector's, the engine takes it, and some probe comes back. |
| HotSwitch.SwitchTellsEveryone | core/control/hotswitch.go:222-243 | A successful one leaves the tunnel's configuration alone and sets, all to the target: the published node, the selector, the last-good node, the one-exit snapshot, and the intent exactly when the user asked. |
| HotSwitch.AFailedSwitchStaysPut | core/control/hotswitch.go:158-187 | A failed one changes at most the selector: untouched if the target was refused, the old exit's tag if it was put back, and else the target's. |
| HotSwitch.StepsAreTheSwitch | core/control/hotswitch.go:158-189 | The lifecycle's atomic steps of a user's switch, left alone, have the transaction's effect. |
| AutoSwitch.AutoSwitchBudget.AllowAutoRecovery | core/control/hotswitch.go:341-380 | Marks the degraded node, prunes the list, and allows a move exactly when the watchdog's view is current, the last move is rested and the window is not full. |
| AutoSwitch.AutoSwitchBudget.RecordAutoSwitch | core/control/hotswitch.go:383-387 | Appends the instant of the move. |
| AutoSwitch.PruningDecidesAsHistory | core/control/hotswitch.go:352-361 | With the cooldown no longer than the window, the pruned list decides as the full history would, in every run. |
| AutoSwitch.EveryRunKeepsTheWindow | core/control/hotswitch.go:374-378 | In every run any maxAutoSwitches + 1 consecutive automatic moves span at least the window. |
| AutoSwitch.TheBudgetIsGivenIff | core/control/hotswitch.go:352-379 | In every run, a check under the lock lets its holder through exactly when the last move of all is a cooldown ago or out of the window, and the move maxAutoSwitches back is out of the window, if there is one. |
| AutoSwitch.CooldownIsKeptIff | core/control/hotswitch.go:371-373 | Consecutive automatic moves stay a cooldown apart in every run exactly when the cooldown fits in the window or no move is ever allowed. |
| RelaunchBudget.KillSwitchBudget.KillSwitchRelaunch | core/control/connect.go:1179-1215 | The counter and the decision of one death: a healthy stretch refunds, an armed death within the budget spends, a missing profile spends without a relaunch. |
| RelaunchBudget.KillSwitchBudget.HandleConnect | core/control/connect.go:46-114 | Only a connect that passes every refusal before the reset and was not a live switch resets the counter; one refused later has reset it too. |
| RelaunchBudget.KillSwitchBudget.HandleDisconnect | core/control/connect.go:440-445 | A disconnect resets it. |
| RelaunchBudget.CounterIsTheHistory | core/control/connect.go:1144-1150 | The counter is the number of armed deaths since the last refund, capped. |
| RelaunchBudget.RelaunchedIff | core/control/connect.go:1190-1209 | A death is relaunched exactly when armed, stored, and among the first five armed deaths since the last refund. |
| RelaunchBudget.RelaunchesAreBounded | core/control/connect.go:1169-1173 | From any moment of any run, relaunches stay within five times one plus the refunds since (commands that count, and armed deaths after a healthy stretch). |
| RelaunchBudget.TheBoundIsTight | core/control/connect.go:1144-1150 | For every number of refunds some run reaches the bound. |
| FallbackWalk.AttemptTracker.constructor | core/control/connect.go:580-601 | One waiting item per candidate in order; an identifier is filed under its last occurrence. |
| FallbackWalk.AttemptTracker.Trying | core/control/connect.go:608-613 | Marks the filed item in flight and publishes a copy. |
| FallbackWalk.AttemptTracker.Escalating | core/control/connect.go:620-627 | Keeps it in flight, naming the next strategy and the reason. |
| FallbackWalk.AttemptTracker.BlockedWithReason | core/control/connect.go:633-641 | Marks it blocked, replacing the reason only by a given one. |
| FallbackWalk.AttemptTracker.Succeeded | core/control/connect.go:647-656 | Marks it ok, clears the reason, names a non-default strategy. |
| FallbackWalk.TryOnce | core/control/connect.go:785-875 | One strategy on one node, with every way it can end. |
| FallbackWalk.AttemptNode | core/control/connect.go:775-883 | The strategy cascade on one node is the function `Cascade`, for every world. |
| FallbackWalk.RunFallback | core/control/connect.go:701-746 | The whole loop, with its second look at the generation when the list is exhausted, is the function `WholeWalk`, for every world; how that ends is `FallbackEnding.WalkIsExhaustedIff`. |
| FallbackShape.SnapshotsAreShapedIff | core/control/connect.go:592-601 | Every published snapshot reads blocked*, at most one trying or ok, waiting*, with outcome "ok" iff exactly one item is ok and all blocked once exhausted, for every world, exactly when no identifier repeats. |
| FallbackShape.StrategiesAreEarned | core/control/connect.go:856-871 | A strategy is started on a node only after every earlier one met the interference fingerprint there (entry accepts, handshake stalls) and was logged as censored. |
| FallbackShape.StartsAreBounded | core/control/connect.go:711-745 | A walk starts the engine at most once per candidate and strategy. |
| FallbackShape.CascadeIsDecided | core/control/connect.go:759-774 | A node's outcome is that of the first strategy without the fingerprint, or of the last. |
| FallbackShape.WalkConnectsIff | core/control/connect.go:692-700 | A walk announces success exactly when some candidate comes up and every one before it was passed over, unsuperseded. |
| FallbackEnding.WalkIsExhaustedIff | core/control/connect.go:701-746 | For every world and order: the log ends with the exhausted snapshot, every filed item blocked, and then the failure, exactly when every candidate is passed over and nobody supersedes the walk at any look; otherwise no exhausted snapshot is published at all, and the failure is logged only there or after a refusal by this machine. |
| FallbackEnding.TheLastSnapshotTells | core/control/connect.go:604-676 | With distinct identifiers the last snapshot gives for every candidate the status, the named strategy and the reason that its own tries call for, for every world. |
| FallbackEnding.StartedIff | core/control/connect.go:775-883 | The engine is started for a candidate under a strategy exactly when the walk comes to it, each earlier of the four strategies met the interference fingerprint there, and the try is neither superseded beforehand nor impossible to build. |
| FallbackEnding.VerdictsAreObserved | core/fallback/classify.go:96-119 | Every verdict in the log is what the direct dial told - dead if refused or unreachable, censored if it connected and the tunnel stalled, else unknown - and the last strategy has none. |
| UserProxyLease.UserProxy.ApplyUserProxy | core/control/user_proxy_lease.go:44-97 | Apply does what the function over the durable state says, for every script of failures and crashes; what that leaves by itself is said by the laws of `ProxyRollback`. |
| UserProxyLease.UserProxy.TakeOverSettings | core/control/user_proxy_lease.go:69-97 | The write-ahead part: lease, write, read-back, confirmation, each failure rolled back, as `ProxyRollback.AFailedApplyIsRolledBack` says in terms of the settings. |
| UserProxyLease.UserProxy.RestoreUserProxy | core/control/user_proxy_lease.go:99-153 | Restore does what the function says, refusing or undoing field by field. |
| ProxyJournal.RunsKeepTheJournal | core/control/user_proxy_lease.go:44-153 | Over unbounded runs of apply and restore with a failure, crash or torn write at any call: until a rollback is cut short over a confirmed lease, there is no lease and the settings are the user's own, or a lease remembers them and the settings mix the two writes, at one server once confirmed. |
| ProxyJournal.NoRunLosesTheOriginal | core/control/user_proxy_lease.go:71-97 | After any such run from clean, one fault-free restore gives exactly the user's settings and drops the lease, or refuses an ambiguous state and touches nothing, and exactly then. |
| ProxyJournal.TheFirstCutLosesTheOriginal | core/control/user_proxy_lease.go:110-152 | The condition is exact: after any such run, whichever operation first cuts a rollback short over a confirmed lease, the next restore drops the lease and the settings are not the user's. |
| ProxyJournal.WholeWritesAreAlwaysUndone | core/control/user_proxy_lease.go:44-153 | With writes that happen whole or not at all, every state of every run is restored to the user's own settings. |
| ProxyJournal.InterruptedApplyIsUndoneOrRefused | core/control/user_proxy_lease.go:110-119 | An apply from clean with anything happening at any call, its writes reaching any subset of fields, is undone by the next restore, refused exactly when the server field is still the old one, differs from the target, and something else changed, or lost exactly when its own rollback was cut short. |
| ProxyJournal.OutsideEditsSurvive | core/control/user_proxy_lease.go:99-153 | Whatever anyone has done to the settings and whatever the lease says, any number of restores with a failure, crash or torn write at any call change only fields that hold our value, back to the ones before it, and nothing while the server is someone else's. |
| ProxyJournal.AFaultFreeRestoreUndoesOurs | core/control/user_proxy_lease.go:108-135 | Helper: without a fault and with a well-formed lease, every such field is undone, or the settings are ambiguous and left alone. |
| ProxyJournal.TornRestoreIsRecoveredIff | core/control/user_proxy_lease.go:99-153 | Any restore of any journal, with anything happening at any call, is recovered or refused by the next one, exactly unless its write reached a server field that tells the two apart and not all the rest, over a confirmed lease. |
| ProxyJournal.TornRestoreCanLoseTheOriginal | core/control/user_proxy_lease.go:110-115 | A concrete run from clean, an apply and a torn restore over its confirmed lease, after which the lease is dropped and the user's settings are not back. |
| ProxyRollback.AFailedApplyIsRolledBack | core/control/user_proxy_lease.go:71-97 | An apply from clean to which one thing happens at its write, read-back or confirmation, for every subset of fields reached and whether or not a failed save was stored: it reports the failure with the user's own settings back and no lease, or with a torn write left alone that cannot be told from the user's edit; and it succeeds, confirmed, exactly when nothing happened. |
| ProxyRollback.AnEarlyFailureTouchesNothing | core/control/user_proxy_lease.go:44-75 | A failure before the write changes no setting. |
| ProxyRollback.AnUndisturbedApplyTakesOver | core/control/user_proxy_lease.go:44-97 | Over any journal, an apply to which nothing happens ends with our settings and a confirmed lease of the user's own, except that ambiguous settings are left alone, and only those. |
| ProxyRollback.AForeignLeaseIsLeftAlone | core/control/user_proxy_lease.go:99-108 | Over a lease of another version or of a target that is not loopback, neither a restore nor an apply succeeds or changes anything, for every script. |
| SystemProxy.SessionSystemProxy.EnableProxy | core/control/session_proxy.go:24-33 | Enable over the accounts, for every behaviour of the session. |
| SystemProxy.SessionSystemProxy.DisableProxy | core/control/session_proxy.go:35-53 | Disable, with a second try after the owner's session id changed. |
| SystemProxy.SessionSystemProxy.ReconcileProxy | core/control/session_proxy.go:65-79 | Reconcile claims a console user who holds a lease before restoring. |
| SystemProxy.SystemProxyGuard.ArmSystemProxy | core/control/proxy.go:43-80 | The guard's armed, applied and target fields across an enable and its rollback. |
| SystemProxy.SystemProxyGuard.DisarmSystemProxy | core/control/proxy.go:82-106 | A failed disable keeps ownership. |
| SystemProxy.SystemProxyGuard.ReconcileSystemProxyAtStartup | core/control/proxy.go:124-136 | Startup reconciliation through the session controller. |
| ProxyOwnership.RunsKeepOwnership | core/control/proxy.go:43-146 | Any run of arm, disarm, reconcile and restart with any failures keeps: applied implies armed and, in an account without a cut rollback, exactly our settings at the owner; an owner implies armed; every such account a journal. |
| ProxyOwnership.DifferingSettingsAreOwned | core/control/proxy.go:88-106 | Starting clean, while any user's settings may differ from their own, the daemon is armed and owns that user, whose lease remembers the original, unless a rollback in that account was cut short. |
| ProxyOwnership.RestoresAreEntitled | core/control/session_proxy.go:35-53 | A restore only ever ran for a user an apply ran for or one seen to hold a lease, across session changes and restarts. |
| ProxyOwnership.ReconciliationRecovers | core/control/session_proxy.go:65-79 | After a restart, a reconciliation without error leaves the console user no lease, and their own settings unless a rollback was cut short. |
| ProxyUndisturbed.EnableTakesOver | core/control/session_proxy.go:24-33 | Undisturbed, an enable succeeds, owned by the owner before or the console user, whose account alone changes to ours. |
| ProxyUndisturbed.DisableGoesOverIff | core/control/session_proxy.go:35-53 | A disable whose owner's session is gone succeeds in another exactly when the same, identified user is at the console in a new one; otherwise no account changes and the owner stays. |
| ProxyUndisturbed.DisableTouchesOnlyItsOwner | core/control/session_proxy.go:35-53 | Whatever happens, a disable restores for its owner's SID alone and keeps an owner of that SID exactly when it fails. |
| ProxyUndisturbed.ReconcileFindsIff | core/control/session_proxy.go:65-79 | Undisturbed, a reconciliation finds something exactly when there is an owner or the console user holds a lease, and leaves that user their own settings and no lease, and nobody else touched. |
| ProxyUndisturbed.ArmApplies | core/control/proxy.go:43-80 | Undisturbed, arming ends armed and applied at its target: with nothing called if it was so already, else with the console user's settings ours and those of an owner before given back. |
| ProxyUndisturbed.DisarmGivesBack | core/control/proxy.go:82-106 | Undisturbed, disarming leaves nothing armed, no owner, and the owner's settings their own. |
| ProxyUndisturbed.AFailedArmRollsBack | core/control/proxy.go:66-74 | An arming whose enable fails in any way, and whose rollback meets nothing, leaves nothing armed, no owner and the user's own settings. |
| ProxyUndisturbed.StartupClearsIff | core/control/proxy.go:124-136 | Undisturbed, startup reports a cleared proxy exactly when the console user holds a lease. |
| RouteCover.IsNetworkAddress | adapters/windows/routes_cover.go:194-211 | The byte loop answers true iff the big-endian value of the address is divisible by two to the number of host bits. |
| RouteCover.AlignedByteByByte | adapters/windows/routes_cover.go:186-193 | Divisibility of the whole address is the mask test on every byte. |
| RouteCover.Sweep | adapters/windows/routes_cover.go:156-170 | Over spans sorted by start, the sweep with its early exit answers iff every address lies in some span. |
| RouteCover.CoversWithin | adapters/windows/routes_cover.go:141-170 | True iff every address of the family lies in a stored prefix of metric at most the threshold, for overlapping prefixes in any order. |
| RouteCover.DistinctMetricsAscending | adapters/windows/routes_cover.go:118-131 | Exactly the stored metrics, once each, ascending. |
| RouteCover.CoverMetric | adapters/windows/routes_cover.go:103-113 | (m, true) iff the prefixes of metric at most m cover and no smaller threshold does; (0, false) iff none does. |
| RouteCover.CoversIsMonotone | adapters/windows/routes_cover.go:103-113 | Coverage at a threshold is coverage at every larger one. |
| RouteTable.CoverTable.Add | adapters/windows/routes_cover.go:76-90 | Stores the prefix under its key unless it is not the network address of its own length; other keys stay. `RouteTable.KeptIffStored` says which that are. |
| RouteTable.KeptIffStored | adapters/windows/routes_cover.go:76-90 | At every metric, what is kept is exactly what a stored prefix may be: a non-empty address, a length from zero to its width, and a start divisible by its size. |
| RouteTable.CoverTable.Defaults | adapters/windows/routes_cover.go:180-191 | With one address width per key, which the row of `RouteRead.DefaultRoutes` shows the reader's table to have, exactly the keys whose routes cover, each with its least metric. |
| RouteTable.StoredPrefixIsInsideTheSpace | adapters/windows/routes_cover.go:66-90 | Every stored prefix is an aligned interval inside the address space. |
| RouteTable.HalvingChangesNothing | adapters/windows/routes_cover.go:23-30 | Replacing a route by its two halves at the same metric never changes the answer. |
| RouteTable.OrderDoesNotMatter | adapters/windows/routes_cover.go:141-170 | The answer depends on the routes as a collection, not on their order. |
| RouteTable.AddingNeverRaises | adapters/windows/routes_cover.go:103-113 | One more route never removes coverage and never raises its metric. |
| RouteTable.OtherKeysAreUntouched | adapters/windows/routes_cover.go:52-58 | A route of one interface and family leaves every other answer as it was. |
| RouteTable.OneRouteCoversOnlyAsDefault | adapters/windows/routes_cover.go:28-34 | One route alone covers exactly when it is the default route. |
| RouteRead.ReadRoutes | adapters/windows/routes_windows.go:124-151 | One forwarding table is folded into the coverage table row by row, skipping other families and saturating the metric. |
| RouteRead.DefaultRoutes | adapters/windows/routes_windows.go:179-198 | For any two forwarding tables and adapter list: an error exactly when a query failed; otherwise an interface has a family's default route exactly when its well-formed rows leave no address of the family uncovered, with the least saturated metric at which they do, and it is listed exactly when it has one. Well-formedness, coverage and metric are spelled out in numbers, without the table's own tests. |
| RouteRead.ALiteralDefaultCounts | adapters/windows/routes_windows.go:124-198 | A row of length zero at the zero address gives its interface a default route of its family no worse than that row's metric and its adapter's, saturated. |
| RouteRead.TwoHalvesCount | adapters/windows/routes_cover.go:23-30 | So do two rows that are the two halves of the space, at the worse of their metrics. |
| RouteRead.SplitByFamily | adapters/windows/routes_windows.go:186-197 | The answers per key, brought together per interface. |
| RouteRead.StoredCoverAsTheRows | adapters/windows/routes_cover.go:76-90 | The routes the table stores for an interface and family cover an address exactly when a well-formed row does, at every threshold. |
| OutboundQueue.Server.Enqueue | core/control/server.go:166-181 | The critical section of enqueue: drop, shed the oldest event, give the client up, or append; `OutboundPromise.EveryRunKeepsThePromise` says of any run what that leaves of the frames offered. |
| OutboundQueue.Server.DropOldestEventLocked | core/control/server.go:183-192 | Removes the first event if there is one. |
| OutboundQueue.Server.TakeFrame | core/control/server.go:121-141 | The writer's section: wait, take the head, or exit. |
| OutboundQueue.Server.FinishWrite | core/control/server.go:142-149 | A failed write fails the stream. |
| OutboundQueue.Server.StopWriter | core/control/server.go:213-217 | Closing keeps what is queued and changes nothing else. |
| OutboundPromise.EveryRunKeepsThePromise | core/control/server.go:19-60 | In every reachable state, told by the steps alone: at most 512 queued; until failure, written, in flight and queued are an order-preserving part of the frames offered before the first close, with every response in it, the queued events the newest offered, and one event missing for each frame that found the queue full - none if there was none. |
| OutboundPromise.AcceptedIsWhatWasOffered | core/control/server.go:166-181 | In every run, what is taken on is exactly what was offered before the first close or failure, less the frame whose enqueue gave the client up. |
| OutboundPromise.FailsIff | core/control/server.go:166-181 | The stream fails exactly at a failed write and at a frame offered to an open queue of 512 responses. |
| OutboundPromise.TheWriterSendsInOrder | core/control/server.go:121-149 | In n turns an idle writer sends the first n queued frames in order, open or closed. |
| OutboundQueue.GivesUpOnlyOnResponses | core/control/server.go:166-181 | A client is given up exactly when the full backlog holds only responses. |
| OutboundQueue.FailureIsFinal | core/control/server.go:198-206 | After failure nothing is accepted and at most the frame in flight is written. |
| OutboundQueue.CloseFlushes | core/control/server.go:121-149 | After a close, what was pending is written before the writer exits. |
| OutboundQueue.StoppedWriterExits | core/control/server.go:213-223 | After close or failure the writer is out within as many of its own steps as there is work left. |
| Tags.SanitizeTag | core/control/daemon.go:2456-2477 | The loop computes the sanitised name. |
| Tags.SanitizedIsATag | core/control/daemon.go:2449-2455 | A tag is never blank, has no forbidden character and no space at its ends, and is a fixed point. |
| Tags.DecimalIsInjective | core/control/daemon.go:2388-2398 | Different counters render differently. |
| SelectorTags.UniqueTag | core/control/daemon.go:2388-2398 | The suffix search terminates for every name list and returns a tag nobody has. |
| SelectorTags.ServerTags | core/control/daemon.go:2380-2424 | The loop computes the tagging, freeing the tags of servers it cannot render. |
| SelectorTags.ServersGetDistinctTags | core/control/daemon.go:2371-2379 | Servers with different identifiers get different non-blank tags, for every name list. |
| SelectorTags.RenderableServersAreTagged | core/control/daemon.go:2380-2436 | An identifier has a tag exactly when a renderable server carries it. |
| SelectorTags.BuildCandidates | core/control/daemon.go:2345-2369 | The candidates, or which of the three errors. |
| SelectorLaws.CandidatesAreTheUsableOnes | core/control/daemon.go:2345-2369 | The candidates of a profile are its usable servers, all of them and in its order; usable is spelled out per protocol. |
| SelectorLaws.MembersAreTheUsableOnes | core/singbox/builder.go:376-439 | The members the builder gives the selector are the usable nodes, all of them and in their order. |
| SelectorLaws.NamesBecomeTags | core/control/daemon.go:2456-2477 | A trimmed name becomes its tag character by character, control characters, quotes and backslashes dashed out; a blank one becomes "node". |
| SelectorLaws.NamesakesAreNumbered | core/control/daemon.go:2388-2398 | Servers of one name are tagged with it, and from the second on with it, a dash and 2, 3, ... in profile order. |
| SelectorTags.BuildNodes | core/singbox/builder.go:376-439 | The builder's own naming loop. |
| SelectorTags.MirrorAgreesWithBuilder | core/control/daemon.go:2371-2424 | The daemon's tags are the builder's, server by server. |
| SelectorTags.BuilderTagsAreDistinct | core/singbox/builder.go:376-439 | No two servers the naming loop emits share a tag, so the selector never lists one twice. |
| SelectorTags.SelectorStartsOnTheCandidate | core/singbox/builder.go:228-238 | Asked for a tagged server, the selector's default is that server's tag, which no other server has. |
| SelectorTags.EveryCandidateStartsOnItself | core/control/daemon.go:2345-2369 | Every candidate the walk can be given has a tag, and a selector built for it defaults to that tag. |
| SelectorTags.ApplyStrategyToNodes | core/control/daemon.go:2320-2343 | The strategy reshapes the target node alone, and the selector's tags stay as they were. |
| SelectorLaws.AStrategyReshapesTheHandshake | core/fallback/strategy.go:54-70 | A strategy changes nothing of a node but the fingerprint, the server name and the fragmentation of its TLS, each to what it asks for or as it was; twice is once, and the node stays as usable. |
| BuiltConfig.ProxySelector | core/singbox/builder.go:685-699 | The first selector tagged "proxy" in the configuration, if there is one. |
| BuiltConfig.CarriersOfATag | core/singbox/builder.go:270-280 | How many outbounds and endpoints of a built configuration carry any given tag, with and without a chain: one for a server that has it, one more for one of the builder's three. |
| BuiltConfig.ConfigTagsAreDistinctIff | core/singbox/builder.go:36-38 | The tags of a built configuration are pairwise different exactly when no server the builder emits is named, once sanitised, "proxy", "direct" or "block". |
| BuiltConfig.ReservedTagIffNamed | core/singbox/builder.go:377-395 | A server takes one of these tags exactly when its sanitised name is one: the suffix loop never makes or avoids one. |
| BuiltConfig.TheSelectorReadsBack | core/singbox/builder.go:228-256 | The selector found in a built configuration defaults to one of its members: the requested tag, the first server's, or the chain's exit. |
| SelectorLaws.BuildsIff | core/singbox/multihop.go:19-33 | A configuration is built exactly when some node is usable and a chain, if there is one, has two different ends that are outbounds of servers. |
| SelectorLaws.AChainHasTwoHops | core/singbox/builder.go:240-256 | With a chain, the selector offers the exit alone, the exit is the one outbound that dials through another, and that one is the entry, which dials directly. |
| SelectorLaws.EveryMemberIsThere | core/singbox/builder.go:376-439 | Every member is an endpoint if it is a WireGuard server and else an outbound, with its own tag and node. |
| BuiltConfig.SelectorListsItselfIff | core/singbox/builder.go:269-276 | Without a chain the selector is its own member exactly when an emitted server is named "proxy". |
| BuiltConfig.CandidateOwnsItsTagIff | core/control/daemon.go:2345-2369 | A configuration built for a candidate starts on its tag, and the tag is that server's alone exactly when it is none of the three; else one other outbound has it too. |
| BuiltConfig.ANameCanCollide | core/singbox/builder.go:277-280 | A server named "direct" is given that tag, and the configuration built for it carries the tag twice. |
| Stun.BuildBindingRequest | core/control/diagnostics.go:225-234 | The 20-byte header of a binding request with the transaction id. |
| Stun.ParseMappedAddress | core/control/diagnostics.go:302-345 | In bounds for every value; family, length and the in-place unmasking as specified. |
| Stun.WalkAttributes | core/control/diagnostics.go:259-290 | In bounds and terminating for every byte string. |
| Stun.ParseBindingResponse | core/control/diagnostics.go:239-296 | The checks of the header, then the preferred address of the walk. |
| Stun.DecoderReportsTheAttributes | core/control/diagnostics.go:259-296 | For every well-formed, padded attribute list, whatever follows it: the last decodable XOR-MAPPED-ADDRESS, else the last decodable MAPPED-ADDRESS, else none. |
| Stun.DecoderReportsWhatItReads | core/control/diagnostics.go:259-296 | For arbitrary attribute bytes, the same of the attributes they begin with. |
| Stun.ResponseRoundTrip | core/control/diagnostics.go:302-345 | An encoded IPv4 or IPv6 address and port come back under any transaction id, among any other attributes. |
| StunBytes.AddressInBytes | core/control/diagnostics.go:302-345 | The bytes of an encoded address: zero, family, port and address, the port masked by 21 12 and the address by 21 12 A4 42 and the transaction id if it is a XOR-MAPPED-ADDRESS, byte by byte. |
| StunBytes.DecodedInBytes | core/control/diagnostics.go:302-345 | The converse for every byte string: which values decode, and to which port and address, byte by byte. |
| StunBytes.XorIsBitwise | core/control/diagnostics.go:302-345 | Helper: the exclusive or of the mask is that of each bit. |
| StunBytes.HeaderInBytes | core/control/diagnostics.go:239-258 | Whatever decodes begins 01 01, a length that fits, 21 12 A4 42 and our transaction id. |
| StunBytes.PaddedToFour | core/control/diagnostics.go:280-290 | The walk steps over each value to the next multiple of four bytes. |
| StunBytes.AWholeResponse | core/control/diagnostics.go:239-345 | Two whole messages in bytes, one with the masked address of the sample response of RFC 5769 (section 2.2) and one unmasked, decode to 192.0.2.1 and port 32853. |
| Stun.OnlyOurResponsesDecode | core/control/diagnostics.go:239-258 | Only a success response with the cookie and our transaction id decodes. |

## Left out

- LifecycleSafety.ConnectedComesFromAcceptance: says nothing about the engine being alive while Connected; a process can die at any time, and a refused failover puts the label back.
- LifecycleOptions.NoOptionIsLost: leaves out the kill switch, whose set-command returns before its re-apply on a protection error, and the options the reconcile does not compare; the reconcile's own comparison of the kill switch is in the model.
- LifecycleDrain.TeardownCanReturn: gives a schedule, as do the progress laws of `LifecycleProgress` and `LifecycleAttended`, since no fairness of the scheduler is modelled; it assumes that the engine's Stop ends the process, that probes and other calls return once their context is over, and that a sleeping goroutine is eventually run.
- LifecycleExit.UndisturbedRunsAgree: takes a new engine's selector as unknown until the walk sets it, and speaks of the last Select that succeeded; what the engine does with it is not part of this model.
- Profiles in the lifecycle: one profile's tags are an input of each attempt; a request for another profile is an answer "not steerable". Server identifiers are non-empty.
- The candidate order, latency measurement, last-good bookkeeping and the number of tries inside the lifecycle's walk: any number of tries of any tagged node; the bounded walk is module FallbackWalk.
- The crash watcher's decision and its report are one step: the decision reads only the kill switch, and a report after the switch was turned on in between is the step's report for a spent budget.
- The health watchdog's probe counting: in the lifecycle it may find the node degraded at any time.
- The WFP guard: verify, prepare and release either succeed or leave the policy as it was; its status text appears only as a possible refusal.
- The node shown beside the error of a refused re-apply: the model keeps the state's, the source writes the one read when the re-apply began.
- A failed Stop in the interface watcher, and the re-pick of bypass strategies (switched off in production), with its lock and its re-apply.
- `emitAttempts` drops the snapshots published after the generation has moved, which is a suffix of the log the shape laws speak of; the items' sequence number, protocol and last-good flag never change and are not modelled.
- The walk's calls to Stop, its logging and the persistence of last-good and intent inside FallbackWalk; they are steps of the lifecycle or nothing.
- Measuring and ranking exits for an automatic switch (`scanCandidates`, `measureCandidates`); a scan's target is an input.
- LifecycleAttended.AConnectionIsWatched: says that the crash is reported, not that the report stays: a failover or a live switch that is under way publishes its own end over it, as the runs of `LifecycleMislabel` show.
- ProxyRollback.AFailedApplyIsRolledBack: has one thing go wrong and not the rollback itself; `ProxyJournal.InterruptedApplyIsUndoneOrRefused` has anything go wrong and speaks of the next restore.
- AutoSwitch.EveryRunKeepsTheWindow: assumes a clock that does not go back.
- UserProxyLease.UserProxy.ApplyUserProxy: whether a target is a loopback address and port is an abstract predicate; the parsing is the standard library's.
- ProxyJournal.RunsKeepTheJournal: has no one else editing the settings during the run; the outside-edits row covers restores over edited settings.
- ProxyOwnership.ReconciliationRecovers: promises the user's own settings only for an account without a cut rollback; `ProxyJournal.TheFirstCutLosesTheOriginal` says what happens otherwise.
- ProxyJournal.AFaultFreeRestoreUndoesOurs: speaks of a well-formed lease and of a restore whose calls succeed; `OutsideEditsSurvive` has neither condition.
- SystemProxy.SystemProxyGuard.ReconcileSystemProxyAtStartup: leaves out the controller without a `Reconcile` method, which reads the settings back and disables them at our own address, because it keeps no lease; the reconciliation at an idle logon (`ReconcileSystemProxyWhenIdle`) is left out too.
- RouteTable.CoverTable.Defaults: is promised for one address width per key, which is how `RouteRead.ReadRoutes` fills it; `CoverTable.Add` takes any, and the source would shift by a negative count on some other tables.
- RouteCover.CoversWithin: takes `sort.Slice` as any ordering by start.
- OutboundQueue.Server.StopWriter: leaves out the bounded wait for the writer (`core/control/server.go:219-222`), because time is outside the model.
- OutboundPromise.EveryRunKeepsThePromise: the bytes of a frame, the write deadline and the condition variable's wake-ups are outside; a waiting writer is a step that is not enabled.
- BuiltConfig.ConfigTagsAreDistinctIff: speaks of outbounds and endpoints; the inbounds, DNS servers, rules and API of the configuration are outside, and what the engine does with a tag that occurs twice is not part of this model.
- SelectorTags.UniqueTag: counters are unbounded; the source's `int` would have to overflow to differ.
- The STUN exchange over sockets, `classifyNAT`, leak and speed checks, JSON, logs, settings files, the bypass bundle, entitlement look-ups and the UI.
- The live exit map's copy of the profile's tags is a value here, so aliasing with the walk's map is not modelled; the source copies it for that reason.
