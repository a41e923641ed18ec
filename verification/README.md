# Verification of the writeonce service supervisor and its neighbours

The project models, and proves properties of, the stateful core of the repository:

* the **transaction builder** of `writeonce-svc`: breadth-first closures over requirement
  edges, Kahn's sort over After/Before edges, the reversed stop plan, and the lifting of
  `[install]` directives (`Digraph`, `Registry`, `Install`, `FilePlans`, `UnitRegistries`);
* the **supervisor state machine**: starting, hard-dependency failure, child exits, the
  restart queue and its start limiter, synchronous stops with escalation, shutdown, and
  the event loop that drives them (`Kernel`, `Supervisor`, `Bookkeeping`, `Stopping`,
  `Restarts`, `CrashLoops`, `Decisions`, `Failure`, `Starts`, `Runs`, `Commands`, `Tidiness`,
  `Unguarded`, `Shutdown`, `SupervisorStates`);
* **runs that show conditions exact**: the kindest environment of a start (`BestCases`),
  crash after crash of one service (`CrashRuns`), restarts that overtake one another
  (`FireOrder`), and runs that lose no time (`Punctuality`);
* the **inhibitor protocol** of `writeonce-logind` as interleaved atomic steps of D-Bus
  calls, clients and the watcher thread, faults included, over infinite runs
  (`Inhibitors`, `InhibitorRuns`, `InhibitorDaemons`);
* the **directory of enabled units** and what a restart makes of it (`Enablement`), the
  **PID 1 signal loop** (`Pid1Loop`), and the **installer's form** (`Installers`,
  `InstallerApps`).

Code that updates an object in place is a class (`UnitRegistry`, `SupervisorState`,
`LoginDaemon`, `EnabledDirectory`, `InitLoop`, `App`) whose methods are proved equal to
functions on the abstract state; the theorems are about those functions and about runs.

The kernel is a small process world: a clock, live children, zombies, the one pending
SIGCHLD bit, and system calls on them. What the environment does is a script of rounds,
one consumed at each point where the code enters the kernel to fork, to wait or to sleep
in epoll: which children exit and how, which orphans are adopted, how much time passes,
what a fork returns, which zombie a wait finds first. Every theorem holds for every
script. After the end of a script time still passes and processes that were sent SIGKILL
die; that is all that termination of a stop rests on. Durations are in nanoseconds. A fork
never returns the pid of a child that has not been collected; pids are otherwise reused
freely.

A run of the supervisor is any sequence of events (time in epoll, signals read, the
timer, commands) after a boot; each turn of the event loop is such a sequence. The journal
in the state stands for what the supervisor prints, and the log in the world for the
system calls it makes.

## Where code and comments differ

The model follows the code. Each property that fails has its exact condition.

* `RequirementCycle` is never produced: requirement cycles are accepted
  (`RequirementCyclesAreAccepted`). The anchor of a stop plan is last only under the
  condition of `AnchorLastIff`.
* Due restarts are started in queue order, where the comment on `fire_due_restarts` says
  time order (`LateFirst` shows a queue). One pass fires in time order exactly when the due
  entries stand in it so (`FiresInOrderIff`), and all runs of given unit files do exactly
  when the services that can be started and may be restarted all have one `restart-sec`
  (`TimeOrderIff`). The run that shows the other direction spends the longer delay in the
  reap loop of one turn; an idle loop wakes up for each deadline by itself.
* `start_named` ignores pending restarts, which breaks the bookkeeping in the run of
  `UnguardedStartBreaks`. One start keeps it exactly when it does not leave a process
  beside a pending restart (`TidyStartIff`), and a start command does in every environment
  exactly when even the kindest one spawns no pending service of its plan
  (`StartIsSafeIff`).
* The comment on the start-limit defaults calls a limit with `restart_sec >= interval /
  burst` unreachable. It is reachable if and only if burst delays fit into the interval
  (`LimiterTripsIff`), so for `restart_sec > interval / burst` the comment is right, and at
  equality it is wrong, the window being closed (`RefusedIff`). At equality the run that
  reaches it needs firing, spawn, exit and reap to take no time at all.
* A failed pipe or epoll registration strands the inhibitor record it is about, and no
  other (`FaultStrands`, `RemovedIff`).
* DISABLE leaves the edge that ENABLE added (`DisableKeepsEdge`). PID 1 waits out the whole
  grace even when its child is gone.

## Model

| member | source | states |
|---|---|---|
| Digraph.ClosureIsLeast | crates/writeonce-svc/src/graph.rs:192-203 | the closure holds exactly what is reachable and is the least closed set around the anchor |
| Digraph.KahnCompleteIffAcyclic | crates/writeonce-svc/src/graph.rs:233-265 | the queue-based sort emits every node if and only if the edges have no cycle, self-loops counting as cycles |
| Digraph.KahnSound | crates/writeonce-svc/src/graph.rs:243-256 | whatever is emitted is duplicate-free and respects every edge; each node left out has a predecessor left out |
| Registry.StartPlanCorrect | crates/writeonce-svc/src/graph.rs:188-273 | a start plan exists iff the unit is known and ordering inside its requirement closure is acyclic; it lists the closure once each, edges respected; otherwise the stuck set is non-empty and each member has a stuck predecessor |
| Registry.StopPlanCorrect | crates/writeonce-svc/src/graph.rs:281-363 | the same for stop plans over the dependents, with every ordering edge reversed |
| Registry.StartStopDuality | crates/writeonce-svc/src/graph.rs:285-307 | u is stopped with a exactly when a is started with u |
| Registry.OppositeOrder | crates/writeonce-svc/src/graph.rs:309-362 | an ordering edge with both ends in a start plan and in a stop plan appears in opposite orders |
| Registry.AnchorLastIff | crates/writeonce-svc/src/graph.rs:275-277 | exactly when the anchor of a stop plan really comes last |
| Registry.AnchorLastWhenAllAfter | crates/writeonce-svc/src/graph.rs:275-277 | the anchor comes last when every other member is reachable from it by ordering edges |
| Registry.RequirementCyclesAreAccepted | crates/writeonce-svc/src/graph.rs:258-265 | with no ordering directives every known unit has a start and a stop plan, requirement cycles or not |
| Registry.NameIndexLastWins | crates/writeonce-svc/src/graph.rs:85-91 | the name index maps each name to the last unit loaded under it |
| FilePlans.EdgesFromFiles | crates/writeonce-svc/src/graph.rs:93-185 | the requirement, hard and ordering relations are exactly what the files list under `requires`, `binds-to`, `wants`, `required-by`, `wanted-by`, `after` and `before`, each name standing for the last unit loaded under it |
| FilePlans.ClosuresFromFiles | crates/writeonce-svc/src/graph.rs:188-307 | a start takes along the least set closed under what the files need, a stop the least set closed under what needs it |
| FilePlans.StartPlanFromFiles | crates/writeonce-svc/src/graph.rs:188-273 | a start plan exists exactly when the files' orderings inside that set come to no loop; it lists the set once each, whoever is listed under `after` first and under `before` last |
| FilePlans.StopPlanFromFiles | crates/writeonce-svc/src/graph.rs:281-363 | the same for a stop plan, the other way round |
| Install.SameEdgesSamePlans | crates/writeonce-svc/src/graph.rs:205-265 | plans depend only on which units require and which are ordered before which, not on how, in what order or how often the files say so |
| Install.DesugarPreservesMeaning | crates/writeonce-svc/src/graph.rs:93-108 | lifting `wanted-by` and `required-by` gives the same targets and plans as writing the forward edges |
| Install.AddWantedByEdges | crates/writeonce-svc/src/graph.rs:129-143 | adding a wanted-by edge adds exactly one soft requirement edge and no ordering |
| Install.AddWantedByIdempotent | crates/writeonce-svc/src/graph.rs:138-142 | adding it again changes nothing |
| Install.AddWantedByEnlarges | crates/writeonce-svc/src/graph.rs:129-143 | start and stop closures only grow |
| Install.AddWantedByAsDeclared | crates/writeonce-svc/src/graph.rs:123-128 | after each added edge every plan is what it would have been had the unit file declared the edge, for any number of edges one after another |
| UnitRegistries.UnitRegistry.constructor | crates/writeonce-svc/src/graph.rs:84-111 | the loaded registry indexes the units and lifts exactly the install directives whose target exists |
| UnitRegistries.UnitRegistry.AddWantedBy | crates/writeonce-svc/src/graph.rs:129-143 | the in-place update is the modelled one; an unknown name changes nothing |
| UnitRegistries.UnitRegistry.RequirementTargetsOf | crates/writeonce-svc/src/graph.rs:147-165 | the sorted, duplicate-free listing of the requirement targets |
| UnitRegistries.UnitRegistry.HardTargetsOf | crates/writeonce-svc/src/graph.rs:171-185 | the sorted, duplicate-free listing of the hard targets |
| UnitRegistries.UnitRegistry.ClosureOf | crates/writeonce-svc/src/graph.rs:192-203 | the breadth-first loop computes the least closure |
| UnitRegistries.UnitRegistry.StopClosureOf | crates/writeonce-svc/src/graph.rs:285-307 | the loop over dependents computes the closure of the reversed edges |
| UnitRegistries.OrderingEdges | crates/writeonce-svc/src/graph.rs:205-231 | whatever order the set is iterated in, adjacency lists and in-degrees describe the restricted ordering multigraph |
| UnitRegistries.TopologicalSort | crates/writeonce-svc/src/graph.rs:233-256 | the loop computes the specified sort for any adjacency order; in-degrees never underflow and lookups never fail |
| UnitRegistries.UnitRegistry.BuildTransaction | crates/writeonce-svc/src/graph.rs:188-273 | the result is the start plan, a function of the registry alone; on a cycle the names are exactly those of the stuck units |
| UnitRegistries.UnitRegistry.BuildStopTransaction | crates/writeonce-svc/src/graph.rs:281-363 | the same for the stop plan |
| Config.DurationRoundTrip | crates/writeonce-svc/src/config.rs:17-30 | a number with a unit is read back as that many units, for every unit and every value whose product with the unit fits 64 bits |
| Config.ParseDurationIff | crates/writeonce-svc/src/config.rs:14-30 | a text is read as a duration exactly when, trimmed, it is a number below 2^64 with one of the five units, and refused otherwise |
| Config.TrimTrims | crates/writeonce-svc/src/config.rs:18 | trimming takes off white space, all of it at both ends and nothing else |
| Kernel.WaitAnyKeeps | crates/writeonce-svc/src/signal.rs:142-149 | a wait on any child collects a zombie when there is one and nothing only when none is left, losing no child |
| Bookkeeping.WaitOneshotKeeps | crates/writeonce-svc/src/state.rs:87-109 | waiting for a oneshot collects that child and no other, on exit and on timeout alike |
| Bookkeeping.WaitOneshotCalls | crates/writeonce-svc/src/state.rs:87-109 | the wait makes one call, collecting the child; only a timed-out child is sent SIGKILL first, and not before the deadline |
| Bookkeeping.StartUnitSound | crates/writeonce-svc/src/state.rs:156-230 | starting a unit keeps recorded pids unreaped children of that very unit |
| Bookkeeping.ReapAllSound | crates/writeonce-svc/src/signal.rs:142-149 | a reap pass ends with no zombie left |
| Bookkeeping.DrainSound | crates/writeonce-svc/src/state.rs:384-404 | the drain ends with every expected child collected and handled, whatever else exits meanwhile |
| Bookkeeping.DrainReapEnds | crates/writeonce-svc/src/state.rs:388-404 | after the escalation everyone waited for is collected once the killed processes die, so the drain ends |
| Stopping.StopContract | crates/writeonce-svc/src/state.rs:352-413 | after a successful stop every unit of the stop closure is Inactive without pid or pending restart, nothing outside requires one of them, other units changed only by their own child's exit, and the shutdown flag is restored |
| Stopping.StopSignals | crates/writeonce-svc/src/state.rs:359-404 | a stop sends one SIGTERM per running member in plan order, then only collects and, strictly after every member's parseable timeout, sends SIGKILL |
| Stopping.GraceIsLongest | crates/writeonce-svc/src/state.rs:359-365 | the grace is the longest parseable timeout of the plan, attained by a member, or ten seconds when no member has one |
| Stopping.StopIsAllOrNothing | crates/writeonce-svc/src/state.rs:352-413 | while something of its closure is not Inactive, a stop leaves the state as it was exactly when the ordering edges of the closure have a cycle, and changes it exactly when afterwards nothing of the closure is left to stop |
| Restarts.FireDueAccounted | crates/writeonce-svc/src/state.rs:333-348 | firing keeps the accounts and leaves exactly the entries beyond the sampled time |
| Restarts.ConsiderKeeps | crates/writeonce-svc/src/state.rs:305-319 | the pruned history stays a suffix of the whole one, and burst + 1 restarts in a row span more than the interval |
| Restarts.WindowBound | crates/writeonce-svc/src/state.rs:300-325 | any closed window as long as the interval holds at most burst scheduled restarts |
| Restarts.NeverOversleeps | crates/writeonce-svc/src/signal.rs:97-112 | the loop sleeps without limit only with nothing queued, never past the earliest deadline, no shorter than that or a minute demands, and a tenth of a second at a time while a shutdown waits |
| CrashLoops.RefusedIff | crates/writeonce-svc/src/state.rs:305-318 | a restart is refused exactly when the one burst places back is within the closed window |
| CrashLoops.LimiterNeverTrips | crates/writeonce-svc/src/config.rs:157-164 | in every run in which only its own restarts start a unit, if burst delays exceed the interval no restart of it is refused |
| CrashLoops.ExactlyBurstRestarts | crates/writeonce-svc/src/state.rs:300-347 | if failures follow one another within a gap and burst gaps fit the interval, exactly the first burst restarts are granted and each of them is fired, the next is refused, nothing is queued after it, and the unit ends Failed unless a stop command reached it |
| CrashRuns.LimiterTripsIff | crates/writeonce-svc/src/config.rs:157-164 | for a booted service with a restart policy that does not require itself, there is a run, with no other starts of it, in which a restart is refused, if and only if the burst is positive and burst delays fit into the interval |
| FireOrder.FiresInOrderIff | crates/writeonce-svc/src/state.rs:332-348 | in every sound state one timer pass fires in the order of deadlines exactly when the due entries of the queue stand in that order |
| FireOrder.TimeOrderIff | crates/writeonce-svc/src/state.rs:332-348 | all runs of given unit files fire restarts in the order of their deadlines if and only if all services that some start command reaches and whose policy allows a restart have the same delay |
| FireOrder.RestartsInTimeOrder | crates/writeonce-svc/src/state.rs:321-348 | with one delay the queue is also sorted at every moment of every run |
| FireOrder.SomeRunOvertakes | crates/writeonce-svc/src/state.rs:321-348 | with two different delays there is a run that fires the later deadline first |
| FireOrder.EnablingStartsNoMore | crates/writeonce-svc/src/graph.rs:129-143 | the edge that ENABLE adds brings no unit into a plan that was in none |
| Punctuality.FiredWhenDue | crates/writeonce-svc/src/state.rs:333-348 | a timer pass takes a queued restart off the queue as fired if and only if its deadline has come; that it is then started is `Commands.TimerStartsWhatIsDue` |
| Punctuality.PromptRunsArePunctual | crates/writeonce-svc/src/signal.rs:54-112 | in every run that sleeps no longer than the timeouts it computes and otherwise takes no time, each restart fires exactly at its deadline and none is overdue |
| Decisions.PruningChangesNoDecision | crates/writeonce-svc/src/state.rs:305-318 | the decision on the pruned history is the one on the whole journal: refused exactly when burst restarts lie within the interval |
| Decisions.ExitContract | crates/writeonce-svc/src/state.rs:235-325 | an exit frees its unit and changes no other; it ends Inactive or Failed as the exit and the limiter say; one restart is queued exactly when the policy asks and fewer than burst lie in the window |
| Decisions.RestartFollowsFile | crates/writeonce-svc/src/state.rs:300-325 | a wanted restart is refused when `start-limit-burst` of them lie within `start-limit-interval-sec`, ten seconds if unreadable, and otherwise queued for `restart-sec` from now, five seconds if unreadable |
| Failure.StartUnitRule | crates/writeonce-svc/src/state.rs:156-197 | also for a unit that is itself Failed: with a Failed hard dependency it becomes Failed and nothing else happens; otherwise it fails just when its own start does |
| Failure.FailurePropagation | crates/writeonce-svc/src/state.rs:148-230 | with hard edges covered by ordering, exactly the units that reach a unit failing by itself are Failed, and none with a Failed hard dependency was started |
| Failure.StartsRespectOrdering | crates/writeonce-svc/src/state.rs:417-426 | whatever happens to a unit during a start comes after all that happens to the units it is ordered after |
| Starts.StartFollowsFile | crates/writeonce-svc/src/state.rs:156-230 | a start forks, records and waits as the unit file says: a oneshot is killed only after `timeout-start-sec`, thirty seconds if unreadable, and a clean one ends as `remain-after-exit` says; a unit without a service is Active, one with a Failed hard dependency Failed, and nothing else happens |
| Starts.WaitOneshotMeans | crates/writeonce-svc/src/state.rs:87-109 | a oneshot counts as clean only if its process may have exited with 0, and as unclean only if it may have ended otherwise |
| Runs.StepKeeps | crates/writeonce-svc/src/signal.rs:54-85 | every event keeps pids, signals, SIGCHLD and restart accounts in order |
| Runs.EveryRun | crates/writeonce-svc/src/signal.rs:54-149 | over every run: signals reach only unreaped children, recorded pids are theirs, no exited child goes unnoticed, each scheduled restart is pending, fired once and not early, or dropped, and the start limit holds in every window |
| Commands.TimerStartsWhatIsDue | crates/writeonce-svc/src/state.rs:333-348 | a timer pass starts every queued unit whose deadline has come, in the order fired: a process is made, or cannot be, or something the unit requires had failed; others are left alone |
| Commands.BootAttends | crates/writeonce-svc/src/main.rs:133-160 | the boot does the same for everything the default target requires, in plan order |
| Commands.StartDoes | crates/writeonce-svc/src/state.rs:417-427 | START serves each unit of the closure that was not Active, by a process, at once, or as Failed for a failed requirement, and touches nothing else; without a plan it changes nothing |
| Commands.StopAndDisableDo | crates/writeonce-svc/src/control.rs:209-217 | STOP and DISABLE leave the whole stop closure Inactive without pid or queued restart; without a plan they change nothing |
| Commands.RestartDoes | crates/writeonce-svc/src/control.rs:177-182 | RESTART serves again what it stopped and the unit requires, and what was not Active; dependents outside stay stopped; without a start plan it only stops |
| Commands.EnableDoes | crates/writeonce-svc/src/control.rs:192-205 | ENABLE adds one soft edge and serves the unit's new closure once both replies are written; cut short it does only the part before |
| Commands.ChildSignalDoes | crates/writeonce-svc/src/signal.rs:129-149 | reading SIGCHLD leaves no exited child uncollected |
| Commands.TerminateDoes | crates/writeonce-svc/src/state.rs:429-439 | the first SIGTERM signals every recorded process once, in unit order, and cancels every restart; a second changes nothing |
| Tidiness.EveryGuardedRun | crates/writeonce-svc/src/state.rs:156-265 | over every run none of whose start commands can spawn a unit whose restart is pending: pid map and units are inverse, nothing is both running and pending, one restart pending per unit, and every unit is in a settled state |
| Tidiness.TidyStartIff | crates/writeonce-svc/src/state.rs:156-230 | starting one idle unit keeps that bookkeeping exactly when it had no restart pending or holds no process afterwards |
| Tidiness.StartIsSafeIff | crates/writeonce-svc/src/state.rs:415-427 | a start command keeps it in every environment if and only if in the kindest one it spawns no service whose restart is pending |
| Tidiness.StopPlannedTidy | crates/writeonce-svc/src/state.rs:367-411 | a stop keeps that bookkeeping |
| Unguarded.UnguardedStartBreaks | crates/writeonce-svc/src/state.rs:417-426 | a concrete run in which a START beside a pending restart leaves a unit both running and pending |
| Shutdown.OrderlyShutdown | crates/writeonce-svc/src/state.rs:429-443 | after any run, once shutdown has begun and nothing is started: the queue stays empty, nothing is spawned, and units with a process only get fewer |
| Shutdown.ExitFrees | crates/writeonce-svc/src/state.rs:243-257 | the exit of a recorded process frees exactly its unit |
| Shutdown.ShutdownSignals | crates/writeonce-svc/src/state.rs:429-439 | the first request sends exactly one SIGTERM to each recorded process, in unit order; a second request changes nothing |
| SupervisorStates.SupervisorState.WaitForOneshot | crates/writeonce-svc/src/state.rs:87-109 | the polling loop does what the state machine says |
| SupervisorStates.SupervisorState.StartUnitInternal | crates/writeonce-svc/src/state.rs:156-230 | the method performs the modelled start, of which `Starts.StartFollowsFile` says what it does |
| SupervisorStates.SupervisorState.ActivatePlan | crates/writeonce-svc/src/state.rs:148-154 | the loop starts the units of the Waiting jobs, in order, and skips other jobs |
| SupervisorStates.SupervisorState.StartByName | crates/writeonce-svc/src/state.rs:417-426 | the command starts the plan's units that are not Active, and fails without a plan |
| SupervisorStates.SupervisorState.ChildExited | crates/writeonce-svc/src/state.rs:235-275 | the handler performs the modelled exit |
| SupervisorStates.SupervisorState.MaybeScheduleRestart | crates/writeonce-svc/src/state.rs:288-325 | pruning, refusing or queueing as modelled |
| SupervisorStates.SupervisorState.FireDueRestarts | crates/writeonce-svc/src/state.rs:333-348 | the retain loop and the starts as modelled by the step of which `Commands.TimerStartsWhatIsDue` says that every due unit is started |
| SupervisorStates.SupervisorState.Timeout | crates/writeonce-svc/src/signal.rs:98-112 | the computed sleep is the modelled one |
| SupervisorStates.SupervisorState.DrainUntilGone | crates/writeonce-svc/src/state.rs:384-404 | the drain loop terminates and does what the model says |
| SupervisorStates.SupervisorState.StopByName | crates/writeonce-svc/src/state.rs:352-413 | the command performs the modelled stop, or fails and changes nothing |
| SupervisorStates.SupervisorState.BeginShutdown | crates/writeonce-svc/src/state.rs:429-439 | the method performs the modelled shutdown |
| SupervisorStates.SupervisorState.ReapChildren | crates/writeonce-svc/src/signal.rs:142-149 | the loop terminates and collects as modelled |
| SupervisorStates.SupervisorState.EnableByName | crates/writeonce-svc/src/control.rs:192-205 | the modelled ENABLE in place, of which `Commands.EnableDoes` says what it starts; the answer is ok exactly when it got that far and a plan exists |
| SupervisorStates.SupervisorState.RestartByName | crates/writeonce-svc/src/control.rs:177-182 | the modelled RESTART in place, of which `Commands.RestartDoes` says what it starts; the answer is ok exactly when both plans exist |
| SupervisorStates.SupervisorState.Turn | crates/writeonce-svc/src/signal.rs:54-85 | a turn of the loop is a run of events; it reports the end exactly when a shutdown has left every unit quiet |
| SupervisorStates.SupervisorState.BootTarget | crates/writeonce-svc/src/main.rs:133-159 | the boot activates the default target's plan, from which every run starts |
| Inhibitors.StepKeeps | crates/writeonce-logind/src/inhibitor.rs:95-203 | every step of any thread, failing ones included, keeps the protocol's invariant |
| InhibitorRuns.ProtocolSafety | crates/writeonce-logind/src/inhibitor.rs:95-203 | at every moment of every run each record is in exactly one stage unless a fault was about it and then in none, a queued registration is never slept through, and a removal happens once, after the write end closed |
| InhibitorRuns.RecordsAreAsked | crates/writeonce-logind/src/manager.rs:331-345 | every record shows, field by field, what some call asked for when that id was next, in one of the two modes |
| InhibitorRuns.EventualRemoval | crates/writeonce-logind/src/inhibitor.rs:105-203 | under a fair scheduler and a fair epoll every inhibitor whose caller closed its end and for which nothing failed is removed, whatever fails for others |
| InhibitorRuns.RemovedIff | crates/writeonce-logind/src/inhibitor.rs:105-203 | in a fair run a record is eventually removed if and only if its client eventually closes its end and neither its pipe nor its registration ever fails |
| InhibitorRuns.ClosedIsRemovedIff | crates/writeonce-logind/src/inhibitor.rs:167-203 | a closed inhibitor stays recorded forever exactly when a fault is about it |
| InhibitorRuns.FaultStrands | crates/writeonce-logind/src/manager.rs:332-352 | a failing pipe or epoll registration, the first or any later one, leaves its record in no stage |
| InhibitorRuns.StrandedForever | crates/writeonce-logind/src/inhibitor.rs:167-175 | such a record is never removed, whatever anyone does |
| InhibitorDaemons.LoginDaemon.Inhibit | crates/writeonce-logind/src/manager.rs:305-356 | the call checks the mode, records exactly what it was asked, and takes the steps record, pipe, queue, wake byte |
| InhibitorDaemons.LoginDaemon.DrainPending | crates/writeonce-logind/src/inhibitor.rs:152-178 | draining takes the queue at once and registers each entry, in order, as protocol steps |
| InhibitorDaemons.LoginDaemon.HandleEvents | crates/writeonce-logind/src/inhibitor.rs:131-148 | handling events is the protocol's sequence of wake reads and releases |
| InhibitorDaemons.LoginDaemon.ListInhibitors | crates/writeonce-logind/src/manager.rs:358-374 | one row per record, in record order |
| Enablement.EnabledDirectory.Load | crates/writeonce-svc/src/enabled.rs:43-72 | exactly the units named by readable stubs, sorted and without duplicates, whatever order the directory yields |
| Enablement.StrictlySortedIsUnique | crates/writeonce-svc/src/enabled.rs:69-71 | that list is determined by the set of units alone |
| Enablement.EnabledDirectory.Enable | crates/writeonce-svc/src/enabled.rs:76-83 | writes the unit's own stub, or fails and changes at most that stub, cutting it short; no other entry changes |
| Enablement.EnabledDirectory.Disable | crates/writeonce-svc/src/enabled.rs:87-95 | removes the unit's own stub and says whether there was one, or fails, and then it is still there |
| Enablement.LastChangeDecides | crates/writeonce-svc/src/enabled.rs:76-95 | after any successful changes exactly those units are listed whose last change enabled them or that were listed and never changed |
| Enablement.RestartClosure | crates/writeonce-svc/src/main.rs:122-131 | after a restart the target's closure is that of the unit files plus exactly one edge per enabled known unit |
| Enablement.InjectAsDeclared | crates/writeonce-svc/src/main.rs:126-131 | the boot's loop over any names gives every plan the unit files would give had each named unit declared the target |
| Enablement.DisableKeepsEdge | crates/writeonce-svc/src/control.rs:209-228 | after ENABLE and DISABLE the edge is still in the live registry although the stub is gone |
| Pid1Loop.EveryRun | crates/writeonce-pid1/src/signal.rs:66-178 | signals reach only unreaped children, SIGCHLD is pending while an exited child is uncollected, the child is known until collected |
| Pid1Loop.ChldCollects | crates/writeonce-pid1/src/signal.rs:146-178 | reading SIGCHLD leaves no exited child uncollected and forgets the placeholder if it had exited |
| Pid1Loop.TurnCollects | crates/writeonce-pid1/src/signal.rs:66-178 | after a turn in which SIGCHLD is read nobody who exited by the end of the sleep is left, and such a placeholder is forgotten |
| Pid1Loop.ReapChildrenKeeps | crates/writeonce-pid1/src/signal.rs:166-178 | a reap pass leaves no zombie and forgets the child only when it was collected |
| Pid1Loop.FinishIsSafe | crates/writeonce-pid1/src/signal.rs:101-115 | the final SIGKILL goes to an unreaped child and not before the grace has passed |
| Pid1Loop.DeadlineIsFixed | crates/writeonce-pid1/src/signal.rs:150-159 | a second request does not postpone the deadline of the first |
| Pid1Loop.TermOnce | crates/writeonce-pid1/src/signal.rs:150-159 | the first request sends the child one SIGTERM, and from then on only children are collected |
| Pid1Loop.NeverOversleeps | crates/writeonce-pid1/src/signal.rs:67-77 | the sleep ends less than a millisecond after the deadline for every grace, truncation included, and not long before it when nothing is truncated |
| Pid1Loop.EndsOnTime | crates/writeonce-pid1/src/signal.rs:66-77 | a turn that sleeps no longer than asked finds the grace elapsed less than a millisecond after the deadline |
| Pid1Loop.InitLoop.Turn | crates/writeonce-pid1/src/signal.rs:66-98 | a turn reboots exactly when the grace has elapsed and otherwise reacts to the signals read; with SIGCHLD among them every exited child is collected |
| Installers.ConfirmedFormIsSafe | crates/writeonce-installer/src/tui.rs:194-411 | for every key sequence a confirmed form has a removable device, a sane partition that fits, a valid user and keymap, and its plan exists, asks for the same and is as safe |
| Installers.RootAcceptedIff | crates/writeonce-installer/src/tui.rs:264-291 | an explicit root size is accepted exactly when it fits the disk size truncated to 32 bits, hence exactly when it fits below 4 PiB |
| Installers.CheckedPartitionFits | crates/writeonce-installer/src/tui.rs:423-447 | after the check the numbers parse again, the plan keeps both of them and the other fields, and the partitions fit the true disk size |
| Installers.ChecksAcceptIff | crates/writeonce-installer/src/tui.rs:264-411 | what each screen's check accepts, exactly |
| Installers.ErrorsAreTrue | crates/writeonce-installer/src/tui.rs:264-411 | each error names something that is really so |
| Installers.NewFormShows | crates/writeonce-installer/src/tui.rs:145-183 | a new form shows what the spec gives, and otherwise 512 MiB, the rest of the disk and the "us" layout; its numbers read back |
| Installers.TypedGoesToFocus | crates/writeonce-installer/src/tui.rs:243-403 | a character typed goes to the end of the focused field and nowhere else, number fields taking up to ten digits |
| Installers.EraseUndoesTyping | crates/writeonce-installer/src/tui.rs:243-403 | Backspace takes the last character back |
| Installers.TabMovesFocus | crates/writeonce-installer/src/tui.rs:243-403 | Tab visits the fields in turn, BackTab the other way |
| Installers.ValidFormCanBeConfirmed | crates/writeonce-installer/src/tui.rs:194-411 | a form whose contents pass the checks is confirmed by Enter on each screen |
| InstallerApps.App.HandleKey | crates/writeonce-installer/src/tui.rs:194-212 | the handlers edit the form in place exactly as modelled and keep it valid up to its screen |
| InstallerApps.App.Run | crates/writeonce-installer/src/tui.rs:52-90 | the key loop yields a plan exactly for a confirmed form; its name, real name, layout, variant and sizes are those the form shows, and it is safe for the chosen device |

## Left out

- The second copy of the edge building and of the sort in `build_stop_transaction` (crates/writeonce-svc/src/graph.rs:309-358) is the same code as in `build_transaction`; it is written once, as `ArrangeUnits`.
- Stopping.StopSignals: SIGKILLs of one escalation go out in plan order, where the code iterates a hash set; the statement does not depend on that order.
- Runs.EveryRun: the handling of several events in one epoll wake-up is covered as a run of single events; the kernel acts at forks, waits and sleeps, not between two calls of `kill`.
- SupervisorStates.SupervisorState.Turn: one turn of the loop, since the loop itself does not end before shutdown.
- Supervisor time: a sample of the clock and the code that follows it up to the next kernel entry happen at one instant.
- Unit ids are not truncated to 32 bits; multiplication in `parse_duration` wraps at 64 bits as in a release build.
- Runs.EveryRun: "unreaped" also admits orphans adopted under that pid; that a recorded pid was spawned is not stated.
- Runs.Step: `Instant + Duration` panics when a delay overflows the clock; here the deadline is just large.
- A reply that cannot be written ends STOP, START, RESTART and DISABLE where it fails, which is a run without the events that would have followed.
- Punctuality.PromptRunsArePunctual: a late wake-up of `epoll_wait` is a run that is not prompt; FiredWhenDue says what the next timer pass does.
- InhibitorRuns.RemovedIff: inhibitor ids do not wrap, the wake pipe never fills, and fair epoll means that a descriptor that stays ready while `epoll_wait` keeps returning is reported sometime.
- Inhibitors.StepKeeps: `epoll_wait` is interrupted only while nothing is ready, since it reports what is ready before it looks for signals.
- InhibitorDaemons.LoginDaemon.Inhibit: sender resolution is a parameter, and the call is shown without interleaving; interleavings are those of `Inhibitors`.
- Enablement.LastChangeDecides: unit names without quotes, backslashes, slashes, spaces or control characters, since the stub writes the name into TOML and a path unescaped.
- Installers.ConfirmedFormIsSafe: up to the password hash, which is an external call.
- Conflicts, PartOf, BindsTo propagation, Forking and Notify readiness, exec-stop, exec-reload and slices: parsed but without effect on the state machine.
- cgroup placement and removal, log capture, the wording of control replies, LIST, STATUS, JOURNAL and CGROUPS: no effect on the modelled state.
- `join_mode`, `find_session_by_pid` and session create and release in `writeonce-logind`: short folds and map updates that would add only easy members.
- Syscall failures of epoll, signalfd and read: they end the loops.
- Bootloader, partitioning tools, `customize.rs` and `cmdline.rs`, terminal drawing: wrappers and per-line folds.
