# DevMan, modelled and proved in Dafny

DevMan starts, watches and stops the services of development projects.  This
project models its core and proves what it promises about whole runs: a stop is
not undone, a port is not shared, a daemon that dies leaves nothing
inconsistent, a log can be read back, an approval covers what is executed.

`dafny verify dfyconfig.toml` checks everything.

## How the model is built

- **One service** (`Lifecycle.dfy`) is a transition system.  A step is one
  region that the supervisor executes atomically: a block under the service
  mutex with the row it persists, one other database write, or one event of the
  operating system.  Operations, late watchers, restart timers, exits, daemon
  deaths and reconciliation interleave freely.  The database and the processes
  survive the daemon, its memory does not.  `Next` is a step, `Exec` a run;
  `Runs.dfy` has the effect of whole launches and reconciliations.
- **The code of the service** (`Supervisor.dfy`) is a class whose methods change
  the fields in the order of the original.  Each method returns the run of the
  machine it has taken as ghost data: its contract is
  `Exec(old(Now()), run) == Some(Now())` together with what it leaves behind.
  The theorems about all runs (`LifecycleSafety`, `LifecycleWatched`,
  `ProcessTracking`, `StopWins`, `InstanceHistory`, `CrashConsistency`,
  `RestartBudget`) therefore hold of it.
- **Projects** (`Graph`, `StartOrder`, `Project`): the cycle finder and the
  topological expansion are classes with the captured variables of the original
  closures; starting and stopping a project record the running set after every
  service.
- **Ports** (`PortTable`, `PortManager`): the allocation table with its partial
  unique index, and claim-then-probe with rollback.  The prober is a function
  that does not change during one call.
- **Log** (`LogFiles`, `LogStore`, `LineWriter`): one append-only list, held as
  ghost state, is the reference that ring, files, counters and queries agree
  with.
- **Configuration** (`Template`, `Quoting`, `CanonicalLines`, `Fingerprint`):
  the expander against a token semantics, and the canonical text against the
  fields it covers.
- **Process trees and backoff** (`ProcessTree`, `Backoff`), and small helpers
  (`Text`, `Wrappers`).

`CrashConsistency` says for all runs which steps break consistency, and then gives a
condition on the interleaving that rules them out: *quiet* runs
(`CrashConsistency.Quiet`).  These leave out three interleavings that the code does
not exclude: a launch or stop beside a watcher that is between taking an exit and
scheduling the restart, or a launch while a handle is still there; the watcher of
the current instance taking an exit beside an operation or another such watcher; and
a start failure recorded for a service that has a handle or an operation in progress.
Stale watchers may wake at any time.  Only `AlwaysConsistent`, `QuietRunningKeepsPorts`
and `FailureRecordedExactly` are about quiet runs; everything else in this project,
including `StepBreaksExactly`, `ConsistentExactly` and `RecoveryAfterDeath`, needs no
such condition.

## Where the code does less than it says

Each of these is a theorem with its exact condition, and most come with a
concrete run or input.

- A stop is meant to win over a pending restart (`internal/supervisor/lifecycle.go:308-310`).
  It does, unless the timer has read the desired state before the stop and waits
  for the lock: `StopWins.StopPrevailsExactly`, `StopWins.StopWithArmedTimerIsReachable`.
- `sv.fail` marks a running service FAILED or BLOCKED when its dependencies are
  not up.  Its ports stay reserved behind that row, and if the daemon dies then,
  the process is out of reach and the next start spawns a second one:
  `CrashConsistency.FailureRecordedExactly`, `CrashConsistency.FailureOfRunningService`,
  `ProcessTracking.ProcessLostExactly`, `ProcessTracking.TwoLiveProcesses`.
- Ports stay active behind a row that the next daemon ignores, and outlive the daemon
  with nobody to release them, exactly after the steps that
  `CrashConsistency.StepBreaksExactly` lists.  One of them is a stop that begins before
  a watcher has released the ports of an instance that exited:
  `CrashConsistency.StopBeforeRelease`, `CrashConsistency.RecoveryAfterDeath`.
- A late tail of `watch` releases the ports of a newer instance, and nothing else
  takes the ports of a running instance: `CrashConsistency.CanLosePortsExactly`,
  `CrashConsistency.LateReleaseStripsNewInstance`.  A launch between an exit and its
  watcher that fails leaves the old ports behind a FAILED row:
  `CrashConsistency.LaunchFailsExactly`.
- A daemon that dies during a launch makes its successor rewrite the outcome of the
  previous instance, or loses the process just spawned:
  `InstanceHistory.OutcomeRewrittenExactly`, `ProcessTracking.ProcessLostExactly`.
- `SetPortState` can activate a released row: `PortTable.SetPortStateExactly`.
- `StopProject` with names stops shared dependencies of services that stay up:
  `Project.StopNamedKeepsClosedExactly`, `Project.SharedDependencyIsStopped`.  Without a
  start order, for which one undeclared dependency is enough, stopping everything can
  stop a database before its users (`internal/supervisor/api.go:199-200`):
  `Project.StopAllKeepsClosedExactly`, `Project.FallbackStopsDatabaseFirst`.
- A tail of 0 is documented as no limit (`internal/logstore/logstore.go:84-85`)
  but is capped at four rings, and filters apply after the source is chosen:
  `LogStore.TailZeroExactly`, `LogStore.TailZeroIsLimited`,
  `LogStore.FilteredTailExactly`, `LogStore.OlderErrorIsMissed`.
- `MaxLineBytes` is said to bound a record (`internal/logstore/logstore.go:50-52`);
  a line that arrives with its newline is not cut, so it can be longer, and lines
  depend on chunking: `LineWriter.LineLimitExactly`, `LineWriter.LineOverTheLimit`,
  `LineWriter.ChunkingIrrelevantExactly`.
- The template check misses an open expression after any closing brace:
  `Template.CheckedTemplateFailsExactly`, `Template.CheckMissesOpenExpression`.  It rejects
  templates that expand: escaped braces, and references that it merely discourages:
  `Template.BraceTestExactly`, `Template.RejectedTemplateExpandsExactly`,
  `Template.CheckRejectsEscapedBrace`.
- The fingerprint is said to change with anything that actually runs
  (`pkg/config/fingerprint.go:14-17`).  Among *clean* configurations (no newline in a
  value, no tab in a name, no NUL in a list element, only the known platforms) it does,
  except that an absent list of arguments or env files, an empty one and one with a
  single empty string look alike: `Fingerprint.ExecutionDeterminedExactly`.  Outside
  clean configurations it does not determine what runs, and validation does not exclude
  them: `Fingerprint.NewlineIsAmbiguous`, `Quoting.NulIsAmbiguous`.
- A self-parented process is said to make the tree walk loop forever
  (`internal/platform/usage.go:73-76`).  The walk ends on every table:
  `ProcessTree.Descendants`.
- For a cap above 2^62 nanoseconds the doubling of the restart delay can overflow, and
  so can adding the jitter to it: `Backoff.DoubleInRange`, `Backoff.LargeCapOverflows`,
  `Backoff.Delay`.

## Model

| member | source | states |
|---|---|---|
| LifecycleSafety.OneCurrentWatcher | internal/supervisor/lifecycle.go:221-244 | In every reachable state at most one watcher, however late, carries the current generation, and what it watches is the current handle. |
| LifecycleSafety.OneLiveProcess | internal/supervisor/lifecycle.go:25-142 | Two processes of one service that are both within reach are never alive together; ProcessTracking says exactly when one gets beyond reach. |
| ProcessTracking.ProcessLostExactly | internal/supervisor/reconcile.go:44-77 | For every step of every reachable state: the processes beyond reach change if and only if the daemon dies while a process is spawned and not yet committed, or while a service runs behind a row outside the supervised states. |
| ProcessTracking.NothingLostExactly | internal/supervisor/reconcile.go:44-77 | Along a whole run nothing gets beyond reach if and only if no daemon dies in such a moment. |
| ProcessTracking.OneProcessAtMost | internal/supervisor/lifecycle.go:25-142 | Along such runs a service never has two live processes. |
| ProcessTracking.TwoLiveProcesses | internal/supervisor/api.go:153-154 | A concrete run to two live processes: a start, a dependency failure recorded for the running service, the death of the daemon, another start. |
| LifecycleSafety.InstanceFinishedOnce | internal/supervisor/lifecycle.go:230-254 | No step of a watcher, of a stop or of reconciliation finishes an instance that this daemon has finished before. |
| LifecycleSafety.StopIsNeverACrash | internal/supervisor/lifecycle.go:404-438 | An instance ended by a stop is dead, is never recorded CRASHED by the daemon that stopped it, and its watcher can only end: it never reaches the restart policy. |
| LifecycleSafety.ReachableInv | internal/supervisor/lifecycle.go:25-461 | The invariant behind these claims holds in every state that a fresh installation reaches, for every interleaving of operations, exits, watchers, timers, daemon deaths and reconciliation. |
| LifecycleWatched.LiveInstanceIsWatched | internal/supervisor/lifecycle.go:221-244 | The converse of OneCurrentWatcher: with no operation in progress a running instance has exactly one watcher of the current generation, so its exit is always accounted for. |
| StopWins.CompletedStop | internal/supervisor/lifecycle.go:401-461 | Whatever came before and whatever interleaves, a completed stop leaves the desired state STOPPED in memory and in the database, given that persisting is one step. |
| StopWins.SettledRunNeverLaunches | internal/supervisor/lifecycle.go:350-359 | From a settled stop no sequence of late watchers, timers, daemon deaths and reconciliation launches the service, unless a user start names it. |
| StopWins.StopPrevailsExactly | internal/supervisor/lifecycle.go:350-359 | After a completed stop nothing but the user launches the service again if and only if no restart timer had already read the desired state and was waiting for the operation lock. |
| StopWins.ArmedTimerOverridesStop | internal/supervisor/api.go:35-44 | Such a timer launches the service after the stop and flips the desired state back to RUNNING. |
| StopWins.StopWithArmedTimerIsReachable | internal/supervisor/lifecycle.go:350-359 | A concrete run reaches such a stop: start, crash, timer fires, stop completes, launch. |
| CrashConsistency.StepBreaksExactly | internal/supervisor/lifecycle.go:25-461 | From every reachable state in which the database is consistent, any step whatever leads to an inconsistent one (ports active behind a row that the next daemon ignores) if and only if it claims a port behind such a row, or writes such a row while ports are active. |
| CrashConsistency.ConsistentExactly | internal/supervisor/lifecycle.go:25-461 | Over every run from a fresh installation, with no condition on the interleaving: the database is consistent between any two steps if and only if the run takes none of these steps. |
| CrashConsistency.AlwaysConsistent | internal/supervisor/lifecycle.go:25-142 | Quiet runs never take one, so after every step of every quiet run a persisted state that the next daemon ignores comes without active ports. |
| CrashConsistency.RecoveryAfterDeath | internal/supervisor/reconcile.go:44-67 | The daemon dies in any state and a new one reconciles: the service is adopted with its ports unchanged, or it holds none, if and only if the database was consistent. |
| CrashConsistency.FailureRecordedExactly | internal/supervisor/lifecycle.go:388-398 | After a quiet run, recording a start failure between two operations keeps consistency for a service without a handle, and for one with a handle if and only if it holds no ports. |
| CrashConsistency.FailureOfRunningService | internal/supervisor/api.go:153-154 | A concrete run in which a dependency failure recorded for a running service leaves its ports reserved behind a BLOCKED row. |
| CrashConsistency.FailureDuringLaunch | internal/supervisor/api.go:153-154 | A concrete run in which such a failure is recorded while a launch holds ports, with the same result. |
| CrashConsistency.StopBeforeRelease | internal/supervisor/lifecycle.go:401-403 | A concrete run in which a stop begins between the watcher's taking an exit and its releasing the ports: the row says CRASHED in front of active ports, and a daemon that dies then leaves them active for a service without a handle. |
| CrashConsistency.LaunchFailsExactly | internal/supervisor/lifecycle.go:30-51 | A launch between an exit and its watcher that fails early keeps consistency if and only if the exited instance left no ports. |
| CrashConsistency.LateReleaseStripsNewInstance | internal/supervisor/lifecycle.go:256-259 | A concrete run from a fresh installation in which the tail of watch releases the ports of a newer, running instance. |
| CrashConsistency.CanLosePortsExactly | internal/supervisor/lifecycle.go:256-259 | In every reachable state a running instance can lose its ports in some continuation that keeps it running if and only if it has some and a watcher has taken an exit and not yet released the ports. |
| CrashConsistency.RunningKeepsPortsExactly | internal/supervisor/lifecycle.go:291-306 | The step that does it: in every reachable state, the ports of an instance that keeps running change if and only if some watcher releases them. |
| CrashConsistency.QuietRunningKeepsPorts | internal/supervisor/lifecycle.go:256-259 | After quiet runs no step takes a port away from an instance that keeps running. |
| InstanceHistory.OutcomeRewrittenExactly | internal/supervisor/reconcile.go:190-217 | In every reachable state: a daemon that dies lets its successor change the recorded outcome of a finished instance if and only if a launch had persisted STARTING over an instance that was stopped. |
| RestartBudget.AtMostMaxAttempts | internal/supervisor/lifecycle.go:311-360 | After a user start with max_attempts > 0 and no run long enough to be stable, at most max_attempts automatic launches happen, and the loop of exits, timers and launches ends: its length is bounded. Any number of stale watchers may still have to wake, and any number of processes lost to earlier daemons may still have to exit. |
| RestartBudget.StraysAreLost | internal/supervisor/lifecycle.go:221-273 | In every reachable state the live processes outside the loop are ones that an earlier daemon has lost. |
| RestartBudget.UserStartBeginsLoop | internal/supervisor/api.go:47-59 | Every user start that completes with no earlier restart pending begins such a loop, whatever its launch looks like and whichever stale watchers wake meanwhile. |
| RestartBudget.TotalLoopStep | internal/supervisor/lifecycle.go:311-360 | Every step of the loop, stale watchers and stray processes included, decreases a measure, and a spawn uses up one of the attempts left. |
| RestartBudget.GivesUpExactly | internal/supervisor/lifecycle.go:311-348 | If launches succeed and exits keep qualifying, the service ends FAILED with desired still RUNNING after exactly max_attempts automatic launches. |
| RestartBudget.Progress | internal/supervisor/lifecycle.go:311-360 | Until it gives up the loop always has a next step, so it cannot end in any other way. |
| Runs.SuccessfulLaunch | internal/supervisor/lifecycle.go:25-142 | The complete effect of a user start that reserves exactly one port and succeeds, on memory, database and processes. |
| Runs.Vanished | internal/supervisor/reconcile.go:190-217 | The complete effect of reconciling a service whose process is gone. |
| Supervisor.Service.Start | internal/supervisor/api.go:47-59 | Starting is a run of the machine with a stated outcome: nothing on a running service; otherwise a new generation, no attempts counted, desired RUNNING, and either RUNNING on a fresh process with exactly the declared number of ports claimed, its record, and a watcher with the resolved restart policy, or the failure recorded with the claimed ports given back (conflict) or all released (late failure). |
| Supervisor.Service.StopInstance | internal/supervisor/lifecycle.go:401-461 | Stopping is a run of the machine with a stated outcome: STOPPED in memory and row, no handle, no ports, a new generation, the process of the handle ended, its record STOPPED, and nothing else changed. |
| Supervisor.Service.RestartByUser | internal/supervisor/api.go:85-104 | Stop and launch under one lock, with the outcomes of both; succeeds exactly when the launch does, whatever ran before. |
| Supervisor.Service.HandleExit | internal/supervisor/lifecycle.go:221-349 | watch as a whole is a run of the machine with a stated outcome: a stale watcher only vanishes; the current one records CRASHED or STOPPED by what was desired, releases the ports, forgets the attempts after a stable run, and then a wanted service whose policy asks for it backs off with the attempts so far, or is FAILED when these have reached a positive limit. |
| Supervisor.Service.Restart | internal/supervisor/api.go:35-44 | startTracked is a run of the machine with a stated outcome: the timer is gone and other watchers stay; a configuration failure is recorded; a running service stays as it is; otherwise the launch begins as a tracked one and the attempts counted stay counted, whether it succeeds or fails. |
| Supervisor.DeathLeavesDatabase | internal/supervisor/supervisor.go:185-221 | A daemon that dies leaves database and processes, and the next one starts from these. |
| Supervisor.Service.ReconcileRow | internal/supervisor/reconcile.go:44-217 | With a row that says RUNNING, STARTING, STOPPING or UNKNOWN: if the recorded process is alive, it is adopted with the recorded instance, attempts and desired state, the resolved policy and its ports; otherwise the service is CRASHED or STOPPED by what was desired, in row and instance record, without handle or ports. Any other row is left alone. |
| Graph.FindCycle | pkg/config/validate.go:458-507 | Returns nothing if and only if the graph of declared services without self-edges is acyclic; otherwise a closed walk of real dependencies, first equal to last, through at least two services and without another repetition. It ends. |
| Graph.CycleFinder.Visit | pkg/config/validate.go:463-497 | The depth-first visit finds a cycle or blackens the service and all it needs, and keeps the ranking of black services. |
| Graph.CycleFinder.Report | pkg/config/validate.go:472-485 | A grey dependency closes a cycle: the stack from it, and itself again. |
| Graph.ServiceNames | pkg/config/load.go:175-191 | Every service once: in the order of declaration if that order has them all, else sorted. |
| StartOrder.TopoOrder | pkg/config/validate.go:536-566 | Succeeds if and only if the configuration is acyclic and every needed name is declared; then the list has no repetition, is exactly what the names need, and has every dependency earlier. Otherwise it reports a real cycle or a needed name that is not declared. |
| StartOrder.Expander.Visit | pkg/config/validate.go:543-557 | The recursive expansion adds exactly what a name reaches, or meets an undeclared name that it reaches. |
| Project.ProjectSupervisor.StartProject | internal/supervisor/api.go:119-180 | On success after every single round, failed launches included, a running set that was closed under depends_on is closed; what runs at the end is exactly decided by dependencies and launches; reported, each once, are exactly the needed services whose dependencies are not up or whose launch failed; an error starts nothing and names a real cycle or a needed undeclared service. |
| Project.ProjectSupervisor.StartOne | internal/supervisor/api.go:139-172 | One round launches a service exactly when its dependencies are up, and reports it failed otherwise. |
| Project.ProjectSupervisor.AwaitDependencies | internal/supervisor/api.go:222-256 | Answers yes exactly when every declared dependency is running, and healthy where that is the condition. |
| Project.ProjectSupervisor.StopProject | internal/supervisor/api.go:183-218 | Stops at least what was selected, that is the named services or all of them, whether or not there is a start order, and works off the list of StopOrder from its end; fails without a change exactly for an undeclared name, and reports the first one. |
| Project.ProjectSupervisor.StopInOrder | internal/supervisor/api.go:197-213 | After k steps exactly the last k services of the list are stopped. |
| Project.ProjectSupervisor.StopOrder | internal/supervisor/api.go:188-196 | The selection and all it needs, dependencies first, if there is no cycle and nothing needed is undeclared; otherwise the selection itself, which without names are all services in their listed order. |
| Project.StopKeepsClosedExactly | internal/supervisor/api.go:197-213 | Stopping any list whatever from its end keeps the running set closed under depends_on after every step if and only if each running user of a listed service is listed too, no earlier than it. |
| Project.OrderLeavesOutsiders | internal/supervisor/api.go:197-213 | For a start order this means that no running service outside the list depends on a member. |
| Project.StopAllKeepsClosedExactly | internal/supervisor/api.go:183-218 | Without names, every step of StopProject keeps the running set closed if and only if there is a start order of all services or running users happen to be listed after what they use. |
| Project.FallbackStopsDatabaseFirst | internal/supervisor/api.go:193-196 | A concrete project without a cycle in which one undeclared dependency of a third service makes the stop take the database away from its running user. |
| Project.StopNamedKeepsClosedExactly | internal/supervisor/api.go:188-196 | With names, and a start order for them, it does so if and only if no other running service depends on what is stopped; without an order, if and only if running users happen to be named after what they use. |
| Project.SharedDependencyIsStopped | internal/supervisor/api.go:188-196 | A concrete project in which stopping one service ends with another service running without the database it needs. |
| PortTable.PortStore.ReservePort | internal/storage/ports.go:61-93 | Inserts a reserved row, or reports a conflict and changes nothing exactly when the port is active. |
| PortTable.PortStore.SetPortState | internal/storage/ports.go:96-102 | Changes one state, or nothing when the unique index rejects it. |
| PortTable.PortStore.ReleasePort | internal/storage/ports.go:105-113 | Releases one row and no other. |
| PortTable.PortStore.ReleaseServicePorts | internal/storage/ports.go:116-125 | Releases exactly the rows of one service. |
| PortTable.PortStore.ReleaseProjectPorts | internal/storage/ports.go:128-137 | Releases exactly the unreleased rows of one project. |
| PortTable.PortStore.ReleaseAllPorts | internal/storage/ports.go:141-149 | Releases every row. |
| PortTable.PortStore.ServicePorts | internal/storage/ports.go:190-209 | Lists exactly the active rows of one service. |
| PortTable.AlwaysExclusive | internal/storage/storage.go:133-137 | Over any sequence of inserts, state changes and releases two active rows never share a port. |
| PortTable.AlwaysHeldExactly | internal/storage/ports.go:61-149 | All along such a sequence active means not released, if and only if no state change in it gives a released row an active state or takes it from one that is not released. |
| PortTable.ReleaseKeepsConsistent | internal/storage/ports.go:105-149 | Every release keeps ports exclusive and active equal to not released, and takes away exactly the released rows. |
| PortTable.SetPortStateExactly | internal/storage/ports.go:96-102 | A state change that makes a row active keeps the table consistent if and only if the row was not released. |
| PortManager.Manager.TryReserve | internal/portmgr/manager.go:218-237 | Succeeds exactly for a valid port that is neither allocated nor in use; otherwise no active row is added, and the code says why. |
| PortManager.Manager.ReserveFromRange | internal/portmgr/manager.go:181-207 | The smallest valid free port of the range; PORT_EXHAUSTED exactly when the range has none, and a configuration error for an unknown range. |
| PortManager.Manager.ReserveOne | internal/portmgr/manager.go:143-179 | A fixed port is that port or a conflict; an automatic one is first fit with preference. |
| PortManager.PicksUnique | internal/portmgr/manager.go:143-207 | What a port declaration gets is determined by the ports held and available. |
| PortManager.Manager.Rollback | internal/portmgr/manager.go:116-121 | Releases what the call has reserved: the active rows are those from before. |
| PortManager.Manager.ReserveService | internal/portmgr/manager.go:107-141 | All or nothing: on success exactly one fresh active row per declaration, all ports distinct and each what its declaration gets after the earlier ones; on failure the active rows are as before. |
| PortManager.Manager.Verify | internal/portmgr/manager.go:245-264 | Marks exactly the active rows of the service by what is listening and changes no other row and no allocation. |
| PortManager.Manager.Adopt | internal/portmgr/manager.go:282-296 | Allocates a port that is in use already, or reports a conflict exactly when it is allocated. |
| LogFiles.Disk.RotateFiles | internal/logstore/logstore.go:269-288 | Every file moves up by one, the oldest backup is gone and there is no active file. |
| LogFiles.ShiftJoins | internal/logstore/logstore.go:269-288 | Read oldest first, what is left after a rotation is what was there without the oldest backup. |
| LogFiles.RotateRetains | internal/logstore/logstore.go:269-288 | Rotation leaves a contiguous suffix of all records, in order and within the size limit. |
| LogFiles.WriteIsSound | internal/logstore/logstore.go:249-265 | Appending a record that fits, or into an empty file, keeps the suffix, the numbering and the size bound. |
| LogStore.PushAppends | internal/logstore/logstore.go:241-247 | Storing at the ring position appends a record and forgets the oldest one when the ring is full, through wrap-around. |
| LogStore.ServiceLog.PushRing | internal/logstore/logstore.go:241-247 | The ring holds the last records of what it held and the new one. |
| LogStore.ServiceLog.RingSnapshot | internal/logstore/logstore.go:338-345 | Reads the ring oldest first. |
| LogStore.ServiceLog.constructor | internal/logstore/logstore.go:139-164 | Reopening a log keeps what is retained, fills the ring with its newest records and carries on counting after the last record. |
| LogStore.ServiceLog.Load | internal/logstore/logstore.go:180-205 | Opening and warming establish that files, ring, size and counter describe one list. |
| LogStore.ServiceLog.WarmRing | internal/logstore/logstore.go:197-205 | The ring holds the newest records of the files; the counter is the number of the last one. |
| LogStore.ServiceLog.Append | internal/logstore/logstore.go:208-239 | Appends the next number to log, ring and files; what is retained loses nothing unless the active file is full, and then exactly the oldest backup. A closed log stays as it is. |
| LogStore.ServiceLog.WriteRecord | internal/logstore/logstore.go:249-265 | Rotates first exactly if the record does not fit; otherwise only the active file grows. Every file is within the limit or holds a single record. |
| LogStore.ServiceLog.Rotate | internal/logstore/logstore.go:269-288 | Rotates and reopens; nothing is lost but the oldest backup. |
| LogStore.ServiceLog.CollectFiles | internal/logstore/logstore.go:408-421 | Reads files newest first until there are enough records or no more files. |
| LogStore.ServiceLog.ReadFileTail | internal/logstore/logstore.go:398-430 | The newest records of the files, in order, however they are spread over backups. |
| LogStore.ServiceLog.History | internal/logstore/logstore.go:297-327 | Every record returned has the stream asked for and is strictly newer than the time asked for; of the visible end of the log exactly such records are returned, in order, and with a positive tail the newest of them. Without a filter a positive tail N gives exactly the last min(N, max(ring, files)) records ever appended, and a tail of zero all of them exactly up to four rings. |
| LogStore.FilteredTailExactly | internal/logstore/logstore.go:318-326 | A filtered tail over the records looked at is the filtered tail of the whole log if and only if enough of them match or none of the older ones does. |
| LogStore.OlderErrorIsMissed | internal/logstore/logstore.go:297-327 | A log of two records, just opened, in which asking for the last error finds nothing. |
| LogStore.TailZeroExactly | internal/logstore/logstore.go:306-316 | Without a filter a tail of zero is answered from everything that ring and files hold if and only if the ring is not full or the files hold at most four rings. |
| LogStore.TailZeroIsLimited | internal/logstore/logstore.go:306-316 | A log of five records, just opened, that answers a tail of zero with four. |
| LogStore.ServiceLog.LastErrors | internal/logstore/logstore.go:331-336 | The newest stderr records, up to the limit or 20, of those such a query looks at. |
| LogStore.ServiceLog.Close | internal/logstore/logstore.go:376-391 | A closed log keeps its invariant and still answers queries. |
| LineWriter.BytesAreConserved | internal/logstore/logstore.go:468-490 | For every chunking the emitted lines followed by the waiting bytes are the input without newlines, and fewer bytes than the limit wait. |
| LineWriter.ChunkingIrrelevantExactly | internal/logstore/logstore.go:468-490 | The lines do not depend on the chunking if and only if every finished line is below the limit; they are then the split at newlines with the unfinished rest cut at the limit. |
| LineWriter.LineOverTheLimit | internal/logstore/logstore.go:484-487 | A line that arrives together with its newline is emitted whole, whatever its length. |
| LineWriter.LineLimitExactly | internal/logstore/logstore.go:468-490 | Whatever the chunks, no emitted line is longer than the limit if and only if no finished line of the text is. |
| LineWriter.LineWriter.Write | internal/logstore/logstore.go:468-490 | The loop consumes the whole chunk and emits what one write should, with carriage returns trimmed. |
| LineWriter.LineWriter.CutPartial | internal/logstore/logstore.go:474-483 | Cuts the waiting bytes into lines of exactly the limit and leaves a shorter remainder. |
| LineWriter.LineWriter.Flush | internal/logstore/logstore.go:494-501 | Emits the remainder exactly if there is one. |
| LineWriter.TrimRight | internal/logstore/logstore.go:509-512 | Removes all trailing carriage returns and nothing else. |
| Template.Expand | pkg/config/template.go:88-120 | One scan gives what the token semantics says, and looks references up in order, each once, up to the first that fails. |
| Template.DirectoriesExpand | pkg/config/template.go:62-67 | In every context PROJECT_DIR, SERVICE_DIR and HOME expand to these three directories. |
| Template.PortsExpand | pkg/config/template.go:47-61 | PORT, and PORT with an empty name, expand to a decimal notation of the default port, PORT with a name to one of the named port; without such a port the expansion fails. |
| Template.VariablesExpand | pkg/config/template.go:68-80 | ENV with a name expands to that variable or fails with ENV_MISSING, and without a name is rejected. |
| Template.OtherNamesFail | pkg/config/template.go:81-83 | No other name stands for anything. |
| Template.TrimsWhiteSpace | pkg/config/template.go:43-44 | Names and arguments lose the white space at both ends and nothing else. |
| Template.TemplateRefs | pkg/config/template.go:136-159 | Lists exactly the references that a successful expansion looks up, in order. |
| Template.ExpandAll | pkg/config/template.go:123-133 | Expands every element, or fails with the error of the first one that fails. |
| Template.EscapeIsUndone | pkg/config/template.go:96-101 | A text with every dollar sign doubled expands to the text, in every context. |
| Template.PrintRoundTrip | pkg/config/template.go:88-120 | Reading back a printed list of tokens gives the same tokens. |
| Template.TokensWellFormed | pkg/config/template.go:108-119 | Every text reads as tokens whose expressions end at the first closing brace, and only the last one can be open. |
| Template.ValuesAreNotRescanned | pkg/config/template.go:112-118 | Substituted values are never scanned: putting the escaped values in place of the expressions gives the same result in any other context. |
| Template.CheckTemplateSyntax | pkg/config/template.go:164-202 | Accepts exactly the templates that pass the test for a missing brace and whose references are all acceptable. |
| Template.CheckReference | pkg/config/template.go:168-200 | Decides one reference as the check demands. |
| Template.LookupFailsExactly | pkg/config/template.go:41-84 | With the declared ports allocated, a lookup fails for another reason than a missing variable if and only if the check rejects the reference and does not merely discourage it. |
| Template.CheckedTemplateFailsExactly | pkg/config/template.go:164-202 | With the declared ports allocated, a template whose references are acceptable fails for another reason than a missing variable if and only if an expression is unterminated and nothing is missing before it. A terminated one can therefore only fail with ENV_MISSING. |
| Template.CheckMissesOpenExpression | pkg/config/template.go:164-167 | A template that the check accepts and that cannot be expanded. |
| Template.BraceTestExactly | pkg/config/template.go:164-167 | A template that fails the test for a missing brace expands, in every context, if and only if it has no open expression: the test is wrong exactly about escaped ones. |
| Template.RejectedTemplateExpandsExactly | pkg/config/template.go:164-202 | With the declared ports allocated, a template that the check rejects expands if and only if it has no open expression, each reference is acceptable or merely discouraged (a directory with an argument, ENV:PORT) with its variable present, and the test for a brace fires or some reference is discouraged. |
| Template.CheckRejectsEscapedBrace | pkg/config/template.go:164-167 | A template that the check rejects and that expands. |
| Fingerprint.CanonicalForm | pkg/config/fingerprint.go:33-77 | Builds the canonical text, which depends on the contents of the maps and not on the order in which they are visited. |
| Fingerprint.TextDeterminesExactly | pkg/config/fingerprint.go:33-77 | For clean configurations two texts are equal if and only if the services and their covered fields are, up to nil, empty and single-empty-string lists. |
| Fingerprint.TextDetermines | pkg/config/fingerprint.go:33-77 | Equal texts of clean configurations have the same services and covered fields. |
| Fingerprint.EquivalentTexts | pkg/config/fingerprint.go:33-77 | Everything the text does not cover, empty entries included, leaves it unchanged; no cleanliness needed. |
| Fingerprint.ServiceMember | pkg/config/fingerprint.go:49-74 | The lines of a service say exactly what the configuration says about each covered field. |
| Fingerprint.ExecutionDeterminedExactly | pkg/config/load.go:255-283 | Among clean configurations, the text of a given one determines what every service contributes to a launch on a platform (runtime, command, arguments, directory, environment, shell, env files, compose) if and only if for each service the argument list that applies there and the list of env files are longer than empty or one empty string. |
| Fingerprint.OverlayIsOnTop | pkg/config/load.go:255-283 | An overlay replaces the command and the directory if it gives one, the arguments if it has a list, even an empty one, and single variables; everything else is the base. |
| Fingerprint.NewlineIsAmbiguous | pkg/config/fingerprint.go:79-86 | Outside clean configurations the text does not determine what is launched: a clean configuration with two variables has the text of another one, whose single variable holds a newline. |
| Fingerprint.WriteService | pkg/config/fingerprint.go:48-74 | Writes the lines of one service. |
| Fingerprint.WriteEnv | pkg/config/fingerprint.go:55-57 | Writes one line per variable in ascending order of names. |
| Fingerprint.WritePlatforms | pkg/config/fingerprint.go:62-74 | Writes the present overlays in ascending order of platforms. |
| CanonicalLines.RenderUnique | pkg/config/fingerprint.go:79-86 | A text can be read back into clean lines in one way only. |
| CanonicalLines.FieldNameUnique | pkg/config/fingerprint.go:49-73 | Different fields have different names, given the three known platforms. |
| Quoting.QuoteUnique | pkg/config/fingerprint.go:52-52 | Quoting loses nothing: different texts have different quotations. |
| Quoting.QuoteSpells | pkg/config/fingerprint.go:52-52 | A quoted string is the characters of the text in order, each as itself, as a letter escape or as two, four or eight hexadecimal digits, between two quotes. |
| Quoting.JoinSameExactly | pkg/config/fingerprint.go:52-54 | Lists without NUL join to the same text if and only if they are the same up to the list with one empty string. |
| Quoting.NulIsAmbiguous | pkg/config/fingerprint.go:52-54 | With a NUL inside an element two different lists join to the same text. |
| Text.SortedKeys | pkg/config/validate.go:568-575 | The keys in ascending order; the result depends on the keys alone. |
| ProcessTree.Descendants | internal/platform/usage.go:121-136 | The root first, then every process reachable from it exactly once; ends on cyclic tables. |
| ProcessTree.ChildrenTable | internal/platform/usage.go:71-80 | The table of children says exactly who the parents are, without processes that are their own parent. |
| ProcessTree.SampleTrees | internal/platform/usage.go:62-113 | Every root gets an answer: the number of measured processes of its tree, the sum of their processor times and the sum of their memory, whatever order the tree was walked in. |
| ProcessTree.TreesDisjointExactly | internal/platform/usage.go:121-136 | Two trees have no process in common if and only if neither root is in the other's tree. |
| ProcessTree.NoProcessCountedTwice | internal/platform/usage.go:62-113 | With no root in another's tree, the services together never cost more than the machine. |
| ProcessTree.TotalIgnoresOrder | internal/platform/usage.go:98-111 | The total of a tree does not depend on the order of its processes. |
| Backoff.DoubleInRange | internal/supervisor/lifecycle.go:374-377 | The 64-bit doubling loop is exact if and only if the number it aims for can be represented. |
| Backoff.CappedDoubling | internal/supervisor/lifecycle.go:374-380 | Capped, the delay is min(base * 2^attempt, cap). |
| Backoff.LargeCapOverflows | internal/supervisor/lifecycle.go:374-377 | With a larger cap the doubling can leave the 64-bit range. |
| Backoff.DelayIsMonotone | internal/supervisor/lifecycle.go:374-380 | The delay before jitter does not shrink from one attempt to the next. |
| Backoff.Delay | internal/supervisor/lifecycle.go:365-384 | With the defaults of one and thirty seconds filled in and a cap of at most 2^62, the result lies between the capped delay and it plus one fifth. For any cap and a doubling that stays in range, it is the capped delay plus jitter if and only if that sum fits into 64 bits. |

## Left out

- OS process control, signals, Docker, HTTP, the CLI, the desktop shell and the pages: a process is a number that is alive or not, and stopping it ends it.
- SQLite: table and rows are values that survive the daemon; writes succeed, and a violated unique index is the conflict result.
- PortTable.PortStore.ServicePorts: lists rows in the order of their identifiers, not of their port names.
- YAML, JSON and the file system below the log files: values arrive parsed, a record's encoded length is a parameter, and reads and renames succeed.
- SHA-256: the fingerprint stops at the canonical text.
- Time, randomness and timers: a timer may fire at any moment, stability of a run and jitter are parameters.
- StopWins.CompletedStop: depends on `persist` being one step. In the code the record is read under the mutex and written after it (`internal/supervisor/supervisor.go:283-312`), so a late watcher that has read the row before a stop can write it after the stop; the desired state in memory is not affected. All results about the row share this assumption.
- The cached ports, health monitor, events, usage and log text of a service are not part of its state.
- Project.ProjectSupervisor.AwaitDependencies: a condition belongs to a pair of services, so a dependency listed twice with different conditions is not modelled, and waiting for health is one answer.
- Process identity: a recorded process number is found by the next daemon exactly if the process is alive; numbers are not reused.
- PortManager.Manager.Verify: is one step; a release between its reading and its writing is the case of `PortTable.SetPortStateExactly`.
- External services: their ports are adopted without rollback, so the port theorems are about host and compose services.
- `Reconcile` is modelled row by row; its loop over rows, the lookup of the configuration and its report are not.
- A declared order of services has no repetition (`Distinct(c.order)`), as keys of a YAML mapping; without that a cycle that is reported is still one.
- Live subscribers of a log, and a daemon that dies inside one `Append`.
- Log lines over the scanner's 1 MiB limit and text that JSON does not preserve.
- The library sorts are modelled by insertion, which gives the same lists.
- Text is a sequence of Unicode characters, in the line writer of bytes; invalid UTF-8 in templates and names is not modelled.  For quoting, the tables of printable characters beyond Latin-1 are a parameter.
- Messages of errors: results carry the error code.
- Sums of memory and processor time do not overflow.
- Health monitor, event bus, project summaries, usage ratios and environment layering would add only easy members.
