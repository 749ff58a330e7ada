# Verification of the desktop shell

A Dafny 4.11 model of the parts of the desktop shell (`desktop/`) whose behaviour depends on interleaving, on calendar
arithmetic, or on what happens when a step fails, with proofs about every run, every input or every crash point.
`dafny verify dfyconfig.toml` checks all of it.

How it is laid out, one file to a module:

- **Controllers and locks.** `ControllerSwap` is the build-and-swap protocol of tab controllers, `LockOrder` the lock
  hierarchy, `RuntimeMutation` one plugin or MCP change as classes, `MutationSystem` the same change interleaved with every
  other thread.
- **Shared plugin hosts.** `SharedHosts` is the reference-counted table and the closing passes of a deletion as classes,
  `HostSystem` the references under every interleaving of builds, swaps, removals, detaching and attaching.
- **Deferred refreshes.** `DeferredRebuild` is the lock-protected pool and its retry loop, `SettingsRefresh` the way from a
  saved setting to the runtime that has to catch up with it.
- **Heartbeat.** `Calendar` and `HeartbeatSchedule` compute scheduled instants, `HeartbeatTicks` runs a task over any series
  of ticks, `HeartbeatEngine` is the engine: one run, its pending topic, the merge of run results.
- **Views.** `HistoryPages` and `HistoryRendering` (paged history), `PromptTape` (lazy prompt history), `CheckpointPreview`
  (bounded rewind preview).
- **Files and bytes.** `SessionArtifacts` and `SessionTrash`, `ExportTransaction` alone and
  `ExportInterference` among other processes, `Download`, `Utf8Trim`. `Options` holds
  the two shared result types.

Objects whose fields the shell updates under a lock or in place are classes; their methods are tied to functions of the old
state, and the properties are proved of those functions. Protocols of several threads are transition systems: a label is one
critical section or one action outside the locks, `Next` is the state after it, and a run is any sequence of enabled labels.
In `HostSystem`, `MutationSystem`, `SettingsRefresh` and `ControllerSwap` the bookkeeping fields (who answers for a
reference, who set a flag, which configuration a build read, how often a controller was closed) do not influence what is
enabled for the program.

## Where the code does not keep what it promises

Each of these is a lemma about the code as it is, next to a lemma that says exactly when the promise does hold.

- A switch (`SetModelForTab`, `SetEffortForTab`, `SetTokenModeForTab`) that began while the tab was empty overwrites the
  controller a startup build publishes in between; the overwritten one is never closed. `runtimeRebuildMu` is documented
  (desktop/app.go:146-151) to prevent lost controllers, but startup builds do not take it. Restarting a superseded startup
  build does the same to a controller that a switch has published meanwhile.
- A plugin or MCP change does not reserve everything. Builds without a generation take no gate: those a provider removal
  starts on the tabs it empties (desktop/settings_app.go:2408-2437, 2543-2556), and the workspace repair reached from
  steering (desktop/app.go:1097-1110) and from dropped folders (desktop/app.go:8887-8891). One that is in flight when the
  writer takes its snapshot publishes a controller nobody claimed.
- Shared-host references: a build publishes the tab's key before it takes its reference (desktop/tabs.go:2994-3004). Deleting
  the session in between gives the reference back for the key, and the superseded build gives it back again
  (desktop/tabs.go:2705-2713), although its comment says that only what the build acquired is released. A switch that
  supersedes the first build of a tab runs on a host the build then closes. Resuming another session in a tab closes the idle
  controller without giving back its reference (desktop/app.go:3399-3403) and takes a second one.
- A warning about a refresh that could not be done is bound to the tab that is active afterwards, not to the one whose
  refresh failed (desktop/settings_app.go:1188-1194, against its comment); and the retry loop works on a copy of the pending
  entries, so a startup entry that has been settled since drops a newer settings entry of the same tab. A build without a
  generation publishes the configuration it read over a refresh that succeeded meanwhile, and if it is refused, its startup
  entry takes the place of a settings entry.
- A monthly task whose day number the previous month lacks asks for "a month ago", lands in the current month and is not due.
  Weeks are counted in a duration that saturates after 15250 weeks.
- A history page of a transcript without a visible user turn is empty; planner turns of one key shown on two pages start over
  on each page.
- A session marked for cleanup counts as discardable, so trashing it while an earlier entry exists drops the live transcript,
  and if that is interrupted, what is left goes into the earlier entry. Only marked sessions are reconciled: any other trash
  that is interrupted stays as it stopped, and one that had chosen a directory of its own is then neither listed nor
  restorable.
- An export removes its temporary files by name, so a file that another process has put in such a place is removed with them.
- A download succeeds on a partial answer that ends early, which RFC 9110 section 15.3.7 allows a server to send, and cannot
  succeed by a range once the transfer broke after the last byte.

## Model

| member | source | states |
|---|---|---|
| `ControllerSwap.SafeRun` | desktop/app.go:7518-7658 | over every interleaving of switches, startup builds, supersedings and removals no controller is closed twice, none is published on two live tabs, and nothing published or owned is closed |
| `ControllerSwap.LeaksIffClobbers` | desktop/app.go:7632-7658 | along a run every controller ever built stays published, owned by a thread or closed, in every state, if and only if no publication overwrites a controller its publisher had not read |
| `ControllerSwap.ClobberLoses` | desktop/app.go:7647-7657 | the step that overwrites an unread controller loses it: it is published nowhere, owned by nobody and open |
| `ControllerSwap.SwitchClobberForgets` | desktop/app.go:7690-7812 | a switch that overwrites an unread controller leaves nothing at all that refers to it |
| `ControllerSwap.ForgottenForever` | desktop/app.go:7822-7940 | such a controller stays open in every continuation |
| `ControllerSwap.OrderlyNeverClobbers` | desktop/tabs.go:3183-3197 | when builds start only on empty tabs nobody is rebuilding, and switches only on tabs with a controller or without a current build, a startup build that still holds its generation finds no controller to overwrite and a switch replaces exactly what it read |
| `ControllerSwap.OrderlyStep` | desktop/tabs.go:2756-2797 | every step of that discipline keeps it possible |
| `ControllerSwap.CarefulNeverLeaks` | desktop/app.go:2672-2713 | over every run under the discipline each controller is always published on exactly one live tab, owned by exactly one thread, or closed exactly once |
| `ControllerSwap.SwitchDuringStartupLeaks` | desktop/tabs.go:2661-2669 | without it: a switch begun on an empty tab beside a startup build about to publish leaks the published controller |
| `ControllerSwap.SwitchDuringStartupReachable` | desktop/tabs.go:2756-2797 | that situation is reached from the empty application in six steps |
| `ControllerSwap.RestartAfterSwitchForgets` | desktop/plugin_packages_app.go:553-560 | a run from the empty application through a superseded startup build, a switch and the restart, after which nothing refers to the switch's controller |
| `ControllerSwap.MutexRun` | desktop/app.go:146-151 | over every run a thread that switches holds the rebuild mutex, and whoever holds it is at work and can go on; so every way out, a failed build included, gives it back |
| `ControllerSwap.WorkerAdvances` | desktop/app.go:7518-7658 | each step of a thread at work brings it closer to being idle without the mutex; a failed build publishes and closes nothing, a refused one is left to be closed |
| `ControllerSwap.WorksFiveSteps` | desktop/app.go:7518-7658 | over any run a thread that stays at work takes at most five steps, however the others interleave |
| `ControllerSwap.StaleNeverPublishes` | desktop/tabs.go:3183-3197 | once overtaken, a startup build publishes in no continuation and has to close what it made |
| `LockOrder.NestedIsOrdered` | desktop/app.go:139-163 | properly nested sections in rank order take each lock above all they hold and end holding nothing |
| `LockOrder.PathsNested` | desktop/app.go:139-163 | every modelled path nests its locks in the one rank order |
| `LockOrder.RebuildPathsNested` | desktop/app.go:1832-1842 | switch, clear and retry paths: rebuild mutex before removal mutex before the app lock |
| `LockOrder.GatedPathsNested` | desktop/plugin_packages_app.go:550-560 | submit, fork and plugin paths: plugin gate, build gate, rebuild mutex |
| `LockOrder.RemovalPathsNested` | desktop/tabs.go:1904-1935 | deletion, restore, tab closing, workspace removal, the single surface and startup admission |
| `LockOrder.UngatedPathsNested` | desktop/app.go:1097-1116 | steering, resuming another session and provider removal, which take no gate |
| `LockOrder.OrderedRun` | desktop/app.go:943-968 | order and mutual exclusion hold in every state of every run |
| `LockOrder.NeverStuck` | desktop/app.go:139-163 | while any ordered thread is unfinished, some thread can step, waiting writers holding back new readers |
| `LockOrder.NoDeadlock` | desktop/plugin_packages_app.go:550-586 | any number of threads on the modelled paths never deadlock, never break exclusion, and hold nothing once all are finished |
| `LockOrder.RecursiveReadDeadlocks` | desktop/tabs.go:2757-2763 | taking the plugin gate again for reading while a writer waits does deadlock, which is why builds have a gate of their own |
| `RuntimeMutation.Controller.BeginRuntimeMutation` | internal/control/controller.go:1466-1500 | succeeds exactly when no turn runs, nothing waits and no rotation has begun; a refused claim leaves the flag as it was |
| `RuntimeMutation.BeginLiveControllerRuntimeMutation` | desktop/plugin_packages_app.go:588-613 | succeeds exactly when the targets are distinct and all reservable; on failure every claim it made is gone |
| `RuntimeMutation.ReleaseAll` | desktop/plugin_packages_app.go:590-595 | every guard is free afterwards |
| `RuntimeMutation.Reservation.Release` | desktop/app.go:6605-6613 | acts once: a second call changes nothing, even if the controllers have been claimed again |
| `RuntimeMutation.UnderReservation` | desktop/plugin_packages_app.go:570-586 | work under the reservation leaves every flag as it was |
| `RuntimeMutation.Desktop.SnapshotTargets` | desktop/plugin_packages_app.go:671-688 | exactly the controllers of visible and detached sessions |
| `RuntimeMutation.Desktop.Supersede` | desktop/plugin_packages_app.go:645-659 | bumps exactly the tabs with a build to cancel and returns exactly the empty ones among them, each once |
| `RuntimeMutation.Desktop.Restart` | desktop/plugin_packages_app.go:661-665 | claims a new generation for each listed tab that is still there |
| `RuntimeMutation.Desktop.MutateLive` | desktop/plugin_packages_app.go:561-586 | outcome, flags and tab generations of one mutation, for a refused, failed and finished one |
| `RuntimeMutation.Desktop.ApplyPluginOperation` | desktop/plugin_packages_app.go:550-586 | on every exit the gates are free, all flags are as before, and every superseded empty tab is building again under a later generation |
| `MutationSystem.WorkingReservesIff` | desktop/app.go:6576-6599 | however other threads interleave, while the mutation works a live controller is claimed by it, idle and unable to start a turn, if and only if it was not published by an ungated build since the snapshot |
| `MutationSystem.WorkingIsExclusiveIff` | desktop/plugin_packages_app.go:588-613 | the work is exclusive exactly when no such controller is still live |
| `MutationSystem.EnclosedIffTimely` | desktop/plugin_packages_app.go:671-688 | over whole runs mutations enclose all live controllers in every state if and only if no ungated build publishes on a live tab between a snapshot and the end of the work |
| `MutationSystem.GatekeptIsExclusive` | desktop/plugin_packages_app.go:640-659 | if no ungated build is in flight when the writer supersedes and none starts while it is past that, every mutation is exclusive |
| `MutationSystem.UngatedBuildEscapes` | desktop/settings_app.go:2408-2437 | a run from the empty application in which the build of a provider removal publishes during the work and a turn can start on its controller |
| `MutationSystem.FinishedLeavesNothing` | desktop/plugin_packages_app.go:553-560 | once it is over nothing is claimed, and every empty tab whose build it took away is restarted or owed its restart |
| `MutationSystem.SupersededNeverPublishes` | desktop/plugin_packages_app.go:640-644 | a build admitted before the writer never publishes once superseded |
| `MutationSystem.SoundRun` | desktop/plugin_packages_app.go:588-613 | the invariant behind these, kept by every step of the mutator and of everyone else |
| `MutationSystem.MutationAdvances` | desktop/plugin_packages_app.go:588-613 | after its snapshot each step of the mutation, refusals included, brings it closer to leaving |
| `MutationSystem.TurnsEnd` | internal/control/controller.go:624-660 | a turn makes its controller active while it runs and leaves nothing behind |
| `MutationSystem.WaitsEnd` | internal/control/controller.go:1450-1464 | so does a pending prompt or job |
| `MutationSystem.RotationsEnd` | internal/control/controller.go:1412-1435 | a rotation keeps turns and other rotations out until it ends, and leaves nothing behind |
| `MutationSystem.AdmissionOvertakes` | desktop/tabs.go:2756-2797 | an admitted build is current and no earlier build of the tab is |
| `MutationSystem.CurrentPublishes` | desktop/tabs.go:3183-3197 | a build publishes its controller if it is current and changes no tab if not |
| `MutationSystem.SwapOvertakes` | desktop/app.go:7632-7658 | a switch puts its controller on the tab and overtakes the build in flight |
| `MutationSystem.SessionsMove` | desktop/tabs.go:525-572 | removing takes exactly the tab away, detaching keeps every controller alive, attaching puts the detached one on the tab |
| `SharedHosts.Hosts.Acquire` | desktop/shared_host.go:25-44 | one reference more for the root, no other changed |
| `SharedHosts.Hosts.Release` | desktop/shared_host.go:115-135 | one reference less, nothing for an unknown root; the host is closed exactly on the last one |
| `SharedHosts.ReleaseTab` | desktop/shared_host.go:137-164 | the key is taken and its reference given back, once |
| `SharedHosts.CloseOne` | desktop/app.go:2927-2952 | one item: its key goes back, its controller is closed unless an earlier pass closed it, and what is ahead of every root stays the same |
| `SharedHosts.ClosePass` | desktop/app.go:2899-2925 | a pass, matching or full, with the set of controllers closed before |
| `SharedHosts.CloseDeleted` | desktop/app.go:2610-2637 | on every exit each removed controller is closed exactly once, each key is given back exactly once, and counts and host closings are what that calls for |
| `SharedHosts.OutcomeMeans` | desktop/app.go:2899-2952 | while every key stands for a counted reference: one reference less per removed tab with the key, and the host closed if and only if those were the last |
| `HostSystem.StepExact` | desktop/tabs.go:2977-3038 | from a state in which counts equal holders, every reference can be returned and every running controller has a host, a step leads to such a state if and only if its guard holds |
| `HostSystem.SoundIffCareful` | desktop/tabs.go:2977-3038 | over whole runs |
| `HostSystem.OrderlyIffCareful` | desktop/tabs.go:2977-3038 | while every running tab owns a reference and no other does, the guard is the same in terms of what the program sees: who has a controller, which key the tab carries, whether the build is current |
| `HostSystem.SoundIffOrderly` | desktop/tabs.go:2664-2694 | over every run from the empty application in which no controller is closed without its key: all counts are right all along if and only if every step met that visible guard |
| `HostSystem.SoundHosts` | desktop/shared_host.go:115-135 | then a host is open exactly while it has a holder, a running controller finds its host open, and a release closes it exactly when it is the last holder |
| `HostSystem.TakeKeyExact` | desktop/shared_host.go:153-164 | when taking a tab's key keeps the count, by a thread with and without a reference of its own |
| `HostSystem.FailExact` | desktop/tabs.go:3021-3038 | a failing build may give back the tab's key only if it is its own and no runtime answers for it |
| `HostSystem.FinishExact` | desktop/tabs.go:3183-3197 | a build may publish only on a tab without a reference whose key is its own |
| `HostSystem.DetachKeeps` | desktop/tabs.go:525-572 | detaching moves a reference to the detached copy |
| `HostSystem.AttachExact` | desktop/tabs.go:577-660 | attaching is right exactly when the target tab owns no reference |
| `HostSystem.DeletionDuringBuildReleasesTwice` | desktop/tabs.go:2705-2713 | deleting a session whose tab is being built gives one reference back twice and closes a host another tab uses |
| `HostSystem.DeletionClosesHostInUse` | desktop/app.go:2899-2952 | the application reaches such a state: a host is closed while a tab runs on it |
| `HostSystem.SwitchDuringBuildLosesHost` | desktop/app.go:7647-7657 | a switch installed during the first build runs on a host that the superseded build then closes |
| `HostSystem.SwitchClosesOwnHost` | desktop/app.go:7647-7657 | reached from the empty application |
| `HostSystem.RebindKeepsReference` | desktop/app.go:3399-3420 | resuming another session keeps a reference nobody answers for |
| `HostSystem.RebindReachesSurplus` | desktop/app.go:3399-3420 | reached from the empty application: a count above the number of holders |
| `HostSystem.RebindRebuilds` | desktop/app.go:3399-3420 | the steps of that rebuild up to its second reference |
| `HostSystem.BuildAdvances` | desktop/tabs.go:2977-3038 | each step of a build brings it closer to its end; one that yields or is superseded goes on to release what it acquired |
| `HostSystem.SupersedesBuild` | desktop/tabs.go:2705-2713 | a superseded startup build puts no key on the tab and no runtime of its own |
| `DeferredRebuild.Pool.StartLoopLocked` | desktop/deferred_rebuild.go:46-58 | starts a loop exactly when armed, idle, not stopped and with work |
| `DeferredRebuild.Pool.EnableRetry` | desktop/deferred_rebuild.go:37-44 | arms the retry, starts the loop if anything waits, and loses nothing that does |
| `DeferredRebuild.Pool.ScheduleRebuild` | desktop/deferred_rebuild.go:60-79 | records the latest label of a tab unless stopped, leaves other tabs alone, and has a loop running if armed |
| `DeferredRebuild.Pool.ClearRebuild` | desktop/deferred_rebuild.go:89-94 | removes one entry |
| `DeferredRebuild.Pool.TickPass` | desktop/deferred_rebuild.go:138-164 | done exactly when stopped or nothing is pending; otherwise a copy of the entries |
| `DeferredRebuild.Pool.Stop` | desktop/deferred_rebuild.go:104-117 | closes the channel on the first call only |
| `DeferredRebuild.Pool.LoopNotices` | desktop/deferred_rebuild.go:119-131 | the loop leaves when it sees the closed channel |
| `DeferredRebuild.SoundRun` | desktop/deferred_rebuild.go:46-58 | over every run: armed, not stopped and pending implies running; a loop is alive exactly while running is set; the channel is closed at most once |
| `DeferredRebuild.StoppedForGood` | desktop/deferred_rebuild.go:104-117 | after the stop no loop starts and nothing is added, in every continuation |
| `DeferredRebuild.EntryStays` | desktop/deferred_rebuild.go:60-79 | an entry stays, with its latest label, until something clears it |
| `DeferredRebuild.PendingIsRetried` | desktop/deferred_rebuild.go:119-164 | in every reachable state waiting work is seen by the next pass of the one loop there is |
| `DeferredRebuild.ScheduledIsRetried` | desktop/deferred_rebuild.go:60-79 | from any reachable armed state, what is scheduled for a tab is what the next pass finds for it, until it is cleared, scheduled again or the pool stopped |
| `DeferredRebuild.ClearedStaysOut` | desktop/deferred_rebuild.go:89-94 | a cleared tab is out and stays out until it is scheduled again |
| `SettingsRefresh.StepExact` | desktop/deferred_rebuild.go:175-253 | from a state in which no promised refresh is lost, a step loses one if and only if its guard fails |
| `SettingsRefresh.SoundIffCareful` | desktop/settings_app.go:1103-1131 | over whole runs: no saved setting is lost if and only if every step met its guard |
| `SettingsRefresh.OrderlyNeverLoses` | desktop/settings_app.go:1177-1196 | it is never lost when the active tab does not change between failure and schedule, a startup entry is dropped only while it is the tab's entry, an ungated build publishes only what nothing was saved after, and a settings entry gives way only to a current startup build of a tab without a controller; nothing is asked of startup builds that publish |
| `SettingsRefresh.DisciplinedStep` | desktop/settings_app.go:1515-1652 | attempt, rebuild and clear under the rebuild mutex: a clear always finds a runtime that has caught up |
| `SettingsRefresh.StaleFrom` | desktop/settings_app.go:1629-1650 | a tab falls behind its promise only when an older build publishes or a refresh is refused |
| `SettingsRefresh.ThreatensFrom` | desktop/tabs.go:2664-2694 | a startup build comes to threaten a promise only when a refresh is refused: installing a refresh supersedes it |
| `SettingsRefresh.MisroutedScheduleLoses` | desktop/settings_app.go:1188-1194 | if the active tab changed in between, the retry is filed under the wrong tab and the promise is lost |
| `SettingsRefresh.MisroutedScheduleReached` | desktop/settings_app.go:1188-1194 | reached from the initial state |
| `SettingsRefresh.UngatedBuildLoses` | desktop/settings_app.go:2408-2437 | a reachable run in which the build of a provider removal publishes an older configuration over a refresh that had succeeded |
| `SettingsRefresh.RefusedBuildLoses` | desktop/tabs.go:3018-3038 | a reachable run in which the startup entry of a refused ungated build takes the place of a settings entry and is then dropped |
| `SettingsRefresh.StaleCopyLoses` | desktop/deferred_rebuild.go:154-163 | a reachable run in which a retry pass's old copy of a startup entry drops a newer settings entry |
| `SettingsRefresh.RetargetMoves` | desktop/deferred_rebuild.go:175-253 | a retry whose tab is no longer active refreshes the tab that is and drops no entry |
| `Calendar.YearStartClosedForm` | desktop/heartbeat.go:790-792 | summed month lengths agree with the leap-year formula for every year |
| `Calendar.DateOfCivil` | desktop/heartbeat.go:790-802 | reading a day's date and rebuilding the day gives it back |
| `Calendar.CivilOfDate` | desktop/heartbeat.go:790-802 | building a real date and reading it back gives the date |
| `Calendar.MonthUnique` | desktop/heartbeat.go:794-802 | a day lies in exactly one month |
| `Calendar.DaysInMonthIsLength` | desktop/heartbeat.go:804-806 | day zero of the next month is the month's length |
| `HeartbeatSchedule.PreviousWeekly` | desktop/heartbeat.go:683-704 | both loops return the nearest matching day of the window |
| `HeartbeatSchedule.DailyIsLatest` | desktop/heartbeat.go:657-681 | a daily rule returns the latest scheduled instant not after now |
| `HeartbeatSchedule.WeeklyFoundIsLatest` | desktop/heartbeat.go:683-704 | what a weekly or biweekly rule finds is the latest scheduled instant not after now |
| `HeartbeatSchedule.WeeklyFoundWhen` | desktop/heartbeat.go:683-704 | a weekly rule finds one exactly when it has a weekday other than today, or today's time has come |
| `HeartbeatSchedule.BiweeklyFoundWhen` | desktop/heartbeat.go:683-704 | when a biweekly rule finds one within its two weeks, exactly |
| `HeartbeatSchedule.PhaseIsParity` | desktop/heartbeat.go:808-819 | the phase test is true week parity, saturating at 15250 weeks |
| `HeartbeatSchedule.MonthlyIsLatestIff` | desktop/heartbeat.go:706-713 | a monthly rule returns the latest scheduled instant exactly when this month's has come or last month has today's day number; otherwise one still to come |
| `HeartbeatSchedule.MonthlySpillMisses` | desktop/heartbeat.go:706-713 | otherwise last month's instant is the latest, and it is missed |
| `HeartbeatSchedule.YearlyIsLatest` | desktop/heartbeat.go:715-722 | a yearly rule always returns the latest scheduled instant, 29 February included |
| `HeartbeatSchedule.SearchableIsFound` | desktop/heartbeat.go:657-681 | weekday rules as a whole: found exactly when the window can hold one, and then the latest |
| `HeartbeatSchedule.DueDecision` | desktop/heartbeat.go:516-554 | for every rule, task and moment: due exactly when the latest instant is neither older than the task nor served, but for the spilled month, and for an empty window, where a passed period and the time window decide |
| `HeartbeatSchedule.IntervalDecision` | desktop/heartbeat.go:526-554 | a task without a rule is due exactly when a whole period has passed since its last run, or since its creation if it never ran, inside its window; one with neither time whenever its window allows |
| `HeartbeatSchedule.WindowTurnedRound` | desktop/heartbeat.go:559-591 | of a window and the same turned round exactly one lets a task run at each moment; one-sided windows are the two halves of the day; a window within the day is where they overlap |
| `HeartbeatSchedule.BiweeklyWeeks` | desktop/heartbeat.go:683-704 | a biweekly task runs in every other week counted from the week it was created in, or from its last run |
| `HeartbeatSchedule.SpillExample` | desktop/heartbeat.go:706-713 | a task for the 31st is not due on 31 March 2024 although 29 February is owed |
| `HeartbeatTicks.ServedOnce` | desktop/heartbeat.go:190-213 | over any series of ticks, triggers and rule edits the instants served are strictly increasing |
| `HeartbeatTicks.RunsPeriodApart` | desktop/heartbeat.go:526-545 | over any series of ticks, triggers and edits: when a tick runs a task without a rule, a whole period has passed since the stamp of every earlier recorded run |
| `HeartbeatTicks.StampNotBefore` | desktop/heartbeat.go:516-528 | a time stamp cut to milliseconds is not before the calendar instant it served |
| `HeartbeatEngine.Engine.ExecuteTask` | desktop/heartbeat.go:241-387 | one run in all its exits: the prompt goes to the task's own, waiting or newly made conversation if and only if that opens, is ready, idle and accepts; a missing or busy controller or a refused prompt leaves the last run as it was; only an idle tab has its approval mode set, and to the task's own; other entries untouched; the call to itself ends |
| `HeartbeatEngine.RunMeans` | desktop/heartbeat.go:264-386 | the same of every answer the run may get: which topic is made, what is sent, the stamp, the creation time, the pending entry and the approval mode |
| `HeartbeatEngine.SendsWhenIdle` | desktop/heartbeat.go:316-330 | a prompt goes only to a conversation just seen idle, at most one per run, and is time-stamped |
| `HeartbeatEngine.NeverOverlaps` | desktop/heartbeat.go:252-276 | over any series of runs nothing is made or sent after a prompt until a run has seen that conversation idle |
| `HeartbeatEngine.WaitsForIdle` | desktop/heartbeat.go:322-330 | the same for the runs right after a prompt |
| `HeartbeatEngine.UnusedTopicIsKept` | desktop/heartbeat.go:264-293 | a topic made but not used is the one the next prompt goes to |
| `HeartbeatEngine.RunKeepsDefinition` | desktop/heartbeat.go:332-342 | a run leaves the task's definition alone |
| `HeartbeatEngine.Engine.PrunePending` | desktop/heartbeat.go:421-436 | keeps exactly the entries of tasks that start fresh conversations |
| `HeartbeatEngine.Engine.MergeRunUpdates` | desktop/heartbeat.go:459-494 | the list on disk, or in memory when unreadable, with the run results; nothing at all without results |
| `HeartbeatEngine.MergeList` | desktop/heartbeat.go:476-489 | the loop over the tasks |
| `HeartbeatEngine.MergeKeepsEdits` | desktop/heartbeat.go:463-489 | definitions, order and membership are those on disk; run state only moves forward to what was recorded |
| `HeartbeatEngine.MergeTwice` | desktop/heartbeat.go:476-489 | merging the same results again changes nothing |
| `HistoryPages.TurnRange` | desktop/app.go:4668-4686 | the loop selects exactly the messages of the turns asked for |
| `HistoryPages.RangeIsSlice` | desktop/app.go:4668-4686 | a range of turns is a contiguous slice of the transcript |
| `HistoryPages.WalkJoins` | desktop/app.go:4381-4408 | walking back by start turn collects exactly the messages before the turn it began at |
| `HistoryPages.WholeWalk` | desktop/app.go:4616-4654 | the whole walk ends, gives the whole transcript, and takes no more pages than needed |
| `HistoryPages.NoUserTurnShowsNothing` | desktop/app.go:4637-4640 | a transcript without a visible user turn shows nothing |
| `HistoryPages.PageHoldsTurns` | desktop/app.go:4637-4654 | a page holds as many user messages as its bounds say, at least one and no more than asked for, exactly as many when older ones remain, and then begins with one |
| `HistoryPages.CutIsUser` | desktop/app.go:4668-4686 | a turn begins at a user message with as many before it as its number |
| `HistoryRendering.PlannerQueues` | desktop/app.go:4688-4697 | each key's planner turns in order, blank ones left out |
| `HistoryRendering.Render` | desktop/app.go:4536-4614 | the output is each message's own part in order, each followed by its planner turn: one bubble with its role, content, reasoning, citations and calls; the notice of a steered one; nothing of a hidden one unless it is the system's; an interrupted one ends in its notice and keeps a bubble exactly when there is something in it; a result that can be loaded later shows only when it failed |
| `HistoryRendering.BodyShows` | desktop/app.go:4548-4605 | message by message: what one message shows, all roles and exits |
| `HistoryRendering.PlannerIsNth` | desktop/app.go:4606-4611 | the n-th visible user message with a key shows the n-th planner turn of that key; nothing else shows any |
| `HistoryRendering.SliceRenders` | desktop/app.go:4642-4652 | rendering a page's slice is rendering from its first message on |
| `HistoryRendering.RenderedSplits` | desktop/app.go:4536-4614 | rendering splits at any point where no key that owns planner turns is used on both sides |
| `HistoryRendering.WalkShowsWhole` | desktop/app.go:4616-4654 | pages read together are the whole rendering if no such key is used on two pages |
| `HistoryRendering.LatestWalkShowsWhole` | desktop/app.go:4616-4654 | the walk from the latest turn shows the whole view |
| `HistoryRendering.SegmentsAgreeIff` | desktop/app.go:4606-4611 | message by message a page agrees with the whole view if and only if no such key is used before it and on it |
| `PromptTape.Tape.EntriesForSession` | desktop/app.go:3647-3670 | loads a session once; what any session holds does not change |
| `PromptTape.Tape.ReadOlder` | desktop/app.go:3588-3632 | exactly the next entries from the cursor, whatever is cached; a further cursor only with a full page, standing for exactly the rest |
| `PromptTape.Tape.Scan` | desktop/app.go:3482-3502 | any requested limit gives a page of at most 200 entries, never empty while something is left, and its cursor has less left |
| `PromptTape.Tape.ReadAll` | desktop/app.go:3634-3645 | ends, with every entry once and in order |
| `PromptTape.Tape.constructor` | desktop/app.go:3553-3586 | a new tape holds for each session what its file holds, nothing where there is none |
| `PromptTape.TapeOrder` | desktop/app.go:3553-3586 | the listing with the current session moved to the front |
| `PromptTape.OrderIsPermutation` | desktop/app.go:3565-3583 | which loses, adds and repeats nothing |
| `PromptTape.PageLimit` | desktop/app.go:3519-3527 | limits stay between 1 and 200 |
| `CheckpointPreview.Preview.Search` | desktop/app.go:2110 | the first index whose path is not below the new one |
| `CheckpointPreview.Preview.Insert` | desktop/app.go:2106-2126 | in-place insertion at its rank, dropping the last path of a full buffer |
| `CheckpointPreview.InsertedIsPreview` | desktop/app.go:2106-2126 | inserting a new path into the preview of a set gives the preview of the larger set |
| `CheckpointPreview.PreviewUnique` | desktop/app.go:2106-2126 | a set has one preview |
| `CheckpointPreview.AddPaths` | desktop/app.go:2046-2052 | set and preview after one turn's paths |
| `CheckpointPreview.Checkpoints` | desktop/app.go:2011-2060 | for every turn: the count of its and all later paths, their 60 smallest in order, code possible exactly if there are any; later insertions leave emitted lists alone |
| `CheckpointPreview.AffectedIs` | desktop/app.go:2037-2052 | the files a turn's restore touches are those of it and of all later turns |
| `SessionArtifacts.ArtifactClass` | internal/store/session.go:42-164 | an artifact's kind can be read off its name |
| `SessionArtifacts.ArtifactsApart` | desktop/sessions.go:141-156 | no two artifacts share a name, of one session or of two |
| `SessionTrash.Store.MoveArtifacts` | desktop/sessions.go:468-472 | the loop moves exactly the session's artifacts; stopped early, exactly the first ones |
| `SessionTrash.Store.Trash` | desktop/sessions.go:437-490 | one trash in all its exits: it fails exactly for a live session held elsewhere, which then stays; otherwise the session's files and its subagents' go to one item with their contents, or make way for an earlier entry when marked, without conversation or the same; no other file or item changes |
| `SessionTrash.Store.Reconcile` | desktop/sessions.go:209-265 | one reconcile: unless the session is held elsewhere, all its files go to the entry under its name, or to another when that holds a different conversation; nothing is overwritten elsewhere |
| `SessionTrash.Store.MoveArtifactsBack` | desktop/sessions.go:571-575 | the restore's loop |
| `SessionTrash.Store.Restore` | desktop/sessions.go:544-579 | one restore in all its exits: it succeeds if and only if no live session of the key holds an unmarked conversation and no subagent name collides; a live conversation is left as it is, files outside the session never change, the item stays on failure, and on success its files are live as they were trashed |
| `SessionTrash.TrashedIsFound` | desktop/sessions.go:492-530 | what was trashed is listed and resolves under its key, other entries unchanged |
| `SessionTrash.TrashThenRestore` | desktop/sessions.go:544-579 | trash then restore is the identity on all files of the session and its subagents |
| `SessionTrash.OthersUntouched` | desktop/sessions.go:141-156 | another session's files are not touched |
| `SessionTrash.DiscardsIff` | desktop/sessions.go:307-335 | the live session is discarded exactly when an entry exists, nobody holds it, and it is marked, empty of conversation, or the same |
| `SessionTrash.EarlierEntryStays` | desktop/sessions.go:343-358 | an earlier entry with another conversation stays as it is, the session gets a directory of its own |
| `SessionTrash.StoppedInOnePlace` | desktop/sessions.go:468-472 | wherever a trash stopped, each artifact is in exactly one place, unchanged |
| `SessionTrash.PassCompletesIffMarked` | desktop/sessions.go:196-265 | without an earlier entry: wherever a trash stopped, the reconcile pass turns it into an uninterrupted one if the session is marked, and otherwise leaves it as it stopped, which is not that unless only the mark was missing |
| `SessionTrash.ReconcileAgain` | desktop/sessions.go:209-265 | reconciling again changes nothing |
| `SessionTrash.OwnDirectoryIsUnmarked` | desktop/sessions.go:366-396 | a session gets a directory of its own only when it is not marked for cleanup |
| `SessionTrash.OwnDirectoryStaysSplit` | desktop/sessions.go:343-358 | so such a trash, stopped among its moves, stays split: which files are in that directory and which beside, that neither the listing nor a restore finds it, and that nothing completes it |
| `SessionTrash.UniqueNameIsNoTranscript` | desktop/sessions.go:343-358 | the name of such a directory is not a transcript name |
| `SessionTrash.DiscardStoppedMixesIff` | desktop/sessions.go:209-238 | a marked session's discard, stopped after the transcript is gone, is completed into the earlier entry, which stays as it was exactly when nothing left to move is new or different there |
| `ExportTransaction.NumberedDistinct` | desktop/app.go:8649-8656 | numbered targets are pairwise distinct |
| `ExportTransaction.CreateTemp` | desktop/app.go:8722-8748 | the first free name among a hundred attempts, exactly when there is one and it can be created; otherwise nothing changed |
| `ExportTransaction.Commit` | desktop/app.go:8750-8794 | succeeds exactly when the target is free and a link or a copy works; otherwise the names are as they were |
| `ExportTransaction.Rollback` | desktop/app.go:8796-8810 | takes away exactly the names that still stand for the file created |
| `ExportTransaction.RollbackSparesOthers` | desktop/app.go:8796-8810 | names others have given to their own files, targets included, survive a rollback, and the rest is rolled back as without them |
| `ExportTransaction.Stage` | desktop/app.go:8680-8708 | adds nothing but its temporary names; succeeds exactly when each part has a payload and its file finds a name and can be written |
| `ExportTransaction.CommitAll` | desktop/app.go:8710-8719 | all targets or none; all exactly when they are free, pairwise distinct and each can be linked or copied to |
| `ExportTransaction.SaveExclusive` | desktop/app.go:8664-8720 | succeeds if and only if the targets are there, new and distinct, each part has a payload and a temporary name that is no target, and no step fails but a link made up for by a copy; then every target holds its payload; otherwise all names are as before; no temporary name is left and no earlier file changes |
| `ExportTransaction.SaveableWhen` | desktop/app.go:8664-8720 | in the caller's terms: distinct new targets, payloads, a free candidate of its own for each part that is no target, and no failing step are enough |
| `ExportInterference.ExportIsHarmless` | desktop/app.go:8664-8720 | with other processes changing names and files between any two steps: while each temporary name is free or the export's own when it is used, no step takes a name from a foreign file, gives it one or changes its data |
| `ExportInterference.OwnStepHarmless` | desktop/app.go:8796-8810 | step by step, the rollback by file identity included |
| `ExportInterference.ForeignNameStays` | desktop/app.go:8802-8810 | a name that stands for a foreign file survives |
| `ExportInterference.CleanHarmlessIff` | desktop/app.go:8674-8679 | removing a temporary name is harmless if and only if it is free or still the export's own |
| `ExportInterference.LinkHarmlessIff` | desktop/app.go:8750-8766 | so is linking to a free target |
| `ExportInterference.CleanUpTakesForeignFile` | desktop/app.go:8674-8679 | a run in which the clean-up takes another process's file away |
| `Utf8Trim.TrimPartialSuffix` | desktop/app.go:8074-8088 | for all bytes: the longest valid prefix if an incomplete character is left behind it, else everything |
| `Utf8Trim.TrimKeepsLongestPrefix` | desktop/app.go:8074-8088 | from any byte prefix of valid text: the longest valid prefix, at most three bytes shorter |
| `Utf8Trim.ClipBytes` | desktop/app.go:4910-4921 | cuts at the last character start within the bound |
| `Utf8Trim.ClipKeepsText` | desktop/app.go:4910-4921 | on valid text that is the longest valid prefix that fits, less than four bytes below the bound |
| `Utf8Trim.CutsAtStarts` | desktop/app.go:4917-4919 | valid text can be cut exactly where a character starts |
| `Utf8Trim.LongestValidPrefix` | desktop/app.go:8075-8077 | no valid prefix is longer than the parse |
| `Utf8Trim.Completable` | desktop/app.go:8082-8084 | what is not a full rune is the beginning of some character |
| `Download.CopyBody` | desktop/updater.go:521-541 | what arrives is appended; every report equals the buffer with some number of pieces, more each time, and is made one piece before the buffer has them; a step of 256 KiB apart, the last one complete |
| `Download.Transfer.DownloadInto` | desktop/updater.go:475-506 | one attempt: reset on a whole answer, continued on a partial one |
| `Download.Transfer.Download` | desktop/updater.go:455-469 | attempts until success, cancellation or the third |
| `Download.AttemptKeepsPrefix` | desktop/updater.go:487-505 | every attempt leaves a prefix of the resource |
| `Download.RunKeepsPrefix` | desktop/updater.go:404-420 | over any attempts the buffer is a prefix; a success is the resource if and only if its last answer went to the end |
| `Download.RunStops` | desktop/updater.go:404-420 | only a success gives data; a failure means cancelled or three attempts |
| `Download.RunAttempts` | desktop/updater.go:404-420 | each attempt asks for what the one before left to be had, and the first that succeeds ends the download with what is then in the buffer |
| `Download.BrokenAfterLastByte` | desktop/updater.go:482-500 | a transfer broken after its last byte fails for good unless the server starts over |

`TrimPartialSuffix` and `ClipBytes` are read against sections 3 and 4 of RFC 3629, the download against sections 14.2, 14.4
and 15.3.7 of RFC 9110.

## Left out

- ControllerSwap.SafeRun: the swap, the startup build and the removal are transitions on values, not methods on objects, because the property is about interleavings; update in place and aliasing of tab objects are not captured there.
- ControllerSwap.CarefulNeverLeaks: the rebuild paths that close before they compare the tab (settings rebuild, rebind, workspace repair) are not part of the exactly-once claim.
- ControllerSwap.OrderlyNeverClobbers: generation 0, which ungated and synchronous builds use, is not in this module; `HostSystem`, `MutationSystem` and `SettingsRefresh` have it.
- LockOrder.PathsNested: covers the fifteen kinds of path listed in the module; locks inside controllers, the configuration lock, `singleSurfaceMu` and the prompt-history lock are not part of this model.
- MutationSystem.WorkingReservesIff: up to the first controller the mutation itself installs while it refreshes; that refresh is in `SettingsRefresh` and `LockOrder` only.
- RuntimeMutation.Desktop.ApplyPluginOperation: one call without interleaving; the plugin operation with its runtime refresh is a flag for whether it works, so a controller that the refresh puts on a superseded empty tab, which the restart then overwrites, is in `ControllerSwap` only; the Safe Mode return of a startup build is not part of this model.
- RuntimeMutation.ReleaseAll: that the order is the reverse of claiming is in the body, not in the contract, as no outcome depends on it.
- SharedHosts.CloseDeleted: waiting for jobs, session leases and the file work between the passes are not part of this model; every tab is listed once, as the tab maps have it.
- HostSystem.StepExact: application shutdown, which closes all hosts at once, is not part of this model.
- DeferredRebuild.Pool.ScheduleRebuild: tab ids are taken as already stripped of surrounding blanks.
- DeferredRebuild.PendingIsRetried: safety only; a tab without a controller can wait under a settings label for as long as it has none.
- SettingsRefresh.OrderlyNeverLoses: shutdown, which stops scheduling, is in `DeferredRebuild` only; a setting saved without any refresh promises nothing; a refresh given up with a warning to the user withdraws its promise.
- SettingsRefresh.StepExact: a settings rebuild of a tab without a controller that meets a held lease also files a startup entry (desktop/settings_app.go:1600-1608); the model leaves that entry out.
- HeartbeatSchedule.DueDecision: a fixed offset from UTC, so no daylight-saving changes; reading a rule from its text is not part of this model, only what the parser guarantees of it.
- HeartbeatTicks.RunsPeriodApart: the period counts from the recorded stamp, which is cut to milliseconds, to the moment the tick looks.
- HeartbeatTicks.ServedOnce: a stamp of exactly 0 milliseconds reads as never run and is excluded; edits leave the last run alone.
- HeartbeatEngine.Engine.ExecuteTask: topics, tabs, controllers and the clock answer through parameters; approval modes are taken as already in lower case without blanks; bot forwarding is not part of this model.
- HeartbeatEngine.NeverOverlaps: one caller at a time and a task that is not pruned in between; what the user does in the conversation after it was seen idle does not count as the task's run.
- HistoryRendering.Render: what a tool call is summed up as, which results failed and how those are cut, todo replay and the text of an interruption are parameters of the whole transcript's lookups.
- HistoryRendering.WalkShowsWhole: one direction only for the flattened view, because segments of different messages can coincide when flattened; `SegmentsAgreeIff` is exact message by message.
- PromptTape.Tape.ReadOlder: cursors are decoded values; their JSON and base64 form is not part of this model, nor is reading a session file.
- CheckpointPreview.Preview.Search: paths are sequences of characters in their own order.
- SessionTrash.Store.Trash: a directory counts as one content, a move is atomic, and the subagents' files are given as a set that stays the same across a crash; copy-and-remove moves, symbolic links and file-system errors are not part of this model.
- SessionTrash.TrashedIsFound: path validation is reduced to the key and the recorded key.
- ExportTransaction.SaveExclusive: status and remove calls succeed; that a target holds its payload and that a failure leaves the names as they were is claimed only without other processes, who may undo either; base64 decoding is a parameter.
- ExportInterference.ExportIsHarmless: what the others do to the export's own files is up to them; the check that a linked target is the staged file is a step of its own.
- Download.Transfer.Download: pauses, clients and headers are not part of this model; the total size is a parameter of each answer.
- Download.RunKeepsPrefix: a partial answer that begins elsewhere than asked is excluded by the server's rules; the code does not look at where it begins.
- Window, tray, menu, dialogs, bindings and view structures: no invariant that spans operations.
- Configuration loading, session leases, controller internals, transcript decoding, manifests, signatures and checksums: opaque outcomes here.
- Bot connections, install flows, provider presets, theme packs, crash scrubbing: field copying and regular expressions that would only add easy members.
