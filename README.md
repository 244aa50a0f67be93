# salmon, modelled in Dafny

salmon is a small Java library that runs one external command through a
fluent builder (`Salmon.command(":").options(...).onSucceeded(h).execute()`).
It keeps an execution record, `CommandState`, whose status goes from READY
to RUNNING and then to SUCCEEDED, FAILED, ERROR or CANCELLED. On every
status change it fires the event handlers registered for the new status.
When the run is over it fires the "done" handlers.

This project models the sequential core of that library and proves its
behaviour:

- **Event**: `EventHandlerHelper.fireEvent`. Every handler runs, in order,
  on the same target. Only the last failure is rethrown, wrapped once in an
  EventHandlingException.
- **Internal**: the classes `CommandParameterImpl` (the request),
  `CommandStateImpl` (the record and its observer list) and
  `CommandStateManager` (the record's observer, which fires the handlers).
  Each method is proved equal to a reference function in **Lifecycle**.
- **Lifecycle**: the request and the record as values. The reference
  semantics of `startProcess`, the four `notify*` methods and the
  try/catch/finally of `runProcess` are written as functions from the record
  before to the record after, the handler invocations made, and how the call
  ends. The properties of a whole run are proved about these functions.
- **Executor**: `AbstractCommandExecutor` (the synchronous `execute`,
  `runProcess` and the four builder setters) and the `cmd /c` variant of
  `MSDosCommandExecutor.setCommand`. The methods drive **Jdk**, a stand-in
  for `ProcessBuilder` and `Process` whose answers come from a
  `ProcessScript`, the scripted behaviour of the operating system.
- **Builder**: `CommandBuilderImpl`, its validating constructor and its
  fluent setters.
- **Registry**, **Initializer**, **Config**: executor-factory registration,
  a stable sort by priority value, the choice of the first supported
  factory, one-time initialisation, and the `auto.msdos` setting.
- **StringUtil**, **PlatformUtil**: `isEmpty` and `chomp`; the `isWindows`
  decision on the OS name, and the cache of system properties.

Exceptions are values: `Outcome` (returns normally, or throws) and
`Result`. Handlers are identities. A `Behaviour` function says for each
handler and record whether the handler throws. A ghost log `fired` on the
record lists every handler invocation in order.

Where the library's comments and its code disagree, the model follows the
code:

- The comment of `CommandExecutorFactory.getPriority` (lines 34-35) says the
  preset factories are registered with priority 10, so a caller's factory
  with the default priority 1 would be preferred. In the code the MS-DOS
  factory keeps the default priority 1 (`MSDosFactoryHasDefaultPriority`).
  It is registered when `Salmon` is first loaded (Salmon.java:18-20).
  Registered before any caller's factory, it wins every tie, since the sort
  is stable (`DefaultPriorityFactoryLosesOnWindows`). `registerFactory` is
  public, so a caller that registers a factory before `Salmon` is loaded
  keeps that factory ahead of the MS-DOS one on a tie
  (`EarlierCallerFactoryWinsTies`).
- The comment of `CommandExecutorRegistry.get` (line 44) speaks of the
  highest priority value. The code sorts ascending and takes the first
  supported factory, so the lowest value wins (`PrefersLowestPriority`).
- The `handled` guards of the `notify*` methods are modelled as written.
  No code ever sets `handled`, and `CommandStateManager.Valid` keeps it
  false, so every notify call does its update.

## Model

| member | source | states |
|---|---|---|
| Event.Invocations | src/main/java/jp/ambrosoli/salmon/event/EventHandlerHelper.java:9-16 | one invocation per handler |
| Event.InvocationsAt | src/main/java/jp/ambrosoli/salmon/event/EventHandlerHelper.java:9-11 | the i-th invocation is of the i-th handler, and every handler gets the same target |
| Event.LastFailureIsLast | src/main/java/jp/ambrosoli/salmon/event/EventHandlerHelper.java:8-16 | the captured exception is absent exactly when no handler throws; otherwise it is what the last throwing handler threw, and every later handler returned |
| Event.FireEvent | src/main/java/jp/ambrosoli/salmon/event/EventHandlerHelper.java:7-21 | the loop invokes every handler once, in list order, even after failures, and ends as `Fire` says; proved with loop invariants |
| Event.FireNormalIff | src/main/java/jp/ambrosoli/salmon/event/EventHandlerHelper.java:18-21 | fireEvent returns normally if and only if no handler throws (so an empty list raises nothing) |
| Event.FireRaisesLastFailure | src/main/java/jp/ambrosoli/salmon/event/EventHandlerHelper.java:12-20 | when handler k is the last to throw, exactly one EventHandlingException is raised, with k's exception as the cause |
| Event.FireConcat | src/main/java/jp/ambrosoli/salmon/event/EventHandlerHelper.java:9-20 | firing a concatenation invokes both parts in order; a failure in the second part hides every failure in the first |
| Command.MSDosFactoryHasDefaultPriority | src/main/java/jp/ambrosoli/salmon/command/CommandExecutorFactory.java:26-42 | the library's MS-DOS factory has priority 1 = DEFAULT_PRIORITY, not the documented 10, and creates the MS-DOS executor |
| Lifecycle.Judge | src/main/java/jp/ambrosoli/salmon/command/internal/CommandStateManager.java:72-80 | SUCCEEDED if and only if the condition accepts the code, FAILED if and only if it rejects it, and the condition's exception (NullPointerException for a null condition) otherwise |
| Lifecycle.SetStatusFiresHandlersOfNewStatus | src/main/java/jp/ambrosoli/salmon/command/internal/CommandStateImpl.java:60-63 | setStatus stores the status first, changes nothing else, then fires exactly the handlers of the new status, once each, in order, on the updated record; there is no change detection |
| Lifecycle.AttemptFiresStatusHandlersOnly | src/main/java/jp/ambrosoli/salmon/command/internal/AbstractCommandExecutor.java:45-66 | before `finally`, every invocation is of a handler registered for the record's status at that moment |
| Lifecycle.RunEndsWithDoneHandlers | src/main/java/jp/ambrosoli/salmon/command/internal/AbstractCommandExecutor.java:67-69 | on every path notifyFinished runs once and last: the done handlers run once each, in order, on the final record; an exception from them replaces the one in flight |
| Lifecycle.ReadyFailureSkipsRun | src/main/java/jp/ambrosoli/salmon/command/internal/AbstractCommandExecutor.java:21-22 | a READY handler that throws ends execute inside the manager's constructor: no process and no other handler, the record stays READY |
| Lifecycle.NormalExecutionIsSettled | src/main/java/jp/ambrosoli/salmon/command/internal/AbstractCommandExecutor.java:21-41 | a normal return leaves SUCCEEDED or FAILED (decided by the condition on the stored exit code, no cause) or CANCELLED (only after an expired timed wait and a destroy, with the timeout as cause); never ERROR |
| Lifecycle.CancelledOnlyOnTimeout | src/main/java/jp/ambrosoli/salmon/command/internal/AbstractCommandExecutor.java:47-60 | without a timeout unit the record is never CANCELLED and the process is never destroyed; CANCELLED implies an expired timed wait |
| Lifecycle.LaunchFailureIsError | src/main/java/jp/ambrosoli/salmon/command/internal/AbstractCommandExecutor.java:43-70 | a start failure gives ERROR with the failure as cause and no exit code; the READY, ERROR and done handlers fire in that order; the failure is rethrown unless a handler's exception replaces it |
| Lifecycle.HandlerFailureSkipsNotifyError | src/main/java/jp/ambrosoli/salmon/command/internal/AbstractCommandExecutor.java:61-63 | an EventHandlingException out of the try block is rethrown without notifyError: the status is kept and only the done handlers follow |
| Lifecycle.QuietExitIsJudged | src/main/java/jp/ambrosoli/salmon/command/internal/AbstractCommandExecutor.java:47-59 | with handlers that never throw, an exit in time ends as the condition decides on the exit code; a throwing condition gives ERROR and the rethrow |
| Lifecycle.QuietExitFiresEachPhaseOnce | src/main/java/jp/ambrosoli/salmon/command/internal/CommandStateManager.java:20-49 | in such a run the READY, RUNNING, decided-status and done handlers each fire once, in that order, on the record as it was at that moment |
| Lifecycle.QuietTimeoutCancels | src/main/java/jp/ambrosoli/salmon/command/internal/AbstractCommandExecutor.java:47-53 | an expired timed wait destroys the process and ends CANCELLED with the post-destroy exit code and the timeout as cause; execute returns normally |
| Lifecycle.DefaultConditionAcceptsZero | src/main/java/jp/ambrosoli/salmon/command/internal/CommandParameterImpl.java:32 | the default success condition accepts exactly exit code 0 |
| Lifecycle.NoOpCommandSucceeds | src/main/java/jp/ambrosoli/salmon/command/internal/AbstractCommandExecutor.java:57-59 | ":" with the default settings and exit code 0 ends SUCCEEDED with exit code 0 and no cause |
| Internal.WithHandler | src/main/java/jp/ambrosoli/salmon/command/internal/CommandParameterImpl.java:136-139 | the handler is appended to its status's list, which is created if absent; every other status and every other field are unchanged |
| Internal.CommandParameterImpl.constructor | src/main/java/jp/ambrosoli/salmon/command/internal/CommandParameterImpl.java:22-34 | the defaults: no command, options, directory, redirects or environment; timeout 0 and no unit; synchronous; no handlers; condition `rc == 0` |
| Internal.CommandParameterImpl.SetCommand | src/main/java/jp/ambrosoli/salmon/command/internal/CommandParameterImpl.java:41-43 | overwrites the command and nothing else |
| Internal.CommandParameterImpl.SetOptions | src/main/java/jp/ambrosoli/salmon/command/internal/CommandParameterImpl.java:50-52 | overwrites the options and nothing else |
| Internal.CommandParameterImpl.SetSuccessCondition | src/main/java/jp/ambrosoli/salmon/command/internal/CommandParameterImpl.java:59-61 | overwrites the success condition and nothing else |
| Internal.CommandParameterImpl.SetTimeout | src/main/java/jp/ambrosoli/salmon/command/internal/CommandParameterImpl.java:73-75 | overwrites the timeout and nothing else |
| Internal.CommandParameterImpl.SetTimeoutUnit | src/main/java/jp/ambrosoli/salmon/command/internal/CommandParameterImpl.java:82-84 | overwrites the timeout unit and nothing else |
| Internal.CommandParameterImpl.SetDirectory | src/main/java/jp/ambrosoli/salmon/command/internal/CommandParameterImpl.java:91-93 | overwrites the directory and nothing else |
| Internal.CommandParameterImpl.SetEnvironment | src/main/java/jp/ambrosoli/salmon/command/internal/CommandParameterImpl.java:100-102 | overwrites the environment consumer and nothing else |
| Internal.CommandParameterImpl.SetAsync | src/main/java/jp/ambrosoli/salmon/command/internal/CommandParameterImpl.java:109-111 | overwrites the async flag and nothing else |
| Internal.CommandParameterImpl.SetRedirectOutput | src/main/java/jp/ambrosoli/salmon/command/internal/CommandParameterImpl.java:118-120 | overwrites the stdout redirect and nothing else |
| Internal.CommandParameterImpl.SetRedirectError | src/main/java/jp/ambrosoli/salmon/command/internal/CommandParameterImpl.java:127-129 | overwrites the stderr redirect and nothing else |
| Internal.CommandParameterImpl.AddDoneHandler | src/main/java/jp/ambrosoli/salmon/command/internal/CommandParameterImpl.java:55-57 | appending through `getDoneHandlers()` persists: the handler is added at the end of the done list and nothing else changes |
| Internal.CommandParameterImpl.SetOnStateChanged | src/main/java/jp/ambrosoli/salmon/command/internal/CommandParameterImpl.java:136-139 | the request after the call is `WithHandler` of the request before |
| Internal.CommandStateImpl.constructor | src/main/java/jp/ambrosoli/salmon/command/internal/CommandStateImpl.java:12-17 | no status, exit code, cause or streams, and no observers |
| Internal.CommandStateImpl.SetExitCode | src/main/java/jp/ambrosoli/salmon/command/internal/CommandStateImpl.java:24-26 | changes only the exit code and notifies nobody |
| Internal.CommandStateImpl.SetStdout | src/main/java/jp/ambrosoli/salmon/command/internal/CommandStateImpl.java:33-35 | changes only stdout and notifies nobody |
| Internal.CommandStateImpl.SetStderr | src/main/java/jp/ambrosoli/salmon/command/internal/CommandStateImpl.java:42-44 | changes only stderr and notifies nobody |
| Internal.CommandStateImpl.SetThrown | src/main/java/jp/ambrosoli/salmon/command/internal/CommandStateImpl.java:51-53 | changes only the cause and notifies nobody |
| Internal.CommandStateImpl.AddObserver | src/main/java/jp/ambrosoli/salmon/command/internal/CommandStateImpl.java:96-98 | appends the observer at the end of the list; the record is unchanged |
| Internal.CommandStateImpl.SetStatus | src/main/java/jp/ambrosoli/salmon/command/internal/CommandStateImpl.java:60-63 | stores the status, then notifies the observers as `NotifySpec` says |
| Internal.CommandStateImpl.NotifyObservers | src/main/java/jp/ambrosoli/salmon/command/internal/CommandStateImpl.java:100-104 | calls each observer's update in registration order; the first that throws ends the loop; proved with loop invariants |
| Internal.CommandStateImpl.IsReady | src/main/java/jp/ambrosoli/salmon/command/internal/CommandStateImpl.java:65-68 | true exactly when the record's status is READY, false before any status is set |
| Internal.CommandStateImpl.IsRunning | src/main/java/jp/ambrosoli/salmon/command/internal/CommandStateImpl.java:70-73 | true exactly when the record's status is RUNNING, false before any status is set |
| Internal.CommandStateImpl.IsSucceeded | src/main/java/jp/ambrosoli/salmon/command/internal/CommandStateImpl.java:75-78 | true exactly when the record's status is SUCCEEDED, false before any status is set |
| Internal.CommandStateImpl.IsFailed | src/main/java/jp/ambrosoli/salmon/command/internal/CommandStateImpl.java:80-83 | true exactly when the record's status is FAILED, false before any status is set |
| Internal.CommandStateImpl.IsError | src/main/java/jp/ambrosoli/salmon/command/internal/CommandStateImpl.java:85-88 | true exactly when the record's status is ERROR, false before any status is set |
| Internal.CommandStateImpl.IsCancelled | src/main/java/jp/ambrosoli/salmon/command/internal/CommandStateImpl.java:90-93 | true exactly when the record's status is CANCELLED, false before any status is set |
| Internal.StatusPredicatesExclusive | src/main/java/jp/ambrosoli/salmon/command/internal/CommandStateImpl.java:65-93 | at most one of the six is* predicates holds; one holds exactly when a status is set, so all are false before |
| Internal.CommandStateManager.Init | src/main/java/jp/ambrosoli/salmon/command/internal/CommandStateManager.java:20-23 | a fresh record whose only observer is the manager; handled is false |
| Internal.CommandStateManager.New | src/main/java/jp/ambrosoli/salmon/command/internal/CommandStateManager.java:20-25 | the constructor then moves the record to READY, firing the READY handlers, which may throw |
| Internal.CommandStateManager.NotifyIsUpdate | src/main/java/jp/ambrosoli/salmon/command/internal/CommandStateManager.java:82-89 | with the manager as the only observer, notifying the observers is one `update` |
| Internal.CommandStateManager.Update | src/main/java/jp/ambrosoli/salmon/command/internal/CommandStateManager.java:82-89 | fires the handlers of the record's current status, and nothing when none are registered |
| Internal.CommandStateManager.SetStatus | src/main/java/jp/ambrosoli/salmon/command/internal/CommandStateManager.java:24 | `state.setStatus(s)` on the manager's own record is `SetStatusSpec` |
| Internal.CommandStateManager.StartProcess | src/main/java/jp/ambrosoli/salmon/command/internal/CommandStateManager.java:35-41 | a start failure is thrown with the record unchanged; otherwise stdout and stderr are stored before the move to RUNNING |
| Internal.CommandStateManager.NotifyEnded | src/main/java/jp/ambrosoli/salmon/command/internal/CommandStateManager.java:43-49 | stores the exit code, then moves to the judged status; if judging throws, the code stays stored and the status is unchanged |
| Internal.CommandStateManager.NotifyError | src/main/java/jp/ambrosoli/salmon/command/internal/CommandStateManager.java:51-57 | stores the cause and moves to ERROR; the exit code is untouched |
| Internal.CommandStateManager.NotifyCancelled | src/main/java/jp/ambrosoli/salmon/command/internal/CommandStateManager.java:59-66 | stores the exit code and the cause and moves to CANCELLED |
| Internal.CommandStateManager.NotifyFinished | src/main/java/jp/ambrosoli/salmon/command/internal/CommandStateManager.java:68-70 | fires the done handlers on the record and changes no field |
| Executor.OptionArgs | src/main/java/jp/ambrosoli/salmon/command/internal/AbstractCommandExecutor.java:75-78 | null options contribute nothing; otherwise the options, in order |
| Executor.ArgvLayout | src/main/java/jp/ambrosoli/salmon/command/internal/AbstractCommandExecutor.java:72-80 | the argument vector is the command followed by the options in their order |
| Executor.MSDosArgvExtendsArgv | src/main/java/jp/ambrosoli/salmon/command/msdos/MSDosCommandExecutor.java:14-28 | with auto.msdos off, exactly the inherited vector; with it on, "cmd", "/c" and then the inherited vector |
| Executor.SetCommand | src/main/java/jp/ambrosoli/salmon/command/internal/AbstractCommandExecutor.java:72-80 | the builder's command list is `Argv` of the request |
| Executor.MSDosSetCommand | src/main/java/jp/ambrosoli/salmon/command/msdos/MSDosCommandExecutor.java:14-28 | the builder's command list is `MSDosArgv` for the config's auto.msdos |
| Executor.SetDirectory | src/main/java/jp/ambrosoli/salmon/command/internal/AbstractCommandExecutor.java:82-87 | the directory reaches the builder only when it is not null |
| Executor.SetEnvironment | src/main/java/jp/ambrosoli/salmon/command/internal/AbstractCommandExecutor.java:89-94 | a non-null consumer is applied to the builder's environment; a null one leaves it unchanged |
| Executor.SetRedirectFile | src/main/java/jp/ambrosoli/salmon/command/internal/AbstractCommandExecutor.java:96-105 | each redirect reaches the builder only when it is not null |
| Executor.Attempt | src/main/java/jp/ambrosoli/salmon/command/internal/AbstractCommandExecutor.java:45-60 | the try block ends as `AttemptSpec` says |
| Executor.Await | src/main/java/jp/ambrosoli/salmon/command/internal/AbstractCommandExecutor.java:47-60 | the wait and what follows it end as `AwaitSpec` says, including the destroy on an expired timed wait |
| Executor.EndAfterWait | src/main/java/jp/ambrosoli/salmon/command/internal/AbstractCommandExecutor.java:55 | `notifyEnded(exitValue())`, where a failing exitValue skips notifyEnded |
| Executor.Catch | src/main/java/jp/ambrosoli/salmon/command/internal/AbstractCommandExecutor.java:61-66 | the catch clauses end as `CatchSpec` says |
| Executor.RunProcess | src/main/java/jp/ambrosoli/salmon/command/internal/AbstractCommandExecutor.java:43-70 | the record, the handler log, the outcome and the destroy flag are those of `RunSpec` |
| Executor.Prepare | src/main/java/jp/ambrosoli/salmon/command/internal/AbstractCommandExecutor.java:23-27 | a fresh builder carrying the argument vector, directory, environment and redirects of the request |
| Executor.Execute | src/main/java/jp/ambrosoli/salmon/command/internal/AbstractCommandExecutor.java:21-41 | the synchronous execute ends as `ExecuteSpec` says and returns the manager's record only when the run returned normally; the builder is made only when no READY handler threw |
| Builder.CheckDirectory | src/main/java/jp/ambrosoli/salmon/command/internal/CommandBuilderImpl.java:121-134 | accepts exactly a canonical file that exists; a canonicalisation IOException becomes UncheckedIOException; a missing directory gives IllegalArgumentException naming the canonical file |
| Builder.CommandBuilderImpl.Init | src/main/java/jp/ambrosoli/salmon/command/internal/CommandBuilderImpl.java:31-32 | a fresh parameter with the defaults and the command |
| Builder.CommandBuilderImpl.New | src/main/java/jp/ambrosoli/salmon/command/internal/CommandBuilderImpl.java:27-33 | fails with IllegalArgumentException if and only if the command is null or empty |
| Builder.CommandBuilderImpl.Options | src/main/java/jp/ambrosoli/salmon/command/internal/CommandBuilderImpl.java:41-49 | replaces the options (a second call does not append) and returns the same builder |
| Builder.CommandBuilderImpl.OnDone | src/main/java/jp/ambrosoli/salmon/command/internal/CommandBuilderImpl.java:51-55 | appends to the done list only |
| Builder.CommandBuilderImpl.On | src/main/java/jp/ambrosoli/salmon/command/internal/CommandBuilderImpl.java:57-91 | each on-status method appends to its own status's list only |
| Builder.CommandBuilderImpl.SuccessCondition | src/main/java/jp/ambrosoli/salmon/command/internal/CommandBuilderImpl.java:93-97 | sets the condition only |
| Builder.CommandBuilderImpl.Timeout | src/main/java/jp/ambrosoli/salmon/command/internal/CommandBuilderImpl.java:99-102 | `timeout(ms)` is `timeout(ms, MILLISECONDS)` |
| Builder.CommandBuilderImpl.TimeoutIn | src/main/java/jp/ambrosoli/salmon/command/internal/CommandBuilderImpl.java:104-109 | sets both the timeout and its unit, and nothing else |
| Builder.CommandBuilderImpl.Directory | src/main/java/jp/ambrosoli/salmon/command/internal/CommandBuilderImpl.java:121-134 | records the canonical file when `CheckDirectory` accepts it; otherwise throws its exception and leaves the request unchanged |
| Builder.CommandBuilderImpl.DirectoryNamed | src/main/java/jp/ambrosoli/salmon/command/internal/CommandBuilderImpl.java:111-114 | the same for `new File(directory)` |
| Builder.CommandBuilderImpl.Environment | src/main/java/jp/ambrosoli/salmon/command/internal/CommandBuilderImpl.java:136-140 | sets the environment consumer only |
| Builder.CommandBuilderImpl.Async | src/main/java/jp/ambrosoli/salmon/command/internal/CommandBuilderImpl.java:142-146 | sets the async flag only |
| Builder.CommandBuilderImpl.RedirectStdout | src/main/java/jp/ambrosoli/salmon/command/internal/CommandBuilderImpl.java:148-152 | sets the stdout redirect only |
| Builder.CommandBuilderImpl.RedirectStdoutToDevNull | src/main/java/jp/ambrosoli/salmon/command/internal/CommandBuilderImpl.java:154-158 | sets the stdout redirect only, to the platform's null device; an unknown platform's NullPointerException propagates |
| Builder.CommandBuilderImpl.RedirectStderr | src/main/java/jp/ambrosoli/salmon/command/internal/CommandBuilderImpl.java:160-164 | sets the stderr redirect only |
| Builder.CommandBuilderImpl.RedirectStderrToDevNull | src/main/java/jp/ambrosoli/salmon/command/internal/CommandBuilderImpl.java:166-170 | sets the stderr redirect only, to the platform's null device |
| Registry.SortByPriority | src/main/java/jp/ambrosoli/salmon/command/CommandExecutorRegistry.java:39 | the sort keeps the length |
| Registry.SortByPrioritySorts | src/main/java/jp/ambrosoli/salmon/command/CommandExecutorRegistry.java:39 | the result is ascending in priority value |
| Registry.SortByPriorityPermutes | src/main/java/jp/ambrosoli/salmon/command/CommandExecutorRegistry.java:39 | the result is a permutation of the input |
| Registry.SortByPriorityIsStable | src/main/java/jp/ambrosoli/salmon/command/CommandExecutorRegistry.java:39 | factories of equal priority keep their registration order |
| Registry.Select | src/main/java/jp/ambrosoli/salmon/command/CommandExecutorRegistry.java:49-53 | an executor is always created by the first supported factory; with no supported factory (for instance an empty registry) the result is IllegalStateException |
| Registry.SelectStopsAtFirstAnswer | src/main/java/jp/ambrosoli/salmon/command/CommandExecutorRegistry.java:50-51 | the first factory that does not answer "unsupported" decides: its exception or its executor |
| Registry.PrefersLowestPriority | src/main/java/jp/ambrosoli/salmon/command/CommandExecutorRegistry.java:42-53 | on the sorted registry the chosen factory has the lowest priority value among the supported ones, and is the earliest registered among those |
| Registry.CommandExecutorRegistry.Get | src/main/java/jp/ambrosoli/salmon/command/CommandExecutorRegistry.java:49-53 | `get` is Select on the current registry, so the Select lemmas apply to it; on a sorted registry the executor comes from a supported factory with the lowest priority value, the earliest registered among equals |
| Registry.DefaultPriorityFactoryLosesOnWindows | src/main/java/jp/ambrosoli/salmon/command/CommandExecutorFactory.java:33-42 | a caller's factory with the default priority, registered after the MS-DOS factory, sorts after it and is not chosen on Windows; priority 0 puts it first |
| Registry.EarlierCallerFactoryWinsTies | src/main/java/jp/ambrosoli/salmon/command/CommandExecutorRegistry.java:35-53 | a default-priority caller factory registered before the MS-DOS one stays ahead of it after the stable sort and is chosen whenever it is supported |
| Registry.CommandExecutorRegistry.constructor | src/main/java/jp/ambrosoli/salmon/command/CommandExecutorRegistry.java:25 | the registry starts empty |
| Registry.CommandExecutorRegistry.RegisterFactory | src/main/java/jp/ambrosoli/salmon/command/CommandExecutorRegistry.java:35-40 | appends every argument, then sorts; the registry stays sorted, gains exactly the arguments and loses nothing, and equal priorities keep their order |
| Initializer.SalmonInitializer.constructor | src/main/java/jp/ambrosoli/salmon/config/SalmonInitializer.java:8-13 | not yet initialized |
| Initializer.SalmonInitializer.Initialize | src/main/java/jp/ambrosoli/salmon/config/SalmonInitializer.java:15-30 | a later call changes nothing; the first loads the config, then registers one MS-DOS factory (the registry gains exactly that entry and is re-sorted) and sets `initialized`; a config exception skips both, so the next call retries |
| Initializer.RegistrationAddsOneMSDos | src/main/java/jp/ambrosoli/salmon/config/SalmonInitializer.java:28-30 | for any registry, the first initialization adds exactly one MS-DOS factory to the factories already there and leaves the registry sorted by priority |
| Config.InitializeSpec | src/main/java/jp/ambrosoli/salmon/config/SalmonConfig.java:12-29 | `prop` is a fresh table holding the class-path resource's entries, else the shipped default's; with neither, `load(null)` raises NullPointerException and the table stays empty |
| Config.GetProperty | src/main/java/jp/ambrosoli/salmon/config/SalmonConfig.java:32 | the entry for the key, or the default value |
| Config.AutoMSDosOf | src/main/java/jp/ambrosoli/salmon/config/SalmonConfig.java:31-33 | true exactly when `prop` is set and holds an auto.msdos value that is "true" in any case |
| Config.ParseBooleanIsLowerTrue | src/main/java/jp/ambrosoli/salmon/config/SalmonConfig.java:32 | Boolean.valueOf accepts exactly the strings that lower-case to "true" |
| Config.FalseIsNotTrue | src/main/java/jp/ambrosoli/salmon/config/SalmonConfig.java:32 | the default "false" reads as false |
| Config.AutoMSDosSettings | src/test/java/jp/ambrosoli/salmon/config/SalmonConfigTest.java:21-68 | "true" and "TRUE" switch the setting on; a missing key, an unparseable value or a null `prop` leaves it off |
| Config.PrimaryResourceWins | src/main/java/jp/ambrosoli/salmon/config/SalmonConfig.java:14-22 | a class-path resource wins, even one whose reading fails |
| Config.NoResourceRaises | src/main/java/jp/ambrosoli/salmon/config/SalmonConfig.java:25-29 | without any resource initialize throws NullPointerException and the setting reads as off |
| Config.SalmonConfig.constructor | src/main/java/jp/ambrosoli/salmon/config/SalmonConfig.java:10 | `prop` starts null |
| Config.SalmonConfig.Initialize | src/main/java/jp/ambrosoli/salmon/config/SalmonConfig.java:12-29 | `prop` and the outcome are those of `InitializeSpec` |
| Config.SalmonConfig.IsAutoMSDos | src/main/java/jp/ambrosoli/salmon/config/SalmonConfig.java:31-33 | equals `AutoMSDosOf(prop)` |
| StringUtil.IsEmpty | src/main/java/jp/ambrosoli/salmon/utils/StringUtil.java:23-25 | true exactly for null or the empty string |
| StringUtil.IsNotEmpty | src/main/java/jp/ambrosoli/salmon/utils/StringUtil.java:36-38 | the negation of isEmpty |
| StringUtil.Chomp | src/main/java/jp/ambrosoli/salmon/utils/StringUtil.java:40-53 | the documented chomp: null for null; otherwise a prefix of the value at most two characters shorter |
| StringUtil.ChompRemovesOneLineBreak | src/main/java/jp/ambrosoli/salmon/utils/StringUtil.java:42-43 | removes exactly one trailing CRLF, CR or LF; keeps a value that does not end in one |
| StringUtil.ChompRemovesOnlyALineBreak | src/main/java/jp/ambrosoli/salmon/utils/StringUtil.java:42-43 | what is removed is "", CR, LF or CRLF, and a value ending in CR or LF always changes |
| StringUtil.MatchAt | src/main/java/jp/ambrosoli/salmon/utils/StringUtil.java:54 | a match of the pattern at a position spans one or two characters |
| StringUtil.FindFrom | src/main/java/jp/ambrosoli/salmon/utils/StringUtil.java:54 | a found match lies at or after the start and is a match there |
| StringUtil.FindFromIsLeftmost | src/main/java/jp/ambrosoli/salmon/utils/StringUtil.java:54 | the search finds the leftmost match, and finds nothing exactly when there is no match |
| StringUtil.RegexChomp | src/main/java/jp/ambrosoli/salmon/utils/StringUtil.java:50-55 | chomp as written: null for null; at most two characters shorter |
| StringUtil.RegexChompKeepsUnbrokenEnd | src/main/java/jp/ambrosoli/salmon/utils/StringUtil.java:54 | a value whose last two characters are not line terminators is kept, as documented |
| StringUtil.RegexChompRemovesSimpleLineBreak | src/main/java/jp/ambrosoli/salmon/utils/StringUtil.java:54 | one trailing CR, LF or CRLF after an ordinary character is removed, as documented |
| StringUtil.RegexChompRemovesLastOfRepeated | src/main/java/jp/ambrosoli/salmon/utils/StringUtil.java:54 | of two equal trailing line breaks only the last is removed, as documented |
| StringUtil.ChompTestCasesUnchanged | src/test/java/jp/ambrosoli/salmon/utils/StringUtilTest.java:110-144 | null, "" and "hoge" are kept by both models |
| StringUtil.ChompTestCasesLeadingAndInner | src/test/java/jp/ambrosoli/salmon/utils/StringUtilTest.java:182-252 | "\rhoge", "\nhoge", "\r\nhoge", "ho\rge", "ho\nge" and "ho\r\nge", with a line break only at the start or inside, are kept by both models |
| StringUtil.ChompTestCasesFinal | src/test/java/jp/ambrosoli/salmon/utils/StringUtilTest.java:146-180 | "hoge\r", "hoge\n" and "hoge\r\n" lose their final line break in both models |
| StringUtil.ChompTestCasesEveryPosition | src/test/java/jp/ambrosoli/salmon/utils/StringUtilTest.java:254-288 | "\rho\rge\r", "\nho\nge\n" and "\r\nho\r\nge\r\n" lose only their final line break in both models |
| StringUtil.ChompTestCasesRepeated | src/test/java/jp/ambrosoli/salmon/utils/StringUtilTest.java:290-324 | "hoge\r\r", "hoge\n\n" and "hoge\r\n\r\n" lose only the last break in both models |
| StringUtil.RegexChompRemovesInnerLineFeed | src/main/java/jp/ambrosoli/salmon/utils/StringUtil.java:54 | "a\n\r" becomes "a\r" as written, where the documented chomp gives "a\n" |
| StringUtil.RegexChompRemovesInnerCrLf | src/main/java/jp/ambrosoli/salmon/utils/StringUtil.java:54 | "a\r\n\n" becomes "a\n" as written, where the documented chomp gives "a\r\n" |
| PlatformUtil.LowerChar | src/main/java/jp/ambrosoli/salmon/utils/PlatformUtil.java:13 | maps A to Z to a to z and leaves every other character alone |
| PlatformUtil.ToLower | src/main/java/jp/ambrosoli/salmon/utils/PlatformUtil.java:13 | lower-cases character by character, keeping the length |
| PlatformUtil.IsWindowsOf | src/main/java/jp/ambrosoli/salmon/utils/PlatformUtil.java:11-14 | a null OS name raises NullPointerException; otherwise Windows if and only if the lower-cased name contains "windows" |
| PlatformUtil.NameContainingWindowsIsWindows | src/main/java/jp/ambrosoli/salmon/utils/PlatformUtil.java:13 | any name containing "windows" in any letter case is Windows |
| PlatformUtil.IsWindowsNameIgnoresCase | src/main/java/jp/ambrosoli/salmon/utils/PlatformUtil.java:13 | lower-casing the name first does not change the answer |
| PlatformUtil.WindowsTenIsWindows | src/test/java/jp/ambrosoli/salmon/utils/PlatformUtilTest.java:37-62 | "Windows 10" is Windows |
| PlatformUtil.ShortNameIsNotWindows | src/test/java/jp/ambrosoli/salmon/utils/PlatformUtilTest.java:83-108 | a name shorter than seven characters, such as "Linux", is not Windows |
| PlatformUtil.MacIsNotWindows | src/main/java/jp/ambrosoli/salmon/utils/PlatformUtil.java:13 | "Mac OS X" is not Windows |
| PlatformUtil.DevNullAndPathKeyAgree | src/main/java/jp/ambrosoli/salmon/utils/PlatformUtil.java:28-42 | "nul" goes with "Path" and "/dev/null" with "PATH", both on the one isWindows answer |
| PlatformUtil.CachedOsNameIsFrozen | src/main/java/jp/ambrosoli/salmon/utils/PlatformUtil.java:9-12 | once "os.name" is cached, a change of the system property does not change isWindows |
| PlatformUtil.Platform.constructor | src/main/java/jp/ambrosoli/salmon/utils/PlatformUtil.java:9 | the cache starts empty |
| PlatformUtil.Platform.Property | src/main/java/jp/ambrosoli/salmon/utils/PlatformUtil.java:12 | computeIfAbsent: the cached value if any; otherwise the system property, cached only when it is not null |
| PlatformUtil.Platform.IsWindows | src/main/java/jp/ambrosoli/salmon/utils/PlatformUtil.java:11-14 | `IsWindowsOf` of the value the cache hands out; the cache keeps every entry and gains at most "os.name" |
| PlatformUtil.Platform.IsUnix | src/main/java/jp/ambrosoli/salmon/utils/PlatformUtil.java:16-18 | the negation of isWindows, with its exception |
| PlatformUtil.Platform.LineSeparator | src/main/java/jp/ambrosoli/salmon/utils/PlatformUtil.java:20-22 | the cached "line.separator" |
| PlatformUtil.Platform.PathSeparator | src/main/java/jp/ambrosoli/salmon/utils/PlatformUtil.java:24-26 | the cached "path.separator" |
| PlatformUtil.Platform.DevNull | src/main/java/jp/ambrosoli/salmon/utils/PlatformUtil.java:28-34 | "nul" on Windows and "/dev/null" otherwise |
| PlatformUtil.Platform.PathKey | src/main/java/jp/ambrosoli/salmon/utils/PlatformUtil.java:36-42 | "Path" on Windows and "PATH" otherwise |

## Left out

- Executor.Execute: requires a synchronous request. The asynchronous branch (AbstractCommandExecutor.java:28-37) starts a thread and is concurrency; the `synchronized` modifiers are not modelled either.
- The operating system: `ProcessBuilder.start`, the waits, `destroyForcibly` and `exitValue` answer from a `ProcessScript`. JDK timeout-unit conversion is not modelled; neither is the fact that a negative timeout cancels even ":".
- The file system is the `FileSystem` oracle: canonicalisation, which may fail, and a set of existing files.
- `directory(Path)` is not modelled; it only converts the path with `toFile()`.
- The environment consumer is caller code: a function of the inherited environment. An exception thrown by it is not modelled.
- Handlers are identities whose behaviour is a `Behaviour` function of the record they receive. A handler that throws an `Error` rather than an `Exception` escapes `fireEvent` at once; JVM errors are not modelled.
- The observer list of `CommandStateImpl` holds `CommandStateManager` objects, the only `Observer` the library has.
- The `getState` and `isHandled` getters of `CommandStateManager` are not separate members; the model reads the fields.
- Message text (`Messages`, ResourceBundle and MessageFormat) is the message key; the TimeoutException is its time and unit.
- A resource bundle that is missing (MissingResourceException) is not modelled.
- The properties file format and class-path lookup: a resource is its entries, and `Unreadable` is an IOException after some entries were loaded.
- PlatformUtil.ToLower: folds only A to Z; Java's locale-sensitive Unicode `toLowerCase` is not modelled.
- Config.EqualsIgnoreCase: folds only A to Z, which decides every string against "true".
- The system properties are a parameter of each PlatformUtil call rather than JVM state.
- Registry.CommandExecutorRegistry.RegisterFactory: the ArrayList is sorted in place by TimSort; the model is a stable insertion sort on a sequence. The properties proved (ascending, permutation, stable) determine the result.
- The factories are values, so a factory registered twice is two equal entries; object identity is not modelled.
- The executors a caller's factory creates are identities; their `execute` is caller code.
- `CommandBuilderImpl.execute` and the facades `Salmon` and `CommandBuilderFactory` only delegate to `CommandExecutorRegistry.get().execute`.
- `IOUtil` is stream plumbing and is not part of this model.
- Builder.CommandBuilderImpl.Directory: takes a `File`, so the NullPointerException of `directory((File) null)` (CommandBuilderImpl.java:124) is not captured.
- Builder.CommandBuilderImpl.DirectoryNamed: takes a `string`, so the NullPointerException of `new File(null)` for `directory((String) null)` (CommandBuilderImpl.java:113) is not captured.
- Builder.CommandBuilderImpl.Options: `options(String...)` with a null array throws a NullPointerException in `Arrays.asList` (CommandBuilderImpl.java:48); the model takes an optional sequence for both overloads and does not capture that exception.
- Registry.Select: a factory's `create()` always returns an executor; an exception thrown by a caller factory's `create()`, which would propagate out of `get` (CommandExecutorRegistry.java:50), is not captured. Registry.CommandExecutorRegistry.Get inherits this.
- Option elements are strings; a null element inside the options collection is not modelled.
- Integer widths: `long` timeouts and `Integer` exit codes are unbounded integers, since the core does no arithmetic on them.

## Findings

| source | as written | input that shows it | evidently intended | confidence | as-written member | corrected member |
|---|---|---|---|---|---|---|
| src/main/java/jp/ambrosoli/salmon/utils/StringUtil.java:54 | `replaceFirst` with a pattern ending in `$`, which also matches before a final line terminator | "a\n\r": the LF before the final CR matches, so the result is "a\r"; likewise "a\r\n\n" gives "a\n" | remove the one trailing CR, LF or CRLF, as lines 42-43 document: "a\n" and "a\r\n" | not executed | StringUtil.RegexChompRemovesInnerLineFeed | StringUtil.ChompRemovesOneLineBreak |
