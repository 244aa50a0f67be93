/** The public types of the `command` package: the status of one invocation
    (CommandState.Status), the default success exit code, and the executor
    factories the registry chooses among. */
module Command {

  /** CommandState.Status */
  datatype Status = READY | RUNNING | SUCCEEDED | FAILED | ERROR | CANCELLED

  /** CommandState.RC_SUCCESS_DEFAULT */
  const RC_SUCCESS_DEFAULT: int := 0

  /** CommandExecutorFactory.DEFAULT_PRIORITY */
  const DEFAULT_PRIORITY: int := 1

  /** The executors a factory creates: the MS-DOS executor of the library, or
      one supplied by a caller's own factory. */
  datatype CommandExecutor = MSDosCommandExecutor | CustomExecutor(factoryId: nat)

  /** A registered CommandExecutorFactory. A caller's own factory keeps
      `DEFAULT_PRIORITY` unless it overrides `getPriority`. */
  datatype Factory = MSDosCommandExecutorFactory | CustomFactory(id: nat, priority: int)
  {
    /** getPriority. MSDosCommandExecutorFactory does not override it. */
    function Priority(): int
    {
      match this
      case MSDosCommandExecutorFactory => DEFAULT_PRIORITY
      case CustomFactory(_, p) => p
    }

    /** create */
    function Create(): CommandExecutor
    {
      match this
      case MSDosCommandExecutorFactory => MSDosCommandExecutor
      case CustomFactory(id, _) => CustomExecutor(id)
    }
  }

  /** The library's own factory takes the default priority 1, so it ties with
      any caller factory that keeps the default; it is not the 10 that the
      documentation of getPriority announces for preset factories. */
  lemma MSDosFactoryHasDefaultPriority()
    ensures MSDosCommandExecutorFactory.Priority() == DEFAULT_PRIORITY == 1
    ensures MSDosCommandExecutorFactory.Priority() != 10
    ensures MSDosCommandExecutorFactory.Create() == MSDosCommandExecutor
  {
  }
}
