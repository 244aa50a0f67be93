/** SalmonInitializer: loads the settings and registers the library's MS-DOS
    executor factory, once. */
module Initializer {
  import opened Base
  import opened Command
  import opened Config
  import opened Registry

  /** The single instance held by SalmonInitializer. */
  class SalmonInitializer {
    var initialized: bool

    constructor ()
      ensures !initialized
    {
      initialized := false;
    }

    /** initialize, that is runOnlyOnce on the single instance: the first call
        initializes SalmonConfig, registers a new MSDosCommandExecutorFactory and
        records that it ran; later calls do nothing. An exception of
        SalmonConfig.initialize ends the call before the registration, so the
        next call tries again. */
    method Initialize(config: SalmonConfig, registry: CommandExecutorRegistry, primary: Resource, fallback: Resource)
      returns (out: Outcome)
      modifies this, config, registry
      ensures old(initialized) ==>
        out == Normal && initialized && config.prop == old(config.prop) && registry.registry == old(registry.registry)
      ensures !old(initialized) ==> var spec := InitializeSpec(primary, fallback);
        config.prop == Some(spec.0) && out == spec.1 &&
        (out.Raised? ==> !initialized && registry.registry == old(registry.registry)) &&
        (out.Normal? ==>
          initialized && registry.registry == SortByPriority(old(registry.registry) + [MSDosCommandExecutorFactory]) &&
          multiset(registry.registry) == multiset(old(registry.registry)) + multiset{MSDosCommandExecutorFactory})
      ensures old(registry.Valid()) ==> registry.Valid()
    {
      if initialized {
        return Normal;
      }
      out := config.Initialize(primary, fallback);
      if out.Raised? {
        return;
      }
      // registCommandExecutorFactory
      registry.RegisterFactory([MSDosCommandExecutorFactory]);
      RegistrationAddsOneMSDos(old(registry.registry));
      initialized := true;
    }
  }

  /** The registration of the first initialization adds exactly one MS-DOS
      factory to whatever the registry held, and keeps the registry sorted. */
  lemma RegistrationAddsOneMSDos(registry: seq<Factory>)
    ensures var after := SortByPriority(registry + [MSDosCommandExecutorFactory]);
      multiset(after) == multiset(registry) + multiset{MSDosCommandExecutorFactory} &&
      multiset(after)[MSDosCommandExecutorFactory] == multiset(registry)[MSDosCommandExecutorFactory] + 1 &&
      SortedByPriority(after)
  {
    var all := registry + [MSDosCommandExecutorFactory];
    SortByPriorityPermutes(all);
    SortByPrioritySorts(all);
  }
}
