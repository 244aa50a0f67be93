/** CommandExecutorRegistry: the registered executor factories, kept sorted by
    priority value, and the choice of the executor `CommandBuilder.execute`
    uses. */
module Registry {
  import opened Base
  import opened Command

  /** Ascending priority values. */
  ghost predicate SortedByPriority(s: seq<Factory>)
  {
    forall i, j :: 0 <= i < j < |s| ==> s[i].Priority() <= s[j].Priority()
  }

  /** The factories of priority value `p`, in their order in `s`. */
  function OfPriority(s: seq<Factory>, p: int): (r: seq<Factory>)
    ensures |r| <= |s|
  {
    if s == [] then []
    else OfPriority(s[..|s| - 1], p) + (if s[|s| - 1].Priority() == p then [s[|s| - 1]] else [])
  }

  /** Puts `x` after every element of `t` whose priority value is not above its own. */
  function InsertStable(t: seq<Factory>, x: Factory): (r: seq<Factory>)
    ensures |r| == |t| + 1
    decreases |t|
  {
    if t == [] || t[|t| - 1].Priority() <= x.Priority() then t + [x]
    else InsertStable(t[..|t| - 1], x) + [t[|t| - 1]]
  }

  /** `List.sort(Comparator.comparing(getPriority))`: a stable sort by priority
      value, here as insertion sort; its three properties below determine it. */
  function SortByPriority(s: seq<Factory>): (r: seq<Factory>)
    ensures |r| == |s|
  {
    if s == [] then [] else InsertStable(SortByPriority(s[..|s| - 1]), s[|s| - 1])
  }

  lemma {:induction false} InsertStablePermutes(t: seq<Factory>, x: Factory)
    ensures multiset(InsertStable(t, x)) == multiset(t) + multiset{x}
    decreases |t|
  {
    if t == [] || t[|t| - 1].Priority() <= x.Priority() {
    } else {
      var init := t[..|t| - 1];
      InsertStablePermutes(init, x);
      assert t == init + [t[|t| - 1]];
    }
  }

  lemma {:induction false} InsertStableSorted(t: seq<Factory>, x: Factory)
    requires SortedByPriority(t)
    ensures SortedByPriority(InsertStable(t, x))
    decreases |t|
  {
    if t == [] || t[|t| - 1].Priority() <= x.Priority() {
    } else {
      var init := t[..|t| - 1];
      var last := t[|t| - 1];
      InsertStableSorted(init, x);
      InsertStablePermutes(init, x);
      var front := InsertStable(init, x);
      forall i | 0 <= i < |front|
        ensures front[i].Priority() <= last.Priority()
      {
        assert front[i] in multiset(init) + multiset{x};
        if front[i] in multiset(init) {
          var k :| 0 <= k < |init| && init[k] == front[i];
          assert t[k] == init[k];
        }
      }
    }
  }

  lemma OfPriorityAppend(s: seq<Factory>, x: Factory, p: int)
    ensures OfPriority(s + [x], p) == OfPriority(s, p) + (if x.Priority() == p then [x] else [])
  {
    assert (s + [x])[..|s|] == s;
  }

  /** Inserting `x` keeps the order of each priority's factories and puts `x`
      last among those of its own priority, whether or not `t` is sorted. */
  lemma {:induction false} InsertStableKeepsOrder(t: seq<Factory>, x: Factory, p: int)
    ensures OfPriority(InsertStable(t, x), p) == OfPriority(t, p) + (if x.Priority() == p then [x] else [])
    decreases |t|
  {
    if t == [] || t[|t| - 1].Priority() <= x.Priority() {
      OfPriorityAppend(t, x, p);
    } else {
      var init := t[..|t| - 1];
      var last := t[|t| - 1];
      var front := InsertStable(init, x);
      InsertStableKeepsOrder(init, x, p);
      assert InsertStable(t, x) == front + [last];
      OfPriorityAppend(front, last, p);
      OfPriorityAppend(init, last, p);
      assert init + [last] == t;
      if x.Priority() == p {
        assert last.Priority() != p;
        assert OfPriority(t, p) == OfPriority(init, p);
        assert OfPriority(InsertStable(t, x), p) == OfPriority(init, p) + [x];
      } else {
        assert OfPriority(front, p) == OfPriority(init, p);
      }
    }
  }

  /** The registry order is ascending in priority value. */
  lemma {:induction false} SortByPrioritySorts(s: seq<Factory>)
    ensures SortedByPriority(SortByPriority(s))
  {
    if s != [] {
      SortByPrioritySorts(s[..|s| - 1]);
      InsertStableSorted(SortByPriority(s[..|s| - 1]), s[|s| - 1]);
    }
  }

  /** Sorting neither loses nor adds a factory. */
  lemma {:induction false} SortByPriorityPermutes(s: seq<Factory>)
    ensures multiset(SortByPriority(s)) == multiset(s)
  {
    if s != [] {
      var init := s[..|s| - 1];
      SortByPriorityPermutes(init);
      InsertStablePermutes(SortByPriority(init), s[|s| - 1]);
      assert s == init + [s[|s| - 1]];
    }
  }

  /** Factories of equal priority keep their registration order. */
  lemma {:induction false} SortByPriorityIsStable(s: seq<Factory>, p: int)
    ensures OfPriority(SortByPriority(s), p) == OfPriority(s, p)
  {
    if s != [] {
      var init := s[..|s| - 1];
      SortByPriorityIsStable(init, p);
      InsertStableKeepsOrder(SortByPriority(init), s[|s| - 1], p);
    }
  }

  /** isSupported: the MS-DOS factory asks PlatformUtil.isWindows, whose answer
      is `windows`; a caller's factory answers `custom` for its id. */
  function IsSupported(f: Factory, windows: Result<bool>, custom: nat -> Result<bool>): Result<bool>
  {
    match f
    case MSDosCommandExecutorFactory => windows
    case CustomFactory(id, _) => custom(id)
  }

  /** Factory `k` is supported and every factory before it is not. */
  predicate FirstSupported(factories: seq<Factory>, windows: Result<bool>, custom: nat -> Result<bool>, k: int)
  {
    0 <= k < |factories| && IsSupported(factories[k], windows, custom) == Success(true) &&
    forall i :: 0 <= i < k ==> IsSupported(factories[i], windows, custom) == Success(false)
  }

  /** `registry.stream().filter(isSupported).map(create).findFirst()`, or the
      IllegalStateException of `orElseThrow`. The stream asks the factories in
      order and stops at the first that is supported; an exception of
      isSupported ends it. */
  function Select(factories: seq<Factory>, windows: Result<bool>, custom: nat -> Result<bool>): (r: Result<CommandExecutor>)
    ensures r.Success? ==> exists k :: FirstSupported(factories, windows, custom, k) && r.value == factories[k].Create()
    ensures (forall i :: 0 <= i < |factories| ==> IsSupported(factories[i], windows, custom) == Success(false)) ==>
      r == Failure(IllegalState(ExecutorNotFound))
  {
    if factories == [] then Failure(IllegalState(ExecutorNotFound))
    else
      match IsSupported(factories[0], windows, custom)
      case Failure(e) => Failure(e)
      case Success(true) =>
        assert FirstSupported(factories, windows, custom, 0);
        Success(factories[0].Create())
      case Success(false) =>
        var rest := Select(factories[1..], windows, custom);
        assert rest.Success? ==> exists k :: FirstSupported(factories, windows, custom, k) && rest.value == factories[k].Create() by {
          if rest.Success? {
            var k :| FirstSupported(factories[1..], windows, custom, k) && rest.value == factories[1..][k].Create();
            assert forall i :: 1 <= i < k + 1 ==> factories[i] == factories[1..][i - 1];
            assert FirstSupported(factories, windows, custom, k + 1);
          }
        }
        rest
  }

  /** The first factory that answers anything but "not supported" decides:
      its exception, or its executor. */
  lemma {:induction false} SelectStopsAtFirstAnswer(factories: seq<Factory>, windows: Result<bool>, custom: nat -> Result<bool>, k: nat)
    requires k < |factories|
    requires forall i :: 0 <= i < k ==> IsSupported(factories[i], windows, custom) == Success(false)
    requires IsSupported(factories[k], windows, custom) != Success(false)
    ensures var a := IsSupported(factories[k], windows, custom);
      Select(factories, windows, custom) == if a.Failure? then Failure(a.error) else Success(factories[k].Create())
  {
    if k > 0 {
      assert IsSupported(factories[0], windows, custom) == Success(false);
      SelectStopsAtFirstAnswer(factories[1..], windows, custom, k - 1);
    }
  }

  /** Factory `k` has the lowest priority value of the supported factories and
      is the earliest registered among those of that value. */
  ghost predicate LowestSupported(factories: seq<Factory>, windows: Result<bool>, custom: nat -> Result<bool>, k: int)
    requires 0 <= k < |factories|
  {
    forall j :: 0 <= j < |factories| && IsSupported(factories[j], windows, custom) == Success(true) ==>
      factories[k].Priority() <= factories[j].Priority() &&
      (factories[j].Priority() == factories[k].Priority() ==> k <= j)
  }

  /** With a sorted registry, the executor get creates comes from a supported
      factory of lowest priority value, and among those from the one registered
      first. */
  lemma PrefersLowestPriority(factories: seq<Factory>, windows: Result<bool>, custom: nat -> Result<bool>, e: CommandExecutor)
    requires SortedByPriority(factories)
    requires Select(factories, windows, custom) == Success(e)
    ensures exists k :: (FirstSupported(factories, windows, custom, k) && e == factories[k].Create() &&
      LowestSupported(factories, windows, custom, k))
  {
    var k :| FirstSupported(factories, windows, custom, k) && e == factories[k].Create();
    forall j | 0 <= j < |factories| && IsSupported(factories[j], windows, custom) == Success(true)
      ensures k <= j
    {
    }
  }

  /** A caller's factory that keeps the default priority, registered after the
      library has registered its MS-DOS factory, is never chosen on Windows:
      it ties with the MS-DOS factory and sorts after it. A caller's factory
      needs a priority value below 1 to be chosen first. */
  lemma DefaultPriorityFactoryLosesOnWindows(id: nat, custom: nat -> Result<bool>)
    ensures SortByPriority([MSDosCommandExecutorFactory] + [CustomFactory(id, DEFAULT_PRIORITY)]) ==
      [MSDosCommandExecutorFactory, CustomFactory(id, DEFAULT_PRIORITY)]
    ensures Select([MSDosCommandExecutorFactory, CustomFactory(id, DEFAULT_PRIORITY)], Success(true), custom) ==
      Success(MSDosCommandExecutor)
    ensures SortByPriority([MSDosCommandExecutorFactory] + [CustomFactory(id, 0)]) ==
      [CustomFactory(id, 0), MSDosCommandExecutorFactory]
  {
    var s := [MSDosCommandExecutorFactory] + [CustomFactory(id, DEFAULT_PRIORITY)];
    assert s[..1] == [MSDosCommandExecutorFactory];
    assert SortByPriority(s[..1]) == [MSDosCommandExecutorFactory] by {
      assert s[..1][..0] == [];
    }
    var t := [MSDosCommandExecutorFactory] + [CustomFactory(id, 0)];
    assert t[..1] == [MSDosCommandExecutorFactory];
    assert SortByPriority(t[..1]) == [MSDosCommandExecutorFactory] by {
      assert t[..1][..0] == [];
    }
    assert [MSDosCommandExecutorFactory][..0] == [];
  }

  /** The tie goes the other way for a caller's factory registered before the
      MS-DOS one: stability keeps it first, and it is chosen when it is
      supported. */
  lemma EarlierCallerFactoryWinsTies(id: nat, windows: Result<bool>, custom: nat -> Result<bool>)
    requires custom(id) == Success(true)
    ensures SortByPriority([CustomFactory(id, DEFAULT_PRIORITY)] + [MSDosCommandExecutorFactory]) ==
      [CustomFactory(id, DEFAULT_PRIORITY), MSDosCommandExecutorFactory]
    ensures Select([CustomFactory(id, DEFAULT_PRIORITY), MSDosCommandExecutorFactory], windows, custom) ==
      Success(CustomFactory(id, DEFAULT_PRIORITY).Create())
  {
    var s := [CustomFactory(id, DEFAULT_PRIORITY)] + [MSDosCommandExecutorFactory];
    assert s[..1] == [CustomFactory(id, DEFAULT_PRIORITY)];
    assert SortByPriority(s[..1]) == [CustomFactory(id, DEFAULT_PRIORITY)] by {
      assert s[..1][..0] == [];
    }
  }

  /** The static state of CommandExecutorRegistry. */
  class CommandExecutorRegistry {
    /** The list `registry`. */
    var registry: seq<Factory>

    ghost predicate Valid()
      reads this
    {
      SortedByPriority(registry)
    }

    constructor ()
      ensures registry == [] && Valid()
    {
      registry := [];
    }

    /** registerFactory: appends the factories, then sorts the whole list. */
    method RegisterFactory(factories: seq<Factory>)
      modifies this
      ensures registry == SortByPriority(old(registry) + factories)
      ensures Valid()
      ensures multiset(registry) == multiset(old(registry)) + multiset(factories)
      ensures forall p :: OfPriority(registry, p) == OfPriority(old(registry) + factories, p)
    {
      for i := 0 to |factories|
        invariant registry == old(registry) + factories[..i]
      {
        registry := registry + [factories[i]];
      }
      assert factories[..|factories|] == factories;
      var all := registry;
      registry := SortByPriority(all);
      SortByPrioritySorts(all);
      SortByPriorityPermutes(all);
      forall p
        ensures OfPriority(registry, p) == OfPriority(all, p)
      {
        SortByPriorityIsStable(all, p);
      }
    }

    /** get: Select on the current registry. On a valid registry a created
        executor comes from a supported factory with the lowest priority value,
        the earliest registered among equals. */
    function Get(windows: Result<bool>, custom: nat -> Result<bool>): (r: Result<CommandExecutor>)
      reads this
      ensures r == Select(registry, windows, custom)
      ensures Valid() && r.Success? ==> exists k :: (FirstSupported(registry, windows, custom, k) &&
        r.value == registry[k].Create() && LowestSupported(registry, windows, custom, k))
    {
      var r := Select(registry, windows, custom);
      assert Valid() && r.Success? ==> exists k :: (FirstSupported(registry, windows, custom, k) &&
        r.value == registry[k].Create() && LowestSupported(registry, windows, custom, k)) by {
        if Valid() && r.Success? {
          PrefersLowestPriority(registry, windows, custom, r.value);
        }
      }
      r
    }
  }
}
