/** CommandBuilderImpl: the fluent builder behind `Salmon.command`. Each call
    records one setting in the builder's CommandParameterImpl; only the
    constructor and `directory` check their argument. */
module Builder {
  import opened Base
  import opened Command
  import opened Lifecycle
  import opened Internal
  import opened StringUtil
  import opened PlatformUtil

  /** What the file system answers: `getCanonicalFile` (which may throw an
      IOException) and `exists` of the canonical file. */
  datatype FileSystem = FileSystem(canonical: File -> Result<File>, existing: set<File>)

  /** The check `directory(File)` makes: the canonical file, if it exists. An
      IOException of canonicalisation surfaces as an UncheckedIOException; a
      canonical file that does not exist as an IllegalArgumentException naming it. */
  function CheckDirectory(fs: FileSystem, directory: File): (r: Result<File>)
    ensures r.Success? <==> fs.canonical(directory).Success? && fs.canonical(directory).value in fs.existing
    ensures r.Success? ==> r.value == fs.canonical(directory).value
    ensures fs.canonical(directory).Failure? ==> r == Failure(UncheckedIO(fs.canonical(directory).error))
    ensures fs.canonical(directory).Success? && fs.canonical(directory).value !in fs.existing ==>
      r == Failure(IllegalArgument(DirectoryNotFound(fs.canonical(directory).value)))
  {
    match fs.canonical(directory)
    case Failure(e) => Failure(UncheckedIO(e))
    case Success(canonicalFile) =>
      if canonicalFile !in fs.existing then Failure(IllegalArgument(DirectoryNotFound(canonicalFile)))
      else Success(canonicalFile)
  }

  class CommandBuilderImpl {
    const parameter: CommandParameterImpl

    /** The field initialisation and `setCommand` of the constructor. */
    constructor Init(command: string)
      ensures fresh(parameter) && parameter.Value() == DefaultRequest.(command := Some(command))
    {
      var p := new CommandParameterImpl();
      p.SetCommand(Some(command));
      parameter := p;
    }

    /** `new CommandBuilderImpl(command)`: a null or empty command is refused
        with an IllegalArgumentException. */
    static method New(command: JString) returns (r: Result<CommandBuilderImpl>)
      ensures r.Failure? <==> IsEmpty(command)
      ensures r.Failure? ==> r.error == IllegalArgument(CommandEmpty)
      ensures r.Success? ==>
        fresh(r.value) && fresh(r.value.parameter) && r.value.parameter.Value() == DefaultRequest.(command := command)
    {
      if IsEmpty(command) {
        return Failure(IllegalArgument(CommandEmpty));
      }
      var b := new CommandBuilderImpl.Init(command.value);
      r := Success(b);
    }

    /** options(Collection), and options(String...) through `Arrays.asList`. */
    method Options(options: Option<seq<string>>) returns (r: CommandBuilderImpl)
      modifies parameter
      ensures r == this && parameter.Value() == old(parameter.Value()).(options := options)
    {
      parameter.SetOptions(options);
      r := this;
    }

    /** onDone: appends to the done handlers. */
    method OnDone(handler: Handler) returns (r: CommandBuilderImpl)
      modifies parameter
      ensures r == this
      ensures parameter.Value() == old(parameter.Value()).(doneHandlers := old(parameter.doneHandlers) + [handler])
    {
      parameter.AddDoneHandler(handler);
      r := this;
    }

    /** onReady, onRunning, onSucceeded, onFailed, onError and onCancelled: each
        adds `handler` for its own status. */
    method On(status: Status, handler: Handler) returns (r: CommandBuilderImpl)
      modifies parameter
      ensures r == this && parameter.Value() == WithHandler(old(parameter.Value()), status, handler)
    {
      parameter.SetOnStateChanged(status, handler);
      r := this;
    }

    /** successCondition */
    method SuccessCondition(condition: Option<IntPredicate>) returns (r: CommandBuilderImpl)
      modifies parameter
      ensures r == this && parameter.Value() == old(parameter.Value()).(successCondition := condition)
    {
      parameter.SetSuccessCondition(condition);
      r := this;
    }

    /** timeout(milliseconds) */
    method Timeout(milliseconds: int) returns (r: CommandBuilderImpl)
      modifies parameter
      ensures r == this
      ensures parameter.Value() == old(parameter.Value()).(timeout := milliseconds, timeoutUnit := Some(MILLISECONDS))
    {
      r := TimeoutIn(milliseconds, Some(MILLISECONDS));
    }

    /** timeout(time, unit) */
    method TimeoutIn(time: int, unit: Option<TimeUnit>) returns (r: CommandBuilderImpl)
      modifies parameter
      ensures r == this && parameter.Value() == old(parameter.Value()).(timeout := time, timeoutUnit := unit)
    {
      parameter.SetTimeout(time);
      parameter.SetTimeoutUnit(unit);
      r := this;
    }

    /** directory(File): records the canonical file after CheckDirectory; a
        refused directory leaves the request unchanged. */
    method Directory(directory: File, fs: FileSystem) returns (r: Result<CommandBuilderImpl>)
      modifies parameter
      ensures var check := CheckDirectory(fs, directory);
        (r.Success? <==> check.Success?) && (r.Failure? ==> r.error == check.error) &&
        (r.Success? ==> r.value == this && parameter.Value() == old(parameter.Value()).(directory := Some(check.value))) &&
        (r.Failure? ==> parameter.Value() == old(parameter.Value()))
    {
      var canonicalFile := fs.canonical(directory);
      if canonicalFile.Failure? {
        return Failure(UncheckedIO(canonicalFile.error));
      }
      if canonicalFile.value !in fs.existing {
        return Failure(IllegalArgument(DirectoryNotFound(canonicalFile.value)));
      }
      parameter.SetDirectory(Some(canonicalFile.value));
      r := Success(this);
    }

    /** directory(String): `new File(directory)`, then directory(File). */
    method DirectoryNamed(directory: string, fs: FileSystem) returns (r: Result<CommandBuilderImpl>)
      modifies parameter
      ensures var check := CheckDirectory(fs, File(directory));
        (r.Success? <==> check.Success?) && (r.Failure? ==> r.error == check.error) &&
        (r.Success? ==> r.value == this && parameter.Value() == old(parameter.Value()).(directory := Some(check.value))) &&
        (r.Failure? ==> parameter.Value() == old(parameter.Value()))
    {
      r := Directory(File(directory), fs);
    }

    /** environment */
    method Environment(consumer: Option<EnvConsumer>) returns (r: CommandBuilderImpl)
      modifies parameter
      ensures r == this && parameter.Value() == old(parameter.Value()).(environment := consumer)
    {
      parameter.SetEnvironment(consumer);
      r := this;
    }

    /** async */
    method Async(async: bool) returns (r: CommandBuilderImpl)
      modifies parameter
      ensures r == this && parameter.Value() == old(parameter.Value()).(async := async)
    {
      parameter.SetAsync(async);
      r := this;
    }

    /** redirectStdout */
    method RedirectStdout(redirect: Option<File>) returns (r: CommandBuilderImpl)
      modifies parameter
      ensures r == this && parameter.Value() == old(parameter.Value()).(redirectOutput := redirect)
    {
      parameter.SetRedirectOutput(redirect);
      r := this;
    }

    /** redirectStderr */
    method RedirectStderr(redirect: Option<File>) returns (r: CommandBuilderImpl)
      modifies parameter
      ensures r == this && parameter.Value() == old(parameter.Value()).(redirectError := redirect)
    {
      parameter.SetRedirectError(redirect);
      r := this;
    }

    /** redirectStdoutToDevNull: the null device of the platform; the
        NullPointerException of an unknown platform propagates. */
    method RedirectStdoutToDevNull(platform: Platform, system: map<string, string>) returns (r: Result<CommandBuilderImpl>)
      modifies parameter, platform
      ensures var w := IsWindowsOf(CachedValue(old(platform.cache), system, "os.name"));
        (r.Failure? <==> w.Failure?) && (r.Failure? ==> r.error == w.error) &&
        (r.Success? ==> r.value == this && parameter.Value() == old(parameter.Value()).(redirectOutput := Some(DevNullOf(w.value)))) &&
        (r.Failure? ==> parameter.Value() == old(parameter.Value()))
    {
      var devNull := platform.DevNull(system);
      if devNull.Failure? {
        return Failure(devNull.error);
      }
      parameter.SetRedirectOutput(Some(devNull.value));
      r := Success(this);
    }

    /** redirectStderrToDevNull */
    method RedirectStderrToDevNull(platform: Platform, system: map<string, string>) returns (r: Result<CommandBuilderImpl>)
      modifies parameter, platform
      ensures var w := IsWindowsOf(CachedValue(old(platform.cache), system, "os.name"));
        (r.Failure? <==> w.Failure?) && (r.Failure? ==> r.error == w.error) &&
        (r.Success? ==> r.value == this && parameter.Value() == old(parameter.Value()).(redirectError := Some(DevNullOf(w.value)))) &&
        (r.Failure? ==> parameter.Value() == old(parameter.Value()))
    {
      var devNull := platform.DevNull(system);
      if devNull.Failure? {
        return Failure(devNull.error);
      }
      parameter.SetRedirectError(Some(devNull.value));
      r := Success(this);
    }
  }
}
