/** AbstractCommandExecutor and MSDosCommandExecutor: how a request is turned
    into a ProcessBuilder, and the synchronous run of the process with its
    status notifications. */
module Executor {
  import opened Base
  import opened Command
  import opened Lifecycle
  import opened Jdk
  import opened Internal
  import opened Config

  /** The `setCommand` an executor uses: the one of AbstractCommandExecutor, or
      the override of MSDosCommandExecutor. */
  datatype Variant = Inherited | MSDos

  /** The options as the elements `addAll` appends. */
  function OptionArgs(options: Option<seq<string>>): (r: seq<JString>)
    ensures options.None? ==> r == []
    ensures options.Some? ==>
      |r| == |options.value| && forall i :: 0 <= i < |options.value| ==> r[i] == Some(options.value[i])
  {
    match options
    case None => []
    case Some(o) => seq(|o|, i requires 0 <= i < |o| => Some(o[i]))
  }

  /** The argument vector of AbstractCommandExecutor.setCommand. */
  function Argv(command: JString, options: Option<seq<string>>): seq<JString>
  {
    [command] + OptionArgs(options)
  }

  /** The argument vector of MSDosCommandExecutor.setCommand. */
  function MSDosArgv(autoMSDos: bool, command: JString, options: Option<seq<string>>): seq<JString>
  {
    (if autoMSDos then [Some("cmd"), Some("/c")] else []) + Argv(command, options)
  }

  /** The program is the command and the options follow it, in their order. */
  lemma ArgvLayout(command: JString, options: Option<seq<string>>)
    ensures var r := Argv(command, options);
      |r| >= 1 && r[0] == command && r[1..] == OptionArgs(options) &&
      (options.Some? ==>
        |r| == 1 + |options.value| &&
        forall i :: 1 <= i < |r| ==> r[i] == Some(options.value[i - 1]))
  {
    var r := Argv(command, options);
    assert r[1..] == OptionArgs(options);
  }

  /** With auto.msdos off the MS-DOS executor builds exactly the inherited
      argument vector; with it on, "cmd" "/c" and then the inherited one. */
  lemma MSDosArgvExtendsArgv(autoMSDos: bool, command: JString, options: Option<seq<string>>)
    ensures var r := MSDosArgv(autoMSDos, command, options);
      var a := Argv(command, options);
      (!autoMSDos ==> r == a) &&
      (autoMSDos ==> |r| == |a| + 2 && r[0] == Some("cmd") && r[1] == Some("/c") && r[2..] == a)
  {
    var r := MSDosArgv(autoMSDos, command, options);
    var a := Argv(command, options);
    if autoMSDos {
      assert r[2..] == a;
    } else {
      assert [] + a == a;
    }
  }

  /** The argument vector the variant's setCommand builds. */
  function ArgvOf(variant: Variant, autoMSDos: bool, req: Request): seq<JString>
  {
    match variant
    case Inherited => Argv(req.command, req.options)
    case MSDos => MSDosArgv(autoMSDos, req.command, req.options)
  }

  /** The environment setEnvironment leaves in the builder. */
  function EnvironmentOf(req: Request, inherited: map<string, string>): map<string, string>
  {
    match req.environment
    case None => inherited
    case Some(consumer) => consumer(inherited)
  }

  /** AbstractCommandExecutor.setCommand */
  method SetCommand(builder: ProcessBuilder, parameter: CommandParameterImpl)
    modifies builder`command
    ensures builder.command == Argv(parameter.command, parameter.options)
  {
    var command: seq<JString> := [];
    command := command + [parameter.command];
    var options := parameter.options;
    if options.Some? {
      command := command + OptionArgs(options);
    }
    builder.command := command;
  }

  /** MSDosCommandExecutor.setCommand */
  method MSDosSetCommand(builder: ProcessBuilder, parameter: CommandParameterImpl, config: SalmonConfig)
    modifies builder`command
    ensures builder.command == MSDosArgv(config.IsAutoMSDos(), parameter.command, parameter.options)
  {
    var command: seq<JString> := [];
    if config.IsAutoMSDos() {
      command := command + [Some("cmd")];
      command := command + [Some("/c")];
    }
    command := command + [parameter.command];
    var options := parameter.options;
    if options.Some? {
      command := command + OptionArgs(options);
    }
    builder.command := command;
  }

  /** AbstractCommandExecutor.setDirectory: only a non-null directory is set. */
  method SetDirectory(builder: ProcessBuilder, parameter: CommandParameterImpl)
    modifies builder`directory
    ensures builder.directory == if parameter.directory.Some? then parameter.directory else old(builder.directory)
  {
    var directory := parameter.directory;
    if directory.Some? {
      builder.directory := directory;
    }
  }

  /** AbstractCommandExecutor.setEnvironment: the consumer edits the builder's
      environment map. */
  method SetEnvironment(builder: ProcessBuilder, parameter: CommandParameterImpl)
    modifies builder`environment
    ensures builder.environment == EnvironmentOf(parameter.Value(), old(builder.environment))
  {
    var environment := parameter.environment;
    if environment.Some? {
      builder.environment := environment.value(builder.environment);
    }
  }

  /** AbstractCommandExecutor.setRedirectFile: only non-null files are set. */
  method SetRedirectFile(builder: ProcessBuilder, parameter: CommandParameterImpl)
    modifies builder`redirectOutput, builder`redirectError
    ensures builder.redirectOutput == if parameter.redirectOutput.Some? then parameter.redirectOutput else old(builder.redirectOutput)
    ensures builder.redirectError == if parameter.redirectError.Some? then parameter.redirectError else old(builder.redirectError)
  {
    var outputFile := parameter.redirectOutput;
    if outputFile.Some? {
      builder.redirectOutput := outputFile;
    }
    var errorFile := parameter.redirectError;
    if errorFile.Some? {
      builder.redirectError := errorFile;
    }
  }

  /** The try block of runProcess: start the process, then wait for it. */
  method Attempt(builder: ProcessBuilder, parameter: CommandParameterImpl, manager: CommandStateManager, behave: Behaviour)
    returns (out: Outcome, ghost destroyed: bool)
    requires manager.Valid() && manager.parameter == parameter
    modifies manager.state
    ensures manager.Valid()
    ensures var run := AttemptSpec(parameter.Value(), old(manager.state.Snap()), builder.os, behave);
      manager.state.Snap() == run.step.rec && manager.state.fired == old(manager.state.fired) + run.step.fired &&
      out == run.step.out && destroyed == run.destroyed
  {
    ghost var req := parameter.Value();
    ghost var fired0 := manager.state.fired;
    ghost var started := StartSpec(req, manager.state.Snap(), builder.os, behave);
    ghost var run := AttemptSpec(req, manager.state.Snap(), builder.os, behave);
    var process := manager.StartProcess(builder, behave);
    if process.Failure? {
      assert run == Run(started, false);
      return Raised(process.error), false;
    }
    assert run == AwaitSpec(req, started, builder.os, behave);
    ghost var fired1 := manager.state.fired;
    assert fired1 == fired0 + started.fired;
    ghost var w0 := AwaitSpec(req, Step(started.rec, [], started.out), builder.os, behave);
    AwaitLogs(req, started, builder.os, behave);
    out, destroyed := Await(process.value, parameter, manager, behave);
    assert manager.state.fired == fired1 + w0.step.fired;
  }

  /** What the wait after the start fires is logged after what the start fired. */
  lemma AwaitLogs(req: Request, started: Step, script: ProcessScript, behave: Behaviour)
    ensures var w := AwaitSpec(req, started, script, behave);
      var w0 := AwaitSpec(req, Step(started.rec, [], started.out), script, behave);
      w.step.rec == w0.step.rec && w.step.out == w0.step.out && w.destroyed == w0.destroyed &&
      w.step.fired == started.fired + w0.step.fired
  {
    var w0 := AwaitSpec(req, Step(started.rec, [], started.out), script, behave);
    assert started.fired + w0.step.fired == started.fired + ([] + w0.step.fired);
    assert [] + w0.step.fired == w0.step.fired;
    assert started.fired + [] == started.fired;
  }

  /** The wait of the try block, after `startProcess` returned `process`: wait,
      within the timeout if a unit is set, then report the end or, after
      destroying the process, the cancellation. */
  method Await(process: Process, parameter: CommandParameterImpl, manager: CommandStateManager, behave: Behaviour)
    returns (out: Outcome, ghost destroyed: bool)
    requires manager.Valid() && manager.parameter == parameter
    modifies manager.state, process
    ensures manager.Valid()
    ensures var run := AwaitSpec(parameter.Value(), Step(old(manager.state.Snap()), [], Normal), process.os, behave);
      manager.state.Snap() == run.step.rec && manager.state.fired == old(manager.state.fired) + run.step.fired &&
      out == run.step.out && destroyed == run.destroyed
  {
    destroyed := false;
    var unit := parameter.timeoutUnit;
    if unit.Some? {
      var exited := process.WaitForWithin(parameter.timeout, unit.value);
      if exited.Failure? {
        out := Raised(exited.error);
      } else if !exited.value {
        process.DestroyForcibly();
        destroyed := true;
        var exception := Timeout(parameter.timeout, unit.value);
        var code := process.ExitValue();
        if code.Failure? {
          out := Raised(code.error);
        } else {
          out := manager.NotifyCancelled(code.value, exception, behave);
        }
      } else {
        out := EndAfterWait(process, manager, behave);
      }
    } else {
      var waited := process.WaitFor();
      if waited.Raised? {
        out := waited;
      } else {
        out := EndAfterWait(process, manager, behave);
      }
    }
  }

  /** `manager.notifyEnded(process.exitValue())` */
  method EndAfterWait(process: Process, manager: CommandStateManager, behave: Behaviour) returns (out: Outcome)
    requires manager.Valid()
    modifies manager.state
    ensures manager.Valid()
    ensures var started := Step(old(manager.state.Snap()), [], Normal);
      var st := EndedAfterWait(manager.parameter.Value(), started, process.os, behave);
      manager.state.Snap() == st.rec && manager.state.fired == old(manager.state.fired) + st.fired && out == st.out
  {
    var code := process.ExitValue();
    if code.Failure? {
      out := Raised(code.error);
    } else {
      out := manager.NotifyEnded(code.value, behave);
    }
  }

  /** The catch clauses of runProcess, for the way the try block ended. */
  method Catch(attempt: Outcome, manager: CommandStateManager, behave: Behaviour) returns (out: Outcome)
    requires manager.Valid()
    modifies manager.state
    ensures manager.Valid()
    ensures var st := CatchSpec(manager.parameter.Value(), Step(old(manager.state.Snap()), [], attempt), behave);
      manager.state.Snap() == st.rec && manager.state.fired == old(manager.state.fired) + st.fired && out == st.out
  {
    out := attempt;
    if attempt.Raised? && !attempt.exc.EventHandling? {
      // notifyError(thrown); throw thrown;
      var error := manager.NotifyError(attempt.exc, behave);
      if error.Raised? {
        out := error;
      }
    }
  }

  /** The catch clauses log what they fire after what the try block fired. */
  lemma CatchLogs(req: Request, attempt: Step, behave: Behaviour)
    ensures var c := CatchSpec(req, attempt, behave);
      var c0 := CatchSpec(req, Step(attempt.rec, [], attempt.out), behave);
      c.rec == c0.rec && c.out == c0.out && c.fired == attempt.fired + c0.fired
  {
    if attempt.out.Raised? && !attempt.out.exc.EventHandling? {
      var error := ErrorSpec(req, attempt.rec, attempt.out.exc, behave);
      assert [] + error.fired == error.fired;
    } else {
      assert attempt.fired + [] == attempt.fired;
    }
  }

  /** runProcess in terms of its three parts, each starting from an empty log. */
  lemma RunSpecFromParts(req: Request, rec: Snapshot, script: ProcessScript, behave: Behaviour)
    ensures var a := AttemptSpec(req, rec, script, behave);
      var c0 := CatchSpec(req, Step(a.step.rec, [], a.step.out), behave);
      var f := FinishedSpec(req, c0.rec, behave);
      var run := RunSpec(req, rec, script, behave);
      run.step.rec == c0.rec && run.step.fired == a.step.fired + c0.fired + f.fired &&
      run.step.out == (if f.out.Raised? then f.out else c0.out) && run.destroyed == a.destroyed
  {
    var a := AttemptSpec(req, rec, script, behave);
    CatchLogs(req, a.step, behave);
  }

  /** AbstractCommandExecutor.runProcess: the try block, then the catch
      clauses, then `finally notifyFinished()`, whose exception replaces the
      one in flight. */
  method RunProcess(builder: ProcessBuilder, parameter: CommandParameterImpl, manager: CommandStateManager, behave: Behaviour)
    returns (out: Outcome, ghost destroyed: bool)
    requires manager.Valid() && manager.parameter == parameter
    modifies manager.state
    ensures manager.Valid()
    ensures var run := RunSpec(parameter.Value(), old(manager.state.Snap()), builder.os, behave);
      manager.state.Snap() == run.step.rec && manager.state.fired == old(manager.state.fired) + run.step.fired &&
      out == run.step.out && destroyed == run.destroyed
  {
    RunSpecFromParts(parameter.Value(), manager.state.Snap(), builder.os, behave);
    var attempt;
    attempt, destroyed := Attempt(builder, parameter, manager, behave);
    out := Catch(attempt, manager, behave);
    // finally
    var finished := manager.NotifyFinished(behave);
    if finished.Raised? {
      out := finished;
    }
  }

  /** Lines 23-27 of execute: `new ProcessBuilder()`, then the four setters of
      the executor, in order. */
  method Prepare(variant: Variant, parameter: CommandParameterImpl, config: SalmonConfig,
                 inherited: map<string, string>, os: ProcessScript)
    returns (builder: ProcessBuilder)
    ensures fresh(builder) && builder.os == os
    ensures builder.command == ArgvOf(variant, config.IsAutoMSDos(), parameter.Value())
    ensures builder.directory == parameter.directory
    ensures builder.environment == EnvironmentOf(parameter.Value(), inherited)
    ensures builder.redirectOutput == parameter.redirectOutput && builder.redirectError == parameter.redirectError
  {
    builder := new ProcessBuilder(os, inherited);
    match variant {
      case Inherited => SetCommand(builder, parameter);
      case MSDos => MSDosSetCommand(builder, parameter, config);
    }
    SetDirectory(builder, parameter);
    SetEnvironment(builder, parameter);
    SetRedirectFile(builder, parameter);
  }

  /** The synchronous AbstractCommandExecutor.execute: the manager (READY),
      the builder from the request, then runProcess. `record` is the record
      the handlers saw, also when `execute` throws; `launched` is the builder,
      made only when no READY handler threw. */
  method Execute(variant: Variant, parameter: CommandParameterImpl, config: SalmonConfig,
                 inherited: map<string, string>, os: ProcessScript, behave: Behaviour)
    returns (r: Result<CommandStateImpl>, ghost record: CommandStateImpl, ghost launched: ProcessBuilder?, ghost destroyed: bool)
    requires !parameter.async
    ensures var run := ExecuteSpec(parameter.Value(), os, behave);
      (r.Success? <==> run.step.out == Normal) && (r.Failure? ==> run.step.out == Raised(r.error)) &&
      record.Snap() == run.step.rec && record.fired == run.step.fired && destroyed == run.destroyed
    ensures fresh(record) && (r.Success? ==> r.value == record)
    ensures ReadySpec(parameter.Value(), behave).out.Raised? <==> launched == null
    ensures launched != null ==>
      fresh(launched) && launched.os == os &&
      launched.command == ArgvOf(variant, config.IsAutoMSDos(), parameter.Value()) &&
      launched.directory == parameter.directory &&
      launched.environment == EnvironmentOf(parameter.Value(), inherited) &&
      launched.redirectOutput == parameter.redirectOutput && launched.redirectError == parameter.redirectError
  {
    ghost var req := parameter.Value();
    ghost var ready := ReadySpec(req, behave);
    var manager, out := CommandStateManager.New(parameter, behave);
    record := manager.state;
    if out.Raised? {
      return Failure(out.exc), record, null, false;
    }
    var builder := Prepare(variant, parameter, config, inherited, os);
    launched := builder;
    ghost var run := RunSpec(req, ready.rec, os, behave);
    out, destroyed := RunProcess(builder, parameter, manager, behave);
    assert record.Snap() == run.step.rec && record.fired == ready.fired + run.step.fired && out == run.step.out;
    if out.Raised? {
      return Failure(out.exc), record, launched, destroyed;
    }
    r := Success(manager.state);
  }
}
