/** The mutable objects of one invocation: the parameter that the builder
    fills in (CommandParameterImpl), the observable execution record
    (CommandStateImpl) and the observer that drives its status changes and
    fires the handlers (CommandStateManager). Every operation is proved to do
    what the corresponding function of module Lifecycle says. */
module Internal {
  import opened Base
  import opened Command
  import opened Event
  import opened Lifecycle
  import opened Jdk

  /** The parameter after `setOnStateChanged(s, h)`: `h` is appended to the
      handlers of `s` (the list is created when `s` had none), and every other
      status and every other field keep their values. */
  function WithHandler(req: Request, s: Status, h: Handler): (r: Request)
    ensures s in r.handlers && HandlersFor(r, s) == HandlersFor(req, s) + [h]
    ensures forall t :: t != s ==> (t in r.handlers <==> t in req.handlers) && HandlersFor(r, t) == HandlersFor(req, t)
    ensures r.(handlers := req.handlers) == req
  {
    req.(handlers := req.handlers[s := HandlersFor(req, s) + [h]])
  }

  /** CommandParameterImpl */
  class CommandParameterImpl {
    var command: JString
    var options: Option<seq<string>>
    var directory: Option<File>
    var timeout: int
    var timeoutUnit: Option<TimeUnit>
    var async: bool
    var redirectOutput: Option<File>
    var redirectError: Option<File>
    var environment: Option<EnvConsumer>
    var handlers: map<Status, seq<Handler>>
    var doneHandlers: seq<Handler>
    var successCondition: Option<IntPredicate>

    /** The fields as a value. */
    function Value(): Request
      reads this
    {
      Request(command, options, directory, timeout, timeoutUnit, async, redirectOutput, redirectError,
              environment, handlers, doneHandlers, successCondition)
    }

    /** The field initialisers: no command, no timeout unit, synchronous, no
        handlers, and the success condition `rc == RC_SUCCESS_DEFAULT`. */
    constructor ()
      ensures Value() == DefaultRequest
    {
      command := None;
      options := None;
      directory := None;
      timeout := 0;
      timeoutUnit := None;
      async := false;
      redirectOutput := None;
      redirectError := None;
      environment := None;
      handlers := map[];
      doneHandlers := [];
      successCondition := Some(DefaultSuccessCondition);
    }

    method SetCommand(command: JString)
      modifies this
      ensures Value() == old(Value()).(command := command)
    {
      this.command := command;
    }

    method SetOptions(options: Option<seq<string>>)
      modifies this
      ensures Value() == old(Value()).(options := options)
    {
      this.options := options;
    }

    method SetSuccessCondition(condition: Option<IntPredicate>)
      modifies this
      ensures Value() == old(Value()).(successCondition := condition)
    {
      successCondition := condition;
    }

    method SetTimeout(timeout: int)
      modifies this
      ensures Value() == old(Value()).(timeout := timeout)
    {
      this.timeout := timeout;
    }

    method SetTimeoutUnit(unit: Option<TimeUnit>)
      modifies this
      ensures Value() == old(Value()).(timeoutUnit := unit)
    {
      timeoutUnit := unit;
    }

    method SetDirectory(directory: Option<File>)
      modifies this
      ensures Value() == old(Value()).(directory := directory)
    {
      this.directory := directory;
    }

    method SetEnvironment(environment: Option<EnvConsumer>)
      modifies this
      ensures Value() == old(Value()).(environment := environment)
    {
      this.environment := environment;
    }

    method SetAsync(async: bool)
      modifies this
      ensures Value() == old(Value()).(async := async)
    {
      this.async := async;
    }

    method SetRedirectOutput(file: Option<File>)
      modifies this
      ensures Value() == old(Value()).(redirectOutput := file)
    {
      redirectOutput := file;
    }

    method SetRedirectError(file: Option<File>)
      modifies this
      ensures Value() == old(Value()).(redirectError := file)
    {
      redirectError := file;
    }

    /** `getDoneHandlers().add(handler)`: the list is handed out by reference
        and the builder appends to it. */
    method AddDoneHandler(handler: Handler)
      modifies this
      ensures Value() == old(Value()).(doneHandlers := old(doneHandlers) + [handler])
    {
      doneHandlers := doneHandlers + [handler];
    }

    /** `setOnStateChanged`: `computeIfAbsent(status, new ArrayList)` then `add`. */
    method SetOnStateChanged(status: Status, handler: Handler)
      modifies this
      ensures Value() == WithHandler(old(Value()), status, handler)
    {
      var list: seq<Handler>;
      if status in handlers {
        list := handlers[status];
      } else {
        list := [];
        handlers := handlers[status := list];
      }
      handlers := handlers[status := list + [handler]];
    }
  }

  /** The handler tables of the observers' parameters, in registration order. */
  ghost function HandlerTables(observers: seq<CommandStateManager>): (r: seq<map<Status, seq<Handler>>>)
    reads set o | o in observers :: o.parameter
    ensures |r| == |observers|
    ensures forall k :: 0 <= k < |observers| ==> r[k] == observers[k].parameter.handlers
    decreases |observers|
  {
    if observers == [] then [] else [observers[0].parameter.handlers] + HandlerTables(observers[1..])
  }

  /** `notifyObservers()` on record `rec`, for observers whose parameters hold
      the handler tables `tables`: each observer's `update` in registration
      order; the first one that throws ends the loop. */
  function NotifySpec(tables: seq<map<Status, seq<Handler>>>, rec: Snapshot, behave: Behaviour): (Outcome, seq<Invocation>)
    decreases |tables|
  {
    if tables == [] then (Normal, [])
    else
      var first := UpdateSpec(tables[0], rec, behave);
      if first.0.Raised? then first
      else
        var rest := NotifySpec(tables[1..], rec, behave);
        (rest.0, first.1 + rest.1)
  }

  /** One turn of the loop of `notifyObservers`. */
  lemma NotifyAdvance(tables: seq<map<Status, seq<Handler>>>, i: nat, rec: Snapshot, behave: Behaviour, log: seq<Invocation>)
    requires i < |tables|
    requires NotifySpec(tables, rec, behave) ==
      (NotifySpec(tables[i..], rec, behave).0, log + NotifySpec(tables[i..], rec, behave).1)
    ensures var u := UpdateSpec(tables[i], rec, behave);
      var rest := NotifySpec(tables[i + 1..], rec, behave);
      (u.0.Raised? ==> NotifySpec(tables, rec, behave) == (u.0, log + u.1)) &&
      (u.0.Normal? ==> NotifySpec(tables, rec, behave) == (rest.0, (log + u.1) + rest.1))
  {
    assert tables[i..][0] == tables[i] && tables[i..][1..] == tables[i + 1..];
    var u := UpdateSpec(tables[i], rec, behave);
    var rest := NotifySpec(tables[i + 1..], rec, behave);
    assert log + (u.1 + rest.1) == (log + u.1) + rest.1;
  }

  /** CommandStateImpl. The ghost field `fired` logs every handler invocation
      made with this record as the target. */
  class CommandStateImpl {
    var exitCode: Option<int>
    var stdout: Option<Stream>
    var stderr: Option<Stream>
    var thrown: Option<Exc>
    var status: Option<Status>
    var observers: seq<CommandStateManager>
    ghost var fired: seq<Invocation>

    /** What a handler can observe. */
    function Snap(): Snapshot
      reads this
    {
      Snapshot(status, exitCode, thrown, stdout, stderr)
    }

    constructor ()
      ensures Snap() == Fresh && observers == [] && fired == []
    {
      exitCode := None;
      stdout := None;
      stderr := None;
      thrown := None;
      status := None;
      observers := [];
      fired := [];
    }

    /** isReady, isRunning, isSucceeded, isFailed, isError and isCancelled:
        whether the record's status is the one each names. */
    predicate IsReady()
      reads this
      ensures IsReady() <==> Snap().status == Some(READY)
    {
      status == Some(READY)
    }
    predicate IsRunning()
      reads this
      ensures IsRunning() <==> Snap().status == Some(RUNNING)
    {
      status == Some(RUNNING)
    }
    predicate IsSucceeded()
      reads this
      ensures IsSucceeded() <==> Snap().status == Some(SUCCEEDED)
    {
      status == Some(SUCCEEDED)
    }
    predicate IsFailed()
      reads this
      ensures IsFailed() <==> Snap().status == Some(FAILED)
    {
      status == Some(FAILED)
    }
    predicate IsError()
      reads this
      ensures IsError() <==> Snap().status == Some(ERROR)
    {
      status == Some(ERROR)
    }
    predicate IsCancelled()
      reads this
      ensures IsCancelled() <==> Snap().status == Some(CANCELLED)
    {
      status == Some(CANCELLED)
    }

    method SetExitCode(exitCode: Option<int>)
      modifies this
      ensures Snap() == old(Snap()).(exitCode := exitCode)
      ensures observers == old(observers) && fired == old(fired)
    {
      this.exitCode := exitCode;
    }

    method SetStdout(stdout: Option<Stream>)
      modifies this
      ensures Snap() == old(Snap()).(stdout := stdout)
      ensures observers == old(observers) && fired == old(fired)
    {
      this.stdout := stdout;
    }

    method SetStderr(stderr: Option<Stream>)
      modifies this
      ensures Snap() == old(Snap()).(stderr := stderr)
      ensures observers == old(observers) && fired == old(fired)
    {
      this.stderr := stderr;
    }

    method SetThrown(thrown: Option<Exc>)
      modifies this
      ensures Snap() == old(Snap()).(thrown := thrown)
      ensures observers == old(observers) && fired == old(fired)
    {
      this.thrown := thrown;
    }

    method AddObserver(observer: CommandStateManager)
      modifies this
      ensures Snap() == old(Snap()) && fired == old(fired)
      ensures observers == old(observers) + [observer]
    {
      observers := observers + [observer];
    }

    /** `setStatus`: store the status, then notify the observers. */
    method SetStatus(status: Status, behave: Behaviour) returns (out: Outcome)
      modifies this
      ensures Snap() == old(Snap()).(status := Some(status)) && observers == old(observers)
      ensures var n := NotifySpec(HandlerTables(observers), Snap(), behave);
        out == n.0 && fired == old(fired) + n.1
    {
      this.status := Some(status);
      out := NotifyObservers(behave);
    }

    /** `notifyObservers`: each observer's `update`, in order; there is no
        catch, so the first observer that throws ends the loop. */
    method NotifyObservers(behave: Behaviour) returns (out: Outcome)
      modifies this`fired
      ensures var n := NotifySpec(HandlerTables(observers), Snap(), behave);
        out == n.0 && fired == old(fired) + n.1
    {
      ghost var rec := Snap();
      ghost var before := fired;
      ghost var log: seq<Invocation> := [];
      ghost var tables := HandlerTables(observers);
      ghost var whole := NotifySpec(tables, rec, behave);
      var list := observers;
      out := Normal;
      var i := 0;
      assert tables[i..] == tables;
      assert log + whole.1 == whole.1;
      while i < |list| && out.Normal?
        invariant 0 <= i <= |list|
        invariant Snap() == rec && observers == list
        invariant fired == before + log
        invariant out.Normal? ==> whole == (NotifySpec(tables[i..], rec, behave).0, log + NotifySpec(tables[i..], rec, behave).1)
        invariant out.Raised? ==> whole == (out, log)
        decreases |list| - i
      {
        NotifyAdvance(tables, i, rec, behave, log);
        ghost var u := UpdateSpec(tables[i], rec, behave);
        out := list[i].Update(this, behave);
        log := log + u.1;
        i := i + 1;
      }
      if out.Normal? {
        assert tables[i..] == [] && log + [] == log;
      }
    }
  }

  /** The record's only observer: it holds the parameter and fires the handlers
      registered for each status the record moves to. */
  class CommandStateManager {
    const parameter: CommandParameterImpl
    const state: CommandStateImpl
    /** Checked by every notify method; no code of the library ever sets it. */
    var handled: bool

    /** The manager is the record's only observer and has not been marked handled. */
    ghost predicate Valid()
      reads this, state
    {
      state.observers == [this] && !handled
    }

    /** The field initialisations and `state.addObserver(this)` of the constructor. */
    constructor Init(parameter: CommandParameterImpl)
      ensures this.parameter == parameter && fresh(state) && Valid()
      ensures state.Snap() == Fresh && state.fired == []
    {
      this.parameter := parameter;
      state := new CommandStateImpl();
      handled := false;
      new;
      state.AddObserver(this);
    }

    /** `new CommandStateManager(parameter)`: a fresh record moved to READY,
        which fires the READY handlers and may throw. */
    static method New(parameter: CommandParameterImpl, behave: Behaviour)
      returns (m: CommandStateManager, out: Outcome)
      ensures fresh(m) && fresh(m.state) && m.parameter == parameter && m.Valid()
      ensures var st := ReadySpec(parameter.Value(), behave);
        m.state.Snap() == st.rec && m.state.fired == st.fired && out == st.out
    {
      m := new CommandStateManager.Init(parameter);
      out := m.state.SetStatus(READY, behave);
      m.NotifyIsUpdate(m.state.Snap(), behave);
    }

    /** What `setStatus` on this manager's record amounts to. */
    lemma NotifyIsUpdate(rec: Snapshot, behave: Behaviour)
      requires Valid()
      ensures NotifySpec(HandlerTables(state.observers), rec, behave) == UpdateSpec(parameter.handlers, rec, behave)
    {
      var tables := HandlerTables(state.observers);
      var first := UpdateSpec(parameter.handlers, rec, behave);
      assert tables[0] == parameter.handlers && tables[1..] == [];
      assert NotifySpec(tables[1..], rec, behave) == (Normal, []);
      assert first.1 + [] == first.1;
    }

    /** `update`: fire the handlers registered for the record's status, if any. */
    method Update(observable: CommandStateImpl, behave: Behaviour) returns (out: Outcome)
      modifies observable`fired
      ensures var u := UpdateSpec(parameter.handlers, observable.Snap(), behave);
        out == u.0 && observable.fired == old(observable.fired) + u.1
    {
      var rec := observable.Snap();
      var status := rec.status;
      if status.Some? && status.value in parameter.handlers {
        ghost var invoked;
        out, invoked := FireEvent(parameter.handlers[status.value], rec, behave);
        observable.fired := observable.fired + invoked;
      } else {
        out := Normal;
      }
    }

    /** `setStatus` on the record, specialised to this manager. */
    method SetStatus(s: Status, behave: Behaviour) returns (out: Outcome)
      requires Valid()
      modifies state
      ensures Valid()
      ensures var st := SetStatusSpec(parameter.Value(), old(state.Snap()), s, behave);
        state.Snap() == st.rec && state.fired == old(state.fired) + st.fired && out == st.out
    {
      out := state.SetStatus(s, behave);
      NotifyIsUpdate(state.Snap(), behave);
    }

    /** `startProcess`: start the process, store its streams, move to RUNNING. */
    method StartProcess(builder: ProcessBuilder, behave: Behaviour) returns (r: Result<Process>)
      requires Valid()
      modifies state
      ensures Valid()
      ensures var st := StartSpec(parameter.Value(), old(state.Snap()), builder.os, behave);
        state.Snap() == st.rec && state.fired == old(state.fired) + st.fired &&
        (st.out == Normal <==> r.Success?) && (r.Failure? ==> st.out == Raised(r.error))
      ensures r.Success? ==> fresh(r.value) && r.value.os == builder.os && !r.value.destroyed
    {
      var started := builder.Start();
      if started.Failure? {
        return Failure(started.error);
      }
      var process := started.value;
      state.SetStdout(Some(process.InputStream()));
      state.SetStderr(Some(process.ErrorStream()));
      var out := SetStatus(RUNNING, behave);
      if out.Raised? {
        return Failure(out.exc);
      }
      r := Success(process);
    }

    /** `notifyEnded`: store the exit code, then move to the status the
        success condition decides; a condition that throws (or is null)
        leaves the status unchanged. */
    method NotifyEnded(exitCode: int, behave: Behaviour) returns (out: Outcome)
      requires Valid()
      modifies state
      ensures Valid()
      ensures var st := EndedSpec(parameter.Value(), old(state.Snap()), exitCode, behave);
        state.Snap() == st.rec && state.fired == old(state.fired) + st.fired && out == st.out
    {
      if handled {
        return Normal;
      }
      state.SetExitCode(Some(exitCode));
      match Judge(parameter.successCondition, exitCode)
      case Failure(e) =>
        out := Raised(e);
      case Success(s) =>
        out := SetStatus(s, behave);
    }

    /** `notifyError`: store the cause, move to ERROR. */
    method NotifyError(thrown: Exc, behave: Behaviour) returns (out: Outcome)
      requires Valid()
      modifies state
      ensures Valid()
      ensures var st := ErrorSpec(parameter.Value(), old(state.Snap()), thrown, behave);
        state.Snap() == st.rec && state.fired == old(state.fired) + st.fired && out == st.out
    {
      if handled {
        return Normal;
      }
      state.SetThrown(Some(thrown));
      out := SetStatus(ERROR, behave);
    }

    /** `notifyCancelled`: store the exit code and the cause, move to CANCELLED. */
    method NotifyCancelled(exitCode: int, thrown: Exc, behave: Behaviour) returns (out: Outcome)
      requires Valid()
      modifies state
      ensures Valid()
      ensures var st := CancelledSpec(parameter.Value(), old(state.Snap()), exitCode, thrown, behave);
        state.Snap() == st.rec && state.fired == old(state.fired) + st.fired && out == st.out
    {
      if handled {
        return Normal;
      }
      state.SetExitCode(Some(exitCode));
      state.SetThrown(Some(thrown));
      out := SetStatus(CANCELLED, behave);
    }

    /** `notifyFinished`: fire the done handlers on the record as it is. */
    method NotifyFinished(behave: Behaviour) returns (out: Outcome)
      requires Valid()
      modifies state`fired
      ensures Valid()
      ensures var st := FinishedSpec(parameter.Value(), old(state.Snap()), behave);
        state.Snap() == st.rec && state.fired == old(state.fired) + st.fired && out == st.out
    {
      ghost var invoked;
      out, invoked := FireEvent(parameter.doneHandlers, state.Snap(), behave);
      state.fired := state.fired + invoked;
    }
  }

  /** The six status predicates of CommandStateImpl: at most one holds, and
      exactly one once a status has been set. */
  lemma StatusPredicatesExclusive(state: CommandStateImpl)
    ensures var flags := [state.IsReady(), state.IsRunning(), state.IsSucceeded(),
                          state.IsFailed(), state.IsError(), state.IsCancelled()];
      (state.status.Some? <==> exists i :: 0 <= i < 6 && flags[i]) &&
      forall i, j :: 0 <= i < j < 6 && flags[i] ==> !flags[j]
  {
    var flags := [state.IsReady(), state.IsRunning(), state.IsSucceeded(),
                  state.IsFailed(), state.IsError(), state.IsCancelled()];
    if state.status.Some? {
      var k := match state.status.value
        case READY => 0 case RUNNING => 1 case SUCCEEDED => 2
        case FAILED => 3 case ERROR => 4 case CANCELLED => 5;
      assert flags[k];
    }
  }
}
