/** The execution request and the execution record as values, and the
    reference semantics of one synchronous run: each operation of
    CommandStateManager and the try/catch/finally of
    AbstractCommandExecutor.runProcess as a function from the record before to
    the record after, the handler invocations made, and how the call ends.

    The classes of module Internal and the methods of module Executor are proved
    to do exactly what these functions say; the properties of a run are proved
    here, once, about the functions. */
module Lifecycle {
  import opened Base
  import opened Command
  import opened Event

  /** java.util.function.IntPredicate; `test` may throw. */
  type IntPredicate = int -> Result<bool>

  /** The caller's Consumer<Map<String, String>> applied to the inherited environment. */
  type EnvConsumer = map<string, string> -> map<string, string>

  /** The default success condition `rc -> rc == RC_SUCCESS_DEFAULT`. */
  function DefaultSuccessCondition(rc: int): Result<bool>
  {
    Success(rc == RC_SUCCESS_DEFAULT)
  }

  /** The fields of a CommandParameterImpl. */
  datatype Request = Request(
    command: JString,
    options: Option<seq<string>>,
    directory: Option<File>,
    timeout: int,
    timeoutUnit: Option<TimeUnit>,
    async: bool,
    redirectOutput: Option<File>,
    redirectError: Option<File>,
    environment: Option<EnvConsumer>,
    handlers: map<Status, seq<Handler>>,
    doneHandlers: seq<Handler>,
    successCondition: Option<IntPredicate>)

  /** A CommandParameterImpl as its field initialisers leave it. */
  const DefaultRequest: Request :=
    Request(None, None, None, 0, None, false, None, None, None, map[], [], Some(DefaultSuccessCondition))

  /** The fields of a CommandStateImpl that a handler can observe. */
  datatype Snapshot = Snapshot(
    status: Option<Status>,
    exitCode: Option<int>,
    thrown: Option<Exc>,
    stdout: Option<Stream>,
    stderr: Option<Stream>)

  /** A CommandStateImpl just after `new`. */
  const Fresh: Snapshot := Snapshot(None, None, None, None, None)

  /** One call `handler.handle(target)`. */
  type Invocation = (Handler, Snapshot)

  /** What every handler does when it is handed a record: `Some(e)` if it throws `e`. */
  type Behaviour = (Handler, Snapshot) -> Option<Exc>

  /** The streams of a started process. */
  datatype Streams = Streams(stdout: Stream, stderr: Stream)

  /** How the operating system behaves for one invocation: whether
      ProcessBuilder.start succeeds, what `waitFor(timeout, unit)` returns
      (true: the process exited in time), how `waitFor()` ends, and what
      `exitValue()` returns or throws. */
  datatype ProcessScript = ProcessScript(
    start: Result<Streams>,
    timedWait: Result<bool>,
    untimedWait: Outcome,
    exitValue: Result<int>)

  /** The record after an operation, the handler invocations it made, in order,
      and how it ended. */
  datatype Step = Step(rec: Snapshot, fired: seq<Invocation>, out: Outcome)

  /** A step of runProcess, and whether it forcibly destroyed the process. */
  datatype Run = Run(step: Step, destroyed: bool)

  /** The handlers that the record's manager fires for `s`. */
  function HandlersFor(req: Request, s: Status): seq<Handler>
  {
    if s in req.handlers then req.handlers[s] else []
  }

  /** CommandStateManager.judgeStatus */
  function Judge(condition: Option<IntPredicate>, exitCode: int): (r: Result<Status>)
    ensures r.Success? ==> r.value == SUCCEEDED || r.value == FAILED
    ensures condition.None? ==> r == Failure(NullPointer)
    ensures condition.Some? ==>
      (r == Success(SUCCEEDED) <==> condition.value(exitCode) == Success(true)) &&
      (r == Success(FAILED) <==> condition.value(exitCode) == Success(false)) &&
      (r.Failure? <==> condition.value(exitCode).Failure?)
  {
    match condition
    case None => Failure(NullPointer)
    case Some(test) =>
      match test(exitCode)
      case Success(true) => Success(SUCCEEDED)
      case Success(false) => Success(FAILED)
      case Failure(e) => Failure(e)
  }

  /** CommandStateManager.update, given the record it is notified about. */
  function UpdateSpec(handlers: map<Status, seq<Handler>>, rec: Snapshot, behave: Behaviour): (Outcome, seq<Invocation>)
  {
    if rec.status.Some? && rec.status.value in handlers then
      (Fire(handlers[rec.status.value], rec, behave), Invocations(handlers[rec.status.value], rec))
    else (Normal, [])
  }

  /** CommandStateImpl.setStatus on a record whose only observer is its manager. */
  function SetStatusSpec(req: Request, rec: Snapshot, s: Status, behave: Behaviour): Step
  {
    var after := rec.(status := Some(s));
    var update := UpdateSpec(req.handlers, after, behave);
    Step(after, update.1, update.0)
  }

  /** The constructor of CommandStateManager: a fresh record moved to READY. */
  function ReadySpec(req: Request, behave: Behaviour): Step
  {
    SetStatusSpec(req, Fresh, READY, behave)
  }

  /** CommandStateManager.startProcess */
  function StartSpec(req: Request, rec: Snapshot, script: ProcessScript, behave: Behaviour): Step
  {
    match script.start
    case Failure(e) => Step(rec, [], Raised(e))
    case Success(streams) =>
      SetStatusSpec(req, rec.(stdout := Some(streams.stdout), stderr := Some(streams.stderr)), RUNNING, behave)
  }

  /** CommandStateManager.notifyEnded */
  function EndedSpec(req: Request, rec: Snapshot, exitCode: int, behave: Behaviour): Step
  {
    var stored := rec.(exitCode := Some(exitCode));
    match Judge(req.successCondition, exitCode)
    case Failure(e) => Step(stored, [], Raised(e))
    case Success(s) => SetStatusSpec(req, stored, s, behave)
  }

  /** CommandStateManager.notifyError */
  function ErrorSpec(req: Request, rec: Snapshot, thrown: Exc, behave: Behaviour): Step
  {
    SetStatusSpec(req, rec.(thrown := Some(thrown)), ERROR, behave)
  }

  /** CommandStateManager.notifyCancelled */
  function CancelledSpec(req: Request, rec: Snapshot, exitCode: int, thrown: Exc, behave: Behaviour): Step
  {
    SetStatusSpec(req, rec.(exitCode := Some(exitCode), thrown := Some(thrown)), CANCELLED, behave)
  }

  /** CommandStateManager.notifyFinished */
  function FinishedSpec(req: Request, rec: Snapshot, behave: Behaviour): Step
  {
    Step(rec, Invocations(req.doneHandlers, rec), Fire(req.doneHandlers, rec, behave))
  }

  /** `second` run after `first` returned normally. */
  function Seq(first: Step, second: Step): Step
  {
    Step(second.rec, first.fired + second.fired, second.out)
  }

  /** `manager.notifyEnded(process.exitValue())` after the wait. */
  function EndedAfterWait(req: Request, started: Step, script: ProcessScript, behave: Behaviour): Step
  {
    match script.exitValue
    case Failure(e) => Step(started.rec, started.fired, Raised(e))
    case Success(code) => Seq(started, EndedSpec(req, started.rec, code, behave))
  }

  /** The try block of runProcess after the process has started (source lines
      47-60): wait, within the timeout if a unit is set, then report the end or
      the cancellation. */
  function AwaitSpec(req: Request, started: Step, script: ProcessScript, behave: Behaviour): Run
  {
    if req.timeoutUnit.Some? then
      match script.timedWait
      case Failure(e) => Run(Step(started.rec, started.fired, Raised(e)), false)
      case Success(true) => Run(EndedAfterWait(req, started, script, behave), false)
      case Success(false) =>
        var timeout := Timeout(req.timeout, req.timeoutUnit.value);
        match script.exitValue
        case Failure(e) => Run(Step(started.rec, started.fired, Raised(e)), true)
        case Success(code) => Run(Seq(started, CancelledSpec(req, started.rec, code, timeout, behave)), true)
    else
      match script.untimedWait
      case Raised(e) => Run(Step(started.rec, started.fired, Raised(e)), false)
      case Normal => Run(EndedAfterWait(req, started, script, behave), false)
  }

  /** The try block of runProcess (source lines 46-60). */
  function AttemptSpec(req: Request, rec: Snapshot, script: ProcessScript, behave: Behaviour): Run
  {
    var started := StartSpec(req, rec, script, behave);
    if started.out.Raised? then Run(started, false) else AwaitSpec(req, started, script, behave)
  }

  /** The catch clauses of runProcess: an EventHandlingException is rethrown as
      it is; any other throwable is reported through notifyError and rethrown,
      unless notifyError itself throws, which then propagates instead. */
  function CatchSpec(req: Request, attempt: Step, behave: Behaviour): Step
  {
    if attempt.out.Raised? && !attempt.out.exc.EventHandling? then
      var error := ErrorSpec(req, attempt.rec, attempt.out.exc, behave);
      Step(error.rec, attempt.fired + error.fired, if error.out.Raised? then error.out else attempt.out)
    else attempt
  }

  /** AbstractCommandExecutor.runProcess: try, catch, then `finally
      notifyFinished()`, whose exception replaces the one in flight. */
  function RunSpec(req: Request, rec: Snapshot, script: ProcessScript, behave: Behaviour): Run
  {
    var attempt := AttemptSpec(req, rec, script, behave);
    var caught := CatchSpec(req, attempt.step, behave);
    var finished := FinishedSpec(req, caught.rec, behave);
    Run(Step(caught.rec, caught.fired + finished.fired, if finished.out.Raised? then finished.out else caught.out),
        attempt.destroyed)
  }

  /** The synchronous path of AbstractCommandExecutor.execute: construct the
      manager (READY), then runProcess. A READY handler that throws ends
      `execute` before runProcess starts. */
  function ExecuteSpec(req: Request, script: ProcessScript, behave: Behaviour): Run
  {
    var ready := ReadySpec(req, behave);
    if ready.out.Raised? then Run(ready, false)
    else
      var run := RunSpec(req, ready.rec, script, behave);
      Run(Seq(ready, run.step), run.destroyed)
  }

  // ---------------------------------------------------------------------------
  // Properties of a run
  // ---------------------------------------------------------------------------

  /** Every invocation in `fired` is of a handler registered for the status the
      record had when it was invoked. */
  ghost predicate StatusHandlersOnly(req: Request, fired: seq<Invocation>)
  {
    forall i :: 0 <= i < |fired| ==>
      fired[i].1.status.Some? && fired[i].0 in HandlersFor(req, fired[i].1.status.value)
  }

  /** No handler ever throws. */
  ghost predicate Quiet(behave: Behaviour)
  {
    forall h, s :: behave(h, s).None?
  }

  /** The terminal statuses. */
  predicate Terminal(s: Option<Status>)
  {
    s == Some(SUCCEEDED) || s == Some(FAILED) || s == Some(ERROR) || s == Some(CANCELLED)
  }

  /** setStatus stores the status first and then fires exactly the handlers
      registered for it, each once, in order, on the updated record; with none
      registered it fires nothing. Nothing else in the record changes. */
  lemma SetStatusFiresHandlersOfNewStatus(req: Request, rec: Snapshot, s: Status, behave: Behaviour)
    ensures var st := SetStatusSpec(req, rec, s, behave);
      st.rec == rec.(status := Some(s)) &&
      st.fired == Invocations(HandlersFor(req, s), st.rec) &&
      st.out == Fire(HandlersFor(req, s), st.rec, behave) &&
      StatusHandlersOnly(req, st.fired)
  {
    InvocationsAt(HandlersFor(req, s), rec.(status := Some(s)));
  }

  lemma StatusHandlersOnlyConcat(req: Request, a: seq<Invocation>, b: seq<Invocation>)
    requires StatusHandlersOnly(req, a) && StatusHandlersOnly(req, b)
    ensures StatusHandlersOnly(req, a + b)
  {
  }

  /** Only status handlers are invoked before `finally`. */
  lemma AttemptFiresStatusHandlersOnly(req: Request, rec: Snapshot, script: ProcessScript, behave: Behaviour)
    ensures StatusHandlersOnly(req, CatchSpec(req, AttemptSpec(req, rec, script, behave).step, behave).fired)
  {
    forall s: Status, r: Snapshot ensures StatusHandlersOnly(req, SetStatusSpec(req, r, s, behave).fired) {
      SetStatusFiresHandlersOfNewStatus(req, r, s, behave);
    }
    var started := StartSpec(req, rec, script, behave);
    assert StatusHandlersOnly(req, started.fired);
    forall code: int ensures StatusHandlersOnly(req, EndedSpec(req, started.rec, code, behave).fired) {
    }
    var attempt := AttemptSpec(req, rec, script, behave).step;
    assert StatusHandlersOnly(req, attempt.fired) by {
      forall code: int, e: Exc
        ensures StatusHandlersOnly(req, Seq(started, EndedSpec(req, started.rec, code, behave)).fired)
        ensures StatusHandlersOnly(req, Seq(started, CancelledSpec(req, started.rec, code, e, behave)).fired)
      {
        StatusHandlersOnlyConcat(req, started.fired, EndedSpec(req, started.rec, code, behave).fired);
        StatusHandlersOnlyConcat(req, started.fired, CancelledSpec(req, started.rec, code, e, behave).fired);
      }
    }
    if attempt.out.Raised? && !attempt.out.exc.EventHandling? {
      StatusHandlersOnlyConcat(req, attempt.fired, ErrorSpec(req, attempt.rec, attempt.out.exc, behave).fired);
    }
  }

  /** notifyFinished runs exactly once on every path of runProcess, last: the
      done handlers are invoked once each, in order, on the final record, after
      every status handler; and if one of them throws, its EventHandlingException
      replaces whatever runProcess was about to throw or return. */
  lemma RunEndsWithDoneHandlers(req: Request, rec: Snapshot, script: ProcessScript, behave: Behaviour)
    ensures var run := RunSpec(req, rec, script, behave);
      var n := |run.step.fired| - |req.doneHandlers|;
      n >= 0 &&
      run.step.fired[n..] == Invocations(req.doneHandlers, run.step.rec) &&
      StatusHandlersOnly(req, run.step.fired[..n]) &&
      (Fire(req.doneHandlers, run.step.rec, behave).Raised? ==>
         run.step.out == Fire(req.doneHandlers, run.step.rec, behave))
  {
    AttemptFiresStatusHandlersOnly(req, rec, script, behave);
    var run := RunSpec(req, rec, script, behave);
    var caught := CatchSpec(req, AttemptSpec(req, rec, script, behave).step, behave);
    assert run.step.fired == caught.fired + Invocations(req.doneHandlers, caught.rec);
    var n := |run.step.fired| - |req.doneHandlers|;
    assert run.step.fired[..n] == caught.fired;
  }

  /** A READY handler that throws ends `execute` at once: no process is
      started, no other handler runs, not even the done handlers, and the
      record stays READY. */
  lemma ReadyFailureSkipsRun(req: Request, script: ProcessScript, behave: Behaviour)
    requires Fire(HandlersFor(req, READY), Fresh.(status := Some(READY)), behave).Raised?
    ensures var e := ExecuteSpec(req, script, behave);
      e.step.rec == Fresh.(status := Some(READY)) &&
      e.step.fired == Invocations(HandlersFor(req, READY), e.step.rec) &&
      e.step.out == Fire(HandlersFor(req, READY), e.step.rec, behave) &&
      !e.destroyed
  {
  }

  /** A synchronous `execute` that returns normally leaves the record in
      SUCCEEDED, FAILED or CANCELLED -- never ERROR, which always ends in an
      exception -- with no cause for SUCCEEDED and FAILED (the success condition
      decided them on the stored exit code) and the timeout as the cause for
      CANCELLED, which happens only after a timed wait expired and the process
      was destroyed. */
  lemma NormalExecutionIsSettled(req: Request, script: ProcessScript, behave: Behaviour)
    requires ExecuteSpec(req, script, behave).step.out == Normal
    ensures var e := ExecuteSpec(req, script, behave);
      var r := e.step.rec;
      (r.status == Some(SUCCEEDED) || r.status == Some(FAILED) || r.status == Some(CANCELLED)) &&
      r.exitCode.Some? && script.exitValue == Success(r.exitCode.value) &&
      script.start.Success? &&
      r.stdout == Some(script.start.value.stdout) && r.stderr == Some(script.start.value.stderr) &&
      (r.status != Some(CANCELLED) ==>
         r.thrown == None && Judge(req.successCondition, r.exitCode.value) == Success(r.status.value) && !e.destroyed) &&
      (r.status == Some(CANCELLED) ==>
         req.timeoutUnit.Some? && script.timedWait == Success(false) && e.destroyed &&
         r.thrown == Some(Timeout(req.timeout, req.timeoutUnit.value)))
  {
    var ready := ReadySpec(req, behave);
    var attempt := AttemptSpec(req, ready.rec, script, behave);
    assert attempt.step.out == Normal;
  }

  /** Without a timeout unit the run waits unconditionally: the record is
      never CANCELLED and the process is never destroyed. CANCELLED always
      carries the configured timeout as its cause. */
  lemma CancelledOnlyOnTimeout(req: Request, script: ProcessScript, behave: Behaviour)
    ensures var e := ExecuteSpec(req, script, behave);
      (req.timeoutUnit.None? ==> e.step.rec.status != Some(CANCELLED) && !e.destroyed) &&
      (e.step.rec.status == Some(CANCELLED) ==>
         req.timeoutUnit.Some? && e.destroyed && script.timedWait == Success(false) &&
         e.step.rec.thrown == Some(Timeout(req.timeout, req.timeoutUnit.value)))
  {
    var ready := ReadySpec(req, behave);
    if ready.out.Normal? {
      var attempt := AttemptSpec(req, ready.rec, script, behave);
      var started := StartSpec(req, ready.rec, script, behave);
      assert started.rec.status == Some(RUNNING) || started.rec.status == Some(READY);
      assert attempt.step.rec.status == Some(CANCELLED) ==> attempt.destroyed;
    }
  }

  /** A process that cannot be started (and any other throwable that is not an
      EventHandlingException) is reported as ERROR with the throwable as the
      cause; the exit code stays unset; the handlers of ERROR and then the done
      handlers run; and the throwable is rethrown unless a handler replaced it. */
  lemma LaunchFailureIsError(req: Request, script: ProcessScript, behave: Behaviour)
    requires ReadySpec(req, behave).out == Normal
    requires script.start.Failure? && !script.start.error.EventHandling?
    ensures var e := ExecuteSpec(req, script, behave);
      var r := e.step.rec;
      var e0 := script.start.error;
      var errorRec := Fresh.(status := Some(ERROR), thrown := Some(e0));
      r == errorRec && !e.destroyed &&
      e.step.fired == Invocations(HandlersFor(req, READY), Fresh.(status := Some(READY))) +
                      Invocations(HandlersFor(req, ERROR), errorRec) +
                      Invocations(req.doneHandlers, errorRec) &&
      e.step.out ==
        (if Fire(req.doneHandlers, errorRec, behave).Raised? then Fire(req.doneHandlers, errorRec, behave)
         else if Fire(HandlersFor(req, ERROR), errorRec, behave).Raised? then Fire(HandlersFor(req, ERROR), errorRec, behave)
         else Raised(e0))
  {
  }

  /** An EventHandlingException out of the try block (a RUNNING, SUCCEEDED,
      FAILED or CANCELLED handler threw) is rethrown without notifyError: the
      record keeps the status it reached, no ERROR handler runs, and only the
      done handlers follow. */
  lemma HandlerFailureSkipsNotifyError(req: Request, rec: Snapshot, script: ProcessScript, behave: Behaviour)
    requires AttemptSpec(req, rec, script, behave).step.out.Raised?
    requires AttemptSpec(req, rec, script, behave).step.out.exc.EventHandling?
    ensures var attempt := AttemptSpec(req, rec, script, behave).step;
      var run := RunSpec(req, rec, script, behave).step;
      run.rec == attempt.rec &&
      run.fired == attempt.fired + Invocations(req.doneHandlers, attempt.rec) &&
      run.out == (if Fire(req.doneHandlers, attempt.rec, behave).Raised? then Fire(req.doneHandlers, attempt.rec, behave)
                  else attempt.out)
  {
  }

  /** With handlers that never throw, a process that exits (within the timeout,
      if one is set) with exit code `code` ends SUCCEEDED or FAILED exactly as
      the success condition says, or ERROR with the condition's exception (for
      instance a null condition's NullPointerException), which is then rethrown
      (an EventHandlingException from the condition skips ERROR and leaves RUNNING). */
  lemma QuietExitIsJudged(req: Request, script: ProcessScript, behave: Behaviour, streams: Streams, code: int)
    requires Quiet(behave)
    requires script.start == Success(streams) && script.exitValue == Success(code)
    requires if req.timeoutUnit.Some? then script.timedWait == Success(true) else script.untimedWait == Normal
    ensures var e := ExecuteSpec(req, script, behave);
      var base := Snapshot(None, Some(code), None, Some(streams.stdout), Some(streams.stderr));
      !e.destroyed &&
      (Judge(req.successCondition, code).Success? ==>
        e.step.rec == base.(status := Some(Judge(req.successCondition, code).value)) && e.step.out == Normal) &&
      (Judge(req.successCondition, code).Failure? ==>
        var x := Judge(req.successCondition, code).error;
        e.step.out == Raised(x) &&
        e.step.rec == if x.EventHandling? then base.(status := Some(RUNNING))
                      else base.(status := Some(ERROR), thrown := Some(x)))
  {
    QuietFiresNormally(behave);
    var ready := ReadySpec(req, behave);
    assert ready.out == Normal;
    var started := StartSpec(req, ready.rec, script, behave);
    assert started.out == Normal;
    assert started.rec == Snapshot(Some(RUNNING), None, None, Some(streams.stdout), Some(streams.stderr));
    var attempt := AttemptSpec(req, ready.rec, script, behave);
    var ended := EndedSpec(req, started.rec, code, behave);
    assert attempt.step == Seq(started, ended) && !attempt.destroyed;
    var stored := started.rec.(exitCode := Some(code));
    var e := ExecuteSpec(req, script, behave);
    var run := RunSpec(req, ready.rec, script, behave);
    assert e.step == Seq(ready, run.step);
    match Judge(req.successCondition, code)
    case Success(st) =>
      assert ended == SetStatusSpec(req, stored, st, behave);
      assert CatchSpec(req, attempt.step, behave) == attempt.step;
      assert run.step.rec == stored.(status := Some(st));
      assert run.step.fired == started.fired + ended.fired + Invocations(req.doneHandlers, run.step.rec);
    case Failure(x) =>
      assert ended == Step(stored, [], Raised(x));
  }

  /** In the same run, when the condition decides the status, the handlers of
      READY, of RUNNING, of the decided status and the done handlers each run
      once, in that order, on the record as it was at that moment. */
  lemma QuietExitFiresEachPhaseOnce(req: Request, script: ProcessScript, behave: Behaviour, streams: Streams, code: int, st: Status)
    requires Quiet(behave)
    requires script.start == Success(streams) && script.exitValue == Success(code)
    requires if req.timeoutUnit.Some? then script.timedWait == Success(true) else script.untimedWait == Normal
    requires Judge(req.successCondition, code) == Success(st)
    ensures var e := ExecuteSpec(req, script, behave);
      var running := Snapshot(Some(RUNNING), None, None, Some(streams.stdout), Some(streams.stderr));
      var final := running.(status := Some(st), exitCode := Some(code));
      e.step.fired == Invocations(HandlersFor(req, READY), Fresh.(status := Some(READY))) +
                      Invocations(HandlersFor(req, RUNNING), running) +
                      Invocations(HandlersFor(req, st), final) +
                      Invocations(req.doneHandlers, final)
  {
    QuietFiresNormally(behave);
    var ready := ReadySpec(req, behave);
    assert ready.fired == Invocations(HandlersFor(req, READY), Fresh.(status := Some(READY)));
    QuietAttemptExit(req, ready.rec, script, behave, streams, code, st);
  }

  lemma QuietAttemptExit(req: Request, rec: Snapshot, script: ProcessScript, behave: Behaviour, streams: Streams, code: int, st: Status)
    requires Quiet(behave)
    requires script.start == Success(streams) && script.exitValue == Success(code)
    requires if req.timeoutUnit.Some? then script.timedWait == Success(true) else script.untimedWait == Normal
    requires Judge(req.successCondition, code) == Success(st)
    ensures var running := rec.(status := Some(RUNNING), stdout := Some(streams.stdout), stderr := Some(streams.stderr));
      var final := running.(status := Some(st), exitCode := Some(code));
      AttemptSpec(req, rec, script, behave) ==
        Run(Step(final, Invocations(HandlersFor(req, RUNNING), running) + Invocations(HandlersFor(req, st), final), Normal), false)
  {
    QuietFiresNormally(behave);
  }

  /** Under Quiet handlers no fireEvent raises. */
  lemma QuietFiresNormally(behave: Behaviour)
    requires Quiet(behave)
    ensures forall hs: seq<Handler>, r: Snapshot :: Fire(hs, r, behave) == Normal
  {
    forall hs: seq<Handler>, r: Snapshot ensures Fire(hs, r, behave) == Normal {
      FireNormalIff(hs, r, behave);
    }
  }

  /** With handlers that never throw, a timed wait that expires leads to a
      forced destroy and CANCELLED with the post-destroy exit code and a
      TimeoutException naming the configured timeout and unit; `execute` then
      returns normally. */
  lemma QuietTimeoutCancels(req: Request, script: ProcessScript, behave: Behaviour, streams: Streams, code: int)
    requires Quiet(behave)
    requires req.timeoutUnit.Some?
    requires script.start == Success(streams) && script.timedWait == Success(false) && script.exitValue == Success(code)
    ensures var e := ExecuteSpec(req, script, behave);
      e.destroyed && e.step.out == Normal &&
      e.step.rec == Snapshot(Some(CANCELLED), Some(code), Some(Timeout(req.timeout, req.timeoutUnit.value)),
                             Some(streams.stdout), Some(streams.stderr))
  {
    forall hs: seq<Handler>, r: Snapshot ensures Fire(hs, r, behave) == Normal {
      FireNormalIff(hs, r, behave);
    }
  }

  /** The default success condition accepts exactly RC_SUCCESS_DEFAULT (0). */
  lemma DefaultConditionAcceptsZero(code: int)
    ensures Judge(DefaultRequest.successCondition, code) == Success(if code == 0 then SUCCEEDED else FAILED)
  {
  }

  /** The no-op command ":" with the defaults: SUCCEEDED with exit code 0 and no cause. */
  lemma NoOpCommandSucceeds(script: ProcessScript, behave: Behaviour, streams: Streams)
    requires Quiet(behave)
    requires script == ProcessScript(Success(streams), script.timedWait, Normal, Success(0))
    ensures var e := ExecuteSpec(DefaultRequest.(command := Some(":")), script, behave);
      e.step.out == Normal && e.step.rec.status == Some(SUCCEEDED) &&
      e.step.rec.exitCode == Some(0) && e.step.rec.thrown == None
  {
    QuietExitIsJudged(DefaultRequest.(command := Some(":")), script, behave, streams, 0);
  }
}
