/** Stand-ins for the two JDK classes the executor drives: java.lang.ProcessBuilder
    (the fields the executor sets) and java.lang.Process. What the operating
    system does is not modelled; it is the ProcessScript the builder is
    created with, and each Process call answers from it. */
module Jdk {
  import opened Base
  import opened Lifecycle

  /** java.lang.ProcessBuilder */
  class ProcessBuilder {
    /** How the operating system will behave for the process this builder starts. */
    const os: ProcessScript
    /** `command(List)`: the argument vector; `None` is a null element. */
    var command: seq<JString>
    /** `directory(File)`; `None` is the current directory of the JVM. */
    var directory: Option<File>
    /** The map that `environment()` returns, initially the inherited environment. */
    var environment: map<string, string>
    /** `redirectOutput(File)`; `None` is the default PIPE. */
    var redirectOutput: Option<File>
    /** `redirectError(File)`; `None` is the default PIPE. */
    var redirectError: Option<File>

    /** `new ProcessBuilder()` in a JVM whose environment is `inherited`. */
    constructor (os: ProcessScript, inherited: map<string, string>)
      ensures this.os == os && command == [] && directory == None && environment == inherited
      ensures redirectOutput == None && redirectError == None
    {
      this.os := os;
      command := [];
      directory := None;
      environment := inherited;
      redirectOutput := None;
      redirectError := None;
    }

    /** `start()`: a fresh, running process, or the IOException of the system. */
    method Start() returns (r: Result<Process>)
      ensures r.Failure? <==> os.start.Failure?
      ensures r.Failure? ==> r.error == os.start.error
      ensures r.Success? ==> fresh(r.value) && r.value.os == os && !r.value.destroyed
    {
      match os.start
      case Failure(e) =>
        r := Failure(e);
      case Success(_) =>
        var p := new Process(os);
        r := Success(p);
    }
  }

  /** java.lang.Process */
  class Process {
    const os: ProcessScript
    /** Whether `destroyForcibly()` has been called. */
    var destroyed: bool

    constructor (os: ProcessScript)
      requires os.start.Success?
      ensures this.os == os && !destroyed
    {
      this.os := os;
      destroyed := false;
    }

    /** `getInputStream()` */
    function InputStream(): Stream
      requires os.start.Success?
    {
      os.start.value.stdout
    }

    /** `getErrorStream()` */
    function ErrorStream(): Stream
      requires os.start.Success?
    {
      os.start.value.stderr
    }

    /** `waitFor()` */
    method WaitFor() returns (out: Outcome)
      ensures out == os.untimedWait
    {
      out := os.untimedWait;
    }

    /** `waitFor(timeout, unit)`: true if the process exited in time. */
    method WaitForWithin(timeout: int, unit: TimeUnit) returns (r: Result<bool>)
      ensures r == os.timedWait
    {
      r := os.timedWait;
    }

    /** `destroyForcibly()` */
    method DestroyForcibly()
      modifies this
      ensures destroyed
    {
      destroyed := true;
    }

    /** `exitValue()` */
    method ExitValue() returns (r: Result<int>)
      ensures r == os.exitValue
    {
      r := os.exitValue;
    }
  }
}
