/** Values shared by every part of the model: optional and fallible values, the
    Java throwables the core raises or passes on, the JDK enum TimeUnit, and the
    file and stream handles that the operating system hands out. */
module Base {

  /** A value that may be absent (Java `null`). */
  datatype Option<+T> = None | Some(value: T)

  /** The result of an operation that either returns a value or throws. */
  datatype Result<+R> = Success(value: R) | Failure(error: Exc)

  /** How a `void` Java call ends: it returns normally or throws. */
  datatype Outcome = Normal | Raised(exc: Exc)

  /** A Java string reference: `None` stands for `null`. */
  type JString = Option<string>

  /** java.util.concurrent.TimeUnit */
  datatype TimeUnit = NANOSECONDS | MICROSECONDS | MILLISECONDS | SECONDS | MINUTES | HOURS | DAYS

  /** A java.io.File, identified by its path. */
  datatype File = File(path: string)

  /** An input stream the operating system opened for a started process. */
  datatype Stream = Stream(id: nat)

  /** A caller-supplied event handler, identified by its object identity. */
  datatype Handler = Handler(id: nat)

  /** The message keys of the resource bundle; the text itself is not modelled. */
  datatype Message =
    | CommandEmpty                  // CommandBuilder.error.command.empty
    | DirectoryNotFound(dir: File)  // CommandBuilder.error.directory.notfound, with the canonical path
    | ExecutorNotFound              // CommandExecutorRegistry.executor.not.found

  /** The throwables that the core creates or passes on. */
  datatype Exc =
    | EventHandling(cause: Exc)          // EventHandlingException wrapping a handler's failure
    | Timeout(time: int, unit: TimeUnit) // TimeoutException describing the configured timeout
    | IllegalArgument(message: Message)
    | IllegalState(message: Message)
    | UncheckedIO(cause: Exc)
    | NullPointer
    | IO(id: nat)                        // an IOException raised by the file system or the OS
    | Interrupted                        // InterruptedException raised by a wait
    | Runtime(id: nat)                   // any other exception raised by caller code or the JDK
}
