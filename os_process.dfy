/**
 * The operating-system side of the connection, kept abstract: what a
 * `java.lang.ProcessBuilder` is asked to launch, and a `java.lang.Process`
 * handle with a liveness flag, its two standard streams and a record of the
 * termination requests it has received.
 */
module OsProcess {

  /** Where the child's standard error goes (`ProcessBuilder.Redirect`). */
  datatype Redirect = Pipe | Inherit

  /** The settings of a ProcessBuilder at the moment `start()` is called on it. */
  datatype ProcessBuilder = ProcessBuilder(command: seq<string>, directory: string, redirectError: Redirect)

  /** Opaque stream values: their contents and I/O are not modelled. */
  datatype InputStream = InputStream(id: nat)
  datatype OutputStream = OutputStream(id: nat)

  /** A spawned OS process. */
  class Process {
    /** The builder settings the process was launched with. */
    const launchedFrom: ProcessBuilder
    /** `getInputStream()`: the child's standard output, the same value on every call. */
    const stdout: InputStream
    /** `getOutputStream()`: the child's standard input, the same value on every call. */
    const stdin: OutputStream
    /** `isAlive()`: whether the process has not exited. */
    var alive: bool
    /** How many times `destroy()` has been called on this handle. */
    var destroyRequests: nat

    constructor (launchedFrom: ProcessBuilder, stdout: InputStream, stdin: OutputStream, alive: bool)
      ensures this.launchedFrom == launchedFrom && this.stdout == stdout && this.stdin == stdin
      ensures this.alive == alive && destroyRequests == 0
    {
      this.launchedFrom := launchedFrom;
      this.stdout := stdout;
      this.stdin := stdin;
      this.alive := alive;
      destroyRequests := 0;
    }

    /**
     * `destroy()`: asks the OS to terminate the process. Whether and when the
     * process then stops being alive is up to the OS, so `alive` is left
     * unconstrained; only the request itself is recorded.
     */
    method Destroy()
      modifies this
      ensures destroyRequests == old(destroyRequests) + 1
    {
      destroyRequests := destroyRequests + 1;
    }
  }

  /**
   * The operating system as far as spawning is concerned: a record, for the
   * specification only, of every spawn requested and every process it
   * returned, in order.
   */
  class Os {
    ghost var attempts: nat
    ghost var spawned: seq<Process>

    constructor ()
      ensures attempts == 0 && spawned == []
    {
      attempts := 0;
      spawned := [];
    }
  }

  /** What `ProcessBuilder.start()` does: it throws an IOException, or returns a new handle. */
  datatype SpawnResult = Threw | Started(process: Process)

  /**
   * `ProcessBuilder.start()`. The OS decides the outcome: the call may throw,
   * and a returned process may already have exited, so callers learn nothing
   * about `alive` beyond what they query afterwards. The streams of the new
   * process are whatever the OS hands out.
   */
  method Spawn(os: Os, builder: ProcessBuilder) returns (r: SpawnResult)
    modifies os
    ensures os.attempts == old(os.attempts) + 1
    ensures os.spawned == old(os.spawned) + if r.Started? then [r.process] else []
    ensures r.Started? ==> fresh(r.process) && r.process.launchedFrom == builder && r.process.destroyRequests == 0
  {
    os.attempts := os.attempts + 1;
    var throws: bool :| true;
    if throws {
      r := Threw;
    } else {
      var alive: bool :| true;
      var outId: nat :| true;
      var inId: nat :| true;
      var p := new Process(builder, InputStream(outId), OutputStream(inId), alive);
      os.spawned := os.spawned + [p];
      r := Started(p);
    }
  }
}
