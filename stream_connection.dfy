/**
 * `ProcessStreamConnectionProvider`: a provider that holds a launch spec and
 * at most one OS process, and exposes that process's standard streams.
 */
module StreamConnection {
  import opened Wrappers
  import opened OsProcess
  import opened LaunchSpecs
  import Lifecycle
  import Identity

  /** The unchecked exception `equals()` can throw. */
  datatype JavaException = NullPointerException

  /** The argument of `equals(Object)`: null, a provider, or an object of another class. */
  datatype Obj = Null | Provider(provider: ProcessStreamConnectionProvider) | Foreign

  /** A `java.util.HashSet` built from a list: an object holding the list's elements as a set. */
  class HashSet {
    const elements: set<Option<string>>

    constructor (cs: seq<Option<string>>)
      ensures elements == Identity.Elements(cs)
    {
      elements := Identity.Elements(cs);
    }
  }

  class ProcessStreamConnectionProvider {
    var commands: CommandList
    var workingDir: Option<string>
    /** The `@Nullable process` field. */
    var process: Option<Process>

    function Spec(): (spec: LaunchSpec)
      reads this
    {
      LaunchSpec(commands, workingDir)
    }

    /** The fields as a Lifecycle state. */
    function State(): (s: Lifecycle.State<Process>)
      reads this
    {
      Lifecycle.State(Spec(), process)
    }

    /** Stores both arguments as given, without checking them; `process` starts out null. */
    constructor (commands: CommandList, workingDir: Option<string>)
      ensures this.commands == commands && this.workingDir == workingDir
      ensures process == None
      ensures State() == Lifecycle.Init(LaunchSpec(commands, workingDir))
    {
      this.commands := commands;
      this.workingDir := workingDir;
      process := None;
    }

    /**
     * `start()`. `spawn` records, for the specification only, what the OS
     * answered when asked to spawn (Threw when nothing was spawned). The new
     * fields and the outcome are exactly Lifecycle.StartStep's; a returned
     * handle is new, was launched from `createProcessBuilder()`'s settings
     * and is reported alive exactly when it was alive when checked. The OS is
     * asked to spawn exactly once when the guard passes and never otherwise,
     * and the handle recorded in `spawn` is the one the OS returned.
     */
    method Start(os: Os) returns (r: Outcome<StartError>, ghost spawn: Lifecycle.Spawn<Process>)
      modifies this, os
      ensures os.attempts == old(os.attempts) + if Valid(old(Spec())) then 1 else 0
      ensures os.spawned == old(os.spawned) + if spawn.Returned? then [spawn.handle] else []
      ensures (State(), r) == Lifecycle.StartStep(old(State()), spawn)
      ensures spawn.Returned? ==>
        fresh(spawn.handle) && Valid(old(Spec())) &&
        spawn.handle.launchedFrom == CreateProcessBuilder(old(Spec())) &&
        spawn.handle.destroyRequests == 0 && spawn.alive == spawn.handle.alive
    {
      spawn := Lifecycle.Threw;
      var checked := Validate(Spec());
      if checked.Fail? {
        r := checked;
        return;
      }
      var builder := CreateProcessBuilder(Spec());
      var started := Spawn(os, builder);
      if started.Threw? {
        // `this.process = builder.start()` throws before the assignment happens.
        r := Fail(SpawnFailed);
        return;
      }
      process := Some(started.process);
      var alive := started.process.alive;
      spawn := Lifecycle.Returned(started.process, alive);
      if !alive {
        r := Fail(NotAlive);
      } else {
        r := Pass;
      }
    }

    /** `getInputStream()`: the process's standard output, or null when there is no process. */
    function GetInputStream(): (r: Option<InputStream>)
      reads this
      ensures r.None? <==> process.None?
      ensures r.Some? ==> r.value == process.value.stdout
    {
      if process.Some? then Some(process.value.stdout) else None
    }

    /** `getOutputStream()`: the process's standard input, or null when there is no process. */
    function GetOutputStream(): (r: Option<OutputStream>)
      reads this
      ensures r.None? <==> process.None?
      ensures r.Some? ==> r.value == process.value.stdin
    {
      if process.Some? then Some(process.value.stdin) else None
    }

    /**
     * `stop()`: asks the stored process, if any, to terminate. No field of
     * the provider changes, so the streams stay available afterwards, and
     * nothing is thrown however often it is called.
     */
    method Stop()
      modifies if process.Some? then {process.value} else {}
      ensures State() == Lifecycle.StopStep(old(State()))
      ensures var target := old(Lifecycle.StopTarget(State()));
        target.Some? ==> target.value.destroyRequests == old(target.value.destroyRequests) + 1
    {
      if process.Some? {
        process.value.Destroy();
      }
    }

    /**
     * `equals(Object)` as written: false for anything but a provider; for a
     * provider, a NullPointerException when either command list is null, and
     * otherwise false, because `==` compares the two HashSets it has just
     * allocated by reference. It never answers true, not even for the
     * provider itself, which is trivially its own launch target.
     */
    method Equals(obj: Obj) returns (r: Result<bool, JavaException>)
      ensures r != Ok(true)
      ensures r.Err? <==> obj.Provider? && (commands.None? || obj.provider.commands.None?)
      ensures obj == Provider(this) && commands.Some? ==>
        r == Ok(false) && Identity.SameLaunchTarget(Spec(), Spec())
    {
      match obj
      case Provider(other) =>
        if commands.None? || other.commands.None? {
          r := Err(NullPointerException);
        } else if |commands.value| != |other.commands.value| {
          r := Ok(false);
        } else {
          var mine := new HashSet(commands.value);
          var theirs := new HashSet(other.commands.value);
          // What the last conjunct, `workingDir.equals(other.workingDir)`, would give;
          // it is used only if the two sets are the same object.
          var last := if workingDir.None? then Err(NullPointerException) else Ok(workingDir == other.workingDir);
          r := if mine == theirs then last else Ok(false);
        }
      case _ =>
        r := Ok(false);
    }

    /**
     * `equals(Object)` as evidently intended: the same code with the two sets
     * compared by content (`HashSet.equals`) instead of by reference. The
     * null cases still throw as the code does: a null command list on either
     * side, or a null `workingDir` on this side once the tokens match.
     */
    function IntendedEquals(obj: Obj): (r: Result<bool, JavaException>)
      reads this, if obj.Provider? then {obj.provider} else {}
      ensures r.Err? <==> (obj.Provider? &&
        (commands.None? || obj.provider.commands.None? ||
         (|commands.value| == |obj.provider.commands.value| &&
          Identity.Elements(commands.value) == Identity.Elements(obj.provider.commands.value) &&
          workingDir.None?)))
      ensures r == Ok(true) <==> (obj.Provider? && commands.Some? && workingDir.Some? &&
        Identity.SameLaunchTarget(Spec(), obj.provider.Spec()))
      ensures obj == Provider(this) && commands.Some? && workingDir.Some? ==> r == Ok(true)
    {
      match obj
      case Provider(other) =>
        if commands.None? || other.commands.None? then Err(NullPointerException)
        else if |commands.value| != |other.commands.value| then Ok(false)
        else if Identity.Elements(commands.value) != Identity.Elements(other.commands.value) then Ok(false)
        else if workingDir.None? then Err(NullPointerException)
        else Ok(Some(workingDir.value) == other.workingDir)
      case _ => Ok(false)
    }

    /**
     * `hashCode()`: the XOR of the hashes of the two stored fields, a null
     * field contributing 0; the process plays no part.
     */
    function HashCode(listHash: seq<Option<string>> -> bv32, strHash: string -> bv32): (h: bv32)
      reads this
      ensures h ^ Identity.ObjectsHash(strHash, workingDir) == Identity.ObjectsHash(listHash, commands)
    {
      Identity.SpecHash(Spec(), listHash, strHash)
    }
  }

  /** On providers whose fields are set, the intended comparison is symmetric. */
  lemma IntendedEqualsSymmetric(p: ProcessStreamConnectionProvider, q: ProcessStreamConnectionProvider)
    requires p.commands.Some? && p.workingDir.Some? && q.commands.Some? && q.workingDir.Some?
    ensures p.IntendedEquals(Provider(q)) == q.IntendedEquals(Provider(p))
  {
  }

  /** The intended comparison ignores the order of the tokens. */
  lemma IntendedEqualsIgnoresOrder(p: ProcessStreamConnectionProvider, q: ProcessStreamConnectionProvider)
    requires p.commands.Some? && p.workingDir.Some? && q.commands.Some?
    requires p.workingDir == q.workingDir && multiset(p.commands.value) == multiset(q.commands.value)
    ensures p.IntendedEquals(Provider(q)) == Ok(true)
  {
    Identity.PermutedCommandsSameTarget(p.Spec(), q.Spec());
  }

  /** A null field contributes nothing to `hashCode()`: the hash is then the other field's hash. */
  lemma HashCodeNullField(p: ProcessStreamConnectionProvider,
                          listHash: seq<Option<string>> -> bv32, strHash: string -> bv32)
    ensures p.commands.None? ==> p.HashCode(listHash, strHash) == Identity.ObjectsHash(strHash, p.workingDir)
    ensures p.workingDir.None? ==> p.HashCode(listHash, strHash) == Identity.ObjectsHash(listHash, p.commands)
  {
    Identity.XorCancels(p.HashCode(listHash, strHash), Identity.ObjectsHash(strHash, p.workingDir));
  }

  /** Providers with the same stored fields have the same hash, whatever process each holds. */
  lemma HashIgnoresProcess(p: ProcessStreamConnectionProvider, q: ProcessStreamConnectionProvider,
                           listHash: seq<Option<string>> -> bv32, strHash: string -> bv32)
    requires p.commands == q.commands && p.workingDir == q.workingDir
    ensures p.HashCode(listHash, strHash) == q.HashCode(listHash, strHash)
  {
  }

  /**
   * A caller's view of one lifecycle: construct, start, stop twice. Whatever
   * the OS does, stop never throws and every stream obtained after the start
   * is still returned after both stops; the field stays set even when the
   * liveness check failed.
   */
  method StartThenStopTwice(os: Os, commands: CommandList, workingDir: Option<string>)
    returns (p: ProcessStreamConnectionProvider, r: Outcome<StartError>)
    modifies os
    ensures fresh(p)
    ensures r == Fail(InvalidLaunchSpec) ==> os.attempts == old(os.attempts) && os.spawned == old(os.spawned)
    ensures r != Fail(InvalidLaunchSpec) ==> os.attempts == old(os.attempts) + 1
    ensures r == Fail(InvalidLaunchSpec) <==> !Valid(LaunchSpec(commands, workingDir))
    ensures r == Fail(NotAlive) ==> p.GetInputStream().Some? && p.GetOutputStream().Some?
    ensures r == Pass ==> p.GetInputStream().Some? && p.GetOutputStream().Some?
    ensures r == Fail(InvalidLaunchSpec) || r == Fail(SpawnFailed) ==>
      p.GetInputStream().None? && p.GetOutputStream().None?
    ensures r.Pass? ==> p.process.value.destroyRequests == 2
  {
    p := new ProcessStreamConnectionProvider(commands, workingDir);
    ghost var spawn;
    r, spawn := p.Start(os);
    p.Stop();
    p.Stop();
  }
}
