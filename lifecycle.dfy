/**
 * The provider's lifecycle as a state machine over values: the stored launch
 * spec and the nullable `process` field, with `start()` and `stop()` as steps.
 * The handle type `H` is left abstract; the class in StreamConnection
 * instantiates it with OsProcess.Process and ties each method to a step here.
 */
module Lifecycle {
  import opened Wrappers
  import opened LaunchSpecs

  /** The fields of a provider: its launch spec and the `process` field (null = None). */
  datatype State<H> = State(spec: LaunchSpec, process: Option<H>)

  /** What `ProcessBuilder.start()` did: it threw, or returned a handle that was (or was not) alive. */
  datatype Spawn<H> = Threw | Returned(handle: H, alive: bool)

  /** A lifecycle call on a provider, with the OS's answer for a spawn. */
  datatype Event<H> = Start(spawn: Spawn<H>) | Stop

  /** The state right after the constructor. */
  function Init<H>(spec: LaunchSpec): (s: State<H>) {
    State(spec, None)
  }

  /**
   * `start()`: the guard first, then the spawn, then the liveness check. The
   * field is assigned as soon as a handle is returned, before liveness is
   * checked, and whatever handle it held before is overwritten.
   */
  function StartStep<H>(s: State<H>, spawn: Spawn<H>): (res: (State<H>, Outcome<StartError>))
    ensures res.0.spec == s.spec
    ensures res.1 == Fail(InvalidLaunchSpec) <==> !Valid(s.spec)
    ensures res.1 == Pass <==> Valid(s.spec) && spawn.Returned? && spawn.alive
    ensures res.1 == Fail(SpawnFailed) <==> Valid(s.spec) && spawn.Threw?
    ensures res.1 == Fail(NotAlive) <==> Valid(s.spec) && spawn.Returned? && !spawn.alive
    ensures res.0.process != s.process ==> Valid(s.spec) && spawn.Returned?
    ensures Valid(s.spec) && spawn.Returned? ==> res.0.process == Some(spawn.handle)
  {
    if !Valid(s.spec) then (s, Fail(InvalidLaunchSpec))
    else match spawn
      case Threw => (s, Fail(SpawnFailed))
      case Returned(h, alive) =>
        (s.(process := Some(h)), if alive then Pass else Fail(NotAlive))
  }

  /**
   * `stop()` leaves every field of the provider as it was; it only asks the
   * stored handle, if any, to terminate (that handle is `StopTarget`).
   */
  function StopStep<H>(s: State<H>): (t: State<H>) {
    s
  }

  /** The handle that `stop()` calls `destroy()` on, if any. */
  function StopTarget<H>(s: State<H>): (target: Option<H>) {
    s.process
  }

  function Step<H>(s: State<H>, e: Event<H>): (t: State<H>) {
    match e
    case Start(spawn) => StartStep(s, spawn).0
    case Stop => StopStep(s)
  }

  /** The state after a sequence of lifecycle calls, in order. */
  function Run<H>(s: State<H>, events: seq<Event<H>>): (t: State<H>)
    decreases |events|
  {
    if events == [] then s else Run(Step(s, events[0]), events[1..])
  }

  /**
   * Reference definition of the `process` field after a sequence of calls on
   * a provider whose spec passes the guard: the handle of the last spawn that
   * returned one (alive or not), or the initial value if none did.
   */
  function LastReturned<H>(initial: Option<H>, events: seq<Event<H>>): (last: Option<H>)
    decreases |events|
  {
    if events == [] then initial
    else match events[|events| - 1]
      case Start(Returned(h, _)) => Some(h)
      case _ => LastReturned(initial, events[..|events| - 1])
  }

  lemma {:induction false} RunSnoc<H>(s: State<H>, events: seq<Event<H>>, e: Event<H>)
    ensures Run(s, events + [e]) == Step(Run(s, events), e)
    decreases |events|
  {
    if events == [] {
      assert events + [e] == [e];
    } else {
      assert (events + [e])[1..] == events[1..] + [e];
      RunSnoc(Step(s, events[0]), events[1..], e);
    }
  }

  /** No call ever changes the stored launch spec. */
  lemma {:induction false} RunKeepsSpec<H>(s: State<H>, events: seq<Event<H>>)
    ensures Run(s, events).spec == s.spec
    decreases |events|
  {
    if events != [] {
      RunKeepsSpec(Step(s, events[0]), events[1..]);
    }
  }

  /**
   * The `process` field after any sequence of calls: unchanged forever when
   * the spec fails the guard, otherwise the handle of the last spawn that
   * returned one. Failed liveness checks and `stop()` calls never clear it.
   */
  lemma {:induction false} RunProcess<H>(s: State<H>, events: seq<Event<H>>)
    ensures Run(s, events).process == if Valid(s.spec) then LastReturned(s.process, events) else s.process
    decreases |events|
  {
    if events != [] {
      var n := |events| - 1;
      var prefix := events[..n];
      assert events == prefix + [events[n]];
      RunSnoc(s, prefix, events[n]);
      RunProcess(s, prefix);
      RunKeepsSpec(s, prefix);
    }
  }

  lemma {:induction false} LastReturnedKeepsPresence<H>(initial: Option<H>, events: seq<Event<H>>)
    requires initial.Some?
    ensures LastReturned(initial, events).Some?
    decreases |events|
  {
    if events != [] {
      LastReturnedKeepsPresence(initial, events[..|events| - 1]);
    }
  }

  /** Once the `process` field is set, no sequence of calls resets it to null. */
  lemma NeverReset<H>(s: State<H>, events: seq<Event<H>>)
    requires s.process.Some?
    ensures Run(s, events).process.Some?
  {
    RunProcess(s, events);
    if Valid(s.spec) {
      LastReturnedKeepsPresence(s.process, events);
    }
  }

  /** Any number of `stop()` calls in a row, on any state, change nothing. */
  lemma {:induction false} StopsChangeNothing<H>(s: State<H>, events: seq<Event<H>>)
    requires forall i :: 0 <= i < |events| ==> events[i].Stop?
    ensures Run(s, events) == s
    decreases |events|
  {
    if events != [] {
      StopsChangeNothing(s, events[1..]);
    }
  }

  /**
   * A provider that was never started has no process, and neither has one
   * whose starts have all been rejected or have all thrown: the field is
   * null after a sequence of calls exactly when no spawn returned a handle.
   */
  lemma {:induction false} AbsentExactlyWithoutReturnedSpawn<H>(spec: LaunchSpec, events: seq<Event<H>>)
    ensures Run(Init<H>(spec), events).process.None? <==>
      !Valid(spec) || forall i :: 0 <= i < |events| ==> !(events[i].Start? && events[i].spawn.Returned?)
    decreases |events|
  {
    RunProcess(Init<H>(spec), events);
    if Valid(spec) {
      NoneExactlyWithoutReturned(events);
    }
  }

  lemma {:induction false} NoneExactlyWithoutReturned<H>(events: seq<Event<H>>)
    ensures LastReturned(None, events).None? <==>
      forall i :: 0 <= i < |events| ==> !(events[i].Start? && events[i].spawn.Returned?)
    decreases |events|
  {
    if events != [] {
      var n := |events| - 1;
      NoneExactlyWithoutReturned(events[..n]);
      assert forall i :: 0 <= i < n ==> events[..n][i] == events[i];
    }
  }
}
