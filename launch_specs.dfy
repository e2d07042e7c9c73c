/**
 * The launch specification a provider is constructed with, the guard that
 * `start()` applies to it, and the ProcessBuilder that `createProcessBuilder()`
 * derives from it.
 */
module LaunchSpecs {
  import opened Wrappers
  import opened OsProcess

  /** A Java `List<String>`: the list itself may be null, and so may each element. */
  type CommandList = Option<seq<Option<string>>>

  /** The two fields `commands` and `workingDir` as the constructor stored them. */
  datatype LaunchSpec = LaunchSpec(commands: CommandList, workingDir: Option<string>)

  /**
   * The three ways `start()` throws an IOException: the guard rejects the spec,
   * `ProcessBuilder.start()` throws, or the spawned process is not alive.
   */
  datatype StartError = InvalidLaunchSpec | SpawnFailed | NotAlive

  /**
   * The guard at the top of `start()`: the working directory and the command
   * list must be non-null, the list non-empty and free of null elements. Empty
   * strings pass.
   */
  function Validate(spec: LaunchSpec): (r: Outcome<StartError>)
    ensures r.Pass? <==>
      spec.workingDir.Some? && spec.commands.Some? && |spec.commands.value| > 0 &&
      forall i :: 0 <= i < |spec.commands.value| ==> spec.commands.value[i].Some?
    ensures r.Fail? ==> r.error == InvalidLaunchSpec
  {
    if spec.workingDir.None? || spec.commands.None? || |spec.commands.value| == 0 || None in spec.commands.value
    then Fail(InvalidLaunchSpec)
    else Pass
  }

  predicate Valid(spec: LaunchSpec) {
    Validate(spec).Pass?
  }

  /** The non-null tokens of a command list that passed the guard. */
  function Tokens(spec: LaunchSpec): (tokens: seq<string>)
    requires Valid(spec)
    ensures |tokens| == |spec.commands.value|
    ensures forall i :: 0 <= i < |tokens| ==> spec.commands.value[i] == Some(tokens[i])
  {
    var cs := spec.commands.value;
    seq(|cs|, i requires 0 <= i < |cs| => cs[i].value)
  }

  /** What `c.replace("'", "")` computes for one token: the token without its single quotes. */
  function StripQuotes(s: string): (r: string)
    ensures '\'' !in r
    ensures forall ch :: ch != '\'' ==> (ch in r <==> ch in s)
    ensures '\'' !in s ==> r == s
    ensures multiset(r) == multiset(s)['\'' := 0]
  {
    if s == [] then []
    else
      assert s == [s[0]] + s[1..];
      assert multiset(s) == multiset([s[0]]) + multiset(s[1..]);
      if s[0] == '\'' then StripQuotes(s[1..])
      else [s[0]] + StripQuotes(s[1..])
  }

  /** Stripping works token-piece by token-piece, so it keeps the order of the remaining characters. */
  lemma {:induction false} StripQuotesAppend(a: string, b: string)
    ensures StripQuotes(a + b) == StripQuotes(a) + StripQuotes(b)
    decreases |a|
  {
    if a == [] {
      assert a + b == b;
    } else {
      assert (a + b)[0] == a[0] && (a + b)[1..] == a[1..] + b;
      StripQuotesAppend(a[1..], b);
    }
  }

  /**
   * `createProcessBuilder()`, called only after the guard has passed. The
   * `forEach` lambda computes `StripQuotes` of each token but assigns the
   * result to its own parameter, so the list is left as it was and the builder
   * receives the tokens unchanged, quotes included.
   */
  function CreateProcessBuilder(spec: LaunchSpec): (b: ProcessBuilder)
    requires Valid(spec)
    ensures |b.command| == |spec.commands.value|
    ensures forall i :: 0 <= i < |b.command| ==> spec.commands.value[i] == Some(b.command[i])
    ensures spec.workingDir == Some(b.directory)
    ensures b.redirectError == Inherit
  {
    ProcessBuilder(Tokens(spec), spec.workingDir.value, Inherit)
  }

  /** A token that holds a single quote reaches the builder with that quote, not stripped. */
  lemma QuotesReachBuilder(spec: LaunchSpec, i: nat)
    requires Valid(spec) && i < |spec.commands.value|
    requires '\'' in spec.commands.value[i].value
    ensures '\'' in CreateProcessBuilder(spec).command[i]
    ensures CreateProcessBuilder(spec).command[i] != StripQuotes(spec.commands.value[i].value)
  {
  }
}
