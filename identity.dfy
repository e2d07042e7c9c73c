/**
 * Identity of providers: the hash combination `hashCode()` uses, and the
 * order-insensitive comparison that `equals()` is evidently meant to perform
 * (same number of tokens, same set of tokens, same working directory).
 */
module Identity {
  import opened Wrappers
  import opened LaunchSpecs

  /** `Objects.hashCode(x)`: 0 for null, otherwise the object's own hash `h`. */
  function ObjectsHash<T>(h: T -> bv32, x: Option<T>): (r: bv32)
    ensures x.None? ==> r == 0
  {
    match x
    case None => 0
    case Some(v) => h(v)
  }

  /**
   * `Objects.hashCode(commands) ^ Objects.hashCode(workingDir)` as a Java
   * `int`. `listHash` and `strHash` stand for `List.hashCode` and
   * `String.hashCode`, whose arithmetic is not modelled.
   */
  function SpecHash(spec: LaunchSpec, listHash: seq<Option<string>> -> bv32, strHash: string -> bv32): (r: bv32)
    ensures r ^ ObjectsHash(strHash, spec.workingDir) == ObjectsHash(listHash, spec.commands)
    ensures spec.commands.None? ==> r == ObjectsHash(strHash, spec.workingDir)
    ensures spec.workingDir.None? ==> r == ObjectsHash(listHash, spec.commands)
  {
    var c, w := ObjectsHash(listHash, spec.commands), ObjectsHash(strHash, spec.workingDir);
    XorCancels(c, w);
    c ^ w
  }

  lemma XorCancels(x: bv32, y: bv32)
    ensures (x ^ y) ^ y == x
  {
  }

  /** The tokens of a command list as an unordered set, as `new HashSet<>(commands)` holds them. */
  function Elements(cs: seq<Option<string>>): (elems: set<Option<string>>) {
    set c | c in cs
  }

  /**
   * The comparison `equals()` is evidently meant to make: the same working
   * directory, and command lists of equal size holding the same set of
   * tokens, in any order. Null fields compare equal to null fields only.
   */
  predicate SameLaunchTarget(a: LaunchSpec, b: LaunchSpec) {
    a.workingDir == b.workingDir &&
    (a.commands.None? <==> b.commands.None?) &&
    (a.commands.Some? && b.commands.Some? ==>
       |a.commands.value| == |b.commands.value| && Elements(a.commands.value) == Elements(b.commands.value))
  }

  lemma SameLaunchTargetIsEquivalence(a: LaunchSpec, b: LaunchSpec, c: LaunchSpec)
    ensures SameLaunchTarget(a, a)
    ensures SameLaunchTarget(a, b) ==> SameLaunchTarget(b, a)
    ensures SameLaunchTarget(a, b) && SameLaunchTarget(b, c) ==> SameLaunchTarget(a, c)
  {
  }

  /** Reordering the tokens (any permutation) does not change the launch target. */
  lemma PermutedCommandsSameTarget(a: LaunchSpec, b: LaunchSpec)
    requires a.workingDir == b.workingDir && a.commands.Some? && b.commands.Some?
    requires multiset(a.commands.value) == multiset(b.commands.value)
    ensures SameLaunchTarget(a, b)
  {
    var xs, ys := a.commands.value, b.commands.value;
    assert |xs| == |multiset(xs)| == |multiset(ys)| == |ys|;
    forall c ensures c in Elements(xs) <==> c in Elements(ys) {
      assert c in xs <==> c in multiset(xs);
      assert c in ys <==> c in multiset(ys);
    }
  }

  /** Different working directories, or non-empty command lists with no token in common, are different targets. */
  lemma DifferentTargets(a: LaunchSpec, b: LaunchSpec)
    ensures a.workingDir != b.workingDir ==> !SameLaunchTarget(a, b)
    ensures (a.commands.Some? && b.commands.Some? && |a.commands.value| > 0 &&
             Elements(a.commands.value) !! Elements(b.commands.value)) ==> !SameLaunchTarget(a, b)
  {
    if a.commands.Some? && |a.commands.value| > 0 {
      var c := a.commands.value[0];
      assert c in Elements(a.commands.value);
    }
  }

  /** A list hash that sees only the size and the set of tokens, as a hash consistent with `SameLaunchTarget` must. */
  ghost predicate OrderInsensitive(listHash: seq<Option<string>> -> bv32) {
    forall xs: seq<Option<string>>, ys: seq<Option<string>> ::
      |xs| == |ys| && Elements(xs) == Elements(ys) ==> listHash(xs) == listHash(ys)
  }

  /** With an order-insensitive list hash, the XOR combination agrees on every pair of equal launch targets. */
  lemma HashConsistentWithSameLaunchTarget(a: LaunchSpec, b: LaunchSpec,
                                            listHash: seq<Option<string>> -> bv32, strHash: string -> bv32)
    requires OrderInsensitive(listHash)
    requires SameLaunchTarget(a, b)
    ensures SpecHash(a, listHash, strHash) == SpecHash(b, listHash, strHash)
  {
    if a.commands.Some? {
      var xs, ys := a.commands.value, b.commands.value;
      assert listHash(xs) == listHash(ys);
    }
  }

  /**
   * Conversely, if the XOR hash agrees on every pair of equal launch targets,
   * the list hash must be order-insensitive: a list hash that depends on token
   * order, as `List.hashCode` does, breaks the hash contract of the intended
   * comparison.
   */
  lemma HashConsistencyNeedsOrderInsensitive(listHash: seq<Option<string>> -> bv32, strHash: string -> bv32)
    requires forall a: LaunchSpec, b: LaunchSpec ::
      SameLaunchTarget(a, b) ==> SpecHash(a, listHash, strHash) == SpecHash(b, listHash, strHash)
    ensures OrderInsensitive(listHash)
  {
    forall xs: seq<Option<string>>, ys: seq<Option<string>> | |xs| == |ys| && Elements(xs) == Elements(ys)
      ensures listHash(xs) == listHash(ys)
    {
      var a, b := LaunchSpec(Some(xs), None), LaunchSpec(Some(ys), None);
      assert SameLaunchTarget(a, b);
      assert SpecHash(a, listHash, strHash) == SpecHash(b, listHash, strHash);
    }
  }
}
