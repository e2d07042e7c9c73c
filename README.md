# ProcessStreamConnectionProvider, modelled in Dafny

This project models `ProcessStreamConnectionProvider`, the component of lsp4intellij
that launches a language-server process and hands its standard output and
standard input to the client as the connection's input and output streams. The
provider stores a command list and a working directory. `start()` checks them,
builds a `ProcessBuilder`, spawns the process and checks that it is alive.
`getInputStream()` and `getOutputStream()` return the process's streams, or null
when there is no process. `stop()` asks the process to terminate. `equals` and
`hashCode` give the provider an identity.

The operating-system process is abstract. It is a handle with an `alive` flag and
a count of termination requests, and spawning it may throw or return a
handle whose liveness nobody knows in advance. Java's nulls are `Option`
values. Exceptions are `Outcome`/`Result` values.

Modules:

- `Wrappers` (wrappers.dfy): `Option`, `Outcome`, `Result`.
- `OsProcess` (os_process.dfy): `ProcessBuilder` settings, the `Process` handle class, and `Spawn` (`ProcessBuilder.start()`).
- `LaunchSpecs` (launch_specs.dfy): the stored launch spec, the guard of `start()` and `createProcessBuilder()`.
- `Lifecycle` (lifecycle.dfy): the provider's fields as a state machine over values, and lemmas about any sequence of `start()`/`stop()` calls.
- `Identity` (identity.dfy): the hash combination and the order-insensitive comparison that `equals` is meant to make.
- `StreamConnection` (stream_connection.dfy): the provider class. Its constructor, `Start` and `Stop` are tied to `Lifecycle.Init`, `StartStep` and `StopStep`.

What the code does, and what the model pins down, in places where a reader
might expect something else:

- The command list is never checked for empty strings. Only null entries are rejected.
- `start()` stores the handle before checking liveness. A process that is not alive therefore stays in the field, and its streams stay available.
- Nothing ever resets `process`. `stop()` leaves it set, so the streams are still returned after `stop()`.
- A second `start()` overwrites the stored handle without stopping the first process.
- The quote-stripping lambda in `createProcessBuilder()` assigns only to its own parameter. The builder therefore gets the tokens unchanged.
- `equals` never returns true. Its set comparison is by reference.
- `hashCode` combines `List.hashCode`, which depends on token order. An order-insensitive `equals` is consistent with the XOR hash exactly when the list hash is order-insensitive (`Identity.HashConsistentWithSameLaunchTarget` and `Identity.HashConsistencyNeedsOrderInsensitive`).

## Model

| member | source | states |
|---|---|---|
| LaunchSpecs.Validate | src/main/java/com/github/lsp4intellij/client/connection/ProcessStreamConnectionProvider.java:35-37 | the guard passes exactly when `workingDir` and `commands` are non-null, `commands` is non-empty and every element is non-null (so empty strings pass); a rejection is `InvalidLaunchSpec` |
| LaunchSpecs.StripQuotes | src/main/java/com/github/lsp4intellij/client/connection/ProcessStreamConnectionProvider.java:51 | what `c.replace("'", "")` computes: no single quote remains, every other character is kept with its multiplicity (the result's multiset is the token's without quotes), and a quote-free token is returned unchanged |
| LaunchSpecs.StripQuotesAppend | src/main/java/com/github/lsp4intellij/client/connection/ProcessStreamConnectionProvider.java:51 | stripping a concatenation is the concatenation of the stripped parts, so the remaining characters keep their order |
| LaunchSpecs.CreateProcessBuilder | src/main/java/com/github/lsp4intellij/client/connection/ProcessStreamConnectionProvider.java:49-55 | the builder's command list equals `commands` element for element, its directory is `workingDir`, and standard error is inherited |
| LaunchSpecs.QuotesReachBuilder | src/main/java/com/github/lsp4intellij/client/connection/ProcessStreamConnectionProvider.java:51-52 | a token containing a single quote reaches the builder with the quote, and so differs from the stripped token |
| OsProcess.Spawn | src/main/java/com/github/lsp4intellij/client/connection/ProcessStreamConnectionProvider.java:41 | `builder.start()` is one spawn request to the OS, counted in the OS's number of spawn attempts; it either throws or returns a new handle, appended to the OS's list of spawned processes, launched from the given builder with no termination requests; its liveness is unconstrained |
| OsProcess.Process.Destroy | src/main/java/com/github/lsp4intellij/client/connection/ProcessStreamConnectionProvider.java:72 | `destroy()` records one more termination request on the handle |
| Lifecycle.StartStep | src/main/java/com/github/lsp4intellij/client/connection/ProcessStreamConnectionProvider.java:34-47 | `start()` fails with `InvalidLaunchSpec` exactly when the guard rejects, with `SpawnFailed` exactly when the spawn throws, and with `NotAlive` exactly when the returned handle is not alive; it succeeds only for a live handle; the field changes only when a handle is returned, and then holds that handle whatever it held before; the spec never changes |
| Lifecycle.RunKeepsSpec | src/main/java/com/github/lsp4intellij/client/connection/ProcessStreamConnectionProvider.java:26-29 | no sequence of `start()`/`stop()` calls changes the stored `commands` or `workingDir` |
| Lifecycle.RunProcess | src/main/java/com/github/lsp4intellij/client/connection/ProcessStreamConnectionProvider.java:32-74 | after any sequence of calls, `process` is unchanged if the spec fails the guard; otherwise it is the handle of the last spawn that returned one, alive or not (or its initial value if no spawn did) |
| Lifecycle.NeverReset | src/main/java/com/github/lsp4intellij/client/connection/ProcessStreamConnectionProvider.java:32-74 | once `process` is set, no sequence of calls makes it null again |
| Lifecycle.StopsChangeNothing | src/main/java/com/github/lsp4intellij/client/connection/ProcessStreamConnectionProvider.java:70-74 | any run of `stop()` calls, on any state, leaves the provider's fields as they were |
| Lifecycle.AbsentExactlyWithoutReturnedSpawn | src/main/java/com/github/lsp4intellij/client/connection/ProcessStreamConnectionProvider.java:32-43 | from construction, `process` is null after a sequence of calls exactly when the spec fails the guard or no spawn returned a handle |
| Identity.ObjectsHash | src/main/java/com/github/lsp4intellij/client/connection/ProcessStreamConnectionProvider.java:88 | `Objects.hashCode(null)` is 0 |
| Identity.SpecHash | src/main/java/com/github/lsp4intellij/client/connection/ProcessStreamConnectionProvider.java:88 | the hash is the XOR of the two field hashes: XOR with the directory's hash recovers the list's hash, and a null field contributes nothing |
| Identity.SameLaunchTargetIsEquivalence | src/main/java/com/github/lsp4intellij/client/connection/ProcessStreamConnectionProvider.java:77-84 | the intended comparison is reflexive, symmetric and transitive |
| Identity.PermutedCommandsSameTarget | src/main/java/com/github/lsp4intellij/client/connection/ProcessStreamConnectionProvider.java:80 | any permutation of the tokens with the same working directory is the same launch target |
| Identity.DifferentTargets | src/main/java/com/github/lsp4intellij/client/connection/ProcessStreamConnectionProvider.java:80-81 | different working directories are different targets whatever the command lists (null and empty ones included); so are non-empty token lists with no token in common |
| Identity.HashConsistentWithSameLaunchTarget | src/main/java/com/github/lsp4intellij/client/connection/ProcessStreamConnectionProvider.java:80-88 | with a list hash that sees only size and token set, equal launch targets have equal hashes |
| Identity.HashConsistencyNeedsOrderInsensitive | src/main/java/com/github/lsp4intellij/client/connection/ProcessStreamConnectionProvider.java:80-88 | conversely, if the XOR hash agrees on all equal launch targets, the list hash sees only size and token set |
| StreamConnection.ProcessStreamConnectionProvider.constructor | src/main/java/com/github/lsp4intellij/client/connection/ProcessStreamConnectionProvider.java:26-32 | stores `commands` and `workingDir` as given, without checking, and `process` starts null |
| StreamConnection.ProcessStreamConnectionProvider.Start | src/main/java/com/github/lsp4intellij/client/connection/ProcessStreamConnectionProvider.java:34-47 | the new fields and the outcome are those of `Lifecycle.StartStep` for what the OS answered; a returned handle is new, launched from `createProcessBuilder()`'s settings, and counted alive exactly when `isAlive()` was true; the OS is asked to spawn exactly once when the guard passes and never when it rejects, and the only process spawned is the recorded handle |
| StreamConnection.ProcessStreamConnectionProvider.GetInputStream | src/main/java/com/github/lsp4intellij/client/connection/ProcessStreamConnectionProvider.java:58-62 | null exactly when `process` is null, otherwise the process's standard output; no state changes |
| StreamConnection.ProcessStreamConnectionProvider.GetOutputStream | src/main/java/com/github/lsp4intellij/client/connection/ProcessStreamConnectionProvider.java:64-68 | null exactly when `process` is null, otherwise the process's standard input; no state changes |
| StreamConnection.ProcessStreamConnectionProvider.Stop | src/main/java/com/github/lsp4intellij/client/connection/ProcessStreamConnectionProvider.java:70-74 | no field of the provider changes; the handle `Lifecycle.StopTarget` names (the stored process, if any) gets exactly one more termination request; nothing is thrown |
| StreamConnection.ProcessStreamConnectionProvider.Equals | src/main/java/com/github/lsp4intellij/client/connection/ProcessStreamConnectionProvider.java:76-84 | as written, allocating the two HashSets and comparing them by reference: never true; a `NullPointerException` exactly when the argument is a provider and either command list is null; false otherwise, null and foreign objects included; false when a provider is compared with itself, although it is its own launch target |
| StreamConnection.ProcessStreamConnectionProvider.IntendedEquals | src/main/java/com/github/lsp4intellij/client/connection/ProcessStreamConnectionProvider.java:77-84 | with the sets compared by content: true exactly when both command lists and this `workingDir` are non-null and the two specs are the same launch target; reflexive on non-null fields; the code's null cases still throw |
| StreamConnection.ProcessStreamConnectionProvider.HashCode | src/main/java/com/github/lsp4intellij/client/connection/ProcessStreamConnectionProvider.java:86-89 | XOR with `Objects.hashCode(workingDir)` recovers `Objects.hashCode(commands)`: the hash is the XOR of the two stored fields' hashes |
| StreamConnection.HashCodeNullField | src/main/java/com/github/lsp4intellij/client/connection/ProcessStreamConnectionProvider.java:88 | a null field contributes 0, so the hash is then the other field's hash |
| StreamConnection.IntendedEqualsSymmetric | src/main/java/com/github/lsp4intellij/client/connection/ProcessStreamConnectionProvider.java:80-81 | on providers with non-null fields, the intended comparison gives the same answer both ways |
| StreamConnection.IntendedEqualsIgnoresOrder | src/main/java/com/github/lsp4intellij/client/connection/ProcessStreamConnectionProvider.java:80 | the intended comparison is true for providers whose token lists are permutations of each other and whose directories agree |
| StreamConnection.HashIgnoresProcess | src/main/java/com/github/lsp4intellij/client/connection/ProcessStreamConnectionProvider.java:88 | providers with the same stored fields have the same hash, whatever process each holds |
| StreamConnection.StartThenStopTwice | src/main/java/com/github/lsp4intellij/client/connection/ProcessStreamConnectionProvider.java:34-74 | construct, start, stop twice: the outcome is `InvalidLaunchSpec` exactly for an invalid spec; after a successful start, and also after a failed liveness check, both streams are still returned after the two stops; a live process gets exactly two termination requests; after `InvalidLaunchSpec` or `SpawnFailed` both streams are absent; an invalid spec spawns nothing and a valid one exactly one spawn request |

## Findings

| source | as written | input that shows it | evidently intended | confidence | as-written member | corrected member |
|---|---|---|---|---|---|---|
| src/main/java/com/github/lsp4intellij/client/connection/ProcessStreamConnectionProvider.java:80 | `new HashSet<>(commands) == new HashSet<>(other.commands)` compares two freshly allocated sets by reference, so `equals` is never true | `p.equals(p)` for `p` built with `commands = ["echo"]`, `workingDir = "/tmp"` gives false | compare the two sets by content (`HashSet.equals`), making `equals` an order-insensitive comparison of the tokens plus the directory; the size check stays, so `["a", "a"]` and `["a"]` remain different | high (not executed) | StreamConnection.ProcessStreamConnectionProvider.Equals | StreamConnection.ProcessStreamConnectionProvider.IntendedEquals |

## Left out

- Process creation itself (`ProcessBuilder.start()`, resolving `new File(workingDir)`) is foreign OS code. `Spawn` may throw or return a handle whose liveness is arbitrary.
- `Redirect.INHERIT` (line 54) is recorded in the builder settings. What inheriting standard error does is not modelled.
- OsProcess.Process.Destroy: leaves `alive` unconstrained, because when (or whether) a destroyed process exits is up to the OS.
- Stream contents and all I/O. Streams are opaque values that the OS picks when it spawns a handle; each handle keeps its own.
- The logger (lines 22, 40 and 45) and the `toString()` text of the exception messages. The guard and the liveness check throw `IOException`. `ProcessBuilder.start()` may throw an `IOException` or an unchecked exception such as `SecurityException` or `UnsupportedOperationException`; the model folds all of these into `SpawnFailed`. The three failures are told apart as `InvalidLaunchSpec`, `SpawnFailed` and `NotAlive`.
- Identity.SpecHash: `List.hashCode` and `String.hashCode` are abstract functions passed as parameters. Their arithmetic is not modelled, so the model cannot show that the list hash depends on token order.
- `commands.contains(null)` is modelled as a plain membership test. Some immutable Java lists throw a `NullPointerException` from `contains(null)` instead.
- Aliasing of the `commands` list: the provider keeps the caller's list object, and later changes the caller makes to it are not modelled. The model stores the list's value at construction.
- Thread safety: the class has no locking, and calls are modelled one at a time.
