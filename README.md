# A verified model of the `chain` command executor

`SimpleChain` (package `fr.duminy.components.chain`) runs a fixed, ordered
list of commands against one caller-owned context. For each command it:

1. tells the optional listener `commandStarted`;
2. calls `execute`;
3. if `execute` throws, hands the error to the error logger with the tag
   `"execute"`;
4. always tells the listener `commandFinished`, passing the command's error
   or null;
5. if the error was recorded, calls the command's `revert` and rethrows the
   error, so no later command runs.

A listener exception is passed to the error logger, tagged `"commandStarted"`
or `"commandFinished"`, and is then swallowed. A null logger is replaced by
the default logger. A chain is itself a command, so chains nest.

The model has five modules:

- `Wrappers`: `Option`.
- `Observers`: exceptions (`Error`), completions (`Completion`), and the
  listener and logger. Both are scripted by command name: a script says which
  callback throws, for which command, and what it throws.
- `Commands`: the `Command` and `SimpleChain` datatypes, and the `execute` and
  `revert` of a scripted command. The context's state is a journal of the
  updates made to it.
- `SimpleChains`:
  - the event trace (every call to the listener, the commands and a recording
    logger, in order);
  - the recursive specification `RunChain` / `RunCommands` / `Step` /
    `Finally` / `ExecuteCommand`;
  - a `Context` class;
  - the executor: the methods `Execute` / `ExecuteCommands` / `ExecuteOne` /
    `FinallyBlock` / `CommandExecute`. They loop over the command list,
    update the context object in place, and are proved to agree with the
    specification.
- `ChainProperties`: the properties the class and its tests promise, proved
  of the specification. The executor's postconditions carry them over to the
  executor.

Java's `try`/`catch`/`finally` is written out. Every call yields a
`Completion`, and in the `finally` block an exception from the notification
or from `revert` replaces the pending one.

Where the code and a plain reading of the class's intent differ, the model
follows the code:

- A logger that throws inside the `execute` catch escapes with its own
  exception. `errorInCommand` is still null at that point, so
  `commandFinished` is told there was no error and `revert` is skipped.
- A logger that throws while logging a `commandStarted` failure escapes before
  the command runs.
- A logger that throws while logging a `commandFinished` failure escapes from
  the `finally` block, and `revert` is skipped.
- An exception from `revert` replaces the command's own error.

## Model

| member | source | states |
|---|---|---|
| Observers.Tag | src/main/java/fr/duminy/components/chain/SimpleChain.java:66-93 | the three phases map one-to-one onto the tags "commandStarted", "execute" and "commandFinished" |
| Observers.Logger.Failure | src/main/java/fr/duminy/components/chain/SimpleChain.java:102-120 | the default logger never throws; a recording logger throws exactly for the scripted (phase, command) pairs, and throws the scripted error |
| Commands.ExecuteLeaf | src/main/java/fr/duminy/components/chain/Command.java:30 | a command's `execute` appends its writes to the context and leaves the earlier state intact; it throws exactly when its script says so, and throws the scripted error |
| Commands.Revert | src/main/java/fr/duminy/components/chain/Command.java:33-34 | the default `revert`, which a chain inherits, leaves the context unchanged and does not throw; an overriding `revert` appends its own updates and throws exactly its scripted error |
| SimpleChains.New | src/main/java/fr/duminy/components/chain/SimpleChain.java:39-41 | the chain keeps the given commands and has no listener; a null logger becomes the default logger, and any other logger is kept |
| SimpleChains.NewWithListener | src/main/java/fr/duminy/components/chain/SimpleChain.java:43-47 | the chain keeps the given commands and listener; a null logger becomes the default logger, and any other logger is kept |
| SimpleChains.LogError | src/main/java/fr/duminy/components/chain/SimpleChain.java:98-100 | the default logger makes no visible call and does not throw; a recording logger records exactly (the phase's method string, command, error); the call throws exactly when the logger is scripted to, and throws the logger's error |
| SimpleChains.NotifyStarted | src/main/java/fr/duminy/components/chain/SimpleChain.java:78-86 | with no listener, nothing happens; otherwise the calls are exactly `commandStarted`, then, if the listener threw, a log of its exception tagged "commandStarted"; an exception escapes if and only if both the listener and then the logger threw, and it is the logger's exception |
| SimpleChains.NotifyFinished | src/main/java/fr/duminy/components/chain/SimpleChain.java:88-96 | as NotifyStarted, for `commandFinished`, which receives the command's error or null, with the tag "commandFinished" |
| SimpleChains.Execute | src/main/java/fr/duminy/components/chain/SimpleChain.java:49-52 | the calls made, the context's new state and the completion are exactly those of the specification `RunChain` |
| SimpleChains.ExecuteCommands | src/main/java/fr/duminy/components/chain/SimpleChain.java:54-76 | the loop over the commands agrees with `RunCommands`: each command in turn, stopping at the first exception |
| SimpleChains.ExecuteOne | src/main/java/fr/duminy/components/chain/SimpleChain.java:59-68 | one iteration (notify, execute, catch and log, rethrow) agrees with `Step` |
| SimpleChains.FinallyBlock | src/main/java/fr/duminy/components/chain/SimpleChain.java:69-74 | the `finally` block agrees with `Finally`: it notifies the finish, reverts only if `errorInCommand` is set, and a new exception replaces the pending one |
| SimpleChains.CommandExecute | src/main/java/fr/duminy/components/chain/SimpleChain.java:64 | `command.execute(context)` agrees with `ExecuteCommand`; a nested chain runs its own `execute` on the same context object |
| ChainProperties.RunCommandsAppend | src/main/java/fr/duminy/components/chain/SimpleChain.java:59-75 | running `xs + ys` runs `xs` and then, only if `xs` completed normally, runs `ys` from the state `xs` left |
| ChainProperties.ShortCircuit | src/main/java/fr/duminy/components/chain/SimpleChain.java:59-75 | if command `i` is the first to throw, the whole run is the run of the first `i + 1` commands: nothing after command `i` is notified, executed, logged or reverted |
| ChainProperties.StepTrace | src/main/java/fr/duminy/components/chain/SimpleChain.java:60-74 | a step's calls, in order: started notification, execute, catch-block log, finished notification, then `revert` exactly when the finish completed and `errorInCommand` is set |
| ChainProperties.NormalRunHasNoRevert | src/main/java/fr/duminy/components/chain/SimpleChain.java:62-73 | a run that completes normally calls `revert` on no command, nested ones included |
| ChainProperties.NormalStepHasNoRevert | src/main/java/fr/duminy/components/chain/SimpleChain.java:62-73 | a step completes normally only if its command's `execute` did, and such a step calls no `revert` |
| ChainProperties.StepReverts | src/main/java/fr/duminy/components/chain/SimpleChain.java:62-73 | a step's `revert` calls are those its command's execution made, plus one exactly when `errorInCommand` is set and the finished notification completed |
| ChainProperties.SucceededNeverReverted | src/main/java/fr/duminy/components/chain/SimpleChain.java:59-75 | when command `i` is the first to throw, every `revert` call of the run is one its step made: the commands that completed before it are never reverted |
| ChainProperties.RevertExactlyWhenRecorded | src/main/java/fr/duminy/components/chain/SimpleChain.java:62-73 | a step adds one `revert` call exactly when `execute` threw and both the logger and the finished notification completed normally; after a successful `execute`, none |
| ChainProperties.ExecuteFailureProtocol | src/main/java/fr/duminy/components/chain/SimpleChain.java:63-73 | a failing command: execute, then log ("execute", c, e), then `commandFinished(c, e)`, then one `revert`; then `e` itself is rethrown, unless the finish or `revert` threw instead |
| ChainProperties.LoggerFailureInExecuteCatch | src/main/java/fr/duminy/components/chain/SimpleChain.java:65-73 | a logger that throws in the `execute` catch: `commandFinished` gets null, there is no `revert`, the context keeps the command's updates, and the logger's exception escapes unless the finish threw |
| ChainProperties.LoggerFailureInStarted | src/main/java/fr/duminy/components/chain/SimpleChain.java:78-86 | a logger that throws while logging a `commandStarted` failure ends the run before the command executes, with the logger's exception |
| ChainProperties.FirstCommandFails | src/test/java/fr/duminy/components/chain/SimpleChainTest.java:172-186 | the first command throws `e`: the calls are execute, log ("execute", command1, e) and one `revert`; `e` is rethrown; later commands are never touched |
| ChainProperties.SubChainFailure | src/test/java/fr/duminy/components/chain/SimpleChainTest.java:154-170 | the inner chain logs and reverts its failing command; the outer chain logs ("execute", subChain, e), reverts the sub-chain (a no-op), and rethrows `e`; the command after the sub-chain never runs |
| ChainProperties.SubChainFirstCommandFails | src/test/java/fr/duminy/components/chain/SimpleChainTest.java:154-170 | a sub-chain of one failing command: execute, inner log ("execute", command1, e), inner `revert`, outer log ("execute", subChain, e), the sub-chain's no-op `revert`; `e` is rethrown and the command after the sub-chain never runs |
| ChainProperties.UnlistenedStep | src/main/java/fr/duminy/components/chain/SimpleChain.java:39-41 | a chain built without a listener calls no `commandStarted` or `commandFinished`: a step's calls are only execute, the catch block's log and the `revert` |
| ChainProperties.RunAllWithoutListener | src/main/java/fr/duminy/components/chain/SimpleChain.java:59-75 | with no listener and no failure, each command's `execute` is called exactly once, in list order (nested chains included); there are no notifications; the run completes normally; an empty list does nothing |
| ChainProperties.QuietCommandsRun | src/main/java/fr/duminy/components/chain/SimpleChain.java:59-75 | the same, for any suffix of a command list |
| ChainProperties.ListenerErrorsSwallowed | src/main/java/fr/duminy/components/chain/SimpleChain.java:78-96 | for a list of scripted commands none of which fails (no nested chains) and a logger that does not throw on listener errors, with a listener, each command in turn: `commandStarted`, its exception logged once with its phase if it threw, `execute`, `commandFinished(c, null)`, its exception logged likewise; the run completes normally |
| ChainProperties.ListenedStep | src/main/java/fr/duminy/components/chain/SimpleChain.java:60-74 | the same, for one command |
| ChainProperties.DefaultLoggerSwallowsListenerErrors | src/main/java/fr/duminy/components/chain/SimpleChain.java:46 | with a null logger, a listener that throws everywhere leads to the same calls, context and normal completion as one that never throws |
| ChainProperties.ContextChangesOnlyThroughCommands | src/main/java/fr/duminy/components/chain/Command.java:23-34 | the context after a run is the context before, followed by exactly the updates of the `execute` and overriding `revert` calls in the trace: the chain's own code writes nothing to the context; only `execute` and overriding `revert` calls change it |
| ChainProperties.StepEffects | src/main/java/fr/duminy/components/chain/SimpleChain.java:60-74 | the same, for one step, on every path including one that ends with an exception |

## Left out

- The body of `DefaultListenerErrorLogger` (SimpleChain.java:107-120) writes to `java.util.logging`. The model's `DefaultLogger` makes no visible call and never throws.
- Throwables that are not `Exception`s (`java.lang.Error`) are not modelled; the model has only exceptions. In the source such a throwable passes through all three `catch` clauses (SimpleChain.java:65, 82, 92). Thrown by `execute`, it still reaches the `finally` block, which calls `commandFinished(c, null)` and skips `revert`.
- Checked and unchecked exceptions are not told apart. An overriding `revert` may fail only with an unchecked exception, and `CustomRevert`'s failure stands for that.
- Java generics (`T extends Command<C>`) and varargs are not modelled; the command list is a `seq`.
- The `commands == null` check (SimpleChain.java:55-57) is not modelled. It cannot trigger, because `Arrays.asList` at line 44 rejects a null array.
- A chain that contains itself (it would end in a `StackOverflowError`) cannot be built from the datatypes.
- Concurrent or re-entrant use of a chain or a context is not modelled.
- The command list is a `seq` value inside an immutable `SimpleChain`, which `Execute` only reads. The source's field is final (SimpleChain.java:35), but `Arrays.asList` at line 44 keeps a view that writes through to the caller's varargs array. A caller who passes an explicit array and later stores into it changes what `executeCommands` iterates. The model does not capture this aliasing with the caller's array.
- Null elements of the command array are not modelled (`Arrays.asList` accepts them). In the source a null command is passed to `listener.commandStarted`. The `NullPointerException` from `command.execute` at line 64 is logged as "execute", and then the one from `command.revert` at line 72 replaces it.
- Listener and logger behaviour is scripted per command name. A listener cannot react to the context or to the error it is handed.
- Listener and logger calls are modelled as not changing the context. The source hands both the mutable context (`commandStarted` at SimpleChain.java:81, `commandFinished` at line 91, `logError` at line 99), and nothing in `SimpleChain` stops them from changing it. The properties about the context state what the chain's own code and the commands do.
- Events do not say which listener or logger object made a call. Nested chains with different loggers are told apart only by their scripts.
- A command's effect on the context is a list of updates appended to a journal. Other kinds of context mutation, and aliasing between contexts, are not modelled.
- `Chain.java` is an empty marker interface. It appears only as the `Sub` command, a chain nested as a command.
