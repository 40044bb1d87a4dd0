# Coroutine steps and the code-execution step

A model of the step abstraction of the esoco `coroutines` library: the base
class `CoroutineStep` (naming, blocking execution, the default asynchronous
hand-off to the continuation, coroutine termination) and its general-purpose
subclass `CodeExecution`, which adapts lambdas of many shapes to the canonical
`(input, continuation) -> output` form.

A step is a pure function from an input and a context to an output and the
context it leaves behind. The context (`Continuations.Ctx`) is an immutable
record of the continuation's parameters, the coroutine scope's parameters, the
state outside the coroutine that side-effecting code may change (the type
parameter `W`), and a flag recording that termination of the coroutine was
requested. The continuation's and scope's get/set behaviour is not part of this
model; it is assumed to behave like map lookup and map update, with relation
types identified by name and an unset parameter reading as `None` (null).

Modules:
- `Wrappers`: `Option` (for null) and `Result` (for a failed construction).
- `Continuations`: the context and its parameter get/set operations.
- `CoroutineSteps`: the step datatype (one constructor per concrete step
  class, so far `CodeExecution`), `Execute`, `RunBlocking`, `RunAsync`,
  `ToString`, `TerminateCoroutine`, and the simple-name rule that names a step.
- `CodeExecutions`: both constructors and every factory.
- `Pipelines`: what the factories promise, as predicates (passes its input
  through, keeps the context, ignores its input), read-after-write, and
  running several steps one after another by blocking execution. The chain
  (`RunChain`, `RunSequentially`) is this model's own construction for
  stating how single `runBlocking` calls compose; the library's own driver
  of a coroutine (the continuation and scheduler) is not part of this model.

## Model

| member | source | states |
|---|---|---|
| Continuations.Set | src/main/java/de/esoco/coroutine/step/CodeExecution.java:178 | writing a continuation parameter makes it read back as the written value (writing null clears it, so it reads as null), every other parameter reads as before, scope, world and termination flag unchanged |
| Continuations.ScopeSet | src/main/java/de/esoco/coroutine/step/CodeExecution.java:194 | writing a scope parameter makes it read back as written, null included, other scope parameters unchanged, continuation parameters unchanged |
| CoroutineSteps.SimpleName | src/main/java/de/esoco/coroutine/CoroutineStep.java:72 | the simple class name is the longest suffix of the qualified name without a `.`: dot-free, a suffix, and either the whole name or preceded by a `.` |
| CoroutineSteps.SimpleNameAfterPackage | src/main/java/de/esoco/coroutine/CoroutineStep.java:72 | for any package `p` and dot-free class name `n`, the simple name of `p.n` is `n` |
| CoroutineSteps.CodeExecutionSimpleName | src/main/java/de/esoco/coroutine/CoroutineStep.java:71-73 | the name given to every `CodeExecution` step is "CodeExecution" |
| CoroutineSteps.Create | src/main/java/de/esoco/coroutine/CoroutineStep.java:125-127 | a newly constructed step holds the given code, its NAME is the simple name of its class, and its string form (the NAME value) is "CodeExecution" |
| CoroutineSteps.RunAsync | src/main/java/de/esoco/coroutine/CoroutineStep.java:102-106 | the default asynchronous run asks the given continuation to continue the given previous future with the given next step, applying a function that, on every input and every state of the continuation at the time it runs, equals blocking execution of this step |
| Pipelines.CopyParameter | src/main/java/de/esoco/coroutine/step/CodeExecution.java:116-182 | a `getParameter(a)` step followed by a `setParameter(b)` step outputs what `a` read and leaves `b` reading as `a` did, null included, with every other parameter, the scope, world and flag unchanged |
| Pipelines.AsyncReadAfterWrite | src/main/java/de/esoco/coroutine/CoroutineStep.java:102-106 | the hand-off reads the continuation when it is carried out: an asynchronously requested `getParameter(k)` run after an asynchronously requested `setParameter(k)` on a value or null `v` outputs `v` |
| CoroutineSteps.TerminateCoroutine | src/main/java/de/esoco/coroutine/CoroutineStep.java:145-147 | termination is requested and nothing else in the context changes |
| CoroutineSteps.TerminateKeepsParameters | src/main/java/de/esoco/coroutine/CoroutineStep.java:145-147 | requesting termination twice is the same as once, and every continuation and scope parameter reads as before |
| CodeExecutions.New | src/main/java/de/esoco/coroutine/step/CodeExecution.java:47-50 | construction fails with a null-code error exactly when the code is missing; otherwise the step is named "CodeExecution" and running it is running the given binary function |
| CodeExecutions.NewFromFunction | src/main/java/de/esoco/coroutine/step/CodeExecution.java:58-61 | construction fails exactly when the function is missing; otherwise the step outputs `f(input)` and leaves the context unchanged |
| CodeExecutions.Apply | src/main/java/de/esoco/coroutine/step/CodeExecution.java:70-72 | the step outputs `f(input)` and leaves the context unchanged |
| CodeExecutions.ApplyWithContinuation | src/main/java/de/esoco/coroutine/step/CodeExecution.java:81-84 | running the step is running the given binary function on input and continuation |
| CodeExecutions.Map | src/main/java/de/esoco/coroutine/step/CodeExecution.java:139-141 | `map` builds the same step as `apply(Function)`: output `f(input)`, context unchanged |
| CodeExecutions.Consume | src/main/java/de/esoco/coroutine/step/CodeExecution.java:86-95 | the step outputs its input unchanged, applies the consumer once to that input as an effect on the world, and leaves parameters, scope and termination flag alone |
| CodeExecutions.ConsumeWithContinuation | src/main/java/de/esoco/coroutine/step/CodeExecution.java:97-107 | the step outputs its input unchanged and the context is the consumer applied once to input and continuation |
| CodeExecutions.Supply | src/main/java/de/esoco/coroutine/step/CodeExecution.java:200-209 | the step outputs the supplier's value, whatever the input, and leaves the context unchanged |
| CodeExecutions.SupplyWithContinuation | src/main/java/de/esoco/coroutine/step/CodeExecution.java:211-221 | running the step is running the function on the continuation alone, whatever the input: its output and its changes to the context |
| CodeExecutions.Run | src/main/java/de/esoco/coroutine/step/CodeExecution.java:143-152 | the step applies the effect once to the world, leaves parameters, scope and termination flag alone, and outputs no value |
| CodeExecutions.RunWithContinuation | src/main/java/de/esoco/coroutine/step/CodeExecution.java:160-166 | the step applies the effect to the continuation and outputs its input unchanged |
| CodeExecutions.GetParameter | src/main/java/de/esoco/coroutine/step/CodeExecution.java:116-119 | the step outputs the continuation's parameter, whatever the input, and leaves the context unchanged |
| CodeExecutions.GetScopeParameter | src/main/java/de/esoco/coroutine/step/CodeExecution.java:128-131 | the step outputs the scope's parameter, whatever the input, and leaves the context unchanged |
| CodeExecutions.SetParameter | src/main/java/de/esoco/coroutine/step/CodeExecution.java:175-182 | for every input, a value or null, the step outputs its input and the continuation's parameter afterwards reads as that input |
| CodeExecutions.SetScopeParameter | src/main/java/de/esoco/coroutine/step/CodeExecution.java:191-198 | for every input, a value or null, the step outputs its input and the scope's parameter afterwards reads as that input |
| Pipelines.RunBlockingRunsStoredCode | src/main/java/de/esoco/coroutine/CoroutineStep.java:117-119 | a step built from a function `f` runs blocking exactly as `f` on the same input and continuation, which is also what `execute` returns; building from null fails |
| Pipelines.PassThroughSteps | src/main/java/de/esoco/coroutine/step/CodeExecution.java:86-198 | `consume` (both forms), `run(Consumer<Continuation>)`, `setParameter` and `setScopeParameter` output their input unchanged on every input and context |
| Pipelines.ContextKeepingSteps | src/main/java/de/esoco/coroutine/step/CodeExecution.java:58-141 | `apply(Function)`, `map`, `supply(Supplier)`, `getParameter` and `getScopeParameter` leave the context exactly as they found it |
| Pipelines.InputIgnoringSteps | src/main/java/de/esoco/coroutine/step/CodeExecution.java:109-221 | both `supply` forms, `getParameter`, `getScopeParameter` and `run(Runnable)` give the same output and context for any two inputs |
| Pipelines.ScopeKeepingSteps | src/main/java/de/esoco/coroutine/step/CodeExecution.java:58-198 | `setParameter`, `consume(Consumer)`, `run(Runnable)` and `getScopeParameter` never change the scope's parameters |
| Pipelines.SetParameterWritesOneKey | src/main/java/de/esoco/coroutine/step/CodeExecution.java:175-182 | `setParameter(k)` on a value or null `v` outputs `v`, `k` then reads `v`, every other key reads as before, and scope, world and flag are unchanged |
| Pipelines.SetScopeParameterWritesOneKey | src/main/java/de/esoco/coroutine/step/CodeExecution.java:191-198 | `setScopeParameter(k)` on a value or null `v` outputs `v`, the scope's `k` then reads `v`, other scope keys as before, continuation parameters unchanged |
| Pipelines.ReadAfterWrite | src/main/java/de/esoco/coroutine/step/CodeExecution.java:116-131 | reading a parameter right after writing it yields the written value, null included, for continuation and scope alike, and a write to one kind is invisible to reads of the other |
| Pipelines.RunChainAppend | src/main/java/de/esoco/coroutine/CoroutineStep.java:117-119 | running two sequences of steps back to back by blocking execution is running their concatenation |
| Pipelines.RunChainPassesThrough | src/main/java/de/esoco/coroutine/CoroutineStep.java:117-119 | a sequence of pass-through steps outputs its input |
| Pipelines.RunChainKeepsContext | src/main/java/de/esoco/coroutine/CoroutineStep.java:117-119 | a sequence of context-keeping steps leaves the context unchanged |
| Pipelines.RunChainKeepsScope | src/main/java/de/esoco/coroutine/CoroutineStep.java:117-119 | a sequence of scope-keeping steps leaves the scope unchanged |
| Pipelines.SetParametersSteps | src/main/java/de/esoco/coroutine/step/CodeExecution.java:175-182 | the chain built for several keys has one `setParameter` step per key, in the keys' order |
| Pipelines.SetParametersChain | src/main/java/de/esoco/coroutine/step/CodeExecution.java:175-182 | writing the input (a value or null) under several keys in a row outputs the input, every named key then reads as it, every other key reads as before, and the scope is untouched |
| Pipelines.RunSequentially | src/main/java/de/esoco/coroutine/CoroutineStep.java:117-119 | executing the steps one by one in a loop gives the same output and context as the chained definition |

## Left out

- `CoroutineException` (src/main/java/de/esoco/coroutine/CoroutineException.java): its constructors only forward message and cause to the JDK's `CompletionException`, so there is nothing of its own to model.
- Resolution of the previous step's `CompletableFuture`, `Continuation.continueApply`, suspensions and their resumption, thread scheduling: concurrency and collaborators outside this model. `RunAsync` is modelled only as the request it makes of the continuation.
- How a coroutine stops running further steps once termination is requested: that belongs to the coroutine, not to the step; the model records the request as a flag.
- `Functions.asFunction` is not part of this model. The behaviour of `consume(Consumer)`, `consume(BiConsumer)`, `supply(Supplier)` and `run(Runnable)` is taken from their documentation comments.
- Null arguments to the factories: Dafny function values cannot be null. The null check of the two constructors, to which `apply` and `map` forward, is modelled by `CodeExecutions.New` and `CodeExecutions.NewFromFunction`.
- Exceptions thrown by the wrapped code: step code is a total function here.
- The relation machinery of the continuation and scope (typed relation types, initial values, listeners): parameters are a map from relation name to one value type, and an unset parameter reads as `None`.
- Side effects of `Function<I, O>` lambdas, and changes a `Supplier` makes to state outside the coroutine: a `Function` of the input is modelled as a pure function and a `Supplier` as reading the world. Code that receives the continuation (`BiFunction`, `BiConsumer`, `Function<Continuation, O>`, `Consumer<Continuation>`) may change the whole context, the world included.
- CoroutineSteps.SimpleName: covers top-level classes only; nested, local and anonymous classes have other simple-name rules.
