/**
 * The step that runs a piece of code, and the factories that adapt the usual
 * functional interfaces to the canonical (input, continuation) -> output shape.
 *
 * Code that receives the continuation (`BiFunction`, `BiConsumer`,
 * `Function<Continuation, O>`, `Consumer<Continuation>`) may change the whole
 * context, the world outside the coroutine included. Code that does not
 * receive it is modelled by what it can reach: a `Function` of the input is a
 * pure function, a `Supplier` reads the world, and a `Consumer` or `Runnable`
 * changes the world only.
 */
module CodeExecutions {
  import opened Wrappers
  import opened Continuations
  import opened CoroutineSteps

  /** Why a step could not be constructed: the code was `null`. */
  datatype ConstructionError = NullCode

  /** A function of the step input alone, like Java's `Function`. */
  type Function<!I, O> = I -> O

  /** The constructor taking a binary function of input and continuation. It
      rejects a missing function, and the step it builds runs exactly that
      function. */
  function New<I(!new), O, V(!new), W(!new)>(code: Option<Code<I, O, V, W>>): (r: Result<CoroutineStep<I, O, V, W>, ConstructionError>)
    ensures code.None? <==> r == Result<CoroutineStep<I, O, V, W>, ConstructionError>.Failure(NullCode)
    ensures code.Some? ==> match r
      case Failure(_) => false
      case Success(s) =>
        && DefaultNamed<I, O, V, W>(s) && ToString(s) == "CodeExecution"
        && forall i: I, c: Ctx<V, W> :: RunBlocking(s, i, c) == code.value(i, c)
  {
    match code
    case None => Failure(NullCode)
    case Some(f) => Success(Create(f))
  }

  /** The constructor taking a function of the input alone. It rejects a
      missing function; the step it builds outputs the function's value and
      leaves the continuation as it was. */
  function NewFromFunction<I(!new), O, V(!new), W(!new)>(code: Option<Function<I, O>>): (r: Result<CoroutineStep<I, O, V, W>, ConstructionError>)
    ensures code.None? <==> r == Result<CoroutineStep<I, O, V, W>, ConstructionError>.Failure(NullCode)
    ensures code.Some? ==> match r
      case Failure(_) => false
      case Success(s) =>
        && DefaultNamed<I, O, V, W>(s) && ToString(s) == "CodeExecution"
        && forall i: I, c: Ctx<V, W> :: RunBlocking(s, i, c) == (code.value(i), c)
  {
    match code
    case None => Failure(NullCode)
    case Some(f) => Success(Create((i, c: Ctx<V, W>) => (f(i), c)))
  }

  /** `apply(Function)`: transforms the input, touching nothing else. */
  function Apply<I(!new), O, V(!new), W(!new)>(f: I -> O): (s: CoroutineStep<I, O, V, W>)
    ensures DefaultNamed<I, O, V, W>(s)
    ensures forall i: I, c: Ctx<V, W> :: RunBlocking(s, i, c) == (f(i), c)
  {
    NewFromFunction(Some(f)).value
  }

  /** `apply(BiFunction)`: runs a function of input and continuation. */
  function ApplyWithContinuation<I(!new), O, V(!new), W(!new)>(f: Code<I, O, V, W>): (s: CoroutineStep<I, O, V, W>)
    ensures DefaultNamed<I, O, V, W>(s)
    ensures forall i: I, c: Ctx<V, W> :: RunBlocking(s, i, c) == f(i, c)
  {
    New(Some(f)).value
  }

  /** `map`: another name for `apply(Function)`, building the same step. */
  function Map<I(!new), O, V(!new), W(!new)>(f: I -> O): (s: CoroutineStep<I, O, V, W>)
    ensures s == Apply<I, O, V, W>(f)
    ensures forall i: I, c: Ctx<V, W> :: RunBlocking(s, i, c) == (f(i), c)
  {
    NewFromFunction(Some(f)).value
  }

  /** `consume(Consumer)`: applies the consumer to the input once, as an
      effect on the world, and outputs the input unchanged. */
  function Consume<T(!new), V(!new), W(!new)>(f: (T, W) -> W): (s: CoroutineStep<T, T, V, W>)
    ensures DefaultNamed<T, T, V, W>(s)
    ensures forall x: T, c: Ctx<V, W> :: RunBlocking(s, x, c).0 == x
    ensures forall x: T, c: Ctx<V, W> :: RunBlocking(s, x, c).1.world == f(x, c.world)
    ensures forall x: T, c: Ctx<V, W> :: var d := RunBlocking(s, x, c).1;
      d.params == c.params && d.scope == c.scope && d.terminated == c.terminated
  {
    New(Some((x, c: Ctx<V, W>) => (x, c.(world := f(x, c.world))))).value
  }

  /** `consume(BiConsumer)`: applies the consumer to input and continuation
      once and outputs the input unchanged. */
  function ConsumeWithContinuation<T(!new), V(!new), W(!new)>(f: (T, Ctx<V, W>) -> Ctx<V, W>): (s: CoroutineStep<T, T, V, W>)
    ensures DefaultNamed<T, T, V, W>(s)
    ensures forall x: T, c: Ctx<V, W> :: RunBlocking(s, x, c).0 == x
    ensures forall x: T, c: Ctx<V, W> :: RunBlocking(s, x, c).1 == f(x, c)
  {
    New(Some((x, c) => (x, f(x, c)))).value
  }

  /** `supply(Supplier)`: outputs what the supplier produces from the world,
      whatever the input, and changes nothing. */
  function Supply<I(!new), O, V(!new), W(!new)>(f: W -> O): (s: CoroutineStep<I, O, V, W>)
    ensures DefaultNamed<I, O, V, W>(s)
    ensures forall i: I, c: Ctx<V, W> :: RunBlocking(s, i, c) == (f(c.world), c)
  {
    New(Some((i, c: Ctx<V, W>) => (f(c.world), c))).value
  }

  /** `supply(Function<Continuation, O>)`: runs the function on the
      continuation, which it may also change, whatever the input. */
  function SupplyWithContinuation<I(!new), O, V(!new), W(!new)>(f: Ctx<V, W> -> (O, Ctx<V, W>)): (s: CoroutineStep<I, O, V, W>)
    ensures DefaultNamed<I, O, V, W>(s)
    ensures forall i: I, c: Ctx<V, W> :: RunBlocking(s, i, c) == f(c)
  {
    New(Some((i, c) => f(c))).value
  }

  /** `run(Runnable)`: runs the effect on the world, ignores the input and
      outputs nothing (the `Void` result). */
  function Run<I(!new), V(!new), W(!new)>(f: W -> W): (s: CoroutineStep<I, (), V, W>)
    ensures DefaultNamed<I, (), V, W>(s)
    ensures forall i: I, c: Ctx<V, W> :: RunBlocking(s, i, c).1.world == f(c.world)
    ensures forall i: I, c: Ctx<V, W> :: var d := RunBlocking(s, i, c).1;
      d.params == c.params && d.scope == c.scope && d.terminated == c.terminated
  {
    New(Some((i, c: Ctx<V, W>) => ((), c.(world := f(c.world))))).value
  }

  /** `run(Consumer<Continuation>)`: runs the effect on the continuation and
      outputs the input unchanged. */
  function RunWithContinuation<T(!new), V(!new), W(!new)>(f: Ctx<V, W> -> Ctx<V, W>): (s: CoroutineStep<T, T, V, W>)
    ensures DefaultNamed<T, T, V, W>(s)
    ensures forall x: T, c: Ctx<V, W> :: RunBlocking(s, x, c) == (x, f(c))
  {
    New(Some((x, c) => (x, f(c)))).value
  }

  /** `getParameter`: outputs the continuation's parameter, whatever the
      input, and changes nothing. */
  function GetParameter<I(!new), V(!new), W(!new)>(k: Key): (s: CoroutineStep<I, Option<V>, V, W>)
    ensures DefaultNamed<I, Option<V>, V, W>(s)
    ensures forall i: I, c: Ctx<V, W> :: RunBlocking(s, i, c) == (Get(c, k), c)
  {
    SupplyWithContinuation(c => (Get(c, k), c))
  }

  /** `getScopeParameter`: outputs the scope's parameter, whatever the input,
      and changes nothing. */
  function GetScopeParameter<I(!new), V(!new), W(!new)>(k: Key): (s: CoroutineStep<I, Option<V>, V, W>)
    ensures DefaultNamed<I, Option<V>, V, W>(s)
    ensures forall i: I, c: Ctx<V, W> :: RunBlocking(s, i, c) == (ScopeGet(c, k), c)
  {
    SupplyWithContinuation(c => (ScopeGet(c, k), c))
  }

  /** `setParameter`: stores the input in the continuation's parameter and
      outputs it. The input is a nullable value, so the output of a
      `getParameter` step can be stored as it is; storing null (None) clears
      the parameter. */
  function SetParameter<V(!new), W(!new)>(k: Key): (s: CoroutineStep<Option<V>, Option<V>, V, W>)
    ensures DefaultNamed<Option<V>, Option<V>, V, W>(s)
    ensures forall o: Option<V>, c: Ctx<V, W> :: RunBlocking(s, o, c) == (o, Set(c, k, o))
  {
    ApplyWithContinuation((o, c) => (o, Set(c, k, o)))
  }

  /** `setScopeParameter`: stores the nullable input in the scope's parameter
      and outputs it. */
  function SetScopeParameter<V(!new), W(!new)>(k: Key): (s: CoroutineStep<Option<V>, Option<V>, V, W>)
    ensures DefaultNamed<Option<V>, Option<V>, V, W>(s)
    ensures forall o: Option<V>, c: Ctx<V, W> :: RunBlocking(s, o, c) == (o, ScopeSet(c, k, o))
  {
    ApplyWithContinuation((o, c) => (o, ScopeSet(c, k, o)))
  }
}
