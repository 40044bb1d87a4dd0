/**
 * The base class of all coroutine steps: a step is named after its class,
 * runs either blocking (directly through `execute`) or asynchronously (by
 * asking the continuation to apply `execute` once the previous step's future
 * resolves), and may ask the coroutine it runs in to terminate.
 *
 * The abstract class becomes a datatype with one constructor per concrete
 * step class; the only concrete class modelled is `CodeExecution`, whose
 * whole state is the code it runs. A step is a pure function from an input
 * and a context to an output and the context as the step leaves it.
 */
module CoroutineSteps {
  import opened Wrappers
  import opened Continuations

  /** The canonical shape of step code: input and continuation in, output
      and the updated continuation out. */
  type Code<!I, O, !V, !W> = (I, Ctx<V, W>) -> (O, Ctx<V, W>)

  /** A coroutine step together with its NAME relation. */
  datatype CoroutineStep<!I, O, !V, !W> = CodeExecution(name: string, code: Code<I, O, V, W>)

  /** The fully qualified name of the `CodeExecution` class. */
  const CodeExecutionClass: string := "de.esoco.coroutine.step.CodeExecution"

  /** The runtime class of a step. */
  function ClassName<I, O, V, W>(s: CoroutineStep<I, O, V, W>): string
  {
    match s
    case CodeExecution(_, _) => CodeExecutionClass
  }

  /** The simple name of a top-level class: the longest suffix of its
      qualified name that contains no package separator. */
  function SimpleName(className: string): (r: string)
    ensures '.' !in r
    ensures |r| <= |className| && r == className[|className| - |r|..]
    ensures |r| < |className| ==> className[|className| - |r| - 1] == '.'
    decreases |className|
  {
    if |className| == 0 || className[|className| - 1] == '.' then ""
    else SimpleName(className[..|className| - 1]) + [className[|className| - 1]]
  }

  /** The simple name of a class in a package is the part after the package. */
  lemma {:induction false} SimpleNameAfterPackage(pkg: string, n: string)
    requires '.' !in n
    ensures SimpleName(pkg + "." + n) == n
  {
    var q := pkg + "." + n;
    var r := SimpleName(q);
    if |r| > |n| {
      DotFreeSuffix(q, r, |q| - |n| - 1);
      assert false;
    } else if |r| < |n| {
      assert false;
    }
    assert q[|q| - |n|..] == n;
  }

  /** No position inside a dot-free suffix holds a package separator. */
  lemma DotFreeSuffix(q: string, r: string, j: int)
    ensures '.' !in r && |r| <= |q| && r == q[|q| - |r|..] && |q| - |r| <= j < |q| ==> q[j] != '.'
  {
    if '.' !in r && |r| <= |q| && r == q[|q| - |r|..] && |q| - |r| <= j < |q| {
      assert q[j] == r[j - (|q| - |r|)];
    }
  }

  /** The name every `CodeExecution` step gets when it is constructed. */
  lemma CodeExecutionSimpleName()
    ensures SimpleName(CodeExecutionClass) == "CodeExecution"
  {
    assert CodeExecutionClass == "de.esoco.coroutine.step" + "." + "CodeExecution";
    SimpleNameAfterPackage("de.esoco.coroutine.step", "CodeExecution");
  }

  /** Whether a step still carries the name its constructor gave it. */
  ghost predicate DefaultNamed<I, O, V, W>(s: CoroutineStep<I, O, V, W>)
  {
    s.name == SimpleName(ClassName(s))
  }

  /** Constructs a `CodeExecution` step holding the given code; the base
      class constructor names it after its class. */
  function Create<I, O, V, W>(code: Code<I, O, V, W>): (s: CoroutineStep<I, O, V, W>)
    ensures s.code == code
    ensures DefaultNamed(s)
    ensures ToString(s) == "CodeExecution"
  {
    CodeExecutionSimpleName();
    CodeExecution(SimpleName(CodeExecutionClass), code)
  }

  /** The string form of a step is its NAME relation. */
  function ToString<I, O, V, W>(s: CoroutineStep<I, O, V, W>): string
  {
    s.name
  }

  /** The extension point every concrete step implements. */
  function Execute<I, O, V, W>(s: CoroutineStep<I, O, V, W>, input: I, c: Ctx<V, W>): (O, Ctx<V, W>)
  {
    match s
    case CodeExecution(_, code) => code(input, c)
  }

  /** Blocking execution hands input and continuation to `execute` unchanged
      and returns what it returns; for a `CodeExecution` that is the stored
      code applied to them. */
  function RunBlocking<I, O, V, W>(s: CoroutineStep<I, O, V, W>, input: I, c: Ctx<V, W>): (r: (O, Ctx<V, W>))
    ensures r == Execute(s, input, c)
    ensures r == s.code(input, c)
  {
    Execute(s, input, c)
  }

  /** The request the default asynchronous execution makes of the
      continuation: once `previous` resolves, apply `apply` to its value and
      to the continuation as it stands at that moment, and hand the result on
      to `next` (no next step when `None`). */
  datatype ContinueApply<F, !I, !O, P, !V, !W> = ContinueApply(
    continuation: Ctx<V, W>,
    previous: F,
    apply: (I, Ctx<V, W>) -> (O, Ctx<V, W>),
    next: Option<CoroutineStep<O, P, V, W>>
  )

  /** Default asynchronous execution: the step does not run itself but asks
      its continuation to run it on the previous step's result, passing the
      future and the next step on untouched. No suspension takes place. */
  function RunAsync<F, I(!new), O, P, V(!new), W(!new)>(
    s: CoroutineStep<I, O, V, W>,
    previous: F,
    next: Option<CoroutineStep<O, P, V, W>>,
    c: Ctx<V, W>
  ): (r: ContinueApply<F, I, O, P, V, W>)
    ensures r.continuation == c
    ensures r.previous == previous
    ensures r.next == next
    ensures forall i, d :: r.apply(i, d) == RunBlocking(s, i, d)
  {
    ContinueApply(c, previous, (i, d) => Execute(s, i, d), next)
  }

  /** Asks the coroutine the continuation belongs to to terminate; nothing
      but the termination flag changes. */
  function TerminateCoroutine<V, W>(c: Ctx<V, W>): (r: Ctx<V, W>)
    ensures r.terminated
    ensures r.params == c.params && r.scope == c.scope && r.world == c.world
  {
    c.(terminated := true)
  }

  /** Terminating is idempotent and leaves every parameter readable as before. */
  lemma TerminateKeepsParameters<V, W>(c: Ctx<V, W>, k: Key)
    ensures TerminateCoroutine(TerminateCoroutine(c)) == TerminateCoroutine(c)
    ensures Get(TerminateCoroutine(c), k) == Get(c, k)
    ensures ScopeGet(TerminateCoroutine(c), k) == ScopeGet(c, k)
  {
  }
}
