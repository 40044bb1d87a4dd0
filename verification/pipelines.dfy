/**
 * What the step constructors promise when steps are composed by blocking
 * execution, each step receiving the output and context the previous one
 * left: which steps pass their input
 * through, which leave the context alone, which ignore their input, what a
 * parameter reads after it has been written, and how runs of several steps
 * compose.
 */
module Pipelines {
  import opened Wrappers
  import opened Continuations
  import opened CoroutineSteps
  import opened CodeExecutions

  /** The step outputs its input unchanged. */
  ghost predicate PassesThrough<T(!new), V(!new), W(!new)>(s: CoroutineStep<T, T, V, W>)
  {
    forall x, c :: RunBlocking(s, x, c).0 == x
  }

  /** The step leaves the context exactly as it found it. */
  ghost predicate KeepsContext<I(!new), O, V(!new), W(!new)>(s: CoroutineStep<I, O, V, W>)
  {
    forall i, c :: RunBlocking(s, i, c).1 == c
  }

  /** The step leaves the scope's parameters as it found them. */
  ghost predicate KeepsScope<I(!new), O, V(!new), W(!new)>(s: CoroutineStep<I, O, V, W>)
  {
    forall i, c :: RunBlocking(s, i, c).1.scope == c.scope
  }

  /** Output and resulting context do not depend on the input. */
  ghost predicate IgnoresInput<I(!new), O, V(!new), W(!new)>(s: CoroutineStep<I, O, V, W>)
  {
    forall i, j, c :: RunBlocking(s, i, c) == RunBlocking(s, j, c)
  }

  /** Constructing a step from a function and running it blocking is the same
      as calling the function, and a missing function yields no step. */
  lemma RunBlockingRunsStoredCode<I(!new), O, V(!new), W(!new)>(f: Code<I, O, V, W>, x: I, c: Ctx<V, W>)
    ensures New(Some(f)).Success? && RunBlocking(New(Some(f)).value, x, c) == f(x, c)
    ensures RunBlocking(New(Some(f)).value, x, c) == Execute(New(Some(f)).value, x, c)
    ensures New<I, O, V, W>(None) == Failure(NullCode)
    ensures NewFromFunction<I, O, V, W>(None) == Failure(NullCode)
  {
  }

  /** The steps that output their input unchanged. */
  lemma PassThroughSteps<V(!new), W(!new)>(
    k: Key,
    consumer: (V, W) -> W,
    biConsumer: (V, Ctx<V, W>) -> Ctx<V, W>,
    effect: Ctx<V, W> -> Ctx<V, W>)
    ensures PassesThrough(Consume<V, V, W>(consumer))
    ensures PassesThrough(ConsumeWithContinuation(biConsumer))
    ensures PassesThrough(RunWithContinuation<V, V, W>(effect))
    ensures PassesThrough(SetParameter<V, W>(k))
    ensures PassesThrough(SetScopeParameter<V, W>(k))
  {
  }

  /** The steps that change nothing in the context. */
  lemma ContextKeepingSteps<I(!new), O, V(!new), W(!new)>(
    k: Key,
    f: I -> O,
    supplier: W -> O)
    ensures KeepsContext(Apply<I, O, V, W>(f))
    ensures KeepsContext(Map<I, O, V, W>(f))
    ensures KeepsContext(Supply<I, O, V, W>(supplier))
    ensures KeepsContext(GetParameter<I, V, W>(k))
    ensures KeepsContext(GetScopeParameter<I, V, W>(k))
  {
  }

  /** Steps that may change the continuation or the world but never the
      scope's parameters. */
  lemma ScopeKeepingSteps<I(!new), V(!new), W(!new)>(
    k: Key,
    consumer: (V, W) -> W,
    runnable: W -> W)
    ensures KeepsScope(SetParameter<V, W>(k))
    ensures KeepsScope(Consume<V, V, W>(consumer))
    ensures KeepsScope(Run<I, V, W>(runnable))
    ensures KeepsScope(GetScopeParameter<I, V, W>(k))
  {
    var setStep := SetParameter<V, W>(k);
    forall o: Option<V>, c: Ctx<V, W>
      ensures RunBlocking(setStep, o, c).1.scope == c.scope
    {
      assert RunBlocking(setStep, o, c).1 == Set(c, k, o);
    }
    var consumeStep := Consume<V, V, W>(consumer);
    forall x: V, c: Ctx<V, W>
      ensures RunBlocking(consumeStep, x, c).1.scope == c.scope
    {
    }
    var runStep := Run<I, V, W>(runnable);
    forall i: I, c: Ctx<V, W>
      ensures RunBlocking(runStep, i, c).1.scope == c.scope
    {
    }
  }

  /** The steps whose effect and output do not depend on their input. */
  lemma InputIgnoringSteps<I(!new), O, V(!new), W(!new)>(
    k: Key,
    supplier: W -> O,
    reader: Ctx<V, W> -> (O, Ctx<V, W>),
    runnable: W -> W)
    ensures IgnoresInput(Supply<I, O, V, W>(supplier))
    ensures IgnoresInput(SupplyWithContinuation<I, O, V, W>(reader))
    ensures IgnoresInput(GetParameter<I, V, W>(k))
    ensures IgnoresInput(GetScopeParameter<I, V, W>(k))
    ensures IgnoresInput(Run<I, V, W>(runnable))
  {
    var supplyStep := SupplyWithContinuation<I, O, V, W>(reader);
    forall i: I, j: I, c: Ctx<V, W>
      ensures RunBlocking(supplyStep, i, c) == RunBlocking(supplyStep, j, c)
    {
      assert RunBlocking(supplyStep, i, c) == reader(c) == RunBlocking(supplyStep, j, c);
    }
    var runStep := Run<I, V, W>(runnable);
    forall i: I, j: I, c: Ctx<V, W>
      ensures RunBlocking(runStep, i, c) == RunBlocking(runStep, j, c)
    {
      var d, e := RunBlocking(runStep, i, c).1, RunBlocking(runStep, j, c).1;
      assert d.params == e.params && d.scope == e.scope && d.world == e.world && d.terminated == e.terminated;
    }
  }

  /** Writing a continuation parameter: the input comes out unchanged, the
      parameter then reads as it (null clears it), and no other parameter nor
      the scope changes. */
  lemma SetParameterWritesOneKey<V(!new), W(!new)>(k: Key, v: Option<V>, c: Ctx<V, W>)
    ensures var (o, d) := RunBlocking(SetParameter<V, W>(k), v, c);
      && o == v
      && Get(d, k) == v
      && (forall k' :: k' != k ==> Get(d, k') == Get(c, k'))
      && d.scope == c.scope && d.world == c.world && d.terminated == c.terminated
  {
  }

  /** Writing a scope parameter: the input comes out unchanged, the scope's
      parameter then holds it, and the continuation's parameters do not
      change. */
  lemma SetScopeParameterWritesOneKey<V(!new), W(!new)>(k: Key, v: Option<V>, c: Ctx<V, W>)
    ensures var (o, d) := RunBlocking(SetScopeParameter<V, W>(k), v, c);
      && o == v
      && ScopeGet(d, k) == v
      && (forall k' :: k' != k ==> ScopeGet(d, k') == ScopeGet(c, k'))
      && d.params == c.params && d.world == c.world && d.terminated == c.terminated
  {
  }

  /** Reading a parameter right after writing it yields the written value,
      and writing one kind of parameter is invisible to reads of the other. */
  lemma ReadAfterWrite<I(!new), V(!new), W(!new)>(k: Key, k': Key, v: Option<V>, i: I, c: Ctx<V, W>)
    ensures RunBlocking(GetParameter<I, V, W>(k), i, RunBlocking(SetParameter<V, W>(k), v, c).1).0 == v
    ensures RunBlocking(GetScopeParameter<I, V, W>(k), i, RunBlocking(SetScopeParameter<V, W>(k), v, c).1).0 == v
    ensures RunBlocking(GetScopeParameter<I, V, W>(k'), i, RunBlocking(SetParameter<V, W>(k), v, c).1).0 == ScopeGet(c, k')
    ensures RunBlocking(GetParameter<I, V, W>(k'), i, RunBlocking(SetScopeParameter<V, W>(k), v, c).1).0 == Get(c, k')
  {
  }

  /** Copying a parameter by a `getParameter` step followed by a
      `setParameter` step: the target then reads as the source did, null
      included, and nothing else changes. */
  lemma CopyParameter<V(!new), W(!new)>(from: Key, to: Key, x: Option<V>, c: Ctx<V, W>)
    ensures var (o, d) := RunChain([GetParameter<Option<V>, V, W>(from), SetParameter<V, W>(to)], x, c);
      && o == Get(c, from)
      && Get(d, to) == Get(c, from)
      && (forall k :: k != to ==> Get(d, k) == Get(c, k))
      && d.scope == c.scope && d.world == c.world && d.terminated == c.terminated
  {
    var steps := [GetParameter<Option<V>, V, W>(from), SetParameter<V, W>(to)];
    var read := RunBlocking(steps[0], x, c);
    assert read == (Get(c, from), c);
    var write := RunBlocking(steps[1], read.0, read.1);
    assert write == (Get(c, from), Set(c, to, Get(c, from)));
    assert steps[1..][1..] == [];
    assert RunChain(steps, x, c) == RunChain(steps[1..], read.0, read.1) == write;
  }

  /** The asynchronous hand-off reads the continuation when the request is
      carried out: a `getParameter` requested before a `setParameter` ran
      still sees the value that `setParameter` wrote. */
  lemma AsyncReadAfterWrite<F, I(!new), P, Q, V(!new), W(!new)>(
    k: Key, v: Option<V>, i: I, previous: F,
    afterWrite: Option<CoroutineStep<Option<V>, P, V, W>>,
    afterRead: Option<CoroutineStep<Option<V>, Q, V, W>>,
    c: Ctx<V, W>)
    ensures var write := RunAsync(SetParameter<V, W>(k), previous, afterWrite, c);
      var read := RunAsync(GetParameter<I, V, W>(k), previous, afterRead, c);
      read.apply(i, write.apply(v, c).1).0 == v
  {
  }

  /** Runs steps of one type in order by blocking execution, each step
      receiving the previous step's output and context. */
  function RunChain<T, V, W>(steps: seq<CoroutineStep<T, T, V, W>>, x: T, c: Ctx<V, W>): (T, Ctx<V, W>)
    decreases |steps|
  {
    if |steps| == 0 then (x, c)
    else
      var r := RunBlocking(steps[0], x, c);
      RunChain(steps[1..], r.0, r.1)
  }

  /** Running `a + b` is running `a` and then running `b` on what `a` left. */
  lemma {:induction false} RunChainAppend<T, V, W>(a: seq<CoroutineStep<T, T, V, W>>, b: seq<CoroutineStep<T, T, V, W>>, x: T, c: Ctx<V, W>)
    ensures RunChain(a + b, x, c) == RunChain(b, RunChain(a, x, c).0, RunChain(a, x, c).1)
    decreases |a|
  {
    if |a| == 0 {
      assert a + b == b;
    } else {
      var r := RunBlocking(a[0], x, c);
      assert (a + b)[0] == a[0];
      assert (a + b)[1..] == a[1..] + b;
      RunChainAppend(a[1..], b, r.0, r.1);
    }
  }

  /** A chain of pass-through steps outputs its input. */
  lemma {:induction false} RunChainPassesThrough<T(!new), V(!new), W(!new)>(steps: seq<CoroutineStep<T, T, V, W>>, x: T, c: Ctx<V, W>)
    requires forall j :: 0 <= j < |steps| ==> PassesThrough(steps[j])
    ensures RunChain(steps, x, c).0 == x
    decreases |steps|
  {
    if |steps| > 0 {
      var r := RunBlocking(steps[0], x, c);
      assert PassesThrough(steps[0]);
      RunChainPassesThrough(steps[1..], r.0, r.1);
    }
  }

  /** A chain of context-keeping steps leaves the context unchanged. */
  lemma {:induction false} RunChainKeepsContext<T(!new), V(!new), W(!new)>(steps: seq<CoroutineStep<T, T, V, W>>, x: T, c: Ctx<V, W>)
    requires forall j :: 0 <= j < |steps| ==> KeepsContext(steps[j])
    ensures RunChain(steps, x, c).1 == c
    decreases |steps|
  {
    if |steps| > 0 {
      var r := RunBlocking(steps[0], x, c);
      assert KeepsContext(steps[0]);
      RunChainKeepsContext(steps[1..], r.0, r.1);
    }
  }

  /** A chain of scope-keeping steps leaves the scope unchanged. */
  lemma {:induction false} RunChainKeepsScope<T(!new), V(!new), W(!new)>(steps: seq<CoroutineStep<T, T, V, W>>, x: T, c: Ctx<V, W>)
    requires forall j :: 0 <= j < |steps| ==> KeepsScope(steps[j])
    ensures RunChain(steps, x, c).1.scope == c.scope
    decreases |steps|
  {
    if |steps| > 0 {
      var r := RunBlocking(steps[0], x, c);
      assert KeepsScope(steps[0]);
      RunChainKeepsScope(steps[1..], r.0, r.1);
    }
  }

  /** One `setParameter` step per key, in order. */
  function SetParameters<V(!new), W(!new)>(ks: seq<Key>): seq<CoroutineStep<Option<V>, Option<V>, V, W>>
  {
    if |ks| == 0 then [] else [SetParameter(ks[0])] + SetParameters(ks[1..])
  }

  /** `SetParameters` has one `setParameter` step per key, in the keys'
      order. */
  lemma {:induction false} SetParametersSteps<V(!new), W(!new)>(ks: seq<Key>)
    ensures |SetParameters<V, W>(ks)| == |ks|
    ensures forall j :: 0 <= j < |ks| ==> SetParameters<V, W>(ks)[j] == SetParameter<V, W>(ks[j])
    decreases |ks|
  {
    if |ks| > 0 {
      SetParametersSteps<V, W>(ks[1..]);
      var steps := SetParameters<V, W>(ks);
      forall j | 0 < j < |ks|
        ensures steps[j] == SetParameter<V, W>(ks[j])
      {
        assert steps[j] == SetParameters<V, W>(ks[1..])[j - 1];
      }
    }
  }

  /** Writing the input under several keys in a row: the input comes out
      unchanged, every named key then holds it, every other key reads as
      before, and the scope is untouched. */
  lemma {:induction false} SetParametersChain<V(!new), W(!new)>(ks: seq<Key>, v: Option<V>, c: Ctx<V, W>)
    ensures var (o, d) := RunChain(SetParameters<V, W>(ks), v, c);
      && o == v
      && (forall k :: k in ks ==> Get(d, k) == v)
      && (forall k :: k !in ks ==> Get(d, k) == Get(c, k))
      && d.scope == c.scope
    decreases |ks|
  {
    var steps := SetParameters<V, W>(ks);
    SetParametersSteps<V, W>(ks);
    forall j | 0 <= j < |steps|
      ensures KeepsScope(steps[j])
    {
      assert steps[j] == SetParameter<V, W>(ks[j]);
    }
    RunChainKeepsScope(steps, v, c);
    if |ks| > 0 {
      var c1 := Set(c, ks[0], v);
      assert RunBlocking(steps[0], v, c) == (v, c1);
      assert steps[1..] == SetParameters<V, W>(ks[1..]);
      SetParametersChain(ks[1..], v, c1);
      var d := RunChain(steps, v, c).1;
      forall k | k in ks
        ensures Get(d, k) == v
      {
        if k !in ks[1..] {
          assert k == ks[0];
        }
      }
      forall k | k !in ks
        ensures Get(d, k) == Get(c, k)
      {
        assert k !in ks[1..] && k != ks[0];
      }
    }
  }

  /** Runs steps composed by blocking execution one at a time in a loop and
      returns the last output and context. */
  method RunSequentially<T, V, W>(steps: seq<CoroutineStep<T, T, V, W>>, x: T, c: Ctx<V, W>) returns (y: T, d: Ctx<V, W>)
    ensures (y, d) == RunChain(steps, x, c)
  {
    y, d := x, c;
    var j := 0;
    while j < |steps|
      invariant 0 <= j <= |steps|
      invariant RunChain(steps[j..], y, d) == RunChain(steps, x, c)
      decreases |steps| - j
    {
      assert steps[j..][1..] == steps[j + 1..];
      var r := RunBlocking(steps[j], y, d);
      y, d := r.0, r.1;
      j := j + 1;
    }
  }
}
