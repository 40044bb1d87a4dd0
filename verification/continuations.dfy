/**
 * The execution context threaded through every step: the parameters held by
 * the continuation of the running coroutine, the parameters of the enclosing
 * coroutine scope, the state outside the coroutine that side-effecting code
 * may change, and whether the current coroutine has been asked to terminate.
 *
 * The real continuation and scope keep their parameters as typed relations of
 * an object; this model assumes that reading and writing such a relation
 * behaves like looking up and updating a map. A relation type is identified by
 * its name, every parameter value has the one type `V`, and reading a
 * parameter that was never set yields `None` (the relation's `null` default).
 */
module Continuations {
  import opened Wrappers

  /** The name of a relation type, which identifies one parameter. */
  type Key = string

  /** An immutable snapshot of a continuation, as far as a step can see it. */
  datatype Ctx<V, W> = Ctx(
    params: map<Key, V>,   // relations set on the continuation itself
    scope: map<Key, V>,    // relations set on the coroutine scope
    world: W,              // everything outside the coroutine that code may change
    terminated: bool       // whether the current coroutine was asked to terminate
  )

  /** Reads a parameter of the continuation. */
  function Get<V, W>(c: Ctx<V, W>, k: Key): Option<V>
  {
    if k in c.params then Some(c.params[k]) else None
  }

  /** Reads a parameter of the coroutine scope. */
  function ScopeGet<V, W>(c: Ctx<V, W>, k: Key): Option<V>
  {
    if k in c.scope then Some(c.scope[k]) else None
  }

  /** Writes a parameter of the continuation: afterwards it reads back as the
      written value (writing null, None here, clears it), every other
      parameter reads as before and nothing outside the continuation's own
      parameters changes. */
  function Set<V, W>(c: Ctx<V, W>, k: Key, o: Option<V>): (r: Ctx<V, W>)
    ensures Get(r, k) == o
    ensures forall k' :: k' != k ==> Get(r, k') == Get(c, k')
    ensures r.scope == c.scope && r.world == c.world && r.terminated == c.terminated
  {
    match o
    case Some(v) => c.(params := c.params[k := v])
    case None => c.(params := c.params - {k})
  }

  /** Writes a parameter of the coroutine scope (None clears it), leaving
      everything else of the context as it was. */
  function ScopeSet<V, W>(c: Ctx<V, W>, k: Key, o: Option<V>): (r: Ctx<V, W>)
    ensures ScopeGet(r, k) == o
    ensures forall k' :: k' != k ==> ScopeGet(r, k') == ScopeGet(c, k')
    ensures r.params == c.params && r.world == c.world && r.terminated == c.terminated
  {
    match o
    case Some(v) => c.(scope := c.scope[k := v])
    case None => c.(scope := c.scope - {k})
  }
}
