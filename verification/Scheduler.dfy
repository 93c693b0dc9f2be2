/**
 The memoising step scheduler: `Builder::ensure` and the write-once `Cache` it fills.

 A step's `run` is a list of actions, each either a request for another step or an effect
 on the outside world.  `Ensure` is the scheduler as a function of its own state; class
 `Builder` is the scheduler as the program runs it, with the step stack, the cache and the
 nested time accounting, and every call of its method is one application of `Ensure`.
 */
module Scheduler {
  import opened Basics

  datatype Action<S, E> = Need(step: S) | Do(effect: E)

  /** What a step does (in order), and the output it computes from the outputs it requested. */
  datatype Plan<!S(!new), !E(!new), !V(!new)> = Plan(body: S -> seq<Action<S, E>>, output: (S, seq<V>) -> V)

  /** `Event(s, k)`: step `s` has completed its first `k` actions.  `k == 0` is its start and
      `k == |body(s)|` its end. */
  datatype Event<S> = Event(step: S, count: nat)

  datatype State<S(!new), V> = State(cache: map<S, V>, trace: seq<Event<S>>)

  /** `Cycle` is the "Cycle in build detected" panic. */
  datatype Outcome<S(!new), V> = Ok(state: State<S, V>, value: V) | Cycle

  ghost predicate Edge<S(!new), E(!new), V(!new)>(p: Plan<S, E, V>, x: S, y: S) { Need(y) in p.body(x) }

  /** `u` holds every step that any of its steps requests. */
  ghost predicate Closed<S(!new), E(!new), V(!new)>(p: Plan<S, E, V>, u: set<S>) {
    forall x, y :: x in u && Edge(p, x, y) ==> y in u
  }

  /** `st` after the first `k` actions of `s`; with `k == 0`, after its start. */
  function Recorded<S(!new), V>(st: State<S, V>, s: S, k: nat): State<S, V> {
    State(st.cache, st.trace + [Event(s, k)])
  }

  /** Steps that can still start: neither cached nor on the stack. */
  function Fresh<S(!new), V>(u: set<S>, stack: seq<S>, st: State<S, V>): set<S> {
    u - st.cache.Keys - Elements(stack)
  }

  /** One call of `ensure`: cycle check, cache lookup, run, cache insertion. */
  function Ensure<S(!new), E(!new), V(!new)>(p: Plan<S, E, V>, ghost u: set<S>, stack: seq<S>, st: State<S, V>,
      s: S): (r: Outcome<S, V>)
    requires Closed(p, u) && s in u
    ensures r.Ok? ==> st.cache.Keys <= r.state.cache.Keys
    decreases |Fresh(u, stack, st)|, 0
  {
    if s in stack then Cycle
    else if s in st.cache then Ok(st, st.cache[s])
    else
      assert Fresh(u, stack + [s], Recorded(st, s, 0)) == Fresh(u, stack, st) - {s};
      match RunFrom(p, u, stack + [s], Recorded(st, s, 0), s, 0, [])
      case Cycle => Cycle
      case Ok(st', out) => Ok(State(st'.cache[s := out], st'.trace), out)
  }

  /** The rest of the run of `s`, after its first `k` actions gave the outputs `outs`. */
  function RunFrom<S(!new), E(!new), V(!new)>(p: Plan<S, E, V>, ghost u: set<S>, stack: seq<S>, st: State<S, V>,
                                     s: S, k: nat, outs: seq<V>): (r: Outcome<S, V>)
    requires Closed(p, u) && s in u && k <= |p.body(s)|
    ensures r.Ok? ==> st.cache.Keys <= r.state.cache.Keys
    decreases |Fresh(u, stack, st)|, 1 + |p.body(s)| - k
  {
    if k == |p.body(s)| then Ok(st, p.output(s, outs))
    else match p.body(s)[k]
      case Do(_) =>
        RunFrom(p, u, stack, Recorded(st, s, k + 1), s, k + 1, outs)
      case Need(d) =>
        assert Edge(p, s, d);
        match Ensure(p, u, stack, st, d)
        case Cycle => Cycle
        case Ok(st', out) =>
          FreshShrinks(u, stack, st, st');
          RunFrom(p, u, stack, Recorded(st', s, k + 1), s, k + 1, outs + [out])
  }

  lemma FreshShrinks<S(!new), V>(u: set<S>, stack: seq<S>, st: State<S, V>, st': State<S, V>)
    requires st.cache.Keys <= st'.cache.Keys
    ensures |Fresh(u, stack, st')| <= |Fresh(u, stack, st)|
  {
    SubsetSize(Fresh(u, stack, st'), Fresh(u, stack, st));
  }
}
