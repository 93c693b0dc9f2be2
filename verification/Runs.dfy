/**
 What every run of the scheduler keeps.  A trace is legal when each event in it was enabled by
 the events before it; legality is an invariant of the scheduler, and the ordering and
 reachability theorems are consequences of legality alone.
 */
module Runs {
  import opened Scheduler

  /** `e` may follow `pre`: it is new; earlier actions of its step are done; a request it
      completes is for a finished step; a step that starts was requested. */
  ghost predicate Enabled<S(!new), E(!new), V(!new)>(p: Plan<S, E, V>, roots: set<S>, pre: seq<Event<S>>, e: Event<S>) {
    && e.count <= |p.body(e.step)|
    && e !in pre
    && (e.count > 0 ==>
          && Event(e.step, e.count - 1) in pre
          && (p.body(e.step)[e.count - 1].Need? ==> Finished(p, pre, p.body(e.step)[e.count - 1].step)))
    && (e.count == 0 ==> Requested(p, roots, pre, e.step))
  }

  ghost predicate Finished<S(!new), E(!new), V(!new)>(p: Plan<S, E, V>, tr: seq<Event<S>>, s: S) {
    Event(s, |p.body(s)|) in tr
  }

  /** `s` was asked for at top level, or by a step that has reached its request for `s`. */
  ghost predicate Requested<S(!new), E(!new), V(!new)>(p: Plan<S, E, V>, roots: set<S>, tr: seq<Event<S>>, s: S) {
    s in roots || exists r: S, j: nat :: RequestedBy(p, tr, r, j, s)
  }

  ghost predicate RequestedBy<S(!new), E(!new), V(!new)>(p: Plan<S, E, V>, tr: seq<Event<S>>, r: S, j: nat, s: S) {
    j < |p.body(r)| && p.body(r)[j] == Need(s) && Event(r, j) in tr
  }

  ghost predicate Legal<S(!new), E(!new), V(!new)>(p: Plan<S, E, V>, roots: set<S>, tr: seq<Event<S>>) {
    tr == [] || (Legal(p, roots, tr[..|tr| - 1]) && Enabled(p, roots, tr[..|tr| - 1], tr[|tr| - 1]))
  }

  /** The scheduler's invariant between actions: the cache holds exactly the finished steps, and
      the only unfinished steps that have started are those on the stack. */
  ghost predicate Inv<S(!new), E(!new), V(!new)>(p: Plan<S, E, V>, roots: set<S>, stack: seq<S>, st: State<S, V>) {
    && Legal(p, roots, st.trace)
    && (forall s :: s in st.cache ==> Finished(p, st.trace, s))
    && (forall s :: s in st.cache ==> s !in stack)
    && (forall e :: e in st.trace ==> e.step in st.cache || e.step in stack)
    && (forall x, y :: x in st.cache && Edge(p, x, y) ==> y in st.cache)
  }

  lemma LegalAppend<S(!new), E(!new), V(!new)>(p: Plan<S, E, V>, roots: set<S>, tr: seq<Event<S>>, e: Event<S>)
    requires Legal(p, roots, tr) && Enabled(p, roots, tr, e)
    ensures Legal(p, roots, tr + [e])
  {
    assert (tr + [e])[..|tr + [e]| - 1] == tr;
  }

  /** Exactly the actions before `k` of `s` have happened. */
  ghost predicate At<S(!new), E(!new), V(!new)>(p: Plan<S, E, V>, st: State<S, V>, s: S, k: nat) {
    && (forall j: nat :: Event(s, j) in st.trace <==> j <= k)
    && (forall j :: 0 <= j < k && j < |p.body(s)| && p.body(s)[j].Need? ==> p.body(s)[j].step in st.cache)
  }

  /** What one call adds: `st'` extends `st`, and new events belong to steps that were fresh. */
  ghost predicate Extends<S(!new), V>(stack: seq<S>, st: State<S, V>, st': State<S, V>) {
    && st.trace <= st'.trace
    && (forall s :: s in st.cache ==> s in st'.cache && st'.cache[s] == st.cache[s])
    && (forall e :: e in st'.trace ==> e in st.trace || (e.step !in st.cache && e.step !in stack))
  }

  lemma StartKeepsInv<S(!new), E(!new), V(!new)>(p: Plan<S, E, V>, roots: set<S>, stack: seq<S>, st: State<S, V>, s: S)
    requires Inv(p, roots, stack, st) && s !in stack && s !in st.cache && Requested(p, roots, st.trace, s)
    ensures Inv(p, roots, stack + [s], Recorded(st, s, 0)) && At(p, Recorded(st, s, 0), s, 0)
    ensures Extends(stack, st, Recorded(st, s, 0))
  {
    LegalAppend(p, roots, st.trace, Event(s, 0));
    InAppend(st.trace, Event(s, 0));
  }

  lemma InAppend<T>(tr: seq<T>, e: T)
    ensures forall x :: x in tr + [e] <==> x in tr || x == e
  {
  }

  lemma StepKeepsInv<S(!new), E(!new), V(!new)>(
    p: Plan<S, E, V>, roots: set<S>, stack: seq<S>, st: State<S, V>, s: S, k: nat)
    requires Inv(p, roots, stack, st) && s in stack && At(p, st, s, k) && k < |p.body(s)|
    requires p.body(s)[k].Need? ==> p.body(s)[k].step in st.cache
    ensures Inv(p, roots, stack, Recorded(st, s, k + 1)) && At(p, Recorded(st, s, k + 1), s, k + 1)
  {
    assert Event(s, k) in st.trace && Event(s, k + 1) !in st.trace;
    LegalAppend(p, roots, st.trace, Event(s, k + 1));
    InAppend(st.trace, Event(s, k + 1));
  }

  lemma FinishKeepsInv<S(!new), E(!new), V(!new)>(
    p: Plan<S, E, V>, roots: set<S>, stack: seq<S>, st: State<S, V>, s: S, out: V)
    requires Inv(p, roots, stack + [s], st) && At(p, st, s, |p.body(s)|) && s !in stack
    ensures Inv(p, roots, stack, State(st.cache[s := out], st.trace))
  {
    InAppend(stack, s);
    assert Event(s, |p.body(s)|) in st.trace;
    forall y | Edge(p, s, y) ensures y in st.cache {
      var j :| 0 <= j < |p.body(s)| && p.body(s)[j] == Need(y);
      assert p.body(s)[j].Need?;
    }
  }

  lemma ExtendsSelf<S(!new), V>(stack: seq<S>, st: State<S, V>)
    ensures Extends(stack, st, st)
  {
  }

  lemma ExtendsTransitive<S(!new), V>(stack: seq<S>, a: State<S, V>, b: State<S, V>, c: State<S, V>)
    requires Extends(stack, a, b) && Extends(stack, b, c)
    ensures Extends(stack, a, c)
  {
    assert forall e :: e in a.trace ==> e in b.trace;
  }

  lemma {:induction false} EnsureKeepsInv<S(!new), E(!new), V(!new)>(
    p: Plan<S, E, V>, u: set<S>, roots: set<S>, stack: seq<S>, st: State<S, V>, s: S)
    requires Closed(p, u) && s in u
    requires Inv(p, roots, stack, st) && Requested(p, roots, st.trace, s)
    ensures var r := Ensure(p, u, stack, st, s); r.Ok? ==>
      Inv(p, roots, stack, r.state) && Extends(stack, st, r.state) && s in r.state.cache && r.state.cache[s] == r.value
    decreases |Fresh(u, stack, st)|, 0
  {
    hide Inv, Extends, At, Requested;
    ExtendsSelf(stack, st);
    if s !in stack && s !in st.cache {
      var st0 := Recorded(st, s, 0);
      StartKeepsInv(p, roots, stack, st, s);
      assert Fresh(u, stack + [s], st0) == Fresh(u, stack, st) - {s};
      RunKeepsInv(p, u, roots, stack, st, st0, s, 0, []);
      var r := RunFrom(p, u, stack + [s], st0, s, 0, []);
      if r.Ok? {
        FinishKeepsInv(p, roots, stack, r.state, s, r.value);
        FinishExtends(stack, st, r.state, s, r.value);
      }
    }
  }

  lemma {:induction false} RunKeepsInv<S(!new), E(!new), V(!new)>(
    p: Plan<S, E, V>, u: set<S>, roots: set<S>, stack: seq<S>, old_: State<S, V>, st: State<S, V>,
    s: S, k: nat, outs: seq<V>)
    requires Closed(p, u) && s in u && k <= |p.body(s)|
    requires Inv(p, roots, stack + [s], st) && At(p, st, s, k) && s !in stack && s !in old_.cache
    requires Extends(stack, old_, st)
    ensures var r := RunFrom(p, u, stack + [s], st, s, k, outs); r.Ok? ==>
      Inv(p, roots, stack + [s], r.state) && At(p, r.state, s, |p.body(s)|) && Extends(stack, old_, r.state)
    decreases |Fresh(u, stack + [s], st)|, 1 + |p.body(s)| - k
  {
    if k < |p.body(s)| {
      match p.body(s)[k]
      case Do(_) =>
        StepKeepsInv(p, roots, stack + [s], st, s, k);
        StepExtends(stack, old_, st, s, k + 1);
        RunKeepsInv(p, u, roots, stack, old_, Recorded(st, s, k + 1), s, k + 1, outs);
      case Need(d) =>
        assert Edge(p, s, d);
        assert RequestedBy(p, st.trace, s, k, d);
        EnsureKeepsInv(p, u, roots, stack + [s], st, d);
        var r := Ensure(p, u, stack + [s], st, d);
        if r.Ok? {
          FreshShrinks(u, stack + [s], st, r.state);
          NestedExtends(p, stack, old_, st, r.state, s, k);
          StepKeepsInv(p, roots, stack + [s], r.state, s, k);
          StepExtends(stack, old_, r.state, s, k + 1);
          RunKeepsInv(p, u, roots, stack, old_, Recorded(r.state, s, k + 1), s, k + 1, outs + [r.value]);
        }
    }
  }

  lemma FinishExtends<S(!new), V>(stack: seq<S>, old_: State<S, V>, st: State<S, V>, s: S, v: V)
    requires Extends(stack, old_, st) && s !in old_.cache
    ensures Extends(stack, old_, State(st.cache[s := v], st.trace))
  {
  }

  lemma StepExtends<S(!new), V>(stack: seq<S>, old_: State<S, V>, st: State<S, V>, s: S, k: nat)
    requires Extends(stack, old_, st) && s !in stack && s !in old_.cache
    ensures Extends(stack, old_, Recorded(st, s, k))
  {
    InAppend(st.trace, Event(s, k));
  }

  lemma NestedExtends<S(!new), E(!new), V(!new)>(p: Plan<S, E, V>, stack: seq<S>, old_: State<S, V>, st: State<S, V>,
      st': State<S, V>, s: S, k: nat)
    requires Extends(stack, old_, st) && Extends(stack + [s], st, st') && At(p, st, s, k)
    ensures Extends(stack, old_, st') && At(p, st', s, k)
  {
    InAppend(stack, s);
    assert forall e :: e in st.trace ==> e in st'.trace;
    ExtendsTransitive(stack, old_, st, st');
  }
}
