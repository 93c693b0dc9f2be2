/**
 Consequences of a legal trace, and the theorems about whole runs of the scheduler: order of
 events, the exact set of steps run, exact cycle detection, and agreement with evaluation that
 uses no cache.
 */
module RunTheorems {
  import opened Basics
  import opened Scheduler
  import opened Runs

  // ---------------------------------------------------------------- order

  lemma {:induction false} LegalAt<S(!new), E(!new), V(!new)>(p: Plan<S, E, V>, roots: set<S>, tr: seq<Event<S>>,
      i: nat)
    requires Legal(p, roots, tr) && i < |tr|
    ensures Legal(p, roots, tr[..i]) && Enabled(p, roots, tr[..i], tr[i])
    decreases |tr|
  {
    var pre := tr[..|tr| - 1];
    if i < |tr| - 1 {
      LegalAt(p, roots, pre, i);
      assert pre[..i] == tr[..i];
    }
  }

  lemma {:induction false} EarlierActions<S(!new), E(!new), V(!new)>(
    p: Plan<S, E, V>, roots: set<S>, tr: seq<Event<S>>, s: S, k: nat, j: nat)
    requires Legal(p, roots, tr) && Event(s, k) in tr && j <= k
    ensures Event(s, j) in tr
    decreases |tr|
  {
    if j < k {
      var i :| 0 <= i < |tr| && tr[i] == Event(s, k);
      LegalAt(p, roots, tr, i);
      EarlierActions(p, roots, tr[..i], s, k - 1, j);
    }
  }

  /** No event happens twice, so no step runs twice. */
  lemma EventsUnique<S(!new), E(!new), V(!new)>(p: Plan<S, E, V>, roots: set<S>, tr: seq<Event<S>>, i: nat, j: nat)
    requires Legal(p, roots, tr) && i < |tr| && j < |tr| && tr[i] == tr[j]
    ensures i == j
  {
    LegalAt(p, roots, tr, j);
    LegalAt(p, roots, tr, i);
  }

  /** Everything a requested step does happens before the requesting step moves on. */
  lemma NeedBefore<S(!new), E(!new), V(!new)>(
    p: Plan<S, E, V>, roots: set<S>, tr: seq<Event<S>>, i: nat, j: nat, d: S, m: nat)
    requires Legal(p, roots, tr) && i < |tr| && j < tr[i].count <= |p.body(tr[i].step)|
    requires p.body(tr[i].step)[j] == Need(d) && m <= |p.body(d)|
    ensures Event(d, m) in tr[..i]
  {
    hide Legal;
    var s, k := tr[i].step, tr[i].count;
    LegalAt(p, roots, tr, i);
    if j + 1 == k {
      EarlierActions(p, roots, tr[..i], d, |p.body(d)|, m);
    } else {
      EarlierActions(p, roots, tr[..i], s, k - 1, j + 1);
      var b :| 0 <= b < i && tr[b] == Event(s, j + 1);
      LegalAt(p, roots, tr, b);
      EarlierActions(p, roots, tr[..b], d, |p.body(d)|, m);
      assert tr[..b] <= tr[..i];
    }
  }

  lemma OwnBefore<S(!new), E(!new), V(!new)>(
    p: Plan<S, E, V>, roots: set<S>, tr: seq<Event<S>>, i: nat, j: nat)
    requires Legal(p, roots, tr) && i < |tr| && j < tr[i].count
    ensures Event(tr[i].step, j) in tr[..i]
  {
    LegalAt(p, roots, tr, i);
    EarlierActions(p, roots, tr[..i], tr[i].step, tr[i].count - 1, j);
  }

  lemma CountBounded<S(!new), E(!new), V(!new)>(p: Plan<S, E, V>, roots: set<S>, tr: seq<Event<S>>, e: Event<S>)
    requires Legal(p, roots, tr) && e in tr
    ensures e.count <= |p.body(e.step)|
  {
    var i :| 0 <= i < |tr| && tr[i] == e;
    LegalAt(p, roots, tr, i);
  }

  // ---------------------------------------------------------------- reachability

  ghost predicate IsPath<S(!new), E(!new), V(!new)>(p: Plan<S, E, V>, q: seq<S>) {
    |q| > 0 && forall i :: 0 <= i < |q| - 1 ==> Edge(p, q[i], q[i + 1])
  }

  ghost predicate PathTo<S(!new), E(!new), V(!new)>(p: Plan<S, E, V>, x: S, y: S, q: seq<S>) {
    IsPath(p, q) && q[0] == x && q[|q| - 1] == y
  }

  ghost predicate Reaches<S(!new), E(!new), V(!new)>(p: Plan<S, E, V>, x: S, y: S) {
    exists q :: PathTo(p, x, y, q)
  }

  ghost predicate ReachedFrom<S(!new), E(!new), V(!new)>(p: Plan<S, E, V>, roots: set<S>, y: S) {
    exists r :: r in roots && Reaches(p, r, y)
  }

  lemma ReachSelf<S(!new), E(!new), V(!new)>(p: Plan<S, E, V>, x: S)
    ensures Reaches(p, x, x)
  {
    assert PathTo(p, x, x, [x]);
  }

  lemma ReachStep<S(!new), E(!new), V(!new)>(p: Plan<S, E, V>, x: S, y: S, z: S)
    requires Reaches(p, x, y) && Edge(p, y, z)
    ensures Reaches(p, x, z)
  {
    var q :| PathTo(p, x, y, q);
    assert PathTo(p, x, z, q + [z]);
  }

  lemma {:induction false} StartedWasReached<S(!new), E(!new), V(!new)>(
    p: Plan<S, E, V>, roots: set<S>, tr: seq<Event<S>>, e: Event<S>)
    requires Legal(p, roots, tr) && e in tr
    ensures ReachedFrom(p, roots, e.step)
    decreases |tr|
  {
    EarlierActions(p, roots, tr, e.step, e.count, 0);
    var i :| 0 <= i < |tr| && tr[i] == Event(e.step, 0);
    LegalAt(p, roots, tr, i);
    if e.step in roots {
      ReachSelf(p, e.step);
    } else {
      var r, j: nat :| RequestedBy(p, tr[..i], r, j, e.step);
      StartedWasReached(p, roots, tr[..i], Event(r, j));
      var x :| x in roots && Reaches(p, x, r);
      assert Edge(p, r, e.step);
      ReachStep(p, x, r, e.step);
    }
  }

  lemma {:induction false} PathFinishes<S(!new), E(!new), V(!new)>(
    p: Plan<S, E, V>, roots: set<S>, tr: seq<Event<S>>, q: seq<S>, i: nat)
    requires Legal(p, roots, tr) && IsPath(p, q) && i < |q| && Finished(p, tr, q[0])
    ensures Finished(p, tr, q[i])
    decreases |q|
  {
    if i > 0 {
      NeedFinishes(p, roots, tr, q[0], q[1]);
      PathFinishes(p, roots, tr, q[1..], i - 1);
    }
  }

  lemma NeedFinishes<S(!new), E(!new), V(!new)>(p: Plan<S, E, V>, roots: set<S>, tr: seq<Event<S>>, x: S, y: S)
    requires Legal(p, roots, tr) && Edge(p, x, y) && Finished(p, tr, x)
    ensures Finished(p, tr, y)
  {
    var i :| 0 <= i < |tr| && tr[i] == Event(x, |p.body(x)|);
    var j :| 0 <= j < |p.body(x)| && p.body(x)[j] == Need(y);
    NeedBefore(p, roots, tr, i, j, y, |p.body(y)|);
  }

  // ---------------------------------------------------------------- cycles

  /** `q` walks from `s` through uncached steps to a step that is on the stack or on `q` already. */
  ghost predicate CyclePath<S(!new), E(!new), V(!new)>(
    p: Plan<S, E, V>, stack: seq<S>, cached: set<S>, s: S, q: seq<S>)
  {
    && IsPath(p, q) && q[0] == s
    && (forall x :: x in q ==> x !in cached)
    && (q[|q| - 1] in stack || q[|q| - 1] in q[..|q| - 1])
  }

  ghost predicate CycleAhead<S(!new), E(!new), V(!new)>(p: Plan<S, E, V>, stack: seq<S>, cached: set<S>, s: S) {
    exists q :: CyclePath(p, stack, cached, s, q)
  }

  lemma {:induction false} CycleHasPath<S(!new), E(!new), V(!new)>(
    p: Plan<S, E, V>, u: set<S>, stack: seq<S>, st: State<S, V>, s: S)
    returns (q: seq<S>)
    requires Closed(p, u) && s in u && Elements(stack) !! st.cache.Keys
    requires Ensure(p, u, stack, st, s).Cycle?
    ensures CyclePath(p, stack, st.cache.Keys, s, q)
    decreases |Fresh(u, stack, st)|, 0
  {
    if s in stack {
      assert s in Elements(stack);
      q := [s];
    } else {
      var st0 := Recorded(st, s, 0);
      assert Fresh(u, stack + [s], st0) == Fresh(u, stack, st) - {s};
      assert Elements(stack + [s]) == Elements(stack) + {s};
      var rest := RunCycleHasPath(p, u, stack + [s], st0, s, 0, []);
      q := [s] + rest;
      ConsCycle(p, stack, st.cache.Keys, s, rest);
    }
  }

  lemma ConsCycle<S(!new), E(!new), V(!new)>(p: Plan<S, E, V>, stack: seq<S>, cached: set<S>, s: S, rest: seq<S>)
    requires IsPath(p, rest) && Edge(p, s, rest[0]) && CyclePath(p, stack + [s], cached, rest[0], rest) && s !in cached
    ensures CyclePath(p, stack, cached, s, [s] + rest)
  {
    var q := [s] + rest;
    var last := q[|q| - 1];
    assert last == rest[|rest| - 1];
    assert q[..|q| - 1] == [s] + rest[..|rest| - 1];
    if last in stack + [s] && last !in stack {
      assert last == s;
    }
  }

  lemma {:induction false} RunCycleHasPath<S(!new), E(!new), V(!new)>(
    p: Plan<S, E, V>, u: set<S>, stack: seq<S>, st: State<S, V>, s: S, k: nat, outs: seq<V>)
    returns (q: seq<S>)
    requires Closed(p, u) && s in u && k <= |p.body(s)| && s in stack && Elements(stack) !! st.cache.Keys
    requires RunFrom(p, u, stack, st, s, k, outs).Cycle?
    ensures |q| > 0 && Edge(p, s, q[0]) && CyclePath(p, stack, st.cache.Keys, q[0], q)
    decreases |Fresh(u, stack, st)|, 1 + |p.body(s)| - k
  {
    match p.body(s)[k]
    case Do(_) =>
      q := RunCycleHasPath(p, u, stack, Recorded(st, s, k + 1), s, k + 1, outs);
    case Need(d) =>
      assert Edge(p, s, d);
      var r := Ensure(p, u, stack, st, d);
      if r.Cycle? {
        q := CycleHasPath(p, u, stack, st, d);
      } else {
        FreshShrinks(u, stack, st, r.state);
        EnsureLeavesStack(p, u, stack, st, d);
        q := RunCycleHasPath(p, u, stack, Recorded(r.state, s, k + 1), s, k + 1,
          outs + [r.value]);
      }
  }

  /** A step on the stack is never cached by the calls above it. */
  lemma {:induction false} EnsureLeavesStack<S(!new), E(!new), V(!new)>(
    p: Plan<S, E, V>, u: set<S>, stack: seq<S>, st: State<S, V>, s: S)
    requires Closed(p, u) && s in u && Elements(stack) !! st.cache.Keys
    ensures var r := Ensure(p, u, stack, st, s); r.Ok? ==> Elements(stack) !! r.state.cache.Keys
    decreases |Fresh(u, stack, st)|, 0
  {
    if s !in stack && s !in st.cache {
      var st0 := Recorded(st, s, 0);
      assert Fresh(u, stack + [s], st0) == Fresh(u, stack, st) - {s};
      assert Elements(stack + [s]) == Elements(stack) + {s};
      RunLeavesStack(p, u, stack + [s], st0, s, 0, []);
      assert s !in Elements(stack);
    }
  }

  lemma {:induction false} RunLeavesStack<S(!new), E(!new), V(!new)>(
    p: Plan<S, E, V>, u: set<S>, stack: seq<S>, st: State<S, V>, s: S, k: nat, outs: seq<V>)
    requires Closed(p, u) && s in u && k <= |p.body(s)| && Elements(stack) !! st.cache.Keys
    ensures var r := RunFrom(p, u, stack, st, s, k, outs); r.Ok? ==> Elements(stack) !! r.state.cache.Keys
    decreases |Fresh(u, stack, st)|, 1 + |p.body(s)| - k
  {
    if k < |p.body(s)| {
      match p.body(s)[k]
      case Do(_) =>
        RunLeavesStack(p, u, stack, Recorded(st, s, k + 1), s, k + 1, outs);
      case Need(d) =>
        assert Edge(p, s, d);
        EnsureLeavesStack(p, u, stack, st, d);
        var r := Ensure(p, u, stack, st, d);
        if r.Ok? {
          FreshShrinks(u, stack, st, r.state);
          RunLeavesStack(p, u, stack, Recorded(r.state, s, k + 1), s, k + 1,
            outs + [r.value]);
        }
    }
  }

  lemma NoPathBack<S(!new), E(!new), V(!new)>(p: Plan<S, E, V>, roots: set<S>, tr: seq<Event<S>>, q: seq<S>)
    requires Legal(p, roots, tr) && IsPath(p, q) && |q| > 1 && Finished(p, tr, q[0])
    ensures q[|q| - 1] != q[0]
  {
    var i :| 0 <= i < |tr| && tr[i] == Event(q[0], |p.body(q[0])|);
    LegalAt(p, roots, tr, i);
    assert Edge(p, q[0], q[1]);
    var j :| 0 <= j < |p.body(q[0])| && p.body(q[0])[j] == Need(q[1]);
    NeedBefore(p, roots, tr, i, j, q[1], |p.body(q[1])|);
    PathFinishes(p, roots, tr[..i], q[1..], |q| - 2);
  }

  /** The cycle panic is raised exactly when a walk through uncached steps comes back to itself
      or to a step that is still running. */
  lemma CycleDetectionExact<S(!new), E(!new), V(!new)>(
    p: Plan<S, E, V>, u: set<S>, roots: set<S>, stack: seq<S>, st: State<S, V>, s: S)
    requires Closed(p, u) && s in u && Inv(p, roots, stack, st) && Requested(p, roots, st.trace, s)
    ensures Ensure(p, u, stack, st, s).Cycle? <==> CycleAhead(p, stack, st.cache.Keys, s)
  {
    var r := Ensure(p, u, stack, st, s);
    if r.Cycle? {
      assert Elements(stack) !! st.cache.Keys;
      var q := CycleHasPath(p, u, stack, st, s);
    } else {
      EnsureKeepsInv(p, u, roots, stack, st, s);
      forall q | CyclePath(p, stack, st.cache.Keys, s, q) ensures false {
        NoCycleWhenDone(p, roots, stack, r.state, s, q);
      }
    }
  }

  lemma {:induction false} PathCached<S(!new), E(!new), V(!new)>(
    p: Plan<S, E, V>, roots: set<S>, stack: seq<S>, st: State<S, V>, q: seq<S>, i: nat)
    requires Inv(p, roots, stack, st) && IsPath(p, q) && q[0] in st.cache && i < |q|
    ensures q[i] in st.cache
    decreases i
  {
    if i > 0 {
      PathCached(p, roots, stack, st, q, i - 1);
      assert Edge(p, q[i - 1], q[i - 1 + 1]);
    }
  }

  lemma NoCycleWhenDone<S(!new), E(!new), V(!new)>(
    p: Plan<S, E, V>, roots: set<S>, stack: seq<S>, st: State<S, V>, s: S, q: seq<S>)
    requires Inv(p, roots, stack, st) && s in st.cache && IsPath(p, q) && q[0] == s
    ensures q[|q| - 1] !in stack && q[|q| - 1] !in q[..|q| - 1]
  {
    forall i | 0 <= i < |q| ensures q[i] in st.cache && Finished(p, st.trace, q[i]) && q[i] !in stack {
      PathCached(p, roots, stack, st, q, i);
    }
    if q[|q| - 1] in q[..|q| - 1] {
      var i :| 0 <= i < |q| - 1 && q[i] == q[|q| - 1];
      NoPathBack(p, roots, st.trace, q[i..]);
    }
  }

  // ---------------------------------------------------------------- evaluation without a cache

  /** Plain recursive evaluation: every request is evaluated afresh.  `avail` loses each step on
      the way down, so `None` means that a step needs its own output. */
  ghost function Eval<S(!new), E(!new), V(!new)>(p: Plan<S, E, V>, avail: set<S>, s: S): Option<V>
    decreases avail, 0
  {
    if s in avail then EvalFrom(p, avail - {s}, s, 0, []) else None
  }

  ghost function EvalFrom<S(!new), E(!new), V(!new)>(p: Plan<S, E, V>, avail: set<S>, s: S, k: nat,
      outs: seq<V>): Option<V>
    requires k <= |p.body(s)|
    decreases avail, 1 + |p.body(s)| - k
  {
    if k == |p.body(s)| then Some(p.output(s, outs))
    else match p.body(s)[k]
      case Do(_) => EvalFrom(p, avail, s, k + 1, outs)
      case Need(d) =>
        match Eval(p, avail, d)
        case None => None
        case Some(out) => EvalFrom(p, avail, s, k + 1, outs + [out])
  }

  lemma {:induction false} EvalMonotone<S(!new), E(!new), V(!new)>(p: Plan<S, E, V>, a: set<S>, b: set<S>, s: S)
    requires a <= b && Eval(p, a, s).Some?
    ensures Eval(p, b, s) == Eval(p, a, s)
    decreases a, 0
  {
    EvalFromMonotone(p, a - {s}, b - {s}, s, 0, []);
  }

  lemma {:induction false} EvalFromMonotone<S(!new), E(!new), V(!new)>(
    p: Plan<S, E, V>, a: set<S>, b: set<S>, s: S, k: nat, outs: seq<V>)
    requires k <= |p.body(s)| && a <= b && EvalFrom(p, a, s, k, outs).Some?
    ensures EvalFrom(p, b, s, k, outs) == EvalFrom(p, a, s, k, outs)
    decreases a, 1 + |p.body(s)| - k
  {
    if k < |p.body(s)| {
      match p.body(s)[k]
      case Do(_) => EvalFromMonotone(p, a, b, s, k + 1, outs);
      case Need(d) =>
        EvalMonotone(p, a, b, d);
        EvalFromMonotone(p, a, b, s, k + 1, outs + [Eval(p, a, d).value]);
    }
  }

  /** Every cached output is what plain evaluation gives, using cached steps alone. */
  /** Where the output of a step depends on the step alone, that is its evaluation. */
  lemma {:induction false} EvalIsOutput<S(!new), E(!new), V(!new)>(p: Plan<S, E, V>, avail: set<S>, s: S, v: V)
    requires forall outs :: p.output(s, outs) == v
    ensures Eval(p, avail, s).Some? ==> Eval(p, avail, s) == Some(v)
  {
    if s in avail {
      EvalFromIsOutput(p, avail - {s}, s, 0, [], v);
    }
  }

  lemma {:induction false} EvalFromIsOutput<S(!new), E(!new), V(!new)>(
    p: Plan<S, E, V>, avail: set<S>, s: S, k: nat, outs: seq<V>, v: V)
    requires k <= |p.body(s)| && forall outs :: p.output(s, outs) == v
    ensures EvalFrom(p, avail, s, k, outs).Some? ==> EvalFrom(p, avail, s, k, outs) == Some(v)
    decreases |p.body(s)| - k
  {
    if k < |p.body(s)| {
      match p.body(s)[k]
      case Do(_) => EvalFromIsOutput(p, avail, s, k + 1, outs, v);
      case Need(d) =>
        var out := Eval(p, avail, d);
        if out.Some? {
          EvalFromIsOutput(p, avail, s, k + 1, outs + [out.value], v);
        }
    }
  }

  ghost predicate CacheCorrect<S(!new), E(!new), V(!new)>(p: Plan<S, E, V>, cache: map<S, V>) {
    forall x :: x in cache ==> Eval(p, cache.Keys, x) == Some(cache[x])
  }

  lemma {:induction false} EnsureEvaluates<S(!new), E(!new), V(!new)>(
    p: Plan<S, E, V>, u: set<S>, stack: seq<S>, st: State<S, V>, s: S)
    requires Closed(p, u) && s in u && Elements(stack) !! st.cache.Keys && CacheCorrect(p, st.cache)
    ensures var r := Ensure(p, u, stack, st, s);
      r.Ok? ==> CacheCorrect(p, r.state.cache) && Eval(p, r.state.cache.Keys, s) == Some(r.value)
    decreases |Fresh(u, stack, st)|, 0
  {
    if s !in stack && s !in st.cache {
      var st0 := Recorded(st, s, 0);
      assert Fresh(u, stack + [s], st0) == Fresh(u, stack, st) - {s};
      assert Elements(stack + [s]) == Elements(stack) + {s};
      RunLeavesStack(p, u, stack + [s], st0, s, 0, []);
      RunEvaluates(p, u, stack + [s], st0, s, 0, []);
      var r := RunFrom(p, u, stack + [s], st0, s, 0, []);
      if r.Ok? {
        CacheGrows(p, r.state.cache, s, r.value);
      }
    }
  }

  lemma CacheGrows<S(!new), E(!new), V(!new)>(p: Plan<S, E, V>, cache: map<S, V>, s: S, v: V)
    requires CacheCorrect(p, cache) && s !in cache && EvalFrom(p, cache.Keys, s, 0, []) == Some(v)
    ensures CacheCorrect(p, cache[s := v]) && Eval(p, cache[s := v].Keys, s) == Some(v)
  {
    var keys := cache[s := v].Keys;
    assert keys - {s} == cache.Keys;
    forall x | x in cache ensures Eval(p, keys, x) == Some(cache[x]) {
      EvalMonotone(p, cache.Keys, keys, x);
    }
  }

  lemma {:induction false} RunEvaluates<S(!new), E(!new), V(!new)>(
    p: Plan<S, E, V>, u: set<S>, stack: seq<S>, st: State<S, V>, s: S, k: nat, outs: seq<V>)
    requires Closed(p, u) && s in u && k <= |p.body(s)| && Elements(stack) !! st.cache.Keys && CacheCorrect(p, st.cache)
    ensures var r := RunFrom(p, u, stack, st, s, k, outs);
      r.Ok? ==> CacheCorrect(p, r.state.cache) && EvalFrom(p, r.state.cache.Keys, s, k, outs) == Some(r.value)
    decreases |Fresh(u, stack, st)|, 1 + |p.body(s)| - k
  {
    if k < |p.body(s)| {
      match p.body(s)[k]
      case Do(_) =>
        RunEvaluates(p, u, stack, Recorded(st, s, k + 1), s, k + 1, outs);
      case Need(d) =>
        assert Edge(p, s, d);
        EnsureEvaluates(p, u, stack, st, d);
        var r := Ensure(p, u, stack, st, d);
        if r.Ok? {
          FreshShrinks(u, stack, st, r.state);
          EnsureLeavesStack(p, u, stack, st, d);
          var st1 := Recorded(r.state, s, k + 1);
          RunEvaluates(p, u, stack, st1, s, k + 1, outs + [r.value]);
          var r' := RunFrom(p, u, stack, st1, s, k + 1, outs + [r.value]);
          if r'.Ok? {
            EvalMonotone(p, r.state.cache.Keys, r'.state.cache.Keys, d);
          }
        }
    }
  }

  lemma {:induction false} EvalOfNeed<S(!new), E(!new), V(!new)>(
    p: Plan<S, E, V>, avail: set<S>, s: S, k: nat, outs: seq<V>, j: nat)
    requires k <= j < |p.body(s)| && p.body(s)[j].Need? && EvalFrom(p, avail, s, k, outs).Some?
    ensures Eval(p, avail, p.body(s)[j].step).Some?
    decreases j - k
  {
    if k < j {
      match p.body(s)[k]
      case Do(_) => EvalOfNeed(p, avail, s, k + 1, outs, j);
      case Need(d) => EvalOfNeed(p, avail, s, k + 1, outs + [Eval(p, avail, d).value], j);
    }
  }

  lemma {:induction false} EvaluatedHasNoCycle<S(!new), E(!new), V(!new)>(
    p: Plan<S, E, V>, avail: set<S>, q: seq<S>, i: nat)
    requires IsPath(p, q) && Eval(p, avail, q[0]).Some? && i < |q|
    ensures q[i] in avail && q[i] !in q[..i]
    decreases |q|
  {
    if i > 0 {
      assert Edge(p, q[0], q[1]);
      var j :| 0 <= j < |p.body(q[0])| && p.body(q[0])[j] == Need(q[1]);
      EvalOfNeed(p, avail - {q[0]}, q[0], 0, [], j);
      EvaluatedHasNoCycle(p, avail - {q[0]}, q[1..], i - 1);
      assert q[..i] == [q[0]] + q[1..][..i - 1];
    }
  }

  /** A top-level request succeeds exactly when plain evaluation does, with the same output. */
  lemma EnsureRefinesEval<S(!new), E(!new), V(!new)>(
    p: Plan<S, E, V>, u: set<S>, st: State<S, V>, s: S)
    requires Closed(p, u) && s in u && st.cache.Keys <= u && CacheCorrect(p, st.cache)
    ensures var r := Ensure(p, u, [], st, s);
      if r.Cycle? then Eval(p, u, s) == None
      else Eval(p, u, s) == Some(r.value) && CacheCorrect(p, r.state.cache)
  {
    var r := Ensure(p, u, [], st, s);
    EnsureEvaluates(p, u, [], st, s);
    if r.Ok? {
      EnsureWithin(p, u, [], st, s);
      EvalMonotone(p, r.state.cache.Keys, u, s);
    } else {
      var q := CycleHasPath(p, u, [], st, s);
      if Eval(p, u, s).Some? {
        EvaluatedHasNoCycle(p, u, q, |q| - 1);
      }
    }
  }

  lemma {:induction false} EnsureWithin<S(!new), E(!new), V(!new)>(
    p: Plan<S, E, V>, u: set<S>, stack: seq<S>, st: State<S, V>, s: S)
    requires Closed(p, u) && s in u && st.cache.Keys <= u
    ensures var r := Ensure(p, u, stack, st, s); r.Ok? ==> r.state.cache.Keys <= u
    decreases |Fresh(u, stack, st)|, 0
  {
    if s !in stack && s !in st.cache {
      var st0 := Recorded(st, s, 0);
      assert Fresh(u, stack + [s], st0) == Fresh(u, stack, st) - {s};
      RunWithin(p, u, stack + [s], st0, s, 0, []);
    }
  }

  lemma {:induction false} RunWithin<S(!new), E(!new), V(!new)>(
    p: Plan<S, E, V>, u: set<S>, stack: seq<S>, st: State<S, V>, s: S, k: nat, outs: seq<V>)
    requires Closed(p, u) && s in u && k <= |p.body(s)| && st.cache.Keys <= u
    ensures var r := RunFrom(p, u, stack, st, s, k, outs); r.Ok? ==> r.state.cache.Keys <= u
    decreases |Fresh(u, stack, st)|, 1 + |p.body(s)| - k
  {
    if k < |p.body(s)| {
      match p.body(s)[k]
      case Do(_) => RunWithin(p, u, stack, Recorded(st, s, k + 1), s, k + 1, outs);
      case Need(d) =>
        assert Edge(p, s, d);
        EnsureWithin(p, u, stack, st, d);
        var r := Ensure(p, u, stack, st, d);
        if r.Ok? {
          FreshShrinks(u, stack, st, r.state);
          RunWithin(p, u, stack, Recorded(r.state, s, k + 1), s, k + 1, outs + [r.value]);
        }
    }
  }

  // ---------------------------------------------------------------- sequences of requests

  function EmptyState<S(!new), V>(): State<S, V> { State(map[], []) }

  /** Top-level requests, one after the other on the same builder; `None` if one panicked. */
  function RunAll<S(!new), E(!new), V(!new)>(
    p: Plan<S, E, V>, ghost u: set<S>, st: State<S, V>, reqs: seq<S>): Option<State<S, V>>
    requires Closed(p, u) && Elements(reqs) <= u
    decreases |reqs|
  {
    if reqs == [] then Some(st)
    else
      assert reqs[0] in Elements(reqs);
      assert Elements(reqs[1..]) <= Elements(reqs);
      match Ensure(p, u, [], st, reqs[0])
      case Cycle => None
      case Ok(st', _) => RunAll(p, u, st', reqs[1..])
  }

  ghost predicate Settled<S(!new), E(!new), V(!new)>(
    p: Plan<S, E, V>, u: set<S>, roots: set<S>, st: State<S, V>, reqs: seq<S>, st': State<S, V>)
  {
    && Inv(p, roots, [], st') && CacheCorrect(p, st'.cache) && st'.cache.Keys <= u
    && st.cache.Keys + Elements(reqs) <= st'.cache.Keys
    && (forall r :: r in reqs ==> Eval(p, u, r).Some?)
  }

  lemma {:induction false} RunAllInv<S(!new), E(!new), V(!new)>(
    p: Plan<S, E, V>, u: set<S>, roots: set<S>, st: State<S, V>, reqs: seq<S>)
    requires Closed(p, u) && Elements(reqs) <= u && Elements(reqs) <= roots
    requires Inv(p, roots, [], st) && CacheCorrect(p, st.cache) && st.cache.Keys <= u
    ensures RunAll(p, u, st, reqs).None? ==> exists r :: r in reqs && Eval(p, u, r) == None
    ensures RunAll(p, u, st, reqs).Some? ==> Settled(p, u, roots, st, reqs, RunAll(p, u, st, reqs).value)
    decreases |reqs|
  {
    if reqs != [] {
      var s := reqs[0];
      assert s in Elements(reqs);
      assert Elements(reqs[1..]) <= Elements(reqs) == Elements(reqs[1..]) + {s};
      assert Requested(p, roots, st.trace, s);
      EnsureKeepsInv(p, u, roots, [], st, s);
      EnsureRefinesEval(p, u, st, s);
      EnsureWithin(p, u, [], st, s);
      var r := Ensure(p, u, [], st, s);
      if r.Ok? {
        RunAllInv(p, u, roots, r.state, reqs[1..]);
      }
    }
  }

  /** Later requests only add to the trace. */
  lemma {:induction false} RunAllExtends<S(!new), E(!new), V(!new)>(
    p: Plan<S, E, V>, u: set<S>, roots: set<S>, st: State<S, V>, reqs: seq<S>)
    requires Closed(p, u) && Elements(reqs) <= u && Elements(reqs) <= roots && Inv(p, roots, [], st)
    requires RunAll(p, u, st, reqs).Some?
    ensures st.trace <= RunAll(p, u, st, reqs).value.trace
    decreases |reqs|
  {
    hide Inv, Ensure;
    if reqs != [] {
      assert reqs[0] in Elements(reqs);
      assert Elements(reqs[1..]) <= Elements(reqs);
      assert Requested(p, roots, st.trace, reqs[0]);
      EnsureKeepsInv(p, u, roots, [], st, reqs[0]);
      RunAllExtends(p, u, roots, Ensure(p, u, [], st, reqs[0]).state, reqs[1..]);
    }
  }

  /** `st` is where the requests `reqs` should lead. */
  ghost predicate Faithful<S(!new), E(!new), V(!new)>(p: Plan<S, E, V>, u: set<S>, reqs: seq<S>, st: State<S, V>) {
    && Legal(p, Elements(reqs), st.trace)
    && (forall s :: s in st.cache <==> ReachedFrom(p, Elements(reqs), s))
    && (forall s :: s in st.cache <==> Finished(p, st.trace, s))
    && (forall s :: s in st.cache ==> Eval(p, u, s) == Some(st.cache[s]))
  }

  /** Whole runs: what is run is exactly what the requests reach, every output is the plain
      evaluation of its step, and a panic means that some request cannot be evaluated. */
  lemma WholeRun<S(!new), E(!new), V(!new)>(p: Plan<S, E, V>, u: set<S>, reqs: seq<S>)
    requires Closed(p, u) && Elements(reqs) <= u
    ensures RunAll(p, u, EmptyState(), reqs).None? <==> exists r :: r in reqs && Eval(p, u, r) == None
    ensures RunAll(p, u, EmptyState(), reqs).Some? ==> Faithful(p, u, reqs, RunAll(p, u, EmptyState(), reqs).value)
  {
    RunAllInv(p, u, Elements(reqs), EmptyState(), reqs);
    var o := RunAll(p, u, EmptyState(), reqs);
    if o.Some? {
      SettledIsFaithful(p, u, reqs, o.value);
    }
  }

  lemma SettledIsFaithful<S(!new), E(!new), V(!new)>(p: Plan<S, E, V>, u: set<S>, reqs: seq<S>, st: State<S, V>)
    requires Settled(p, u, Elements(reqs), EmptyState(), reqs, st)
    ensures Faithful(p, u, reqs, st)
  {
    forall s ensures s in st.cache <==> ReachedFrom(p, Elements(reqs), s) {
      CachedIffReached(p, Elements(reqs), st, s);
    }
    forall s | s in st.cache ensures Eval(p, u, s) == Some(st.cache[s]) {
      EvalMonotone(p, st.cache.Keys, u, s);
    }
    forall s ensures s in st.cache <==> Finished(p, st.trace, s) {
    }
  }

  lemma CachedIffReached<S(!new), E(!new), V(!new)>(p: Plan<S, E, V>, roots: set<S>, st: State<S, V>, s: S)
    requires Inv(p, roots, [], st) && roots <= st.cache.Keys
    ensures s in st.cache <==> ReachedFrom(p, roots, s)
  {
    if s in st.cache {
      StartedWasReached(p, roots, st.trace, Event(s, |p.body(s)|));
    } else if ReachedFrom(p, roots, s) {
      var r :| r in roots && Reaches(p, r, s);
      var q :| PathTo(p, r, s, q);
      PathCached(p, roots, [], st, q, |q| - 1);
    }
  }

  // ---------------------------------------------------------------- plans with a measure

  ghost predicate Ranked<S(!new), E(!new), V(!new)>(p: Plan<S, E, V>, rank: S -> nat) {
    forall x, y :: Edge(p, x, y) ==> rank(y) < rank(x)
  }

  /** Everything `s` reaches, for a plan whose requests decrease a measure. */
  ghost function ReachSet<S(!new), E(!new), V(!new)>(p: Plan<S, E, V>, rank: S -> nat, s: S, k: nat): set<S>
    requires Ranked(p, rank) && k <= |p.body(s)|
    decreases rank(s), |p.body(s)| - k
  {
    if k == |p.body(s)| then {s}
    else match p.body(s)[k]
      case Do(_) => ReachSet(p, rank, s, k + 1)
      case Need(d) =>
        assert Edge(p, s, d);
        ReachSet(p, rank, s, k + 1) + ReachSet(p, rank, d, 0)
  }

  lemma {:induction false} ReachSetClosed<S(!new), E(!new), V(!new)>(p: Plan<S, E, V>, rank: S -> nat, s: S, k: nat)
    requires Ranked(p, rank) && k <= |p.body(s)|
    ensures s in ReachSet(p, rank, s, k)
    ensures forall x, y :: x in ReachSet(p, rank, s, k) && x != s && Edge(p, x, y) ==> y in ReachSet(p, rank, s, k)
    ensures forall j :: k <= j < |p.body(s)| && p.body(s)[j].Need? ==> p.body(s)[j].step in ReachSet(p, rank, s, k)
    decreases rank(s), |p.body(s)| - k
  {
    if k < |p.body(s)| {
      ReachSetClosed(p, rank, s, k + 1);
      if p.body(s)[k].Need? {
        var d := p.body(s)[k].step;
        assert Edge(p, s, d);
        ReachSetClosed(p, rank, d, 0);
        forall y | Edge(p, d, y) ensures y in ReachSet(p, rank, d, 0) {
          var j :| 0 <= j < |p.body(d)| && p.body(d)[j] == Need(y);
          assert p.body(d)[j].Need?;
        }
      }
    }
  }

  ghost function Universe<S(!new), E(!new), V(!new)>(p: Plan<S, E, V>, rank: S -> nat, reqs: seq<S>): (u: set<S>)
    requires Ranked(p, rank)
    ensures Closed(p, u) && Elements(reqs) <= u
    decreases |reqs|
  {
    if reqs == [] then {}
    else
      ReachSetClosed(p, rank, reqs[0], 0);
      assert forall y :: Edge(p, reqs[0], y) ==> y in ReachSet(p, rank, reqs[0], 0) by {
        forall y | Edge(p, reqs[0], y) ensures y in ReachSet(p, rank, reqs[0], 0) {
          var j :| 0 <= j < |p.body(reqs[0])| && p.body(reqs[0])[j] == Need(y);
          assert p.body(reqs[0])[j].Need?;
        }
      }
      var u := Universe(p, rank, reqs[1..]) + ReachSet(p, rank, reqs[0], 0);
      assert forall x :: x in reqs ==> x == reqs[0] || x in reqs[1..];
      assert forall x :: x in reqs[1..] ==> x in Elements(reqs[1..]);
      u
  }

  /** With a measure, no request ever trips the cycle detector. */
  lemma RankedNeverCycles<S(!new), E(!new), V(!new)>(p: Plan<S, E, V>, rank: S -> nat, u: set<S>, st: State<S, V>,
      reqs: seq<S>)
    requires Ranked(p, rank) && Closed(p, u) && Elements(reqs) <= u
    ensures RunAll(p, u, st, reqs).Some?
    decreases |reqs|
  {
    if reqs != [] {
      assert reqs[0] in Elements(reqs);
      assert Elements(reqs[1..]) <= Elements(reqs);
      var r := Ensure(p, u, [], st, reqs[0]);
      if r.Cycle? {
        var q := CycleHasPath(p, u, [], st, reqs[0]);
        var i :| 0 <= i < |q| - 1 && q[i] == q[|q| - 1];
        PathDescends(p, rank, q, i, |q| - 1);
      } else {
        RankedNeverCycles(p, rank, u, r.state, reqs[1..]);
      }
    }
  }

  lemma {:induction false} PathDescends<S(!new), E(!new), V(!new)>(p: Plan<S, E, V>, rank: S -> nat, q: seq<S>,
      i: nat, j: nat)
    requires Ranked(p, rank) && IsPath(p, q) && i < j < |q|
    ensures rank(q[j]) < rank(q[i])
    decreases j
  {
    assert Edge(p, q[j - 1], q[j - 1 + 1]);
    if i < j - 1 {
      PathDescends(p, rank, q, i, j - 1);
    }
  }
}
