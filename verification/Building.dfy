/**
 `Builder` as the program runs it: the step stack, the write-once cache, and the cell that
 accumulates time spent in nested steps, all updated in place.
 */
module Building {
  import opened Basics
  import opened Scheduler
  import opened RunTheorems

  /** One `[TIMING]` line: a step and the time it spent outside the steps it requested. */
  datatype Timing<S> = Timing(step: S, selfTime: nat)

  ghost function Total<S>(ts: seq<Timing<S>>): nat {
    if ts == [] then 0 else Total(ts[..|ts| - 1]) + ts[|ts| - 1].selfTime
  }

  lemma {:induction false} TotalConcat<S>(a: seq<Timing<S>>, b: seq<Timing<S>>)
    ensures Total(a + b) == Total(a) + Total(b)
    decreases |b|
  {
    if b == [] {
      assert a + b == a;
    } else {
      var c := a + b;
      assert c[..|c| - 1] == a + b[..|b| - 1];
      TotalConcat(a, b[..|b| - 1]);
    }
  }

  /** A snapshot of the accounting: lines reported, time charged to the running step, clock. */
  datatype Account<S> = Account(timings: seq<Timing<S>>, spent: nat, clock: nat)

  /** From `a` to `b` lines were only added, and they add up to the time charged meanwhile. */
  ghost predicate Charged<S>(a: Account<S>, b: Account<S>) {
    && a.timings <= b.timings
    && a.spent <= b.spent
    && Total(b.timings) - Total(a.timings) == b.spent - a.spent
    && b.spent - a.spent <= b.clock - a.clock
  }

  /** `b` adds lines to `a`, and the last is about `s`. */
  ghost predicate ReportedLast<S>(a: seq<Timing<S>>, b: seq<Timing<S>>, s: S) {
    a < b && b[|b| - 1].step == s
  }

  lemma ChargedTransitive<S>(a: Account<S>, b: Account<S>, c: Account<S>)
    requires Charged(a, b) && Charged(b, c)
    ensures Charged(a, c)
  {
  }

  /** A step ran from `start` to `end` on a zeroed cell; charging its whole duration to `a` and
      reporting the duration less its requests keeps the books balanced. */
  lemma ChargeStep<S>(a: Account<S>, start: Account<S>, end: Account<S>, s: S)
    requires start == Account(a.timings, 0, start.clock) && a.clock <= start.clock && Charged(start, end)
    ensures var dur := end.clock - start.clock;
      end.spent <= dur && Charged(a, Account(end.timings + [Timing(s, dur - end.spent)], a.spent + dur, end.clock))
  {
    TotalConcat(end.timings, [Timing(s, end.clock - start.clock - end.spent)]);
  }

  /** The requests from `k` on. */
  ghost function Rest<S(!new)>(u: set<S>, reqs: seq<S>, k: nat): (r: seq<S>)
    requires k <= |reqs| && Elements(reqs) <= u
    ensures r == reqs[k..] && Elements(r) <= u && (k < |reqs| ==> reqs[k] in u)
  {
    assert k < |reqs| ==> reqs[k] in Elements(reqs);
    assert Elements(reqs[k..]) <= Elements(reqs);
    reqs[k..]
  }

  class Builder<S(!new, ==), E(!new), V(!new)> {
    const plan: Plan<S, E, V>
    ghost const universe: set<S>
    var stack: seq<S>
    var cache: map<S, V>
    var timeSpentOnDependencies: nat
    var clock: nat  // the reading of the monotone clock
    ghost var trace: seq<Event<S>>
    ghost var timings: seq<Timing<S>>

    ghost function St(): State<S, V>
      reads this`cache, this`trace
    {
      State(cache, trace)
    }

    ghost function Books(): Account<S>
      reads this`timings, this`timeSpentOnDependencies, this`clock
    {
      Account(timings, timeSpentOnDependencies, clock)
    }

    ghost predicate Valid()
      reads this`stack, this`cache
    {
      Closed(plan, universe) && Elements(stack) !! cache.Keys
    }

    constructor (plan: Plan<S, E, V>, ghost universe: set<S>)
      requires Closed(plan, universe)
      ensures Valid() && this.plan == plan && this.universe == universe
      ensures stack == [] && St() == EmptyState() && timings == [] && timeSpentOnDependencies == 0
    {
      this.plan, this.universe := plan, universe;
      stack, cache, trace, timings := [], map[], [], [];
      timeSpentOnDependencies, clock := 0, 0;
    }

    /** Time passes, by an amount nobody controls. */
    method Elapse()
      modifies this`clock
      ensures clock >= old(clock)
    {
      var now :| clock <= now;
      clock := now;
    }

    /** `ensure`: the outcome is the one the scheduler function gives, the stack is restored, and
        the self-times reported meanwhile add up to the time charged to the requesting step. */
    method Ensure(s: S) returns (r: Option<V>)
      requires Valid() && s in universe
      modifies this`stack, this`cache, this`timeSpentOnDependencies, this`clock, this`trace, this`timings
      ensures r.None? <==> Scheduler.Ensure(plan, universe, old(stack), old(St()), s).Cycle?
      ensures r.Some? ==> Scheduler.Ensure(plan, universe, old(stack), old(St()), s) == Ok(St(), r.value)
      ensures r.Some? ==> Valid() && stack == old(stack) && Charged(old(Books()), Books())
      ensures s in old(cache) ==> timings == old(timings)
      ensures r.Some? && s !in old(cache) ==> ReportedLast(old(timings), timings, s)
      decreases |Fresh(universe, stack, St())|, 0, 1
    {
      if s in stack {
        return None;
      }
      if s in cache {
        return Some(cache[s]);
      }
      Elapse();
      r := Process(s, RunFrom(plan, universe, stack + [s], Recorded(St(), s, 0), s, 0, []));
    }

    /** A whole invocation on a new builder: the requested steps one after the other.  It ends in the
        state whose properties the whole-run theorems give, or panics if some request cannot be
        evaluated; every unit of time charged at the top has been reported as one step's own. */
    method EnsureAll(reqs: seq<S>) returns (ok: bool)
      requires Valid() && Elements(reqs) <= universe
      requires stack == [] && St() == EmptyState() && timings == [] && timeSpentOnDependencies == 0
      modifies this`stack, this`cache, this`timeSpentOnDependencies, this`clock, this`trace, this`timings
      ensures ok <==> forall r :: r in reqs ==> Eval(plan, universe, r).Some?
      ensures ok ==> stack == [] && Faithful(plan, universe, reqs, St())
      ensures ok ==> Total(timings) == timeSpentOnDependencies
    {
      hide Faithful;
      WholeRun(plan, universe, reqs);
      var k := 0;
      ok := true;
      while k < |reqs| && ok
        invariant k <= |reqs| && (ok ==> Valid() && stack == [] && Charged(old(Books()), Books()))
        invariant ok ==>
          RunAll(plan, universe, EmptyState(), reqs) == RunAll(plan, universe, St(), Rest(universe, reqs, k))
        invariant !ok ==> RunAll(plan, universe, EmptyState(), reqs) == None
      {
        assert Rest(universe, reqs, k)[1..] == Rest(universe, reqs, k + 1);
        ghost var books := Books();
        var out := Ensure(reqs[k]);
        k, ok := k + 1, out.Some?;
        if ok {
          ChargedTransitive(old(Books()), books, Books());
        }
      }
    }

    /** The part of `ensure` after the cycle check and the cache miss.  Here and below, `goal` is
        the outcome the scheduler function gives for the same run. */
    method Process(s: S, ghost goal: Outcome<S, V>) returns (r: Option<V>)
      requires Valid() && s in universe && s !in stack && s !in cache
      requires goal == RunFrom(plan, universe, stack + [s], Recorded(St(), s, 0), s, 0, [])
      modifies this`stack, this`cache, this`timeSpentOnDependencies, this`clock, this`trace, this`timings
      ensures r.None? <==> goal.Cycle?
      ensures r.Some? ==> goal.value == r.value && St() == State(goal.state.cache[s := r.value], goal.state.trace)
      ensures r.Some? ==> Valid() && stack == old(stack) && Charged(old(Books()), Books())
      ensures r.Some? ==> ReportedLast(old(timings), timings, s)
      ensures r.Some? ==> timeSpentOnDependencies == old(timeSpentOnDependencies) + (clock - old(clock))
      decreases |Fresh(universe, stack, St())|, 0, 0
    {
      Enter(s);
      r := RunTimed(s, goal);
      if r.Some? {
        Leave(s, r.value, old(stack));
      }
    }

    /** Run `s` on a zeroed cell, report its self-time and charge its duration to its requester. */
    method RunTimed(s: S, ghost goal: Outcome<S, V>) returns (r: Option<V>)
      requires Valid() && s in universe && s in stack && goal == RunFrom(plan, universe, stack, St(), s, 0, [])
      modifies this`stack, this`cache, this`timeSpentOnDependencies, this`clock, this`trace, this`timings
      ensures r.None? <==> goal.Cycle?
      ensures r.Some? ==> goal == Ok(St(), r.value)
      ensures r.Some? ==> Valid() && stack == old(stack) && Charged(old(Books()), Books())
      ensures r.Some? ==> ReportedLast(old(timings), timings, s)
      ensures r.Some? ==> timeSpentOnDependencies == old(timeSpentOnDependencies) + (clock - old(clock))
      decreases |Fresh(universe, stack, St())|, 3
    {
      var start := clock;
      var parent := timeSpentOnDependencies;
      timeSpentOnDependencies := 0;
      ghost var before := Books();
      r := Run(s, goal);
      if r.Some? {
        ChargeStep(old(Books()), before, Books(), s);
        var dur := clock - start;
        var deps := timeSpentOnDependencies;
        timeSpentOnDependencies := parent + dur;
        // Subtracting a longer duration from a shorter one would panic.
        assert deps <= dur;
        timings := timings + [Timing(s, dur - deps)];
      }
    }

    /** Push `s`. */
    method Enter(s: S)
      requires Valid() && s in universe && s !in stack && s !in cache
      modifies this`stack, this`trace
      ensures Valid() && stack == old(stack) + [s] && trace == old(trace) + [Event(s, 0)]
      ensures |Fresh(universe, stack, St())| < old(|Fresh(universe, stack, St())|)
    {
      FreshAfterStart(universe, stack, St(), s);
      stack := stack + [s];
      trace := trace + [Event(s, 0)];
    }

    /** Pop `s`, which must be on top, and cache its output, which must be its first. */
    method Leave(s: S, out: V, ghost below: seq<S>)
      requires Valid() && stack == below + [s] && s !in below
      modifies this`stack, this`cache
      ensures Valid() && stack == below && cache == old(cache)[s := out] && s !in old(cache)
    {
      assert s in Elements(stack);
      var top := stack[|stack| - 1];
      stack := stack[..|stack| - 1];
      assert top == s && s !in cache;
      cache := cache[s := out];
      assert Elements(below) <= Elements(below + [s]);
    }

    /** `run` of the step on top of the stack: its actions in order. */
    method Run(s: S, ghost goal: Outcome<S, V>) returns (r: Option<V>)
      requires Valid() && s in universe && s in stack && goal == RunFrom(plan, universe, stack, St(), s, 0, [])
      modifies this`stack, this`cache, this`timeSpentOnDependencies, this`clock, this`trace, this`timings
      ensures r.None? <==> goal.Cycle?
      ensures r.Some? ==> goal == Ok(St(), r.value)
      ensures r.Some? ==> Valid() && stack == old(stack) && Charged(old(Books()), Books())
      decreases |Fresh(universe, stack, St())|, 2
    {
      hide Recorded;
      var outs := Some([]);
      var k := 0;
      while k < |plan.body(s)| && outs.Some?
        invariant k <= |plan.body(s)|
        invariant outs.None? ==> goal.Cycle?
        invariant outs.Some? ==> Valid() && stack == old(stack) && Charged(old(Books()), Books())
        invariant outs.Some? ==> |Fresh(universe, stack, St())| <= old(|Fresh(universe, stack, St())|)
        invariant outs.Some? ==> goal == RunFrom(plan, universe, stack, St(), s, k, outs.value)
        decreases |plan.body(s)| - k
      {
        ghost var books := Books();
        outs := Perform(s, k, outs.value, goal);
        k := k + 1;
        if outs.Some? {
          ChargedTransitive(old(Books()), books, Books());
        }
      }
      r := if outs.Some? then Some(plan.output(s, outs.value)) else None;
    }

    /** Action `k` of `s`. */
    method Perform(s: S, k: nat, outs: seq<V>, ghost goal: Outcome<S, V>) returns (r: Option<seq<V>>)
      requires Valid() && s in universe && s in stack && k < |plan.body(s)|
      requires goal == RunFrom(plan, universe, stack, St(), s, k, outs)
      modifies this`stack, this`cache, this`timeSpentOnDependencies, this`clock, this`trace, this`timings
      ensures r.None? ==> goal.Cycle?
      ensures r.Some? ==> goal == RunFrom(plan, universe, stack, St(), s, k + 1, r.value)
      ensures r.Some? ==> Valid() && stack == old(stack) && Charged(old(Books()), Books())
      ensures r.Some? ==> |Fresh(universe, stack, St())| <= old(|Fresh(universe, stack, St())|)
      decreases |Fresh(universe, stack, St())|, 1
    {
      match plan.body(s)[k] {
        case Do(_) =>
          Elapse();
          r := Some(outs);
        case Need(d) =>
          assert Edge(plan, s, d);
          var out := Ensure(d);
          if out.None? {
            return None;
          }
          FreshShrinks(universe, stack, old(St()), St());
          r := Some(outs + [out.value]);
      }
      trace := trace + [Event(s, k + 1)];
    }
  }

  lemma FreshAfterStart<S(!new), V>(u: set<S>, stack: seq<S>, st: State<S, V>, s: S)
    requires s in u && s !in stack && s !in st.cache
    ensures |Fresh(u, stack + [s], Recorded(st, s, 0))| < |Fresh(u, stack, st)|
    ensures Elements(stack + [s]) == Elements(stack) + {s}
  {
    assert Fresh(u, stack + [s], Recorded(st, s, 0)) == Fresh(u, stack, st) - {s};
  }
}
