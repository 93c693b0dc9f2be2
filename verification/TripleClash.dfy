/**
 Custom target specifications are told apart by file, but directories are named by triple.  Two
 specifications with one triple make a run erase what it has copied; these lemmas show it, and that
 nothing else does.
 */
module TripleClash {
  import opened Basics
  import opened Scheduler
  import opened Runs
  import opened RunTheorems
  import opened Naming
  import opened Bootstrap
  import opened BootstrapLocal
  import opened BootstrapRuns
  import opened BootstrapResults
  import opened BootstrapCopies

  ghost predicate NothingErased(cfg: Config, tr: Trace) {
    forall i: nat, j: nat, dir, p :: i < j && Copies(cfg, tr, i, dir) && Happens(cfg, tr, j, Wipe(p)) ==> !(p <= dir)
  }

  /** The library built with `c` for `t`, then for `u`. */
  function StdForBoth(c: Compiler, t: Target, u: Target): seq<Step> { [Std(c, t), Std(c, u)] }

  /** After building for `t`, building for another target that shares the triple of `t` or of the
      build erases part of the result. */
  lemma ClashErases(cfg: Config, c: Compiler, t: Target, u: Target, tr0: Trace, tr: Trace)
    requires FreshBuild(cfg) && !cfg.dryRun && c.host == cfg.build
    requires u != t && u != cfg.build && (u.triple == t.triple || u.triple == cfg.build.triple)
    requires IsRun(cfg, {Std(c, t)}, tr0) && IsRun(cfg, Elements(StdForBoth(c, t, u)), tr) && tr0 <= tr
    requires Finished(BootstrapPlan(cfg), tr0, Std(c, t)) && Finished(BootstrapPlan(cfg), tr, Std(c, u))
    ensures !NothingErased(cfg, tr)
  {
    hide Body, Libdir, NothingErased;
    var dir := Libdir(cfg.layout, c, u);
    var i := FirstCopies(cfg, c, t, u, tr0);
    var j := SecondWipes(cfg, c, t, u, tr);
    if j < |tr0| {
      assert tr[j] == tr0[j];
      OnlyRequestedTargets(cfg, {Std(c, t)}, tr0, tr0[j], u);
    }
    assert Happens(cfg, tr, i, CopyInto(dir));
    Erased(cfg, tr, i, j, dir);
  }

  lemma Erased(cfg: Config, tr: Trace, i: nat, j: nat, dir: Path)
    requires i < j && Happens(cfg, tr, i, CopyInto(dir)) && Happens(cfg, tr, j, Wipe(dir))
    ensures !NothingErased(cfg, tr)
  {
    hide Happens;
    assert Copies(cfg, tr, i, dir) && dir <= dir;
  }

  lemma FirstCopies(cfg: Config, c: Compiler, t: Target, u: Target, tr: Trace) returns (i: nat)
    requires FreshBuild(cfg) && !cfg.dryRun && c.host == cfg.build
    requires u.triple == t.triple || u.triple == cfg.build.triple
    requires IsRun(cfg, {Std(c, t)}, tr) && Finished(BootstrapPlan(cfg), tr, Std(c, t))
    ensures Happens(cfg, tr, i, CopyInto(Libdir(cfg.layout, c, u)))
  {
    hide Body, Libdir;
    var source := Source(cfg, c, t);
    StdAsksLink(cfg, c, t, source);
    RequestDone(cfg, {Std(c, t)}, tr, Std(c, t), StdLink(source, c, t));
    var k := LinkReadsAndCopies(cfg, {Std(c, t)}, tr, ModeStd, source, c, t);
    SameLibdir(cfg.layout, c, t, u);
    SameLibdir(cfg.layout, c, cfg.build, u);
    var dir := Libdir(cfg.layout, c, u);
    i :| k < i && Happens(cfg, tr, i, CopyInto(dir)) && tr[i].step == StdLink(source, c, t);
  }

  /** The compiler whose library `c` is given for `t`. */
  function Source(cfg: Config, c: Compiler, t: Target): (source: Compiler)
    ensures IsSource(cfg, c, t, source)
  {
    Compiler(if !cfg.fullBootstrap && c.stage >= 2 && (t == cfg.build || t in cfg.hosts) then 1 else c.stage, cfg.build)
  }

  lemma SameLibdir(l: Layout, c: Compiler, t: Target, u: Target)
    ensures t.triple == u.triple ==> Libdir(l, c, t) == Libdir(l, c, u)
  {
  }

  lemma SecondWipes(cfg: Config, c: Compiler, t: Target, u: Target, tr: Trace) returns (j: nat)
    requires FreshBuild(cfg) && c.host == cfg.build
    requires IsRun(cfg, Elements(StdForBoth(c, t, u)), tr) && Finished(BootstrapPlan(cfg), tr, Std(c, u))
    ensures Happens(cfg, tr, j, Wipe(Libdir(cfg.layout, c, u))) && tr[j].step == LibdirOf(c, u)
  {
    hide Body, Libdir;
    var roots, source := Elements(StdForBoth(c, t, u)), Source(cfg, c, u);
    StdAsksLink(cfg, c, u, source);
    RequestDone(cfg, roots, tr, Std(c, u), StdLink(source, c, u));
    LinkAsksLibdir(cfg, source, c, u);
    RequestDone(cfg, roots, tr, StdLink(source, c, u), LibdirOf(c, u));
    DirectoriesPrepared(cfg, roots, tr, c, u);
    j :| Happens(cfg, tr, j, Wipe(Libdir(cfg.layout, c, u))) && tr[j].step == LibdirOf(c, u);
  }

  lemma LinkAsksLibdir(cfg: Config, source: Compiler, c: Compiler, t: Target)
    ensures Need(LibdirOf(c, t)) in Body(cfg, StdLink(source, c, t))
  {
    hide Libdir;
    assert LinkBody(cfg, source, c, t, StdStamp(source, t))[0] == Need(LibdirOf(c, t));
  }

  /** Building the library of any stage, first for `t` and then for `u`, loses nothing exactly when
      `u` does not pass for `t` or for the build triple. */
  lemma LosesNothingIffTriplesDiffer(cfg: Config, c: Compiler, t: Target, u: Target)
    requires FreshBuild(cfg) && !cfg.dryRun && c.host == cfg.build
    requires t == cfg.build || t.triple != cfg.build.triple
    ensures var reqs := StdForBoth(c, t, u);
      var st := RunAll(BootstrapPlan(cfg), Reachable(cfg, reqs), EmptyState(), reqs);
      && st.Some?
      && (NothingErased(cfg, st.value.trace) <==>
           (u.triple == t.triple ==> u == t) && (u.triple == cfg.build.triple ==> u == cfg.build))
  {
    hide Body, NothingErased;
    var p, reqs := BootstrapPlan(cfg), StdForBoth(c, t, u);
    BootstrapNeverCycles(cfg, reqs);
    var all := Reachable(cfg, reqs);
    var st := RunAll(p, all, EmptyState(), reqs).value;
    if (u.triple == t.triple ==> u == t) && (u.triple == cfg.build.triple ==> u == cfg.build) {
      ApartLosesNothing(cfg, c, t, u, st.trace);
    } else {
      var tr0 := AfterFirst(cfg, reqs[0], reqs[1], all);
      ReachSelf(p, reqs[1]);
      assert reqs[1] in Elements(reqs) && ReachedFrom(p, Elements(reqs), reqs[1]);
      ClashErases(cfg, c, t, u, tr0, st.trace);
    }
  }

  lemma ApartLosesNothing(cfg: Config, c: Compiler, t: Target, u: Target, tr: Trace)
    requires IsRun(cfg, Elements(StdForBoth(c, t, u)), tr) && !cfg.downloadRustc && c.host == cfg.build
    requires t == cfg.build || t.triple != cfg.build.triple
    requires (u.triple == t.triple ==> u == t) && (u.triple == cfg.build.triple ==> u == cfg.build)
    ensures NothingErased(cfg, tr)
  {
    hide Body, Copies;
    var roots := Elements(StdForBoth(c, t, u));
    forall x, y | Concerned(cfg, roots, x) && Concerned(cfg, roots, y) && x.triple == y.triple ensures x == y {
      ConcernedWithBoth(cfg, c, t, u, x);
      ConcernedWithBoth(cfg, c, t, u, y);
    }
    forall i: nat, j: nat, dir, q | i < j && Copies(cfg, tr, i, dir) && Happens(cfg, tr, j, Wipe(q))
      ensures !(q <= dir)
    {
      NothingCopiedIsErased(cfg, roots, tr, i, j, dir, q);
    }
  }

  lemma ConcernedWithBoth(cfg: Config, c: Compiler, t: Target, u: Target, x: Target)
    requires c.host == cfg.build && Concerned(cfg, Elements(StdForBoth(c, t, u)), x)
    ensures x in {cfg.build, t, u}
  {
  }

  /** The trace after the first of two requests: legal for that request alone, and kept by the second. */
  lemma AfterFirst(cfg: Config, a: Step, b: Step, all: set<Step>) returns (tr0: Trace)
    requires Closed(BootstrapPlan(cfg), all) && Elements([a, b]) <= all
    requires RunAll(BootstrapPlan(cfg), all, EmptyState(), [a, b]).Some?
    ensures IsRun(cfg, {a}, tr0) && Finished(BootstrapPlan(cfg), tr0, a)
    ensures tr0 <= RunAll(BootstrapPlan(cfg), all, EmptyState(), [a, b]).value.trace
  {
    hide Body, Ensure, Inv;
    var p, reqs := BootstrapPlan(cfg), [a, b];
    var empty: State<Step, Output> := EmptyState();
    assert a in reqs && b in reqs && reqs[1..] == [b];
    assert Elements(reqs) == {a, b} && Elements([b]) == {b};
    NothingDone(p, {a});
    NothingDone(p, {a, b});
    EnsureKeepsInv(p, all, {a}, [], empty, a);
    EnsureKeepsInv(p, all, {a, b}, [], empty, a);
    var st0 := Ensure(p, all, [], empty, a).state;
    tr0 := st0.trace;
    assert RunAll(p, all, empty, reqs) == RunAll(p, all, st0, [b]);
    RunAllExtends(p, all, {a, b}, st0, [b]);
    InvIs(p, {a}, st0);
  }

  lemma NothingDone<S(!new), E(!new), V(!new)>(p: Plan<S, E, V>, roots: set<S>)
    ensures Inv(p, roots, [], EmptyState())
  {
  }

  lemma InvIs<S(!new), E(!new), V(!new)>(p: Plan<S, E, V>, roots: set<S>, st: State<S, V>)
    requires Inv(p, roots, [], st)
    ensures Legal(p, roots, st.trace) && forall s :: s in st.cache ==> Finished(p, st.trace, s)
  {
  }
}
