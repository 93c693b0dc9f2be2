/**
 Whole runs of the bootstrap plan: theorems about every legal trace of the scheduler on it, so
 about every prefix of every run of every sequence of requests.
 */
module BootstrapRuns {
  import opened Basics
  import opened Scheduler
  import opened Runs
  import opened RunTheorems
  import opened Naming
  import opened Bootstrap
  import opened BootstrapLocal
  import opened BootstrapBodies

  type Trace = seq<Event<Step>>

  ghost predicate IsRun(cfg: Config, roots: set<Step>, tr: Trace) { Legal(BootstrapPlan(cfg), roots, tr) }

  /** Event `i` is the completion of effect `e`. */
  ghost predicate Happens(cfg: Config, tr: Trace, i: nat, e: Effect) {
    && i < |tr| && 0 < tr[i].count <= |Body(cfg, tr[i].step)|
    && Body(cfg, tr[i].step)[tr[i].count - 1] == Do(e)
  }

  ghost predicate HappenedBefore(cfg: Config, tr: Trace, i: nat, e: Effect) {
    exists j :: 0 <= j < i && Happens(cfg, tr, j, e)
  }

  // ---------------------------------------------------------------- the measure

  lemma PlanIsRanked(cfg: Config)
    ensures Ranked(BootstrapPlan(cfg), s => Rank(cfg, s))
  {
    var p := BootstrapPlan(cfg);
    forall x, y | Edge(p, x, y) ensures Rank(cfg, y) < Rank(cfg, x) {
      RequestDescends(cfg, x, y);
    }
  }

  lemma RequestDescends(cfg: Config, x: Step, y: Step)
    requires Need(y) in Body(cfg, x)
    ensures Rank(cfg, y) < Rank(cfg, x)
  {
    hide Rank, Body;
    BodyOk(cfg, x);
    var k :| 0 <= k < |Body(cfg, x)| && Body(cfg, x)[k] == Need(y);
    WalkAt(cfg, x, Body(cfg, x), k);
  }

  ghost function Reachable(cfg: Config, reqs: seq<Step>): (u: set<Step>)
    ensures Closed(BootstrapPlan(cfg), u) && Elements(reqs) <= u
  {
    PlanIsRanked(cfg);
    Universe(BootstrapPlan(cfg), s => Rank(cfg, s), reqs)
  }

  /** No sequence of requests ever trips the cycle detector, whatever the configuration; the run
      ends with exactly what the requests reach, and its trace is legal. */
  lemma BootstrapNeverCycles(cfg: Config, reqs: seq<Step>)
    ensures RunAll(BootstrapPlan(cfg), Reachable(cfg, reqs), EmptyState(), reqs).Some?
    ensures var st := RunAll(BootstrapPlan(cfg), Reachable(cfg, reqs), EmptyState(), reqs).value;
      Faithful(BootstrapPlan(cfg), Reachable(cfg, reqs), reqs, st) && IsRun(cfg, Elements(reqs), st.trace)
  {
    PlanIsRanked(cfg);
    RankedNeverCycles(BootstrapPlan(cfg), s => Rank(cfg, s), Reachable(cfg, reqs), EmptyState(), reqs);
    WholeRun(BootstrapPlan(cfg), Reachable(cfg, reqs), reqs);
  }

  /** What a run gives back for the steps whose value is used: the compiler that was asked for, and the
      directories. */
  lemma RunReturns(cfg: Config, reqs: seq<Step>, c: Compiler, t: Target)
    ensures RunAll(BootstrapPlan(cfg), Reachable(cfg, reqs), EmptyState(), reqs).Some?
    ensures var cache := RunAll(BootstrapPlan(cfg), Reachable(cfg, reqs), EmptyState(), reqs).value.cache;
      && (Assemble(c) in cache ==> cache[Assemble(c)] == Built(c))
      && (Sysroot(c) in cache ==> cache[Sysroot(c)] == Directory(SysrootDir(cfg.layout, c)))
      && (LibdirOf(c, t) in cache ==> cache[LibdirOf(c, t)] == Directory(Libdir(cfg.layout, c, t)))
  {
    hide Body, SysrootDir, Libdir;
    var p, u := BootstrapPlan(cfg), Reachable(cfg, reqs);
    BootstrapNeverCycles(cfg, reqs);
    EvalIsOutput(p, u, Assemble(c), Built(c));
    EvalIsOutput(p, u, Sysroot(c), Directory(SysrootDir(cfg.layout, c)));
    EvalIsOutput(p, u, LibdirOf(c, t), Directory(Libdir(cfg.layout, c, t)));
  }

  // ---------------------------------------------------------------- from local to global

  lemma LocalAt(cfg: Config, s: Step, k: nat)
    requires k < |Body(cfg, s)|
    ensures ActOk(cfg, s, Notes(Body(cfg, s)[..k]), Body(cfg, s)[k])
  {
    hide Body, ActOk, Notes;
    BodyOk(cfg, s);
    WalkAt(cfg, s, Body(cfg, s), k);
  }

  /** What was requested before an effect has finished before it. */
  lemma NeededIsDone(cfg: Config, roots: set<Step>, tr: Trace, i: nat, d: Step, m: nat)
    requires IsRun(cfg, roots, tr) && i < |tr| && 0 < tr[i].count <= |Body(cfg, tr[i].step)|
    requires d in Notes(Body(cfg, tr[i].step)[..tr[i].count - 1]).needs && m <= |Body(cfg, d)|
    ensures Event(d, m) in tr[..i]
  {
    hide Body, Notes;
    var acts := Body(cfg, tr[i].step)[..tr[i].count - 1];
    NoteIsAction(acts);
    var j :| 0 <= j < |acts| && acts[j] == Need(d);
    NeedBefore(BootstrapPlan(cfg), roots, tr, i, j, d, m);
  }

  /** What the same step did before an effect happened before it. */
  lemma DoneByStep(cfg: Config, roots: set<Step>, tr: Trace, i: nat, e: Effect)
    requires IsRun(cfg, roots, tr) && i < |tr| && 0 < tr[i].count <= |Body(cfg, tr[i].step)|
    requires Do(e) in Body(cfg, tr[i].step)[..tr[i].count - 1]
    ensures HappenedBefore(cfg, tr, i, e)
  {
    hide Body;
    var acts := Body(cfg, tr[i].step)[..tr[i].count - 1];
    var j :| 0 <= j < |acts| && acts[j] == Do(e);
    OwnBefore(BootstrapPlan(cfg), roots, tr, i, j + 1);
    var i' :| 0 <= i' < i && tr[i'] == Event(tr[i].step, j + 1);
    assert Happens(cfg, tr, i', e);
  }

  /** An effect of a finished step has happened. */
  lemma FinishedDid(cfg: Config, roots: set<Step>, tr: Trace, d: Step, e: Effect, i: nat)
    requires IsRun(cfg, roots, tr) && i <= |tr| && Do(e) in Body(cfg, d)
    requires forall m: nat :: m <= |Body(cfg, d)| ==> Event(d, m) in tr[..i]
    ensures HappenedBefore(cfg, tr, i, e)
  {
    hide Body;
    var j :| 0 <= j < |Body(cfg, d)| && Body(cfg, d)[j] == Do(e);
    assert Event(d, j + 1) in tr[..i];
    var i' :| 0 <= i' < i && tr[i'] == Event(d, j + 1);
    assert Happens(cfg, tr, i', e);
  }

  // ---------------------------------------------------------------- hosts

  /** Every step of a run from proper requests uses compilers for the build triple. */
  lemma {:induction false} OnlyBuildHosts(cfg: Config, roots: set<Step>, tr: Trace, e: Event<Step>)
    requires IsRun(cfg, roots, tr) && (forall r :: r in roots ==> BuildHosted(cfg, r)) && e in tr
    ensures BuildHosted(cfg, e.step)
    decreases |tr|
  {
    hide Body, BuildHosted;
    var p := BootstrapPlan(cfg);
    EarlierActions(p, roots, tr, e.step, e.count, 0);
    var i :| 0 <= i < |tr| && tr[i] == Event(e.step, 0);
    LegalAt(p, roots, tr, i);
    if e.step !in roots {
      var r, j: nat :| RequestedBy(p, tr[..i], r, j, e.step);
      OnlyBuildHosts(cfg, roots, tr[..i], Event(r, j));
      LocalAt(cfg, r, j);
    }
  }

  /** The assertion that a stage-0 compiler is for the build triple never fails. */
  lemma Stage0AssertionHolds(cfg: Config, roots: set<Step>, tr: Trace, i: nat, host: Target)
    requires IsRun(cfg, roots, tr) && (forall r :: r in roots ==> BuildHosted(cfg, r))
    requires Happens(cfg, tr, i, AssertBuildHost(host))
    ensures host == cfg.build
  {
    hide Body, BuildHosted;
    OnlyBuildHosts(cfg, roots, tr, tr[i]);
    LocalAt(cfg, tr[i].step, tr[i].count - 1);
  }

  // ---------------------------------------------------------------- uplifting

  /** Artifacts that are lifted from stage 1 are never compiled by a later stage. */
  lemma NoCompileWhereUplifted(cfg: Config, roots: set<Step>, tr: Trace, i: nat, mode: Mode, c: Compiler, t: Target)
    requires IsRun(cfg, roots, tr) && Happens(cfg, tr, i, Cargo(mode, c, t)) && Staged(mode)
    ensures !cfg.fullBootstrap && c.stage >= 2 ==> t != cfg.build && t !in cfg.hosts
    ensures BuildsWith(tr[i].step, mode, c, t)
  {
    hide Body;
    LocalAt(cfg, tr[i].step, tr[i].count - 1);
  }

  /** The standard library and the compiler are compiled at most once for each compiler and
      target, and a codegen backend at most once for each compiler, target and backend. */
  lemma CompiledOnce(cfg: Config, roots: set<Step>, tr: Trace, i: nat, j: nat, mode: Mode, c: Compiler, t: Target)
    requires IsRun(cfg, roots, tr) && Staged(mode)
    requires Happens(cfg, tr, i, Cargo(mode, c, t)) && Happens(cfg, tr, j, Cargo(mode, c, t))
    requires mode == ModeCodegen ==> tr[i].step == tr[j].step
    ensures i == j
  {
    hide Body;
    LocalAt(cfg, tr[i].step, tr[i].count - 1);
    LocalAt(cfg, tr[j].step, tr[j].count - 1);
    assert tr[i].step == tr[j].step;
    var s := tr[i].step;
    SameActionOnce(cfg, s, tr[i].count - 1, tr[j].count - 1, mode, c, t);
    EventsUnique(BootstrapPlan(cfg), roots, tr, i, j);
  }

  lemma SameActionOnce(cfg: Config, s: Step, k: nat, m: nat, mode: Mode, c: Compiler, t: Target)
    requires k < |Body(cfg, s)| && m < |Body(cfg, s)| && Staged(mode)
    requires Body(cfg, s)[k] == Do(Cargo(mode, c, t)) && Body(cfg, s)[m] == Do(Cargo(mode, c, t))
    ensures k == m
  {
    hide Body, Notes;
    var lo, hi := if k < m then k else m, if k < m then m else k;
    LocalAt(cfg, s, hi);
    if lo < hi {
      assert Body(cfg, s)[..hi][lo] == Do(Cargo(mode, c, t));
      ActionIsNoted(Body(cfg, s)[..hi], Do(Cargo(mode, c, t)));
    }
  }

  // ---------------------------------------------------------------- wiping directories

  /** `t` is the build triple or a target of one of the requests. */
  ghost predicate Concerned(cfg: Config, roots: set<Step>, t: Target) {
    t == cfg.build || exists r :: r in roots && t in Targets(r)
  }

  /** No two of these targets share a triple. */
  ghost predicate TriplesDistinct(cfg: Config, roots: set<Step>) {
    forall t, u :: Concerned(cfg, roots, t) && Concerned(cfg, roots, u) && t.triple == u.triple ==> t == u
  }

  /** A run is about the targets of its requests and the build triple, and no others. */
  lemma {:induction false} OnlyRequestedTargets(cfg: Config, roots: set<Step>, tr: Trace, e: Event<Step>, t: Target)
    requires IsRun(cfg, roots, tr) && e in tr && t in Targets(e.step)
    ensures Concerned(cfg, roots, t)
    decreases |tr|
  {
    hide Body, Targets;
    var p := BootstrapPlan(cfg);
    EarlierActions(p, roots, tr, e.step, e.count, 0);
    var i :| 0 <= i < |tr| && tr[i] == Event(e.step, 0);
    LegalAt(p, roots, tr, i);
    if e.step !in roots && t != cfg.build {
      var r, j: nat :| RequestedBy(p, tr[..i], r, j, e.step);
      LocalAt(cfg, r, j);
      OnlyRequestedTargets(cfg, roots, tr[..i], Event(r, j), t);
    }
  }

  /** The directory a preparing step wipes. */
  function WipedBy(cfg: Config, s: Step): Path
    requires s.Sysroot? || s.LibdirOf?
  {
    if s.Sysroot? then SysrootDir(cfg.layout, s.compiler) else Libdir(cfg.layout, s.compiler, s.target)
  }

  lemma LibdirInjective(l: Layout, c: Compiler, t: Target, d: Compiler, u: Target)
    requires Libdir(l, c, t) == Libdir(l, d, u)
    ensures SameCompiler(c, d) && t.triple == u.triple
  {
    var p := LibdirRelative(l, d.stage) + ["rustlib", u.triple, "lib"];
    assert Libdir(l, d, u) == SysrootDir(l, d) + p;
    assert SysrootDir(l, c) <= Libdir(l, c, t);
    SysrootInjective(l, c, d, p);
    var n := |RustlibDir(l, c, t)| - 1;
    assert Libdir(l, c, t)[n] == t.triple && Libdir(l, d, u)[n] == u.triple;
  }

  /** With distinct triples, each wiped directory belongs to one step. */
  lemma OneWiper(cfg: Config, roots: set<Step>, tr: Trace, s: Step, w: Step, k: nat, m: nat)
    requires IsRun(cfg, roots, tr) && TriplesDistinct(cfg, roots) && Event(s, k) in tr && Event(w, m) in tr
    requires (s.Sysroot? || s.LibdirOf?) && (w.Sysroot? || w.LibdirOf?) && WipedBy(cfg, s) == WipedBy(cfg, w)
    ensures s == w
  {
    hide Body;
    OnlyRequestedTargets(cfg, roots, tr, Event(s, k), s.compiler.host);
    OnlyRequestedTargets(cfg, roots, tr, Event(w, m), w.compiler.host);
    if s.Sysroot? && w.Sysroot? {
      assert SysrootDir(cfg.layout, w.compiler) + [] == SysrootDir(cfg.layout, w.compiler);
      SysrootInjective(cfg.layout, s.compiler, w.compiler, []);
    } else if s.LibdirOf? && w.LibdirOf? {
      LibdirInjective(cfg.layout, s.compiler, s.target, w.compiler, w.target);
      OnlyRequestedTargets(cfg, roots, tr, Event(s, k), s.target);
      OnlyRequestedTargets(cfg, roots, tr, Event(w, m), w.target);
    }
  }

  lemma WipeIndex(cfg: Config, w: Step, k: nat, dir: Path)
    requires (w.Sysroot? || w.LibdirOf?) && k < |Body(cfg, w)| && Body(cfg, w)[k] == Do(Wipe(dir))
    ensures k == if w.Sysroot? then 0 else 1
  {
    hide SysrootDir, Libdir;
  }

  lemma WipeAt(cfg: Config, tr: Trace, j: nat, dir: Path)
    requires Happens(cfg, tr, j, Wipe(dir))
    ensures var w := tr[j].step; (w.Sysroot? || w.LibdirOf?) && dir == WipedBy(cfg, w)
    ensures tr[j].count == if tr[j].step.Sysroot? then 1 else 2
  {
    hide Body, SysrootDir, Libdir, Notes;
    LocalAt(cfg, tr[j].step, tr[j].count - 1);
    WipeIndex(cfg, tr[j].step, tr[j].count - 1, dir);
  }

  lemma LibdirAsksSysroot(cfg: Config, c: Compiler, t: Target)
    ensures |Body(cfg, LibdirOf(c, t))| > 0 && Body(cfg, LibdirOf(c, t))[0] == Need(Sysroot(c))
  {
  }

  lemma PrefixesOfSameLength(p: Path, q: Path, dir: Path)
    requires p <= dir && q <= dir && |p| == |q|
    ensures p == q
  {
  }

  lemma SysrootStepWipes(cfg: Config, c: Compiler)
    ensures |Body(cfg, Sysroot(c))| >= 1 && |SysrootDir(cfg.layout, c)| == |cfg.layout.out| + 2
  {
  }

  /** If the sysroot above a copy was guarded, its wipe is behind us. */
  lemma SysrootGuardedIsWiped(cfg: Config, roots: set<Step>, tr: Trace, i: nat, j: nat, dir: Path, c: Compiler)
    requires IsRun(cfg, roots, tr) && TriplesDistinct(cfg, roots)
    requires i < |tr| && 0 < tr[i].count <= |Body(cfg, tr[i].step)|
    requires j < |tr| && tr[j].step.Sysroot? && tr[j].count == 1 && SysrootDir(cfg.layout, tr[j].step.compiler) <= dir
    requires SysrootDir(cfg.layout, c) <= dir && SysrootWiped(cfg, Notes(Body(cfg, tr[i].step)[..tr[i].count - 1]), c)
    ensures tr[j] in tr[..i]
  {
    hide Body, Notes, SysrootDir;
    var acts, w := Body(cfg, tr[i].step)[..tr[i].count - 1], tr[j].step;
    SysrootStepWipes(cfg, c);
    SysrootStepWipes(cfg, w.compiler);
    PrefixesOfSameLength(SysrootDir(cfg.layout, c), SysrootDir(cfg.layout, w.compiler), dir);
    if SysrootDir(cfg.layout, c) in Notes(acts).wipes {
      NoteIsAction(acts);
      DoneByStep(cfg, roots, tr, i, Wipe(SysrootDir(cfg.layout, c)));
      var i' :| 0 <= i' < i && Happens(cfg, tr, i', Wipe(SysrootDir(cfg.layout, c)));
      WipeAt(cfg, tr, i', SysrootDir(cfg.layout, c));
      OneWiper(cfg, roots, tr, tr[i'].step, w, tr[i'].count, 1);
    } else {
      SysrootRequestedIsWiped(cfg, roots, tr, i, c);
      OneWiper(cfg, roots, tr, Sysroot(c), w, 1, 1);
    }
  }

  lemma SysrootRequestedIsWiped(cfg: Config, roots: set<Step>, tr: Trace, i: nat, c: Compiler)
    requires IsRun(cfg, roots, tr) && i < |tr| && 0 < tr[i].count <= |Body(cfg, tr[i].step)|
    requires var seen := Notes(Body(cfg, tr[i].step)[..tr[i].count - 1]);
      Sysroot(c) in seen.needs || exists t :: LibdirOf(c, t) in seen.needs
    ensures Event(Sysroot(c), 1) in tr[..i]
  {
    hide Body, Notes;
    var seen := Notes(Body(cfg, tr[i].step)[..tr[i].count - 1]);
    SysrootStepWipes(cfg, c);
    if Sysroot(c) in seen.needs {
      NeededIsDone(cfg, roots, tr, i, Sysroot(c), 1);
    } else {
      var t :| LibdirOf(c, t) in seen.needs;
      LibdirAsksSysroot(cfg, c, t);
      NeededIsDone(cfg, roots, tr, i, LibdirOf(c, t), 1);
      var i' :| 0 <= i' < i && tr[i'] == Event(LibdirOf(c, t), 1);
      NeedBefore(BootstrapPlan(cfg), roots, tr, i', 0, Sysroot(c), 1);
      assert tr[..i'] <= tr[..i];
    }
  }

  /** What event `i` puts files into: a directory, or the place of one file. */
  ghost predicate Copies(cfg: Config, tr: Trace, i: nat, dir: Path) {
    || Happens(cfg, tr, i, CopyInto(dir))
    || (exists c, f :: Happens(cfg, tr, i, Install(c, f)) && dir == InputDir(cfg.layout, c, f))
  }

  ghost predicate GuardedAt(cfg: Config, tr: Trace, i: nat, dir: Path) {
    && i < |tr| && 0 < tr[i].count <= |Body(cfg, tr[i].step)|
    && CopyGuarded(cfg, Notes(Body(cfg, tr[i].step)[..tr[i].count - 1]), dir)
  }

  /** A directory guarded at event `i` is wiped before event `i`. */
  lemma GuardedIsWiped(cfg: Config, roots: set<Step>, tr: Trace, i: nat, j: nat, dir: Path, p: Path)
    requires IsRun(cfg, roots, tr) && TriplesDistinct(cfg, roots)
    requires GuardedAt(cfg, tr, i, dir) && Happens(cfg, tr, j, Wipe(p)) && p <= dir
    ensures tr[j] in tr[..i]
  {
    hide Body, Notes, SysrootWiped;
    var s, w := tr[i].step, tr[j].step;
    var seen := Notes(Body(cfg, s)[..tr[i].count - 1]);
    WipeAt(cfg, tr, j, p);
    assert SysrootDir(cfg.layout, w.compiler) <= p;
    hide SysrootDir, Libdir;
    assert SysrootDir(cfg.layout, w.compiler) <= dir;
    var c :| CopyGuardedBy(cfg, seen, dir, c);
    if w.LibdirOf? {
      var t :| LibdirOf(c, t) in seen.needs && Libdir(cfg.layout, c, t) == Libdir(cfg.layout, w.compiler, w.target);
      LibdirAsksSysroot(cfg, c, t);
      NeededIsDone(cfg, roots, tr, i, LibdirOf(c, t), 0);
      OneWiper(cfg, roots, tr, LibdirOf(c, t), w, 0, tr[j].count);
      NeededIsDone(cfg, roots, tr, i, w, tr[j].count);
    } else {
      SysrootGuardedIsWiped(cfg, roots, tr, i, j, dir, c);
    }
  }

  lemma CopyIsGuarded(cfg: Config, tr: Trace, i: nat, dir: Path)
    requires Copies(cfg, tr, i, dir) && !cfg.downloadRustc
    ensures GuardedAt(cfg, tr, i, dir)
  {
    hide Body, Notes, CopyGuarded, InputDir;
    LocalAt(cfg, tr[i].step, tr[i].count - 1);
  }

  /** Nothing guarded at event `i` is erased after it. */
  lemma GuardedStays(cfg: Config, roots: set<Step>, tr: Trace, i: nat, j: nat, dir: Path, p: Path)
    requires IsRun(cfg, roots, tr) && TriplesDistinct(cfg, roots)
    requires GuardedAt(cfg, tr, i, dir) && Happens(cfg, tr, j, Wipe(p)) && i <= j
    ensures !(p <= dir)
  {
    hide Body, CopyGuarded;
    if p <= dir {
      GuardedIsWiped(cfg, roots, tr, i, j, dir, p);
      LegalAt(BootstrapPlan(cfg), roots, tr, j);
    }
  }

  /** Nothing that is copied into a sysroot or a library directory is erased later in the run. */
  lemma NothingCopiedIsErased(cfg: Config, roots: set<Step>, tr: Trace, i: nat, j: nat, dir: Path, p: Path)
    requires IsRun(cfg, roots, tr) && TriplesDistinct(cfg, roots) && !cfg.downloadRustc
    requires Copies(cfg, tr, i, dir) && Happens(cfg, tr, j, Wipe(p)) && i < j
    ensures !(p <= dir)
  {
    hide GuardedAt, Copies;
    CopyIsGuarded(cfg, tr, i, dir);
    GuardedStays(cfg, roots, tr, i, j, dir, p);
  }

  /** Each directory is wiped at most once. */
  lemma WipedOnce(cfg: Config, roots: set<Step>, tr: Trace, i: nat, j: nat, p: Path)
    requires IsRun(cfg, roots, tr) && TriplesDistinct(cfg, roots)
    requires Happens(cfg, tr, i, Wipe(p)) && Happens(cfg, tr, j, Wipe(p))
    ensures i == j
  {
    hide Body;
    WipeAt(cfg, tr, i, p);
    WipeAt(cfg, tr, j, p);
    OneWiper(cfg, roots, tr, tr[i].step, tr[j].step, tr[i].count, tr[j].count);
    EventsUnique(BootstrapPlan(cfg), roots, tr, i, j);
  }

  /** Wiping sysroots and library directories leaves every stamp in place. */
  lemma StampsSurviveWipes(cfg: Config, tr: Trace, j: nat, p: Path, x: StampId)
    requires Happens(cfg, tr, j, Wipe(p))
    ensures !(p <= StampPath(cfg.layout, x))
  {
    hide Body;
    WipeAt(cfg, tr, j, p);
    var l, c := cfg.layout, tr[j].step.compiler;
    var rest := [x.t.triple, if l.optimize then "release" else "debug", StampFileName(x)];
    assert StampPath(l, x) == l.out + [x.c.host.triple, StageName(x.c.stage, Suffix(StampMode(x)))] + rest;
    SuffixIsStageSuffix(StampMode(x));
    SysrootApart(l, c, x.c, Suffix(StampMode(x)), rest);
    assert SysrootDir(l, c) <= p;
  }

  // ---------------------------------------------------------------- stamps

  lemma StdWritesStamp(cfg: Config, c: Compiler, t: Target)
    requires FreshBuild(cfg) && !cfg.dryRun && !ForceUseStage1(cfg, c, t)
    ensures Do(WriteStamp(StdStamp(c, t))) in Body(cfg, Std(c, t))
  {
    hide CopyThirdParty, CopySelfContained, PrepareCargo;
    var a0 := Ask(Ask([], StartupObjects(c, t)), Assemble(c));
    var a1 := PrepareCargo(cfg, CopySelfContained(cfg, CopyThirdParty(cfg, a0, c, t), c, t), c, ModeStd, t);
    var a2 := RunCargo(cfg, a1, ModeStd, c, t, StdStamp(c, t));
    assert a2[|a2| - 1] == Do(WriteStamp(StdStamp(c, t)));
    var a3 := Ask(a2, Assemble(Compiler(c.stage, cfg.build)));
    var a4 := Ask(a3, StdLink(Compiler(c.stage, cfg.build), c, t));
    assert a4[|a2| - 1] == Do(WriteStamp(StdStamp(c, t)));
    assert StdBody(cfg, c, t) == a4;
  }

  lemma RustcWritesStamp(cfg: Config, c: Compiler, t: Target)
    requires FreshBuild(cfg) && !cfg.dryRun && !ForceUseStage1(cfg, c, t)
    ensures Do(WriteStamp(RustcStamp(c, t))) in Body(cfg, Rustc(c, t))
  {
    hide PrepareCargo, RustcCargoEnv;
    var bc := Compiler(c.stage, cfg.build);
    var a0 := Ask(Ask(Ask(Ask([], Std(c, t)), Assemble(c)), Assemble(bc)), Std(bc, cfg.build));
    var a1 := RustcCargoEnv(cfg, PrepareCargo(cfg, a0, c, ModeRustc, t), t);
    var a2 := RunCargo(cfg, a1, ModeRustc, c, t, RustcStamp(c, t));
    assert a2[|a2| - 1] == Do(WriteStamp(RustcStamp(c, t)));
    var a3 := Ask(Ask(a2, Assemble(bc)), RustcLink(bc, c, t));
    assert a3[|a2| - 1] == Do(WriteStamp(RustcStamp(c, t)));
    assert RustcBody(cfg, c, t) == a3;
  }

  lemma CodegenWritesStamp(cfg: Config, c: Compiler, t: Target, b: string)
    requires FreshBuild(cfg) && !cfg.dryRun && !ForceUseStage1(cfg, c, t)
    ensures Do(WriteStamp(BackendStamp(c, t, b))) in Body(cfg, CodegenBackend(c, t, b))
  {
    hide PrepareCargo, RustcCargoEnv, RunCargo;
    var body := CodegenBody(cfg, c, t, b);
    assert body[|body| - 1] == Do(WriteStamp(BackendStamp(c, t, b)));
  }

  /** The step that builds what a stamp records, when it builds it. */
  predicate StampBuilder(x: StampId, s: Step) {
    match x
    case StdStamp(c, t) => s == Std(c, t)
    case RustcStamp(c, t) => s == Rustc(c, t)
    case BackendStamp(c, t, b) => s == CodegenBackend(c, t, b)
    case TmpStamp(_, _) => false
  }

  lemma BuilderWrites(cfg: Config, x: StampId, s: Step)
    requires FreshBuild(cfg) && !cfg.dryRun && !ForceUseStage1(cfg, x.c, x.t) && StampBuilder(x, s)
    ensures Do(WriteStamp(x)) in Body(cfg, s)
  {
    hide Body;
    match x
    case StdStamp(c, t) => StdWritesStamp(cfg, c, t);
    case RustcStamp(c, t) => RustcWritesStamp(cfg, c, t);
    case BackendStamp(c, t, b) => CodegenWritesStamp(cfg, c, t, b);
  }

  /** A stamp is written by the time a step that requested its builder moves on. */
  lemma RequestedBuilderWrote(cfg: Config, roots: set<Step>, tr: Trace, i: nat, x: StampId, s: Step)
    requires IsRun(cfg, roots, tr) && i < |tr| && 0 < tr[i].count <= |Body(cfg, tr[i].step)|
    requires FreshBuild(cfg) && !cfg.dryRun && !ForceUseStage1(cfg, x.c, x.t) && StampBuilder(x, s)
    requires s in Notes(Body(cfg, tr[i].step)[..tr[i].count - 1]).needs
    ensures HappenedBefore(cfg, tr, i, WriteStamp(x))
  {
    hide Body, Notes, StampBuilder;
    BuilderWrites(cfg, x, s);
    forall m: nat | m <= |Body(cfg, s)| ensures Event(s, m) in tr[..i] {
      NeededIsDone(cfg, roots, tr, i, s, m);
    }
    FinishedDid(cfg, roots, tr, s, WriteStamp(x), i);
  }

  /** No assembly starts from artifacts that were lifted rather than built. */
  predicate BuiltNotLifted(cfg: Config, s: Step) {
    s.Assemble? && s.compiler.stage > 0 ==>
      !ForceUseStage1(cfg, Compiler(s.compiler.stage - 1, cfg.build), s.compiler.host)
  }

  /** Requests that users make: for proper compilers, and not for link steps. */
  ghost predicate ProperRequests(cfg: Config, roots: set<Step>) {
    forall r :: r in roots ==> BuildHosted(cfg, r) && !r.StdLink? && !r.RustcLink?
  }

  /** The stamp of a link step was written before the step started. */
  lemma LinkFindsStamp(cfg: Config, roots: set<Step>, tr: Trace, i: nat, x: StampId)
    requires IsRun(cfg, roots, tr) && ProperRequests(cfg, roots) && FreshBuild(cfg) && !cfg.dryRun
    requires i < |tr| && tr[i].count == 0
    requires (tr[i].step.StdLink? && x == StdStamp(tr[i].step.compiler, tr[i].step.target))
      || (tr[i].step.RustcLink? && x == RustcStamp(tr[i].step.compiler, tr[i].step.target))
    ensures HappenedBefore(cfg, tr, i, WriteStamp(x))
  {
    hide Body, Notes, BuildHosted;
    var p := BootstrapPlan(cfg);
    LegalAt(p, roots, tr, i);
    var r, j: nat :| RequestedBy(p, tr[..i], r, j, tr[i].step);
    var i' :| 0 <= i' < i && tr[i'] == Event(r, j);
    OnlyBuildHosts(cfg, roots, tr, tr[i']);
    LocalAt(cfg, r, j);
    ReachedActionHasStamp(cfg, roots, tr, i', r, j, x);
    var i'' :| 0 <= i'' < i' + 1 && Happens(cfg, tr, i'', WriteStamp(x));
  }

  /** At action `j` of `r`, its earlier actions have left the stamp behind. */
  lemma ReachedActionHasStamp(cfg: Config, roots: set<Step>, tr: Trace, i: nat, r: Step, j: nat, x: StampId)
    requires IsRun(cfg, roots, tr) && FreshBuild(cfg) && !cfg.dryRun
    requires i < |tr| && tr[i] == Event(r, j) && j < |Body(cfg, r)|
    requires var seen := Notes(Body(cfg, r)[..j]);
      x in seen.stamps || (exists s :: s in seen.needs && StampBuilder(x, s) && !ForceUseStage1(cfg, x.c, x.t))
    ensures HappenedBefore(cfg, tr, i + 1, WriteStamp(x))
  {
    hide Body, Notes, StampBuilder;
    var p := BootstrapPlan(cfg);
    var acts := Body(cfg, r)[..j];
    NoteIsAction(acts);
    if x in Notes(acts).stamps {
      var m :| 0 <= m < j && acts[m] == Do(WriteStamp(x));
      EarlierActions(p, roots, tr[..i + 1], r, j, m + 1) by { LegalPrefix(p, roots, tr, i + 1); }
      var i' :| 0 <= i' < i + 1 && tr[i'] == Event(r, m + 1);
      assert Happens(cfg, tr, i', WriteStamp(x));
    } else {
      var s :| s in Notes(acts).needs && StampBuilder(x, s);
      var m :| 0 <= m < j && acts[m] == Need(s);
      BuilderWrites(cfg, x, s);
      forall n: nat | n <= |Body(cfg, s)| ensures Event(s, n) in tr[..i + 1] {
        NeedBefore(p, roots, tr, i, m, s, n);
      }
      FinishedDid(cfg, roots, tr, s, WriteStamp(x), i + 1);
    }
  }

  lemma LegalPrefix<S(!new), E(!new), V(!new)>(p: Plan<S, E, V>, roots: set<S>, tr: seq<Event<S>>, n: nat)
    requires Legal(p, roots, tr) && n <= |tr|
    ensures Legal(p, roots, tr[..n])
  {
    if n < |tr| {
      LegalAt(p, roots, tr, n);
    } else {
      assert tr[..n] == tr;
    }
  }

  /** Every stamp that is read was written earlier in the same run. */
  lemma StampsWrittenBeforeRead(cfg: Config, roots: set<Step>, tr: Trace, i: nat, x: StampId)
    requires IsRun(cfg, roots, tr) && ProperRequests(cfg, roots) && FreshBuild(cfg)
    requires Happens(cfg, tr, i, ReadStamp(x)) && BuiltNotLifted(cfg, tr[i].step)
    ensures HappenedBefore(cfg, tr, i, WriteStamp(x))
  {
    hide Body, Notes;
    var s, k := tr[i].step, tr[i].count - 1;
    LocalAt(cfg, s, k);
    if s.Assemble? {
      var b := match x
        case RustcStamp(c, t) => Rustc(c, t)
        case BackendStamp(c, t, b) => CodegenBackend(c, t, b)
        case _ => s;
      RequestedBuilderWrote(cfg, roots, tr, i, x, b);
    } else {
      OwnBefore(BootstrapPlan(cfg), roots, tr, i, 0);
      var i' :| 0 <= i' < i && tr[i'] == Event(s, 0);
      LinkFindsStamp(cfg, roots, tr, i', x);
      var i'' :| 0 <= i'' < i' && Happens(cfg, tr, i'', WriteStamp(x));
    }
  }

  /** A stamp file is written at most once, by the step that builds what it records. */
  lemma StampWrittenOnce(cfg: Config, roots: set<Step>, tr: Trace, i: nat, j: nat, x: StampId, y: StampId)
    requires IsRun(cfg, roots, tr) && TriplesDistinct(cfg, roots)
    requires Happens(cfg, tr, i, WriteStamp(x)) && Happens(cfg, tr, j, WriteStamp(y)) && !x.TmpStamp?
    requires StampPath(cfg.layout, x) == StampPath(cfg.layout, y)
    ensures i == j && x == y && StampBuilder(x, tr[i].step)
    ensures HappenedBefore(cfg, tr, i, Cargo(StampMode(x), x.c, x.t))
  {
    hide Body, Notes;
    StampPathInjective(cfg.layout, x, y);
    WriteAt(cfg, roots, tr, i, x);
    WriteAt(cfg, roots, tr, j, y);
    assert x == y;
    SameStampOnce(cfg, tr[i].step, tr[i].count - 1, tr[j].count - 1, x);
    EventsUnique(BootstrapPlan(cfg), roots, tr, i, j);
  }

  lemma WriteAt(cfg: Config, roots: set<Step>, tr: Trace, i: nat, x: StampId)
    requires IsRun(cfg, roots, tr) && Happens(cfg, tr, i, WriteStamp(x))
    ensures !x.TmpStamp? ==> StampBuilder(x, tr[i].step)
    ensures Concerned(cfg, roots, x.c.host) && Concerned(cfg, roots, x.t) && !ForceUseStage1(cfg, x.c, x.t)
    ensures HappenedBefore(cfg, tr, i, Cargo(StampMode(x), x.c, x.t))
    ensures forall f :: Watched(cfg, x.c, StampMode(x), f) ==>
      HappenedBefore(cfg, tr, i, ClearIfDirty(x.c, StampMode(x), f))
  {
    hide Body, Notes;
    var s, k := tr[i].step, tr[i].count - 1;
    LocalAt(cfg, s, k);
    OnlyRequestedTargets(cfg, roots, tr, tr[i], x.c.host);
    OnlyRequestedTargets(cfg, roots, tr, tr[i], x.t);
    NoteIsAction(Body(cfg, s)[..k]);
    DoneByStep(cfg, roots, tr, i, Cargo(StampMode(x), x.c, x.t));
    forall f | Watched(cfg, x.c, StampMode(x), f)
      ensures HappenedBefore(cfg, tr, i, ClearIfDirty(x.c, StampMode(x), f))
    {
      DoneByStep(cfg, roots, tr, i, ClearIfDirty(x.c, StampMode(x), f));
    }
  }

  lemma SameStampOnce(cfg: Config, s: Step, k: nat, m: nat, x: StampId)
    requires k < |Body(cfg, s)| && m < |Body(cfg, s)|
    requires Body(cfg, s)[k] == Do(WriteStamp(x)) && Body(cfg, s)[m] == Do(WriteStamp(x))
    ensures k == m
  {
    hide Body, Notes;
    var lo, hi := if k < m then k else m, if k < m then m else k;
    LocalAt(cfg, s, hi);
    if lo < hi {
      assert Body(cfg, s)[..hi][lo] == Do(WriteStamp(x));
      ActionIsNoted(Body(cfg, s)[..hi], Do(WriteStamp(x)));
    }
  }

  // ---------------------------------------------------------------- exactly when stamps are found

  ghost predicate AllReadsServed(cfg: Config, tr: Trace) {
    forall i: nat, x :: Happens(cfg, tr, i, ReadStamp(x)) ==> HappenedBefore(cfg, tr, i, WriteStamp(x))
  }

  /** Without a full bootstrap the plan is made for two stages; a third works for foreign hosts. */
  predicate StagesSupported(cfg: Config, tc: Compiler) {
    || cfg.dryRun || cfg.fullBootstrap || tc.stage <= 2
    || (tc.stage == 3 && tc.host != cfg.build && tc.host !in cfg.hosts)
  }

  lemma AssembleReadsStamp(cfg: Config, tc: Compiler)
    requires tc.stage > 0 && !cfg.downloadRustc && !cfg.dryRun
    ensures Do(ReadStamp(RustcStamp(Compiler(tc.stage - 1, cfg.build), tc.host))) in Body(cfg, Assemble(tc))
  {
    hide BackendSteps, BackendCopies, RustcLibdir, RustlibDir, SysrootDir;
    var bc := Compiler(tc.stage - 1, cfg.build);
    var x := Do(ReadStamp(RustcStamp(bc, tc.host)));
    var a1 := AssembleFrom(cfg, Ask([], Assemble(bc)), bc, tc);
    assert a1[|a1| - 1] == x;
    var a2 := AssembleSysroot(cfg, a1, bc, tc);
    SysrootExtends(cfg, a1, bc, tc);
    var a3 := AssembleTools(cfg, a2, bc, tc);
    ToolsExtend(cfg, a2, bc, tc);
    EndExtends(cfg, a3, tc);
    hide AssembleFrom, AssembleSysroot, AssembleTools, AssembleEnd;
    assert AssembleBody(cfg, tc) == AssembleEnd(cfg, a3, tc);
    assert AssembleBody(cfg, tc)[|a1| - 1] == x;
  }

  lemma {:induction false} BackendCopiesExtend(cfg: Config, acts: seq<Act>, bc: Compiler, tc: Compiler, n: nat)
    requires n <= |cfg.backends|
    ensures acts <= BackendCopies(cfg, acts, bc, tc, n)
    decreases n
  {
    if n > 0 {
      BackendCopiesExtend(cfg, acts, bc, tc, n - 1);
    }
  }

  lemma SysrootExtends(cfg: Config, acts: seq<Act>, bc: Compiler, tc: Compiler)
    ensures acts <= AssembleSysroot(cfg, acts, bc, tc)
  {
    hide RustcLibdir, BackendCopies;
    var a1 := Ask(Ask(acts, Sysroot(tc)), LibdirOf(bc, tc.host));
    var a2 := ForReal(cfg, a1, CopyInto(RustcLibdir(cfg, tc)));
    var a3 := Ask(a2, LibdirOf(tc, tc.host));
    assert acts <= a1 <= a2 <= a3;
    BackendCopiesExtend(cfg, a3, bc, tc, |cfg.backends|);
  }

  lemma ToolsExtend(cfg: Config, acts: seq<Act>, bc: Compiler, tc: Compiler)
    ensures acts <= AssembleTools(cfg, acts, bc, tc)
  {
    hide RustlibDir;
  }

  lemma EndExtends(cfg: Config, acts: seq<Act>, tc: Compiler)
    ensures acts <= AssembleEnd(cfg, acts, tc)
  {
    hide SysrootDir, LibdirRelative;
  }

  /** Reached steps are lower in the measure than the request. */
  lemma ReachedIsLower(cfg: Config, r: Step, s: Step)
    requires Reaches(BootstrapPlan(cfg), r, s)
    ensures s == r || Rank(cfg, s) < Rank(cfg, r)
  {
    hide Body, Rank;
    var p := BootstrapPlan(cfg);
    var q :| PathTo(p, r, s, q);
    PlanIsRanked(cfg);
    if |q| > 1 {
      PathDescends(p, x => Rank(cfg, x), q, 0, |q| - 1);
    }
  }

  lemma SupportedIsBuilt(cfg: Config, tc: Compiler, s: Step)
    requires StagesSupported(cfg, tc) && !cfg.dryRun && Reaches(BootstrapPlan(cfg), Assemble(tc), s)
    ensures BuiltNotLifted(cfg, s)
  {
    hide Body;
    ReachedIsLower(cfg, Assemble(tc), s);
  }

  /** An assembly from lifted artifacts reads a stamp that nothing in the run writes. */
  lemma LiftedReadFails(cfg: Config, roots: set<Step>, tr: Trace, tc: Compiler)
    requires IsRun(cfg, roots, tr) && !cfg.downloadRustc && !cfg.dryRun
    requires Finished(BootstrapPlan(cfg), tr, Assemble(tc))
    requires tc.stage > 0 && ForceUseStage1(cfg, Compiler(tc.stage - 1, cfg.build), tc.host)
    ensures !AllReadsServed(cfg, tr)
  {
    hide Body;
    var s, x := Assemble(tc), RustcStamp(Compiler(tc.stage - 1, cfg.build), tc.host);
    AssembleReadsStamp(cfg, tc);
    forall m: nat | m <= |Body(cfg, s)| ensures Event(s, m) in tr[..|tr|] {
      assert tr[..|tr|] == tr;
      EarlierActions(BootstrapPlan(cfg), roots, tr, s, |Body(cfg, s)|, m);
    }
    FinishedDid(cfg, roots, tr, s, ReadStamp(x), |tr|);
    var i :| 0 <= i < |tr| && Happens(cfg, tr, i, ReadStamp(x));
    if HappenedBefore(cfg, tr, i, WriteStamp(x)) {
      var j :| 0 <= j < i && Happens(cfg, tr, j, WriteStamp(x));
      WriteAt(cfg, roots, tr, j, x);
    }
  }

  /** Assembling a compiler finds every stamp it reads exactly for the stages the plan supports. */
  lemma AssembleFindsStamps(cfg: Config, tc: Compiler)
    requires FreshBuild(cfg) && (tc.stage == 0 ==> tc.host == cfg.build)
    ensures var st := RunAll(BootstrapPlan(cfg), Reachable(cfg, [Assemble(tc)]), EmptyState(), [Assemble(tc)]);
      st.Some? && (AllReadsServed(cfg, st.value.trace) <==> StagesSupported(cfg, tc))
  {
    hide Body;
    var reqs := [Assemble(tc)];
    BootstrapNeverCycles(cfg, reqs);
    var st := RunAll(BootstrapPlan(cfg), Reachable(cfg, reqs), EmptyState(), reqs).value;
    assert Elements(reqs) == {Assemble(tc)};
    if StagesSupported(cfg, tc) {
      SupportedServed(cfg, tc, st.trace);
    } else {
      UnsupportedNotServed(cfg, tc, st.trace);
    }
  }

  lemma SupportedServed(cfg: Config, tc: Compiler, tr: Trace)
    requires IsRun(cfg, {Assemble(tc)}, tr) && FreshBuild(cfg) && (tc.stage == 0 ==> tc.host == cfg.build)
    requires StagesSupported(cfg, tc)
    ensures AllReadsServed(cfg, tr)
  {
    hide Body, Notes;
    forall i: nat, x | Happens(cfg, tr, i, ReadStamp(x)) ensures HappenedBefore(cfg, tr, i, WriteStamp(x)) {
      LocalAt(cfg, tr[i].step, tr[i].count - 1);
      StartedWasReached(BootstrapPlan(cfg), {Assemble(tc)}, tr, tr[i]);
      SupportedIsBuilt(cfg, tc, tr[i].step);
      StampsWrittenBeforeRead(cfg, {Assemble(tc)}, tr, i, x);
    }
  }

  lemma UnsupportedNotServed(cfg: Config, tc: Compiler, tr: Trace)
    requires IsRun(cfg, {Assemble(tc)}, tr) && Finished(BootstrapPlan(cfg), tr, Assemble(tc))
    requires FreshBuild(cfg) && !StagesSupported(cfg, tc)
    ensures !AllReadsServed(cfg, tr)
  {
    if ForceUseStage1(cfg, Compiler(tc.stage - 1, cfg.build), tc.host) {
      LiftedReadFails(cfg, {Assemble(tc)}, tr, tc);
    } else {
      var prev := Compiler(tc.stage - 1, cfg.build);
      AssembleAsksPrevious(cfg, tc);
      NeedFinishes(BootstrapPlan(cfg), {Assemble(tc)}, tr, Assemble(tc), Assemble(prev));
      LiftedReadFails(cfg, {Assemble(tc)}, tr, prev);
    }
  }

  lemma AssembleAsksPrevious(cfg: Config, tc: Compiler)
    requires tc.stage > 0 && !cfg.downloadRustc
    ensures Edge(BootstrapPlan(cfg), Assemble(tc), Assemble(Compiler(tc.stage - 1, cfg.build)))
  {
    hide AssembleFrom, AssembleSysroot, AssembleTools, AssembleEnd;
    var bc := Compiler(tc.stage - 1, cfg.build);
    var a0 := Ask([], Assemble(bc));
    FromExtends(cfg, a0, bc, tc);
    var a1 := AssembleFrom(cfg, a0, bc, tc);
    SysrootExtends(cfg, a1, bc, tc);
    var a2 := AssembleSysroot(cfg, a1, bc, tc);
    ToolsExtend(cfg, a2, bc, tc);
    EndExtends(cfg, AssembleTools(cfg, a2, bc, tc), tc);
    assert AssembleBody(cfg, tc)[0] == Need(Assemble(bc));
  }

  lemma {:induction false} BackendStepsExtend(cfg: Config, acts: seq<Act>, c: Compiler, t: Target, n: nat)
    requires n <= |cfg.backends|
    ensures acts <= BackendSteps(cfg, acts, c, t, n)
    decreases n
  {
    if n > 0 {
      BackendStepsExtend(cfg, acts, c, t, n - 1);
    }
  }

  lemma FromExtends(cfg: Config, acts: seq<Act>, bc: Compiler, tc: Compiler)
    ensures acts <= AssembleFrom(cfg, acts, bc, tc)
  {
    hide BackendSteps;
    BackendStepsExtend(cfg, Ask(acts, Rustc(bc, tc.host)), bc, tc.host, |cfg.backends|);
  }
}
