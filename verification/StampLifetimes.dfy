/**
 Cargo's output directories are emptied when a file of the compiler is newer than the `.stamp` in
 them.  Here is what the modification times do over a whole run, and why the stamp of a build is
 still there when it is read.
 */
module StampLifetimes {
  import opened Basics
  import opened RunTheorems
  import opened Naming
  import opened Bootstrap
  import opened BootstrapLocal
  import opened BootstrapRuns
  import opened BootstrapResults

  /** What the file system shows to a run.  The time 0 is that of a file that does not exist. */
  datatype Times = Times(
    clock: nat -> nat,                     // the time at which an event happens
    before: Path -> nat,                   // the `.stamp` of a directory when the run starts
    input: (Compiler, Input, nat) -> nat)  // a file of a compiler, as an event finds it

  /** Event `i` may change a file of `c`: it installs that file, or wipes a directory above it. */
  ghost predicate Touches(cfg: Config, tr: Trace, i: nat, c: Compiler, f: Input) {
    || (exists d :: Happens(cfg, tr, i, Install(d, f)) && SameCompiler(c, d))
    || (exists p :: Happens(cfg, tr, i, Wipe(p)) && p <= InputDir(cfg.layout, c, f))
  }

  /** The clock does not run backwards, no file comes from the future, and files that are not touched
      keep their times. */
  ghost predicate Consistent(cfg: Config, tr: Trace, ts: Times) {
    && (forall i: nat, j: nat :: i <= j ==> ts.clock(i) <= ts.clock(j))
    && (forall c, f, i: nat :: ts.input(c, f, i) <= ts.clock(i))
    && (forall c, f, i: nat :: i < |tr| && !Touches(cfg, tr, i, c, f) ==> ts.input(c, f, i + 1) == ts.input(c, f, i))
  }

  /** The effect of event `i`, if it is one. */
  function EffectAt(cfg: Config, tr: Trace, i: nat): Option<Effect>
    requires i < |tr|
  {
    var s, k := tr[i].step, tr[i].count;
    if 0 < k <= |Body(cfg, s)| && Body(cfg, s)[k - 1].Do? then Some(Body(cfg, s)[k - 1].effect) else None
  }

  /** If event `i` checks the output directory `dir`, the time of the file it checks against. */
  function CheckTime(cfg: Config, tr: Trace, ts: Times, i: nat, dir: Path): Option<nat>
    requires i < |tr|
  {
    match EffectAt(cfg, tr, i)
    case Some(ClearIfDirty(c, mode, f)) =>
      if StageOut(cfg.layout, c, mode) == dir then Some(ts.input(c, f, i)) else None
    case _ => None
  }

  /** The time of the `.stamp` in `dir` as event `i` finds it: `clear_if_dirty` makes it anew when it
      is older than the file, or missing. */
  function DirStamp(cfg: Config, tr: Trace, ts: Times, dir: Path, i: nat): nat
    requires i <= |tr|
  {
    if i == 0 then ts.before(dir)
    else
      var t, check := DirStamp(cfg, tr, ts, dir, i - 1), CheckTime(cfg, tr, ts, i - 1, dir);
      if check.Some? && (t < check.value || t == 0) then ts.clock(i - 1) else t
  }

  /** Event `i` empties `dir`. */
  predicate Empties(cfg: Config, tr: Trace, ts: Times, i: nat, dir: Path)
    requires i < |tr|
  {
    var check := CheckTime(cfg, tr, ts, i, dir);
    check.Some? && DirStamp(cfg, tr, ts, dir, i) < check.value
  }

  lemma HappensIsEffectAt(cfg: Config, tr: Trace, i: nat, e: Effect)
    requires i < |tr|
    ensures Happens(cfg, tr, i, e) <==> EffectAt(cfg, tr, i) == Some(e)
  {
    hide Body;
  }

  // ---------------------------------------------------------------- times only grow

  lemma {:induction false} DirStampGrows(cfg: Config, tr: Trace, ts: Times, dir: Path, i: nat, j: nat)
    requires Consistent(cfg, tr, ts) && i <= j <= |tr|
    ensures DirStamp(cfg, tr, ts, dir, i) <= DirStamp(cfg, tr, ts, dir, j)
    decreases j
  {
    hide Touches, EffectAt;
    if i < j {
      DirStampGrows(cfg, tr, ts, dir, i, j - 1);
    }
  }

  /** After a check the `.stamp` is there, and at least as new as the file. */
  lemma CheckedIsOlder(cfg: Config, tr: Trace, ts: Times, dir: Path, i: nat)
    requires Consistent(cfg, tr, ts) && i < |tr| && CheckTime(cfg, tr, ts, i, dir).Some?
    ensures CheckTime(cfg, tr, ts, i, dir).value <= DirStamp(cfg, tr, ts, dir, i + 1)
    ensures ts.clock(i) > 0 ==> DirStamp(cfg, tr, ts, dir, i + 1) > 0
  {
    hide Touches, EffectAt;
  }

  lemma {:induction false} UntouchedKeepsTime(cfg: Config, tr: Trace, ts: Times, c: Compiler, f: Input, i: nat, j: nat)
    requires Consistent(cfg, tr, ts) && i <= j <= |tr|
    requires forall k: nat :: i <= k < j ==> !Touches(cfg, tr, k, c, f)
    ensures ts.input(c, f, i) == ts.input(c, f, j)
    decreases j
  {
    hide Touches;
    if i < j {
      UntouchedKeepsTime(cfg, tr, ts, c, f, i, j - 1);
    }
  }

  /** A `.stamp` that is there is renewed only by emptying the directory, and emptying renews it. */
  lemma RenewedIffEmptied(cfg: Config, tr: Trace, ts: Times, dir: Path, i: nat)
    requires Consistent(cfg, tr, ts) && i < |tr| && DirStamp(cfg, tr, ts, dir, i) != 0
    ensures DirStamp(cfg, tr, ts, dir, i + 1) > DirStamp(cfg, tr, ts, dir, i) ==> Empties(cfg, tr, ts, i, dir)
    ensures Empties(cfg, tr, ts, i, dir) ==> DirStamp(cfg, tr, ts, dir, i + 1) > DirStamp(cfg, tr, ts, dir, i)
    ensures Empties(cfg, tr, ts, i, dir) ==> DirStamp(cfg, tr, ts, dir, i + 1) == ts.clock(i)
  {
    hide Touches, EffectAt;
  }

  // ---------------------------------------------------------------- the compiler is complete before a check

  /** What a check finds has been put there by an assembly that is over, and no wipe is to come. */
  lemma NotTouchedAfterCheck(cfg: Config, roots: set<Step>, tr: Trace, i: nat, k: nat, c: Compiler, mode: Mode,
      f: Input)
    requires IsRun(cfg, roots, tr) && TriplesDistinct(cfg, roots) && Staged(mode)
    requires Happens(cfg, tr, i, ClearIfDirty(c, mode, f)) && i <= k
    ensures !Touches(cfg, tr, k, c, f)
  {
    hide Body, Notes, CopyGuarded, InputDir;
    LocalAt(cfg, tr[i].step, tr[i].count - 1);
    if p :| Happens(cfg, tr, k, Wipe(p)) && p <= InputDir(cfg.layout, c, f) {
      GuardedStays(cfg, roots, tr, i, k, InputDir(cfg.layout, c, f), p);
    }
    if d :| Happens(cfg, tr, k, Install(d, f)) && SameCompiler(c, d) {
      LocalAt(cfg, tr[k].step, tr[k].count - 1);
      OneCompiler(cfg, roots, tr, i, k, c, d);
      AssembledBefore(cfg, roots, tr, i, k, c);
    }
  }

  lemma OneCompiler(cfg: Config, roots: set<Step>, tr: Trace, i: nat, k: nat, c: Compiler, d: Compiler)
    requires IsRun(cfg, roots, tr) && TriplesDistinct(cfg, roots) && SameCompiler(c, d) && i < |tr| && k < |tr|
    requires c.host in Targets(tr[i].step) + {cfg.build} && d.host in Targets(tr[k].step) + {cfg.build}
    ensures c == d
  {
    hide Targets;
    if c.host != cfg.build {
      OnlyRequestedTargets(cfg, roots, tr, tr[i], c.host);
    }
    if d.host != cfg.build {
      OnlyRequestedTargets(cfg, roots, tr, tr[k], d.host);
    }
  }

  /** Everything the assembly of `c` does is done before a step that requested it moves on. */
  lemma AssembledBefore(cfg: Config, roots: set<Step>, tr: Trace, i: nat, k: nat, c: Compiler)
    requires IsRun(cfg, roots, tr) && i < |tr| && 0 < tr[i].count <= |Body(cfg, tr[i].step)|
    requires Assemble(c) in Notes(Body(cfg, tr[i].step)[..tr[i].count - 1]).needs
    requires k < |tr| && tr[k].step == Assemble(c)
    ensures k < i
  {
    hide Body, Notes;
    CountBounded(BootstrapPlan(cfg), roots, tr, tr[k]);
    NeededIsDone(cfg, roots, tr, i, Assemble(c), tr[k].count);
    var b :| 0 <= b < i && tr[b] == tr[k];
    EventsUnique(BootstrapPlan(cfg), roots, tr, k, b);
  }

  // ---------------------------------------------------------------- stamps stay

  lemma OutputOfStamp(l: Layout, c: Compiler, m: Mode, x: StampId)
    requires StageOut(l, c, m) == StageOut(l, x.c, StampMode(x))
    ensures SameCompiler(c, x.c) && m == StampMode(x)
  {
    var m' := StampMode(x);
    TwoComponents(l.out, c.host.triple, StageName(c.stage, Suffix(m)), [], x.c.host.triple,
      StageName(x.c.stage, Suffix(m')), []);
    SuffixIsStageSuffix(m);
    SuffixIsStageSuffix(m');
    StageNameInjective(c.stage, Suffix(m), x.c.stage, Suffix(m'));
  }

  /** The output directory of a build whose stamp is written is not emptied later in the run. */
  lemma StampNotCleared(cfg: Config, roots: set<Step>, tr: Trace, ts: Times, i: nat, j: nat, x: StampId)
    requires IsRun(cfg, roots, tr) && TriplesDistinct(cfg, roots) && Consistent(cfg, tr, ts)
    requires Happens(cfg, tr, i, WriteStamp(x)) && i < j < |tr|
    ensures !Empties(cfg, tr, ts, j, StageOut(cfg.layout, x.c, StampMode(x)))
  {
    hide Body, Consistent, StageOut, DirStamp, Watched, Notes, CopyGuarded, EffectAt, Touches;
    var dir, mode := StageOut(cfg.layout, x.c, StampMode(x)), StampMode(x);
    if CheckTime(cfg, tr, ts, j, dir).Some? {
      var e := EffectAt(cfg, tr, j).value;
      HappensIsEffectAt(cfg, tr, j, e);
      OutputOfStamp(cfg.layout, e.compiler, e.mode, x);
      LocalAt(cfg, tr[j].step, tr[j].count - 1);
      WriteAt(cfg, roots, tr, i, x);
      SameCompilerChecks(cfg, roots, tr, i, j, x, e);
      var k :| 0 <= k < i && Happens(cfg, tr, k, ClearIfDirty(x.c, mode, e.input));
      HappensIsEffectAt(cfg, tr, k, ClearIfDirty(x.c, mode, e.input));
      forall n: nat | k <= n < j ensures !Touches(cfg, tr, n, x.c, e.input) {
        NotTouchedAfterCheck(cfg, roots, tr, k, n, x.c, mode, e.input);
      }
      UntouchedKeepsTime(cfg, tr, ts, x.c, e.input, k, j);
      CheckedIsOlder(cfg, tr, ts, dir, k);
      DirStampGrows(cfg, tr, ts, dir, k + 1, j);
    }
  }

  lemma SameCompilerChecks(cfg: Config, roots: set<Step>, tr: Trace, i: nat, j: nat, x: StampId, e: Effect)
    requires IsRun(cfg, roots, tr) && TriplesDistinct(cfg, roots) && i < |tr| && j < |tr|
    requires e.ClearIfDirty? && SameCompiler(e.compiler, x.c) && e.compiler.host in Targets(tr[j].step) + {cfg.build}
    requires Concerned(cfg, roots, x.c.host)
    ensures e.compiler == x.c
  {
    hide Targets;
    if e.compiler.host != cfg.build {
      OnlyRequestedTargets(cfg, roots, tr, tr[j], e.compiler.host);
    }
  }

  /** Whenever Cargo builds the library, the compiler or a backend, its output directory is at least as
      new as every file it is to be checked against: whatever an older compiler left there is gone. */
  lemma CargoOutputIsCurrent(cfg: Config, roots: set<Step>, tr: Trace, ts: Times, i: nat, mode: Mode, c: Compiler,
      t: Target, f: Input)
    requires IsRun(cfg, roots, tr) && TriplesDistinct(cfg, roots) && Consistent(cfg, tr, ts) && Staged(mode)
    requires Happens(cfg, tr, i, Cargo(mode, c, t))
    requires f.RustcBinary? ==> mode == ModeStd && !cfg.dryRun
    requires f.BackendFile? ==>
      f.name in cfg.backends && f.name != "llvm" && c.stage > 0 && !cfg.dryRun && !cfg.downloadRustc
    ensures ts.input(c, f, i) <= DirStamp(cfg, tr, ts, StageOut(cfg.layout, c, mode), i)
  {
    hide Body, Consistent, StageOut, DirStamp, Notes, CopyGuarded, EffectAt, Touches;
    var dir := StageOut(cfg.layout, c, mode);
    CargoFindsToolchain(cfg, roots, tr, i, mode, c, t);
    var k :| 0 <= k < i && Happens(cfg, tr, k, ClearIfDirty(c, mode, f));
    HappensIsEffectAt(cfg, tr, k, ClearIfDirty(c, mode, f));
    forall n: nat | k <= n < i ensures !Touches(cfg, tr, n, c, f) {
      NotTouchedAfterCheck(cfg, roots, tr, k, n, c, mode, f);
    }
    UntouchedKeepsTime(cfg, tr, ts, c, f, k, i);
    CheckedIsOlder(cfg, tr, ts, dir, k);
    DirStampGrows(cfg, tr, ts, dir, k + 1, i);
  }

  /** Event `k` removes the stamp file of `x`. */
  ghost predicate Loses(cfg: Config, tr: Trace, ts: Times, k: nat, x: StampId)
    requires k < |tr|
  {
    || (exists p :: Happens(cfg, tr, k, Wipe(p)) && p <= StampPath(cfg.layout, x))
    || Empties(cfg, tr, ts, k, StageOut(cfg.layout, x.c, StampMode(x)))
  }

  ghost predicate KeptBetween(cfg: Config, tr: Trace, ts: Times, w: nat, i: nat, x: StampId)
    requires i <= |tr|
  {
    forall k: nat :: w < k < i ==> !Loses(cfg, tr, ts, k, x)
  }

  /** The stamp file of `x` was written before event `i` and has not been removed since. */
  ghost predicate StampExists(cfg: Config, tr: Trace, ts: Times, i: nat, x: StampId)
    requires i <= |tr|
  {
    exists w :: 0 <= w < i && Happens(cfg, tr, w, WriteStamp(x)) && KeptBetween(cfg, tr, ts, w, i, x)
  }

  /** In a fresh build every stamp that is read is there, whatever times the files have. */
  lemma ReadFindsFile(cfg: Config, roots: set<Step>, tr: Trace, ts: Times, i: nat, x: StampId)
    requires IsRun(cfg, roots, tr) && ProperRequests(cfg, roots) && TriplesDistinct(cfg, roots) && FreshBuild(cfg)
    requires Happens(cfg, tr, i, ReadStamp(x)) && BuiltNotLifted(cfg, tr[i].step) && Consistent(cfg, tr, ts)
    ensures StampExists(cfg, tr, ts, i, x)
  {
    hide Body, Consistent, Empties, StampPath, StageOut;
    StampsWrittenBeforeRead(cfg, roots, tr, i, x);
    var w :| 0 <= w < i && Happens(cfg, tr, w, WriteStamp(x));
    forall k: nat | w < k < i ensures !Loses(cfg, tr, ts, k, x) {
      StampNotCleared(cfg, roots, tr, ts, w, k, x);
      if p :| Happens(cfg, tr, k, Wipe(p)) && p <= StampPath(cfg.layout, x) {
        StampsSurviveWipes(cfg, tr, k, p, x);
      }
    }
  }

  ghost predicate AllReadsFind(cfg: Config, tr: Trace, ts: Times) {
    forall i: nat, x :: Happens(cfg, tr, i, ReadStamp(x)) ==> StampExists(cfg, tr, ts, i, x)
  }

  /** Assembling a compiler finds every stamp file it reads exactly for the stages the plan supports,
      whatever was in the output directories before and whatever times the files have. */
  lemma AssembleFindsFiles(cfg: Config, tc: Compiler, ts: Times)
    requires FreshBuild(cfg) && (tc.stage == 0 ==> tc.host == cfg.build)
    requires tc.host == cfg.build || tc.host.triple != cfg.build.triple
    requires var st := RunAll(BootstrapPlan(cfg), Reachable(cfg, [Assemble(tc)]), EmptyState(), [Assemble(tc)]);
      st.Some? ==> Consistent(cfg, st.value.trace, ts)
    ensures var st := RunAll(BootstrapPlan(cfg), Reachable(cfg, [Assemble(tc)]), EmptyState(), [Assemble(tc)]);
      st.Some? && (AllReadsFind(cfg, st.value.trace, ts) <==> StagesSupported(cfg, tc))
  {
    hide Body, Consistent, StagesSupported, Loses;
    var reqs := [Assemble(tc)];
    BootstrapNeverCycles(cfg, reqs);
    AssembleFindsStamps(cfg, tc);
    assert Elements(reqs) == {Assemble(tc)};
    var tr := RunAll(BootstrapPlan(cfg), Reachable(cfg, reqs), EmptyState(), reqs).value.trace;
    if StagesSupported(cfg, tc) {
      SupportedFinds(cfg, tc, tr, ts);
    } else {
      var i: nat, x :| Happens(cfg, tr, i, ReadStamp(x)) && !HappenedBefore(cfg, tr, i, WriteStamp(x));
      assert !StampExists(cfg, tr, ts, i, x);
    }
  }

  lemma SupportedFinds(cfg: Config, tc: Compiler, tr: Trace, ts: Times)
    requires IsRun(cfg, {Assemble(tc)}, tr) && FreshBuild(cfg) && (tc.stage == 0 ==> tc.host == cfg.build)
    requires tc.host == cfg.build || tc.host.triple != cfg.build.triple
    requires StagesSupported(cfg, tc) && Consistent(cfg, tr, ts)
    ensures AllReadsFind(cfg, tr, ts)
  {
    hide Body, Consistent, Notes, StampExists, StagesSupported, BuiltNotLifted;
    forall i: nat, x | Happens(cfg, tr, i, ReadStamp(x)) ensures StampExists(cfg, tr, ts, i, x) {
      LocalAt(cfg, tr[i].step, tr[i].count - 1);
      StartedWasReached(BootstrapPlan(cfg), {Assemble(tc)}, tr, tr[i]);
      SupportedIsBuilt(cfg, tc, tr[i].step);
      ReadFindsFile(cfg, {Assemble(tc)}, tr, ts, i, x);
    }
  }
}
