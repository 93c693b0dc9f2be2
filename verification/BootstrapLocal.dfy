/**
 What each step of the bootstrap plan does right on its own: every action is checked against the
 actions of the same step before it.  The whole-run theorems follow from these checks and from
 the legality of the trace.
 */
module BootstrapLocal {
  import opened Scheduler
  import opened Naming
  import opened Bootstrap

  // ---------------------------------------------------------------- what a step has done so far

  /** What matters about the actions done so far: steps requested, Cargo builds, stamps written,
      output directories checked for staleness, directories wiped. */
  datatype Seen = Seen(
    needs: set<Step>,
    cargos: set<(Mode, Compiler, Target)>,
    stamps: set<StampId>,
    clears: set<(Compiler, Mode, Input)>,
    wipes: set<Path>)

  function Note(seen: Seen, a: Act): Seen {
    match a
    case Need(d) => seen.(needs := seen.needs + {d})
    case Do(Cargo(mode, c, t)) => seen.(cargos := seen.cargos + {(mode, c, t)})
    case Do(WriteStamp(x)) => seen.(stamps := seen.stamps + {x})
    case Do(ClearIfDirty(c, mode, f)) => seen.(clears := seen.clears + {(c, mode, f)})
    case Do(Wipe(dir)) => seen.(wipes := seen.wipes + {dir})
    case Do(_) => seen
  }

  function Notes(acts: seq<Act>): Seen {
    if acts == [] then Seen({}, {}, {}, {}, {}) else Note(Notes(acts[..|acts| - 1]), acts[|acts| - 1])
  }

  /** The noted requests, builds, stamps, checks and wipes are actions of the step. */
  lemma {:induction false} NoteIsAction(acts: seq<Act>)
    ensures forall d :: d in Notes(acts).needs ==> Need(d) in acts
    ensures forall mode, c, t :: (mode, c, t) in Notes(acts).cargos ==> Do(Cargo(mode, c, t)) in acts
    ensures forall x :: x in Notes(acts).stamps ==> Do(WriteStamp(x)) in acts
    ensures forall c, mode, f :: (c, mode, f) in Notes(acts).clears ==> Do(ClearIfDirty(c, mode, f)) in acts
    ensures forall dir :: dir in Notes(acts).wipes ==> Do(Wipe(dir)) in acts
    decreases |acts|
  {
    if acts != [] {
      NoteIsAction(acts[..|acts| - 1]);
    }
  }

  /** Conversely, an action of one of these kinds is noted. */
  lemma {:induction false} ActionIsNoted(acts: seq<Act>, a: Act)
    requires a in acts
    ensures Note(Notes(acts), a) == Notes(acts)
    decreases |acts|
  {
    var pre, last := acts[..|acts| - 1], acts[|acts| - 1];
    if a != last {
      ActionIsNoted(pre, a);
    }
  }

  // ---------------------------------------------------------------- what is checked

  /** Requests that respect "only compilers for the build triple run": stage-0 compilers and the
      compilers handed to Cargo are for the build triple. */
  predicate BuildHosted(cfg: Config, s: Step) {
    match s
    case Assemble(c) => c.stage == 0 ==> c.host == cfg.build
    case Rustdoc(c) => c.stage == 0 ==> c.host == cfg.build
    case Std(c, _) => c.host == cfg.build
    case Rustc(c, _) => c.host == cfg.build
    case CodegenBackend(c, _, _) => c.host == cfg.build
    case ToolBuild(c, _, _, _, _) => c.host == cfg.build
    case LldWrapper(c, _, _) => c.host == cfg.build
    case StdLink(c, tc, _) => c.host == cfg.build && tc.host == cfg.build
    case RustcLink(c, tc, _) => c.host == cfg.build && tc.host == cfg.build
    case _ => true
  }

  /** Everything is built in this run: nothing downloaded, nothing kept from an earlier run. */
  predicate FreshBuild(cfg: Config) {
    !cfg.downloadRustc && cfg.keepStage == [] && cfg.keepStageStd == []
  }

  /** A link step is requested only once its stamp has been written, by this step or by a build
      step it has requested. */
  ghost predicate LinkReady(cfg: Config, seen: Seen, d: Step) {
    match d
    case StdLink(c, _, t) =>
      || cfg.dryRun || StdStamp(c, t) in seen.stamps
      || (Std(c, t) in seen.needs && !ForceUseStage1(cfg, c, t))
    case RustcLink(c, _, t) =>
      || cfg.dryRun || RustcStamp(c, t) in seen.stamps
      || (Rustc(c, t) in seen.needs && !ForceUseStage1(cfg, c, t))
    case _ => true
  }

  /** The sysroot of `c` has been wiped by the time `seen` is done. */
  ghost predicate SysrootWiped(cfg: Config, seen: Seen, c: Compiler) {
    || Sysroot(c) in seen.needs
    || (exists t :: LibdirOf(c, t) in seen.needs)
    || SysrootDir(cfg.layout, c) in seen.wipes
  }

  /** Every directory at or above `dir` that any step wipes has been wiped. */
  ghost predicate CopyGuarded(cfg: Config, seen: Seen, dir: Path) {
    || (forall c :: !(SysrootDir(cfg.layout, c) <= dir))
    || (exists c :: CopyGuardedBy(cfg, seen, dir, c))
  }

  ghost predicate CopyGuardedBy(cfg: Config, seen: Seen, dir: Path, c: Compiler) {
    && SysrootDir(cfg.layout, c) <= dir && SysrootWiped(cfg, seen, c)
    && (forall d, t :: Libdir(cfg.layout, d, t) <= dir ==> LibdirWiped(cfg, seen, c, Libdir(cfg.layout, d, t)))
  }

  ghost predicate LibdirWiped(cfg: Config, seen: Seen, c: Compiler, dir: Path) {
    exists t :: LibdirOf(c, t) in seen.needs && Libdir(cfg.layout, c, t) == dir
  }

  predicate Staged(mode: Mode) { mode == ModeStd || mode == ModeRustc || mode == ModeCodegen }

  /** The step that makes Cargo build `t` with `c` in the given mode. */
  predicate BuildsWith(s: Step, mode: Mode, c: Compiler, t: Target) {
    match mode
    case ModeStd => s == Std(c, t)
    case ModeRustc => s == Rustc(c, t)
    case ModeCodegen => s.CodegenBackend? && s.compiler == c && s.target == t
    case _ => true
  }

  /** The files a Cargo invocation is checked against: the backends that are installed with the
      compiler and, for the standard library, the compiler itself. */
  predicate Watched(cfg: Config, c: Compiler, mode: Mode, f: Input) {
    match f
    case RustcBinary => mode == ModeStd && !cfg.dryRun
    case BackendFile(b) => b in cfg.backends && b != "llvm" && c.stage > 0 && !cfg.dryRun && !cfg.downloadRustc
  }

  /** The output of `c` in this mode has been checked against every file it is to be checked against. */
  ghost predicate AllChecked(cfg: Config, seen: Seen, c: Compiler, mode: Mode) {
    forall f :: Watched(cfg, c, mode, f) ==> (c, mode, f) in seen.clears
  }

  /** What Cargo needs to build for `t` with `c` has been requested: the compiler and the libraries it
      builds against and, where rustc is linked, LLVM. */
  ghost predicate CargoReady(cfg: Config, seen: Seen, mode: Mode, c: Compiler, t: Target) {
    && LibdirOf(c, c.host) in seen.needs && (Staged(mode) ==> Assemble(c) in seen.needs)
    && (mode == ModeRustc ==> Std(c, t) in seen.needs && Std(Compiler(c.stage, cfg.build), cfg.build) in seen.needs)
    && (mode == ModeCodegen || mode == ToolRustc ==> Rustc(c, t) in seen.needs)
    && (mode == ToolStd ==> Std(c, t) in seen.needs)
    && (mode in {ModeRustc, ModeCodegen, ToolRustc} && "llvm" in cfg.backends && !cfg.checkKind ==>
          Llvm(t) in seen.needs)
  }

  /** What is installed with a compiler was built by the compiler before it: rustc, and the configured
      backends other than LLVM. */
  ghost predicate InstallReady(cfg: Config, seen: Seen, c: Compiler, f: Input) {
    c.stage > 0 &&
    var prev := Compiler(c.stage - 1, cfg.build);
    && Rustc(prev, c.host) in seen.needs
    && (f.BackendFile? ==>
          f.name in cfg.backends && f.name != "llvm" && CodegenBackend(prev, c.host, f.name) in seen.needs)
  }

  /** The compiler whose artifacts `c` is given for `t`, in a fresh build: from stage 2 on, and for the
      hosts, those of stage 1, unless everything is to be built by every stage. */
  predicate IsSource(cfg: Config, c: Compiler, t: Target, source: Compiler) {
    source == Compiler(
      if !cfg.fullBootstrap && c.stage >= 2 && (t == cfg.build || t in cfg.hosts) then 1 else c.stage, cfg.build)
  }

  /** A link into the sysroot of a compiler is requested by the step that provides it, and for the
      artifacts that compiler is to be given. */
  predicate LinkedBy(cfg: Config, s: Step, d: Step) {
    && (d.StdLink? ==> s == Std(d.targetCompiler, d.target))
    && (d.RustcLink? ==> s == Rustc(d.targetCompiler, d.target))
    && (d.StdLink? || d.RustcLink? ==> (FreshBuild(cfg) ==> IsSource(cfg, d.targetCompiler, d.target, d.compiler)))
  }

  ghost predicate EffectOk(cfg: Config, s: Step, seen: Seen, e: Effect) {
    match e
    case Wipe(dir) =>
      (s.Sysroot? && dir == SysrootDir(cfg.layout, s.compiler))
      || (s.LibdirOf? && dir == Libdir(cfg.layout, s.compiler, s.target) && Sysroot(s.compiler) in seen.needs)
    case CopyInto(dir) => !cfg.downloadRustc ==> CopyGuarded(cfg, seen, dir)
    case Cargo(mode, c, t) =>
      && AllChecked(cfg, seen, c, mode) && CargoReady(cfg, seen, mode, c, t)
      && (Staged(mode) ==> !ForceUseStage1(cfg, c, t) && BuildsWith(s, mode, c, t) && (mode, c, t) !in seen.cargos)
    case WriteStamp(x) =>
      && !ForceUseStage1(cfg, x.c, x.t) && BuildsWith(s, StampMode(x), x.c, x.t)
      && (x.BackendStamp? ==> s == CodegenBackend(x.c, x.t, x.backend))
      && (StampMode(x), x.c, x.t) in seen.cargos
      && AllChecked(cfg, seen, x.c, StampMode(x))
      && x !in seen.stamps
    case ReadStamp(x) => !cfg.dryRun && ReadOk(cfg, s, seen, x)
    case Install(c, f) =>
      && s == Assemble(c) && InstallReady(cfg, seen, c, f)
      && (!cfg.downloadRustc ==> CopyGuarded(cfg, seen, InputDir(cfg.layout, c, f)))
    case ClearIfDirty(c, mode, f) =>
      && Watched(cfg, c, mode, f) && c.host in Targets(s) + {cfg.build}
      && (Staged(mode) ==> Assemble(c) in seen.needs) && CopyGuarded(cfg, seen, InputDir(cfg.layout, c, f))
    case AssertBuildHost(host) => BuildHosted(cfg, s) ==> host == cfg.build
    case AssertNotCross(_) => cfg.downloadRustc
  }

  /** `s` assembles a compiler from what `c` builds for `t`. */
  predicate AssemblesFrom(cfg: Config, s: Step, c: Compiler, t: Target) {
    s.Assemble? && s.compiler.stage > 0 && c == Compiler(s.compiler.stage - 1, cfg.build) && t == s.compiler.host
  }

  /** Stamps are read by the link steps, and by the assembly after it requested the build. */
  ghost predicate ReadOk(cfg: Config, s: Step, seen: Seen, x: StampId) {
    match x
    case StdStamp(c, t) => s.StdLink? && s.compiler == c && s.target == t
    case RustcStamp(c, t) =>
      (s.RustcLink? && s.compiler == c && s.target == t) || (AssemblesFrom(cfg, s, c, t) && Rustc(c, t) in seen.needs)
    case BackendStamp(c, t, b) => AssemblesFrom(cfg, s, c, t) && CodegenBackend(c, t, b) in seen.needs
    case TmpStamp(_, _) => false
  }

  /** The targets a step is about. */
  function Targets(s: Step): set<Target> {
    match s
    case Assemble(c) => {c.host}
    case Rustdoc(c) => {c.host}
    case Sysroot(c) => {c.host}
    case StdLink(c, tc, t) => {c.host, tc.host, t}
    case RustcLink(c, tc, t) => {c.host, tc.host, t}
    case Std(c, t) => {c.host, t}
    case StartupObjects(c, t) => {c.host, t}
    case Rustc(c, t) => {c.host, t}
    case CodegenBackend(c, t, _) => {c.host, t}
    case LibdirOf(c, t) => {c.host, t}
    case ToolBuild(c, t, _, _, _) => {c.host, t}
    case LldWrapper(c, t, _) => {c.host, t}
    case Llvm(t) => {t}
    case Lld(t) => {t}
    case Sanitizers(t) => {t}
    case CrtBeginEnd(t) => {t}
    case Libunwind(t) => {t}
  }

  /** `s` may request `d`: the measure goes down, proper hosts stay proper, and no target comes
      up that is neither one of its own nor the build triple. */
  predicate MayAsk(cfg: Config, s: Step, d: Step) {
    && Rank(cfg, d) < Rank(cfg, s)
    && (BuildHosted(cfg, s) ==> BuildHosted(cfg, d))
    && Targets(d) <= Targets(s) + {cfg.build}
  }

  /** Optional things are requested only where the configuration and the target call for them. */
  predicate CalledFor(cfg: Config, s: Step, d: Step) {
    match d
    case Lld(_) => s.Assemble? && cfg.lldEnabled
    case LldWrapper(_, _, _) => s.Assemble? && cfg.lldEnabled
    case CodegenBackend(_, _, b) =>
      (s.Assemble? && b in cfg.backends && b != "llvm") || (s.CodegenBackend? && s.backend == b)
    case Llvm(_) => s.Llvm? || s.Lld? || s.Sanitizers? || "llvm" in cfg.backends
    case Sanitizers(t) => cfg.sanitizersEnabled(t)
    case CrtBeginEnd(t) => Contains(t.triple, "musl")
    case Libunwind(t) =>
      || Contains(t.triple, "musl") || t.triple == "x86_64-fortanix-unknown-sgx"
      || (cfg.inTreeLibunwind && (Contains(t.triple, "linux") || Contains(t.triple, "fuchsia")))
    case _ => true
  }

  ghost predicate RequestOk(cfg: Config, s: Step, seen: Seen, d: Step) {
    && MayAsk(cfg, s, d) && LinkedBy(cfg, s, d) && CalledFor(cfg, s, d)
    && (FreshBuild(cfg) && BuildHosted(cfg, s) ==> LinkReady(cfg, seen, d))
  }

  ghost predicate ActOk(cfg: Config, s: Step, seen: Seen, a: Act) {
    match a
    case Need(d) => RequestOk(cfg, s, seen, d)
    case Do(e) => EffectOk(cfg, s, seen, e)
  }

  ghost predicate Walk(cfg: Config, s: Step, acts: seq<Act>) {
    acts == [] || (Walk(cfg, s, acts[..|acts| - 1]) && ActOk(cfg, s, Notes(acts[..|acts| - 1]), acts[|acts| - 1]))
  }

  lemma WalkAppend(cfg: Config, s: Step, acts: seq<Act>, a: Act)
    requires Walk(cfg, s, acts) && ActOk(cfg, s, Notes(acts), a)
    ensures Walk(cfg, s, acts + [a]) && Notes(acts + [a]) == Note(Notes(acts), a)
  {
    assert (acts + [a])[..|acts + [a]| - 1] == acts;
  }

  lemma {:induction false} WalkAt(cfg: Config, s: Step, acts: seq<Act>, k: nat)
    requires Walk(cfg, s, acts) && k < |acts|
    ensures ActOk(cfg, s, Notes(acts[..k]), acts[k])
    decreases |acts|
  {
    if k < |acts| - 1 {
      WalkAt(cfg, s, acts[..|acts| - 1], k);
      assert acts[..|acts| - 1][..k] == acts[..k];
    }
  }

  // ---------------------------------------------------------------- which copies are guarded

  lemma LibdirPrefix(l: Layout, d: Compiler, u: Target, c: Compiler, p: Path)
    requires Libdir(l, d, u) <= SysrootDir(l, c) + p
    ensures SysrootDir(l, d) == SysrootDir(l, c) && d.stage == c.stage
  {
    assert SysrootDir(l, d) <= Libdir(l, d, u);
    SysrootInjective(l, d, c, p);
  }

  lemma LibdirAbove(l: Layout, d: Compiler, u: Target, c: Compiler, t: Target, rest: Path)
    requires Libdir(l, d, u) <= Libdir(l, c, t) + rest
    ensures Libdir(l, d, u) == Libdir(l, c, t)
  {
    hide SysrootDir, LibdirRelative;
    var p := LibdirRelative(l, c.stage) + ["rustlib", t.triple, "lib"] + rest;
    assert Libdir(l, c, t) + rest == SysrootDir(l, c) + p;
    LibdirPrefix(l, d, u, c, p);
    assert |Libdir(l, d, u)| == |Libdir(l, c, t)|;
  }

  /** Copies into a library directory that was looked up, or below it. */
  lemma GuardLibdir(cfg: Config, seen: Seen, c: Compiler, t: Target, rest: Path)
    requires LibdirOf(c, t) in seen.needs
    ensures CopyGuarded(cfg, seen, Libdir(cfg.layout, c, t) + rest)
  {
    var l := cfg.layout;
    var dir := Libdir(l, c, t) + rest;
    assert SysrootDir(l, c) <= dir;
    hide SysrootDir, Libdir;
    forall d, u | Libdir(l, d, u) <= dir ensures LibdirWiped(cfg, seen, c, Libdir(l, d, u)) {
      LibdirAbove(l, d, u, c, t, rest);
    }
    assert CopyGuardedBy(cfg, seen, dir, c);
  }

  /** Copies next to a library directory. */
  lemma GuardBeside(cfg: Config, seen: Seen, c: Compiler, t: Target, name: string, rest: Path)
    requires SysrootWiped(cfg, seen, c) && name != "lib"
    ensures CopyGuarded(cfg, seen, RustlibDir(cfg.layout, c, t) + [name] + rest)
  {
    var l := cfg.layout;
    var dir := RustlibDir(l, c, t) + [name] + rest;
    var p := LibdirRelative(l, c.stage) + ["rustlib", t.triple, name] + rest;
    assert dir == SysrootDir(l, c) + p;
    forall d, u ensures !(Libdir(l, d, u) <= dir) {
      if SysrootDir(l, d) == SysrootDir(l, c) && d.stage == c.stage {
        var n := |RustlibDir(l, c, t)|;
        assert n == |RustlibDir(l, d, u)|;
        assert Libdir(l, d, u)[n] == "lib" && dir[n] == name;
      } else if Libdir(l, d, u) <= dir {
        LibdirPrefix(l, d, u, c, p);
      }
    }
    assert CopyGuardedBy(cfg, seen, dir, c);
  }

  /** Copies too close to the sysroot for a library directory to be above them. */
  lemma GuardShallow(cfg: Config, seen: Seen, c: Compiler, rest: Path)
    requires SysrootWiped(cfg, seen, c) && |rest| < |LibdirRelative(cfg.layout, c.stage)| + 3
    ensures CopyGuarded(cfg, seen, SysrootDir(cfg.layout, c) + rest)
  {
    var l := cfg.layout;
    var dir := SysrootDir(l, c) + rest;
    forall d, u ensures !(Libdir(l, d, u) <= dir) {
      if Libdir(l, d, u) <= dir {
        LibdirPrefix(l, d, u, c, rest);
      }
    }
    assert CopyGuardedBy(cfg, seen, dir, c);
  }

  /** The files of a compiler whose library directory was looked up are where no wipe is to come. */
  lemma GuardInput(cfg: Config, seen: Seen, c: Compiler, f: Input)
    requires SysrootWiped(cfg, seen, c)
    ensures CopyGuarded(cfg, seen, InputDir(cfg.layout, c, f))
  {
    if f.BackendFile? {
      GuardBeside(cfg, seen, c, c.host, "codegen-backends", []);
      assert InputDir(cfg.layout, c, f) == RustlibDir(cfg.layout, c, c.host) + ["codegen-backends"] + [];
    } else if c.stage > 0 {
      GuardShallow(cfg, seen, c, ["bin"]);
    } else {
      forall d ensures !(SysrootDir(cfg.layout, d) <= InputDir(cfg.layout, c, f)) {
        SnapshotApart(cfg.layout, d, c);
      }
    }
  }

  /** The place where the shared LLVM is installed, whatever library directory is configured. */
  lemma GuardLlvmTarget(cfg: Config, seen: Seen, c: Compiler)
    requires LibdirOf(c, c.host) in seen.needs
    ensures CopyGuarded(cfg, seen, SysrootDir(cfg.layout, c) + ["lib", "rustlib", c.host.triple, "lib"])
  {
    var l := cfg.layout;
    var root, rel := SysrootDir(l, c), LibdirRelative(l, c.stage);
    var rest := ["lib", "rustlib", c.host.triple, "lib"];
    var dir := root + rest;
    forall d, u | Libdir(l, d, u) <= dir ensures LibdirWiped(cfg, seen, c, Libdir(l, d, u)) {
      LibdirPrefix(l, d, u, c, rest);
      var x, n := Libdir(l, d, u), |root|;
      assert |x| == n + |rel| + 3;
      assert x == root + (rel + ["rustlib", u.triple, "lib"]);
      assert x[n] == dir[n] == "lib";
      assert |rel| == 1 && x[n] == rel[0];
      assert x == dir;
      assert rel == ["lib"];
      assert Libdir(l, c, c.host) == dir;
    }
    assert CopyGuardedBy(cfg, seen, dir, c);
  }

  /** Tools go to a directory of their own. */
  lemma GuardTools(cfg: Config, seen: Seen, c: Compiler)
    ensures CopyGuarded(cfg, seen, ToolsDir(cfg.layout, c))
  {
    forall d ensures !(SysrootDir(cfg.layout, d) <= ToolsDir(cfg.layout, c)) {
      SysrootApart(cfg.layout, d, c, "-tools-bin", []);
      assert ToolsDir(cfg.layout, c) == cfg.layout.out + [c.host.triple, StageName(c.stage, "-tools-bin")] + [];
    }
  }
}
