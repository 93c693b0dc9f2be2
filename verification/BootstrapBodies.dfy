/** Every step body of the plan passes the local checks, for every configuration. */
module BootstrapBodies {
  import opened Scheduler
  import opened Naming
  import opened Bootstrap
  import opened BootstrapLocal

  /** `r` has all requests and checks of `acts`, and no builds or stamps beyond them. */
  ghost predicate Grown(acts: seq<Act>, r: seq<Act>) {
    var a, b := Notes(acts), Notes(r);
    a.needs <= b.needs && a.clears <= b.clears && a.cargos == b.cargos && a.stamps == b.stamps
  }

  /** Nothing has been built yet. */
  ghost predicate Unbuilt(acts: seq<Act>) { Notes(acts).cargos == {} && Notes(acts).stamps == {} }

  /** Steps of a stage, which may request anything that belongs to no stage. */
  predicate InStage(cfg: Config, s: Step) { Rank(cfg, s) >= 3 }

  /** A step of a stage that is about `c` and `t`, or just about the build triple. */
  predicate Concerns(cfg: Config, s: Step, c: Compiler, t: Target) {
    InStage(cfg, s) && {c.host, t} <= Targets(s) + {cfg.build}
  }

  /** A request for a step other than a link step. */
  lemma AskPlain(cfg: Config, s: Step, acts: seq<Act>, d: Step)
    requires Walk(cfg, s, acts) && MayAsk(cfg, s, d) && CalledFor(cfg, s, d)
    requires !d.StdLink? && !d.RustcLink?
    ensures Walk(cfg, s, Ask(acts, d)) && Grown(acts, Ask(acts, d)) && d in Notes(Ask(acts, d)).needs
  {
    WalkAppend(cfg, s, acts, Need(d));
  }

  lemma AskPlainIf(cfg: Config, s: Step, b: bool, acts: seq<Act>, d: Step)
    requires Walk(cfg, s, acts) && MayAsk(cfg, s, d) && (b ==> CalledFor(cfg, s, d))
    requires !d.StdLink? && !d.RustcLink?
    ensures Walk(cfg, s, AskIf(b, acts, d)) && Grown(acts, AskIf(b, acts, d))
    ensures b ==> d in Notes(AskIf(b, acts, d)).needs
  {
    if b {
      AskPlain(cfg, s, acts, d);
    }
  }

  /** A request for a link step. */
  lemma AskLink(cfg: Config, s: Step, acts: seq<Act>, d: Step)
    requires Walk(cfg, s, acts) && RequestOk(cfg, s, Notes(acts), d)
    ensures Walk(cfg, s, Ask(acts, d))
  {
    WalkAppend(cfg, s, acts, Need(d));
  }

  lemma CopyOk(cfg: Config, s: Step, acts: seq<Act>, dir: Path)
    requires Walk(cfg, s, acts) && CopyGuarded(cfg, Notes(acts), dir)
    ensures Walk(cfg, s, ForReal(cfg, acts, CopyInto(dir))) && Grown(acts, ForReal(cfg, acts, CopyInto(dir)))
  {
    WalkAppend(cfg, s, acts, Do(CopyInto(dir)));
  }

  /** A staleness check, once the library directory of the compiler was looked up. */
  lemma ClearOk(cfg: Config, s: Step, acts: seq<Act>, c: Compiler, mode: Mode, f: Input)
    requires Walk(cfg, s, acts) && Watched(cfg, c, mode, f) && MayCheck(cfg, s, acts, c, mode)
    ensures var r := Perform(acts, ClearIfDirty(c, mode, f));
      Walk(cfg, s, r) && Grown(acts, r) && (c, mode, f) in Notes(r).clears
  {
    GuardInput(cfg, Notes(acts), c, f);
    WalkAppend(cfg, s, acts, Do(ClearIfDirty(c, mode, f)));
  }

  ghost predicate MayCheck(cfg: Config, s: Step, acts: seq<Act>, c: Compiler, mode: Mode) {
    && LibdirOf(c, c.host) in Notes(acts).needs && c.host in Targets(s) + {cfg.build}
    && (Staged(mode) ==> Assemble(c) in Notes(acts).needs)
  }

  lemma {:induction false} CheckBackendsOk(cfg: Config, s: Step, acts: seq<Act>, c: Compiler, mode: Mode, n: nat)
    requires Walk(cfg, s, acts) && MayCheck(cfg, s, acts, c, mode) && n <= |cfg.backends|
    ensures var r := CheckBackends(cfg, acts, c, mode, n);
      && Walk(cfg, s, r) && Grown(acts, r)
      && forall i :: 0 <= i < n && HasBackend(cfg, c, cfg.backends[i]) ==>
           (c, mode, BackendFile(cfg.backends[i])) in Notes(r).clears
    decreases n
  {
    hide Walk, Notes, MayAsk, Targets;
    if n > 0 {
      CheckBackendsOk(cfg, s, acts, c, mode, n - 1);
      var a1 := CheckBackends(cfg, acts, c, mode, n - 1);
      var b := cfg.backends[n - 1];
      if HasBackend(cfg, c, b) {
        ClearOk(cfg, s, a1, c, mode, BackendFile(b));
        GrownTransitive(acts, a1, Perform(a1, ClearIfDirty(c, mode, BackendFile(b))));
      }
    }
  }

  lemma BackendsChecked(cfg: Config, s: Step, acts: seq<Act>, c: Compiler, mode: Mode)
    requires Walk(cfg, s, acts) && MayCheck(cfg, s, acts, c, mode)
    ensures var r := CheckBackends(cfg, acts, c, mode, |cfg.backends|);
      && Walk(cfg, s, r) && Grown(acts, r)
      && forall b :: Watched(cfg, c, mode, BackendFile(b)) ==> (c, mode, BackendFile(b)) in Notes(r).clears
  {
    hide Walk, Notes, Grown;
    CheckBackendsOk(cfg, s, acts, c, mode, |cfg.backends|);
  }

  lemma ReadStampOk(cfg: Config, s: Step, acts: seq<Act>, x: StampId)
    requires Walk(cfg, s, acts) && ReadOk(cfg, s, Notes(acts), x)
    ensures Walk(cfg, s, ForReal(cfg, acts, ReadStamp(x))) && Grown(acts, ForReal(cfg, acts, ReadStamp(x)))
  {
    if !cfg.dryRun {
      WalkAppend(cfg, s, acts, Do(ReadStamp(x)));
    }
  }

  lemma WalkEmpty(cfg: Config, s: Step)
    ensures Walk(cfg, s, []) && Unbuilt([])
  {
  }

  lemma GrownTransitive(a: seq<Act>, b: seq<Act>, c: seq<Act>)
    requires Grown(a, b) && Grown(b, c)
    ensures Grown(a, c)
  {
  }

  /** A step of a stage may request anything about its compiler and target that has no stage. */
  lemma MayAskUnstaged(cfg: Config, s: Step, c: Compiler, t: Target)
    requires Concerns(cfg, s, c, t)
    ensures MayAsk(cfg, s, Sysroot(c)) && MayAsk(cfg, s, LibdirOf(c, t)) && MayAsk(cfg, s, LibdirOf(c, c.host))
    ensures MayAsk(cfg, s, Llvm(t)) && MayAsk(cfg, s, Sanitizers(t))
    ensures MayAsk(cfg, s, Libunwind(t)) && MayAsk(cfg, s, CrtBeginEnd(t))
  {
    hide MayAsk, Concerns;
    MayAskWith(cfg, s, c, t, Sysroot(c));
    MayAskWith(cfg, s, c, t, LibdirOf(c, t));
    MayAskWith(cfg, s, c, t, LibdirOf(c, c.host));
    MayAskWith(cfg, s, c, t, Llvm(t));
    MayAskWith(cfg, s, c, t, Sanitizers(t));
    MayAskWith(cfg, s, c, t, Libunwind(t));
    MayAskWith(cfg, s, c, t, CrtBeginEnd(t));
  }

  lemma MayAskWith(cfg: Config, s: Step, c: Compiler, t: Target, d: Step)
    requires Concerns(cfg, s, c, t) && Rank(cfg, d) < 3 && BuildHosted(cfg, d) && Targets(d) <= {c.host, t}
    ensures MayAsk(cfg, s, d)
  {
    hide Rank, BuildHosted, Targets;
  }

  lemma CheckOutputOk(cfg: Config, s: Step, acts: seq<Act>, c: Compiler, mode: Mode)
    requires Walk(cfg, s, acts) && (Staged(mode) ==> Assemble(c) in Notes(acts).needs)
    requires MayAsk(cfg, s, LibdirOf(c, c.host)) && MayAsk(cfg, s, Sysroot(c)) && c.host in Targets(s) + {cfg.build}
    ensures var r := CheckOutput(cfg, acts, c, mode);
      && Walk(cfg, s, r) && Grown(acts, r) && AllChecked(cfg, Notes(r), c, mode)
      && LibdirOf(c, c.host) in Notes(r).needs
  {
    hide MayAsk, Walk, Notes, CheckBackends, Targets;
    AskPlain(cfg, s, acts, LibdirOf(c, c.host));
    var a1 := Ask(acts, LibdirOf(c, c.host));
    BackendsChecked(cfg, s, a1, c, mode);
    var a2 := CheckBackends(cfg, a1, c, mode, |cfg.backends|);
    AskPlain(cfg, s, a2, Sysroot(c));
    var a3 := Ask(a2, Sysroot(c));
    GrownTransitive(acts, a1, a2);
    GrownTransitive(acts, a2, a3);
    if Watched(cfg, c, mode, RustcBinary) {
      ClearOk(cfg, s, a3, c, mode, RustcBinary);
      GrownTransitive(acts, a3, Perform(a3, ClearIfDirty(c, mode, RustcBinary)));
    }
  }

  lemma PrepareCargoOk(cfg: Config, s: Step, acts: seq<Act>, c: Compiler, mode: Mode, t: Target)
    requires Walk(cfg, s, acts) && Concerns(cfg, s, c, t) && (Staged(mode) ==> Assemble(c) in Notes(acts).needs)
    ensures var r := PrepareCargo(cfg, acts, c, mode, t);
      && Walk(cfg, s, r) && Grown(acts, r) && AllChecked(cfg, Notes(r), c, mode)
      && LibdirOf(c, c.host) in Notes(r).needs
      && (mode == ToolRustc && "llvm" in cfg.backends && !cfg.checkKind && !cfg.dryRun ==> Llvm(t) in Notes(r).needs)
  {
    MayAskUnstaged(cfg, s, c, t);
    assert c.host in Targets(s) + {cfg.build};
    hide MayAsk, Concerns, Walk, Notes, CheckOutput, Targets, Watched;
    CheckOutputOk(cfg, s, acts, c, mode);
    var a1 := CheckOutput(cfg, acts, c, mode);
    var b := (mode == ToolRustc || mode == ModeCodegen) && LlvmEnabled(cfg) && !cfg.checkKind && !cfg.dryRun;
    AskPlainIf(cfg, s, b, a1, Llvm(t));
    GrownTransitive(acts, a1, AskIf(b, a1, Llvm(t)));
  }

  lemma RustcCargoEnvOk(cfg: Config, s: Step, acts: seq<Act>, t: Target)
    requires Walk(cfg, s, acts) && InStage(cfg, s) && {t} <= Targets(s) + {cfg.build}
    ensures Walk(cfg, s, RustcCargoEnv(cfg, acts, t)) && Grown(acts, RustcCargoEnv(cfg, acts, t))
    ensures "llvm" in cfg.backends && !cfg.checkKind ==> Llvm(t) in Notes(RustcCargoEnv(cfg, acts, t)).needs
  {
    hide Walk, Notes;
    AskPlainIf(cfg, s, LlvmEnabled(cfg) && (!cfg.checkKind || cfg.llvmPrebuilt(t)), acts, Llvm(t));
  }

  lemma RunCargoOk(cfg: Config, s: Step, acts: seq<Act>, mode: Mode, c: Compiler, t: Target, x: StampId)
    requires Walk(cfg, s, acts) && Staged(mode) && mode == StampMode(x) && x.c == c && x.t == t && !x.BackendStamp?
    requires !ForceUseStage1(cfg, c, t) && BuildsWith(s, mode, c, t)
    requires AllChecked(cfg, Notes(acts), c, mode) && CargoReady(cfg, Notes(acts), mode, c, t)
    requires Unbuilt(acts)
    ensures var r := RunCargo(cfg, acts, mode, c, t, x);
      Walk(cfg, s, r) && Notes(acts).needs <= Notes(r).needs && Notes(acts).clears <= Notes(r).clears
      && (!cfg.dryRun ==> Notes(r).cargos == {(mode, c, t)} && Notes(r).stamps == {x})
  {
    if !cfg.dryRun {
      WalkAppend(cfg, s, acts, Do(Cargo(mode, c, t)));
      WalkAppend(cfg, s, Perform(acts, Cargo(mode, c, t)), Do(WriteStamp(x)));
    }
  }

  /** Look up the library directory of `t` and copy into it. */
  lemma LookUpAndCopyOk(cfg: Config, s: Step, acts: seq<Act>, c: Compiler, t: Target, d: Step)
    requires Walk(cfg, s, acts) && Concerns(cfg, s, c, t) && d in {Libunwind(t), CrtBeginEnd(t)}
    requires LibdirOf(c, t) in Notes(acts).needs && CalledFor(cfg, s, d)
    ensures var r := ForReal(cfg, Ask(acts, d), CopyInto(Libdir(cfg.layout, c, t))); Walk(cfg, s, r) && Grown(acts, r)
    ensures var r := ForReal(cfg, Ask(acts, d), CopyInto(Libdir(cfg.layout, c, t) + ["self-contained"]));
      Walk(cfg, s, r) && Grown(acts, r)
  {
    MayAskUnstaged(cfg, s, c, t);
    hide MayAsk, Concerns, Walk, Notes, CopyGuarded, CalledFor;
    var dir := Libdir(cfg.layout, c, t);
    assert dir + [] == dir;
    hide Libdir;
    AskPlain(cfg, s, acts, d);
    var a1 := Ask(acts, d);
    GuardLibdir(cfg, Notes(a1), c, t, []);
    CopyOk(cfg, s, a1, dir);
    GrownTransitive(acts, a1, ForReal(cfg, a1, CopyInto(dir)));
    GuardLibdir(cfg, Notes(a1), c, t, ["self-contained"]);
    CopyOk(cfg, s, a1, dir + ["self-contained"]);
    GrownTransitive(acts, a1, ForReal(cfg, a1, CopyInto(dir + ["self-contained"])));
  }

  lemma CopySanitizersOk(cfg: Config, s: Step, acts: seq<Act>, c: Compiler, t: Target)
    requires Walk(cfg, s, acts) && Concerns(cfg, s, c, t)
    ensures Walk(cfg, s, CopySanitizers(cfg, acts, c, t)) && Grown(acts, CopySanitizers(cfg, acts, c, t))
  {
    hide Concerns, Walk, Notes, Libdir;
    if cfg.sanitizersEnabled(t) && c.stage != 0 {
      var a1 := Ask(acts, Sanitizers(t));
      MayAskUnstaged(cfg, s, c, t);
      hide MayAsk;
      AskPlain(cfg, s, acts, Sanitizers(t));
      if !cfg.dryRun {
        LibdirCopyOk(cfg, s, a1, c, t);
        var a2 := Perform(Ask(a1, LibdirOf(c, t)), CopyInto(Libdir(cfg.layout, c, t)));
        GrownTransitive(acts, a1, a2);
      }
    }
  }

  lemma LibdirCopyOk(cfg: Config, s: Step, acts: seq<Act>, c: Compiler, t: Target)
    requires Walk(cfg, s, acts) && MayAsk(cfg, s, LibdirOf(c, t)) && !cfg.dryRun
    ensures var r := Perform(Ask(acts, LibdirOf(c, t)), CopyInto(Libdir(cfg.layout, c, t)));
      Walk(cfg, s, r) && Grown(acts, r)
  {
    hide MayAsk, Walk, Notes, CopyGuarded, Libdir;
    var dir := Libdir(cfg.layout, c, t);
    assert dir + [] == dir;
    AskPlain(cfg, s, acts, LibdirOf(c, t));
    var a1 := Ask(acts, LibdirOf(c, t));
    GuardLibdir(cfg, Notes(a1), c, t, []);
    CopyOk(cfg, s, a1, dir);
    GrownTransitive(acts, a1, ForReal(cfg, a1, CopyInto(dir)));
  }

  lemma CopyLibunwindOk(cfg: Config, s: Step, acts: seq<Act>, c: Compiler, t: Target)
    requires Walk(cfg, s, acts) && Concerns(cfg, s, c, t)
    ensures Walk(cfg, s, CopyLibunwind(cfg, acts, c, t)) && Grown(acts, CopyLibunwind(cfg, acts, c, t))
  {
    MayAskUnstaged(cfg, s, c, t);
    hide MayAsk, Concerns, Walk, Notes, Libdir, CopyGuarded, Contains;
    if WantsLibunwind(cfg, t) {
      assert CalledFor(cfg, s, Libunwind(t)) && CalledFor(cfg, s, LibdirOf(c, t));
      hide CalledFor, WantsLibunwind;
      AskPlain(cfg, s, acts, LibdirOf(c, t));
      var a1 := Ask(acts, LibdirOf(c, t));
      LookUpAndCopyOk(cfg, s, a1, c, t, Libunwind(t));
      GrownTransitive(acts, a1, ForReal(cfg, Ask(a1, Libunwind(t)), CopyInto(Libdir(cfg.layout, c, t))));
    }
  }

  lemma CopyThirdPartyOk(cfg: Config, s: Step, acts: seq<Act>, c: Compiler, t: Target)
    requires Walk(cfg, s, acts) && Concerns(cfg, s, c, t)
    ensures Walk(cfg, s, CopyThirdParty(cfg, acts, c, t)) && Grown(acts, CopyThirdParty(cfg, acts, c, t))
  {
    hide Concerns, Walk, Notes, CopySanitizers, CopyLibunwind;
    CopySanitizersOk(cfg, s, acts, c, t);
    CopyLibunwindOk(cfg, s, CopySanitizers(cfg, acts, c, t), c, t);
    GrownTransitive(acts, CopySanitizers(cfg, acts, c, t), CopyThirdParty(cfg, acts, c, t));
  }

  lemma CopyMuslOk(cfg: Config, s: Step, acts: seq<Act>, c: Compiler, t: Target)
    requires Walk(cfg, s, acts) && Concerns(cfg, s, c, t) && LibdirOf(c, t) in Notes(acts).needs
    requires Contains(t.triple, "musl")
    ensures var dir := Libdir(cfg.layout, c, t) + ["self-contained"];
      var r := ForReal(cfg, Ask(ForReal(cfg, Ask(acts, CrtBeginEnd(t)), CopyInto(dir)), Libunwind(t)), CopyInto(dir));
      Walk(cfg, s, r) && Grown(acts, r)
  {
    hide Concerns, Walk, Notes, CopyGuarded, Libdir, Contains;
    var dir := Libdir(cfg.layout, c, t) + ["self-contained"];
    LookUpAndCopyOk(cfg, s, acts, c, t, CrtBeginEnd(t));
    var a1 := ForReal(cfg, Ask(acts, CrtBeginEnd(t)), CopyInto(dir));
    LookUpAndCopyOk(cfg, s, a1, c, t, Libunwind(t));
    GrownTransitive(acts, a1, ForReal(cfg, Ask(a1, Libunwind(t)), CopyInto(dir)));
  }

  lemma CopySelfContainedOk(cfg: Config, s: Step, acts: seq<Act>, c: Compiler, t: Target)
    requires Walk(cfg, s, acts) && Concerns(cfg, s, c, t)
    ensures Walk(cfg, s, CopySelfContained(cfg, acts, c, t)) && Grown(acts, CopySelfContained(cfg, acts, c, t))
  {
    MayAskUnstaged(cfg, s, c, t);
    hide MayAsk, Concerns, Walk, Notes, CopyGuarded, Libdir, Contains, EndsWith;
    var dir := Libdir(cfg.layout, c, t) + ["self-contained"];
    AskPlain(cfg, s, acts, LibdirOf(c, t));
    var a1 := Ask(acts, LibdirOf(c, t));
    GuardLibdir(cfg, Notes(a1), c, t, ["self-contained"]);
    CopyOk(cfg, s, a1, dir);
    var a2 := ForReal(cfg, a1, CopyInto(dir));
    GrownTransitive(acts, a1, a2);
    if Contains(t.triple, "musl") {
      CopyMuslOk(cfg, s, a2, c, t);
      GrownTransitive(acts, a2, CopySelfContained(cfg, acts, c, t));
    }
  }

  lemma StdBodyOk(cfg: Config, c: Compiler, t: Target)
    ensures Walk(cfg, Std(c, t), StdBody(cfg, c, t))
  {
    hide Walk, Notes, CopyThirdParty, CopySelfContained, PrepareCargo, RunCargo;
    WalkEmpty(cfg, Std(c, t));
    var s := Std(c, t);
    if cfg.downloadRustc && c.stage != 0 {
    } else if c.stage in cfg.keepStage || c.stage in cfg.keepStageStd {
      AskLink(cfg, s, [], StdLink(c, c, t));
    } else {
      var use := CompilerFor(cfg, c, t);
      AskPlain(cfg, s, [], StartupObjects(c, t));
      var a1 := Ask([], StartupObjects(c, t));
      AskPlain(cfg, s, a1, Assemble(use));
      var a2 := Ask(a1, Assemble(use));
      if use != c {
        StdUpliftOk(cfg, c, t, a2);
      } else {
        StdBuildOk(cfg, c, t, a2);
      }
    }
  }

  lemma StdUpliftOk(cfg: Config, c: Compiler, t: Target, acts: seq<Act>)
    requires Walk(cfg, Std(c, t), acts) && ForceUseStage1(cfg, c, t)
    ensures var use := CompilerFor(cfg, c, t);
      var a := CopySelfContained(cfg, CopyThirdParty(cfg, Ask(acts, Std(use, t)), c, t), c, t);
      Walk(cfg, Std(c, t), Ask(a, StdLink(use, c, t)))
  {
    hide Walk, Notes, CopyThirdParty, CopySelfContained;
    var s := Std(c, t);
    var use := CompilerFor(cfg, c, t);
    AskPlain(cfg, s, acts, Std(use, t));
    var a1 := Ask(acts, Std(use, t));
    CopyThirdPartyOk(cfg, s, a1, c, t);
    var a2 := CopyThirdParty(cfg, a1, c, t);
    CopySelfContainedOk(cfg, s, a2, c, t);
    var a3 := CopySelfContained(cfg, a2, c, t);
    assert Std(use, t) in Notes(a1).needs;
    AskLink(cfg, s, a3, StdLink(use, c, t));
  }

  lemma StdBuildOk(cfg: Config, c: Compiler, t: Target, acts: seq<Act>)
    requires Walk(cfg, Std(c, t), acts) && !ForceUseStage1(cfg, c, t) && Assemble(c) in Notes(acts).needs
    requires Unbuilt(acts)
    ensures var a := CopySelfContained(cfg, CopyThirdParty(cfg, acts, c, t), c, t);
      var b := RunCargo(cfg, PrepareCargo(cfg, a, c, ModeStd, t), ModeStd, c, t, StdStamp(c, t));
      var bc := Compiler(c.stage, cfg.build);
      Walk(cfg, Std(c, t), Ask(Ask(b, Assemble(bc)), StdLink(bc, c, t)))
  {
    hide Walk, Notes, CopyThirdParty, CopySelfContained, PrepareCargo, RunCargo;
    var s := Std(c, t);
    CopyThirdPartyOk(cfg, s, acts, c, t);
    var a1 := CopyThirdParty(cfg, acts, c, t);
    CopySelfContainedOk(cfg, s, a1, c, t);
    var a2 := CopySelfContained(cfg, a1, c, t);
    PrepareCargoOk(cfg, s, a2, c, ModeStd, t);
    var a3 := PrepareCargo(cfg, a2, c, ModeStd, t);
    RunCargoOk(cfg, s, a3, ModeStd, c, t, StdStamp(c, t));
    var a4 := RunCargo(cfg, a3, ModeStd, c, t, StdStamp(c, t));
    var bc := Compiler(c.stage, cfg.build);
    AskPlain(cfg, s, a4, Assemble(bc));
    var a5 := Ask(a4, Assemble(bc));
    AskLink(cfg, s, a5, StdLink(bc, c, t));
  }

  lemma RustcBodyOk(cfg: Config, c: Compiler, t: Target)
    ensures Walk(cfg, Rustc(c, t), RustcBody(cfg, c, t))
  {
    hide Walk, Notes, PrepareCargo, RustcCargoEnv, RunCargo;
    WalkEmpty(cfg, Rustc(c, t));
    var s := Rustc(c, t);
    if cfg.downloadRustc && c.stage != 0 {
      AskPlain(cfg, s, [], Sysroot(c));
    } else {
      AskPlain(cfg, s, [], Std(c, t));
      var a1 := Ask([], Std(c, t));
      if c.stage in cfg.keepStage {
        AskLink(cfg, s, a1, RustcLink(c, c, t));
      } else if CompilerFor(cfg, c, t) != c {
        RustcUpliftOk(cfg, c, t, a1);
      } else {
        AskPlain(cfg, s, a1, Assemble(c));
        RustcBuildOk(cfg, c, t, Ask(a1, Assemble(c)));
      }
    }
  }

  lemma RustcUpliftOk(cfg: Config, c: Compiler, t: Target, acts: seq<Act>)
    requires Walk(cfg, Rustc(c, t), acts) && ForceUseStage1(cfg, c, t)
    ensures var use := CompilerFor(cfg, c, t);
      Walk(cfg, Rustc(c, t), Ask(Ask(Ask(acts, Assemble(use)), Rustc(use, t)), RustcLink(use, c, t)))
  {
    hide Walk, Notes;
    var s, use := Rustc(c, t), CompilerFor(cfg, c, t);
    AskPlain(cfg, s, acts, Assemble(use));
    var a1 := Ask(acts, Assemble(use));
    AskPlain(cfg, s, a1, Rustc(use, t));
    AskLink(cfg, s, Ask(a1, Rustc(use, t)), RustcLink(use, c, t));
  }

  lemma RustcBuildOk(cfg: Config, c: Compiler, t: Target, acts: seq<Act>)
    requires Std(c, t) in Notes(acts).needs
    requires Walk(cfg, Rustc(c, t), acts) && !ForceUseStage1(cfg, c, t) && Assemble(c) in Notes(acts).needs
    requires Unbuilt(acts)
    ensures var bc := Compiler(c.stage, cfg.build);
      var a := Ask(Ask(acts, Assemble(bc)), Std(bc, cfg.build));
      var b := RunCargo(cfg, RustcCargoEnv(cfg, PrepareCargo(cfg, a, c, ModeRustc, t), t), ModeRustc, c, t,
        RustcStamp(c, t));
      Walk(cfg, Rustc(c, t), Ask(Ask(b, Assemble(bc)), RustcLink(bc, c, t)))
  {
    hide Walk, Notes, PrepareCargo, RustcCargoEnv, RunCargo, MayAsk, CalledFor;
    var s := Rustc(c, t);
    var bc := Compiler(c.stage, cfg.build);
    RustcMayAsk(cfg, c, t);
    AskPlain(cfg, s, acts, Assemble(bc));
    var a1 := Ask(acts, Assemble(bc));
    AskPlain(cfg, s, a1, Std(bc, cfg.build));
    var a2 := Ask(a1, Std(bc, cfg.build));
    GrownTransitive(acts, a1, a2);
    RustcCargoOk(cfg, c, t, a2);
    var env := RustcCargoEnv(cfg, PrepareCargo(cfg, a2, c, ModeRustc, t), t);
    var a3 := RunCargo(cfg, env, ModeRustc, c, t, RustcStamp(c, t));
    AskPlain(cfg, s, a3, Assemble(bc));
    var a4 := Ask(a3, Assemble(bc));
    BuiltLinkOk(cfg, c, t, a4);
  }

  lemma RustcMayAsk(cfg: Config, c: Compiler, t: Target)
    ensures var s, bc := Rustc(c, t), Compiler(c.stage, cfg.build);
      && MayAsk(cfg, s, Assemble(bc)) && CalledFor(cfg, s, Assemble(bc))
      && MayAsk(cfg, s, Std(bc, cfg.build)) && CalledFor(cfg, s, Std(bc, cfg.build))
  {
  }

  /** The build itself: everything is in place, and the stamp is written. */
  lemma RustcCargoOk(cfg: Config, c: Compiler, t: Target, acts: seq<Act>)
    requires Walk(cfg, Rustc(c, t), acts) && !ForceUseStage1(cfg, c, t) && Unbuilt(acts)
    requires Assemble(c) in Notes(acts).needs && Std(c, t) in Notes(acts).needs
    requires Std(Compiler(c.stage, cfg.build), cfg.build) in Notes(acts).needs
    ensures var a := RustcCargoEnv(cfg, PrepareCargo(cfg, acts, c, ModeRustc, t), t);
      var r := RunCargo(cfg, a, ModeRustc, c, t, RustcStamp(c, t));
      Walk(cfg, Rustc(c, t), r) && (!cfg.dryRun ==> RustcStamp(c, t) in Notes(r).stamps)
  {
    hide Walk, Notes, PrepareCargo, RustcCargoEnv, RunCargo, AllChecked;
    var s := Rustc(c, t);
    PrepareCargoOk(cfg, s, acts, c, ModeRustc, t);
    var a1 := PrepareCargo(cfg, acts, c, ModeRustc, t);
    RustcCargoEnvOk(cfg, s, a1, t);
    var a2 := RustcCargoEnv(cfg, a1, t);
    StillChecked(cfg, a1, a2, c, ModeRustc);
    RunCargoOk(cfg, s, a2, ModeRustc, c, t, RustcStamp(c, t));
  }

  lemma StillChecked(cfg: Config, a: seq<Act>, b: seq<Act>, c: Compiler, mode: Mode)
    requires AllChecked(cfg, Notes(a), c, mode) && Grown(a, b)
    ensures AllChecked(cfg, Notes(b), c, mode)
  {
  }

  lemma BuiltLinkOk(cfg: Config, c: Compiler, t: Target, acts: seq<Act>)
    requires Walk(cfg, Rustc(c, t), acts) && !ForceUseStage1(cfg, c, t)
    requires !cfg.dryRun ==> RustcStamp(c, t) in Notes(acts).stamps
    ensures Walk(cfg, Rustc(c, t), Ask(acts, RustcLink(Compiler(c.stage, cfg.build), c, t)))
  {
    hide Walk, Notes;
    AskLink(cfg, Rustc(c, t), acts, RustcLink(Compiler(c.stage, cfg.build), c, t));
  }

  lemma CodegenBodyOk(cfg: Config, c: Compiler, t: Target, b: string)
    ensures Walk(cfg, CodegenBackend(c, t, b), CodegenBody(cfg, c, t, b))
  {
    hide Walk, Notes, PrepareCargo, RustcCargoEnv, RunCargo;
    WalkEmpty(cfg, CodegenBackend(c, t, b));
    var s := CodegenBackend(c, t, b);
    AskPlain(cfg, s, [], Rustc(c, t));
    var a1 := Ask([], Rustc(c, t));
    if c.stage !in cfg.keepStage {
      var use := CompilerFor(cfg, c, t);
      AskPlain(cfg, s, a1, Assemble(use));
      var a2 := Ask(a1, Assemble(use));
      if use != c {
        AskPlain(cfg, s, a2, CodegenBackend(use, t, b));
      } else {
        CodegenBuildOk(cfg, c, t, b, a2);
      }
    }
  }

  lemma CodegenBuildOk(cfg: Config, c: Compiler, t: Target, b: string, acts: seq<Act>)
    requires Rustc(c, t) in Notes(acts).needs
    requires Walk(cfg, CodegenBackend(c, t, b), acts) && !ForceUseStage1(cfg, c, t) && Assemble(c) in Notes(acts).needs
    requires Unbuilt(acts)
    ensures var a := RustcCargoEnv(cfg, PrepareCargo(cfg, acts, c, ModeCodegen, t), t);
      var r := RunCargo(cfg, a, ModeCodegen, c, t, TmpStamp(c, t));
      Walk(cfg, CodegenBackend(c, t, b), ForReal(cfg, r, WriteStamp(BackendStamp(c, t, b))))
  {
    hide Walk, Notes, PrepareCargo, RustcCargoEnv, RunCargo;
    var s := CodegenBackend(c, t, b);
    PrepareCargoOk(cfg, s, acts, c, ModeCodegen, t);
    var a1 := PrepareCargo(cfg, acts, c, ModeCodegen, t);
    RustcCargoEnvOk(cfg, s, a1, t);
    var a2 := RustcCargoEnv(cfg, a1, t);
    GrownTransitive(acts, a1, a2);
    RunCargoOk(cfg, s, a2, ModeCodegen, c, t, TmpStamp(c, t));
    var a3 := RunCargo(cfg, a2, ModeCodegen, c, t, TmpStamp(c, t));
    if !cfg.dryRun {
      WalkAppend(cfg, s, a3, Do(WriteStamp(BackendStamp(c, t, b))));
    }
  }

  lemma LinkBodyOk(cfg: Config, s: Step, c: Compiler, tc: Compiler, t: Target, x: StampId)
    requires (s == StdLink(c, tc, t) && x == StdStamp(c, t)) || (s == RustcLink(c, tc, t) && x == RustcStamp(c, t))
    ensures Walk(cfg, s, LinkBody(cfg, c, tc, t, x))
  {
    hide Walk, Notes, Libdir, CopyGuarded;
    WalkEmpty(cfg, s);
    var dir, hostDir := Libdir(cfg.layout, tc, t), Libdir(cfg.layout, tc, c.host);
    assert dir + [] == dir && hostDir + [] == hostDir;
    AskPlain(cfg, s, [], LibdirOf(tc, t));
    var a1 := Ask([], LibdirOf(tc, t));
    AskPlain(cfg, s, a1, LibdirOf(tc, c.host));
    var a2 := Ask(a1, LibdirOf(tc, c.host));
    ReadStampOk(cfg, s, a2, x);
    var a3 := ForReal(cfg, a2, ReadStamp(x));
    GuardLibdir(cfg, Notes(a3), tc, t, []);
    CopyOk(cfg, s, a3, dir);
    var a4 := ForReal(cfg, a3, CopyInto(dir));
    GuardLibdir(cfg, Notes(a4), tc, c.host, []);
    CopyOk(cfg, s, a4, hostDir);
    var a5 := ForReal(cfg, a4, CopyInto(hostDir));
    GuardLibdir(cfg, Notes(a5), tc, t, ["self-contained"]);
    CopyOk(cfg, s, a5, dir + ["self-contained"]);
  }

  // ---------------------------------------------------------------- assembling a compiler

  /** The first `n` backends other than LLVM have been requested from the previous stage. */
  ghost predicate BackendsAsked(cfg: Config, tc: Compiler, acts: seq<Act>, n: nat)
    requires tc.stage > 0 && n <= |cfg.backends|
  {
    forall i :: 0 <= i < n && cfg.backends[i] != "llvm" ==>
      CodegenBackend(Compiler(tc.stage - 1, cfg.build), tc.host, cfg.backends[i]) in Notes(acts).needs
  }

  lemma {:induction false} BackendStepsOk(cfg: Config, tc: Compiler, acts: seq<Act>, n: nat)
    requires tc.stage > 0 && n <= |cfg.backends| && Walk(cfg, Assemble(tc), acts)
    ensures var r := BackendSteps(cfg, acts, Compiler(tc.stage - 1, cfg.build), tc.host, n);
      Walk(cfg, Assemble(tc), r) && Grown(acts, r) && BackendsAsked(cfg, tc, r, n)
    decreases n
  {
    hide Walk, Notes;
    if n > 0 {
      var bc := Compiler(tc.stage - 1, cfg.build);
      BackendStepsOk(cfg, tc, acts, n - 1);
      var a1 := BackendSteps(cfg, acts, bc, tc.host, n - 1);
      var d := CodegenBackend(bc, tc.host, cfg.backends[n - 1]);
      AskPlainIf(cfg, Assemble(tc), cfg.backends[n - 1] != "llvm", a1, d);
      GrownTransitive(acts, a1, AskIf(cfg.backends[n - 1] != "llvm", a1, d));
    }
  }

  lemma AssembleFromOk(cfg: Config, tc: Compiler, acts: seq<Act>)
    requires tc.stage > 0 && Walk(cfg, Assemble(tc), acts)
    ensures var r := AssembleFrom(cfg, acts, Compiler(tc.stage - 1, cfg.build), tc);
      && Walk(cfg, Assemble(tc), r) && BackendsAsked(cfg, tc, r, |cfg.backends|)
      && Rustc(Compiler(tc.stage - 1, cfg.build), tc.host) in Notes(r).needs
  {
    hide Walk, Notes, BackendSteps;
    var s := Assemble(tc);
    var bc := Compiler(tc.stage - 1, cfg.build);
    AskPlain(cfg, s, acts, Rustc(bc, tc.host));
    var a1 := Ask(acts, Rustc(bc, tc.host));
    BackendStepsOk(cfg, tc, a1, |cfg.backends|);
    var a2 := BackendSteps(cfg, a1, bc, tc.host, |cfg.backends|);
    AskPlainIf(cfg, s, cfg.lldEnabled, a2, Lld(tc.host));
    var a3 := AskIf(cfg.lldEnabled, a2, Lld(tc.host));
    ReadRustcOk(cfg, tc, a3);
    StillAsked(cfg, tc, a2, a3);
    StillAsked(cfg, tc, a3, ForReal(cfg, a3, ReadStamp(RustcStamp(bc, tc.host))));
  }

  lemma ReadRustcOk(cfg: Config, tc: Compiler, acts: seq<Act>)
    requires tc.stage > 0 && Walk(cfg, Assemble(tc), acts)
    requires Rustc(Compiler(tc.stage - 1, cfg.build), tc.host) in Notes(acts).needs
    ensures var r := ForReal(cfg, acts, ReadStamp(RustcStamp(Compiler(tc.stage - 1, cfg.build), tc.host)));
      Walk(cfg, Assemble(tc), r) && Grown(acts, r)
  {
    hide Walk, Notes;
    ReadStampOk(cfg, Assemble(tc), acts, RustcStamp(Compiler(tc.stage - 1, cfg.build), tc.host));
  }

  lemma StillAsked(cfg: Config, tc: Compiler, a: seq<Act>, b: seq<Act>)
    requires tc.stage > 0 && BackendsAsked(cfg, tc, a, |cfg.backends|) && Grown(a, b)
    ensures BackendsAsked(cfg, tc, b, |cfg.backends|)
  {
  }

  lemma {:induction false} BackendCopiesOk(cfg: Config, tc: Compiler, acts: seq<Act>, n: nat)
    requires tc.stage > 0 && n <= |cfg.backends| && Walk(cfg, Assemble(tc), acts) && Sysroot(tc) in Notes(acts).needs
    requires BackendsAsked(cfg, tc, acts, n) && Rustc(Compiler(tc.stage - 1, cfg.build), tc.host) in Notes(acts).needs
    ensures var r := BackendCopies(cfg, acts, Compiler(tc.stage - 1, cfg.build), tc, n);
      Walk(cfg, Assemble(tc), r) && Grown(acts, r)
    decreases n
  {
    hide Walk, Notes;
    if n > 0 && !cfg.dryRun {
      var bc := Compiler(tc.stage - 1, cfg.build);
      BackendCopiesOk(cfg, tc, acts, n - 1);
      var a1 := BackendCopies(cfg, acts, bc, tc, n - 1);
      if cfg.backends[n - 1] != "llvm" {
        BackendCopyOk(cfg, tc, a1, cfg.backends[n - 1]);
        GrownTransitive(acts, a1, BackendCopies(cfg, acts, bc, tc, n));
      }
    }
  }

  lemma InstallOk(cfg: Config, tc: Compiler, acts: seq<Act>, f: Input)
    requires Walk(cfg, Assemble(tc), acts) && Sysroot(tc) in Notes(acts).needs && InstallReady(cfg, Notes(acts), tc, f)
    ensures var r := Perform(acts, Install(tc, f)); Walk(cfg, Assemble(tc), r) && Grown(acts, r)
  {
    hide Walk, Notes;
    GuardInput(cfg, Notes(acts), tc, f);
    WalkAppend(cfg, Assemble(tc), acts, Do(Install(tc, f)));
  }

  lemma BackendCopyOk(cfg: Config, tc: Compiler, acts: seq<Act>, b: string)
    requires tc.stage > 0 && Walk(cfg, Assemble(tc), acts) && Sysroot(tc) in Notes(acts).needs && !cfg.dryRun
    requires CodegenBackend(Compiler(tc.stage - 1, cfg.build), tc.host, b) in Notes(acts).needs
    requires Rustc(Compiler(tc.stage - 1, cfg.build), tc.host) in Notes(acts).needs && b in cfg.backends && b != "llvm"
    ensures var bc := Compiler(tc.stage - 1, cfg.build);
      var r := Perform(Perform(acts, ReadStamp(BackendStamp(bc, tc.host, b))), Install(tc, BackendFile(b)));
      Walk(cfg, Assemble(tc), r) && Grown(acts, r)
  {
    hide Walk, Notes;
    var e := ReadStamp(BackendStamp(Compiler(tc.stage - 1, cfg.build), tc.host, b));
    WalkAppend(cfg, Assemble(tc), acts, Do(e));
    var a1 := Perform(acts, e);
    assert Grown(acts, a1);
    InstallOk(cfg, tc, a1, BackendFile(b));
    GrownTransitive(acts, a1, Perform(a1, Install(tc, BackendFile(b))));
  }

  lemma RustcLibdirGuarded(cfg: Config, seen: Seen, tc: Compiler)
    requires tc.stage > 0 && Sysroot(tc) in seen.needs
    ensures CopyGuarded(cfg, seen, RustcLibdir(cfg, tc))
  {
    var rest := if cfg.layout.libdirRelative.Some? then cfg.layout.libdirRelative.value
                else [if Contains(tc.host.triple, "windows") then "bin" else "lib"];
    GuardShallow(cfg, seen, tc, rest);
  }

  lemma AssembleSysrootOk(cfg: Config, tc: Compiler, acts: seq<Act>)
    requires tc.stage > 0 && Walk(cfg, Assemble(tc), acts) && BackendsAsked(cfg, tc, acts, |cfg.backends|)
    requires Rustc(Compiler(tc.stage - 1, cfg.build), tc.host) in Notes(acts).needs
    ensures var r := AssembleSysroot(cfg, acts, Compiler(tc.stage - 1, cfg.build), tc);
      && Walk(cfg, Assemble(tc), r) && Grown(acts, r)
      && Sysroot(tc) in Notes(r).needs && LibdirOf(tc, tc.host) in Notes(r).needs
  {
    hide Walk, Notes, CopyGuarded, RustcLibdir, BackendCopies;
    var s := Assemble(tc);
    var bc := Compiler(tc.stage - 1, cfg.build);
    AskPlain(cfg, s, acts, Sysroot(tc));
    var a1 := Ask(acts, Sysroot(tc));
    AskPlain(cfg, s, a1, LibdirOf(bc, tc.host));
    var a2 := Ask(a1, LibdirOf(bc, tc.host));
    RustcLibdirGuarded(cfg, Notes(a2), tc);
    CopyOk(cfg, s, a2, RustcLibdir(cfg, tc));
    var a3 := ForReal(cfg, a2, CopyInto(RustcLibdir(cfg, tc)));
    AskPlain(cfg, s, a3, LibdirOf(tc, tc.host));
    var a4 := Ask(a3, LibdirOf(tc, tc.host));
    GrownTransitive(acts, a1, a2);
    GrownTransitive(acts, a2, a3);
    GrownTransitive(acts, a3, a4);
    StillAsked(cfg, tc, acts, a4);
    BackendCopiesOk(cfg, tc, a4, |cfg.backends|);
    GrownTransitive(acts, a4, BackendCopies(cfg, a4, bc, tc, |cfg.backends|));
  }

  lemma LldWrapperOk(cfg: Config, tc: Compiler, acts: seq<Act>, flavor: string)
    requires tc.stage > 0 && Walk(cfg, Assemble(tc), acts) && Sysroot(tc) in Notes(acts).needs && cfg.lldEnabled
    ensures var r := ForReal(cfg, Ask(acts, LldWrapper(Compiler(tc.stage - 1, cfg.build), tc.host, flavor)),
                             CopyInto(RustlibDir(cfg.layout, tc, tc.host) + ["bin"] + ["gcc-ld"]));
      Walk(cfg, Assemble(tc), r) && Grown(acts, r)
  {
    hide Walk, Notes, CopyGuarded, RustlibDir;
    var d := LldWrapper(Compiler(tc.stage - 1, cfg.build), tc.host, flavor);
    AskPlain(cfg, Assemble(tc), acts, d);
    var a1 := Ask(acts, d);
    GuardBeside(cfg, Notes(a1), tc, tc.host, "bin", ["gcc-ld"]);
    var dir := RustlibDir(cfg.layout, tc, tc.host) + ["bin"] + ["gcc-ld"];
    CopyOk(cfg, Assemble(tc), a1, dir);
    GrownTransitive(acts, a1, ForReal(cfg, a1, CopyInto(dir)));
  }

  lemma BinOk(cfg: Config, tc: Compiler, acts: seq<Act>)
    requires tc.stage > 0 && Walk(cfg, Assemble(tc), acts) && Sysroot(tc) in Notes(acts).needs
    ensures var r := ForReal(cfg, acts, CopyInto(RustlibDir(cfg.layout, tc, tc.host) + ["bin"]));
      Walk(cfg, Assemble(tc), r) && Grown(acts, r)
  {
    hide Walk, Notes, CopyGuarded, RustlibDir;
    GuardBeside(cfg, Notes(acts), tc, tc.host, "bin", []);
    var rustlib := RustlibDir(cfg.layout, tc, tc.host);
    assert rustlib + ["bin"] == rustlib + ["bin"] + [];
    CopyOk(cfg, Assemble(tc), acts, rustlib + ["bin"]);
  }

  lemma AssembleToolsOk(cfg: Config, tc: Compiler, acts: seq<Act>)
    requires tc.stage > 0 && Walk(cfg, Assemble(tc), acts) && Sysroot(tc) in Notes(acts).needs
    ensures var r := AssembleTools(cfg, acts, Compiler(tc.stage - 1, cfg.build), tc);
      Walk(cfg, Assemble(tc), r) && Grown(acts, r)
  {
    hide Walk, Notes, CopyGuarded, RustlibDir;
    var bc := Compiler(tc.stage - 1, cfg.build);
    var bin := RustlibDir(cfg.layout, tc, tc.host) + ["bin"];
    var a3 := acts;
    if cfg.lldEnabled {
      BinOk(cfg, tc, acts);
      var a1 := ForReal(cfg, acts, CopyInto(bin));
      LldWrapperOk(cfg, tc, a1, "ld");
      var a2 := ForReal(cfg, Ask(a1, LldWrapper(bc, tc.host, "ld")), CopyInto(bin + ["gcc-ld"]));
      GrownTransitive(acts, a1, a2);
      LldWrapperOk(cfg, tc, a2, "ld64");
      a3 := ForReal(cfg, Ask(a2, LldWrapper(bc, tc.host, "ld64")), CopyInto(bin + ["gcc-ld"]));
      GrownTransitive(acts, a2, a3);
    }
    assert Grown(acts, a3);
    if LlvmEnabled(cfg) {
      AskPlain(cfg, Assemble(tc), a3, Llvm(tc.host));
      var a4 := Ask(a3, Llvm(tc.host));
      GrownTransitive(acts, a3, a4);
      BinOk(cfg, tc, a4);
      GrownTransitive(acts, a4, ForReal(cfg, a4, CopyInto(bin)));
    }
  }

  lemma AssembleEndOk(cfg: Config, tc: Compiler, acts: seq<Act>)
    requires tc.stage > 0 && Walk(cfg, Assemble(tc), acts)
    requires Sysroot(tc) in Notes(acts).needs && LibdirOf(tc, tc.host) in Notes(acts).needs
    requires Rustc(Compiler(tc.stage - 1, cfg.build), tc.host) in Notes(acts).needs
    ensures Walk(cfg, Assemble(tc), AssembleEnd(cfg, acts, tc))
  {
    hide Walk, Notes, CopyGuarded, SysrootDir;
    var s := Assemble(tc);
    var root := SysrootDir(cfg.layout, tc);
    var a2 := acts;
    if cfg.llvmLinkShared && cfg.installsLlvm(tc.host) {
      var runtime := root + LibdirRelative(cfg.layout, 1);
      GuardShallow(cfg, Notes(acts), tc, LibdirRelative(cfg.layout, 1));
      CopyOk(cfg, s, acts, runtime);
      var a1 := ForReal(cfg, acts, CopyInto(runtime));
      var target := root + ["lib", "rustlib", tc.host.triple, "lib"];
      GuardLlvmTarget(cfg, Notes(a1), tc);
      CopyOk(cfg, s, a1, target);
      a2 := ForReal(cfg, a1, CopyInto(target));
    }
    AskPlain(cfg, s, a2, Sysroot(tc));
    var a3 := Ask(a2, Sysroot(tc));
    InstallOk(cfg, tc, a3, RustcBinary);
  }

  lemma AssembleBodyOk(cfg: Config, tc: Compiler)
    ensures Walk(cfg, Assemble(tc), AssembleBody(cfg, tc))
  {
    hide Walk, Notes, AssembleFrom, AssembleSysroot, AssembleTools, AssembleEnd;
    WalkEmpty(cfg, Assemble(tc));
    var s := Assemble(tc);
    if tc.stage == 0 {
      WalkAppend(cfg, s, [], Do(AssertBuildHost(tc.host)));
      assert [] + [Do(AssertBuildHost(tc.host))] == AssembleBody(cfg, tc);
    } else {
      var bc := Compiler(tc.stage - 1, cfg.build);
      AskPlain(cfg, s, [], Assemble(bc));
      var a1 := Ask([], Assemble(bc));
      if cfg.downloadRustc {
        AskPlain(cfg, s, a1, Sysroot(tc));
      } else {
        AssembleLaterOk(cfg, tc, a1);
      }
    }
  }

  /** Everything an assembly does after it has asked for the previous compiler. */
  lemma AssembleLaterOk(cfg: Config, tc: Compiler, acts: seq<Act>)
    requires tc.stage > 0 && Walk(cfg, Assemble(tc), acts)
    ensures var bc := Compiler(tc.stage - 1, cfg.build);
      var a := AssembleTools(cfg, AssembleSysroot(cfg, AssembleFrom(cfg, acts, bc, tc), bc, tc), bc, tc);
      Walk(cfg, Assemble(tc), AssembleEnd(cfg, a, tc))
  {
    hide Walk, Notes, BackendsAsked, AssembleFrom, AssembleSysroot, AssembleTools, AssembleEnd;
    var bc := Compiler(tc.stage - 1, cfg.build);
    AssembleFromOk(cfg, tc, acts);
    var a1 := AssembleFrom(cfg, acts, bc, tc);
    AssembleSysrootOk(cfg, tc, a1);
    var a2 := AssembleSysroot(cfg, a1, bc, tc);
    AssembleToolsOk(cfg, tc, a2);
    AssembleEndOk(cfg, tc, AssembleTools(cfg, a2, bc, tc));
  }

  // ---------------------------------------------------------------- the other steps

  lemma SysrootBodyOk(cfg: Config, c: Compiler)
    ensures Walk(cfg, Sysroot(c), SysrootBody(cfg, c))
  {
    hide Walk, Notes;
    WalkEmpty(cfg, Sysroot(c));
    var s := Sysroot(c);
    var root := SysrootDir(cfg.layout, c);
    WalkAppend(cfg, s, [], Do(Wipe(root)));
    var a1 := Perform([], Wipe(root));
    if cfg.downloadRustc && c.stage != 0 {
      WalkAppend(cfg, s, a1, Do(AssertNotCross(c.host)));
      WalkAppend(cfg, s, Perform(a1, AssertNotCross(c.host)), Do(CopyInto(root)));
    } else {
      GuardSource(cfg, Notes(a1), c);
      WalkAppend(cfg, s, a1, Do(CopyInto(root + ["lib", "rustlib", "src"])));
    }
  }

  /** The link to the sources lives in a directory no target can claim. */
  lemma GuardSource(cfg: Config, seen: Seen, c: Compiler)
    requires SysrootDir(cfg.layout, c) in seen.wipes
    ensures CopyGuarded(cfg, seen, SysrootDir(cfg.layout, c) + ["lib", "rustlib", "src"])
  {
    var l := cfg.layout;
    var root, rel := SysrootDir(l, c), LibdirRelative(l, c.stage);
    var rest := ["lib", "rustlib", "src"];
    if |rel| > 0 {
      GuardShallow(cfg, seen, c, rest);
    } else {
      forall d, u ensures !(Libdir(l, d, u) <= root + rest) {
        if SysrootDir(l, d) == root && d.stage == c.stage {
          assert Libdir(l, d, u)[|root|] == "rustlib";
        } else if Libdir(l, d, u) <= root + rest {
          LibdirPrefix(l, d, u, c, rest);
        }
      }
      assert CopyGuardedBy(cfg, seen, root + rest, c);
    }
  }

  lemma LibdirBodyOk(cfg: Config, c: Compiler, t: Target)
    ensures Walk(cfg, LibdirOf(c, t), LibdirBody(cfg, c, t))
  {
    hide Walk, Notes;
    WalkEmpty(cfg, LibdirOf(c, t));
    AskPlain(cfg, LibdirOf(c, t), [], Sysroot(c));
    WalkAppend(cfg, LibdirOf(c, t), Ask([], Sysroot(c)), Do(Wipe(Libdir(cfg.layout, c, t))));
  }

  lemma StartupBodyOk(cfg: Config, c: Compiler, t: Target)
    ensures Walk(cfg, StartupObjects(c, t), StartupBody(cfg, c, t))
  {
    hide Walk, Notes;
    WalkEmpty(cfg, StartupObjects(c, t));
    var s := StartupObjects(c, t);
    AskPlain(cfg, s, [], LibdirOf(c, t));
    var a1 := Ask([], LibdirOf(c, t));
    GuardLibdir(cfg, Notes(a1), c, t, []);
    assert Libdir(cfg.layout, c, t) + [] == Libdir(cfg.layout, c, t);
    CopyOk(cfg, s, a1, Libdir(cfg.layout, c, t));
  }

  lemma ToolCargoOk(cfg: Config, s: Step, acts: seq<Act>, c: Compiler, t: Target, mode: Mode)
    requires mode == ToolRustc ==> Rustc(c, t) in Notes(acts).needs
    requires mode == ToolStd ==> Std(c, t) in Notes(acts).needs
    requires Walk(cfg, s, acts) && Concerns(cfg, s, c, t) && !Staged(mode)
    ensures Walk(cfg, s, ToolCargo(cfg, acts, c, t, mode))
  {
    hide Walk, Notes, PrepareCargo, CopyGuarded, ToolsDir;
    PrepareCargoOk(cfg, s, acts, c, mode, t);
    var a1 := PrepareCargo(cfg, acts, c, mode, t);
    if !cfg.dryRun {
      WalkAppend(cfg, s, a1, Do(Cargo(mode, c, t)));
    }
    var a2 := ForReal(cfg, a1, Cargo(mode, c, t));
    GuardTools(cfg, Notes(a2), c);
    CopyOk(cfg, s, a2, ToolsDir(cfg.layout, c));
  }

  lemma ToolMayAsk(cfg: Config, s: Step, c: Compiler, t: Target)
    requires s.ToolBuild? && s.compiler == c && s.target == t
    ensures Concerns(cfg, s, c, t) && MayAsk(cfg, s, Std(c, t)) && MayAsk(cfg, s, Std(c, c.host))
    ensures MayAsk(cfg, s, Rustc(c, t))
  {
  }

  lemma ToolBodyOk(cfg: Config, c: Compiler, t: Target, tool: string, mode: Mode, features: seq<string>)
    ensures Walk(cfg, ToolBuild(c, t, tool, mode, features), ToolBody(cfg, c, t, mode))
  {
    var s := ToolBuild(c, t, tool, mode, features);
    ToolMayAsk(cfg, s, c, t);
    WalkEmpty(cfg, s);
    hide Walk, Notes, ToolCargo, MayAsk, Concerns, Unbuilt;
    match mode
    case ToolRustc => RustcToolOk(cfg, s, c, t);
    case ToolStd =>
      AskPlain(cfg, s, [], Std(c, t));
      ToolCargoOk(cfg, s, Ask([], Std(c, t)), c, t, mode);
    case ToolBootstrap => ToolCargoOk(cfg, s, [], c, t, mode);
    case _ =>
  }

  lemma RustcToolOk(cfg: Config, s: Step, c: Compiler, t: Target)
    requires s.ToolBuild? && s.compiler == c && s.target == t && Walk(cfg, s, [])
    ensures Walk(cfg, s, ToolCargo(cfg, Ask(Ask([], Std(c, c.host)), Rustc(c, t)), c, t, ToolRustc))
  {
    ToolMayAsk(cfg, s, c, t);
    hide Walk, Notes, ToolCargo, MayAsk, Concerns;
    AskPlain(cfg, s, [], Std(c, c.host));
    var a1 := Ask([], Std(c, c.host));
    AskPlain(cfg, s, a1, Rustc(c, t));
    ToolCargoOk(cfg, s, Ask(a1, Rustc(c, t)), c, t, ToolRustc);
  }

  lemma RustdocBodyOk(cfg: Config, tc: Compiler)
    ensures Walk(cfg, Rustdoc(tc), RustdocBody(cfg, tc))
  {
    hide Walk, Notes, PrepareCargo, SysrootDir;
    WalkEmpty(cfg, Rustdoc(tc));
    var s := Rustdoc(tc);
    if tc.stage == 0 {
      WalkAppend(cfg, s, [], Do(AssertBuildHost(tc.host)));
      assert [] + [Do(AssertBuildHost(tc.host))] == RustdocBody(cfg, tc);
    } else {
      var bc := Compiler(tc.stage - 1, cfg.build);
      AskPlain(cfg, s, [], Assemble(bc));
      var a1 := Ask([], Assemble(bc));
      AskPlain(cfg, s, a1, Std(bc, tc.host));
      var a2 := Ask(a1, Std(bc, tc.host));
      AskPlain(cfg, s, a2, Rustc(bc, tc.host));
      RustdocCargoOk(cfg, tc, Ask(a2, Rustc(bc, tc.host)));
    }
  }

  lemma RustdocCargoOk(cfg: Config, tc: Compiler, acts: seq<Act>)
    requires tc.stage > 0 && Walk(cfg, Rustdoc(tc), acts)
    requires Rustc(Compiler(tc.stage - 1, cfg.build), tc.host) in Notes(acts).needs
    ensures var bc := Compiler(tc.stage - 1, cfg.build);
      var a := ForReal(cfg, PrepareCargo(cfg, acts, bc, ToolRustc, tc.host), Cargo(ToolRustc, bc, tc.host));
      Walk(cfg, Rustdoc(tc), ForReal(cfg, Ask(a, Sysroot(tc)), CopyInto(SysrootDir(cfg.layout, tc) + ["bin"])))
  {
    hide Walk, Notes, PrepareCargo, SysrootDir, CopyGuarded;
    var s := Rustdoc(tc);
    var bc := Compiler(tc.stage - 1, cfg.build);
    PrepareCargoOk(cfg, s, acts, bc, ToolRustc, tc.host);
    var a1 := PrepareCargo(cfg, acts, bc, ToolRustc, tc.host);
    if !cfg.dryRun {
      WalkAppend(cfg, s, a1, Do(Cargo(ToolRustc, bc, tc.host)));
    }
    var a2 := ForReal(cfg, a1, Cargo(ToolRustc, bc, tc.host));
    AskPlain(cfg, s, a2, Sysroot(tc));
    var a3 := Ask(a2, Sysroot(tc));
    GuardShallow(cfg, Notes(a3), tc, ["bin"]);
    CopyOk(cfg, s, a3, SysrootDir(cfg.layout, tc) + ["bin"]);
  }

  /** Every action of every step is right given the actions before it in the same step. */
  lemma BodyOk(cfg: Config, s: Step)
    ensures Walk(cfg, s, Body(cfg, s))
  {
    hide Walk, Notes, AssembleBody, StdBody, LinkBody, StartupBody, RustcBody, CodegenBody, SysrootBody, LibdirBody,
      ToolBody, RustdocBody;
    WalkEmpty(cfg, s);
    match s
    case Assemble(tc) => AssembleBodyOk(cfg, tc);
    case Std(c, t) => StdBodyOk(cfg, c, t);
    case StdLink(c, tc, t) => LinkBodyOk(cfg, s, c, tc, t, StdStamp(c, t));
    case StartupObjects(c, t) => StartupBodyOk(cfg, c, t);
    case Rustc(c, t) => RustcBodyOk(cfg, c, t);
    case RustcLink(c, tc, t) => LinkBodyOk(cfg, s, c, tc, t, RustcStamp(c, t));
    case CodegenBackend(c, t, b) => CodegenBodyOk(cfg, c, t, b);
    case Sysroot(c) => SysrootBodyOk(cfg, c);
    case LibdirOf(c, t) => LibdirBodyOk(cfg, c, t);
    case Llvm(t) => if t != cfg.build { AskPlain(cfg, s, [], Llvm(cfg.build)); }
    case Lld(t) => AskPlain(cfg, s, [], Llvm(t));
    case Sanitizers(t) => AskPlain(cfg, s, [], Llvm(cfg.build));
    case CrtBeginEnd(_) =>
    case Libunwind(_) =>
    case ToolBuild(c, t, tool, mode, features) => ToolBodyOk(cfg, c, t, tool, mode, features);
    case LldWrapper(c, t, flavor) => AskPlain(cfg, s, [], ToolBuild(c, t, "lld-wrapper", ToolStd, [flavor]));
    case Rustdoc(tc) => RustdocBodyOk(cfg, tc);
  }
}
