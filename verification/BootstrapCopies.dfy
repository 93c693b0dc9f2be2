/** What the other steps leave behind: linkers and LLVM tools next to a new compiler, objects beside the
    standard library, tools, rustdoc, and prepared directories. */
module BootstrapCopies {
  import opened Basics
  import opened Scheduler
  import opened Runs
  import opened RunTheorems
  import opened Naming
  import opened Bootstrap
  import opened BootstrapLocal
  import opened BootstrapBodies
  import opened BootstrapRuns
  import opened BootstrapResults
  import opened BootstrapInstalls

  /** What the names of targets are searched for. */
  lemma ContainsIs(s: string, needle: string)
    ensures Contains(s, needle) <==> exists a, b :: s == a + needle + b
    ensures EndsWith(s, needle) <==> exists a :: s == a + needle
  {
    if Contains(s, needle) {
      var i :| 0 <= i <= |s| && needle <= s[i..];
      assert s == s[..i] + needle + s[i + |needle|..];
    }
    if a, b :| s == a + needle + b {
      assert needle <= s[|a|..];
    }
    if EndsWith(s, needle) {
      assert s == s[..|s| - |needle|] + needle;
    }
  }

  // ---------------------------------------------------------------- beside a new compiler

  function BinDir(cfg: Config, tc: Compiler): Path { RustlibDir(cfg.layout, tc, tc.host) + ["bin"] }

  lemma ToolsFill(cfg: Config, acts: seq<Act>, bc: Compiler, tc: Compiler)
    requires !cfg.dryRun
    ensures var r, bin := AssembleTools(cfg, acts, bc, tc), BinDir(cfg, tc);
      && (cfg.lldEnabled ==> Do(CopyInto(bin)) in r)
      && (cfg.lldEnabled ==> Then(r, LldWrapper(bc, tc.host, "ld"), CopyInto(bin + ["gcc-ld"])))
      && (cfg.lldEnabled ==> Then(r, LldWrapper(bc, tc.host, "ld64"), CopyInto(bin + ["gcc-ld"])))
      && ("llvm" in cfg.backends ==> Then(r, Llvm(tc.host), CopyInto(bin)))
  {
    hide RustlibDir;
    var r, bin, n := AssembleTools(cfg, acts, bc, tc), BinDir(cfg, tc), |acts|;
    if cfg.lldEnabled {
      assert r[n] == Do(CopyInto(bin)) && r[n + 1] == Need(LldWrapper(bc, tc.host, "ld"));
      assert r[n + 2] == Do(CopyInto(bin + ["gcc-ld"])) && r[n + 3] == Need(LldWrapper(bc, tc.host, "ld64"));
      assert r[n + 4] == Do(CopyInto(bin + ["gcc-ld"]));
    }
    if "llvm" in cfg.backends {
      assert r[|r| - 2] == Need(Llvm(tc.host)) && r[|r| - 1] == Do(CopyInto(bin));
    }
  }

  /** With the linker enabled, an assembly has copied it, after it was built, and both wrappers, each
      after it was built; with LLVM, the LLVM tools after LLVM was built; and where LLVM is shared, its
      library, into the compiler's library directory and into the target's. */
  lemma AssemblyCopiesTools(cfg: Config, roots: set<Step>, tr: Trace, tc: Compiler)
    requires IsRun(cfg, roots, tr) && Done(cfg, tr, Assemble(tc)) && tc.stage > 0 && !cfg.downloadRustc && !cfg.dryRun
    ensures var s, prev, bin := Assemble(tc), Compiler(tc.stage - 1, cfg.build), BinDir(cfg, tc);
      && (cfg.lldEnabled ==> Done(cfg, tr, Lld(tc.host)) && Did(cfg, tr, s, CopyInto(bin)))
      && (cfg.lldEnabled ==> DidAfter(cfg, tr, s, LldWrapper(prev, tc.host, "ld"), CopyInto(bin + ["gcc-ld"])))
      && (cfg.lldEnabled ==> DidAfter(cfg, tr, s, LldWrapper(prev, tc.host, "ld64"), CopyInto(bin + ["gcc-ld"])))
      && ("llvm" in cfg.backends ==> DidAfter(cfg, tr, s, Llvm(tc.host), CopyInto(bin)))
    ensures cfg.llvmLinkShared && cfg.installsLlvm(tc.host) ==>
      var s, root := Assemble(tc), SysrootDir(cfg.layout, tc);
      && Did(cfg, tr, s, CopyInto(root + LibdirRelative(cfg.layout, 1)))
      && Did(cfg, tr, s, CopyInto(root + ["lib", "rustlib", tc.host.triple, "lib"]))
  {
    hide Body, AssembleFrom, AssembleSysroot, AssembleTools, AssembleEnd, BinDir, Then, SysrootDir, Did, DidAfter;
    var bc, p, s, bin := Compiler(tc.stage - 1, cfg.build), PartsOf(cfg, tc), Assemble(tc), BinDir(cfg, tc);
    PartsGrow(cfg, tc);
    FromAsks(cfg, Ask([], Assemble(bc)), bc, tc);
    ToolsFill(cfg, p.sysroot, bc, tc);
    EndInstalls(cfg, p.tools, tc);
    if cfg.lldEnabled {
      RequestDone(cfg, roots, tr, s, Lld(tc.host));
      EffectDid(cfg, roots, tr, s, CopyInto(bin));
      PartThen(cfg, roots, tr, tc, LldWrapper(bc, tc.host, "ld"), CopyInto(bin + ["gcc-ld"]));
      PartThen(cfg, roots, tr, tc, LldWrapper(bc, tc.host, "ld64"), CopyInto(bin + ["gcc-ld"]));
    }
    if "llvm" in cfg.backends {
      PartThen(cfg, roots, tr, tc, Llvm(tc.host), CopyInto(bin));
    }
    if cfg.llvmLinkShared && cfg.installsLlvm(tc.host) {
      var root := SysrootDir(cfg.layout, tc);
      EffectDid(cfg, roots, tr, s, CopyInto(root + LibdirRelative(cfg.layout, 1)));
      EffectDid(cfg, roots, tr, s, CopyInto(root + ["lib", "rustlib", tc.host.triple, "lib"]));
    }
  }

  lemma PartThen(cfg: Config, roots: set<Step>, tr: Trace, tc: Compiler, d: Step, e: Effect)
    requires IsRun(cfg, roots, tr) && Done(cfg, tr, Assemble(tc)) && tc.stage > 0 && !cfg.downloadRustc
    requires Then(PartsOf(cfg, tc).tools, d, e)
    ensures DidAfter(cfg, tr, Assemble(tc), d, e)
  {
    hide Body, PartsOf, Then, DidAfter;
    PartsGrow(cfg, tc);
    ThenExtends(PartsOf(cfg, tc).tools, Body(cfg, Assemble(tc)), d, e);
    EffectDidAfter(cfg, roots, tr, Assemble(tc), d, e);
  }

  /** Wherever a compiler comes from, its sysroot has been prepared, and so has the compiler before it. */
  lemma AssemblyPrepares(cfg: Config, roots: set<Step>, tr: Trace, tc: Compiler)
    requires IsRun(cfg, roots, tr) && Done(cfg, tr, Assemble(tc)) && tc.stage > 0
    ensures Done(cfg, tr, Assemble(Compiler(tc.stage - 1, cfg.build))) && Done(cfg, tr, Sysroot(tc))
  {
    hide Body, AssembleFrom, AssembleSysroot, AssembleTools;
    var bc, s := Compiler(tc.stage - 1, cfg.build), Assemble(tc);
    AssembleAsksBoth(cfg, tc);
    RequestDone(cfg, roots, tr, s, Assemble(bc));
    RequestDone(cfg, roots, tr, s, Sysroot(tc));
  }

  lemma AssembleAsksBoth(cfg: Config, tc: Compiler)
    requires tc.stage > 0
    ensures Need(Assemble(Compiler(tc.stage - 1, cfg.build))) in Body(cfg, Assemble(tc))
    ensures Need(Sysroot(tc)) in Body(cfg, Assemble(tc))
  {
    hide AssembleFrom, AssembleSysroot, AssembleTools, SysrootDir, LibdirRelative;
    var bc, body := Compiler(tc.stage - 1, cfg.build), Body(cfg, Assemble(tc));
    if cfg.downloadRustc {
      assert body[0] == Need(Assemble(bc)) && body[1] == Need(Sysroot(tc));
    } else {
      AssembleAsksPrevious(cfg, tc);
      assert body[|body| - 1] == Need(Sysroot(tc)) || body[|body| - 2] == Need(Sysroot(tc));
    }
  }

  // ---------------------------------------------------------------- beside the standard library

  predicate NeedsLibunwind(cfg: Config, t: Target) {
    t.triple == "x86_64-fortanix-unknown-sgx"
    || (cfg.inTreeLibunwind && (Contains(t.triple, "linux") || Contains(t.triple, "fuchsia")))
  }

  lemma ThirdPartyHas(cfg: Config, acts: seq<Act>, c: Compiler, t: Target)
    requires !cfg.dryRun
    ensures var r, dir := CopyThirdParty(cfg, acts, c, t), Libdir(cfg.layout, c, t);
      && acts <= r
      && (cfg.sanitizersEnabled(t) && c.stage != 0 ==> Then(r, Sanitizers(t), CopyInto(dir)))
      && (NeedsLibunwind(cfg, t) ==> Then(r, Libunwind(t), CopyInto(dir)))
  {
    hide Libdir;
    var dir, a1, r := Libdir(cfg.layout, c, t), CopySanitizers(cfg, acts, c, t), CopyThirdParty(cfg, acts, c, t);
    if cfg.sanitizersEnabled(t) && c.stage != 0 {
      assert a1[|acts|] == Need(Sanitizers(t)) && a1[|acts| + 2] == Do(CopyInto(dir));
      ThenExtends(a1, r, Sanitizers(t), CopyInto(dir));
    }
    if NeedsLibunwind(cfg, t) {
      assert r[|r| - 2] == Need(Libunwind(t)) && r[|r| - 1] == Do(CopyInto(dir));
    }
  }

  lemma SelfContainedHas(cfg: Config, acts: seq<Act>, c: Compiler, t: Target)
    requires !cfg.dryRun
    ensures var r, dir := CopySelfContained(cfg, acts, c, t), Libdir(cfg.layout, c, t) + ["self-contained"];
      && acts <= r
      && (Contains(t.triple, "musl") ==> Then(r, CrtBeginEnd(t), CopyInto(dir)) && Then(r, Libunwind(t), CopyInto(dir)))
      && (EndsWith(t.triple, "-wasi") || Contains(t.triple, "windows-gnu") ==> Do(CopyInto(dir)) in r)
  {
    hide Libdir;
    var r, dir, n := CopySelfContained(cfg, acts, c, t), Libdir(cfg.layout, c, t) + ["self-contained"], |acts|;
    if Contains(t.triple, "musl") {
      assert r[n + 1] == Do(CopyInto(dir)) && r[n + 2] == Need(CrtBeginEnd(t)) && r[n + 3] == Do(CopyInto(dir));
      assert r[n + 4] == Need(Libunwind(t)) && r[n + 5] == Do(CopyInto(dir));
    } else if EndsWith(t.triple, "-wasi") || Contains(t.triple, "windows-gnu") {
      assert r[n + 1] == Do(CopyInto(dir));
    }
  }

  /** What a body of `Std` is made of, unless the stage is kept or downloaded. */
  lemma StdHas(cfg: Config, c: Compiler, t: Target)
    requires !(cfg.downloadRustc && c.stage != 0) && c.stage !in cfg.keepStage && c.stage !in cfg.keepStageStd
    ensures Need(StartupObjects(c, t)) in Body(cfg, Std(c, t))
    ensures exists acts :: CopySelfContained(cfg, CopyThirdParty(cfg, acts, c, t), c, t) <= Body(cfg, Std(c, t))
  {
    hide CopyThirdParty, CopySelfContained, RunCargo, PrepareCargo;
    var use := CompilerFor(cfg, c, t);
    var a1 := Ask(Ask([], StartupObjects(c, t)), Assemble(use));
    var a2 := if use != c then Ask(a1, Std(use, t)) else a1;
    var a3 := CopySelfContained(cfg, CopyThirdParty(cfg, a2, c, t), c, t);
    ThirdPartyExtends(cfg, a2, c, t);
    SelfContainedExtends(cfg, CopyThirdParty(cfg, a2, c, t), c, t);
    assert a3[0] == Need(StartupObjects(c, t));
    if use == c {
      var a4 := PrepareCargo(cfg, a3, c, ModeStd, t);
      PrepareExtends(cfg, a3, c, ModeStd, t);
      RunCargoExtends(cfg, a4, ModeStd, c, t, StdStamp(c, t));
    }
    assert a3 <= StdBody(cfg, c, t);
  }

  lemma ThirdPartyExtends(cfg: Config, acts: seq<Act>, c: Compiler, t: Target)
    ensures acts <= CopyThirdParty(cfg, acts, c, t)
  {
    hide Libdir;
  }

  lemma SelfContainedExtends(cfg: Config, acts: seq<Act>, c: Compiler, t: Target)
    ensures acts <= CopySelfContained(cfg, acts, c, t)
  {
    hide Libdir;
  }

  lemma {:induction false} CheckBackendsExtends(cfg: Config, acts: seq<Act>, c: Compiler, mode: Mode, n: nat)
    requires n <= |cfg.backends|
    ensures acts <= CheckBackends(cfg, acts, c, mode, n)
    decreases n
  {
    if n > 0 {
      CheckBackendsExtends(cfg, acts, c, mode, n - 1);
    }
  }

  lemma PrepareExtends(cfg: Config, acts: seq<Act>, c: Compiler, mode: Mode, t: Target)
    ensures acts <= PrepareCargo(cfg, acts, c, mode, t)
  {
    hide CheckBackends;
    CheckBackendsExtends(cfg, Ask(acts, LibdirOf(c, c.host)), c, mode, |cfg.backends|);
  }

  lemma RunCargoExtends(cfg: Config, acts: seq<Act>, mode: Mode, c: Compiler, t: Target, x: StampId)
    ensures acts <= RunCargo(cfg, acts, mode, c, t, x)
  {
  }

  /** A finished `Std` that was neither kept nor downloaded has put everything beside the library that
      its target needs, each after it was built: startup objects, sanitizers (except in stage 0),
      libunwind, and the objects of self-contained targets. */
  lemma StdCopiesObjects(cfg: Config, roots: set<Step>, tr: Trace, c: Compiler, t: Target)
    requires IsRun(cfg, roots, tr) && Done(cfg, tr, Std(c, t)) && !cfg.dryRun
    requires !(cfg.downloadRustc && c.stage != 0) && c.stage !in cfg.keepStage && c.stage !in cfg.keepStageStd
    ensures var s, dir := Std(c, t), Libdir(cfg.layout, c, t);
      && Done(cfg, tr, StartupObjects(c, t))
      && (cfg.sanitizersEnabled(t) && c.stage != 0 ==> DidAfter(cfg, tr, s, Sanitizers(t), CopyInto(dir)))
      && (NeedsLibunwind(cfg, t) ==> DidAfter(cfg, tr, s, Libunwind(t), CopyInto(dir)))
      && (Contains(t.triple, "musl") ==>
            && DidAfter(cfg, tr, s, CrtBeginEnd(t), CopyInto(dir + ["self-contained"]))
            && DidAfter(cfg, tr, s, Libunwind(t), CopyInto(dir + ["self-contained"])))
      && (EndsWith(t.triple, "-wasi") || Contains(t.triple, "windows-gnu") ==>
            Did(cfg, tr, s, CopyInto(dir + ["self-contained"])))
  {
    hide Body, Libdir, Then, CopyThirdParty, CopySelfContained, Did, DidAfter, Contains, EndsWith;
    var s, dir := Std(c, t), Libdir(cfg.layout, c, t);
    StdHas(cfg, c, t);
    RequestDone(cfg, roots, tr, s, StartupObjects(c, t));
    var acts :| CopySelfContained(cfg, CopyThirdParty(cfg, acts, c, t), c, t) <= Body(cfg, s);
    var a1 := CopyThirdParty(cfg, acts, c, t);
    var a2 := CopySelfContained(cfg, a1, c, t);
    ThirdPartyHas(cfg, acts, c, t);
    SelfContainedHas(cfg, a1, c, t);
    forall d, e | Then(a1, d, e) || Then(a2, d, e) ensures DidAfter(cfg, tr, s, d, e) {
      ThenDid(cfg, roots, tr, s, a1, a2, d, e);
    }
    if EndsWith(t.triple, "-wasi") || Contains(t.triple, "windows-gnu") {
      EffectDid(cfg, roots, tr, s, CopyInto(dir + ["self-contained"]));
    }
  }

  lemma ThenDid(cfg: Config, roots: set<Step>, tr: Trace, s: Step, a1: seq<Act>, a2: seq<Act>, d: Step, e: Effect)
    requires IsRun(cfg, roots, tr) && Done(cfg, tr, s) && a1 <= a2 <= Body(cfg, s) && (Then(a1, d, e) || Then(a2, d, e))
    ensures DidAfter(cfg, tr, s, d, e)
  {
    hide Body, Then, DidAfter;
    if Then(a1, d, e) {
      ThenExtends(a1, a2, d, e);
    }
    ThenExtends(a2, Body(cfg, s), d, e);
    EffectDidAfter(cfg, roots, tr, s, d, e);
  }

  // ---------------------------------------------------------------- tools, rustdoc, native libraries

  /** A finished tool build in one of the tool modes has run Cargo and then copied the tool; for a tool
      that links rustc the standard library for the compiler's host was there by then, too. */
  lemma ToolBuilt(cfg: Config, roots: set<Step>, tr: Trace, s: Step)
    requires IsRun(cfg, roots, tr) && s.ToolBuild? && s.mode in {ToolRustc, ToolStd, ToolBootstrap}
    requires Done(cfg, tr, s) && !cfg.dryRun
    ensures var build := Cargo(s.mode, s.compiler, s.target);
      && BuiltThenCopied(cfg, tr, s, build, ToolsDir(cfg.layout, s.compiler))
      && (s.mode == ToolRustc ==> DidAfter(cfg, tr, s, Std(s.compiler, s.compiler.host), build))
  {
    hide Body, ToolsDir, DidAfter;
    var n, build := |Body(cfg, s)|, Cargo(s.mode, s.compiler, s.target);
    ToolEnds(cfg, s);
    var i := ActionHappened(cfg, roots, tr, s, n - 2);
    var k := ActionHappened(cfg, roots, tr, s, n - 1);
    LaterEvent(cfg, roots, tr, s, i, k);
    assert Happens(cfg, tr, i, build);
    assert Happens(cfg, tr, k, CopyInto(ToolsDir(cfg.layout, s.compiler)));
    if s.mode == ToolRustc {
      assert Then(Body(cfg, s), Std(s.compiler, s.compiler.host), build) by {
        assert Body(cfg, s)[0] == Need(Std(s.compiler, s.compiler.host)) && Body(cfg, s)[n - 2] == Do(build);
      }
      EffectDidAfter(cfg, roots, tr, s, Std(s.compiler, s.compiler.host), build);
    }
  }

  ghost predicate BuiltThenCopied(cfg: Config, tr: Trace, s: Step, build: Effect, dir: Path) {
    exists i: nat :: Happens(cfg, tr, i, build) && tr[i].step == s && CopiedAfter(cfg, tr, i, s, dir)
  }

  lemma ToolEnds(cfg: Config, s: Step)
    requires s.ToolBuild? && s.mode in {ToolRustc, ToolStd, ToolBootstrap} && !cfg.dryRun
    ensures var body := Body(cfg, s);
      && |body| >= 2 && body[|body| - 2] == Do(Cargo(s.mode, s.compiler, s.target))
      && body[|body| - 1] == Do(CopyInto(ToolsDir(cfg.layout, s.compiler)))
      && (s.mode == ToolRustc ==> |body| > 2 && body[0] == Need(Std(s.compiler, s.compiler.host)))
  {
    hide PrepareCargo, ToolsDir;
    if s.mode == ToolRustc {
      PrepareExtends(cfg, Ask(Ask([], Std(s.compiler, s.compiler.host)), Rustc(s.compiler, s.target)), s.compiler,
        s.mode, s.target);
    }
  }

  /** A finished rustdoc was built by the stage before, once that was assembled and had its library, and
      copied next to the compiler it is for. */
  lemma RustdocBuilt(cfg: Config, roots: set<Step>, tr: Trace, tc: Compiler)
    requires IsRun(cfg, roots, tr) && Done(cfg, tr, Rustdoc(tc)) && tc.stage > 0 && !cfg.dryRun
    ensures var s, prev := Rustdoc(tc), Compiler(tc.stage - 1, cfg.build);
      && BuiltThenCopied(cfg, tr, s, Cargo(ToolRustc, prev, tc.host), SysrootDir(cfg.layout, tc) + ["bin"])
      && DidAfter(cfg, tr, s, Assemble(prev), Cargo(ToolRustc, prev, tc.host))
      && DidAfter(cfg, tr, s, Std(prev, tc.host), Cargo(ToolRustc, prev, tc.host))
  {
    hide Body, SysrootDir, DidAfter;
    var s, n := Rustdoc(tc), |Body(cfg, Rustdoc(tc))|;
    RustdocWaits(cfg, roots, tr, tc);
    RustdocEnds(cfg, tc);
    var i := ActionHappened(cfg, roots, tr, s, n - 3);
    var k := ActionHappened(cfg, roots, tr, s, n - 1);
    LaterEvent(cfg, roots, tr, s, i, k);
    assert Happens(cfg, tr, i, Cargo(ToolRustc, Compiler(tc.stage - 1, cfg.build), tc.host));
    assert Happens(cfg, tr, k, CopyInto(SysrootDir(cfg.layout, tc) + ["bin"]));
  }

  lemma RustdocWaits(cfg: Config, roots: set<Step>, tr: Trace, tc: Compiler)
    requires IsRun(cfg, roots, tr) && Done(cfg, tr, Rustdoc(tc)) && tc.stage > 0 && !cfg.dryRun
    ensures var s, prev := Rustdoc(tc), Compiler(tc.stage - 1, cfg.build);
      && DidAfter(cfg, tr, s, Assemble(prev), Cargo(ToolRustc, prev, tc.host))
      && DidAfter(cfg, tr, s, Std(prev, tc.host), Cargo(ToolRustc, prev, tc.host))
  {
    hide Body, DidAfter;
    var s, prev, body := Rustdoc(tc), Compiler(tc.stage - 1, cfg.build), Body(cfg, Rustdoc(tc));
    var build := Cargo(ToolRustc, prev, tc.host);
    RustdocEnds(cfg, tc);
    assert body[|body| - 3] == Do(build);
    assert Then(body, Assemble(prev), build) && Then(body, Std(prev, tc.host), build);
    EffectDidAfter(cfg, roots, tr, s, Assemble(prev), build);
    EffectDidAfter(cfg, roots, tr, s, Std(prev, tc.host), build);
  }

  lemma RustdocEnds(cfg: Config, tc: Compiler)
    requires tc.stage > 0 && !cfg.dryRun
    ensures var body, prev := Body(cfg, Rustdoc(tc)), Compiler(tc.stage - 1, cfg.build);
      && |body| >= 6 && body[0] == Need(Assemble(prev)) && body[1] == Need(Std(prev, tc.host))
      && body[|body| - 3] == Do(Cargo(ToolRustc, Compiler(tc.stage - 1, cfg.build), tc.host))
      && body[|body| - 1] == Do(CopyInto(SysrootDir(cfg.layout, tc) + ["bin"]))
  {
    hide PrepareCargo, SysrootDir;
    var prev := Compiler(tc.stage - 1, cfg.build);
    var acts := Ask(Ask(Ask([], Assemble(prev)), Std(prev, tc.host)), Rustc(prev, tc.host));
    PrepareExtends(cfg, acts, prev, ToolRustc, tc.host);
  }

  /** Native libraries are built with the LLVM of the build triple, and the linker with the target's. */
  lemma NativeBuilt(cfg: Config, roots: set<Step>, tr: Trace, t: Target)
    requires IsRun(cfg, roots, tr)
    ensures Done(cfg, tr, Llvm(t)) && t != cfg.build && !cfg.llvmPrebuilt(t) ==> Done(cfg, tr, Llvm(cfg.build))
    ensures Done(cfg, tr, Lld(t)) && !cfg.dryRun ==> Done(cfg, tr, Llvm(t))
    ensures Done(cfg, tr, Sanitizers(t)) && cfg.hasSanitizers(t) ==> Done(cfg, tr, Llvm(cfg.build))
    ensures forall c, flavor :: Done(cfg, tr, LldWrapper(c, t, flavor)) ==>
      Done(cfg, tr, ToolBuild(c, t, "lld-wrapper", ToolStd, [flavor]))
  {
    NativeAsks(cfg, t);
    hide Body;
    if Done(cfg, tr, Llvm(t)) && t != cfg.build && !cfg.llvmPrebuilt(t) {
      RequestDone(cfg, roots, tr, Llvm(t), Llvm(cfg.build));
    }
    if Done(cfg, tr, Lld(t)) && !cfg.dryRun {
      RequestDone(cfg, roots, tr, Lld(t), Llvm(t));
    }
    if Done(cfg, tr, Sanitizers(t)) && cfg.hasSanitizers(t) {
      RequestDone(cfg, roots, tr, Sanitizers(t), Llvm(cfg.build));
    }
    forall c, flavor | Done(cfg, tr, LldWrapper(c, t, flavor))
      ensures Done(cfg, tr, ToolBuild(c, t, "lld-wrapper", ToolStd, [flavor]))
    {
      WrapperAsks(cfg, c, t, flavor);
      RequestDone(cfg, roots, tr, LldWrapper(c, t, flavor), ToolBuild(c, t, "lld-wrapper", ToolStd, [flavor]));
    }
  }

  lemma NativeAsks(cfg: Config, t: Target)
    ensures t != cfg.build && !cfg.llvmPrebuilt(t) ==> Need(Llvm(cfg.build)) in Body(cfg, Llvm(t))
    ensures !cfg.dryRun ==> Need(Llvm(t)) in Body(cfg, Lld(t))
    ensures cfg.hasSanitizers(t) ==> Need(Llvm(cfg.build)) in Body(cfg, Sanitizers(t))
  {
  }

  lemma WrapperAsks(cfg: Config, c: Compiler, t: Target, flavor: string)
    ensures Need(ToolBuild(c, t, "lld-wrapper", ToolStd, [flavor])) in Body(cfg, LldWrapper(c, t, flavor))
  {
  }

  // ---------------------------------------------------------------- directories

  /** A prepared sysroot has been wiped and holds the sources or, if the compiler is downloaded, that
      compiler; a prepared library directory has been wiped, after its sysroot. */
  lemma DirectoriesPrepared(cfg: Config, roots: set<Step>, tr: Trace, c: Compiler, t: Target)
    requires IsRun(cfg, roots, tr)
    ensures Done(cfg, tr, Sysroot(c)) ==>
      var s, root := Sysroot(c), SysrootDir(cfg.layout, c);
      && Did(cfg, tr, s, Wipe(root))
      && (!cfg.downloadRustc || c.stage == 0 ==> Did(cfg, tr, s, CopyInto(root + ["lib", "rustlib", "src"])))
      && (cfg.downloadRustc && c.stage != 0 && !cfg.dryRun ==> Did(cfg, tr, s, CopyInto(root)))
      && (cfg.downloadRustc && c.stage != 0 ==> Did(cfg, tr, s, AssertNotCross(c.host)))
    ensures Done(cfg, tr, LibdirOf(c, t)) && !cfg.downloadRustc ==>
      DidAfter(cfg, tr, LibdirOf(c, t), Sysroot(c), Wipe(Libdir(cfg.layout, c, t)))
    ensures Done(cfg, tr, StartupObjects(c, t)) && Contains(t.triple, "windows-gnu") && !cfg.dryRun ==>
      DidAfter(cfg, tr, StartupObjects(c, t), LibdirOf(c, t), CopyInto(Libdir(cfg.layout, c, t)))
  {
    SysrootHas(cfg, c);
    LibdirHas(cfg, c, t);
    hide Body, SysrootDir, Libdir, Did, DidAfter, Then;
    if Done(cfg, tr, Sysroot(c)) {
      var s, root := Sysroot(c), SysrootDir(cfg.layout, c);
      EffectDid(cfg, roots, tr, s, Wipe(root));
      if !cfg.downloadRustc || c.stage == 0 {
        EffectDid(cfg, roots, tr, s, CopyInto(root + ["lib", "rustlib", "src"]));
      } else {
        EffectDid(cfg, roots, tr, s, AssertNotCross(c.host));
        if !cfg.dryRun {
          EffectDid(cfg, roots, tr, s, CopyInto(root));
        }
      }
    }
    if Done(cfg, tr, LibdirOf(c, t)) && !cfg.downloadRustc {
      EffectDidAfter(cfg, roots, tr, LibdirOf(c, t), Sysroot(c), Wipe(Libdir(cfg.layout, c, t)));
    }
    if Done(cfg, tr, StartupObjects(c, t)) && Contains(t.triple, "windows-gnu") && !cfg.dryRun {
      EffectDidAfter(cfg, roots, tr, StartupObjects(c, t), LibdirOf(c, t), CopyInto(Libdir(cfg.layout, c, t)));
    }
  }

  lemma SysrootHas(cfg: Config, c: Compiler)
    ensures var body, root := Body(cfg, Sysroot(c)), SysrootDir(cfg.layout, c);
      && Do(Wipe(root)) in body
      && (!cfg.downloadRustc || c.stage == 0 ==> Do(CopyInto(root + ["lib", "rustlib", "src"])) in body)
      && (cfg.downloadRustc && c.stage != 0 ==> Do(AssertNotCross(c.host)) in body)
      && (cfg.downloadRustc && c.stage != 0 && !cfg.dryRun ==> Do(CopyInto(root)) in body)
  {
    hide SysrootDir;
    var body := Body(cfg, Sysroot(c));
    assert body[0] == Do(Wipe(SysrootDir(cfg.layout, c)));
    assert body[|body| - 1] in body && body[1] in body;
  }

  lemma LibdirHas(cfg: Config, c: Compiler, t: Target)
    ensures !cfg.downloadRustc ==> Then(Body(cfg, LibdirOf(c, t)), Sysroot(c), Wipe(Libdir(cfg.layout, c, t)))
    ensures Contains(t.triple, "windows-gnu") && !cfg.dryRun ==>
      Then(Body(cfg, StartupObjects(c, t)), LibdirOf(c, t), CopyInto(Libdir(cfg.layout, c, t)))
  {
    hide Libdir;
    var body := Body(cfg, LibdirOf(c, t));
    if !cfg.downloadRustc {
      assert body[0] == Need(Sysroot(c)) && body[1] == Do(Wipe(Libdir(cfg.layout, c, t)));
    }
    var startup := Body(cfg, StartupObjects(c, t));
    if Contains(t.triple, "windows-gnu") && !cfg.dryRun {
      assert startup[0] == Need(LibdirOf(c, t)) && startup[1] == Do(CopyInto(Libdir(cfg.layout, c, t)));
    }
  }

  // ---------------------------------------------------------------- kept and downloaded stages

  /** With a kept stage nothing is built for it: the library and the compiler are linked from what that
      stage built before. */
  lemma KeptIsLinked(cfg: Config, roots: set<Step>, tr: Trace, c: Compiler, t: Target)
    requires IsRun(cfg, roots, tr) && !(cfg.downloadRustc && c.stage != 0)
    ensures Done(cfg, tr, Std(c, t)) && (c.stage in cfg.keepStage || c.stage in cfg.keepStageStd) ==>
      Done(cfg, tr, StdLink(c, c, t)) && forall e :: !Did(cfg, tr, Std(c, t), e)
    ensures Done(cfg, tr, Rustc(c, t)) && c.stage in cfg.keepStage ==>
      Done(cfg, tr, RustcLink(c, c, t)) && Done(cfg, tr, Std(c, t)) && forall e :: !Did(cfg, tr, Rustc(c, t), e)
  {
    KeptBodies(cfg, c, t);
    hide Body;
    if Done(cfg, tr, Std(c, t)) && (c.stage in cfg.keepStage || c.stage in cfg.keepStageStd) {
      RequestDone(cfg, roots, tr, Std(c, t), StdLink(c, c, t));
    }
    if Done(cfg, tr, Rustc(c, t)) && c.stage in cfg.keepStage {
      RequestDone(cfg, roots, tr, Rustc(c, t), RustcLink(c, c, t));
      RequestDone(cfg, roots, tr, Rustc(c, t), Std(c, t));
    }
  }

  /** With a downloaded compiler the later stages build nothing: their sysroot is prepared, and that is
      where the compiler is.  The snapshot is only checked to be for the build triple. */
  lemma DownloadedIsThere(cfg: Config, roots: set<Step>, tr: Trace, c: Compiler, t: Target)
    requires IsRun(cfg, roots, tr)
    ensures cfg.downloadRustc && c.stage != 0 ==>
      && (Done(cfg, tr, Rustc(c, t)) ==> Done(cfg, tr, Sysroot(c)))
      && forall e :: !Did(cfg, tr, Std(c, t), e) && !Did(cfg, tr, Rustc(c, t), e) && !Did(cfg, tr, Assemble(c), e)
    ensures c.stage == 0 && Done(cfg, tr, Assemble(c)) ==> Did(cfg, tr, Assemble(c), AssertBuildHost(c.host))
    ensures c.stage == 0 && Done(cfg, tr, Rustdoc(c)) ==> Did(cfg, tr, Rustdoc(c), AssertBuildHost(c.host))
  {
    DownloadedBodies(cfg, c, t);
    hide Body;
    if cfg.downloadRustc && c.stage != 0 && Done(cfg, tr, Rustc(c, t)) {
      RequestDone(cfg, roots, tr, Rustc(c, t), Sysroot(c));
    }
    if c.stage == 0 && Done(cfg, tr, Assemble(c)) {
      EffectDid(cfg, roots, tr, Assemble(c), AssertBuildHost(c.host));
    }
    if c.stage == 0 && Done(cfg, tr, Rustdoc(c)) {
      EffectDid(cfg, roots, tr, Rustdoc(c), AssertBuildHost(c.host));
    }
  }

  lemma DownloadedBodies(cfg: Config, c: Compiler, t: Target)
    ensures cfg.downloadRustc && c.stage != 0 ==>
      && Body(cfg, Std(c, t)) == [] && Body(cfg, Rustc(c, t)) == [Need(Sysroot(c))]
      && Body(cfg, Assemble(c)) == [Need(Assemble(Compiler(c.stage - 1, cfg.build))), Need(Sysroot(c))]
    ensures c.stage == 0 ==>
      Body(cfg, Assemble(c)) == [Do(AssertBuildHost(c.host))] && Body(cfg, Rustdoc(c)) == [Do(AssertBuildHost(c.host))]
  {
  }

  lemma KeptBodies(cfg: Config, c: Compiler, t: Target)
    requires !(cfg.downloadRustc && c.stage != 0)
    ensures c.stage in cfg.keepStage || c.stage in cfg.keepStageStd ==> Body(cfg, Std(c, t)) == [Need(StdLink(c, c, t))]
    ensures c.stage in cfg.keepStage ==> Body(cfg, Rustc(c, t)) == [Need(Std(c, t)), Need(RustcLink(c, c, t))]
  {
  }
}
