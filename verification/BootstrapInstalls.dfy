/** What an assembly leaves behind, and the other steps that copy: a finished step has put its files
    where they belong, after what they are made of was built. */
module BootstrapInstalls {
  import opened Basics
  import opened Scheduler
  import opened Runs
  import opened RunTheorems
  import opened Naming
  import opened Bootstrap
  import opened BootstrapLocal
  import opened BootstrapBodies
  import opened BootstrapRuns
  import opened BootstrapResults

  // ---------------------------------------------------------------- the parts of an assembly

  /** The actions of an assembly up to the build of the new compiler, up to the filling of its sysroot,
      up to the tools, and all of them. */
  datatype Parts = Parts(from: seq<Act>, sysroot: seq<Act>, tools: seq<Act>, all: seq<Act>)

  function PartsOf(cfg: Config, tc: Compiler): Parts
    requires tc.stage > 0
  {
    var bc := Compiler(tc.stage - 1, cfg.build);
    var from := AssembleFrom(cfg, Ask([], Assemble(bc)), bc, tc);
    var sysroot := AssembleSysroot(cfg, from, bc, tc);
    var tools := AssembleTools(cfg, sysroot, bc, tc);
    Parts(from, sysroot, tools, AssembleEnd(cfg, tools, tc))
  }

  lemma PartsGrow(cfg: Config, tc: Compiler)
    requires tc.stage > 0 && !cfg.downloadRustc
    ensures var p := PartsOf(cfg, tc); p.from <= p.sysroot <= p.tools <= p.all == Body(cfg, Assemble(tc))
  {
    hide AssembleFrom, AssembleSysroot, AssembleTools, AssembleEnd;
    var p, bc := PartsOf(cfg, tc), Compiler(tc.stage - 1, cfg.build);
    SysrootExtends(cfg, p.from, bc, tc);
    ToolsExtend(cfg, p.sysroot, bc, tc);
    EndExtends(cfg, p.tools, tc);
  }

  lemma FromAsks(cfg: Config, acts: seq<Act>, bc: Compiler, tc: Compiler)
    ensures var r := AssembleFrom(cfg, acts, bc, tc);
      && Need(Rustc(bc, tc.host)) in r && (cfg.lldEnabled ==> Need(Lld(tc.host)) in r)
      && forall b :: b in cfg.backends && b != "llvm" ==> Need(CodegenBackend(bc, tc.host, b)) in r
  {
    hide BackendSteps;
    var a1 := Ask(acts, Rustc(bc, tc.host));
    var a2 := BackendSteps(cfg, a1, bc, tc.host, |cfg.backends|);
    BackendStepsExtend(cfg, a1, bc, tc.host, |cfg.backends|);
    assert a1[|acts|] == Need(Rustc(bc, tc.host));
    assert a2[|acts|] == Need(Rustc(bc, tc.host));
    forall b | b in cfg.backends && b != "llvm" ensures Need(CodegenBackend(bc, tc.host, b)) in a2 {
      BackendStepsAsk(cfg, a1, bc, tc.host, |cfg.backends|, b);
    }
  }

  lemma {:induction false} BackendStepsAsk(cfg: Config, acts: seq<Act>, c: Compiler, t: Target, n: nat, b: string)
    requires n <= |cfg.backends| && b in cfg.backends[..n] && b != "llvm"
    ensures Need(CodegenBackend(c, t, b)) in BackendSteps(cfg, acts, c, t, n)
    decreases n
  {
    if cfg.backends[n - 1] != b {
      assert b in cfg.backends[..n - 1];
      BackendStepsAsk(cfg, acts, c, t, n - 1, b);
    }
  }

  lemma {:induction false} BackendCopiesInstall(cfg: Config, acts: seq<Act>, bc: Compiler, tc: Compiler, n: nat,
      b: string)
    requires n <= |cfg.backends| && b in cfg.backends[..n] && b != "llvm" && !cfg.dryRun
    ensures Do(Install(tc, BackendFile(b))) in BackendCopies(cfg, acts, bc, tc, n)
    decreases n
  {
    if cfg.backends[n - 1] != b {
      assert b in cfg.backends[..n - 1];
      BackendCopiesInstall(cfg, acts, bc, tc, n - 1, b);
    }
  }

  /** Where rustc's own shared libraries go. */
  function LibraryDir(cfg: Config, tc: Compiler): Path {
    SysrootDir(cfg.layout, tc)
    + match cfg.layout.libdirRelative {
        case Some(dir) => dir
        case None => if Contains(tc.host.triple, "windows") then ["bin"] else ["lib"]
      }
  }

  lemma SysrootFills(cfg: Config, acts: seq<Act>, bc: Compiler, tc: Compiler)
    requires !cfg.dryRun
    ensures var r := AssembleSysroot(cfg, acts, bc, tc);
      && acts <= r && Do(CopyInto(LibraryDir(cfg, tc))) in r[|acts|..]
      && forall b :: b in cfg.backends && b != "llvm" ==> Do(Install(tc, BackendFile(b))) in r
  {
    hide BackendCopies, SysrootDir;
    var a1 := Ask(Ask(acts, Sysroot(tc)), LibdirOf(bc, tc.host));
    var a2 := Perform(a1, CopyInto(RustcLibdir(cfg, tc)));
    var a3 := Ask(a2, LibdirOf(tc, tc.host));
    var r := BackendCopies(cfg, a3, bc, tc, |cfg.backends|);
    BackendCopiesExtend(cfg, a3, bc, tc, |cfg.backends|);
    assert r[|acts| + 2] == a3[|acts| + 2] == Do(CopyInto(RustcLibdir(cfg, tc)));
    assert r[|acts|..][2] == r[|acts| + 2];
    assert cfg.backends[..|cfg.backends|] == cfg.backends;
    forall b | b in cfg.backends && b != "llvm" ensures Do(Install(tc, BackendFile(b))) in r {
      BackendCopiesInstall(cfg, a3, bc, tc, |cfg.backends|, b);
    }
  }

  lemma EndInstalls(cfg: Config, acts: seq<Act>, tc: Compiler)
    requires !cfg.dryRun
    ensures acts <= AssembleEnd(cfg, acts, tc) && Do(Install(tc, RustcBinary)) in AssembleEnd(cfg, acts, tc)
    ensures cfg.llvmLinkShared && cfg.installsLlvm(tc.host) ==>
      var r, root := AssembleEnd(cfg, acts, tc), SysrootDir(cfg.layout, tc);
      && Do(CopyInto(root + LibdirRelative(cfg.layout, 1))) in r[|acts|..]
      && Do(CopyInto(root + ["lib", "rustlib", tc.host.triple, "lib"])) in r[|acts|..]
  {
    hide SysrootDir, LibdirRelative;
    var r, root := AssembleEnd(cfg, acts, tc), SysrootDir(cfg.layout, tc);
    assert r[|r| - 1] == Do(Install(tc, RustcBinary));
    if cfg.llvmLinkShared && cfg.installsLlvm(tc.host) {
      assert r[|acts|..][0] == Do(CopyInto(root + LibdirRelative(cfg.layout, 1)));
      assert r[|acts|..][1] == Do(CopyInto(root + ["lib", "rustlib", tc.host.triple, "lib"]));
    }
  }

  // ---------------------------------------------------------------- the new compiler

  /** `tc`'s assembly has had effect `e`, after Cargo built `mode` for the host with `source`. */
  ghost predicate PutAfterBuild(cfg: Config, tr: Trace, tc: Compiler, e: Effect, mode: Mode, source: Compiler) {
    exists j: nat, i: nat :: j < i && PutAt(cfg, tr, tc, e, i) && Happens(cfg, tr, j, Cargo(mode, source, tc.host))
  }

  ghost predicate PutAt(cfg: Config, tr: Trace, tc: Compiler, e: Effect, i: nat) {
    Happens(cfg, tr, i, e) && tr[i].step == Assemble(tc)
  }

  /** A finished assembly has installed the compiler, every configured backend but LLVM, and rustc's
      libraries.  This holds whatever is kept from earlier runs. */
  lemma AssemblyInstalls(cfg: Config, roots: set<Step>, tr: Trace, tc: Compiler)
    requires IsRun(cfg, roots, tr) && Done(cfg, tr, Assemble(tc)) && tc.stage > 0 && !cfg.downloadRustc && !cfg.dryRun
    ensures Did(cfg, tr, Assemble(tc), Install(tc, RustcBinary))
    ensures forall b :: b in cfg.backends && b != "llvm" ==> Did(cfg, tr, Assemble(tc), Install(tc, BackendFile(b)))
    ensures var prev := Compiler(tc.stage - 1, cfg.build);
      DidAfter(cfg, tr, Assemble(tc), Rustc(prev, tc.host), CopyInto(LibraryDir(cfg, tc)))
  {
    hide Body, AssembleFrom, AssembleSysroot, AssembleTools, AssembleEnd, LibraryDir, Then;
    var bc, p, s := Compiler(tc.stage - 1, cfg.build), PartsOf(cfg, tc), Assemble(tc);
    PartsGrow(cfg, tc);
    FromAsks(cfg, Ask([], Assemble(bc)), bc, tc);
    SysrootFills(cfg, p.from, bc, tc);
    EndInstalls(cfg, p.tools, tc);
    EffectDid(cfg, roots, tr, s, Install(tc, RustcBinary));
    forall b | b in cfg.backends && b != "llvm" ensures Did(cfg, tr, s, Install(tc, BackendFile(b))) {
      EffectDid(cfg, roots, tr, s, Install(tc, BackendFile(b)));
    }
    ThenIn(p.from, p.sysroot, Rustc(bc, tc.host), CopyInto(LibraryDir(cfg, tc)));
    ThenExtends(p.sysroot, p.all, Rustc(bc, tc.host), CopyInto(LibraryDir(cfg, tc)));
    EffectDidAfter(cfg, roots, tr, s, Rustc(bc, tc.host), CopyInto(LibraryDir(cfg, tc)));
  }

  /** The compiler that builds what `tc` is made of: one stage earlier, or stage 1 where the artifacts of
      later stages are lifted from there. */
  function BuilderOf(cfg: Config, tc: Compiler): Compiler
    requires tc.stage > 0
  {
    if cfg.fullBootstrap || tc.stage <= 2 || (tc.host != cfg.build && tc.host !in cfg.hosts)
    then Compiler(tc.stage - 1, cfg.build)
    else Compiler(1, cfg.build)
  }

  /** In a fresh build everything that an assembly installs was built before that, in the same run, by
      the build triple's compiler of the stage before (or, where artifacts are lifted, of stage 1). */
  lemma AssemblyInstallsWhatWasBuilt(cfg: Config, roots: set<Step>, tr: Trace, tc: Compiler)
    requires IsRun(cfg, roots, tr) && ProperRequests(cfg, roots) && FreshBuild(cfg) && !cfg.dryRun
    requires Done(cfg, tr, Assemble(tc)) && tc.stage > 0
    ensures PutAfterBuild(cfg, tr, tc, Install(tc, RustcBinary), ModeRustc, BuilderOf(cfg, tc))
    ensures PutAfterBuild(cfg, tr, tc, CopyInto(LibraryDir(cfg, tc)), ModeRustc, BuilderOf(cfg, tc))
    ensures forall b :: b in cfg.backends && b != "llvm" ==>
      && PutAfterBuild(cfg, tr, tc, Install(tc, BackendFile(b)), ModeCodegen, BuilderOf(cfg, tc))
      && BackendBuilt(cfg, tr, BuilderOf(cfg, tc), tc.host, b)
  {
    hide Body, LibraryDir, BackendBuilt, BuilderOf;
    var s, prev := Assemble(tc), Compiler(tc.stage - 1, cfg.build);
    AssemblyInstalls(cfg, roots, tr, tc);
    var i: nat :| Happens(cfg, tr, i, Install(tc, RustcBinary)) && tr[i].step == s;
    InstallFollowsBuild(cfg, roots, tr, i, tc, RustcBinary);
    var e := CopyInto(LibraryDir(cfg, tc));
    var m: nat :| Happens(cfg, tr, m, e) && tr[m].step == s && Done(cfg, tr[..m], Rustc(prev, tc.host));
    RustcBuiltBefore(cfg, roots, tr, m, tc);
    assert PutAt(cfg, tr, tc, e, m);
    forall b | b in cfg.backends && b != "llvm"
      ensures PutAfterBuild(cfg, tr, tc, Install(tc, BackendFile(b)), ModeCodegen, BuilderOf(cfg, tc))
      ensures BackendBuilt(cfg, tr, BuilderOf(cfg, tc), tc.host, b)
    {
      var k: nat :| Happens(cfg, tr, k, Install(tc, BackendFile(b))) && tr[k].step == s;
      InstallFollowsBuild(cfg, roots, tr, k, tc, BackendFile(b));
    }
  }

  /** Whatever is installed with a compiler: the build comes first. */
  lemma InstallFollowsBuild(cfg: Config, roots: set<Step>, tr: Trace, i: nat, tc: Compiler, f: Input)
    requires IsRun(cfg, roots, tr) && ProperRequests(cfg, roots) && FreshBuild(cfg) && !cfg.dryRun
    requires Happens(cfg, tr, i, Install(tc, f))
    ensures tr[i].step == Assemble(tc) && tc.stage > 0
    ensures f.RustcBinary? ==> PutAfterBuild(cfg, tr, tc, Install(tc, f), ModeRustc, BuilderOf(cfg, tc))
    ensures f.BackendFile? ==>
      && f.name in cfg.backends && f.name != "llvm"
      && PutAfterBuild(cfg, tr, tc, Install(tc, f), ModeCodegen, BuilderOf(cfg, tc))
      && BackendBuilt(cfg, tr, BuilderOf(cfg, tc), tc.host, f.name)
  {
    hide Body, Notes, CopyGuarded, BackendBuilt, BuilderOf;
    LocalAt(cfg, tr[i].step, tr[i].count - 1);
    var prev := Compiler(tc.stage - 1, cfg.build);
    assert PutAt(cfg, tr, tc, Install(tc, f), i);
    match f
    case RustcBinary =>
      NeededDone(cfg, roots, tr, i, Rustc(prev, tc.host));
      RustcBuiltBefore(cfg, roots, tr, i, tc);
    case BackendFile(b) =>
      NeededDone(cfg, roots, tr, i, CodegenBackend(prev, tc.host, b));
      CodegenBuiltBefore(cfg, roots, tr, i, tc, b);
  }

  lemma RustcBuiltBefore(cfg: Config, roots: set<Step>, tr: Trace, i: nat, tc: Compiler)
    requires IsRun(cfg, roots, tr) && ProperRequests(cfg, roots) && FreshBuild(cfg) && !cfg.dryRun && tc.stage > 0
    requires i <= |tr| && Done(cfg, tr[..i], Rustc(Compiler(tc.stage - 1, cfg.build), tc.host))
    ensures HappenedBefore(cfg, tr, i, Cargo(ModeRustc, BuilderOf(cfg, tc), tc.host))
  {
    hide Body, LinkReads;
    LegalPrefix(BootstrapPlan(cfg), roots, tr, i);
    var prev, source := Compiler(tc.stage - 1, cfg.build), BuilderOf(cfg, tc);
    RustcGiven(cfg, roots, tr[..i], prev, tc.host);
    assert Given(cfg, tr[..i], ModeRustc, source, prev, tc.host);
    var j: nat, k: nat :| j < k && Happens(cfg, tr[..i], j, Cargo(ModeRustc, source, tc.host))
      && LinkReads(cfg, tr[..i], k, ModeRustc, source, prev, tc.host);
    PrefixHappens(cfg, tr, i, j, Cargo(ModeRustc, source, tc.host));
  }

  lemma CodegenBuiltBefore(cfg: Config, roots: set<Step>, tr: Trace, i: nat, tc: Compiler, b: string)
    requires IsRun(cfg, roots, tr) && ProperRequests(cfg, roots) && FreshBuild(cfg) && !cfg.dryRun && tc.stage > 0
    requires i <= |tr| && Done(cfg, tr[..i], CodegenBackend(Compiler(tc.stage - 1, cfg.build), tc.host, b))
    ensures HappenedBefore(cfg, tr, i, Cargo(ModeCodegen, BuilderOf(cfg, tc), tc.host))
    ensures BackendBuilt(cfg, tr, BuilderOf(cfg, tc), tc.host, b)
  {
    hide Body;
    LegalPrefix(BootstrapPlan(cfg), roots, tr, i);
    var prev, source := Compiler(tc.stage - 1, cfg.build), BuilderOf(cfg, tc);
    CodegenGiven(cfg, roots, tr[..i], prev, tc.host, b);
    assert BackendBuilt(cfg, tr[..i], source, tc.host, b);
    var j: nat, k: nat :| j < k && BackendBuiltAt(cfg, tr[..i], j, k, source, tc.host, b);
    PrefixHappens(cfg, tr, i, j, Cargo(ModeCodegen, source, tc.host));
    PrefixHappens(cfg, tr, i, k, WriteStamp(BackendStamp(source, tc.host, b)));
    assert BackendBuiltAt(cfg, tr, j, k, source, tc.host, b);
  }

  /** Where the files of a compiler are: in its sysroot and beside its library directory; the snapshot
      has a directory of its own. */
  lemma InstalledWhere(l: Layout, tc: Compiler, b: string)
    ensures var root := l.out + [tc.host.triple, "stage" + Decimal(tc.stage)];
      && InputDir(l, tc, RustcBinary) == root + ["bin"]
      && (tc.stage > 0 && l.libdirRelative == None ==>
            InputDir(l, tc, BackendFile(b)) == root + ["lib", "rustlib", tc.host.triple, "codegen-backends"])
  {
    assert "stage" + Decimal(tc.stage) + "" == "stage" + Decimal(tc.stage);
    assert tc.stage == 0 ==> "stage" + Decimal(tc.stage) == "stage0" by {
      assert Decimal(0) == "0";
      assert "stage" + "0" == "stage0";
    }
  }
}
