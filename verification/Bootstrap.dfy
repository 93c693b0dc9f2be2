/**
 The staged bootstrap plan: what each step requests and does, in order, as a function of the
 configuration.  It is the plan the scheduler runs.
 */
module Bootstrap {
  import opened Scheduler
  import opened Naming

  /** The configuration a run starts from.  The last fields answer questions about the outside
      world: whether an LLVM for the target is already in place, and so on. */
  datatype Config = Config(
    layout: Layout,
    build: Target,
    hosts: seq<Target>,
    fullBootstrap: bool,
    downloadRustc: bool,
    keepStage: seq<nat>,
    keepStageStd: seq<nat>,
    backends: seq<string>,
    lldEnabled: bool,
    dryRun: bool,
    checkKind: bool,
    inTreeLibunwind: bool,
    llvmLinkShared: bool,
    sanitizersEnabled: Target -> bool,
    hasSanitizers: Target -> bool,
    llvmPrebuilt: Target -> bool,
    installsLlvm: Target -> bool)

  datatype Step =
    | Assemble(compiler: Compiler)
    | Std(compiler: Compiler, target: Target)
    | StdLink(compiler: Compiler, targetCompiler: Compiler, target: Target)
    | StartupObjects(compiler: Compiler, target: Target)
    | Rustc(compiler: Compiler, target: Target)
    | RustcLink(compiler: Compiler, targetCompiler: Compiler, target: Target)
    | CodegenBackend(compiler: Compiler, target: Target, backend: string)
    | Sysroot(compiler: Compiler)
    | LibdirOf(compiler: Compiler, target: Target)
    | Llvm(target: Target)
    | Lld(target: Target)
    | Sanitizers(target: Target)
    | CrtBeginEnd(target: Target)
    | Libunwind(target: Target)
    | ToolBuild(compiler: Compiler, target: Target, tool: string, mode: Mode, features: seq<string>)
    | LldWrapper(compiler: Compiler, target: Target, flavor: string)
    | Rustdoc(compiler: Compiler)

  /** A file of an assembled compiler that must not be newer than what the compiler built. */
  datatype Input = RustcBinary | BackendFile(name: string)

  datatype Effect =
    | Wipe(dir: Path)                           // remove a directory tree and make it anew
    | CopyInto(dir: Path)                       // put files into a directory
    | Cargo(mode: Mode, compiler: Compiler, target: Target)
    | WriteStamp(stamp: StampId)
    | ReadStamp(stamp: StampId)
    | Install(compiler: Compiler, input: Input) // copy one file that staleness checks look at
    | ClearIfDirty(compiler: Compiler, mode: Mode, input: Input) // empty the Cargo output if the file is newer
    | AssertBuildHost(host: Target)             // panic unless `host` is the build triple
    | AssertNotCross(host: Target)              // the same for a downloaded compiler

  datatype Output = Nothing | Built(compiler: Compiler) | Directory(dir: Path)

  type Act = Action<Step, Effect>

  // ---------------------------------------------------------------- names of targets

  predicate Contains(s: string, needle: string) {
    exists i :: 0 <= i <= |s| && needle <= s[i..]
  }

  predicate EndsWith(s: string, needle: string) {
    |needle| <= |s| && s[|s| - |needle|..] == needle
  }

  // ---------------------------------------------------------------- pieces of step bodies

  /** `force_use_stage1` */
  predicate ForceUseStage1(cfg: Config, c: Compiler, t: Target) {
    !cfg.fullBootstrap && c.stage >= 2 && (t in cfg.hosts || t == cfg.build)
  }

  /** `compiler_for` */
  function CompilerFor(cfg: Config, c: Compiler, t: Target): Compiler {
    if ForceUseStage1(cfg, c, t) then Compiler(1, cfg.build) else c
  }

  predicate LlvmEnabled(cfg: Config) { "llvm" in cfg.backends }

  /** A step body is written down in program order, each piece extending the actions so far. */
  function Ask(acts: seq<Act>, s: Step): seq<Act> { acts + [Need(s)] }

  function Perform(acts: seq<Act>, e: Effect): seq<Act> { acts + [Do(e)] }

  function AskIf(b: bool, acts: seq<Act>, s: Step): seq<Act> { if b then Ask(acts, s) else acts }

  /** Files are copied, read and written only outside a dry run. */
  function ForReal(cfg: Config, acts: seq<Act>, e: Effect): seq<Act> {
    if cfg.dryRun then acts else Perform(acts, e)
  }

  /** Where the files of a compiler are; the snapshot is unpacked outside every sysroot. */
  function InputDir(l: Layout, c: Compiler, f: Input): Path {
    match f
    case RustcBinary => (if c.stage == 0 then l.out + [c.host.triple, "stage0"] else SysrootDir(l, c)) + ["bin"]
    case BackendFile(_) => RustlibDir(l, c, c.host) + ["codegen-backends"]
  }

  /** The assembly of `c` leaves a file for backend `b`. */
  predicate HasBackend(cfg: Config, c: Compiler, b: string) {
    b in cfg.backends && b != "llvm" && c.stage > 0 && !cfg.dryRun && !cfg.downloadRustc
  }

  /** The checks against the first `n` configured backends, as far as they are installed. */
  function CheckBackends(cfg: Config, acts: seq<Act>, c: Compiler, mode: Mode, n: nat): seq<Act>
    requires n <= |cfg.backends|
  {
    if n == 0 then acts
    else
      var acts := CheckBackends(cfg, acts, c, mode, n - 1);
      var b := cfg.backends[n - 1];
      if HasBackend(cfg, c, b) then Perform(acts, ClearIfDirty(c, mode, BackendFile(b))) else acts
  }

  /** `Builder::cargo` up to the last staleness check of the output directory. */
  function CheckOutput(cfg: Config, acts: seq<Act>, c: Compiler, mode: Mode): seq<Act> {
    var acts := Ask(acts, LibdirOf(c, c.host));
    var acts := CheckBackends(cfg, acts, c, mode, |cfg.backends|);
    var acts := Ask(acts, Sysroot(c));
    if mode == ModeStd && !cfg.dryRun then Perform(acts, ClearIfDirty(c, mode, RustcBinary)) else acts
  }

  /** `Builder::cargo`: the requests and directory clearing it does before Cargo is spawned. */
  function PrepareCargo(cfg: Config, acts: seq<Act>, c: Compiler, mode: Mode, t: Target): seq<Act> {
    var acts := CheckOutput(cfg, acts, c, mode);
    var wantsLlvm := (mode == ToolRustc || mode == ModeCodegen) && LlvmEnabled(cfg) && !cfg.checkKind && !cfg.dryRun;
    AskIf(wantsLlvm, acts, Llvm(t))
  }

  /** `rustc_cargo_env` */
  function RustcCargoEnv(cfg: Config, acts: seq<Act>, t: Target): seq<Act> {
    AskIf(LlvmEnabled(cfg) && (!cfg.checkKind || cfg.llvmPrebuilt(t)), acts, Llvm(t))
  }

  /** `run_cargo`: build, then write the stamp. */
  function RunCargo(cfg: Config, acts: seq<Act>, mode: Mode, c: Compiler, t: Target, stamp: StampId): seq<Act> {
    var acts := ForReal(cfg, acts, Cargo(mode, c, t));
    ForReal(cfg, acts, WriteStamp(stamp))
  }

  predicate WantsLibunwind(cfg: Config, t: Target) {
    || t.triple == "x86_64-fortanix-unknown-sgx"
    || (cfg.inTreeLibunwind && (Contains(t.triple, "linux") || Contains(t.triple, "fuchsia")))
  }

  /** `copy_sanitizers`, for the stages that have an LLVM. */
  function CopySanitizers(cfg: Config, acts: seq<Act>, c: Compiler, t: Target): seq<Act> {
    if cfg.sanitizersEnabled(t) && c.stage != 0 then
      var acts := Ask(acts, Sanitizers(t));
      var acts := AskIf(!cfg.dryRun, acts, LibdirOf(c, t));
      ForReal(cfg, acts, CopyInto(Libdir(cfg.layout, c, t)))
    else acts
  }

  function CopyLibunwind(cfg: Config, acts: seq<Act>, c: Compiler, t: Target): seq<Act> {
    if WantsLibunwind(cfg, t) then
      var acts := Ask(acts, LibdirOf(c, t));
      var acts := Ask(acts, Libunwind(t));
      ForReal(cfg, acts, CopyInto(Libdir(cfg.layout, c, t)))
    else acts
  }

  /** `copy_third_party_objects` */
  function CopyThirdParty(cfg: Config, acts: seq<Act>, c: Compiler, t: Target): seq<Act> {
    CopyLibunwind(cfg, CopySanitizers(cfg, acts, c, t), c, t)
  }

  /** `copy_self_contained_objects` */
  function CopySelfContained(cfg: Config, acts: seq<Act>, c: Compiler, t: Target): seq<Act> {
    var dir := Libdir(cfg.layout, c, t) + ["self-contained"];
    var acts := Ask(acts, LibdirOf(c, t));
    if Contains(t.triple, "musl") then
      var acts := ForReal(cfg, acts, CopyInto(dir));
      var acts := Ask(acts, CrtBeginEnd(t));
      var acts := ForReal(cfg, acts, CopyInto(dir));
      var acts := Ask(acts, Libunwind(t));
      ForReal(cfg, acts, CopyInto(dir))
    else if EndsWith(t.triple, "-wasi") || Contains(t.triple, "windows-gnu") then
      ForReal(cfg, acts, CopyInto(dir))
    else acts
  }

  // ---------------------------------------------------------------- the steps

  function StdBody(cfg: Config, c: Compiler, t: Target): seq<Act> {
    if cfg.downloadRustc && c.stage != 0 then []
    else if c.stage in cfg.keepStage || c.stage in cfg.keepStageStd then [Need(StdLink(c, c, t))]
    else
      var use := CompilerFor(cfg, c, t);
      var acts := Ask([], StartupObjects(c, t));
      var acts := Ask(acts, Assemble(use));
      if use != c then
        var acts := Ask(acts, Std(use, t));
        var acts := CopyThirdParty(cfg, acts, c, t);
        var acts := CopySelfContained(cfg, acts, c, t);
        Ask(acts, StdLink(use, c, t))
      else
        var acts := CopyThirdParty(cfg, acts, c, t);
        var acts := CopySelfContained(cfg, acts, c, t);
        var acts := PrepareCargo(cfg, acts, c, ModeStd, t);
        var acts := RunCargo(cfg, acts, ModeStd, c, t, StdStamp(c, t));
        var acts := Ask(acts, Assemble(Compiler(c.stage, cfg.build)));
        Ask(acts, StdLink(Compiler(c.stage, cfg.build), c, t))
  }

  function RustcBody(cfg: Config, c: Compiler, t: Target): seq<Act> {
    if cfg.downloadRustc && c.stage != 0 then [Need(Sysroot(c))]
    else
      var acts := Ask([], Std(c, t));
      if c.stage in cfg.keepStage then Ask(acts, RustcLink(c, c, t))
      else
        var use := CompilerFor(cfg, c, t);
        var acts := Ask(acts, Assemble(use));
        if use != c then Ask(Ask(acts, Rustc(use, t)), RustcLink(use, c, t))
        else
          var acts := Ask(acts, Assemble(Compiler(c.stage, cfg.build)));
          var acts := Ask(acts, Std(Compiler(c.stage, cfg.build), cfg.build));
          var acts := PrepareCargo(cfg, acts, c, ModeRustc, t);
          var acts := RustcCargoEnv(cfg, acts, t);
          var acts := RunCargo(cfg, acts, ModeRustc, c, t, RustcStamp(c, t));
          var acts := Ask(acts, Assemble(Compiler(c.stage, cfg.build)));
          Ask(acts, RustcLink(Compiler(c.stage, cfg.build), c, t))
  }

  function CodegenBody(cfg: Config, c: Compiler, t: Target, backend: string): seq<Act> {
    var acts := Ask([], Rustc(c, t));
    if c.stage in cfg.keepStage then acts
    else
      var use := CompilerFor(cfg, c, t);
      var acts := Ask(acts, Assemble(use));
      if use != c then Ask(acts, CodegenBackend(use, t, backend))
      else
        var acts := PrepareCargo(cfg, acts, c, ModeCodegen, t);
        var acts := RustcCargoEnv(cfg, acts, t);
        var acts := RunCargo(cfg, acts, ModeCodegen, c, t, TmpStamp(c, t));
        ForReal(cfg, acts, WriteStamp(BackendStamp(c, t, backend)))
  }

  /** `StdLink` and `RustcLink`, by way of `add_to_sysroot`. */
  function LinkBody(cfg: Config, c: Compiler, tc: Compiler, t: Target, stamp: StampId): seq<Act> {
    var acts := Ask([], LibdirOf(tc, t));
    var acts := Ask(acts, LibdirOf(tc, c.host));
    var acts := ForReal(cfg, acts, ReadStamp(stamp));
    var acts := ForReal(cfg, acts, CopyInto(Libdir(cfg.layout, tc, t)));
    var acts := ForReal(cfg, acts, CopyInto(Libdir(cfg.layout, tc, c.host)));
    ForReal(cfg, acts, CopyInto(Libdir(cfg.layout, tc, t) + ["self-contained"]))
  }

  /** Requests for the first `n` codegen backends, except LLVM, which is part of rustc. */
  function BackendSteps(cfg: Config, acts: seq<Act>, c: Compiler, t: Target, n: nat): seq<Act>
    requires n <= |cfg.backends|
  {
    if n == 0 then acts
    else
      var acts := BackendSteps(cfg, acts, c, t, n - 1);
      AskIf(cfg.backends[n - 1] != "llvm", acts, CodegenBackend(c, t, cfg.backends[n - 1]))
  }

  /** `copy_codegen_backends_to_sysroot` for the first `n` backends. */
  function BackendCopies(cfg: Config, acts: seq<Act>, bc: Compiler, tc: Compiler, n: nat): seq<Act>
    requires n <= |cfg.backends|
  {
    if n == 0 || cfg.dryRun then acts
    else
      var acts := BackendCopies(cfg, acts, bc, tc, n - 1);
      if cfg.backends[n - 1] == "llvm" then acts
      else
        var acts := Perform(acts, ReadStamp(BackendStamp(bc, tc.host, cfg.backends[n - 1])));
        Perform(acts, Install(tc, BackendFile(cfg.backends[n - 1])))
  }

  function AssembleBody(cfg: Config, tc: Compiler): seq<Act> {
    if tc.stage == 0 then [Do(AssertBuildHost(tc.host))]
    else
      var bc := Compiler(tc.stage - 1, cfg.build);
      var acts := Ask([], Assemble(bc));
      if cfg.downloadRustc then Ask(acts, Sysroot(tc))
      else
        var acts := AssembleFrom(cfg, acts, bc, tc);
        var acts := AssembleSysroot(cfg, acts, bc, tc);
        var acts := AssembleTools(cfg, acts, bc, tc);
        AssembleEnd(cfg, acts, tc)
  }

  /** Build the libraries of the new compiler and read which of them are procedural macros. */
  function AssembleFrom(cfg: Config, acts: seq<Act>, bc: Compiler, tc: Compiler): seq<Act> {
    var acts := Ask(acts, Rustc(bc, tc.host));
    var acts := BackendSteps(cfg, acts, bc, tc.host, |cfg.backends|);
    var acts := AskIf(cfg.lldEnabled, acts, Lld(tc.host));
    ForReal(cfg, acts, ReadStamp(RustcStamp(bc, tc.host)))
  }

  /** `rustc_libdir` of an assembled compiler. */
  function RustcLibdir(cfg: Config, tc: Compiler): Path {
    SysrootDir(cfg.layout, tc)
    + (if cfg.layout.libdirRelative.Some? then cfg.layout.libdirRelative.value
       else [if Contains(tc.host.triple, "windows") then "bin" else "lib"])
  }

  /** Link the libraries and the codegen backends into the new sysroot. */
  function AssembleSysroot(cfg: Config, acts: seq<Act>, bc: Compiler, tc: Compiler): seq<Act> {
    var acts := Ask(acts, Sysroot(tc));
    var acts := Ask(acts, LibdirOf(bc, tc.host));
    var acts := ForReal(cfg, acts, CopyInto(RustcLibdir(cfg, tc)));
    var acts := Ask(acts, LibdirOf(tc, tc.host));
    BackendCopies(cfg, acts, bc, tc, |cfg.backends|)
  }

  /** Copy the linker and the LLVM tools next to the library directory. */
  function AssembleTools(cfg: Config, acts: seq<Act>, bc: Compiler, tc: Compiler): seq<Act> {
    var bin := RustlibDir(cfg.layout, tc, tc.host) + ["bin"];
    var acts :=
      if cfg.lldEnabled then
        var acts := ForReal(cfg, acts, CopyInto(bin));
        var acts := Ask(acts, LldWrapper(bc, tc.host, "ld"));
        var acts := ForReal(cfg, acts, CopyInto(bin + ["gcc-ld"]));
        var acts := Ask(acts, LldWrapper(bc, tc.host, "ld64"));
        ForReal(cfg, acts, CopyInto(bin + ["gcc-ld"]))
      else acts;
    if LlvmEnabled(cfg) then ForReal(cfg, Ask(acts, Llvm(tc.host)), CopyInto(bin)) else acts
  }

  /** Install the shared LLVM, straight below the sysroot, and the compiler itself. */
  function AssembleEnd(cfg: Config, acts: seq<Act>, tc: Compiler): seq<Act> {
    var root := SysrootDir(cfg.layout, tc);
    var acts :=
      if cfg.llvmLinkShared && cfg.installsLlvm(tc.host) then
        var acts := ForReal(cfg, acts, CopyInto(root + LibdirRelative(cfg.layout, 1)));
        ForReal(cfg, acts, CopyInto(root + ["lib", "rustlib", tc.host.triple, "lib"]))
      else acts;
    var acts := Ask(acts, Sysroot(tc));
    ForReal(cfg, acts, Install(tc, RustcBinary))
  }

  function SysrootBody(cfg: Config, c: Compiler): seq<Act> {
    var root := SysrootDir(cfg.layout, c);
    var acts := Perform([], Wipe(root));
    if cfg.downloadRustc && c.stage != 0 then
      ForReal(cfg, Perform(acts, AssertNotCross(c.host)), CopyInto(root))
    else Perform(acts, CopyInto(root + ["lib", "rustlib", "src"]))
  }

  /** Tools are built in the tool modes only; in another mode the step panics before it acts. */
  function ToolBody(cfg: Config, c: Compiler, t: Target, mode: Mode): seq<Act> {
    match mode
    case ToolRustc => ToolCargo(cfg, Ask(Ask([], Std(c, c.host)), Rustc(c, t)), c, t, mode)
    case ToolStd => ToolCargo(cfg, Ask([], Std(c, t)), c, t, mode)
    case ToolBootstrap => ToolCargo(cfg, [], c, t, mode)
    case _ => []
  }

  function ToolCargo(cfg: Config, acts: seq<Act>, c: Compiler, t: Target, mode: Mode): seq<Act> {
    var acts := PrepareCargo(cfg, acts, c, mode, t);
    var acts := ForReal(cfg, acts, Cargo(mode, c, t));
    ForReal(cfg, acts, CopyInto(ToolsDir(cfg.layout, c)))
  }

  function RustdocBody(cfg: Config, tc: Compiler): seq<Act> {
    if tc.stage == 0 then [Do(AssertBuildHost(tc.host))]
    else
      var bc := Compiler(tc.stage - 1, cfg.build);
      var acts := Ask([], Assemble(bc));
      var acts := Ask(acts, Std(bc, tc.host));
      var acts := Ask(acts, Rustc(bc, tc.host));
      var acts := PrepareCargo(cfg, acts, bc, ToolRustc, tc.host);
      var acts := ForReal(cfg, acts, Cargo(ToolRustc, bc, tc.host));
      var acts := Ask(acts, Sysroot(tc));
      ForReal(cfg, acts, CopyInto(SysrootDir(cfg.layout, tc) + ["bin"]))
  }

  function StartupBody(cfg: Config, c: Compiler, t: Target): seq<Act> {
    if Contains(t.triple, "windows-gnu") then
      ForReal(cfg, Ask([], LibdirOf(c, t)), CopyInto(Libdir(cfg.layout, c, t)))
    else []
  }

  function LibdirBody(cfg: Config, c: Compiler, t: Target): seq<Act> {
    var acts := Ask([], Sysroot(c));
    if cfg.downloadRustc then acts else Perform(acts, Wipe(Libdir(cfg.layout, c, t)))
  }

  function Body(cfg: Config, s: Step): seq<Act> {
    match s
    case Assemble(tc) => AssembleBody(cfg, tc)
    case Std(c, t) => StdBody(cfg, c, t)
    case StdLink(c, tc, t) => LinkBody(cfg, c, tc, t, StdStamp(c, t))
    case StartupObjects(c, t) => StartupBody(cfg, c, t)
    case Rustc(c, t) => RustcBody(cfg, c, t)
    case RustcLink(c, tc, t) => LinkBody(cfg, c, tc, t, RustcStamp(c, t))
    case CodegenBackend(c, t, backend) => CodegenBody(cfg, c, t, backend)
    case Sysroot(c) => SysrootBody(cfg, c)
    case LibdirOf(c, t) => LibdirBody(cfg, c, t)
    case Llvm(t) => AskIf(!cfg.llvmPrebuilt(t) && t != cfg.build, [], Llvm(cfg.build))
    case Lld(t) => AskIf(!cfg.dryRun, [], Llvm(t))
    case Sanitizers(t) => AskIf(cfg.hasSanitizers(t), [], Llvm(cfg.build))
    case CrtBeginEnd(_) => []
    case Libunwind(_) => []
    case ToolBuild(c, t, _, mode, _) => ToolBody(cfg, c, t, mode)
    case LldWrapper(c, t, flavor) => Ask([], ToolBuild(c, t, "lld-wrapper", ToolStd, [flavor]))
    case Rustdoc(tc) => RustdocBody(cfg, tc)
  }

  function OutputOf(cfg: Config, s: Step): Output {
    match s
    case Assemble(tc) => Built(tc)
    case Sysroot(c) => Directory(SysrootDir(cfg.layout, c))
    case LibdirOf(c, t) => Directory(Libdir(cfg.layout, c, t))
    case _ => Nothing
  }

  function BootstrapPlan(cfg: Config): Plan<Step, Effect, Output> {
    Plan(s => Body(cfg, s), (s, _) => OutputOf(cfg, s))
  }

  // ---------------------------------------------------------------- a measure

  /** Stages come first, then the kind of step within a stage; directories, links and native
      libraries belong to no stage. */
  function Rank(cfg: Config, s: Step): nat {
    match s
    case Sysroot(_) => 0
    case CrtBeginEnd(_) => 0
    case Libunwind(_) => 0
    case Llvm(t) => if t == cfg.build then 0 else 1
    case LibdirOf(_, _) => 1
    case StdLink(_, _, _) => 2
    case RustcLink(_, _, _) => 2
    case StartupObjects(_, _) => 2
    case Lld(_) => 2
    case Sanitizers(_) => 2
    case Assemble(c) => 10 * c.stage + 3
    case Std(c, _) => 10 * c.stage + 4
    case Rustc(c, _) => 10 * c.stage + 5
    case CodegenBackend(c, _, _) => 10 * c.stage + 6
    case ToolBuild(c, _, _, _, _) => 10 * c.stage + 7
    case LldWrapper(c, _, _) => 10 * c.stage + 8
    case Rustdoc(c) => 10 * c.stage + 9
  }
}
