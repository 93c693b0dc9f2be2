/**
 Where the build puts things: sysroots, per-target library directories, Cargo output
 directories and stamp files.  Paths are sequences of components.
 */
module Naming {
  import opened Basics

  type Path = seq<string>

  /** `TargetSelection`: a triple, and the specification file it came from if it is custom. */
  datatype Target = Target(triple: string, file: Option<string>)

  datatype Compiler = Compiler(stage: nat, host: Target)

  /** The modes of invoking Cargo. */
  datatype Mode = ModeStd | ModeRustc | ModeCodegen | ToolBootstrap | ToolStd | ToolRustc

  /** The part of the configuration that names directories. */
  datatype Layout = Layout(out: Path, optimize: bool, libdirRelative: Option<Path>, initialLibdir: Path)

  // ---------------------------------------------------------------- decimal numbers

  function Digit(d: nat): (c: char)
    requires d < 10
    ensures '0' <= c <= '9'
  {
    '0' + d as char
  }

  function Decimal(n: nat): (s: string)
    ensures |s| > 0 && AllDigits(s)
  {
    if n < 10 then [Digit(n)] else Decimal(n / 10) + [Digit(n % 10)]
  }

  predicate AllDigits(s: string) { forall i :: 0 <= i < |s| ==> '0' <= s[i] <= '9' }

  ghost function Value(s: string): int {
    if s == [] then 0 else 10 * Value(s[..|s| - 1]) + (s[|s| - 1] as int - '0' as int)
  }

  lemma {:induction false} DecimalValue(n: nat)
    ensures Value(Decimal(n)) == n
  {
    if n < 10 {
      assert Decimal(n)[..0] == [];
    } else {
      var s := Decimal(n);
      assert s[..|s| - 1] == Decimal(n / 10);
      DecimalValue(n / 10);
    }
  }

  // ---------------------------------------------------------------- directories

  function Suffix(mode: Mode): string {
    match mode
    case ModeStd => "-std"
    case ModeRustc => "-rustc"
    case ModeCodegen => "-codegen"
    case ToolBootstrap => "-bootstrap-tools"
    case ToolStd => "-tools"
    case ToolRustc => "-tools"
  }

  function StageName(stage: nat, suffix: string): string { "stage" + Decimal(stage) + suffix }

  function SysrootDir(l: Layout, c: Compiler): Path {
    l.out + [c.host.triple, if c.stage == 0 then StageName(0, "-sysroot") else StageName(c.stage, "")]
  }

  /** `sysroot_libdir_relative` */
  function LibdirRelative(l: Layout, stage: nat): Path {
    if l.libdirRelative.Some? && stage >= 1 then l.libdirRelative.value
    else if stage == 0 then l.initialLibdir
    else ["lib"]
  }

  function RustlibDir(l: Layout, c: Compiler, t: Target): Path {
    SysrootDir(l, c) + LibdirRelative(l, c.stage) + ["rustlib", t.triple]
  }

  function Libdir(l: Layout, c: Compiler, t: Target): Path { RustlibDir(l, c, t) + ["lib"] }

  function StageOut(l: Layout, c: Compiler, mode: Mode): Path {
    l.out + [c.host.triple, StageName(c.stage, Suffix(mode))]
  }

  function CargoOut(l: Layout, c: Compiler, mode: Mode, t: Target): Path {
    StageOut(l, c, mode) + [t.triple, if l.optimize then "release" else "debug"]
  }

  function ToolsDir(l: Layout, c: Compiler): Path { l.out + [c.host.triple, StageName(c.stage, "-tools-bin")] }

  function LibstdStamp(l: Layout, c: Compiler, t: Target): Path { CargoOut(l, c, ModeStd, t) + [".libstd.stamp"] }

  function LibrustcStamp(l: Layout, c: Compiler, t: Target): Path { CargoOut(l, c, ModeRustc, t) + [".librustc.stamp"] }

  function CodegenTmpStamp(l: Layout, c: Compiler, t: Target): Path { CargoOut(l, c, ModeCodegen, t) + [".tmp.stamp"] }

  function CodegenStamp(l: Layout, c: Compiler, t: Target, backend: string): Path {
    CargoOut(l, c, ModeCodegen, t) + [".librustc_codegen_" + backend + ".stamp"]
  }

  /** The layout of the build directory as it is documented. */
  lemma DocumentedLayout(l: Layout, c: Compiler, t: Target)
    ensures var host, n := l.out + [c.host.triple], Decimal(c.stage);
      && StageOut(l, c, ModeStd) == host + ["stage" + n + "-std"]
      && StageOut(l, c, ModeRustc) == host + ["stage" + n + "-rustc"]
      && StageOut(l, c, ToolStd) == StageOut(l, c, ToolRustc) == host + ["stage" + n + "-tools"]
      && (c.stage == 0 ==> SysrootDir(l, c) == host + ["stage0-sysroot"])
      && (c.stage > 0 ==> SysrootDir(l, c) == host + ["stage" + n])
      && (c.stage == 0 ==> Libdir(l, c, t) == SysrootDir(l, c) + l.initialLibdir + ["rustlib", t.triple, "lib"])
      && (c.stage > 0 && l.libdirRelative == None ==>
            Libdir(l, c, t) == SysrootDir(l, c) + ["lib", "rustlib", t.triple, "lib"])
      && (forall dir :: c.stage > 0 && l.libdirRelative == Some(dir) ==>
            Libdir(l, c, t) == SysrootDir(l, c) + dir + ["rustlib", t.triple, "lib"])
    ensures ToolsDir(l, c) == l.out + [c.host.triple, "stage" + Decimal(c.stage) + "-tools-bin"]
    ensures l.optimize ==> LibstdStamp(l, c, t) == StageOut(l, c, ModeStd) + [t.triple, "release", ".libstd.stamp"]
    ensures !l.optimize ==> LibrustcStamp(l, c, t) == StageOut(l, c, ModeRustc) + [t.triple, "debug", ".librustc.stamp"]
  {
    assert "stage" + Decimal(c.stage) + "" == "stage" + Decimal(c.stage);
    assert c.stage == 0 ==> "stage" + Decimal(c.stage) + "-sysroot" == "stage0-sysroot" by {
      assert Decimal(0) == "0";
      assert "stage" + "0" + "-sysroot" == "stage0-sysroot";
    }
  }

  // ---------------------------------------------------------------- injectivity

  /** What follows a stage number in a directory name. */
  predicate StageSuffix(s: string) { s == "" || s[0] == '-' }

  lemma DigitsPrefix(a: string, s: string, b: string, t: string)
    requires AllDigits(a) && AllDigits(b) && StageSuffix(s) && StageSuffix(t) && a + s == b + t
    ensures a == b && s == t
  {
    var x := a + s;
    assert s != "" ==> x[|a|] == s[0];
    assert t != "" ==> x[|b|] == (b + t)[|b|] == t[0];
    assert forall i :: 0 <= i < |a| ==> x[i] == a[i];
    assert forall i :: 0 <= i < |b| ==> x[i] == (b + t)[i] == b[i];
    assert a == x[..|a|] && b == (b + t)[..|b|];
    assert s == x[|a|..] && t == (b + t)[|b|..];
  }

  lemma StageNameInjective(m: nat, s: string, n: nat, t: string)
    requires StageSuffix(s) && StageSuffix(t)
    ensures StageName(m, s) == StageName(n, t) ==> m == n && s == t
  {
    if StageName(m, s) == StageName(n, t) {
      assert StageName(m, s)[5..] == Decimal(m) + s;
      assert StageName(n, t)[5..] == Decimal(n) + t;
      DigitsPrefix(Decimal(m), s, Decimal(n), t);
      DecimalValue(m);
      DecimalValue(n);
    }
  }

  /** Same stage, and hosts that share a triple. */
  predicate SameCompiler(c: Compiler, d: Compiler) { c.stage == d.stage && c.host.triple == d.host.triple }

  lemma TwoComponents(out: Path, a: string, b: string, p: Path, c: string, d: string, q: Path)
    requires out + [a, b] + p == out + [c, d] + q
    ensures a == c && b == d && p == q
  {
    var x, y := out + [a, b] + p, out + [c, d] + q;
    var n := |out|;
    assert x[n] == a && y[n] == c && x[n + 1] == b && y[n + 1] == d;
    assert p == x[n + 2..] && q == y[n + 2..];
  }

  /** Two sysroots are the same directory, or one lies inside the other, only for the same
      stage and host triple. */
  lemma SysrootInjective(l: Layout, c: Compiler, d: Compiler, p: Path)
    requires SysrootDir(l, c) <= SysrootDir(l, d) + p
    ensures SameCompiler(c, d) && SysrootDir(l, c) == SysrootDir(l, d)
  {
    var cs := if c.stage == 0 then "-sysroot" else "";
    var ds := if d.stage == 0 then "-sysroot" else "";
    var n := |l.out|;
    var x, y := SysrootDir(l, c), SysrootDir(l, d) + p;
    assert x[n] == y[n] && x[n + 1] == y[n + 1];
    StageNameInjective(c.stage, cs, d.stage, ds);
  }

  /** A Cargo output directory is never inside a sysroot. */
  lemma SysrootApart(l: Layout, c: Compiler, d: Compiler, suffix: string, p: Path)
    requires StageSuffix(suffix) && suffix != "" && suffix != "-sysroot"
    ensures !(SysrootDir(l, c) <= l.out + [d.host.triple, StageName(d.stage, suffix)] + p)
  {
    var cs := if c.stage == 0 then "-sysroot" else "";
    var n := |l.out|;
    var x, y := SysrootDir(l, c), l.out + [d.host.triple, StageName(d.stage, suffix)] + p;
    StageNameInjective(c.stage, cs, d.stage, suffix);
    assert x[n + 1] != y[n + 1];
  }

  /** The snapshot compiler is never inside a sysroot. */
  lemma SnapshotApart(l: Layout, d: Compiler, c: Compiler)
    ensures !(SysrootDir(l, d) <= l.out + [c.host.triple, "stage0"] + ["bin"])
  {
    var ds := if d.stage == 0 then "-sysroot" else "";
    var n := |l.out|;
    var x, y := SysrootDir(l, d), l.out + [c.host.triple, "stage0"] + ["bin"];
    assert "stage0" == StageName(0, "") by {
      assert Decimal(0) == "0";
    }
    StageNameInjective(d.stage, ds, 0, "");
    assert x[n + 1] != y[n + 1];
  }

  lemma SuffixIsStageSuffix(mode: Mode)
    ensures StageSuffix(Suffix(mode)) && Suffix(mode) != "" && Suffix(mode) != "-sysroot"
  {
  }

  /** Two Cargo invocations share an output directory exactly when host triple, stage, target
      triple and mode suffix agree. */
  lemma CargoOutInjective(l: Layout, c: Compiler, m: Mode, t: Target, c': Compiler, m': Mode, t': Target)
    ensures CargoOut(l, c, m, t) == CargoOut(l, c', m', t') <==>
            SameCompiler(c, c') && Suffix(m) == Suffix(m') && t.triple == t'.triple
  {
    var dir := if l.optimize then "release" else "debug";
    assert CargoOut(l, c, m, t) == l.out + [c.host.triple, StageName(c.stage, Suffix(m))] + [t.triple, dir];
    assert CargoOut(l, c', m', t') == l.out + [c'.host.triple, StageName(c'.stage, Suffix(m'))] + [t'.triple, dir];
    if CargoOut(l, c, m, t) == CargoOut(l, c', m', t') {
      TwoComponents(l.out, c.host.triple, StageName(c.stage, Suffix(m)), [t.triple, dir],
                    c'.host.triple, StageName(c'.stage, Suffix(m')), [t'.triple, dir]);
      StageNameInjective(c.stage, Suffix(m), c'.stage, Suffix(m'));
      assert [t.triple, dir][0] == [t'.triple, dir][0];
    }
  }

  /** A stamp file, by what is built. */
  datatype StampId = StdStamp(c: Compiler, t: Target) | RustcStamp(c: Compiler, t: Target)
                   | TmpStamp(c: Compiler, t: Target) | BackendStamp(c: Compiler, t: Target, backend: string)

  function StampMode(id: StampId): Mode {
    match id
    case StdStamp(_, _) => ModeStd
    case RustcStamp(_, _) => ModeRustc
    case TmpStamp(_, _) => ModeCodegen
    case BackendStamp(_, _, _) => ModeCodegen
  }

  function StampFileName(id: StampId): string {
    match id
    case StdStamp(_, _) => ".libstd.stamp"
    case RustcStamp(_, _) => ".librustc.stamp"
    case TmpStamp(_, _) => ".tmp.stamp"
    case BackendStamp(_, _, backend) => ".librustc_codegen_" + backend + ".stamp"
  }

  function StampPath(l: Layout, id: StampId): (p: Path)
    ensures p == CargoOut(l, id.c, StampMode(id), id.t) + [StampFileName(id)]
  {
    match id
    case StdStamp(c, t) => LibstdStamp(l, c, t)
    case RustcStamp(c, t) => LibrustcStamp(l, c, t)
    case TmpStamp(c, t) => CodegenTmpStamp(l, c, t)
    case BackendStamp(c, t, backend) => CodegenStamp(l, c, t, backend)
  }

  /** The same stamp up to specification files of targets with equal triples. */
  predicate SameStamp(a: StampId, b: StampId) {
    && SameCompiler(a.c, b.c) && a.t.triple == b.t.triple
    && (a.StdStamp? <==> b.StdStamp?) && (a.RustcStamp? <==> b.RustcStamp?) && (a.TmpStamp? <==> b.TmpStamp?)
    && (a.BackendStamp? && b.BackendStamp? ==> a.backend == b.backend)
  }

  lemma BackendFileInjective(a: string, b: string)
    requires ".librustc_codegen_" + a + ".stamp" == ".librustc_codegen_" + b + ".stamp"
    ensures a == b
  {
    var x, y := ".librustc_codegen_" + a + ".stamp", ".librustc_codegen_" + b + ".stamp";
    assert a == x[18..|x| - 6] && b == y[18..|y| - 6];
  }

  /** Stamps of different builds are different files. */
  lemma StampPathInjective(l: Layout, a: StampId, b: StampId)
    ensures StampPath(l, a) == StampPath(l, b) <==> SameStamp(a, b)
  {
    CargoOutInjective(l, a.c, StampMode(a), a.t, b.c, StampMode(b), b.t);
    var p, q := StampPath(l, a), StampPath(l, b);
    if p == q {
      assert p[..|p| - 1] == CargoOut(l, a.c, StampMode(a), a.t) && q[..|q| - 1] == CargoOut(l, b.c, StampMode(b), b.t);
      assert p[|p| - 1] == StampFileName(a) && q[|q| - 1] == StampFileName(b);
      SameFileSameKind(a, b);
    }
  }

  lemma SameFileSameKind(a: StampId, b: StampId)
    requires StampFileName(a) == StampFileName(b)
    ensures (a.StdStamp? <==> b.StdStamp?) && (a.RustcStamp? <==> b.RustcStamp?) && (a.TmpStamp? <==> b.TmpStamp?)
    ensures a.BackendStamp? && b.BackendStamp? ==> a.backend == b.backend
  {
    forall id: StampId ensures StampFileName(id)[1] == 't' <==> id.TmpStamp? {}
    forall id: StampId | !id.TmpStamp? ensures StampFileName(id)[4] == 's' <==> id.StdStamp? {}
    forall id: StampId | id.BackendStamp? ensures StampFileName(id)[9] == '_' {}
    if a.BackendStamp? && b.BackendStamp? {
      BackendFileInjective(a.backend, b.backend);
    }
  }
}
