/**
 What finished steps of the bootstrap plan leave behind.  These theorems are about the events of a
 run: which builds, copies and installations have happened once a step is done, with which compiler,
 and in which order.
 */
module BootstrapResults {
  import opened Basics
  import opened Scheduler
  import opened Runs
  import opened RunTheorems
  import opened Naming
  import opened Bootstrap
  import opened BootstrapLocal
  import opened BootstrapBodies
  import opened BootstrapRuns

  ghost predicate Done(cfg: Config, tr: Trace, s: Step) { Finished(BootstrapPlan(cfg), tr, s) }

  /** Step `s` has had effect `e`. */
  ghost predicate Did(cfg: Config, tr: Trace, s: Step, e: Effect) {
    exists i: nat :: Happens(cfg, tr, i, e) && tr[i].step == s
  }

  /** Step `s` has had effect `e`, at a time when step `d` was done. */
  ghost predicate DidAfter(cfg: Config, tr: Trace, s: Step, d: Step, e: Effect) {
    exists i: nat :: Happens(cfg, tr, i, e) && tr[i].step == s && Done(cfg, tr[..i], d)
  }

  // ---------------------------------------------------------------- from actions to events

  /** Among these actions `e` comes after the request for `d`. */
  ghost predicate Then(acts: seq<Act>, d: Step, e: Effect) {
    exists j, k :: 0 <= j < k < |acts| && acts[j] == Need(d) && acts[k] == Do(e)
  }

  lemma ThenIn(acts: seq<Act>, more: seq<Act>, d: Step, e: Effect)
    requires Need(d) in acts && acts <= more && Do(e) in more[|acts|..]
    ensures Then(more, d, e)
  {
    var j :| 0 <= j < |acts| && acts[j] == Need(d);
    var k :| |acts| <= k < |more| && more[k] == Do(e);
    assert more[j] == Need(d);
  }

  lemma ThenExtends(acts: seq<Act>, more: seq<Act>, d: Step, e: Effect)
    requires Then(acts, d, e) && acts <= more
    ensures Then(more, d, e)
  {
    var j, k :| 0 <= j < k < |acts| && acts[j] == Need(d) && acts[k] == Do(e);
    assert more[j] == Need(d) && more[k] == Do(e);
  }

  lemma EffectDid(cfg: Config, roots: set<Step>, tr: Trace, s: Step, e: Effect)
    requires IsRun(cfg, roots, tr) && Done(cfg, tr, s) && Do(e) in Body(cfg, s)
    ensures Did(cfg, tr, s, e)
  {
    hide Body;
    var k :| 0 <= k < |Body(cfg, s)| && Body(cfg, s)[k] == Do(e);
    EarlierActions(BootstrapPlan(cfg), roots, tr, s, |Body(cfg, s)|, k + 1);
    var i :| 0 <= i < |tr| && tr[i] == Event(s, k + 1);
    assert Happens(cfg, tr, i, e);
  }

  lemma EffectDidAfter(cfg: Config, roots: set<Step>, tr: Trace, s: Step, d: Step, e: Effect)
    requires IsRun(cfg, roots, tr) && Done(cfg, tr, s) && Then(Body(cfg, s), d, e)
    ensures DidAfter(cfg, tr, s, d, e)
  {
    hide Body;
    var p := BootstrapPlan(cfg);
    var j, k :| 0 <= j < k < |Body(cfg, s)| && Body(cfg, s)[j] == Need(d) && Body(cfg, s)[k] == Do(e);
    EarlierActions(p, roots, tr, s, |Body(cfg, s)|, k + 1);
    var i :| 0 <= i < |tr| && tr[i] == Event(s, k + 1);
    NeedBefore(p, roots, tr, i, j, d, |Body(cfg, d)|);
    assert Happens(cfg, tr, i, e);
  }

  lemma RequestDone(cfg: Config, roots: set<Step>, tr: Trace, s: Step, d: Step)
    requires IsRun(cfg, roots, tr) && Done(cfg, tr, s) && Need(d) in Body(cfg, s)
    ensures Done(cfg, tr, d)
  {
    NeedFinishes(BootstrapPlan(cfg), roots, tr, s, d);
  }

  /** What was requested before an event of a step is done by then. */
  lemma NeededDone(cfg: Config, roots: set<Step>, tr: Trace, i: nat, d: Step)
    requires IsRun(cfg, roots, tr) && i < |tr| && 0 < tr[i].count <= |Body(cfg, tr[i].step)|
    requires d in Notes(Body(cfg, tr[i].step)[..tr[i].count - 1]).needs
    ensures Done(cfg, tr[..i], d)
  {
    hide Body, Notes;
    NeededIsDone(cfg, roots, tr, i, d, |Body(cfg, d)|);
  }

  /** An effect in the part of a run before `i` is one of the run, before `i`. */
  lemma PrefixHappens(cfg: Config, tr: Trace, i: nat, j: nat, e: Effect)
    requires i <= |tr| && Happens(cfg, tr[..i], j, e)
    ensures j < i && Happens(cfg, tr, j, e) && tr[j] == tr[..i][j]
  {
    hide Body;
  }

  // ---------------------------------------------------------------- Cargo and what it finds

  /** Whenever Cargo builds, the compiler is assembled, the libraries it builds against are in place,
      LLVM is there where rustc is linked against it, and the output has been checked against the
      files of the compiler. */
  lemma CargoFindsToolchain(cfg: Config, roots: set<Step>, tr: Trace, i: nat, mode: Mode, c: Compiler, t: Target)
    requires IsRun(cfg, roots, tr) && Happens(cfg, tr, i, Cargo(mode, c, t))
    ensures Done(cfg, tr[..i], LibdirOf(c, c.host))
    ensures mode in {ModeStd, ModeRustc, ModeCodegen} ==> Done(cfg, tr[..i], Assemble(c))
    ensures mode in {ModeRustc, ToolStd} ==> Done(cfg, tr[..i], Std(c, t))
    ensures mode == ModeRustc ==> Done(cfg, tr[..i], Std(Compiler(c.stage, cfg.build), cfg.build))
    ensures mode in {ModeCodegen, ToolRustc} ==> Done(cfg, tr[..i], Rustc(c, t))
    ensures mode in {ModeRustc, ModeCodegen, ToolRustc} && "llvm" in cfg.backends && !cfg.checkKind ==>
      Done(cfg, tr[..i], Llvm(t))
    ensures mode == ModeStd && !cfg.dryRun ==> HappenedBefore(cfg, tr, i, ClearIfDirty(c, mode, RustcBinary))
    ensures forall b :: b in cfg.backends && b != "llvm" && c.stage > 0 && !cfg.dryRun && !cfg.downloadRustc ==>
      HappenedBefore(cfg, tr, i, ClearIfDirty(c, mode, BackendFile(b)))
  {
    hide Body, Notes;
    var acts := Body(cfg, tr[i].step)[..tr[i].count - 1];
    LocalAt(cfg, tr[i].step, tr[i].count - 1);
    forall d | d in Notes(acts).needs ensures Done(cfg, tr[..i], d) {
      NeededDone(cfg, roots, tr, i, d);
    }
    NoteIsAction(acts);
    forall f | Watched(cfg, c, mode, f) ensures HappenedBefore(cfg, tr, i, ClearIfDirty(c, mode, f)) {
      DoneByStep(cfg, roots, tr, i, ClearIfDirty(c, mode, f));
    }
  }

  /** Nothing optional is done that neither the requests nor the configuration and the target call for. */
  lemma OnlyWhatIsCalledFor(cfg: Config, roots: set<Step>, tr: Trace, e: Event<Step>)
    requires IsRun(cfg, roots, tr) && e in tr && e.step !in roots
    ensures e.step.Lld? || e.step.LldWrapper? ==> cfg.lldEnabled
    ensures e.step.Sanitizers? ==> cfg.sanitizersEnabled(e.step.target)
    ensures e.step.CrtBeginEnd? ==> Contains(e.step.target.triple, "musl")
    ensures e.step.CodegenBackend? ==>
      (e.step.backend in cfg.backends && e.step.backend != "llvm")
      || exists r :: r in roots && r.CodegenBackend? && r.backend == e.step.backend
    decreases |tr|
  {
    hide Body, Notes, Contains, MayAsk, LinkedBy, LinkReady;
    var p := BootstrapPlan(cfg);
    EarlierActions(p, roots, tr, e.step, e.count, 0);
    var i :| 0 <= i < |tr| && tr[i] == Event(e.step, 0);
    LegalAt(p, roots, tr, i);
    var r, j: nat :| RequestedBy(p, tr[..i], r, j, e.step);
    LocalAt(cfg, r, j);
    if e.step.CodegenBackend? && r.CodegenBackend? && r !in roots {
      OnlyWhatIsCalledFor(cfg, roots, tr[..i], Event(r, j));
    }
  }

  // ---------------------------------------------------------------- which artifacts a compiler is given

  /** Cargo built `mode` for `t` with `source`; after that a link step into the sysroot of `c` read the
      stamp of that build, and then copied into the library directories of `c`. */
  ghost predicate Given(cfg: Config, tr: Trace, mode: Mode, source: Compiler, c: Compiler, t: Target) {
    exists j: nat, i: nat ::
      j < i && Happens(cfg, tr, j, Cargo(mode, source, t)) && LinkReads(cfg, tr, i, mode, source, c, t)
  }

  ghost predicate LinkReads(cfg: Config, tr: Trace, i: nat, mode: Mode, source: Compiler, c: Compiler, t: Target) {
    var link, stamp := LinkStep(mode, source, c, t), LinkStamp(mode, source, t);
    && Happens(cfg, tr, i, ReadStamp(stamp)) && tr[i].step == link
    && CopiedAfter(cfg, tr, i, link, Libdir(cfg.layout, c, t))
    && CopiedAfter(cfg, tr, i, link, Libdir(cfg.layout, c, source.host))
    && CopiedAfter(cfg, tr, i, link, Libdir(cfg.layout, c, t) + ["self-contained"])
  }

  function LinkStep(mode: Mode, source: Compiler, c: Compiler, t: Target): Step {
    if mode == ModeStd then StdLink(source, c, t) else RustcLink(source, c, t)
  }

  function LinkStamp(mode: Mode, source: Compiler, t: Target): StampId {
    if mode == ModeStd then StdStamp(source, t) else RustcStamp(source, t)
  }

  ghost predicate CopiedAfter(cfg: Config, tr: Trace, i: nat, s: Step, dir: Path) {
    exists k: nat :: i < k && Happens(cfg, tr, k, CopyInto(dir)) && tr[k].step == s
  }

  lemma LinkBodyIs(cfg: Config, mode: Mode, source: Compiler, c: Compiler, t: Target)
    requires !cfg.dryRun && mode in {ModeStd, ModeRustc}
    ensures var body := Body(cfg, LinkStep(mode, source, c, t));
      && |body| == 6 && body[0] == Need(LibdirOf(c, t)) && body[1] == Need(LibdirOf(c, source.host))
      && body[2] == Do(ReadStamp(LinkStamp(mode, source, t)))
      && body[3] == Do(CopyInto(Libdir(cfg.layout, c, t)))
      && body[4] == Do(CopyInto(Libdir(cfg.layout, c, source.host)))
      && body[5] == Do(CopyInto(Libdir(cfg.layout, c, t) + ["self-contained"]))
  {
    hide Libdir;
  }

  lemma LaterEvent(cfg: Config, roots: set<Step>, tr: Trace, s: Step, i: nat, j: nat)
    requires IsRun(cfg, roots, tr) && i < |tr| && j < |tr| && tr[i].step == tr[j].step == s && tr[i].count < tr[j].count
    ensures i < j
  {
    hide Body;
    var p := BootstrapPlan(cfg);
    LegalAt(p, roots, tr, j);
    EarlierActions(p, roots, tr[..j], s, tr[j].count - 1, tr[i].count);
    var b :| 0 <= b < j && tr[b] == tr[i];
    EventsUnique(p, roots, tr, b, i);
  }

  lemma LinkReadsAndCopies(cfg: Config, roots: set<Step>, tr: Trace, mode: Mode, source: Compiler, c: Compiler,
      t: Target)
    returns (i: nat)
    requires IsRun(cfg, roots, tr) && !cfg.dryRun && mode in {ModeStd, ModeRustc}
    requires Done(cfg, tr, LinkStep(mode, source, c, t))
    ensures LinkReads(cfg, tr, i, mode, source, c, t)
  {
    hide Body, Libdir;
    var link := LinkStep(mode, source, c, t);
    LinkBodyIs(cfg, mode, source, c, t);
    i := ActionHappened(cfg, roots, tr, link, 2);
    var k3 := ActionHappened(cfg, roots, tr, link, 3);
    var k4 := ActionHappened(cfg, roots, tr, link, 4);
    var k5 := ActionHappened(cfg, roots, tr, link, 5);
    LaterEvent(cfg, roots, tr, link, i, k3);
    LaterEvent(cfg, roots, tr, link, i, k4);
    LaterEvent(cfg, roots, tr, link, i, k5);
    assert Happens(cfg, tr, k3, CopyInto(Libdir(cfg.layout, c, t)));
    assert Happens(cfg, tr, k4, CopyInto(Libdir(cfg.layout, c, source.host)));
    assert Happens(cfg, tr, k5, CopyInto(Libdir(cfg.layout, c, t) + ["self-contained"]));
  }

  lemma ActionHappened(cfg: Config, roots: set<Step>, tr: Trace, s: Step, k: nat) returns (i: nat)
    requires IsRun(cfg, roots, tr) && Done(cfg, tr, s) && k < |Body(cfg, s)|
    ensures i < |tr| && tr[i] == Event(s, k + 1)
  {
    hide Body;
    EarlierActions(BootstrapPlan(cfg), roots, tr, s, |Body(cfg, s)|, k + 1);
    i :| 0 <= i < |tr| && tr[i] == Event(s, k + 1);
  }

  /** A finished link step was given the artifacts of its source. */
  lemma LinkedIsGiven(cfg: Config, roots: set<Step>, tr: Trace, mode: Mode, source: Compiler, c: Compiler, t: Target)
    requires IsRun(cfg, roots, tr) && ProperRequests(cfg, roots) && FreshBuild(cfg) && !cfg.dryRun
    requires mode in {ModeStd, ModeRustc} && Done(cfg, tr, LinkStep(mode, source, c, t))
    ensures Given(cfg, tr, mode, source, c, t)
  {
    hide Body, Libdir;
    var x := LinkStamp(mode, source, t);
    var i := LinkReadsAndCopies(cfg, roots, tr, mode, source, c, t);
    StampsWrittenBeforeRead(cfg, roots, tr, i, x);
    var w :| 0 <= w < i && Happens(cfg, tr, w, WriteStamp(x));
    WriteAt(cfg, roots, tr, w, x);
    var j :| 0 <= j < w && Happens(cfg, tr, j, Cargo(mode, source, t));
  }

  /** Whatever is linked into a compiler for a target comes from one source. */
  lemma LinksAreFromSource(cfg: Config, roots: set<Step>, tr: Trace, i: nat)
    requires IsRun(cfg, roots, tr) && ProperRequests(cfg, roots) && FreshBuild(cfg)
    requires i < |tr| && (tr[i].step.StdLink? || tr[i].step.RustcLink?)
    ensures var d := tr[i].step;
      && d.compiler.host == cfg.build
      && (!cfg.fullBootstrap && d.targetCompiler.stage >= 2 && (d.target == cfg.build || d.target in cfg.hosts) ==>
            d.compiler.stage == 1)
      && (cfg.fullBootstrap || d.targetCompiler.stage < 2 || (d.target != cfg.build && d.target !in cfg.hosts) ==>
            d.compiler.stage == d.targetCompiler.stage)
  {
    hide Body, Notes, BuildHosted;
    var p, d := BootstrapPlan(cfg), tr[i].step;
    EarlierActions(p, roots, tr, d, tr[i].count, 0) by { assert tr[i] in tr; }
    var b :| 0 <= b < |tr| && tr[b] == Event(d, 0);
    LegalAt(p, roots, tr, b);
    var r, j: nat :| RequestedBy(p, tr[..b], r, j, d);
    LocalAt(cfg, r, j);
  }

  lemma StdAsksLink(cfg: Config, c: Compiler, t: Target, source: Compiler)
    requires FreshBuild(cfg) && c.host == cfg.build && IsSource(cfg, c, t, source)
    ensures Need(StdLink(source, c, t)) in Body(cfg, Std(c, t))
  {
    hide CopyThirdParty, CopySelfContained, PrepareCargo, RunCargo;
    var body := StdBody(cfg, c, t);
    assert body[|body| - 1] == Need(StdLink(source, c, t));
  }

  lemma RustcAsksLink(cfg: Config, c: Compiler, t: Target, source: Compiler)
    requires FreshBuild(cfg) && c.host == cfg.build && IsSource(cfg, c, t, source)
    ensures Need(RustcLink(source, c, t)) in Body(cfg, Rustc(c, t))
  {
    hide PrepareCargo, RustcCargoEnv, RunCargo;
    var body := RustcBody(cfg, c, t);
    assert body[|body| - 1] == Need(RustcLink(source, c, t));
  }

  /** The standard library that a compiler is given for a target: from stage 2 on, for the build triple
      and the hosts, and unless every stage is to build it, the one that stage 1 built, and otherwise
      its own. */
  lemma StdGiven(cfg: Config, roots: set<Step>, tr: Trace, c: Compiler, t: Target)
    requires IsRun(cfg, roots, tr) && ProperRequests(cfg, roots) && FreshBuild(cfg) && !cfg.dryRun
    requires Done(cfg, tr, Std(c, t))
    ensures !cfg.fullBootstrap && c.stage >= 2 && (t == cfg.build || t in cfg.hosts) ==>
      Given(cfg, tr, ModeStd, Compiler(1, cfg.build), c, t)
    ensures cfg.fullBootstrap || c.stage < 2 || (t != cfg.build && t !in cfg.hosts) ==>
      Given(cfg, tr, ModeStd, Compiler(c.stage, cfg.build), c, t)
  {
    hide Body, Given;
    var lifted := !cfg.fullBootstrap && c.stage >= 2 && (t == cfg.build || t in cfg.hosts);
    var source := Compiler(if lifted then 1 else c.stage, cfg.build);
    OnlyBuildHosts(cfg, roots, tr, Event(Std(c, t), |Body(cfg, Std(c, t))|));
    StdAsksLink(cfg, c, t, source);
    RequestDone(cfg, roots, tr, Std(c, t), StdLink(source, c, t));
    LinkedIsGiven(cfg, roots, tr, ModeStd, source, c, t);
  }

  /** The same for the compiler's own libraries. */
  lemma RustcGiven(cfg: Config, roots: set<Step>, tr: Trace, c: Compiler, t: Target)
    requires IsRun(cfg, roots, tr) && ProperRequests(cfg, roots) && FreshBuild(cfg) && !cfg.dryRun
    requires Done(cfg, tr, Rustc(c, t))
    ensures !cfg.fullBootstrap && c.stage >= 2 && (t == cfg.build || t in cfg.hosts) ==>
      Given(cfg, tr, ModeRustc, Compiler(1, cfg.build), c, t)
    ensures cfg.fullBootstrap || c.stage < 2 || (t != cfg.build && t !in cfg.hosts) ==>
      Given(cfg, tr, ModeRustc, Compiler(c.stage, cfg.build), c, t)
  {
    hide Body, Given;
    var lifted := !cfg.fullBootstrap && c.stage >= 2 && (t == cfg.build || t in cfg.hosts);
    var source := Compiler(if lifted then 1 else c.stage, cfg.build);
    OnlyBuildHosts(cfg, roots, tr, Event(Rustc(c, t), |Body(cfg, Rustc(c, t))|));
    RustcAsksLink(cfg, c, t, source);
    RequestDone(cfg, roots, tr, Rustc(c, t), RustcLink(source, c, t));
    LinkedIsGiven(cfg, roots, tr, ModeRustc, source, c, t);
  }

  /** Cargo built backend `b` for `t` with `source`, and its stamp was written. */
  ghost predicate BackendBuilt(cfg: Config, tr: Trace, source: Compiler, t: Target, b: string) {
    exists j: nat, i: nat :: j < i && BackendBuiltAt(cfg, tr, j, i, source, t, b)
  }

  ghost predicate BackendBuiltAt(cfg: Config, tr: Trace, j: nat, i: nat, source: Compiler, t: Target, b: string) {
    && Happens(cfg, tr, j, Cargo(ModeCodegen, source, t)) && tr[j].step == CodegenBackend(source, t, b)
    && Happens(cfg, tr, i, WriteStamp(BackendStamp(source, t, b)))
  }

  /** The same for the codegen backends. */
  lemma CodegenGiven(cfg: Config, roots: set<Step>, tr: Trace, c: Compiler, t: Target, b: string)
    requires IsRun(cfg, roots, tr) && ProperRequests(cfg, roots) && FreshBuild(cfg) && !cfg.dryRun
    requires Done(cfg, tr, CodegenBackend(c, t, b))
    ensures !cfg.fullBootstrap && c.stage >= 2 && (t == cfg.build || t in cfg.hosts) ==>
      BackendBuilt(cfg, tr, Compiler(1, cfg.build), t, b)
    ensures cfg.fullBootstrap || c.stage < 2 || (t != cfg.build && t !in cfg.hosts) ==>
      BackendBuilt(cfg, tr, Compiler(c.stage, cfg.build), t, b)
  {
    hide Body, BackendBuilt;
    OnlyBuildHosts(cfg, roots, tr, Event(CodegenBackend(c, t, b), |Body(cfg, CodegenBackend(c, t, b))|));
    if !cfg.fullBootstrap && c.stage >= 2 && (t == cfg.build || t in cfg.hosts) {
      CodegenAsksStage1(cfg, c, t, b);
      RequestDone(cfg, roots, tr, CodegenBackend(c, t, b), CodegenBackend(Compiler(1, cfg.build), t, b));
      CodegenBuilds(cfg, roots, tr, Compiler(1, cfg.build), t, b);
    } else {
      CodegenBuilds(cfg, roots, tr, c, t, b);
    }
  }

  lemma CodegenAsksStage1(cfg: Config, c: Compiler, t: Target, b: string)
    requires FreshBuild(cfg) && !cfg.fullBootstrap && c.stage >= 2 && (t == cfg.build || t in cfg.hosts)
    ensures Need(CodegenBackend(Compiler(1, cfg.build), t, b)) in Body(cfg, CodegenBackend(c, t, b))
  {
    hide PrepareCargo, RustcCargoEnv, RunCargo;
    var body := CodegenBody(cfg, c, t, b);
    assert body[|body| - 1] == Need(CodegenBackend(Compiler(1, cfg.build), t, b));
  }

  lemma CodegenBuilds(cfg: Config, roots: set<Step>, tr: Trace, c: Compiler, t: Target, b: string)
    requires IsRun(cfg, roots, tr) && FreshBuild(cfg) && !cfg.dryRun && Done(cfg, tr, CodegenBackend(c, t, b))
    requires cfg.fullBootstrap || c.stage < 2 || (t != cfg.build && t !in cfg.hosts)
    ensures BackendBuilt(cfg, tr, c, t, b)
  {
    hide Body;
    var x := BackendStamp(c, t, b);
    CodegenWritesStamp(cfg, c, t, b);
    EffectDid(cfg, roots, tr, CodegenBackend(c, t, b), WriteStamp(x));
    var i: nat :| Happens(cfg, tr, i, WriteStamp(x)) && tr[i].step == CodegenBackend(c, t, b);
    var j := CargoOfStamp(cfg, roots, tr, i, x);
    assert BackendBuiltAt(cfg, tr, j, i, c, t, b);
  }

  /** The build a stamp records was made by the step that writes the stamp, before it. */
  lemma CargoOfStamp(cfg: Config, roots: set<Step>, tr: Trace, i: nat, x: StampId) returns (j: nat)
    requires IsRun(cfg, roots, tr) && Happens(cfg, tr, i, WriteStamp(x))
    ensures j < i && Happens(cfg, tr, j, Cargo(StampMode(x), x.c, x.t)) && tr[j].step == tr[i].step
  {
    hide Body, Notes;
    var s, k := tr[i].step, tr[i].count - 1;
    var acts := Body(cfg, s)[..k];
    LocalAt(cfg, s, k);
    NoteIsAction(acts);
    var m :| 0 <= m < k && acts[m] == Do(Cargo(StampMode(x), x.c, x.t));
    OwnBefore(BootstrapPlan(cfg), roots, tr, i, m + 1);
    j :| 0 <= j < i && tr[j] == Event(s, m + 1);
  }
}
