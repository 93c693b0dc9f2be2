/**
 The stamp that says which commit an LLVM build (or the sanitizer runtimes built from the same
 sources) was finished for.  Builds take long and are interrupted, so the state machine lets a run
 crash between any two of its file operations, in the middle of a build and in the middle of
 writing the stamp, and lets the checkout change between runs.
 */
module LlvmStamp {
  import opened Basics

  type Commit = string

  /** Something that is built into a directory of its own and stamped. */
  datatype Artifact = LlvmOf(target: string) | SanitizersOf(target: string)

  datatype Output = Absent | Partial | Complete(commit: Commit)

  /** Where the run of one step is, between its file operations. */
  datatype Pc = CallFirst | Check | Update | Remove | Call | Ready | Building | Built | Writing

  datatype Frame = Frame(artifact: Artifact, pc: Pc)

  /** A running build: the commit it read when it started, its flags, and the steps under way. */
  datatype Process = Process(commit: Option<Commit>, dryRun: bool, skipRebuild: bool, frames: seq<Frame>)

  datatype World = World(
    build: string,                     // the build triple
    checkout: Commit,                  // what the sources are at
    out: map<Artifact, Output>,
    stamp: map<Artifact, string>,      // stamp files that exist, with their contents
    process: Option<Process>)

  datatype Action =
    | Start(known: bool, dryRun: bool, skipRebuild: bool, artifact: Artifact)
    | Request(artifact: Artifact)      // the same run asks for something else
    | Finish
    | MoveCheckout(commit: Commit)     // between runs
    | Crash
    | CallLlvm                         // request the LLVM of the build triple, if that is another one
    | CheckStamp
    | UpdateSubmodule(commit: Commit)  // may move the checkout in the middle of a run
    | RemoveStamp
    | BuildStarts
    | BuildEnds
    | WriteStarts(n: nat)              // the file is truncated and its first `n` characters written
    | WriteEnds

  /** Commit hashes all have the same length. */
  predicate IsHash(s: string) { |s| == 40 }

  // ---------------------------------------------------------------- HashStamp

  function StampContents(commit: Option<Commit>): string { if commit.Some? then commit.value else "" }

  /** `HashStamp::is_done` */
  predicate IsDone(w: World, a: Artifact, commit: Option<Commit>) {
    a in w.stamp && w.stamp[a] == StampContents(commit)
  }

  function OutputOf(w: World, a: Artifact): Output { if a in w.out then w.out[a] else Absent }

  // ---------------------------------------------------------------- steps

  function FirstPc(a: Artifact): Pc { if a.LlvmOf? then Check else CallFirst }

  predicate Active(w: World) { w.process.Some? && w.process.value.frames != [] }

  /** A run between two of its requests. */
  predicate Idle(w: World) { w.process.Some? && w.process.value.frames == [] }

  function Top(w: World): Frame
    requires Active(w)
  {
    w.process.value.frames[|w.process.value.frames| - 1]
  }

  function WithTop(w: World, pc: Pc): World
    requires Active(w)
  {
    var p := w.process.value;
    w.(process := Some(p.(frames := p.frames[|p.frames| - 1 := Top(w).(pc := pc)])))
  }

  /** The step on top returns; the process goes on. */
  function Return(w: World): World
    requires Active(w)
  {
    var p := w.process.value;
    w.(process := Some(p.(frames := p.frames[..|p.frames| - 1])))
  }

  function Push(w: World, a: Artifact): World
    requires Active(w)
  {
    var p := w.process.value;
    w.(process := Some(p.(frames := p.frames + [Frame(a, FirstPc(a))])))
  }

  predicate Enabled(w: World, act: Action) {
    match act
    case Start(_, _, _, _) => w.process.None?
    case Request(_) => Idle(w)
    case Finish => Idle(w)
    case MoveCheckout(commit) => w.process.None? && IsHash(commit)
    case Crash => w.process.Some?
    case CallLlvm => Active(w) && Top(w).pc in {CallFirst, Call}
    case CheckStamp => Active(w) && Top(w).pc == Check
    case UpdateSubmodule(commit) => Active(w) && Top(w).pc == Update && IsHash(commit)
    case RemoveStamp => Active(w) && Top(w).pc == Remove
    case BuildStarts => Active(w) && Top(w).pc == Ready
    case BuildEnds => Active(w) && Top(w).pc == Building
    case WriteStarts(n) => Active(w) && Top(w).pc == Built && n <= |StampContents(w.process.value.commit)|
    case WriteEnds => Active(w) && Top(w).pc == Writing
  }

  /** The stamp check lets the step return without building. */
  predicate Accepts(w: World)
    requires Active(w)
  {
    var p, a := w.process.value, Top(w).artifact;
    || (a.SanitizersOf? && p.dryRun)
    || (a.LlvmOf? && p.skipRebuild && a in w.stamp)
    || IsDone(w, a, p.commit)
  }

  function Step(w: World, act: Action): World
    requires Enabled(w, act)
  {
    match act
    case Start(known, dryRun, skipRebuild, a) =>
      var commit := if known then Some(w.checkout) else None;
      w.(process := Some(Process(commit, dryRun, skipRebuild, [Frame(a, FirstPc(a))])))
    case Request(a) => w.(process := Some(w.process.value.(frames := [Frame(a, FirstPc(a))])))
    case Finish => w.(process := None)
    case MoveCheckout(commit) => w.(checkout := commit)
    case Crash => w.(process := None)
    case CallLlvm =>
      var w' := WithTop(w, if Top(w).pc == CallFirst then Check else Ready);
      if Top(w).artifact == LlvmOf(w.build) then w' else Push(w', LlvmOf(w.build))
    case CheckStamp =>
      if Accepts(w) then Return(w)
      else WithTop(w, if Top(w).artifact.LlvmOf? then Update else Remove)
    case UpdateSubmodule(commit) => WithTop(w.(checkout := commit), Remove)
    case RemoveStamp =>
      WithTop(w.(stamp := w.stamp - {Top(w).artifact}), if Top(w).artifact.LlvmOf? then Call else Ready)
    case BuildStarts =>
      if Top(w).artifact.LlvmOf? && w.process.value.dryRun then Return(w)
      else WithTop(w.(out := w.out[Top(w).artifact := Partial]), Building)
    case BuildEnds => WithTop(w.(out := w.out[Top(w).artifact := Complete(w.checkout)]), Built)
    case WriteStarts(n) =>
      WithTop(w.(stamp := w.stamp[Top(w).artifact := StampContents(w.process.value.commit)[..n]]), Writing)
    case WriteEnds =>
      Return(w.(stamp := w.stamp[Top(w).artifact := StampContents(w.process.value.commit)]))
  }

  /** The step on top returns to its caller. */
  predicate Returns(w: World, act: Action) {
    && Enabled(w, act)
    && match act
       case CheckStamp => Accepts(w)
       case BuildStarts => Top(w).artifact.LlvmOf? && w.process.value.dryRun
       case WriteEnds => true
       case _ => false
  }

  ghost predicate IsHistory(w: World, acts: seq<Action>)
    decreases |acts|
  {
    acts == [] || (Enabled(w, acts[0]) && IsHistory(Step(w, acts[0]), acts[1..]))
  }

  ghost function After(w: World, acts: seq<Action>): World
    requires IsHistory(w, acts)
    decreases |acts|
  {
    if acts == [] then w else After(Step(w, acts[0]), acts[1..])
  }

  /** No run moves the checkout after it has read the commit. */
  ghost predicate CheckoutStays(w: World, acts: seq<Action>)
    requires IsHistory(w, acts)
    decreases |acts|
  {
    acts == [] ||
    ((acts[0].UpdateSubmodule? ==> acts[0].commit == w.checkout) && CheckoutStays(Step(w, acts[0]), acts[1..]))
  }

  // ---------------------------------------------------------------- the invariant

  /** A stamp that holds a commit tells the truth about the last build that touched the output. */
  ghost predicate Honest(w: World) {
    forall a :: a in w.stamp && IsHash(w.stamp[a]) ==> OutputOf(w, a) == Complete(w.stamp[a])
  }

  /** The stamp of `f` agrees with how far the step has come. */
  ghost predicate FrameOk(w: World, f: Frame) {
    && (f.pc in {Call, Ready, Building, Built} ==> f.artifact !in w.stamp)
    && (f.pc in {Built, Writing} ==> OutputOf(w, f.artifact) == Complete(w.checkout))
    && (f.pc == CallFirst ==> f.artifact.SanitizersOf?)
    && (f.pc in {Update, Call} ==> f.artifact.LlvmOf?)
  }

  /** A dry run turns back before it builds. */
  ghost predicate DryOk(p: Process, f: Frame) {
    p.dryRun ==> f.pc in (if f.artifact.LlvmOf? then {Check, Update, Remove, Call, Ready} else {CallFirst, Check})
  }

  /** Steps in progress: none, one, or one that waits for the LLVM of the build triple. */
  ghost predicate FramesOk(w: World, p: Process) {
    var fs := p.frames;
    && |fs| <= 2
    && (forall i :: 0 <= i < |fs| ==> FrameOk(w, fs[i]) && DryOk(p, fs[i]))
    && (|fs| == 2 ==> fs[1].artifact == LlvmOf(w.build) != fs[0].artifact && fs[0].pc in {Check, Ready})
  }

  /** What holds in every history, whether or not a run moves the checkout under its own feet. */
  ghost predicate Sound(w: World) {
    && IsHash(w.checkout)
    && (w.process.Some? ==>
          && FramesOk(w, w.process.value)
          && (w.process.value.commit.Some? ==> IsHash(w.process.value.commit.value)))
  }

  ghost predicate Inv(w: World) {
    && Sound(w) && Honest(w)
    && (w.process.Some? && w.process.value.commit.Some? ==> w.process.value.commit.value == w.checkout)
  }

  /** A step that only concerns the top frame: `w1` is `w` with the files of its artifact changed,
      and perhaps the checkout. */
  lemma TopMoves(w: World, w1: World, pc: Pc)
    requires Sound(w) && Active(w) && IsHash(w1.checkout)
    requires w1 == w.(out := w1.out, stamp := w1.stamp, checkout := w1.checkout)
    requires forall a :: a != Top(w).artifact ==>
      && (a in w1.stamp <==> a in w.stamp) && (a in w.stamp ==> w1.stamp[a] == w.stamp[a])
      && OutputOf(w1, a) == OutputOf(w, a)
    requires FrameOk(w1, Frame(Top(w).artifact, pc)) && DryOk(w.process.value, Frame(Top(w).artifact, pc))
    ensures Sound(WithTop(w1, pc))
  {
    var p := w.process.value;
    var p' := WithTop(w1, pc).process.value;
    forall i | 0 <= i < |p'.frames| ensures FrameOk(w1, p'.frames[i]) && DryOk(p', p'.frames[i]) {
      assert FrameOk(w, p.frames[i]) && DryOk(p, p.frames[i]);
    }
  }

  lemma ReturnKeepsSound(w: World, w1: World)
    requires Sound(w) && Active(w) && w1 == w.(stamp := w1.stamp)
    requires forall a :: a != Top(w).artifact ==>
      (a in w1.stamp <==> a in w.stamp) && (a in w.stamp ==> w1.stamp[a] == w.stamp[a])
    ensures Sound(Return(w1))
  {
    var p := w.process.value;
    assert FrameOk(w, p.frames[0]) && DryOk(p, p.frames[0]);
  }

  lemma CallKeepsSound(w: World)
    requires Sound(w) && Enabled(w, CallLlvm)
    ensures Sound(Step(w, CallLlvm))
  {
    var p := w.process.value;
    assert FrameOk(w, Top(w)) && DryOk(p, Top(w));
    var pc := if Top(w).pc == CallFirst then Check else Ready;
    TopMoves(w, w, pc);
    var w1 := WithTop(w, pc);
    var p1 := w1.process.value;
    if Top(w).artifact != LlvmOf(w.build) {
      assert |p.frames| == 1;
      assert p1.frames == [Frame(Top(w).artifact, pc)];
      assert FrameOk(w1, p1.frames[0]) && DryOk(p1, p1.frames[0]);
      var p2 := Push(w1, LlvmOf(w.build)).process.value;
      assert p2.frames == [Frame(Top(w).artifact, pc), Frame(LlvmOf(w.build), Check)];
    }
  }

  lemma FileStepKeepsSound(w: World, act: Action)
    requires Sound(w) && Enabled(w, act)
    requires act.RemoveStamp? || act.BuildStarts? || act.BuildEnds? || act.WriteStarts? || act.WriteEnds?
    ensures Sound(Step(w, act))
  {
    hide Sound;
    assert Sound(w);
    TopIsOk(w);
    var p, a := w.process.value, Top(w).artifact;
    match act
    case RemoveStamp =>
      var w1 := w.(stamp := w.stamp - {a});
      TopMoves(w, w1, if a.LlvmOf? then Call else Ready);
    case BuildStarts =>
      if a.LlvmOf? && p.dryRun {
        ReturnKeepsSound(w, w);
      } else {
        TopMoves(w, w.(out := w.out[a := Partial]), Building);
      }
    case BuildEnds => TopMoves(w, w.(out := w.out[a := Complete(w.checkout)]), Built);
    case WriteStarts(n) => TopMoves(w, w.(stamp := w.stamp[a := StampContents(p.commit)[..n]]), Writing);
    case WriteEnds => ReturnKeepsSound(w, w.(stamp := w.stamp[a := StampContents(p.commit)]));
  }

  lemma TopIsOk(w: World)
    requires Sound(w) && Active(w)
    ensures FrameOk(w, Top(w)) && DryOk(w.process.value, Top(w)) && IsHash(w.checkout)
    ensures w.process.value.commit.Some? ==> IsHash(w.process.value.commit.value)
  {
  }

  lemma StepKeepsSound(w: World, act: Action)
    requires Sound(w) && Enabled(w, act)
    ensures Sound(Step(w, act))
  {
    match act
    case Start(_, _, _, _) =>
    case Request(_) =>
    case Finish =>
    case MoveCheckout(_) =>
    case Crash =>
    case CallLlvm => CallKeepsSound(w);
    case CheckStamp =>
      TopIsOk(w);
      if Accepts(w) {
        ReturnKeepsSound(w, w);
      } else {
        TopMoves(w, w, if Top(w).artifact.LlvmOf? then Update else Remove);
      }
    case UpdateSubmodule(commit) =>
      TopIsOk(w);
      TopMoves(w, w.(checkout := commit), Remove);
    case RemoveStamp => FileStepKeepsSound(w, act);
    case BuildStarts => FileStepKeepsSound(w, act);
    case BuildEnds => FileStepKeepsSound(w, act);
    case WriteStarts(_) => FileStepKeepsSound(w, act);
    case WriteEnds => FileStepKeepsSound(w, act);
  }

  // ---------------------------------------------------------------- exactly when stamps are honest

  /** The action leaves a whole commit hash in a stamp file. */
  predicate WritesHash(w: World, act: Action) {
    && Active(w) && w.process.value.commit.Some?
    && (act.WriteEnds? || (act.WriteStarts? && act.n == |w.process.value.commit.value|))
  }

  /** The checkout is no longer at the commit that the run read when it started. */
  predicate Moved(w: World) { Active(w) && w.process.value.commit != Some(w.checkout) }

  /** For every artifact and every step of every run: honest stamps stay honest exactly when no hash
      is written after the checkout was moved away from it. */
  lemma HonestIffNotMoved(w: World, act: Action)
    requires Sound(w) && Honest(w) && Enabled(w, act)
    ensures Honest(Step(w, act)) <==> !(WritesHash(w, act) && Moved(w))
  {
    var w' := Step(w, act);
    OthersKept(w, act);
    if WritesHash(w, act) {
      WrittenHash(w, act);
    } else if Active(w) {
      NoNewHash(w, act);
    }
    hide Step, WritesHash, Sound, Enabled;
  }

  /** An action leaves the files of artifacts other than the one on top alone. */
  lemma OthersKept(w: World, act: Action)
    requires Enabled(w, act)
    ensures var w' := Step(w, act);
      forall b :: b in w'.stamp && (Active(w) ==> b != Top(w).artifact) ==>
        b in w.stamp && w'.stamp[b] == w.stamp[b] && OutputOf(w', b) == OutputOf(w, b)
  {
  }

  lemma NoNewHash(w: World, act: Action)
    requires Sound(w) && Enabled(w, act) && Active(w) && !WritesHash(w, act)
    ensures var w', a := Step(w, act), Top(w).artifact;
      a in w'.stamp && IsHash(w'.stamp[a]) ==>
        a in w.stamp && w'.stamp[a] == w.stamp[a] && OutputOf(w', a) == OutputOf(w, a)
  {
    TopIsOk(w);
  }

  lemma WrittenHash(w: World, act: Action)
    requires Sound(w) && Enabled(w, act) && WritesHash(w, act)
    ensures var a := Top(w).artifact; var w' := Step(w, act);
      && a in w'.stamp && IsHash(w'.stamp[a]) && w'.stamp[a] == w.process.value.commit.value
      && OutputOf(w', a) == Complete(w.checkout)
  {
    TopIsOk(w);
    if act.WriteStarts? {
      var c := w.process.value.commit.value;
      assert c[..|c|] == c;
    }
  }

  /** The stamps are honest after every action of the history. */
  ghost predicate AlwaysHonest(w: World, acts: seq<Action>)
    requires IsHistory(w, acts)
    decreases |acts|
  {
    Honest(w) && (acts == [] || AlwaysHonest(Step(w, acts[0]), acts[1..]))
  }

  /** No run of the history writes a hash after its checkout was moved. */
  ghost predicate NeverStampsMoved(w: World, acts: seq<Action>)
    requires IsHistory(w, acts)
    decreases |acts|
  {
    acts == [] || (!(WritesHash(w, acts[0]) && Moved(w)) && NeverStampsMoved(Step(w, acts[0]), acts[1..]))
  }

  lemma {:induction false} AlwaysHonestIff(w: World, acts: seq<Action>)
    requires Sound(w) && Honest(w) && IsHistory(w, acts)
    ensures AlwaysHonest(w, acts) <==> NeverStampsMoved(w, acts)
    decreases |acts|
  {
    hide Sound, Honest, WritesHash, Moved, Step;
    if acts != [] {
      StepKeepsSound(w, acts[0]);
      HonestIffNotMoved(w, acts[0]);
      if Honest(Step(w, acts[0])) {
        AlwaysHonestIff(Step(w, acts[0]), acts[1..]);
      }
    }
  }

  /** Every step of every run keeps the stamps honest, as long as it leaves the checkout alone. */
  lemma StepKeepsInv(w: World, act: Action)
    requires Inv(w) && Enabled(w, act) && (act.UpdateSubmodule? ==> act.commit == w.checkout)
    ensures Inv(Step(w, act))
  {
    hide Sound, Honest;
    StepKeepsSound(w, act);
    HonestIffNotMoved(w, act);
  }

  lemma {:induction false} HistoryKeepsInv(w: World, acts: seq<Action>)
    requires Inv(w) && IsHistory(w, acts) && CheckoutStays(w, acts)
    ensures Inv(After(w, acts))
    decreases |acts|
  {
    if acts != [] {
      StepKeepsInv(w, acts[0]);
      HistoryKeepsInv(Step(w, acts[0]), acts[1..]);
    }
  }

  // ---------------------------------------------------------------- what is returned

  /** The run reads the commit and does not ask for stale builds. */
  predicate Careful(p: Process) { p.commit.Some? && !p.skipRebuild }

  /** A dry run turns back: LLVM where the build would start, sanitizers before their stamp is read. */
  predicate TurnsBack(w: World, act: Action) {
    && Active(w) && w.process.value.dryRun
    && (act.BuildStarts? || (act.CheckStamp? && Top(w).artifact.SanitizersOf?))
  }

  /** After any history of runs, crashes, dry runs and checkouts, a careful run that returns from a
      step, dry or not, leaves that step's output complete for the commit that is checked out, unless
      it is a dry run that turns back. */
  lemma ReturnedIsFresh(w: World, acts: seq<Action>, act: Action)
    requires Inv(w) && IsHistory(w, acts) && CheckoutStays(w, acts)
    requires Returns(After(w, acts), act) && Careful(After(w, acts).process.value) && !TurnsBack(After(w, acts), act)
    ensures var w1 := After(w, acts);
      OutputOf(Step(w1, act), Top(w1).artifact) == Complete(w1.checkout)
      && Step(w1, act).checkout == w1.checkout == w1.process.value.commit.value
  {
    HistoryKeepsInv(w, acts);
    ReturnIsFresh(After(w, acts), act);
  }

  /** When the stamp lets LLVM return without building: with skip-rebuild, whenever there is a stamp;
      otherwise when it holds the commit hash or, if the hash is unknown, nothing. */
  lemma LlvmCheckReturnsIff(w: World)
    requires Active(w) && Top(w).pc == Check && Top(w).artifact.LlvmOf?
    ensures var p, a := w.process.value, Top(w).artifact;
      && (p.skipRebuild ==> (Returns(w, CheckStamp) <==> a in w.stamp))
      && (!p.skipRebuild && p.commit.None? ==> (Returns(w, CheckStamp) <==> a in w.stamp && w.stamp[a] == ""))
      && (!p.skipRebuild && p.commit.Some? ==>
           (Returns(w, CheckStamp) <==> a in w.stamp && w.stamp[a] == p.commit.value))
  {
  }

  /** The same for sanitizers, where skip-rebuild means nothing and a dry run always returns. */
  lemma SanitizersCheckReturnsIff(w: World)
    requires Active(w) && Top(w).pc == Check && Top(w).artifact.SanitizersOf?
    ensures var p, a := w.process.value, Top(w).artifact;
      && (p.dryRun ==> Returns(w, CheckStamp))
      && (!p.dryRun && p.commit.None? ==> (Returns(w, CheckStamp) <==> a in w.stamp && w.stamp[a] == ""))
      && (!p.dryRun && p.commit.Some? ==>
           (Returns(w, CheckStamp) <==> a in w.stamp && w.stamp[a] == p.commit.value))
  {
  }

  // ---------------------------------------------------------------- nothing is built twice

  /** The contents of the stamp of a run at the current checkout that knows the hash, or does not. */
  function Expected(w: World, known: bool): string { if known then w.checkout else "" }

  /** Nothing happens that would call for a rebuild: the checkout stays, and every run knows as much
      about the hash as the others. */
  predicate Calm(w: World, act: Action, known: bool) {
    match act
    case Start(k, _, _, _) => k == known
    case MoveCheckout(commit) => commit == w.checkout
    case UpdateSubmodule(commit) => commit == w.checkout
    case _ => true
  }

  ghost predicate CalmHistory(w: World, acts: seq<Action>, known: bool)
    requires IsHistory(w, acts)
    decreases |acts|
  {
    acts == [] || (Calm(w, acts[0], known) && CalmHistory(Step(w, acts[0]), acts[1..], known))
  }

  /** The stamp of `a` is as it should be, and no step for `a` has passed its check. */
  ghost predicate Settled(w: World, a: Artifact, known: bool) {
    && a in w.stamp && w.stamp[a] == Expected(w, known)
    && (w.process.Some? ==>
          && w.process.value.commit == (if known then Some(w.checkout) else None)
          && forall f :: f in w.process.value.frames && f.artifact == a ==> f.pc in {CallFirst, Check})
  }

  lemma StepKeepsSettled(w: World, act: Action, a: Artifact, known: bool)
    requires Settled(w, a, known) && Enabled(w, act) && Calm(w, act, known)
    ensures Settled(Step(w, act), a, known) && OutputOf(Step(w, act), a) == OutputOf(w, a)
  {
    hide Settled, Step, Enabled, Calm;
    if Active(w) && Top(w).artifact == a {
      OwnStepKeepsSettled(w, act, a, known);
    } else if Active(w) {
      OtherStepKeepsSettled(w, act, a, known);
    } else {
      IdleStepKeepsSettled(w, act, a, known);
    }
  }

  lemma IdleStepKeepsSettled(w: World, act: Action, a: Artifact, known: bool)
    requires Settled(w, a, known) && Enabled(w, act) && Calm(w, act, known) && !Active(w)
    ensures Settled(Step(w, act), a, known) && OutputOf(Step(w, act), a) == OutputOf(w, a)
  {
  }

  /** A step for `a` can only be asked for LLVM, or check its stamp and return. */
  lemma OwnStepKeepsSettled(w: World, act: Action, a: Artifact, known: bool)
    requires Settled(w, a, known) && Enabled(w, act) && Calm(w, act, known) && Active(w) && Top(w).artifact == a
    ensures Settled(Step(w, act), a, known) && OutputOf(Step(w, act), a) == OutputOf(w, a)
  {
    assert Top(w) in w.process.value.frames;
    assert act.Crash? || act.CallLlvm? || act.CheckStamp?;
  }

  lemma OtherStepKeepsSettled(w: World, act: Action, a: Artifact, known: bool)
    requires Settled(w, a, known) && Enabled(w, act) && Calm(w, act, known) && Active(w) && Top(w).artifact != a
    ensures Settled(Step(w, act), a, known) && OutputOf(Step(w, act), a) == OutputOf(w, a)
  {
    var w' := Step(w, act);
    assert w'.checkout == w.checkout && a in w'.stamp && w'.stamp[a] == w.stamp[a];
    if w'.process.Some? {
      assert w'.process.value.commit == w.process.value.commit;
      FramesOfStep(w, act, a);
    }
  }

  lemma FramesOfStep(w: World, act: Action, a: Artifact)
    requires Enabled(w, act) && Active(w) && Top(w).artifact != a && Step(w, act).process.Some?
    ensures forall f :: f in Step(w, act).process.value.frames && f.artifact == a ==>
      f in w.process.value.frames || f == Frame(a, FirstPc(a))
  {
    var fs := w.process.value.frames;
    assert forall pc :: fs[|fs| - 1 := Top(w).(pc := pc)] == fs[..|fs| - 1] + [Top(w).(pc := pc)];
  }

  /** A finished build is not repeated: through every later history that leaves the checkout and the
      knowledge of the hash alone, crashes, dry runs and other steps included, the output and the
      stamp stay, and every check of that stamp returns. */
  lemma {:induction false} NotBuiltAgain(w: World, acts: seq<Action>, a: Artifact, known: bool)
    requires Settled(w, a, known) && IsHistory(w, acts) && CalmHistory(w, acts, known)
    ensures var w1 := After(w, acts);
      && Settled(w1, a, known) && OutputOf(w1, a) == OutputOf(w, a)
      && (Active(w1) && Top(w1) == Frame(a, Check) ==> Returns(w1, CheckStamp))
    decreases |acts|
  {
    hide Settled, Calm, Enabled, Step;
    if acts == [] {
      if Active(w) && Top(w) == Frame(a, Check) {
        SettledReturns(w, a, known);
      }
    } else {
      StepKeepsSettled(w, acts[0], a, known);
      NotBuiltAgain(Step(w, acts[0]), acts[1..], a, known);
    }
  }

  lemma SettledReturns(w: World, a: Artifact, known: bool)
    requires Settled(w, a, known) && Active(w) && Top(w) == Frame(a, Check)
    ensures Returns(w, CheckStamp)
  {
  }

  /** Every completed build of a run whose checkout has not moved settles its artifact. */
  lemma BuildSettles(w: World)
    requires Sound(w) && Enabled(w, WriteEnds) && (w.process.value.commit.Some? ==> !Moved(w))
    ensures var known, a := w.process.value.commit.Some?, Top(w).artifact;
      Settled(Step(w, WriteEnds), a, known) && OutputOf(Step(w, WriteEnds), a) == Complete(w.checkout)
  {
    TopIsOk(w);
    var w', a := Step(w, WriteEnds), Top(w).artifact;
    forall f | f in w'.process.value.frames ensures f.artifact != a {
      assert f == w.process.value.frames[0];
    }
  }

  /** So after any completed build, with a known hash or without, every later run at that checkout with
      the same knowledge returns at its check, and the output stays the one that was built. */
  lemma BuiltOnce(w: World, acts: seq<Action>)
    requires Sound(w) && Enabled(w, WriteEnds) && (w.process.value.commit.Some? ==> !Moved(w))
    requires IsHistory(Step(w, WriteEnds), acts)
    requires CalmHistory(Step(w, WriteEnds), acts, w.process.value.commit.Some?)
    ensures var a, w1 := Top(w).artifact, After(Step(w, WriteEnds), acts);
      && OutputOf(w1, a) == Complete(w.checkout)
      && (Active(w1) && Top(w1) == Frame(a, Check) ==> Returns(w1, CheckStamp) && Step(w1, CheckStamp).out == w1.out)
  {
    hide Settled;
    BuildSettles(w);
    NotBuiltAgain(Step(w, WriteEnds), acts, Top(w).artifact, w.process.value.commit.Some?);
  }

  /** The same stamps and the same run; only what has been built may differ. */
  ghost predicate SameStamps(w: World, v: World) { v == w.(out := v.out) }

  /** Whatever has been built, as long as the stamps are honest about it, `a` is fresh after `act`. */
  ghost predicate Vouched(w: World, act: Action, a: Artifact)
    requires Enabled(w, act)
  {
    forall v :: Inv(v) && Called(v) && SameStamps(w, v) ==> OutputOf(Step(v, act), a) == Complete(w.checkout)
  }

  /** What the stamps vouch for when a careful run returns, exactly: everything it returns, except
      where a dry run turns back, and there what has an up-to-date stamp. */
  lemma ReturnVouchedIff(w: World, act: Action)
    requires Inv(w) && Called(w) && Returns(w, act) && Careful(w.process.value)
    ensures Vouched(w, act, Top(w).artifact) <==>
            !TurnsBack(w, act) || IsDone(w, Top(w).artifact, w.process.value.commit)
  {
    hide Called, Vouched, Step;
    var a := Top(w).artifact;
    TopIsOk(w);
    if !TurnsBack(w, act) || IsDone(w, a, w.process.value.commit) {
      forall v | Inv(v) && SameStamps(w, v) ensures OutputOf(Step(v, act), a) == Complete(w.checkout) {
        ReturnIsFresh(v, act);
      }
      assert Vouched(w, act, a) by { VouchedIs(w, act, a); }
    } else {
      TurnedBackUnvouched(w, act);
    }
  }

  lemma VouchedIs(w: World, act: Action, a: Artifact)
    requires Enabled(w, act)
    requires forall v :: Inv(v) && SameStamps(w, v) ==> OutputOf(Step(v, act), a) == Complete(w.checkout)
    ensures Vouched(w, act, a)
  {
  }

  /** One state of it. */
  lemma ReturnIsFresh(w: World, act: Action)
    requires Inv(w) && Returns(w, act) && Careful(w.process.value)
    requires !TurnsBack(w, act) || IsDone(w, Top(w).artifact, w.process.value.commit)
    ensures OutputOf(Step(w, act), Top(w).artifact) == Complete(w.checkout)
  {
    TopIsOk(w);
  }

  /** Stamps that hold no up-to-date hash of `a` are honest over outputs where `a` is not fresh. */
  lemma Unvouched(w: World, a: Artifact) returns (v: World)
    requires Inv(w) && !IsDone(w, a, Some(w.checkout))
    requires w.process.Some? ==>
      forall f :: f in w.process.value.frames && f.artifact == a ==> f.pc !in {Built, Writing}
    ensures Inv(v) && SameStamps(w, v) && OutputOf(v, a) != Complete(w.checkout)
    ensures forall b :: b != a ==> OutputOf(v, b) == OutputOf(w, b)
  {
    if a in w.stamp && IsHash(w.stamp[a]) {
      v := w;
    } else {
      v := w.(out := w.out[a := Partial]);
      if w.process.Some? {
        var p := w.process.value;
        forall i | 0 <= i < |p.frames| ensures FrameOk(v, p.frames[i]) {
          assert p.frames[i] in p.frames && FrameOk(w, p.frames[i]);
        }
      }
    }
  }

  lemma TurnedBackUnvouched(w: World, act: Action)
    requires Inv(w) && Called(w) && Returns(w, act) && Careful(w.process.value)
    requires TurnsBack(w, act) && !IsDone(w, Top(w).artifact, w.process.value.commit)
    ensures !Vouched(w, act, Top(w).artifact)
  {
    var a, p := Top(w).artifact, w.process.value;
    TopIsOk(w);
    forall f | f in p.frames && f.artifact == a ensures f.pc !in {Built, Writing} {
      var i :| 0 <= i < |p.frames| && p.frames[i] == f;
      assert DryOk(p, p.frames[i]);
    }
    var v := Unvouched(w, a);
    assert Called(v);
    assert OutputOf(Step(v, act), a) == OutputOf(v, a);
  }

  /** Dry runs never touch an output. */
  lemma DryRunBuildsNothing(w: World, act: Action)
    requires Inv(w) && Enabled(w, act) && Active(w) && w.process.value.dryRun
    ensures Step(w, act).out == w.out
  {
    TopIsOk(w);
  }

  // ---------------------------------------------------------------- which llvm-config is used

  /** The run is careful and really builds. */
  predicate Strict(p: Process) { Careful(p) && !p.dryRun }

  /** Once a strict step has called for the LLVM of the build triple, that LLVM is fresh. */
  ghost predicate Called(w: World) {
    w.process.Some? && Strict(w.process.value) && |w.process.value.frames| == 1
    && PastCall(w, w.process.value.frames[0]) ==>
      OutputOf(w, LlvmOf(w.build)) == Complete(w.checkout)
  }

  /** The step has had its answer to the request for the build triple's LLVM. */
  predicate PastCall(w: World, f: Frame) {
    f.artifact != LlvmOf(w.build)
    && (if f.artifact.LlvmOf? then f.pc in {Ready, Building, Built, Writing} else f.pc != CallFirst)
  }

  lemma StepKeepsCalled(w: World, act: Action)
    requires Inv(w) && Called(w) && Enabled(w, act) && (act.UpdateSubmodule? ==> act.commit == w.checkout)
    ensures Called(Step(w, act))
  {
    if Active(w) {
      TopIsOk(w);
    }
  }

  lemma {:induction false} HistoryKeepsCalled(w: World, acts: seq<Action>)
    requires Inv(w) && Called(w) && IsHistory(w, acts) && CheckoutStays(w, acts)
    ensures Called(After(w, acts))
    decreases |acts|
  {
    if acts != [] {
      StepKeepsInv(w, acts[0]);
      StepKeepsCalled(w, acts[0]);
      HistoryKeepsCalled(Step(w, acts[0]), acts[1..]);
    }
  }

  /** The step on top is the build triple's own, or was built by this run, or the stamp of the build
      triple is up to date. */
  predicate ConfigKnown(w: World, act: Action)
    requires Active(w)
  {
    || Top(w).artifact == LlvmOf(w.build) || act == WriteEnds
    || IsDone(w, LlvmOf(w.build), w.process.value.commit)
  }

  /** The `llvm-config` a step for `t` returns is the build triple's.  It is fresh if `t` is the
      build triple, if `t` was built by this run, or if the build triple's stamp is up to date too. */
  lemma ReturnedConfigIsFresh(w: World, acts: seq<Action>, act: Action)
    requires Inv(w) && Called(w) && IsHistory(w, acts) && CheckoutStays(w, acts)
    requires Returns(After(w, acts), act) && Strict(After(w, acts).process.value)
    requires |After(w, acts).process.value.frames| == 1
    requires Top(After(w, acts)).artifact.LlvmOf? && ConfigKnown(After(w, acts), act)
    ensures var w1 := After(w, acts); OutputOf(Step(w1, act), LlvmOf(w1.build)) == Complete(w1.checkout)
  {
    HistoryKeepsInv(w, acts);
    HistoryKeepsCalled(w, acts);
    ConfigIsFresh(After(w, acts), act);
  }

  /** What the stamps vouch for about the `llvm-config` that is returned, exactly. */
  lemma ConfigVouchedIff(w: World, act: Action)
    requires Inv(w) && Called(w) && Returns(w, act) && Strict(w.process.value)
    requires |w.process.value.frames| == 1 && Top(w).artifact.LlvmOf?
    ensures Vouched(w, act, LlvmOf(w.build)) <==> ConfigKnown(w, act)
  {
    var a := LlvmOf(w.build);
    TopIsOk(w);
    if ConfigKnown(w, act) {
      forall v | Inv(v) && Called(v) && SameStamps(w, v) ensures OutputOf(Step(v, act), a) == Complete(w.checkout) {
        ConfigIsFresh(v, act);
      }
    } else {
      ForeignUnvouched(w, act);
    }
  }

  lemma ConfigIsFresh(w: World, act: Action)
    requires Inv(w) && Called(w) && Returns(w, act) && Strict(w.process.value)
    requires |w.process.value.frames| == 1 && Top(w).artifact.LlvmOf?
    requires ConfigKnown(w, act)
    ensures OutputOf(Step(w, act), LlvmOf(w.build)) == Complete(w.checkout)
  {
    TopIsOk(w);
  }

  lemma ForeignUnvouched(w: World, act: Action)
    requires Inv(w) && Called(w) && Returns(w, act) && Strict(w.process.value)
    requires |w.process.value.frames| == 1 && Top(w).artifact.LlvmOf?
    requires !ConfigKnown(w, act)
    ensures !Vouched(w, act, LlvmOf(w.build))
  {
    var a, p := LlvmOf(w.build), w.process.value;
    assert act == CheckStamp && p.frames[0].artifact != a;
    var v := Unvouched(w, a);
    assert Called(v);
    assert OutputOf(Step(v, act), a) == OutputOf(v, a);
  }

  /** The `llvm-config` with which sanitizers are checked and built is fresh, from the moment it was
      asked for until the step is done. */
  lemma SanitizersConfigIsFresh(w: World, acts: seq<Action>)
    requires Inv(w) && Called(w) && IsHistory(w, acts) && CheckoutStays(w, acts)
    requires Active(After(w, acts)) && Strict(After(w, acts).process.value)
    requires var f := Top(After(w, acts)); f.artifact.SanitizersOf? && f.pc != CallFirst
    ensures var w1 := After(w, acts); OutputOf(w1, LlvmOf(w1.build)) == Complete(w1.checkout)
  {
    HistoryKeepsInv(w, acts);
    HistoryKeepsCalled(w, acts);
    TopIsOk(After(w, acts));
  }

  // ---------------------------------------------------------------- where the conditions are needed

  lemma {:induction false} Concat(w: World, xs: seq<Action>, ys: seq<Action>)
    requires IsHistory(w, xs) && IsHistory(After(w, xs), ys)
    ensures IsHistory(w, xs + ys) && After(w, xs + ys) == After(After(w, xs), ys)
    ensures CheckoutStays(w, xs) && CheckoutStays(After(w, xs), ys) ==> CheckoutStays(w, xs + ys)
    decreases |xs|
  {
    if xs == [] {
      assert [] + ys == ys;
    } else {
      assert (xs + ys)[1..] == xs[1..] + ys;
      Concat(Step(w, xs[0]), xs[1..], ys);
    }
  }

  lemma Two(w: World, x: Action, y: Action)
    requires Enabled(w, x) && Enabled(Step(w, x), y)
    ensures IsHistory(w, [x, y]) && After(w, [x, y]) == Step(Step(w, x), y)
    ensures !x.UpdateSubmodule? && !y.UpdateSubmodule? ==> CheckoutStays(w, [x, y])
    ensures x == UpdateSubmodule(w.checkout) && !y.UpdateSubmodule? ==> CheckoutStays(w, [x, y])
  {
    hide Enabled, Step;
    assert [x, y][1..] == [y];
    assert [y][1..] == [];
    assert IsHistory(Step(w, x), [y]) && After(Step(w, x), [y]) == Step(Step(w, x), y);
    assert !y.UpdateSubmodule? ==> CheckoutStays(Step(w, x), [y]);
  }

  predicate StrictRun(w: World) { w.process.Some? && Strict(w.process.value) }

  /** A run of the build triple's LLVM, alone, at `pc`. */
  predicate Alone(w: World, pc: Pc) {
    w.process.Some? && w.process.value.frames == [Frame(LlvmOf(w.build), pc)]
  }

  predicate BuildingLlvm(w: World, pc: Pc) { StrictRun(w) && Alone(w, pc) }

  function At(w: World, pc: Pc): World
    requires w.process.Some?
  {
    w.(process := Some(w.process.value.(frames := [Frame(LlvmOf(w.build), pc)])))
  }

  lemma WithTopAlone(w: World, pc: Pc)
    requires w.process.Some? && |w.process.value.frames| == 1 && w.process.value.frames[0].artifact == LlvmOf(w.build)
    ensures WithTop(w, pc) == At(w, pc)
  {
    assert w.process.value.frames[0 := Frame(LlvmOf(w.build), pc)] == [Frame(LlvmOf(w.build), pc)];
  }

  lemma UpdateAndRemove(w: World, commit: Commit)
    requires Alone(w, Update) && IsHash(commit)
    ensures IsHistory(w, [UpdateSubmodule(commit), RemoveStamp])
    ensures After(w, [UpdateSubmodule(commit), RemoveStamp])
         == At(w.(checkout := commit, stamp := w.stamp - {LlvmOf(w.build)}), Call)
    ensures commit == w.checkout ==> CheckoutStays(w, [UpdateSubmodule(commit), RemoveStamp])
  {
    hide IsHistory, After, CheckoutStays;
    WithTopAlone(w.(checkout := commit), Remove);
    var w1 := At(w.(checkout := commit), Remove);
    WithTopAlone(w1.(stamp := w1.stamp - {LlvmOf(w.build)}), Call);
    Two(w, UpdateSubmodule(commit), RemoveStamp);
  }

  lemma CallAndBuild(w: World)
    requires BuildingLlvm(w, Call)
    ensures IsHistory(w, [CallLlvm, BuildStarts]) && CheckoutStays(w, [CallLlvm, BuildStarts])
    ensures After(w, [CallLlvm, BuildStarts]) == At(w.(out := w.out[LlvmOf(w.build) := Partial]), Building)
  {
    hide IsHistory, After, CheckoutStays;
    WithTopAlone(w, Ready);
    var w1 := At(w, Ready);
    WithTopAlone(w1.(out := w1.out[LlvmOf(w.build) := Partial]), Building);
    Two(w, CallLlvm, BuildStarts);
  }

  lemma EndAndWrite(w: World)
    requires BuildingLlvm(w, Building)
    ensures var a := LlvmOf(w.build); var acts := [BuildEnds, WriteStarts(0)];
      IsHistory(w, acts) && CheckoutStays(w, acts)
      && After(w, acts) == At(w.(out := w.out[a := Complete(w.checkout)], stamp := w.stamp[a := ""]), Writing)
  {
    hide IsHistory, After, CheckoutStays;
    var w1 := w.(out := w.out[LlvmOf(w.build) := Complete(w.checkout)]);
    WithTopAlone(w1, Built);
    WithTopAlone(At(w1, Built).(stamp := w.stamp[LlvmOf(w.build) := ""]), Writing);
    assert StampContents(w.process.value.commit)[..0] == "";
    Two(w, BuildEnds, WriteStarts(0));
  }

  /** The rest of such a run, when the update leaves the sources at `commit`. */
  function RestOfRun(commit: Commit): seq<Action> {
    [UpdateSubmodule(commit), RemoveStamp] + [CallLlvm, BuildStarts] + [BuildEnds, WriteStarts(0)] + [WriteEnds, Finish]
  }

  lemma RestOfRunEnds(w: World, commit: Commit)
    requires BuildingLlvm(w, Update) && IsHash(commit)
    ensures IsHistory(w, RestOfRun(commit))
    ensures var a := LlvmOf(w.build);
      After(w, RestOfRun(commit)) == w.(checkout := commit, process := None, out := w.out[a := Complete(commit)],
                                        stamp := w.stamp[a := w.process.value.commit.value])
  {
    hide IsHistory, After, CheckoutStays;
    var a := LlvmOf(w.build);
    UpdateAndRemove(w, commit);
    var xs := [UpdateSubmodule(commit), RemoveStamp];
    CallAndBuild(After(w, xs));
    Concat(w, xs, [CallLlvm, BuildStarts]);
    var ys := xs + [CallLlvm, BuildStarts];
    EndAndWrite(After(w, ys));
    Concat(w, ys, [BuildEnds, WriteStarts(0)]);
    var zs := ys + [BuildEnds, WriteStarts(0)];
    var w1 := After(w, zs);
    Two(w1, WriteEnds, Finish);
    Concat(w, zs, [WriteEnds, Finish]);
    assert w1.stamp[a := w.process.value.commit.value] == w.stamp[a := w.process.value.commit.value];
    assert w1.out == w.out[a := Complete(commit)];
  }

  lemma LastStep(w: World, x: Action)
    requires Enabled(w, x)
    ensures IsHistory(w, [x]) && After(w, [x]) == Step(w, x) && (!x.UpdateSubmodule? ==> CheckoutStays(w, [x]))
  {
    assert [x][1..] == [];
  }

  /** Going back to a commit and asking for `a` again. */
  function ComeBack(commit: Commit, a: Artifact): seq<Action> { [MoveCheckout(commit), Start(true, false, false, a)] }

  lemma ComeBackEnds(w: World, commit: Commit, a: Artifact)
    requires w.process.None? && IsHash(commit)
    ensures IsHistory(w, ComeBack(commit, a)) && CheckoutStays(w, ComeBack(commit, a))
    ensures After(w, ComeBack(commit, a)) ==
      w.(checkout := commit, process := Some(Process(Some(commit), false, false, [Frame(a, FirstPc(a))])))
  {
    hide IsHistory, After, CheckoutStays;
    Two(w, MoveCheckout(commit), Start(true, false, false, a));
  }

  /** If it did move, going back to the old commit makes the next strict run return a stale LLVM. */
  lemma MovedCheckoutReturnsStale(w: World, commit: Commit)
    requires Inv(w) && BuildingLlvm(w, Update) && IsHash(commit) && commit != w.checkout
    ensures var acts := RestOfRun(commit) + ComeBack(w.checkout, LlvmOf(w.build));
      IsHistory(w, acts) && StrictRun(After(w, acts)) && Returns(After(w, acts), CheckStamp)
      && After(w, acts).checkout == w.checkout
      && OutputOf(Step(After(w, acts), CheckStamp), LlvmOf(w.build)) == Complete(commit)
  {
    hide IsHistory, After;
    RestOfRunEnds(w, commit);
    ComeBackEnds(After(w, RestOfRun(commit)), w.checkout, LlvmOf(w.build));
    Concat(w, RestOfRun(commit), ComeBack(w.checkout, LlvmOf(w.build)));
  }

  /** A crash while the build triple's LLVM is rebuilt for another commit. */
  function InterruptedRebuild(build: string, commit: Commit): seq<Action> {
    ComeBack(commit, LlvmOf(build)) + [CheckStamp] + [UpdateSubmodule(commit), RemoveStamp]
    + [CallLlvm, BuildStarts] + [Crash]
  }

  lemma InterruptedRebuildEnds(w: World, commit: Commit)
    requires w.process.None? && IsHash(commit) && IsHash(w.checkout) && commit != w.checkout
    requires IsDone(w, LlvmOf(w.build), Some(w.checkout))
    ensures var acts, a := InterruptedRebuild(w.build, commit), LlvmOf(w.build);
      IsHistory(w, acts) && CheckoutStays(w, acts)
      && After(w, acts) == w.(checkout := commit, out := w.out[a := Partial], stamp := w.stamp - {a})
  {
    hide IsHistory, After, CheckoutStays;
    var a := LlvmOf(w.build);
    var xs := ComeBack(commit, a);
    ComeBackEnds(w, commit, a);
    LastStep(After(w, xs), CheckStamp);
    Concat(w, xs, [CheckStamp]);
    var ys := xs + [CheckStamp];
    UpdateAndRemove(After(w, ys), commit);
    Concat(w, ys, [UpdateSubmodule(commit), RemoveStamp]);
    var zs := ys + [UpdateSubmodule(commit), RemoveStamp];
    CallAndBuild(After(w, zs));
    Concat(w, zs, [CallLlvm, BuildStarts]);
    LastStep(After(w, zs + [CallLlvm, BuildStarts]), Crash);
    Concat(w, zs + [CallLlvm, BuildStarts], [Crash]);
  }

  /** For another target the condition on the build triple's stamp is needed: its own stamp can be
      up to date while the LLVM whose `llvm-config` it returns is half built. */
  lemma ForeignTargetReturnsPartial(w: World, commit: Commit, t: string)
    requires Inv(w) && w.process.None? && t != w.build && IsHash(commit) && commit != w.checkout
    requires IsDone(w, LlvmOf(w.build), Some(w.checkout)) && IsDone(w, LlvmOf(t), Some(w.checkout))
    ensures var acts := InterruptedRebuild(w.build, commit) + ComeBack(w.checkout, LlvmOf(t));
      IsHistory(w, acts) && CheckoutStays(w, acts) && StrictRun(After(w, acts)) && Returns(After(w, acts), CheckStamp)
      && OutputOf(Step(After(w, acts), CheckStamp), LlvmOf(w.build)) == Partial
  {
    hide IsHistory, After, CheckoutStays, InterruptedRebuild;
    var xs := InterruptedRebuild(w.build, commit);
    InterruptedRebuildEnds(w, commit);
    ComeBackEnds(After(w, xs), w.checkout, LlvmOf(t));
    Concat(w, xs, ComeBack(w.checkout, LlvmOf(t)));
  }

  /** A dry run for LLVM that is not done, up to where it turns back. */
  function DryRun(build: string, checkout: Commit): seq<Action> {
    [Start(true, true, false, LlvmOf(build)), CheckStamp] + [UpdateSubmodule(checkout), RemoveStamp] + [CallLlvm]
  }

  /** A careful dry run that turns back returns what was there before: nothing, something partial or,
      where an older stamp was honest, LLVM for another commit. */
  lemma DryRunReturnsUnbuilt(w: World)
    requires Inv(w) && w.process.None? && !IsDone(w, LlvmOf(w.build), Some(w.checkout))
    ensures var acts, a := DryRun(w.build, w.checkout), LlvmOf(w.build);
      && IsHistory(w, acts) && CheckoutStays(w, acts) && Returns(After(w, acts), BuildStarts)
      && Careful(After(w, acts).process.value) && TurnsBack(After(w, acts), BuildStarts)
      && OutputOf(Step(After(w, acts), BuildStarts), a) == OutputOf(w, a)
      && (a in w.stamp && IsHash(w.stamp[a]) ==> OutputOf(Step(After(w, acts), BuildStarts), a) == Complete(w.stamp[a]))
      && (a in w.stamp ==> w.stamp[a] != w.checkout)
  {
    hide IsHistory, After, CheckoutStays, DryRun;
    DryRunEnds(w);
  }

  lemma DryRunEnds(w: World)
    requires w.process.None? && IsHash(w.checkout) && !IsDone(w, LlvmOf(w.build), Some(w.checkout))
    ensures var acts, a := DryRun(w.build, w.checkout), LlvmOf(w.build);
      && IsHistory(w, acts) && CheckoutStays(w, acts)
      && After(w, acts)
         == w.(stamp := w.stamp - {a}, process := Some(Process(Some(w.checkout), true, false, [Frame(a, Ready)])))
  {
    hide IsHistory, After, CheckoutStays;
    var xs, ys := [Start(true, true, false, LlvmOf(w.build)), CheckStamp], [UpdateSubmodule(w.checkout), RemoveStamp];
    DryRunChecks(w);
    UpdateAndRemove(After(w, xs), w.checkout);
    Concat(w, xs, ys);
    var w1 := After(w, xs + ys);
    DryRunCalls(w1);
    Concat(w, xs + ys, [CallLlvm]);
  }

  lemma DryRunChecks(w: World)
    requires w.process.None? && !IsDone(w, LlvmOf(w.build), Some(w.checkout))
    ensures var xs, a := [Start(true, true, false, LlvmOf(w.build)), CheckStamp], LlvmOf(w.build);
      && IsHistory(w, xs) && CheckoutStays(w, xs)
      && After(w, xs) == w.(process := Some(Process(Some(w.checkout), true, false, [Frame(a, Update)])))
  {
    hide IsHistory, After, CheckoutStays;
    var a := LlvmOf(w.build);
    WithTopAlone(w.(process := Some(Process(Some(w.checkout), true, false, [Frame(a, Check)]))), Update);
    Two(w, Start(true, true, false, a), CheckStamp);
  }

  lemma DryRunCalls(w: World)
    requires Alone(w, Call)
    ensures IsHistory(w, [CallLlvm]) && CheckoutStays(w, [CallLlvm]) && After(w, [CallLlvm]) == At(w, Ready)
  {
    hide IsHistory, After, CheckoutStays;
    WithTopAlone(w, Ready);
    LastStep(w, CallLlvm);
  }

  /** A dry run for sanitizers returns although they may never have been built. */
  lemma DryRunReturnsNoSanitizers(w: World, t: string)
    requires Inv(w) && w.process.None? && IsDone(w, LlvmOf(w.build), Some(w.checkout))
    ensures var acts, a := [Start(true, true, false, SanitizersOf(t)), CallLlvm] + [CheckStamp], SanitizersOf(t);
      && IsHistory(w, acts) && CheckoutStays(w, acts) && Returns(After(w, acts), CheckStamp)
      && Careful(After(w, acts).process.value) && Top(After(w, acts)).artifact == a
      && OutputOf(Step(After(w, acts), CheckStamp), a) == OutputOf(w, a)
  {
    hide IsHistory, After, CheckoutStays;
    var xs, a := [Start(true, true, false, SanitizersOf(t)), CallLlvm], SanitizersOf(t);
    var w0 := Step(w, xs[0]);
    assert w0.process.value.frames[0 := Frame(a, Check)] == [Frame(a, Check)];
    assert WithTop(w0, Check).process.value.frames == [Frame(a, Check)];
    Two(w, xs[0], xs[1]);
    var w1 := After(w, xs);
    assert w1.process.value.frames == [Frame(a, Check), Frame(LlvmOf(w.build), Check)];
    assert w1.process.value.frames[..1] == [Frame(a, Check)];
    LastStep(w1, CheckStamp);
    Concat(w, xs, [CheckStamp]);
  }
}
