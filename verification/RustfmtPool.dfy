/**
 The rustfmt pool of `x.py fmt`: walker threads send paths into a bounded channel; one consumer
 thread batches them, spawns a rustfmt process per batch and keeps a bounded queue of children.
 The program is a transition system in which every thread and every child process takes its own
 steps in any order.
 */
module RustfmtPool {

  type Path = string

  const CHANNEL_CAPACITY := 128
  const EXTRA_PER_BATCH := 7

  datatype ChildStatus = Running | Succeeded | Failed

  datatype Child = Child(batch: seq<Path>, status: ChildStatus)

  /** Where the consumer thread is. */
  datatype Consumer =
    | Receiving                              // blocked in, or about to call, `recv`
    | Filling(first: Path, more: seq<Path>)        // collecting up to seven more paths
    | AwaitingOldest                         // too many children: waiting for the oldest
    | Draining                               // channel closed: waiting for the rest
    | Finished

  /** The whole program.  `spawned` records every batch handed to rustfmt, `awaited` every batch
      whose process was waited for. */
  datatype Pool = Pool(
    walkers: seq<seq<Path>>,
    closed: bool,
    channel: seq<Path>,
    consumer: Consumer,
    children: seq<Child>,
    spawned: seq<seq<Path>>,
    awaited: seq<seq<Path>>,
    exited: bool,
    returned: bool)

  /** One step of one thread or process. */
  datatype Action =
    | Send(w: nat)           // walker `w` sends its next path
    | Close                  // all walkers are done: the last sender is dropped
    | Recv                   // the consumer receives a path, or learns that the channel is closed
    | TryRecv                // the consumer picks up one more path for the batch
    | Spawn                  // the channel is empty or the batch is full: start rustfmt
    | ChildExits(k: nat, ok: bool)
    | Await                  // the consumer reaps the oldest child; a failed one ends the program
    | Join                   // the main thread returns

  // ---------------------------------------------------------------- steps

  predicate Stopped(s: Pool) { s.exited || s.returned }

  predicate Enabled(s: Pool, a: Action) {
    && !Stopped(s)
    && match a
       case Send(w) => w < |s.walkers| && s.walkers[w] != [] && |s.channel| < CHANNEL_CAPACITY
       case Close => !s.closed && forall w :: 0 <= w < |s.walkers| ==> s.walkers[w] == []
       case Recv => s.consumer.Receiving? && (s.channel != [] || s.closed)
       case TryRecv => s.consumer.Filling? && |s.consumer.more| < EXTRA_PER_BATCH && s.channel != []
       case Spawn => s.consumer.Filling? && (|s.consumer.more| == EXTRA_PER_BATCH || s.channel == [])
       case ChildExits(k, _) => k < |s.children| && s.children[k].status == Running
       case Await => (s.consumer.AwaitingOldest? || s.consumer.Draining?)
                     && (s.children == [] || s.children[0].status != Running)
       case Join => s.closed && s.consumer.Finished?
  }

  function Step(s: Pool, maxProcesses: nat, a: Action): Pool
    requires Enabled(s, a)
  {
    match a
    case Send(w) =>
      s.(walkers := s.walkers[w := s.walkers[w][1..]], channel := s.channel + [s.walkers[w][0]])
    case Close => s.(closed := true)
    case Recv =>
      if s.channel != [] then s.(channel := s.channel[1..], consumer := Filling(s.channel[0], []))
      else s.(consumer := Draining)
    case TryRecv =>
      s.(channel := s.channel[1..], consumer := Filling(s.consumer.first, s.consumer.more + [s.channel[0]]))
    case Spawn =>
      var batch := s.consumer.more + [s.consumer.first];
      var children := s.children + [Child(batch, Running)];
      s.(children := children, spawned := s.spawned + [batch],
         consumer := if |children| >= maxProcesses then AwaitingOldest else Receiving)
    case ChildExits(k, ok) =>
      s.(children := s.children[k := s.children[k].(status := if ok then Succeeded else Failed)])
    case Await =>
      if s.children == [] then s.(consumer := Finished)
      else if s.children[0].status == Failed then s.(exited := true)
      else s.(children := s.children[1..], awaited := s.awaited + [s.children[0].batch],
              consumer := if s.consumer.Draining? then Draining else Receiving)
    case Join => s.(returned := true)
  }

  predicate Initial(s: Pool) {
    s == Pool(s.walkers, false, [], Receiving, [], [], [], false, false)
  }

  /** A run: the states after each of `acts` from `s`, every action enabled when it is taken. */
  ghost predicate IsRun(s: Pool, maxProcesses: nat, acts: seq<Action>)
    decreases |acts|
  {
    acts == [] || (Enabled(s, acts[0]) && IsRun(Step(s, maxProcesses, acts[0]), maxProcesses, acts[1..]))
  }

  ghost function After(s: Pool, maxProcesses: nat, acts: seq<Action>): Pool
    requires IsRun(s, maxProcesses, acts)
    decreases |acts|
  {
    if acts == [] then s else After(Step(s, maxProcesses, acts[0]), maxProcesses, acts[1..])
  }

  // ---------------------------------------------------------------- where the paths are

  function Flatten(ss: seq<seq<Path>>): multiset<Path> {
    if ss == [] then multiset{} else Flatten(ss[..|ss| - 1]) + multiset(ss[|ss| - 1])
  }

  function InHand(c: Consumer): multiset<Path> {
    if c.Filling? then multiset(c.more) + multiset{c.first} else multiset{}
  }

  /** All paths of the program, wherever they are. */
  function Paths(s: Pool): multiset<Path> {
    Flatten(s.walkers) + multiset(s.channel) + InHand(s.consumer) + Flatten(s.spawned)
  }

  function Batches(cs: seq<Child>): seq<seq<Path>> {
    if cs == [] then [] else Batches(cs[..|cs| - 1]) + [cs[|cs| - 1].batch]
  }

  function Limit(maxProcesses: nat): nat { if maxProcesses == 0 then 1 else maxProcesses }

  /** Every batch that was spawned has been awaited or is still in the queue, oldest first. */
  ghost predicate Accounted(s: Pool) { s.spawned == s.awaited + Batches(s.children) }

  /** Sizes stay within their bounds, and the threads agree on who is done. */
  ghost predicate Bounded(s: Pool, maxProcesses: nat) {
    && |s.channel| <= CHANNEL_CAPACITY
    && (forall b :: b in s.spawned ==> 1 <= |b| <= 1 + EXTRA_PER_BATCH)
    && (s.consumer.Filling? ==> |s.consumer.more| <= EXTRA_PER_BATCH)
    && |s.children| <= Limit(maxProcesses)
    && (s.consumer.Receiving? || s.consumer.Filling? ==> |s.children| < Limit(maxProcesses))
    && (s.consumer.AwaitingOldest? ==> s.children != [] && |s.children| >= maxProcesses)
    && (s.closed ==> forall w :: 0 <= w < |s.walkers| ==> s.walkers[w] == [])
    && (s.consumer.Draining? || s.consumer.Finished? ==> s.closed && s.channel == [])
    && (s.consumer.Finished? ==> s.children == [])
    && (s.returned ==> s.closed && s.consumer.Finished?)
  }

  /** What every step keeps. */
  ghost predicate Inv(s: Pool, maxProcesses: nat, all: multiset<Path>) {
    Paths(s) == all && Accounted(s) && Bounded(s, maxProcesses)
  }

  // ---------------------------------------------------------------- lemmas about the containers

  lemma {:induction false} FlattenUpdate(ss: seq<seq<Path>>, w: nat)
    requires w < |ss| && ss[w] != []
    ensures Flatten(ss) == Flatten(ss[w := ss[w][1..]]) + multiset{ss[w][0]}
    decreases |ss|
  {
    hide Flatten;
    var tt, n := ss[w := ss[w][1..]], |ss| - 1;
    assert ss == ss[..n] + [ss[n]] && tt == tt[..n] + [tt[n]];
    FlattenAppend(ss[..n], ss[n]);
    FlattenAppend(tt[..n], tt[n]);
    if w == n {
      assert tt[..n] == ss[..n];
      TakeFirst(ss[w]);
    } else {
      assert tt[..n] == ss[..n][w := ss[..n][w][1..]];
      FlattenUpdate(ss[..n], w);
    }
  }

  lemma {:induction false} FlattenEmpty(ss: seq<seq<Path>>)
    requires forall w :: 0 <= w < |ss| ==> ss[w] == []
    ensures Flatten(ss) == multiset{}
    decreases |ss|
  {
    if ss != [] {
      FlattenEmpty(ss[..|ss| - 1]);
    }
  }

  lemma FlattenAppend(ss: seq<seq<Path>>, b: seq<Path>)
    ensures Flatten(ss + [b]) == Flatten(ss) + multiset(b)
  {
    assert (ss + [b])[..|ss + [b]| - 1] == ss;
  }

  lemma BatchesAppend(cs: seq<Child>, c: Child)
    ensures Batches(cs + [c]) == Batches(cs) + [c.batch]
  {
    assert (cs + [c])[..|cs + [c]| - 1] == cs;
  }

  lemma {:induction false} BatchesAt(cs: seq<Child>)
    ensures |Batches(cs)| == |cs|
    ensures forall i :: 0 <= i < |cs| ==> Batches(cs)[i] == cs[i].batch
    decreases |cs|
  {
    if cs != [] {
      BatchesAt(cs[..|cs| - 1]);
    }
  }

  lemma BatchesFirst(cs: seq<Child>)
    requires cs != []
    ensures Batches(cs) == [cs[0].batch] + Batches(cs[1..])
  {
    BatchesAt(cs);
    BatchesAt(cs[1..]);
  }

  // ---------------------------------------------------------------- the invariant

  lemma InitialKeepsInv(s: Pool, maxProcesses: nat)
    requires Initial(s)
    ensures Inv(s, maxProcesses, Flatten(s.walkers))
  {
  }

  lemma StepKeepsBounds(s: Pool, m: nat, a: Action)
    requires Bounded(s, m) && Enabled(s, a)
    ensures Bounded(Step(s, m, a), m)
  {
    hide Bounded, Step, Enabled;
    if a.Spawn? {
      SpawnKeepsBounds(s, m);
    } else if a.Await? {
      AwaitKeepsBounds(s, m);
    } else {
      OthersKeepBounds(s, m, a);
    }
  }

  lemma SpawnKeepsBounds(s: Pool, m: nat)
    requires Bounded(s, m) && Enabled(s, Spawn)
    ensures Bounded(Step(s, m, Spawn), m)
  {
  }

  lemma AwaitKeepsBounds(s: Pool, m: nat)
    requires Bounded(s, m) && Enabled(s, Await)
    ensures Bounded(Step(s, m, Await), m)
  {
  }

  lemma OthersKeepBounds(s: Pool, m: nat, a: Action)
    requires Bounded(s, m) && Enabled(s, a) && !a.Spawn? && !a.Await?
    ensures Bounded(Step(s, m, a), m)
  {
  }

  lemma StepKeepsAccount(s: Pool, m: nat, a: Action)
    requires Accounted(s) && Enabled(s, a)
    ensures Accounted(Step(s, m, a))
  {
    match a
    case Spawn =>
      hide Batches;
      var batch := s.consumer.more + [s.consumer.first];
      BatchesAppend(s.children, Child(batch, Running));
    case ChildExits(k, ok) => ExitKeepsAccount(s, m, k, ok);
    case Await =>
      hide Batches;
      if s.children != [] {
        BatchesFirst(s.children);
      }
    case _ =>
  }

  lemma ExitKeepsAccount(s: Pool, m: nat, k: nat, ok: bool)
    requires Accounted(s) && Enabled(s, ChildExits(k, ok))
    ensures Accounted(Step(s, m, ChildExits(k, ok)))
  {
    hide Batches;
    var cs := Step(s, m, ChildExits(k, ok)).children;
    BatchesAt(s.children);
    BatchesAt(cs);
    assert Batches(cs) == Batches(s.children);
  }

  lemma SendKeepsPaths(s: Pool, m: nat, w: nat)
    requires Enabled(s, Send(w))
    ensures Paths(Step(s, m, Send(w))) == Paths(s)
    ensures |Flatten(Step(s, m, Send(w)).walkers)| == |Flatten(s.walkers)| - 1
  {
    FlattenUpdate(s.walkers, w);
    hide Flatten;
    assert multiset(s.channel + [s.walkers[w][0]]) == multiset(s.channel) + multiset{s.walkers[w][0]};
  }

  lemma SpawnKeepsPaths(s: Pool, m: nat)
    requires Enabled(s, Spawn)
    ensures Paths(Step(s, m, Spawn)) == Paths(s)
  {
    var batch := s.consumer.more + [s.consumer.first];
    var s' := Step(s, m, Spawn);
    assert s'.walkers == s.walkers && s'.channel == s.channel && s'.spawned == s.spawned + [batch];
    assert InHand(s'.consumer) == multiset{};
    hide Step, Flatten, InHand, Enabled;
    BatchIsInHand(s.consumer);
    FlattenAppend(s.spawned, batch);
    Regroup(Flatten(s.walkers), multiset(s.channel), InHand(s.consumer), Flatten(s.spawned));
  }

  lemma BatchIsInHand(c: Consumer)
    requires c.Filling?
    ensures multiset(c.more + [c.first]) == InHand(c) && |InHand(c)| >= 1
  {
  }

  lemma Regroup(a: multiset<Path>, b: multiset<Path>, c: multiset<Path>, d: multiset<Path>)
    ensures a + b + multiset{} + (d + c) == a + b + c + d
  {
  }

  lemma OthersKeepPaths(s: Pool, m: nat, a: Action)
    requires Enabled(s, a) && !a.Send? && !a.Recv? && !a.TryRecv? && !a.Spawn?
    ensures Paths(Step(s, m, a)) == Paths(s)
  {
    var s' := Step(s, m, a);
    assert s'.walkers == s.walkers && s'.channel == s.channel && s'.spawned == s.spawned;
    assert InHand(s'.consumer) == InHand(s.consumer);
    hide Flatten, InHand;
  }

  lemma StepKeepsPaths(s: Pool, m: nat, a: Action)
    requires Enabled(s, a)
    ensures Paths(Step(s, m, a)) == Paths(s)
  {
    hide Paths, Step;
    match a
    case Send(w) => SendKeepsPaths(s, m, w);
    case Recv => RecvKeepsPaths(s, m);
    case TryRecv => TryRecvKeepsPaths(s, m);
    case Spawn => SpawnKeepsPaths(s, m);
    case Close => OthersKeepPaths(s, m, a);
    case ChildExits(_, _) => OthersKeepPaths(s, m, a);
    case Await => OthersKeepPaths(s, m, a);
    case Join => OthersKeepPaths(s, m, a);
  }

  lemma RecvKeepsPaths(s: Pool, m: nat)
    requires Enabled(s, Recv)
    ensures Paths(Step(s, m, Recv)) == Paths(s)
  {
    var s' := Step(s, m, Recv);
    assert s'.walkers == s.walkers && s'.spawned == s.spawned && InHand(s.consumer) == multiset{};
    if s.channel == [] {
      assert s'.channel == [] && InHand(s'.consumer) == multiset{};
    } else {
      assert s'.channel == s.channel[1..] && InHand(s'.consumer) == multiset{s.channel[0]};
      hide Step, Flatten, InHand, Enabled;
      TakeFirst(s.channel);
      RegroupTaken(Flatten(s.walkers), multiset(s'.channel), multiset{}, multiset{s.channel[0]}, Flatten(s.spawned));
    }
  }

  lemma TryRecvKeepsPaths(s: Pool, m: nat)
    requires Enabled(s, TryRecv)
    ensures Paths(Step(s, m, TryRecv)) == Paths(s)
  {
    var s' := Step(s, m, TryRecv);
    assert s'.walkers == s.walkers && s'.spawned == s.spawned && s'.channel == s.channel[1..];
    AddToHand(s.consumer, s.channel[0]);
    assert InHand(s'.consumer) == InHand(s.consumer) + multiset{s.channel[0]};
    hide Step, Flatten, InHand, Enabled;
    TakeFirst(s.channel);
    RegroupTaken(Flatten(s.walkers), multiset(s'.channel), InHand(s.consumer), multiset{s.channel[0]},
      Flatten(s.spawned));
  }

  lemma AddToHand(c: Consumer, x: Path)
    requires c.Filling?
    ensures InHand(Filling(c.first, c.more + [x])) == InHand(c) + multiset{x}
  {
  }

  lemma TakeFirst(channel: seq<Path>)
    requires channel != []
    ensures multiset(channel) == multiset(channel[1..]) + multiset{channel[0]}
  {
    assert channel == [channel[0]] + channel[1..];
  }

  lemma RegroupTaken(a: multiset<Path>, b: multiset<Path>, c: multiset<Path>, x: multiset<Path>, d: multiset<Path>)
    ensures a + b + (c + x) + d == a + (b + x) + c + d && multiset{} + x == x
  {
  }

  lemma StepKeepsInv(s: Pool, m: nat, all: multiset<Path>, a: Action)
    requires Inv(s, m, all) && Enabled(s, a)
    ensures Inv(Step(s, m, a), m, all)
  {
    hide Bounded, Accounted, Paths, Step;
    StepKeepsBounds(s, m, a);
    StepKeepsAccount(s, m, a);
    StepKeepsPaths(s, m, a);
  }

  lemma {:induction false} RunKeepsInv(s: Pool, m: nat, all: multiset<Path>, acts: seq<Action>)
    requires Inv(s, m, all) && IsRun(s, m, acts)
    ensures Inv(After(s, m, acts), m, all)
    decreases |acts|
  {
    if acts != [] {
      StepKeepsInv(s, m, all, acts[0]);
      RunKeepsInv(Step(s, m, acts[0]), m, all, acts[1..]);
    }
  }

  // ---------------------------------------------------------------- progress

  /** Something can always happen until the program has stopped. */
  lemma NeverStuck(s: Pool, m: nat, all: multiset<Path>) returns (a: Action)
    requires Inv(s, m, all) && !Stopped(s)
    ensures Enabled(s, a)
  {
    match s.consumer
    case Receiving =>
      if s.channel != [] || s.closed {
        a := Recv;
      } else if w: nat :| w < |s.walkers| && s.walkers[w] != [] {
        a := Send(w);
      } else {
        a := Close;
      }
    case Filling(_, more) =>
      a := if |more| < EXTRA_PER_BATCH && s.channel != [] then TryRecv else Spawn;
    case AwaitingOldest =>
      a := if s.children[0].status == Running then ChildExits(0, true) else Await;
    case Draining =>
      a := if s.children != [] && s.children[0].status == Running then ChildExits(0, true) else Await;
    case Finished =>
      a := Join;
  }

  function Waiting(c: ChildStatus): nat { if c.Running? then 4 else 3 }

  function ChildWork(cs: seq<Child>): nat {
    if cs == [] then 0 else ChildWork(cs[..|cs| - 1]) + Waiting(cs[|cs| - 1].status)
  }

  function Phase(c: Consumer): nat {
    match c
    case Receiving => 2
    case Filling(_, _) => 2
    case AwaitingOldest => 3
    case Draining => 1
    case Finished => 0
  }

  /** Work on paths that no rustfmt has been started for. */
  function PathWork(s: Pool): nat { 10 * |Flatten(s.walkers)| + 9 * |s.channel| + 8 * |InHand(s.consumer)| }

  /** Work left: every action lowers it. */
  function Work(s: Pool): nat {
    PathWork(s) + ChildWork(s.children) + Phase(s.consumer)
    + (if s.closed then 0 else 1) + (if s.exited then 0 else 1) + (if s.returned then 0 else 1)
  }

  lemma ChildWorkAppend(cs: seq<Child>, c: Child)
    ensures ChildWork(cs + [c]) == ChildWork(cs) + Waiting(c.status)
  {
    assert (cs + [c])[..|cs + [c]| - 1] == cs;
  }

  lemma {:induction false} ChildWorkUpdate(cs: seq<Child>, k: nat, c: Child)
    requires k < |cs|
    ensures ChildWork(cs[k := c]) == ChildWork(cs) - Waiting(cs[k].status) + Waiting(c.status)
    decreases |cs|
  {
    var n := |cs| - 1;
    if k == n {
      assert cs[k := c][..n] == cs[..n];
    } else {
      assert cs[k := c][..n] == cs[..n][k := c];
      ChildWorkUpdate(cs[..n], k, c);
    }
  }

  lemma {:induction false} ChildWorkFirst(cs: seq<Child>)
    requires cs != []
    ensures ChildWork(cs) == Waiting(cs[0].status) + ChildWork(cs[1..])
    decreases |cs|
  {
    var n := |cs| - 1;
    if n > 0 {
      ChildWorkFirst(cs[..n]);
      assert cs[..n][1..] == cs[1..][..n - 1];
    }
  }

  lemma ReceiveLowersWork(s: Pool, m: nat, a: Action)
    requires Enabled(s, a) && (a.Recv? || a.TryRecv?)
    ensures Work(Step(s, m, a)) < Work(s)
  {
    hide Flatten, ChildWork;
  }

  lemma SpawnLowersWork(s: Pool, m: nat)
    requires Enabled(s, Spawn)
    ensures Work(Step(s, m, Spawn)) < Work(s)
  {
    var batch := s.consumer.more + [s.consumer.first];
    BatchIsInHand(s.consumer);
    ChildWorkAppend(s.children, Child(batch, Running));
    assert InHand(Step(s, m, Spawn).consumer) == multiset{};
    hide Flatten, ChildWork, InHand;
  }

  lemma ExitLowersWork(s: Pool, m: nat, k: nat, ok: bool)
    requires Enabled(s, ChildExits(k, ok))
    ensures Work(Step(s, m, ChildExits(k, ok))) < Work(s)
  {
    hide Flatten, ChildWork, InHand;
    ChildWorkUpdate(s.children, k, s.children[k].(status := if ok then Succeeded else Failed));
  }

  lemma AwaitKeepsPathWork(s: Pool, m: nat)
    requires Enabled(s, Await)
    ensures PathWork(Step(s, m, Await)) == PathWork(s)
  {
    hide Flatten, InHand;
    var s' := Step(s, m, Await);
    assert s'.walkers == s.walkers && s'.channel == s.channel;
    assert !s.consumer.Filling? && !s'.consumer.Filling?;
    hide Step, Enabled;
    NothingInHand(s.consumer);
    NothingInHand(s'.consumer);
  }

  lemma NothingInHand(c: Consumer)
    requires !c.Filling?
    ensures InHand(c) == multiset{}
  {
  }

  lemma AwaitLowersWork(s: Pool, m: nat)
    requires Enabled(s, Await)
    ensures Work(Step(s, m, Await)) < Work(s)
  {
    hide PathWork, ChildWork;
    AwaitKeepsPathWork(s, m);
    if s.children != [] {
      ChildWorkFirst(s.children);
    }
  }

  /** Every action of every thread and process lowers the work left. */
  lemma StepLowersWork(s: Pool, m: nat, a: Action)
    requires Enabled(s, a)
    ensures Work(Step(s, m, a)) < Work(s)
  {
    hide Flatten, ChildWork, InHand;
    match a
    case Send(w) => SendKeepsPaths(s, m, w);
    case Recv => ReceiveLowersWork(s, m, a);
    case TryRecv => ReceiveLowersWork(s, m, a);
    case Spawn => SpawnLowersWork(s, m);
    case ChildExits(k, ok) => ExitLowersWork(s, m, k, ok);
    case Await => AwaitLowersWork(s, m);
    case Close =>
    case Join =>
  }

  /** Every run is finite: it has at most as many actions as there was work at the start. */
  lemma {:induction false} RunsEnd(s: Pool, m: nat, acts: seq<Action>)
    requires IsRun(s, m, acts)
    ensures |acts| + Work(After(s, m, acts)) <= Work(s)
    decreases |acts|
  {
    if acts != [] {
      StepLowersWork(s, m, acts[0]);
      RunsEnd(Step(s, m, acts[0]), m, acts[1..]);
    }
  }

  // ---------------------------------------------------------------- failures

  /** In these actions some rustfmt process has failed. */
  ghost predicate SomeFails(acts: seq<Action>) { exists k :: ChildExits(k, false) in acts }

  ghost predicate FailedChild(s: Pool) { exists k :: 0 <= k < |s.children| && s.children[k].status == Failed }

  /** A failure shows until it is noticed, and then the program is over; without one it is not. */
  ghost predicate Reported(s: Pool, failed: bool) {
    && (failed <==> FailedChild(s) || s.exited)
    && (s.exited ==> !s.returned)
  }

  lemma StepReports(s: Pool, m: nat, a: Action, failed: bool)
    requires Reported(s, failed) && Enabled(s, a)
    ensures Reported(Step(s, m, a), failed || (a.ChildExits? && !a.ok))
  {
    var s' := Step(s, m, a);
    match a
    case Spawn =>
      assert forall k :: 0 <= k < |s.children| ==> s'.children[k] == s.children[k];
    case ChildExits(k, ok) =>
      assert forall j :: 0 <= j < |s.children| && j != k ==> s'.children[j] == s.children[j];
      assert s'.children[k].status == if ok then Succeeded else Failed;
    case Await =>
      assert forall j :: 0 < j < |s.children| && |s'.children| < |s.children| ==> s'.children[j - 1] == s.children[j];
    case _ =>
      assert s'.children == s.children;
  }

  lemma {:induction false} RunReports(s: Pool, m: nat, acts: seq<Action>, failed: bool)
    requires Reported(s, failed) && IsRun(s, m, acts)
    ensures Reported(After(s, m, acts), failed || SomeFails(acts))
    decreases |acts|
  {
    hide Enabled, Step, Reported;
    if acts != [] {
      var now := failed || (acts[0].ChildExits? && !acts[0].ok);
      StepReports(s, m, acts[0], failed);
      RunReports(Step(s, m, acts[0]), m, acts[1..], now);
      FirstOrLater(acts);
    }
  }

  lemma FirstOrLater(acts: seq<Action>)
    requires acts != []
    ensures SomeFails(acts) <==> (acts[0].ChildExits? && !acts[0].ok) || SomeFails(acts[1..])
  {
    assert acts == [acts[0]] + acts[1..];
    if acts[0].ChildExits? && !acts[0].ok {
      assert ChildExits(acts[0].k, false) in acts;
    }
  }

  // ---------------------------------------------------------------- batches

  /** Every batch but a full one was started on an empty channel. */
  ghost predicate FilledUp(s: Pool, m: nat, acts: seq<Action>)
    requires IsRun(s, m, acts)
    decreases |acts|
  {
    acts == [] ||
    (var s' := Step(s, m, acts[0]);
     && FilledUp(s', m, acts[1..])
     && (|s'.spawned| > |s.spawned| ==> |s'.spawned[|s.spawned|]| == 8 || s.channel == []))
  }

  lemma {:induction false} BatchesAreFilledUp(s: Pool, m: nat, acts: seq<Action>)
    requires IsRun(s, m, acts)
    ensures FilledUp(s, m, acts)
    decreases |acts|
  {
    if acts != [] {
      BatchesAreFilledUp(Step(s, m, acts[0]), m, acts[1..]);
    }
  }

  // ---------------------------------------------------------------- the theorem

  /** Each path is in exactly one batch, and every batch was awaited. */
  ghost predicate AllFormatted(s: Pool, all: multiset<Path>) {
    && Flatten(s.spawned) == all && s.awaited == s.spawned && s.children == []
    && (forall b :: b in s.spawned ==> 1 <= |b| <= 8)
  }

  /** In every interleaving: the channel and the child queue stay within their bounds and no path
      is lost or duplicated; a program that can take no step has stopped; one that returns has
      formatted every path exactly once and waited for every child, none of which failed; and one
      that has stopped in a run where some child failed has exited.  Walkers wait only for a full
      channel, batches are started only when full or when no path is waiting, and the consumer waits
      for a child only when there are as many as allowed. */
  lemma PoolCorrect(s: Pool, m: nat, acts: seq<Action>)
    requires Initial(s) && IsRun(s, m, acts)
    ensures var s' := After(s, m, acts);
      && Paths(s') == Flatten(s.walkers)
      && |s'.channel| <= 128 && |s'.children| <= Limit(m)
      && |acts| <= Work(s)
      && ((forall a :: !Enabled(s', a)) <==> Stopped(s'))
      && (s'.returned ==> AllFormatted(s', Flatten(s.walkers)))
    ensures var s' := After(s, m, acts);
      && (s'.returned ==> !SomeFails(acts)) && (s'.exited ==> SomeFails(acts))
      && (Stopped(s') ==> (s'.exited <==> SomeFails(acts)) && (s'.returned <==> !SomeFails(acts)))
    ensures FilledUp(s, m, acts)
    ensures var s' := After(s, m, acts);
      && (forall w :: 0 <= w < |s'.walkers| && s'.walkers[w] != [] && !Enabled(s', Send(w)) ==>
            Stopped(s') || |s'.channel| == 128)
      && (s'.consumer.AwaitingOldest? ==> |s'.children| >= m)
  {
    RunReports(s, m, acts, false);
    BatchesAreFilledUp(s, m, acts);
    InitialKeepsInv(s, m);
    RunKeepsInv(s, m, Flatten(s.walkers), acts);
    RunsEnd(s, m, acts);
    var s' := After(s, m, acts);
    if !Stopped(s') {
      var a := NeverStuck(s', m, Flatten(s.walkers));
    }
    if s'.returned {
      FlattenEmpty(s'.walkers);
      assert Batches(s'.children) == [];
    }
  }
}
