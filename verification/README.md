# A verified model of rustbuild

This project models the bootstrap system under `src/bootstrap` and proves what its scheduling engine, its staged plan
and the small protocols around them promise.

- **The scheduler** (`Scheduler`, `Runs`, `RunTheorems`, `Building`). `Builder::ensure` with its step stack, write-once
  cache, cycle detector and nested timing. A *plan* gives every step a body, a list of requests and effects, and an
  output computed from the outputs of its requests. `Scheduler.Ensure` is the engine as a function on values; the class
  `Building.Builder` is the engine as the program runs it and is proved equal to that function. A *trace* lists which
  action of which step was completed when; `Runs.Legal` says what a trace of the engine may look like, and everything
  about whole runs is proved for every legal trace, hence for every moment of every run.
- **The bootstrap plan** (`Naming`, `Bootstrap`, `BootstrapLocal`, `BootstrapBodies`, `BootstrapRuns`,
  `BootstrapResults`, `BootstrapInstalls`, `BootstrapCopies`, `StampLifetimes`, `TripleClash`).
  The bodies of `Assemble`, `Std`, `Rustc`, `CodegenBackend`, the link steps, `Sysroot`, `Libdir`, the tools and the
  native libraries, for every configuration. `BootstrapBodies.BodyOk` checks each action of each body against what
  comes before it in the same body; the theorems of `BootstrapRuns` turn these local facts into facts about runs, and
  those of `BootstrapResults`, `BootstrapInstalls` and `BootstrapCopies` say what finished steps have left behind.
- **`lib.rs`, `compile.rs` and `cache.rs`** (`CrateGraph`, `StampFile`, `FileTree`, `Interner`). Crate reachability,
  the stamp-file codec, recursive copies, and interning.
- **Protocols** (`RustfmtPool`, `LlvmStamp`). The rustfmt process pool in every interleaving, and the LLVM stamp in
  every history of runs, crashes and checkouts.
- **Configuration** (`TomlText`, `ConfigToml`, `TomlReading`, `TomlValues`, `ConfigureScript`, `ConfigureTheorems`,
  `ConfigureTemplate`). `configure.py` as the writer and `get_toml` as the reader of `config.toml`, and what each of
  them means in terms of the text alone.

Some promises turned out to hold only under a condition. These are stated with the exact condition:

- Every stamp file that assembling a compiler reads was written before in the same run and is still there, exactly for
  the stages that `BootstrapRuns.StagesSupported` admits: any stage in a full bootstrap, otherwise up to 2, or 3 for a
  host that is neither the build triple nor configured (`BootstrapRuns.AssembleFindsStamps`,
  `StampLifetimes.AssembleFindsFiles`).
- Building the library for one target and then for another erases nothing that was copied, exactly when the second
  does not share its triple with the first or with the build triple without being the same target. Directories are
  named by the triple, while steps are told apart also by the target specification file (`TripleClash`). The first
  target is taken not to be a second specification of the build triple; whether that alone loses files depends on what
  the configuration copies.
- The LLVM stamp tells the truth exactly when the checkout is not moved between reading the commit hash and writing it.
  The submodule update comes after the hash was read (`LlvmStamp.HonestIffNotMoved`, `LlvmStamp.AlwaysHonestIff`).
- When a run with a known hash and without skip-rebuild returns, honest stamps vouch for what it returns, exactly unless
  it is a dry run that turns back before building and the stamp is not up to date (`LlvmStamp.ReturnVouchedIff`); such
  a dry run returns whatever was there (`LlvmStamp.DryRunReturnsUnbuilt`, `LlvmStamp.DryRunReturnsNoSanitizers`).
- The LLVM stamp that is checked belongs to the requested target while the `llvm-config` that is returned belongs to
  the build triple. The stamps vouch for that `llvm-config` exactly if the request is for the build triple, the run has
  just built what was requested, or the stamp of the build triple is up to date too (`LlvmStamp.ConfigVouchedIff`);
  `LlvmStamp.ForeignTargetReturnsPartial` is a history where it is half built.
- `cp_r` and an unrestricted `cp_filtered` both succeed and leave the same disk, exactly when no file meets a directory at
  any depth and the destination has nothing that the source lacks below their common directories
  (`FileTree.CopiesAgreeIff`).
- A dry run of `cp_filtered` changes nothing exactly when no name it takes is already in the destination with the same
  kind, because `recurse_` removes before it asks about dry runs (`FileTree.DryRunHarmlessIff`).

## Model

| member | source | states |
|---|---|---|
| Runs.EnsureKeepsInv | src/bootstrap/builder.rs:1584-1630 | A request that returns keeps the invariant (the trace is legal, the cache holds exactly the finished steps, the stack exactly the unfinished ones), caches its output, never changes an earlier cache entry, and acts only through steps that were neither cached nor running. |
| RunTheorems.EventsUnique | src/bootstrap/builder.rs:1584-1630 | In every legal trace no action of any step happens twice; that the engine only makes legal traces, and so runs each step at most once, is `Runs.EnsureKeepsInv`. |
| RunTheorems.NeedBefore | src/bootstrap/builder.rs:1584-1630 | In every legal trace, what a step requested is complete, to its last action, before the step's next action: the trace is a topological order. |
| RunTheorems.StartedWasReached | src/bootstrap/builder.rs:1584-1630 | Whatever runs is reachable from a request. |
| RunTheorems.CycleDetectionExact | src/bootstrap/builder.rs:1586-1598 | The cycle panic is raised if and only if a walk from the request through uncached steps meets itself or a step on the stack. |
| RunTheorems.EnsureRefinesEval | src/bootstrap/builder.rs:1584-1630 | With a correct cache, a top-level request fails exactly when plain uncached recursive evaluation fails, and otherwise returns its value and leaves a correct cache. |
| RunTheorems.WholeRun | src/bootstrap/builder.rs:1584-1630 | For every sequence of requests: the run panics if and only if some request cannot be evaluated; otherwise the steps run are exactly those the requests reach, and each cached output is the step's plain evaluation. |
| RunTheorems.RankedNeverCycles | src/bootstrap/builder.rs:1586-1598 | If requests strictly lower a measure, no sequence of requests trips the cycle detector, from any state. |
| Building.ChargeStep | src/bootstrap/builder.rs:1608-1616 | Charging a step's whole duration to its requester and reporting the duration less its own requests balances the books at any nesting depth, and the subtraction does not underflow. |
| Building.Builder.Ensure | src/bootstrap/builder.rs:1584-1630 | The imperative engine panics exactly when the specification finds a cycle, and otherwise ends in the specified state with the specified output, the stack restored, the self-times reported meanwhile adding up to the time charged, and nothing reported for a cached step. |
| Building.Builder.Process | src/bootstrap/builder.rs:1605-1629 | The uncached part of a request: the self-times of the steps it runs add up to exactly the time that elapsed, with its own line last. |
| Building.Builder.Leave | src/bootstrap/builder.rs:1617-1628 | The step that is popped is the one that was pushed, and its output is cached for the first time: neither the pop assertion nor the "second time" assertion can fail. |
| Building.Builder.EnsureAll | src/bootstrap/builder.rs:1584-1630 | A whole invocation: it succeeds if and only if every request can be evaluated, ends with an empty stack and exactly the evaluated, reached steps cached, and the reported self-times add up to all the time charged. |
| Naming.DecimalValue | src/bootstrap/lib.rs:726-726 | Printing a stage number in decimal loses nothing. |
| Naming.DocumentedLayout | src/bootstrap/README.md:207-248 | The directories of stages, sysroots, library directories and stamps have the documented names. |
| Naming.StageNameInjective | src/bootstrap/lib.rs:718-727 | A stage directory's name determines the stage and the suffix. |
| Naming.CargoOutInjective | src/bootstrap/lib.rs:718-734 | Two Cargo output directories coincide if and only if host triple, stage, target triple and mode suffix agree. |
| Naming.StampPathInjective | src/bootstrap/compile.rs:908-933 | Two stamp files coincide if and only if they are for the same kind of build, compiler, target triple and backend. |
| Naming.SysrootInjective | src/bootstrap/compile.rs:966-974 | One sysroot lies at or above a path inside another only if the two are the same directory, of the same stage and host triple. |
| Naming.SysrootApart | src/bootstrap/compile.rs:966-974 | No sysroot contains a Cargo output directory or a stamp. |
| BootstrapBodies.StdBodyOk | src/bootstrap/compile.rs:63-129 | Every request of `Std` lowers the measure and stays with build-triple compilers; every copy has its directory prepared before it, every stamp its build, every build what it builds against, every link step its stamp and the right source; nothing is compiled where stage 1 is lifted, and nothing optional is requested that is not called for. |
| BootstrapBodies.RustcBodyOk | src/bootstrap/compile.rs:547-644 | The same for `Rustc`. |
| BootstrapBodies.CodegenBodyOk | src/bootstrap/compile.rs:796-855 | The same for `CodegenBackend`. |
| BootstrapBodies.LinkBodyOk | src/bootstrap/compile.rs:1207-1225 | The same for `StdLink` and `RustcLink`, through `add_to_sysroot`. |
| BootstrapBodies.AssembleBodyOk | src/bootstrap/compile.rs:1044-1200 | The same for `Assemble`, including the LLVM install at its end. |
| BootstrapBodies.SysrootBodyOk | src/bootstrap/compile.rs:966-1013 | The same for `Sysroot`. |
| BootstrapBodies.LibdirBodyOk | src/bootstrap/builder.rs:692-706 | The same for the library directory of a target: it is wiped only after its sysroot is ready. |
| BootstrapBodies.StartupBodyOk | src/bootstrap/compile.rs:477-517 | The same for `StartupObjects`. |
| BootstrapBodies.ToolBodyOk | src/bootstrap/tool.rs:47-226 | The same for `ToolBuild`. |
| BootstrapBodies.RustdocBodyOk | src/bootstrap/tool.rs:503-579 | The same for `Rustdoc`. |
| BootstrapBodies.PrepareCargoOk | src/bootstrap/builder.rs:857-1130 | The same for `Builder::cargo`: after it, the output directory has been checked against every backend the compiler has installed and, for the standard library, against the compiler, each check after the assembly of that compiler. |
| BootstrapBodies.BodyOk | src/bootstrap/compile.rs:63-1225 | Every action of every step of the plan passes these checks, for every configuration. |
| BootstrapRuns.PlanIsRanked | src/bootstrap/compile.rs:547-644 | Every request of the plan, the uplift requests of a step to its own kind included, lowers a measure on stage and kind, for every stage, host, target and flag. |
| BootstrapRuns.BootstrapNeverCycles | src/bootstrap/builder.rs:1586-1598 | No sequence of requests to the plan trips the cycle detector, under any configuration; the run ends with exactly the reached steps evaluated. |
| BootstrapRuns.RunReturns | src/bootstrap/builder.rs:645-671 | What a run gives back for an assembly is the compiler that was asked for, and for a sysroot or library directory that directory. |
| BootstrapRuns.OnlyBuildHosts | src/bootstrap/compile.rs:1047-1069 | In every run from proper requests, every `Std`, `Rustc` and tool request uses a compiler for the build triple. |
| BootstrapRuns.Stage0AssertionHolds | src/bootstrap/compile.rs:1047-1053 | In every run from proper requests, under every configuration, the assertion that a stage-0 compiler is for the build triple never fails. |
| BootstrapRuns.NoCompileWhereUplifted | src/bootstrap/lib.rs:1132-1136 | Without a full bootstrap no library, compiler or backend is compiled by stage 2 or later for the build triple or a configured host. |
| BootstrapRuns.CompiledOnce | src/bootstrap/compile.rs:87-128 | Over a whole run the standard library and the compiler are compiled at most once for each compiler and target, and a codegen backend at most once for each compiler, target and backend. |
| BootstrapRuns.OnlyRequestedTargets | src/bootstrap/compile.rs:63-1225 | A run touches the targets of its requests and the build triple, and no others. |
| BootstrapRuns.NothingCopiedIsErased | src/bootstrap/builder.rs:679-709 | Where targets have distinct triples and rustc is not downloaded, no directory tree that something was copied into is wiped later in the run. |
| BootstrapRuns.WipedOnce | src/bootstrap/compile.rs:966-974 | Each sysroot and each library directory is wiped at most once. |
| BootstrapRuns.StampsSurviveWipes | src/bootstrap/compile.rs:908-933 | No wipe removes a stamp. |
| BootstrapRuns.StampsWrittenBeforeRead | src/bootstrap/compile.rs:1069-1107 | In a fresh build, every stamp that is read was written earlier in the same run, unless the reader assembles from lifted artifacts. |
| BootstrapRuns.StampWrittenOnce | src/bootstrap/compile.rs:1351-1363 | A stamp file is written at most once, by the step that builds what it records, after the Cargo build for that very compiler and target. |
| StampLifetimes.StampNotCleared | src/bootstrap/lib.rs:643-656 | Whatever modification times the files have, the output directory of a build whose stamp was written is not emptied by any staleness check later in the run. |
| StampLifetimes.NotTouchedAfterCheck | src/bootstrap/builder.rs:868-872 | From a staleness check on, no event of the run changes the file that was checked against: the compiler was complete before, and no wipe above it is to come. |
| StampLifetimes.ReadFindsFile | src/bootstrap/compile.rs:1207-1225 | In a fresh build every stamp file that is read was written earlier in the run and neither wiped nor cleared since, unless the reader assembles from lifted artifacts. |
| StampLifetimes.AssembleFindsFiles | src/bootstrap/compile.rs:1069-1107 | Assembling a compiler finds every stamp file it reads if and only if its stage is supported, whatever was in the output directories before. |
| StampLifetimes.CargoOutputIsCurrent | src/bootstrap/lib.rs:643-656 | Whenever Cargo builds the library, the compiler or a backend, its output directory is at least as new as every file it is to be checked against. |
| StampLifetimes.RenewedIffEmptied | src/bootstrap/lib.rs:643-656 | A `.stamp` that is there becomes newer exactly when its directory is emptied. |
| BootstrapRuns.AssembleFindsStamps | src/bootstrap/compile.rs:1069-1107 | Assembling a compiler finds every stamp it reads if and only if its stage is supported. |
| BootstrapRuns.LiftedReadFails | src/bootstrap/compile.rs:1069-1107 | Assembling from lifted artifacts reads a stamp that nothing in the run writes. |
| BootstrapResults.CargoFindsToolchain | src/bootstrap/builder.rs:857-1130 | Whenever Cargo builds, the compiler is assembled and its library directory prepared, the libraries it builds against are finished, LLVM is there where rustc is linked against it, and the output has been checked against every installed backend and, for the library, the compiler. |
| BootstrapResults.OnlyWhatIsCalledFor | src/bootstrap/compile.rs:1044-1200 | Linkers, sanitizers, musl objects and codegen backends are run only where the configuration or the target calls for them, or a request does. |
| BootstrapResults.StdGiven | src/bootstrap/compile.rs:87-128 | A finished `Std` has given its compiler the library that Cargo built with stage 1 of the build triple, if the stage is 2 or later, the target the build triple or a host, and not everything is built by every stage; otherwise the one built with the build triple's compiler of its own stage. The link step read that stamp after the build and then copied into the library directories. |
| BootstrapResults.RustcGiven | src/bootstrap/compile.rs:560-643 | The same for a finished `Rustc`. |
| BootstrapResults.CodegenGiven | src/bootstrap/compile.rs:796-855 | The same choice of compiler for a finished `CodegenBackend`: Cargo built that backend with it, and its stamp was written after. |
| BootstrapResults.LinksAreFromSource | src/bootstrap/builder.rs:660-671 | In a fresh build no link step of any run has another source. |
| BootstrapInstalls.AssemblyInstalls | src/bootstrap/compile.rs:1044-1200 | A finished assembly of stage 1 or later has installed the compiler and every configured backend but LLVM, and copied rustc's libraries after they were built. |
| BootstrapInstalls.AssemblyInstallsWhatWasBuilt | src/bootstrap/compile.rs:1069-1197 | In a fresh build each of these comes after the Cargo build, by the build triple's compiler of the stage before (or stage 1, where artifacts are lifted) for the new compiler's host, of what it copies. |
| BootstrapInstalls.InstallFollowsBuild | src/bootstrap/compile.rs:1191-1197 | Whatever any run installs with a compiler was built before it, by that compiler; backends only if configured and not LLVM. |
| BootstrapInstalls.InstalledWhere | src/bootstrap/builder.rs:784-790 | The compiler is in the `bin` directory of its stage, and backends are beside the library directory of its host. |
| BootstrapCopies.AssemblyCopiesTools | src/bootstrap/compile.rs:1120-1189 | A finished assembly has copied the linker, both linker wrappers and the LLVM tools, each after it was built, where they are configured, and the shared LLVM into both places. |
| BootstrapCopies.StdCopiesObjects | src/bootstrap/compile.rs:63-129 | A finished `Std` that was neither kept nor downloaded has put sanitizers, libunwind and self-contained objects beside the library, each after it was built, for every target that needs them. |
| BootstrapCopies.ToolBuilt | src/bootstrap/tool.rs:47-226 | A finished tool was built by Cargo and then copied; one that links rustc after the library for the compiler's host. |
| BootstrapCopies.RustdocBuilt | src/bootstrap/tool.rs:503-579 | A finished rustdoc was built by the stage before, once that was assembled and had its library, and then copied next to its compiler. |
| BootstrapCopies.NativeBuilt | src/bootstrap/native.rs:316-317 | LLVM for another target comes after LLVM for the build triple, the linker after the target's LLVM, sanitizers after the build triple's, linker wrappers after their tool. |
| BootstrapCopies.DirectoriesPrepared | src/bootstrap/compile.rs:966-1013 | A prepared sysroot was wiped and holds the sources or the downloaded compiler; a prepared library directory was wiped after its sysroot. |
| BootstrapCopies.KeptIsLinked | src/bootstrap/compile.rs:75-81 | For a kept stage the library and the compiler are only linked, from that stage itself. |
| BootstrapCopies.DownloadedIsThere | src/bootstrap/compile.rs:551-558 | With a downloaded compiler later stages build and assemble nothing and have their sysroot; the snapshot is only checked to be for the build triple. |
| TripleClash.LosesNothingIffTriplesDiffer | src/bootstrap/builder.rs:692-706 | Building the library of any stage for one target and then for another erases nothing that was copied if and only if the second, where it shares the triple of the first or of the build, is that very target. |
| TripleClash.ClashErases | src/bootstrap/config.rs:225-251 | If it is another target, the second request wipes what was copied for the first. |
| CrateGraph.InTreeCrates | src/bootstrap/lib.rs:1255-1287 | For any crate graph, cycles included, and any iteration order: a root that is no member panics; otherwise the result is exactly the root and what it pulls in over wanted workspace edges, each once, the root once more if and only if it pulls in itself. Which crates are wanted follows from the name, the profiler settings of the target (or of any, if none is named) and the backends. |
| CrateGraph.VisitDependencies | src/bootstrap/lib.rs:1262-1284 | After visiting a crate's dependencies they are all visited, the list grew exactly by the new wanted ones, and either nothing changed or fewer crates are unvisited. |
| CrateGraph.ProfilerEnabled | src/bootstrap/config.rs:1124-1130 | The profiler is on for a target as that target says, else as the general setting says; without a target, if the general setting or any target says so. |
| StampFile.WriteStamp | src/bootstrap/compile.rs:1351-1363 | The file is the encoding of a sorted rearrangement of the outputs. |
| StampFile.ReadStamp | src/bootstrap/lib.rs:1289-1312 | A dry run reads nothing; otherwise the loop yields what `Decode` does, of which `StampFile.PanicsIff` and `StampFile.ReadsRecords` say what it is. |
| StampFile.PanicsIff | src/bootstrap/lib.rs:1303-1308 | The reader panics if and only if some non-empty part between NULs begins with a letter other than h, t and s. |
| StampFile.ReadsRecords | src/bootstrap/lib.rs:1299-1311 | Otherwise what is read are the non-empty parts in file order, each as the kind its letter says and the path after it, and none is left out. |
| StampFile.RoundTripExact | src/bootstrap/lib.rs:1289-1312 | Reading what was written gives the same list with kinds and order, empty paths included, if and only if no path holds a NUL byte. |
| StampFile.ReadsHaveNoNul | src/bootstrap/lib.rs:1300-1310 | No path read from any file holds a NUL byte. |
| StampFile.Exchange | src/bootstrap/compile.rs:1351-1363 | Writing and reading back yields the sorted rearrangement of what was built. |
| Interner.TyIntern.Intern | src/bootstrap/cache.rs:176-199 | Interning keeps items and handles in bijection, keeps every handle given out, adds an item only if it is new, and returns the handle that resolves to it. |
| Interner.TyIntern.Get | src/bootstrap/cache.rs:201-203 | A handle resolves to the item whose handle it is; a handle that was never given out panics. |
| Interner.TyIntern.InternAll | src/bootstrap/cache.rs:176-199 | Any run of calls ends in the specified store with the specified handles. |
| Interner.HandlesResolve | src/bootstrap/cache.rs:176-203 | Over any run of calls no item is stored twice, no handle is reassigned, and each handle resolves, at the end, to the item it was given out for. |
| Interner.HandleEqualityIsContentEquality | src/bootstrap/cache.rs:41-45 | Two handles are equal if and only if their contents are. |
| Interner.HandleOrderIsLawful | src/bootstrap/cache.rs:150-162 | Ordering handles by content is a total order that agrees with equality of handles, and interning more never changes it. |
| Interner.HandlesStandForContents | src/bootstrap/cache.rs:92-104 | Comparing or hashing the handles of two strings is comparing or hashing the strings, whatever else was interned. |
| FileTree.FileSystem.CpFiltered | src/bootstrap/lib.rs:1383-1386 | Between existing directories the copy fails if and only if something selected at the top meets an entry of the other kind; otherwise every path of the disk holds exactly what `Filtered` says. |
| FileTree.FileSystem.Recurse | src/bootstrap/lib.rs:1389-1407 | The same for every level, in any directory order. |
| FileTree.FileSystem.CpR | src/bootstrap/lib.rs:1362-1378 | A dry run changes nothing; otherwise, between existing directories, the copy fails if and only if a file and a directory meet at any depth, and else lays the source over the destination and changes nothing besides. |
| FileTree.FilteredIntoEmpty | src/bootstrap/lib.rs:1383-1407 | Into an empty destination come exactly the entries all of whose leading relative paths pass the filter, with their contents, and the rest of the disk is untouched. |
| FileTree.CopiesAgreeIff | src/bootstrap/lib.rs:1362-1407 | With a filter that passes everything, both copies succeed and leave the same disk if and only if no file meets a directory at any depth and no directory of the source meets destination entries the source does not have. |
| FileTree.CopiesAgreeWhenEmpty | src/bootstrap/lib.rs:1362-1407 | They do so into every empty destination. |
| FileTree.DeepClash | src/bootstrap/lib.rs:1362-1407 | A file over a directory one level down stops `cp_r` and not `cp_filtered`. |
| FileTree.DryRunHarmlessIff | src/bootstrap/lib.rs:1397-1403 | A dry run of the filtered copy changes nothing if and only if no name it takes is already there with the same kind. |
| RustfmtPool.StepKeepsInv | src/bootstrap/format.rs:120-176 | Every step of walkers, consumer and children keeps the bounds, the account of children and the multiset of paths. |
| RustfmtPool.RunReports | src/bootstrap/format.rs:25-38 | Over every run, some child has failed if and only if a failed child is still to be awaited or the program has exited, and a program that has exited does not return. |
| RustfmtPool.NeverStuck | src/bootstrap/format.rs:120-176 | Until the program has stopped, some step can be taken. |
| RustfmtPool.StepLowersWork | src/bootstrap/format.rs:120-176 | Every step lowers a measure, so every run is finite. |
| RustfmtPool.PoolCorrect | src/bootstrap/format.rs:120-176 | In every interleaving the channel holds at most 128 paths and at most max(1, max_processes) children live; no path is lost or duplicated; only a stopped program can take no step; on return every path was in exactly one batch of 1 to 8, every child was awaited and none failed; a stopped program has exited if and only if some child failed; batches are started only when full or with no path waiting, walkers wait only for a full channel, and the consumer for a child only when as many run as are allowed. |
| LlvmStamp.StepKeepsInv | src/bootstrap/native.rs:129-367 | Every file operation, crash and start keeps: a stamp holding a full hash implies a complete output for that hash, provided the action does not move the checkout during a run. |
| LlvmStamp.HistoryKeepsInv | src/bootstrap/native.rs:865-901 | The same over every history. |
| LlvmStamp.ReturnedIsFresh | src/bootstrap/native.rs:65-91 | In every history that does not move the checkout during a run, with a known hash and no skip-rebuild, dry runs included: a step that returns through its stamp or after building leaves its output complete for the current checkout. The only other returns are those of a dry run that turns back. |
| LlvmStamp.ReturnVouchedIff | src/bootstrap/native.rs:65-91 | At every return with a known hash and no skip-rebuild: over everything that may have been built under honest stamps, the step's output is complete for the checkout if and only if the return is not that of a dry run that turns back, or the stamp is up to date. |
| LlvmStamp.LlvmCheckReturnsIff | src/bootstrap/native.rs:65-91 | The check returns for LLVM if and only if: with skip-rebuild, there is a stamp; without, the stamp holds the hash or, if the hash is unknown, is empty. |
| LlvmStamp.SanitizersCheckReturnsIff | src/bootstrap/native.rs:748-765 | For sanitizers always in a dry run, and otherwise if and only if the stamp holds the hash or, if the hash is unknown, is empty. |
| LlvmStamp.NotBuiltAgain | src/bootstrap/native.rs:865-901 | Once the stamp of an artifact is as expected, every history that leaves the checkout and the knowledge of the hash alone, crashes and dry runs included, keeps stamp and output, and every check of that stamp returns. |
| LlvmStamp.BuiltOnce | src/bootstrap/native.rs:361-367 | So after any completed build, with a known hash or without, every later run at that checkout with the same knowledge returns at its check, and the output stays the one that was built. |
| LlvmStamp.DryRunReturnsUnbuilt | src/bootstrap/native.rs:361-363 | Where LLVM is not done, a dry run turns back and returns exactly what was there, LLVM of another commit if an older stamp was honest. |
| LlvmStamp.DryRunReturnsNoSanitizers | src/bootstrap/native.rs:748-751 | A dry run returns for sanitizers whatever was there, even nothing. |
| LlvmStamp.DryRunBuildsNothing | src/bootstrap/native.rs:361-367 | A dry run changes no output. |
| LlvmStamp.ReturnedConfigIsFresh | src/bootstrap/native.rs:65-91 | In every such history, when a building run returns from LLVM, the `llvm-config` it returns is complete for the current checkout if the target is the build triple, was built by this run, or the stamp of the build triple is up to date too. |
| LlvmStamp.ConfigVouchedIff | src/bootstrap/native.rs:57-91 | At every return of a building run from LLVM: over everything that may have been built under honest stamps, the `llvm-config` of the build triple is complete for the checkout if and only if the target is the build triple, was just built, or the stamp of the build triple is up to date. |
| LlvmStamp.SanitizersConfigIsFresh | src/bootstrap/native.rs:748-796 | In every such history, from its request for LLVM until it is done, a building run of sanitizers uses an `llvm-config` that is complete for the current checkout. |
| LlvmStamp.HonestIffNotMoved | src/bootstrap/native.rs:129-367 | For every artifact and every action of any history: honest stamps stay honest if and only if the action does not write a whole hash that the checkout has been moved away from. |
| LlvmStamp.AlwaysHonestIff | src/bootstrap/native.rs:865-901 | The stamps are honest throughout a history, in which every run may request any number of artifacts after reading the hash once, if and only if none of its runs does so. |
| LlvmStamp.MovedCheckoutReturnsStale | src/bootstrap/native.rs:129-143 | If the submodule update moves the checkout, a later run at the recorded commit returns LLVM built from another one. |
| LlvmStamp.ForeignTargetReturnsPartial | src/bootstrap/native.rs:65-91 | After an interrupted rebuild for the build triple, a run for another target whose stamp is intact returns the partial `llvm-config` of the build triple. |
| TomlText.ScalarRoundTrip | src/bootstrap/configure.py:421-436 | A boolean is always read as it was written; a string if and only if it is a number without outer white space or else not empty and free of quotes. |
| TomlValues.ValueRoundTrip | src/bootstrap/configure.py:421-436 | Every value, nested lists included, is what a reader of TOML arrays, literal strings, booleans and numbers makes of the text, if and only if no string in it holds a single quote. |
| TomlText.ReadSingleQuoted | src/bootstrap/bootstrap.py:899-919 | A quoted string without double quotes is read back if and only if it is not empty and has no single quote. |
| TomlText.SplitJoin | src/bootstrap/bootstrap.py:849-849 | Lines that are written are the lines that are read. |
| ConfigToml.GetToml | src/bootstrap/bootstrap.py:820-859 | The loop yields what scanning the lines yields, of which the rows of `TomlReading` say what it is; it never yields a line break. |
| TomlReading.KeyLineIs | src/bootstrap/bootstrap.py:854-856 | A line sets a key to a value if and only if it is the key, white space, an equals sign and the value. |
| TomlReading.SectionLineIs | src/bootstrap/bootstrap.py:850-852 | A line opens a section if and only if it is a name in brackets with white space around it. |
| TomlReading.CurrentSectionIs | src/bootstrap/bootstrap.py:848-852 | The current section is the one opened last. |
| TomlReading.FirstSettingCounts | src/bootstrap/bootstrap.py:849-858 | What is read is the value of the first line that sets the key, in the section asked for if one is. |
| TomlReading.NoSettingReadsNothing | src/bootstrap/bootstrap.py:859-859 | If no line sets it, nothing is read. |
| TomlReading.DoubleQuotedValue | src/bootstrap/bootstrap.py:911-914 | The value is the text between the first two double quotes, whatever stands around them. |
| TomlReading.SingleQuotedValue | src/bootstrap/bootstrap.py:915-918 | Without double quotes, the text between the first two single quotes. |
| TomlReading.UnquotedValue | src/bootstrap/bootstrap.py:858-858 | Without quotes, or with one that is not closed, the whole text without outer white space. |
| TomlReading.DoubleQuotedSettingIsRead | src/bootstrap/bootstrap.py:820-859 | A file line `key = "s"` is read as `s`, for its section and for no section, unless an earlier line sets the key there. |
| TomlReading.SplitBroken | src/bootstrap/bootstrap.py:849-849 | A text is split at every kind of line break, a carriage return with its line feed being one, and a last line needs none. |
| ConfigToml.ConfigureSection | src/bootstrap/configure.py:439-455 | It fails if and only if some key has no commented-out line and is not one of the two ignored ones; otherwise each setting replaces the first line that comments it out and no other line changes, in any order of the settings. |
| ConfigToml.OnlyOwnSection | src/bootstrap/bootstrap.py:848-859 | Reading a key of a section depends on the lines of that section alone. |
| ConfigToml.ConfiguredIsReadBack | src/bootstrap/configure.py:439-481 | A configured scalar is read back from the written file if and only if it is readable, whatever other settings and sections hold. |
| ConfigToml.OthersReadAsBefore | src/bootstrap/configure.py:439-481 | A key not configured in a section reads there as before, even if configured elsewhere. |
| ConfigToml.BreaksAreNeverRead | src/bootstrap/bootstrap.py:848-859 | No value with a line break in it is ever read, from any file. |
| ConfigureScript.Script.Split | src/bootstrap/configure.py:375-391 | It fails if and only if a dotted section other than a target's occurs; otherwise each section starts with its header and, where no name is repeated, the sections in order are the template. |
| ConfigureScript.Script.FillTargets | src/bootstrap/configure.py:393-406 | Exactly the named targets get a copy of the target section with its header made out to them, each once. |
| ConfigureScript.Script.ApplySections | src/bootstrap/configure.py:458-467 | It fails if and only if a configured section is missing or cannot be edited; otherwise exactly the configured sections are edited. |
| ConfigureScript.Script.ApplyTargets | src/bootstrap/configure.py:463-465 | The same for the configured targets. |
| ConfigureScript.Script.Write | src/bootstrap/configure.py:473-481 | The text is the sections in template order, all targets in the place of the target section. |
| ConfigureTheorems.Configure | src/bootstrap/configure.py:375-481 | The whole script succeeds if and only if its input is acceptable; then, from a clean template, `get_toml` reads back every configured scalar of every section and of every target exactly when it is readable, and every other key as the template has it. |
| ConfigureTheorems.RunReadsBack | src/bootstrap/configure.py:375-481 | For each run, section and key, a configured scalar is read back exactly when it is readable. |
| ConfigureTheorems.RunReadsBackTarget | src/bootstrap/configure.py:463-465 | The same for what is configured for a target, read from the section of that target. |
| ConfigureTheorems.RunKeepsOthers | src/bootstrap/configure.py:375-481 | A key that was not configured in a section reads as in the template. |
| ConfigureTheorems.RunKeepsOthersTarget | src/bootstrap/configure.py:393-406 | A key that was not configured for a target reads in its section as in the target section of the template. |
| ConfigureTemplate.TemplateIsClean | src/bootstrap/configure.py:375-406 | A template is clean if its lines are plain or exactly a header, no section comes twice and the target section has the header of the real template. |
| ConfigureTemplate.TargetHeaderFits | src/bootstrap/configure.py:405-406 | That header is made out to every target as `[target.<triple>]`. |
| ConfigureTemplate.ReplaceFirst | src/bootstrap/configure.py:406-406 | Replacing replaces the first occurrence and goes on after it. |
| ConfigureTemplate.HeaderMeans | src/bootstrap/configure.py:382-387 | A header names its section, all targets being one, and a dotted name that is no target's is refused. |

## Left out

- `Builder::cargo` environment and flags, CMake set-up: only the requests and the directory clearing they do are in the plan.
- The steps of `dist.rs`, `doc.rs`, `test.rs`, `check.rs`, `install.rs`, `run.rs`: they would only add edges of the same kind.
- Option parsing, toolchain detection, downloads and submodule handling: processes, network and the environment.
- The `TypeId` dispatch of `Cache`: one sum type of steps stands for it.
- A step of a plan has a fixed list of actions, so no step decides by the output of a request what to request next. The steps of the bootstrap plan do not: the compilers and directories they are given back are determined by what they asked for.
- Naming: triples and backend names are single path components, so that neither holds a path separator.
- The `llvmPrebuilt`, `installsLlvm` and similar fields of the configuration stand for questions the plan asks of the outside world; they are arbitrary functions.
- Staleness checks are made against the compiler and the backends its assembly installed; the clearing of documentation directories, and backends that a downloaded compiler may bring, are not modelled.
- BootstrapRuns.StampsWrittenBeforeRead: assumes no kept stages and no downloaded rustc, since with these a stamp of an earlier run is meant to be read.
- StampLifetimes.StampNotCleared: assumes that targets with one triple are the same target, that the clock does not run backwards and that no file comes from the future.
- BootstrapRuns.NothingCopiedIsErased: assumes rustc is not downloaded, since a downloaded sysroot is copied by another route.
- StampFile: paths are byte strings; the panics on paths that are not UTF-8 are not modelled.
- StampFile.WriteStamp: the order of the sort is any total order, of which the order of Rust paths is one.
- FileTree: no symbolic links, permissions or times; source and destination are apart and, except in a dry run, both exist, as the source assumes of its callers.
- TripleClash.LosesNothingIffTriplesDiffer: says nothing about a first target that is a second specification of the build triple, where the outcome depends on what the configuration copies.
- RustfmtPool: rustfmt itself, the ignore rules and the directory walk are left out; walkers hold the paths they will send.
- TomlText: `float` is a parameter of which only is used that it accepts no string that is empty, is a boolean's name, or holds a quote, a comma or a bracket.
- TomlText.ScalarRoundTrip: `get_toml` has no list to give back, so for lists only what a TOML reader makes of them is stated, in `TomlValues.ValueRoundTrip`.
- ConfigToml.ConfigureSection: keys are bare TOML keys; with other characters the regular expression of `get_toml` would mean something else.
- ConfigureTheorems.Configure: reading keys before the first section, or without naming a section, is not part of the promise; `set`, which builds the nested dictionary of settings from dotted names, is not modelled.
