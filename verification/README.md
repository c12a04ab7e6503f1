# Bootstrap, tables and allocation: verified models

Dafny models of the parts of the Rust repository whose correctness is easiest to get wrong and hardest to see from one
function: the generator of the decimal-to-float table, the build engine of the bootstrap and the stage graph it runs, the
protocol that publishes toolstates, and some smaller state machines and codecs. `dafny verify dfyconfig.toml` checks all.

**The power-of-ten table.** `Dec2Flt.dfy` says what the nearest 64-bit float to a number is (ties to even, section 4.3.1
of IEEE 754-2008, exponent unbounded), without reference to any algorithm, and shows it unique and monotone.
`ScalingLoop.dfy` has the scaling loop as a state machine and as the loop of `algorithm_m`. The loop does not always stop: the
upper test is `x >= MAX_SIG`, and when some power-of-two multiple of the input has floor exactly 2^64 - 1 the loop goes
back and forth between two states for ever (`StuckExample`: f = 2^64 - 1, e = 0). `LoopStopsIff` gives the exact
condition, and everything else is proved for all inputs on which the loop stops.

**The build engine.** A step is its next action as a function of the replies so far, so that dependencies may depend on
outputs. `Engine.dfy` has `Builder::ensure` as a function on stack, cache and records, and plain uncached recursion;
`EngineProofs.dfy` relates the two in every case, cycles and panics included; `BuilderClass.dfy` is the class with mutable
stack, cache and timing, proved equal to the function. `Contracts.dfy` and `Traces.dfy` turn local facts about step bodies
(what has happened before a step is asked for, who performs an effect) into facts about the log of every run.

**The stage graph.** `StageGraph.dfy` has the bodies of the compile, native and tool steps as scripts of requests and
file-system effects. Replies matter: the compiler used is the one that `Assemble` handed back. `StagePlans.dfy` removes
the replies again, and `StageTables.dfy`, `StageStamps.dfy` and `StageStarved.dfy` check three contract tables on the
scripts, `StagePlaces.dfy` what each step asks for and puts where. The theorems, in `StageTheorems.dfy`,
`StageStarved.dfy` and `StageDelivered.dfy`, hold for every build triple, host list, target
list, stage and session of requests. The comment on `StdLink` assumes that the given compiler has built the library. For a
compiler on a foreign host that is not uplifted this is the native compiler, and nothing below the request makes it build
anything: the link finds what an earlier request has built, as in the order of the driver, or the run dies. Nor is there
a rustc binary to assemble when the previous stage was uplifted. `FedExactly` and `SessionFedExactly` say exactly which
requests, in which states, find everything they read, and `CompletesExactly` which ones are answered. Every `Sysroot` and
`Libdir` begins by removing its directory; `NothingLost` and `Delivered` say that what the links and `Assemble` copy is
there at the end all the same, and `LibraryDelivered` and `UpliftOrBuild` from which stage it comes.

**The rest.** `Toolstate.dfy`: any number of CI jobs publishing at once. `CrateWalk.dfy`: the crate worklist.
`StampFile.dfy`: the stamp format. `HashStampFile.dfy`: build stamps over crashes. `GlobalAlloc.dfy`: the `Global` allocator
over a raw allocator that may fail and move. `WakerCounts.dfy`: reference counts of wakers. `Ascii.dfy`: byte escapes.

## Model

| member | source | states |
|---|---|---|
| Dec2Flt.RoundsToUnique | src/etc/dec2flt_table.py:26-29 | no number has two nearest normalised floats under ties to even, so the rounding specification determines the result |
| Dec2Flt.RoundingIsMonotone | src/etc/dec2flt_table.py:55-73 | a larger input is never rounded to a smaller float |
| Dec2Flt.NextValue | src/etc/dec2flt_table.py:69-73 | the next float is normalised and lies one unit in the last place above, carry included |
| Dec2Flt.HalfwayTest | src/etc/dec2flt_table.py:55-66 | comparing r with v - r compares u/v with the half-way point above q |
| Dec2Flt.RatioToFloatRounds | src/etc/dec2flt_table.py:55-66 | for every exact ratio with a significand in range the float returned is the nearest, ties to even, at most half a unit away, and the carry is taken from MAX_SIG only |
| Dec2Flt.UlpErrorIs | src/etc/dec2flt_table.py:76-82 | the error is the distance from the exact decimal in units of 2^exp: it is below a bound, or equal to it, exactly if the distance is below, or equal to, that many units |
| ScalingLoop.StartRepresents | src/etc/dec2flt_table.py:33-41 | the initial u/v is f * 10^e exactly, for either sign of e |
| ScalingLoop.StepRepresents | src/etc/dec2flt_table.py:42-51 | every pass keeps (u/v) * 2^k = f * 10^e |
| ScalingLoop.AfterRepresents | src/etc/dec2flt_table.py:42-51 | so does any number of passes |
| ScalingLoop.Progress | src/etc/dec2flt_table.py:42-51 | away from MAX_SIG every pass lowers a natural-number measure |
| ScalingLoop.DoneIsNotStuck | src/etc/dec2flt_table.py:46-50 | a loop that has stopped had an input with no power-of-two multiple of floor MAX_SIG |
| ScalingLoop.NotStuckHalts | src/etc/dec2flt_table.py:42-51 | otherwise the loop stops, having shifted only one of u and v, once a pass, k times in all |
| ScalingLoop.LoopStopsIff | src/etc/dec2flt_table.py:40-51 | the loop stops if and only if no power-of-two multiple of f * 10^e has floor 2^64 - 1 |
| ScalingLoop.StuckReachesMax | src/etc/dec2flt_table.py:42-51 | if there is one the loop comes to a quotient of exactly MAX_SIG |
| ScalingLoop.StuckLoopsForever | src/etc/dec2flt_table.py:42-51 | and from then on alternates between two quotients for ever |
| ScalingLoop.StuckExample | src/etc/dec2flt_table.py:46-48 | f = 2^64 - 1, e = 0 is such an input |
| ScalingLoop.AlgorithmM | src/etc/dec2flt_table.py:32-52 | on all inputs on which the loop stops: the nearest normalised 64-bit float, ties to even, at a distance of at most half of 2^exp |
| ScalingLoop.RatioWithinHalfUlp | src/etc/dec2flt_table.py:76-82 | the error is at most half a unit, the distance at most half of 2^exp, and both strictly less unless the remainder is exactly half |
| ScalingLoop.NoPowerOfFiveInWindow | src/etc/dec2flt_table.py:106-109 | no power of five lies between 2^64 and 2^65 |
| ScalingLoop.PowerOfTenNoTie | src/etc/dec2flt_table.py:106-109 | no power of ten, of either sign, ends the loop half way between two floats |
| ScalingLoop.TableEntryBelowHalfUlp | src/etc/dec2flt_table.py:104-109 | for f = 1 and any exponent on which the loop stops, the exact error that the generator compares, after its conversion to a float, with 0.5 is strictly below half a unit, and the distance strictly below half of 2^exp |
| Engine.PlainDeeper | src/bootstrap/builder.rs:1372-1372 | an answer of plain recursion does not change with more depth |
| Engine.OneFate | src/bootstrap/builder.rs:1372-1372 | plain recursion yields one output, dies of one panic or never ends, and only one of these |
| Engine.CycleTooDeep | src/bootstrap/builder.rs:1347-1358 | a chain of dependencies that returns to a step in it has no finite evaluation |
| EngineProofs.EnsureCorrect | src/bootstrap/builder.rs:1344-1390 | from any reachable state: the stack stays a duplicate-free path disjoint from the cache and is restored on return, the cache stays closed under dependencies, nothing is forgotten, no body is begun twice |
| EngineProofs.RunCorrect | src/bootstrap/builder.rs:1368-1376 | the same for a body in progress, at any point of it |
| EngineProofs.BusyDiverges | src/bootstrap/builder.rs:1347-1358 | asking for a step in progress means that plain recursion never ends |
| EngineProofs.PushValid | src/bootstrap/builder.rs:1364-1366 | entering a step keeps the invariants |
| EngineProofs.PopValid | src/bootstrap/builder.rs:1382-1388 | leaving a step with all its dependencies cached keeps them |
| EngineProofs.FirstRequestLogs | src/bootstrap/builder.rs:1344-1390 | what the first request of a body adds to the record, the body adds |
| EngineProofs.EnsureRefinesPlain | src/bootstrap/builder.rs:1344-1390 | ensure returns o exactly when plain recursion yields o, reports a cycle exactly when it never ends, and panics in a body exactly when it does |
| EngineProofs.ServeValid | src/bootstrap/builder.rs:1344-1390 | over any sequence of requests, answered or not, the invariants hold |
| EngineProofs.ServeOnce | src/bootstrap/cache.rs:248-269 | over any sequence of answerable requests every body runs at most once and every request has its plain output |
| BuilderClass.Builder.constructor | src/bootstrap/cache.rs:243-246 | an empty builder is valid |
| BuilderClass.Builder.OnStack | src/bootstrap/builder.rs:1347-1358 | the loop over the stack finds the step exactly if it is in progress |
| BuilderClass.Builder.Ensure | src/bootstrap/builder.rs:1344-1390 | the imperative form has the result and the state of the engine function; its internal assertions and the duration subtraction cannot fail; the exclusive times recorded below a request add up to its own elapsed time, which is all the time that passes but for what ensure itself takes around the timing block; a cached answer records none |
| BuilderClass.Builder.Timed | src/bootstrap/builder.rs:1368-1376 | the timing block: the body has the result and the state of the engine function; its elapsed time is what the clock advances in the block, at least the time of the effects performed in it, and the sum of the exclusive times recorded since |
| BuilderClass.Builder.Perform | src/bootstrap/builder.rs:1372-1372 | an effect is logged once, and its time passes on the clock |
| BuilderClass.Builder.Account | src/bootstrap/builder.rs:1368-1376 | one more timing keeps the sum of exclusive times equal to the elapsed time |
| BuilderClass.Builder.Leave | src/bootstrap/builder.rs:1382-1389 | pop and put, and in which states each of the three assertions would fail |
| BuilderClass.Builder.Put | src/bootstrap/cache.rs:248-258 | inserts a new key and refuses one already there |
| BuilderClass.Builder.RunBody | src/bootstrap/builder.rs:1372-1372 | a body run step by step has the result and the state of the engine function, and its timings add up |
| BuilderClass.Builder.AskFor | src/bootstrap/builder.rs:1344-1390 | a nested request from a body leaves the rest of the body as it was |
| BuilderClass.TotalAppend | src/bootstrap/builder.rs:1371-1375 | the exclusive times of two stretches of a run add up |
| Contracts.ObedientYields | src/bootstrap/builder.rs:1344-1390 | if every body asks only for admissible steps of lower rank, every admissible request is answered |
| Contracts.EnsureOrdered | src/bootstrap/builder.rs:1344-1390 | if every body obeys a table of what effects rely on, each effect of a run comes after all it relies on, cached answers included |
| Contracts.ServeOrdered | src/bootstrap/builder.rs:1344-1390 | the same over whole sessions in which each request finds its conditions promised by the requests before it |
| Traces.EnsureTraces | src/bootstrap/builder.rs:1359-1365 | every effect of a run belongs to a body begun in it, and an effect that one step performs once is not repeated |
| Traces.ServeTraces | src/bootstrap/builder.rs:1359-1365 | the same over whole sessions |
| StageGraph.UniverseIs | src/bootstrap/compile.rs:31-35 | the steps up to a stage over a set of triples are a finite universe |
| StagePlans.HandedBack | src/bootstrap/builder.rs:576-582 | a request for a compiler is answered with the compiler asked for |
| StagePlans.AsPlanned | src/bootstrap/compile.rs:57-110 | hence a body does what its plan says, whatever has been built before |
| StagePlans.StagesWellFormed | src/bootstrap/compile.rs:754-835 | every body ends, and asks for nothing outside the universe |
| StagePlans.PlansChecked | src/bootstrap/builder.rs:1344-1390 | a table obeyed by every plan, item by item, is obeyed by every body after every plausible history |
| StageTables.RustcDescends | src/bootstrap/compile.rs:472-523 | every step that Rustc asks for has lower rank, uplift to stage 1 included |
| StageTables.StdDescends | src/bootstrap/compile.rs:57-110 | likewise for Std, its third-party and self-contained objects |
| StageTables.AssembleDescends | src/bootstrap/compile.rs:754-835 | likewise for Assemble, which goes one stage down |
| StageTables.DocToolDescends | src/bootstrap/tool.rs:473-530 | likewise for Rustdoc and the fuzz target generator |
| StageTables.LeavesDescend | src/bootstrap/tool.rs:48-110 | likewise for tools, links, startup objects, sysroots, libdirs and native steps |
| StageTables.SysrootInjective | src/bootstrap/compile.rs:696-703 | different compilers have different sysroots |
| StageTables.LibdirInjective | src/bootstrap/builder.rs:631-642 | different pairs of compiler and target have different libdirs, neither below the other |
| StageTables.EnclosingIs | src/bootstrap/compile.rs:703-704 | what lies in a sysroot can be removed only with that sysroot or one of its libdirs |
| StageTables.CargoOutIsSafe | src/bootstrap/lib.rs:570-586 | the output directories of cargo lie in no directory that Sysroot or Libdir removes |
| StageTables.AssembleLaid | src/bootstrap/compile.rs:801-835 | everything Assemble puts into a sysroot comes after that sysroot, and the libdir it lies in, have been made, and what it copies after its source has been looked up |
| StageTables.StdLaid | src/bootstrap/compile.rs:69-110 | the same for the objects that Std copies |
| StageTables.LinkLaid | src/bootstrap/compile.rs:845-863 | the same for add_to_sysroot, whose copies come after its read of the stamp |
| StageTables.SysrootLaid | src/bootstrap/compile.rs:696-730 | the same for the source link in a sysroot |
| StageTables.LibdirLaid | src/bootstrap/builder.rs:631-642 | a libdir is made only after its sysroot |
| StageTables.StartupLaid | src/bootstrap/compile.rs:404-439 | the same for the startup objects |
| StageTables.LayoutChecked | src/bootstrap/compile.rs:696-730 | every body of the graph obeys the table of removals and sources |
| StagePlaces.PlacesHeld | src/bootstrap/compile.rs:845-863 | what a step puts where, written out for each kind of step, has been put there when its body ends |
| StagePlaces.UsesPlanned | src/bootstrap/compile.rs:472-523 | which steps a step asks for, written out for each kind of step, is what its plan asks for, no more and no less |
| StagePlaces.PlanAsks | src/bootstrap/builder.rs:576-582 | whatever outputs the requests before it have, what is planned is asked for |
| StageStamps.StdSupplied | src/bootstrap/compile.rs:69-110 | in a fed Std the stamp that its link reads has been written: by the uplifted build, by this one, or, for a foreign host, by the one that is asked for beforehand |
| StageStamps.RustcSupplied | src/bootstrap/compile.rs:472-523 | likewise for Rustc |
| StageStamps.AssembleSupplied | src/bootstrap/compile.rs:782-835 | in a fed Assemble the rustc binary it copies has been written |
| StageStamps.StampsChecked | src/bootstrap/compile.rs:325-339 | every fed body obeys the table of stamps, provided that what it needs has been written |
| StageTheorems.StagesNeverCycle | src/bootstrap/compile.rs:754-766 | for every build triple, host list, target list and stage, from every reachable state: the cycle panic never happens, and an assertion in a body fires if and only if the request needs a stage 0 compiler of a foreign host, or a bootstrap tool of a later stage, or is a tool of a mode that is none; reads of missing files apart |
| StageTheorems.UnsoundCrashes | src/bootstrap/compile.rs:757-764 | such requests do panic |
| StageTheorems.ResetsAreSingle | src/bootstrap/compile.rs:703-704 | each directory is removed by one step, once in its body |
| StageTheorems.NothingLost | src/bootstrap/compile.rs:696-730 | over any session of sound requests, no removal comes after anything was put into, or made in, the directory removed |
| StageTheorems.ProducerBeforeConsumer | src/bootstrap/compile.rs:325-339 | over any session of sound, fed requests in which what each needs is made by those before it, every stamp and binary read was written before; only a link for a foreign host that is not uplifted needs anything |
| StageTheorems.DriverIsFed | src/bootstrap/builder.rs:180-190 | the order of the driver, all targets for one host after the other with the build triple first, is such a session: Std, and Rustc, for all hosts and targets find everything they read, up to stage 2 or in a full bootstrap |
| StageTheorems.HostInOrder | src/bootstrap/builder.rs:180-190 | the requests for one host find what they need, if the native compiler has served the same targets |
| StageStarved.Starves | src/bootstrap/compile.rs:325-339 | in any state of a session, a request that reads a file which neither the session so far nor anything below the request writes reads it unwritten |
| StageStarved.WriterIs | src/bootstrap/compile.rs:647-663 | a stamp or binary is written only by the Std or Rustc it belongs to, and only if that is not uplifted |
| StageStarved.StampInjective | src/bootstrap/lib.rs:570-586 | stamps of different compilers, modes or targets are different files |
| StageStarved.UpliftedNeverPlanned | src/bootstrap/lib.rs:958-962 | an uplifted Std or Rustc leaves no stamp and no binary |
| StageStarved.StampNeverPlanned | src/bootstrap/compile.rs:106-110 | below a link, or a Std or Rustc for a foreign host, the stamp that it reads is not written |
| StageStarved.NotReadyStarves | src/bootstrap/compile.rs:784-835 | a request that is not fed, or lacks what it needs, reads a file that does not exist, in every state of every session |
| StageStarved.FedExactly | src/bootstrap/compile.rs:784-835 | in every state of every session, and for every request: everything read was written before if and only if the request is fed and what it needs has been written |
| StageStarved.CompletesExactly | src/bootstrap/lib.rs:1145-1146 | so, over an output directory that was empty at first, a request is answered without any panic, missing files included, if and only if it is sound and so supplied |
| StageStarved.FreshCompletesExactly | src/bootstrap/lib.rs:1145-1146 | on a fresh builder: if and only if it is sound, fed, and needs nothing |
| StageStarved.SessionFedExactly | src/bootstrap/builder.rs:180-190 | a whole session of sound requests finds everything it reads if and only if each request is so supplied when its turn comes |
| StageStarved.WrittenIfCached | src/bootstrap/compile.rs:647-663 | between requests a stamp has been written if and only if its Std or Rustc is cached |
| StageDelivered.SessionServed | src/bootstrap/builder.rs:180-190 | after any session of sound requests all of them have been served, and the state is one of which the next rows speak |
| StageDelivered.Delivered | src/bootstrap/compile.rs:845-863 | whatever a served step puts in its place was put there after the last removal of every directory around it and after its source was looked up, and is not removed again |
| StageDelivered.LinksDelivered | src/bootstrap/compile.rs:852-862 | once a link has been served, what its stamp lists is in the libdir of the target, in the libdir of the host and in the self-contained directory, put there after the stamp was read and the libdirs were last removed |
| StageDelivered.LibraryDelivered | src/bootstrap/compile.rs:106-110 | for every Std and every Rustc served, the libdirs of its compiler hold what stage 1 built, if the stage is 2 or more, the target a host and the bootstrap not full, and what the native compiler of the same stage built otherwise |
| StageDelivered.CompilerDelivered | src/bootstrap/compile.rs:801-833 | for every compiler assembled, its bin directory holds the rustc binary, and its library directory the dynamic libraries, of the stage before |
| StageDelivered.DependenciesServed | src/bootstrap/builder.rs:1344-1390 | with every step served, all the steps it asks for have been served |
| StageDelivered.CachedIsSound | src/bootstrap/compile.rs:757-764 | only sound steps are ever served |
| StageDelivered.UpliftOrBuild | src/bootstrap/lib.rs:958-962 | a served Std or Rustc of stage 2 or more, for a host and not in a full bootstrap, has had the one of stage 1 served and linked from it and has written no stamp and no binary; any other has had its own compiler assembled, has written them, and links the build of the native compiler |
| StageDelivered.PathExamples | src/bootstrap/lib.rs:570-586 | the directories and files of a bootstrap from one triple by name, with the default libdir and with another |
| StageStarved.StarvedExamples | src/bootstrap/compile.rs:106-110 | two concrete sound requests at which the source dies of a missing file |
| Toolstate.LinesInserted | src/bootstrap/toolstate.rs:465-468 | line by line, the edit puts the record between the header and the older lines |
| Toolstate.TipChanges | src/bootstrap/toolstate.rs:404-415 | the edit changes the file, so there is always something to commit |
| Toolstate.TipHolds | src/bootstrap/toolstate.rs:465-468 | a branch holds the header, the records of its commits newest first, then the initial lines |
| Toolstate.PushIsOneMore | src/bootstrap/toolstate.rs:417-427 | a push that goes through adds exactly one commit, of the job that pushed |
| Toolstate.JobStepKeeps | src/bootstrap/toolstate.rs:398-444 | what is known of a job survives each of its own steps |
| Toolstate.StepKeeps | src/bootstrap/toolstate.rs:398-444 | and every step of any other job; the remote only grows |
| Toolstate.RecordsAreCommits | src/bootstrap/toolstate.rs:465-468 | the line of a job is there as often as the job has commits, if no two jobs publish the same line |
| Toolstate.NoUpdateLost | src/bootstrap/toolstate.rs:395-449 | for any number of jobs in any interleaving, pushes that arrive but are reported as failed included: the remote only grows, a job has one commit and one line for each of its pushes that arrived, at most five, the header stays first, all other lines survive, and no job finds nothing to commit |
| Toolstate.ExactlyOnce | src/bootstrap/toolstate.rs:395-449 | if every push that arrives is reported, a job that reports success has exactly one commit and one line, and any other none |
| Toolstate.LostAckDuplicates | src/bootstrap/toolstate.rs:423-444 | otherwise a job can insert its line twice |
| Toolstate.Remote.Receive | src/bootstrap/toolstate.rs:417-427 | a push that reaches the remote is accepted only as a fast-forward; its answer may be lost; every try is recorded |
| Toolstate.Checkout.PublishTestResults | src/bootstrap/toolstate.rs:456-469 | the edit in place; it panics exactly when there is no line end |
| Toolstate.Checkout.TryOnce | src/bootstrap/toolstate.rs:398-444 | one round of the loop against a remote that others change at any moment: unless the file has no line end, exactly one push of one new commit with the edit, and the report says whether it was answered |
| Toolstate.Checkout.CommitToolstateChange | src/bootstrap/toolstate.rs:395-449 | the retry loop: one commit for each push that arrives, on top of all that was; it succeeds exactly when a push, the last one, is answered; it fails only on a file without a line end or after five pushes of which none was answered, and only in the latter way if the files had headers at first |
| Toolstate.HeaderStays | src/bootstrap/toolstate.rs:465-468 | if the files had headers at first, no branch of the repository is without |
| Toolstate.OwnCommitPushed | src/bootstrap/toolstate.rs:417-427 | an accepted push of a commit made on an earlier tip means that the tip had not moved |
| CrateWalk.PathVisited | src/bootstrap/lib.rs:1117-1136 | when the list is empty, every crate on a path from the root has been visited |
| CrateWalk.InTreeCrates | src/bootstrap/lib.rs:1113-1138 | terminates on every finite graph; returns the root and every crate reachable without passing an excluded one, each once, the root twice exactly if it is reachable from itself; panics exactly on a name that is no crate; build_helper is never in the result save as the root, the profiler and the LLVM backend only if enabled, and no other dependency is left out |
| CrateWalk.ExcludedAre | src/bootstrap/lib.rs:1126-1134 | build_helper is never reached, the profiler and the LLVM backend not unless enabled |
| CrateWalk.OthersAreReached | src/bootstrap/lib.rs:1126-1134 | every other dependency of a crate reached is reached |
| CrateWalk.VisitDeps | src/bootstrap/lib.rs:1120-1134 | the inner loop lists exactly the included dependencies not seen before |
| CrateWalk.WalkDone | src/bootstrap/lib.rs:1137-1137 | at the end what was visited is what is reachable |
| StampFile.WriteStamp | src/bootstrap/compile.rs:988-999 | writes tag, path and NUL for each entry; panics exactly on a path that is not UTF-8 |
| StampFile.ReadStampFile | src/bootstrap/lib.rs:1145-1162 | reads the non-empty pieces between NULs, up to the first that panics |
| StampFile.RoundTrip | src/bootstrap/lib.rs:1147-1162 | reading what was written returns the same list in the same order |
| StampFile.RoundTripExactly | src/bootstrap/lib.rs:1149-1152 | for UTF-8 paths that holds if and only if no path contains a NUL |
| StampFile.EntriesExactly | src/bootstrap/lib.rs:1149-1162 | exactly the files whose non-empty pieces are h, s or t and a UTF-8 path are read, to those kinds and paths in order; otherwise the first bad piece decides the panic |
| HashStampFile.BuildDirectory.Done | src/bootstrap/native.rs:780-788 | done means that the stamp exists and equals the hash, or is empty where there is none |
| HashStampFile.BuildDirectory.Write | src/bootstrap/native.rs:803-805 | a write that dies leaves a beginning of the hash |
| HashStampFile.BuildDirectory.BuildAt | src/bootstrap/native.rs:113-316 | remove, build, write, with a crash at any point |
| HashStampFile.HistoryHonest | src/bootstrap/native.rs:113-316 | over any history a stamp is a beginning of the hash of the source whose completed build is in the output |
| HashStampFile.DoneMeansBuilt | src/bootstrap/native.rs:780-788 | over any history of runs, crashes and source changes: done for a hash means a completed build of a source with that hash, unless some other hash goes on beyond it |
| HashStampFile.TruncationFools | src/bootstrap/native.rs:803-805 | and for every hash that does go on beyond it a crash makes done wrong |
| HashStampFile.DoneIsRightIff | src/bootstrap/native.rs:780-805 | over a set of hashes: done can be relied on after every history if and only if the hash is not empty and none of the set goes on beyond it |
| HashStampFile.GitHashesAreRight | src/bootstrap/native.rs:780-805 | hashes of one length always can |
| HashStampFile.DoneWithoutHash | src/bootstrap/native.rs:77-91 | without a hash, done means only that some build was completed |
| HashStampFile.StaleExample | src/bootstrap/native.rs:77-88 | it may be of another version |
| HashStampFile.CompletedRunIsDone | src/bootstrap/native.rs:113-123 | after a run that does not crash the stamp is done, and a second run does nothing |
| GlobalAlloc.Raw.Alloc | src/liballoc/alloc.rs:170-177 | what the raw allocator demands and may answer: no request of size zero; every refusal is counted |
| GlobalAlloc.Raw.Dealloc | src/liballoc/alloc.rs:184-188 | only a live block with its current layout |
| GlobalAlloc.Raw.Realloc | src/liballoc/alloc.rs:216-223 | only a live block with its current layout and a positive size; it may move |
| GlobalAlloc.Raw.ZeroFrom | src/libcore/alloc/mod.rs:75-89 | zeroes from an offset to the end |
| GlobalAlloc.Global.Alloc | src/liballoc/alloc.rs:167-181 | a live block of the layout asked for, zeroed if asked, dangling for size zero; or, if the raw allocator has just refused, a failure that changes nothing |
| GlobalAlloc.Global.Dealloc | src/liballoc/alloc.rs:184-188 | removes the block, and does nothing for size zero |
| GlobalAlloc.Global.Grow | src/liballoc/alloc.rs:191-230 | success keeps all old bytes and zeroes the tail if asked, every other block unchanged; it fails when it may not move, and otherwise exactly when the raw allocator refuses, and then changes nothing |
| GlobalAlloc.Global.Shrink | src/liballoc/alloc.rs:233-267 | success keeps the first bytes, every other block unchanged, and leaves a dangling pointer for size zero; it fails when it may not move, and otherwise exactly when the raw allocator refuses, and then changes nothing |
| GlobalAlloc.ReplaceTracked | src/liballoc/alloc.rs:191-267 | replacing one block by another leaves what is known of all others true, leaks nothing and aliases nothing |
| GlobalAlloc.Perform | src/liballoc/alloc.rs:165-268 | one client operation: it succeeds with the stated result, or fails in place or after one refusal of the raw allocator and changes nothing |
| GlobalAlloc.Client | src/liballoc/alloc.rs:165-268 | over any script of operations: all blocks held are live with their layouts, hold all that was put there, are distinct, and are all that is live; the operations that failed are those in place and as many others as the raw allocator has refused |
| WakerCounts.OwnersChange | src/liballoc/task.rs:60-91 | by how much each operation changes the number of owners of each task |
| WakerCounts.Runtime.CloneWaker | src/liballoc/task.rs:62-68 | one owner and one count more |
| WakerCounts.Runtime.WakeByValue | src/liballoc/task.rs:71-74 | the waker's reference becomes the Arc passed on, no count changes |
| WakerCounts.Runtime.WakeByReference | src/liballoc/task.rs:33-35 | the default clones the Arc once and drops nothing |
| WakerCounts.Runtime.DropWaker | src/liballoc/task.rs:84-86 | one owner and one count less |
| WakerCounts.Runtime.RawWaker | src/liballoc/task.rs:88-91 | the Arc's reference becomes that of the waker |
| WakerCounts.Runtime.DecrStrongCount | src/liballoc/task.rs:84-86 | the last owner, and only it, frees the task |
| WakerCounts.Runtime.FreedOnce | src/liballoc/task.rs:60-91 | in every valid state a waker's task is alive, and a task is freed, once, exactly when it has no owner left |
| WakerCounts.Interleave | src/liballoc/task.rs:60-91 | any script over any number of tasks keeps every strong count equal to the number of owners |
| Ascii.ReadOneEscape | src/libcore/ascii.rs:95-105 | an escape is read back as its byte whatever follows |
| Ascii.EscapeLength | src/libcore/ascii.rs:95-105 | one byte for the printable characters but the quotes and the backslash, two for these and for tab, carriage return and line feed, four for all others; with the notation it is read back from, this leaves one escape for each byte |
| Ascii.EscapeRoundTrip | src/libcore/ascii.rs:95-114 | reading the concatenated escapes of any bytes gives the bytes back |
| Ascii.EscapeInjective | src/libcore/ascii.rs:95-114 | no two byte strings have the same escape |
| Ascii.EscapePrintable | src/libcore/ascii.rs:95-114 | all output is printable ASCII |
| Ascii.HexRoundTrip | src/libcore/ascii.rs:109-114 | each hex digit is read back |
| Ascii.EscapeDefault.constructor | src/libcore/ascii.rs:95-107 | the iterator starts with the whole escape |
| Ascii.EscapeDefault.Next | src/libcore/ascii.rs:120-122 | takes one byte from the front |
| Ascii.EscapeDefault.NextBack | src/libcore/ascii.rs:132-134 | takes one byte from the back |
| Ascii.EscapeDefault.Last | src/libcore/ascii.rs:126-128 | the last byte that is left |
| Ascii.Interleave | src/libcore/ascii.rs:118-135 | any interleaving of next and next_back yields each byte once, as a prefix and a reversed suffix |

## Left out

- ScalingLoop.AlgorithmM: its precondition is the exact condition under which the source's loop stops; that the loop stops for each exponent from -305 to 305 of the table is a computation on 611 numbers that is not repeated here.
- ScalingLoop.TableEntryBelowHalfUlp: the last conversion of the exact error to a Python float, which rounds an error closer to 0.5 than 2^-55 up to 0.5.
- BuilderClass.Builder.Ensure: the clock advances by any amount with each effect and around each timing block, and the printing of timings above 100 ms has no effect on the result, so it is not modelled.
- Toolstate.LinesInserted: a record is one line, a commit hash, a tab and compact JSON; how it is put together is not modelled.
- StampFile.WriteStamp: the sorting of the list before it is written, which is a library call; the list written is the sorted one. Which byte strings are UTF-8 is a parameter.
- HashStampFile.DoneMeansBuilt: the source does not change while a run is building it; the sources may change between runs in any way.
- GlobalAlloc.Global.Grow: sizes are unbounded, so the overflow that the caller of the source must exclude does not arise.
- WakerCounts.Runtime.WakeByReference: only the default `Wake::wake_by_ref`; an overriding one is the clones and drops of its own choice.
- The RULF traversal of the API graph: its sources under src/librustdoc/fuzz_target are not part of this model.
- `keep_stage` and `llvm_skip_rebuild`, which reuse stale artifacts on purpose, and dry runs.
- StageTables.CargoOutIsSafe: `clear_if_dirty`, which empties the output directory of Std when the compiler is newer than what is in it.
- StageTheorems.StagesNeverCycle: reads of files other than stamps and rustc binaries, and failing commands.
- Modification times and incremental rebuilds: cargo is one event that writes its stamp, and all the entries of one kind in a stamp are copied in one event, whatever they are.
- The removal of a directory before `Llvm` or `Lld` builds outside the sysroots, and the copies of tool binaries to their final names.
- The many one-line tool steps that only wrap `ToolBuild`, and the check, doc, test, dist and install steps.
- Paths are compared component by component: no links, no `..`, and a relative libdir stays inside its sysroot.
- Interning and type erasure (`TyIntern`, `dyn Any` in the cache): one step type with one constructor for each kind says the same.
- The wording of messages, environment variables and cargo flags.
