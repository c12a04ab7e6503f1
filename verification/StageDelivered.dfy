// What the sysroots hold at the end of a session: every artifact that a served step puts in its place is still there, and
// which steps were served to get it.
module StageDelivered {
  import opened Engine
  import opened EngineProofs
  import opened Contracts
  import opened Traces
  import opened StageGraph
  import opened StagePlans
  import opened StageTables
  import opened StagePlaces
  import opened StageStamps
  import opened StageTheorems
  import opened StageStarved

  /** e has happened after all of the events given, and nothing that it made has been removed since. */
  ghost predicate Stands(log: seq<Event>, e: Event, after: set<Event>) {
    exists i :: StandsAt(log, i, e, after)
  }

  ghost predicate StandsAt(log: seq<Event>, i: nat, e: Event, after: set<Event>) {
    && i < |log| && log[i] == e && after <= Elems(log[..i])
    && forall j :: i < j < |log| && log[j].Reset? ==> !Takes(log[j].dir, e)
  }

  lemma StandsAfterFewer(log: seq<Event>, e: Event, after: set<Event>, fewer: set<Event>)
    requires Stands(log, e, after) && fewer <= after
    ensures Stands(log, e, fewer)
  {
    var i :| StandsAt(log, i, e, after);
    assert StandsAt(log, i, e, fewer);
  }

  /** All that is known of the builder after a session of sound requests. */
  ghost predicate Served(cfg: Config, n: nat, ts: set<Triple>, st: State<Step, Event, Output>) {
    && cfg.build in ts && WellFormed(Stages(cfg, n, ts)) && Valid(Stages(cfg, n, ts), st) && st.stack == []
    && Kept(Records(cfg), st) && Ordered(Layout(cfg), st.log)
    && forall i, j :: 0 <= i < j < |st.log| && st.log[j].Reset? ==> !Takes(st.log[j].dir, st.log[i])
  }

  /** That is what every session ends in, with all its requests answered. */
  lemma SessionServed(cfg: Config, n: nat, ts: set<Triple>, requests: seq<Step>)
    requires cfg.build in ts && forall s :: s in requests ==> StepIn(n, ts, s) && Sound(cfg, s)
    ensures WellFormed(Stages(cfg, n, ts)) && forall s :: s in requests ==> s in Stages(cfg, n, ts).universe
    ensures var st := Serve(Stages(cfg, n, ts), Fresh(), requests);
      Served(cfg, n, ts, st) && forall s :: s in requests ==> s in st.cache
  {
    hide Stages, Sound, StepIn, WellFormed, Universe, Kept, InOrder, Valid, Ordered, Takes, Traced, ValidRan;
    SessionTraced(cfg, n, ts, requests);
    InAnyOrder(Layout(cfg), {}, requests);
    SessionChecked(cfg, n, ts, requests, Layout(cfg));
    hide Layout;
    NothingLost(cfg, n, ts, requests);
    ServeValid(Stages(cfg, n, ts), Fresh(), requests);
  }

  // ---------------------------------------------------------------------------------------------
  // Everything is in its place.

  /** Whatever a served step puts in a sysroot has been put there after the last removal of every directory it lies in,
      and after what it was copied from was looked up; and it has not been removed since. */
  lemma Delivered(cfg: Config, n: nat, ts: set<Triple>, st: State<Step, Event, Output>, s: Step, e: Event)
    requires Served(cfg, n, ts, st) && s in st.cache && e in Places(cfg, s)
    ensures Stands(st.log, e, Removals(cfg, e) + Sources(e))
  {
    hide Places, Reads, Makes, Valid, WellFormed, Stages, Removals, Sources, Takes;
    assert e in Records(cfg).after(s);
    assert e in st.log;
    var i :| 0 <= i < |st.log| && st.log[i] == e;
    assert Layout(cfg).reliesOn(st.log[i]) <= Elems(st.log[..i]);
    assert StandsAt(st.log, i, e, Removals(cfg, e) + Sources(e));
  }

  lemma PutAfter(cfg: Config, n: nat, ts: set<Triple>, st: State<Step, Event, Output>, s: Step, e: Event, after: set<Event>)
    requires Served(cfg, n, ts, st) && s in st.cache && e in Places(cfg, s) && after <= Removals(cfg, e) + Sources(e)
    ensures Stands(st.log, e, after)
  {
    hide Served, Places, Removals, Sources, Stands;
    Delivered(cfg, n, ts, st, s, e);
    StandsAfterFewer(st.log, e, Removals(cfg, e) + Sources(e), after);
  }

  lemma Enclosed(cfg: Config, d: Path, p: Path)
    requires Managed(cfg, d) && d <= p
    ensures Reset(d) in Enclosing(cfg, p)
  {
    hide Managed;
    assert p[..|d|] == d;
  }

  lemma LibdirEncloses(cfg: Config, c: Compiler, t: Triple, rest: Path)
    ensures {Reset(SysrootDir(c)), Reset(LibdirDir(cfg, c, t))} <= Enclosing(cfg, LibdirDir(cfg, c, t) + rest)
  {
    var p := LibdirDir(cfg, c, t) + rest;
    assert SysrootDir(c) <= p && Managed(cfg, SysrootDir(c)) && Managed(cfg, LibdirDir(cfg, c, t));
    Enclosed(cfg, SysrootDir(c), p);
    Enclosed(cfg, LibdirDir(cfg, c, t), p);
  }

  /** A link puts each kind of artifact where it belongs, for good. */
  ghost predicate LinkedInto(cfg: Config, log: seq<Event>, stamp: Path, host: Triple, c: Compiler, t: Triple) {
    var libdir, hostdir, sysroot := LibdirDir(cfg, c, t), LibdirDir(cfg, c, host), SysrootDir(c);
    && Stands(log, Copy(stamp, TargetDeps, libdir), {Read(stamp), Reset(sysroot), Reset(libdir)})
    && Stands(log, Copy(stamp, HostDeps, hostdir), {Read(stamp), Reset(sysroot), Reset(hostdir)})
    && Stands(log, Copy(stamp, SelfContainedDeps, libdir + [Dir("self-contained")]), {Read(stamp), Reset(sysroot), Reset(libdir)})
  }

  lemma CopyStands(cfg: Config, n: nat, ts: set<Triple>, st: State<Step, Event, Output>, s: Step, e: Event, c: Compiler, t: Triple,
                   rest: Path)
    requires Served(cfg, n, ts, st) && s in st.cache && e in Places(cfg, s)
    requires e.Copy? && !e.what.Dylibs? && e.into == LibdirDir(cfg, c, t) + rest
    ensures Stands(st.log, e, {Read(e.from), Reset(SysrootDir(c)), Reset(LibdirDir(cfg, c, t))})
  {
    LibdirEncloses(cfg, c, t, rest);
    hide Served, Places, Enclosing, LibdirDir, SysrootDir, Stands;
    PutAfter(cfg, n, ts, st, s, e, {Read(e.from), Reset(SysrootDir(c)), Reset(LibdirDir(cfg, c, t))});
  }

  lemma LinkStands(cfg: Config, n: nat, ts: set<Triple>, st: State<Step, Event, Output>, s: Step, from: Compiler, mode: Mode,
                   c: Compiler, t: Triple)
    requires Served(cfg, n, ts, st) && s in st.cache && Linked(cfg, from, mode, c, t) <= Places(cfg, s)
    ensures LinkedInto(cfg, st.log, Stamp(cfg, from, mode, t), from.host, c, t)
  {
    var stamp, libdir, hostdir := Stamp(cfg, from, mode, t), LibdirDir(cfg, c, t), LibdirDir(cfg, c, from.host);
    hide Served, Places, LibdirDir, SysrootDir, Stamp, Stands;
    assert libdir + [] == libdir && hostdir + [] == hostdir;
    CopyStands(cfg, n, ts, st, s, Copy(stamp, TargetDeps, libdir), c, t, []);
    CopyStands(cfg, n, ts, st, s, Copy(stamp, HostDeps, hostdir), c, from.host, []);
    CopyStands(cfg, n, ts, st, s, Copy(stamp, SelfContainedDeps, libdir + [Dir("self-contained")]), c, t, [Dir("self-contained")]);
  }

  /** Once StdLink or RustcLink has been served, all that its stamp lists is in the libdirs of the target compiler, and
      stays there. */
  lemma LinksDelivered(cfg: Config, n: nat, ts: set<Triple>, st: State<Step, Event, Output>, from: Compiler, c: Compiler, t: Triple)
    requires Served(cfg, n, ts, st)
    ensures
      && (StdLink(from, c, t) in st.cache ==> LinkedInto(cfg, st.log, Stamp(cfg, from, StdMode, t), from.host, c, t))
      && (RustcLink(from, c, t) in st.cache ==> LinkedInto(cfg, st.log, Stamp(cfg, from, RustcMode, t), from.host, c, t))
  {
    hide Served, LinkedInto, Linked, Stamp;
    if StdLink(from, c, t) in st.cache {
      LinkStands(cfg, n, ts, st, StdLink(from, c, t), from, StdMode, c, t);
    }
    if RustcLink(from, c, t) in st.cache {
      LinkStands(cfg, n, ts, st, RustcLink(from, c, t), from, RustcMode, c, t);
    }
  }

  /** For every Std, or Rustc, served, the libdirs of its compiler hold at the end of the session what the first stage
      built, if the compiler is of stage 2 or later, the target a host and the bootstrap not full; and otherwise what the
      native compiler of the same stage built. */
  lemma LibraryDelivered(cfg: Config, n: nat, ts: set<Triple>, st: State<Step, Event, Output>, c: Compiler, t: Triple)
    requires Served(cfg, n, ts, st)
    ensures var stage := if !cfg.fullBootstrap && c.stage >= 2 && (t in cfg.hosts || t == cfg.build) then 1 else c.stage;
      var from := Compiler(stage, cfg.build);
      && (Std(c, t) in st.cache ==> LinkedInto(cfg, st.log, Stamp(cfg, from, StdMode, t), cfg.build, c, t))
      && (Rustc(c, t) in st.cache ==> LinkedInto(cfg, st.log, Stamp(cfg, from, RustcMode, t), cfg.build, c, t))
  {
    var from := LinkedFrom(cfg, c, t);
    hide Served, LinkedInto, Linked, Stamp, Places;
    LinkedIsPlaced(cfg, c, t);
    if Std(c, t) in st.cache {
      LinkStands(cfg, n, ts, st, Std(c, t), from, StdMode, c, t);
    }
    if Rustc(c, t) in st.cache {
      LinkStands(cfg, n, ts, st, Rustc(c, t), from, RustcMode, c, t);
    }
  }

  lemma LinkedIsPlaced(cfg: Config, c: Compiler, t: Triple)
    ensures Linked(cfg, LinkedFrom(cfg, c, t), StdMode, c, t) <= Places(cfg, Std(c, t))
    ensures Linked(cfg, LinkedFrom(cfg, c, t), RustcMode, c, t) <= Places(cfg, Rustc(c, t))
  {
    hide Linked, LinkedFrom;
  }

  /** For every compiler assembled, its bin directory holds at the end of the session the binary that the stage before
      built for it, and its library directory the dynamic libraries of that stage. */
  lemma CompilerDelivered(cfg: Config, n: nat, ts: set<Triple>, st: State<Step, Event, Output>, c: Compiler)
    requires Served(cfg, n, ts, st)
    requires c.stage > 0
    ensures var before := Compiler(c.stage - 1, cfg.build);
      var binary, libs := RustcBinary(cfg, before, c.host), LibdirDir(cfg, before, c.host);
      Assemble(c) in st.cache ==>
        && Stands(st.log, Copy(binary, OneFile, SysrootDir(c) + [Dir("bin")]), {Read(binary), Reset(SysrootDir(c))})
        && Stands(st.log, Copy(libs, Dylibs, RustcLibdir(cfg, c)), {Reset(libs), Reset(SysrootDir(c))})
  {
    var before := Compiler(c.stage - 1, cfg.build);
    var binary, libs := RustcBinary(cfg, before, c.host), LibdirDir(cfg, before, c.host);
    hide *;
    if Assemble(c) in st.cache {
      AssemblyIsPlaced(cfg, c);
      AssemblyComesAfter(cfg, c);
      PutAfter(cfg, n, ts, st, Assemble(c), Copy(binary, OneFile, SysrootDir(c) + [Dir("bin")]), {Read(binary), Reset(SysrootDir(c))});
      PutAfter(cfg, n, ts, st, Assemble(c), Copy(libs, Dylibs, RustcLibdir(cfg, c)), {Reset(libs), Reset(SysrootDir(c))});
    }
  }

  lemma AssemblyComesAfter(cfg: Config, c: Compiler)
    requires c.stage > 0
    ensures var before := Compiler(c.stage - 1, cfg.build);
      var binary, libs := RustcBinary(cfg, before, c.host), LibdirDir(cfg, before, c.host);
      var e, e' := Copy(binary, OneFile, SysrootDir(c) + [Dir("bin")]), Copy(libs, Dylibs, RustcLibdir(cfg, c));
      && {Read(binary), Reset(SysrootDir(c))} <= Removals(cfg, e) + Sources(e)
      && {Reset(libs), Reset(SysrootDir(c))} <= Removals(cfg, e') + Sources(e')
  {
    hide Enclosing, RustcBinary, LibdirDir, SysrootDir, RustcLibdir;
    SysrootEncloses(cfg, c);
  }

  lemma AssemblyIsPlaced(cfg: Config, c: Compiler)
    requires c.stage > 0
    ensures var before := Compiler(c.stage - 1, cfg.build);
      && Copy(RustcBinary(cfg, before, c.host), OneFile, SysrootDir(c) + [Dir("bin")]) in Places(cfg, Assemble(c))
      && Copy(LibdirDir(cfg, before, c.host), Dylibs, RustcLibdir(cfg, c)) in Places(cfg, Assemble(c))
  {
    hide RustcBinary, LibdirDir, SysrootDir, SysrootLibdirRelative, RustcLibdir, LldBin;
  }

  lemma SysrootEncloses(cfg: Config, c: Compiler)
    ensures Reset(SysrootDir(c)) in Enclosing(cfg, SysrootDir(c) + [Dir("bin")])
    ensures Reset(SysrootDir(c)) in Enclosing(cfg, RustcLibdir(cfg, c))
  {
    assert Managed(cfg, SysrootDir(c)) && SysrootDir(c) <= RustcLibdir(cfg, c);
    hide Managed, Enclosing, SysrootDir, RustcLibdir;
    Enclosed(cfg, SysrootDir(c), SysrootDir(c) + [Dir("bin")]);
    Enclosed(cfg, SysrootDir(c), RustcLibdir(cfg, c));
  }

  // ---------------------------------------------------------------------------------------------
  // Which steps were served for it.

  /** Only sound steps have answers. */
  lemma CachedIsSound(cfg: Config, n: nat, ts: set<Triple>, st: State<Step, Event, Output>, s: Step)
    requires Served(cfg, n, ts, st) && s in st.cache
    ensures StepIn(n, ts, s) && Sound(cfg, s) && s in Stages(cfg, n, ts).universe
  {
    var p := Stages(cfg, n, ts);
    assert s in p.universe && Yields(p, s, st.cache[s]) by { hide Stages, Yields, WellFormed, Asks; }
    UniverseIs(n, ts, s);
    OneFate(p, s);
    hide Stages, Yields, Crashes, WellFormed, Universe, Sound, StepIn, Served;
    if !Sound(cfg, s) {
      UnsoundCrashes(cfg, n, ts, s);
    }
  }

  /** With every step, all that it asks for has been served. */
  lemma UsesServed(cfg: Config, n: nat, ts: set<Triple>, st: State<Step, Event, Output>, s: Step, d: Step)
    requires Served(cfg, n, ts, st) && s in st.cache && d in Uses(cfg, s)
    ensures d in st.cache
  {
    hide Uses, StepIn, Sound, Served, WellFormed, Stages, Asks, Valid;
    CachedIsSound(cfg, n, ts, st, s);
    ServedMeans(cfg, n, ts, st);
    UsesAreAsked(cfg, n, ts, s, d);
    AskedIsCached(cfg, n, ts, st, s, d);
  }

  lemma UsesAreAsked(cfg: Config, n: nat, ts: set<Triple>, s: Step, d: Step)
    requires cfg.build in ts && StepIn(n, ts, s) && Sound(cfg, s) && d in Uses(cfg, s)
    requires WellFormed(Stages(cfg, n, ts)) && s in Stages(cfg, n, ts).universe
    ensures Asks(Stages(cfg, n, ts), s, [], d)
  {
    hide Uses, Plan, StepIn, Sound, WellFormed, Stages, Asks, Layout, PlanObeys, Checked;
    UsesPlanned(cfg, s, d);
    var i: nat :| i < |Plan(cfg, s)| && Plan(cfg, s)[i] == Ask(d);
    LayoutObeyed(cfg, n, ts, s);
    LayoutChecked(cfg, n, ts);
    LikelyAtFirst(cfg, n, ts, s);
    PlanAsks(cfg, n, ts, s, [], i, d);
  }

  lemma LikelyAtFirst(cfg: Config, n: nat, ts: set<Triple>, s: Step)
    ensures Likely(cfg, n, ts, Layout(cfg), s, [])
  {
    hide Stages;
  }

  lemma ServedMeans(cfg: Config, n: nat, ts: set<Triple>, st: State<Step, Event, Output>)
    requires Served(cfg, n, ts, st)
    ensures cfg.build in ts && WellFormed(Stages(cfg, n, ts)) && Valid(Stages(cfg, n, ts), st)
  {
    hide WellFormed, Stages, Valid;
  }

  lemma AskedIsCached(cfg: Config, n: nat, ts: set<Triple>, st: State<Step, Event, Output>, s: Step, d: Step)
    requires Served(cfg, n, ts, st) && s in st.cache && s in Stages(cfg, n, ts).universe
    requires WellFormed(Stages(cfg, n, ts)) && Asks(Stages(cfg, n, ts), s, [], d)
    ensures d in st.cache
  {
    hide WellFormed, Stages, Asks;
  }

  /** With every step served, all that it asks for has been served. */
  lemma DependenciesServed(cfg: Config, n: nat, ts: set<Triple>, st: State<Step, Event, Output>)
    requires Served(cfg, n, ts, st)
    ensures forall s :: s in st.cache ==> Uses(cfg, s) <= st.cache.Keys
  {
    hide Served, Uses;
    forall s, d | s in st.cache && d in Uses(cfg, s) ensures d in st.cache {
      UsesServed(cfg, n, ts, st, s, d);
    }
  }

  function LinkRule(rustc: bool, from: Compiler, c: Compiler, t: Triple): Step {
    if rustc then RustcLink(from, c, t) else StdLink(from, c, t)
  }

  /** What compiler_for decides: for a host, from stage 2 on and unless the bootstrap is full, a Std or Rustc served has
      had the one of stage 1 served and linked from it, and has itself built nothing; otherwise its own compiler has been
      assembled, it has built, and the native compiler's build has been linked. */
  lemma UpliftOrBuild(cfg: Config, n: nat, ts: set<Triple>, st: State<Step, Event, Output>, rustc: bool, c: Compiler, t: Triple)
    requires Served(cfg, n, ts, st)
    ensures var written := Write(Stamp(cfg, c, if rustc then RustcMode else StdMode, t));
      Rule(rustc, c, t) in st.cache ==>
        if !cfg.fullBootstrap && c.stage >= 2 && (t in cfg.hosts || t == cfg.build) then
          var first := Compiler(1, cfg.build);
          && Rule(rustc, first, t) in st.cache && LinkRule(rustc, first, c, t) in st.cache
          && written !in st.log && Write(RustcBinary(cfg, c, t)) !in st.log
        else
          && Assemble(c) in st.cache && LinkRule(rustc, Compiler(c.stage, cfg.build), c, t) in st.cache
          && written in st.log && (rustc ==> Write(RustcBinary(cfg, c, t)) in st.log)
  {
    hide Served, Stamp, RustcBinary, Rule, LinkRule;
    if Rule(rustc, c, t) in st.cache {
      WrittenUnlessUplifted(cfg, n, ts, st, rustc, c, t);
      LinkServed(cfg, n, ts, st, rustc, c, t);
    }
  }

  lemma LinkServed(cfg: Config, n: nat, ts: set<Triple>, st: State<Step, Event, Output>, rustc: bool, c: Compiler, t: Triple)
    requires Served(cfg, n, ts, st) && Rule(rustc, c, t) in st.cache
    ensures var first := Compiler(1, cfg.build);
      if ForceUseStage1(cfg, c, t) then Rule(rustc, first, t) in st.cache && LinkRule(rustc, first, c, t) in st.cache
      else Assemble(c) in st.cache && LinkRule(rustc, Compiler(c.stage, cfg.build), c, t) in st.cache
  {
    var s, first, native := Rule(rustc, c, t), Compiler(1, cfg.build), Compiler(c.stage, cfg.build);
    hide *;
    RuleUses(cfg, rustc, c, t);
    if ForceUseStage1(cfg, c, t) {
      UsesServed(cfg, n, ts, st, s, Rule(rustc, first, t));
      UsesServed(cfg, n, ts, st, s, LinkRule(rustc, first, c, t));
    } else {
      UsesServed(cfg, n, ts, st, s, Assemble(c));
      UsesServed(cfg, n, ts, st, s, LinkRule(rustc, native, c, t));
    }
  }

  lemma RuleUses(cfg: Config, rustc: bool, c: Compiler, t: Triple)
    ensures var first, uses := Compiler(1, cfg.build), Uses(cfg, Rule(rustc, c, t));
      if ForceUseStage1(cfg, c, t) then Rule(rustc, first, t) in uses && LinkRule(rustc, first, c, t) in uses
      else Assemble(c) in uses && LinkRule(rustc, Compiler(c.stage, cfg.build), c, t) in uses
  {
    hide ForceUseStage1;
  }

  lemma WrittenUnlessUplifted(cfg: Config, n: nat, ts: set<Triple>, st: State<Step, Event, Output>, rustc: bool, c: Compiler, t: Triple)
    requires Served(cfg, n, ts, st) && Rule(rustc, c, t) in st.cache
    ensures var written := Write(Stamp(cfg, c, if rustc then RustcMode else StdMode, t));
      if ForceUseStage1(cfg, c, t) then written !in st.log && Write(RustcBinary(cfg, c, t)) !in st.log
      else written in st.log && (rustc ==> Write(RustcBinary(cfg, c, t)) in st.log)
  {
    var written, binary := Write(Stamp(cfg, c, if rustc then RustcMode else StdMode, t)), Write(RustcBinary(cfg, c, t));
    assert Kept(Records(cfg), st) by { hide Kept, Records, WellFormed, Valid, Stages; }
    hide Served, Stamp, RustcBinary, ForceUseStage1, Stages, Ordered;
    if ForceUseStage1(cfg, c, t) {
      assert Uplifted(cfg, written) by { assert OutputOf(cfg, c, t, written); }
      assert Uplifted(cfg, binary) by { assert OutputOf(cfg, c, t, binary); }
      NeverFirst(Records(cfg), written, st.log);
      NeverFirst(Records(cfg), binary, st.log);
    } else {
      CachedWrote(cfg, st, Rule(rustc, c, t), written);
      if rustc {
        CachedWrote(cfg, st, Rule(rustc, c, t), binary);
      }
    }
  }

  /** The directories and files by name, for a bootstrap from x86: with the libdir by default, and with it set to lib64. */
  lemma PathExamples()
    ensures var cfg, c, c', t := SmallConfig(), Compiler(0, "x86"), Compiler(1, "x86"), "arm";
      && SysrootDir(c) == [Out, Named("x86"), Dir("stage0-sysroot")] && SysrootDir(c') == [Out, Named("x86"), StageDir(1, "")]
      && LibdirDir(cfg, c', t) == SysrootDir(c') + [Dir("lib"), Dir("rustlib"), Named("arm"), Dir("lib")]
      && RustcLibdir(cfg, c') == SysrootDir(c') + [Dir("lib")]
      && LldBin(cfg, c') == SysrootDir(c') + [Dir("lib"), Dir("rustlib"), Named("x86"), Dir("bin")]
      && Stamp(cfg, c', StdMode, t)
         == [Out, Named("x86"), StageDir(1, "-std"), Named("arm"), Dir("release"), Dir(".libstd.stamp")]
      && Stamp(cfg, c', RustcMode, t)
         == [Out, Named("x86"), StageDir(1, "-rustc"), Named("arm"), Dir("release"), Dir(".librustc.stamp")]
      && RustcBinary(cfg, c', t) == [Out, Named("x86"), StageDir(1, "-rustc"), Named("arm"), Dir("release"), Dir("rustc_binary")]
    ensures var cfg, c, c', t := SmallConfig().(libdir := Relative([Dir("lib64")])), Compiler(0, "x86"), Compiler(1, "x86"), "arm";
      && LibdirDir(cfg, c, t) == SysrootDir(c) + [Dir("lib"), Dir("rustlib"), Named("arm"), Dir("lib")]
      && LibdirDir(cfg, c', t) == SysrootDir(c') + [Dir("lib64"), Dir("rustlib"), Named("arm"), Dir("lib")]
      && RustcLibdir(cfg, c') == SysrootDir(c') + [Dir("lib64")]
  {
  }
}
