// What the bootstrap graph guarantees over whole runs of one builder.
module StageTheorems {
  import opened Engine
  import opened EngineProofs
  import opened Contracts
  import opened Traces
  import opened StageGraph
  import opened StagePlans
  import opened StageTables
  import opened StageStamps

  // ---------------------------------------------------------------------------------------------
  // Panics.

  /** A body whose first request panics, panics. */
  lemma FirstCrashes(cfg: Config, n: nat, ts: set<Triple>, s: Step, d: Step)
    requires WellFormed(Stages(cfg, n, ts)) && StepIn(n, ts, s) && StepIn(n, ts, d)
    requires s in Universe(n, ts) && d in Universe(n, ts)
    requires Act(cfg, s, []) == Need(d) && Crashes(Stages(cfg, n, ts), d)
    ensures Crashes(Stages(cfg, n, ts), s)
  {
    var p := Stages(cfg, n, ts);
    assert p.act(s, []) == Need(d);
    hide WellFormed, Stages, Universe, StepIn, Act;
    NeedFate(p, s, [], d);
    StepFate(p, s);
  }

  /** A body that panics at once. */
  lemma AbortsAtOnce(cfg: Config, n: nat, ts: set<Triple>, s: Step)
    requires WellFormed(Stages(cfg, n, ts)) && s in Universe(n, ts) && Act(cfg, s, []) == Abort
    ensures Crashes(Stages(cfg, n, ts), s)
  {
    var p := Stages(cfg, n, ts);
    assert p.act(s, []) == Abort;
    hide WellFormed, Stages, Universe, Act;
    ActFate(p, s, []);
    StepFate(p, s);
  }

  lemma SecondCrashes<S(!new), E, O(!new)>(p: Program<S, E, O>, s: S, first: S, o: O, second: S)
    requires WellFormed(p) && s in p.universe && first in p.universe && second in p.universe
    requires p.act(s, []) == Need(first) && Yields(p, first, o)
    requires p.act(s, [Got(o)]) == Need(second) && Crashes(p, second)
    ensures Crashes(p, s)
  {
    assert [] + [Got(o)] == [Got(o)];
    hide WellFormed, Crashes, Yields;
    NeedFate(p, s, [Got(o)], second);
    NeedGotFate(p, s, [], first, o);
    StepFate(p, s);
  }

  /** The openings of the bodies that need a compiler of stage 0. */
  lemma Openings(cfg: Config, c: Compiler, t: Triple, o: Output)
    requires c.stage == 0
    ensures c.host != cfg.build ==> Act(cfg, Assemble(c), []) == Abort
    ensures Act(cfg, Rustc(c, t), []) == Need(Std(c, t))
    ensures Act(cfg, Std(c, t), []) == Need(StartupObjects(c, t))
    ensures Act(cfg, Std(c, t), [Got(o)]) == Need(Assemble(c))
  {
    hide LibdirDir, SysrootDir, Stamp, RustcBinary, SelfContained, AssembleFrom, CopiesSanitizers;
    assert StdScript(cfg, c, t, []) == StdBuild(cfg, c, t, Native(cfg, c));
    assert StdScript(cfg, c, t, [Got(o)]) == StdBuild(cfg, c, t, Native(cfg, c));
    assert RustcScript(cfg, c, t, []) == RustcBuild(cfg, c, t, Native(cfg, c), Native(cfg, c));
  }

  lemma AssembleCrashes(cfg: Config, n: nat, ts: set<Triple>, c: Compiler)
    requires StepIn(n, ts, Assemble(c)) && !Buildable(cfg, c)
    ensures WellFormed(Stages(cfg, n, ts)) && Assemble(c) in Universe(n, ts) && Crashes(Stages(cfg, n, ts), Assemble(c))
  {
    StagesWellFormed(cfg, n, ts);
    UniverseIs(n, ts, Assemble(c));
    Openings(cfg, c, c.host, Other);
    hide *;
    AbortsAtOnce(cfg, n, ts, Assemble(c));
  }

  lemma SoundYields(cfg: Config, n: nat, ts: set<Triple>, s: Step) returns (o: Output)
    requires cfg.build in ts && StepIn(n, ts, s) && Sound(cfg, s)
    ensures WellFormed(Stages(cfg, n, ts)) && s in Universe(n, ts) && Yields(Stages(cfg, n, ts), s, o)
  {
    UniverseIs(n, ts, s);
    LayoutChecked(cfg, n, ts);
    hide StepIn, Sound, Universe, Checked;
    StagesWellFormed(cfg, n, ts);
    o := ObedientYields(Stages(cfg, n, ts), Layout(cfg), s);
  }

  lemma AsksWithin(cfg: Config, n: nat, ts: set<Triple>, s: Step, h: seq<Reply<Output>>, d: Step)
    requires Act(cfg, s, h) == Need(d) && StepIn(n, ts, d)
    ensures Stages(cfg, n, ts).act(s, h) == Need(d) && d in Stages(cfg, n, ts).universe
  {
    UniverseIs(n, ts, d);
    hide Act, StepIn, Universe;
  }

  lemma StdCrashes(cfg: Config, n: nat, ts: set<Triple>, c: Compiler, t: Triple)
    requires cfg.build in ts && StepIn(n, ts, Std(c, t)) && !Buildable(cfg, c)
    ensures WellFormed(Stages(cfg, n, ts)) && Std(c, t) in Universe(n, ts) && Crashes(Stages(cfg, n, ts), Std(c, t))
  {
    hide Stages, WellFormed, Crashes, Yields, Universe, Act;
    AssembleCrashes(cfg, n, ts, c);
    StagesUniverse(cfg, n, ts, Std(c, t));
    var o := SoundYields(cfg, n, ts, StartupObjects(c, t));
    Openings(cfg, c, t, o);
    AsksWithin(cfg, n, ts, Std(c, t), [], StartupObjects(c, t));
    AsksWithin(cfg, n, ts, Std(c, t), [Got(o)], Assemble(c));
    hide *;
    SecondCrashes(Stages(cfg, n, ts), Std(c, t), StartupObjects(c, t), o, Assemble(c));
  }

  lemma StagesUniverse(cfg: Config, n: nat, ts: set<Triple>, s: Step)
    requires StepIn(n, ts, s)
    ensures s in Universe(n, ts) && Stages(cfg, n, ts).universe == Universe(n, ts)
  {
    UniverseIs(n, ts, s);
    hide StepIn, Universe;
  }

  lemma RustcCrashes(cfg: Config, n: nat, ts: set<Triple>, c: Compiler, t: Triple)
    requires cfg.build in ts && StepIn(n, ts, Rustc(c, t)) && !Buildable(cfg, c)
    ensures WellFormed(Stages(cfg, n, ts)) && Rustc(c, t) in Universe(n, ts) && Crashes(Stages(cfg, n, ts), Rustc(c, t))
  {
    StdCrashes(cfg, n, ts, c, t);
    UniverseIs(n, ts, Rustc(c, t));
    Openings(cfg, c, t, Other);
    hide WellFormed, Stages, Universe, Crashes, Act;
    FirstCrashes(cfg, n, ts, Rustc(c, t), Std(c, t));
  }

  lemma UnsoundCrashes(cfg: Config, n: nat, ts: set<Triple>, s: Step)
    requires cfg.build in ts && StepIn(n, ts, s) && !Sound(cfg, s)
    ensures WellFormed(Stages(cfg, n, ts)) && s in Universe(n, ts) && Crashes(Stages(cfg, n, ts), s)
  {
    StagesWellFormed(cfg, n, ts);
    UniverseIs(n, ts, s);
    hide WellFormed, Stages, Universe, Crashes;
    match s
    case Std(c, t) =>
      StdCrashes(cfg, n, ts, c, t);
    case Rustc(c, t) =>
      RustcCrashes(cfg, n, ts, c, t);
    case ToolBuild(c, t, mode) =>
      if mode == ToolStd {
        StdCrashes(cfg, n, ts, c, t);
        FirstCrashes(cfg, n, ts, s, Std(c, t));
      } else if mode == ToolRustc {
        RustcCrashes(cfg, n, ts, c, t);
        FirstCrashes(cfg, n, ts, s, Rustc(c, t));
      } else {
        AbortsAtOnce(cfg, n, ts, s);
      }
    case _ =>
      AbortsAtOnce(cfg, n, ts, s);
  }

  /** For every build triple, host list, target list and stage, and from every state a builder can reach: the cycle panic
      never happens, and an assertion in a body fires exactly when the request is not sound: when it needs a stage 0
      compiler of a foreign host, or a bootstrap tool of a later stage, or names a mode that is not one of tools. What
      becomes of reads of missing files is the matter of AllFed. */
  lemma StagesNeverCycle(cfg: Config, n: nat, ts: set<Triple>, st: State<Step, Event, Output>, s: Step)
    requires cfg.build in ts && StepIn(n, ts, s)
    requires WellFormed(Stages(cfg, n, ts)) && Valid(Stages(cfg, n, ts), st) && Askable(Stages(cfg, n, ts), st, s)
    ensures s in Universe(n, ts)
    ensures var (r, _) := Ensure(Stages(cfg, n, ts), st, s); if Sound(cfg, s) then r.Done? else r.StepAborted?
  {
    var p := Stages(cfg, n, ts);
    UniverseIs(n, ts, s);
    hide Valid, Askable, WellFormed, StepIn, Universe;
    if Sound(cfg, s) {
      LayoutChecked(cfg, n, ts);
      hide Checked;
      ObedientAnswered(p, Layout(cfg), st, s);
    } else {
      UnsoundCrashes(cfg, n, ts, s);
      hide Stages, Crashes;
      EnsureRefinesPlain(p, st, s);
    }
  }

  // ---------------------------------------------------------------------------------------------
  // No artifact is lost.

  predicate IsReset(e: Event) {
    e.Reset?
  }

  /** The removal of directory d takes what e made. */
  predicate Takes(d: Path, e: Event) {
    match e
    case Reset(d') => d <= d'
    case Fill(d') => d <= d'
    case Write(f) => d <= f
    case Copy(_, _, d') => d <= d'
    case _ => false
  }

  predicate Resets(cfg: Config, s: Step, d: Path) {
    (s.Sysroot? && d == SysrootDir(s.compiler)) || (s.Libdir? && d == LibdirDir(cfg, s.compiler, s.target))
  }

  lemma NoResets(cfg: Config, s: Step, h: seq<Reply<Output>>, item: Item)
    requires !s.Sysroot? && !s.Libdir? && item in Script(cfg, s, h) && item.Do?
    ensures !item.event.Reset?
  {
    hide SysrootDir, LibdirDir, Stamp, RustcBinary, SelfContained, CopiesSanitizers, RustcLibdir, LldBin, CompilerFor, Handed;
  }

  lemma ResetScripts(cfg: Config, s: Step, h: seq<Reply<Output>>)
    requires s.Sysroot? || s.Libdir?
    ensures |Script(cfg, s, h)| == 2 && Script(cfg, s, h) == Script(cfg, s, [])
    ensures s.Sysroot? ==> Script(cfg, s, h)[0] == Do(Reset(SysrootDir(s.compiler))) && Script(cfg, s, h)[1].event.Fill?
    ensures s.Libdir? ==>
              Script(cfg, s, h)[0].Ask? && Script(cfg, s, h)[1] == Do(Reset(LibdirDir(cfg, s.compiler, s.target)))
  {
    hide AssembleScript, RustcScript, StdScript, LinkScript, ToolScript, DocToolScript, SysrootDir, LibdirDir;
  }

  lemma ActResets(cfg: Config, s: Step, h: seq<Reply<Output>>)
    requires Act(cfg, s, h).Work? && Act(cfg, s, h).event.Reset?
    ensures Resets(cfg, s, Act(cfg, s, h).event.dir)
    ensures |h| == if s.Sysroot? then 0 else 1
    ensures s.Libdir? ==> Act(cfg, s, []).Need?
  {
    hide SysrootDir, LibdirDir, Script;
    if s.Sysroot? || s.Libdir? {
      ResetScripts(cfg, s, h);
    } else {
      assert Script(cfg, s, h)[|h|] in Script(cfg, s, h);
      NoResets(cfg, s, h, Script(cfg, s, h)[|h|]);
    }
  }

  lemma ResetBy(cfg: Config, n: nat, ts: set<Triple>, s: Step, h: seq<Reply<Output>>)
    requires Stages(cfg, n, ts).act(s, h).Work? && Stages(cfg, n, ts).act(s, h).event.Reset?
    ensures Resets(cfg, s, Stages(cfg, n, ts).act(s, h).event.dir)
    ensures |h| == if s.Sysroot? then 0 else 1
    ensures s.Libdir? ==> !Stages(cfg, n, ts).act(s, []).Work?
  {
    hide Act, Resets, Universe, StepIn;
    assert Stages(cfg, n, ts).act(s, h) == Within(n, ts, Act(cfg, s, h));
    ActResets(cfg, s, h);
    assert Stages(cfg, n, ts).act(s, []) == Within(n, ts, Act(cfg, s, []));
  }

  /** Each managed directory is removed by one step, and once by it. */
  lemma ResetsAreSingle(cfg: Config, n: nat, ts: set<Triple>)
    ensures Single(Stages(cfg, n, ts), IsReset)
  {
    hide Stages, Resets;
    var p := Stages(cfg, n, ts);
    forall s, s', e | Performs(p, s, e) && Performs(p, s', e) && IsReset(e) ensures s == s' {
      var h :| p.act(s, h) == Work(e);
      var h' :| p.act(s', h') == Work(e);
      ResetBy(cfg, n, ts, s, h);
      ResetBy(cfg, n, ts, s', h');
      SameDirectory(cfg, s, s', e.dir);
    }
    forall s, h | s in p.universe && p.act(s, h).Work? && IsReset(p.act(s, h).event)
      ensures p.act(s, h).event !in Works(p, s, h)
    {
      ResetBy(cfg, n, ts, s, h);
      ResetsIsOfTwo(cfg, s, p.act(s, h).event.dir);
      if |h| == 1 {
        assert h[..0] == [];
      }
    }
  }

  lemma ResetsIsOfTwo(cfg: Config, s: Step, d: Path)
    requires Resets(cfg, s, d)
    ensures s.Sysroot? || s.Libdir?
  {
  }

  lemma SameDirectory(cfg: Config, s: Step, s': Step, d: Path)
    requires Resets(cfg, s, d) && Resets(cfg, s', d)
    ensures s == s'
  {
    if s.Sysroot? && s'.Sysroot? {
      SysrootInjective(s.compiler, s'.compiler);
    } else if s.Libdir? && s'.Libdir? {
      LibdirInjective(cfg, s.compiler, s.target, s'.compiler, s'.target);
    }
  }

  /** Removals in the log are of managed directories. */
  lemma LoggedResets(cfg: Config, n: nat, ts: set<Triple>, ran: seq<Step>, log: seq<Event>, d: Path)
    requires Traced(Stages(cfg, n, ts), ran, log) && Reset(d) in log
    ensures Managed(cfg, d)
  {
    var s :| s in ran && Performs(Stages(cfg, n, ts), s, Reset(d));
    var h :| Stages(cfg, n, ts).act(s, h) == Work(Reset(d));
    ResetBy(cfg, n, ts, s, h);
  }

  /** A log that is in order and repeats no removal loses nothing. */
  lemma OrderedKeeps(cfg: Config, log: seq<Event>, i: nat, j: nat)
    requires Ordered(Layout(cfg), log) && NoRepeats(IsReset, log)
    requires i < j < |log| && log[j].Reset? && Managed(cfg, log[j].dir)
    ensures !Takes(log[j].dir, log[i])
  {
    hide Managed, Removals;
    if Takes(log[j].dir, log[i]) && log[i] != log[j] {
      EnclosedBy(cfg, log[j].dir, log[i]);
    }
  }

  lemma EnclosedBy(cfg: Config, d: Path, e: Event)
    requires Takes(d, e) && Managed(cfg, d) && e != Reset(d)
    ensures Reset(d) in Removals(cfg, e)
  {
    hide Managed;
    var p := if e.Write? then e.file else if e.Copy? then e.into else e.dir;
    assert p[..|d|] == d;
  }

  /** No artifact is lost: over any session of sound requests to one builder, no removal of a sysroot or libdir comes
      after anything was made in it, although every Sysroot and Libdir begins by removing its directory. */
  lemma NothingLost(cfg: Config, n: nat, ts: set<Triple>, requests: seq<Step>)
    requires cfg.build in ts && forall s :: s in requests ==> StepIn(n, ts, s) && Sound(cfg, s)
    ensures WellFormed(Stages(cfg, n, ts)) && forall s :: s in requests ==> s in Universe(n, ts)
    ensures var log := Serve(Stages(cfg, n, ts), Fresh(), requests).log;
      forall i, j :: 0 <= i < j < |log| && log[j].Reset? ==> !Takes(log[j].dir, log[i])
  {
    InAnyOrder(Layout(cfg), {}, requests);
    SessionChecked(cfg, n, ts, requests, Layout(cfg));
    var p, k := Stages(cfg, n, ts), Layout(cfg);
    var st: State<Step, Event, Output> := Serve(p, Fresh(), requests);
    ResetsAreSingle(cfg, n, ts);
    hide Stages, Single, Universe, StepIn, Sound, Checked, WellFormed, Valid, Layout, Ordered, NoRepeats, Traced, Takes;
    FreshClean(p);
    ServeTraces(p, IsReset, Fresh(), requests);
    forall i, j | 0 <= i < j < |st.log| && st.log[j].Reset? ensures !Takes(st.log[j].dir, st.log[i]) {
      LoggedResets(cfg, n, ts, st.ran, st.log, st.log[j].dir);
      OrderedKeeps(cfg, st.log, i, j);
    }
  }

  lemma FreshClean(p: Program<Step, Event, Output>)
    ensures Clean(p, IsReset, Fresh())
  {
  }

  /** A session of requests that a table admits leaves its log in the order of the table. */
  lemma SessionChecked(cfg: Config, n: nat, ts: set<Triple>, requests: seq<Step>, k: Table)
    requires cfg.build in ts && (k == Layout(cfg) || k == Stamps(cfg))
    requires (forall s :: s in requests ==> StepIn(n, ts, s)) && InOrder(k, {}, requests)
    ensures WellFormed(Stages(cfg, n, ts)) && Valid(Stages(cfg, n, ts), Fresh())
    ensures forall s :: s in requests ==> s in Universe(n, ts)
    ensures var st := Serve(Stages(cfg, n, ts), Fresh(), requests);
      Ordered(k, st.log) && st.stack == [] && forall s :: s in requests ==> s in st.cache
  {
    var p := Stages(cfg, n, ts);
    hide Stages, Universe, StepIn, Checked, WellFormed, Layout, Stamps, Valid;
    SessionStarts(cfg, n, ts, requests, k);
    hide *;
    ServeOrdered(p, k, Fresh(), requests, {});
  }

  lemma SessionStarts(cfg: Config, n: nat, ts: set<Triple>, requests: seq<Step>, k: Table)
    requires cfg.build in ts && (k == Layout(cfg) || k == Stamps(cfg))
    requires forall s :: s in requests ==> StepIn(n, ts, s)
    ensures var p := Stages(cfg, n, ts);
      && Checked(p, k) && WellFormed(p) && Valid(p, Fresh()) && Kept(k, Fresh()) && p.universe == Universe(n, ts)
      && Fresh<Step, Event, Output>().stack == [] && forall s :: s in requests ==> s in p.universe
  {
    hide Universe, StepIn, Checked, WellFormed, Layout, Stamps, Valid;
    if k == Layout(cfg) {
      LayoutChecked(cfg, n, ts);
    } else {
      StampsChecked(cfg, n, ts);
    }
    forall s | s in requests ensures s in Universe(n, ts) {
      StagesUniverse(cfg, n, ts, s);
    }
    StagesWellFormed(cfg, n, ts);
    FreshIsValid(Stages(cfg, n, ts));
  }

  // ---------------------------------------------------------------------------------------------
  // Producer before consumer.

  /** Everything read has been written before. */
  predicate AllFed(log: seq<Event>) {
    forall i :: 0 <= i < |log| && log[i].Read? ==> Write(log[i].file) in log[..i]
  }

  lemma OrderedIsFed(cfg: Config, log: seq<Event>)
    ensures Ordered(Stamps(cfg), log) <==> AllFed(log)
  {
  }

  /** Over any session of sound, fed requests, every stamp and every rustc binary that is read was written earlier in
      the same session, if what each request needs has been made by the requests before it. Only links for a compiler on
      a foreign host that is not uplifted need anything: the library, or rustc, of the native compiler. */
  lemma ProducerBeforeConsumer(cfg: Config, n: nat, ts: set<Triple>, requests: seq<Step>)
    requires cfg.build in ts
    requires (forall s :: s in requests ==> StepIn(n, ts, s)) && InOrder(Stamps(cfg), {}, requests)
    ensures WellFormed(Stages(cfg, n, ts)) && forall s :: s in requests ==> s in Universe(n, ts)
    ensures var st := Serve(Stages(cfg, n, ts), Fresh(), requests); AllFed(st.log) && forall s :: s in requests ==> s in st.cache
  {
    SessionChecked(cfg, n, ts, requests, Stamps(cfg));
    OrderedIsFed(cfg, Serve(Stages(cfg, n, ts), Fresh(), requests).log);
  }

  /** The requests of the driver for one rule: for each host in turn, its compiler and the rule for every target. */
  function DriverRequests(rustc: bool, stage: nat, hosts: seq<Triple>, targets: seq<Triple>): seq<Step> {
    if hosts == [] then []
    else HostRequests(rustc, Compiler(stage, hosts[0]), targets) + DriverRequests(rustc, stage, hosts[1..], targets)
  }

  function Rule(rustc: bool, c: Compiler, t: Triple): Step {
    if rustc then Rustc(c, t) else Std(c, t)
  }

  function HostRequests(rustc: bool, c: Compiler, targets: seq<Triple>): seq<Step> {
    if targets == [] then []
    else [Assemble(c), Rule(rustc, c, targets[0])] + HostRequests(rustc, c, targets[1..])
  }

  /** What a rule for a compiler makes for all targets. */
  function AllMade(cfg: Config, rustc: bool, c: Compiler, targets: seq<Triple>): set<Event> {
    if targets == [] then {}
    else Makes(cfg, Rule(rustc, c, targets[0])) + AllMade(cfg, rustc, c, targets[1..])
  }

  /** The driver's order is right: with the build triple first among the hosts, as the configuration puts it, and a final
      stage of at most 2 or a full bootstrap, Std or Rustc for all hosts and all targets finds everything it reads,
      foreign hosts that are not uplifted included. */
  lemma DriverIsFed(cfg: Config, n: nat, ts: set<Triple>, rustc: bool, stage: nat, hosts: seq<Triple>, targets: seq<Triple>)
    requires hosts != [] && hosts[0] == cfg.build && 0 < stage <= n && (cfg.fullBootstrap || stage <= 2)
    requires forall t :: t in hosts || t in targets ==> t in ts
    ensures var requests := DriverRequests(rustc, stage, hosts, targets);
      && WellFormed(Stages(cfg, n, ts)) && (forall s :: s in requests ==> s in Universe(n, ts))
      && var st := Serve(Stages(cfg, n, ts), Fresh(), requests); AllFed(st.log) && forall s :: s in requests ==> s in st.cache
  {
    var k, native := Stamps(cfg), Compiler(stage, cfg.build);
    var made := AllMade(cfg, rustc, native, targets);
    OtherHostsInOrder(cfg, rustc, stage, hosts[1..], targets, made);
    assert {} + made == made;
    HostInOrder(cfg, rustc, native, targets, DriverRequests(rustc, stage, hosts[1..], targets), {}, targets);
    DriverIn(n, ts, rustc, stage, hosts, targets);
    ProducerBeforeConsumer(cfg, n, ts, DriverRequests(rustc, stage, hosts, targets));
  }

  /** The requests for one host, then others, where what the native compiler has to have made is done already or the host
      is the native one. */
  lemma {:induction false} HostInOrder(cfg: Config, rustc: bool, c: Compiler, targets: seq<Triple>, rest: seq<Step>, done: set<Event>,
                                       all: seq<Triple>)
    requires Assembles(cfg, c) && Assembles(cfg, Native(cfg, c)) && c.stage > 0 && forall t :: t in targets ==> t in all
    requires c.host == cfg.build || AllMade(cfg, rustc, Native(cfg, c), all) <= done
    requires InOrder(Stamps(cfg), done + AllMade(cfg, rustc, c, targets), rest)
    ensures InOrder(Stamps(cfg), done, HostRequests(rustc, c, targets) + rest)
    decreases |targets|
  {
    hide Makes, Needs, Sound, Fed, Stamps, Assembles, Rule;
    if targets == [] {
      assert HostRequests(rustc, c, targets) + rest == rest && done + AllMade(cfg, rustc, c, targets) == done;
    } else {
      var t, more := targets[0], HostRequests(rustc, c, targets[1..]) + rest;
      var s := Rule(rustc, c, t);
      RuleNeeds(cfg, rustc, c, t, all, done);
      assert done + Makes(cfg, s) + AllMade(cfg, rustc, c, targets[1..]) == done + AllMade(cfg, rustc, c, targets);
      assert HostRequests(rustc, c, targets) + rest == [Assemble(c), s] + more;
      hide InOrder, AllMade, HostRequests;
      HostInOrder(cfg, rustc, c, targets[1..], rest, done + Makes(cfg, s), all);
      TwoInOrder(cfg, done, Assemble(c), s, more);
    }
  }

  /** What the rule for one target needs is there. */
  lemma RuleNeeds(cfg: Config, rustc: bool, c: Compiler, t: Triple, all: seq<Triple>, done: set<Event>)
    requires Assembles(cfg, c) && Assembles(cfg, Native(cfg, c)) && c.stage > 0 && t in all
    requires c.host == cfg.build || AllMade(cfg, rustc, Native(cfg, c), all) <= done
    ensures var s := Rule(rustc, c, t);
      && Sound(cfg, Assemble(c)) && Fed(cfg, Assemble(c)) && Needs(cfg, Assemble(c)) == Makes(cfg, Assemble(c)) == {}
      && Sound(cfg, s) && Fed(cfg, s) && Needs(cfg, s) <= done
  {
    MadeForAll(cfg, rustc, Native(cfg, c), t, all);
    hide AllMade, Stamp, RustcBinary, Assembles;
  }

  lemma TwoInOrder(cfg: Config, done: set<Event>, first: Step, second: Step, rest: seq<Step>)
    requires Sound(cfg, first) && Fed(cfg, first) && Needs(cfg, first) == Makes(cfg, first) == {}
    requires Sound(cfg, second) && Fed(cfg, second) && Needs(cfg, second) <= done
    requires InOrder(Stamps(cfg), done + Makes(cfg, second), rest)
    ensures InOrder(Stamps(cfg), done, [first, second] + rest)
  {
    var k := Stamps(cfg);
    assert ([first, second] + rest)[1..] == [second] + rest && ([second] + rest)[1..] == rest;
    assert done + k.after(first) == done;
    hide Sound, Fed, Needs, Makes;
    assert InOrder(k, done, [second] + rest);
  }

  /** What the rule for one target needs of the native compiler is made by the rule for all targets. */
  lemma {:induction false} MadeForAll(cfg: Config, rustc: bool, native: Compiler, t: Triple, all: seq<Triple>)
    requires t in all
    ensures Makes(cfg, Rule(rustc, native, t)) <= AllMade(cfg, rustc, native, all)
    decreases |all|
  {
    hide Makes;
    if t != all[0] {
      MadeForAll(cfg, rustc, native, t, all[1..]);
    }
  }

  lemma {:induction false} OtherHostsInOrder(cfg: Config, rustc: bool, stage: nat, hosts: seq<Triple>, targets: seq<Triple>,
                                             done: set<Event>)
    requires stage > 0 && (cfg.fullBootstrap || stage <= 2)
    requires AllMade(cfg, rustc, Compiler(stage, cfg.build), targets) <= done
    ensures InOrder(Stamps(cfg), done, DriverRequests(rustc, stage, hosts, targets))
    decreases |hosts|
  {
    if hosts != [] {
      var c := Compiler(stage, hosts[0]);
      hide AllMade;
      OtherHostsInOrder(cfg, rustc, stage, hosts[1..], targets, done + AllMade(cfg, rustc, c, targets));
      HostInOrder(cfg, rustc, c, targets, DriverRequests(rustc, stage, hosts[1..], targets), done, targets);
    }
  }

  lemma {:induction false} DriverIn(n: nat, ts: set<Triple>, rustc: bool, stage: nat, hosts: seq<Triple>, targets: seq<Triple>)
    requires stage <= n && forall t :: t in hosts || t in targets ==> t in ts
    ensures forall s :: s in DriverRequests(rustc, stage, hosts, targets) ==> StepIn(n, ts, s)
    decreases |hosts|
  {
    if hosts != [] {
      HostIn(n, ts, rustc, Compiler(stage, hosts[0]), targets);
      DriverIn(n, ts, rustc, stage, hosts[1..], targets);
    }
  }

  lemma {:induction false} HostIn(n: nat, ts: set<Triple>, rustc: bool, c: Compiler, targets: seq<Triple>)
    requires CompilerIn(n, ts, c) && forall t :: t in targets ==> t in ts
    ensures forall s :: s in HostRequests(rustc, c, targets) ==> StepIn(n, ts, s)
    decreases |targets|
  {
    if targets != [] {
      HostIn(n, ts, rustc, c, targets[1..]);
    }
  }
}
