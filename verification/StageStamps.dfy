// Producer before consumer: the stamp files and binaries that links and Assemble read, and exactly when an earlier step
// of the same run has written them.
module StageStamps {
  import opened Engine
  import opened EngineProofs
  import opened Contracts
  import opened StageGraph
  import opened StagePlans
  import opened StageTables

  /** The rustc binary that Assemble copies is one that Rustc really built: beyond stage 3 of a bootstrap that is not
      full, the previous stage was uplifted and left no binary. */
  predicate Assembles(cfg: Config, c: Compiler) {
    cfg.fullBootstrap || c.stage <= 2 || (c.stage == 3 && !IsHost(cfg, c.host))
  }

  /** Every compiler that Std or Rustc of c for t asks for assembles. */
  predicate Links(cfg: Config, c: Compiler, t: Triple) {
    ForceUseStage1(cfg, c, t) || (Assembles(cfg, c) && Assembles(cfg, Native(cfg, c)))
  }

  /** The requests below which no compiler is assembled from an uplifted rustc. */
  predicate Fed(cfg: Config, s: Step) {
    match s
    case Assemble(c) => Assembles(cfg, c)
    case Std(c, t) => Links(cfg, c, t)
    case Rustc(c, t) => Links(cfg, c, t)
    case ToolBuild(c, t, mode) => (mode == ToolStd || mode == ToolRustc) ==> Links(cfg, c, t)
    case Rustdoc(c) => c.stage > 0 ==> Assembles(cfg, StageGraph.Builder(cfg, c))
    case FuzzTargetGenerator(c) => c.stage > 0 ==> Assembles(cfg, StageGraph.Builder(cfg, c))
    case _ => true
  }

  /** Std and Rustc of a compiler on a foreign host, if not uplifted, link what the native compiler has built. */
  predicate LinksForeign(cfg: Config, c: Compiler, t: Triple) {
    !ForceUseStage1(cfg, c, t) && c.host != cfg.build
  }

  function StdNeeds(cfg: Config, c: Compiler, t: Triple): set<Event> {
    if LinksForeign(cfg, c, t) then {Write(Stamp(cfg, Native(cfg, c), StdMode, t))} else {}
  }

  function RustcNeeds(cfg: Config, c: Compiler, t: Triple): set<Event> {
    StdNeeds(cfg, c, t) + if LinksForeign(cfg, c, t) then {Write(Stamp(cfg, Native(cfg, c), RustcMode, t))} else {}
  }

  /** The files that a request reads and that no step below it writes. */
  function Needs(cfg: Config, s: Step): set<Event> {
    match s
    case StdLink(c, _, t) => {Write(Stamp(cfg, c, StdMode, t))}
    case RustcLink(c, _, t) => {Write(Stamp(cfg, c, RustcMode, t))}
    case Std(c, t) => StdNeeds(cfg, c, t)
    case Rustc(c, t) => RustcNeeds(cfg, c, t)
    case ToolBuild(c, t, mode) =>
      if mode == ToolStd then StdNeeds(cfg, c, t) else if mode == ToolRustc then RustcNeeds(cfg, c, t) else {}
    case _ => {}
  }

  /** The files that a request has written by the time it is done. */
  function Makes(cfg: Config, s: Step): set<Event> {
    match s
    case Std(c, t) => if ForceUseStage1(cfg, c, t) then {} else {Write(Stamp(cfg, c, StdMode, t))}
    case Rustc(c, t) =>
      if ForceUseStage1(cfg, c, t) then {}
      else {Write(Stamp(cfg, c, StdMode, t)), Write(Stamp(cfg, c, RustcMode, t)), Write(RustcBinary(cfg, c, t))}
    case _ => {}
  }

  function Producers(e: Event): set<Event> {
    if e.Read? then {Write(e.file)} else {}
  }

  ghost function Stamps(cfg: Config): Table {
    Contract(s => Sound(cfg, s) && Fed(cfg, s), s => Needs(cfg, s), s => Makes(cfg, s), e => Producers(e),
             (s, o) => Honest(s, o), s => Rank(cfg, s))
  }

  ghost predicate Supplied(cfg: Config, s: Step, i: nat)
    requires i < |Plan(cfg, s)|
  {
    match Plan(cfg, s)[i]
    case Ask(d) => Fed(cfg, d) && AllHeld(cfg, Stamps(cfg), s, i, Needs(cfg, d))
    case Do(e) => AllHeld(cfg, Stamps(cfg), s, i, Producers(e))
    case Fail => true
  }

  lemma MadeByItem(cfg: Config, s: Step, i: nat, j: nat, e: Event)
    requires j < i && j < |Plan(cfg, s)|
    requires (Plan(cfg, s)[j].Ask? && e in Makes(cfg, Plan(cfg, s)[j].step)) || Plan(cfg, s)[j] == Do(e)
    ensures AllHeld(cfg, Stamps(cfg), s, i, {e})
  {
    hide Plan, Makes;
    HeldByItem(cfg, Stamps(cfg), s, i, j, {e});
  }

  lemma NotUplifted(cfg: Config, t: Triple)
    ensures !ForceUseStage1(cfg, Compiler(1, cfg.build), t) && Links(cfg, Compiler(1, cfg.build), t)
    ensures Assembles(cfg, Compiler(1, cfg.build))
    ensures StdNeeds(cfg, Compiler(1, cfg.build), t) == RustcNeeds(cfg, Compiler(1, cfg.build), t) == {}
  {
  }

  lemma StdSupplied(cfg: Config, s: Step, i: nat)
    requires s.Std? && i < |Plan(cfg, s)| && Fed(cfg, s)
    ensures Supplied(cfg, s, i)
  {
    var c, t := s.compiler, s.target;
    NotUplifted(cfg, t);
    var toUse := CompilerFor(cfg, c, t);
    var plan := if toUse != c then StdUplift(cfg, c, t, toUse) else StdBuild(cfg, c, t, Native(cfg, c));
    assert Plan(cfg, s) == plan;
    hide LibdirDir, SelfContained, Stamp, CopiesSanitizers, Plan, Assembles;
    if toUse != c {
      if i == 8 {
        assert plan[2] == Ask(Std(toUse, t));
        MadeByItem(cfg, s, i, 2, Write(Stamp(cfg, toUse, StdMode, t)));
      }
    } else if i == 10 {
      if c.host == cfg.build {
        assert plan[8] == Do(Write(Stamp(cfg, c, StdMode, t)));
        MadeByItem(cfg, s, i, 8, Write(Stamp(cfg, c, StdMode, t)));
      } else {
        HeldBefore(cfg, Stamps(cfg), s, i, StdNeeds(cfg, c, t));
      }
    }
  }

  lemma RustcSupplied(cfg: Config, s: Step, i: nat)
    requires s.Rustc? && i < |Plan(cfg, s)| && Fed(cfg, s)
    ensures Supplied(cfg, s, i)
  {
    var c, t := s.compiler, s.target;
    NotUplifted(cfg, t);
    var toUse := CompilerFor(cfg, c, t);
    var plan := if toUse != c then RustcUplift(cfg, c, t, toUse) else RustcBuild(cfg, c, t, Native(cfg, c), Native(cfg, c));
    assert Plan(cfg, s) == plan;
    hide RustcBinary, Stamp, Plan, Assembles;
    if i == 0 {
      HeldBefore(cfg, Stamps(cfg), s, i, StdNeeds(cfg, c, t));
    } else if toUse != c {
      if i == 3 {
        assert plan[2] == Ask(Rustc(toUse, t));
        MadeByItem(cfg, s, i, 2, Write(Stamp(cfg, toUse, RustcMode, t)));
      }
    } else if i == 9 {
      if c.host == cfg.build {
        assert plan[7] == Do(Write(Stamp(cfg, c, RustcMode, t)));
        MadeByItem(cfg, s, i, 7, Write(Stamp(cfg, c, RustcMode, t)));
      } else {
        HeldBefore(cfg, Stamps(cfg), s, i, RustcNeeds(cfg, c, t));
      }
    }
  }

  lemma AssembleSupplied(cfg: Config, s: Step, i: nat)
    requires s.Assemble? && s.compiler.stage > 0 && i < |Plan(cfg, s)| && Fed(cfg, s)
    ensures Supplied(cfg, s, i)
  {
    var c := s.compiler;
    var bc := StageGraph.Builder(cfg, c);
    var plan := AssembleFrom(cfg, c, bc);
    assert Plan(cfg, s) == plan;
    hide RustcLibdir, SysrootDir, SysrootLibdirRelative, RustcBinary, LldBin, Plan, Stamp;
    if i == 11 {
      assert plan[1] == Ask(Rustc(bc, c.host));
      MadeByItem(cfg, s, i, 1, Write(RustcBinary(cfg, bc, c.host)));
    }
  }

  lemma LinkSupplied(cfg: Config, s: Step, i: nat)
    requires (s.StdLink? || s.RustcLink?) && i < |Plan(cfg, s)|
    ensures Supplied(cfg, s, i)
  {
    hide LibdirDir, Stamp;
  }

  lemma ToolSupplied(cfg: Config, s: Step, i: nat)
    requires s.ToolBuild? && i < |Plan(cfg, s)| && Fed(cfg, s) && Sound(cfg, s)
    ensures Supplied(cfg, s, i)
  {
    hide Links, StdNeeds, RustcNeeds;
    if i == 0 {
      HeldBefore(cfg, Stamps(cfg), s, i, Needs(cfg, s));
    }
  }

  lemma OthersSupplied(cfg: Config, s: Step, i: nat)
    requires !s.Std? && !s.Rustc? && !s.StdLink? && !s.RustcLink? && !(s.Assemble? && s.compiler.stage > 0) && !s.ToolBuild?
    requires i < |Plan(cfg, s)| && Fed(cfg, s) && Sound(cfg, s)
    ensures Supplied(cfg, s, i)
  {
    hide LibdirDir, SysrootDir, AssembleFrom, Links, Assembles;
  }

  /** Whatever else a table promises, what a body makes has been made at its end. */
  lemma MakesHeld(cfg: Config, k: Table, s: Step)
    requires forall d :: Makes(cfg, d) <= k.after(d)
    ensures AllHeld(cfg, k, s, |Plan(cfg, s)|, Makes(cfg, s))
  {
    if (s.Std? || s.Rustc?) && !ForceUseStage1(cfg, s.compiler, s.target) {
      var c, t := s.compiler, s.target;
      var plan := if s.Std? then StdBuild(cfg, c, t, Native(cfg, c)) else RustcBuild(cfg, c, t, Native(cfg, c), Native(cfg, c));
      assert Plan(cfg, s) == plan;
      hide RustcBinary, LibdirDir, SelfContained, Stamp, CopiesSanitizers, Plan, ForceUseStage1;
      if s.Std? {
        assert plan[8] == Do(Write(Stamp(cfg, c, StdMode, t)));
        HeldByItem(cfg, k, s, |plan|, 8, {Write(Stamp(cfg, c, StdMode, t))});
      } else {
        assert plan[0] == Ask(Std(c, t)) && Write(Stamp(cfg, c, StdMode, t)) in Makes(cfg, Std(c, t));
        assert plan[6] == Do(Write(RustcBinary(cfg, c, t))) && plan[7] == Do(Write(Stamp(cfg, c, RustcMode, t)));
        HeldByItem(cfg, k, s, |plan|, 0, {Write(Stamp(cfg, c, StdMode, t))});
        HeldByItem(cfg, k, s, |plan|, 6, {Write(RustcBinary(cfg, c, t))});
        HeldByItem(cfg, k, s, |plan|, 7, {Write(Stamp(cfg, c, RustcMode, t))});
      }
    } else {
      hide Plan;
    }
  }

  lemma StampsChecked(cfg: Config, n: nat, ts: set<Triple>)
    requires cfg.build in ts
    ensures Checked(Stages(cfg, n, ts), Stamps(cfg))
  {
    var k := Stamps(cfg);
    forall s | StepIn(n, ts, s) && k.admissible(s) ensures PlanObeys(cfg, n, ts, k, s) {
      PlansDescend(cfg, n, ts, s);
      forall i | 0 <= i < |Plan(cfg, s)| ensures ItemObeys(cfg, n, ts, k, s, i) {
        PlanSupplied(cfg, s, i);
        hide Plan, StepIn, Sound, Rank, Needs, Makes, Fed;
        assert ItemDescends(cfg, n, ts, s, Plan(cfg, s)[i]);
      }
      MakesHeld(cfg, k, s);
    }
    hide Plan, StepIn, Sound, Rank, Needs, Makes, Fed;
    PlansChecked(cfg, n, ts, k);
  }

  lemma PlanSupplied(cfg: Config, s: Step, i: nat)
    requires i < |Plan(cfg, s)| && Fed(cfg, s) && Sound(cfg, s)
    ensures Supplied(cfg, s, i)
  {
    hide Plan, Fed, Supplied;
    if s.Std? {
      StdSupplied(cfg, s, i);
    } else if s.Rustc? {
      RustcSupplied(cfg, s, i);
    } else if s.Assemble? && s.compiler.stage > 0 {
      AssembleSupplied(cfg, s, i);
    } else if s.StdLink? || s.RustcLink? {
      LinkSupplied(cfg, s, i);
    } else if s.ToolBuild? {
      ToolSupplied(cfg, s, i);
    } else {
      OthersSupplied(cfg, s, i);
    }
  }
}
