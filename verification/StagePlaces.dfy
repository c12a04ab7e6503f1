// What each step has served first and what it leaves in the sysroots, step by step, and that every body sees to it.
module StagePlaces {
  import opened Engine
  import opened EngineProofs
  import opened Contracts
  import opened StageGraph
  import opened StagePlans
  import opened StageTables

  // ---------------------------------------------------------------------------------------------
  // What is put where.

  /** The compiler whose artifacts end up in the libdir of c for t: the first stage, or the native one of the same stage. */
  function LinkedFrom(cfg: Config, c: Compiler, t: Triple): Compiler {
    Compiler(if ForceUseStage1(cfg, c, t) then 1 else c.stage, cfg.build)
  }

  /** The artifacts that the stamp lists, by their kinds: those for the target beside its libraries, those for the host,
      such as procedural macros, beside the libraries of the host that built them, and the objects for linking without a
      toolchain in a directory of their own. */
  function Linked(cfg: Config, from: Compiler, mode: Mode, c: Compiler, t: Triple): set<Event> {
    var stamp, libdir, hostdir := Stamp(cfg, from, mode, t), LibdirDir(cfg, c, t), LibdirDir(cfg, c, from.host);
    {Fill(libdir), Fill(hostdir), Fill(libdir + [Dir("self-contained")]),
     Copy(stamp, TargetDeps, libdir), Copy(stamp, HostDeps, hostdir),
     Copy(stamp, SelfContainedDeps, libdir + [Dir("self-contained")])}
  }

  function StartupPlaces(cfg: Config, c: Compiler, t: Triple): set<Event> {
    if cfg.windowsGnu(t) then {Fill(LibdirDir(cfg, c, t))} else {}
  }

  function StdPlaces(cfg: Config, c: Compiler, t: Triple): set<Event> {
    Linked(cfg, LinkedFrom(cfg, c, t), StdMode, c, t) + StartupPlaces(cfg, c, t)
    + {Fill(LibdirDir(cfg, c, t) + if c.stage > 0 then [Dir("self-contained")] else [])}
    + if cfg.sanitizers && c.stage > 0 then {Fill(LibdirDir(cfg, c, t))} else {}
  }

  function RustcPlaces(cfg: Config, c: Compiler, t: Triple): set<Event> {
    StdPlaces(cfg, c, t) + Linked(cfg, LinkedFrom(cfg, c, t), RustcMode, c, t)
  }

  /** The dynamic libraries and the binary of the compiler, built by the stage before, the LLVM libraries, and lld. */
  function AssemblePlaces(cfg: Config, c: Compiler): set<Event> {
    if c.stage == 0 then {}
    else
      var bc := Compiler(c.stage - 1, cfg.build);
      {Fill(RustcLibdir(cfg, c)),
       Copy(LibdirDir(cfg, bc, c.host), Dylibs, RustcLibdir(cfg, c)),
       Copy(RustcBinary(cfg, bc, c.host), OneFile, SysrootDir(c) + [Dir("bin")]),
       Fill(SysrootDir(c) + SysrootLibdirRelative(cfg, 1)),
       Fill(SysrootDir(c) + [Dir("lib"), Dir("rustlib"), Named(c.host), Dir("lib")])}
      + if cfg.lld then {Fill(LldBin(cfg, c))} else {}
  }

  /** What has been put in its place by the time a step is done. */
  function Places(cfg: Config, s: Step): set<Event> {
    match s
    case StdLink(c, tc, t) => Linked(cfg, c, StdMode, tc, t)
    case RustcLink(c, tc, t) => Linked(cfg, c, RustcMode, tc, t)
    case Std(c, t) => StdPlaces(cfg, c, t)
    case Rustc(c, t) => RustcPlaces(cfg, c, t)
    case Assemble(c) => AssemblePlaces(cfg, c)
    case StartupObjects(c, t) => StartupPlaces(cfg, c, t)
    case Sysroot(c) => {Reset(SysrootDir(c)), Fill(SysrootDir(c) + [Dir("lib"), Dir("rustlib"), Dir("src")])}
    case Libdir(c, t) => {Reset(LibdirDir(cfg, c, t))}
    case ToolBuild(c, t, mode) =>
      if mode == ToolStd then StdPlaces(cfg, c, t) else if mode == ToolRustc then RustcPlaces(cfg, c, t) else {}
    case Rustdoc(c) => if c.stage > 0 then {Fill(SysrootDir(c) + [Dir("bin")])} else {}
    case FuzzTargetGenerator(c) => if c.stage > 0 then {Fill(SysrootDir(c) + [Dir("bin")])} else {}
    case _ => {}
  }

  /** What one item of the plan brings about. */
  lemma PlacedBy(cfg: Config, k: Table, s: Step, j: nat, es: set<Event>)
    requires j < |Plan(cfg, s)| && es <= Gives(k, Plan(cfg, s)[j])
    ensures AllHeld(cfg, k, s, |Plan(cfg, s)|, es)
  {
    hide Plan, Gives;
    HeldByItem(cfg, k, s, |Plan(cfg, s)|, j, es);
  }

  lemma LinkPlacesHeld(cfg: Config, k: Table, s: Step)
    requires s.StdLink? || s.RustcLink?
    ensures AllHeld(cfg, k, s, |Plan(cfg, s)|, Places(cfg, s))
  {
    var c, tc, t := s.compiler, s.targetCompiler, s.target;
    var plan := LinkScript(cfg, c, tc, if s.StdLink? then StdMode else RustcMode, t);
    assert Plan(cfg, s) == plan;
    hide LibdirDir, Stamp, Plan;
    PlacedBy(cfg, k, s, 2, {plan[2].event});
    PlacedBy(cfg, k, s, 3, {plan[3].event});
    PlacedBy(cfg, k, s, 4, {plan[4].event});
    PlacedBy(cfg, k, s, 6, {plan[6].event});
    PlacedBy(cfg, k, s, 7, {plan[7].event});
    PlacedBy(cfg, k, s, 8, {plan[8].event});
  }

  lemma StdPlacesHeld(cfg: Config, k: Table, s: Step)
    requires s.Std? && forall d :: Places(cfg, d) <= k.after(d)
    ensures AllHeld(cfg, k, s, |Plan(cfg, s)|, Places(cfg, s))
  {
    var c, t := s.compiler, s.target;
    var uplift, from := ForceUseStage1(cfg, c, t), LinkedFrom(cfg, c, t);
    var plan := if uplift then StdUplift(cfg, c, t, from) else StdBuild(cfg, c, t, from);
    assert Plan(cfg, s) == plan;
    hide LibdirDir, Stamp, Plan, ForceUseStage1, LinkedFrom;
    assert plan[|plan| - 1] == Ask(StdLink(from, c, t)) && plan[0] == Ask(StartupObjects(c, t));
    assert Places(cfg, StdLink(from, c, t)) <= k.after(StdLink(from, c, t));
    assert Places(cfg, StartupObjects(c, t)) <= k.after(StartupObjects(c, t));
    PlacedBy(cfg, k, s, |plan| - 1, Linked(cfg, from, StdMode, c, t));
    PlacedBy(cfg, k, s, 0, StartupPlaces(cfg, c, t));
    hide Linked, StartupPlaces;
    var own := if uplift then 7 else 6;
    assert LibdirDir(cfg, c, t) + [] == LibdirDir(cfg, c, t);
    PlacedBy(cfg, k, s, own, {plan[own].event});
    if CopiesSanitizers(cfg, c) {
      PlacedBy(cfg, k, s, own - 2, {plan[own - 2].event});
    }
  }

  lemma RustcPlacesHeld(cfg: Config, k: Table, s: Step)
    requires s.Rustc? && forall d :: Places(cfg, d) <= k.after(d)
    ensures AllHeld(cfg, k, s, |Plan(cfg, s)|, Places(cfg, s))
  {
    var c, t := s.compiler, s.target;
    var native, from := Native(cfg, c), LinkedFrom(cfg, c, t);
    var plan := if ForceUseStage1(cfg, c, t) then RustcUplift(cfg, c, t, from) else RustcBuild(cfg, c, t, native, native);
    assert Plan(cfg, s) == plan;
    hide RustcBinary, Stamp, Plan, Linked, StdPlaces;
    assert plan[|plan| - 1] == Ask(RustcLink(from, c, t)) && plan[0] == Ask(Std(c, t));
    hide LinkedFrom;
    assert Places(cfg, RustcLink(from, c, t)) <= k.after(RustcLink(from, c, t));
    assert Places(cfg, Std(c, t)) <= k.after(Std(c, t));
    PlacedBy(cfg, k, s, |plan| - 1, Linked(cfg, from, RustcMode, c, t));
    PlacedBy(cfg, k, s, 0, StdPlaces(cfg, c, t));
  }

  lemma AssemblePlacesHeld(cfg: Config, k: Table, s: Step)
    requires s.Assemble?
    ensures AllHeld(cfg, k, s, |Plan(cfg, s)|, Places(cfg, s))
  {
    var c := s.compiler;
    if c.stage > 0 {
      var plan := AssembleFrom(cfg, c, Compiler(c.stage - 1, cfg.build));
      assert Plan(cfg, s) == plan;
      hide RustcLibdir, SysrootDir, SysrootLibdirRelative, RustcBinary, LldBin, LibdirDir, Plan;
      PlacedBy(cfg, k, s, 4, {plan[4].event});
      PlacedBy(cfg, k, s, 6, {plan[6].event});
      PlacedBy(cfg, k, s, 8, {plan[8].event});
      PlacedBy(cfg, k, s, 9, {plan[9].event});
      PlacedBy(cfg, k, s, 10, {plan[10].event});
      PlacedBy(cfg, k, s, 12, {plan[12].event});
    }
  }

  lemma OtherPlacesHeld(cfg: Config, k: Table, s: Step)
    requires !s.Std? && !s.Rustc? && !s.StdLink? && !s.RustcLink? && !s.Assemble? && forall d :: Places(cfg, d) <= k.after(d)
    ensures AllHeld(cfg, k, s, |Plan(cfg, s)|, Places(cfg, s))
  {
    hide SysrootDir, LibdirDir, Linked, StdPlaces, RustcPlaces;
    if Places(cfg, s) != {} {
      if s.ToolBuild? {
        var d := if s.mode == ToolStd then Std(s.compiler, s.target) else Rustc(s.compiler, s.target);
        assert Plan(cfg, s)[0] == Ask(d) && Places(cfg, d) <= k.after(d);
        PlacedBy(cfg, k, s, 0, Places(cfg, d));
      } else if s.Rustdoc? || s.FuzzTargetGenerator? {
        PlacedBy(cfg, k, s, 4, Places(cfg, s));
      } else if s.Sysroot? {
        PlacedBy(cfg, k, s, 0, {Plan(cfg, s)[0].event});
        PlacedBy(cfg, k, s, 1, {Plan(cfg, s)[1].event});
      } else {
        PlacedBy(cfg, k, s, 1, Places(cfg, s));
      }
    }
  }

  /** Whatever else a table promises, what a body puts in its place is there at its end. */
  lemma PlacesHeld(cfg: Config, k: Table, s: Step)
    requires forall d :: Places(cfg, d) <= k.after(d)
    ensures AllHeld(cfg, k, s, |Plan(cfg, s)|, Places(cfg, s))
  {
    hide Plan, Places;
    if s.StdLink? || s.RustcLink? {
      LinkPlacesHeld(cfg, k, s);
    } else if s.Std? {
      StdPlacesHeld(cfg, k, s);
    } else if s.Rustc? {
      RustcPlacesHeld(cfg, k, s);
    } else if s.Assemble? {
      AssemblePlacesHeld(cfg, k, s);
    } else {
      OtherPlacesHeld(cfg, k, s);
    }
  }

  // ---------------------------------------------------------------------------------------------
  // What is asked for.

  function StdUses(cfg: Config, c: Compiler, t: Triple): set<Step> {
    var native, first := Compiler(c.stage, cfg.build), Compiler(1, cfg.build);
    {StartupObjects(c, t), Libdir(c, t)}
    + (if cfg.sanitizers && c.stage > 0 then {Sanitizers(t)} else {})
    + if ForceUseStage1(cfg, c, t) then {Assemble(first), Std(first, t), StdLink(first, c, t)}
      else {Assemble(c), Sysroot(c), Assemble(native), StdLink(native, c, t)}
  }

  function RustcUses(cfg: Config, c: Compiler, t: Triple): set<Step> {
    var native, first := Compiler(c.stage, cfg.build), Compiler(1, cfg.build);
    {Std(c, t)}
    + if ForceUseStage1(cfg, c, t) then {Assemble(first), Rustc(first, t), RustcLink(first, c, t)}
      else
        {Assemble(c), Assemble(native), Std(native, cfg.build), Sysroot(c), RustcLink(native, c, t)}
        + if cfg.llvm then {Llvm(t)} else {}
  }

  function AssembleUses(cfg: Config, c: Compiler): set<Step> {
    if c.stage == 0 then {}
    else
      var bc := Compiler(c.stage - 1, cfg.build);
      {Assemble(bc), Rustc(bc, c.host), Sysroot(c), Libdir(bc, c.host), Libdir(c, c.host)}
      + if cfg.lld then {Lld(c.host)} else {}
  }

  function DocToolUses(cfg: Config, c: Compiler): set<Step> {
    if c.stage == 0 then {}
    else
      var bc := Compiler(c.stage - 1, cfg.build);
      {Assemble(bc), Sysroot(bc), Sysroot(c)} + if cfg.llvm then {Llvm(c.host)} else {}
  }

  /** The steps that a step asks for. */
  function Uses(cfg: Config, s: Step): set<Step> {
    match s
    case Assemble(c) => AssembleUses(cfg, c)
    case Std(c, t) => StdUses(cfg, c, t)
    case Rustc(c, t) => RustcUses(cfg, c, t)
    case StdLink(c, tc, t) => {Libdir(tc, t), Libdir(tc, c.host)}
    case RustcLink(c, tc, t) => {Libdir(tc, t), Libdir(tc, c.host)}
    case StartupObjects(c, t) => if cfg.windowsGnu(t) then {Libdir(c, t)} else {}
    case Sysroot(_) => {}
    case Libdir(c, _) => {Sysroot(c)}
    case Llvm(t) => if cfg.prebuiltLlvm(t) || t == cfg.build then {} else {Llvm(cfg.build)}
    case Lld(t) => {Llvm(t)}
    case Sanitizers(t) => if cfg.hasSanitizers(t) then {Llvm(cfg.build)} else {}
    case ToolBuild(c, t, mode) =>
      {Sysroot(c)}
      + if mode == ToolStd then {Std(c, t)}
        else if mode == ToolRustc then {Rustc(c, t)} + if cfg.llvm then {Llvm(t)} else {}
        else {}
    case Rustdoc(c) => DocToolUses(cfg, c)
    case FuzzTargetGenerator(c) => DocToolUses(cfg, c)
  }

  lemma StdUsesPlanned(cfg: Config, s: Step, d: Step)
    requires s.Std?
    ensures d in Uses(cfg, s) <==> Ask(d) in Plan(cfg, s)
  {
    var c, t := s.compiler, s.target;
    var plan := if ForceUseStage1(cfg, c, t) then StdUplift(cfg, c, t, Compiler(1, cfg.build))
                else StdBuild(cfg, c, t, Compiler(c.stage, cfg.build));
    assert Plan(cfg, s) == plan;
    hide Plan, LibdirDir, SelfContained, Stamp;
  }

  lemma RustcUsesPlanned(cfg: Config, s: Step, d: Step)
    requires s.Rustc?
    ensures d in Uses(cfg, s) <==> Ask(d) in Plan(cfg, s)
  {
    var c, t, native := s.compiler, s.target, Native(cfg, s.compiler);
    var plan := if ForceUseStage1(cfg, c, t) then RustcUplift(cfg, c, t, Compiler(1, cfg.build))
                else RustcBuild(cfg, c, t, native, native);
    assert Plan(cfg, s) == plan;
    hide Plan, RustcBinary, Stamp;
  }

  lemma AssembleUsesPlanned(cfg: Config, s: Step, d: Step)
    requires s.Assemble? && s.compiler.stage > 0
    ensures d in Uses(cfg, s) <==> Ask(d) in Plan(cfg, s)
  {
    var plan := AssembleFrom(cfg, s.compiler, StageGraph.Builder(cfg, s.compiler));
    assert Plan(cfg, s) == plan;
    hide RustcLibdir, SysrootDir, SysrootLibdirRelative, RustcBinary, LldBin, LibdirDir, Plan;
  }

  lemma DocToolUsesPlanned(cfg: Config, s: Step, d: Step)
    requires (s.Rustdoc? || s.FuzzTargetGenerator?) && s.compiler.stage > 0
    ensures d in Uses(cfg, s) <==> Ask(d) in Plan(cfg, s)
  {
    var plan := DocToolFrom(cfg, s.compiler, StageGraph.Builder(cfg, s.compiler));
    assert Plan(cfg, s) == plan;
    hide SysrootDir, Plan;
  }

  lemma LeafUsesPlanned(cfg: Config, s: Step, d: Step)
    requires !s.Std? && !s.Rustc?
    requires !((s.Assemble? || s.Rustdoc? || s.FuzzTargetGenerator?) && s.compiler.stage > 0)
    ensures d in Uses(cfg, s) <==> Ask(d) in Plan(cfg, s)
  {
    hide SysrootDir, LibdirDir, Stamp, AssembleFrom, DocToolFrom;
  }

  /** A body asks for just these, when Assemble hands back what it was asked for. */
  lemma UsesPlanned(cfg: Config, s: Step, d: Step)
    ensures d in Uses(cfg, s) <==> Ask(d) in Plan(cfg, s)
  {
    hide Uses, Plan;
    if s.Std? {
      StdUsesPlanned(cfg, s, d);
    } else if s.Rustc? {
      RustcUsesPlanned(cfg, s, d);
    } else if s.Assemble? && s.compiler.stage > 0 {
      AssembleUsesPlanned(cfg, s, d);
    } else if (s.Rustdoc? || s.FuzzTargetGenerator?) && s.compiler.stage > 0 {
      DocToolUsesPlanned(cfg, s, d);
    } else {
      LeafUsesPlanned(cfg, s, d);
    }
  }

  /** What the plan asks for is asked for, whatever outputs the steps asked before have. */
  lemma {:induction false} PlanAsks(cfg: Config, n: nat, ts: set<Triple>, s: Step, h: seq<Reply<Output>>, i: nat, d: Step)
    requires Checked(Stages(cfg, n, ts), Layout(cfg)) && s in Stages(cfg, n, ts).universe
    requires Likely(cfg, n, ts, Layout(cfg), s, h) && PlanObeys(cfg, n, ts, Layout(cfg), s) && Sound(cfg, s)
    requires |h| <= i < |Plan(cfg, s)| && Plan(cfg, s)[i] == Ask(d)
    ensures Asks(Stages(cfg, n, ts), s, h, d)
    decreases i - |h|
  {
    var p, k := Stages(cfg, n, ts), Layout(cfg);
    hide Plan, Sound, PlanObeys, Stages;
    ActIsItem(cfg, n, ts, k, s, h);
    assert k.admissible(s) && Plausible(p, k, s, h);
    assert Obeys(p, k, s, h);
    hide Layout;
    if |h| < i {
      assert !p.act(s, h).Return? && !p.act(s, h).Abort?;
      if p.act(s, h).Work? {
        PlausibleMore(p, k, s, h, Ack);
        PlanAsks(cfg, n, ts, s, h + [Ack], i, d);
      } else {
        var o := ObedientYields(p, k, p.act(s, h).dep);
        PlausibleMore(p, k, s, h, Got(o));
        PlanAsks(cfg, n, ts, s, h + [Got(o)], i, d);
      }
    }
  }
}
