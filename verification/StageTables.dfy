// The rank of the stage graph, and its first contract table: which directories have been removed and made before what
// is put into them.
module StageTables {
  import opened Engine
  import opened Contracts
  import opened StageGraph
  import opened StagePlans

  // ---------------------------------------------------------------------------------------------
  // The graph descends.

  /** A rank that falls along every request, uplifts included. */
  function Rank(cfg: Config, s: Step): nat {
    match s
    case Sysroot(_) => 0
    case Libdir(_, _) => 1
    case Llvm(t) => if t == cfg.build then 0 else 1
    case Lld(_) => 2
    case Sanitizers(_) => 2
    case StartupObjects(_, _) => 2
    case StdLink(_, _, _) => 2
    case RustcLink(_, _, _) => 2
    case Assemble(c) => 4 * c.stage + 3
    case Std(c, _) => 4 * c.stage + 4
    case Rustc(c, _) => 4 * c.stage + 5
    case ToolBuild(c, _, _) => 4 * c.stage + 6
    case Rustdoc(c) => 4 * c.stage + 6
    case FuzzTargetGenerator(c) => 4 * c.stage + 6
  }

  /** The stage 0 compiler exists for the build triple only. */
  predicate Buildable(cfg: Config, c: Compiler) {
    c.stage > 0 || c.host == cfg.build
  }

  /** The requests no body of which panics. */
  predicate Sound(cfg: Config, s: Step) {
    match s
    case Assemble(c) => Buildable(cfg, c)
    case Std(c, _) => Buildable(cfg, c)
    case Rustc(c, _) => Buildable(cfg, c)
    case Rustdoc(c) => Buildable(cfg, c)
    case FuzzTargetGenerator(c) => Buildable(cfg, c)
    case ToolBuild(c, _, mode) =>
      if mode == ToolBootstrap then c.stage == 0 || cfg.localRebuild
      else (mode == ToolStd || mode == ToolRustc) && Buildable(cfg, c)
    case _ => true
  }

  predicate ItemDescends(cfg: Config, n: nat, ts: set<Triple>, s: Step, item: Item) {
    match item
    case Ask(d) => StepIn(n, ts, d) && Sound(cfg, d) && Rank(cfg, d) < Rank(cfg, s)
    case Do(_) => true
    case Fail => false
  }

  predicate Descends(cfg: Config, n: nat, ts: set<Triple>, s: Step) {
    forall item :: item in Plan(cfg, s) ==> ItemDescends(cfg, n, ts, s, item)
  }

  lemma RustcDescends(cfg: Config, n: nat, ts: set<Triple>, s: Step)
    requires cfg.build in ts && StepIn(n, ts, s) && Sound(cfg, s) && s.Rustc?
    ensures Descends(cfg, n, ts, s)
  {
    hide RustcBinary, Stamp;
    var c, t := s.compiler, s.target;
    if ForceUseStage1(cfg, c, t) {
      assert Plan(cfg, s) == RustcUplift(cfg, c, t, CompilerFor(cfg, c, t));
    } else {
      assert Plan(cfg, s) == RustcBuild(cfg, c, t, Native(cfg, c), Native(cfg, c));
    }
    hide Plan;
  }

  lemma StdDescends(cfg: Config, n: nat, ts: set<Triple>, s: Step)
    requires cfg.build in ts && StepIn(n, ts, s) && Sound(cfg, s) && s.Std?
    ensures Descends(cfg, n, ts, s)
  {
    hide Stamp, LibdirDir, SelfContained, CopiesSanitizers;
    var c, t := s.compiler, s.target;
    if ForceUseStage1(cfg, c, t) {
      assert Plan(cfg, s) == StdUplift(cfg, c, t, CompilerFor(cfg, c, t));
    } else {
      assert Plan(cfg, s) == StdBuild(cfg, c, t, Native(cfg, c));
    }
    hide Plan;
  }

  lemma AssembleDescends(cfg: Config, n: nat, ts: set<Triple>, s: Step)
    requires cfg.build in ts && StepIn(n, ts, s) && Sound(cfg, s) && s.Assemble? && s.compiler.stage > 0
    ensures Descends(cfg, n, ts, s)
  {
    hide RustcLibdir, SysrootDir, SysrootLibdirRelative, RustcBinary, LldBin;
    assert Plan(cfg, s) == AssembleFrom(cfg, s.compiler, StageGraph.Builder(cfg, s.compiler));
    hide Plan;
  }

  lemma DocToolDescends(cfg: Config, n: nat, ts: set<Triple>, s: Step)
    requires cfg.build in ts && StepIn(n, ts, s) && Sound(cfg, s) && (s.Rustdoc? || s.FuzzTargetGenerator?) && s.compiler.stage > 0
    ensures Descends(cfg, n, ts, s)
  {
    hide SysrootDir;
    assert Plan(cfg, s) == DocToolFrom(cfg, s.compiler, StageGraph.Builder(cfg, s.compiler));
    hide Plan;
  }

  lemma LeavesDescend(cfg: Config, n: nat, ts: set<Triple>, s: Step)
    requires cfg.build in ts && StepIn(n, ts, s) && Sound(cfg, s)
    requires !s.Rustc? && !s.Std? && !(s.Assemble? && s.compiler.stage > 0)
    requires !((s.Rustdoc? || s.FuzzTargetGenerator?) && s.compiler.stage > 0)
    ensures Descends(cfg, n, ts, s)
  {
    hide AssembleFrom, DocToolFrom, SysrootDir, LibdirDir, Stamp;
  }

  /** Every request of a sound step is a sound one of lower rank, in the same universe. */
  lemma PlansDescend(cfg: Config, n: nat, ts: set<Triple>, s: Step)
    requires cfg.build in ts && StepIn(n, ts, s) && Sound(cfg, s)
    ensures Descends(cfg, n, ts, s)
  {
    hide Descends;
    if s.Rustc? {
      RustcDescends(cfg, n, ts, s);
    } else if s.Std? {
      StdDescends(cfg, n, ts, s);
    } else if s.Assemble? && s.compiler.stage > 0 {
      AssembleDescends(cfg, n, ts, s);
    } else if (s.Rustdoc? || s.FuzzTargetGenerator?) && s.compiler.stage > 0 {
      DocToolDescends(cfg, n, ts, s);
    } else {
      LeavesDescend(cfg, n, ts, s);
    }
  }

  // ---------------------------------------------------------------------------------------------
  // First table: nothing is put into a directory before the last removal of that directory.

  /** A directory that Sysroot or Libdir removes and re-creates. */
  ghost predicate Managed(cfg: Config, p: Path) {
    (exists c :: p == SysrootDir(c)) || exists c, t :: p == LibdirDir(cfg, c, t)
  }

  /** The removals that would take p with them. */
  ghost function Enclosing(cfg: Config, p: Path): set<Event> {
    set i | 0 <= i <= |p| && Managed(cfg, p[..i]) :: Reset(p[..i])
  }

  /** The removals that have to come first. */
  ghost function Removals(cfg: Config, e: Event): set<Event> {
    match e
    case Reset(d) => Enclosing(cfg, d) - {e}
    case Fill(d) => Enclosing(cfg, d)
    case Write(f) => Enclosing(cfg, f)
    case Copy(_, _, d) => Enclosing(cfg, d)
    case _ => {}
  }

  /** What is copied has been looked up first: the stamp file or the binary read, or the directory made. */
  function Sources(e: Event): set<Event> {
    if e.Copy? then {if e.what.Dylibs? then Reset(e.from) else Read(e.from)} else {}
  }

  function Cleared(cfg: Config, s: Step): set<Event> {
    match s
    case Sysroot(c) => {Reset(SysrootDir(c))}
    case Libdir(c, t) => {Reset(SysrootDir(c)), Reset(LibdirDir(cfg, c, t))}
    case _ => {}
  }

  ghost function Layout(cfg: Config): Table {
    Contract(s => Sound(cfg, s), s => {}, s => Cleared(cfg, s), e => Removals(cfg, e) + Sources(e), (s, o) => Honest(s, o), s => Rank(cfg, s))
  }

  /** Sysroots of different compilers are different. */
  lemma SysrootInjective(c: Compiler, c': Compiler)
    requires SysrootDir(c) == SysrootDir(c')
    ensures c == c'
  {
    assert SysrootDir(c)[1] == SysrootDir(c')[1] && SysrootDir(c)[2] == SysrootDir(c')[2];
  }

  /** So are libdirs of different pairs of compiler and target, even when one lies below the other. */
  lemma LibdirInjective(cfg: Config, c: Compiler, t: Triple, c': Compiler, t': Triple)
    requires LibdirDir(cfg, c, t) <= LibdirDir(cfg, c', t')
    ensures c == c' && t == t'
  {
    assert LibdirDir(cfg, c, t)[..3] == SysrootDir(c);
    assert LibdirDir(cfg, c', t')[..3] == SysrootDir(c');
    SysrootInjective(c, c');
    var i := 4 + |SysrootLibdirRelative(cfg, c.stage)|;
    assert LibdirDir(cfg, c, t)[i] == Named(t);
    assert LibdirDir(cfg, c', t')[i] == Named(t');
  }

  /** Below a sysroot, only that sysroot and its own libdirs can be removed. */
  lemma EnclosingIs(cfg: Config, c: Compiler, p: Path, e: Event)
    requires SysrootDir(c) <= p && e in Enclosing(cfg, p)
    ensures e == Reset(SysrootDir(c)) || exists t :: LibdirDir(cfg, c, t) <= p && e == Reset(LibdirDir(cfg, c, t))
  {
    var i :| 0 <= i <= |p| && Managed(cfg, p[..i]) && e == Reset(p[..i]);
    if c' :| p[..i] == SysrootDir(c') {
      SysrootInjective(c, c');
    } else {
      var c', t :| p[..i] == LibdirDir(cfg, c', t);
      assert LibdirDir(cfg, c', t)[..3] == SysrootDir(c');
      assert p[..i][..3] == p[..3];
      SysrootInjective(c, c');
    }
  }

  lemma ManagedLooks(cfg: Config, p: Path)
    requires Managed(cfg, p)
    ensures |p| >= 3 && (p[2].StageDir? ==> p[2].suffix == "")
  {
    if c, t :| p == LibdirDir(cfg, c, t) {
      assert p[2] == SysrootDir(c)[2];
    }
  }

  /** Outside the sysroots Sysroot and Libdir remove nothing: the output directories of cargo are safe from them. */
  lemma CargoOutIsSafe(cfg: Config, c: Compiler, mode: Mode, t: Triple, rest: Path)
    ensures Enclosing(cfg, CargoOut(cfg, c, mode, t) + rest) == {}
  {
    var p := CargoOut(cfg, c, mode, t) + rest;
    forall i | 0 <= i <= |p| && Managed(cfg, p[..i]) ensures false {
      ManagedLooks(cfg, p[..i]);
    }
  }

  // ---------------------------------------------------------------------------------------------
  // The plans obey the first table.

  ghost predicate Laid(cfg: Config, s: Step, i: nat)
    requires i < |Plan(cfg, s)|
  {
    Plan(cfg, s)[i].Do? ==> AllHeld(cfg, Layout(cfg), s, i, Removals(cfg, Plan(cfg, s)[i].event) + Sources(Plan(cfg, s)[i].event))
  }

  /** After a request for a libdir, what goes below its sysroot and not into another libdir is safe. */
  lemma SafeInLibdir(cfg: Config, s: Step, i: nat, j: nat, c: Compiler, t: Triple, p: Path)
    requires j < i && j < |Plan(cfg, s)| && Plan(cfg, s)[j] == Ask(Libdir(c, t))
    requires SysrootDir(c) <= p && forall t' :: LibdirDir(cfg, c, t') <= p ==> t' == t
    ensures AllHeld(cfg, Layout(cfg), s, i, Enclosing(cfg, p))
  {
    hide Plan, LibdirDir, SysrootDir, Enclosing;
    forall e | e in Enclosing(cfg, p) ensures Held(cfg, Layout(cfg), s, i, e) {
      EnclosingIs(cfg, c, p, e);
      assert e in Gives(Layout(cfg), Plan(cfg, s)[j]);
    }
  }

  /** After a request for a sysroot, what goes below it but into no libdir is safe. */
  lemma SafeInSysroot(cfg: Config, s: Step, i: nat, j: nat, c: Compiler, p: Path)
    requires j < i && j < |Plan(cfg, s)|
    requires Plan(cfg, s)[j] == Ask(Sysroot(c)) || Plan(cfg, s)[j] == Do(Reset(SysrootDir(c)))
    requires SysrootDir(c) <= p && forall t' :: !(LibdirDir(cfg, c, t') <= p)
    ensures AllHeld(cfg, Layout(cfg), s, i, Enclosing(cfg, p))
  {
    hide Plan, LibdirDir, SysrootDir, Enclosing;
    forall e | e in Enclosing(cfg, p) ensures Held(cfg, Layout(cfg), s, i, e) {
      EnclosingIs(cfg, c, p, e);
      assert e in Gives(Layout(cfg), Plan(cfg, s)[j]);
    }
  }

  lemma BelowLibdir(cfg: Config, c: Compiler, t: Triple, rest: Path)
    ensures SysrootDir(c) <= LibdirDir(cfg, c, t) + rest
    ensures forall t' :: LibdirDir(cfg, c, t') <= LibdirDir(cfg, c, t) + rest ==> t' == t
  {
    forall t' | LibdirDir(cfg, c, t') <= LibdirDir(cfg, c, t) + rest ensures t' == t {
      assert |LibdirDir(cfg, c, t')| == |LibdirDir(cfg, c, t)|;
      assert LibdirDir(cfg, c, t') == (LibdirDir(cfg, c, t) + rest)[..|LibdirDir(cfg, c, t)|] == LibdirDir(cfg, c, t);
      LibdirInjective(cfg, c, t', c, t);
    }
  }

  lemma NotInLibdir(cfg: Config, c: Compiler, p: Path)
    requires var n := 6 + |SysrootLibdirRelative(cfg, c.stage)|; |p| < n || (|p| == n && p[n - 1] != Dir("lib"))
    ensures forall t :: !(LibdirDir(cfg, c, t) <= p)
  {
    var n := 6 + |SysrootLibdirRelative(cfg, c.stage)|;
    assert forall t :: |LibdirDir(cfg, c, t)| == n && LibdirDir(cfg, c, t)[n - 1] == Dir("lib");
  }

  lemma BareInSysroot(cfg: Config, c: Compiler)
    requires c.stage > 0
    ensures forall t :: !(LibdirDir(cfg, c, t) <= RustcLibdir(cfg, c)) && !(LibdirDir(cfg, c, t) <= LldBin(cfg, c))
    ensures forall t :: !(LibdirDir(cfg, c, t) <= SysrootDir(c) + SysrootLibdirRelative(cfg, 1))
    ensures SysrootDir(c) <= RustcLibdir(cfg, c) && SysrootDir(c) <= LldBin(cfg, c)
  {
    NotInLibdir(cfg, c, RustcLibdir(cfg, c));
    NotInLibdir(cfg, c, LldBin(cfg, c));
    NotInLibdir(cfg, c, SysrootDir(c) + SysrootLibdirRelative(cfg, 1));
  }

  lemma OwnTargetLib(cfg: Config, c: Compiler)
    requires c.stage > 0
    ensures forall t :: LibdirDir(cfg, c, t) <= SysrootDir(c) + [Dir("lib"), Dir("rustlib"), Named(c.host), Dir("lib")] ==> t == c.host
  {
    var p := SysrootDir(c) + [Dir("lib"), Dir("rustlib"), Named(c.host), Dir("lib")];
    forall t | LibdirDir(cfg, c, t) <= p ensures t == c.host {
      var n := |SysrootLibdirRelative(cfg, c.stage)|;
      assert LibdirDir(cfg, c, t)[4 + n] == Named(t) == p[4 + n];
    }
  }

  lemma AssembleLaid(cfg: Config, s: Step, i: nat)
    requires s.Assemble? && s.compiler.stage > 0 && i < |Plan(cfg, s)|
    ensures Laid(cfg, s, i)
  {
    var c := s.compiler;
    BareInSysroot(cfg, c);
    OwnTargetLib(cfg, c);
    NotInLibdir(cfg, c, SysrootDir(c) + [Dir("bin")]);
    hide RustcLibdir, SysrootDir, SysrootLibdirRelative, RustcBinary, LldBin, LibdirDir, Enclosing;
    var bc := StageGraph.Builder(cfg, c);
    var plan := AssembleFrom(cfg, c, bc);
    assert Plan(cfg, s) == plan;
    assert plan[3] == Ask(Sysroot(c)) && plan[7] == Ask(Libdir(c, c.host));
    hide Plan;
    if i == 10 {
      SafeInLibdir(cfg, s, i, 7, c, c.host, plan[i].event.dir);
    } else if plan[i].Do? && plan[i].event.Fill? {
      SafeInSysroot(cfg, s, i, 3, c, plan[i].event.dir);
    } else if i == 6 {
      SafeInSysroot(cfg, s, i, 3, c, plan[i].event.into);
      HeldByItem(cfg, Layout(cfg), s, i, 5, {Reset(LibdirDir(cfg, bc, c.host))});
    } else if i == 12 {
      SafeInSysroot(cfg, s, i, 3, c, plan[i].event.into);
      HeldByItem(cfg, Layout(cfg), s, i, 11, {Read(RustcBinary(cfg, bc, c.host))});
    }
  }

  lemma StdLaid(cfg: Config, s: Step, i: nat)
    requires s.Std? && i < |Plan(cfg, s)|
    ensures Laid(cfg, s, i)
  {
    var c, t := s.compiler, s.target;
    var toUse := CompilerFor(cfg, c, t);
    BelowLibdir(cfg, c, t, []);
    BelowLibdir(cfg, c, t, [Dir("self-contained")]);
    assert LibdirDir(cfg, c, t) + [] == LibdirDir(cfg, c, t);
    CargoOutIsSafe(cfg, c, StdMode, t, [Dir(".libstd.stamp")]);
    var plan := if toUse != c then StdUplift(cfg, c, t, toUse) else StdBuild(cfg, c, t, Native(cfg, c));
    assert Plan(cfg, s) == plan;
    hide CompilerFor, SysrootDir, SysrootLibdirRelative, LibdirDir, Enclosing, CargoOut, CopiesSanitizers, Plan;
    if plan[i].Do? && plan[i].event.Fill? {
      SafeInLibdir(cfg, s, i, i - 1, c, t, plan[i].event.dir);
    }
  }

  lemma RustcLaid(cfg: Config, s: Step, i: nat)
    requires s.Rustc? && i < |Plan(cfg, s)|
    ensures Laid(cfg, s, i)
  {
    var c, t := s.compiler, s.target;
    var toUse := CompilerFor(cfg, c, t);
    CargoOutIsSafe(cfg, c, RustcMode, t, [Dir("rustc_binary")]);
    CargoOutIsSafe(cfg, c, RustcMode, t, [Dir(".librustc.stamp")]);
    var plan := if toUse != c then RustcUplift(cfg, c, t, toUse) else RustcBuild(cfg, c, t, Native(cfg, c), Native(cfg, c));
    assert Plan(cfg, s) == plan;
    hide CompilerFor, Enclosing, CargoOut, Plan;
  }

  lemma LinkLaid(cfg: Config, s: Step, i: nat)
    requires (s.StdLink? || s.RustcLink?) && i < |Plan(cfg, s)|
    ensures Laid(cfg, s, i)
  {
    var c, tc, t := s.compiler, s.targetCompiler, s.target;
    BelowLibdir(cfg, tc, t, []);
    BelowLibdir(cfg, tc, c.host, []);
    BelowLibdir(cfg, tc, t, [Dir("self-contained")]);
    assert LibdirDir(cfg, tc, t) + [] == LibdirDir(cfg, tc, t) && LibdirDir(cfg, tc, c.host) + [] == LibdirDir(cfg, tc, c.host);
    var mode := if s.StdLink? then StdMode else RustcMode;
    var plan := LinkScript(cfg, c, tc, mode, t);
    assert Plan(cfg, s) == plan;
    hide SysrootDir, SysrootLibdirRelative, LibdirDir, Enclosing, Stamp, Plan;
    if i > 5 {
      HeldByItem(cfg, Layout(cfg), s, i, 5, {Read(Stamp(cfg, c, mode, t))});
    }
    if i == 3 || i == 7 {
      SafeInLibdir(cfg, s, i, 1, tc, c.host, LibdirDir(cfg, tc, c.host));
    } else if i == 2 || i == 6 {
      SafeInLibdir(cfg, s, i, 0, tc, t, LibdirDir(cfg, tc, t));
    } else if i == 4 || i == 8 {
      SafeInLibdir(cfg, s, i, 0, tc, t, LibdirDir(cfg, tc, t) + [Dir("self-contained")]);
    }
  }

  lemma DocToolLaid(cfg: Config, s: Step, i: nat)
    requires (s.Rustdoc? || s.FuzzTargetGenerator?) && s.compiler.stage > 0 && i < |Plan(cfg, s)|
    ensures Laid(cfg, s, i)
  {
    var c := s.compiler;
    NotInLibdir(cfg, c, SysrootDir(c) + [Dir("bin")]);
    hide SysrootDir, SysrootLibdirRelative, LibdirDir, Enclosing;
    var plan := DocToolFrom(cfg, c, StageGraph.Builder(cfg, c));
    assert Plan(cfg, s) == plan;
    hide Plan;
    if i == 4 {
      SafeInSysroot(cfg, s, i, 3, c, plan[i].event.dir);
    }
  }

  /** The sysroot comes first, and is not itself below a managed directory. */
  lemma SysrootLaid(cfg: Config, s: Step, i: nat)
    requires s.Sysroot? && i < |Plan(cfg, s)|
    ensures Laid(cfg, s, i)
  {
    var c := s.compiler;
    NotInLibdir(cfg, c, SysrootDir(c));
    NotInLibdir(cfg, c, SysrootDir(c) + [Dir("lib"), Dir("rustlib"), Dir("src")]);
    hide SysrootDir, SysrootLibdirRelative, LibdirDir, Enclosing;
    if i == 0 {
      forall e | e in Enclosing(cfg, SysrootDir(c)) ensures e == Reset(SysrootDir(c)) {
        EnclosingIs(cfg, c, SysrootDir(c), e);
      }
    } else {
      SafeInSysroot(cfg, s, i, 0, c, Plan(cfg, s)[i].event.dir);
    }
  }

  lemma LibdirLaid(cfg: Config, s: Step, i: nat)
    requires s.Libdir? && i < |Plan(cfg, s)|
    ensures Laid(cfg, s, i)
  {
    var c, t := s.compiler, s.target;
    BelowLibdir(cfg, c, t, []);
    assert LibdirDir(cfg, c, t) + [] == LibdirDir(cfg, c, t);
    hide SysrootDir, SysrootLibdirRelative, LibdirDir, Enclosing;
    if i == 1 {
      var k := Layout(cfg);
      forall e | e in Removals(cfg, Reset(LibdirDir(cfg, c, t))) ensures Held(cfg, k, s, i, e) {
        EnclosingIs(cfg, c, LibdirDir(cfg, c, t), e);
        assert e in Gives(k, Plan(cfg, s)[0]);
      }
    }
  }

  lemma StartupLaid(cfg: Config, s: Step, i: nat)
    requires s.StartupObjects? && i < |Plan(cfg, s)|
    ensures Laid(cfg, s, i)
  {
    var c, t := s.compiler, s.target;
    BelowLibdir(cfg, c, t, []);
    assert LibdirDir(cfg, c, t) + [] == LibdirDir(cfg, c, t);
    hide SysrootDir, SysrootLibdirRelative, LibdirDir, Enclosing;
    if i == 1 {
      SafeInLibdir(cfg, s, i, 0, c, t, LibdirDir(cfg, c, t));
    }
  }

  lemma PlansLaid(cfg: Config, s: Step, i: nat)
    requires i < |Plan(cfg, s)|
    ensures Laid(cfg, s, i)
  {
    hide AssembleFrom, DocToolFrom, SysrootDir, LibdirDir, Stamp, Enclosing, Removals, RustcScript, StdScript, LinkScript;
    match s
    case Assemble(c) => if c.stage > 0 { AssembleLaid(cfg, s, i); }
    case Rustc(_, _) => RustcLaid(cfg, s, i);
    case Std(_, _) => StdLaid(cfg, s, i);
    case StdLink(_, _, _) => LinkLaid(cfg, s, i);
    case RustcLink(_, _, _) => LinkLaid(cfg, s, i);
    case StartupObjects(_, _) => StartupLaid(cfg, s, i);
    case Sysroot(_) => SysrootLaid(cfg, s, i);
    case Libdir(_, _) => LibdirLaid(cfg, s, i);
    case Rustdoc(c) => if c.stage > 0 { DocToolLaid(cfg, s, i); }
    case FuzzTargetGenerator(c) => if c.stage > 0 { DocToolLaid(cfg, s, i); }
    case _ => PureAskers(cfg, s, i);
  }

  lemma PureAskers(cfg: Config, s: Step, i: nat)
    requires (s.Llvm? || s.Lld? || s.Sanitizers? || s.ToolBuild?) && i < |Plan(cfg, s)|
    ensures Laid(cfg, s, i)
  {
    hide Enclosing;
    assert Removals(cfg, Nothing) == {};
  }

  lemma NothingBefore(cfg: Config, k: Table, s: Step, i: nat)
    ensures AllHeld(cfg, k, s, i, {})
  {
    hide Held;
  }

  lemma LayoutObeyed(cfg: Config, n: nat, ts: set<Triple>, s: Step)
    requires cfg.build in ts && StepIn(n, ts, s) && Sound(cfg, s)
    ensures PlanObeys(cfg, n, ts, Layout(cfg), s)
  {
    var k := Layout(cfg);
    hide Plan, StepIn, Sound, Rank, Removals, Sources, Cleared, AllHeld;
    PlansDescend(cfg, n, ts, s);
    forall i | 0 <= i < |Plan(cfg, s)| ensures ItemObeys(cfg, n, ts, k, s, i) {
      PlansLaid(cfg, s, i);
      NothingBefore(cfg, k, s, i);
      assert ItemDescends(cfg, n, ts, s, Plan(cfg, s)[i]);
    }
    ClearedHeld(cfg, s);
  }

  lemma LayoutChecked(cfg: Config, n: nat, ts: set<Triple>)
    requires cfg.build in ts
    ensures Checked(Stages(cfg, n, ts), Layout(cfg))
  {
    var k := Layout(cfg);
    hide Plan, StepIn, Sound, Rank, Removals, Sources, Cleared, PlanObeys;
    forall s | StepIn(n, ts, s) && k.admissible(s) ensures PlanObeys(cfg, n, ts, k, s) {
      LayoutObeyed(cfg, n, ts, s);
    }
    PlansChecked(cfg, n, ts, k);
  }

  lemma ClearedHeld(cfg: Config, s: Step)
    ensures AllHeld(cfg, Layout(cfg), s, |Plan(cfg, s)|, Cleared(cfg, s))
  {
    hide SysrootDir, LibdirDir, AssembleScript, RustcScript, StdScript, LinkScript, ToolScript, DocToolScript;
    var k := Layout(cfg);
    if s.Sysroot? || s.Libdir? {
      forall e | e in Cleared(cfg, s) ensures Held(cfg, k, s, |Plan(cfg, s)|, e) {
        assert e in Gives(k, Plan(cfg, s)[0]) || e in Gives(k, Plan(cfg, s)[1]);
      }
    }
  }
}
