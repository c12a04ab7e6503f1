// Where a link or an Assemble reads what was never written: the exact condition, for every request of every session, under
// which everything read has been written.
module StageStarved {
  import opened Engine
  import opened EngineProofs
  import opened Contracts
  import opened Traces
  import opened StageGraph
  import opened StagePlans
  import opened StageTables
  import opened StagePlaces
  import opened StageStamps
  import opened StageTheorems

  // ---------------------------------------------------------------------------------------------
  // A third kind of table: what a request has read, written and put in its place for sure, and events that nothing it asks for
  // performs.

  function AssembleReads(cfg: Config, c: Compiler): set<Event> {
    if c.stage == 0 then {}
    else
      var bc := StageGraph.Builder(cfg, c);
      {Read(RustcBinary(cfg, bc, c.host))}
      + if bc.stage == 0 then {} else {Read(RustcBinary(cfg, StageGraph.Builder(cfg, bc), cfg.build))}
  }

  function StdReads(cfg: Config, c: Compiler, t: Triple): set<Event> {
    if ForceUseStage1(cfg, c, t) then {}
    else {Read(Stamp(cfg, Native(cfg, c), StdMode, t))} + AssembleReads(cfg, c) + AssembleReads(cfg, Native(cfg, c))
  }

  function RustcReads(cfg: Config, c: Compiler, t: Triple): set<Event> {
    StdReads(cfg, c, t) + if ForceUseStage1(cfg, c, t) then {} else {Read(Stamp(cfg, Native(cfg, c), RustcMode, t))}
  }

  /** Files read by the time a step is done. */
  function Reads(cfg: Config, s: Step): set<Event> {
    match s
    case StdLink(c, _, t) => {Read(Stamp(cfg, c, StdMode, t))}
    case RustcLink(c, _, t) => {Read(Stamp(cfg, c, RustcMode, t))}
    case Assemble(c) => AssembleReads(cfg, c)
    case Std(c, t) => StdReads(cfg, c, t)
    case Rustc(c, t) => RustcReads(cfg, c, t)
    case ToolBuild(c, t, mode) =>
      if mode == ToolStd then StdReads(cfg, c, t) else if mode == ToolRustc then RustcReads(cfg, c, t) else {}
    case Rustdoc(c) => if c.stage == 0 then {} else AssembleReads(cfg, StageGraph.Builder(cfg, c))
    case FuzzTargetGenerator(c) => if c.stage == 0 then {} else AssembleReads(cfg, StageGraph.Builder(cfg, c))
    case _ => {}
  }

  function Does(cfg: Config, s: Step): set<Event> {
    Reads(cfg, s) + Makes(cfg, s) + Places(cfg, s)
  }

  /** Over the sound steps of some kind; an unwanted event relies on itself, so that it can never be a first time for it. */
  ghost function Reading(cfg: Config, kind: Step -> bool, unwanted: Event -> bool): Table {
    Contract(s => Sound(cfg, s) && kind(s), s => {}, s => Does(cfg, s), e => if unwanted(e) then {e} else {},
             (s, o) => Honest(s, o), s => Rank(cfg, s))
  }

  /** No sound step of that kind performs an unwanted event. */
  ghost predicate NeverPlanned(cfg: Config, kind: Step -> bool, unwanted: Event -> bool) {
    forall s, e :: Sound(cfg, s) && kind(s) && unwanted(e) ==> Do(e) !in Plan(cfg, s)
  }

  ghost predicate LowerClosed(cfg: Config, kind: Step -> bool) {
    forall s, d :: kind(s) && Rank(cfg, d) < Rank(cfg, s) ==> kind(d)
  }

  lemma AssembleReadsHeld(cfg: Config, k: Table, s: Step)
    requires s.Assemble? && forall d :: Reads(cfg, d) <= k.after(d)
    ensures AllHeld(cfg, k, s, |Plan(cfg, s)|, Reads(cfg, s))
  {
    var c := s.compiler;
    if c.stage > 0 {
      var bc := StageGraph.Builder(cfg, c);
      var plan := AssembleFrom(cfg, c, bc);
      assert Plan(cfg, s) == plan;
      hide RustcLibdir, SysrootDir, SysrootLibdirRelative, RustcBinary, LldBin, Plan;
      assert plan[0] == Ask(Assemble(bc)) && plan[11] == Do(Read(RustcBinary(cfg, bc, c.host)));
      HeldByItem(cfg, k, s, |plan|, 11, {Read(RustcBinary(cfg, bc, c.host))});
      if bc.stage > 0 {
        assert Reads(cfg, Assemble(bc)) <= k.after(Assemble(bc));
        HeldByItem(cfg, k, s, |plan|, 0, {Read(RustcBinary(cfg, StageGraph.Builder(cfg, bc), cfg.build))});
      }
    }
  }

  lemma StdReadsHeld(cfg: Config, k: Table, s: Step)
    requires s.Std? && forall d :: Reads(cfg, d) <= k.after(d)
    ensures AllHeld(cfg, k, s, |Plan(cfg, s)|, Reads(cfg, s))
  {
    var c, t := s.compiler, s.target;
    if !ForceUseStage1(cfg, c, t) {
      var native := Native(cfg, c);
      var plan := StdBuild(cfg, c, t, native);
      assert Plan(cfg, s) == plan;
      hide LibdirDir, SelfContained, Stamp, CopiesSanitizers, Plan, AssembleReads, ForceUseStage1;
      assert plan[1] == Ask(Assemble(c)) && plan[9] == Ask(Assemble(native)) && plan[10] == Ask(StdLink(native, c, t));
      assert Reads(cfg, Assemble(c)) <= k.after(Assemble(c)) && Reads(cfg, Assemble(native)) <= k.after(Assemble(native));
      assert Reads(cfg, StdLink(native, c, t)) <= k.after(StdLink(native, c, t));
      HeldByItem(cfg, k, s, |plan|, 1, AssembleReads(cfg, c));
      HeldByItem(cfg, k, s, |plan|, 9, AssembleReads(cfg, native));
      HeldByItem(cfg, k, s, |plan|, 10, {Read(Stamp(cfg, native, StdMode, t))});
    }
  }

  lemma RustcReadsHeld(cfg: Config, k: Table, s: Step)
    requires s.Rustc? && forall d :: Reads(cfg, d) <= k.after(d)
    ensures AllHeld(cfg, k, s, |Plan(cfg, s)|, Reads(cfg, s))
  {
    var c, t := s.compiler, s.target;
    if !ForceUseStage1(cfg, c, t) {
      var native := Native(cfg, c);
      var plan := RustcBuild(cfg, c, t, native, native);
      assert Plan(cfg, s) == plan;
      hide RustcBinary, Stamp, Plan, StdReads, ForceUseStage1;
      assert plan[0] == Ask(Std(c, t)) && plan[9] == Ask(RustcLink(native, c, t));
      assert Reads(cfg, Std(c, t)) <= k.after(Std(c, t));
      assert Reads(cfg, RustcLink(native, c, t)) <= k.after(RustcLink(native, c, t));
      HeldByItem(cfg, k, s, |plan|, 0, StdReads(cfg, c, t));
      HeldByItem(cfg, k, s, |plan|, 9, {Read(Stamp(cfg, native, RustcMode, t))});
    }
  }

  lemma LinkReadsHeld(cfg: Config, k: Table, s: Step)
    requires s.StdLink? || s.RustcLink?
    ensures AllHeld(cfg, k, s, |Plan(cfg, s)|, Reads(cfg, s))
  {
    hide LibdirDir, Stamp;
    var mode := if s.StdLink? then StdMode else RustcMode;
    assert Plan(cfg, s)[5] == Do(Read(Stamp(cfg, s.compiler, mode, s.target)));
    HeldByItem(cfg, k, s, |Plan(cfg, s)|, 5, Reads(cfg, s));
  }

  lemma ToolReadsHeld(cfg: Config, k: Table, s: Step)
    requires (s.ToolBuild? || s.Rustdoc? || s.FuzzTargetGenerator?) && forall d :: Reads(cfg, d) <= k.after(d)
    ensures AllHeld(cfg, k, s, |Plan(cfg, s)|, Reads(cfg, s))
  {
    hide StdReads, RustcReads, AssembleReads, SysrootDir;
    if Reads(cfg, s) != {} {
      var d := Plan(cfg, s)[0].step;
      assert Reads(cfg, s) == Reads(cfg, d) <= k.after(d);
      HeldByItem(cfg, k, s, |Plan(cfg, s)|, 0, Reads(cfg, s));
    }
  }

  /** Whatever else a table promises, what a body reads for sure has been read at its end. */
  lemma ReadsHeld(cfg: Config, k: Table, s: Step)
    requires forall d :: Reads(cfg, d) <= k.after(d)
    ensures AllHeld(cfg, k, s, |Plan(cfg, s)|, Reads(cfg, s))
  {
    if s.Assemble? {
      AssembleReadsHeld(cfg, k, s);
    } else if s.Std? {
      StdReadsHeld(cfg, k, s);
    } else if s.Rustc? {
      RustcReadsHeld(cfg, k, s);
    } else if s.StdLink? || s.RustcLink? {
      LinkReadsHeld(cfg, k, s);
    } else if s.ToolBuild? || s.Rustdoc? || s.FuzzTargetGenerator? {
      ToolReadsHeld(cfg, k, s);
    }
    hide Plan;
  }

  lemma ReadingObeyed(cfg: Config, n: nat, ts: set<Triple>, kind: Step -> bool, unwanted: Event -> bool, s: Step)
    requires cfg.build in ts && NeverPlanned(cfg, kind, unwanted) && LowerClosed(cfg, kind)
    requires StepIn(n, ts, s) && Sound(cfg, s) && kind(s)
    ensures PlanObeys(cfg, n, ts, Reading(cfg, kind, unwanted), s)
  {
    hide StepIn, Sound, Rank, Reads, Makes, Places;
    var k := Reading(cfg, kind, unwanted);
    PlansDescend(cfg, n, ts, s);
    ReadsHeld(cfg, k, s);
    MakesHeld(cfg, k, s);
    PlacesHeld(cfg, k, s);
    hide Plan;
    forall i | 0 <= i < |Plan(cfg, s)| ensures ItemObeys(cfg, n, ts, k, s, i) {
      assert ItemDescends(cfg, n, ts, s, Plan(cfg, s)[i]);
    }
  }

  lemma ReadingChecked(cfg: Config, n: nat, ts: set<Triple>, kind: Step -> bool, unwanted: Event -> bool)
    requires cfg.build in ts && NeverPlanned(cfg, kind, unwanted) && LowerClosed(cfg, kind)
    ensures Checked(Stages(cfg, n, ts), Reading(cfg, kind, unwanted))
  {
    hide StepIn, Sound, Rank, Does, PlanObeys, NeverPlanned, LowerClosed;
    var k := Reading(cfg, kind, unwanted);
    forall s | StepIn(n, ts, s) && k.admissible(s) ensures PlanObeys(cfg, n, ts, k, s) {
      ReadingObeyed(cfg, n, ts, kind, unwanted, s);
    }
    PlansChecked(cfg, n, ts, k);
  }

  /** An event that relies on itself is not in an ordered log. */
  lemma {:induction false} NeverFirst(k: Table, e: Event, log: seq<Event>)
    requires Ordered(k, log) && e in k.reliesOn(e)
    ensures e !in log
    decreases |log|
  {
    if e in log {
      var i :| 0 <= i < |log| && log[i] == e;
      var before := log[..i];
      assert e in before;
      forall j | 0 <= j < |before| ensures before[..j] == log[..j] {}
      NeverFirst(k, e, before);
    }
  }

  // ---------------------------------------------------------------------------------------------
  // Who writes what.

  lemma WriterIs(cfg: Config, s: Step, f: Path)
    requires Do(Write(f)) in Plan(cfg, s)
    ensures s.Std? || s.Rustc?
    ensures !ForceUseStage1(cfg, s.compiler, s.target)
    ensures s.Std? ==> f == Stamp(cfg, s.compiler, StdMode, s.target)
    ensures s.Rustc? ==> f == Stamp(cfg, s.compiler, RustcMode, s.target) || f == RustcBinary(cfg, s.compiler, s.target)
  {
    hide SysrootDir, LibdirDir, Stamp, RustcBinary, SelfContained, CopiesSanitizers, RustcLibdir, LldBin;
  }

  lemma StampInjective(cfg: Config, c: Compiler, m: Mode, t: Triple, c': Compiler, m': Mode, t': Triple)
    requires Stamp(cfg, c, m, t) == Stamp(cfg, c', m', t') && m in {StdMode, RustcMode} && m' in {StdMode, RustcMode}
    ensures c == c' && m == m' && t == t'
  {
    var p, p' := Stamp(cfg, c, m, t), Stamp(cfg, c', m', t');
    assert p[1] == p'[1] && p[2] == p'[2] && p[3] == p'[3];
    assert Suffix(StdMode)[1] != Suffix(RustcMode)[1];
  }

  lemma BinaryInjective(cfg: Config, c: Compiler, t: Triple, c': Compiler, m: Mode, t': Triple)
    requires m in {StdMode, RustcMode}
    ensures RustcBinary(cfg, c, t) != Stamp(cfg, c', m, t')
    ensures RustcBinary(cfg, c, t) == RustcBinary(cfg, c', t') ==> c == c' && t == t'
  {
    var p, p', q := RustcBinary(cfg, c, t), RustcBinary(cfg, c', t'), Stamp(cfg, c', m, t');
    assert p == p' ==> p[1] == p'[1] && p[2] == p'[2] && p[3] == p'[3];
    assert p[5] == Dir("rustc_binary") && q[5].name[0] == '.';
  }

  /** The stamp of a Std, and the stamp and the binary of a Rustc, that is uplifted. */
  predicate OutputOf(cfg: Config, c: Compiler, t: Triple, e: Event) {
    e == Write(RustcBinary(cfg, c, t)) || e == Write(Stamp(cfg, c, StdMode, t)) || e == Write(Stamp(cfg, c, RustcMode, t))
  }

  ghost predicate Uplifted(cfg: Config, e: Event) {
    exists c, t :: ForceUseStage1(cfg, c, t) && OutputOf(cfg, c, t, e)
  }

  /** They are written by nobody. */
  lemma UpliftedNeverPlanned(cfg: Config, kind: Step -> bool)
    ensures NeverPlanned(cfg, kind, e => Uplifted(cfg, e))
  {
    hide Plan, ForceUseStage1, Sound, OutputOf;
    forall s, e | Sound(cfg, s) && kind(s) && Uplifted(cfg, e) ensures Do(e) !in Plan(cfg, s) {
      var c, t :| ForceUseStage1(cfg, c, t) && OutputOf(cfg, c, t, e);
      if Do(e) in Plan(cfg, s) {
        OutputWriterIs(cfg, s, c, t, e);
      }
    }
  }

  lemma OutputWriterIs(cfg: Config, s: Step, c: Compiler, t: Triple, e: Event)
    requires OutputOf(cfg, c, t, e) && Do(e) in Plan(cfg, s)
    ensures !ForceUseStage1(cfg, c, t)
  {
    hide Plan, ForceUseStage1, RustcBinary, Stamp;
    WriterIs(cfg, s, e.file);
    var mode := if s.Std? then StdMode else RustcMode;
    if e == Write(RustcBinary(cfg, c, t)) {
      BinaryInjective(cfg, c, t, s.compiler, mode, s.target);
    } else {
      var mode' := if e == Write(Stamp(cfg, c, StdMode, t)) then StdMode else RustcMode;
      BinaryInjective(cfg, s.compiler, s.target, c, mode', t);
      StampInjective(cfg, s.compiler, mode, s.target, c, mode', t);
    }
  }

  predicate Under(cfg: Config, root: Step, s: Step) {
    s == root || Rank(cfg, s) < Rank(cfg, root)
  }

  ghost function Below(cfg: Config, root: Step): Step -> bool {
    s => Under(cfg, root, s)
  }

  ghost function Just(e: Event): Event -> bool {
    x => x == e
  }

  /** Below the request of a link, or of Std or Rustc for a foreign host, the stamp that it reads is not written: only a step
      of the same rank, or a higher one, would write it. */
  lemma StampNeverPlanned(cfg: Config, root: Step, c: Compiler, mode: Mode, t: Triple)
    requires mode == StdMode || mode == RustcMode
    requires || (root.StdLink? || root.RustcLink?)
             || (root.Std? && mode == StdMode && c == Native(cfg, root.compiler) != root.compiler)
             || (root.Rustc? && mode == RustcMode && c == Native(cfg, root.compiler) != root.compiler)
    ensures NeverPlanned(cfg, Below(cfg, root), Just(Write(Stamp(cfg, c, mode, t))))
  {
    var f := Stamp(cfg, c, mode, t);
    hide Plan, RustcBinary, Stamp, Sound, ForceUseStage1;
    forall s | Under(cfg, root, s) && Do(Write(f)) in Plan(cfg, s) ensures false {
      WriterIs(cfg, s, f);
      BinaryInjective(cfg, s.compiler, s.target, c, mode, t);
      StampInjective(cfg, s.compiler, if s.Std? then StdMode else RustcMode, s.target, c, mode, t);
    }
  }

  // ---------------------------------------------------------------------------------------------
  // The states of a session.

  ghost function Records(cfg: Config): Table {
    Reading(cfg, _ => true, e => Uplifted(cfg, e))
  }

  /** The record of a session: every cached step has read, written and put in its place what it must, and no output of an
      uplifted step has ever been written. */
  ghost predicate Recorded(cfg: Config, st: State<Step, Event, Output>) {
    Kept(Records(cfg), st)
  }

  lemma RecordsChecked(cfg: Config, n: nat, ts: set<Triple>)
    requires cfg.build in ts
    ensures Checked(Stages(cfg, n, ts), Records(cfg))
  {
    hide Does, Sound, Rank, Checked;
    UpliftedNeverPlanned(cfg, _ => true);
    ReadingChecked(cfg, n, ts, _ => true, e => Uplifted(cfg, e));
  }

  /** A builder state that may be asked for a step. */
  ghost predicate Session(cfg: Config, n: nat, ts: set<Triple>, st: State<Step, Event, Output>, s: Step)
    requires WellFormed(Stages(cfg, n, ts))
  {
    && cfg.build in ts && StepIn(n, ts, s) && Sound(cfg, s)
    && Valid(Stages(cfg, n, ts), st) && Askable(Stages(cfg, n, ts), st, s)
    && Recorded(cfg, st)
  }

  lemma InUniverse(cfg: Config, n: nat, ts: set<Triple>, st: State<Step, Event, Output>, s: Step)
    requires WellFormed(Stages(cfg, n, ts)) && Session(cfg, n, ts, st, s)
    ensures s in Universe(n, ts) && Stages(cfg, n, ts).universe == Universe(n, ts)
  {
    hide StepIn, Universe, WellFormed, Valid, Askable, Sound, Recorded;
    StagesUniverse(cfg, n, ts, s);
  }

  // ---------------------------------------------------------------------------------------------
  // A request that reads what is not there.

  /** What a request needs, given the log so far. */
  predicate Ready(cfg: Config, log: seq<Event>, s: Step) {
    Fed(cfg, s) && Needs(cfg, s) <= Elems(log)
  }

  lemma FedPrefix(log: seq<Event>, log': seq<Event>)
    requires log <= log' && AllFed(log')
    ensures AllFed(log)
  {
    forall i | 0 <= i < |log| && log[i].Read? ensures Write(log[i].file) in log[..i] {
      assert log'[..i] == log[..i];
    }
  }

  lemma ReadUnfed(log: seq<Event>, f: Path)
    requires Read(f) in log && Write(f) !in log
    ensures !AllFed(log)
  {
    var i :| 0 <= i < |log| && log[i] == Read(f);
    assert Write(log[i].file) !in log[..i];
  }

  /** A request that reads a file which neither the session so far nor anything below the request writes. */
  lemma Starves(cfg: Config, n: nat, ts: set<Triple>, st: State<Step, Event, Output>, s: Step, f: Path)
    requires WellFormed(Stages(cfg, n, ts)) && Session(cfg, n, ts, st, s)
    requires Read(f) in Reads(cfg, s) && Write(f) !in st.log
    requires NeverPlanned(cfg, Below(cfg, s), Just(Write(f)))
    ensures s in Universe(n, ts) && !AllFed(Ensure(Stages(cfg, n, ts), st, s).1.log)
  {
    var p, k := Stages(cfg, n, ts), Reading(cfg, Below(cfg, s), Just(Write(f)));
    InUniverse(cfg, n, ts, st, s);
    StarvingStarts(cfg, n, ts, st, s, f);
    hide *;
    EnsureOrdered(p, k, st, s);
    var log: seq<Event> := Ensure(p, st, s).1.log;
    StarvingEnds(cfg, s, f, log);
  }

  lemma StarvingStarts(cfg: Config, n: nat, ts: set<Triple>, st: State<Step, Event, Output>, s: Step, f: Path)
    requires WellFormed(Stages(cfg, n, ts)) && Session(cfg, n, ts, st, s) && Write(f) !in st.log
    requires NeverPlanned(cfg, Below(cfg, s), Just(Write(f)))
    ensures var p, k := Stages(cfg, n, ts), Reading(cfg, Below(cfg, s), Just(Write(f)));
      && Checked(p, k) && k.admissible(s) && k.before(s) <= Elems(st.log) && Kept(k, st)
      && Valid(p, st) && Askable(p, st, s)
  {
    hide Stages, StepIn, WellFormed, Valid, Askable, Checked, Sound, Does, NeverPlanned;
    ReadingChecked(cfg, n, ts, Below(cfg, s), Just(Write(f)));
  }

  lemma StarvingEnds(cfg: Config, s: Step, f: Path, log: seq<Event>)
    requires Read(f) in Reads(cfg, s)
    requires var k := Reading(cfg, Below(cfg, s), Just(Write(f))); Ordered(k, log) && k.after(s) <= Elems(log)
    ensures !AllFed(log)
  {
    hide Reads, Makes, Places, Ordered, AllFed;
    NeverFirst(Reading(cfg, Below(cfg, s), Just(Write(f))), Write(f), log);
    assert Read(f) in Does(cfg, s);
    ReadUnfed(log, f);
  }

  /** The binary of an uplifted Rustc is not there, now or later. */
  lemma StarvesForBinary(cfg: Config, n: nat, ts: set<Triple>, st: State<Step, Event, Output>, s: Step, c: Compiler, t: Triple)
    requires WellFormed(Stages(cfg, n, ts)) && Session(cfg, n, ts, st, s)
    requires ForceUseStage1(cfg, c, t) && Read(RustcBinary(cfg, c, t)) in Reads(cfg, s)
    ensures s in Universe(n, ts) && !AllFed(Ensure(Stages(cfg, n, ts), st, s).1.log)
  {
    var e := Write(RustcBinary(cfg, c, t));
    hide Stages, Universe, StepIn, WellFormed, Valid, Askable, Sound, Reads, Does, ForceUseStage1, Plan;
    assert Uplifted(cfg, e);
    NeverFirst(Records(cfg), e, st.log);
    UpliftedNeverPlanned(cfg, Below(cfg, s));
    Starves(cfg, n, ts, st, s, e.file);
  }

  /** A compiler beyond stage 3 is assembled, directly or one stage below, from an uplifted rustc. */
  lemma MissingBinary(cfg: Config, c: Compiler) returns (c': Compiler, t: Triple)
    requires !Assembles(cfg, c)
    ensures ForceUseStage1(cfg, c', t) && Read(RustcBinary(cfg, c', t)) in AssembleReads(cfg, c)
  {
    hide RustcBinary;
    c' := StageGraph.Builder(cfg, c);
    t := c.host;
    if !IsHost(cfg, t) {
      c' := StageGraph.Builder(cfg, c');
      t := cfg.build;
    }
  }

  lemma UnfedCompiler(cfg: Config, s: Step) returns (bad: Compiler)
    requires !Fed(cfg, s)
    ensures !Assembles(cfg, bad) && AssembleReads(cfg, bad) <= Reads(cfg, s)
  {
    bad := if s.Rustdoc? || s.FuzzTargetGenerator? then StageGraph.Builder(cfg, s.compiler)
           else if !Assembles(cfg, s.compiler) then s.compiler else Native(cfg, s.compiler);
    hide AssembleReads, Stamp, Assembles;
  }

  lemma UnfedStarves(cfg: Config, n: nat, ts: set<Triple>, st: State<Step, Event, Output>, s: Step)
    requires WellFormed(Stages(cfg, n, ts)) && Session(cfg, n, ts, st, s) && !Fed(cfg, s)
    ensures s in Universe(n, ts) && !AllFed(Ensure(Stages(cfg, n, ts), st, s).1.log)
  {
    hide Stages, Universe, WellFormed, Session, Reads, AllFed, Fed, Assembles, AssembleReads, ForceUseStage1, RustcBinary;
    var bad := UnfedCompiler(cfg, s);
    var c, t := MissingBinary(cfg, bad);
    StarvesForBinary(cfg, n, ts, st, s, c, t);
  }

  /** Whatever a request needs, it reads. */
  lemma NeedsAreRead(cfg: Config, s: Step, e: Event)
    requires e in Needs(cfg, s)
    ensures e.Write? && Read(e.file) in Reads(cfg, s)
  {
    hide Stamp, AssembleReads;
  }

  /** A cached answer that has read what is not there has spoilt the log already. */
  lemma CachedStarves(cfg: Config, n: nat, ts: set<Triple>, st: State<Step, Event, Output>, s: Step, f: Path)
    requires WellFormed(Stages(cfg, n, ts)) && Session(cfg, n, ts, st, s)
    requires s in st.cache && Read(f) in Reads(cfg, s) && Write(f) !in st.log
    ensures s in Universe(n, ts) && !AllFed(Ensure(Stages(cfg, n, ts), st, s).1.log)
  {
    var p := Stages(cfg, n, ts);
    InUniverse(cfg, n, ts, st, s);
    EnsureCorrect(p, st, s);
    assert Read(f) in Records(cfg).after(s) by { hide Reads, Makes, Places; assert Read(f) in Does(cfg, s); }
    assert Read(f) in st.log;
    hide Stages, Universe, WellFormed, Valid, Askable, Sound, Reads, AllFed, Records;
    ReadUnfed(st.log, f);
    var log: seq<Event> := Ensure(p, st, s).1.log;
    if AllFed(log) {
      FedPrefix(st.log, log);
    }
  }

  /** A body whose first request starves, starves. */
  lemma FirstStarves(cfg: Config, n: nat, ts: set<Triple>, st: State<Step, Event, Output>, s: Step, d: Step)
    requires WellFormed(Stages(cfg, n, ts)) && Session(cfg, n, ts, st, s) && s !in st.cache
    requires |Plan(cfg, s)| > 0 && Plan(cfg, s)[0] == Ask(d)
    ensures s in Universe(n, ts) && d in Universe(n, ts) && Session(cfg, n, ts, Push(st, s), d)
    ensures !AllFed(Ensure(Stages(cfg, n, ts), Push(st, s), d).1.log) ==> !AllFed(Ensure(Stages(cfg, n, ts), st, s).1.log)
  {
    var p := Stages(cfg, n, ts);
    InUniverse(cfg, n, ts, st, s);
    assert p.act(s, []) == Need(d) && StepIn(n, ts, d) && Sound(cfg, d) by {
      PlansDescend(cfg, n, ts, s);
      hide Plan, StepIn, Sound, Rank, Session;
      FirstIsAsked(cfg, n, ts, s, d);
    }
    hide Stages, Universe, StepIn, Sound, Plan, AllFed, Valid, Askable, WellFormed;
    RecordsChecked(cfg, n, ts);
    assert Records(cfg).admissible(s) by { hide Checked; }
    hide Checked;
    ObedientAnswered(p, Records(cfg), st, s);
    FirstRequestLogs(p, st, s, d);
    KeptPush(Records(cfg), st, s);
    StagesUniverse(cfg, n, ts, d);
    var log: seq<Event> := Ensure(p, Push(st, s), d).1.log;
    var log': seq<Event> := Ensure(p, st, s).1.log;
    if AllFed(log') {
      FedPrefix(log, log');
    }
  }

  lemma FirstIsAsked(cfg: Config, n: nat, ts: set<Triple>, s: Step, d: Step)
    requires Descends(cfg, n, ts, s) && |Plan(cfg, s)| > 0 && Plan(cfg, s)[0] == Ask(d)
    ensures StepIn(n, ts, d) && Sound(cfg, d) && Stages(cfg, n, ts).act(s, []) == Need(d)
  {
    hide StepIn, Sound, Rank, Script;
    assert ItemDescends(cfg, n, ts, s, Plan(cfg, s)[0]);
    assert Stages(cfg, n, ts).act(s, []) == Within(n, ts, Act(cfg, s, []));
  }

  lemma LinkLacks(cfg: Config, n: nat, ts: set<Triple>, st: State<Step, Event, Output>, s: Step, e: Event)
    requires WellFormed(Stages(cfg, n, ts)) && Session(cfg, n, ts, st, s) && (s.StdLink? || s.RustcLink?)
    requires e in Needs(cfg, s) && e !in st.log
    ensures s in Universe(n, ts) && !AllFed(Ensure(Stages(cfg, n, ts), st, s).1.log)
  {
    hide Stages, Universe, WellFormed, Session, AllFed, Stamp, Below, Just, NeverPlanned;
    StampNeverPlanned(cfg, s, s.compiler, if s.StdLink? then StdMode else RustcMode, s.target);
    NeedsAreRead(cfg, s, e);
    Starves(cfg, n, ts, st, s, e.file);
  }

  /** Std lacks the library, or Rustc the rustc, of the native compiler. */
  lemma OwnStampLacks(cfg: Config, n: nat, ts: set<Triple>, st: State<Step, Event, Output>, s: Step)
    requires WellFormed(Stages(cfg, n, ts)) && Session(cfg, n, ts, st, s) && (s.Std? || s.Rustc?)
    requires LinksForeign(cfg, s.compiler, s.target)
    requires Write(Stamp(cfg, Native(cfg, s.compiler), if s.Std? then StdMode else RustcMode, s.target)) !in st.log
    ensures s in Universe(n, ts) && !AllFed(Ensure(Stages(cfg, n, ts), st, s).1.log)
  {
    var mode := if s.Std? then StdMode else RustcMode;
    var e := Write(Stamp(cfg, Native(cfg, s.compiler), mode, s.target));
    hide Stages, Universe, WellFormed, Session, AllFed, Stamp, Below, Just, NeverPlanned, ForceUseStage1;
    StampNeverPlanned(cfg, s, Native(cfg, s.compiler), mode, s.target);
    NeedsAreRead(cfg, s, e);
    Starves(cfg, n, ts, st, s, e.file);
  }

  lemma RustcFirst(cfg: Config, s: Step)
    requires s.Rustc?
    ensures |Plan(cfg, s)| > 0 && Plan(cfg, s)[0] == Ask(Std(s.compiler, s.target))
  {
    hide RustcBinary, Stamp, CompilerFor, When, Native;
  }

  lemma ToolFirst(cfg: Config, s: Step, e: Event)
    requires s.ToolBuild? && e in Needs(cfg, s)
    ensures var d := if s.mode == ToolStd then Std(s.compiler, s.target) else Rustc(s.compiler, s.target);
      |Plan(cfg, s)| > 0 && Plan(cfg, s)[0] == Ask(d) && e in Needs(cfg, d)
  {
    hide StdNeeds, RustcNeeds;
  }

  lemma RustcLacks(cfg: Config, n: nat, ts: set<Triple>, st: State<Step, Event, Output>, s: Step, e: Event)
    requires WellFormed(Stages(cfg, n, ts)) && Session(cfg, n, ts, st, s) && s.Rustc?
    requires e in Needs(cfg, s) && e !in st.log
    ensures s in Universe(n, ts) && !AllFed(Ensure(Stages(cfg, n, ts), st, s).1.log)
  {
    var c, t := s.compiler, s.target;
    hide Stages, Universe, WellFormed, Session, AllFed, Stamp, Plan, ForceUseStage1, Reads;
    RustcFirst(cfg, s);
    NeedsAreRead(cfg, s, e);
    if e in StdNeeds(cfg, c, t) {
      if s in st.cache {
        CachedStarves(cfg, n, ts, st, s, e.file);
      } else {
        FirstStarves(cfg, n, ts, st, s, Std(c, t));
        OwnStampLacks(cfg, n, ts, Push(st, s), Std(c, t));
      }
    } else {
      OwnStampLacks(cfg, n, ts, st, s);
    }
  }

  lemma ToolLacks(cfg: Config, n: nat, ts: set<Triple>, st: State<Step, Event, Output>, s: Step, e: Event)
    requires WellFormed(Stages(cfg, n, ts)) && Session(cfg, n, ts, st, s) && s.ToolBuild?
    requires e in Needs(cfg, s) && e !in st.log
    ensures s in Universe(n, ts) && !AllFed(Ensure(Stages(cfg, n, ts), st, s).1.log)
  {
    var d := if s.mode == ToolStd then Std(s.compiler, s.target) else Rustc(s.compiler, s.target);
    hide Stages, Universe, WellFormed, Session, AllFed, Stamp, Plan, ForceUseStage1, Reads;
    ToolFirst(cfg, s, e);
    NeedsAreRead(cfg, s, e);
    if s in st.cache {
      CachedStarves(cfg, n, ts, st, s, e.file);
    } else {
      FirstStarves(cfg, n, ts, st, s, d);
      if d.Std? {
        OwnStampLacks(cfg, n, ts, Push(st, s), d);
      } else {
        hide Needs;
        RustcLacks(cfg, n, ts, Push(st, s), d, e);
      }
    }
  }

  lemma NotReadyStarves(cfg: Config, n: nat, ts: set<Triple>, st: State<Step, Event, Output>, s: Step)
    requires WellFormed(Stages(cfg, n, ts)) && Session(cfg, n, ts, st, s) && !Ready(cfg, st.log, s)
    ensures s in Universe(n, ts) && !AllFed(Ensure(Stages(cfg, n, ts), st, s).1.log)
  {
    hide Stages, Universe, WellFormed, Session, AllFed, Fed;
    if !Fed(cfg, s) {
      UnfedStarves(cfg, n, ts, st, s);
    } else {
      var e :| e in Needs(cfg, s) && e !in st.log;
      if s.Rustc? {
        RustcLacks(cfg, n, ts, st, s, e);
      } else if s.ToolBuild? {
        ToolLacks(cfg, n, ts, st, s, e);
      } else if s.Std? {
        OwnStampLacks(cfg, n, ts, st, s);
      } else {
        LinkLacks(cfg, n, ts, st, s, e);
      }
    }
  }

  // ---------------------------------------------------------------------------------------------
  // The theorems.

  /** Producer before consumer, exactly, for every request in every state of every session: everything read has been
      written before if and only if the request is fed and what it needs has been written already. */
  lemma FedExactly(cfg: Config, n: nat, ts: set<Triple>, st: State<Step, Event, Output>, s: Step)
    requires WellFormed(Stages(cfg, n, ts)) && Session(cfg, n, ts, st, s) && AllFed(st.log)
    ensures s in Universe(n, ts)
    ensures AllFed(Ensure(Stages(cfg, n, ts), st, s).1.log) <==> Ready(cfg, st.log, s)
  {
    InUniverse(cfg, n, ts, st, s);
    hide Stages, Universe, WellFormed, AllFed, Ready, Session;
    if Ready(cfg, st.log, s) {
      ReadyIsEnough(cfg, n, ts, st, s);
    } else {
      NotReadyStarves(cfg, n, ts, st, s);
    }
  }

  lemma ReadyIsEnough(cfg: Config, n: nat, ts: set<Triple>, st: State<Step, Event, Output>, s: Step)
    requires WellFormed(Stages(cfg, n, ts)) && Session(cfg, n, ts, st, s) && AllFed(st.log) && Ready(cfg, st.log, s)
    ensures s in Universe(n, ts) && AllFed(Ensure(Stages(cfg, n, ts), st, s).1.log)
  {
    var p, k := Stages(cfg, n, ts), Stamps(cfg);
    InUniverse(cfg, n, ts, st, s);
    hide Stages, Universe, WellFormed, AllFed, Fed, Needs, Valid, Askable, StepIn, Sound;
    StampsChecked(cfg, n, ts);
    hide Checked;
    StampsKept(cfg, st);
    assert k.admissible(s) && k.before(s) <= Elems(st.log);
    hide Stamps, Kept;
    EnsureOrdered(p, k, st, s);
    var log: seq<Event> := Ensure(p, st, s).1.log;
    assert Ordered(k, log) by { assert Kept(k, Ensure(p, st, s).1); KeptIsOrdered(k, Ensure(p, st, s).1); }
    OrderedIsFed(cfg, log);
  }

  lemma KeptIsOrdered(k: Table, st: State<Step, Event, Output>)
    requires Kept(k, st)
    ensures Ordered(k, st.log)
  {
  }

  lemma StampsKept(cfg: Config, st: State<Step, Event, Output>)
    requires Recorded(cfg, st) && AllFed(st.log)
    ensures Kept(Stamps(cfg), st)
  {
    hide Reads, Makes, Places, AllFed, Ordered;
    OrderedIsFed(cfg, st.log);
    forall c | c in st.cache ensures Stamps(cfg).after(c) <= Elems(st.log) {
      assert Makes(cfg, c) <= Does(cfg, c) == Records(cfg).after(c);
    }
  }

  /** The builder answers, and finds everything it reads. Over an output directory that was empty at first, the source dies
      at the first read that finds nothing. */
  ghost predicate Completes(cfg: Config, n: nat, ts: set<Triple>, st: State<Step, Event, Output>, s: Step)
    requires WellFormed(Stages(cfg, n, ts)) && s in Universe(n, ts)
  {
    var (r, st') := Ensure(Stages(cfg, n, ts), st, s);
    r.Done? && AllFed(st'.log)
  }

  /** A request completes if and only if it is sound and ready. */
  lemma CompletesExactly(cfg: Config, n: nat, ts: set<Triple>, st: State<Step, Event, Output>, s: Step)
    requires cfg.build in ts && StepIn(n, ts, s) && WellFormed(Stages(cfg, n, ts))
    requires Valid(Stages(cfg, n, ts), st) && Askable(Stages(cfg, n, ts), st, s) && Recorded(cfg, st) && AllFed(st.log)
    ensures s in Universe(n, ts)
    ensures Completes(cfg, n, ts, st, s) <==> Sound(cfg, s) && Ready(cfg, st.log, s)
  {
    hide Stages, Universe, WellFormed, AllFed, Ready, Valid, Askable, StepIn, Sound, Recorded;
    StagesNeverCycle(cfg, n, ts, st, s);
    if Sound(cfg, s) {
      FedExactly(cfg, n, ts, st, s);
    }
  }

  lemma FreshIsRecorded(cfg: Config, n: nat, ts: set<Triple>)
    ensures WellFormed(Stages(cfg, n, ts)) && Valid(Stages(cfg, n, ts), Fresh())
    ensures Recorded(cfg, Fresh()) && AllFed(Fresh<Step, Event, Output>().log)
  {
    hide Stages, WellFormed, Valid;
    StagesWellFormed(cfg, n, ts);
    FreshIsValid(Stages(cfg, n, ts));
  }

  /** On a fresh builder nothing has been written: a request completes if and only if it is sound, fed and in need of
      nothing. */
  lemma FreshCompletesExactly(cfg: Config, n: nat, ts: set<Triple>, s: Step)
    requires cfg.build in ts && StepIn(n, ts, s)
    ensures WellFormed(Stages(cfg, n, ts)) && s in Universe(n, ts)
    ensures Completes(cfg, n, ts, Fresh(), s) <==> Sound(cfg, s) && Fed(cfg, s) && Needs(cfg, s) == {}
  {
    hide Stages, Universe, WellFormed, AllFed, Valid, StepIn, Sound, Recorded, Needs, Fed, Completes;
    FreshIsRecorded(cfg, n, ts);
    CompletesExactly(cfg, n, ts, Fresh(), s);
    assert Elems(Fresh<Step, Event, Output>().log) == {};
  }

  /** Each request of a session is ready when its turn comes. */
  ghost predicate AllReady(cfg: Config, n: nat, ts: set<Triple>, st: State<Step, Event, Output>, requests: seq<Step>)
    requires WellFormed(Stages(cfg, n, ts)) && forall s :: s in requests ==> s in Universe(n, ts)
    decreases |requests|
  {
    requests == []
    || (Ready(cfg, st.log, requests[0]) && AllReady(cfg, n, ts, Ensure(Stages(cfg, n, ts), st, requests[0]).1, requests[1..]))
  }

  /** After a sound request the record still holds, and the log has only grown. */
  lemma StaysRecorded(cfg: Config, n: nat, ts: set<Triple>, st: State<Step, Event, Output>, s: Step)
    requires WellFormed(Stages(cfg, n, ts)) && Session(cfg, n, ts, st, s)
    ensures s in Universe(n, ts)
    ensures var (r, st') := Ensure(Stages(cfg, n, ts), st, s);
      r.Done? && Valid(Stages(cfg, n, ts), st') && Recorded(cfg, st') && st'.stack == st.stack && st.log <= st'.log
  {
    var p := Stages(cfg, n, ts);
    InUniverse(cfg, n, ts, st, s);
    hide Stages, Universe, WellFormed, Valid, Askable, StepIn, Sound, Kept;
    RecordsChecked(cfg, n, ts);
    hide Checked;
    assert Records(cfg).admissible(s) && Records(cfg).before(s) == {};
    hide Records;
    EnsureOrdered(p, Records(cfg), st, s);
    EnsureCorrect(p, st, s);
  }

  /** The same over whole sessions of sound requests, in any order: everything read has been written before if and only if
      each request is ready when its turn comes. */
  lemma {:induction false} SessionFedExactly(cfg: Config, n: nat, ts: set<Triple>, st: State<Step, Event, Output>,
                                             requests: seq<Step>)
    requires cfg.build in ts && WellFormed(Stages(cfg, n, ts)) && Valid(Stages(cfg, n, ts), st) && st.stack == []
    requires Recorded(cfg, st) && AllFed(st.log)
    requires forall s :: s in requests ==> StepIn(n, ts, s) && Sound(cfg, s)
    ensures forall s :: s in requests ==> s in Universe(n, ts)
    ensures Stages(cfg, n, ts).universe == Universe(n, ts)
    ensures AllFed(Serve(Stages(cfg, n, ts), st, requests).log) <==> AllReady(cfg, n, ts, st, requests)
    decreases |requests|
  {
    var p := Stages(cfg, n, ts);
    SessionIn(cfg, n, ts, requests);
    hide Stages, Universe, WellFormed, Valid, StepIn, Sound, Recorded, AllFed, Ready;
    if requests != [] {
      SessionStep(cfg, n, ts, st, requests[0]);
      var st1: State<Step, Event, Output> := Ensure(p, st, requests[0]).1;
      hide Ensure;
      if AllFed(st1.log) {
        SessionFedExactly(cfg, n, ts, st1, requests[1..]);
      } else {
        StaysUnfed(p, st1, requests[1..]);
      }
    }
  }

  lemma SessionStep(cfg: Config, n: nat, ts: set<Triple>, st: State<Step, Event, Output>, s: Step)
    requires cfg.build in ts && WellFormed(Stages(cfg, n, ts)) && Valid(Stages(cfg, n, ts), st) && st.stack == []
    requires Recorded(cfg, st) && AllFed(st.log) && StepIn(n, ts, s) && Sound(cfg, s)
    ensures s in Universe(n, ts)
    ensures var (r, st1) := Ensure(Stages(cfg, n, ts), st, s);
      && r.Done? && Valid(Stages(cfg, n, ts), st1) && st1.stack == [] && Recorded(cfg, st1)
      && (AllFed(st1.log) <==> Ready(cfg, st.log, s))
  {
    hide Stages, Universe, WellFormed, Valid, StepIn, Sound, Recorded, AllFed, Ready;
    NothingAsked(Stages(cfg, n, ts), st, s);
    FedExactly(cfg, n, ts, st, s);
    StaysRecorded(cfg, n, ts, st, s);
  }

  /** A log that is spoilt stays so. */
  lemma StaysUnfed(p: Program<Step, Event, Output>, st: State<Step, Event, Output>, requests: seq<Step>)
    requires WellFormed(p) && Valid(p, st) && st.stack == [] && !AllFed(st.log)
    requires forall s :: s in requests ==> s in p.universe
    ensures !AllFed(Serve(p, st, requests).log)
  {
    hide WellFormed, Valid, AllFed;
    ServeValid(p, st, requests);
    var log: seq<Event> := Serve(p, st, requests).log;
    if AllFed(log) {
      FedPrefix(st.log, log);
    }
  }

  lemma SessionIn(cfg: Config, n: nat, ts: set<Triple>, requests: seq<Step>)
    requires forall s :: s in requests ==> StepIn(n, ts, s)
    ensures (forall s :: s in requests ==> s in Universe(n, ts)) && Stages(cfg, n, ts).universe == Universe(n, ts)
  {
    hide StepIn, Universe;
    forall s | s in requests ensures s in Universe(n, ts) {
      StagesUniverse(cfg, n, ts, s);
    }
  }

  /** Whatever the replies, a stamp is written only by the step it belongs to. */
  lemma StampWriterIs(cfg: Config, n: nat, ts: set<Triple>, s: Step, h: seq<Reply<Output>>, c: Compiler, mode: Mode, t: Triple)
    requires mode == StdMode || mode == RustcMode
    requires Stages(cfg, n, ts).act(s, h) == Work(Write(Stamp(cfg, c, mode, t)))
    ensures s == if mode == StdMode then Std(c, t) else Rustc(c, t)
  {
    hide Script, Stamp, RustcBinary, Stages;
    var f := Stamp(cfg, c, mode, t);
    WorkIsScripted(cfg, n, ts, s, h, Write(f));
    ScriptWriterIs(cfg, s, h, f);
    BinaryInjective(cfg, s.compiler, s.target, c, mode, t);
    StampInjective(cfg, s.compiler, if s.Std? then StdMode else RustcMode, s.target, c, mode, t);
  }

  lemma WorkIsScripted(cfg: Config, n: nat, ts: set<Triple>, s: Step, h: seq<Reply<Output>>, e: Event)
    requires Stages(cfg, n, ts).act(s, h) == Work(e)
    ensures Do(e) in Script(cfg, s, h)
  {
    hide Script, Universe;
    assert Stages(cfg, n, ts).act(s, h) == Within(n, ts, Act(cfg, s, h));
    assert Script(cfg, s, h)[|h|] in Script(cfg, s, h);
  }

  lemma ScriptWriterIs(cfg: Config, s: Step, h: seq<Reply<Output>>, f: Path)
    requires Do(Write(f)) in Script(cfg, s, h)
    ensures s.Std? || s.Rustc?
    ensures s.Std? ==> f == Stamp(cfg, s.compiler, StdMode, s.target)
    ensures s.Rustc? ==> f == Stamp(cfg, s.compiler, RustcMode, s.target) || f == RustcBinary(cfg, s.compiler, s.target)
  {
    hide SysrootDir, LibdirDir, Stamp, RustcBinary, SelfContained, CopiesSanitizers, RustcLibdir, LldBin, CompilerFor, Handed;
  }

  /** Between the requests of a session, a stamp has been written if and only if its step is cached: so a request is ready
      exactly if the Std, or Rustc, of the native compiler that it links has been served before. */
  lemma WrittenIfCached(cfg: Config, n: nat, ts: set<Triple>, requests: seq<Step>, c: Compiler, rustc: bool, t: Triple)
    requires cfg.build in ts && !ForceUseStage1(cfg, c, t)
    requires forall s :: s in requests ==> StepIn(n, ts, s) && Sound(cfg, s)
    ensures WellFormed(Stages(cfg, n, ts)) && forall s :: s in requests ==> s in Stages(cfg, n, ts).universe
    ensures var st := Serve(Stages(cfg, n, ts), Fresh(), requests);
      Write(Stamp(cfg, c, if rustc then RustcMode else StdMode, t)) in st.log
      <==> (if rustc then Rustc(c, t) else Std(c, t)) in st.cache
  {
    var p, own := Stages(cfg, n, ts), if rustc then Rustc(c, t) else Std(c, t);
    var mode := if rustc then RustcMode else StdMode;
    var e := Write(Stamp(cfg, c, mode, t));
    hide Stages, Sound, StepIn, WellFormed, Records, Stamp, Traced, ValidRan, Kept, ForceUseStage1;
    SessionTraced(cfg, n, ts, requests);
    var st: State<Step, Event, Output> := Serve(p, Fresh(), requests);
    hide Serve;
    if e in st.log {
      var s, h := Performer(p, st, e);
      StampWriterIs(cfg, n, ts, s, h, c, mode, t);
    }
    if own in st.cache {
      CachedWrote(cfg, st, own, e);
    }
  }

  lemma CachedWrote(cfg: Config, st: State<Step, Event, Output>, s: Step, e: Event)
    requires Kept(Records(cfg), st) && s in st.cache && e in Makes(cfg, s)
    ensures e in st.log
  {
    hide Reads, Makes, Places, Ordered;
    assert e in Records(cfg).after(s);
  }

  lemma Performer(p: Program<Step, Event, Output>, st: State<Step, Event, Output>, e: Event)
    returns (s: Step, h: seq<Reply<Output>>)
    requires Traced(p, st.ran, st.log) && ValidRan(st) && st.stack == [] && e in st.log
    ensures s in st.cache && p.act(s, h) == Work(e)
  {
    s :| s in st.ran && Performs(p, s, e);
    h :| p.act(s, h) == Work(e);
  }

  lemma SessionTraced(cfg: Config, n: nat, ts: set<Triple>, requests: seq<Step>)
    requires cfg.build in ts && forall s :: s in requests ==> StepIn(n, ts, s) && Sound(cfg, s)
    ensures WellFormed(Stages(cfg, n, ts)) && forall s :: s in requests ==> s in Stages(cfg, n, ts).universe
    ensures var st := Serve(Stages(cfg, n, ts), Fresh(), requests);
      && Traced(Stages(cfg, n, ts), st.ran, st.log) && ValidRan(st) && st.stack == []
      && Kept(Records(cfg), st)
  {
    var p := Stages(cfg, n, ts);
    hide Stages, Sound, StepIn, WellFormed, Universe, Checked, Single, Kept, InOrder;
    StagesWellFormed(cfg, n, ts);
    SessionIn(cfg, n, ts, requests);
    FreshIsValid(p);
    ServeValid(p, Fresh(), requests);
    ResetsAreSingle(cfg, n, ts);
    FreshClean(p);
    ServeTraces(p, IsReset, Fresh(), requests);
    RecordsChecked(cfg, n, ts);
    FreshIsRecorded(cfg, n, ts);
    InAnyOrder(Records(cfg), {}, requests);
    hide Records;
    ServeOrdered(p, Records(cfg), Fresh(), requests, {});
  }

  /** A bootstrap from one triple, not full, with no further hosts. */
  function SmallConfig(): Config {
    Config("x86", {}, false, false, false, false, false, _ => false, _ => false, _ => false, DefaultLibdir, [Dir("lib")],
           _ => "lib", "release")
  }

  /** Two sound requests at which the source dies on an empty output directory: a library for a compiler that runs
      elsewhere, which links what was never built, and a stage 3 compiler, whose stage 2 rustc was uplifted. */
  lemma StarvedExamples()
    ensures var cfg, ts := SmallConfig(), {"x86", "arm"}; var s, s' := Std(Compiler(1, "arm"), "arm"), Assemble(Compiler(3, "x86"));
      && WellFormed(Stages(cfg, 3, ts)) && s in Universe(3, ts) && s' in Universe(3, ts) && Sound(cfg, s) && Sound(cfg, s')
      && !Completes(cfg, 3, ts, Fresh(), s) && !Completes(cfg, 3, ts, Fresh(), s')
  {
    var cfg, ts := SmallConfig(), {"x86", "arm"};
    var s, s' := Std(Compiler(1, "arm"), "arm"), Assemble(Compiler(3, "x86"));
    assert StepIn(3, ts, s) && StepIn(3, ts, s') && cfg.build in ts;
    assert Sound(cfg, s) && Sound(cfg, s') && !Fed(cfg, s');
    assert Needs(cfg, s) != {} by { assert Write(Stamp(cfg, Compiler(1, "x86"), StdMode, "arm")) in Needs(cfg, s); }
    hide *;
    FreshCompletesExactly(cfg, 3, ts, s);
    FreshCompletesExactly(cfg, 3, ts, s');
  }
}
