// From scripts to contracts: the replies of an honest Assemble leave every script as planned, so that a contract can be
// checked item by item on the plan of each step.
module StagePlans {
  import opened Engine
  import opened Contracts
  import opened StageGraph

  /** The script of a step when Assemble hands back the compiler it was asked for. */
  function Plan(cfg: Config, s: Step): seq<Item> {
    Script(cfg, s, [])
  }

  /** What Assemble outputs: the compiler it was asked for. */
  predicate Honest(s: Step, o: Output) {
    s.Assemble? ==> o == Built(s.compiler)
  }

  type Table = Contract<Step, Event, Output>

  ghost predicate HonestTable(k: Table) {
    forall s, o :: k.output(s, o) <==> Honest(s, o)
  }

  ghost predicate Likely(cfg: Config, n: nat, ts: set<Triple>, k: Table, s: Step, h: seq<Reply<Output>>) {
    HonestTable(k) && Plausible(Stages(cfg, n, ts), k, s, h)
  }

  /** A reply to a request for Assemble hands back the compiler asked for. */
  lemma HandedBack(cfg: Config, n: nat, ts: set<Triple>, k: Table, s: Step, h: seq<Reply<Output>>, i: nat, c: Compiler)
    requires Likely(cfg, n, ts, k, s, h)
    requires i < |h| ==> i < |Script(cfg, s, h[..i])| && Script(cfg, s, h[..i])[i] == Ask(Assemble(c))
    ensures Handed(h, i, c) == c
  {
    hide Script;
    if i < |h| {
      assert Stages(cfg, n, ts).act(s, h[..i]) == Within(n, ts, Act(cfg, s, h[..i]));
    }
  }

  lemma FirstAsksForBuilder(cfg: Config, s: Step, h: seq<Reply<Output>>)
    requires (s.Assemble? || s.Rustdoc? || s.FuzzTargetGenerator?) && s.compiler.stage > 0
    ensures |Script(cfg, s, h)| > 0 && Script(cfg, s, h)[0] == Ask(Assemble(StageGraph.Builder(cfg, s.compiler)))
  {
    hide RustcLibdir, LibdirDir, SysrootDir, SysrootLibdirRelative, RustcBinary, LldBin, When, Handed;
  }

  lemma SameFromBuilder(cfg: Config, s: Step, h: seq<Reply<Output>>)
    requires s.Assemble? || s.Rustdoc? || s.FuzzTargetGenerator?
    requires s.compiler.stage > 0 ==> Handed(h, 0, StageGraph.Builder(cfg, s.compiler)) == StageGraph.Builder(cfg, s.compiler)
    ensures Script(cfg, s, h) == Plan(cfg, s)
  {
    hide AssembleFrom, DocToolFrom;
  }

  lemma BuilderHandedBack(cfg: Config, n: nat, ts: set<Triple>, k: Table, s: Step, h: seq<Reply<Output>>)
    requires Likely(cfg, n, ts, k, s, h)
    requires s.Assemble? || s.Rustdoc? || s.FuzzTargetGenerator?
    ensures Script(cfg, s, h) == Plan(cfg, s)
  {
    hide Likely, Script, Plan;
    if s.compiler.stage > 0 {
      FirstAsksForBuilder(cfg, s, h[..0]);
      HandedBack(cfg, n, ts, k, s, h, 0, StageGraph.Builder(cfg, s.compiler));
    }
    SameFromBuilder(cfg, s, h);
  }

  /** The first Assemble of Std and Rustc. */
  lemma CompilerHandedBack(cfg: Config, n: nat, ts: set<Triple>, k: Table, s: Step, h: seq<Reply<Output>>)
    requires Likely(cfg, n, ts, k, s, h) && (s.Std? || s.Rustc?)
    ensures Handed(h, 1, CompilerFor(cfg, s.compiler, s.target)) == CompilerFor(cfg, s.compiler, s.target)
  {
    hide Likely, CompilerFor, Stamp, RustcBinary, LibdirDir, SelfContained;
    HandedBack(cfg, n, ts, k, s, h, 1, CompilerFor(cfg, s.compiler, s.target));
  }

  lemma Prefix(cfg: Config, n: nat, ts: set<Triple>, k: Table, s: Step, h: seq<Reply<Output>>, i: nat)
    requires Likely(cfg, n, ts, k, s, h) && i <= |h|
    ensures Likely(cfg, n, ts, k, s, h[..i])
  {
    hide Stages;
    forall j | 0 <= j < i ensures h[..i][..j] == h[..j] {}
  }

  lemma StdAsksForNative(cfg: Config, s: Step, h: seq<Reply<Output>>)
    requires s.Std? && CompilerFor(cfg, s.compiler, s.target) == s.compiler && Handed(h, 1, s.compiler) == s.compiler
    ensures |Script(cfg, s, h)| == 11 && Script(cfg, s, h)[9] == Ask(Assemble(Native(cfg, s.compiler)))
  {
    hide CompilerFor, Stamp, LibdirDir, SelfContained, CopiesSanitizers, When, Handed;
  }

  lemma SameFromHanded(cfg: Config, s: Step, h: seq<Reply<Output>>)
    requires s.Std? || s.Rustc?
    requires var asked := CompilerFor(cfg, s.compiler, s.target); var native := Native(cfg, s.compiler);
      && Handed(h, 1, asked) == asked
      && (asked == s.compiler && s.Std? ==> Handed(h, 9, native) == native)
      && (asked == s.compiler && s.Rustc? ==> Handed(h, 2, native) == native && Handed(h, 8, native) == native)
    ensures Script(cfg, s, h) == Plan(cfg, s)
  {
    hide CompilerFor, StdBuild, StdUplift, RustcBuild, RustcUplift;
  }

  lemma StdAsPlanned(cfg: Config, n: nat, ts: set<Triple>, k: Table, s: Step, h: seq<Reply<Output>>)
    requires Likely(cfg, n, ts, k, s, h) && s.Std?
    ensures Script(cfg, s, h) == Plan(cfg, s)
  {
    hide Likely, Script, Plan, CompilerFor;
    CompilerHandedBack(cfg, n, ts, k, s, h);
    if CompilerFor(cfg, s.compiler, s.target) == s.compiler && 9 < |h| {
      Prefix(cfg, n, ts, k, s, h, 9);
      CompilerHandedBack(cfg, n, ts, k, s, h[..9]);
      StdAsksForNative(cfg, s, h[..9]);
      HandedBack(cfg, n, ts, k, s, h, 9, Native(cfg, s.compiler));
    }
    SameFromHanded(cfg, s, h);
  }

  lemma RustcAsksForNative(cfg: Config, s: Step, h: seq<Reply<Output>>)
    requires s.Rustc? && CompilerFor(cfg, s.compiler, s.target) == s.compiler && Handed(h, 1, s.compiler) == s.compiler
    ensures |Script(cfg, s, h)| == 10
    ensures Script(cfg, s, h)[2] == Script(cfg, s, h)[8] == Ask(Assemble(Native(cfg, s.compiler)))
  {
    hide CompilerFor, Stamp, RustcBinary, When, Handed;
  }

  lemma RustcAsPlanned(cfg: Config, n: nat, ts: set<Triple>, k: Table, s: Step, h: seq<Reply<Output>>)
    requires Likely(cfg, n, ts, k, s, h) && s.Rustc?
    ensures Script(cfg, s, h) == Plan(cfg, s)
  {
    hide Likely, Script, Plan, CompilerFor;
    CompilerHandedBack(cfg, n, ts, k, s, h);
    if CompilerFor(cfg, s.compiler, s.target) == s.compiler && 2 < |h| {
      RustcHandedBack(cfg, n, ts, k, s, h, 2);
      if 8 < |h| {
        RustcHandedBack(cfg, n, ts, k, s, h, 8);
      }
    }
    SameFromHanded(cfg, s, h);
  }

  lemma RustcHandedBack(cfg: Config, n: nat, ts: set<Triple>, k: Table, s: Step, h: seq<Reply<Output>>, i: nat)
    requires Likely(cfg, n, ts, k, s, h) && s.Rustc? && CompilerFor(cfg, s.compiler, s.target) == s.compiler
    requires (i == 2 || i == 8) && i < |h|
    ensures Handed(h, i, Native(cfg, s.compiler)) == Native(cfg, s.compiler)
  {
    hide Likely, Script, CompilerFor;
    Prefix(cfg, n, ts, k, s, h, i);
    CompilerHandedBack(cfg, n, ts, k, s, h[..i]);
    RustcAsksForNative(cfg, s, h[..i]);
    HandedBack(cfg, n, ts, k, s, h, i, Native(cfg, s.compiler));
  }

  /** An honest history leaves the script as planned. */
  lemma AsPlanned(cfg: Config, n: nat, ts: set<Triple>, k: Table, s: Step, h: seq<Reply<Output>>)
    requires Likely(cfg, n, ts, k, s, h)
    ensures Script(cfg, s, h) == Plan(cfg, s)
  {
    hide Likely, RustcScript, StdScript, AssembleScript, DocToolScript, LinkScript, ToolScript;
    if s.Std? {
      StdAsPlanned(cfg, n, ts, k, s, h);
    } else if s.Rustc? {
      RustcAsPlanned(cfg, n, ts, k, s, h);
    } else if s.Assemble? || s.Rustdoc? || s.FuzzTargetGenerator? {
      BuilderHandedBack(cfg, n, ts, k, s, h);
    }
  }

  // ---------------------------------------------------------------------------------------------
  // Checking a contract on the plans.

  lemma ScriptLength(cfg: Config, s: Step, h: seq<Reply<Output>>)
    ensures |Script(cfg, s, h)| <= LONGEST
  {
    hide CompilerFor, Stamp, RustcBinary, When, Handed, LibdirDir, SelfContained, SysrootDir;
  }

  lemma StagesWellFormed(cfg: Config, n: nat, ts: set<Triple>)
    ensures WellFormed(Stages(cfg, n, ts))
  {
    hide Script, StepIn, Universe;
    forall s, h | s in Universe(n, ts)
      ensures match Stages(cfg, n, ts).act(s, h)
              case Need(d) => d in Universe(n, ts) && |h| < LONGEST
              case Work(_) => |h| < LONGEST
              case _ => true
    {
      ScriptLength(cfg, s, h);
      if Act(cfg, s, h).Need? {
        UniverseIs(n, ts, Act(cfg, s, h).dep);
      }
    }
  }

  /** The events known to have happened when an item of a plan is done. */
  function Gives(k: Table, item: Item): set<Event> {
    match item
    case Ask(d) => k.after(d)
    case Do(e) => {e}
    case Fail => {}
  }

  /** Among the events required of the caller, or given by one of the first i items. */
  ghost predicate Held(cfg: Config, k: Table, s: Step, i: nat, e: Event) {
    e in k.before(s) || exists j :: 0 <= j < i && j < |Plan(cfg, s)| && e in Gives(k, Plan(cfg, s)[j])
  }

  ghost predicate AllHeld(cfg: Config, k: Table, s: Step, i: nat, es: set<Event>) {
    forall e :: e in es ==> Held(cfg, k, s, i, e)
  }

  lemma HeldByItem(cfg: Config, k: Table, s: Step, i: nat, j: nat, es: set<Event>)
    requires j < i && j < |Plan(cfg, s)| && es <= Gives(k, Plan(cfg, s)[j])
    ensures AllHeld(cfg, k, s, i, es)
  {
    hide Plan, Gives;
  }

  lemma HeldBefore(cfg: Config, k: Table, s: Step, i: nat, es: set<Event>)
    requires es <= k.before(s)
    ensures AllHeld(cfg, k, s, i, es)
  {
    hide Plan, Gives;
  }

  ghost predicate ItemObeys(cfg: Config, n: nat, ts: set<Triple>, k: Table, s: Step, i: nat)
    requires i < |Plan(cfg, s)|
  {
    match Plan(cfg, s)[i]
    case Ask(d) => StepIn(n, ts, d) && k.admissible(d) && k.rank(d) < k.rank(s) && AllHeld(cfg, k, s, i, k.before(d))
    case Do(e) => AllHeld(cfg, k, s, i, k.reliesOn(e))
    case Fail => false
  }

  ghost predicate PlanObeys(cfg: Config, n: nat, ts: set<Triple>, k: Table, s: Step) {
    && (forall i :: 0 <= i < |Plan(cfg, s)| ==> ItemObeys(cfg, n, ts, k, s, i))
    && AllHeld(cfg, k, s, |Plan(cfg, s)|, k.after(s))
  }

  /** An action of an obedient plan is its next item. */
  lemma ActIsItem(cfg: Config, n: nat, ts: set<Triple>, k: Table, s: Step, h: seq<Reply<Output>>)
    requires Likely(cfg, n, ts, k, s, h) && PlanObeys(cfg, n, ts, k, s)
    ensures var a, plan := Stages(cfg, n, ts).act(s, h), Plan(cfg, s);
      if |h| < |plan| then
        match plan[|h|]
        case Ask(d) => a == Need(d)
        case Do(e) => a == Work(e)
        case Fail => false
      else a == Return(if s.Assemble? then Built(s.compiler) else Other)
  {
    AsPlanned(cfg, n, ts, k, s, h);
    hide Likely, AllHeld, Script, StepIn;
    if |h| < |Plan(cfg, s)| {
      assert ItemObeys(cfg, n, ts, k, s, |h|);
    }
  }

  lemma HeldSplits(cfg: Config, k: Table, s: Step, i: nat, e: Event)
    requires Held(cfg, k, s, i + 1, e)
    ensures Held(cfg, k, s, i, e) || (i < |Plan(cfg, s)| && e in Gives(k, Plan(cfg, s)[i]))
  {
    hide Plan;
  }

  lemma FactsStep(cfg: Config, n: nat, ts: set<Triple>, k: Table, s: Step, h: seq<Reply<Output>>)
    requires Likely(cfg, n, ts, k, s, h) && PlanObeys(cfg, n, ts, k, s) && h != []
    ensures var h' := h[..|h| - 1];
      && Likely(cfg, n, ts, k, s, h')
      && Facts(Stages(cfg, n, ts), k, s, h') <= Facts(Stages(cfg, n, ts), k, s, h)
      && (|h'| < |Plan(cfg, s)| ==> Gives(k, Plan(cfg, s)[|h'|]) <= Facts(Stages(cfg, n, ts), k, s, h))
  {
    hide Likely, PlanObeys, Plan, Stages;
    Prefix(cfg, n, ts, k, s, h, |h| - 1);
    ActIsItem(cfg, n, ts, k, s, h[..|h| - 1]);
  }

  /** What the plan holds after |h| items is among the facts of an honest history h. */
  lemma {:induction false} HeldIsFact(cfg: Config, n: nat, ts: set<Triple>, k: Table, s: Step, h: seq<Reply<Output>>, e: Event)
    requires Likely(cfg, n, ts, k, s, h) && PlanObeys(cfg, n, ts, k, s) && Held(cfg, k, s, |h|, e)
    ensures e in Facts(Stages(cfg, n, ts), k, s, h)
    decreases |h|
  {
    hide Likely, PlanObeys, Plan, Stages;
    if h != [] {
      FactsStep(cfg, n, ts, k, s, h);
      HeldSplits(cfg, k, s, |h| - 1, e);
      hide Held, Facts, Gives;
      if Held(cfg, k, s, |h| - 1, e) {
        HeldIsFact(cfg, n, ts, k, s, h[..|h| - 1], e);
      }
    }
  }

  lemma AllHeldAreFacts(cfg: Config, n: nat, ts: set<Triple>, k: Table, s: Step, h: seq<Reply<Output>>, es: set<Event>)
    requires Likely(cfg, n, ts, k, s, h) && PlanObeys(cfg, n, ts, k, s) && AllHeld(cfg, k, s, |h|, es)
    ensures es <= Facts(Stages(cfg, n, ts), k, s, h)
  {
    forall e | e in es ensures e in Facts(Stages(cfg, n, ts), k, s, h) {
      HeldIsFact(cfg, n, ts, k, s, h, e);
    }
  }

  lemma StillActing(cfg: Config, n: nat, ts: set<Triple>, k: Table, s: Step, h: seq<Reply<Output>>, i: nat)
    requires Likely(cfg, n, ts, k, s, h) && i < |h|
    ensures !Stages(cfg, n, ts).act(s, h[..i]).Return?
  {
    hide Stages;
  }

  lemma WithinPlan(cfg: Config, n: nat, ts: set<Triple>, k: Table, s: Step, h: seq<Reply<Output>>)
    requires Likely(cfg, n, ts, k, s, h) && PlanObeys(cfg, n, ts, k, s)
    ensures |h| <= |Plan(cfg, s)|
  {
    if |h| > |Plan(cfg, s)| {
      var i := |Plan(cfg, s)|;
      Prefix(cfg, n, ts, k, s, h, i);
      StillActing(cfg, n, ts, k, s, h, i);
      ActIsItem(cfg, n, ts, k, s, h[..i]);
    }
  }

  /** A body whose plan obeys the table obeys it after every plausible history. */
  lemma PlanIsObedient(cfg: Config, n: nat, ts: set<Triple>, k: Table, s: Step, h: seq<Reply<Output>>)
    requires Likely(cfg, n, ts, k, s, h) && PlanObeys(cfg, n, ts, k, s)
    ensures Obeys(Stages(cfg, n, ts), k, s, h)
  {
    hide AllHeld, Plan, StepIn, Stages, Plausible, Facts;
    ActIsItem(cfg, n, ts, k, s, h);
    WithinPlan(cfg, n, ts, k, s, h);
    var plan := Plan(cfg, s);
    if |h| < |plan| {
      assert ItemObeys(cfg, n, ts, k, s, |h|);
      AllHeldAreFacts(cfg, n, ts, k, s, h, match plan[|h|] case Ask(d) => k.before(d) case Do(e) => k.reliesOn(e) case Fail => {});
    } else {
      AllHeldAreFacts(cfg, n, ts, k, s, h, k.after(s));
    }
  }

  /** A table obeyed by the plan of every admissible step is obeyed by the whole stage graph. */
  lemma PlansChecked(cfg: Config, n: nat, ts: set<Triple>, k: Table)
    requires HonestTable(k)
    requires forall s :: StepIn(n, ts, s) && k.admissible(s) ==> PlanObeys(cfg, n, ts, k, s)
    ensures Checked(Stages(cfg, n, ts), k)
  {
    StagesWellFormed(cfg, n, ts);
    hide PlanObeys, StepIn, WellFormed, Obeys, Plausible;
    forall s, h | s in Universe(n, ts) && k.admissible(s) && Plausible(Stages(cfg, n, ts), k, s, h)
      ensures Obeys(Stages(cfg, n, ts), k, s, h)
    {
      UniverseIs(n, ts, s);
      PlanIsObedient(cfg, n, ts, k, s, h);
    }
  }
}
