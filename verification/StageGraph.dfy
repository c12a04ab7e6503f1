// The bootstrap stage graph: the bodies of the compile, tool and native steps as scripts of requests and file-system
// effects (src/bootstrap/compile.rs, src/bootstrap/builder.rs, src/bootstrap/tool.rs, src/bootstrap/native.rs).
module StageGraph {
  import opened Engine

  type Triple = string

  datatype Compiler = Compiler(stage: nat, host: Triple)

  datatype Mode = StdMode | RustcMode | ToolStd | ToolRustc | ToolBootstrap

  datatype Step =
    | Assemble(compiler: Compiler)
    | Rustc(compiler: Compiler, target: Triple)
    | Std(compiler: Compiler, target: Triple)
    | StdLink(compiler: Compiler, targetCompiler: Compiler, target: Triple)
    | RustcLink(compiler: Compiler, targetCompiler: Compiler, target: Triple)
    | StartupObjects(compiler: Compiler, target: Triple)
    | Sysroot(compiler: Compiler)
    | Libdir(compiler: Compiler, target: Triple)
    | Llvm(target: Triple)
    | Lld(target: Triple)
    | Sanitizers(target: Triple)
    | ToolBuild(compiler: Compiler, target: Triple, mode: Mode)
    | Rustdoc(compiler: Compiler)
    | FuzzTargetGenerator(compiler: Compiler)

  /** The one output that matters: the compiler that Assemble hands back. */
  datatype Output = Built(compiler: Compiler) | Other

  // ---------------------------------------------------------------------------------------------
  // Paths, component by component.

  datatype Part = Out | Named(triple: Triple) | StageDir(n: nat, suffix: string) | Dir(name: string)

  type Path = seq<Part>

  /** What is copied: the entries of one kind in a stamp file, the dynamic libraries of a directory, or a single file. */
  datatype What = TargetDeps | HostDeps | SelfContainedDeps | Dylibs | OneFile

  /** Removal and re-creation of a directory; its creation if need be, and files from elsewhere put into it; one file
      written; one file read; a copy into a directory; and no effect at all. */
  datatype Event =
    | Reset(dir: Path)
    | Fill(dir: Path)
    | Write(file: Path)
    | Read(file: Path)
    | Copy(from: Path, what: What, into: Path)
    | Nothing

  datatype LibdirSetting = DefaultLibdir | Relative(rel: Path)

  datatype Config = Config(
    build: Triple,
    hosts: set<Triple>,
    fullBootstrap: bool,
    localRebuild: bool,
    lld: bool,
    llvm: bool,
    sanitizers: bool,
    windowsGnu: Triple -> bool,
    hasSanitizers: Triple -> bool,
    prebuiltLlvm: Triple -> bool,
    libdir: LibdirSetting,
    initialLibdir: Path,
    binOrLib: Triple -> string,
    profile: string)

  function SysrootDir(c: Compiler): Path {
    [Out, Named(c.host), if c.stage == 0 then Dir("stage0-sysroot") else StageDir(c.stage, "")]
  }

  function SysrootLibdirRelative(cfg: Config, stage: nat): Path {
    if cfg.libdir.Relative? && stage >= 1 then cfg.libdir.rel
    else if stage == 0 then cfg.initialLibdir
    else [Dir("lib")]
  }

  function LibdirDir(cfg: Config, c: Compiler, t: Triple): Path {
    SysrootDir(c) + SysrootLibdirRelative(cfg, c.stage) + [Dir("rustlib"), Named(t), Dir("lib")]
  }

  /** Where the compiler's own dynamic libraries go, for a compiler of stage 1 or more. */
  function RustcLibdir(cfg: Config, c: Compiler): Path {
    SysrootDir(c) + if cfg.libdir.Relative? then cfg.libdir.rel else [Dir(cfg.binOrLib(c.host))]
  }

  function CargoOut(cfg: Config, c: Compiler, mode: Mode, t: Triple): Path {
    [Out, Named(c.host), StageDir(c.stage, Suffix(mode)), Named(t), Dir(cfg.profile)]
  }

  function Suffix(mode: Mode): string {
    match mode
    case StdMode => "-std"
    case RustcMode => "-rustc"
    case ToolBootstrap => "-bootstrap-tools"
    case _ => "-tools"
  }

  /** The stamp file that lists what cargo built. */
  function Stamp(cfg: Config, c: Compiler, mode: Mode, t: Triple): Path {
    CargoOut(cfg, c, mode, t) + [Dir(if mode == StdMode then ".libstd.stamp" else ".librustc.stamp")]
  }

  function RustcBinary(cfg: Config, c: Compiler, t: Triple): Path {
    CargoOut(cfg, c, RustcMode, t) + [Dir("rustc_binary")]
  }

  // ---------------------------------------------------------------------------------------------
  // Choice of compilers.

  predicate IsHost(cfg: Config, t: Triple) {
    t in cfg.hosts || t == cfg.build
  }

  predicate ForceUseStage1(cfg: Config, c: Compiler, t: Triple) {
    !cfg.fullBootstrap && c.stage >= 2 && IsHost(cfg, t)
  }

  /** The compiler that compiler_for asks Assemble for. */
  function CompilerFor(cfg: Config, c: Compiler, t: Triple): Compiler {
    if ForceUseStage1(cfg, c, t) then Compiler(1, cfg.build) else c
  }

  // ---------------------------------------------------------------------------------------------
  // The bodies.

  datatype Item = Ask(step: Step) | Do(event: Event) | Fail

  function When(b: bool, item: Item): Item {
    if b then item else Do(Nothing)
  }

  /** The compiler handed back as reply number i to Assemble(asked); before it has come, the one asked for. */
  function Handed(h: seq<Reply<Output>>, i: nat, asked: Compiler): Compiler {
    if i < |h| && h[i].Got? && h[i].out.Built? then h[i].out.compiler else asked
  }

  /** The compiler one stage below, which builds the compiler c. */
  function Builder(cfg: Config, c: Compiler): Compiler
    requires c.stage > 0
  {
    Compiler(c.stage - 1, cfg.build)
  }

  /** The compiler of the same stage that runs on the build triple. */
  function Native(cfg: Config, c: Compiler): Compiler {
    Compiler(c.stage, cfg.build)
  }

  function AssembleScript(cfg: Config, tc: Compiler, h: seq<Reply<Output>>): seq<Item> {
    if tc.stage == 0 then
      if tc.host != cfg.build then [Fail] else []
    else
      AssembleFrom(cfg, tc, Handed(h, 0, Builder(cfg, tc)))
  }

  function AssembleFrom(cfg: Config, tc: Compiler, bc: Compiler): seq<Item>
    requires tc.stage > 0
  {
    [Ask(Assemble(Builder(cfg, tc))),
     Ask(Rustc(bc, tc.host)),
     When(cfg.lld, Ask(Lld(tc.host))),
     Ask(Sysroot(tc)),
     Do(Fill(RustcLibdir(cfg, tc))),
     Ask(Libdir(bc, tc.host)),
     Do(Copy(LibdirDir(cfg, bc, tc.host), Dylibs, RustcLibdir(cfg, tc))),
     Ask(Libdir(tc, tc.host)),
     When(cfg.lld, Do(Fill(LldBin(cfg, tc)))),
     Do(Fill(SysrootDir(tc) + SysrootLibdirRelative(cfg, 1))),
     Do(Fill(SysrootDir(tc) + [Dir("lib"), Dir("rustlib"), Named(tc.host), Dir("lib")])),
     Do(Read(RustcBinary(cfg, bc, tc.host))),
     Do(Copy(RustcBinary(cfg, bc, tc.host), OneFile, SysrootDir(tc) + [Dir("bin")]))]
  }

  /** The bin directory beside a libdir, for the renamed lld. */
  function LldBin(cfg: Config, tc: Compiler): Path {
    SysrootDir(tc) + SysrootLibdirRelative(cfg, tc.stage) + [Dir("rustlib"), Named(tc.host), Dir("bin")]
  }

  function RustcScript(cfg: Config, c: Compiler, t: Triple, h: seq<Reply<Output>>): seq<Item> {
    var toUse := Handed(h, 1, CompilerFor(cfg, c, t));
    if toUse != c then RustcUplift(cfg, c, t, toUse)
    else RustcBuild(cfg, c, t, Handed(h, 2, Native(cfg, c)), Handed(h, 8, Native(cfg, c)))
  }

  function RustcUplift(cfg: Config, c: Compiler, t: Triple, toUse: Compiler): seq<Item> {
    [Ask(Std(c, t)), Ask(Assemble(CompilerFor(cfg, c, t))), Ask(Rustc(toUse, t)), Ask(RustcLink(toUse, c, t))]
  }

  function RustcBuild(cfg: Config, c: Compiler, t: Triple, forStd: Compiler, forLink: Compiler): seq<Item> {
    [Ask(Std(c, t)),
     Ask(Assemble(CompilerFor(cfg, c, t))),
     Ask(Assemble(Native(cfg, c))),
     Ask(Std(forStd, cfg.build)),
     Ask(Sysroot(c)),
     When(cfg.llvm, Ask(Llvm(t))),
     Do(Write(RustcBinary(cfg, c, t))),
     Do(Write(Stamp(cfg, c, RustcMode, t))),
     Ask(Assemble(Native(cfg, c))),
     Ask(RustcLink(forLink, c, t))]
  }

  function StdScript(cfg: Config, c: Compiler, t: Triple, h: seq<Reply<Output>>): seq<Item> {
    var toUse := Handed(h, 1, CompilerFor(cfg, c, t));
    if toUse != c then StdUplift(cfg, c, t, toUse) else StdBuild(cfg, c, t, Handed(h, 9, Native(cfg, c)))
  }

  /** Where the CRT and startup objects for self-contained linking go. */
  function SelfContained(cfg: Config, c: Compiler, t: Triple): Path {
    LibdirDir(cfg, c, t) + if c.stage == 0 then [] else [Dir("self-contained")]
  }

  predicate CopiesSanitizers(cfg: Config, c: Compiler) {
    cfg.sanitizers && c.stage != 0
  }

  function StdUplift(cfg: Config, c: Compiler, t: Triple, toUse: Compiler): seq<Item> {
    [Ask(StartupObjects(c, t)),
     Ask(Assemble(CompilerFor(cfg, c, t))),
     Ask(Std(toUse, t)),
     When(CopiesSanitizers(cfg, c), Ask(Sanitizers(t))),
     When(CopiesSanitizers(cfg, c), Ask(Libdir(c, t))),
     When(CopiesSanitizers(cfg, c), Do(Fill(LibdirDir(cfg, c, t)))),
     Ask(Libdir(c, t)),
     Do(Fill(SelfContained(cfg, c, t))),
     Ask(StdLink(toUse, c, t))]
  }

  function StdBuild(cfg: Config, c: Compiler, t: Triple, forLink: Compiler): seq<Item> {
    [Ask(StartupObjects(c, t)),
     Ask(Assemble(CompilerFor(cfg, c, t))),
     When(CopiesSanitizers(cfg, c), Ask(Sanitizers(t))),
     When(CopiesSanitizers(cfg, c), Ask(Libdir(c, t))),
     When(CopiesSanitizers(cfg, c), Do(Fill(LibdirDir(cfg, c, t)))),
     Ask(Libdir(c, t)),
     Do(Fill(SelfContained(cfg, c, t))),
     Ask(Sysroot(c)),
     Do(Write(Stamp(cfg, c, StdMode, t))),
     Ask(Assemble(Native(cfg, c))),
     Ask(StdLink(forLink, c, t))]
  }

  /** add_to_sysroot with the stamp of the given mode. */
  function LinkScript(cfg: Config, c: Compiler, tc: Compiler, mode: Mode, t: Triple): seq<Item> {
    [Ask(Libdir(tc, t)), Ask(Libdir(tc, c.host)),
     Do(Fill(LibdirDir(cfg, tc, t))), Do(Fill(LibdirDir(cfg, tc, c.host))), Do(Fill(LibdirDir(cfg, tc, t) + [Dir("self-contained")])),
     Do(Read(Stamp(cfg, c, mode, t))),
     Do(Copy(Stamp(cfg, c, mode, t), TargetDeps, LibdirDir(cfg, tc, t))),
     Do(Copy(Stamp(cfg, c, mode, t), HostDeps, LibdirDir(cfg, tc, c.host))),
     Do(Copy(Stamp(cfg, c, mode, t), SelfContainedDeps, LibdirDir(cfg, tc, t) + [Dir("self-contained")]))]
  }

  function ToolScript(cfg: Config, c: Compiler, t: Triple, mode: Mode): seq<Item> {
    [match mode
     case ToolRustc => Ask(Rustc(c, t))
     case ToolStd => Ask(Std(c, t))
     case ToolBootstrap => if c.stage != 0 && !cfg.localRebuild then Fail else Do(Nothing)
     case _ => Fail,
     Ask(Sysroot(c)),
     When(mode == ToolRustc && cfg.llvm, Ask(Llvm(t)))]
  }

  /** The body that Rustdoc and FuzzTargetGenerator share. */
  function DocToolScript(cfg: Config, tc: Compiler, h: seq<Reply<Output>>): seq<Item> {
    if tc.stage == 0 then
      if tc.host != cfg.build then [Fail] else []
    else
      DocToolFrom(cfg, tc, Handed(h, 0, Builder(cfg, tc)))
  }

  function DocToolFrom(cfg: Config, tc: Compiler, bc: Compiler): seq<Item>
    requires tc.stage > 0
  {
    [Ask(Assemble(Builder(cfg, tc))), Ask(Sysroot(bc)), When(cfg.llvm, Ask(Llvm(tc.host))), Ask(Sysroot(tc)),
     Do(Fill(SysrootDir(tc) + [Dir("bin")]))]
  }

  function Script(cfg: Config, s: Step, h: seq<Reply<Output>>): seq<Item> {
    match s
    case Assemble(tc) => AssembleScript(cfg, tc, h)
    case Rustc(c, t) => RustcScript(cfg, c, t, h)
    case Std(c, t) => StdScript(cfg, c, t, h)
    case StdLink(c, tc, t) => LinkScript(cfg, c, tc, StdMode, t)
    case RustcLink(c, tc, t) => LinkScript(cfg, c, tc, RustcMode, t)
    case StartupObjects(c, t) => if cfg.windowsGnu(t) then [Ask(Libdir(c, t)), Do(Fill(LibdirDir(cfg, c, t)))] else []
    case Sysroot(c) => [Do(Reset(SysrootDir(c))), Do(Fill(SysrootDir(c) + [Dir("lib"), Dir("rustlib"), Dir("src")]))]
    case Libdir(c, t) => [Ask(Sysroot(c)), Do(Reset(LibdirDir(cfg, c, t)))]
    case Llvm(t) => [When(!cfg.prebuiltLlvm(t) && t != cfg.build, Ask(Llvm(cfg.build)))]
    case Lld(t) => [Ask(Llvm(t))]
    case Sanitizers(t) => [When(cfg.hasSanitizers(t), Ask(Llvm(cfg.build)))]
    case ToolBuild(c, t, mode) => ToolScript(cfg, c, t, mode)
    case Rustdoc(c) => DocToolScript(cfg, c, h)
    case FuzzTargetGenerator(c) => DocToolScript(cfg, c, h)
  }

  /** The next action of a body: the next item of its script, then the output. */
  function Act(cfg: Config, s: Step, h: seq<Reply<Output>>): Action<Step, Event, Output> {
    var script := Script(cfg, s, h);
    if |h| < |script| then
      match script[|h|]
      case Ask(d) => Need(d)
      case Do(e) => Work(e)
      case Fail => Abort
    else
      Return(if s.Assemble? then Built(s.compiler) else Other)
  }

  // ---------------------------------------------------------------------------------------------
  // The universe: all steps of stages up to n over the triples ts.

  predicate CompilerIn(n: nat, ts: set<Triple>, c: Compiler) {
    c.stage <= n && c.host in ts
  }

  predicate StepIn(n: nat, ts: set<Triple>, s: Step) {
    match s
    case Assemble(c) => CompilerIn(n, ts, c)
    case Sysroot(c) => CompilerIn(n, ts, c)
    case Rustdoc(c) => CompilerIn(n, ts, c)
    case FuzzTargetGenerator(c) => CompilerIn(n, ts, c)
    case Rustc(c, t) => CompilerIn(n, ts, c) && t in ts
    case Std(c, t) => CompilerIn(n, ts, c) && t in ts
    case StartupObjects(c, t) => CompilerIn(n, ts, c) && t in ts
    case Libdir(c, t) => CompilerIn(n, ts, c) && t in ts
    case ToolBuild(c, t, mode) => CompilerIn(n, ts, c) && t in ts
    case StdLink(c, tc, t) => CompilerIn(n, ts, c) && CompilerIn(n, ts, tc) && t in ts
    case RustcLink(c, tc, t) => CompilerIn(n, ts, c) && CompilerIn(n, ts, tc) && t in ts
    case Llvm(t) => t in ts
    case Lld(t) => t in ts
    case Sanitizers(t) => t in ts
  }

  function Compilers(n: nat, ts: set<Triple>): (cs: set<Compiler>)
    ensures forall c :: c in cs <==> CompilerIn(n, ts, c)
  {
    set i: nat, t | i <= n && t in ts :: Compiler(i, t)
  }

  function CompilerSteps(cs: set<Compiler>): (r: set<Step>)
    ensures forall c :: c in cs ==> Assemble(c) in r && Sysroot(c) in r
    ensures forall s :: s in r ==> (s.Assemble? || s.Sysroot?) && s.compiler in cs
  {
    (set c | c in cs :: Assemble(c)) + (set c | c in cs :: Sysroot(c))
  }

  function DocToolSteps(cs: set<Compiler>): (r: set<Step>)
    ensures forall c :: c in cs ==> Rustdoc(c) in r && FuzzTargetGenerator(c) in r
    ensures forall s :: s in r ==> (s.Rustdoc? || s.FuzzTargetGenerator?) && s.compiler in cs
  {
    (set c | c in cs :: Rustdoc(c)) + (set c | c in cs :: FuzzTargetGenerator(c))
  }

  function TargetSteps(cs: set<Compiler>, ts: set<Triple>): (r: set<Step>)
    ensures forall c, t :: c in cs && t in ts ==> Rustc(c, t) in r && Std(c, t) in r && StartupObjects(c, t) in r && Libdir(c, t) in r
    ensures forall s :: s in r ==> (s.Rustc? || s.Std? || s.StartupObjects? || s.Libdir?) && s.compiler in cs && s.target in ts
  {
    (set c, t | c in cs && t in ts :: Rustc(c, t)) + (set c, t | c in cs && t in ts :: Std(c, t))
    + (set c, t | c in cs && t in ts :: StartupObjects(c, t)) + (set c, t | c in cs && t in ts :: Libdir(c, t))
  }

  function ToolSteps(cs: set<Compiler>, ts: set<Triple>): (r: set<Step>)
    ensures forall c, t, m :: c in cs && t in ts ==> ToolBuild(c, t, m) in r
    ensures forall s :: s in r ==> s.ToolBuild? && s.compiler in cs && s.target in ts
  {
    set c, t, m: Mode | c in cs && t in ts :: ToolBuild(c, t, m)
  }

  function LinkSteps(cs: set<Compiler>, ts: set<Triple>): (r: set<Step>)
    ensures forall c, tc, t :: c in cs && tc in cs && t in ts ==> StdLink(c, tc, t) in r && RustcLink(c, tc, t) in r
    ensures forall s :: s in r ==> (s.StdLink? || s.RustcLink?) && s.compiler in cs && s.targetCompiler in cs && s.target in ts
  {
    (set c, tc, t | c in cs && tc in cs && t in ts :: StdLink(c, tc, t))
    + (set c, tc, t | c in cs && tc in cs && t in ts :: RustcLink(c, tc, t))
  }

  function NativeSteps(ts: set<Triple>): (r: set<Step>)
    ensures forall t :: t in ts ==> Llvm(t) in r && Lld(t) in r && Sanitizers(t) in r
    ensures forall s :: s in r ==> (s.Llvm? || s.Lld? || s.Sanitizers?) && s.target in ts
  {
    (set t | t in ts :: Llvm(t)) + (set t | t in ts :: Lld(t)) + (set t | t in ts :: Sanitizers(t))
  }

  function Universe(n: nat, ts: set<Triple>): (u: set<Step>) {
    var cs := Compilers(n, ts);
    CompilerSteps(cs) + DocToolSteps(cs) + TargetSteps(cs, ts) + ToolSteps(cs, ts) + LinkSteps(cs, ts) + NativeSteps(ts)
  }

  lemma UniverseIs(n: nat, ts: set<Triple>, s: Step)
    ensures s in Universe(n, ts) <==> StepIn(n, ts, s)
  {
    hide Compilers, CompilerSteps, DocToolSteps, TargetSteps, ToolSteps, LinkSteps, NativeSteps;
  }

  /** The engine's program: nothing outside the universe is ever asked for. */
  function Within(n: nat, ts: set<Triple>, a: Action<Step, Event, Output>): Action<Step, Event, Output> {
    if a.Need? && !StepIn(n, ts, a.dep) then Abort else a
  }

  const LONGEST := 13

  function Stages(cfg: Config, n: nat, ts: set<Triple>): Program<Step, Event, Output> {
    Program(Universe(n, ts), (s, h) => Within(n, ts, Act(cfg, s, h)), s => LONGEST)
  }
}
