// The memoising build engine: Builder::ensure (src/bootstrap/builder.rs) over Cache (src/bootstrap/cache.rs), as a
// function on its state, and the plain, uncached recursion it stands for.
module Engine {

  /** What a step hears back: an acknowledgement of an effect, or the output of a step it asked for. */
  datatype Reply<O> = Ack | Got(out: O)

  /** What a step does next: ask for another step, perform an effect, return its output, or panic. */
  datatype Action<S, E, O> = Need(dep: S) | Work(event: E) | Return(out: O) | Abort

  /** A finite universe of steps. The body of a step is given by its next action as a function of the replies so far;
      within bound(s) replies it returns or aborts. */
  datatype Program<!S(==), !E, !O> = Program(
    universe: set<S>,
    act: (S, seq<Reply<O>>) -> Action<S, E, O>,
    bound: S -> nat)

  ghost predicate WellFormed<S(!new), E, O(!new)>(p: Program<S, E, O>) {
    forall s, h :: s in p.universe ==>
      match p.act(s, h)
      case Need(d) => d in p.universe && |h| < p.bound(s)
      case Work(_) => |h| < p.bound(s)
      case _ => true
  }

  /** How a request ends: with an output, in the cycle panic, or in the panic of some step body. */
  datatype Outcome<O> = Done(out: O) | CycleDetected | StepAborted

  /** The builder: the steps in progress, the memo table, and, for the record, every body begun and every effect
      performed, in order. */
  datatype State<!S(==), E, O> = State(stack: seq<S>, cache: map<S, O>, ran: seq<S>, log: seq<E>)

  function Elems<S>(xs: seq<S>): set<S> {
    set x | x in xs
  }

  lemma PushShrinks<S>(u: set<S>, stack: seq<S>, s: S)
    requires s in u && s !in stack
    ensures |u - Elems(stack + [s])| < |u - Elems(stack)|
  {
    assert u - Elems(stack + [s]) == (u - Elems(stack)) - {s};
  }

  /** Builder::ensure. It terminates on every finite universe: each nested call has one step fewer that is not in
      progress. */
  ghost function Ensure<S(!new), E, O(!new)>(p: Program<S, E, O>, st: State<S, E, O>, s: S): (r: (Outcome<O>, State<S, E, O>))
    requires WellFormed(p) && s in p.universe
    ensures r.0.Done? ==> r.1.stack == st.stack
    decreases |p.universe - Elems(st.stack)|, 0
  {
    if s in st.stack then (CycleDetected, st)
    else if s in st.cache then (Done(st.cache[s]), st)
    else
      PushShrinks(p.universe, st.stack, s);
      var (r, st') := Run(p, Push(st, s), s, []);
      if r.Done? then (r, Pop(st', s, r.out)) else (r, st')
  }

  function Push<S, E, O>(st: State<S, E, O>, s: S): State<S, E, O> {
    st.(stack := st.stack + [s], ran := st.ran + [s])
  }

  function Pop<S, E, O>(st: State<S, E, O>, s: S, o: O): State<S, E, O>
    requires st.stack != []
  {
    st.(stack := st.stack[..|st.stack| - 1], cache := st.cache[s := o])
  }

  /** The body of step s from the point where its replies so far are h. */
  ghost function Run<S(!new), E, O(!new)>(p: Program<S, E, O>, st: State<S, E, O>, s: S, h: seq<Reply<O>>)
    : (r: (Outcome<O>, State<S, E, O>))
    requires WellFormed(p) && s in p.universe
    ensures r.0.Done? ==> r.1.stack == st.stack
    decreases |p.universe - Elems(st.stack)|, 1, p.bound(s) - |h|
  {
    match p.act(s, h)
    case Return(o) => (Done(o), st)
    case Abort => (StepAborted, st)
    case Work(e) => Run(p, st.(log := st.log + [e]), s, h + [Ack])
    case Need(d) =>
      var (r, st') := Ensure(p, st, d);
      if r.Done? then Run(p, st', s, h + [Got(r.out)]) else (r, st')
  }

  // ---------------------------------------------------------------------------------------------
  // Plain recursion: no cache, no stack. It may not terminate, so it is defined by bounded depth.

  datatype Eval<O> = TooDeep | Crash | Value(out: O)

  ghost function Plain<S(!new), E, O(!new)>(p: Program<S, E, O>, n: nat, s: S): Eval<O>
    requires WellFormed(p) && s in p.universe
    decreases n, 0
  {
    if n == 0 then TooDeep else PlainRun(p, n - 1, s, [])
  }

  ghost function PlainRun<S(!new), E, O(!new)>(p: Program<S, E, O>, n: nat, s: S, h: seq<Reply<O>>): Eval<O>
    requires WellFormed(p) && s in p.universe
    decreases n, 1, p.bound(s) - |h|
  {
    match p.act(s, h)
    case Return(o) => Value(o)
    case Abort => Crash
    case Work(e) => PlainRun(p, n, s, h + [Ack])
    case Need(d) =>
      match Plain(p, n, d)
      case Value(o) => PlainRun(p, n, s, h + [Got(o)])
      case TooDeep => TooDeep
      case Crash => Crash
  }

  /** Plain recursion on s ends with output o. */
  ghost predicate Yields<S(!new), E, O(!new)>(p: Program<S, E, O>, s: S, o: O)
    requires WellFormed(p) && s in p.universe
  {
    exists n: nat :: Plain(p, n, s) == Value(o)
  }

  /** Plain recursion on s ends in the panic of some step body. */
  ghost predicate Crashes<S(!new), E, O(!new)>(p: Program<S, E, O>, s: S)
    requires WellFormed(p) && s in p.universe
  {
    exists n: nat :: Plain(p, n, s) == Crash
  }

  /** Plain recursion on s never ends. */
  ghost predicate Diverges<S(!new), E, O(!new)>(p: Program<S, E, O>, s: S)
    requires WellFormed(p) && s in p.universe
  {
    forall n: nat :: Plain(p, n, s) == TooDeep
  }

  /** Going deeper does not change an answer. */
  lemma {:induction false} PlainDeeper<S(!new), E, O(!new)>(p: Program<S, E, O>, m: nat, n: nat, s: S)
    requires WellFormed(p) && s in p.universe && m <= n && Plain(p, m, s) != TooDeep
    ensures Plain(p, n, s) == Plain(p, m, s)
    decreases m, 0
  {
    PlainRunDeeper(p, m - 1, n - 1, s, []);
  }

  lemma {:induction false} PlainRunDeeper<S(!new), E, O(!new)>(p: Program<S, E, O>, m: nat, n: nat, s: S, h: seq<Reply<O>>)
    requires WellFormed(p) && s in p.universe && m <= n && PlainRun(p, m, s, h) != TooDeep
    ensures PlainRun(p, n, s, h) == PlainRun(p, m, s, h)
    decreases m, 1, p.bound(s) - |h|
  {
    match p.act(s, h)
    case Work(e) => PlainRunDeeper(p, m, n, s, h + [Ack]);
    case Need(d) =>
      PlainDeeper(p, m, n, d);
      if Plain(p, m, d).Value? {
        PlainRunDeeper(p, m, n, s, h + [Got(Plain(p, m, d).out)]);
      }
    case _ =>
  }

  /** Plain recursion has one of three fates, and one output. */
  lemma OneFate<S(!new), E, O(!new)>(p: Program<S, E, O>, s: S)
    requires WellFormed(p) && s in p.universe
    ensures Diverges(p, s) || Crashes(p, s) || exists o :: Yields(p, s, o)
    ensures forall o, o' :: Yields(p, s, o) && Yields(p, s, o') ==> o == o'
    ensures forall o :: Yields(p, s, o) ==> !Crashes(p, s) && !Diverges(p, s)
    ensures Crashes(p, s) ==> !Diverges(p, s)
  {
    forall m: nat, n: nat | Plain(p, m, s) != TooDeep && Plain(p, n, s) != TooDeep
      ensures Plain(p, m, s) == Plain(p, n, s)
    {
      if m <= n { PlainDeeper(p, m, n, s); } else { PlainDeeper(p, n, m, s); }
    }
    if n: nat :| Plain(p, n, s) != TooDeep {
      if Plain(p, n, s).Value? {
        assert Yields(p, s, Plain(p, n, s).out);
      }
    }
  }

  // ---------------------------------------------------------------------------------------------
  // Dependencies: the steps a body asks for when every reply is the true one.

  /** Started with replies h, the body of s asks for d at some point, replies being the outputs of plain recursion. */
  ghost predicate Asks<S(!new), E, O(!new)>(p: Program<S, E, O>, s: S, h: seq<Reply<O>>, d: S)
    requires WellFormed(p) && s in p.universe
    decreases p.bound(s) - |h|
  {
    match p.act(s, h)
    case Work(e) => Asks(p, s, h + [Ack], d)
    case Need(d') => d == d' || exists o :: Yields(p, d', o) && Asks(p, s, h + [Got(o)], d)
    case _ => false
  }

  /** A dependency is evaluated at least one level deeper. */
  lemma {:induction false} AskedIsShallower<S(!new), E, O(!new)>(p: Program<S, E, O>, n: nat, s: S, h: seq<Reply<O>>, d: S)
    requires WellFormed(p) && s in p.universe && d in p.universe
    requires PlainRun(p, n, s, h) != TooDeep && Asks(p, s, h, d)
    ensures Plain(p, n, d) != TooDeep
    decreases p.bound(s) - |h|
  {
    match p.act(s, h)
    case Work(e) => AskedIsShallower(p, n, s, h + [Ack], d);
    case Need(d') =>
      if d != d' {
        var o :| Yields(p, d', o) && Asks(p, s, h + [Got(o)], d);
        OneFate(p, d');
        var v := Plain(p, n, d');
        assert v.Value? ==> Yields(p, d', v.out);
        AskedIsShallower(p, n, s, h + [Got(o)], d);
      }
    case _ =>
  }

  /** The steps in progress form a chain of dependencies. */
  ghost predicate Chain<S(!new), E, O(!new)>(p: Program<S, E, O>, stack: seq<S>)
    requires WellFormed(p)
  {
    && (forall i :: 0 <= i < |stack| ==> stack[i] in p.universe)
    && (forall i :: 0 <= i < |stack| - 1 ==> Asks(p, stack[i], [], stack[i + 1]))
  }

  /** Along a chain, each step is evaluated at least one level deeper than the one before. */
  lemma {:induction false} ChainDepth<S(!new), E, O(!new)>(p: Program<S, E, O>, stack: seq<S>, n: nat, i: nat, j: nat)
    requires WellFormed(p) && Chain(p, stack) && i <= j < |stack|
    requires Plain(p, n, stack[i]) != TooDeep
    ensures n >= j - i && Plain(p, n - (j - i), stack[j]) != TooDeep
    decreases j - i
  {
    if i < j {
      assert n > 0;
      AskedIsShallower(p, n - 1, stack[i], [], stack[i + 1]);
      ChainDepth(p, stack, n - 1, i + 1, j);
    }
  }

  /** A chain that comes back to a step it already holds has no finite depth. */
  lemma {:induction false} CycleTooDeep<S(!new), E, O(!new)>(p: Program<S, E, O>, stack: seq<S>, n: nat, i: nat)
    requires WellFormed(p) && Chain(p, stack) && i < |stack| - 1 && stack[i] == stack[|stack| - 1]
    ensures Plain(p, n, stack[i]) == TooDeep
    decreases n
  {
    if Plain(p, n, stack[i]) != TooDeep {
      var d := |stack| - 1 - i;
      ChainDepth(p, stack, n, i, |stack| - 1);
      CycleTooDeep(p, stack, n - d, i);
    }
  }
}
