// Memoisation refines plain recursion: what Builder::ensure keeps, returns and panics on.
module EngineProofs {
  import opened Basics
  import opened Engine

  /** The stack is a duplicate-free dependency path, disjoint from the cache. */
  ghost predicate ValidStack<S(!new), E, O(!new)>(p: Program<S, E, O>, st: State<S, E, O>)
    requires WellFormed(p)
  {
    && Chain(p, st.stack)
    && NoDuplicates(st.stack)
    && (forall s :: s in st.stack ==> s !in st.cache)
  }

  /** The cache holds true outputs, and with a step all its dependencies. */
  ghost predicate ValidCache<S(!new), E, O(!new)>(p: Program<S, E, O>, cache: map<S, O>)
    requires WellFormed(p)
  {
    && (forall s :: s in cache ==> s in p.universe && Yields(p, s, cache[s]))
    && (forall s, d :: s in cache && Asks(p, s, [], d) ==> d in cache)
  }

  /** Every body begun belongs to a step cached or in progress, and none was begun twice. */
  ghost predicate ValidRan<S(!new), E, O(!new)>(st: State<S, E, O>) {
    && NoDuplicates(st.ran)
    && (forall s :: s in st.ran <==> s in st.cache || s in st.stack)
  }

  ghost predicate Valid<S(!new), E, O(!new)>(p: Program<S, E, O>, st: State<S, E, O>)
    requires WellFormed(p)
  {
    ValidStack(p, st) && ValidCache(p, st.cache) && ValidRan(st)
  }

  /** Nothing is forgotten: the cache is written once, the records only grow. */
  ghost predicate Extends<S(!new), E, O>(st: State<S, E, O>, st': State<S, E, O>) {
    && (forall s :: s in st.cache ==> s in st'.cache && st'.cache[s] == st.cache[s])
    && st.ran <= st'.ran
    && st.log <= st'.log
  }

  /** s may be asked for: nothing is in progress, or the body on top of the stack asks for it. */
  ghost predicate Askable<S(!new), E, O(!new)>(p: Program<S, E, O>, st: State<S, E, O>, s: S)
    requires WellFormed(p)
  {
    st.stack != [] ==> st.stack[|st.stack| - 1] in p.universe && Asks(p, st.stack[|st.stack| - 1], [], s)
  }

  // ---------------------------------------------------------------------------------------------
  // The fates of a body under plain recursion, from the point where its replies are h.

  ghost predicate RunYields<S(!new), E, O(!new)>(p: Program<S, E, O>, s: S, h: seq<Reply<O>>, o: O)
    requires WellFormed(p) && s in p.universe
  {
    exists n: nat :: PlainRun(p, n, s, h) == Value(o)
  }

  ghost predicate RunCrashes<S(!new), E, O(!new)>(p: Program<S, E, O>, s: S, h: seq<Reply<O>>)
    requires WellFormed(p) && s in p.universe
  {
    exists n: nat :: PlainRun(p, n, s, h) == Crash
  }

  ghost predicate RunDiverges<S(!new), E, O(!new)>(p: Program<S, E, O>, s: S, h: seq<Reply<O>>)
    requires WellFormed(p) && s in p.universe
  {
    forall n: nat :: PlainRun(p, n, s, h) == TooDeep
  }

  /** A step has the fate of its body. */
  lemma StepFate<S(!new), E, O(!new)>(p: Program<S, E, O>, s: S)
    requires WellFormed(p) && s in p.universe
    ensures forall o :: RunYields(p, s, [], o) ==> Yields(p, s, o)
    ensures RunCrashes(p, s, []) ==> Crashes(p, s)
    ensures RunDiverges(p, s, []) ==> Diverges(p, s)
  {
    forall o | RunYields(p, s, [], o) ensures Yields(p, s, o) {
      var n: nat :| PlainRun(p, n, s, []) == Value(o);
      assert Plain(p, n + 1, s) == Value(o);
    }
    if RunCrashes(p, s, []) {
      var n: nat :| PlainRun(p, n, s, []) == Crash;
      assert Plain(p, n + 1, s) == Crash;
    }
    if RunDiverges(p, s, []) {
      forall n: nat ensures Plain(p, n, s) == TooDeep {
        if n > 0 { assert PlainRun(p, n - 1, s, []) == TooDeep; }
      }
    }
  }

  /** A body that performs an effect, returns or aborts. */
  lemma ActFate<S(!new), E, O(!new)>(p: Program<S, E, O>, s: S, h: seq<Reply<O>>)
    requires WellFormed(p) && s in p.universe
    ensures p.act(s, h).Return? ==> RunYields(p, s, h, p.act(s, h).out)
    ensures p.act(s, h).Abort? ==> RunCrashes(p, s, h)
    ensures p.act(s, h).Work? ==> forall o :: RunYields(p, s, h + [Ack], o) ==> RunYields(p, s, h, o)
    ensures p.act(s, h).Work? && RunCrashes(p, s, h + [Ack]) ==> RunCrashes(p, s, h)
    ensures p.act(s, h).Work? && RunDiverges(p, s, h + [Ack]) ==> RunDiverges(p, s, h)
  {
    if p.act(s, h).Return? {
      assert PlainRun(p, 0, s, h) == Value(p.act(s, h).out);
    } else if p.act(s, h).Abort? {
      assert PlainRun(p, 0, s, h) == Crash;
    } else if p.act(s, h).Work? {
      assert forall n: nat :: PlainRun(p, n, s, h) == PlainRun(p, n, s, h + [Ack]);
    }
  }

  /** A body that asks for a step with a bad fate shares it. */
  lemma NeedFate<S(!new), E, O(!new)>(p: Program<S, E, O>, s: S, h: seq<Reply<O>>, d: S)
    requires WellFormed(p) && s in p.universe && p.act(s, h) == Need(d)
    ensures Crashes(p, d) ==> RunCrashes(p, s, h)
    ensures Diverges(p, d) ==> RunDiverges(p, s, h)
  {
    if Crashes(p, d) {
      var n: nat :| Plain(p, n, d) == Crash;
      assert PlainRun(p, n, s, h) == Crash;
    }
    if Diverges(p, d) {
      forall n: nat ensures PlainRun(p, n, s, h) == TooDeep {
        assert Plain(p, n, d) == TooDeep;
      }
    }
  }

  /** At a depth where both are finite, a body goes on after a dependency with output o as with that reply. */
  lemma NeedDepth<S(!new), E, O(!new)>(p: Program<S, E, O>, s: S, h: seq<Reply<O>>, d: S, o: O, n: nat) returns (k: nat)
    requires WellFormed(p) && s in p.universe && p.act(s, h) == Need(d) && Yields(p, d, o)
    requires PlainRun(p, n, s, h + [Got(o)]) != TooDeep
    ensures PlainRun(p, k, s, h) == PlainRun(p, n, s, h + [Got(o)])
  {
    var m: nat :| Plain(p, m, d) == Value(o);
    k := if m < n then n else m;
    PlainDeeper(p, m, k, d);
    PlainRunDeeper(p, n, k, s, h + [Got(o)]);
  }

  /** A body that asks for a step with output o has the fate of its rest with that reply. */
  lemma NeedGotFate<S(!new), E, O(!new)>(p: Program<S, E, O>, s: S, h: seq<Reply<O>>, d: S, o: O)
    requires WellFormed(p) && s in p.universe && p.act(s, h) == Need(d) && Yields(p, d, o)
    ensures forall v :: RunYields(p, s, h + [Got(o)], v) ==> RunYields(p, s, h, v)
    ensures RunCrashes(p, s, h + [Got(o)]) ==> RunCrashes(p, s, h)
    ensures RunDiverges(p, s, h + [Got(o)]) ==> RunDiverges(p, s, h)
  {
    var h' := h + [Got(o)];
    forall v | RunYields(p, s, h', v) ensures RunYields(p, s, h, v) {
      var n: nat :| PlainRun(p, n, s, h') == Value(v);
      var k := NeedDepth(p, s, h, d, o, n);
    }
    if RunCrashes(p, s, h') {
      var n: nat :| PlainRun(p, n, s, h') == Crash;
      var k := NeedDepth(p, s, h, d, o, n);
    }
    if RunDiverges(p, s, h') {
      forall n: nat ensures PlainRun(p, n, s, h) == TooDeep {
        OneFate(p, d);
        var v := Plain(p, n, d);
        assert v.Value? ==> Yields(p, d, v.out);
        assert PlainRun(p, n, s, h') == TooDeep;
      }
    }
  }

  // ---------------------------------------------------------------------------------------------
  // One call of ensure.

  /** From any reachable state: whatever happens, the state stays valid and nothing cached or performed is forgotten;
      ensure returns what plain recursion returns and caches it with all its dependencies; it panics with a cycle only
      where plain recursion never ends, and with a step's own panic only where plain recursion meets that panic. */
  lemma {:induction false} EnsureCorrect<S(!new), E, O(!new)>(p: Program<S, E, O>, st: State<S, E, O>, s: S)
    requires WellFormed(p) && s in p.universe && Valid(p, st) && Askable(p, st, s)
    ensures var (r, st') := Ensure(p, st, s);
      && Valid(p, st') && Extends(st, st')
      && match r
      case Done(o) => st'.stack == st.stack && s in st'.cache && st'.cache[s] == o && Yields(p, s, o)
      case CycleDetected => Diverges(p, s)
      case StepAborted => Crashes(p, s)
    decreases |p.universe - Elems(st.stack)|, 0
  {
    hide Yields, Crashes, Diverges, RunYields, RunCrashes, RunDiverges, Asks, Valid, Askable, Extends;
    ExtendsReflexive(st);
    if s in st.stack {
      BusyDiverges(p, st, s);
    } else if s in st.cache {
      CachedYields(p, st, s);
    } else {
      PushShrinks(p.universe, st.stack, s);
      PushValid(p, st, s);
      RunCorrect(p, Push(st, s), s, []);
      StepFate(p, s);
      assert RunMeans(p, Push(st, s), s, [], Run(p, Push(st, s), s, []).0, Run(p, Push(st, s), s, []).1);
      var (r, st2) := Run(p, Push(st, s), s, []);
      assert Ensure(p, st, s) == if r.Done? then (r, Pop(st2, s, r.out)) else (r, st2);
      hide Run, Ensure;
      PushExtends(st, s, st2);
      if r.Done? {
        PopCorrect(p, st, st2, s, r.out);
      }
    }
  }

  lemma ExtendsReflexive<S(!new), E, O>(st: State<S, E, O>)
    ensures Extends(st, st)
  {
  }

  lemma PushExtends<S(!new), E, O>(st: State<S, E, O>, s: S, st': State<S, E, O>)
    requires Extends(Push(st, s), st')
    ensures Extends(st, st')
  {
  }

  lemma CachedYields<S(!new), E, O(!new)>(p: Program<S, E, O>, st: State<S, E, O>, s: S)
    requires WellFormed(p) && s in p.universe && Valid(p, st) && s in st.cache
    ensures Yields(p, s, st.cache[s])
  {
  }

  lemma LogValid<S(!new), E, O(!new)>(p: Program<S, E, O>, st: State<S, E, O>, e: E)
    requires WellFormed(p) && Valid(p, st)
    ensures Valid(p, st.(log := st.log + [e])) && Extends(st, st.(log := st.log + [e]))
  {
  }

  /** A step that the body on top of the stack asks for may be asked for. */
  lemma TopMayAsk<S(!new), E, O(!new)>(p: Program<S, E, O>, st: State<S, E, O>, d: S)
    requires WellFormed(p) && Valid(p, st) && st.stack != []
    requires st.stack[|st.stack| - 1] in p.universe && Asks(p, st.stack[|st.stack| - 1], [], d)
    ensures Askable(p, st, d)
  {
  }

  lemma PopCorrect<S(!new), E, O(!new)>(p: Program<S, E, O>, st: State<S, E, O>, st2: State<S, E, O>, s: S, o: O)
    requires WellFormed(p) && s in p.universe && Valid(p, st2) && Extends(Push(st, s), st2) && st2.stack == Push(st, s).stack
    requires Yields(p, s, o) && (forall d :: Asks(p, s, [], d) ==> d in st2.cache)
    ensures var st' := Pop(st2, s, o);
      Valid(p, st') && Extends(st, st') && st'.stack == st.stack && s in st'.cache && st'.cache[s] == o
  {
    PopValid(p, st2, s, o);
    hide Yields, Asks, NoDuplicates, Chain;
    assert s in st2.stack;
    assert (st.stack + [s])[..|st.stack|] == st.stack;
  }

  /** Asking for a step in progress closes a cycle. */
  lemma BusyDiverges<S(!new), E, O(!new)>(p: Program<S, E, O>, st: State<S, E, O>, s: S)
    requires WellFormed(p) && Valid(p, st) && Askable(p, st, s) && s in st.stack
    ensures Diverges(p, s)
  {
    var stack := st.stack;
    var i :| 0 <= i < |stack| && stack[i] == s;
    var cycle := stack + [s];
    forall n: nat ensures Plain(p, n, s) == TooDeep {
      CycleTooDeep(p, cycle, n, i);
    }
  }

  lemma PushValid<S(!new), E, O(!new)>(p: Program<S, E, O>, st: State<S, E, O>, s: S)
    requires WellFormed(p) && s in p.universe && Valid(p, st) && Askable(p, st, s)
    requires s !in st.stack && s !in st.cache
    ensures Valid(p, Push(st, s))
  {
    hide Yields, Asks;
  }

  lemma PopValid<S(!new), E, O(!new)>(p: Program<S, E, O>, st: State<S, E, O>, s: S, o: O)
    requires WellFormed(p) && Valid(p, st) && st.stack != [] && st.stack[|st.stack| - 1] == s
    requires Yields(p, s, o)
    requires forall d :: Asks(p, s, [], d) ==> d in st.cache
    ensures Valid(p, Pop(st, s, o))
  {
    hide Yields, Asks;
    var st' := Pop(st, s, o);
    assert forall x :: x in st.stack <==> x in st'.stack || x == s;
    assert s !in st'.stack;
  }

  lemma ExtendsTransitive<S(!new), E, O>(a: State<S, E, O>, b: State<S, E, O>, c: State<S, E, O>)
    requires Extends(a, b) && Extends(b, c)
    ensures Extends(a, c)
  {
  }

  /** The same for the rest of a body in progress. */
  ghost predicate RunMeans<S(!new), E, O(!new)>(p: Program<S, E, O>, st: State<S, E, O>, s: S, h: seq<Reply<O>>,
                                                r: Outcome<O>, st': State<S, E, O>)
    requires WellFormed(p) && s in p.universe
  {
    && Valid(p, st') && Extends(st, st')
    && match r
       case Done(o) => st'.stack == st.stack && RunYields(p, s, h, o) && forall d :: Asks(p, s, h, d) ==> d in st'.cache
       case CycleDetected => RunDiverges(p, s, h)
       case StepAborted => RunCrashes(p, s, h)
  }

  ghost predicate InProgress<S(!new), E, O(!new)>(p: Program<S, E, O>, st: State<S, E, O>, s: S, h: seq<Reply<O>>)
    requires WellFormed(p) && s in p.universe
  {
    && Valid(p, st) && st.stack != [] && st.stack[|st.stack| - 1] == s
    && forall d :: Asks(p, s, h, d) ==> Asks(p, s, [], d)
  }

  lemma {:induction false} RunCorrect<S(!new), E, O(!new)>(p: Program<S, E, O>, st: State<S, E, O>, s: S, h: seq<Reply<O>>)
    requires WellFormed(p) && s in p.universe && InProgress(p, st, s, h)
    ensures RunMeans(p, st, s, h, Run(p, st, s, h).0, Run(p, st, s, h).1)
    decreases |p.universe - Elems(st.stack)|, 1, p.bound(s) - |h|, 1
  {
    match p.act(s, h)
    case Work(e) =>
      var st1 := st.(log := st.log + [e]);
      LogValid(p, st, e);
      RunCorrect(p, st1, s, h + [Ack]);
      WorkMeans(p, st, s, h);
    case Need(d) =>
      RunNeedCorrect(p, st, s, h, d);
    case _ =>
      ActFate(p, s, h);
  }

  lemma WorkMeans<S(!new), E, O(!new)>(p: Program<S, E, O>, st: State<S, E, O>, s: S, h: seq<Reply<O>>)
    requires WellFormed(p) && s in p.universe && p.act(s, h).Work?
    requires var st1 := st.(log := st.log + [p.act(s, h).event]);
      var (r, st') := Run(p, st1, s, h + [Ack]); RunMeans(p, st1, s, h + [Ack], r, st')
    ensures RunMeans(p, st, s, h, Run(p, st, s, h).0, Run(p, st, s, h).1)
  {
    ActFate(p, s, h);
    var st1 := st.(log := st.log + [p.act(s, h).event]);
    assert Run(p, st, s, h) == Run(p, st1, s, h + [Ack]);
    assert forall d :: Asks(p, s, h, d) <==> Asks(p, s, h + [Ack], d);
    hide Run, Valid, RunYields, RunCrashes, RunDiverges;
  }

  lemma {:induction false} RunNeedCorrect<S(!new), E, O(!new)>(p: Program<S, E, O>, st: State<S, E, O>, s: S,
                                                               h: seq<Reply<O>>, d: S)
    requires WellFormed(p) && s in p.universe && InProgress(p, st, s, h) && p.act(s, h) == Need(d)
    ensures RunMeans(p, st, s, h, Run(p, st, s, h).0, Run(p, st, s, h).1)
    decreases |p.universe - Elems(st.stack)|, 1, p.bound(s) - |h|, 0
  {
    assert Asks(p, s, h, d);
    TopMayAsk(p, st, d);
    EnsureCorrect(p, st, d);
    NeedFate(p, s, h, d);
    var (r1, st1) := Ensure(p, st, d);
    assert Run(p, st, s, h) == if r1.Done? then Run(p, st1, s, h + [Got(r1.out)]) else (r1, st1);
    hide Run, Ensure, Asks, Valid, Extends, Yields, Crashes, Diverges, RunYields, RunCrashes, RunDiverges;
    if r1.Done? {
      NeedRest(p, s, h, d, r1.out);
      RunCorrect(p, st1, s, h + [Got(r1.out)]);
      var (r, st') := Run(p, st1, s, h + [Got(r1.out)]);
      NeedMeans(p, st, st1, s, h, d, r1.out, r, st');
    }
  }

  /** What the rest of the body means after a dependency, the whole means before it. */
  lemma NeedMeans<S(!new), E, O(!new)>(p: Program<S, E, O>, st: State<S, E, O>, st1: State<S, E, O>, s: S, h: seq<Reply<O>>,
                                       d: S, o: O, r: Outcome<O>, st': State<S, E, O>)
    requires WellFormed(p) && s in p.universe && p.act(s, h) == Need(d) && Yields(p, d, o)
    requires Extends(st, st1) && st1.stack == st.stack && d in st1.cache
    requires RunMeans(p, st1, s, h + [Got(o)], r, st')
    ensures RunMeans(p, st, s, h, r, st')
  {
    NeedGotFate(p, s, h, d, o);
    NeedRest(p, s, h, d, o);
    ExtendsTransitive(st, st1, st');
    KeptKey(st1, st', d);
    hide Asks, Valid, Extends, Yields, RunYields, RunCrashes, RunDiverges;
  }

  lemma KeptKey<S(!new), E, O>(st: State<S, E, O>, st': State<S, E, O>, d: S)
    requires Extends(st, st') && d in st.cache
    ensures d in st'.cache
  {
  }

  lemma NeedRest<S(!new), E, O(!new)>(p: Program<S, E, O>, s: S, h: seq<Reply<O>>, d: S, o: O)
    requires WellFormed(p) && s in p.universe && p.act(s, h) == Need(d) && Yields(p, d, o)
    ensures forall d' :: Asks(p, s, h, d') <==> d' == d || Asks(p, s, h + [Got(o)], d')
  {
    OneFate(p, d);
  }

  /** The branch of ensure that runs the body: it is entered with the step in progress and left with it not cached. */
  lemma EnsureUnfolds<S(!new), E, O(!new)>(p: Program<S, E, O>, st: State<S, E, O>, s: S)
    requires WellFormed(p) && s in p.universe && Valid(p, st) && Askable(p, st, s) && s !in st.stack && s !in st.cache
    ensures InProgress(p, Push(st, s), s, [])
    ensures var (r, st') := Run(p, Push(st, s), s, []);
      && Ensure(p, st, s) == (if r.Done? then (r, Pop(st', s, r.out)) else (r, st'))
      && (r.Done? ==> s !in st'.cache)
  {
    PushValid(p, st, s);
    PushShrinks(p.universe, st.stack, s);
    RunCorrect(p, Push(st, s), s, []);
    assert s in Push(st, s).stack;
  }

  /** One round of a body in progress that asks for a step. */
  lemma RunNeedStep<S(!new), E, O(!new)>(p: Program<S, E, O>, st: State<S, E, O>, s: S, h: seq<Reply<O>>, d: S)
    requires WellFormed(p) && s in p.universe && InProgress(p, st, s, h) && p.act(s, h) == Need(d)
    ensures |h| < p.bound(s) && d in p.universe && Valid(p, st) && Askable(p, st, d)
    ensures var (r, st1) := Ensure(p, st, d);
      && (r.Done? ==> InProgress(p, st1, s, h + [Got(r.out)]) && st1.stack == st.stack && Yields(p, d, r.out) && Extends(st, st1))
      && Run(p, st, s, h) == if r.Done? then Run(p, st1, s, h + [Got(r.out)]) else (r, st1)
  {
    assert Asks(p, s, h, d);
    TopMayAsk(p, st, d);
    EnsureCorrect(p, st, d);
    var (r, st1) := Ensure(p, st, d);
    if r.Done? {
      NeedRest(p, s, h, d, r.out);
    }
  }

  /** One round of a body in progress. */
  lemma RunStep<S(!new), E, O(!new)>(p: Program<S, E, O>, st: State<S, E, O>, s: S, h: seq<Reply<O>>)
    requires WellFormed(p) && s in p.universe && InProgress(p, st, s, h)
    ensures var a := p.act(s, h);
      && (a.Return? ==> Run(p, st, s, h) == (Done(a.out), st))
      && (a.Abort? ==> Run(p, st, s, h) == (StepAborted, st))
      && (a.Work? || a.Need? ==> |h| < p.bound(s))
      && (a.Work? ==> Run(p, st, s, h) == Run(p, st.(log := st.log + [a.event]), s, h + [Ack])
                      && InProgress(p, st.(log := st.log + [a.event]), s, h + [Ack]))
      && (a.Need? ==> a.dep in p.universe && Valid(p, st) && Askable(p, st, a.dep))
    ensures p.act(s, h).Need? ==>
              var (r, st1) := Ensure(p, st, p.act(s, h).dep);
              && (r.Done? ==> InProgress(p, st1, s, h + [Got(r.out)]) && st1.stack == st.stack
                              && Yields(p, p.act(s, h).dep, r.out) && Extends(st, st1))
              && Run(p, st, s, h) == if r.Done? then Run(p, st1, s, h + [Got(r.out)]) else (r, st1)
  {
    if p.act(s, h).Need? {
      hide Ensure, Run, Valid, Askable, InProgress, Yields, Extends;
      RunNeedStep(p, st, s, h, p.act(s, h).dep);
    } else if p.act(s, h).Work? {
      LogValid(p, st, p.act(s, h).event);
    }
  }

  /** What the first request of a body adds to the log, the body adds. */
  lemma FirstRequestLogs<S(!new), E, O(!new)>(p: Program<S, E, O>, st: State<S, E, O>, s: S, d: S)
    requires WellFormed(p) && s in p.universe && Valid(p, st) && Askable(p, st, s) && s !in st.stack && s !in st.cache
    requires p.act(s, []) == Need(d)
    ensures d in p.universe && Valid(p, Push(st, s)) && Askable(p, Push(st, s), d)
    ensures Ensure(p, Push(st, s), d).1.log <= Ensure(p, st, s).1.log
  {
    EnsureUnfolds(p, st, s);
    RunStep(p, Push(st, s), s, []);
    hide Ensure, Run, Valid, Askable, InProgress, Yields;
    var (r1, st1) := Ensure(p, Push(st, s), d);
    if r1.Done? {
      var h := [] + [Got(r1.out)];
      RunCorrect(p, st1, s, h);
      assert RunMeans(p, st1, s, h, Run(p, st1, s, h).0, Run(p, st1, s, h).1);
    }
  }

  // ---------------------------------------------------------------------------------------------
  // The theorems about whole requests.

  /** An empty builder. */
  function Fresh<S, E, O>(): State<S, E, O> {
    State([], map[], [], [])
  }

  lemma FreshIsValid<S(!new), E, O(!new)>(p: Program<S, E, O>)
    requires WellFormed(p)
    ensures Valid(p, Fresh())
  {
  }

  /** Memoised evaluation agrees with plain recursion in every case: it returns o exactly when plain recursion yields o,
      reports a cycle exactly when plain recursion never ends, and dies of a step's panic exactly when plain recursion
      does. No cached answer, and no order of earlier requests, makes a difference. */
  lemma EnsureRefinesPlain<S(!new), E, O(!new)>(p: Program<S, E, O>, st: State<S, E, O>, s: S)
    requires WellFormed(p) && s in p.universe && Valid(p, st) && Askable(p, st, s)
    ensures forall o :: Ensure(p, st, s).0 == Done(o) <==> Yields(p, s, o)
    ensures Ensure(p, st, s).0.CycleDetected? <==> Diverges(p, s)
    ensures Ensure(p, st, s).0.StepAborted? <==> Crashes(p, s)
  {
    EnsureCorrect(p, st, s);
    OneFate(p, s);
    hide Yields, Crashes, Diverges, Valid, Askable;
    match Ensure(p, st, s).0
    case Done(o) =>
    case CycleDetected =>
    case StepAborted =>
  }

  /** A whole session: requests served one after the other, up to the first panic. */
  ghost function Serve<S(!new), E, O(!new)>(p: Program<S, E, O>, st: State<S, E, O>, requests: seq<S>): State<S, E, O>
    requires WellFormed(p) && forall s :: s in requests ==> s in p.universe
    decreases |requests|
  {
    if requests == [] then st
    else
      var (r, st') := Ensure(p, st, requests[0]);
      if r.Done? then Serve(p, st', requests[1..]) else st'
  }

  /** Plain recursion yields an output for every request. */
  ghost predicate AllYield<S(!new), E, O(!new)>(p: Program<S, E, O>, requests: seq<S>)
    requires WellFormed(p)
  {
    forall s :: s in requests ==> s in p.universe && exists o :: Yields(p, s, o)
  }

  /** Over any sequence of requests at all, answered or not, the state stays valid: in particular no step body is begun
      twice, and the cache only ever holds the outputs of plain recursion. */
  lemma {:induction false} ServeValid<S(!new), E, O(!new)>(p: Program<S, E, O>, st: State<S, E, O>, requests: seq<S>)
    requires WellFormed(p) && Valid(p, st) && st.stack == [] && forall s :: s in requests ==> s in p.universe
    ensures Valid(p, Serve(p, st, requests)) && Extends(st, Serve(p, st, requests))
    decreases |requests|
  {
    if requests != [] {
      EnsureCorrect(p, st, requests[0]);
      var (r, st1) := Ensure(p, st, requests[0]);
      if r.Done? {
        ServeValid(p, st1, requests[1..]);
        ExtendsTransitive(st, st1, Serve(p, st1, requests[1..]));
      }
    }
  }

  /** Over any sequence of requests that plain recursion can answer: no panic, every request cached with its plain
      output, and no step body begun twice. */
  lemma {:induction false} ServeOnce<S(!new), E, O(!new)>(p: Program<S, E, O>, st: State<S, E, O>, requests: seq<S>)
    requires WellFormed(p) && Valid(p, st) && st.stack == [] && AllYield(p, requests)
    ensures var st' := Serve(p, st, requests);
      && Valid(p, st') && Extends(st, st') && st'.stack == [] && NoDuplicates(st'.ran)
      && forall s :: s in requests ==> s in st'.cache && Yields(p, s, st'.cache[s])
    decreases |requests|
  {
    if requests != [] {
      var s := requests[0];
      EnsureRefinesPlain(p, st, s);
      EnsureCorrect(p, st, s);
      var (r, st1) := Ensure(p, st, s);
      ServeOnce(p, st1, requests[1..]);
      ExtendsTransitive(st, st1, Serve(p, st1, requests[1..]));
      assert forall x :: x in requests ==> x == s || x in requests[1..];
    }
  }
}
