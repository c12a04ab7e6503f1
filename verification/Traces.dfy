// Who performed an event, and how often: the record of a run against the bodies that ran.
module Traces {
  import opened Basics
  import opened Engine
  import opened EngineProofs
  import opened Contracts

  /** Some run of the body of s performs e. */
  ghost predicate Performs<S(!new), E(!new), O(!new)>(p: Program<S, E, O>, s: S, e: E) {
    exists h :: p.act(s, h) == Work(e)
  }

  /** Every event of the log was performed by a step whose body has begun. */
  ghost predicate Traced<S(!new), E(!new), O(!new)>(p: Program<S, E, O>, ran: seq<S>, log: seq<E>) {
    forall e :: e in log ==> exists s :: s in ran && Performs(p, s, e)
  }

  /** The effects performed on the way to the replies h. */
  ghost function Works<S(!new), E(!new), O(!new)>(p: Program<S, E, O>, s: S, h: seq<Reply<O>>): set<E>
    decreases |h|
  {
    if h == [] then {}
    else
      var a := p.act(s, h[..|h| - 1]);
      Works(p, s, h[..|h| - 1]) + if a.Work? then {a.event} else {}
  }

  /** The events singled out are performed by one step only, and there not twice in one run of its body. */
  ghost predicate Single<S(!new), E(!new), O(!new)>(p: Program<S, E, O>, once: E -> bool) {
    && (forall s, s', e :: Performs(p, s, e) && Performs(p, s', e) && once(e) ==> s == s')
    && (forall s, h :: s in p.universe && p.act(s, h).Work? && once(p.act(s, h).event) ==>
          p.act(s, h).event !in Works(p, s, h))
  }

  ghost predicate NoRepeats<E(!new)>(once: E -> bool, log: seq<E>) {
    forall i, j :: 0 <= i < j < |log| && once(log[i]) ==> log[i] != log[j]
  }

  ghost predicate Clean<S(!new), E(!new), O(!new)>(p: Program<S, E, O>, once: E -> bool, st: State<S, E, O>) {
    Traced(p, st.ran, st.log) && NoRepeats(once, st.log)
  }

  /** The events of step s singled out, as far as performed, are those of its replies h. */
  ghost predicate Mine<S(!new), E(!new), O(!new)>(p: Program<S, E, O>, once: E -> bool, s: S, h: seq<Reply<O>>, log: seq<E>) {
    forall e :: e in log && once(e) && Performs(p, s, e) ==> e in Works(p, s, h)
  }

  /** What a request adds to the record: events of steps whose bodies it began. */
  ghost predicate Adds<S(!new), E(!new), O(!new)>(p: Program<S, E, O>, st: State<S, E, O>, st': State<S, E, O>) {
    && st.ran <= st'.ran && st.log <= st'.log
    && forall e :: e in st'.log[|st.log|..] ==> exists x :: x in st'.ran[|st.ran|..] && Performs(p, x, e)
  }

  /** A step of s with the running step s itself counted among those begun. */
  ghost predicate AddsFor<S(!new), E(!new), O(!new)>(p: Program<S, E, O>, s: S, st: State<S, E, O>, st': State<S, E, O>) {
    && st.ran <= st'.ran && st.log <= st'.log
    && forall e :: e in st'.log[|st.log|..] ==> Performs(p, s, e) || exists x :: x in st'.ran[|st.ran|..] && Performs(p, x, e)
  }

  lemma AddsForJoin<S(!new), E(!new), O(!new)>(p: Program<S, E, O>, s: S, a: State<S, E, O>, b: State<S, E, O>, c: State<S, E, O>)
    requires AddsFor(p, s, a, b) && AddsFor(p, s, b, c)
    ensures AddsFor(p, s, a, c)
  {
    assert c.log[|a.log|..] == b.log[|a.log|..] + c.log[|b.log|..];
    assert c.ran[|a.ran|..] == b.ran[|a.ran|..] + c.ran[|b.ran|..];
    forall e | e in c.log[|a.log|..]
      ensures Performs(p, s, e) || exists x :: x in c.ran[|a.ran|..] && Performs(p, x, e)
    {
      if !Performs(p, s, e) {
        if e in b.log[|a.log|..] {
          var x :| x in b.ran[|a.ran|..] && Performs(p, x, e);
          assert x in c.ran[|a.ran|..];
        } else {
          var x :| x in c.ran[|b.ran|..] && Performs(p, x, e);
          assert x in c.ran[|a.ran|..];
        }
      }
    }
  }

  lemma AddsIsAddsFor<S(!new), E(!new), O(!new)>(p: Program<S, E, O>, s: S, st: State<S, E, O>, st': State<S, E, O>)
    requires Adds(p, st, st')
    ensures AddsFor(p, s, st, st')
  {
  }

  /** Nothing that another step adds is an event of s singled out: s is in progress and not begun again. */
  lemma MineKept<S(!new), E(!new), O(!new)>(p: Program<S, E, O>, once: E -> bool, s: S, h: seq<Reply<O>>, st: State<S, E, O>, st': State<S, E, O>)
    requires Single(p, once) && Mine(p, once, s, h, st.log)
    requires Adds(p, st, st') && st.ran <= st'.ran && s in st.ran && NoDuplicates(st'.ran)
    ensures Mine(p, once, s, h, st'.log)
  {
    NotBegunAgain(st.ran, st'.ran, s);
    hide Adds;
    forall e | e in st'.log && once(e) && Performs(p, s, e) ensures e in Works(p, s, h) {
      if e !in st.log {
        var x := AddedBy(p, st, st', e);
      }
    }
  }

  lemma AddedBy<S(!new), E(!new), O(!new)>(p: Program<S, E, O>, st: State<S, E, O>, st': State<S, E, O>, e: E) returns (x: S)
    requires Adds(p, st, st') && e in st'.log && e !in st.log
    ensures st.ran <= st'.ran && x in st'.ran[|st.ran|..] && Performs(p, x, e)
  {
    assert st'.log == st.log + st'.log[|st.log|..];
    assert e in st'.log[|st.log|..];
    x :| x in st'.ran[|st.ran|..] && Performs(p, x, e);
  }

  lemma NotBegunAgain<S>(ran: seq<S>, ran': seq<S>, s: S)
    requires ran <= ran' && NoDuplicates(ran') && s in ran
    ensures s !in ran'[|ran|..]
  {
    var i :| 0 <= i < |ran| && ran[i] == s;
    assert ran'[i] == s;
  }

  lemma MineReply<S(!new), E(!new), O(!new)>(p: Program<S, E, O>, once: E -> bool, s: S, h: seq<Reply<O>>, r: Reply<O>, log: seq<E>)
    requires Mine(p, once, s, h, log)
    ensures Mine(p, once, s, h + [r], log)
  {
    assert (h + [r])[..|h|] == h;
  }

  lemma MineWork<S(!new), E(!new), O(!new)>(p: Program<S, E, O>, once: E -> bool, s: S, h: seq<Reply<O>>, log: seq<E>)
    requires Mine(p, once, s, h, log) && p.act(s, h).Work?
    ensures Mine(p, once, s, h + [Ack], log + [p.act(s, h).event])
  {
    assert (h + [Ack])[..|h|] == h;
  }

  lemma NoRepeatsMore<S(!new), E(!new), O(!new)>(p: Program<S, E, O>, once: E -> bool, s: S, h: seq<Reply<O>>, log: seq<E>)
    requires s in p.universe && Single(p, once) && Mine(p, once, s, h, log) && NoRepeats(once, log) && p.act(s, h).Work?
    ensures NoRepeats(once, log + [p.act(s, h).event])
  {
    var e := p.act(s, h).event;
    assert Performs(p, s, e);
    assert once(e) ==> e !in log;
  }

  // ---------------------------------------------------------------------------------------------

  /** A request adds only events of the bodies it begins, and repeats none of those singled out. */
  lemma {:induction false} EnsureTraces<S(!new), E(!new), O(!new)>(p: Program<S, E, O>, once: E -> bool, st: State<S, E, O>, s: S)
    requires WellFormed(p) && s in p.universe && Single(p, once)
    requires Valid(p, st) && Askable(p, st, s) && Clean(p, once, st)
    ensures Clean(p, once, Ensure(p, st, s).1) && Adds(p, st, Ensure(p, st, s).1)
    decreases |p.universe - Elems(st.stack)|, 0
  {
    if s !in st.stack && s !in st.cache {
      EnsureUnfolds(p, st, s);
      PushShrinks(p.universe, st.stack, s);
      FreshMine(p, once, st, s);
      hide Ensure, Valid, Askable, Single, InProgress, Clean, WellFormed, Mine;
      RunTraces(p, once, Push(st, s), s, []);
      var (r, st2) := Run(p, Push(st, s), s, []);
      PopTraces(p, once, st, st2, s, r);
    }
  }

  lemma FreshMine<S(!new), E(!new), O(!new)>(p: Program<S, E, O>, once: E -> bool, st: State<S, E, O>, s: S)
    requires Single(p, once) && ValidRan(st) && Clean(p, once, st) && s !in st.stack && s !in st.cache
    ensures Mine(p, once, s, [], st.log) && Clean(p, once, Push(st, s))
  {
    forall e | e in st.log && once(e) ensures !Performs(p, s, e) {
      var x :| x in st.ran && Performs(p, x, e);
    }
    assert forall x :: x in st.ran ==> x in Push(st, s).ran;
  }

  lemma PopTraces<S(!new), E(!new), O(!new)>(p: Program<S, E, O>, once: E -> bool, st: State<S, E, O>, st2: State<S, E, O>, s: S, r: Outcome<O>)
    requires AddsFor(p, s, Push(st, s), st2) && Clean(p, once, st2) && (r.Done? ==> st2.stack != [])
    ensures Adds(p, st, st2)
    ensures r.Done? ==> Clean(p, once, Pop(st2, s, r.out)) && Adds(p, st, Pop(st2, s, r.out))
  {
    assert st2.ran[|st.ran|] == s;
    forall e | e in st2.log[|st.log|..] ensures exists x :: x in st2.ran[|st.ran|..] && Performs(p, x, e) {
      if Performs(p, s, e) {
        assert s in st2.ran[|st.ran|..];
      } else {
        var x :| x in st2.ran[|Push(st, s).ran|..] && Performs(p, x, e);
        assert x in st2.ran[|st.ran|..];
      }
    }
  }

  lemma {:induction false} RunTraces<S(!new), E(!new), O(!new)>(p: Program<S, E, O>, once: E -> bool, st: State<S, E, O>, s: S,
                                                          h: seq<Reply<O>>)
    requires WellFormed(p) && s in p.universe && Single(p, once)
    requires InProgress(p, st, s, h) && Clean(p, once, st) && Mine(p, once, s, h, st.log)
    ensures Clean(p, once, Run(p, st, s, h).1) && AddsFor(p, s, st, Run(p, st, s, h).1)
    decreases |p.universe - Elems(st.stack)|, 1, p.bound(s) - |h|
  {
    match p.act(s, h)
    case Work(e) =>
      var st1 := st.(log := st.log + [e]);
      assert Run(p, st, s, h) == Run(p, st1, s, h + [Ack]);
      WorkTraces(p, once, st, s, h);
      hide Run, InProgress, Single, Clean, Mine, AddsFor;
      RunTraces(p, once, st1, s, h + [Ack]);
      AddsForJoin(p, s, st, st1, Run(p, st1, s, h + [Ack]).1);
    case Need(d) =>
      RunNeedTraces(p, once, st, s, h, d);
    case _ =>
  }

  lemma WorkTraces<S(!new), E(!new), O(!new)>(p: Program<S, E, O>, once: E -> bool, st: State<S, E, O>, s: S, h: seq<Reply<O>>)
    requires WellFormed(p) && s in p.universe && Single(p, once) && p.act(s, h).Work?
    requires InProgress(p, st, s, h) && Clean(p, once, st) && Mine(p, once, s, h, st.log)
    ensures var st1 := st.(log := st.log + [p.act(s, h).event]);
      InProgress(p, st1, s, h + [Ack]) && Clean(p, once, st1) && Mine(p, once, s, h + [Ack], st1.log) && AddsFor(p, s, st, st1)
  {
    var e := p.act(s, h).event;
    LogValid(p, st, e);
    NoRepeatsMore(p, once, s, h, st.log);
    MineWork(p, once, s, h, st.log);
    assert Performs(p, s, e);
    assert s in st.stack && s in st.ran;
    assert forall d :: Asks(p, s, h, d) <==> Asks(p, s, h + [Ack], d);
  }

  lemma {:induction false} RunNeedTraces<S(!new), E(!new), O(!new)>(p: Program<S, E, O>, once: E -> bool, st: State<S, E, O>, s: S,
                                                              h: seq<Reply<O>>, d: S)
    requires WellFormed(p) && s in p.universe && Single(p, once) && p.act(s, h) == Need(d)
    requires InProgress(p, st, s, h) && Clean(p, once, st) && Mine(p, once, s, h, st.log)
    ensures Clean(p, once, Run(p, st, s, h).1) && AddsFor(p, s, st, Run(p, st, s, h).1)
    decreases |p.universe - Elems(st.stack)|, 1, p.bound(s) - |h|, 0
  {
    RunStep(p, st, s, h);
    EnsureCorrect(p, st, d);
    var (r1, st1) := Ensure(p, st, d);
    assert s in st.stack && s in st.ran && st.ran <= st1.ran && NoDuplicates(st1.ran);
    hide Run, Ensure, Single, Clean, Mine, Adds, AddsFor, Asks, Valid, Yields, InProgress, Askable;
    EnsureTraces(p, once, st, d);
    AddsIsAddsFor(p, s, st, st1);
    MineKept(p, once, s, h, st, st1);
    if r1.Done? {
      MineReply(p, once, s, h, Got(r1.out), st1.log);
      RunTraces(p, once, st1, s, h + [Got(r1.out)]);
      AddsForJoin(p, s, st, st1, Run(p, st1, s, h + [Got(r1.out)]).1);
    }
  }

  /** A whole session adds only events of the bodies it begins, and repeats none of those singled out. */
  lemma {:induction false} ServeTraces<S(!new), E(!new), O(!new)>(p: Program<S, E, O>, once: E -> bool, st: State<S, E, O>,
                                                                  requests: seq<S>)
    requires WellFormed(p) && Single(p, once) && Valid(p, st) && st.stack == [] && Clean(p, once, st)
    requires forall s :: s in requests ==> s in p.universe
    ensures Clean(p, once, Serve(p, st, requests))
    decreases |requests|
  {
    hide Valid, Clean, Single, Ensure, Yields, Crashes, Diverges, Extends, Adds;
    if requests != [] {
      var s := requests[0];
      NothingAsked(p, st, s);
      EnsureTraces(p, once, st, s);
      EnsureCorrect(p, st, s);
      var (r, st1) := Ensure(p, st, s);
      if r.Done? {
        ServeTraces(p, once, st1, requests[1..]);
      }
    }
  }
}
