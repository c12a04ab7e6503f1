// Contracts for the effects of build steps. A table says which events must have happened before a step may be asked
// for, which have happened once it is done, and which each event itself relies on. When every body obeys the table,
// read locally, every run of the engine performs each event only after all the events it relies on.
module Contracts {
  import opened Engine
  import opened EngineProofs

  /** The steps the table speaks of, the events it promises, the outputs it allows, and a rank. */
  datatype Contract<!S, !E(==), !O> = Contract(
    admissible: S -> bool,
    before: S -> set<E>,
    after: S -> set<E>,
    reliesOn: E -> set<E>,
    output: (S, O) -> bool,
    rank: S -> nat)

  /** The replies h are of the kinds asked for, and the outputs among them allowed. */
  ghost predicate Plausible<S(!new), E, O(!new)>(p: Program<S, E, O>, k: Contract<S, E, O>, s: S, h: seq<Reply<O>>) {
    forall j :: 0 <= j < |h| ==>
      match p.act(s, h[..j])
      case Need(d) => h[j].Got? && k.output(d, h[j].out)
      case Work(_) => h[j] == Ack
      case _ => false
  }

  /** The events known to have happened when the body of s has had the replies h. */
  ghost function Facts<S(!new), E, O(!new)>(p: Program<S, E, O>, k: Contract<S, E, O>, s: S, h: seq<Reply<O>>): set<E>
    decreases |h|
  {
    if h == [] then k.before(s)
    else
      var h' := h[..|h| - 1];
      Facts(p, k, s, h') + match p.act(s, h')
                           case Need(d) => k.after(d)
                           case Work(e) => {e}
                           case _ => {}
  }

  /** What the next action of a body owes to the table. */
  ghost predicate Obeys<S(!new), E, O(!new)>(p: Program<S, E, O>, k: Contract<S, E, O>, s: S, h: seq<Reply<O>>) {
    match p.act(s, h)
    case Need(d) => k.admissible(d) && k.rank(d) < k.rank(s) && k.before(d) <= Facts(p, k, s, h)
    case Work(e) => k.reliesOn(e) <= Facts(p, k, s, h)
    case Return(o) => k.output(s, o) && k.after(s) <= Facts(p, k, s, h)
    case Abort => false
  }

  ghost predicate Checked<S(!new), E, O(!new)>(p: Program<S, E, O>, k: Contract<S, E, O>) {
    && WellFormed(p)
    && forall s, h :: s in p.universe && k.admissible(s) && Plausible(p, k, s, h) ==> Obeys(p, k, s, h)
  }

  lemma PlausibleMore<S(!new), E, O(!new)>(p: Program<S, E, O>, k: Contract<S, E, O>, s: S, h: seq<Reply<O>>, r: Reply<O>)
    requires Plausible(p, k, s, h)
    requires match p.act(s, h)
      case Need(d) => r.Got? && k.output(d, r.out)
      case Work(_) => r == Ack
      case _ => false
    ensures Plausible(p, k, s, h + [r])
    ensures Facts(p, k, s, h + [r]) == Facts(p, k, s, h) + match p.act(s, h)
                                                           case Need(d) => k.after(d)
                                                           case Work(e) => {e}
                                                           case _ => {}
  {
    var h' := h + [r];
    assert h'[..|h|] == h;
    forall j | 0 <= j < |h| ensures h'[..j] == h[..j] {}
  }

  // ---------------------------------------------------------------------------------------------
  // Termination: an obedient program has no cycle and no panic.

  /** Plain recursion answers every admissible request, with an allowed output. */
  lemma {:induction false} ObedientYields<S(!new), E, O(!new)>(p: Program<S, E, O>, k: Contract<S, E, O>, s: S) returns (o: O)
    requires Checked(p, k) && s in p.universe && k.admissible(s)
    ensures Yields(p, s, o) && k.output(s, o)
    decreases k.rank(s), 1
  {
    o := ObedientRunYields(p, k, s, []);
    StepFate(p, s);
  }

  lemma {:induction false} ObedientRunYields<S(!new), E, O(!new)>(p: Program<S, E, O>, k: Contract<S, E, O>, s: S,
                                                                  h: seq<Reply<O>>) returns (o: O)
    requires Checked(p, k) && s in p.universe && k.admissible(s) && Plausible(p, k, s, h)
    ensures RunYields(p, s, h, o) && k.output(s, o)
    decreases k.rank(s), 0, p.bound(s) - |h|
  {
    ActFate(p, s, h);
    assert Obeys(p, k, s, h);
    if p.act(s, h).Need? {
      var d := p.act(s, h).dep;
      var r := ObedientYields(p, k, d);
      PlausibleMore(p, k, s, h, Got(r));
      o := ObedientRunYields(p, k, s, h + [Got(r)]);
      NeedGotFate(p, s, h, d, r);
    } else if p.act(s, h).Work? {
      PlausibleMore(p, k, s, h, Ack);
      o := ObedientRunYields(p, k, s, h + [Ack]);
    } else {
      o := p.act(s, h).out;
    }
  }

  // ---------------------------------------------------------------------------------------------
  // Order: every event after the events it relies on.

  /** Each event of the log comes after all the events it relies on. */
  ghost predicate Ordered<S, E, O>(k: Contract<S, E, O>, log: seq<E>) {
    forall i :: 0 <= i < |log| ==> k.reliesOn(log[i]) <= Elems(log[..i])
  }

  /** What the table promises of the cached steps has happened. */
  ghost predicate Kept<S(!new), E, O(!new)>(k: Contract<S, E, O>, st: State<S, E, O>) {
    && Ordered(k, st.log)
    && forall c :: c in st.cache ==> k.after(c) <= Elems(st.log) && k.output(c, st.cache[c])
  }

  lemma ElemsGrow<E>(a: seq<E>, b: seq<E>)
    requires a <= b
    ensures Elems(a) <= Elems(b)
  {
    assert forall x :: x in a ==> x in b;
  }

  lemma OrderedMore<S, E, O>(k: Contract<S, E, O>, log: seq<E>, e: E)
    requires Ordered(k, log) && k.reliesOn(e) <= Elems(log)
    ensures Ordered(k, log + [e]) && Elems(log + [e]) == Elems(log) + {e}
  {
    forall i | 0 <= i < |log + [e]| ensures k.reliesOn((log + [e])[i]) <= Elems((log + [e])[..i]) {
      assert (log + [e])[..i] == log[..i];
      assert log[..|log|] == log;
    }
  }

  /** A request for an admissible step whose conditions have been met is answered, keeps the log in order, and makes
      the promise of the step true. */
  lemma {:induction false} EnsureOrdered<S(!new), E, O(!new)>(p: Program<S, E, O>, k: Contract<S, E, O>, st: State<S, E, O>, s: S)
    requires Checked(p, k) && s in p.universe && k.admissible(s) && k.before(s) <= Elems(st.log)
    requires Valid(p, st) && Askable(p, st, s) && Kept(k, st)
    ensures var (r, st') := Ensure(p, st, s);
      r.Done? && k.output(s, r.out) && Kept(k, st') && k.after(s) <= Elems(st'.log)
    decreases |p.universe - Elems(st.stack)|, 0
  {
    ObedientAnswered(p, k, st, s);
    assert WellFormed(p);
    hide Valid, Askable, Yields, Checked, Ordered, InProgress, Run;
    if s !in st.cache {
      EnsureUnfolds(p, st, s);
      PushShrinks(p.universe, st.stack, s);
      KeptPush(k, st, s);
      hide Ensure, Kept;
      RunOrdered(p, k, Push(st, s), s, []);
      var (r, st2) := Run(p, Push(st, s), s, []);
      KeptPop(k, st2, s, r.out);
    }
  }

  lemma KeptPush<S(!new), E, O(!new)>(k: Contract<S, E, O>, st: State<S, E, O>, s: S)
    requires Kept(k, st)
    ensures Kept(k, Push(st, s))
  {
  }

  lemma KeptPop<S(!new), E, O(!new)>(k: Contract<S, E, O>, st: State<S, E, O>, s: S, o: O)
    requires Kept(k, st) && st.stack != [] && k.output(s, o) && k.after(s) <= Elems(st.log)
    ensures Kept(k, Pop(st, s, o))
  {
  }

  lemma ObedientAnswered<S(!new), E, O(!new)>(p: Program<S, E, O>, k: Contract<S, E, O>, st: State<S, E, O>, s: S)
    requires Checked(p, k) && s in p.universe && k.admissible(s) && Valid(p, st) && Askable(p, st, s)
    ensures Ensure(p, st, s).0.Done? && s !in st.stack
  {
    var o := ObedientYields(p, k, s);
    EnsureRefinesPlain(p, st, s);
    hide Valid, Askable, Yields, Checked, Run;
  }

  lemma {:induction false} RunOrdered<S(!new), E, O(!new)>(p: Program<S, E, O>, k: Contract<S, E, O>, st: State<S, E, O>, s: S,
                                                           h: seq<Reply<O>>)
    requires Checked(p, k) && s in p.universe && k.admissible(s) && Plausible(p, k, s, h)
    requires Facts(p, k, s, h) <= Elems(st.log)
    requires InProgress(p, st, s, h) && Kept(k, st) && Run(p, st, s, h).0.Done?
    ensures var (r, st') := Run(p, st, s, h);
      k.output(s, r.out) && Kept(k, st') && k.after(s) <= Elems(st'.log)
    decreases |p.universe - Elems(st.stack)|, 1, p.bound(s) - |h|
  {
    assert Obeys(p, k, s, h);
    match p.act(s, h)
    case Work(e) =>
      WorkOrdered(p, k, st, s, h, e);
      hide Ensure, Run, InProgress, Plausible, Facts, Kept, Checked;
      RunOrdered(p, k, st.(log := st.log + [e]), s, h + [Ack]);
    case Need(d) =>
      RunNeedOrdered(p, k, st, s, h, d);
    case _ =>
  }

  lemma WorkOrdered<S(!new), E, O(!new)>(p: Program<S, E, O>, k: Contract<S, E, O>, st: State<S, E, O>, s: S,
                                         h: seq<Reply<O>>, e: E)
    requires WellFormed(p) && s in p.universe && Plausible(p, k, s, h) && Facts(p, k, s, h) <= Elems(st.log)
    requires InProgress(p, st, s, h) && Kept(k, st) && p.act(s, h) == Work(e) && Obeys(p, k, s, h)
    ensures var st1 := st.(log := st.log + [e]);
      && Run(p, st, s, h) == Run(p, st1, s, h + [Ack])
      && Plausible(p, k, s, h + [Ack]) && Facts(p, k, s, h + [Ack]) <= Elems(st1.log)
      && InProgress(p, st1, s, h + [Ack]) && Kept(k, st1)
  {
    RunStep(p, st, s, h);
    hide Run, InProgress, Plausible, Facts, Ordered;
    PlausibleMore(p, k, s, h, Ack);
    OrderedMore(k, st.log, e);
  }

  lemma {:induction false} RunNeedOrdered<S(!new), E, O(!new)>(p: Program<S, E, O>, k: Contract<S, E, O>, st: State<S, E, O>, s: S,
                                                               h: seq<Reply<O>>, d: S)
    requires Checked(p, k) && s in p.universe && k.admissible(s) && Plausible(p, k, s, h)
    requires Facts(p, k, s, h) <= Elems(st.log) && p.act(s, h) == Need(d) && Obeys(p, k, s, h)
    requires InProgress(p, st, s, h) && Kept(k, st) && Run(p, st, s, h).0.Done?
    ensures var (r, st') := Run(p, st, s, h);
      k.output(s, r.out) && Kept(k, st') && k.after(s) <= Elems(st'.log)
    decreases |p.universe - Elems(st.stack)|, 1, p.bound(s) - |h|, 0
  {
    RunStep(p, st, s, h);
    hide Ensure, Run, Valid, Asks, Ordered, Askable, InProgress, Yields;
    EnsureOrdered(p, k, st, d);
    var (r1, st1) := Ensure(p, st, d);
    ElemsGrow(st.log, st1.log);
    PlausibleMore(p, k, s, h, Got(r1.out));
    RunOrdered(p, k, st1, s, h + [Got(r1.out)]);
  }

  /** Requests in an order in which each finds its conditions promised by those before it, or among what is done. */
  ghost predicate InOrder<S(!new), E(!new), O(!new)>(k: Contract<S, E, O>, done: set<E>, requests: seq<S>)
    decreases |requests|
  {
    requests == []
    || (k.admissible(requests[0]) && k.before(requests[0]) <= done && InOrder(k, done + k.after(requests[0]), requests[1..]))
  }

  /** A whole session of admissible requests in such an order is answered and keeps the log in order. */
  lemma {:induction false} ServeOrdered<S(!new), E(!new), O(!new)>(p: Program<S, E, O>, k: Contract<S, E, O>, st: State<S, E, O>,
                                                                   requests: seq<S>, done: set<E>)
    requires Checked(p, k) && Valid(p, st) && st.stack == [] && Kept(k, st)
    requires (forall s :: s in requests ==> s in p.universe) && InOrder(k, done, requests) && done <= Elems(st.log)
    ensures var st' := Serve(p, st, requests); st'.stack == [] && Kept(k, st') && forall s :: s in requests ==> s in st'.cache
    decreases |requests|
  {
    hide Valid, Kept, Checked, Yields, Ensure, Elems;
    if requests != [] {
      var s := requests[0];
      CheckedWellFormed(p, k);
      NothingAsked(p, st, s);
      EnsureOrdered(p, k, st, s);
      EnsureCorrect(p, st, s);
      var (r, st1) := Ensure(p, st, s);
      ElemsGrow(st.log, st1.log);
      ServeOrdered(p, k, st1, requests[1..], done + k.after(s));
      ServeValid(p, st1, requests[1..]);
      forall x | x in requests ensures x in Serve(p, st, requests).cache {
        if x == s {
          KeptKey(st1, Serve(p, st1, requests[1..]), s);
        } else {
          assert x in requests[1..];
        }
      }
    }
  }

  /** With more done, an order stays one. */
  lemma {:induction false} InOrderMore<S(!new), E(!new), O(!new)>(k: Contract<S, E, O>, done: set<E>, more: set<E>, requests: seq<S>)
    requires InOrder(k, done, requests) && done <= more
    ensures InOrder(k, more, requests)
    decreases |requests|
  {
    if requests != [] {
      InOrderMore(k, done + k.after(requests[0]), more + k.after(requests[0]), requests[1..]);
    }
  }

  /** Requests without conditions may come in any order. */
  lemma {:induction false} InAnyOrder<S(!new), E(!new), O(!new)>(k: Contract<S, E, O>, done: set<E>, requests: seq<S>)
    requires forall s :: s in requests ==> k.admissible(s) && k.before(s) == {}
    ensures InOrder(k, done, requests)
    decreases |requests|
  {
    if requests != [] {
      InAnyOrder(k, done + k.after(requests[0]), requests[1..]);
    }
  }

  lemma CheckedWellFormed<S(!new), E, O(!new)>(p: Program<S, E, O>, k: Contract<S, E, O>)
    requires Checked(p, k)
    ensures WellFormed(p)
  {
  }

  lemma NothingAsked<S(!new), E, O(!new)>(p: Program<S, E, O>, st: State<S, E, O>, s: S)
    requires WellFormed(p) && st.stack == []
    ensures Askable(p, st, s)
  {
  }
}
