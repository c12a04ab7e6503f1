// The builder as the source has it: mutable stack, cache and clock accounting (src/bootstrap/builder.rs,
// src/bootstrap/cache.rs), proved against the engine function.
module BuilderClass {
  import opened Engine
  import opened EngineProofs

  /** Every way Builder::ensure can die. Only the first two ever happen. */
  datatype Panic = Cycle | Step | SecondTime | StackEmpty | StackMismatch | DurationUnderflow

  datatype Result<O> = Finished(out: O) | Died(why: Panic)

  /** The time of a finished body: all of it, and the part not spent in the steps it asked for. */
  datatype Timing<S> = Timing(step: S, elapsed: nat, exclusive: nat)

  function Total<S>(ts: seq<Timing<S>>): nat {
    if ts == [] then 0 else Total(ts[..|ts| - 1]) + ts[|ts| - 1].exclusive
  }

  lemma {:induction false} TotalAppend<S>(a: seq<Timing<S>>, b: seq<Timing<S>>)
    ensures Total(a + b) == Total(a) + Total(b)
    decreases |b|
  {
    if b == [] {
      assert a + b == a;
    } else {
      TotalAppend(a, b[..|b| - 1]);
      assert (a + b)[..|a + b| - 1] == a + b[..|b| - 1];
    }
  }

  predicate Agrees<O(==)>(r: Result<O>, spec: Outcome<O>) {
    match spec
    case Done(o) => r == Finished(o)
    case CycleDetected => r == Died(Cycle)
    case StepAborted => r == Died(Step)
  }

  class Builder<S(!new, ==), E, O(!new, ==)> {
    const program: Program<S, E, O>
    var stack: seq<S>
    var cache: map<S, O>
    var ran: seq<S>
    var log: seq<E>
    var timeSpentOnDependencies: nat
    var timings: seq<Timing<S>>
    var clock: nat
    /** The time that effects have taken, all bodies together. */
    var busy: nat

    ghost function Model(): State<S, E, O>
      reads this
    {
      State(stack, cache, ran, log)
    }

    ghost predicate Ready(step: S)
      reads this
    {
      WellFormed(program) && step in program.universe && Valid(program, Model()) && Askable(program, Model(), step)
    }

    constructor (program: Program<S, E, O>)
      requires WellFormed(program)
      ensures this.program == program && Model() == Fresh() && Valid(program, Model())
      ensures timeSpentOnDependencies == 0 && timings == []
    {
      this.program := program;
      stack, cache, ran, log := [], map[], [], [];
      timeSpentOnDependencies, timings, clock, busy := 0, [], 0, 0;
    }

    /** Time passes. */
    method Tick() returns (d: nat)
      modifies this`clock
      ensures clock == old(clock) + d
    {
      d :| d >= 0;
      clock := clock + d;
    }

    /** An effect is performed, and takes its time. */
    method Perform(e: E)
      modifies this`log, this`clock, this`busy
      ensures log == old(log) + [e]
      ensures clock - old(clock) == busy - old(busy) >= 0
    {
      log := log + [e];
      var d := Tick();
      busy := busy + d;
    }

    /** The loop over the steps in progress. */
    method OnStack(step: S) returns (found: bool)
      ensures found <==> step in stack
    {
      for i := 0 to |stack|
        invariant step !in stack[..i]
      {
        if stack[i] == step {
          return true;
        }
      }
      assert stack[..|stack|] == stack;
      return false;
    }

    /** Builder::ensure: the state and the result are those of the engine function, so the "processing a second time"
        assertion, the two stack assertions and the duration subtraction never fail. The exclusive times of all bodies
        run below add up to the time of this one, which is all the time that passes but for what ensure itself takes
        before and after the timing block, and so at least the time of all the effects performed below. A cached answer
        records nothing. */
    method Ensure(step: S) returns (r: Result<O>, ghost outside: nat)
      requires Ready(step)
      modifies this
      ensures Agrees(r, Engine.Ensure(program, old(Model()), step).0)
      ensures Model() == Engine.Ensure(program, old(Model()), step).1
      ensures clock - old(clock) >= busy - old(busy) >= 0
      ensures r.Finished? && step in old(cache) ==>
                && timings == old(timings) && timeSpentOnDependencies == old(timeSpentOnDependencies)
                && clock == old(clock) + outside && busy == old(busy)
      ensures r.Finished? && step !in old(cache) ==>
                && |timings| > |old(timings)| && old(timings) <= timings
                && var mine := timings[|timings| - 1];
                && mine.step == step
                && mine.elapsed == Total(timings[|old(timings)|..])
                && mine.elapsed == timeSpentOnDependencies - old(timeSpentOnDependencies)
                && clock - old(clock) == mine.elapsed + outside
                && mine.elapsed >= busy - old(busy)
      decreases |program.universe - Elems(stack)|, 0
    {
      hide Valid, Askable, Extends, Chain, Asks, WellFormed, Run, Total, Elems, InProgress;
      outside := Tick();
      var found := OnStack(step);
      if found {
        return Died(Cycle), outside;
      }
      if step in cache {
        return Finished(cache[step]), outside;
      }
      PushShrinks(program.universe, stack, step);
      EnsureUnfolds(program, Model(), step);
      stack, ran := stack + [step], ran + [step];
      hide ValidRan, ValidStack, ValidCache, Yields, Engine.Ensure;
      var out := Timed(step);
      if out.Died? {
        return out, outside;
      }
      var d := Tick();
      outside := outside + d;
      r := Leave(step, out.out);
    }

    /** The timing block: run the body of the step on top of the stack, and account for its time, all of it. */
    method Timed(step: S) returns (r: Result<O>)
      requires WellFormed(program) && step in program.universe && InProgress(program, Model(), step, [])
      modifies this
      ensures Agrees(r, Run(program, old(Model()), step, []).0)
      ensures Model() == Run(program, old(Model()), step, []).1
      ensures clock - old(clock) >= busy - old(busy) >= 0
      ensures r.Finished? ==>
                && |timings| > |old(timings)| && old(timings) <= timings
                && var mine := timings[|timings| - 1];
                && mine.step == step
                && mine.elapsed == Total(timings[|old(timings)|..])
                && mine.elapsed == timeSpentOnDependencies - old(timeSpentOnDependencies)
                && mine.elapsed == clock - old(clock) >= busy - old(busy)
      decreases |program.universe - Elems(stack)|, 3
    {
      hide WellFormed, Run, Total, Elems, InProgress;
      var start := clock;
      var parent := timeSpentOnDependencies;
      timeSpentOnDependencies := 0;
      ghost var n := |timings|;
      var d := Tick();
      r := RunBody(step);
      if r.Finished? {
        ghost var ran := timings;
        d := Tick();
        var accounted := Account(step, start, parent, n);
        assert accounted && old(timings) <= ran <= timings;
        if !accounted {
          return Died(DurationUnderflow);
        }
      }
    }

    /** The end of the timing block: the body took dur, of which the steps it asked for took deps. */
    method Account(step: S, start: nat, parent: nat, ghost n: nat) returns (ok: bool)
      requires start <= clock && n <= |timings|
      requires Total(timings[n..]) == timeSpentOnDependencies
      modifies this`timings, this`timeSpentOnDependencies
      ensures ok <==> old(timeSpentOnDependencies) <= clock - start
      ensures ok ==>
                && |timings| == |old(timings)| + 1 && old(timings) <= timings
                && timings[|timings| - 1] == Timing(step, clock - start, clock - start - old(timeSpentOnDependencies))
                && Total(timings[n..]) == clock - start == timeSpentOnDependencies - parent
    {
      var dur := clock - start;
      var deps := timeSpentOnDependencies;
      timeSpentOnDependencies := parent + dur;
      if dur < deps {
        return false;
      }
      TotalOneMore(timings, n, Timing(step, dur, dur - deps));
      timings := timings + [Timing(step, dur, dur - deps)];
      return true;
    }

    /** The end of ensure: pop the stack and cache the output, with the three assertions on the way. */
    method Leave(step: S, out: O) returns (r: Result<O>)
      modifies this`stack, this`cache
      ensures old(stack) == [] ==> r == Died(StackEmpty)
      ensures old(stack) != [] && old(stack[|stack| - 1]) != step ==> r == Died(StackMismatch)
      ensures old(stack) != [] && old(stack[|stack| - 1]) == step && step in old(cache) ==> r == Died(SecondTime)
      ensures old(stack) != [] && old(stack[|stack| - 1]) == step && step !in old(cache) ==>
                r == Finished(out) && Model() == Pop(old(Model()), step, out)
    {
      if stack == [] {
        return Died(StackEmpty);
      }
      var popped := stack[|stack| - 1];
      stack := stack[..|stack| - 1];
      if popped != step {
        return Died(StackMismatch);
      }
      var isNew := Put(step, out);
      if !isNew {
        return Died(SecondTime);
      }
      return Finished(out);
    }

    /** Cache::put: the assertion that the key is absent, then the insertion. */
    method Put(step: S, value: O) returns (isNew: bool)
      modifies this`cache
      ensures isNew == (step !in old(cache))
      ensures cache == if isNew then old(cache)[step := value] else old(cache)
    {
      if step in cache {
        return false;
      }
      cache := cache[step := value];
      return true;
    }

    /** Step::run: the body of the step on top of the stack, replies first to last. */
    method RunBody(step: S) returns (r: Result<O>)
      requires WellFormed(program) && step in program.universe && InProgress(program, Model(), step, [])
      requires timeSpentOnDependencies == 0
      modifies this
      ensures Agrees(r, Run(program, old(Model()), step, []).0)
      ensures Model() == Run(program, old(Model()), step, []).1
      ensures clock >= old(clock) && clock - old(clock) >= busy - old(busy) >= 0
      ensures r.Finished? ==>
                && old(timings) <= timings
                && Total(timings[|old(timings)|..]) == timeSpentOnDependencies <= clock - old(clock)
      decreases |program.universe - Elems(stack)|, 2
    {
      hide InProgress, Asks, WellFormed, Engine.Ensure;
      var h := [];
      while true
        invariant Run(program, old(Model()), step, []) == Run(program, Model(), step, h)
        invariant InProgress(program, Model(), step, h) && stack == old(stack)
        invariant old(timings) <= timings && clock - old(clock) >= busy - old(busy) >= 0
        invariant Total(timings[|old(timings)|..]) == timeSpentOnDependencies <= clock - old(clock)
        decreases program.bound(step) - |h|
      {
        RunStep(program, Model(), step, h);
        ghost var earlier := timings;
        var action := program.act(step, h);
        if action.Return? {
          return Finished(action.out);
        } else if action.Abort? {
          return Died(Step);
        } else if action.Work? {
          Perform(action.event);
          h := h + [Ack];
        } else {
          var o := AskFor(step, h, action.dep);
          if o.Died? {
            return o;
          }
          TotalJoin(old(timings), earlier, timings);
          h := h + [Got(o.out)];
        }
      }
    }

    /** A body asks for a step. */
    method AskFor(step: S, h: seq<Reply<O>>, d: S) returns (o: Result<O>)
      requires WellFormed(program) && step in program.universe && InProgress(program, Model(), step, h)
      requires program.act(step, h) == Need(d)
      modifies this
      ensures clock - old(clock) >= busy - old(busy) >= 0
      ensures o.Died? ==> Agrees(o, Run(program, old(Model()), step, h).0) && Model() == Run(program, old(Model()), step, h).1
      ensures o.Finished? ==>
                && Run(program, old(Model()), step, h) == Run(program, Model(), step, h + [Got(o.out)])
                && InProgress(program, Model(), step, h + [Got(o.out)]) && stack == old(stack)
                && old(timings) <= timings
                && Total(timings[|old(timings)|..]) == timeSpentOnDependencies - old(timeSpentOnDependencies) <= clock - old(clock)
      decreases |program.universe - Elems(stack)|, 1, program.bound(step) - |h|
    {
      RunStep(program, Model(), step, h);
      hide InProgress, Asks, WellFormed, Valid, Askable, Engine.Ensure, Run;
      ghost var outside;
      o, outside := Ensure(d);
      if timings == old(timings) {
        assert timings[|timings|..] == [];
      }
    }
  }

  /** Adding one entry adds its exclusive time. */
  lemma TotalOneMore<S>(ts: seq<Timing<S>>, n: nat, t: Timing<S>)
    requires n <= |ts|
    ensures Total((ts + [t])[n..]) == Total(ts[n..]) + t.exclusive
  {
    assert (ts + [t])[n..] == ts[n..] + [t];
    TotalAppend(ts[n..], [t]);
    assert [t][..0] == [];
  }

  lemma TotalJoin<S>(a: seq<Timing<S>>, b: seq<Timing<S>>, c: seq<Timing<S>>)
    requires a <= b <= c
    ensures Total(c[|a|..]) == Total(b[|a|..]) + Total(c[|b|..])
  {
    assert c[|a|..] == b[|a|..] + c[|b|..];
    TotalAppend(b[|a|..], c[|b|..]);
  }
}
