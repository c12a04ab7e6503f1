// Wakers over reference-counted tasks (raw_waker and its four functions, src/liballoc/task.rs).
module WakerCounts {
  import opened Basics

  type Task = nat

  /** Who owns a reference to which task: the wakers alive, and the Arcs held anywhere else, by handle. */
  datatype Owners = Owners(wakers: map<nat, Task>, arcs: map<nat, Task>)

  /** New handles are chosen by the caller. Waking hands an Arc to Wake::wake, which may keep it for as long as it likes. */
  datatype Op =
    | NewTask(arc: nat, task: Task)
    | CloneArc(arc: nat, copy: nat)
    | DropArc(arc: nat)
    | IntoWaker(arc: nat, waker: nat)
    | Clone(waker: nat, copy: nat)
    | Wake(waker: nat, arc: nat)
    | WakeByRef(waker: nat, arc: nat)
    | Drop(waker: nat)

  /** The handles an operation uses exist, and those it makes do not. */
  predicate Possible(o: Owners, created: set<Task>, op: Op) {
    match op
    case NewTask(a, t) => a !in o.arcs && t !in created
    case CloneArc(a, copy) => a in o.arcs && copy !in o.arcs
    case DropArc(a) => a in o.arcs
    case IntoWaker(a, w) => a in o.arcs && w !in o.wakers
    case Clone(w, copy) => w in o.wakers && copy !in o.wakers
    case Wake(w, a) => w in o.wakers && a !in o.arcs
    case WakeByRef(w, a) => w in o.wakers && a !in o.arcs
    case Drop(w) => w in o.wakers
  }

  /** The owners after an operation, reference counts apart. */
  function Owned(o: Owners, created: set<Task>, op: Op): Owners
    requires Possible(o, created, op)
  {
    match op
    case NewTask(a, t) => o.(arcs := o.arcs[a := t])
    case CloneArc(a, copy) => o.(arcs := o.arcs[copy := o.arcs[a]])
    case DropArc(a) => o.(arcs := o.arcs - {a})
    case IntoWaker(a, w) => Owners(o.wakers[w := o.arcs[a]], o.arcs - {a})
    case Clone(w, copy) => o.(wakers := o.wakers[copy := o.wakers[w]])
    case Wake(w, a) => Owners(o.wakers - {w}, o.arcs[a := o.wakers[w]])
    case WakeByRef(w, a) => o.(arcs := o.arcs[a := o.wakers[w]])
    case Drop(w) => o.(wakers := o.wakers - {w})
  }

  function Of(m: map<nat, Task>, t: Task): set<nat> {
    set k | k in m && m[k] == t
  }

  function OwnersOf(o: Owners, t: Task): nat {
    |Of(o.wakers, t)| + |Of(o.arcs, t)|
  }

  lemma OfMore(m: map<nat, Task>, k: nat, t: Task, t': Task)
    requires k !in m
    ensures |Of(m[k := t], t')| == |Of(m, t')| + if t == t' then 1 else 0
  {
    assert Of(m[k := t], t') == Of(m, t') + if t == t' then {k} else {};
  }

  lemma OfLess(m: map<nat, Task>, k: nat, t': Task)
    requires k in m
    ensures |Of(m, t')| == |Of(m - {k}, t')| + if m[k] == t' then 1 else 0
  {
    assert Of(m, t') == Of(m - {k}, t') + if m[k] == t' then {k} else {};
    assert k !in Of(m - {k}, t');
  }

  /** By how much an operation changes the number of owners of a task. */
  function Change(o: Owners, created: set<Task>, op: Op, t: Task): int
    requires Possible(o, created, op)
  {
    match op
    case NewTask(_, t') => if t == t' then 1 else 0
    case CloneArc(a, _) => if t == o.arcs[a] then 1 else 0
    case DropArc(a) => if t == o.arcs[a] then -1 else 0
    case IntoWaker(_, _) => 0
    case Clone(w, _) => if t == o.wakers[w] then 1 else 0
    case Wake(_, _) => 0
    case WakeByRef(w, _) => if t == o.wakers[w] then 1 else 0
    case Drop(w) => if t == o.wakers[w] then -1 else 0
  }

  lemma OwnersChange(o: Owners, created: set<Task>, op: Op)
    requires Possible(o, created, op)
    ensures forall t :: OwnersOf(Owned(o, created, op), t) == OwnersOf(o, t) + Change(o, created, op, t)
  {
    forall t ensures OwnersOf(Owned(o, created, op), t) == OwnersOf(o, t) + Change(o, created, op, t) {
      hide Of;
      match op
      case NewTask(a, t') => OfMore(o.arcs, a, t', t);
      case CloneArc(a, copy) => OfMore(o.arcs, copy, o.arcs[a], t);
      case DropArc(a) => OfLess(o.arcs, a, t);
      case IntoWaker(a, w) =>
        OfLess(o.arcs, a, t);
        OfMore(o.wakers, w, o.arcs[a], t);
      case Clone(w, copy) => OfMore(o.wakers, copy, o.wakers[w], t);
      case Wake(w, a) =>
        OfLess(o.wakers, w, t);
        OfMore(o.arcs, a, o.wakers[w], t);
      case WakeByRef(w, a) => OfMore(o.arcs, a, o.wakers[w], t);
      case Drop(w) => OfLess(o.wakers, w, t);
    }
  }

  class Runtime {
    /** The strong count of each task that is not freed. */
    var strong: map<Task, nat>
    /** Every task freed, in order. */
    var freed: seq<Task>
    var wakers: map<nat, Task>
    var arcs: map<nat, Task>

    ghost function Model(): Owners
      reads this
    {
      Owners(wakers, arcs)
    }

    ghost function Created(): set<Task>
      reads this
    {
      strong.Keys + set t | t in freed
    }

    /** The count of a task, zero once it is freed. */
    ghost function Count(t: Task): nat
      reads this
    {
      if t in strong then strong[t] else 0
    }

    /** Nothing is freed twice, or counted while freed; no count is zero. */
    ghost predicate Sane()
      reads this
    {
      && NoDuplicates(freed)
      && (forall t :: t in freed ==> t !in strong)
      && forall t :: t in strong ==> strong[t] > 0
    }

    /** The strong count of a task is the number of its owners. */
    ghost predicate Valid()
      reads this
    {
      Sane() && forall t :: Count(t) == OwnersOf(Model(), t)
    }

    constructor ()
      ensures Valid() && Model() == Owners(map[], map[]) && Created() == {}
    {
      strong, freed, wakers, arcs := map[], [], map[], map[];
    }

    /** Arc::incr_strong_count, and Arc::clone: the task must be alive. */
    method IncrStrongCount(t: Task)
      requires Sane() && t in strong
      modifies this`strong
      ensures Sane() && Created() == old(Created())
      ensures strong == old(strong)[t := old(strong)[t] + 1]
    {
      strong := strong[t := strong[t] + 1];
    }

    /** Arc::decr_strong_count, and the drop of an Arc: the last owner frees the task. */
    method DecrStrongCount(t: Task)
      requires Sane() && t in strong
      modifies this`strong, this`freed
      ensures Sane() && Created() == old(Created())
      ensures strong == if old(strong)[t] == 1 then old(strong) - {t} else old(strong)[t := old(strong)[t] - 1]
      ensures freed == if old(strong)[t] == 1 then old(freed) + [t] else old(freed)
    {
      if strong[t] == 1 {
        strong := strong - {t};
        freed := freed + [t];
      } else {
        strong := strong[t := strong[t] - 1];
      }
    }

    /** clone_waker */
    method CloneWaker(w: nat, copy: nat)
      requires Valid() && w in wakers && copy !in wakers
      modifies this
      ensures Valid() && Model() == Owned(old(Model()), old(Created()), Clone(w, copy)) && Created() == old(Created())
      ensures freed == old(freed)
    {
      OwnersChange(Model(), Created(), Clone(w, copy));
      ghost var after := Owned(Model(), Created(), Clone(w, copy));
      hide OwnersOf;
      AliveIfOwned(wakers[w]);
      IncrStrongCount(wakers[w]);
      wakers := wakers[copy := wakers[w]];
      assert Model() == after;
    }

    /** wake: the reference of the waker becomes the Arc given to Wake::wake. */
    method WakeByValue(w: nat, a: nat)
      requires Valid() && w in wakers && a !in arcs
      modifies this
      ensures Valid() && Model() == Owned(old(Model()), old(Created()), Wake(w, a)) && Created() == old(Created())
      ensures freed == old(freed)
    {
      OwnersChange(Model(), Created(), Wake(w, a));
      ghost var after := Owned(Model(), Created(), Wake(w, a));
      hide OwnersOf;
      arcs := arcs[a := wakers[w]];
      wakers := wakers - {w};
      assert Model() == after;
    }

    /** wake_by_ref with the default Wake::wake_by_ref: the Arc made from the waker is cloned, the clone given to wake,
        and the Arc itself forgotten, not dropped. */
    method WakeByReference(w: nat, a: nat)
      requires Valid() && w in wakers && a !in arcs
      modifies this
      ensures Valid() && Model() == Owned(old(Model()), old(Created()), WakeByRef(w, a)) && Created() == old(Created())
      ensures freed == old(freed)
    {
      OwnersChange(Model(), Created(), WakeByRef(w, a));
      ghost var after := Owned(Model(), Created(), WakeByRef(w, a));
      hide OwnersOf;
      AliveIfOwned(wakers[w]);
      IncrStrongCount(wakers[w]);
      arcs := arcs[a := wakers[w]];
      assert Model() == after;
    }

    /** drop_waker */
    method DropWaker(w: nat)
      requires Valid() && w in wakers
      modifies this
      ensures Valid() && Model() == Owned(old(Model()), old(Created()), Drop(w)) && Created() == old(Created())
    {
      OwnersChange(Model(), Created(), Drop(w));
      ghost var after := Owned(Model(), Created(), Drop(w));
      hide OwnersOf;
      AliveIfOwned(wakers[w]);
      DecrStrongCount(wakers[w]);
      wakers := wakers - {w};
      assert Model() == after;
    }

    /** What an owner refers to is alive. */
    lemma AliveIfOwned(t: Task)
      requires Valid() && (t in wakers.Values || t in arcs.Values)
      ensures t in strong
    {
      if t in wakers.Values {
        var w :| w in wakers && wakers[w] == t;
        OfLess(wakers, w, t);
      } else {
        var a :| a in arcs && arcs[a] == t;
        OfLess(arcs, a, t);
      }
      assert Count(t) == OwnersOf(Model(), t) > 0;
    }

    /** One operation, if its handles allow it. */
    method Do(op: Op)
      requires Valid()
      modifies this
      ensures Valid()
      ensures if Possible(old(Model()), old(Created()), op) then Model() == Owned(old(Model()), old(Created()), op)
              else Model() == old(Model())
      ensures Created() == if op.NewTask? && Possible(old(Model()), old(Created()), op) then old(Created()) + {op.task} else old(Created())
    {
      hide Valid, OwnersOf;
      match op
      case NewTask(a, t) =>
        if a !in arcs && t !in strong && t !in freed { Begin(a, t); }
      case CloneArc(a, copy) =>
        if a in arcs && copy !in arcs { CopyArc(a, copy); }
      case DropArc(a) =>
        if a in arcs { ReleaseArc(a); }
      case IntoWaker(a, w) =>
        if a in arcs && w !in wakers { RawWaker(a, w); }
      case Clone(w, copy) =>
        if w in wakers && copy !in wakers { CloneWaker(w, copy); }
      case Wake(w, a) =>
        if w in wakers && a !in arcs { WakeByValue(w, a); }
      case WakeByRef(w, a) =>
        if w in wakers && a !in arcs { WakeByReference(w, a); }
      case Drop(w) =>
        if w in wakers { DropWaker(w); }
    }

    /** Arc::new */
    method Begin(a: nat, t: Task)
      requires Valid() && a !in arcs && t !in Created()
      modifies this
      ensures Valid() && Model() == Owned(old(Model()), old(Created()), NewTask(a, t)) && Created() == old(Created()) + {t}
    {
      OwnersChange(Model(), Created(), NewTask(a, t));
      ghost var after := Owned(Model(), Created(), NewTask(a, t));
      hide OwnersOf;
      assert Count(t) == 0;
      strong := strong[t := 1];
      arcs := arcs[a := t];
      assert Model() == after;
    }

    method CopyArc(a: nat, copy: nat)
      requires Valid() && a in arcs && copy !in arcs
      modifies this
      ensures Valid() && Model() == Owned(old(Model()), old(Created()), CloneArc(a, copy)) && Created() == old(Created())
    {
      OwnersChange(Model(), Created(), CloneArc(a, copy));
      ghost var after := Owned(Model(), Created(), CloneArc(a, copy));
      hide OwnersOf;
      AliveIfOwned(arcs[a]);
      IncrStrongCount(arcs[a]);
      arcs := arcs[copy := arcs[a]];
      assert Model() == after;
    }

    method ReleaseArc(a: nat)
      requires Valid() && a in arcs
      modifies this
      ensures Valid() && Model() == Owned(old(Model()), old(Created()), DropArc(a)) && Created() == old(Created())
    {
      OwnersChange(Model(), Created(), DropArc(a));
      ghost var after := Owned(Model(), Created(), DropArc(a));
      hide OwnersOf;
      AliveIfOwned(arcs[a]);
      DecrStrongCount(arcs[a]);
      arcs := arcs - {a};
      assert Model() == after;
    }

    /** raw_waker: the reference of the Arc becomes that of the waker. */
    method RawWaker(a: nat, w: nat)
      requires Valid() && a in arcs && w !in wakers
      modifies this
      ensures Valid() && Model() == Owned(old(Model()), old(Created()), IntoWaker(a, w)) && Created() == old(Created())
    {
      OwnersChange(Model(), Created(), IntoWaker(a, w));
      ghost var after := Owned(Model(), Created(), IntoWaker(a, w));
      hide OwnersOf;
      wakers := wakers[w := arcs[a]];
      arcs := arcs - {a};
      assert Model() == after;
    }

    /** In every valid state: a waker's task is alive, and a task that was made is freed, once, exactly if it has no
        owner left. */
    lemma FreedOnce(t: Task)
      requires Valid() && t in Created()
      ensures t in freed <==> OwnersOf(Model(), t) == 0
      ensures multiset(freed)[t] == if OwnersOf(Model(), t) == 0 then 1 else 0
      ensures forall w :: w in wakers ==> wakers[w] in strong && wakers[w] !in freed
    {
      assert Count(t) == OwnersOf(Model(), t);
      OnceAtMost(freed, t);
      forall w | w in wakers ensures wakers[w] in strong && wakers[w] !in freed {
        AliveIfOwned(wakers[w]);
      }
    }
  }

  lemma {:induction false} OnceAtMost(ts: seq<Task>, t: Task)
    requires NoDuplicates(ts)
    ensures multiset(ts)[t] == if t in ts then 1 else 0
    decreases |ts|
  {
    if ts != [] {
      var last := |ts| - 1;
      assert ts == ts[..last] + [ts[last]];
      OnceAtMost(ts[..last], t);
    }
  }

  /** The owners after a whole script, and the tasks made. */
  function After(script: seq<Op>): (Owners, set<Task>) {
    if script == [] then (Owners(map[], map[]), {})
    else
      var (o, created) := After(script[..|script| - 1]);
      var op := script[|script| - 1];
      if !Possible(o, created, op) then (o, created)
      else (Owned(o, created, op), if op.NewTask? then created + {op.task} else created)
  }

  /** Any interleaving of clones, wakes and drops, over any number of tasks, keeps every count equal to the owners. */
  method Interleave(script: seq<Op>) returns (r: Runtime)
    ensures r.Valid() && (r.Model(), r.Created()) == After(script)
  {
    r := new Runtime();
    for i := 0 to |script|
      invariant fresh(r) && r.Valid() && (r.Model(), r.Created()) == After(script[..i])
    {
      assert script[..i + 1][..i] == script[..i] && script[..i + 1][i] == script[i];
      r.Do(script[i]);
    }
    assert script[..|script|] == script;
  }
}
