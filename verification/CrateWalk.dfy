// The worklist over the crates of the source tree (in_tree_crates, src/bootstrap/lib.rs).
module CrateWalk {

  type Name = string

  /** The dependencies of each crate of the tree, in some order. */
  type Crates = map<Name, seq<Name>>

  datatype Config = Config(profiler: bool, llvmEnabled: bool)

  predicate Included(cfg: Config, dep: Name) {
    && dep != "build_helper"
    && (dep != "profiler_builtins" || cfg.profiler)
    && (dep != "rustc_codegen_llvm" || cfg.llvmEnabled)
  }

  /** The names of the crates found; or the name that is not a crate of the tree, on which the lookup panics. */
  datatype Result = Found(crates: seq<Name>) | NoSuchCrate(name: Name)

  /** b is an included dependency of a. */
  predicate Edge(crates: Crates, cfg: Config, a: Name, b: Name) {
    a in crates && b in crates[a] && Included(cfg, b)
  }

  /** A path of at least one edge. */
  predicate Path(crates: Crates, cfg: Config, path: seq<Name>) {
    && |path| >= 2
    && forall i :: 0 <= i < |path| - 1 ==> Edge(crates, cfg, path[i], path[i + 1])
  }

  ghost predicate Reaches(crates: Crates, cfg: Config, a: Name, b: Name) {
    exists path :: Path(crates, cfg, path) && path[0] == a && path[|path| - 1] == b
  }

  lemma ReachesEdge(crates: Crates, cfg: Config, root: Name, a: Name, b: Name)
    requires a == root || Reaches(crates, cfg, root, a)
    requires Edge(crates, cfg, a, b)
    ensures Reaches(crates, cfg, root, b)
  {
    if Reaches(crates, cfg, root, a) {
      var path :| Path(crates, cfg, path) && path[0] == root && path[|path| - 1] == a;
      assert Path(crates, cfg, path + [b]);
    } else {
      assert Path(crates, cfg, [root, b]);
    }
  }

  lemma ReachedIncluded(crates: Crates, cfg: Config, root: Name, x: Name)
    requires Reaches(crates, cfg, root, x)
    ensures Included(cfg, x)
  {
    var path :| Path(crates, cfg, path) && path[0] == root && path[|path| - 1] == x;
    assert Edge(crates, cfg, path[|path| - 2], path[|path| - 1]);
  }

  /** Three names can be excluded: build_helper always, the profiler and the LLVM backend if they are not enabled. */
  lemma ExcludedAre(crates: Crates, cfg: Config, root: Name)
    ensures !Reaches(crates, cfg, root, "build_helper")
    ensures !cfg.profiler ==> !Reaches(crates, cfg, root, "profiler_builtins")
    ensures !cfg.llvmEnabled ==> !Reaches(crates, cfg, root, "rustc_codegen_llvm")
  {
    hide Reaches;
    assert !Included(cfg, "build_helper");
    assert !cfg.profiler ==> !Included(cfg, "profiler_builtins");
    assert !cfg.llvmEnabled ==> !Included(cfg, "rustc_codegen_llvm");
    hide Included;
    if Reaches(crates, cfg, root, "build_helper") {
      ReachedIncluded(crates, cfg, root, "build_helper");
    }
    if Reaches(crates, cfg, root, "profiler_builtins") {
      ReachedIncluded(crates, cfg, root, "profiler_builtins");
    }
    if Reaches(crates, cfg, root, "rustc_codegen_llvm") {
      ReachedIncluded(crates, cfg, root, "rustc_codegen_llvm");
    }
  }

  /** Every other dependency of the root, or of a crate reached, is reached. */
  lemma OthersAreReached(crates: Crates, cfg: Config, root: Name, a: Name, b: Name)
    requires (a == root || Reaches(crates, cfg, root, a)) && a in crates && b in crates[a] && b != "build_helper"
    requires (b == "profiler_builtins" ==> cfg.profiler) && (b == "rustc_codegen_llvm" ==> cfg.llvmEnabled)
    ensures Reaches(crates, cfg, root, b)
  {
    hide Reaches;
    ReachesEdge(crates, cfg, root, a, b);
  }

  function AllDeps(crates: Crates): set<Name> {
    set k, d | k in crates && d in crates[k] :: d
  }

  ghost predicate Closed(crates: Crates, done: seq<Name>, visited: set<Name>) {
    forall k :: k in done ==> k in crates && forall d :: d in crates[k] ==> d in visited
  }

  function Walked(cfg: Config, visited: set<Name>): set<Name> {
    set x | x in visited && Included(cfg, x)
  }

  function Count(names: seq<Name>, x: Name): nat {
    multiset(names)[x]
  }

  function One(b: bool): nat {
    if b then 1 else 0
  }

  lemma CountPush(names: seq<Name>, k: Name, x: Name)
    ensures Count(names + [k], x) == Count(names, x) + One(x == k)
  {
  }

  lemma CountIn(names: seq<Name>, x: Name)
    ensures Count(names, x) > 0 <==> x in names
  {
  }

  /** What the walk keeps: the crates done and those listed are the root and, once each, the included ones visited. */
  ghost predicate Inv(crates: Crates, cfg: Config, root: Name, done: seq<Name>, list: seq<Name>, visited: set<Name>) {
    && visited <= AllDeps(crates)
    && (forall x :: Count(done, x) + Count(list, x) == One(x == root) + One(x in Walked(cfg, visited)))
    && forall x :: x in Walked(cfg, visited) ==> Reaches(crates, cfg, root, x)
  }

  /** Everything reachable has been visited when nothing is listed any more. */
  lemma {:induction false} PathVisited(crates: Crates, cfg: Config, root: Name, done: seq<Name>, visited: set<Name>, path: seq<Name>)
    requires Inv(crates, cfg, root, done, [], visited) && Closed(crates, done, visited)
    requires Path(crates, cfg, path) && path[0] == root
    ensures path[|path| - 1] in Walked(cfg, visited)
    decreases |path|
  {
    var k, x := path[|path| - 2], path[|path| - 1];
    assert Edge(crates, cfg, k, x);
    assert k == root || k in Walked(cfg, visited) by {
      if |path| > 2 {
        PathVisited(crates, cfg, root, done, visited, path[..|path| - 1]);
      }
    }
    DoneWhenListEmpty(crates, cfg, root, done, visited, k);
  }

  lemma DoneWhenListEmpty(crates: Crates, cfg: Config, root: Name, done: seq<Name>, visited: set<Name>, k: Name)
    requires Inv(crates, cfg, root, done, [], visited) && (k == root || k in Walked(cfg, visited))
    ensures k in done
  {
    CountIn(done, k);
    CountIn([], k);
  }

  lemma Popped(crates: Crates, cfg: Config, root: Name, done: seq<Name>, list: seq<Name>, visited: set<Name>)
    requires Inv(crates, cfg, root, done, list, visited) && list != []
    ensures var krate := list[|list| - 1];
      && (krate == root || Reaches(crates, cfg, root, krate))
      && Inv(crates, cfg, root, done + [krate], list[..|list| - 1], visited)
  {
    var krate, rest := list[|list| - 1], list[..|list| - 1];
    assert list == rest + [krate];
    hide Count;
    CountIn(list, krate);
    forall x ensures Count(done + [krate], x) + Count(rest, x) == Count(done, x) + Count(list, x) {
      CountPush(done, krate, x);
      CountPush(rest, krate, x);
    }
  }

  /** Terminates on every finite graph, cycles included, and returns the root, and every crate reachable from it without
      passing through an excluded one: each once, and the root once more exactly when it is reachable from itself. It
      panics exactly when it comes to a name that is not a crate of the tree. */
  method InTreeCrates(crates: Crates, cfg: Config, root: Name) returns (r: Result)
    ensures r.Found? ==>
              forall x :: Count(r.crates, x) == One(x == root) + if Reaches(crates, cfg, root, x) then 1 else 0
    ensures r.NoSuchCrate? ==>
              r.name !in crates && (r.name == root || Reaches(crates, cfg, root, r.name))
    ensures r.Found? ==>
              root in crates && forall x :: Reaches(crates, cfg, root, x) ==> x in crates
    ensures r.Found? ==> Allowing(crates, cfg, root, r.crates)
  {
    var ret: seq<Name>, list, visited: set<Name> := [], [root], {};
    hide Reaches, Inv, Count, One, Allowing;
    InvAtFirst(crates, cfg, root);
    while list != []
      invariant Inv(crates, cfg, root, ret, list, visited) && Closed(crates, ret, visited)
      decreases |AllDeps(crates) - visited|, |list|
    {
      Popped(crates, cfg, root, ret, list, visited);
      var krate := list[|list| - 1];
      list := list[..|list| - 1];
      if krate !in crates {
        return NoSuchCrate(krate);
      }
      ret := ret + [krate];
      list, visited := VisitDeps(crates, cfg, root, krate, ret, list, visited);
    }
    WalkDone(crates, cfg, root, ret, visited);
    ResultAllows(crates, cfg, root, ret);
    return Found(ret);
  }

  /** Which names a result leaves out, by name: build_helper always, the other two if they are not enabled, each unless it
      is the root; and no other dependency of a crate in it. */
  ghost predicate Allowing(crates: Crates, cfg: Config, root: Name, found: seq<Name>) {
    && ("build_helper" in found ==> root == "build_helper")
    && ("profiler_builtins" in found ==> root == "profiler_builtins" || cfg.profiler)
    && ("rustc_codegen_llvm" in found ==> root == "rustc_codegen_llvm" || cfg.llvmEnabled)
    && forall a, b ::
         (&& a in found && a in crates && b in crates[a] && b != "build_helper"
          && (b == "profiler_builtins" ==> cfg.profiler) && (b == "rustc_codegen_llvm" ==> cfg.llvmEnabled)) ==> b in found
  }

  lemma ResultAllows(crates: Crates, cfg: Config, root: Name, found: seq<Name>)
    requires forall x :: Count(found, x) == One(x == root) + if Reaches(crates, cfg, root, x) then 1 else 0
    ensures Allowing(crates, cfg, root, found)
  {
    hide Reaches, Count, Included;
    forall x ensures x in found <==> x == root || Reaches(crates, cfg, root, x) {
      CountIn(found, x);
    }
    hide One;
    ExcludedAre(crates, cfg, root);
    forall a, b | a in found && a in crates && b in crates[a] && b != "build_helper"
      && (b == "profiler_builtins" ==> cfg.profiler) && (b == "rustc_codegen_llvm" ==> cfg.llvmEnabled)
      ensures b in found
    {
      OthersAreReached(crates, cfg, root, a, b);
    }
  }

  lemma InvAtFirst(crates: Crates, cfg: Config, root: Name)
    ensures Inv(crates, cfg, root, [], [root], {})
  {
  }

  lemma WalkDone(crates: Crates, cfg: Config, root: Name, ret: seq<Name>, visited: set<Name>)
    requires Inv(crates, cfg, root, ret, [], visited) && Closed(crates, ret, visited)
    ensures root in crates
    ensures forall x :: Reaches(crates, cfg, root, x) ==> x in crates
    ensures forall x :: Count(ret, x) == One(x == root) + if Reaches(crates, cfg, root, x) then 1 else 0
  {
    forall x ensures x in Walked(cfg, visited) <==> Reaches(crates, cfg, root, x) {
      if Reaches(crates, cfg, root, x) {
        var path :| Path(crates, cfg, path) && path[0] == root && path[|path| - 1] == x;
        PathVisited(crates, cfg, root, ret, visited, path);
      }
    }
    hide Reaches, Walked;
    forall x | x == root || Reaches(crates, cfg, root, x) ensures x in crates {
      DoneWhenListEmpty(crates, cfg, root, ret, visited, x);
    }
  }

  /** The inner loop: the dependencies of one crate. */
  method VisitDeps(crates: Crates, cfg: Config, root: Name, krate: Name, ghost done: seq<Name>, list0: seq<Name>, visited0: set<Name>)
    returns (list: seq<Name>, visited: set<Name>)
    requires krate in crates && (krate == root || Reaches(crates, cfg, root, krate))
    requires Inv(crates, cfg, root, done, list0, visited0)
    ensures Inv(crates, cfg, root, done, list, visited)
    ensures visited == visited0 + set d | d in crates[krate]
    ensures visited == visited0 ==> list == list0
    ensures visited != visited0 ==> |AllDeps(crates) - visited| < |AllDeps(crates) - visited0|
  {
    list, visited := list0, visited0;
    var deps := crates[krate];
    for i := 0 to |deps|
      invariant Inv(crates, cfg, root, done, list, visited)
      invariant visited == visited0 + set j | 0 <= j < i :: deps[j]
      invariant visited == visited0 ==> list == list0
    {
      var dep := deps[i];
      if dep !in visited {
        InvMore(crates, cfg, root, krate, done, list, visited, dep);
        visited := visited + {dep};
        if Included(cfg, dep) {
          list := list + [dep];
        }
      }
    }
    Fewer(AllDeps(crates), visited0, visited);
  }

  lemma InvMore(crates: Crates, cfg: Config, root: Name, krate: Name, done: seq<Name>, list: seq<Name>, visited: set<Name>, dep: Name)
    requires Inv(crates, cfg, root, done, list, visited) && (krate == root || Reaches(crates, cfg, root, krate))
    requires krate in crates && dep in crates[krate] && dep !in visited
    ensures Inv(crates, cfg, root, done, if Included(cfg, dep) then list + [dep] else list, visited + {dep})
  {
    var w := Walked(cfg, visited);
    if Included(cfg, dep) {
      assert Walked(cfg, visited + {dep}) == w + {dep} && dep !in w;
      forall x ensures Count(list + [dep], x) == Count(list, x) + One(x == dep) {
        CountPush(list, dep, x);
      }
      hide Count;
      ReachesEdge(crates, cfg, root, krate, dep);
    } else {
      assert Walked(cfg, visited + {dep}) == w;
    }
  }

  lemma Fewer(all: set<Name>, a: set<Name>, b: set<Name>)
    requires a <= b <= all
    ensures a != b ==> |all - b| < |all - a|
  {
    if a != b {
      var x :| x in b && x !in a;
      assert all - b <= all - a - {x};
      SubsetSize(all - b, all - a - {x});
    }
  }

  lemma {:induction false} SubsetSize(a: set<Name>, b: set<Name>)
    requires a <= b
    ensures |a| <= |b|
    decreases a
  {
    if x :| x in a {
      SubsetSize(a - {x}, b - {x});
    }
  }
}
