/** Which workspace crates a root crate pulls in: `Build::in_tree_crates`. */
module CrateGraph {
  import opened Basics

  /** The workspace: each member crate with the crates it depends on. */
  type Workspace = map<string, set<string>>

  /** What decides about the optional crates: the profiler setting and the targets that override it,
      the codegen backends, and the target asked for, if any. */
  datatype Features = Features(
    profiler: bool,
    targetProfiler: map<string, Option<bool>>,
    backends: seq<string>,
    target: Option<string>)

  /** The profiler runtime is built for the target; without one, if any target wants it. */
  ghost predicate WantsProfiler(f: Features) {
    if f.target.Some? then
      if f.target.value in f.targetProfiler && f.targetProfiler[f.target.value].Some?
      then f.targetProfiler[f.target.value].value
      else f.profiler
    else f.profiler || exists t :: t in f.targetProfiler && f.targetProfiler[t] == Some(true)
  }

  ghost predicate Wanted(dep: string, f: Features) {
    match dep
    case "build_helper" => false
    case "profiler_builtins" => WantsProfiler(f)
    case "rustc_codegen_llvm" => "llvm" in f.backends
    case _ => true
  }

  ghost predicate DependsOn(ws: Workspace, f: Features, a: string, b: string) {
    a in ws && b in ws[a] && b in ws && Wanted(b, f)
  }

  ghost predicate DependencyPath(ws: Workspace, f: Features, q: seq<string>) {
    |q| >= 2 && forall i :: 0 <= i < |q| - 1 ==> DependsOn(ws, f, q[i], q[i + 1])
  }

  ghost predicate PathBetween(ws: Workspace, f: Features, a: string, b: string, q: seq<string>) {
    DependencyPath(ws, f, q) && q[0] == a && q[|q| - 1] == b
  }

  /** `b` is a direct or indirect dependency of `a`. */
  ghost predicate PullsIn(ws: Workspace, f: Features, a: string, b: string) {
    exists q :: PathBetween(ws, f, a, b, q)
  }

  lemma PullsInDirectly(ws: Workspace, f: Features, a: string, b: string)
    requires DependsOn(ws, f, a, b)
    ensures PullsIn(ws, f, a, b)
  {
    assert PathBetween(ws, f, a, b, [a, b]);
  }

  lemma PullsInThrough(ws: Workspace, f: Features, a: string, b: string, c: string)
    requires PullsIn(ws, f, a, b) && DependsOn(ws, f, b, c)
    ensures PullsIn(ws, f, a, c)
  {
    var q :| PathBetween(ws, f, a, b, q);
    assert PathBetween(ws, f, a, c, q + [c]);
  }

  /** Nothing escapes a set that is closed under dependencies. */
  lemma {:induction false} ClosedHoldsPath(ws: Workspace, f: Features, closed: set<string>, q: seq<string>)
    requires DependencyPath(ws, f, q) && (forall b :: DependsOn(ws, f, q[0], b) ==> b in closed)
    requires forall a, b :: a in closed && DependsOn(ws, f, a, b) ==> b in closed
    ensures q[|q| - 1] in closed
    decreases |q|
  {
    assert DependsOn(ws, f, q[0], q[0 + 1]);
    if |q| > 2 {
      ClosedHoldsPath(ws, f, closed, q[1..]);
    }
  }

  ghost function WantedOf(visited: set<string>, f: Features): set<string> { set d | d in visited && Wanted(d, f) }

  /** `a` has been looked at: its dependencies have been visited, except those still in `todo`. */
  ghost predicate LookedAt(ws: Workspace, f: Features, visited: set<string>, a: string, todo: set<string>) {
    forall b :: DependsOn(ws, f, a, b) ==> b in visited || b in todo
  }

  /** The state of the worklist search between iterations. */
  ghost predicate Searching(ws: Workspace, f: Features, root: string, ret: seq<string>, list: seq<string>,
      visited: set<string>) {
    && root in ws && visited <= ws.Keys
    && multiset(ret) + multiset(list) == multiset{root} + multiset(WantedOf(visited, f))
    && (forall d :: d in visited && Wanted(d, f) ==> PullsIn(ws, f, root, d))
  }

  lemma ListInWorkspace(ws: Workspace, f: Features, root: string, ret: seq<string>, list: seq<string>,
      visited: set<string>, c: string)
    requires Searching(ws, f, root, ret, list, visited) && (c in ret || c in list)
    ensures c in ws && (c == root || c in WantedOf(visited, f)) && visited <= ws.Keys
  {
    assert c in multiset(ret) + multiset(list);
  }

  lemma VisitNew(ws: Workspace, f: Features, root: string, ret: seq<string>, list: seq<string>, visited: set<string>,
      d: string)
    requires Searching(ws, f, root, ret, list, visited) && d in ws && d !in visited
    requires Wanted(d, f) ==> PullsIn(ws, f, root, d)
    ensures Searching(ws, f, root, ret, if Wanted(d, f) then list + [d] else list, visited + {d})
  {
    if Wanted(d, f) {
      var found := WantedOf(visited, f);
      assert WantedOf(visited + {d}, f) == found + {d};
      assert multiset(found + {d}) == multiset(found) + multiset{d};
      assert multiset(ret) + multiset(list + [d]) == (multiset(ret) + multiset(list)) + multiset{d};
      assert multiset{root} + multiset(found + {d}) == (multiset{root} + multiset(found)) + multiset{d};
    } else {
      assert WantedOf(visited + {d}, f) == WantedOf(visited, f);
    }
  }

  lemma Take(ws: Workspace, f: Features, root: string, ret: seq<string>, list: seq<string>, visited: set<string>)
    requires Searching(ws, f, root, ret, list, visited) && list != []
    ensures Searching(ws, f, root, ret + [list[|list| - 1]], list[..|list| - 1], visited)
  {
    assert list == list[..|list| - 1] + [list[|list| - 1]];
  }

  /** The root and everything it pulls in.  A crate that is pulled in is listed once; the root is
      listed once more if it pulls in itself.  Asking for a crate that is no member panics. */
  method InTreeCrates(ws: Workspace, root: string, f: Features) returns (r: Option<seq<string>>)
    ensures r.Some? <==> root in ws
    ensures r.Some? ==> forall c :: c in r.value <==> c == root || PullsIn(ws, f, root, c)
    ensures r.Some? ==> forall c ::
      multiset(r.value)[c] == (if c == root then 1 else 0) + (if PullsIn(ws, f, root, c) then 1 else 0)
  {
    if root !in ws {
      return None;
    }
    var ret: seq<string>, list, visited: set<string> := [], [root], {};
    assert WantedOf(visited, f) == {};
    while list != []
      invariant Searching(ws, f, root, ret, list, visited)
      invariant forall a :: a in ret ==> LookedAt(ws, f, visited, a, {})
      decreases |ws.Keys - visited|, |list|
    {
      var krate := list[|list| - 1];
      ListInWorkspace(ws, f, root, ret, list, visited, krate);
      Take(ws, f, root, ret, list, visited);
      list := list[..|list| - 1];
      ret := ret + [krate];
      list, visited := VisitDependencies(ws, f, root, ret, list, visited, krate);
    }
    Complete(ws, f, root, ret, visited);
    r := Some(ret);
  }

  /** The loop over the dependencies of `krate`, in whatever order the set yields them. */
  method VisitDependencies(ws: Workspace, f: Features, root: string, ret: seq<string>, list0: seq<string>,
      visited0: set<string>, krate: string)
    returns (list: seq<string>, visited: set<string>)
    requires Searching(ws, f, root, ret, list0, visited0) && krate in ret
    requires forall a :: a in ret && a != krate ==> LookedAt(ws, f, visited0, a, {})
    ensures Searching(ws, f, root, ret, list, visited) && visited0 <= visited
    ensures forall a :: a in ret ==> LookedAt(ws, f, visited, a, {})
    ensures visited == visited0 ==> list == list0
    ensures |ws.Keys - visited| < |ws.Keys - visited0| || visited == visited0
  {
    hide Searching, WantsProfiler, PullsIn;
    ListInWorkspace(ws, f, root, ret, list0, visited0, krate);
    list, visited := list0, visited0;
    var todo := ws[krate];
    while todo != {}
      invariant todo <= ws[krate]
      invariant Searching(ws, f, root, ret, list, visited) && visited0 <= visited <= ws.Keys
      invariant LookedAt(ws, f, visited, krate, todo)
      invariant visited == visited0 ==> list == list0
      decreases todo
    {
      var dep :| dep in todo;
      todo := todo - {dep};
      if dep in ws && dep !in visited {
        if Wanted(dep, f) {
          Pulled(ws, f, root, ret, list, visited, krate, dep);
        }
        VisitNew(ws, f, root, ret, list, visited, dep);
        visited := visited + {dep};
        var profiler := ProfilerEnabled(f);
        if dep != "build_helper" && (dep != "profiler_builtins" || profiler)
          && (dep != "rustc_codegen_llvm" || "llvm" in f.backends)
        {
          list := list + [dep];
        }
      }
    }
    Shrinks(ws.Keys, visited0, visited);
  }

  /** `profiler_enabled` for the target asked for, else `any_profiler_enabled`. */
  method ProfilerEnabled(f: Features) returns (enabled: bool)
    ensures enabled <==> WantsProfiler(f)
  {
    enabled := f.profiler;
    if f.target.Some? {
      if f.target.value in f.targetProfiler {
        var setting := f.targetProfiler[f.target.value];
        enabled := if setting.Some? then setting.value else f.profiler;
      }
    } else {
      var todo := f.targetProfiler.Keys;
      while todo != {}
        invariant todo <= f.targetProfiler.Keys
        invariant enabled <==>
          f.profiler || exists t :: t in f.targetProfiler && t !in todo && f.targetProfiler[t] == Some(true)
        decreases todo
      {
        var t :| t in todo;
        todo := todo - {t};
        enabled := enabled || f.targetProfiler[t] == Some(true);
      }
    }
  }

  lemma Pulled(ws: Workspace, f: Features, root: string, ret: seq<string>, list: seq<string>, visited: set<string>,
      a: string, b: string)
    requires Searching(ws, f, root, ret, list, visited) && a in ret && DependsOn(ws, f, a, b)
    ensures PullsIn(ws, f, root, b)
  {
    ListInWorkspace(ws, f, root, ret, list, visited, a);
    if a == root {
      PullsInDirectly(ws, f, root, b);
    } else {
      PullsInThrough(ws, f, root, a, b);
    }
  }

  lemma Shrinks(all: set<string>, a: set<string>, b: set<string>)
    requires a <= b <= all
    ensures |all - b| < |all - a| || a == b
  {
    if a != b {
      var x :| x in b && x !in a;
      SubsetSize(all - b, all - a - {x});
    }
  }

  /** When the list is empty, the wanted visited crates are exactly what the root pulls in. */
  lemma Complete(ws: Workspace, f: Features, root: string, ret: seq<string>, visited: set<string>)
    requires Searching(ws, f, root, ret, [], visited)
    requires forall a :: a in ret ==> LookedAt(ws, f, visited, a, {})
    ensures forall c :: PullsIn(ws, f, root, c) <==> c in WantedOf(visited, f)
    ensures forall c :: multiset(ret)[c] == (if c == root then 1 else 0) + (if PullsIn(ws, f, root, c) then 1 else 0)
    ensures forall c :: c in ret <==> c == root || PullsIn(ws, f, root, c)
  {
    var found := WantedOf(visited, f);
    var none: seq<string> := [];
    assert multiset(ret) + multiset(none) == multiset(ret);
    assert forall c :: c in ret <==> c in multiset(ret);
    forall a, b | a in ret && DependsOn(ws, f, a, b) ensures b in found {
      assert LookedAt(ws, f, visited, a, {});
    }
    assert root in ret && forall c :: c in found ==> c in ret;
    forall c ensures PullsIn(ws, f, root, c) <==> c in found {
      if PullsIn(ws, f, root, c) {
        var q :| PathBetween(ws, f, root, c, q);
        ClosedHoldsPath(ws, f, found, q);
      }
    }
  }
}
