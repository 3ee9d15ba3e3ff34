/** The search for a cycle among the workspace's packages. */
module CycleSearch {
  import opened Protocol

  type Package = int
  type Dependencies = map<Package, set<Package>>

  ghost predicate Edge(deps: Dependencies, a: Package, b: Package) { a in deps && b in deps[a] }

  ghost predicate IsPath(deps: Dependencies, path: seq<Package>) {
    forall i :: 0 <= i < |path| - 1 ==> Edge(deps, path[i], path[i + 1])
  }

  ghost predicate IsCycle(deps: Dependencies, path: seq<Package>) {
    |path| >= 2 && IsPath(deps, path) && path[0] == path[|path| - 1]
  }

  ghost predicate Acyclic(deps: Dependencies) { forall path :: !IsCycle(deps, path) }

  /** Some one cycle goes through all the named packages. */
  ghost predicate OnOneCycle(deps: Dependencies, names: seq<Package>) {
    names != [] && exists path :: IsCycle(deps, path) && forall n :: n in names ==> n in path
  }

  /** The names are the two packages of one step of a cycle, in name order, and one name if it is a loop. */
  ghost predicate NamesAStep(deps: Dependencies, names: seq<Package>) {
    exists path :: IsCycle(deps, path) && NamesEnd(path, names)
  }

  ghost predicate NamesEnd(path: seq<Package>, names: seq<Package>)
    requires |path| >= 2
  {
    var a, b := path[|path| - 2], path[|path| - 1];
    && (forall n :: n in names <==> n == a || n == b)
    && |names| == (if a == b then 1 else 2) && (a != b ==> names[0] < names[1])
  }

  /** Each package comes after everything it depends on. */
  ghost predicate InOrder(deps: Dependencies, order: seq<Package>) {
    order == [] ||
    var init, last := order[..|order| - 1], order[|order| - 1];
    && InOrder(deps, init) && last !in init
    && (last in deps ==> forall d :: d in deps[last] ==> d in init)
  }

  /** A path that starts among ordered packages stays there. */
  lemma {:induction false} PathStays(deps: Dependencies, order: seq<Package>, path: seq<Package>, i: nat)
    requires InOrder(deps, order) && IsPath(deps, path) && i < |path| && path[0] in order
    ensures path[i] in order
  {
    if i > 0 {
      PathStays(deps, order, path, i - 1);
      assert Edge(deps, path[i - 1], path[i - 1 + 1]);
      EdgeStays(deps, order, path[i - 1], path[i]);
    }
  }

  lemma {:induction false} EdgeStays(deps: Dependencies, order: seq<Package>, a: Package, b: Package)
    requires InOrder(deps, order) && Edge(deps, a, b) && a in order
    ensures b in order
  {
    var init := order[..|order| - 1];
    if a in init {
      EdgeStays(deps, init, a, b);
    }
  }

  /** No cycle goes through an ordered package. */
  lemma {:induction false} OrderedIsAcyclic(deps: Dependencies, order: seq<Package>, path: seq<Package>)
    requires InOrder(deps, order) && IsCycle(deps, path)
    ensures path[0] !in order
  {
    if path[0] in order {
      var init, last := order[..|order| - 1], order[|order| - 1];
      if path[0] in init {
        OrderedIsAcyclic(deps, init, path);
      } else {
        assert Edge(deps, path[0], path[0 + 1]);
        var tail := path[1..];
        assert IsPath(deps, tail) by {
          forall i | 0 <= i < |tail| - 1 ensures Edge(deps, tail[i], tail[i + 1]) {
            assert Edge(deps, path[i + 1], path[i + 1 + 1]);
          }
        }
        PathStays(deps, init, tail, |tail| - 1);
      }
    }
  }

  lemma CycleAlongStack(deps: Dependencies, stack: seq<Package>, package: Package, next: Package)
    requires IsPath(deps, stack + [package]) && Edge(deps, package, next) && next in stack + [package]
    ensures OnOneCycle(deps, [package]) && OnOneCycle(deps, [package, next]) && OnOneCycle(deps, [next, package])
    ensures NamesAStep(deps, if package == next then [package]
                             else if package < next then [package, next] else [next, package])
  {
    var path := stack + [package];
    var k :| 0 <= k < |path| && path[k] == next;
    var cycle := path[k..] + [next];
    assert IsCycle(deps, cycle) by {
      forall i | 0 <= i < |cycle| - 1 ensures Edge(deps, cycle[i], cycle[i + 1]) {
        if i < |cycle| - 2 {
          assert Edge(deps, path[k + i], path[k + i + 1]);
        }
      }
    }
    assert cycle[|path| - 1 - k] == package && cycle[0] == next;
    assert NamesEnd(cycle, if package == next then [package]
                           else if package < next then [package, next] else [next, package]);
  }

  class CycleFinder {
    const deps: Dependencies
    var visiting: set<Package>
    var visited: set<Package>
    ghost const all: set<Package>
    ghost var order: seq<Package>

    constructor (deps: Dependencies)
      ensures this.deps == deps && visiting == {} && visited == {} && order == [] && Valid()
      ensures deps.Keys <= all
    {
      this.deps := deps;
      visiting, visited, order := {}, {}, [];
      var named := set k, d | k in deps && d in deps[k] :: d;
      all := deps.Keys + named;
      new;
      assert forall k :: k in this.deps ==> forall d :: d in this.deps[k] ==> d in named;
    }

    /** The visited packages, in the order they were left, come after what they depend on. */
    ghost predicate Valid()
      reads this
    {
      && InOrder(deps, order) && (forall p :: p in visited <==> p in order)
      && visited !! visiting
      && (forall k :: k in deps ==> deps[k] <= all)
    }

    /** Visits a package below those on the stack. It comes back with nothing exactly when what the
        package needs is in order; otherwise the names it gives lie on one cycle. */
    method FindCycle(package: Package, ghost stack: seq<Package>) returns (cycle: Option<seq<Package>>)
      requires Valid() && package in all && IsPath(deps, stack + [package])
      requires forall p :: p in visiting <==> p in stack
      modifies this
      ensures cycle.Some? ==> OnOneCycle(deps, cycle.value)
      ensures cycle.Some? && package !in old(visiting) ==> NamesAStep(deps, cycle.value)
      ensures cycle.None? ==> Valid() && visiting == old(visiting) && package in visited && old(visited) <= visited
      decreases all - visiting
    {
      if package in visited {
        return None;
      }
      if package in visiting {
        StackRevisited(stack, package);
        return Some([package]);
      }
      visiting := visiting + {package};
      ghost var path := stack + [package];
      assert forall p :: p in visiting <==> p in path;
      var rest := if package in deps then deps[package] else {};
      while rest != {}
        invariant Valid() && visiting == old(visiting) + {package} && old(visited) <= visited
        invariant package in deps ==> rest <= deps[package]
        invariant package !in deps ==> rest == {}
        invariant package in deps ==> forall d :: d in deps[package] ==> d in rest || d in visited
        invariant package !in visited
        decreases rest
      {
        var dependency := Least(rest);
        assert Edge(deps, package, dependency);
        if dependency in visiting {
          CycleAlongStack(deps, stack, package, dependency);
          return Some(if package == dependency then [package]
                      else if package < dependency then [package, dependency] else [dependency, package]);
        }
        PathGrows(path, dependency);
        var found := FindCycle(dependency, path);
        if found.Some? {
          return found;
        }
        rest := rest - {dependency};
      }
      visiting := visiting - {package};
      visited := visited + {package};
      assert (order + [package])[..|order|] == order;
      order := order + [package];
      return None;
    }

    lemma StackRevisited(stack: seq<Package>, package: Package)
      requires IsPath(deps, stack + [package]) && package in stack
      ensures OnOneCycle(deps, [package])
    {
      var path := stack + [package];
      var k :| 0 <= k < |stack| && stack[k] == package;
      var last := stack[|stack| - 1];
      assert Edge(deps, path[|stack| - 1], path[|stack| - 1 + 1]);
      assert stack[..|stack| - 1] + [last] == stack;
      assert IsPath(deps, stack) by {
        forall i | 0 <= i < |stack| - 1 ensures Edge(deps, stack[i], stack[i + 1]) {
          assert Edge(deps, path[i], path[i + 1]);
        }
      }
      CycleAlongStack(deps, stack[..|stack| - 1], last, package);
      var cycle :| IsCycle(deps, cycle) && forall n :: n in [last, package] ==> n in cycle;
      assert package in [last, package];
    }

    lemma PathGrows(path: seq<Package>, next: Package)
      requires path != [] && IsPath(deps, path) && Edge(deps, path[|path| - 1], next)
      ensures IsPath(deps, path + [next])
    {
      var longer := path + [next];
      forall i | 0 <= i < |longer| - 1 ensures Edge(deps, longer[i], longer[i + 1]) {
        if i < |path| - 1 {
          assert Edge(deps, path[i], path[i + 1]);
        }
      }
    }
  }

  /** Accepts exactly the dependency graphs without a cycle; a refusal names packages of one cycle. */
  method ValidateNoCycle(deps: Dependencies) returns (cycle: Option<seq<Package>>)
    ensures cycle.None? <==> Acyclic(deps)
    ensures cycle.Some? ==> OnOneCycle(deps, cycle.value) && NamesAStep(deps, cycle.value)
  {
    var finder := new CycleFinder(deps);
    var rest := deps.Keys;
    while rest != {}
      invariant fresh(finder) && finder.deps == deps && rest <= deps.Keys <= finder.all
      invariant finder.Valid() && finder.visiting == {}
      invariant forall p :: p in deps ==> p in rest || p in finder.visited
      decreases rest
    {
      var package := Least(rest);
      assert [] + [package] == [package];
      cycle := finder.FindCycle(package, []);
      if cycle.Some? {
        return;
      }
      rest := rest - {package};
    }
    forall path ensures !IsCycle(deps, path) {
      if IsCycle(deps, path) {
        assert Edge(deps, path[0], path[0 + 1]);
        OrderedIsAcyclic(deps, finder.order, path);
      }
    }
    return None;
  }
}
