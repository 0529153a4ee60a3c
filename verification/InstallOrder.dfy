/**
 The install order of the workspace packages: a depth-first search that appends a package after
 its local dependencies and raises on a dependency cycle.
 */
module InstallOrder {

  /** Canonical package name to the canonical names of its declared dependencies, in order. */
  type Workspace = map<string, seq<string>>

  // ---------- What the search is about: paths of local dependencies ----------

  /** `a` declares `b`, and both are workspace packages. */
  ghost predicate DependsOn(ws: Workspace, a: string, b: string) {
    a in ws && b in ws && b in ws[a]
  }

  ghost predicate IsPath(ws: Workspace, p: seq<string>) {
    && p != []
    && p[0] in ws
    && forall i :: 0 < i < |p| ==> DependsOn(ws, p[i - 1], p[i])
  }

  ghost predicate Reachable(ws: Workspace, a: string, b: string) {
    exists p :: IsPath(ws, p) && p[0] == a && p[|p| - 1] == b
  }

  /** Some package reachable from `a` reaches itself in at least one step. */
  ghost predicate ReachesCycle(ws: Workspace, a: string) {
    exists p, i :: IsPath(ws, p) && p[0] == a && 0 <= i < |p| - 1 && p[i] == p[|p| - 1]
  }

  /** `a` depends on itself, through other packages or directly. */
  ghost predicate OnCycle(ws: Workspace, a: string) {
    exists p :: IsPath(ws, p) && |p| > 1 && p[0] == a && p[|p| - 1] == a
  }

  ghost predicate NoDuplicates(s: seq<string>) {
    forall i, j :: 0 <= i < j < |s| ==> s[i] != s[j]
  }

  /** Every local dependency of a listed package stands before it. */
  ghost predicate DependenciesFirst(ws: Workspace, s: seq<string>) {
    forall i, d :: 0 <= i < |s| && DependsOn(ws, s[i], d) ==> d in s[..i]
  }

  // ---------- Facts about paths ----------

  lemma ExtendPath(ws: Workspace, p: seq<string>, b: string)
    requires IsPath(ws, p) && DependsOn(ws, p[|p| - 1], b)
    ensures IsPath(ws, p + [b])
  {
  }

  lemma TailOfPath(ws: Workspace, p: seq<string>, i: nat)
    requires IsPath(ws, p) && i < |p|
    ensures IsPath(ws, p[i..])
  {
    if i > 0 { assert DependsOn(ws, p[i - 1], p[i]); }
    forall k | 0 < k < |p[i..]| ensures DependsOn(ws, p[i..][k - 1], p[i..][k]) {
      assert DependsOn(ws, p[i + k - 1], p[i + k]);
    }
  }

  lemma ReachableTransitive(ws: Workspace, a: string, b: string, c: string)
    requires Reachable(ws, a, b) && Reachable(ws, b, c)
    ensures Reachable(ws, a, c)
  {
    var p :| IsPath(ws, p) && p[0] == a && p[|p| - 1] == b;
    var q :| IsPath(ws, q) && q[0] == b && q[|q| - 1] == c;
    var r := p + q[1..];
    forall i | 0 < i < |r| ensures DependsOn(ws, r[i - 1], r[i]) {
      if i > |p| {
        assert r[i] == q[i - |p| + 1];
      } else if i == |p| {
        assert r[i] == q[1];
      }
    }
    assert r[|r| - 1] == c;
  }

  /** In a list with dependencies first, a path that starts in the list stays in it and moves to the left. */
  lemma {:induction false} PathMovesLeft(ws: Workspace, s: seq<string>, p: seq<string>, k: nat, pos: nat)
    requires DependenciesFirst(ws, s) && NoDuplicates(s)
    requires IsPath(ws, p) && k < |p| && pos < |s| && s[pos] == p[0]
    ensures p[k] in s[..pos + 1]
    ensures k > 0 ==> p[k] in s[..pos]
  {
    if k == 0 {
      assert s[..pos + 1][pos] == p[0];
    } else {
      PathMovesLeft(ws, s, p, k - 1, pos);
      var i :| 0 <= i < pos + 1 && s[i] == p[k - 1];
      assert DependsOn(ws, p[k - 1], p[k]);
      var j :| 0 <= j < i && s[j] == p[k];
    }
  }

  /** A list with dependencies first that holds `a` excludes a cycle below `a`. */
  lemma OrderedMeansAcyclic(ws: Workspace, s: seq<string>, a: string)
    requires DependenciesFirst(ws, s) && NoDuplicates(s) && a in s
    ensures !ReachesCycle(ws, a)
  {
    if ReachesCycle(ws, a) {
      var p, i :| IsPath(ws, p) && p[0] == a && 0 <= i < |p| - 1 && p[i] == p[|p| - 1];
      var q := p[i..];
      var pos0 :| 0 <= pos0 < |s| && s[pos0] == a;
      PathMovesLeft(ws, s, p, i, pos0);
      var pos :| 0 <= pos < |s| && s[pos] == p[i];
      TailOfPath(ws, p, i);
      PathMovesLeft(ws, s, q, |q| - 1, pos);
    }
  }

  /** A list with dependencies first that holds `a` holds all that `a` reaches. */
  lemma OrderedMeansClosed(ws: Workspace, s: seq<string>, a: string, b: string)
    requires DependenciesFirst(ws, s) && NoDuplicates(s) && a in s && Reachable(ws, a, b)
    ensures b in s
  {
    var p :| IsPath(ws, p) && p[0] == a && p[|p| - 1] == b;
    var pos :| 0 <= pos < |s| && s[pos] == a;
    PathMovesLeft(ws, s, p, |p| - 1, pos);
  }

  // ---------- The search ----------

  datatype Resolution =
    | Order(packages: seq<string>)
    | Cycle(at: string)
    | UnknownPackage

  class Resolver {
    const packages: Workspace
    var ordered: seq<string>
    var visiting: set<string>
    var visited: set<string>

    constructor (packages: Workspace)
      ensures this.packages == packages
      ensures ordered == [] && visiting == {} && visited == {}
    {
      this.packages := packages;
      ordered, visiting, visited := [], {}, {};
    }

    ghost predicate Valid()
      reads this
    {
      && visiting !! visited
      && (forall x :: x in visited <==> x in ordered)
      && (forall x :: x in ordered ==> x in packages)
      && NoDuplicates(ordered)
      && DependenciesFirst(packages, ordered)
    }

    /** `stack` lists the packages being visited, outermost first: each depends on the next, the last on `name`. */
    method Visit(name: string, ghost stack: seq<string>) returns (cycleAt: seq<string>)
      requires Valid() && name in packages
      requires visiting == (set x | x in stack) && NoDuplicates(stack)
      requires IsPath(packages, stack + [name])
      modifies this`ordered, this`visiting, this`visited
      decreases packages.Keys - visiting
      ensures cycleAt == [] || |cycleAt| == 1
      ensures cycleAt == [] ==> Valid() && visiting == old(visiting) && name in visited
      ensures cycleAt == [] ==> old(ordered) <= ordered
      ensures cycleAt == [] ==> forall x :: x in ordered && x !in old(ordered) ==> Reachable(packages, name, x)
      ensures cycleAt == [] && name !in old(visited) ==> |ordered| > 0 && ordered[|ordered| - 1] == name
      ensures cycleAt != [] ==> ReachesCycle(packages, (stack + [name])[0]) && Reachable(packages, (stack + [name])[0], cycleAt[0])
      ensures cycleAt != [] ==> OnCycle(packages, cycleAt[0])
    {
      if name in visited {
        return [];
      }
      ghost var trail := stack + [name];
      assert trail[|trail| - 1] == name;
      if name in visiting {
        ghost var i :| 0 <= i < |stack| && stack[i] == name;
        assert trail[i] == name;
        TailOfPath(packages, trail, i);
        assert trail[i..][0] == name && trail[i..][|trail| - i - 1] == name;
        return [name];
      }
      visiting := visiting + {name};
      var dependencies := packages[name];
      var i := 0;
      while i < |dependencies|
        invariant 0 <= i <= |dependencies|
        invariant Valid() && visiting == old(visiting) + {name} && name !in visited
        invariant old(ordered) <= ordered
        invariant forall x :: x in ordered && x !in old(ordered) ==> Reachable(packages, name, x)
        invariant forall k :: 0 <= k < i && dependencies[k] in packages ==> dependencies[k] in visited
      {
        var dependency := dependencies[i];
        if dependency in packages {
          ExtendPath(packages, trail, dependency);
          ghost var before := ordered;
          cycleAt := Visit(dependency, trail);
          if cycleAt != [] {
            assert (trail + [dependency])[0] == trail[0];
            return;
          }
          forall x | x in ordered && x !in before ensures Reachable(packages, name, x) {
            assert IsPath(packages, [name, dependency]) && [name, dependency][1] == dependency;
            ReachableTransitive(packages, name, dependency, x);
          }
        }
        i := i + 1;
      }
      visiting := visiting - {name};
      visited := visited + {name};
      ghost var before := ordered;
      ordered := ordered + [name];
      assert IsPath(packages, [name]);
      forall k, d | 0 <= k < |ordered| && DependsOn(packages, ordered[k], d) ensures d in ordered[..k] {
        if k < |before| {
          assert ordered[..k] == before[..k];
        } else {
          assert ordered[..k] == before;
        }
      }
      return [];
    }

    /** Called on a fresh resolver. */
    method ResolveLocalInstallOrder(target: string) returns (r: Resolution)
      requires ordered == [] && visiting == {} && visited == {}
      modifies this`ordered, this`visiting, this`visited
      ensures r.UnknownPackage? <==> target !in packages
      ensures r.Cycle? <==> target in packages && ReachesCycle(packages, target)
      ensures r.Cycle? ==> Reachable(packages, target, r.at) && OnCycle(packages, r.at)
      ensures r.Order? ==>
        && NoDuplicates(r.packages)
        && DependenciesFirst(packages, r.packages)
        && (forall x :: x in r.packages <==> Reachable(packages, target, x))
        && r.packages != [] && r.packages[|r.packages| - 1] == target
    {
      if target !in packages {
        return UnknownPackage;
      }
      assert IsPath(packages, [] + [target]);
      var cycleAt := Visit(target, []);
      if cycleAt != [] {
        return Cycle(cycleAt[0]);
      }
      OrderedMeansAcyclic(packages, ordered, target);
      forall x | Reachable(packages, target, x) ensures x in ordered {
        OrderedMeansClosed(packages, ordered, target, x);
      }
      return Order(ordered);
    }
  }
}
