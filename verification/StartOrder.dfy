/** TopoOrder: the start order of a set of services and all they depend on. */
module StartOrder {
  import opened Wrappers
  import opened Text
  import opened Graph

  /** `b` is named in the depends_on list of the declared service `a`. */
  predicate DependsOn(c: Config, a: Name, b: Name) {
    a in c.services && b in c.services[a]
  }

  ghost predicate Path(c: Config, p: seq<Name>) {
    p != [] && forall i | 0 <= i < |p| - 1 :: DependsOn(c, p[i], p[i + 1])
  }

  ghost predicate Joins(c: Config, p: seq<Name>, a: Name, b: Name) {
    Path(c, p) && p[0] == a && p[|p| - 1] == b
  }

  /** `b` is `a` or one of its direct or indirect dependencies. */
  ghost predicate Reaches(c: Config, a: Name, b: Name) {
    exists p :: Joins(c, p, a, b)
  }

  ghost predicate Needed(c: Config, names: seq<Name>, x: Name) {
    exists n <- names :: Reaches(c, n, x)
  }

  lemma ReachesSelf(c: Config, a: Name)
    ensures Reaches(c, a, a)
  {
    assert Joins(c, [a], a, a);
  }

  lemma ReachesStep(c: Config, a: Name, b: Name, d: Name)
    requires DependsOn(c, a, b) && Reaches(c, b, d)
    ensures Reaches(c, a, d)
  {
    var p :| Joins(c, p, b, d);
    assert Joins(c, [a] + p, a, d);
  }

  /** A list that contains the dependencies of its members contains whatever its
      members reach. */
  lemma {:induction false} ClosedContains(c: Config, s: set<Name>, p: seq<Name>)
    requires Path(c, p) && p[0] in s
    requires forall a, b | a in s && DependsOn(c, a, b) :: b in s
    ensures p[|p| - 1] in s
    decreases |p|
  {
    if |p| > 1 {
      assert DependsOn(c, p[0], p[1]);
      ClosedContains(c, s, p[1..]);
    }
  }

  datatype Failure = Cycle(walk: seq<Name>) | Missing(name: Name)

  /** Each dependency of a listed service, other than itself, is listed before. */
  ghost predicate DependenciesFirst(c: Config, order: seq<Name>) {
    forall i, b | 0 <= i < |order| && DependsOn(c, order[i], b) :: b == order[i] || b in order[..i]
  }

  /** The variables that the closure in TopoOrder captures. */
  class Expander {
    const c: Config
    var visited: set<Name>
    var order: seq<Name>

    constructor (c: Config)
      requires Acyclic(c)
      ensures this.c == c && visited == {} && order == [] && Valid([])
    {
      this.c := c;
      visited, order := {}, [];
    }

    /** `path` are the services whose dependencies are being expanded. */
    ghost predicate Valid(path: seq<Name>)
      reads this
    {
      && Acyclic(c)
      && visited <= c.services.Keys
      && visited == Elements(order) + Elements(path)
      && Distinct(order) && Distinct(path) && Elements(order) !! Elements(path)
      && Walk(c, path)
      && DependenciesFirst(c, order)
    }

    /** A service on the path that is met again depends on itself. */
    lemma MetAgain(path: seq<Name>, name: Name)
      requires Valid(path) && path != [] && DependsOn(c, path[|path| - 1], name) && name in path
      ensures name == path[|path| - 1]
    {
      var k :| 0 <= k < |path| && path[k] == name;
      if k < |path| - 1 {
        var w := path[k..] + [name];
        forall i | 0 <= i < |w| - 1 ensures Edge(c, w[i], w[i + 1]) {
          if i < |w| - 2 {
            assert Edge(c, path[k + i], path[k + i + 1]);
          } else {
            assert path[|path| - 1] in Elements(path) && name in Elements(path);
          }
        }
        assert ClosedWalk(c, w);
      }
    }

    method Enter(name: Name, ghost path: seq<Name>)
      requires Valid(path) && name !in visited && name in c.services
      requires path != [] ==> DependsOn(c, path[|path| - 1], name)
      modifies this`visited
      ensures Valid(path + [name]) && visited == old(visited) + {name}
    {
      ElementsSnoc(path, name);
      assert name !in Elements(path) && name !in Elements(order);
      DistinctSnoc(path, name);
      if path != [] {
        assert path[|path| - 1] in Elements(path);
      }
      visited := visited + {name};
    }

    method Finish(name: Name, ghost path: seq<Name>)
      requires Valid(path + [name])
      requires forall b | DependsOn(c, name, b) :: b == name || b in order
      modifies this`order
      ensures Valid(path) && order == old(order) + [name]
    {
      ElementsSnoc(path, name);
      ElementsSnoc(order, name);
      assert (path + [name])[|path|] == name;
      assert name in Elements(path + [name]);
      DistinctSnoc(order, name);
      order := order + [name];
      assert forall i | 0 <= i < |order| - 1 :: order[..i] == old(order)[..i];
      assert forall i | 0 <= i < |path| :: path[i] == (path + [name])[i];
      assert Walk(c, path);
    }

    method Visit(name: Name, ghost path: seq<Name>) returns (missing: Option<Name>)
      requires Valid(path)
      requires path != [] ==> DependsOn(c, path[|path| - 1], name)
      modifies this
      decreases c.services.Keys - visited
      ensures Acyclic(c)
      ensures missing.Some? ==> missing.value !in c.services && Reaches(c, name, missing.value)
      ensures missing.None? ==> Valid(path) && old(order) <= order
      ensures missing.None? ==> name in order || (path != [] && name == path[|path| - 1])
      ensures missing.None? ==> forall x <- order | x !in old(order) :: Reaches(c, name, x)
    {
      if name in visited {
        if name !in order {
          assert name in Elements(path);
          MetAgain(path, name);
        }
        return None;
      }
      ReachesSelf(c, name);
      if name !in c.services {
        return Some(name);
      }
      ghost var longer := path + [name];
      Enter(name, path);
      var deps := c.services[name];
      for i := 0 to |deps|
        invariant Valid(longer) && old(order) <= order && old(visited) < visited
        invariant forall j | 0 <= j < i :: deps[j] == name || deps[j] in order
        invariant forall x <- order | x !in old(order) :: Reaches(c, name, x)
      {
        ghost var before := order;
        assert DependsOn(c, name, deps[i]);
        missing := Visit(deps[i], longer);
        if missing.Some? {
          ReachesStep(c, name, deps[i], missing.value);
          return;
        }
        forall x <- order | x !in before ensures Reaches(c, name, x) {
          ReachesStep(c, name, deps[i], x);
        }
      }
      Finish(name, path);
      missing := None;
    }
  }

  /** The start order, exactly.  It fails precisely for a configuration with a
      cycle and for names that reach an undeclared one. */
  method TopoOrder(c: Config, names: seq<Name>) returns (r: Result<seq<Name>, Failure>)
    requires Distinct(c.order)
    ensures r.Ok? <==> Acyclic(c) && forall x | Needed(c, names, x) :: x in c.services
    ensures r.Ok? ==> Distinct(r.value) && DependenciesFirst(c, r.value)
    ensures r.Ok? ==> forall x :: x in r.value <==> Needed(c, names, x)
    ensures r.Err? && r.error.Cycle? ==> IsCycle(c, r.error.walk)
    ensures r.Err? && r.error.Missing? ==>
              Acyclic(c) && r.error.name !in c.services && Needed(c, names, r.error.name)
  {
    var cycle := FindCycle(c);
    if cycle != [] {
      return Err(Cycle(cycle));
    }
    var e := new Expander(c);
    for i := 0 to |names|
      invariant e.c == c && e.Valid([])
      invariant forall j | 0 <= j < i :: names[j] in e.order
      invariant forall x <- e.order :: Needed(c, names, x)
    {
      ghost var before := e.order;
      var missing := e.Visit(names[i], []);
      if missing.Some? {
        return Err(Missing(missing.value));
      }
      forall x <- e.order | x !in before ensures Needed(c, names, x) {
        assert Reaches(c, names[i], x);
      }
    }
    r := Ok(e.order);
    forall x | Needed(c, names, x) ensures x in e.order {
      var n :| n in names && Reaches(c, n, x);
      var p :| Joins(c, p, n, x);
      OrderIsClosed(c, e.order);
      ClosedContains(c, Elements(e.order), p);
    }
    assert forall x <- e.order :: x in Elements(e.order);
  }

  lemma OrderIsClosed(c: Config, order: seq<Name>)
    requires DependenciesFirst(c, order)
    ensures forall a, b | a in Elements(order) && DependsOn(c, a, b) :: b in Elements(order)
  {
  }
}
