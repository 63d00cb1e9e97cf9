/**
 The dependency graph of a configuration: the cycle finder and the start order.
 */
module Graph {
  import opened Text

  type Name = string

  /** The parts of a parsed devman.yaml that the graph needs: per declared
      service the names it depends on, and the order of declaration. */
  datatype Config = Config(services: map<Name, seq<Name>>, order: seq<Name>)

  // ------------------------------------------------------------------- graphs

  /** A dependency between two distinct declared services. */
  predicate Edge(c: Config, a: Name, b: Name) {
    a in c.services && b in c.services && b in c.services[a] && a != b
  }

  ghost predicate Walk(c: Config, w: seq<Name>) {
    forall i | 0 <= i < |w| - 1 :: Edge(c, w[i], w[i + 1])
  }

  /** A walk of at least one dependency that returns to its start. */
  ghost predicate ClosedWalk(c: Config, w: seq<Name>) {
    |w| >= 2 && w[0] == w[|w| - 1] && Walk(c, w)
  }

  ghost predicate Acyclic(c: Config) {
    forall w :: !ClosedWalk(c, w)
  }

  /** What findCycle reports: a closed walk through at least two services that
      repeats nothing else. */
  ghost predicate IsCycle(c: Config, w: seq<Name>) {
    |w| >= 3 && ClosedWalk(c, w) && Distinct(w[..|w| - 1])
  }

  /** Every dependency of a listed service is listed earlier. */
  ghost predicate Ranked(c: Config, done: seq<Name>) {
    forall i, b | 0 <= i < |done| && Edge(c, done[i], b) :: b in done[..i]
  }

  /** Each step of a walk goes strictly down in a ranking. */
  lemma {:induction false} WalkGoesDown(c: Config, done: seq<Name>, w: seq<Name>, i: nat, j: nat)
    requires Ranked(c, done) && Walk(c, w) && |w| >= 1
    requires i < |done| && w[0] == done[i] && j < |w|
    ensures exists k :: 0 <= k <= i && k < |done| && done[k] == w[j] && (j > 0 ==> k < i)
    decreases j
  {
    if j > 0 {
      WalkGoesDown(c, done, w, i, j - 1);
      var k :| 0 <= k <= i && k < |done| && done[k] == w[j - 1];
      assert Edge(c, done[k], w[j]);
      var m :| 0 <= m < k && done[m] == w[j];
    }
  }

  lemma RankedIsAcyclic(c: Config, done: seq<Name>)
    requires Distinct(done) && Ranked(c, done) && c.services.Keys <= Elements(done)
    ensures Acyclic(c)
  {
    forall w | ClosedWalk(c, w) ensures false {
      assert Edge(c, w[0], w[1]);
      assert w[0] in done;
      var i :| 0 <= i < |done| && done[i] == w[0];
      WalkGoesDown(c, done, w, i, |w| - 1);
    }
  }

  // -------------------------------------------------------------- service names

  /** The services in the order of declaration, or sorted if the recorded order misses
      one of them. */
  ghost function AllServices(c: Config): seq<Name> {
    if c.services.Keys <= Elements(c.order) then Keep(c.order, c.services.Keys) else Sort(c.services.Keys)
  }

  method ServiceNames(c: Config) returns (names: seq<Name>)
    ensures Elements(names) <= c.services.Keys
    ensures Distinct(c.order) ==> names == AllServices(c) && Elements(names) == c.services.Keys && Distinct(names)
  {
    names := [];
    for i := 0 to |c.order|
      invariant names == Keep(c.order[..i], c.services.Keys)
    {
      var name := c.order[i];
      assert c.order[..i + 1][..i] == c.order[..i];
      if name in c.services {
        names := names + [name];
      }
    }
    assert c.order[..|c.order|] == c.order;
    KeepElements(c.order, c.services.Keys);
    if Distinct(c.order) {
      KeepDistinct(c.order, c.services.Keys);
      CountTells(names, c.services.Keys);
    }
    if |names| == |c.services| {
      return;
    }
    names := SortedKeys(c.services);
    AscendingIsDistinct(names);
    SortUnique(names);
  }

  /** The number of distinct services tells whether all are there. */
  lemma CountTells(names: seq<Name>, all: set<Name>)
    requires Distinct(names) && Elements(names) <= all
    ensures |names| == |all| <==> Elements(names) == all
  {
    DistinctCount(names);
    if |names| == |all| {
      SubsetOfSameSize(Elements(names), all);
    }
  }

  lemma {:induction false} DistinctCount(s: seq<Name>)
    requires Distinct(s)
    ensures |Elements(s)| == |s|
  {
    if s != [] {
      var front, last := s[..|s| - 1], s[|s| - 1];
      DistinctCount(front);
      assert s == front + [last];
      assert Elements(s) == Elements(front) + {last};
    }
  }

  lemma SubsetOfSameSize(a: set<Name>, b: set<Name>)
    requires a <= b && |a| == |b|
    ensures a == b
  {
    assert |b - a| == |b| - |a|;
  }

  // ---------------------------------------------------------------- cycle finder

  datatype Color = Grey | Black

  /** The variables that the closure in findCycle captures. */
  class CycleFinder {
    const c: Config
    var color: map<Name, Color>
    var stack: seq<Name>
    var cycle: seq<Name>
    ghost var done: seq<Name>

    constructor (c: Config)
      ensures this.c == c && color == map[] && stack == [] && cycle == [] && Valid() && done == []
    {
      this.c := c;
      color, stack, cycle, done := map[], [], [], [];
    }

    /** Grey services form the path being explored; black ones are ranked. */
    ghost predicate Valid()
      reads this
    {
      && color.Keys <= c.services.Keys
      && Distinct(stack) && Walk(c, stack) && Distinct(done) && Ranked(c, done)
      && (forall x <- stack :: x in color && color[x] == Grey)
      && (forall x <- done :: x in color && color[x] == Black)
      && (forall x <- color :: if color[x] == Grey then x in stack else x in done)
    }

    /** Where a name sits on the stack; the start if it does not. */
    method Locate(name: Name) returns (start: nat)
      ensures name in stack ==> start < |stack| && stack[start] == name && name !in stack[..start]
      ensures name !in stack ==> start == 0
    {
      start := 0;
      for i := 0 to |stack|
        invariant start == 0 && name !in stack[..i]
      {
        if stack[i] == name {
          start := i;
          return;
        }
      }
    }

    method Report(dep: Name)
      requires Valid() && dep in stack && |stack| > 0 && Edge(c, stack[|stack| - 1], dep)
      modifies this`cycle
      ensures IsCycle(c, cycle)
    {
      var start := Locate(dep);
      cycle := stack[start..] + [dep];
      assert cycle[..|cycle| - 1] == stack[start..];
      forall i | 0 <= i < |cycle| - 1 ensures Edge(c, cycle[i], cycle[i + 1]) {
        if i < |cycle| - 2 {
          assert Edge(c, stack[start + i], stack[start + i + 1]);
        }
      }
    }

    method Enter(name: Name)
      requires Valid() && name in c.services && name !in color
      requires stack != [] ==> Edge(c, stack[|stack| - 1], name)
      modifies this`color, this`stack
      ensures Valid() && stack == old(stack) + [name] && color == old(color)[name := Grey]
    {
      color := color[name := Grey];
      DistinctSnoc(stack, name);
      stack := stack + [name];
    }

    method Leave(name: Name)
      requires Valid() && stack != [] && stack[|stack| - 1] == name && name in color
      requires forall b | Edge(c, name, b) :: b in done
      modifies this`color, this`stack, this`done
      ensures Valid() && stack == old(stack)[..|old(stack)| - 1] && color == old(color)[name := Black]
      ensures done == old(done) + [name]
    {
      assert name !in done;
      DistinctSnoc(done, name);
      assert forall x <- stack | x != name :: x in stack[..|stack| - 1];
      stack := stack[..|stack| - 1];
      color := color[name := Black];
      done := done + [name];
      assert forall i | 0 <= i < |done| - 1 :: done[..i] == old(done)[..i];
    }

    /** The colours of services visited before stay. */
    twostate predicate Kept()
      reads this
    {
      forall x <- old(color) :: x in color && color[x] == old(color)[x]
    }

    method Visit(name: Name) returns (found: bool)
      requires Valid() && name in c.services && name !in color
      requires stack != [] ==> Edge(c, stack[|stack| - 1], name)
      modifies this
      decreases c.services.Keys - color.Keys
      ensures found ==> IsCycle(c, cycle)
      ensures !found ==> Valid() && stack == old(stack) && name in color && color[name] == Black && Kept()
    {
      hide IsCycle, Ranked, Distinct;
      Enter(name);
      var deps := c.services[name];
      for i := 0 to |deps|
        invariant Valid() && stack == old(stack) + [name] && Kept() && name in color
        invariant forall j | 0 <= j < i && Edge(c, name, deps[j]) :: deps[j] in done
      {
        var dep := deps[i];
        if dep !in c.services || dep == name {
          continue;
        }
        if dep !in color {
          assert Edge(c, name, dep);
          found := Visit(dep);
          if found {
            return;
          }
        } else if color[dep] == Grey {
          Report(dep);
          return true;
        }
      }
      assert forall b | Edge(c, name, b) :: exists j :: 0 <= j < |deps| && deps[j] == b;
      Leave(name);
      found := false;
    }
  }

  /** One dependency cycle, or the empty list exactly when there is none. */
  method FindCycle(c: Config) returns (cycle: seq<Name>)
    ensures cycle != [] ==> IsCycle(c, cycle)
    ensures Distinct(c.order) ==> (cycle == [] <==> Acyclic(c))
  {
    var finder := new CycleFinder(c);
    var names := ServiceNames(c);
    for i := 0 to |names|
      invariant finder.c == c && finder.Valid() && finder.stack == []
      invariant forall j | 0 <= j < i :: names[j] in finder.color
    {
      if names[i] !in finder.color {
        assert names[i] in Elements(names);
        var found := finder.Visit(names[i]);
        if found {
          return finder.cycle;
        }
      }
    }
    cycle := [];
    if Distinct(c.order) {
      forall x <- c.services ensures x in Elements(finder.done) {
        assert x in Elements(names);
      }
      RankedIsAcyclic(c, finder.done);
    }
  }
}
