/**
 What the process trees of the running services cost the machine.
 */
module ProcessTree {
  import opened Text

  type Pid = nat

  /** Cumulative processor time and resident memory of one process. */
  datatype ProcStat = ProcStat(cpu: nat, rss: nat)

  datatype TreeStat = TreeStat(cpu: nat, rss: nat, procs: nat)

  const NOTHING := TreeStat(0, 0, 0)

  /** Child processes by parent. */
  type Table = map<Pid, seq<Pid>>

  function Children(table: Table, p: Pid): seq<Pid> {
    if p in table then table[p] else []
  }

  // ------------------------------------------------------------------- reachability

  ghost predicate Path(table: Table, w: seq<Pid>) {
    w != [] && forall k | 0 < k < |w| :: w[k] in Children(table, w[k - 1])
  }

  ghost predicate Joins(table: Table, w: seq<Pid>, a: Pid, b: Pid) {
    Path(table, w) && w[0] == a && w[|w| - 1] == b
  }

  /** `x` is `root` or a process below it. */
  ghost predicate Descends(table: Table, root: Pid, x: Pid) {
    exists w :: Joins(table, w, root, x)
  }

  ghost predicate Closed(table: Table, s: set<Pid>) {
    forall p, c | p in s && c in Children(table, p) :: c in s
  }

  lemma DescendsSelf(table: Table, root: Pid)
    ensures Descends(table, root, root)
  {
    assert Joins(table, [root], root, root);
  }

  lemma DescendsStep(table: Table, root: Pid, p: Pid, c: Pid)
    requires Descends(table, root, p) && c in Children(table, p)
    ensures Descends(table, root, c)
  {
    var w :| Joins(table, w, root, p);
    assert Joins(table, w + [c], root, c);
  }

  lemma {:induction false} PathStaysInside(table: Table, s: set<Pid>, w: seq<Pid>)
    requires Path(table, w) && Closed(table, s) && w[0] in s
    ensures w[|w| - 1] in s
  {
    if |w| > 1 {
      PathStaysInside(table, s, w[..|w| - 1]);
      assert w[|w| - 1] in Children(table, w[|w| - 2]);
    }
  }

  lemma ClosedHoldsTree(table: Table, s: set<Pid>, root: Pid)
    requires Closed(table, s) && root in s
    ensures forall x | Descends(table, root, x) :: x in s
  {
    forall x | Descends(table, root, x)
      ensures x in s
    {
      var w :| Joins(table, w, root, x);
      PathStaysInside(table, s, w);
    }
  }

  /** The processes of a tree: the root first, then everything below it, once. */
  ghost predicate IsTree(table: Table, root: Pid, tree: seq<Pid>) {
    && tree != [] && tree[0] == root && Distinct(tree)
    && forall x :: x in tree <==> Descends(table, root, x)
  }

  // ----------------------------------------------------------------------- the walk

  function Mentioned(table: Table): set<Pid> {
    set p, c | p in table && c in table[p] :: c
  }

  lemma {:induction false} DistinctFits(s: seq<Pid>, all: set<Pid>)
    requires Distinct(s) && Elements(s) <= all
    ensures |s| <= |all|
  {
    if s != [] {
      var last := s[|s| - 1];
      assert last in Elements(s);
      forall x | x in Elements(s[..|s| - 1]) ensures x in all - {last} {
        assert x in Elements(s);
      }
      DistinctFits(s[..|s| - 1], all - {last});
    }
  }

  /** The state of the walk when the children of the first `i` processes have been
      looked at. */
  ghost predicate Walked(table: Table, root: Pid, tree: seq<Pid>, seen: set<Pid>, i: nat) {
    && tree != [] && tree[0] == root && Distinct(tree) && seen == Elements(tree) && i <= |tree|
    && (forall x | x in seen :: Descends(table, root, x))
    && (forall k, c | 0 <= k < i && c in Children(table, tree[k]) :: c in seen)
  }

  lemma WalkIsBounded(table: Table, root: Pid, tree: seq<Pid>, seen: set<Pid>, i: nat)
    requires Walked(table, root, tree, seen, i)
    ensures |tree| <= |Mentioned(table) + {root}|
  {
    ghost var all := Mentioned(table) + {root};
    assert Closed(table, all);
    forall x | x in seen ensures x in all {
      ClosedHoldsTree(table, all, root);
    }
    DistinctFits(tree, all);
  }

  lemma WalkIsComplete(table: Table, root: Pid, tree: seq<Pid>, seen: set<Pid>)
    requires Walked(table, root, tree, seen, |tree|)
    ensures IsTree(table, root, tree)
  {
    assert Closed(table, seen);
    assert root in seen;
    ClosedHoldsTree(table, seen, root);
  }

  lemma WalkAdds(table: Table, root: Pid, tree: seq<Pid>, seen: set<Pid>, i: nat, c: Pid)
    requires Walked(table, root, tree, seen, i) && i < |tree|
    requires c in Children(table, tree[i]) && c !in seen
    ensures Walked(table, root, tree + [c], seen + {c}, i)
  {
    assert tree[i] in seen;
    DescendsStep(table, root, tree[i], c);
    ElementsSnoc(tree, c);
    DistinctSnoc(tree, c);
  }

  /** Ends on cyclic tables too, because no process is added twice. */
  method Descendants(table: Table, root: Pid) returns (tree: seq<Pid>)
    ensures IsTree(table, root, tree)
  {
    var seen := {root};
    tree := [root];
    var i := 0;
    WalkStarts(table, root);
    hide Walked, IsTree, Mentioned;
    while i < |tree|
      invariant Walked(table, root, tree, seen, i)
      decreases |Mentioned(table) + {root}| - i
    {
      var next := Children(table, tree[i]);
      WalkFacts(table, root, tree, seen, i);
      ghost var parent := tree[i];
      var j := 0;
      while j < |next|
        invariant 0 <= j <= |next| && Walked(table, root, tree, seen, i)
        invariant i < |tree| && tree[i] == parent
        invariant forall k | 0 <= k < j :: next[k] in seen
      {
        var child := next[j];
        if child !in seen {
          WalkAdds(table, root, tree, seen, i, child);
          seen := seen + {child};
          tree := tree + [child];
        }
        j := j + 1;
      }
      WalkAdvances(table, root, tree, seen, i);
      WalkIsBounded(table, root, tree, seen, i);
      i := i + 1;
    }
    WalkFacts(table, root, tree, seen, i);
    WalkIsComplete(table, root, tree, seen);
  }

  lemma WalkStarts(table: Table, root: Pid)
    ensures Walked(table, root, [root], {root}, 0)
  {
    DescendsSelf(table, root);
  }

  lemma WalkFacts(table: Table, root: Pid, tree: seq<Pid>, seen: set<Pid>, i: nat)
    requires Walked(table, root, tree, seen, i)
    ensures i <= |tree| && seen == Elements(tree)
  {
  }

  lemma WalkAdvances(table: Table, root: Pid, tree: seq<Pid>, seen: set<Pid>, i: nat)
    requires Walked(table, root, tree, seen, i) && i < |tree|
    requires forall k | 0 <= k < |Children(table, tree[i])| :: Children(table, tree[i])[k] in seen
    ensures Walked(table, root, tree, seen, i + 1)
  {
  }

  // --------------------------------------------------------------- the parent table

  /** A table of children that says what the parents of the processes are, leaving
      out processes that are their own parent. */
  ghost predicate Describes(table: Table, parents: map<Pid, Pid>) {
    forall p, c :: c in Children(table, p) <==> c in parents && c != p && parents[c] == p
  }

  lemma ChildAdded(table: Table, parent: Pid, pid: Pid, p: Pid)
    ensures var after := table[parent := Children(table, parent) + [pid]];
            Children(after, p) == Children(table, p) + if p == parent then [pid] else []
  {
  }

  method ChildrenTable(parents: map<Pid, Pid>) returns (table: Table)
    ensures Describes(table, parents)
  {
    table := map[];
    assert forall p :: Children(table, p) == [];
    var left := parents.Keys;
    while left != {}
      invariant left <= parents.Keys
      invariant forall p, c :: c in Children(table, p) <==> c in parents && c !in left && c != p && parents[c] == p
    {
      var pid :| pid in left;
      var parent := parents[pid];
      left := left - {pid};
      if pid != parent {
        ghost var before := table;
        table := table[parent := Children(table, parent) + [pid]];
        forall p, c
          ensures c in Children(table, p) <==> c in Children(before, p) || (p == parent && c == pid)
        {
          ChildAdded(before, parent, pid, p);
        }
      }
    }
  }

  /** A process has one parent, so paths to the same process have a common end. */
  lemma {:induction false} PathsAgree(table: Table, parents: map<Pid, Pid>, v: seq<Pid>, w: seq<Pid>)
    requires Describes(table, parents) && Path(table, v) && Path(table, w)
    requires |v| <= |w| && v[|v| - 1] == w[|w| - 1]
    ensures v == w[|w| - |v|..]
  {
    if |v| > 1 {
      var c := v[|v| - 1];
      assert c in Children(table, v[|v| - 2]) && c in Children(table, w[|w| - 2]);
      assert v[|v| - 2] == parents[c] == w[|w| - 2];
      PathsAgree(table, parents, v[..|v| - 1], w[..|w| - 1]);
      assert v == v[..|v| - 1] + [c];
    }
  }

  ghost predicate Disjoint(table: Table, a: Pid, b: Pid) {
    forall x :: !(Descends(table, a, x) && Descends(table, b, x))
  }

  /** Two trees have a process in common exactly when one root is in the other's tree. */
  lemma TreesDisjointExactly(table: Table, parents: map<Pid, Pid>, a: Pid, b: Pid)
    requires Describes(table, parents)
    ensures Disjoint(table, a, b) <==> !Descends(table, a, b) && !Descends(table, b, a)
  {
    DescendsSelf(table, a);
    DescendsSelf(table, b);
    if x :| Descends(table, a, x) && Descends(table, b, x) {
      var v :| Joins(table, v, a, x);
      var w :| Joins(table, w, b, x);
      if |v| <= |w| {
        PathsAgree(table, parents, v, w);
        assert Joins(table, w[..|w| - |v| + 1], b, a);
      } else {
        PathsAgree(table, parents, w, v);
        assert Joins(table, v[..|v| - |w| + 1], a, b);
      }
    }
  }

  // ------------------------------------------------------------------------- totals

  function Add(t: TreeStat, u: TreeStat): TreeStat {
    TreeStat(t.cpu + u.cpu, t.rss + u.rss, t.procs + u.procs)
  }

  /** One process, if it could be measured. */
  function Cost(stats: map<Pid, ProcStat>, pid: Pid): TreeStat {
    if pid in stats then TreeStat(stats[pid].cpu, stats[pid].rss, 1) else NOTHING
  }

  function Total(stats: map<Pid, ProcStat>, pids: seq<Pid>): TreeStat {
    if pids == [] then NOTHING
    else Add(Total(stats, pids[..|pids| - 1]), Cost(stats, pids[|pids| - 1]))
  }

  /** The sum of an amount over those of the listed processes for which it is known. */
  ghost function SumOver(amount: map<Pid, nat>, pids: seq<Pid>): nat {
    if pids == [] then 0
    else
      var last := pids[|pids| - 1];
      SumOver(amount, pids[..|pids| - 1]) + if last in amount then amount[last] else 0
  }

  /** Processor time, memory and number of the measured processes of a tree. */
  ghost predicate Measures(t: TreeStat, stats: map<Pid, ProcStat>, tree: seq<Pid>) {
    && t.cpu == SumOver(map p <- stats :: stats[p].cpu, tree)
    && t.rss == SumOver(map p <- stats :: stats[p].rss, tree)
    && t.procs == |set p <- stats | p in tree|
  }

  lemma {:induction false} TotalSums(stats: map<Pid, ProcStat>, cpu: map<Pid, nat>, rss: map<Pid, nat>, tree: seq<Pid>)
    requires cpu == map p <- stats :: stats[p].cpu
    requires rss == map p <- stats :: stats[p].rss
    ensures Total(stats, tree).cpu == SumOver(cpu, tree) && Total(stats, tree).rss == SumOver(rss, tree)
  {
    if tree != [] {
      TotalSums(stats, cpu, rss, tree[..|tree| - 1]);
    }
  }

  lemma CountOneMore(measured: set<Pid>, front: seq<Pid>, last: Pid)
    requires Distinct(front + [last])
    ensures |measured * Elements(front + [last])| == |measured * Elements(front)| + if last in measured then 1 else 0
  {
    ElementsSnoc(front, last);
    assert last !in Elements(front) by {
      assert (front + [last])[|front|] == last;
      assert forall k | 0 <= k < |front| :: (front + [last])[k] == front[k];
    }
    if last in measured {
      assert measured * Elements(front + [last]) == measured * Elements(front) + {last};
    } else {
      assert measured * Elements(front + [last]) == measured * Elements(front);
    }
  }

  lemma {:induction false} TotalCounts(stats: map<Pid, ProcStat>, tree: seq<Pid>)
    requires Distinct(tree)
    ensures Total(stats, tree).procs == |stats.Keys * Elements(tree)|
  {
    if tree == [] {
      assert stats.Keys * Elements(tree) == {};
    } else {
      hide Elements;
      var front, last := tree[..|tree| - 1], tree[|tree| - 1];
      assert tree == front + [last];
      TotalCounts(stats, front);
      CountOneMore(stats.Keys, front, last);
    }
  }

  lemma TotalMeasures(stats: map<Pid, ProcStat>, tree: seq<Pid>)
    requires Distinct(tree)
    ensures Measures(Total(stats, tree), stats, tree)
  {
    TotalSums(stats, map p <- stats :: stats[p].cpu, map p <- stats :: stats[p].rss, tree);
    TotalCounts(stats, tree);
    assert (set p <- stats | p in tree) == stats.Keys * Elements(tree);
  }

  predicate AtMost(t: TreeStat, u: TreeStat) {
    t.cpu <= u.cpu && t.rss <= u.rss && t.procs <= u.procs
  }

  lemma AddLaws(a: TreeStat, b: TreeStat, c: TreeStat)
    ensures Add(NOTHING, a) == a && Add(a, NOTHING) == a
    ensures Add(Add(a, b), c) == Add(a, Add(b, c)) && Add(Add(a, b), c) == Add(Add(a, c), b)
  {
  }

  lemma {:induction false} TotalAppend(stats: map<Pid, ProcStat>, a: seq<Pid>, b: seq<Pid>)
    ensures Total(stats, a + b) == Add(Total(stats, a), Total(stats, b))
  {
    hide Add, Cost;
    if b == [] {
      assert a + b == a;
      AddLaws(Total(stats, a), NOTHING, NOTHING);
    } else {
      assert (a + b)[..|a + b| - 1] == a + b[..|b| - 1];
      TotalAppend(stats, a, b[..|b| - 1]);
      AddLaws(Total(stats, a), Total(stats, b[..|b| - 1]), Cost(stats, b[|b| - 1]));
    }
  }

  lemma TotalOne(stats: map<Pid, ProcStat>, x: Pid)
    ensures Total(stats, [x]) == Cost(stats, x)
  {
    hide Add, Cost;
    assert [x][..0] == [];
    AddLaws(Cost(stats, x), NOTHING, NOTHING);
  }

  lemma TotalWithout(stats: map<Pid, ProcStat>, s: seq<Pid>, i: nat)
    requires i < |s|
    ensures Total(stats, s) == Add(Total(stats, s[..i] + s[i + 1..]), Cost(stats, s[i]))
  {
    hide Add, Cost, Total;
    var x := s[i];
    TotalOne(stats, x);
    assert s == s[..i] + [x] + s[i + 1..];
    TotalAppend(stats, s[..i] + [x], s[i + 1..]);
    TotalAppend(stats, s[..i], [x]);
    TotalAppend(stats, s[..i], s[i + 1..]);
    AddLaws(Total(stats, s[..i]), Cost(stats, x), Total(stats, s[i + 1..]));
  }

  lemma DistinctWithout(s: seq<Pid>, i: nat)
    requires Distinct(s) && i < |s|
    ensures Distinct(s[..i] + s[i + 1..])
    ensures Elements(s[..i] + s[i + 1..]) == Elements(s) - {s[i]}
  {
  }

  /** A list of processes without repetitions costs no more than any such list that
      contains it. */
  lemma {:induction false} PartCostsNoMore(stats: map<Pid, ProcStat>, part: seq<Pid>, whole: seq<Pid>)
    requires Distinct(part) && Distinct(whole) && Elements(part) <= Elements(whole)
    ensures AtMost(Total(stats, part), Total(stats, whole))
    decreases |part|
  {
    if part != [] {
      var front, last := part[..|part| - 1], part[|part| - 1];
      assert last in Elements(part);
      var i :| 0 <= i < |whole| && whole[i] == last;
      var rest := whole[..i] + whole[i + 1..];
      DistinctWithout(whole, i);
      forall x | x in Elements(front) ensures x in Elements(rest) {
        assert x in Elements(part);
      }
      PartCostsNoMore(stats, front, rest);
      TotalWithout(stats, whole, i);
    }
  }

  /** The order in which a tree was found does not change its total. */
  lemma TotalIgnoresOrder(stats: map<Pid, ProcStat>, a: seq<Pid>, b: seq<Pid>)
    requires Distinct(a) && Distinct(b) && Elements(a) == Elements(b)
    ensures Total(stats, a) == Total(stats, b)
  {
    PartCostsNoMore(stats, a, b);
    PartCostsNoMore(stats, b, a);
  }

  // ----------------------------------------------------------------------- sampling

  /** The answer for a root is the total of its tree, whatever order it was walked in. */
  ghost predicate IsTotal(parents: map<Pid, Pid>, stats: map<Pid, ProcStat>, root: Pid, t: TreeStat) {
    forall table, tree | Describes(table, parents) && IsTree(table, root, tree) :: t == Total(stats, tree)
  }

  lemma OneTreeDecides(table: Table, parents: map<Pid, Pid>, stats: map<Pid, ProcStat>, root: Pid, tree: seq<Pid>)
    requires Describes(table, parents) && IsTree(table, root, tree)
    ensures IsTotal(parents, stats, root, Total(stats, tree))
  {
    forall other, list | Describes(other, parents) && IsTree(other, root, list)
      ensures Total(stats, tree) == Total(stats, list)
    {
      SameTree(table, other, parents, root, tree, list);
      TotalIgnoresOrder(stats, tree, list);
    }
  }

  lemma SameChildren(a: Table, b: Table, parents: map<Pid, Pid>, p: Pid, c: Pid)
    requires Describes(a, parents) && Describes(b, parents) && c in Children(a, p)
    ensures c in Children(b, p)
  {
    assert c in parents && c != p && parents[c] == p;
  }

  lemma SameTree(a: Table, b: Table, parents: map<Pid, Pid>, root: Pid, s: seq<Pid>, t: seq<Pid>)
    requires Describes(a, parents) && Describes(b, parents) && IsTree(a, root, s) && IsTree(b, root, t)
    ensures Elements(s) == Elements(t)
  {
    assert Closed(a, Elements(t)) by {
      forall p, c | p in Elements(t) && c in Children(a, p) ensures c in Elements(t) {
        SameChildren(a, b, parents, p, c);
        DescendsStep(b, root, p, c);
      }
    }
    assert Closed(b, Elements(s)) by {
      forall p, c | p in Elements(s) && c in Children(b, p) ensures c in Elements(s) {
        SameChildren(b, a, parents, p, c);
        DescendsStep(a, root, p, c);
      }
    }
    assert t[0] in Elements(t) && s[0] in Elements(s);
    ClosedHoldsTree(a, Elements(t), root);
    ClosedHoldsTree(b, Elements(s), root);
  }

  /** Every root gets an answer: the total of its whole tree. */
  method SampleTrees(parents: map<Pid, Pid>, stats: map<Pid, ProcStat>, roots: seq<Pid>)
    returns (out: map<Pid, TreeStat>)
    ensures out.Keys == Elements(roots)
    ensures forall root | root in out :: IsTotal(parents, stats, root, out[root])
    ensures forall root, table, tree | root in out && Describes(table, parents) && IsTree(table, root, tree) ::
              Measures(out[root], stats, tree)
  {
    out := map[];
    var table := ChildrenTable(parents);
    hide IsTotal, IsTree, Describes, Total;
    for i := 0 to |roots|
      invariant out.Keys == Elements(roots[..i])
      invariant forall root | root in out :: IsTotal(parents, stats, root, out[root])
    {
      var tree := Descendants(table, roots[i]);
      var total := SumTree(stats, tree);
      OneTreeDecides(table, parents, stats, roots[i], tree);
      out := out[roots[i] := total];
      assert roots[..i + 1] == roots[..i] + [roots[i]];
      ElementsSnoc(roots[..i], roots[i]);
    }
    assert roots[..|roots|] == roots;
    forall root, table, tree | root in out && Describes(table, parents) && IsTree(table, root, tree)
      ensures Measures(out[root], stats, tree)
    {
      TotalOfTree(parents, stats, root, out[root], table, tree);
    }
  }

  lemma TotalOfTree(parents: map<Pid, Pid>, stats: map<Pid, ProcStat>, root: Pid, t: TreeStat, table: Table, tree: seq<Pid>)
    requires IsTotal(parents, stats, root, t) && Describes(table, parents) && IsTree(table, root, tree)
    ensures Measures(t, stats, tree)
  {
    TotalMeasures(stats, tree);
  }

  lemma TotalSnoc(stats: map<Pid, ProcStat>, s: seq<Pid>, i: nat)
    requires i < |s|
    ensures Total(stats, s[..i + 1]) == Add(Total(stats, s[..i]), Cost(stats, s[i]))
  {
    assert s[..i + 1][..i] == s[..i];
  }

  lemma NotMeasured(stats: map<Pid, ProcStat>, pid: Pid, total: TreeStat)
    ensures pid !in stats ==> Add(total, Cost(stats, pid)) == total
  {
  }

  method SumTree(stats: map<Pid, ProcStat>, tree: seq<Pid>) returns (total: TreeStat)
    ensures total == Total(stats, tree)
  {
    total := NOTHING;
    assert Total(stats, tree[..0]) == NOTHING;
    hide Add, Cost, Total;
    for i := 0 to |tree|
      invariant total == Total(stats, tree[..i])
    {
      TotalSnoc(stats, tree, i);
      NotMeasured(stats, tree[i], total);
      if tree[i] in stats {
        total := Add(total, Cost(stats, tree[i]));
      }
    }
    assert tree[..|tree|] == tree;
  }

  // ------------------------------------------------------- no process counted twice

  /** The trees of a list of roots, one after the other. */
  ghost predicate AreTrees(table: Table, roots: seq<Pid>, trees: seq<seq<Pid>>) {
    |trees| == |roots| && forall i | 0 <= i < |roots| :: IsTree(table, roots[i], trees[i])
  }

  ghost predicate Independent(table: Table, roots: seq<Pid>) {
    forall i, j | 0 <= i < |roots| && 0 <= j < |roots| && i != j :: !Descends(table, roots[i], roots[j])
  }

  function Concat(trees: seq<seq<Pid>>): seq<Pid> {
    if trees == [] then [] else Concat(trees[..|trees| - 1]) + trees[|trees| - 1]
  }

  function Sum(stats: map<Pid, ProcStat>, trees: seq<seq<Pid>>): TreeStat {
    if trees == [] then NOTHING
    else Add(Sum(stats, trees[..|trees| - 1]), Total(stats, trees[|trees| - 1]))
  }

  lemma {:induction false} ConcatMembers(trees: seq<seq<Pid>>, x: Pid)
    ensures x in Concat(trees) <==> exists i :: 0 <= i < |trees| && x in trees[i]
  {
    if trees != [] {
      ConcatMembers(trees[..|trees| - 1], x);
      assert trees == trees[..|trees| - 1] + [trees[|trees| - 1]];
    }
  }

  lemma {:induction false} IndependentTreesAreDistinct(table: Table, parents: map<Pid, Pid>, roots: seq<Pid>,
                                                       trees: seq<seq<Pid>>)
    requires Describes(table, parents) && AreTrees(table, roots, trees) && Independent(table, roots)
    ensures Distinct(Concat(trees))
    decreases |roots|
  {
    if roots != [] {
      var n := |roots| - 1;
      IndependentTreesAreDistinct(table, parents, roots[..n], trees[..n]);
      forall x | x in Concat(trees[..n]) ensures x !in trees[n] {
        ConcatMembers(trees[..n], x);
        var i :| 0 <= i < n && x in trees[..n][i];
        assert IsTree(table, roots[i], trees[i]);
        TreesDisjointExactly(table, parents, roots[i], roots[n]);
      }
      assert IsTree(table, roots[n], trees[n]);
      DistinctConcat(Concat(trees[..n]), trees[n]);
    }
  }

  lemma DistinctConcat(a: seq<Pid>, b: seq<Pid>)
    requires Distinct(a) && Distinct(b) && forall x | x in a :: x !in b
    ensures Distinct(a + b)
  {
    forall i, j | 0 <= i < j < |a + b| ensures (a + b)[i] != (a + b)[j] {
      if i < |a| <= j {
        assert a[i] in a && b[j - |a|] in b;
      }
    }
  }

  lemma {:induction false} SumIsTotal(stats: map<Pid, ProcStat>, trees: seq<seq<Pid>>)
    ensures Sum(stats, trees) == Total(stats, Concat(trees))
  {
    if trees != [] {
      SumIsTotal(stats, trees[..|trees| - 1]);
      TotalAppend(stats, Concat(trees[..|trees| - 1]), trees[|trees| - 1]);
    }
  }

  /** When no root is in another's tree, the services together never cost more than
      the machine: no process is counted twice. */
  lemma NoProcessCountedTwice(table: Table, parents: map<Pid, Pid>, stats: map<Pid, ProcStat>,
                              roots: seq<Pid>, trees: seq<seq<Pid>>, machine: seq<Pid>)
    requires Describes(table, parents) && AreTrees(table, roots, trees) && Independent(table, roots)
    requires Distinct(machine) && forall i | 0 <= i < |trees| :: Elements(trees[i]) <= Elements(machine)
    ensures AtMost(Sum(stats, trees), Total(stats, machine))
  {
    IndependentTreesAreDistinct(table, parents, roots, trees);
    SumIsTotal(stats, trees);
    forall x | x in Elements(Concat(trees)) ensures x in Elements(machine) {
      ConcatMembers(trees, x);
      var i :| 0 <= i < |trees| && x in trees[i];
      assert x in Elements(trees[i]);
    }
    PartCostsNoMore(stats, Concat(trees), machine);
  }
}
