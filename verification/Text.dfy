/** Strings in lexicographic order, and sorting. */
module Text {

  /** The order of sort.Strings. */
  predicate Below(a: string, b: string) {
    if b == "" then false
    else if a == "" then true
    else a[0] < b[0] || (a[0] == b[0] && Below(a[1..], b[1..]))
  }

  function Elements<T>(s: seq<T>): set<T> {
    set x | x in s
  }

  ghost predicate Distinct<T>(s: seq<T>) {
    forall i, j | 0 <= i < j < |s| :: s[i] != s[j]
  }

  ghost predicate Ascending(s: seq<string>) {
    forall i, j | 0 <= i < j < |s| :: Below(s[i], s[j])
  }

  lemma {:induction false} BelowTransitive(a: string, b: string, d: string)
    requires Below(a, b) && Below(b, d)
    ensures Below(a, d)
  {
    if a != "" && a[0] == b[0] && b[0] == d[0] {
      BelowTransitive(a[1..], b[1..], d[1..]);
    }
  }

  lemma {:induction false} BelowTotal(a: string, b: string)
    ensures Below(a, b) || a == b || Below(b, a)
    ensures !(Below(a, b) && Below(b, a)) && !Below(a, a)
  {
    if a != "" && b != "" && a[0] == b[0] {
      BelowTotal(a[1..], b[1..]);
      assert a == [a[0]] + a[1..] && b == [b[0]] + b[1..];
    }
    if a != "" {
      BelowTotal(a[1..], a[1..]);
    }
  }

  /** Insertion into a sorted list without repetitions. */
  function Insert(x: string, s: seq<string>): (r: seq<string>) {
    if s == [] then [x]
    else if Below(x, s[0]) then [x] + s
    else if x == s[0] then s
    else [s[0]] + Insert(x, s[1..])
  }

  lemma AscendingCons(x: string, s: seq<string>)
    requires Ascending(s) && forall y | y in Elements(s) :: Below(x, y)
    ensures Ascending([x] + s) && Elements([x] + s) == Elements(s) + {x}
  {
  }

  lemma HeadIsLeast(s: seq<string>, y: string)
    requires Ascending(s) && s != [] && y in Elements(s[1..])
    ensures Below(s[0], y)
  {
  }

  lemma {:induction false} InsertAscending(x: string, s: seq<string>)
    requires Ascending(s)
    ensures Ascending(Insert(x, s)) && Elements(Insert(x, s)) == Elements(s) + {x}
  {
    if s == [] {
      assert [x] == [x] + s;
    } else {
      hide Ascending, Below;
      var head, tail := s[0], s[1..];
      AscendingTail(s);
      if Below(x, head) {
        forall y | y in Elements(s) ensures Below(x, y) {
          if y != head {
            HeadIsLeast(s, y);
            BelowTransitive(x, head, y);
          }
        }
        AscendingCons(x, s);
      } else if x != head {
        InsertAscending(x, tail);
        BelowTotal(x, head);
        forall y | y in Elements(Insert(x, tail)) ensures Below(head, y) {
          if y != x {
            HeadIsLeast(s, y);
          }
        }
        AscendingCons(head, Insert(x, tail));
      }
    }
  }

  lemma AscendingTail(s: seq<string>)
    requires Ascending(s) && s != []
    ensures Ascending(s[1..]) && Elements(s) == Elements(s[1..]) + {s[0]}
  {
  }

  lemma EmptyElements<T>(s: seq<T>)
    ensures s == [] <==> Elements(s) == {}
  {
    if s != [] {
      assert s[0] in Elements(s);
    }
  }

  lemma Associate<T>(a: seq<T>, b: seq<T>, c: seq<T>)
    ensures a + b + c == a + (b + c)
  {
  }

  lemma ElementsSnoc<T>(s: seq<T>, x: T)
    ensures Elements(s + [x]) == Elements(s) + {x}
  {
  }

  lemma DistinctSnoc<T>(s: seq<T>, x: T)
    requires Distinct(s) && x !in s
    ensures Distinct(s + [x])
  {
  }

  /** Ascending lists with the same elements are the same list. */
  lemma {:induction false} AscendingUnique(a: seq<string>, b: seq<string>)
    requires Ascending(a) && Ascending(b) && Elements(a) == Elements(b)
    ensures a == b
    decreases |a|
  {
    EmptyElements(a);
    EmptyElements(b);
    if a != [] {
      LeastIsFirst(a, b);
      forall x ensures x in Elements(a[1..]) <==> x in Elements(b[1..]) {
        TailElements(a, x);
        TailElements(b, x);
      }
      AscendingUnique(a[1..], b[1..]);
      assert a == [a[0]] + a[1..] && b == [b[0]] + b[1..];
    }
  }

  lemma LeastIsFirst(a: seq<string>, b: seq<string>)
    requires Ascending(a) && Ascending(b) && Elements(a) == Elements(b) && a != [] && b != []
    ensures a[0] == b[0]
  {
    assert a[0] in Elements(b) && b[0] in Elements(a);
    var i :| 0 <= i < |b| && b[i] == a[0];
    var j :| 0 <= j < |a| && a[j] == b[0];
    if i != 0 && j != 0 {
      BelowTotal(a[0], b[0]);
    }
  }

  lemma TailElements(a: seq<string>, x: string)
    requires Ascending(a) && a != []
    ensures x in Elements(a[1..]) <==> x in Elements(a) && x != a[0]
  {
    BelowTotal(a[0], a[0]);
    if x in Elements(a) && x != a[0] {
      var i :| 0 <= i < |a| && a[i] == x;
      assert a[1..][i - 1] == x;
    }
  }

  lemma AscendingIsDistinct(s: seq<string>)
    requires Ascending(s)
    ensures Distinct(s)
  {
    forall i, j | 0 <= i < j < |s| ensures s[i] != s[j] {
      BelowTotal(s[i], s[j]);
    }
  }

  /** The keys of a map, visited in any order, then sorted: the result depends on
      the keys alone. */
  method SortedKeys<V>(m: map<string, V>) returns (out: seq<string>)
    ensures Ascending(out) && Elements(out) == m.Keys
    ensures forall other | Ascending(other) && Elements(other) == m.Keys :: other == out
  {
    out := [];
    var left := m.Keys;
    while left != {}
      invariant left <= m.Keys && Ascending(out) && Elements(out) == m.Keys - left
      decreases |left|
    {
      var k :| k in left;
      left := left - {k};
      InsertAscending(k, out);
      out := Insert(k, out);
    }
    forall other | Ascending(other) && Elements(other) == m.Keys ensures other == out {
      AscendingUnique(other, out);
    }
  }

  /** The elements of a set in ascending order. */
  ghost function Sort(s: set<string>): (r: seq<string>)
    ensures Ascending(r) && Elements(r) == s
  {
    if s == {} then []
    else
      var x :| x in s;
      InsertAscending(x, Sort(s - {x}));
      assert s == (s - {x}) + {x};
      Insert(x, Sort(s - {x}))
  }

  lemma SortUnique(a: seq<string>)
    requires Ascending(a)
    ensures Sort(Elements(a)) == a
  {
    AscendingUnique(Sort(Elements(a)), a);
  }

  /** The elements of a list that are in a set. */
  ghost function Keep(list: seq<string>, s: set<string>): seq<string> {
    if list == [] then []
    else Keep(list[..|list| - 1], s) + if list[|list| - 1] in s then [list[|list| - 1]] else []
  }

  lemma {:induction false} KeepElements(list: seq<string>, s: set<string>)
    ensures Elements(Keep(list, s)) == Elements(list) * s
  {
    if list == [] {
      assert Elements(list) * s == {};
    } else {
      var front, last := list[..|list| - 1], list[|list| - 1];
      KeepElements(front, s);
      assert list == front + [last];
      ElementsSnoc(front, last);
      ElementsSnoc(Keep(front, s), last);
      if last in s {
        assert (Elements(front) + {last}) * s == Elements(front) * s + {last};
      } else {
        assert (Elements(front) + {last}) * s == Elements(front) * s;
      }
    }
  }

  lemma {:induction false} KeepAll(list: seq<string>, s: set<string>)
    requires Elements(list) <= s
    ensures Keep(list, s) == list
  {
    if list != [] {
      var front, last := list[..|list| - 1], list[|list| - 1];
      KeepAll(front, s);
      assert list == front + [last];
      assert last in Elements(list);
    }
  }

  lemma {:induction false} KeepDistinct(list: seq<string>, s: set<string>)
    requires Distinct(list)
    ensures Distinct(Keep(list, s))
  {
    if list != [] {
      var front, last := list[..|list| - 1], list[|list| - 1];
      KeepDistinct(front, s);
      KeepElements(front, s);
      assert last !in Elements(front);
      assert last !in Elements(Keep(front, s));
      DistinctSnoc(Keep(front, s), last);
    }
  }

  lemma AscendingSnoc(s: seq<string>, x: string)
    requires Ascending(s) && forall y | y in Elements(s) :: Below(y, x)
    ensures Ascending(s + [x])
  {
  }

  lemma LastIsGreatest(s: seq<string>, y: string)
    requires Ascending(s) && s != [] && y in Elements(s[..|s| - 1])
    ensures Below(y, s[|s| - 1])
  {
  }

  lemma AscendingFront(s: seq<string>)
    requires Ascending(s) && s != []
    ensures Ascending(s[..|s| - 1]) && Elements(s) == Elements(s[..|s| - 1]) + {s[|s| - 1]}
  {
  }

  lemma {:induction false} KeepAscending(list: seq<string>, s: set<string>)
    requires Ascending(list)
    ensures Ascending(Keep(list, s))
  {
    if list != [] {
      hide Ascending, Below;
      var front, last := list[..|list| - 1], list[|list| - 1];
      AscendingFront(list);
      KeepAscending(front, s);
      KeepElements(front, s);
      forall y | y in Elements(Keep(front, s)) ensures Below(y, last) {
        LastIsGreatest(list, y);
      }
      AscendingSnoc(Keep(front, s), last);
    }
  }

  /** Sorting before or after leaving elements out is the same. */
  lemma KeepSorted(all: set<string>, part: set<string>)
    requires part <= all
    ensures Keep(Sort(all), part) == Sort(part)
  {
    KeepAscending(Sort(all), part);
    KeepElements(Sort(all), part);
    assert all * part == part;
    AscendingUnique(Keep(Sort(all), part), Sort(part));
  }
}
