/** Insertion into a sorted sequence, for any order that is total and transitive on the elements at hand. */
module Sorting {
  type Order<!T> = (T, T) -> bool

  ghost predicate Ascending<T>(le: Order<T>, s: seq<T>) {
    forall i, j | 0 <= i < j < |s| :: le(s[i], s[j])
  }

  ghost predicate Orders<T>(le: Order<T>, s: seq<T>) {
    && (forall x, y | x in s && y in s :: le(x, y) || le(y, x))
    && (forall x, y, z | x in s && y in s && z in s && le(x, y) && le(y, z) :: le(x, z))
  }

  /** Before the first element that is not smaller: equal elements keep the order in which they were inserted last. */
  function Insert<T>(le: Order<T>, x: T, s: seq<T>): (r: seq<T>)
    ensures |r| == |s| + 1
    decreases |s|
  {
    if s == [] || le(x, s[0]) then [x] + s else [s[0]] + Insert(le, x, s[1..])
  }

  lemma {:induction false} InsertAdds<T>(le: Order<T>, x: T, s: seq<T>)
    ensures multiset(Insert(le, x, s)) == multiset(s) + multiset{x}
    decreases |s|
  {
    if s != [] && !le(x, s[0]) {
      InsertAdds(le, x, s[1..]);
      assert s == [s[0]] + s[1..];
    }
  }

  lemma InsertedElement<T>(le: Order<T>, x: T, s: seq<T>, y: T)
    ensures y in Insert(le, x, s) <==> y == x || y in s
  {
    InsertAdds(le, x, s);
    assert y in Insert(le, x, s) <==> y in multiset(Insert(le, x, s));
    assert y in s <==> y in multiset(s);
  }

  /** The first is before all others, which are ascending themselves. */
  lemma FirstOfAscending<T>(le: Order<T>, s: seq<T>)
    requires Ascending(le, s) && s != []
    ensures Ascending(le, s[1..]) && forall y | y in s[1..] :: le(s[0], y)
  {
    forall y | y in s[1..] ensures le(s[0], y) {
      var j :| 0 <= j < |s[1..]| && s[1..][j] == y;
      assert s[j + 1] == y;
    }
  }

  lemma AscendingFrom<T>(le: Order<T>, x: T, s: seq<T>)
    requires Ascending(le, s) && forall y | y in s :: le(x, y)
    ensures Ascending(le, [x] + s)
  {
    forall i | 0 <= i < |s| ensures le(x, s[i]) { assert s[i] in s; }
  }

  lemma OrdersFewer<T>(le: Order<T>, s: seq<T>, t: seq<T>)
    requires Orders(le, s) && forall y | y in t :: y in s
    ensures Orders(le, t)
  {
  }

  lemma {:induction false} InsertSorts<T>(le: Order<T>, x: T, s: seq<T>)
    requires Ascending(le, s) && Orders(le, [x] + s)
    ensures Ascending(le, Insert(le, x, s))
    decreases |s|
  {
    if s == [] {
      assert [x] + s == [x];
    } else {
      var first, rest := s[0], s[1..];
      FirstOfAscending(le, s);
      hide Ascending;
      assert x in [x] + s && first in [x] + s && s == [first] + rest;
      if le(x, first) {
        forall y | y in s ensures le(x, y) { assert y in [x] + s; }
        AscendingFrom(le, x, s);
      } else {
        assert le(first, x);
        forall y | y in [x] + rest ensures y in [x] + s { }
        OrdersFewer(le, [x] + s, [x] + rest);
        hide Orders;
        InsertSorts(le, x, rest);
        forall y | y in Insert(le, x, rest) ensures le(first, y) {
          InsertedElement(le, x, rest, y);
        }
        AscendingFrom(le, first, Insert(le, x, rest));
      }
    }
  }

  lemma WithoutFirst<T>(a: seq<T>)
    requires a != []
    ensures multiset(a[1..]) == multiset(a) - multiset{a[0]}
  {
    assert a == [a[0]] + a[1..];
  }

  lemma SameFirst<T>(le: Order<T>, a: seq<T>, b: seq<T>)
    requires Ascending(le, a) && Ascending(le, b) && multiset(a) == multiset(b) && a != [] && b != []
    requires forall x, y | x in a && y in a && le(x, y) && le(y, x) :: x == y
    ensures a[0] == b[0]
  {
    assert a[0] in multiset(b) && b[0] in multiset(a);
    var i :| 0 <= i < |a| && a[i] == b[0];
    var j :| 0 <= j < |b| && b[j] == a[0];
    assert i > 0 ==> le(a[0], b[0]);
    assert j > 0 ==> le(b[0], a[0]);
  }

  /** There is only one sorted permutation, so it does not matter which sort is used. */
  lemma {:induction false} SortedIsUnique<T>(le: Order<T>, a: seq<T>, b: seq<T>)
    requires Ascending(le, a) && Ascending(le, b) && multiset(a) == multiset(b)
    requires forall x, y | x in a && y in a && le(x, y) && le(y, x) :: x == y
    ensures a == b
    decreases |a|
  {
    SameLength(a, b);
    if a != [] {
      SameFirst(le, a, b);
      SameRest(a, b);
      FirstOfAscending(le, a);
      FirstOfAscending(le, b);
      hide Ascending;
      SortedIsUnique(le, a[1..], b[1..]);
    }
  }

  lemma SameLength<T>(a: seq<T>, b: seq<T>)
    requires multiset(a) == multiset(b)
    ensures |a| == |b|
  {
    assert |multiset(a)| == |a| && |multiset(b)| == |b|;
  }

  lemma SameRest<T>(a: seq<T>, b: seq<T>)
    requires multiset(a) == multiset(b) && a != [] && b != [] && a[0] == b[0]
    ensures multiset(a[1..]) == multiset(b[1..])
    ensures a[1..] == b[1..] ==> a == b
    ensures forall x | x in a[1..] :: x in a
  {
    WithoutFirst(a);
    WithoutFirst(b);
    assert a == [a[0]] + a[1..] && b == [b[0]] + b[1..];
  }
}
