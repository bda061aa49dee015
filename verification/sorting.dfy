/** Sorting by a strict total order, and why the result does not depend on how. */
module Sorting {

  ghost predicate StrictTotal<T(!new)>(less: (T, T) -> bool) {
    && (forall x :: !less(x, x))
    && (forall x, y, z :: less(x, y) && less(y, z) ==> less(x, z))
    && (forall x, y :: x == y || less(x, y) || less(y, x))
  }

  ghost predicate Ordered<T>(s: seq<T>, less: (T, T) -> bool) {
    forall i, j :: 0 <= i < j < |s| ==> !less(s[j], s[i])
  }

  function Insert<T>(x: T, s: seq<T>, less: (T, T) -> bool): seq<T> {
    if s == [] || less(x, s[0]) then [x] + s else [s[0]] + Insert(x, s[1..], less)
  }

  function Sort<T>(s: seq<T>, less: (T, T) -> bool): seq<T> {
    if s == [] then [] else Insert(s[0], Sort(s[1..], less), less)
  }

  lemma {:induction false} InsertKeepsElements<T>(x: T, s: seq<T>, less: (T, T) -> bool)
    ensures multiset(Insert(x, s, less)) == multiset([x] + s)
  {
    if s != [] && !less(x, s[0]) {
      InsertKeepsElements(x, s[1..], less);
      assert s == [s[0]] + s[1..];
    }
  }

  /** Sorting permutes. */
  lemma {:induction false} SortPermutes<T>(s: seq<T>, less: (T, T) -> bool)
    ensures multiset(Sort(s, less)) == multiset(s)
  {
    if s != [] {
      SortPermutes(s[1..], less);
      InsertKeepsElements(s[0], Sort(s[1..], less), less);
      assert s == [s[0]] + s[1..];
    }
  }

  lemma {:induction false} InsertKeepsOrder<T(!new)>(x: T, s: seq<T>, less: (T, T) -> bool)
    requires StrictTotal(less) && Ordered(s, less)
    ensures Ordered(Insert(x, s, less), less)
  {
    if s == [] {
    } else if less(x, s[0]) {
      var t := [x] + s;
      forall i, j | 0 <= i < j < |t|
        ensures !less(t[j], t[i])
      {
        if i == 0 {
          assert t[j] == s[j - 1];
        }
      }
    } else {
      var rest := Insert(x, s[1..], less);
      InsertKeepsOrder(x, s[1..], less);
      InsertKeepsElements(x, s[1..], less);
      var t := [s[0]] + rest;
      forall i, j | 0 <= i < j < |t|
        ensures !less(t[j], t[i])
      {
        if i == 0 {
          assert t[j] in multiset(rest);
          assert t[j] == x || t[j] in s[1..];
        }
      }
    }
  }

  /** Sorting orders. */
  lemma {:induction false} SortOrders<T(!new)>(s: seq<T>, less: (T, T) -> bool)
    requires StrictTotal(less)
    ensures Ordered(Sort(s, less), less)
  {
    if s != [] {
      SortOrders(s[1..], less);
      InsertKeepsOrder(s[0], Sort(s[1..], less), less);
    }
  }

  /** Two ordered sequences with the same elements are equal. */
  lemma {:induction false} OrderedIsUnique<T(!new)>(a: seq<T>, b: seq<T>, less: (T, T) -> bool)
    requires StrictTotal(less) && Ordered(a, less) && Ordered(b, less)
    requires multiset(a) == multiset(b)
    ensures a == b
  {
    assert |a| == |multiset(a)| == |b|;
    if a != [] {
      FirstOfEqual(a, b, less);
      assert a == [a[0]] + a[1..] && b == [b[0]] + b[1..];
      OrderedIsUnique(a[1..], b[1..], less);
    }
  }

  lemma FirstOfEqual<T(!new)>(a: seq<T>, b: seq<T>, less: (T, T) -> bool)
    requires StrictTotal(less) && Ordered(a, less) && Ordered(b, less)
    requires multiset(a) == multiset(b) && |a| == |b| && a != []
    ensures a[0] == b[0] && multiset(a[1..]) == multiset(b[1..])
  {
    assert a[0] in multiset(b) && b[0] in multiset(a);
    var i :| 0 <= i < |b| && b[i] == a[0];
    var j :| 0 <= j < |a| && a[j] == b[0];
    assert a[0] == b[0];
    assert a == [a[0]] + a[1..] && b == [b[0]] + b[1..];
    assert multiset(a[1..]) == multiset(a) - multiset{a[0]};
    assert multiset(b[1..]) == multiset(b) - multiset{b[0]};
  }

  lemma {:induction false} InsertAgrees<T>(x: T, s: seq<T>, less: (T, T) -> bool, other: (T, T) -> bool)
    requires forall y :: y in s ==> less(x, y) == other(x, y)
    ensures Insert(x, s, less) == Insert(x, s, other)
  {
    if s != [] {
      InsertAgrees(x, s[1..], less, other);
    }
  }

  /** Orders that agree on the elements sort them alike. */
  lemma {:induction false} SortAgrees<T>(s: seq<T>, less: (T, T) -> bool, other: (T, T) -> bool)
    requires forall x, y :: x in s && y in s ==> less(x, y) == other(x, y)
    ensures Sort(s, less) == Sort(s, other)
  {
    if s != [] {
      SortAgrees(s[1..], less, other);
      SortPermutes(s[1..], less);
      forall y | y in Sort(s[1..], less)
        ensures less(s[0], y) == other(s[0], y)
      {
        assert y in multiset(s[1..]);
      }
      InsertAgrees(s[0], Sort(s[1..], less), less, other);
    }
  }

  /** An element found at two places counts twice. */
  lemma TwiceIn<T>(s: seq<T>, i: nat, j: nat)
    requires i < j < |s|
    ensures s[i] == s[j] ==> 2 <= multiset(s)[s[i]]
  {
    assert s == s[..j] + [s[j]] + s[j + 1..];
    assert s[..j][i] in multiset(s[..j]);
  }
}
