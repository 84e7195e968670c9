/** Sorting under a strict total order. The result is unique, so it does not matter which algorithm the library runs. */
module Sorting {
  import opened Strings

  ghost predicate StrictTotal<T(!new)>(less: (T, T) -> bool)
  {
    && (forall a :: !less(a, a))
    && (forall a, b, c :: less(a, b) && less(b, c) ==> less(a, c))
    && (forall a, b :: a == b || less(a, b) || less(b, a))
  }

  predicate Sorted<T>(s: seq<T>, less: (T, T) -> bool)
  {
    forall i, j | 0 <= i < j < |s| :: less(s[i], s[j])
  }

  function Insert<T(==)>(x: T, s: seq<T>, less: (T, T) -> bool): seq<T>
  {
    if s == [] || !less(s[0], x) then [x] + s else [s[0]] + Insert(x, s[1..], less)
  }

  function Sort<T(==)>(s: seq<T>, less: (T, T) -> bool): seq<T>
  {
    if s == [] then [] else Insert(s[0], Sort(s[1..], less), less)
  }

  function Elements<T>(s: seq<T>): set<T>
  {
    set x | x in s
  }

  predicate Distinct<T(==)>(s: seq<T>)
  {
    forall i, j | 0 <= i < j < |s| :: s[i] != s[j]
  }

  lemma {:induction false} InsertSorts<T(!new)>(x: T, s: seq<T>, less: (T, T) -> bool)
    requires StrictTotal(less) && Sorted(s, less) && x !in s
    ensures Sorted(Insert(x, s, less), less) && Elements(Insert(x, s, less)) == {x} + Elements(s)
  {
    if s == [] || !less(s[0], x) {
      assert forall y :: y in [x] + s <==> y == x || y in s;
    } else {
      var rest := Insert(x, s[1..], less);
      InsertSorts(x, s[1..], less);
      assert forall y :: y in s <==> y == s[0] || y in s[1..];
      forall j | 0 <= j < |rest| ensures less(s[0], rest[j]) {
        assert rest[j] in Elements(rest);
      }
      assert forall y :: y in [s[0]] + rest <==> y == s[0] || y in Elements(rest);
    }
  }

  lemma {:induction false} SortSorts<T(!new)>(s: seq<T>, less: (T, T) -> bool)
    requires StrictTotal(less) && Distinct(s)
    ensures Sorted(Sort(s, less), less) && Elements(Sort(s, less)) == Elements(s)
  {
    if s != [] {
      SortSorts(s[1..], less);
      var rest := Sort(s[1..], less);
      assert (s[0] in rest) == (s[0] in Elements(rest));
      InsertSorts(s[0], rest, less);
      assert forall y :: y in s <==> y == s[0] || y in s[1..];
    }
  }

  lemma {:induction false} SortedUnique<T(!new)>(a: seq<T>, b: seq<T>, less: (T, T) -> bool)
    requires StrictTotal(less) && Sorted(a, less) && Sorted(b, less) && Elements(a) == Elements(b)
    ensures a == b
  {
    SizeOfSorted(a, less);
    SizeOfSorted(b, less);
    if a != [] {
      assert a[0] in Elements(b) && b[0] in Elements(a);
      assert a[0] == b[0];
      assert Elements(a[1..]) == Elements(a) - {a[0]} by { DropFirst(a, less); }
      assert Elements(b[1..]) == Elements(b) - {b[0]} by { DropFirst(b, less); }
      SortedUnique(a[1..], b[1..], less);
      assert a == [a[0]] + a[1..] && b == [b[0]] + b[1..];
    }
  }

  lemma DropFirst<T(!new)>(s: seq<T>, less: (T, T) -> bool)
    requires StrictTotal(less) && Sorted(s, less) && s != []
    ensures Elements(s[1..]) == Elements(s) - {s[0]}
  {
    assert forall y :: y in s <==> y == s[0] || y in s[1..];
    assert forall j | 0 < j < |s| :: less(s[0], s[j]);
  }

  function Before<T>(elements: set<T>, less: (T, T) -> bool, x: T): set<T>
  {
    set y | y in elements && less(y, x)
  }

  /** In a sorted sequence exactly `i` elements come before the one at `i`. */
  lemma {:induction false} RankIsIndex<T(!new)>(s: seq<T>, less: (T, T) -> bool, i: nat)
    requires StrictTotal(less) && Sorted(s, less) && i < |s|
    ensures |Before(Elements(s), less, s[i])| == i
  {
    assert Before(Elements(s), less, s[i]) == Elements(s[..i]) by {
      forall x | x in Before(Elements(s), less, s[i]) ensures x in s[..i] {
        var j :| 0 <= j < |s| && s[j] == x;
        assert j < i;
        assert s[..i][j] == x;
      }
    }
    SizeOfSorted(s[..i], less);
  }

  lemma {:induction false} SizeOfSorted<T(!new)>(s: seq<T>, less: (T, T) -> bool)
    requires StrictTotal(less) && Sorted(s, less)
    ensures |Elements(s)| == |s|
  {
    if s != [] {
      DropFirst(s, less);
      SizeOfSorted(s[1..], less);
    }
  }

  lemma {:induction false} Arrange<T(!new)>(s: set<T>, less: (T, T) -> bool) returns (sorted: seq<T>)
    requires StrictTotal(less)
    ensures Sorted(sorted, less) && Elements(sorted) == s
  {
    if s == {} {
      sorted := [];
    } else {
      var x :| x in s;
      var rest := Arrange(s - {x}, less);
      assert (x in rest) == (x in Elements(rest));
      InsertSorts(x, rest, less);
      sorted := Insert(x, rest, less);
    }
  }

  lemma SubsetSize<T>(a: set<T>, b: set<T>)
    requires a <= b
    ensures |a| <= |b| && (a != b ==> |a| < |b|)
  {
    assert b == a + (b - a);
  }

  lemma LessIsStrictTotal()
    ensures StrictTotal(Less)
  {
    forall a ensures !Less(a, a) {
      LessIrreflexive(a);
    }
    forall a, b, c | Less(a, b) && Less(b, c) ensures Less(a, c) {
      LessTransitive(a, b, c);
    }
    forall a, b ensures a == b || Less(a, b) || Less(b, a) {
      LessTotal(a, b);
    }
  }
}
