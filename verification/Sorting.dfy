/** Python's `sorted` as a stable insertion sort, and the order of text by code point. */
module Sorting {

  ghost predicate TotalOrder<T(!new)>(le: (T, T) -> bool) {
    && (forall a, b :: le(a, b) || le(b, a))
    && (forall a, b, c :: le(a, b) && le(b, c) ==> le(a, c))
  }

  ghost predicate Sorted<T>(le: (T, T) -> bool, xs: seq<T>) {
    forall i, j :: 0 <= i < j < |xs| ==> le(xs[i], xs[j])
  }

  function Insert<T>(le: (T, T) -> bool, x: T, xs: seq<T>): seq<T> {
    if xs == [] then [x]
    else if le(x, xs[0]) then [x] + xs
    else [xs[0]] + Insert(le, x, xs[1..])
  }

  function Sort<T>(le: (T, T) -> bool, xs: seq<T>): seq<T> {
    if xs == [] then [] else Insert(le, xs[0], Sort(le, xs[1..]))
  }

  lemma {:induction false} InsertPermutes<T>(le: (T, T) -> bool, x: T, xs: seq<T>)
    ensures multiset(Insert(le, x, xs)) == multiset(xs) + multiset{x}
  {
    if xs != [] {
      InsertPermutes(le, x, xs[1..]);
      assert xs == [xs[0]] + xs[1..];
    }
  }

  lemma {:induction false} SortPermutes<T>(le: (T, T) -> bool, xs: seq<T>)
    ensures multiset(Sort(le, xs)) == multiset(xs) && |Sort(le, xs)| == |xs|
  {
    if xs != [] {
      SortPermutes(le, xs[1..]);
      InsertPermutes(le, xs[0], Sort(le, xs[1..]));
      assert xs == [xs[0]] + xs[1..];
    }
    assert |Sort(le, xs)| == |multiset(Sort(le, xs))| == |multiset(xs)| == |xs|;
  }

  lemma SortElements<T>(le: (T, T) -> bool, xs: seq<T>)
    ensures forall x :: x in Sort(le, xs) <==> x in xs
  {
    SortPermutes(le, xs);
    assert forall x :: x in Sort(le, xs) <==> x in multiset(Sort(le, xs));
    assert forall x :: x in xs <==> x in multiset(xs);
  }

  lemma {:induction false} InsertSorts<T(!new)>(le: (T, T) -> bool, x: T, xs: seq<T>)
    requires TotalOrder(le) && Sorted(le, xs)
    ensures Sorted(le, Insert(le, x, xs))
  {
    if xs != [] && !le(x, xs[0]) {
      InsertSorts(le, x, xs[1..]);
      InsertPermutes(le, x, xs[1..]);
      var tail := Insert(le, x, xs[1..]);
      forall i | 0 <= i < |tail|
        ensures le(xs[0], tail[i])
      {
        assert tail[i] in multiset(tail);
        assert tail[i] == x || tail[i] in xs[1..];
      }
    }
  }

  lemma {:induction false} SortSorts<T(!new)>(le: (T, T) -> bool, xs: seq<T>)
    requires TotalOrder(le)
    ensures Sorted(le, Sort(le, xs))
  {
    if xs != [] {
      SortSorts(le, xs[1..]);
      InsertSorts(le, xs[0], Sort(le, xs[1..]));
    }
  }

  /** Elements the order cannot separate are equal among those listed. */
  ghost predicate Separates<T>(le: (T, T) -> bool, xs: seq<T>) {
    forall a, b :: a in xs && b in xs && le(a, b) && le(b, a) ==> a == b
  }

  /** A sorted list is the only sorted arrangement of its elements. */
  lemma {:induction false} SortedUnique<T>(le: (T, T) -> bool, xs: seq<T>, ys: seq<T>)
    requires Sorted(le, xs) && Sorted(le, ys) && multiset(xs) == multiset(ys) && Separates(le, xs)
    ensures xs == ys
  {
    assert |xs| == |multiset(xs)| == |multiset(ys)| == |ys|;
    if xs != [] {
      SameLeast(le, xs, ys);
      RestPermutes(xs, ys);
      assert forall a :: a in xs[1..] ==> a in xs;
      SortedUnique(le, xs[1..], ys[1..]);
      assert xs == [xs[0]] + xs[1..] && ys == [ys[0]] + ys[1..];
    }
  }

  lemma SameLeast<T>(le: (T, T) -> bool, xs: seq<T>, ys: seq<T>)
    requires Sorted(le, xs) && Sorted(le, ys) && multiset(xs) == multiset(ys) && Separates(le, xs)
    requires xs != [] && ys != []
    ensures xs[0] == ys[0]
  {
    var x, y := xs[0], ys[0];
    assert x in multiset(ys) && y in multiset(xs);
    var j :| 0 <= j < |ys| && ys[j] == x;
    var i :| 0 <= i < |xs| && xs[i] == y;
    assert j > 0 ==> le(y, x);
    assert i > 0 ==> le(x, y);
  }

  lemma RestPermutes<T>(xs: seq<T>, ys: seq<T>)
    requires multiset(xs) == multiset(ys) && xs != [] && ys != [] && xs[0] == ys[0]
    ensures multiset(xs[1..]) == multiset(ys[1..])
  {
    assert xs == [xs[0]] + xs[1..] && ys == [ys[0]] + ys[1..];
    assert multiset(xs[1..]) == multiset(xs) - multiset{xs[0]};
    assert multiset(ys[1..]) == multiset(ys) - multiset{ys[0]};
  }

  /** Sorting ignores the order it is given. */
  lemma SortOfPermutation<T(!new)>(le: (T, T) -> bool, xs: seq<T>, ys: seq<T>)
    requires TotalOrder(le) && multiset(xs) == multiset(ys) && Separates(le, xs)
    ensures Sort(le, xs) == Sort(le, ys)
  {
    SortPermutes(le, xs);
    SortPermutes(le, ys);
    SortSorts(le, xs);
    SortSorts(le, ys);
    SortElements(le, xs);
    SortedUnique(le, Sort(le, xs), Sort(le, ys));
  }

  lemma {:induction false} SortOfSorted<T(!new)>(le: (T, T) -> bool, xs: seq<T>)
    requires TotalOrder(le) && Sorted(le, xs) && Separates(le, xs)
    ensures Sort(le, xs) == xs
  {
    SortPermutes(le, xs);
    SortSorts(le, xs);
    SortedUnique(le, xs, Sort(le, xs));
  }

  // ---------------------------------------------------------------- text

  predicate TextLe(a: string, b: string) {
    a == "" || (b != "" && (a[0] < b[0] || (a[0] == b[0] && TextLe(a[1..], b[1..]))))
  }

  lemma {:induction false} TextLeTotal(a: string, b: string)
    ensures TextLe(a, b) || TextLe(b, a)
    ensures TextLe(a, b) && TextLe(b, a) ==> a == b
  {
    if a != "" && b != "" {
      TextLeTotal(a[1..], b[1..]);
      assert a == [a[0]] + a[1..] && b == [b[0]] + b[1..];
    }
  }

  lemma {:induction false} TextLeTransitive(a: string, b: string, c: string)
    requires TextLe(a, b) && TextLe(b, c)
    ensures TextLe(a, c)
  {
    if a != "" && a[0] == b[0] == c[0] {
      TextLeTransitive(a[1..], b[1..], c[1..]);
    }
  }

  lemma TextOrder()
    ensures TotalOrder(TextLe)
    ensures forall xs: seq<string> :: Separates(TextLe, xs)
  {
    forall a, b
      ensures TextLe(a, b) || TextLe(b, a)
      ensures TextLe(a, b) && TextLe(b, a) ==> a == b
    {
      TextLeTotal(a, b);
    }
    forall a, b, c | TextLe(a, b) && TextLe(b, c)
      ensures TextLe(a, c)
    {
      TextLeTransitive(a, b, c);
    }
  }

  predicate NoDuplicates<T(==)>(xs: seq<T>) {
    forall i, j :: 0 <= i < j < |xs| ==> xs[i] != xs[j]
  }

  lemma NoDuplicatesHead<T>(xs: seq<T>)
    requires xs != []
    ensures NoDuplicates(xs) <==> xs[0] !in xs[1..] && NoDuplicates(xs[1..])
  {
  }

  /** Without repetition: each element is listed once. */
  lemma {:induction false} NoDuplicatesCount<T>(xs: seq<T>)
    ensures NoDuplicates(xs) <==> forall x :: x in xs ==> multiset(xs)[x] == 1
  {
    if xs != [] {
      var rest := xs[1..];
      NoDuplicatesHead(xs);
      NoDuplicatesCount(rest);
      assert xs == [xs[0]] + rest;
      assert forall x :: x in rest <==> multiset(rest)[x] > 0;
      assert forall x :: x in rest ==> x in xs;
      assert forall x :: multiset(xs)[x] == multiset(rest)[x] + if x == xs[0] then 1 else 0;
    }
  }

  lemma PermutationNoDuplicates<T>(xs: seq<T>, ys: seq<T>)
    requires multiset(xs) == multiset(ys) && NoDuplicates(xs)
    ensures NoDuplicates(ys)
  {
    NoDuplicatesCount(xs);
    NoDuplicatesCount(ys);
    assert forall x :: x in ys ==> x in multiset(xs);
  }

  lemma NoDuplicatesSnoc<T>(xs: seq<T>, x: T)
    ensures NoDuplicates(xs + [x]) <==> NoDuplicates(xs) && x !in xs
  {
    var ys := xs + [x];
    assert forall i :: 0 <= i < |xs| ==> ys[i] == xs[i];
    assert ys[|xs|] == x;
  }

  /** Lists without repetition are permutations of each other when they list the same elements. */
  lemma SameElementsPermute<T>(xs: seq<T>, ys: seq<T>)
    requires NoDuplicates(xs) && NoDuplicates(ys) && forall x :: x in xs <==> x in ys
    ensures multiset(xs) == multiset(ys)
  {
    NoDuplicatesCount(xs);
    NoDuplicatesCount(ys);
    forall x
      ensures multiset(xs)[x] == multiset(ys)[x]
    {
      assert x in xs <==> multiset(xs)[x] > 0;
      assert x in ys <==> multiset(ys)[x] > 0;
    }
  }

  // ---------------------------------------------------------------- sets in order

  /** The elements of a set in some order. */
  method ListOf<T(==)>(s: set<T>) returns (xs: seq<T>)
    ensures forall x :: x in xs <==> x in s
    ensures NoDuplicates(xs)
  {
    xs := [];
    var rest := s;
    while rest != {}
      invariant rest <= s && (forall x :: x in xs <==> x in s - rest)
      invariant NoDuplicates(xs)
    {
      var x :| x in rest;
      NoDuplicatesSnoc(xs, x);
      xs := xs + [x];
      rest := rest - {x};
    }
  }

  /** The members of a set, each once and in order. */
  ghost predicate Enumerates(xs: seq<string>, s: set<string>) {
    Sorted(TextLe, xs) && NoDuplicates(xs) && forall x :: x in xs <==> x in s
  }

  lemma EnumeratesSnoc(xs: seq<string>, s: set<string>, x: string)
    requires Enumerates(xs, s) && x !in s && forall y :: y in s ==> TextLe(y, x)
    ensures Enumerates(xs + [x], s + {x})
  {
    NoDuplicatesSnoc(xs, x);
  }

  lemma EnumerationUnique(xs: seq<string>, ys: seq<string>, s: set<string>)
    requires Enumerates(xs, s) && Enumerates(ys, s)
    ensures xs == ys
  {
    TextOrder();
    assert Separates(TextLe, xs);
    SameElementsPermute(xs, ys);
    SortedUnique(TextLe, xs, ys);
  }

  method SortedList(s: set<string>) returns (xs: seq<string>)
    ensures Enumerates(xs, s)
  {
    var listed := ListOf(s);
    xs := Sort(TextLe, listed);
    TextOrder();
    SortSorts(TextLe, listed);
    SortElements(TextLe, listed);
    SortPermutes(TextLe, listed);
    PermutationNoDuplicates(listed, xs);
  }

  lemma {:induction false} EnumerationExists(s: set<string>)
    ensures exists xs :: Enumerates(xs, s)
  {
    if s == {} {
      assert Enumerates([], s);
    } else {
      var x :| x in s;
      EnumerationExists(s - {x});
      var xs :| Enumerates(xs, s - {x});
      var ys := xs + [x];
      NoDuplicatesSnoc(xs, x);
      TextOrder();
      SortSorts(TextLe, ys);
      SortElements(TextLe, ys);
      SortPermutes(TextLe, ys);
      PermutationNoDuplicates(ys, Sort(TextLe, ys));
      assert Enumerates(Sort(TextLe, ys), s);
    }
  }

  /** `sorted` of a set: the one list that enumerates it. */
  ghost function SortedOf(s: set<string>): (xs: seq<string>)
    ensures Enumerates(xs, s)
  {
    EnumerationExists(s);
    var xs :| Enumerates(xs, s);
    xs
  }
}
