/** Stable sorting by a total preorder, and the order of strings. */
module Ordering {
  import opened Common

  /** The code-point order of strings. */
  predicate AtMost(a: string, b: string) {
    a == "" || (b != "" && (a[0] < b[0] || (a[0] == b[0] && AtMost(a[1..], b[1..]))))
  }

  lemma AtMostTotal(a: string, b: string)
    ensures AtMost(a, b) || AtMost(b, a)
    ensures AtMost(a, b) && AtMost(b, a) ==> a == b
  {
    if a != "" && b != "" && a[0] == b[0] {
      AtMostTotal(a[1..], b[1..]);
      assert a == [a[0]] + a[1..] && b == [b[0]] + b[1..];
    }
  }

  lemma AtMostTransitive(a: string, b: string, c: string)
    requires AtMost(a, b) && AtMost(b, c)
    ensures AtMost(a, c)
  {
    if a != "" && a[0] == b[0] && b[0] == c[0] {
      AtMostTransitive(a[1..], b[1..], c[1..]);
    }
  }

  ghost predicate Total<T(!new)>(leq: (T, T) -> bool) {
    && (forall a, b :: leq(a, b) || leq(b, a))
    && (forall a, b, c :: leq(a, b) && leq(b, c) ==> leq(a, c))
  }

  ghost predicate Sorted<T>(leq: (T, T) -> bool, s: seq<T>) {
    forall i, j :: 0 <= i < j < |s| ==> leq(s[i], s[j])
  }

  function Insert<T>(leq: (T, T) -> bool, x: T, s: seq<T>): seq<T>
    decreases |s|
  {
    if s == [] || leq(x, s[0]) then [x] + s else [s[0]] + Insert(leq, x, s[1..])
  }

  /** A stable sort. */
  function Sort<T>(leq: (T, T) -> bool, s: seq<T>): seq<T> {
    if s == [] then [] else Insert(leq, s[0], Sort(leq, s[1..]))
  }

  lemma {:induction false} InsertPermutes<T>(leq: (T, T) -> bool, x: T, s: seq<T>)
    ensures multiset(Insert(leq, x, s)) == multiset(s) + multiset{x}
    decreases |s|
  {
    if s != [] && !leq(x, s[0]) {
      InsertPermutes(leq, x, s[1..]);
      assert s == [s[0]] + s[1..];
    }
  }

  lemma {:induction false} InsertSorts<T(!new)>(leq: (T, T) -> bool, x: T, s: seq<T>)
    requires Total(leq) && Sorted(leq, s)
    ensures Sorted(leq, Insert(leq, x, s))
    decreases |s|
  {
    if s != [] && !leq(x, s[0]) {
      var r := Insert(leq, x, s[1..]);
      InsertSorts(leq, x, s[1..]);
      InsertPermutes(leq, x, s[1..]);
      forall j | 0 <= j < |r| ensures leq(s[0], r[j]) {
        assert r[j] in multiset(s[1..]) + multiset{x};
      }
    }
  }

  lemma {:induction false} SortKeeps<T(!new)>(leq: (T, T) -> bool, s: seq<T>)
    requires Total(leq)
    ensures Sorted(leq, Sort(leq, s))
    ensures multiset(Sort(leq, s)) == multiset(s) && |Sort(leq, s)| == |s|
  {
    if s != [] {
      SortKeeps(leq, s[1..]);
      InsertSorts(leq, s[0], Sort(leq, s[1..]));
      InsertPermutes(leq, s[0], Sort(leq, s[1..]));
      assert s == [s[0]] + s[1..];
    }
    assert |multiset(Sort(leq, s))| == |Sort(leq, s)|;
  }

  /** Sorting leaves a sorted sequence alone. */
  lemma {:induction false} SortSorted<T>(leq: (T, T) -> bool, s: seq<T>)
    requires Sorted(leq, s)
    ensures Sort(leq, s) == s
  {
    if s != [] {
      SortSorted(leq, s[1..]);
    }
  }

  lemma SortTwice<T(!new)>(leq: (T, T) -> bool, s: seq<T>)
    requires Total(leq)
    ensures Sort(leq, Sort(leq, s)) == Sort(leq, s)
  {
    SortKeeps(leq, s);
    SortSorted(leq, Sort(leq, s));
  }

  ghost predicate TiesAreEqual<T(!new)>(leq: (T, T) -> bool, m: multiset<T>) {
    forall a, b :: a in m && b in m && leq(a, b) && leq(b, a) ==> a == b
  }

  lemma SortedTail<T>(leq: (T, T) -> bool, s: seq<T>)
    requires Sorted(leq, s) && s != []
    ensures Sorted(leq, s[1..])
    ensures forall x :: x in s[1..] ==> leq(s[0], x)
  {
  }

  lemma SameHead<T(!new)>(leq: (T, T) -> bool, a: seq<T>, b: seq<T>)
    requires Total(leq) && Sorted(leq, a) && Sorted(leq, b)
    requires multiset(a) == multiset(b) && TiesAreEqual(leq, multiset(a))
    requires a != [] && b != []
    ensures a[0] == b[0]
  {
    assert a[0] in multiset(b) && b[0] in multiset(a);
    SortedTail(leq, a);
    SortedTail(leq, b);
    assert a == [a[0]] + a[1..] && b == [b[0]] + b[1..];
    hide Sorted;
  }

  lemma SameLength<T>(a: seq<T>, b: seq<T>)
    requires multiset(a) == multiset(b)
    ensures |a| == |b|
  {
    assert |a| == |multiset(a)| == |multiset(b)| == |b|;
  }

  /** Two sorted sequences of the same elements agree if ties are between equals. */
  lemma {:induction false} SortedUnique<T(!new)>(leq: (T, T) -> bool, a: seq<T>, b: seq<T>)
    requires Total(leq) && Sorted(leq, a) && Sorted(leq, b)
    requires multiset(a) == multiset(b) && TiesAreEqual(leq, multiset(a))
    ensures a == b
  {
    hide Total, Sorted;
    SameLength(a, b);
    if a != [] {
      SameHead(leq, a, b);
      SortedTail(leq, a);
      SortedTail(leq, b);
      TailMultiset(a);
      TailMultiset(b);
      SortedUnique(leq, a[1..], b[1..]);
      assert a == [a[0]] + a[1..] && b == [b[0]] + b[1..];
    }
  }

  lemma SortPermuted<T(!new)>(leq: (T, T) -> bool, a: seq<T>, b: seq<T>)
    requires Total(leq) && multiset(a) == multiset(b) && TiesAreEqual(leq, multiset(a))
    ensures Sort(leq, a) == Sort(leq, b)
  {
    SortKeeps(leq, a);
    SortKeeps(leq, b);
    SortedUnique(leq, Sort(leq, a), Sort(leq, b));
  }

  // ---- Stability ------------------------------------------------------------

  predicate Tie<T>(leq: (T, T) -> bool, x: T, y: T) {
    leq(x, y) && leq(y, x)
  }

  /** The elements of `s` that tie with `x`, in order. */
  function Ties<T>(leq: (T, T) -> bool, x: T, s: seq<T>): seq<T> {
    if s == [] then [] else (if Tie(leq, x, s[0]) then [s[0]] else []) + Ties(leq, x, s[1..])
  }

  lemma TiesCons<T>(leq: (T, T) -> bool, x: T, y: T, s: seq<T>)
    ensures Ties(leq, x, [y] + s) == (if Tie(leq, x, y) then [y] else []) + Ties(leq, x, s)
  {
    assert ([y] + s)[1..] == s;
  }

  lemma {:induction false} InsertTies<T(!new)>(leq: (T, T) -> bool, x: T, y: T, s: seq<T>)
    requires Total(leq)
    ensures Ties(leq, x, Insert(leq, y, s)) == (if Tie(leq, x, y) then [y] else []) + Ties(leq, x, s)
    decreases |s|
  {
    hide Ties;
    if s == [] || leq(y, s[0]) {
      TiesCons(leq, x, y, s);
    } else {
      InsertTies(leq, x, y, s[1..]);
      TiesCons(leq, x, s[0], Insert(leq, y, s[1..]));
      TiesCons(leq, x, s[0], s[1..]);
      assert s == [s[0]] + s[1..];
      assert !(Tie(leq, x, y) && Tie(leq, x, s[0]));
      var none: seq<T> := [];
      assert none + Ties(leq, x, s[1..]) == Ties(leq, x, s[1..]);
      assert none + ([y] + Ties(leq, x, s[1..])) == [y] + Ties(leq, x, s[1..]);
      assert none + ([s[0]] + Ties(leq, x, s[1..])) == [s[0]] + Ties(leq, x, s[1..]);
    }
  }

  /** The sort is stable: elements that tie keep their order. */
  lemma {:induction false} SortStable<T(!new)>(leq: (T, T) -> bool, x: T, s: seq<T>)
    requires Total(leq)
    ensures Ties(leq, x, Sort(leq, s)) == Ties(leq, x, s)
  {
    if s != [] {
      SortStable(leq, x, s[1..]);
      InsertTies(leq, x, s[0], Sort(leq, s[1..]));
    }
  }

  // ---- Places ------------------------------------------------------------------

  function Ahead<T>(leq: (T, T) -> bool, x: T, y: T): seq<T> {
    if leq(x, y) then [] else [y]
  }

  /** How many elements of `s` come strictly before `x`. */
  function Place<T>(leq: (T, T) -> bool, x: T, s: seq<T>): nat {
    |FlatMap(y => Ahead(leq, x, y), s)|
  }

  lemma PlacePermuted<T>(leq: (T, T) -> bool, x: T, a: seq<T>, b: seq<T>)
    requires multiset(a) == multiset(b)
    ensures Place(leq, x, a) == Place(leq, x, b)
  {
    var f := y => Ahead(leq, x, y);
    FlatMapPermuted(f, a, b);
    SameLength(FlatMap(f, a), FlatMap(f, b));
  }

  lemma PlaceCons<T>(leq: (T, T) -> bool, x: T, y: T, s: seq<T>)
    ensures Place(leq, x, [y] + s) == (if leq(x, y) then 0 else 1) + Place(leq, x, s)
  {
    var f := y => Ahead(leq, x, y);
    FlatMapAppend(f, [y], s);
    assert [y][..0] == [];
    assert FlatMap(f, [y]) == [] + f(y);
  }

  /** Elements that tie have the same place. */
  lemma {:induction false} PlaceOfTies<T(!new)>(leq: (T, T) -> bool, x: T, y: T, s: seq<T>)
    requires Total(leq) && Tie(leq, x, y)
    ensures Place(leq, x, s) == Place(leq, y, s)
  {
    hide Place;
    if s == [] {
      PlaceOfNone(leq, x);
      PlaceOfNone(leq, y);
    } else {
      PlaceOfTies(leq, x, y, s[1..]);
      PlaceCons(leq, x, s[0], s[1..]);
      PlaceCons(leq, y, s[0], s[1..]);
      assert s == [s[0]] + s[1..];
    }
  }

  lemma PlaceOfNone<T>(leq: (T, T) -> bool, x: T)
    ensures Place(leq, x, []) == 0
  {
  }

  lemma {:induction false} PlaceAfter<T>(leq: (T, T) -> bool, x: T, s: seq<T>)
    requires forall y :: y in s ==> leq(x, y)
    ensures Place(leq, x, s) == 0
  {
    hide Place;
    if s == [] {
      PlaceOfNone(leq, x);
    } else {
      PlaceAfter(leq, x, s[1..]);
      PlaceCons(leq, x, s[0], s[1..]);
      assert s == [s[0]] + s[1..];
    }
  }

  /** Insertion puts an element at its place. */
  lemma {:induction false} InsertPlace<T(!new)>(leq: (T, T) -> bool, x: T, s: seq<T>)
    requires Total(leq) && Sorted(leq, s)
    ensures var p := Place(leq, x, s); p < |Insert(leq, x, s)| && Insert(leq, x, s)[p] == x
    decreases |s|
  {
    hide Place;
    if s == [] {
      PlaceOfNone(leq, x);
    } else {
      SortedTail(leq, s);
      hide Sorted;
      if leq(x, s[0]) {
        forall y | y in s ensures leq(x, y) {
          assert y == s[0] || y in s[1..];
        }
        PlaceAfter(leq, x, s);
      } else {
        InsertPlace(leq, x, s[1..]);
        PlaceCons(leq, x, s[0], s[1..]);
        assert s == [s[0]] + s[1..];
      }
    }
  }

  /** In a sorted sequence nothing stands before its place. */
  lemma {:induction false} PlaceBound<T(!new)>(leq: (T, T) -> bool, s: seq<T>, i: nat)
    requires Total(leq) && Sorted(leq, s) && i < |s|
    ensures Place(leq, s[i], s) <= i
    decreases |s|
  {
    hide Place;
    SortedTail(leq, s);
    assert s == [s[0]] + s[1..];
    if i == 0 {
      forall y | y in s ensures leq(s[0], y) {
        assert y == s[0] || y in s[1..];
      }
      PlaceAfter(leq, s[0], s);
    } else {
      hide Sorted;
      PlaceBound(leq, s[1..], i - 1);
      PlaceCons(leq, s[i], s[0], s[1..]);
    }
  }

  /** Sorted sequences of the same elements agree as far as ties with what stands
      there are between equals. */
  lemma {:induction false} SortedPrefixUnique<T(!new)>(leq: (T, T) -> bool, a: seq<T>, b: seq<T>, n: nat)
    requires Total(leq) && Sorted(leq, a) && Sorted(leq, b) && multiset(a) == multiset(b) && n <= |a|
    requires forall x, y :: x in a[..n] && y in a && Tie(leq, x, y) ==> x == y
    ensures n <= |b| && a[..n] == b[..n]
    decreases n
  {
    hide Total, Sorted, Tie;
    SameLength(a, b);
    if n > 0 {
      assert a[0] in a[..n];
      SameFirst(leq, a, b);
      SortedTail(leq, a);
      SortedTail(leq, b);
      TailMultiset(a);
      TailMultiset(b);
      assert forall x :: x in a[1..][..n - 1] ==> x in a[..n];
      SortedPrefixUnique(leq, a[1..], b[1..], n - 1);
      assert a[..n] == [a[0]] + a[1..][..n - 1] && b[..n] == [b[0]] + b[1..][..n - 1];
    }
  }

  lemma SameFirst<T(!new)>(leq: (T, T) -> bool, a: seq<T>, b: seq<T>)
    requires Total(leq) && Sorted(leq, a) && Sorted(leq, b) && multiset(a) == multiset(b)
    requires a != [] && b != [] && forall y :: y in a && Tie(leq, a[0], y) ==> a[0] == y
    ensures a[0] == b[0]
  {
    assert a[0] in multiset(b) && b[0] in multiset(a);
    SortedTail(leq, a);
    SortedTail(leq, b);
    assert a == [a[0]] + a[1..] && b == [b[0]] + b[1..];
    hide Sorted;
    assert b[0] in a && a[0] in b;
    assert Tie(leq, a[0], b[0]);
  }
}
