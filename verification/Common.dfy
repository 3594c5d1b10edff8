/** Small vocabulary shared by every model: optional values, text stripping and
    facts about duplicate-free sequences. */
module Common {

  datatype Option<+T> = None | Some(value: T)

  /** The code points that Python's `str.strip` removes. */
  predicate IsSpace(c: char) {
    var n := c as int;
    || 9 <= n <= 13 || 28 <= n <= 32 || n == 133 || n == 160 || n == 5760
    || 8192 <= n <= 8202 || n == 8232 || n == 8233 || n == 8239 || n == 8287 || n == 12288
  }

  function TrimLeft(s: string): (r: string)
    ensures |r| <= |s| && r == s[|s| - |r|..]
    ensures r != "" ==> !IsSpace(r[0])
    ensures forall c :: c in s[..|s| - |r|] ==> IsSpace(c)
  {
    if s != "" && IsSpace(s[0]) then TrimLeft(s[1..]) else s
  }

  function TrimRight(s: string): (r: string)
    ensures r <= s
    ensures r != "" ==> !IsSpace(r[|r| - 1])
    ensures forall c :: c in s[|r|..] ==> IsSpace(c)
  {
    if s != "" && IsSpace(s[|s| - 1]) then TrimRight(s[..|s| - 1]) else s
  }

  /** Python's `s.strip()`. */
  function Strip(s: string): string {
    TrimRight(TrimLeft(s))
  }

  predicate Blank(s: string) {
    Strip(s) == ""
  }

  /** Lower case of the ASCII letters. */
  function LowerChar(c: char): char {
    if 'A' <= c <= 'Z' then c - 'A' + 'a' else c
  }

  function Lower(s: string): string {
    seq(|s|, i requires 0 <= i < |s| => LowerChar(s[i]))
  }

  ghost predicate NoDup<T(!new)>(s: seq<T>) {
    forall i, j :: 0 <= i < j < |s| ==> s[i] != s[j]
  }

  lemma {:induction false} NoDupLength<T(!new)>(s: seq<T>)
    requires NoDup(s)
    ensures |set x | x in s| == |s|
  {
    if s == [] {
      assert (set x | x in s) == {};
    } else {
      var front, last := s[..|s| - 1], s[|s| - 1];
      NoDupLength(front);
      assert (set x | x in s) == (set x | x in front) + {last};
    }
  }

  lemma NoDupSnoc<T(!new)>(s: seq<T>, x: T)
    requires NoDup(s) && x !in s
    ensures NoDup(s + [x])
    ensures forall y :: y in s + [x] <==> y in s || y == x
  {
  }

  /** `s` with every occurrence of `x` taken out. */
  function Without<T(==)>(s: seq<T>, x: T): (r: seq<T>) {
    if s == [] then []
    else Without(s[..|s| - 1], x) + (if s[|s| - 1] == x then [] else [s[|s| - 1]])
  }

  lemma {:induction false} WithoutMembers<T>(s: seq<T>, x: T)
    ensures forall y :: y in Without(s, x) <==> y in s && y != x
  {
    if s != [] {
      WithoutMembers(s[..|s| - 1], x);
      assert s == s[..|s| - 1] + [s[|s| - 1]];
    }
  }

  lemma {:induction false} WithoutAbsent<T>(s: seq<T>, x: T)
    requires x !in s
    ensures Without(s, x) == s
  {
    if s != [] {
      WithoutAbsent(s[..|s| - 1], x);
    }
  }

  lemma WithoutAppend<T>(s: seq<T>, y: T, x: T)
    ensures Without(s + [y], x) == Without(s, x) + (if y == x then [] else [y])
  {
    assert (s + [y])[..|s + [y]| - 1] == s;
  }

  lemma {:induction false} WithoutNoDup<T(!new)>(s: seq<T>, x: T)
    requires NoDup(s)
    ensures NoDup(Without(s, x))
  {
    if s != [] {
      var front, last := s[..|s| - 1], s[|s| - 1];
      WithoutNoDup(front, x);
      WithoutMembers(front, x);
      assert last !in front;
    }
  }

  lemma {:induction false} WithoutLength<T(!new)>(s: seq<T>, x: T)
    requires NoDup(s)
    ensures |Without(s, x)| == if x in s then |s| - 1 else |s|
  {
    if x in s {
      var front, last := s[..|s| - 1], s[|s| - 1];
      if last == x {
        WithoutAbsent(front, x);
      } else {
        assert x in front;
        WithoutLength(front, x);
      }
    } else {
      WithoutAbsent(s, x);
    }
  }

  /** Removing an element of a duplicate-free sequence moves every survivor at
      most one place towards the front. */
  lemma {:induction false} WithoutShift<T(!new)>(s: seq<T>, x: T, i: nat)
    requires NoDup(s) && i < |Without(s, x)|
    ensures |Without(s, x)| <= |s|
    ensures Without(s, x)[i] == s[i] || (i + 1 < |s| && Without(s, x)[i] == s[i + 1])
  {
    WithoutLength(s, x);
    var front, last := s[..|s| - 1], s[|s| - 1];
    if i < |Without(front, x)| {
      WithoutShift(front, x, i);
    } else {
      WithoutLength(front, x);
    }
  }

  // ---- Permutations -----------------------------------------------------------

  /** `s` without the element at `i`. */
  function TakeOut<T>(s: seq<T>, i: nat): seq<T>
    requires i < |s|
  {
    s[..i] + s[i + 1..]
  }

  lemma TakeOutMultiset<T>(s: seq<T>, i: nat)
    requires i < |s|
    ensures multiset(s) == multiset(TakeOut(s, i)) + multiset{s[i]}
  {
    assert s == s[..i] + ([s[i]] + s[i + 1..]);
  }

  lemma TailMultiset<T>(s: seq<T>)
    requires s != []
    ensures multiset(s[1..]) == multiset(s) - multiset{s[0]}
    ensures forall x :: x in multiset(s[1..]) ==> x in multiset(s)
  {
    assert s == [s[0]] + s[1..];
  }

  /** The head of a permutation of `b` can be taken out of `b`, leaving a
      permutation of the tail. */
  lemma PermutedHead<T>(a: seq<T>, b: seq<T>) returns (i: nat)
    requires a != [] && multiset(a) == multiset(b)
    ensures i < |b| && b[i] == a[0] && multiset(a[1..]) == multiset(TakeOut(b, i))
  {
    assert a[0] in multiset(b);
    i :| 0 <= i < |b| && b[i] == a[0];
    TakeOutMultiset(b, i);
    TakeOutMultiset(a, 0);
    assert TakeOut(a, 0) == a[1..];
    assert multiset(a[1..]) == multiset(a) - multiset{a[0]};
    assert multiset(TakeOut(b, i)) == multiset(b) - multiset{b[i]};
  }

  ghost predicate Distinct<T, K>(key: T -> K, s: seq<T>) {
    forall i, j :: 0 <= i < j < |s| ==> key(s[i]) != key(s[j])
  }

  lemma {:induction false} DistinctPermuted<T, K>(key: T -> K, a: seq<T>, b: seq<T>)
    requires Distinct(key, a) && multiset(a) == multiset(b)
    ensures Distinct(key, b)
    decreases |a|
  {
    if a == [] {
      assert |multiset(b)| == |b|;
    } else {
      var i := PermutedHead(a, b);
      DistinctPermuted(key, a[1..], TakeOut(b, i));
      DistinctTakeOut(key, a, b, i);
    }
  }

  lemma DistinctTakeOut<T, K>(key: T -> K, a: seq<T>, b: seq<T>, i: nat)
    requires a != [] && i < |b| && b[i] == a[0] && multiset(a[1..]) == multiset(TakeOut(b, i))
    requires Distinct(key, a) && Distinct(key, TakeOut(b, i))
    ensures Distinct(key, b)
  {
    var rest := TakeOut(b, i);
    forall x | x in rest ensures key(x) != key(a[0]) {
      assert x in multiset(a[1..]);
    }
    forall p, q | 0 <= p < q < |b| ensures key(b[p]) != key(b[q]) {
      if p < i { assert rest[p] == b[p]; } else if p > i { assert rest[p - 1] == b[p]; }
      if q < i { assert rest[q] == b[q]; } else if q > i { assert rest[q - 1] == b[q]; }
    }
  }

  /** The images of the elements of `s`, joined in order. */
  function FlatMap<T, U>(f: T -> seq<U>, s: seq<T>): seq<U> {
    if s == [] then [] else FlatMap(f, s[..|s| - 1]) + f(s[|s| - 1])
  }

  lemma {:induction false} FlatMapAppend<T, U>(f: T -> seq<U>, a: seq<T>, b: seq<T>)
    ensures FlatMap(f, a + b) == FlatMap(f, a) + FlatMap(f, b)
  {
    if b == [] {
      assert a + b == a;
    } else {
      assert (a + b)[..|a + b| - 1] == a + b[..|b| - 1];
      FlatMapAppend(f, a, b[..|b| - 1]);
    }
  }

  lemma FlatMapTakeOut<T, U>(f: T -> seq<U>, s: seq<T>, i: nat)
    requires i < |s|
    ensures multiset(FlatMap(f, s)) == multiset(FlatMap(f, TakeOut(s, i))) + multiset(f(s[i]))
  {
    hide FlatMap;
    assert s == s[..i + 1] + s[i + 1..];
    FlatMapAppend(f, s[..i + 1], s[i + 1..]);
    FlatMapAppend(f, s[..i], s[i + 1..]);
    FlatMapSnoc(f, s, i);
    var front, one, back := FlatMap(f, s[..i]), f(s[i]), FlatMap(f, s[i + 1..]);
    hide TakeOut;
    assert multiset((front + one) + back) == multiset(front + back) + multiset(one);
  }

  lemma FlatMapSnoc<T, U>(f: T -> seq<U>, s: seq<T>, i: nat)
    requires i < |s|
    ensures FlatMap(f, s[..i + 1]) == FlatMap(f, s[..i]) + f(s[i])
  {
    assert s[..i + 1][..i] == s[..i];
  }

  lemma {:induction false} FlatMapPermuted<T, U>(f: T -> seq<U>, a: seq<T>, b: seq<T>)
    requires multiset(a) == multiset(b)
    ensures multiset(FlatMap(f, a)) == multiset(FlatMap(f, b))
    decreases |a|
  {
    if a == [] {
      assert |multiset(b)| == |b|;
    } else {
      var i := PermutedHead(a, b);
      FlatMapPermuted(f, a[1..], TakeOut(b, i));
      FlatMapTakeOut(f, b, i);
      FlatMapTakeOut(f, a, 0);
      assert TakeOut(a, 0) == a[1..];
    }
  }

  lemma {:induction false} FlatMapMembers<T, U>(f: T -> seq<U>, s: seq<T>)
    ensures forall y :: y in FlatMap(f, s) <==> exists x :: x in s && y in f(x)
  {
    if s != [] {
      FlatMapMembers(f, s[..|s| - 1]);
      assert s == s[..|s| - 1] + [s[|s| - 1]];
    }
  }
}
