/** Sequence helpers behind the list operations of the services: a list
    comprehension with a condition, a running sum, a first-match search, Python's
    stable `sorted`, slicing with clamped bounds and `str` ordering. */
module Seqs {

  import opened Wrappers

  /** `[x for x in s if p(x)]`: the elements of `s` that satisfy `p`, in order. */
  function Filter<T(!new)>(s: seq<T>, p: T -> bool): (r: seq<T>)
    ensures |r| <= |s|
    decreases |s|
  {
    if s == [] then []
    else
      var init := s[..|s| - 1];
      assert s == init + [s[|s| - 1]];
      Filter(init, p) + (if p(s[|s| - 1]) then [s[|s| - 1]] else [])
  }

  /** Nothing is dropped exactly when every element satisfies `p`. */
  lemma {:induction false} FilterKeepsAll<T(!new)>(s: seq<T>, p: T -> bool)
    ensures |Filter(s, p)| == |s| <==> forall i :: 0 <= i < |s| ==> p(s[i])
    ensures (forall i :: 0 <= i < |s| ==> p(s[i])) ==> Filter(s, p) == s
    decreases |s|
  {
    if s != [] {
      var init := s[..|s| - 1];
      assert s == init + [s[|s| - 1]];
      FilterKeepsAll(init, p);
    }
  }

  /** Filtering commutes with concatenation: the kept elements stay in their
      original relative order. */
  lemma {:induction false} FilterConcat<T(!new)>(a: seq<T>, b: seq<T>, p: T -> bool)
    ensures Filter(a + b, p) == Filter(a, p) + Filter(b, p)
    decreases |b|
  {
    if b == [] {
      assert a + b == a;
    } else {
      var init := b[..|b| - 1];
      var last := b[|b| - 1];
      assert b == init + [last];
      assert a + b == (a + init) + [last];
      FilterConcat(a, init, p);
      FilterAppend(a + init, last, p);
      FilterAppend(init, last, p);
    }
  }

  /** The kept elements are exactly the elements of `s` that satisfy `p`. */
  lemma {:induction false} FilterMembers<T(!new)>(s: seq<T>, p: T -> bool)
    ensures forall x :: x in Filter(s, p) <==> x in s && p(x)
    decreases |s|
  {
    if s != [] {
      var init := s[..|s| - 1];
      assert s == init + [s[|s| - 1]];
      FilterMembers(init, p);
    }
  }

  /** Each value is kept exactly as many times as it occurs, if it satisfies
      `p`, and dropped otherwise. */
  lemma {:induction false} FilterMultiplicity<T(!new)>(s: seq<T>, p: T -> bool, x: T)
    ensures multiset(Filter(s, p))[x] == if p(x) then multiset(s)[x] else 0
    decreases |s|
  {
    if s != [] {
      var init := s[..|s| - 1];
      assert s == init + [s[|s| - 1]];
      FilterMultiplicity(init, p, x);
    }
  }

  lemma FilterMultiplicities<T(!new)>(s: seq<T>, p: T -> bool)
    ensures forall x :: multiset(Filter(s, p))[x] == if p(x) then multiset(s)[x] else 0
  {
    forall x {
      FilterMultiplicity(s, p, x);
    }
  }

  lemma FilterAppend<T(!new)>(s: seq<T>, x: T, p: T -> bool)
    ensures Filter(s + [x], p) == Filter(s, p) + (if p(x) then [x] else [])
  {
    assert (s + [x])[..|s|] == s;
  }

  /** The sum of `f` over the elements of `s` (an accumulator loop `acc += f(x)`). */
  function SumOf<T>(s: seq<T>, f: T -> real): real
    decreases |s|
  {
    if s == [] then 0.0 else SumOf(s[..|s| - 1], f) + f(s[|s| - 1])
  }

  lemma SumOfAppend<T>(s: seq<T>, x: T, f: T -> real)
    ensures SumOf(s + [x], f) == SumOf(s, f) + f(x)
  {
    assert (s + [x])[..|s|] == s;
  }

  lemma {:induction false} SumOfConcat<T>(a: seq<T>, b: seq<T>, f: T -> real)
    ensures SumOf(a + b, f) == SumOf(a, f) + SumOf(b, f)
    decreases |b|
  {
    if b == [] {
      assert a + b == a;
    } else {
      var init := b[..|b| - 1];
      assert b == init + [b[|b| - 1]];
      assert a + b == (a + init) + [b[|b| - 1]];
      SumOfAppend(a + init, b[|b| - 1], f);
      SumOfAppend(init, b[|b| - 1], f);
      SumOfConcat(a, init, f);
    }
  }

  /** `f` where `p` holds and zero elsewhere. */
  function Masked<T>(p: T -> bool, f: T -> real): T -> real {
    (x: T) => if p(x) then f(x) else 0.0
  }

  /** Summing over the kept elements is summing the masked values over all. */
  lemma {:induction false} SumOfFilter<T(!new)>(s: seq<T>, p: T -> bool, f: T -> real)
    ensures SumOf(Filter(s, p), f) == SumOf(s, Masked(p, f))
    decreases |s|
  {
    if s != [] {
      var init := s[..|s| - 1];
      var last := s[|s| - 1];
      assert s == init + [last];
      SumOfFilter(init, p, f);
      FilterAppend(init, last, p);
      if p(last) {
        SumOfAppend(Filter(init, p), last, f);
      } else {
        assert Filter(init, p) + [] == Filter(init, p);
      }
    }
  }

  /** One more step of a loop that sums `f` over the elements of `s` that
      satisfy `p`. */
  lemma FilteredSumStep<T(!new)>(s: seq<T>, i: nat, p: T -> bool, f: T -> real)
    requires i < |s|
    ensures SumOf(Filter(s[..i + 1], p), f)
         == SumOf(Filter(s[..i], p), f) + if p(s[i]) then f(s[i]) else 0.0
  {
    assert s[..i + 1] == s[..i] + [s[i]];
    FilterAppend(s[..i], s[i], p);
    var kept := Filter(s[..i], p);
    if p(s[i]) {
      SumOfAppend(kept, s[i], f);
    } else {
      assert kept + [] == kept;
    }
  }

  /** A sum of pointwise sums is the sum of the two sums. */
  lemma {:induction false} SumOfAdd<T>(s: seq<T>, f: T -> real, g: T -> real, h: T -> real)
    requires forall x :: f(x) == g(x) + h(x)
    ensures SumOf(s, f) == SumOf(s, g) + SumOf(s, h)
    decreases |s|
  {
    if s != [] {
      SumOfAdd(s[..|s| - 1], f, g, h);
    }
  }

  /** The index of the first element satisfying `p`, as a `for` loop with an
      early `return` finds it. */
  function FirstIndexWhere<T>(s: seq<T>, p: T -> bool): (r: Option<nat>)
    ensures r.Some? ==> r.value < |s| && p(s[r.value])
    ensures r.Some? ==> forall k :: 0 <= k < r.value ==> !p(s[k])
    ensures r.None? <==> forall k :: 0 <= k < |s| ==> !p(s[k])
    decreases |s|
  {
    if s == [] then None
    else if p(s[0]) then Some(0)
    else match FirstIndexWhere(s[1..], p)
      case Some(i) => Some(i + 1)
      case None => None
  }

  /** `before(a, b)`: `a` must be placed ahead of `b`; sorting needs this to be
      a strict order. */
  ghost predicate StrictOrder<T(!new)>(before: (T, T) -> bool) {
    && (forall a :: !before(a, a))
    && (forall a, b, c :: before(a, b) && before(b, c) ==> before(a, c))
  }

  /** No element is placed after one it must come before. */
  ghost predicate SortedBy<T>(s: seq<T>, before: (T, T) -> bool) {
    forall i, j :: 0 <= i < j < |s| ==> !before(s[j], s[i])
  }

  /** Inserts `x` into `r` ahead of the first element it must precede, so that
      it lands after every element it ties with. */
  function Insert<T>(x: T, r: seq<T>, before: (T, T) -> bool): (o: seq<T>)
    ensures |o| == |r| + 1
    ensures multiset(o) == multiset(r) + multiset{x}
    decreases |r|
  {
    if r == [] then [x]
    else if before(x, r[0]) then [x] + r
    else
      assert r == [r[0]] + r[1..];
      [r[0]] + Insert(x, r[1..], before)
  }

  /** Python's stable `sorted`: an insertion sort that inserts the elements
      from the left, each after everything it ties with. */
  function SortBy<T>(s: seq<T>, before: (T, T) -> bool): (r: seq<T>)
    ensures |r| == |s|
    ensures multiset(r) == multiset(s)
    decreases |s|
  {
    if s == [] then []
    else
      assert s == s[..|s| - 1] + [s[|s| - 1]];
      Insert(s[|s| - 1], SortBy(s[..|s| - 1], before), before)
  }

  lemma {:induction false} InsertSorted<T(!new)>(x: T, r: seq<T>, before: (T, T) -> bool)
    requires StrictOrder(before)
    requires SortedBy(r, before)
    ensures SortedBy(Insert(x, r, before), before)
    decreases |r|
  {
    if r == [] {
    } else if before(x, r[0]) {
      var o := [x] + r;
      forall i, j | 0 <= i < j < |o|
        ensures !before(o[j], o[i])
      {
        if i == 0 && before(o[j], x) {
          assert false;
        }
      }
    } else {
      var tail := Insert(x, r[1..], before);
      InsertSorted(x, r[1..], before);
      forall y | y in multiset(tail)
        ensures !before(y, r[0])
      {
        assert y in multiset(r[1..]) + multiset{x};
        if y != x {
          assert y in r[1..];
        }
      }
      var o := [r[0]] + tail;
      forall i, j | 0 <= i < j < |o|
        ensures !before(o[j], o[i])
      {
        if i == 0 {
          assert o[j] == tail[j - 1];
          assert o[j] in multiset(tail);
        }
      }
    }
  }

  /** The result of `SortBy` is sorted. */
  lemma {:induction false} SortBySorted<T(!new)>(s: seq<T>, before: (T, T) -> bool)
    requires StrictOrder(before)
    ensures SortedBy(SortBy(s, before), before)
    decreases |s|
  {
    if s != [] {
      SortBySorted(s[..|s| - 1], before);
      InsertSorted(s[|s| - 1], SortBy(s[..|s| - 1], before), before);
    }
  }

  /** `same` picks out one class of tied elements: none of them goes ahead of
      another, and each goes ahead of exactly what the others go ahead of. */
  ghost predicate TieClass<T(!new)>(before: (T, T) -> bool, same: T -> bool) {
    && (forall a, b :: same(a) && same(b) ==> !before(a, b))
    && (forall a, b, c :: same(a) && same(b) && before(a, c) ==> before(b, c))
  }

  lemma {:induction false} FilterNone<T(!new)>(s: seq<T>, p: T -> bool)
    requires forall i :: 0 <= i < |s| ==> !p(s[i])
    ensures Filter(s, p) == []
    decreases |s|
  {
    if s != [] {
      FilterNone(s[..|s| - 1], p);
    }
  }

  lemma {:induction false} FilterCons<T(!new)>(a: T, rest: seq<T>, p: T -> bool)
    ensures Filter([a] + rest, p) == (if p(a) then [a] else []) + Filter(rest, p)
  {
    FilterConcat([a], rest, p);
    assert Filter([a], p) == Filter([], p) + (if p(a) then [a] else []);
  }

  /** Inserting `x` into `r` passes every element of the class: from the
      first element `x` must go ahead of, nothing is in the class. */
  ghost predicate PassesTies<T(!new)>(x: T, r: seq<T>, before: (T, T) -> bool, same: T -> bool)
    decreases |r|
  {
    r != [] ==>
      if before(x, r[0]) then forall i :: 0 <= i < |r| ==> !same(r[i])
      else PassesTies(x, r[1..], before, same)
  }

  lemma {:induction false} SortedTail<T>(r: seq<T>, before: (T, T) -> bool)
    requires r != [] && SortedBy(r, before)
    ensures SortedBy(r[1..], before)
  {
    var rest := r[1..];
    forall i, j | 0 <= i < j < |rest|
      ensures !before(rest[j], rest[i])
    {
      assert rest[i] == r[i + 1] && rest[j] == r[j + 1];
    }
  }

  /** In a sorted sequence, nothing ties with an element that must go ahead
      of the first element. */
  lemma {:induction false} NoTiesBehind<T(!new)>(x: T, r: seq<T>, before: (T, T) -> bool, same: T -> bool)
    requires TieClass(before, same) && same(x) && SortedBy(r, before)
    requires r != [] && before(x, r[0])
    ensures forall m :: 0 <= m < |r| ==> !same(r[m])
  {
    forall m | 0 <= m < |r|
      ensures !same(r[m])
    {
      if m > 0 {
        assert !before(r[m], r[0]);
      }
    }
  }

  lemma {:induction false} PassesTiesOfSorted<T(!new)>(x: T, r: seq<T>, before: (T, T) -> bool, same: T -> bool)
    requires TieClass(before, same) && same(x) && SortedBy(r, before)
    ensures PassesTies(x, r, before, same)
    decreases |r|
  {
    if r != [] {
      if before(x, r[0]) {
        NoTiesBehind(x, r, before, same);
      } else {
        SortedTail(r, before);
        PassesTiesOfSorted(x, r[1..], before, same);
      }
    }
  }

  /** Inserting an element outside the class leaves the class's elements as
      they were. */
  lemma {:induction false} FilterInsertOther<T(!new)>(x: T, r: seq<T>, before: (T, T) -> bool, same: T -> bool)
    requires !same(x)
    ensures Filter(Insert(x, r, before), same) == Filter(r, same)
    decreases |r|
  {
    if r == [] {
    } else if before(x, r[0]) {
      FilterCons(x, r, same);
    } else {
      var rest := r[1..];
      FilterInsertOther(x, rest, before, same);
      FilterCons(r[0], Insert(x, rest, before), same);
      FilterCons(r[0], rest, same);
      assert r == [r[0]] + rest;
    }
  }

  /** Inserting an element of the class that passes its ties puts it after
      every element it ties with. */
  lemma {:induction false} FilterInsertTied<T(!new)>(x: T, r: seq<T>, before: (T, T) -> bool, same: T -> bool)
    requires same(x) && PassesTies(x, r, before, same)
    ensures Filter(Insert(x, r, before), same) == Filter(r, same) + [x]
    decreases |r|
  {
    if r == [] {
      FilterCons(x, [], same);
      assert Insert(x, r, before) == [x] + [];
    } else if before(x, r[0]) {
      FilterNone(r, same);
      FilterCons(x, r, same);
      assert Insert(x, r, before) == [x] + r;
    } else {
      var rest, tail := r[1..], Insert(x, r[1..], before);
      var head: seq<T> := if same(r[0]) then [r[0]] else [];
      assert r == [r[0]] + rest;
      assert Insert(x, r, before) == [r[0]] + tail;
      FilterInsertTied(x, rest, before, same);
      FilterCons(r[0], tail, same);
      FilterCons(r[0], rest, same);
      assert head + (Filter(rest, same) + [x]) == (head + Filter(rest, same)) + [x];
    }
  }

  /** `SortBy` is stable: within any class of tied elements, the result keeps
      the input's order, repeats included. */
  lemma {:induction false} SortByStable<T(!new)>(s: seq<T>, before: (T, T) -> bool, same: T -> bool)
    requires StrictOrder(before) && TieClass(before, same)
    ensures Filter(SortBy(s, before), same) == Filter(s, same)
    decreases |s|
  {
    if s != [] {
      var init, x := s[..|s| - 1], s[|s| - 1];
      SortByStable(init, before, same);
      SortBySorted(init, before);
      if same(x) {
        PassesTiesOfSorted(x, SortBy(init, before), before, same);
        FilterInsertTied(x, SortBy(init, before), before, same);
      } else {
        FilterInsertOther(x, SortBy(init, before), before, same);
      }
    }
  }

  lemma {:induction false} SumOfInsert<T>(x: T, r: seq<T>, before: (T, T) -> bool, f: T -> real)
    ensures SumOf(Insert(x, r, before), f) == SumOf(r, f) + f(x)
    decreases |r|
  {
    if r == [] {
      assert SumOf([x], f) == SumOf([], f) + f(x);
    } else if before(x, r[0]) {
      SumOfConcat([x], r, f);
      assert SumOf([x], f) == SumOf([], f) + f(x);
    } else {
      SumOfInsert(x, r[1..], before, f);
      SumOfConcat([r[0]], Insert(x, r[1..], before), f);
      SumOfConcat([r[0]], r[1..], f);
      assert r == [r[0]] + r[1..];
    }
  }

  /** Sorting does not change a sum: the order in which amounts are applied
      does not matter to exact arithmetic. */
  lemma {:induction false} SumOfSortBy<T>(s: seq<T>, before: (T, T) -> bool, f: T -> real)
    ensures SumOf(SortBy(s, before), f) == SumOf(s, f)
    decreases |s|
  {
    if s != [] {
      SumOfSortBy(s[..|s| - 1], before, f);
      SumOfInsert(s[|s| - 1], SortBy(s[..|s| - 1], before), before, f);
    }
  }

  /** `[f(x) for x in s]`, built from the left. */
  function Map<A, B>(s: seq<A>, f: A -> B): (r: seq<B>)
    ensures |r| == |s|
    decreases |s|
  {
    if s == [] then [] else Map(s[..|s| - 1], f) + [f(s[|s| - 1])]
  }

  /** Element `i` of the mapped sequence is `f` of element `i`. */
  lemma {:induction false} MapAt<A, B>(s: seq<A>, f: A -> B)
    ensures forall i :: 0 <= i < |s| ==> Map(s, f)[i] == f(s[i])
    decreases |s|
  {
    if s != [] {
      var init := s[..|s| - 1];
      MapAt(init, f);
      forall i | 0 <= i < |init|
        ensures Map(s, f)[i] == f(s[i])
      {
        assert init[i] == s[i];
      }
    }
  }

  lemma MapStep<A, B>(s: seq<A>, f: A -> B, i: nat)
    requires i < |s|
    ensures Map(s[..i + 1], f) == Map(s[..i], f) + [f(s[i])]
  {
    assert s[..i + 1][..i] == s[..i];
  }

  /** Python's `s[:n]` for an `int` n: a negative n counts from the end, and
      both kinds of bound are clamped to the list. */
  function PyHead<T>(s: seq<T>, n: int): (r: seq<T>)
    ensures n >= 0 ==> |r| == if n < |s| then n else |s|
    ensures n < 0 ==> |r| == if |s| + n > 0 then |s| + n else 0
    ensures r == s[..|r|]
  {
    if n >= 0 then s[..if n < |s| then n else |s|]
    else s[..if |s| + n > 0 then |s| + n else 0]
  }

  /** Python's `s[lo:hi]` for 0 <= lo <= hi: both bounds are clamped to the
      length, so a short `s` yields a short (possibly empty) slice. */
  function Slice<T>(s: seq<T>, lo: nat, hi: nat): (r: seq<T>)
    requires lo <= hi
    ensures hi <= |s| ==> r == s[lo..hi]
    ensures hi > |s| ==> r == Drop(s, lo)
    ensures |r| == (if hi <= |s| then hi else |s|) - (if lo <= |s| then lo else |s|)
  {
    s[(if lo <= |s| then lo else |s|)..(if hi <= |s| then hi else |s|)]
  }

  /** Python's `s[lo:]` for lo >= 0. */
  function Drop<T>(s: seq<T>, lo: nat): (r: seq<T>)
    ensures lo <= |s| ==> r == s[lo..]
    ensures lo >= |s| ==> r == []
  {
    s[(if lo <= |s| then lo else |s|)..]
  }

  /** Python's `a < b` on `str`: lexicographic by code point, a proper prefix
      being smaller. */
  predicate StrLess(a: string, b: string)
    decreases |a|
  {
    if a == [] then b != []
    else if b == [] then false
    else if a[0] != b[0] then a[0] < b[0]
    else StrLess(a[1..], b[1..])
  }

  lemma {:induction false} StrLessIrreflexive(a: string)
    ensures !StrLess(a, a)
    decreases |a|
  {
    if a != [] {
      StrLessIrreflexive(a[1..]);
    }
  }

  lemma {:induction false} StrLessTransitive(a: string, b: string, c: string)
    requires StrLess(a, b) && StrLess(b, c)
    ensures StrLess(a, c)
    decreases |a|
  {
    if a != [] && b != [] && c != [] && a[0] == b[0] && b[0] == c[0] {
      StrLessTransitive(a[1..], b[1..], c[1..]);
    }
  }
}
