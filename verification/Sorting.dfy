/** Stable sorting by a text key, under any total order of texts. */
module Sorting {

  ghost predicate TotalOrder(le: (string, string) -> bool) {
    && (forall a, b :: le(a, b) || le(b, a))
    && (forall a, b :: le(a, b) && le(b, a) ==> a == b)
    && (forall a, b, c :: le(a, b) && le(b, c) ==> le(a, c))
  }

  function Insert<T>(x: T, xs: seq<T>, key: T -> string, le: (string, string) -> bool): seq<T> {
    if xs == [] || le(key(x), key(xs[0])) then [x] + xs else [xs[0]] + Insert(x, xs[1..], key, le)
  }

  /** Equal keys keep their order. */
  function SortBy<T>(xs: seq<T>, key: T -> string, le: (string, string) -> bool): seq<T> {
    if xs == [] then [] else Insert(xs[0], SortBy(xs[1..], key, le), key, le)
  }

  ghost predicate SortedBy<T>(xs: seq<T>, key: T -> string, le: (string, string) -> bool) {
    forall i, j | 0 <= i < j < |xs| :: le(key(xs[i]), key(xs[j]))
  }

  lemma {:induction false} InsertPermutes<T>(x: T, xs: seq<T>, key: T -> string, le: (string, string) -> bool)
    ensures multiset(Insert(x, xs, key, le)) == multiset([x]) + multiset(xs)
  {
    if !(xs == [] || le(key(x), key(xs[0]))) {
      InsertPermutes(x, xs[1..], key, le);
      assert xs == [xs[0]] + xs[1..];
    }
  }

  lemma {:induction false} SortPermutes<T>(xs: seq<T>, key: T -> string, le: (string, string) -> bool)
    ensures multiset(SortBy(xs, key, le)) == multiset(xs)
  {
    if xs != [] {
      SortPermutes(xs[1..], key, le);
      InsertPermutes(xs[0], SortBy(xs[1..], key, le), key, le);
      assert xs == [xs[0]] + xs[1..];
    }
  }

  lemma {:induction false} InsertSorts<T>(x: T, xs: seq<T>, key: T -> string, le: (string, string) -> bool)
    requires TotalOrder(le) && SortedBy(xs, key, le)
    ensures SortedBy(Insert(x, xs, key, le), key, le)
  {
    if xs == [] || le(key(x), key(xs[0])) {
      HeadFirst(x, xs, key, le);
    } else {
      var rest := Insert(x, xs[1..], key, le);
      InsertSorts(x, xs[1..], key, le);
      InsertPermutes(x, xs[1..], key, le);
      forall j | 0 <= j < |rest| ensures le(key(xs[0]), key(rest[j])) {
        assert rest[j] in multiset(rest);
        if rest[j] != x { assert rest[j] in xs[1..]; }
      }
      PrependSorted(xs[0], rest, key, le);
    }
  }

  lemma HeadFirst<T>(x: T, xs: seq<T>, key: T -> string, le: (string, string) -> bool)
    requires TotalOrder(le) && SortedBy(xs, key, le) && (xs == [] || le(key(x), key(xs[0])))
    ensures SortedBy([x] + xs, key, le)
  {
    forall j | 0 <= j < |xs| ensures le(key(x), key(xs[j])) {
      if j > 0 { assert le(key(xs[0]), key(xs[j])); }
    }
    PrependSorted(x, xs, key, le);
  }

  lemma PrependSorted<T>(x: T, xs: seq<T>, key: T -> string, le: (string, string) -> bool)
    requires SortedBy(xs, key, le) && forall j | 0 <= j < |xs| :: le(key(x), key(xs[j]))
    ensures SortedBy([x] + xs, key, le)
  {
    var s := [x] + xs;
    forall i, j | 0 <= i < j < |s| ensures le(key(s[i]), key(s[j])) {
      if i > 0 { assert le(key(xs[i - 1]), key(xs[j - 1])); }
    }
  }

  lemma {:induction false} SortSorts<T>(xs: seq<T>, key: T -> string, le: (string, string) -> bool)
    requires TotalOrder(le)
    ensures SortedBy(SortBy(xs, key, le), key, le)
  {
    if xs != [] {
      SortSorts(xs[1..], key, le);
      InsertSorts(xs[0], SortBy(xs[1..], key, le), key, le);
    }
  }

  /** Elements with one key are one element. */
  ghost predicate KeyDetermines<T(!new)>(xs: seq<T>, key: T -> string) {
    forall x, y :: x in xs && y in xs && key(x) == key(y) ==> x == y
  }

  lemma TailMultiset<T>(a: seq<T>)
    requires a != []
    ensures multiset(a[1..]) == multiset(a) - multiset{a[0]}
  {
    assert a == [a[0]] + a[1..];
  }

  lemma {:induction false} SortedIsUnique<T(!new)>(a: seq<T>, b: seq<T>, key: T -> string, le: (string, string) -> bool)
    requires TotalOrder(le) && SortedBy(a, key, le) && SortedBy(b, key, le)
    requires multiset(a) == multiset(b) && KeyDetermines(a, key)
    ensures a == b
  {
    if a == [] {
      assert |multiset(b)| == 0;
    } else {
      assert a[0] in multiset(b) && b != [];
      SameHead(a, b, key, le);
      TailMultiset(a);
      TailMultiset(b);
      SortedIsUnique(a[1..], b[1..], key, le);
    }
  }

  lemma SameHead<T(!new)>(a: seq<T>, b: seq<T>, key: T -> string, le: (string, string) -> bool)
    requires TotalOrder(le) && SortedBy(a, key, le) && SortedBy(b, key, le)
    requires multiset(a) == multiset(b) && KeyDetermines(a, key) && a != [] && b != []
    ensures a[0] == b[0]
  {
    HeadIsLeast(a, b[0], key, le);
    HeadIsLeast(b, a[0], key, le);
  }

  lemma HeadIsLeast<T>(a: seq<T>, x: T, key: T -> string, le: (string, string) -> bool)
    requires TotalOrder(le) && SortedBy(a, key, le) && x in multiset(a)
    ensures x in a && le(key(a[0]), key(x))
  {
    var i :| 0 <= i < |a| && a[i] == x;
  }

  /** Sorted texts depend only on which elements there are and how often. */
  lemma SortIgnoresOrder<T(!new)>(a: seq<T>, b: seq<T>, key: T -> string, le: (string, string) -> bool)
    requires TotalOrder(le) && KeyDetermines(a, key)
    ensures SortBy(a, key, le) == SortBy(b, key, le) <==> multiset(a) == multiset(b)
  {
    SortPermutes(a, key, le);
    SortPermutes(b, key, le);
    SortSorts(a, key, le);
    SortSorts(b, key, le);
    if multiset(a) == multiset(b) {
      var s := SortBy(a, key, le);
      forall x, y | x in s && y in s && key(x) == key(y) ensures x == y {
        assert x in multiset(s) && y in multiset(s);
        assert x in multiset(a) && y in multiset(a);
      }
      SortedIsUnique(s, SortBy(b, key, le), key, le);
    }
  }

  function Map<T, U>(xs: seq<T>, f: T -> U): (r: seq<U>)
    ensures |r| == |xs| && forall i | 0 <= i < |r| :: r[i] == f(xs[i])
  {
    seq(|xs|, i requires 0 <= i < |xs| => f(xs[i]))
  }

  lemma {:induction false} InsertMaps<T, U>(x: T, xs: seq<T>, f: T -> U, key: T -> string, image: U -> string,
                                            le: (string, string) -> bool)
    requires image(f(x)) == key(x) && forall i | 0 <= i < |xs| :: image(f(xs[i])) == key(xs[i])
    ensures Map(Insert(x, xs, key, le), f) == Insert(f(x), Map(xs, f), image, le)
  {
    if xs == [] || le(key(x), key(xs[0])) {
      assert Map([x] + xs, f) == [f(x)] + Map(xs, f);
    } else {
      InsertMaps(x, xs[1..], f, key, image, le);
      assert Map(xs, f)[1..] == Map(xs[1..], f);
    }
  }

  /** Mapping what was sorted is sorting what was mapped, when the key is kept. */
  lemma {:induction false} SortMaps<T, U>(xs: seq<T>, f: T -> U, key: T -> string, image: U -> string,
                                          le: (string, string) -> bool)
    requires forall i | 0 <= i < |xs| :: image(f(xs[i])) == key(xs[i])
    ensures Map(SortBy(xs, key, le), f) == SortBy(Map(xs, f), image, le)
  {
    if xs != [] {
      var sorted := SortBy(xs[1..], key, le);
      SortMaps(xs[1..], f, key, image, le);
      SortPermutes(xs[1..], key, le);
      forall i | 0 <= i < |sorted| ensures image(f(sorted[i])) == key(sorted[i]) {
        assert sorted[i] in multiset(xs[1..]);
        assert sorted[i] in xs[1..];
      }
      InsertMaps(xs[0], sorted, f, key, image, le);
      assert Map(xs, f)[1..] == Map(xs[1..], f);
    }
  }

  lemma Without<T>(xs: seq<T>, k: nat)
    requires k < |xs|
    ensures multiset(xs[..k] + xs[k + 1..]) == multiset(xs) - multiset{xs[k]}
  {
    assert xs == xs[..k] + [xs[k]] + xs[k + 1..];
  }

  lemma MapWithout<T, U>(xs: seq<T>, k: nat, f: T -> U)
    requires k < |xs|
    ensures multiset(Map(xs, f)) == multiset(Map(xs[..k] + xs[k + 1..], f)) + multiset{f(xs[k])}
  {
    var ys := Map(xs, f);
    Without(ys, k);
    assert Map(xs[..k] + xs[k + 1..], f) == ys[..k] + ys[k + 1..];
    assert ys[k] in multiset(ys);
  }

  lemma {:induction false} MapPermutes<T, U>(a: seq<T>, b: seq<T>, f: T -> U)
    requires multiset(a) == multiset(b)
    ensures multiset(Map(a, f)) == multiset(Map(b, f))
    decreases |a|
  {
    if a == [] {
      assert |multiset(b)| == 0;
    } else {
      assert a[0] in multiset(b);
      var k :| 0 <= k < |b| && b[k] == a[0];
      Without(a, 0);
      Without(b, k);
      MapPermutes(a[..0] + a[1..], b[..k] + b[k + 1..], f);
      MapWithout(a, 0, f);
      MapWithout(b, k, f);
    }
  }
}
