/** Orders used by the coordinator: strings by code point, rank tuples lexicographically,
    and the stable sort of keyed items. */
module Order {

  /** Python's `<` on str: lexicographic by code point. */
  predicate StrLess(a: string, b: string) {
    b != "" && (a == "" || a[0] < b[0] || (a[0] == b[0] && StrLess(a[1..], b[1..])))
  }

  lemma {:induction false} StrIrreflexive(a: string)
    ensures !StrLess(a, a)
  {
    if a != "" { StrIrreflexive(a[1..]); }
  }

  lemma {:induction false} StrTransitive(a: string, b: string, c: string)
    requires StrLess(a, b) && StrLess(b, c)
    ensures StrLess(a, c)
  {
    if a != "" && a[0] == b[0] && b[0] == c[0] {
      StrTransitive(a[1..], b[1..], c[1..]);
    }
  }

  lemma {:induction false} StrTotal(a: string, b: string)
    ensures StrLess(a, b) || a == b || StrLess(b, a)
  {
    if a != "" && b != "" && a[0] == b[0] {
      StrTotal(a[1..], b[1..]);
      assert a == [a[0]] + a[1..] && b == [b[0]] + b[1..];
    }
  }

  /** A rank tuple: up to three integers, then the id. Modes with fewer integers pad with 0. */
  datatype Rank = Rank(a: int, b: int, c: int, id: string)

  predicate Less(x: Rank, y: Rank) {
    || x.a < y.a
    || (x.a == y.a && x.b < y.b)
    || (x.a == y.a && x.b == y.b && x.c < y.c)
    || (x.a == y.a && x.b == y.b && x.c == y.c && StrLess(x.id, y.id))
  }

  /** Rank tuples are strictly and totally ordered. */
  lemma LessIsStrictTotal(x: Rank, y: Rank, z: Rank)
    ensures !Less(x, x)
    ensures Less(x, y) && Less(y, z) ==> Less(x, z)
    ensures Less(x, y) || x == y || Less(y, x)
    ensures !(Less(x, y) && Less(y, x))
  {
    StrIrreflexive(x.id);
    StrTotal(x.id, y.id);
    if StrLess(x.id, y.id) && StrLess(y.id, z.id) { StrTransitive(x.id, y.id, z.id); }
    if StrLess(x.id, y.id) && StrLess(y.id, x.id) { StrTransitive(x.id, y.id, x.id); }
  }

  datatype Keyed<T> = Keyed(rank: Rank, item: T)

  ghost predicate Sorted<T>(xs: seq<Keyed<T>>) {
    forall i, j :: 0 <= i < j < |xs| ==> !Less(xs[j].rank, xs[i].rank)
  }

  function Insert<T>(x: Keyed<T>, xs: seq<Keyed<T>>): seq<Keyed<T>> {
    if xs == [] then [x]
    else if Less(x.rank, xs[0].rank) then [x] + xs
    else [xs[0]] + Insert(x, xs[1..])
  }

  /** `sorted(xs, key=rank)`. */
  function Sort<T>(xs: seq<Keyed<T>>): seq<Keyed<T>> {
    if xs == [] then [] else Insert(xs[|xs| - 1], Sort(xs[..|xs| - 1]))
  }

  lemma {:induction false} InsertKeeps<T>(x: Keyed<T>, xs: seq<Keyed<T>>)
    requires Sorted(xs)
    ensures Sorted(Insert(x, xs))
    ensures multiset(Insert(x, xs)) == multiset(xs) + multiset{x}
  {
    if xs == [] {
    } else if Less(x.rank, xs[0].rank) {
      forall j | 0 <= j < |xs| ensures !Less(xs[j].rank, x.rank) {
        LessIsStrictTotal(x.rank, xs[0].rank, xs[j].rank);
        LessIsStrictTotal(xs[j].rank, x.rank, xs[0].rank);
      }
    } else {
      InsertKeeps(x, xs[1..]);
      var ys := Insert(x, xs[1..]);
      assert xs == [xs[0]] + xs[1..];
      forall y | y in ys ensures !Less(y.rank, xs[0].rank) {
        assert y in multiset(ys);
        assert y == x || y in multiset(xs[1..]);
      }
      assert Insert(x, xs) == [xs[0]] + ys;
    }
  }

  /** `sorted` returns a nondecreasing permutation of its input. */
  lemma {:induction false} SortSorts<T>(xs: seq<Keyed<T>>)
    ensures Sorted(Sort(xs))
    ensures multiset(Sort(xs)) == multiset(xs)
    ensures |Sort(xs)| == |xs|
  {
    if xs != [] {
      var front := xs[..|xs| - 1];
      SortSorts(front);
      InsertKeeps(xs[|xs| - 1], Sort(front));
      assert xs == front + [xs[|xs| - 1]];
    }
    assert |Sort(xs)| == |multiset(Sort(xs))| == |multiset(xs)| == |xs|;
  }

  ghost predicate DistinctRankIds<T>(xs: seq<Keyed<T>>) {
    forall i, j :: 0 <= i < j < |xs| ==> xs[i].rank.id != xs[j].rank.id
  }

  lemma {:induction false} InsertHas<T>(x: Keyed<T>, xs: seq<Keyed<T>>, y: Keyed<T>)
    ensures y in Insert(x, xs) <==> y == x || y in xs
  {
    hide Less;
    if xs != [] {
      assert xs == [xs[0]] + xs[1..];
      InsertHas(x, xs[1..], y);
    }
  }

  lemma {:induction false} InsertDistinct<T>(x: Keyed<T>, xs: seq<Keyed<T>>)
    requires DistinctRankIds(xs) && forall y :: y in xs ==> y.rank.id != x.rank.id
    ensures DistinctRankIds(Insert(x, xs))
  {
    hide Less;
    if xs != [] && !Less(x.rank, xs[0].rank) {
      var ys := Insert(x, xs[1..]);
      InsertDistinct(x, xs[1..]);
      forall y | y in ys ensures y.rank.id != xs[0].rank.id {
        InsertHas(x, xs[1..], y);
        assert xs[0] in xs;
        if y in xs[1..] {
          var k :| 0 <= k < |xs| - 1 && xs[1..][k] == y;
          assert xs[k + 1] == y;
        }
      }
      assert Insert(x, xs) == [xs[0]] + ys;
    }
  }

  /** Sorting keeps ids distinct and loses and invents nothing. */
  lemma {:induction false} SortDistinct<T>(xs: seq<Keyed<T>>)
    requires DistinctRankIds(xs)
    ensures DistinctRankIds(Sort(xs))
    ensures forall y :: y in Sort(xs) <==> y in xs
  {
    SortSorts(xs);
    forall y ensures y in Sort(xs) <==> y in xs {
      assert y in multiset(Sort(xs)) <==> y in multiset(xs);
    }
    if xs != [] {
      var front, x := xs[..|xs| - 1], xs[|xs| - 1];
      SortDistinct(front);
      SortSorts(front);
      forall y | y in Sort(front) ensures y.rank.id != x.rank.id {
        assert y in multiset(front);
      }
      InsertDistinct(x, Sort(front));
    }
  }

  /** What is sorted, without the ranks. */
  function Items<T>(xs: seq<Keyed<T>>): (r: seq<T>)
    ensures |r| == |xs|
    ensures forall i :: 0 <= i < |xs| ==> r[i] == xs[i].item
  {
    if xs == [] then [] else [xs[0].item] + Items(xs[1..])
  }
}
