/** Paging and ordering of a query result: `skip`, `total_pages`, one page of a
    sorted sequence, and the sort itself. */
module Pagination {
  /** `skip = (page - 1) * limit`. */
  function Skip(page: int, limit: int): (r: int)
    ensures page >= 1 && limit >= 0 ==> r >= 0
  {
    (page - 1) * limit
  }

  /** `(total + limit - 1) // limit`. */
  function TotalPages(total: nat, limit: int): (n: nat)
    requires limit >= 1
  {
    (total + limit - 1) / limit
  }

  /** The page count is the ceiling of `total / limit`: enough pages for every document,
      no page wasted, and no page at all when nothing matches. */
  lemma TotalPagesCeil(total: nat, limit: int)
    requires limit >= 1
    ensures var n := TotalPages(total, limit);
      && n * limit >= total
      && (total > 0 ==> (n - 1) * limit < total)
      && (n == 0 <==> total == 0)
  {
    var n := TotalPages(total, limit);
    var rem := (total + limit - 1) % limit;
    assert total + limit - 1 == n * limit + rem;
    assert 0 <= rem < limit;
    assert (n - 1) * limit == n * limit - limit;
  }

  // ---------------------------------------------------------------------------
  // One page of a sequence

  function Min(a: int, b: int): int
  {
    if a <= b then a else b
  }

  /** `.skip(skip).limit(limit)` on an already sorted result. */
  function Window<T>(s: seq<T>, skip: nat, limit: nat): (r: seq<T>)
    ensures |r| <= limit
    ensures forall i :: 0 <= i < |r| ==> skip + i < |s| && r[i] == s[skip + i]
    ensures |r| == Min(limit, |s| - Min(skip, |s|))
  {
    s[Min(skip, |s|)..Min(skip + limit, |s|)]
  }

  /** A page is empty exactly when its number is past the page count (for pages from 1). */
  lemma PageEmptyIff<T>(s: seq<T>, page: int, limit: int)
    requires page >= 1 && limit >= 1
    ensures Window(s, (page - 1) * limit, limit) == [] <==> page > TotalPages(|s|, limit)
  {
    TotalPagesCeil(|s|, limit);
    var n := TotalPages(|s|, limit);
    if page > n {
      assert (page - 1) * limit >= n * limit by {
        assert page - 1 >= n;
        MulMonotone(n, page - 1, limit);
      }
    } else {
      assert (page - 1) * limit <= (n - 1) * limit by {
        MulMonotone(page - 1, n - 1, limit);
      }
    }
  }

  lemma MulMonotone(a: int, b: int, c: int)
    requires a <= b && c >= 0
    ensures a * c <= b * c
  {
    assert b * c - a * c == (b - a) * c;
  }

  /** Element `i` of the listing is on page `i / limit + 1`, at position `i % limit`, and
      that page is within the page count. */
  lemma PageOfIndex<T>(s: seq<T>, limit: int, i: int)
    requires limit >= 1 && 0 <= i < |s|
    ensures var page := i / limit + 1;
      && 1 <= page <= TotalPages(|s|, limit)
      && i % limit < |Window(s, (page - 1) * limit, limit)|
      && Window(s, (page - 1) * limit, limit)[i % limit] == s[i]
  {
    var page := i / limit + 1;
    assert (page - 1) * limit + i % limit == i;
    PageEmptyIff(s, page, limit);
  }

  /** The pages 1 to `n`, one after another. */
  function PagesUpTo<T>(s: seq<T>, limit: nat, n: nat): seq<T>
  {
    if n == 0 then [] else PagesUpTo(s, limit, n - 1) + Window(s, (n - 1) * limit, limit)
  }

  lemma {:induction false} PagesUpToPrefix<T>(s: seq<T>, limit: nat, n: nat)
    ensures PagesUpTo(s, limit, n) == s[..Min(n * limit, |s|)]
  {
    if n > 0 {
      PagesUpToPrefix(s, limit, n - 1);
      assert (n - 1) * limit + limit == n * limit;
      var a := Min((n - 1) * limit, |s|);
      var b := Min(n * limit, |s|);
      assert a <= b by {
        MulMonotone(n - 1, n, limit);
      }
      assert s[..a] + s[a..b] == s[..b];
    }
  }

  /** Going through every page from 1 to `total_pages` visits the whole listing once, in order. */
  lemma PagesCover<T>(s: seq<T>, limit: int)
    requires limit >= 1
    ensures PagesUpTo(s, limit, TotalPages(|s|, limit)) == s
  {
    TotalPagesCeil(|s|, limit);
    PagesUpToPrefix(s, limit, TotalPages(|s|, limit));
  }

  // ---------------------------------------------------------------------------
  // Filtering and sorting

  /** The order a sort key imposes: `le(a, b)` when `a` may come before `b`. */
  ghost predicate Total<T(!new)>(le: (T, T) -> bool)
  {
    forall a, b :: le(a, b) || le(b, a)
  }

  predicate Sorted<T>(s: seq<T>, le: (T, T) -> bool)
  {
    forall i :: 0 <= i < |s| - 1 ==> le(s[i], s[i + 1])
  }

  function Insert<T>(x: T, s: seq<T>, le: (T, T) -> bool): (r: seq<T>)
    ensures multiset(r) == multiset(s) + multiset{x}
    ensures r != [] && (r[0] == x || (s != [] && r[0] == s[0]))
    decreases |s|
  {
    if s == [] || le(x, s[0]) then [x] + s
    else
      assert s == [s[0]] + s[1..];
      [s[0]] + Insert(x, s[1..], le)
  }

  /** A sort that keeps documents with equal keys in their natural order. */
  function Sort<T>(s: seq<T>, le: (T, T) -> bool): (r: seq<T>)
    ensures multiset(r) == multiset(s)
    decreases |s|
  {
    if s == [] then []
    else
      assert s == [s[0]] + s[1..];
      Insert(s[0], Sort(s[1..], le), le)
  }

  lemma {:induction false} InsertSorted<T(!new)>(x: T, s: seq<T>, le: (T, T) -> bool)
    requires Total(le) && Sorted(s, le)
    ensures Sorted(Insert(x, s, le), le)
    decreases |s|
  {
    if s != [] && !le(x, s[0]) {
      assert le(s[0], x);
      var t := s[1..];
      assert Sorted(t, le) by {
        forall i | 0 <= i < |t| - 1 ensures le(t[i], t[i + 1]) {
          assert t[i] == s[i + 1] && t[i + 1] == s[i + 2];
        }
      }
      InsertSorted(x, t, le);
      var r := Insert(x, t, le);
      assert t != [] ==> le(s[0], s[1]);
      assert le(s[0], r[0]);
      var full := [s[0]] + r;
      forall i | 0 <= i < |full| - 1 ensures le(full[i], full[i + 1]) {
        if i > 0 {
          assert full[i] == r[i - 1] && full[i + 1] == r[i];
        }
      }
    }
  }

  /** Sorting under a total order gives an ordered permutation. */
  lemma {:induction false} SortSorted<T(!new)>(s: seq<T>, le: (T, T) -> bool)
    requires Total(le)
    ensures Sorted(Sort(s, le), le)
    decreases |s|
  {
    if s != [] {
      SortSorted(s[1..], le);
      InsertSorted(s[0], Sort(s[1..], le), le);
    }
  }

  /** Every window of an ordered listing is ordered. */
  lemma WindowSorted<T>(s: seq<T>, le: (T, T) -> bool, skip: nat, limit: nat)
    requires Sorted(s, le)
    ensures Sorted(Window(s, skip, limit), le)
  {
    var w := Window(s, skip, limit);
    forall i | 0 <= i < |w| - 1 ensures le(w[i], w[i + 1]) {
      assert w[i] == s[skip + i] && w[i + 1] == s[skip + i + 1];
    }
  }

  ghost predicate Transitive<T(!new)>(le: (T, T) -> bool)
  {
    forall a, b, c :: le(a, b) && le(b, c) ==> le(a, c)
  }

  /** No two different elements of `s` have equal sort keys. */
  predicate NoTies<T(==)>(s: seq<T>, le: (T, T) -> bool)
  {
    forall a, b :: a in s && b in s && le(a, b) && le(b, a) ==> a == b
  }

  /** Under a transitive order, the first element of an ordered sequence comes before
      every element of it. */
  lemma {:induction false} SortedFirst<T(!new)>(s: seq<T>, le: (T, T) -> bool, j: int)
    requires Transitive(le) && Sorted(s, le) && 0 < j < |s|
    ensures le(s[0], s[j])
    decreases j
  {
    if j > 1 {
      SortedFirst(s, le, j - 1);
    }
  }

  /** Dropping the first element keeps a sequence ordered. */
  lemma SortedTail<T>(s: seq<T>, le: (T, T) -> bool)
    requires Sorted(s, le) && s != []
    ensures Sorted(s[1..], le)
  {
    forall k | 0 <= k < |s| - 2 ensures le(s[1..][k], s[1..][k + 1]) {
      assert s[1..][k] == s[k + 1] && s[1..][k + 1] == s[k + 2];
    }
  }

  /** Two ordered permutations of a collection without ties start with the same element. */
  lemma SortedSameHead<T(!new)>(a: seq<T>, b: seq<T>, le: (T, T) -> bool)
    requires Transitive(le) && NoTies(a, le)
    requires Sorted(a, le) && Sorted(b, le) && multiset(a) == multiset(b) && a != []
    ensures b != [] && a[0] == b[0]
  {
    assert a[0] in multiset(b);
    var i :| 0 <= i < |b| && b[i] == a[0];
    assert b[0] in multiset(a);
    var j :| 0 <= j < |a| && a[j] == b[0];
    if i > 0 { SortedFirst(b, le, i); }
    if j > 0 { SortedFirst(a, le, j); }
  }

  /** The multiset of a tail is that of the whole less its first element. */
  lemma MultisetTail<T>(s: seq<T>)
    requires s != []
    ensures multiset(s[1..]) == multiset(s) - multiset{s[0]}
  {
    assert s == [s[0]] + s[1..];
    assert multiset(s) == multiset{s[0]} + multiset(s[1..]);
  }

  /** A tail of a collection without ties has none either. */
  lemma NoTiesTail<T>(s: seq<T>, le: (T, T) -> bool)
    requires NoTies(s, le) && s != []
    ensures NoTies(s[1..], le)
  {
    forall x, y | x in s[1..] && y in s[1..] && le(x, y) && le(y, x) ensures x == y {
      assert x in s && y in s;
    }
  }

  /** Without ties, an ordering of a collection is unique: any two ordered permutations
      of the same elements are equal, whichever way a sort would break ties. */
  lemma {:induction false} SortedUnique<T(!new)>(a: seq<T>, b: seq<T>, le: (T, T) -> bool)
    requires Transitive(le) && NoTies(a, le)
    requires Sorted(a, le) && Sorted(b, le) && multiset(a) == multiset(b)
    ensures a == b
    decreases |a|
  {
    if a == [] {
      assert |b| == |multiset(b)| == 0;
    } else {
      SortedSameHead(a, b, le);
      MultisetTail(a);
      MultisetTail(b);
      SortedTail(a, le);
      SortedTail(b, le);
      NoTiesTail(a, le);
      SortedUnique(a[1..], b[1..], le);
      assert a == [a[0]] + a[1..] && b == [b[0]] + b[1..];
    }
  }

  /** `le` read backwards: the order of a `DESCENDING` sort. */
  function Flip<T>(le: (T, T) -> bool): (T, T) -> bool
  {
    (a, b) => le(b, a)
  }

  lemma FlipTotal<T(!new)>(le: (T, T) -> bool)
    requires Total(le)
    ensures Total(Flip(le))
  {
    forall a, b ensures Flip(le)(a, b) || Flip(le)(b, a) {
      assert le(a, b) || le(b, a);
    }
  }

  /** Lexicographic order of strings, which orders ObjectIds by their bytes. */
  predicate LexLe(a: string, b: string)
    decreases |a|
  {
    a == [] || (b != [] && (a[0] < b[0] || (a[0] == b[0] && LexLe(a[1..], b[1..]))))
  }

  lemma {:induction false} LexLeTransitive(a: string, b: string, c: string)
    requires LexLe(a, b) && LexLe(b, c)
    ensures LexLe(a, c)
    decreases |a|
  {
    if a != [] && b != [] && c != [] && a[0] == b[0] && b[0] == c[0] {
      LexLeTransitive(a[1..], b[1..], c[1..]);
    }
  }

  lemma {:induction false} LexLeTotal(a: string, b: string)
    ensures LexLe(a, b) || LexLe(b, a)
    decreases |a|
  {
    if a != [] && b != [] && a[0] == b[0] {
      LexLeTotal(a[1..], b[1..]);
    }
  }
}
