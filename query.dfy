/**
 * The query shapes the handlers build with the ORM: listing a table's
 * rows, filtering, `offset(skip).limit(limit)`, counting, and applying a
 * list of attribute assignments one after another.
 */
module Query {

  function Min(a: int, b: int): int {
    if a <= b then a else b
  }

  /**
   * The rows of a table whose autoincrement ids lie in [1, next), in
   * primary-key order (the order an unordered SELECT is taken to return).
   */
  function Rows<T>(m: map<int, T>, next: int): (r: seq<(int, T)>)
    decreases next
    ensures forall i :: 0 <= i < |r| ==> r[i].0 in m && m[r[i].0] == r[i].1 && 1 <= r[i].0 < next
    ensures IdsIncreasing(r)
    ensures forall k :: k in m && 1 <= k < next ==> (k, m[k]) in r
  {
    if next <= 1 then []
    else Rows(m, next - 1) + (if next - 1 in m then [(next - 1, m[next - 1])] else [])
  }

  predicate IdsIncreasing<T>(s: seq<(int, T)>) {
    forall i, j :: 0 <= i < j < |s| ==> s[i].0 < s[j].0
  }

  /** The elements of `s` that satisfy `p`, in their original order. */
  function Filter<T>(s: seq<T>, p: T -> bool): (r: seq<T>)
    ensures |r| <= |s|
    ensures forall i :: 0 <= i < |r| ==> r[i] in s && p(r[i])
    ensures forall i :: 0 <= i < |s| && p(s[i]) ==> s[i] in r
  {
    if s == [] then []
    else (if p(s[0]) then [s[0]] else []) + Filter(s[1..], p)
  }

  lemma ConsIncreasing<T>(x: (int, T), s: seq<(int, T)>)
    requires IdsIncreasing(s)
    requires forall i :: 0 <= i < |s| ==> x.0 < s[i].0
    ensures IdsIncreasing([x] + s)
  {
    var r := [x] + s;
    forall i, j | 0 <= i < j < |r|
      ensures r[i].0 < r[j].0
    {
      assert r[j] == s[j - 1];
      if i > 0 {
        assert r[i] == s[i - 1];
      }
    }
  }

  lemma {:induction false} FilterKeepsIdOrder<T>(s: seq<(int, T)>, p: ((int, T)) -> bool)
    requires IdsIncreasing(s)
    ensures IdsIncreasing(Filter(s, p))
  {
    if s != [] {
      var rest := Filter(s[1..], p);
      FilterKeepsIdOrder(s[1..], p);
      if p(s[0]) {
        forall i | 0 <= i < |rest| ensures s[0].0 < rest[i].0 {
          var j :| 0 <= j < |s[1..]| && s[1..][j] == rest[i];
          assert s[j + 1] == rest[i];
        }
        ConsIncreasing(s[0], rest);
        assert Filter(s, p) == [s[0]] + rest;
      } else {
        assert Filter(s, p) == rest;
      }
    }
  }

  /** No id occurs twice. */
  predicate IdsDistinct<T>(s: seq<(int, T)>) {
    forall i, j :: 0 <= i < j < |s| ==> s[i].0 != s[j].0
  }

  /** Under distinct ids every row occurs at most once. */
  lemma {:induction false} DistinctOnce<T>(s: seq<(int, T)>, x: (int, T))
    requires IdsDistinct(s)
    ensures multiset(s)[x] <= 1
  {
    if s != [] {
      assert s == [s[0]] + s[1..];
      assert IdsDistinct(s[1..]) by {
        forall i, j | 0 <= i < j < |s[1..]| ensures s[1..][i].0 != s[1..][j].0 {
          assert s[1..][i] == s[i + 1] && s[1..][j] == s[j + 1];
        }
      }
      DistinctOnce(s[1..], x);
      if s[0] == x {
        forall i | 0 <= i < |s[1..]| ensures s[1..][i] != x {
          assert s[1..][i] == s[i + 1];
        }
        assert x !in multiset(s[1..]);
      }
    }
  }

  /** A rearrangement of rows with distinct ids has distinct ids. */
  lemma PermutationKeepsDistinct<T>(a: seq<(int, T)>, b: seq<(int, T)>)
    requires multiset(a) == multiset(b)
    requires IdsDistinct(b)
    ensures IdsDistinct(a)
  {
    forall i, j | 0 <= i < j < |a| ensures a[i].0 != a[j].0 {
      if a[i] == a[j] {
        assert a == a[..j] + [a[j]] + a[j + 1..];
        assert a[i] in a[..j];
        assert multiset(a)[a[j]] >= 2;
        DistinctOnce(b, a[j]);
      } else {
        assert a[i] in multiset(b) && a[j] in multiset(b);
        var p :| 0 <= p < |b| && b[p] == a[i];
        var q :| 0 <= q < |b| && b[q] == a[j];
        assert p != q;
      }
    }
  }

  /** Filtering distributes over concatenation. */
  lemma {:induction false} FilterAppend<T>(a: seq<T>, b: seq<T>, p: T -> bool)
    ensures Filter(a + b, p) == Filter(a, p) + Filter(b, p)
    decreases |a|
  {
    if a == [] {
      assert a + b == b;
    } else {
      assert (a + b)[0] == a[0] && (a + b)[1..] == a[1..] + b;
      FilterAppend(a[1..], b, p);
    }
  }

  /** Filters that agree everywhere keep the same elements. */
  lemma {:induction false} FilterSame<T>(s: seq<T>, p: T -> bool, q: T -> bool)
    requires forall x :: p(x) == q(x)
    ensures Filter(s, p) == Filter(s, q)
    decreases |s|
  {
    if s != [] {
      FilterSame(s[1..], p, q);
    }
  }

  /** A filter every element passes keeps the whole sequence. */
  lemma {:induction false} FilterAll<T>(s: seq<T>, p: T -> bool)
    requires forall x :: p(x)
    ensures Filter(s, p) == s
    decreases |s|
  {
    if s != [] {
      FilterAll(s[1..], p);
      assert s == [s[0]] + s[1..];
    }
  }

  /** Two filters one after the other are one filter by their conjunction. */
  lemma {:induction false} FilterFilter<T>(s: seq<T>, p: T -> bool, q: T -> bool, both: T -> bool)
    requires forall x :: both(x) == (p(x) && q(x))
    ensures Filter(Filter(s, p), q) == Filter(s, both)
    decreases |s|
  {
    if s != [] {
      var head := if p(s[0]) then [s[0]] else [];
      FilterAppend(head, Filter(s[1..], p), q);
      FilterFilter(s[1..], p, q, both);
      if p(s[0]) {
        assert head[1..] == [];
      }
    }
  }

  /** `offset(skip).limit(limit)`: at most `limit` rows, starting at index `skip`. */
  function Page<T>(s: seq<T>, skip: nat, limit: nat): (r: seq<T>)
    ensures |r| == if skip >= |s| then 0 else Min(limit, |s| - skip)
    ensures forall i :: 0 <= i < |r| ==> r[i] == s[skip + i]
  {
    if skip >= |s| then [] else s[skip .. skip + Min(limit, |s| - skip)]
  }

  /** A slice of rows in id order is in id order. */
  lemma PageKeepsIdOrder<T>(s: seq<(int, T)>, skip: nat, limit: nat)
    requires IdsIncreasing(s)
    ensures IdsIncreasing(Page(s, skip, limit))
  {
    var r := Page(s, skip, limit);
    forall i, j | 0 <= i < j < |r|
      ensures r[i].0 < r[j].0
    {
      assert r[i] == s[skip + i] && r[j] == s[skip + j];
    }
  }

  lemma PageAll<T>(s: seq<T>, limit: nat)
    requires |s| <= limit
    ensures Page(s, 0, limit) == s
  {
  }

  /** How many elements of `s` satisfy `p` (a `.count()` query). */
  function Count<T>(s: seq<T>, p: T -> bool): (n: nat)
    ensures n <= |s|
  {
    if s == [] then 0
    else (if p(s[0]) then 1 else 0) + Count(s[1..], p)
  }

  lemma {:induction false} CountFilter<T>(s: seq<T>, p: T -> bool)
    ensures |Filter(s, p)| == Count(s, p)
  {
    if s != [] {
      CountFilter(s[1..], p);
    }
  }

  /** Some element satisfies `p` exactly when the count is positive. */
  lemma {:induction false} CountPositive<T>(s: seq<T>, p: T -> bool)
    ensures Count(s, p) > 0 <==> exists i :: 0 <= i < |s| && p(s[i])
  {
    if s != [] {
      CountPositive(s[1..], p);
      assert forall i :: 1 <= i < |s| ==> s[i] == s[1..][i - 1];
    }
  }

  /** Counting is monotone in the predicate. */
  lemma {:induction false} CountMono<T>(s: seq<T>, p: T -> bool, q: T -> bool)
    requires forall x :: p(x) ==> q(x)
    ensures Count(s, p) <= Count(s, q)
  {
    if s != [] {
      CountMono(s[1..], p, q);
    }
  }

  /** Counts of disjoint predicates add up to the count of their union. */
  lemma {:induction false} CountDisjoint<T>(s: seq<T>, p: T -> bool, q: T -> bool, union: T -> bool)
    requires forall x :: !(p(x) && q(x))
    requires forall x :: union(x) == (p(x) || q(x))
    ensures Count(s, union) == Count(s, p) + Count(s, q)
  {
    if s != [] {
      CountDisjoint(s[1..], p, q, union);
    }
  }

  /**
   * Applies `step` for each element of `fs` in turn, as a loop of
   * attribute assignments does.
   */
  function Fold<R, F>(r: R, fs: seq<F>, step: (R, F) -> R): R
    decreases |fs|
  {
    if fs == [] then r else Fold(step(r, fs[0]), fs[1..], step)
  }

  /** Folding over an optional first assignment. */
  lemma FoldOpt<R, F>(r: R, o: seq<F>, rest: seq<F>, step: (R, F) -> R)
    requires |o| <= 1
    ensures Fold(r, o + rest, step) == Fold(if o == [] then r else step(r, o[0]), rest, step)
  {
    if o == [] {
      assert o + rest == rest;
    } else {
      assert (o + rest)[1..] == rest;
    }
  }
}
