/** Sequence operations used by every page: `Array.prototype.filter`
    and the "is a subsequence of" relation that states order preservation. */
module Seqs {

  /** `s.filter(p)`: the elements of `s` satisfying `p`, in their original order. */
  function Filter<T>(s: seq<T>, p: T -> bool): (r: seq<T>)
    ensures |r| <= |s|
    ensures forall k :: 0 <= k < |r| ==> r[k] in s && p(r[k])
    ensures forall k :: 0 <= k < |s| && p(s[k]) ==> s[k] in r
  {
    if s == [] then []
    else if p(s[0]) then [s[0]] + Filter(s[1..], p)
    else Filter(s[1..], p)
  }

  /** The kept elements form a sub-multiset of the input. */
  lemma {:induction false} FilterMultiset<T>(s: seq<T>, p: T -> bool)
    ensures multiset(Filter(s, p)) <= multiset(s)
  {
    if s != [] {
      var t := Filter(s[1..], p);
      FilterMultiset(s[1..], p);
      assert multiset(s) == multiset{s[0]} + multiset(s[1..]) by {
        assert s == [s[0]] + s[1..];
      }
      if p(s[0]) {
        assert Filter(s, p) == [s[0]] + t;
      } else {
        assert Filter(s, p) == t;
      }
    }
  }

  /** `a` can be obtained from `b` by deleting elements: same relative order. */
  predicate IsSubseq<T(==)>(a: seq<T>, b: seq<T>)
    decreases |b|
  {
    if a == [] then true
    else if b == [] then false
    else if a[0] == b[0] then IsSubseq(a[1..], b[1..])
    else IsSubseq(a, b[1..])
  }

  /** Dropping the first element of the longer sequence keeps a subsequence. */
  lemma {:induction false} SubseqOfTail<T>(a: seq<T>, b: seq<T>)
    requires b != [] && IsSubseq(a, b[1..])
    ensures IsSubseq(a, b)
    decreases |b|, 1
  {
    if a != [] && a[0] == b[0] {
      DropFirst(a, b[1..]);
    }
  }

  /** Dropping the first element of the shorter sequence keeps a subsequence. */
  lemma {:induction false} DropFirst<T>(a: seq<T>, c: seq<T>)
    requires a != [] && IsSubseq(a, c)
    ensures IsSubseq(a[1..], c)
    decreases |c| + 1, 0
  {
    if a[0] == c[0] {
      SubseqOfTail(a[1..], c);
    } else {
      DropFirst(a, c[1..]);
      SubseqOfTail(a[1..], c);
    }
  }

  /** Filtering never reorders: the result is a subsequence of the input. */
  lemma {:induction false} FilterIsSubseq<T>(s: seq<T>, p: T -> bool)
    ensures IsSubseq(Filter(s, p), s)
  {
    if s != [] {
      FilterIsSubseq(s[1..], p);
      if !p(s[0]) {
        SubseqOfTail(Filter(s[1..], p), s);
      } else {
        assert ([s[0]] + Filter(s[1..], p))[1..] == Filter(s[1..], p);
      }
    }
  }

  /** A filter whose predicate holds everywhere keeps the whole sequence. */
  lemma {:induction false} FilterKeepsAll<T>(s: seq<T>, p: T -> bool)
    requires forall k :: 0 <= k < |s| ==> p(s[k])
    ensures Filter(s, p) == s
  {
    if s != [] {
      FilterKeepsAll(s[1..], p);
      assert [s[0]] + s[1..] == s;
    }
  }

  /** Filtering distributes over concatenation. */
  lemma {:induction false} FilterAppend<T>(s: seq<T>, t: seq<T>, p: T -> bool)
    ensures Filter(s + t, p) == Filter(s, p) + Filter(t, p)
  {
    if s == [] {
      assert s + t == t;
    } else {
      assert (s + t)[0] == s[0];
      assert (s + t)[1..] == s[1..] + t;
      FilterAppend(s[1..], t, p);
    }
  }

  /** Filtering twice is filtering once by the conjunction. */
  lemma {:induction false} FilterFilter<T>(s: seq<T>, p: T -> bool, q: T -> bool, pq: T -> bool)
    requires forall x :: pq(x) == (p(x) && q(x))
    ensures Filter(Filter(s, p), q) == Filter(s, pq)
  {
    if s != [] {
      FilterFilter(s[1..], p, q, pq);
      if p(s[0]) {
        assert ([s[0]] + Filter(s[1..], p))[1..] == Filter(s[1..], p);
      }
    }
  }

  /** A filter and the filter by the opposite predicate split the input. */
  lemma {:induction false} FilterComplement<T>(s: seq<T>, p: T -> bool, q: T -> bool)
    requires forall x :: q(x) == !p(x)
    ensures |Filter(s, p)| + |Filter(s, q)| == |s|
  {
    if s != [] { FilterComplement(s[1..], p, q); }
  }

  /** Filters by two predicates that agree everywhere give the same result. */
  lemma {:induction false} FilterExt<T>(s: seq<T>, p: T -> bool, q: T -> bool)
    requires forall x :: p(x) == q(x)
    ensures Filter(s, p) == Filter(s, q)
  {
    if s != [] { FilterExt(s[1..], p, q); }
  }

  /** The predicate "`f` maps the element to `k`". */
  function KeyIs<T, K(==)>(f: T -> K, k: K): T -> bool {
    (x: T) => f(x) == k
  }

  /** The predicate "`f` maps the element into `ks`". */
  function KeyIn<T, K(==)>(f: T -> K, ks: seq<K>): T -> bool {
    (x: T) => f(x) in ks
  }

  /** `s.filter((x) => f(x) === k).length`. */
  function CountKey<T, K(==)>(s: seq<T>, f: T -> K, k: K): nat {
    |Filter(s, KeyIs(f, k))|
  }

  /** The counts of all keys in `ks`, added up. */
  function SumCounts<T, K(==)>(s: seq<T>, f: T -> K, ks: seq<K>): nat {
    if ks == [] then 0 else CountKey(s, f, ks[0]) + SumCounts(s, f, ks[1..])
  }

  /** How often `k` occurs in `ks`. */
  function Occurrences<K(==)>(k: K, ks: seq<K>): nat {
    if ks == [] then 0 else (if ks[0] == k then 1 else 0) + Occurrences(k, ks[1..])
  }

  predicate Distinct<K(==)>(ks: seq<K>) {
    forall a, b :: 0 <= a < b < |ks| ==> ks[a] != ks[b]
  }

  lemma {:induction false} SumCountsEmpty<T, K>(f: T -> K, ks: seq<K>)
    ensures SumCounts([], f, ks) == 0
  {
    if ks != [] { SumCountsEmpty(f, ks[1..]); }
  }

  lemma {:induction false} SumCountsCons<T, K>(x: T, rest: seq<T>, f: T -> K, ks: seq<K>)
    ensures SumCounts([x] + rest, f, ks) == SumCounts(rest, f, ks) + Occurrences(f(x), ks)
  {
    if ks != [] {
      assert ([x] + rest)[0] == x && ([x] + rest)[1..] == rest;
      SumCountsCons(x, rest, f, ks[1..]);
    }
  }

  lemma {:induction false} OccurrencesDistinct<K>(k: K, ks: seq<K>)
    requires Distinct(ks)
    ensures Occurrences(k, ks) == if k in ks then 1 else 0
  {
    if ks != [] {
      OccurrencesDistinct(k, ks[1..]);
      if ks[0] == k {
        assert k !in ks[1..] by {
          forall b | 0 <= b < |ks[1..]| ensures ks[1..][b] != ks[0] {
            assert ks[1..][b] == ks[b + 1];
          }
        }
      }
    }
  }

  /** Counting by key over distinct keys is a partition: the counts add
      up to the number of elements whose key is among them. */
  lemma {:induction false} CountsPartition<T, K>(s: seq<T>, f: T -> K, ks: seq<K>)
    requires Distinct(ks)
    ensures SumCounts(s, f, ks) == |Filter(s, KeyIn(f, ks))|
  {
    if s == [] {
      SumCountsEmpty(f, ks);
    } else {
      CountsPartition(s[1..], f, ks);
      assert [s[0]] + s[1..] == s;
      SumCountsCons(s[0], s[1..], f, ks);
      OccurrencesDistinct(f(s[0]), ks);
    }
  }

  /** When every key lies among distinct `ks`, the counts add up to the length. */
  lemma CountsCoverAll<T, K>(s: seq<T>, f: T -> K, ks: seq<K>)
    requires Distinct(ks)
    requires forall x :: f(x) in ks
    ensures SumCounts(s, f, ks) == |s|
  {
    CountsPartition(s, f, ks);
    FilterKeepsAll(s, KeyIn(f, ks));
  }

  /** `s.map(f)`. */
  function Project<T, K>(s: seq<T>, f: T -> K): (r: seq<K>)
    ensures |r| == |s| && forall i :: 0 <= i < |s| ==> r[i] == f(s[i])
  {
    seq(|s|, i requires 0 <= i < |s| => f(s[i]))
  }

  /** Counting by key agrees with the multiplicity of the key among the
      projected keys. */
  lemma {:induction false} CountKeyMultiplicity<T, K>(s: seq<T>, f: T -> K, k: K)
    ensures CountKey(s, f, k) == multiset(Project(s, f))[k]
  {
    if s != [] {
      CountKeyMultiplicity(s[1..], f, k);
      assert Project(s, f) == [f(s[0])] + Project(s[1..], f);
    }
  }

  /** In a sequence without repetitions every value occurs at most once. */
  lemma {:induction false} MultisetOfDistinct<K>(ks: seq<K>, k: K)
    requires Distinct(ks)
    ensures multiset(ks)[k] == if k in ks then 1 else 0
  {
    if ks != [] {
      assert Distinct(ks[1..]) by {
        forall a, b | 0 <= a < b < |ks[1..]| ensures ks[1..][a] != ks[1..][b] {
          assert ks[1..][a] == ks[a + 1] && ks[1..][b] == ks[b + 1];
        }
      }
      MultisetOfDistinct(ks[1..], k);
      assert ks == [ks[0]] + ks[1..];
      if ks[0] == k {
        assert k !in ks[1..] by {
          forall b | 0 <= b < |ks[1..]| ensures ks[1..][b] != ks[0] {
            assert ks[1..][b] == ks[b + 1];
          }
        }
      }
    }
  }
}
