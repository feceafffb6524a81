/** The MongoDB query vocabulary the routes and the monitor use, stated over
    in-memory sequences: `$match` (Filter), `$group` with `$sum: 1`
    (CountKey over the keys present), `distinct` (Distinct), and
    `find().sort({field: -1}).limit(n)` (TopN). */
module Aggregate {
  import opened Util

  // ---------------------------------------------------------------- $match

  /** The elements of `xs` that satisfy `p`, in their original order. */
  function Filter<T(!new)>(xs: seq<T>, p: T -> bool): (r: seq<T>)
    ensures |r| <= |xs|
    ensures forall x :: x in r <==> x in xs && p(x)
    ensures multiset(r) <= multiset(xs)
  {
    if xs == [] then []
    else
      assert xs == [xs[0]] + xs[1..];
      (if p(xs[0]) then [xs[0]] else []) + Filter(xs[1..], p)
  }

  /** `$match` distributes over an append. */
  lemma {:induction false} FilterAppend<T(!new)>(xs: seq<T>, ys: seq<T>, p: T -> bool)
    ensures Filter(xs + ys, p) == Filter(xs, p) + Filter(ys, p)
  {
    if xs != [] {
      assert (xs + ys)[1..] == xs[1..] + ys;
      FilterAppend(xs[1..], ys, p);
    } else {
      assert xs + ys == ys;
    }
  }

  /** Nothing of `ys` is kept when no element of it matches. */
  lemma FilterNone<T(!new)>(ys: seq<T>, p: T -> bool)
    requires forall y :: y in ys ==> !p(y)
    ensures Filter(ys, p) == []
  {
  }

  /** Everything is kept when every element matches. */
  lemma {:induction false} FilterAll<T(!new)>(xs: seq<T>, p: T -> bool)
    requires forall x :: x in xs ==> p(x)
    ensures Filter(xs, p) == xs
  {
    if xs != [] {
      assert xs == [xs[0]] + xs[1..];
      FilterAll(xs[1..], p);
    }
  }

  /** A weaker condition keeps at least as many elements
      (`countDocuments` of a narrower query is no larger). */
  lemma {:induction false} FilterMonotone<T(!new)>(xs: seq<T>, p: T -> bool, q: T -> bool)
    requires forall x :: x in xs && p(x) ==> q(x)
    ensures |Filter(xs, p)| <= |Filter(xs, q)|
  {
    if xs != [] {
      assert forall x :: x in xs[1..] ==> x in xs;
      FilterMonotone(xs[1..], p, q);
    }
  }

  lemma AppendAssoc<T>(a: seq<T>, b: seq<T>, c: seq<T>)
    ensures a + (b + c) == (a + b) + c
  {
  }

  // ---------------------------------------------------------------- $group

  /** The number of elements of `xs` whose key is `k` (one `$group` bucket). */
  function CountKey<T, K(==)>(xs: seq<T>, key: T -> K, k: K): (n: nat)
    ensures n <= |xs|
  {
    if xs == [] then 0
    else (if key(xs[0]) == k then 1 else 0) + CountKey(xs[1..], key, k)
  }

  /** A bucket over an append is the sum of the two buckets. */
  lemma {:induction false} CountKeyAppend<T, K>(xs: seq<T>, ys: seq<T>, key: T -> K, k: K)
    ensures CountKey(xs + ys, key, k) == CountKey(xs, key, k) + CountKey(ys, key, k)
  {
    if xs == [] {
      assert xs + ys == ys;
    } else {
      assert (xs + ys)[1..] == xs[1..] + ys;
      CountKeyAppend(xs[1..], ys, key, k);
    }
  }

  /** When every element carries the key `k`, its bucket is everything. */
  lemma {:induction false} CountKeyAll<T, K>(xs: seq<T>, key: T -> K, k: K)
    requires forall i :: 0 <= i < |xs| ==> key(xs[i]) == k
    ensures CountKey(xs, key, k) == |xs|
  {
    if xs != [] {
      CountKeyAll(xs[1..], key, k);
    }
  }

  /** The key of every element, in order. */
  function KeysOf<T, K>(xs: seq<T>, key: T -> K): (ks: seq<K>)
    ensures |ks| == |xs|
    ensures forall i :: 0 <= i < |xs| ==> ks[i] == key(xs[i])
  {
    if xs == [] then [] else [key(xs[0])] + KeysOf(xs[1..], key)
  }

  /** A key has a non-empty bucket exactly when some element carries it. */
  lemma {:induction false} CountKeyPositive<T, K>(xs: seq<T>, key: T -> K, k: K)
    ensures CountKey(xs, key, k) > 0 <==> k in KeysOf(xs, key)
  {
    if xs != [] {
      CountKeyPositive(xs[1..], key, k);
      assert KeysOf(xs, key) == [key(xs[0])] + KeysOf(xs[1..], key);
    }
  }

  /** Restricting the input never enlarges a bucket. */
  lemma {:induction false} CountKeyFilter<T(!new), K>(xs: seq<T>, p: T -> bool, key: T -> K, k: K)
    ensures CountKey(Filter(xs, p), key, k) <= CountKey(xs, key, k)
  {
    if xs != [] {
      CountKeyFilter(xs[1..], p, key, k);
      var rest := Filter(xs[1..], p);
      if p(xs[0]) {
        assert Filter(xs, p) == [xs[0]] + rest;
        assert ([xs[0]] + rest)[1..] == rest;
      } else {
        assert Filter(xs, p) == rest;
      }
    }
  }

  predicate NoDup<K(==)>(ks: seq<K>) {
    forall i, j :: 0 <= i < j < |ks| ==> ks[i] != ks[j]
  }

  /** `distinct`: each key once (the store does not promise an order). */
  function Distinct<K(==,!new)>(ks: seq<K>): (r: seq<K>)
    ensures |r| <= |ks|
    ensures forall k :: k in r <==> k in ks
    ensures NoDup(r)
  {
    if ks == [] then []
    else if ks[0] in ks[1..] then Distinct(ks[1..])
    else [ks[0]] + Distinct(ks[1..])
  }

  /** A non-empty run of one key has that key as its only distinct key. */
  lemma {:induction false} DistinctConstant<K(!new)>(ks: seq<K>, k: K)
    requires ks != []
    requires forall i :: 0 <= i < |ks| ==> ks[i] == k
    ensures Distinct(ks) == [k]
  {
    if |ks| > 1 {
      assert ks[1..][0] == k;
      DistinctConstant(ks[1..], k);
    } else {
      assert ks[1..] == [];
    }
  }

  /** The sum of the bucket sizes of the keys `ks`. */
  function SumCounts<T, K(==)>(xs: seq<T>, key: T -> K, ks: seq<K>): nat {
    if ks == [] then 0 else CountKey(xs, key, ks[0]) + SumCounts(xs, key, ks[1..])
  }

  /** How many entries of `ks` equal `k`. */
  function Hits<K(==)>(ks: seq<K>, k: K): nat {
    if ks == [] then 0 else (if ks[0] == k then 1 else 0) + Hits(ks[1..], k)
  }

  lemma {:induction false} HitsOnce<K>(ks: seq<K>, k: K)
    requires NoDup(ks) && k in ks
    ensures Hits(ks, k) == 1
  {
    if ks[0] == k {
      HitsNone(ks[1..], k);
    } else {
      assert k in ks[1..];
      HitsOnce(ks[1..], k);
    }
  }

  lemma {:induction false} HitsNone<K>(ks: seq<K>, k: K)
    requires k !in ks
    ensures Hits(ks, k) == 0
  {
    if ks != [] {
      HitsNone(ks[1..], k);
    }
  }

  /** Peeling the first element off the input takes it out of exactly the
      buckets that carry its key. */
  lemma {:induction false} SumCountsCons<T, K>(xs: seq<T>, key: T -> K, ks: seq<K>)
    requires xs != []
    ensures SumCounts(xs, key, ks) == Hits(ks, key(xs[0])) + SumCounts(xs[1..], key, ks)
  {
    if ks != [] {
      SumCountsCons(xs, key, ks[1..]);
    }
  }

  /** Grouping partitions the input: when the keys are distinct and cover
      every element, the bucket sizes add up to the number of elements. */
  lemma {:induction false} SumCountsPartition<T, K>(xs: seq<T>, key: T -> K, ks: seq<K>)
    requires NoDup(ks)
    requires forall x :: x in xs ==> key(x) in ks
    ensures SumCounts(xs, key, ks) == |xs|
  {
    if xs == [] {
      SumCountsEmpty(key, ks);
    } else {
      SumCountsCons(xs, key, ks);
      HitsOnce(ks, key(xs[0]));
      SumCountsPartition(xs[1..], key, ks);
    }
  }

  lemma {:induction false} SumCountsEmpty<T, K>(key: T -> K, ks: seq<K>)
    ensures SumCounts([], key, ks) == 0
  {
    if ks != [] {
      SumCountsEmpty(key, ks[1..]);
    }
  }

  /** One bucket of `$group: {_id: <key>, count: {$sum: 1}}`. */
  datatype Bucket<K> = Bucket(key: K, count: nat)

  /** The non-empty buckets of the keys `ks`, in the order of `ks`. */
  function Group<T, K(==)>(xs: seq<T>, key: T -> K, ks: seq<K>): (g: seq<Bucket<K>>)
    ensures forall e :: e in g ==> e.key in ks && e.count == CountKey(xs, key, e.key) && e.count > 0
    ensures forall k :: k in ks && CountKey(xs, key, k) > 0 ==> Bucket(k, CountKey(xs, key, k)) in g
  {
    if ks == [] then []
    else
      var n := CountKey(xs, key, ks[0]);
      (if n > 0 then [Bucket(ks[0], n)] else []) + Group(xs, key, ks[1..])
  }

  /** Grouping over distinct keys yields one bucket per key. */
  lemma {:induction false} GroupKeysDistinct<T, K>(xs: seq<T>, key: T -> K, ks: seq<K>)
    requires NoDup(ks)
    ensures forall i, j :: 0 <= i < j < |Group(xs, key, ks)| ==>
      Group(xs, key, ks)[i].key != Group(xs, key, ks)[j].key
  {
    if ks != [] {
      assert NoDup(ks[1..]);
      GroupKeysDistinct(xs, key, ks[1..]);
      var rest := Group(xs, key, ks[1..]);
      assert ks[0] !in ks[1..];
      assert forall e :: e in rest ==> e.key != ks[0];
    }
  }

  /** `buckets.reduce((sum, item) => sum + item.count, 0)`. */
  function Total<K>(g: seq<Bucket<K>>): nat {
    if g == [] then 0 else g[0].count + Total(g[1..])
  }

  lemma {:induction false} GroupTotal<T, K>(xs: seq<T>, key: T -> K, ks: seq<K>)
    ensures Total(Group(xs, key, ks)) == SumCounts(xs, key, ks)
  {
    if ks != [] {
      GroupTotal(xs, key, ks[1..]);
      var n := CountKey(xs, key, ks[0]);
      var rest := Group(xs, key, ks[1..]);
      if n > 0 {
        assert ([Bucket(ks[0], n)] + rest)[1..] == rest;
      } else {
        assert [] + rest == rest;
      }
    }
  }

  /** Grouping by a complete list of distinct keys loses nothing: the
      bucket counts add up to the number of grouped elements. */
  lemma GroupPartition<T, K>(xs: seq<T>, key: T -> K, ks: seq<K>)
    requires NoDup(ks)
    requires forall x :: x in xs ==> key(x) in ks
    ensures Total(Group(xs, key, ks)) == |xs|
  {
    GroupTotal(xs, key, ks);
    SumCountsPartition(xs, key, ks);
  }

  // ---------------------------------------------------------------- sort / limit

  /** Ordered by `key`, largest first (`sort({field: -1})`). */
  predicate SortedDesc<T>(xs: seq<T>, key: T -> int) {
    forall i, j :: 0 <= i < j < |xs| ==> key(xs[i]) >= key(xs[j])
  }

  function InsertDesc<T>(x: T, xs: seq<T>, key: T -> int): (r: seq<T>)
    requires SortedDesc(xs, key)
    ensures SortedDesc(r, key)
    ensures multiset(r) == multiset(xs) + multiset{x}
  {
    if xs == [] then [x]
    else if key(x) >= key(xs[0]) then [x] + xs
    else
      var tail := InsertDesc(x, xs[1..], key);
      assert xs == [xs[0]] + xs[1..];
      assert forall i :: 0 <= i < |tail| ==> key(tail[i]) <= key(xs[0]) by {
        forall i | 0 <= i < |tail| ensures key(tail[i]) <= key(xs[0]) {
          var y := tail[i];
          assert y in multiset(tail);
          if y != x {
            assert y in multiset(xs[1..]);
            var j :| 0 <= j < |xs[1..]| && xs[1..][j] == y;
            assert xs[j + 1] == y;
          }
        }
      }
      ConsSorted(xs[0], tail, key);
      [xs[0]] + tail
  }

  lemma ConsSorted<T>(h: T, tail: seq<T>, key: T -> int)
    requires SortedDesc(tail, key)
    requires forall i :: 0 <= i < |tail| ==> key(tail[i]) <= key(h)
    ensures SortedDesc([h] + tail, key)
  {
  }

  /** A permutation of `xs`, largest key first. */
  function SortDesc<T>(xs: seq<T>, key: T -> int): (r: seq<T>)
    ensures SortedDesc(r, key)
    ensures multiset(r) == multiset(xs)
  {
    if xs == [] then []
    else
      assert xs == [xs[0]] + xs[1..];
      InsertDesc(xs[0], SortDesc(xs[1..], key), key)
  }

  /** A cursor limit: MongoDB reads `limit(0)` as no limit. */
  datatype Limit = Unlimited | AtMost(n: nat) {
    function Cap(count: nat): nat {
      match this
      case Unlimited => count
      case AtMost(n) => if n < count then n else count
    }
  }

  /** `limit(n)` as the driver applies it: 0 is no limit, and a negative n
      returns at most |n| documents. */
  function CursorLimit(n: int): (l: Limit)
    ensures n == 0 <==> l.Unlimited?
    ensures n > 0 ==> l == AtMost(n)
    ensures n < 0 ==> l == AtMost(-n)
  {
    if n == 0 then Unlimited else if n > 0 then AtMost(n) else AtMost(-n)
  }

  /** The page size of the list routes when the query gives no `limit`. */
  const DEFAULT_PAGE: int := 50

  /** `.limit(parseInt(limit))` with `limit` already parsed, 50 when absent. */
  function PageLimit(limit: Option<int>): (l: Limit)
    ensures limit.None? ==> l == AtMost(50)
  {
    CursorLimit(limit.GetOr(DEFAULT_PAGE))
  }

  /** A query-string filter applies only when it is given and non-empty
      (`if (status) query.status = status`). */
  predicate Requested(filter: Option<string>, value: string) {
    !Present(filter) || filter.value == value
  }

  function Take<T>(xs: seq<T>, lim: Limit): (r: seq<T>)
    ensures |r| == lim.Cap(|xs|)
    ensures r == xs[..|r|]
  {
    if lim.AtMost? && lim.n < |xs| then xs[..lim.n] else xs
  }

  /** A sequence without duplicates has as many elements as its set. */
  lemma {:induction false} NoDupCard<K>(ks: seq<K>)
    requires NoDup(ks)
    ensures |set k | k in ks| == |ks|
  {
    if ks != [] {
      assert NoDup(ks[1..]) by {
        forall i, j | 0 <= i < j < |ks[1..]| ensures ks[1..][i] != ks[1..][j] {
          assert ks[1..][i] == ks[i + 1] && ks[1..][j] == ks[j + 1];
        }
      }
      NoDupCard(ks[1..]);
      assert (set k | k in ks) == {ks[0]} + (set k | k in ks[1..]);
      assert ks[0] !in (set k | k in ks[1..]) by {
        forall j | 0 <= j < |ks[1..]| ensures ks[1..][j] != ks[0] {
          assert ks[1..][j] == ks[j + 1];
        }
      }
    }
  }

  /** A duplicate-free sequence with exactly one member more than another
      is one element longer. */
  lemma NoDupOneMore<K>(a: seq<K>, b: seq<K>, k: K)
    requires NoDup(a) && NoDup(b) && k !in b
    requires forall x :: x in a <==> x in b || x == k
    ensures |a| == |b| + 1
  {
    NoDupCard(a);
    NoDupCard(b);
    assert (set x | x in a) == (set x | x in b) + {k};
  }

  /** `distinct(field).length` is the number of different values. */
  lemma DistinctCount<K(!new)>(ks: seq<K>)
    ensures |Distinct(ks)| == |set k | k in ks|
  {
    NoDupCard(Distinct(ks));
    assert (set k | k in Distinct(ks)) == (set k | k in ks);
  }

  /** Two sequences with the same multiset have the same length and members. */
  lemma SameMultiset<T>(a: seq<T>, b: seq<T>)
    requires multiset(a) == multiset(b)
    ensures |a| == |b|
    ensures forall x :: x in a <==> x in b
  {
    assert |multiset(a)| == |multiset(b)|;
    forall x ensures x in a <==> x in b {
      assert x in a <==> x in multiset(a);
      assert x in b <==> x in multiset(b);
    }
  }

  /** In a list sorted largest first, whatever a prefix leaves out is no
      larger than anything the prefix keeps. */
  lemma PrefixDominates<T>(sorted: seq<T>, m: nat, key: T -> int)
    requires SortedDesc(sorted, key) && m <= |sorted|
    ensures forall x, y :: x in sorted && x !in sorted[..m] && y in sorted[..m] ==> key(x) <= key(y)
  {
    forall x, y | x in sorted && x !in sorted[..m] && y in sorted[..m]
      ensures key(x) <= key(y)
    {
      var j :| 0 <= j < |sorted| && sorted[j] == x;
      var i :| 0 <= i < m && sorted[..m][i] == y;
    }
  }

  /** `find(p).sort({key: -1}).limit(lim)`. */
  function TopN<T(!new)>(xs: seq<T>, p: T -> bool, key: T -> int, lim: Limit): (r: seq<T>)
    ensures forall x :: x in r ==> x in xs && p(x)
    ensures SortedDesc(r, key)
    ensures |r| == lim.Cap(|Filter(xs, p)|)
    ensures forall x, y :: x in xs && p(x) && x !in r && y in r ==> key(x) <= key(y)
    ensures multiset(r) <= multiset(Filter(xs, p))
    ensures lim.Cap(|Filter(xs, p)|) == |Filter(xs, p)| ==> multiset(r) == multiset(Filter(xs, p))
  {
    var matching := Filter(xs, p);
    var sorted := SortDesc(matching, key);
    SameMultiset(sorted, matching);
    var r := Take(sorted, lim);
    PrefixDominates(sorted, |r|, key);
    assert sorted == r + sorted[|r|..];
    assert multiset(sorted) == multiset(r) + multiset(sorted[|r|..]);
    r
  }
}
