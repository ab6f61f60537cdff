/** Sums over the keys of a map, independent of the order in which they are visited. */
module Sums {
  import opened Common
  import opened Counts
  import opened Audit
  import opened Stats

  ghost function Sum<K>(keys: set<K>, f: K -> int): int {
    if keys == {} then 0 else
    var k :| k in keys;
    f(k) + Sum(keys - {k}, f)
  }

  /** Any key may be visited first. */
  lemma {:induction false} SumPick<K>(keys: set<K>, f: K -> int, k: K)
    requires k in keys
    ensures Sum(keys, f) == f(k) + Sum(keys - {k}, f)
  {
    var j :| j in keys && Sum(keys, f) == f(j) + Sum(keys - {j}, f);
    if j != k {
      SumPick(keys - {j}, f, k);
      SumPick(keys - {k}, f, j);
      assert keys - {j} - {k} == keys - {k} - {j};
    }
  }

  function Totals<K>(m: map<K, FailureRate>): K -> int {
    (k: K) => if k in m then m[k].total else 0
  }

  function Fails<K>(m: map<K, FailureRate>): K -> int {
    (k: K) => if k in m then m[k].failures else 0
  }

  function Selected<K>(m: map<K, FailureRate>, p: K -> bool): set<K> {
    set k | k in m && p(k)
  }

  /** An entry whose bucket is one of the keys. */
  function InOneOf<K>(bucket: Entry -> Option<K>, keys: set<K>): Entry -> bool {
    (e: Entry) => bucket(e).Some? && bucket(e).value in keys
  }

  lemma {:induction false} SplitBucket<K>(es: seq<Entry>, bucket: Entry -> Option<K>, keys: set<K>, k: K, q: Entry -> bool)
    requires k in keys
    ensures Count(es, And(InOneOf(bucket, keys), q))
            == Count(es, And(InBucket(bucket, k), q)) + Count(es, And(InOneOf(bucket, keys - {k}), q))
  {
    if es != [] {
      SplitBucket(Front(es), bucket, keys, k, q);
    }
  }

  lemma {:induction false} NoBucket<K>(es: seq<Entry>, bucket: Entry -> Option<K>, q: Entry -> bool)
    ensures Count(es, And(InOneOf(bucket, {}), q)) == 0
  {
    if es != [] {
      NoBucket(Front(es), bucket, q);
    }
  }

  /** Summing bucket counts over a set of keys counts the entries of those buckets. */
  lemma {:induction false} SumOfBuckets<K>(es: seq<Entry>, bucket: Entry -> Option<K>, keys: set<K>, q: Entry -> bool, f: K -> int)
    requires forall k | k in keys :: f(k) == Count(es, And(InBucket(bucket, k), q))
    ensures Sum(keys, f) == Count(es, And(InOneOf(bucket, keys), q))
    decreases keys
  {
    if keys == {} {
      NoBucket(es, bucket, q);
    } else {
      var k :| k in keys;
      SumPick(keys, f, k);
      SplitBucket(es, bucket, keys, k, q);
      SumOfBuckets(es, bucket, keys - {k}, q, f);
    }
  }

  predicate Anything(e: Entry) {
    true
  }

  /** The entries whose bucket meets p. */
  function Bucketed<K>(bucket: Entry -> Option<K>, p: K -> bool): Entry -> bool {
    (e: Entry) => bucket(e).Some? && p(bucket(e).value)
  }

  lemma SelectedCovers<K(!new)>(m: map<K, FailureRate>, es: seq<Entry>, bucket: Entry -> Option<K>, p: K -> bool, q: Entry -> bool)
    requires Tallied(m, es, bucket)
    ensures Count(es, And(InOneOf(bucket, Selected(m, p)), q)) == Count(es, And(Bucketed(bucket, p), q))
  {
    forall i | 0 <= i < |es| && bucket(es[i]).Some? ensures bucket(es[i]).value in m {
      CountPositive(es, InBucket(bucket, bucket(es[i]).value), i);
    }
    CountSame(es, And(InOneOf(bucket, Selected(m, p)), q), And(Bucketed(bucket, p), q));
  }

  /** Group, then sum: over a tallied map the sums of the selected buckets are the direct counts. */
  lemma GroupThenSum<K(!new)>(m: map<K, FailureRate>, es: seq<Entry>, bucket: Entry -> Option<K>, p: K -> bool)
    requires Tallied(m, es, bucket)
    ensures Sum(Selected(m, p), Totals(m)) == Count(es, Bucketed(bucket, p))
    ensures Sum(Selected(m, p), Fails(m)) == Count(es, And(Bucketed(bucket, p), IsFailure))
  {
    forall k | k in Selected(m, p) ensures Totals(m)(k) == Count(es, And(InBucket(bucket, k), Anything)) {
      CountSame(es, InBucket(bucket, k), And(InBucket(bucket, k), Anything));
    }
    SumOfBuckets(es, bucket, Selected(m, p), Anything, Totals(m));
    SelectedCovers(m, es, bucket, p, Anything);
    CountSame(es, And(Bucketed(bucket, p), Anything), Bucketed(bucket, p));
    SumOfBuckets(es, bucket, Selected(m, p), IsFailure, Fails(m));
    SelectedCovers(m, es, bucket, p, IsFailure);
  }
}
