/** Counting the elements of a sequence that have a property. */
module Counts {
  import opened Common

  function Count<T>(ts: seq<T>, p: T -> bool): nat {
    if ts == [] then 0 else Count(Front(ts), p) + if p(Last(ts)) then 1 else 0
  }

  lemma CountSnoc<T>(ts: seq<T>, x: T, p: T -> bool)
    ensures Count(ts + [x], p) == Count(ts, p) + if p(x) then 1 else 0
  {
    assert Front(ts + [x]) == ts;
  }

  lemma {:induction false} CountSame<T>(ts: seq<T>, p: T -> bool, q: T -> bool)
    requires forall i | 0 <= i < |ts| :: p(ts[i]) == q(ts[i])
    ensures Count(ts, p) == Count(ts, q)
  {
    if ts != [] {
      assert forall i | 0 <= i < |Front(ts)| :: Front(ts)[i] == ts[i];
      CountSame(Front(ts), p, q);
    }
  }

  lemma {:induction false} CountAtMost<T>(ts: seq<T>, p: T -> bool, q: T -> bool)
    requires forall i | 0 <= i < |ts| && p(ts[i]) :: q(ts[i])
    ensures Count(ts, p) <= Count(ts, q)
  {
    if ts != [] {
      assert forall i | 0 <= i < |Front(ts)| :: Front(ts)[i] == ts[i];
      CountAtMost(Front(ts), p, q);
    }
  }

  lemma {:induction false} CountPositive<T>(ts: seq<T>, p: T -> bool, i: nat)
    requires i < |ts| && p(ts[i])
    ensures Count(ts, p) > 0
  {
    if i < |ts| - 1 {
      CountPositive(Front(ts), p, i);
    }
  }
}
