/** Sums over the elements of a sequence. */
module Sums {

  function Total<T>(items: seq<T>, weight: T -> nat): nat {
    if |items| == 0 then 0 else Total(items[..|items| - 1], weight) + weight(items[|items| - 1])
  }

  lemma {:induction false} TotalUpdate<T>(items: seq<T>, i: nat, item: T, weight: T -> nat)
    requires i < |items|
    ensures Total(items[i := item], weight) + weight(items[i]) == Total(items, weight) + weight(item)
  {
    var last := |items| - 1;
    if i == last {
      assert items[i := item][..last] == items[..last];
    } else {
      assert items[i := item][..last] == items[..last][i := item];
      TotalUpdate(items[..last], i, item, weight);
    }
  }

  lemma {:induction false} TotalBound<T>(items: seq<T>, weight: T -> nat, bound: nat)
    requires forall i :: 0 <= i < |items| ==> weight(items[i]) <= bound
    ensures Total(items, weight) <= bound * |items|
  {
    if |items| > 0 {
      TotalBound(items[..|items| - 1], weight, bound);
    }
  }

  lemma {:induction false} TotalZero<T>(items: seq<T>, weight: T -> nat)
    requires forall i :: 0 <= i < |items| ==> weight(items[i]) == 0
    ensures Total(items, weight) == 0
  {
    if |items| > 0 {
      TotalZero(items[..|items| - 1], weight);
    }
  }

  lemma {:induction false} TotalAtMostOne<T>(items: seq<T>, weight: T -> nat)
    requires forall i :: 0 <= i < |items| ==> weight(items[i]) <= 1
    requires forall i, j :: 0 <= i < j < |items| ==> weight(items[i]) == 0 || weight(items[j]) == 0
    ensures Total(items, weight) <= 1
  {
    if |items| > 0 {
      var last := |items| - 1;
      if weight(items[last]) == 0 {
        TotalAtMostOne(items[..last], weight);
      } else {
        TotalZero(items[..last], weight);
      }
    }
  }

  lemma {:induction false} TotalMonotone<T>(items: seq<T>, lower: T -> nat, upper: T -> nat)
    requires forall i :: 0 <= i < |items| ==> lower(items[i]) <= upper(items[i])
    ensures Total(items, lower) <= Total(items, upper)
  {
    if |items| > 0 {
      TotalMonotone(items[..|items| - 1], lower, upper);
    }
  }

  lemma {:induction false} TotalPositive<T>(items: seq<T>, weight: T -> nat) returns (i: nat)
    requires Total(items, weight) > 0
    ensures i < |items| && weight(items[i]) > 0
  {
    var last := |items| - 1;
    if weight(items[last]) > 0 {
      i := last;
    } else {
      i := TotalPositive(items[..last], weight);
    }
  }

  lemma {:induction false} TotalAtLeast<T>(items: seq<T>, i: nat, weight: T -> nat)
    requires i < |items|
    ensures Total(items, weight) >= weight(items[i])
  {
    if i < |items| - 1 {
      TotalAtLeast(items[..|items| - 1], i, weight);
    }
  }

  lemma {:induction false} TotalAtLeastBoth<T>(items: seq<T>, i: nat, j: nat, weight: T -> nat)
    requires i < j < |items|
    ensures Total(items, weight) >= weight(items[i]) + weight(items[j])
  {
    if j < |items| - 1 {
      TotalAtLeastBoth(items[..|items| - 1], i, j, weight);
    } else {
      TotalAtLeast(items[..j], i, weight);
    }
  }
}
