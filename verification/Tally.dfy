/** Sums over the tasks of a protocol state. */
module Tally {

  function Sum<T>(items: seq<T>, weight: T -> nat): nat {
    if items == [] then 0 else weight(items[0]) + Sum(items[1..], weight)
  }

  /** Replacing one item changes the sum by the difference of the two weights. */
  lemma {:induction false} SumUpdate<T>(items: seq<T>, weight: T -> nat, i: nat, item: T)
    requires i < |items|
    ensures Sum(items[i := item], weight) + weight(items[i]) == Sum(items, weight) + weight(item)
  {
    if i == 0 {
      assert items[0 := item][1..] == items[1..];
    } else {
      assert items[i := item][1..] == items[1..][i - 1 := item];
      SumUpdate(items[1..], weight, i - 1, item);
    }
  }

  lemma {:induction false} SumBoundsOne<T>(items: seq<T>, weight: T -> nat, i: nat)
    requires i < |items|
    ensures weight(items[i]) <= Sum(items, weight)
  {
    if i > 0 {
      SumBoundsOne(items[1..], weight, i - 1);
    }
  }

  lemma {:induction false} SumBoundsTwo<T>(items: seq<T>, weight: T -> nat, i: nat, j: nat)
    requires i < j < |items|
    ensures weight(items[i]) + weight(items[j]) <= Sum(items, weight)
  {
    if i == 0 {
      SumBoundsOne(items[1..], weight, j - 1);
    } else {
      SumBoundsTwo(items[1..], weight, i - 1, j - 1);
    }
  }

  lemma {:induction false} SumOfZeros<T>(items: seq<T>, weight: T -> nat)
    requires forall i :: 0 <= i < |items| ==> weight(items[i]) == 0
    ensures Sum(items, weight) == 0
  {
    if items != [] {
      assert forall i :: 0 <= i < |items[1..]| ==> items[1..][i] == items[i + 1];
      SumOfZeros(items[1..], weight);
    }
  }

  lemma {:induction false} SumAtMost<T>(items: seq<T>, weight: T -> nat, bound: nat)
    requires forall i :: 0 <= i < |items| ==> weight(items[i]) <= bound
    ensures Sum(items, weight) <= bound * |items|
  {
    if items != [] {
      assert forall i :: 0 <= i < |items[1..]| ==> items[1..][i] == items[i + 1];
      SumAtMost(items[1..], weight, bound);
      assert bound * |items| == bound * |items[1..]| + bound;
    }
  }

  lemma {:induction false} SomePositive<T>(items: seq<T>, weight: T -> nat) returns (i: nat)
    requires Sum(items, weight) > 0
    ensures i < |items| && weight(items[i]) > 0
  {
    if weight(items[0]) > 0 {
      i := 0;
    } else {
      i := SomePositive(items[1..], weight);
      i := i + 1;
    }
  }
}
