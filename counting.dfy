/**
 * Counting the `true` values of a sequence of booleans: the
 * `.filter((value) => value === true).length` idiom used by the prediction
 * engine, stated once and shared by the condition and symptom counts.
 */
module Counting {

  /** 1 for a selected flag, 0 otherwise. */
  function Indicator(b: bool): nat {
    if b then 1 else 0
  }

  /** Number of `true` values in `bs`. */
  function CountTrue(bs: seq<bool>): (n: nat)
    ensures n <= |bs|
    ensures n == 0 ==> true !in bs
    ensures n == |bs| ==> false !in bs
  {
    if bs == [] then 0 else Indicator(bs[0]) + CountTrue(bs[1..])
  }

  lemma {:induction false} CountTrueAppend(a: seq<bool>, b: seq<bool>)
    ensures CountTrue(a + b) == CountTrue(a) + CountTrue(b)
  {
    if a == [] {
      assert a + b == b;
    } else {
      assert (a + b)[1..] == a[1..] + b;
      CountTrueAppend(a[1..], b);
    }
  }

  /** The count is zero exactly when no value is `true`. */
  lemma {:induction false} CountTrueZeroIff(bs: seq<bool>)
    ensures CountTrue(bs) == 0 <==> true !in bs
  {
    if bs != [] {
      CountTrueZeroIff(bs[1..]);
      assert bs == [bs[0]] + bs[1..];
    }
  }

  /** The count equals the length exactly when every value is `true`. */
  lemma {:induction false} CountTrueFullIff(bs: seq<bool>)
    ensures CountTrue(bs) == |bs| <==> false !in bs
  {
    if bs != [] {
      CountTrueFullIff(bs[1..]);
      assert bs == [bs[0]] + bs[1..];
    }
  }

  /** Replacing one value changes the count by the difference of the two indicators. */
  lemma {:induction false} CountTrueUpdate(bs: seq<bool>, i: nat, b: bool)
    requires i < |bs|
    ensures CountTrue(bs[i := b]) == CountTrue(bs) - Indicator(bs[i]) + Indicator(b)
  {
    if i == 0 {
      assert bs[i := b][1..] == bs[1..];
    } else {
      assert bs[i := b][1..] == bs[1..][i - 1 := b];
      CountTrueUpdate(bs[1..], i - 1, b);
    }
  }
}
