/**
  Weighted sums over sequences. The concurrent models keep one entry per call, per subscription
  or per context; a shared counter is then compared with the sum of what each entry contributes.
 */
module Totals {

  ghost function Total<T(!new)>(weight: T -> nat, s: seq<T>): nat {
    if |s| == 0 then 0 else Total(weight, s[..|s| - 1]) + weight(s[|s| - 1])
  }

  lemma {:induction false} TotalUpdate<T(!new)>(weight: T -> nat, s: seq<T>, i: nat, x: T)
    requires i < |s|
    ensures Total(weight, s[i := x]) + weight(s[i]) == Total(weight, s) + weight(x)
  {
    var n := |s| - 1;
    if i == n {
      assert s[i := x][..n] == s[..n];
    } else {
      TotalUpdate(weight, s[..n], i, x);
      assert s[i := x][..n] == s[..n][i := x];
    }
  }

  lemma TotalAppend<T(!new)>(weight: T -> nat, s: seq<T>, x: T)
    ensures Total(weight, s + [x]) == Total(weight, s) + weight(x)
  {
    assert (s + [x])[..|s|] == s;
  }

  /** The sum is zero exactly when every entry weighs nothing. */
  lemma {:induction false} TotalIsZero<T(!new)>(weight: T -> nat, s: seq<T>)
    ensures Total(weight, s) == 0 <==> forall i :: 0 <= i < |s| ==> weight(s[i]) == 0
  {
    if |s| > 0 {
      var n := |s| - 1;
      TotalIsZero(weight, s[..n]);
      if forall i :: 0 <= i < n ==> weight(s[..n][i]) == 0 {
        assert forall i :: 0 <= i < n ==> weight(s[i]) == weight(s[..n][i]);
      } else {
        var i :| 0 <= i < n && weight(s[..n][i]) != 0;
        assert weight(s[i]) != 0;
      }
    }
  }

  lemma {:induction false} TotalAtLeast<T(!new)>(weight: T -> nat, s: seq<T>, i: nat)
    requires i < |s|
    ensures weight(s[i]) <= Total(weight, s)
  {
    var n := |s| - 1;
    if i < n {
      TotalAtLeast(weight, s[..n], i);
    }
  }

  lemma {:induction false} TotalRemove<T(!new)>(weight: T -> nat, s: seq<T>, i: nat)
    requires i < |s|
    ensures Total(weight, s[..i] + s[i + 1..]) + weight(s[i]) == Total(weight, s)
  {
    var n := |s| - 1;
    if i == n {
      assert s[..i] + s[i + 1..] == s[..n];
    } else {
      TotalRemove(weight, s[..n], i);
      assert (s[..i] + s[i + 1..])[..n - 1] == s[..n][..i] + s[..n][i + 1..];
    }
  }
}
