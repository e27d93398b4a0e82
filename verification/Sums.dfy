/** Sums of integer sequences. */
module Sums {

  function Sum(v: seq<int>): int { if v == [] then 0 else v[0] + Sum(v[1..]) }

  lemma {:induction false} Update(v: seq<int>, i: nat, x: int)
    requires i < |v|
    ensures Sum(v[i := x]) == Sum(v) - v[i] + x
  {
    if i == 0 {
      assert v[0 := x][1..] == v[1..];
    } else {
      assert v[i := x][1..] == v[1..][i - 1 := x];
      Update(v[1..], i - 1, x);
    }
  }

  lemma {:induction false} NonNegative(v: seq<int>)
    requires forall j :: 0 <= j < |v| ==> v[j] >= 0
    ensures Sum(v) >= 0
    ensures Sum(v) == 0 ==> forall j :: 0 <= j < |v| ==> v[j] == 0
  {
    if v != [] { NonNegative(v[1..]); }
  }

  lemma {:induction false} Zero(v: seq<int>)
    requires forall j :: 0 <= j < |v| ==> v[j] == 0
    ensures Sum(v) == 0
  {
    if v != [] { Zero(v[1..]); }
  }
}
