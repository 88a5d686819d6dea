/** Sums of reals, compared entry by entry. */
module Sums {
  import opened Schemas

  function Sum(xs: seq<real>): real {
    if xs == [] then 0.0 else Sum(xs[..|xs| - 1]) + xs[|xs| - 1]
  }

  lemma {:induction false} SumAdds(xs: seq<real>, ys: seq<real>, zs: seq<real>)
    requires |xs| == |ys| == |zs|
    requires forall i :: 0 <= i < |xs| ==> zs[i] == xs[i] + ys[i]
    ensures Sum(zs) == Sum(xs) + Sum(ys)
  {
    if xs != [] {
      var n := |xs| - 1;
      SumAdds(xs[..n], ys[..n], zs[..n]);
    }
  }

  lemma {:induction false} SumAtMost(xs: seq<real>, ys: seq<real>)
    requires |xs| == |ys|
    requires forall i :: 0 <= i < |xs| ==> xs[i] <= ys[i]
    ensures Sum(xs) <= Sum(ys)
  {
    if xs != [] {
      var n := |xs| - 1;
      SumAtMost(xs[..n], ys[..n]);
    }
  }

  lemma {:induction false} SumOfZeros(xs: seq<real>)
    requires forall i :: 0 <= i < |xs| ==> xs[i] == 0.0
    ensures Sum(xs) == 0.0
  {
    if xs != [] { SumOfZeros(xs[..|xs| - 1]); }
  }

  lemma SumNonNegative(xs: seq<real>)
    requires forall i :: 0 <= i < |xs| ==> xs[i] >= 0.0
    ensures Sum(xs) >= 0.0
  {
    var zeros := seq(|xs|, _ => 0.0);
    SumOfZeros(zeros);
    SumAtMost(zeros, xs);
  }

  /** A list that is zero everywhere but at `k`. */
  lemma {:induction false} SumOfOne(xs: seq<real>, k: nat)
    requires k < |xs| && forall i :: 0 <= i < |xs| && i != k ==> xs[i] == 0.0
    ensures Sum(xs) == xs[k]
  {
    var n := |xs| - 1;
    if k == n { SumOfZeros(xs[..n]); } else { SumOfOne(xs[..n], k); }
  }

  /** Replacing one entry. */
  lemma SumReplaced(xs: seq<real>, k: nat, y: real)
    requires k < |xs|
    ensures Sum(xs[k := y]) == Sum(xs) + y - xs[k]
  {
    var change := seq(|xs|, i => if i == k then y - xs[k] else 0.0);
    SumAdds(xs, change, xs[k := y]);
    SumOfOne(change, k);
  }

  /** Of entries none negative, each is at most the sum. */
  lemma {:induction false} EntryAtMostSum(xs: seq<real>, k: nat)
    requires k < |xs| && forall i :: 0 <= i < |xs| ==> xs[i] >= 0.0
    ensures xs[k] <= Sum(xs)
  {
    var n := |xs| - 1;
    if k == n { SumNonNegative(xs[..n]); } else { EntryAtMostSum(xs[..n], k); }
  }

  /** If no entry moves by more than its allowance, the sum moves by at most the allowances' sum. */
  lemma {:induction false} SumMoves(xs: seq<real>, ys: seq<real>, allowances: seq<real>)
    requires |xs| == |ys| == |allowances|
    requires forall i :: 0 <= i < |xs| ==> Abs(ys[i] - xs[i]) <= allowances[i]
    ensures Abs(Sum(ys) - Sum(xs)) <= Sum(allowances)
  {
    if xs != [] {
      var n := |xs| - 1;
      SumMoves(xs[..n], ys[..n], allowances[..n]);
    }
  }

  /** How many entries are nonzero, when all nonzero entries are equal. */
  lemma {:induction false} SumOfEqual(xs: seq<real>, marks: seq<bool>, c: real)
    requires |xs| == |marks| && forall i :: 0 <= i < |xs| ==> xs[i] == if marks[i] then c else 0.0
    ensures Sum(xs) == Count(marks) as real * c
  {
    if xs != [] {
      var n := |xs| - 1;
      SumOfEqual(xs[..n], marks[..n], c);
      OneMore(Count(marks[..n]), c);
    }
  }

  lemma OneMore(k: nat, c: real)
    ensures (k + 1) as real * c == k as real * c + c
  {
  }

  function Count(marks: seq<bool>): nat {
    if marks == [] then 0 else Count(marks[..|marks| - 1]) + if marks[|marks| - 1] then 1 else 0
  }

  lemma {:induction false} CountAtMostOne(marks: seq<bool>)
    requires forall i, j :: 0 <= i < j < |marks| ==> !(marks[i] && marks[j])
    ensures Count(marks) <= 1
    ensures (forall i :: 0 <= i < |marks| ==> !marks[i]) ==> Count(marks) == 0
  {
    if marks != [] {
      var n := |marks| - 1;
      CountAtMostOne(marks[..n]);
    }
  }

  lemma {:induction false} CountSome(marks: seq<bool>, k: nat)
    requires k < |marks| && marks[k]
    ensures Count(marks) >= 1
  {
    var n := |marks| - 1;
    if k < n { CountSome(marks[..n], k); }
  }
}
