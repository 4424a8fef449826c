/** Finite sums over real sequences: the reductions every training loop performs
    over training points and over hidden units. */
module Sums {

  /** The sum of the elements of `s`. */
  function Sum(s: seq<real>): real
  {
    if |s| == 0 then 0.0 else s[0] + Sum(s[1..])
  }

  /** A sum of non-negative terms is non-negative, and it is zero exactly when
      every term is zero. */
  lemma {:induction false} SumNonneg(s: seq<real>)
    requires forall i :: 0 <= i < |s| ==> s[i] >= 0.0
    ensures Sum(s) >= 0.0
    ensures Sum(s) == 0.0 <==> forall i :: 0 <= i < |s| ==> s[i] == 0.0
  {
    if |s| > 0 {
      SumNonneg(s[1..]);
      if Sum(s) == 0.0 {
        forall i | 0 <= i < |s| ensures s[i] == 0.0 {
          if i > 0 {
            assert s[i] == s[1..][i - 1];
          }
        }
      }
    }
  }

  /** A sum of zeros is zero. */
  lemma {:induction false} SumZero(s: seq<real>)
    requires forall i :: 0 <= i < |s| ==> s[i] == 0.0
    ensures Sum(s) == 0.0
  {
    if |s| > 0 {
      SumZero(s[1..]);
    }
  }

  /** Sums are linear: a termwise combination `a + h*b + k*q` sums to the same
      combination of the sums. */
  lemma {:induction false} SumCombine(a: seq<real>, b: seq<real>, q: seq<real>, c: seq<real>, h: real, k: real)
    requires |a| == |b| == |q| == |c|
    requires forall i :: 0 <= i < |c| ==> c[i] == a[i] + h * b[i] + k * q[i]
    ensures Sum(c) == Sum(a) + h * Sum(b) + k * Sum(q)
  {
    if |c| > 0 {
      SumCombine(a[1..], b[1..], q[1..], c[1..], h, k);
    }
  }

  /** Sums agree on sequences that agree termwise. */
  lemma {:induction false} SumCongruent(a: seq<real>, c: seq<real>)
    requires |a| == |c|
    requires forall i :: 0 <= i < |c| ==> c[i] == a[i]
    ensures Sum(c) == Sum(a)
  {
    assert a == c;
  }

  /** Changing one term by `d` changes the sum by `d`. */
  lemma {:induction false} SumBump(a: seq<real>, c: seq<real>, k: nat, d: real)
    requires |a| == |c| && k < |a|
    requires c[k] == a[k] + d
    requires forall i :: 0 <= i < |c| && i != k ==> c[i] == a[i]
    ensures Sum(c) == Sum(a) + d
  {
    if k == 0 {
      SumCongruent(a[1..], c[1..]);
    } else {
      SumBump(a[1..], c[1..], k - 1, d);
    }
  }

  /** A sum whose terms are zero except at k is its term at k. */
  lemma {:induction false} SumSingle(s: seq<real>, k: nat)
    requires k < |s|
    requires forall i :: 0 <= i < |s| && i != k ==> s[i] == 0.0
    ensures Sum(s) == s[k]
  {
    var z := seq(|s|, i requires 0 <= i < |s| => 0.0);
    SumZero(z);
    SumBump(z, s, k, s[k]);
  }
}
