/**
 * Reference definitions shared by the scaler, the reporter and the chart:
 * the minimum and maximum of a column, sums, and how often each label occurs.
 */
module Stats {

  /** The smallest value of a non-empty sequence. */
  function SeqMin(s: seq<real>): (m: real)
    requires |s| > 0
    ensures m in s
    ensures forall i :: 0 <= i < |s| ==> m <= s[i]
  {
    if |s| == 1 then s[0]
    else
      var rest := SeqMin(s[..|s| - 1]);
      assert rest in s[..|s| - 1];
      if s[|s| - 1] < rest then s[|s| - 1] else rest
  }

  /** The largest value of a non-empty sequence. */
  function SeqMax(s: seq<real>): (m: real)
    requires |s| > 0
    ensures m in s
    ensures forall i :: 0 <= i < |s| ==> s[i] <= m
  {
    if |s| == 1 then s[0]
    else
      var rest := SeqMax(s[..|s| - 1]);
      assert rest in s[..|s| - 1];
      if s[|s| - 1] > rest then s[|s| - 1] else rest
  }

  /** Sum of a sequence of reals, added front to back. */
  function RealSum(s: seq<real>): real
  {
    if |s| == 0 then 0.0 else RealSum(s[..|s| - 1]) + s[|s| - 1]
  }

  /** Sum of a sequence of naturals, added front to back. */
  function NatSum(s: seq<nat>): nat
  {
    if |s| == 0 then 0 else NatSum(s[..|s| - 1]) + s[|s| - 1]
  }

  /** For each cluster index `c < k`, how many labels equal `c`. */
  function Occurrences(labels: seq<nat>, k: nat): seq<nat>
  {
    seq(k, c => multiset(labels)[c])
  }

  lemma RealSumAppend(s: seq<real>, x: real)
    ensures RealSum(s + [x]) == RealSum(s) + x
  {
  }

  /** A sum of `n` values that all lie in `[lo, hi]` lies in `[n * lo, n * hi]`. */
  lemma {:induction false} RealSumBounds(s: seq<real>, lo: real, hi: real)
    requires forall i :: 0 <= i < |s| ==> lo <= s[i] <= hi
    ensures |s| as real * lo <= RealSum(s) <= |s| as real * hi
  {
    if |s| > 0 {
      RealSumBounds(s[..|s| - 1], lo, hi);
    }
  }

  /** Dividing a value in `[n * lo, n * hi]` by a positive `n` lands in `[lo, hi]`. */
  lemma QuotientBounds(a: real, n: real, lo: real, hi: real)
    requires n > 0.0 && n * lo <= a <= n * hi
    ensures lo <= a / n <= hi
  {
  }

  /** The mean of a non-empty sequence whose values lie in `[lo, hi]` lies in `[lo, hi]`. */
  lemma MeanBetween(s: seq<real>, lo: real, hi: real)
    requires |s| > 0
    requires forall i :: 0 <= i < |s| ==> lo <= s[i] <= hi
    ensures lo <= RealSum(s) / |s| as real <= hi
  {
    RealSumBounds(s, lo, hi);
    QuotientBounds(RealSum(s), |s| as real, lo, hi);
  }

  /** The mean of a non-empty sequence lies between its minimum and its maximum. */
  lemma MeanWithinBounds(s: seq<real>)
    requires |s| > 0
    ensures SeqMin(s) <= RealSum(s) / |s| as real <= SeqMax(s)
  {
    MeanBetween(s, SeqMin(s), SeqMax(s));
  }

  lemma {:induction false} NatSumOfZeros(k: nat)
    ensures NatSum(seq(k, c => 0)) == 0
  {
    if k > 0 {
      assert seq(k, c => 0)[..k - 1] == seq(k - 1, c => 0);
      NatSumOfZeros(k - 1);
    }
  }

  /** Adding one to one entry adds one to the sum. */
  lemma {:induction false} NatSumIncrement(s: seq<nat>, j: nat)
    requires j < |s|
    ensures NatSum(s[j := s[j] + 1]) == NatSum(s) + 1
  {
    var t := s[j := s[j] + 1];
    if j == |s| - 1 {
      assert t[..|t| - 1] == s[..|s| - 1];
    } else {
      assert t[..|t| - 1] == s[..|s| - 1][j := s[j] + 1];
      NatSumIncrement(s[..|s| - 1], j);
    }
  }

  /** Appending one label `l < k` adds one to the occurrence count of `l` and to no other. */
  lemma OccurrencesAppend(labels: seq<nat>, l: nat, k: nat)
    requires l < k
    ensures Occurrences(labels + [l], k) == Occurrences(labels, k)[l := Occurrences(labels, k)[l] + 1]
  {
  }

  /** When every label is below `k`, the occurrence counts of `0..k` add up to the number of labels. */
  lemma {:induction false} OccurrencesSum(labels: seq<nat>, k: nat)
    requires forall i :: 0 <= i < |labels| ==> labels[i] < k
    ensures NatSum(Occurrences(labels, k)) == |labels|
  {
    if |labels| == 0 {
      assert Occurrences(labels, k) == seq(k, c => 0);
      NatSumOfZeros(k);
    } else {
      var init, l := labels[..|labels| - 1], labels[|labels| - 1];
      assert labels == init + [l];
      OccurrencesSum(init, k);
      OccurrencesAppend(init, l, k);
      NatSumIncrement(Occurrences(init, k), l);
    }
  }
}
