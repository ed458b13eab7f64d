/**
 * The `accuracy` helper of the AdaBoost utilities: the mean of the
 * element-wise equality indicator of predicted and true labels.
 */
module Utils {

  /** The positions at which two label sequences agree. */
  function MatchIndices<T(==)>(a: seq<T>, b: seq<T>): set<nat>
    requires |a| == |b|
  {
    set i: nat | i < |a| && a[i] == b[i]
  }

  /** The number of positions at which `a` and `b` agree, counted over prefixes. */
  function Matches<T(==)>(a: seq<T>, b: seq<T>): (c: nat)
    requires |a| == |b|
    ensures c <= |a|
    ensures c == |a| <==> a == b
    ensures c == 0 <==> forall i :: 0 <= i < |a| ==> a[i] != b[i]
  {
    if |a| == 0 then 0
    else
      var n := |a| - 1;
      assert a == a[..n] + [a[n]] && b == b[..n] + [b[n]];
      Matches(a[..n], b[..n]) + (if a[n] == b[n] then 1 else 0)
  }

  /** The count agrees with the cardinality of the set of matching positions. */
  lemma {:induction false} MatchesCountsIndices<T>(a: seq<T>, b: seq<T>)
    requires |a| == |b|
    ensures Matches(a, b) == |MatchIndices(a, b)|
  {
    if |a| > 0 {
      var n := |a| - 1;
      MatchesCountsIndices(a[..n], b[..n]);
      var prefix := MatchIndices(a[..n], b[..n]);
      if a[n] == b[n] {
        assert MatchIndices(a, b) == prefix + {n};
      } else {
        assert MatchIndices(a, b) == prefix;
      }
    }
  }

  /** `accuracy(y_pred, y_true)`: the fraction of positions where the prediction is right. */
  function Accuracy<T(==)>(yPred: seq<T>, yTrue: seq<T>): (r: real)
    requires |yPred| == |yTrue| > 0
    ensures 0.0 <= r <= 1.0
  {
    Matches(yPred, yTrue) as real / |yPred| as real
  }

  /** The accuracy is the number of matching indices divided by the length. */
  lemma AccuracyIsMatchFraction<T>(yPred: seq<T>, yTrue: seq<T>)
    requires |yPred| == |yTrue| > 0
    ensures Accuracy(yPred, yTrue) == |MatchIndices(yPred, yTrue)| as real / |yPred| as real
  {
    MatchesCountsIndices(yPred, yTrue);
  }

  /** The accuracy is exactly 1 iff the two sequences are identical. */
  lemma AccuracyOneIff<T>(yPred: seq<T>, yTrue: seq<T>)
    requires |yPred| == |yTrue| > 0
    ensures Accuracy(yPred, yTrue) == 1.0 <==> yPred == yTrue
  {
    FractionIsOne(Matches(yPred, yTrue) as real, |yPred| as real);
  }

  /** The accuracy is exactly 0 iff no position matches. */
  lemma AccuracyZeroIff<T>(yPred: seq<T>, yTrue: seq<T>)
    requires |yPred| == |yTrue| > 0
    ensures Accuracy(yPred, yTrue) == 0.0 <==>
              forall i :: 0 <= i < |yPred| ==> yPred[i] != yTrue[i]
  {
    FractionIsZero(Matches(yPred, yTrue) as real, |yPred| as real);
  }

  /** Over a positive denominator, a fraction is 1 exactly when its numerator equals the denominator. */
  lemma FractionIsOne(m: real, n: real)
    requires n > 0.0
    ensures m / n == 1.0 <==> m == n
  {
    if m / n == 1.0 {
      assert m == (m / n) * n;
    }
  }

  /** Over a positive denominator, a fraction is 0 exactly when its numerator is 0. */
  lemma FractionIsZero(m: real, n: real)
    requires n > 0.0
    ensures m / n == 0.0 <==> m == 0.0
  {
    if m / n == 0.0 {
      assert m == (m / n) * n;
    }
  }

  /** Swapping the two sequences does not change the number of agreeing positions. */
  lemma {:induction false} MatchesSymmetric<T>(a: seq<T>, b: seq<T>)
    requires |a| == |b|
    ensures Matches(a, b) == Matches(b, a)
  {
    if |a| > 0 {
      MatchesSymmetric(a[..|a| - 1], b[..|b| - 1]);
    }
  }

  /** Swapping the predicted and the true labels does not change the accuracy. */
  lemma AccuracySymmetric<T>(yPred: seq<T>, yTrue: seq<T>)
    requires |yPred| == |yTrue| > 0
    ensures Accuracy(yPred, yTrue) == Accuracy(yTrue, yPred)
  {
    MatchesSymmetric(yPred, yTrue);
  }
}
