/**
 * The training state of the `NaiveBayes` classifier: its smoothing constant,
 * the shape of the training data, the distinct labels and the
 * Laplace-smoothed prior probability of each label.
 *
 * Probabilities are exact `real`s; counts are `nat`s.
 */
module NaiveBayes {
  import opened Wrappers

  /** The errors the source and its intended division raise on the paths modelled here. */
  datatype Error =
    | NoneNotIterable    // `for label in self.labels` while `labels` is still `None`
    | ZeroDivision       // a prior whose denominator `N + |labels|*lb` is zero
    | NumberNotCallable  // `(count + lb)(N + |labels|*lb)`: a number applied as a function

  /** A two-dimensional feature array with its shape. */
  datatype Matrix = Matrix(rows: nat, cols: nat, cells: seq<seq<real>>)
  {
    /** The shape agrees with the cells: `rows` rows of `cols` values each. */
    predicate WellShaped() {
      |cells| == rows && forall i :: 0 <= i < |cells| ==> |cells[i]| == cols
    }
  }

  // ---------------------------------------------------------------------
  // Counting

  /** The number of occurrences of `v` in `s` (`len(np.where(s == v)[0])`). */
  function Count<T(==)>(s: seq<T>, v: T): (c: nat)
    ensures c <= |s|
    ensures c == 0 <==> v !in s
  {
    if |s| == 0 then 0
    else
      var n := |s| - 1;
      assert s == s[..n] + [s[n]];
      Count(s[..n], v) + (if s[n] == v then 1 else 0)
  }

  /** `Count` agrees with the multiplicity of `v` in the multiset of `s`. */
  lemma {:induction false} CountIsMultiplicity<T>(s: seq<T>, v: T)
    ensures Count(s, v) == multiset(s)[v]
  {
    if |s| > 0 {
      var n := |s| - 1;
      CountIsMultiplicity(s[..n], v);
      assert s == s[..n] + [s[n]];
    }
  }

  /** Appending one value adds one to its own count and leaves every other count alone. */
  lemma CountSnoc<T>(s: seq<T>, x: T, v: T)
    ensures Count(s + [x], v) == Count(s, v) + (if x == v then 1 else 0)
  {
    assert (s + [x])[..|s|] == s;
  }

  /** No element occurs twice. */
  predicate NoDuplicates<T(==)>(s: seq<T>) {
    forall i, j :: 0 <= i < j < |s| ==> s[i] != s[j]
  }

  /** `labels` lists each value occurring in `y` exactly once and nothing else. */
  predicate LabelsOf<T(==)>(y: seq<T>, labels: seq<T>) {
    && NoDuplicates(labels)
    && (forall i :: 0 <= i < |labels| ==> labels[i] in y)
    && (forall j :: 0 <= j < |y| ==> y[j] in labels)
  }

  /** A value of a duplicate-free sequence occurs in it exactly once. */
  lemma {:induction false} CountDistinct<T>(s: seq<T>, x: T)
    requires NoDuplicates(s)
    ensures Count(s, x) == if x in s then 1 else 0
  {
    if |s| > 0 {
      var n := |s| - 1;
      assert s == s[..n] + [s[n]];
      CountDistinct(s[..n], x);
      if s[n] == x {
        assert x !in s[..n];
      }
    }
  }

  /** The label counts of `y`, summed over `labels`. */
  function SumCounts<T(==)>(y: seq<T>, labels: seq<T>): nat
  {
    if |labels| == 0 then 0
    else SumCounts(y, labels[..|labels| - 1]) + Count(y, labels[|labels| - 1])
  }

  /** Appending `x` to `y` adds the number of times `x` is listed in `labels`. */
  lemma {:induction false} SumCountsSnoc<T>(y: seq<T>, x: T, labels: seq<T>)
    ensures SumCounts(y + [x], labels) == SumCounts(y, labels) + Count(labels, x)
  {
    if |labels| > 0 {
      var n := |labels| - 1;
      SumCountsSnoc(y, x, labels[..n]);
      CountSnoc(y, x, labels[n]);
    }
  }

  /** When `labels` lists every value of `y` once, the label counts add up to `|y|`. */
  lemma {:induction false} SumCountsCovers<T>(y: seq<T>, labels: seq<T>)
    requires NoDuplicates(labels)
    requires forall j :: 0 <= j < |y| ==> y[j] in labels
    ensures SumCounts(y, labels) == |y|
  {
    if |y| > 0 {
      var n := |y| - 1;
      assert y == y[..n] + [y[n]];
      SumCountsCovers(y[..n], labels);
      SumCountsSnoc(y[..n], y[n], labels);
      CountDistinct(labels, y[n]);
    } else {
      SumCountsOfEmpty(y, labels);
    }
  }

  /** Nothing occurs in an empty label vector. */
  lemma {:induction false} SumCountsOfEmpty<T>(y: seq<T>, labels: seq<T>)
    requires |y| == 0
    ensures SumCounts(y, labels) == 0
  {
    if |labels| > 0 {
      SumCountsOfEmpty(y, labels[..|labels| - 1]);
    }
  }

  // ---------------------------------------------------------------------
  // Laplace-smoothed priors

  /** The prior's denominator `N + |labels| * lb`. */
  function Denominator(n: nat, k: nat, lb: real): real {
    n as real + k as real * lb
  }

  /** The smoothed prior `(Count(y, l) + lb) / d` of each label, in the order of `labels`. */
  function Smoothed<T(==)>(y: seq<T>, labels: seq<T>, lb: real, d: real): (ps: seq<real>)
    requires d != 0.0 || |labels| == 0
    ensures |ps| == |labels|
  {
    if |labels| == 0 then []
    else
      var n := |labels| - 1;
      Smoothed(y, labels[..n], lb, d) + [(Count(y, labels[n]) as real + lb) / d]
  }

  /** The priors `_compute_prior_probs` appends, for a training set of `n` rows. */
  function Priors<T(==)>(y: seq<T>, labels: seq<T>, n: nat, lb: real): seq<real>
    requires Denominator(n, |labels|, lb) != 0.0
  {
    Smoothed(y, labels, lb, Denominator(n, |labels|, lb))
  }

  /** The sum of a sequence of reals. */
  function Sum(s: seq<real>): real {
    if |s| == 0 then 0.0 else Sum(s[..|s| - 1]) + s[|s| - 1]
  }

  /** Entry `i` is the smoothed prior of `labels[i]`. */
  lemma {:induction false} SmoothedAt<T>(y: seq<T>, labels: seq<T>, lb: real, d: real, i: nat)
    requires d != 0.0 && i < |labels|
    ensures Smoothed(y, labels, lb, d)[i] == (Count(y, labels[i]) as real + lb) / d
  {
    var n := |labels| - 1;
    if i < n {
      SmoothedAt(y, labels[..n], lb, d, i);
    }
  }

  /** The sum of the smoothed numerators `Count(y, l) + lb` over `labels`. */
  function Mass<T(==)>(y: seq<T>, labels: seq<T>, lb: real): real {
    if |labels| == 0 then 0.0
    else Mass(y, labels[..|labels| - 1], lb) + (Count(y, labels[|labels| - 1]) as real + lb)
  }

  /** The numerators add up to the label counts plus `lb` once per label. */
  lemma {:induction false} MassIsCountsPlusSmoothing<T>(y: seq<T>, labels: seq<T>, lb: real)
    ensures Mass(y, labels, lb) == SumCounts(y, labels) as real + |labels| as real * lb
  {
    if |labels| > 0 {
      var n := |labels| - 1;
      MassIsCountsPlusSmoothing(y, labels[..n], lb);
      OneMoreLabel(|labels[..n]|, |labels|, lb);
    }
  }

  /** One more label adds one more `lb` to the smoothing mass. */
  lemma OneMoreLabel(k: nat, count: nat, lb: real)
    requires count == k + 1
    ensures count as real * lb == k as real * lb + lb
  {
  }

  /** The smoothed priors add up to the numerators' sum over `d`. */
  lemma {:induction false} SumSmoothedIsMass<T>(y: seq<T>, labels: seq<T>, lb: real, d: real)
    requires d != 0.0
    ensures Sum(Smoothed(y, labels, lb, d)) == Mass(y, labels, lb) / d
  {
    if |labels| > 0 {
      var n := |labels| - 1;
      var ps := Smoothed(y, labels, lb, d);
      assert ps[..n] == Smoothed(y, labels[..n], lb, d);
      SumSmoothedIsMass(y, labels[..n], lb, d);
      DivAdd(Mass(y, labels[..n], lb), Count(y, labels[n]) as real + lb, d);
    }
  }

  /** The smoothed priors add up to `(SumCounts + |labels| * lb) / d`. */
  lemma SumSmoothed<T>(y: seq<T>, labels: seq<T>, lb: real, d: real)
    requires d != 0.0
    ensures Sum(Smoothed(y, labels, lb, d)) == (SumCounts(y, labels) as real + |labels| as real * lb) / d
  {
    SumSmoothedIsMass(y, labels, lb, d);
    MassIsCountsPlusSmoothing(y, labels, lb);
  }

  /** Fractions over a common non-zero denominator add by their numerators. */
  lemma DivAdd(a: real, b: real, d: real)
    requires d != 0.0
    ensures a / d + b / d == (a + b) / d
  {
  }

  /** A numerator between 0 and a positive denominator gives a fraction in [0, 1]. */
  lemma DivInUnitInterval(a: real, d: real)
    requires 0.0 <= a <= d && d > 0.0
    ensures 0.0 <= a / d <= 1.0
  {
  }

  /** With `N = |y|` and distinct labels covering `y`, the priors sum to 1. */
  lemma PriorsSumToOne<T>(y: seq<T>, labels: seq<T>, lb: real)
    requires LabelsOf(y, labels)
    requires Denominator(|y|, |labels|, lb) != 0.0
    ensures Sum(Priors(y, labels, |y|, lb)) == 1.0
  {
    var d := Denominator(|y|, |labels|, lb);
    SumSmoothed(y, labels, lb, d);
    SumCountsCovers(y, labels);
  }

  /** A count of at most `n`, smoothed by `lb >= 0` over `k >= 1` labels, lies in [0, 1]. */
  lemma SmoothedCountBounded(c: nat, n: nat, k: nat, lb: real)
    requires c <= n && k >= 1 && lb >= 0.0 && Denominator(n, k, lb) > 0.0
    ensures 0.0 <= (c as real + lb) / Denominator(n, k, lb) <= 1.0
  {
    assert lb <= k as real * lb by {
      assert (k - 1) as real * lb >= 0.0;
    }
    DivInUnitInterval(c as real + lb, Denominator(n, k, lb));
  }

  /** With `N = |y|`, `lb >= 0` and a positive denominator, every prior lies in [0, 1]. */
  lemma PriorsInUnitInterval<T>(y: seq<T>, labels: seq<T>, lb: real)
    requires lb >= 0.0 && Denominator(|y|, |labels|, lb) > 0.0
    ensures forall i :: 0 <= i < |labels| ==> 0.0 <= Priors(y, labels, |y|, lb)[i] <= 1.0
  {
    var d := Denominator(|y|, |labels|, lb);
    forall i | 0 <= i < |labels|
      ensures 0.0 <= Priors(y, labels, |y|, lb)[i] <= 1.0
    {
      SmoothedAt(y, labels, lb, d, i);
      SmoothedCountBounded(Count(y, labels[i]), |y|, |labels|, lb);
    }
  }

  /** With `lb > 0`, every label, seen or not, gets a strictly positive prior. */
  lemma PriorsPositive<T>(y: seq<T>, labels: seq<T>, n: nat, lb: real)
    requires lb > 0.0
    ensures Denominator(n, |labels|, lb) > 0.0 || |labels| == 0
    ensures |labels| > 0 ==> forall i :: 0 <= i < |labels| ==> Priors(y, labels, n, lb)[i] > 0.0
  {
    if |labels| > 0 {
      var d := Denominator(n, |labels|, lb);
      assert d > 0.0 by {
        assert |labels| as real * lb > 0.0;
      }
      forall i | 0 <= i < |labels|
        ensures Priors(y, labels, n, lb)[i] > 0.0
      {
        SmoothedAt(y, labels, lb, d, i);
      }
    }
  }

  /** Without smoothing (`lb = 0`), each prior is the label's relative frequency in `y`. */
  lemma PriorsAreFrequencies<T>(y: seq<T>, labels: seq<T>)
    requires |y| > 0
    ensures forall i :: 0 <= i < |labels| ==>
              Priors(y, labels, |y|, 0.0)[i] == multiset(y)[labels[i]] as real / |y| as real
  {
    var d := Denominator(|y|, |labels|, 0.0);
    forall i | 0 <= i < |labels|
      ensures Priors(y, labels, |y|, 0.0)[i] == multiset(y)[labels[i]] as real / |y| as real
    {
      SmoothedAt(y, labels, 0.0, d, i);
      CountIsMultiplicity(y, labels[i]);
    }
  }

  /**
   * A list of priors smoothed by `lb`: it sums to 1, its entries lie in
   * [0, 1] when `lb >= 0`, and they are strictly positive when `lb > 0`.
   */
  ghost predicate IsPriorDistribution(ps: seq<real>, lb: real) {
    && Sum(ps) == 1.0
    && (lb >= 0.0 ==> forall i :: 0 <= i < |ps| ==> 0.0 <= ps[i] <= 1.0)
    && (lb > 0.0 ==> forall i :: 0 <= i < |ps| ==> ps[i] > 0.0)
  }

  /** The three conservation laws together, for priors computed from the labels of `y`. */
  lemma PriorLaws<T>(y: seq<T>, labels: seq<T>, lb: real)
    requires LabelsOf(y, labels) && |labels| > 0 && Denominator(|y|, |labels|, lb) != 0.0
    ensures IsPriorDistribution(Priors(y, labels, |y|, lb), lb)
  {
    PriorsSumToOne(y, labels, lb);
    if lb >= 0.0 {
      assert Denominator(|y|, |labels|, lb) > 0.0 by {
        assert |labels| as real * lb >= 0.0;
      }
      PriorsInUnitInterval(y, labels, lb);
    }
    if lb > 0.0 {
      PriorsPositive(y, labels, |y|, lb);
    }
  }

  /** Extending the label prefix by one label appends that label's prior. */
  lemma SmoothedSnoc<T>(y: seq<T>, labels: seq<T>, lb: real, d: real, i: nat)
    requires d != 0.0 && i < |labels|
    ensures Smoothed(y, labels[..i + 1], lb, d)
              == Smoothed(y, labels[..i], lb, d) + [(Count(y, labels[i]) as real + lb) / d]
  {
    assert labels[..i + 1][..i] == labels[..i];
  }

  // ---------------------------------------------------------------------
  // Distinct labels

  /**
   * `list(set(y))`: the distinct values of `y`, each once. The order comes
   * from draining a set and is left unspecified.
   */
  method DistinctValues<T(==)>(y: seq<T>) returns (labels: seq<T>)
    ensures LabelsOf(y, labels)
  {
    var seen: set<T> := {};
    for i := 0 to |y|
      invariant forall v :: v in seen <==> v in y[..i]
    {
      assert y[..i + 1] == y[..i] + [y[i]];
      seen := seen + {y[i]};
    }
    assert y[..|y|] == y;
    labels := [];
    var rest := seen;
    while rest != {}
      invariant rest <= seen
      invariant NoDuplicates(labels)
      invariant forall v :: v in labels <==> v in seen && v !in rest
      decreases rest
    {
      var v :| v in rest;
      labels := labels + [v];
      rest := rest - {v};
    }
  }

  // ---------------------------------------------------------------------
  // The classifier object

  class NaiveBayes<L(==)> {
    /** The smoothing constant, fixed by the constructor. */
    const lb: real

    /** The number of samples and of features, once initialized. */
    var N: Option<nat>
    var F: Option<nat>

    /** The distinct labels of the training labels, once initialized. */
    var labels: Option<seq<L>>

    /** Prior, conditional and posterior probability lists, once initialized. */
    var priorProbs: Option<seq<real>>
    var condProbs: Option<seq<real>>
    var postProbs: Option<seq<real>>

    /** The indices of the continuous features and their Gaussian parameters. */
    var contFeatIdx: seq<int>
    var contFeatMu: Option<seq<real>>
    var contFeatSigma: Option<seq<real>>

    /** Initialization sets every training field at once, and the labels are distinct. */
    ghost predicate Valid()
      reads this
    {
      && N.Some? == F.Some? == labels.Some?
      && labels.Some? == priorProbs.Some? == condProbs.Some? == postProbs.Some?
      && (labels.Some? ==> NoDuplicates(labels.value))
    }

    /** `NaiveBayes(lb=1)`: stores `lb`; everything else is unset and `cont_feat_idx` is empty. */
    constructor (lb: real := 1.0)
      ensures Valid()
      ensures this.lb == lb
      ensures N == None && F == None && labels == None
      ensures priorProbs == None && condProbs == None && postProbs == None
      ensures contFeatIdx == [] && contFeatMu == None && contFeatSigma == None
    {
      this.lb := lb;
      N, F := None, None;
      labels := None;
      priorProbs, condProbs, postProbs := None, None, None;
      contFeatIdx := [];
      contFeatMu, contFeatSigma := None, None;
    }

    /** `_initialize`: records the shape and the labels and resets the probability lists. */
    method Initialize(X: Matrix, y: seq<L>, contFeatIdx: seq<int>)
      requires X.WellShaped()
      modifies this`N, this`F, this`labels, this`priorProbs, this`condProbs, this`postProbs, this`contFeatIdx
      ensures Valid()
      ensures N == Some(X.rows) && F == Some(X.cols)
      ensures labels.Some? && LabelsOf(y, labels.value)
      ensures priorProbs == Some([]) && condProbs == Some([]) && postProbs == Some([])
      ensures this.contFeatIdx == contFeatIdx
    {
      N, F := Some(X.rows), Some(X.cols);
      var distinct := DistinctValues(y);
      labels := Some(distinct);
      priorProbs, condProbs, postProbs := Some([]), Some([]), Some([]);
      this.contFeatIdx := contFeatIdx;
    }

    /**
     * `_compute_prior_probs`: appends one smoothed prior per label, in the
     * order of `labels`. The source writes the division without its operator;
     * this model divides (see `ComputePriorProbsAsWritten` for the text as written).
     */
    method ComputePriorProbs(y: seq<L>) returns (o: Outcome<Error>)
      requires Valid()
      modifies this`priorProbs
      ensures Valid()
      ensures old(labels).None? ==> o == Fail(NoneNotIterable) && priorProbs == old(priorProbs)
      ensures old(labels).Some? && |labels.value| > 0 && Denominator(N.value, |labels.value|, lb) == 0.0 ==>
                o == Fail(ZeroDivision) && priorProbs == old(priorProbs)
      ensures old(labels).Some? && |labels.value| == 0 ==> o == Pass && priorProbs == old(priorProbs)
      ensures old(labels).Some? && Denominator(N.value, |labels.value|, lb) != 0.0 ==>
                o == Pass && priorProbs == Some(old(priorProbs).value + Priors(y, labels.value, N.value, lb))
      ensures o == Pass && old(priorProbs) == Some([]) && LabelsOf(y, labels.value)
                && N == Some(|y|) && |labels.value| > 0 ==>
                IsPriorDistribution(priorProbs.value, lb)
    {
      if labels.None? {
        return Fail(NoneNotIterable);
      }
      var ls := labels.value;
      var d := Denominator(N.value, |ls|, lb);
      ghost var start := priorProbs.value;
      assert start + Smoothed(y, ls[..0], lb, d) == start;
      for i := 0 to |ls|
        invariant i > 0 ==> d != 0.0
        invariant priorProbs == Some(start + Smoothed(y, ls[..i], lb, d))
      {
        if d == 0.0 {
          return Fail(ZeroDivision);
        }
        var prob := (Count(y, ls[i]) as real + lb) / d;
        SmoothedSnoc(y, ls, lb, d, i);
        assert priorProbs.value + [prob] == start + (Smoothed(y, ls[..i], lb, d) + [prob]);
        priorProbs := Some(priorProbs.value + [prob]);
      }
      o := Pass;
      assert ls[..|ls|] == ls;
      if |ls| == 0 {
        assert priorProbs.value == start + [];
      } else {
        if start == [] && LabelsOf(y, ls) && N == Some(|y|) {
          assert priorProbs.value == Priors(y, ls, |y|, lb) by {
            assert start + Smoothed(y, ls, lb, d) == Smoothed(y, ls, lb, d);
          }
          PriorLaws(y, ls, lb);
        }
      }
    }

    /**
     * `_compute_prior_probs` as the source spells it. Each iteration evaluates
     * the numerator `count + lb` and the parenthesised denominator, and then
     * applies the numerator to the denominator as if it were a function, which
     * raises before anything is appended. The method has no `modifies` clause:
     * no field changes.
     */
    method ComputePriorProbsAsWritten(y: seq<L>) returns (o: Outcome<Error>)
      requires Valid()
      ensures labels.None? ==> o == Fail(NoneNotIterable)
      ensures labels.Some? && |labels.value| == 0 ==> o == Pass
      ensures labels.Some? && |labels.value| > 0 ==> o == Fail(NumberNotCallable)
    {
      if labels.None? {
        return Fail(NoneNotIterable);
      }
      var ls := labels.value;
      for i := 0 to |ls|
        invariant i == 0
      {
        var numerator := Count(y, ls[i]) as real + lb;
        var denominator := Denominator(N.value, |ls|, lb);
        return Fail(NumberNotCallable);
      }
      return Pass;
    }

    /** `fit`: only initializes, so no prior has been computed yet. */
    method Fit(X: Matrix, y: seq<L>, contFeatIdx: seq<int> := [])
      requires X.WellShaped()
      modifies this`N, this`F, this`labels, this`priorProbs, this`condProbs, this`postProbs, this`contFeatIdx
      ensures Valid()
      ensures N == Some(X.rows) && F == Some(X.cols)
      ensures labels.Some? && LabelsOf(y, labels.value)
      ensures priorProbs == Some([]) && condProbs == Some([]) && postProbs == Some([])
      ensures this.contFeatIdx == contFeatIdx
    {
      Initialize(X, y, contFeatIdx);
    }
  }

  /**
   * The source as written against the intended division, for every training
   * state with distinct labels drawn from `y`, `N = |y|`, at least one label
   * and a non-zero denominator: the text as written raises on the first label,
   * while the intended loop passes and appends one prior per label, summing to 1.
   */
  method AsWrittenVersusIntended<L(==)>(nb: NaiveBayes<L>, y: seq<L>)
    returns (asWritten: Outcome<Error>, intended: Outcome<Error>)
    requires nb.Valid() && nb.priorProbs == Some([])
    requires nb.labels.Some? && LabelsOf(y, nb.labels.value) && |nb.labels.value| > 0
    requires nb.N == Some(|y|) && Denominator(|y|, |nb.labels.value|, nb.lb) != 0.0
    modifies nb`priorProbs
    ensures asWritten == Fail(NumberNotCallable)
    ensures intended == Pass
    ensures nb.priorProbs == Some(Priors(y, nb.labels.value, |y|, nb.lb))
    ensures nb.priorProbs.Some? && |nb.priorProbs.value| == |nb.labels.value|
    ensures Sum(nb.priorProbs.value) == 1.0
  {
    asWritten := nb.ComputePriorProbsAsWritten(y);
    intended := nb.ComputePriorProbs(y);
    assert [] + Priors(y, nb.labels.value, |y|, nb.lb) == Priors(y, nb.labels.value, |y|, nb.lb);
  }
}
