# Naive Bayes training state and prediction accuracy

This project models two small pieces of a collection of conventional
machine-learning algorithms and proves properties about them:

* the training state of the `NaiveBayes` classifier
  (`NaiveBayes/src/NaiveBayes.py`). The constructor fixes the smoothing
  constant `lb`. `_initialize` records the shape `(N, F)` of the feature
  array and the distinct labels, and resets the probability lists.
  `_compute_prior_probs` appends one Laplace-smoothed prior per label:
  `(count of label in y + lb) / (N + |labels| * lb)`. `fit` only initializes.
* `accuracy` (`AdaBoost/src/utils.py`): the fraction of positions where
  the predicted and the true labels agree.

Files:

* `wrappers.dfy`, module `Wrappers`: `Option` (a field still at `None`)
  and `Outcome` (a step that completes or raises).
* `naive_bayes.dfy`, module `NaiveBayes`: the class
  `NaiveBayes<L>` with the source's fields, the pure specification of the
  priors (`Count`, `Smoothed`, `Priors`, `Sum`) and the lemmas about it.
  Fields the source sets to `None` in the constructor are `Option`s.
  `Valid()` says that `N`, `F`, `labels` and the three probability lists
  become `Some` together; `cont_feat_mu` and `cont_feat_sigma` stay `None`. `lb` is a `const`, so no
  method can change it. `list(set(y))` is the method `DistinctValues`. It
  builds the set of values and drains it in an order the model leaves
  open, because a Python set promises no order.
* `utils.dfy`, module `Utils`: `Accuracy` over a counting function
  `Matches`, with the set of matching indices as its reference definition.

Probabilities are exact `real`s and counts are `nat`s. Because of
`from __future__ import division`, the intended division at
NaiveBayes/src/NaiveBayes.py:71-72 would be a true division, so this choice
loses nothing but floating-point rounding.

Facts about the code that the model keeps:

* The code validates nothing. A negative `lb` is accepted, and so are an
  empty `y` and an `X` whose row count differs from `len(y)`.
* The only arithmetic failure of the intended division is a zero
  denominator, which the model reports as `ZeroDivision`.
* The labels come from a set, so their order is unspecified.
* The classifier is a mutable object whose fields are filled in piece by
  piece, so the model is a class.

## Model

| member | source | states |
|---|---|---|
| `NaiveBayes.NaiveBayes.constructor` | NaiveBayes/src/NaiveBayes.py:29-49 | stores `lb` (default 1). `N`, `F`, `labels` and the three probability lists are unset, `cont_feat_idx` is empty, and `cont_feat_mu`/`cont_feat_sigma` are unset. `lb` is a `const`, so no later method changes it. |
| `NaiveBayes.NaiveBayes.Initialize` | NaiveBayes/src/NaiveBayes.py:51-64 | `N` is the number of rows of `X` and `F` the number of columns. `labels` holds every value of `y` exactly once and nothing else. The prior, conditional and posterior lists are empty, and `cont_feat_idx` is the argument. It changes no other field. |
| `NaiveBayes.DistinctValues` | NaiveBayes/src/NaiveBayes.py:56 | `list(set(y))`: the result has no duplicates, every entry occurs in `y`, and every value of `y` occurs in it. No order is promised. |
| `NaiveBayes.NaiveBayes.ComputePriorProbs` | NaiveBayes/src/NaiveBayes.py:66-75 | Unset `labels` fails (`for` over `None`). Non-empty labels with a zero denominator fail with nothing appended. Otherwise one prior per label is appended to the existing list, in label order, and entry i is the smoothed prior of `labels[i]`. Starting from an empty list with `N = len(y)` and labels from `y`, for non-empty `y`, when the call passes, the new list sums to 1, lies in [0, 1] when `lb >= 0`, and is strictly positive when `lb > 0`. Only `prior_probs` changes. |
| `NaiveBayes.NaiveBayes.Fit` | NaiveBayes/src/NaiveBayes.py:85-91 | `fit` only initializes: it has the same post-state as `Initialize`, and in particular `prior_probs` is still empty. |
| `NaiveBayes.Count` | NaiveBayes/src/NaiveBayes.py:71 | `len(np.where(y == label)[0])` is at most `len(y)`, and it is 0 exactly when the label does not occur in `y`. |
| `NaiveBayes.CountIsMultiplicity` | NaiveBayes/src/NaiveBayes.py:71 | the count of a label equals its multiplicity in the multiset of `y` (an independent definition of "occurrences"). |
| `NaiveBayes.SumCountsCovers` | NaiveBayes/src/NaiveBayes.py:70-71 | when the labels list each value of `y` once, their counts add up to `len(y)`. |
| `NaiveBayes.SmoothedAt` | NaiveBayes/src/NaiveBayes.py:70-73 | entry i of the appended list is `(count of labels[i] in y + lb) / d`, for every i. |
| `NaiveBayes.SumSmoothed` | NaiveBayes/src/NaiveBayes.py:71-72 | the appended priors sum to `(sum of the label counts + len(labels) * lb) / d`. |
| `NaiveBayes.PriorsSumToOne` | NaiveBayes/src/NaiveBayes.py:71-72 | with `N = len(y)`, the labels of `y` and a non-zero denominator, the priors sum to exactly 1, for any `lb`. |
| `NaiveBayes.PriorsInUnitInterval` | NaiveBayes/src/NaiveBayes.py:71-72 | with `N = len(y)`, `lb >= 0` and a positive denominator, each prior lies in [0, 1]. |
| `NaiveBayes.PriorsPositive` | NaiveBayes/src/NaiveBayes.py:71-72 | with `lb > 0` the denominator is positive, and every label gets a strictly positive prior, even one that does not occur in `y`. |
| `NaiveBayes.PriorsAreFrequencies` | NaiveBayes/src/NaiveBayes.py:71-72 | with `lb = 0` and `N = len(y) > 0`, each prior is the label's relative frequency `multiplicity / len(y)`. |
| `NaiveBayes.MassIsCountsPlusSmoothing` | NaiveBayes/src/NaiveBayes.py:71 | the numerators `count + lb` over the labels add up to the sum of the label counts plus `len(labels) * lb`. |
| `NaiveBayes.SumSmoothedIsMass` | NaiveBayes/src/NaiveBayes.py:71-72 | the appended priors sum to the sum of their numerators divided by the denominator. |
| `NaiveBayes.NaiveBayes.ComputePriorProbsAsWritten` | NaiveBayes/src/NaiveBayes.py:66-75 | the loop as written: unset `labels` fails (`for` over `None`), no labels completes, and any label raises a `TypeError` on the first iteration, because the numerator is applied to the denominator as a function. Nothing is appended. |
| `NaiveBayes.AsWrittenVersusIntended` | NaiveBayes/src/NaiveBayes.py:70-73 | for every state with an empty prior list, `N = len(y)`, distinct labels from `y`, at least one label and a non-zero denominator, the text as written fails, while the intended division passes and appends exactly the smoothed priors, one per label, summing to 1. |
| `Utils.Matches` | AdaBoost/src/utils.py:136 | the number of agreeing positions is at most n. It equals n exactly when the sequences are identical, and 0 exactly when no position agrees. |
| `Utils.MatchesCountsIndices` | AdaBoost/src/utils.py:136 | that number is the cardinality of the set of indices i with `y_pred[i] == y_true[i]`. |
| `Utils.Accuracy` | AdaBoost/src/utils.py:118-136 | for equal-length, non-empty inputs (both of shape `[n_samples]`), the accuracy lies in [0, 1]. |
| `Utils.AccuracyIsMatchFraction` | AdaBoost/src/utils.py:136 | the accuracy is the number of indices with `y_pred[i] == y_true[i]` divided by n. |
| `Utils.AccuracyOneIff` | AdaBoost/src/utils.py:136 | the accuracy is exactly 1 iff the sequences are identical. |
| `Utils.AccuracyZeroIff` | AdaBoost/src/utils.py:136 | the accuracy is exactly 0 iff no position matches. |
| `Utils.MatchesSymmetric` | AdaBoost/src/utils.py:136 | the match count does not depend on which argument is the prediction. |
| `Utils.AccuracySymmetric` | AdaBoost/src/utils.py:136 | `accuracy(a, b) = accuracy(b, a)`. |

## Findings

| source | as written | input that shows it | evidently intended | confidence | as-written member | corrected member |
|---|---|---|---|---|---|---|
| NaiveBayes/src/NaiveBayes.py:71-72 | `(count + self.lb) (self.N + len(self.labels) * self.lb)` has no operator between the two parenthesised terms. Python reads it as applying a number as a function, which raises `TypeError`. | any `y` with at least one label, e.g. `y = [true]`, `N = 1`, `lb = 1` | a division by the smoothing denominator: the prior `(count + lb) / (N + len(labels) * lb)` | high; not executed | `NaiveBayes.NaiveBayes.ComputePriorProbsAsWritten`, `NaiveBayes.AsWrittenVersusIntended` | `NaiveBayes.NaiveBayes.ComputePriorProbs`, `NaiveBayes.PriorsSumToOne` |

## Left out

- `_compute_cond_probs` (NaiveBayes/src/NaiveBayes.py:77-83): an empty stub with no behaviour. No likelihoods, posteriors or prediction rule are invented.
- The `features` field: the constructor sets it to `None` and nothing reads or writes it.
- `cond_probs` and `post_probs`: never filled, so the model only resets them. Their element type `real` is a placeholder.
- `cont_feat_mu` and `cont_feat_sigma`: only ever set to `None`. The model keeps them, and no method touches them.
- Floating-point rounding and NaN: probabilities are exact reals.
- Feature arrays that are not two-dimensional, which make `X.shape` unpacking raise: `Matrix` is two-dimensional by construction.
- `y` passed as a plain Python list: `y == label` would then be a single `False`, so every count would be 0. The model treats `y` as a one-dimensional NumPy array.
- The sharing of the mutable default `cont_feat_idx=[]` between calls: the model works on values, so there is no aliasing.
- Reassigning `lb` from outside the object, which Python allows: the model's `lb` is fixed by the constructor.
- `Utils.Accuracy`: NumPy broadcasting of arrays of different lengths is not modelled. Neither is the NaN that `np.mean` gives on empty input. Both inputs are required to be of one length n > 0, as their documented shape `[n_samples]` says.
- `split_dataset` (AdaBoost/src/utils.py:39-79): a call into a randomized external splitter. It also ignores its `test_size` argument and always uses 0.2.
- `scale_dataset` (AdaBoost/src/utils.py:82-115): a wrapper over an external floating-point standardizer.
- `PARENT_DIR`, `DATA_DIR` and the warnings filter (AdaBoost/src/utils.py:29-36): environment and configuration, with no logic.
