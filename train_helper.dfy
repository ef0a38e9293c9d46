/**
 * The counting inside the evaluation helpers: accuracy of predictions against
 * gold labels, the arg-max label of each score dict, and per-label true
 * positives, false positives and false negatives with the scores built on them.
 */
module TrainHelper {
  import opened Wrappers
  import opened Exceptions

  type Label = string

  /**
   * A score dict: label to likelihood, entries in insertion order. Duplicate labels,
   * which a Python dict cannot hold, are deliberately not excluded: the pick is stated
   * over entries.
   */
  type ScoreDict = seq<(Label, real)>

  // ---------------------------------------------------------------------------
  // Accuracy

  /** How many of the predictions agree with the gold label at the same position. */
  function Matches(eval: seq<Label>, gold: seq<Label>): (n: nat)
    requires |eval| <= |gold|
    ensures n <= |eval|
  {
    if |eval| == 0 then 0
    else Matches(eval[..|eval| - 1], gold) + (if eval[|eval| - 1] == gold[|eval| - 1] then 1 else 0)
  }

  /** Every prediction is right exactly when the predictions are a prefix of the gold labels. */
  lemma {:induction false} AllMatchIffPrefix(eval: seq<Label>, gold: seq<Label>)
    requires |eval| <= |gold|
    ensures Matches(eval, gold) == |eval| <==> eval == gold[..|eval|]
  {
    if |eval| > 0 {
      var n := |eval| - 1;
      AllMatchIffPrefix(eval[..n], gold);
      if Matches(eval, gold) == |eval| {
        assert eval[..n] == gold[..n];
        assert eval == eval[..n] + [eval[n]];
        assert gold[..|eval|] == gold[..n] + [gold[n]];
      }
      if eval == gold[..|eval|] {
        assert eval[..n] == gold[..n];
      }
    }
  }

  lemma FractionInUnit(c: nat, n: nat)
    requires 0 < n && c <= n
    ensures 0.0 <= c as real / n as real <= 1.0
    ensures c as real / n as real == 1.0 <==> c == n
  {
    var q := c as real / n as real;
    assert q * n as real == c as real;
  }

  /** The share of predictions that agree with their gold label; it lies in [0, 1]. */
  function AccuracyOf(eval: seq<Label>, gold: seq<Label>): (a: real)
    requires 0 < |eval| <= |gold|
    ensures 0.0 <= a <= 1.0
    ensures a == 1.0 <==> eval == gold[..|eval|]
  {
    FractionInUnit(Matches(eval, gold), |eval|);
    AllMatchIffPrefix(eval, gold);
    Matches(eval, gold) as real / |eval| as real
  }

  /**
   * The share of predictions equal to their gold label. The gold list is indexed
   * at every prediction position, and the count divides.
   */
  method Accuracy(eval: seq<Label>, gold: seq<Label>) returns (r: Result<real, Error>)
    ensures |eval| == 0 ==> r == Failure(ZeroDivisionError)
    ensures 0 < |eval| && |gold| < |eval| ==> r == Failure(IndexError)
    ensures 0 < |eval| <= |gold| ==> r == Success(AccuracyOf(eval, gold))
  {
    var correct, wrong := 0, 0;
    for i := 0 to |eval|
      invariant i <= |gold|
      invariant correct == Matches(eval[..i], gold)
      invariant wrong == i - correct
    {
      assert eval[..i + 1][..i] == eval[..i];
      if i >= |gold| {
        return Failure(IndexError);
      }
      if eval[i] == gold[i] {
        correct := correct + 1;
      } else {
        wrong := wrong + 1;
      }
    }
    assert eval[..|eval|] == eval;
    if correct + wrong == 0 {
      return Failure(ZeroDivisionError);
    }
    r := Success((1.0 * correct as real) / (correct + wrong) as real);
  }

  // ---------------------------------------------------------------------------
  // Arg-max per score dict

  /** `k` is the first entry of `d` whose value no other entry exceeds. */
  predicate IsFirstMax(d: ScoreDict, k: nat) {
    && k < |d|
    && (forall j :: 0 <= j < |d| ==> d[j].1 <= d[k].1)
    && (forall j :: 0 <= j < k ==> d[j].1 < d[k].1)
  }

  /** Python's `max` over a dict by value: a left-to-right scan that replaces its pick only on a strictly greater value. */
  function FirstMaxIndex(d: ScoreDict): (k: nat)
    requires |d| > 0
    ensures IsFirstMax(d, k)
    decreases |d|
  {
    if |d| == 1 then 0
    else
      var k := FirstMaxIndex(d[..|d| - 1]);
      if d[|d| - 1].1 > d[k].1 then |d| - 1 else k
  }

  /** The first maximal entry is unique: the scan's pick is the only possible answer. */
  lemma FirstMaxUnique(d: ScoreDict, k: nat, k': nat)
    requires IsFirstMax(d, k) && IsFirstMax(d, k')
    ensures k == k'
  {
    assert d[k].1 == d[k'].1;
  }

  /** `key` is the key of the first maximal entry of `d`. */
  predicate IsBestKey(d: ScoreDict, key: Label) {
    exists k: nat | k < |d| :: IsFirstMax(d, k) && d[k].0 == key
  }

  /** The best label of every score dict, in order; an empty dict makes `max` raise. */
  function MaxDictValue(dicts: seq<ScoreDict>): (r: Result<seq<Label>, Error>)
    ensures r.Success? <==> forall i :: 0 <= i < |dicts| ==> |dicts[i]| > 0
    ensures r.Failure? ==> r.error == ValueError
    ensures r.Success? ==> |r.value| == |dicts|
    ensures r.Success? ==> forall i :: 0 <= i < |dicts| ==> IsBestKey(dicts[i], r.value[i])
  {
    if |dicts| == 0 then Success([])
    else if |dicts[0]| == 0 then Failure(ValueError)
    else
      match MaxDictValue(dicts[1..])
      case Failure(e) => Failure(e)
      case Success(rest) =>
        var k := FirstMaxIndex(dicts[0]);
        var r := [dicts[0][k].0] + rest;
        assert IsBestKey(dicts[0], r[0]) by {
          assert IsFirstMax(dicts[0], k) && dicts[0][k].0 == r[0];
        }
        assert forall i :: 1 <= i < |dicts| ==> dicts[i] == dicts[1..][i - 1] && r[i] == rest[i - 1];
        Success(r)
  }

  // ---------------------------------------------------------------------------
  // Per-label counts and scores

  /** Positions where both the prediction and the gold label are `category`. */
  function TruePositives(eval: seq<Label>, gold: seq<Label>, category: Label): nat
    requires |eval| <= |gold|
  {
    if |eval| == 0 then 0
    else
      var n := |eval| - 1;
      TruePositives(eval[..n], gold, category) + (if eval[n] == category && gold[n] == category then 1 else 0)
  }

  /** Positions predicted `category` whose gold label is another. */
  function FalsePositives(eval: seq<Label>, gold: seq<Label>, category: Label): nat
    requires |eval| <= |gold|
  {
    if |eval| == 0 then 0
    else
      var n := |eval| - 1;
      FalsePositives(eval[..n], gold, category) + (if eval[n] == category && gold[n] != category then 1 else 0)
  }

  /** Positions whose gold label is `category` but predicted another. */
  function FalseNegatives(eval: seq<Label>, gold: seq<Label>, category: Label): nat
    requires |eval| <= |gold|
  {
    if |eval| == 0 then 0
    else
      var n := |eval| - 1;
      FalseNegatives(eval[..n], gold, category) + (if eval[n] != category && gold[n] == category then 1 else 0)
  }

  /** How often `category` occurs in `s`. */
  function Occurrences(s: seq<Label>, category: Label): nat {
    if |s| == 0 then 0
    else Occurrences(s[..|s| - 1], category) + (if s[|s| - 1] == category then 1 else 0)
  }

  /** True and false positives together are the predictions of `category`. */
  lemma {:induction false} PredictedSplit(eval: seq<Label>, gold: seq<Label>, category: Label)
    requires |eval| <= |gold|
    ensures TruePositives(eval, gold, category) + FalsePositives(eval, gold, category) == Occurrences(eval, category)
  {
    if |eval| > 0 {
      PredictedSplit(eval[..|eval| - 1], gold, category);
    }
  }

  /** True positives and false negatives together are the gold occurrences of `category` at the predicted positions. */
  lemma {:induction false} GoldSplit(eval: seq<Label>, gold: seq<Label>, category: Label)
    requires |eval| <= |gold|
    ensures TruePositives(eval, gold, category) + FalseNegatives(eval, gold, category) == Occurrences(gold[..|eval|], category)
  {
    if |eval| > 0 {
      var n := |eval| - 1;
      GoldSplit(eval[..n], gold, category);
      assert gold[..|eval|][..n] == gold[..n];
    }
  }

  /** Precision, recall and f1 of one label. */
  datatype Score = Score(precision: real, recall: real, f1: real)

  /** The start value of the false positive and false negative counters, keeping the divisions defined. */
  const Epsilon: real := 0.00000001

  lemma ShareBelowOne(a: real, b: real)
    requires 0.0 <= a && 0.0 < b
    ensures 0.0 <= a / (a + b) < 1.0
    ensures a == 0.0 <==> a / (a + b) == 0.0
  {
    var q := a / (a + b);
    assert q * (a + b) == a;
  }

  lemma HarmonicBelowOne(p: real, r: real)
    requires 0.0 <= p < 1.0 && 0.0 <= r < 1.0 && 0.0 < p + r
    ensures 0.0 <= 2.0 * (p * r) / (p + r) < 1.0
  {
    var s := p + r;
    assert p * (1.0 - r) >= 0.0;
    assert r * (1.0 - p) >= 0.0;
    assert p * (1.0 - r) > 0.0 || r * (1.0 - p) > 0.0;
    assert 2.0 * (p * r) < s;
    var f := 2.0 * (p * r) / s;
    assert f * s == 2.0 * (p * r);
    assert p * r >= 0.0;
    assert (1.0 - f) * s == s - f * s;
    assert (1.0 - f) * s > 0.0;
  }

  /**
   * The scores of one label from its counts, the false counts starting at Epsilon.
   * All three lie in [0, 1); with no true positive all three are zero.
   */
  function ScoreOf(tp: nat, fp: nat, fn: nat): (s: Score)
    ensures 0.0 <= s.precision < 1.0 && 0.0 <= s.recall < 1.0 && 0.0 <= s.f1 < 1.0
    ensures tp == 0 <==> s.precision == 0.0
    ensures tp == 0 <==> s.recall == 0.0
    ensures tp == 0 ==> s.f1 == 0.0
  {
    var precision := tp as real / (tp as real + (Epsilon + fp as real));
    var recall := tp as real / (tp as real + (Epsilon + fn as real));
    ShareBelowOne(tp as real, Epsilon + fp as real);
    ShareBelowOne(tp as real, Epsilon + fn as real);
    if precision + recall == 0.0 then Score(precision, recall, 0.0)
    else
      HarmonicBelowOne(precision, recall);
      Score(precision, recall, 2.0 * (precision * recall) / (precision + recall))
  }

  /** The distinct predicted labels. */
  function LabelSet(s: seq<Label>): set<Label> {
    set x | x in s
  }

  /**
   * The scores of every predicted label. Labels that occur only among the gold
   * labels are not scored. Each position of the predictions indexes the gold
   * labels, so a shorter gold list raises IndexError.
   */
  method F1Scores(eval: seq<Label>, gold: seq<Label>) returns (r: Result<map<Label, Score>, Error>)
    ensures r.Failure? <==> |gold| < |eval|
    ensures r.Failure? ==> r.error == IndexError
    ensures r.Success? ==> r.value.Keys == LabelSet(eval)
    ensures r.Success? ==> |eval| <= |gold| && forall l :: l in r.value ==>
        r.value[l] == ScoreOf(TruePositives(eval, gold, l), FalsePositives(eval, gold, l), FalseNegatives(eval, gold, l))
  {
    var labels := LabelSet(eval);
    var remaining := labels;
    var scores: map<Label, Score> := map[];
    while remaining != {}
      invariant remaining <= labels
      invariant scores.Keys == labels - remaining
      invariant remaining != labels ==> |eval| <= |gold|
      invariant forall l :: l in scores ==> (|eval| <= |gold| &&
        scores[l] == ScoreOf(TruePositives(eval, gold, l), FalsePositives(eval, gold, l), FalseNegatives(eval, gold, l)))
      decreases |remaining|
    {
      var category :| category in remaining;
      var tp, fp, fn := 0, 0, 0;
      for i := 0 to |eval|
        invariant i <= |gold|
        invariant tp == TruePositives(eval[..i], gold, category)
        invariant fp == FalsePositives(eval[..i], gold, category)
        invariant fn == FalseNegatives(eval[..i], gold, category)
      {
        assert eval[..i + 1][..i] == eval[..i];
        if i >= |gold| {
          return Failure(IndexError);
        }
        var cat := eval[i];
        if category != cat && category != gold[i] {
          continue;
        }
        if cat == gold[i] && gold[i] == category {
          tp := tp + 1;
        } else if cat == category && gold[i] != category {
          fp := fp + 1;
        } else if cat != category && gold[i] == category {
          fn := fn + 1;
        }
      }
      assert eval[..|eval|] == eval;
      scores := scores[category := ScoreOf(tp, fp, fn)];
      remaining := remaining - {category};
    }
    if |eval| > 0 {
      assert eval[0] in labels;
    }
    return Success(scores);
  }
}
