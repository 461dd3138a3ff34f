/**
 * How a class prediction becomes the page's verdict: the label mapping used
 * by the server, the encoding the training script gives the dataset labels,
 * and the confidence percentage.
 */
module Verdict {
  import opened Optional
  import opened Strings

  /** The two dataset labels. */
  const RealLabel := "real"
  const FakeLabel := "fake"

  /** The training script's label encoding: real is 1, fake is 0, anything else has no code. */
  function TrainingCode(category: string): (code: Option<int>)
    ensures code.Some? <==> category == RealLabel || category == FakeLabel
    ensures code == Some(1) <==> category == RealLabel
    ensures code == Some(0) <==> category == FakeLabel
  {
    if category == RealLabel then Some(1)
    else if category == FakeLabel then Some(0)
    else None
  }

  /** The server's reading of a predicted class: 0 is "Fake", every other value "Real". */
  function ResultLabel(prediction: int): (result: string)
    ensures result == "Fake" <==> prediction == 0
    ensures result == "Real" <==> prediction != 0
  {
    if prediction == 0 then "Fake" else "Real"
  }

  /** The capitalised display form of a dataset label. */
  function DisplayName(category: string): string
  {
    if category == RealLabel then "Real" else "Fake"
  }

  /**
   * The server's mapping inverts the training encoding: a model that predicts
   * the code of a dataset label is reported with that label.
   */
  lemma ResultLabelInvertsTrainingCode(category: string)
    requires category == RealLabel || category == FakeLabel
    ensures ResultLabel(TrainingCode(category).value) == DisplayName(category)
  {
  }

  /** The confidence percentage: the largest class probability times 100. */
  function Confidence(proba: seq<real>): (c: real)
    requires |proba| > 0
    ensures exists i :: 0 <= i < |proba| && c == proba[i] * 100.0
    ensures forall i :: 0 <= i < |proba| ==> proba[i] * 100.0 <= c
  {
    var m := Max(proba);
    assert m in proba;
    assert forall i :: 0 <= i < |proba| ==> proba[i] in proba;
    m * 100.0
  }

  predicate IsProbability(p: real)
  {
    0.0 <= p <= 1.0
  }

  /** With probabilities in [0, 1], the confidence is a percentage in [0, 100]. */
  lemma ConfidenceIsPercentage(proba: seq<real>)
    requires |proba| > 0
    requires forall i :: 0 <= i < |proba| ==> IsProbability(proba[i])
    ensures 0.0 <= Confidence(proba) <= 100.0
  {
    var c := Confidence(proba);
    var i :| 0 <= i < |proba| && c == proba[i] * 100.0;
    assert IsProbability(proba[i]);
  }

  /**
   * For a two-class distribution the reported confidence is never below 50:
   * the larger of two probabilities that sum to 1 is at least one half.
   */
  lemma TwoClassConfidenceAtLeastHalf(pFake: real, pReal: real)
    requires IsProbability(pFake) && IsProbability(pReal) && pFake + pReal == 1.0
    ensures 50.0 <= Confidence([pFake, pReal]) <= 100.0
  {
    var proba := [pFake, pReal];
    assert proba[0] * 100.0 <= Confidence(proba) && proba[1] * 100.0 <= Confidence(proba);
    ConfidenceIsPercentage(proba);
  }
}
