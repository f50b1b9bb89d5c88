/**
 * The three per-model outcomes of a prediction. The primary model is the
 * fitted logistic regression, whose label and success probability come from
 * outside; the two others ("BERT" and "DistilBERT") are simulated: each adds a
 * bounded random offset to the primary probability and clips the sum to [0, 1].
 */
module Signals {
  import opened Catalog

  /** One entry of the response's `models` list; probabilities are percentages. */
  datatype ModelOutcome = ModelOutcome(
    model: string,
    prediction: Prediction,
    successProbability: real,
    confidence: real)

  const PrimaryName: string := "Logistic Regression"
  const BertName: string := "BERT"
  const DistilBertName: string := "DistilBERT"

  /** Half-widths of the offset intervals of the two simulated models. */
  const BertNoiseWidth: real := 0.15
  const DistilBertNoiseWidth: real := 0.12

  /** A probability above this is a Successful prediction. */
  const DecisionThreshold: real := 0.5

  predicate IsProbability(p: real) {
    0.0 <= p <= 1.0
  }

  function Abs(x: real): real {
    if x < 0.0 then -x else x
  }

  function Max(x: real, y: real): real {
    if x >= y then x else y
  }

  /** `np.clip(x, 0, 1)`: the point of [0, 1] nearest to `x`. */
  function Clip(x: real): (r: real)
    ensures IsProbability(r)
    ensures forall y :: IsProbability(y) ==> Abs(r - x) <= Abs(y - x)
  {
    if x < 0.0 then 0.0 else if x > 1.0 then 1.0 else x
  }

  /** The label a simulated model gives to probability `p`. */
  function Classify(p: real): Prediction {
    if p > DecisionThreshold then Successful else NotSuccessful
  }

  /** `max(p, 1 - p) * 100`: the probability of whichever class is predicted, as a percentage. */
  function Confidence(p: real): (c: real)
    requires IsProbability(p)
    ensures 50.0 <= c <= 100.0
    ensures c == (if Classify(p) == Successful then p else 1.0 - p) * 100.0
  {
    Max(p, 1.0 - p) * 100.0
  }

  /** A simulated model's probability: the primary one moved by `noise`, then clipped. */
  function SimulatedProbability(p: real, noise: real): (q: real)
    requires IsProbability(p)
    ensures IsProbability(q)
    ensures Abs(q - p) <= Abs(noise)
    ensures noise >= 0.0 ==> q >= p
    ensures noise <= 0.0 ==> q <= p
    ensures forall y :: IsProbability(y) ==> Abs(q - (p + noise)) <= Abs(y - (p + noise))
  {
    Clip(p + noise)
  }

  /** The primary model's entry; `lr_proba` is `[1 - p, p]`, so its maximum is `Max(p, 1 - p)`. */
  function PrimaryOutcome(lrPred: int, p: real): (o: ModelOutcome)
    requires IsProbability(p)
    ensures o.model == PrimaryName
    ensures o.prediction == Successful <==> lrPred == 1
    ensures 0.0 <= o.successProbability <= 100.0 && o.successProbability == p * 100.0
    ensures 50.0 <= o.confidence <= 100.0
    ensures o.confidence == Max(o.successProbability, 100.0 - o.successProbability)
  {
    ModelOutcome(PrimaryName, if lrPred == 1 then Successful else NotSuccessful,
                 p * 100.0, Confidence(p))
  }

  /** A simulated model's entry, for an offset drawn from `[-width, width)`. */
  function SimulatedOutcome(name: string, p: real, noise: real, width: real): (o: ModelOutcome)
    requires IsProbability(p)
    requires -width <= noise < width
    ensures o.model == name
    ensures o.successProbability == SimulatedProbability(p, noise) * 100.0
    ensures 0.0 <= o.successProbability <= 100.0
    ensures Abs(o.successProbability - p * 100.0) <= width * 100.0
    ensures o.prediction == Successful <==> o.successProbability > 50.0
    ensures 50.0 <= o.confidence <= 100.0
    ensures o.confidence == Max(o.successProbability, 100.0 - o.successProbability)
  {
    var q := SimulatedProbability(p, noise);
    ModelOutcome(name, Classify(q), q * 100.0, Confidence(q))
  }
}
