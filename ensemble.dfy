/** The ensemble: a majority vote of the three models and the mean of their probabilities. */
module Ensemble {
  import opened Catalog
  import opened Signals

  datatype Votes = Votes(successful: int, notSuccessful: int)

  /** The response's `ensemble` entry; the average is a percentage. */
  datatype EnsembleOutcome = EnsembleOutcome(
    prediction: Prediction,
    averageProbability: real,
    votes: Votes)

  /** Number of voters. */
  const Voters: int := 3

  /** A binary vote, 1 for Successful. */
  function Vote(successful: bool): int {
    if successful then 1 else 0
  }

  function Sum(xs: seq<int>): int {
    if xs == [] then 0 else xs[0] + Sum(xs[1..])
  }

  function Min3(a: real, b: real, c: real): real {
    if a <= b && a <= c then a else if b <= c then b else c
  }

  function Max3(a: real, b: real, c: real): real {
    if a >= b && a >= c then a else if b >= c then b else c
  }

  /**
   * The primary label `lrPred` votes as it is; each simulated probability
   * votes 1 when it exceeds one half. The ensemble says Successful when at
   * least two of the three vote 1, and reports the mean of the primary
   * probability and the two simulated ones.
   */
  function Aggregate(lrPred: int, p: real, pB: real, pC: real): (e: EnsembleOutcome)
    requires lrPred == 0 || lrPred == 1
    requires IsProbability(p) && IsProbability(pB) && IsProbability(pC)
    ensures e.votes.successful + e.votes.notSuccessful == Voters
    ensures 0 <= e.votes.successful <= Voters
    ensures e.votes.successful != e.votes.notSuccessful
    ensures e.votes.successful == Vote(lrPred == 1) + Vote(pB > DecisionThreshold) + Vote(pC > DecisionThreshold)
    ensures e.prediction == Successful <==>
      || (lrPred == 1 && pB > DecisionThreshold)
      || (lrPred == 1 && pC > DecisionThreshold)
      || (pB > DecisionThreshold && pC > DecisionThreshold)
    ensures e.averageProbability == (p + pB + pC) / 3.0 * 100.0
    ensures 0.0 <= e.averageProbability <= 100.0
    ensures Min3(p, pB, pC) * 100.0 <= e.averageProbability <= Max3(p, pB, pC) * 100.0
  {
    var predictions := [lrPred, Vote(pB > DecisionThreshold), Vote(pC > DecisionThreshold)];
    var total := Sum(predictions);
    assert total == predictions[0] + Sum(predictions[1..]);
    assert total == predictions[0] + predictions[1] + Sum(predictions[2..]);
    assert Sum(predictions[2..]) == predictions[2] + Sum([]);
    var average := (p + pB + pC) / 3.0;
    EnsembleOutcome(
      if total >= 2 then Successful else NotSuccessful,
      average * 100.0,
      Votes(total, Voters - total))
  }

  /** When the three models agree, the ensemble agrees with them. */
  lemma UnanimousVote(lrPred: int, p: real, pB: real, pC: real)
    requires lrPred == 0 || lrPred == 1
    requires IsProbability(p) && IsProbability(pB) && IsProbability(pC)
    requires (lrPred == 1) == (pB > DecisionThreshold) == (pC > DecisionThreshold)
    ensures Aggregate(lrPred, p, pB, pC).prediction == Successful <==> lrPred == 1
    ensures Aggregate(lrPred, p, pB, pC).votes.successful == 3 * lrPred
  {
  }
}
