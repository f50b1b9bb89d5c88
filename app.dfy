/**
 * The prediction request: validation, the overview and feature row handed to
 * the fitted classifier, the three model outcomes, the ensemble, and the
 * recommendations, assembled into one response. The classifier's answer for
 * the feature row (`lrPred`, `p`) and the random draws (`pick`, `noiseB`,
 * `noiseC`) are parameters.
 */
module App {
  import opened Wrappers
  import opened Text
  import opened Catalog
  import opened Overview
  import opened Signals
  import opened Ensemble
  import opened Recommender

  /** Values the request does not carry, fixed for every feature row. */
  const DefaultPopularity: real := 50.0
  const DefaultRuntime: real := 120.0
  const DefaultVoteCount: real := 1000.0

  const InvalidInputMessage: string := "Please provide valid budget and genre"
  const HealthyStatus: string := "ok"

  /** The classifier's input before scaling: five numbers, then `"<overview> <genre>"`. */
  datatype FeatureRow = FeatureRow(numeric: seq<real>, text: string)

  /** A request that passed validation, with its generated overview and feature row. */
  datatype Prepared = Prepared(
    budget: real,
    rating: real,
    genre: string,
    overview: string,
    features: FeatureRow)

  datatype PredictError = InvalidInput(message: string)

  datatype InputSummary = InputSummary(budget: real, rating: real, genre: string, generatedOverview: string)

  datatype PredictResponse = PredictResponse(
    models: seq<ModelOutcome>,
    ensemble: EnsembleOutcome,
    recommendedFilms: seq<RecommendationItem>,
    inputSummary: InputSummary)

  datatype HealthStatus = HealthStatus(status: string, models: seq<string>)

  /** `health`: the service is up and names its three models. */
  function Health(): (h: HealthStatus)
    ensures h.status == HealthyStatus
    ensures |h.models| == Voters
    ensures forall i, j :: 0 <= i < j < |h.models| ==> h.models[i] != h.models[j]
  {
    HealthStatus(HealthyStatus, [PrimaryName, BertName, DistilBertName])
  }

  /**
   * Validation, overview generation and the feature row. The genre is stripped
   * first; an empty genre or a budget that is not positive is rejected before
   * anything else happens.
   */
  function Prepare(budget: real, rating: real, genreRaw: string, pick: nat): (r: Result<Prepared, PredictError>)
    requires pick < TemplatesPerGenre
    ensures r.Failure? <==> AllSpace(genreRaw) || budget <= 0.0
    ensures r.Failure? ==> r.error == InvalidInput(InvalidInputMessage)
    ensures r.Success? ==>
      && r.value.budget == budget && r.value.rating == rating
      && r.value.genre == Trim(genreRaw) && r.value.genre != []
      && r.value.overview == GenerateOverview(r.value.genre, pick)
      && r.value.features.numeric == [budget, DefaultPopularity, DefaultRuntime, rating, DefaultVoteCount]
      && r.value.features.text == r.value.overview + " " + r.value.genre
  {
    var genre := Trim(genreRaw);
    if genre == [] || budget <= 0.0 then
      Failure(InvalidInput(InvalidInputMessage))
    else
      var overview := GenerateOverview(genre, pick);
      var numeric := [budget, DefaultPopularity, DefaultRuntime, rating, DefaultVoteCount];
      Success(Prepared(budget, rating, genre, overview, FeatureRow(numeric, overview + " " + genre)))
  }

  function CountSuccessful(models: seq<ModelOutcome>): int {
    if models == [] then 0
    else Vote(models[0].prediction == Successful) + CountSuccessful(models[1..])
  }

  /** The response's `models` list: the fitted model, then the two simulated ones. */
  function ModelOutcomes(lrPred: int, p: real, noiseB: real, noiseC: real): (models: seq<ModelOutcome>)
    requires IsProbability(p)
    requires -BertNoiseWidth <= noiseB < BertNoiseWidth
    requires -DistilBertNoiseWidth <= noiseC < DistilBertNoiseWidth
    ensures |models| == |Health().models|
    ensures forall i :: 0 <= i < |models| ==>
      && models[i].model == Health().models[i]
      && 0.0 <= models[i].successProbability <= 100.0
      && 50.0 <= models[i].confidence <= 100.0
      && models[i].confidence == Max(models[i].successProbability, 100.0 - models[i].successProbability)
    ensures models[0].prediction == Successful <==> lrPred == 1
    ensures models[0].successProbability == p * 100.0
    ensures models[1].successProbability == SimulatedProbability(p, noiseB) * 100.0
    ensures models[2].successProbability == SimulatedProbability(p, noiseC) * 100.0
    ensures Abs(models[1].successProbability - p * 100.0) <= BertNoiseWidth * 100.0
    ensures Abs(models[2].successProbability - p * 100.0) <= DistilBertNoiseWidth * 100.0
    ensures forall i :: 1 <= i < |models| ==>
      (models[i].prediction == Successful <==> models[i].successProbability > 50.0)
  {
    [PrimaryOutcome(lrPred, p),
     SimulatedOutcome(BertName, p, noiseB, BertNoiseWidth),
     SimulatedOutcome(DistilBertName, p, noiseC, DistilBertNoiseWidth)]
  }

  /** The ensemble's votes are the models' labels, and its average is the mean of their probabilities. */
  lemma EnsembleMatchesModels(lrPred: int, p: real, noiseB: real, noiseC: real)
    requires lrPred == 0 || lrPred == 1
    requires IsProbability(p)
    requires -BertNoiseWidth <= noiseB < BertNoiseWidth
    requires -DistilBertNoiseWidth <= noiseC < DistilBertNoiseWidth
    ensures var models := ModelOutcomes(lrPred, p, noiseB, noiseC);
      var e := Aggregate(lrPred, p, SimulatedProbability(p, noiseB), SimulatedProbability(p, noiseC));
      && e.votes.successful == CountSuccessful(models)
      && (e.prediction == Successful <==> CountSuccessful(models) >= 2)
      && e.averageProbability ==
           (models[0].successProbability + models[1].successProbability + models[2].successProbability) / 3.0
  {
    var models := ModelOutcomes(lrPred, p, noiseB, noiseC);
    assert CountSuccessful(models) == Vote(lrPred == 1) + CountSuccessful(models[1..]);
    assert CountSuccessful(models[1..]) == Vote(SimulatedProbability(p, noiseB) > DecisionThreshold) + CountSuccessful(models[2..]);
    assert CountSuccessful(models[2..]) == Vote(SimulatedProbability(p, noiseC) > DecisionThreshold) + CountSuccessful([]);
  }

  /** The response for a prepared request, given the classifier's answer and the random draws. */
  method Respond(prep: Prepared, lrPred: int, p: real, noiseB: real, noiseC: real, catalog: seq<FilmRecord>)
    returns (response: PredictResponse)
    requires lrPred == 0 || lrPred == 1
    requires IsProbability(p)
    requires -BertNoiseWidth <= noiseB < BertNoiseWidth
    requires -DistilBertNoiseWidth <= noiseC < DistilBertNoiseWidth
    ensures response.models == ModelOutcomes(lrPred, p, noiseB, noiseC)
    ensures response.ensemble.votes.successful + response.ensemble.votes.notSuccessful == 3
    ensures response.ensemble.votes.successful == CountSuccessful(response.models)
    ensures response.ensemble.prediction == Successful <==> CountSuccessful(response.models) >= 2
    ensures 0.0 <= response.ensemble.averageProbability <= 100.0
    ensures response.ensemble.averageProbability ==
      (response.models[0].successProbability + response.models[1].successProbability
        + response.models[2].successProbability) / 3.0
    ensures response.recommendedFilms == Recommendations(catalog, prep.budget, prep.rating, prep.genre)
    ensures response.inputSummary == InputSummary(prep.budget, prep.rating, prep.genre, prep.overview)
  {
    var bertProba := SimulatedProbability(p, noiseB);
    var distilbertProba := SimulatedProbability(p, noiseC);
    var models := ModelOutcomes(lrPred, p, noiseB, noiseC);
    var recommended := Recommend(catalog, prep.budget, prep.rating, prep.genre);
    var ensemble := Aggregate(lrPred, p, bertProba, distilbertProba);
    EnsembleMatchesModels(lrPred, p, noiseB, noiseC);
    response := PredictResponse(models, ensemble, recommended,
                                InputSummary(prep.budget, prep.rating, prep.genre, prep.overview));
  }

  /**
   * `predict`: an invalid request is answered with the one error, whatever the
   * model inputs; a valid one with the three outcomes, the ensemble and the
   * recommendations.
   */
  method Predict(budget: real, rating: real, genreRaw: string, pick: nat,
                 lrPred: int, p: real, noiseB: real, noiseC: real, catalog: seq<FilmRecord>)
    returns (r: Result<PredictResponse, PredictError>)
    requires pick < TemplatesPerGenre
    requires lrPred == 0 || lrPred == 1
    requires IsProbability(p)
    requires -BertNoiseWidth <= noiseB < BertNoiseWidth
    requires -DistilBertNoiseWidth <= noiseC < DistilBertNoiseWidth
    ensures r.Failure? <==> AllSpace(genreRaw) || budget <= 0.0
    ensures r.Failure? ==> r.error == InvalidInput(InvalidInputMessage)
    ensures r.Success? ==>
      && r.value.models == ModelOutcomes(lrPred, p, noiseB, noiseC)
      && r.value.ensemble.votes.successful + r.value.ensemble.votes.notSuccessful == 3
      && r.value.ensemble.votes.successful == CountSuccessful(r.value.models)
      && (r.value.ensemble.prediction == Successful <==> CountSuccessful(r.value.models) >= 2)
      && r.value.ensemble.averageProbability ==
           (r.value.models[0].successProbability + r.value.models[1].successProbability
             + r.value.models[2].successProbability) / 3.0
      && (forall i :: 0 <= i < |r.value.models| ==> 50.0 <= r.value.models[i].confidence <= 100.0)
      && r.value.recommendedFilms == Recommendations(catalog, budget, rating, Trim(genreRaw))
      && r.value.inputSummary == InputSummary(budget, rating, Trim(genreRaw), GenerateOverview(Trim(genreRaw), pick))
  {
    var prepared := Prepare(budget, rating, genreRaw, pick);
    match prepared {
      case Failure(e) =>
        r := Failure(e);
      case Success(prep) =>
        var response := Respond(prep, lrPred, p, noiseB, noiseC, catalog);
        r := Success(response);
    }
  }

  /** A 50M Action request at rating 7 yields the row (50000000, 50, 120, 7, 1000) and an Action overview. */
  lemma ActionRequestFeatures(pick: nat)
    requires pick < TemplatesPerGenre
    ensures var r := Prepare(50000000.0, 7.0, "Action", pick);
      && r.Success?
      && r.value.features.numeric == [50000000.0, 50.0, 120.0, 7.0, 1000.0]
      && r.value.overview in GenreTemplates["Action"]
  {
    assert !IsSpace("Action"[0]);
    TrimFixesTrimmed("Action");
    ActionRequestGetsActionTemplate(pick);
  }

  /** A request with a negative budget is rejected. */
  lemma NegativeBudgetRejected(rating: real, genreRaw: string, pick: nat)
    requires pick < TemplatesPerGenre
    ensures Prepare(-5.0, rating, genreRaw, pick) == Failure(InvalidInput(InvalidInputMessage))
  {
  }
}
