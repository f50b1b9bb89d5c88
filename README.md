# Film success predictor: decision core

A Dafny model of the decision logic of a small Flask service that estimates whether a
hypothetical film will be commercially successful. The service takes a budget, a target
rating and a comma-separated genre string. It answers with three model outcomes, an
ensemble verdict and up to five comparable historical films. Its logic lives in one file,
`app_multi_model.py`. The model covers these parts of it:

- **Catalog** (`catalog.dfy`). The TMDB rows kept at load time are those with a positive
  budget and a positive revenue. Each kept row gains `roi = (revenue - budget) / budget`
  and an `is_successful` flag that is 1 exactly when `roi > 1.0`. `BuildCatalog` is the
  loading loop. `Admit` is its specification.
- **Text** (`text.dfy`). The Python string operations the service relies on: `split(',')`,
  `strip()` (over every code point Python's `str.isspace()` accepts) and `lower()`.
- **Overview synthesiser** (`overview.dfy`). The `GENRE_TEMPLATES` table, copied verbatim,
  and `generate_overview`. The template chosen by `random.choice` is a parameter `pick`.
- **Signal models** (`signals.dfy`). The fitted logistic regression's entry, and the two
  simulated entries ("BERT", "DistilBERT"). Each simulated entry adds an offset from
  `[-0.15, 0.15)` or `[-0.12, 0.12)` to the regression's probability, clips the sum to
  [0, 1], labels it Successful above 0.5, and reports `max(p, 1 - p) * 100` as confidence.
  These two entries are derived from the first model. They are not independently trained.
- **Ensemble** (`ensemble.dfy`). A three-voter majority vote and the mean of the three
  probabilities.
- **Recommendation engine** (`recommend.dfy`). It applies three successive filters: genre
  overlap, a budget band of `[0.5 * budget, 2.0 * budget]`, and a rating band of
  `[rating - 1.0, rating + 1.0]`. It then ranks by ROI with `nlargest(5, 'roi')`, which
  keeps ties in catalog order. The `iterrows` loop then projects each film to a display
  item. Each step is a method with a loop, proved against a specification function.
- **Film lookup** (`lookup.dfy`). `get_film_detail` returns the first film, in catalog
  order, whose lower-cased title equals the lower-cased query. If none matches, it returns
  not-found.
- **Request handling** (`app.dfy`). `Prepare` rejects a request whose stripped genre is
  empty or whose budget is not positive. Otherwise it builds the overview and the
  classifier's input row `(budget, 50.0, 120, rating, 1000)` plus `"<overview> <genre>"`.
  `Respond` assembles the models, the ensemble and the recommendations. `Predict` is the
  two steps together. `Health` names the three models.

The classifier's answer for the feature row (`lrPred`, `p`) and the random draws (`pick`,
`noiseB`, `noiseC`) are parameters. The classifier is a two-class logistic regression, so
its probability vector is taken to be `[1 - p, p]`, and the reported confidence
`max(lr_proba) * 100` is `max(p, 1 - p) * 100`. Amounts, ratings and probabilities are
exact `real`s.

Notes on the code as written:

- In `generate_overview`, Python's `split` never returns an empty list. So the
  `'Drama'` default for an empty list (`app_multi_model.py:96`) is never used, and
  `MainGenre` has no such branch.
- The code stores `is_successful` as the integer 0 or 1 (line 31), and the model does the
  same.
- The code keeps a film's genres as a list and only tests membership in it (line 180).
  The model uses a sequence.
- The code ranks with `nlargest` and its default `keep='first'` (line 201). The model
  ranks with a stable sort, so films of equal ROI keep the order in which they survive
  the filters, which is catalog order. `Recommender.LargestKeepsFirstOfTies` states that
  the kept films of each ROI value are the earliest survivors, and
  `Recommender.MatchingKeepsTies` that the survivors of each ROI value are in catalog order.

## Model

| member | source | states |
|---|---|---|
| `Catalog.Roi` | app_multi_model.py:30 | `budget * (roi + 1) == revenue`, so the ROI is recovered from revenue and budget; for positive revenue, `roi > -1` |
| `Catalog.Derive` | app_multi_model.py:30-31 | an admitted row becomes a well-formed record (positive budget and revenue, `roi` from `Roi`, flag 0/1 and 1 exactly when `roi > 1.0`), with every other field unchanged |
| `Catalog.Admit` | app_multi_model.py:28-31 | the catalog is no longer than the rows and every record in it is well-formed; with `AdmitAppend` and `AdmitOne` it is the rows' mask, in row order |
| `Catalog.AdmitAppend` | app_multi_model.py:28-29 | the catalog of two blocks of rows is the catalog of the first followed by that of the second, so row order and repeated rows are kept |
| `Catalog.AdmitOne` | app_multi_model.py:28-31 | a single row becomes its derived record exactly when its budget and revenue are positive, and is dropped otherwise |
| `Catalog.BuildCatalog` | app_multi_model.py:27-31 | the loading loop produces exactly `Admit(rows)` |
| `Catalog.AdmitKeeps` | app_multi_model.py:28-29 | every row with positive budget and revenue is in the catalog |
| `Catalog.AdmitOnlyAdmissible` | app_multi_model.py:28-29 | every catalog record is derived from a row with positive budget and revenue |
| `Catalog.SuccessMeansRevenueAboveDoubleBudget` | app_multi_model.py:31 | a record is flagged successful exactly when its revenue exceeds twice its budget |
| `Catalog.LabelAgreesWithFlag` | app_multi_model.py:267-268 | the Successful label shown for a film agrees with its `is_successful` flag |
| `Catalog.TenfoldRevenueExample` | app_multi_model.py:30-31 | budget 40M and revenue 400M give ROI 9.0 and the success flag 1 |
| `Text.Trim` | app_multi_model.py:120 | `strip()` gives the empty string exactly when the input is all whitespace; otherwise the result starts and ends with a non-whitespace character; every character of the result comes from the input |
| `Text.TrimIsSlice` | app_multi_model.py:120 | `strip()` returns a contiguous slice of the input, and everything cut off on either side is whitespace |
| `Text.TrimIdempotent` | app_multi_model.py:95 | stripping an already stripped string changes nothing |
| `Text.Split` | app_multi_model.py:95 | `split(',')` yields at least one piece; no piece contains a comma; the first piece is the prefix up to the first comma |
| `Text.JoinSplit` | app_multi_model.py:95 | joining the pieces with the separator gives back the input |
| `Text.SplitJoin` | app_multi_model.py:177 | splitting a join of comma-free pieces gives back the pieces |
| `Text.Lower` | app_multi_model.py:252 | the result has the input's length, holds no upper-case letter, and changes a character only by lowering it |
| `Overview.MainGenre` | app_multi_model.py:95-96 | the primary genre holds no comma and has no whitespace at either end |
| `Overview.GenerateOverview` | app_multi_model.py:93-101 | the overview is one of the primary genre's templates when that genre is in the table, and the fallback sentence otherwise |
| `Overview.FallbackExactlyForUnknownGenres` | app_multi_model.py:98-101 | the fallback sentence is returned if and only if the primary genre is not a table key |
| `Overview.OnlyFirstEntryMatters` | app_multi_model.py:95-96 | only the first comma-separated entry, stripped, decides the overview |
| `Overview.ActionRequestGetsActionTemplate` | app_multi_model.py:93-99 | the genre "Action" yields one of the three Action templates |
| `Signals.Clip` | app_multi_model.py:157 | the clipped value lies in [0, 1] and is the point of [0, 1] nearest to the input |
| `Signals.SimulatedProbability` | app_multi_model.py:156-157 | a simulated probability is the point of [0, 1] nearest to the primary probability plus the offset; so it differs from the primary one by at most the offset and moves in the offset's direction |
| `Signals.Confidence` | app_multi_model.py:162 | confidence lies in [50, 100] and is the percentage of the class the label predicts |
| `Signals.PrimaryOutcome` | app_multi_model.py:145-152 | the regression's entry is Successful exactly when its label is 1; probability `p * 100` in [0, 100]; confidence the larger of its two class percentages, `max(lr_proba) * 100`, in [50, 100] |
| `Signals.SimulatedOutcome` | app_multi_model.py:154-173 | a simulated entry's probability is the clipped sum of the primary probability and its offset, as a percentage; it lies within the offset width of the primary probability, is Successful exactly when its probability exceeds 50%, and its confidence is the larger of its two class percentages |
| `Ensemble.Aggregate` | app_multi_model.py:214-227 | votes sum to 3 and never tie; the verdict is Successful exactly when some two voters say 1; the average is the mean of the three raw probabilities as a percentage, so it lies between their minimum and maximum and in [0, 100] |
| `Ensemble.UnanimousVote` | app_multi_model.py:215-216 | when the three voters agree, the ensemble agrees with them |
| `Recommender.RequestedGenres` | app_multi_model.py:177 | one requested genre per comma-separated piece of the input, each free of commas and of whitespace at its ends; `RequestedGenresOfJoin` fixes each one as its stripped piece |
| `Recommender.RequestedGenresOfJoin` | app_multi_model.py:177 | for a request made of comma-free pieces joined by commas, the requested genres are exactly those pieces, each stripped, in order |
| `Recommender.HasGenre` | app_multi_model.py:179-180 | the `any` over the requested genres is true exactly when some requested genre is among the film's genres |
| `Recommender.Filter` | app_multi_model.py:182-198 | a mask keeps only films it accepts, all from the input, and every accepted film of the input |
| `Recommender.FilterFilms` | app_multi_model.py:182-198 | each masking loop produces exactly `Filter(films, keep)` |
| `Recommender.FilterOrderIrrelevant` | app_multi_model.py:182-198 | applying two masks in either order gives the same films |
| `Recommender.MatchingExactly` | app_multi_model.py:177-198 | a film survives the three filters exactly when it is in the catalog and shares a requested genre, lies in the budget band and lies in the rating band |
| `Recommender.SortByRoi` | app_multi_model.py:201 | the ranking is a permutation of its input, ordered by ROI from highest to lowest |
| `Recommender.TopByRoi` | app_multi_model.py:201 | the bounded ranking loop produces exactly the first `n` films of the ranking |
| `Recommender.Largest` | app_multi_model.py:201 | `nlargest(n, 'roi')` returns `min(n, survivors)` films ordered by ROI from highest to lowest |
| `Recommender.LargestSelects` | app_multi_model.py:201 | the selection has `min(n, survivors)` films, is ordered by ROI, is drawn from the survivors, and every survivor left out has an ROI no larger than any kept film |
| `Recommender.SortStable` | app_multi_model.py:201 | ranking keeps films of equal ROI in their original order |
| `Recommender.LargestKeepsFirstOfTies` | app_multi_model.py:201 | among films of one ROI value, the kept ones are the earliest in the order of the input |
| `Recommender.FilterKeepsTies` | app_multi_model.py:182-198 | a mask and taking the films of one ROI value commute, so a mask keeps the relative order of equal-ROI films |
| `Recommender.MatchingKeepsTies` | app_multi_model.py:177-201 | the survivors of one ROI value are that value's catalog films that pass the three filters, in catalog order; the recommended films of that value are a prefix of them |
| `Recommender.ProjectItems` | app_multi_model.py:203-212 | the `iterrows` loop projects each ranked film, in order, to its display item |
| `Recommender.Recommend` | app_multi_model.py:175-212 | the recommendation step produces exactly the specified recommendations |
| `Recommender.RecommendationsRanked` | app_multi_model.py:201-212 | at most 5 items, ordered by ROI from highest, each labelled Successful exactly when its ROI exceeds 1.0 |
| `Recommender.RecommendationsSound` | app_multi_model.py:177-212 | each item is the projection of a catalog film that shares a requested genre, lies in the budget band and lies in the rating band |
| `Recommender.RecommendationsComplete` | app_multi_model.py:182-201 | `min(5, survivors)` films are returned, and no survivor left out has a larger ROI than a returned one; ties keep the order of the survivors |
| `Recommender.NoGenreMatchNoRecommendations` | app_multi_model.py:177-201 | a request whose genres no catalog film has gets an empty list |
| `Lookup.FirstMatch` | app_multi_model.py:252-257 | the result is the first position whose title matches case-insensitively, and there is none exactly when no title matches |
| `Lookup.Detail` | app_multi_model.py:257-285 | the detail keeps the film's title, overview, budget, revenue, ROI, vote average, vote count and genres, shows "Unknown" for a missing release date and 0 for a missing runtime, and is labelled Successful exactly when ROI exceeds 1.0, which agrees with the film's flag |
| `Lookup.LookupFilm` | app_multi_model.py:250-283 | not-found exactly when no title matches; otherwise the detail of the first match, labelled Successful exactly when its ROI exceeds 1.0 |
| `Lookup.LookupIgnoresCase` | app_multi_model.py:252 | lower-casing the query does not change the lookup's answer |
| `App.Health` | app_multi_model.py:243-245 | the status is "ok" and three distinct model names are listed, one per voter |
| `App.Prepare` | app_multi_model.py:120-142 | rejected with the one error message exactly when the genre is all whitespace or the budget is not positive; otherwise the stripped genre, its overview, the row `(budget, 50.0, 120, rating, 1000)` and the text `"<overview> <genre>"` |
| `App.ModelOutcomes` | app_multi_model.py:144-173 | three entries named as `health` names them; each probability in [0, 100]; each confidence the larger of the entry's two class percentages, in [50, 100]; entries 1 and 2 the clipped sums of the primary probability with `noiseB` and `noiseC`, within their offset widths of the primary and labelled by the 50% threshold |
| `App.EnsembleMatchesModels` | app_multi_model.py:214-227 | the ensemble's Successful votes are the number of Successful entries in `models`, and its average is the mean of their probabilities |
| `App.Respond` | app_multi_model.py:144-236 | the response carries the three entries, an ensemble whose votes sum to 3 and match the entries, the recommendations for the stripped genre, and the input summary |
| `App.Predict` | app_multi_model.py:112-236 | an invalid request gets only the error, whatever the model inputs; a valid one gets the three model entries of `ModelOutcomes`, votes summing to 3 that count the Successful entries, the majority verdict, the mean of the three probabilities, confidences in [50, 100], the recommendations and the overview for its stripped genre |
| `App.ActionRequestFeatures` | app_multi_model.py:118-142 | a 50M Action request at rating 7 gives the row (50000000, 50, 120, 7, 1000) and an Action overview |
| `App.NegativeBudgetRejected` | app_multi_model.py:122-123 | a budget of -5 is rejected with the error |

## Left out

- HTTP routing, request JSON parsing and status codes (lines 108-123, 238-242, 289-290) are transport. The defaults `data.get` supplies for missing fields, and the 500 answer for a non-numeric budget, are part of this.
- Loading artifacts and the CSV (`joblib.load`, `pd.read_csv`) is I/O. So is `dropna` (line 27): a `real` cannot be missing or NaN, so rows are taken as complete.
- `extract_genres` and the `json.loads` of `get_film_detail` (lines 34-41, 260-264) are JSON parsing. Each film carries its genre list already parsed, and the detail view reuses that list. In the code, `get_film_detail` parses `film['genres']` again without the quote replacement `extract_genres` does at line 36, so its list can be empty where `genres_list` is not; the model does not capture that difference.
- `scaler.transform`, `tfidf.transform`, `hstack`, `predict` and `predict_proba` (lines 135-146) are calls into scikit-learn and scipy. The model stops at the unscaled feature row, and the classifier's label and probability are inputs.
- `random.choice` and `np.random.uniform` (lines 99, 156, 166) are randomness. Their outcomes are parameters with the same bounds.
- Display formatting (`$%.1fM`, `%.2fx`, `roi_multiplier`, `roi_percentage` and its 999% cap, `success_rate`) is float-to-string presentation. Recommendation items and details keep the raw numbers.
- IEEE floating point: all arithmetic is exact `real` arithmetic.
- Start-up banners (`print`) and `render_template` for `/` have no logic.
- Text.Lower: folds only ASCII letters, whereas Python's `str.lower()` folds all of Unicode. Titles outside ASCII may match in the service and not in the model.
- The feature row holds `runtime = 120` and `vote_count = 1000` as the reals 120.0 and 1000.0, as `np.array` stores them.
- Recommender.SortByRoi: takes the tie order of `nlargest(..., keep='first')` to be catalog order. That is the documented behaviour. pandas' internal selection algorithm is not modelled.
