/**
 * The recommendation engine: the catalog is narrowed to films sharing a
 * requested genre, with a budget within a multiplicative band of the request's
 * and a rating within an additive band of it; the survivors are ranked by ROI,
 * highest first, ties in catalog order, and the first five are shown.
 */
module Recommender {
  import opened Text
  import opened Catalog

  /** Most films a response recommends (`nlargest(5, 'roi')`). */
  const MaxRecommendations: nat := 5
  /** The budget band is `[budget * 0.5, budget * 2.0]`. */
  const BudgetLowFactor: real := 0.5
  const BudgetHighFactor: real := 2.0
  /** The rating band is `[rating - 1.0, rating + 1.0]`. */
  const RatingBand: real := 1.0

  /** One entry of `recommended_films`, before its numbers are formatted for display. */
  datatype RecommendationItem = RecommendationItem(
    title: string,
    budget: real,
    revenue: real,
    roi: real,
    rating: real,
    success: Prediction)

  // ---------------------------------------------------------------- filters

  /** The requested genres: every comma-separated entry, stripped. */
  function RequestedGenres(genreInput: string): (genres: seq<string>)
    ensures |genres| == |Split(genreInput, ',')| >= 1
    ensures forall i :: 0 <= i < |genres| ==>
      && ',' !in genres[i]
      && (genres[i] == [] || (!IsSpace(genres[i][0]) && !IsSpace(genres[i][|genres[i]| - 1])))
  {
    var parts := Split(genreInput, ',');
    seq(|parts|, i requires 0 <= i < |parts| => Trim(parts[i]))
  }

  /** The requested genres of a comma-joined request are its pieces, each stripped. */
  lemma RequestedGenresOfJoin(pieces: seq<string>)
    requires |pieces| >= 1
    requires forall i :: 0 <= i < |pieces| ==> ',' !in pieces[i]
    ensures |RequestedGenres(Join(pieces, ','))| == |pieces|
    ensures forall i :: 0 <= i < |pieces| ==> RequestedGenres(Join(pieces, ','))[i] == Trim(pieces[i])
  {
    SplitJoin(pieces, ',');
  }

  /** `has_genre`: `any` over the requested genres, true when one of them is among the film's genres. */
  predicate HasGenre(movieGenres: seq<string>, searchGenres: seq<string>): (b: bool)
    ensures b <==> exists i :: 0 <= i < |searchGenres| && searchGenres[i] in movieGenres
  {
    searchGenres != [] && (searchGenres[0] in movieGenres || HasGenre(movieGenres, searchGenres[1..]))
  }

  predicate InBudgetBand(f: FilmRecord, budget: real) {
    budget * BudgetLowFactor <= f.budget <= budget * BudgetHighFactor
  }

  predicate InRatingBand(f: FilmRecord, rating: real) {
    rating - RatingBand <= f.voteAverage <= rating + RatingBand
  }

  /** The three conditions a recommended film meets. */
  predicate PassesFilters(f: FilmRecord, genres: seq<string>, budget: real, rating: real) {
    HasGenre(f.genres, genres) && InBudgetBand(f, budget) && InRatingBand(f, rating)
  }

  function GenreFilter(genres: seq<string>): FilmRecord -> bool {
    (f: FilmRecord) => HasGenre(f.genres, genres)
  }

  function BudgetFilter(budget: real): FilmRecord -> bool {
    (f: FilmRecord) => InBudgetBand(f, budget)
  }

  function RatingFilter(rating: real): FilmRecord -> bool {
    (f: FilmRecord) => InRatingBand(f, rating)
  }

  /** The films of `films` that `keep` accepts, in their order (a boolean mask on a frame). */
  function Filter(films: seq<FilmRecord>, keep: FilmRecord -> bool): (kept: seq<FilmRecord>)
    ensures |kept| <= |films|
    ensures forall i :: 0 <= i < |kept| ==> keep(kept[i]) && kept[i] in films
    ensures forall f :: f in films && keep(f) ==> f in kept
  {
    if films == [] then []
    else
      var last := films[|films| - 1];
      Filter(films[..|films| - 1], keep) + (if keep(last) then [last] else [])
  }

  /** One reassignment `matching_movies = matching_movies[mask]`. */
  method FilterFilms(films: seq<FilmRecord>, keep: FilmRecord -> bool) returns (kept: seq<FilmRecord>)
    ensures kept == Filter(films, keep)
  {
    kept := [];
    for i := 0 to |films|
      invariant kept == Filter(films[..i], keep)
    {
      assert films[..i + 1][..i] == films[..i];
      if keep(films[i]) {
        kept := kept + [films[i]];
      }
    }
    assert films[..|films|] == films;
  }

  /** Filtering twice keeps what both filters accept. */
  lemma {:induction false} FilterTwice(films: seq<FilmRecord>, p: FilmRecord -> bool, q: FilmRecord -> bool,
                                       both: FilmRecord -> bool)
    requires forall f :: both(f) == (p(f) && q(f))
    ensures Filter(Filter(films, p), q) == Filter(films, both)
  {
    if films != [] {
      var init := films[..|films| - 1];
      var last := films[|films| - 1];
      FilterTwice(init, p, q, both);
      var once := Filter(films, p);
      assert once == Filter(init, p) + (if p(last) then [last] else []);
      FilterAppend(Filter(init, p), if p(last) then [last] else [], q);
    }
  }

  lemma {:induction false} FilterAppend(a: seq<FilmRecord>, b: seq<FilmRecord>, keep: FilmRecord -> bool)
    ensures Filter(a + b, keep) == Filter(a, keep) + Filter(b, keep)
  {
    if b != [] {
      var init := b[..|b| - 1];
      assert (a + b)[..|a + b| - 1] == a + init;
      FilterAppend(a, init, keep);
    } else {
      assert a + b == a;
    }
  }

  /** The order in which the filters are applied does not change the result. */
  lemma FilterOrderIrrelevant(films: seq<FilmRecord>, p: FilmRecord -> bool, q: FilmRecord -> bool)
    ensures Filter(Filter(films, p), q) == Filter(Filter(films, q), p)
  {
    var both := (f: FilmRecord) => p(f) && q(f);
    FilterTwice(films, p, q, both);
    FilterTwice(films, q, p, both);
  }

  /** The films that pass all three filters, in catalog order. */
  function Matching(catalog: seq<FilmRecord>, budget: real, rating: real, genreInput: string): seq<FilmRecord> {
    var byGenre := Filter(catalog, GenreFilter(RequestedGenres(genreInput)));
    var byBudget := Filter(byGenre, BudgetFilter(budget));
    Filter(byBudget, RatingFilter(rating))
  }

  /** A film is a match exactly when it is in the catalog and passes the three filters. */
  lemma MatchingExactly(catalog: seq<FilmRecord>, budget: real, rating: real, genreInput: string, f: FilmRecord)
    ensures f in Matching(catalog, budget, rating, genreInput) <==>
      f in catalog && PassesFilters(f, RequestedGenres(genreInput), budget, rating)
  {
    var genres := RequestedGenres(genreInput);
    var byGenre := Filter(catalog, GenreFilter(genres));
    var byBudget := Filter(byGenre, BudgetFilter(budget));
    if f in Matching(catalog, budget, rating, genreInput) {
      assert f in byBudget && InRatingBand(f, rating);
      assert f in byGenre && InBudgetBand(f, budget);
    }
  }

  // ---------------------------------------------------------------- ranking

  predicate SortedByRoi(s: seq<FilmRecord>) {
    forall i, j :: 0 <= i < j < |s| ==> s[i].roi >= s[j].roi
  }

  /** `x` placed after every film whose ROI is at least its own. */
  function InsertByRoi(s: seq<FilmRecord>, x: FilmRecord): (r: seq<FilmRecord>)
    ensures |r| == |s| + 1
    ensures multiset(r) == multiset(s) + multiset{x}
  {
    if s == [] then [x]
    else if s[0].roi >= x.roi then
      assert s == [s[0]] + s[1..];
      [s[0]] + InsertByRoi(s[1..], x)
    else [x] + s
  }

  /** Inserting a film no better than a bound into films no better than it keeps every film below the bound. */
  lemma {:induction false} InsertBounded(s: seq<FilmRecord>, x: FilmRecord, bound: real)
    requires forall i :: 0 <= i < |s| ==> s[i].roi <= bound
    requires x.roi <= bound
    ensures forall k :: 0 <= k < |InsertByRoi(s, x)| ==> InsertByRoi(s, x)[k].roi <= bound
  {
    if s != [] && s[0].roi >= x.roi {
      InsertBounded(s[1..], x, bound);
    }
  }

  /** Insertion keeps a ranked list ranked. */
  lemma {:induction false} InsertSorted(s: seq<FilmRecord>, x: FilmRecord)
    requires SortedByRoi(s)
    ensures SortedByRoi(InsertByRoi(s, x))
  {
    if s != [] && s[0].roi >= x.roi {
      var tail := InsertByRoi(s[1..], x);
      InsertSorted(s[1..], x);
      InsertBounded(s[1..], x, s[0].roi);
      assert InsertByRoi(s, x) == [s[0]] + tail;
      ConsSorted(s[0], tail);
    }
  }

  /** A film at least as good as every film of a ranked list can head it. */
  lemma ConsSorted(h: FilmRecord, t: seq<FilmRecord>)
    requires SortedByRoi(t)
    requires forall k :: 0 <= k < |t| ==> t[k].roi <= h.roi
    ensures SortedByRoi([h] + t)
  {
    var r := [h] + t;
    forall i, j | 0 <= i < j < |r|
      ensures r[i].roi >= r[j].roi
    {
      assert r[j] == t[j - 1];
      if i > 0 {
        assert r[i] == t[i - 1];
      }
    }
  }

  /** Films ordered by ROI, highest first; films of equal ROI keep their order. */
  function SortByRoi(s: seq<FilmRecord>): (r: seq<FilmRecord>)
    ensures |r| == |s|
    ensures multiset(r) == multiset(s)
    ensures SortedByRoi(r)
  {
    if s == [] then []
    else
      var init := SortByRoi(s[..|s| - 1]);
      assert s == s[..|s| - 1] + [s[|s| - 1]];
      InsertSorted(init, s[|s| - 1]);
      InsertByRoi(init, s[|s| - 1])
  }

  function Min(a: int, b: int): int {
    if a <= b then a else b
  }

  function Take(s: seq<FilmRecord>, n: nat): seq<FilmRecord> {
    s[..Min(n, |s|)]
  }

  /** `nlargest(n, 'roi')` with `keep='first'`. */
  function Largest(s: seq<FilmRecord>, n: nat): (top: seq<FilmRecord>)
    ensures |top| == Min(n, |s|)
    ensures SortedByRoi(top)
  {
    Take(SortByRoi(s), n)
  }

  lemma TakeCons(a: FilmRecord, t: seq<FilmRecord>, n: nat)
    requires n > 0
    ensures Take([a] + t, n) == [a] + Take(t, n - 1)
  {
  }

  lemma TakeNone(s: seq<FilmRecord>)
    ensures Take(s, 0) == []
  {
  }

  /** Inserting into the first `n` films and cutting at `n` is inserting into all of them and cutting. */
  lemma {:induction false} TakeInsert(s: seq<FilmRecord>, x: FilmRecord, n: nat)
    ensures Take(InsertByRoi(s, x), n) == Take(InsertByRoi(Take(s, n), x), n)
  {
    if s == [] {
      assert Take(s, n) == s;
    } else if n == 0 {
      TakeNone(InsertByRoi(s, x));
      TakeNone(InsertByRoi(Take(s, n), x));
    } else {
      if s[0].roi >= x.roi {
        TakeInsert(s[1..], x, n - 1);
        TakeInsertBehind(s, x, n);
      } else {
        TakeInsertInFront(s, x, n);
      }
    }
  }

  lemma TakeInsertBehind(s: seq<FilmRecord>, x: FilmRecord, n: nat)
    requires s != [] && n > 0 && s[0].roi >= x.roi
    requires Take(InsertByRoi(s[1..], x), n - 1) == Take(InsertByRoi(Take(s[1..], n - 1), x), n - 1)
    ensures Take(InsertByRoi(s, x), n) == Take(InsertByRoi(Take(s, n), x), n)
  {
    var head := Take(s, n);
    assert s == [s[0]] + s[1..];
    TakeCons(s[0], s[1..], n);
    assert head[0] == s[0] && head[1..] == Take(s[1..], n - 1);
    TakeCons(s[0], InsertByRoi(s[1..], x), n);
    TakeCons(s[0], InsertByRoi(Take(s[1..], n - 1), x), n);
  }

  lemma TakeInsertInFront(s: seq<FilmRecord>, x: FilmRecord, n: nat)
    requires s != [] && n > 0 && s[0].roi < x.roi
    ensures Take(InsertByRoi(s, x), n) == Take(InsertByRoi(Take(s, n), x), n)
  {
    var head := Take(s, n);
    assert head[0] == s[0];
    TakeCons(x, s, n);
    TakeCons(x, head, n);
  }

  /** The `n` films of highest ROI, kept in a bounded ranked list while scanning the films once. */
  method TopByRoi(films: seq<FilmRecord>, n: nat) returns (top: seq<FilmRecord>)
    ensures top == Largest(films, n)
  {
    top := [];
    for i := 0 to |films|
      invariant top == Largest(films[..i], n)
    {
      assert films[..i + 1][..i] == films[..i];
      TakeInsert(SortByRoi(films[..i]), films[i], n);
      top := Take(InsertByRoi(top, films[i]), n);
    }
    assert films[..|films|] == films;
  }

  /** The selection has the right size, is ranked, and leaves out nothing better than what it keeps. */
  lemma LargestSelects(s: seq<FilmRecord>, n: nat)
    ensures |Largest(s, n)| == Min(n, |s|)
    ensures SortedByRoi(Largest(s, n))
    ensures multiset(Largest(s, n)) <= multiset(s)
    ensures forall f, i | f in multiset(s) - multiset(Largest(s, n)) && 0 <= i < |Largest(s, n)| ::
      f.roi <= Largest(s, n)[i].roi
  {
    var sorted := SortByRoi(s);
    PrefixOfRanking(s, sorted, Min(n, |s|));
  }

  /** A prefix of a ranking of `s` is ranked, drawn from `s`, and at least as good as everything after it. */
  lemma PrefixOfRanking(s: seq<FilmRecord>, sorted: seq<FilmRecord>, k: nat)
    requires multiset(sorted) == multiset(s) && SortedByRoi(sorted) && k <= |sorted|
    ensures SortedByRoi(sorted[..k])
    ensures multiset(sorted[..k]) <= multiset(s)
    ensures forall f, i | f in multiset(s) - multiset(sorted[..k]) && 0 <= i < k :: f.roi <= sorted[..k][i].roi
  {
    var top, rest := sorted[..k], sorted[k..];
    assert sorted == top + rest;
    LeftOutIsRest(s, top, rest);
    forall f, i | f in multiset(s) - multiset(top) && 0 <= i < k
      ensures f.roi <= top[i].roi
    {
      var j :| 0 <= j < |rest| && rest[j] == f;
      assert sorted[k + j] == f;
    }
  }

  lemma LeftOutIsRest(s: seq<FilmRecord>, top: seq<FilmRecord>, rest: seq<FilmRecord>)
    requires multiset(s) == multiset(top + rest)
    ensures multiset(top) <= multiset(s)
    ensures forall f :: f in multiset(s) - multiset(top) ==> f in rest
  {
    assert multiset(top + rest) == multiset(top) + multiset(rest);
    forall f | f in multiset(s) - multiset(top)
      ensures f in rest
    {
      assert f in multiset(rest);
    }
  }

  // ------------------------------------------------------------- tie order

  /** The films of `s` whose ROI is `v`, in order. */
  function WithRoi(s: seq<FilmRecord>, v: real): seq<FilmRecord> {
    if s == [] then [] else (if s[0].roi == v then [s[0]] else []) + WithRoi(s[1..], v)
  }

  lemma {:induction false} WithRoiAppend(a: seq<FilmRecord>, b: seq<FilmRecord>, v: real)
    ensures WithRoi(a + b, v) == WithRoi(a, v) + WithRoi(b, v)
  {
    if a != [] {
      assert (a + b)[1..] == a[1..] + b;
      WithRoiAppend(a[1..], b, v);
    } else {
      assert a + b == b;
    }
  }

  lemma {:induction false} WithRoiNone(s: seq<FilmRecord>, v: real)
    requires forall i :: 0 <= i < |s| ==> s[i].roi < v
    ensures WithRoi(s, v) == []
  {
    if s != [] {
      WithRoiNone(s[1..], v);
    }
  }

  lemma {:induction false} InsertStable(s: seq<FilmRecord>, x: FilmRecord, v: real)
    requires SortedByRoi(s)
    ensures WithRoi(InsertByRoi(s, x), v) == WithRoi(s, v) + (if x.roi == v then [x] else [])
  {
    if s == [] {
      WithRoiSingle(x, v);
    } else if s[0].roi >= x.roi {
      InsertStable(s[1..], x, v);
      assert InsertByRoi(s, x) == [s[0]] + InsertByRoi(s[1..], x);
      assert s == [s[0]] + s[1..];
      ConsKeepsTies(s[0], s[1..], InsertByRoi(s[1..], x), if x.roi == v then [x] else [], v);
    } else {
      InsertInFrontStable(s, x, v);
    }
  }

  /** The step of `InsertStable` where `x` goes behind the head: a common head keeps the tie relation. */
  lemma ConsKeepsTies(h: FilmRecord, t: seq<FilmRecord>, t': seq<FilmRecord>, added: seq<FilmRecord>, v: real)
    requires WithRoi(t', v) == WithRoi(t, v) + added
    ensures WithRoi([h] + t', v) == WithRoi([h] + t, v) + added
  {
    WithRoiCons(h, t', v);
    WithRoiCons(h, t, v);
  }

  lemma WithRoiCons(h: FilmRecord, t: seq<FilmRecord>, v: real)
    ensures WithRoi([h] + t, v) == (if h.roi == v then [h] else []) + WithRoi(t, v)
  {
    assert ([h] + t)[1..] == t;
  }

  /** The step of `InsertStable` where `x` goes in front of all of `s`. */
  lemma InsertInFrontStable(s: seq<FilmRecord>, x: FilmRecord, v: real)
    requires SortedByRoi(s) && s != [] && s[0].roi < x.roi
    ensures WithRoi(InsertByRoi(s, x), v) == WithRoi(s, v) + (if x.roi == v then [x] else [])
  {
    assert InsertByRoi(s, x) == [x] + s;
    assert ([x] + s)[1..] == s;
    if x.roi == v {
      WithRoiNone(s, v);
    }
  }

  /** Ranking keeps films of equal ROI in their original order. */
  lemma {:induction false} SortStable(s: seq<FilmRecord>, v: real)
    ensures WithRoi(SortByRoi(s), v) == WithRoi(s, v)
  {
    if s == [] {
      assert SortByRoi(s) == [];
    } else {
      var init, last := s[..|s| - 1], s[|s| - 1];
      assert s == init + [last];
      var sortedInit := SortByRoi(init);
      assert SortByRoi(s) == InsertByRoi(sortedInit, last);
      SortStable(init, v);
      InsertStable(sortedInit, last, v);
      WithRoiAppend(init, [last], v);
      WithRoiSingle(last, v);
    }
  }

  lemma WithRoiSingle(x: FilmRecord, v: real)
    ensures WithRoi([x], v) == if x.roi == v then [x] else []
  {
    assert [x][1..] == [];
  }

  /** Among films of one ROI value, those kept are the earliest ones (`keep='first'`). */
  lemma LargestKeepsFirstOfTies(s: seq<FilmRecord>, n: nat, v: real)
    ensures WithRoi(Largest(s, n), v) <= WithRoi(s, v)
  {
    var sorted := SortByRoi(s);
    var top := Largest(s, n);
    assert sorted == top + sorted[|top|..];
    WithRoiAppend(top, sorted[|top|..], v);
    SortStable(s, v);
  }

  /** Filtering and then taking the films of one ROI value is taking them and then filtering. */
  lemma {:induction false} FilterKeepsTies(s: seq<FilmRecord>, keep: FilmRecord -> bool, v: real)
    ensures WithRoi(Filter(s, keep), v) == Filter(WithRoi(s, v), keep)
  {
    if s != [] {
      var init, last := s[..|s| - 1], s[|s| - 1];
      assert s == init + [last];
      var kept := if keep(last) then [last] else [];
      FilterKeepsTies(init, keep, v);
      WithRoiAppend(Filter(init, keep), kept, v);
      WithRoiAppend(init, [last], v);
      WithRoiSingle(last, v);
      FilterAppend(WithRoi(init, v), WithRoi([last], v), keep);
      if keep(last) {
        assert Filter([last], keep) == Filter([], keep) + [last];
      }
    }
  }

  /**
   * The survivors of one ROI value are that value's catalog films that pass the
   * filters, in catalog order; so the recommendations keep catalog order among ties.
   */
  lemma MatchingKeepsTies(catalog: seq<FilmRecord>, budget: real, rating: real, genreInput: string, v: real)
    ensures var passes := (f: FilmRecord) => PassesFilters(f, RequestedGenres(genreInput), budget, rating);
      && WithRoi(Matching(catalog, budget, rating, genreInput), v) == Filter(WithRoi(catalog, v), passes)
      && WithRoi(Ranked(catalog, budget, rating, genreInput), v) <= Filter(WithRoi(catalog, v), passes)
  {
    var genres := RequestedGenres(genreInput);
    var passes := (f: FilmRecord) => PassesFilters(f, genres, budget, rating);
    var genreAndBudget := (f: FilmRecord) => HasGenre(f.genres, genres) && InBudgetBand(f, budget);
    var byGenre := Filter(catalog, GenreFilter(genres));
    FilterTwice(catalog, GenreFilter(genres), BudgetFilter(budget), genreAndBudget);
    FilterTwice(catalog, genreAndBudget, RatingFilter(rating), passes);
    var matching := Matching(catalog, budget, rating, genreInput);
    assert matching == Filter(catalog, passes);
    FilterKeepsTies(catalog, passes, v);
    LargestKeepsFirstOfTies(matching, MaxRecommendations, v);
  }

  // ------------------------------------------------------------- projection

  function ToItem(f: FilmRecord): RecommendationItem {
    RecommendationItem(f.title, f.budget, f.revenue, f.roi, f.voteAverage, RoiLabel(f.roi))
  }

  function Project(films: seq<FilmRecord>): seq<RecommendationItem> {
    seq(|films|, i requires 0 <= i < |films| => ToItem(films[i]))
  }

  /** The `iterrows` loop that appends one display item per ranked film. */
  method ProjectItems(films: seq<FilmRecord>) returns (items: seq<RecommendationItem>)
    ensures items == Project(films)
  {
    items := [];
    for i := 0 to |films|
      invariant items == Project(films[..i])
    {
      items := items + [ToItem(films[i])];
    }
    assert films[..|films|] == films;
  }

  // ----------------------------------------------------------------- engine

  /** The films recommended for a request, best first. */
  function Ranked(catalog: seq<FilmRecord>, budget: real, rating: real, genreInput: string): seq<FilmRecord> {
    Largest(Matching(catalog, budget, rating, genreInput), MaxRecommendations)
  }

  function Recommendations(catalog: seq<FilmRecord>, budget: real, rating: real, genreInput: string)
    : seq<RecommendationItem>
  {
    Project(Ranked(catalog, budget, rating, genreInput))
  }

  /** The recommendation step of a prediction request. */
  method Recommend(catalog: seq<FilmRecord>, budget: real, rating: real, genreInput: string)
    returns (items: seq<RecommendationItem>)
    ensures items == Recommendations(catalog, budget, rating, genreInput)
  {
    var genres := RequestedGenres(genreInput);
    var matching := FilterFilms(catalog, GenreFilter(genres));
    matching := FilterFilms(matching, BudgetFilter(budget));
    matching := FilterFilms(matching, RatingFilter(rating));
    var top := TopByRoi(matching, MaxRecommendations);
    items := ProjectItems(top);
  }

  /** The list is at most five long, ranked by ROI from highest, and each item's label follows its ROI. */
  lemma RecommendationsRanked(catalog: seq<FilmRecord>, budget: real, rating: real, genreInput: string)
    ensures var items := Recommendations(catalog, budget, rating, genreInput);
      && |items| <= MaxRecommendations
      && (forall i, j :: 0 <= i < j < |items| ==> items[i].roi >= items[j].roi)
      && (forall i :: 0 <= i < |items| ==> (items[i].success == Successful <==> items[i].roi > SuccessThreshold))
  {
    var ranked := Ranked(catalog, budget, rating, genreInput);
    assert Recommendations(catalog, budget, rating, genreInput) == Project(ranked);
    ProjectRanked(ranked);
  }

  lemma ProjectRanked(ranked: seq<FilmRecord>)
    requires SortedByRoi(ranked)
    ensures var items := Project(ranked);
      && |items| == |ranked|
      && (forall i, j :: 0 <= i < j < |items| ==> items[i].roi >= items[j].roi)
      && (forall i :: 0 <= i < |items| ==> (items[i].success == Successful <==> items[i].roi > SuccessThreshold))
  {
  }

  /** Every recommended item is the projection of a catalog film that passes all three filters. */
  lemma RecommendationsSound(catalog: seq<FilmRecord>, budget: real, rating: real, genreInput: string)
    ensures var ranked := Ranked(catalog, budget, rating, genreInput);
      && |Recommendations(catalog, budget, rating, genreInput)| == |ranked|
      && forall i :: 0 <= i < |ranked| ==>
        && ranked[i] in catalog
        && PassesFilters(ranked[i], RequestedGenres(genreInput), budget, rating)
        && Recommendations(catalog, budget, rating, genreInput)[i] == ToItem(ranked[i])
  {
    var matching := Matching(catalog, budget, rating, genreInput);
    var ranked := Ranked(catalog, budget, rating, genreInput);
    LargestSelects(matching, MaxRecommendations);
    forall i | 0 <= i < |ranked|
      ensures ranked[i] in catalog && PassesFilters(ranked[i], RequestedGenres(genreInput), budget, rating)
    {
      assert ranked[i] in multiset(matching);
      MatchingExactly(catalog, budget, rating, genreInput, ranked[i]);
    }
  }

  /** Nothing that passes the filters is left out in favour of a film with a lower ROI. */
  lemma RecommendationsComplete(catalog: seq<FilmRecord>, budget: real, rating: real, genreInput: string)
    ensures var matching := Matching(catalog, budget, rating, genreInput);
      var ranked := Ranked(catalog, budget, rating, genreInput);
      && |ranked| == Min(MaxRecommendations, |matching|)
      && multiset(ranked) <= multiset(matching)
      && (forall f, i | f in multiset(matching) - multiset(ranked) && 0 <= i < |ranked| :: f.roi <= ranked[i].roi)
      && (forall v :: WithRoi(ranked, v) <= WithRoi(matching, v))
  {
    var matching := Matching(catalog, budget, rating, genreInput);
    assert Ranked(catalog, budget, rating, genreInput) == Largest(matching, MaxRecommendations);
    LargestComplete(matching, MaxRecommendations);
  }

  /** `LargestSelects` and `LargestKeepsFirstOfTies` together, for every ROI value. */
  lemma LargestComplete(s: seq<FilmRecord>, n: nat)
    ensures var top := Largest(s, n);
      && |top| == Min(n, |s|)
      && multiset(top) <= multiset(s)
      && (forall f, i | f in multiset(s) - multiset(top) && 0 <= i < |top| :: f.roi <= top[i].roi)
      && (forall v :: WithRoi(top, v) <= WithRoi(s, v))
  {
    LargestSelects(s, n);
    forall v ensures WithRoi(Largest(s, n), v) <= WithRoi(s, v) {
      LargestKeepsFirstOfTies(s, n, v);
    }
  }

  /** A request whose genres no catalog film has gets an empty list, not an error. */
  lemma NoGenreMatchNoRecommendations(catalog: seq<FilmRecord>, budget: real, rating: real, genreInput: string)
    requires forall i :: 0 <= i < |catalog| ==> !HasGenre(catalog[i].genres, RequestedGenres(genreInput))
    ensures Recommendations(catalog, budget, rating, genreInput) == []
  {
    var matching := Matching(catalog, budget, rating, genreInput);
    LargestSelects(matching, MaxRecommendations);
  }
}
