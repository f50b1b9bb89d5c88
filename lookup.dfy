/** Film detail lookup: the first catalog film whose title equals the query, ignoring case. */
module Lookup {
  import opened Wrappers
  import opened Text
  import opened Catalog

  /** The detail view of a film; a missing release date reads "Unknown", a missing runtime 0. */
  datatype FilmDetail = FilmDetail(
    title: string,
    overview: string,
    budget: real,
    revenue: real,
    roi: real,
    voteAverage: real,
    voteCount: int,
    releaseDate: string,
    runtime: int,
    genres: seq<string>,
    success: Prediction)

  datatype LookupError = FilmNotFound

  const UnknownReleaseDate: string := "Unknown"

  /** `df['title'].str.lower() == title.lower()`. */
  predicate TitleMatches(title: string, query: string) {
    Lower(title) == Lower(query)
  }

  /** Position of the first film whose title matches, if any. */
  function FirstMatch(catalog: seq<FilmRecord>, query: string): (r: Option<nat>)
    ensures r.Some? ==> r.value < |catalog| && TitleMatches(catalog[r.value].title, query)
    ensures r.Some? ==> forall j :: 0 <= j < r.value ==> !TitleMatches(catalog[j].title, query)
    ensures r.None? <==> forall j :: 0 <= j < |catalog| ==> !TitleMatches(catalog[j].title, query)
  {
    if catalog == [] then None
    else if TitleMatches(catalog[0].title, query) then Some(0)
    else
      match FirstMatch(catalog[1..], query)
      case None => None
      case Some(k) => Some(k + 1)
  }

  /** The detail view of a catalog film, with the `roi > 1.0` label. */
  function Detail(f: FilmRecord): (d: FilmDetail)
    ensures d.title == f.title && d.roi == f.roi && d.genres == f.genres
    ensures d.overview == f.overview && d.budget == f.budget && d.revenue == f.revenue
    ensures d.voteAverage == f.voteAverage && d.voteCount == f.voteCount
    ensures d.releaseDate == if f.releaseDate.Some? then f.releaseDate.value else UnknownReleaseDate
    ensures d.runtime == if f.runtime.Some? then f.runtime.value else 0
    ensures d.success == Successful <==> f.roi > SuccessThreshold
    ensures WellFormed(f) ==> (d.success == Successful <==> f.isSuccessful == 1)
  {
    FilmDetail(
      f.title, f.overview, f.budget, f.revenue, f.roi, f.voteAverage, f.voteCount,
      match f.releaseDate case Some(d) => d case None => UnknownReleaseDate,
      match f.runtime case Some(m) => m case None => 0,
      f.genres,
      RoiLabel(f.roi))
  }

  /** `get_film_detail`: the detail of the first matching film, or not-found. */
  function LookupFilm(catalog: seq<FilmRecord>, query: string): (r: Result<FilmDetail, LookupError>)
    ensures r.Failure? <==> forall j :: 0 <= j < |catalog| ==> !TitleMatches(catalog[j].title, query)
    ensures r.Success? ==> exists i :: && 0 <= i < |catalog|
                                       && TitleMatches(catalog[i].title, query)
                                       && (forall j :: 0 <= j < i ==> !TitleMatches(catalog[j].title, query))
                                       && r.value == Detail(catalog[i])
    ensures r.Success? ==> (r.value.success == Successful <==> r.value.roi > SuccessThreshold)
  {
    match FirstMatch(catalog, query)
    case None => Failure(FilmNotFound)
    case Some(i) => Success(Detail(catalog[i]))
  }

  /** The query's case does not matter. */
  lemma {:induction false} FirstMatchIgnoresCase(catalog: seq<FilmRecord>, query: string)
    ensures FirstMatch(catalog, query) == FirstMatch(catalog, Lower(query))
  {
    LowerIdempotent(query);
    if catalog != [] {
      FirstMatchIgnoresCase(catalog[1..], query);
    }
  }

  /** Looking up a title in any mix of upper and lower case finds the same film. */
  lemma LookupIgnoresCase(catalog: seq<FilmRecord>, query: string)
    ensures LookupFilm(catalog, query) == LookupFilm(catalog, Lower(query))
  {
    FirstMatchIgnoresCase(catalog, query);
  }
}
