/**
 * The in-memory film catalog: rows of the TMDB dataset are admitted only when
 * both budget and revenue are positive, and each admitted row gains its
 * return on investment and its 0/1 success flag.
 */
module Catalog {
  import opened Wrappers

  /** One row of the dataset as loaded, with the genre list already parsed. */
  datatype RawFilm = RawFilm(
    title: string,
    overview: string,
    budget: real,
    revenue: real,
    voteAverage: real,
    voteCount: int,
    runtime: Option<int>,
    releaseDate: Option<string>,
    genres: seq<string>)

  /** An admitted catalog record: the row plus its derived `roi` and `is_successful` columns. */
  datatype FilmRecord = FilmRecord(
    title: string,
    overview: string,
    budget: real,
    revenue: real,
    voteAverage: real,
    voteCount: int,
    runtime: Option<int>,
    releaseDate: Option<string>,
    genres: seq<string>,
    roi: real,
    isSuccessful: int)

  /** The label shown for a film or a prediction. */
  datatype Prediction = Successful | NotSuccessful

  /** The ROI above which a film counts as successful. */
  const SuccessThreshold: real := 1.0

  /** Rows survive loading only with a positive budget and a positive revenue. */
  predicate Admissible(r: RawFilm) {
    r.budget > 0.0 && r.revenue > 0.0
  }

  /** Return on investment, `(revenue - budget) / budget`. */
  function Roi(budget: real, revenue: real): (roi: real)
    requires budget > 0.0
    ensures budget * (roi + 1.0) == revenue
    ensures revenue > 0.0 ==> roi > -1.0
  {
    var roi := (revenue - budget) / budget;
    assert budget * (roi + 1.0) == revenue;
    assert roi + 1.0 <= 0.0 ==> budget * (roi + 1.0) <= 0.0;
    roi
  }

  /** The `is_successful` column: 1 for an ROI above the threshold, else 0. */
  function SuccessFlag(roi: real): int {
    if roi > SuccessThreshold then 1 else 0
  }

  /** The label shown for a film with this ROI. */
  function RoiLabel(roi: real): Prediction {
    if roi > SuccessThreshold then Successful else NotSuccessful
  }

  /** What every catalog record satisfies. */
  predicate WellFormed(f: FilmRecord) {
    && f.budget > 0.0
    && f.revenue > 0.0
    && f.roi == Roi(f.budget, f.revenue)
    && (f.isSuccessful == 0 || f.isSuccessful == 1)
    && (f.isSuccessful == 1 <==> f.roi > SuccessThreshold)
  }

  /** The record an admissible row becomes. */
  function Derive(r: RawFilm): (f: FilmRecord)
    requires Admissible(r)
    ensures WellFormed(f)
    ensures f.title == r.title && f.overview == r.overview && f.genres == r.genres
    ensures f.budget == r.budget && f.revenue == r.revenue && f.voteAverage == r.voteAverage
    ensures f.voteCount == r.voteCount && f.runtime == r.runtime && f.releaseDate == r.releaseDate
  {
    var roi := Roi(r.budget, r.revenue);
    FilmRecord(r.title, r.overview, r.budget, r.revenue, r.voteAverage, r.voteCount,
               r.runtime, r.releaseDate, r.genres, roi, SuccessFlag(roi))
  }

  /** The catalog built from `rows`, in row order. */
  function Admit(rows: seq<RawFilm>): (catalog: seq<FilmRecord>)
    ensures |catalog| <= |rows|
    ensures forall i :: 0 <= i < |catalog| ==> WellFormed(catalog[i])
  {
    if rows == [] then []
    else
      var last := rows[|rows| - 1];
      Admit(rows[..|rows| - 1]) + (if Admissible(last) then [Derive(last)] else [])
  }

  /** Loading: drop rows without positive budget and revenue, then add `roi` and `is_successful`. */
  method BuildCatalog(rows: seq<RawFilm>) returns (catalog: seq<FilmRecord>)
    ensures catalog == Admit(rows)
  {
    catalog := [];
    for i := 0 to |rows|
      invariant catalog == Admit(rows[..i])
    {
      assert rows[..i + 1][..i] == rows[..i];
      if Admissible(rows[i]) {
        catalog := catalog + [Derive(rows[i])];
      }
    }
    assert rows[..|rows|] == rows;
  }

  /**
   * Admission is a mask over the rows: the catalog of two blocks of rows is the
   * catalog of the first followed by the catalog of the second, so row order and
   * repeated rows are kept.
   */
  lemma {:induction false} AdmitAppend(a: seq<RawFilm>, b: seq<RawFilm>)
    ensures Admit(a + b) == Admit(a) + Admit(b)
  {
    if b != [] {
      var init := b[..|b| - 1];
      assert (a + b)[..|a + b| - 1] == a + init;
      assert (a + b)[|a + b| - 1] == b[|b| - 1];
      AdmitAppend(a, init);
    } else {
      assert a + b == a;
    }
  }

  /** A single row is admitted as its derived record exactly when it is admissible. */
  lemma AdmitOne(r: RawFilm)
    ensures Admit([r]) == if Admissible(r) then [Derive(r)] else []
  {
    assert [r][..0] == [];
  }

  /** Every admissible row is in the catalog. */
  lemma {:induction false} AdmitKeeps(rows: seq<RawFilm>, i: nat)
    requires i < |rows| && Admissible(rows[i])
    ensures Derive(rows[i]) in Admit(rows)
  {
    var init := rows[..|rows| - 1];
    if i < |rows| - 1 {
      assert init[i] == rows[i];
      AdmitKeeps(init, i);
    }
  }

  /** Every catalog record comes from an admissible row. */
  lemma {:induction false} AdmitOnlyAdmissible(rows: seq<RawFilm>, f: FilmRecord)
    requires f in Admit(rows)
    ensures exists i :: 0 <= i < |rows| && Admissible(rows[i]) && Derive(rows[i]) == f
  {
    var init := rows[..|rows| - 1];
    if f in Admit(init) {
      AdmitOnlyAdmissible(init, f);
      var i :| 0 <= i < |init| && Admissible(init[i]) && Derive(init[i]) == f;
      assert rows[i] == init[i];
    } else {
      assert Admissible(rows[|rows| - 1]) && Derive(rows[|rows| - 1]) == f;
    }
  }

  /** A film is successful exactly when its revenue is more than twice its budget. */
  lemma SuccessMeansRevenueAboveDoubleBudget(f: FilmRecord)
    requires WellFormed(f)
    ensures f.isSuccessful == 1 <==> f.revenue > 2.0 * f.budget
  {
    var b, r := f.budget, f.revenue;
    assert b * (f.roi + 1.0) == r;
    if f.roi > 1.0 {
      assert b * (f.roi + 1.0) > b * 2.0;
    } else {
      assert b * (f.roi + 1.0) <= b * 2.0;
    }
  }

  /** The label shown for a catalog film agrees with its `is_successful` flag. */
  lemma LabelAgreesWithFlag(f: FilmRecord)
    requires WellFormed(f)
    ensures RoiLabel(f.roi) == Successful <==> f.isSuccessful == 1
  {
  }

  /** A 40M budget with 400M revenue is an ROI of 9 and a success. */
  lemma TenfoldRevenueExample()
    ensures Roi(40000000.0, 400000000.0) == 9.0
    ensures SuccessFlag(Roi(40000000.0, 400000000.0)) == 1
  {
  }
}
