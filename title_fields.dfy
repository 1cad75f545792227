/**
 * The pure part of the title service: the external movie record, the title
 * row built from it, the comma-separated field parser, the required-field
 * check, the classification of a fetch outcome and the outer error mapping.
 */
module TitleFields {
  import opened Wrappers
  import opened JsText

  /** The sentinel the external API uses for "not available". */
  const NotAvailable: string := "N/A"

  datatype RatingEntry = RatingEntry(source: string, value: string)

  /**
   * One record of the external movie API. Every text field may be absent
   * from the JSON (`None`); an absent `Ratings` list is the empty list.
   */
  datatype MovieResponse = MovieResponse(
    title: Option<string>,
    year: Option<string>,
    rated: Option<string>,
    released: Option<string>,
    runtime: Option<string>,
    genre: Option<string>,
    director: Option<string>,
    writer: Option<string>,
    actors: Option<string>,
    plot: Option<string>,
    language: Option<string>,
    country: Option<string>,
    awards: Option<string>,
    poster: Option<string>,
    ratings: seq<RatingEntry>,
    metascore: Option<string>,
    imdbRating: Option<string>,
    imdbVotes: Option<string>,
    imdbID: Option<string>,
    typeName: Option<string>,
    totalSeasons: Option<string>,
    boxOffice: Option<string>,
    production: Option<string>,
    website: Option<string>,
    response: Option<string>,
    error: Option<string>)

  datatype TitleType = Movie | Series

  /** The `total_season` key: left out of the row, or present with a nullable count. */
  datatype SeasonField = NoSeason | Seasons(count: Option<int>)

  /** The data of one `title` row; `None` is a null column. */
  datatype TitleData = TitleData(
    title: Option<string>,
    posterUrl: Option<string>,
    rated: Option<string>,
    released: Option<string>,
    runtime: Option<string>,
    plot: Option<string>,
    awards: Option<string>,
    metaScore: Option<string>,
    imdbRating: Option<string>,
    imdbVotes: Option<string>,
    titleType: TitleType,
    imdbId: Option<string>,
    year: Option<string>,
    boxOffice: Option<string>,
    website: Option<string>,
    production: Option<string>,
    totalSeason: SeasonField)

  /** What the service throws: Nest HTTP exceptions, and the storage error of a unique index. */
  datatype Failure =
    | BadRequest(message: string)
    | InternalServerError(message: string)
    | UniqueViolation(table: string)

  /** JavaScript truthiness of an optional string: present and not empty. */
  predicate Truthy(v: Option<string>) {
    v.Some? && v.value != ""
  }

  // ------------------------------------------------- comma-separated values

  function TrimAll(items: seq<string>): (r: seq<string>)
    ensures |r| == |items|
    ensures forall k :: 0 <= k < |r| ==> r[k] == Trim(items[k])
  {
    seq(|items|, k requires 0 <= k < |items| => Trim(items[k]))
  }

  /** The non-empty items, in order. */
  function NonEmpty(items: seq<string>): (r: seq<string>)
    ensures |r| <= |items|
    ensures forall k :: 0 <= k < |r| ==> |r[k]| > 0 && r[k] in items
  {
    if |items| == 0 then []
    else (if |items[0]| > 0 then [items[0]] else []) + NonEmpty(items[1..])
  }

  /** A character absent from a string is absent from its trimmed form. */
  lemma TrimKeepsOut(c: char, s: string)
    requires c !in s
    ensures c !in Trim(s)
  {
    TrimInfix(s);
    var i, j :| 0 <= i <= j <= |s| && Trim(s) == s[i..j];
  }

  /** `parseCommaSeparatedValues`: split on commas, trim every piece, drop the empty ones. */
  function ParseCommaSeparatedValues(s: string): seq<string> {
    NonEmpty(TrimAll(Split(s, ',')))
  }

  /** Every parsed item is non-empty, has no white space at either end and contains no comma. */
  lemma ParseItemsClean(s: string)
    ensures forall item :: item in ParseCommaSeparatedValues(s) ==>
              |item| > 0 && ',' !in item && Trimmed(item)
  {
    var pieces := Split(s, ',');
    var trimmed := TrimAll(pieces);
    forall k | 0 <= k < |trimmed|
      ensures ',' !in trimmed[k] && Trimmed(trimmed[k])
    {
      TrimKeepsOut(',', pieces[k]);
      TrimInfix(pieces[k]);
    }
  }

  lemma {:induction false} NonEmptyConcat(a: seq<string>, b: seq<string>)
    ensures NonEmpty(a + b) == NonEmpty(a) + NonEmpty(b)
  {
    if |a| > 0 {
      assert (a + b)[1..] == a[1..] + b;
      NonEmptyConcat(a[1..], b);
    } else {
      assert a + b == b;
    }
  }

  /**
   * Parsing distributes over a comma: the items of `a,b` are the items of
   * `a` followed by the items of `b`. Order is kept and repeats are not removed.
   */
  lemma ParseConcat(a: string, b: string)
    ensures ParseCommaSeparatedValues(a + "," + b)
         == ParseCommaSeparatedValues(a) + ParseCommaSeparatedValues(b)
  {
    var pa, pb := Split(a, ','), Split(b, ',');
    assert a + "," + b == a + [','] + b;
    SplitConcat(a, b, ',');
    TrimAllConcat(pa, pb);
    NonEmptyConcat(TrimAll(pa), TrimAll(pb));
  }

  lemma TrimAllConcat(a: seq<string>, b: seq<string>)
    ensures TrimAll(a + b) == TrimAll(a) + TrimAll(b)
  {
  }

  lemma {:induction false} SplitWithoutSeparator(s: string, sep: char)
    requires sep !in s
    ensures Split(s, sep) == [s]
  {
    if |s| > 0 {
      assert sep !in s[1..];
      SplitWithoutSeparator(s[1..], sep);
      assert s == [s[0]] + s[1..];
    }
  }

  /** A field without commas yields its trimmed text, or nothing when that is empty. */
  lemma ParseSingle(s: string)
    requires ',' !in s
    ensures ParseCommaSeparatedValues(s) == if Trim(s) == "" then [] else [Trim(s)]
  {
    SplitWithoutSeparator(s, ',');
    var t := Trim(s);
    assert TrimAll([s]) == [t];
    assert NonEmpty([t]) == (if |t| > 0 then [t] else []) + NonEmpty([]);
  }

  /** A word with white space at neither end, after at most one leading blank, trims to itself. */
  lemma TrimWord(w: string)
    requires |w| > 0 && !IsWhiteSpace(w[0]) && !IsWhiteSpace(w[|w| - 1])
    ensures Trim(w) == w && Trim(" " + w) == w
  {
    assert TrimStart(w) == w;
    assert (" " + w)[1..] == w;
    assert TrimStart(" " + w) == w;
    assert TrimEnd(w) == w;
  }

  /** A word in the sense of the parser: non-empty, comma-free, no white space at either end. */
  predicate IsWord(w: string) {
    |w| > 0 && ',' !in w && !IsWhiteSpace(w[0]) && !IsWhiteSpace(w[|w| - 1])
  }

  /**
   * A repeated name is kept twice and in place: `"Action, Drama, Action"`
   * yields `["Action", "Drama", "Action"]`; the parser does not deduplicate.
   */
  lemma ParseKeepsRepeats(x: string, y: string)
    requires IsWord(x) && IsWord(y)
    ensures ParseCommaSeparatedValues(x + ", " + y + ", " + x) == [x, y, x]
  {
    var tail := (" " + y) + "," + (" " + x);
    Regroup(x, y);
    calc {
      ParseCommaSeparatedValues(x + ", " + y + ", " + x);
      ParseCommaSeparatedValues(x + "," + tail);
      { ParseConcat(x, tail); }
      ParseCommaSeparatedValues(x) + ParseCommaSeparatedValues(tail);
      { ParseConcat(" " + y, " " + x); }
      ParseCommaSeparatedValues(x) + (ParseCommaSeparatedValues(" " + y) + ParseCommaSeparatedValues(" " + x));
      { ParseWord(x); ParseWord(y); }
      [x] + ([y] + [x]);
    }
  }

  lemma Regroup(x: string, y: string)
    ensures x + ", " + y + ", " + x == x + "," + ((" " + y) + "," + (" " + x))
  {
  }

  /** A word, with or without one leading blank, parses to itself. */
  lemma ParseWord(w: string)
    requires IsWord(w)
    ensures ParseCommaSeparatedValues(w) == [w]
    ensures ParseCommaSeparatedValues(" " + w) == [w]
  {
    TrimWord(w);
    assert ',' !in " " + w;
    ParseSingle(w);
    ParseSingle(" " + w);
  }

  // ------------------------------------------------------------ title row

  /** Column value of an optional field: null when absent or `'N/A'`, otherwise verbatim. */
  predicate NullsNotAvailable(source: Option<string>, column: Option<string>) {
    && (column.None? <==> (source.None? || source == Some(NotAvailable)))
    && (column.Some? ==> column == source)
  }

  function OrNull(v: Option<string>): (r: Option<string>)
    ensures NullsNotAvailable(v, r)
  {
    if v == Some(NotAvailable) then None else v
  }

  /** `mapTitleType`: `movie` for the discriminator `"movie"`, `series` for anything else. */
  function MapTitleType(t: Option<string>): (r: TitleType)
    ensures r == Movie <==> t == Some("movie")
    ensures r == Series <==> t != Some("movie")
  {
    if t == Some("movie") then Movie else Series
  }

  /** `parseInt(totalSeasons, 10) || null`: NaN and zero both become null. */
  function SeasonCount(totalSeasons: Option<string>): (r: Option<int>)
    ensures r.Some? ==> r.value != 0 && totalSeasons.Some? && ParseInt(totalSeasons.value) == r
    ensures r.None? <==> (totalSeasons.None? || ParseInt(totalSeasons.value) in {None, Some(0)})
  {
    match totalSeasons
    case None => None
    case Some(text) =>
      match ParseInt(text)
      case None => None
      case Some(n) => if n == 0 then None else Some(n)
  }

  /** `buildTitleData`: the `title` row for one external record. */
  function BuildTitleData(m: MovieResponse): (r: TitleData)
    ensures r.title == m.title && r.imdbId == m.imdbID && r.year == m.year
    ensures && NullsNotAvailable(m.poster, r.posterUrl)
            && NullsNotAvailable(m.rated, r.rated)
            && NullsNotAvailable(m.released, r.released)
            && NullsNotAvailable(m.runtime, r.runtime)
            && NullsNotAvailable(m.plot, r.plot)
            && NullsNotAvailable(m.awards, r.awards)
            && NullsNotAvailable(m.metascore, r.metaScore)
            && NullsNotAvailable(m.imdbRating, r.imdbRating)
            && NullsNotAvailable(m.imdbVotes, r.imdbVotes)
            && NullsNotAvailable(m.boxOffice, r.boxOffice)
            && NullsNotAvailable(m.website, r.website)
            && NullsNotAvailable(m.production, r.production)
    ensures r.titleType == Movie <==> m.typeName == Some("movie")
    ensures r.totalSeason.Seasons? <==> m.typeName == Some("series") && m.totalSeasons != Some(NotAvailable)
    ensures r.totalSeason.Seasons? ==> r.totalSeason.count == SeasonCount(m.totalSeasons)
  {
    TitleData(
      title := m.title,
      posterUrl := OrNull(m.poster),
      rated := OrNull(m.rated),
      released := OrNull(m.released),
      runtime := OrNull(m.runtime),
      plot := OrNull(m.plot),
      awards := OrNull(m.awards),
      metaScore := OrNull(m.metascore),
      imdbRating := OrNull(m.imdbRating),
      imdbVotes := OrNull(m.imdbVotes),
      titleType := MapTitleType(m.typeName),
      imdbId := m.imdbID,
      year := m.year,
      boxOffice := OrNull(m.boxOffice),
      website := OrNull(m.website),
      production := OrNull(m.production),
      totalSeason :=
        if m.typeName == Some("series") && m.totalSeasons != Some(NotAvailable)
        then Seasons(SeasonCount(m.totalSeasons))
        else NoSeason)
  }

  /** A movie never stores a season count, whatever `totalSeasons` says. */
  lemma MovieHasNoSeasons(m: MovieResponse)
    requires m.typeName == Some("movie")
    ensures BuildTitleData(m).totalSeason == NoSeason && BuildTitleData(m).titleType == Movie
  {
  }

  /** A series with `totalSeasons` the numeral of a positive count stores that count. */
  lemma SeriesStoresSeasonCount(m: MovieResponse, n: nat)
    requires m.typeName == Some("series") && m.totalSeasons == Some(Decimal(n)) && n > 0
    ensures BuildTitleData(m).totalSeason == Seasons(Some(n))
  {
    var d := Decimal(n);
    ParseIntDecimal(n);
    assert d != NotAvailable by {
      assert IsDigit(d[0]) && !IsDigit(NotAvailable[0]);
    }
    assert SeasonCount(m.totalSeasons) == Some(n);
  }

  // -------------------------------------------------------- required fields

  const RequiredFields: seq<string> := ["Title", "imdbID", "Type", "Year"]

  /** `data[field]` for the four required field names. */
  function FieldValue(m: MovieResponse, field: string): Option<string> {
    if field == "Title" then m.title
    else if field == "imdbID" then m.imdbID
    else if field == "Type" then m.typeName
    else if field == "Year" then m.year
    else None
  }

  /** `fields.filter((field) => !data[field])`. */
  function Missing(m: MovieResponse, fields: seq<string>): seq<string> {
    if |fields| == 0 then []
    else (if Truthy(FieldValue(m, fields[0])) then [] else [fields[0]]) + Missing(m, fields[1..])
  }

  /** The missing required fields, named in the fixed order Title, imdbID, Type, Year. */
  lemma MissingFieldsInOrder(m: MovieResponse)
    ensures Missing(m, RequiredFields)
         == (if Truthy(m.title) then [] else ["Title"])
          + (if Truthy(m.imdbID) then [] else ["imdbID"])
          + (if Truthy(m.typeName) then [] else ["Type"])
          + (if Truthy(m.year) then [] else ["Year"])
  {
    var f := RequiredFields;
    assert f[1..] == ["imdbID", "Type", "Year"] && f[1..][1..] == ["Type", "Year"];
    assert f[1..][1..][1..] == ["Year"] && f[1..][1..][1..][1..] == [];
    assert Missing(m, ["Year"]) == (if Truthy(m.year) then [] else ["Year"]);
    assert Missing(m, ["Type", "Year"])
        == (if Truthy(m.typeName) then [] else ["Type"]) + Missing(m, ["Year"]);
    assert Missing(m, ["imdbID", "Type", "Year"])
        == (if Truthy(m.imdbID) then [] else ["imdbID"]) + Missing(m, ["Type", "Year"]);
  }

  /** `validateMovieData`: BadRequest naming the missing fields, or nothing. */
  function ValidateMovieData(m: MovieResponse): (r: Outcome<Failure>)
    ensures r.Fail? <==> !Truthy(m.title) || !Truthy(m.imdbID) || !Truthy(m.typeName) || !Truthy(m.year)
    ensures r.Fail? ==> r.error == BadRequest("Missing required fields: " + Join(Missing(m, RequiredFields), ", "))
  {
    MissingFieldsInOrder(m);
    var missing := Missing(m, RequiredFields);
    if |missing| > 0 then Fail(BadRequest("Missing required fields: " + Join(missing, ", "))) else Pass
  }

  // ------------------------------------------------------------ fetch, errors

  /** What the HTTP fetch delivered: an axios failure, or a decoded body. */
  datatype FetchOutcome = RequestFailed | Received(data: MovieResponse)

  /**
   * The classification in `fetchMovieData`: an axios failure and a body with
   * `Response === 'False'` are BadRequest; any other body is passed on.
   */
  function ClassifyFetch(f: FetchOutcome): (r: Result<MovieResponse, Failure>)
    ensures r.Ok? <==> f.Received? && f.data.response != Some("False")
    ensures r.Ok? ==> r.value == f.data
    ensures f.RequestFailed? ==> r == Err(BadRequest("Failed to fetch movie data from external API"))
    ensures f.Received? && f.data.response == Some("False") ==>
              r == Err(BadRequest("Movie not found: " + if Truthy(f.data.error) then f.data.error.value else "Unknown error"))
  {
    match f
    case RequestFailed => Err(BadRequest("Failed to fetch movie data from external API"))
    case Received(data) =>
      if data.response == Some("False") then
        Err(BadRequest("Movie not found: " + if Truthy(data.error) then data.error.value else "Unknown error"))
      else Ok(data)
  }

  /** The catch block of `createTitle`: BadRequest is re-thrown, anything else is hidden. */
  function MapError(e: Failure): (r: Failure)
    ensures r.BadRequest? <==> e.BadRequest?
    ensures e.BadRequest? ==> r == e
    ensures !e.BadRequest? ==> r == InternalServerError("Failed to create title")
  {
    if e.BadRequest? then e else InternalServerError("Failed to create title")
  }
}
