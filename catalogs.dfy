/**
 * The matching rules of the Radarr and Sonarr lookups, over listings that
 * have already been fetched (the requests are not part of this model).
 */
module Catalogs {
  import opened Wrappers
  import opened Strings

  datatype MovieFile = MovieFile(relativePath: Option<string>)

  /** An entry of Radarr's movie listing. */
  datatype Movie = Movie(imdbId: string, movieFile: Option<MovieFile>)

  /** An entry of Sonarr's series listing. */
  datatype Show = Show(imdbId: string, path: Option<string>)

  /**
   * The fetched listings: Radarr's (empty when the request failed), and
   * Sonarr's from the first endpoint (None when it failed) and from the v3
   * endpoint (empty when it failed).
   */
  datatype Listings = Listings(radarrMovies: seq<Movie>, sonarrSeries: Option<seq<Show>>, sonarrSeriesV3: seq<Show>)

  // ---------------------------------------------------------------------------
  // Radarr
  // ---------------------------------------------------------------------------

  /** The three filters: a movie file, a truthy relative path, equal to the name. */
  predicate MovieMatches(movie: Movie, fileName: string)
  {
    movie.movieFile.Some? && Truthy(movie.movieFile.value.relativePath) &&
    movie.movieFile.value.relativePath.value == fileName
  }

  /** The movies that pass the filters, in listing order. */
  function MatchingMovies(movies: seq<Movie>, fileName: string): (r: seq<Movie>)
    ensures |r| <= |movies|
    ensures forall m :: m in r ==> m in movies && MovieMatches(m, fileName)
    ensures forall k :: 0 <= k < |movies| && MovieMatches(movies[k], fileName) ==> movies[k] in r
    decreases |movies|
  {
    if movies == [] then []
    else
      var rest := MatchingMovies(movies[1..], fileName);
      if MovieMatches(movies[0], fileName) then [movies[0]] + rest else rest
  }

  /**
   * The filter keeps order and repeats: filtering a concatenation is the
   * concatenation of the filtered parts.
   */
  lemma {:induction false} MatchingMoviesAppend(a: seq<Movie>, b: seq<Movie>, fileName: string)
    ensures MatchingMovies(a + b, fileName) == MatchingMovies(a, fileName) + MatchingMovies(b, fileName)
    decreases |a|
  {
    if a != [] {
      assert (a + b)[1..] == a[1..] + b;
      MatchingMoviesAppend(a[1..], b, fileName);
    } else {
      assert a + b == b;
    }
  }

  /**
   * The filter keeps the listing's order and repeats: when every movie
   * matches the result is the listing itself, and when none does it is empty.
   */
  lemma {:induction false} MatchingMoviesExtremes(movies: seq<Movie>, fileName: string)
    ensures (forall k :: 0 <= k < |movies| ==> MovieMatches(movies[k], fileName)) ==>
      MatchingMovies(movies, fileName) == movies
    ensures (forall k :: 0 <= k < |movies| ==> !MovieMatches(movies[k], fileName)) ==>
      MatchingMovies(movies, fileName) == []
    decreases |movies|
  {
    if movies != [] {
      MatchingMoviesExtremes(movies[1..], fileName);
      assert forall k :: 0 <= k < |movies[1..]| ==> movies[1..][k] == movies[k + 1];
      assert [movies[0]] + movies[1..] == movies;
    }
  }

  /** The first filtered movie is the first matching movie of the listing. */
  lemma {:induction false} FirstMatchingMovie(movies: seq<Movie>, fileName: string)
    requires MatchingMovies(movies, fileName) != []
    ensures exists k :: 0 <= k < |movies| && MatchingMovies(movies, fileName)[0] == movies[k] &&
                        MovieMatches(movies[k], fileName) &&
                        forall j :: 0 <= j < k ==> !MovieMatches(movies[j], fileName)
    decreases |movies|
  {
    if MovieMatches(movies[0], fileName) {
      assert MatchingMovies(movies, fileName)[0] == movies[0];
    } else {
      var rest := movies[1..];
      assert MatchingMovies(movies, fileName) == MatchingMovies(rest, fileName);
      FirstMatchingMovie(rest, fileName);
      var k :| 0 <= k < |rest| && MatchingMovies(rest, fileName)[0] == rest[k] &&
        MovieMatches(rest[k], fileName) && forall j :: 0 <= j < k ==> !MovieMatches(rest[j], fileName);
      assert movies[k + 1] == rest[k];
      forall j | 0 <= j < k + 1
        ensures !MovieMatches(movies[j], fileName)
      {
        if j > 0 {
          assert movies[j] == rest[j - 1];
        }
      }
    }
  }

  /**
   * `getRadarrResult`: nothing without an API key; otherwise the IMDb id of
   * the first movie whose file is the current file, if any.
   */
  function RadarrLookup(apiKey: string, movies: seq<Movie>, fileName: string): (r: Option<string>)
    ensures apiKey == "" ==> r == None
    ensures apiKey != "" ==>
      (r.Some? <==> exists k :: 0 <= k < |movies| && MovieMatches(movies[k], fileName))
    ensures r.Some? ==>
      exists k :: 0 <= k < |movies| && MovieMatches(movies[k], fileName) &&
                  r.value == movies[k].imdbId &&
                  forall j :: 0 <= j < k ==> !MovieMatches(movies[j], fileName)
  {
    if apiKey == "" then None
    else
      var found := MatchingMovies(movies, fileName);
      if |found| == 0 then None
      else FirstMatchingMovie(movies, fileName); Some(found[0].imdbId)
  }

  // ---------------------------------------------------------------------------
  // Sonarr
  // ---------------------------------------------------------------------------

  /** `path.replace(/\\/g, '/')`. */
  function NormalizeSeparators(path: string): (r: string)
    ensures |r| == |path|
    ensures '\\' !in r
    ensures forall k :: 0 <= k < |path| && path[k] != '\\' ==> r[k] == path[k]
    ensures forall k :: 0 <= k < |path| && path[k] == '\\' ==> r[k] == '/'
  {
    seq(|path|, k requires 0 <= k < |path| => if path[k] == '\\' then '/' else path[k])
  }

  /** The last segment of a series path, under either kind of separator. */
  function SeriesFolder(path: string): string
  {
    var parts := Split(NormalizeSeparators(path), '/');
    parts[|parts| - 1]
  }

  /** The segment before the last of the file path (undefined when there is none). */
  function FileFolder(filePath: string): Option<string>
  {
    var parts := Split(filePath, '/');
    if |parts| >= 2 then Some(parts[|parts| - 2]) else None
  }

  /** A series folder holds no separator and ends its (normalised) path. */
  lemma SeriesFolderIsLastSegment(path: string)
    ensures var folder := SeriesFolder(path);
      var normal := NormalizeSeparators(path);
      '/' !in folder && '\\' !in folder && |folder| <= |path| &&
      normal[|path| - |folder|..] == folder &&
      (|folder| < |path| ==> normal[|path| - |folder| - 1] == '/')
  {
    var normal := NormalizeSeparators(path);
    var parts := Split(normal, '/');
    var folder := parts[|parts| - 1];
    assert folder == SeriesFolder(path);
    SplitLast(normal, '/');
    assert '/' !in folder;
    assert '\\' !in folder by {
      assert folder == normal[|normal| - |folder|..];
      forall k | 0 <= k < |folder|
        ensures folder[k] != '\\'
      {
        assert folder[k] == normal[|normal| - |folder| + k];
      }
    }
  }

  /** A show with a truthy path whose folder is the file's parent folder. */
  predicate ShowMatches(show: Show, filePath: string)
  {
    Truthy(show.path) && FileFolder(filePath) == Some(SeriesFolder(show.path.value))
  }

  /**
   * The listing used: the first endpoint's, or the v3 one when that request
   * failed. An empty array is truthy, so an empty first listing is used as is.
   */
  function SonarrSeries(listings: Listings): (r: seq<Show>)
    ensures listings.sonarrSeries.Some? ==> r == listings.sonarrSeries.value
    ensures listings.sonarrSeries.None? ==> r == listings.sonarrSeriesV3
    ensures listings.sonarrSeries == Some([]) ==> r == []
  {
    match listings.sonarrSeries
    case Some(series) => series
    case None => listings.sonarrSeriesV3
  }

  /**
   * `getSonarrResult`: nothing without an API key; otherwise the IMDb id of
   * the first show whose folder is the file's parent folder, if any.
   */
  method SonarrLookup(apiKey: string, series: seq<Show>, filePath: string) returns (r: Option<string>)
    ensures apiKey == "" ==> r == None
    ensures apiKey != "" ==>
      (r.Some? <==> exists k :: 0 <= k < |series| && ShowMatches(series[k], filePath))
    ensures r.Some? ==>
      exists k :: 0 <= k < |series| && ShowMatches(series[k], filePath) &&
                  r.value == series[k].imdbId &&
                  forall j :: 0 <= j < k ==> !ShowMatches(series[j], filePath)
  {
    if apiKey == "" {
      return None;
    }
    var result: Option<Show> := None;
    for i := 0 to |series|
      invariant result == None
      invariant forall j :: 0 <= j < i ==> !ShowMatches(series[j], filePath)
    {
      var show := series[i];
      if Truthy(show.path) {
        var seriesFolder := SeriesFolder(show.path.value);
        var fileFolder := FileFolder(filePath);
        if fileFolder == Some(seriesFolder) {
          result := Some(show);
          break;
        }
      }
    }
    if result.None? {
      return None;
    }
    return Some(result.value.imdbId);
  }
}
