/**
 * The metadata lookup of `tmdbApi`: the IMDb id is taken from the file name,
 * and of the metadata service's reply the first movie, else the first series,
 * is used. The request itself is a parameter.
 */
module Tmdb {
  import opened Wrappers
  import opened Strings

  /** A title record of the metadata service, as far as the plugin reads it. */
  datatype Title = Title(originalLanguage: string)

  /** The reply of the find-by-external-id request, or a failed request. */
  datatype Reply = Found(movieResults: seq<Title>, tvResults: seq<Title>) | RequestFailed

  predicate StartsWithTt(s: string)
  {
    |s| >= 2 && s[..2] == "tt"
  }

  /** The regular expression `tt\d{7}` matches at position p. */
  predicate IdAt(s: string, p: nat)
  {
    p + 9 <= |s| && s[p] == 't' && s[p + 1] == 't' && AllDigits(s[p + 2..p + 9])
  }

  /**
   * `\d{7,8}` is greedy: the match is the longest the pattern allows, so it
   * covers eight digits exactly when eight digits follow "tt".
   */
  function IdLength(s: string, p: nat): (n: nat)
    requires IdAt(s, p)
    ensures n == 9 || n == 10
    ensures p + n <= |s| && AllDigits(s[p + 2..p + n])
    ensures n == 10 <==> p + 10 <= |s| && AllDigits(s[p + 2..p + 10])
  {
    if p + 9 < |s| && IsDigit(s[p + 9]) then
      var d := s[p + 2..p + 10];
      assert forall k :: 0 <= k < 7 ==> d[k] == s[p + 2..p + 9][k];
      assert d[7] == s[p + 9];
      10
    else
      assert p + 10 <= |s| ==> s[p + 2..p + 10][7] == s[p + 9];
      9
  }

  /** The leftmost position at or after `from` where the pattern matches. */
  function FirstIdAt(s: string, from: nat): (r: Option<nat>)
    ensures r.Some? ==>
      from <= r.value && IdAt(s, r.value) && forall q :: from <= q < r.value ==> !IdAt(s, q)
    ensures r.None? ==> forall q :: from <= q ==> !IdAt(s, q)
    decreases |s| - from
  {
    if from + 9 > |s| then None
    else if IdAt(s, from) then Some(from)
    else FirstIdAt(s, from + 1)
  }

  /**
   * The IMDb id for a file name: the name itself when it starts with "tt",
   * otherwise the first match of `/(tt\d{7,8})/`; none for an empty name or
   * when nothing matches.
   */
  function ExtractImdbId(fileName: string): (r: Option<string>)
    ensures fileName == "" ==> r == None
    ensures StartsWithTt(fileName) ==> r == Some(fileName)
    ensures fileName != "" && !StartsWithTt(fileName) ==>
      (r.Some? <==> exists p: nat :: IdAt(fileName, p))
    ensures r.Some? && !StartsWithTt(fileName) ==>
      exists p: nat :: IdAt(fileName, p) && (forall q: nat :: q < p ==> !IdAt(fileName, q)) &&
        r.value == fileName[p..p + IdLength(fileName, p)]
    ensures r.Some? ==> StartsWithTt(r.value)
  {
    if fileName == "" then None
    else if StartsWithTt(fileName) then Some(fileName)
    else match FirstIdAt(fileName, 0)
      case None => None
      case Some(p) =>
        var id := fileName[p..p + IdLength(fileName, p)];
        assert id[..2] == fileName[p..p + 2] == "tt";
        Some(id)
  }

  /**
   * A name that does not start with "tt" but holds the pattern somewhere has
   * an id, and that id is "tt" and then seven or eight digits.
   */
  lemma ExtractedIdShape(fileName: string, at: nat)
    requires !StartsWithTt(fileName) && IdAt(fileName, at)
    ensures ExtractImdbId(fileName).Some?
    ensures var id := ExtractImdbId(fileName).value;
      (|id| == 9 || |id| == 10) && id[..2] == "tt" && AllDigits(id[2..])
  {
    assert FirstIdAt(fileName, 0).Some?;
    var p := FirstIdAt(fileName, 0).value;
    var n := IdLength(fileName, p);
    var id := ExtractImdbId(fileName).value;
    assert id == fileName[p..p + n];
    assert id[..2] == "tt";
    var digits := fileName[p + 2..p + 9];
    if n == 9 {
      assert id[2..] == digits;
    } else {
      assert id[2..] == digits + [fileName[p + 9]];
      assert forall k :: 0 <= k < 7 ==> (digits + [fileName[p + 9]])[k] == digits[k];
    }
  }

  /** `movie_results[0]` when there is one, else `tv_results[0]` (maybe undefined). */
  function SelectTitle(reply: Reply): (r: Option<Title>)
    ensures r.Some? <==> reply.Found? && (|reply.movieResults| > 0 || |reply.tvResults| > 0)
    ensures r.Some? && |reply.movieResults| > 0 ==> r.value == reply.movieResults[0]
    ensures r.Some? && |reply.movieResults| == 0 ==> r.value == reply.tvResults[0]
  {
    match reply
    case RequestFailed => None
    case Found(movies, tv) =>
      if |movies| > 0 then Some(movies[0])
      else if |tv| > 0 then Some(tv[0])
      else None
  }

  /**
   * `tmdbApi`: no request is made when no id can be extracted; otherwise the
   * request `find` for that id decides.
   */
  function TmdbLookup(fileName: string, find: string -> Reply): (r: Option<Title>)
    ensures ExtractImdbId(fileName).None? ==> r.None?
    ensures fileName == "" ==> r.None?
    ensures ExtractImdbId(fileName).Some? ==>
      var reply := find(ExtractImdbId(fileName).value);
      (r.Some? <==> reply.Found? && (|reply.movieResults| > 0 || |reply.tvResults| > 0)) &&
      (r.Some? && |reply.movieResults| > 0 ==> r.value == reply.movieResults[0]) &&
      (r.Some? && |reply.movieResults| == 0 ==> r.value == reply.tvResults[0])
  {
    match ExtractImdbId(fileName)
    case None => None
    case Some(id) => SelectTitle(find(id))
  }
}
