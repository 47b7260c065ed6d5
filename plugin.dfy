/**
 * The plugin entry point and the module-level `response` object it updates.
 * The response is created once, when the plugin module is loaded, and every
 * call appends to its preset; nothing resets `processFile` to false.
 */
module Plugin {
  import opened Wrappers
  import opened Strings
  import opened Languages
  import opened Streams
  import opened Preset
  import opened Tmdb
  import opened Catalogs
  import opened Strategies

  /** The plugin inputs the decision reads, after defaults are applied. */
  datatype Inputs = Inputs(userLangs: string, priority: string, radarrApiKey: string, sonarrApiKey: string)

  /** The file as the pipeline hands it over: `meta.FileName`, its path, `container`, probe streams. */
  datatype MediaFile = MediaFile(fileName: string, filePath: string, container: string, streams: seq<Stream>)

  /** The four branches of the final decision. */
  datatype Verdict = RemoveTracks | WouldRemoveAll | NothingToRemove | UnknownError

  /** Where a call of the plugin ended. */
  datatype Outcome = NoImdbId | NoTitle | Classified(title: Title, tracks: Tracks, verdict: Verdict)

  /**
   * The final decision: remove when something is removed and something kept,
   * cancel when everything would go, nothing to do when nothing is removed.
   * The fourth branch cannot be reached.
   */
  function Decide(tracks: Tracks): (v: Verdict)
    ensures v != UnknownError
    ensures v == RemoveTracks <==> |tracks.remove| > 0 && |tracks.keep| > 0
    ensures v == WouldRemoveAll <==> |tracks.remove| > 0 && |tracks.keep| == 0
    ensures v == NothingToRemove <==> |tracks.remove| == 0
  {
    if |tracks.remove| > 0 && |tracks.keep| > 0 then RemoveTracks
    else if |tracks.remove| > 0 && |tracks.keep| == 0 then WouldRemoveAll
    else if |tracks.remove| == 0 then NothingToRemove
    else UnknownError
  }

  /**
   * The decision in terms of the streams: tracks are removed exactly when
   * some audio track's language is not retained and some counted audio track
   * is kept; the plugin cancels exactly when every counted track would go.
   */
  lemma DecisionOnStreams(streams: seq<Stream>, langs: seq<Option<string>>, getName: string -> string)
    ensures var v := Decide(Classify(streams, langs, getName));
      (v == RemoveTracks <==>
        (exists p :: 0 <= p < |streams| && Removable(streams[p], langs)) &&
        (exists p :: 0 <= p < |streams| && Counted(streams[p]) && !Removable(streams[p], langs))) &&
      (v == WouldRemoveAll <==>
        (exists p :: 0 <= p < |streams| && Removable(streams[p], langs)) &&
        (forall p :: 0 <= p < |streams| && Counted(streams[p]) ==> Removable(streams[p], langs))) &&
      (v == NothingToRemove <==> forall p :: 0 <= p < |streams| ==> !Removable(streams[p], langs))
  {
    RemoveEmptyIff(streams, langs, getName);
    KeepEmptyIff(streams, langs, getName);
  }

  /** Tracks tagged "eng" or "und" are never removed, whatever the other languages. */
  lemma EnglishAndUndefinedKept(title: Title, userLangs: seq<string>, iso: IsoLanguages, st: Stream)
    requires HasLanguage(st) && (Language(st) == English || Language(st) == Undefined)
    ensures !Removable(st, RetainList(title.originalLanguage, userLangs, iso.alpha2ToAlpha3B))
  {
  }

  /** An English film's retain list: "eng" is the original language, "und" is added. */
  lemma EnglishFilmRetainList(iso: IsoLanguages)
    requires iso.alpha2ToAlpha3B("en") == Some(English)
    ensures RetainList("en", [], iso.alpha2ToAlpha3B) == [Some(English), Some(Undefined)]
  {
  }

  /**
   * Audio tracks tagged eng, fra and ger with the retain list of an English
   * film: the French and German tracks (audio positions 1 and 2) are removed
   * and the English one is kept.
   */
  lemma ForeignTracksRemoved(getName: string -> string)
    ensures var t := Classify([AudioTrack("eng"), AudioTrack("fra"), AudioTrack("ger")],
                              [Some(English), Some(Undefined)], getName);
      t.keep == [0] && t.remove == [1, 2] && Decide(t) == RemoveTracks
  {
    var langs := [Some(English), Some(Undefined)];
    var s1 := [AudioTrack("eng")];
    var s2 := s1 + [AudioTrack("fra")];
    var s3 := s2 + [AudioTrack("ger")];
    assert [] + s1 == s1;
    ClassifyLast([], AudioTrack("eng"), langs, getName);
    ClassifyLast(s1, AudioTrack("fra"), langs, getName);
    ClassifyLast(s2, AudioTrack("ger"), langs, getName);
    assert s3 == [AudioTrack("eng"), AudioTrack("fra"), AudioTrack("ger")];
  }

  /** The preset text for removed positions 1 and 2. */
  lemma ForeignTracksPreset()
    ensures MapArgs([1, 2]) == "-map -0:a:1 -map -0:a:2 "
  {
    assert MapArg(1) == "-map -0:a:1 " by {
      assert NatToString(1) == "1";
    }
    assert MapArgs([2]) == "-map -0:a:2 " by {
      assert NatToString(2) == "2";
      assert [2][1..] == [];
    }
    assert [1, 2][1..] == [2];
  }

  /** Tracks tagged fra and ger, an English film: removing both would strip all audio. */
  lemma AllForeignTracksCancel(getName: string -> string)
    ensures var t := Classify([AudioTrack("fra"), AudioTrack("ger")], [Some(English), Some(Undefined)], getName);
      t.keep == [] && t.remove == [0, 1] && Decide(t) == WouldRemoveAll
  {
    var langs := [Some(English), Some(Undefined)];
    var s1 := [AudioTrack("fra")];
    var s2 := s1 + [AudioTrack("ger")];
    assert [] + s1 == s1;
    ClassifyLast([], AudioTrack("fra"), langs, getName);
    ClassifyLast(s1, AudioTrack("ger"), langs, getName);
    assert s2 == [AudioTrack("fra"), AudioTrack("ger")];
  }

  function AudioTrack(language: string): Stream
  {
    Stream("audio", Some(Tags(Some(language))))
  }

  /**
   * The strategy loop. Each case of the switch falls through to the ones
   * after it, so every iteration ends with the file name as the id; the loop
   * stops after the first iteration unless the file name is empty. `ran`
   * lists the case bodies that were executed.
   */
  method ResolveImdbId(priorities: seq<Strategy>, file: MediaFile, inputs: Inputs, listings: Listings)
    returns (imdbId: Option<string>, ran: seq<Strategy>)
    ensures priorities == [] ==> imdbId == None && ran == []
    ensures priorities != [] ==> imdbId == Some(file.fileName)
    ensures file.fileName != "" && priorities != [] ==> ran == CasesFrom(priorities[0])
    ensures file.fileName == "" ==> ran == Executed(priorities)
  {
    imdbId := None;
    ran := [];
    for i := 0 to |priorities|
      invariant ran == Executed(priorities[..i])
      invariant i == 0 ==> imdbId == None
      invariant i > 0 ==> imdbId == Some(file.fileName) && file.fileName == ""
    {
      var cases;
      imdbId, cases := RunSwitch(priorities[i], file, inputs, listings);
      ran := ran + cases;
      ExecutedPrefix(priorities, i);
      if Truthy(imdbId) {
        assert i == 0;
        break;
      }
    }
    assert priorities[..|priorities|] == priorities;
  }

  /**
   * One execution of the `switch`: entered at the case for `strategy`, it
   * runs that case body and every one after it, so the last assignment, the
   * file name, is the id. `ran` lists the case bodies run.
   */
  method RunSwitch(strategy: Strategy, file: MediaFile, inputs: Inputs, listings: Listings)
    returns (imdbId: Option<string>, ran: seq<Strategy>)
    ensures imdbId == Some(file.fileName)
    ensures ran == CasesFrom(strategy)
  {
    ran := [];
    if strategy == Radarr {
      imdbId := RadarrLookup(inputs.radarrApiKey, listings.radarrMovies, file.fileName);
      ran := ran + [Radarr];
    }
    if strategy == Radarr || strategy == Sonarr {
      imdbId := SonarrLookup(inputs.sonarrApiKey, SonarrSeries(listings), file.filePath);
      ran := ran + [Sonarr];
    }
    imdbId := Some(file.fileName);
    ran := ran + [Imdb];
  }

  /**
   * With the "sonarr" priority, the first iteration (the only one for a
   * non-empty file name) asks Sonarr and never Radarr.
   */
  lemma SonarrPriorityFirst(priority: string)
    requires priority == "sonarr"
    ensures var cases := CasesFrom(Priorities(priority)[0]);
      cases[0] == Sonarr && Radarr !in cases
  {
  }

  /** The module-level `response` object. */
  class Response {
    var processFile: bool
    var preset: string
    var container: string
    const handBrakeMode: bool
    const ffmpegMode: bool
    const reQueueAfter: bool

    /** The object as created when the plugin module is loaded. */
    constructor ()
      ensures !processFile && preset == InitialPreset && container == "."
      ensures !handBrakeMode && ffmpegMode && !reQueueAfter
    {
      processFile := false;
      preset := InitialPreset;
      container := ".";
      handBrakeMode := false;
      ffmpegMode := true;
      reQueueAfter := false;
    }

    /**
     * `processStreams`: builds the retain list, walks the probe streams with
     * the audio counter, and appends a negative map per removed track and then
     * the stream-copy arguments to the preset.
     */
    method ProcessStreams(title: Title, streams: seq<Stream>, userLangs: seq<string>, iso: IsoLanguages)
      returns (tracks: Tracks)
      modifies this`preset
      ensures tracks == Classify(streams, RetainList(title.originalLanguage, userLangs, iso.alpha2ToAlpha3B), iso.getName)
      ensures preset == old(preset) + MapArgs(tracks.remove) + CopyArgs
    {
      var langs := RetainList(title.originalLanguage, userLangs, iso.alpha2ToAlpha3B);
      tracks := ScanStreams(streams, langs, iso.getName);
      preset := preset + CopyArgs;
    }

    /** The loop of `processStreams` over the probe streams. */
    method ScanStreams(streams: seq<Stream>, langs: seq<Option<string>>, getName: string -> string)
      returns (tracks: Tracks)
      modifies this`preset
      ensures tracks == Classify(streams, langs, getName)
      ensures preset == old(preset) + MapArgs(tracks.remove)
    {
      var keep: seq<nat> := [];
      var remove: seq<nat> := [];
      var remLangs: seq<string> := [];
      var streamIndex: nat := 0;
      for i := 0 to |streams|
        invariant Tracks(keep, remove, remLangs) == Classify(streams[..i], langs, getName)
        invariant streamIndex == |keep| + |remove|
        invariant preset == old(preset) + MapArgs(remove)
      {
        ClassifyLast(streams[..i], streams[i], langs, getName);
        assert streams[..i + 1] == streams[..i] + [streams[i]];
        keep, remove, remLangs, streamIndex := ScanStream(streams[i], langs, getName, keep, remove, remLangs, streamIndex, old(preset));
      }
      assert streams[..|streams|] == streams;
      tracks := Tracks(keep, remove, remLangs);
    }

    /**
     * One iteration of the loop: the next audio position goes to `keep` or,
     * with a negative map in the preset, to `remove`.
     */
    method ScanStream(stream: Stream, langs: seq<Option<string>>, getName: string -> string,
                      keep0: seq<nat>, remove0: seq<nat>, remLangs0: seq<string>, streamIndex0: nat,
                      ghost start: string)
      returns (keep: seq<nat>, remove: seq<nat>, remLangs: seq<string>, streamIndex: nat)
      requires streamIndex0 == |keep0| + |remove0|
      requires preset == start + MapArgs(remove0)
      modifies this`preset
      ensures Tracks(keep, remove, remLangs) == Step(Tracks(keep0, remove0, remLangs0), stream, langs, getName)
      ensures streamIndex == |keep| + |remove|
      ensures preset == start + MapArgs(remove)
    {
      keep, remove, remLangs, streamIndex := keep0, remove0, remLangs0, streamIndex0;
      if stream.codecType == "audio" {
        if stream.tags.None? {
          keep := keep + [streamIndex];
          streamIndex := streamIndex + 1;
          return;
        }
        if Truthy(stream.tags.value.language) {
          var language := stream.tags.value.language.value;
          if Some(language) in langs {
            keep := keep + [streamIndex];
          } else {
            MapArgsAppend(remove, streamIndex);
            assert preset + MapArg(streamIndex) == start + MapArgs(remove + [streamIndex]);
            remove := remove + [streamIndex];
            preset := preset + MapArg(streamIndex);
            remLangs := remLangs + [getName(language)];
          }
          streamIndex := streamIndex + 1;
        }
      }
    }

    /** The decision block: only the first branch sets `processFile`. */
    method ApplyDecision(tracks: Tracks) returns (verdict: Verdict)
      modifies this`processFile
      ensures verdict == Decide(tracks)
      ensures processFile == (old(processFile) || verdict == RemoveTracks)
    {
      verdict := Decide(tracks);
      if verdict == RemoveTracks {
        processFile := true;
      }
    }

    /**
     * `plugin`: resolve the id, look the title up, classify the streams and
     * decide. It stops without touching preset or processFile when no id or
     * no title is found.
     */
    method Run(file: MediaFile, inputs: Inputs, listings: Listings, find: string -> Reply, iso: IsoLanguages)
      returns (outcome: Outcome)
      modifies this
      ensures container == "." + file.container
      ensures outcome == NoImdbId <==> file.fileName == ""
      ensures outcome == NoTitle <==> file.fileName != "" && TmdbLookup(file.fileName, find).None?
      ensures !outcome.Classified? ==> preset == old(preset) && processFile == old(processFile)
      ensures outcome.Classified? ==>
        TmdbLookup(file.fileName, find) == Some(outcome.title) &&
        outcome.tracks == Classify(file.streams,
          RetainList(outcome.title.originalLanguage, UserLanguages(inputs.userLangs), iso.alpha2ToAlpha3B),
          iso.getName) &&
        outcome.verdict == Decide(outcome.tracks) &&
        preset == old(preset) + MapArgs(outcome.tracks.remove) + CopyArgs &&
        processFile == (old(processFile) || outcome.verdict == RemoveTracks)
    {
      container := "." + file.container;
      var priorities := Priorities(inputs.priority);
      var imdbId, _ := ResolveImdbId(priorities, file, inputs, listings);
      if !Truthy(imdbId) {
        return NoImdbId;
      }
      var title := TmdbLookup(imdbId.value, find);
      if title.None? {
        return NoTitle;
      }
      var tracks := ProcessStreams(title.value, file.streams, UserLanguages(inputs.userLangs), iso);
      var verdict := ApplyDecision(tracks);
      return Classified(title.value, tracks, verdict);
    }
  }
}
