# Keep native language plus English: a Dafny model

This project models the decision logic of the Tdarr plugin
`Tdarr_Plugin_henk_Keep_Native_Lang_Plus_Eng`. The plugin drops the audio
tracks of a media file whose language is neither the title's original
language, one of the user's languages, English (`eng`) nor undefined (`und`).
To do this it:

1. resolves an IMDb id for the file. It tries Radarr, Sonarr or the file name,
   in the configured priority order, inside a `switch` whose cases fall
   through.
2. asks the metadata service for the title's original language.
3. builds the retain list and walks the probe streams with an audio-only
   counter. Each audio track goes to `keep` or `remove`, and every removed
   track appends an FFmpeg negative map `-map -0:a:N ` to the module-level
   `response.preset`.
4. decides whether to process the file. It does so only when something is
   removed and something is kept.

Modules, in dependency order:

- `Wrappers`: `Option`.
- `Strings`:
  - JavaScript truthiness of an optional string;
  - `split`/`join` on a separator, with both round trips;
  - decimal rendering of a `nat`, and reading it back.
- `Languages`:
  - the ISO-639 library lookups, as function-valued parameters;
  - the `user_langs` split;
  - the retain list.
- `Streams`:
  - probe streams and the `Tracks` record;
  - `Classify`, the specification of the classification loop;
  - lemmas about it.
- `Preset`: the negative-map text, and a parser that reads it back.
- `Tmdb`: IMDb-id extraction from a file name, and the choice of title from the reply.
- `Catalogs`: the Radarr and Sonarr matching rules over listings already fetched.
- `Strategies`:
  - the priority order;
  - which `case` bodies run when the fall-through switch is entered at a strategy.
- `Plugin`:
  - the decision;
  - the strategy loop;
  - `class Response`, the module-level response object. Its `ProcessStreams`
    and `Run` methods update `preset`, `processFile` and `container` in place.

Behaviour of the code that the model keeps as written:

- **The resolved id is always the file name.** Line 294, `if (imdbId) break;`,
  shows that the loop is meant to stop at the first strategy that finds an
  id. The cases of the switch (lines 284-291) have no `break`, however, so
  every strategy falls through to `imdbId = file.meta.FileName`.
  `ResolveImdbId` proves that the resolved id always equals the file name.
  With a non-empty name the loop stops after the first iteration. With an
  empty name it runs to the end and returns the empty name.
- **Only the first `case` entered decides which lookups run.** The Radarr or
  Sonarr answer is overwritten in the same iteration.
- **The response is not per call.** It is created once, when the plugin module
  is loaded, and nothing resets it. Each classified call appends to `preset`,
  and `processFile` is never set back to `false`. `Response.Run` states this.
- **Some audio tracks get no position.** An audio stream that has tags but no
  truthy `language` is logged as kept. It is pushed to neither list and does
  not advance `streamIndex`. `Streams.Counted` and
  `Streams.UncountedStreamIgnored` model this as written. FFmpeg's
  `-0:a:N` counts every audio stream, so every later negative map then names
  the audio stream one place before the intended one:
  `Streams.UntaggedLanguageShiftsPositions` shows a French track after such a
  stream being given position 0, the position of the untagged stream.

## Model

| member | source | states |
|---|---|---|
| Strings.JoinSplit | Community/Tdarr_Plugin_henk_Keep_Native_Lang_Plus_Eng.js:310 | joining the comma-split pieces back with the separator gives the original string |
| Strings.SplitJoin | Community/Tdarr_Plugin_henk_Keep_Native_Lang_Plus_Eng.js:310 | splitting the join of separator-free pieces gives the pieces back |
| Strings.SplitLast | Community/Tdarr_Plugin_henk_Keep_Native_Lang_Plus_Eng.js:246-249 | the last piece of a split is a suffix of the string, and a separator comes right before it unless it is the whole string |
| Strings.NatToStringValue | Community/Tdarr_Plugin_henk_Keep_Native_Lang_Plus_Eng.js:165 | the decimal text of the audio position reads back as that position |
| Languages.UserLanguages | Community/Tdarr_Plugin_henk_Keep_Native_Lang_Plus_Eng.js:310 | an empty `user_langs` gives no languages; a non-empty one gives comma-free pieces whose join with commas is the input |
| Languages.RetainBase | Community/Tdarr_Plugin_henk_Keep_Native_Lang_Plus_Eng.js:126-137 | the original language's code (with `cn` read as `zh`) comes first, then each user language, in order |
| Languages.AppendIfMissing | Community/Tdarr_Plugin_henk_Keep_Native_Lang_Plus_Eng.js:138-139 | the value is present afterwards; the list grows only if it was missing, and only by that value at the end |
| Languages.RetainList | Community/Tdarr_Plugin_henk_Keep_Native_Lang_Plus_Eng.js:126-139 | the first element is `alpha2ToAlpha3B` of the original language with `cn` as `zh`; the user languages follow in order; `eng` and `und` are present; what is appended after them is `eng` or `und`, was missing before, and is appended once; a code is retained exactly when it is the first element, a user language, `eng` or `und` |
| Streams.ClassifyPartition | Community/Tdarr_Plugin_henk_Keep_Native_Lang_Plus_Eng.js:123-173 | `keep` and `remove` are strictly increasing and disjoint, and together hold exactly the positions 0..n-1, where n is the number of counted audio streams; one name is recorded per removed track |
| Streams.UncountedStreamIgnored | Community/Tdarr_Plugin_henk_Keep_Native_Lang_Plus_Eng.js:149-171 | a non-audio stream, or an audio stream with tags but no language, changes neither list nor the counter |
| Streams.CountedStreamAdvances | Community/Tdarr_Plugin_henk_Keep_Native_Lang_Plus_Eng.js:152-168 | an untagged audio stream or one with a language gets the next position n and advances the counter by one; the position goes to the end of `remove`, and `getName` of the language to the end of `remLangs`, when the language is not retained, and to the end of `keep` otherwise |
| Streams.ClassifyPosition | Community/Tdarr_Plugin_henk_Keep_Native_Lang_Plus_Eng.js:149-168 | the counted stream at probe position p gets the audio position equal to the number of counted streams before it; that position is in `remove` exactly when the stream's language is not retained, otherwise in `keep` |
| Streams.UntaggedLanguageShiftsPositions | Community/Tdarr_Plugin_henk_Keep_Native_Lang_Plus_Eng.js:149-171 | an audio stream with tags but no language, followed by a French track, for an English film: the French track is removed under position 0, the untagged stream's position among the audio streams |
| Streams.RemoveEmptyIff | Community/Tdarr_Plugin_henk_Keep_Native_Lang_Plus_Eng.js:160-166 | nothing is removed exactly when no audio stream has an unretained language |
| Streams.KeepEmptyIff | Community/Tdarr_Plugin_henk_Keep_Native_Lang_Plus_Eng.js:152-163 | nothing is kept exactly when every counted audio stream has an unretained language |
| Preset.MapArgsAppend | Community/Tdarr_Plugin_henk_Keep_Native_Lang_Plus_Eng.js:165 | appending a removed position appends its negative map to the text |
| Preset.ParseMapArg | Community/Tdarr_Plugin_henk_Keep_Native_Lang_Plus_Eng.js:165 | one `-map -0:a:N ` argument in front of a text is read back as position N |
| Preset.MapArgsRoundTrip | Community/Tdarr_Plugin_henk_Keep_Native_Lang_Plus_Eng.js:165 | the text appended for the removed positions reads back as exactly those positions, in order |
| Tmdb.IdLength | Community/Tdarr_Plugin_henk_Keep_Native_Lang_Plus_Eng.js:185 | `\d{7,8}` is greedy: the match is the longest the pattern allows; it always covers digits only, and it takes eight digits exactly when eight digits follow `tt` |
| Tmdb.FirstIdAt | Community/Tdarr_Plugin_henk_Keep_Native_Lang_Plus_Eng.js:185-186 | the found position is the leftmost one at which `tt` and seven digits start; none when there is no such position |
| Tmdb.ExtractImdbId | Community/Tdarr_Plugin_henk_Keep_Native_Lang_Plus_Eng.js:181-190 | no id for an empty name; a name starting with `tt` is returned unchanged; otherwise an id exists exactly when the pattern matches somewhere, and it is the greedy match at the leftmost position; every id starts with `tt` |
| Tmdb.ExtractedIdShape | Community/Tdarr_Plugin_henk_Keep_Native_Lang_Plus_Eng.js:185-188 | a name that does not start with `tt` but holds `tt` and seven digits somewhere has an id, and that id is `tt` and then seven or eight digits |
| Tmdb.SelectTitle | Community/Tdarr_Plugin_henk_Keep_Native_Lang_Plus_Eng.js:194-196 | the title is the first movie result, else the first tv result; there is none when both are empty or the request failed |
| Tmdb.TmdbLookup | Community/Tdarr_Plugin_henk_Keep_Native_Lang_Plus_Eng.js:178-203 | no title (and no request) when no id can be taken from the name, in particular for an empty name; otherwise the title is the first movie result, else the first tv result, of the reply for that id, and there is none when the request failed or both lists are empty |
| Catalogs.MatchingMovies | Community/Tdarr_Plugin_henk_Keep_Native_Lang_Plus_Eng.js:212-215 | the filter keeps exactly the movies with a file whose truthy relative path equals the file name |
| Catalogs.MatchingMoviesAppend | Community/Tdarr_Plugin_henk_Keep_Native_Lang_Plus_Eng.js:212-215 | the filter keeps order and repeats: filtering a concatenation gives the concatenation of the filtered parts |
| Catalogs.MatchingMoviesExtremes | Community/Tdarr_Plugin_henk_Keep_Native_Lang_Plus_Eng.js:212-215 | the filter keeps the listing as it is when every movie matches, and leaves nothing when none does |
| Catalogs.FirstMatchingMovie | Community/Tdarr_Plugin_henk_Keep_Native_Lang_Plus_Eng.js:212-225 | the first filtered movie is the first matching movie of the listing |
| Catalogs.RadarrLookup | Community/Tdarr_Plugin_henk_Keep_Native_Lang_Plus_Eng.js:205-227 | no id without an API key; with one, an id exactly when some movie matches, and it is the first matching movie's IMDb id |
| Catalogs.NormalizeSeparators | Community/Tdarr_Plugin_henk_Keep_Native_Lang_Plus_Eng.js:246 | every backslash becomes a slash and nothing else changes |
| Catalogs.SeriesFolderIsLastSegment | Community/Tdarr_Plugin_henk_Keep_Native_Lang_Plus_Eng.js:246-247 | the series folder has no separator and ends the normalised path, right after a slash unless it is the whole path |
| Catalogs.SonarrSeries | Community/Tdarr_Plugin_henk_Keep_Native_Lang_Plus_Eng.js:232-241 | the first endpoint's listing is used whenever that request succeeded, even when it is empty (an empty array is truthy); the v3 listing is used only when the first request failed |
| Catalogs.SonarrLookup | Community/Tdarr_Plugin_henk_Keep_Native_Lang_Plus_Eng.js:230-263 | no id without an API key; with one, an id exactly when some show's folder equals the file's parent folder, and it is the first such show's IMDb id |
| Strategies.Priorities | Community/Tdarr_Plugin_henk_Keep_Native_Lang_Plus_Eng.js:275-279 | always a permutation of the three strategies; `sonarr` or `imdb` first exactly when configured, `radarr` first otherwise; the other two follow in default order |
| Strategies.CasesFromIsSuffix | Community/Tdarr_Plugin_henk_Keep_Native_Lang_Plus_Eng.js:283-292 | entering the switch at a case runs the rest of the case list, ending with the `imdb` case |
| Plugin.RunSwitch | Community/Tdarr_Plugin_henk_Keep_Native_Lang_Plus_Eng.js:283-292 | one pass through the switch runs the cases from the strategy's own onwards and always ends with the file name as the id |
| Plugin.ResolveImdbId | Community/Tdarr_Plugin_henk_Keep_Native_Lang_Plus_Eng.js:281-295 | with a non-empty priority list the resolved id is the file name; with a non-empty name only the first strategy's cases run; with an empty name every iteration runs to the end |
| Plugin.SonarrPriorityFirst | Community/Tdarr_Plugin_henk_Keep_Native_Lang_Plus_Eng.js:275-292 | with priority `sonarr` the first pass asks Sonarr first and never Radarr |
| Plugin.Decide | Community/Tdarr_Plugin_henk_Keep_Native_Lang_Plus_Eng.js:311-321 | tracks are removed exactly when `remove` and `keep` are both non-empty; cancel exactly when only `keep` is empty; nothing to do exactly when `remove` is empty; the last branch is unreachable |
| Plugin.DecisionOnStreams | Community/Tdarr_Plugin_henk_Keep_Native_Lang_Plus_Eng.js:149-173 | each of the three verdicts holds exactly when the corresponding condition on the streams' languages holds |
| Plugin.EnglishAndUndefinedKept | Community/Tdarr_Plugin_henk_Keep_Native_Lang_Plus_Eng.js:138-139 | an audio track tagged `eng` or `und` is never removed |
| Plugin.EnglishFilmRetainList | Community/Tdarr_Plugin_henk_Keep_Native_Lang_Plus_Eng.js:126-139 | an English film with no user languages retains exactly `eng` and `und` |
| Plugin.ForeignTracksRemoved | Community/Tdarr_Plugin_henk_Keep_Native_Lang_Plus_Eng.js:149-168 | with tracks tagged eng, fra and ger and the retain list of an English film, position 0 is kept, positions 1 and 2 are removed, and the file is processed |
| Plugin.ForeignTracksPreset | Community/Tdarr_Plugin_henk_Keep_Native_Lang_Plus_Eng.js:165 | the negative maps for positions 1 and 2 are `-map -0:a:1 -map -0:a:2 ` |
| Plugin.AllForeignTracksCancel | Community/Tdarr_Plugin_henk_Keep_Native_Lang_Plus_Eng.js:315-316 | with only fra and ger tracks for an English film, every track would be removed, so the plugin cancels |
| Plugin.Response.constructor | Community/Tdarr_Plugin_henk_Keep_Native_Lang_Plus_Eng.js:92-100 | the response starts with `processFile` false, preset `, -map 0 `, container `.`, and the three mode flags |
| Plugin.Response.ScanStream | Community/Tdarr_Plugin_henk_Keep_Native_Lang_Plus_Eng.js:150-171 | one loop iteration is one `Step` of the classification; the counter stays the number of positions handed out; the preset gains the negative map of a removed track |
| Plugin.Response.ScanStreams | Community/Tdarr_Plugin_henk_Keep_Native_Lang_Plus_Eng.js:149-173 | the loop computes `Classify` of the streams, and the preset gains the negative maps of the removed positions, in order |
| Plugin.Response.ProcessStreams | Community/Tdarr_Plugin_henk_Keep_Native_Lang_Plus_Eng.js:115-176 | the tracks are the classification of the streams against the retain list; the preset is the old preset, then the negative maps of `remove` in order, then ` -c copy -max_muxing_queue_size 9999` |
| Plugin.Response.ApplyDecision | Community/Tdarr_Plugin_henk_Keep_Native_Lang_Plus_Eng.js:311-321 | `processFile` becomes true on the remove branch and is otherwise unchanged |
| Plugin.Response.Run | Community/Tdarr_Plugin_henk_Keep_Native_Lang_Plus_Eng.js:267-324 | the container is set; the call stops with no id exactly when the file name is empty, and with no title exactly when the lookup finds none, in both cases leaving preset and `processFile` alone; otherwise the tracks, the verdict, the preset and `processFile` are as `ProcessStreams` and `Decide` state |

## Left out

- The HTTP requests to Radarr, Sonarr and the metadata service (lines 193-196, 208-210, 232-241):
  - they are network I/O, so the fetched listings (`Catalogs.Listings`) and the metadata reply (`find`) are parameters;
  - a failed request is modelled as an empty listing, a missing first Sonarr listing, or `RequestFailed`.
- `errorHandler` (lines 102-113) only writes to `infoLog`; its fallback values are the ones the failed-request cases above use.
- `infoLog` and every message written to it are left out. `remLangs` is kept as a sequence of names rather than a comma-joined string; `Streams.CountedStreamAdvances` states that each removed track appends `getName` of its language to it.
- The library `@cospired/i18n-iso-languages`: its tables are not part of this model, so `alpha2ToAlpha3B` and `getName` are function-valued parameters (`Languages.IsoLanguages`).
- `lib.loadDefaultValues`, the `require` calls and the `details()` metadata (lines 4-91, 268-272) are configuration and foreign code. `Plugin.Inputs` holds the inputs after defaults.
- The metadata service's API key and the catalog base URLs are used only to build request URLs, so they are not modelled.
- Catalogs.SonarrLookup: at line 248 the code reads a variable `filePath` that is never declared.
  - As written it throws as soon as a show with a path is reached.
  - The model takes the file's path as an explicit parameter (`MediaFile.filePath`).
- The lookups: `axios` is not in scope in `getRadarrResult` or `getSonarrResult` (lines 208, 232). The thrown errors this would cause are not modelled; the lookups run on the supplied listings.
- Crashes on a catalog listing that is not an array are not modelled: `.filter` at line 212 and `for...of` at line 244 would throw outside any `catch`. A malformed metadata reply needs no separate case: the error it raises inside the `.then` at line 195 is caught at line 196, so it behaves like `RequestFailed`.
- The asynchronous control flow (`async`/`await`) and any concurrent calls sharing the response object are left out. Calls are sequential method calls on one `Response`.
- Strings are sequences of characters. Regular expressions are modelled only for the one pattern used (`tt\d{7,8}`), and `IsDigit` accepts ASCII digits only.
