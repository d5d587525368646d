# A verified model of the music player's core

The repository is a browser music player. It fetches two JSON documents
from a CDN: a vocabulary of filter values and a catalog of songs. It
rewrites the catalog's URLs, then lets the listener filter and search the
catalog, browse it by album, play songs with previous/next wrap-around,
and open a song's YouTube video in a modal with a thumbnail fallback.
There are two revisions of that logic:

- the module revision under `js/`, with a shared mutable `state` record;
- the older single file `script.js`, which keeps the same state in
  top-level bindings.

Several pieces of `script.js` are the same code as in the module revision
and are modelled once:

- `getAlbumName` (script.js:292-311);
- `formatTime` (script.js:285-289);
- the URL-normalising `map` (script.js:73-78);
- the video-ID regex and length test (script.js:322-327);
- the active-card test (script.js:116);
- `closeVideoModal` (script.js:380-383).

This Dafny project models that logic and proves what it promises:

| file | module | models |
|---|---|---|
| base.dfy | `Base` | `Option`, `Result` and `Outcome` (a statement sequence that completes or throws) |
| seqs.dfy | `Seqs` | `Array.prototype.filter`, subsequences, first-seen order of keys |
| text.dfy | `Text` | `trim`, `toLowerCase`, `includes`, `replace` with a string pattern, the `split` cuts of file names, `Number.prototype.toString` |
| catalog.dfy | `Catalog` | the song record and `findIndex` by id |
| state.dfy | `State` | the `state` record (a class), the audio element, the view names |
| utils.dfy | `Utils` | `getAlbumName` and `formatTime` |
| player.dfy | `Player` | the playback controller: spec functions on a snapshot, plus methods proved against them |
| ui.dfy | `Ui` | the filter engine, album grouping, album detail, view and style toggles, active card |
| api.dfy | `Api` | the URL normalisation and the state assignment of `fetchData` |
| modal.dfy | `Modal` | the video-ID regex, the watch and thumbnail URLs, the thumbnail fallback, the modal |
| legacy.dfy | `Legacy` | `script.js`: its global bindings as a class, with the same transitions and a search-free filter |

Effects on the outside world become parameters:

- The outcome of `audio.play()` is a boolean `resolves`. Its continuation
  is assumed to run before the next user action.
- The two `fetch` responses become their `ok` flags and parsed bodies.

The HTML that the renderers write is not modelled. What is modelled is the
state they read and write.

Two behaviours of the code worth knowing:

1. Previous/next wrap over the whole catalog `songsData`, not over the
   visible, filtered songs.
2. A play that fails after a new song is selected leaves `isPlaying` as it
   was. It is not reset to paused.

## Model

| member | source | states |
|---|---|---|
| State.AppState.constructor | js/state.js:2-10 | the initial state: empty catalog and visible list, no vocabulary, index -1, not playing, view `songs`, no current album, no display style |
| State.Media.constructor | js/state.js:12 | the audio element starts with no source |
| State.RendererFor | js/ui.js:32-40 | each of the three view modes selects its own renderer (each direction of the if-and-only-if); any other mode renders nothing |
| State.GridUnlessList | js/ui.js:63 | the list layout is used exactly when the style is `list`; an absent style is the grid |
| Catalog.FindById | js/player.js:17 | `findIndex`: -1 exactly when no entry has the id; otherwise an entry with the id, with none before it |
| Catalog.FindOwnId | js/player.js:17 | with unique ids, looking up a song's own id finds that song's index |
| Player.LoadSong | js/player.js:32-50 | the audio source becomes the song's audio URL |
| Player.PlaySong | js/player.js:52-59 | the flag becomes true when the play promise is fulfilled, and is otherwise left as it was |
| Player.PauseSong | js/player.js:61-67 | the flag becomes false |
| Player.LoadAndPlaySongById | js/player.js:16-30 | the new index, flag and source are `LoadById` of the old ones |
| Player.TogglePlay | js/player.js:69-80 | the new index, flag and source are `Toggle` of the old ones; it recurses into loading through the first visible song |
| Player.PrevSong | js/player.js:86-95 | the new state and outcome are `Prev`: move back one or round to the last entry, then load and play; a TypeError when no entry is there |
| Player.NextSong | js/player.js:97-106 | the new state and outcome are `Next`: move on one or back to 0, then load and play; a TypeError when no entry is there |
| Player.LoadById | js/player.js:16-30 | the `loadAndPlaySongById` transition; what it does is stated by UnknownIdChangesNothing, CurrentIdToggles and NewIdSelects |
| Player.Toggle | js/player.js:69-80 | the `togglePlay` transition; what it does is stated by ToggleStartsFirstVisible, TogglePausesOrPlays and ToggleWhilePlayingPauses |
| Player.MoveTo | js/player.js:92-93 | the index is written first; the step completes exactly when an entry is there, loading its audio and playing it; otherwise it throws a TypeError and nothing but the index changes |
| Player.Prev | js/player.js:86-95 | the `prevSong` transition; what it does is stated by NavigationInRange, WrapAround, NavigationRoundTrip and NavigationOnEmptyCatalog |
| Player.Next | js/player.js:97-106 | the `nextSong` transition; what it does is stated by NavigationInRange, WrapAround, NavigationRoundTrip and NavigationOnEmptyCatalog |
| Player.UnknownIdChangesNothing | js/player.js:17-18 | an id the catalog does not hold leaves index, flag and source unchanged |
| Player.CurrentIdToggles | js/player.js:21-24 | the current song's id acts exactly as a toggle, and the index stays |
| Player.NewIdSelects | js/player.js:26-28 | another id sets the index to the first matching entry at once, loads its audio, and plays; a failed play keeps the old flag |
| Player.ToggleStartsFirstVisible | js/player.js:70-73 | with index -1 and a non-empty visible list, a toggle loads the first visible song's id; when the catalog has that id it becomes current, is loaded, and plays |
| Player.TogglePausesOrPlays | js/player.js:75-79 | otherwise a toggle keeps index and source; it pauses a playing song, and plays a paused one exactly when the play succeeds |
| Player.NavigationInRange | js/player.js:86-106 | on a non-empty catalog, next and previous from any index in -1 up to the last always land on an entry, complete, and load that entry's audio |
| Player.WrapAround | js/player.js:86-106 | next from the last entry and from -1 gives 0; previous from 0 and from -1 gives the last entry |
| Player.NavigationRoundTrip | js/player.js:86-106 | from an index in range, previous then next, or next then previous, returns to the same index |
| Player.NavigationOnEmptyCatalog | js/player.js:86-106 | on an empty catalog, from index -1 or 0, both throw a TypeError; next leaves index 0 and previous leaves -1 |
| Player.InitialCoherent | js/state.js:6-7 | the initial index -1 with nothing loaded or playing is a coherent snapshot |
| Player.TransitionsKeepCoherent | js/player.js:16-106 | every transition keeps the index at -1 or on an entry, and keeps index -1 silent with nothing loaded; this assumes a play with no source does not succeed, and for next/previous a non-empty catalog |
| Player.ToggleWhilePlayingPauses | js/player.js:75-76 | in a coherent snapshot where a song is playing, a toggle only clears the flag |
| Utils.AlbumNameCases | js/utils.js:9-27 | a truthy album is returned unchanged; otherwise a truthy album image gives the name read off it; otherwise `Unknown Album`, which is not empty |
| Utils.GetAlbumName | js/utils.js:9-27 | `getAlbumName`; its three cases are stated by AlbumNameCases, ImageStemShape and ImageAlbumNameChars |
| Utils.ImageStemShape | js/utils.js:17 | the image reference splits into a directory (empty or ending in `/`), the stem, and an extension (empty or starting at `.`, with no `/`); the stem has neither `/` nor `.` |
| Utils.ImageAlbumNameChars | js/utils.js:17-20 | the image-derived name is the stem with every `-` turned into a space, so it has no `/`, `.` or `-` |
| Utils.FormatTimeShape | js/utils.js:3-7 | the label is the minutes, a colon, and exactly two digits whose value is the seconds modulo 60, below 60 |
| Utils.FormatTimeRoundTrip | js/utils.js:3-7 | reading an `m:ss` label back gives `m*60+ss` equal to the original seconds |
| Utils.FormatTimeInjective | js/utils.js:3-7 | distinct durations get distinct labels |
| Utils.FormatTime | js/utils.js:3-7 | `formatTime`; its shape, read-back and injectivity are stated by FormatTimeShape, FormatTimeRoundTrip and FormatTimeInjective |
| Text.Trim | js/ui.js:239 | `trim` keeps a contiguous slice; what it removes before and after is white space; the result neither starts nor ends with white space |
| Text.ToLower | js/ui.js:239 | `toLowerCase` keeps the length and leaves no upper-case ASCII letter: each one becomes the lower-case letter at the same place in the alphabet, and every other character is kept |
| Text.FindFirst | js/ui.js:253-254 | `includes` finds the first occurrence, or reports that the pattern occurs nowhere |
| Text.ReplaceFirstSpec | js/api.js:27-29 | `replace` with a string pattern rewrites only the first occurrence and keeps what is before and after it; without an occurrence it changes nothing |
| Text.NatToStringRoundTrip | js/ui.js:244 | the decimal rendering of a number reads back as that number |
| Text.IntToString | js/ui.js:244 | `toString` of an integer starts with `-` exactly when it is negative; the rest is a non-empty run of decimal digits without a leading zero whose value is the magnitude |
| Text.IntToStringInjective | js/ui.js:244 | distinct years render as distinct strings, so a year select matches one year only |
| Text.Utf16Length | js/modal.js:15 | a string's `length` counts UTF-16 code units: one or two per character, exactly one per character when all lie in the Basic Multilingual Plane |
| Ui.Controls.constructor | js/ui.js:6-11 | the five selects start at `All`; the search box may be absent |
| Ui.ApplyFilters | js/ui.js:233-260 | the visible list becomes `Visible` of the catalog under the current selection; when a callback throws, the list is kept and the error is reported |
| Ui.Visible | js/ui.js:241-257 | the filter of `applyFilters`; what it keeps and when it throws are stated by VisibleIsSubsequence, VisibleMembers and VisibleThrowsIff |
| Ui.ResetFilters | js/ui.js:262-270 | the five selects become `All` (empty); a search box present becomes empty and an absent one stays absent; afterwards the visible list equals the catalog, in order |
| Ui.VisibleIsSubsequence | js/ui.js:241-257 | the visible list is the catalog with some songs removed, in catalog order |
| Ui.VisibleMembers | js/ui.js:241-257 | a song is visible exactly when it is in the catalog and matches; it is kept as often as the catalog has it |
| Ui.VisibleThrowsIff | js/ui.js:244 | filtering throws exactly when a year is selected and some song has no year |
| Ui.EmptySelectionKeepsAll | js/ui.js:262-270 | with nothing selected and no search, the whole catalog is visible in order |
| Ui.MatchesIsConjunction | js/ui.js:256 | a song matches exactly when it passes each of the six one-dimension filters |
| Ui.OneDimension | js/ui.js:242-246 | a non-empty language, genre or composer value demands equality; a singer value demands membership; a year value demands that the year's `toString` be that value |
| Ui.ClearingWidens | js/ui.js:241-257 | clearing any one of the five selects, or the search box, keeps every visible song visible; clearing the year also keeps the filter from throwing |
| Ui.SearchIgnoresCase | js/ui.js:239-254 | a search text and its lowercase select the same songs |
| Ui.BlankSearchMatchesAll | js/ui.js:239-252 | a search text of blanks trims to nothing and every song passes it |
| Ui.GroupAlbums | js/ui.js:110-123 | one card per distinct album name, in first-seen order; each card holds that album's songs in order, and its cover is the first such song's album image, else its cover image |
| Ui.GroupingPartitions | js/ui.js:110-123 | card names are distinct; every song is on the card of its album and on no other |
| Ui.AlbumOrderAsWritten | js/ui.js:110-123 | the card order as written; its two departures from first-seen order are stated by AlbumOrderFinding and InheritedNameFinding |
| Ui.AlbumOrderFinding | js/ui.js:110-123 | as written, an album named `96` is listed before an album `Jersey` seen before it |
| Ui.InheritedNameFinding | js/ui.js:113-120 | as written, an album named `constructor` makes the grouping throw, where one card is intended |
| Ui.SelectAlbum | js/ui.js:133-136 | clicking a card opens the detail view of that card's album |
| Ui.AlbumDetailSpec | js/ui.js:174 | the detail view lists exactly the catalog songs with the current album's name, in catalog order; it lists nothing when there is no current album |
| Ui.AlbumDetailIgnoresFilters | js/ui.js:174 | a card built from the visible songs holds a subsequence of its album's detail list, and all of it when nothing is filtered out |
| Ui.HandleViewToggle | js/ui.js:218-221 | sets the view mode and clears the current album |
| Ui.HandleDisplayStyleToggle | js/ui.js:47-49 | sets the display style and nothing else |
| Ui.IsActive | js/ui.js:72 | throws exactly when the index is neither -1 nor on an entry; an active card has the current entry's id |
| Ui.ActiveIsCurrent | js/ui.js:72 | with unique ids, exactly the current entry's card is active |
| Api.NormalizeAll | js/api.js:25-37 | the `map` keeps the number and order of songs; each position keeps its song's id and every field but the three URLs, which are that song's normalised URLs |
| Api.NormalizeSong | js/api.js:25-37 | the copy differs from the song only in the three URL fields; its album image is truthy exactly when the original's is, and a falsy one is kept as it was |
| Api.NormalizeAllOnlyRewritesSlashes | js/api.js:25-37 | over the whole list, every rewritten URL keeps its length and differs from the original only where a `/` became `@` |
| Api.FetchData | js/api.js:11-40 | when either response is not ok it throws `Network response was not ok` and assigns nothing; otherwise it stores the vocabulary and the normalised catalog, and the visible list becomes a copy of it |
| Api.NormalizeOnlyRewritesSlashes | js/api.js:27-36 | each rewritten URL keeps its length, and differs only where a `/` became `@` |
| Api.NormalizeAudioFirstOccurrence | js/api.js:27-28 | the first `/audio/main/` of an audio URL becomes `/audio@main/`; the text around it is kept |
| Api.NormalizeWithoutPatterns | js/api.js:27-36 | a URL with neither pattern is unchanged |
| Api.OnlyFirstOccurrenceChanges | js/api.js:30-33 | a cover URL starting with the pattern is rewritten there; a second copy of the pattern survives |
| Api.MissingSongsEmptyCatalog | js/api.js:25 | a metadata document without `songs` gives an empty catalog |
| Modal.MarkerEnd | js/modal.js:12 | which of the six alternatives of group 1 matches at a position, and where it ends |
| Modal.MarkerEndShape | js/modal.js:12 | every alternative ends in `/` or `=`; only `watch?v=` and `&v=` end in `=` |
| Modal.LineEnd | js/modal.js:12 | the greedy `.*` stops at the first line terminator |
| Modal.LastMarker | js/modal.js:12-13 | backtracking finds the last start on the first line where an alternative matches; no alternative matches later |
| Modal.RunEnd | js/modal.js:12 | `[^#&?]*` takes the longest run of characters other than `#`, `&` and `?` |
| Modal.Group2 | js/modal.js:12-13 | a captured group 2 consists only of characters other than `#`, `&` and `?` |
| Modal.ExtractVideoId | js/modal.js:11-16 | an accepted ID has a `length` of 11 UTF-16 code units, so at most 11 characters and exactly 11 when all lie in the Basic Multilingual Plane; none of them is `#`, `&` or `?` |
| Modal.NoMarkerNoId | js/modal.js:12-16 | with no alternative on the first line no ID is accepted |
| Modal.WatchUrlRoundTrip | js/modal.js:12-25 | the watch URL built from an 11-character YouTube ID yields that ID again |
| Modal.ThumbsDistinct | js/modal.js:28-30 | the three thumbnail URLs of an ID are pairwise distinct |
| Modal.ThumbNames | js/modal.js:28-30 | the HD URL names `maxresdefault` and the SD URL names `sddefault` |
| Modal.ThumbnailFallback | script.js:348-356 | exact comparison assigns only the SD or the HQ URL, and never the source that just failed |
| Modal.ThumbnailFallbackAsWritten | js/modal.js:39-48 | the `includes` handler assigns only the SD or the HQ URL, and nothing to a source naming neither `maxresdefault` nor `sddefault` |
| Modal.NoMaxresIn | js/modal.js:28-30 | for an ID of at most 11 characters, a thumbnail URL ending in the SD or HQ file name does not contain `maxresdefault` |
| Modal.OnlyHdNamesMaxres | js/modal.js:28-30 | for every accepted ID (at most 11 characters) neither the SD nor the HQ URL names `maxresdefault` |
| Modal.FallbackChain | script.js:348-356 | exact comparison: the HD failure assigns SD, the SD failure assigns HQ, and an HQ failure assigns nothing |
| Modal.FallbackTerminates | script.js:348-356 | from any source, at most two assignments follow before the handler stops |
| Modal.FallbackAsWrittenAgrees | js/modal.js:39-48 | for an ID of at most 11 characters whose HQ URL does not name `sddefault`, the `includes` handler agrees with exact comparison on the three thumbnails |
| Modal.FallbackAsWrittenRetriesHq | js/modal.js:39-48 | an accepted ID containing `sddefault` makes the `includes` handler assign the HQ URL again after the HQ URL fails |
| Modal.SddefaultIdExample | js/modal.js:15-16 | `sddefault00` is such an ID: 11 word characters, containing `sddefault` |
| Modal.OpenVideoModal | js/modal.js:9-68 | with no accepted ID nothing changes, neither the modal nor playback; otherwise the modal is shown with the HD thumbnail, the handler's ID and the watch link, and a playing song is toggled |
| Modal.OnThumbnailError | script.js:348-356 | a thumbnail error steps the source by the exact-comparison fallback of the last opened ID |
| Modal.CloseVideoModal | js/modal.js:70-73 | the modal is hidden and the thumbnail source is cleared |
| Modal.ClearedThumbnailStaysCleared | js/modal.js:72 | an error on the cleared thumbnail makes neither handler assign a source |
| Legacy.Globals.constructor | script.js:38-43 | the top-level bindings start with an empty catalog and visible list, no vocabulary, index -1, not playing, and a fresh audio element |
| Legacy.Globals.FetchData | script.js:59-81 | as in the module revision: on a failed response it throws and assigns nothing; otherwise it stores the vocabulary and the normalised catalog, and the visible list is a copy |
| Legacy.Globals.ApplyFilters | script.js:145-162 | the visible list becomes `LegacyVisible` of the catalog under the five select values; when a callback throws, the list is kept |
| Legacy.Globals.ResetFilters | script.js:164-171 | the selects are cleared and the visible list equals the catalog, in order |
| Legacy.Globals.LoadSong | script.js:190-208 | the audio source becomes the song's audio URL |
| Legacy.Globals.PlaySong | script.js:210-217 | the flag becomes true when the play promise is fulfilled |
| Legacy.Globals.PauseSong | script.js:219-225 | the flag becomes false |
| Legacy.Globals.LoadAndPlaySongById | script.js:174-188 | the same `LoadById` transition as the module revision |
| Legacy.Globals.TogglePlay | script.js:227-238 | the same `Toggle` transition |
| Legacy.Globals.PrevSong | script.js:244-253 | the same `Prev` transition and outcome, wrapping over the catalog |
| Legacy.Globals.NextSong | script.js:255-264 | the same `Next` transition and outcome, wrapping over the catalog |
| Legacy.Globals.OpenVideoModal | script.js:316-376 | no accepted ID changes nothing; otherwise the modal shows the HD thumbnail and the watch link, and a playing song is toggled |
| Legacy.LegacyIsSearchFree | script.js:152-159 | this revision's filter is the module revision's filter with an empty search |
| Legacy.LegacyVisible | script.js:152-159 | the filter of this revision; what it keeps is stated by LegacyVisibleSpec and LegacyIsSearchFree |
| Legacy.LegacyVisibleSpec | script.js:152-159 | it keeps the catalog's songs that match all five tags, in catalog order, and no others |

## Left out

- Rendering: the HTML templates, `populateFilters`/`populateSelect`,
  `updatePlayBtn`, the toggle-button highlighting, and the "no songs"
  messages. These write the page and hold no state the model tracks.
- The full-screen player (js/fullPlayer.js), the event wiring (js/main.js)
  and the themes (js/theme.js and the theme table of script.js). They are
  presentation or event binding. Shuffle and song-end handling are called
  from them, but js/player.js does not define them, so they are not
  modelled.
- Network and asynchrony. The responses are inputs, and a body that fails
  to parse as JSON is not modelled. The play promise settles before the
  next action, so interleavings with clicks are not modelled.
- Progress bar, seeking and volume. They work on floating-point values.
- Utils.FormatTime: whole, non-negative seconds only; fractional or NaN
  durations are not modelled.
- Text.Utf16Length: Dafny strings hold Unicode scalar values, so a
  JavaScript string with an unpaired surrogate is not modelled.
- Text.ToLower: maps ASCII letters only, not the full Unicode case mapping
  of `toLowerCase`.
- Api.NormalizeSong: `audioUrl` and `coverImage` are always strings. A
  song missing either one would make the source's `map` throw.
- Catalog.Song: `year` is a number. A year stored as a string is not
  modelled.
- Modal.OnThumbnailError: compares the source with the URL as built. A
  browser reads `img.src` back as a resolved and serialised URL, which can
  differ for IDs with characters that need percent-encoding.
- Modal.OpenVideoModal: the thumbnail, play-button and fallback-link
  elements are taken to exist. When the thumbnail is missing, the source
  logs an error and then throws on `videoThumbnail.onclick`. Opening a new
  tab with `window.open` is not modelled.
- Player.TransitionsKeepCoherent: this holds only under the stated
  assumption that a play succeeds only once a source is loaded. Nothing in
  the source enforces that.
- Console logging, and the exposure of functions on `window`.

## Findings

| source | as written | input that shows it | evidently intended | confidence | as-written member | corrected member |
|---|---|---|---|---|---|---|
| js/ui.js:110-123 | cards are listed in the key order of a plain object, so album names that are array indices come first, in numeric order | albums `Jersey` then `96` are shown as `96`, `Jersey` | albums appear in first-seen order | not executed | Ui.AlbumOrderFinding | Ui.GroupAlbums |
| js/ui.js:113-120 | `albums[name]` finds members inherited from `Object.prototype`, so no card is created and `.songs.push` throws | a song whose album is `constructor` | one card per album name, whatever the name | not executed | Ui.InheritedNameFinding | Ui.GroupAlbums |
| js/modal.js:39-48 | the thumbnail handler tests the source with `includes('sddefault')`, so an ID containing `sddefault` makes a failed HQ thumbnail assign the HQ URL again, and the error repeats | video ID `sddefault00` (`https://www.youtube.com/watch?v=sddefault00`) | HD then SD then HQ, then stop, as the exact comparison of script.js:348-356 does | not executed | Modal.FallbackAsWrittenRetriesHq | Modal.FallbackChain |
