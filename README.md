# retro-computer-interface, modelled in Dafny

A model of the statable logic inside the retro desktop shell (a React app that
imitates Windows XP / 95 / macOS desktops and hosts music apps). Each core
source file becomes one module; every React state slot that a handler
replaces becomes a field of a class, and the new value of the slot is a pure
function of the old one, about which the lemmas are proved.

- `WindowStore` (src/App.js): the ordered list of open windows, the icon
  registry, `openApp` (at most one window per registry app, size capped at
  80% of the desktop), `openNewWindow` (ad-hoc windows, no duplicate check, appended to
  the list that the requesting window's callback captured when it opened),
  `closeApp`, and the position clamp and size cap of drags and resizes.
  Class `Desktop` keeps "no registry app is open twice" as its invariant.
- `Playlists` (src/PlaylistContext.js): the name-to-track-list object with
  save, remove, append-song, create-if-absent and rename, including the
  `undefined` a rename of a missing name leaves behind and the deletion a
  rename to the same name causes. Class `PlaylistStore`.
- `Importer` (src/PlaylistImporter.js): the name check, the id extraction
  from a Spotify URL, the endpoint, the item-to-track mapping, the widest
  thumbnail, the `convertToYouTubeVideos` loop and the whole `handleImport`
  click, with the network as two oracle parameters.
- `SpotifyAuth` (src/apps/SpotifyApp.js): the URL-fragment parser (the
  implicit-grant access-token response of section 4.2.2 of RFC 6749),
  `checkTokenValidity`, the expiry computation, the three-way token
  decision of the effect, and the `handleSearch` guard.
- `RadioPlayer` (src/apps/OldRadioPlayerApp.js): the wrapping next/previous
  index, the saturating ENDED transition, and the player-event handlers.
- `YouTubePlayer` (src/apps/YouTubePlayerApp.js): the saturating index, the
  PLAYING/ENDED/error handlers, the mount guards, `stopVideo`, and the
  `m:ss` clock text.
- `YouTubeSearch` (src/apps/YouTubeSearchApp.js) and `PlaylistManager`
  (src/apps/PlaylistManagerApp.js): the draft playlist, the save, create and
  play guards, and the player-window requests they issue.
- `Themes` (src/ThemeContext.js, names from src/themes.js): theme selection
  by name.
- `Text` and `Media`: JavaScript's `parseInt(_, 10)`, `trim`, `split`,
  `indexOf` and number printing, stated once; and the playlist-entry and
  window-request records shared by the apps.

The code does not do the following:

- `updateAppSize` has no lower bound. The 200×150 minimums exist only as
  props of the drag-and-resize component (src/App.js:199-200).
- Ad-hoc windows get no close callback. They are also neither clamped nor
  de-duplicated (src/App.js:114-123).

## Model

| member | source | states |
|---|---|---|
| WindowStore.RegistryIdsDistinct | src/App.js:125-132 | the six registry ids are pairwise distinct |
| WindowStore.RegistryIdsHaveNoHyphen | src/App.js:125-132 | no registry id contains a hyphen |
| WindowStore.ClampCoord | src/App.js:156-157 | a clamped coordinate is never negative; a window that fits stays inside the desktop; a proposal already inside is kept; a proposal past the far edge goes to that edge (or to 0 when the window does not fit); a proposal at or before 0 goes to 0 |
| WindowStore.CapExtent | src/App.js:137-138 | an extent is at most 80% of the desktop and at most the proposal, and is one of the two |
| WindowStore.FirstIndex | src/App.js:154 | `find` returns the first window carrying the id |
| WindowStore.CountIdPositive | src/App.js:135 | an id is counted at least once exactly when some window carries it |
| WindowStore.CountIdAppend | src/App.js:122 | appending a window adds one to its own id's count and nothing to other ids' counts |
| WindowStore.CountIdSameIds | src/App.js:159-161 | lists whose ids agree position by position count every id alike |
| WindowStore.Opened | src/App.js:134-146 | an app that is already open leaves the list unchanged; otherwise exactly one window is appended at (50, 50), carrying the app's id, name and content, with each extent at most its default and at most 80% of the desktop, equal to one of the two, and equal to the default when that fits; earlier windows are unchanged |
| WindowStore.OpenedIdempotent | src/App.js:135 | opening the same app twice is opening it once, even if the desktop size changed in between |
| WindowStore.OpenedCount | src/App.js:134-146 | after `openApp` the app has exactly one window, provided it had at most one before; other ids keep their counts |
| WindowStore.AdHocIdInjective | src/App.js:116 | an ad-hoc id contains a hyphen and determines both the window name and the opening instant |
| WindowStore.OpenedAdHoc | src/App.js:114-123 | the list always grows by one window at the end, with id `name-now`, position (50, 50), and the given size or else 300×200; earlier windows are unchanged |
| WindowStore.AdHocSameInstantCollides | src/App.js:114-123 | two ad-hoc windows with the same name opened in the same millisecond share an id, which then occurs twice |
| WindowStore.OpenedAdHocCount | src/App.js:114-123 | an ad-hoc window never changes the count of an id without a hyphen, such as a registry id |
| WindowStore.Closed | src/App.js:148-150 | the survivors are exactly the windows whose id differs; an id that is not open leaves the list unchanged |
| WindowStore.ClosedConcat | src/App.js:148-150 | closing commutes with concatenation, so survivors keep their relative order |
| WindowStore.ClosedCount | src/App.js:148-150 | after closing, no window carries the id, and every other id keeps its count |
| WindowStore.Moved | src/App.js:152-162 | every window carrying the id gets a position that is non-negative, inside the desktop when the first such window fits, equal to the proposal when that is already inside, at the far edge when the proposal passes it, and 0 when the proposal is at or before 0 or the window does not fit; ids, names, contents, sizes and order are preserved, and other windows are unchanged |
| WindowStore.Resized | src/App.js:164-174 | every window carrying the id gets each extent capped at 80% of the desktop and at the proposal, equal to one of the two, and equal to the proposal under the cap; ids, names, contents, positions and order are preserved, other windows are unchanged, and an id that is not open changes nothing |
| WindowStore.MoveScenario | src/App.js:152-162 | a 300-wide window dragged to x = 790 on an 800-wide desktop lands at x = 500 |
| WindowStore.ResizeScenario | src/App.js:164-174 | a 1000×100 resize on an 800×600 desktop gives 640×100: there is no height floor |
| WindowStore.Desktop.constructor | src/App.js:98 | the desktop starts with no window open and no callback captured |
| WindowStore.Desktop.OpenApp | src/App.js:131-146 | the list becomes `Opened` of the old one; the app is open afterwards; no registry app is open twice; a newly opened window records the list its callback captured, the one just before it was added |
| WindowStore.Desktop.OpenNewWindow | src/App.js:114-123 | the list becomes `OpenedAdHoc` of the list the requesting window captured when it opened, so the requester and every later window are dropped; the single-instance invariant survives |
| WindowStore.Desktop.CloseApp | src/App.js:148-150 | the list becomes `Closed` of the old one, and the invariant survives |
| WindowStore.Desktop.UpdateAppPosition | src/App.js:152-162 | the list becomes `Moved` of the old one; it requires the id to be open, because the source reads the found window's size |
| WindowStore.Desktop.UpdateAppSize | src/App.js:164-174 | the list becomes `Resized` of the old one, and the invariant survives |
| Playlists.Saved | src/PlaylistContext.js:34-43 | the name holds the tracks, whatever it held before; every other name is unchanged |
| Playlists.Removed | src/PlaylistContext.js:45-51 | the name is gone, the others are unchanged, and a missing name changes nothing |
| Playlists.WithSong | src/PlaylistContext.js:53-63 | the song goes at the end of the playlist's old list, or of an empty list when there was none; other names are unchanged |
| Playlists.Created | src/PlaylistContext.js:65-76 | an existing list is kept as is; otherwise the name gets an empty list and nothing else changes; afterwards the name holds a list |
| Playlists.Renamed | src/PlaylistContext.js:24-32 | the new name receives what the old one held, overwriting it; the old name is gone; other names are unchanged |
| Playlists.SavedThenRemoved | src/PlaylistContext.js:34-51 | saving a name and then removing it is the same as removing it |
| Playlists.CreatedIdempotent | src/PlaylistContext.js:65-76 | creating twice is creating once |
| Playlists.RenamedToSelf | src/PlaylistContext.js:27-28 | renaming a playlist to its own name deletes it |
| Playlists.RenamedRoundTrip | src/PlaylistContext.js:24-32 | renaming an existing playlist to a free name and back restores every playlist |
| Playlists.RenamedFromMissing | src/PlaylistContext.js:27 | renaming a missing playlist stores `undefined` under the new name, which `createPlaylist` then treats as free |
| Playlists.WithSongsAppends | src/PlaylistImporter.js:93-95 | adding songs one at a time appends them all, in order, to the named list and changes no other list |
| Playlists.WithSongs | src/PlaylistImporter.js:93-95 | the store after adding the songs to one playlist one at a time, first to last (properties: WithSongsAppends, WithSongsStep) |
| Playlists.PlaylistStore.constructor | src/PlaylistContext.js:7 | the store starts empty |
| Playlists.PlaylistStore.LoadPlaylists | src/PlaylistContext.js:15-22 | a successful cloud read replaces the store; a failed one leaves it |
| Playlists.PlaylistStore.RenamePlaylist | src/PlaylistContext.js:24-32 | the store becomes `Renamed` of the old one |
| Playlists.PlaylistStore.SavePlaylist | src/PlaylistContext.js:34-43 | the store becomes `Saved` of the old one |
| Playlists.PlaylistStore.RemovePlaylist | src/PlaylistContext.js:45-51 | the store becomes `Removed` of the old one |
| Playlists.PlaylistStore.AddSongToPlaylist | src/PlaylistContext.js:53-63 | the store becomes `WithSong` of the old one |
| Playlists.PlaylistStore.CreatePlaylist | src/PlaylistContext.js:65-76 | the store becomes `Created` of the old one |
| Importer.Separator | src/PlaylistImporter.js:82 | the separator starts with `/` and has at least two characters |
| Importer.CutAfter | src/PlaylistImporter.js:82 | there is a cut exactly when the separator occurs; the cut has no `?`, is the text that starts right after the first separator, and ends at the first `?` or the first separator start after that point, or at the end of the URL |
| Importer.CutAt | src/PlaylistImporter.js:82 | the cut starting at a position is the text there, and ends at the first `?` or separator start after it, or at the end of the URL |
| Importer.ExtractId | src/PlaylistImporter.js:82-85 | it fails, always with "Invalid Spotify <type> URL", exactly when the separator is missing or the cut after it is empty; otherwise it succeeds with that cut, which has no `?`, starts right after the first separator, and ends at the first `?` or the first separator start after that point, or at the end of the URL |
| Importer.PieceFacts | src/PlaylistImporter.js:82 | the split piece after a separator is a slice of the URL in which no further separator starts, ended by the end of the URL or by a separator |
| Importer.OccursAtHead | src/PlaylistImporter.js:82 | an occurrence of the separator starts with its first character |
| Importer.OccursAtShift | src/PlaylistImporter.js:82 | an occurrence inside a slice is an occurrence in the whole URL |
| Importer.PieceHead | src/PlaylistImporter.js:82 | the first `?`-piece of a split piece is the text at the piece's start, has no separator starting inside it, and ends at the end of the URL, at a `?`, or at a separator |
| Importer.NoCutEndInsideCut | src/PlaylistImporter.js:82 | no `?` and no separator start lies strictly inside a cut |
| Importer.IsCutUnique | src/PlaylistImporter.js:82 | the cut at a position is unique, so "up to the first `?` or separator" pins the id |
| Importer.CutStopsAtFirstSeparator | src/PlaylistImporter.js:82 | in "/p/a/p/p/" the cut after "/p/" is "a": a later separator that overlaps the first one's `/` still ends the cut |
| Importer.FirstOccurrence | src/PlaylistImporter.js:82 | `indexOf` finds an occurrence when no earlier one exists |
| Importer.StopsAtQuestion | src/PlaylistImporter.js:82 | text without a `?` placed after a position cannot reach past a `?` that follows it |
| Importer.NoEndInside | src/PlaylistImporter.js:82 | no cut ends inside text that holds neither a `?` nor a `/` |
| Importer.CutAfterAt | src/PlaylistImporter.js:82 | a URL whose first separator at `p` is followed by a text without `/` or `?`, then by the end or a `?`, cuts to exactly that text |
| Importer.ExtractIdOfUrl | src/PlaylistImporter.js:82-85 | a URL built as prefix, separator, id (with no `/` or `?`), and nothing or a query string gives back exactly that id |
| Importer.EndpointInjective | src/PlaylistImporter.js:129-132 | the endpoint (API base, `playlists/` for a playlist or `albums/` otherwise, the id, `/tracks`) determines the id and whether a playlist was asked for: different ids, or a playlist and an album, never share one |
| Importer.Endpoint | src/PlaylistImporter.js:130-132 | the API base, then `playlists/` for a playlist import or `albums/` for any other type, the id and `/tracks` (properties: EndpointInjective) |
| Importer.TracksOf | src/PlaylistImporter.js:138-141 | the mapping succeeds exactly when every item's track object (`item.track`, else the item) lists an artist, and then gives one track per item, in order, with that object's name and first artist |
| Importer.SourceOf | src/PlaylistImporter.js:139-140 | `item.track` when the item has one, else the item itself (properties: TracksOf) |
| Importer.TrackOf | src/PlaylistImporter.js:138-141 | one item's `{name, artist}` from its track object's name and first artist, or nothing when it lists no artist (properties: TracksOf) |
| Importer.WidestThumbnail | src/PlaylistImporter.js:174-176 | the chosen thumbnail is at least as wide as every other and strictly wider than every earlier one (the first among ties); the list must be non-empty |
| Importer.FirstHit | src/PlaylistImporter.js:166-189 | a video is found exactly when the request succeeds with a first result that has thumbnails; it is that result's id with the URL of the first of its widest thumbnails |
| Importer.Converted | src/PlaylistImporter.js:144-164 | the entries of the tracks whose search finds a video, in track order; there are never more entries than tracks (properties: ConvertedConcat, ConvertedEntries, ConvertedKeepsHits) |
| Importer.ConvertedConcat | src/PlaylistImporter.js:144-164 | conversion works track by track, so the entries follow the tracks' order |
| Importer.ConvertedEntries | src/PlaylistImporter.js:147-157 | every entry belongs to a track whose search found a video, and is titled `artist - name` |
| Importer.ConvertedKeepsHits | src/PlaylistImporter.js:146-157 | every track whose search finds a video contributes its `artist - name` entry with that video |
| Importer.EntryFor | src/PlaylistImporter.js:150-156 | the entry with the found video's id, the title `artist - name` and the found thumbnail (properties: ConvertedEntries, ConvertedKeepsHits) |
| Importer.ConvertToYouTubeVideos | src/PlaylistImporter.js:144-164 | the loop collects exactly the `Converted` entries |
| Importer.Fetched | src/PlaylistImporter.js:82-88 | an invalid URL fails with its message; with a valid one, a failed request fails with the request's message, an item without artists fails with the TypeError message, and otherwise the mapped tracks are returned; a success means exactly that path |
| Importer.ImportedPlaylist | src/PlaylistImporter.js:91-95 | creating the playlist and adding the found videos leaves it holding its old list, or nothing, followed by every video in order; no other playlist changes |
| Importer.SuccessMessage | src/PlaylistImporter.js:97 | "Successfully imported <found> out of <total> songs to \"<name>\"", with both counts in decimal (properties: HandleImport) |
| Importer.PlaylistImporter.constructor | src/PlaylistImporter.js:65-69 | the importer starts with type playlist, empty inputs, not loading and no status |
| Importer.PlaylistImporter.HandleImport | src/PlaylistImporter.js:72-114 | a blank name only sets the name error; otherwise loading ends, a failure sets its message and changes nothing else, no match sets the no-matches error, and a success sets the count message, clears both inputs and updates the store as `ImportedPlaylist` describes |
| Importer.AddAll | src/PlaylistImporter.js:93-95 | the loop leaves the store as `WithSongs` of the old one |
| Importer.WithSongsStep | src/PlaylistImporter.js:93-95 | adding one more song after a run of songs is adding the longer run |
| SpotifyAuth.Key | src/apps/SpotifyApp.js:98-99 | the key is the text before the first `=`, or the whole item when it has no `=` |
| SpotifyAuth.Value | src/apps/SpotifyApp.js:98-99 | the decoded text between the first and second `=` of an item, or the decoding of "undefined" when it has no `=` (properties: KeyValueOf, PairItem) |
| SpotifyAuth.KeyValueOf | src/apps/SpotifyApp.js:98-99 | an item `key=value` (no `=` in either), followed by nothing or by a further `=`, yields that key and the decoded value |
| SpotifyAuth.Items | src/apps/SpotifyApp.js:93-95 | a fragment always has at least one item |
| SpotifyAuth.DropFirst | src/apps/SpotifyApp.js:94 | `substring(1)`: the fragment without its leading `#`, or empty (properties: Items, ThreeItems) |
| SpotifyAuth.Params | src/apps/SpotifyApp.js:96-102 | the object built from the items, left to right, skipping empty ones, each setting its key to its decoded value (properties: ParamsKeys, ParamsConcat, LastItemWins) |
| SpotifyAuth.FragmentParams | src/apps/SpotifyApp.js:93-102 | the parameters of a whole fragment (properties: ParseFragment, TokenResponse, ResponseParams) |
| SpotifyAuth.ParamsKeys | src/apps/SpotifyApp.js:96-102 | the keys of the parsed object are exactly the keys of the non-empty items |
| SpotifyAuth.ParamsConcat | src/apps/SpotifyApp.js:96-102 | parsing two runs of items gives the first run's parameters overridden by the second's |
| SpotifyAuth.LastItemWins | src/apps/SpotifyApp.js:99 | the value under a key is that of the last non-empty item with that key |
| SpotifyAuth.ParseFragment | src/apps/SpotifyApp.js:93-102 | the mutating `reduce` builds exactly the parameters of the fragment |
| SpotifyAuth.ThreeItems | src/apps/SpotifyApp.js:93-95 | a fragment of three items without `&` splits into exactly those items |
| SpotifyAuth.TokenResponse | src/apps/SpotifyApp.js:93-105 | an implicit-grant response fragment yields its access token and its lifetime |
| SpotifyAuth.ResponseItems | src/apps/SpotifyApp.js:98-99 | the three items of a response yield the keys `access_token`, `token_type` and `expires_in`, with the decoded token and lifetime |
| SpotifyAuth.ResponseParams | src/apps/SpotifyApp.js:96-102 | of three items with distinct keys, the first and last values are found under their keys |
| SpotifyAuth.PairItem | src/apps/SpotifyApp.js:98-99 | an item `key=value` yields that key and the decoded value |
| SpotifyAuth.ValidityOnlyEnds | src/apps/SpotifyApp.js:75-81 | a token valid later was valid earlier, an expired token stays expired, and a valid token has a non-empty token and a numeric expiry |
| SpotifyAuth.TokenValid | src/apps/SpotifyApp.js:75-81 | `checkTokenValidity`: false without a token or an expiry, otherwise whether the clock is before the parsed expiry, false on NaN (properties: ValidityOnlyEnds, NaNIsNotANumber, AdoptedTokenValidity) |
| SpotifyAuth.ExpiresAt | src/apps/SpotifyApp.js:108 | the stored expiry is never empty, and a lifetime that is not a number gives "NaN" |
| SpotifyAuth.NaNIsNotANumber | src/apps/SpotifyApp.js:108-112 | the "NaN" stored for a failed lifetime reads back as NaN, so that token is never valid |
| SpotifyAuth.ExpiresAtReadsBack | src/apps/SpotifyApp.js:108-112 | a stored expiry reads back as the clock plus the lifetime times 1000 |
| SpotifyAuth.AdoptedTokenValidity | src/apps/SpotifyApp.js:75-81 | an adopted token is valid exactly until its lifetime has passed, and never when the lifetime is not a number |
| SpotifyAuth.Decide | src/apps/SpotifyApp.js:91-121 | the stored token is reused exactly when it is valid; otherwise a non-empty fragment token is adopted with its computed expiry; authentication happens only when neither applies |
| SpotifyAuth.DecideWhenInvalid | src/apps/SpotifyApp.js:91-117 | without a valid stored token, a non-empty fragment token is adopted with its computed expiry, and otherwise authentication is asked for |
| SpotifyAuth.AdoptionSettles | src/apps/SpotifyApp.js:107-121 | after a token with a positive lifetime is adopted, the effect's next run reuses it |
| SpotifyAuth.SpotifySession.constructor | src/apps/SpotifyApp.js:70-73 | the token and the expiry start from storage, or empty; the search starts empty |
| SpotifyAuth.SpotifySession.RunTokenEffect | src/apps/SpotifyApp.js:91-121 | reuse hands the stored token to the client; adoption writes the new token and expiry to state and storage and hands the token over; otherwise the result asks for the redirect and nothing changes |
| SpotifyAuth.SpotifySession.UseFragment | src/apps/SpotifyApp.js:93-117 | authentication is asked for exactly when the fragment has no non-empty `access_token`; otherwise that token and the given expiry go to state and storage and the token goes to the client; the search is unchanged |
| SpotifyAuth.SpotifySession.HandleSearch | src/apps/SpotifyApp.js:134-147 | an empty term does nothing; a result replaces the list; a failure keeps it and asks for the redirect exactly on status 401 |
| RadioPlayer.NextIndex | src/apps/OldRadioPlayerApp.js:181 | the next index stays in the playlist, moving one forward and wrapping from the last track to the first |
| RadioPlayer.PrevIndex | src/apps/OldRadioPlayerApp.js:182 | the previous index stays in the playlist, moving one back and wrapping from the first track to the last |
| RadioPlayer.EndedIndex | src/apps/OldRadioPlayerApp.js:129-131 | ENDED moves one forward except from the last track, and stays in the playlist |
| RadioPlayer.NextPrevInverse | src/apps/OldRadioPlayerApp.js:181-182 | previous undoes next, and next undoes previous |
| RadioPlayer.AdvanceNoWrap | src/apps/OldRadioPlayerApp.js:181 | presses that do not pass the last track move one track each |
| RadioPlayer.AdvanceCompose | src/apps/OldRadioPlayerApp.js:181 | `a + b` presses of next are `a` presses followed by `b` presses |
| RadioPlayer.FullCycle | src/apps/OldRadioPlayerApp.js:181 | as many presses of next as there are tracks return to the same track |
| RadioPlayer.EndedVersusNext | src/apps/OldRadioPlayerApp.js:127-131 | ENDED and next agree except at the last track, where ENDED stays and next wraps to 0 |
| RadioPlayer.RadioPlayerApp.constructor | src/apps/OldRadioPlayerApp.js:108-114 | the player starts at the given track, not playing and not ready |
| RadioPlayer.RadioPlayerApp.OnPlayerReady | src/apps/OldRadioPlayerApp.js:117-122 | the player becomes ready and records the duration |
| RadioPlayer.RadioPlayerApp.OnPlayerStateChange | src/apps/OldRadioPlayerApp.js:124-133 | playing exactly when the state is PLAYING; ENDED takes `EndedIndex`; the index stays in the playlist |
| RadioPlayer.RadioPlayerApp.PlayNextTrack | src/apps/OldRadioPlayerApp.js:181 | the index becomes `NextIndex` and stays in the playlist |
| RadioPlayer.RadioPlayerApp.PlayPreviousTrack | src/apps/OldRadioPlayerApp.js:182 | the index becomes `PrevIndex` and stays in the playlist |
| RadioPlayer.RadioPlayerApp.SelectTrack | src/apps/OldRadioPlayerApp.js:232 | a click on row k sets the index to k |
| RadioPlayer.RadioPlayerApp.TrackToLoad | src/apps/OldRadioPlayerApp.js:173-177 | the current track's video is loaded exactly when the player is ready |
| YouTubePlayer.ForwardPresses | src/apps/YouTubePlayerApp.js:324-328 | `k` presses of next from track `i` reach `i + k`, or the last track when that passes the end |
| YouTubePlayer.BackwardPresses | src/apps/YouTubePlayerApp.js:330-334 | `k` presses of previous from track `i` reach `i - k`, or the first track when that passes the start |
| YouTubePlayer.NextIndex | src/apps/YouTubePlayerApp.js:324-328 | one track forward, except from the last track (properties: StepsStayInRange, StepsInverse, ForwardPresses) |
| YouTubePlayer.PrevIndex | src/apps/YouTubePlayerApp.js:330-334 | one track back, except from the first track (properties: StepsStayInRange, StepsInverse, BackwardPresses) |
| YouTubePlayer.StepsStayInRange | src/apps/YouTubePlayerApp.js:259-263 | both steps keep an index inside the playlist and stop at its ends |
| YouTubePlayer.StepsInverse | src/apps/YouTubePlayerApp.js:324-334 | away from the ends, each step undoes the other |
| YouTubePlayer.TwoDigits | src/apps/YouTubePlayerApp.js:456 | seconds under 60 print as exactly two digits that read back as the seconds |
| YouTubePlayer.FormatTimeParts | src/apps/YouTubePlayerApp.js:453-457 | the clock text has one colon; minutes times 60 plus the two-digit seconds (under 60) give back the time |
| YouTubePlayer.FormatTime | src/apps/YouTubePlayerApp.js:453-457 | `formatTime`: whole minutes, a colon and the remaining seconds on two digits (properties: FormatTimeParts, TwoDigits) |
| YouTubePlayer.YouTubePlayerApp.constructor | src/apps/YouTubePlayerApp.js:220-228 | the player starts at the given track, loading, with no error |
| YouTubePlayer.YouTubePlayerApp.Mount | src/apps/YouTubePlayerApp.js:336-408 | an empty playlist, an API failure and a missing video id each set their error and stop loading; otherwise the current track's video is returned |
| YouTubePlayer.YouTubePlayerApp.OnPlayerReady | src/apps/YouTubePlayerApp.js:243-249 | the player becomes ready and records the duration |
| YouTubePlayer.YouTubePlayerApp.OnPlayerStateChange | src/apps/YouTubePlayerApp.js:251-265 | playing exactly on PLAYING, which also ends loading; ENDED moves to `NextIndex`; an index in range stays in range |
| YouTubePlayer.YouTubePlayerApp.OnPlayerError | src/apps/YouTubePlayerApp.js:267-272 | the error names the player's code, and loading ends |
| YouTubePlayer.YouTubePlayerApp.StopVideo | src/apps/YouTubePlayerApp.js:317-322 | on a ready player the time goes back to 0; otherwise nothing changes |
| YouTubePlayer.YouTubePlayerApp.PlayNextTrack | src/apps/YouTubePlayerApp.js:324-328 | the index becomes `NextIndex`; an index in range stays in range |
| YouTubePlayer.YouTubePlayerApp.PlayPreviousTrack | src/apps/YouTubePlayerApp.js:330-334 | the index becomes `PrevIndex`; an index in range stays in range |
| YouTubePlayer.YouTubePlayerApp.SelectTrack | src/apps/YouTubePlayerApp.js:503 | a click on row k sets the index to k |
| YouTubePlayer.YouTubePlayerApp.TrackChange | src/apps/YouTubePlayerApp.js:425-431 | a video is loaded, and loading starts, exactly when the player is ready and the index names a track |
| YouTubeSearch.DraftRequestOpens | src/apps/YouTubeSearchApp.js:160-163 | the player window requested for a non-empty draft starts at the draft's first track |
| YouTubeSearch.EntryOf | src/apps/YouTubeSearchApp.js:149 | the draft entry of a search result: its video id and its snippet (properties: AddToPlaylist) |
| YouTubeSearch.YouTubeSearchApp.constructor | src/apps/YouTubeSearchApp.js:125-128 | the search, results, draft and name start empty |
| YouTubeSearch.YouTubeSearchApp.HandleSearch | src/apps/YouTubeSearchApp.js:130-146 | a successful search replaces the results wholesale; a failed one leaves them |
| YouTubeSearch.YouTubeSearchApp.AddToPlaylist | src/apps/YouTubeSearchApp.js:148-150 | exactly one entry, carrying the result's video id and its snippet (title and channel), is appended to the draft; nothing else changes |
| YouTubeSearch.YouTubeSearchApp.SaveCurrentPlaylist | src/apps/YouTubeSearchApp.js:152-158 | with a name and a non-empty draft, the draft is saved under the name as it was before, and both are cleared; otherwise nothing changes |
| YouTubeSearch.YouTubeSearchApp.PlayPlaylist | src/apps/YouTubeSearchApp.js:160-164 | a window is requested exactly when the draft is non-empty, at index 0, 376×535, closing like the opener |
| PlaylistManager.GuardedSaveIsCreate | src/apps/PlaylistManagerApp.js:59-64 | the manager's guarded save of an empty list is `createPlaylist`, so it never overwrites |
| PlaylistManager.PlayRequest | src/apps/PlaylistManagerApp.js:66-82 | a radio window is requested exactly when the named playlist holds at least one track, at index 0 (a track of it), 376×535, with a close action that does nothing |
| PlaylistManager.PlaylistManagerApp.constructor | src/apps/PlaylistManagerApp.js:56-57 | nothing is selected and the name input is empty |
| PlaylistManager.PlaylistManagerApp.HandleCreatePlaylist | src/apps/PlaylistManagerApp.js:59-64 | a non-empty name that holds no list gets an empty list and the input is cleared; otherwise nothing changes; no existing list ever changes |
| PlaylistManager.PlaylistManagerApp.PlayPlaylist | src/apps/PlaylistManagerApp.js:66-82 | the request is `PlayRequest` |
| PlaylistManager.PlaylistManagerApp.SelectPlaylist | src/apps/PlaylistManagerApp.js:99 | a click on a row selects that playlist |
| Themes.ThemeNamed | src/ThemeContext.js:12-26 | the result is one of the three tables; it carries the requested name exactly when that is a table's name; any other name gives Windows XP |
| Themes.SelectedByOwnName | src/ThemeContext.js:13-22 | each of the three tables is selected by its own name |
| Themes.UnknownNameIsXP | src/ThemeContext.js:23-24 | "Old Radio" and the empty name select Windows XP |
| Themes.ThemeProvider.constructor | src/ThemeContext.js:10 | the initial theme is Windows 95 |
| Themes.ThemeProvider.ToggleTheme | src/ThemeContext.js:12-26 | the new theme depends on the name only |
| Themes.ToggleIdempotent | src/ThemeContext.js:12-26 | toggling to a selected theme's name keeps that theme |
| Text.DigitChar | src/apps/YouTubePlayerApp.js:456 | a digit value prints as the digit character that reads back as it |
| Text.NatToString | src/apps/YouTubePlayerApp.js:456 | a natural number prints as a non-empty run of digits with no leading zero |
| Text.IntToString | src/apps/SpotifyApp.js:112 | an integer prints as a non-empty text that starts with `-` exactly when it is negative, and is all digits otherwise |
| Text.ParseNatToString | src/apps/YouTubePlayerApp.js:456 | printed digits read back as the number |
| Text.NatToStringInjective | src/App.js:116 | different numbers print differently |
| Text.TrimStart | src/PlaylistImporter.js:73 | only leading white space is dropped, and all of it |
| Text.TrimEnd | src/PlaylistImporter.js:73 | only trailing white space is dropped, and all of it |
| Text.TrimEmptyIffBlank | src/PlaylistImporter.js:73 | a name trims to nothing exactly when it is all white space |
| Text.Trim | src/PlaylistImporter.js:73 | `trim`: leading and then trailing white space removed (properties: TrimStart, TrimEnd, TrimEmptyIffBlank) |
| Text.DigitPrefix | src/apps/SpotifyApp.js:80 | the longest run of digits at the start of the text |
| Text.ParseIntNaN | src/apps/SpotifyApp.js:80 | `parseInt` gives NaN exactly when no digit follows the leading white space and optional sign |
| Text.ParseInt | src/apps/SpotifyApp.js:80 | `parseInt(s, 10)`: white space skipped, an optional sign, then the leading digits, or NaN without any (properties: ParseIntNaN, ParseIntToString, AllDigitsPrefix) |
| Text.ParseIntToString | src/apps/SpotifyApp.js:108-112 | `parseInt` reads back any printed integer |
| Text.AllDigitsPrefix | src/apps/SpotifyApp.js:80 | a run of digits is its own digit prefix |
| Text.Split | src/apps/SpotifyApp.js:95 | a split has at least one piece, and no piece contains the separator |
| Text.JoinSplit | src/apps/SpotifyApp.js:95 | joining the pieces with the separator restores the text |
| Text.SplitFirstPiece | src/PlaylistImporter.js:82 | the first piece is the text before the first separator |
| Text.SplitFirstPieceOf | src/PlaylistImporter.js:82 | a text without the separator, followed by nothing or by the separator, is the first piece |
| Text.SplitWithout | src/apps/SpotifyApp.js:95 | a text without the separator splits into itself alone |
| Text.SplitAfterSeparator | src/apps/SpotifyApp.js:95 | a text without the separator, followed by the separator, is the first piece, and the rest splits on its own |
| Text.IndexOfFromFound | src/PlaylistImporter.js:82 | a found position is at or after the start, and the pattern occurs there |
| Text.IndexOfFromFirst | src/PlaylistImporter.js:82 | no occurrence lies between the start and a found position, and none at all after the start when nothing is found |
| Text.FirstPieceFacts | src/PlaylistImporter.js:82 | the first piece is a prefix without the separator, ended by the separator or by the end of the text |
| Text.FirstPieceOfSplit | src/PlaylistImporter.js:82 | the first piece is element 0 of the split |

## Left out

- Network, SDK and browser calls are oracle parameters with no visible semantics: the Spotify token and track requests (`fetch`), the Invidious search (`search`), the YouTube IFrame API load (`apiError`), the Spotify and YouTube searches (`SearchOutcome`, `Option` responses), and the cloud read (`LoadPlaylists`).
- The client-credentials request (src/PlaylistImporter.js:116-127) is folded into the error branch of `fetch`, since it happens first and only its failure is visible.
- `decodeURIComponent` is the parameter `decode`. Its URIError on malformed input is not modelled.
- The clock is the parameter `now`, and `Date.now()` in ad-hoc ids is a parameter. The 1 s top-bar clock, the progress-polling intervals, seeking and `parseFloat` are not modelled. Times are whole seconds or milliseconds, with no floating point.
- `loadVideo`'s retry loop with `setTimeout`, and its error after three attempts, are not modelled (src/apps/YouTubePlayerApp.js:274-301). The same goes for the radio's `loadVideo` and the YouTube player construction.
- `authenticateSpotify`'s URL construction and redirect become the result `authenticate`. `history.replaceState` is not modelled.
- Firebase persistence (every `*ToCloud` call) is not modelled, and neither is src/firebaseConfig.js.
- `handleTrackSelect` (the 320×450 CD player window) and all of src/apps/CDPlayer.js are not part of this model.
- `removeSongFromPlaylist` is expected by the playlist manager but provided by no store, so it is not modelled.
- The four-argument `openNewWindow` calls of the search and manager apps are modelled as `WindowRequest` records. They are not linked to the three-argument store operation in src/App.js.
- Window records keep id, name, content, position and size. The registry's icon and default size, which the spread copies into the record, are not kept.
- `updateAppSize` takes the width and height already read by `parseInt`. A NaN size is not modelled.
- WindowStore.Desktop.UpdateAppPosition requires the id to be open: the source would throw on the missing window's `size`.
- The drag library's own `bounds` and minimum-size enforcement is not modelled.
- Object keys that JavaScript treats specially are ordinary map keys here: `__proto__`, and the names inherited from `Object.prototype` (`constructor`, `toString`, `hasOwnProperty`, `valueOf` and the rest). In the source, a lookup of such a name finds the inherited value. So `createPlaylist` and the manager's create guard (src/PlaylistContext.js:66, src/apps/PlaylistManagerApp.js:60) refuse it, and `addSongToPlaylist` throws when spreading it (src/PlaylistContext.js:55). Here `Created`, `HandleCreatePlaylist` and `WithSong` treat it as a missing name.
- Numbers are unbounded integers. Float precision of large timestamps and of `parseInt` results is not modelled.
- RadioPlayer.RadioPlayerApp.constructor requires a non-empty playlist. Its only opener checks for that, and an empty playlist would make the source's index arithmetic NaN.
- YouTubePlayer.YouTubePlayerApp.Mount: an `undefined` playlist is treated as an empty one. The missing-container early return is not modelled.
- Importer.PlaylistImporter.HandleImport: the click is one atomic step from the store's state at the click. In the source, the awaits of src/PlaylistImporter.js:87-89 and 94 let other updates land in between, and `createPlaylist` (src/PlaylistImporter.js:92) tests the playlist object of the render that handled the click (src/PlaylistContext.js:66). That interleaving is not modelled.
- The thrown TypeError for an item without artists is represented by one fixed message. The engine's exact wording may differ.
- The token expiry is stored as its decimal text. This equals what the browser's storage keeps, but the in-memory number set by `setTokenExpiry` is not kept separately.
- The render, styling and colour tables of src/themes.js, src/apps/PlaylistManager.js, src/apps/MusicApp.js and src/SignIn.js are not part of this model.
